/** A tick leaves nothing due. */
module AgentDeadlines {
  import opened Prelude
  import opened AgentTypes
  import opened AgentSpec
  import opened AgentLinks
  import opened AgentTimers
  import opened AgentAnswers
  import opened AgentStory
  import opened AgentRuns

  /** Neither the end nor the next copy of the transaction is due by now. */
  ghost predicate Later(t: Transaction, now: int) {
    t.deadline > now && (t.retransmitting ==> t.retransmitAt > now)
  }

  ghost predicate AllLater(a: Agent, now: int) {
    forall k :: k in a.txs ==> Later(a.txs[k], now)
  }

  ghost predicate LaterUnless(a: Agent, keys: seq<Key>, now: int) {
    forall k :: k in a.txs ==> k in keys || Later(a.txs[k], now)
  }

  /** Transactions are carried over or opened now. */
  ghost predicate Opened(txs: map<Key, Transaction>, txs': map<Key, Transaction>, now: int) {
    forall k :: k in txs' ==> (k in txs && txs'[k] == txs[k]) || Later(txs'[k], now)
  }

  lemma OpenedLater(a: Agent, b: Agent, now: int)
    requires AllLater(a, now) && Opened(a.txs, b.txs, now)
    ensures AllLater(b, now)
  {
  }

  // ---- Retransmissions ----

  lemma {:induction false} RetransmitAllSettles(a: Agent, order: seq<Key>, now: int)
    requires forall k :: k in a.txs ==> a.txs[k].interval >= T1
    ensures var b := RetransmitAll(a, order, now);
            && b.txs.Keys == a.txs.Keys
            && (forall k :: k in b.txs ==> b.txs[k].deadline == a.txs[k].deadline)
            && (forall k :: k in b.txs && (k in order || Later(a.txs[k], now)) ==>
                Due(b.txs[k], now) || Later(b.txs[k], now))
    decreases |order|
  {
    if order != [] {
      var b := if order[0] in a.txs then Retransmit(a, order[0], now) else a;
      RetransmitAllSettles(b, order[1..], now);
      var s := RetransmitAll(a, order, now);
      assert s == RetransmitAll(b, order[1..], now);
      forall k | k in s.txs && (k in order || Later(a.txs[k], now)) ensures Due(s.txs[k], now) || Later(s.txs[k], now) {
        if k == order[0] {
          assert Due(b.txs[k], now) || Later(b.txs[k], now);
        } else {
          assert b.txs[k] == a.txs[k];
          assert k in order ==> k in order[1..];
        }
      }
    }
  }

  lemma {:induction false} ExpiredAreDue(a: Agent, order: seq<Key>, now: int)
    ensures forall k :: k in order && k in a.txs && Due(a.txs[k], now) ==> k in Expired(a, order, now)
    decreases |order|
  {
    if order != [] {
      ExpiredAreDue(a, order[1..], now);
    }
  }

  // ---- Handlers ----

  lemma RegisterFinalOpened(a: Agent, response: Option<Response>, expires: nat, authenticated: bool, now: int)
    ensures Opened(a.txs, OnRegisterFinal(a, response, expires, authenticated, now).txs, now)
  {
  }

  lemma FinishOpened(a: Agent, key: Key, now: int)
    requires key in a.txs
    ensures var b := Finish(a, key, None, NO_HOST, now); Opened(a.txs - {key}, b.txs, now)
  {
    if a.txs[key].handler.RegisterFinal? {
      var h := a.txs[key].handler;
      RegisterFinalOpened(a.(txs := a.txs - {key}), None, h.expires, h.authenticated, now);
    }
  }

  lemma {:induction false} FailAllLater(a: Agent, keys: seq<Key>, now: int)
    requires LaterUnless(a, keys, now)
    ensures AllLater(FailAll(a, keys, now), now)
    decreases |keys|
  {
    if keys != [] {
      var b := if keys[0] in a.txs then Finish(a, keys[0], None, NO_HOST, now) else a;
      if keys[0] in a.txs {
        FinishOpened(a, keys[0], now);
      }
      forall k | k in b.txs ensures k in keys[1..] || Later(b.txs[k], now) {
        if k in a.txs && b.txs[k] == a.txs[k] && k in keys && k !in keys[1..] {
          assert k == keys[0];
        }
      }
      FailAllLater(b, keys[1..], now);
    }
  }

  lemma ByeOpened(a: Agent, now: int)
    requires a.call.Some?
    ensures Opened(a.txs, EndCall(SendBye(a, now), Timeout, 408).txs, now)
  {
  }

  lemma TimeAnswerLater(a: Agent, now: int)
    requires AllLater(a, now) && Answers(a) && (a.call.Some? ==> Sane(a.call.value))
    ensures AllLater(TimeAnswer(a, now), now)
    ensures var c := TimeAnswer(a, now).call;
            c.Some? && c.value.state == Answering ==> c.value.resendAt > now && c.value.ackDeadline > now
  {
    if a.call.Some? && a.call.value.state == Answering && now >= a.call.value.ackDeadline {
      ByeOpened(a, now);
      OpenedLater(a, EndCall(SendBye(a, now), Timeout, 408), now);
    }
  }

  lemma TimeRegistrationLater(a: Agent, now: int)
    requires AllLater(a, now)
    ensures AllLater(TimeRegistration(a, now), now) && TimeRegistration(a, now).call == a.call
  {
  }

  /** After a tick every deadline of a transaction or of an unacknowledged 200 lies strictly in the future. */
  lemma NothingDueAfterTick(a: Agent, order: seq<Key>, now: int)
    requires Inv(a) && IsOrder(order, a.txs.Keys)
    ensures var b := OnTimer(a, order, now);
            && AllLater(b, now)
            && (b.call.Some? && b.call.value.state == Answering ==>
                b.call.value.resendAt > now && b.call.value.ackDeadline > now)
  {
    var b, keys := RetransmitAll(a, order, now), Expired(a, order, now);
    var d := FailAll(b, keys, now);
    forall k | k in a.txs ensures a.txs[k].interval >= T1 {
      assert TimedTx(a.cfg.reliable, k, a.txs[k], Copies(a.wire, k));
    }
    RetransmitAllSettles(a, order, now);
    ExpiredAreDue(a, order, now);
    forall k | k in b.txs ensures k in keys || Later(b.txs[k], now) {
      assert k in order;
    }
    FailAllLater(b, keys, now);
    BeforeAnswer(a, order, now);
    TimeAnswerLater(d, now);
    TimeRegistrationLater(TimeAnswer(d, now), now);
  }

  lemma BeforeAnswer(a: Agent, order: seq<Key>, now: int)
    requires Inv(a)
    ensures var d := FailAll(RetransmitAll(a, order, now), Expired(a, order, now), now); Told(d) && Answers(d)
  {
    var b, keys := RetransmitAll(a, order, now), Expired(a, order, now);
    RetransmitQuiet(a, order, now);
    QuietKeepsTold(a, b);
    RetransmitAllLinked(a, order, now);
    RetransmitAllMute(a, order, now);
    MuteKeeps(a, b);
    FailAllTold(b, keys, now);
    FailAllAnswers(b, keys, now);
  }

  // ---- The next deadline ----

  /** The times at which a tick may have something to do. */
  ghost predicate IsDeadline(a: Agent, at: int) {
    || (exists k :: k in a.txs && (at == a.txs[k].deadline || (a.txs[k].retransmitting && at == a.txs[k].retransmitAt)))
    || (a.call.Some? && a.call.value.state == Answering
        && (at == a.call.value.resendAt || at == a.call.value.ackDeadline))
    || (a.reg.wanted && a.reg.nextAttempt == Some(at))
  }

  lemma {:induction false} NothingToRetransmit(a: Agent, order: seq<Key>, now: int)
    requires AllLater(a, now)
    ensures RetransmitAll(a, order, now) == a && Expired(a, order, now) == []
    decreases |order|
  {
    if order != [] {
      NothingToRetransmit(a, order[1..], now);
    }
  }

  /** A tick before every deadline changes nothing, so the agent need not be woken sooner. */
  lemma EarlyTickIsIdle(a: Agent, order: seq<Key>, now: int)
    requires forall at :: IsDeadline(a, at) ==> now < at
    ensures OnTimer(a, order, now) == a
  {
    forall k | k in a.txs ensures Later(a.txs[k], now) {
      assert IsDeadline(a, a.txs[k].deadline);
      assert a.txs[k].retransmitting ==> IsDeadline(a, a.txs[k].retransmitAt);
    }
    NothingToRetransmit(a, order, now);
    if a.call.Some? && a.call.value.state == Answering {
      assert IsDeadline(a, a.call.value.resendAt) && IsDeadline(a, a.call.value.ackDeadline);
    }
    assert TimeAnswer(a, now) == a;
    if a.reg.wanted && a.reg.nextAttempt.Some? {
      assert IsDeadline(a, a.reg.nextAttempt.value);
    }
  }
}
