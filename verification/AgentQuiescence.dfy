/** After shutdown the agent runs dry: only finitely many requests are created and every transaction goes away. */
module AgentQuiescence {
  import opened Prelude
  import opened AgentTypes
  import opened AgentSpec
  import opened AgentLinks
  import opened AgentTransport

  /** How many requests a live transaction may still lead to, itself included. */
  function Rank(h: Handler): (r: nat)
    ensures 1 <= r <= 4
  {
    match h
    case RegisterFinal(expires, authenticated) =>
      if expires > 0 then (if authenticated then 3 else 4) else (if authenticated then 1 else 2)
    case InviteFinal(_) => 2
    case Ignore => 1
  }

  ghost function Total(txs: map<Key, Transaction>): nat
    decreases |txs|
  {
    if txs == map[] then 0
    else
      var k :| k in txs;
      Rank(txs[k].handler) + Total(txs - {k})
  }

  /** The total does not depend on the order of summation. */
  lemma {:induction false} TotalRemove(txs: map<Key, Transaction>, k: Key)
    requires k in txs
    ensures Total(txs) == Rank(txs[k].handler) + Total(txs - {k})
    decreases |txs|
  {
    var l :| l in txs && Total(txs) == Rank(txs[l].handler) + Total(txs - {l});
    if l != k {
      TotalRemove(txs - {l}, k);
      TotalRemove(txs - {k}, l);
      assert txs - {l} - {k} == txs - {k} - {l};
    }
  }

  lemma TotalAdd(txs: map<Key, Transaction>, k: Key, t: Transaction)
    requires k !in txs
    ensures Total(txs[k := t]) == Total(txs) + Rank(t.handler)
  {
    TotalRemove(txs[k := t], k);
    assert txs[k := t] - {k} == txs;
  }

  lemma TotalRetime(txs: map<Key, Transaction>, k: Key, t: Transaction)
    requires k in txs && t.handler == txs[k].handler
    ensures Total(txs[k := t]) == Total(txs)
  {
    TotalRemove(txs, k);
    TotalRemove(txs[k := t], k);
    assert txs[k := t] - {k} == txs - {k};
  }

  /** How many requests have been created. */
  function Requests(wire: seq<Wire>): nat {
    if wire == [] then 0 else Requests(wire[..|wire| - 1]) + (if wire[|wire| - 1].Created? then 1 else 0)
  }

  lemma RequestsAppend(wire: seq<Wire>, w: Wire)
    ensures Requests(wire + [w]) == Requests(wire) + (if w.Created? then 1 else 0)
  {
    assert (wire + [w])[..|wire|] == wire;
  }

  /** The agent is shutting down: no call, and no registration wanted or in place. */
  ghost predicate Quitting(a: Agent) {
    a.shutting && a.call.None? && !a.reg.wanted && !a.reg.registered
  }

  /** Every request created is paid for by the total. */
  ghost predicate Pays(a: Agent, b: Agent) {
    && Requests(b.wire) + Total(b.txs) <= Requests(a.wire) + Total(a.txs)
    && Total(b.txs) <= Total(a.txs) && Requests(a.wire) <= Requests(b.wire)
  }

  // ---- One transaction ends ----

  /** A request launched when a transaction of higher rank was closed. */
  lemma LaunchPays(a: Agent, key: Key, b: Agent, next: Key, t: Transaction)
    requires key in a.txs && next !in a.txs && b.txs == (a.txs - {key})[next := t]
    requires Rank(t.handler) < Rank(a.txs[key].handler)
    requires Requests(b.wire) == Requests(a.wire) + 1
    ensures Pays(a, b) && Total(b.txs) < Total(a.txs)
  {
    TotalRemove(a.txs, key);
    TotalAdd(a.txs - {key}, next, t);
  }

  lemma ClosePays(a: Agent, key: Key, b: Agent)
    requires key in a.txs && b.txs == a.txs - {key} && Requests(b.wire) == Requests(a.wire)
    ensures Pays(a, b) && Total(b.txs) < Total(a.txs)
  {
    TotalRemove(a.txs, key);
  }

  lemma UnusedKey(a: Agent, k: Key)
    requires Linked(a) && k.branch >= a.names
    ensures k !in a.txs
  {
    assert k in a.txs ==> TxOk(k, a.txs[k], a.names, a.born);
  }

  lemma RegisterFinishPays(a: Agent, key: Key, response: Option<Response>, host: Host, now: int)
    requires Quitting(a) && Linked(a) && key in a.txs && a.txs[key].handler.RegisterFinal?
    ensures var b := Finish(a, key, response, host, now); Quitting(b) && Pays(a, b) && Total(b.txs) < Total(a.txs)
  {
    var b := Finish(a, key, response, host, now);
    var next := Key(a.names, REGISTER);
    UnusedKey(a, next);
    if b.wire == a.wire {
      ClosePays(a, key, b);
    } else {
      RequestsAppend(a.wire, b.wire[|a.wire|]);
      LaunchPays(a, key, b, next, b.txs[next]);
    }
  }

  lemma InviteFinishPays(a: Agent, key: Key, response: Option<Response>, host: Host, now: int)
    requires Quitting(a) && Linked(a) && key in a.txs && a.txs[key].handler.InviteFinal?
    ensures var b := Finish(a, key, response, host, now); Quitting(b) && Pays(a, b) && Total(b.txs) < Total(a.txs)
  {
    var b := Finish(a, key, response, host, now);
    if response.Some? && response.value.status < 300 {
      var next := Key(a.names + 1, BYE);
      UnusedKey(a, next);
      RequestsAppend(a.wire, b.wire[|a.wire|]);
      RequestsAppend(a.wire + [b.wire[|a.wire|]], b.wire[|a.wire| + 1]);
      LaunchPays(a, key, b, next, b.txs[next]);
    } else {
      if response.Some? {
        RequestsAppend(a.wire, b.wire[|a.wire|]);
      }
      ClosePays(a, key, b);
    }
  }

  /** A final response, a timeout or a lost connection brings the total down, whatever it leads to. */
  lemma FinishPays(a: Agent, key: Key, response: Option<Response>, host: Host, now: int)
    requires Quitting(a) && Linked(a) && key in a.txs
    ensures var b := Finish(a, key, response, host, now); Quitting(b) && Pays(a, b) && Total(b.txs) < Total(a.txs)
  {
    match a.txs[key].handler
    case RegisterFinal(_, _) => RegisterFinishPays(a, key, response, host, now);
    case InviteFinal(_) => InviteFinishPays(a, key, response, host, now);
    case Ignore => ClosePays(a, key, Finish(a, key, response, host, now));
  }

  lemma {:induction false} FailAllPays(a: Agent, keys: seq<Key>, now: int)
    requires Quitting(a) && Linked(a)
    ensures var b := FailAll(a, keys, now);
            && Quitting(b) && Pays(a, b)
            && (keys != [] && keys[0] in a.txs ==> Total(b.txs) < Total(a.txs))
    decreases |keys|
  {
    if keys != [] {
      if keys[0] in a.txs {
        FinishPays(a, keys[0], None, NO_HOST, now);
        FinishLinked(a, keys[0], None, NO_HOST, now);
      }
      FailAllPays(if keys[0] in a.txs then Finish(a, keys[0], None, NO_HOST, now) else a, keys[1..], now);
    }
  }

  // ---- Inputs ----

  lemma {:induction false} RetransmitAllPays(a: Agent, order: seq<Key>, now: int)
    ensures var b := RetransmitAll(a, order, now);
            && Total(b.txs) == Total(a.txs) && Requests(b.wire) == Requests(a.wire) && b.txs.Keys == a.txs.Keys
            && b.call == a.call && b.reg == a.reg && b.shutting == a.shutting
    decreases |order|
  {
    if order != [] {
      var b := if order[0] in a.txs then Retransmit(a, order[0], now) else a;
      if order[0] in a.txs && RetransmitDue(a.txs[order[0]], now) {
        TotalRetime(a.txs, order[0], b.txs[order[0]]);
        RequestsAppend(a.wire, b.wire[|a.wire|]);
      }
      RetransmitAllPays(b, order[1..], now);
    }
  }

  lemma TimerIsFailAll(a: Agent, order: seq<Key>, now: int)
    requires Quitting(a) && Linked(a)
    ensures OnTimer(a, order, now) == FailAll(RetransmitAll(a, order, now), Expired(a, order, now), now)
  {
    RetransmitAllPays(a, order, now);
    RetransmitAllLinked(a, order, now);
    FailAllPays(RetransmitAll(a, order, now), Expired(a, order, now), now);
  }

  lemma TimerPays(a: Agent, order: seq<Key>, now: int)
    requires Quitting(a) && Linked(a)
    ensures var b := OnTimer(a, order, now);
            && Quitting(b) && Pays(a, b)
            && (Expired(a, order, now) != [] ==> Total(b.txs) < Total(a.txs))
  {
    TimerIsFailAll(a, order, now);
    RetransmitAllPays(a, order, now);
    RetransmitAllLinked(a, order, now);
    ExpiredLive(a, order, now);
    FailAllPays(RetransmitAll(a, order, now), Expired(a, order, now), now);
  }

  lemma {:induction false} ExpiredLive(a: Agent, order: seq<Key>, now: int)
    ensures forall k :: k in Expired(a, order, now) ==> k in a.txs
    ensures (exists i :: 0 <= i < |order| && order[i] in a.txs && Due(a.txs[order[i]], now)) ==>
            Expired(a, order, now) != []
    decreases |order|
  {
    if order != [] {
      ExpiredLive(a, order[1..], now);
      if i :| 0 <= i < |order| && order[i] in a.txs && Due(a.txs[order[i]], now) {
        if i > 0 {
          assert order[1..][i - 1] == order[i];
        }
      }
    }
  }

  lemma DownPays(a: Agent, order: seq<Key>, now: int)
    requires Quitting(a) && Linked(a) && IsOrder(order, a.txs.Keys)
    ensures var b := OnTransportDown(a, order, now); Quitting(b) && Pays(a, b) && b.txs == map[]
  {
    DownIsFailAll(a, order, now);
    FailAllPays(a, order, now);
  }

  lemma ProvisionalPays(a: Agent, key: Key, status: int, now: int)
    requires Quitting(a) && key in a.txs
    ensures var b := OnProvisional(a, key, status, now);
            Quitting(b) && Requests(b.wire) == Requests(a.wire) && Total(b.txs) == Total(a.txs)
  {
    RequestsAppend(a.wire, Heard(key));
    TotalRetime(a.txs, key, Soothe(a.txs[key], now));
  }

  lemma ResponsePays(a: Agent, r: Response, host: Host, now: int)
    requires Quitting(a) && Linked(a)
    ensures var b := OnResponse(a, r, host, now); Quitting(b) && Pays(a, b)
  {
    if r.verb.Some? && Key(r.branch, r.verb.value) in a.txs {
      var key := Key(r.branch, r.verb.value);
      if r.status < 200 {
        ProvisionalPays(a, key, r.status, now);
      } else {
        FinishPays(a, key, Some(r), host, now);
      }
    }
  }

  lemma RequestPays(a: Agent, q: Query, newId: int, host: Host, now: int)
    requires Quitting(a)
    ensures var b := OnRequest(a, q, newId, host, now);
            Quitting(b) && b.txs == a.txs && Requests(b.wire) == Requests(a.wire)
  {
    var b := OnRequest(a, q, newId, host, now);
    if b.wire != a.wire {
      RequestsAppend(a.wire, b.wire[|a.wire|]);
    }
  }

  /** Inputs other than asking again to stop or shut down. */
  predicate Passive(i: Input) { !i.Stop? && !i.Quit? }

  /** No other input raises the total or creates a request that is not paid for. */
  lemma StepPays(a: Agent, i: Input)
    requires Quitting(a) && Linked(a) && Allowed(a, i) && Passive(i)
    ensures Quitting(Step(a, i)) && Pays(a, Step(a, i))
  {
    match i
    case ResponseIn(r, host, now) => ResponsePays(a, r, host, now);
    case RequestIn(q, newId, host, now) => RequestPays(a, q, newId, host, now);
    case Tick(order, now) => TimerPays(a, order, now);
    case Down(order, now) => DownPays(a, order, now);
    case _ =>
  }

  /** A tick at which every live transaction is due, or a lost connection. */
  ghost predicate Sweeping(a: Agent, i: Input) {
    i.Down? || (i.Tick? && forall k :: k in a.txs ==> Due(a.txs[k], i.now))
  }

  lemma SweepDrops(a: Agent, i: Input)
    requires Quitting(a) && Linked(a) && Allowed(a, i) && Sweeping(a, i)
    ensures a.txs != map[] ==> Total(Step(a, i).txs) < Total(a.txs)
  {
    if a.txs != map[] {
      var k :| k in a.txs;
      TotalRemove(a.txs, k);
      if i.Down? {
        DownPays(a, i.order, i.now);
      } else {
        ExpiredLive(a, i.order, i.now);
        assert k in i.order;
        TimerPays(a, i.order, i.now);
      }
    }
  }

  /** After shutdown nothing brings back a call or a registration. */
  lemma ShutdownQuits(a: Agent, now: int)
    requires a.call.Some? && a.call.value.state == Calling ==> a.call.value.outgoing
    ensures Quitting(BeginShutdown(a, now))
  {
    var b := a.(shutting := true);
    if a.call.Some? {
      HangupEnds(b, now);
    }
  }

  lemma HangupEnds(a: Agent, now: int)
    requires a.shutting && a.call.Some?
    ensures Hangup(a, a.call.value.id, now).1.call.None? && Hangup(a, a.call.value.id, now).1.shutting
  {
    match a.call.value.state
    case Calling => EndEnds(HangupCalling(a, now), Shutdown, 0);
    case Ringing => EndEnds(Say(a, Responded(AnswerReply(a.call.value, 603, None), Direct)), OwnReason(a), 603);
    case Answering => EndEnds(SendBye(a, now), OwnReason(a), 0);
    case Confirmed => EndEnds(SendBye(a, now), OwnReason(a), 0);
  }

  lemma EndEnds(a: Agent, reason: EndReason, status: int)
    ensures EndCall(a, reason, status).call.None? && EndCall(a, reason, status).shutting == a.shutting
  {
  }
}
