/** Losing and regaining the connection. */
module AgentTransport {
  import opened Prelude
  import opened AgentTypes
  import opened AgentSpec
  import opened AgentLinks

  // ---- A REGISTER said to be in flight is live ----

  ghost predicate RegisterLive(a: Agent) {
    a.reg.inFlight ==> exists k :: k in a.txs && k.verb == REGISTER
  }

  /** Steps that neither send nor close a REGISTER. */
  ghost predicate SameRegisters(a: Agent, b: Agent) {
    && b.reg.inFlight == a.reg.inFlight && b.reg.wanted == a.reg.wanted && b.reg.nextAttempt == a.reg.nextAttempt
    && forall k :: k in a.txs && k.verb == REGISTER ==> k in b.txs
  }

  lemma SameRegistersKeep(a: Agent, b: Agent)
    requires RegisterLive(a) && SameRegisters(a, b)
    ensures RegisterLive(b)
  {
  }

  lemma SendRegisterLive(a: Agent, expires: nat, authorization: Option<string>, now: int)
    ensures RegisterLive(SendRegister(a, expires, authorization, now))
  {
    assert Key(a.names, REGISTER) in SendRegister(a, expires, authorization, now).txs;
  }

  lemma StartRegistrationLive(a: Agent, now: int)
    requires RegisterLive(a)
    ensures RegisterLive(StartRegistration(a, now))
  {
    SendRegisterLive(a.(reg := a.reg.(wanted := true, nextAttempt := None)), a.cfg.registerExpires, None, now);
  }

  lemma StopRegistrationLive(a: Agent, now: int)
    requires RegisterLive(a)
    ensures RegisterLive(StopRegistration(a, now))
  {
    SendRegisterLive(a.(reg := a.reg.(wanted := false, nextAttempt := None, registered := false)), 0, None, now);
  }

  lemma RetryRegistrationLive(a: Agent, now: int)
    requires RegisterLive(a)
    ensures RegisterLive(TimeRegistration(a, now)) && RegisterLive(OnTransportUp(a, now))
  {
    SendRegisterLive(a.(reg := a.reg.(nextAttempt := None)), a.cfg.registerExpires, None, now);
  }

  lemma RegisterFinalLive(a: Agent, response: Option<Response>, expires: nat, authenticated: bool, now: int)
    ensures RegisterLive(OnRegisterFinal(a, response, expires, authenticated, now))
  {
    var b := a.(reg := a.reg.(inFlight := false));
    if response.Some? {
      SendRegisterLive(b, expires, response.value.authorization, now);
    }
    SendRegisterLive(b, 0, None, now);
  }

  lemma ByeAndEndRegisters(a: Agent, reason: EndReason, status: int, now: int)
    requires a.call.Some?
    ensures SameRegisters(a, EndCall(SendBye(a, now), reason, status))
  {
  }

  lemma DialRegisters(a: Agent, id: int, target: string, host: Host, now: int)
    ensures SameRegisters(a, Dial(a, id, target, host, now))
  {
  }

  lemma EstablishRegisters(a: Agent, r: Response, host: Host, now: int)
    requires a.call.Some?
    ensures SameRegisters(a, Establish(a, r, host, now))
  {
    var c := a.call.value;
    if c.cancelRequested {
      ByeAndEndRegisters(a, OwnReason(a), 0, now);
    } else if !UsableAnswer(a.cfg, r.answer) {
      ByeAndEndRegisters(a, MediaFailed, 488, now);
    } else {
      var b := Do(a, StartByAnswer(a.cfg, c, r.answer.value, host.startOk));
      ByeAndEndRegisters(b, MediaFailed, 488, now);
    }
  }

  lemma InviteFinalRegisters(a: Agent, context: InviteContext, response: Option<Response>, host: Host, now: int)
    ensures SameRegisters(a, OnInviteFinal(a, context, response, host, now))
  {
    if response.Some? && response.value.status < 300 {
      if Ours(a, context) {
        TakenRegisters(a, context, response.value, host, now);
      }
    } else if Ours(a, context) {
      InviteFailureRegisters(AckFailure(a, context, response), response, now);
    }
  }

  lemma TakenRegisters(a: Agent, context: InviteContext, r: Response, host: Host, now: int)
    requires Ours(a, context)
    ensures SameRegisters(a, OnInviteSuccess(a, context, r, host, now))
  {
    var ack := AckFor(context, r, a.names);
    var b := SetCall(Say(a.(names := a.names + 1), Acked(ack, context.callId)),
                     Confirm(a.call.value, context, r, ack));
    assert OnInviteSuccess(a, context, r, host, now) == Establish(b, r, host, now);
    EstablishRegisters(b, r, host, now);
  }

  lemma InviteFailureRegisters(a: Agent, response: Option<Response>, now: int)
    requires a.call.Some?
    ensures SameRegisters(a, OnInviteFailure(a, response, now))
  {
  }

  lemma FinishLive(a: Agent, key: Key, response: Option<Response>, host: Host, now: int)
    requires RegisterLive(a) && Linked(a) && key in a.txs
    ensures RegisterLive(Finish(a, key, response, host, now))
  {
    var b := a.(txs := a.txs - {key});
    assert TxOk(key, a.txs[key], a.names, a.born);
    match a.txs[key].handler
    case InviteFinal(context) =>
      SameRegistersKeep(a, b);
      InviteFinalRegisters(b, context, response, host, now);
      SameRegistersKeep(b, OnInviteFinal(b, context, response, host, now));
    case RegisterFinal(expires, authenticated) => RegisterFinalLive(b, response, expires, authenticated, now);
    case Ignore => SameRegistersKeep(a, b);
  }

  lemma {:induction false} FailAllLive(a: Agent, keys: seq<Key>, now: int)
    requires RegisterLive(a) && Linked(a)
    ensures RegisterLive(FailAll(a, keys, now))
    decreases |keys|
  {
    if keys != [] {
      if keys[0] in a.txs {
        FinishLive(a, keys[0], None, NO_HOST, now);
        FinishLinked(a, keys[0], None, NO_HOST, now);
      }
      FailAllLive(if keys[0] in a.txs then Finish(a, keys[0], None, NO_HOST, now) else a, keys[1..], now);
    }
  }

  lemma {:induction false} RetransmitAllRegisters(a: Agent, order: seq<Key>, now: int)
    ensures var b := RetransmitAll(a, order, now); b.txs.Keys == a.txs.Keys && b.reg == a.reg
    decreases |order|
  {
    if order != [] {
      RetransmitAllRegisters(if order[0] in a.txs then Retransmit(a, order[0], now) else a, order[1..], now);
    }
  }

  lemma ProvisionalRegisters(a: Agent, key: Key, status: int, now: int)
    requires key in a.txs
    ensures SameRegisters(a, OnProvisional(a, key, status, now))
  {
  }

  lemma ResponseLive(a: Agent, r: Response, host: Host, now: int)
    requires RegisterLive(a) && Linked(a)
    ensures RegisterLive(OnResponse(a, r, host, now))
  {
    if r.verb.Some? && Key(r.branch, r.verb.value) in a.txs {
      var key := Key(r.branch, r.verb.value);
      if r.status < 200 {
        ProvisionalRegisters(a, key, r.status, now);
        SameRegistersKeep(a, OnProvisional(a, key, r.status, now));
      } else {
        FinishLive(a, key, Some(r), host, now);
      }
    } else {
      SameRegistersKeep(a, OnResponse(a, r, host, now));
    }
  }

  lemma HangupCallingRegisters(a: Agent, now: int)
    requires a.call.Some?
    ensures SameRegisters(a, HangupCalling(a, now))
  {
  }

  lemma HangupRegisters(a: Agent, id: int, now: int)
    ensures SameRegisters(a, Hangup(a, id, now).1)
  {
    if a.call.Some? && a.call.value.state == Calling {
      HangupCallingRegisters(a, now);
    } else if a.call.Some? && (a.call.value.state == Answering || a.call.value.state == Confirmed) {
      ByeAndEndRegisters(a, OwnReason(a), 0, now);
    }
  }

  lemma IncomingRegisters(a: Agent, id: int, status: int, host: Host, now: int)
    ensures SameRegisters(a, Answer(a, id, host, now).1) && SameRegisters(a, Reject(a, id, status).1)
  {
    AnswerRegisters(a, id, host, now);
  }

  lemma AnswerRegisters(a: Agent, id: int, host: Host, now: int)
    ensures SameRegisters(a, Answer(a, id, host, now).1)
  {
  }

  lemma RequestRegisters(a: Agent, q: Query, newId: int, host: Host, now: int)
    ensures SameRegisters(a, OnRequest(a, q, newId, host, now))
  {
  }

  lemma ShutdownLive(a: Agent, now: int)
    requires RegisterLive(a)
    ensures RegisterLive(BeginShutdown(a, now))
  {
    var b := a.(shutting := true);
    var d := if a.call.Some? then Hangup(b, a.call.value.id, now).1 else b;
    if a.call.Some? {
      HangupRegisters(b, a.call.value.id, now);
    }
    SameRegistersKeep(a, d);
    StopRegistrationLive(d, now);
  }

  lemma TimeAnswerRegisters(a: Agent, now: int)
    ensures SameRegisters(a, TimeAnswer(a, now))
  {
    if a.call.Some? {
      ByeAndEndRegisters(a, Timeout, 408, now);
    }
  }

  lemma TimerLive(a: Agent, order: seq<Key>, now: int)
    requires RegisterLive(a) && Linked(a)
    ensures RegisterLive(OnTimer(a, order, now))
  {
    var b := RetransmitAll(a, order, now);
    var d := FailAll(b, Expired(a, order, now), now);
    var e := TimeAnswer(d, now);
    RetransmitAllRegisters(a, order, now);
    SameRegistersKeep(a, b);
    RetransmitAllLinked(a, order, now);
    FailAllLive(b, Expired(a, order, now), now);
    TimeAnswerRegisters(d, now);
    SameRegistersKeep(d, e);
    RetryRegistrationLive(e, now);
  }

  // ---- Failing transactions that were taken out of the table first ----

  /** A handler run without a response neither reads nor writes the table. */
  lemma FailureIgnoresTable(a: Agent, txs: map<Key, Transaction>, handler: Handler, now: int)
    ensures HandleFinal(a, handler, None, NO_HOST, now).txs == a.txs
    ensures HandleFinal(a.(txs := txs), handler, None, NO_HOST, now)
         == HandleFinal(a, handler, None, NO_HOST, now).(txs := txs)
  {
  }

  lemma FinishTable(a: Agent, key: Key, now: int)
    requires key in a.txs
    ensures Finish(a, key, None, NO_HOST, now).txs == a.txs - {key}
    ensures HandleFinal(a.(txs := map[]), a.txs[key].handler, None, NO_HOST, now)
         == Finish(a, key, None, NO_HOST, now).(txs := map[])
  {
    FailureIgnoresTable(a.(txs := a.txs - {key}), map[], a.txs[key].handler, now);
  }

  lemma {:induction false} DetachedIsFailAll(a: Agent, pending: map<Key, Transaction>, keys: seq<Key>, now: int)
    requires forall i :: 0 <= i < |keys| ==>
             keys[i] in a.txs && keys[i] in pending && pending[keys[i]] == a.txs[keys[i]]
    requires forall i, j :: 0 <= i < j < |keys| ==> keys[i] != keys[j]
    ensures FailDetached(a.(txs := map[]), pending, keys, now) == FailAll(a, keys, now).(txs := map[])
    decreases |keys|
  {
    if keys != [] {
      var rest, b := keys[1..], Finish(a, keys[0], None, NO_HOST, now);
      FinishTable(a, keys[0], now);
      forall i | 0 <= i < |rest| ensures rest[i] in b.txs && rest[i] in pending && pending[rest[i]] == b.txs[rest[i]] {
        assert rest[i] == keys[i + 1];
      }
      DetachedIsFailAll(b, pending, rest, now);
    }
  }

  lemma {:induction false} FailAllTable(a: Agent, keys: seq<Key>, now: int)
    ensures forall k :: k in FailAll(a, keys, now).txs ==> k in a.txs && k !in keys
    decreases |keys|
  {
    if keys != [] {
      var b := if keys[0] in a.txs then Finish(a, keys[0], None, NO_HOST, now) else a;
      if keys[0] in a.txs {
        FinishTable(a, keys[0], now);
      }
      FailAllTable(b, keys[1..], now);
    }
  }

  /** Losing the connection fails every transaction, as if each had timed out. */
  lemma DownIsFailAll(a: Agent, order: seq<Key>, now: int)
    requires IsOrder(order, a.txs.Keys)
    ensures OnTransportDown(a, order, now) == LoseRegistration(FailAll(a, order, now))
    ensures FailAll(a, order, now).txs == map[]
  {
    DetachedIsFailAll(a, a.txs, order, now);
    FailAllTable(a, order, now);
    assert FailAll(a, order, now).txs == map[];
  }

  lemma DownLive(a: Agent, order: seq<Key>, now: int)
    requires RegisterLive(a) && Linked(a) && IsOrder(order, a.txs.Keys)
    ensures RegisterLive(OnTransportDown(a, order, now))
  {
    DownIsFailAll(a, order, now);
    FailAllLive(a, order, now);
    SameRegistersKeep(FailAll(a, order, now), LoseRegistration(FailAll(a, order, now)));
  }

  lemma StepLive(a: Agent, i: Input)
    requires RegisterLive(a) && Linked(a) && Allowed(a, i)
    ensures RegisterLive(Step(a, i))
  {
    match i
    case Start(now) => StartRegistrationLive(a, now);
    case Stop(now) => StopRegistrationLive(a, now);
    case Up(now) => RetryRegistrationLive(a, now);
    case Place(id, target, host, now) => DialRegisters(a, id, target, host, now); SameRegistersKeep(a, Step(a, i));
    case Pick(id, host, now) =>
      IncomingRegisters(a, id, 0, host, now);
      SameRegistersKeep(a, Answer(a, id, host, now).1);
    case Refuse(id, status) =>
      IncomingRegisters(a, id, status, NO_HOST, 0);
      SameRegistersKeep(a, Reject(a, id, status).1);
    case Drop(id, now) => HangupRegisters(a, id, now); SameRegistersKeep(a, Hangup(a, id, now).1);
    case Quit(now) => ShutdownLive(a, now);
    case ResponseIn(r, host, now) => ResponseLive(a, r, host, now);
    case RequestIn(q, newId, host, now) =>
      RequestRegisters(a, q, newId, host, now);
      SameRegistersKeep(a, OnRequest(a, q, newId, host, now));
    case Tick(order, now) => TimerLive(a, order, now);
    case Down(order, now) => DownLive(a, order, now);
    case Collect => SameRegistersKeep(a, a.(queue := []));
  }

  // ---- What a lost connection leaves behind ----

  /** A failed transaction leaves alone every call that is not dialling, and the wish to be registered. */
  lemma FinishLeavesCall(a: Agent, key: Key, now: int)
    requires Linked(a) && key in a.txs
    ensures var b := Finish(a, key, None, NO_HOST, now);
            && b.reg.wanted == a.reg.wanted && b.shutting == a.shutting && b.cfg == a.cfg
            && (a.call.None? || a.call.value.state != Calling ==> b.call == a.call)
  {
    if a.txs[key].handler.InviteFinal? {
      OursIsDialling(a, key);
    }
  }

  lemma {:induction false} FailAllLeavesCall(a: Agent, keys: seq<Key>, now: int)
    requires Linked(a)
    ensures var b := FailAll(a, keys, now);
            && b.reg.wanted == a.reg.wanted && b.shutting == a.shutting && b.cfg == a.cfg
            && (a.call.None? || a.call.value.state != Calling ==> b.call == a.call)
    decreases |keys|
  {
    if keys != [] {
      if keys[0] in a.txs {
        FinishLeavesCall(a, keys[0], now);
        FinishLinked(a, keys[0], None, NO_HOST, now);
      }
      FailAllLeavesCall(if keys[0] in a.txs then Finish(a, keys[0], None, NO_HOST, now) else a, keys[1..], now);
    }
  }

  /**
   * Losing the connection leaves no transaction, no registration in flight or in place and no outgoing call still
   * dialling; calls that ring, are being answered or are up are untouched.
   */
  lemma DownClears(a: Agent, order: seq<Key>, now: int)
    requires RegisterLive(a) && Linked(a) && IsOrder(order, a.txs.Keys)
    ensures var b := OnTransportDown(a, order, now);
            && b.txs == map[] && !b.reg.inFlight && !b.reg.registered
            && b.reg.wanted == a.reg.wanted && b.shutting == a.shutting
            && (b.call.Some? && b.call.value.outgoing ==> b.call.value.state != Calling)
            && (a.call.None? || a.call.value.state != Calling ==> b.call == a.call)
  {
    DownIsFailAll(a, order, now);
    FailAllLive(a, order, now);
    FailAllLinked(a, order, now);
    FailAllLeavesCall(a, order, now);
  }

  /** The connection coming back sends exactly one REGISTER if one is wanted and the agent is not shutting down. */
  lemma UpAfterDown(a: Agent, order: seq<Key>, down: int, up: int)
    requires RegisterLive(a) && Linked(a) && IsOrder(order, a.txs.Keys)
    ensures var b := OnTransportDown(a, order, down);
            var s := OnTransportUp(b, up);
            if a.reg.wanted && !a.shutting then
              && s.wire == b.wire + [Created(Key(b.names, REGISTER), RegisterRequest(b, b.cfg.registerExpires, None))]
              && s.txs.Keys == {Key(b.names, REGISTER)} && s.reg.inFlight
            else s == b
  {
    DownClears(a, order, down);
  }
}
