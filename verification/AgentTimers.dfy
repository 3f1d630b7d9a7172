/** How often requests and answers are sent, over whole runs. */
module AgentTimers {
  import opened Prelude
  import opened AgentTypes
  import opened AgentSpec
  import opened AgentLinks

  // ---- The retransmission schedule of sections 17.1.1.2 and 17.1.2.2 of RFC 3261 ----

  /** The least pause after the n-th copy. */
  function Pause(verb: Method, n: nat): (p: int)
    requires n >= 1
    ensures p >= T1
  {
    if verb == INVITE then T1 * Pow2(n - 1) else Min(T1 * Pow2(n - 1), T2)
  }

  /** The earliest time after the first copy at which copy n + 1 may go out. */
  function Offset(verb: Method, n: nat): int {
    if n == 0 then 0 else Offset(verb, n - 1) + Pause(verb, n)
  }

  function MaxCopies(verb: Method): nat { if verb == INVITE then 7 else 11 }

  lemma InviteOffsets()
    ensures Offset(INVITE, 7) == 127 * T1
  {
    assert Pow2(1) == 2 && Pow2(2) == 4 && Pow2(3) == 8 && Pow2(4) == 16 && Pow2(5) == 32 && Pow2(6) == 64;
    assert Offset(INVITE, 2) == 3 * T1;
    assert Offset(INVITE, 4) == 15 * T1;
    assert Offset(INVITE, 6) == 63 * T1;
  }

  lemma {:induction false} LongPauses(verb: Method, n: nat)
    requires verb != INVITE && n >= 4
    ensures Pow2(n - 1) >= 8 && Pause(verb, n) == T2
    decreases n
  {
    if n == 4 {
      assert Pow2(1) == 2 && Pow2(2) == 4 && Pow2(3) == 8;
    } else {
      LongPauses(verb, n - 1);
    }
  }

  lemma OtherOffsets(verb: Method)
    requires verb != INVITE
    ensures Offset(verb, 11) == 71 * T1
  {
    assert Pow2(0) == 1 && Pow2(1) == 2 && Pow2(2) == 4;
    assert Pause(verb, 1) == T1 && Pause(verb, 2) == 2 * T1 && Pause(verb, 3) == 4 * T1;
    assert Offset(verb, 1) == T1;
    assert Offset(verb, 3) == 7 * T1;
    LongPauses(verb, 4); LongPauses(verb, 5); LongPauses(verb, 6); LongPauses(verb, 7);
    LongPauses(verb, 8); LongPauses(verb, 9); LongPauses(verb, 10); LongPauses(verb, 11);
    assert Offset(verb, 5) == 23 * T1;
    assert Offset(verb, 7) == 39 * T1;
    assert Offset(verb, 9) == 55 * T1;
  }

  /** After the last copy the next one would be due past the transaction's end. */
  lemma LastCopy(verb: Method)
    ensures Offset(verb, MaxCopies(verb)) >= TRANSACTION_TIMEOUT
  {
    if verb == INVITE { InviteOffsets(); } else { OtherOffsets(verb); }
  }

  // ---- Counting copies ----

  predicate IsCopy(w: Wire, key: Key) {
    (w.Created? || w.Repeated?) && w.key == key
  }

  /** How many copies of a request have gone out. */
  function Copies(wire: seq<Wire>, key: Key): nat {
    if wire == [] then 0
    else Copies(wire[..|wire| - 1], key) + (if IsCopy(wire[|wire| - 1], key) then 1 else 0)
  }

  lemma CopiesAppend(wire: seq<Wire>, w: Wire, key: Key)
    ensures Copies(wire + [w], key) == Copies(wire, key) + (if IsCopy(w, key) then 1 else 0)
  {
    assert (wire + [w])[..|wire|] == wire;
  }

  // ---- The invariant on transactions ----

  ghost predicate TimedTx(reliable: bool, k: Key, t: Transaction, n: nat) {
    && 1 <= n <= MaxCopies(k.verb) && k.verb == t.request.verb && t.interval >= T1
    && (reliable ==> n == 1 && !t.retransmitting)
    && (t.retransmitting ==>
          t.interval >= Pause(k.verb, n) && t.retransmitAt >= t.deadline - TRANSACTION_TIMEOUT + Offset(k.verb, n))
  }

  ghost predicate TimedTxs(reliable: bool, txs: map<Key, Transaction>, wire: seq<Wire>) {
    forall k :: k in txs ==> TimedTx(reliable, k, txs[k], Copies(wire, k))
  }

  ghost predicate Bounded(reliable: bool, k: Key, n: nat) {
    n <= MaxCopies(k.verb) && (reliable ==> n <= 1)
  }

  /** Every request ever sent stays within its bound, and branches not yet drawn are unused. */
  ghost predicate TimedWire(reliable: bool, wire: seq<Wire>, names: Name) {
    forall k :: Bounded(reliable, k, Copies(wire, k)) && (k.branch >= names ==> Copies(wire, k) == 0)
  }

  /** The CANCEL of a call that has sent none is still to come; none is sent unasked. */
  ghost predicate CancelFresh(call: Option<Call>, wire: seq<Wire>) {
    call.Some? && call.value.outgoing ==>
      if call.value.cancelSent then call.value.cancelRequested
      else Copies(wire, Key(call.value.inviteBranch, CANCEL)) == 0
  }

  ghost predicate Timed(a: Agent) {
    && TimedTxs(a.cfg.reliable, a.txs, a.wire)
    && TimedWire(a.cfg.reliable, a.wire, a.names)
    && CancelFresh(a.call, a.wire)
  }

  // ---- Steps ----

  ghost predicate SameCopies(a: Agent, b: Agent) {
    && b.cfg == a.cfg && b.txs == a.txs && a.names <= b.names
    && (forall k :: Copies(b.wire, k) == Copies(a.wire, k))
    && (b.call.Some? ==>
          && a.call.Some? && b.call.value.outgoing == a.call.value.outgoing
          && b.call.value.inviteBranch == a.call.value.inviteBranch
          && b.call.value.cancelSent == a.call.value.cancelSent
          && (a.call.value.cancelRequested ==> b.call.value.cancelRequested))
  }

  lemma SameCopiesKeep(a: Agent, b: Agent)
    requires Timed(a) && SameCopies(a, b)
    ensures Timed(b)
  {
    forall k | k in b.txs ensures TimedTx(b.cfg.reliable, k, b.txs[k], Copies(b.wire, k)) {
      assert TimedTx(a.cfg.reliable, k, a.txs[k], Copies(a.wire, k));
    }
    forall k ensures Bounded(b.cfg.reliable, k, Copies(b.wire, k)) && (k.branch >= b.names ==> Copies(b.wire, k) == 0) {
      assert Bounded(a.cfg.reliable, k, Copies(a.wire, k)) && (k.branch >= a.names ==> Copies(a.wire, k) == 0);
    }
  }

  /** Saying anything but a copy of a request. */
  lemma SaySame(a: Agent, w: Wire)
    requires !w.Created? && !w.Repeated?
    ensures SameCopies(a, Say(a, w))
  {
    forall k ensures Copies(a.wire + [w], k) == Copies(a.wire, k) {
      CopiesAppend(a.wire, w, k);
    }
  }

  /** The first copy of a request on an unused key. */
  lemma LaunchTimed(a: Agent, b: Agent, key: Key, request: Request, handler: Handler, now: int)
    requires Timed(a) && key.verb == request.verb && Copies(a.wire, key) == 0 && key.branch < b.names
    requires b.cfg == a.cfg && b.wire == a.wire + [Created(key, request)]
    requires b.txs == a.txs[key := NewTransaction(a.cfg, request, handler, now)] && a.names <= b.names
    requires CancelFresh(b.call, b.wire)
    ensures Timed(b)
  {
    var w := Created(key, request);
    forall k ensures Copies(b.wire, k) == Copies(a.wire, k) + (if k == key then 1 else 0) {
      CopiesAppend(a.wire, w, k);
    }
    forall k | k in b.txs ensures TimedTx(b.cfg.reliable, k, b.txs[k], Copies(b.wire, k)) {
      if k != key {
        assert TimedTx(a.cfg.reliable, k, a.txs[k], Copies(a.wire, k));
      } else {
        assert Pow2(0) == 1 && Offset(key.verb, 1) == Offset(key.verb, 0) + Pause(key.verb, 1);
      }
    }
    forall k ensures Bounded(b.cfg.reliable, k, Copies(b.wire, k)) && (k.branch >= b.names ==> Copies(b.wire, k) == 0) {
      assert Bounded(a.cfg.reliable, k, Copies(a.wire, k)) && (k.branch >= a.names ==> Copies(a.wire, k) == 0);
    }
  }

  /** Launching on a fresh branch leaves every other count alone. */
  lemma LaunchFreshTimed(a: Agent, request: Request, handler: Handler, now: int)
    requires Timed(a) && (a.call.Some? && a.call.value.outgoing && request.verb == CANCEL ==>
                          a.call.value.inviteBranch != a.names)
    ensures Timed(LaunchFresh(a, request, handler, now))
  {
    var key, b := Key(a.names, request.verb), LaunchFresh(a, request, handler, now);
    assert Copies(a.wire, key) == 0;
    if a.call.Some? {
      CopiesAppend(a.wire, Created(key, request), Key(a.call.value.inviteBranch, CANCEL));
    }
    LaunchTimed(a, b, key, request, handler, now);
  }

  lemma RegTimed(a: Agent, reg: Registration)
    requires Timed(a)
    ensures Timed(a.(reg := reg))
  {
  }

  lemma SendRegisterTimed(a: Agent, expires: nat, authorization: Option<string>, now: int)
    requires Timed(a)
    ensures Timed(SendRegister(a, expires, authorization, now))
  {
    var b := a.(reg := a.reg.(cseq := a.reg.cseq + 1, inFlight := true));
    RegTimed(a, b.reg);
    LaunchFreshTimed(b, RegisterRequest(a, expires, authorization), RegisterFinal(expires, authorization.Some?), now);
  }

  lemma RegisterFinalTimed(a: Agent, response: Option<Response>, expires: nat, authenticated: bool, now: int)
    requires Timed(a)
    ensures Timed(OnRegisterFinal(a, response, expires, authenticated, now))
  {
    var b := a.(reg := a.reg.(inFlight := false));
    var status := if response.Some? then response.value.status else 408;
    RegTimed(a, b.reg);
    if response.Some? && IsChallenge(status) && !authenticated && response.value.authorization.Some? {
      SendRegisterTimed(b, expires, response.value.authorization, now);
    } else if expires != 0 && !b.reg.wanted && IsSuccess(status) {
      SendRegisterTimed(b, 0, None, now);
    } else if expires != 0 && b.reg.wanted {
      var s := OnRegisterFinal(a, response, expires, authenticated, now);
      assert s.txs == b.txs && s.wire == b.wire;
      SameCopiesKeep(b, s);
    }
  }

  lemma StartRegistrationTimed(a: Agent, now: int)
    requires Timed(a)
    ensures Timed(StartRegistration(a, now))
  {
    RegTimed(a, a.reg.(wanted := true, nextAttempt := None));
    SendRegisterTimed(a.(reg := a.reg.(wanted := true, nextAttempt := None)), a.cfg.registerExpires, None, now);
  }

  lemma StopRegistrationTimed(a: Agent, now: int)
    requires Timed(a)
    ensures Timed(StopRegistration(a, now))
  {
    var b := a.(reg := a.reg.(wanted := false, nextAttempt := None));
    RegTimed(a, b.reg);
    RegTimed(b, b.reg.(registered := false));
    SendRegisterTimed(b.(reg := b.reg.(registered := false)), 0, None, now);
  }

  lemma RetryRegistrationTimed(a: Agent, now: int)
    requires Timed(a)
    ensures Timed(TimeRegistration(a, now)) && Timed(OnTransportUp(a, now))
  {
    RegTimed(a, a.reg.(nextAttempt := None));
    SendRegisterTimed(a.(reg := a.reg.(nextAttempt := None)), a.cfg.registerExpires, None, now);
  }

  lemma SendByeTimed(a: Agent, now: int)
    requires Timed(a) && a.call.Some?
    ensures Timed(SendBye(a, now))
  {
    var c := a.call.value;
    var b := SetCall(a, c.(localCseq := c.localCseq + 1));
    SameCopiesKeep(a, b);
    LaunchFreshTimed(b, ByeRequest(c), Ignore, now);
  }

  lemma EndTimed(a: Agent, reason: EndReason, status: int)
    requires Timed(a)
    ensures Timed(EndCall(a, reason, status))
  {
    SameCopiesKeep(a, EndCall(a, reason, status));
  }

  lemma ByeAndEndTimed(a: Agent, reason: EndReason, status: int, now: int)
    requires Timed(a) && a.call.Some?
    ensures Timed(EndCall(SendBye(a, now), reason, status))
  {
    SendByeTimed(a, now);
    EndTimed(SendBye(a, now), reason, status);
  }

  lemma SendCancelTimed(a: Agent, now: int)
    requires Timed(a) && Linked(a) && a.call.Some? && a.call.value.outgoing && !a.call.value.cancelSent
    requires a.call.value.cancelRequested
    ensures Timed(SendCancel(a, now))
  {
    var c := a.call.value;
    LaunchTimed(a, SendCancel(a, now), Key(c.inviteBranch, CANCEL), CancelRequest(c), Ignore, now);
  }

  lemma SendInviteTimed(a: Agent, authorization: Option<string>, now: int)
    requires a.call.Some? && Timed(a.(call := None)) && (a.call.value.cancelSent ==> a.call.value.cancelRequested)
    ensures Timed(SendInvite(a, authorization, now))
  {
    var c, key := a.call.value, Key(a.names, INVITE);
    var request := InviteRequest(c, authorization);
    CopiesAppend(a.wire, Created(key, request), Key(a.names, CANCEL));
    assert Copies(a.wire, Key(a.names, CANCEL)) == 0 && Copies(a.wire, key) == 0;
    LaunchTimed(a.(call := None), SendInvite(a, authorization, now), key, request,
                InviteFinal(ContextFor(c, a.names)), now);
  }

  lemma DialTimed(a: Agent, id: int, target: string, host: Host, now: int)
    requires Timed(a) && a.call.None?
    ensures Timed(Dial(a, id, target, host, now))
  {
    var b, key := Begin(a, id, target, host), NewKey(a.cfg, host);
    if host.port == 0 || key.None? {
      SameCopiesKeep(a, EndCall(b, MediaFailed, 0));
    } else {
      var d := SetCall(b, WithOffer(a.cfg, b.call.value.(srtpKey := key.value)));
      SameCopiesKeep(a, d.(call := None));
      SendInviteTimed(d, None, now);
    }
  }

  lemma EstablishTimed(a: Agent, r: Response, host: Host, now: int)
    requires Timed(a) && a.call.Some?
    ensures Timed(Establish(a, r, host, now))
  {
    var c := a.call.value;
    if c.cancelRequested {
      ByeAndEndTimed(a, OwnReason(a), 0, now);
    } else if !UsableAnswer(a.cfg, r.answer) {
      ByeAndEndTimed(a, MediaFailed, 488, now);
    } else {
      var b := Do(a, StartByAnswer(a.cfg, c, r.answer.value, host.startOk));
      SameCopiesKeep(a, b);
      if !host.startOk {
        ByeAndEndTimed(b, MediaFailed, 488, now);
      } else {
        SameCopiesKeep(b, Emit(b, Event(Answered, c.id, r.status, NoReason)));
      }
    }
  }

  lemma AckTimed(a: Agent, ack: AckMessage, owner: int)
    requires Timed(a)
    ensures Timed(Say(a.(names := a.names + 1), Acked(ack, owner)))
  {
    SaySame(a.(names := a.names + 1), Acked(ack, owner));
    SameCopiesKeep(a, Say(a.(names := a.names + 1), Acked(ack, owner)));
  }

  lemma ConfirmTimed(a: Agent, c: Call, context: InviteContext, r: Response, ack: AckMessage)
    requires Timed(a) && a.call == Some(c)
    ensures Timed(SetCall(a, Confirm(c, context, r, ack)))
  {
    SameCopiesKeep(a, SetCall(a, Confirm(c, context, r, ack)));
  }

  lemma OursTimed(a: Agent, context: InviteContext, r: Response, host: Host, now: int)
    requires Timed(a) && Ours(a, context)
    ensures Timed(OnInviteSuccess(a, context, r, host, now))
  {
    var d := ConfirmingTimed(a, context, r, host, now);
    EstablishTimed(d, r, host, now);
  }

  lemma ConfirmingTimed(a: Agent, context: InviteContext, r: Response, host: Host, now: int) returns (d: Agent)
    requires Timed(a) && Ours(a, context)
    ensures Timed(d) && d.call.Some? && OnInviteSuccess(a, context, r, host, now) == Establish(d, r, host, now)
  {
    var ack := AckFor(context, r, a.names);
    var b := Say(a.(names := a.names + 1), Acked(ack, context.callId));
    AckTimed(a, ack, context.callId);
    ConfirmTimed(b, a.call.value, context, r, ack);
    d := SetCall(b, Confirm(a.call.value, context, r, ack));
  }

  lemma LateByeTimed(b: Agent, context: InviteContext, r: Response, now: int)
    requires Timed(b)
    ensures Timed(LaunchFresh(b, LateByeRequest(context, r), Ignore, now))
  {
    LaunchFreshTimed(b, LateByeRequest(context, r), Ignore, now);
  }

  lemma LateTimed(a: Agent, context: InviteContext, r: Response, host: Host, now: int)
    requires Timed(a) && !Ours(a, context)
    ensures Timed(OnInviteSuccess(a, context, r, host, now))
  {
    var ack := AckFor(context, r, a.names);
    AckTimed(a, ack, context.callId);
    LateByeTimed(Say(a.(names := a.names + 1), Acked(ack, context.callId)), context, r, now);
  }

  lemma InviteSuccessTimed(a: Agent, context: InviteContext, r: Response, host: Host, now: int)
    requires Timed(a)
    ensures Timed(OnInviteSuccess(a, context, r, host, now))
  {
    if Ours(a, context) {
      OursTimed(a, context, r, host, now);
    } else {
      LateTimed(a, context, r, host, now);
    }
  }

  lemma InviteFailureTimed(a: Agent, response: Option<Response>, now: int)
    requires Timed(a) && a.call.Some? && a.call.value.outgoing
    ensures Timed(OnInviteFailure(a, response, now))
  {
    var c := a.call.value;
    if response.None? {
      EndTimed(a, Timeout, 408);
    } else if IsChallenge(response.value.status) && !c.authenticated && !c.cancelRequested
              && response.value.authorization.Some? {
      var b := SetCall(a, c.(authenticated := true));
      assert c.outgoing;
      SameCopiesKeep(a, b.(call := None));
      SendInviteTimed(b, response.value.authorization, now);
    } else {
      EndTimed(a, if c.cancelRequested then OwnReason(a) else Rejected, response.value.status);
    }
  }

  lemma InviteFinalTimed(a: Agent, context: InviteContext, response: Option<Response>, host: Host, now: int)
    requires Timed(a) && (Ours(a, context) ==> a.call.value.outgoing)
    ensures Timed(OnInviteFinal(a, context, response, host, now))
  {
    if response.Some? && response.value.status < 300 {
      InviteSuccessTimed(a, context, response.value, host, now);
    } else {
      var b := AckFailure(a, context, response);
      if response.Some? {
        SaySame(a, b.wire[|a.wire|]);
        SameCopiesKeep(a, b);
      }
      if Ours(a, context) {
        InviteFailureTimed(b, response, now);
      }
    }
  }

  lemma RemoveTimed(a: Agent, key: Key)
    requires Timed(a)
    ensures Timed(a.(txs := a.txs - {key}))
  {
    var txs := a.txs - {key};
    forall k | k in txs ensures TimedTx(a.cfg.reliable, k, txs[k], Copies(a.wire, k)) {
      assert TimedTx(a.cfg.reliable, k, a.txs[k], Copies(a.wire, k));
    }
  }

  lemma FinishTimed(a: Agent, key: Key, response: Option<Response>, host: Host, now: int)
    requires Timed(a) && Linked(a) && key in a.txs
    ensures Timed(Finish(a, key, response, host, now))
  {
    var b := a.(txs := a.txs - {key});
    RemoveTimed(a, key);
    match a.txs[key].handler
    case InviteFinal(context) =>
      OursIsDialling(a, key);
      InviteFinalTimed(b, context, response, host, now);
    case RegisterFinal(expires, authenticated) => RegisterFinalTimed(b, response, expires, authenticated, now);
    case Ignore =>
  }

  lemma {:induction false} FailAllTimed(a: Agent, keys: seq<Key>, now: int)
    requires Timed(a) && Linked(a)
    ensures Timed(FailAll(a, keys, now))
    decreases |keys|
  {
    if keys != [] {
      if keys[0] in a.txs {
        FinishTimed(a, keys[0], None, NO_HOST, now);
        FinishLinked(a, keys[0], None, NO_HOST, now);
      }
      FailAllTimed(if keys[0] in a.txs then Finish(a, keys[0], None, NO_HOST, now) else a, keys[1..], now);
    }
  }

  /** A copy that is due before the transaction's end is within the bound, however late the tick. */
  lemma CopyWithinBound(reliable: bool, k: Key, t: Transaction, n: nat, now: int)
    requires TimedTx(reliable, k, t, n) && RetransmitDue(t, now)
    ensures TimedTx(reliable, k, t.(interval := NextInterval(t), retransmitAt := now + NextInterval(t)), n + 1)
  {
    LastCopy(k.verb);
    assert Pow2(n) == 2 * Pow2(n - 1);
    assert Offset(k.verb, n + 1) == Offset(k.verb, n) + Pause(k.verb, n + 1);
  }

  lemma RetransmitTimed(a: Agent, key: Key, now: int)
    requires Timed(a) && key in a.txs
    ensures Timed(Retransmit(a, key, now))
  {
    var t, b := a.txs[key], Retransmit(a, key, now);
    if RetransmitDue(t, now) {
      var n := Copies(a.wire, key);
      CopyWithinBound(a.cfg.reliable, key, t, n, now);
      forall k ensures Copies(b.wire, k) == Copies(a.wire, k) + (if k == key then 1 else 0) {
        CopiesAppend(a.wire, Repeated(key, t.request), k);
      }
      forall k | k in b.txs ensures TimedTx(b.cfg.reliable, k, b.txs[k], Copies(b.wire, k)) {
        if k != key {
          assert TimedTx(a.cfg.reliable, k, a.txs[k], Copies(a.wire, k));
        }
      }
      forall k
        ensures Bounded(b.cfg.reliable, k, Copies(b.wire, k)) && (k.branch >= b.names ==> Copies(b.wire, k) == 0)
      {
        assert Bounded(a.cfg.reliable, k, Copies(a.wire, k)) && (k.branch >= a.names ==> Copies(a.wire, k) == 0);
        if k == key {
          assert TimedTx(b.cfg.reliable, k, b.txs[k], n + 1);
        }
      }
    }
  }

  lemma {:induction false} RetransmitAllTimed(a: Agent, order: seq<Key>, now: int)
    requires Timed(a)
    ensures Timed(RetransmitAll(a, order, now))
    decreases |order|
  {
    if order != [] {
      if order[0] in a.txs {
        RetransmitTimed(a, order[0], now);
      }
      RetransmitAllTimed(if order[0] in a.txs then Retransmit(a, order[0], now) else a, order[1..], now);
    }
  }

  lemma InviteProvisionalTimed(a: Agent, callId: int, status: int, now: int)
    requires Timed(a) && Linked(a) && (a.call.Some? && a.call.value.id == callId ==> a.call.value.outgoing)
    ensures Timed(OnInviteProvisional(a, callId, status, now))
  {
    if a.call.Some? && a.call.value.id == callId && a.call.value.state == Calling {
      var c := a.call.value.(provisional := true);
      SameCopiesKeep(a, SetCall(a, c));
      if c.cancelRequested && !c.cancelSent {
        SameLinksKeep(a, SetCall(a, c));
        SendCancelTimed(SetCall(a, c), now);
      } else {
        SameCopiesKeep(a, OnInviteProvisional(a, callId, status, now));
      }
    }
  }

  lemma SootheTimed(a: Agent, key: Key, now: int)
    requires Timed(a) && key in a.txs
    ensures Timed(Say(a, Heard(key)).(txs := a.txs[key := Soothe(a.txs[key], now)]))
  {
    var d := Say(a, Heard(key));
    SaySame(a, Heard(key));
    SameCopiesKeep(a, d);
    var b := d.(txs := a.txs[key := Soothe(a.txs[key], now)]);
    forall k | k in b.txs ensures TimedTx(b.cfg.reliable, k, b.txs[k], Copies(b.wire, k)) {
      assert TimedTx(d.cfg.reliable, k, d.txs[k], Copies(d.wire, k));
    }
  }

  lemma ProvisionalTimed(a: Agent, key: Key, status: int, now: int)
    requires Timed(a) && Linked(a) && key in a.txs
    ensures Timed(OnProvisional(a, key, status, now))
  {
    var b := Say(a, Heard(key)).(txs := a.txs[key := Soothe(a.txs[key], now)]);
    SootheTimed(a, key, now);
    RetimeKeeps(a, b, key, Soothe(a.txs[key], now));
    if a.txs[key].handler.InviteFinal? {
      OursIsDialling(a, key);
      InviteProvisionalTimed(b, a.txs[key].handler.context.callId, status, now);
    }
  }

  lemma ResponseTimed(a: Agent, r: Response, host: Host, now: int)
    requires Timed(a) && Linked(a)
    ensures Timed(OnResponse(a, r, host, now))
  {
    if r.verb.Some? {
      var key := Key(r.branch, r.verb.value);
      if key in a.txs {
        if r.status < 200 {
          ProvisionalTimed(a, key, r.status, now);
        } else {
          FinishTimed(a, key, Some(r), host, now);
        }
      } else if a.call.Some? && a.call.value.ack.Some? {
        SaySame(a, Acked(a.call.value.ack.value, a.call.value.id));
        SameCopiesKeep(a, Say(a, Acked(a.call.value.ack.value, a.call.value.id)));
      }
    }
  }

  // ---- Requests from the far end, commands, time ----

  /** Only responses were added to the traffic. */
  ghost predicate Replies(wire: seq<Wire>, wire': seq<Wire>) {
    wire <= wire' && forall i :: |wire| <= i < |wire'| ==> wire'[i].Responded?
  }

  lemma {:induction false} RepliesAreNoCopies(wire: seq<Wire>, wire': seq<Wire>, key: Key)
    requires Replies(wire, wire')
    ensures Copies(wire', key) == Copies(wire, key)
    decreases |wire'|
  {
    if |wire| < |wire'| {
      var front := wire'[..|wire'| - 1];
      RepliesAreNoCopies(wire, front, key);
    } else {
      assert wire' == wire;
    }
  }

  /** Nothing but responses is said, the table stands still, and a call, if new, is an incoming one. */
  ghost predicate OnlyResponds(a: Agent, b: Agent) {
    && b.cfg == a.cfg && b.txs == a.txs && a.names <= b.names && Replies(a.wire, b.wire)
    && (b.call.Some? && b.call.value.outgoing ==>
          && a.call.Some? && a.call.value.outgoing && b.call.value.inviteBranch == a.call.value.inviteBranch
          && b.call.value.cancelSent == a.call.value.cancelSent
          && (a.call.value.cancelRequested ==> b.call.value.cancelRequested))
  }

  lemma OnlyRespondsTimed(a: Agent, b: Agent)
    requires Timed(a) && OnlyResponds(a, b)
    ensures Timed(b)
  {
    forall k ensures Copies(b.wire, k) == Copies(a.wire, k) {
      RepliesAreNoCopies(a.wire, b.wire, k);
    }
    SameCopiesKeep(a, b.(call := None));
  }

  lemma ReInviteResponds(a: Agent, q: Query, host: Host)
    requires a.call.Some?
    ensures OnlyResponds(a, ReInvite(a, q, host))
  {
  }

  lemma InviteRequestResponds(a: Agent, q: Query, newId: int, host: Host)
    ensures OnlyResponds(a, OnInviteRequest(a, q, newId, host))
  {
    if a.call.Some? && a.call.value.sipCallId == q.callId
       && (a.call.value.outgoing || a.call.value.state == Confirmed) {
      ReInviteResponds(a, q, host);
    }
  }

  lemma CancelResponds(a: Agent, q: Query, newId: int, host: Host, now: int)
    requires q.verb == CANCEL
    ensures OnlyResponds(a, OnRequest(a, q, newId, host, now))
  {
  }

  lemma OtherRequestResponds(a: Agent, q: Query, newId: int, host: Host, now: int)
    requires q.verb != CANCEL && q.verb != INVITE
    ensures OnlyResponds(a, OnRequest(a, q, newId, host, now))
  {
  }

  lemma RequestResponds(a: Agent, q: Query, newId: int, host: Host, now: int)
    ensures OnlyResponds(a, OnRequest(a, q, newId, host, now))
  {
    if q.verb == CANCEL {
      CancelResponds(a, q, newId, host, now);
    } else if q.verb != INVITE {
      OtherRequestResponds(a, q, newId, host, now);
    } else if q.complete {
      InviteRequestResponds(a, q, newId, host);
      assert OnRequest(a, q, newId, host, now) == OnInviteRequest(a, q, newId, host);
    }
  }

  lemma RejectResponds(a: Agent, id: int, status: int)
    ensures OnlyResponds(a, Reject(a, id, status).1)
  {
  }

  lemma TakeUpResponds(a: Agent, host: Host, now: int)
    requires a.call.Some? && !a.call.value.outgoing
    ensures OnlyResponds(a, TakeUp(a, host, now))
  {
    var b, key := OpenFor(a, host), NewKey(a.cfg, host);
    if host.port == 0 || key.None? {
      assert OnlyResponds(a, RefuseAnswer(b));
    } else {
      var e := StartFor(b, key.value, host);
      assert e.wire == a.wire && !e.call.value.outgoing;
    }
  }

  lemma HangupCallingTimed(a: Agent, now: int)
    requires Timed(a) && Linked(a) && a.call.Some? && a.call.value.outgoing
    ensures Timed(HangupCalling(a, now))
  {
    var c := a.call.value;
    if !c.cancelRequested {
      var d := SetCall(a, c.(cancelRequested := true));
      var b := Say(d, HangupAsked(c.id));
      SaySame(d, HangupAsked(c.id));
      SameCopiesKeep(a, b);
      SameLinksKeep(a, b);
      SendCancelTimed(b, now);
    }
  }

  lemma HangupTimed(a: Agent, id: int, now: int)
    requires Timed(a) && Linked(a) && (a.call.Some? && a.call.value.state == Calling ==> a.call.value.outgoing)
    ensures Timed(Hangup(a, id, now).1)
  {
    if a.call.Some? && a.call.value.id == id {
      match a.call.value.state
      case Calling =>
        HangupCallingTimed(a, now);
        EndTimed(HangupCalling(a, now), Shutdown, 0);
      case Ringing => OnlyRespondsTimed(a, Hangup(a, id, now).1);
      case Answering => ByeAndEndTimed(a, OwnReason(a), 0, now);
      case Confirmed => ByeAndEndTimed(a, OwnReason(a), 0, now);
    }
  }

  lemma ShutdownTimed(a: Agent, now: int)
    requires Timed(a) && Linked(a) && (a.call.Some? && a.call.value.state == Calling ==> a.call.value.outgoing)
    ensures Timed(BeginShutdown(a, now))
  {
    var b := a.(shutting := true);
    SameCopiesKeep(a, b);
    SameLinksKeep(a, b);
    if a.call.Some? {
      HangupTimed(b, a.call.value.id, now);
    }
    StopRegistrationTimed(if a.call.Some? then Hangup(b, a.call.value.id, now).1 else b, now);
  }

  lemma TimeAnswerTimed(a: Agent, now: int)
    requires Timed(a)
    ensures Timed(TimeAnswer(a, now))
  {
    if a.call.Some? && a.call.value.state == Answering && now >= a.call.value.ackDeadline {
      ByeAndEndTimed(a, Timeout, 408, now);
    } else {
      OnlyRespondsTimed(a, TimeAnswer(a, now));
    }
  }

  lemma TimerTimed(a: Agent, order: seq<Key>, now: int)
    requires Timed(a) && Linked(a)
    ensures Timed(OnTimer(a, order, now))
  {
    var b := RetransmitAll(a, order, now);
    var d := FailAll(b, Expired(a, order, now), now);
    RetransmitAllTimed(a, order, now);
    RetransmitAllLinked(a, order, now);
    FailAllTimed(b, Expired(a, order, now), now);
    TimeAnswerTimed(d, now);
    RetryRegistrationTimed(TimeAnswer(d, now), now);
  }
}
