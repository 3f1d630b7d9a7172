/** How the call and the live transactions belong together. */
module AgentLinks {
  import opened Prelude
  import opened AgentTypes
  import opened AgentSpec

  ghost predicate IdIn(born: seq<Born>, id: int) {
    exists i :: 0 <= i < |born| && born[i].id == id
  }

  lemma BornStays(born: seq<Born>, born': seq<Born>, id: int)
    requires born <= born' && IdIn(born, id)
    ensures IdIn(born', id)
  {
    var i :| 0 <= i < |born| && born[i].id == id;
    assert born'[i] == born[i];
  }

  /** A transaction's key, request and handler agree; branches come from the supply. */
  ghost predicate TxOk(k: Key, t: Transaction, names: Name, born: seq<Born>) {
    && k.branch < names && k.verb == t.request.verb
    && (k.verb == INVITE <==> t.handler.InviteFinal?)
    && (k.verb == REGISTER <==> t.handler.RegisterFinal?)
    && (k.verb == INVITE ==> t.handler.context.branch == k.branch && IdIn(born, t.handler.context.callId))
  }

  ghost predicate TxsOk(txs: map<Key, Transaction>, names: Name, born: seq<Born>) {
    forall k :: k in txs ==> TxOk(k, txs[k], names, born)
  }

  /** Whether k is a live INVITE of the given call. */
  predicate InviteOf(txs: map<Key, Transaction>, k: Key, id: int) {
    k in txs && txs[k].handler.InviteFinal? && txs[k].handler.context.callId == id
  }

  /** A call has at most one live INVITE. */
  ghost predicate OneInvite(txs: map<Key, Transaction>) {
    forall k, l ::
      (&& k in txs && l in txs && txs[k].handler.InviteFinal? && txs[l].handler.InviteFinal?
       && txs[k].handler.context.callId == txs[l].handler.context.callId) ==> k == l
  }

  /** What the call's latest INVITE remembers of it. */
  function InviteContextOf(c: Call): InviteContext {
    InviteContext(c.id, c.inviteUri, c.localHeader, c.sipCallId, c.inviteCseq, c.inviteBranch)
  }

  predicate InviteLive(c: Call, txs: map<Key, Transaction>) {
    Key(c.inviteBranch, INVITE) in txs && txs[Key(c.inviteBranch, INVITE)].handler == InviteFinal(InviteContextOf(c))
  }

  ghost predicate NoInvite(txs: map<Key, Transaction>, id: int) {
    forall k :: k in txs ==> !InviteOf(txs, k, id)
  }

  /** A call is dialling exactly while its latest INVITE is live; no other call has a live INVITE under its name. */
  ghost predicate CallOk(c: Call, txs: map<Key, Transaction>, names: Name, born: seq<Born>) {
    && IdIn(born, c.id)
    && (c.outgoing ==> c.inviteBranch < names && c.inviteCseq < c.localCseq)
    && if c.outgoing && c.state == Calling then InviteLive(c, txs) else NoInvite(txs, c.id)
  }

  ghost predicate Linked(a: Agent) {
    && TxsOk(a.txs, a.names, a.born) && OneInvite(a.txs)
    && (a.call.Some? ==> CallOk(a.call.value, a.txs, a.names, a.born))
  }

  /** `Linked` while the call's own INVITE has just been closed. */
  ghost predicate Unlinked(a: Agent) {
    && TxsOk(a.txs, a.names, a.born) && OneInvite(a.txs)
    && a.call.Some? && IdIn(a.born, a.call.value.id) && NoInvite(a.txs, a.call.value.id)
  }

  /** The call of a live INVITE is the agent's call exactly when it is dialling on this very branch. */
  lemma OursIsDialling(a: Agent, key: Key)
    requires Linked(a) && key in a.txs && a.txs[key].handler.InviteFinal?
    ensures var context := a.txs[key].handler.context;
            && (Ours(a, context) <==> a.call.Some? && a.call.value.id == context.callId)
            && (Ours(a, context) ==> a.call.value.outgoing && a.call.value.state == Calling
                                     && context == InviteContextOf(a.call.value) && context.branch == key.branch
                                     && context.cseq < a.call.value.localCseq)
  {
    assert TxOk(key, a.txs[key], a.names, a.born);
    if a.call.Some? && a.call.value.id == a.txs[key].handler.context.callId {
      assert InviteOf(a.txs, key, a.call.value.id);
    }
  }

  /** A 2xx to the call's own INVITE: the state in which the call is taken up. */
  lemma Confirming(a: Agent, context: InviteContext, r: Response, host: Host, now: int) returns (d: Agent)
    requires Ours(a, context)
    ensures d.call.Some? && OnInviteSuccess(a, context, r, host, now) == Establish(d, r, host, now)
    ensures d == a.(names := d.names, wire := d.wire, call := d.call)
    ensures |d.wire| == |a.wire| + 1 && a.wire <= d.wire && d.wire[|a.wire|].Acked?
    ensures var c, c' := a.call.value, d.call.value;
            c' == c.(ack := c'.ack, remoteHeader := c'.remoteHeader, remoteTarget := c'.remoteTarget,
                     state := Confirmed)
  {
    var ack := AckFor(context, r, a.names);
    d := SetCall(Say(a.(names := a.names + 1), Acked(ack, context.callId)), Confirm(a.call.value, context, r, ack));
  }

  // ---- Changes that keep the links ----

  /** Same transactions, and a call that is the same as far as the links go. */
  ghost predicate SameLinks(a: Agent, b: Agent) {
    && b.txs == a.txs && a.names <= b.names && b.born == a.born
    && (b.call.Some? ==>
          && a.call.Some? && InviteContextOf(b.call.value) == InviteContextOf(a.call.value)
          && b.call.value.outgoing == a.call.value.outgoing && b.call.value.localCseq >= a.call.value.localCseq
          && (b.call.value.outgoing ==> b.call.value.state == a.call.value.state))
  }

  lemma SameLinksKeep(a: Agent, b: Agent)
    requires Linked(a) && SameLinks(a, b)
    ensures Linked(b)
  {
    forall k | k in b.txs ensures TxOk(k, b.txs[k], b.names, b.born) {
      assert TxOk(k, a.txs[k], a.names, a.born);
    }
  }

  /** A transaction other than an INVITE is added on a branch of the supply. */
  ghost predicate AddsTx(a: Agent, b: Agent, key: Key, t: Transaction) {
    && key.verb != INVITE && b.txs == a.txs[key := t] && key.branch < b.names && TxOk(key, t, b.names, b.born)
  }

  lemma AddKeeps(a: Agent, b: Agent, key: Key, t: Transaction)
    requires Linked(a) && AddsTx(a, b, key, t) && SameLinks(a, b.(txs := a.txs))
    ensures Linked(b)
  {
    SameLinksKeep(a, b.(txs := a.txs));
    forall k | k in b.txs ensures TxOk(k, b.txs[k], b.names, b.born) {
      if k != key {
        assert TxOk(k, a.txs[k], a.names, a.born);
      }
    }
    forall k, l | k in b.txs && l in b.txs && b.txs[k].handler.InviteFinal? && b.txs[l].handler.InviteFinal?
                  && b.txs[k].handler.context.callId == b.txs[l].handler.context.callId
      ensures k == l
    {
      assert k in a.txs && l in a.txs;
    }
    if b.call.Some? {
      AddKeepsCall(b.call.value, a.txs, key, t, b.names, b.born);
    }
  }

  lemma AddKeepsCall(c: Call, txs: map<Key, Transaction>, key: Key, t: Transaction, names: Name, born: seq<Born>)
    requires CallOk(c, txs, names, born) && key.verb != INVITE && !t.handler.InviteFinal?
    ensures CallOk(c, txs[key := t], names, born)
  {
    var txs' := txs[key := t];
    if !(c.outgoing && c.state == Calling) {
      forall k | k in txs' ensures !InviteOf(txs', k, c.id) {
        if k != key {
          assert !InviteOf(txs, k, c.id);
        }
      }
    }
  }

  lemma EndKeeps(a: Agent, reason: EndReason, status: int)
    requires TxsOk(a.txs, a.names, a.born) && OneInvite(a.txs)
    ensures Linked(EndCall(a, reason, status)) || a.call.None?
    ensures Linked(a) ==> Linked(EndCall(a, reason, status))
  {
  }

  /** Closing a transaction that is not the call's own INVITE. */
  lemma RemoveKeeps(a: Agent, key: Key)
    requires Linked(a)
    requires a.call.Some? && a.call.value.outgoing && a.call.value.state == Calling ==>
             key != Key(a.call.value.inviteBranch, INVITE)
    ensures Linked(a.(txs := a.txs - {key}))
  {
    var txs := a.txs - {key};
    forall k | k in txs ensures TxOk(k, txs[k], a.names, a.born) {
      assert TxOk(k, a.txs[k], a.names, a.born);
    }
    if a.call.Some? {
      forall k | k in txs ensures InviteOf(txs, k, a.call.value.id) == InviteOf(a.txs, k, a.call.value.id) {
      }
    }
  }

  /** Closing the call's own INVITE. */
  lemma RemoveUnlinks(a: Agent, key: Key)
    requires Linked(a) && a.call.Some? && InviteOf(a.txs, key, a.call.value.id)
    ensures Unlinked(a.(txs := a.txs - {key}))
  {
    var txs := a.txs - {key};
    forall k | k in txs ensures TxOk(k, txs[k], a.names, a.born) {
      assert TxOk(k, a.txs[k], a.names, a.born);
    }
  }

  // ---- Registration ----

  lemma SendRegisterLinked(a: Agent, expires: nat, authorization: Option<string>, now: int)
    requires Linked(a)
    ensures Linked(SendRegister(a, expires, authorization, now))
  {
    var b := SendRegister(a, expires, authorization, now);
    var key := Key(a.names, REGISTER);
    AddKeeps(a, b, key, b.txs[key]);
  }

  lemma RegFrame(a: Agent, reg: Registration)
    requires Linked(a)
    ensures Linked(a.(reg := reg))
  {
  }

  lemma RegisterFinalLinked(a: Agent, response: Option<Response>, expires: nat, authenticated: bool, now: int)
    requires Linked(a)
    ensures Linked(OnRegisterFinal(a, response, expires, authenticated, now))
  {
    var b := a.(reg := a.reg.(inFlight := false));
    RegFrame(a, b.reg);
    if response.Some? {
      SendRegisterLinked(b, expires, response.value.authorization, now);
    }
    SendRegisterLinked(b, 0, None, now);
    var s := OnRegisterFinal(a, response, expires, authenticated, now);
    if s.txs == a.txs {
      SameLinksKeep(a, s);
    }
  }

  lemma StartRegistrationLinked(a: Agent, now: int)
    requires Linked(a)
    ensures Linked(StartRegistration(a, now))
  {
    RegFrame(a, a.reg.(wanted := true, nextAttempt := None));
    SendRegisterLinked(a.(reg := a.reg.(wanted := true, nextAttempt := None)), a.cfg.registerExpires, None, now);
  }

  lemma StopRegistrationLinked(a: Agent, now: int)
    requires Linked(a)
    ensures Linked(StopRegistration(a, now))
  {
    var b := a.(reg := a.reg.(wanted := false, nextAttempt := None));
    RegFrame(a, b.reg);
    RegFrame(b, b.reg.(registered := false));
    SendRegisterLinked(b.(reg := b.reg.(registered := false)), 0, None, now);
  }

  lemma RetryRegistrationLinked(a: Agent, now: int)
    requires Linked(a)
    ensures Linked(TimeRegistration(a, now)) && Linked(OnTransportUp(a, now))
  {
    RegFrame(a, a.reg.(nextAttempt := None));
    SendRegisterLinked(a.(reg := a.reg.(nextAttempt := None)), a.cfg.registerExpires, None, now);
  }

  // ---- Requests of a call ----

  lemma SendByeLinked(a: Agent, now: int)
    requires Linked(a) && a.call.Some?
    ensures Linked(SendBye(a, now))
  {
    var b := SendBye(a, now);
    var key := Key(a.names, BYE);
    AddKeeps(a, b, key, b.txs[key]);
  }

  lemma SendCancelLinked(a: Agent, now: int)
    requires Linked(a) && a.call.Some? && a.call.value.outgoing
    ensures Linked(SendCancel(a, now))
  {
    var b := SendCancel(a, now);
    var key := Key(a.call.value.inviteBranch, CANCEL);
    AddKeeps(a, b, key, b.txs[key]);
  }

  lemma SendInviteLinked(a: Agent, authorization: Option<string>, now: int)
    requires Unlinked(a) && a.call.value.outgoing && a.call.value.state == Calling
    ensures Linked(SendInvite(a, authorization, now))
  {
    var c, key, b := a.call.value, Key(a.names, INVITE), SendInvite(a, authorization, now);
    assert b.txs == a.txs[key := b.txs[key]];
    assert b.call.value == AfterInvite(c, a.names);
    forall k | k in b.txs ensures TxOk(k, b.txs[k], b.names, b.born) {
      if k != key {
        assert TxOk(k, a.txs[k], a.names, a.born);
      }
    }
    forall k, l | k in b.txs && l in b.txs && b.txs[k].handler.InviteFinal? && b.txs[l].handler.InviteFinal?
                  && b.txs[k].handler.context.callId == b.txs[l].handler.context.callId
      ensures k == l
    {
      assert k in a.txs ==> !InviteOf(a.txs, k, c.id);
      assert l in a.txs ==> !InviteOf(a.txs, l, c.id);
    }
  }

  // ---- Outgoing calls ----

  lemma BirthUnlinked(a: Agent, b: Agent, c: Call, id: Born)
    requires Linked(a) && a.call.None? && !IdIn(a.born, id.id)
    requires b.txs == a.txs && b.names >= a.names && b.born == a.born + [id] && b.call == Some(c) && c.id == id.id
    ensures Unlinked(b)
  {
    assert b.born[|a.born|] == id;
    forall k | k in b.txs ensures TxOk(k, b.txs[k], b.names, b.born) && !InviteOf(b.txs, k, c.id) {
      assert TxOk(k, a.txs[k], a.names, a.born);
      if a.txs[k].handler.InviteFinal? {
        BornStays(a.born, b.born, a.txs[k].handler.context.callId);
      }
    }
  }

  lemma DialLinked(a: Agent, id: int, target: string, host: Host, now: int)
    requires Linked(a) && a.call.None? && !IdIn(a.born, id)
    ensures Linked(Dial(a, id, target, host, now))
  {
    var b, key := Begin(a, id, target, host), NewKey(a.cfg, host);
    BirthUnlinked(a, b, NewOutgoing(a, id, target, host), Born(id, true));
    if host.port == 0 || key.None? {
      EndKeeps(b, MediaFailed, 0);
    } else {
      var d := SetCall(b, WithOffer(a.cfg, b.call.value.(srtpKey := key.value)));
      assert Unlinked(d);
      SendInviteLinked(d, None, now);
    }
  }

  lemma PlaceLinked(a: Agent, id: int, target: string, host: Host, now: int)
    requires Linked(a) && !IdIn(a.born, id)
    ensures Linked(PlaceCall(a, id, target, host, now).1)
  {
    if GoodTarget(target) && a.call.None? && !a.shutting {
      DialLinked(a, id, target, host, now);
    }
  }

  lemma ByeAndEnd(a: Agent, reason: EndReason, status: int, now: int)
    requires Linked(a) && a.call.Some?
    ensures Linked(EndCall(SendBye(a, now), reason, status))
  {
    SendByeLinked(a, now);
    EndKeeps(SendBye(a, now), reason, status);
  }

  lemma EstablishLinked(a: Agent, r: Response, host: Host, now: int)
    requires Linked(a) && a.call.Some?
    ensures Linked(Establish(a, r, host, now))
  {
    var c := a.call.value;
    if c.cancelRequested {
      ByeAndEnd(a, OwnReason(a), 0, now);
    } else if !UsableAnswer(a.cfg, r.answer) {
      ByeAndEnd(a, MediaFailed, 488, now);
    } else {
      var b := Do(a, StartByAnswer(a.cfg, c, r.answer.value, host.startOk));
      SameLinksKeep(a, b);
      if !host.startOk {
        ByeAndEnd(b, MediaFailed, 488, now);
      } else {
        SameLinksKeep(b, Emit(b, Event(Answered, c.id, r.status, NoReason)));
      }
    }
  }

  lemma InviteSuccessLinked(a: Agent, context: InviteContext, r: Response, host: Host, now: int)
    requires if Ours(a, context) then Unlinked(a) && a.call.value.outgoing else Linked(a)
    requires Ours(a, context) ==>
             a.call.value.inviteBranch < a.names && a.call.value.inviteCseq < a.call.value.localCseq
    ensures Linked(OnInviteSuccess(a, context, r, host, now))
  {
    var ack := AckFor(context, r, a.names);
    var b := Say(a.(names := a.names + 1), Acked(ack, context.callId));
    if Ours(a, context) {
      var d := SetCall(b, Confirm(a.call.value, context, r, ack));
      MoreNames(a.txs, a.names, d.names, a.born);
      assert Linked(d);
      EstablishLinked(d, r, host, now);
    } else {
      var s := OnInviteSuccess(a, context, r, host, now);
      var key := Key(b.names, BYE);
      AddKeeps(a, s, key, s.txs[key]);
    }
  }

  lemma MoreNames(txs: map<Key, Transaction>, names: Name, names': Name, born: seq<Born>)
    requires TxsOk(txs, names, born) && names <= names'
    ensures TxsOk(txs, names', born)
  {
    forall k | k in txs ensures TxOk(k, txs[k], names', born) {
      assert TxOk(k, txs[k], names, born);
    }
  }

  lemma InviteFailureLinked(a: Agent, response: Option<Response>, now: int)
    requires Unlinked(a) && a.call.value.outgoing && a.call.value.state == Calling
    ensures Linked(OnInviteFailure(a, response, now))
  {
    var c := a.call.value;
    if response.None? {
      EndKeeps(a, Timeout, 408);
    } else if IsChallenge(response.value.status) && !c.authenticated && !c.cancelRequested
              && response.value.authorization.Some? {
      var b := SetCall(a, c.(authenticated := true));
      assert Unlinked(b);
      SendInviteLinked(b, response.value.authorization, now);
    } else {
      EndKeeps(a, if c.cancelRequested then OwnReason(a) else Rejected, response.value.status);
    }
  }

  lemma InviteFinalLinked(a: Agent, key: Key, response: Option<Response>, host: Host, now: int)
    requires Linked(a) && key in a.txs && a.txs[key].handler.InviteFinal?
    ensures Linked(Finish(a, key, response, host, now))
  {
    var context, b := a.txs[key].handler.context, a.(txs := a.txs - {key});
    OursIsDialling(a, key);
    if Ours(a, context) {
      RemoveUnlinks(a, key);
    } else {
      RemoveKeeps(a, key);
    }
    if response.Some? && response.value.status < 300 {
      InviteSuccessLinked(b, context, response.value, host, now);
    } else {
      var d := AckFailure(b, context, response);
      if Ours(a, context) {
        assert Unlinked(d);
        InviteFailureLinked(d, response, now);
      } else {
        SameLinksKeep(b, d);
      }
    }
  }

  /** Closing any live transaction, whatever the outcome, keeps the links. */
  lemma FinishLinked(a: Agent, key: Key, response: Option<Response>, host: Host, now: int)
    requires Linked(a) && key in a.txs
    ensures Linked(Finish(a, key, response, host, now))
  {
    assert TxOk(key, a.txs[key], a.names, a.born);
    match a.txs[key].handler
    case InviteFinal(_) => InviteFinalLinked(a, key, response, host, now);
    case RegisterFinal(expires, authenticated) =>
      RemoveKeeps(a, key);
      RegisterFinalLinked(a.(txs := a.txs - {key}), response, expires, authenticated, now);
    case Ignore => RemoveKeeps(a, key);
  }

  lemma {:induction false} FailAllLinked(a: Agent, keys: seq<Key>, now: int)
    requires Linked(a)
    ensures Linked(FailAll(a, keys, now))
    decreases |keys|
  {
    if keys != [] {
      if keys[0] in a.txs {
        FinishLinked(a, keys[0], None, NO_HOST, now);
      }
      FailAllLinked(if keys[0] in a.txs then Finish(a, keys[0], None, NO_HOST, now) else a, keys[1..], now);
    }
  }

  /** Changing a transaction's timers keeps the links. */
  lemma RetimeKeeps(a: Agent, b: Agent, key: Key, t: Transaction)
    requires Linked(a) && key in a.txs && t.request == a.txs[key].request && t.handler == a.txs[key].handler
    requires b.txs == a.txs[key := t] && SameLinks(a, b.(txs := a.txs))
    ensures Linked(b)
  {
    SameLinksKeep(a, b.(txs := a.txs));
    forall k | k in b.txs ensures TxOk(k, b.txs[k], b.names, b.born) {
      assert TxOk(k, a.txs[k], a.names, a.born);
    }
    if b.call.Some? {
      forall k | k in b.txs ensures InviteOf(b.txs, k, b.call.value.id) == InviteOf(a.txs, k, b.call.value.id) {
      }
    }
  }

  lemma {:induction false} RetransmitAllLinked(a: Agent, order: seq<Key>, now: int)
    requires Linked(a)
    ensures Linked(RetransmitAll(a, order, now))
    decreases |order|
  {
    if order != [] {
      var b := if order[0] in a.txs then Retransmit(a, order[0], now) else a;
      if order[0] in a.txs && RetransmitDue(a.txs[order[0]], now) {
        RetimeKeeps(a, b, order[0], b.txs[order[0]]);
      }
      RetransmitAllLinked(b, order[1..], now);
    }
  }

  lemma InviteProvisionalLinked(a: Agent, callId: int, status: int, now: int)
    requires Linked(a) && (a.call.Some? && a.call.value.id == callId ==> a.call.value.outgoing)
    ensures Linked(OnInviteProvisional(a, callId, status, now))
  {
    var s := OnInviteProvisional(a, callId, status, now);
    if a.call.Some? && a.call.value.id == callId && a.call.value.state == Calling {
      var c := a.call.value.(provisional := true);
      SameLinksKeep(a, SetCall(a, c));
      if c.cancelRequested && !c.cancelSent {
        SendCancelLinked(SetCall(a, c), now);
      } else {
        SameLinksKeep(a, s);
      }
    }
  }

  lemma ProvisionalLinked(a: Agent, key: Key, status: int, now: int)
    requires Linked(a) && key in a.txs
    ensures Linked(OnProvisional(a, key, status, now))
  {
    var b := Say(a, Heard(key)).(txs := a.txs[key := Soothe(a.txs[key], now)]);
    RetimeKeeps(a, b, key, Soothe(a.txs[key], now));
    if a.txs[key].handler.InviteFinal? {
      OursIsDialling(a, key);
      InviteProvisionalLinked(b, a.txs[key].handler.context.callId, status, now);
    }
  }


  lemma ResponseLinked(a: Agent, r: Response, host: Host, now: int)
    requires Linked(a)
    ensures Linked(OnResponse(a, r, host, now))
  {
    if r.verb.Some? {
      var key := Key(r.branch, r.verb.value);
      if key !in a.txs {
        SameLinksKeep(a, OnResponse(a, r, host, now));
      } else if r.status < 200 {
        ProvisionalLinked(a, key, r.status, now);
      } else {
        FinishLinked(a, key, Some(r), host, now);
      }
    }
  }

  // ---- Incoming calls and commands ----

  lemma InviteRequestSame(a: Agent, q: Query, newId: int, host: Host)
    requires !OpensCall(a, q)
    ensures SameLinks(a, OnInviteRequest(a, q, newId, host))
  {
  }

  lemma RingLinked(a: Agent, q: Query, newId: int)
    requires Linked(a) && a.call.None? && !IdIn(a.born, newId) && q.offer.Some?
    ensures Linked(Ring(a, q, newId))
  {
    var s := Ring(a, q, newId);
    BirthUnlinked(a, s, s.call.value, Born(newId, false));
  }

  lemma InviteRequestLinked(a: Agent, q: Query, newId: int, host: Host)
    requires Linked(a) && !IdIn(a.born, newId)
    ensures Linked(OnInviteRequest(a, q, newId, host))
  {
    if OpensCall(a, q) {
      RingLinked(a, q, newId);
    } else {
      InviteRequestSame(a, q, newId, host);
      SameLinksKeep(a, OnInviteRequest(a, q, newId, host));
    }
  }

  lemma RequestSame(a: Agent, q: Query, newId: int, host: Host, now: int)
    requires q.verb != INVITE || !q.complete
    ensures SameLinks(a, OnRequest(a, q, newId, host, now))
  {
  }

  lemma RequestLinked(a: Agent, q: Query, newId: int, host: Host, now: int)
    requires Linked(a) && !IdIn(a.born, newId)
    ensures Linked(OnRequest(a, q, newId, host, now))
  {
    if q.verb == INVITE && q.complete {
      InviteRequestLinked(a, q, newId, host);
    } else {
      RequestSame(a, q, newId, host, now);
      SameLinksKeep(a, OnRequest(a, q, newId, host, now));
    }
  }

  lemma TakeUpSame(a: Agent, host: Host, now: int)
    requires a.call.Some? && !a.call.value.outgoing
    ensures SameLinks(a, TakeUp(a, host, now))
  {
    var b, key := OpenFor(a, host), NewKey(a.cfg, host);
    assert SameLinks(a, b);
    if host.port != 0 && key.Some? {
      var e := StartFor(b, key.value, host);
      assert SameLinks(b, e);
    }
  }

  lemma TakeUpLinked(a: Agent, host: Host, now: int)
    requires Linked(a) && a.call.Some? && !a.call.value.outgoing
    ensures Linked(TakeUp(a, host, now))
  {
    TakeUpSame(a, host, now);
    SameLinksKeep(a, TakeUp(a, host, now));
  }

  lemma HangupLinked(a: Agent, id: int, now: int)
    requires Linked(a) && (a.call.Some? && a.call.value.state == Calling ==> a.call.value.outgoing)
    ensures Linked(Hangup(a, id, now).1)
  {
    if a.call.Some? && a.call.value.id == id {
      match a.call.value.state
      case Calling =>
        HangupCallingLinked(a, now);
        EndKeeps(HangupCalling(a, now), Shutdown, 0);
      case Ringing => SameLinksKeep(a, Hangup(a, id, now).1);
      case Answering => ByeAndEnd(a, OwnReason(a), 0, now);
      case Confirmed => ByeAndEnd(a, OwnReason(a), 0, now);
    }
  }

  lemma HangupCallingLinked(a: Agent, now: int)
    requires Linked(a) && a.call.Some? && a.call.value.outgoing
    ensures Linked(HangupCalling(a, now))
  {
    var c := a.call.value;
    if !c.cancelRequested {
      var b := Say(SetCall(a, c.(cancelRequested := true)), HangupAsked(c.id));
      SameLinksKeep(a, b);
      SendCancelLinked(b, now);
    }
  }

  lemma ShutdownLinked(a: Agent, now: int)
    requires Linked(a) && (a.call.Some? && a.call.value.state == Calling ==> a.call.value.outgoing)
    ensures Linked(BeginShutdown(a, now))
  {
    var b := a.(shutting := true);
    SameLinksKeep(a, b);
    if a.call.Some? {
      HangupLinked(b, a.call.value.id, now);
    }
    StopRegistrationLinked(if a.call.Some? then Hangup(b, a.call.value.id, now).1 else b, now);
  }

  lemma TimeAnswerLinked(a: Agent, now: int)
    requires Linked(a)
    ensures Linked(TimeAnswer(a, now))
  {
    if a.call.Some? && a.call.value.state == Answering && now >= a.call.value.ackDeadline {
      ByeAndEnd(a, Timeout, 408, now);
    } else {
      SameLinksKeep(a, TimeAnswer(a, now));
    }
  }

  lemma TimerLinked(a: Agent, order: seq<Key>, now: int)
    requires Linked(a)
    ensures Linked(OnTimer(a, order, now))
  {
    var b := RetransmitAll(a, order, now);
    var d := FailAll(b, Expired(a, order, now), now);
    RetransmitAllLinked(a, order, now);
    FailAllLinked(b, Expired(a, order, now), now);
    TimeAnswerLinked(d, now);
    RetryRegistrationLinked(TimeAnswer(d, now), now);
  }
}
