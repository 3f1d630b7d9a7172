/** How often the 200 to an incoming call is sent (section 13.3.1.4 of RFC 3261). */
module AgentAnswers {
  import opened Prelude
  import opened AgentTypes
  import opened AgentSpec
  import opened AgentLinks
  import opened AgentTimers

  /** The 200 to call id's first INVITE, other than a copy triggered by a repeated INVITE. */
  predicate IsAnswer(w: Wire, id: int) {
    && w.Responded? && w.cause != RepeatedInvite
    && w.reply.status == 200 && w.reply.tag.Some? && w.reply.owner == Some(id)
  }

  function AnswerCopies(wire: seq<Wire>, id: int): nat {
    if wire == [] then 0
    else AnswerCopies(wire[..|wire| - 1], id) + (if IsAnswer(wire[|wire| - 1], id) then 1 else 0)
  }

  lemma AnswerCopiesAppend(wire: seq<Wire>, w: Wire, id: int)
    ensures AnswerCopies(wire + [w], id) == AnswerCopies(wire, id) + (if IsAnswer(w, id) then 1 else 0)
  {
    assert (wire + [w])[..|wire|] == wire;
  }

  /** No answer was added to the traffic. */
  ghost predicate NoAnswer(wire: seq<Wire>, wire': seq<Wire>) {
    wire <= wire' && forall i :: |wire| <= i < |wire'| ==>
                       !(wire'[i].Responded? && wire'[i].reply.owner.Some?
                         && wire'[i].reply.tag.Some? && wire'[i].cause != RepeatedInvite)
  }

  lemma {:induction false} NoAnswerSame(wire: seq<Wire>, wire': seq<Wire>, id: int)
    requires NoAnswer(wire, wire')
    ensures AnswerCopies(wire', id) == AnswerCopies(wire, id)
    decreases |wire'|
  {
    if |wire| < |wire'| {
      NoAnswerSame(wire, wire'[..|wire'| - 1], id);
    } else {
      assert wire' == wire;
    }
  }

  const MAX_ANSWERS: nat := 11

  ghost predicate CallAnswers(c: Call, n: nat) {
    && (!c.outgoing && c.state == Ringing ==> n == 0)
    && (!c.outgoing && c.state == Answering ==>
          && 1 <= n && c.resendInterval >= Pause(BYE, n)
          && c.resendAt >= c.ackDeadline - TRANSACTION_TIMEOUT + Offset(BYE, n)
          && c.lastResponse.Some? && IsAnswer(Responded(c.lastResponse.value, Timer), c.id))
  }

  ghost predicate AnswersBounded(wire: seq<Wire>, born: seq<Born>) {
    forall id :: AnswerCopies(wire, id) <= MAX_ANSWERS && (!IdIn(born, id) ==> AnswerCopies(wire, id) == 0)
  }

  ghost predicate Answers(a: Agent) {
    && AnswersBounded(a.wire, a.born)
    && (a.call.Some? ==> CallAnswers(a.call.value, AnswerCopies(a.wire, a.call.value.id)))
  }

  /** Steps that send no answer and leave an incoming call's timers alone. */
  ghost predicate Mute(a: Agent, b: Agent) {
    && NoAnswer(a.wire, b.wire) && a.born <= b.born
    && (b.call.Some? && !b.call.value.outgoing ==>
          || b.call == a.call
          || (b.call.value.state == Confirmed)
          || (b.call.value.state == Ringing && !IdIn(a.born, b.call.value.id)))
  }

  lemma MuteKeeps(a: Agent, b: Agent)
    requires Answers(a) && Mute(a, b)
    ensures Answers(b)
  {
    forall id
      ensures AnswerCopies(b.wire, id) == AnswerCopies(a.wire, id) && (!IdIn(b.born, id) ==> !IdIn(a.born, id))
    {
      NoAnswerSame(a.wire, b.wire, id);
      if IdIn(a.born, id) {
        BornStays(a.born, b.born, id);
      }
    }
  }

  lemma RegistrationMute(a: Agent, now: int)
    ensures Mute(a, StartRegistration(a, now)) && Mute(a, StopRegistration(a, now))
    ensures Mute(a, OnTransportUp(a, now)) && Mute(a, TimeRegistration(a, now))
  {
  }

  lemma RegisterFinalMute(a: Agent, response: Option<Response>, expires: nat, authenticated: bool, now: int)
    ensures Mute(a, OnRegisterFinal(a, response, expires, authenticated, now))
  {
  }

  lemma DialMute(a: Agent, id: int, target: string, host: Host, now: int)
    ensures Mute(a, Dial(a, id, target, host, now))
  {
  }

  lemma ByeAndEndMute(a: Agent, reason: EndReason, status: int, now: int)
    requires a.call.Some?
    ensures EndCall(SendBye(a, now), reason, status).call.None?
            && EndCall(SendBye(a, now), reason, status).born == a.born
    ensures Mute(a, EndCall(SendBye(a, now), reason, status))
  {
  }

  lemma EstablishMute(a: Agent, r: Response, host: Host, now: int)
    requires a.call.Some? && a.call.value.outgoing
    ensures var s := Establish(a, r, host, now);
            NoAnswer(a.wire, s.wire) && s.born == a.born && (s.call.Some? ==> s.call.value.outgoing)
  {
    var c := a.call.value;
    if c.cancelRequested {
      ByeAndEndMute(a, OwnReason(a), 0, now);
    } else if !UsableAnswer(a.cfg, r.answer) {
      ByeAndEndMute(a, MediaFailed, 488, now);
    } else {
      var b := Do(a, StartByAnswer(a.cfg, c, r.answer.value, host.startOk));
      ByeAndEndMute(b, MediaFailed, 488, now);
    }
  }

  lemma LateSuccessMute(a: Agent, context: InviteContext, r: Response, host: Host, now: int)
    requires !Ours(a, context)
    ensures Mute(a, OnInviteSuccess(a, context, r, host, now))
  {
  }

  lemma InviteSuccessMute(a: Agent, context: InviteContext, r: Response, host: Host, now: int)
    requires Ours(a, context) ==> a.call.value.outgoing
    ensures Mute(a, OnInviteSuccess(a, context, r, host, now))
  {
    if !Ours(a, context) {
      LateSuccessMute(a, context, r, host, now);
    } else {
      var ack := AckFor(context, r, a.names);
      var b := SetCall(Say(a.(names := a.names + 1), Acked(ack, context.callId)),
                       Confirm(a.call.value, context, r, ack));
      assert OnInviteSuccess(a, context, r, host, now) == Establish(b, r, host, now);
      EstablishMute(b, r, host, now);
      StayingOutgoing(a, b, Establish(b, r, host, now));
    }
  }

  lemma StayingOutgoing(a: Agent, b: Agent, s: Agent)
    requires NoAnswer(a.wire, b.wire) && NoAnswer(b.wire, s.wire) && s.born == a.born
    requires s.call.Some? ==> s.call.value.outgoing
    ensures Mute(a, s)
  {
    forall i | |a.wire| <= i < |s.wire|
      ensures !(s.wire[i].Responded? && s.wire[i].reply.owner.Some? && s.wire[i].reply.tag.Some?
                && s.wire[i].cause != RepeatedInvite)
    {
      if i < |b.wire| {
        assert s.wire[i] == b.wire[i];
      }
    }
  }

  lemma InviteFailureMute(a: Agent, response: Option<Response>, now: int)
    requires a.call.Some? && a.call.value.outgoing
    ensures Mute(a, OnInviteFailure(a, response, now))
  {
  }

  lemma InviteFinalMute(a: Agent, context: InviteContext, response: Option<Response>, host: Host, now: int)
    requires Ours(a, context) ==> a.call.value.outgoing && a.call.value.state == Calling
    ensures Mute(a, OnInviteFinal(a, context, response, host, now))
  {
    if response.Some? && response.value.status < 300 {
      InviteSuccessMute(a, context, response.value, host, now);
    } else if Ours(a, context) {
      InviteFailureMute(AckFailure(a, context, response), response, now);
    }
  }

  lemma FinishMute(a: Agent, key: Key, response: Option<Response>, host: Host, now: int)
    requires Linked(a) && key in a.txs
    ensures Mute(a, Finish(a, key, response, host, now))
  {
    var b := a.(txs := a.txs - {key});
    match a.txs[key].handler
    case InviteFinal(context) =>
      OursIsDialling(a, key);
      InviteFinalMute(b, context, response, host, now);
    case RegisterFinal(expires, authenticated) => RegisterFinalMute(b, response, expires, authenticated, now);
    case Ignore =>
  }

  lemma {:induction false} FailAllAnswers(a: Agent, keys: seq<Key>, now: int)
    requires Answers(a) && Linked(a)
    ensures Answers(FailAll(a, keys, now))
    decreases |keys|
  {
    if keys != [] {
      var b := if keys[0] in a.txs then Finish(a, keys[0], None, NO_HOST, now) else a;
      if keys[0] in a.txs {
        FinishMute(a, keys[0], None, NO_HOST, now);
        MuteKeeps(a, b);
        FinishLinked(a, keys[0], None, NO_HOST, now);
      }
      FailAllAnswers(b, keys[1..], now);
    }
  }

  lemma {:induction false} RetransmitAllMute(a: Agent, order: seq<Key>, now: int)
    ensures NoAnswer(a.wire, RetransmitAll(a, order, now).wire)
    ensures RetransmitAll(a, order, now).call == a.call && RetransmitAll(a, order, now).born == a.born
    decreases |order|
  {
    if order != [] {
      RetransmitAllMute(if order[0] in a.txs then Retransmit(a, order[0], now) else a, order[1..], now);
    }
  }

  lemma InviteProvisionalMute(a: Agent, callId: int, status: int, now: int)
    requires a.call.Some? && a.call.value.id == callId ==> a.call.value.outgoing
    ensures Mute(a, OnInviteProvisional(a, callId, status, now))
  {
  }

  lemma ResponseMute(a: Agent, r: Response, host: Host, now: int)
    requires Linked(a)
    ensures Mute(a, OnResponse(a, r, host, now))
  {
    if r.verb.Some? && Key(r.branch, r.verb.value) in a.txs {
      var key := Key(r.branch, r.verb.value);
      if r.status >= 200 {
        FinishMute(a, key, Some(r), host, now);
      } else if a.txs[key].handler.InviteFinal? {
        OursIsDialling(a, key);
        var b := Say(a, Heard(key)).(txs := a.txs[key := Soothe(a.txs[key], now)]);
        InviteProvisionalMute(b, a.txs[key].handler.context.callId, r.status, now);
      }
    }
  }

  lemma ReInviteMute(a: Agent, q: Query, host: Host)
    requires a.call.Some? && (a.call.value.outgoing || a.call.value.state == Confirmed)
    ensures Mute(a, ReInvite(a, q, host))
  {
  }

  lemma InviteRequestMute(a: Agent, q: Query, newId: int, host: Host)
    requires !IdIn(a.born, newId)
    ensures Mute(a, OnInviteRequest(a, q, newId, host))
  {
    if a.call.Some? && a.call.value.sipCallId == q.callId
       && (a.call.value.outgoing || a.call.value.state == Confirmed) {
      ReInviteMute(a, q, host);
    }
  }

  lemma RequestMute(a: Agent, q: Query, newId: int, host: Host, now: int)
    requires !IdIn(a.born, newId)
    ensures Mute(a, OnRequest(a, q, newId, host, now))
  {
    if q.verb == INVITE && q.complete {
      InviteRequestMute(a, q, newId, host);
    }
  }

  lemma HangupMute(a: Agent, id: int, now: int)
    requires a.call.Some? && a.call.value.state == Calling ==> a.call.value.outgoing
    ensures Mute(a, Hangup(a, id, now).1)
  {
    if a.call.Some? && a.call.value.id == id && (a.call.value.state == Answering || a.call.value.state == Confirmed) {
      ByeAndEndMute(a, OwnReason(a), 0, now);
    }
  }

  lemma RejectMute(a: Agent, id: int, status: int)
    ensures Mute(a, Reject(a, id, status).1)
  {
  }

  lemma SendAnswerAnswers(a: Agent, b: Agent, now: int)
    requires Answers(a) && a.call.Some? && !a.call.value.outgoing && a.call.value.state == Ringing
             && IdIn(a.born, a.call.value.id)
    requires b.wire == a.wire && b.born == a.born && b.call.Some? && b.call.value.id == a.call.value.id
             && !b.call.value.outgoing
    ensures Answers(SendAnswer(b, now))
  {
    var s := SendAnswer(b, now);
    forall id ensures AnswerCopies(s.wire, id) == AnswerCopies(a.wire, id) + (if id == a.call.value.id then 1 else 0) {
      AnswerCopiesAppend(a.wire, s.wire[|a.wire|], id);
    }
    assert Offset(BYE, 1) == Offset(BYE, 0) + Pause(BYE, 1) && Pow2(0) == 1;
  }

  lemma TakeUpAnswers(a: Agent, host: Host, now: int)
    requires Answers(a) && a.call.Some? && !a.call.value.outgoing && a.call.value.state == Ringing
             && IdIn(a.born, a.call.value.id)
    ensures Answers(TakeUp(a, host, now))
  {
    var b, key := OpenFor(a, host), NewKey(a.cfg, host);
    if host.port == 0 || key.None? {
      MuteKeeps(a, RefuseAnswer(b));
    } else {
      var e := StartFor(b, key.value, host);
      if !host.startOk {
        MuteKeeps(a, RefuseAnswer(e));
      } else {
        SendAnswerAnswers(a, e, now);
      }
    }
  }

  lemma ResendAnswers(a: Agent, now: int)
    requires Answers(a) && a.call.Some? && !a.call.value.outgoing && a.call.value.state == Answering
             && IdIn(a.born, a.call.value.id)
    requires a.call.value.resendAt <= now < a.call.value.ackDeadline
    ensures Answers(TimeAnswer(a, now))
  {
    var c, s := a.call.value, TimeAnswer(a, now);
    var n := AnswerCopies(a.wire, c.id);
    forall id ensures AnswerCopies(s.wire, id) == AnswerCopies(a.wire, id) + (if id == c.id then 1 else 0) {
      AnswerCopiesAppend(a.wire, s.wire[|a.wire|], id);
    }
    NextCopy(n);
  }

  lemma NextCopy(n: nat)
    requires n > 0
    ensures Pow2(n) == 2 * Pow2(n - 1) && Offset(BYE, n + 1) == Offset(BYE, n) + Pause(BYE, n + 1)
    ensures Offset(BYE, MaxCopies(BYE)) >= TRANSACTION_TIMEOUT
  {
    LastCopy(BYE);
  }

  lemma TimeAnswerAnswers(a: Agent, now: int)
    requires Answers(a) && (a.call.Some? ==>
                            IdIn(a.born, a.call.value.id)
                                && (a.call.value.outgoing ==> a.call.value.state != Answering))
    ensures Answers(TimeAnswer(a, now))
  {
    if a.call.Some? && a.call.value.state == Answering {
      if now >= a.call.value.ackDeadline {
        ByeAndEndMute(a, Timeout, 408, now);
        MuteKeeps(a, TimeAnswer(a, now));
      } else if now >= a.call.value.resendAt {
        ResendAnswers(a, now);
      }
    }
  }
}
