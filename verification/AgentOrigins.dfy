/** Where the keys of each media start come from: what was received, and what this side sent. */
module AgentOrigins {
  import opened Prelude
  import opened AgentTypes
  import opened AgentSpec
  import opened AgentLinks
  import opened AgentMedia
  import opened AgentRequests
  import opened AgentTransport
  import opened AgentRuns
  import Sdp

  /** The input that brought the description media was started with; a call that rang keeps the offer it came with. */
  ghost predicate Brought(a: Agent, i: Input, m: MediaAct)
    requires m.Started?
  {
    match m.origin
    case ByAnswer(answer, branch) => i.ResponseIn? && i.response.answer == Some(answer) && i.response.branch == branch
    case ByOffer(offer, _) =>
      || (i.RequestIn? && i.query.verb == INVITE && i.query.offer == Some(offer))
      || (i.Pick? && a.call.Some? && !a.call.value.outgoing && a.call.value.offer == offer)
  }

  ghost predicate InviteSent(wire: seq<Wire>, id: int, branch: Name) {
    exists j :: 0 <= j < |wire| && IsFirst(wire[j], id, INVITE) && wire[j].key == Key(branch, INVITE)
  }

  ghost predicate AnswerSent(wire: seq<Wire>, id: int, sdp: Option<LocalSdp>) {
    exists j :: && 0 <= j < |wire| && wire[j].Responded? && wire[j].reply.status == 200
                && wire[j].reply.owner == Some(id) && wire[j].reply.sdp == sdp
  }

  /** This side's part of the exchange went out: the INVITE that was answered or, if media started, the answer. */
  ghost predicate Sent(wire: seq<Wire>, m: MediaAct)
    requires m.Started?
  {
    match m.origin
    case ByAnswer(_, branch) => InviteSent(wire, m.owner, branch)
    case ByOffer(_, local) => m.ok ==> AnswerSent(wire, m.owner, local)
  }

  lemma SentStays(wire: seq<Wire>, wire': seq<Wire>, m: MediaAct)
    requires wire <= wire' && m.Started? && Sent(wire, m)
    ensures Sent(wire', m)
  {
    match m.origin
    case ByAnswer(_, branch) =>
      var j :| 0 <= j < |wire| && IsFirst(wire[j], m.owner, INVITE) && wire[j].key == Key(branch, INVITE);
      assert wire'[j] == wire[j];
    case ByOffer(_, local) =>
      if m.ok {
        var j :| && 0 <= j < |wire| && wire[j].Responded? && wire[j].reply.status == 200
                 && wire[j].reply.owner == Some(m.owner) && wire[j].reply.sdp == local;
        assert wire'[j] == wire[j];
      }
  }

  // ---- Steps that start nothing ----

  ghost predicate SameOffer(a: Option<Call>, b: Option<Call>) {
    b.Some? && !b.value.outgoing ==> a.Some? && !a.value.outgoing && b.value.offer == a.value.offer
  }

  ghost predicate Onward(a: Agent, b: Agent) {
    a.wire <= b.wire && a.media <= b.media && SameOffer(a.call, b.call)
  }

  /** The one start of media, if there is one, is `m`. */
  ghost predicate StartsOnly(a: Agent, b: Agent, m: MediaAct) {
    Onward(a, b) && forall k :: |a.media| <= k < |b.media| && b.media[k].Started? ==> b.media[k] == m
  }

  ghost predicate Silent(a: Agent, b: Agent) {
    Onward(a, b) && forall k :: |a.media| <= k < |b.media| ==> !b.media[k].Started?
  }

  lemma SilentTrans(a: Agent, b: Agent, c: Agent)
    requires Silent(a, b) && Silent(b, c)
    ensures Silent(a, c)
  {
  }

  lemma PlainIsSilent(a: Agent, b: Agent)
    requires PlainTraces(a, b) && SameOffer(a.call, b.call)
    ensures Silent(a, b)
  {
  }

  lemma EndSilent(a: Agent, reason: EndReason, status: int)
    ensures Silent(a, EndCall(a, reason, status))
  {
  }

  lemma ByeAndEndSilent(a: Agent, reason: EndReason, status: int, now: int)
    requires a.call.Some?
    ensures Silent(a, EndCall(SendBye(a, now), reason, status))
  {
    SendByePlain(a, now);
    PlainIsSilent(a, SendBye(a, now));
    EndSilent(SendBye(a, now), reason, status);
  }

  lemma SaidAndEndedSilent(a: Agent, b: Agent, reason: EndReason, status: int)
    requires PlainTraces(a, b) && b.call == a.call
    ensures Silent(a, EndCall(b, reason, status))
  {
    EndSilent(b, reason, status);
  }

  lemma SendInviteSilent(a: Agent, authorization: Option<string>, now: int)
    requires a.call.Some? && a.call.value.outgoing
    ensures Silent(a, SendInvite(a, authorization, now))
  {
  }

  lemma DialSilent(a: Agent, id: int, target: string, host: Host, now: int)
    ensures Silent(a, Dial(a, id, target, host, now))
  {
    var b, key := Begin(a, id, target, host), NewKey(a.cfg, host);
    assert Silent(a, b);
    if host.port == 0 || key.None? {
      EndSilent(b, MediaFailed, 0);
    } else {
      SendInviteSilent(SetCall(b, WithOffer(a.cfg, b.call.value.(srtpKey := key.value))), None, now);
    }
  }

  lemma InviteFailureSilent(a: Agent, response: Option<Response>, now: int)
    requires a.call.Some? && a.call.value.outgoing
    ensures Silent(a, OnInviteFailure(a, response, now))
  {
    var c := a.call.value;
    if response.None? {
      EndSilent(a, Timeout, 408);
    } else if IsChallenge(response.value.status) && !c.authenticated && !c.cancelRequested
              && response.value.authorization.Some? {
      SendInviteSilent(SetCall(a, c.(authenticated := true)), response.value.authorization, now);
    } else {
      EndSilent(a, if c.cancelRequested then OwnReason(a) else Rejected, response.value.status);
    }
  }

  lemma UnansweredSilent(a: Agent, context: InviteContext, response: Option<Response>, host: Host, now: int)
    requires response.Some? ==> response.value.status >= 300
    requires Ours(a, context) ==> a.call.value.outgoing
    ensures Silent(a, OnInviteFinal(a, context, response, host, now))
  {
    var b := AckFailure(a, context, response);
    assert Silent(a, b);
    if Ours(a, context) {
      InviteFailureSilent(b, response, now);
    }
  }

  lemma FailedSilent(a: Agent, key: Key, now: int)
    requires Linked(a) && key in a.txs
    ensures Silent(a, Finish(a, key, None, NO_HOST, now))
  {
    var b := a.(txs := a.txs - {key});
    match a.txs[key].handler
    case InviteFinal(context) =>
      OursIsDialling(a, key);
      UnansweredSilent(b, context, None, NO_HOST, now);
    case RegisterFinal(expires, authenticated) =>
      RegisterFinalPlain(b, None, expires, authenticated, now);
      PlainIsSilent(b, OnRegisterFinal(b, None, expires, authenticated, now));
    case Ignore =>
  }

  lemma {:induction false} FailAllSilent(a: Agent, keys: seq<Key>, now: int)
    requires Linked(a)
    ensures Silent(a, FailAll(a, keys, now))
    decreases |keys|
  {
    if keys != [] {
      var b := if keys[0] in a.txs then Finish(a, keys[0], None, NO_HOST, now) else a;
      if keys[0] in a.txs {
        FailedSilent(a, keys[0], now);
        FinishLinked(a, keys[0], None, NO_HOST, now);
      }
      FailAllSilent(b, keys[1..], now);
      SilentTrans(a, b, FailAll(a, keys, now));
    }
  }

  lemma {:induction false} RetransmitAllSilent(a: Agent, order: seq<Key>, now: int)
    ensures Silent(a, RetransmitAll(a, order, now))
    decreases |order|
  {
    if order != [] {
      var b := if order[0] in a.txs then Retransmit(a, order[0], now) else a;
      assert Silent(a, b);
      RetransmitAllSilent(b, order[1..], now);
      SilentTrans(a, b, RetransmitAll(a, order, now));
    }
  }

  lemma TimeAnswerSilent(a: Agent, now: int)
    ensures Silent(a, TimeAnswer(a, now))
  {
    if a.call.Some? && a.call.value.state == Answering && now >= a.call.value.ackDeadline {
      ByeAndEndSilent(a, Timeout, 408, now);
    }
  }

  lemma TimerSilent(a: Agent, order: seq<Key>, now: int)
    requires Linked(a)
    ensures Silent(a, OnTimer(a, order, now))
  {
    var b := RetransmitAll(a, order, now);
    var d := FailAll(b, Expired(a, order, now), now);
    RetransmitAllSilent(a, order, now);
    RetransmitAllLinked(a, order, now);
    FailAllSilent(b, Expired(a, order, now), now);
    SilentTrans(a, b, d);
    TimeAnswerSilent(d, now);
    SilentTrans(a, d, TimeAnswer(d, now));
    RetryPlain(TimeAnswer(d, now), now);
    PlainIsSilent(TimeAnswer(d, now), OnTimer(a, order, now));
    SilentTrans(a, TimeAnswer(d, now), OnTimer(a, order, now));
  }

  lemma DownSilent(a: Agent, order: seq<Key>, now: int)
    requires Linked(a) && IsOrder(order, a.txs.Keys)
    ensures Silent(a, OnTransportDown(a, order, now))
  {
    DownIsFailAll(a, order, now);
    FailAllSilent(a, order, now);
    SilentTrans(a, FailAll(a, order, now), LoseRegistration(FailAll(a, order, now)));
  }

  lemma RejectSilent(a: Agent, id: int, status: int)
    ensures Silent(a, Reject(a, id, status).1)
  {
    if Reject(a, id, status).0 == Ok {
      SaidAndEndedSilent(a, Say(a, Responded(AnswerReply(a.call.value, status, None), Direct)), LocalEnd, status);
    }
  }

  lemma HangupSilent(a: Agent, id: int, now: int)
    ensures Silent(a, Hangup(a, id, now).1)
  {
    if a.call.Some? && a.call.value.id == id {
      match a.call.value.state
      case Calling =>
        var b := HangupCalling(a, now);
        HangupCallingPlain(a, now);
        PlainIsSilent(a, b);
        EndSilent(b, Shutdown, 0);
      case Ringing =>
        SaidAndEndedSilent(a, Say(a, Responded(AnswerReply(a.call.value, 603, None), Direct)), OwnReason(a), 603);
      case Answering => ByeAndEndSilent(a, OwnReason(a), 0, now);
      case Confirmed => ByeAndEndSilent(a, OwnReason(a), 0, now);
    }
  }

  lemma ShutdownSilent(a: Agent, now: int)
    ensures Silent(a, BeginShutdown(a, now))
  {
    var b := a.(shutting := true);
    var d := if a.call.Some? then Hangup(b, a.call.value.id, now).1 else b;
    if a.call.Some? {
      HangupSilent(b, a.call.value.id, now);
    }
    RegistrationPlain(d, now);
    PlainIsSilent(d, StopRegistration(d, now));
    SilentTrans(b, d, StopRegistration(d, now));
  }

  // ---- Steps that start media ----

  lemma EstablishStarts(a: Agent, r: Response, host: Host, now: int)
    requires a.call.Some?
    ensures var b := Establish(a, r, host, now);
            if r.answer.Some? then StartsOnly(a, b, StartByAnswer(a.cfg, a.call.value, r.answer.value, host.startOk))
            else Silent(a, b)
  {
    var c := a.call.value;
    if c.cancelRequested {
      ByeAndEndSilent(a, OwnReason(a), 0, now);
    } else if !UsableAnswer(a.cfg, r.answer) {
      ByeAndEndSilent(a, MediaFailed, 488, now);
    } else {
      var b := Do(a, StartByAnswer(a.cfg, c, r.answer.value, host.startOk));
      ByeAndEndSilent(b, MediaFailed, 488, now);
    }
  }

  /** A final response to an INVITE starts media with its own answer, for the call whose INVITE it is. */
  ghost predicate StartsByAnswer(a: Agent, b: Agent, r: Response, branch: Name) {
    && Onward(a, b)
    && forall k :: |a.media| <= k < |b.media| && b.media[k].Started? ==>
         && r.answer.Some? && a.call.Some? && a.call.value.outgoing && b.media[k].owner == a.call.value.id
         && a.call.value.inviteBranch == branch && b.media[k].origin == ByAnswer(r.answer.value, branch)
  }

  lemma SuccessStarts(a: Agent, context: InviteContext, r: Response, host: Host, now: int)
    requires Ours(a, context) ==> a.call.value.outgoing
    ensures StartsByAnswer(a, OnInviteSuccess(a, context, r, host, now), r, context.branch)
  {
    if Ours(a, context) {
      OursStarts(a, context, r, host, now);
    } else {
      OthersStart(a, context, r, host, now);
    }
  }

  lemma OursStarts(a: Agent, context: InviteContext, r: Response, host: Host, now: int)
    requires Ours(a, context) && a.call.value.outgoing
    ensures StartsByAnswer(a, OnInviteSuccess(a, context, r, host, now), r, context.branch)
  {
    var d := Confirming(a, context, r, host, now);
    TakenStarts(a, d, OnInviteSuccess(a, context, r, host, now), r, host, now, context.branch);
  }

  lemma OthersStart(a: Agent, context: InviteContext, r: Response, host: Host, now: int)
    requires !Ours(a, context)
    ensures StartsByAnswer(a, OnInviteSuccess(a, context, r, host, now), r, context.branch)
  {
    var b := Say(a.(names := a.names + 1), Acked(AckFor(context, r, a.names), context.callId));
    LateStarts(a, b, LaunchFresh(b, LateByeRequest(context, r), Ignore, now), context, r, now);
  }

  lemma LateStarts(a: Agent, b: Agent, s: Agent, context: InviteContext, r: Response, now: int)
    requires a.wire <= b.wire && b.media == a.media && b.call == a.call
    requires s == LaunchFresh(b, LateByeRequest(context, r), Ignore, now)
    ensures StartsByAnswer(a, s, r, context.branch)
  {
    LateByePlain(b, context, r, now);
    PlainIsSilent(b, s);
  }

  lemma TakenStarts(a: Agent, d: Agent, s: Agent, r: Response, host: Host, now: int, branch: Name)
    requires a.call.Some? && a.call.value.outgoing && a.wire <= d.wire && d.media == a.media && d.call.Some?
    requires d.call.value.id == a.call.value.id && d.call.value.inviteBranch == a.call.value.inviteBranch == branch
    requires d.call.value.outgoing && s == Establish(d, r, host, now)
    ensures StartsByAnswer(a, s, r, branch)
  {
    EstablishStarts(d, r, host, now);
  }

  lemma FinishStarts(a: Agent, key: Key, r: Response, host: Host, now: int)
    requires Linked(a) && key in a.txs
    ensures StartsByAnswer(a, Finish(a, key, Some(r), host, now), r, key.branch)
  {
    var b := a.(txs := a.txs - {key});
    assert TxOk(key, a.txs[key], a.names, a.born);
    match a.txs[key].handler
    case InviteFinal(context) =>
      OursIsDialling(a, key);
      if r.status < 300 {
        SuccessStarts(b, context, r, host, now);
      } else {
        UnansweredSilent(b, context, Some(r), host, now);
      }
    case RegisterFinal(expires, authenticated) =>
      RegisterFinalPlain(b, Some(r), expires, authenticated, now);
      PlainIsSilent(b, OnRegisterFinal(b, Some(r), expires, authenticated, now));
    case Ignore =>
  }

  lemma ProvisionalSilent(a: Agent, key: Key, status: int, now: int)
    requires key in a.txs
    ensures Silent(a, OnProvisional(a, key, status, now))
  {
    var b := Say(a, Heard(key)).(txs := a.txs[key := Soothe(a.txs[key], now)]);
    if a.txs[key].handler.InviteFinal? {
      var id := a.txs[key].handler.context.callId;
      InviteProvisionalPlain(b, id, status, now);
      PlainIsSilent(b, OnInviteProvisional(b, id, status, now));
    }
  }

  lemma ResponseStarts(a: Agent, r: Response, host: Host, now: int)
    requires Linked(a)
    ensures StartsByAnswer(a, OnResponse(a, r, host, now), r, r.branch)
  {
    if r.verb.Some? && Key(r.branch, r.verb.value) in a.txs {
      var key := Key(r.branch, r.verb.value);
      if r.status < 200 {
        ProvisionalSilent(a, key, r.status, now);
      } else {
        FinishStarts(a, key, r, host, now);
      }
    }
  }

  /** An offer starts media, and this side's answer to it goes out if media did start. */
  ghost predicate StartsByOffer(a: Agent, b: Agent, offer: Audio) {
    && Onward(a, b)
    && forall k :: |a.media| <= k < |b.media| && b.media[k].Started? ==>
         b.media[k].origin.ByOffer? && b.media[k].origin.offer == offer && Sent(b.wire, b.media[k])
  }

  lemma TakeUpStarts(a: Agent, host: Host, now: int)
    requires a.call.Some? && !a.call.value.outgoing
    ensures StartsByOffer(a, TakeUp(a, host, now), a.call.value.offer)
  {
    var b, key := OpenFor(a, host), NewKey(a.cfg, host);
    if host.port == 0 || key.None? {
      RefuseSilent(b);
    } else {
      StartedStarts(a, StartFor(b, key.value, host), host, now);
    }
  }

  lemma RefuseSilent(a: Agent)
    requires a.call.Some?
    ensures Silent(a, RefuseAnswer(a))
  {
    var b := Say(a, Responded(AnswerReply(a.call.value, 500, None), Direct));
    SaidAndEndedSilent(a, b, MediaFailed, 500);
  }

  lemma StartedStarts(a: Agent, e: Agent, host: Host, now: int)
    requires a.call.Some? && !a.call.value.outgoing && e.call.Some? && !e.call.value.outgoing
    requires e.wire == a.wire && e.call.value.offer == a.call.value.offer && |e.media| == |a.media| + 2
    requires a.media <= e.media && !e.media[|a.media|].Started?
    requires var c := e.call.value;
             e.media[|a.media| + 1] == StartByOffer(e.cfg, c, c.offer, Some(SdpFor(e.cfg, c, Some(c.offer))),
                                                    host.startOk)
    ensures StartsByOffer(a, if host.startOk then SendAnswer(e, now) else RefuseAnswer(e), a.call.value.offer)
  {
    if host.startOk {
      var b, c := SendAnswer(e, now), e.call.value;
      var reply := AnswerReply(c, 200, Some(SdpFor(e.cfg, c, Some(c.offer))));
      assert b.wire == e.wire + [Responded(reply, Direct)] && b.media == e.media;
      assert b.wire[|e.wire|].reply == reply;
    } else {
      RefuseSilent(e);
    }
  }

  lemma ReInviteStarts(a: Agent, q: Query, host: Host)
    requires a.call.Some?
    ensures var b := ReInvite(a, q, host); if q.offer.Some? then StartsByOffer(a, b, q.offer.value) else Silent(a, b)
  {
    if !q.bodyEmpty && q.offer.Some? && Acceptable(a.cfg, q.offer.value) {
      var sdp := AgreedSdp(a.cfg, a.call.value, q.offer.value);
      var b, s := Follow(a, q.offer.value, sdp, host), ReInvite(a, q, host);
      if host.startOk {
        assert s.wire == a.wire + [Responded(Reply(200, q.callId, None, sdp, Some(a.call.value.id)), Direct)];
        assert s.wire[|a.wire|].reply.sdp == sdp;
      }
    }
  }

  /** What a request does: it starts media with its offer, or rings with it. */
  ghost predicate RequestOnward(a: Agent, b: Agent, q: Query) {
    && a.wire <= b.wire && a.media <= b.media
    && (SameOffer(a.call, b.call) || (q.verb == INVITE && b.call.Some? && q.offer == Some(b.call.value.offer)))
    && forall k :: |a.media| <= k < |b.media| && b.media[k].Started? ==>
         && q.verb == INVITE && b.media[k].origin.ByOffer? && q.offer == Some(b.media[k].origin.offer)
         && Sent(b.wire, b.media[k])
  }

  lemma InviteRequestOnward(a: Agent, q: Query, newId: int, host: Host)
    requires q.verb == INVITE
    ensures RequestOnward(a, OnInviteRequest(a, q, newId, host), q)
  {
    if a.call.Some? && a.call.value.sipCallId == q.callId
       && (a.call.value.outgoing || a.call.value.state == Confirmed) {
      ReInviteStarts(a, q, host);
      assert OnInviteRequest(a, q, newId, host) == ReInvite(a, q, host);
    }
  }

  lemma RequestGoesOnward(a: Agent, q: Query, newId: int, host: Host, now: int)
    ensures RequestOnward(a, OnRequest(a, q, newId, host, now), q)
  {
    var sameCall := a.call.Some? && a.call.value.sipCallId == q.callId;
    if q.verb == ACK {
    } else if q.complete && q.verb == INVITE {
      InviteRequestOnward(a, q, newId, host);
    } else if q.complete && q.verb == BYE && sameCall {
      SaidAndEndedSilent(a, Respond(a, q, 200, None), RemoteHangup, 0);
    } else if q.complete && q.verb == CANCEL && sameCall && !a.call.value.outgoing && a.call.value.state == Ringing {
      var b := Respond(a, q, 200, Some(a.call.value.localTag));
      SaidAndEndedSilent(a, Say(b, Responded(AnswerReply(a.call.value, 487, None), Direct)), RemoteCancelled, 487);
    } else {
      RequestPlain(a, q, newId, host, now);
      PlainIsSilent(a, OnRequest(a, q, newId, host, now));
    }
  }

  // ---- Every input ----

  /** Each start of this step is explained: its description was received, and this side's own was sent. */
  ghost predicate Explained(a: Agent, b: Agent, i: Input) {
    && a.wire <= b.wire && a.media <= b.media
    && (forall k :: |a.media| <= k < |b.media| && b.media[k].Started? ==>
        Brought(a, i, b.media[k]) && Sent(b.wire, b.media[k]))
    && (SameOffer(a.call, b.call)
        || (i.RequestIn? && i.query.verb == INVITE && b.call.Some? && i.query.offer == Some(b.call.value.offer)))
  }

  lemma ResponseExplained(a: Agent, i: Input)
    requires i.ResponseIn? && Linked(a) && Requested(a)
    ensures Explained(a, Step(a, i), i)
  {
    var b := Step(a, i);
    ResponseStarts(a, i.response, i.host, i.now);
    forall k | |a.media| <= k < |b.media| && b.media[k].Started? ensures Sent(b.wire, b.media[k]) {
      var c := a.call.value;
      assert InvitedBy(a.wire, |a.wire|, c.id, c.inviteBranch, c.inviteCseq);
      var j :| 0 <= j < |a.wire| && IsFirst(a.wire[j], c.id, INVITE) && a.wire[j].key == Key(c.inviteBranch, INVITE);
      assert b.wire[j] == a.wire[j];
    }
  }

  lemma SilentExplained(a: Agent, b: Agent, i: Input)
    requires Silent(a, b)
    ensures Explained(a, b, i)
  {
  }

  lemma PickExplained(a: Agent, i: Input)
    requires i.Pick?
    ensures Explained(a, Step(a, i), i)
  {
    if Answer(a, i.id, i.host, i.now).0 == Ok {
      TakeUpStarts(a, i.host, i.now);
    }
  }

  lemma QuietInput(a: Agent, i: Input)
    requires Linked(a) && Allowed(a, i) && !i.Pick? && !i.ResponseIn? && !i.RequestIn?
    ensures Silent(a, Step(a, i))
  {
    match i
    case Start(now) => RegistrationPlain(a, now); PlainIsSilent(a, StartRegistration(a, now));
    case Stop(now) => RegistrationPlain(a, now); PlainIsSilent(a, StopRegistration(a, now));
    case Up(now) => RetryPlain(a, now); PlainIsSilent(a, OnTransportUp(a, now));
    case Place(id, target, host, now) => DialSilent(a, id, target, host, now);
    case Refuse(id, status) => RejectSilent(a, id, status);
    case Drop(id, now) => HangupSilent(a, id, now);
    case Quit(now) => ShutdownSilent(a, now);
    case Tick(order, now) => TimerSilent(a, order, now);
    case Down(order, now) => DownSilent(a, order, now);
    case Collect =>
  }

  lemma StepExplained(a: Agent, i: Input)
    requires Inv(a) && Allowed(a, i)
    ensures Explained(a, Step(a, i), i)
  {
    match i
    case Pick(_, _, _) => PickExplained(a, i);
    case ResponseIn(_, _, _) => ResponseExplained(a, i);
    case RequestIn(q, newId, host, now) => RequestGoesOnward(a, q, newId, host, now);
    case _ => QuietInput(a, i); SilentExplained(a, Step(a, i), i);
  }

  // ---- Every run ----

  ghost predicate OfferReceived(inputs: seq<Input>, offer: Audio) {
    exists n :: && 0 <= n < |inputs| && inputs[n].RequestIn? && inputs[n].query.verb == INVITE
                && inputs[n].query.offer == Some(offer)
  }

  ghost predicate AnswerReceived(inputs: seq<Input>, answer: Audio, branch: Name) {
    exists n :: && 0 <= n < |inputs| && inputs[n].ResponseIn? && inputs[n].response.branch == branch
                && inputs[n].response.answer == Some(answer)
  }

  ghost predicate Received(inputs: seq<Input>, m: MediaAct)
    requires m.Started?
  {
    match m.origin
    case ByAnswer(answer, branch) => AnswerReceived(inputs, answer, branch)
    case ByOffer(offer, _) => OfferReceived(inputs, offer)
  }

  lemma ReceivedStays(inputs: seq<Input>, i: Input, offer: Audio, answer: Audio, branch: Name)
    ensures OfferReceived(inputs, offer) ==> OfferReceived(inputs + [i], offer)
    ensures AnswerReceived(inputs, answer, branch) ==> AnswerReceived(inputs + [i], answer, branch)
  {
    assert forall n :: 0 <= n < |inputs| ==> (inputs + [i])[n] == inputs[n];
  }

  lemma StartReceived(a: Agent, inputs: seq<Input>, i: Input, m: MediaAct)
    requires m.Started? && Brought(a, i, m)
    requires a.call.Some? && !a.call.value.outgoing ==> OfferReceived(inputs, a.call.value.offer)
    ensures Received(inputs + [i], m)
  {
    assert (inputs + [i])[|inputs|] == i;
    if m.origin.ByOffer? {
      ReceivedStays(inputs, i, m.origin.offer, m.origin.offer, 0);
    }
  }

  lemma EarlierReceived(inputs: seq<Input>, i: Input, m: MediaAct)
    requires m.Started? && Received(inputs, m)
    ensures Received(inputs + [i], m)
  {
    match m.origin
    case ByAnswer(answer, branch) => ReceivedStays(inputs, i, answer, answer, branch);
    case ByOffer(offer, _) => ReceivedStays(inputs, i, offer, offer, 0);
  }

  /** In every run the description behind each start was received, and this side's own was sent. */
  lemma {:induction false} RunExplained(cfg: Config, inputs: seq<Input>)
    requires AllowedRun(Init(cfg), inputs)
    ensures var b := Run(Init(cfg), inputs);
            && (forall k :: 0 <= k < |b.media| && b.media[k].Started? ==>
                Received(inputs, b.media[k]) && Sent(b.wire, b.media[k]))
            && (b.call.Some? && !b.call.value.outgoing ==> OfferReceived(inputs, b.call.value.offer))
    decreases |inputs|
  {
    if inputs != [] {
      var front, i := inputs[..|inputs| - 1], inputs[|inputs| - 1];
      assert inputs == front + [i];
      RunOneMore(Init(cfg), front, i);
      RunExplained(cfg, front);
      ReachableInv(cfg, front);
      var a := Run(Init(cfg), front);
      StepExplained(a, i);
      ExplainedRun(a, Step(a, i), front, i);
    }
  }

  lemma ExplainedRun(a: Agent, b: Agent, inputs: seq<Input>, i: Input)
    requires forall k :: 0 <= k < |a.media| && a.media[k].Started? ==>
             Received(inputs, a.media[k]) && Sent(a.wire, a.media[k])
    requires a.call.Some? && !a.call.value.outgoing ==> OfferReceived(inputs, a.call.value.offer)
    requires Explained(a, b, i)
    ensures forall k :: 0 <= k < |b.media| && b.media[k].Started? ==>
            Received(inputs + [i], b.media[k]) && Sent(b.wire, b.media[k])
    ensures b.call.Some? && !b.call.value.outgoing ==> OfferReceived(inputs + [i], b.call.value.offer)
  {
    forall k | 0 <= k < |b.media| && b.media[k].Started?
      ensures Received(inputs + [i], b.media[k]) && Sent(b.wire, b.media[k])
    {
      if k < |a.media| {
        assert a.media[k] == b.media[k];
        EarlierReceived(inputs, i, a.media[k]);
        SentStays(a.wire, b.wire, a.media[k]);
      } else {
        StartReceived(a, inputs, i, b.media[k]);
      }
    }
    if b.call.Some? && !b.call.value.outgoing {
      ReceivedStays(inputs, i, b.call.value.offer, b.call.value.offer, 0);
      assert (inputs + [i])[|inputs|] == i;
    }
  }

  // ---- The key under the tag ----

  /**
   * Whatever the state and the input, each start of media with SRTP, failed ones included, uses the key that the
   * received offer or answer holds under the tag this side's answer names or its offers carry.
   */
  lemma StepNegotiates(a: Agent, i: Input)
    requires Inv(a) && Allowed(a, i) && a.cfg.srtp
    ensures var b := Step(a, i);
            && a.media <= b.media
            && forall k :: |a.media| <= k < |b.media| && b.media[k].Started? ==>
                 && Brought(a, i, b.media[k]) && Sent(b.wire, b.media[k])
                 && b.media[k].remote.srtp.Some? && OriginOk(b.media[k].origin, b.media[k].remote.srtp.value)
  {
    var b := Step(a, i);
    StepExplained(a, i);
    StepInv(a, i);
    StepBorn(a, i);
    var keys :| Secured(b, keys);
    forall k | |a.media| <= k < |b.media| && b.media[k].Started?
      ensures b.media[k].remote.srtp.Some? && OriginOk(b.media[k].origin, b.media[k].remote.srtp.value)
    {
      assert ActOk(b.cfg, keys, b.media[k]);
    }
  }

  function Uniform(b: byte): SrtpKey { seq(KEY_LENGTH, i => b) }

  /** The far end's description with the given crypto lines. */
  function Offering(lines: seq<Crypto>): Audio { Audio("10.0.0.1", 4000, [8, 101], true, lines) }

  /** A description that the parser returns for some text. */
  ghost predicate Readable(media: Audio) {
    exists text :: Sdp.Parsed(text).Some? && Sdp.Parsed(text).value.audio == media
  }

  lemma OfferingReadable(lines: seq<Crypto>)
    requires Sdp.TagsFit(lines)
    ensures Readable(Offering(lines))
  {
    assert Sdp.GoodAddress("10.0.0.1");
    Sdp.ParseOfOffer("10.0.0.1", 4000, lines);
  }

  /** An answer with a line under the tag of offers, and another one. */
  function TwoLines(tag: nat): Audio { Offering([Crypto(OFFER_TAG, Uniform(1)), Crypto(tag, Uniform(2))]) }

  /** An answer with only a line under the tag of offers. */
  function OneLine(): Audio { Offering([Crypto(OFFER_TAG, Uniform(1))]) }

  lemma OneLineLacks(cfg: Config, c: Call, tag: nat)
    requires cfg.srtp && tag != OFFER_TAG
    ensures Readable(OneLine()) && UsableAnswer(cfg, Some(OneLine())) && !TakesKeyUnder(cfg, c, OneLine(), tag)
  {
    OfferingReadable([Crypto(OFFER_TAG, Uniform(1))]);
    assert OneLine().payloadTypes[0] == PCMA;
  }

  lemma TwoLinesDiffer(cfg: Config, c: Call, tag: nat)
    requires cfg.srtp && tag != OFFER_TAG
    ensures var answer := TwoLines(tag);
            && UsableAnswer(cfg, Some(answer)) && KeyUnder(answer, tag, Uniform(2))
            && !KeyUnder(answer, tag, Uniform(1))
            && RemoteMediaFor(cfg, c, answer, AnswerLine(cfg, answer)).srtp == Some(MediaKeys(c.srtpKey, Uniform(1)))
  {
    var answer := TwoLines(tag);
    assert answer.payloadTypes[0] == PCMA;
    assert answer.crypto[0].tag == OFFER_TAG && answer.crypto[1].tag == tag && answer.crypto[1].key == Uniform(2);
    assert Uniform(1)[0] != Uniform(2)[0];
    assert LineWithTag(answer.crypto, OFFER_TAG) == Some(answer.crypto[0]);
  }

  ghost predicate TakesKeyUnder(cfg: Config, c: Call, answer: Audio, tag: nat) {
    var srtp := RemoteMediaFor(cfg, c, answer, AnswerLine(cfg, answer)).srtp;
    srtp.Some? && KeyUnder(answer, tag, srtp.value.remote)
  }

  /** Every usable answer to an INVITE with the given tag is matched by that tag exactly if it is that of offers. */
  lemma AnswerMatchedExactly(cfg: Config, c: Call, tag: nat)
    requires cfg.srtp
    ensures (forall answer :: UsableAnswer(cfg, Some(answer)) ==> TakesKeyUnder(cfg, c, answer, tag)) <==>
            tag == OFFER_TAG
    ensures (forall answer :: Readable(answer) && UsableAnswer(cfg, Some(answer)) ==>
                                TakesKeyUnder(cfg, c, answer, tag)) <==>
            tag == OFFER_TAG
  {
    if tag == OFFER_TAG {
      forall answer | UsableAnswer(cfg, Some(answer)) ensures TakesKeyUnder(cfg, c, answer, tag) {
        TaggedKey(answer, OFFER_TAG);
      }
    } else {
      OneLineLacks(cfg, c, tag);
    }
  }

  // ---- A run in which the tag changes under an INVITE ----

  function Willing(): Host { Host(4002, Some(Uniform(0)), 1, true) }

  /** The far end's own INVITE for the dialog, while this side is still dialling. */
  function Crossing(tag: nat): Query {
    Query(INVITE, true, Own(1), "<sip:x@example.org>;tag=far", "sip:x@example.org", "<sip:me@example.org>", None, false,
          Some(Offering([Crypto(tag, Uniform(2))])))
  }

  function Challenge(): Response {
    Response(401, 3, Some(INVITE), Own(1), "<sip:x@example.org>;tag=far", None, Some(CREDENTIALS), None, None)
  }

  function Acceptance(tag: nat): Response {
    Response(200, 4, Some(INVITE), Own(1), "<sip:x@example.org>;tag=far", None, None, None, Some(TwoLines(tag)))
  }

  function DescriptionIn(i: Input): Option<Audio> {
    match i
    case RequestIn(q, _, _, _) => q.offer
    case ResponseIn(r, _, _) => r.answer
    case _ => None
  }

  /** Every session description among the inputs is one the parser returns. */
  ghost predicate AllReadable(inputs: seq<Input>) {
    forall n :: 0 <= n < |inputs| && DescriptionIn(inputs[n]).Some? ==> Readable(DescriptionIn(inputs[n]).value)
  }

  /** Dial, follow the far end's INVITE, authenticate, be answered. */
  function Renaming(tag: nat): seq<Input> {
    [Place(1, "x", Willing(), 0), RequestIn(Crossing(tag), 2, Willing(), 0), ResponseIn(Challenge(), Willing(), 0),
     ResponseIn(Acceptance(tag), Willing(), 0)]
  }

  /** Both descriptions of the run are ones that arrive, for every tag a crypto line may have. */
  lemma RenamingReadable(tag: nat)
    requires tag <= Sdp.MAX_TAG
    ensures AllReadable(Renaming(tag))
  {
    OfferingReadable([Crypto(tag, Uniform(2))]);
    OfferingReadable([Crypto(OFFER_TAG, Uniform(1)), Crypto(tag, Uniform(2))]);
  }

  ghost predicate Dialling(a: Agent, branch: Name, tag: nat) {
    && a.cfg.srtp && a.names == branch + 1 && a.born == [Born(1, true)] && a.call.Some?
    && var c, key := a.call.value, Key(branch, INVITE);
    && c.id == 1 && c.outgoing && c.state == Calling && c.sipCallId == Own(1) && c.inviteBranch == branch
    && !c.cancelRequested && (c.authenticated <==> branch != 3) && SdpTag(c.localSdp) == Some(tag)
    && key in a.txs && a.txs[key].handler.InviteFinal?
    && a.txs[key].handler.context.callId == 1 && a.txs[key].handler.context.branch == branch
  }

  lemma Dials(cfg: Config) returns (inputs: seq<Input>, b: Agent)
    requires cfg.srtp
    ensures inputs == [Place(1, "x", Willing(), 0)] && Reaches(Init(cfg), inputs, b) && Dialling(b, 3, OFFER_TAG)
  {
    var i := Place(1, "x", Willing(), 0);
    assert GoodTarget("x");
    inputs := Onwards(Init(cfg), [], Init(cfg), i);
    b := Step(Init(cfg), i);
  }

  lemma FollowsCrossing(z: Agent, inputs: seq<Input>, a: Agent, tag: nat) returns (inputs': seq<Input>, b: Agent)
    requires Reaches(z, inputs, a) && Dialling(a, 3, OFFER_TAG)
    ensures inputs' == inputs + [RequestIn(Crossing(tag), 2, Willing(), 0)] && Reaches(z, inputs', b)
    ensures Dialling(b, 3, tag)
  {
    var q := Crossing(tag);
    assert q.offer.value.payloadTypes[0] == PCMA;
    inputs' := Onwards(z, inputs, a, RequestIn(q, 2, Willing(), 0));
    b := Step(a, RequestIn(q, 2, Willing(), 0));
    assert b == ReInvite(a, q, Willing());
  }

  /** The INVITE on the given branch is the last message sent, and names the tag. */
  ghost predicate InvitedUnder(wire: seq<Wire>, branch: Name, tag: nat) {
    && wire != []
    && var w := wire[|wire| - 1];
    && IsFirst(w, 1, INVITE) && w.key == Key(branch, INVITE) && SdpTag(w.request.body) == Some(tag)
  }

  lemma Authenticates(z: Agent, inputs: seq<Input>, a: Agent, tag: nat) returns (inputs': seq<Input>, b: Agent)
    requires Reaches(z, inputs, a) && Dialling(a, 3, tag)
    ensures inputs' == inputs + [ResponseIn(Challenge(), Willing(), 0)] && Reaches(z, inputs', b)
    ensures Dialling(b, 4, tag) && InvitedUnder(b.wire, 4, tag)
  {
    var key := Key(3, INVITE);
    var d := AckFailure(a.(txs := a.txs - {key}), a.txs[key].handler.context, Some(Challenge()));
    inputs' := Onwards(z, inputs, a, ResponseIn(Challenge(), Willing(), 0));
    b := Step(a, ResponseIn(Challenge(), Willing(), 0));
    assert b == OnInviteFailure(d, Some(Challenge()), 0);
  }

  /** The INVITE answered names `tag`, and media was started with a key that the answer does not hold under it. */
  ghost predicate Mismatched(e: Agent, tag: nat) {
    && e.media != []
    && var m := e.media[|e.media| - 1];
    && m.Started? && m.ok && m.owner == 1 && m.origin == ByAnswer(TwoLines(tag), 4)
    && m.remote.srtp.Some? && !KeyUnder(TwoLines(tag), tag, m.remote.srtp.value.remote)
    && exists j :: && 0 <= j < |e.wire| && IsFirst(e.wire[j], 1, INVITE) && e.wire[j].key == Key(4, INVITE)
                   && SdpTag(e.wire[j].request.body) == Some(tag)
  }

  lemma IsAnswered(z: Agent, inputs: seq<Input>, a: Agent, tag: nat) returns (inputs': seq<Input>, b: Agent)
    requires Reaches(z, inputs, a) && Dialling(a, 4, tag) && InvitedUnder(a.wire, 4, tag) && tag != OFFER_TAG
    ensures inputs' == inputs + [ResponseIn(Acceptance(tag), Willing(), 0)] && Reaches(z, inputs', b)
    ensures Mismatched(b, tag)
  {
    var key, r := Key(4, INVITE), Acceptance(tag);
    var d := a.(txs := a.txs - {key});
    var e := Confirming(d, a.txs[key].handler.context, r, Willing(), 0);
    inputs' := Onwards(z, inputs, a, ResponseIn(r, Willing(), 0));
    b := Step(a, ResponseIn(r, Willing(), 0));
    assert b == Establish(e, r, Willing(), 0);
    TwoLinesDiffer(a.cfg, e.call.value, tag);
    assert b.wire[|a.wire| - 1] == a.wire[|a.wire| - 1];
  }

  /**
   * The claim that the key is always under the tag of the INVITE answered is false: dial, follow the far end's own
   * INVITE for the dialog, authenticate, and be answered.
   */
  lemma TagCanChange(cfg: Config, tag: nat) returns (inputs: seq<Input>)
    requires cfg.srtp && tag != OFFER_TAG
    ensures inputs == Renaming(tag) && AllowedRun(Init(cfg), inputs) && Mismatched(Run(Init(cfg), inputs), tag)
    ensures tag <= Sdp.MAX_TAG ==> AllReadable(inputs)
  {
    var z := Init(cfg);
    var a, b, d, e;
    inputs, a := Dials(cfg);
    inputs, b := FollowsCrossing(z, inputs, a, tag);
    inputs, d := Authenticates(z, inputs, b, tag);
    inputs, e := IsAnswered(z, inputs, d, tag);
    if tag <= Sdp.MAX_TAG {
      RenamingReadable(tag);
    }
  }
}
