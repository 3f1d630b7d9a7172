/** What the event stream tells about calls, over whole runs. */
module AgentStory {
  import opened Prelude
  import opened AgentTypes
  import opened AgentSpec

  /** How far the latest call's events have got; `Over` when there is no call. */
  datatype Stage = Over | Dialing | Offered | Talking

  function StageOf(call: Option<Call>): Stage {
    if call.None? then Over
    else if call.value.state == Confirmed then Talking
    else if call.value.outgoing then Dialing
    else Offered
  }

  /** The events of a call before it is answered or ended: Progress* going out, one Incoming coming in. */
  ghost predicate Opens(outgoing: bool, es: seq<Event>) {
    if outgoing then forall i :: 0 <= i < |es| ==> es[i].kind == Progress
    else |es| == 1 && es[0].kind == Incoming
  }

  ghost predicate OpensThen(outgoing: bool, es: seq<Event>, kind: EventKind) {
    |es| > 0 && es[|es| - 1].kind == kind && Opens(outgoing, es[..|es| - 1])
  }

  /** The events of one call spell `[Incoming] Progress* [Answered] Ended`, up to the given stage. */
  ghost predicate Spells(outgoing: bool, es: seq<Event>, stage: Stage) {
    match stage
    case Dialing => outgoing && Opens(outgoing, es)
    case Offered => !outgoing && Opens(outgoing, es)
    case Talking => OpensThen(outgoing, es, Answered)
    case Over =>
      |es| > 0 && es[|es| - 1].kind == Ended &&
      (Opens(outgoing, es[..|es| - 1]) || OpensThen(outgoing, es[..|es| - 1], Answered))
  }

  ghost predicate Chapter(b: Born, es: seq<Event>, stage: Stage) {
    && (forall i :: 0 <= i < |es| ==> es[i].callId == b.id)
    && Spells(b.outgoing, es, stage)
  }

  /**
   * The call events are one chapter per call created, in the order of creation and one after the other; every chapter
   * but the last has ended, and the last has come as far as `stage`.
   */
  ghost predicate Story(born: seq<Born>, es: seq<Event>, stage: Stage)
    decreases |born|
  {
    if born == [] then es == [] && stage == Over
    else exists k ::
      && 0 <= k <= |es|
      && Story(born[..|born| - 1], es[..k], Over)
      && Chapter(born[|born| - 1], es[k..], stage)
  }

  function CallEvents(log: seq<Event>): seq<Event> {
    if log == [] then []
    else
      var last := log[|log| - 1];
      CallEvents(log[..|log| - 1]) + (if last.kind == Registered then [] else [last])
  }

  lemma CallEventsAppend(log: seq<Event>, e: Event)
    ensures CallEvents(log + [e]) == CallEvents(log) + (if e.kind == Registered then [] else [e])
  {
    assert (log + [e])[..|log|] == log;
  }

  /** Which event may follow at a stage, and where it leads. */
  predicate Follows(stage: Stage, kind: EventKind, next: Stage) {
    match kind
    case Progress => stage == Dialing && next == Dialing
    case Answered => (stage == Dialing || stage == Offered) && next == Talking
    case Ended => stage != Over && next == Over
    case _ => false
  }

  lemma ChapterGoesOn(b: Born, es: seq<Event>, stage: Stage, e: Event, next: Stage)
    requires Chapter(b, es, stage) && e.callId == b.id && Follows(stage, e.kind, next)
    ensures Chapter(b, es + [e], next)
  {
    assert (es + [e])[..|es|] == es;
  }

  lemma StoryGoesOn(born: seq<Born>, es: seq<Event>, stage: Stage, e: Event, next: Stage)
    requires born != [] && Story(born, es, stage)
    requires e.callId == born[|born| - 1].id && Follows(stage, e.kind, next)
    ensures Story(born, es + [e], next)
  {
    var k :| 0 <= k <= |es| && Story(born[..|born| - 1], es[..k], Over) && Chapter(born[|born| - 1], es[k..], stage);
    ChapterGoesOn(born[|born| - 1], es[k..], stage, e, next);
    assert (es + [e])[..k] == es[..k] && (es + [e])[k..] == es[k..] + [e];
  }

  lemma StoryOpens(born: seq<Born>, es: seq<Event>, b: Born, first: seq<Event>, next: Stage)
    requires Story(born, es, Over) && Chapter(b, first, next)
    ensures Story(born + [b], es + first, next)
  {
    var born', es' := born + [b], es + first;
    assert born'[..|born|] == born && es'[..|es|] == es && es'[|es|..] == first;
  }

  // ---- The invariant ----

  ghost predicate Sane(c: Call) {
    if c.outgoing then c.state == Calling || c.state == Confirmed else c.state != Calling
  }

  ghost predicate Told(a: Agent) {
    && Story(a.born, CallEvents(a.log), StageOf(a.call))
    && (a.call.Some? ==> Sane(a.call.value) && |a.born| > 0
                         && a.born[|a.born| - 1] == Born(a.call.value.id, a.call.value.outgoing))
  }

  /** A step that says nothing about calls and leaves the call's stage alone. */
  ghost predicate Quiet(a: Agent, b: Agent) {
    && b.born == a.born && CallEvents(b.log) == CallEvents(a.log)
    && (a.call.None? <==> b.call.None?)
    && StageOf(a.call) == StageOf(b.call)
    && (a.call.Some? ==> b.call.value.id == a.call.value.id && b.call.value.outgoing == a.call.value.outgoing
                         && (Sane(a.call.value) ==> Sane(b.call.value)))
  }

  lemma QuietKeepsTold(a: Agent, b: Agent)
    requires Told(a) && Quiet(a, b)
    ensures Told(b)
  {
  }

  /** A step that adds one event of the current call. */
  ghost predicate Reports(a: Agent, b: Agent, e: Event) {
    && a.call.Some? && e.callId == a.call.value.id && Follows(StageOf(a.call), e.kind, StageOf(b.call))
    && b.born == a.born && b.log == a.log + [e]
    && (b.call.Some? ==> Sane(b.call.value) && b.call.value.id == a.call.value.id
                         && b.call.value.outgoing == a.call.value.outgoing)
  }

  lemma ReportKeepsTold(a: Agent, b: Agent, e: Event)
    requires Told(a) && Reports(a, b, e)
    ensures Told(b)
  {
    CallEventsAppend(a.log, e);
    StoryGoesOn(a.born, CallEvents(a.log), StageOf(a.call), e, StageOf(b.call));
  }

  /** Ending the call of a state whose events are still those of `a`. */
  lemma EndTold(a: Agent, b: Agent, reason: EndReason, status: int)
    requires Told(a) && a.call.Some? && b.call.Some? && b.call.value.id == a.call.value.id
    requires b.born == a.born && b.log == a.log
    ensures Told(EndCall(b, reason, status))
  {
    ReportKeepsTold(a, EndCall(b, reason, status), Event(Ended, a.call.value.id, status, reason));
  }

  // ---- Registration ----

  lemma RegisterFinalQuiet(a: Agent, response: Option<Response>, expires: nat, authenticated: bool, now: int)
    ensures Quiet(a, OnRegisterFinal(a, response, expires, authenticated, now))
  {
    var status := if response.Some? then response.value.status else 408;
    CallEventsAppend(a.log, Event(Registered, 0, status, NoReason));
  }

  lemma RegistrationQuiet(a: Agent, now: int)
    ensures Quiet(a, StartRegistration(a, now)) && Quiet(a, StopRegistration(a, now)) && Quiet(a, OnTransportUp(a, now))
    ensures Quiet(a, TimeRegistration(a, now))
  {
    RetryQuiet(a, now);
  }

  lemma RetryQuiet(a: Agent, now: int)
    ensures Quiet(a, OnTransportUp(a, now)) && Quiet(a, TimeRegistration(a, now))
  {
  }

  // ---- Outgoing calls ----

  lemma PlaceTold(a: Agent, id: int, target: string, host: Host, now: int)
    requires Told(a)
    ensures Told(PlaceCall(a, id, target, host, now).1)
  {
    if GoodTarget(target) && a.call.None? && !a.shutting {
      DialTold(a, id, target, host, now);
    }
  }

  lemma BeginTold(a: Agent, id: int, target: string, host: Host)
    requires Told(a) && a.call.None?
    ensures Told(Begin(a, id, target, host))
  {
    var es := CallEvents(a.log);
    StoryOpens(a.born, es, Born(id, true), [], Dialing);
    assert es + [] == es;
  }

  lemma DialTold(a: Agent, id: int, target: string, host: Host, now: int)
    requires Told(a) && a.call.None?
    ensures Told(Dial(a, id, target, host, now))
  {
    var b := Begin(a, id, target, host);
    BeginTold(a, id, target, host);
    if host.port == 0 || NewKey(a.cfg, host).None? {
      EndTold(b, b, MediaFailed, 0);
    } else {
      QuietKeepsTold(b, Dial(a, id, target, host, now));
    }
  }

  lemma EstablishTold(a: Agent, b: Agent, r: Response, host: Host, now: int)
    requires Told(a) && a.call.Some? && a.call.value.outgoing && a.call.value.state == Calling
    requires b.call.Some? && b.call.value.id == a.call.value.id && b.call.value.outgoing
             && b.call.value.state == Confirmed
    requires b.born == a.born && b.log == a.log
    ensures Told(Establish(b, r, host, now))
  {
    var c := b.call.value;
    if c.cancelRequested || !UsableAnswer(b.cfg, r.answer) {
      EndTold(a, SendBye(b, now), if c.cancelRequested then OwnReason(b) else MediaFailed,
              if c.cancelRequested then 0 else 488);
    } else {
      EstablishedTold(a, b, r, host, now);
    }
  }

  lemma EstablishedTold(a: Agent, b: Agent, r: Response, host: Host, now: int)
    requires Told(a) && a.call.Some? && a.call.value.outgoing && a.call.value.state == Calling
    requires b.call.Some? && b.call.value.id == a.call.value.id && b.call.value.outgoing
             && b.call.value.state == Confirmed
    requires b.born == a.born && b.log == a.log && !b.call.value.cancelRequested && UsableAnswer(b.cfg, r.answer)
    ensures Told(Establish(b, r, host, now))
  {
    var c := b.call.value;
    if !host.startOk {
      var d := Do(b, StartByAnswer(b.cfg, c, r.answer.value, host.startOk));
      EndTold(a, SendBye(d, now), MediaFailed, 488);
    } else {
      ReportKeepsTold(a, Establish(b, r, host, now), Event(Answered, c.id, r.status, NoReason));
    }
  }

  lemma InviteFailureTold(a: Agent, response: Option<Response>, now: int)
    requires Told(a) && a.call.Some?
    ensures Told(OnInviteFailure(a, response, now))
  {
    var c, b := a.call.value, OnInviteFailure(a, response, now);
    if response.None? {
      EndTold(a, a, Timeout, 408);
    } else if IsChallenge(response.value.status) && !c.authenticated && !c.cancelRequested
              && response.value.authorization.Some? {
      QuietKeepsTold(a, b);
    } else {
      EndTold(a, a, if c.cancelRequested then OwnReason(a) else Rejected, response.value.status);
    }
  }

  lemma NotOursQuiet(a: Agent, context: InviteContext, response: Option<Response>, host: Host, now: int)
    requires !Ours(a, context)
    ensures Quiet(a, OnInviteFinal(a, context, response, host, now))
  {
  }

  /** Needs to know that the call of a live INVITE is still dialling. */
  lemma InviteFinalTold(a: Agent, context: InviteContext, response: Option<Response>, host: Host, now: int)
    requires Told(a)
    requires Ours(a, context) ==> a.call.value.outgoing && a.call.value.state == Calling
    ensures Told(OnInviteFinal(a, context, response, host, now))
  {
    if !Ours(a, context) {
      NotOursQuiet(a, context, response, host, now);
      QuietKeepsTold(a, OnInviteFinal(a, context, response, host, now));
    } else if response.Some? && response.value.status < 300 {
      InviteSuccessTold(a, context, response.value, host, now);
    } else {
      InviteFailureTold(AckFailure(a, context, response), response, now);
    }
  }

  lemma InviteSuccessTold(a: Agent, context: InviteContext, r: Response, host: Host, now: int)
    requires Told(a) && Ours(a, context) && a.call.value.outgoing && a.call.value.state == Calling
    ensures Told(OnInviteSuccess(a, context, r, host, now))
  {
    var ack := AckFor(context, r, a.names);
    var b := SetCall(Say(a.(names := a.names + 1), Acked(ack, context.callId)), Confirm(a.call.value, context, r, ack));
    assert OnInviteSuccess(a, context, r, host, now) == Establish(b, r, host, now);
    EstablishTold(a, b, r, host, now);
  }

  lemma FinalTold(a: Agent, handler: Handler, response: Option<Response>, host: Host, now: int)
    requires Told(a)
    requires handler.InviteFinal? && Ours(a, handler.context) ==> a.call.value.outgoing && a.call.value.state == Calling
    ensures Told(HandleFinal(a, handler, response, host, now))
  {
    match handler
    case RegisterFinal(expires, authenticated) =>
      RegisterFinalQuiet(a, response, expires, authenticated, now);
      QuietKeepsTold(a, HandleFinal(a, handler, response, host, now));
    case InviteFinal(context) => InviteFinalTold(a, context, response, host, now);
    case Ignore =>
  }

  lemma ProvisionalTold(a: Agent, key: Key, status: int, now: int)
    requires Told(a) && key in a.txs
    ensures Told(OnProvisional(a, key, status, now))
  {
    var b := Say(a, Heard(key)).(txs := a.txs[key := Soothe(a.txs[key], now)]);
    QuietKeepsTold(a, b);
    if a.txs[key].handler.InviteFinal? {
      InviteProvisionalTold(b, a.txs[key].handler.context.callId, status, now);
    }
  }

  lemma InviteProvisionalEffect(a: Agent, callId: int, status: int, now: int)
    requires a.call.Some? ==> Sane(a.call.value)
    ensures var s := OnInviteProvisional(a, callId, status, now);
            Quiet(a, s) || Reports(a, s, Event(Progress, callId, status, NoReason))
  {
  }

  lemma InviteProvisionalTold(a: Agent, callId: int, status: int, now: int)
    requires Told(a)
    ensures Told(OnInviteProvisional(a, callId, status, now))
  {
    var s := OnInviteProvisional(a, callId, status, now);
    InviteProvisionalEffect(a, callId, status, now);
    if Quiet(a, s) {
      QuietKeepsTold(a, s);
    } else {
      ReportKeepsTold(a, s, Event(Progress, callId, status, NoReason));
    }
  }

  // ---- Incoming calls and commands ----

  lemma InviteRequestQuiet(a: Agent, q: Query, newId: int, host: Host)
    requires !OpensCall(a, q)
    ensures Quiet(a, OnInviteRequest(a, q, newId, host))
  {
  }

  lemma InviteRequestTold(a: Agent, q: Query, newId: int, host: Host)
    requires Told(a)
    ensures Told(OnInviteRequest(a, q, newId, host))
  {
    if OpensCall(a, q) {
      var e := Event(Incoming, newId, 0, NoReason);
      StoryOpens(a.born, CallEvents(a.log), Born(newId, false), [e], Offered);
      CallEventsAppend(a.log, e);
    } else {
      InviteRequestQuiet(a, q, newId, host);
      QuietKeepsTold(a, OnInviteRequest(a, q, newId, host));
    }
  }

  lemma AnswerTold(a: Agent, id: int, host: Host, now: int)
    requires Told(a)
    ensures Told(Answer(a, id, host, now).1)
  {
    if a.call.Some? && a.call.value.id == id && !a.call.value.outgoing && a.call.value.state == Ringing {
      TakeUpTold(a, host, now);
    }
  }

  lemma RefuseTold(a: Agent, b: Agent)
    requires Told(a) && a.call.Some? && b.call.Some? && b.call.value.id == a.call.value.id
    requires b.born == a.born && b.log == a.log
    ensures Told(RefuseAnswer(b))
  {
    EndTold(a, Say(b, Responded(AnswerReply(b.call.value, 500, None), Direct)), MediaFailed, 500);
  }

  lemma TakeUpTold(a: Agent, host: Host, now: int)
    requires Told(a) && a.call.Some? && !a.call.value.outgoing && a.call.value.state == Ringing
    ensures Told(TakeUp(a, host, now))
  {
    var b, key := OpenFor(a, host), NewKey(a.cfg, host);
    if host.port == 0 || key.None? {
      RefuseTold(a, b);
    } else if !host.startOk {
      RefuseTold(a, StartFor(b, key.value, host));
    } else {
      QuietKeepsTold(a, SendAnswer(StartFor(b, key.value, host), now));
    }
  }

  lemma RejectTold(a: Agent, id: int, status: int)
    requires Told(a)
    ensures Told(Reject(a, id, status).1)
  {
    var s := Reject(a, id, status).1;
    if a.call.Some? && s.call.None? {
      ReportKeepsTold(a, s, Event(Ended, id, status, LocalEnd));
    }
  }

  lemma HangupTold(a: Agent, id: int, now: int)
    requires Told(a)
    ensures Told(Hangup(a, id, now).1)
  {
    var s := Hangup(a, id, now).1;
    if a.call.Some? && a.call.value.id == id {
      match a.call.value.state
      case Calling =>
        if a.shutting {
          EndTold(a, HangupCalling(a, now), Shutdown, 0);
        } else {
          QuietKeepsTold(a, s);
        }
      case Ringing => EndTold(a, Say(a, Responded(AnswerReply(a.call.value, 603, None), Direct)), OwnReason(a), 603);
      case Answering => EndTold(a, SendBye(a, now), OwnReason(a), 0);
      case Confirmed => EndTold(a, SendBye(a, now), OwnReason(a), 0);
    }
  }

  lemma ShutdownTold(a: Agent, now: int)
    requires Told(a)
    ensures Told(BeginShutdown(a, now))
  {
    var b := a.(shutting := true);
    var d := if a.call.Some? then Hangup(b, a.call.value.id, now).1 else b;
    if a.call.Some? {
      HangupTold(b, a.call.value.id, now);
    }
    RegistrationQuiet(d, now);
    QuietKeepsTold(d, StopRegistration(d, now));
  }

  /** What a request other than INVITE reports about the call. */
  lemma AckEffect(a: Agent, q: Query)
    ensures var s := OnAck(a, q);
            Quiet(a, s) || (a.call.Some? && Reports(a, s, Event(Answered, a.call.value.id, 200, NoReason)))
  {
  }

  lemma CancelEffect(a: Agent, q: Query, newId: int, host: Host, now: int)
    requires q.verb == CANCEL
    ensures var s := OnRequest(a, q, newId, host, now);
            || Quiet(a, s)
            || (a.call.Some? && Reports(a, s, Event(Ended, a.call.value.id, 487, RemoteCancelled)))
  {
  }

  lemma RequestEffect(a: Agent, q: Query, newId: int, host: Host, now: int)
    requires q.verb != INVITE
    ensures var s := OnRequest(a, q, newId, host, now);
            || Quiet(a, s)
            || (a.call.Some? && Reports(a, s, Event(Answered, a.call.value.id, 200, NoReason)))
            || (a.call.Some? && Reports(a, s, Event(Ended, a.call.value.id, 0, RemoteHangup)))
            || (a.call.Some? && Reports(a, s, Event(Ended, a.call.value.id, 487, RemoteCancelled)))
  {
    if q.verb == ACK {
      AckEffect(a, q);
    } else if q.verb == CANCEL {
      CancelEffect(a, q, newId, host, now);
    }
  }

  lemma RequestTold(a: Agent, q: Query, newId: int, host: Host, now: int)
    requires Told(a)
    ensures Told(OnRequest(a, q, newId, host, now))
  {
    var s := OnRequest(a, q, newId, host, now);
    if q.verb == INVITE {
      if q.complete {
        InviteRequestTold(a, q, newId, host);
      } else {
        QuietKeepsTold(a, s);
      }
    } else {
      RequestEffect(a, q, newId, host, now);
      if Quiet(a, s) {
        QuietKeepsTold(a, s);
      } else {
        ReportKeepsTold(a, s, s.log[|a.log|]);
      }
    }
  }

  lemma TimeAnswerTold(a: Agent, now: int)
    requires Told(a)
    ensures Told(TimeAnswer(a, now))
  {
    var s := TimeAnswer(a, now);
    if a.call.Some? && a.call.value.state == Answering && now >= a.call.value.ackDeadline {
      EndTold(a, SendBye(a, now), Timeout, 408);
    } else {
      QuietKeepsTold(a, s);
    }
  }

  lemma {:induction false} RetransmitQuiet(a: Agent, order: seq<Key>, now: int)
    ensures Quiet(a, RetransmitAll(a, order, now))
    decreases |order|
  {
    if order != [] {
      RetransmitQuiet(if order[0] in a.txs then Retransmit(a, order[0], now) else a, order[1..], now);
    }
  }
}
