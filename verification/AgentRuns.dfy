/** What every input keeps, and so what holds after every run. */
module AgentRuns {
  import opened Prelude
  import opened AgentTypes
  import opened AgentSpec
  import opened AgentStory
  import opened AgentLinks
  import opened AgentTimers
  import opened AgentAnswers
  import opened AgentMedia
  import opened AgentRequests
  import opened AgentTransport
  import opened AgentQuiescence

  /** After shutdown there is no call and no registration, wanted or in place. */
  ghost predicate ShutDown(a: Agent) {
    a.shutting ==> Quitting(a)
  }

  /** No two calls share an identifier. */
  ghost predicate Distinct(born: seq<Born>) {
    forall i, j :: 0 <= i < j < |born| ==> born[i].id != born[j].id
  }

  ghost predicate Inv(a: Agent) {
    && Told(a) && Linked(a) && Timed(a) && Answers(a) && Requested(a) && RegisterLive(a) && ShutDown(a)
    && Distinct(a.born)
    && exists keys :: Secured(a, keys)
  }

  lemma InitInv(cfg: Config)
    ensures Inv(Init(cfg))
  {
    assert Secured(Init(cfg), map[]);
  }

  lemma UsedIsIn(a: Agent, id: int)
    ensures Used(a, id) <==> IdIn(a.born, id)
  {
  }

  // ---- Events ----

  lemma FinishTold(a: Agent, key: Key, response: Option<Response>, host: Host, now: int)
    requires Told(a) && Linked(a) && key in a.txs
    ensures Told(Finish(a, key, response, host, now))
  {
    var b := a.(txs := a.txs - {key});
    QuietKeepsTold(a, b);
    if a.txs[key].handler.InviteFinal? {
      OursIsDialling(a, key);
    }
    FinalTold(b, a.txs[key].handler, response, host, now);
  }

  lemma {:induction false} FailAllTold(a: Agent, keys: seq<Key>, now: int)
    requires Told(a) && Linked(a)
    ensures Told(FailAll(a, keys, now))
    decreases |keys|
  {
    if keys != [] {
      if keys[0] in a.txs {
        FinishTold(a, keys[0], None, NO_HOST, now);
        FinishLinked(a, keys[0], None, NO_HOST, now);
      }
      FailAllTold(if keys[0] in a.txs then Finish(a, keys[0], None, NO_HOST, now) else a, keys[1..], now);
    }
  }

  lemma ResponseTold(a: Agent, r: Response, host: Host, now: int)
    requires Told(a) && Linked(a)
    ensures Told(OnResponse(a, r, host, now))
  {
    if r.verb.Some? && Key(r.branch, r.verb.value) in a.txs {
      var key := Key(r.branch, r.verb.value);
      if r.status < 200 {
        ProvisionalTold(a, key, r.status, now);
      } else {
        FinishTold(a, key, Some(r), host, now);
      }
    } else {
      QuietKeepsTold(a, OnResponse(a, r, host, now));
    }
  }

  lemma TimerTold(a: Agent, order: seq<Key>, now: int)
    requires Told(a) && Linked(a)
    ensures Told(OnTimer(a, order, now))
  {
    var b := RetransmitAll(a, order, now);
    var d := FailAll(b, Expired(a, order, now), now);
    RetransmitQuiet(a, order, now);
    QuietKeepsTold(a, b);
    RetransmitAllLinked(a, order, now);
    FailAllTold(b, Expired(a, order, now), now);
    TimeAnswerTold(d, now);
    RegistrationQuiet(TimeAnswer(d, now), now);
    QuietKeepsTold(TimeAnswer(d, now), OnTimer(a, order, now));
  }

  lemma DownTold(a: Agent, order: seq<Key>, now: int)
    requires Told(a) && Linked(a) && IsOrder(order, a.txs.Keys)
    ensures Told(OnTransportDown(a, order, now))
  {
    DownIsFailAll(a, order, now);
    FailAllTold(a, order, now);
    var b := FailAll(a, order, now);
    CallEventsAppend(b.log, Event(Registered, 0, 503, NoReason));
    QuietKeepsTold(b, LoseRegistration(b));
  }

  lemma StepTold(a: Agent, i: Input)
    requires Told(a) && Linked(a) && Allowed(a, i)
    ensures Told(Step(a, i))
  {
    match i
    case Start(now) => RegistrationQuiet(a, now); QuietKeepsTold(a, StartRegistration(a, now));
    case Stop(now) => RegistrationQuiet(a, now); QuietKeepsTold(a, StopRegistration(a, now));
    case Up(now) => RegistrationQuiet(a, now); QuietKeepsTold(a, OnTransportUp(a, now));
    case Place(id, target, host, now) => PlaceTold(a, id, target, host, now);
    case Pick(id, host, now) => AnswerTold(a, id, host, now);
    case Refuse(id, status) => RejectTold(a, id, status);
    case Drop(id, now) => HangupTold(a, id, now);
    case Quit(now) => ShutdownTold(a, now);
    case ResponseIn(r, host, now) => ResponseTold(a, r, host, now);
    case RequestIn(q, newId, host, now) => RequestTold(a, q, newId, host, now);
    case Tick(order, now) => TimerTold(a, order, now);
    case Down(order, now) => DownTold(a, order, now);
    case Collect => QuietKeepsTold(a, a.(queue := []));
  }

  // ---- Links ----

  lemma DownLinked(a: Agent, order: seq<Key>, now: int)
    requires Linked(a) && IsOrder(order, a.txs.Keys)
    ensures Linked(OnTransportDown(a, order, now))
  {
    DownIsFailAll(a, order, now);
    FailAllLinked(a, order, now);
    SameLinksKeep(FailAll(a, order, now), LoseRegistration(FailAll(a, order, now)));
  }

  lemma AnswerLinked(a: Agent, id: int, host: Host, now: int)
    requires Linked(a)
    ensures Linked(Answer(a, id, host, now).1)
  {
    if Answer(a, id, host, now).0 == Ok {
      TakeUpLinked(a, host, now);
    }
  }

  lemma RejectLinked(a: Agent, id: int, status: int)
    requires Linked(a)
    ensures Linked(Reject(a, id, status).1)
  {
    SameLinksKeep(a, Reject(a, id, status).1);
  }

  lemma StepLinked(a: Agent, i: Input)
    requires Told(a) && Linked(a) && Allowed(a, i)
    ensures Linked(Step(a, i))
  {
    match i
    case Start(now) => StartRegistrationLinked(a, now);
    case Stop(now) => StopRegistrationLinked(a, now);
    case Up(now) => RetryRegistrationLinked(a, now);
    case Place(id, target, host, now) => UsedIsIn(a, id); PlaceLinked(a, id, target, host, now);
    case Pick(id, host, now) => AnswerLinked(a, id, host, now);
    case Refuse(id, status) => RejectLinked(a, id, status);
    case Drop(id, now) => HangupLinked(a, id, now);
    case Quit(now) => ShutdownLinked(a, now);
    case ResponseIn(r, host, now) => ResponseLinked(a, r, host, now);
    case RequestIn(q, newId, host, now) => UsedIsIn(a, newId); RequestLinked(a, q, newId, host, now);
    case Tick(order, now) => TimerLinked(a, order, now);
    case Down(order, now) => DownLinked(a, order, now);
    case Collect => SameLinksKeep(a, a.(queue := []));
  }

  // ---- Copies of requests ----

  lemma DownTimed(a: Agent, order: seq<Key>, now: int)
    requires Timed(a) && Linked(a) && IsOrder(order, a.txs.Keys)
    ensures Timed(OnTransportDown(a, order, now))
  {
    DownIsFailAll(a, order, now);
    FailAllTimed(a, order, now);
    SameCopiesKeep(FailAll(a, order, now), LoseRegistration(FailAll(a, order, now)));
  }

  lemma StepTimed(a: Agent, i: Input)
    requires Told(a) && Linked(a) && Timed(a) && Allowed(a, i)
    ensures Timed(Step(a, i))
  {
    match i
    case Start(now) => StartRegistrationTimed(a, now);
    case Stop(now) => StopRegistrationTimed(a, now);
    case Up(now) => RetryRegistrationTimed(a, now);
    case Place(id, target, host, now) =>
      if PlaceCall(a, id, target, host, now).0 == Ok { DialTimed(a, id, target, host, now); }
    case Pick(id, host, now) =>
      if Answer(a, id, host, now).0 == Ok { TakeUpResponds(a, host, now); OnlyRespondsTimed(a, TakeUp(a, host, now)); }
    case Refuse(id, status) => RejectResponds(a, id, status); OnlyRespondsTimed(a, Reject(a, id, status).1);
    case Drop(id, now) => HangupTimed(a, id, now);
    case Quit(now) => ShutdownTimed(a, now);
    case ResponseIn(r, host, now) => ResponseTimed(a, r, host, now);
    case RequestIn(q, newId, host, now) =>
      RequestResponds(a, q, newId, host, now);
      OnlyRespondsTimed(a, OnRequest(a, q, newId, host, now));
    case Tick(order, now) => TimerTimed(a, order, now);
    case Down(order, now) => DownTimed(a, order, now);
    case Collect => SameCopiesKeep(a, a.(queue := []));
  }

  // ---- Copies of the 200 ----

  lemma TimerAnswers(a: Agent, order: seq<Key>, now: int)
    requires Told(a) && Linked(a) && Answers(a)
    ensures Answers(OnTimer(a, order, now))
  {
    var b := RetransmitAll(a, order, now);
    var keys := Expired(a, order, now);
    var d := FailAll(b, keys, now);
    RetransmitAllMute(a, order, now);
    MuteKeeps(a, b);
    RetransmitAllLinked(a, order, now);
    FailAllAnswers(b, keys, now);
    FailAllLinked(b, keys, now);
    RetransmitQuiet(a, order, now);
    QuietKeepsTold(a, b);
    FailAllTold(b, keys, now);
    TimeAnswerAnswers(d, now);
    RegistrationMute(TimeAnswer(d, now), now);
    MuteKeeps(TimeAnswer(d, now), OnTimer(a, order, now));
  }

  lemma DownAnswers(a: Agent, order: seq<Key>, now: int)
    requires Linked(a) && Answers(a) && IsOrder(order, a.txs.Keys)
    ensures Answers(OnTransportDown(a, order, now))
  {
    DownIsFailAll(a, order, now);
    FailAllAnswers(a, order, now);
    MuteKeeps(FailAll(a, order, now), LoseRegistration(FailAll(a, order, now)));
  }

  lemma ShutdownMute(a: Agent, now: int)
    requires a.call.Some? && a.call.value.state == Calling ==> a.call.value.outgoing
    requires Answers(a)
    ensures Answers(BeginShutdown(a, now))
  {
    var b := a.(shutting := true);
    MuteKeeps(a, b);
    var d := if a.call.Some? then Hangup(b, a.call.value.id, now).1 else b;
    if a.call.Some? {
      HangupMute(b, a.call.value.id, now);
      MuteKeeps(b, d);
    }
    RegistrationMute(d, now);
    MuteKeeps(d, StopRegistration(d, now));
  }

  lemma StepAnswers(a: Agent, i: Input)
    requires Told(a) && Linked(a) && Answers(a) && Allowed(a, i)
    ensures Answers(Step(a, i))
  {
    match i
    case Start(now) => RegistrationMute(a, now); MuteKeeps(a, StartRegistration(a, now));
    case Stop(now) => RegistrationMute(a, now); MuteKeeps(a, StopRegistration(a, now));
    case Up(now) => RegistrationMute(a, now); MuteKeeps(a, OnTransportUp(a, now));
    case Place(id, target, host, now) =>
      if PlaceCall(a, id, target, host, now).0 == Ok {
        DialMute(a, id, target, host, now);
        MuteKeeps(a, Dial(a, id, target, host, now));
      }
    case Pick(id, host, now) => if Answer(a, id, host, now).0 == Ok { TakeUpAnswers(a, host, now); }
    case Refuse(id, status) => RejectMute(a, id, status); MuteKeeps(a, Reject(a, id, status).1);
    case Drop(id, now) => HangupMute(a, id, now); MuteKeeps(a, Hangup(a, id, now).1);
    case Quit(now) => ShutdownMute(a, now);
    case ResponseIn(r, host, now) => ResponseMute(a, r, host, now); MuteKeeps(a, OnResponse(a, r, host, now));
    case RequestIn(q, newId, host, now) =>
      UsedIsIn(a, newId);
      RequestMute(a, q, newId, host, now);
      MuteKeeps(a, OnRequest(a, q, newId, host, now));
    case Tick(order, now) => TimerAnswers(a, order, now);
    case Down(order, now) => DownAnswers(a, order, now);
    case Collect => MuteKeeps(a, a.(queue := []));
  }

  // ---- Requests of calls ----

  lemma DownRequested(a: Agent, order: seq<Key>, now: int)
    requires Linked(a) && Requested(a) && IsOrder(order, a.txs.Keys)
    ensures Requested(OnTransportDown(a, order, now))
  {
    DownIsFailAll(a, order, now);
    FailAllRequested(a, order, now);
    IdleKeeps(FailAll(a, order, now), LoseRegistration(FailAll(a, order, now)));
  }

  lemma StepRequested(a: Agent, i: Input)
    requires Told(a) && Linked(a) && Requested(a) && Allowed(a, i)
    ensures Requested(Step(a, i))
  {
    match i
    case Start(now) => StartIdle(a, now); IdleKeeps(a, StartRegistration(a, now));
    case Stop(now) => StopIdle(a, now); IdleKeeps(a, StopRegistration(a, now));
    case Up(now) => RetryIdle(a, now); IdleKeeps(a, OnTransportUp(a, now));
    case Place(id, target, host, now) =>
      if PlaceCall(a, id, target, host, now).0 == Ok { UsedIsIn(a, id); DialRequested(a, id, target, host, now); }
    case Pick(id, host, now) =>
      if Answer(a, id, host, now).0 == Ok { TakeUpIdle(a, host, now); IdleKeeps(a, TakeUp(a, host, now)); }
    case Refuse(id, status) => RejectIdle(a, id, status); IdleKeeps(a, Reject(a, id, status).1);
    case Drop(id, now) => HangupRequested(a, id, now);
    case Quit(now) => ShutdownRequested(a, now);
    case ResponseIn(r, host, now) => ResponseRequested(a, r, host, now);
    case RequestIn(q, newId, host, now) => UsedIsIn(a, newId); RequestRequested(a, q, newId, host, now);
    case Tick(order, now) => TimerRequested(a, order, now);
    case Down(order, now) => DownRequested(a, order, now);
    case Collect => IdleKeeps(a, a.(queue := []));
  }

  // ---- Media ----

  lemma DownSecured(a: Agent, keys: Keys, order: seq<Key>, now: int)
    requires Linked(a) && Secured(a, keys) && IsOrder(order, a.txs.Keys)
    ensures Secured(OnTransportDown(a, order, now), keys)
  {
    DownIsFailAll(a, order, now);
    FailAllSecured(a, keys, order, now);
    PlainKeeps(FailAll(a, order, now), LoseRegistration(FailAll(a, order, now)), keys);
  }

  lemma RegistrationSecured(a: Agent, keys: Keys, i: Input)
    requires Secured(a, keys) && (i.Start? || i.Stop? || i.Up? || i.Collect?)
    ensures Secured(Step(a, i), keys)
  {
    match i
    case Start(now) => RegistrationPlain(a, now); PlainKeeps(a, StartRegistration(a, now), keys);
    case Stop(now) => RegistrationPlain(a, now); PlainKeeps(a, StopRegistration(a, now), keys);
    case Up(now) => RetryPlain(a, now); PlainKeeps(a, OnTransportUp(a, now), keys);
    case Collect => PlainKeeps(a, a.(queue := []), keys);
  }

  lemma StepSecured(a: Agent, keys: Keys, i: Input) returns (keys': Keys)
    requires Told(a) && Linked(a) && Secured(a, keys) && Allowed(a, i)
    ensures Secured(Step(a, i), keys')
  {
    keys' := keys;
    match i
    case Start(_) => RegistrationSecured(a, keys, i);
    case Stop(_) => RegistrationSecured(a, keys, i);
    case Up(_) => RegistrationSecured(a, keys, i);
    case Place(id, target, host, now) =>
      if PlaceCall(a, id, target, host, now).0 == Ok {
        UsedIsIn(a, id);
        keys' := DialSecured(a, keys, id, target, host, now);
      }
    case Pick(id, host, now) =>
      if Answer(a, id, host, now).0 == Ok { keys' := TakeUpSecured(a, keys, host, now); }
    case Refuse(id, status) => RejectSecured(a, keys, id, status);
    case Drop(id, now) => HangupSecured(a, keys, id, now);
    case Quit(now) => ShutdownSecured(a, keys, now);
    case ResponseIn(r, host, now) => ResponseSecured(a, keys, r, host, now);
    case RequestIn(q, newId, host, now) => UsedIsIn(a, newId); RequestSecured(a, keys, q, newId, host, now);
    case Tick(order, now) => TimerSecured(a, keys, order, now);
    case Down(order, now) => DownSecured(a, keys, order, now);
    case Collect => RegistrationSecured(a, keys, i);
  }

  // ---- Identifiers and shutdown ----

  /** Only placing a call or an INVITE brings a call into being, under the identifier it was given. */
  ghost predicate BornBy(a: Agent, b: Agent, i: Input) {
    || b.born == a.born
    || (i.Place? && b.born == a.born + [Born(i.id, true)])
    || (i.RequestIn? && b.born == a.born + [Born(i.newId, false)])
  }

  /** No call is born, and what never changes does not. */
  ghost predicate Fixed(a: Agent, b: Agent) {
    b.born == a.born && b.shutting == a.shutting && b.cfg == a.cfg
  }

  lemma FinishBorn(a: Agent, key: Key, response: Option<Response>, host: Host, now: int)
    requires key in a.txs
    ensures Fixed(a, Finish(a, key, response, host, now))
  {
    var b := a.(txs := a.txs - {key});
    match a.txs[key].handler
    case InviteFinal(context) => InviteFinalFixed(b, context, response, host, now);
    case _ =>
  }

  lemma ByeAndEndFixed(a: Agent, reason: EndReason, status: int, now: int)
    requires a.call.Some?
    ensures Fixed(a, EndCall(SendBye(a, now), reason, status))
  {
  }

  lemma EstablishFixed(a: Agent, r: Response, host: Host, now: int)
    requires a.call.Some?
    ensures Fixed(a, Establish(a, r, host, now))
  {
    var c := a.call.value;
    if c.cancelRequested {
      ByeAndEndFixed(a, OwnReason(a), 0, now);
    } else if !UsableAnswer(a.cfg, r.answer) {
      ByeAndEndFixed(a, MediaFailed, 488, now);
    } else {
      var b := Do(a, StartByAnswer(a.cfg, c, r.answer.value, host.startOk));
      ByeAndEndFixed(b, MediaFailed, 488, now);
    }
  }

  lemma InviteSuccessFixed(a: Agent, context: InviteContext, r: Response, host: Host, now: int)
    ensures Fixed(a, OnInviteSuccess(a, context, r, host, now))
  {
    if Ours(a, context) {
      var ack := AckFor(context, r, a.names);
      var b := SetCall(Say(a.(names := a.names + 1), Acked(ack, context.callId)),
                       Confirm(a.call.value, context, r, ack));
      assert OnInviteSuccess(a, context, r, host, now) == Establish(b, r, host, now);
      EstablishFixed(b, r, host, now);
    }
  }

  lemma InviteFailureFixed(a: Agent, response: Option<Response>, now: int)
    requires a.call.Some?
    ensures Fixed(a, OnInviteFailure(a, response, now))
  {
  }

  lemma InviteFinalFixed(a: Agent, context: InviteContext, response: Option<Response>, host: Host, now: int)
    ensures Fixed(a, OnInviteFinal(a, context, response, host, now))
  {
    if response.Some? && response.value.status < 300 {
      InviteSuccessFixed(a, context, response.value, host, now);
    } else if Ours(a, context) {
      InviteFailureFixed(AckFailure(a, context, response), response, now);
    }
  }

  lemma {:induction false} FailAllBorn(a: Agent, keys: seq<Key>, now: int)
    ensures Fixed(a, FailAll(a, keys, now))
    decreases |keys|
  {
    if keys != [] {
      if keys[0] in a.txs {
        FinishBorn(a, keys[0], None, NO_HOST, now);
      }
      FailAllBorn(if keys[0] in a.txs then Finish(a, keys[0], None, NO_HOST, now) else a, keys[1..], now);
    }
  }

  lemma TimerBorn(a: Agent, order: seq<Key>, now: int)
    ensures Fixed(a, OnTimer(a, order, now))
  {
    var b, keys := RetransmitAll(a, order, now), Expired(a, order, now);
    RetransmitAllFixed(a, order, now);
    FailAllBorn(b, keys, now);
    var d := FailAll(b, keys, now);
    TimeAnswerFixed(d, now);
    assert Fixed(TimeAnswer(d, now), OnTimer(a, order, now));
  }

  lemma TimeAnswerFixed(a: Agent, now: int)
    ensures Fixed(a, TimeAnswer(a, now))
  {
  }

  lemma {:induction false} RetransmitAllFixed(a: Agent, order: seq<Key>, now: int)
    ensures Fixed(a, RetransmitAll(a, order, now))
    decreases |order|
  {
    if order != [] {
      RetransmitAllFixed(if order[0] in a.txs then Retransmit(a, order[0], now) else a, order[1..], now);
    }
  }

  lemma ResponseBorn(a: Agent, r: Response, host: Host, now: int)
    ensures Fixed(a, OnResponse(a, r, host, now))
  {
    if r.verb.Some? && Key(r.branch, r.verb.value) in a.txs && r.status >= 200 {
      FinishBorn(a, Key(r.branch, r.verb.value), Some(r), host, now);
    }
  }

  lemma RequestBorn(a: Agent, q: Query, newId: int, host: Host, now: int)
    ensures var b := OnRequest(a, q, newId, host, now);
            && (b.born == a.born || b.born == a.born + [Born(newId, false)])
            && b.shutting == a.shutting && b.cfg == a.cfg
  {
    RequestResponds(a, q, newId, host, now);
    RequestShutting(a, q, newId, host, now);
    if q.verb != INVITE || !q.complete || !OpensCall(a, q) {
      RequestSameRecord(a, q, newId, host, now);
    } else {
      assert OnRequest(a, q, newId, host, now) == Ring(a, q, newId);
    }
  }

  lemma RequestShutting(a: Agent, q: Query, newId: int, host: Host, now: int)
    ensures OnRequest(a, q, newId, host, now).shutting == a.shutting
  {
  }

  lemma CommandsBorn(a: Agent, id: int, status: int, host: Host, now: int)
    ensures Fixed(a, Answer(a, id, host, now).1) && Fixed(a, Reject(a, id, status).1)
  {
  }

  lemma HangupBorn(a: Agent, id: int, now: int)
    ensures Fixed(a, Hangup(a, id, now).1)
  {
    if a.call.Some? {
      match a.call.value.state
      case Calling => HangupCallingFixed(a, now);
      case Ringing =>
      case Answering => ByeAndEndFixed(a, OwnReason(a), 0, now);
      case Confirmed => ByeAndEndFixed(a, OwnReason(a), 0, now);
    }
  }

  lemma HangupCallingFixed(a: Agent, now: int)
    requires a.call.Some?
    ensures Fixed(a, HangupCalling(a, now))
  {
  }

  lemma DialBorn(a: Agent, id: int, target: string, host: Host, now: int)
    ensures var b := Dial(a, id, target, host, now);
            b.born == a.born + [Born(id, true)] && b.shutting == a.shutting && b.cfg == a.cfg
  {
  }

  lemma StepBorn(a: Agent, i: Input)
    requires Allowed(a, i)
    ensures BornBy(a, Step(a, i), i) && (i.Quit? || Step(a, i).shutting == a.shutting) && Step(a, i).cfg == a.cfg
  {
    match i
    case Place(id, target, host, now) => DialBorn(a, id, target, host, now);
    case Pick(id, host, now) => CommandsBorn(a, id, 0, host, now);
    case Refuse(id, status) => CommandsBorn(a, id, status, NO_HOST, 0);
    case Drop(id, now) => HangupBorn(a, id, now);
    case Quit(now) => if a.call.Some? { HangupBorn(a.(shutting := true), a.call.value.id, now); }
    case ResponseIn(r, host, now) => ResponseBorn(a, r, host, now);
    case RequestIn(q, newId, host, now) => RequestBorn(a, q, newId, host, now);
    case Tick(order, now) => TimerBorn(a, order, now);
    case Down(order, now) => DownIsFailAll(a, order, now); FailAllBorn(a, order, now);
    case _ =>
  }

  lemma StepDistinct(a: Agent, i: Input)
    requires Distinct(a.born) && Allowed(a, i)
    ensures Distinct(Step(a, i).born)
  {
    StepBorn(a, i);
  }

  lemma StepShut(a: Agent, i: Input)
    requires Told(a) && Linked(a) && ShutDown(a) && Allowed(a, i)
    ensures ShutDown(Step(a, i))
  {
    StepBorn(a, i);
    if i.Quit? {
      ShutdownQuits(a, i.now);
    } else if a.shutting {
      if i.Stop? {
      } else {
        StepPays(a, i);
      }
    }
  }

  lemma StepInv(a: Agent, i: Input)
    requires Inv(a) && Allowed(a, i)
    ensures Inv(Step(a, i))
  {
    StepTold(a, i);
    StepLinked(a, i);
    StepTimed(a, i);
    StepAnswers(a, i);
    StepRequested(a, i);
    StepLive(a, i);
    StepShut(a, i);
    StepDistinct(a, i);
    var keys :| Secured(a, keys);
    var keys' := StepSecured(a, keys, i);
  }

  lemma {:induction false} RunInv(a: Agent, inputs: seq<Input>)
    requires Inv(a) && AllowedRun(a, inputs)
    ensures Inv(Run(a, inputs))
    decreases |inputs|
  {
    if inputs != [] {
      StepInv(a, inputs[0]);
      RunInv(Step(a, inputs[0]), inputs[1..]);
    }
  }

  /** A run in two parts. */
  lemma {:induction false} RunInParts(a: Agent, first: seq<Input>, second: seq<Input>)
    ensures Run(a, first + second) == Run(Run(a, first), second)
    ensures AllowedRun(a, first + second) <==> AllowedRun(a, first) && AllowedRun(Run(a, first), second)
    decreases |first|
  {
    if first == [] {
      assert first + second == second;
    } else {
      assert (first + second)[1..] == first[1..] + second;
      RunInParts(Step(a, first[0]), first[1..], second);
    }
  }

  /** A run and one more input. */
  lemma RunOneMore(a: Agent, inputs: seq<Input>, i: Input)
    ensures Run(a, inputs + [i]) == Step(Run(a, inputs), i)
    ensures AllowedRun(a, inputs + [i]) <==> AllowedRun(a, inputs) && Allowed(Run(a, inputs), i)
  {
    RunInParts(a, inputs, [i]);
    var b := Run(a, inputs);
    assert [i][1..] == [] && Run(b, [i]) == Run(Step(b, i), []);
    assert AllowedRun(b, [i]) <==> Allowed(b, i) && AllowedRun(Step(b, i), []);
  }

  /** What a challenge is answered with: a header line that is never empty. */
  const CREDENTIALS: string := "Authorization: Digest"

  ghost predicate Reaches(z: Agent, inputs: seq<Input>, a: Agent) {
    AllowedRun(z, inputs) && Run(z, inputs) == a
  }

  lemma Onwards(z: Agent, inputs: seq<Input>, a: Agent, i: Input) returns (inputs': seq<Input>)
    requires Reaches(z, inputs, a) && Allowed(a, i)
    ensures inputs' == inputs + [i] && Reaches(z, inputs', Step(a, i))
  {
    inputs' := inputs + [i];
    RunOneMore(z, inputs, i);
  }

  lemma ReachableInv(cfg: Config, inputs: seq<Input>)
    requires AllowedRun(Init(cfg), inputs)
    ensures Inv(Run(Init(cfg), inputs))
  {
    InitInv(cfg);
    RunInv(Init(cfg), inputs);
  }

  /** What some run from the start leads to. */
  ghost predicate Reachable(a: Agent) {
    exists inputs :: AllowedRun(Init(a.cfg), inputs) && Run(Init(a.cfg), inputs) == a
  }

  lemma InitReachable(cfg: Config)
    ensures Reachable(Init(cfg))
  {
    assert AllowedRun(Init(cfg), []) && Run(Init(cfg), []) == Init(cfg);
  }

  lemma ReachableHasInv(a: Agent)
    requires Reachable(a)
    ensures Inv(a)
  {
    var inputs :| AllowedRun(Init(a.cfg), inputs) && Run(Init(a.cfg), inputs) == a;
    ReachableInv(a.cfg, inputs);
  }

  lemma StepReachable(a: Agent, i: Input)
    requires Reachable(a) && Allowed(a, i)
    ensures Reachable(Step(a, i))
  {
    var inputs :| AllowedRun(Init(a.cfg), inputs) && Run(Init(a.cfg), inputs) == a;
    RunOneMore(Init(a.cfg), inputs, i);
    StepBorn(a, i);
    assert AllowedRun(Init(a.cfg), inputs + [i]);
  }
}
