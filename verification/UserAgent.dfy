/** The user agent as an object: its member functions, each proved to move its state as `AgentSpec` says. */
module UserAgents {
  import opened Prelude
  import opened AgentTypes
  import S = AgentSpec
  import Deadlines = AgentDeadlines
  import Links = AgentLinks
  import Media = AgentMedia
  import Origins = AgentOrigins
  import Requests = AgentRequests
  import Runs = AgentRuns
  import Story = AgentStory
  import Theorems = AgentTheorems
  import Timers = AgentTimers
  import Answers = AgentAnswers

  lemma {:induction false} RetransmitOneMore(a: S.Agent, order: seq<Key>, k: Key, now: int)
    ensures S.RetransmitAll(a, order + [k], now) ==
            var b := S.RetransmitAll(a, order, now); if k in b.txs then S.Retransmit(b, k, now) else b
    decreases |order|
  {
    if order == [] {
      assert order + [k] == [k] && [k][1..] == [];
    } else {
      var b := if order[0] in a.txs then S.Retransmit(a, order[0], now) else a;
      assert (order + [k])[0] == order[0] && (order + [k])[1..] == order[1..] + [k];
      RetransmitOneMore(b, order[1..], k, now);
    }
  }

  lemma {:induction false} ExpiredOneMore(a: S.Agent, order: seq<Key>, k: Key, now: int)
    ensures S.Expired(a, order + [k], now) ==
            S.Expired(a, order, now) + if k in a.txs && S.Due(a.txs[k], now) then [k] else []
    decreases |order|
  {
    if order == [] {
      assert order + [k] == [k] && [k][1..] == [];
    } else {
      assert (order + [k])[0] == order[0] && (order + [k])[1..] == order[1..] + [k];
      ExpiredOneMore(a, order[1..], k, now);
    }
  }

  lemma {:induction false} FailOneMore(a: S.Agent, keys: seq<Key>, k: Key, now: int)
    ensures S.FailAll(a, keys + [k], now) ==
            var b := S.FailAll(a, keys, now); if k in b.txs then S.Finish(b, k, None, S.NO_HOST, now) else b
    decreases |keys|
  {
    if keys == [] {
      assert keys + [k] == [k] && [k][1..] == [];
    } else {
      var b := if keys[0] in a.txs then S.Finish(a, keys[0], None, S.NO_HOST, now) else a;
      assert (keys + [k])[0] == keys[0] && (keys + [k])[1..] == keys[1..] + [k];
      FailOneMore(b, keys[1..], k, now);
    }
  }

  lemma {:induction false} FailDetachedOneMore(a: S.Agent, pending: map<Key, Transaction>, keys: seq<Key>, k: Key,
                                               now: int)
    ensures S.FailDetached(a, pending, keys + [k], now) ==
            var b := S.FailDetached(a, pending, keys, now);
            if k in pending then S.HandleFinal(b, pending[k].handler, None, S.NO_HOST, now) else b
    decreases |keys|
  {
    if keys == [] {
      assert keys + [k] == [k] && [k][1..] == [];
    } else {
      var b := if keys[0] in pending then S.HandleFinal(a, pending[keys[0]].handler, None, S.NO_HOST, now) else a;
      assert (keys + [k])[0] == keys[0] && (keys + [k])[1..] == keys[1..] + [k];
      FailDetachedOneMore(b, pending, keys[1..], k, now);
    }
  }

  /** What is left of a set of keys being enumerated, and the enumeration so far. */
  ghost predicate Enumerating(keys: set<Key>, order: seq<Key>, left: set<Key>) {
    && left <= keys
    && (forall k :: k in keys <==> k in order || k in left)
    && (forall k :: k in order ==> k !in left)
    && (forall i, j :: 0 <= i < j < |order| ==> order[i] != order[j])
  }

  lemma EnumerateNext(keys: set<Key>, order: seq<Key>, left: set<Key>, k: Key)
    requires Enumerating(keys, order, left) && k in left
    ensures Enumerating(keys, order + [k], left - {k})
  {
    assert forall x :: x in order + [k] <==> x in order || x == k;
  }

  class UserAgent {
    const cfg: Config
    var transactions: map<Key, Transaction>
    var call: Option<Call>
    var registration: Registration
    var events: seq<Event>
    var shuttingDown: bool
    /** The next random name. */
    var names: Name
    ghost var log: seq<Event>
    ghost var wire: seq<Wire>
    ghost var media: seq<MediaAct>
    ghost var born: seq<Born>

    ghost function Abs(): S.Agent
      reads this
    {
      S.Agent(cfg, transactions, registration, call, shuttingDown, names, events, log, wire, media, born)
    }

    /** The state is one that a run of allowed inputs leads to, so what holds of every run holds of the object. */
    ghost predicate Valid()
      reads this
    {
      Runs.Reachable(Abs())
    }

    constructor (config: Config)
      ensures Valid() && Abs() == S.Init(config)
    {
      Runs.InitReachable(config);
      cfg := config;
      transactions, call, registration := map[], None, Registration(false, false, false, 1, None);
      events, shuttingDown, names := [], false, 1;
      log, wire, media, born := [], [], [], [];
    }

    // ---- Sending and reporting ----

    method Emit(event: Event)
      modifies this
      ensures Abs() == S.Emit(old(Abs()), event)
    {
      events := events + [event];
      log := log + [event];
    }

    method SendRaw(ghost message: Wire)
      modifies this
      ensures Abs() == S.Say(old(Abs()), message)
    {
      wire := wire + [message];
    }

    method HostMedia(ghost act: MediaAct)
      modifies this
      ensures Abs() == S.Do(old(Abs()), act)
    {
      media := media + [act];
    }

    method FreshName() returns (name: Name)
      modifies this
      ensures name == old(names) && Abs() == old(Abs()).(names := old(names) + 1)
    {
      name := names;
      names := names + 1;
    }

    /** Collects the events reported since the last collection. */
    method TakeEvents() returns (taken: seq<Event>)
      requires Valid()
      modifies this
      ensures Valid() && taken == old(events) && Abs() == S.Step(old(Abs()), S.Collect)
    {
      Runs.StepReachable(Abs(), S.Collect);
      taken := events;
      events := [];
    }

    method SendRequest(request: Request, branch: Name, handler: Handler, now: int)
      modifies this
      ensures Abs() == S.Launch(old(Abs()), branch, request, handler, now)
    {
      var transaction := Transaction(request, !cfg.reliable, T1, now + T1, now + TRANSACTION_TIMEOUT, handler);
      var key := Key(branch, request.verb);
      SendRaw(Created(key, request));
      transactions := transactions[key := transaction];
    }

    method SendRequestFresh(request: Request, handler: Handler, now: int)
      modifies this
      ensures Abs() == S.LaunchFresh(old(Abs()), request, handler, now)
    {
      var branch := FreshName();
      SendRequest(request, branch, handler, now);
    }

    method Respond(q: Query, status: int, tag: Option<Name>)
      modifies this
      ensures Abs() == S.Respond(old(Abs()), q, status, tag)
    {
      SendRaw(Responded(Reply(status, q.callId, tag, None, None), Direct));
    }

    // ---- Registration ----

    method SendRegister(expires: nat, authorization: Option<string>, now: int)
      modifies this
      ensures Abs() == S.SendRegister(old(Abs()), expires, authorization, now)
    {
      var request := Request(REGISTER, Domain, Account, Account, Own(0), registration.cseq, Some(expires),
                             authorization, None, None);
      registration := registration.(cseq := registration.cseq + 1, inFlight := true);
      SendRequestFresh(request, RegisterFinal(expires, authorization.Some?), now);
    }

    method StartRegistration(now: int)
      requires Valid()
      modifies this
      ensures Valid() && Abs() == S.StartRegistration(old(Abs()), now)
    {
      Runs.StepReachable(Abs(), S.Start(now));
      if shuttingDown {
        return;
      }
      registration := registration.(wanted := true, nextAttempt := None);
      if !registration.inFlight {
        SendRegister(cfg.registerExpires, None, now);
      }
    }

    method StopRegistration(now: int)
      requires Valid()
      modifies this
      ensures Valid() && Abs() == S.StopRegistration(old(Abs()), now)
    {
      Runs.StepReachable(Abs(), S.Stop(now));
      Unregister(now);
    }

    method Unregister(now: int)
      modifies this
      ensures Abs() == S.StopRegistration(old(Abs()), now)
    {
      registration := registration.(wanted := false, nextAttempt := None);
      if registration.registered || registration.inFlight {
        registration := registration.(registered := false);
        SendRegister(0, None, now);
      }
    }

    method ReportRegistration(granted: nat, status: int, now: int)
      modifies this
      ensures Abs() == S.RegistrationOutcome(old(Abs()), granted, status, now)
    {
      if 200 <= status < 300 {
        var half := granted / 2 * 1000;
        var refresh := if half > MINIMUM_REFRESH then half else MINIMUM_REFRESH;
        registration := registration.(registered := true, nextAttempt := Some(now + refresh));
      } else {
        registration := registration.(registered := false);
        if status == 408 || status >= 500 {
          registration := registration.(nextAttempt := Some(now + REGISTER_RETRY));
        }
      }
      Emit(Event(Registered, 0, status, NoReason));
    }

    method OnRegisterFinal(response: Option<Response>, expires: nat, authenticated: bool, now: int)
      modifies this
      ensures Abs() == S.OnRegisterFinal(old(Abs()), response, expires, authenticated, now)
    {
      registration := registration.(inFlight := false);
      var status := if response.Some? then response.value.status else 408;
      if response.Some? && (status == 401 || status == 407) && !authenticated && response.value.authorization.Some? {
        SendRegister(expires, response.value.authorization, now);
        return;
      }
      if expires == 0 {
        return;
      }
      if !registration.wanted {
        if 200 <= status < 300 {
          SendRegister(0, None, now);
        }
        return;
      }
      var granted := if response.Some? && response.value.granted.Some? then response.value.granted.value else expires;
      ReportRegistration(granted, status, now);
    }

    // ---- Calls ----

    method EndCall(reason: EndReason, status: int)
      modifies this
      ensures Abs() == S.EndCall(old(Abs()), reason, status)
    {
      if call.None? {
        return;
      }
      var id := call.value.id;
      if call.value.mediaOpen {
        HostMedia(Closed(id));
      }
      call := None;
      Emit(Event(Ended, id, status, reason));
    }

    method SendInvite(authorization: Option<string>, now: int)
      requires call.Some?
      modifies this
      ensures Abs() == S.SendInvite(old(Abs()), authorization, now)
    {
      var c := call.value;
      var request := Request(INVITE, c.inviteUri, c.localHeader, Callee(c.inviteUri), c.sipCallId, c.localCseq, None,
                             authorization, c.localSdp, Some(c.id));
      var branch := FreshName();
      var context := InviteContext(c.id, request.uri, request.from, request.callId, request.cseq, branch);
      call := Some(c.(localCseq := c.localCseq + 1, inviteCseq := request.cseq, inviteBranch := branch,
                      provisional := false));
      SendRequest(request, branch, InviteFinal(context), now);
    }

    method SendCancel(now: int)
      requires call.Some?
      modifies this
      ensures Abs() == S.SendCancel(old(Abs()), now)
    {
      var c := call.value;
      call := Some(c.(cancelSent := true));
      var request := Request(CANCEL, c.inviteUri, c.localHeader, Callee(c.inviteUri), c.sipCallId, c.inviteCseq, None,
                             None, None, Some(c.id));
      SendRequest(request, c.inviteBranch, Ignore, now);
    }

    method SendBye(now: int)
      requires call.Some?
      modifies this
      ensures Abs() == S.SendBye(old(Abs()), now)
    {
      var c := call.value;
      var request := Request(BYE, c.remoteTarget, c.localHeader, c.remoteHeader, c.sipCallId, c.localCseq, None, None,
                             None, Some(c.id));
      call := Some(c.(localCseq := c.localCseq + 1));
      SendRequestFresh(request, Ignore, now);
    }

    method ByeAndEnd(reason: EndReason, status: int, now: int)
      requires call.Some?
      modifies this
      ensures Abs() == S.EndCall(S.SendBye(old(Abs()), now), reason, status)
    {
      SendBye(now);
      EndCall(reason, status);
    }

    /** This side's session description for the call, counting its version up. */
    method LocalSdpFor(answering: Option<Audio>) returns (sdp: LocalSdp)
      requires call.Some?
      modifies this
      ensures sdp == S.SdpFor(cfg, old(call).value, answering)
      ensures Abs() == S.SetCall(old(Abs()), old(call).value.(sdpVersion := old(call).value.sdpVersion + 1))
    {
      var c := call.value;
      sdp := LocalSdp(c.mediaPort, c.sdpSession, c.sdpVersion, S.CryptoFor(cfg, c, answering));
      call := Some(c.(sdpVersion := c.sdpVersion + 1));
    }

    method BeginCall(id: int, target: string, host: Host)
      modifies this
      ensures Abs() == S.Begin(old(Abs()), id, target, host)
    {
      HostMedia(Opened(id, host.port));
      var sipCallId := FreshName();
      var tag := FreshName();
      var uri := Extension(target);
      call := Some(Call(id, true, Calling, Own(sipCallId), tag, Local(tag), Callee(uri), Text(""), uri, 1,
                        host.port != 0, None, host.port, host.session, 1, [],
                        uri, 0, 0, false, false, 0, false, false, None,
                        S.NO_AUDIO, None, 0, 0, 0));
      born := born + [Born(id, true)];
    }

    method OfferAndInvite(key: seq<byte>, now: int)
      requires call.Some?
      modifies this
      ensures var c := S.WithOffer(cfg, old(call).value.(srtpKey := key));
              Abs() == S.SendInvite(S.SetCall(old(Abs()), c), None, now)
    {
      call := Some(call.value.(srtpKey := key));
      var sdp := LocalSdpFor(None);
      call := Some(call.value.(localSdp := Some(sdp)));
      SendInvite(None, now);
    }

    method PlaceCall(id: int, target: string, host: Host, now: int) returns (result: CommandResult)
      requires Valid() && !S.Used(Abs(), id)
      modifies this
      ensures Valid() && (result, Abs()) == S.PlaceCall(old(Abs()), id, target, host, now)
    {
      Runs.StepReachable(Abs(), S.Place(id, target, host, now));
      if !S.GoodTarget(target) {
        return InvalidArgument;
      }
      if call.Some? || shuttingDown {
        return State;
      }
      BeginCall(id, target, host);
      var key := S.NewKey(cfg, host);
      if host.port == 0 || key.None? {
        EndCall(MediaFailed, 0);
      } else {
        OfferAndInvite(key.value, now);
      }
      return Ok;
    }

    method OnInviteProvisional(id: int, status: int, now: int)
      modifies this
      ensures Abs() == S.OnInviteProvisional(old(Abs()), id, status, now)
    {
      if call.None? || call.value.id != id || call.value.state != Calling {
        return;
      }
      call := Some(call.value.(provisional := true));
      if call.value.cancelRequested && !call.value.cancelSent {
        SendCancel(now);
        return;
      }
      if (status == 180 || status == 183) && call.value.lastProgress != status {
        call := Some(call.value.(lastProgress := status));
        Emit(Event(Progress, id, status, NoReason));
      }
    }

    method Establish(r: Response, host: Host, now: int)
      requires call.Some?
      modifies this
      ensures Abs() == S.Establish(old(Abs()), r, host, now)
    {
      if call.value.cancelRequested {
        ByeAndEnd(if shuttingDown then Shutdown else LocalEnd, 0, now);
        return;
      }
      if !S.UsableAnswer(cfg, r.answer) {
        ByeAndEnd(MediaFailed, 488, now);
        return;
      }
      var id, answer := call.value.id, r.answer.value;
      HostMedia(Started(id, S.RemoteMediaFor(cfg, call.value, answer, S.AnswerLine(cfg, answer)), host.startOk,
                        ByAnswer(answer, call.value.inviteBranch)));
      if !host.startOk {
        ByeAndEnd(MediaFailed, 488, now);
        return;
      }
      Emit(Event(Answered, id, r.status, NoReason));
    }

    method OnInviteSuccess(context: InviteContext, r: Response, host: Host, now: int)
      modifies this
      ensures Abs() == S.OnInviteSuccess(old(Abs()), context, r, host, now)
    {
      var ours := call.Some? && call.value.id == context.callId && call.value.inviteBranch == context.branch;
      var to := Header(r.to);
      var target := if r.contact.Some? then Text(r.contact.value) else context.uri;
      var branch := FreshName();
      var ack := AckMessage(target, context.from, to, context.sipCallId, context.cseq, branch);
      SendRaw(Acked(ack, context.callId));
      if !ours {
        var bye := Request(BYE, target, context.from, to, context.sipCallId, context.cseq + 1, None, None, None,
                           Some(context.callId));
        SendRequestFresh(bye, Ignore, now);
        return;
      }
      call := Some(call.value.(ack := Some(ack), remoteHeader := to, remoteTarget := target, state := Confirmed));
      Establish(r, host, now);
    }

    method OnInviteFailure(response: Option<Response>, now: int)
      requires call.Some?
      modifies this
      ensures Abs() == S.OnInviteFailure(old(Abs()), response, now)
    {
      if response.None? {
        EndCall(Timeout, 408);
        return;
      }
      var status := response.value.status;
      if (status == 401 || status == 407) && !call.value.authenticated && !call.value.cancelRequested {
        if response.value.authorization.Some? {
          call := Some(call.value.(authenticated := true));
          SendInvite(response.value.authorization, now);
          return;
        }
      }
      if call.value.cancelRequested {
        EndCall(if shuttingDown then Shutdown else LocalEnd, status);
      } else {
        EndCall(Rejected, status);
      }
    }

    method OnInviteFinal(context: InviteContext, response: Option<Response>, host: Host, now: int)
      modifies this
      ensures Abs() == S.OnInviteFinal(old(Abs()), context, response, host, now)
    {
      if response.Some? && response.value.status < 300 {
        OnInviteSuccess(context, response.value, host, now);
        return;
      }
      var ours := call.Some? && call.value.id == context.callId && call.value.inviteBranch == context.branch;
      if response.Some? {
        SendRaw(Acked(AckMessage(context.uri, context.from, Header(response.value.to), context.sipCallId, context.cseq,
                                 context.branch), context.callId));
      }
      if ours {
        OnInviteFailure(response, now);
      }
    }

    // ---- Incoming calls ----

    method ReInvite(q: Query, host: Host)
      requires call.Some?
      modifies this
      ensures Abs() == S.ReInvite(old(Abs()), q, host)
    {
      if q.bodyEmpty || q.offer.None? || !S.Acceptable(cfg, q.offer.value) {
        Respond(q, 488, None);
        return;
      }
      var id, sdp := call.value.id, call.value.localSdp;
      if cfg.srtp {
        var rebuilt := LocalSdpFor(q.offer);
        sdp := Some(rebuilt);
      }
      HostMedia(Started(id, S.RemoteMediaFor(cfg, call.value, q.offer.value, S.ChosenLine(cfg, q.offer.value)),
                        host.startOk, ByOffer(q.offer.value, sdp)));
      if !host.startOk {
        Respond(q, 488, None);
        return;
      }
      call := Some(call.value.(localSdp := sdp));
      SendRaw(Responded(Reply(200, q.callId, None, sdp, Some(id)), Direct));
    }

    method OnInviteRequest(q: Query, newId: int, host: Host)
      modifies this
      ensures Abs() == S.OnInviteRequest(old(Abs()), q, newId, host)
    {
      if call.Some? && call.value.sipCallId == q.callId {
        if !call.value.outgoing && call.value.state != Confirmed {
          if call.value.lastResponse.Some? {
            SendRaw(Responded(call.value.lastResponse.value, RepeatedInvite));
          }
          return;
        }
        ReInvite(q, host);
        return;
      }
      var tag := FreshName();
      if call.Some? || shuttingDown {
        Respond(q, 486, Some(tag));
        return;
      }
      if q.offer.None? || !S.Acceptable(cfg, q.offer.value) {
        Respond(q, 488, Some(tag));
        return;
      }
      Ring(q, tag, newId);
    }

    method Ring(q: Query, tag: Name, newId: int)
      requires q.offer.Some? && names == tag + 1
      modifies this
      ensures Abs() == S.Ring(old(Abs()).(names := tag), q, newId)
    {
      var ringing := Reply(180, q.callId, Some(tag), None, None);
      SendRaw(Responded(ringing, Direct));
      call := Some(Call(newId, false, Ringing, q.callId, tag, Tagged(q.to, tag), Header(q.from),
                        if q.contact.Some? then Text(q.contact.value) else Text(q.fromUri), Text(q.fromUri), 1,
                        false, None, 0, 0, 1, [],
                        Text(""), 0, 0, false, false, 0, false, false, None,
                        q.offer.value, Some(ringing), 0, 0, 0));
      born := born + [Born(newId, false)];
      Emit(Event(Incoming, newId, 0, NoReason));
    }

    method OpenFor(host: Host)
      requires call.Some?
      modifies this
      ensures Abs() == S.OpenFor(old(Abs()), host)
    {
      HostMedia(Opened(call.value.id, host.port));
      call := Some(call.value.(mediaOpen := host.port != 0, mediaPort := host.port, sdpSession := host.session));
    }

    method StartFor(key: seq<byte>, host: Host)
      requires call.Some?
      modifies this
      ensures Abs() == S.StartFor(old(Abs()), key, host)
    {
      call := Some(call.value.(srtpKey := key));
      HostMedia(S.StartByOffer(cfg, call.value, call.value.offer,
                               Some(S.SdpFor(cfg, call.value, Some(call.value.offer))), host.startOk));
    }

    method RefuseAnswer()
      requires call.Some?
      modifies this
      ensures Abs() == S.RefuseAnswer(old(Abs()))
    {
      SendRaw(Responded(Reply(500, call.value.sipCallId, Some(call.value.localTag), None, None), Direct));
      EndCall(MediaFailed, 500);
    }

    method SendAnswer(now: int)
      requires call.Some?
      modifies this
      ensures Abs() == S.SendAnswer(old(Abs()), now)
    {
      var sdp := LocalSdpFor(Some(call.value.offer));
      var reply := Reply(200, call.value.sipCallId, Some(call.value.localTag), Some(sdp), Some(call.value.id));
      call := Some(call.value.(localSdp := Some(sdp), lastResponse := Some(reply), state := Answering,
                               resendInterval := T1, resendAt := now + T1, ackDeadline := now + TRANSACTION_TIMEOUT));
      SendRaw(Responded(reply, Direct));
    }

    method TakeUp(host: Host, now: int)
      requires call.Some?
      modifies this
      ensures Abs() == S.TakeUp(old(Abs()), host, now)
    {
      OpenFor(host);
      var key := S.NewKey(cfg, host);
      if host.port == 0 || key.None? {
        RefuseAnswer();
        return;
      }
      StartFor(key.value, host);
      if !host.startOk {
        RefuseAnswer();
        return;
      }
      SendAnswer(now);
    }

    method Answer(id: int, host: Host, now: int) returns (result: CommandResult)
      requires Valid()
      modifies this
      ensures Valid() && (result, Abs()) == S.Answer(old(Abs()), id, host, now)
    {
      Runs.StepReachable(Abs(), S.Pick(id, host, now));
      if call.None? || call.value.id != id {
        return NotFound;
      }
      if call.value.outgoing || call.value.state != Ringing {
        return State;
      }
      TakeUp(host, now);
      return Ok;
    }

    /** Answers the INVITE of the call with a failure and ends the call. */
    method Decline(status: int, reason: EndReason)
      requires call.Some?
      modifies this
      ensures var a := old(Abs());
              Abs() == S.EndCall(S.Say(a, Responded(S.AnswerReply(a.call.value, status, None), Direct)), reason, status)
    {
      SendRaw(Responded(Reply(status, call.value.sipCallId, Some(call.value.localTag), None, None), Direct));
      EndCall(reason, status);
    }

    method Reject(id: int, status: int) returns (result: CommandResult)
      requires Valid()
      modifies this
      ensures Valid() && (result, Abs()) == S.Reject(old(Abs()), id, status)
    {
      Runs.StepReachable(Abs(), S.Refuse(id, status));
      if status < 400 || status > 699 {
        return InvalidArgument;
      }
      if call.None? || call.value.id != id {
        return NotFound;
      }
      if call.value.outgoing || call.value.state != Ringing {
        return State;
      }
      Decline(status, LocalEnd);
      return Ok;
    }

    method GiveUp(now: int)
      requires call.Some?
      modifies this
      ensures Abs() == S.HangupCalling(old(Abs()), now)
    {
      if call.value.cancelRequested {
        return;
      }
      call := Some(call.value.(cancelRequested := true));
      wire := wire + [HangupAsked(call.value.id)];
      if call.value.provisional {
        SendCancel(now);
      }
    }

    method Hangup(id: int, now: int) returns (result: CommandResult)
      requires Valid()
      modifies this
      ensures Valid() && (result, Abs()) == S.Hangup(old(Abs()), id, now)
    {
      Runs.StepReachable(Abs(), S.Drop(id, now));
      result := DropCall(id, now);
    }

    method DropCall(id: int, now: int) returns (result: CommandResult)
      modifies this
      ensures (result, Abs()) == S.Hangup(old(Abs()), id, now)
    {
      if call.None? || call.value.id != id {
        return NotFound;
      }
      var reason := if shuttingDown then Shutdown else LocalEnd;
      match call.value.state {
        case Calling =>
          GiveUp(now);
          if shuttingDown {
            EndCall(reason, 0);
          }
        case Ringing =>
          Decline(603, reason);
        case Answering =>
          ByeAndEnd(reason, 0, now);
        case Confirmed =>
          ByeAndEnd(reason, 0, now);
      }
      return Ok;
    }

    method BeginShutdown(now: int)
      requires Valid()
      modifies this
      ensures Valid() && Abs() == S.BeginShutdown(old(Abs()), now)
    {
      Runs.StepReachable(Abs(), S.Quit(now));
      shuttingDown := true;
      if call.Some? {
        var _ := DropCall(call.value.id, now);
      }
      Unregister(now);
    }

    // ---- Dispatch ----

    method HandleFinal(handler: Handler, response: Option<Response>, host: Host, now: int)
      modifies this
      ensures Abs() == S.HandleFinal(old(Abs()), handler, response, host, now)
    {
      match handler {
        case RegisterFinal(expires, authenticated) => OnRegisterFinal(response, expires, authenticated, now);
        case InviteFinal(context) => OnInviteFinal(context, response, host, now);
        case Ignore =>
      }
    }

    method Finish(key: Key, response: Option<Response>, host: Host, now: int)
      requires key in transactions
      modifies this
      ensures Abs() == S.Finish(old(Abs()), key, response, host, now)
    {
      var transaction := transactions[key];
      transactions := transactions - {key};
      HandleFinal(transaction.handler, response, host, now);
    }

    method OnProvisional(key: Key, status: int, now: int)
      requires key in transactions
      modifies this
      ensures Abs() == S.OnProvisional(old(Abs()), key, status, now)
    {
      var transaction := transactions[key];
      if transaction.request.verb == INVITE {
        transaction := transaction.(retransmitting := false, deadline := now + INVITE_AFTER_PROVISIONAL);
      } else {
        transaction := transaction.(interval := T2);
      }
      transactions := transactions[key := transaction];
      wire := wire + [Heard(key)];
      match transaction.handler {
        case InviteFinal(context) => OnInviteProvisional(context.callId, status, now);
        case _ =>
      }
    }

    method OnResponse(r: Response, host: Host, now: int)
      requires Valid()
      modifies this
      ensures Valid() && Abs() == S.OnResponse(old(Abs()), r, host, now)
    {
      Runs.StepReachable(Abs(), S.ResponseIn(r, host, now));
      if r.verb.None? {
        return;
      }
      var key := Key(r.branch, r.verb.value);
      if key !in transactions {
        if 200 <= r.status < 300 && r.verb.value == INVITE && call.Some? && call.value.sipCallId == r.callId
           && call.value.ack.Some? {
          SendRaw(Acked(call.value.ack.value, call.value.id));
        }
        return;
      }
      if r.status < 200 {
        OnProvisional(key, r.status, now);
        return;
      }
      Finish(key, Some(r), host, now);
    }

    method OnAck(q: Query)
      modifies this
      ensures Abs() == S.OnAck(old(Abs()), q)
    {
      if call.Some? && !call.value.outgoing && call.value.state == Answering && call.value.sipCallId == q.callId {
        call := Some(call.value.(state := Confirmed));
        Emit(Event(Answered, call.value.id, 200, NoReason));
      }
    }

    method OnRequest(q: Query, newId: int, host: Host, now: int)
      requires Valid() && !S.Used(Abs(), newId)
      modifies this
      ensures Valid() && Abs() == S.OnRequest(old(Abs()), q, newId, host, now)
    {
      Runs.StepReachable(Abs(), S.RequestIn(q, newId, host, now));
      if q.verb == ACK {
        OnAck(q);
        return;
      }
      if !q.complete {
        Respond(q, 400, None);
        return;
      }
      var sameCall := call.Some? && call.value.sipCallId == q.callId;
      if q.verb == INVITE {
        OnInviteRequest(q, newId, host);
      } else if q.verb == OPTIONS {
        var tag := FreshName();
        Respond(q, 200, Some(tag));
      } else if q.verb == BYE {
        if !sameCall {
          Respond(q, 481, None);
          return;
        }
        Respond(q, 200, None);
        EndCall(RemoteHangup, 0);
      } else if q.verb == CANCEL {
        if !sameCall || call.value.outgoing {
          Respond(q, 481, None);
          return;
        }
        Respond(q, 200, Some(call.value.localTag));
        if call.value.state == Ringing {
          Decline(487, RemoteCancelled);
        }
      } else {
        Respond(q, 501, None);
      }
    }

    // ---- Time and connections ----

    /** Sends one transaction's request again if it is due, or says that it has run out. */
    method TimeOne(key: Key, now: int) returns (expired: bool)
      requires key in transactions
      modifies this
      ensures expired == S.Due(old(transactions)[key], now)
      ensures Abs() == S.Retransmit(old(Abs()), key, now)
      ensures transactions.Keys == old(transactions).Keys
      ensures forall k :: k in transactions && k != key ==> transactions[k] == old(transactions)[k]
    {
      var transaction := transactions[key];
      if now >= transaction.deadline {
        return true;
      }
      if transaction.retransmitting && now >= transaction.retransmitAt {
        SendRaw(Repeated(key, transaction.request));
        var doubled := transaction.interval * 2;
        var interval := if transaction.request.verb == INVITE || doubled < T2 then doubled else T2;
        transactions := transactions[key := transaction.(interval := interval, retransmitAt := now + interval)];
      }
      return false;
    }

    /** One pass over the table, in whatever order it comes: what is due is sent again, what has run out is listed. */
    method TimeTransactions(now: int) returns (expired: seq<Key>, ghost order: seq<Key>)
      modifies this
      ensures S.IsOrder(order, old(transactions).Keys)
      ensures expired == S.Expired(old(Abs()), order, now)
      ensures Abs() == S.RetransmitAll(old(Abs()), order, now)
    {
      expired, order := [], [];
      var left := transactions.Keys;
      while left != {}
        invariant Enumerating(old(transactions).Keys, order, left)
        invariant transactions.Keys == old(transactions).Keys
        invariant forall k :: k in left ==> transactions[k] == old(transactions)[k]
        invariant expired == S.Expired(old(Abs()), order, now)
        invariant Abs() == S.RetransmitAll(old(Abs()), order, now)
        decreases left
      {
        var key :| key in left;
        ExpiredOneMore(old(Abs()), order, key, now);
        RetransmitOneMore(old(Abs()), order, key, now);
        EnumerateNext(old(transactions).Keys, order, left, key);
        var due := TimeOne(key, now);
        if due {
          expired := expired + [key];
        }
        order := order + [key];
        left := left - {key};
      }
    }

    method FailAll(keys: seq<Key>, now: int)
      modifies this
      ensures Abs() == S.FailAll(old(Abs()), keys, now)
    {
      var i := 0;
      while i < |keys|
        invariant 0 <= i <= |keys|
        invariant Abs() == S.FailAll(old(Abs()), keys[..i], now)
      {
        FailOneMore(old(Abs()), keys[..i], keys[i], now);
        assert keys[..i + 1] == keys[..i] + [keys[i]];
        if keys[i] in transactions {
          Finish(keys[i], None, S.NO_HOST, now);
        }
        i := i + 1;
      }
      assert keys[..i] == keys;
    }

    method TimeAnswer(now: int)
      modifies this
      ensures Abs() == S.TimeAnswer(old(Abs()), now)
    {
      if call.None? || call.value.state != Answering {
        return;
      }
      if now >= call.value.ackDeadline {
        ByeAndEnd(Timeout, 408, now);
      } else if now >= call.value.resendAt {
        if call.value.lastResponse.Some? {
          SendRaw(Responded(call.value.lastResponse.value, Timer));
        }
        var doubled := call.value.resendInterval * 2;
        var interval := if doubled < T2 then doubled else T2;
        call := Some(call.value.(resendInterval := interval, resendAt := now + interval));
      }
    }

    method TimeRegistration(now: int)
      modifies this
      ensures Abs() == S.TimeRegistration(old(Abs()), now)
    {
      if registration.wanted && registration.nextAttempt.Some? && now >= registration.nextAttempt.value
         && !registration.inFlight {
        registration := registration.(nextAttempt := None);
        SendRegister(cfg.registerExpires, None, now);
      }
    }

    method OnTimer(now: int) returns (ghost order: seq<Key>)
      requires Valid()
      modifies this
      ensures Valid() && S.IsOrder(order, old(transactions).Keys)
      ensures Abs() == S.OnTimer(old(Abs()), order, now) && Deadlines.AllLater(Abs(), now)
    {
      var expired;
      expired, order := TimeTransactions(now);
      FailAll(expired, now);
      TimeAnswer(now);
      TimeRegistration(now);
      Runs.StepReachable(old(Abs()), S.Tick(order, now));
      Runs.ReachableHasInv(old(Abs()));
      Deadlines.NothingDueAfterTick(old(Abs()), order, now);
    }

    /** Fails everything that was in the table, which is emptied first. */
    method FailPending(now: int) returns (ghost order: seq<Key>)
      modifies this
      ensures S.IsOrder(order, old(transactions).Keys)
      ensures Abs() == S.FailDetached(old(Abs()).(txs := map[]), old(transactions), order, now)
    {
      var pending := transactions;
      transactions := map[];
      order := [];
      var left := pending.Keys;
      ghost var a := old(Abs()).(txs := map[]);
      while left != {}
        invariant Enumerating(pending.Keys, order, left)
        invariant Abs() == S.FailDetached(a, pending, order, now)
        decreases left
      {
        var key :| key in left;
        FailDetachedOneMore(a, pending, order, key, now);
        EnumerateNext(pending.Keys, order, left, key);
        HandleFinal(pending[key].handler, None, S.NO_HOST, now);
        order := order + [key];
        left := left - {key};
      }
    }

    method OnTransportDown(now: int) returns (ghost order: seq<Key>)
      requires Valid()
      modifies this
      ensures Valid() && S.IsOrder(order, old(transactions).Keys)
      ensures Abs() == S.OnTransportDown(old(Abs()), order, now)
    {
      order := FailPending(now);
      if registration.registered {
        registration := registration.(registered := false);
        Emit(Event(Registered, 0, 503, NoReason));
      }
      Runs.StepReachable(old(Abs()), S.Down(order, now));
    }

    method OnTransportUp(now: int)
      requires Valid()
      modifies this
      ensures Valid() && Abs() == S.OnTransportUp(old(Abs()), now)
    {
      Runs.StepReachable(Abs(), S.Up(now));
      if shuttingDown || !registration.wanted || registration.inFlight {
        return;
      }
      registration := registration.(nextAttempt := None);
      SendRegister(cfg.registerExpires, None, now);
    }

    /** The earliest of the deadlines, if there are any. */
    method NextDeadline() returns (next: Option<int>)
      ensures next.None? ==> forall at :: !Deadlines.IsDeadline(Abs(), at)
      ensures next.Some? ==> Deadlines.IsDeadline(Abs(), next.value)
      ensures next.Some? ==> forall at :: Deadlines.IsDeadline(Abs(), at) ==> next.value <= at
    {
      next := None;
      var left := transactions.Keys;
      while left != {}
        invariant left <= transactions.Keys
        invariant next.Some? ==> OfTransactions(next.value)
        invariant forall k :: k in transactions && k !in left ==> Covers(next, transactions[k])
        decreases left
      {
        var key :| key in left;
        var t := transactions[key];
        next := Consider(next, t.deadline);
        if t.retransmitting {
          next := Consider(next, t.retransmitAt);
        }
        left := left - {key};
      }
      if call.Some? && call.value.state == Answering {
        next := Consider(next, call.value.resendAt);
        next := Consider(next, call.value.ackDeadline);
      }
      if registration.wanted && registration.nextAttempt.Some? {
        next := Consider(next, registration.nextAttempt.value);
      }
      assert forall k :: k in transactions ==> Covers(next, transactions[k]);
    }

    ghost predicate OfTransactions(at: int)
      reads this
    {
      exists k :: k in transactions && (at == transactions[k].deadline
                                        || (transactions[k].retransmitting && at == transactions[k].retransmitAt))
    }
  }

  function Consider(next: Option<int>, at: int): Option<int> {
    if next.None? || at < next.value then Some(at) else next
  }

  /** `next` is no later than either time of the transaction. */
  predicate Covers(next: Option<int>, t: Transaction) {
    next.Some? && next.value <= t.deadline && (t.retransmitting ==> next.value <= t.retransmitAt)
  }

  // ---- What holds of every run holds of the object ----

  lemma TellsCalls(agent: UserAgent, id: int)
    requires agent.Valid()
    ensures var es, born, stage := Story.CallEvents(agent.log), agent.born, Story.StageOf(agent.call);
            && |born| - Theorems.EndedCount(es) == (if agent.call.Some? then 1 else 0)
            && (!Links.IdIn(born, id) ==> Theorems.EventsOf(es, id) == [])
            && (forall i :: 0 <= i < |born| && born[i].id == id ==>
                  var now := if i == |born| - 1 then stage else Story.Over;
                  Story.Spells(born[i].outgoing, Theorems.EventsOf(es, id), now))
  {
    var inputs :| S.AllowedRun(S.Init(agent.cfg), inputs) && S.Run(S.Init(agent.cfg), inputs) == agent.Abs();
    Theorems.EventsTellCalls(agent.cfg, inputs, id);
  }

  lemma SendsFewCopies(agent: UserAgent, key: Key, id: int)
    requires agent.Valid()
    ensures Timers.Copies(agent.wire, key) <= (if key.verb == INVITE then 7 else 11)
    ensures agent.cfg.reliable ==> Timers.Copies(agent.wire, key) <= 1
    ensures Answers.AnswerCopies(agent.wire, id) <= 11
    ensures var wire := agent.wire;
            && Requests.Made(wire, id, INVITE) <= 2 && Requests.Made(wire, id, CANCEL) <= 1
            && Requests.Made(wire, id, BYE) <= 1 && Requests.CancelsJustified(wire) && Requests.Rising(wire)
  {
    var inputs :| S.AllowedRun(S.Init(agent.cfg), inputs) && S.Run(S.Init(agent.cfg), inputs) == agent.Abs();
    Theorems.CopiesAreBounded(agent.cfg, inputs, key, id);
    Theorems.RequestsAreFew(agent.cfg, inputs, id);
  }

  lemma KeepsMediaSafe(agent: UserAgent) returns (keys: Media.Keys)
    requires agent.Valid()
    ensures Media.Holder(agent.media) ==
            (if agent.call.Some? && agent.call.value.mediaOpen then Some(agent.call.value.id) else None)
    ensures forall i :: 0 <= i < |agent.media| ==> Media.ActOk(agent.cfg, keys, agent.media[i])
    ensures forall i :: 0 <= i < |agent.wire| ==> Media.WireOk(agent.cfg, keys, agent.wire[i])
    ensures forall i :: 0 <= i < |agent.media| && agent.media[i].Started? ==> Origins.Sent(agent.wire, agent.media[i])
  {
    var inputs :| S.AllowedRun(S.Init(agent.cfg), inputs) && S.Run(S.Init(agent.cfg), inputs) == agent.Abs();
    keys := Theorems.MediaIsSafe(agent.cfg, inputs);
  }
}
