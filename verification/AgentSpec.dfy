/** The user agent as functions from state to state, one per member function of the source. */
module AgentSpec {
  import opened Prelude
  import opened AgentTypes

  /**
   * The agent's state and its history: `queue` holds the events not yet collected, `log` every event, `wire` the SIP
   * traffic, `media` the calls on the media host and `born` the calls created.
   */
  datatype Agent = Agent(cfg: Config, txs: map<Key, Transaction>, reg: Registration, call: Option<Call>, shutting: bool,
                         names: Name, queue: seq<Event>, log: seq<Event>, wire: seq<Wire>, media: seq<MediaAct>,
                         born: seq<Born>)

  function Init(cfg: Config): Agent {
    Agent(cfg, map[], Registration(false, false, false, 1, None), None, false, 1, [], [], [], [], [])
  }

  function Emit(a: Agent, e: Event): Agent {
    a.(queue := a.queue + [e], log := a.log + [e])
  }

  function Say(a: Agent, w: Wire): Agent {
    a.(wire := a.wire + [w])
  }

  function Do(a: Agent, m: MediaAct): Agent {
    a.(media := a.media + [m])
  }

  function SetCall(a: Agent, c: Call): Agent {
    a.(call := Some(c))
  }

  function Min(x: int, y: int): int { if x < y then x else y }

  function Max(x: int, y: int): int { if x > y then x else y }

  // ---- Client transactions ----

  function NewTransaction(cfg: Config, request: Request, handler: Handler, now: int): Transaction {
    Transaction(request, !cfg.reliable, T1, now + T1, now + TRANSACTION_TIMEOUT, handler)
  }

  /** Sends a request and opens its transaction. */
  function Launch(a: Agent, branch: Name, request: Request, handler: Handler, now: int): Agent {
    var key := Key(branch, request.verb);
    Say(a, Created(key, request)).(txs := a.txs[key := NewTransaction(a.cfg, request, handler, now)])
  }

  /** `Launch` on a fresh branch. */
  function LaunchFresh(a: Agent, request: Request, handler: Handler, now: int): Agent {
    Launch(a.(names := a.names + 1), a.names, request, handler, now)
  }

  // ---- Registration ----

  function RegisterRequest(a: Agent, expires: nat, authorization: Option<string>): Request {
    Request(REGISTER, Domain, Account, Account, Own(0), a.reg.cseq, Some(expires), authorization, None, None)
  }

  function SendRegister(a: Agent, expires: nat, authorization: Option<string>, now: int): Agent {
    LaunchFresh(a.(reg := a.reg.(cseq := a.reg.cseq + 1, inFlight := true)),
                RegisterRequest(a, expires, authorization), RegisterFinal(expires, authorization.Some?), now)
  }

  function StartRegistration(a: Agent, now: int): Agent {
    if a.shutting then a else
    var b := a.(reg := a.reg.(wanted := true, nextAttempt := None));
    if a.reg.inFlight then b else SendRegister(b, a.cfg.registerExpires, None, now)
  }

  function StopRegistration(a: Agent, now: int): Agent {
    var b := a.(reg := a.reg.(wanted := false, nextAttempt := None));
    if a.reg.registered || a.reg.inFlight then
      SendRegister(b.(reg := b.reg.(registered := false)), 0, None, now)
    else b
  }

  predicate IsSuccess(status: int) { 200 <= status < 300 }

  predicate IsChallenge(status: int) { status == 401 || status == 407 }

  function Refresh(granted: nat): int { Max(granted / 2 * 1000, MINIMUM_REFRESH) }

  /** A wanted registration's outcome: remembered, scheduled again, and reported. */
  function RegistrationOutcome(a: Agent, granted: nat, status: int, now: int): Agent {
    var reg :=
      if IsSuccess(status) then a.reg.(registered := true, nextAttempt := Some(now + Refresh(granted)))
      else if status == 408 || status >= 500 then a.reg.(registered := false, nextAttempt := Some(now + REGISTER_RETRY))
      else a.reg.(registered := false);
    Emit(a.(reg := reg), Event(Registered, 0, status, NoReason))
  }

  function OnRegisterFinal(a: Agent, response: Option<Response>, expires: nat, authenticated: bool, now: int): Agent {
    var b := a.(reg := a.reg.(inFlight := false));
    var status := if response.Some? then response.value.status else 408;
    if response.Some? && IsChallenge(status) && !authenticated && response.value.authorization.Some? then
      SendRegister(b, expires, response.value.authorization, now)
    else if expires == 0 then b
    else if !b.reg.wanted then
      if IsSuccess(status) then SendRegister(b, 0, None, now) else b
    else
      var granted := if response.Some? && response.value.granted.Some? then response.value.granted.value else expires;
      RegistrationOutcome(b, granted, status, now)
  }

  // ---- Media negotiation ----

  /** Whether a far end's description suits this side. */
  predicate Acceptable(cfg: Config, media: Audio) {
    media.OffersPcma() && if cfg.srtp then media.crypto != [] else !media.savp
  }

  /** The crypto line taken from an acceptable description. */
  function ChosenLine(cfg: Config, media: Audio): Option<Crypto> {
    if cfg.srtp && Acceptable(cfg, media) then Some(media.crypto[0]) else None
  }

  function CryptoFor(cfg: Config, c: Call, answering: Option<Audio>): Option<LocalCrypto> {
    if !cfg.srtp then None
    else if answering.Some? && Acceptable(cfg, answering.value) then
      Some(LocalCrypto(answering.value.savp, answering.value.crypto[0].tag, c.srtpKey))
    else Some(LocalCrypto(true, OFFER_TAG, c.srtpKey))
  }

  function SdpFor(cfg: Config, c: Call, answering: Option<Audio>): LocalSdp {
    LocalSdp(c.mediaPort, c.sdpSession, c.sdpVersion, CryptoFor(cfg, c, answering))
  }

  function RemoteMediaFor(cfg: Config, c: Call, media: Audio, line: Option<Crypto>): RemoteMedia {
    RemoteMedia(media.address, media.port,
                if cfg.srtp && line.Some? then Some(MediaKeys(c.srtpKey, line.value.key)) else None)
  }

  /** This side's key for the call; nothing is drawn without SRTP. */
  function NewKey(cfg: Config, host: Host): Option<seq<byte>> {
    if !cfg.srtp then Some([]) else if host.key.Some? then Some(host.key.value) else None
  }

  /** The first crypto line with the given tag. */
  function LineWithTag(lines: seq<Crypto>, tag: nat): Option<Crypto> {
    if lines == [] then None
    else if lines[0].tag == tag then Some(lines[0])
    else LineWithTag(lines[1..], tag)
  }

  /** The line an answer takes up: with SRTP the one with the offer's own tag. */
  function AnswerLine(cfg: Config, answer: Audio): Option<Crypto> {
    if cfg.srtp then LineWithTag(answer.crypto, OFFER_TAG) else None
  }

  /** Media started by the answer to the call's latest INVITE. */
  function StartByAnswer(cfg: Config, c: Call, answer: Audio, ok: bool): MediaAct {
    Started(c.id, RemoteMediaFor(cfg, c, answer, AnswerLine(cfg, answer)), ok, ByAnswer(answer, c.inviteBranch))
  }

  /** Media started by an offer, which this side answers with `local`. */
  function StartByOffer(cfg: Config, c: Call, offer: Audio, local: Option<LocalSdp>, ok: bool): MediaAct {
    Started(c.id, RemoteMediaFor(cfg, c, offer, ChosenLine(cfg, offer)), ok, ByOffer(offer, local))
  }

  predicate UsableAnswer(cfg: Config, answer: Option<Audio>) {
    answer.Some? && Acceptable(cfg, answer.value) && (cfg.srtp ==> AnswerLine(cfg, answer.value).Some?)
  }

  // ---- Ending calls ----

  function EndCall(a: Agent, reason: EndReason, status: int): Agent {
    if a.call.None? then a else
    var c := a.call.value;
    var b := if c.mediaOpen then Do(a, Closed(c.id)) else a;
    Emit(b.(call := None), Event(Ended, c.id, status, reason))
  }

  function OwnReason(a: Agent): EndReason {
    if a.shutting then Shutdown else LocalEnd
  }

  // ---- Outgoing calls ----

  function BadTargetChars(): set<char> { {' ', '\t', '\r', '\n', '<', '>', '\"', '@', ';'} }

  predicate GoodTarget(target: string) {
    target != "" && forall i :: 0 <= i < |target| ==> target[i] !in BadTargetChars()
  }

  const NO_AUDIO: Audio := Audio("", 0, [], false, [])

  function NewOutgoing(a: Agent, id: int, target: string, host: Host): Call {
    var uri := Extension(target);
    Call(id, true, Calling, Own(a.names), a.names + 1, Local(a.names + 1), Callee(uri), Text(""), uri, 1,
         host.port != 0, None, host.port, host.session, 1, [],
         uri, 0, 0, false, false, 0, false, false, None,
         NO_AUDIO, None, 0, 0, 0)
  }

  /** A new outgoing call with its media socket opened, or not. */
  function Begin(a: Agent, id: int, target: string, host: Host): Agent {
    SetCall(Do(a, Opened(id, host.port)).(names := a.names + 2, born := a.born + [Born(id, true)]),
            NewOutgoing(a, id, target, host))
  }

  function Dial(a: Agent, id: int, target: string, host: Host, now: int): Agent {
    var b, key := Begin(a, id, target, host), NewKey(a.cfg, host);
    if host.port == 0 || key.None? then EndCall(b, MediaFailed, 0)
    else SendInvite(SetCall(b, WithOffer(a.cfg, b.call.value.(srtpKey := key.value))), None, now)
  }

  function PlaceCall(a: Agent, id: int, target: string, host: Host, now: int): (CommandResult, Agent) {
    if !GoodTarget(target) then (InvalidArgument, a)
    else if a.call.Some? || a.shutting then (State, a)
    else (Ok, Dial(a, id, target, host, now))
  }

  function WithOffer(cfg: Config, c: Call): Call {
    c.(localSdp := Some(SdpFor(cfg, c, None)), sdpVersion := c.sdpVersion + 1)
  }

  function ContextFor(c: Call, branch: Name): InviteContext {
    InviteContext(c.id, c.inviteUri, c.localHeader, c.sipCallId, c.localCseq, branch)
  }

  function InviteRequest(c: Call, authorization: Option<string>): Request {
    Request(INVITE, c.inviteUri, c.localHeader, Callee(c.inviteUri), c.sipCallId, c.localCseq, None, authorization,
            c.localSdp, Some(c.id))
  }

  function AfterInvite(c: Call, branch: Name): Call {
    c.(localCseq := c.localCseq + 1, inviteCseq := c.localCseq, inviteBranch := branch, provisional := false)
  }

  function SendInvite(a: Agent, authorization: Option<string>, now: int): Agent
    requires a.call.Some?
  {
    var c := a.call.value;
    LaunchFresh(SetCall(a, AfterInvite(c, a.names)), InviteRequest(c, authorization),
                InviteFinal(ContextFor(c, a.names)), now)
  }

  function CancelRequest(c: Call): Request {
    Request(CANCEL, c.inviteUri, c.localHeader, Callee(c.inviteUri), c.sipCallId, c.inviteCseq, None, None, None,
            Some(c.id))
  }

  function SendCancel(a: Agent, now: int): Agent
    requires a.call.Some?
  {
    var c := a.call.value;
    Launch(SetCall(a, c.(cancelSent := true)), c.inviteBranch, CancelRequest(c), Ignore, now)
  }

  function ByeRequest(c: Call): Request {
    Request(BYE, c.remoteTarget, c.localHeader, c.remoteHeader, c.sipCallId, c.localCseq, None, None, None, Some(c.id))
  }

  function SendBye(a: Agent, now: int): Agent
    requires a.call.Some?
  {
    var c := a.call.value;
    LaunchFresh(SetCall(a, c.(localCseq := c.localCseq + 1)), ByeRequest(c), Ignore, now)
  }

  function OnInviteProvisional(a: Agent, callId: int, status: int, now: int): Agent {
    if a.call.None? || a.call.value.id != callId || a.call.value.state != Calling then a else
    var c := a.call.value.(provisional := true);
    if c.cancelRequested && !c.cancelSent then SendCancel(SetCall(a, c), now)
    else if (status == 180 || status == 183) && c.lastProgress != status then
      Emit(SetCall(a, c.(lastProgress := status)), Event(Progress, callId, status, NoReason))
    else SetCall(a, c)
  }

  /** Whether the transaction's call is still the agent's call and this its latest INVITE. */
  predicate Ours(a: Agent, context: InviteContext) {
    a.call.Some? && a.call.value.id == context.callId && a.call.value.inviteBranch == context.branch
  }

  function TargetOf(context: InviteContext, r: Response): Uri {
    if r.contact.Some? then Text(r.contact.value) else context.uri
  }

  function AckFor(context: InviteContext, r: Response, branch: Name): AckMessage {
    AckMessage(TargetOf(context, r), context.from, Header(r.to), context.sipCallId, context.cseq, branch)
  }

  /** The BYE for a dialog whose call this side has given up on. */
  function LateByeRequest(context: InviteContext, r: Response): Request {
    Request(BYE, TargetOf(context, r), context.from, Header(r.to), context.sipCallId, context.cseq + 1, None, None,
            None, Some(context.callId))
  }

  function Confirm(c: Call, context: InviteContext, r: Response, ack: AckMessage): Call {
    c.(ack := Some(ack), remoteHeader := Header(r.to), remoteTarget := TargetOf(context, r), state := Confirmed)
  }

  /** A 2xx: acknowledge it, then take the call up or send it away. */
  function OnInviteSuccess(a: Agent, context: InviteContext, r: Response, host: Host, now: int): Agent {
    var ack := AckFor(context, r, a.names);
    var b := Say(a.(names := a.names + 1), Acked(ack, context.callId));
    if !Ours(a, context) then LaunchFresh(b, LateByeRequest(context, r), Ignore, now)
    else Establish(SetCall(b, Confirm(a.call.value, context, r, ack)), r, host, now)
  }

  function Establish(a: Agent, r: Response, host: Host, now: int): Agent
    requires a.call.Some?
  {
    var c := a.call.value;
    if c.cancelRequested then EndCall(SendBye(a, now), OwnReason(a), 0)
    else if !UsableAnswer(a.cfg, r.answer) then EndCall(SendBye(a, now), MediaFailed, 488)
    else
      var answer := r.answer.value;
      var b := Do(a, StartByAnswer(a.cfg, c, answer, host.startOk));
      if !host.startOk then EndCall(SendBye(b, now), MediaFailed, 488)
      else Emit(b, Event(Answered, c.id, r.status, NoReason))
  }

  /** A final failure for the agent's own call: authenticate once, or end. */
  function OnInviteFailure(a: Agent, response: Option<Response>, now: int): Agent
    requires a.call.Some?
  {
    var c := a.call.value;
    if response.None? then EndCall(a, Timeout, 408)
    else
      var status := response.value.status;
      if IsChallenge(status) && !c.authenticated && !c.cancelRequested && response.value.authorization.Some? then
        SendInvite(SetCall(a, c.(authenticated := true)), response.value.authorization, now)
      else if c.cancelRequested then EndCall(a, OwnReason(a), status)
      else EndCall(a, Rejected, status)
  }

  /** A failure response is acknowledged on the INVITE's own branch. */
  function AckFailure(a: Agent, context: InviteContext, response: Option<Response>): Agent {
    if response.None? then a
    else Say(a, Acked(AckMessage(context.uri, context.from, Header(response.value.to), context.sipCallId, context.cseq,
                                 context.branch), context.callId))
  }

  function OnInviteFinal(a: Agent, context: InviteContext, response: Option<Response>, host: Host, now: int): Agent {
    if response.Some? && response.value.status < 300 then OnInviteSuccess(a, context, response.value, host, now)
    else
      var b := AckFailure(a, context, response);
      if Ours(a, context) then OnInviteFailure(b, response, now) else b
  }

  // ---- Incoming calls ----

  function Respond(a: Agent, q: Query, status: int, tag: Option<Name>): Agent {
    Say(a, Responded(Reply(status, q.callId, tag, None, None), Direct))
  }

  /** With SRTP the description is rebuilt, since it names the crypto line taken. */
  function NextVersion(cfg: Config, c: Call): Call {
    c.(sdpVersion := c.sdpVersion + if cfg.srtp then 1 else 0)
  }

  /** Media is pointed where the new offer says. */
  function Follow(a: Agent, offer: Audio, sdp: Option<LocalSdp>, host: Host): Agent
    requires a.call.Some?
  {
    var c := a.call.value;
    Do(SetCall(a, NextVersion(a.cfg, c)), StartByOffer(a.cfg, c, offer, sdp, host.startOk))
  }

  function Agree(a: Agent, q: Query, sdp: Option<LocalSdp>): Agent
    requires a.call.Some?
  {
    Say(SetCall(a, a.call.value.(localSdp := sdp)),
        Responded(Reply(200, q.callId, None, sdp, Some(a.call.value.id)), Direct))
  }

  function AgreedSdp(cfg: Config, c: Call, offer: Audio): Option<LocalSdp> {
    if cfg.srtp then Some(SdpFor(cfg, c, Some(offer))) else c.localSdp
  }

  /** A re-INVITE inside the dialog is followed if it is usable; this side's key stays. */
  function ReInvite(a: Agent, q: Query, host: Host): Agent
    requires a.call.Some?
  {
    if q.bodyEmpty || q.offer.None? || !Acceptable(a.cfg, q.offer.value) then Respond(a, q, 488, None) else
    var sdp := AgreedSdp(a.cfg, a.call.value, q.offer.value);
    var b := Follow(a, q.offer.value, sdp, host);
    if host.startOk then Agree(b, q, sdp) else Respond(b, q, 488, None)
  }

  function NewIncoming(a: Agent, id: int, q: Query, ringing: Reply): Call
    requires q.offer.Some?
  {
    var target := if q.contact.Some? then Text(q.contact.value) else Text(q.fromUri);
    Call(id, false, Ringing, q.callId, a.names, Tagged(q.to, a.names), Header(q.from), target, Text(q.fromUri), 1,
         false, None, 0, 0, 1, [],
         Text(""), 0, 0, false, false, 0, false, false, None,
         q.offer.value, Some(ringing), 0, 0, 0)
  }

  /** A new incoming call: 180 goes out and the event is reported. */
  function Ring(a: Agent, q: Query, newId: int): Agent
    requires q.offer.Some?
  {
    var ringing := Reply(180, q.callId, Some(a.names), None, None);
    var b := Say(a.(names := a.names + 1, born := a.born + [Born(newId, false)]), Responded(ringing, Direct));
    Emit(SetCall(b, NewIncoming(a, newId, q, ringing)), Event(Incoming, newId, 0, NoReason))
  }

  /** Whether an INVITE opens a new call. */
  predicate OpensCall(a: Agent, q: Query) {
    a.call.None? && !a.shutting && q.offer.Some? && Acceptable(a.cfg, q.offer.value)
  }

  function OnInviteRequest(a: Agent, q: Query, newId: int, host: Host): Agent {
    if a.call.Some? && a.call.value.sipCallId == q.callId then
      var c := a.call.value;
      if !c.outgoing && c.state != Confirmed then
        if c.lastResponse.Some? then Say(a, Responded(c.lastResponse.value, RepeatedInvite)) else a
      else ReInvite(a, q, host)
    else
      var tag, b := Some(a.names), a.(names := a.names + 1);
      if a.call.Some? || a.shutting then Respond(b, q, 486, tag)
      else if q.offer.None? || !Acceptable(a.cfg, q.offer.value) then Respond(b, q, 488, tag)
      else Ring(a, q, newId)
  }

  function AnswerReply(c: Call, status: int, sdp: Option<LocalSdp>): Reply {
    Reply(status, c.sipCallId, Some(c.localTag), sdp, if sdp.Some? then Some(c.id) else None)
  }

  function Opening(c: Call, host: Host): Call {
    c.(mediaOpen := host.port != 0, mediaPort := host.port, sdpSession := host.session)
  }

  function WithAnswer(cfg: Config, c: Call, now: int): Call {
    var sdp := SdpFor(cfg, c, Some(c.offer));
    c.(localSdp := Some(sdp), sdpVersion := c.sdpVersion + 1, lastResponse := Some(AnswerReply(c, 200, Some(sdp))),
       state := Answering, resendInterval := T1, resendAt := now + T1, ackDeadline := now + TRANSACTION_TIMEOUT)
  }

  function OpenFor(a: Agent, host: Host): Agent
    requires a.call.Some?
  {
    SetCall(Do(a, Opened(a.call.value.id, host.port)), Opening(a.call.value, host))
  }

  /** Media starts before the 200 goes out. */
  function StartFor(a: Agent, key: seq<byte>, host: Host): Agent
    requires a.call.Some?
  {
    var c := a.call.value.(srtpKey := key);
    SetCall(Do(a, StartByOffer(a.cfg, c, c.offer, Some(SdpFor(a.cfg, c, Some(c.offer))), host.startOk)), c)
  }

  function SendAnswer(a: Agent, now: int): Agent
    requires a.call.Some?
  {
    var c := WithAnswer(a.cfg, a.call.value, now);
    Say(SetCall(a, c), Responded(c.lastResponse.value, Direct))
  }

  function RefuseAnswer(a: Agent): Agent
    requires a.call.Some?
  {
    EndCall(Say(a, Responded(AnswerReply(a.call.value, 500, None), Direct)), MediaFailed, 500)
  }

  function TakeUp(a: Agent, host: Host, now: int): Agent
    requires a.call.Some?
  {
    var b, key := OpenFor(a, host), NewKey(a.cfg, host);
    if host.port == 0 || key.None? then RefuseAnswer(b)
    else if !host.startOk then RefuseAnswer(StartFor(b, key.value, host))
    else SendAnswer(StartFor(b, key.value, host), now)
  }

  function Answer(a: Agent, id: int, host: Host, now: int): (CommandResult, Agent) {
    if a.call.None? || a.call.value.id != id then (NotFound, a)
    else if a.call.value.outgoing || a.call.value.state != Ringing then (State, a)
    else (Ok, TakeUp(a, host, now))
  }

  function Reject(a: Agent, id: int, status: int): (CommandResult, Agent) {
    if status < 400 || status > 699 then (InvalidArgument, a)
    else if a.call.None? || a.call.value.id != id then (NotFound, a)
    else if a.call.value.outgoing || a.call.value.state != Ringing then (State, a)
    else (Ok, EndCall(Say(a, Responded(AnswerReply(a.call.value, status, None), Direct)), LocalEnd, status))
  }

  /** Giving up a call that has not been answered: CANCEL once a provisional response allows it. */
  function HangupCalling(a: Agent, now: int): Agent
    requires a.call.Some?
  {
    var c := a.call.value;
    if c.cancelRequested then a else
    var b := Say(SetCall(a, c.(cancelRequested := true)), HangupAsked(c.id));
    if c.provisional then SendCancel(b, now) else b
  }

  function Hangup(a: Agent, id: int, now: int): (CommandResult, Agent) {
    if a.call.None? || a.call.value.id != id then (NotFound, a)
    else
      match a.call.value.state
      case Calling =>
        var b := HangupCalling(a, now);
        (Ok, if a.shutting then EndCall(b, Shutdown, 0) else b)
      case Ringing => (Ok, EndCall(Say(a, Responded(AnswerReply(a.call.value, 603, None), Direct)), OwnReason(a), 603))
      case Answering => (Ok, EndCall(SendBye(a, now), OwnReason(a), 0))
      case Confirmed => (Ok, EndCall(SendBye(a, now), OwnReason(a), 0))
  }

  function BeginShutdown(a: Agent, now: int): Agent {
    var b := a.(shutting := true);
    StopRegistration(if a.call.Some? then Hangup(b, a.call.value.id, now).1 else b, now)
  }

  // ---- Dispatch ----

  const NO_HOST: Host := Host(0, None, 0, false)

  function HandleFinal(a: Agent, handler: Handler, response: Option<Response>, host: Host, now: int): Agent {
    match handler
    case RegisterFinal(expires, authenticated) => OnRegisterFinal(a, response, expires, authenticated, now)
    case InviteFinal(context) => OnInviteFinal(a, context, response, host, now)
    case Ignore => a
  }

  /** Closes a live transaction and runs its handler. */
  function Finish(a: Agent, key: Key, response: Option<Response>, host: Host, now: int): Agent
    requires key in a.txs
  {
    HandleFinal(a.(txs := a.txs - {key}), a.txs[key].handler, response, host, now)
  }

  /** What a provisional response does to the timers of its transaction. */
  function Soothe(t: Transaction, now: int): Transaction {
    if t.request.verb == INVITE then t.(retransmitting := false, deadline := now + INVITE_AFTER_PROVISIONAL)
    else t.(interval := T2)
  }

  function OnProvisional(a: Agent, key: Key, status: int, now: int): Agent
    requires key in a.txs
  {
    var b := Say(a, Heard(key)).(txs := a.txs[key := Soothe(a.txs[key], now)]);
    match a.txs[key].handler
    case InviteFinal(context) => OnInviteProvisional(b, context.callId, status, now)
    case _ => b
  }

  function OnResponse(a: Agent, r: Response, host: Host, now: int): Agent {
    if r.verb.None? then a else
    var key := Key(r.branch, r.verb.value);
    if key !in a.txs then
      // a repeated 2xx means our ACK was lost
      if IsSuccess(r.status) && r.verb == Some(INVITE) && a.call.Some? && a.call.value.sipCallId == r.callId
         && a.call.value.ack.Some?
      then Say(a, Acked(a.call.value.ack.value, a.call.value.id)) else a
    else if r.status < 200 then OnProvisional(a, key, r.status, now)
    else Finish(a, key, Some(r), host, now)
  }

  function OnAck(a: Agent, q: Query): Agent {
    if a.call.Some? && !a.call.value.outgoing && a.call.value.state == Answering
       && a.call.value.sipCallId == q.callId then
      Emit(SetCall(a, a.call.value.(state := Confirmed)), Event(Answered, a.call.value.id, 200, NoReason))
    else a
  }

  function OnRequest(a: Agent, q: Query, newId: int, host: Host, now: int): Agent {
    if q.verb == ACK then OnAck(a, q)
    else if !q.complete then Respond(a, q, 400, None)
    else
      var sameCall := a.call.Some? && a.call.value.sipCallId == q.callId;
      match q.verb
      case INVITE => OnInviteRequest(a, q, newId, host)
      case OPTIONS => Respond(a.(names := a.names + 1), q, 200, Some(a.names))
      case BYE => if sameCall then EndCall(Respond(a, q, 200, None), RemoteHangup, 0) else Respond(a, q, 481, None)
      case CANCEL =>
        if !sameCall || a.call.value.outgoing then Respond(a, q, 481, None)
        else
          var b := Respond(a, q, 200, Some(a.call.value.localTag));
          if a.call.value.state != Ringing then b
          else EndCall(Say(b, Responded(AnswerReply(a.call.value, 487, None), Direct)), RemoteCancelled, 487)
      case _ => Respond(a, q, 501, None)
  }

  // ---- Time and connections ----

  /** The order in which a table's keys are visited; it depends on random branches, so any order is possible. */
  ghost predicate IsOrder(order: seq<Key>, keys: set<Key>) {
    && (forall k :: k in keys <==> k in order)
    && (forall i, j :: 0 <= i < j < |order| ==> order[i] != order[j])
  }

  predicate Due(t: Transaction, now: int) { now >= t.deadline }

  predicate RetransmitDue(t: Transaction, now: int) {
    !Due(t, now) && t.retransmitting && now >= t.retransmitAt
  }

  function NextInterval(t: Transaction): int {
    if t.request.verb == INVITE then t.interval * 2 else Min(t.interval * 2, T2)
  }

  function Retransmit(a: Agent, key: Key, now: int): Agent
    requires key in a.txs
  {
    var t := a.txs[key];
    if RetransmitDue(t, now) then
      var later := t.(interval := NextInterval(t), retransmitAt := now + NextInterval(t));
      Say(a, Repeated(key, t.request)).(txs := a.txs[key := later])
    else a
  }

  /** One pass over the table: every transaction whose time has come is sent again. */
  function RetransmitAll(a: Agent, order: seq<Key>, now: int): Agent
    decreases |order|
  {
    if order == [] then a
    else RetransmitAll(if order[0] in a.txs then Retransmit(a, order[0], now) else a, order[1..], now)
  }

  function Expired(a: Agent, order: seq<Key>, now: int): seq<Key> {
    if order == [] then []
    else (if order[0] in a.txs && Due(a.txs[order[0]], now) then [order[0]] else []) + Expired(a, order[1..], now)
  }

  /** Fails the given transactions one after the other. */
  function FailAll(a: Agent, keys: seq<Key>, now: int): Agent
    decreases |keys|
  {
    if keys == [] then a
    else FailAll(if keys[0] in a.txs then Finish(a, keys[0], None, NO_HOST, now) else a, keys[1..], now)
  }

  function TimeAnswer(a: Agent, now: int): Agent {
    if a.call.None? || a.call.value.state != Answering then a else
    var c := a.call.value;
    if now >= c.ackDeadline then EndCall(SendBye(a, now), Timeout, 408)
    else if now >= c.resendAt then
      var b := if c.lastResponse.Some? then Say(a, Responded(c.lastResponse.value, Timer)) else a;
      var interval := Min(c.resendInterval * 2, T2);
      SetCall(b, c.(resendInterval := interval, resendAt := now + interval))
    else a
  }

  function TimeRegistration(a: Agent, now: int): Agent {
    if a.reg.wanted && a.reg.nextAttempt.Some? && now >= a.reg.nextAttempt.value && !a.reg.inFlight then
      SendRegister(a.(reg := a.reg.(nextAttempt := None)), a.cfg.registerExpires, None, now)
    else a
  }

  function OnTimer(a: Agent, order: seq<Key>, now: int): Agent {
    TimeRegistration(TimeAnswer(FailAll(RetransmitAll(a, order, now), Expired(a, order, now), now), now), now)
  }

  /** Runs the handlers of transactions already taken out of the table. */
  function FailDetached(a: Agent, pending: map<Key, Transaction>, keys: seq<Key>, now: int): Agent
    decreases |keys|
  {
    if keys == [] then a
    else FailDetached(if keys[0] in pending then HandleFinal(a, pending[keys[0]].handler, None, NO_HOST, now) else a,
                      pending, keys[1..], now)
  }

  function LoseRegistration(a: Agent): Agent {
    if a.reg.registered then Emit(a.(reg := a.reg.(registered := false)), Event(Registered, 0, 503, NoReason)) else a
  }

  function OnTransportDown(a: Agent, order: seq<Key>, now: int): Agent {
    LoseRegistration(FailDetached(a.(txs := map[]), a.txs, order, now))
  }

  function OnTransportUp(a: Agent, now: int): Agent {
    if a.shutting || !a.reg.wanted || a.reg.inFlight then a
    else SendRegister(a.(reg := a.reg.(nextAttempt := None)), a.cfg.registerExpires, None, now)
  }

  // ---- Runs ----

  datatype Input =
    | Start(now: int)
    | Stop(now: int)
    | Place(id: int, target: string, host: Host, now: int)
    | Pick(id: int, host: Host, now: int)
    | Refuse(id: int, status: int)
    | Drop(id: int, now: int)
    | Quit(now: int)
    | ResponseIn(response: Response, host: Host, now: int)
    | RequestIn(query: Query, newId: int, host: Host, now: int)
    | Tick(order: seq<Key>, now: int)
    | Down(order: seq<Key>, now: int)
    | Up(now: int)
    | Collect

  function Step(a: Agent, i: Input): Agent {
    match i
    case Start(now) => StartRegistration(a, now)
    case Stop(now) => StopRegistration(a, now)
    case Place(id, target, host, now) => PlaceCall(a, id, target, host, now).1
    case Pick(id, host, now) => Answer(a, id, host, now).1
    case Refuse(id, status) => Reject(a, id, status).1
    case Drop(id, now) => Hangup(a, id, now).1
    case Quit(now) => BeginShutdown(a, now)
    case ResponseIn(r, host, now) => OnResponse(a, r, host, now)
    case RequestIn(q, newId, host, now) => OnRequest(a, q, newId, host, now)
    case Tick(order, now) => OnTimer(a, order, now)
    case Down(order, now) => OnTransportDown(a, order, now)
    case Up(now) => OnTransportUp(a, now)
    case Collect => a.(queue := [])
  }

  /** The identifiers of every call so far. */
  ghost predicate Used(a: Agent, id: int) {
    exists i :: 0 <= i < |a.born| && a.born[i].id == id
  }

  /**
   * What the engine guarantees about an input: call identifiers come from one counter and are never reused, and tables
   * are visited once per key.
   */
  ghost predicate Allowed(a: Agent, i: Input) {
    match i
    case Place(id, _, _, _) => !Used(a, id)
    case RequestIn(_, newId, _, _) => !Used(a, newId)
    case Tick(order, _) => IsOrder(order, a.txs.Keys)
    case Down(order, _) => IsOrder(order, a.txs.Keys)
    case _ => true
  }

  ghost predicate AllowedRun(a: Agent, inputs: seq<Input>)
    decreases |inputs|
  {
    inputs == [] || (Allowed(a, inputs[0]) && AllowedRun(Step(a, inputs[0]), inputs[1..]))
  }

  function Run(a: Agent, inputs: seq<Input>): Agent
    decreases |inputs|
  {
    if inputs == [] then a else Run(Step(a, inputs[0]), inputs[1..])
  }
}
