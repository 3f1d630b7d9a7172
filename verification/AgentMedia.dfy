/** The media host and the SRTP keys, over whole runs. */
module AgentMedia {
  import opened Prelude
  import opened AgentTypes
  import opened AgentSpec
  import opened AgentLinks

  // ---- Opening, starting and closing ----

  /** The call whose media socket is open. */
  function Holder(media: seq<MediaAct>): Option<int> {
    if media == [] then None
    else
      match media[|media| - 1]
      case Opened(owner, port) => if port != 0 then Some(owner) else Holder(media[..|media| - 1])
      case Started(_, _, _, _) => Holder(media[..|media| - 1])
      case Closed(_) => None
  }

  /** A socket is opened when none is, and started or closed only by the call that has it open. */
  predicate Fits(before: Option<int>, m: MediaAct) {
    match m
    case Opened(_, port) => port != 0 ==> before == None
    case Started(owner, _, _, _) => before == Some(owner)
    case Closed(owner) => before == Some(owner)
  }

  ghost predicate Orderly(media: seq<MediaAct>) {
    forall i :: 0 <= i < |media| ==> Fits(Holder(media[..i]), media[i])
  }

  function OpenCount(media: seq<MediaAct>): int {
    if media == [] then 0
    else
      var last := media[|media| - 1];
      OpenCount(media[..|media| - 1]) + (if last.Opened? && last.port != 0 then 1 else if last.Closed? then -1 else 0)
  }

  /** Successful opens minus closes is one exactly while some call holds the socket, and zero otherwise. */
  lemma {:induction false} OpenCountIsHolder(media: seq<MediaAct>)
    requires Orderly(media)
    ensures OpenCount(media) == if Holder(media).Some? then 1 else 0
    decreases |media|
  {
    if media != [] {
      var front := media[..|media| - 1];
      forall i | 0 <= i < |front| ensures Fits(Holder(front[..i]), front[i]) {
        assert front[..i] == media[..i];
        assert Fits(Holder(media[..i]), media[i]);
      }
      OpenCountIsHolder(front);
      assert Fits(Holder(media[..|media| - 1]), media[|media| - 1]);
    }
  }

  lemma OrderlyAppend(media: seq<MediaAct>, m: MediaAct)
    requires Orderly(media) && Fits(Holder(media), m)
    ensures Orderly(media + [m])
  {
    var media' := media + [m];
    forall i | 0 <= i < |media'| ensures Fits(Holder(media'[..i]), media'[i]) {
      if i < |media| {
        assert media'[..i] == media[..i];
      } else {
        assert media'[..i] == media;
      }
    }
  }

  lemma HolderAppend(media: seq<MediaAct>, m: MediaAct)
    ensures Holder(media + [m]) == match m
                                   case Opened(owner, port) => if port != 0 then Some(owner) else Holder(media)
                                   case Started(_, _, _, _) => Holder(media)
                                   case Closed(_) => None
  {
    assert (media + [m])[..|media|] == media;
  }

  // ---- Keys: one per call ----

  type Keys = map<int, seq<byte>>

  /** A session description of call `owner` carries that call's key with SRTP, and no key without. */
  ghost predicate SdpOk(cfg: Config, keys: Keys, owner: Option<int>, sdp: Option<LocalSdp>) {
    sdp.Some? ==>
      && owner.Some?
      && if cfg.srtp then
           sdp.value.crypto.Some? && owner.value in keys && sdp.value.crypto.value.key == keys[owner.value]
         else sdp.value.crypto.None?
  }

  ghost predicate WireOk(cfg: Config, keys: Keys, w: Wire) {
    match w
    case Created(_, request) => SdpOk(cfg, keys, request.owner, request.body)
    case Repeated(_, request) => SdpOk(cfg, keys, request.owner, request.body)
    case Responded(reply, _) => SdpOk(cfg, keys, reply.owner, reply.sdp)
    case _ => true
  }

  /** The first crypto line with the tag holds the key. */
  ghost predicate KeyUnder(media: Audio, tag: nat, key: seq<byte>) {
    exists i :: && 0 <= i < |media.crypto| && media.crypto[i].tag == tag && media.crypto[i].key == key
                && forall j :: 0 <= j < i ==> media.crypto[j].tag != tag
  }

  /**
   * The far end's key is the one it put under the tag that this side's answer names or, in an answer to this side's
   * INVITE, under the tag of offers.
   */
  ghost predicate OriginOk(origin: Origin, keys: MediaKeys) {
    match origin
    case ByAnswer(answer, _) => |keys.remote| == KEY_LENGTH && KeyUnder(answer, OFFER_TAG, keys.remote)
    case ByOffer(offer, local) =>
      && local.Some? && local.value.crypto.Some? && local.value.crypto.value.key == keys.local
      && |keys.remote| == KEY_LENGTH && KeyUnder(offer, local.value.crypto.value.tag, keys.remote)
  }

  ghost predicate ActOk(cfg: Config, keys: Keys, m: MediaAct) {
    m.Started? ==>
      if cfg.srtp then
        && m.remote.srtp.Some? && m.owner in keys && m.remote.srtp.value.local == keys[m.owner]
        && OriginOk(m.origin, m.remote.srtp.value)
      else m.remote.srtp.None?
  }

  // ---- Tags ----

  function SdpTag(sdp: Option<LocalSdp>): Option<nat> {
    if sdp.Some? && sdp.value.crypto.Some? then Some(sdp.value.crypto.value.tag) else None
  }

  /** The tag in the description of the call that a message carries, copies of earlier messages aside. */
  function TagIn(w: Wire, id: int): Option<nat> {
    match w
    case Created(_, request) => if request.owner == Some(id) then SdpTag(request.body) else None
    case Responded(reply, cause) => if reply.owner == Some(id) && cause == Direct then SdpTag(reply.sdp) else None
    case _ => None
  }

  /** The tag in the last description sent for the call; that of offers if none was. */
  function LastTag(wire: seq<Wire>, id: int): nat {
    if wire == [] then OFFER_TAG
    else
      var tag := TagIn(wire[|wire| - 1], id);
      if tag.Some? then tag.value else LastTag(wire[..|wire| - 1], id)
  }

  ghost predicate Inherits(wire: seq<Wire>, j: nat)
    requires j < |wire|
  {
    wire[j].Created? && wire[j].request.owner.Some? && SdpTag(wire[j].request.body).Some? ==>
      SdpTag(wire[j].request.body).value == LastTag(wire[..j], wire[j].request.owner.value)
  }

  /** Every INVITE describes this side under the tag of the call's description before it. */
  ghost predicate TagsFollow(wire: seq<Wire>) {
    forall j :: 0 <= j < |wire| ==> Inherits(wire, j)
  }

  ghost predicate CallTagged(a: Agent) {
    a.cfg.srtp && a.call.Some? && a.call.value.outgoing ==>
      SdpTag(a.call.value.localSdp) == Some(LastTag(a.wire, a.call.value.id))
  }

  lemma LastTagAppend(wire: seq<Wire>, w: Wire, id: int)
    ensures LastTag(wire + [w], id) == if TagIn(w, id).Some? then TagIn(w, id).value else LastTag(wire, id)
  {
    assert (wire + [w])[..|wire|] == wire;
  }

  lemma TagsAppend(wire: seq<Wire>, w: Wire)
    requires TagsFollow(wire)
    requires w.Created? && w.request.owner.Some? && SdpTag(w.request.body).Some? ==>
               SdpTag(w.request.body).value == LastTag(wire, w.request.owner.value)
    ensures TagsFollow(wire + [w])
  {
    var wire' := wire + [w];
    forall j | 0 <= j < |wire'| ensures Inherits(wire', j) {
      if j < |wire| {
        assert Inherits(wire, j) && wire'[..j] == wire[..j];
      } else {
        assert wire'[..j] == wire;
      }
    }
  }

  lemma {:induction false} BareKeepsTags(wire: seq<Wire>, wire': seq<Wire>)
    requires TagsFollow(wire) && PlainWire(wire, wire')
    ensures TagsFollow(wire') && forall id :: LastTag(wire', id) == LastTag(wire, id)
    decreases |wire'|
  {
    if |wire| < |wire'| {
      var front, w := wire'[..|wire'| - 1], wire'[|wire'| - 1];
      BareKeepsTags(wire, front);
      assert wire' == front + [w] && Bare(w);
      TagsAppend(front, w);
    } else {
      assert wire' == wire;
    }
  }

  lemma {:induction false} NoTagYet(cfg: Config, keys: Keys, wire: seq<Wire>, id: int)
    requires cfg.srtp && id !in keys && forall i :: 0 <= i < |wire| ==> WireOk(cfg, keys, wire[i])
    ensures LastTag(wire, id) == OFFER_TAG
    decreases |wire|
  {
    if wire != [] {
      assert WireOk(cfg, keys, wire[|wire| - 1]);
      NoTagYet(cfg, keys, wire[..|wire| - 1], id);
    }
  }

  // ---- The invariant ----

  ghost predicate StartedFor(media: seq<MediaAct>, id: int) {
    exists i :: 0 <= i < |media| && media[i].Started? && media[i].owner == id && media[i].ok
  }

  /** Every answered call had its media started. */
  ghost predicate AnsweredStarted(log: seq<Event>, media: seq<MediaAct>) {
    forall i :: 0 <= i < |log| && log[i].kind == Answered ==> StartedFor(media, log[i].callId)
  }

  ghost predicate KeysOk(keys: Keys, born: seq<Born>) {
    forall id :: id in keys ==> IdIn(born, id) && |keys[id]| == KEY_LENGTH
  }

  ghost predicate Traces(a: Agent, keys: Keys) {
    && (forall i :: 0 <= i < |a.wire| ==> WireOk(a.cfg, keys, a.wire[i]))
    && (forall k :: k in a.txs ==> SdpOk(a.cfg, keys, a.txs[k].request.owner, a.txs[k].request.body))
    && (forall i :: 0 <= i < |a.media| ==> ActOk(a.cfg, keys, a.media[i]))
    && Orderly(a.media) && KeysOk(keys, a.born) && AnsweredStarted(a.log, a.media) && TagsFollow(a.wire)
  }

  ghost predicate Held(a: Agent) {
    Holder(a.media) == if a.call.Some? && a.call.value.mediaOpen then Some(a.call.value.id) else None
  }

  /** Whether the call has drawn its key. */
  predicate Keyed(c: Call) { c.outgoing || c.state == Answering || c.state == Confirmed }

  ghost predicate CallSecure(cfg: Config, keys: Keys, c: Call, media: seq<MediaAct>) {
    && (if Keyed(c) then c.mediaOpen && (cfg.srtp ==> c.id in keys && keys[c.id] == c.srtpKey)
        else !c.mediaOpen && c.id !in keys)
    && SdpOk(cfg, keys, Some(c.id), c.localSdp)
    && (c.lastResponse.Some? ==> SdpOk(cfg, keys, c.lastResponse.value.owner, c.lastResponse.value.sdp))
    && (!c.outgoing ==> Acceptable(cfg, c.offer))
    && (c.state == Answering || c.state == Confirmed ==> StartedFor(media, c.id))
  }

  ghost predicate Secured(a: Agent, keys: Keys) {
    && Traces(a, keys) && Held(a) && CallTagged(a)
    && (a.call.Some? ==> CallSecure(a.cfg, keys, a.call.value, a.media) && IdIn(a.born, a.call.value.id))
  }

  // ---- Steps that leave the media alone ----

  /** Traffic grows by messages without a session description or already vouched for. */
  ghost predicate PlainWire(wire: seq<Wire>, wire': seq<Wire>) {
    wire <= wire' && forall i :: |wire| <= i < |wire'| ==> Bare(wire'[i])
  }

  predicate Bare(w: Wire) {
    match w
    case Created(_, request) => request.body.None?
    case Repeated(_, request) => request.body.None?
    case Responded(reply, _) => reply.sdp.None?
    case _ => true
  }

  ghost predicate PlainTxs(txs: map<Key, Transaction>, txs': map<Key, Transaction>) {
    forall k :: k in txs' ==> txs'[k].request.body.None? || (k in txs && txs'[k].request == txs[k].request)
  }

  ghost predicate SameCall(a: Option<Call>, b: Option<Call>) {
    && (a.None? <==> b.None?)
    && (a.Some? ==>
          && a.value.id == b.value.id && a.value.outgoing == b.value.outgoing && a.value.state == b.value.state
          && a.value.mediaOpen == b.value.mediaOpen && a.value.srtpKey == b.value.srtpKey
          && a.value.localSdp == b.value.localSdp && a.value.lastResponse == b.value.lastResponse
          && a.value.offer == b.value.offer)
  }

  ghost predicate NoAnswered(log: seq<Event>, log': seq<Event>) {
    log <= log' && forall i :: |log| <= i < |log'| ==> log'[i].kind != Answered
  }

  ghost predicate PlainTraces(a: Agent, b: Agent) {
    && b.cfg == a.cfg && b.media == a.media && b.born == a.born
    && PlainWire(a.wire, b.wire) && PlainTxs(a.txs, b.txs) && NoAnswered(a.log, b.log)
  }

  lemma PlainKeepsTraces(a: Agent, b: Agent, keys: Keys)
    requires Traces(a, keys) && PlainTraces(a, b)
    ensures Traces(b, keys)
  {
    forall i | 0 <= i < |b.wire| ensures WireOk(b.cfg, keys, b.wire[i]) {
      if i < |a.wire| {
        assert WireOk(a.cfg, keys, a.wire[i]) && b.wire[i] == a.wire[i];
      } else {
        assert Bare(b.wire[i]);
      }
    }
    forall i | 0 <= i < |b.log| && b.log[i].kind == Answered ensures StartedFor(b.media, b.log[i].callId) {
      assert i < |a.log| && a.log[i] == b.log[i];
    }
    BareKeepsTags(a.wire, b.wire);
  }

  lemma PlainKeeps(a: Agent, b: Agent, keys: Keys)
    requires Secured(a, keys) && PlainTraces(a, b) && SameCall(a.call, b.call)
    ensures Secured(b, keys)
  {
    PlainKeepsTraces(a, b, keys);
    BareKeepsTags(a.wire, b.wire);
  }

  lemma RegistrationPlain(a: Agent, now: int)
    ensures PlainTraces(a, StartRegistration(a, now)) && StartRegistration(a, now).call == a.call
    ensures PlainTraces(a, StopRegistration(a, now)) && StopRegistration(a, now).call == a.call
  {
  }

  lemma RetryPlain(a: Agent, now: int)
    ensures PlainTraces(a, OnTransportUp(a, now)) && OnTransportUp(a, now).call == a.call
    ensures PlainTraces(a, TimeRegistration(a, now)) && TimeRegistration(a, now).call == a.call
  {
  }

  lemma RegisterFinalPlain(a: Agent, response: Option<Response>, expires: nat, authenticated: bool, now: int)
    ensures PlainTraces(a, OnRegisterFinal(a, response, expires, authenticated, now))
    ensures OnRegisterFinal(a, response, expires, authenticated, now).call == a.call
  {
  }

  lemma SendByePlain(a: Agent, now: int)
    requires a.call.Some?
    ensures PlainTraces(a, SendBye(a, now)) && SameCall(a.call, SendBye(a, now).call)
  {
  }

  lemma SendCancelPlain(a: Agent, now: int)
    requires a.call.Some?
    ensures PlainTraces(a, SendCancel(a, now)) && SameCall(a.call, SendCancel(a, now).call)
  {
  }

  lemma CloseTraces(a: Agent, keys: Keys, id: int)
    requires Traces(a, keys) && Holder(a.media) == Some(id)
    ensures Traces(Do(a, Closed(id)), keys) && Holder(Do(a, Closed(id)).media) == None
  {
    var b := Do(a, Closed(id));
    OrderlyAppend(a.media, Closed(id));
    HolderAppend(a.media, Closed(id));
    StillStarted(a.log, b.log, a.media, b.media);
  }

  /** Ending a call closes its media if, and only if, it is open. */
  lemma EndSecured(a: Agent, keys: Keys, reason: EndReason, status: int)
    requires Traces(a, keys) && Held(a) && a.call.Some?
    ensures Secured(EndCall(a, reason, status), keys)
  {
    var c := a.call.value;
    var b := if c.mediaOpen then Do(a, Closed(c.id)) else a;
    if c.mediaOpen {
      CloseTraces(a, keys, c.id);
    }
    var s := EndCall(a, reason, status);
    assert PlainTraces(b, s);
    PlainKeepsTraces(b, s, keys);
  }

  lemma StillStarted(log: seq<Event>, log': seq<Event>, media: seq<MediaAct>, media': seq<MediaAct>)
    requires AnsweredStarted(log, media) && NoAnswered(log, log') && media <= media'
    ensures AnsweredStarted(log', media')
  {
    forall i | 0 <= i < |log'| && log'[i].kind == Answered ensures StartedFor(media', log'[i].callId) {
      assert i < |log| && log[i] == log'[i];
      KeepsStart(media, media', log[i].callId);
    }
  }

  lemma KeepsStart(media: seq<MediaAct>, media': seq<MediaAct>, id: int)
    requires media <= media' && StartedFor(media, id)
    ensures StartedFor(media', id)
  {
    var i :| 0 <= i < |media| && media[i].Started? && media[i].owner == id && media[i].ok;
    assert media'[i] == media[i];
  }

  lemma ByeAndEndSecured(a: Agent, keys: Keys, reason: EndReason, status: int, now: int)
    requires Traces(a, keys) && Held(a) && a.call.Some?
    ensures Secured(EndCall(SendBye(a, now), reason, status), keys)
  {
    SendByePlain(a, now);
    PlainKeepsTraces(a, SendBye(a, now), keys);
    EndSecured(SendBye(a, now), keys, reason, status);
  }

  // ---- Starting media ----

  lemma StartTraces(a: Agent, keys: Keys, m: MediaAct)
    requires Traces(a, keys) && m.Started? && Holder(a.media) == Some(m.owner) && ActOk(a.cfg, keys, m)
    ensures Traces(Do(a, m), keys) && Holder(Do(a, m).media) == Holder(a.media)
    ensures m.ok ==> StartedFor(Do(a, m).media, m.owner)
  {
    var b := Do(a, m);
    OrderlyAppend(a.media, m);
    HolderAppend(a.media, m);
    StillStarted(a.log, b.log, a.media, b.media);
    assert b.media[|a.media|] == m;
  }

  lemma CallStillSecure(cfg: Config, keys: Keys, c: Call, media: seq<MediaAct>, media': seq<MediaAct>)
    requires CallSecure(cfg, keys, c, media) && media <= media'
    ensures CallSecure(cfg, keys, c, media')
  {
    if c.state == Answering || c.state == Confirmed {
      KeepsStart(media, media', c.id);
    }
  }

  lemma StartSecured(a: Agent, keys: Keys, m: MediaAct)
    requires Secured(a, keys) && a.call.Some? && Keyed(a.call.value) && m.Started? && m.owner == a.call.value.id
    requires ActOk(a.cfg, keys, m)
    ensures Secured(Do(a, m), keys)
    ensures m.ok ==> StartedFor(Do(a, m).media, m.owner)
  {
    StartTraces(a, keys, m);
    CallStillSecure(a.cfg, keys, a.call.value, a.media, Do(a, m).media);
  }

  lemma {:induction false} LineFound(lines: seq<Crypto>, tag: nat)
    requires LineWithTag(lines, tag).Some?
    ensures exists i :: && 0 <= i < |lines| && lines[i] == LineWithTag(lines, tag).value && lines[i].tag == tag
                        && forall j :: 0 <= j < i ==> lines[j].tag != tag
    decreases |lines|
  {
    if lines[0].tag != tag {
      var rest := lines[1..];
      LineFound(rest, tag);
      var i :| && 0 <= i < |rest| && rest[i] == LineWithTag(rest, tag).value && rest[i].tag == tag
               && forall j :: 0 <= j < i ==> rest[j].tag != tag;
      assert lines[i + 1] == rest[i] && forall j :: 1 <= j < i + 1 ==> lines[j] == rest[j - 1];
    }
  }

  lemma TaggedKey(media: Audio, tag: nat)
    requires LineWithTag(media.crypto, tag).Some?
    ensures KeyUnder(media, tag, LineWithTag(media.crypto, tag).value.key)
  {
    LineFound(media.crypto, tag);
  }

  lemma FirstKey(media: Audio)
    requires media.crypto != []
    ensures KeyUnder(media, media.crypto[0].tag, media.crypto[0].key)
  {
  }

  // ---- Outgoing calls ----

  lemma OpenTraces(a: Agent, keys: Keys, b: Agent, id: int, port: nat)
    requires Traces(a, keys) && Holder(a.media) == None
    requires b.cfg == a.cfg && b.txs == a.txs && b.wire == a.wire && b.log == a.log
             && b.media == a.media + [Opened(id, port)]
    requires a.born <= b.born
    ensures Traces(b, keys) && Holder(b.media) == if port != 0 then Some(id) else None
  {
    OrderlyAppend(a.media, Opened(id, port));
    HolderAppend(a.media, Opened(id, port));
    StillStarted(a.log, b.log, a.media, b.media);
    forall i | i in keys ensures IdIn(b.born, i) {
      BornStays(a.born, b.born, i);
    }
  }

  /** A new key for a call that has none. */
  lemma AddKeyTraces(a: Agent, keys: Keys, id: int, key: seq<byte>)
    requires Traces(a, keys) && id !in keys && IdIn(a.born, id) && |key| == KEY_LENGTH
    ensures Traces(a, keys[id := key])
  {
    var keys' := keys[id := key];
    forall i | 0 <= i < |a.wire| ensures WireOk(a.cfg, keys', a.wire[i]) {
      assert WireOk(a.cfg, keys, a.wire[i]);
    }
  }

  /** The assignment after a call draws its key; without SRTP nothing is drawn. */
  function WithKey(cfg: Config, keys: Keys, id: int, key: seq<byte>): Keys {
    if cfg.srtp then keys[id := key] else keys
  }

  lemma SendInviteSecured(a: Agent, keys: Keys, authorization: Option<string>, now: int)
    requires Secured(a, keys) && a.call.Some? && a.call.value.outgoing
    ensures Secured(SendInvite(a, authorization, now), keys)
  {
    var c, s := a.call.value, SendInvite(a, authorization, now);
    var w := Created(Key(a.names, INVITE), InviteRequest(c, authorization));
    assert s.wire == a.wire + [w];
    LastTagAppend(a.wire, w, c.id);
    TagsAppend(a.wire, w);
    assert s.txs == a.txs[Key(a.names, INVITE) := s.txs[Key(a.names, INVITE)]];
    assert SameCall(a.call, s.call);
  }

  /** Dialling: the key drawn is the call's key from then on. */
  lemma DialSecured(a: Agent, keys: Keys, id: int, target: string, host: Host, now: int) returns (keys': Keys)
    requires Secured(a, keys) && a.call.None? && !IdIn(a.born, id)
    ensures Secured(Dial(a, id, target, host, now), keys')
  {
    var b, key := Begin(a, id, target, host), NewKey(a.cfg, host);
    assert b.born[|a.born|].id == id;
    OpenTraces(a, keys, b, id, host.port);
    if host.port == 0 || key.None? {
      EndSecured(b, keys, MediaFailed, 0);
      keys' := keys;
    } else {
      keys' := WithKey(a.cfg, keys, id, key.value);
      if a.cfg.srtp {
        AddKeyTraces(b, keys, id, key.value);
      }
      var d := SetCall(b, WithOffer(a.cfg, b.call.value.(srtpKey := key.value)));
      assert Traces(d, keys');
      assert CallSecure(d.cfg, keys', d.call.value, d.media);
      if a.cfg.srtp {
        NoTagYet(a.cfg, keys, a.wire, id);
      }
      SendInviteSecured(d, keys', None, now);
    }
  }

  /** The start of an answered call uses its own key and, with SRTP, the line the answer names by the offer's tag. */
  lemma EstablishAct(cfg: Config, keys: Keys, c: Call, media: seq<MediaAct>, answer: Audio, ok: bool)
    requires CallSecure(cfg, keys, c, media) && c.outgoing && UsableAnswer(cfg, Some(answer))
    ensures ActOk(cfg, keys, StartByAnswer(cfg, c, answer, ok))
  {
    if cfg.srtp {
      TaggedKey(answer, OFFER_TAG);
    }
  }

  /** The 2xx makes the call `Confirmed`; its media has not been started yet. */
  ghost predicate AlmostSecured(a: Agent, keys: Keys) {
    && Traces(a, keys) && Held(a) && CallTagged(a) && a.call.Some? && a.call.value.outgoing
    && a.call.value.state == Confirmed
    && CallSecure(a.cfg, keys, a.call.value.(state := Calling), a.media) && IdIn(a.born, a.call.value.id)
  }

  lemma EstablishSecured(a: Agent, keys: Keys, r: Response, host: Host, now: int)
    requires AlmostSecured(a, keys)
    ensures Secured(Establish(a, r, host, now), keys)
  {
    var c := a.call.value;
    if c.cancelRequested {
      ByeAndEndSecured(a, keys, OwnReason(a), 0, now);
    } else if !UsableAnswer(a.cfg, r.answer) {
      ByeAndEndSecured(a, keys, MediaFailed, 488, now);
    } else {
      var answer := r.answer.value;
      var m := StartByAnswer(a.cfg, c, answer, host.startOk);
      var b := Do(a, m);
      EstablishAct(a.cfg, keys, c.(state := Calling), a.media, answer, host.startOk);
      StartTraces(a, keys, m);
      if !host.startOk {
        ByeAndEndSecured(b, keys, MediaFailed, 488, now);
      } else {
        AnsweredSecured(a, b, keys, r.status);
      }
    }
  }

  lemma AnsweredSecured(a: Agent, b: Agent, keys: Keys, status: int)
    requires AlmostSecured(a, keys) && Traces(b, keys) && Held(b) && b.call == a.call && b.cfg == a.cfg
             && b.born == a.born
    requires a.media <= b.media && b.wire == a.wire && StartedFor(b.media, b.call.value.id)
    ensures Secured(Emit(b, Event(Answered, b.call.value.id, status, NoReason)), keys)
  {
    var s := Emit(b, Event(Answered, b.call.value.id, status, NoReason));
    forall i | 0 <= i < |s.log| && s.log[i].kind == Answered ensures StartedFor(s.media, s.log[i].callId) {
      if i < |b.log| {
        assert b.log[i] == s.log[i];
      }
    }
  }

  lemma LateByePlain(b: Agent, context: InviteContext, r: Response, now: int)
    ensures var s := LaunchFresh(b, LateByeRequest(context, r), Ignore, now); PlainTraces(b, s) && s.call == b.call
  {
  }

  lemma InviteSuccessSecured(a: Agent, keys: Keys, context: InviteContext, r: Response, host: Host, now: int)
    requires Secured(a, keys) && (Ours(a, context) ==> a.call.value.outgoing && a.call.value.state == Calling)
    ensures Secured(OnInviteSuccess(a, context, r, host, now), keys)
  {
    var ack := AckFor(context, r, a.names);
    var b := Say(a.(names := a.names + 1), Acked(ack, context.callId));
    if Ours(a, context) {
      OursSecured(a, SetCall(b, Confirm(a.call.value, context, r, ack)), keys, context, r, host, now);
    } else {
      SayKeeps(a, b, keys, Acked(ack, context.callId));
      LateSecured(b, keys, context, r, now);
    }
  }

  lemma OursSecured(a: Agent, d: Agent, keys: Keys, context: InviteContext, r: Response, host: Host, now: int)
    requires Secured(a, keys) && a.call.Some? && a.call.value.outgoing && a.call.value.state == Calling
    requires var ack := AckFor(context, r, a.names);
             d == a.(names := a.names + 1, wire := a.wire + [Acked(ack, context.callId)],
                     call := Some(Confirm(a.call.value, context, r, ack)))
    ensures Secured(Establish(d, r, host, now), keys)
  {
    ConfirmAlmost(a, d, keys, Acked(AckFor(context, r, a.names), context.callId));
    EstablishSecured(d, keys, r, host, now);
  }

  lemma SayKeeps(a: Agent, b: Agent, keys: Keys, w: Wire)
    requires Secured(a, keys) && Bare(w) && b == a.(wire := a.wire + [w], names := b.names)
    ensures Secured(b, keys)
  {
    PlainKeeps(a, b, keys);
  }

  lemma LateSecured(b: Agent, keys: Keys, context: InviteContext, r: Response, now: int)
    requires Secured(b, keys)
    ensures Secured(LaunchFresh(b, LateByeRequest(context, r), Ignore, now), keys)
  {
    LateByePlain(b, context, r, now);
    PlainKeeps(b, LaunchFresh(b, LateByeRequest(context, r), Ignore, now), keys);
  }

  lemma ConfirmAlmost(a: Agent, d: Agent, keys: Keys, w: Wire)
    requires Secured(a, keys) && a.call.Some? && a.call.value.outgoing && a.call.value.state == Calling && Bare(w)
    requires d == a.(wire := a.wire + [w], names := d.names, call := d.call) && d.call.Some?
    requires d.call.value.state == Confirmed && SameCall(a.call, Some(d.call.value.(state := Calling)))
    ensures AlmostSecured(d, keys)
  {
    PlainKeepsTraces(a, d, keys);
    BareKeepsTags(a.wire, d.wire);
  }

  lemma InviteFailureSecured(a: Agent, keys: Keys, response: Option<Response>, now: int)
    requires Secured(a, keys) && a.call.Some? && a.call.value.outgoing
    ensures Secured(OnInviteFailure(a, response, now), keys)
  {
    var c := a.call.value;
    if response.None? {
      EndSecured(a, keys, Timeout, 408);
    } else if IsChallenge(response.value.status) && !c.authenticated && !c.cancelRequested
              && response.value.authorization.Some? {
      var b := SetCall(a, c.(authenticated := true));
      PlainKeeps(a, b, keys);
      SendInviteSecured(b, keys, response.value.authorization, now);
    } else {
      EndSecured(a, keys, if c.cancelRequested then OwnReason(a) else Rejected, response.value.status);
    }
  }

  lemma RemoveSecured(a: Agent, keys: Keys, key: Key)
    requires Secured(a, keys)
    ensures Secured(a.(txs := a.txs - {key}), keys)
  {
    PlainKeeps(a, a.(txs := a.txs - {key}), keys);
  }

  lemma InviteFinalSecured(a: Agent, keys: Keys, context: InviteContext, response: Option<Response>, host: Host,
                           now: int)
    requires Secured(a, keys) && (Ours(a, context) ==> a.call.value.outgoing && a.call.value.state == Calling)
    ensures Secured(OnInviteFinal(a, context, response, host, now), keys)
  {
    if response.Some? && response.value.status < 300 {
      InviteSuccessSecured(a, keys, context, response.value, host, now);
    } else {
      var b := AckFailure(a, context, response);
      assert PlainTraces(a, b);
      PlainKeeps(a, b, keys);
      if Ours(a, context) {
        InviteFailureSecured(b, keys, response, now);
      }
    }
  }

  lemma FinishSecured(a: Agent, keys: Keys, key: Key, response: Option<Response>, host: Host, now: int)
    requires Secured(a, keys) && Linked(a) && key in a.txs
    ensures Secured(Finish(a, key, response, host, now), keys)
  {
    var b := a.(txs := a.txs - {key});
    RemoveSecured(a, keys, key);
    match a.txs[key].handler
    case InviteFinal(context) =>
      OursIsDialling(a, key);
      InviteFinalSecured(b, keys, context, response, host, now);
    case RegisterFinal(expires, authenticated) =>
      RegisterFinalPlain(b, response, expires, authenticated, now);
      PlainKeeps(b, OnRegisterFinal(b, response, expires, authenticated, now), keys);
    case Ignore =>
  }

  lemma {:induction false} FailAllSecured(a: Agent, keys: Keys, list: seq<Key>, now: int)
    requires Secured(a, keys) && Linked(a)
    ensures Secured(FailAll(a, list, now), keys)
    decreases |list|
  {
    if list != [] {
      if list[0] in a.txs {
        FinishSecured(a, keys, list[0], None, NO_HOST, now);
        FinishLinked(a, list[0], None, NO_HOST, now);
      }
      FailAllSecured(if list[0] in a.txs then Finish(a, list[0], None, NO_HOST, now) else a, keys, list[1..], now);
    }
  }

  lemma RetransmitSecured(a: Agent, keys: Keys, key: Key, now: int)
    requires Secured(a, keys) && key in a.txs
    ensures Secured(Retransmit(a, key, now), keys)
  {
    var t, b := a.txs[key], Retransmit(a, key, now);
    if RetransmitDue(t, now) {
      assert b.wire == a.wire + [Repeated(key, t.request)];
      TagsAppend(a.wire, Repeated(key, t.request));
      if a.call.Some? {
        LastTagAppend(a.wire, Repeated(key, t.request), a.call.value.id);
      }
      assert SdpOk(a.cfg, keys, t.request.owner, t.request.body);
    }
  }

  lemma {:induction false} RetransmitAllSecured(a: Agent, keys: Keys, order: seq<Key>, now: int)
    requires Secured(a, keys)
    ensures Secured(RetransmitAll(a, order, now), keys)
    decreases |order|
  {
    if order != [] {
      if order[0] in a.txs {
        RetransmitSecured(a, keys, order[0], now);
      }
      RetransmitAllSecured(if order[0] in a.txs then Retransmit(a, order[0], now) else a, keys, order[1..], now);
    }
  }

  lemma InviteProvisionalPlain(a: Agent, callId: int, status: int, now: int)
    ensures var s := OnInviteProvisional(a, callId, status, now); PlainTraces(a, s) && SameCall(a.call, s.call)
  {
    if a.call.Some? && a.call.value.id == callId && a.call.value.state == Calling {
      var c := a.call.value.(provisional := true);
      if c.cancelRequested && !c.cancelSent {
        CancelNowPlain(a, c, now);
        assert OnInviteProvisional(a, callId, status, now) == SendCancel(SetCall(a, c), now);
      } else if (status == 180 || status == 183) && c.lastProgress != status {
        ProgressPlain(a, c, status);
      } else {
        MarkedPlain(a, c);
      }
    }
  }

  lemma CancelNowPlain(a: Agent, c: Call, now: int)
    requires SameCall(a.call, Some(c))
    ensures var s := SendCancel(SetCall(a, c), now); PlainTraces(a, s) && SameCall(a.call, s.call)
  {
    SendCancelPlain(SetCall(a, c), now);
  }

  lemma MarkedPlain(a: Agent, c: Call)
    requires SameCall(a.call, Some(c))
    ensures PlainTraces(a, SetCall(a, c))
  {
  }

  lemma ProgressPlain(a: Agent, c: Call, status: int)
    requires SameCall(a.call, Some(c))
    ensures var s := Emit(SetCall(a, c.(lastProgress := status)), Event(Progress, c.id, status, NoReason));
            PlainTraces(a, s) && SameCall(a.call, s.call)
  {
  }

  lemma InviteProvisionalSecured(a: Agent, keys: Keys, callId: int, status: int, now: int)
    requires Secured(a, keys)
    ensures Secured(OnInviteProvisional(a, callId, status, now), keys)
  {
    InviteProvisionalPlain(a, callId, status, now);
    PlainKeeps(a, OnInviteProvisional(a, callId, status, now), keys);
  }

  lemma ProvisionalSecured(a: Agent, keys: Keys, key: Key, status: int, now: int)
    requires Secured(a, keys) && key in a.txs
    ensures Secured(OnProvisional(a, key, status, now), keys)
  {
    var b := Say(a, Heard(key)).(txs := a.txs[key := Soothe(a.txs[key], now)]);
    PlainKeeps(a, b, keys);
    if a.txs[key].handler.InviteFinal? {
      InviteProvisionalSecured(b, keys, a.txs[key].handler.context.callId, status, now);
    }
  }

  lemma ResponseSecured(a: Agent, keys: Keys, r: Response, host: Host, now: int)
    requires Secured(a, keys) && Linked(a)
    ensures Secured(OnResponse(a, r, host, now), keys)
  {
    if r.verb.Some? && Key(r.branch, r.verb.value) in a.txs {
      var key := Key(r.branch, r.verb.value);
      if r.status < 200 {
        ProvisionalSecured(a, keys, key, r.status, now);
      } else {
        FinishSecured(a, keys, key, Some(r), host, now);
      }
    } else {
      PlainKeeps(a, OnResponse(a, r, host, now), keys);
    }
  }

  // ---- Incoming calls and commands ----

  /** Following a re-INVITE: this side's key stays, and with SRTP the reply names the line taken. */
  lemma ReInviteAct(cfg: Config, keys: Keys, c: Call, media: seq<MediaAct>, offer: Audio, ok: bool)
    requires CallSecure(cfg, keys, c, media) && Keyed(c) && Acceptable(cfg, offer)
    ensures ActOk(cfg, keys, StartByOffer(cfg, c, offer, AgreedSdp(cfg, c, offer), ok))
    ensures SdpOk(cfg, keys, Some(c.id), AgreedSdp(cfg, c, offer))
    ensures cfg.srtp ==> SdpTag(AgreedSdp(cfg, c, offer)).Some?
  {
    if cfg.srtp {
      FirstKey(offer);
    }
  }

  lemma ReInviteSecured(a: Agent, keys: Keys, q: Query, host: Host)
    requires Secured(a, keys) && a.call.Some? && Keyed(a.call.value)
    ensures Secured(ReInvite(a, q, host), keys)
  {
    if q.bodyEmpty || q.offer.None? || !Acceptable(a.cfg, q.offer.value) {
      PlainKeeps(a, Respond(a, q, 488, None), keys);
    } else {
      var sdp := AgreedSdp(a.cfg, a.call.value, q.offer.value);
      var b := Follow(a, q.offer.value, sdp, host);
      FollowSecured(a, keys, q.offer.value, host);
      ReInviteAct(a.cfg, keys, a.call.value, a.media, q.offer.value, host.startOk);
      RepliedSecured(b, keys, q, sdp);
      assert ReInvite(a, q, host) == if host.startOk then Agree(b, q, sdp) else Respond(b, q, 488, None);
    }
  }

  lemma RepliedSecured(b: Agent, keys: Keys, q: Query, sdp: Option<LocalSdp>)
    requires Secured(b, keys) && b.call.Some? && SdpOk(b.cfg, keys, Some(b.call.value.id), sdp)
    requires b.cfg.srtp ==> SdpTag(sdp).Some?
    ensures Secured(Agree(b, q, sdp), keys) && Secured(Respond(b, q, 488, None), keys)
  {
    AgreeSecured(b, keys, q, sdp);
    PlainKeeps(b, Respond(b, q, 488, None), keys);
  }

  lemma FollowSecured(a: Agent, keys: Keys, offer: Audio, host: Host)
    requires Secured(a, keys) && a.call.Some? && Keyed(a.call.value) && Acceptable(a.cfg, offer)
    ensures var b := Follow(a, offer, AgreedSdp(a.cfg, a.call.value, offer), host);
            Secured(b, keys) && b.cfg == a.cfg && b.call.Some? && b.call.value.id == a.call.value.id
  {
    var c := a.call.value;
    var d := SetCall(a, NextVersion(a.cfg, c));
    var m := StartByOffer(a.cfg, c, offer, AgreedSdp(a.cfg, c, offer), host.startOk);
    assert Follow(a, offer, AgreedSdp(a.cfg, c, offer), host) == Do(d, m);
    assert ActOk(a.cfg, keys, m) by {
      ReInviteAct(a.cfg, keys, c, a.media, offer, host.startOk);
    }
    PlainKeeps(a, d, keys);
    StartSecured(d, keys, m);
  }

  lemma AgreeSecured(b: Agent, keys: Keys, q: Query, sdp: Option<LocalSdp>)
    requires Secured(b, keys) && b.call.Some? && SdpOk(b.cfg, keys, Some(b.call.value.id), sdp)
    requires b.cfg.srtp ==> SdpTag(sdp).Some?
    ensures Secured(Agree(b, q, sdp), keys)
  {
    var w := Responded(Reply(200, q.callId, None, sdp, Some(b.call.value.id)), Direct);
    TagsAppend(b.wire, w);
    LastTagAppend(b.wire, w, b.call.value.id);
  }

  lemma RingSecured(a: Agent, keys: Keys, q: Query, newId: int)
    requires Secured(a, keys) && a.call.None? && !IdIn(a.born, newId) && q.offer.Some?
             && Acceptable(a.cfg, q.offer.value)
    ensures Secured(Ring(a, q, newId), keys)
  {
    var s := Ring(a, q, newId);
    var b := a.(born := s.born);
    assert s.born[|a.born|].id == newId;
    forall i | i in keys ensures IdIn(b.born, i) {
      BornStays(a.born, b.born, i);
    }
    assert Traces(b, keys);
    assert PlainTraces(b, s);
    PlainKeepsTraces(b, s, keys);
  }

  lemma InviteRequestSecured(a: Agent, keys: Keys, q: Query, newId: int, host: Host)
    requires Secured(a, keys) && !IdIn(a.born, newId)
    ensures Secured(OnInviteRequest(a, q, newId, host), keys)
  {
    if a.call.Some? && a.call.value.sipCallId == q.callId {
      var c := a.call.value;
      if !c.outgoing && c.state != Confirmed {
        RepeatLastSecured(a, keys);
      } else {
        ReInviteSecured(a, keys, q, host);
      }
    } else if OpensCall(a, q) {
      RingSecured(a, keys, q, newId);
    } else {
      var s := OnInviteRequest(a, q, newId, host);
      assert PlainTraces(a, s) && s.call == a.call;
      PlainKeeps(a, s, keys);
    }
  }

  lemma RepeatLastSecured(a: Agent, keys: Keys)
    requires Secured(a, keys) && a.call.Some?
    ensures a.call.value.lastResponse.Some? ==>
              && Secured(Say(a, Responded(a.call.value.lastResponse.value, RepeatedInvite)), keys)
              && Secured(Say(a, Responded(a.call.value.lastResponse.value, Timer)), keys)
  {
    var c := a.call.value;
    if c.lastResponse.Some? {
      TagsAppend(a.wire, Responded(c.lastResponse.value, RepeatedInvite));
      LastTagAppend(a.wire, Responded(c.lastResponse.value, RepeatedInvite), c.id);
      TagsAppend(a.wire, Responded(c.lastResponse.value, Timer));
      LastTagAppend(a.wire, Responded(c.lastResponse.value, Timer), c.id);
    }
  }

  lemma AckSecured(a: Agent, keys: Keys, q: Query)
    requires Secured(a, keys)
    ensures Secured(OnAck(a, q), keys)
  {
    var s := OnAck(a, q);
    if s != a {
      forall i | 0 <= i < |s.log| && s.log[i].kind == Answered ensures StartedFor(s.media, s.log[i].callId) {
        if i < |a.log| {
          assert a.log[i] == s.log[i];
        }
      }
    }
  }

  lemma SaidAndEnded(a: Agent, b: Agent, keys: Keys, reason: EndReason, status: int)
    requires Secured(a, keys) && PlainTraces(a, b) && b.call == a.call && a.call.Some?
    ensures Secured(EndCall(b, reason, status), keys)
  {
    PlainKeepsTraces(a, b, keys);
    EndSecured(b, keys, reason, status);
  }

  lemma RequestPlain(a: Agent, q: Query, newId: int, host: Host, now: int)
    requires q.verb != ACK && (q.complete ==> q.verb != INVITE)
    requires q.complete && a.call.Some? && a.call.value.sipCallId == q.callId ==>
               q.verb != BYE && (q.verb == CANCEL ==> a.call.value.outgoing || a.call.value.state != Ringing)
    ensures PlainTraces(a, OnRequest(a, q, newId, host, now)) && OnRequest(a, q, newId, host, now).call == a.call
  {
  }

  lemma RequestSecured(a: Agent, keys: Keys, q: Query, newId: int, host: Host, now: int)
    requires Secured(a, keys) && !IdIn(a.born, newId)
    ensures Secured(OnRequest(a, q, newId, host, now), keys)
  {
    var sameCall := a.call.Some? && a.call.value.sipCallId == q.callId;
    if q.verb == ACK {
      AckSecured(a, keys, q);
    } else if q.complete && q.verb == INVITE {
      InviteRequestSecured(a, keys, q, newId, host);
    } else if q.complete && q.verb == BYE && sameCall {
      SaidAndEnded(a, Respond(a, q, 200, None), keys, RemoteHangup, 0);
    } else if q.complete && q.verb == CANCEL && sameCall && !a.call.value.outgoing && a.call.value.state == Ringing {
      var b := Respond(a, q, 200, Some(a.call.value.localTag));
      SaidAndEnded(a, Say(b, Responded(AnswerReply(a.call.value, 487, None), Direct)), keys, RemoteCancelled, 487);
    } else {
      RequestPlain(a, q, newId, host, now);
      PlainKeeps(a, OnRequest(a, q, newId, host, now), keys);
    }
  }

  lemma RefuseSecured(a: Agent, keys: Keys)
    requires Traces(a, keys) && Held(a) && a.call.Some?
    ensures Secured(RefuseAnswer(a), keys)
  {
    var b := Say(a, Responded(AnswerReply(a.call.value, 500, None), Direct));
    assert PlainTraces(a, b);
    PlainKeepsTraces(a, b, keys);
    EndSecured(b, keys, MediaFailed, 500);
  }

  /** Answering draws the call's key, and with SRTP the 200 names the line whose key the media uses. */
  lemma TakeUpSecured(a: Agent, keys: Keys, host: Host, now: int) returns (keys': Keys)
    requires Secured(a, keys) && a.call.Some? && !a.call.value.outgoing && a.call.value.state == Ringing
    ensures Secured(TakeUp(a, host, now), keys')
  {
    var c, b, key := a.call.value, OpenFor(a, host), NewKey(a.cfg, host);
    keys' := keys;
    OpenTraces(a, keys, b, c.id, host.port);
    if host.port == 0 || key.None? {
      RefuseSecured(b, keys);
    } else {
      keys' := WithKey(a.cfg, keys, c.id, key.value);
      if a.cfg.srtp {
        AddKeyTraces(b, keys, c.id, key.value);
      }
      StartForSecured(b, keys', key.value, host, now);
    }
  }

  lemma StartForSecured(b: Agent, keys: Keys, key: seq<byte>, host: Host, now: int)
    requires b.call.Some? && !b.call.value.outgoing && b.call.value.mediaOpen
    requires Traces(b, keys) && Held(b) && Acceptable(b.cfg, b.call.value.offer) && IdIn(b.born, b.call.value.id)
    requires b.cfg.srtp ==> b.call.value.id in keys && keys[b.call.value.id] == key
    ensures var e := StartFor(b, key, host);
            Secured(if host.startOk then SendAnswer(e, now) else RefuseAnswer(e), keys)
  {
    var c := b.call.value.(srtpKey := key);
    var m := StartByOffer(b.cfg, c, c.offer, Some(SdpFor(b.cfg, c, Some(c.offer))), host.startOk);
    var e := StartFor(b, key, host);
    if b.cfg.srtp {
      FirstKey(c.offer);
    }
    StartTraces(b, keys, m);
    assert Traces(e, keys);
    if host.startOk {
      SendAnswerSecured(e, keys, now);
    } else {
      RefuseSecured(e, keys);
    }
  }

  lemma SendAnswerSecured(e: Agent, keys: Keys, now: int)
    requires e.call.Some? && !e.call.value.outgoing && e.call.value.mediaOpen && StartedFor(e.media, e.call.value.id)
    requires Traces(e, keys) && Held(e) && Acceptable(e.cfg, e.call.value.offer) && IdIn(e.born, e.call.value.id)
    requires e.cfg.srtp ==> e.call.value.id in keys && keys[e.call.value.id] == e.call.value.srtpKey
    ensures Secured(SendAnswer(e, now), keys)
  {
    TagsAppend(e.wire, Responded(WithAnswer(e.cfg, e.call.value, now).lastResponse.value, Direct));
  }

  lemma RejectSecured(a: Agent, keys: Keys, id: int, status: int)
    requires Secured(a, keys)
    ensures Secured(Reject(a, id, status).1, keys)
  {
    if Reject(a, id, status).0 == Ok {
      SaidAndEnded(a, Say(a, Responded(AnswerReply(a.call.value, status, None), Direct)), keys, LocalEnd, status);
    }
  }

  lemma HangupCallingPlain(a: Agent, now: int)
    requires a.call.Some?
    ensures PlainTraces(a, HangupCalling(a, now)) && SameCall(a.call, HangupCalling(a, now).call)
  {
    var c := a.call.value;
    SendCancelPlain(Say(SetCall(a, c.(cancelRequested := true)), HangupAsked(c.id)), now);
  }

  lemma HangupSecured(a: Agent, keys: Keys, id: int, now: int)
    requires Secured(a, keys)
    ensures Secured(Hangup(a, id, now).1, keys)
  {
    if a.call.Some? && a.call.value.id == id {
      match a.call.value.state
      case Calling =>
        var b := HangupCalling(a, now);
        HangupCallingPlain(a, now);
        PlainKeeps(a, b, keys);
        EndSecured(b, keys, Shutdown, 0);
      case Ringing =>
        SaidAndEnded(a, Say(a, Responded(AnswerReply(a.call.value, 603, None), Direct)), keys, OwnReason(a), 603);
      case Answering => ByeAndEndSecured(a, keys, OwnReason(a), 0, now);
      case Confirmed => ByeAndEndSecured(a, keys, OwnReason(a), 0, now);
    }
  }

  lemma ShutdownSecured(a: Agent, keys: Keys, now: int)
    requires Secured(a, keys)
    ensures Secured(BeginShutdown(a, now), keys)
  {
    var b := a.(shutting := true);
    PlainKeeps(a, b, keys);
    var d := if a.call.Some? then Hangup(b, a.call.value.id, now).1 else b;
    if a.call.Some? {
      HangupSecured(b, keys, a.call.value.id, now);
    }
    RegistrationPlain(d, now);
    PlainKeeps(d, StopRegistration(d, now), keys);
  }

  lemma TimeAnswerSecured(a: Agent, keys: Keys, now: int)
    requires Secured(a, keys)
    ensures Secured(TimeAnswer(a, now), keys)
  {
    if a.call.Some? && a.call.value.state == Answering {
      if now >= a.call.value.ackDeadline {
        ByeAndEndSecured(a, keys, Timeout, 408, now);
      } else if now >= a.call.value.resendAt {
        RepeatLastSecured(a, keys);
        var last := a.call.value.lastResponse;
        var b := if last.Some? then Say(a, Responded(last.value, Timer)) else a;
        RescheduledSecured(b, TimeAnswer(a, now), keys);
      }
    }
  }

  lemma RescheduledSecured(b: Agent, s: Agent, keys: Keys)
    requires Secured(b, keys) && s == b.(call := s.call) && SameCall(b.call, s.call)
    ensures Secured(s, keys)
  {
    PlainKeeps(b, s, keys);
  }

  lemma TimerSecured(a: Agent, keys: Keys, order: seq<Key>, now: int)
    requires Secured(a, keys) && Linked(a)
    ensures Secured(OnTimer(a, order, now), keys)
  {
    var b := RetransmitAll(a, order, now);
    var d := FailAll(b, Expired(a, order, now), now);
    RetransmitAllSecured(a, keys, order, now);
    RetransmitAllLinked(a, order, now);
    FailAllSecured(b, keys, Expired(a, order, now), now);
    TimeAnswerSecured(d, keys, now);
    RetryPlain(TimeAnswer(d, now), now);
    PlainKeeps(TimeAnswer(d, now), OnTimer(a, order, now), keys);
  }
}
