/** Offer and answer between two agents, through the text they exchange. */
module Handshake {
  import opened Prelude
  import opened AgentTypes
  import opened AgentSpec
  import opened AgentMedia
  import opened AgentOrigins
  import Sdp

  /** A call whose media is open, and whose key is of the right length when media is encrypted. */
  predicate Ready(cfg: Config, c: Call) {
    0 < c.mediaPort <= 65535 && (cfg.srtp ==> |c.srtpKey| == KEY_LENGTH)
  }

  /** What the far end reads from a description sent from `address`. */
  function Received(address: string, sdp: LocalSdp): Option<Sdp.Description> {
    Sdp.Parsed(Sdp.BuildAudioSdp(address, sdp))
  }

  lemma OfferArrives(cfg: Config, caller: Call, address: string)
    requires Ready(cfg, caller) && Sdp.GoodAddress(address)
    ensures Received(address, SdpFor(cfg, caller, None)) ==
            Some(Sdp.Description(Audio(address, caller.mediaPort, [8, 101], cfg.srtp,
                                       if cfg.srtp then [Crypto(OFFER_TAG, caller.srtpKey)] else []), true))
  {
    Sdp.ParseOfBuilt(address, SdpFor(cfg, caller, None));
  }

  lemma AnswerArrives(cfg: Config, callee: Call, offer: Audio, address: string)
    requires Ready(cfg, callee) && Sdp.GoodAddress(address)
    requires Acceptable(cfg, offer) && (cfg.srtp ==> offer.crypto[0].tag <= Sdp.MAX_TAG)
    ensures Received(address, SdpFor(cfg, callee, Some(offer))) ==
            Some(Sdp.Description(Audio(address, callee.mediaPort, [8, 101], cfg.srtp && offer.savp,
                                       if cfg.srtp then [Crypto(offer.crypto[0].tag, callee.srtpKey)] else []), true))
  {
    Sdp.ParseOfBuilt(address, SdpFor(cfg, callee, Some(offer)));
  }

  /**
   * Two agents that agree on using SRTP accept each other's descriptions. Each sends media where the other listens,
   * and with SRTP each encrypts with the key the other decrypts with; without it neither has keys.
   */
  lemma KeysCross(cfg: Config, caller: Call, address: string, cfg': Config, callee: Call, address': string)
    requires cfg.srtp == cfg'.srtp && Ready(cfg, caller) && Ready(cfg', callee)
    requires Sdp.GoodAddress(address) && Sdp.GoodAddress(address')
    ensures var offer := Received(address, SdpFor(cfg, caller, None));
            && offer.Some? && Acceptable(cfg', offer.value.audio)
            && var answer := Received(address', SdpFor(cfg', callee, Some(offer.value.audio)));
            && answer.Some? && UsableAnswer(cfg, Some(answer.value.audio))
            && RemoteMediaFor(cfg, caller, answer.value.audio, AnswerLine(cfg, answer.value.audio)) ==
                 RemoteMedia(address', callee.mediaPort,
                             if cfg.srtp then Some(MediaKeys(caller.srtpKey, callee.srtpKey)) else None)
            && RemoteMediaFor(cfg', callee, offer.value.audio, ChosenLine(cfg', offer.value.audio)) ==
                 RemoteMedia(address, caller.mediaPort,
                             if cfg.srtp then Some(MediaKeys(callee.srtpKey, caller.srtpKey)) else None)
  {
    OfferArrives(cfg, caller, address);
    var offer := Received(address, SdpFor(cfg, caller, None)).value.audio;
    assert offer.payloadTypes[0] == PCMA;
    AnswerArrives(cfg', callee, offer, address');
    var answer := Received(address', SdpFor(cfg', callee, Some(offer))).value.audio;
    assert answer.payloadTypes[0] == PCMA;
    if cfg.srtp {
      assert LineWithTag(answer.crypto, OFFER_TAG) == Some(answer.crypto[0]);
    }
  }

  // ---- Which crypto line is used ----

  /** Every start of media from `a` to `b` has the given origin and this key of its own. */
  ghost predicate StartsWith(a: Agent, b: Agent, local: seq<byte>, origin: Origin) {
    && a.media <= b.media
    && forall k :: |a.media| <= k < |b.media| && b.media[k].Started? ==>
         && b.media[k].origin == origin && b.media[k].remote.srtp.Some? && b.media[k].remote.srtp.value.local == local
         && OriginOk(origin, b.media[k].remote.srtp.value)
  }

  /**
   * A call whose 2xx arrives is started, if at all, with the key its answer holds under the tag this side offers
   * (section 5.1.3 of RFC 4568).
   */
  lemma AnswerKeyIsTheOfferedTag(a: Agent, r: Response, host: Host, now: int)
    requires a.call.Some? && a.cfg.srtp && r.answer.Some?
    ensures StartsWith(a, Establish(a, r, host, now), a.call.value.srtpKey,
                       ByAnswer(r.answer.value, a.call.value.inviteBranch))
    ensures CryptoFor(a.cfg, a.call.value, None).value.tag == OFFER_TAG
  {
    var b := Establish(a, r, host, now);
    EstablishStarts(a, r, host, now);
    if !a.call.value.cancelRequested && UsableAnswer(a.cfg, r.answer) {
      TaggedKey(r.answer.value, OFFER_TAG);
    } else {
      NoStart(a, r, host, now);
    }
  }

  lemma NoStart(a: Agent, r: Response, host: Host, now: int)
    requires a.call.Some? && (a.call.value.cancelRequested || !UsableAnswer(a.cfg, r.answer))
    ensures Silent(a, Establish(a, r, host, now))
  {
    ByeAndEndSilent(a, OwnReason(a), 0, now);
    ByeAndEndSilent(a, MediaFailed, 488, now);
  }

  /** An incoming call that is taken up is started with the offered key that this side's answer names by tag. */
  lemma AnswerNamesItsKey(a: Agent, host: Host, now: int)
    requires a.call.Some? && a.cfg.srtp && Acceptable(a.cfg, a.call.value.offer)
    ensures var b, key := TakeUp(a, host, now), if host.key.Some? then host.key.value else [];
            exists sdp :: && StartsWith(a, b, key, ByOffer(a.call.value.offer, Some(sdp)))
                          && (b.call.Some? ==> b.call.value.localSdp == Some(sdp))
  {
    var b, key := OpenFor(a, host), if host.key.Some? then host.key.value else [];
    var c := b.call.value.(srtpKey := key);
    var sdp := SdpFor(a.cfg, c, Some(c.offer));
    var origin := ByOffer(a.call.value.offer, Some(sdp));
    if host.port == 0 || host.key.None? {
      RefuseSilent(b);
      assert StartsWith(a, TakeUp(a, host, now), key, origin);
    } else {
      var e := StartFor(b, key, host);
      FirstKey(c.offer);
      assert StartsWith(a, e, key, origin);
      TakenUpWith(a, e, key, origin, host, now);
    }
  }

  lemma TakenUpWith(a: Agent, e: Agent, key: seq<byte>, origin: Origin, host: Host, now: int)
    requires e.call.Some? && StartsWith(a, e, key, origin)
    ensures StartsWith(a, if host.startOk then SendAnswer(e, now) else RefuseAnswer(e), key, origin)
  {
    RefuseSilent(e);
    assert SendAnswer(e, now).media == e.media;
  }

  /** A re-INVITE is followed with the offered key that this side's answer names by tag; its own key stays. */
  lemma ReInviteNamesItsKey(a: Agent, q: Query, host: Host)
    requires a.call.Some? && a.cfg.srtp && q.offer.Some?
    ensures var b, sdp := ReInvite(a, q, host), SdpFor(a.cfg, a.call.value, q.offer);
            && StartsWith(a, b, a.call.value.srtpKey, ByOffer(q.offer.value, Some(sdp)))
            && b.call.Some? && (b.call.value.localSdp == a.call.value.localSdp || b.call.value.localSdp == Some(sdp))
  {
    if Acceptable(a.cfg, q.offer.value) {
      FirstKey(q.offer.value);
    }
  }
}
