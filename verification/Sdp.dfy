/** Session descriptions with SDES keys: parsing, building, and that two ends agree on the keys. */
module Sdp {
  import opened Prelude
  import opened Text
  import opened AgentTypes
  import Base64

  const SUITE: string := "AES_CM_128_HMAC_SHA1_80"
  const MAX_TAG: nat := 999999999
  const UINT32_MAX: nat := 0xFFFF_FFFF

  /** A parsed description: its audio stream, and whether the far end sends. */
  datatype Description = Description(audio: Audio, sends: bool)

  // ---- Lines ----

  predicate AddressChar(c: char) { c !in " \t\r\n[]" }

  predicate AllAddress(s: string) {
    forall i :: 0 <= i < |s| ==> AddressChar(s[i])
  }

  /** The address of a connection line, without a multicast suffix. */
  function ConnectionAddress(value: string): Option<string> {
    if !("IN IP4 " <= value) && !("IN IP6 " <= value) then None
    else
      var trimmed := Trimmed(value[7..]);
      var address := trimmed[..Find(trimmed, '/')];
      if address == "" || !AllAddress(address) then None else Some(address)
  }

  /** A key, with only a lifetime allowed after it. */
  function ParseKey(k: string): Option<SrtpKey> {
    var end := Find(k, '|');
    var extra := if end < |k| then k[end + 1..] else "";
    if end < |k| && (extra == "" || '|' in extra || ':' in extra) then None
    else
      var key := Base64.Decoded(k[..end]);
      if key.None? || |key.value| != KEY_LENGTH then None else Some(key.value)
  }

  function ParseInline(params: string): Option<SrtpKey> {
    if ' ' in params || '\t' in params || ';' in params || !("inline:" <= params) then None
    else ParseKey(params[7..])
  }

  function ParseSuite(rest: string): Option<SrtpKey> {
    var end := Find(rest, ' ');
    if end == |rest| || rest[..end] != SUITE then None else ParseInline(Trimmed(rest[end + 1..]))
  }

  /** The crypto line this side can use, if it is one. */
  function ParseCrypto(value: string): Option<Crypto> {
    var end := Find(value, ' ');
    if end == |value| then None
    else
      var tag := Integer(value[..end], UINT32_MAX);
      if tag.None? || tag.value > MAX_TAG then None
      else
        var key := ParseSuite(Trimmed(value[end + 1..]));
        if key.None? then None else Some(Crypto(tag.value, key.value))
  }

  function FirstPayload(rest: string): seq<nat> {
    var payload := Integer(rest[..Find(rest, ' ')], 255);
    if payload.Some? then [payload.value] else []
  }

  function AfterSpace(rest: string): string {
    var space := Find(rest, ' ');
    if space == |rest| then "" else rest[space + 1..]
  }

  function ParsePayloads(rest: string): seq<nat>
    decreases |rest|
  {
    if rest == "" then [] else FirstPayload(rest) + ParsePayloads(AfterSpace(rest))
  }

  method ReadPayloads(text: string) returns (payloads: seq<nat>)
    ensures payloads == ParsePayloads(text)
  {
    payloads := [];
    var rest := text;
    while rest != ""
      invariant payloads + ParsePayloads(rest) == ParsePayloads(text)
      decreases |rest|
    {
      Associative(payloads, FirstPayload(rest), ParsePayloads(AfterSpace(rest)));
      payloads := payloads + FirstPayload(rest);
      rest := AfterSpace(rest);
    }
  }

  function ParseProfile(rest: string, port: nat): Option<Audio> {
    var end := Find(rest, ' ');
    var profile := rest[..end];
    if profile != "RTP/AVP" && profile != "RTP/SAVP" then None
    else Some(Audio("", port, ParsePayloads(AfterSpace(rest)), profile == "RTP/SAVP", []))
  }

  /** The audio stream of a media line, after the word audio. */
  function ParseMedia(rest: string): Option<Audio> {
    var end := Find(rest, ' ');
    var port := Integer(rest[..end], 65535);
    if port.None? || end == |rest| then None else ParseProfile(rest[end + 1..], port.value)
  }

  method ReadMedia(line: string) returns (audio: Option<Audio>)
    ensures audio == ParseMedia(line)
  {
    var end := Find(line, ' ');
    var port := Integer(line[..end], 65535);
    if port.None? || end == |line| {
      return None;
    }
    var rest := line[end + 1..];
    end := Find(rest, ' ');
    var profile := rest[..end];
    if profile != "RTP/AVP" && profile != "RTP/SAVP" {
      return None;
    }
    var payloads := ReadPayloads(AfterSpace(rest));
    return Some(Audio("", port.value, payloads, profile == "RTP/SAVP", []));
  }

  // ---- Descriptions ----

  /** What has been read so far. */
  datatype Scan = Scan(session: Option<string>, found: Option<Description>, media: Option<string>, connected: bool,
                       inAudio: bool, seenAudio: bool)

  datatype Outcome = Continue(scan: Scan) | Stop(scan: Scan) | Fail

  const NOTHING: Scan := Scan(None, None, None, false, false, false)

  function ScanMedia(s: Scan, value: string): Outcome {
    if s.seenAudio then Stop(s)
    else if !("audio " <= value) then Continue(s.(inAudio := false))
    else
      var audio := ParseMedia(value[6..]);
      if audio.None? then Fail
      else Continue(s.(inAudio := true, seenAudio := true, found := Some(Description(audio.value, true))))
  }

  function ScanConnection(s: Scan, value: string): Scan {
    if s.inAudio then s.(connected := true, media := ConnectionAddress(value))
    else if !s.seenAudio then s.(session := ConnectionAddress(value))
    else s
  }

  function ScanAttribute(d: Description, value: string): Description {
    var e := if value == "inactive" || value == "recvonly" then d.(sends := false) else d;
    if "crypto:" <= value && ParseCrypto(value[7..]).Some? then
      e.(audio := e.audio.(crypto := e.audio.crypto + [ParseCrypto(value[7..]).value]))
    else e
  }

  function ScanLine(s: Scan, line: string): Outcome {
    if |line| < 2 || line[1] != '=' then Continue(s)
    else if line[0] == 'm' then ScanMedia(s, line[2..])
    else if line[0] == 'c' then Continue(ScanConnection(s, line[2..]))
    else if line[0] == 'a' && s.inAudio && s.found.Some? then
      Continue(s.(found := Some(ScanAttribute(s.found.value, line[2..]))))
    else Continue(s)
  }

  /** Reads lines until a second media line, or a bad one. */
  function ScanLines(s: Scan, lines: seq<string>): Option<Scan>
    decreases |lines|
  {
    if lines == [] then Some(s)
    else
      match ScanLine(s, lines[0])
      case Continue(t) => ScanLines(t, lines[1..])
      case Stop(t) => Some(t)
      case Fail => None
  }

  /** The description read, if it names a port and an address; a media-level address wins. */
  function Settle(s: Scan): Option<Description> {
    if s.found.None? || s.found.value.audio.port == 0 then None
    else if s.connected && s.media.None? then None
    else if s.media.None? && s.session.None? then None
    else
      var address := if s.media.Some? then s.media.value else s.session.value;
      Some(s.found.value.(audio := s.found.value.audio.(address := address)))
  }

  function Parsed(sdp: string): Option<Description> {
    var s := ScanLines(NOTHING, Lines(sdp));
    if s.None? then None else Settle(s.value)
  }

  method ParseAudio(sdp: string) returns (description: Option<Description>)
    ensures description == Parsed(sdp)
  {
    var lines := SplitLines(sdp);
    var session: Option<string>, found: Option<Description>, media: Option<string> := None, None, None;
    var connected, inAudio, seenAudio := false, false, false;
    var i := 0;
    while i < |lines|
      invariant 0 <= i <= |lines|
      invariant ScanLines(Scan(session, found, media, connected, inAudio, seenAudio), lines[i..])
                == ScanLines(NOTHING, lines)
    {
      var line := lines[i];
      assert lines[i..][0] == line && lines[i..][1..] == lines[i + 1..];
      if |line| >= 2 && line[1] == '=' {
        var value := line[2..];
        if line[0] == 'm' {
          if seenAudio {
            break;
          }
          inAudio := "audio " <= value;
          if inAudio {
            seenAudio := true;
            var audio := ReadMedia(value[6..]);
            if audio.None? {
              return None;
            }
            found := Some(Description(audio.value, true));
          }
        } else if line[0] == 'c' {
          if inAudio {
            connected, media := true, ConnectionAddress(value);
          } else if !seenAudio {
            session := ConnectionAddress(value);
          }
        } else if line[0] == 'a' && inAudio && found.Some? {
          found := Some(ScanAttribute(found.value, value));
        }
      }
      i := i + 1;
    }
    return Settle(Scan(session, found, media, connected, inAudio, seenAudio));
  }

  // ---- Building ----

  function Family(address: string): string { if ':' in address then "IP6" else "IP4" }

  function CryptoText(crypto: LocalCrypto): string {
    Numeral(crypto.tag) + " " + (SUITE + " " + ("inline:" + Base64.Encoded(crypto.key)))
  }

  function CryptoLine(crypto: LocalCrypto): string { "a=" + ("crypto:" + CryptoText(crypto)) }

  function OriginLine(address: string, sdp: LocalSdp): string {
    "o=- " + Numeral(sdp.session) + " " + Numeral(sdp.version) + " IN " + Family(address) + " " + address
  }

  function ConnectionLine(address: string): string { "c=IN " + Family(address) + " " + address }

  function Profile(sdp: LocalSdp): string {
    if sdp.crypto.Some? && sdp.crypto.value.savp then "RTP/SAVP" else "RTP/AVP"
  }

  function MediaText(sdp: LocalSdp): string { Numeral(sdp.port) + " " + (Profile(sdp) + " " + "8 101") }

  function MediaLine(sdp: LocalSdp): string { "m=" + ("audio " + MediaText(sdp)) }

  function Attributes(): seq<string> {
    ["a=rtpmap:8 PCMA/8000", "a=rtpmap:101 telephone-event/8000", "a=fmtp:101 0-16", "a=ptime:20", "a=sendrecv"]
  }

  function SdpLines(address: string, sdp: LocalSdp): seq<string> {
    ["v=0", OriginLine(address, sdp), "s=KetPhone", ConnectionLine(address), "t=0 0", MediaLine(sdp)] + Attributes()
    + if sdp.crypto.Some? then [CryptoLine(sdp.crypto.value)] else []
  }

  /** Lines, each ended by CRLF. */
  function TextOf(lines: seq<string>): string {
    if lines == [] then "" else lines[0] + "\r\n" + TextOf(lines[1..])
  }

  /** This side's session description as text. */
  function BuildAudioSdp(address: string, sdp: LocalSdp): string { TextOf(SdpLines(address, sdp)) }

  // ---- Reading back ----

  predicate GoodAddress(address: string) {
    address != "" && AllAddress(address) && '/' !in address
  }

  /** An address, a port and, if there is a crypto line, a tag and a key of the right length. */
  predicate WellFormed(address: string, sdp: LocalSdp) {
    && GoodAddress(address) && 0 < sdp.port <= 65535
    && (sdp.crypto.Some? ==> sdp.crypto.value.tag <= MAX_TAG && |sdp.crypto.value.key| == KEY_LENGTH)
  }

  lemma {:induction false} LinesOfText(lines: seq<string>)
    requires AllNoBreak(lines)
    ensures Lines(TextOf(lines)) == lines
    decreases |lines|
  {
    if lines != [] {
      assert forall i :: 0 <= i < |lines[1..]| ==> lines[1..][i] == lines[i + 1];
      LinesOfText(lines[1..]);
      FirstLine(lines[0], TextOf(lines[1..]));
    }
  }

  lemma AddressPlain(address: string)
    requires GoodAddress(address)
    ensures NoBreak(address) && Neat(address) && Find(address, '/') == |address|
  {
    forall i | 0 <= i < |address| ensures address[i] != '\r' && address[i] != '\n' && !Blank(address[i]) {
      assert AddressChar(address[i]);
    }
    FindIs(address, '/', |address|);
  }

  lemma AddressReadBack(address: string)
    requires GoodAddress(address)
    ensures ConnectionAddress("IN " + Family(address) + " " + address) == Some(address)
  {
    AddressPlain(address);
    NeatStays(address);
    var value := "IN " + Family(address) + " " + address;
    assert value[7..] == address;
    assert value[..7] == "IN " + Family(address) + " ";
    assert "IN " + "IP4" + " " == "IN IP4 " && "IN " + "IP6" + " " == "IN IP6 ";
    assert address[..|address|] == address;
  }

  lemma KeyTextPlain(key: seq<byte>)
    ensures var t := Base64.Encoded(key);
            forall i :: 0 <= i < |t| ==> Base64.InAlphabet(t[i]) || t[i] == '='
  {
    var u := Base64.Unpadded(key);
    Base64.UnpaddedPlain(key);
    assert Base64.Encoded(key) == u + Base64.Padding(|u|);
  }

  lemma KeyReadBack(key: SrtpKey)
    ensures ParseKey(Base64.Encoded(key)) == Some(key)
  {
    var t := Base64.Encoded(key);
    KeyTextPlain(key);
    FindIs(t, '|', |t|);
    assert t[..|t|] == t;
    Base64.DecodedOfEncoded(key);
  }

  /** Behind a key only a lifetime is taken: several parts, or a key identifier with its length, spoil the line. */
  lemma KeyWithLifetime(key: SrtpKey, extra: string)
    ensures ParseKey(Base64.Encoded(key) + "|" + extra) ==
            if extra == "" || '|' in extra || ':' in extra then None else Some(key)
  {
    var t := Base64.Encoded(key);
    var k := t + "|" + extra;
    KeyTextPlain(key);
    FindIs(k, '|', |t|);
    assert k[..|t|] == t && k[|t| + 1..] == extra;
    Base64.DecodedOfEncoded(key);
  }

  lemma InlinePlain(t: string)
    requires forall i :: 0 <= i < |t| ==> Base64.InAlphabet(t[i]) || t[i] == '='
    ensures Without("inline:" + t, {' ', '\t', ';', '\r', '\n'})
  {
    var params := "inline:" + t;
    forall i | 0 <= i < |params| ensures params[i] !in {' ', '\t', ';', '\r', '\n'} {
      if i >= 7 {
        assert params[i] == t[i - 7];
      } else {
        assert params[i] == "inline:"[i];
      }
    }
  }

  lemma InlineReadBack(key: SrtpKey)
    ensures ParseInline("inline:" + Base64.Encoded(key)) == Some(key)
    ensures Neat("inline:" + Base64.Encoded(key)) && NoBreak("inline:" + Base64.Encoded(key))
  {
    var t := Base64.Encoded(key);
    KeyTextPlain(key);
    InlinePlain(t);
    var params := "inline:" + t;
    assert params[7..] == t;
    KeyReadBack(key);
  }

  lemma SuitePlain()
    ensures forall i :: 0 <= i < |SUITE| ==> SUITE[i] !in " \t\r\n"
  {
  }

  lemma SuiteReadBack(params: string)
    requires Neat(params) && params != "" && NoBreak(params)
    ensures var rest := SUITE + " " + params;
            Neat(rest) && NoBreak(rest) && ParseSuite(rest) == ParseInline(params)
  {
    SuitePlain();
    var rest := SUITE + " " + params;
    forall i | 0 <= i < |rest| ensures rest[i] != '\r' && rest[i] != '\n' {
      if i < |SUITE| {
        assert rest[i] == SUITE[i];
      } else if i > |SUITE| {
        assert rest[i] == params[i - |SUITE| - 1];
      }
    }
    assert rest[0] == SUITE[0] && rest[|rest| - 1] == params[|params| - 1];
    FindIs(rest, ' ', |SUITE|);
    assert rest[..|SUITE|] == SUITE && rest[|SUITE| + 1..] == params;
    NeatStays(params);
  }

  lemma TagReadBack(tag: nat, rest: string, key: SrtpKey)
    requires tag <= MAX_TAG && Neat(rest) && ParseSuite(rest) == Some(key)
    ensures ParseCrypto(Numeral(tag) + " " + rest) == Some(Crypto(tag, key))
  {
    NumeralPlain(tag);
    FirstWord(Numeral(tag), rest);
    IntegerOfNumeral(tag, UINT32_MAX);
    NeatStays(rest);
  }

  lemma WordsPlain(word: string, rest: string)
    requires NoBreak(word) && NoBreak(rest)
    ensures NoBreak(word + " " + rest)
  {
    var s := word + " " + rest;
    forall i | 0 <= i < |s| ensures s[i] != '\r' && s[i] != '\n' {
      if i < |word| {
        assert s[i] == word[i];
      } else if i > |word| {
        assert s[i] == rest[i - |word| - 1];
      }
    }
  }

  lemma CryptoReadBack(crypto: LocalCrypto)
    requires crypto.tag <= MAX_TAG && |crypto.key| == KEY_LENGTH
    ensures NoBreak(CryptoText(crypto)) && ParseCrypto(CryptoText(crypto)) == Some(Crypto(crypto.tag, crypto.key))
  {
    var params := "inline:" + Base64.Encoded(crypto.key);
    InlineReadBack(crypto.key);
    SuiteReadBack(params);
    NumeralPlain(crypto.tag);
    WordsPlain(Numeral(crypto.tag), SUITE + " " + params);
    TagReadBack(crypto.tag, SUITE + " " + params, crypto.key);
  }

  // ---- The media line ----

  lemma PayloadsReadBack()
    ensures ParsePayloads("8 101") == [8, 101]
  {
    var t := "8 101";
    FindIs(t, ' ', 1);
    assert t[..1] == "8" && t[2..] == "101";
    assert Decimal("8") == 8 by {
      assert "8"[..0] == "";
    }
    NeatStays("8");
    assert Integer("8", 255) == Some(8);
    FindIs("101", ' ', 3);
    assert "101"[..3] == "101";
    assert Decimal("101") == 101 by {
      assert "101"[..2] == "10" && "10"[..1] == "1" && "1"[..0] == "";
      assert Decimal("1") == 1;
      assert Decimal("10") == 10;
    }
    NeatStays("101");
    assert Integer("101", 255) == Some(101);
    assert ParsePayloads("101") == [101];
  }

  lemma ProfilePlain(profile: string)
    requires profile == "RTP/AVP" || profile == "RTP/SAVP"
    ensures ' ' !in profile && NoBreak(profile)
  {
  }

  lemma ProfileReadBack(profile: string, payloads: string, port: nat)
    requires profile == "RTP/AVP" || profile == "RTP/SAVP"
    ensures ParseProfile(profile + " " + payloads, port) ==
            Some(Audio("", port, ParsePayloads(payloads), profile == "RTP/SAVP", []))
  {
    ProfilePlain(profile);
    FirstWord(profile, payloads);
  }

  lemma PortReadBack(port: nat, rest: string)
    requires port <= 65535
    ensures ParseMedia(Numeral(port) + " " + rest) == ParseProfile(rest, port)
  {
    NumeralPlain(port);
    FirstWord(Numeral(port), rest);
    IntegerOfNumeral(port, 65535);
  }

  lemma MediaParses(port: nat, profile: string, payloads: string)
    requires port <= 65535 && (profile == "RTP/AVP" || profile == "RTP/SAVP") && NoBreak(payloads)
    ensures var text := Numeral(port) + " " + (profile + " " + payloads);
            && NoBreak(text)
            && ParseMedia(text) == Some(Audio("", port, ParsePayloads(payloads), profile == "RTP/SAVP", []))
  {
    var tail := profile + " " + payloads;
    PortReadBack(port, tail);
    ProfileReadBack(profile, payloads, port);
    ProfilePlain(profile);
    WordsPlain(profile, payloads);
    NumeralPlain(port);
    WordsPlain(Numeral(port), tail);
  }

  lemma MediaReadBack(sdp: LocalSdp)
    requires 0 < sdp.port <= 65535
    ensures NoBreak(MediaText(sdp))
    ensures ParseMedia(MediaText(sdp)) == Some(Audio("", sdp.port, [8, 101], Profile(sdp) == "RTP/SAVP", []))
  {
    MediaParses(sdp.port, Profile(sdp), "8 101");
    PayloadsReadBack();
  }

  // ---- Scanning what was built ----

  /** Reading the lines leads from one state to another without stopping. */
  ghost predicate Leads(s: Scan, lines: seq<string>, t: Scan)
    decreases |lines|
  {
    if lines == [] then s == t
    else ScanLine(s, lines[0]).Continue? && Leads(ScanLine(s, lines[0]).scan, lines[1..], t)
  }

  lemma LeadsByOne(s: Scan, line: string, t: Scan)
    requires ScanLine(s, line) == Continue(t)
    ensures Leads(s, [line], t)
  {
    assert [line][1..] == [];
  }

  lemma {:induction false} LeadsOn(s: Scan, a: seq<string>, t: Scan, b: seq<string>, u: Scan)
    requires Leads(s, a, t) && Leads(t, b, u)
    ensures Leads(s, a + b, u)
    decreases |a|
  {
    if a == [] {
      assert a + b == b;
    } else {
      assert (a + b)[1..] == a[1..] + b;
      LeadsOn(ScanLine(s, a[0]).scan, a[1..], t, b, u);
    }
  }

  lemma {:induction false} LeadsScans(s: Scan, lines: seq<string>, t: Scan)
    requires Leads(s, lines, t)
    ensures ScanLines(s, lines) == Some(t)
    decreases |lines|
  {
    if lines != [] {
      LeadsScans(ScanLine(s, lines[0]).scan, lines[1..], t);
    }
  }

  /** A line of a type that is not read. */
  predicate Idle(line: string) {
    |line| >= 2 && line[1] == '=' && line[0] != 'm' && line[0] != 'c' && line[0] != 'a'
  }

  lemma {:induction false} IdleLines(s: Scan, lines: seq<string>)
    requires forall i :: 0 <= i < |lines| ==> Idle(lines[i])
    ensures Leads(s, lines, s)
    decreases |lines|
  {
    if lines != [] {
      assert Idle(lines[0]);
      IdleLines(s, lines[1..]);
    }
  }

  /** An attribute that says nothing about direction or keys. */
  predicate PlainAttribute(line: string) {
    && |line| >= 4 && line[0] == 'a' && line[1] == '=' && line[2] != 'i' && line[2] != 'c'
    && (line[2] == 'r' ==> line[3] != 'e')
  }

  lemma PlainAttributeIdle(s: Scan, line: string)
    requires PlainAttribute(line)
    ensures ScanLine(s, line) == Continue(s)
  {
    var value := line[2..];
    assert value[0] == line[2] && value[1] == line[3];
    assert "inactive"[0] == 'i' && "recvonly"[0] == 'r' && "recvonly"[1] == 'e' && "crypto:"[0] == 'c';
  }

  lemma {:induction false} PlainAttributes(s: Scan, lines: seq<string>)
    requires forall i :: 0 <= i < |lines| ==> PlainAttribute(lines[i])
    ensures Leads(s, lines, s)
    decreases |lines|
  {
    if lines != [] {
      PlainAttributeIdle(s, lines[0]);
      PlainAttributes(s, lines[1..]);
    }
  }

  lemma RtpmapPlain()
    ensures PlainAttribute("a=rtpmap:8 PCMA/8000") && NoBreak("a=rtpmap:8 PCMA/8000")
  {
  }

  lemma EventPlain()
    ensures PlainAttribute("a=rtpmap:101 telephone-event/8000") && NoBreak("a=rtpmap:101 telephone-event/8000")
  {
  }

  lemma ShortAttributesPlain()
    ensures PlainAttribute("a=fmtp:101 0-16") && NoBreak("a=fmtp:101 0-16")
    ensures PlainAttribute("a=ptime:20") && NoBreak("a=ptime:20")
    ensures PlainAttribute("a=sendrecv") && NoBreak("a=sendrecv")
  {
  }

  lemma AttributesPlain()
    ensures forall i :: 0 <= i < |Attributes()| ==> PlainAttribute(Attributes()[i]) && NoBreak(Attributes()[i])
  {
    RtpmapPlain();
    EventPlain();
    ShortAttributesPlain();
    FiveOf("a=rtpmap:8 PCMA/8000", "a=rtpmap:101 telephone-event/8000", "a=fmtp:101 0-16", "a=ptime:20", "a=sendrecv");
  }

  ghost predicate PlainLine(line: string) { PlainAttribute(line) && NoBreak(line) }

  lemma FiveOf(a: string, b: string, c: string, d: string, e: string)
    requires PlainLine(a) && PlainLine(b) && PlainLine(c) && PlainLine(d) && PlainLine(e)
    ensures forall i :: 0 <= i < |[a, b, c, d, e]| ==> PlainLine([a, b, c, d, e][i])
  {
  }

  lemma ConnectionStretch(s: Scan, line: string, value: string, address: string)
    requires !s.seenAudio && !s.inAudio && line == "c=" + value && NoBreak(value)
    requires ConnectionAddress(value) == Some(address)
    ensures Stretch(s, [line], s.(session := Some(address)))
  {
    assert line[2..] == value;
    LeadsByOne(s, line, s.(session := Some(address)));
    PrefixPlain("c=", value);
  }

  lemma FamilyPlain(address: string)
    ensures NoBreak("IN " + Family(address))
  {
  }

  lemma ConnectionLeads(address: string)
    requires GoodAddress(address)
    ensures Stretch(NOTHING, [ConnectionLine(address)], NOTHING.(session := Some(address)))
  {
    var value := "IN " + Family(address) + " " + address;
    assert "c=" + "IN " == "c=IN ";
    assert ConnectionLine(address) == "c=" + value;
    AddressReadBack(address);
    AddressPlain(address);
    FamilyPlain(address);
    WordsPlain("IN " + Family(address), address);
    ConnectionStretch(NOTHING, ConnectionLine(address), value, address);
  }

  function AudioOf(sdp: LocalSdp): Audio {
    Audio("", sdp.port, [8, 101], Profile(sdp) == "RTP/SAVP", [])
  }

  function AfterMedia(address: string, audio: Audio): Scan {
    Scan(Some(address), Some(Description(audio, true)), None, false, true, true)
  }

  lemma PrefixPlain(a: string, b: string)
    requires NoBreak(a) && NoBreak(b)
    ensures NoBreak(a + b)
  {
  }

  lemma LineValue(kind: char, value: string)
    ensures var line := [kind, '='] + value; line[0] == kind && line[1] == '=' && line[2..] == value
  {
  }

  lemma AudioValue(text: string)
    ensures "audio " <= "audio " + text && ("audio " + text)[6..] == text
  {
  }

  lemma AudioScan(s: Scan, value: string, text: string, audio: Audio)
    requires !s.seenAudio && "audio " <= value && value[6..] == text && ParseMedia(text) == Some(audio)
    ensures ScanMedia(s, value) == Continue(s.(inAudio := true, seenAudio := true,
                                               found := Some(Description(audio, true))))
  {
  }

  lemma MediaScan(s: Scan, text: string, audio: Audio)
    requires !s.seenAudio && ParseMedia(text) == Some(audio)
    ensures ScanLine(s, "m=" + ("audio " + text)) ==
            Continue(s.(inAudio := true, seenAudio := true, found := Some(Description(audio, true))))
  {
    LineValue('m', "audio " + text);
    AudioValue(text);
    AudioScan(s, "audio " + text, text, audio);
    assert ['m', '='] == "m=";
  }

  lemma MediaStretch(s: Scan, line: string, text: string, audio: Audio)
    requires !s.seenAudio && line == "m=" + ("audio " + text) && NoBreak(line) && ParseMedia(text) == Some(audio)
    ensures Stretch(s, [line], s.(inAudio := true, seenAudio := true, found := Some(Description(audio, true))))
  {
    MediaScan(s, text, audio);
    StretchByOne(s, line, s.(inAudio := true, seenAudio := true, found := Some(Description(audio, true))));
  }

  lemma TwicePlain(a: string, b: string, text: string)
    requires NoBreak(a) && NoBreak(b) && NoBreak(text)
    ensures NoBreak(a + (b + text))
  {
    PrefixPlain(b, text);
    PrefixPlain(a, b + text);
  }

  lemma MediaLinePlain(text: string)
    requires NoBreak(text)
    ensures NoBreak("m=" + ("audio " + text))
  {
    TwicePlain("m=", "audio ", text);
  }

  lemma CryptoLinePlain(text: string)
    requires NoBreak(text)
    ensures NoBreak("a=" + ("crypto:" + text))
  {
    TwicePlain("a=", "crypto:", text);
  }

  lemma StretchByOne(s: Scan, line: string, t: Scan)
    requires ScanLine(s, line) == Continue(t) && NoBreak(line)
    ensures Stretch(s, [line], t)
  {
    LeadsByOne(s, line, t);
  }

  lemma MediaLeads(address: string, sdp: LocalSdp)
    requires 0 < sdp.port <= 65535
    ensures Stretch(NOTHING.(session := Some(address)), [MediaLine(sdp)], AfterMedia(address, AudioOf(sdp)))
  {
    MediaReadBack(sdp);
    MediaLinePlain(MediaText(sdp));
    MediaStretch(NOTHING.(session := Some(address)), MediaLine(sdp), MediaText(sdp), AudioOf(sdp));
  }

  lemma CryptoScan(s: Scan, text: string, c: Crypto)
    requires s.inAudio && s.found.Some? && ParseCrypto(text) == Some(c)
    ensures var d := s.found.value;
            ScanLine(s, "a=" + ("crypto:" + text)) ==
            Continue(s.(found := Some(d.(audio := d.audio.(crypto := d.audio.crypto + [c])))))
  {
    var value := "crypto:" + text;
    assert ("a=" + value)[2..] == value && value[7..] == text;
    assert value[0] == 'c';
  }

  lemma CryptoStretch(s: Scan, line: string, text: string, c: Crypto)
    requires s.inAudio && s.found.Some? && line == "a=" + ("crypto:" + text) && NoBreak(line)
             && ParseCrypto(text) == Some(c)
    ensures var d := s.found.value;
            Stretch(s, [line], s.(found := Some(d.(audio := d.audio.(crypto := d.audio.crypto + [c])))))
  {
    var d := s.found.value;
    CryptoScan(s, text, c);
    StretchByOne(s, line, s.(found := Some(d.(audio := d.audio.(crypto := d.audio.crypto + [c])))));
  }

  lemma CryptoLeads(address: string, audio: Audio, crypto: LocalCrypto)
    requires crypto.tag <= MAX_TAG && |crypto.key| == KEY_LENGTH
    ensures Stretch(AfterMedia(address, audio), [CryptoLine(crypto)],
                    AfterMedia(address, audio.(crypto := audio.crypto + [Crypto(crypto.tag, crypto.key)])))
  {
    var c := Crypto(crypto.tag, crypto.key);
    CryptoReadBack(crypto);
    CryptoLinePlain(CryptoText(crypto));
    CryptoStretch(AfterMedia(address, audio), CryptoLine(crypto), CryptoText(crypto), c);
  }

  lemma OriginPlain(address: string, sdp: LocalSdp)
    requires GoodAddress(address)
    ensures NoBreak(OriginLine(address, sdp)) && Idle(OriginLine(address, sdp))
  {
    NumeralPlain(sdp.session);
    NumeralPlain(sdp.version);
    AddressPlain(address);
    var a := "o=- " + Numeral(sdp.session);
    assert NoBreak(a);
    WordsPlain(a, Numeral(sdp.version));
    var b := a + " " + Numeral(sdp.version);
    assert NoBreak(b + " IN ");
    assert NoBreak(b + " IN " + Family(address));
    WordsPlain(b + " IN " + Family(address), address);
    assert OriginLine(address, sdp)[0] == 'o' && OriginLine(address, sdp)[1] == '=';
  }

  /** The lines in front of the crypto line. */
  function PlainLines(address: string, sdp: LocalSdp): seq<string> {
    ["v=0", OriginLine(address, sdp), "s=KetPhone"] + [ConnectionLine(address)] + ["t=0 0"] + [MediaLine(sdp)]
    + Attributes()
  }

  lemma LiteralsPlain()
    ensures Idle("v=0") && Idle("s=KetPhone") && Idle("t=0 0")
    ensures NoBreak("v=0") && NoBreak("s=KetPhone") && NoBreak("t=0 0")
  {
  }

  lemma NoBreaksAppend(a: seq<string>, b: seq<string>)
    requires AllNoBreak(a) && AllNoBreak(b)
    ensures AllNoBreak(a + b)
  {
  }

  /** A stretch of lines without line breaks that leads from one state to another. */
  ghost predicate Stretch(s: Scan, lines: seq<string>, t: Scan) { Leads(s, lines, t) && AllNoBreak(lines) }

  lemma StretchOn(s: Scan, a: seq<string>, t: Scan, b: seq<string>, u: Scan)
    requires Stretch(s, a, t) && Stretch(t, b, u)
    ensures Stretch(s, a + b, u)
  {
    LeadsOn(s, a, t, b, u);
    NoBreaksAppend(a, b);
  }

  lemma FirstStretch(address: string, sdp: LocalSdp)
    requires GoodAddress(address)
    ensures Stretch(NOTHING, ["v=0", OriginLine(address, sdp), "s=KetPhone"], NOTHING)
  {
    LiteralsPlain();
    OriginPlain(address, sdp);
    IdleLines(NOTHING, ["v=0", OriginLine(address, sdp), "s=KetPhone"]);
  }

  lemma TimeStretch(s: Scan)
    ensures Stretch(s, ["t=0 0"], s)
  {
    LiteralsPlain();
    IdleLines(s, ["t=0 0"]);
  }

  lemma AttributesStretch(s: Scan)
    ensures Stretch(s, Attributes(), s)
  {
    AttributesPlain();
    PlainAttributes(s, Attributes());
  }

  lemma PlainLead(address: string, sdp: LocalSdp)
    requires GoodAddress(address) && 0 < sdp.port <= 65535
    ensures Stretch(NOTHING, PlainLines(address, sdp), AfterMedia(address, AudioOf(sdp)))
  {
    var first, conn := ["v=0", OriginLine(address, sdp), "s=KetPhone"], [ConnectionLine(address)];
    var t, media := ["t=0 0"], [MediaLine(sdp)];
    var s, u := NOTHING.(session := Some(address)), AfterMedia(address, AudioOf(sdp));
    FirstStretch(address, sdp);
    ConnectionLeads(address);
    MediaLeads(address, sdp);
    TimeStretch(s);
    AttributesStretch(u);
    StretchOn(NOTHING, first, NOTHING, conn, s);
    StretchOn(NOTHING, first + conn, s, t, s);
    StretchOn(NOTHING, first + conn + t, s, media, u);
    StretchOn(NOTHING, first + conn + t + media, u, Attributes(), u);
  }

  /** The audio stream the far end reads from what this side sends. */
  function SeenAs(address: string, sdp: LocalSdp): Audio {
    Audio(address, sdp.port, [8, 101], sdp.crypto.Some? && sdp.crypto.value.savp,
          if sdp.crypto.Some? && |sdp.crypto.value.key| == KEY_LENGTH then
            [Crypto(sdp.crypto.value.tag, sdp.crypto.value.key)]
          else [])
  }

  /** Parsing undoes building: the same address, port, profile, tag and key come back. */
  lemma ParseOfBuilt(address: string, sdp: LocalSdp)
    requires WellFormed(address, sdp)
    ensures Parsed(BuildAudioSdp(address, sdp)) == Some(Description(SeenAs(address, sdp), true))
  {
    var lines, plain := SdpLines(address, sdp), PlainLines(address, sdp);
    PlainLead(address, sdp);
    var s := AfterMedia(address, AudioOf(sdp));
    assert "RTP/SAVP" != "RTP/AVP";
    if sdp.crypto.Some? {
      var c := sdp.crypto.value;
      var t := AfterMedia(address, AudioOf(sdp).(crypto := [Crypto(c.tag, c.key)]));
      CryptoLeads(address, AudioOf(sdp), c);
      assert [] + [Crypto(c.tag, c.key)] == [Crypto(c.tag, c.key)];
      StretchOn(NOTHING, plain, s, [CryptoLine(c)], t);
      assert lines == plain + [CryptoLine(c)];
      LeadsScans(NOTHING, lines, t);
    } else {
      assert lines == plain;
      LeadsScans(NOTHING, lines, s);
    }
    LinesOfText(lines);
  }

  // ---- Descriptions with any number of crypto lines ----

  predicate TagsFit(lines: seq<Crypto>) {
    forall i :: 0 <= i < |lines| ==> lines[i].tag <= MAX_TAG
  }

  function CryptoLines(lines: seq<Crypto>): seq<string> {
    if lines == [] then []
    else
      var last := lines[|lines| - 1];
      CryptoLines(lines[..|lines| - 1]) + [CryptoLine(LocalCrypto(true, last.tag, last.key))]
  }

  /** Reading the text lines behind the media line finds these crypto lines. */
  ghost predicate Reads(address: string, audio: Audio, text: seq<string>, lines: seq<Crypto>) {
    Stretch(AfterMedia(address, audio), text, AfterMedia(address, audio.(crypto := lines)))
  }

  lemma ReadsOneMore(address: string, audio: Audio, text: seq<string>, lines: seq<Crypto>, line: string, c: Crypto)
    requires Reads(address, audio, text, lines)
    requires Stretch(AfterMedia(address, audio.(crypto := lines)), [line],
                     AfterMedia(address, audio.(crypto := lines + [c])))
    ensures Reads(address, audio, text + [line], lines + [c])
  {
    StretchOn(AfterMedia(address, audio), text, AfterMedia(address, audio.(crypto := lines)), [line],
              AfterMedia(address, audio.(crypto := lines + [c])));
  }

  lemma {:induction false} CryptosLead(address: string, audio: Audio, lines: seq<Crypto>)
    requires TagsFit(lines) && audio.crypto == []
    ensures Reads(address, audio, CryptoLines(lines), lines)
    decreases |lines|
  {
    if lines == [] {
      assert audio.(crypto := lines) == audio;
    } else {
      var front, last := lines[..|lines| - 1], lines[|lines| - 1];
      CryptosLead(address, audio, front);
      CryptoReads(address, audio, CryptoLines(front), front, last);
      assert front + [last] == lines;
    }
  }

  lemma CryptoReads(address: string, audio: Audio, text: seq<string>, lines: seq<Crypto>, c: Crypto)
    requires Reads(address, audio, text, lines) && c.tag <= MAX_TAG
    ensures Reads(address, audio, text + [CryptoLine(LocalCrypto(true, c.tag, c.key))], lines + [c])
  {
    var crypto := LocalCrypto(true, c.tag, c.key);
    CryptoLeads(address, audio.(crypto := lines), crypto);
    ReadsOneMore(address, audio, text, lines, CryptoLine(crypto), c);
  }

  /** A description of a secured stream, offering the given lines in order. */
  function OfferText(address: string, port: nat, lines: seq<Crypto>): string {
    TextOf(PlainLines(address, LocalSdp(port, 1, 1, Some(LocalCrypto(true, 1, [])))) + CryptoLines(lines))
  }

  /** Every crypto line of a description is read, in order. */
  lemma ParseOfOffer(address: string, port: nat, lines: seq<Crypto>)
    requires GoodAddress(address) && 0 < port <= 65535 && TagsFit(lines)
    ensures Parsed(OfferText(address, port, lines)) ==
            Some(Description(Audio(address, port, [8, 101], true, lines), true))
  {
    var sdp := LocalSdp(port, 1, 1, Some(LocalCrypto(true, 1, [])));
    var plain, s := PlainLines(address, sdp), AfterMedia(address, AudioOf(sdp));
    var t := AfterMedia(address, AudioOf(sdp).(crypto := lines));
    PlainLead(address, sdp);
    CryptosLead(address, AudioOf(sdp), lines);
    StretchOn(NOTHING, plain, s, CryptoLines(lines), t);
    LeadsScans(NOTHING, plain + CryptoLines(lines), t);
    LinesOfText(plain + CryptoLines(lines));
  }
}
