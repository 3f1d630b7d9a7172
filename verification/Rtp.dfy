/** RTP packets and the receiver's sequence tracking (RFC 3550). */
module Rtp {
  import opened Prelude

  const HEADER_SIZE: nat := 12
  const SEQUENCES: int := 0x1_0000
  const MAX_DROPOUT: int := 3000

  /** The range of `size_t`. */
  const SIZES: int := 0x1_0000_0000_0000_0000

  type u16 = x: int | 0 <= x < 0x1_0000
  type u32 = x: int | 0 <= x < 0x1_0000_0000

  datatype Header = Header(payloadType: byte, marker: bool, sequence: u16, timestamp: u32, ssrc: u32)

  datatype Packet = Packet(header: Header, payload: seq<byte>)

  // ---- The wire format ----

  /** The i-th byte of a 32-bit word, high byte first. */
  function WordByte(x: u32, i: nat): byte
    requires i < 4
  {
    if i == 0 then x / 0x100_0000 % 256
    else if i == 1 then x / 0x1_0000 % 256
    else if i == 2 then x / 0x100 % 256
    else x % 256
  }

  function Word(x: u32): seq<byte> { [WordByte(x, 0), WordByte(x, 1), WordByte(x, 2), WordByte(x, 3)] }

  function SecondByte(h: Header): byte { (if h.marker then 128 else 0) + h.payloadType % 128 }

  function Head(h: Header): (s: seq<byte>)
    ensures |s| == HEADER_SIZE
  {
    [0x80, SecondByte(h), h.sequence / 256, h.sequence % 256] + Word(h.timestamp) + Word(h.ssrc)
  }

  /** A version 2 packet without contributing sources or extension. */
  function Wire(h: Header, payload: seq<byte>): seq<byte> { Head(h) + payload }

  method WriteRtp(out: array<byte>, header: Header, payload: seq<byte>) returns (size: nat)
    modifies out
    ensures out.Length < HEADER_SIZE + |payload| ==> size == 0 && out[..] == old(out[..])
    ensures out.Length >= HEADER_SIZE + |payload| ==>
              size == HEADER_SIZE + |payload| && out[..size] == Wire(header, payload) && out[size..] == old(out[size..])
  {
    size := HEADER_SIZE + |payload|;
    if out.Length < size {
      return 0;
    }
    WriteHead(out, header);
    ghost var tail := old(out[size..]);
    assert out[size..] == tail;
    var i := 0;
    while i < |payload|
      invariant 0 <= i <= |payload|
      invariant out[..HEADER_SIZE + i] == Head(header) + payload[..i]
      invariant out[size..] == tail
    {
      ghost var before := out[..];
      out[HEADER_SIZE + i] := payload[i];
      assert out[size..] == before[size..];
      assert out[..HEADER_SIZE + i] == before[..HEADER_SIZE + i];
      assert out[..HEADER_SIZE + i + 1] == out[..HEADER_SIZE + i] + [payload[i]];
      assert payload[..i + 1] == payload[..i] + [payload[i]];
      i := i + 1;
    }
    assert payload[..i] == payload;
  }

  method WriteHead(out: array<byte>, header: Header)
    requires out.Length >= HEADER_SIZE
    modifies out
    ensures out[..HEADER_SIZE] == Head(header) && out[HEADER_SIZE..] == old(out[HEADER_SIZE..])
  {
    out[0] := 0x80;
    out[1] := SecondByte(header);
    out[2] := header.sequence / 256;
    out[3] := header.sequence % 256;
    var i := 0;
    while i < 4
      invariant 0 <= i <= 4
      invariant out[0] == 0x80 && out[1] == SecondByte(header)
      invariant out[2] == header.sequence / 256 && out[3] == header.sequence % 256
      invariant forall j :: 0 <= j < i ==>
                out[4 + j] == WordByte(header.timestamp, j) && out[8 + j] == WordByte(header.ssrc, j)
      invariant out[HEADER_SIZE..] == old(out[HEADER_SIZE..])
    {
      out[4 + i] := WordByte(header.timestamp, i);
      out[8 + i] := WordByte(header.ssrc, i);
      i := i + 1;
    }
    HeadIs(out[..HEADER_SIZE], header);
  }

  lemma HeadIs(s: seq<byte>, h: Header)
    requires |s| == HEADER_SIZE && s[0] == 0x80 && s[1] == SecondByte(h)
    requires s[2] == h.sequence / 256 && s[3] == h.sequence % 256
    requires forall j :: 0 <= j < 4 ==> s[4 + j] == WordByte(h.timestamp, j) && s[8 + j] == WordByte(h.ssrc, j)
    ensures s == Head(h)
  {
    assert s[4] == s[4 + 0] && s[5] == s[4 + 1] && s[6] == s[4 + 2] && s[7] == s[4 + 3];
    assert s[8] == s[8 + 0] && s[9] == s[8 + 1] && s[10] == s[8 + 2] && s[11] == s[8 + 3];
  }

  // ---- Parsing ----

  function Number16(a: int, b: int): int { a * 256 + b }

  function Number32(a: int, b: int, c: int, d: int): int { a * 0x100_0000 + b * 0x1_0000 + c * 0x100 + d }

  function Read16(d: seq<byte>, i: nat): int
    requires i + 2 <= |d|
  {
    Number16(d[i], d[i + 1])
  }

  function Read32(d: seq<byte>, i: nat): int
    requires i + 4 <= |d|
  {
    Number32(d[i], d[i + 1], d[i + 2], d[i + 3])
  }

  /** Where the payload starts, past contributing sources and a header extension. */
  function PayloadStart(d: seq<byte>): Option<nat>
    requires |d| >= HEADER_SIZE
  {
    var offset := HEADER_SIZE + 4 * (d[0] % 16);
    if d[0] / 16 % 2 == 0 then Some(offset)
    else if |d| < offset + 4 then None
    else Some(offset + 4 + 4 * Read16(d, offset + 2))
  }

  /** Subtraction of sizes, which wraps below zero. */
  function Minus(a: int, b: int): int { if a < b then a - b + SIZES else a - b }

  predicate Padded(d: seq<byte>)
    requires |d| >= HEADER_SIZE
  {
    d[0] / 32 % 2 == 1
  }

  /** Where the payload ends, in the source's unsigned arithmetic. */
  function PayloadEnd(d: seq<byte>, start: nat): Option<int>
    requires |d| >= HEADER_SIZE
  {
    if !Padded(d) then Some(|d|)
    else
      var padding := d[|d| - 1];
      if padding == 0 || padding > Minus(|d|, start) then None else Some(Minus(|d|, padding))
  }

  predicate IsRtp(d: seq<byte>) {
    |d| >= HEADER_SIZE && d[0] / 64 == 2 && !(200 <= d[1] <= 204)
  }

  function HeaderIn(d: seq<byte>): Header
    requires |d| >= HEADER_SIZE
  {
    Header(d[1] % 128, d[1] >= 128, Read16(d, 2), Read32(d, 4), Read32(d, 8))
  }

  datatype Span = Span(start: int, end: int)

  /** The stretch the source takes for the payload. */
  function PayloadSpan(d: seq<byte>): Option<Span> {
    if !IsRtp(d) then None
    else
      var start := PayloadStart(d);
      if start.None? then None
      else
        var end := PayloadEnd(d, start.value);
        if end.None? || start.value > end.value then None else Some(Span(start.value, end.value))
  }

  /** What parsing gives: nothing, a packet, or a header whose payload the source would look for past the datagram. */
  datatype Parsed = Nothing | Good(packet: Packet) | Beyond(header: Header)

  function ParseRtp(d: seq<byte>): Parsed {
    var span := PayloadSpan(d);
    if span.None? then Nothing
    else if HEADER_SIZE <= span.value.start <= span.value.end <= |d| then
      Good(Packet(HeaderIn(d), d[span.value.start..span.value.end]))
    else Beyond(HeaderIn(d))
  }

  // ---- When the payload lies inside the datagram ----

  /** Padding that counts more bytes than there are, behind a payload that would start past the end. */
  predicate Overruns(d: seq<byte>) {
    IsRtp(d) && PayloadStart(d).Some? && Padded(d) && PayloadStart(d).value > |d| && d[|d| - 1] > |d|
  }

  /** The payload in plain arithmetic: it starts behind the header and ends before the padding, inside the datagram. */
  function PlainSpan(d: seq<byte>): Option<Span> {
    if !IsRtp(d) || PayloadStart(d).None? then None
    else
      var start, padding := PayloadStart(d).value, if Padded(d) then d[|d| - 1] as int else 0;
      if (Padded(d) && padding == 0) || start + padding > |d| then None else Some(Span(start, |d| - padding))
  }

  lemma StartBounded(d: seq<byte>)
    requires |d| >= HEADER_SIZE && PayloadStart(d).Some?
    ensures HEADER_SIZE <= PayloadStart(d).value < 0x10_0000
  {
  }

  /** The wrapping tests of the source agree with plain arithmetic exactly when the datagram does not overrun. */
  lemma SpanExactly(d: seq<byte>)
    ensures PayloadSpan(d) == PlainSpan(d) <==> !Overruns(d)
    ensures Overruns(d) ==> PlainSpan(d).None? && PayloadSpan(d).Some? && PayloadSpan(d).value.end > |d|
  {
    if IsRtp(d) && PayloadStart(d).Some? {
      StartBounded(d);
    }
  }

  /** A payload is found inside its datagram, behind the fixed header, exactly when the datagram does not overrun. */
  lemma PayloadInside(d: seq<byte>)
    requires PayloadSpan(d).Some?
    ensures var span := PayloadSpan(d).value;
            HEADER_SIZE <= span.start <= span.end <= |d| <==> !Overruns(d)
    ensures ParseRtp(d).Beyond? <==> Overruns(d)
  {
    SpanExactly(d);
    StartBounded(d);
  }

  /** A 12-byte datagram that claims 15 sources and 255 bytes of padding. */
  const OVERRUN: seq<byte> := [0xAF, 8, 0, 0, 0, 0, 0, 0, 0, 0, 0, 0xFF]

  /** The claim that a payload always lies inside its datagram is false of the source. */
  lemma OverrunHappens()
    ensures PayloadSpan(OVERRUN) == Some(Span(72, SIZES - 243)) && |OVERRUN| == 12
    ensures Overruns(OVERRUN) && ParseRtp(OVERRUN).Beyond? && ParseRtp(OVERRUN).header.payloadType == 8
  {
  }

  lemma WordReadsBack(x: u32)
    ensures Number32(WordByte(x, 0), WordByte(x, 1), WordByte(x, 2), WordByte(x, 3)) == x
  {
    var a, b, c := x / 0x100_0000, x / 0x1_0000, x / 0x100;
    assert b / 256 == a && c / 256 == b;
  }

  /** The headers that survive: seven bits of payload type, and not mistaken for RTCP. */
  predicate Sendable(h: Header) {
    h.payloadType < 128 && !(h.marker && 72 <= h.payloadType <= 76)
  }

  lemma SecondByteReads(h: Header)
    ensures SecondByte(h) % 128 == h.payloadType % 128 && (SecondByte(h) >= 128 <==> h.marker)
    ensures Sendable(h) <==> !(200 <= SecondByte(h) <= 204) && h.payloadType % 128 == h.payloadType
  {
  }

  lemma WireBytes(h: Header, payload: seq<byte>)
    ensures var d := Wire(h, payload);
            && |d| == HEADER_SIZE + |payload| && d[0] == 0x80 && d[1] == SecondByte(h)
            && d[2] == h.sequence / 256 && d[3] == h.sequence % 256 && d[HEADER_SIZE..] == payload
            && (forall j :: 0 <= j < 4 ==> d[4 + j] == WordByte(h.timestamp, j) && d[8 + j] == WordByte(h.ssrc, j))
  {
    var d, t, s := Wire(h, payload), Word(h.timestamp), Word(h.ssrc);
    forall j | 0 <= j < 4 ensures d[4 + j] == WordByte(h.timestamp, j) && d[8 + j] == WordByte(h.ssrc, j) {
      assert d[4 + j] == t[j] && d[8 + j] == s[j];
    }
  }

  lemma HeaderReads(d: seq<byte>, h: Header)
    requires |d| >= HEADER_SIZE && d[1] == SecondByte(h) && d[2] == h.sequence / 256 && d[3] == h.sequence % 256
    requires forall j :: 0 <= j < 4 ==> d[4 + j] == WordByte(h.timestamp, j) && d[8 + j] == WordByte(h.ssrc, j)
    ensures HeaderIn(d) == h.(payloadType := h.payloadType % 128)
  {
    SecondByteReads(h);
    WordReadsBack(h.timestamp);
    WordReadsBack(h.ssrc);
    assert d[4 + 0] == d[4] && d[4 + 1] == d[5] && d[4 + 2] == d[6] && d[4 + 3] == d[7];
    assert d[8 + 0] == d[8] && d[8 + 1] == d[9] && d[8 + 2] == d[10] && d[8 + 3] == d[11];
  }

  lemma PlainPacket(d: seq<byte>)
    requires |d| >= HEADER_SIZE && d[0] == 0x80
    ensures ParseRtp(d) == if 200 <= d[1] <= 204 then Nothing else Good(Packet(HeaderIn(d), d[HEADER_SIZE..]))
  {
    assert PayloadStart(d) == Some(HEADER_SIZE);
    assert PayloadEnd(d, HEADER_SIZE) == Some(|d|);
    assert d[HEADER_SIZE..|d|] == d[HEADER_SIZE..];
  }

  /** Parsing gives back what was written, exactly for the sendable headers. */
  lemma ParseOfWire(h: Header, payload: seq<byte>)
    ensures ParseRtp(Wire(h, payload)) == Good(Packet(h, payload)) <==> Sendable(h)
  {
    var d := Wire(h, payload);
    WireBytes(h, payload);
    HeaderReads(d, h);
    PlainPacket(d);
    SecondByteReads(h);
  }

  // ---- Packets from other senders ----

  datatype Extension = Extension(profile: seq<byte>, data: seq<byte>)

  /** What may stand around a payload: contributing sources, an extension in whole words, padding. */
  datatype Wrapping = Wrapping(sources: seq<byte>, extension: Option<Extension>, padding: seq<byte>)

  ghost predicate IsExtension(e: Extension, words: nat) {
    |e.profile| == 2 && words < 0x1_0000 && |e.data| == 4 * words
  }

  /** Up to 15 sources, and padding whose last byte counts it. */
  ghost predicate IsWrapping(w: Wrapping, sources: nat, words: nat) {
    && sources < 16 && |w.sources| == 4 * sources
    && (w.extension.Some? ==> IsExtension(w.extension.value, words))
    && |w.padding| < 256 && (w.padding != [] ==> w.padding[|w.padding| - 1] == |w.padding|)
  }

  function FirstByte(w: Wrapping, sources: nat): int {
    0x80 + (if w.padding == [] then 0 else 32) + (if w.extension.None? then 0 else 16) + sources
  }

  function ExtensionText(e: Option<Extension>, words: nat): seq<int> {
    if e.None? then [] else e.value.profile + [words / 256, words % 256] + e.value.data
  }

  /** The packet with everything section 5.1 of RFC 3550 allows around its payload. */
  ghost function FullWire(h: Header, w: Wrapping, sources: nat, words: nat, payload: seq<byte>): (d: seq<byte>)
    requires IsWrapping(w, sources, words)
    ensures |d| >= HEADER_SIZE
  {
    [FirstByte(w, sources)] + Head(h)[1..] + w.sources + ExtensionText(w.extension, words) + payload + w.padding
  }

  lemma FirstByteReads(w: Wrapping, sources: nat)
    requires sources < 16
    ensures var b := FirstByte(w, sources);
            && b < 256 && b / 64 == 2 && b % 16 == sources
            && (b / 16 % 2 == 0 <==> w.extension.None?) && (b / 32 % 2 == 0 <==> w.padding == [])
  {
  }

  /** Where the pieces of a full packet lie. */
  lemma FullWireLies(h: Header, w: Wrapping, sources: nat, words: nat, payload: seq<byte>)
    requires IsWrapping(w, sources, words)
    ensures var d, e := FullWire(h, w, sources, words, payload), ExtensionText(w.extension, words);
            var start := HEADER_SIZE + 4 * sources + |e|;
            && d[0] == FirstByte(w, sources) && d[..HEADER_SIZE][1..] == Head(h)[1..]
            && d[HEADER_SIZE + 4 * sources..start] == e
            && d[start..start + |payload|] == payload && d[start + |payload|..] == w.padding
            && |d| == start + |payload| + |w.padding|
  {
    var d, e := FullWire(h, w, sources, words, payload), ExtensionText(w.extension, words);
    var front := [FirstByte(w, sources)] + Head(h)[1..];
    assert |front| == HEADER_SIZE;
    assert d == front + (w.sources + e + payload + w.padding);
    assert d[..HEADER_SIZE] == front && front[1..] == Head(h)[1..];
  }

  lemma StartFound(d: seq<byte>, w: Wrapping, sources: nat, words: nat)
    requires |d| >= HEADER_SIZE && IsWrapping(w, sources, words) && d[0] == FirstByte(w, sources)
    requires var e := ExtensionText(w.extension, words);
             |d| >= HEADER_SIZE + 4 * sources + |e|
                 && d[HEADER_SIZE + 4 * sources..HEADER_SIZE + 4 * sources + |e|] == e
    ensures PayloadStart(d) == Some(HEADER_SIZE + 4 * sources + |ExtensionText(w.extension, words)|)
  {
    FirstByteReads(w, sources);
    if w.extension.Some? {
      var i, e := HEADER_SIZE + 4 * sources, ExtensionText(w.extension, words);
      assert d[i + 2] == e[2] && d[i + 3] == e[3];
      assert words / 256 * 256 + words % 256 == words;
    }
  }

  lemma EndFound(d: seq<byte>, w: Wrapping, sources: nat, words: nat, start: nat, end: nat)
    requires |d| >= HEADER_SIZE && IsWrapping(w, sources, words) && d[0] == FirstByte(w, sources)
    requires start <= end <= |d| && d[end..] == w.padding
    ensures PayloadEnd(d, start) == Some(end)
  {
    FirstByteReads(w, sources);
    if w.padding != [] {
      assert d[|d| - 1] == w.padding[|w.padding| - 1];
    }
  }

  lemma FullHeaderReads(d: seq<byte>, h: Header)
    requires |d| >= HEADER_SIZE && d[..HEADER_SIZE][1..] == Head(h)[1..]
    ensures HeaderIn(d) == h.(payloadType := h.payloadType % 128) && d[1] == SecondByte(h)
  {
    WireBytes(h, []);
    var head, front := Head(h), d[..HEADER_SIZE];
    assert Wire(h, []) == head;
    assert forall i :: 1 <= i < HEADER_SIZE ==> d[i] == front[1..][i - 1] == head[1..][i - 1] == head[i];
    HeaderReads(d, h);
  }

  /** Whatever surrounds the payload, parsing finds the header and exactly the payload. */
  lemma ParseOfFullWire(h: Header, w: Wrapping, sources: nat, words: nat, payload: seq<byte>)
    requires IsWrapping(w, sources, words) && Sendable(h)
    ensures ParseRtp(FullWire(h, w, sources, words, payload)) == Good(Packet(h, payload))
  {
    var d := FullWire(h, w, sources, words, payload);
    var start := HEADER_SIZE + 4 * sources + |ExtensionText(w.extension, words)|;
    FullWireLies(h, w, sources, words, payload);
    FirstByteReads(w, sources);
    FullHeaderReads(d, h);
    SecondByteReads(h);
    StartFound(d, w, sources, words);
    EndFound(d, w, sources, words, start, start + |payload|);
  }

  // ---- Sequence tracking ----

  datatype Stats = Stats(started: bool, base: int, highest: int, received: nat)

  const NO_STATS: Stats := Stats(false, 0, 0, 0)

  /** The number congruent to the sequence number that is nearest to the highest so far. */
  function Unwrap(highest: int, sequence: u16): int {
    var extended := highest - highest % SEQUENCES + sequence;
    var lowered := if extended - highest > 32768 then extended - SEQUENCES else extended;
    if highest - lowered > 32768 then lowered + SEQUENCES else lowered
  }

  function Track(s: Stats, extended: int): Stats {
    if !s.started then Stats(true, extended, extended, s.received + 1)
    else if extended - s.highest > MAX_DROPOUT || s.highest - extended > MAX_DROPOUT then
      Stats(true, extended, extended, 1)
    else s.(highest := if extended > s.highest then extended else s.highest, received := s.received + 1)
  }

  function Extend(s: Stats, sequence: u16): int {
    if s.started then Unwrap(s.highest, sequence) else sequence
  }

  function Received(s: Stats, sequence: u16): Stats { Track(s, Extend(s, sequence)) }

  /** Packets expected but not received. */
  function Lost(s: Stats): nat {
    if s.started && s.highest - s.base + 1 > s.received then s.highest - s.base + 1 - s.received else 0
  }

  // ---- Interarrival jitter ----

  /** The transit of the latest packet, modulo 2^32, and the smoothed difference between transits. */
  datatype Estimate = Estimate(transit: u32, jitter: real)

  const NO_ESTIMATE: Estimate := Estimate(0, 0.0)

  /** Subtraction of 32-bit timestamps, which wraps. */
  function Difference(a: u32, b: u32): u32 { if a < b then a - b + 0x1_0000_0000 else a - b }

  /** A 32-bit word read as a signed number. */
  function Signed(x: u32): int { if x < 0x8000_0000 then x else x - 0x1_0000_0000 }

  function Magnitude(x: int): nat { if x < 0 then -x else x }

  /** The estimate after a packet, the `received`-th of its epoch (appendix A.8 of RFC 3550, in real arithmetic). */
  function Smooth(e: Estimate, received: nat, transit: u32): Estimate {
    var delta := Magnitude(Signed(Difference(transit, e.transit)));
    Estimate(transit, if received > 1 then e.jitter + (delta as real - e.jitter) / 16.0 else e.jitter)
  }

  /** Wrapping does no harm: while transits differ by less than 2^31, the difference taken is the true one. */
  lemma TransitDifference(sent: int, arrived: int, sent': int, arrived': int)
    requires -0x8000_0000 <= (arrived' - sent') - (arrived - sent) < 0x8000_0000
    ensures var m := 0x1_0000_0000;
            Signed(Difference(Difference(arrived' % m, sent' % m), Difference(arrived % m, sent % m))) ==
            (arrived' - sent') - (arrived - sent)
  {
    var m := 0x1_0000_0000;
    TransitModulo(arrived, sent);
    TransitModulo(arrived', sent');
    TransitModulo(arrived' - sent', arrived - sent);
    var d := (arrived' - sent') - (arrived - sent);
    assert d % m == if d < 0 then d + m else d;
  }

  lemma TransitModulo(a: int, b: int)
    ensures var m := 0x1_0000_0000; Difference(a % m, b % m) == (a - b) % m
  {
    var m := 0x1_0000_0000;
    var p, q := a / m, b / m;
    assert a - b == (p - q) * m + (a % m - b % m);
    RemainderIs(a - b, if a % m < b % m then p - q - 1 else p - q, Difference(a % m, b % m));
  }

  lemma RemainderIs(x: int, k: int, r: int)
    requires 0 <= r < 0x1_0000_0000 && x == k * 0x1_0000_0000 + r
    ensures x % 0x1_0000_0000 == r
  {
  }

  /** The estimate after packets with these transits; `counts` says which packet of its epoch each one is. */
  function Estimated(transits: seq<u32>, counts: seq<nat>): Estimate
    requires |transits| == |counts|
  {
    if transits == [] then NO_ESTIMATE
    else
      var n := |transits| - 1;
      Smooth(Estimated(transits[..n], counts[..n]), counts[n], transits[n])
  }

  lemma {:induction false} LatestTransit(transits: seq<u32>, counts: seq<nat>)
    requires |transits| == |counts| && transits != []
    ensures Estimated(transits, counts).transit == transits[|transits| - 1]
  {
  }

  ghost predicate Steady(transits: seq<u32>, counts: seq<nat>, i: nat, bound: real)
    requires 0 < i < |transits| == |counts|
  {
    counts[i] > 1 ==> Magnitude(Signed(Difference(transits[i], transits[i - 1]))) as real <= bound
  }

  lemma SmoothWithin(e: Estimate, received: nat, transit: u32, bound: real)
    requires 0.0 <= e.jitter <= bound
    requires received > 1 ==> Magnitude(Signed(Difference(transit, e.transit))) as real <= bound
    ensures 0.0 <= Smooth(e, received, transit).jitter <= bound
  {
  }

  /** Over any packets, restarts included, the estimate never exceeds the largest difference between transits. */
  lemma {:induction false} JitterWithin(transits: seq<u32>, counts: seq<nat>, bound: real)
    requires |transits| == |counts| && bound >= 0.0 && (counts != [] ==> counts[0] <= 1)
    requires forall i :: 0 < i < |transits| ==> Steady(transits, counts, i, bound)
    ensures 0.0 <= Estimated(transits, counts).jitter <= bound
    decreases |transits|
  {
    if transits != [] {
      var n := |transits| - 1;
      forall i | 0 < i < n ensures Steady(transits[..n], counts[..n], i, bound) {
        assert Steady(transits, counts, i, bound);
      }
      JitterWithin(transits[..n], counts[..n], bound);
      if n > 0 {
        LatestTransit(transits[..n], counts[..n]);
        assert Steady(transits, counts, n, bound);
      }
      SmoothWithin(Estimated(transits[..n], counts[..n]), counts[n], transits[n], bound);
    }
  }

  class ReceiveStatistics {
    var started: bool
    var base: int
    var highest: int
    var received: nat
    var lastTransit: u32
    var jitter: real

    function Abs(): Stats
      reads this
    {
      Stats(started, base, highest, received)
    }

    function Estimation(): Estimate
      reads this
    {
      Estimate(lastTransit, jitter)
    }

    constructor ()
      ensures Abs() == NO_STATS && Estimation() == NO_ESTIMATE
    {
      started, base, highest, received := false, 0, 0, 0;
      lastTransit, jitter := 0, 0.0;
    }

    method OnPacket(sequence: u16, timestamp: u32, arrival: u32) returns (extended: int)
      modifies this
      ensures extended == Extend(old(Abs()), sequence) && Abs() == Received(old(Abs()), sequence)
      ensures Estimation() == Smooth(old(Estimation()), received, Difference(arrival, timestamp))
    {
      if !started {
        started := true;
        extended := sequence;
        base, highest := extended, extended;
      } else {
        var cycle := highest - highest % SEQUENCES;
        extended := cycle + sequence;
        if extended - highest > 32768 {
          extended := extended - SEQUENCES;
        }
        if highest - extended > 32768 {
          extended := extended + SEQUENCES;
        }
        var distance := if extended > highest then extended - highest else highest - extended;
        if distance > MAX_DROPOUT {
          base, highest, received := extended, extended, 0;
        } else if extended > highest {
          highest := extended;
        }
      }
      received := received + 1;
      var transit := Difference(arrival, timestamp);
      if received > 1 {
        var delta := Signed(Difference(transit, lastTransit));
        jitter := jitter + (Magnitude(delta) as real - jitter) / 16.0;
      }
      lastTransit := transit;
    }
  }

  // ---- Recovering frame numbers ----

  /** The number lies within half the range of 16-bit numbers; on the edge it depends on the half `highest` is in. */
  predicate Recoverable(highest: int, n: int) {
    || -32768 < n - highest < 32768
    || (n - highest == 32768 && highest % SEQUENCES < 32768)
    || (n - highest == -32768 && highest % SEQUENCES >= 32768)
  }

  /** Unwrapping the low 16 bits finds the true number exactly when it is recoverable. */
  lemma UnwrapRecovers(highest: int, n: int)
    ensures Unwrap(highest, n % SEQUENCES) == n <==> Recoverable(highest, n)
  {
    var h, m := highest % SEQUENCES, n % SEQUENCES;
    var p, q := highest / SEQUENCES, n / SEQUENCES;
    assert highest == p * SEQUENCES + h && n == q * SEQUENCES + m;
    assert highest - h + m == p * SEQUENCES + m;
    assert Unwrap(highest, m) == n <==> Unwrap(highest, m) - (p * SEQUENCES + m) == (q - p) * SEQUENCES;
  }

  /** The tracker as it would run on the true numbers. */
  function Follow(ns: seq<int>): Stats {
    if ns == [] then NO_STATS else Track(Follow(ns[..|ns| - 1]), ns[|ns| - 1])
  }

  /** Each number is recoverable from the tracker's own highest, which starts over after a jump. */
  ghost predicate Receivable(ns: seq<int>) {
    forall i :: 0 < i < |ns| ==> Recoverable(Follow(ns[..i]).highest, ns[i])
  }

  /** What the receiver makes of frames with these true numbers, of which it sees the low 16 bits. */
  function Receive(ns: seq<int>): (Stats, seq<int>) {
    if ns == [] then (NO_STATS, [])
    else
      var (s, out) := Receive(ns[..|ns| - 1]);
      var sequence := ns[|ns| - 1] % SEQUENCES;
      (Received(s, sequence), out + [Extend(s, sequence)])
  }

  /** The multiple of 65536 the receiver's numbers are off by. */
  function Shift(ns: seq<int>): int
    requires ns != []
  {
    ns[0] - ns[0] % SEQUENCES
  }

  lemma ShiftIsMultiple(ns: seq<int>)
    requires ns != []
    ensures Shift(ns) % SEQUENCES == 0
  {
  }

  lemma SameLowBits(n: int, shift: int)
    requires shift % SEQUENCES == 0
    ensures (n - shift) % SEQUENCES == n % SEQUENCES
  {
    var k := shift / SEQUENCES;
    assert shift == k * SEQUENCES;
  }

  lemma SameRecoverable(highest: int, n: int, shift: int)
    requires shift % SEQUENCES == 0
    ensures Recoverable(highest - shift, n - shift) == Recoverable(highest, n)
  {
    SameLowBits(highest, shift);
  }

  function Shifted(s: Stats, shift: int): Stats { s.(base := s.base - shift, highest := s.highest - shift) }

  /** The state after packets with these true numbers. */
  ghost predicate Tracks(s: Stats, ns: seq<int>)
    requires ns != []
  {
    s == Shifted(Follow(ns), Shift(ns))
  }

  lemma {:induction false} FollowStarted(ns: seq<int>)
    requires ns != []
    ensures Follow(ns).started && Follow(ns).received > 0
    decreases |ns|
  {
    if |ns| > 1 {
      FollowStarted(ns[..|ns| - 1]);
    }
  }

  lemma FollowNext(ns: seq<int>, n: int)
    ensures Follow(ns + [n]) == Track(Follow(ns), n)
  {
    assert (ns + [n])[..|ns|] == ns;
  }

  lemma TrackNext(s: Stats, ns: seq<int>, n: int)
    requires ns != [] && Tracks(s, ns)
    ensures Extend(s, n % SEQUENCES) == n - Shift(ns) <==> Recoverable(Follow(ns).highest, n)
    ensures Recoverable(Follow(ns).highest, n) ==> Tracks(Received(s, n % SEQUENCES), ns + [n])
  {
    var shift := Shift(ns);
    ShiftIsMultiple(ns);
    FollowStarted(ns);
    SameLowBits(n, shift);
    SameRecoverable(Follow(ns).highest, n, shift);
    UnwrapRecovers(s.highest, n - shift);
    FollowNext(ns, n);
  }

  lemma TrackFirst(n: int)
    ensures Extend(NO_STATS, n % SEQUENCES) == n - Shift([n]) && Tracks(Received(NO_STATS, n % SEQUENCES), [n])
  {
    FollowNext([], n);
    assert [] + [n] == [n];
  }

  ghost predicate Recovered(out: seq<int>, ns: seq<int>)
    requires ns != []
  {
    |out| == |ns| && forall i :: 0 <= i < |ns| ==> out[i] == ns[i] - Shift(ns)
  }

  lemma RecoveredNext(out: seq<int>, ns: seq<int>, o: int, n: int)
    requires ns != [] && |out| == |ns|
    ensures Recovered(out + [o], ns + [n]) <==> Recovered(out, ns) && o == n - Shift(ns)
  {
    var out', ns' := out + [o], ns + [n];
    assert Shift(ns') == Shift(ns) && out'[|ns|] == o && ns'[|ns|] == n;
    assert forall i :: 0 <= i < |ns| ==> out'[i] == out[i] && ns'[i] == ns[i];
  }

  lemma ReceivableNext(ns: seq<int>, n: int)
    requires ns != []
    ensures Receivable(ns + [n]) <==> Receivable(ns) && Recoverable(Follow(ns).highest, n)
  {
    var ns' := ns + [n];
    assert ns'[..|ns|] == ns && ns'[|ns|] == n;
    assert forall i :: 0 < i < |ns| ==> ns'[..i] == ns[..i] && ns'[i] == ns[i];
  }

  lemma ReceivableFront(ns: seq<int>)
    requires |ns| > 1 && Receivable(ns)
    ensures Receivable(ns[..|ns| - 1])
  {
    assert ns == ns[..|ns| - 1] + [ns[|ns| - 1]];
    ReceivableNext(ns[..|ns| - 1], ns[|ns| - 1]);
  }

  lemma {:induction false} AsManyOut(ns: seq<int>)
    ensures |Receive(ns).1| == |ns|
    decreases |ns|
  {
    if ns != [] {
      AsManyOut(ns[..|ns| - 1]);
    }
  }

  /**
   * However packets are lost, repeated or reordered, the receiver recovers every true number up to one multiple of
   * 65536, the same for all, exactly when each is within half the range of the tracker's own highest.
   */
  lemma {:induction false} NumbersRecovered(ns: seq<int>)
    requires ns != []
    ensures Recovered(Receive(ns).1, ns) <==> Receivable(ns)
    ensures Receivable(ns) ==> Tracks(Receive(ns).0, ns)
    ensures Shift(ns) % SEQUENCES == 0
    decreases |ns|
  {
    var front, last := ns[..|ns| - 1], ns[|ns| - 1];
    assert ns == front + [last];
    ShiftIsMultiple(ns);
    if front == [] {
      TrackFirst(last);
      assert Receive(ns).1 == [last - Shift([last])];
    } else {
      NumbersRecovered(front);
      AsManyOut(front);
      var (s, out) := Receive(front);
      ReceivableNext(front, last);
      RecoveredNext(out, front, Extend(s, last % SEQUENCES), last);
      if Receivable(front) {
        TrackNext(s, front, last);
      }
    }
  }

  // ---- Loss ----

  ghost predicate Distinct(ns: seq<int>) {
    forall i, j :: 0 <= i < j < |ns| ==> ns[i] != ns[j]
  }

  function HighestOf(ns: seq<int>): int
    requires ns != []
  {
    if |ns| == 1 then ns[0]
    else
      var front, last := HighestOf(ns[..|ns| - 1]), ns[|ns| - 1];
      if last > front then last else front
  }

  /** Each number is within 3000 of the highest before it, so that the tracker never starts over. */
  ghost predicate Near(ns: seq<int>) {
    forall i :: 0 < i < |ns| ==> -MAX_DROPOUT <= ns[i] - HighestOf(ns[..i]) <= MAX_DROPOUT
  }

  lemma NearFront(ns: seq<int>)
    requires |ns| > 1 && Near(ns)
    ensures Near(ns[..|ns| - 1])
  {
    var front := ns[..|ns| - 1];
    assert forall i :: 0 < i < |front| ==> front[..i] == ns[..i] && front[i] == ns[i];
  }

  lemma {:induction false} NearFollows(ns: seq<int>)
    requires ns != [] && Near(ns)
    ensures Follow(ns) == Stats(true, ns[0], HighestOf(ns), |ns|) && Receivable(ns)
    decreases |ns|
  {
    var front, last := ns[..|ns| - 1], ns[|ns| - 1];
    if front != [] {
      NearFront(ns);
      NearFollows(front);
      assert ns == front + [last];
      ReceivableNext(front, last);
    } else {
      assert Follow(front) == NO_STATS;
    }
  }

  /** The numbers from the first to the highest that never came. */
  ghost function MissingFrom(ns: seq<int>): set<int>
    requires ns != []
  {
    set k: int | ns[0] <= k <= HighestOf(ns) && k !in ns
  }

  ghost function Interval(a: int, b: int): set<int>
    decreases b - a
  {
    if a >= b then {} else Interval(a, b - 1) + {b - 1}
  }

  lemma {:induction false} IntervalHolds(a: int, b: int)
    ensures forall k :: k in Interval(a, b) <==> a <= k < b
    decreases b - a
  {
    if a < b {
      IntervalHolds(a, b - 1);
    }
  }

  lemma {:induction false} IntervalSize(a: int, b: int)
    requires a <= b
    ensures |Interval(a, b)| == b - a
    decreases b - a
  {
    if a < b {
      IntervalSize(a, b - 1);
      IntervalHolds(a, b - 1);
    }
  }

  ghost function Elements(ns: seq<int>): set<int> { set k | k in ns }

  lemma {:induction false} ElementsSize(ns: seq<int>)
    requires Distinct(ns)
    ensures |Elements(ns)| == |ns|
    decreases |ns|
  {
    if ns == [] {
      assert Elements(ns) == {};
    } else {
      var front, last := ns[..|ns| - 1], ns[|ns| - 1];
      ElementsSize(front);
      assert Elements(ns) == Elements(front) + {last};
      assert last !in front;
    }
  }

  lemma {:induction false} HighestBounds(ns: seq<int>)
    requires ns != []
    ensures forall i :: 0 <= i < |ns| ==> ns[i] <= HighestOf(ns)
    decreases |ns|
  {
    if |ns| > 1 {
      HighestBounds(ns[..|ns| - 1]);
    }
  }

  lemma GapsCounted(ns: seq<int>)
    requires ns != [] && Distinct(ns) && forall i :: 0 <= i < |ns| ==> ns[0] <= ns[i]
    ensures |MissingFrom(ns)| == HighestOf(ns) + 1 - ns[0] - |ns|
  {
    HighestBounds(ns);
    var all, came := Interval(ns[0], HighestOf(ns) + 1), Elements(ns);
    IntervalSize(ns[0], HighestOf(ns) + 1);
    IntervalHolds(ns[0], HighestOf(ns) + 1);
    ElementsSize(ns);
    assert came <= all;
    assert MissingFrom(ns) == all - came;
    assert |all - came| == |all| - |came|;
  }

  /** For distinct packets none of which precedes the first, the loss count is exactly the number of gaps. */
  lemma LossIsExact(ns: seq<int>)
    requires ns != [] && Near(ns) && Distinct(ns) && forall i :: 0 <= i < |ns| ==> ns[0] <= ns[i]
    ensures Lost(Receive(ns).0) == |MissingFrom(ns)|
  {
    NearFollows(ns);
    NumbersRecovered(ns);
    GapsCounted(ns);
  }
}
