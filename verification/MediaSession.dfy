/** The media half of a call: numbering what is sent, and handing what arrives to the jitter buffer. */
module MediaSessions {
  import opened Prelude
  import opened Rtp
  import opened RingBuffer
  import J = JitterSpec
  import opened JitterBuffers
  import G711

  const FRAME_SAMPLES: nat := 160
  const PCMA: byte := 8

  /** `capture` holds the samples the microphone has produced and nobody has taken. */
  datatype Session = Session(capture: seq<G711.Sample>, send: Header, haveRemote: bool, remote: u32, stats: Stats,
                             estimate: Estimate, jitter: J.Buffer, sent: nat, received: nat, late: nat)

  function FirstHeader(ssrc: u32, sequence: u16, timestamp: u32): Header {
    Header(PCMA, true, sequence, timestamp, ssrc)
  }

  /** A call starts afresh: what the microphone produced before it is dropped. */
  function Started(s: Session, ssrc: u32, sequence: u16, timestamp: u32): Session {
    s.(capture := [], send := FirstHeader(ssrc, sequence, timestamp), haveRemote := false, stats := NO_STATS,
       estimate := NO_ESTIMATE, jitter := J.Reset(s.jitter), sent := 0, received := 0, late := 0)
  }

  /** The header after one more frame. */
  function Advance(h: Header): Header {
    h.(marker := false, sequence := (h.sequence + 1) % 0x1_0000,
       timestamp := (h.timestamp + FRAME_SAMPLES) % 0x1_0000_0000)
  }

  /** The oldest samples, up to a frame. */
  function Taken(capture: seq<G711.Sample>): seq<G711.Sample> {
    if |capture| < FRAME_SAMPLES then capture else capture[..FRAME_SAMPLES]
  }

  /** A frame of samples; silence fills up what the microphone has not produced. */
  function FrameOf(capture: seq<G711.Sample>): (frame: seq<G711.Sample>)
    ensures |frame| == FRAME_SAMPLES
  {
    Taken(capture) + seq(FRAME_SAMPLES - |Taken(capture)|, i => 0)
  }

  /** A new source restarts sequence tracking and playout. */
  function Meet(s: Session, ssrc: u32): Session {
    if s.haveRemote && ssrc == s.remote then s
    else s.(haveRemote := true, remote := ssrc, stats := NO_STATS, estimate := NO_ESTIMATE, jitter := J.Reset(s.jitter))
  }

  /** Division as the source divides, towards zero. */
  function Quotient(a: int, b: nat): int
    requires b > 0
  {
    if a < 0 then -(-a / b) else a / b
  }

  /** The arrival in units of 1/8000 s, modulo 2^32. */
  function ArrivalRtp(arrival: int): u32 { Quotient(arrival * 8, 1000) % 0x1_0000_0000 }

  /** A packet from the current source is counted. */
  function Count(s: Session, h: Header, arrival: int): Session {
    var stats := Received(s.stats, h.sequence);
    s.(stats := stats, estimate := Smooth(s.estimate, stats.received, Difference(ArrivalRtp(arrival), h.timestamp)),
       received := s.received + 1)
  }

  /** A frame is handed to the jitter buffer. */
  function Hand(s: Session, sequence: int, payload: seq<byte>, arrival: int): Session {
    var (result, jitter) := J.Put(s.jitter, sequence, payload, arrival);
    s.(jitter := jitter, late := s.late + if result == J.Late then 1 else 0)
  }

  function Accept(s: Session, p: Packet, arrival: int): Session {
    Hand(Count(s, p.header, arrival), Extend(s.stats, p.header.sequence), p.payload, arrival)
  }

  /**
   * What a datagram leads to. Taking a payload span outside the datagram already has no defined outcome, whatever the
   * payload type and whether or not the payload is read, so nothing is claimed of the source then; the session stays
   * as it was.
   */
  function Arrived(s: Session, datagram: seq<byte>, arrival: int): Session {
    match ParseRtp(datagram)
    case Nothing => s
    case Good(p) =>
      if p.header.payloadType != PCMA then s else Accept(Meet(s, p.header.ssrc), p, arrival)
    case Beyond(_) => s
  }

  class MediaSession {
    const capture: SpscRing<G711.Sample>
    const jitter: JitterBuffer
    var receive: ReceiveStatistics
    var sendHeader: Header
    var haveRemoteSsrc: bool
    var remoteSsrc: u32
    var packetsSent: nat
    var packetsReceived: nat
    var packetsLate: nat

    ghost predicate Valid()
      reads this, capture, capture.cells, jitter, jitter.window, receive
    {
      capture.Valid() && jitter.Valid()
    }

    ghost function Abs(): Session
      requires Valid()
      reads this, capture, capture.cells, jitter, jitter.window, receive
    {
      Session(capture.Contents(), sendHeader, haveRemoteSsrc, remoteSsrc, receive.Abs(), receive.Estimation(),
              jitter.Abs(), packetsSent, packetsReceived, packetsLate)
    }

    constructor (captured: SpscRing<G711.Sample>, initialDelayUs: int)
      requires captured.Valid()
      ensures Valid() && capture == captured
      ensures fresh(jitter) && fresh(jitter.window) && fresh(receive) && jitter.Abs() == J.New(initialDelayUs)
    {
      capture := captured;
      jitter := new JitterBuffer(initialDelayUs);
      receive := new ReceiveStatistics();
      sendHeader := Header(0, false, 0, 0, 0);
      haveRemoteSsrc, remoteSsrc := false, 0;
      packetsSent, packetsReceived, packetsLate := 0, 0, 0;
    }

    method Start(ssrc: u32, firstSequence: u16, firstTimestamp: u32)
      requires Valid()
      modifies this, capture`read, jitter
      ensures Valid() && fresh(receive) && Abs() == Started(old(Abs()), ssrc, firstSequence, firstTimestamp)
    {
      capture.Discard();
      jitter.Reset();
      receive := new ReceiveStatistics();
      packetsSent, packetsReceived, packetsLate := 0, 0, 0;
      haveRemoteSsrc := false;
      sendHeader := Header(PCMA, true, firstSequence, firstTimestamp, ssrc);
    }

    /** Takes up to a frame of captured samples, which are gone even if the packet does not fit. */
    method TakeFrame() returns (encoded: seq<byte>)
      requires Valid()
      modifies capture`read
      ensures Valid() && encoded == G711.EncodedAll(FrameOf(old(Abs()).capture))
      ensures Abs() == old(Abs()).(capture := old(Abs()).capture[|Taken(old(Abs()).capture)|..])
    {
      ghost var before := capture.Contents();
      var samples := capture.Pop(FRAME_SAMPLES);
      assert samples == before[..|samples|] && samples == Taken(before);
      assert capture.Contents() == before[|samples|..];
      encoded := G711.EncodeAll(samples + seq(FRAME_SAMPLES - |samples|, i => 0));
    }

    /** Writes the next 20 ms of captured audio; the numbering moves on only if the packet fits. */
    method NextPacket(out: array<byte>) returns (size: nat)
      requires Valid()
      modifies this, capture`read, out
      ensures Valid()
      ensures var was := old(Abs());
              var rest := was.capture[|Taken(was.capture)|..];
              if out.Length < HEADER_SIZE + FRAME_SAMPLES then
                size == 0 && out[..] == old(out[..]) && Abs() == was.(capture := rest)
              else
                && size == HEADER_SIZE + FRAME_SAMPLES
                && out[..size] == Wire(was.send, G711.EncodedAll(FrameOf(was.capture)))
                && Abs() == was.(capture := rest, send := Advance(was.send), sent := was.sent + 1)
    {
      var encoded := TakeFrame();
      size := WriteRtp(out, sendHeader, encoded);
      if size == 0 {
        return 0;
      }
      sendHeader := sendHeader.(marker := false, sequence := (sendHeader.sequence + 1) % 0x1_0000,
                                timestamp := (sendHeader.timestamp + FRAME_SAMPLES) % 0x1_0000_0000);
      packetsSent := packetsSent + 1;
    }

    /** Takes a datagram in; says whether the outcome is defined. */
    method OnPacket(datagram: seq<byte>, arrival: int) returns (isDefined: bool)
      requires Valid()
      modifies this, jitter, jitter.window, receive
      ensures Valid() && (receive == old(receive) || fresh(receive))
      ensures Abs() == Arrived(old(Abs()), datagram, arrival) && isDefined == !Overruns(datagram)
    {
      if PayloadSpan(datagram).Some? {
        PayloadInside(datagram);
      } else {
        SpanExactly(datagram);
      }
      var parsed := ParseRtp(datagram);
      match parsed {
        case Nothing => return true;
        case Good(packet) =>
          if packet.header.payloadType == PCMA {
            MeetSource(packet.header.ssrc);
            AcceptPacket(packet, arrival);
          }
          return true;
        case Beyond(_) => return false;
      }
    }

    method CountPacket(header: Header, arrival: int) returns (sequence: int)
      requires Valid()
      modifies this, receive
      ensures Valid() && receive == old(receive) && Abs() == Count(old(Abs()), header, arrival)
      ensures sequence == Extend(old(receive.Abs()), header.sequence)
    {
      sequence := receive.OnPacket(header.sequence, header.timestamp, ArrivalRtp(arrival));
      packetsReceived := packetsReceived + 1;
    }

    method HandOver(sequence: int, payload: seq<byte>, arrival: int)
      requires Valid()
      modifies this, jitter, jitter.window
      ensures Valid() && receive == old(receive) && Abs() == Hand(old(Abs()), sequence, payload, arrival)
    {
      var result := jitter.Put(sequence, payload, arrival);
      if result == J.Late {
        packetsLate := packetsLate + 1;
      }
    }

    method AcceptPacket(packet: Packet, arrival: int)
      requires Valid()
      modifies this, jitter, jitter.window, receive
      ensures Valid() && receive == old(receive) && Abs() == Accept(old(Abs()), packet, arrival)
    {
      var sequence := CountPacket(packet.header, arrival);
      HandOver(sequence, packet.payload, arrival);
    }

    method MeetSource(ssrc: u32)
      requires Valid()
      modifies this, jitter
      ensures Valid() && (receive == old(receive) || fresh(receive)) && Abs() == Meet(old(Abs()), ssrc)
    {
      if !haveRemoteSsrc || ssrc != remoteSsrc {
        haveRemoteSsrc := true;
        remoteSsrc := ssrc;
        receive := new ReceiveStatistics();
        jitter.Reset();
      }
    }
  }

  // ---- From sender to jitter buffer ----

  /** The header of the k-th packet after the first. */
  function NthHeader(first: Header, k: nat): Header {
    if k == 0 then first else Advance(NthHeader(first, k - 1))
  }

  lemma SequenceStep(x: int)
    ensures (x % 0x1_0000 + 1) % 0x1_0000 == (x + 1) % 0x1_0000
  {
  }

  lemma TimestampStep(x: int)
    ensures (x % 0x1_0000_0000 + 160) % 0x1_0000_0000 == (x + 160) % 0x1_0000_0000
  {
  }

  /** Packets are numbered and stamped one frame apart, modulo the field widths; only the first is marked. */
  lemma {:induction false} NthHeaderIs(first: Header, k: nat)
    ensures NthHeader(first, k) == first.(marker := k == 0 && first.marker, sequence := (first.sequence + k) % 0x1_0000,
                                          timestamp := (first.timestamp + FRAME_SAMPLES * k) % 0x1_0000_0000)
    decreases k
  {
    if k > 0 {
      NthHeaderIs(first, k - 1);
      SequenceStep(first.sequence + (k - 1));
      TimestampStep(first.timestamp + FRAME_SAMPLES * (k - 1));
    }
  }

  lemma HeaderArrives(first: Header, k: nat, payload: seq<byte>)
    requires first.payloadType == PCMA
    ensures var h := NthHeader(first, k);
            && ParseRtp(Wire(h, payload)) == Good(Packet(h, payload))
            && h.payloadType == PCMA && h.ssrc == first.ssrc && h.sequence == (first.sequence + k) % SEQUENCES
  {
    NthHeaderIs(first, k);
    ParseOfWire(NthHeader(first, k), payload);
  }

  /** The frame numbers of the packets that arrive. */
  function Numbers(first: Header, ks: seq<nat>): (ns: seq<int>)
    ensures |ns| == |ks|
  {
    seq(|ks|, i requires 0 <= i < |ks| => first.sequence + ks[i])
  }

  /** Each arriving packet is one that was sent, and has a time of arrival. */
  ghost predicate Delivery(frames: seq<seq<byte>>, ks: seq<nat>, arrivals: seq<int>) {
    |arrivals| == |ks| && forall i :: 0 <= i < |ks| ==> ks[i] < |frames|
  }

  /** The session after packets sent with these headers and frames arrive, in the order of `ks`. */
  function Deliver(s: Session, first: Header, frames: seq<seq<byte>>, ks: seq<nat>, arrivals: seq<int>): Session
    requires Delivery(frames, ks, arrivals)
    decreases |ks|
  {
    if ks == [] then s
    else
      var n := |ks| - 1;
      Arrived(Deliver(s, first, frames, ks[..n], arrivals[..n]), Wire(NthHeader(first, ks[n]), frames[ks[n]]),
              arrivals[n])
  }

  /** The same without the wire between them. */
  function Exchange(s: Session, first: Header, frames: seq<seq<byte>>, ks: seq<nat>, arrivals: seq<int>): Session
    requires Delivery(frames, ks, arrivals)
    decreases |ks|
  {
    if ks == [] then s
    else
      var n := |ks| - 1;
      var before := Exchange(s, first, frames, ks[..n], arrivals[..n]);
      Accept(Meet(before, first.ssrc), Packet(NthHeader(first, ks[n]), frames[ks[n]]), arrivals[n])
  }

  /** Writing and parsing leave no trace. */
  lemma {:induction false} WireIsTransparent(s: Session, first: Header, frames: seq<seq<byte>>, ks: seq<nat>,
                                             arrivals: seq<int>)
    requires first.payloadType == PCMA && Delivery(frames, ks, arrivals)
    ensures Deliver(s, first, frames, ks, arrivals) == Exchange(s, first, frames, ks, arrivals)
    decreases |ks|
  {
    if ks != [] {
      var n := |ks| - 1;
      WireIsTransparent(s, first, frames, ks[..n], arrivals[..n]);
      ArrivedIs(Deliver(s, first, frames, ks[..n], arrivals[..n]), first, ks[n], frames[ks[n]], arrivals[n]);
    }
  }

  /** The jitter buffer after these frames are put under their true numbers less `shift`. */
  function PutAll(b: J.Buffer, ns: seq<int>, shift: int, frames: seq<seq<byte>>, ks: seq<nat>,
                  arrivals: seq<int>): J.Buffer
    requires Delivery(frames, ks, arrivals) && |ns| == |ks|
    decreases |ks|
  {
    if ks == [] then b
    else
      var n := |ks| - 1;
      J.Put(PutAll(b, ns[..n], shift, frames, ks[..n], arrivals[..n]), ns[n] - shift, frames[ks[n]], arrivals[n]).1
  }

  /** Where the receiving session stands after packets with these true numbers. */
  ghost predicate Follows(s: Session, t: Session, first: Header, ns: seq<int>, frames: seq<seq<byte>>, ks: seq<nat>,
                          arrivals: seq<int>)
    requires Delivery(frames, ks, arrivals) && |ns| == |ks| && ks != []
  {
    && t.haveRemote && t.remote == first.ssrc && Tracks(t.stats, ns) && t.received == s.received + |ks|
    && t.jitter == PutAll(J.Reset(s.jitter), ns, Shift(ns), frames, ks, arrivals)
  }

  lemma AcceptIs(s: Session, p: Packet, arrival: int)
    ensures var t := Accept(s, p, arrival);
            && t.haveRemote == s.haveRemote && t.remote == s.remote && t.received == s.received + 1
            && t.stats == Received(s.stats, p.header.sequence)
            && t.jitter == J.Put(s.jitter, Extend(s.stats, p.header.sequence), p.payload, arrival).1
  {
  }

  lemma ArrivedIs(s: Session, first: Header, k: nat, frame: seq<byte>, arrival: int)
    requires first.payloadType == PCMA
    ensures Arrived(s, Wire(NthHeader(first, k), frame), arrival) ==
            Accept(Meet(s, first.ssrc), Packet(NthHeader(first, k), frame), arrival)
  {
    HeaderArrives(first, k, frame);
  }

  lemma FirstArrives(s: Session, ssrc: u32, p: Packet, n: int, arrival: int)
    requires !s.haveRemote && p.header.sequence == n % SEQUENCES
    ensures var t := Accept(Meet(s, ssrc), p, arrival);
            && t.haveRemote && t.remote == ssrc && Tracks(t.stats, [n]) && t.received == s.received + 1
            && t.jitter == J.Put(J.Reset(s.jitter), n - Shift([n]), p.payload, arrival).1
  {
    AcceptIs(Meet(s, ssrc), p, arrival);
    TrackFirst(n);
  }

  lemma NextArrives(s: Session, p: Packet, ns: seq<int>, n: int, arrival: int)
    requires s.haveRemote && ns != [] && Tracks(s.stats, ns) && p.header.sequence == n % SEQUENCES
    requires Recoverable(Follow(ns).highest, n)
    ensures var t := Accept(Meet(s, s.remote), p, arrival);
            && t.haveRemote && t.remote == s.remote && Tracks(t.stats, ns + [n]) && t.received == s.received + 1
            && t.jitter == J.Put(s.jitter, n - Shift(ns), p.payload, arrival).1
  {
    AcceptIs(s, p, arrival);
    TrackNext(s.stats, ns, n);
  }

  lemma FollowsNext(s: Session, t: Session, u: Session, first: Header, ns: seq<int>, frames: seq<seq<byte>>,
                    ks: seq<nat>, arrivals: seq<int>)
    requires |ks| > 1 && |ns| == |ks| && Delivery(frames, ks, arrivals)
    requires Follows(s, t, first, ns[..|ks| - 1], frames, ks[..|ks| - 1], arrivals[..|ks| - 1])
    requires u.haveRemote && u.remote == first.ssrc && Tracks(u.stats, ns) && u.received == t.received + 1
    requires u.jitter == J.Put(t.jitter, ns[|ks| - 1] - Shift(ns), frames[ks[|ks| - 1]], arrivals[|ks| - 1]).1
    ensures Follows(s, u, first, ns, frames, ks, arrivals)
  {
    assert Shift(ns[..|ks| - 1]) == Shift(ns);
  }

  lemma ExchangeFirst(s: Session, first: Header, frames: seq<seq<byte>>, ks: seq<nat>, arrivals: seq<int>)
    requires !s.haveRemote && |ks| == 1 && Delivery(frames, ks, arrivals)
    ensures Follows(s, Exchange(s, first, frames, ks, arrivals), first, Numbers(first, ks), frames, ks, arrivals)
  {
    var ns := Numbers(first, ks);
    assert ks[..0] == [] && arrivals[..0] == [] && ns[..0] == [] && ns == [ns[0]];
    NthHeaderIs(first, ks[0]);
    FirstArrives(s, first.ssrc, Packet(NthHeader(first, ks[0]), frames[ks[0]]), ns[0], arrivals[0]);
  }

  lemma ExchangeNext(s: Session, t: Session, p: Packet, first: Header, ns: seq<int>, frames: seq<seq<byte>>,
                     ks: seq<nat>, arrivals: seq<int>)
    requires |ks| > 1 && |ns| == |ks| && Delivery(frames, ks, arrivals)
    requires Follows(s, t, first, ns[..|ks| - 1], frames, ks[..|ks| - 1], arrivals[..|ks| - 1])
    requires p.header.sequence == ns[|ks| - 1] % SEQUENCES && p.payload == frames[ks[|ks| - 1]]
    requires Recoverable(Follow(ns[..|ks| - 1]).highest, ns[|ks| - 1])
    ensures Follows(s, Accept(Meet(t, first.ssrc), p, arrivals[|ks| - 1]), first, ns, frames, ks, arrivals)
  {
    var n := |ks| - 1;
    assert ns == ns[..n] + [ns[n]];
    NextArrives(t, p, ns[..n], ns[n], arrivals[n]);
    FollowsNext(s, t, Accept(Meet(t, first.ssrc), p, arrivals[n]), first, ns, frames, ks, arrivals);
  }

  lemma HeaderNumber(first: Header, ks: seq<nat>, i: nat)
    requires i < |ks|
    ensures NthHeader(first, ks[i]).sequence == Numbers(first, ks)[i] % SEQUENCES
  {
    NthHeaderIs(first, ks[i]);
  }

  lemma {:induction false} ExchangeFollows(s: Session, first: Header, frames: seq<seq<byte>>, ks: seq<nat>,
                                           arrivals: seq<int>)
    requires !s.haveRemote && ks != [] && Delivery(frames, ks, arrivals) && Receivable(Numbers(first, ks))
    ensures Follows(s, Exchange(s, first, frames, ks, arrivals), first, Numbers(first, ks), frames, ks, arrivals)
    decreases |ks|
  {
    if |ks| == 1 {
      ExchangeFirst(s, first, frames, ks, arrivals);
    } else {
      var n := |ks| - 1;
      assert Numbers(first, ks[..n]) == Numbers(first, ks)[..n];
      ReceivableFront(Numbers(first, ks));
      ExchangeFollows(s, first, frames, ks[..n], arrivals[..n]);
      HeaderNumber(first, ks, n);
      var packet := Packet(NthHeader(first, ks[n]), frames[ks[n]]);
      ExchangeNext(s, Exchange(s, first, frames, ks[..n], arrivals[..n]), packet, first, Numbers(first, ks), frames, ks,
                   arrivals);
    }
  }

  /**
   * From the sender's counter to the receiver's jitter buffer: whatever packets are lost, repeated or reordered, as
   * long as each is within half the range of the tracker's own highest, every frame is put, payload intact, under its
   * true number up to one multiple of 65536 that is the same for all.
   */
  lemma FramesKeepTheirNumbers(s: Session, first: Header, frames: seq<seq<byte>>, ks: seq<nat>, arrivals: seq<int>)
    requires first.payloadType == PCMA && !s.haveRemote && ks != [] && Delivery(frames, ks, arrivals)
    requires Receivable(Numbers(first, ks))
    ensures Follows(s, Deliver(s, first, frames, ks, arrivals), first, Numbers(first, ks), frames, ks, arrivals)
    ensures Shift(Numbers(first, ks)) % SEQUENCES == 0
  {
    WireIsTransparent(s, first, frames, ks, arrivals);
    ExchangeFollows(s, first, frames, ks, arrivals);
    ShiftIsMultiple(Numbers(first, ks));
  }
}
