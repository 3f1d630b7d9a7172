/** The adaptive jitter buffer as functions on its state, with a tally of what went through it. */
module JitterSpec {
  import opened Prelude
  import opened OrderStatistics

  const FRAME_US: int := 20000
  const WINDOW: nat := 250
  const WARMUP: nat := 50
  const MARGIN_US: int := 10000
  const MAX_DELAY_US: int := 300000
  const SHRINK_ABOVE_US: int := FRAME_US + 10000
  const POPS_BETWEEN_DROPS: nat := 10
  const MAX_REWIND: int := 15
  const MISSING_BEFORE_REBUFFER: nat := 10
  const MAX_AHEAD: int := 500

  type Frame = seq<byte>

  datatype PutResult = Stored | Late | Duplicate

  datatype PopResult = Played | Missing | Expanded | Buffering

  /**
   * What has happened: over the whole life of the buffer the frames stored, played and cleared by resets and the pops;
   * since the last reset where playout began, how far it stepped back, what became of each slot it passed, the
   * sequence numbers played, and every transit measured.
   */
  datatype Tally = Tally(stored: nat, played: nat, cleared: nat, pops: nat,
                         origin: int, rewound: nat, playedHere: nat, missingHere: nat, droppedHere: nat,
                         skippedHere: nat, trail: seq<int>, transits: seq<int>)

  datatype Buffer = Buffer(initial: int, frames: map<int, Frame>, next: Option<int>, last: Option<int>, missing: nat,
                           sinceDrop: nat, window: seq<int>, at: nat, expanded: nat, dropped: nat, skipped: nat,
                           tally: Tally)

  function Clamp(x: int, low: int, high: int): int {
    if x < low then low else if x > high then high else x
  }

  function New(initialDelay: int): Buffer {
    Buffer(Clamp(initialDelay, MARGIN_US, MAX_DELAY_US), map[], None, None, 0, 0, [], 0, 0, 0, 0,
           Tally(0, 0, 0, 0, 0, 0, 0, 0, 0, 0, [], []))
  }

  // ---- The delay aimed for ----

  /** The position of the 99th percentile among n samples, rounded up. */
  function PercentileOf(n: nat): nat
    requires n > 0
  {
    ((n - 1) * 99 + 99) / 100
  }

  function Spread(initial: int, window: seq<int>): int
    requires window != []
  {
    var delay := Kth(window, PercentileOf(|window|)) - LeastOf(window) + MARGIN_US;
    if |window| < WARMUP && delay < initial then initial else delay
  }

  /** The playout offset aimed for: the fastest transit, plus the spread and a margin within bounds. */
  function Desired(initial: int, window: seq<int>): int
    requires window != []
  {
    LeastOf(window) + Clamp(Spread(initial, window), MARGIN_US, MAX_DELAY_US)
  }

  function TargetDelay(b: Buffer): int {
    if b.window == [] then b.initial else Desired(b.initial, b.window) - LeastOf(b.window)
  }

  // ---- Putting ----

  function Reset(b: Buffer): Buffer {
    b.(frames := map[], next := None, last := None, missing := 0, sinceDrop := 0, window := [], at := 0,
       tally := b.tally.(cleared := b.tally.cleared + |b.frames|, origin := 0, rewound := 0, playedHere := 0,
                         missingHere := 0, droppedHere := 0, skippedHere := 0, trail := [], transits := []))
  }

  function NextAt(at: nat): nat { if at + 1 == WINDOW then 0 else at + 1 }

  function Write(window: seq<int>, at: nat, transit: int): seq<int> {
    if at < |window| then window[at := transit] else window + [transit]
  }

  function Record(b: Buffer, transit: int): Buffer {
    b.(window := Write(b.window, b.at, transit), at := NextAt(b.at),
       tally := b.tally.(transits := b.tally.transits + [transit]))
  }

  function Store(b: Buffer, s: int, payload: Frame): (PutResult, Buffer) {
    if s in b.frames then (Duplicate, b)
    else (Stored, b.(frames := b.frames[s := payload], tally := b.tally.(stored := b.tally.stored + 1)))
  }

  /** Playout steps back to a frame that turned up after its slot. */
  function Rewind(b: Buffer, s: int): Buffer
    requires b.next.Some? && s < b.next.value
  {
    b.(next := Some(s), missing := 0, tally := b.tally.(rewound := b.tally.rewound + (b.next.value - s)))
  }

  predicate TooLate(b: Buffer, s: int)
    requires b.next.Some?
  {
    b.frames != map[] || (b.last.Some? && s <= b.last.value) || b.next.value - s > MAX_REWIND
  }

  predicate JumpsAhead(b: Buffer, s: int) { b.next.Some? && s - b.next.value > MAX_AHEAD }

  function Place(b: Buffer, s: int, payload: Frame): (PutResult, Buffer) {
    if b.next.Some? && s < b.next.value then
      if TooLate(b, s) then (Late, b) else Store(Rewind(b, s), s, payload)
    else Store(b, s, payload)
  }

  /** A jump far ahead starts the buffer over. */
  function Restarted(b: Buffer, s: int): Buffer { if JumpsAhead(b, s) then Reset(b) else b }

  function Put(b: Buffer, s: int, payload: Frame, arrival: int): (PutResult, Buffer) {
    Place(Record(Restarted(b, s), arrival - s * FRAME_US), s, payload)
  }

  // ---- Popping ----

  lemma HasElement(s: set<int>)
    requires s != {}
    ensures exists k :: k in s
  {
    assert (forall k :: k !in s) ==> s == {};
  }

  lemma {:induction false} LeastKey(s: set<int>) returns (least: int)
    requires s != {}
    ensures least in s && forall j :: j in s ==> least <= j
    decreases |s|
  {
    HasElement(s);
    least :| least in s;
    var rest := s - {least};
    assert forall j :: j in s ==> j == least || j in rest;
    if rest != {} {
      var other := LeastKey(rest);
      if other < least {
        least := other;
      }
    }
  }

  lemma FirstExists(frames: map<int, Frame>)
    requires frames != map[]
    ensures exists k :: k in frames && forall j :: j in frames ==> k <= j
  {
    assert frames.Keys != {};
    var k := LeastKey(frames.Keys);
    assert k in frames && forall j :: j in frames ==> k <= j;
  }

  /** The first sequence number queued. */
  ghost function FirstOf(frames: map<int, Frame>): (k: int)
    requires frames != map[]
    ensures k in frames && forall j :: j in frames ==> k <= j
  {
    FirstExists(frames);
    var k :| k in frames && forall j :: j in frames ==> k <= j;
    k
  }

  function Offset(b: Buffer, now: int): int
    requires b.next.Some?
  {
    now - b.next.value * FRAME_US
  }

  /** An empty slot passed over. */
  function Skip(b: Buffer): Buffer
    requires b.next.Some?
  {
    b.(next := Some(b.next.value + 1), skipped := b.skipped + 1,
       tally := b.tally.(skippedHere := b.tally.skippedHere + 1))
  }

  /** A frame discarded. */
  function Discard(b: Buffer): Buffer
    requires b.next.Some?
  {
    b.(frames := b.frames - {b.next.value}, next := Some(b.next.value + 1), dropped := b.dropped + 1, sinceDrop := 0,
       tally := b.tally.(droppedHere := b.tally.droppedHere + 1))
  }

  predicate Shrinks(b: Buffer, now: int, desired: int)
    requires b.next.Some?
  {
    && Offset(b, now) > desired + SHRINK_ABOVE_US && b.frames != map[]
    && (b.next.value !in b.frames || b.sinceDrop >= POPS_BETWEEN_DROPS)
  }

  function ShrinkOne(b: Buffer): Buffer
    requires b.next.Some?
  {
    if b.next.value in b.frames then Discard(b) else Skip(b)
  }

  function Shrink(b: Buffer, now: int, desired: int): (r: Buffer)
    requires b.next.Some?
    ensures r.next.Some?
    decreases Offset(b, now) - desired
  {
    if Shrinks(b, now, desired) then Shrink(ShrinkOne(b), now, desired) else b
  }

  function TakePlayed(b: Buffer): Buffer
    requires b.next.Some?
  {
    b.(last := b.next, next := Some(b.next.value + 1), frames := b.frames - {b.next.value}, missing := 0,
       tally := b.tally.(played := b.tally.played + 1, playedHere := b.tally.playedHere + 1,
                         trail := b.tally.trail + [b.next.value]))
  }

  function TakeMissing(b: Buffer): Buffer
    requires b.next.Some?
  {
    b.(next := Some(b.next.value + 1), missing := b.missing + 1,
       tally := b.tally.(missingHere := b.tally.missingHere + 1))
  }

  /** What one pop gives: the outcome, the frame if one is played, and the buffer after it. */
  datatype Popped = Popped(result: PopResult, frame: Option<Frame>, buffer: Buffer)

  /** The slot at the cursor is played, or is missing; after too many missing slots the buffer starts over. */
  function Take(b: Buffer): Popped
    requires b.next.Some?
  {
    if b.next.value in b.frames then Popped(Played, Some(b.frames[b.next.value]), TakePlayed(b))
    else
      var c := TakeMissing(b);
      Popped(Missing, None, if c.frames == map[] && c.missing >= MISSING_BEFORE_REBUFFER then Reset(c) else c)
  }

  function PopStarted(b: Buffer, now: int): Popped
    requires b.next.Some? && b.window != []
  {
    var desired := Desired(b.initial, b.window);
    if Offset(b, now) < desired then
      Popped(Expanded, None, b.(expanded := b.expanded + 1, sinceDrop := b.sinceDrop + 1))
    else
      var c := Shrink(b, now, desired);
      Take(c.(sinceDrop := c.sinceDrop + 1))
  }

  function CountPop(b: Buffer): Buffer { b.(tally := b.tally.(pops := b.tally.pops + 1)) }

  function Begin(b: Buffer, first: int): Buffer {
    b.(next := Some(first), tally := b.tally.(origin := first))
  }

  /** Whether a transit has been measured whenever the delay is needed. */
  predicate Measured(b: Buffer) { b.frames != map[] || b.next.Some? ==> b.window != [] }

  ghost function Pop(b: Buffer, now: int): Popped
    requires Measured(b)
  {
    var c := CountPop(b);
    if b.next.Some? then PopStarted(c, now)
    else if b.frames == map[] then Popped(Buffering, None, c)
    else
      var first := FirstOf(b.frames);
      if now - first * FRAME_US < Desired(b.initial, b.window) then Popped(Buffering, None, c)
      else PopStarted(Begin(c, first), now)
  }
}
