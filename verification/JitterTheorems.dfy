/** What the jitter buffer guarantees over whole runs, and how playout follows its target. */
module JitterTheorems {
  import opened OrderStatistics
  import opened JitterSpec

  // ---- The window ----

  /** The window holds the latest transits, the oldest of them where the next one will be written. */
  ghost predicate Windowed(b: Buffer) {
    var n := |b.tally.transits|;
    && b.at < WINDOW
    && (n < WINDOW ==> b.window == b.tally.transits && b.at == n)
    && (n >= WINDOW ==> |b.window| == WINDOW
                        && b.window[b.at..] + b.window[..b.at] == b.tally.transits[n - WINDOW..])
  }

  lemma FullWindowTurns(window: seq<int>, at: nat, recent: seq<int>, transit: int)
    requires |window| == WINDOW && at < WINDOW && window[at..] + window[..at] == recent
    ensures var w, k := window[at := transit], NextAt(at); w[k..] + w[..k] == recent[1..] + [transit]
  {
    var w := window[at := transit];
    if at + 1 == WINDOW {
      assert w[0..] + w[..0] == w;
      assert recent == [window[at]] + window[..at];
      assert w == window[..at] + [transit];
    } else {
      assert w[at + 1..] == window[at + 1..] && w[..at + 1] == window[..at] + [transit];
      assert recent[1..] == window[at + 1..] + window[..at];
    }
  }

  lemma RecordWindowed(b: Buffer, transit: int)
    requires Windowed(b)
    ensures Windowed(Record(b, transit))
  {
    if |b.tally.transits| >= WINDOW {
      FullWindowed(b, transit);
    } else {
      FillingWindowed(b, transit);
    }
  }

  lemma FullWindowed(b: Buffer, transit: int)
    requires Windowed(b) && |b.tally.transits| >= WINDOW
    ensures Windowed(Record(b, transit))
  {
    var n, t := |b.tally.transits|, b.tally.transits;
    FullWindowTurns(b.window, b.at, t[n - WINDOW..], transit);
    assert (t + [transit])[n + 1 - WINDOW..] == t[n - WINDOW..][1..] + [transit];
  }

  lemma FillingWindowed(b: Buffer, transit: int)
    requires Windowed(b) && |b.tally.transits| < WINDOW
    ensures Windowed(Record(b, transit))
  {
    var w := b.window + [transit];
    assert w[0..] + w[..0] == w && (b.tally.transits + [transit])[0..] == w;
  }

  /** As a multiset, the window is the last transits since the last reset, up to 250 of them. */
  lemma WindowHoldsRecent(b: Buffer)
    requires Windowed(b)
    ensures var n := |b.tally.transits|;
            var kept := if n < WINDOW then n else WINDOW;
            |b.window| == kept && multiset(b.window) == multiset(b.tally.transits[n - kept..])
  {
    var n := |b.tally.transits|;
    if n < WINDOW {
      assert b.tally.transits[0..] == b.tally.transits;
    } else {
      assert b.window == b.window[..b.at] + b.window[b.at..];
      assert multiset(b.window) == multiset(b.window[..b.at]) + multiset(b.window[b.at..]);
    }
  }

  // ---- The cursor ----

  ghost predicate Rising(s: seq<int>) {
    forall i, j :: 0 <= i < j < |s| ==> s[i] < s[j]
  }

  /** Everything queued is at or after the cursor, everything played before it, in rising order. */
  ghost predicate Cursor(b: Buffer) {
    && (b.next.None? ==> b.last.None?)
    && (b.next.Some? ==> forall k :: k in b.frames ==> b.next.value <= k)
    && (b.last.Some? ==> b.next.Some? && b.last.value < b.next.value)
    && Rising(b.tally.trail)
    && (b.last.None? ==> b.tally.trail == [])
    && (b.last.Some? ==> b.tally.trail != [] && b.tally.trail[|b.tally.trail| - 1] == b.last.value)
  }

  // ---- The books ----

  /** What came in went out, was discarded, was cleared, or is still there; every slot passed is accounted for. */
  ghost predicate Books(b: Buffer) {
    && b.tally.stored == b.tally.played + b.dropped + |b.frames| + b.tally.cleared
    && (b.next.Some? ==> b.next.value - b.tally.origin + b.tally.rewound ==
                           b.tally.playedHere + b.tally.missingHere + b.tally.droppedHere + b.tally.skippedHere)
    && (b.next.None? ==> b.tally.rewound == 0 && b.tally.playedHere == 0 && b.tally.missingHere == 0
                         && b.tally.droppedHere == 0 && b.tally.skippedHere == 0)
    && b.tally.playedHere == |b.tally.trail|
    && POPS_BETWEEN_DROPS * b.dropped + b.sinceDrop <= b.tally.pops
  }

  ghost predicate Inv(b: Buffer) {
    Windowed(b) && Cursor(b) && Books(b) && Measured(b) && MARGIN_US <= b.initial <= MAX_DELAY_US
  }

  lemma NewInv(initialDelay: int)
    ensures Inv(New(initialDelay))
  {
  }

  lemma SizeRemoved(frames: map<int, Frame>, k: int)
    requires k in frames
    ensures |frames - {k}| == |frames| - 1
  {
    assert frames == (frames - {k})[k := frames[k]];
  }

  lemma ResetInv(b: Buffer)
    requires Inv(b)
    ensures Inv(Reset(b))
  {
  }

  lemma RecordInv(b: Buffer, transit: int)
    requires Inv(b)
    ensures Inv(Record(b, transit)) && Record(b, transit).window != []
  {
    RecordWindowed(b, transit);
  }

  lemma StoreInv(b: Buffer, s: int, payload: Frame)
    requires Inv(b) && b.window != [] && (b.next.Some? ==> s >= b.next.value)
    ensures Inv(Store(b, s, payload).1)
  {
  }

  lemma RewindInv(b: Buffer, s: int)
    requires Inv(b) && b.next.Some? && s < b.next.value && !TooLate(b, s)
    ensures Inv(Rewind(b, s))
  {
  }

  lemma PlaceInv(b: Buffer, s: int, payload: Frame)
    requires Inv(b) && b.window != []
    ensures Inv(Place(b, s, payload).1)
  {
    if b.next.Some? && s < b.next.value {
      if !TooLate(b, s) {
        RewindInv(b, s);
        StoreInv(Rewind(b, s), s, payload);
      }
    } else {
      StoreInv(b, s, payload);
    }
  }

  /** The buffer a frame is placed in: started over after a jump, with the transit recorded. */
  lemma RecordedInv(b: Buffer, s: int, payload: Frame, arrival: int) returns (c: Buffer)
    requires Inv(b)
    ensures Inv(c) && c.window != [] && Put(b, s, payload, arrival) == Place(c, s, payload)
  {
    RestartedInv(b, s);
    c := RecordOn(Restarted(b, s), arrival - s * FRAME_US);
  }

  lemma RestartedInv(b: Buffer, s: int)
    requires Inv(b)
    ensures Inv(Restarted(b, s))
  {
    ResetInv(b);
  }

  lemma RecordOn(b: Buffer, transit: int) returns (c: Buffer)
    requires Inv(b)
    ensures c == Record(b, transit) && Inv(c) && c.window != []
  {
    RecordInv(b, transit);
    c := Record(b, transit);
  }

  lemma PutInv(b: Buffer, s: int, payload: Frame, arrival: int)
    requires Inv(b)
    ensures Inv(Put(b, s, payload, arrival).1)
  {
    var c := RecordedInv(b, s, payload, arrival);
    PlaceInv(c, s, payload);
  }

  /** `Inv` in the middle of a pop, which counts before it starts. */
  ghost predicate Popping(b: Buffer) {
    Inv(b) && POPS_BETWEEN_DROPS * b.dropped + b.sinceDrop < b.tally.pops
  }

  lemma ShrinkOneInv(b: Buffer, now: int, desired: int)
    requires Popping(b) && b.next.Some? && Shrinks(b, now, desired)
    ensures Popping(ShrinkOne(b)) && ShrinkOne(b).next.Some?
  {
    if b.next.value in b.frames {
      SizeRemoved(b.frames, b.next.value);
    }
  }

  lemma {:induction false} ShrinkInv(b: Buffer, now: int, desired: int)
    requires Popping(b) && b.next.Some?
    ensures Popping(Shrink(b, now, desired))
    decreases Offset(b, now) - desired
  {
    if Shrinks(b, now, desired) {
      ShrinkOneInv(b, now, desired);
      ShrinkInv(ShrinkOne(b), now, desired);
    }
  }

  lemma TakePlayedInv(b: Buffer)
    requires Inv(b) && b.next.Some? && b.next.value in b.frames
    ensures Inv(TakePlayed(b))
  {
    SizeRemoved(b.frames, b.next.value);
  }

  lemma TakeInv(b: Buffer)
    requires Inv(b) && b.next.Some?
    ensures Inv(Take(b).buffer)
  {
    if b.next.value in b.frames {
      TakePlayedInv(b);
    } else {
      ResetInv(TakeMissing(b));
    }
  }

  /** Counting the pop that is under way. */
  lemma PoppedInv(b: Buffer)
    requires Popping(b)
    ensures Inv(b.(sinceDrop := b.sinceDrop + 1)) && Inv(b.(expanded := b.expanded + 1, sinceDrop := b.sinceDrop + 1))
  {
  }

  lemma PopStartedInv(b: Buffer, now: int)
    requires Popping(b) && b.next.Some?
    ensures Inv(PopStarted(b, now).buffer)
  {
    var desired := Desired(b.initial, b.window);
    if Offset(b, now) < desired {
      PoppedInv(b);
    } else {
      var c := Shrink(b, now, desired);
      ShrinkInv(b, now, desired);
      PoppedInv(c);
      TakeInv(c.(sinceDrop := c.sinceDrop + 1));
    }
  }

  lemma PopInv(b: Buffer, now: int)
    requires Inv(b)
    ensures Inv(Pop(b, now).buffer)
  {
    var c := CountPop(b);
    if b.next.Some? {
      PopStartedInv(c, now);
    } else if b.frames != map[] && now - FirstOf(b.frames) * FRAME_US >= Desired(b.initial, b.window) {
      PopStartedInv(Begin(c, FirstOf(b.frames)), now);
    }
  }

  // ---- Runs ----

  datatype Operation = PutFrame(sequence: int, payload: Frame, arrival: int) | PopFrame(now: int) | ResetAll

  ghost function Step(b: Buffer, o: Operation): (c: Buffer)
    requires Inv(b)
    ensures Inv(c)
  {
    match o
    case PutFrame(s, payload, arrival) =>
      PutInv(b, s, payload, arrival);
      Put(b, s, payload, arrival).1
    case PopFrame(now) =>
      PopInv(b, now);
      Pop(b, now).buffer
    case ResetAll =>
      ResetInv(b);
      Reset(b)
  }

  ghost function Run(b: Buffer, operations: seq<Operation>): (c: Buffer)
    requires Inv(b)
    ensures Inv(c)
    decreases |operations|
  {
    if operations == [] then b else Run(Step(b, operations[0]), operations[1..])
  }

  /**
   * In every run: frames stored are played, discarded, cleared or still queued; within an epoch the cursor's advance
   * and its steps back account for every slot; the frames of an epoch are played in strictly rising order; and at most
   * one frame in ten pops is discarded.
   */
  lemma NothingLost(initialDelay: int, operations: seq<Operation>)
    ensures (NewInv(initialDelay);
             var b := Run(New(initialDelay), operations);
             && b.tally.stored == b.tally.played + b.dropped + |b.frames| + b.tally.cleared
             && (b.next.Some? ==> b.next.value - b.tally.origin + b.tally.rewound ==
                                    |b.tally.trail| + b.tally.missingHere + b.tally.droppedHere + b.tally.skippedHere)
             && Rising(b.tally.trail)
             && 10 * b.dropped <= b.tally.pops)
  {
    NewInv(initialDelay);
    var b := Run(New(initialDelay), operations);
    assert Inv(b);
  }

  // ---- The target ----

  lemma PercentileBound(n: nat)
    requires n > 0
    ensures PercentileOf(n) < n && n - 1 - PercentileOf(n) == (n + 99) / 100 - 1
  {
  }

  /** The target delay is always between 10 and 300 ms. */
  lemma TargetInRange(b: Buffer)
    requires Inv(b)
    ensures MARGIN_US <= TargetDelay(b) <= MAX_DELAY_US
  {
  }

  /** Uncapped, the offset aimed for leaves the margin above the percentile. */
  lemma AimCoversPercentile(initial: int, window: seq<int>)
    requires window != [] && MARGIN_US <= initial <= MAX_DELAY_US && Spread(initial, window) <= MAX_DELAY_US
    ensures PercentileOf(|window|) < |window|
    ensures Desired(initial, window) - MARGIN_US >= Kth(window, PercentileOf(|window|))
  {
    KthIsSample(window, PercentileOf(|window|));
  }

  /** Unless the delay is capped, at most one sample in a hundred, rounded up, less one, exceeds it less the margin. */
  lemma FewSamplesExceed(initial: int, window: seq<int>)
    requires window != [] && MARGIN_US <= initial <= MAX_DELAY_US && Spread(initial, window) <= MAX_DELAY_US
    ensures |window| - AtMost(window, Desired(initial, window) - MARGIN_US) <= (|window| + 99) / 100 - 1
  {
    AimCoversPercentile(initial, window);
    SamplesUpTo(window, Desired(initial, window) - MARGIN_US);
  }

  lemma SamplesUpTo(window: seq<int>, v: int)
    requires window != [] && PercentileOf(|window|) < |window| && v >= Kth(window, PercentileOf(|window|))
    ensures |window| - AtMost(window, v) <= (|window| + 99) / 100 - 1
  {
    var k := PercentileOf(|window|);
    PercentileBound(|window|);
    KthByCounts(window, k, Kth(window, k));
    AtMostMonotone(window, Kth(window, k), v);
  }

  lemma {:induction false} AtMostMonotone(s: seq<int>, u: int, v: int)
    requires u <= v
    ensures AtMost(s, u) <= AtMost(s, v)
    decreases |s|
  {
    if s != [] {
      AtMostMonotone(s[1..], u, v);
    }
  }

  // ---- Playout control ----

  /** The offset the buffer aims for, which only puts and resets change. */
  function Aim(b: Buffer): int
    requires b.window != []
  {
    Desired(b.initial, b.window)
  }

  /** The buffer is playing: it has a cursor and has measured transits. */
  predicate Playing(b: Buffer) { b.next.Some? && b.window != [] }

  /** Below the target a pop only waits: nothing moves and the next pop is a frame closer. */
  lemma BelowExpands(b: Buffer, now: int)
    requires Playing(b) && Measured(b) && Offset(b, now) < Aim(b)
    ensures var p := Pop(b, now);
            && p.result == Expanded && Playing(p.buffer) && Aim(p.buffer) == Aim(b)
            && p.buffer.next == b.next && p.buffer.frames == b.frames
            && p.buffer.dropped == b.dropped && p.buffer.skipped == b.skipped
            && Offset(p.buffer, now + FRAME_US) == Offset(b, now) + FRAME_US
  {
  }

  /** How shrinking moves the cursor: never so far that the offset comes within 10 ms of the target. */
  lemma {:induction false} ShrinkKeepsAbove(b: Buffer, now: int, desired: int)
    requires b.next.Some?
    ensures var c := Shrink(b, now, desired);
            && c.window == b.window && c.initial == b.initial && c.next.value >= b.next.value
            && (Offset(b, now) <= desired + SHRINK_ABOVE_US ==> c == b)
            && (Offset(b, now) > desired + SHRINK_ABOVE_US ==> Offset(c, now) > desired + MARGIN_US)
            && c.expanded == b.expanded
            && c.dropped + c.skipped - b.dropped - b.skipped == c.next.value - b.next.value
    decreases Offset(b, now) - desired
  {
    if Shrinks(b, now, desired) {
      ShrinkKeepsAbove(ShrinkOne(b), now, desired);
    }
  }

  /** At or above the target a pop consumes a slot and never expands; unless the buffer starts over, it stays there. */
  lemma AboveConsumes(b: Buffer, now: int)
    requires Playing(b) && Measured(b) && Offset(b, now) >= Aim(b)
    ensures var p := Pop(b, now);
            && (p.result == Played || p.result == Missing) && p.buffer.expanded == b.expanded
            && (p.buffer.next.Some? ==>
                  && Playing(p.buffer) && Aim(p.buffer) == Aim(b)
                  && Offset(p.buffer, now + FRAME_US) <= Offset(b, now)
                  && (Offset(b, now) > Aim(b) + SHRINK_ABOVE_US ==>
                        Offset(p.buffer, now + FRAME_US) > Aim(b) + MARGIN_US)
                  && (Offset(b, now) <= Aim(b) + SHRINK_ABOVE_US ==>
                        Offset(p.buffer, now + FRAME_US) == Offset(b, now)
                        && p.buffer.dropped == b.dropped && p.buffer.skipped == b.skipped))
  {
    ShrinkKeepsAbove(CountPop(b), now, Aim(b));
  }

  lemma {:induction false} ShrinkMeasured(b: Buffer, now: int, desired: int)
    requires b.next.Some?
    ensures Shrink(b, now, desired).window == b.window
    decreases Offset(b, now) - desired
  {
    if Shrinks(b, now, desired) {
      ShrinkMeasured(ShrinkOne(b), now, desired);
    }
  }

  lemma PopMeasured(b: Buffer, now: int)
    requires Measured(b)
    ensures Measured(Pop(b, now).buffer)
  {
    if b.next.Some? {
      ShrinkMeasured(CountPop(b), now, Aim(b));
    } else if b.frames != map[] {
      ShrinkMeasured(Begin(CountPop(b), FirstOf(b.frames)), now, Aim(b));
    }
  }

  /** `n` pops, 20 ms apart, without a put between them. */
  ghost function PopMany(b: Buffer, now: int, n: nat): seq<Popped>
    requires Measured(b)
    ensures |PopMany(b, now, n)| == n
    decreases n
  {
    if n == 0 then []
    else
      PopMeasured(b, now);
      var p := Pop(b, now);
      [p] + PopMany(p.buffer, now + FRAME_US, n - 1)
  }

  /** The number of frames that a gap of so many microseconds takes to close. */
  function FramesIn(gap: int): int { (gap + FRAME_US - 1) / FRAME_US }

  /**
   * An offset below the target takes exactly as many Expanded pops as it is frames short, rounded up, and is then
   * within a frame above the target.
   */
  lemma {:induction false} GrowsExactly(b: Buffer, now: int, n: nat)
    requires Measured(b) && b.next.Some? && Offset(b, now) < Aim(b) && n == FramesIn(Aim(b) - Offset(b, now))
    ensures n > 0
    ensures forall i :: 0 <= i < n ==> PopMany(b, now, n)[i].result == Expanded
    ensures var c := PopMany(b, now, n)[n - 1].buffer;
            && c.next == b.next && Playing(c) && Aim(c) == Aim(b)
            && Aim(c) <= Offset(c, now + n * FRAME_US) < Aim(c) + FRAME_US
    decreases n
  {
    BelowExpands(b, now);
    PopMeasured(b, now);
    var p := Pop(b, now);
    var gap := Aim(b) - Offset(b, now);
    if gap > FRAME_US {
      assert FramesIn(gap - FRAME_US) == n - 1;
      GrowsExactly(p.buffer, now + FRAME_US, n - 1);
      var rest := PopMany(p.buffer, now + FRAME_US, n - 1);
      assert PopMany(b, now, n) == [p] + rest;
      assert now + FRAME_US + (n - 1) * FRAME_US == now + n * FRAME_US;
    } else {
      assert n == 1;
    }
  }

  // ---- The way down ----

  /** Above the band, where frames are discarded. */
  predicate Above(b: Buffer, now: int)
    requires Playing(b)
  {
    Offset(b, now) > Aim(b) + SHRINK_ABOVE_US
  }

  /** The next `n` frames are queued. */
  predicate Queued(b: Buffer, n: int)
    requires b.next.Some?
  {
    forall i :: b.next.value <= i < b.next.value + n ==> i in b.frames
  }

  /** Above the band a pop plays a frame, and discards one before it if ten pops have passed since the last. */
  lemma AbovePlays(b: Buffer, now: int, n: nat)
    requires Measured(b) && Playing(b) && Above(b, now) && Queued(b, n)
    requires n >= if b.sinceDrop >= POPS_BETWEEN_DROPS then 2 else 1
    ensures var p, drop := Pop(b, now), if b.sinceDrop >= POPS_BETWEEN_DROPS then 1 else 0;
            && p.result == Played && Playing(p.buffer) && Aim(p.buffer) == Aim(b)
            && p.buffer.sinceDrop == (if drop == 1 then 1 else b.sinceDrop + 1)
            && p.buffer.dropped == b.dropped + drop && p.buffer.skipped == b.skipped
            && Offset(p.buffer, now + FRAME_US) == Offset(b, now) - drop * FRAME_US
            && Queued(p.buffer, n - 1 - drop)
  {
    var a, desired := CountPop(b), Aim(b);
    assert b.next.value in b.frames;
    if b.sinceDrop >= POPS_BETWEEN_DROPS {
      var c := Discard(a);
      assert Shrink(a, now, desired) == Shrink(c, now, desired) == c;
      assert b.next.value + 1 in c.frames;
    } else {
      assert Shrink(a, now, desired) == a;
    }
  }

  /** The pops left until a frame may be discarded. */
  function Wait(sinceDrop: nat): nat {
    if sinceDrop < POPS_BETWEEN_DROPS then POPS_BETWEEN_DROPS - sinceDrop else 0
  }

  /** The frames discarded by that many pops: the first when the wait is over, then one every ten pops. */
  function Discards(sinceDrop: nat, pops: nat): nat {
    if pops <= Wait(sinceDrop) then 0 else (pops - Wait(sinceDrop) + POPS_BETWEEN_DROPS - 1) / POPS_BETWEEN_DROPS
  }

  /** The pops it takes to discard that many frames. */
  function PopsDown(sinceDrop: nat, frames: int): int {
    Wait(sinceDrop) + POPS_BETWEEN_DROPS * (frames - 1) + 1
  }

  /** The first `n` pops all play a frame, discard at the rate above, and stay above the band until the last one. */
  ghost predicate Descends(b: Buffer, now: int, n: nat)
    requires Measured(b) && Playing(b)
  {
    forall i :: 0 <= i < n ==>
      var p := PopMany(b, now, n)[i];
      && p.result == Played && Playing(p.buffer) && Aim(p.buffer) == Aim(b) && p.buffer.skipped == b.skipped
      && p.buffer.dropped == b.dropped + Discards(b.sinceDrop, i + 1)
      && (Above(p.buffer, now + (i + 1) * FRAME_US) <==> i < n - 1)
  }

  lemma DiscardsNext(sinceDrop: nat, pops: nat)
    requires pops > 0
    ensures Discards(sinceDrop, pops) ==
            if sinceDrop >= POPS_BETWEEN_DROPS then 1 + Discards(1, pops - 1) else Discards(sinceDrop + 1, pops - 1)
  {
  }

  lemma DescendsOneMore(b: Buffer, now: int, n: nat)
    requires Measured(b) && Playing(b) && n > 1 && Measured(Pop(b, now).buffer)
    requires var p := Pop(b, now);
             && p.result == Played && Playing(p.buffer) && Aim(p.buffer) == Aim(b) && p.buffer.skipped == b.skipped
             && p.buffer.dropped == b.dropped + (if b.sinceDrop >= POPS_BETWEEN_DROPS then 1 else 0)
             && p.buffer.sinceDrop == (if b.sinceDrop >= POPS_BETWEEN_DROPS then 1 else b.sinceDrop + 1)
             && Above(p.buffer, now + FRAME_US) && Descends(p.buffer, now + FRAME_US, n - 1)
    ensures Descends(b, now, n)
  {
    var p := Pop(b, now);
    var rest := PopMany(p.buffer, now + FRAME_US, n - 1);
    assert PopMany(b, now, n) == [p] + rest;
    forall i | 0 <= i < n
      ensures var q := PopMany(b, now, n)[i];
              && q.result == Played && Playing(q.buffer) && Aim(q.buffer) == Aim(b) && q.buffer.skipped == b.skipped
              && q.buffer.dropped == b.dropped + Discards(b.sinceDrop, i + 1)
              && (Above(q.buffer, now + (i + 1) * FRAME_US) <==> i < n - 1)
    {
      DiscardsNext(b.sinceDrop, i + 1);
      if i > 0 {
        assert PopMany(b, now, n)[i] == rest[i - 1];
        assert now + FRAME_US + i * FRAME_US == now + (i + 1) * FRAME_US;
      }
    }
  }

  /** After `n` pops `k` frames have been discarded, and the offset is back in band. */
  ghost predicate ComesDown(b: Buffer, now: int, n: nat, k: nat)
    requires Measured(b) && Playing(b)
  {
    && n > 0 && Descends(b, now, n)
    && var c := PopMany(b, now, n)[n - 1].buffer;
    && c.next.Some? && c.dropped == b.dropped + k
    && Aim(b) + MARGIN_US < Offset(c, now + n * FRAME_US) <= Aim(b) + SHRINK_ABOVE_US
  }

  lemma LastPopDown(b: Buffer, now: int)
    requires Measured(b) && Playing(b) && Above(b, now) && Queued(b, 2) && b.sinceDrop >= POPS_BETWEEN_DROPS
    requires Offset(b, now) <= Aim(b) + SHRINK_ABOVE_US + FRAME_US
    ensures ComesDown(b, now, 1, 1)
  {
    var p := Pop(b, now);
    AbovePlays(b, now, 2);
    PopMeasured(b, now);
    assert PopMany(b, now, 1) == [p] + PopMany(p.buffer, now + FRAME_US, 0);
  }

  lemma OneMorePopDown(b: Buffer, now: int, n: nat, k: nat, k': nat)
    requires Measured(b) && Playing(b) && Above(b, now) && n > 1 && Measured(Pop(b, now).buffer)
    requires k == if b.sinceDrop >= POPS_BETWEEN_DROPS then k' + 1 else k'
    requires Queued(b, if b.sinceDrop >= POPS_BETWEEN_DROPS then 2 else 1)
    requires var c := Pop(b, now).buffer;
             Playing(c) && Above(c, now + FRAME_US) && ComesDown(c, now + FRAME_US, n - 1, k')
    ensures ComesDown(b, now, n, k)
  {
    var p := Pop(b, now);
    AbovePlays(b, now, if b.sinceDrop >= POPS_BETWEEN_DROPS then 2 else 1);
    DescendsOneMore(b, now, n);
    assert PopMany(b, now, n) == [p] + PopMany(p.buffer, now + FRAME_US, n - 1);
    assert now + FRAME_US + (n - 1) * FRAME_US == now + n * FRAME_US;
  }

  /** The offset is more than `k - 1` and at most `k` frames above the band. */
  predicate TooHigh(b: Buffer, now: int, k: int)
    requires Playing(b)
  {
    (k - 1) * FRAME_US < Offset(b, now) - Aim(b) - SHRINK_ABOVE_US <= k * FRAME_US
  }

  lemma PopGoesDown(b: Buffer, now: int, n: nat, k: nat, k': nat)
    requires Measured(b) && Playing(b) && k > 0 && TooHigh(b, now, k)
    requires n == PopsDown(b.sinceDrop, k) && n > 1 && Queued(b, n + k)
    requires k == if b.sinceDrop >= POPS_BETWEEN_DROPS then k' + 1 else k'
    ensures var c := Pop(b, now).buffer;
            && Measured(c) && Playing(c) && k' > 0 && TooHigh(c, now + FRAME_US, k') && Above(c, now + FRAME_US)
            && n - 1 == PopsDown(c.sinceDrop, k') && Queued(c, n - 1 + k')
  {
    AbovePlays(b, now, n + k);
    PopMeasured(b, now);
  }

  lemma {:induction false} DescendsBy(b: Buffer, now: int, n: nat, k: nat)
    requires Measured(b) && Playing(b) && k > 0 && TooHigh(b, now, k)
    requires n == PopsDown(b.sinceDrop, k) && Queued(b, n + k)
    ensures ComesDown(b, now, n, k)
    decreases n, 1
  {
    if n == 1 {
      LastPopDown(b, now);
    } else {
      DescendsOn(b, now, n, k, if b.sinceDrop >= POPS_BETWEEN_DROPS then k - 1 else k);
    }
  }

  lemma {:induction false} DescendsOn(b: Buffer, now: int, n: nat, k: nat, k': nat)
    requires Measured(b) && Playing(b) && k > 0 && TooHigh(b, now, k)
    requires n == PopsDown(b.sinceDrop, k) && n > 1 && Queued(b, n + k)
    requires k == if b.sinceDrop >= POPS_BETWEEN_DROPS then k' + 1 else k'
    ensures ComesDown(b, now, n, k)
    decreases n, 0
  {
    PopGoesDown(b, now, n, k, k');
    DescendsBy(Pop(b, now).buffer, now + FRAME_US, n - 1, k');
    OneMorePopDown(b, now, n, k, k');
  }

  lemma HowHigh(b: Buffer, now: int, k: int)
    requires Playing(b) && Above(b, now) && k == FramesIn(Offset(b, now) - Aim(b) - SHRINK_ABOVE_US)
    ensures k > 0 && TooHigh(b, now, k)
  {
  }

  /**
   * With enough consecutive frames queued and no put, an offset above the band comes down a frame every ten pops: it
   * takes exactly as many discards as it is frames too high, rounded up, and is then back in band.
   */
  lemma ShrinksExactly(b: Buffer, now: int, k: nat, n: nat)
    requires Measured(b) && Playing(b) && Above(b, now)
    requires k == FramesIn(Offset(b, now) - Aim(b) - SHRINK_ABOVE_US) && n == PopsDown(b.sinceDrop, k)
    requires Queued(b, n + k)
    ensures ComesDown(b, now, n, k)
  {
    HowHigh(b, now, k);
    DescendsBy(b, now, n, k);
  }

  // ---- Growing and shrinking do not alternate ----

  /** Whether a pop, from the buffer before it, shrank the delay. */
  predicate Shrank(before: Buffer, after: Buffer) {
    after.dropped != before.dropped || after.skipped != before.skipped
  }

  /** Up to `n` pops, 20 ms apart without a put between them, none shrinks before the buffer starts over. */
  ghost predicate NeverShrinks(b: Buffer, now: int, n: nat)
    requires Measured(b)
    decreases n
  {
    PopMeasured(b, now);
    var c := Pop(b, now).buffer;
    n == 0 || c.next.None? || (!Shrank(b, c) && NeverShrinks(c, now + FRAME_US, n - 1))
  }

  /** Likewise none grows. */
  ghost predicate NeverGrows(b: Buffer, now: int, n: nat)
    requires Measured(b)
    decreases n
  {
    PopMeasured(b, now);
    var p := Pop(b, now);
    n == 0 || (p.result != Expanded && (p.buffer.next.None? || NeverGrows(p.buffer, now + FRAME_US, n - 1)))
  }

  lemma NoShrinkStep(b: Buffer, now: int)
    requires Measured(b) && b.next.Some? && Offset(b, now) <= Aim(b) + SHRINK_ABOVE_US && Pop(b, now).buffer.next.Some?
    ensures var c := Pop(b, now).buffer;
            !Shrank(b, c) && Playing(c) && Offset(c, now + FRAME_US) <= Aim(c) + SHRINK_ABOVE_US
  {
    if Offset(b, now) < Aim(b) {
      BelowExpands(b, now);
    } else {
      AboveConsumes(b, now);
    }
  }

  /** While growing, or in band, playout does not shrink. */
  lemma {:induction false} GrowingNeverShrinks(b: Buffer, now: int, n: nat)
    requires Measured(b) && b.next.Some? && Offset(b, now) <= Aim(b) + SHRINK_ABOVE_US
    ensures NeverShrinks(b, now, n)
    decreases n
  {
    PopMeasured(b, now);
    var c := Pop(b, now).buffer;
    if n > 0 && c.next.Some? {
      NoShrinkStep(b, now);
      GrowingNeverShrinks(c, now + FRAME_US, n - 1);
    }
  }

  lemma NoGrowStep(b: Buffer, now: int)
    requires Measured(b) && b.next.Some? && Offset(b, now) >= Aim(b)
    ensures var p := Pop(b, now);
            && p.result != Expanded
            && (p.buffer.next.Some? ==> Playing(p.buffer) && Offset(p.buffer, now + FRAME_US) >= Aim(p.buffer))
  {
    AboveConsumes(b, now);
  }

  lemma NoGrowOneMore(b: Buffer, now: int, n: nat, p: Popped)
    requires Measured(b) && Measured(p.buffer) && n > 0 && p == Pop(b, now) && p.result != Expanded
    requires p.buffer.next.Some? ==> NeverGrows(p.buffer, now + FRAME_US, n - 1)
    ensures NeverGrows(b, now, n)
  {
  }

  lemma NextPop(b: Buffer, now: int) returns (p: Popped)
    requires Measured(b) && b.next.Some? && Offset(b, now) >= Aim(b)
    ensures p == Pop(b, now) && p.result != Expanded && Measured(p.buffer)
    ensures p.buffer.next.Some? ==> Playing(p.buffer) && Offset(p.buffer, now + FRAME_US) >= Aim(p.buffer)
  {
    p := Pop(b, now);
    PopMeasured(b, now);
    NoGrowStep(b, now);
  }

  /** At or above the target, in particular after shrinking, playout does not grow. */
  lemma {:induction false} ShrinkingNeverGrows(b: Buffer, now: int, n: nat)
    requires Measured(b) && b.next.Some? && Offset(b, now) >= Aim(b)
    ensures NeverGrows(b, now, n)
    decreases n
  {
    if n > 0 {
      var p := NextPop(b, now);
      if p.buffer.next.Some? {
        ShrinkingNeverGrows(p.buffer, now + FRAME_US, n - 1);
      }
      NoGrowOneMore(b, now, n, p);
    }
  }
}
