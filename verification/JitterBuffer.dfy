/** The adaptive jitter buffer as an object, proved to follow `JitterSpec`. */
module JitterBuffers {
  import opened Prelude
  import opened OrderStatistics
  import opened JitterSpec
  import T = JitterTheorems

  class JitterBuffer {
    const initialDelay: int
    var frames: map<int, Frame>
    var next: Option<int>
    var lastPlayed: Option<int>
    var missingInARow: nat
    var popsSinceDrop: nat
    const window: array<int>
    var windowCount: nat
    var windowNext: nat
    var expanded: nat
    var dropped: nat
    var skipped: nat
    ghost var tally: Tally

    ghost predicate Shaped()
      reads this
    {
      window.Length == WINDOW && windowCount <= WINDOW && windowNext < WINDOW
      && (windowNext < windowCount ==> windowCount == WINDOW) && windowNext <= windowCount
    }

    ghost function Abs(): Buffer
      requires Shaped()
      reads this, window
    {
      Buffer(initialDelay, frames, next, lastPlayed, missingInARow, popsSinceDrop, window[..windowCount], windowNext,
             expanded, dropped, skipped, tally)
    }

    ghost predicate Valid()
      reads this, window
    {
      Shaped() && T.Inv(Abs())
    }

    constructor (initialDelayUs: int)
      ensures Valid() && fresh(window) && Abs() == New(initialDelayUs)
    {
      initialDelay := Clamp(initialDelayUs, MARGIN_US, MAX_DELAY_US);
      frames, next, lastPlayed, missingInARow, popsSinceDrop := map[], None, None, 0, 0;
      window := new int[WINDOW];
      windowCount, windowNext := 0, 0;
      expanded, dropped, skipped := 0, 0, 0;
      tally := Tally(0, 0, 0, 0, 0, 0, 0, 0, 0, 0, [], []);
      new;
      assert Abs() == New(initialDelayUs);
      T.NewInv(initialDelayUs);
    }

    method Reset()
      requires Valid()
      modifies this
      ensures Valid() && Abs() == JitterSpec.Reset(old(Abs()))
    {
      T.ResetInv(Abs());
      Clear();
    }

    method Clear()
      requires Shaped()
      modifies this
      ensures Shaped() && Abs() == JitterSpec.Reset(old(Abs()))
    {
      tally := JitterSpec.Reset(Abs()).tally;
      frames, next, lastPlayed, missingInARow, popsSinceDrop := map[], None, None, 0, 0;
      windowCount, windowNext := 0, 0;
    }

    method RecordTransit(transit: int)
      requires Shaped()
      modifies this, window
      ensures Shaped() && Abs() == Record(old(Abs()), transit)
    {
      window[windowNext] := transit;
      windowNext := if windowNext + 1 == WINDOW then 0 else windowNext + 1;
      windowCount := if windowCount + 1 < WINDOW then windowCount + 1 else WINDOW;
      tally := tally.(transits := tally.transits + [transit]);
    }

    /** Puts the frame in its slot, stepping playout back to it if it is late but still of use. */
    method PlaceFrame(sequence: int, payload: Frame) returns (result: PutResult)
      requires Shaped()
      modifies this
      ensures Shaped() && (result, Abs()) == Place(old(Abs()), sequence, payload)
    {
      if next.Some? && sequence < next.value {
        var dry := frames == map[];
        var unplayedSince := lastPlayed.None? || sequence > lastPlayed.value;
        if !dry || !unplayedSince || next.value - sequence > MAX_REWIND {
          return Late;
        }
        tally := tally.(rewound := tally.rewound + (next.value - sequence));
        next := Some(sequence);
        missingInARow := 0;
      }
      if sequence in frames {
        return Duplicate;
      }
      frames := frames[sequence := payload];
      tally := tally.(stored := tally.stored + 1);
      return Stored;
    }

    method Put(sequence: int, payload: Frame, arrival: int) returns (result: PutResult)
      requires Valid()
      modifies this, window
      ensures Valid() && (result, Abs()) == JitterSpec.Put(old(Abs()), sequence, payload, arrival)
    {
      T.PutInv(Abs(), sequence, payload, arrival);
      if next.Some? && sequence - next.value > MAX_AHEAD {
        Clear();
      }
      RecordTransit(arrival - sequence * FRAME_US);
      result := PlaceFrame(sequence, payload);
    }

    /** The playout offset the buffer aims for. */
    method DesiredOffset() returns (offset: int)
      requires Shaped() && windowCount > 0
      ensures offset == Desired(initialDelay, window[..windowCount])
    {
      var scratch := window[..windowCount];
      var fastest := MinElement(scratch);
      var position := ((windowCount - 1) * 99 + 99) / 100;
      var percentile := NthElement(scratch, position);
      var delay := percentile - fastest + MARGIN_US;
      if windowCount < WARMUP && delay < initialDelay {
        delay := initialDelay;
      }
      offset := fastest + Clamp(delay, MARGIN_US, MAX_DELAY_US);
    }

    method TargetDelayUs() returns (delay: int)
      requires Valid()
      ensures delay == TargetDelay(Abs()) && MARGIN_US <= delay <= MAX_DELAY_US
    {
      T.TargetInRange(Abs());
      if windowCount == 0 {
        return initialDelay;
      }
      var fastest := MinElement(window[..windowCount]);
      var desired := DesiredOffset();
      return desired - fastest;
    }

    /** The first sequence number queued; frames are kept in order. */
    method FirstKey() returns (first: int)
      requires frames != map[]
      ensures first == FirstOf(frames)
    {
      var left := frames.Keys;
      assert left != {};
      HasElement(left);
      first :| first in left;
      left := left - {first};
      while left != {}
        invariant left <= frames.Keys && first in frames
        invariant forall k :: k in frames ==> k in left || first <= k
        decreases left
      {
        HasElement(left);
        var k :| k in left;
        left := left - {k};
        if k < first {
          first := k;
        }
      }
    }

    /** Passes over the slot at the cursor: an empty one is skipped, a frame discarded. */
    method PassSlot()
      requires Shaped() && next.Some?
      modifies this
      ensures Shaped() && Abs() == ShrinkOne(old(Abs()))
    {
      if next.value !in frames {
        skipped := skipped + 1;
        tally := tally.(skippedHere := tally.skippedHere + 1);
      } else {
        frames := frames - {next.value};
        dropped := dropped + 1;
        popsSinceDrop := 0;
        tally := tally.(droppedHere := tally.droppedHere + 1);
      }
      next := Some(next.value + 1);
    }

    /** Passes over empty slots, and at most now and then a frame, while playout is too far behind. */
    method ShrinkDelay(now: int, desired: int)
      requires Shaped() && next.Some?
      modifies this
      ensures Shaped() && Abs() == Shrink(old(Abs()), now, desired)
    {
      var offset := now - next.value * FRAME_US;
      while offset > desired + SHRINK_ABOVE_US && frames != map[]
        invariant Shaped() && next.Some? && offset == Offset(Abs(), now)
        invariant Shrink(Abs(), now, desired) == Shrink(old(Abs()), now, desired)
        decreases offset - desired
      {
        if next.value in frames && popsSinceDrop < POPS_BETWEEN_DROPS {
          break;
        }
        assert Shrinks(Abs(), now, desired);
        PassSlot();
        offset := offset - FRAME_US;
      }
      assert !Shrinks(Abs(), now, desired);
    }

    method TakeSlot() returns (result: PopResult, frame: Option<Frame>)
      requires Shaped() && next.Some?
      modifies this
      ensures Shaped() && Popped(result, frame, Abs()) == Take(old(Abs()))
    {
      var slot := next.value;
      next := Some(slot + 1);
      if slot in frames {
        lastPlayed := Some(slot);
        frame := Some(frames[slot]);
        frames := frames - {slot};
        missingInARow := 0;
        tally := tally.(played := tally.played + 1, playedHere := tally.playedHere + 1, trail := tally.trail + [slot]);
        return Played, frame;
      }
      missingInARow := missingInARow + 1;
      tally := tally.(missingHere := tally.missingHere + 1);
      if frames == map[] && missingInARow >= MISSING_BEFORE_REBUFFER {
        Clear();
      }
      return Missing, None;
    }

    method PopSlot(now: int) returns (result: PopResult, frame: Option<Frame>)
      requires Shaped() && next.Some? && windowCount > 0
      modifies this
      ensures Shaped() && Popped(result, frame, Abs()) == PopStarted(old(Abs()), now)
    {
      var desired := DesiredOffset();
      if now - next.value * FRAME_US < desired {
        expanded := expanded + 1;
        popsSinceDrop := popsSinceDrop + 1;
        return Expanded, None;
      }
      ShrinkDelay(now, desired);
      popsSinceDrop := popsSinceDrop + 1;
      result, frame := TakeSlot();
    }

    method Pop(now: int) returns (result: PopResult, frame: Option<Frame>)
      requires Valid()
      modifies this
      ensures Valid() && Popped(result, frame, Abs()) == JitterSpec.Pop(old(Abs()), now)
    {
      T.PopInv(Abs(), now);
      tally := tally.(pops := tally.pops + 1);
      if next.None? {
        if frames == map[] {
          return Buffering, None;
        }
        var first := FirstKey();
        var desired := DesiredOffset();
        if now - first * FRAME_US < desired {
          return Buffering, None;
        }
        next := Some(first);
        tally := tally.(origin := first);
      }
      result, frame := PopSlot(now);
    }
  }
}
