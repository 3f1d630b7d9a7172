/** Modular arithmetic of the ring's machine-word indices. */
module IndexArithmetic {
  import opened Prelude

  /** Number of values of a `size_t`. */
  const WORD: nat := 0x1_0000_0000_0000_0000

  /** A `size_t`. */
  type word = x: int | 0 <= x < WORD

  /** `x & (cap - 1)` for a power of two `cap`: the cell that position x occupies. */
  function Mask(x: nat, cap: nat): (c: nat)
    requires cap > 0
    ensures c < cap
    decreases x
  {
    if x < cap then x else Mask(x - cap, cap)
  }

  /** What is left of an unbounded position in a machine word. */
  function Wrap(x: nat): word { Mask(x, WORD) }

  /** `size_t` addition and subtraction wrap around. */
  function Add(x: word, n: nat): word { Wrap(x + n) }

  function Sub(x: word, y: word): word { if x >= y then x - y else x + WORD - y }

  /** Masking is the remainder by the capacity. */
  lemma {:induction false} MaskIsRemainder(x: nat, cap: nat)
    requires cap > 0
    ensures Mask(x, cap) == x % cap
    decreases x
  {
    if x >= cap {
      MaskIsRemainder(x - cap, cap);
      assert (x - cap) % cap == x % cap by {
        assert x - cap == (x / cap - 1) * cap + x % cap;
        RemainderUnique(x - cap, cap, x / cap - 1, x % cap);
      }
    } else {
      RemainderUnique(x, cap, 0, x);
    }
  }

  lemma RemainderUnique(x: int, a: int, q: int, r: int)
    requires a > 0 && 0 <= r < a && x == q * a + r
    ensures x % a == r
  {
    MultipleInRange(q - x / a, a, x % a - r);
  }

  /** A multiple of a strictly between -a and a is zero. */
  lemma MultipleInRange(m: int, a: int, d: int)
    requires a > 0 && m * a == d && -a < d < a
    ensures d == 0
  {
  }

  /** A ring's capacity is a power of two no larger than half the word range. */
  ghost predicate IsCapacity(cap: nat) {
    exists k: nat :: k <= 63 && cap == Pow2(k)
  }

  lemma {:induction false} Pow2Sum(a: nat, b: nat)
    ensures Pow2(a + b) == Pow2(a) * Pow2(b)
    decreases b
  {
    if b > 0 {
      Pow2Sum(a, b - 1);
    }
  }

  lemma WordIsPow2()
    ensures Pow2(64) == WORD
  {
    assert Pow2(8) == 256 by {
      Pow2Sum(2, 2);
      Pow2Sum(4, 4);
    }
    Pow2Sum(8, 8);
    Pow2Sum(16, 16);
    Pow2Sum(32, 32);
  }

  lemma {:induction false} Pow2Monotone(a: nat, b: nat)
    requires a <= b
    ensures Pow2(a) <= Pow2(b)
    decreases b
  {
    if a < b {
      Pow2Monotone(a, b - 1);
    }
  }

  lemma CapacityDividesWord(cap: nat) returns (m: nat)
    requires IsCapacity(cap)
    ensures 0 < cap < WORD && WORD == m * cap
  {
    var k: nat :| k <= 63 && cap == Pow2(k);
    WordIsPow2();
    Pow2Sum(64 - k, k);
    Pow2Monotone(k, 63);
    m := Pow2(64 - k);
  }

  lemma {:induction false} MaskPeriodic(x: nat, k: nat, cap: nat)
    requires cap > 0
    ensures x + k * cap >= 0 && Mask(x + k * cap, cap) == Mask(x, cap)
    decreases k
  {
    if k > 0 {
      MaskPeriodic(x, k - 1, cap);
      assert x + k * cap == x + (k - 1) * cap + cap;
    }
  }

  /** Masking a wrapped index gives the same cell as masking the unbounded one. */
  lemma MaskOfWrapped(x: nat, cap: nat)
    requires IsCapacity(cap)
    ensures cap > 0 && Mask(Wrap(x), cap) == Mask(x, cap)
  {
    var m := CapacityDividesWord(cap);
    MaskTwice(x, m, cap);
  }

  lemma {:induction false} MaskTwice(x: nat, m: nat, cap: nat)
    requires cap > 0 && WORD == m * cap
    ensures Mask(Wrap(x), cap) == Mask(x, cap)
    decreases x
  {
    if x >= WORD {
      MaskTwice(x - WORD, m, cap);
      MaskPeriodic(x - WORD, m, cap);
    }
  }

  lemma {:induction false} AddOfWrapped(x: nat, n: nat)
    ensures Add(Wrap(x), n) == Wrap(x + n)
    decreases x
  {
    if x >= WORD {
      AddOfWrapped(x - WORD, n);
    }
  }

  /** The wrapped difference of two wrapped indices is exact while they are less than a word apart. */
  lemma {:induction false} SubOfWrapped(x: nat, y: nat)
    requires y <= x < y + WORD
    ensures Sub(Wrap(x), Wrap(y)) == x - y
    decreases y
  {
    if y >= WORD {
      SubOfWrapped(x - WORD, y - WORD);
    } else if x >= WORD {
      SmallMask(x - WORD, WORD);
    }
  }

  /** Two positions less than a lap apart occupy different cells. */
  lemma {:induction false} DistinctCells(x: nat, y: nat, cap: nat)
    requires cap > 0 && x < y < x + cap
    ensures Mask(x, cap) != Mask(y, cap)
    decreases x
  {
    if x >= cap {
      DistinctCells(x - cap, y - cap, cap);
    }
  }

  lemma SmallMask(x: nat, cap: nat)
    requires x < cap
    ensures Mask(x, cap) == x
  {
  }
}

/** The lock-free ring under every interleaving of its two threads, one load, store or cell copy at a time. */
module RingProtocol {
  import opened IndexArithmetic

  /** Where the producing thread is inside `push`. */
  datatype Producer<T> =
    | Ready
    | Loaded(values: seq<T>, write: word)                     // own index loaded
    | Copying(values: seq<T>, write: word, n: nat, i: nat)    // far index loaded, i cells copied

  /** Where the consuming thread is inside `pop` or `discard`. */
  datatype Consumer<T> =
    | Waiting
    | Popping(count: nat, read: word)                         // own index loaded
    | Reading(read: word, n: nat, out: seq<T>)                // far index loaded, |out| cells copied
    | Discarding(write: word)                                 // far index loaded

  /** A completed `push`: what was offered and how much of it was accepted. */
  datatype Pushed<T> = Pushed(values: seq<T>, n: nat)

  /** A completed `pop` or `discard`. */
  datatype Taken<T> = Took(values: seq<T>) | Skipped(n: nat)

  /** The shared memory, both threads, and the history of completed calls. */
  datatype Ring<T> = Ring(cap: nat, cells: seq<T>, write: word, read: word,
                          producer: Producer<T>, consumer: Consumer<T>,
                          pushed: seq<Pushed<T>>, taken: seq<Taken<T>>)
  {
    predicate Wf() { cap > 0 && |cells| == cap }
  }

  datatype Action<T> = Push(values: seq<T>) | ProducerStep | Pop(count: nat) | Discard | ConsumerStep

  function Min(x: int, y: int): int { if x < y then x else y }

  function Init<T>(cells: seq<T>): Ring<T>
  {
    Ring(|cells|, cells, 0, 0, Ready, Waiting, [], [])
  }

  /** One atomic step of the producing thread. */
  function ProducerNext<T>(s: Ring<T>): (t: Ring<T>)
    requires s.Wf()
    ensures t.Wf()
  {
    match s.producer
    case Ready => s
    case Loaded(values, write) =>
      var space := s.cap - 1 - Mask(Sub(write, s.read), s.cap);
      s.(producer := Copying(values, write, Min(|values|, space), 0))
    case Copying(values, write, n, i) =>
      if i < n && i < |values| then
        s.(cells := s.cells[Mask(Add(write, i), s.cap) := values[i]], producer := Copying(values, write, n, i + 1))
      else
        s.(write := Add(write, n), producer := Ready, pushed := s.pushed + [Pushed(values, n)])
  }

  /** One atomic step of the consuming thread. */
  function ConsumerNext<T>(s: Ring<T>): (t: Ring<T>)
    requires s.Wf()
    ensures t.Wf()
  {
    match s.consumer
    case Waiting => s
    case Popping(count, read) =>
      s.(consumer := Reading(read, Min(count, Mask(Sub(s.write, read), s.cap)), []))
    case Reading(read, n, out) =>
      if |out| < n then
        s.(consumer := Reading(read, n, out + [s.cells[Mask(Add(read, |out|), s.cap)]]))
      else
        s.(read := Add(read, n), consumer := Waiting, taken := s.taken + [Took(out)])
    case Discarding(write) =>
      s.(read := write, consumer := Waiting, taken := s.taken + [Skipped(Sub(write, s.read))])
  }

  /** Calls start only on an idle side; any other action is a step of the call in progress. */
  function Next<T>(s: Ring<T>, a: Action<T>): (t: Ring<T>)
    requires s.Wf()
    ensures t.Wf()
  {
    match a
    case Push(values) => if s.producer.Ready? then s.(producer := Loaded(values, s.write)) else s
    case ProducerStep => ProducerNext(s)
    case Pop(count) => if s.consumer.Waiting? then s.(consumer := Popping(count, s.read)) else s
    case Discard => if s.consumer.Waiting? then s.(consumer := Discarding(s.write)) else s
    case ConsumerStep => ConsumerNext(s)
  }

  /** Every interleaving is a sequence of actions. */
  function Run<T>(s: Ring<T>, actions: seq<Action<T>>): (t: Ring<T>)
    requires s.Wf()
    ensures t.Wf()
    decreases |actions|
  {
    if actions == [] then s else Run(Next(s, actions[0]), actions[1..])
  }

  /** The values accepted so far, in order. */
  function Accepted<T>(pushed: seq<Pushed<T>>): seq<T>
  {
    if pushed == [] then [] else
    var last := pushed[|pushed| - 1];
    Accepted(pushed[..|pushed| - 1]) + (if last.n <= |last.values| then last.values[..last.n] else [])
  }

  function Size<T>(t: Taken<T>): nat {
    match t case Took(values) => |values| case Skipped(n) => n
  }

  /** How many values the completed calls removed. */
  function Removed<T>(taken: seq<Taken<T>>): nat
  {
    if taken == [] then 0 else Removed(taken[..|taken| - 1]) + Size(taken[|taken| - 1])
  }

  /**
   * The consumer's history replays the accepted values from the start: every `pop` got exactly the stretch that
   * follows whatever was removed before it, and a `discard` passed over the stretch it counts.
   */
  ghost predicate Replays<T>(taken: seq<Taken<T>>, accepted: seq<T>)
  {
    && Removed(taken) <= |accepted|
    && forall k :: 0 <= k < |taken| ==> GotItsStretch(taken, k, accepted)
  }

  ghost predicate GotItsStretch<T>(taken: seq<Taken<T>>, k: nat, accepted: seq<T>)
    requires k < |taken|
  {
    taken[k].Took? ==>
      var from := Removed(taken[..k]);
      from + |taken[k].values| <= |accepted| && taken[k].values == accepted[from..from + |taken[k].values|]
  }

  // ---- The invariant, over unbounded positions: W values accepted, R removed ----

  ghost predicate Indices<T>(s: Ring<T>, w: nat, r: nat) {
    && s.Wf() && IsCapacity(s.cap) && s.cap < WORD
    && s.write == Wrap(w) && s.read == Wrap(r)
    && r <= w <= r + s.cap - 1
  }

  ghost predicate Stored<T>(s: Ring<T>, accepted: seq<T>, r: nat)
    requires s.Wf()
  {
    forall j :: r <= j < |accepted| ==> s.cells[Mask(j, s.cap)] == accepted[j]
  }

  ghost predicate ProducerOk<T>(s: Ring<T>, w: nat, r: nat)
    requires s.Wf()
  {
    match s.producer
    case Ready => true
    case Loaded(_, write) => write == s.write
    case Copying(values, write, n, i) =>
      && write == s.write && i <= n <= |values| && w + n <= r + s.cap - 1
      && forall j :: w <= j < w + i ==> s.cells[Mask(j, s.cap)] == values[j - w]
  }

  ghost predicate ConsumerOk<T>(s: Ring<T>, accepted: seq<T>, r: nat)
  {
    match s.consumer
    case Waiting => true
    case Popping(_, read) => read == s.read
    case Reading(read, n, out) =>
      read == s.read && |out| <= n && r + n <= |accepted| && out == accepted[r..r + |out|]
    case Discarding(write) =>
      r + Sub(write, s.read) <= |accepted| && write == Wrap(r + Sub(write, s.read))
  }

  ghost predicate Inv<T>(s: Ring<T>) {
    var accepted, r := Accepted(s.pushed), Removed(s.taken);
    && Indices(s, |accepted|, r)
    && Stored(s, accepted, r)
    && ProducerOk(s, |accepted|, r)
    && ConsumerOk(s, accepted, r)
    && Replays(s.taken, accepted)
  }

  lemma InitInv<T>(cells: seq<T>)
    requires IsCapacity(|cells|)
    ensures Inv(Init(cells))
  {
    var m := CapacityDividesWord(|cells|);
  }

  lemma BeginKeepsInv<T>(s: Ring<T>, a: Action<T>)
    requires Inv(s) && (a.Push? || a.Pop? || a.Discard?)
    ensures Inv(Next(s, a))
  {
    SubOfWrapped(|Accepted(s.pushed)|, Removed(s.taken));
  }

  lemma LoadedKeepsInv<T>(s: Ring<T>)
    requires Inv(s) && s.producer.Loaded?
    ensures Inv(ProducerNext(s))
  {
    SubOfWrapped(|Accepted(s.pushed)|, Removed(s.taken));
  }

  /** The cell the producer is about to write holds none of the readable values. */
  lemma WrittenCellIsFree<T>(s: Ring<T>, j: nat)
    requires Inv(s) && s.producer.Copying? && s.producer.i < s.producer.n
    requires Removed(s.taken) <= j < |Accepted(s.pushed)| + s.producer.i
    ensures Mask(Add(s.producer.write, s.producer.i), s.cap) == Mask(|Accepted(s.pushed)| + s.producer.i, s.cap)
    ensures Mask(Add(s.producer.write, s.producer.i), s.cap) != Mask(j, s.cap)
  {
    var w := |Accepted(s.pushed)|;
    AddOfWrapped(w, s.producer.i);
    MaskOfWrapped(w + s.producer.i, s.cap);
    DistinctCells(j, w + s.producer.i, s.cap);
  }

  /** Copying a value leaves every other readable or copied one where it is. */
  lemma CopyKeepsCells<T>(s: Ring<T>)
    requires Inv(s) && s.producer.Copying? && s.producer.i < s.producer.n
    ensures var t, w, i := ProducerNext(s), |Accepted(s.pushed)|, s.producer.i;
            && t == s.(cells := t.cells, producer := s.producer.(i := i + 1))
            && t.cells[Mask(w + i, s.cap)] == s.producer.values[i]
            && forall j :: Removed(s.taken) <= j < w + i ==> t.cells[Mask(j, s.cap)] == s.cells[Mask(j, s.cap)]
  {
    var w, i := |Accepted(s.pushed)|, s.producer.i;
    AddOfWrapped(w, i);
    MaskOfWrapped(w + i, s.cap);
    forall j | Removed(s.taken) <= j < w + i
      ensures ProducerNext(s).cells[Mask(j, s.cap)] == s.cells[Mask(j, s.cap)]
    {
      WrittenCellIsFree(s, j);
    }
  }

  lemma CopyKeepsInv<T>(s: Ring<T>)
    requires Inv(s) && s.producer.Copying? && s.producer.i < s.producer.n
    ensures Inv(ProducerNext(s))
  {
    CopyKeepsCells(s);
    CopiedInv(s, ProducerNext(s));
  }

  lemma CopiedInv<T>(s: Ring<T>, t: Ring<T>)
    requires Inv(s) && s.producer.Copying? && s.producer.i < s.producer.n && t.Wf()
    requires t == s.(cells := t.cells, producer := s.producer.(i := s.producer.i + 1))
    requires var w, i := |Accepted(s.pushed)|, s.producer.i;
             && t.cells[Mask(w + i, s.cap)] == s.producer.values[i]
             && forall j :: Removed(s.taken) <= j < w + i ==> t.cells[Mask(j, s.cap)] == s.cells[Mask(j, s.cap)]
    ensures Inv(t)
  {
  }

  lemma AcceptedAppend<T>(pushed: seq<Pushed<T>>, p: Pushed<T>)
    requires p.n <= |p.values|
    ensures Accepted(pushed + [p]) == Accepted(pushed) + p.values[..p.n]
  {
    assert (pushed + [p])[..|pushed|] == pushed;
  }

  lemma ReplaysMore<T>(taken: seq<Taken<T>>, accepted: seq<T>, more: seq<T>)
    requires Replays(taken, accepted)
    ensures Replays(taken, accepted + more)
  {
    forall k | 0 <= k < |taken| ensures GotItsStretch(taken, k, accepted + more) {
      assert GotItsStretch(taken, k, accepted);
    }
  }

  /** Publishing the copied values turns them into readable ones. */
  lemma PublishKeepsInv<T>(s: Ring<T>)
    requires Inv(s) && s.producer.Copying? && s.producer.i == s.producer.n
    ensures Inv(ProducerNext(s))
  {
    var accepted, r := Accepted(s.pushed), Removed(s.taken);
    var t := ProducerNext(s);
    var values, n := s.producer.values, s.producer.n;
    AcceptedAppend(s.pushed, Pushed(values, n));
    var accepted' := Accepted(t.pushed);
    AddOfWrapped(|accepted|, n);
    ReplaysMore(s.taken, accepted, values[..n]);
    forall j | r <= j < |accepted'| ensures t.cells[Mask(j, t.cap)] == accepted'[j] {
      if j >= |accepted| {
        assert s.cells[Mask(j, s.cap)] == values[j - |accepted|];
      }
    }
  }

  lemma PoppingKeepsInv<T>(s: Ring<T>)
    requires Inv(s) && s.consumer.Popping?
    ensures Inv(ConsumerNext(s))
  {
    SubOfWrapped(|Accepted(s.pushed)|, Removed(s.taken));
  }

  lemma ReadKeepsInv<T>(s: Ring<T>)
    requires Inv(s) && s.consumer.Reading? && |s.consumer.out| < s.consumer.n
    ensures Inv(ConsumerNext(s))
  {
    var accepted, r, k := Accepted(s.pushed), Removed(s.taken), |s.consumer.out|;
    var t := ConsumerNext(s);
    AddOfWrapped(r, k);
    MaskOfWrapped(r + k, s.cap);
    assert t.consumer.out == s.consumer.out + [accepted[r + k]];
    assert t.consumer.out == accepted[r..r + k + 1];
    assert ConsumerOk(t, accepted, r);
  }

  lemma RemovedAppend<T>(taken: seq<Taken<T>>, t: Taken<T>)
    ensures Removed(taken + [t]) == Removed(taken) + Size(t)
  {
    assert (taken + [t])[..|taken|] == taken;
  }

  lemma ReplaysAppend<T>(taken: seq<Taken<T>>, t: Taken<T>, accepted: seq<T>)
    requires Replays(taken, accepted)
    requires Removed(taken) + Size(t) <= |accepted|
    requires t.Took? ==> t.values == accepted[Removed(taken)..Removed(taken) + |t.values|]
    ensures Replays(taken + [t], accepted)
  {
    RemovedAppend(taken, t);
    forall k | 0 <= k < |taken| + 1 ensures GotItsStretch(taken + [t], k, accepted) {
      assert (taken + [t])[..k] == taken[..k];
      if k < |taken| {
        assert GotItsStretch(taken, k, accepted);
      } else {
        assert taken[..k] == taken;
      }
    }
  }

  lemma ReleaseKeepsInv<T>(s: Ring<T>)
    requires Inv(s)
    requires s.consumer.Discarding? || (s.consumer.Reading? && |s.consumer.out| == s.consumer.n)
    ensures Inv(ConsumerNext(s))
  {
    var r, t := Removed(s.taken), ConsumerNext(s);
    var got := t.taken[|s.taken|];
    AddOfWrapped(r, Size(got));
    ReleasedInv(s, t, got);
  }

  lemma ReleasedInv<T>(s: Ring<T>, t: Ring<T>, got: Taken<T>)
    requires Inv(s)
    requires t == s.(read := t.read, consumer := Waiting, taken := s.taken + [got])
    requires var accepted, r := Accepted(s.pushed), Removed(s.taken);
             && r + Size(got) <= |accepted| && t.read == Wrap(r + Size(got))
             && (got.Took? ==> got.values == accepted[r..r + |got.values|])
    ensures Inv(t)
  {
    RemovedAppend(s.taken, got);
    ReplaysAppend(s.taken, got, Accepted(s.pushed));
  }

  lemma NextKeepsInv<T>(s: Ring<T>, a: Action<T>)
    requires Inv(s)
    ensures Inv(Next(s, a))
  {
    match a
    case Push(_) => BeginKeepsInv(s, a);
    case Pop(_) => BeginKeepsInv(s, a);
    case Discard => BeginKeepsInv(s, a);
    case ProducerStep =>
      match s.producer {
        case Ready =>
        case Loaded(_, _) => LoadedKeepsInv(s);
        case Copying(_, _, n, i) => if i < n { CopyKeepsInv(s); } else { PublishKeepsInv(s); }
      }
    case ConsumerStep =>
      match s.consumer {
        case Waiting =>
        case Popping(_, _) => PoppingKeepsInv(s);
        case Reading(_, n, out) => if |out| < n { ReadKeepsInv(s); } else { ReleaseKeepsInv(s); }
        case Discarding(_) => ReleaseKeepsInv(s);
      }
  }

  lemma {:induction false} RunKeepsInv<T>(s: Ring<T>, actions: seq<Action<T>>)
    requires Inv(s)
    ensures Inv(Run(s, actions))
    decreases |actions|
  {
    if actions != [] {
      NextKeepsInv(s, actions[0]);
      RunKeepsInv(Next(s, actions[0]), actions[1..]);
    }
  }

  /** Under every interleaving the consumer sees the accepted values in order, minus discarded runs. */
  lemma FifoUnderEveryInterleaving<T>(cells: seq<T>, actions: seq<Action<T>>)
    requires IsCapacity(|cells|)
    ensures var s := Run(Init(cells), actions);
            && Replays(s.taken, Accepted(s.pushed))
            && 0 <= |Accepted(s.pushed)| - Removed(s.taken) <= s.cap - 1
            && Mask(Sub(s.write, s.read), s.cap) == |Accepted(s.pushed)| - Removed(s.taken)
  {
    InitInv(cells);
    RunKeepsInv(Init(cells), actions);
    var s := Run(Init(cells), actions);
    SubOfWrapped(|Accepted(s.pushed)|, Removed(s.taken));
  }

  /** No interleaving lets the two threads touch the same cell at the same time. */
  lemma NoCellIsShared<T>(cells: seq<T>, actions: seq<Action<T>>)
    requires IsCapacity(|cells|)
    ensures var s := Run(Init(cells), actions);
            s.producer.Copying? && s.producer.i < s.producer.n ==>
              var cell := Mask(Add(s.producer.write, s.producer.i), s.cap);
              && (forall j :: Removed(s.taken) <= j < |Accepted(s.pushed)| ==> cell != Mask(j, s.cap))
              && (s.consumer.Reading? && |s.consumer.out| < s.consumer.n ==>
                    cell != Mask(Add(s.consumer.read, |s.consumer.out|), s.cap))
  {
    InitInv(cells);
    RunKeepsInv(Init(cells), actions);
    var s := Run(Init(cells), actions);
    if s.producer.Copying? && s.producer.i < s.producer.n {
      forall j | Removed(s.taken) <= j < |Accepted(s.pushed)|
        ensures Mask(Add(s.producer.write, s.producer.i), s.cap) != Mask(j, s.cap)
      {
        WrittenCellIsFree(s, j);
      }
      if s.consumer.Reading? && |s.consumer.out| < s.consumer.n {
        var j := Removed(s.taken) + |s.consumer.out|;
        AddOfWrapped(Removed(s.taken), |s.consumer.out|);
        MaskOfWrapped(j, s.cap);
      }
    }
  }
}

/** The ring as one thread at a time uses it: the code's own loops over the buffer. */
module RingBuffer {
  import opened Prelude
  import opened IndexArithmetic

  /** The n values from position r on. */
  function Window<T>(cells: seq<T>, r: nat, n: nat): (s: seq<T>)
    requires |cells| > 0
    ensures |s| == n && forall i :: 0 <= i < n ==> s[i] == cells[Mask(r + i, |cells|)]
  {
    seq(n, i requires 0 <= i < n => cells[Mask(r + i, |cells|)])
  }

  /** The machine computes the cell of the i-th value after a wrapped index. */
  lemma CellOf(index: word, offset: nat, i: nat, cap: nat)
    requires IsCapacity(cap) && cap > 0
    ensures Mask(Add(Add(index, offset), i), cap) == Mask(index + offset + i, cap)
    ensures Mask(Add(index, i), cap) == Mask(index + i, cap)
  {
    AddOfWrapped(index + offset, i);
    MaskOfWrapped(index + offset + i, cap);
    MaskOfWrapped(index + i, cap);
  }

  /** Writing the cell after a window that is not a full lap extends the window. */
  lemma WindowStore<T>(cells: seq<T>, r: nat, n: nat, x: T)
    requires n < |cells|
    ensures Window(cells[Mask(r + n, |cells|) := x], r, n + 1) == Window(cells, r, n) + [x]
  {
    var cells' := cells[Mask(r + n, |cells|) := x];
    forall i | 0 <= i < n ensures Window(cells', r, n + 1)[i] == Window(cells, r, n)[i] {
      DistinctCells(r + i, r + n, |cells|);
    }
  }

  /** Taking n values off a window leaves the window of the wrapped index. */
  lemma WindowSplit<T>(cells: seq<T>, r: word, size: nat, n: nat)
    requires IsCapacity(|cells|) && |cells| > 0 && n <= size
    ensures Window(cells, r, size) == Window(cells, r, n) + Window(cells, Add(r, n), size - n)
  {
    var rest := Window(cells, Add(r, n), size - n);
    forall i | 0 <= i < size - n ensures rest[i] == Window(cells, r, size)[n + i] {
      AddOfWrapped(r + n, i);
      MaskOfWrapped(Add(r, n) + i, |cells|);
      MaskOfWrapped(r + n + i, |cells|);
    }
  }

  /** Moving the read index towards the write index leaves the rest of the distance between them. */
  lemma Advanced(read: word, write: word, n: nat)
    requires write == Add(read, Sub(write, read)) && n <= Sub(write, read)
    ensures Sub(write, Add(read, n)) == Sub(write, read) - n && write == Add(Add(read, n), Sub(write, read) - n)
  {
    var size := Sub(write, read);
    SubOfWrapped(read + size, read + n);
    AddOfWrapped(read + n, size - n);
  }

  class SpscRing<T(0)> {
    const cells: array<T>
    const mask: nat
    var write: word
    var read: word

    ghost predicate Valid()
      reads this
    {
      && IsCapacity(cells.Length) && 0 < cells.Length < WORD && mask == cells.Length - 1
      && write == Add(read, Sub(write, read)) && Sub(write, read) <= mask
    }

    /** The readable values, oldest first. */
    ghost function Contents(): seq<T>
      requires Valid()
      reads this, cells
    {
      Window(cells[..], read, Sub(write, read))
    }

    /** The smallest power of two above the requested capacity; larger requests have no power of two in a word. */
    constructor (minimumCapacity: nat)
      requires minimumCapacity + 1 <= WORD / 2
      ensures Valid() && Contents() == [] && fresh(cells)
      ensures if minimumCapacity == 0 then mask == 0 else minimumCapacity <= mask < 2 * minimumCapacity
    {
      var capacity := 1;
      ghost var k := 0;
      while capacity < minimumCapacity + 1
        invariant capacity == Pow2(k) && k <= 63
        invariant capacity == 1 || (minimumCapacity > 0 && capacity < 2 * minimumCapacity + 1)
        decreases minimumCapacity + 1 - capacity
      {
        DoublingStays(k);
        capacity := 2 * capacity;
        k := k + 1;
      }
      assert IsCapacity(capacity);
      cells := new T[capacity];
      mask := capacity - 1;
      write, read := 0, 0;
    }

    /** Appends as many of the values as fit and leaves the rest. */
    method Push(values: seq<T>) returns (n: nat)
      requires Valid()
      modifies this`write, cells
      ensures Valid()
      ensures n == (if |values| < mask - |old(Contents())| then |values| else mask - |old(Contents())|)
      ensures Contents() == old(Contents()) + values[..n]
    {
      ghost var size := Sub(write, read);
      SmallMask(size, cells.Length);
      var space := mask - Mask(Sub(write, read), mask + 1);
      n := if |values| < space then |values| else space;
      for i := 0 to n
        invariant write == old(write)
        invariant Window(cells[..], read, size + i) == old(Contents()) + values[..i]
      {
        assert old(Contents()) + values[..i + 1] == Window(cells[..], read, size + i) + [values[i]];
        StoreAt(i, size, values[i]);
      }
      SubOfWrapped(read + size + n, read);
      AddOfWrapped(read + size, n);
      SmallMask(read, WORD);
      write := Add(write, n);
    }

    /** Stores one value `i` cells after the write index. */
    method StoreAt(i: nat, ghost size: nat, value: T)
      requires Valid() && size == Sub(write, read) && size + i < mask
      modifies cells
      ensures Window(cells[..], read, size + i + 1) == Window(old(cells[..]), read, size + i) + [value]
    {
      ghost var before := cells[..];
      CellOf(read, size, i, cells.Length);
      WindowStore(before, read, size + i, value);
      cells[Mask(Add(write, i), mask + 1)] := value;
      assert cells[..] == before[Mask(read + (size + i), |before|) := value];
    }

    /** Removes up to `count` of the oldest values. */
    method Pop(count: nat) returns (values: seq<T>)
      requires Valid()
      modifies this`read
      ensures Valid()
      ensures |values| == (if count < |old(Contents())| then count else |old(Contents())|)
      ensures old(Contents()) == values + Contents()
    {
      ghost var size, cap := Sub(write, read), cells.Length;
      SmallMask(size, cap);
      var available := Mask(Sub(write, read), mask + 1);
      var n := if count < available then count else available;
      values := [];
      for i := 0 to n
        invariant read == old(read)
        invariant values == Window(cells[..], read, i)
      {
        CellOf(read, 0, i, cap);
        values := values + [cells[Mask(Add(read, i), mask + 1)]];
      }
      WindowSplit(cells[..], read, size, n);
      Advanced(read, write, n);
      read := Add(read, n);
    }

    /** Drops everything readable. */
    method Discard()
      requires Valid()
      modifies this`read
      ensures Valid() && Contents() == []
    {
      read := write;
    }
  }

  lemma DoublingStays(k: nat)
    requires k <= 63 && Pow2(k) < WORD / 2
    ensures k < 63
  {
    WordIsPow2();
    assert Pow2(64) == 2 * Pow2(63);
  }
}
