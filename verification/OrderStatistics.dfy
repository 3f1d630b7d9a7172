/** The least and the k-th smallest of some samples. */
module OrderStatistics {
  predicate Ordered(s: seq<int>) {
    forall i, j :: 0 <= i <= j < |s| ==> s[i] <= s[j]
  }

  function Insert(x: int, s: seq<int>): (r: seq<int>)
    ensures |r| == |s| + 1
  {
    if s == [] || x <= s[0] then [x] + s else [s[0]] + Insert(x, s[1..])
  }

  function Sorted(s: seq<int>): (r: seq<int>)
    ensures |r| == |s|
  {
    if s == [] then [] else Insert(s[0], Sorted(s[1..]))
  }

  /** The k-th smallest, counted from zero. */
  function Kth(s: seq<int>, k: nat): int
    requires k < |s|
  {
    Sorted(s)[k]
  }

  /** How many samples are at most v. */
  function AtMost(s: seq<int>, v: int): (n: nat)
    ensures n <= |s|
  {
    if s == [] then 0 else (if s[0] <= v then 1 else 0) + AtMost(s[1..], v)
  }

  function LeastOf(s: seq<int>): int
    requires s != []
  {
    if |s| == 1 then s[0] else var m := LeastOf(s[1..]); if s[0] < m then s[0] else m
  }

  // ---- Sorting keeps the counts ----

  lemma {:induction false} InsertOrdered(x: int, s: seq<int>)
    requires Ordered(s)
    ensures Ordered(Insert(x, s)) && (forall v :: v in Insert(x, s) <==> v == x || v in s)
    decreases |s|
  {
    if s != [] && x > s[0] {
      InsertOrdered(x, s[1..]);
      var r := Insert(x, s[1..]);
      assert s == [s[0]] + s[1..];
      forall i | 0 <= i < |r| ensures s[0] <= r[i] {
        assert r[i] in r;
      }
    }
  }

  lemma {:induction false} SortedOrdered(s: seq<int>)
    ensures Ordered(Sorted(s)) && (forall v :: v in Sorted(s) <==> v in s)
    decreases |s|
  {
    if s != [] {
      SortedOrdered(s[1..]);
      InsertOrdered(s[0], Sorted(s[1..]));
      assert s == [s[0]] + s[1..];
    }
  }

  lemma {:induction false} AtMostInsert(x: int, s: seq<int>, v: int)
    ensures AtMost(Insert(x, s), v) == AtMost(s, v) + if x <= v then 1 else 0
    decreases |s|
  {
    if s == [] || x <= s[0] {
      assert ([x] + s)[1..] == s;
    } else {
      AtMostInsert(x, s[1..], v);
      assert ([s[0]] + Insert(x, s[1..]))[1..] == Insert(x, s[1..]);
    }
  }

  lemma {:induction false} AtMostSorted(s: seq<int>, v: int)
    ensures AtMost(Sorted(s), v) == AtMost(s, v)
    decreases |s|
  {
    if s != [] {
      AtMostSorted(s[1..], v);
      AtMostInsert(s[0], Sorted(s[1..]), v);
    }
  }

  lemma {:induction false} AtMostAtLeast(s: seq<int>, v: int, k: nat)
    requires k <= |s| && forall i :: 0 <= i < k ==> s[i] <= v
    ensures AtMost(s, v) >= k
    decreases |s|
  {
    if k > 0 {
      AtMostAtLeast(s[1..], v, k - 1);
    }
  }

  lemma {:induction false} AtMostAtMost(s: seq<int>, v: int, k: nat)
    requires k <= |s| && forall i :: k <= i < |s| ==> s[i] > v
    ensures AtMost(s, v) <= k
    decreases |s|
  {
    if s != [] {
      AtMostAtMost(s[1..], v, if k == 0 then 0 else k - 1);
    }
  }

  /** The k-th smallest is the sample with more than k samples up to it, and at most k below it; no other is. */
  lemma KthByCounts(s: seq<int>, k: nat, v: int)
    requires k < |s|
    ensures v == Kth(s, k) <==> v in s && AtMost(s, v - 1) <= k < AtMost(s, v)
  {
    var r := Sorted(s);
    SortedOrdered(s);
    AtMostSorted(s, v);
    AtMostSorted(s, v - 1);
    if v == r[k] {
      assert v in r;
      AtMostAtLeast(r, v, k + 1);
      AtMostAtMost(r, v - 1, k);
    } else if v < r[k] {
      AtMostAtMost(r, v, k);
    } else {
      AtMostAtLeast(r, v - 1, k + 1);
    }
  }

  lemma {:induction false} LeastIsLeast(s: seq<int>)
    requires s != []
    ensures LeastOf(s) in s && forall i :: 0 <= i < |s| ==> LeastOf(s) <= s[i]
    decreases |s|
  {
    if |s| > 1 {
      LeastIsLeast(s[1..]);
      assert forall i :: 1 <= i < |s| ==> s[i] == s[1..][i - 1];
    }
  }

  lemma KthIsSample(s: seq<int>, k: nat)
    requires k < |s|
    ensures Kth(s, k) in s && Kth(s, k) >= LeastOf(s)
  {
    KthByCounts(s, k, Kth(s, k));
    LeastIsLeast(s);
  }

  // ---- Computing them ----

  method MinElement(s: seq<int>) returns (m: int)
    requires s != []
    ensures m == LeastOf(s)
  {
    var i := |s| - 1;
    m := s[i];
    assert s[i..] == [s[i]];
    while i > 0
      invariant 0 <= i < |s| && m == LeastOf(s[i..])
    {
      i := i - 1;
      assert s[i..][1..] == s[i + 1..];
      if s[i] < m {
        m := s[i];
      }
    }
    assert s[0..] == s;
  }

  method CountUpTo(s: seq<int>, v: int) returns (n: nat)
    ensures n == AtMost(s, v)
  {
    n := 0;
    var i := |s|;
    while i > 0
      invariant 0 <= i <= |s| && n == AtMost(s[i..], v)
    {
      i := i - 1;
      assert s[i..][1..] == s[i + 1..];
      if s[i] <= v {
        n := n + 1;
      }
    }
    assert s[0..] == s;
  }

  /** The sample that would stand at `k` if the samples were sorted. */
  method NthElement(s: seq<int>, k: nat) returns (v: int)
    requires k < |s|
    ensures v == Kth(s, k)
  {
    KthByCounts(s, k, Kth(s, k));
    var i := 0;
    while i < |s|
      invariant 0 <= i <= |s| && forall j :: 0 <= j < i ==> s[j] != Kth(s, k)
    {
      var below := CountUpTo(s, s[i] - 1);
      var upTo := CountUpTo(s, s[i]);
      KthByCounts(s, k, s[i]);
      if below <= k && k < upTo {
        return s[i];
      }
      i := i + 1;
    }
    assert false;
    v := 0;
  }
}
