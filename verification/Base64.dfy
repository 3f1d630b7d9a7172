/** Base64 of section 4 of RFC 4648, as SDES keys use it. */
module Base64 {
  import opened Prelude

  const WORD32: nat := 0x1_0000_0000

  /** Six bits. */
  type sextet = x: int | 0 <= x < 64

  predicate InAlphabet(c: char) {
    'A' <= c <= 'Z' || 'a' <= c <= 'z' || '0' <= c <= '9' || c == '+' || c == '/'
  }

  /** The value of a character, or -1. */
  function ValueOf(c: char): (v: int)
    ensures -1 <= v < 64 && (v >= 0 <==> InAlphabet(c))
  {
    if 'A' <= c <= 'Z' then c as int - 'A' as int
    else if 'a' <= c <= 'z' then c as int - 'a' as int + 26
    else if '0' <= c <= '9' then c as int - '0' as int + 52
    else if c == '+' then 62
    else if c == '/' then 63
    else -1
  }

  function CharOf(v: sextet): (c: char)
    ensures InAlphabet(c) && c != '='
  {
    if v < 26 then (v + 'A' as int) as char
    else if v < 52 then (v - 26 + 'a' as int) as char
    else if v < 62 then (v - 52 + '0' as int) as char
    else if v == 62 then '+'
    else '/'
  }

  /** Characters and their values are in one-to-one correspondence. */
  lemma CharValue(v: sextet)
    ensures ValueOf(CharOf(v)) == v
  {
  }

  lemma ValueChar(c: char)
    requires InAlphabet(c)
    ensures CharOf(ValueOf(c)) == c
  {
  }

  /** `n % 4`. */
  function Phase(n: nat): (r: nat)
    ensures r < 4
  {
    if n < 4 then n else Phase(n - 4)
  }

  lemma {:induction false} PhaseIsRemainder(n: nat)
    ensures Phase(n) == n % 4
    decreases n
  {
    if n >= 4 {
      PhaseIsRemainder(n - 4);
    }
  }

  lemma {:induction false} PhaseNext(n: nat)
    ensures Phase(n + 1) == if Phase(n) == 3 then 0 else Phase(n) + 1
    decreases n
  {
    if n >= 4 {
      PhaseNext(n - 4);
    }
  }

  /** A multiple of three. */
  predicate Triples(n: nat) { n == 0 || (n >= 3 && Triples(n - 3)) }

  // ---- Bytes and sextets ----

  // The sextets of three bytes, and the bytes of four sextets.
  function Sextet0(a: int): int { a / 4 }
  function Sextet1(a: int, b: int): int { a % 4 * 16 + b / 16 }
  function Sextet2(b: int, c: int): int { b % 16 * 4 + c / 64 }
  function Sextet3(c: int): int { c % 64 }

  function Byte0(a: int, b: int): int { a * 4 + b / 16 }
  function Byte1(b: int, c: int): int { b % 16 * 16 + c / 4 }
  function Byte2(c: int, d: int): int { c % 4 * 64 + d }

  /** The bytes as six-bit groups, zero bits filling up the last one. */
  function Sextets(x: seq<byte>): (v: seq<sextet>)
    ensures Phase(|v|) != 1
    decreases |x|
  {
    if |x| == 0 then []
    else if |x| == 1 then [Sextet0(x[0]), Sextet1(x[0], 0)]
    else if |x| == 2 then [Sextet0(x[0]), Sextet1(x[0], x[1]), Sextet2(x[1], 0)]
    else Four(x[..3]) + Sextets(x[3..])
  }

  /** The sextets of a group of three bytes. */
  function Four(x: seq<byte>): (v: seq<sextet>)
    requires |x| == 3
    ensures |v| == 4
  {
    [Sextet0(x[0]), Sextet1(x[0], x[1]), Sextet2(x[1], x[2]), Sextet3(x[2])]
  }

  /** The bytes of a group of four sextets. */
  function Three(v: seq<sextet>): (x: seq<byte>)
    requires |v| == 4
    ensures |x| == 3
  {
    [Byte0(v[0], v[1]), Byte1(v[1], v[2]), Byte2(v[2], v[3])]
  }

  /** The bytes that two or three sextets at the end stand for; bits left over must be zero. */
  function Tail(v: seq<sextet>): Option<seq<byte>>
    requires |v| < 4
  {
    if |v| == 0 then Some([])
    else if |v| == 1 then None
    else if |v| == 2 then if v[1] % 16 == 0 then Some([Byte0(v[0], v[1])]) else None
    else if v[2] % 4 == 0 then Some([Byte0(v[0], v[1]), Byte1(v[1], v[2])]) else None
  }

  function Bytes(v: seq<sextet>): Option<seq<byte>>
    decreases |v|
  {
    if |v| < 4 then Tail(v)
    else
      var rest := Bytes(v[4..]);
      if rest.None? then None else Some(Three(v[..4]) + rest.value)
  }

  lemma GroupOfThree(a: byte, b: byte, c: byte)
    ensures Byte0(Sextet0(a), Sextet1(a, b)) == a
    ensures Byte1(Sextet1(a, b), Sextet2(b, c)) == b
    ensures Byte2(Sextet2(b, c), Sextet3(c)) == c
  {
  }

  lemma GroupOfFour(a: sextet, b: sextet, c: sextet, d: sextet)
    ensures Sextet0(Byte0(a, b)) == a
    ensures Sextet1(Byte0(a, b), Byte1(b, c)) == b
    ensures Sextet2(Byte1(b, c), Byte2(c, d)) == c
    ensures Sextet3(Byte2(c, d)) == d
  {
  }

  lemma OnePart(p: int, q: int)
    requires 0 <= p < 64 && 0 <= q < 4
    ensures Tail([p, q * 16]) == Some([p * 4 + q])
  {
    DivisionIs(q * 16, 16, q, 0);
  }

  lemma BytesOfOne(a: byte)
    ensures Tail([Sextet0(a), Sextet1(a, 0)]) == Some([a])
  {
    var p, q := a / 4, a % 4;
    OnePart(p, q);
    assert a == p * 4 + q && Sextet1(a, 0) == q * 16;
  }

  lemma TwoParts(p: int, q: int, s: int, t: int)
    requires 0 <= p < 64 && 0 <= q < 4 && 0 <= s < 16 && 0 <= t < 16
    ensures Tail([p, q * 16 + s, t * 4]) == Some([p * 4 + q, s * 16 + t])
  {
    DivisionIs(q * 16 + s, 16, q, s);
    DivisionIs(t * 4, 4, t, 0);
  }

  lemma BytesOfTwo(a: byte, b: byte)
    ensures Tail([Sextet0(a), Sextet1(a, b), Sextet2(b, 0)]) == Some([a, b])
  {
    var p, q, s, t := a / 4, a % 4, b / 16, b % 16;
    TwoParts(p, q, s, t);
    assert a == p * 4 + q && b == s * 16 + t && Sextet2(b, 0) == t * 4;
  }

  lemma ThreeOfFour(x: seq<byte>)
    requires |x| == 3
    ensures Three(Four(x)) == x
  {
    GroupOfThree(x[0], x[1], x[2]);
  }

  lemma FourOfThree(v: seq<sextet>)
    requires |v| == 4
    ensures Four(Three(v)) == v
  {
    GroupOfFour(v[0], v[1], v[2], v[3]);
  }

  /** Grouping and ungrouping undo each other. */
  lemma {:induction false} BytesOfSextets(x: seq<byte>)
    ensures Bytes(Sextets(x)) == Some(x)
    decreases |x|
  {
    if |x| == 1 {
      assert x == [x[0]];
      BytesOfOne(x[0]);
    } else if |x| == 2 {
      assert x == [x[0], x[1]];
      BytesOfTwo(x[0], x[1]);
    } else if |x| >= 3 {
      var v := Sextets(x);
      ThreeOfFour(x[..3]);
      BytesOfSextets(x[3..]);
      assert v[..4] == Four(x[..3]) && v[4..] == Sextets(x[3..]);
      assert x[..3] + x[3..] == x;
    }
  }

  lemma SextetsOfTail(v: seq<sextet>)
    requires |v| < 4 && Tail(v).Some?
    ensures Sextets(Tail(v).value) == v
  {
    if |v| == 2 {
      GroupOfFour(v[0], v[1], 0, 0);
    } else if |v| == 3 {
      GroupOfFour(v[0], v[1], v[2], 0);
    }
  }

  lemma {:induction false} SextetsOfBytes(v: seq<sextet>)
    requires Bytes(v).Some?
    ensures Sextets(Bytes(v).value) == v
    decreases |v|
  {
    if |v| < 4 {
      SextetsOfTail(v);
    } else {
      SextetsOfBytes(v[4..]);
      var x := Bytes(v).value;
      FourOfThree(v[..4]);
      assert x[3..] == Bytes(v[4..]).value && x[..3] == Three(v[..4]);
      assert v == v[..4] + v[4..];
    }
  }

  // ---- Text ----

  function CharsOf(v: seq<sextet>): string {
    seq(|v|, i requires 0 <= i < |v| => CharOf(v[i]))
  }

  predicate AllInAlphabet(t: string) {
    forall i :: 0 <= i < |t| ==> InAlphabet(t[i])
  }

  function ValuesOf(t: string): seq<sextet>
    requires AllInAlphabet(t)
  {
    seq(|t|, i requires 0 <= i < |t| => ValueOf(t[i]))
  }

  lemma ValuesOfChars(v: seq<sextet>)
    ensures AllInAlphabet(CharsOf(v)) && ValuesOf(CharsOf(v)) == v
  {
    forall i | 0 <= i < |v| ensures ValueOf(CharsOf(v)[i]) == v[i] {
      CharValue(v[i]);
    }
  }

  lemma CharsOfValues(t: string)
    requires AllInAlphabet(t)
    ensures CharsOf(ValuesOf(t)) == t
  {
    forall i | 0 <= i < |t| ensures CharsOf(ValuesOf(t))[i] == t[i] {
      ValueChar(t[i]);
    }
  }

  /** The text without its padding. */
  function Unpadded(x: seq<byte>): string { CharsOf(Sextets(x)) }

  /** What completes the last group of four. */
  function Padding(n: nat): string {
    if Phase(n) == 2 then "==" else if Phase(n) == 3 then "=" else ""
  }

  function Encoded(x: seq<byte>): string { Unpadded(x) + Padding(|Unpadded(x)|) }

  function StripPadding(t: string): (u: string)
    ensures |u| <= |t|
  {
    if t != "" && t[|t| - 1] == '=' then StripPadding(t[..|t| - 1]) else t
  }

  predicate BadPadding(size: nat, padding: nat) {
    size % 4 == 1 || padding > 2 || (padding > 0 && (size + padding) % 4 != 0)
  }

  function Decoded(t: string): Option<seq<byte>> {
    var u := StripPadding(t);
    if BadPadding(|u|, |t| - |u|) || !AllInAlphabet(u) then None else Bytes(ValuesOf(u))
  }

  lemma {:induction false} StripPaddingSplits(t: string)
    ensures var u := StripPadding(t); |u| <= |t| && t == u + seq(|t| - |u|, _ => '=') && (u == "" || u[|u| - 1] != '=')
    decreases |t|
  {
    if t != "" && t[|t| - 1] == '=' {
      var front := t[..|t| - 1];
      StripPaddingSplits(front);
      var u := StripPadding(front);
      assert t == front + "=";
      assert seq(|t| - |u|, _ => '=') == seq(|front| - |u|, _ => '=') + "=";
    }
  }

  lemma {:induction false} StripPaddingIs(u: string, pad: string)
    requires u == "" || u[|u| - 1] != '='
    requires forall i :: 0 <= i < |pad| ==> pad[i] == '='
    ensures StripPadding(u + pad) == u
    decreases |pad|
  {
    if pad == "" {
      assert u + pad == u;
    } else {
      assert (u + pad)[..|u + pad| - 1] == u + pad[..|pad| - 1];
      StripPaddingIs(u, pad[..|pad| - 1]);
    }
  }

  lemma UnpaddedPlain(x: seq<byte>)
    ensures AllInAlphabet(Unpadded(x)) && ValuesOf(Unpadded(x)) == Sextets(x)
    ensures Unpadded(x) == "" || Unpadded(x)[|Unpadded(x)| - 1] != '='
  {
    ValuesOfChars(Sextets(x));
  }

  lemma PaddingFits(n: nat)
    requires Phase(n) != 1
    ensures !BadPadding(n, |Padding(n)|) && !BadPadding(n, 0)
    ensures forall i :: 0 <= i < |Padding(n)| ==> Padding(n)[i] == '='
  {
    PhaseIsRemainder(n);
  }

  lemma DecodedPadded(u: string, v: seq<sextet>, pad: string)
    requires AllInAlphabet(u) && ValuesOf(u) == v && (u == "" || u[|u| - 1] != '=')
    requires !BadPadding(|u|, |pad|) && forall i :: 0 <= i < |pad| ==> pad[i] == '='
    ensures Decoded(u + pad) == Bytes(v)
  {
    StripPaddingIs(u, pad);
    assert |u + pad| - |u| == |pad|;
  }

  /** Both forms of the text of `x` decode to `x`. */
  lemma DecodedOfEncoded(x: seq<byte>)
    ensures Decoded(Encoded(x)) == Some(x) && Decoded(Unpadded(x)) == Some(x)
  {
    var u := Unpadded(x);
    UnpaddedPlain(x);
    PaddingFits(|u|);
    DecodedPadded(u, Sextets(x), Padding(|u|));
    DecodedPadded(u, Sextets(x), "");
    BytesOfSextets(x);
    assert u + "" == u;
  }

  lemma GoodPadding(u: string, pad: nat)
    requires !BadPadding(|u|, pad)
    ensures pad == 0 || seq(pad, _ => '=') == Padding(|u|)
  {
    PhaseIsRemainder(|u|);
    if pad == 1 {
      assert seq(1, _ => '=') == "=";
    } else if pad == 2 {
      assert seq(2, _ => '=') == "==";
    }
  }

  /** A text decodes to `x` exactly when it is the encoding of `x`, with or without all its padding. */
  lemma DecodedExactly(t: string, x: seq<byte>)
    ensures Decoded(t) == Some(x) <==> t == Encoded(x) || t == Unpadded(x)
  {
    DecodedOfEncoded(x);
    if Decoded(t) == Some(x) {
      var u := StripPadding(t);
      StripPaddingSplits(t);
      SextetsOfBytes(ValuesOf(u));
      CharsOfValues(u);
      assert u == Unpadded(x);
      GoodPadding(u, |t| - |u|);
      if |t| == |u| {
        assert t == u + "" == u;
      }
    }
  }

  // ---- The loops ----

  /** The four sextets of a 24-bit group, high bits first. */
  function Quad(triple: int): seq<sextet> {
    [triple / 0x4_0000 % 64, triple / 0x1000 % 64, triple / 64 % 64, triple % 64]
  }

  function Triple(a: int, b: int, c: int): int { a * 0x1_0000 + b * 0x100 + c }

  /** Division, from quotient and remainder. */
  lemma DivisionIs(x: int, m: int, k: int, r: int)
    requires 0 <= r < m && x == k * m + r
    ensures x / m == k && x % m == r
  {
    var d := x / m;
    assert x == d * m + x % m;
    assert (d - k) * m == r - x % m;
    assert d - k >= 1 ==> (d - k) * m >= m;
    assert d - k <= -1 ==> (d - k) * m <= -m;
  }

  lemma QuadParts(p: int, q: int, s: int, t: int, u: int, w: int)
    requires 0 <= p < 64 && 0 <= q < 4 && 0 <= s < 16 && 0 <= t < 16 && 0 <= u < 4 && 0 <= w < 64
    ensures Quad(Triple(p * 4 + q, s * 16 + t, u * 64 + w)) == [p, q * 16 + s, t * 4 + u, w]
  {
    var x := Triple(p * 4 + q, s * 16 + t, u * 64 + w);
    DivisionIs(x, 0x4_0000, p, q * 0x1_0000 + s * 0x1000 + t * 0x100 + u * 64 + w);
    DivisionIs(p, 64, 0, p);
    DivisionIs(x, 0x1000, p * 64 + q * 16 + s, t * 0x100 + u * 64 + w);
    DivisionIs(p * 64 + q * 16 + s, 64, p, q * 16 + s);
    DivisionIs(x, 64, (p * 64 + q * 16 + s) * 64 + t * 4 + u, w);
    DivisionIs((p * 64 + q * 16 + s) * 64 + t * 4 + u, 64, p * 64 + q * 16 + s, t * 4 + u);
  }

  lemma QuadIs(a: byte, b: byte, c: byte)
    ensures Quad(Triple(a, b, c)) == [Sextet0(a), Sextet1(a, b), Sextet2(b, c), Sextet3(c)]
  {
    QuadParts(a / 4, a % 4, b / 16, b % 16, c / 64, c % 64);
    assert a == a / 4 * 4 + a % 4 && b == b / 16 * 16 + b % 16 && c == c / 64 * 64 + c % 64;
  }

  lemma {:induction false} SextetsAppend(x: seq<byte>, more: seq<byte>)
    requires Triples(|x|)
    ensures Sextets(x + more) == Sextets(x) + Sextets(more) && Phase(|Sextets(x)|) == 0
    decreases |x|
  {
    if x == [] {
      assert x + more == more;
    } else {
      var all := x + more;
      assert all[3..] == x[3..] + more && all[..3] == x[..3];
      SextetsAppend(x[3..], more);
      Associative(Four(x[..3]), Sextets(x[3..]), Sextets(more));
    }
  }

  lemma CharsOfAppend(v: seq<sextet>, w: seq<sextet>)
    ensures CharsOf(v + w) == CharsOf(v) + CharsOf(w)
  {
  }

  lemma {:induction false} PhaseOfSum(m: nat, n: nat)
    requires Phase(m) == 0
    ensures Phase(m + n) == Phase(n)
    decreases m
  {
    if m >= 4 {
      PhaseOfSum(m - 4, n);
    }
  }

  /** Three more bytes are one more group. */
  lemma EncodeGroup(data: seq<byte>, i: nat)
    requires Triples(i) && i + 3 <= |data|
    ensures Sextets(data[..i + 3]) == Sextets(data[..i]) + Quad(Triple(data[i], data[i + 1], data[i + 2]))
  {
    var more := [data[i], data[i + 1], data[i + 2]];
    assert data[..i + 3] == data[..i] + more;
    SextetsAppend(data[..i], more);
    QuadIs(data[i], data[i + 1], data[i + 2]);
    assert more[3..] == [] && more[..3] == more;
    assert Sextets(more) == Four(more) + Sextets([]);
  }

  /** The padded group at the end. */
  lemma EncodeRest(data: seq<byte>, i: nat)
    requires Triples(i) && i <= |data| < i + 3
    ensures Encoded(data) == CharsOf(Sextets(data[..i])) + CharsOf(Sextets(data[i..])) + Padding(|Sextets(data[i..])|)
  {
    assert data == data[..i] + data[i..];
    SextetsAppend(data[..i], data[i..]);
    CharsOfAppend(Sextets(data[..i]), Sextets(data[i..]));
    PhaseOfSum(|Sextets(data[..i])|, |Sextets(data[i..])|);
  }

  function LastGroup(rest: seq<byte>): string
    requires 0 < |rest| < 3
  {
    var quad := Quad(Triple(rest[0], if |rest| == 2 then rest[1] else 0, 0));
    [CharOf(quad[0]), CharOf(quad[1]), if |rest| == 2 then CharOf(quad[2]) else '=', '=']
  }

  lemma LastGroupIs(rest: seq<byte>)
    requires 0 < |rest| < 3
    ensures LastGroup(rest) == CharsOf(Sextets(rest)) + Padding(|Sextets(rest)|)
  {
    QuadIs(rest[0], if |rest| == 2 then rest[1] else 0, 0);
  }

  function QuadText(quad: seq<sextet>): (t: string)
    requires |quad| == 4
    ensures t == CharsOf(quad)
  {
    [CharOf(quad[0]), CharOf(quad[1]), CharOf(quad[2]), CharOf(quad[3])]
  }

  method Encode(data: seq<byte>) returns (out: string)
    ensures out == Encoded(data)
  {
    out := "";
    var i := 0;
    while i + 3 <= |data|
      invariant 0 <= i <= |data| && Triples(i) && out == CharsOf(Sextets(data[..i]))
    {
      EncodeGroup(data, i);
      var quad := Quad(Triple(data[i], data[i + 1], data[i + 2]));
      CharsOfAppend(Sextets(data[..i]), quad);
      out := out + QuadText(quad);
      i := i + 3;
    }
    EncodeRest(data, i);
    if |data| - i > 0 {
      LastGroupIs(data[i..]);
      Associative(out, CharsOf(Sextets(data[i..])), Padding(|Sextets(data[i..])|));
      out := out + LastGroup(data[i..]);
    } else {
      assert data[i..] == [];
    }
  }

  /** The bytes complete after some sextets. */
  function Out(v: seq<sextet>): seq<byte>
    decreases |v|
  {
    if |v| >= 4 then Three(v[..4]) + Out(v[4..])
    else if |v| == 3 then [Byte0(v[0], v[1]), Byte1(v[1], v[2])]
    else if |v| == 2 then [Byte0(v[0], v[1])]
    else []
  }

  /** The bits not yet part of a byte, as a number. */
  function Left(v: seq<sextet>): nat {
    if Phase(|v|) == 0 then 0
    else if Phase(|v|) == 1 then v[|v| - 1]
    else if Phase(|v|) == 2 then v[|v| - 1] % 16
    else v[|v| - 1] % 4
  }

  function BitsLeft(n: nat): nat {
    if Phase(n) == 0 then 0 else 8 - 2 * Phase(n)
  }

  /** The byte a sextet completes. */
  function Completed(v: seq<sextet>, w: sextet): seq<byte> {
    if Phase(|v|) == 0 then []
    else if Phase(|v|) == 1 then [Byte0(v[|v| - 1], w)]
    else if Phase(|v|) == 2 then [Byte1(v[|v| - 1], w)]
    else [Byte2(v[|v| - 1], w)]
  }

  lemma OutOfThree(v: seq<sextet>, w: sextet)
    requires |v| == 3
    ensures Out(v + [w]) == Out(v) + Completed(v, w)
  {
    var all := v + [w];
    assert all[..4] == all && all[4..] == [];
    assert Out(all) == Three(all) + Out([]);
  }

  lemma OutOfTwo(v: seq<sextet>, w: sextet)
    requires |v| == 2
    ensures Out(v + [w]) == Out(v) + Completed(v, w)
  {
  }

  lemma OutOfOne(v: seq<sextet>, w: sextet)
    requires |v| <= 1
    ensures Out(v + [w]) == Out(v) + Completed(v, w)
  {
  }

  lemma CompletedTail(v: seq<sextet>, w: sextet)
    requires |v| >= 4
    ensures Completed(v[4..], w) == Completed(v, w) && (Phase(|v|) != 0 ==> Left(v[4..]) == Left(v))
  {
  }

  lemma {:induction false} OutOneMore(v: seq<sextet>, w: sextet)
    ensures Out(v + [w]) == Out(v) + Completed(v, w)
    decreases |v|
  {
    if |v| <= 1 {
      OutOfOne(v, w);
    } else if |v| == 2 {
      OutOfTwo(v, w);
    } else if |v| == 3 {
      OutOfThree(v, w);
    } else {
      var all := v + [w];
      assert all[..4] == v[..4] && all[4..] == v[4..] + [w];
      OutOneMore(v[4..], w);
      CompletedTail(v, w);
      Associative(Three(v[..4]), Out(v[4..]), Completed(v, w));
    }
  }

  /** Decoding succeeds exactly when no bits but zeros are left over. */
  lemma {:induction false} BytesIsOut(v: seq<sextet>)
    requires Phase(|v|) != 1
    ensures Bytes(v) == if Left(v) == 0 then Some(Out(v)) else None
    decreases |v|
  {
    if |v| >= 4 {
      BytesIsOut(v[4..]);
      assert Left(v) == Left(v[4..]);
    }
  }

  /** `x >> n`. */
  function Shr(x: nat, n: nat): nat { if n == 0 then x else Shr(x / 2, n - 1) }

  /** `x & ((1 << n) - 1)`. */
  function Low(x: nat, n: nat): nat { if n == 0 then 0 else x % 2 + 2 * Low(x / 2, n - 1) }

  lemma ShiftTwice(x: nat, n: nat)
    requires n >= 2
    ensures Shr(x, n) == Shr(x / 4, n - 2) && Low(x, n) == x % 4 + 4 * Low(x / 4, n - 2)
  {
    assert Shr(x, n) == Shr(x / 2, n - 1) == Shr(x / 2 / 2, n - 2);
    assert x / 2 / 2 == x / 4;
    assert Low(x / 2, n - 1) == x / 2 % 2 + 2 * Low(x / 4, n - 2);
    assert x % 2 + 2 * (x / 2 % 2) == x % 4;
  }

  lemma ShiftBy2(x: nat)
    ensures Shr(x, 2) == x / 4 && Low(x, 2) == x % 4
  {
    ShiftTwice(x, 2);
  }

  lemma ShiftBy4(x: nat)
    ensures Shr(x, 4) == x / 16 && Low(x, 4) == x % 16
  {
    ShiftTwice(x, 4);
    ShiftBy2(x / 4);
  }

  lemma ShiftBy6(x: nat)
    ensures Low(x, 6) == x % 64
  {
    ShiftTwice(x, 6);
    ShiftBy4(x / 4);
  }

  /** One step of the 32-bit accumulator, which loses only bits that are no longer needed. */
  function Shifted(acc: nat, w: nat): nat { acc * 64 % WORD32 + w }

  lemma ShiftedIs(acc: int, w: int, unit: int, factor: int)
    requires 0 <= acc < WORD32 && 0 <= w < 64 && unit > 0 && factor > 0 && unit * 64 * factor == WORD32
    ensures Shifted(acc, w) < WORD32
    ensures Shifted(acc, w) % (unit * 64) == acc % unit * 64 + w
  {
    var q, p := acc / unit, acc * 64 / WORD32;
    var left := acc % unit;
    assert acc == q * unit + left;
    assert Shifted(acc, w) == acc * 64 - p * WORD32 + w;
    var k := q - p * factor;
    assert p * WORD32 == p * factor * (unit * 64);
    assert Shifted(acc, w) == k * (unit * 64) + (left * 64 + w);
    DivisionIs(Shifted(acc, w), unit * 64, k, left * 64 + w);
  }

  lemma FirstStep(acc: nat, w: sextet)
    requires acc < WORD32
    ensures Shifted(acc, w) < WORD32 && Low(Shifted(acc, w), 6) == w
  {
    ShiftedIs(acc, w, 1, 0x400_0000);
    ShiftBy6(Shifted(acc, w));
  }

  lemma SecondStep(acc: nat, left: sextet, w: sextet)
    requires acc < WORD32 && Low(acc, 6) == left
    ensures var next := Shifted(acc, w);
            next < WORD32 && Shr(next, 4) % 256 == left * 4 + w / 16 && Low(next, 4) == w % 16
  {
    ShiftBy6(acc);
    ShiftedIs(acc, w, 64, 0x10_0000);
    var next := Shifted(acc, w);
    ShiftBy4(next);
    var k, high, low := next / 0x1000, w / 16, w % 16;
    assert next == k * 0x1000 + left * 64 + w && w == high * 16 + low;
    DivisionIs(next, 16, k * 256 + left * 4 + high, low);
    DivisionIs(k * 256 + left * 4 + high, 256, k, left * 4 + high);
  }

  lemma ThirdStep(acc: nat, left: nat, w: sextet)
    requires acc < WORD32 && left < 16 && Low(acc, 4) == left
    ensures var next := Shifted(acc, w);
            next < WORD32 && Shr(next, 2) % 256 == left * 16 + w / 4 && Low(next, 2) == w % 4
  {
    ShiftBy4(acc);
    ShiftedIs(acc, w, 16, 0x40_0000);
    var next := Shifted(acc, w);
    ShiftBy2(next);
    var k, high, low := next / 0x400, w / 4, w % 4;
    assert next == k * 0x400 + left * 64 + w && w == high * 4 + low;
    DivisionIs(next, 4, k * 256 + left * 16 + high, low);
    DivisionIs(k * 256 + left * 16 + high, 256, k, left * 16 + high);
  }

  lemma FourthStep(acc: nat, left: nat, w: sextet)
    requires acc < WORD32 && left < 4 && Low(acc, 2) == left
    ensures var next := Shifted(acc, w);
            next < WORD32 && Shr(next, 0) % 256 == left * 64 + w && Low(next, 0) == 0
  {
    ShiftBy2(acc);
    ShiftedIs(acc, w, 4, 0x100_0000);
  }

  /** The accumulator after one more sextet: the byte it completes, and the bits left over. */
  lemma AccumulatorStep(acc: nat, v: seq<sextet>, w: sextet)
    requires acc < WORD32 && Low(acc, BitsLeft(|v|)) == Left(v)
    ensures var next, bits := Shifted(acc, w), BitsLeft(|v|) + 6;
            && next < WORD32
            && BitsLeft(|v| + 1) == (if bits >= 8 then bits - 8 else bits)
            && Low(next, BitsLeft(|v| + 1)) == Left(v + [w])
            && Completed(v, w) == if bits >= 8 then [Shr(next, bits - 8) % 256] else []
  {
    var phase := Phase(|v|);
    PhaseNext(|v|);
    if phase == 0 {
      FirstStep(acc, w);
    } else if phase == 1 {
      SecondStep(acc, Left(v), w);
    } else if phase == 2 {
      ThirdStep(acc, Left(v), w);
    } else {
      FourthStep(acc, Left(v), w);
    }
  }

  method Decode(t: string) returns (bytes: Option<seq<byte>>)
    ensures bytes == Decoded(t)
  {
    var text, padding := t, 0;
    while text != "" && text[|text| - 1] == '='
      invariant |text| + padding == |t| && StripPadding(text) == StripPadding(t)
      decreases |text|
    {
      text := text[..|text| - 1];
      padding := padding + 1;
    }
    if |text| % 4 == 1 || padding > 2 || (padding > 0 && (|text| + padding) % 4 != 0) {
      return None;
    }
    var out: seq<byte>, accumulator, bits, i := [], 0, 0, 0;
    ghost var v: seq<sextet> := [];
    while i < |text|
      invariant 0 <= i <= |text| && |v| == i
      invariant AllInAlphabet(text[..i]) && v == ValuesOf(text[..i])
      invariant bits == BitsLeft(i) && out == Out(v)
      invariant 0 <= accumulator < WORD32 && Low(accumulator, bits) == Left(v)
    {
      var value := ValueOf(text[i]);
      if value < 0 {
        return None;
      }
      AccumulatorStep(accumulator, v, value);
      OutOneMore(v, value);
      ValuesOneMore(text, i);
      v := v + [value];
      accumulator := Shifted(accumulator, value);
      bits := bits + 6;
      if bits >= 8 {
        bits := bits - 8;
        out := out + [Shr(accumulator, bits) % 256];
      }
      i := i + 1;
    }
    assert text[..i] == text;
    PhaseIsRemainder(|v|);
    BytesIsOut(v);
    if Low(accumulator, bits) != 0 {
      return None;
    }
    return Some(out);
  }

  lemma ValuesOneMore(text: string, i: nat)
    requires i < |text| && AllInAlphabet(text[..i]) && InAlphabet(text[i])
    ensures AllInAlphabet(text[..i + 1]) && ValuesOf(text[..i + 1]) == ValuesOf(text[..i]) + [ValueOf(text[i])]
  {
  }
}
