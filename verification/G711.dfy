/** A-law companding of 16-bit samples (Recommendation ITU-T G.711). */
module G711 {
  import opened Prelude

  /** A signed 16-bit sample. */
  type Sample = x: int | -32768 <= x < 32768

  /** The masks of positive and negative samples: the sign bit, and every other bit inverted. */
  const POSITIVE: byte := 0xD5
  const NEGATIVE: byte := 0x55

  lemma SmallPowers()
    ensures Pow2(0) == 1 && Pow2(1) == 2 && Pow2(2) == 4 && Pow2(3) == 8 && Pow2(4) == 16
    ensures Pow2(5) == 32 && Pow2(6) == 64 && Pow2(7) == 128 && Pow2(8) == 256
  {
    assert Pow2(4) == 16 && Pow2(6) == 64;
  }

  /** Exclusive or of the lowest `bits` bits. */
  function XorBits(a: nat, b: nat, bits: nat): (r: nat)
    ensures r < Pow2(bits)
  {
    if bits == 0 then 0 else 2 * XorBits(a / 2, b / 2, bits - 1) + (a % 2 + b % 2) % 2
  }

  function Xor(a: byte, b: byte): byte {
    SmallPowers();
    XorBits(a, b, 8)
  }

  /** The upper bound of a segment, on the 13-bit magnitude. */
  function SegmentEnd(segment: nat): int
    requires segment < 8
  {
    [0x1F, 0x3F, 0x7F, 0xFF, 0x1FF, 0x3FF, 0x7FF, 0xFFF][segment]
  }

  /** The magnitude of a sample: an arithmetic shift to the right by three, and the complement of a negative result. */
  function MagnitudeOf(sample: Sample): (m: nat)
    ensures m < 4096
  {
    if sample >= 0 then sample / 8 else -(sample / 8) - 1
  }

  /** The segment a magnitude lies in; the last one takes every magnitude there is. */
  function SegmentOf(magnitude: nat): nat {
    if magnitude <= 0x1F then 0
    else if magnitude <= 0x3F then 1
    else if magnitude <= 0x7F then 2
    else if magnitude <= 0xFF then 3
    else if magnitude <= 0x1FF then 4
    else if magnitude <= 0x3FF then 5
    else if magnitude <= 0x7FF then 6
    else 7
  }

  /** The size of a quantisation step in magnitudes. */
  function StepOf(segment: nat): (step: nat)
    ensures step > 0
  {
    match segment
    case 0 => 2
    case 1 => 2
    case 2 => 4
    case 3 => 8
    case 4 => 16
    case 5 => 32
    case 6 => 64
    case _ => 128
  }

  /** Segment and step within it, in seven bits. */
  function CodeOf(magnitude: nat): (code: nat)
    ensures code < 128
  {
    var segment := SegmentOf(magnitude);
    segment * 16 + magnitude / StepOf(segment) % 16
  }

  function Encoded(sample: Sample): byte {
    Xor(CodeOf(MagnitudeOf(sample)), if sample >= 0 then POSITIVE else NEGATIVE)
  }

  /** The source also stops the search behind the last segment, which no magnitude reaches. */
  method Encode(sample: Sample) returns (code: byte)
    ensures code == Encoded(sample)
  {
    var magnitude, mask := sample / 8, POSITIVE;
    if magnitude < 0 {
      mask := NEGATIVE;
      magnitude := -magnitude - 1;
    }
    var segment := 0;
    while magnitude > SegmentEnd(segment)
      invariant segment < 8 && segment <= SegmentOf(magnitude)
      decreases 8 - segment
    {
      segment := segment + 1;
    }
    var step := if segment < 2 then magnitude / 2 else magnitude / Pow2(segment);
    StepIsPower(segment);
    code := Xor(segment * 16 + step % 16, mask);
  }

  function EncodedAll(samples: seq<Sample>): seq<byte> {
    seq(|samples|, i requires 0 <= i < |samples| => Encoded(samples[i]))
  }

  method EncodeAll(samples: seq<Sample>) returns (codes: seq<byte>)
    ensures codes == EncodedAll(samples)
  {
    codes := [];
    for i := 0 to |samples|
      invariant codes == EncodedAll(samples)[..i]
    {
      var code := Encode(samples[i]);
      codes := codes + [code];
    }
  }

  lemma StepIsPower(segment: nat)
    requires segment < 8
    ensures StepOf(segment) == if segment < 2 then 2 else Pow2(segment)
  {
    SmallPowers();
  }

  /** The middle of a step, in samples. */
  function MiddleAt(segment: nat, step: nat): nat {
    if segment == 0 then step * 16 + 8 else (step * 16 + 0x108) * Pow2(segment - 1)
  }

  /** The magnitude, in samples, that seven bits stand for: the middle of their step. */
  function Middle(code: nat): nat
    requires code < 128
  {
    MiddleAt(code / 16, code % 16)
  }

  function Decoded(code: byte): int {
    var value: int := Xor(code, 0x55);
    if value >= 128 then Middle(value - 128) as int else 0 - Middle(value) as int
  }

  // ---- What the masks do ----

  lemma XorHalves(a: nat, b: nat, bits: nat)
    requires bits > 0
    ensures var r := XorBits(a, b, bits); r / 2 == XorBits(a / 2, b / 2, bits - 1) && r % 2 == (a % 2 + b % 2) % 2
  {
  }

  lemma LowBits(x: nat, y: nat, z: nat)
    requires x < 2 && y < 2 && z < 2
    ensures ((x + y) % 2 + z) % 2 == (x + (y + z) % 2) % 2
  {
  }

  lemma {:induction false} XorAssociative(a: nat, b: nat, c: nat, bits: nat)
    ensures XorBits(XorBits(a, b, bits), c, bits) == XorBits(a, XorBits(b, c, bits), bits)
    decreases bits
  {
    if bits > 0 {
      XorHalves(a, b, bits);
      XorHalves(b, c, bits);
      XorAssociative(a / 2, b / 2, c / 2, bits - 1);
      XorMoved(a, b, c, XorBits(a, b, bits), XorBits(b, c, bits), bits);
    }
  }

  lemma XorMoved(a: nat, b: nat, c: nat, p: nat, q: nat, bits: nat)
    requires bits > 0 && p % 2 == (a % 2 + b % 2) % 2 && q % 2 == (b % 2 + c % 2) % 2
    requires XorBits(p / 2, c / 2, bits - 1) == XorBits(a / 2, q / 2, bits - 1)
    ensures XorBits(p, c, bits) == XorBits(a, q, bits)
  {
    LowBits(a % 2, b % 2, c % 2);
  }

  lemma {:induction false} XorCommutes(a: nat, b: nat, bits: nat)
    ensures XorBits(a, b, bits) == XorBits(b, a, bits)
    decreases bits
  {
    if bits > 0 {
      XorCommutes(a / 2, b / 2, bits - 1);
    }
  }

  lemma {:induction false} XorTwice(a: nat, b: nat, bits: nat)
    requires a < Pow2(bits)
    ensures XorBits(XorBits(a, b, bits), b, bits) == a
    decreases bits
  {
    if bits > 0 {
      XorHalves(a, b, bits);
      XorTwice(a / 2, b / 2, bits - 1);
    }
  }

  lemma {:induction false} XorTop(a: nat, bits: nat, top: nat)
    requires bits > 0 && a < Pow2(bits) && top == Pow2(bits - 1)
    ensures XorBits(a, top, bits) == if a < top then a + top else a - top
    decreases bits
  {
    if bits > 1 {
      assert top == 2 * Pow2(bits - 2);
      XorTop(a / 2, bits - 1, top / 2);
    } else {
      assert XorBits(a / 2, top / 2, 0) == 0;
    }
  }

  lemma TopBit(a: byte)
    ensures Xor(a, 128) == if a < 128 then a + 128 else a - 128
  {
    SmallPowers();
    XorTop(a, 8, 128);
  }

  lemma Twice(a: byte, b: byte)
    ensures Xor(Xor(a, b), b) == a
  {
    SmallPowers();
    XorTwice(a, b, 8);
  }

  /** The mask of positive samples is that of negative ones with the sign bit set. */
  lemma PositiveIs(a: byte)
    ensures Xor(a, POSITIVE) == Xor(Xor(a, 128), NEGATIVE) && Xor(a, POSITIVE) == Xor(Xor(a, NEGATIVE), 128)
  {
    TopBit(NEGATIVE);
    XorCommutes(NEGATIVE, 128, 8);
    XorAssociative(a, NEGATIVE, 128, 8);
    XorAssociative(a, 128, NEGATIVE, 8);
  }

  lemma MasksCancel(code: byte)
    requires code < 128
    ensures Xor(Xor(code, POSITIVE), 0x55) == code + 128 && Xor(Xor(code, NEGATIVE), 0x55) == code
  {
    PositiveIs(code);
    Twice(Xor(code, 128), NEGATIVE);
    Twice(code, NEGATIVE);
    TopBit(code);
  }

  lemma MasksReturn(code: byte)
    ensures var value: int := Xor(code, 0x55);
            if value >= 128 then Xor(value - 128, POSITIVE) == code else Xor(value, NEGATIVE) == code
  {
    var value: int := Xor(code, 0x55);
    Twice(code, NEGATIVE);
    if value >= 128 {
      TopBit(value);
      Twice(value, 128);
      PositiveIs(value - 128);
    }
  }

  // ---- Quantisation ----

  lemma QuotientIs(m: nat, step: nat, k: nat)
    requires step > 0 && k * step <= m < k * step + step
    ensures m / step == k
  {
    var q := m / step;
    assert q * step <= m < q * step + step;
    MultiplesRise(q + 1, k, step);
    MultiplesRise(k + 1, q, step);
  }

  lemma MultiplesRise(p: int, q: int, step: nat)
    ensures p <= q ==> p * step <= q * step
  {
  }

  /** A segment other than the first spans sixteen steps, from the sixteenth on. */
  lemma SegmentSpan(magnitude: nat, segment: nat)
    requires magnitude < 4096 && 0 < segment < 8
    ensures SegmentOf(magnitude) == segment <==> 16 * StepOf(segment) <= magnitude < 32 * StepOf(segment)
  {
  }

  lemma StepDoubles(segment: nat)
    requires 0 < segment < 8
    ensures StepOf(segment) == 2 * Pow2(segment - 1)
  {
    SmallPowers();
  }

  lemma MiddleIs(segment: nat, step: nat)
    requires segment < 8 && step < 16
    ensures Middle(segment * 16 + step) == MiddleAt(segment, step)
  {
    Sixteenths(segment, step);
  }

  lemma Sixteenths(segment: nat, step: nat)
    requires step < 16
    ensures (segment * 16 + step) / 16 == segment && (segment * 16 + step) % 16 == step
  {
  }

  /** The magnitudes of one step, and only they, are coded by it; it is decoded to the middle of its step. */
  lemma StepCoded(magnitude: nat, segment: nat, step: nat)
    requires magnitude < 4096 && 0 < segment < 8 && step < 16
    requires (16 + step) * StepOf(segment) <= magnitude < (16 + step) * StepOf(segment) + StepOf(segment)
    ensures CodeOf(magnitude) == segment * 16 + step
  {
    var size := StepOf(segment);
    assert 16 * size <= (16 + step) * size <= 31 * size;
    SegmentSpan(magnitude, segment);
    QuotientIs(magnitude, size, 16 + step);
  }

  lemma MiddleValue(segment: nat, step: nat)
    requires 0 < segment < 8 && step < 16
    ensures Middle(segment * 16 + step) == 8 * ((16 + step) * StepOf(segment)) + 4 * StepOf(segment)
  {
    var p := Pow2(segment - 1);
    MiddleIs(segment, step);
    StepDoubles(segment);
    assert (step * 16 + 0x108) * p == 8 * ((16 + step) * (2 * p)) + 4 * (2 * p);
  }

  /** A magnitude is decoded to the middle of the step it lies in. */
  lemma MiddleOfStep(magnitude: nat) returns (base: nat)
    requires magnitude < 4096
    ensures var size := StepOf(SegmentOf(magnitude));
            && base == magnitude / size * size && base <= magnitude < base + size
            && Middle(CodeOf(magnitude)) == 8 * base + 4 * size
  {
    var segment, size := SegmentOf(magnitude), StepOf(SegmentOf(magnitude));
    base := magnitude / size * size;
    if segment == 0 {
      MiddleIs(0, magnitude / 2);
    } else {
      SegmentSpan(magnitude, segment);
      var step := StepIn(magnitude, size);
      assert base == (16 + step) * size;
      StepCoded(magnitude, segment, step);
      MiddleValue(segment, step);
    }
  }

  lemma StepIn(magnitude: nat, size: nat) returns (step: nat)
    requires size > 0 && 16 * size <= magnitude < 32 * size
    ensures step < 16 && magnitude / size == 16 + step && (16 + step) * size <= magnitude < (16 + step) * size + size
  {
    var q := magnitude / size;
    assert q * size <= magnitude < q * size + size;
    MultiplesRise(q + 1, 16, size);
    MultiplesRise(32, q, size);
    step := q - 16;
  }

  function Absolute(x: int): nat { if x < 0 then -x else x }

  lemma StepIsSmall(magnitude: nat)
    ensures var size := StepOf(SegmentOf(magnitude)); size == 2 || 16 * size <= magnitude
  {
  }

  lemma DecodedIs(sample: Sample)
    ensures var middle: int := Middle(CodeOf(MagnitudeOf(sample)));
            Decoded(Encoded(sample)) == if sample >= 0 then middle else 0 - middle
  {
    MasksCancel(CodeOf(MagnitudeOf(sample)));
  }

  lemma Off(sample: Sample, magnitude: int, base: int, size: int, decoded: int)
    requires magnitude == MagnitudeOf(sample) && base <= magnitude < base + size
    requires size == 2 || 16 * size <= magnitude
    requires decoded == if sample >= 0 then 8 * base + 4 * size else 0 - (8 * base + 4 * size)
    ensures var error := Absolute(decoded - sample);
            error <= 4 * size && (error <= 16 || 30 * error <= Absolute(sample))
  {
  }

  /** Decoding what was encoded is off by at most half a step, which is 16 or no more than a thirtieth of the sample. */
  lemma ErrorIsSmall(sample: Sample)
    ensures var error := Absolute(Decoded(Encoded(sample)) - sample);
            && error <= 4 * StepOf(SegmentOf(MagnitudeOf(sample)))
            && (error <= 16 || 30 * error <= Absolute(sample))
  {
    var magnitude := MagnitudeOf(sample);
    var base := MiddleOfStep(magnitude);
    DecodedIs(sample);
    StepIsSmall(magnitude);
    Off(sample, magnitude, base, StepOf(SegmentOf(magnitude)), Decoded(Encoded(sample)));
  }

  lemma FloorRises(a: nat, b: nat, size: nat)
    requires a <= b && size > 0
    ensures a / size * size <= b / size * size
  {
    var p, q := a / size, b / size;
    assert p * size <= a && b < q * size + size;
    MultiplesRise(q + 1, p, size);
    MultiplesRise(p, q, size);
  }

  /** What lies above a segment, and what is decoded from it. */
  function Top(segment: nat): int {
    if segment == 0 then 32 else 32 * StepOf(segment)
  }

  lemma BelowTop(magnitude: nat, base: nat)
    requires magnitude < 4096
    requires var size := StepOf(SegmentOf(magnitude)); base == magnitude / size * size
    ensures base + StepOf(SegmentOf(magnitude)) <= Top(SegmentOf(magnitude))
  {
    var segment, size := SegmentOf(magnitude), StepOf(SegmentOf(magnitude));
    if segment > 0 {
      SegmentSpan(magnitude, segment);
      var step := StepIn(magnitude, size);
      assert (16 + step) * size + size <= 32 * size;
    }
  }

  lemma LaterSegment(a: nat, b: nat)
    requires a <= b < 4096 && SegmentOf(a) != SegmentOf(b)
    ensures Top(SegmentOf(a)) <= b
  {
  }

  lemma MiddlesRise(a: nat, b: nat)
    requires a <= b < 4096
    ensures Middle(CodeOf(a)) <= Middle(CodeOf(b))
  {
    var base := MiddleOfStep(a);
    var base' := MiddleOfStep(b);
    if SegmentOf(a) == SegmentOf(b) {
      FloorRises(a, b, StepOf(SegmentOf(a)));
    } else {
      BelowTop(a, base);
      LaterSegment(a, b);
      StartOfSegment(a, b, base');
    }
  }

  lemma StartOfSegment(a: nat, b: nat, base: nat)
    requires a <= b < 4096 && SegmentOf(a) != SegmentOf(b)
    requires var size := StepOf(SegmentOf(b)); base == b / size * size
    ensures Top(SegmentOf(a)) <= base
  {
    var size := StepOf(SegmentOf(b));
    SegmentSpan(b, SegmentOf(b));
    var step := StepIn(b, size);
    assert 16 * size <= (16 + step) * size;
    assert Top(SegmentOf(a)) <= 16 * size;
  }

  /** Louder samples never come out softer. */
  lemma OrderIsKept(a: Sample, b: Sample)
    requires a <= b
    ensures Decoded(Encoded(a)) <= Decoded(Encoded(b))
  {
    DecodedIs(a);
    DecodedIs(b);
    if b < 0 {
      MiddlesRise(MagnitudeOf(b), MagnitudeOf(a));
    } else if a >= 0 {
      MiddlesRise(MagnitudeOf(a), MagnitudeOf(b));
    }
  }

  /** Every code decodes to a sample that is encoded back to it. */
  lemma EncodeOfDecoded(code: byte)
    ensures -32768 <= Decoded(code) < 32768 && Encoded(Decoded(code)) == code
  {
    var value: int := Xor(code, 0x55);
    MasksReturn(code);
    MiddleCodes(if value >= 128 then value - 128 else value);
  }

  lemma MiddleCodes(code: nat)
    requires code < 128
    ensures var m: int := Middle(code);
            0 < m < 32768 && CodeOf(MagnitudeOf(m)) == code && CodeOf(MagnitudeOf(0 - m)) == code
  {
    var segment, step := code / 16, code % 16;
    assert code == segment * 16 + step;
    if segment == 0 {
      MiddleIs(0, step);
      FirstCoded(step);
    } else {
      MiddleValue(segment, step);
      HalfwayCoded(segment, step, Middle(code));
    }
  }

  lemma FirstCoded(step: nat)
    requires step < 16
    ensures var m: int := MiddleAt(0, step); CodeOf(MagnitudeOf(m)) == step && CodeOf(MagnitudeOf(0 - m)) == step
  {
    assert MagnitudeOf(step * 16 + 8) == 2 * step + 1 && MagnitudeOf(0 - (step * 16 + 8)) == 2 * step;
  }

  lemma HalfwayCoded(segment: nat, step: nat, m: int)
    requires 0 < segment < 8 && step < 16 && m == 8 * ((16 + step) * StepOf(segment)) + 4 * StepOf(segment)
    ensures 0 < m < 32768 && CodeOf(MagnitudeOf(m)) == segment * 16 + step == CodeOf(MagnitudeOf(0 - m))
  {
    var size := StepOf(segment);
    var low := (16 + step) * size;
    assert 16 * size <= low <= 31 * size && size <= 128;
    StepDoubles(segment);
    assert MagnitudeOf(m) == low + size / 2 && MagnitudeOf(0 - m) == low + size / 2 - 1;
    StepCoded(low + size / 2, segment, step);
    StepCoded(low + size / 2 - 1, segment, step);
  }
}
