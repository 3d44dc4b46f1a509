/** `db/src/simd.rs`: the dot product of ternary sketches, packed as two-bit lanes in 64-bit words. */
module Ternary {
  import opened Kernels

  const LANES := 32
  const LOW: bv64 := 0x5555_5555_5555_5555

  function Half(w: bv64): bv64 {
    w >> 1
  }

  predicate Odd(w: bv64) {
    w & 1 == 1
  }

  predicate BitAt(w: bv64, i: nat)
    decreases i
  {
    if i == 0 then Odd(w) else BitAt(Half(w), i - 1)
  }

  function One(b: bool): int {
    if b then 1 else 0
  }

  /** How many of the first `n` bits are set. */
  function Count(bits: nat -> bool, n: nat): int
    decreases n
  {
    if n == 0 then 0 else Count(bits, n - 1) + One(bits(n - 1))
  }

  function Bits(w: bv64): nat -> bool {
    (i: nat) => BitAt(w, i)
  }

  /** `count_ones`. */
  function CountOnes(w: bv64): int {
    Count(Bits(w), 64)
  }

  /** Lane `k` of a word: its low bit counts +1, its high bit -1. */
  function Trit(w: bv64, k: nat): (t: int)
    ensures -1 <= t <= 1
  {
    One(BitAt(w, 2 * k)) - One(BitAt(w, 2 * k + 1))
  }

  /** The sum of the products of the first `n` lanes. */
  function LaneDot(a: bv64, b: bv64, n: nat): int
    decreases n
  {
    if n == 0 then 0 else LaneDot(a, b, n - 1) + Trit(a, n - 1) * Trit(b, n - 1)
  }

  // ----- Single bits -----

  lemma AndHalf(x: bv64, y: bv64)
    ensures Half(x & y) == Half(x) & Half(y)
    ensures Odd(x & y) <==> Odd(x) && Odd(y)
  {
  }

  lemma {:induction false} AndBit(x: bv64, y: bv64, z: bv64, i: nat)
    requires z == x & y
    ensures BitAt(z, i) <==> BitAt(x, i) && BitAt(y, i)
    decreases i
  {
    AndHalf(x, y);
    if i > 0 {
      AndBit(Half(x), Half(y), Half(z), i - 1);
    }
  }

  lemma MaskHalf(x: bv64)
    ensures Odd(x & LOW) == Odd(x) && !Odd(Half(x & LOW))
    ensures Half(Half(x & LOW)) == Half(Half(x)) & LOW
  {
  }

  lemma BitTwo(w: bv64, i: nat)
    requires i > 1
    ensures BitAt(w, i) == BitAt(Half(Half(w)), i - 2)
  {
    assert BitAt(w, i) == BitAt(Half(w), i - 1);
  }

  /** The mask keeps the low bit of every lane. */
  lemma {:induction false} MaskBit(x: bv64, z: bv64, i: nat)
    requires z == x & LOW
    ensures BitAt(z, i) <==> i % 2 == 0 && BitAt(x, i)
    decreases i
  {
    MaskHalf(x);
    if i == 1 {
      assert BitAt(z, 1) == BitAt(Half(z), 0);
    } else if i > 1 {
      BitTwo(x, i);
      BitTwo(z, i);
      MaskBit(Half(Half(x)), Half(Half(z)), i - 2);
    }
  }

  function Low(w: bv64): bv64 {
    w & LOW
  }

  function High(w: bv64): bv64 {
    Half(w) & LOW
  }

  lemma MaskPair(x: bv64, z: bv64, k: nat)
    requires z == x & LOW
    ensures BitAt(z, 2 * k) == BitAt(x, 2 * k) && !BitAt(z, 2 * k + 1)
  {
    MaskBit(x, z, 2 * k);
    MaskBit(x, z, 2 * k + 1);
  }

  lemma BitNext(w: bv64, i: nat)
    ensures BitAt(w, i + 1) == BitAt(Half(w), i)
  {
  }

  lemma LowBit(w: bv64, k: nat)
    ensures BitAt(Low(w), 2 * k) == BitAt(w, 2 * k) && !BitAt(Low(w), 2 * k + 1)
  {
    MaskPair(w, Low(w), k);
  }

  lemma HighBit(w: bv64, k: nat)
    ensures BitAt(High(w), 2 * k) == BitAt(w, 2 * k + 1) && !BitAt(High(w), 2 * k + 1)
  {
    MaskPair(Half(w), High(w), k);
    BitNext(w, 2 * k);
  }

  // ----- Bit planes -----

  /** The overlap of two planes, over the first `n` lanes. */
  function Overlap(x: bv64, y: bv64, n: nat): int {
    Count(Bits(x & y), 2 * n)
  }

  lemma OverlapOn(x: bv64, y: bv64, n: nat)
    requires !(BitAt(x, 2 * n + 1) && BitAt(y, 2 * n + 1))
    ensures Overlap(x, y, n + 1) == Overlap(x, y, n) + One(BitAt(x, 2 * n) && BitAt(y, 2 * n))
  {
    AndBit(x, y, x & y, 2 * n);
    AndBit(x, y, x & y, 2 * n + 1);
    assert Count(Bits(x & y), 2 * n + 2) == Count(Bits(x & y), 2 * n + 1) + One(Bits(x & y)(2 * n + 1));
  }

  /** What one word contributes in the bit-plane form, over its first `n` lanes. */
  function Planes(a: bv64, b: bv64, n: nat): int {
    Overlap(Low(a), Low(b), n) + Overlap(High(a), High(b), n) -
    Overlap(Low(a), High(b), n) - Overlap(High(a), Low(b), n)
  }

  lemma TritProduct(p: bool, q: bool, r: bool, s: bool)
    ensures (One(p) - One(q)) * (One(r) - One(s)) == One(p && r) + One(q && s) - One(p && s) - One(q && r)
  {
  }

  lemma PlanesOn(a: bv64, b: bv64, k: nat)
    ensures Planes(a, b, k + 1) == Planes(a, b, k) + Trit(a, k) * Trit(b, k)
  {
    LowBit(a, k);
    LowBit(b, k);
    HighBit(a, k);
    HighBit(b, k);
    OverlapOn(Low(a), Low(b), k);
    OverlapOn(High(a), High(b), k);
    OverlapOn(Low(a), High(b), k);
    OverlapOn(High(a), Low(b), k);
    TritProduct(BitAt(a, 2 * k), BitAt(a, 2 * k + 1), BitAt(b, 2 * k), BitAt(b, 2 * k + 1));
  }

  /** The bit-plane form is the sum of lane products, for all words. */
  lemma {:induction false} PlanesAreLanes(a: bv64, b: bv64, n: nat)
    ensures Planes(a, b, n) == LaneDot(a, b, n)
    decreases n
  {
    if n > 0 {
      PlanesAreLanes(a, b, n - 1);
      PlanesOn(a, b, n - 1);
    }
  }

  // ----- Whole sketches -----

  function LowLow(a: bv64, b: bv64): int {
    CountOnes(Low(a) & Low(b))
  }

  function HighHigh(a: bv64, b: bv64): int {
    CountOnes(High(a) & High(b))
  }

  function LowHigh(a: bv64, b: bv64): int {
    CountOnes(Low(a) & High(b))
  }

  function HighLow(a: bv64, b: bv64): int {
    CountOnes(High(a) & Low(b))
  }

  /** The four overlaps of the bit-plane form: equal planes count for, unequal ones against. */
  function WordPlanes(): Kernel<bv64> {
    Kernel(LowLow, HighHigh, LowHigh, HighLow)
  }

  lemma PlanesCounted(a: bv64, b: bv64)
    ensures LowLow(a, b) + HighHigh(a, b) - LowHigh(a, b) - HighLow(a, b) == LaneDot(a, b, LANES)
  {
    PlanesAreLanes(a, b, LANES);
  }

  lemma WordIsLanes(a: bv64, b: bv64)
    ensures Word(WordPlanes(), a, b) == LaneDot(a, b, LANES)
  {
    PlanesCounted(a, b);
  }

  /** The dot product of two sketches: the sum of all lane products. */
  function Dot(a: seq<bv64>, b: seq<bv64>): int
    requires |a| == |b|
    decreases |a|
  {
    if a == [] then 0 else Dot(a[..|a| - 1], b[..|a| - 1]) + LaneDot(a[|a| - 1], b[|a| - 1], LANES)
  }

  lemma {:induction false} TotalIsDot(a: seq<bv64>, b: seq<bv64>)
    requires |a| == |b|
    ensures Total(WordPlanes(), a, b) == Dot(a, b)
    decreases |a|
  {
    if a != [] {
      TotalIsDot(a[..|a| - 1], b[..|a| - 1]);
      WordIsLanes(a[|a| - 1], b[|a| - 1]);
    }
  }

  /** `ternary_dot_count`: which kernel runs makes no difference. */
  method TernaryDotCount(a: seq<bv64>, b: seq<bv64>, avx2: bool) returns (acc: int)
    requires |a| == |b|
    ensures acc == Dot(a, b)
  {
    TotalIsDot(a, b);
    if avx2 && |a| >= 4 {
      acc := DotBlocked(WordPlanes(), a, b);
    } else {
      acc := DotScalar(WordPlanes(), a, b);
    }
  }
}
