/** `db/src/sketch.rs`: ternary sketches of dense vectors, and their similarity. */
module Sketches {
  import opened Linking
  import opened Neighbours
  import opened Packing
  import opened Sorting
  import opened Ternary

  const DIM := 1024
  const WORDS := 32

  datatype Sketch = Sketch(words: seq<bv64>, nz: nat)

  /** The nonzero ones among the first `n` lanes of every word. */
  function TotalLanes(words: seq<bv64>, n: nat): nat
    decreases |words|
  {
    if words == [] then 0 else TotalLanes(words[..|words| - 1], n) + Nonzeros(words[|words| - 1], n)
  }

  /** The nonzero lanes of a sketch. */
  function TotalNz(words: seq<bv64>): nat {
    TotalLanes(words, LANES)
  }

  ghost predicate WellFormed(s: Sketch) {
    |s.words| == WORDS && s.nz == TotalNz(s.words)
  }

  /** Lane `i` of a sketch. */
  function Lane(words: seq<bv64>, i: nat): int
    requires i / LANES < |words|
  {
    Trit(words[i / LANES], i % LANES)
  }

  predicate FreeAt(words: seq<bv64>, i: nat)
    requires i / LANES < |words|
  {
    Free(words[i / LANES], i % LANES)
  }

  lemma {:induction false} TotalLanesSet(words: seq<bv64>, n: nat, q: nat, z: bv64)
    requires q < |words|
    ensures TotalLanes(words[q := z], n) == TotalLanes(words, n) - Nonzeros(words[q], n) + Nonzeros(z, n)
    decreases |words|
  {
    var last := |words| - 1;
    var more := words[q := z];
    if q < last {
      TotalLanesSet(words[..last], n, q, z);
      assert more[..last] == words[..last][q := z];
    } else {
      assert more[..last] == words[..last];
    }
  }

  lemma {:induction false} EmptyTotal(words: seq<bv64>, n: nat)
    requires forall i :: 0 <= i < |words| ==> words[i] == 0
    ensures TotalLanes(words, n) == 0
    decreases |words|
  {
    if words != [] {
      EmptyTotal(words[..|words| - 1], n);
      EmptyWord(n);
    }
  }

  // ----- Packing -----

  lemma PackOneLane(words: seq<bv64>, i: nat, code: bv64, z: bv64, packed: seq<bv64>, j: nat)
    requires |words| == WORDS && i < DIM && j < DIM && (code == 1 || code == 2) && FreeAt(words, i)
    requires z == words[i / LANES] | Raised(code, i % LANES) && packed == words[i / LANES := z]
    ensures Lane(packed, j) == if j == i then Sign(code) else Lane(words, j)
    ensures j != i ==> (FreeAt(packed, j) <==> FreeAt(words, j))
  {
    var q := i / LANES;
    if j / LANES == q {
      SamePlace(i, j);
      PackLane(words[q], code, z, i % LANES, j % LANES);
    } else {
      assert packed[j / LANES] == words[j / LANES];
    }
  }

  lemma SamePlace(i: nat, j: nat)
    ensures i / LANES == j / LANES && i % LANES == j % LANES ==> i == j
  {
    assert i == LANES * (i / LANES) + i % LANES;
    assert j == LANES * (j / LANES) + j % LANES;
  }

  lemma PackOneCount(words: seq<bv64>, i: nat, code: bv64, z: bv64)
    requires |words| == WORDS && i < DIM && (code == 1 || code == 2) && FreeAt(words, i)
    requires z == words[i / LANES] | Raised(code, i % LANES)
    ensures TotalNz(words[i / LANES := z]) == TotalNz(words) + 1
  {
    PackCounts(words[i / LANES], code, z, i % LANES, LANES);
    TotalLanesSet(words, LANES, i / LANES, z);
  }

  /** The sketch after lane `i` has been written. */
  ghost predicate Written(words: seq<bv64>, packed: seq<bv64>, i: nat, sign: int) {
    && |packed| == |words| == WORDS && TotalNz(packed) == TotalNz(words) + 1
    && (forall j :: 0 <= j < DIM ==> Lane(packed, j) == if j == i then sign else Lane(words, j))
    && (forall j :: 0 <= j < DIM && j != i ==> (FreeAt(packed, j) <==> FreeAt(words, j)))
  }

  /** One code OR-ed into its lane. */
  method PackOne(words: seq<bv64>, i: nat, code: bv64) returns (packed: seq<bv64>)
    requires |words| == WORDS && i < DIM && (code == 1 || code == 2) && FreeAt(words, i)
    ensures Written(words, packed, i, Sign(code))
  {
    var z := words[i / LANES] | Raised(code, i % LANES);
    packed := words[i / LANES := z];
    PackOneCount(words, i, code, z);
    forall j: nat | j < DIM
      ensures Lane(packed, j) == if j == i then Sign(code) else Lane(words, j)
      ensures j != i ==> (FreeAt(packed, j) <==> FreeAt(words, j))
    {
      PackOneLane(words, i, code, z, packed, j);
    }
  }

  function Nonzero(dense: seq<real>, n: nat): (r: seq<nat>)
    requires n <= |dense|
    ensures Distinct(r) && forall i: nat :: i in r <==> i < n && dense[i] != 0.0
  {
    if n == 0 then []
    else if dense[n - 1] != 0.0 then Nonzero(dense, n - 1) + [n - 1]
    else Nonzero(dense, n - 1)
  }

  /** Larger magnitudes first. */
  function Faintness(dense: seq<real>): nat -> real {
    (i: nat) => if i < |dense| then (if dense[i] < 0.0 then dense[i] else -dense[i]) else 0.0
  }

  ghost function Magnitude(x: real): (m: real)
    ensures m >= 0.0 && (m == x || m == -x)
  {
    if x >= 0.0 then x else -x
  }

  lemma FaintestLast(dense: seq<real>, keep: nat, idx: seq<nat>)
    requires |dense| == DIM && Trimmed(Faintness(dense), Nonzero(dense, DIM), keep, idx)
    ensures forall i: nat, j: nat :: i < DIM && dense[i] != 0.0 && i !in idx && j in idx && j < DIM ==>
              Magnitude(dense[i]) <= Magnitude(dense[j])
  {
    forall i: nat, j: nat | i < DIM && dense[i] != 0.0 && i !in idx && j in idx && j < DIM
      ensures Magnitude(dense[i]) <= Magnitude(dense[j])
    {
      assert Faintness(dense)(j) <= Faintness(dense)(i);
    }
  }

  /** The sketch of a vector: the signs of its `keep` largest nonzero components. */
  ghost predicate Sketches(dense: seq<real>, keep: nat, idx: seq<nat>, s: Sketch)
    requires |dense| == DIM
  {
    && Distinct(idx) && |idx| == (if keep < |Nonzero(dense, DIM)| then keep else |Nonzero(dense, DIM)|)
    && (forall i :: i in idx ==> i < DIM && dense[i] != 0.0)
    && (forall i: nat, j: nat :: i < DIM && dense[i] != 0.0 && i !in idx && j in idx && j < DIM ==>
          Magnitude(dense[i]) <= Magnitude(dense[j]))
    && WellFormed(s) && s.nz == |idx|
    && forall i :: 0 <= i < DIM ==>
         Lane(s.words, i) == if i in idx then (if dense[i] > 0.0 then 1 else -1) else 0
  }

  /** `from_dense`. */
  method FromDense(dense: seq<real>, keep: nat) returns (s: Sketch, ghost idx: seq<nat>)
    requires |dense| == DIM
    ensures Sketches(dense, keep, idx, s)
  {
    var list := Nonzero(dense, DIM);
    SortTrims(Faintness(dense), list, keep);
    var kept := Take(SortBy(list, Faintness(dense)), keep);
    idx := kept;
    FaintestLast(dense, keep, kept);
    var words, nz := PackAll(dense, kept);
    s := Sketch(words, nz);
  }

  /** The loop over the kept components. */
  method PackAll(dense: seq<real>, kept: seq<nat>) returns (words: seq<bv64>, nz: nat)
    requires |dense| == DIM && Distinct(kept) && forall i :: i in kept ==> i < DIM
    ensures nz == |kept| && |words| == WORDS && TotalNz(words) == nz
    ensures forall i :: 0 <= i < DIM ==>
              Lane(words, i) == if i in kept then (if dense[i] > 0.0 then 1 else -1) else 0
  {
    words := seq(WORDS, _ => 0);
    EmptySketch(words);
    nz := 0;
    for t := 0 to |kept|
      invariant nz == t && PackedUpTo(dense, kept, t, words)
    {
      FreshPick(kept, t);
      var packed := PackOne(words, kept[t], if dense[kept[t]] > 0.0 then 1 else 2);
      PackedOn(dense, kept, t, words, packed);
      words := packed;
      nz := nz + 1;
    }
    assert kept[..|kept|] == kept;
  }

  lemma FreshPick(kept: seq<nat>, t: nat)
    requires t < |kept| && Distinct(kept) && forall i :: i in kept ==> i < DIM
    ensures kept[t] < DIM && kept[t] !in kept[..t]
  {
    assert kept[t] in kept;
  }

  /** The first `t` kept components have been packed, and nothing else. */
  ghost predicate PackedUpTo(dense: seq<real>, kept: seq<nat>, t: nat, words: seq<bv64>)
    requires |dense| == DIM && t <= |kept|
  {
    && |words| == WORDS && TotalNz(words) == t
    && (forall i :: 0 <= i < DIM ==>
          Lane(words, i) == if i in kept[..t] then (if dense[i] > 0.0 then 1 else -1) else 0)
    && (forall i :: 0 <= i < DIM && i !in kept[..t] ==> FreeAt(words, i))
  }

  lemma PackedOn(dense: seq<real>, kept: seq<nat>, t: nat, words: seq<bv64>, packed: seq<bv64>)
    requires |dense| == DIM && t < |kept| && kept[t] < DIM && PackedUpTo(dense, kept, t, words)
    requires Written(words, packed, kept[t], if dense[kept[t]] > 0.0 then 1 else -1)
    ensures PackedUpTo(dense, kept, t + 1, packed)
  {
    assert kept[..t + 1] == kept[..t] + [kept[t]];
  }

  lemma EmptySketch(words: seq<bv64>)
    requires |words| == WORDS && forall q :: 0 <= q < WORDS ==> words[q] == 0
    ensures TotalNz(words) == 0
    ensures forall i :: 0 <= i < DIM ==> Lane(words, i) == 0 && FreeAt(words, i)
  {
    EmptyTotal(words, LANES);
    forall i | 0 <= i < DIM ensures Lane(words, i) == 0 && FreeAt(words, i) {
      ZeroBit(2 * (i % LANES));
      ZeroBit(2 * (i % LANES) + 1);
    }
  }

  // ----- Similarity -----

  function Abs(x: int): nat {
    if x < 0 then -x else x
  }

  lemma {:induction false} LaneDotBound(a: bv64, b: bv64, n: nat)
    ensures Abs(LaneDot(a, b, n)) <= Nonzeros(a, n) && Abs(LaneDot(a, b, n)) <= Nonzeros(b, n)
    ensures LaneDot(a, a, n) == Nonzeros(a, n)
    decreases n
  {
    if n > 0 {
      LaneDotBound(a, b, n - 1);
      TritBound(Trit(a, n - 1), Trit(b, n - 1));
    }
  }

  lemma TritBound(s: int, t: int)
    requires -1 <= s <= 1 && -1 <= t <= 1
    ensures -1 <= s * t <= 1 && (s == 0 || t == 0 ==> s * t == 0) && s * s == if s == 0 then 0 else 1
  {
  }

  /** A dot product never exceeds the nonzero lanes of either side, and reaches them against itself. */
  lemma {:induction false} DotBound(a: seq<bv64>, b: seq<bv64>)
    requires |a| == |b|
    ensures Abs(Dot(a, b)) <= TotalNz(a) && Abs(Dot(a, b)) <= TotalNz(b)
    ensures Dot(a, a) == TotalNz(a)
    decreases |a|
  {
    if a != [] {
      var n := |a| - 1;
      DotBound(a[..n], b[..n]);
      LaneDotBound(a[n], b[n], LANES);
    }
  }

  lemma SquareBound(d: int, m: nat, n: nat)
    requires Abs(d) <= m && Abs(d) <= n
    ensures d * d <= m * n
  {
    var e := Abs(d);
    assert d * d == e * e;
    assert e * e <= m * e;
    assert m * e <= m * n;
  }

  /** The Cauchy-Schwarz inequality for sketches. */
  lemma DotSquared(a: Sketch, b: Sketch)
    requires WellFormed(a) && WellFormed(b)
    ensures Dot(a.words, b.words) * Dot(a.words, b.words) <= a.nz * b.nz
  {
    DotBound(a.words, b.words);
    SquareBound(Dot(a.words, b.words), a.nz, b.nz);
  }

  /** `dot`, given the square root of the product of the two counts. */
  method Similarity(a: Sketch, b: Sketch, root: real, avx2: bool) returns (r: real)
    requires WellFormed(a) && WellFormed(b) && root >= 0.0 && root * root == (a.nz * b.nz) as real
    ensures a.nz == 0 || b.nz == 0 ==> r == 0.0
    ensures a.nz > 0 && b.nz > 0 ==> root > 0.0 && r == Dot(a.words, b.words) as real / root
    ensures -1.0 <= r <= 1.0
    ensures a == b && a.nz > 0 ==> r == 1.0
  {
    if a.nz == 0 || b.nz == 0 || |a.words| != |b.words| {
      return 0.0;
    }
    var acc := TernaryDotCount(a.words, b.words, avx2);
    DotBound(a.words, b.words);
    RootPositive(a.nz, b.nz, root);
    QuotientBound(acc, a.nz, b.nz, root);
    r := acc as real / root;
  }

  lemma RootPositive(m: nat, n: nat, root: real)
    requires m > 0 && n > 0 && root >= 0.0 && root * root == (m * n) as real
    ensures root > 0.0
  {
    assert m * n >= 1;
    ZeroSquare(root);
  }

  lemma ZeroSquare(x: real)
    ensures x == 0.0 ==> x * x == 0.0
  {
  }

  lemma QuotientBound(d: int, m: nat, n: nat, root: real)
    requires Abs(d) <= m && Abs(d) <= n && root > 0.0 && root * root == (m * n) as real
    ensures -1.0 <= d as real / root <= 1.0
    ensures d == m == n ==> d as real / root == 1.0
  {
    var x := d as real;
    assert x * x <= root * root by {
      SquareBound(d, m, n);
      CastSquare(d);
    }
    RootBounds(x, root);
    DivisionBounds(x, root);
    if d == m == n {
      CastSquare(d);
      SameSquare(x, root);
    }
  }

  lemma CastSquare(d: int)
    ensures (d as real) * (d as real) == (d * d) as real
  {
  }

  lemma PositiveProduct(x: real, y: real)
    requires x > 0.0 && y > 0.0
    ensures x * y > 0.0
  {
  }

  lemma SquareLess(x: real, y: real)
    requires 0.0 <= x < y
    ensures x * x < y * y
  {
    PositiveProduct(y - x, y + x);
    assert (y - x) * (y + x) == y * y - x * x;
  }

  lemma RootBounds(x: real, root: real)
    requires root > 0.0 && x * x <= root * root
    ensures -root <= x <= root
  {
    assert (-x) * (-x) == x * x;
    if x > root {
      SquareLess(root, x);
    }
    if x < -root {
      SquareLess(root, -x);
    }
  }

  lemma DivisionBounds(x: real, root: real)
    requires root > 0.0 && -root <= x <= root
    ensures -1.0 <= x / root <= 1.0
    ensures x == root ==> x / root == 1.0
  {
    var y := x / root;
    assert y * root == x;
    assert (y - 1.0) * root == x - root && (-1.0 - y) * root == -root - x;
    if y > 1.0 {
      PositiveProduct(y - 1.0, root);
    }
    if y < -1.0 {
      PositiveProduct(-1.0 - y, root);
    }
  }

  lemma SameSquare(x: real, root: real)
    requires root > 0.0 && x >= 0.0 && x * x == root * root
    ensures x == root
  {
    if x < root {
      SquareLess(x, root);
    }
    if x > root {
      SquareLess(root, x);
    }
  }
}
