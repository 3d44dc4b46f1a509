/** `db/src/index/ivfpq.rs`: product quantisation of vectors and asymmetric distances over reals. */
module ProductQuantizers {
  import opened Vectors

  /** One codebook per subspace; a subspace is `subDim` consecutive components. */
  datatype Quantizer = Quantizer(subDim: nat, books: seq<seq<seq<real>>>)

  /** `PQ::new`: the number of subspaces is at least 1 and at most the dimension; a remainder is not covered. */
  function SubVecs(dim: nat, subVecs: nat): (n: nat)
    requires dim > 0
    ensures 1 <= n <= dim && n * (dim / n) <= dim
  {
    var s := if subVecs < 1 then 1 else subVecs;
    if s < dim then s else dim
  }

  /** Trained codebooks: at most 256 centroids each, so that a code fits a byte. */
  predicate Trained(pq: Quantizer, dim: nat) {
    && |pq.books| * pq.subDim <= dim
    && forall s :: 0 <= s < |pq.books| ==> 1 <= |pq.books[s]| <= 256 && Rows(pq.books[s], pq.subDim)
  }

  predicate IsCode(pq: Quantizer, code: seq<nat>) {
    |code| == |pq.books| && forall s :: 0 <= s < |code| ==> code[s] < |pq.books[s]|
  }

  lemma {:induction false} Scaled(s: nat, n: nat, d: nat)
    requires s < n
    ensures s * d + d == (s + 1) * d <= n * d
    decreases n
  {
    if s + 1 < n {
      Scaled(s, n - 1, d);
      assert n * d == (n - 1) * d + d;
    }
  }

  lemma Offset(pq: Quantizer, dim: nat, s: nat)
    requires Trained(pq, dim) && s < |pq.books|
    ensures s * pq.subDim + pq.subDim == (s + 1) * pq.subDim <= dim
  {
    Scaled(s, |pq.books|, pq.subDim);
  }

  // ----- Decoding -----

  /** The vector that the first `n` parts of a code stand for. */
  function DecodeTo(pq: Quantizer, code: seq<nat>, n: nat): (r: seq<real>)
    requires IsCode(pq, code) && n <= |code|
    requires forall s :: 0 <= s < |pq.books| ==> Rows(pq.books[s], pq.subDim)
    ensures |r| == n * pq.subDim
  {
    if n == 0 then []
    else DecodeTo(pq, code, n - 1) + pq.books[n - 1][code[n - 1]]
  }

  /** Components that no subspace covers decode to zero. */
  function Decode(pq: Quantizer, code: seq<nat>, dim: nat): (r: seq<real>)
    requires Trained(pq, dim) && IsCode(pq, code)
    ensures |r| == dim
  {
    DecodeTo(pq, code, |code|) + seq(dim - |code| * pq.subDim, _ => 0.0)
  }

  function Plus(a: seq<real>, b: seq<real>): (r: seq<real>)
    requires |a| == |b|
    ensures |r| == |a| && forall i :: 0 <= i < |a| ==> r[i] == a[i] + b[i]
  {
    seq(|a|, i requires 0 <= i < |a| => a[i] + b[i])
  }

  function Minus(a: seq<real>, b: seq<real>): (r: seq<real>)
    requires |a| == |b|
    ensures |r| == |a| && forall i :: 0 <= i < |a| ==> r[i] == a[i] - b[i]
  {
    seq(|a|, i requires 0 <= i < |a| => a[i] - b[i])
  }

  // ----- Asymmetric distances -----

  function Entry1(qc: real, cr: real): real {
    -2.0 * qc * cr + cr * cr
  }

  /** One entry of the table, over the first `n` components of a subspace that starts at `off`. */
  function EntryTo(qc: seq<real>, off: nat, cr: seq<real>, n: nat): real
    requires off + n <= |qc| && n <= |cr|
  {
    if n == 0 then 0.0 else EntryTo(qc, off, cr, n - 1) + Entry1(qc[off + n - 1], cr[n - 1])
  }

  /** The sum of the first `n` table entries that a code selects. */
  function AdcTo(pq: Quantizer, qc: seq<real>, code: seq<nat>, n: nat): real
    requires Trained(pq, |qc|) && IsCode(pq, code) && n <= |code|
  {
    if n == 0 then 0.0
    else
      Offset(pq, |qc|, n - 1);
      AdcTo(pq, qc, code, n - 1) + EntryTo(qc, (n - 1) * pq.subDim, pq.books[n - 1][code[n - 1]], pq.subDim)
  }

  lemma EntrySquare(q: real, c: real, r: real)
    ensures Square(q - (c + r)) == Square(q - c) + Entry1(q - c, r)
  {
  }

  /**
   * Within one subspace, the distance to centroid plus residual grows as the distance to the centroid and
   * the entry.
   */
  lemma {:induction false} BlockExact(q: seq<real>, c: seq<real>, x: seq<real>, off: nat, cr: seq<real>, n: nat)
    requires |q| == |c| == |x| && off + n <= |q| && n <= |cr|
    requires forall i :: 0 <= i < n ==> x[off + i] == c[off + i] + cr[i]
    ensures L2To(q, x, off + n) - L2To(q, x, off) ==
            L2To(q, c, off + n) - L2To(q, c, off) + EntryTo(Minus(q, c), off, cr, n)
  {
    if n > 0 {
      BlockExact(q, c, x, off, cr, n - 1);
      EntrySquare(q[off + n - 1], c[off + n - 1], cr[n - 1]);
    }
  }

  lemma {:induction false} SameTail(q: seq<real>, c: seq<real>, x: seq<real>, off: nat, n: nat)
    requires |q| == |c| == |x| && off <= n <= |q| && forall i :: off <= i < n ==> x[i] == c[i]
    ensures L2To(q, x, n) - L2To(q, x, off) == L2To(q, c, n) - L2To(q, c, off)
  {
    if n > off {
      SameTail(q, c, x, off, n - 1);
    }
  }

  /** Where the parts of a decoded vector lie. */
  lemma {:induction false} DecodePrefix(pq: Quantizer, code: seq<nat>, dim: nat, s: nat, off: nat, n: nat)
    requires Trained(pq, dim) && IsCode(pq, code) && s < n <= |code| && off == s * pq.subDim
    ensures off + pq.subDim <= n * pq.subDim
    ensures DecodeTo(pq, code, n)[off..off + pq.subDim] == pq.books[s][code[s]]
  {
    Scaled(s, n, pq.subDim);
    if s + 1 < n {
      DecodePrefix(pq, code, dim, s, off, n - 1);
      assert DecodeTo(pq, code, n)[..|DecodeTo(pq, code, n - 1)|] == DecodeTo(pq, code, n - 1);
      SameSlice(DecodeTo(pq, code, n - 1), DecodeTo(pq, code, n), off, off + pq.subDim);
    }
  }

  lemma SameSlice(a: seq<real>, b: seq<real>, lo: nat, hi: nat)
    requires lo <= hi <= |a| <= |b| && b[..|a|] == a
    ensures b[lo..hi] == a[lo..hi]
  {
    assert forall i :: lo <= i < hi ==> b[i] == b[..|a|][i];
  }

  lemma DecodePart(pq: Quantizer, code: seq<nat>, dim: nat, s: nat, off: nat)
    requires Trained(pq, dim) && IsCode(pq, code) && s < |code| && off == s * pq.subDim
    ensures off + pq.subDim <= dim
    ensures Decode(pq, code, dim)[off..off + pq.subDim] == pq.books[s][code[s]]
  {
    DecodePrefix(pq, code, dim, s, off, |code|);
    var all := DecodeTo(pq, code, |code|);
    assert Decode(pq, code, dim)[..|all|] == all;
    SameSlice(all, Decode(pq, code, dim), off, off + pq.subDim);
  }

  /** The coarse distance plus the selected entries is the distance to centroid plus decoded residual. */
  lemma {:induction false} AdcExactTo(pq: Quantizer, q: seq<real>, c: seq<real>, code: seq<nat>, n: nat)
    requires |q| == |c| && Trained(pq, |q|) && IsCode(pq, code) && n <= |code|
    ensures n * pq.subDim <= |q|
    ensures L2To(q, Plus(c, Decode(pq, code, |q|)), n * pq.subDim) ==
            L2To(q, c, n * pq.subDim) + AdcTo(pq, Minus(q, c), code, n)
  {
    if n > 0 {
      AdcExactTo(pq, q, c, code, n - 1);
      Offset(pq, |q|, n - 1);
      AdcPart(pq, q, c, code, n - 1, (n - 1) * pq.subDim, n * pq.subDim, Plus(c, Decode(pq, code, |q|)));
    }
  }

  lemma AdcPart(pq: Quantizer, q: seq<real>, c: seq<real>, code: seq<nat>, s: nat, off: nat, end: nat, x: seq<real>)
    requires |q| == |c| && Trained(pq, |q|) && IsCode(pq, code) && s < |code|
    requires off == s * pq.subDim && end == off + pq.subDim <= |q| && x == Plus(c, Decode(pq, code, |q|))
    ensures L2To(q, x, end) - L2To(q, x, off) ==
            L2To(q, c, end) - L2To(q, c, off) + EntryTo(Minus(q, c), off, pq.books[s][code[s]], pq.subDim)
  {
    DecodePart(pq, code, |q|, s, off);
    AdcBlock(q, c, Decode(pq, code, |q|), off, pq.books[s][code[s]]);
  }

  lemma AdcBlock(q: seq<real>, c: seq<real>, r: seq<real>, off: nat, cr: seq<real>)
    requires |q| == |c| == |r| && off + |cr| <= |r| && r[off..off + |cr|] == cr
    ensures L2To(q, Plus(c, r), off + |cr|) - L2To(q, Plus(c, r), off) ==
            L2To(q, c, off + |cr|) - L2To(q, c, off) + EntryTo(Minus(q, c), off, cr, |cr|)
  {
    PlusPart(c, r, off, cr);
    BlockExact(q, c, Plus(c, r), off, cr, |cr|);
  }

  lemma PlusPart(c: seq<real>, r: seq<real>, off: nat, cr: seq<real>)
    requires |c| == |r| && off + |cr| <= |r| && r[off..off + |cr|] == cr
    ensures forall i :: 0 <= i < |cr| ==> Plus(c, r)[off + i] == c[off + i] + cr[i]
  {
    forall i | 0 <= i < |cr| ensures Plus(c, r)[off + i] == c[off + i] + cr[i] {
      assert r[off..off + |cr|][i] == r[off + i];
    }
  }

  lemma AdcExact(pq: Quantizer, q: seq<real>, c: seq<real>, code: seq<nat>)
    requires |q| == |c| && Trained(pq, |q|) && IsCode(pq, code)
    ensures L2(q, c) + AdcTo(pq, Minus(q, c), code, |code|) == L2(q, Plus(c, Decode(pq, code, |q|)))
  {
    var x := Plus(c, Decode(pq, code, |q|));
    AdcExactTo(pq, q, c, code, |code|);
    SameTail(q, c, x, |code| * pq.subDim, |q|);
  }

  method Entry(qc: seq<real>, off: nat, cr: seq<real>) returns (acc: real)
    requires off + |cr| <= |qc|
    ensures acc == EntryTo(qc, off, cr, |cr|)
  {
    acc := 0.0;
    for i := 0 to |cr|
      invariant acc == EntryTo(qc, off, cr, i)
    {
      acc := acc + Entry1(qc[off + i], cr[i]);
    }
  }

  /** A table with one row per subspace and one entry per centroid. */
  ghost predicate IsTable(pq: Quantizer, qc: seq<real>, table: seq<seq<real>>, n: nat)
    requires Trained(pq, |qc|) && n <= |pq.books|
  {
    |table| == n && forall s :: 0 <= s < n ==> IsTableRow(pq, qc, s, table[s])
  }

  ghost predicate IsTableRow(pq: Quantizer, qc: seq<real>, s: nat, row: seq<real>)
    requires Trained(pq, |qc|) && s < |pq.books|
  {
    Offset(pq, |qc|, s);
    |row| == |pq.books[s]| &&
    forall j :: 0 <= j < |row| ==> row[j] == EntryTo(qc, s * pq.subDim, pq.books[s][j], pq.subDim)
  }

  method TableRow(pq: Quantizer, qc: seq<real>, s: nat) returns (row: seq<real>)
    requires Trained(pq, |qc|) && s < |pq.books|
    ensures IsTableRow(pq, qc, s, row)
  {
    Offset(pq, |qc|, s);
    row := [];
    for j := 0 to |pq.books[s]|
      invariant |row| == j
      invariant forall i :: 0 <= i < j ==> row[i] == EntryTo(qc, s * pq.subDim, pq.books[s][i], pq.subDim)
    {
      var acc := Entry(qc, s * pq.subDim, pq.books[s][j]);
      row := row + [acc];
    }
  }

  /** `adc_table_for`. */
  method AdcTableFor(pq: Quantizer, qc: seq<real>) returns (table: seq<seq<real>>)
    requires Trained(pq, |qc|)
    ensures IsTable(pq, qc, table, |pq.books|)
  {
    table := [];
    for s := 0 to |pq.books|
      invariant IsTable(pq, qc, table, s)
    {
      var row := TableRow(pq, qc, s);
      table := table + [row];
    }
  }

  /** `distance_adc`. */
  method DistanceAdc(pq: Quantizer, table: seq<seq<real>>, code: seq<nat>, ghost qc: seq<real>) returns (acc: real)
    requires Trained(pq, |qc|) && IsTable(pq, qc, table, |pq.books|) && IsCode(pq, code)
    ensures acc == AdcTo(pq, qc, code, |code|)
  {
    acc := 0.0;
    for s := 0 to |code|
      invariant acc == AdcTo(pq, qc, code, s)
    {
      assert IsTableRow(pq, qc, s, table[s]);
      acc := acc + table[s][code[s]];
    }
  }

  // ----- Encoding -----

  function Part(row: seq<real>, subDim: nat, s: nat): (r: seq<real>)
    requires s * subDim + subDim <= |row|
    ensures |r| == subDim
  {
    row[s * subDim..s * subDim + subDim]
  }

  /** The distance of a row to a code, subspace by subspace. */
  function PartsTo(pq: Quantizer, row: seq<real>, code: seq<nat>, n: nat): real
    requires Trained(pq, |row|) && IsCode(pq, code) && n <= |code|
  {
    if n == 0 then 0.0
    else
      Offset(pq, |row|, n - 1);
      PartsTo(pq, row, code, n - 1) + L2(Part(row, pq.subDim, n - 1), pq.books[n - 1][code[n - 1]])
  }

  lemma {:induction false} BlockPart(row: seq<real>, x: seq<real>, off: nat, sub: seq<real>, cr: seq<real>, n: nat)
    requires |row| == |x| && |sub| == |cr| && n <= |cr| && off + |cr| <= |row|
    requires x[off..off + |cr|] == cr && row[off..off + |cr|] == sub
    ensures L2To(row, x, off + n) - L2To(row, x, off) == L2To(sub, cr, n)
  {
    if n > 0 {
      BlockPart(row, x, off, sub, cr, n - 1);
      assert x[off..off + |cr|][n - 1] == x[off + n - 1] && row[off..off + |cr|][n - 1] == row[off + n - 1];
    }
  }

  lemma {:induction false} PartsExact(pq: Quantizer, row: seq<real>, code: seq<nat>, n: nat)
    requires Trained(pq, |row|) && IsCode(pq, code) && n <= |code|
    ensures n * pq.subDim <= |row|
    ensures L2To(row, Decode(pq, code, |row|), n * pq.subDim) == PartsTo(pq, row, code, n)
  {
    if n > 0 {
      PartsExact(pq, row, code, n - 1);
      Offset(pq, |row|, n - 1);
      var off, x, cr := (n - 1) * pq.subDim, Decode(pq, code, |row|), pq.books[n - 1][code[n - 1]];
      var sub := Part(row, pq.subDim, n - 1);
      DecodePart(pq, code, |row|, n - 1, off);
      BlockPart(row, x, off, sub, cr, pq.subDim);
    }
  }

  /** Every part of the code is the first closest centroid of its codebook. */
  ghost predicate Encodes(pq: Quantizer, row: seq<real>, code: seq<nat>)
    requires Trained(pq, |row|)
  {
    && IsCode(pq, code)
    && forall s :: 0 <= s < |code| ==> code[s] == ClosestIn(pq, row, s)
  }

  function ClosestIn(pq: Quantizer, row: seq<real>, s: nat): (best: nat)
    requires Trained(pq, |row|) && s < |pq.books|
    ensures best < |pq.books[s]|
  {
    Offset(pq, |row|, s);
    Nearest(Part(row, pq.subDim, s), pq.books[s], |pq.books[s]|)
  }

  lemma {:induction false} PartsOptimal(pq: Quantizer, row: seq<real>, code: seq<nat>, other: seq<nat>, n: nat)
    requires Trained(pq, |row|) && Encodes(pq, row, code) && IsCode(pq, other) && n <= |code|
    ensures PartsTo(pq, row, code, n) <= PartsTo(pq, row, other, n)
  {
    if n > 0 {
      PartsOptimal(pq, row, code, other, n - 1);
      Offset(pq, |row|, n - 1);
      assert code[n - 1] == ClosestIn(pq, row, n - 1);
    }
  }

  /** Choosing per subspace is choosing globally: no code of the whole product codebook decodes closer to the row. */
  lemma EncodingOptimal(pq: Quantizer, row: seq<real>, code: seq<nat>, other: seq<nat>)
    requires Trained(pq, |row|) && Encodes(pq, row, code) && IsCode(pq, other)
    ensures L2(row, Decode(pq, code, |row|)) <= L2(row, Decode(pq, other, |row|))
  {
    var n := |pq.books|;
    PartsExact(pq, row, code, n);
    PartsExact(pq, row, other, n);
    PartsOptimal(pq, row, code, other, n);
    SameTail(row, Decode(pq, code, |row|), Decode(pq, other, |row|), n * pq.subDim, |row|);
  }

  /** `encode_row`. */
  method EncodeRow(pq: Quantizer, row: seq<real>) returns (code: seq<nat>)
    requires Trained(pq, |row|)
    ensures Encodes(pq, row, code)
  {
    code := [];
    for s := 0 to |pq.books|
      invariant |code| == s && forall i :: 0 <= i < s ==> code[i] == ClosestIn(pq, row, i)
    {
      Offset(pq, |row|, s);
      var best := FindNearest(Part(row, pq.subDim, s), pq.books[s]);
      code := code + [best];
    }
  }
}
