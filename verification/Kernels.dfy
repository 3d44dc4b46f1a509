/**
 * `db/src/simd.rs`: the scalar loop and the loop over blocks of four words, for any four counts that are added
 * and subtracted word by word.
 */
module Kernels {

  /** Two counts of a pair of words that are added and two that are subtracted. */
  datatype Kernel<!T> = Kernel(plus0: (T, T) -> int, plus1: (T, T) -> int, minus0: (T, T) -> int, minus1: (T, T) -> int)

  function Word<T>(k: Kernel<T>, a: T, b: T): int {
    k.plus0(a, b) + k.plus1(a, b) - k.minus0(a, b) - k.minus1(a, b)
  }

  function Total<T>(k: Kernel<T>, a: seq<T>, b: seq<T>): int
    requires |a| == |b|
    decreases |a|
  {
    if a == [] then 0 else Total(k, a[..|a| - 1], b[..|a| - 1]) + Word(k, a[|a| - 1], b[|a| - 1])
  }

  lemma TotalOn<T>(k: Kernel<T>, a: seq<T>, b: seq<T>, i: nat)
    requires i < |a| == |b|
    ensures Total(k, a[..i + 1], b[..i + 1]) == Total(k, a[..i], b[..i]) + Word(k, a[i], b[i])
  {
    assert a[..i + 1][..i] == a[..i] && b[..i + 1][..i] == b[..i];
  }

  lemma {:induction false} TotalSplit<T>(k: Kernel<T>, a: seq<T>, b: seq<T>, i: nat)
    requires i <= |a| == |b|
    ensures Total(k, a, b) == Total(k, a[..i], b[..i]) + Total(k, a[i..], b[i..])
    decreases |a|
  {
    if i == |a| {
      assert a[..i] == a && b[..i] == b && a[i..] == [] && b[i..] == [];
    } else {
      var n := |a| - 1;
      TotalSplit(k, a[..n], b[..n], i);
      assert a[..n][..i] == a[..i] && b[..n][..i] == b[..i];
      assert a[..n][i..] == a[i..][..n - i] && b[..n][i..] == b[i..][..n - i];
    }
  }

  /** `ternary_dot_count_scalar`. */
  method DotScalar<T>(k: Kernel<T>, a: seq<T>, b: seq<T>) returns (acc: int)
    requires |a| == |b|
    ensures acc == Total(k, a, b)
  {
    acc := 0;
    for i := 0 to |a|
      invariant acc == Total(k, a[..i], b[..i])
    {
      TotalOn(k, a, b, i);
      acc := acc + k.plus0(a[i], b[i]) + k.plus1(a[i], b[i]) - k.minus0(a[i], b[i]) - k.minus1(a[i], b[i]);
    }
    assert a[..|a|] == a && b[..|b|] == b;
  }

  /** `popcnt4`: one count over four words. */
  function Four<T>(count: (T, T) -> int, a: seq<T>, b: seq<T>, i: nat): int
    requires i + 4 <= |a| == |b|
  {
    count(a[i], b[i]) + count(a[i + 1], b[i + 1]) + count(a[i + 2], b[i + 2]) + count(a[i + 3], b[i + 3])
  }

  /** Four words at once contribute what they would one by one. */
  lemma BlockOn<T>(k: Kernel<T>, a: seq<T>, b: seq<T>, i: nat)
    requires i + 4 <= |a| == |b|
    ensures Total(k, a[..i + 4], b[..i + 4]) ==
            Total(k, a[..i], b[..i]) + Four(k.plus0, a, b, i) - Four(k.minus0, a, b, i) + Four(k.plus1, a, b, i)
            - Four(k.minus1, a, b, i)
  {
    TotalOn(k, a, b, i);
    TotalOn(k, a, b, i + 1);
    TotalOn(k, a, b, i + 2);
    TotalOn(k, a, b, i + 3);
  }

  /** `ternary_dot_count_avx2`: blocks of four words, then the scalar loop on the tail. */
  method DotBlocked<T>(k: Kernel<T>, a: seq<T>, b: seq<T>) returns (acc: int)
    requires |a| == |b|
    ensures acc == Total(k, a, b)
  {
    acc := 0;
    var i, n := 0, |a|;
    while i + 4 <= n
      invariant i <= n && acc == Total(k, a[..i], b[..i])
    {
      BlockOn(k, a, b, i);
      acc := acc + Four(k.plus0, a, b, i);
      acc := acc - Four(k.minus0, a, b, i);
      acc := acc + Four(k.plus1, a, b, i);
      acc := acc - Four(k.minus1, a, b, i);
      i := i + 4;
    }
    TotalSplit(k, a, b, i);
    if i < n {
      var tail := DotScalar(k, a[i..], b[i..]);
      acc := acc + tail;
    } else {
      assert a[i..] == [] && b[i..] == [];
    }
  }
}
