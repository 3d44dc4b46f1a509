/** The stable sort that the source takes from its standard library (`sort_by` on a float key). */
module Sorting {

  predicate SortedBy<T>(s: seq<T>, key: T -> real) {
    forall i, j :: 0 <= i < j < |s| ==> key(s[i]) <= key(s[j])
  }

  /** Puts `x` before the first element that is not smaller. */
  function InsertBy<T>(x: T, s: seq<T>, key: T -> real): seq<T> {
    if s == [] || key(x) <= key(s[0]) then [x] + s
    else [s[0]] + InsertBy(x, s[1..], key)
  }

  function SortBy<T>(s: seq<T>, key: T -> real): seq<T> {
    if s == [] then [] else InsertBy(s[0], SortBy(s[1..], key), key)
  }

  lemma {:induction false} InsertByPermutes<T>(x: T, s: seq<T>, key: T -> real)
    ensures multiset(InsertBy(x, s, key)) == multiset{x} + multiset(s)
    ensures forall y :: y in InsertBy(x, s, key) <==> y == x || y in s
  {
    if s != [] && key(x) > key(s[0]) {
      InsertByPermutes(x, s[1..], key);
      assert s == [s[0]] + s[1..];
    }
  }

  lemma PrependSorted<T>(x: T, s: seq<T>, key: T -> real)
    requires SortedBy(s, key) && forall y :: y in s ==> key(x) <= key(y)
    ensures SortedBy([x] + s, key)
  {
  }

  lemma {:induction false} InsertBySorted<T>(x: T, s: seq<T>, key: T -> real)
    requires SortedBy(s, key)
    ensures SortedBy(InsertBy(x, s, key), key)
  {
    if s == [] || key(x) <= key(s[0]) {
      PrependSorted(x, s, key);
    } else {
      InsertBySorted(x, s[1..], key);
      InsertByPermutes(x, s[1..], key);
      forall y | y in InsertBy(x, s[1..], key) ensures key(s[0]) <= key(y) {
        if y != x {
          assert y in multiset(InsertBy(x, s[1..], key));
          assert y in multiset(s[1..]);
          var i :| 0 <= i < |s[1..]| && s[1..][i] == y;
          assert s[i + 1] == y;
        }
      }
      PrependSorted(s[0], InsertBy(x, s[1..], key), key);
    }
  }

  /** Sorting permutes and sorts. */
  lemma {:induction false} SortBySorts<T>(s: seq<T>, key: T -> real)
    ensures SortedBy(SortBy(s, key), key)
    ensures multiset(SortBy(s, key)) == multiset(s)
    ensures |SortBy(s, key)| == |s|
  {
    if s != [] {
      SortBySorts(s[1..], key);
      InsertBySorted(s[0], SortBy(s[1..], key), key);
      InsertByPermutes(s[0], SortBy(s[1..], key), key);
      assert s == [s[0]] + s[1..];
    }
    assert |multiset(SortBy(s, key))| == |multiset(s)|;
  }

  /** The elements with one key, in their order. */
  function Tied<T>(s: seq<T>, key: T -> real, v: real): seq<T> {
    if s == [] then [] else (if key(s[0]) == v then [s[0]] else []) + Tied(s[1..], key, v)
  }

  lemma TiedCons<T>(x: T, s: seq<T>, key: T -> real, v: real)
    ensures Tied([x] + s, key, v) == (if key(x) == v then [x] else []) + Tied(s, key, v)
  {
    assert ([x] + s)[1..] == s;
  }

  lemma {:induction false} InsertByTied<T>(x: T, s: seq<T>, key: T -> real, v: real)
    requires SortedBy(s, key)
    ensures Tied(InsertBy(x, s, key), key, v) == (if key(x) == v then [x] else []) + Tied(s, key, v)
  {
    if s == [] || key(x) <= key(s[0]) {
      TiedCons(x, s, key, v);
    } else {
      InsertByTied(x, s[1..], key, v);
      TiedCons(s[0], InsertBy(x, s[1..], key), key, v);
      if key(x) == v {
        assert Tied(s, key, v) == Tied(s[1..], key, v);
      }
    }
  }

  /** Sorting is stable: elements with the same key keep their order. */
  lemma {:induction false} SortByStable<T>(s: seq<T>, key: T -> real, v: real)
    ensures Tied(SortBy(s, key), key, v) == Tied(s, key, v)
  {
    if s != [] {
      SortByStable(s[1..], key, v);
      SortBySorts(s[1..], key);
      InsertByTied(s[0], SortBy(s[1..], key), key, v);
    }
  }

  predicate Distinct<T(==)>(s: seq<T>) {
    forall i, j :: 0 <= i < j < |s| ==> s[i] != s[j]
  }

  lemma {:induction false} DistinctCount<T>(s: seq<T>)
    ensures Distinct(s) <==> forall x :: multiset(s)[x] <= 1
  {
    if s != [] {
      var rest := s[1..];
      assert s == [s[0]] + rest;
      DistinctCount(rest);
      if Distinct(s) {
        assert s[0] !in rest;
        forall x ensures multiset(s)[x] <= 1 {
          assert multiset(s)[x] == multiset(rest)[x] + if x == s[0] then 1 else 0;
        }
      }
      if forall x :: multiset(s)[x] <= 1 {
        forall x ensures multiset(rest)[x] <= 1 {
          assert multiset(s)[x] == multiset(rest)[x] + if x == s[0] then 1 else 0;
        }
        assert multiset(s)[s[0]] == multiset(rest)[s[0]] + 1;
        assert s[0] !in multiset(rest);
      }
    }
  }

  /** A permutation of distinct elements is distinct and has the same members. */
  lemma PermutationDistinct<T>(s: seq<T>, t: seq<T>)
    requires multiset(s) == multiset(t)
    ensures Distinct(s) <==> Distinct(t)
    ensures forall x :: x in s <==> x in t
    ensures |s| == |t|
  {
    DistinctCount(s);
    DistinctCount(t);
    forall x ensures x in s <==> x in t {
      assert x in s <==> x in multiset(s);
    }
    assert |multiset(s)| == |s| && |multiset(t)| == |t|;
  }

  /** Distinct elements can be counted as a set. */
  lemma {:induction false} DistinctSize<T>(s: seq<T>, members: set<T>)
    requires Distinct(s) && forall x :: x in s <==> x in members
    ensures |s| == |members|
  {
    if s == [] {
      assert members == {};
    } else {
      var rest := s[1..];
      assert s == [s[0]] + rest;
      assert s[0] in members;
      forall x ensures x in rest <==> x in members - {s[0]} {
      }
      DistinctSize(rest, members - {s[0]});
    }
  }

  lemma JoinDistinct<T>(a: seq<T>, b: seq<T>)
    requires Distinct(a) && Distinct(b) && forall x :: x in a ==> x !in b
    ensures Distinct(a + b)
  {
    var s := a + b;
    forall i, j | 0 <= i < j < |s| ensures s[i] != s[j] {
      if i < |a| <= j {
        assert a[i] in a && b[j - |a|] in b;
      }
    }
  }

  /** What `retain` leaves: the list without `x`. */
  function Without(s: seq<nat>, x: nat): (r: seq<nat>)
    ensures forall y :: y in r <==> y in s && y != x
  {
    if s == [] then [] else (if s[0] == x then [] else [s[0]]) + Without(s[1..], x)
  }

  /** The first `k` elements, or all of them. */
  function Take<T>(s: seq<T>, k: nat): seq<T> {
    if k < |s| then s[..k] else s
  }

  /** Distinct elements of a list are no more than it has places. */
  lemma DistinctFits<T>(few: seq<T>, many: seq<T>)
    requires Distinct(few) && forall x :: x in few ==> x in many
    ensures |few| <= |many|
  {
    var fews, manys := set x | x in few, set x | x in many;
    DistinctSize(few, fews);
    SubsetSize(fews, manys);
    MembersSize(many, manys);
  }

  lemma {:induction false} MembersSize<T>(s: seq<T>, members: set<T>)
    requires members == set x | x in s
    ensures |members| <= |s|
  {
    if s != [] {
      var rest := set x | x in s[1..];
      MembersSize(s[1..], rest);
      assert members == rest + {s[0]};
    }
  }

  // ----- Smallest -----

  /** The first index below `n` with the smallest value. */
  predicate FirstSmallest(n: nat, f: nat -> real, best: nat) {
    best < n && forall j: nat :: j < n ==> f(best) <= f(j) && (j < best ==> f(best) < f(j))
  }

  /** The scan for the first smallest value that the source writes out wherever it needs one. */
  method ArgMin(n: nat, f: nat -> real) returns (best: nat)
    requires n > 0
    ensures FirstSmallest(n, f, best)
  {
    best := 0;
    var bd := f(0);
    for i := 1 to n
      invariant bd == f(best) && FirstSmallest(i, f, best)
    {
      var d := f(i);
      if d < bd {
        bd, best := d, i;
      }
    }
  }

  // ----- Sizes of sets -----

  lemma {:induction false} SubsetSize<T>(a: set<T>, b: set<T>)
    requires a <= b
    ensures |a| <= |b|
    ensures |a| == |b| ==> a == b
  {
    if a != {} {
      var x :| x in a;
      SubsetSize(a - {x}, b - {x});
    }
  }
}
