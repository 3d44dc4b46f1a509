/** `db/src/sketch.rs`: how signs are packed into the two-bit lanes of words, bit by bit. */
module Packing {
  import opened Ternary

  const TOP: bv64 := 0xC000_0000_0000_0000

  /** A two-bit code moved up by `k` lanes. */
  function Raised(code: bv64, k: nat): bv64
    decreases k
  {
    if k == 0 then code else Raised(code, k - 1) << 2
  }

  // ----- Codes do not fall off the top -----

  /** The `n + 1` highest lanes. */
  function Room(n: nat): bv64
    decreases n
  {
    if n == 0 then TOP else Next(Room(n - 1))
  }

  function Next(r: bv64): bv64 {
    (r >> 2) | TOP
  }

  lemma FiveNext(r: bv64)
    ensures Next(Next(Next(Next(Next(r))))) == (r >> 10) | 0xFFC0_0000_0000_0000
  {
  }

  lemma RoomFive(n: nat, r: bv64)
    requires r == Room(n)
    ensures Room(n + 5) == (r >> 10) | 0xFFC0_0000_0000_0000
  {
    assert Room(n + 1) == Next(r);
    assert Room(n + 2) == Next(Room(n + 1));
    assert Room(n + 3) == Next(Room(n + 2));
    assert Room(n + 4) == Next(Room(n + 3));
    FiveNext(r);
  }

  lemma RoomThirty()
    ensures Room(30) == 0xFFFF_FFFF_FFFF_FFFC
  {
    RoomFive(0, TOP);
    RoomFive(5, 0xFFF0_0000_0000_0000);
    RoomFive(10, 0xFFFF_FC00_0000_0000);
    RoomFive(15, 0xFFFF_FFFF_0000_0000);
    RoomFive(20, 0xFFFF_FFFF_FFC0_0000);
    RoomFive(25, 0xFFFF_FFFF_FFFF_F000);
  }

  lemma RaiseStep(x: bv64, r: bv64)
    requires x & Next(r) == 0
    ensures (x << 2) & r == 0 && Half(Half(x << 2)) == x
  {
  }

  lemma {:induction false} RaisedRoom(code: bv64, k: nat)
    requires k <= 30 && (code == 1 || code == 2)
    ensures Raised(code, k) & Room(30 - k) == 0
    decreases k
  {
    if k == 0 {
      RoomThirty();
    } else {
      RaisedRoom(code, k - 1);
      RaiseStep(Raised(code, k - 1), Room(30 - k));
    }
  }

  lemma RaisedHalves(code: bv64, k: nat)
    requires 0 < k <= 31 && (code == 1 || code == 2)
    ensures Half(Half(Raised(code, k))) == Raised(code, k - 1)
  {
    RaisedRoom(code, k - 1);
    RaiseStep(Raised(code, k - 1), if k == 31 then 0 else Room(30 - k));
  }

  // ----- Reading a code back -----

  lemma {:induction false} ZeroBit(i: nat)
    ensures !BitAt(0, i)
    decreases i
  {
    if i > 0 {
      assert Half(0) == 0;
      ZeroBit(i - 1);
    }
  }

  lemma LowClear(x: bv64)
    ensures !Odd(x << 2) && !Odd(Half(x << 2))
  {
  }

  lemma CodeBit(code: bv64, i: nat)
    requires code == 1 || code == 2
    ensures BitAt(code, i) <==> i == code as int - 1
  {
    if i == 1 {
      assert BitAt(code, 1) == BitAt(Half(code), 0);
    } else if i > 1 {
      assert Half(Half(code)) == 0;
      BitTwo(code, i);
      ZeroBit(i - 2);
    }
  }

  /** A raised code sets one bit of one lane. */
  lemma {:induction false} RaisedBit(code: bv64, k: nat, i: nat)
    requires k <= 31 && (code == 1 || code == 2)
    ensures BitAt(Raised(code, k), i) <==> i == 2 * k + if code == 1 then 0 else 1
    decreases k
  {
    if k == 0 {
      CodeBit(code, i);
    } else {
      var r := Raised(code, k);
      LowClear(Raised(code, k - 1));
      if i == 1 {
        assert BitAt(r, 1) == BitAt(Half(r), 0);
      } else if i > 1 {
        BitTwo(r, i);
        RaisedHalves(code, k);
        RaisedBit(code, k - 1, i - 2);
      }
    }
  }

  lemma OrHalf(x: bv64, y: bv64)
    ensures Half(x | y) == Half(x) | Half(y)
    ensures Odd(x | y) <==> Odd(x) || Odd(y)
  {
  }

  lemma {:induction false} OrBit(x: bv64, y: bv64, z: bv64, i: nat)
    requires z == x | y
    ensures BitAt(z, i) <==> BitAt(x, i) || BitAt(y, i)
    decreases i
  {
    OrHalf(x, y);
    if i > 0 {
      OrBit(Half(x), Half(y), Half(z), i - 1);
    }
  }

  /** Neither bit of lane `k` is set. */
  predicate Free(w: bv64, k: nat) {
    !BitAt(w, 2 * k) && !BitAt(w, 2 * k + 1)
  }

  function Sign(code: bv64): int {
    if code == 1 then 1 else -1
  }

  /** The bit that a code sets when it is raised to lane `k`. */
  function Place(code: bv64, k: nat): nat {
    2 * k + if code == 1 then 0 else 1
  }

  lemma PackBit(w: bv64, code: bv64, z: bv64, k: nat, i: nat)
    requires k <= 31 && (code == 1 || code == 2) && z == w | Raised(code, k)
    ensures BitAt(z, i) <==> BitAt(w, i) || i == Place(code, k)
  {
    OrBit(w, Raised(code, k), z, i);
    RaisedBit(code, k, i);
  }

  lemma LaneFromBits(w: bv64, z: bv64, plus: bool, k: nat, j: nat)
    requires Free(w, k)
    requires forall i :: 2 * j <= i <= 2 * j + 1 ==>
               (BitAt(z, i) <==> BitAt(w, i) || i == 2 * k + if plus then 0 else 1)
    ensures Trit(z, j) == if j == k then (if plus then 1 else -1) else Trit(w, j)
    ensures j != k ==> (Free(z, j) <==> Free(w, j))
  {
    assert BitAt(z, 2 * j) <==> BitAt(w, 2 * j) || 2 * j == 2 * k + if plus then 0 else 1;
    assert BitAt(z, 2 * j + 1) <==> BitAt(w, 2 * j + 1) || 2 * j + 1 == 2 * k + if plus then 0 else 1;
  }

  /** Packing a code into a free lane writes that lane and no other. */
  lemma PackLane(w: bv64, code: bv64, z: bv64, k: nat, j: nat)
    requires k <= 31 && (code == 1 || code == 2) && z == w | Raised(code, k) && Free(w, k)
    ensures Trit(z, j) == if j == k then Sign(code) else Trit(w, j)
    ensures j != k ==> (Free(z, j) <==> Free(w, j))
  {
    PackBit(w, code, z, k, 2 * j);
    PackBit(w, code, z, k, 2 * j + 1);
    LaneFromBits(w, z, code == 1, k, j);
  }

  /** The nonzero ones among the first `n` lanes. */
  function Nonzeros(w: bv64, n: nat): nat
    decreases n
  {
    if n == 0 then 0 else Nonzeros(w, n - 1) + if Trit(w, n - 1) != 0 then 1 else 0
  }

  lemma {:induction false} PackCounts(w: bv64, code: bv64, z: bv64, k: nat, n: nat)
    requires k <= 31 && (code == 1 || code == 2) && z == w | Raised(code, k) && Free(w, k)
    ensures Nonzeros(z, n) == Nonzeros(w, n) + if k < n then 1 else 0
    decreases n
  {
    if n > 0 {
      PackCounts(w, code, z, k, n - 1);
      PackLane(w, code, z, k, n - 1);
    }
  }

  lemma {:induction false} EmptyWord(n: nat)
    ensures Nonzeros(0, n) == 0
    decreases n
  {
    if n > 0 {
      EmptyWord(n - 1);
      ZeroBit(2 * n - 2);
      ZeroBit(2 * n - 1);
    }
  }
}
