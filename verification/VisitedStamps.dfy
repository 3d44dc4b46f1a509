/**
 * `db/src/index/mod.rs`: the generation-stamped visited set that searches reuse, with its 32-bit
 * generation counter and the wrap-around that refills the stamps.
 */
module VisitedSets {

  const U32_MAX := 0xFFFF_FFFF

  datatype Stamps = Stamps(stamps: seq<nat>, gen: nat)

  function Resized(stamps: seq<nat>, count: nat): (r: seq<nat>)
    ensures |r| == if |stamps| < count then count else |stamps|
    ensures forall i :: 0 <= i < |stamps| ==> r[i] == stamps[i]
    ensures forall i :: |stamps| <= i < |r| ==> r[i] == 0
  {
    if |stamps| < count then stamps + seq(count - |stamps|, _ => 0) else stamps
  }

  /** `begin`: the next generation; when the counter wraps, every stamp is set to its maximum. */
  function Begun(s: Stamps, count: nat): Stamps {
    var gen := (s.gen + 1) % (U32_MAX + 1);
    var stamps := Resized(s.stamps, count);
    if gen == 0 then Stamps(seq(|stamps|, _ => U32_MAX), 1) else Stamps(stamps, gen)
  }

  function Accepts(s: Stamps, i: nat): bool
    requires i < |s.stamps|
  {
    s.stamps[i] != s.gen
  }

  function Visited(s: Stamps, i: nat): Stamps
    requires i < |s.stamps|
  {
    s.(stamps := s.stamps[i := s.gen])
  }

  // ----- Runs -----

  datatype Event = Begin(count: nat) | TryVisit(i: nat)

  /** The stamps together with what a fresh set per search would hold, and the number of searches begun. */
  datatype Tracked = Tracked(s: Stamps, begins: nat, seen: set<nat>)

  const START := Tracked(Stamps([], 0), 0, {})

  predicate Possible(t: Tracked, e: Event) {
    e.TryVisit? ==> e.i < |t.s.stamps|
  }

  function Next(t: Tracked, e: Event): Tracked
    requires Possible(t, e)
  {
    match e
    case Begin(count) => Tracked(Begun(t.s, count), t.begins + 1, {})
    case TryVisit(i) => if Accepts(t.s, i) then t.(s := Visited(t.s, i), seen := t.seen + {i}) else t
  }

  /** Every stamp is from this epoch, or is the refill value left by a wrap. */
  ghost predicate StampsOk(t: Tracked) {
    && t.s.gen == GenerationOf(t.begins)
    && (forall i :: 0 <= i < |t.s.stamps| ==>
          t.s.stamps[i] <= t.s.gen || (t.begins > U32_MAX && t.s.stamps[i] == U32_MAX))
    && (forall i :: i in t.seen ==> 0 <= i < |t.s.stamps| && t.s.stamps[i] == t.s.gen)
    && (!Collides(t.begins) ==>
          forall i :: 0 <= i < |t.s.stamps| ==> (t.s.stamps[i] == t.s.gen ==> i in t.seen || t.s.gen == 0))
  }

  /** The generation of the n-th search: 1 to the maximum, over and over. */
  function GenerationOf(begins: nat): nat {
    if begins == 0 then 0 else (begins - 1) % U32_MAX + 1
  }

  /** The searches whose generation equals the refill value: every multiple of the maximum but the first. */
  predicate Collides(begins: nat) {
    begins > U32_MAX && begins % U32_MAX == 0
  }

  /** None of the next `n` searches collides. */
  ghost predicate Room(begins: nat, n: nat) {
    forall i: nat :: begins < i <= begins + n ==> !Collides(i)
  }

  lemma GenerationNext(begins: nat)
    ensures GenerationOf(begins + 1) ==
            if GenerationOf(begins) == U32_MAX then 1 else GenerationOf(begins) + 1
    ensures GenerationOf(begins) <= U32_MAX
    ensures begins > 0 ==> (GenerationOf(begins) == U32_MAX <==> begins % U32_MAX == 0)
    ensures GenerationOf(begins) == U32_MAX ==> begins >= U32_MAX
  {
    if begins > 0 {
      var q, r := (begins - 1) / U32_MAX, (begins - 1) % U32_MAX;
      assert begins == q * U32_MAX + (r + 1);
      if r + 1 == U32_MAX {
        assert begins == (q + 1) * U32_MAX;
        ModuloOf(q + 1, 0, begins);
      } else {
        ModuloOf(q, r + 1, begins);
      }
    }
  }

  lemma ModuloOf(q: nat, r: nat, n: nat)
    requires r < U32_MAX && n == q * U32_MAX + r
    ensures n % U32_MAX == r && n / U32_MAX == q
  {
  }

  lemma BeginKeepsOk(t: Tracked, count: nat)
    requires StampsOk(t)
    ensures StampsOk(Next(t, Begin(count)))
  {
    GenerationNext(t.begins);
    GenerationNext(t.begins + 1);
    var n := Next(t, Begin(count));
    if t.s.gen == U32_MAX {
      assert t.begins >= U32_MAX;
    }
  }

  lemma VisitKeepsOk(t: Tracked, i: nat)
    requires StampsOk(t) && i < |t.s.stamps|
    ensures StampsOk(Next(t, TryVisit(i)))
  {
  }

  ghost predicate IsRun(events: seq<Event>, states: seq<Tracked>) {
    && |states| == |events| + 1 && states[0] == START
    && forall k :: 0 <= k < |events| ==> Possible(states[k], events[k]) && states[k + 1] == Next(states[k], events[k])
  }

  lemma {:induction false} RunOk(events: seq<Event>, states: seq<Tracked>, k: nat)
    requires IsRun(events, states) && k < |states|
    ensures StampsOk(states[k])
  {
    if k > 0 {
      RunOk(events, states, k - 1);
      var t, e := states[k - 1], events[k - 1];
      assert states[k - 1 + 1] == Next(t, e);
      match e {
        case Begin(count) => BeginKeepsOk(t, count);
        case TryVisit(i) => VisitKeepsOk(t, i);
      }
    }
  }

  /**
   * In every run, a search that has begun accepts a node exactly if a fresh set would, unless the number
   * of searches begun is a multiple of 2^32 - 1 other than the first.
   */
  lemma StampsAgree(events: seq<Event>, states: seq<Tracked>, k: nat, i: nat)
    requires IsRun(events, states) && k < |states| && states[k].begins > 0
    requires i < |states[k].s.stamps| && !Collides(states[k].begins)
    ensures Accepts(states[k].s, i) <==> i !in states[k].seen
  {
    RunOk(events, states, k);
  }

  /** In particular through the first wrap, up to and including search 2^33 - 3. */
  lemma AgreesUpToBound(begins: nat)
    requires begins <= 0x1_FFFF_FFFD
    ensures !Collides(begins)
  {
    if begins > U32_MAX {
      ModuloOf(1, begins - U32_MAX, begins);
    }
  }

  /** A run that only begins searches over one node. */
  function Idle(n: nat): Tracked {
    if n == 0 then START else Next(Idle(n - 1), Begin(1))
  }

  /** After the first wrap such a run's one stamp is the refill value for ever. */
  lemma IdleStep(n: nat, t: Tracked)
    requires n > 0 && t == Tracked(Stamps([if n > U32_MAX then U32_MAX else 0], GenerationOf(n)), n, {})
    ensures Next(t, Begin(1)) ==
            Tracked(Stamps([if n + 1 > U32_MAX then U32_MAX else 0], GenerationOf(n + 1)), n + 1, {})
  {
    GenerationNext(n);
    GenerationNext(n + 1);
    assert Resized(t.s.stamps, 1) == t.s.stamps;
    assert seq(1, _ => U32_MAX) == [U32_MAX];
    if n == U32_MAX {
      ModuloOf(1, 0, n);
    }
  }

  lemma {:induction false} IdleState(n: nat)
    requires n > 0
    ensures Idle(n) == Tracked(Stamps([if n > U32_MAX then U32_MAX else 0], GenerationOf(n)), n, {})
  {
    if n == 1 {
      assert Idle(0) == START;
      assert Resized([], 1) == [0];
    } else {
      IdleState(n - 1);
      IdleStep(n - 1, Idle(n - 1));
    }
  }

  /** Search `n` of such a run refuses its one node, which it has never visited, if and only if `n` collides. */
  lemma IdleRefuses(n: nat)
    requires n > 0
    ensures var t := Idle(n);
            && t.begins == n && 0 !in t.seen && |t.s.stamps| == 1
            && (!Accepts(t.s, 0) <==> Collides(n))
  {
    IdleState(n);
    GenerationNext(n);
  }

  lemma IdleRun(n: nat) returns (events: seq<Event>, states: seq<Tracked>)
    ensures IsRun(events, states) && |events| == n && states[n] == Idle(n)
  {
    events := seq(n, _ => Begin(1));
    states := seq(n + 1, i requires 0 <= i => Idle(i));
  }

  /** In state `k` exactly the nodes not visited in this search are accepted. */
  ghost predicate AgreesAt(states: seq<Tracked>, k: nat)
    requires k < |states|
  {
    forall i :: 0 <= i < |states[k].s.stamps| ==> (Accepts(states[k].s, i) <==> i !in states[k].seen)
  }

  /** Search `n` accepts exactly the nodes it has not visited, in whatever run. */
  ghost predicate Reliable(n: nat) {
    forall events: seq<Event>, states: seq<Tracked>, k: nat ::
      IsRun(events, states) && k < |states| && states[k].begins == n ==> AgreesAt(states, k)
  }

  /** A search is reliable in every run if and only if its number is no multiple of 2^32 - 1, or the first. */
  lemma ReliableExactly(n: nat)
    requires n > 0
    ensures Reliable(n) <==> !Collides(n)
  {
    if Collides(n) {
      var events, states := IdleRun(n);
      IdleRefuses(n);
      assert !(Accepts(states[n].s, 0) <==> 0 !in states[n].seen);
      assert !AgreesAt(states, n);
    } else {
      forall events: seq<Event>, states: seq<Tracked>, k: nat
        | IsRun(events, states) && k < |states| && states[k].begins == n
        ensures AgreesAt(states, k)
      {
        forall i | 0 <= i < |states[k].s.stamps| ensures Accepts(states[k].s, i) <==> i !in states[k].seen {
          StampsAgree(events, states, k, i);
        }
      }
    }
  }

  /** The bound is sharp: search 2^33 - 2 collides. */
  lemma FirstCollision()
    ensures Collides(0x1_FFFF_FFFE) && !Reliable(0x1_FFFF_FFFE)
  {
    ReliableExactly(0x1_FFFF_FFFE);
  }

  // ----- The object -----

  class VisitedStamps {
    var stamps: seq<nat>
    var gen: nat
    ghost var begins: nat
    ghost var seen: set<nat>

    ghost function State(): Tracked
      reads this
    {
      Tracked(Stamps(stamps, gen), begins, seen)
    }

    ghost predicate Valid()
      reads this
    {
      StampsOk(State())
    }

    /** A search is under way over `count` nodes and the stamps can be relied on. */
    ghost predicate Searching(count: nat)
      reads this
    {
      Valid() && begins > 0 && !Collides(begins) && |stamps| >= count
    }

    constructor ()
      ensures Valid() && State() == START
    {
      stamps, gen, begins, seen := [], 0, 0, {};
    }

    method Begin(count: nat)
      requires Valid()
      modifies this
      ensures Valid() && State() == Next(old(State()), Event.Begin(count))
      ensures |stamps| >= count
    {
      BeginKeepsOk(State(), count);
      gen := (gen + 1) % (U32_MAX + 1);
      if |stamps| < count {
        stamps := stamps + seq(count - |stamps|, _ => 0);
      }
      if gen == 0 {
        stamps := seq(|stamps|, _ => U32_MAX);
        gen := 1;
      }
      begins, seen := begins + 1, {};
    }

    method TryVisit(i: nat) returns (accepted: bool)
      requires Valid() && i < |stamps|
      modifies this`stamps, this`seen
      ensures Valid() && State() == Next(old(State()), Event.TryVisit(i))
      ensures accepted == Accepts(old(State()).s, i)
      ensures begins > 0 && !Collides(begins) ==> (accepted <==> i !in old(seen)) && seen == old(seen) + {i}
      ensures |stamps| == |old(stamps)|
    {
      VisitKeepsOk(State(), i);
      if stamps[i] == gen {
        accepted := false;
      } else {
        stamps := stamps[i := gen];
        seen := seen + {i};
        accepted := true;
      }
    }
  }
}
