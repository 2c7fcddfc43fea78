/** The address pool: leases are blocks taken from two tries, and every address of
    the network is always in exactly one trie or lease. */
module Pool {
  import opened Blocks
  import opened Options
  import opened Trie
  import opened TrieOperations

  /** A pool for the network (base, k) and its outstanding leases. */
  datatype State = State(base: nat, k: nat, main: Trie, used: Trie, leases: set<(nat, nat)>)

  predicate Leased(leases: set<(nat, nat)>, x: nat) {
    exists l :: l in leases && InBlock(x, l.0, l.1)
  }

  /** The two tries, as far as a lease is concerned. */
  ghost predicate Available(main: Trie, used: Trie, base: nat, k: nat) {
    IsBlock(base, k) && forall x :: InBlock(x, base, k) ==> Free(main, x) || Free(used, x)
  }

  ghost predicate Apart(main: Trie, used: Trie) {
    forall x :: !(Free(main, x) && Free(used, x))
  }

  ghost predicate LeasesApart(leases: set<(nat, nat)>) {
    forall l, m, x: nat :: l in leases && m in leases && InBlock(x, l.0, l.1) && InBlock(x, m.0, m.1) ==> l == m
  }

  /** Free addresses, used addresses and leases are pairwise disjoint and together
      are exactly the network. */
  ghost predicate Conserved(p: State) {
    && IsBlock(p.base, p.k) && Canonical(p.main) && Canonical(p.used)
    && (forall l :: l in p.leases ==> IsBlock(l.0, l.1))
    && Apart(p.main, p.used)
    && (forall x :: Free(p.main, x) || Free(p.used, x) ==> !Leased(p.leases, x))
    && LeasesApart(p.leases)
    && (forall x :: InBlock(x, p.base, p.k) <==> Free(p.main, x) || Free(p.used, x) || Leased(p.leases, x))
  }

  // ---------------------------------------------------------------------------
  // Operations
  // ---------------------------------------------------------------------------

  /** A pool starts with the whole network free; the address given need not be the
      first of its network. */
  function New(address: nat, k: nat): State {
    State(Floor(address, k), k, Leaf(Floor(address, k), k), Empty, {})
  }

  /** Takes a block from `main`, or from `used`, which then becomes `main`, or from
      both joined. */
  function LeaseFrom(main: Trie, used: Trie, k: nat): (Trie, Trie, Option<nat>)
    requires Canonical(main) && Canonical(used) && DrainInto(used, main).Done?
  {
    AcquireCorrect(main, k);
    AcquireCorrect(used, k);
    var (main1, first) := Acquire(main, k);
    if first.Some? then (main1, used, first)
    else
      var (used1, second) := Acquire(used, k);
      if second.Some? then (used1, main1, second)
      else
        var (main2, third) := Acquire(DrainInto(used1, main1).trie, k);
        (main2, Empty, third)
  }

  datatype Event = Lease(k: nat) | Drop(base: nat, k: nat)

  /** One operation. There is none that panics; a lease is dropped by its owner. */
  ghost predicate Next(p: State, e: Event, q: State) {
    match e
    case Lease(k) =>
      && Canonical(p.main) && Canonical(p.used) && DrainInto(p.used, p.main).Done?
      && var (main, used, got) := LeaseFrom(p.main, p.used, k);
      q == p.(main := main, used := used, leases := if got.Some? then p.leases + {(got.value, k)} else p.leases)
    case Drop(base, k) =>
      && (base, k) in p.leases && Release(p.used, base, k).Done?
      && q == p.(used := Release(p.used, base, k).trie, leases := p.leases - {(base, k)})
  }

  // ---------------------------------------------------------------------------
  // Leases
  // ---------------------------------------------------------------------------

  lemma OneTrieOffers(main: Trie, used: Trie, k: nat, b: nat)
    ensures FreeBlock(main, b, k) || FreeBlock(used, b, k) ==> Available(main, used, b, k)
  {
  }

  /** What a lease does to the tries. */
  ghost predicate LeaseOk(main: Trie, used: Trie, k: nat, main': Trie, used': Trie, got: Option<nat>) {
    && Canonical(main') && Canonical(used') && Apart(main', used')
    && (got.None? <==> forall b :: !Available(main, used, b, k))
    && (got.Some? ==> Available(main, used, got.value, k))
    && (forall x :: Free(main', x) || Free(used', x) <==>
          (Free(main, x) || Free(used, x)) && !(got.Some? && InBlock(x, got.value, k)))
  }

  lemma LeaseFromMain(main: Trie, used: Trie, k: nat)
    requires Canonical(main) && Canonical(used) && Apart(main, used) && Acquire(main, k).1.Some?
    ensures var (main', got) := Acquire(main, k); LeaseOk(main, used, k, main', used, got)
  {
    AcquireCorrect(main, k);
    var (main', got) := Acquire(main, k);
    OneTrieOffers(main, used, k, got.value);
    assert forall x :: InBlock(x, got.value, k) ==> Free(main, x) && !Free(used, x);
  }

  lemma LeaseSwapped(main: Trie, used: Trie, k: nat, main': Trie, used': Trie, got: Option<nat>)
    requires LeaseOk(used, main, k, used', main', got)
    ensures LeaseOk(main, used, k, used', main', got)
  {
    assert forall b :: Available(main, used, b, k) <==> Available(used, main, b, k);
  }

  lemma JoinedOffers(main: Trie, used: Trie, all: Trie, b: nat, k: nat)
    requires forall x :: Free(all, x) <==> Free(used, x) || Free(main, x)
    ensures Available(main, used, b, k) <==> FreeBlock(all, b, k)
  {
  }

  lemma NothingFree(x: nat)
    ensures !Free(Empty, x)
  {
  }

  lemma JoinedLease(main: Trie, used: Trie, k: nat, all: Trie, all': Trie, got: Option<nat>)
    requires Canonical(all) && (forall x :: Free(all, x) <==> Free(used, x) || Free(main, x))
    requires AcquireOk(all, k, all', got)
    ensures LeaseOk(main, used, k, all', Empty, got)
  {
    forall b ensures Available(main, used, b, k) <==> FreeBlock(all, b, k) {
      JoinedOffers(main, used, all, b, k);
    }
    forall x ensures Free(all', x) || Free(Empty, x) <==>
                     (Free(main, x) || Free(used, x)) && !(got.Some? && InBlock(x, got.value, k)) {
      NothingFree(x);
    }
  }

  lemma LeaseFromJoined(main: Trie, used: Trie, k: nat)
    requires Canonical(main) && Canonical(used) && Apart(main, used)
    ensures DrainInto(used, main).Done?
    ensures var (main', got) := Acquire(DrainInto(used, main).trie, k); LeaseOk(main, used, k, main', Empty, got)
  {
    DrainCorrect(used, main);
    var all := DrainInto(used, main).trie;
    AcquireCorrect(all, k);
    JoinedLease(main, used, k, all, Acquire(all, k).0, Acquire(all, k).1);
  }

  /** A lease takes one aligned block of the requested size out of the free space and
      is refused exactly if the two tries together have no such block. */
  lemma LeaseCorrect(main: Trie, used: Trie, k: nat)
    requires Canonical(main) && Canonical(used) && Apart(main, used)
    ensures DrainInto(used, main).Done?
    ensures var (main', used', got) := LeaseFrom(main, used, k); LeaseOk(main, used, k, main', used', got)
  {
    LeaseFromJoined(main, used, k);
    AcquireCorrect(main, k);
    AcquireCorrect(used, k);
    if Acquire(main, k).1.Some? {
      LeaseFromMain(main, used, k);
    } else if Acquire(used, k).1.Some? {
      LeaseFromMain(used, main, k);
      LeaseSwapped(main, used, k, main, Acquire(used, k).0, Acquire(used, k).1);
    }
  }

  /** Where a lease comes from: the lowest block of `main`, or else the lowest of `used`,
      which changes places with `main`, or else the lowest of both joined. */
  lemma LeaseOrder(main: Trie, used: Trie, k: nat)
    requires Canonical(main) && Canonical(used) && Apart(main, used)
    ensures DrainInto(used, main).Done?
    ensures var (main', used', got) := LeaseFrom(main, used, k);
      if exists b :: FreeBlock(main, b, k) then
        got.Some? && FreeBlock(main, got.value, k) && (forall b :: FreeBlock(main, b, k) ==> got.value <= b) && used' == used
      else if exists b :: FreeBlock(used, b, k) then
        got.Some? && FreeBlock(used, got.value, k) && (forall b :: FreeBlock(used, b, k) ==> got.value <= b) && used' == main
      else
        used' == Empty && (got.Some? ==> forall b :: Available(main, used, b, k) ==> got.value <= b)
  {
    DrainCorrect(used, main);
    AcquireCorrect(main, k);
    AcquireCorrect(used, k);
    if Acquire(main, k).1.None? && Acquire(used, k).1.None? {
      var all := DrainInto(used, main).trie;
      AcquireCorrect(all, k);
      forall b ensures Available(main, used, b, k) <==> FreeBlock(all, b, k) { JoinedOffers(main, used, all, b, k); }
    }
  }

  // ---------------------------------------------------------------------------
  // Conservation
  // ---------------------------------------------------------------------------

  lemma NewConserved(address: nat, k: nat)
    requires k <= BITS && address < Pow2(BITS)
    ensures Conserved(New(address, k)) && InBlock(address, New(address, k).base, k)
  {
    FloorIsBlock(address, k);
    AlignedZero(BITS);
    Nested(Floor(address, k), k, 0, BITS, address);
    assert forall x :: !Leased({}, x);
  }

  lemma LeasedMore(leases: set<(nat, nat)>, l: (nat, nat), x: nat)
    ensures Leased(leases + {l}, x) <==> Leased(leases, x) || InBlock(x, l.0, l.1)
  {
    assert l in leases + {l};
    if Leased(leases, x) {
      var m :| m in leases && InBlock(x, m.0, m.1);
      assert m in leases + {l};
    }
  }

  lemma LeaseConserves(p: State, k: nat, q: State)
    requires Conserved(p) && Next(p, Lease(k), q)
    ensures Conserved(q)
  {
    LeaseCorrect(p.main, p.used, k);
    var (main, used, got) := LeaseFrom(p.main, p.used, k);
    if got.Some? {
      var l := (got.value, k);
      forall x ensures Leased(q.leases, x) <==> Leased(p.leases, x) || InBlock(x, l.0, l.1) { LeasedMore(p.leases, l, x); }
      forall a, b, x: nat | a in q.leases && b in q.leases && InBlock(x, a.0, a.1) && InBlock(x, b.0, b.1)
        ensures a == b
      {
        assert (a != l && a in p.leases) || (b != l && b in p.leases) ==> Leased(p.leases, x);
      }
    }
  }

  lemma LeasedLess(leases: set<(nat, nat)>, l: (nat, nat), x: nat)
    requires l in leases && LeasesApart(leases)
    ensures Leased(leases - {l}, x) <==> Leased(leases, x) && !InBlock(x, l.0, l.1)
  {
    if Leased(leases, x) && !InBlock(x, l.0, l.1) {
      var m :| m in leases && InBlock(x, m.0, m.1);
      assert m in leases - {l};
    }
  }

  lemma DropConserves(p: State, base: nat, k: nat, q: State)
    requires Conserved(p) && Next(p, Drop(base, k), q)
    ensures Conserved(q)
  {
    var l := (base, k);
    assert IsBlock(l.0, l.1);
    forall x | InBlock(x, base, k) ensures Leased(p.leases, x) { assert InBlock(x, l.0, l.1); }
    ReleaseGrows(p.used, base, k);
    forall x ensures Leased(q.leases, x) <==> Leased(p.leases, x) && !InBlock(x, base, k) { LeasedLess(p.leases, l, x); }
  }

  /** A dropped block becomes free in `used` only, where it is not leased out again before
      `main` has no block to offer. */
  lemma DropReleases(p: State, base: nat, k: nat, q: State)
    requires Conserved(p) && Next(p, Drop(base, k), q)
    ensures q.main == p.main && q.leases == p.leases - {(base, k)}
    ensures forall x :: Free(q.used, x) <==> Free(p.used, x) || InBlock(x, base, k)
  {
    assert forall x :: InBlock(x, base, k) ==> Leased(p.leases, x);
    ReleaseGrows(p.used, base, k);
  }

  /** Neither operation can panic. */
  lemma NoPanic(p: State)
    requires Conserved(p)
    ensures DrainInto(p.used, p.main).Done?
    ensures forall base, k :: (base, k) in p.leases ==> Release(p.used, base, k).Done?
  {
    DrainCorrect(p.used, p.main);
    forall base, k | (base, k) in p.leases ensures Release(p.used, base, k).Done? {
      var l := (base, k);
      assert IsBlock(l.0, l.1);
      forall x | InBlock(x, base, k) ensures Leased(p.leases, x) { assert InBlock(x, l.0, l.1); }
      ReleaseGrows(p.used, base, k);
    }
  }

  ghost predicate IsRun(states: seq<State>, events: seq<Event>) {
    && |states| == |events| + 1
    && Conserved(states[0])
    && forall i :: 0 <= i < |events| ==> Next(states[i], events[i], states[i + 1])
  }

  /** Over every run of leases and drops the network stays partitioned. */
  lemma {:induction false} RunConserves(states: seq<State>, events: seq<Event>, n: nat)
    requires IsRun(states, events) && n < |states|
    ensures Conserved(states[n])
    decreases n
  {
    if n > 0 {
      RunConserves(states, events, n - 1);
      match events[n - 1]
      case Lease(k) => LeaseConserves(states[n - 1], k, states[n]);
      case Drop(base, k) => DropConserves(states[n - 1], base, k, states[n]);
    }
  }

  // ---------------------------------------------------------------------------
  // The pool as an object
  // ---------------------------------------------------------------------------

  class Pool {
    const base: nat
    const k: nat
    var main: Trie
    var used: Trie
    ghost var leases: set<(nat, nat)>

    ghost function Abstract(): State
      reads this
    {
      State(base, k, main, used, leases)
    }

    ghost predicate Valid()
      reads this
    {
      Conserved(Abstract())
    }

    constructor (address: nat, k: nat)
      requires k <= BITS && address < Pow2(BITS)
      ensures Valid() && Abstract() == New(address, k)
    {
      this.base, this.k := Floor(address, k), k;
      main := Leaf(Floor(address, k), k);
      used := Empty;
      leases := {};
      new;
      NewConserved(address, k);
    }

    method Lease(k: nat) returns (got: Option<nat>)
      requires Valid()
      modifies this
      ensures Valid() && Next(old(Abstract()), Event.Lease(k), Abstract())
      ensures got.None? <==> forall b :: !Available(old(main), old(used), b, k)
      ensures got.Some? ==> Available(old(main), old(used), got.value, k) && leases == old(leases) + {(got.value, k)}
    {
      NoPanic(Abstract());
      LeaseCorrect(main, used, k);
      var main1, first := Acquire(main, k).0, Acquire(main, k).1;
      main, got := main1, first;
      if got.None? {
        var used1, second := Acquire(used, k).0, Acquire(used, k).1;
        used, got := used1, second;
        if got.Some? {
          main, used := used, main;
        } else {
          AcquireCorrect(old(main), k);
          AcquireCorrect(old(used), k);
          main, used := DrainInto(used, main).trie, Empty;
          var main2, third := Acquire(main, k).0, Acquire(main, k).1;
          main, got := main2, third;
        }
      }
      if got.Some? { leases := leases + {(got.value, k)}; }
      assert Next(old(Abstract()), Event.Lease(k), Abstract());
      LeaseConserves(old(Abstract()), k, Abstract());
    }

    /** The owner of a lease drops it. */
    method Drop(base: nat, k: nat)
      requires Valid() && (base, k) in leases
      modifies this
      ensures Valid() && Next(old(Abstract()), Event.Drop(base, k), Abstract())
      ensures main == old(main) && leases == old(leases) - {(base, k)}
    {
      NoPanic(Abstract());
      used := Release(used, base, k).trie;
      leases := leases - {(base, k)};
      DropConserves(old(Abstract()), base, k, Abstract());
    }
  }
}
