/** The free-block trie of an address pool. The boxes of the source are uniquely
    owned, so the in-place traversals are functions from tries to tries here. */
module Trie {
  import opened Blocks
  import opened Options

  datatype Trie =
    | Empty
    | Leaf(base: nat, k: nat)
    | Fork(base: nat, k: nat, zero: Trie, one: Trie)

  /** The abstraction: which addresses are free. */
  predicate Free(t: Trie, x: nat) {
    match t
    case Empty => false
    case Leaf(base, k) => InBlock(x, base, k)
    case Fork(_, _, zero, one) => Free(zero, x) || Free(one, x)
  }

  predicate FullFork(t: Trie)
    requires t.Fork? && !t.zero.Empty? && !t.one.Empty?
  {
    t.zero.Leaf? && t.one.Leaf? && t.zero.k + 1 == t.k && t.one.k + 1 == t.k
  }

  /** The canonical form: children in the two halves, none empty, and no fork that
      could be a leaf. */
  predicate Canonical(t: Trie) {
    match t
    case Empty => true
    case Leaf(base, k) => IsBlock(base, k)
    case Fork(base, k, zero, one) =>
      && IsBlock(base, k) && k > 0
      && !zero.Empty? && Canonical(zero) && Within(zero.base, zero.k, base, k - 1)
      && !one.Empty? && Canonical(one) && Within(one.base, one.k, base + Pow2(k - 1), k - 1)
      && !FullFork(t)
  }

  // ---------------------------------------------------------------------------
  // Operations
  // ---------------------------------------------------------------------------

  /** Turns a fork of two full halves into a leaf. */
  function Compact(t: Trie): Trie {
    if t.Fork? && !t.zero.Empty? && !t.one.Empty? && FullFork(t) then Leaf(t.base, t.k) else t
  }

  /** `release` panics on an assertion in one case. */
  datatype Released = Panic | Done(trie: Trie, inserted: bool)

  function Release(t: Trie, base: nat, k: nat): Released {
    if t.Empty? then Done(Leaf(base, k), true)
    else
      var (top, c) := CommonAncestor(t.base, t.k, base, k);
      if c == 0 then Panic
      else if c == k then Done(t, false)
      else if c == t.k then
        if t.Leaf? then Done(t, false)
        else if !Bit(base, c - 1) then
          var r := Release(t.zero, base, k);
          if r.Panic? then Panic else Done(Compact(t.(zero := r.trie)), r.inserted)
        else
          var r := Release(t.one, base, k);
          if r.Panic? then Panic else Done(Compact(t.(one := r.trie)), r.inserted)
      else if !Bit(base, c - 1) then Done(Compact(Fork(top, c, Leaf(base, k), t)), true)
      else Done(Compact(Fork(top, c, t, Leaf(base, k))), true)
  }

  /** What is left of the leaf (base, top) without its lowest block (base, k). */
  function LeftOver(base: nat, k: nat, top: nat): Trie
    requires k < top
  {
    if top == k + 1 then Leaf(base + Pow2(k), k)
    else Fork(base, top, LeftOver(base, k, top - 1), Leaf(base + Pow2(top - 1), top - 1))
  }

  /** A fork after an acquisition below it: a lone child takes its place. */
  function Rejoin(t: Trie, zero: Trie, one: Trie): Trie
    requires t.Fork?
  {
    if one.Empty? then zero else if zero.Empty? then one else t.(zero := zero, one := one)
  }

  function Acquire(t: Trie, k: nat): (Trie, Option<nat>) {
    if t.Empty? || t.k < k || (t.k == k && t.Fork?) then (t, None)
    else if t.k == k then (Empty, Some(t.base))
    else if t.Leaf? then (LeftOver(t.base, k, t.k), Some(t.base))
    else
      var (zero, first) := Acquire(t.zero, k);
      if first.Some? then (Rejoin(t, zero, t.one), first)
      else
        var (one, second) := Acquire(t.one, k);
        (Rejoin(t, zero, one), second)
  }

  /** Releases every free block of `t` into `other`. */
  function DrainInto(t: Trie, other: Trie): Released {
    match t
    case Empty => Done(other, false)
    case Leaf(base, k) => Release(other, base, k)
    case Fork(_, _, zero, one) =>
      var r := DrainInto(zero, other);
      if r.Panic? then Panic else DrainInto(one, r.trie)
  }

  /** The loop that builds the left-over of a split leaf bottom-up. */
  method BuildLeftOver(base: nat, k: nat, top: nat) returns (leftOver: Trie)
    requires k < top
    ensures leftOver == LeftOver(base, k, top)
  {
    leftOver := Leaf(base + Pow2(k), k);
    for i := k + 1 to top
      invariant leftOver == LeftOver(base, k, i)
    {
      leftOver := Fork(base, i + 1, leftOver, Leaf(base + Pow2(i), i));
    }
  }

  // ---------------------------------------------------------------------------
  // Canonical tries
  // ---------------------------------------------------------------------------

  lemma {:induction false} FreeInside(t: Trie, x: nat)
    requires Canonical(t) && Free(t, x)
    ensures InBlock(x, t.base, t.k)
    decreases t
  {
    if t.Fork? {
      if Free(t.zero, x) { FreeInside(t.zero, x); } else { FreeInside(t.one, x); }
    }
  }

  lemma {:induction false} HasFree(t: Trie) returns (x: nat)
    requires Canonical(t) && !t.Empty?
    ensures Free(t, x)
    decreases t
  {
    if t.Leaf? { x := t.base; } else { x := HasFree(t.zero); }
  }

  /** The two halves of a fork do not interfere. */
  lemma HalfOfFork(t: Trie, x: nat)
    requires Canonical(t) && t.Fork?
    ensures Free(t.zero, x) <==> Free(t, x) && x < t.base + Pow2(t.k - 1)
    ensures Free(t.one, x) <==> Free(t, x) && x >= t.base + Pow2(t.k - 1)
  {
    if Free(t.zero, x) { FreeInside(t.zero, x); }
    if Free(t.one, x) { FreeInside(t.one, x); }
  }

  ghost predicate AllFree(t: Trie, base: nat, k: nat) {
    forall x :: InBlock(x, base, k) ==> Free(t, x)
  }

  ghost predicate Disjoint(t: Trie, base: nat, k: nat) {
    forall x :: InBlock(x, base, k) ==> !Free(t, x)
  }

  lemma FullRoot(t: Trie, base: nat, k: nat)
    requires Canonical(t) && !t.Empty? && IsBlock(base, k) && Within(t.base, t.k, base, k) && AllFree(t, base, k)
    ensures t.base == base && t.k == k
  {
    assert InBlock(base, base, k) && InBlock(base + Pow2(k) - 1, base, k);
    FreeInside(t, base);
    FreeInside(t, base + Pow2(k) - 1);
    if t.k < k { Pow2Monotone(t.k, k); } else if k < t.k { Pow2Monotone(k, t.k); }
  }

  lemma FullHalves(t: Trie)
    requires Canonical(t) && t.Fork? && AllFree(t, t.base, t.k)
    ensures AllFree(t.zero, t.base, t.k - 1) && AllFree(t.one, t.base + Pow2(t.k - 1), t.k - 1)
  {
    Halves(t.base, t.k);
    forall x | InBlock(x, t.base, t.k - 1) ensures Free(t.zero, x) {
      assert InBlock(x, t.base, t.k);
      HalfOfFork(t, x);
    }
    forall x | InBlock(x, t.base + Pow2(t.k - 1), t.k - 1) ensures Free(t.one, x) {
      assert InBlock(x, t.base, t.k);
      HalfOfFork(t, x);
    }
  }

  /** A canonical trie that fills a block is a leaf. */
  lemma {:induction false} FullIsLeaf(t: Trie, base: nat, k: nat)
    requires Canonical(t) && !t.Empty? && IsBlock(base, k) && Within(t.base, t.k, base, k) && AllFree(t, base, k)
    ensures t == Leaf(base, k)
    decreases t
  {
    FullRoot(t, base, k);
    if t.Fork? {
      FullHalves(t);
      Halves(base, k);
      FullIsLeaf(t.zero, base, k - 1);
      FullIsLeaf(t.one, base + Pow2(k - 1), k - 1);
      assert false;
    }
  }

  /** A block with room to spare has free addresses in both halves. */
  lemma Ends(t: Trie) returns (x: nat, y: nat)
    requires Canonical(t) && !t.Empty? && t.k > 0
    ensures Free(t, x) && InBlock(x, t.base, t.k - 1)
    ensures Free(t, y) && InBlock(y, t.base + Pow2(t.k - 1), t.k - 1)
  {
    Halves(t.base, t.k);
    if t.Leaf? {
      x, y := t.base, t.base + Pow2(t.k - 1);
    } else {
      x := HasFree(t.zero);
      FreeInside(t.zero, x);
      y := HasFree(t.one);
      FreeInside(t.one, y);
    }
  }

  /** The root of a canonical trie is the smallest block containing its free set. */
  lemma RootIsLeast(t: Trie, base: nat, k: nat)
    requires Canonical(t) && !t.Empty? && IsBlock(base, k)
    requires forall x :: Free(t, x) ==> InBlock(x, base, k)
    ensures t.k <= k && Within(t.base, t.k, base, k)
  {
    if t.k == 0 {
      var x := HasFree(t);
      FreeInside(t, x);
      Nested(t.base, 0, base, k, x);
    } else {
      var x, y := Ends(t);
      Spanning(base, k, t.base, t.k, x, y);
    }
  }

  lemma SameRoot(t: Trie, u: Trie)
    requires Canonical(t) && Canonical(u) && !t.Empty? && !u.Empty?
    requires forall x :: Free(t, x) <==> Free(u, x)
    ensures t.base == u.base && t.k == u.k
  {
    forall x | Free(t, x) ensures InBlock(x, u.base, u.k) { FreeInside(u, x); }
    forall x | Free(u, x) ensures InBlock(x, t.base, t.k) { FreeInside(t, x); }
    RootIsLeast(t, u.base, u.k);
    RootIsLeast(u, t.base, t.k);
  }

  /** The shape of a canonical trie depends only on its free set. */
  lemma {:induction false} CanonicalIsUnique(t: Trie, u: Trie)
    requires Canonical(t) && Canonical(u)
    requires forall x :: Free(t, x) <==> Free(u, x)
    ensures t == u
    decreases t, u
  {
    if t.Empty? || u.Empty? {
      if !t.Empty? { var x := HasFree(t); }
      if !u.Empty? { var x := HasFree(u); }
    } else {
      SameRoot(t, u);
      if t.Leaf? {
        FullIsLeaf(u, t.base, t.k);
      } else if u.Leaf? {
        FullIsLeaf(t, u.base, u.k);
      } else {
        var mid := t.base + Pow2(t.k - 1);
        forall x ensures Free(t.zero, x) <==> Free(u.zero, x) { HalfOfFork(t, x); HalfOfFork(u, x); }
        forall x ensures Free(t.one, x) <==> Free(u.one, x) { HalfOfFork(t, x); HalfOfFork(u, x); }
        CanonicalIsUnique(t.zero, u.zero);
        CanonicalIsUnique(t.one, u.one);
      }
    }
  }
}
