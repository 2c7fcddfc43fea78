/** Releasing, acquiring and draining do the right thing to the set of free
    addresses and keep the trie canonical. */
module TrieOperations {
  import opened Blocks
  import opened Options
  import opened Trie

  // ---------------------------------------------------------------------------
  // Release
  // ---------------------------------------------------------------------------

  /** A fork that is canonical except that it may be full. */
  predicate Joined(t: Trie) {
    && t.Fork? && IsBlock(t.base, t.k) && t.k > 0
    && !t.zero.Empty? && Canonical(t.zero) && Within(t.zero.base, t.zero.k, t.base, t.k - 1)
    && !t.one.Empty? && Canonical(t.one) && Within(t.one.base, t.one.k, t.base + Pow2(t.k - 1), t.k - 1)
  }

  lemma FullForkFree(t: Trie, x: nat)
    requires Joined(t) && FullFork(t)
    ensures Free(t, x) <==> InBlock(x, t.base, t.k)
  {
    Halves(t.base, t.k);
    assert t.zero.base == t.base && t.one.base == t.base + Pow2(t.k - 1);
  }

  lemma CompactCorrect(t: Trie)
    requires Joined(t)
    ensures Canonical(Compact(t)) && !Compact(t).Empty?
    ensures Compact(t).base == t.base && Compact(t).k == t.k
    ensures forall x :: Free(Compact(t), x) <==> Free(t, x)
  {
    if FullFork(t) {
      forall x ensures Free(Compact(t), x) <==> Free(t, x) { FullForkFree(t, x); }
    }
  }

  /** The trie has this single address as a leaf of its own. */
  predicate HasPoint(t: Trie, x: nat) {
    match t
    case Empty => false
    case Leaf(base, k) => base == x && k == 0
    case Fork(_, _, zero, one) => HasPoint(zero, x) || HasPoint(one, x)
  }

  /** `u` is canonical and has exactly the addresses of `t` and of the block. */
  ghost predicate Grown(t: Trie, base: nat, k: nat, u: Trie) {
    && Canonical(u) && !u.Empty?
    && (forall x :: Free(u, x) <==> Free(t, x) || InBlock(x, base, k))
    && (!t.Empty? ==> (u.base, u.k) == CommonAncestor(t.base, t.k, base, k))
  }

  /** What `release` does: insert exactly if nothing of the block is free yet, change
      nothing otherwise, and panic instead for a single address that is a leaf. */
  ghost predicate ReleaseOk(t: Trie, base: nat, k: nat, r: Released) {
    match r
    case Panic => k == 0 && HasPoint(t, base)
    case Done(u, inserted) =>
      && !(k == 0 && HasPoint(t, base))
      && (inserted <==> Disjoint(t, base, k))
      && (if inserted then Grown(t, base, k, u) else u == t)
  }

  lemma {:induction false} PointIsFree(t: Trie, x: nat)
    requires Canonical(t) && HasPoint(t, x)
    ensures Free(t, x)
    decreases t
  {
    if t.Fork? {
      if HasPoint(t.zero, x) { PointIsFree(t.zero, x); } else { PointIsFree(t.one, x); }
    }
  }

  /** The new block covers the whole trie or lies in a leaf. */
  lemma ReleaseOverlapping(t: Trie, base: nat, k: nat)
    requires Canonical(t) && !t.Empty? && IsBlock(base, k)
    requires var c := CommonAncestor(t.base, t.k, base, k).1; c == k || (c == t.k && t.Leaf?)
    ensures ReleaseOk(t, base, k, Release(t, base, k))
  {
    AncestorContains(t.base, t.k, base, k);
    var c := CommonAncestor(t.base, t.k, base, k).1;
    if c == k {
      var x := HasFree(t);
      FreeInside(t, x);
      assert InBlock(x, base, k) && Free(t, x);
    } else {
      assert InBlock(base, base, k) && Free(t, base);
    }
  }

  /** A smaller block is in the half its bit says. */
  lemma SideOf(base: nat, k: nat, top: nat, c: nat)
    requires IsBlock(base, k) && IsBlock(top, c) && k < c && Within(base, k, top, c)
    ensures if Bit(base, c - 1) then Within(base, k, top + Pow2(c - 1), c - 1) else Within(base, k, top, c - 1)
  {
    InOneHalf(base, k, top, c);
    BitIsHalf(base, top, c);
  }

  /** Two blocks that do not contain each other are in different halves of their common
      ancestor. */
  lemma BlocksSplit(a: nat, j: nat, b: nat, k: nat)
    requires IsBlock(a, j) && IsBlock(b, k)
    requires var c := CommonAncestor(a, j, b, k).1; c != k && c != j
    ensures var (top, c) := CommonAncestor(a, j, b, k);
      && IsBlock(top, c) && c > 0
      && (!Bit(b, c - 1) ==> Within(b, k, top, c - 1) && Within(a, j, top + Pow2(c - 1), c - 1))
      && (Bit(b, c - 1) ==> Within(b, k, top + Pow2(c - 1), c - 1) && Within(a, j, top, c - 1))
  {
    AncestorContains(a, j, b, k);
    var (top, c) := CommonAncestor(a, j, b, k);
    SideOf(b, k, top, c);
    SideOf(a, j, top, c);
  }

  lemma ForkFree(t: Trie, x: nat)
    requires t.Fork?
    ensures Free(t, x) <==> Free(t.zero, x) || Free(t.one, x)
  {
  }

  lemma SplitGrown(t: Trie, base: nat, k: nat, fork: Trie)
    requires Canonical(t) && !t.Empty? && IsBlock(base, k) && Joined(fork)
    requires (fork.base, fork.k) == CommonAncestor(t.base, t.k, base, k)
    requires (fork.zero == Leaf(base, k) && fork.one == t) || (fork.one == Leaf(base, k) && fork.zero == t)
    ensures Grown(t, base, k, Compact(fork))
  {
    CompactCorrect(fork);
    forall x ensures Free(fork, x) <==> Free(t, x) || InBlock(x, base, k) {
      ForkFree(fork, x);
    }
  }

  lemma Apart(t: Trie, base: nat, k: nat)
    requires Canonical(t) && !t.Empty? && (base + Pow2(k) <= t.base || t.base + Pow2(t.k) <= base)
    ensures Disjoint(t, base, k) && !HasPoint(t, base)
  {
    forall x | InBlock(x, base, k) ensures !Free(t, x) {
      if Free(t, x) { FreeInside(t, x); }
    }
    assert InBlock(base, base, k);
    if HasPoint(t, base) { PointIsFree(t, base); }
  }

  function SplitFork(t: Trie, base: nat, k: nat, top: nat, c: nat): Trie
    requires c > 0
  {
    if !Bit(base, c - 1) then Fork(top, c, Leaf(base, k), t) else Fork(top, c, t, Leaf(base, k))
  }

  lemma ReleaseSplits(t: Trie, base: nat, k: nat)
    requires !t.Empty?
    requires var c := CommonAncestor(t.base, t.k, base, k).1; c != 0 && c != k && c != t.k
    ensures var (top, c) := CommonAncestor(t.base, t.k, base, k);
      Release(t, base, k) == Done(Compact(SplitFork(t, base, k, top, c)), true)
  {
  }

  lemma JoinedPair(top: nat, c: nat, low: Trie, high: Trie)
    requires IsBlock(top, c) && c > 0 && Canonical(low) && !low.Empty? && Canonical(high) && !high.Empty?
    requires Within(low.base, low.k, top, c - 1) && Within(high.base, high.k, top + Pow2(c - 1), c - 1)
    ensures Joined(Fork(top, c, low, high)) && low.base + Pow2(low.k) <= high.base
  {
  }

  lemma SplitJoined(t: Trie, base: nat, k: nat, top: nat, c: nat)
    requires Canonical(t) && !t.Empty? && IsBlock(base, k) && IsBlock(top, c) && c > 0
    requires if Bit(base, c - 1) then Within(base, k, top + Pow2(c - 1), c - 1) && Within(t.base, t.k, top, c - 1)
             else Within(base, k, top, c - 1) && Within(t.base, t.k, top + Pow2(c - 1), c - 1)
    ensures Joined(SplitFork(t, base, k, top, c))
    ensures base + Pow2(k) <= t.base || t.base + Pow2(t.k) <= base
  {
    var leaf := Leaf(base, k);
    assert Canonical(leaf);
    if Bit(base, c - 1) {
      JoinedPair(top, c, t, leaf);
    } else {
      JoinedPair(top, c, leaf, t);
    }
  }

  /** The new block gets a new fork with the old trie beside it. */
  lemma SplitCorrect(t: Trie, base: nat, k: nat, top: nat, c: nat)
    requires Canonical(t) && !t.Empty? && IsBlock(base, k) && IsBlock(top, c) && c > 0
    requires (top, c) == CommonAncestor(t.base, t.k, base, k)
    requires if Bit(base, c - 1) then Within(base, k, top + Pow2(c - 1), c - 1) && Within(t.base, t.k, top, c - 1)
             else Within(base, k, top, c - 1) && Within(t.base, t.k, top + Pow2(c - 1), c - 1)
    ensures Disjoint(t, base, k) && !HasPoint(t, base)
    ensures Grown(t, base, k, Compact(SplitFork(t, base, k, top, c)))
  {
    SplitJoined(t, base, k, top, c);
    Apart(t, base, k);
    SplitGrown(t, base, k, SplitFork(t, base, k, top, c));
  }

  lemma SplitParts(t: Trie, base: nat, k: nat, top: nat, c: nat) returns (fork: Trie)
    requires Canonical(t) && !t.Empty? && IsBlock(base, k)
    requires (top, c) == CommonAncestor(t.base, t.k, base, k) && c != k && c != t.k
    ensures c > 0 && fork == SplitFork(t, base, k, top, c)
    ensures Disjoint(t, base, k) && !HasPoint(t, base) && Grown(t, base, k, Compact(fork))
  {
    assert IsBlock(t.base, t.k);
    BlocksSplit(t.base, t.k, base, k);
    fork := SplitFork(t, base, k, top, c);
    SplitCorrect(t, base, k, top, c);
  }

  lemma ReleaseSplit(t: Trie, base: nat, k: nat)
    requires Canonical(t) && !t.Empty? && IsBlock(base, k)
    requires var c := CommonAncestor(t.base, t.k, base, k).1; c != k && c != t.k
    ensures ReleaseOk(t, base, k, Release(t, base, k))
  {
    var (top, c) := CommonAncestor(t.base, t.k, base, k);
    var fork := SplitParts(t, base, k, top, c);
    ReleaseSplits(t, base, k);
    assert Release(t, base, k) == Done(Compact(fork), true);
  }

  /** The block belongs below one child of the fork. */
  lemma DescendHalf(t: Trie, base: nat, k: nat)
    requires Canonical(t) && t.Fork? && IsBlock(base, k)
    requires var c := CommonAncestor(t.base, t.k, base, k).1; c != k && c == t.k
    ensures k < t.k
    ensures !Bit(base, t.k - 1) ==> Within(base, k, t.base, t.k - 1)
    ensures Bit(base, t.k - 1) ==> Within(base, k, t.base + Pow2(t.k - 1), t.k - 1)
  {
    AncestorContains(t.base, t.k, base, k);
    InOneHalf(base, k, t.base, t.k);
    BitIsHalf(base, t.base, t.k);
  }

  lemma {:induction false} PointInside(t: Trie, x: nat)
    requires Canonical(t) && HasPoint(t, x)
    ensures InBlock(x, t.base, t.k)
  {
    PointIsFree(t, x);
    FreeInside(t, x);
  }

  lemma ZeroSees(t: Trie, base: nat, k: nat)
    requires Canonical(t) && t.Fork? && Within(base, k, t.base, t.k - 1)
    ensures Disjoint(t, base, k) <==> Disjoint(t.zero, base, k)
    ensures HasPoint(t, base) <==> HasPoint(t.zero, base)
  {
    assert InBlock(base, base, k);
    if HasPoint(t.one, base) { PointInside(t.one, base); }
    forall x | InBlock(x, base, k) ensures Free(t, x) <==> Free(t.zero, x) { HalfOfFork(t, x); }
  }

  lemma OneSees(t: Trie, base: nat, k: nat)
    requires Canonical(t) && t.Fork? && Within(base, k, t.base + Pow2(t.k - 1), t.k - 1)
    ensures Disjoint(t, base, k) <==> Disjoint(t.one, base, k)
    ensures HasPoint(t, base) <==> HasPoint(t.one, base)
  {
    assert InBlock(base, base, k);
    if HasPoint(t.zero, base) { PointInside(t.zero, base); }
    forall x | InBlock(x, base, k) ensures Free(t, x) <==> Free(t.one, x) { HalfOfFork(t, x); }
  }

  /** A fork that grew in one of its halves has grown. */
  lemma HalfGrows(t: Trie, base: nat, k: nat, fork: Trie)
    requires t.Fork? && Joined(fork) && (fork.base, fork.k) == CommonAncestor(t.base, t.k, base, k)
    requires
      || (fork.one == t.one && forall x :: Free(fork.zero, x) <==> Free(t.zero, x) || InBlock(x, base, k))
      || (fork.zero == t.zero && forall x :: Free(fork.one, x) <==> Free(t.one, x) || InBlock(x, base, k))
    ensures Grown(t, base, k, Compact(fork))
  {
    CompactCorrect(fork);
    forall x ensures Free(fork, x) <==> Free(t, x) || InBlock(x, base, k) {
      ForkFree(fork, x);
      ForkFree(t, x);
    }
  }

  /** What grows inside a block stays inside it. */
  lemma GrownInside(t: Trie, base: nat, k: nat, u: Trie, outer: nat, outerK: nat)
    requires !t.Empty? && !u.Empty? && (u.base, u.k) == CommonAncestor(t.base, t.k, base, k)
    requires IsBlock(t.base, t.k) && IsBlock(base, k) && IsBlock(outer, outerK)
    requires Within(t.base, t.k, outer, outerK) && Within(base, k, outer, outerK)
    ensures Within(u.base, u.k, outer, outerK)
  {
    AncestorIsLeast(t.base, t.k, base, k, outer, outerK);
  }

  lemma ZeroGrows(t: Trie, base: nat, k: nat, u: Trie)
    requires Canonical(t) && t.Fork? && IsBlock(base, k) && Within(base, k, t.base, t.k - 1)
    requires CommonAncestor(t.base, t.k, base, k) == (t.base, t.k) && Grown(t.zero, base, k, u)
    ensures Grown(t, base, k, Compact(t.(zero := u)))
  {
    assert IsBlock(t.base, t.k - 1) by { Halves(t.base, t.k); }
    GrownInside(t.zero, base, k, u, t.base, t.k - 1);
    assert Joined(t.(zero := u));
    HalfGrows(t, base, k, t.(zero := u));
  }

  lemma OneGrows(t: Trie, base: nat, k: nat, u: Trie)
    requires Canonical(t) && t.Fork? && IsBlock(base, k) && Within(base, k, t.base + Pow2(t.k - 1), t.k - 1)
    requires CommonAncestor(t.base, t.k, base, k) == (t.base, t.k) && Grown(t.one, base, k, u)
    ensures Grown(t, base, k, Compact(t.(one := u)))
  {
    assert IsBlock(t.base + Pow2(t.k - 1), t.k - 1) by { Halves(t.base, t.k); }
    GrownInside(t.one, base, k, u, t.base + Pow2(t.k - 1), t.k - 1);
    assert Joined(t.(one := u));
    HalfGrows(t, base, k, t.(one := u));
  }

  lemma CompactCanonical(t: Trie)
    requires Canonical(t)
    ensures Compact(t) == t
  {
  }

  function Put(t: Trie, high: bool, r: Released): Released
    requires t.Fork?
  {
    if r.Panic? then Panic
    else Done(Compact(if high then t.(one := r.trie) else t.(zero := r.trie)), r.inserted)
  }

  lemma ReleaseDescends(t: Trie, base: nat, k: nat)
    requires t.Fork?
    requires var c := CommonAncestor(t.base, t.k, base, k).1; c != 0 && c != k && c == t.k
    ensures var high := Bit(base, t.k - 1);
      Release(t, base, k) == Put(t, high, Release(if high then t.one else t.zero, base, k))
  {
  }

  lemma PutOk(t: Trie, base: nat, k: nat, high: bool, r: Released)
    requires Canonical(t) && t.Fork? && IsBlock(base, k)
    requires CommonAncestor(t.base, t.k, base, k) == (t.base, t.k)
    requires Within(base, k, if high then t.base + Pow2(t.k - 1) else t.base, t.k - 1)
    requires ReleaseOk(if high then t.one else t.zero, base, k, r)
    ensures ReleaseOk(t, base, k, Put(t, high, r))
  {
    CompactCanonical(t);
    if high {
      OneSees(t, base, k);
      if r.Done? && r.inserted { OneGrows(t, base, k, r.trie); }
    } else {
      ZeroSees(t, base, k);
      if r.Done? && r.inserted { ZeroGrows(t, base, k, r.trie); }
    }
  }

  /** `release` inserts a block exactly if it is disjoint from the free set, which
      then grows by exactly that block; otherwise the trie stays as it is. */
  lemma {:induction false} ReleaseCorrect(t: Trie, base: nat, k: nat)
    requires Canonical(t) && IsBlock(base, k)
    ensures ReleaseOk(t, base, k, Release(t, base, k))
    decreases t
  {
    if !t.Empty? {
      var c := CommonAncestor(t.base, t.k, base, k).1;
      if c == k || (c == t.k && t.Leaf?) {
        ReleaseOverlapping(t, base, k);
      } else if c != t.k {
        ReleaseSplit(t, base, k);
      } else {
        AncestorContains(t.base, t.k, base, k);
        DescendHalf(t, base, k);
        ReleaseDescends(t, base, k);
        var high := Bit(base, t.k - 1);
        var child := if high then t.one else t.zero;
        ReleaseCorrect(child, base, k);
        PutOk(t, base, k, high, Release(child, base, k));
      }
    }
  }

  lemma ReleaseGrows(t: Trie, base: nat, k: nat)
    requires Canonical(t) && IsBlock(base, k) && Disjoint(t, base, k)
    ensures var r := Release(t, base, k); r.Done? && r.inserted && Grown(t, base, k, r.trie)
  {
    ReleaseCorrect(t, base, k);
    assert InBlock(base, base, k);
    if HasPoint(t, base) { PointIsFree(t, base); }
  }

  /** The order of releases does not matter for the resulting trie. */
  lemma ReleaseCommutes(t: Trie, a: nat, j: nat, b: nat, k: nat)
    requires Canonical(t) && IsBlock(a, j) && IsBlock(b, k)
    requires Disjoint(t, a, j) && Disjoint(t, b, k) && Disjoint(Leaf(a, j), b, k)
    ensures var ta, tb := Release(t, a, j), Release(t, b, k);
      && ta.Done? && tb.Done?
      && Release(ta.trie, b, k) == Release(tb.trie, a, j)
  {
    ReleaseGrows(t, a, j);
    ReleaseGrows(t, b, k);
    var ta, tb := Release(t, a, j).trie, Release(t, b, k).trie;
    ReleaseGrows(ta, b, k);
    ReleaseGrows(tb, a, j);
    CanonicalIsUnique(Release(ta, b, k).trie, Release(tb, a, j).trie);
  }

  /** Releases one block after the other. */
  function ReleaseAll(t: Trie, blocks: seq<(nat, nat)>): Released {
    if blocks == [] then Done(t, true)
    else
      var n := |blocks| - 1;
      var before := ReleaseAll(t, blocks[..n]);
      if before.Panic? then Panic else Release(before.trie, blocks[n].0, blocks[n].1)
  }

  /** Blocks, none of them twice, that do not meet each other, nor what is free. */
  ghost predicate AllApart(t: Trie, blocks: multiset<(nat, nat)>) {
    && (forall b :: b in blocks ==> blocks[b] == 1 && IsBlock(b.0, b.1) && Disjoint(t, b.0, b.1))
    && (forall a, b :: a in blocks && b in blocks && a != b ==> Disjoint(Leaf(a.0, a.1), b.0, b.1))
  }

  ghost predicate InSome(blocks: seq<(nat, nat)>, x: nat) {
    exists b :: b in blocks && InBlock(x, b.0, b.1)
  }

  ghost predicate AllGrown(t: Trie, blocks: seq<(nat, nat)>, r: Released) {
    && r.Done? && r.inserted && Canonical(r.trie)
    && forall x :: Free(r.trie, x) <==> Free(t, x) || InSome(blocks, x)
  }

  lemma InSomeMore(blocks: seq<(nat, nat)>, b: (nat, nat), x: nat)
    ensures InSome(blocks + [b], x) <==> InSome(blocks, x) || InBlock(x, b.0, b.1)
  {
    assert b in blocks + [b];
    assert forall c :: c in blocks + [b] <==> c in blocks || c == b;
  }

  lemma NotInOthers(t: Trie, blocks: seq<(nat, nat)>, b: (nat, nat), x: nat)
    requires AllApart(t, multiset(blocks + [b])) && b !in blocks && InBlock(x, b.0, b.1)
    ensures !InSome(blocks, x)
  {
    var all := multiset(blocks + [b]);
    assert b in blocks + [b];
    forall c | c in blocks ensures !InBlock(x, c.0, c.1) {
      assert c in blocks + [b];
      assert Disjoint(Leaf(c.0, c.1), b.0, b.1);
    }
  }

  lemma GrowOnce(t: Trie, blocks: seq<(nat, nat)>, u: Trie, b: (nat, nat))
    requires AllGrown(t, blocks, Done(u, true)) && AllApart(t, multiset(blocks + [b]))
    ensures AllGrown(t, blocks + [b], Release(u, b.0, b.1))
  {
    var all := multiset(blocks + [b]);
    assert all == multiset(blocks) + multiset{b};
    assert b in all && b !in blocks;
    forall x | InBlock(x, b.0, b.1) ensures !InSome(blocks, x) {
      NotInOthers(t, blocks, b, x);
    }
    ReleaseGrows(u, b.0, b.1);
    forall x ensures InSome(blocks + [b], x) <==> InSome(blocks, x) || InBlock(x, b.0, b.1) { InSomeMore(blocks, b, x); }
  }

  /** Releasing blocks that are apart frees exactly them. */
  lemma {:induction false} ReleaseAllCorrect(t: Trie, blocks: seq<(nat, nat)>)
    requires Canonical(t) && AllApart(t, multiset(blocks))
    ensures AllGrown(t, blocks, ReleaseAll(t, blocks))
    decreases |blocks|
  {
    if blocks != [] {
      var n := |blocks| - 1;
      var before := blocks[..n];
      assert blocks == before + [blocks[n]];
      assert multiset(before) <= multiset(blocks);
      ReleaseAllCorrect(t, before);
      GrowOnce(t, before, ReleaseAll(t, before).trie, blocks[n]);
    }
  }

  /** The order in which any number of blocks is released does not matter: the same blocks
      in another order give the same trie. */
  lemma ReleaseInAnyOrder(t: Trie, blocks: seq<(nat, nat)>, others: seq<(nat, nat)>)
    requires Canonical(t) && AllApart(t, multiset(blocks)) && multiset(blocks) == multiset(others)
    ensures ReleaseAll(t, blocks) == ReleaseAll(t, others)
  {
    assert forall b :: b in multiset(blocks) <==> b in multiset(others);
    ReleaseAllCorrect(t, blocks);
    ReleaseAllCorrect(t, others);
    forall x ensures InSome(blocks, x) <==> InSome(others, x) {}
    CanonicalIsUnique(ReleaseAll(t, blocks).trie, ReleaseAll(t, others).trie);
  }

  // ---------------------------------------------------------------------------
  // Acquire
  // ---------------------------------------------------------------------------

  /** A block of size `k` that is entirely free. */
  ghost predicate FreeBlock(t: Trie, base: nat, k: nat) {
    IsBlock(base, k) && AllFree(t, base, k)
  }

  /** What `acquire` does: take the lowest free block and nothing else, or find that
      there is none and change nothing. */
  ghost predicate AcquireOk(t: Trie, k: nat, u: Trie, out: Option<nat>) {
    match out
    case None => u == t && forall b :: !FreeBlock(t, b, k)
    case Some(a) =>
      && FreeBlock(t, a, k) && (forall b :: FreeBlock(t, b, k) ==> a <= b)
      && Canonical(u)
      && (forall x :: Free(u, x) <==> Free(t, x) && !InBlock(x, a, k))
      && (!t.Empty? && !u.Empty? ==> Within(u.base, u.k, t.base, t.k))
  }

  lemma FreeBlockInside(t: Trie, b: nat, k: nat)
    requires Canonical(t) && FreeBlock(t, b, k)
    ensures !t.Empty? && k <= t.k && Within(b, k, t.base, t.k)
  {
    assert InBlock(b, b, k) && InBlock(b + Pow2(k) - 1, b, k);
    FreeInside(t, b);
    FreeInside(t, b + Pow2(k) - 1);
    if t.k < k { Pow2Monotone(t.k, k); }
  }

  lemma BelowMiddle(t: Trie, b: nat, k: nat)
    requires Canonical(t) && t.Fork? && FreeBlock(t, b, k) && k < t.k
    ensures b < t.base + Pow2(t.k - 1) ==> b + Pow2(k) <= t.base + Pow2(t.k - 1)
  {
    FreeBlockInside(t, b, k);
    InOneHalf(b, k, t.base, t.k);
  }

  /** A free block smaller than a fork is free in one of its children. */
  lemma FreeBlockBelow(t: Trie, b: nat, k: nat)
    requires Canonical(t) && t.Fork? && FreeBlock(t, b, k) && k < t.k
    ensures if b < t.base + Pow2(t.k - 1) then FreeBlock(t.zero, b, k) else FreeBlock(t.one, b, k)
  {
    BelowMiddle(t, b, k);
    if b < t.base + Pow2(t.k - 1) {
      forall x | InBlock(x, b, k) ensures Free(t.zero, x) { HalfOfFork(t, x); }
    } else {
      forall x | InBlock(x, b, k) ensures Free(t.one, x) { HalfOfFork(t, x); }
    }
  }

  lemma FreeBlockAbove(t: Trie, b: nat, k: nat)
    requires Canonical(t) && t.Fork?
    ensures FreeBlock(t.zero, b, k) ==> FreeBlock(t, b, k) && b < t.base + Pow2(t.k - 1)
    ensures FreeBlock(t.one, b, k) ==> FreeBlock(t, b, k) && b >= t.base + Pow2(t.k - 1)
  {
    if FreeBlock(t.zero, b, k) { FreeBlockInside(t.zero, b, k); }
    if FreeBlock(t.one, b, k) { FreeBlockInside(t.one, b, k); }
  }

  lemma LeftOverIsSmaller(base: nat, k: nat, top: nat)
    requires k < top
    ensures var u := LeftOver(base, k, top); u.Leaf? ==> u.k < top
  {
  }

  lemma LeftOverFree(base: nat, k: nat, top: nat, x: nat)
    requires k + 1 < top && (Free(LeftOver(base, k, top - 1), x) <==> InBlock(x, base, top - 1) && !InBlock(x, base, k))
    ensures Free(LeftOver(base, k, top), x) <==> InBlock(x, base, top) && !InBlock(x, base, k)
  {
    Pow2Monotone(k, top - 1);
    ForkFree(LeftOver(base, k, top), x);
    assert Free(LeftOver(base, k, top).one, x) <==> InBlock(x, base + Pow2(top - 1), top - 1);
  }

  lemma HighLeafFork(base: nat, k: nat, low: Trie)
    requires IsBlock(base, k) && k > 0 && IsBlock(base + Pow2(k - 1), k - 1)
    requires Canonical(low) && !low.Empty? && Within(low.base, low.k, base, k - 1) && !(low.Leaf? && low.k == k - 1)
    ensures Canonical(Fork(base, k, low, Leaf(base + Pow2(k - 1), k - 1)))
  {
    var high := Leaf(base + Pow2(k - 1), k - 1);
    var fork := Fork(base, k, low, high);
    assert Canonical(high) && Within(high.base, high.k, base + Pow2(k - 1), k - 1);
    assert !FullFork(fork);
  }

  lemma LeftOverCanonical(base: nat, k: nat, top: nat)
    requires IsBlock(base, top) && k + 1 < top && IsBlock(base + Pow2(top - 1), top - 1)
    requires var low := LeftOver(base, k, top - 1); Canonical(low) && !low.Empty? && Within(low.base, low.k, base, top - 1)
    ensures var u := LeftOver(base, k, top); Canonical(u) && u.Fork? && u.base == base && u.k == top
  {
    LeftOverIsSmaller(base, k, top - 1);
    HighLeafFork(base, top, LeftOver(base, k, top - 1));
  }

  ghost predicate LeftOverOk(base: nat, k: nat, top: nat)
    requires k < top
  {
    var u := LeftOver(base, k, top);
    && Canonical(u) && !u.Empty? && Within(u.base, u.k, base, top)
    && (forall x :: Free(u, x) <==> InBlock(x, base, top) && !InBlock(x, base, k))
  }

  /** One more level of what is left over. */
  lemma LeftOverJoins(base: nat, k: nat, top: nat)
    requires IsBlock(base, top) && k + 1 < top && LeftOverOk(base, k, top - 1)
    ensures LeftOverOk(base, k, top)
  {
    Halves(base, top);
    LeftOverCanonical(base, k, top);
    forall x ensures Free(LeftOver(base, k, top), x) <==> InBlock(x, base, top) && !InBlock(x, base, k) {
      LeftOverFree(base, k, top, x);
    }
  }

  lemma {:induction false} LeftOverCorrect(base: nat, k: nat, top: nat)
    requires IsBlock(base, top) && k < top
    ensures LeftOverOk(base, k, top)
    decreases top
  {
    Halves(base, top);
    if top > k + 1 {
      LeftOverCorrect(base, k, top - 1);
      LeftOverJoins(base, k, top);
    }
  }

  /** Replacing a child by a part of itself keeps a fork canonical. */
  lemma RejoinCorrect(t: Trie, zero: Trie, one: Trie)
    requires Canonical(t) && t.Fork? && Canonical(zero) && Canonical(one) && !(zero.Empty? && one.Empty?)
    requires !zero.Empty? ==> Within(zero.base, zero.k, t.zero.base, t.zero.k)
    requires !one.Empty? ==> Within(one.base, one.k, t.one.base, t.one.k)
    requires exists x :: InBlock(x, t.base, t.k) && !Free(zero, x) && !Free(one, x)
    ensures var u := Rejoin(t, zero, one);
      && Canonical(u) && !u.Empty? && Within(u.base, u.k, t.base, t.k)
      && (forall x :: Free(u, x) <==> Free(zero, x) || Free(one, x))
  {
    Halves(t.base, t.k);
    var u := Rejoin(t, zero, one);
    if !zero.Empty? && !one.Empty? {
      assert Joined(u);
      if FullFork(u) {
        var x :| InBlock(x, t.base, t.k) && !Free(zero, x) && !Free(one, x);
        FullForkFree(u, x);
        assert false;
      }
    }
  }

  lemma AcquireLeaf(t: Trie, k: nat)
    requires Canonical(t) && t.Leaf? && k <= t.k
    ensures AcquireOk(t, k, Acquire(t, k).0, Acquire(t, k).1)
  {
    AlignedLower(t.base, k, t.k);
    Pow2Monotone(k, t.k);
    assert FreeBlock(t, t.base, k);
    forall b | FreeBlock(t, b, k) ensures t.base <= b { FreeBlockInside(t, b, k); }
    if k < t.k { LeftOverCorrect(t.base, k, t.k); }
  }

  lemma AcquireTooLarge(t: Trie, k: nat)
    requires Canonical(t) && (t.Empty? || t.k < k || (t.k == k && t.Fork?))
    ensures forall b :: !FreeBlock(t, b, k)
  {
    forall b ensures !FreeBlock(t, b, k) {
      if FreeBlock(t, b, k) {
        FreeBlockInside(t, b, k);
        FullIsLeaf(t, t.base, t.k);
        assert false;
      }
    }
  }

  lemma AcquireFromZero(t: Trie, k: nat, zero: Trie, a: nat)
    requires Canonical(t) && t.Fork? && k < t.k && AcquireOk(t.zero, k, zero, Some(a))
    ensures AcquireOk(t, k, Rejoin(t, zero, t.one), Some(a))
  {
    FreeBlockAbove(t, a, k);
    forall b | FreeBlock(t, b, k) ensures a <= b { FreeBlockBelow(t, b, k); }
    FreeBlockInside(t, a, k);
    assert InBlock(a, a, k);
    HalfOfFork(t, a);
    RejoinCorrect(t, zero, t.one);
    var u := Rejoin(t, zero, t.one);
    forall x ensures Free(u, x) <==> Free(t, x) && !InBlock(x, a, k) {
      HalfOfFork(t, x);
      if InBlock(x, a, k) { HalfOfFork(t, x); assert Free(t.zero, x); }
    }
  }

  lemma AcquireFromOne(t: Trie, k: nat, one: Trie, a: nat)
    requires Canonical(t) && t.Fork? && k < t.k && AcquireOk(t.one, k, one, Some(a))
    requires forall b :: !FreeBlock(t.zero, b, k)
    ensures AcquireOk(t, k, Rejoin(t, t.zero, one), Some(a))
  {
    FreeBlockAbove(t, a, k);
    forall b | FreeBlock(t, b, k) ensures a <= b { FreeBlockBelow(t, b, k); }
    FreeBlockInside(t, a, k);
    assert InBlock(a, a, k);
    HalfOfFork(t, a);
    RejoinCorrect(t, t.zero, one);
    var u := Rejoin(t, t.zero, one);
    forall x ensures Free(u, x) <==> Free(t, x) && !InBlock(x, a, k) {
      HalfOfFork(t, x);
      if InBlock(x, a, k) { assert Free(t.one, x); }
    }
  }

  /** `acquire` takes exactly the lowest free block of the requested size and keeps
      the trie canonical; it fails, changing nothing, exactly if there is none. */
  lemma {:induction false} AcquireCorrect(t: Trie, k: nat)
    requires Canonical(t)
    ensures AcquireOk(t, k, Acquire(t, k).0, Acquire(t, k).1)
    decreases t
  {
    if t.Empty? || t.k < k || (t.k == k && t.Fork?) {
      AcquireTooLarge(t, k);
    } else if t.Leaf? {
      AcquireLeaf(t, k);
    } else {
      AcquireCorrect(t.zero, k);
      AcquireCorrect(t.one, k);
      var (zero, first) := Acquire(t.zero, k);
      var (one, second) := Acquire(t.one, k);
      if first.Some? {
        AcquireFromZero(t, k, zero, first.value);
      } else if second.Some? {
        AcquireFromOne(t, k, one, second.value);
      } else {
        forall b ensures !FreeBlock(t, b, k) {
          if FreeBlock(t, b, k) { FreeBlockBelow(t, b, k); }
        }
      }
    }
  }

  // ---------------------------------------------------------------------------
  // Drain
  // ---------------------------------------------------------------------------

  /** Draining into a disjoint trie adds exactly the drained addresses. */
  lemma {:induction false} DrainCorrect(t: Trie, other: Trie)
    requires Canonical(t) && Canonical(other)
    requires forall x :: !(Free(t, x) && Free(other, x))
    ensures var r := DrainInto(t, other);
      r.Done? && Canonical(r.trie) && forall x :: Free(r.trie, x) <==> Free(t, x) || Free(other, x)
    decreases t
  {
    match t
    case Empty =>
    case Leaf(base, k) => ReleaseGrows(other, base, k);
    case Fork(_, _, zero, one) =>
      DrainCorrect(zero, other);
      var mid := DrainInto(zero, other).trie;
      forall x ensures !(Free(one, x) && Free(mid, x)) { HalfOfFork(t, x); }
      DrainCorrect(one, mid);
  }

  /** Taking a block and giving it back restores the very same trie. */
  lemma AcquireReleaseRoundTrip(t: Trie, k: nat)
    requires Canonical(t) && Acquire(t, k).1.Some?
    ensures var (u, out) := Acquire(t, k); Release(u, out.value, k) == Done(t, true)
  {
    AcquireCorrect(t, k);
    var (u, out) := Acquire(t, k);
    ReleaseGrows(u, out.value, k);
    var v := Release(u, out.value, k).trie;
    forall x ensures Free(v, x) <==> Free(t, x) {}
    CanonicalIsUnique(v, t);
  }
}
