/** Aligned power-of-two blocks of 64-bit addresses. A mask with `k` trailing zeros
    is represented by `k`; masking, bit tests and shifts are written by recursion on
    the number of bits, which keeps all arithmetic linear. */
module Blocks {

  function Pow2(k: nat): (p: nat)
    ensures p >= 1
  {
    if k == 0 then 1 else 2 * Pow2(k - 1)
  }

  /** Addresses have 64 bits. The number is fixed by its type: a literal would make the
      verifier compute the whole power of two in every proof. */
  type Width = n: nat | 2 * n == 128 witness 64

  const BITS: Width

  /** The low `k` bits of `a` are zero. */
  predicate Aligned(a: nat, k: nat) {
    k == 0 || (a % 2 == 0 && Aligned(a / 2, k - 1))
  }

  /** `a` with its low `k` bits cleared. */
  function Floor(a: nat, k: nat): nat {
    if k == 0 then a else 2 * Floor(a / 2, k - 1)
  }

  /** Bit `i` of `a`. */
  predicate Bit(a: nat, i: nat) {
    if i == 0 then a % 2 == 1 else Bit(a / 2, i - 1)
  }

  predicate InBlock(x: nat, base: nat, k: nat) {
    base <= x < base + Pow2(k)
  }

  /** An aligned block inside the address space. */
  predicate IsBlock(base: nat, k: nat) {
    k <= BITS && Aligned(base, k) && base + Pow2(k) <= Pow2(BITS)
  }

  predicate Within(base: nat, k: nat, outer: nat, outerK: nat) {
    outer <= base && base + Pow2(k) <= outer + Pow2(outerK)
  }

  // ---------------------------------------------------------------------------

  lemma Doubled(q: nat, k: nat)
    requires k > 0
    ensures q * Pow2(k) == 2 * (q * Pow2(k - 1))
  {
    var p := Pow2(k - 1);
    assert Pow2(k) == 2 * p;
    assert q * (2 * p) == 2 * (q * p);
  }

  /** Aligned means divisible: an aligned address is a multiple, ... */
  lemma {:induction false} AlignedIsMultiple(a: nat, k: nat) returns (q: nat)
    requires Aligned(a, k)
    ensures a == q * Pow2(k)
    decreases k
  {
    if k == 0 {
      q := a;
    } else {
      q := AlignedIsMultiple(a / 2, k - 1);
      Doubled(q, k);
    }
  }

  /** ... and a multiple is aligned. */
  lemma {:induction false} MultipleIsAligned(q: nat, k: nat)
    ensures Aligned(q * Pow2(k), k)
    decreases k
  {
    if k > 0 {
      Doubled(q, k);
      MultipleIsAligned(q, k - 1);
    }
  }

  lemma {:induction false} Pow2Monotone(j: nat, k: nat)
    requires j <= k
    ensures Pow2(j) <= Pow2(k)
    ensures j < k ==> 2 * Pow2(j) <= Pow2(k)
    decreases k
  {
    if j < k { Pow2Monotone(j, k - 1); }
  }

  lemma {:induction false} AlignedLower(a: nat, j: nat, k: nat)
    requires j <= k && Aligned(a, k)
    ensures Aligned(a, j)
  {
    if j > 0 { AlignedLower(a / 2, j - 1, k - 1); }
  }

  lemma {:induction false} AlignedSum(a: nat, b: nat, k: nat)
    requires Aligned(a, k) && Aligned(b, k)
    ensures Aligned(a + b, k)
    decreases k
  {
    if k > 0 {
      AlignedSum(a / 2, b / 2, k - 1);
      assert (a + b) / 2 == a / 2 + b / 2;
    }
  }

  lemma {:induction false} AlignedPow2(j: nat, k: nat)
    requires k <= j
    ensures Aligned(Pow2(j), k)
  {
    if k > 0 {
      var p := Pow2(j - 1);
      assert Pow2(j) == 2 * p && (2 * p) % 2 == 0 && (2 * p) / 2 == p;
      AlignedPow2(j - 1, k - 1);
    }
  }

  lemma {:induction false} Gap(a: nat, b: nat, k: nat)
    requires Aligned(a, k) && Aligned(b, k) && a < b
    ensures a + Pow2(k) <= b
    decreases k
  {
    if k > 0 { Gap(a / 2, b / 2, k - 1); }
  }

  /** Two blocks that meet are nested. */
  lemma Nested(a: nat, j: nat, b: nat, k: nat, x: nat)
    requires j <= k && Aligned(a, j) && Aligned(b, k) && InBlock(x, a, j) && InBlock(x, b, k)
    ensures Within(a, j, b, k)
  {
    AlignedLower(b, j, k);
    AlignedPow2(k, j);
    AlignedSum(b, Pow2(k), j);
    if a < b { Gap(a, b, j); }
    if b + Pow2(k) <= a { Gap(b, a, j); } else { Gap(a, b + Pow2(k), j); }
  }

  /** The two halves of a block. */
  lemma Halves(b: nat, k: nat)
    requires IsBlock(b, k) && k > 0
    ensures IsBlock(b, k - 1) && IsBlock(b + Pow2(k - 1), k - 1)
    ensures Pow2(k) == 2 * Pow2(k - 1)
  {
    AlignedLower(b, k - 1, k);
    AlignedPow2(k - 1, k - 1);
    AlignedSum(b, Pow2(k - 1), k - 1);
  }

  /** A block properly inside another lies in one of its halves. */
  lemma InOneHalf(a: nat, j: nat, b: nat, k: nat)
    requires IsBlock(a, j) && IsBlock(b, k) && Within(a, j, b, k) && j < k
    ensures Within(a, j, b, k - 1) || Within(a, j, b + Pow2(k - 1), k - 1)
  {
    Halves(b, k);
    if a < b + Pow2(k - 1) {
      Nested(a, j, b, k - 1, a);
    } else {
      Nested(a, j, b + Pow2(k - 1), k - 1, a);
    }
  }

  /** A block containing a point in each half of another contains all of it. */
  lemma Spanning(a: nat, j: nat, b: nat, k: nat, x: nat, y: nat)
    requires IsBlock(a, j) && IsBlock(b, k) && k > 0
    requires InBlock(x, b, k - 1) && InBlock(y, b + Pow2(k - 1), k - 1) && InBlock(x, a, j) && InBlock(y, a, j)
    ensures k <= j && Within(b, k, a, j)
  {
    Halves(b, k);
    if j < k {
      Nested(a, j, b, k, x);
      InOneHalf(a, j, b, k);
      assert false;
    }
    Nested(b, k, a, j, x);
  }

  /** Clearing low bits finds the block a point lies in. */
  lemma {:induction false} FloorIsBlock(a: nat, k: nat)
    ensures Aligned(Floor(a, k), k) && InBlock(a, Floor(a, k), k)
    decreases k
  {
    if k > 0 { FloorIsBlock(a / 2, k - 1); }
  }

  lemma FloorIsUnique(a: nat, b: nat, k: nat)
    requires Aligned(b, k) && InBlock(a, b, k)
    ensures b == Floor(a, k)
  {
    FloorIsBlock(a, k);
    if b < Floor(a, k) { Gap(b, Floor(a, k), k); }
    if Floor(a, k) < b { Gap(Floor(a, k), b, k); }
  }

  lemma {:induction false} AlignedZero(k: nat)
    ensures Aligned(0, k)
  {
    if k > 0 { AlignedZero(k - 1); }
  }

  lemma {:induction false} FloorOfAddress(a: nat)
    requires a < Pow2(BITS)
    ensures Floor(a, BITS) == 0
  {
    AlignedZero(BITS);
    FloorIsUnique(a, 0, BITS);
  }

  /** The top bit inside a block tells its halves apart. */
  lemma {:induction false} BitIsHalf(a: nat, b: nat, k: nat)
    requires k > 0 && Aligned(b, k) && InBlock(a, b, k)
    ensures Bit(a, k - 1) <==> a >= b + Pow2(k - 1)
    decreases k
  {
    if k > 1 {
      BitIsHalf(a / 2, b / 2, k - 1);
    }
  }

  // ---------------------------------------------------------------------------

  /** The number of low bits to clear, at least `k`, for `a` and `b` to agree: what
      the leading zeros of their exclusive or amount to. */
  function CommonHeight(a: nat, b: nat, k: nat): nat
    decreases BITS - k
  {
    if k >= BITS || Floor(a, k) == Floor(b, k) then k else CommonHeight(a, b, k + 1)
  }

  /** The ancestor of two blocks: its base and its number of free bits. */
  function CommonAncestor(a: nat, j: nat, b: nat, k: nat): (nat, nat) {
    var c := CommonHeight(a, b, if j < k then k else j);
    (Floor(a, c), c)
  }

  lemma {:induction false} CommonHeightCorrect(a: nat, b: nat, k: nat)
    requires k <= BITS && a < Pow2(BITS) && b < Pow2(BITS)
    ensures var c := CommonHeight(a, b, k);
      && k <= c <= BITS && Floor(a, c) == Floor(b, c)
      && (k < c ==> Floor(a, c - 1) != Floor(b, c - 1))
    decreases BITS - k
  {
    if k == BITS {
      FloorOfAddress(a);
      FloorOfAddress(b);
    } else if Floor(a, k) != Floor(b, k) {
      CommonHeightCorrect(a, b, k + 1);
    }
  }

  /** Clearing the low bits of a block's address gives the bigger block around it. */
  lemma FloorContains(a: nat, j: nat, c: nat)
    requires IsBlock(a, j) && j <= c <= BITS
    ensures IsBlock(Floor(a, c), c) && Within(a, j, Floor(a, c), c) && (c == j ==> Floor(a, c) == a)
  {
    var top := Floor(a, c);
    FloorIsBlock(a, c);
    Nested(a, j, top, c, a);
    AlignedZero(BITS);
    Nested(top, c, 0, BITS, a);
  }

  lemma DifferentHalves(a: nat, b: nat, top: nat, c: nat)
    requires c > 0 && IsBlock(top, c) && InBlock(a, top, c) && InBlock(b, top, c)
    requires Floor(a, c - 1) != Floor(b, c - 1)
    ensures Bit(a, c - 1) <==> !Bit(b, c - 1)
  {
    Halves(top, c);
    BitIsHalf(a, top, c);
    BitIsHalf(b, top, c);
    if Bit(a, c - 1) && Bit(b, c - 1) {
      FloorIsUnique(a, top + Pow2(c - 1), c - 1);
      FloorIsUnique(b, top + Pow2(c - 1), c - 1);
    } else if !Bit(a, c - 1) && !Bit(b, c - 1) {
      FloorIsUnique(a, top, c - 1);
      FloorIsUnique(b, top, c - 1);
    }
  }

  lemma TopBitsDiffer(a: nat, j: nat, b: nat, k: nat, c: nat)
    requires IsBlock(a, j) && IsBlock(b, k) && j < c <= BITS && k < c
    requires Floor(a, c) == Floor(b, c) && Floor(a, c - 1) != Floor(b, c - 1)
    ensures Bit(a, c - 1) <==> !Bit(b, c - 1)
  {
    FloorContains(a, j, c);
    FloorContains(b, k, c);
    DifferentHalves(a, b, Floor(a, c), c);
  }

  /** The ancestor is a block that contains both, and the two lie in different
      halves of it unless it is one of them. */
  lemma AncestorContains(a: nat, j: nat, b: nat, k: nat)
    requires IsBlock(a, j) && IsBlock(b, k)
    ensures var (top, c) := CommonAncestor(a, j, b, k);
      && IsBlock(top, c) && j <= c && k <= c
      && Within(a, j, top, c) && Within(b, k, top, c)
      && (c == j ==> top == a) && (c == k ==> top == b)
      && (c != j && c != k ==> (Bit(a, c - 1) <==> !Bit(b, c - 1)))
  {
    CommonHeightCorrect(a, b, if j < k then k else j);
    var (top, c) := CommonAncestor(a, j, b, k);
    FloorContains(a, j, c);
    FloorContains(b, k, c);
    if c != j && c != k {
      TopBitsDiffer(a, j, b, k, c);
    }
  }

  /** The ancestor is the smallest block that contains both. */
  lemma AncestorIsLeast(a: nat, j: nat, b: nat, k: nat, outer: nat, outerK: nat)
    requires IsBlock(a, j) && IsBlock(b, k) && IsBlock(outer, outerK)
    requires Within(a, j, outer, outerK) && Within(b, k, outer, outerK)
    ensures var (top, c) := CommonAncestor(a, j, b, k);
      c <= outerK && Within(top, c, outer, outerK)
  {
    AncestorContains(a, j, b, k);
    var (top, c) := CommonAncestor(a, j, b, k);
    if c <= outerK {
      Nested(top, c, outer, outerK, a);
    } else {
      Pow2Monotone(outerK, c);
      Halves(top, c);
      BitIsHalf(a, top, c);
      BitIsHalf(b, top, c);
      if Bit(a, c - 1) {
        Spanning(outer, outerK, top, c, b, a);
      } else {
        Spanning(outer, outerK, top, c, a, b);
      }
    }
  }
}
