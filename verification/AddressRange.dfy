/** Networks as ranges of addresses, compared by position with overlap as equality. */
module AddressRange {
  import opened Blocks

  /** A network address: `k` is the number of bits its mask leaves free. */
  datatype Net = Net(address: nat, k: nat)

  datatype Range = Range(lo: nat, hi: nat)

  datatype Ordering = Less | Equal | Greater

  predicate IsNet(n: Net) {
    n.k <= BITS && n.address < Pow2(BITS)
  }

  /** The address has no bits outside the mask. */
  predicate IsCanonical(n: Net) {
    IsNet(n) && Aligned(n.address, n.k)
  }

  /** `a` with its low `k` bits set. */
  function Ceiling(a: nat, k: nat): nat {
    Floor(a, k) + Pow2(k) - 1
  }

  function ToRange(n: Net): Range {
    Range(n.address, Ceiling(n.address, n.k))
  }

  function Point(address: nat): Range {
    Range(address, address)
  }

  /** The mask keeps the leading bits on which both ends agree. */
  function ToNet(r: Range): Net {
    Net(r.lo, CommonHeight(r.lo, r.hi, 0))
  }

  function Compare(r: Range, s: Range): Ordering {
    if r.hi < s.lo && r.lo < s.hi then Less
    else if r.hi > s.lo && r.lo > s.hi then Greater
    else Equal
  }

  lemma CeilingBounds(a: nat, k: nat)
    requires k <= BITS && a < Pow2(BITS)
    ensures a <= Ceiling(a, k) < Pow2(BITS)
  {
    FloorIsBlock(a, k);
    AlignedZero(BITS);
    Nested(Floor(a, k), k, 0, BITS, a);
  }

  lemma {:induction false} HeightBelow(a: nat, b: nat, j: nat, k: nat)
    requires j <= k <= BITS && Floor(a, k) == Floor(b, k)
    ensures CommonHeight(a, b, j) <= k
    decreases k - j
  {
    if j < k && Floor(a, j) != Floor(b, j) { HeightBelow(a, b, j + 1, k); }
  }

  lemma FloorStep(a: nat, j: nat)
    ensures Floor(a, j + 1) == Floor(Floor(a, j), j + 1)
  {
    FloorIsBlock(a, j);
    FloorIsBlock(Floor(a, j), j + 1);
    var top := Floor(Floor(a, j), j + 1);
    Nested(Floor(a, j), j, top, j + 1, Floor(a, j));
    FloorIsUnique(a, top, j + 1);
  }

  lemma {:induction false} FloorAgrees(a: nat, b: nat, j: nat, k: nat)
    requires j <= k && Floor(a, j) == Floor(b, j)
    ensures Floor(a, k) == Floor(b, k)
    decreases k - j
  {
    if j < k {
      FloorStep(a, j);
      FloorStep(b, j);
      FloorAgrees(a, b, j + 1, k);
    }
  }

  /** The number of bits on which an address and its ceiling differ. */
  lemma CeilingHeight(a: nat, k: nat)
    requires k <= BITS && a < Pow2(BITS)
    ensures CommonHeight(a, Ceiling(a, k), 0) == k <==> k == 0 || !Bit(a, k - 1)
  {
    CeilingBounds(a, k);
    var hi := Ceiling(a, k);
    FloorIsBlock(a, k);
    FloorIsUnique(hi, Floor(a, k), k);
    CommonHeightCorrect(a, hi, 0);
    var c := CommonHeight(a, hi, 0);
    HeightBelow(a, hi, 0, k);
    if k > 0 {
      AlignedZero(BITS);
      Nested(Floor(a, k), k, 0, BITS, a);
      Halves(Floor(a, k), k);
      BitIsHalf(a, Floor(a, k), k);
      BitIsHalf(hi, Floor(a, k), k);
      var top := Floor(a, k) + Pow2(k - 1);
      if Bit(a, k - 1) {
        FloorIsUnique(a, top, k - 1);
        FloorIsUnique(hi, top, k - 1);
        HeightBelow(a, hi, 0, k - 1);
      } else {
        FloorIsUnique(a, Floor(a, k), k - 1);
        FloorIsUnique(hi, top, k - 1);
        if c < k { FloorAgrees(a, hi, c, k - 1); }
      }
    }
  }

  /** Converting a network to a range and back gives it back exactly if the highest
      free bit of its address is not set; canonical networks always come back. */
  lemma RoundTrip(n: Net)
    requires IsNet(n)
    ensures ToNet(ToRange(n)) == n <==> n.k == 0 || !Bit(n.address, n.k - 1)
    ensures IsCanonical(n) ==> ToNet(ToRange(n)) == n
  {
    CeilingHeight(n.address, n.k);
    if IsCanonical(n) && n.k > 0 {
      BitIsHalf(n.address, n.address, n.k);
    }
  }

  // ---------------------------------------------------------------------------
  // Canonical networks
  // ---------------------------------------------------------------------------

  predicate Contains(n: Net, x: nat) {
    InBlock(x, n.address, n.k)
  }

  predicate Overlap(n: Net, m: Net) {
    Compare(ToRange(n), ToRange(m)).Equal?
  }

  /** Equality of ranges is overlap, and order is position. */
  lemma OverlapIsMeeting(n: Net, m: Net)
    requires IsCanonical(n) && IsCanonical(m)
    ensures Compare(ToRange(n), ToRange(m)).Equal? <==> exists x: nat :: Contains(n, x) && Contains(m, x)
    ensures Compare(ToRange(n), ToRange(m)).Less? <==> n.address + Pow2(n.k) <= m.address
    ensures Compare(ToRange(n), ToRange(m)).Greater? <==> m.address + Pow2(m.k) <= n.address
  {
    FloorIsUnique(n.address, n.address, n.k);
    FloorIsUnique(m.address, m.address, m.k);
    if Overlap(n, m) {
      var x := if n.address < m.address then m.address else n.address;
      assert Contains(n, x) && Contains(m, x);
    }
  }

  /** A point equals the network that contains it. */
  lemma PointOrder(x: nat, m: Net)
    requires IsCanonical(m)
    ensures Compare(Point(x), ToRange(m)).Equal? <==> Contains(m, x)
    ensures Compare(Point(x), ToRange(m)).Less? <==> x < m.address
    ensures Compare(Point(x), ToRange(m)).Greater? <==> m.address + Pow2(m.k) <= x
  {
    FloorIsUnique(m.address, m.address, m.k);
  }

  /** Equal or disjoint. */
  predicate Separate(n: Net, m: Net) {
    n == m || !Overlap(n, m)
  }

  /** Over separate networks the comparison is a strict total order. */
  lemma OrderIsTotal(a: Net, b: Net, c: Net)
    requires IsCanonical(a) && IsCanonical(b) && IsCanonical(c) && Separate(a, b) && Separate(b, c) && Separate(a, c)
    ensures Compare(ToRange(a), ToRange(b)).Equal? <==> a == b
    ensures Compare(ToRange(a), ToRange(b)).Less? <==> Compare(ToRange(b), ToRange(a)).Greater?
    ensures Compare(ToRange(a), ToRange(b)).Less? && Compare(ToRange(b), ToRange(c)).Less? ==> Compare(ToRange(a), ToRange(c)).Less?
  {
    OverlapIsMeeting(a, b);
    OverlapIsMeeting(b, a);
    OverlapIsMeeting(b, c);
    OverlapIsMeeting(a, c);
    assert Contains(a, a.address);
  }

  /** ... that stays consistent with any point: at most one network equals it, the
      networks before that one are less and those after it are greater. */
  lemma ProbeIsConsistent(x: nat, a: Net, b: Net)
    requires IsCanonical(a) && IsCanonical(b) && Separate(a, b) && Compare(ToRange(a), ToRange(b)).Less?
    ensures !Compare(Point(x), ToRange(a)).Greater? ==> Compare(Point(x), ToRange(b)).Less?
    ensures !Compare(Point(x), ToRange(b)).Less? ==> Compare(Point(x), ToRange(a)).Greater?
  {
    OverlapIsMeeting(a, b);
    PointOrder(x, a);
    PointOrder(x, b);
  }
}
