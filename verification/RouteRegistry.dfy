/** The route registry: one table of routes with an index by gateway and an index by
    destination, the latter ordered for lookups by address. */
module RouteRegistry {
  import opened Blocks
  import opened Options
  import opened AddressRange

  datatype Entry = Entry(message: nat, net: Net, gw: Option<nat>, metric: nat)

  type GwKey = (Option<nat>, Net, nat)
  type DstKey = (Net, nat, nat)

  /** Slot keys are fresh numbers. The keys of the indexes hold ranges in the source; only
      networks that come back from their ranges are ever stored. */
  datatype Tables = Tables(
    entries: map<nat, Entry>,
    nextKey: nat,
    byGw: map<GwKey, nat>,
    byDst: map<DstKey, set<nat>>)

  const EMPTY := Tables(map[], 0, map[], map[])

  function GwKeyOf(e: Entry): GwKey { (e.gw, e.net, e.message) }

  function DstKeyOf(e: Entry): DstKey { (e.net, e.message, e.metric) }

  /** The three tables describe the same routes, and no index entry is empty. */
  ghost predicate Agree(t: Tables) {
    && (forall k :: k in t.entries ==> k < t.nextKey)
    && (forall k :: k in t.entries ==> GwKeyOf(t.entries[k]) in t.byGw && t.byGw[GwKeyOf(t.entries[k])] == k)
    && (forall g :: g in t.byGw ==> t.byGw[g] in t.entries && GwKeyOf(t.entries[t.byGw[g]]) == g)
    && (forall k :: k in t.entries ==> DstKeyOf(t.entries[k]) in t.byDst && k in t.byDst[DstKeyOf(t.entries[k])])
    && (forall d, k :: d in t.byDst && k in t.byDst[d] ==> k in t.entries && DstKeyOf(t.entries[k]) == d)
    && (forall d :: d in t.byDst ==> t.byDst[d] != {})
  }

  ghost function MetricsOf(entries: map<nat, Entry>, byGw: map<GwKey, nat>): map<GwKey, nat>
    requires forall g :: g in byGw ==> byGw[g] in entries
  {
    map g | g in byGw :: entries[byGw[g]].metric
  }

  /** The routes: (gateway, network, message) to metric. */
  ghost function Routes(t: Tables): map<GwKey, nat>
    requires Agree(t)
  {
    MetricsOf(t.entries, t.byGw)
  }

  // ---------------------------------------------------------------------------
  // Updates
  // ---------------------------------------------------------------------------

  /** Adds a slot to the set of a destination, creating it if needed. */
  function Joined(byDst: map<DstKey, set<nat>>, d: DstKey, k: nat): map<DstKey, set<nat>> {
    byDst[d := (if d in byDst then byDst[d] else {}) + {k}]
  }

  /** Takes a slot from the set of a destination, removing the set if it gets empty. */
  function Parted(byDst: map<DstKey, set<nat>>, d: DstKey, k: nat): map<DstKey, set<nat>>
    requires d in byDst
  {
    if byDst[d] - {k} == {} then byDst - {d} else byDst[d := byDst[d] - {k}]
  }

  function Inserted(t: Tables, e: Entry): Tables {
    Tables(t.entries[t.nextKey := e], t.nextKey + 1, t.byGw[GwKeyOf(e) := t.nextKey], Joined(t.byDst, DstKeyOf(e), t.nextKey))
  }

  ghost predicate Known(t: Tables, g: GwKey) {
    Agree(t) && g in t.byGw
  }

  function Changed(t: Tables, g: GwKey, metric: nat): Tables
    requires Known(t, g)
  {
    var k := t.byGw[g];
    var e := t.entries[k];
    t.(entries := t.entries[k := e.(metric := metric)],
       byDst := Parted(Joined(t.byDst, DstKeyOf(e.(metric := metric)), k), DstKeyOf(e), k))
  }

  function Deleted(t: Tables, g: GwKey): Tables
    requires Known(t, g)
  {
    var k := t.byGw[g];
    t.(entries := t.entries - {k}, byGw := t.byGw - {g}, byDst := Parted(t.byDst, DstKeyOf(t.entries[k]), k))
  }

  /** A slot about to be given out is in no destination set. */
  lemma SlotIsNew(t: Tables)
    requires Agree(t)
    ensures forall d :: d in t.byDst ==> t.nextKey !in t.byDst[d]
  {
    assert t.nextKey !in t.entries;
  }

  /** The slot of a route is in the set of its destination. */
  lemma SlotIsIndexed(t: Tables, g: GwKey)
    requires Known(t, g)
    ensures var d := DstKeyOf(t.entries[t.byGw[g]]); d in t.byDst && t.byGw[g] in t.byDst[d]
  {
  }

  lemma InsertedDst(t: Tables, e: Entry)
    requires Agree(t)
    ensures var u := Inserted(t, e);
      && (forall k :: k in u.entries ==> DstKeyOf(u.entries[k]) in u.byDst && k in u.byDst[DstKeyOf(u.entries[k])])
      && (forall d, k :: d in u.byDst && k in u.byDst[d] ==> k in u.entries && DstKeyOf(u.entries[k]) == d)
      && (forall d :: d in u.byDst ==> u.byDst[d] != {})
  {
    var u, slot := Inserted(t, e), t.nextKey;
    assert slot !in t.entries;
    forall d, k | d in u.byDst && k in u.byDst[d] ensures k in u.entries && DstKeyOf(u.entries[k]) == d {
      assert k == slot || (d in t.byDst && k in t.byDst[d]);
    }
    forall k | k in u.entries ensures DstKeyOf(u.entries[k]) in u.byDst && k in u.byDst[DstKeyOf(u.entries[k])] {
      assert k != slot ==> k in t.byDst[DstKeyOf(t.entries[k])];
    }
  }

  lemma InsertedGw(t: Tables, e: Entry)
    requires Agree(t) && GwKeyOf(e) !in t.byGw
    ensures var u := Inserted(t, e);
      && (forall k :: k in u.entries ==> k < u.nextKey)
      && (forall k :: k in u.entries ==> GwKeyOf(u.entries[k]) in u.byGw && u.byGw[GwKeyOf(u.entries[k])] == k)
      && (forall g :: g in u.byGw ==> u.byGw[g] in u.entries && GwKeyOf(u.entries[u.byGw[g]]) == g)
  {
    assert t.nextKey !in t.entries;
  }

  lemma InsertedAgree(t: Tables, e: Entry)
    requires Agree(t) && GwKeyOf(e) !in t.byGw
    ensures Agree(Inserted(t, e))
  {
    InsertedDst(t, e);
    InsertedGw(t, e);
  }

  lemma MetricsGrow(entries: map<nat, Entry>, byGw: map<GwKey, nat>, k: nat, e: Entry, g: GwKey)
    requires k !in entries && forall x :: x in byGw ==> byGw[x] in entries
    ensures MetricsOf(entries[k := e], byGw[g := k]) == MetricsOf(entries, byGw)[g := e.metric]
  {
  }

  lemma InsertedAgrees(t: Tables, e: Entry)
    requires Agree(t) && GwKeyOf(e) !in t.byGw
    ensures Agree(Inserted(t, e)) && Routes(Inserted(t, e)) == Routes(t)[GwKeyOf(e) := e.metric]
  {
    InsertedAgree(t, e);
    assert t.nextKey !in t.entries;
    MetricsGrow(t.entries, t.byGw, t.nextKey, e, GwKeyOf(e));
  }

  lemma DeletedDst(t: Tables, g: GwKey)
    requires Known(t, g)
    ensures var u := Deleted(t, g);
      && (forall k :: k in u.entries ==> DstKeyOf(u.entries[k]) in u.byDst && k in u.byDst[DstKeyOf(u.entries[k])])
      && (forall d, k :: d in u.byDst && k in u.byDst[d] ==> k in u.entries && DstKeyOf(u.entries[k]) == d)
      && (forall d :: d in u.byDst ==> u.byDst[d] != {})
  {
    var u, gone := Deleted(t, g), t.byGw[g];
    var before := DstKeyOf(t.entries[gone]);
    forall k | k in u.entries ensures DstKeyOf(u.entries[k]) in u.byDst && k in u.byDst[DstKeyOf(u.entries[k])] {
      assert k in t.byDst[DstKeyOf(t.entries[k])];
      if DstKeyOf(t.entries[k]) == before { assert k in t.byDst[before] - {gone}; }
    }
    forall d, k | d in u.byDst && k in u.byDst[d] ensures k in u.entries && DstKeyOf(u.entries[k]) == d {
      assert d in t.byDst && k in t.byDst[d];
      assert k != gone;
    }
  }

  lemma DeletedGw(t: Tables, g: GwKey)
    requires Known(t, g)
    ensures var u := Deleted(t, g);
      && (forall k :: k in u.entries ==> k < u.nextKey)
      && (forall k :: k in u.entries ==> GwKeyOf(u.entries[k]) in u.byGw && u.byGw[GwKeyOf(u.entries[k])] == k)
      && (forall h :: h in u.byGw ==> u.byGw[h] in u.entries && GwKeyOf(u.entries[u.byGw[h]]) == h)
  {
    var u := Deleted(t, g);
    assert u.entries == t.entries - {t.byGw[g]} && u.byGw == t.byGw - {g} && u.nextKey == t.nextKey;
  }

  lemma MetricsShrink(entries: map<nat, Entry>, byGw: map<GwKey, nat>, g: GwKey)
    requires g in byGw && forall x :: x in byGw ==> byGw[x] in entries && GwKeyOf(entries[byGw[x]]) == x
    ensures forall x :: x in byGw - {g} ==> (byGw - {g})[x] in entries - {byGw[g]}
    ensures MetricsOf(entries - {byGw[g]}, byGw - {g}) == MetricsOf(entries, byGw) - {g}
  {
  }

  lemma DeletedAgrees(t: Tables, g: GwKey)
    requires Known(t, g)
    ensures Agree(Deleted(t, g)) && Routes(Deleted(t, g)) == Routes(t) - {g}
  {
    DeletedDst(t, g);
    DeletedGw(t, g);
    MetricsShrink(t.entries, t.byGw, g);
  }

  lemma ChangedDst(t: Tables, g: GwKey, metric: nat)
    requires Known(t, g) && t.entries[t.byGw[g]].metric != metric
    ensures var u := Changed(t, g, metric);
      && (forall k :: k in u.entries ==> DstKeyOf(u.entries[k]) in u.byDst && k in u.byDst[DstKeyOf(u.entries[k])])
      && (forall d, k :: d in u.byDst && k in u.byDst[d] ==> k in u.entries && DstKeyOf(u.entries[k]) == d)
      && (forall d :: d in u.byDst ==> u.byDst[d] != {})
  {
    var u, moved := Changed(t, g, metric), t.byGw[g];
    var before, after := DstKeyOf(t.entries[moved]), DstKeyOf(u.entries[moved]);
    assert before != after;
    forall k | k in u.entries ensures DstKeyOf(u.entries[k]) in u.byDst && k in u.byDst[DstKeyOf(u.entries[k])] {
      if k != moved {
        assert k in t.byDst[DstKeyOf(t.entries[k])];
        if DstKeyOf(t.entries[k]) == before { assert k in t.byDst[before] - {moved}; }
      }
    }
    forall d, k | d in u.byDst && k in u.byDst[d] ensures k in u.entries && DstKeyOf(u.entries[k]) == d {
      if k != moved { assert d in t.byDst && k in t.byDst[d]; }
    }
  }

  lemma ChangedAgrees(t: Tables, g: GwKey, metric: nat)
    requires Known(t, g) && t.entries[t.byGw[g]].metric != metric
    ensures Agree(Changed(t, g, metric)) && Routes(Changed(t, g, metric)) == Routes(t)[g := metric]
  {
    ChangedDst(t, g, metric);
    var u := Changed(t, g, metric);
    assert Agree(u);
    forall x | x in u.byGw ensures Routes(u)[x] == Routes(t)[g := metric][x] {
      if x != g { assert t.byGw[x] != t.byGw[g]; }
    }
  }

  // ---------------------------------------------------------------------------
  // Lookups by destination
  // ---------------------------------------------------------------------------

  lemma DstHasRoute(t: Tables, d: DstKey) returns (g: GwKey)
    requires Agree(t) && d in t.byDst
    ensures g in t.byGw && g.1 == d.0
  {
    var k :| k in t.byDst[d];
    g := GwKeyOf(t.entries[k]);
  }

  lemma RouteHasDst(t: Tables, g: GwKey) returns (d: DstKey)
    requires Agree(t) && g in t.byGw
    ensures d in t.byDst && d.0 == g.1
  {
    d := DstKeyOf(t.entries[t.byGw[g]]);
  }

  /** The order of the index: range, then message, then metric. */
  function CompareKeys(r: Range, message: nat, metric: nat, s: Range, message': nat, metric': nat): Ordering {
    var byRange := Compare(r, s);
    if !byRange.Equal? then byRange
    else if message != message' then (if message < message' then Less else Greater)
    else if metric != metric' then (if metric < metric' then Less else Greater)
    else Equal
  }

  predicate Lower(d: DstKey, e: DstKey) {
    CompareKeys(ToRange(d.0), d.1, d.2, ToRange(e.0), e.1, e.2).Less?
  }

  datatype Probe = Probe(range: Range, message: nat, metric: nat)

  predicate IsBelow(d: DstKey, p: Probe) {
    CompareKeys(ToRange(d.0), d.1, d.2, p.range, p.message, p.metric).Less?
  }

  /** The networks of the routes are canonical and pairwise equal or disjoint. */
  ghost predicate Separated(t: Tables) {
    && (forall d :: d in t.byDst ==> IsCanonical(d.0))
    && (forall d, e :: d in t.byDst && e in t.byDst ==> Separate(d.0, e.0))
  }

  /** The first key that is not below the probe. */
  ghost predicate IsNext(t: Tables, p: Probe, d: DstKey) {
    && d in t.byDst && !IsBelow(d, p)
    && forall e :: e in t.byDst && !IsBelow(e, p) ==> d == e || Lower(d, e)
  }

  /** The last key below the probe. */
  ghost predicate IsPrevious(t: Tables, p: Probe, d: DstKey) {
    && d in t.byDst && IsBelow(d, p)
    && forall e :: e in t.byDst && IsBelow(e, p) ==> d == e || Lower(e, d)
  }

  /** The keys below the probe come first. A search of the ordered index relies on it. */
  ghost predicate Consistent(t: Tables, p: Probe) {
    forall d, e :: d in t.byDst && e in t.byDst && Lower(d, e) && IsBelow(e, p) ==> IsBelow(d, p)
  }

  lemma KeyOrder(t: Tables, d: DstKey, e: DstKey, f: DstKey)
    requires Separated(t) && d in t.byDst && e in t.byDst && f in t.byDst
    ensures d == e || Lower(d, e) || Lower(e, d)
    ensures !(Lower(d, e) && Lower(e, d))
    ensures Lower(d, e) && Lower(e, f) ==> Lower(d, f)
  {
    OrderIsTotal(d.0, e.0, f.0);
    OrderIsTotal(e.0, d.0, f.0);
    OrderIsTotal(e.0, f.0, d.0);
    OrderIsTotal(d.0, f.0, e.0);
  }

  /** Finds some key, and for a consistent probe the first one that is not below it. */
  method FindNext(t: Tables, p: Probe) returns (r: Option<DstKey>)
    requires Separated(t)
    ensures r.Some? ==> r.value in t.byDst
    ensures Consistent(t, p) && r.None? ==> forall d :: d in t.byDst ==> IsBelow(d, p)
    ensures Consistent(t, p) && r.Some? ==> IsNext(t, p, r.value)
  {
    r := None;
    var rest := t.byDst.Keys;
    while rest != {}
      invariant rest <= t.byDst.Keys
      invariant r.None? ==> forall d :: d in t.byDst && d !in rest ==> IsBelow(d, p)
      invariant r.Some? ==> r.value in t.byDst && !IsBelow(r.value, p)
      invariant r.Some? ==> forall e :: e in t.byDst && e !in rest && !IsBelow(e, p) ==> r.value == e || Lower(r.value, e)
      decreases rest
    {
      var d :| d in rest;
      if !IsBelow(d, p) && (r.None? || Lower(d, r.value)) {
        if r.Some? {
          forall e | e in t.byDst && e !in rest && !IsBelow(e, p) ensures d == e || Lower(d, e) { KeyOrder(t, d, r.value, e); }
        }
        r := Some(d);
      } else if r.Some? {
        KeyOrder(t, d, r.value, d);
      }
      rest := rest - {d};
    }
  }

  /** Finds some key, and for a consistent probe the last one below it. */
  method FindPrevious(t: Tables, p: Probe) returns (r: Option<DstKey>)
    requires Separated(t)
    ensures r.Some? ==> r.value in t.byDst
    ensures Consistent(t, p) && r.None? ==> forall d :: d in t.byDst ==> !IsBelow(d, p)
    ensures Consistent(t, p) && r.Some? ==> IsPrevious(t, p, r.value)
  {
    r := None;
    var rest := t.byDst.Keys;
    while rest != {}
      invariant rest <= t.byDst.Keys
      invariant r.None? ==> forall d :: d in t.byDst && d !in rest ==> !IsBelow(d, p)
      invariant r.Some? ==> r.value in t.byDst && IsBelow(r.value, p)
      invariant r.Some? ==> forall e :: e in t.byDst && e !in rest && IsBelow(e, p) ==> r.value == e || Lower(e, r.value)
      decreases rest
    {
      var d :| d in rest;
      if IsBelow(d, p) && (r.None? || Lower(r.value, d)) {
        if r.Some? {
          forall e | e in t.byDst && e !in rest && IsBelow(e, p) ensures d == e || Lower(e, d) { KeyOrder(t, e, r.value, d); }
        }
        r := Some(d);
      } else if r.Some? {
        KeyOrder(t, d, r.value, d);
      }
      rest := rest - {d};
    }
  }

  /** A route for this message whose network contains the address. */
  ghost predicate Covers(g: GwKey, message: nat, address: nat) {
    g.2 == message && Contains(g.1, address)
  }

  ghost predicate Covered(t: Tables, message: nat, address: nat) {
    exists g :: g in t.byGw && Covers(g, message, address)
  }

  function RouteProbe(message: nat, address: nat): Probe {
    Probe(Point(address), message, 0)
  }

  lemma ProbeSees(d: DstKey, message: nat, address: nat)
    requires IsCanonical(d.0)
    ensures IsBelow(d, RouteProbe(message, address))
      <==> d.0.address + Pow2(d.0.k) <= address || (Contains(d.0, address) && d.1 < message)
  {
    FloorIsUnique(d.0.address, d.0.address, d.0.k);
  }

  /** The probe for an address is always consistent. */
  lemma PointIsConsistent(t: Tables, message: nat, address: nat)
    requires Separated(t)
    ensures Consistent(t, RouteProbe(message, address))
  {
    var p := RouteProbe(message, address);
    forall d, e | d in t.byDst && e in t.byDst && Lower(d, e) && IsBelow(e, p) ensures IsBelow(d, p) {
      ProbeSees(d, message, address);
      ProbeSees(e, message, address);
      OverlapIsMeeting(d.0, e.0);
      assert Contains(d.0, d.0.address);
    }
  }

  /** If some route covers the message and the address, the key found is of such a
      route, and no other such route has a smaller metric. */
  lemma NextIsCheapest(t: Tables, message: nat, address: nat, d: DstKey, g: GwKey)
    requires Agree(t) && Separated(t) && IsNext(t, RouteProbe(message, address), d)
    requires g in t.byGw && Covers(g, message, address)
    ensures d.1 == message && Contains(d.0, address) && d.2 <= Routes(t)[g]
  {
    var e := DstKeyOf(t.entries[t.byGw[g]]);
    assert e in t.byDst && e.0 == g.1 && e.1 == message;
    ProbeSees(e, message, address);
    ProbeSees(d, message, address);
    assert d == e || Lower(d, e);
    if d.0 != e.0 {
      OverlapIsMeeting(d.0, e.0);
      assert false;
    }
    OverlapIsMeeting(d.0, e.0);
    assert Contains(d.0, address) && Contains(e.0, address);
  }

  lemma CoveredIsNotBelow(t: Tables, message: nat, address: nat)
    requires Agree(t) && Separated(t) && Covered(t, message, address)
    ensures exists d :: d in t.byDst && !IsBelow(d, RouteProbe(message, address))
  {
    var g :| g in t.byGw && Covers(g, message, address);
    var e := DstKeyOf(t.entries[t.byGw[g]]);
    ProbeSees(e, message, address);
    assert e in t.byDst;
  }

  lemma NextIsUnique(t: Tables, p: Probe, d: DstKey)
    requires Separated(t) && IsNext(t, p, d)
    ensures forall e :: IsNext(t, p, e) ==> e == d
  {
    forall e | IsNext(t, p, e) ensures e == d { KeyOrder(t, d, e, d); }
  }

  /** Without a key of the message to go on with, nothing is covered. */
  lemma NotAnswered(t: Tables, message: nat, address: nat, next: Option<DstKey>)
    requires Agree(t) && Separated(t) && (next.None? || next.value.1 != message)
    requires next.None? ==> forall d :: d in t.byDst ==> IsBelow(d, RouteProbe(message, address))
    requires next.Some? ==> IsNext(t, RouteProbe(message, address), next.value)
    ensures !Covered(t, message, address)
    ensures forall d :: IsNext(t, RouteProbe(message, address), d) ==> d.1 != message
  {
    if next.Some? { NextIsUnique(t, RouteProbe(message, address), next.value); }
    if g :| g in t.byGw && Covers(g, message, address) {
      if next.None? {
        CoveredIsNotBelow(t, message, address);
      } else {
        NextIsCheapest(t, message, address, next.value, g);
      }
    }
  }

  /** The route of a slot of the key found answers what is covered, and cheapest. */
  lemma Answered(t: Tables, message: nat, address: nat, d: DstKey, key: nat)
    requires Agree(t) && Separated(t) && IsNext(t, RouteProbe(message, address), d) && d.1 == message && key in t.byDst[d]
    ensures key in t.entries && Covered(t, message, address) ==>
      && (t.entries[key].gw, d.0, message) in t.byGw && Covers((t.entries[key].gw, d.0, message), message, address)
      && Routes(t)[(t.entries[key].gw, d.0, message)] == t.entries[key].metric
      && forall g :: g in t.byGw && Covers(g, message, address) ==> t.entries[key].metric <= Routes(t)[g]
  {
    var e := t.entries[key];
    assert GwKeyOf(e) == (e.gw, d.0, message);
    forall g | g in t.byGw && Covers(g, message, address) ensures Contains(d.0, address) && e.metric <= Routes(t)[g] {
      NextIsCheapest(t, message, address, d, g);
    }
  }

  datatype Found = NoRoute | Route(gw: Option<nat>, metric: nat)

  /** Looks a route up. Of several routes with the same key any may be taken.
      If a route covers the message and the address, the result is such a route of
      least metric. Otherwise the next key decides: it is taken for an answer if its
      message happens to be the right one, although its network is not. */
  method FindRoute(t: Tables, message: nat, address: nat) returns (r: Found)
    requires Agree(t) && Separated(t)
    ensures Covered(t, message, address) ==>
      && r.Route?
      && (exists net :: (r.gw, net, message) in t.byGw && Covers((r.gw, net, message), message, address)
            && Routes(t)[(r.gw, net, message)] == r.metric)
      && (forall g :: g in t.byGw && Covers(g, message, address) ==> r.metric <= Routes(t)[g])
    ensures !Covered(t, message, address) ==>
      (r.Route? <==> exists d :: IsNext(t, RouteProbe(message, address), d) && d.1 == message)
  {
    var p := RouteProbe(message, address);
    PointIsConsistent(t, message, address);
    var next := FindNext(t, p);
    if next.None? || next.value.1 != message {
      NotAnswered(t, message, address, next);
      return NoRoute;
    }
    var d := next.value;
    var key :| key in t.byDst[d];
    Answered(t, message, address, d, key);
    return Route(t.entries[key].gw, t.entries[key].metric);
  }

  /** A network that meets at most one network of the table. */
  ghost predicate MeetsAtMostOne(t: Tables, net: Net) {
    forall d, e :: d in t.byDst && e in t.byDst && Overlap(d.0, net) && Overlap(e.0, net) ==> d.0 == e.0
  }

  lemma RegisteredMeetsOne(t: Tables, d: DstKey)
    requires Separated(t) && d in t.byDst
    ensures MeetsAtMostOne(t, d.0) && Overlap(d.0, d.0)
  {
    OverlapIsMeeting(d.0, d.0);
    assert Contains(d.0, d.0.address);
  }

  /** The probe for a network that meets at most one network of the table is consistent. */
  lemma MeetingOneIsConsistent(t: Tables, net: Net, message: nat, metric: nat)
    requires Separated(t) && IsNet(net) && MeetsAtMostOne(t, net)
    ensures Consistent(t, Probe(ToRange(net), message, metric))
  {
    var p := Probe(ToRange(net), message, metric);
    CeilingBounds(net.address, net.k);
    forall d, e | d in t.byDst && e in t.byDst && Lower(d, e) && IsBelow(e, p) ensures IsBelow(d, p) {
      if d.0 != e.0 {
        OverlapIsMeeting(d.0, e.0);
        CeilingBounds(d.0.address, d.0.k);
        CeilingBounds(e.0.address, e.0.k);
        FloorIsUnique(d.0.address, d.0.address, d.0.k);
      }
    }
  }

  /** The keys of a network lie together in the order, so the probe finds one of them
      just before or just after it, wherever it falls. */
  lemma NeighbourHasNet(t: Tables, net: Net, message: nat, d: DstKey, e: DstKey)
    requires Separated(t) && d in t.byDst && d.0 == net && e in t.byDst
    requires var p := Probe(ToRange(net), message, 0);
      if IsBelow(d, p) then IsPrevious(t, p, e) else IsNext(t, p, e)
    ensures e.0 == net
  {
    OverlapIsMeeting(e.0, net);
    OverlapIsMeeting(net, e.0);
    OverlapIsMeeting(net, net);
    assert Separate(e.0, d.0);
    assert Contains(net, net.address);
  }

  lemma RegisteredNeighbour(t: Tables, net: Net, message: nat, d: DstKey, previous: Option<DstKey>, next: Option<DstKey>)
    requires Separated(t) && d in t.byDst && d.0 == net
    requires var p := Probe(ToRange(net), message, 0);
      Consistent(t, p) ==>
        && (if previous.Some? then IsPrevious(t, p, previous.value) else forall d :: d in t.byDst ==> !IsBelow(d, p))
        && (if next.Some? then IsNext(t, p, next.value) else forall d :: d in t.byDst ==> IsBelow(d, p))
    ensures (previous.Some? && previous.value.0 == net) || (next.Some? && next.value.0 == net)
  {
    RegisteredMeetsOne(t, d);
    MeetingOneIsConsistent(t, net, message, 0);
    if IsBelow(d, Probe(ToRange(net), message, 0)) {
      NeighbourHasNet(t, net, message, d, previous.value);
    } else {
      NeighbourHasNet(t, net, message, d, next.value);
    }
  }

  /** One of the two keys found has the network exactly if a route has, whatever network
      it is: a probe that is not consistent is for a network that no route has. */
  lemma NeighboursTell(t: Tables, net: Net, message: nat, previous: Option<DstKey>, next: Option<DstKey>)
    requires Agree(t) && Separated(t)
    requires (previous.Some? ==> previous.value in t.byDst) && (next.Some? ==> next.value in t.byDst)
    requires var p := Probe(ToRange(net), message, 0);
      Consistent(t, p) ==>
        && (if previous.Some? then IsPrevious(t, p, previous.value) else forall d :: d in t.byDst ==> !IsBelow(d, p))
        && (if next.Some? then IsNext(t, p, next.value) else forall d :: d in t.byDst ==> IsBelow(d, p))
    ensures (exists g :: g in t.byGw && g.1 == net)
      <==> (previous.Some? && previous.value.0 == net) || (next.Some? && next.value.0 == net)
  {
    if previous.Some? { var g := DstHasRoute(t, previous.value); }
    if next.Some? { var g := DstHasRoute(t, next.value); }
    if exists g :: g in t.byGw && g.1 == net {
      var g :| g in t.byGw && g.1 == net;
      var d := RouteHasDst(t, g);
      RegisteredNeighbour(t, net, message, d, previous, next);
    }
  }

  /** Whether some route has this network. The default message of the probe is a
      parameter: it may be anywhere in the order. */
  method ContainsNet(t: Tables, net: Net, defaultMessage: nat) returns (found: bool)
    requires Agree(t) && Separated(t)
    ensures found <==> exists g :: g in t.byGw && g.1 == net
  {
    var p := Probe(ToRange(net), defaultMessage, 0);
    var previous := FindPrevious(t, p);
    var next := FindNext(t, p);
    found := (previous.Some? && ToNet(ToRange(previous.value.0)) == net)
          || (next.Some? && ToNet(ToRange(next.value.0)) == net);
    if previous.Some? { RoundTrip(previous.value.0); }
    if next.Some? { RoundTrip(next.value.0); }
    NeighboursTell(t, net, defaultMessage, previous, next);
  }

  // ---------------------------------------------------------------------------
  // Setting a route
  // ---------------------------------------------------------------------------

  datatype SetResult = Conflict(net: Net) | Done(previous: Option<nat>)

  /** The route update on a plain map. */
  function Updated(routes: map<GwKey, nat>, g: GwKey, metric: Option<nat>): map<GwKey, nat> {
    if metric.Some? then routes[g := metric.value] else routes - {g}
  }

  function Lookup(routes: map<GwKey, nat>, g: GwKey): Option<nat> {
    if g in routes then Some(routes[g]) else None
  }

  /** Another network in the way: it meets `g`'s and is used by a route of the same
      gateway, or by one of the metric to be set. */
  ghost predicate InTheWay(routes: map<GwKey, nat>, g: GwKey, metric: Option<nat>, net: Net) {
    && net != g.1 && Overlap(net, g.1)
    && ((g.0, net, g.2) in routes
        || (metric.Some? && exists gw :: (gw, net, g.2) in routes && routes[(gw, net, g.2)] == metric.value))
  }

  /** A network is in the way exactly if a route of the message with the same gateway or
      metric has it, and it is another one that overlaps. */
  lemma WhatIsInTheWay(routes: map<GwKey, nat>, g: GwKey, metric: Option<nat>)
    ensures forall n :: InTheWay(routes, g, metric, n) <==>
              && n != g.1 && Overlap(n, g.1)
              && exists h :: h in routes && h.1 == n && h.2 == g.2 && (h.0 == g.0 || metric == Some(routes[h]))
  {
    forall n ensures InTheWay(routes, g, metric, n) <==>
              && n != g.1 && Overlap(n, g.1)
              && exists h :: h in routes && h.1 == n && h.2 == g.2 && (h.0 == g.0 || metric == Some(routes[h]))
    {
      if h :| h in routes && h.1 == n && h.2 == g.2 && (h.0 == g.0 || metric == Some(routes[h])) {
        assert h == (h.0, n, g.2);
      }
    }
  }

  ghost predicate Fits(routes: map<GwKey, nat>, net: Net) {
    forall g :: g in routes ==> Separate(g.1, net)
  }

  lemma DstInTheWay(t: Tables, g: GwKey, metric: Option<nat>, d: DstKey)
    requires Agree(t) && metric.Some? && d in t.byDst && d.0 != g.1 && Overlap(d.0, g.1) && d.1 == g.2 && d.2 == metric.value
    ensures InTheWay(Routes(t), g, metric, d.0)
  {
    var k :| k in t.byDst[d];
    var e := t.entries[k];
    assert (e.gw, d.0, g.2) in t.byGw && Routes(t)[(e.gw, d.0, g.2)] == metric.value;
  }

  /** What the two searches find decides for the one network that can be met. */
  lemma OnlyOneMet(t: Tables, g: GwKey, metric: Option<nat>)
    requires Agree(t) && MeetsAtMostOne(t, g.1)
    requires || (forall h :: h in t.byGw && h.0 == g.0 && h.2 == g.2 ==> !Overlap(h.1, g.1))
             || (exists h :: h in t.byGw && h.1 == g.1 && Overlap(g.1, g.1))
    requires metric.Some? ==>
      || (forall d :: d in t.byDst && d.1 == g.2 && d.2 == metric.value ==> !Overlap(d.0, g.1))
      || (exists d :: d in t.byDst && d.0 == g.1 && Overlap(g.1, g.1))
    ensures forall n :: !InTheWay(Routes(t), g, metric, n)
  {
    forall n ensures !InTheWay(Routes(t), g, metric, n) {
      if InTheWay(Routes(t), g, metric, n) {
        var h :| h in t.byGw && h.1 == n && h.2 == g.2 && (h.0 == g.0 || (metric.Some? && Routes(t)[h] == metric.value));
        var d := RouteHasDst(t, h);
        assert d.0 == n;
        assert DstKeyOf(t.entries[t.byGw[h]]) in t.byDst;
        if x :| x in t.byGw && x.1 == g.1 && Overlap(g.1, g.1) { var e := RouteHasDst(t, x); }
      }
    }
  }

  /** A route that is there is found: its network meets no other. */
  lemma RegisteredIsKnown(t: Tables, g: GwKey)
    requires Agree(t) && Separated(t)
    ensures g in t.byGw ==> MeetsAtMostOne(t, g.1) && Overlap(g.1, g.1)
  {
    if g in t.byGw {
      var d := RouteHasDst(t, g);
      RegisteredMeetsOne(t, d);
    }
  }

  ghost predicate SeparateRoutes(routes: map<GwKey, nat>) {
    && (forall g :: g in routes ==> IsCanonical(g.1))
    && (forall g, h :: g in routes && h in routes ==> Separate(g.1, h.1))
  }

  lemma SeparatedByRoutes(t: Tables)
    requires Agree(t)
    ensures Separated(t) <==> SeparateRoutes(Routes(t))
  {
    if SeparateRoutes(Routes(t)) {
      forall d | d in t.byDst ensures IsCanonical(d.0) { var g := DstHasRoute(t, d); }
      forall d, e | d in t.byDst && e in t.byDst ensures Separate(d.0, e.0) {
        var g := DstHasRoute(t, d);
        var h := DstHasRoute(t, e);
      }
    }
    if Separated(t) {
      forall g | g in Routes(t) ensures IsCanonical(g.1) { var d := RouteHasDst(t, g); }
      forall g, h | g in Routes(t) && h in Routes(t) ensures Separate(g.1, h.1) {
        var d := RouteHasDst(t, g);
        var e := RouteHasDst(t, h);
      }
    }
  }

  lemma SeparateAfter(before: map<GwKey, nat>, g: GwKey, metric: Option<nat>)
    requires SeparateRoutes(before)
    ensures SeparateRoutes(Updated(before, g, metric)) <==> metric.None? || (IsCanonical(g.1) && Fits(before, g.1))
  {
    var after := Updated(before, g, metric);
    if metric.Some? {
      assert g in after;
      forall h | h in before ensures h in after {}
      if IsCanonical(g.1) && Fits(before, g.1) {
        forall x, y | x in after && y in after ensures Separate(x.1, y.1) {
          if x == g && y != g { assert Separate(y.1, g.1); }
        }
      }
    }
  }

  lemma SeparationAfter(t: Tables, u: Tables, g: GwKey, metric: Option<nat>)
    requires Agree(t) && Separated(t) && Agree(u) && Routes(u) == Updated(Routes(t), g, metric)
    ensures Separated(u) <==> metric.None? || (IsCanonical(g.1) && Fits(Routes(t), g.1))
  {
    SeparatedByRoutes(t);
    SeparatedByRoutes(u);
    SeparateAfter(Routes(t), g, metric);
  }

  class Registry {
    var entries: map<nat, Entry>
    var nextKey: nat
    var byGw: map<GwKey, nat>
    var byDst: map<DstKey, set<nat>>

    ghost function State(): Tables
      reads this
    {
      Tables(entries, nextKey, byGw, byDst)
    }

    ghost predicate Valid()
      reads this
    {
      Agree(State()) && Separated(State())
    }

    constructor ()
      ensures Valid() && State() == EMPTY && Routes(State()) == map[]
    {
      entries, nextKey, byGw, byDst := map[], 0, map[], map[];
    }

    /** Looks for a key that compares equal to the one given. Where the network meets
        several others the order says nothing about it, and the search may miss. */
    method EqualDst(net: Net, message: nat, metric: nat) returns (r: Option<DstKey>)
      ensures r.Some? ==> r.value in byDst && Overlap(r.value.0, net) && r.value.1 == message && r.value.2 == metric
      ensures r.None? && MeetsAtMostOne(State(), net) ==>
                forall d :: d in byDst && d.1 == message && d.2 == metric ==> !Overlap(d.0, net)
    {
      if d :| d in byDst && Overlap(d.0, net) && d.1 == message && d.2 == metric { r := Some(d); } else { r := None; }
    }

    method EqualGw(gw: Option<nat>, net: Net, message: nat) returns (r: Option<GwKey>)
      ensures r.Some? ==> r.value in byGw && Overlap(r.value.1, net) && r.value.0 == gw && r.value.2 == message
      ensures r.None? && MeetsAtMostOne(State(), net) ==>
                forall g :: g in byGw && g.0 == gw && g.2 == message ==> !Overlap(g.1, net)
    {
      if g :| g in byGw && Overlap(g.1, net) && g.0 == gw && g.2 == message { r := Some(g); } else { r := None; }
    }

    /** Looks for an index key that compares equal but has another network; a key not yet
        there has the network its own range is converted to. Without a conflict `known`
        says whether the route is there. */
    method FindConflict(message: nat, net: Net, gw: Option<nat>, metric: Option<nat>) returns (r: Option<Net>, known: bool)
      requires Valid()
      ensures r.Some? ==> r.value != net
      ensures r.Some? ==> InTheWay(Routes(State()), (gw, net, message), metric, r.value) || r.value == ToNet(ToRange(net))
      ensures r.None? ==> ToNet(ToRange(net)) == net && (known <==> (gw, net, message) in byGw)
      ensures r.None? && MeetsAtMostOne(State(), net) ==> forall n :: !InTheWay(Routes(State()), (gw, net, message), metric, n)
    {
      ghost var g := (gw, net, message);
      known := false;
      if metric.Some? {
        var d := EqualDst(net, message, metric.value);
        var existing := ToNet(if d.Some? then ToRange(d.value.0) else ToRange(net));
        if d.Some? { RoundTrip(d.value.0); }
        if existing != net {
          if d.Some? { DstInTheWay(State(), g, metric, d.value); }
          return Some(existing), known;
        }
      }
      var h := EqualGw(gw, net, message);
      var existing := ToNet(if h.Some? then ToRange(h.value.1) else ToRange(net));
      if h.Some? {
        ghost var e := RouteHasDst(State(), h.value);
        RoundTrip(h.value.1);
      }
      if existing != net { return Some(existing), known; }
      known := h.Some?;
      RegisteredIsKnown(State(), g);
      if MeetsAtMostOne(State(), net) { OnlyOneMet(State(), g, metric); }
      return None, known;
    }

    /** Adds a route. Its slot is in no destination set yet. */
    method Insert(entry: Entry)
      requires Agree(State()) && GwKeyOf(entry) !in byGw
      modifies this
      ensures State() == Inserted(old(State()), entry)
      ensures Agree(State()) && Routes(State()) == old(Routes(State()))[GwKeyOf(entry) := entry.metric]
    {
      ghost var before := State();
      SlotIsNew(before);
      assert forall d :: d in byDst ==> nextKey !in byDst[d];
      entries := entries[nextKey := entry];
      byGw := byGw[GwKeyOf(entry) := nextKey];
      byDst := Joined(byDst, DstKeyOf(entry), nextKey);
      nextKey := nextKey + 1;
      assert State() == Inserted(before, entry);
      InsertedAgrees(before, entry);
    }

    /** Gives a route another metric. Its slot is in the set of the old one. */
    method Change(g: GwKey, metric: nat)
      requires Known(State(), g) && entries[byGw[g]].metric != metric
      modifies this
      ensures State() == Changed(old(State()), g, metric)
      ensures Agree(State()) && Routes(State()) == old(Routes(State()))[g := metric]
    {
      ghost var before := State();
      ChangedAgrees(before, g, metric);
      SlotIsIndexed(before, g);
      var key := byGw[g];
      var entry := entries[key];
      entries := entries[key := entry.(metric := metric)];
      byDst := Joined(byDst, DstKeyOf(entry.(metric := metric)), key);
      assert DstKeyOf(entry) in byDst && key in byDst[DstKeyOf(entry)];
      byDst := Parted(byDst, DstKeyOf(entry), key);
      assert State() == Changed(before, g, metric);
    }

    /** Removes a route. Its slot is in the set of its metric. */
    method Delete(g: GwKey)
      requires Known(State(), g)
      modifies this
      ensures State() == Deleted(old(State()), g)
      ensures Agree(State()) && Routes(State()) == old(Routes(State())) - {g}
    {
      ghost var before := State();
      SlotIsIndexed(before, g);
      var key := byGw[g];
      var d := DstKeyOf(entries[key]);
      assert d in byDst && key in byDst[d];
      byDst := Parted(byDst, d, key);
      byGw := byGw - {g};
      entries := entries - {key};
      assert State() == Deleted(before, g);
      DeletedAgrees(before, g);
    }

    /** Updates the tables once no conflict was found. */
    method Update(g: GwKey, known: bool, metric: Option<nat>) returns (previous: Option<nat>)
      requires Agree(State()) && (known <==> g in byGw)
      modifies this
      ensures Agree(State()) && previous == Lookup(old(Routes(State())), g)
      ensures Routes(State()) == Updated(old(Routes(State())), g, metric)
    {
      ghost var routes := Routes(State());
      if known {
        var before := entries[byGw[g]].metric;
        previous := Some(before);
        if metric.None? {
          Delete(g);
        } else if metric.value != before {
          Change(g, metric.value);
        } else {
          assert routes[g := before] == routes;
        }
      } else {
        previous := None;
        if metric.Some? {
          Insert(Entry(g.2, g.1, g.0, metric.value));
        } else {
          assert routes - {g} == routes;
        }
      }
    }

    /** Sets, changes or removes the metric of a route, as on a plain map. */
    method SetRoute(message: nat, net: Net, gw: Option<nat>, metric: Option<nat>) returns (r: SetResult)
      requires Valid()
      modifies this
      ensures Agree(State())
      ensures r.Conflict? ==> State() == old(State()) && r.net != net
      ensures r.Conflict? ==>
                InTheWay(old(Routes(State())), (gw, net, message), metric, r.net) || r.net == ToNet(ToRange(net))
      ensures r.Done? ==> ToNet(ToRange(net)) == net
      ensures r.Done? && old(MeetsAtMostOne(State(), net)) ==>
                forall n :: !InTheWay(old(Routes(State())), (gw, net, message), metric, n)
      ensures r.Done? ==> (r.previous.Some? <==> (gw, net, message) in old(Routes(State())))
      ensures r.Done? && r.previous.Some? ==> r.previous.value == old(Routes(State()))[(gw, net, message)]
      ensures r.Done? && metric.Some? ==> Routes(State()) == old(Routes(State()))[(gw, net, message) := metric.value]
      ensures r.Done? && metric.None? ==> Routes(State()) == old(Routes(State())) - {(gw, net, message)}
      ensures Separated(State()) <==> r.Conflict? || metric.None? || (IsCanonical(net) && Fits(old(Routes(State())), net))
    {
      var conflict, known := FindConflict(message, net, gw, metric);
      ghost var before := State();
      if conflict.Some? { return Conflict(conflict.value); }
      var previous := Update((gw, net, message), known, metric);
      SeparationAfter(before, State(), (gw, net, message), metric);
      return Done(previous);
    }
  }

  // ---------------------------------------------------------------------------
  // Limits
  // ---------------------------------------------------------------------------

  /** A network inside another one slips in if both its gateway and its metric are
      new: nothing is in the way, yet the networks are no longer separate. */
  lemma OverlapCanSlipIn()
    ensures var routes: map<GwKey, nat> := map[(Some(1), Net(0, 1), 7) := 1];
      && SeparateRoutes(routes)
      && (forall n :: !InTheWay(routes, (Some(2), Net(0, 0), 7), Some(2), n))
      && !SeparateRoutes(Updated(routes, (Some(2), Net(0, 0), 7), Some(2)))
  {
    var routes: map<GwKey, nat> := map[(Some(1), Net(0, 1), 7) := 1];
    var outer, inner := Net(0, 1), Net(0, 0);
    AlignedZero(1);
    Pow2Monotone(1, BITS);
    Pow2Monotone(0, BITS);
    OverlapIsMeeting(outer, inner);
    assert Contains(outer, 0) && Contains(inner, 0);
    assert IsCanonical(outer) && IsCanonical(inner);
    SeparateAfter(routes, (Some(2), inner, 7), Some(2));
    assert !Separate(outer, inner);
    assert (Some(1), outer, 7) in routes;
  }

  /** An address that no route covers is still answered with the route of a later
      network for the same message. */
  lemma UncoveredCanBeAnswered()
    ensures var t := Inserted(EMPTY, Entry(7, Net(2, 0), None, 3));
      Agree(t) && Separated(t) && !Covered(t, 7, 1) && IsNext(t, RouteProbe(7, 1), (Net(2, 0), 7, 3))
  {
    var e := Entry(7, Net(2, 0), None, 3);
    InsertedAgree(EMPTY, e);
    var t := Inserted(EMPTY, e);
    assert t.byDst.Keys == {(Net(2, 0), 7, 3)} && t.byGw.Keys == {(None, Net(2, 0), 7)};
    assert Pow2(1) == 2;
    Pow2Monotone(1, 2);
    Pow2Monotone(2, BITS);
    assert Pow2(2) == 4;
    ProbeSees((Net(2, 0), 7, 3), 7, 1);
  }

  /** A network with a stray bit below its mask is accepted if the bit is not the highest
      free one. */
  lemma StrayBitCanSlipIn()
    ensures IsNet(Net(1, 2)) && ToNet(ToRange(Net(1, 2))) == Net(1, 2) && !IsCanonical(Net(1, 2))
  {
    Pow2Monotone(1, BITS);
    assert Pow2(1) == 2 && !Bit(1, 1);
    RoundTrip(Net(1, 2));
  }

  /** A network that meets two others can have a probe that is not consistent: the key of
      the later one is below it and the key of the earlier one is not. */
  lemma MeetingTwoCanBeInconsistent()
    ensures var d, e, p := (Net(0, 0), 3, 0), (Net(1, 0), 1, 0), Probe(ToRange(Net(0, 1)), 2, 0);
      Separate(d.0, e.0) && Lower(d, e) && IsBelow(e, p) && !IsBelow(d, p)
  {
    assert Pow2(1) == 2 && Pow2(0) == 1;
    assert Floor(0, 1) == 0;
  }
}
