/** Requests that wait for a protocol to be registered, each with a timer. */
module Waitlist {
  import opened Options

  datatype Entry = Entry(protocol: string, request: nat, timer: Option<nat>)

  /** A waiting request that registration lets go. */
  datatype Hit = Hit(key: nat, timer: nat, request: nat)

  datatype Answer = Resolved(name: string) | NoProtocol
  datatype Reply = Reply(request: nat, answer: Answer)

  function Waiters(entries: map<nat, Entry>, name: string): set<nat> {
    set k | k in entries && entries[k].protocol == name
  }

  function HitKeys(hits: seq<Hit>): set<nat> {
    set i | 0 <= i < |hits| :: hits[i].key
  }

  ghost predicate HitsMatch(entries: map<nat, Entry>, hits: seq<Hit>) {
    && (forall i :: 0 <= i < |hits| ==> && hits[i].key in entries
                                        && entries[hits[i].key].timer == Some(hits[i].timer)
                                        && entries[hits[i].key].request == hits[i].request)
    && (forall i, j :: 0 <= i < j < |hits| ==> hits[i].key < hits[j].key)
  }

  /** What registering `name` lets go: every request that waits for it, once, by key. */
  ghost predicate Released(entries: map<nat, Entry>, name: string, hits: seq<Hit>) {
    && HitKeys(hits) == Waiters(entries, name)
    && HitsMatch(entries, hits)
  }

  /** The index names each entry once, under its protocol. */
  ghost predicate Indexed(entries: map<nat, Entry>, byProtocol: set<(string, Option<nat>)>) {
    && (forall p :: p in byProtocol ==> && p.1.Some?
                                        && p.1.value in entries
                                        && entries[p.1.value].protocol == p.0)
    && (forall k :: k in entries ==> (entries[k].protocol, Some(k)) in byProtocol)
  }

  /** Whoever waits has a timer, and waits for a protocol that is not there. */
  ghost predicate Waiting(entries: map<nat, Entry>, registered: set<string>) {
    forall k :: k in entries ==> entries[k].timer.Some? && entries[k].protocol !in registered
  }

  // ---------------------------------------------------------------------------
  // The handlers
  // ---------------------------------------------------------------------------

  /** Some of those who waited for `name` have been let go, in order. */
  ghost predicate Releasing(start: map<nat, Entry>, entries: map<nat, Entry>, name: string, hits: seq<Hit>) {
    && entries == start - HitKeys(hits)
    && HitsMatch(start, hits)
    && HitKeys(hits) <= Waiters(start, name)
    && forall i, k :: 0 <= i < |hits| && k in Waiters(entries, name) ==> hits[i].key < k
  }

  lemma HitKeysPushed(hits: seq<Hit>, hit: Hit)
    ensures HitKeys(hits + [hit]) == HitKeys(hits) + {hit.key}
  {
    var all := hits + [hit];
    assert all[|hits|] == hit;
    assert forall i :: 0 <= i < |hits| ==> all[i] == hits[i];
  }

  lemma LetGo(start: map<nat, Entry>, entries: map<nat, Entry>, name: string, hits: seq<Hit>, hit: Hit)
    requires Releasing(start, entries, name, hits) && hit.key in Waiters(entries, name)
    requires entries[hit.key].timer == Some(hit.timer) && entries[hit.key].request == hit.request
    requires forall k :: k in Waiters(entries, name) ==> hit.key <= k
    ensures Releasing(start, entries - {hit.key}, name, hits + [hit])
  {
    HitKeysPushed(hits, hit);
    assert forall k :: k in Waiters(entries - {hit.key}, name) ==> k in Waiters(entries, name) && k != hit.key;
  }

  lemma Forgotten(entries: map<nat, Entry>, byProtocol: set<(string, Option<nat>)>, key: nat)
    requires Indexed(entries, byProtocol) && key in entries
    ensures Indexed(entries - {key}, byProtocol - {(entries[key].protocol, Some(key))})
  {
  }

  lemma AllLetGo(start: map<nat, Entry>, entries: map<nat, Entry>, name: string, hits: seq<Hit>)
    requires Releasing(start, entries, name, hits) && Waiters(entries, name) == {}
    ensures Released(start, name, hits)
    ensures forall k :: k in entries ==> entries[k].protocol != name
  {
    forall k | k in entries ensures entries[k].protocol != name {
      assert k !in Waiters(entries, name);
    }
    forall k | k in Waiters(start, name) ensures k in HitKeys(hits) {
      assert k !in Waiters(entries, name);
    }
  }

  class Manager {
    var registered: set<string>
    var entries: map<nat, Entry>
    var byProtocol: set<(string, Option<nat>)>

    ghost predicate Valid()
      reads this
    {
      Indexed(entries, byProtocol) && Waiting(entries, registered)
    }

    constructor ()
      ensures Valid() && registered == {} && entries == map[]
    {
      registered, entries, byProtocol := {}, map[], {};
    }

    /** `key` and `timer` are what the slot map and the timer hand out. */
    method GetProtocol(request: nat, name: string, wait: bool, key: nat, timer: nat) returns (answer: Option<Answer>)
      requires Valid() && key !in entries
      modifies this
      ensures Valid() && registered == old(registered)
      ensures answer == if name in registered then Some(Resolved(name)) else if wait then None else Some(NoProtocol)
      ensures entries == if answer.None? then old(entries)[key := Entry(name, request, Some(timer))] else old(entries)
    {
      if name in registered { return Some(Resolved(name)); }
      if !wait { return Some(NoProtocol); }
      entries := entries[key := Entry(name, request, None)];
      entries := entries[key := entries[key].(timer := Some(timer))];
      assert (name, Some(key)) !in byProtocol;
      byProtocol := byProtocol + {(name, Some(key))};
      return None;
    }

    /** The least key that waits for `name`. */
    method NextWaiter(name: string) returns (key: Option<nat>)
      requires Valid()
      ensures key.None? <==> Waiters(entries, name) == {}
      ensures key.Some? ==> key.value in Waiters(entries, name)
      ensures key.Some? ==> forall k :: k in Waiters(entries, name) ==> key.value <= k
    {
      key := None;
      var rest := byProtocol;
      while rest != {}
        invariant rest <= byProtocol
        invariant key.Some? ==> (name, key) in byProtocol
        invariant forall k :: (name, Some(k)) in byProtocol && (name, Some(k)) !in rest ==> key.Some? && key.value <= k
        decreases rest
      {
        var p :| p in rest;
        if p.0 == name && (key.None? || p.1.value < key.value) { key := p.1; }
        rest := rest - {p};
      }
      assert forall k :: k in Waiters(entries, name) ==> (name, Some(k)) in byProtocol && (name, Some(k)) !in rest;
      assert forall k :: k in Waiters(entries, name) ==> key.Some? && key.value <= k;
      if key.Some? { assert key.value in Waiters(entries, name); }
    }

    /** Registers a protocol and lets go of everyone who waited for it. */
    method Register(name: string) returns (ok: bool, hits: seq<Hit>)
      requires Valid()
      modifies this
      ensures Valid() && (ok <==> name !in old(registered))
      ensures registered == old(registered) + {name}
      ensures ok ==> Released(old(entries), name, hits)
      ensures !ok ==> hits == []
      ensures entries == old(entries) - HitKeys(hits)
    {
      hits := [];
      if name in registered { return false, []; }
      var next := NextWaiter(name);
      while next.Some?
        invariant Valid() && registered == old(registered)
        invariant Releasing(old(entries), entries, name, hits)
        invariant next.None? <==> Waiters(entries, name) == {}
        invariant next.Some? ==> next.value in Waiters(entries, name)
        invariant next.Some? ==> forall k :: k in Waiters(entries, name) ==> next.value <= k
        decreases entries.Keys
      {
        var key := next.value;
        var entry := entries[key];
        var hit := Hit(key, entry.timer.value, entry.request);
        LetGo(old(entries), entries, name, hits, hit);
        Forgotten(entries, byProtocol, key);
        entries := entries - {key};
        hits := hits + [hit];
        byProtocol := byProtocol - {(entry.protocol, Some(key))};
        next := NextWaiter(name);
      }
      AllLetGo(old(entries), entries, name, hits);
      registered := registered + {name};
      return true, hits;
    }

    /** A protocol in use stays. */
    method Unregister(name: string, inUse: bool) returns (ok: bool)
      requires Valid()
      modifies this
      ensures Valid() && entries == old(entries)
      ensures ok <==> name in old(registered) && !inUse
      ensures registered == if ok then old(registered) - {name} else old(registered)
    {
      if name !in registered || inUse { return false; }
      registered := registered - {name};
      return true;
    }

    /** A timeout says so to whoever still waits under its key. */
    method TimeoutElapsed(key: nat) returns (reply: Option<Reply>)
      requires Valid()
      modifies this
      ensures Valid() && registered == old(registered)
      ensures entries == old(entries) - {key}
      ensures reply == if key in old(entries) then Some(Reply(old(entries)[key].request, NoProtocol)) else None
    {
      if key !in entries { return None; }
      var entry := entries[key];
      assert entry.protocol !in registered;
      assert (entry.protocol, Some(key)) in byProtocol;
      entries := entries - {key};
      byProtocol := byProtocol - {(entry.protocol, Some(key))};
      return Some(Reply(entry.request, NoProtocol));
    }
  }
}
