/** The one-shot timer: entries by key, and an index of them ordered by deadline. */
module Timer {
  import opened Options

  datatype Entry<M> = Entry(at: int, message: M)
  datatype Sent<M> = Sent(key: nat, entry: Entry<M>)

  /** The order of the index: by deadline, then by key. Keys come from a slot map, so
      their order says nothing about who was scheduled first. */
  predicate Before(a: (int, nat), b: (int, nat)) {
    a.0 < b.0 || (a.0 == b.0 && a.1 < b.1)
  }

  function Rank<M>(key: nat, entry: Entry<M>): (int, nat) {
    (entry.at, key)
  }

  /** The index holds each entry once, under its deadline. */
  ghost predicate Indexed<M>(entries: map<nat, Entry<M>>, ordered: set<(int, nat)>) {
    forall p :: p in ordered <==> p.1 in entries && entries[p.1].at == p.0
  }

  function Due<M>(entries: map<nat, Entry<M>>, now: int): set<nat> {
    set k | k in entries && entries[k].at <= now
  }

  function KeysOf<M>(sent: seq<Sent<M>>): set<nat> {
    set i | 0 <= i < |sent| :: sent[i].key
  }

  /** `sent` is what must go out at `now`: the entries that are due, each once, by rank. */
  ghost predicate Delivers<M(!new)>(entries: map<nat, Entry<M>>, now: int, sent: seq<Sent<M>>) {
    && KeysOf(sent) == Due(entries, now)
    && (forall i :: 0 <= i < |sent| ==> sent[i].key in entries && sent[i].entry == entries[sent[i].key])
    && (forall i, j :: 0 <= i < j < |sent| ==>
          Before(Rank(sent[i].key, sent[i].entry), Rank(sent[j].key, sent[j].entry)))
  }

  // ---------------------------------------------------------------------------
  // The state machine
  // ---------------------------------------------------------------------------

  /** What went out so far was due, and went out by rank. */
  ghost predicate SentInOrder<M(!new)>(entries: map<nat, Entry<M>>, now: int, sent: seq<Sent<M>>) {
    && (forall i :: 0 <= i < |sent| ==> && sent[i].key in entries
                                        && sent[i].entry == entries[sent[i].key]
                                        && sent[i].entry.at <= now)
    && (forall i, j :: 0 <= i < j < |sent| ==>
          Before(Rank(sent[i].key, sent[i].entry), Rank(sent[j].key, sent[j].entry)))
  }

  ghost predicate AllBefore<M(!new)>(sent: seq<Sent<M>>, entries: map<nat, Entry<M>>) {
    forall i, k :: 0 <= i < |sent| && k in entries ==>
                     Before(Rank(sent[i].key, sent[i].entry), Rank(k, entries[k]))
  }

  method First(ordered: set<(int, nat)>) returns (first: (int, nat))
    requires ordered != {}
    ensures first in ordered && forall p :: p in ordered && p != first ==> Before(first, p)
  {
    first :| first in ordered;
    var rest := ordered - {first};
    while rest != {}
      invariant first in ordered && rest <= ordered
      invariant forall p :: p in ordered && p !in rest && p != first ==> Before(first, p)
      decreases rest
    {
      var p :| p in rest;
      if Before(p, first) { first := p; }
      rest := rest - {p};
    }
  }

  lemma KeysOfPushed<M>(sent: seq<Sent<M>>, next: Sent<M>)
    ensures KeysOf(sent + [next]) == KeysOf(sent) + {next.key}
  {
    var all := sent + [next];
    assert all[|sent|] == next;
    assert forall i :: 0 <= i < |sent| ==> all[i] == sent[i];
  }

  lemma SendNext<M(!new)>(start: map<nat, Entry<M>>, entries: map<nat, Entry<M>>, now: int, sent: seq<Sent<M>>, next: Sent<M>)
    requires entries == start - KeysOf(sent) && SentInOrder(start, now, sent) && AllBefore(sent, entries)
    requires next.key in entries && next.entry == entries[next.key] && next.entry.at <= now
    requires forall k :: k in entries && k != next.key ==> Before(Rank(next.key, next.entry), Rank(k, entries[k]))
    ensures SentInOrder(start, now, sent + [next])
    ensures AllBefore(sent + [next], entries - {next.key})
    ensures entries - {next.key} == start - KeysOf(sent + [next])
  {
    KeysOfPushed(sent, next);
  }

  lemma NothingDue<M(!new)>(start: map<nat, Entry<M>>, entries: map<nat, Entry<M>>, now: int, sent: seq<Sent<M>>)
    requires entries == start - KeysOf(sent) && SentInOrder(start, now, sent)
    requires forall k :: k in entries ==> entries[k].at > now
    ensures Delivers(start, now, sent)
  {
    forall k | k in Due(start, now) ensures k in KeysOf(sent) {
      assert k in entries || k in KeysOf(sent);
    }
  }

  class Timer<M(!new)> {
    var entries: map<nat, Entry<M>>
    var ordered: set<(int, nat)>

    ghost predicate Valid()
      reads this
    {
      Indexed(entries, ordered)
    }

    constructor ()
      ensures Valid() && entries == map[]
    {
      entries := map[];
      ordered := {};
    }

    /** The slot map hands out a key it does not hold. */
    method Schedule(key: nat, at: int, message: M)
      requires Valid() && key !in entries
      modifies this
      ensures Valid() && entries == old(entries)[key := Entry(at, message)]
    {
      entries := entries[key := Entry(at, message)];
      ordered := ordered + {(at, key)};
    }

    method Cancel(key: nat) returns (message: Option<M>)
      requires Valid()
      modifies this
      ensures Valid() && entries == old(entries) - {key}
      ensures message == if key in old(entries) then Some(old(entries)[key].message) else None
    {
      if key !in entries { return None; }
      var entry := entries[key];
      entries := entries - {key};
      ordered := ordered - {(entry.at, key)};
      return Some(entry.message);
    }

    /** Sends everything that is due, the earliest first. */
    method Tick(now: int) returns (sent: seq<Sent<M>>)
      requires Valid()
      modifies this
      ensures Valid() && Delivers(old(entries), now, sent)
      ensures entries == old(entries) - KeysOf(sent)
      ensures forall i :: 0 <= i < |sent| ==> sent[i].entry.at <= now
      ensures forall k :: k in entries ==> entries[k].at > now
    {
      sent := [];
      while ordered != {}
        invariant Valid() && entries == old(entries) - KeysOf(sent)
        invariant SentInOrder(old(entries), now, sent)
        invariant AllBefore(sent, entries)
        decreases |ordered|
      {
        var first := First(ordered);
        if first.0 > now {
          assert forall k :: k in entries ==> (entries[k].at, k) in ordered;
          break;
        }
        var next := Sent(first.1, entries[first.1]);
        SendNext(old(entries), entries, now, sent, next);
        ordered := ordered - {first};
        entries := entries - {first.1};
        sent := sent + [next];
      }
      assert forall k :: k in entries ==> (entries[k].at, k) in ordered;
      NothingDue(old(entries), entries, now, sent);
    }
  }

  /** After the same beginning, no delivery goes on with a later entry than another. */
  lemma NotEarlier<M(!new)>(entries: map<nat, Entry<M>>, now: int, a: seq<Sent<M>>, b: seq<Sent<M>>, i: nat)
    requires Delivers(entries, now, a) && Delivers(entries, now, b) && i < |a| && i < |b| && a[..i] == b[..i]
    ensures a[i].key == b[i].key || Before(Rank(a[i].key, a[i].entry), Rank(b[i].key, b[i].entry))
  {
    assert forall t :: 0 <= t < i ==> a[..i][t] == a[t] && b[..i][t] == b[t];
    assert b[i].key in KeysOf(b);
    assert b[i].key in KeysOf(a);
    var j :| 0 <= j < |a| && a[j].key == b[i].key;
    assert j >= i;
  }

  lemma {:induction false} SameBeginning<M(!new)>(entries: map<nat, Entry<M>>, now: int, a: seq<Sent<M>>, b: seq<Sent<M>>, n: nat)
    requires Delivers(entries, now, a) && Delivers(entries, now, b) && n <= |a| && n <= |b|
    ensures a[..n] == b[..n]
    decreases n
  {
    if n > 0 {
      var i := n - 1;
      SameBeginning(entries, now, a, b, i);
      NotEarlier(entries, now, a, b, i);
      NotEarlier(entries, now, b, a, i);
      assert a[i] == b[i];
    }
  }

  /** What was sent: pending entries, due, each once. */
  lemma SentAreDue<M(!new)>(entries: map<nat, Entry<M>>, now: int, sent: seq<Sent<M>>)
    requires Delivers(entries, now, sent)
    ensures KeysOf(sent) <= entries.Keys
    ensures forall i :: 0 <= i < |sent| ==> sent[i].entry.at <= now
    ensures forall i, j :: 0 <= i < j < |sent| ==> sent[i].key != sent[j].key
  {
    forall i | 0 <= i < |sent| ensures sent[i].entry.at <= now {
      assert sent[i].key in KeysOf(sent);
    }
    forall i, j | 0 <= i < j < |sent| ensures sent[i].key != sent[j].key {
      assert Before(Rank(sent[i].key, sent[i].entry), Rank(sent[j].key, sent[j].entry));
    }
  }

  lemma AlsoSent<M(!new)>(entries: map<nat, Entry<M>>, now: int, a: seq<Sent<M>>, b: seq<Sent<M>>, t: nat)
    requires Delivers(entries, now, a) && Delivers(entries, now, b) && |a| <= |b| && a == b[..|a|] && t < |b|
    ensures t < |a|
  {
    assert b[t].key in KeysOf(b);
    assert b[t].key in KeysOf(a);
    var j :| 0 <= j < |a| && a[j].key == b[t].key;
    SentAreDue(entries, now, b);
    assert b[j] == a[j];
  }

  lemma NoMore<M(!new)>(entries: map<nat, Entry<M>>, now: int, a: seq<Sent<M>>, b: seq<Sent<M>>)
    requires Delivers(entries, now, a) && Delivers(entries, now, b) && |a| <= |b| && a == b[..|a|]
    ensures a == b
  {
    if b != [] { AlsoSent(entries, now, a, b, |b| - 1); }
    assert b[..|b|] == b;
  }

  /** What goes out, and in which order, is fixed by the entries and the time. */
  lemma DeliveryIsFixed<M(!new)>(entries: map<nat, Entry<M>>, now: int, a: seq<Sent<M>>, b: seq<Sent<M>>)
    requires Delivers(entries, now, a) && Delivers(entries, now, b)
    ensures a == b
  {
    if |a| <= |b| {
      SameBeginning(entries, now, a, b, |a|);
      assert a[..|a|] == a;
      NoMore(entries, now, a, b);
    } else {
      SameBeginning(entries, now, b, a, |b|);
      assert b[..|b|] == b;
      NoMore(entries, now, b, a);
    }
  }

  // ---------------------------------------------------------------------------
  // Runs
  // ---------------------------------------------------------------------------

  datatype Outcome<M> =
    | Cancelled(key: nat, entry: Entry<M>)
    | Delivered(key: nat, entry: Entry<M>, now: int)

  /** The pending entries with what came before: everything ever scheduled, how many
      outcomes there were when it was, and the outcomes in order. */
  datatype World<M> = World(
    entries: map<nat, Entry<M>>,
    scheduled: map<nat, Entry<M>>,
    born: map<nat, nat>,
    outcomes: seq<Outcome<M>>)

  datatype Event<M> =
    | Schedule(key: nat, at: int, message: M)
    | Cancel(key: nat)
    | Time(now: int, sent: seq<Sent<M>>)

  function Deliveries<M>(sent: seq<Sent<M>>, now: int): (out: seq<Outcome<M>>)
    ensures |out| == |sent|
  {
    seq(|sent|, i requires 0 <= i < |sent| => Delivered(sent[i].key, sent[i].entry, now))
  }

  ghost predicate Step<M(!new)>(w: World<M>, e: Event<M>, w': World<M>) {
    match e
    case Schedule(key, at, message) =>
      // A slot map never gives out the same key twice.
      && key !in w.scheduled
      && w' == World(w.entries[key := Entry(at, message)], w.scheduled[key := Entry(at, message)],
                     w.born[key := |w.outcomes|], w.outcomes)
    case Cancel(key) =>
      w' == if key in w.entries
            then w.(entries := w.entries - {key}, outcomes := w.outcomes + [Cancelled(key, w.entries[key])])
            else w
    case Time(now, sent) =>
      && Delivers(w.entries, now, sent)
      && w' == w.(entries := w.entries - KeysOf(sent), outcomes := w.outcomes + Deliveries(sent, now))
  }

  ghost predicate IsRun<M(!new)>(worlds: seq<World<M>>, events: seq<Event<M>>) {
    && |worlds| == |events| + 1
    && worlds[0] == World(map[], map[], map[], [])
    && forall i :: 0 <= i < |events| ==> Step(worlds[i], events[i], worlds[i + 1])
  }

  function OutcomeKeys<M>(outcomes: seq<Outcome<M>>): set<nat> {
    set i | 0 <= i < |outcomes| :: outcomes[i].key
  }

  ghost predicate OutcomeOk<M(!new)>(w: World<M>, o: Outcome<M>) {
    && o.key in w.scheduled
    && o.entry == w.scheduled[o.key]
    && (o.Delivered? ==> o.entry.at <= o.now)
  }

  /** Everything scheduled is in exactly one place: pending, or the subject of exactly one
      outcome; outcomes carry what was scheduled; and nothing was delivered early. */
  ghost predicate Accounted<M(!new)>(w: World<M>) {
    && w.scheduled.Keys == w.entries.Keys + OutcomeKeys(w.outcomes)
    && w.entries.Keys !! OutcomeKeys(w.outcomes)
    && (forall i, j :: 0 <= i < j < |w.outcomes| ==> w.outcomes[i].key != w.outcomes[j].key)
    && (forall k :: k in w.entries ==> k in w.scheduled && w.entries[k] == w.scheduled[k])
    && (forall i :: 0 <= i < |w.outcomes| ==> OutcomeOk(w, w.outcomes[i]))
  }

  ghost predicate DeliveredInOrder<M(!new)>(w: World<M>, i: nat, j: nat)
    requires i < |w.outcomes| && j < |w.outcomes|
  {
    var (a, b) := (w.outcomes[i], w.outcomes[j]);
    a.Delivered? && b.Delivered? && b.key in w.born && w.born[b.key] <= i ==> Before(Rank(a.key, a.entry), Rank(b.key, b.entry))
  }

  /** What was pending when something was delivered ranks after it. */
  ghost predicate InOrder<M(!new)>(w: World<M>) {
    && w.born.Keys == w.scheduled.Keys
    && (forall k :: k in w.born ==> w.born[k] <= |w.outcomes|)
    && (forall i, k :: 0 <= i < |w.outcomes| && w.outcomes[i].Delivered? && k in w.entries && k in w.born && w.born[k] <= i ==>
          Before(Rank(w.outcomes[i].key, w.outcomes[i].entry), Rank(k, w.entries[k])))
    && (forall i, j :: 0 <= i < j < |w.outcomes| ==> DeliveredInOrder(w, i, j))
  }

  lemma OutcomeKeysAdded<M>(first: seq<Outcome<M>>, more: seq<Outcome<M>>)
    ensures OutcomeKeys(first + more) == OutcomeKeys(first) + OutcomeKeys(more)
  {
    var all := first + more;
    assert forall i :: 0 <= i < |first| ==> all[i] == first[i];
    assert forall i :: 0 <= i < |more| ==> all[|first| + i] == more[i];
  }

  lemma DeliveryKeys<M>(sent: seq<Sent<M>>, now: int)
    ensures OutcomeKeys(Deliveries(sent, now)) == KeysOf(sent)
  {
    var out := Deliveries(sent, now);
    assert forall i :: 0 <= i < |sent| ==> out[i].key == sent[i].key;
  }

  lemma TimeDistinct<M(!new)>(w: World<M>, now: int, sent: seq<Sent<M>>, i: nat, j: nat)
    requires Accounted(w) && Delivers(w.entries, now, sent)
    requires i < j < |w.outcomes| + |sent|
    ensures (w.outcomes + Deliveries(sent, now))[i].key != (w.outcomes + Deliveries(sent, now))[j].key
  {
    SentAreDue(w.entries, now, sent);
    var n := |w.outcomes|;
    if i < n <= j {
      assert w.outcomes[i].key in OutcomeKeys(w.outcomes);
      assert sent[j - n].key in KeysOf(sent);
    }
  }

  lemma TimeAccounts<M(!new)>(w: World<M>, now: int, sent: seq<Sent<M>>, w': World<M>)
    requires Accounted(w) && Step(w, Time(now, sent), w')
    ensures Accounted(w')
  {
    var n := |w.outcomes|;
    OutcomeKeysAdded(w.outcomes, Deliveries(sent, now));
    DeliveryKeys(sent, now);
    SentAreDue(w.entries, now, sent);
    forall i, j | 0 <= i < j < |w'.outcomes| ensures w'.outcomes[i].key != w'.outcomes[j].key {
      TimeDistinct(w, now, sent, i, j);
    }
    forall i | 0 <= i < |w'.outcomes| ensures OutcomeOk(w', w'.outcomes[i]) {
      if i < n {
        assert OutcomeOk(w, w.outcomes[i]);
      } else {
        assert sent[i - n].key in w.entries;
      }
    }
  }

  lemma ScheduleAccounts<M(!new)>(w: World<M>, key: nat, entry: Entry<M>, w': World<M>)
    requires Accounted(w) && key !in w.scheduled
    requires w'.entries == w.entries[key := entry] && w'.scheduled == w.scheduled[key := entry] && w'.outcomes == w.outcomes
    ensures Accounted(w')
  {
    forall i | 0 <= i < |w'.outcomes| ensures OutcomeOk(w', w'.outcomes[i]) {
      assert OutcomeOk(w, w.outcomes[i]);
    }
  }

  lemma CancelAccounts<M(!new)>(w: World<M>, key: nat, w': World<M>)
    requires Accounted(w) && key in w.entries
    requires w' == w.(entries := w.entries - {key}, outcomes := w.outcomes + [Cancelled(key, w.entries[key])])
    ensures Accounted(w')
  {
    var last := Cancelled(key, w.entries[key]);
    OutcomeKeysAdded(w.outcomes, [last]);
    assert [last][0] == last;
    assert OutcomeKeys([last]) == {key};
    forall i | 0 <= i < |w.outcomes| ensures w.outcomes[i].key != key {
      assert w.outcomes[i].key in OutcomeKeys(w.outcomes);
    }
    forall i | 0 <= i < |w'.outcomes| ensures OutcomeOk(w', w'.outcomes[i]) {
      assert i < |w.outcomes| ==> OutcomeOk(w, w.outcomes[i]);
    }
  }

  lemma StepAccounts<M(!new)>(w: World<M>, e: Event<M>, w': World<M>)
    requires Accounted(w) && Step(w, e, w')
    ensures Accounted(w')
  {
    match e
    case Schedule(key, at, message) =>
      ScheduleAccounts(w, key, Entry(at, message), w');
    case Cancel(key) =>
      if key in w.entries { CancelAccounts(w, key, w'); }
    case Time(now, sent) =>
      TimeAccounts(w, now, sent, w');
  }

  lemma TimeKeepsOrder<M(!new)>(w: World<M>, now: int, sent: seq<Sent<M>>, w': World<M>)
    requires Accounted(w) && InOrder(w) && Step(w, Time(now, sent), w')
    ensures InOrder(w')
  {
    var n := |w.outcomes|;
    assert forall i :: 0 <= i < n ==> w'.outcomes[i] == w.outcomes[i];
    forall i | 0 <= i < |sent|
      ensures w'.outcomes[n + i] == Delivered(sent[i].key, sent[i].entry, now)
      ensures sent[i].key in w.entries && sent[i].entry == w.entries[sent[i].key] && sent[i].entry.at <= now
    {
      assert sent[i].key in KeysOf(sent);
    }
    forall i, j | 0 <= i < j < |w'.outcomes| ensures DeliveredInOrder(w', i, j) {
      if j < n {
        assert DeliveredInOrder(w, i, j);
      } else if n <= i {
        assert Before(Rank(sent[i - n].key, sent[i - n].entry), Rank(sent[j - n].key, sent[j - n].entry));
      } else {
        assert w'.outcomes[j] == Delivered(sent[j - n].key, sent[j - n].entry, now);
      }
    }
    forall i, k | 0 <= i < |w'.outcomes| && w'.outcomes[i].Delivered? && k in w'.entries && w.born[k] <= i
      ensures Before(Rank(w'.outcomes[i].key, w'.outcomes[i].entry), Rank(k, w'.entries[k]))
    {
      if i >= n {
        assert w'.outcomes[i] == Delivered(sent[i - n].key, sent[i - n].entry, now);
        assert k !in Due(w.entries, now);
      }
    }
  }

  lemma StepKeepsOrder<M(!new)>(w: World<M>, e: Event<M>, w': World<M>)
    requires Accounted(w) && InOrder(w) && Step(w, e, w')
    ensures InOrder(w')
  {
    match e
    case Schedule(key, at, message) =>
      forall i, j | 0 <= i < j < |w'.outcomes| ensures DeliveredInOrder(w', i, j) {
        assert DeliveredInOrder(w, i, j);
        assert w.outcomes[j].key in OutcomeKeys(w.outcomes);
      }
    case Cancel(key) =>
      forall i, j | 0 <= i < j < |w'.outcomes| ensures DeliveredInOrder(w', i, j) {
        if j < |w.outcomes| { assert DeliveredInOrder(w, i, j); }
      }
    case Time(now, sent) =>
      TimeKeepsOrder(w, now, sent, w');
  }

  /** Over every run: each scheduled message is pending, cancelled once or delivered once,
      with its own content and never early; and of two messages pending together, the one
      with the earlier deadline is delivered first. */
  lemma {:induction false} RunAccounts<M(!new)>(worlds: seq<World<M>>, events: seq<Event<M>>, n: nat)
    requires IsRun(worlds, events) && n < |worlds|
    ensures Accounted(worlds[n]) && InOrder(worlds[n])
    decreases n
  {
    if n > 0 {
      RunAccounts(worlds, events, n - 1);
      assert Step(worlds[n - 1], events[n - 1], worlds[n]);
      StepAccounts(worlds[n - 1], events[n - 1], worlds[n]);
      StepKeepsOrder(worlds[n - 1], events[n - 1], worlds[n]);
    }
  }

  /** After the timer has looked at the time nothing pending is due. */
  lemma NothingIsOverdue<M(!new)>(w: World<M>, now: int, sent: seq<Sent<M>>, w': World<M>, k: nat)
    requires Step(w, Time(now, sent), w') && k in w'.entries
    ensures w'.entries[k].at > now
  {
    assert k !in Due(w.entries, now);
  }

  /** Of two messages delivered, the second of which was pending when the first was, the
      first has the earlier deadline, or the same and the smaller key. */
  lemma EarlierFirst<M(!new)>(worlds: seq<World<M>>, events: seq<Event<M>>, n: nat, i: nat, j: nat)
    requires IsRun(worlds, events) && n < |worlds| && i < j < |worlds[n].outcomes|
    requires worlds[n].outcomes[i].Delivered? && worlds[n].outcomes[j].Delivered?
    requires worlds[n].outcomes[j].key in worlds[n].born && worlds[n].born[worlds[n].outcomes[j].key] <= i
    ensures var a, b := worlds[n].outcomes[i], worlds[n].outcomes[j];
      a.entry.at < b.entry.at || (a.entry.at == b.entry.at && a.key < b.key)
  {
    RunAccounts(worlds, events, n);
    assert DeliveredInOrder(worlds[n], i, j);
  }
}
