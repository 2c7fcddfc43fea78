/** No `Down` is lost and no registration is left behind. */
module WatchSafety {
  import opened Protocol
  import opened ProtocolInvariants

  // ---------------------------------------------------------------------------
  // Pending registrations
  // ---------------------------------------------------------------------------

  function Apply(registered: bool, m: SysMsg, a: Address, t: Address, r: WatchRef): bool {
    if m == Watch(a, t, r) then true else if m == Unwatch(a, t, r) then false else registered
  }

  /** Whether `a` is registered with `t` under `r` once the messages in `q` have
      been handled. */
  function Settle(registered: bool, q: seq<SysMsg>, a: Address, t: Address, r: WatchRef): bool
    decreases |q|
  {
    if q == [] then registered
    else Apply(Settle(registered, q[..|q| - 1], a, t, r), q[|q| - 1], a, t, r)
  }

  lemma {:induction false} SettlePush(registered: bool, q: seq<SysMsg>, m: SysMsg, a: Address, t: Address, r: WatchRef)
    ensures Settle(registered, q + [m], a, t, r) == Apply(Settle(registered, q, a, t, r), m, a, t, r)
  {
    assert (q + [m])[..|q|] == q;
  }

  lemma {:induction false} SettlePop(registered: bool, m: SysMsg, q: seq<SysMsg>, a: Address, t: Address, r: WatchRef)
    ensures Settle(registered, [m] + q, a, t, r) == Settle(Apply(registered, m, a, t, r), q, a, t, r)
    decreases |q|
  {
    if q == [] {
      assert [m] + q == [m] && [m][..0] == [];
    } else {
      var n := |q| - 1;
      assert ([m] + q)[..n + 1] == [m] + q[..n];
      SettlePop(registered, m, q[..n], a, t, r);
    }
  }

  /** A settled registration was there before or has a `Watch` pending; a settled
      absence after a registration has an `Unwatch` pending. */
  lemma {:induction false} SettleCauses(registered: bool, q: seq<SysMsg>, a: Address, t: Address, r: WatchRef)
    ensures Settle(registered, q, a, t, r) && !registered ==> Watch(a, t, r) in q
    ensures !Settle(registered, q, a, t, r) && registered ==> Unwatch(a, t, r) in q
    ensures Settle(false, q, a, t, r) ==> Settle(true, q, a, t, r)
    decreases |q|
  {
    if q != [] {
      SettleCauses(registered, q[..|q| - 1], a, t, r);
    }
  }

  // ---------------------------------------------------------------------------
  // The invariant
  // ---------------------------------------------------------------------------

  predicate Holds(s: System, a: Address, t: Address, r: WatchRef) {
    (t, r) in JobOf(s, a).watches
  }

  predicate IsRegistered(s: System, a: Address, t: Address, r: WatchRef) {
    (a, r) in JobOf(s, t).watchedBy
  }

  /** The registration of `a` with `t` after everything under way is handled. */
  function After(s: System, a: Address, t: Address, r: WatchRef): bool {
    Settle(Settle(IsRegistered(s, a, t, r), Queue(s, t.net), a, t, r), Outbox(s, a.net), a, t, r)
  }

  /** With a live target, what is pending settles to what the watcher holds. */
  predicate Agree(s: System, a: Address, t: Address, r: WatchRef) {
    Live(s, t) ==>
      && (After(s, a, t, r) ==> Holds(s, a, t, r))
      && (Live(s, a) && Holds(s, a, t, r) ==> After(s, a, t, r))
  }

  ghost predicate HasDown(q: seq<SysMsg>, from: Address, to: Address) {
    exists m :: m in q && m.Down? && m.sender == from && m.receiver == to
  }

  /** With a dead target, an answer is on its way or still owed by its container. */
  ghost predicate Answerable(s: System, a: Address, t: Address, r: WatchRef) {
    Live(s, a) && Holds(s, a, t, r) && !Live(s, t) ==>
      || IsRegistered(s, a, t, r)
      || Watch(a, t, r) in Queue(s, t.net)
      || HasDown(Queue(s, a.net), t, a)
      || HasDown(Outbox(s, t.net), t, a)
  }

  ghost predicate WatchOk(s: System, a: Address, t: Address, r: WatchRef) {
    Agree(s, a, t, r) && Answerable(s, a, t, r)
  }

  // ---------------------------------------------------------------------------
  // Steps that do not concern watches
  // ---------------------------------------------------------------------------

  lemma HasDownMore(q: seq<SysMsg>, q': seq<SysMsg>, from: Address, to: Address)
    requires forall m :: m in q ==> m in q'
    ensures HasDown(q, from, to) ==> HasDown(q', from, to)
  {
  }

  /** Appending anything but a `Watch` or `Unwatch` of this watch does not matter. */
  lemma PushKeepsWatchOk(s: System, i: nat, m: SysMsg, a: Address, t: Address, r: WatchRef)
    requires i in s && m != Watch(a, t, r) && m != Unwatch(a, t, r) && WatchOk(s, a, t, r)
    ensures WatchOk(Push(s, i, m), a, t, r)
  {
    var s' := Push(s, i, m);
    assert JobOf(s', a) == JobOf(s, a) && JobOf(s', t) == JobOf(s, t);
    SettlePush(IsRegistered(s, a, t, r), Queue(s, i), m, a, t, r);
    HasDownMore(Queue(s, a.net), Queue(s', a.net), t, a);
  }

  lemma QuietTables(s: System, i: nat, d: ContainerState, a: Address, t: Address, r: WatchRef)
    requires i in s && d.jobs.Keys == s[i].jobs.Keys && IsOpen(d.phase) == IsOpen(s[i].phase)
    requires forall x :: x in d.jobs ==> d.jobs[x].watches == s[i].jobs[x].watches && d.jobs[x].watchedBy == s[i].jobs[x].watchedBy
    ensures var s' := s[i := d];
      && Live(s', a) == Live(s, a) && Live(s', t) == Live(s, t)
      && Holds(s', a, t, r) == Holds(s, a, t, r) && IsRegistered(s', a, t, r) == IsRegistered(s, a, t, r)
  {
  }

  lemma QuietAfter(s: System, i: nat, d: ContainerState, a: Address, t: Address, r: WatchRef)
    requires i in s && d.queue == s[i].queue && IsRegistered(s[i := d], a, t, r) == IsRegistered(s, a, t, r)
    requires d.outbox == s[i].outbox || (s[i].outbox == [] && |d.outbox| == 1 && !d.outbox[0].Watch? && !d.outbox[0].Unwatch?)
    ensures After(s[i := d], a, t, r) == After(s, a, t, r)
  {
    if d.outbox != s[i].outbox {
      SettlePush(Settle(IsRegistered(s, a, t, r), Queue(s, t.net), a, t, r), [], d.outbox[0], a, t, r);
      assert d.outbox == [] + [d.outbox[0]];
    }
  }

  /** A change of one container that leaves watches, registrations and queue alone
      and adds at most one message other than `Unwatch` to an empty outbox. */
  lemma QuietUpdateKeepsWatchOk(s: System, i: nat, d: ContainerState, a: Address, t: Address, r: WatchRef)
    requires i in s && WatchOk(s, a, t, r)
    requires d.jobs.Keys == s[i].jobs.Keys
    requires forall x :: x in d.jobs ==> d.jobs[x].watches == s[i].jobs[x].watches && d.jobs[x].watchedBy == s[i].jobs[x].watchedBy
    requires IsOpen(d.phase) == IsOpen(s[i].phase) && d.queue == s[i].queue
    requires d.outbox == s[i].outbox || (s[i].outbox == [] && |d.outbox| == 1 && !d.outbox[0].Watch? && !d.outbox[0].Unwatch?)
    ensures WatchOk(s[i := d], a, t, r)
  {
    var s' := s[i := d];
    QuietTables(s, i, d, a, t, r);
    assert Queue(s', t.net) == Queue(s, t.net) && Queue(s', a.net) == Queue(s, a.net);
    QuietAfter(s, i, d, a, t, r);
    HasDownMore(Outbox(s, t.net), Outbox(s', t.net), t, a);
  }

  // ---------------------------------------------------------------------------
  // Births, watch and unwatch calls, sends
  // ---------------------------------------------------------------------------

  lemma BirthKeepsWatchOk(s: System, x: Address, d: ContainerState, a: Address, t: Address, r: WatchRef)
    requires Fresh(s, x) && WatchOk(s, a, t, r)
    requires d.queue == Queue(s, x.net) && d.outbox == Outbox(s, x.net)
    requires x.net in s ==> s[x.net].jobs.Keys == {} || (IsOpen(s[x.net].phase) && IsOpen(d.phase))
    requires d.jobs == (if x.net in s then s[x.net].jobs else map[])[x := NO_JOB]
    ensures WatchOk(s[x.net := d], a, t, r)
  {
    var s' := s[x.net := d];
    assert JobOf(s', a) == JobOf(s, a) && JobOf(s', t) == JobOf(s, t);
    if t == x {
      SettleCauses(false, Queue(s, t.net), a, t, r);
      SettleCauses(false, Outbox(s, a.net), a, t, r);
      assert Mentions(Watch(a, x, r), x);
      assert Watch(a, x, r) !in Queue(s, x.net) && Watch(a, x, r) !in Outbox(s, a.net);
      assert !After(s', a, t, r);
      assert forall m :: m in Queue(s, a.net) || m in Outbox(s, x.net) ==> !Mentions(m, x);
      assert !HasDown(Queue(s, a.net), x, a) && !HasDown(Outbox(s, x.net), x, a);
      assert !(Live(s, a) && Holds(s, a, x, r));
    } else {
      assert Live(s', t) == Live(s, t);
    }
  }

  lemma TakeWatchKeepsWatchOk(s: System, i: nat, from: Address, to: Address, taken: WatchRef,
                              a: Address, t: Address, r: WatchRef)
    requires i in s && from in s[i].jobs && from.net == i
    requires WatchOk(s, a, t, r) && (a, t, r) != (from, to, taken)
    ensures WatchOk(s[i := TakeWatch(s[i], from, to, taken)], a, t, r)
  {
    var s1 := s[i := TakeWatch(s[i], from, to, taken)];
    assert Holds(s1, a, t, r) == Holds(s, a, t, r);
    assert IsRegistered(s1, a, t, r) == IsRegistered(s, a, t, r);
  }

  /** A `Watch` just queued settles to a registration. */
  lemma SentWatchIsOk(s: System, a: Address, t: Address, r: WatchRef)
    requires t.net in s && Outbox(s, a.net) == [] && Holds(s, a, t, r)
    ensures WatchOk(Push(s, t.net, Watch(a, t, r)), a, t, r)
  {
    var s' := Push(s, t.net, Watch(a, t, r));
    SettlePush(IsRegistered(s, a, t, r), Queue(s, t.net), Watch(a, t, r), a, t, r);
    assert JobOf(s', a) == JobOf(s, a) && JobOf(s', t) == JobOf(s, t);
    assert Queue(s', t.net) == Queue(s, t.net) + [Watch(a, t, r)];
    assert Outbox(s', a.net) == [];
    assert After(s', a, t, r);
    assert Watch(a, t, r) in Queue(s', t.net);
  }

  lemma RefusedWatchIsOk(s: System, a: Address, t: Address, r: WatchRef)
    requires a.net in s && !Accepting(s, t.net)
    ensures WatchOk(Push(s, a.net, Down(t, a, LinkDown)), a, t, r)
  {
    var s' := Push(s, a.net, Down(t, a, LinkDown));
    assert !Live(s', t);
    assert Queue(s', a.net) == Queue(s, a.net) + [Down(t, a, LinkDown)];
    assert Down(t, a, LinkDown) in Queue(s', a.net);
  }

  lemma NewWatchIsOk(s: System, i: nat, a: Address, t: Address, r: WatchRef)
    requires Idle(s, i) && a in s[i].jobs && a.net == i
    ensures WatchOk(SendOrElse(s[i := TakeWatch(s[i], a, t, r)], t.net, Watch(a, t, r), i, Down(t, a, LinkDown)), a, t, r)
  {
    var s1 := s[i := TakeWatch(s[i], a, t, r)];
    if Accepting(s1, t.net) {
      assert Outbox(s1, a.net) == [] && Holds(s1, a, t, r);
      SentWatchIsOk(s1, a, t, r);
    } else {
      RefusedWatchIsOk(s1, a, t, r);
    }
  }

  lemma CallWatchKeepsWatchOk(s: System, i: nat, from: Address, to: Address, taken: WatchRef,
                              a: Address, t: Address, r: WatchRef)
    requires Idle(s, i) && from in s[i].jobs && from.net == i && WatchOk(s, a, t, r)
    ensures WatchOk(SendOrElse(s[i := TakeWatch(s[i], from, to, taken)],
                               to.net, Watch(from, to, taken), i, Down(to, from, LinkDown)), a, t, r)
  {
    if a == from && t == to && r == taken {
      NewWatchIsOk(s, i, a, t, r);
    } else {
      TakeWatchKeepsWatchOk(s, i, from, to, taken, a, t, r);
      var s1 := s[i := TakeWatch(s[i], from, to, taken)];
      if Accepting(s1, to.net) {
        PushKeepsWatchOk(s1, to.net, Watch(from, to, taken), a, t, r);
      } else {
        PushKeepsWatchOk(s1, i, Down(to, from, LinkDown), a, t, r);
      }
    }
  }

  lemma GiveUpTables(s: System, i: nat, given: WatchRef, a: Address, t: Address, r: WatchRef)
    requires i in s && given in s[i].taken && s[i].taken[given].owner in s[i].jobs && s[i].taken[given].owner.net == i
    ensures
      var s', m := s[i := GiveUpWatch(s[i], given)], Unwatch(s[i].taken[given].owner, s[i].taken[given].target, given);
      && IsRegistered(s', a, t, r) == IsRegistered(s, a, t, r)
      && Holds(s', a, t, r) == (Holds(s, a, t, r) && m != Unwatch(a, t, r))
      && Live(s', a) == Live(s, a)
      && Live(s', t) == Live(s, t)
  {
  }

  lemma CallUnwatchKeepsWatchOk(s: System, i: nat, given: WatchRef, a: Address, t: Address, r: WatchRef)
    requires Idle(s, i) && given in s[i].taken && s[i].taken[given].owner in s[i].jobs
    requires s[i].taken[given].owner.net == i && WatchOk(s, a, t, r)
    ensures WatchOk(s[i := GiveUpWatch(s[i], given)], a, t, r)
  {
    var s' := s[i := GiveUpWatch(s[i], given)];
    var m := Unwatch(s[i].taken[given].owner, s[i].taken[given].target, given);
    GiveUpTables(s, i, given, a, t, r);
    assert Queue(s', t.net) == Queue(s, t.net) && Queue(s', a.net) == Queue(s, a.net);
    if a.net == i {
      var queued := Settle(IsRegistered(s, a, t, r), Queue(s, t.net), a, t, r);
      SettlePush(queued, [], m, a, t, r);
      assert Outbox(s', i) == [] + [m];
      assert Outbox(s, i) == [];
      assert After(s', a, t, r) == Apply(After(s, a, t, r), m, a, t, r);
    } else {
      assert Outbox(s', a.net) == Outbox(s, a.net);
    }
    assert forall x :: x in Outbox(s, t.net) ==> x in Outbox(s', t.net);
  }

  lemma FlushKeepsAfter(s: System, i: nat, m: SysMsg, rest: seq<SysMsg>, a: Address, t: Address, r: WatchRef)
    requires i in s && s[i].outbox == [m] + rest && Departing(m, i) && Accepting(s, t.net)
    ensures After(Send(s[i := s[i].(outbox := rest)], m.receiver.net, m), a, t, r) == After(s, a, t, r)
  {
    var s' := Send(s[i := s[i].(outbox := rest)], m.receiver.net, m);
    var queued := Settle(IsRegistered(s, a, t, r), Queue(s, t.net), a, t, r);
    assert IsRegistered(s', a, t, r) == IsRegistered(s, a, t, r);
    SettlePush(IsRegistered(s, a, t, r), Queue(s, t.net), m, a, t, r);
    SettlePop(queued, m, rest, a, t, r);
    if m.receiver.net == t.net {
      assert Queue(s', t.net) == Queue(s, t.net) + [m];
    } else {
      assert Queue(s', t.net) == Queue(s, t.net);
    }
    if a.net == i {
      assert Outbox(s', a.net) == rest;
    } else {
      assert Outbox(s', a.net) == Outbox(s, a.net);
      assert m != Watch(a, t, r) && m != Unwatch(a, t, r);
    }
  }

  lemma FlushKeepsWatchOk(s: System, i: nat, m: SysMsg, rest: seq<SysMsg>, a: Address, t: Address, r: WatchRef)
    requires i in s && s[i].outbox == [m] + rest && Departing(m, i) && WatchOk(s, a, t, r)
    ensures WatchOk(Send(s[i := s[i].(outbox := rest)], m.receiver.net, m), a, t, r)
  {
    var s' := Send(s[i := s[i].(outbox := rest)], m.receiver.net, m);
    assert Live(s', a) == Live(s, a) && Live(s', t) == Live(s, t);
    assert JobOf(s', a) == JobOf(s, a) && JobOf(s', t) == JobOf(s, t);
    if Live(s, t) {
      FlushKeepsAfter(s, i, m, rest, a, t, r);
    } else if Live(s, a) {
      HasDownMore(Queue(s, a.net), Queue(s', a.net), t, a);
      assert forall x :: x in Outbox(s, t.net) ==> x in Outbox(s', t.net) || x == m;
      assert m.receiver == a ==> m in Queue(s', a.net);
    }
  }

  // ---------------------------------------------------------------------------
  // Handling, draining, ending
  // ---------------------------------------------------------------------------

  lemma {:induction false} SettleWithoutWatch(registered: bool, q: seq<SysMsg>, a: Address, t: Address, r: WatchRef)
    requires Watch(a, t, r) !in q
    ensures Settle(registered, q, a, t, r) == (registered && Unwatch(a, t, r) !in q)
    decreases |q|
  {
    if q != [] {
      SettleWithoutWatch(registered, q[..|q| - 1], a, t, r);
    }
  }

  /** A live watch on a job that is about to end: it is registered, or its request
      is queued. */
  lemma HeldIsKnown(s: System, a: Address, t: Address, r: WatchRef)
    requires WatchOk(s, a, t, r) && Live(s, t) && Live(s, a) && Holds(s, a, t, r)
    requires forall m :: m in Outbox(s, a.net) ==> !m.Watch?
    ensures IsRegistered(s, a, t, r) || Watch(a, t, r) in Queue(s, t.net)
  {
    var queued := Settle(IsRegistered(s, a, t, r), Queue(s, t.net), a, t, r);
    SettleCauses(queued, Outbox(s, a.net), a, t, r);
    SettleCauses(IsRegistered(s, a, t, r), Queue(s, t.net), a, t, r);
  }

  lemma CloseKeepsWatchOk(s: System, i: nat, normal: bool, a: Address, t: Address, r: WatchRef)
    requires i in s && IsOpen(s[i].phase) && WatchOk(s, a, t, r)
    requires forall m :: m in Outbox(s, a.net) ==> !m.Watch?
    ensures WatchOk(s[i := s[i].(phase := Draining(normal))], a, t, r)
  {
    var s' := s[i := s[i].(phase := Draining(normal))];
    assert JobOf(s', a) == JobOf(s, a) && JobOf(s', t) == JobOf(s, t);
    if Live(s', a) && Holds(s, a, t, r) && Live(s, t) {
      HeldIsKnown(s, a, t, r);
    }
  }

  lemma RetireKeepsAfter(s: System, i: nat, c: ContainerState, who: Address, normal: bool, d: ContainerState,
                         a: Address, t: Address, r: WatchRef)
    requires AboutToRetire(s, i, c, who) && Retired(c, who, normal, d) && t != who
    ensures After(s[i := d], a, t, r) == (After(s, a, t, r) && !(a == who && Holds(s, a, t, r)))
  {
    var s' := s[i := d];
    FarewellMessages(d.outbox, who, c.jobs[who], normal);
    assert JobOf(s', t) == JobOf(s, t);
    SettlePop(IsRegistered(s, a, t, r), ForkDone(who), c.queue, a, t, r);
    var queued := Settle(IsRegistered(s, a, t, r), Queue(s, t.net), a, t, r);
    assert queued == Settle(IsRegistered(s', a, t, r), Queue(s', t.net), a, t, r);
    if a.net == i {
      SettleWithoutWatch(queued, d.outbox, a, t, r);
      assert Outbox(s, a.net) == [];
    }
  }

  /** What a retiring job's container keeps in its queue. */
  lemma RetireKeepsQueue(s: System, i: nat, c: ContainerState, who: Address, normal: bool, d: ContainerState, j: nat, m: SysMsg)
    requires AboutToRetire(s, i, c, who) && Retired(c, who, normal, d)
    ensures m in Queue(s, j) && !m.ForkDone? ==> m in Queue(s[i := d], j)
  {
  }

  lemma RetireKeepsDown(s: System, i: nat, c: ContainerState, who: Address, normal: bool, d: ContainerState,
                        j: nat, from: Address, to: Address)
    requires AboutToRetire(s, i, c, who) && Retired(c, who, normal, d)
    ensures HasDown(Queue(s, j), from, to) ==> HasDown(Queue(s[i := d], j), from, to)
  {
    if HasDown(Queue(s, j), from, to) {
      var m :| m in Queue(s, j) && m.Down? && m.sender == from && m.receiver == to;
      RetireKeepsQueue(s, i, c, who, normal, d, j, m);
    }
  }

  /** The job that ends tells its watchers. */
  lemma RetireTells(s: System, i: nat, c: ContainerState, who: Address, normal: bool, d: ContainerState,
                    a: Address, r: WatchRef)
    requires AboutToRetire(s, i, c, who) && Retired(c, who, normal, d) && WatchOk(s, a, who, r)
    requires forall m :: m in Outbox(s, a.net) ==> !m.Watch?
    ensures WatchOk(s[i := d], a, who, r)
  {
    var s' := s[i := d];
    assert !IsJob(s', who);
    if Live(s', a) && Holds(s', a, who, r) {
      assert a != who && JobOf(s', a) == JobOf(s, a) && Live(s, a);
      if Live(s, who) { HeldIsKnown(s, a, who, r); }
      if IsRegistered(s, a, who, r) {
        FarewellMessages(d.outbox, who, c.jobs[who], normal);
        assert IsWatcher(c.jobs[who], a);
        assert Down(who, a, ReasonOf(normal)) in Outbox(s', who.net);
      } else {
        RetireKeepsQueue(s, i, c, who, normal, d, who.net, Watch(a, who, r));
        RetireKeepsDown(s, i, c, who, normal, d, a.net, who, a);
      }
    }
  }

  lemma RetireKeepsWatchOk(s: System, i: nat, c: ContainerState, who: Address, normal: bool, d: ContainerState,
                           a: Address, t: Address, r: WatchRef)
    requires AboutToRetire(s, i, c, who) && Retired(c, who, normal, d) && WatchOk(s, a, t, r)
    requires forall m :: m in Outbox(s, a.net) ==> !m.Watch?
    ensures WatchOk(s[i := d], a, t, r)
  {
    var s' := s[i := d];
    if t == who {
      RetireTells(s, i, c, who, normal, d, a, r);
    } else {
      RetireKeepsAfter(s, i, c, who, normal, d, a, t, r);
      assert Live(s', t) == Live(s, t) && JobOf(s', t) == JobOf(s, t);
      assert a != who ==> JobOf(s', a) == JobOf(s, a);
      RetireKeepsQueue(s, i, c, who, normal, d, t.net, Watch(a, t, r));
      RetireKeepsDown(s, i, c, who, normal, d, a.net, t, a);
    }
  }

  function Popped(s: System, i: nat): System
    requires i in s && s[i].queue != []
  {
    s[i := s[i].(queue := s[i].queue[1..])]
  }

  /** Taking a message off the queue that is no `Watch` or `Unwatch` of this watch
      and no `Down` for its owner. */
  lemma PopKeepsWatchOk(s: System, i: nat, a: Address, t: Address, r: WatchRef)
    requires i in s && s[i].queue != [] && WatchOk(s, a, t, r)
    requires var m := s[i].queue[0];
      m != Watch(a, t, r) && m != Unwatch(a, t, r) && !(m.Down? && m.sender == t && m.receiver == a && Live(s, a))
    ensures WatchOk(Popped(s, i), a, t, r)
  {
    var s', m, rest := Popped(s, i), s[i].queue[0], s[i].queue[1..];
    assert s[i].queue == [m] + rest;
    assert JobOf(s', a) == JobOf(s, a) && JobOf(s', t) == JobOf(s, t);
    SettlePop(IsRegistered(s, a, t, r), m, rest, a, t, r);
    if Live(s, a) && Holds(s, a, t, r) && !Live(s, t) {
      assert Watch(a, t, r) in Queue(s, t.net) ==> Watch(a, t, r) in Queue(s', t.net);
      assert forall x :: x in Queue(s, a.net) ==> x == m || x in Queue(s', a.net);
    }
  }

  /** A queued `Watch` or `Unwatch` changes one registration and nothing else. */
  lemma RegisterTables(s: System, i: nat, m: SysMsg, d: ContainerState, a: Address, t: Address, r: WatchRef)
    requires Idle(s, i) && s[i].queue != [] && m == s[i].queue[0]
    requires (m.Watch? || m.Unwatch?) && m.receiver.net == i && m.receiver in s[i].jobs
    requires OnMsg(s[i].(queue := s[i].queue[1..]), m, d)
    ensures d == s[i].(queue := s[i].queue[1..], jobs := d.jobs) && d.jobs.Keys == s[i].jobs.Keys
    ensures Holds(s[i := d], a, t, r) == Holds(s, a, t, r)
    ensures IsRegistered(s[i := d], a, t, r) == Apply(IsRegistered(s, a, t, r), m, a, t, r)
  {
  }

  lemma RegisterHere(s: System, i: nat, m: SysMsg, d: ContainerState, a: Address, t: Address, r: WatchRef)
    requires i in s && s[i].queue != [] && m == s[i].queue[0] && WatchOk(s, a, t, r)
    requires t.net == i && t in s[i].jobs && Live(s, t)
    requires d == s[i].(queue := s[i].queue[1..], jobs := d.jobs) && d.jobs.Keys == s[i].jobs.Keys
    requires Holds(s[i := d], a, t, r) == Holds(s, a, t, r)
    requires IsRegistered(s[i := d], a, t, r) == Apply(IsRegistered(s, a, t, r), m, a, t, r)
    ensures WatchOk(s[i := d], a, t, r)
  {
    var s', rest := s[i := d], s[i].queue[1..];
    assert s[i].queue == [m] + rest;
    SettlePop(IsRegistered(s, a, t, r), m, rest, a, t, r);
    assert Outbox(s', a.net) == Outbox(s, a.net);
    assert After(s', a, t, r) == After(s, a, t, r);
    assert Live(s', t) && Live(s', a) == Live(s, a);
  }

  lemma RegisterElsewhere(s: System, i: nat, m: SysMsg, d: ContainerState, a: Address, t: Address, r: WatchRef)
    requires i in s && s[i].queue != [] && m == s[i].queue[0] && WatchOk(s, a, t, r)
    requires (m.Watch? || m.Unwatch?) && t != m.receiver
    requires d == s[i].(queue := s[i].queue[1..], jobs := d.jobs) && d.jobs.Keys == s[i].jobs.Keys
    requires Holds(s[i := d], a, t, r) == Holds(s, a, t, r)
    requires IsRegistered(s[i := d], a, t, r) == Apply(IsRegistered(s, a, t, r), m, a, t, r)
    ensures WatchOk(s[i := d], a, t, r)
  {
    var s', s1 := s[i := d], Popped(s, i);
    PopKeepsWatchOk(s, i, a, t, r);
    assert Queue(s1, t.net) == Queue(s', t.net) && Queue(s1, a.net) == Queue(s', a.net);
    assert Outbox(s1, t.net) == Outbox(s', t.net) && Outbox(s1, a.net) == Outbox(s', a.net);
    assert Live(s', a) == Live(s1, a) && Live(s', t) == Live(s1, t);
    assert IsRegistered(s1, a, t, r) == IsRegistered(s', a, t, r);
    assert Holds(s1, a, t, r) == Holds(s', a, t, r);
  }

  /** A queued `Watch` or `Unwatch` takes effect at a job. */
  lemma RegisterKeepsWatchOk(s: System, i: nat, m: SysMsg, d: ContainerState, a: Address, t: Address, r: WatchRef)
    requires Idle(s, i) && s[i].queue != [] && m == s[i].queue[0] && WatchOk(s, a, t, r)
    requires (m.Watch? || m.Unwatch?) && m.receiver.net == i && m.receiver in s[i].jobs
    requires OnMsg(s[i].(queue := s[i].queue[1..]), m, d)
    ensures WatchOk(s[i := d], a, t, r)
  {
    RegisterTables(s, i, m, d, a, t, r);
    if t == m.receiver {
      RegisterHere(s, i, m, d, a, t, r);
    } else {
      RegisterElsewhere(s, i, m, d, a, t, r);
    }
  }

  /** A `Watch` for a missing job, or any while draining, is answered by a `Down`. */
  lemma AnswerKeepsWatchOk(s: System, i: nat, reason: ExitReason, d: ContainerState, a: Address, t: Address, r: WatchRef)
    requires i in s && s[i].queue != [] && s[i].outbox == [] && WatchOk(s, a, t, r)
    requires var m := s[i].queue[0];
      && m.Watch? && m.receiver.net == i && !Live(s, m.receiver)
      && d == s[i].(queue := s[i].queue[1..], outbox := [Down(m.receiver, m.sender, reason)])
    ensures WatchOk(s[i := d], a, t, r)
  {
    var s', m, rest := s[i := d], s[i].queue[0], s[i].queue[1..];
    assert JobOf(s', a) == JobOf(s, a) && JobOf(s', t) == JobOf(s, t);
    if m == Watch(a, t, r) {
      assert Down(t, a, reason) in Outbox(s', t.net);
    } else {
      PopKeepsWatchOk(s, i, a, t, r);
      QuietUpdateKeepsWatchOk(Popped(s, i), i, d, a, t, r);
      assert s' == Popped(s, i)[i := d];
    }
  }

  lemma HearDownTables(s: System, i: nat, c: ContainerState, who: Address, peer: Address, normal: bool, d: ContainerState,
                       a: Address, t: Address, r: WatchRef)
    requires i in s && who.net == i && who in c.jobs && c.jobs == s[i].jobs && HeardDown(c, who, peer, normal, d)
    ensures Holds(s[i := d], a, t, r) == (Holds(s, a, t, r) && !(a == who && t == peer))
    ensures IsRegistered(s[i := d], a, t, r) == (IsRegistered(s, a, t, r) && !(t == who && a == peer))
  {
  }

  /** Losing a registration can only make a settled registration disappear. */
  lemma SettleMonotone(before: bool, after: bool, q: seq<SysMsg>, o: seq<SysMsg>, a: Address, t: Address, r: WatchRef)
    requires after ==> before
    ensures Settle(Settle(after, q, a, t, r), o, a, t, r) ==> Settle(Settle(before, q, a, t, r), o, a, t, r)
  {
    SettleCauses(true, q, a, t, r);
    SettleCauses(true, o, a, t, r);
  }

  /** A `Down` heard by its receiver: its sender is dead, so dropping the watches
      on it and its registrations is right. */
  lemma HearDownKeepsWatchOk(s: System, i: nat, m: SysMsg, d: ContainerState, a: Address, t: Address, r: WatchRef)
    requires Idle(s, i) && s[i].queue != [] && m == s[i].queue[0] && WatchOk(s, a, t, r)
    requires m.Down? && m.receiver.net == i && m.receiver in s[i].jobs && !Live(s, m.sender)
    requires HeardDown(s[i].(queue := s[i].queue[1..]), m.receiver, m.sender, m.reason.Normal?, d)
    ensures WatchOk(s[i := d], a, t, r)
  {
    var s', s1, c := s[i := d], Popped(s, i), s[i].(queue := s[i].queue[1..]);
    HearDownTables(s, i, c, m.receiver, m.sender, m.reason.Normal?, d, a, t, r);
    assert d.queue == c.queue && d.outbox == c.outbox && d.phase == c.phase && d.jobs.Keys == c.jobs.Keys;
    assert Live(s', a) == Live(s, a) && Live(s', t) == Live(s, t);
    if t != m.sender || a != m.receiver {
      PopKeepsWatchOk(s, i, a, t, r);
      assert JobOf(s1, a) == JobOf(s, a) && JobOf(s1, t) == JobOf(s, t);
      assert Queue(s1, t.net) == Queue(s', t.net) && Queue(s1, a.net) == Queue(s', a.net);
      SettleMonotone(IsRegistered(s1, a, t, r), IsRegistered(s', a, t, r), Queue(s', t.net), Outbox(s', a.net), a, t, r);
    }
  }

  lemma ForkDoneKeepsWatchOk(s: System, i: nat, fork: Address, d: ContainerState, a: Address, t: Address, r: WatchRef)
    requires Idle(s, i) && s[i].queue != [] && s[i].queue[0] == ForkDone(fork) && fork in s[i].jobs && fork.net == i
    requires Retired(s[i].(queue := s[i].queue[1..]), fork, true, d) && WatchOk(s, a, t, r)
    requires forall m :: m in Outbox(s, a.net) ==> !m.Watch?
    ensures WatchOk(s[i := d], a, t, r)
  {
    var c := s[i].(queue := s[i].queue[1..]);
    assert s[i].queue == [ForkDone(fork)] + c.queue;
    RetireKeepsWatchOk(s, i, c, fork, true, d, a, t, r);
  }

  /** The remaining messages change no watch of a live job. */
  lemma PlainKeepsWatchOk(s: System, i: nat, d: ContainerState, a: Address, t: Address, r: WatchRef)
    requires Idle(s, i) && s[i].queue != [] && WatchOk(s, a, t, r)
    requires var m := s[i].queue[0];
      && Arrived(m, i) && !m.ForkDone? && !m.Watch?
      && (m.Unwatch? || m.Down? ==> m.receiver !in s[i].jobs)
      && OnMsg(s[i].(queue := s[i].queue[1..]), m, d)
    ensures WatchOk(s[i := d], a, t, r)
  {
    var m, c := s[i].queue[0], s[i].(queue := s[i].queue[1..]);
    if m == Unwatch(a, t, r) {
      var s' := s[i := d];
      assert !Live(s, t) && d == c;
      assert JobOf(s', a) == JobOf(s, a) && JobOf(s', t) == JobOf(s, t);
      assert forall x :: x in s[i].queue && x != m ==> x in c.queue;
    } else {
      PopKeepsWatchOk(s, i, a, t, r);
      if m.Exit? { ExitTouchesLinksOnly(c, m, d); }
      QuietUpdateKeepsWatchOk(Popped(s, i), i, d, a, t, r);
      assert s[i := d] == Popped(s, i)[i := d];
    }
  }

  lemma HandleKeepsWatchOk(s: System, i: nat, s': System, a: Address, t: Address, r: WatchRef)
    requires Sound(s) && Next(s, Handle(i), s') && WatchOk(s, a, t, r)
    ensures WatchOk(s', a, t, r)
  {
    var m, c, d := s[i].queue[0], s[i].(queue := s[i].queue[1..]), s'[i];
    assert m in Queue(s, i) && Arrived(m, i) && CellOk(i, s[i]);
    assert a.net in s ==> CellOk(a.net, s[a.net]);
    if m.ForkDone? {
      ForkDoneKeepsWatchOk(s, i, m.fork, d, a, t, r);
    } else if (m.Watch? || m.Unwatch?) && m.receiver in s[i].jobs {
      RegisterKeepsWatchOk(s, i, m, d, a, t, r);
    } else if m.Watch? {
      AnswerKeepsWatchOk(s, i, LinkDown, d, a, t, r);
    } else if m.Down? && m.receiver in s[i].jobs {
      HearDownKeepsWatchOk(s, i, m, d, a, t, r);
    } else {
      assert m != Unwatch(a, t, r) || !Live(s, t);
      PlainKeepsWatchOk(s, i, d, a, t, r);
    }
  }

  /** A draining container may ignore everything but `Watch` and `ForkDone`. */
  lemma IgnoredKeepsWatchOk(s: System, i: nat, d: ContainerState, a: Address, t: Address, r: WatchRef)
    requires i in s && s[i].phase.Draining? && s[i].outbox == [] && s[i].queue != [] && WatchOk(s, a, t, r)
    requires var m := s[i].queue[0];
      && Arrived(m, i) && !m.Watch?
      && (m.ForkDone? ==> m.fork !in s[i].jobs)
      && OnDrain(s[i].(queue := s[i].queue[1..]), m, s[i].phase.normal, d)
    ensures WatchOk(s[i := d], a, t, r)
  {
    var m, c := s[i].queue[0], s[i].(queue := s[i].queue[1..]);
    if m == Unwatch(a, t, r) {
      var s' := s[i := d];
      assert !Live(s, t) && d == c;
      assert JobOf(s', a) == JobOf(s, a) && JobOf(s', t) == JobOf(s, t);
      assert forall x :: x in s[i].queue && x != m ==> x in c.queue;
    } else {
      PopKeepsWatchOk(s, i, a, t, r);
      QuietUpdateKeepsWatchOk(Popped(s, i), i, d, a, t, r);
      assert s[i := d] == Popped(s, i)[i := d];
    }
  }

  lemma DrainedForkKeepsWatchOk(s: System, i: nat, s': System, a: Address, t: Address, r: WatchRef)
    requires Sound(s) && Next(s, Drain(i), s') && WatchOk(s, a, t, r)
    requires s[i].queue[0].ForkDone? && s[i].queue[0].fork in s[i].jobs
    ensures WatchOk(s', a, t, r)
  {
    var m, c := s[i].queue[0], s[i].(queue := s[i].queue[1..]);
    assert m in Queue(s, i) && Arrived(m, i) && CellOk(i, s[i]);
    assert s[i].queue == [m] + c.queue;
    RetireKeepsWatchOk(s, i, c, m.fork, s[i].phase.normal, s'[i], a, t, r);
  }

  lemma DrainKeepsWatchOk(s: System, i: nat, s': System, a: Address, t: Address, r: WatchRef)
    requires Sound(s) && Next(s, Drain(i), s') && WatchOk(s, a, t, r)
    ensures WatchOk(s', a, t, r)
  {
    var m, c, d := s[i].queue[0], s[i].(queue := s[i].queue[1..]), s'[i];
    assert m in Queue(s, i) && Arrived(m, i) && CellOk(i, s[i]);
    assert a.net in s ==> CellOk(a.net, s[a.net]);
    if m.ForkDone? && m.fork in c.jobs {
      DrainedForkKeepsWatchOk(s, i, s', a, t, r);
    } else if m.Watch? {
      AnswerKeepsWatchOk(s, i, ReasonOf(s[i].phase.normal), d, a, t, r);
    } else {
      IgnoredKeepsWatchOk(s, i, d, a, t, r);
    }
  }

  lemma FinishKeepsWatchOk(s: System, i: nat, s': System, a: Address, t: Address, r: WatchRef)
    requires Sound(s) && Next(s, Finish(i), s') && WatchOk(s, a, t, r)
    ensures WatchOk(s', a, t, r)
  {
    assert CellOk(i, s[i]);
    assert a.net in s ==> CellOk(a.net, s[a.net]);
    RetireKeepsWatchOk(s, i, s[i].(phase := Gone), s[i].main, s[i].phase.normal, s'[i], a, t, r);
  }

  lemma SmallStepKeepsWatchOk(s: System, step: Step, s': System, a: Address, t: Address, r: WatchRef)
    requires Sound(s) && Next(s, step, s') && WatchOk(s, a, t, r)
    requires step.StartDone? || step.CallExit? || step.CallTrapExit? || step.CallUnlink?
    ensures WatchOk(s', a, t, r)
  {
    if s' != s {
      QuietUpdateKeepsWatchOk(s, step.i, s'[step.i], a, t, r);
    }
  }

  lemma LinkKeepsWatchOk(s: System, i: nat, c: ContainerState, sender: Address, receiver: Address,
                         a: Address, t: Address, r: WatchRef)
    requires i in s && IsOpen(s[i].phase) && IsOpen(c.phase) && c == s[i].(phase := c.phase) && sender in c.jobs
    requires WatchOk(s, a, t, r)
    ensures WatchOk(LinkedSystem(s, i, c, sender, receiver), a, t, r)
  {
    var s1 := s[i := Linked(c, sender, receiver)];
    QuietUpdateKeepsWatchOk(s, i, Linked(c, sender, receiver), a, t, r);
    if Accepting(s1, receiver.net) {
      PushKeepsWatchOk(s1, receiver.net, Connect(sender, receiver), a, t, r);
    } else {
      PushKeepsWatchOk(s1, i, Exit(receiver, sender, LinkDown), a, t, r);
    }
  }

  lemma LinkStepKeepsWatchOk(s: System, step: Step, s': System, a: Address, t: Address, r: WatchRef)
    requires Next(s, step, s') && WatchOk(s, a, t, r) && (step.StartLink? || step.CallLink?)
    ensures WatchOk(s', a, t, r)
  {
    var i := step.i;
    if step.StartLink? {
      LinkKeepsWatchOk(s, i, s[i].(phase := Starting(s[i].phase.pending - {step.peer})), s[i].main, step.peer, a, t, r);
    } else if s' != s {
      LinkKeepsWatchOk(s, i, s[i], step.sender, step.receiver, a, t, r);
    }
  }

  lemma PushStepKeepsWatchOk(s: System, step: Step, s': System, a: Address, t: Address, r: WatchRef)
    requires Next(s, step, s') && WatchOk(s, a, t, r)
    requires step.DropFork? || step.DropLateFork? || step.SendKill? || step.SendTerminate?
    ensures WatchOk(s', a, t, r)
  {
    if s' != s {
      match step
      case DropFork(i, fork) => PushKeepsWatchOk(s, i, ForkDone(fork), a, t, r);
      case DropLateFork(i, fork) => PushKeepsWatchOk(s, i, ForkDone(fork), a, t, r);
      case SendKill(i) => PushKeepsWatchOk(s, i, Kill, a, t, r);
      case SendTerminate(sender, receiver) =>
        PushKeepsWatchOk(s, receiver.net, Exit(sender, receiver, Terminate), a, t, r);
    }
  }

  lemma BirthStepKeepsWatchOk(s: System, step: Step, s': System, a: Address, t: Address, r: WatchRef)
    requires Sound(s) && Next(s, step, s') && WatchOk(s, a, t, r) && (step.Start? || step.CallForkAdded?)
    ensures WatchOk(s', a, t, r)
  {
    assert step.i in s ==> CellOk(step.i, s[step.i]);
    BirthKeepsWatchOk(s, if step.Start? then step.main else step.fork, s'[step.i], a, t, r);
  }

  lemma WatchStepKeepsWatchOk(s: System, step: Step, s': System, a: Address, t: Address, r: WatchRef)
    requires Sound(s) && Next(s, step, s') && WatchOk(s, a, t, r)
    requires step.CallWatch? || step.CallUnwatch? || step.Flush? || step.Close?
    ensures WatchOk(s', a, t, r)
  {
    var i := step.i;
    assert CellOk(i, s[i]);
    if step.CallWatch? {
      CallWatchKeepsWatchOk(s, i, step.sender, step.receiver, step.watchRef, a, t, r);
    } else if step.CallUnwatch? {
      if step.watchRef in s[i].taken { CallUnwatchKeepsWatchOk(s, i, step.watchRef, a, t, r); }
    } else if step.Flush? {
      assert s[i].outbox == [s[i].outbox[0]] + s[i].outbox[1..];
      FlushKeepsWatchOk(s, i, s[i].outbox[0], s[i].outbox[1..], a, t, r);
    } else {
      assert a.net in s ==> CellOk(a.net, s[a.net]);
      CloseKeepsWatchOk(s, i, s[i].phase.normal, a, t, r);
    }
  }

  /** Every step keeps every watch accounted for. */
  lemma StepKeepsWatchOk(s: System, step: Step, s': System, a: Address, t: Address, r: WatchRef)
    requires Sound(s) && Next(s, step, s') && WatchOk(s, a, t, r)
    ensures WatchOk(s', a, t, r)
  {
    if step.Start? || step.CallForkAdded? {
      BirthStepKeepsWatchOk(s, step, s', a, t, r);
    } else if step.StartLink? || step.CallLink? {
      LinkStepKeepsWatchOk(s, step, s', a, t, r);
    } else if step.DropFork? || step.DropLateFork? || step.SendKill? || step.SendTerminate? {
      PushStepKeepsWatchOk(s, step, s', a, t, r);
    } else if step.CallWatch? || step.CallUnwatch? || step.Flush? || step.Close? {
      WatchStepKeepsWatchOk(s, step, s', a, t, r);
    } else if step.Handle? {
      HandleKeepsWatchOk(s, step.i, s', a, t, r);
    } else if step.Drain? {
      DrainKeepsWatchOk(s, step.i, s', a, t, r);
    } else if step.Finish? {
      FinishKeepsWatchOk(s, step.i, s', a, t, r);
    } else {
      SmallStepKeepsWatchOk(s, step, s', a, t, r);
    }
  }

  // ---------------------------------------------------------------------------
  // Runs
  // ---------------------------------------------------------------------------

  lemma {:induction false} RunKeepsWatchOk(states: seq<System>, steps: seq<Step>, k: nat, a: Address, t: Address, r: WatchRef)
    requires IsRun(states, steps) && k < |states|
    ensures WatchOk(states[k], a, t, r)
    decreases k
  {
    if k > 0 {
      RunIsSound(states, steps, k - 1);
      RunKeepsWatchOk(states, steps, k - 1, a, t, r);
      StepKeepsWatchOk(states[k - 1], steps[k - 1], states[k], a, t, r);
    }
  }

  /** No `Down` is lost: a watch held by a live job has its request queued at the
      target, or is registered there, or has a `Down` under way to the watcher. If
      the target is live, everything under way settles to a registration. */
  lemma NoDownIsLost(states: seq<System>, steps: seq<Step>, k: nat, a: Address, t: Address, r: WatchRef)
    requires IsRun(states, steps) && k < |states|
    requires Live(states[k], a) && Holds(states[k], a, t, r)
    ensures var s := states[k];
      || Watch(a, t, r) in Queue(s, t.net)
      || (IsJob(s, t) && IsRegistered(s, a, t, r))
      || HasDown(Queue(s, a.net), t, a)
      || HasDown(Outbox(s, t.net), t, a)
    ensures Live(states[k], t) ==> After(states[k], a, t, r)
  {
    var s := states[k];
    RunKeepsWatchOk(states, steps, k, a, t, r);
    RunIsSound(states, steps, k);
    assert CellOk(a.net, s[a.net]);
    if Live(s, t) { HeldIsKnown(s, a, t, r); }
  }

  /** No registration is left behind: if the watcher does not hold the watch (any
      more), an `Unwatch` that clears it is under way. */
  lemma StaleRegistrationIsCleared(states: seq<System>, steps: seq<Step>, k: nat, a: Address, t: Address, r: WatchRef)
    requires IsRun(states, steps) && k < |states|
    requires Live(states[k], t) && IsRegistered(states[k], a, t, r) && !Holds(states[k], a, t, r)
    ensures Unwatch(a, t, r) in Queue(states[k], t.net) || Unwatch(a, t, r) in Outbox(states[k], a.net)
    ensures !After(states[k], a, t, r)
  {
    var s := states[k];
    RunKeepsWatchOk(states, steps, k, a, t, r);
    SettleCauses(true, Queue(s, t.net), a, t, r);
    SettleCauses(true, Outbox(s, a.net), a, t, r);
  }

  /** Nothing is queued and nothing is about to be sent. */
  ghost predicate Quiet(s: System) {
    forall i :: Queue(s, i) == [] && Outbox(s, i) == []
  }

  /** When nothing is under way, the tables of the two sides are mirror images, and
      every watch of a live job has a target whose container has not finished. */
  lemma QuietTablesMirror(states: seq<System>, steps: seq<Step>, k: nat, a: Address, t: Address, r: WatchRef)
    requires IsRun(states, steps) && k < |states| && Quiet(states[k])
    ensures Live(states[k], t) && IsRegistered(states[k], a, t, r) ==> Holds(states[k], a, t, r)
    ensures Live(states[k], a) && Holds(states[k], a, t, r) ==> IsJob(states[k], t) && IsRegistered(states[k], a, t, r)
  {
    var s := states[k];
    RunKeepsWatchOk(states, steps, k, a, t, r);
    assert Queue(s, t.net) == [] && Outbox(s, a.net) == [] && Queue(s, a.net) == [] && Outbox(s, t.net) == [];
  }
}
