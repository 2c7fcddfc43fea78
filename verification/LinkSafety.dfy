/** Links are symmetric, and the end of a linked job is announced, as long as no
    link or unlink call crosses an opposite message of the peer. */
module LinkSafety {
  import opened Protocol
  import opened ProtocolInvariants

  // ---------------------------------------------------------------------------
  // Pending links
  // ---------------------------------------------------------------------------

  /** A message from `b` to `a` that ends the link. */
  predicate Cuts(m: SysMsg, a: Address, b: Address) {
    m == Disconnect(b, a) || m == Exit(b, a, Normal) || m == Exit(b, a, LinkDown)
  }

  /** The effect of `m` on whether `a` is linked to `b`. */
  function Apply(linked: bool, m: SysMsg, a: Address, b: Address): bool {
    if m == Connect(b, a) then true
    else if Cuts(m, a, b) then false
    else linked
  }

  /** Whether `a` is linked to `b` once `a` has handled the messages in `q`. */
  function Settle(linked: bool, q: seq<SysMsg>, a: Address, b: Address): bool
    decreases |q|
  {
    if q == [] then linked
    else Apply(Settle(linked, q[..|q| - 1], a, b), q[|q| - 1], a, b)
  }

  lemma {:induction false} SettlePush(linked: bool, q: seq<SysMsg>, m: SysMsg, a: Address, b: Address)
    ensures Settle(linked, q + [m], a, b) == Apply(Settle(linked, q, a, b), m, a, b)
  {
    assert (q + [m])[..|q|] == q;
  }

  lemma SettleOne(linked: bool, m: SysMsg, a: Address, b: Address)
    ensures Settle(linked, [m], a, b) == Apply(linked, m, a, b)
  {
    assert [m][..0] == [];
  }

  lemma {:induction false} SettlePop(linked: bool, m: SysMsg, q: seq<SysMsg>, a: Address, b: Address)
    ensures Settle(linked, [m] + q, a, b) == Settle(Apply(linked, m, a, b), q, a, b)
    decreases |q|
  {
    if q == [] {
      assert [m] + q == [m] && [m][..0] == [];
    } else {
      var n := |q| - 1;
      assert ([m] + q)[..n + 1] == [m] + q[..n];
      SettlePop(linked, m, q[..n], a, b);
    }
  }

  lemma {:induction false} SettleCauses(linked: bool, q: seq<SysMsg>, a: Address, b: Address)
    ensures Settle(linked, q, a, b) && !linked ==> Connect(b, a) in q
    ensures !Settle(linked, q, a, b) && linked ==> exists m :: m in q && Cuts(m, a, b)
    ensures Settle(false, q, a, b) ==> Settle(true, q, a, b)
    decreases |q|
  {
    if q != [] {
      SettleCauses(linked, q[..|q| - 1], a, b);
    }
  }

  lemma {:induction false} SettleWithoutConnect(linked: bool, q: seq<SysMsg>, a: Address, b: Address)
    requires Connect(b, a) !in q
    ensures Settle(linked, q, a, b) == (linked && forall m :: m in q ==> !Cuts(m, a, b))
    decreases |q|
  {
    if q != [] {
      SettleWithoutConnect(linked, q[..|q| - 1], a, b);
      assert q == q[..|q| - 1] + [q[|q| - 1]];
    }
  }

  // ---------------------------------------------------------------------------
  // The invariant
  // ---------------------------------------------------------------------------

  predicate IsLinked(s: System, a: Address, b: Address) {
    b in JobOf(s, a).linkedTo
  }

  /** Whether `a` ends up linked to `b` if its present link state is `linked` and
      everything under way from `b` is handled. */
  function Pending(s: System, linked: bool, a: Address, b: Address): bool {
    Settle(Settle(linked, Queue(s, a.net), a, b), Outbox(s, b.net), a, b)
  }

  function WillLink(s: System, a: Address, b: Address): bool {
    Pending(s, IsLinked(s, a, b), a, b)
  }

  /** Between live jobs links settle to a symmetric relation. A live job that stays
      linked to a dead one is still owed an `Exit` by the container of the dead. */
  predicate LinkOk(s: System, a: Address, b: Address) {
    Live(s, a) ==>
      && (Live(s, b) ==> (WillLink(s, a, b) <==> WillLink(s, b, a)))
      && (!Live(s, b) && WillLink(s, a, b) ==> Connect(a, b) in Queue(s, b.net) || IsLinked(s, b, a))
  }

  predicate BothOk(s: System, a: Address, b: Address) {
    LinkOk(s, a, b) && LinkOk(s, b, a)
  }

  /** No effect on the links between `a` and `b`, in either direction. */
  predicate Neutral(m: SysMsg, a: Address, b: Address) {
    m != Connect(a, b) && m != Connect(b, a) && !Cuts(m, a, b) && !Cuts(m, b, a)
  }

  lemma PushKeepsLinkOk(s: System, i: nat, m: SysMsg, a: Address, b: Address)
    requires i in s && Neutral(m, a, b) && LinkOk(s, a, b)
    ensures LinkOk(Push(s, i, m), a, b)
  {
    var s' := Push(s, i, m);
    assert JobOf(s', a) == JobOf(s, a) && JobOf(s', b) == JobOf(s, b);
    SettlePush(IsLinked(s, a, b), Queue(s, i), m, a, b);
    SettlePush(IsLinked(s, b, a), Queue(s, i), m, b, a);
  }

  lemma QuietPending(s: System, i: nat, d: ContainerState, linked: bool, a: Address, b: Address)
    requires i in s && d.queue == s[i].queue
    requires d.outbox == s[i].outbox || (s[i].outbox == [] && |d.outbox| == 1 && Neutral(d.outbox[0], a, b))
    ensures Pending(s[i := d], linked, a, b) == Pending(s, linked, a, b)
  {
    if d.outbox != s[i].outbox && b.net == i {
      assert d.outbox == [] + [d.outbox[0]];
      SettlePush(Settle(linked, Queue(s, a.net), a, b), [], d.outbox[0], a, b);
    }
  }

  /** A change of one container that keeps its links and its queue open or closed
      as it is, and adds at most one neutral message to an empty outbox. */
  lemma QuietUpdateKeepsLinkOk(s: System, i: nat, d: ContainerState, a: Address, b: Address)
    requires i in s && LinkOk(s, a, b)
    requires d.jobs.Keys == s[i].jobs.Keys
    requires forall x :: x in d.jobs ==> d.jobs[x].linkedTo == s[i].jobs[x].linkedTo
    requires IsOpen(d.phase) == IsOpen(s[i].phase) && d.queue == s[i].queue
    requires d.outbox == s[i].outbox || (s[i].outbox == [] && |d.outbox| == 1 && Neutral(d.outbox[0], a, b))
    ensures LinkOk(s[i := d], a, b)
  {
    var s' := s[i := d];
    assert IsLinked(s', a, b) == IsLinked(s, a, b) && IsLinked(s', b, a) == IsLinked(s, b, a);
    QuietPending(s, i, d, IsLinked(s, a, b), a, b);
    QuietPending(s, i, d, IsLinked(s, b, a), b, a);
    assert Live(s', a) == Live(s, a) && Live(s', b) == Live(s, b);
  }

  // ---------------------------------------------------------------------------
  // Births, ends, sends
  // ---------------------------------------------------------------------------

  lemma FreshIsUnlinked(s: System, x: Address, y: Address)
    requires Fresh(s, x) && Live(s, y) && LinkOk(s, y, x)
    ensures !WillLink(s, y, x)
  {
    assert Mentions(Connect(y, x), x);
    assert Connect(y, x) !in Queue(s, x.net);
  }

  /** Nothing is pending towards or from a fresh address. */
  lemma FreshIsSilent(s: System, x: Address, y: Address)
    requires Fresh(s, x)
    ensures !Pending(s, false, x, y)
  {
    assert Mentions(Connect(y, x), x);
    SettleCauses(false, Queue(s, x.net), x, y);
    SettleCauses(false, Outbox(s, y.net), x, y);
  }

  lemma BirthKeepsLinkOk(s: System, x: Address, d: ContainerState, a: Address, b: Address)
    requires Fresh(s, x) && BothOk(s, a, b)
    requires d.queue == Queue(s, x.net) && d.outbox == Outbox(s, x.net)
    requires x.net in s ==> s[x.net].jobs.Keys == {} || (IsOpen(s[x.net].phase) && IsOpen(d.phase))
    requires d.jobs == (if x.net in s then s[x.net].jobs else map[])[x := NO_JOB]
    ensures LinkOk(s[x.net := d], a, b)
  {
    var s' := s[x.net := d];
    assert JobOf(s', a) == JobOf(s, a) && JobOf(s', b) == JobOf(s, b);
    assert WillLink(s', a, b) == WillLink(s, a, b) && WillLink(s', b, a) == WillLink(s, b, a);
    if a == x {
      FreshIsSilent(s, x, b);
      if Live(s, b) { FreshIsUnlinked(s, x, b); }
    } else if b == x {
      FreshIsSilent(s, x, a);
      if Live(s, a) { FreshIsUnlinked(s, x, a); }
    }
  }

  /** Between live jobs, a link to come on one side is known to the other. */
  lemma LinkIsKnown(s: System, a: Address, b: Address)
    requires Live(s, a) && Live(s, b) && LinkOk(s, a, b) && WillLink(s, a, b)
    requires forall m :: m in Outbox(s, a.net) ==> !m.Connect?
    ensures Connect(a, b) in Queue(s, b.net) || IsLinked(s, b, a)
  {
    SettleCauses(Settle(IsLinked(s, b, a), Queue(s, b.net), b, a), Outbox(s, a.net), b, a);
    SettleCauses(IsLinked(s, b, a), Queue(s, b.net), b, a);
  }

  lemma CloseKeepsLinkOk(s: System, i: nat, normal: bool, a: Address, b: Address)
    requires i in s && IsOpen(s[i].phase) && LinkOk(s, a, b)
    requires forall m :: m in Outbox(s, a.net) ==> !m.Connect?
    ensures LinkOk(s[i := s[i].(phase := Draining(normal))], a, b)
  {
    var s' := s[i := s[i].(phase := Draining(normal))];
    assert JobOf(s', a) == JobOf(s, a) && JobOf(s', b) == JobOf(s, b);
    if Live(s', a) && Live(s, b) && WillLink(s, a, b) {
      LinkIsKnown(s, a, b);
    }
  }

  /** Links to other jobs than the one that ends, as seen by a remaining job. */
  lemma RetireKeepsWillLink(s: System, i: nat, c: ContainerState, who: Address, normal: bool, d: ContainerState, a: Address, b: Address)
    requires AboutToRetire(s, i, c, who) && Retired(c, who, normal, d) && a != who
    ensures WillLink(s[i := d], a, b) == (WillLink(s, a, b) && !(b == who && IsLinked(s, b, a)))
  {
    var s' := s[i := d];
    FarewellMessages(d.outbox, who, c.jobs[who], normal);
    assert JobOf(s', a) == JobOf(s, a);
    SettlePop(IsLinked(s, a, b), ForkDone(who), c.queue, a, b);
    var queued := Settle(IsLinked(s, a, b), Queue(s, a.net), a, b);
    assert queued == Settle(IsLinked(s', a, b), Queue(s', a.net), a, b);
    if b.net == i {
      assert Outbox(s, b.net) == [];
      SettleWithoutConnect(queued, d.outbox, a, b);
      if b == who && IsLinked(s, b, a) {
        assert Cuts(Exit(b, a, ReasonOf(normal)), a, b) && Exit(b, a, ReasonOf(normal)) in d.outbox;
      } else {
        assert forall m :: m in d.outbox ==> !Cuts(m, a, b);
      }
    }
  }

  lemma RetireKeepsLinkOk(s: System, i: nat, c: ContainerState, who: Address, normal: bool, d: ContainerState, a: Address, b: Address)
    requires AboutToRetire(s, i, c, who) && Retired(c, who, normal, d) && LinkOk(s, a, b)
    requires forall m :: m in Outbox(s, a.net) ==> !m.Connect?
    ensures LinkOk(s[i := d], a, b)
  {
    var s' := s[i := d];
    if a != who {
      RetireKeepsWillLink(s, i, c, who, normal, d, a, b);
      assert Connect(a, b) in Queue(s, b.net) ==> Connect(a, b) in Queue(s', b.net);
      if b != who {
        RetireKeepsWillLink(s, i, c, who, normal, d, b, a);
        assert JobOf(s', b) == JobOf(s, b);
      } else if Live(s', a) && Live(s, b) && WillLink(s, a, b) {
        LinkIsKnown(s, a, b);
      }
    }
  }

  /** What a flush does to the queue of one end and to the outbox of the other. */
  lemma FlushMoves(s: System, i: nat, m: SysMsg, rest: seq<SysMsg>, a: Address, b: Address)
    requires i in s && s[i].outbox == [m] + rest && Departing(m, i) && Accepting(s, a.net)
    ensures var s' := Send(s[i := s[i].(outbox := rest)], m.receiver.net, m);
            && Queue(s', a.net) == (if m.receiver.net == a.net then Queue(s, a.net) + [m] else Queue(s, a.net))
            && Outbox(s', b.net) == (if b.net == i then rest else Outbox(s, b.net))
    ensures b.net != i ==> !Cuts(m, a, b) && m != Connect(b, a)
  {
  }

  lemma FlushKeepsPending(s: System, i: nat, m: SysMsg, rest: seq<SysMsg>, linked: bool, a: Address, b: Address)
    requires i in s && s[i].outbox == [m] + rest && Departing(m, i) && Accepting(s, a.net)
    ensures Pending(Send(s[i := s[i].(outbox := rest)], m.receiver.net, m), linked, a, b) == Pending(s, linked, a, b)
  {
    FlushMoves(s, i, m, rest, a, b);
    SettlePush(linked, Queue(s, a.net), m, a, b);
    SettlePop(Settle(linked, Queue(s, a.net), a, b), m, rest, a, b);
  }

  lemma FlushKeepsLinkOk(s: System, i: nat, m: SysMsg, rest: seq<SysMsg>, a: Address, b: Address)
    requires i in s && s[i].outbox == [m] + rest && Departing(m, i) && LinkOk(s, a, b)
    ensures LinkOk(Send(s[i := s[i].(outbox := rest)], m.receiver.net, m), a, b)
  {
    var s' := Send(s[i := s[i].(outbox := rest)], m.receiver.net, m);
    assert Live(s', a) == Live(s, a) && Live(s', b) == Live(s, b);
    assert JobOf(s', a) == JobOf(s, a) && JobOf(s', b) == JobOf(s, b);
    assert Connect(a, b) in Queue(s, b.net) ==> Connect(a, b) in Queue(s', b.net);
    if Live(s, a) {
      FlushKeepsPending(s, i, m, rest, IsLinked(s, a, b), a, b);
    }
    if Live(s, b) {
      FlushKeepsPending(s, i, m, rest, IsLinked(s, b, a), b, a);
    }
  }

  // ---------------------------------------------------------------------------
  // Link and unlink calls
  // ---------------------------------------------------------------------------

  /** A link call crosses a pending end of the link by the peer; an unlink call
      crosses a pending link request of the peer. */
  predicate CrossesLink(s: System, from: Address, to: Address) {
    from != to && Live(s, to) && !IsLinked(s, from, to) && !Pending(s, true, from, to)
  }

  predicate CrossesUnlink(s: System, from: Address, to: Address) {
    from != to && Live(s, to) && IsLinked(s, from, to) && Pending(s, false, from, to)
  }

  /** The side that calls, after its request was queued. */
  lemma CallerPending(s: System, a: Address, b: Address)
    requires b.net in s && a != b
    ensures WillLink(Push(s, b.net, Connect(a, b)), a, b) == WillLink(s, a, b)
  {
    var s' := Push(s, b.net, Connect(a, b));
    SettlePush(IsLinked(s, a, b), Queue(s, b.net), Connect(a, b), a, b);
    assert JobOf(s', a) == JobOf(s, a) && Outbox(s', b.net) == Outbox(s, b.net);
    assert a.net != b.net ==> Queue(s', a.net) == Queue(s, a.net);
    assert Queue(s', b.net) == Queue(s, b.net) + [Connect(a, b)];
  }

  /** The side that is called, after the request was queued. */
  lemma CalledPending(s: System, a: Address, b: Address)
    requires b.net in s && Outbox(s, a.net) == []
    ensures WillLink(Push(s, b.net, Connect(a, b)), b, a)
  {
    var s' := Push(s, b.net, Connect(a, b));
    SettlePush(IsLinked(s', b, a), Queue(s, b.net), Connect(a, b), b, a);
    assert Queue(s', b.net) == Queue(s, b.net) + [Connect(a, b)];
    assert Outbox(s', a.net) == [];
  }

  /** The two sides after a link call to a container that accepts the request. */
  lemma LinkedPending(s: System, i: nat, c: ContainerState, a: Address, b: Address)
    requires i in s && IsOpen(c.phase) && c == s[i].(phase := c.phase) && c.outbox == []
    requires a in c.jobs && a.net == i && a != b && Accepting(s[i := Linked(c, a, b)], b.net)
    ensures WillLink(LinkedSystem(s, i, c, a, b), a, b) == Pending(s, true, a, b)
    ensures WillLink(LinkedSystem(s, i, c, a, b), b, a)
  {
    var s1 := s[i := Linked(c, a, b)];
    assert IsLinked(s1, a, b) && Outbox(s1, a.net) == [];
    assert Queue(s1, a.net) == Queue(s, a.net) && Outbox(s1, b.net) == Outbox(s, b.net);
    CallerPending(s1, a, b);
    CalledPending(s1, a, b);
  }

  lemma RefusedPending(s: System, a: Address, b: Address)
    requires a.net in s && (forall m :: m in Outbox(s, b.net) ==> !m.Connect?)
    ensures !WillLink(Push(s, a.net, Exit(b, a, LinkDown)), a, b)
  {
    var s', m := Push(s, a.net, Exit(b, a, LinkDown)), Exit(b, a, LinkDown);
    SettlePush(IsLinked(s, a, b), Queue(s, a.net), m, a, b);
    assert JobOf(s', a) == JobOf(s, a);
    assert Queue(s', a.net) == Queue(s, a.net) + [m] && Outbox(s', b.net) == Outbox(s, b.net);
    SettleWithoutConnect(false, Outbox(s', b.net), a, b);
  }

  /** A link call keeps the two ends in step exactly when it does not cross. */
  lemma LinkCallIsOk(s: System, i: nat, c: ContainerState, a: Address, b: Address)
    requires i in s && IsOpen(c.phase) && IsOpen(s[i].phase) && c == s[i].(phase := c.phase) && c.outbox == []
    requires a in c.jobs && a.net == i && !IsLinked(s, a, b)
    requires forall m :: m in Outbox(s, b.net) ==> !m.Connect?
    ensures BothOk(LinkedSystem(s, i, c, a, b), a, b) <==> !CrossesLink(s, a, b)
  {
    var s1, s' := s[i := Linked(c, a, b)], LinkedSystem(s, i, c, a, b);
    assert Live(s', a) && Live(s', b) == Live(s, b) && IsLinked(s', a, b);
    if a != b {
      if Accepting(s1, b.net) {
        LinkedPending(s, i, c, a, b);
        assert Connect(a, b) in Queue(s', b.net);
      } else {
        assert Outbox(s1, b.net) == Outbox(s, b.net);
        RefusedPending(s1, a, b);
      }
    }
  }

  lemma LinkKeepsOtherLinks(s: System, i: nat, c: ContainerState, from: Address, to: Address, a: Address, b: Address)
    requires i in s && IsOpen(s[i].phase) && IsOpen(c.phase) && c == s[i].(phase := c.phase)
    requires from in c.jobs && from.net == i && LinkOk(s, a, b)
    requires (a, b) != (from, to) && (b, a) != (from, to)
    ensures LinkOk(LinkedSystem(s, i, c, from, to), a, b)
  {
    var s1 := s[i := Linked(c, from, to)];
    assert IsLinked(s1, a, b) == IsLinked(s, a, b) && IsLinked(s1, b, a) == IsLinked(s, b, a);
    QuietPending(s, i, s1[i], IsLinked(s, a, b), a, b);
    QuietPending(s, i, s1[i], IsLinked(s, b, a), b, a);
    assert LinkOk(s1, a, b);
    if Accepting(s1, to.net) {
      PushKeepsLinkOk(s1, to.net, Connect(from, to), a, b);
    } else {
      PushKeepsLinkOk(s1, i, Exit(to, from, LinkDown), a, b);
    }
  }

  function UnlinkedSystem(s: System, i: nat, from: Address, to: Address): System
    requires i in s
  {
    s[i := Unlinked(s[i], from, to).(outbox := [Disconnect(from, to)])]
  }

  lemma UnlinkedPending(s: System, i: nat, a: Address, b: Address)
    requires Idle(s, i) && a in s[i].jobs && a.net == i && a != b
    ensures WillLink(UnlinkedSystem(s, i, a, b), a, b) == Pending(s, false, a, b)
    ensures !WillLink(UnlinkedSystem(s, i, a, b), b, a)
  {
    var s', m := UnlinkedSystem(s, i, a, b), Disconnect(a, b);
    assert !IsLinked(s', a, b) && IsLinked(s', b, a) == IsLinked(s, b, a);
    assert Queue(s', a.net) == Queue(s, a.net) && Queue(s', b.net) == Queue(s, b.net);
    assert Outbox(s', i) == [m] && Outbox(s, i) == [];
    SettleOne(Settle(IsLinked(s, b, a), Queue(s, b.net), b, a), m, b, a);
    SettleOne(Settle(false, Queue(s, a.net), a, b), m, a, b);
    assert b.net != i ==> Outbox(s', b.net) == Outbox(s, b.net);
  }

  /** An unlink call keeps the two ends in step exactly when it does not cross. */
  lemma UnlinkCallIsOk(s: System, i: nat, a: Address, b: Address)
    requires Idle(s, i) && a in s[i].jobs && a.net == i && IsLinked(s, a, b) && BothOk(s, a, b)
    ensures BothOk(UnlinkedSystem(s, i, a, b), a, b) <==> !CrossesUnlink(s, a, b)
  {
    var s' := UnlinkedSystem(s, i, a, b);
    assert Live(s', a) && Live(s', b) == Live(s, b);
    if a != b {
      UnlinkedPending(s, i, a, b);
      SettleCauses(false, Queue(s, a.net), a, b);
      SettleCauses(false, Outbox(s, b.net), a, b);
      assert Pending(s, false, a, b) ==> Pending(s, true, a, b);
      assert IsLinked(s', b, a) == IsLinked(s, b, a) && Queue(s', b.net) == Queue(s, b.net);
    }
  }

  lemma UnlinkKeepsOtherLinks(s: System, i: nat, from: Address, to: Address, a: Address, b: Address)
    requires Idle(s, i) && from in s[i].jobs && from.net == i && LinkOk(s, a, b)
    requires (a, b) != (from, to) && (b, a) != (from, to)
    ensures LinkOk(UnlinkedSystem(s, i, from, to), a, b)
  {
    var s' := UnlinkedSystem(s, i, from, to);
    assert IsLinked(s', a, b) == IsLinked(s, a, b) && IsLinked(s', b, a) == IsLinked(s, b, a);
    QuietPending(s, i, s'[i], IsLinked(s, a, b), a, b);
    QuietPending(s, i, s'[i], IsLinked(s, b, a), b, a);
    assert Live(s', a) == Live(s, a) && Live(s', b) == Live(s, b);
  }

  // ---------------------------------------------------------------------------
  // Handling and draining
  // ---------------------------------------------------------------------------

  predicate IsLinkMsg(m: SysMsg) {
    m.Connect? || m.Exit? || m.Disconnect?
  }

  lemma LinkMsgTables(s: System, i: nat, c: ContainerState, m: SysMsg, d: ContainerState, a: Address, b: Address)
    requires i in s && c.jobs == s[i].jobs && IsLinkMsg(m) && m.receiver.net == i && OnMsg(c, m, d)
    requires IsJob(s, a)
    ensures IsLinked(s[i := d], a, b) == if m.receiver == a then Apply(IsLinked(s, a, b), m, a, b) else IsLinked(s, a, b)
    ensures d.jobs.Keys == c.jobs.Keys && d.queue == c.queue && (d.phase == c.phase || d.phase.Stopping?)
    ensures d.outbox == c.outbox || (m.Connect? && m.receiver !in c.jobs && d.outbox == [Exit(m.receiver, m.sender, LinkDown)])
  {
  }

  /** The only answer to a message about links. */
  lemma LinkMsgAnswers(c: ContainerState, m: SysMsg, d: ContainerState)
    requires IsLinkMsg(m) && c.outbox == [] && OnMsg(c, m, d)
    ensures d.outbox == [] || d.outbox == [Exit(m.receiver, m.sender, LinkDown)]
  {
  }

  lemma LinkMsgPending(s: System, i: nat, m: SysMsg, d: ContainerState, a: Address, b: Address)
    requires Idle(s, i) && s[i].queue != [] && m == s[i].queue[0] && IsLinkMsg(m) && m.receiver.net == i
    requires OnMsg(s[i].(queue := s[i].queue[1..]), m, d) && Live(s, a)
    ensures WillLink(s[i := d], a, b) == (WillLink(s, a, b) && d.outbox != [Exit(b, a, LinkDown)])
    ensures Live(s[i := d], a)
  {
    var s', rest := s[i := d], s[i].queue[1..];
    assert s[i].queue == [m] + rest;
    LinkMsgTables(s, i, s[i].(queue := rest), m, d, a, b);
    SettlePop(IsLinked(s, a, b), m, rest, a, b);
    var queued := Settle(IsLinked(s, a, b), Queue(s, a.net), a, b);
    assert queued == Settle(IsLinked(s', a, b), Queue(s', a.net), a, b);
    if b.net == i {
      LinkMsgAnswers(s[i].(queue := rest), m, d);
      assert Outbox(s', b.net) == d.outbox && Outbox(s, b.net) == [];
      if d.outbox != [] { SettleOne(queued, d.outbox[0], a, b); }
    } else {
      assert Outbox(s', b.net) == Outbox(s, b.net);
    }
  }

  lemma LinkMsgKeepsLinkOk(s: System, i: nat, m: SysMsg, d: ContainerState, a: Address, b: Address)
    requires Idle(s, i) && s[i].queue != [] && m == s[i].queue[0] && IsLinkMsg(m) && m.receiver.net == i
    requires OnMsg(s[i].(queue := s[i].queue[1..]), m, d) && LinkOk(s, a, b)
    ensures LinkOk(s[i := d], a, b)
  {
    var s', c := s[i := d], s[i].(queue := s[i].queue[1..]);
    assert forall x :: x in s[i].queue && x != m ==> x in c.queue;
    assert d.jobs.Keys == c.jobs.Keys && IsOpen(d.phase) by {
      if m.Exit? { ExitTouchesLinksOnly(c, m, d); }
    }
    assert Live(s', a) == Live(s, a) && Live(s', b) == Live(s, b);
    if Live(s, a) {
      LinkMsgPending(s, i, m, d, a, b);
      if Live(s, b) {
        LinkMsgPending(s, i, m, d, b, a);
        LinkMsgTables(s, i, c, m, d, a, b);
      } else {
        LinkMsgTables(s, i, c, m, d, a, b);
        assert m == Connect(a, b) ==> d.outbox == [Exit(b, a, LinkDown)];
        assert IsLinked(s, b, a) ==> IsLinked(s', b, a);
      }
    }
  }

  lemma DrainMsgPending(s: System, i: nat, d: ContainerState, linked: bool, reason: ExitReason, x: Address, y: Address, a: Address, b: Address)
    requires i in s && s[i].outbox == [] && a.net != i
    requires d.outbox == [] || d.outbox == [Exit(x, y, reason)] || d.outbox == [Down(x, y, reason)]
    requires !reason.Terminate?
    ensures Pending(s[i := d], linked, a, b) == (Pending(s, linked, a, b) && !(b.net == i && d.outbox == [Exit(b, a, reason)]))
  {
    var s', queued := s[i := d], Settle(linked, Queue(s, a.net), a, b);
    assert Queue(s', a.net) == Queue(s, a.net);
    if b.net == i {
      assert Outbox(s', b.net) == d.outbox && Outbox(s, b.net) == [];
      SettleOne(queued, Exit(x, y, reason), a, b);
      SettleOne(queued, Down(x, y, reason), a, b);
    } else {
      assert Outbox(s', b.net) == Outbox(s, b.net);
    }
  }

  lemma DrainAnswers(c: ContainerState, m: SysMsg, normal: bool, d: ContainerState)
    requires OnDrain(c, m, normal, d) && c.outbox == [] && !(m.ForkDone? && m.fork in c.jobs)
    ensures d == c.(outbox := d.outbox)
    ensures if m.Connect? then d.outbox == [Exit(m.receiver, m.sender, ReasonOf(normal))]
            else if m.Watch? then d.outbox == [Down(m.receiver, m.sender, ReasonOf(normal))]
            else d.outbox == []
  {
  }

  /** A draining container: its jobs keep their links and are not live. */
  lemma DrainMsgKeepsLinkOk(s: System, i: nat, m: SysMsg, d: ContainerState, a: Address, b: Address)
    requires i in s && s[i].phase.Draining? && s[i].outbox == [] && s[i].queue != [] && m == s[i].queue[0]
    requires !(m.ForkDone? && m.fork in s[i].jobs) && LinkOk(s, a, b)
    requires OnDrain(s[i].(queue := s[i].queue[1..]), m, s[i].phase.normal, d)
    ensures LinkOk(s[i := d], a, b)
  {
    var s', c, reason := s[i := d], s[i].(queue := s[i].queue[1..]), ReasonOf(s[i].phase.normal);
    DrainAnswers(c, m, s[i].phase.normal, d);
    assert JobOf(s', a) == JobOf(s, a) && JobOf(s', b) == JobOf(s, b);
    if Live(s, a) {
      var x, y := if m.Connect? || m.Watch? then m.receiver else a, if m.Connect? || m.Watch? then m.sender else a;
      DrainMsgPending(s, i, d, IsLinked(s, a, b), reason, x, y, a, b);
      if Live(s, b) {
        DrainMsgPending(s, i, d, IsLinked(s, b, a), reason, x, y, b, a);
      } else {
        assert Connect(a, b) in Queue(s, b.net) ==> m == Connect(a, b) || Connect(a, b) in Queue(s', b.net);
      }
    }
  }

  lemma PopKeepsLinkOk(s: System, i: nat, m: SysMsg, rest: seq<SysMsg>, a: Address, b: Address)
    requires i in s && s[i].queue == [m] + rest && Neutral(m, a, b) && LinkOk(s, a, b)
    ensures LinkOk(s[i := s[i].(queue := rest)], a, b)
  {
    var s' := s[i := s[i].(queue := rest)];
    SettlePop(IsLinked(s, a, b), m, rest, a, b);
    SettlePop(IsLinked(s, b, a), m, rest, b, a);
    assert JobOf(s', a) == JobOf(s, a) && JobOf(s', b) == JobOf(s, b);
  }

  /** The other messages do not touch links. */
  lemma PlainMsgKeepsLinkOk(s: System, i: nat, m: SysMsg, d: ContainerState, a: Address, b: Address)
    requires Idle(s, i) && s[i].queue != [] && m == s[i].queue[0] && !m.ForkDone? && !IsLinkMsg(m)
    requires OnMsg(s[i].(queue := s[i].queue[1..]), m, d) && LinkOk(s, a, b)
    ensures LinkOk(s[i := d], a, b)
  {
    var c := s[i].(queue := s[i].queue[1..]);
    assert s[i].queue == [m] + c.queue;
    PopKeepsLinkOk(s, i, m, c.queue, a, b);
    var s1 := s[i := c];
    QuietUpdateKeepsLinkOk(s1, i, d, a, b);
    assert s[i := d] == s1[i := d];
  }

  // ---------------------------------------------------------------------------
  // Steps
  // ---------------------------------------------------------------------------

  /** The step is a link or unlink call that crosses an opposite message. */
  predicate Crosses(s: System, step: Step) {
    match step
    case CallLink(_, sender, receiver) => CrossesLink(s, sender, receiver)
    case StartLink(i, peer) => i in s && CrossesLink(s, s[i].main, peer)
    case CallUnlink(_, sender, receiver) => CrossesUnlink(s, sender, receiver)
    case _ => false
  }

  lemma LinkStepKeeps(s: System, i: nat, c: ContainerState, from: Address, to: Address, a: Address, b: Address)
    requires Sound(s) && i in s && IsOpen(s[i].phase) && IsOpen(c.phase) && c == s[i].(phase := c.phase) && c.outbox == []
    requires from in c.jobs && BothOk(s, a, b)
    requires !IsLinked(s, from, to) && !CrossesLink(s, from, to)
    ensures LinkOk(LinkedSystem(s, i, c, from, to), a, b)
  {
    assert CellOk(i, s[i]) && (to.net in s ==> CellOk(to.net, s[to.net]));
    if (a, b) == (from, to) || (b, a) == (from, to) {
      LinkCallIsOk(s, i, c, from, to);
    } else {
      LinkKeepsOtherLinks(s, i, c, from, to, a, b);
    }
  }

  lemma LinkCallsKeepLinkOk(s: System, step: Step, s': System, a: Address, b: Address)
    requires Sound(s) && Next(s, step, s') && BothOk(s, a, b) && !Crosses(s, step)
    requires step.StartLink? || step.CallLink?
    ensures LinkOk(s', a, b)
  {
    var i := step.i;
    assert CellOk(i, s[i]);
    if step.StartLink? {
      assert !IsLinked(s, s[i].main, step.peer);
      LinkStepKeeps(s, i, s[i].(phase := Starting(s[i].phase.pending - {step.peer})), s[i].main, step.peer, a, b);
    } else if s' != s {
      assert !IsLinked(s, step.sender, step.receiver);
      LinkStepKeeps(s, i, s[i], step.sender, step.receiver, a, b);
    }
  }

  lemma UnlinkKeepsLinkOk(s: System, i: nat, from: Address, to: Address, s': System, a: Address, b: Address)
    requires Sound(s) && Next(s, CallUnlink(i, from, to), s') && BothOk(s, a, b) && !CrossesUnlink(s, from, to)
    ensures LinkOk(s', a, b)
  {
    assert CellOk(i, s[i]);
    if to in s[i].jobs[from].linkedTo {
      assert s' == UnlinkedSystem(s, i, from, to);
      if (a, b) == (from, to) || (b, a) == (from, to) {
        UnlinkCallIsOk(s, i, from, to);
      } else {
        UnlinkKeepsOtherLinks(s, i, from, to, a, b);
      }
    }
  }

  lemma SendKeepsLinkOk(s: System, i: nat, m: SysMsg, a: Address, b: Address)
    requires Neutral(m, a, b) && LinkOk(s, a, b)
    ensures LinkOk(Send(s, i, m), a, b)
  {
    if Accepting(s, i) { PushKeepsLinkOk(s, i, m, a, b); }
  }

  lemma PushStepKeepsLinkOk(s: System, step: Step, s': System, a: Address, b: Address)
    requires Next(s, step, s') && LinkOk(s, a, b)
    requires step.DropFork? || step.DropLateFork? || step.SendKill? || step.SendTerminate?
    ensures LinkOk(s', a, b)
  {
    match step {
      case DropFork(i, fork) => PushKeepsLinkOk(s, i, ForkDone(fork), a, b);
      case DropLateFork(i, fork) => PushKeepsLinkOk(s, i, ForkDone(fork), a, b);
      case SendKill(i) => SendKeepsLinkOk(s, i, Kill, a, b);
      case SendTerminate(sender, receiver) =>
        SendKeepsLinkOk(s, receiver.net, Exit(sender, receiver, Terminate), a, b);
    }
  }

  lemma WatchCallKeepsLinkOk(s: System, i: nat, from: Address, to: Address, r: WatchRef, s': System, a: Address, b: Address)
    requires Next(s, CallWatch(i, from, to, r), s') && LinkOk(s, a, b)
    ensures LinkOk(s', a, b)
  {
    var d := TakeWatch(s[i], from, to, r);
    QuietUpdateKeepsLinkOk(s, i, d, a, b);
    var s1 := s[i := d];
    if Accepting(s1, to.net) {
      PushKeepsLinkOk(s1, to.net, Watch(from, to, r), a, b);
    } else {
      PushKeepsLinkOk(s1, i, Down(to, from, LinkDown), a, b);
    }
  }

  lemma SmallStepKeepsLinkOk(s: System, step: Step, s': System, a: Address, b: Address)
    requires Next(s, step, s') && LinkOk(s, a, b)
    requires step.StartDone? || step.CallExit? || step.CallTrapExit? || step.CallUnwatch?
    ensures LinkOk(s', a, b)
  {
    if s' != s {
      QuietUpdateKeepsLinkOk(s, step.i, s'[step.i], a, b);
    }
  }

  lemma BirthStepKeepsLinkOk(s: System, step: Step, s': System, a: Address, b: Address)
    requires Sound(s) && Next(s, step, s') && BothOk(s, a, b) && (step.Start? || step.CallForkAdded?)
    ensures LinkOk(s', a, b)
  {
    assert step.i in s ==> CellOk(step.i, s[step.i]);
    BirthKeepsLinkOk(s, if step.Start? then step.main else step.fork, s'[step.i], a, b);
  }

  lemma HandleKeepsLinkOk(s: System, i: nat, s': System, a: Address, b: Address)
    requires Sound(s) && Next(s, Handle(i), s') && LinkOk(s, a, b)
    ensures LinkOk(s', a, b)
  {
    var m, c, d := s[i].queue[0], s[i].(queue := s[i].queue[1..]), s'[i];
    assert m in Queue(s, i) && CellOk(i, s[i]) && Arrived(m, i);
    assert a.net in s ==> CellOk(a.net, s[a.net]);
    if m.ForkDone? {
      assert s[i].queue == [m] + c.queue;
      RetireKeepsLinkOk(s, i, c, m.fork, true, d, a, b);
    } else if IsLinkMsg(m) {
      LinkMsgKeepsLinkOk(s, i, m, d, a, b);
    } else {
      PlainMsgKeepsLinkOk(s, i, m, d, a, b);
    }
  }

  lemma DrainKeepsLinkOk(s: System, i: nat, s': System, a: Address, b: Address)
    requires Sound(s) && Next(s, Drain(i), s') && LinkOk(s, a, b)
    ensures LinkOk(s', a, b)
  {
    var m, c := s[i].queue[0], s[i].(queue := s[i].queue[1..]);
    assert CellOk(i, s[i]) && (a.net in s ==> CellOk(a.net, s[a.net]));
    assert m in s[i].queue && Arrived(m, i);
    if m.ForkDone? && m.fork in c.jobs {
      assert s[i].queue == [m] + c.queue;
      RetireKeepsLinkOk(s, i, c, m.fork, s[i].phase.normal, s'[i], a, b);
    } else {
      DrainMsgKeepsLinkOk(s, i, m, s'[i], a, b);
    }
  }

  lemma FlushStepKeepsLinkOk(s: System, i: nat, s': System, a: Address, b: Address)
    requires Sound(s) && Next(s, Flush(i), s') && LinkOk(s, a, b)
    ensures LinkOk(s', a, b)
  {
    assert CellOk(i, s[i]);
    assert s[i].outbox == [s[i].outbox[0]] + s[i].outbox[1..];
    FlushKeepsLinkOk(s, i, s[i].outbox[0], s[i].outbox[1..], a, b);
  }

  lemma FinishKeepsLinkOk(s: System, i: nat, s': System, a: Address, b: Address)
    requires Sound(s) && Next(s, Finish(i), s') && LinkOk(s, a, b)
    ensures LinkOk(s', a, b)
  {
    assert CellOk(i, s[i]) && (a.net in s ==> CellOk(a.net, s[a.net]));
    RetireKeepsLinkOk(s, i, s[i].(phase := Gone), s[i].main, s[i].phase.normal, s'[i], a, b);
  }

  lemma CloseStepKeepsLinkOk(s: System, i: nat, s': System, a: Address, b: Address)
    requires Sound(s) && Next(s, Close(i), s') && LinkOk(s, a, b)
    ensures LinkOk(s', a, b)
  {
    assert CellOk(i, s[i]) && (a.net in s ==> CellOk(a.net, s[a.net]));
    CloseKeepsLinkOk(s, i, s[i].phase.normal, a, b);
  }

  lemma EndingKeepsLinkOk(s: System, step: Step, s': System, a: Address, b: Address)
    requires Sound(s) && Next(s, step, s') && LinkOk(s, a, b)
    requires step.Flush? || step.Close? || step.Drain? || step.Finish?
    ensures LinkOk(s', a, b)
  {
    match step {
      case Flush(i) => FlushStepKeepsLinkOk(s, i, s', a, b);
      case Close(i) => CloseStepKeepsLinkOk(s, i, s', a, b);
      case Drain(i) => DrainKeepsLinkOk(s, i, s', a, b);
      case Finish(i) => FinishKeepsLinkOk(s, i, s', a, b);
    }
  }

  /** Every step that does not cross keeps every link accounted for. */
  lemma StepKeepsLinkOk(s: System, step: Step, s': System, a: Address, b: Address)
    requires Sound(s) && Next(s, step, s') && BothOk(s, a, b) && !Crosses(s, step)
    ensures LinkOk(s', a, b)
  {
    if step.Start? || step.CallForkAdded? {
      BirthStepKeepsLinkOk(s, step, s', a, b);
    } else if step.StartLink? || step.CallLink? {
      LinkCallsKeepLinkOk(s, step, s', a, b);
    } else if step.CallUnlink? {
      UnlinkKeepsLinkOk(s, step.i, step.sender, step.receiver, s', a, b);
    } else if step.DropFork? || step.DropLateFork? || step.SendKill? || step.SendTerminate? {
      PushStepKeepsLinkOk(s, step, s', a, b);
    } else if step.CallWatch? {
      WatchCallKeepsLinkOk(s, step.i, step.sender, step.receiver, step.watchRef, s', a, b);
    } else if step.Handle? {
      HandleKeepsLinkOk(s, step.i, s', a, b);
    } else if step.Flush? || step.Close? || step.Drain? || step.Finish? {
      EndingKeepsLinkOk(s, step, s', a, b);
    } else {
      SmallStepKeepsLinkOk(s, step, s', a, b);
    }
  }

  // ---------------------------------------------------------------------------
  // Runs
  // ---------------------------------------------------------------------------

  /** No link or unlink call of the run crosses an opposite message of its peer. */
  predicate Uncrossed(states: seq<System>, steps: seq<Step>, k: nat)
    requires k < |states| == |steps| + 1
  {
    forall j :: 0 <= j < k ==> !Crosses(states[j], steps[j])
  }

  lemma StepKeepsBothOk(s: System, step: Step, s': System, a: Address, b: Address)
    requires Sound(s) && Next(s, step, s') && BothOk(s, a, b) && !Crosses(s, step)
    ensures BothOk(s', a, b)
  {
    StepKeepsLinkOk(s, step, s', a, b);
    StepKeepsLinkOk(s, step, s', b, a);
  }

  lemma NothingIsLinked(a: Address, b: Address)
    ensures BothOk(map[], a, b)
  {
  }

  lemma {:induction false} RunKeepsLinkOk(states: seq<System>, steps: seq<Step>, k: nat, a: Address, b: Address)
    requires IsRun(states, steps) && k < |states| && Uncrossed(states, steps, k)
    ensures BothOk(states[k], a, b)
    decreases k
  {
    if k == 0 {
      NothingIsLinked(a, b);
    } else {
      assert Uncrossed(states, steps, k - 1);
      RunIsSound(states, steps, k - 1);
      RunKeepsLinkOk(states, steps, k - 1, a, b);
      assert Next(states[k - 1], steps[k - 1], states[k]);
      StepKeepsBothOk(states[k - 1], steps[k - 1], states[k], a, b);
    }
  }

  /** The two jobs a link or unlink call is about. */
  function Ends(s: System, step: Step): (Address, Address)
    requires step.CallLink? || step.CallUnlink? || (step.StartLink? && step.i in s)
  {
    if step.StartLink? then (s[step.i].main, step.peer) else (step.sender, step.receiver)
  }

  lemma CrossingLinkBreaks(s: System, i: nat, c: ContainerState, from: Address, to: Address)
    requires Sound(s) && i in s && IsOpen(s[i].phase) && IsOpen(c.phase) && c == s[i].(phase := c.phase) && c.outbox == []
    requires from in c.jobs && CrossesLink(s, from, to)
    ensures !BothOk(LinkedSystem(s, i, c, from, to), from, to)
  {
    assert CellOk(i, s[i]) && (to.net in s ==> CellOk(to.net, s[to.net]));
    LinkCallIsOk(s, i, c, from, to);
  }

  lemma CrossingLinkCallBreaks(s: System, step: Step, s': System)
    requires Sound(s) && Next(s, step, s') && (step.StartLink? || step.CallLink?) && Crosses(s, step)
    ensures !BothOk(s', Ends(s, step).0, Ends(s, step).1)
  {
    var i := step.i;
    assert CellOk(i, s[i]);
    if step.StartLink? {
      CrossingLinkBreaks(s, i, s[i].(phase := Starting(s[i].phase.pending - {step.peer})), s[i].main, step.peer);
    } else {
      CrossingLinkBreaks(s, i, s[i], step.sender, step.receiver);
    }
  }

  lemma CrossingUnlinkCallBreaks(s: System, step: Step, s': System)
    requires Sound(s) && Next(s, step, s') && step.CallUnlink? && Crosses(s, step) && BothOk(s, step.sender, step.receiver)
    ensures !BothOk(s', step.sender, step.receiver)
  {
    var i := step.i;
    assert CellOk(i, s[i]);
    assert s' == UnlinkedSystem(s, i, step.sender, step.receiver);
    UnlinkCallIsOk(s, i, step.sender, step.receiver);
  }

  ghost predicate InStep(s: System) {
    forall a, b :: BothOk(s, a, b)
  }

  /** A crossing call puts the two ends out of step. */
  lemma CrossingBreaks(s: System, step: Step, s': System)
    requires Sound(s) && Next(s, step, s') && Crosses(s, step) && InStep(s)
    ensures !InStep(s')
  {
    if step.CallUnlink? {
      CrossingUnlinkCallBreaks(s, step, s');
    } else {
      CrossingLinkCallBreaks(s, step, s');
    }
  }

  lemma CrossingRunBreaks(states: seq<System>, steps: seq<Step>, j: nat)
    requires IsRun(states, steps) && j < |steps| && Crosses(states[j], steps[j]) && InStep(states[j])
    ensures !InStep(states[j + 1])
  {
    RunIsSound(states, steps, j);
    assert Next(states[j], steps[j], states[j + 1]);
    CrossingBreaks(states[j], steps[j], states[j + 1]);
  }

  /** The links of a run stay in step if and only if no call of it crosses. */
  lemma InStepExactly(states: seq<System>, steps: seq<Step>)
    requires IsRun(states, steps)
    ensures (forall k :: 0 <= k < |states| ==> InStep(states[k])) <==> Uncrossed(states, steps, |steps|)
  {
    if Uncrossed(states, steps, |steps|) {
      forall k, a, b | 0 <= k < |states| ensures BothOk(states[k], a, b) {
        assert Uncrossed(states, steps, k);
        RunKeepsLinkOk(states, steps, k, a, b);
      }
    } else {
      var j :| 0 <= j < |steps| && Crosses(states[j], steps[j]);
      if InStep(states[j]) { CrossingRunBreaks(states, steps, j); }
    }
  }

  ghost predicate HasCut(q: seq<SysMsg>, a: Address, b: Address) {
    exists m :: m in q && Cuts(m, a, b)
  }

  /** No link dangles in a run without crossing calls: if a live job `a` is linked
      to `b`, its request is queued at `b`, or `b` is linked back, or the end of the
      link is under way to `a`. */
  lemma LinksDoNotDangle(states: seq<System>, steps: seq<Step>, k: nat, a: Address, b: Address)
    requires IsRun(states, steps) && k < |states| && Uncrossed(states, steps, k)
    requires Live(states[k], a) && IsLinked(states[k], a, b)
    ensures var s := states[k];
      || Connect(a, b) in Queue(s, b.net)
      || IsLinked(s, b, a)
      || HasCut(Queue(s, a.net), a, b)
      || HasCut(Outbox(s, b.net), a, b)
  {
    var s := states[k];
    RunKeepsLinkOk(states, steps, k, a, b);
    RunIsSound(states, steps, k);
    assert CellOk(a.net, s[a.net]);
    if WillLink(s, a, b) {
      if Live(s, b) { LinkIsKnown(s, a, b); }
    } else {
      SettleCauses(true, Queue(s, a.net), a, b);
      SettleCauses(true, Outbox(s, b.net), a, b);
    }
  }

  ghost predicate NoDisconnects(s: System) {
    && (forall i, m :: m in Queue(s, i) ==> !m.Disconnect?)
    && (forall i, m :: m in Outbox(s, i) ==> !m.Disconnect?)
  }

  lemma NoCutFromLive(s: System, a: Address, b: Address)
    requires Sound(s) && NoDisconnects(s) && Live(s, b)
    ensures Pending(s, true, a, b)
  {
    SettleCauses(true, Queue(s, a.net), a, b);
    SettleCauses(true, Outbox(s, b.net), a, b);
    assert forall m :: Cuts(m, a, b) && !m.Disconnect? ==> Obituary(m) && m.sender == b;
  }

  /** Without pending disconnects only the dead end links, so calls cannot cross. */
  lemma NothingToCross(s: System, step: Step)
    requires Sound(s) && NoDisconnects(s) && !step.CallUnlink?
    ensures !Crosses(s, step)
  {
    if (step.CallLink? || step.StartLink?) && Crosses(s, step) {
      var from := if step.CallLink? then step.sender else s[step.i].main;
      var to := if step.CallLink? then step.receiver else step.peer;
      NoCutFromLive(s, from, to);
    }
  }

  lemma UpdateKeepsNoDisconnects(s: System, i: nat, d: ContainerState)
    requires NoDisconnects(s)
    requires forall m :: m in d.queue ==> m in Queue(s, i)
    requires forall m :: m in d.outbox ==> m in Outbox(s, i) || !m.Disconnect?
    ensures NoDisconnects(s[i := d])
  {
    var s' := s[i := d];
    forall j, m | m in Queue(s', j) ensures !m.Disconnect? {
      assert m in Queue(s, j);
    }
    forall j, m | m in Outbox(s', j) ensures !m.Disconnect? {
      assert m in Outbox(s, j) || !m.Disconnect?;
    }
  }

  lemma PushKeepsNoDisconnects(s: System, i: nat, m: SysMsg)
    requires NoDisconnects(s) && i in s && !m.Disconnect?
    ensures NoDisconnects(Push(s, i, m))
  {
    var s' := Push(s, i, m);
    forall j, x | x in Queue(s', j) ensures !x.Disconnect? {
      assert x in Queue(s, j) || x == m;
    }
    assert forall j :: Outbox(s', j) == Outbox(s, j);
  }

  lemma LinkKeepsNoDisconnects(s: System, i: nat, c: ContainerState, from: Address, to: Address)
    requires NoDisconnects(s) && i in s && c == s[i].(phase := c.phase) && from in c.jobs
    ensures NoDisconnects(LinkedSystem(s, i, c, from, to))
  {
    var s1 := s[i := Linked(c, from, to)];
    UpdateKeepsNoDisconnects(s, i, Linked(c, from, to));
    if Accepting(s1, to.net) {
      PushKeepsNoDisconnects(s1, to.net, Connect(from, to));
    } else {
      PushKeepsNoDisconnects(s1, i, Exit(to, from, LinkDown));
    }
  }

  lemma TurnKeepsNoDisconnects(s: System, step: Step, s': System)
    requires NoDisconnects(s) && Next(s, step, s') && (step.Handle? || step.Drain? || step.Finish?)
    ensures NoDisconnects(s')
  {
    var i, d := step.i, s'[step.i];
    if step.Finish? {
      FarewellMessages(d.outbox, s[i].main, s[i].jobs[s[i].main], s[i].phase.normal);
    } else {
      var m := s[i].queue[0];
      if m.ForkDone? && m.fork in s[i].jobs {
        FarewellMessages(d.outbox, m.fork, s[i].jobs[m.fork], step.Handle? || s[i].phase.normal);
      }
    }
    UpdateKeepsNoDisconnects(s, i, d);
  }

  lemma CallKeepsNoDisconnects(s: System, step: Step, s': System)
    requires NoDisconnects(s) && Next(s, step, s')
    requires step.StartDone? || step.CallExit? || step.CallTrapExit? || step.CallUnwatch? || step.Close? || step.Start? || step.CallForkAdded?
    ensures NoDisconnects(s')
  {
    if s' != s {
      UpdateKeepsNoDisconnects(s, step.i, s'[step.i]);
    }
  }

  lemma SendKeepsNoDisconnects(s: System, step: Step, s': System)
    requires NoDisconnects(s) && Next(s, step, s')
    requires step.CallWatch? || step.Flush? || step.DropFork? || step.DropLateFork? || step.SendKill? || step.SendTerminate?
    ensures NoDisconnects(s')
  {
    match step
    case CallWatch(i, sender, receiver, r) =>
      var s1 := s[i := TakeWatch(s[i], sender, receiver, r)];
      UpdateKeepsNoDisconnects(s, i, s1[i]);
      if Accepting(s1, receiver.net) {
        PushKeepsNoDisconnects(s1, receiver.net, Watch(sender, receiver, r));
      } else {
        PushKeepsNoDisconnects(s1, i, Down(receiver, sender, LinkDown));
      }
    case Flush(i) =>
      var m := s[i].outbox[0];
      assert m in Outbox(s, i);
      var s1 := s[i := s[i].(outbox := s[i].outbox[1..])];
      UpdateKeepsNoDisconnects(s, i, s1[i]);
      if Accepting(s1, m.receiver.net) { PushKeepsNoDisconnects(s1, m.receiver.net, m); }
    case DropFork(i, fork) => PushKeepsNoDisconnects(s, i, ForkDone(fork));
    case DropLateFork(i, fork) => PushKeepsNoDisconnects(s, i, ForkDone(fork));
    case SendKill(i) => if Accepting(s, i) { PushKeepsNoDisconnects(s, i, Kill); }
    case SendTerminate(sender, receiver) =>
      if Accepting(s, receiver.net) { PushKeepsNoDisconnects(s, receiver.net, Exit(sender, receiver, Terminate)); }
  }

  lemma StepKeepsNoDisconnects(s: System, step: Step, s': System)
    requires NoDisconnects(s) && Next(s, step, s') && !step.CallUnlink?
    ensures NoDisconnects(s')
  {
    if step.Handle? || step.Drain? || step.Finish? {
      TurnKeepsNoDisconnects(s, step, s');
    } else if step.StartLink? {
      var i := step.i;
      LinkKeepsNoDisconnects(s, i, s[i].(phase := Starting(s[i].phase.pending - {step.peer})), s[i].main, step.peer);
    } else if step.CallLink? {
      if s' != s { LinkKeepsNoDisconnects(s, step.i, s[step.i], step.sender, step.receiver); }
    } else if step.CallWatch? || step.Flush? || step.DropFork? || step.DropLateFork? || step.SendKill? || step.SendTerminate? {
      SendKeepsNoDisconnects(s, step, s');
    } else {
      CallKeepsNoDisconnects(s, step, s');
    }
  }

  lemma {:induction false} NoUnlinkRun(states: seq<System>, steps: seq<Step>, k: nat)
    requires IsRun(states, steps) && k < |states|
    requires forall j :: 0 <= j < k ==> !steps[j].CallUnlink?
    ensures NoDisconnects(states[k]) && Uncrossed(states, steps, k)
    decreases k
  {
    if k > 0 {
      NoUnlinkRun(states, steps, k - 1);
      RunIsSound(states, steps, k - 1);
      NothingToCross(states[k - 1], steps[k - 1]);
      StepKeepsNoDisconnects(states[k - 1], steps[k - 1], states[k]);
    }
  }

  ghost predicate HasExit(q: seq<SysMsg>, a: Address, b: Address) {
    exists m :: m in q && m.Exit? && !m.reason.Terminate? && m.sender == b && m.receiver == a
  }

  /** In a run without unlink calls no link dangles: if a live job `a` is linked to
      `b`, its request is queued at `b`, or `b` is linked back, or an `Exit` from `b`
      is under way to `a`. */
  lemma LinksDoNotDangleWithoutUnlink(states: seq<System>, steps: seq<Step>, k: nat, a: Address, b: Address)
    requires IsRun(states, steps) && k < |states|
    requires forall j :: 0 <= j < k ==> !steps[j].CallUnlink?
    requires Live(states[k], a) && IsLinked(states[k], a, b)
    ensures var s := states[k];
      || Connect(a, b) in Queue(s, b.net)
      || IsLinked(s, b, a)
      || HasExit(Queue(s, a.net), a, b)
      || HasExit(Outbox(s, b.net), a, b)
  {
    NoUnlinkRun(states, steps, k);
    LinksDoNotDangle(states, steps, k, a, b);
    assert forall m :: Cuts(m, a, b) && !m.Disconnect? ==> m.Exit? && !m.reason.Terminate? && m.sender == b && m.receiver == a;
  }
}
