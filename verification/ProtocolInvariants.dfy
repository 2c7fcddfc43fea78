/** What every step of the protocol keeps. */
module ProtocolInvariants {
  import opened Protocol

  // ---------------------------------------------------------------------------
  // One container
  // ---------------------------------------------------------------------------

  /** `taken` lists exactly the watches of the jobs. */
  ghost predicate BooksMatch(c: ContainerState) {
    && (forall r :: r in c.taken ==>
          c.taken[r].owner in c.jobs && (c.taken[r].target, r) in c.jobs[c.taken[r].owner].watches)
    && (forall a, t, r: WatchRef :: a in c.jobs && (t, r) in c.jobs[a].watches ==>
          r in c.taken && c.taken[r] == TakenWatch(a, t))
  }

  ghost predicate Departing(m: SysMsg, i: nat) {
    (m.Unwatch? || m.Exit? || m.Down? || m.Disconnect?) && m.sender.net == i
  }

  ghost predicate Arrived(m: SysMsg, i: nat) {
    match m
    case Kill => true
    case ForkDone(fork) => fork.net == i
    case _ => m.receiver.net == i
  }

  ghost predicate CellShape(i: nat, c: ContainerState) {
    && c.main.net == i
    && (forall a :: a in c.jobs ==> a.net == i)
    && (forall m :: m in c.queue ==> Arrived(m, i))
    && (forall m :: m in c.outbox ==> Departing(m, i))
    && ForkDone(c.main) !in c.queue
    && (if c.phase.Gone? then c.jobs == map[] && c.queue == [] else c.main in c.jobs)
    && (c.phase.Draining? ==> ForksDropped(c))
    && (c.phase.Starting? ==> c.outbox == [] && c.jobs[c.main].linkedTo !! c.phase.pending)
  }

  ghost predicate CellOk(i: nat, c: ContainerState) {
    CellShape(i, c) && BooksMatch(c)
  }

  /** A message that announces the end of its sender. */
  predicate Obituary(m: SysMsg) {
    m.Down? || (m.Exit? && !m.reason.Terminate?)
  }

  /** Obituaries are true: their sender is not live. */
  ghost predicate ObituariesTrue(s: System) {
    && (forall i, m :: m in Queue(s, i) && Obituary(m) ==> !Live(s, m.sender))
    && (forall i, m :: m in Outbox(s, i) && Obituary(m) ==> !Live(s, m.sender))
  }

  ghost predicate CellsOk(s: System) {
    forall i :: i in s ==> CellOk(i, s[i])
  }

  ghost predicate Sound(s: System) {
    CellsOk(s) && ObituariesTrue(s)
  }

  lemma FarewellMessages(out: seq<SysMsg>, who: Address, job: Job, normal: bool)
    requires Farewell(out, who, job, normal)
    ensures forall m :: m in out <==>
      || (m.Unwatch? && m.sender == who && (m.receiver, m.watchRef) in job.watches)
      || (m.Exit? && m.sender == who && m.receiver in job.linkedTo && m.reason == ReasonOf(normal))
      || (m.Down? && m.sender == who && IsWatcher(job, m.receiver) && m.reason == ReasonOf(normal))
  {
    var i, j :| 0 <= i <= j <= |out|
      && UnwatchesOf(out[..i], who, job)
      && ExitsOf(out[i..j], who, job, normal)
      && DownsOf(out[j..], who, job, normal);
    assert out == out[..i] + out[i..j] + out[j..];
  }

  /** Tables that agree on watches and refs match the books alike. */
  lemma SameWatchesKeepBooks(c: ContainerState, d: ContainerState)
    requires BooksMatch(c)
    requires d.taken == c.taken && d.jobs.Keys == c.jobs.Keys
    requires forall a :: a in c.jobs ==> d.jobs[a].watches == c.jobs[a].watches
    ensures BooksMatch(d)
  {
  }

  lemma RefsLeft(c: ContainerState, who: Address, a: Address, t: Address, r: WatchRef)
    requires BooksMatch(c) && who in c.jobs && a in c.jobs && a != who && (t, r) in c.jobs[a].watches
    ensures r in c.taken && c.taken[r] == TakenWatch(a, t) && r !in Refs(c.jobs[who].watches)
  {
    forall w | w in c.jobs[who].watches ensures w.1 != r {
      assert (w.0, w.1) in c.jobs[who].watches;
    }
  }

  lemma RetiredKeepsBooks(c: ContainerState, who: Address, d: ContainerState)
    requires BooksMatch(c) && who in c.jobs
    requires d.jobs == c.jobs - {who} && d.taken == c.taken - Refs(c.jobs[who].watches)
    ensures BooksMatch(d)
  {
    var watches := c.jobs[who].watches;
    forall r | r in d.taken
      ensures d.taken[r].owner in d.jobs && (d.taken[r].target, r) in d.jobs[d.taken[r].owner].watches
    {
      var owner, target := c.taken[r].owner, c.taken[r].target;
      assert (target, r) in c.jobs[owner].watches;
      assert owner == who ==> r in Refs(watches);
    }
    forall a, t, r: WatchRef | a in d.jobs && (t, r) in d.jobs[a].watches
      ensures r in d.taken && d.taken[r] == TakenWatch(a, t)
    {
      RefsLeft(c, who, a, t, r);
    }
  }

  lemma RetiredKeeps(i: nat, c: ContainerState, who: Address, normal: bool, d: ContainerState)
    requires BooksMatch(c) && who in c.jobs && Retired(c, who, normal, d)
    requires forall a :: a in c.jobs ==> a.net == i
    ensures BooksMatch(d)
    ensures forall m :: m in d.outbox ==> Departing(m, i)
  {
    FarewellMessages(d.outbox, who, c.jobs[who], normal);
    RetiredKeepsBooks(c, who, d);
  }

  lemma HeardDownKeeps(c: ContainerState, who: Address, peer: Address, normal: bool, d: ContainerState)
    requires BooksMatch(c) && who in c.jobs && HeardDown(c, who, peer, normal, d)
    ensures BooksMatch(d)
  {
    var watches := c.jobs[who].watches;
    var gone := RefsOn(watches, peer);
    forall r | r in d.taken
      ensures d.taken[r].owner in d.jobs && (d.taken[r].target, r) in d.jobs[d.taken[r].owner].watches
    {
      var owner, target := c.taken[r].owner, c.taken[r].target;
      assert (target, r) in c.jobs[owner].watches;
      assert owner == who && target == peer ==> r in gone;
    }
    forall a, t, r: WatchRef | a in d.jobs && (t, r) in d.jobs[a].watches
      ensures r in d.taken && d.taken[r] == TakenWatch(a, t)
    {
      assert (t, r) in c.jobs[a].watches;
      assert forall w :: w in watches && w.0 == peer ==> (w.0, w.1) in watches && c.taken[w.1] == TakenWatch(who, peer);
      assert r !in gone;
    }
  }

  lemma ExitTouchesLinksOnly(c: ContainerState, m: SysMsg, d: ContainerState)
    requires m.Exit? && OnMsg(c, m, d)
    ensures d.taken == c.taken && d.jobs.Keys == c.jobs.Keys
    ensures forall a :: a in c.jobs ==> d.jobs[a].watches == c.jobs[a].watches && d.jobs[a].watchedBy == c.jobs[a].watchedBy
    ensures d.queue == c.queue && d.outbox == c.outbox && d.main == c.main
    ensures d.phase == c.phase || d.phase.Stopping?
  {
  }

  /** The other messages leave watches and refs alone. */
  lemma PlainMsgKeepsWatches(c: ContainerState, m: SysMsg, d: ContainerState)
    requires !m.ForkDone? && !m.Down? && OnMsg(c, m, d)
    ensures d.taken == c.taken && d.jobs.Keys == c.jobs.Keys
    ensures forall a :: a in c.jobs ==> d.jobs[a].watches == c.jobs[a].watches
    ensures d.queue == c.queue && d.main == c.main
    ensures d.phase == c.phase || d.phase.Stopping?
  {
    if m.Exit? { ExitTouchesLinksOnly(c, m, d); }
  }

  lemma PlainMsgKeepsShape(i: nat, c: ContainerState, m: SysMsg, d: ContainerState)
    requires !m.ForkDone? && !m.Down? && OnMsg(c, m, d)
    requires CellShape(i, c) && c.phase.Running? && c.outbox == [] && Arrived(m, i)
    ensures CellShape(i, d)
  {
    PlainMsgKeepsWatches(c, m, d);
    if m.Exit? {
      ExitTouchesLinksOnly(c, m, d);
    }
  }

  /** Handling a message keeps a container well formed. */
  lemma OnMsgKeeps(i: nat, c: ContainerState, m: SysMsg, d: ContainerState)
    requires CellOk(i, c) && c.phase.Running? && c.outbox == []
    requires Arrived(m, i) && m != ForkDone(c.main)
    requires OnMsg(c, m, d)
    ensures CellOk(i, d)
  {
    if m.ForkDone? {
      RetiredKeeps(i, c, m.fork, true, d);
    } else if m.Down? {
      if m.receiver in c.jobs { HeardDownKeeps(c, m.receiver, m.sender, m.reason.Normal?, d); }
    } else {
      PlainMsgKeepsWatches(c, m, d);
      SameWatchesKeepBooks(c, d);
      PlainMsgKeepsShape(i, c, m, d);
    }
  }

  lemma DrainAnswerKeeps(i: nat, c: ContainerState, m: SysMsg, normal: bool, d: ContainerState)
    requires CellOk(i, c.(queue := [m] + c.queue)) && c.phase.Draining? && c.outbox == []
    requires OnDrain(c, m, normal, d) && !(m.ForkDone? && m.fork in c.jobs)
    ensures CellOk(i, d)
  {
    var before := c.(queue := [m] + c.queue);
    assert d == c.(outbox := d.outbox);
    assert forall x :: x in c.queue ==> x in before.queue;
    assert m in before.queue;
    assert BooksMatch(d) by { SameWatchesKeepBooks(before, d); }
  }

  lemma OnDrainKeeps(i: nat, c: ContainerState, m: SysMsg, normal: bool, d: ContainerState)
    requires CellOk(i, c.(queue := [m] + c.queue)) && c.phase.Draining? && c.outbox == []
    requires OnDrain(c, m, normal, d)
    ensures CellOk(i, d)
  {
    if m.ForkDone? && m.fork in c.jobs {
      RetiredKeeps(i, c, m.fork, normal, d);
    } else {
      DrainAnswerKeeps(i, c, m, normal, d);
    }
  }

  /** The state of a container `c` about to lose a job: its outbox is empty, and
      at most a `ForkDone` was taken off its queue. */
  ghost predicate AboutToRetire(s: System, i: nat, c: ContainerState, who: Address) {
    && i in s && s[i].outbox == [] && who in c.jobs && who.net == i
    && c == s[i].(queue := c.queue, phase := c.phase)
    && IsOpen(c.phase) == IsOpen(s[i].phase)
    && (s[i].queue == c.queue || s[i].queue == [ForkDone(who)] + c.queue)
  }

  // ---------------------------------------------------------------------------
  // Soundness is kept by every step
  // ---------------------------------------------------------------------------

  /** Changing one container without new jobs keeps the system sound if every new
      obituary in its outbox is true. */
  lemma UpdateKeepsSound(s: System, i: nat, d: ContainerState)
    requires Sound(s) && i in s && CellOk(i, d)
    requires forall a :: a in d.jobs ==> a in s[i].jobs
    requires IsOpen(d.phase) ==> IsOpen(s[i].phase)
    requires forall m :: m in d.queue ==> m in s[i].queue
    requires forall m :: m in d.outbox && Obituary(m) ==> m in s[i].outbox || !(IsOpen(d.phase) && m.sender in d.jobs)
    ensures Sound(s[i := d])
  {
    var s' := s[i := d];
    assert forall a :: Live(s', a) ==> Live(s, a);
    forall j, m | m in Queue(s', j) && Obituary(m)
      ensures !Live(s', m.sender)
    {
      assert m in Queue(s, j);
    }
    forall j, m | m in Outbox(s', j) && Obituary(m)
      ensures !Live(s', m.sender)
    {
      if j == i && m !in s[i].outbox {
        assert m in d.outbox && Departing(m, i);
      } else {
        assert m in Outbox(s, j);
      }
    }
  }

  lemma PushKeepsCell(c: ContainerState, i: nat, m: SysMsg)
    requires CellOk(i, c) && !c.phase.Gone? && !c.phase.Draining? && Arrived(m, i) && m != ForkDone(c.main)
    ensures CellOk(i, c.(queue := c.queue + [m]))
  {
    var d := c.(queue := c.queue + [m]);
    assert forall x :: x in d.queue ==> x in c.queue || x == m;
    SameWatchesKeepBooks(c, d);
  }

  lemma PushKeepsObituaries(s: System, i: nat, m: SysMsg)
    requires ObituariesTrue(s) && i in s && (Obituary(m) ==> !Live(s, m.sender))
    ensures ObituariesTrue(Push(s, i, m))
  {
    var s' := Push(s, i, m);
    assert forall a :: Live(s', a) <==> Live(s, a);
    assert forall j, x :: x in Queue(s', j) ==> x in Queue(s, j) || x == m;
    assert forall j :: Outbox(s', j) == Outbox(s, j);
  }

  lemma PushKeepsSound(s: System, i: nat, m: SysMsg)
    requires Sound(s) && Accepting(s, i)
    requires Arrived(m, i) && m != ForkDone(s[i].main)
    requires Obituary(m) ==> !Live(s, m.sender)
    ensures Sound(Push(s, i, m))
  {
    PushKeepsCell(s[i], i, m);
    PushKeepsObituaries(s, i, m);
  }

  /** A fresh address may come to life: nothing on its way speaks of it. */
  lemma BirthKeepsSound(s: System, a: Address, d: ContainerState)
    requires Sound(s) && Fresh(s, a) && CellOk(a.net, d)
    requires d.queue == Queue(s, a.net) && d.outbox == Outbox(s, a.net)
    requires forall x :: x in d.jobs && x != a ==> Live(s, x)
    ensures Sound(s[a.net := d])
  {
    var s' := s[a.net := d];
    forall j, m | m in Queue(s', j) && Obituary(m)
      ensures !Live(s', m.sender)
    {
      assert m in Queue(s, j) && !Mentions(m, a);
    }
    forall j, m | m in Outbox(s', j) && Obituary(m)
      ensures !Live(s', m.sender)
    {
      assert m in Outbox(s, j) && !Mentions(m, a);
    }
  }

  lemma LinkKeepsSound(s: System, i: nat, c: ContainerState, sender: Address, receiver: Address)
    requires Sound(s) && i in s && c == s[i].(phase := c.phase) && sender in c.jobs
    requires || (c.phase == s[i].phase == Running)
             || (s[i].phase.Starting? && sender == c.main && receiver in s[i].phase.pending
                 && c.phase == Starting(s[i].phase.pending - {receiver}))
    ensures Sound(LinkedSystem(s, i, c, sender, receiver))
  {
    var d := Linked(c, sender, receiver);
    SameWatchesKeepBooks(s[i], d);
    UpdateKeepsSound(s, i, d);
    var s1 := s[i := d];
    if Accepting(s1, receiver.net) {
      PushKeepsSound(s1, receiver.net, Connect(sender, receiver));
    } else {
      PushKeepsSound(s1, i, Exit(receiver, sender, LinkDown));
    }
  }

  lemma TakeWatchKeepsBooks(c: ContainerState, sender: Address, receiver: Address, r: WatchRef)
    requires BooksMatch(c) && sender in c.jobs && r !in c.taken
    ensures BooksMatch(TakeWatch(c, sender, receiver, r))
  {
    var d := TakeWatch(c, sender, receiver, r);
    forall a, t, x: WatchRef | a in d.jobs && (t, x) in d.jobs[a].watches
      ensures x in d.taken && d.taken[x] == TakenWatch(a, t)
    {
      if (t, x) in c.jobs[a].watches {
        assert x in c.taken && c.taken[x] == TakenWatch(a, t);
      }
    }
  }

  lemma GiveUpWatchKeepsBooks(c: ContainerState, r: WatchRef)
    requires BooksMatch(c) && r in c.taken
    ensures BooksMatch(GiveUpWatch(c, r))
  {
    var d := GiveUpWatch(c, r);
    forall a, t, x: WatchRef | a in d.jobs && (t, x) in d.jobs[a].watches
      ensures x in d.taken && d.taken[x] == TakenWatch(a, t)
    {
      assert (t, x) in c.jobs[a].watches;
    }
  }

  lemma WatchKeepsSound(s: System, i: nat, sender: Address, receiver: Address, r: WatchRef, s': System)
    requires Sound(s) && Next(s, CallWatch(i, sender, receiver, r), s')
    ensures Sound(s')
  {
    var d := TakeWatch(s[i], sender, receiver, r);
    TakeWatchKeepsBooks(s[i], sender, receiver, r);
    assert CellShape(i, d);
    UpdateKeepsSound(s, i, d);
    var s1 := s[i := d];
    if Accepting(s1, receiver.net) {
      PushKeepsSound(s1, receiver.net, Watch(sender, receiver, r));
    } else {
      PushKeepsSound(s1, i, Down(receiver, sender, LinkDown));
    }
  }

  lemma TakeOffKeepsSound(s: System, i: nat)
    requires Sound(s) && i in s && s[i].outbox != []
    ensures Sound(s[i := s[i].(outbox := s[i].outbox[1..])])
    ensures Departing(s[i].outbox[0], i)
    ensures Obituary(s[i].outbox[0]) ==> !Live(s[i := s[i].(outbox := s[i].outbox[1..])], s[i].outbox[0].sender)
  {
    var c, m := s[i], s[i].outbox[0];
    var d := c.(outbox := c.outbox[1..]);
    assert m in Outbox(s, i) && CellOk(i, c);
    assert forall x :: x in d.outbox ==> x in c.outbox;
    SameWatchesKeepBooks(c, d);
    UpdateKeepsSound(s, i, d);
    assert forall a :: Live(s[i := d], a) <==> Live(s, a);
  }

  lemma FlushKeepsSound(s: System, i: nat, s': System)
    requires Sound(s) && Next(s, Flush(i), s')
    ensures Sound(s')
  {
    var m, s1 := s[i].outbox[0], s[i := s[i].(outbox := s[i].outbox[1..])];
    TakeOffKeepsSound(s, i);
    if Accepting(s1, m.receiver.net) {
      PushKeepsSound(s1, m.receiver.net, m);
    }
  }

  lemma HandleKeepsSound(s: System, i: nat, s': System)
    requires Sound(s) && Next(s, Handle(i), s')
    ensures Sound(s')
  {
    var m := s[i].queue[0];
    var c := s[i].(queue := s[i].queue[1..]);
    var d := s'[i];
    assert forall x :: x in c.queue ==> x in s[i].queue;
    SameWatchesKeepBooks(s[i], c);
    OnMsgKeeps(i, c, m, d);
    if m.ForkDone? {
      FarewellMessages(d.outbox, m.fork, c.jobs[m.fork], true);
    } else if !m.Down? {
      PlainMsgKeepsWatches(c, m, d);
      if m.Exit? { ExitTouchesLinksOnly(c, m, d); }
    }
    UpdateKeepsSound(s, i, d);
  }

  lemma DrainKeepsSound(s: System, i: nat, s': System)
    requires Sound(s) && Next(s, Drain(i), s')
    ensures Sound(s')
  {
    var m := s[i].queue[0];
    var c := s[i].(queue := s[i].queue[1..]);
    var d := s'[i];
    assert s[i] == c.(queue := [m] + c.queue);
    OnDrainKeeps(i, c, m, s[i].phase.normal, d);
    UpdateKeepsSound(s, i, d);
  }

  lemma FinishKeepsSound(s: System, i: nat, s': System)
    requires Sound(s) && Next(s, Finish(i), s')
    ensures Sound(s')
  {
    var c := s[i].(phase := Gone);
    SameWatchesKeepBooks(s[i], c);
    RetiredKeeps(i, c, c.main, s[i].phase.normal, s'[i]);
    assert s'[i].jobs == map[];
    UpdateKeepsSound(s, i, s'[i]);
  }

  lemma StartKeepsSound(s: System, i: nat, main: Address, pending: set<Address>, s': System)
    requires Sound(s) && Next(s, Start(i, main, pending), s')
    ensures Sound(s')
  {
    assert i in s ==> CellOk(i, s[i]);
    BirthKeepsSound(s, main, NewContainer(main, pending));
  }

  lemma ForkAddedKeepsCell(c: ContainerState, i: nat, fork: Address)
    requires CellOk(i, c) && c.phase.Running? && fork.net == i && fork !in c.jobs
    ensures CellOk(i, c.(jobs := c.jobs[fork := NO_JOB]))
  {
  }

  lemma ForkAddedKeepsSound(s: System, i: nat, fork: Address, s': System)
    requires Sound(s) && Next(s, CallForkAdded(i, fork), s')
    ensures Sound(s')
  {
    ForkAddedKeepsCell(s[i], i, fork);
    BirthKeepsSound(s, fork, s'[i]);
  }

  lemma BirthStepKeepsSound(s: System, step: Step, s': System)
    requires Sound(s) && Next(s, step, s') && (step.Start? || step.CallForkAdded?)
    ensures Sound(s')
  {
    match step {
      case Start(i, main, pending) => StartKeepsSound(s, i, main, pending, s');
      case CallForkAdded(i, fork) => ForkAddedKeepsSound(s, i, fork, s');
    }
  }

  lemma CallUnwatchKeepsSound(s: System, i: nat, r: WatchRef, s': System)
    requires Sound(s) && Next(s, CallUnwatch(i, r), s')
    ensures Sound(s')
  {
    if r in s[i].taken {
      GiveUpWatchKeepsBooks(s[i], r);
      UpdateKeepsSound(s, i, s'[i]);
    }
  }

  lemma UnlinkedIsOk(i: nat, c: ContainerState, sender: Address, receiver: Address)
    requires CellOk(i, c) && c.phase.Running? && sender in c.jobs
    ensures CellOk(i, Unlinked(c, sender, receiver).(outbox := [Disconnect(sender, receiver)]))
  {
    SameWatchesKeepBooks(c, Unlinked(c, sender, receiver).(outbox := [Disconnect(sender, receiver)]));
  }

  lemma CallUnlinkKeepsSound(s: System, i: nat, sender: Address, receiver: Address, s': System)
    requires Sound(s) && Next(s, CallUnlink(i, sender, receiver), s')
    ensures Sound(s')
  {
    if s' != s {
      UnlinkedIsOk(i, s[i], sender, receiver);
      UpdateKeepsSound(s, i, Unlinked(s[i], sender, receiver).(outbox := [Disconnect(sender, receiver)]));
    }
  }

  lemma CallKeepsSound(s: System, step: Step, s': System)
    requires Sound(s) && Next(s, step, s')
    requires step.CallUnlink? || step.CallUnwatch? || step.CallExit? || step.CallTrapExit? || step.StartDone? || step.Close?
    ensures Sound(s')
  {
    if step.CallUnwatch? {
      CallUnwatchKeepsSound(s, step.i, step.watchRef, s');
    } else if step.CallUnlink? {
      CallUnlinkKeepsSound(s, step.i, step.sender, step.receiver, s');
    } else {
      SameWatchesKeepBooks(s[step.i], s'[step.i]);
      UpdateKeepsSound(s, step.i, s'[step.i]);
    }
  }

  lemma LinkStepKeepsSound(s: System, step: Step, s': System)
    requires Sound(s) && Next(s, step, s') && (step.StartLink? || step.CallLink?)
    ensures Sound(s')
  {
    var i := step.i;
    if step.StartLink? {
      LinkKeepsSound(s, i, s[i].(phase := Starting(s[i].phase.pending - {step.peer})), s[i].main, step.peer);
    } else if s' != s {
      LinkKeepsSound(s, i, s[i], step.sender, step.receiver);
    }
  }

  lemma SendTerminateKeepsSound(s: System, sender: Address, receiver: Address, s': System)
    requires Sound(s) && Next(s, SendTerminate(sender, receiver), s') && s' != s
    ensures Sound(s')
  {
    PushKeepsSound(s, receiver.net, Exit(sender, receiver, Terminate));
  }

  lemma DroppedForkKeepsSound(s: System, step: Step, s': System)
    requires Sound(s) && Next(s, step, s') && (step.DropFork? || step.DropLateFork?) && s' != s
    ensures Sound(s')
  {
    PushKeepsSound(s, step.i, ForkDone(step.fork));
  }

  lemma PushStepKeepsSound(s: System, step: Step, s': System)
    requires Sound(s) && Next(s, step, s')
    requires step.DropFork? || step.DropLateFork? || step.SendKill? || step.SendTerminate?
    ensures Sound(s')
  {
    if s' != s {
      match step
      case DropFork(_, _) => DroppedForkKeepsSound(s, step, s');
      case DropLateFork(_, _) => DroppedForkKeepsSound(s, step, s');
      case SendKill(i) => PushKeepsSound(s, i, Kill);
      case SendTerminate(sender, receiver) => SendTerminateKeepsSound(s, sender, receiver, s');
    }
  }

  /** Every step keeps the tables consistent and the obituaries true. */
  lemma StepKeepsSound(s: System, step: Step, s': System)
    requires Sound(s) && Next(s, step, s')
    ensures Sound(s')
  {
    if step.Start? || step.CallForkAdded? {
      BirthStepKeepsSound(s, step, s');
    } else if step.StartLink? || step.CallLink? {
      LinkStepKeepsSound(s, step, s');
    } else if step.DropFork? || step.DropLateFork? || step.SendKill? || step.SendTerminate? {
      PushStepKeepsSound(s, step, s');
    } else if step.CallWatch? {
      WatchKeepsSound(s, step.i, step.sender, step.receiver, step.watchRef, s');
    } else if step.Flush? {
      FlushKeepsSound(s, step.i, s');
    } else if step.Handle? {
      HandleKeepsSound(s, step.i, s');
    } else if step.Drain? {
      DrainKeepsSound(s, step.i, s');
    } else if step.Finish? {
      FinishKeepsSound(s, step.i, s');
    } else {
      CallKeepsSound(s, step, s');
    }
  }

  /** In every state of every run the tables of each container are consistent and
      an obituary on its way comes from a job that is not live. */
  lemma {:induction false} RunIsSound(states: seq<System>, steps: seq<Step>, k: nat)
    requires IsRun(states, steps) && k < |states|
    ensures Sound(states[k])
    decreases k
  {
    if k > 0 {
      RunIsSound(states, steps, k - 1);
      StepKeepsSound(states[k - 1], steps[k - 1], states[k]);
    }
  }

  /** The jobs the handlers take for granted are there: the owner of a reference in use,
      and the main job of a container that is not gone. */
  lemma ExpectedJobsExist(states: seq<System>, steps: seq<Step>, k: nat, i: nat)
    requires IsRun(states, steps) && k < |states| && i in states[k]
    ensures forall r :: r in states[k][i].taken ==> states[k][i].taken[r].owner in states[k][i].jobs
    ensures !states[k][i].phase.Gone? ==> states[k][i].main in states[k][i].jobs
  {
    RunIsSound(states, steps, k);
    assert CellOk(i, states[k][i]);
  }
}
