/** How a container ends, and that everybody who hears of the end of a job is told the
    truth about it. */
module EndLaws {
  import opened Protocol
  import opened ProtocolInvariants

  // ---------------------------------------------------------------------------
  // What ends a container
  // ---------------------------------------------------------------------------

  /** A message that ends the container that handles it: a kill, or an exit it does not
      trap that is a termination or breaks one of its links. */
  predicate Fatal(c: ContainerState, m: SysMsg) {
    || m.Kill?
    || (&& m.Exit? && !c.trapExit && m.receiver in c.jobs
        && (m.reason == Terminate || (m.reason == LinkDown && m.sender in c.jobs[m.receiver].linkedTo)))
  }

  /** A broken link, or a termination, ends a container that does not trap exits; any
      other exit leaves it running. The link is gone in either case. */
  lemma UntrappedExit(s: System, i: nat, s': System)
    requires Next(s, Handle(i), s') && s[i].queue[0].Exit? && !s[i].trapExit
    ensures var b, a, reason := s[i].queue[0].sender, s[i].queue[0].receiver, s[i].queue[0].reason;
      && (s'[i].phase == Stopping(false) <==>
            a in s[i].jobs && (reason == Terminate || (reason == LinkDown && b in s[i].jobs[a].linkedTo)))
      && (s'[i].phase == Stopping(false) || s'[i].phase == Running)
      && (a in s[i].jobs && reason != Terminate ==> a in s'[i].jobs && b !in s'[i].jobs[a].linkedTo)
      && s'[i].notices == s[i].notices && s'[i].outbox == []
  {
  }

  /** A trapped exit is reported if it is a termination or ends a link, with a flag that
      says whether the end was normal, and the container goes on. */
  lemma TrappedExit(s: System, i: nat, s': System)
    requires Next(s, Handle(i), s') && s[i].queue[0].Exit? && s[i].trapExit
    ensures var b, a, reason := s[i].queue[0].sender, s[i].queue[0].receiver, s[i].queue[0].reason;
      && s'[i].phase == Running && s'[i].outbox == []
      && s'[i].notices == s[i].notices
           + (if a in s[i].jobs && (reason == Terminate || b in s[i].jobs[a].linkedTo)
              then [ExitReport(a, b, reason == Normal)] else [])
      && (a in s[i].jobs && reason != Terminate ==> a in s'[i].jobs && b !in s'[i].jobs[a].linkedTo)
  {
  }

  lemma HandleKeepsTrapping(s: System, i: nat, s': System)
    requires Next(s, Handle(i), s')
    ensures s'[i].trapExit == s[i].trapExit
  {
  }

  lemma DrainKeepsPhase(s: System, i: nat, s': System)
    requires Next(s, Drain(i), s')
    ensures s'[i].phase == s[i].phase && s'[i].trapExit == s[i].trapExit
  {
  }

  /** The actor decides whether exits are trapped; a new container does not. */
  lemma TrappingIsAsSet(s: System, step: Step, s': System, i: nat)
    requires Next(s, step, s') && i in s'
    ensures s'[i].trapExit ==
      if step.CallTrapExit? && step.i == i then step.on
      else if step.Start? && step.i == i then false
      else i in s && s[i].trapExit
  {
    if step.Handle? && step.i == i {
      HandleKeepsTrapping(s, i, s');
    } else if step.Drain? && step.i == i {
      DrainKeepsPhase(s, i, s');
    }
  }

  /** The container has ended, normally or not. */
  predicate Ended(s: System, i: nat, normal: bool) {
    i in s && (s[i].phase == Stopping(normal) || s[i].phase == Draining(normal))
  }

  /** The actor returns, or a fatal message is handled. */
  predicate Ends(s: System, step: Step, i: nat, normal: bool) {
    || step == CallExit(i, normal)
    || (step == Handle(i) && !normal && i in s && s[i].queue != [] && Fatal(s[i], s[i].queue[0]))
  }

  lemma HandleEnds(s: System, i: nat, s': System, normal: bool)
    requires Next(s, Handle(i), s')
    ensures Ended(s', i, normal) <==> Ends(s, Handle(i), i, normal)
  {
  }

  /** Steps that send something, and otherwise change nothing but tables. */
  predicate Sends(step: Step) {
    || step.StartLink? || step.CallLink? || step.CallWatch? || step.Flush?
    || step.DropFork? || step.DropLateFork? || step.SendKill? || step.SendTerminate?
  }

  lemma PushKeepsPhases(s: System, j: nat, m: SysMsg, i: nat)
    requires j in s
    ensures (i in Push(s, j, m) <==> i in s) && (i in s ==> Push(s, j, m)[i].phase == s[i].phase)
  {
  }

  lemma SendKeepsPhases(s: System, step: Step, s': System, i: nat)
    requires Next(s, step, s') && Sends(step)
    ensures (i in s' <==> i in s)
    ensures i in s ==> s'[i].phase == if step.StartLink? && step.i == i then Starting(s[i].phase.pending - {step.peer})
                                      else s[i].phase
  {
  }

  lemma CallEnds(s: System, step: Step, s': System, i: nat, normal: bool)
    requires Next(s, step, s') && !Sends(step) && step != Handle(i) && step != Drain(i)
    ensures Ended(s', i, normal) <==> Ends(s, step, i, normal) || (Ended(s, i, normal) && step != Finish(i))
  {
  }

  /** A container ends in these two ways only, and how it ended is not forgotten before it
      is gone. */
  lemma EndsExactly(s: System, step: Step, s': System, i: nat, normal: bool)
    requires Next(s, step, s')
    ensures Ended(s', i, normal) <==> Ends(s, step, i, normal) || (Ended(s, i, normal) && step != Finish(i))
  {
    if Sends(step) {
      SendKeepsPhases(s, step, s', i);
    } else if step == Handle(i) {
      HandleEnds(s, i, s', normal);
    } else if step == Drain(i) {
      DrainKeepsPhase(s, i, s');
    } else {
      CallEnds(s, step, s', i, normal);
    }
  }

  ghost predicate EndedThroughout(states: seq<System>, l: nat, k: nat, i: nat, normal: bool)
    requires k < |states|
  {
    forall x :: l <= x <= k ==> Ended(states[x], i, normal)
  }

  ghost predicate EndedBy(states: seq<System>, steps: seq<Step>, m: nat, k: nat, i: nat, normal: bool)
    requires m < k < |states| && m < |steps|
  {
    Ends(states[m], steps[m], i, normal) && EndedThroughout(states, m + 1, k, i, normal)
  }

  lemma EndGoesBack(states: seq<System>, steps: seq<Step>, k: nat, i: nat, normal: bool)
    requires IsRun(states, steps) && k < |steps| && Ended(states[k + 1], i, normal)
    ensures Ends(states[k], steps[k], i, normal) || Ended(states[k], i, normal)
  {
    assert Next(states[k], steps[k], states[k + 1]);
    EndsExactly(states[k], steps[k], states[k + 1], i, normal);
  }

  ghost predicate EndsGoBack(states: seq<System>, steps: seq<Step>, i: nat, normal: bool) {
    && |states| == |steps| + 1
    && forall k :: 0 <= k < |steps| && Ended(states[k + 1], i, normal) ==>
         Ends(states[k], steps[k], i, normal) || Ended(states[k], i, normal)
  }

  lemma {:induction false} EndTracedBack(states: seq<System>, steps: seq<Step>, k: nat, i: nat, normal: bool)
    requires EndsGoBack(states, steps, i, normal) && states[0] == map[] && k < |states| && Ended(states[k], i, normal)
    ensures exists m :: 0 <= m < k && EndedBy(states, steps, m, k, i, normal)
    decreases k
  {
    assert k > 0;
    if Ends(states[k - 1], steps[k - 1], i, normal) {
      assert EndedBy(states, steps, k - 1, k, i, normal);
    } else {
      EndTracedBack(states, steps, k - 1, i, normal);
      var m :| 0 <= m < k - 1 && EndedBy(states, steps, m, k - 1, i, normal);
      assert EndedBy(states, steps, m, k, i, normal);
    }
  }

  /** Every container that has ended did so for one of these reasons. */
  lemma EndHasCause(states: seq<System>, steps: seq<Step>, k: nat, i: nat, normal: bool)
    requires IsRun(states, steps) && k < |states| && Ended(states[k], i, normal)
    ensures exists m :: 0 <= m < k && EndedBy(states, steps, m, k, i, normal)
  {
    forall n | 0 <= n < |steps| && Ended(states[n + 1], i, normal)
      ensures Ends(states[n], steps[n], i, normal) || Ended(states[n], i, normal)
    {
      EndGoesBack(states, steps, n, i, normal);
    }
    EndTracedBack(states, steps, k, i, normal);
  }

  // ---------------------------------------------------------------------------
  // What its end tells
  // ---------------------------------------------------------------------------

  /** A message about the end of its sender. */
  predicate IsNews(m: SysMsg) {
    m.Exit? || m.Down?
  }

  /** The farewell of a job says whether it ended normally. */
  lemma FarewellIsTrue(c: ContainerState, who: Address, normal: bool, d: ContainerState)
    requires who in c.jobs && Retired(c, who, normal, d)
    ensures forall m :: m in d.outbox && IsNews(m) ==> m.sender == who && m.reason == if normal then Normal else LinkDown
    ensures forall peer :: peer in c.jobs[who].linkedTo ==>
              Exit(who, peer, if normal then Normal else LinkDown) in d.outbox
    ensures forall w :: w in c.jobs[who].watchedBy ==>
              Down(who, w.0, if normal then Normal else LinkDown) in d.outbox
  {
    FarewellMessages(d.outbox, who, c.jobs[who], normal);
    forall w | w in c.jobs[who].watchedBy ensures IsWatcher(c.jobs[who], w.0) {
      assert (w.0, w.1) in c.jobs[who].watchedBy;
    }
  }

  /** A draining container answers everybody with how it ended. */
  lemma DrainTellsTruth(s: System, i: nat, s': System)
    requires Next(s, Drain(i), s')
    ensures forall m :: m in s'[i].outbox && IsNews(m) ==>
              m.reason == if s[i].phase.normal then Normal else LinkDown
    ensures s[i].queue[0].Connect? ==>
              s'[i].outbox == [Exit(s[i].queue[0].receiver, s[i].queue[0].sender, if s[i].phase.normal then Normal else LinkDown)]
    ensures s[i].queue[0].Watch? ==>
              s'[i].outbox == [Down(s[i].queue[0].receiver, s[i].queue[0].sender, if s[i].phase.normal then Normal else LinkDown)]
  {
    var c, m := s[i].(queue := s[i].queue[1..]), s[i].queue[0];
    if m.ForkDone? && m.fork in c.jobs { FarewellIsTrue(c, m.fork, s[i].phase.normal, s'[i]); }
  }

  /** Everybody linked to the job or watching it is told this reason, and nobody another. */
  ghost predicate ToldAs(out: seq<SysMsg>, who: Address, job: Job, reason: ExitReason) {
    && (forall m :: m in out && IsNews(m) ==> m.sender == who && m.reason == reason)
    && (forall peer :: peer in job.linkedTo ==> Exit(who, peer, reason) in out)
    && (forall w :: w in job.watchedBy ==> Down(who, w.0, reason) in out)
  }

  lemma EndedAtFinish(s: System, i: nat, s': System, normal: bool)
    requires Next(s, Finish(i), s') && Ended(s, i, normal)
    ensures s[i].main in s[i].jobs
    ensures ToldAs(s'[i].outbox, s[i].main, s[i].jobs[s[i].main], if normal then Normal else LinkDown)
  {
    FarewellIsTrue(s[i].(phase := Gone), s[i].main, normal, s'[i]);
  }

  /** What a container says at its end is how it ended: everybody linked to its main job or
      watching it is told `Normal` if the actor returned normally, and `LinkDown` if it
      returned an error, was killed, or was brought down. */
  lemma FinishTellsTruth(states: seq<System>, steps: seq<Step>, k: nat, i: nat) returns (m: nat, normal: bool)
    requires IsRun(states, steps) && k < |steps| && steps[k] == Finish(i)
    ensures m < k && EndedBy(states, steps, m, k, i, normal)
    ensures i in states[k] && states[k][i].main in states[k][i].jobs && i in states[k + 1]
    ensures ToldAs(states[k + 1][i].outbox, states[k][i].main, states[k][i].jobs[states[k][i].main],
                   if normal then Normal else LinkDown)
  {
    assert Next(states[k], steps[k], states[k + 1]);
    normal := states[k][i].phase.normal;
    EndHasCause(states, steps, k, i, normal);
    EndedAtFinish(states[k], i, states[k + 1], normal);
    m :| 0 <= m < k && EndedBy(states, steps, m, k, i, normal);
  }

  lemma EndGoesOn(states: seq<System>, steps: seq<Step>, k: nat, i: nat, normal: bool)
    requires IsRun(states, steps) && k < |steps| && Ended(states[k], i, normal) && steps[k] != Finish(i)
    ensures Ended(states[k + 1], i, normal)
  {
    assert Next(states[k], steps[k], states[k + 1]);
    EndsExactly(states[k], steps[k], states[k + 1], i, normal);
  }

  ghost predicate EndsGoOn(states: seq<System>, l: nat, k: nat, i: nat, normal: bool)
    requires k < |states|
  {
    forall n :: l <= n < k && Ended(states[n], i, normal) ==> Ended(states[n + 1], i, normal)
  }

  lemma {:induction false} EndCarriedOn(states: seq<System>, l: nat, k: nat, i: nat, normal: bool)
    requires l <= k < |states| && EndsGoOn(states, l, k, i, normal) && Ended(states[l], i, normal)
    ensures Ended(states[k], i, normal)
    decreases k
  {
    if l < k {
      assert EndsGoOn(states, l, k - 1, i, normal);
      EndCarriedOn(states, l, k - 1, i, normal);
    }
  }

  lemma EndLasts(states: seq<System>, steps: seq<Step>, l: nat, k: nat, i: nat, normal: bool)
    requires IsRun(states, steps) && l <= k < |states| && Ended(states[l], i, normal)
    requires forall n :: l <= n < k ==> steps[n] != Finish(i)
    ensures Ended(states[k], i, normal)
  {
    forall n | l <= n < k && Ended(states[n], i, normal) ensures Ended(states[n + 1], i, normal) {
      EndGoesOn(states, steps, n, i, normal);
    }
    EndCarriedOn(states, l, k, i, normal);
  }

  /** A crash spreads along links: a container that handles, untrapped, the `LinkDown` of a
      job it is linked to ends abnormally, and at its own end tells everybody linked to its
      main job, or watching it, the same. */
  lemma CrashSpreads(states: seq<System>, steps: seq<Step>, l: nat, k: nat, a: Address, b: Address)
    requires IsRun(states, steps) && l < k < |steps| && steps[l] == Handle(a.net) && steps[k] == Finish(a.net)
    requires forall n :: l < n < k ==> steps[n] != Finish(a.net)
    requires a.net in states[l] && states[l][a.net].queue != [] && states[l][a.net].queue[0] == Exit(b, a, LinkDown)
    requires !states[l][a.net].trapExit && a in states[l][a.net].jobs && b in states[l][a.net].jobs[a].linkedTo
    ensures Ended(states[l + 1], a.net, false)
    ensures a.net in states[k] && states[k][a.net].main in states[k][a.net].jobs && a.net in states[k + 1]
    ensures var c := states[k][a.net]; ToldAs(states[k + 1][a.net].outbox, c.main, c.jobs[c.main], LinkDown)
  {
    assert Next(states[l], steps[l], states[l + 1]);
    HandleEnds(states[l], a.net, states[l + 1], false);
    EndLasts(states, steps, l + 1, k, a.net, false);
    assert Next(states[k], steps[k], states[k + 1]);
    EndedAtFinish(states[k], a.net, states[k + 1], false);
  }

  // ---------------------------------------------------------------------------
  // News and its origin
  // ---------------------------------------------------------------------------

  ghost predicate UnderWay(s: System, m: SysMsg) {
    exists j :: m in Queue(s, j) || m in Outbox(s, j)
  }

  /** The job ends normally, or its container drains after a normal end. */
  predicate NormalEnd(s: System, step: Step, a: Address) {
    && a.net in s
    && (|| (step == Handle(a.net) && s[a.net].queue != [] && s[a.net].queue[0] == ForkDone(a))
        || ((step == Drain(a.net) || step == Finish(a.net)) && s[a.net].phase == Draining(true)))
  }

  /** The container of the job drains after an abnormal end, the job is not there to be
      linked or watched, or its container does not take the request. */
  predicate AbnormalEnd(s: System, step: Step, a: Address) {
    || (&& a.net in s
        && (|| ((step == Drain(a.net) || step == Finish(a.net)) && s[a.net].phase == Draining(false))
            || (&& step == Handle(a.net) && s[a.net].queue != [] && a !in s[a.net].jobs
                && var x := s[a.net].queue[0]; (x.Connect? || x.Watch?) && x.receiver == a)))
    || ((step.CallLink? || step.CallWatch?) && step.receiver == a && !Accepting(s, a.net))
    || (step.StartLink? && step.peer == a && !Accepting(s, a.net))
  }

  /** The step that gave rise to the message, as its reason says. */
  predicate Origin(s: System, step: Step, m: SysMsg) {
    IsNews(m) &&
    match m.reason
    case Normal => NormalEnd(s, step, m.sender)
    case LinkDown => AbnormalEnd(s, step, m.sender)
    case Terminate => m.Exit? && step == SendTerminate(m.sender, m.receiver)
  }

  lemma UpdateHasOrigin(s: System, i: nat, d: ContainerState, step: Step, m: SysMsg)
    requires i in s && UnderWay(s[i := d], m)
    requires forall x :: x in d.queue ==> x in s[i].queue
    requires forall x :: x in d.outbox && IsNews(x) ==> x in s[i].outbox || Origin(s, step, x)
    requires IsNews(m)
    ensures UnderWay(s, m) || Origin(s, step, m)
  {
    var s' := s[i := d];
    var j :| m in Queue(s', j) || m in Outbox(s', j);
    if j != i {
      assert m in Queue(s, j) || m in Outbox(s, j);
    } else if m in d.queue {
      assert m in Queue(s, i);
    } else if m in s[i].outbox {
      assert m in Outbox(s, i);
    }
  }

  lemma PushedOrUnderWay(s: System, i: nat, x: SysMsg, m: SysMsg)
    requires i in s && UnderWay(Push(s, i, x), m)
    ensures UnderWay(s, m) || m == x
  {
    var s' := Push(s, i, x);
    var j :| m in Queue(s', j) || m in Outbox(s', j);
    if m != x { assert m in Queue(s, j) || m in Outbox(s, j); }
  }

  lemma RetiredHasOrigin(
      s: System, i: nat, c: ContainerState, who: Address, normal: bool, d: ContainerState, step: Step, m: SysMsg)
    requires i in s && who in c.jobs && Retired(c, who, normal, d) && (forall x :: x in c.queue ==> x in s[i].queue)
    requires if normal then NormalEnd(s, step, who) else AbnormalEnd(s, step, who)
    requires UnderWay(s[i := d], m) && IsNews(m)
    ensures UnderWay(s, m) || Origin(s, step, m)
  {
    FarewellIsTrue(c, who, normal, d);
    UpdateHasOrigin(s, i, d, step, m);
  }

  /** A running container answers only for jobs it does not have. */
  lemma RefusalIsTrue(c: ContainerState, x: SysMsg, d: ContainerState)
    requires OnMsg(c, x, d) && !x.ForkDone? && c.outbox == []
    ensures d.queue == c.queue
    ensures forall m :: m in d.outbox ==> (x.Connect? || x.Watch?) && IsNews(m) && m.sender == x.receiver && m.reason == LinkDown
    ensures d.outbox != [] ==> (x.Connect? || x.Watch?) && x.receiver !in c.jobs
  {
  }

  lemma HandleHasOrigin(s: System, i: nat, s': System, m: SysMsg)
    requires Sound(s) && Next(s, Handle(i), s') && UnderWay(s', m) && IsNews(m)
    ensures UnderWay(s, m) || Origin(s, Handle(i), m)
  {
    var c, x := s[i].(queue := s[i].queue[1..]), s[i].queue[0];
    assert CellOk(i, s[i]) && x in s[i].queue && Arrived(x, i);
    if x.ForkDone? {
      RetiredHasOrigin(s, i, c, x.fork, true, s'[i], Handle(i), m);
    } else {
      RefusalIsTrue(c, x, s'[i]);
      UpdateHasOrigin(s, i, s'[i], Handle(i), m);
    }
  }

  lemma DrainAnswerIsTrue(c: ContainerState, x: SysMsg, normal: bool, d: ContainerState)
    requires OnDrain(c, x, normal, d) && !(x.ForkDone? && x.fork in c.jobs) && c.outbox == []
    ensures d.queue == c.queue
    ensures forall m :: m in d.outbox ==>
              (x.Connect? || x.Watch?) && IsNews(m) && m.sender == x.receiver && m.reason == if normal then Normal else LinkDown
  {
  }

  lemma DrainedForkHasOrigin(s: System, i: nat, s': System, m: SysMsg)
    requires Sound(s) && Next(s, Drain(i), s') && UnderWay(s', m) && IsNews(m)
    requires s[i].queue[0].ForkDone? && s[i].queue[0].fork in s[i].jobs
    ensures UnderWay(s, m) || Origin(s, Drain(i), m)
  {
    var c, x := s[i].(queue := s[i].queue[1..]), s[i].queue[0];
    assert CellOk(i, s[i]) && x in s[i].queue && Arrived(x, i);
    RetiredHasOrigin(s, i, c, x.fork, s[i].phase.normal, s'[i], Drain(i), m);
  }

  lemma AnswerHasOrigin(s: System, i: nat, x: SysMsg)
    requires i in s && s[i].phase.Draining? && IsNews(x) && x.sender.net == i
    requires x.reason == if s[i].phase.normal then Normal else LinkDown
    ensures Origin(s, Drain(i), x)
  {
  }

  lemma DrainedMsgHasOrigin(s: System, i: nat, s': System, m: SysMsg)
    requires Sound(s) && Next(s, Drain(i), s') && UnderWay(s', m) && IsNews(m)
    requires s[i].queue[0].ForkDone? ==> s[i].queue[0].fork !in s[i].jobs
    ensures UnderWay(s, m) || Origin(s, Drain(i), m)
  {
    var c, x := s[i].(queue := s[i].queue[1..]), s[i].queue[0];
    assert CellOk(i, s[i]) && x in s[i].queue && Arrived(x, i);
    DrainAnswerIsTrue(c, x, s[i].phase.normal, s'[i]);
    forall y | y in s'[i].outbox && IsNews(y) ensures Origin(s, Drain(i), y) { AnswerHasOrigin(s, i, y); }
    UpdateHasOrigin(s, i, s'[i], Drain(i), m);
  }

  lemma DrainHasOrigin(s: System, i: nat, s': System, m: SysMsg)
    requires Sound(s) && Next(s, Drain(i), s') && UnderWay(s', m) && IsNews(m)
    ensures UnderWay(s, m) || Origin(s, Drain(i), m)
  {
    if s[i].queue[0].ForkDone? && s[i].queue[0].fork in s[i].jobs {
      DrainedForkHasOrigin(s, i, s', m);
    } else {
      DrainedMsgHasOrigin(s, i, s', m);
    }
  }

  lemma FinishHasOrigin(s: System, i: nat, s': System, m: SysMsg)
    requires Sound(s) && Next(s, Finish(i), s') && UnderWay(s', m) && IsNews(m)
    ensures UnderWay(s, m) || Origin(s, Finish(i), m)
  {
    assert CellOk(i, s[i]);
    RetiredHasOrigin(s, i, s[i].(phase := Gone), s[i].main, s[i].phase.normal, s'[i], Finish(i), m);
  }

  lemma FlushHasOrigin(s: System, i: nat, s': System, m: SysMsg)
    requires Next(s, Flush(i), s') && UnderWay(s', m) && IsNews(m)
    ensures UnderWay(s, m)
  {
    var x, s1 := s[i].outbox[0], s[i := s[i].(outbox := s[i].outbox[1..])];
    assert x in Outbox(s, i);
    if Accepting(s1, x.receiver.net) { PushedOrUnderWay(s1, x.receiver.net, x, m); }
    if m != x { UpdateHasOrigin(s, i, s1[i], SendKill(i), m); }
  }

  lemma LinkHasOrigin(s: System, i: nat, c: ContainerState, from: Address, to: Address, step: Step, m: SysMsg)
    requires i in s && from in c.jobs && c == s[i].(phase := c.phase) && IsOpen(c.phase) == IsOpen(s[i].phase)
    requires !Accepting(s, to.net) ==> AbnormalEnd(s, step, to)
    requires UnderWay(LinkedSystem(s, i, c, from, to), m) && IsNews(m)
    ensures UnderWay(s, m) || Origin(s, step, m)
  {
    var s1 := s[i := Linked(c, from, to)];
    if Accepting(s1, to.net) {
      PushedOrUnderWay(s1, to.net, Connect(from, to), m);
    } else {
      PushedOrUnderWay(s1, i, Exit(to, from, LinkDown), m);
    }
    if UnderWay(s1, m) { UpdateHasOrigin(s, i, s1[i], step, m); }
  }

  lemma LinkStepHasOrigin(s: System, step: Step, s': System, m: SysMsg)
    requires Next(s, step, s') && (step.CallLink? || step.StartLink?) && UnderWay(s', m) && IsNews(m)
    ensures UnderWay(s, m) || Origin(s, step, m)
  {
    var i := step.i;
    if step.StartLink? {
      LinkHasOrigin(s, i, s[i].(phase := Starting(s[i].phase.pending - {step.peer})), s[i].main, step.peer, step, m);
    } else if s' != s {
      LinkHasOrigin(s, i, s[i], step.sender, step.receiver, step, m);
    }
  }

  lemma WatchHasOrigin(s: System, i: nat, from: Address, to: Address, r: WatchRef, s': System, m: SysMsg)
    requires Next(s, CallWatch(i, from, to, r), s') && UnderWay(s', m) && IsNews(m)
    ensures UnderWay(s, m) || Origin(s, CallWatch(i, from, to, r), m)
  {
    var s1 := s[i := TakeWatch(s[i], from, to, r)];
    if Accepting(s1, to.net) {
      PushedOrUnderWay(s1, to.net, Watch(from, to, r), m);
    } else {
      PushedOrUnderWay(s1, i, Down(to, from, LinkDown), m);
    }
    if UnderWay(s1, m) { UpdateHasOrigin(s, i, s1[i], CallWatch(i, from, to, r), m); }
  }

  lemma PushHasOrigin(s: System, step: Step, s': System, m: SysMsg)
    requires Next(s, step, s') && (step.DropFork? || step.DropLateFork? || step.SendKill? || step.SendTerminate?)
    requires UnderWay(s', m) && IsNews(m)
    ensures UnderWay(s, m) || Origin(s, step, m)
  {
    match step {
      case DropFork(i, fork) => PushedOrUnderWay(s, i, ForkDone(fork), m);
      case DropLateFork(i, fork) => PushedOrUnderWay(s, i, ForkDone(fork), m);
      case SendKill(i) => if Accepting(s, i) { PushedOrUnderWay(s, i, Kill, m); }
      case SendTerminate(sender, receiver) =>
        if Accepting(s, receiver.net) { PushedOrUnderWay(s, receiver.net, Exit(sender, receiver, Terminate), m); }
    }
  }

  lemma LocalHasOrigin(s: System, step: Step, s': System, m: SysMsg)
    requires Next(s, step, s') && UnderWay(s', m) && IsNews(m)
    requires step.StartDone? || step.CallExit? || step.CallTrapExit? || step.CallForkAdded? || step.CallUnlink?
          || step.CallUnwatch? || step.Close?
    ensures UnderWay(s, m)
  {
    if s' != s { UpdateHasOrigin(s, step.i, s'[step.i], SendKill(0), m); }
  }

  lemma StartHasOrigin(s: System, i: nat, main: Address, pending: set<Address>, s': System, m: SysMsg)
    requires Next(s, Start(i, main, pending), s') && UnderWay(s', m)
    ensures UnderWay(s, m)
  {
    var j :| m in Queue(s', j) || m in Outbox(s', j);
    assert m in Queue(s, j) || m in Outbox(s, j);
  }

  lemma EndHasOrigin(s: System, step: Step, s': System, m: SysMsg)
    requires Sound(s) && Next(s, step, s') && UnderWay(s', m) && IsNews(m)
    requires step.Handle? || step.Drain? || step.Finish? || step.Flush?
    ensures UnderWay(s, m) || Origin(s, step, m)
  {
    if step.Handle? {
      HandleHasOrigin(s, step.i, s', m);
    } else if step.Drain? {
      DrainHasOrigin(s, step.i, s', m);
    } else if step.Finish? {
      FinishHasOrigin(s, step.i, s', m);
    } else {
      FlushHasOrigin(s, step.i, s', m);
    }
  }

  /** Every news under way was there before or has its origin in the step. */
  lemma NewsHasOrigin(s: System, step: Step, s': System, m: SysMsg)
    requires Sound(s) && Next(s, step, s') && UnderWay(s', m) && IsNews(m)
    ensures UnderWay(s, m) || Origin(s, step, m)
  {
    if step.Handle? || step.Drain? || step.Finish? || step.Flush? {
      EndHasOrigin(s, step, s', m);
    } else if step.StartLink? || step.CallLink? {
      LinkStepHasOrigin(s, step, s', m);
    } else if step.CallWatch? {
      WatchHasOrigin(s, step.i, step.sender, step.receiver, step.watchRef, s', m);
    } else if step.Start? {
      StartHasOrigin(s, step.i, step.main, step.pending, s', m);
    } else if step.DropFork? || step.DropLateFork? || step.SendKill? || step.SendTerminate? {
      PushHasOrigin(s, step, s', m);
    } else {
      LocalHasOrigin(s, step, s', m);
    }
  }

  lemma NewsGoesBack(states: seq<System>, steps: seq<Step>, k: nat, m: SysMsg)
    requires IsRun(states, steps) && k < |steps| && UnderWay(states[k + 1], m) && IsNews(m)
    ensures UnderWay(states[k], m) || Origin(states[k], steps[k], m)
  {
    RunIsSound(states, steps, k);
    assert Next(states[k], steps[k], states[k + 1]);
    NewsHasOrigin(states[k], steps[k], states[k + 1], m);
  }

  ghost predicate HasOrigin(states: seq<System>, steps: seq<Step>, k: nat, m: SysMsg)
    requires k < |states| && k <= |steps|
  {
    exists l :: 0 <= l < k && Origin(states[l], steps[l], m)
  }

  ghost predicate NewsGoBack(states: seq<System>, steps: seq<Step>, m: SysMsg) {
    && |states| == |steps| + 1
    && forall k :: 0 <= k < |steps| && UnderWay(states[k + 1], m) ==> UnderWay(states[k], m) || Origin(states[k], steps[k], m)
  }

  lemma {:induction false} NewsTracedBack(states: seq<System>, steps: seq<Step>, k: nat, m: SysMsg)
    requires NewsGoBack(states, steps, m) && states[0] == map[] && k < |states| && UnderWay(states[k], m)
    ensures HasOrigin(states, steps, k, m)
    decreases k
  {
    assert k > 0;
    if UnderWay(states[k - 1], m) { NewsTracedBack(states, steps, k - 1, m); }
  }

  /** News is true: in every run an `Exit` or `Down` under way says `Normal` only if its
      sender ended normally, `LinkDown` only if it did not or was not there, and
      `Terminate` only if somebody asked for it. */
  lemma NewsIsTrue(states: seq<System>, steps: seq<Step>, k: nat, m: SysMsg)
    requires IsRun(states, steps) && k < |states| && UnderWay(states[k], m) && IsNews(m)
    ensures HasOrigin(states, steps, k, m)
  {
    forall n | 0 <= n < |steps| && UnderWay(states[n + 1], m) ensures UnderWay(states[n], m) || Origin(states[n], steps[n], m) {
      NewsGoesBack(states, steps, n, m);
    }
    NewsTracedBack(states, steps, k, m);
  }

  // ---------------------------------------------------------------------------
  // Reports
  // ---------------------------------------------------------------------------

  predicate IsReport(n: Notice) {
    n.DownReport? || n.ExitReport?
  }

  /** The message a report comes from: of the same peer, and its flag says `Normal`. */
  predicate ReportOf(n: Notice, m: SysMsg) {
    && IsReport(n) && (if n.DownReport? then m.Down? else m.Exit?)
    && m.sender == n.peer && m.receiver == n.to && (n.normal <==> m.reason == Normal)
  }

  lemma RetiredReportsNothing(c: ContainerState, who: Address, normal: bool, d: ContainerState, n: Notice)
    requires who in c.jobs && Retired(c, who, normal, d) && n in d.notices && IsReport(n)
    ensures n in c.notices
  {
    var more := d.notices[|c.notices|..];
    assert d.notices == c.notices + more;
  }

  lemma MsgReports(c: ContainerState, x: SysMsg, d: ContainerState, n: Notice)
    requires OnMsg(c, x, d) && n in d.notices && IsReport(n)
    ensures n in c.notices || ReportOf(n, x)
  {
    if x.ForkDone? {
      RetiredReportsNothing(c, x.fork, true, d, n);
    } else if x.Down? && x.receiver in c.jobs {
      var more := d.notices[|c.notices|..];
      assert d.notices == c.notices + more;
    }
  }

  lemma DrainReportsNothing(c: ContainerState, x: SysMsg, normal: bool, d: ContainerState, n: Notice)
    requires OnDrain(c, x, normal, d) && n in d.notices && IsReport(n)
    ensures n in c.notices
  {
    if x.ForkDone? && x.fork in c.jobs { RetiredReportsNothing(c, x.fork, normal, d, n); }
  }

  predicate Reported(s: System, i: nat, n: Notice) {
    i in s && n in s[i].notices
  }

  lemma CallReportsNothing(s: System, step: Step, s': System, i: nat, n: Notice)
    requires Next(s, step, s') && Reported(s', i, n) && IsReport(n)
    requires !step.Handle? && !step.Drain? && !step.Finish?
    ensures Reported(s, i, n)
  {
  }

  /** A new report comes from the message at the head of the queue. */
  lemma ReportHasMessage(s: System, step: Step, s': System, i: nat, n: Notice)
    requires Next(s, step, s') && Reported(s', i, n) && IsReport(n)
    ensures Reported(s, i, n) || (step == Handle(i) && i in s && s[i].queue != [] && ReportOf(n, s[i].queue[0]))
  {
    if step.Handle? {
      if step.i == i {
        MsgReports(s[i].(queue := s[i].queue[1..]), s[i].queue[0], s'[i], n);
      }
    } else if step.Drain? {
      if step.i == i {
        DrainReportsNothing(s[i].(queue := s[i].queue[1..]), s[i].queue[0], s[i].phase.normal, s'[i], n);
      }
    } else if step.Finish? {
      if step.i == i { RetiredReportsNothing(s[i].(phase := Gone), s[i].main, s[i].phase.normal, s'[i], n); }
    } else {
      CallReportsNothing(s, step, s', i, n);
    }
  }

  /** The report has a message that has an origin. */
  ghost predicate ReportJustified(states: seq<System>, steps: seq<Step>, k: nat, n: Notice)
    requires k < |states| && k <= |steps|
  {
    exists m, l :: ReportOf(n, m) && 0 <= l < k && Origin(states[l], steps[l], m)
  }

  lemma ReportGoesBack(states: seq<System>, steps: seq<Step>, k: nat, i: nat, n: Notice)
    requires IsRun(states, steps) && k < |steps| && Reported(states[k + 1], i, n) && IsReport(n)
    ensures Reported(states[k], i, n) || ReportJustified(states, steps, k, n)
  {
    assert Next(states[k], steps[k], states[k + 1]);
    ReportHasMessage(states[k], steps[k], states[k + 1], i, n);
    if !Reported(states[k], i, n) {
      var m := states[k][i].queue[0];
      assert m in Queue(states[k], i);
      NewsIsTrue(states, steps, k, m);
      var l :| 0 <= l < k && Origin(states[l], steps[l], m);
    }
  }

  ghost predicate ReportsGoBack(states: seq<System>, steps: seq<Step>, i: nat, n: Notice) {
    && |states| == |steps| + 1
    && forall k :: 0 <= k < |steps| && Reported(states[k + 1], i, n) ==>
         Reported(states[k], i, n) || ReportJustified(states, steps, k, n)
  }

  lemma {:induction false} ReportTracedBack(states: seq<System>, steps: seq<Step>, k: nat, i: nat, n: Notice)
    requires ReportsGoBack(states, steps, i, n) && states[0] == map[] && k < |states| && Reported(states[k], i, n)
    ensures ReportJustified(states, steps, k, n)
    decreases k
  {
    assert k > 0;
    if Reported(states[k - 1], i, n) { ReportTracedBack(states, steps, k - 1, i, n); }
    var m, l :| ReportOf(n, m) && 0 <= l < k - 1 && Origin(states[l], steps[l], m);
  }

  /** What an actor is told about its peers is true: a report that a peer ended normally is
      made only if it did, and one that it did not only if it ended otherwise, was not
      there, or asked for a termination. */
  lemma ReportsAreTrue(states: seq<System>, steps: seq<Step>, k: nat, i: nat, n: Notice)
    requires IsRun(states, steps) && k < |states| && i in states[k] && n in states[k][i].notices && IsReport(n)
    ensures exists l :: 0 <= l < k &&
              if n.normal then NormalEnd(states[l], steps[l], n.peer)
              else AbnormalEnd(states[l], steps[l], n.peer)
                   || (n.ExitReport? && steps[l] == SendTerminate(n.peer, n.to))
  {
    forall j | 0 <= j < |steps| && Reported(states[j + 1], i, n)
      ensures Reported(states[j], i, n) || ReportJustified(states, steps, j, n)
    {
      ReportGoesBack(states, steps, j, i, n);
    }
    ReportTracedBack(states, steps, k, i, n);
    var m, l :| ReportOf(n, m) && 0 <= l < k && Origin(states[l], steps[l], m);
  }

  /** A `Down` is reported once for every watch on its sender. */
  lemma DownIsReported(s: System, i: nat, s': System, r: WatchRef)
    requires Next(s, Handle(i), s') && s[i].queue[0].Down? && s[i].queue[0].receiver in s[i].jobs
    requires (s[i].queue[0].sender, r) in s[i].jobs[s[i].queue[0].receiver].watches
    ensures var m := s[i].queue[0];
      && DownReport(m.receiver, m.sender, r, m.reason == Normal) in s'[i].notices
      && s'[i].phase == Running
  {
    var c, m := s[i].(queue := s[i].queue[1..]), s[i].queue[0];
    var more := s'[i].notices[|c.notices|..];
    assert s'[i].notices == c.notices + more;
    assert DownReport(m.receiver, m.sender, r, m.reason == Normal) in more;
  }

  /** A `Down` ends all watches between its two jobs, in both directions, and no other. */
  lemma DownClearsBoth(s: System, i: nat, s': System, who: Address, other: Address, r: WatchRef)
    requires Next(s, Handle(i), s') && s[i].queue[0].Down? && who in s[i].jobs
    ensures var m := s[i].queue[0];
      && who in s'[i].jobs
      && ((other, r) in s'[i].jobs[who].watches <==>
            (other, r) in s[i].jobs[who].watches && !(who == m.receiver && other == m.sender))
      && ((other, r) in s'[i].jobs[who].watchedBy <==>
            (other, r) in s[i].jobs[who].watchedBy && !(who == m.receiver && other == m.sender))
  {
  }

  // ---------------------------------------------------------------------------
  // Startup
  // ---------------------------------------------------------------------------

  /** Steps of a starting container: it has the links still to make. */
  ghost predicate StartsWith(s: System, i: nat, pending: set<Address>) {
    i in s && s[i].phase == Starting(pending)
  }

  lemma OthersKeepStarting(s: System, step: Step, s': System, i: nat)
    requires Next(s, step, s') && !Sends(step) && i in s && s[i].phase.Starting? && step != StartDone(i)
    ensures i in s' && s'[i].phase == s[i].phase
  {
  }

  lemma StartingGoesOn(s: System, step: Step, s': System, i: nat, pending: set<Address>)
    requires Sound(s) && Next(s, step, s') && StartsWith(s, i, pending) && step != StartDone(i)
    ensures || StartsWith(s', i, pending)
            || exists peer :: peer in pending && step == StartLink(i, peer) && StartsWith(s', i, pending - {peer})
  {
    if Sends(step) {
      SendKeepsPhases(s, step, s', i);
      if step.StartLink? && step.i == i { assert StartsWith(s', i, pending - {step.peer}); }
    } else {
      OthersKeepStarting(s, step, s', i);
    }
  }

  /** A container runs only after it has made every link it was started with. */
  lemma {:induction false} StartupLinksAreMade(
      states: seq<System>, steps: seq<Step>, k: nat, n: nat, i: nat, pending: set<Address>)
    requires IsRun(states, steps) && k <= n < |steps| && StartsWith(states[k], i, pending)
    requires steps[n] == StartDone(i) && forall l :: k <= l < n ==> steps[l] != StartDone(i)
    ensures forall peer :: peer in pending ==> exists l :: k <= l < n && steps[l] == StartLink(i, peer)
    decreases n - k
  {
    assert Next(states[k], steps[k], states[k + 1]);
    if k < n {
      RunIsSound(states, steps, k);
      StartingGoesOn(states[k], steps[k], states[k + 1], i, pending);
      if StartsWith(states[k + 1], i, pending) {
        StartupLinksAreMade(states, steps, k + 1, n, i, pending);
      } else {
        var peer :| peer in pending && steps[k] == StartLink(i, peer) && StartsWith(states[k + 1], i, pending - {peer});
        StartupLinksAreMade(states, steps, k + 1, n, i, pending - {peer});
        forall p | p in pending ensures exists l :: k <= l < n && steps[l] == StartLink(i, p) {
          if p != peer {
            assert p in pending - {peer};
            var l :| k + 1 <= l < n && steps[l] == StartLink(i, p);
          }
        }
      }
    }
  }

  /** A container starts with the links it was given, and a startup link is a link. */
  lemma StartupLinkIsMade(s: System, i: nat, main: Address, pending: set<Address>, peer: Address, s': System)
    ensures Next(s, Start(i, main, pending), s') ==> StartsWith(s', i, pending) && s'[i].main == main
    ensures Next(s, StartLink(i, peer), s') ==>
              s'[i].main in s'[i].jobs && peer in s'[i].jobs[s'[i].main].linkedTo
  {
  }

  // ---------------------------------------------------------------------------
  // References
  // ---------------------------------------------------------------------------

  /** The counter wraps at 64 bits. */
  lemma RefsWrap(from: WatchRef, r: WatchRef)
    ensures Successor(r) == (r + 1) % 0x1_0000_0000_0000_0000
    ensures Ahead(from, r) < 0x1_0000_0000_0000_0000 && (from + Ahead(from, r)) % 0x1_0000_0000_0000_0000 == r
  {
  }

  /** A watch call hands out a reference not in use, the next one after the last if that
      is free, and goes on from it. */
  lemma WatchTakesNextRef(s: System, i: nat, from: Address, to: Address, r: WatchRef, s': System)
    requires Next(s, CallWatch(i, from, to, r), s')
    ensures r !in s[i].taken && (s[i].nextRef !in s[i].taken ==> r == s[i].nextRef)
    ensures s'[i].nextRef == (r + 1) % 0x1_0000_0000_0000_0000 && s'[i].taken == s[i].taken[r := TakenWatch(from, to)]
  {
    RefsWrap(s[i].nextRef, r);
  }
}
