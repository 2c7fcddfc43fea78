/** The life of a watch reference: taken, then ended once, by a report or by being
    given up. */
module WatchRefs {
  import opened Options
  import opened Protocol
  import opened ProtocolInvariants

  /** The ref a notice ends, if any. */
  function EndOf(n: Notice): Option<WatchRef> {
    match n
    case WatchDropped(r) => Some(r)
    case DownReport(_, _, r, _) => Some(r)
    case _ => None
  }

  /** One notice after `open` are the refs in use: a ref is taken only when free and
      ended only when in use. */
  function Audit1(open: set<WatchRef>, n: Notice): Option<set<WatchRef>> {
    match n
    case WatchTaken(r) => if r in open then None else Some(open + {r})
    case WatchDropped(r) => if r in open then Some(open - {r}) else None
    case DownReport(_, _, r, _) => if r in open then Some(open - {r}) else None
    case ExitReport(_, _, _) => Some(open)
  }

  /** The refs in use after a whole log, or `None` if it breaks the rules above. */
  function Audit(log: seq<Notice>): Option<set<WatchRef>>
    decreases |log|
  {
    if log == [] then Some({})
    else
      var before := Audit(log[..|log| - 1]);
      if before.None? then None else Audit1(before.value, log[|log| - 1])
  }

  /** The notices account for the refs in use. */
  ghost predicate LogOk(c: ContainerState) {
    Audit(c.notices) == Some(c.taken.Keys)
  }

  lemma AppendNotice(log: seq<Notice>, n: Notice)
    requires Audit(log).Some?
    ensures Audit(log + [n]) == Audit1(Audit(log).value, n)
  {
    assert (log + [n])[..|log|] == log;
  }

  function SetOf(refs: seq<WatchRef>): set<WatchRef> {
    set r | r in refs
  }

  /** Ending different refs one after the other. */
  lemma {:induction false} AppendEnds(log: seq<Notice>, batch: seq<Notice>, refs: seq<WatchRef>)
    requires Audit(log).Some? && |batch| == |refs| && NoDup(refs)
    requires forall i :: 0 <= i < |refs| ==> EndOf(batch[i]) == Some(refs[i])
    requires SetOf(refs) <= Audit(log).value
    ensures Audit(log + batch) == Some(Audit(log).value - SetOf(refs))
    decreases |batch|
  {
    if batch == [] {
      assert log + batch == log;
      assert Audit(log).value - SetOf(refs) == Audit(log).value;
    } else {
      var n := |batch| - 1;
      assert refs == refs[..n] + [refs[n]];
      assert SetOf(refs) == SetOf(refs[..n]) + {refs[n]};
      assert refs[n] !in SetOf(refs[..n]);
      AppendEnds(log, batch[..n], refs[..n]);
      AppendNotice(log + batch[..n], batch[n]);
      assert log + batch == (log + batch[..n]) + [batch[n]];
      var open := Audit(log).value;
      assert open - SetOf(refs) == (open - SetOf(refs[..n])) - {refs[n]};
    }
  }

  function RefsOf(batch: seq<Notice>): (refs: seq<WatchRef>)
    ensures |refs| == |batch|
    ensures forall i :: 0 <= i < |batch| && EndOf(batch[i]).Some? ==> EndOf(batch[i]) == Some(refs[i])
  {
    seq(|batch|, i requires 0 <= i < |batch| => if EndOf(batch[i]).Some? then EndOf(batch[i]).value else 0)
  }

  lemma DropRefs(batch: seq<Notice>, watches: set<(Address, WatchRef)>)
    requires DropsOf(batch, watches)
    ensures NoDup(RefsOf(batch)) && SetOf(RefsOf(batch)) == Refs(watches)
    ensures forall i :: 0 <= i < |batch| ==> EndOf(batch[i]) == Some(RefsOf(batch)[i])
  {
    var refs := RefsOf(batch);
    assert forall i :: 0 <= i < |batch| ==> batch[i] in batch && batch[i] == WatchDropped(refs[i]);
    forall r | r in Refs(watches) ensures r in refs {
      assert WatchDropped(r) in batch;
      var i :| 0 <= i < |batch| && batch[i] == WatchDropped(r);
      assert refs[i] == r;
    }
  }

  lemma ReportRefs(batch: seq<Notice>, job: Job, to: Address, peer: Address, normal: bool)
    requires ReportsOf(batch, job, to, peer, normal)
    ensures NoDup(RefsOf(batch)) && SetOf(RefsOf(batch)) == RefsOn(job.watches, peer)
    ensures forall i :: 0 <= i < |batch| ==> EndOf(batch[i]) == Some(RefsOf(batch)[i])
  {
    var refs := RefsOf(batch);
    assert forall i :: 0 <= i < |batch| ==> batch[i] in batch && batch[i] == DownReport(to, peer, refs[i], normal);
    forall i | 0 <= i < |batch| ensures refs[i] in RefsOn(job.watches, peer) {
      assert (peer, refs[i]) in job.watches;
    }
    forall r | r in RefsOn(job.watches, peer) ensures r in refs {
      assert (peer, r) in job.watches;
      assert DownReport(to, peer, r, normal) in batch;
      var i :| 0 <= i < |batch| && batch[i] == DownReport(to, peer, r, normal);
      assert refs[i] == r;
    }
  }

  lemma RetiredKeepsLog(c: ContainerState, who: Address, normal: bool, d: ContainerState)
    requires LogOk(c) && BooksMatch(c) && who in c.jobs && Retired(c, who, normal, d)
    ensures LogOk(d)
  {
    var watches, batch := c.jobs[who].watches, d.notices[|c.notices|..];
    forall w | w in watches ensures w.1 in c.taken { assert (w.0, w.1) in watches; }
    DropRefs(batch, watches);
    AppendEnds(c.notices, batch, RefsOf(batch));
    assert d.notices == c.notices + batch;
    assert d.taken.Keys == c.taken.Keys - Refs(watches);
  }

  lemma HeardDownKeepsLog(c: ContainerState, who: Address, peer: Address, normal: bool, d: ContainerState)
    requires LogOk(c) && BooksMatch(c) && who in c.jobs && HeardDown(c, who, peer, normal, d)
    ensures LogOk(d)
  {
    var watches, batch := c.jobs[who].watches, d.notices[|c.notices|..];
    forall w | w in watches ensures w.1 in c.taken { assert (w.0, w.1) in watches; }
    ReportRefs(batch, c.jobs[who], who, peer, normal);
    AppendEnds(c.notices, batch, RefsOf(batch));
    assert d.notices == c.notices + batch;
    assert d.taken.Keys == c.taken.Keys - RefsOn(watches, peer);
  }

  lemma OnMsgKeepsLog(c: ContainerState, m: SysMsg, d: ContainerState)
    requires LogOk(c) && BooksMatch(c) && OnMsg(c, m, d)
    ensures LogOk(d)
  {
    if m.ForkDone? {
      RetiredKeepsLog(c, m.fork, true, d);
    } else if m.Down? {
      if m.receiver in c.jobs { HeardDownKeepsLog(c, m.receiver, m.sender, m.reason.Normal?, d); }
    } else {
      PlainMsgKeepsWatches(c, m, d);
      if d.notices != c.notices {
        AppendNotice(c.notices, d.notices[|c.notices|]);
      }
    }
  }

  ghost predicate LogsOk(s: System) {
    forall i :: i in s ==> LogOk(s[i])
  }

  ghost predicate SameRefs(s: System, s': System) {
    forall i :: i in s' ==>
      || (i in s && s'[i].notices == s[i].notices && s'[i].taken == s[i].taken)
      || (s'[i].notices == [] && s'[i].taken == map[])
  }

  lemma SameRefsKeepLogs(s: System, s': System)
    requires LogsOk(s) && SameRefs(s, s')
    ensures LogsOk(s')
  {
    var none: map<WatchRef, TakenWatch> := map[];
    assert Audit([]) == Some({}) && none.Keys == {};
    forall i | i in s' ensures LogOk(s'[i]) {
      if s'[i].notices == [] && s'[i].taken == map[] {
        assert s'[i].taken.Keys == {};
      }
    }
  }

  lemma SendKeepsRefs(s: System, s1: System, i: nat, m: SysMsg)
    requires SameRefs(s, s1)
    ensures SameRefs(s, Send(s1, i, m))
  {
  }

  lemma SendsKeepRefs(s: System, step: Step, s': System)
    requires Next(s, step, s')
    requires step.Flush? || step.SendKill? || step.SendTerminate?
    ensures SameRefs(s, s')
  {
    match step {
      case Flush(i) =>
        var s1 := s[i := s[i].(outbox := s[i].outbox[1..])];
        SendKeepsRefs(s, s1, s[i].outbox[0].receiver.net, s[i].outbox[0]);
      case SendKill(i) => SendKeepsRefs(s, s, i, Kill);
      case SendTerminate(sender, receiver) => SendKeepsRefs(s, s, receiver.net, Exit(sender, receiver, Terminate));
    }
  }

  lemma LinksKeepRefs(s: System, i: nat, c: ContainerState, sender: Address, receiver: Address)
    requires i in s && c == s[i].(phase := c.phase) && sender in c.jobs
    ensures SameRefs(s, LinkedSystem(s, i, c, sender, receiver))
  {
    var s1 := s[i := Linked(c, sender, receiver)];
    assert SameRefs(s, s1);
    SendKeepsRefs(s, s1, receiver.net, Connect(sender, receiver));
    SendKeepsRefs(s, s1, i, Exit(receiver, sender, LinkDown));
  }

  lemma LinkStepsKeepRefs(s: System, step: Step, s': System)
    requires Next(s, step, s') && (step.StartLink? || step.CallLink?)
    ensures SameRefs(s, s')
  {
    var i := step.i;
    if step.StartLink? {
      LinksKeepRefs(s, i, s[i].(phase := Starting(s[i].phase.pending - {step.peer})), s[i].main, step.peer);
    } else if s' != s {
      LinksKeepRefs(s, i, s[i], step.sender, step.receiver);
    }
  }

  lemma TakeWatchKeepsLog(c: ContainerState, sender: Address, receiver: Address, r: WatchRef)
    requires LogOk(c) && sender in c.jobs && r !in c.taken
    ensures LogOk(TakeWatch(c, sender, receiver, r))
  {
    AppendNotice(c.notices, WatchTaken(r));
    assert TakeWatch(c, sender, receiver, r).taken.Keys == c.taken.Keys + {r};
  }

  lemma GiveUpWatchKeepsLog(c: ContainerState, r: WatchRef)
    requires LogOk(c) && r in c.taken && c.taken[r].owner in c.jobs
    ensures LogOk(GiveUpWatch(c, r))
  {
    AppendNotice(c.notices, WatchDropped(r));
    assert (c.taken - {r}).Keys == c.taken.Keys - {r};
  }

  lemma PushKeepsLogs(s: System, i: nat, m: SysMsg)
    requires LogsOk(s) && i in s
    ensures LogsOk(Push(s, i, m))
  {
  }

  lemma CallWatchKeepsLogs(s: System, i: nat, sender: Address, receiver: Address, r: WatchRef, s': System)
    requires LogsOk(s) && Next(s, CallWatch(i, sender, receiver, r), s')
    ensures LogsOk(s')
  {
    TakeWatchKeepsLog(s[i], sender, receiver, r);
    var s1 := s[i := TakeWatch(s[i], sender, receiver, r)];
    if Accepting(s1, receiver.net) {
      PushKeepsLogs(s1, receiver.net, Watch(sender, receiver, r));
    } else {
      PushKeepsLogs(s1, i, Down(receiver, sender, LinkDown));
    }
  }

  lemma CallUnwatchKeepsLogs(s: System, i: nat, r: WatchRef, s': System)
    requires LogsOk(s) && Next(s, CallUnwatch(i, r), s')
    ensures LogsOk(s')
  {
    if r in s[i].taken {
      GiveUpWatchKeepsLog(s[i], r);
    }
  }

  lemma FinishKeepsLogs(s: System, i: nat, s': System)
    requires Sound(s) && LogsOk(s) && Next(s, Finish(i), s')
    ensures LogsOk(s')
  {
    var c := s[i].(phase := Gone);
    assert CellOk(i, s[i]);
    SameWatchesKeepBooks(s[i], c);
    RetiredKeepsLog(c, c.main, s[i].phase.normal, s'[i]);
  }

  lemma DrainKeepsLogs(s: System, i: nat, s': System)
    requires Sound(s) && LogsOk(s) && Next(s, Drain(i), s')
    ensures LogsOk(s')
  {
    var m, c := s[i].queue[0], s[i].(queue := s[i].queue[1..]);
    assert CellOk(i, s[i]);
    SameWatchesKeepBooks(s[i], c);
    if m.ForkDone? && m.fork in c.jobs {
      RetiredKeepsLog(c, m.fork, s[i].phase.normal, s'[i]);
    }
  }

  lemma HandleKeepsLogs(s: System, i: nat, s': System)
    requires Sound(s) && LogsOk(s) && Next(s, Handle(i), s')
    ensures LogsOk(s')
  {
    var c := s[i].(queue := s[i].queue[1..]);
    assert CellOk(i, s[i]);
    SameWatchesKeepBooks(s[i], c);
    OnMsgKeepsLog(c, s[i].queue[0], s'[i]);
  }

  lemma TurnKeepsLogs(s: System, step: Step, s': System)
    requires Sound(s) && LogsOk(s) && Next(s, step, s') && (step.Handle? || step.Drain? || step.Finish?)
    ensures LogsOk(s')
  {
    match step
    case Handle(i) => HandleKeepsLogs(s, i, s');
    case Drain(i) => DrainKeepsLogs(s, i, s');
    case Finish(i) => FinishKeepsLogs(s, i, s');
  }

  lemma LocalStepsKeepRefs(s: System, step: Step, s': System)
    requires Next(s, step, s')
    requires step.Start? || step.StartDone? || step.CallExit? || step.CallTrapExit? || step.CallForkAdded?
          || step.CallUnlink? || step.DropFork? || step.DropLateFork? || step.Close?
    ensures SameRefs(s, s')
  {
  }

  lemma StepKeepsLogs(s: System, step: Step, s': System)
    requires Sound(s) && LogsOk(s) && Next(s, step, s')
    ensures LogsOk(s')
  {
    if step.CallWatch? {
      CallWatchKeepsLogs(s, step.i, step.sender, step.receiver, step.watchRef, s');
    } else if step.CallUnwatch? {
      CallUnwatchKeepsLogs(s, step.i, step.watchRef, s');
    } else if step.Handle? || step.Drain? || step.Finish? {
      TurnKeepsLogs(s, step, s');
    } else if step.StartLink? || step.CallLink? {
      LinkStepsKeepRefs(s, step, s');
      SameRefsKeepLogs(s, s');
    } else if step.Flush? || step.SendKill? || step.SendTerminate? {
      SendsKeepRefs(s, step, s');
      SameRefsKeepLogs(s, s');
    } else {
      LocalStepsKeepRefs(s, step, s');
      SameRefsKeepLogs(s, s');
    }
  }

  lemma {:induction false} RunKeepsLogs(states: seq<System>, steps: seq<Step>, k: nat)
    requires IsRun(states, steps) && k < |states|
    ensures LogsOk(states[k])
    decreases k
  {
    if k > 0 {
      RunIsSound(states, steps, k - 1);
      RunKeepsLogs(states, steps, k - 1);
      StepKeepsLogs(states[k - 1], steps[k - 1], states[k]);
    }
  }

  lemma {:induction false} AuditPrefix(log: seq<Notice>, k: nat)
    requires k <= |log| && Audit(log).Some?
    ensures Audit(log[..k]).Some?
    ensures k < |log| ==> Audit(log[..k + 1]) == Audit1(Audit(log[..k]).value, log[k])
    decreases |log|
  {
    if k == |log| {
      assert log[..k] == log;
    } else if k == |log| - 1 {
      assert log[..k + 1] == log;
    } else {
      var init := log[..|log| - 1];
      assert init[..k] == log[..k] && init[..k + 1] == log[..k + 1];
      AuditPrefix(init, k);
    }
  }

  /** A ref that is free at `i` and in use at `j` was taken in between. */
  lemma {:induction false} ReopenedByTake(log: seq<Notice>, i: nat, j: nat, r: WatchRef)
    requires Audit(log).Some? && i <= j <= |log|
    requires Audit(log[..i]).Some? && Audit(log[..j]).Some?
    requires r !in Audit(log[..i]).value && r in Audit(log[..j]).value
    ensures exists k :: i <= k < j && log[k] == WatchTaken(r)
    decreases j
  {
    assert i < j;
    AuditPrefix(log, j - 1);
    if log[j - 1] != WatchTaken(r) {
      ReopenedByTake(log, i, j - 1, r);
    }
  }

  /** In every run, a watch ref is reported down at most once per `watch` call that
      handed it out, and not at all after it was given up: two ends of the same ref
      have a take between them. */
  lemma OneEndPerTake(states: seq<System>, steps: seq<Step>, k: nat, c: nat, i: nat, j: nat, r: WatchRef)
    requires IsRun(states, steps) && k < |states| && c in states[k]
    requires i < j < |states[k][c].notices|
    requires EndOf(states[k][c].notices[i]) == Some(r) && EndOf(states[k][c].notices[j]) == Some(r)
    ensures exists n :: i < n < j && states[k][c].notices[n] == WatchTaken(r)
  {
    RunKeepsLogs(states, steps, k);
    var log := states[k][c].notices;
    AuditPrefix(log, i);
    AuditPrefix(log, i + 1);
    AuditPrefix(log, j);
    AuditPrefix(log, j + 1);
    ReopenedByTake(log, i + 1, j, r);
  }

  /** In every run the refs in use are exactly the watches of the jobs: each ref
      belongs to one job and one target. */
  lemma TakenRefsAreWatches(states: seq<System>, steps: seq<Step>, k: nat, i: nat, r: WatchRef, a: Address, t: Address)
    requires IsRun(states, steps) && k < |states| && i in states[k]
    ensures (r in states[k][i].taken && states[k][i].taken[r] == TakenWatch(a, t))
       <==> (a in states[k][i].jobs && (t, r) in states[k][i].jobs[a].watches)
  {
    RunIsSound(states, steps, k);
    assert CellOk(i, states[k][i]);
  }
}
