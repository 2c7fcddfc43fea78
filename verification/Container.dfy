/** The container as a mutable object: the handlers of its main loop and of its
    teardown, each proved to take the step that `Protocol` describes.

    A fire-and-forget `sys_send` appends to `outbox`; the registry moves the messages
    on from there. For the sends whose result matters the result is a parameter, and
    the message sent is returned. */
module Container {
  import opened Protocol
  import opened ProtocolInvariants
  import EndLaws

  // ---------------------------------------------------------------------------
  // The order of the B-tree sets
  // ---------------------------------------------------------------------------

  predicate AddressLess(a: Address, b: Address) {
    a.net < b.net || (a.net == b.net && a.host < b.host)
  }

  predicate Leq(v: (Address, WatchRef), w: (Address, WatchRef)) {
    AddressLess(v.0, w.0) || (v.0 == w.0 && v.1 <= w.1)
  }

  /** The first entry in iteration order. */
  method First(entries: set<(Address, WatchRef)>) returns (w: (Address, WatchRef))
    requires entries != {}
    ensures w in entries && forall x :: x in entries ==> Leq(w, x)
  {
    w :| w in entries;
    var rest := entries - {w};
    while rest != {}
      invariant w in entries && rest <= entries
      invariant forall x :: x in entries && x !in rest ==> Leq(w, x)
      decreases rest
    {
      var x :| x in rest;
      if !Leq(w, x) { w := x; }
      rest := rest - {x};
    }
  }

  /** Takes the registrations of `peer` out, one by one. */
  method DropWatcher(registered: set<(Address, WatchRef)>, peer: Address) returns (rest: set<(Address, WatchRef)>)
    ensures rest == NotOn(registered, peer)
  {
    rest := registered;
    while exists w :: w in rest && w.0 == peer
      invariant NotOn(registered, peer) <= rest <= registered
      decreases rest
    {
      var w :| w in rest && w.0 == peer;
      rest := rest - {w};
    }
  }

  // ---------------------------------------------------------------------------
  // Growing the lists of messages
  // ---------------------------------------------------------------------------

  ghost predicate DistinctRefs(watches: set<(Address, WatchRef)>) {
    forall v, w :: v in watches && w in watches && v.1 == w.1 ==> v == w
  }

  lemma UnwatchOneMore(out: seq<SysMsg>, who: Address, done: set<(Address, WatchRef)>, w: (Address, WatchRef))
    requires UnwatchesOf(out, who, Job({}, done, {})) && w !in done
    ensures UnwatchesOf(out + [Unwatch(who, w.0, w.1)], who, Job({}, done + {w}, {}))
  {
    assert Unwatch(who, w.0, w.1) !in out by { assert (w.0, w.1) == w; }
  }

  lemma DropOneMore(drops: seq<Notice>, done: set<(Address, WatchRef)>, w: (Address, WatchRef))
    requires DropsOf(drops, done) && w.1 !in Refs(done)
    ensures DropsOf(drops + [WatchDropped(w.1)], done + {w})
  {
    assert Refs(done + {w}) == Refs(done) + {w.1};
  }

  lemma ExitOneMore(out: seq<SysMsg>, who: Address, done: set<Address>, peer: Address, normal: bool)
    requires ExitsOf(out, who, Job(done, {}, {}), normal) && peer !in done
    ensures ExitsOf(out + [Exit(who, peer, ReasonOf(normal))], who, Job(done + {peer}, {}, {}), normal)
  {
  }

  lemma DownOneMore(out: seq<SysMsg>, who: Address, done: set<(Address, WatchRef)>, w: (Address, WatchRef), normal: bool)
    requires DownsOf(out, who, Job({}, {}, done), normal)
    ensures !IsWatcher(Job({}, {}, done), w.0)
      ==> DownsOf(out + [Down(who, w.0, ReasonOf(normal))], who, Job({}, {}, done + {w}), normal)
    ensures IsWatcher(Job({}, {}, done), w.0) ==> DownsOf(out, who, Job({}, {}, done + {w}), normal)
  {
    var before, after := Job({}, {}, done), Job({}, {}, done + {w});
    forall peer ensures IsWatcher(after, peer) <==> IsWatcher(before, peer) || peer == w.0 {
      assert (w.0, w.1) in after.watchedBy;
      if IsWatcher(before, peer) {
        var r: WatchRef :| (peer, r) in before.watchedBy;
        assert (peer, r) in after.watchedBy;
      }
    }
  }

  lemma ReportOneMore(reports: seq<Notice>, done: set<(Address, WatchRef)>, w: (Address, WatchRef), to: Address, peer: Address, normal: bool)
    requires ReportsOf(reports, Job({}, done, {}), to, peer, normal) && w !in done && w.0 == peer
    ensures ReportsOf(reports + [DownReport(to, peer, w.1, normal)], Job({}, done + {w}, {}), to, peer, normal)
  {
    assert (w.0, w.1) == w;
  }

  lemma FarewellJoin(unwatches: seq<SysMsg>, exits: seq<SysMsg>, downs: seq<SysMsg>, who: Address, job: Job, normal: bool)
    requires UnwatchesOf(unwatches, who, job) && ExitsOf(exits, who, job, normal) && DownsOf(downs, who, job, normal)
    ensures Farewell(unwatches + exits + downs, who, job, normal)
  {
    var out, i, j := unwatches + exits + downs, |unwatches|, |unwatches| + |exits|;
    assert out[..i] == unwatches && out[i..j] == exits && out[j..] == downs;
  }

  lemma LastJobLeaves(c: ContainerState, who: Address, normal: bool, d: ContainerState)
    requires BooksMatch(c) && who in c.jobs && (forall a :: a in c.jobs ==> a == who) && Retired(c, who, normal, d)
    ensures d.jobs == map[] && d.taken == map[]
  {
    assert c.jobs.Keys == {who};
    forall r | r in c.taken ensures r in Refs(c.jobs[who].watches) {
      assert (c.taken[r].target, r) in c.jobs[who].watches;
    }
  }

  /** Over an ordered set, a watcher was told before exactly if it is the previous one. */
  lemma PreviousDecides(done: set<(Address, WatchRef)>, rest: set<(Address, WatchRef)>, prev: set<Address>, w: (Address, WatchRef))
    requires w in rest
    requires forall v :: v in done ==> Leq(v, w)
    requires forall p :: p in prev ==> IsWatcher(Job({}, {}, done), p)
    requires forall v :: v in done ==> exists p :: p in prev && (AddressLess(v.0, p) || v.0 == p)
    ensures IsWatcher(Job({}, {}, done), w.0) <==> w.0 in prev
  {
    if IsWatcher(Job({}, {}, done), w.0) {
      var r: WatchRef :| (w.0, r) in done;
      var p :| p in prev && (AddressLess(w.0, p) || w.0 == p);
      var r': WatchRef :| (p, r') in done;
      assert Leq((p, r'), w);
    }
  }

  // ---------------------------------------------------------------------------
  // The container
  // ---------------------------------------------------------------------------

  class Container {
    const main: Address
    var phase: Phase
    var jobs: map<Address, Job>
    var taken: map<WatchRef, TakenWatch>
    var nextRef: WatchRef
    var trapExit: bool
    var queue: seq<SysMsg>
    var outbox: seq<SysMsg>
    var notices: seq<Notice>

    ghost function State(): ContainerState
      reads this
    {
      ContainerState(main, phase, jobs, taken, nextRef, trapExit, queue, outbox, notices)
    }

    /** The sends of the previous handler have left. */
    ghost predicate Ready()
      reads this
    {
      BooksMatch(State()) && outbox == []
    }

    constructor (main: Address, pending: set<Address>)
      ensures State() == NewContainer(main, pending) && Ready()
    {
      this.main := main;
      phase := Starting(pending);
      jobs := map[main := NO_JOB];
      taken, nextRef := map[], 0;
      trapExit := false;
      queue, outbox, notices := [], [], [];
    }

    /** Takes back the watches of a job that ends. */
    method UnwatchTargets(who: Address, job: Job)
      requires DistinctRefs(job.watches)
      modifies `taken, `outbox, `notices
      ensures taken == old(taken) - Refs(job.watches)
      ensures |outbox| >= |old(outbox)| && outbox[..|old(outbox)|] == old(outbox)
      ensures UnwatchesOf(outbox[|old(outbox)|..], who, job)
      ensures |notices| >= |old(notices)| && notices[..|old(notices)|] == old(notices)
      ensures DropsOf(notices[|old(notices)|..], job.watches)
    {
      var rest := job.watches;
      ghost var out: seq<SysMsg>, drops: seq<Notice> := [], [];
      while rest != {}
        invariant rest <= job.watches
        invariant taken == old(taken) - Refs(job.watches - rest)
        invariant outbox == old(outbox) + out && UnwatchesOf(out, who, Job({}, job.watches - rest, {}))
        invariant notices == old(notices) + drops && DropsOf(drops, job.watches - rest)
        decreases rest
      {
        var w := First(rest);
        ghost var done := job.watches - rest;
        rest := rest - {w};
        assert job.watches - rest == done + {w};
        assert Refs(done + {w}) == Refs(done) + {w.1};
        UnwatchOneMore(out, who, done, w);
        DropOneMore(drops, done, w);
        taken := taken - {w.1};
        outbox := outbox + [Unwatch(who, w.0, w.1)];
        notices := notices + [WatchDropped(w.1)];
        out, drops := out + [Unwatch(who, w.0, w.1)], drops + [WatchDropped(w.1)];
      }
      assert job.watches - rest == job.watches;
    }

    method TellLinked(who: Address, job: Job, normal: bool)
      modifies `outbox
      ensures |outbox| >= |old(outbox)| && outbox[..|old(outbox)|] == old(outbox)
      ensures ExitsOf(outbox[|old(outbox)|..], who, job, normal)
      ensures forall m :: m in outbox[|old(outbox)|..] ==> m.Exit? && m.reason == if normal then Normal else LinkDown
    {
      var rest := job.linkedTo;
      ghost var out: seq<SysMsg> := [];
      while rest != {}
        invariant rest <= job.linkedTo
        invariant outbox == old(outbox) + out && ExitsOf(out, who, Job(job.linkedTo - rest, {}, {}), normal)
        decreases rest
      {
        var peer :| peer in rest;
        ghost var done := job.linkedTo - rest;
        rest := rest - {peer};
        assert job.linkedTo - rest == done + {peer};
        ExitOneMore(out, who, done, peer, normal);
        outbox := outbox + [Exit(who, peer, ReasonOf(normal))];
        out := out + [Exit(who, peer, ReasonOf(normal))];
      }
      assert job.linkedTo - rest == job.linkedTo;
    }

    /** Sends one `Down` per watcher by skipping repetitions of the previous one:
        enough, since the entries come in order. */
    method TellWatchers(who: Address, job: Job, normal: bool)
      modifies `outbox
      ensures |outbox| >= |old(outbox)| && outbox[..|old(outbox)|] == old(outbox)
      ensures DownsOf(outbox[|old(outbox)|..], who, job, normal)
      ensures forall m :: m in outbox[|old(outbox)|..] ==> m.Down? && m.reason == if normal then Normal else LinkDown
    {
      var rest := job.watchedBy;
      var prev: set<Address> := {};
      ghost var out: seq<SysMsg> := [];
      while rest != {}
        invariant rest <= job.watchedBy
        invariant forall v, w :: v in job.watchedBy && v !in rest && w in rest ==> Leq(v, w)
        invariant forall p :: p in prev ==> IsWatcher(Job({}, {}, job.watchedBy - rest), p)
        invariant forall v :: v in job.watchedBy && v !in rest ==> exists p :: p in prev && (AddressLess(v.0, p) || v.0 == p)
        invariant outbox == old(outbox) + out && DownsOf(out, who, Job({}, {}, job.watchedBy - rest), normal)
        decreases rest
      {
        var w := First(rest);
        ghost var done := job.watchedBy - rest;
        PreviousDecides(done, rest, prev, w);
        rest := rest - {w};
        assert job.watchedBy - rest == done + {w};
        DownOneMore(out, who, done, w, normal);
        if w.0 !in prev {
          outbox := outbox + [Down(who, w.0, ReasonOf(normal))];
          out := out + [Down(who, w.0, ReasonOf(normal))];
        }
        prev := {w.0};
        assert (w.0, w.1) in done + {w};
      }
      assert job.watchedBy - rest == job.watchedBy;
    }

    method Retire(who: Address, normal: bool)
      requires Ready() && who in jobs
      modifies this
      ensures Retired(old(State()), who, normal, State())
      ensures EndLaws.ToldAs(outbox, who, old(jobs)[who], if normal then Normal else LinkDown)
    {
      var job := jobs[who];
      jobs := jobs - {who};
      assert DistinctRefs(job.watches) by {
        assert forall w :: w in job.watches ==> (w.0, w.1) in job.watches;
      }
      UnwatchTargets(who, job);
      ghost var unwatches := outbox;
      TellLinked(who, job, normal);
      ghost var exits := outbox[|unwatches|..];
      assert outbox == unwatches + exits;
      ghost var soFar := outbox;
      TellWatchers(who, job, normal);
      ghost var downs := outbox[|soFar|..];
      assert outbox == unwatches + exits + downs;
      FarewellJoin(unwatches, exits, downs, who, job, normal);
      assert notices == old(notices) + notices[|old(notices)|..];
      EndLaws.FarewellIsTrue(old(State()), who, normal, State());
    }

    method HearDown(who: Address, peer: Address, normal: bool)
      requires Ready() && who in jobs
      modifies this
      ensures HeardDown(old(State()), who, peer, normal, State())
    {
      var job := jobs[who];
      var watchedBy := DropWatcher(job.watchedBy, peer);
      var watches := job.watches;
      ghost var reports: seq<Notice> := [];
      while exists w :: w in watches && w.0 == peer
        invariant NotOn(job.watches, peer) <= watches <= job.watches
        invariant taken == old(taken) - Refs(job.watches - watches)
        invariant notices == old(notices) + reports
        invariant ReportsOf(reports, Job({}, job.watches - watches, {}), who, peer, normal)
        invariant State() == old(State()).(taken := taken, notices := notices)
        decreases watches
      {
        var some :| some in watches && some.0 == peer;
        var on := set w | w in watches && w.0 == peer;
        assert some in on;
        var w := First(on);
        ghost var done := job.watches - watches;
        watches := watches - {w};
        assert job.watches - watches == done + {w};
        assert Refs(done + {w}) == Refs(done) + {w.1};
        ReportOneMore(reports, done, w, who, peer, normal);
        taken := taken - {w.1};
        notices := notices + [DownReport(who, peer, w.1, normal)];
        reports := reports + [DownReport(who, peer, w.1, normal)];
      }
      assert watches == NotOn(job.watches, peer);
      assert Refs(job.watches - watches) == RefsOn(job.watches, peer);
      assert forall w :: w in job.watches - watches <==> w in job.watches && w.0 == peer;
      assert notices[|old(notices)|..] == reports;
      jobs := jobs[who := job.(watches := watches, watchedBy := watchedBy)];
    }

    /** The main loop takes a system message. */
    method Handle()
      requires Ready() && phase.Running? && queue != []
      requires queue[0].ForkDone? ==> queue[0].fork in jobs
      modifies this
      ensures OnMsg(old(State()).(queue := old(queue)[1..]), old(queue)[0], State())
    {
      var m := queue[0];
      queue := queue[1..];
      assert BooksMatch(State()) by { SameWatchesKeepBooks(old(State()), State()); }
      match m
      case Kill => phase := Stopping(false);
      case ForkDone(fork) => Retire(fork, true);
      case Connect(sender, receiver) =>
        if receiver in jobs {
          jobs := jobs[receiver := jobs[receiver].(linkedTo := jobs[receiver].linkedTo + {sender})];
        } else {
          outbox := outbox + [Exit(receiver, sender, LinkDown)];
        }
      case Disconnect(sender, receiver) => Unlink(sender, receiver);
      case Exit(sender, receiver, reason) =>
        if trapExit { TrapExit(sender, receiver, reason); } else { ObeyExit(sender, receiver, reason); }
      case Watch(sender, receiver, r) =>
        if receiver in jobs {
          jobs := jobs[receiver := jobs[receiver].(watchedBy := jobs[receiver].watchedBy + {(sender, r)})];
        } else {
          outbox := outbox + [Down(receiver, sender, LinkDown)];
        }
      case Unwatch(sender, receiver, r) =>
        if receiver in jobs {
          jobs := jobs[receiver := jobs[receiver].(watchedBy := jobs[receiver].watchedBy - {(sender, r)})];
        }
      case Down(sender, receiver, reason) =>
        if receiver in jobs { HearDown(receiver, sender, reason.Normal?); }
    }

    method Unlink(sender: Address, receiver: Address)
      modifies `jobs
      ensures State() == Unlinked(old(State()), receiver, sender)
    {
      if receiver in jobs {
        jobs := jobs[receiver := jobs[receiver].(linkedTo := jobs[receiver].linkedTo - {sender})];
      }
    }

    method ObeyExit(sender: Address, receiver: Address, reason: ExitReason)
      modifies `jobs, `phase
      ensures State() == ExitUntrapped(old(State()), sender, receiver, reason)
      ensures phase ==
        if && receiver in old(jobs)
           && (reason == Terminate || (reason == LinkDown && sender in old(jobs)[receiver].linkedTo))
        then Stopping(false) else old(phase)
    {
      match reason
      case Normal => Unlink(sender, receiver);
      case LinkDown =>
        if receiver in jobs && sender in jobs[receiver].linkedTo {
          Unlink(sender, receiver);
          phase := Stopping(false);
        }
      case Terminate => if receiver in jobs { phase := Stopping(false); }
    }

    method TrapExit(sender: Address, receiver: Address, reason: ExitReason)
      modifies `jobs, `notices
      ensures State() == ExitTrapped(old(State()), sender, receiver, reason)
      ensures phase == old(phase)
      ensures notices == old(notices) +
        if receiver in old(jobs) && (reason == Terminate || sender in old(jobs)[receiver].linkedTo)
        then [ExitReport(receiver, sender, reason == Normal)] else []
    {
      if receiver in jobs {
        var handle := true;
        if !reason.Terminate? {
          handle := sender in jobs[receiver].linkedTo;
          if handle { Unlink(sender, receiver); }
        }
        if handle { notices := notices + [ExitReport(receiver, sender, reason.Normal?)]; }
      }
    }

    /** The teardown takes a message off the closed queue. */
    method Drain()
      requires Ready() && phase.Draining? && queue != []
      modifies this
      ensures OnDrain(old(State()).(queue := old(queue)[1..]), old(queue)[0], old(phase).normal, State())
      ensures forall m :: m in outbox && (m.Exit? || m.Down?) ==> m.reason == if old(phase).normal then Normal else LinkDown
    {
      var m, normal := queue[0], phase.normal;
      queue := queue[1..];
      assert BooksMatch(State()) by { SameWatchesKeepBooks(old(State()), State()); }
      match m
      case ForkDone(fork) => if fork in jobs { Retire(fork, normal); }
      case Connect(sender, receiver) => outbox := outbox + [Exit(receiver, sender, ReasonOf(normal))];
      case Watch(sender, receiver, _) => outbox := outbox + [Down(receiver, sender, ReasonOf(normal))];
      case _ =>
    }

    /** The end of the teardown. */
    method Finish()
      requires Ready() && phase.Draining? && main in jobs
      modifies this
      ensures Retired(old(State()).(phase := Gone), main, old(phase).normal, State())
      ensures EndLaws.ToldAs(outbox, main, old(jobs)[main], if old(phase).normal then Normal else LinkDown)
      ensures old(ForksDropped(State())) && old(queue) == [] ==> jobs == map[] && taken == map[]
    {
      ghost var dropped := ForksDropped(State()) && queue == [];
      var normal := phase.normal;
      phase := Gone;
      assert BooksMatch(State()) by { SameWatchesKeepBooks(old(State()), State()); }
      Retire(main, normal);
      if dropped { LastJobLeaves(old(State()).(phase := Gone), main, normal, State()); }
    }

    /** Searches the 64-bit counter, wrapping, for a ref not in use. It needs one to
        exist: the search would not end otherwise. */
    method FreshRef() returns (r: WatchRef)
      requires exists x: WatchRef :: x !in taken
      modifies `nextRef
      ensures FirstFree(old(State()), r) && nextRef == Successor(r)
    {
      ghost var unused: WatchRef :| unused !in taken;
      ghost var from := nextRef;
      ghost var limit := Ahead(from, unused);
      r := nextRef;
      nextRef := Successor(nextRef);
      while r in taken
        invariant nextRef == Successor(r) && Ahead(from, r) <= limit
        invariant forall x: WatchRef :: Ahead(from, x) < Ahead(from, r) ==> x in taken
        decreases limit - Ahead(from, r)
      {
        assert r != unused;
        r := nextRef;
        nextRef := Successor(nextRef);
      }
    }

    /** A fork watches `receiver`. The registry accepted the request or not. */
    method CallWatch(sender: Address, receiver: Address, accepted: bool) returns (r: WatchRef, request: SysMsg)
      requires sender in jobs && exists x: WatchRef :: x !in taken
      modifies this
      ensures FirstFree(old(State()), r) && request == Watch(sender, receiver, r)
      ensures var d := TakeWatch(old(State()), sender, receiver, r);
        State() == if accepted then d else d.(queue := d.queue + [Down(receiver, sender, LinkDown)])
    {
      r := FreshRef();
      taken := taken[r := TakenWatch(sender, receiver)];
      jobs := jobs[sender := jobs[sender].(watches := jobs[sender].watches + {(receiver, r)})];
      request := Watch(sender, receiver, r);
      if !accepted { queue := queue + [Down(receiver, sender, LinkDown)]; }
      notices := notices + [WatchTaken(r)];
    }

    method CallUnwatch(r: WatchRef)
      requires Ready()
      modifies this
      ensures State() == if r in old(taken) then GiveUpWatch(old(State()), r) else old(State())
    {
      if r in taken {
        var owner, target := taken[r].owner, taken[r].target;
        taken := taken - {r};
        jobs := jobs[owner := jobs[owner].(watches := jobs[owner].watches - {(target, r)})];
        outbox := outbox + [Unwatch(owner, target, r)];
        notices := notices + [WatchDropped(r)];
      }
    }

    /** A fork links to `receiver`; nothing is sent if it was linked already. */
    method CallLink(sender: Address, receiver: Address, accepted: bool) returns (requested: bool)
      requires sender in jobs
      modifies `jobs, `queue
      ensures requested == (receiver !in old(jobs)[sender].linkedTo)
      ensures var d := Linked(old(State()), sender, receiver);
        State() == if !requested then old(State())
                   else if accepted then d else d.(queue := d.queue + [Exit(receiver, sender, LinkDown)])
    {
      requested := receiver !in jobs[sender].linkedTo;
      if requested {
        jobs := jobs[sender := jobs[sender].(linkedTo := jobs[sender].linkedTo + {receiver})];
        if !accepted { queue := queue + [Exit(receiver, sender, LinkDown)]; }
      }
    }
  }
}
