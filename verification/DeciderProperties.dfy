/** What holds over all runs of the deciders. */
module DeciderProperties {
  import opened Options
  import opened RestartIntensity
  import opened Decider

  // ---------------------------------------------------------------------------
  // One child per key, one child per address
  // ---------------------------------------------------------------------------

  ghost predicate KeysDiffer(children: seq<Child>) {
    forall i, j :: 0 <= i < j < |children| ==> children[i].key != children[j].key
  }

  ghost predicate AddressesDiffer(children: seq<Child>) {
    forall i, j, a: Address :: 0 <= i < j < |children| && Lives(children[i].status, a) ==> !Lives(children[j].status, a)
  }

  /** Restarting is for all-for-one, removal for one-for-one. */
  ghost predicate Tidy(d: State) {
    && KeysDiffer(d.children) && AddressesDiffer(d.children)
    && (d.strategy.OneForOne? ==> !d.status.SupRestarting?)
    && (d.strategy.AllForOne? ==> forall c :: c in d.children ==> !c.target.ToRemove?)
  }

  lemma {:induction false} RetainedDiffers(children: seq<Child>)
    requires KeysDiffer(children) && AddressesDiffer(children)
    ensures KeysDiffer(Retained(children)) && AddressesDiffer(Retained(children))
    decreases |children|
  {
    if children != [] {
      var head, rest := children[0], children[1..];
      RetainedDiffers(rest);
      var kept := Retained(rest);
      forall i | 0 <= i < |kept|
        ensures kept[i].key != head.key && forall a: Address :: Lives(head.status, a) ==> !Lives(kept[i].status, a)
      {
        RetainedMembers(rest, kept[i]);
        assert kept[i] in rest;
        var j :| 0 <= j < |rest| && rest[j] == kept[i];
        assert children[j + 1] == kept[i];
      }
    }
  }

  /** Changing a child without giving it a new key or a new address. */
  lemma UpdateKeepsTidy(d: State, i: nat, c: Child)
    requires Tidy(d) && i < |d.children| && c.key == d.children[i].key
    requires forall a: Address :: Lives(c.status, a) ==> IndexOfAddress(d.children, a) >= |d.children| || Lives(d.children[i].status, a)
    requires d.strategy.AllForOne? ==> !c.target.ToRemove?
    ensures Tidy(d.(children := d.children[i := c]))
  {
    var children := d.children[i := c];
    forall m, n, a: Address | 0 <= m < n < |children| && Lives(children[m].status, a) ensures !Lives(children[n].status, a) {
      assert Lives(d.children[m].status, a) ==> !Lives(d.children[n].status, a);
    }
    assert forall x :: x in children ==> x == c || x in d.children;
  }

  lemma AdvanceKeepsTidy(d: State, i: nat)
    requires Tidy(d) && i < |d.children| && Acts(d.status, d.children[i])
    ensures Tidy(d.(children := d.children[i := Advanced(d.children[i])]))
  {
    assert d.children[i] in d.children;
    UpdateKeepsTidy(d, i, Advanced(d.children[i]));
  }

  lemma NextKeepsTidy(d: State, action: Option<Action>, d': State)
    requires Tidy(d) && NextAction(d, action, d')
    ensures Tidy(d')
  {
    var kept := d.(children := Retained(d.children));
    RetainedDiffers(d.children);
    forall c | c in kept.children ensures c in d.children { RetainedMembers(d.children, c); }
    assert Tidy(kept);
    if d.orphans == {} && !Idle(d.status, kept.children) {
      var i: nat :| Chosen(d.status, kept.children, i)
        && action == Some(ActionOn(kept.children[i]))
        && d' == kept.(children := kept.children[i := Advanced(kept.children[i])]);
      AdvanceKeepsTidy(kept, i);
    }
  }

  lemma EventKeepsTidy(d: State, e: Event, d': State)
    requires Tidy(d) && Step(d, e, d') && !e.Next? && !e.Add? && !e.Quit?
    ensures Tidy(d')
  {
    var i := if e.Exited? then IndexOfAddress(d.children, e.address) else IndexOfKey(d.children, e.key);
    if i < |d.children| && d'.children != d.children {
      assert d.children[i] in d.children;
      UpdateKeepsTidy(d, i, d'.children[i]);
      assert d'.children == d.children[i := d'.children[i]];
    }
  }

  lemma AddKeepsTidy(d: State, key: Key, childType: ChildType)
    requires Tidy(d)
    ensures Tidy(Added(d, key, childType))
  {
    var d' := Added(d, key, childType);
    assert forall c :: c in d'.children ==> c in d.children || c == Child(key, childType, Stopped, ToRun);
  }

  lemma StepKeepsTidy(d: State, e: Event, d': State)
    requires Tidy(d) && Step(d, e, d')
    ensures Tidy(d')
  {
    match e
    case Next(action) => NextKeepsTidy(d, action, d');
    case Add(key, childType) => AddKeepsTidy(d, key, childType);
    case Quit(_) =>
    case _ => EventKeepsTidy(d, e, d');
  }

  /** In every state of every run a key names one child, an address belongs to one,
      and the two strategies keep to their own statuses. */
  lemma {:induction false} RunIsTidy(states: seq<State>, events: seq<Event>, n: nat)
    requires IsRun(states, events) && n < |states|
    ensures Tidy(states[n]) && states[n].strategy == states[0].strategy
    decreases n
  {
    if n > 0 {
      RunIsTidy(states, events, n - 1);
      StepKeepsTidy(states[n - 1], events[n - 1], states[n]);
    }
  }

  // ---------------------------------------------------------------------------
  // Shutting down
  // ---------------------------------------------------------------------------

  predicate Starts(e: Event) {
    e.Next? && e.action.Some? && e.action.value.Start?
  }

  predicate Emits(e: Event, a: Action) {
    e == Next(Some(a))
  }

  /** No child is started: the group is stopping, stopped or waiting to restart. */
  predicate Closed(status: SupStatus) {
    status.SupStopping? || status.SupStopped? || status.SupRestarting?
  }

  lemma ClosedStep(d: State, e: Event, d': State)
    requires Step(d, e, d') && Closed(d.status)
    ensures !Starts(e)
    ensures Closed(d'.status) || (Emits(e, Noop) && d.status.SupRestarting? && AllStopped(d'.children))
  {
  }

  /** The event is the unacceptable exit of a running child. */
  ghost predicate Alarms(d: State, e: Event) {
    && e.Exited?
    && var i := IndexOfAddress(d.children, e.address);
    && i < |d.children| && d.children[i].status.Running?
    && (d.children[i].childType.Permanent? || (d.children[i].childType.Transient? && !e.normal))
  }

  predicate ShuttingDown(d: State) {
    d.status.SupStopping? || d.status.SupStopped?
  }

  lemma ShutdownStep(d: State, e: Event, d': State)
    requires Step(d, e, d') && ShuttingDown(d) && d.strategy.OneForOne?
    ensures ShuttingDown(d') && !Starts(e)
  {
    ClosedStep(d, e, d');
  }

  lemma ShutdownGoesOn(states: seq<State>, events: seq<Event>, n: nat)
    requires IsRun(states, events) && states[0].strategy.OneForOne? && n < |events| && ShuttingDown(states[n])
    ensures ShuttingDown(states[n + 1]) && !Starts(events[n])
  {
    RunIsTidy(states, events, n);
    ShutdownStep(states[n], events[n], states[n + 1]);
  }

  /** Under one-for-one a supervisor that has begun to stop starts no child again. */
  lemma {:induction false} ShutdownIsFinal(states: seq<State>, events: seq<Event>, i: nat, j: nat)
    requires IsRun(states, events) && states[0].strategy.OneForOne? && i <= j < |events| && ShuttingDown(states[i])
    ensures ShuttingDown(states[j + 1]) && !Starts(events[j])
    decreases j
  {
    if i < j { ShutdownIsFinal(states, events, i, j - 1); }
    ShutdownGoesOn(states, events, j);
  }

  /** The event turns a shutdown into a restart of the group. */
  ghost predicate TurnsBack(d: State, e: Event) {
    && d.strategy.AllForOne? && Alarms(d, e)
    && !Exceeded(d.intensity, Report(d.times, d.intensity.within, e.at))
  }

  /** A step leaves the shutdown exactly if a running child of an all-for-one group exits
      unacceptably and the restarts are not used up. */
  lemma ShutdownIsLeft(d: State, e: Event, d': State)
    requires Step(d, e, d') && ShuttingDown(d)
    ensures ShuttingDown(d') <==> !TurnsBack(d, e)
  {
    if d.strategy.OneForOne? { ShutdownStep(d, e, d'); }
  }

  lemma ShutdownGoesOnUnturned(states: seq<State>, events: seq<Event>, n: nat)
    requires IsRun(states, events) && n < |events| && ShuttingDown(states[n]) && !TurnsBack(states[n], events[n])
    ensures ShuttingDown(states[n + 1]) && !Starts(events[n])
  {
    ShutdownIsLeft(states[n], events[n], states[n + 1]);
    ClosedStep(states[n], events[n], states[n + 1]);
  }

  ghost predicate Unturned(states: seq<State>, events: seq<Event>, i: nat, j: nat)
    requires j < |events| && j < |states|
  {
    forall m :: i <= m <= j ==> !TurnsBack(states[m], events[m])
  }

  /** Under either strategy a shutdown lasts, and starts nothing, as long as no event
      turns it back. */
  lemma {:induction false} ShutdownLasts(states: seq<State>, events: seq<Event>, i: nat, j: nat)
    requires IsRun(states, events) && i <= j < |events| && ShuttingDown(states[i]) && Unturned(states, events, i, j)
    ensures ShuttingDown(states[j + 1]) && !Starts(events[j])
    decreases j
  {
    if i < j {
      assert Unturned(states, events, i, j - 1);
      ShutdownLasts(states, events, i, j - 1);
    }
    ShutdownGoesOnUnturned(states, events, j);
  }

  const ONE_CHILD := Child("a", Permanent, Stopped, ToRun)

  function Turning(status: SupStatus, children: seq<Child>): State {
    State(AllForOne, Intensity(1, 10), [], status, children, {})
  }

  lemma ChildComesUp()
    ensures var d := Turning(SupStarting, [ONE_CHILD]);
      && Step(Turning(SupStarting, []), Add("a", Permanent), d)
      && Step(d, Next(Some(Start("a"))), d.(children := [ONE_CHILD.(status := Starting)]))
  {
    var d := Turning(SupStarting, [ONE_CHILD]);
    assert Retained(d.children) == d.children;
    assert Chosen(SupStarting, d.children, 0);
  }

  lemma ChildCrashes()
    ensures var d := Turning(SupStopping(true), [ONE_CHILD.(status := Running(1))]);
      Step(d, Exited(1, false, 5), State(AllForOne, Intensity(1, 10), [5], SupRestarting, [ONE_CHILD], {}))
  {
    assert Report([], 10, 5) == [5];
  }

  /** It can be turned back: a group told to quit restarts when its child crashes. */
  lemma ShutdownCanTurnBack() returns (states: seq<State>, events: seq<Event>)
    ensures IsRun(states, events) && |events| == 5
    ensures ShuttingDown(states[4]) && states[5].status.SupRestarting?
  {
    ChildComesUp();
    ChildCrashes();
    var running := [ONE_CHILD.(status := Running(1))];
    events := [Add("a", Permanent), Next(Some(Start("a"))), Started("a", 1), Quit(true), Exited(1, false, 5)];
    states := [Turning(SupStarting, []), Turning(SupStarting, [ONE_CHILD]),
      Turning(SupStarting, [ONE_CHILD.(status := Starting)]), Turning(SupStarting, running),
      Turning(SupStopping(true), running), State(AllForOne, Intensity(1, 10), [5], SupRestarting, [ONE_CHILD], {})];
    assert Step(states[2], events[2], states[3]);
    assert Step(states[3], events[3], states[4]);
  }

  /** An exit that nobody's child made. */
  predicate Exonerates(d: State, e: Event) {
    e.Exited? && IndexOfAddress(d.children, e.address) == |d.children|
  }

  predicate Blamed(d: State) {
    d.status == SupStopping(false) || d.status.SupStopped?
  }

  /** A step forgets that the end is abnormal exactly if the group turns back or an
      unknown address exits. */
  lemma BlameIsLost(d: State, e: Event, d': State)
    requires Step(d, e, d') && Blamed(d)
    ensures Blamed(d') <==> !TurnsBack(d, e) && !Exonerates(d, e)
    ensures e.Next? && e.action.Some? && e.action.value.QuitWith? ==> !e.action.value.normal
  {
    ShutdownIsLeft(d, e, d');
  }

  /** Until one of these, the supervisor quits only abnormally. */
  lemma {:induction false} BlameStays(states: seq<State>, events: seq<Event>, i: nat, j: nat)
    requires IsRun(states, events) && i <= j < |states| && Blamed(states[i])
    requires forall m :: i <= m < j ==> !TurnsBack(states[m], events[m]) && !Exonerates(states[m], events[m])
    ensures Blamed(states[j]) && forall m :: i <= m < j ==> !Emits(events[m], QuitWith(true))
    decreases j
  {
    if i < j {
      BlameStays(states, events, i, j - 1);
      BlameIsLost(states[j - 1], events[j - 1], states[j]);
    }
  }

  /** It can be lost: told to quit abnormally, the supervisor quits normally after an
      exit of an address it does not know. */
  lemma BlameCanBeLost() returns (states: seq<State>, events: seq<Event>)
    ensures IsRun(states, events) && |events| == 3
    ensures states[1].status == SupStopping(false) && Emits(events[2], QuitWith(true))
  {
    var start := Initial(OneForOne, Intensity(1, 10));
    events := [Quit(false), Exited(9, false, 0), Next(Some(QuitWith(true)))];
    states := [start, start.(status := SupStopping(false)), start.(status := SupStopping(true)), start.(status := SupStopped)];
    assert Retained(start.children) == [];
    assert Step(states[2], events[2], states[3]);
  }

  /** Child `i` is terminating and no later child is still running. */
  ghost predicate LastToStop(children: seq<Child>, i: nat, key: Key, address: Address) {
    && i < |children| && children[i].key == key && children[i].status == Terminating(address)
    && forall j :: i < j < |children| ==> !children[j].status.Running?
  }

  /** While stopping, a child is told to stop only after all later ones, and the
      supervisor quits only when every child has stopped and no orphan waits. */
  lemma StopsInReverse(d: State, action: Option<Action>, d': State)
    requires NextAction(d, action, d') && action.Some?
    ensures action.value.Stop? && action.value.child.Some? && Backward(d.status) ==>
      exists i: nat :: LastToStop(d'.children, i, action.value.child.value, action.value.address)
    ensures action.value.QuitWith? ==>
      d.status == SupStopping(action.value.normal) && d.orphans == {} && AllStopped(d'.children) && d'.status.SupStopped?
  {
    var kept := Retained(d.children);
    if d.orphans == {} && !Idle(d.status, kept) {
      var i: nat :| Chosen(d.status, kept, i)
        && action == Some(ActionOn(kept[i]))
        && d' == d.(children := kept[i := Advanced(kept[i])]);
      if Backward(d.status) {
        assert forall j :: i < j < |kept| ==> !Acts(d.status, kept[j]) && d'.children[j] == kept[j];
        assert kept[i].status.Running?;
        assert LastToStop(d'.children, i, kept[i].key, kept[i].status.address);
      }
    }
  }

  // ---------------------------------------------------------------------------
  // Children that have done their work
  // ---------------------------------------------------------------------------

  /** The child with this key, if any, is not to be run. */
  ghost predicate Disarmed(d: State, key: Key) {
    forall c :: c in d.children && c.key == key ==> !c.target.ToRun?
  }

  lemma NextKeepsDisarmed(d: State, action: Option<Action>, d': State, key: Key)
    requires NextAction(d, action, d') && Disarmed(d, key)
    ensures Disarmed(d', key) && action != Some(Start(key))
  {
    var kept := Retained(d.children);
    forall c | c in kept ensures c in d.children { RetainedMembers(d.children, c); }
    if d.orphans == {} && !Idle(d.status, kept) {
      var i: nat :| Chosen(d.status, kept, i)
        && action == Some(ActionOn(kept[i]))
        && d' == d.(children := kept[i := Advanced(kept[i])]);
      assert kept[i] in kept;
      assert forall c :: c in d'.children ==> c == Advanced(kept[i]) || c in kept;
    }
  }

  /** The event is an addition of the key that is not refused as a duplicate. */
  ghost predicate AddsAnew(d: State, e: Event, key: Key) {
    e.Add? && e.key == key && !HasKey(d.children, key)
  }

  lemma AddRefused(d: State, key: Key)
    ensures HasKey(d.children, key) <==> IndexOfKey(d.children, key) < |d.children|
  {
    var i := IndexOfKey(d.children, key);
    if i < |d.children| { assert d.children[i] in d.children; }
  }

  lemma EventKeepsDisarmed(d: State, e: Event, d': State, key: Key)
    requires Step(d, e, d') && Disarmed(d, key) && !e.Next? && !AddsAnew(d, e, key)
    ensures Disarmed(d', key)
  {
    if e.Add? {
      AddRefused(d, e.key);
      assert forall c :: c in d'.children ==> c in d.children || c.key == e.key;
    } else if !e.Quit? {
      var i := if e.Exited? then IndexOfAddress(d.children, e.address) else IndexOfKey(d.children, e.key);
      if i < |d.children| {
        assert d.children[i] in d.children;
        forall c | c in d'.children && c.key == key ensures !c.target.ToRun? {
          assert c in d.children || c == d'.children[i];
        }
      }
    }
  }

  lemma StepKeepsDisarmed(d: State, e: Event, d': State, key: Key)
    requires Step(d, e, d') && Disarmed(d, key) && !AddsAnew(d, e, key)
    ensures Disarmed(d', key) && !Emits(e, Start(key))
  {
    if e.Next? {
      NextKeepsDisarmed(d, e.action, d', key);
    } else {
      EventKeepsDisarmed(d, e, d', key);
    }
  }

  /** The event is the exit of the running child with this key, which is temporary, or
      transient and exits normally. */
  ghost predicate RetiresChild(d: State, e: Event, key: Key) {
    && e.Exited?
    && exists c :: c in d.children && c.key == key && c.status == Running(e.address)
                   && (c.childType.Temporary? || (c.childType.Transient? && e.normal))
  }

  lemma RetiredIsDisarmed(d: State, e: Event, d': State, key: Key)
    requires Tidy(d) && Step(d, e, d') && RetiresChild(d, e, key)
    ensures Disarmed(d', key)
  {
    var c :| c in d.children && c.key == key && c.status == Running(e.address)
             && (c.childType.Temporary? || (c.childType.Transient? && e.normal));
    var k :| 0 <= k < |d.children| && d.children[k] == c;
    var i := IndexOfAddress(d.children, e.address);
    assert Lives(d.children[k].status, e.address);
    assert i == k;
    forall x | x in d'.children && x.key == key ensures !x.target.ToRun? {
      var j :| 0 <= j < |d'.children| && d'.children[j] == x;
      assert j == i;
    }
  }

  lemma DisarmedGoesOn(states: seq<State>, events: seq<Event>, n: nat, key: Key)
    requires IsRun(states, events) && n < |events| && Disarmed(states[n], key) && !AddsAnew(states[n], events[n], key)
    ensures Disarmed(states[n + 1], key) && !Emits(events[n], Start(key))
  {
    StepKeepsDisarmed(states[n], events[n], states[n + 1], key);
  }

  lemma RetiredAtOnce(states: seq<State>, events: seq<Event>, n: nat, key: Key)
    requires IsRun(states, events) && n < |events| && RetiresChild(states[n], events[n], key)
    ensures Disarmed(states[n + 1], key)
  {
    RunIsTidy(states, events, n);
    RetiredIsDisarmed(states[n], events[n], states[n + 1], key);
  }

  ghost predicate NotAddedAnew(states: seq<State>, events: seq<Event>, i: nat, j: nat, key: Key)
    requires j <= |events| && j <= |states|
  {
    forall m :: i < m < j ==> !AddsAnew(states[m], events[m], key)
  }

  ghost predicate DisarmsOn(states: seq<State>, events: seq<Event>, i: nat, j: nat, key: Key)
    requires j <= |events| && j < |states|
  {
    forall n :: i < n < j && Disarmed(states[n], key) ==> Disarmed(states[n + 1], key) && !Emits(events[n], Start(key))
  }

  lemma {:induction false} DisarmedThroughout(states: seq<State>, events: seq<Event>, i: nat, j: nat, key: Key)
    requires i < j <= |events| && j < |states| && DisarmsOn(states, events, i, j, key) && Disarmed(states[i + 1], key)
    ensures Disarmed(states[j], key) && forall m :: i < m < j ==> !Emits(events[m], Start(key))
    decreases j
  {
    if i + 1 < j {
      assert DisarmsOn(states, events, i, j - 1, key);
      DisarmedThroughout(states, events, i, j - 1, key);
      assert Disarmed(states[j], key) && !Emits(events[j - 1], Start(key));
    }
  }

  /** A temporary child that has exited, or a transient one that has exited normally,
      is never started again, not even by a restart of the group, unless its key is
      removed and added anew. */
  lemma NotStartedAgain(states: seq<State>, events: seq<Event>, i: nat, j: nat, key: Key)
    requires IsRun(states, events) && i < j <= |events| && RetiresChild(states[i], events[i], key)
    requires NotAddedAnew(states, events, i, j, key)
    ensures Disarmed(states[j], key) && forall m :: i < m < j ==> !Emits(events[m], Start(key))
  {
    RetiredAtOnce(states, events, i, key);
    forall n | i < n < j && Disarmed(states[n], key) ensures Disarmed(states[n + 1], key) && !Emits(events[n], Start(key)) {
      DisarmedGoesOn(states, events, n, key);
    }
    DisarmedThroughout(states, events, i, j, key);
  }

  lemma NextKeepsKey(d: State, action: Option<Action>, d': State, key: Key)
    requires Tidy(d) && d.strategy.AllForOne? && NextAction(d, action, d') && HasKey(d.children, key)
    ensures HasKey(d'.children, key)
  {
    var c :| c in d.children && c.key == key;
    var kept := Retained(d.children);
    RetainedMembers(d.children, c);
    if d.orphans == {} && !Idle(d.status, kept) {
      var i: nat :| Chosen(d.status, kept, i)
        && action == Some(ActionOn(kept[i]))
        && d' == d.(children := kept[i := Advanced(kept[i])]);
      var k :| 0 <= k < |kept| && kept[k] == c;
      assert d'.children[k] in d'.children && d'.children[k].key == key;
    } else {
      assert c in d'.children;
    }
  }

  /** A key of an all-for-one group stays: nothing can be removed. */
  lemma StepKeepsKey(d: State, e: Event, d': State, key: Key)
    requires Tidy(d) && d.strategy.AllForOne? && Step(d, e, d') && HasKey(d.children, key)
    ensures HasKey(d'.children, key)
  {
    var c :| c in d.children && c.key == key;
    if e.Next? {
      NextKeepsKey(d, e.action, d', key);
    } else {
      var k :| 0 <= k < |d.children| && d.children[k] == c;
      assert d'.children[k] in d'.children && d'.children[k].key == key;
    }
  }

  lemma KeyGoesOn(states: seq<State>, events: seq<Event>, n: nat, key: Key)
    requires IsRun(states, events) && states[0].strategy.AllForOne? && n < |events| && HasKey(states[n].children, key)
    ensures HasKey(states[n + 1].children, key)
  {
    RunIsTidy(states, events, n);
    StepKeepsKey(states[n], events[n], states[n + 1], key);
  }

  ghost predicate KeepsKey(states: seq<State>, key: Key) {
    forall n :: 0 <= n < |states| - 1 && HasKey(states[n].children, key) ==> HasKey(states[n + 1].children, key)
  }

  lemma {:induction false} KeyKept(states: seq<State>, i: nat, j: nat, key: Key)
    requires KeepsKey(states, key) && i <= j < |states| && HasKey(states[i].children, key)
    ensures HasKey(states[j].children, key)
    decreases j
  {
    if i < j { KeyKept(states, i, j - 1, key); }
  }

  lemma KeyStays(states: seq<State>, events: seq<Event>, i: nat, j: nat, key: Key)
    requires IsRun(states, events) && states[0].strategy.AllForOne? && i <= j < |states| && HasKey(states[i].children, key)
    ensures HasKey(states[j].children, key)
  {
    forall n | 0 <= n < |states| - 1 && HasKey(states[n].children, key) ensures HasKey(states[n + 1].children, key) {
      KeyGoesOn(states, events, n, key);
    }
    KeyKept(states, i, j, key);
  }

  /** In an all-for-one group such a child is never started again at all. */
  lemma NotStartedAgainInGroup(states: seq<State>, events: seq<Event>, i: nat, j: nat, key: Key)
    requires IsRun(states, events) && states[0].strategy.AllForOne?
    requires i < j <= |events| && RetiresChild(states[i], events[i], key)
    ensures Disarmed(states[j], key) && forall m :: i < m < j ==> !Emits(events[m], Start(key))
  {
    assert HasKey(states[i].children, key);
    forall m | i < m < j ensures !AddsAnew(states[m], events[m], key) { KeyStays(states, events, i, m, key); }
    NotStartedAgain(states, events, i, j, key);
  }

  // ---------------------------------------------------------------------------
  // Generations of an all-for-one group
  // ---------------------------------------------------------------------------

  lemma {:induction false} GroupStopsFirst(states: seq<State>, events: seq<Event>, i: nat, j: nat)
    requires IsRun(states, events) && states[0].strategy.AllForOne?
    requires i < j < |events| && Alarms(states[i], events[i]) && !Closed(states[j].status)
    ensures exists m :: i < m < j && Emits(events[m], Noop) && AllStopped(states[m + 1].children)
    decreases j
  {
    RunIsTidy(states, events, i);
    assert Closed(states[i + 1].status);
    assert j != i + 1;
    if Closed(states[j - 1].status) {
      ClosedStep(states[j - 1], events[j - 1], states[j]);
      assert Emits(events[j - 1], Noop) && AllStopped(states[j].children);
    } else {
      GroupStopsFirst(states, events, i, j - 1);
    }
  }

  lemma StartNeedsOpen(d: State, e: Event, d': State)
    requires Step(d, e, d') && Starts(e)
    ensures !Closed(d.status)
  {
    if Closed(d.status) { ClosedStep(d, e, d'); }
  }

  /** After an unacceptable exit no child of the group is started before a moment at
      which all children are stopped and the group restarts. */
  lemma NoStartBeforeGroupStops(states: seq<State>, events: seq<Event>, i: nat, j: nat)
    requires IsRun(states, events) && states[0].strategy.AllForOne?
    requires i < j < |events| && Alarms(states[i], events[i]) && Starts(events[j])
    ensures exists m :: i < m < j && Emits(events[m], Noop) && AllStopped(states[m + 1].children)
  {
    StartNeedsOpen(states[j], events[j], states[j + 1]);
    GroupStopsFirst(states, events, i, j);
  }

  /** The child with this key is starting, running or terminating. */
  ghost predicate Up(d: State, key: Key) {
    exists c :: c in d.children && c.key == key && !c.status.Stopped?
  }

  lemma NextComesUp(d: State, action: Option<Action>, d': State, key: Key)
    requires NextAction(d, action, d') && Up(d', key)
    ensures Up(d, key) || action == Some(Start(key))
  {
    var kept := Retained(d.children);
    forall c | c in kept ensures c in d.children { RetainedMembers(d.children, c); }
    var c :| c in d'.children && c.key == key && !c.status.Stopped?;
    if d.orphans == {} && !Idle(d.status, kept) {
      var i: nat :| Chosen(d.status, kept, i)
        && action == Some(ActionOn(kept[i]))
        && d' == d.(children := kept[i := Advanced(kept[i])]);
      assert kept[i] in kept;
      assert c in kept || c == Advanced(kept[i]);
    } else {
      assert c in kept;
    }
  }

  lemma ComesUpByStart(d: State, e: Event, d': State, key: Key)
    requires Step(d, e, d') && Up(d', key)
    ensures Up(d, key) || Emits(e, Start(key))
  {
    var c :| c in d'.children && c.key == key && !c.status.Stopped?;
    if e.Next? {
      NextComesUp(d, e.action, d', key);
    } else if e.Add? {
      assert c in d.children || c.status.Stopped?;
    } else if !e.Quit? {
      var i := if e.Exited? then IndexOfAddress(d.children, e.address) else IndexOfKey(d.children, e.key);
      if i < |d.children| {
        assert d.children[i] in d.children;
        assert c in d.children || c == d'.children[i];
      }
    }
  }

  lemma StoppedIsNotUp(d: State, key: Key)
    requires AllStopped(d.children)
    ensures !Up(d, key)
  {
  }

  ghost predicate UpSince(states: seq<State>, n: nat, j: nat, key: Key)
    requires j < |states|
  {
    forall l :: n <= l <= j ==> Up(states[l], key)
  }

  /** The child up at `j` is the one started by event `n`. */
  ghost predicate StartedBy(states: seq<State>, events: seq<Event>, n: nat, j: nat, key: Key)
    requires n < |events| && j < |states|
  {
    Emits(events[n], Start(key)) && UpSince(states, n + 1, j, key)
  }

  lemma UpGoesBack(states: seq<State>, events: seq<Event>, n: nat, key: Key)
    requires IsRun(states, events) && n < |events| && Up(states[n + 1], key)
    ensures Up(states[n], key) || Emits(events[n], Start(key))
  {
    ComesUpByStart(states[n], events[n], states[n + 1], key);
  }

  /** The child up at `j` was started by an event not before `m`. */
  ghost predicate StartedSince(states: seq<State>, events: seq<Event>, m: nat, j: nat, key: Key)
    requires j <= |events| && j < |states|
  {
    exists n :: m <= n < j && StartedBy(states, events, n, j, key)
  }

  lemma StaysStarted(states: seq<State>, events: seq<Event>, m: nat, j: nat, key: Key)
    requires j < |events| && j + 1 < |states| && StartedSince(states, events, m, j, key) && Up(states[j + 1], key)
    ensures StartedSince(states, events, m, j + 1, key)
  {
    var n :| m <= n < j && StartedBy(states, events, n, j, key);
    assert StartedBy(states, events, n, j + 1, key);
  }

  lemma JustStarted(states: seq<State>, events: seq<Event>, m: nat, j: nat, key: Key)
    requires m <= j < |events| && j + 1 < |states| && Emits(events[j], Start(key)) && Up(states[j + 1], key)
    ensures StartedSince(states, events, m, j + 1, key)
  {
    assert StartedBy(states, events, j, j + 1, key);
  }

  /** The child comes up only by a start. */
  ghost predicate UpByStarts(states: seq<State>, events: seq<Event>, key: Key) {
    && |states| == |events| + 1
    && forall n :: 0 <= n < |events| && Up(states[n + 1], key) ==> Up(states[n], key) || Emits(events[n], Start(key))
  }

  lemma {:induction false} StartedOnTheWay(states: seq<State>, events: seq<Event>, m: nat, j: nat, key: Key)
    requires UpByStarts(states, events, key) && m <= j < |states| && !Up(states[m], key) && Up(states[j], key)
    ensures StartedSince(states, events, m, j, key)
    decreases j
  {
    if Up(states[j - 1], key) {
      StartedOnTheWay(states, events, m, j - 1, key);
      StaysStarted(states, events, m, j - 1, key);
    } else {
      assert Emits(events[j - 1], Start(key));
      JustStarted(states, events, m, j - 1, key);
    }
  }

  /** A child that is up was started after any moment at which nothing was up. This holds
      for both strategies. */
  lemma StartedAfterStop(states: seq<State>, events: seq<Event>, m: nat, j: nat, key: Key)
    requires IsRun(states, events) && m <= j < |states| && AllStopped(states[m].children) && Up(states[j], key)
    ensures StartedSince(states, events, m, j, key)
  {
    forall n | 0 <= n < |events| && Up(states[n + 1], key) ensures Up(states[n], key) || Emits(events[n], Start(key)) {
      UpGoesBack(states, events, n, key);
    }
    StoppedIsNotUp(states[m], key);
    StartedOnTheWay(states, events, m, j, key);
  }

  /** All children of an all-for-one group that are up belong to one generation: once any
      child was started after an unacceptable exit, every child that is up was. */
  lemma OneGeneration(states: seq<State>, events: seq<Event>, i: nat, n: nat, j: nat, key: Key)
    requires IsRun(states, events) && states[0].strategy.AllForOne? && i < n < j < |states|
    requires Alarms(states[i], events[i]) && Starts(events[n]) && Up(states[j], key)
    ensures exists m :: i < m < j && StartedBy(states, events, m, j, key)
  {
    NoStartBeforeGroupStops(states, events, i, n);
    var m :| i < m < n && Emits(events[m], Noop) && AllStopped(states[m + 1].children);
    StartedAfterStop(states, events, m + 1, j, key);
  }

  lemma NoRestWhileUp(states: seq<State>, n: nat, m: nat, j: nat, key: Key)
    requires n <= m <= j < |states| && UpSince(states, n, j, key)
    ensures !AllStopped(states[m].children)
  {
    assert Up(states[m], key);
    if AllStopped(states[m].children) { StoppedIsNotUp(states[m], key); }
  }

  /** So the starts of two children that are up together have no unacceptable exit
      between them. */
  lemma NoExitBetweenStarts(states: seq<State>, events: seq<Event>, a: nat, i: nat, b: nat, j: nat, k: Key, l: Key)
    requires IsRun(states, events) && states[0].strategy.AllForOne? && a < i < b < j < |states|
    requires StartedBy(states, events, a, j, k) && StartedBy(states, events, b, j, l)
    ensures !Alarms(states[i], events[i])
  {
    forall m | i < m < b ensures !(Emits(events[m], Noop) && AllStopped(states[m + 1].children)) {
      NoRestWhileUp(states, a + 1, m + 1, j, k);
    }
    if Alarms(states[i], events[i]) { NoStartBeforeGroupStops(states, events, i, b); }
  }

  // ---------------------------------------------------------------------------
  // Quiescence
  // ---------------------------------------------------------------------------

  function ActingCount(status: SupStatus, children: seq<Child>): (n: nat)
    ensures n <= |children|
  {
    if children == [] then 0
    else (if Acts(status, children[0]) then 1 else 0) + ActingCount(status, children[1..])
  }

  /** The number of actions the decider can still take on its own. */
  ghost function Potential(d: State): nat {
    |d.orphans| +
    match d.status
    case SupStarting => 1 + ActingCount(SupStarting, d.children)
    case SupRunning => ActingCount(SupRunning, d.children)
    case SupRestarting =>
      if AllStopped(d.children) then 1 + ActingCount(SupRunning, d.children)
      else ActingCount(SupRestarting, d.children)
    case SupStopping(_) => 1 + ActingCount(d.status, d.children)
    case SupStopped => 0
  }

  lemma {:induction false} RetainedCount(status: SupStatus, children: seq<Child>)
    ensures ActingCount(status, Retained(children)) == ActingCount(status, children)
    decreases |children|
  {
    if children != [] {
      RetainedCount(status, children[1..]);
      var kept := Retained(children[1..]);
      if !Finished(children[0]) {
        assert ([children[0]] + kept)[1..] == kept;
      } else {
        assert [] + kept == kept;
      }
    }
  }

  lemma RetainedStopped(children: seq<Child>)
    ensures AllStopped(Retained(children)) <==> AllStopped(children)
  {
    if AllStopped(Retained(children)) {
      forall i | 0 <= i < |children| ensures children[i].status.Stopped? {
        RetainedMembers(children, children[i]);
      }
    } else {
      var i :| 0 <= i < |Retained(children)| && !Retained(children)[i].status.Stopped?;
      RetainedMembers(children, Retained(children)[i]);
    }
  }

  lemma {:induction false} UpdateCount(status: SupStatus, children: seq<Child>, i: nat, c: Child)
    requires i < |children| && Acts(status, children[i]) && !Acts(status, c)
    ensures ActingCount(status, children[i := c]) == ActingCount(status, children) - 1
    decreases i
  {
    if i == 0 {
      assert children[i := c][1..] == children[1..];
    } else {
      UpdateCount(status, children[1..], i - 1, c);
      assert children[i := c][1..] == children[1..][i - 1 := c];
    }
  }

  lemma {:induction false} SameGoalSameCount(s: SupStatus, t: SupStatus, children: seq<Child>)
    requires (s.SupStarting? || s.SupRunning?) && (t.SupStarting? || t.SupRunning?)
    ensures ActingCount(s, children) == ActingCount(t, children)
    decreases |children|
  {
    if children != [] { SameGoalSameCount(s, t, children[1..]); }
  }

  lemma RetainedPotential(d: State)
    ensures Potential(d.(children := Retained(d.children))) == Potential(d)
  {
    RetainedCount(d.status, d.children);
    RetainedCount(SupStarting, d.children);
    RetainedCount(SupRunning, d.children);
    RetainedCount(SupRestarting, d.children);
    RetainedStopped(d.children);
  }

  lemma AdvanceLowersPotential(d: State, i: nat)
    requires i < |d.children| && Acts(d.status, d.children[i])
    ensures Potential(d.(children := d.children[i := Advanced(d.children[i])])) < Potential(d)
  {
    var d' := d.(children := d.children[i := Advanced(d.children[i])]);
    UpdateCount(d.status, d.children, i, Advanced(d.children[i]));
    assert !d'.children[i].status.Stopped?;
  }

  lemma ConcludingLowersPotential(d: State, action: Option<Action>, d': State)
    requires Idle(d.status, d.children) && Concluded(d, action, d') && action.Some?
    ensures Potential(d') < Potential(d)
  {
    SameGoalSameCount(SupStarting, SupRunning, d.children);
  }

  lemma ActionLowersPotential(d: State, action: Option<Action>, d': State)
    requires NextAction(d, action, d') && action.Some?
    ensures Potential(d') < Potential(d)
  {
    RetainedPotential(d);
    var kept := d.(children := Retained(d.children));
    if d.orphans != {} {
      assert |d.orphans - {action.value.address}| == |d.orphans| - 1;
    } else if Idle(d.status, kept.children) {
      ConcludingLowersPotential(kept, action, d');
    } else {
      var i: nat :| Chosen(d.status, kept.children, i)
        && action == Some(ActionOn(kept.children[i]))
        && d' == kept.(children := kept.children[i := Advanced(kept.children[i])]);
      AdvanceLowersPotential(kept, i);
    }
  }

  /** With no new event the decider emits at most as many actions as it has orphans
      and children, plus one. */
  lemma {:induction false} DeciderQuiesces(states: seq<State>, actions: seq<Option<Action>>)
    requires |states| == |actions| + 1
    requires forall i :: 0 <= i < |actions| ==> NextAction(states[i], actions[i], states[i + 1]) && actions[i].Some?
    ensures |actions| <= Potential(states[0]) <= |states[0].orphans| + |states[0].children| + 1
    decreases |actions|
  {
    if |actions| > 0 {
      ActionLowersPotential(states[0], actions[0], states[1]);
      assert forall i :: 0 <= i < |actions| - 1 ==> states[1..][i] == states[i + 1] && actions[1..][i] == actions[i + 1];
      DeciderQuiesces(states[1..], actions[1..]);
    }
  }

  lemma {:induction false} RetainedTwice(children: seq<Child>)
    ensures Retained(Retained(children)) == Retained(children)
    decreases |children|
  {
    if children != [] {
      RetainedTwice(children[1..]);
      var kept := Retained(children[1..]);
      if !Finished(children[0]) {
        assert ([children[0]] + kept)[1..] == kept;
      } else {
        assert [] + kept == kept;
      }
    }
  }

  /** Once it has nothing to do, it has nothing to do until the next event. */
  lemma QuietStaysQuiet(d: State, d': State, action: Option<Action>, d'': State)
    requires NextAction(d, None, d') && NextAction(d', action, d'')
    ensures action == None && d'' == d'
  {
    RetainedTwice(d.children);
  }

  lemma StartingIsOnce(d: State, e: Event, d': State)
    requires Step(d, e, d')
    ensures d'.status.SupStarting? ==> d.status.SupStarting?
    ensures Emits(e, InitDone) ==> d.status.SupStarting? && !d'.status.SupStarting?
  {
  }

  lemma StartingStepBack(states: seq<State>, events: seq<Event>, j: nat)
    requires IsRun(states, events) && 0 < j < |states| && states[j].status.SupStarting?
    ensures states[j - 1].status.SupStarting?
  {
    assert Step(states[j - 1], events[j - 1], states[j]);
    StartingIsOnce(states[j - 1], events[j - 1], states[j]);
  }

  lemma {:induction false} StartingWasStarting(states: seq<State>, events: seq<Event>, i: nat, j: nat)
    requires IsRun(states, events) && i <= j < |states| && states[j].status.SupStarting?
    ensures states[i].status.SupStarting?
    decreases j
  {
    if i < j {
      StartingStepBack(states, events, j);
      StartingWasStarting(states, events, i, j - 1);
    }
  }

  /** The end of initialisation is announced at most once per run. */
  lemma InitDoneOnce(states: seq<State>, events: seq<Event>, i: nat, j: nat)
    requires IsRun(states, events) && i < |events| && j < |events|
    requires Emits(events[i], InitDone) && Emits(events[j], InitDone)
    ensures i == j
  {
    StartingIsOnce(states[i], events[i], states[i + 1]);
    StartingIsOnce(states[j], events[j], states[j + 1]);
    if i < j {
      StartingWasStarting(states, events, i + 1, j);
    } else if j < i {
      StartingWasStarting(states, events, j + 1, i);
    }
  }
}
