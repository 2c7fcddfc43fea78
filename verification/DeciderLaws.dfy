/** What the supervisor gets done: the decider's decisions in terms of its children, and
    what happens to them once it has been asked until it has nothing left to do. */
module DeciderLaws {
  import opened Options
  import opened RestartIntensity
  import opened Decider
  import opened DeciderProperties

  // ---------------------------------------------------------------------------
  // One action
  // ---------------------------------------------------------------------------

  predicate Open(status: SupStatus) {
    status.SupStarting? || status.SupRunning?
  }

  /** A child that still has to be started or stopped while the supervisor is open. */
  predicate Unsettled(c: Child) {
    (c.status.Stopped? && c.target.ToRun?) || (c.status.Running? && !c.target.ToRun?)
  }

  /** With nothing left to do no orphan waits, no removed child is kept, every child is
      where it should be, and the supervisor waits for somebody if it is not running. */
  lemma QuietMeansDone(d: State, d': State)
    requires NextAction(d, None, d')
    ensures d'.orphans == {} && d'.status == d.status
    ensures forall c :: c in d'.children ==> !(c.status.Stopped? && c.target.ToRemove?)
    ensures Open(d.status) ==> forall c :: c in d'.children ==> !Unsettled(c)
    ensures d.status.SupStarting? ==> exists c :: c in d'.children && !c.status.Running?
    ensures d.status.SupStopping? || d.status.SupRestarting? ==>
              && (forall c :: c in d'.children ==> !c.status.Running?)
              && (exists c :: c in d'.children && !c.status.Stopped?)
  {
    var kept := Retained(d.children);
    assert d' == d.(children := kept);
    forall c | c in kept ensures !(c.status.Stopped? && c.target.ToRemove?) { RetainedMembers(d.children, c); }
    forall c | c in kept ensures !Acts(d.status, c) {
      var i :| 0 <= i < |kept| && kept[i] == c;
    }
    if d.status.SupStarting? {
      var i :| 0 <= i < |kept| && !kept[i].status.Running?;
      assert kept[i] in kept;
    }
    if d.status.SupStopping? || d.status.SupRestarting? {
      var i :| 0 <= i < |kept| && !kept[i].status.Stopped?;
      assert kept[i] in kept;
    }
  }

  /** The child at `i` is the first one of an open supervisor with something to do. */
  ghost predicate FirstUnsettled(children: seq<Child>, i: nat) {
    && i < |children| && Unsettled(children[i])
    && forall j :: 0 <= j < i ==> !Unsettled(children[j])
  }

  /** The children in order without the stopped ones to be removed. */
  ghost predicate Without(children: seq<Child>, kept: seq<Child>) {
    && (forall c :: c in kept <==> c in children && !(c.status.Stopped? && c.target.ToRemove?))
    && |kept| <= |children|
  }

  lemma {:induction false} RetainedShorter(children: seq<Child>)
    ensures |Retained(children)| <= |children|
    decreases |children|
  {
    if children != [] { RetainedShorter(children[1..]); }
  }

  lemma RetainedIsWithout(children: seq<Child>)
    ensures Without(children, Retained(children))
  {
    RetainedShorter(children);
    forall c ensures c in Retained(children) <==> c in children && !(c.status.Stopped? && c.target.ToRemove?) {
      RetainedMembers(children, c);
    }
  }

  /** The child at `i` is started if it is stopped, and told to stop if it runs. */
  ghost predicate Brought(d: State, kept: seq<Child>, i: nat, action: Option<Action>, d': State) {
    && i < |kept|
    && match kept[i].status
       case Stopped =>
         action == Some(Start(kept[i].key)) && d' == d.(children := kept[i := kept[i].(status := Starting)])
       case Running(address) =>
         && action == Some(Stop(address, Some(kept[i].key)))
         && d' == d.(children := kept[i := kept[i].(status := Terminating(address))])
       case _ => false
  }

  /** An open supervisor starts or stops the first child that needs it, and only that. */
  lemma OpenActsOnFirst(d: State, action: Option<Action>, d': State)
    requires NextAction(d, action, d') && Open(d.status) && d.orphans == {}
    requires exists c :: c in d.children && Unsettled(c) && !(c.status.Stopped? && c.target.ToRemove?)
    ensures exists kept: seq<Child>, i: nat ::
              && Without(d.children, kept) && FirstUnsettled(kept, i)
              && Brought(d, kept, i, action, d')
  {
    var kept := Retained(d.children);
    RetainedIsWithout(d.children);
    var c :| c in d.children && Unsettled(c) && !(c.status.Stopped? && c.target.ToRemove?);
    assert c in kept;
    var k :| 0 <= k < |kept| && kept[k] == c;
    assert Acts(d.status, kept[k]);
    var i: nat :| Chosen(d.status, kept, i)
      && action == Some(ActionOn(kept[i]))
      && d' == d.(children := kept[i := Advanced(kept[i])]);
    assert FirstUnsettled(kept, i);
    assert Brought(d, kept, i, action, d');
  }

  ghost predicate LastRunning(children: seq<Child>, i: nat) {
    && i < |children| && children[i].status.Running?
    && forall j :: i < j < |children| ==> !children[j].status.Running?
  }

  /** A supervisor that is shutting down or restarting stops the last child that runs. */
  lemma ClosedStopsLast(d: State, action: Option<Action>, d': State)
    requires NextAction(d, action, d') && (d.status.SupStopping? || d.status.SupRestarting?) && d.orphans == {}
    requires exists c :: c in d.children && c.status.Running?
    ensures exists kept: seq<Child>, i: nat ::
              && Without(d.children, kept) && LastRunning(kept, i)
              && Brought(d, kept, i, action, d')
  {
    var kept := Retained(d.children);
    RetainedIsWithout(d.children);
    var c :| c in d.children && c.status.Running?;
    assert c in kept;
    var k :| 0 <= k < |kept| && kept[k] == c;
    assert Acts(d.status, kept[k]);
    var i: nat :| Chosen(d.status, kept, i)
      && action == Some(ActionOn(kept[i]))
      && d' == d.(children := kept[i := Advanced(kept[i])]);
    assert forall j :: i < j < |kept| ==> !Acts(d.status, kept[j]);
    assert LastRunning(kept, i) && Brought(d, kept, i, action, d');
  }

  lemma {:induction false} NothingToRetain(children: seq<Child>)
    requires forall c :: c in children ==> c.status.Running?
    ensures Retained(children) == children
    decreases |children|
  {
    if children != [] {
      assert children[0] in children;
      NothingToRetain(children[1..]);
    }
  }

  /** With all children in place the supervisor says so: initialised, restarting, done. */
  lemma ConclusionIsDrawn(d: State, action: Option<Action>, d': State)
    requires NextAction(d, action, d') && d.orphans == {}
    ensures d.status.SupStarting? && (forall c :: c in d.children ==> c.status.Running? && c.target.ToRun?) ==>
              action == Some(InitDone) && d' == d.(status := SupRunning)
    ensures d.status.SupRestarting? && (forall c :: c in d.children ==> c.status.Stopped?) ==>
              action == Some(Noop) && d'.status == SupRunning
    ensures d.status.SupStopping? && (forall c :: c in d.children ==> c.status.Stopped?) ==>
              action == Some(QuitWith(d.status.normal)) && d'.status == SupStopped
  {
    var kept := Retained(d.children);
    RetainedIsWithout(d.children);
    assert forall i :: 0 <= i < |kept| ==> kept[i] in kept;
    if d.status.SupStarting? && forall c :: c in d.children ==> c.status.Running? && c.target.ToRun? {
      NothingToRetain(d.children);
      assert Idle(d.status, kept);
    }
  }

  /** A supervisor begins to start, with no children, and nothing remembered. */
  lemma BeginsStarting(states: seq<State>, events: seq<Event>)
    requires IsRun(states, events)
    ensures states[0].status == SupStarting && states[0].children == [] && states[0].orphans == {} && states[0].times == []
  {
  }

  // ---------------------------------------------------------------------------
  // One event
  // ---------------------------------------------------------------------------

  /** A request to quit begins the shutdown, which is normal only if every request was. */
  lemma QuitBeginsShutdown(d: State, normal: bool, d': State)
    requires Step(d, Quit(normal), d')
    ensures d' == d.(status := d'.status)
    ensures if d.status.SupStopped? then d'.status.SupStopped?
            else d'.status == SupStopping(normal && (d.status.SupStopping? ==> d.status.normal))
  {
  }

  /** Under one-for-one nothing is ever started after a request to quit. */
  lemma NoStartAfterQuit(states: seq<State>, events: seq<Event>, i: nat, j: nat)
    requires IsRun(states, events) && states[0].strategy.OneForOne? && i < j < |events| && events[i].Quit?
    ensures !Starts(events[j])
  {
    assert Step(states[i], events[i], states[i + 1]);
    QuitBeginsShutdown(states[i], events[i].normal, states[i + 1]);
    ShutdownIsFinal(states, events, i + 1, j);
  }

  /** Only the child at `i` differs. */
  ghost predicate OnlyAt(d: State, d': State, i: nat) {
    |d'.children| == |d.children| && forall j :: 0 <= j < |d.children| && j != i ==> d'.children[j] == d.children[j]
  }

  lemma LivesHere(d: State, i: nat, address: Address)
    requires Tidy(d) && i < |d.children| && Lives(d.children[i].status, address)
    ensures IndexOfAddress(d.children, address) == i
  {
  }

  lemma KeyIsHere(d: State, i: nat, key: Key)
    requires Tidy(d) && i < |d.children| && d.children[i].key == key
    ensures IndexOfKey(d.children, key) == i
  {
  }

  /** The reports remembered that are not older than the period, and this one. */
  ghost function ReportedAt(d: State, at: nat): seq<nat> {
    Keep(d.times, if d.intensity.within <= at then at - d.intensity.within else at) + [at]
  }

  ghost predicate TooMany(d: State, at: nat) {
    |ReportedAt(d, at)| > d.intensity.maxRestarts
  }

  /** What becomes of a running child that exits, and of its supervisor. */
  lemma RunningChildExits(d: State, i: nat, normal: bool, at: nat, d': State)
    requires Tidy(d) && i < |d.children| && d.children[i].status.Running?
    requires Step(d, Exited(d.children[i].status.address, normal, at), d')
    ensures OnlyAt(d, d', i) && d'.orphans == d.orphans && d'.children[i].status.Stopped?
    ensures d'.children[i].key == d.children[i].key && d'.children[i].childType == d.children[i].childType
    ensures var c := d.children[i];
      if c.childType.Temporary? || (c.childType.Transient? && normal) then
        d'.children[i].target.ToStop? && d'.status == d.status && d'.times == d.times
      else
        && d'.children[i].target == c.target && d'.times == ReportedAt(d, at)
        && d'.status == if TooMany(d, at) then SupStopping(false)
                        else if d.strategy.AllForOne? then SupRestarting
                        else d.status
  {
    LivesHere(d, i, d.children[i].status.address);
  }

  /** A child that was told to stop is stopped; an exit of anybody else is a request to
      stop normally. */
  lemma OtherExits(d: State, address: Address, normal: bool, at: nat, d': State)
    requires Tidy(d) && Step(d, Exited(address, normal, at), d')
    ensures forall i :: 0 <= i < |d.children| && d.children[i].status == Terminating(address) ==>
              d' == d.(children := d.children[i := d.children[i].(status := Stopped)])
    ensures (forall c :: c in d.children ==> c.status != Running(address) && c.status != Terminating(address)) ==>
              d' == d.(status := SupStopping(true))
  {
    forall i | 0 <= i < |d.children| && d.children[i].status == Terminating(address)
      ensures d' == d.(children := d.children[i := d.children[i].(status := Stopped)])
    {
      LivesHere(d, i, address);
    }
    var k := IndexOfAddress(d.children, address);
    if k < |d.children| { assert d.children[k] in d.children; }
  }

  /** A start is taken for the child that waits for it, or its address is an orphan. */
  lemma ChildStarts(d: State, key: Key, address: Address, d': State)
    requires Tidy(d) && Step(d, Started(key, address), d')
    ensures forall i :: 0 <= i < |d.children| && d.children[i].key == key ==>
              d' == if d.children[i].status.Starting?
                    then d.(children := d.children[i := d.children[i].(status := Running(address))])
                    else d.(orphans := d.orphans + {address})
    ensures (forall c :: c in d.children ==> c.key != key) ==> d' == d
  {
    forall i | 0 <= i < |d.children| && d.children[i].key == key ensures IndexOfKey(d.children, key) == i {
      KeyIsHere(d, i, key);
    }
    var k := IndexOfKey(d.children, key);
    if k < |d.children| { assert d.children[k] in d.children; }
  }

  /** A start that failed stops the supervisor abnormally. */
  lemma FailedStartStops(d: State, key: Key, d': State)
    requires Tidy(d) && Step(d, Failed(key), d')
    ensures forall i :: 0 <= i < |d.children| && d.children[i].key == key ==>
              && d'.status == SupStopping(false) && OnlyAt(d, d', i)
              && d'.children[i] == if d.children[i].status.Starting? then d.children[i].(status := Stopped)
                                   else d.children[i].(target := ToStop)
    ensures (forall c :: c in d.children ==> c.key != key) ==> d' == d
  {
    forall i | 0 <= i < |d.children| && d.children[i].key == key ensures IndexOfKey(d.children, key) == i {
      KeyIsHere(d, i, key);
    }
    var k := IndexOfKey(d.children, key);
    if k < |d.children| { assert d.children[k] in d.children; }
  }

  /** A new key is added to be run, a known one is left alone. */
  lemma ChildIsAdded(d: State, key: Key, childType: ChildType, d': State)
    requires Step(d, Add(key, childType), d')
    ensures d' == if exists c :: c in d.children && c.key == key then d
                  else d.(children := d.children + [Child(key, childType, Stopped, ToRun)])
  {
    AddRefused(d, key);
  }

  /** One-for-one marks a child for removal; all-for-one does nothing. */
  lemma ChildIsRemoved(d: State, key: Key, d': State)
    requires Tidy(d) && Step(d, Remove(key), d')
    ensures d.strategy.AllForOne? ==> d' == d
    ensures d.strategy.OneForOne? ==> forall i :: 0 <= i < |d.children| && d.children[i].key == key ==>
              d' == d.(children := d.children[i := d.children[i].(target := ToRemove)])
    ensures (forall c :: c in d.children ==> c.key != key) ==> d' == d
  {
    forall i | 0 <= i < |d.children| && d.children[i].key == key ensures IndexOfKey(d.children, key) == i {
      KeyIsHere(d, i, key);
    }
    var k := IndexOfKey(d.children, key);
    if k < |d.children| { assert d.children[k] in d.children; }
  }

  // ---------------------------------------------------------------------------
  // Asked until it has nothing left to do
  // ---------------------------------------------------------------------------

  /** Between `i` and `j` the decider is only asked for actions, and the last time it has
      none. */
  ghost predicate Asked(events: seq<Event>, i: nat, j: nat) {
    && i < j <= |events|
    && (forall m :: i <= m < j ==> events[m].Next?)
    && events[j - 1] == Next(None)
  }

  ghost predicate EmitsIn(events: seq<Event>, i: nat, j: nat, a: Action) {
    exists m :: i <= m < j && m < |events| && Emits(events[m], a)
  }

  /** A child waits to be started by an open supervisor. */
  ghost predicate Awaits(d: State, key: Key) {
    Open(d.status) && exists c :: c in d.children && c.key == key && c.status.Stopped? && c.target.ToRun?
  }

  /** A child runs that is to be stopped: it is to be removed or to stop, or all are. */
  ghost predicate Lingers(d: State, key: Key, address: Address) {
    && !d.status.SupStopped?
    && exists c :: c in d.children && c.key == key && c.status == Running(address) && (Open(d.status) ==> !c.target.ToRun?)
  }

  lemma KeptChild(d: State, action: Option<Action>, d': State, c: Child)
    requires NextAction(d, action, d') && c in d.children && !(c.status.Stopped? && c.target.ToRemove?)
    ensures c in d'.children || (action == Some(ActionOn(c)) && Acts(d.status, c))
    ensures d'.status == d.status
         || (&& d.orphans == {} && Idle(d.status, Retained(d.children))
             && Concluded(d.(children := Retained(d.children)), action, d'))
  {
    var kept := Retained(d.children);
    RetainedMembers(d.children, c);
    var k :| 0 <= k < |kept| && kept[k] == c;
    if d.orphans == {} && !Idle(d.status, kept) {
      var i: nat :| Chosen(d.status, kept, i)
        && action == Some(ActionOn(kept[i]))
        && d' == d.(children := kept[i := Advanced(kept[i])]);
      if i != k { assert d'.children[k] == c; }
    }
  }

  lemma NextKeepsAwaits(d: State, action: Option<Action>, d': State, key: Key)
    requires NextAction(d, action, d') && Awaits(d, key)
    ensures Awaits(d', key) || action == Some(Start(key))
  {
    var c :| c in d.children && c.key == key && c.status.Stopped? && c.target.ToRun?;
    KeptChild(d, action, d', c);
  }

  lemma NextKeepsLingers(d: State, action: Option<Action>, d': State, key: Key, address: Address)
    requires NextAction(d, action, d') && Lingers(d, key, address)
    ensures Lingers(d', key, address) || action == Some(Stop(address, Some(key)))
  {
    var c :| c in d.children && c.key == key && c.status == Running(address) && (Open(d.status) ==> !c.target.ToRun?);
    RetainedMembers(d.children, c);
    assert Acts(d.status, c);
    var k :| 0 <= k < |Retained(d.children)| && Retained(d.children)[k] == c;
    KeptChild(d, action, d', c);
  }

  lemma NextKeepsOrphan(d: State, action: Option<Action>, d': State, address: Address)
    requires NextAction(d, action, d') && address in d.orphans
    ensures address in d'.orphans || action == Some(Stop(address, None))
  {
  }

  /** With nothing left to do nobody waits, lingers or is orphaned. */
  lemma QuietLeavesNobody(d: State, d': State, key: Key, address: Address)
    requires NextAction(d, None, d')
    ensures !Awaits(d', key) && !Lingers(d', key, address) && address !in d'.orphans
  {
    QuietMeansDone(d, d');
  }

  datatype Need = ToStart(key: Key) | ToHalt(key: Key, address: Address) | ToDiscard(address: Address)

  ghost predicate Needed(d: State, need: Need) {
    match need
    case ToStart(key) => Awaits(d, key)
    case ToHalt(key, address) => Lingers(d, key, address)
    case ToDiscard(address) => address in d.orphans
  }

  function Remedy(need: Need): Action {
    match need
    case ToStart(key) => Start(key)
    case ToHalt(key, address) => Stop(address, Some(key))
    case ToDiscard(address) => Stop(address, None)
  }

  lemma NeedGoesOn(states: seq<State>, events: seq<Event>, n: nat, need: Need)
    requires IsRun(states, events) && n < |events| && events[n].Next? && Needed(states[n], need)
    ensures Needed(states[n + 1], need) || Emits(events[n], Remedy(need))
    ensures events[n] == Next(None) ==> !Needed(states[n + 1], need)
  {
    var d, action, d' := states[n], events[n].action, states[n + 1];
    assert NextAction(d, action, d');
    match need {
      case ToStart(key) => NextKeepsAwaits(d, action, d', key);
      case ToHalt(key, address) => NextKeepsLingers(d, action, d', key, address);
      case ToDiscard(address) => NextKeepsOrphan(d, action, d', address);
    }
    if action == None {
      var key := if need.ToDiscard? then "" else need.key;
      var address := if need.ToStart? then 0 else need.address;
      QuietLeavesNobody(d, d', key, address);
    }
  }

  ghost predicate GoesOn(states: seq<State>, events: seq<Event>, i: nat, j: nat, need: Need)
    requires j <= |events| && j < |states|
  {
    forall n :: i <= n < j && Needed(states[n], need) ==> Needed(states[n + 1], need) || Emits(events[n], Remedy(need))
  }

  lemma {:induction false} NeededUntil(states: seq<State>, events: seq<Event>, i: nat, j: nat, need: Need)
    requires i <= j <= |events| && j < |states| && GoesOn(states, events, i, j, need) && Needed(states[i], need)
    ensures Needed(states[j], need) || EmitsIn(events, i, j, Remedy(need))
    decreases j
  {
    if i < j {
      assert GoesOn(states, events, i, j - 1, need);
      NeededUntil(states, events, i, j - 1, need);
    }
  }

  /** Whatever needs doing gets done: a child that is to run is started, a child that is to
      stop is told to, and an orphan is stopped, before the decider has nothing left to
      do. */
  lemma NeedIsMet(states: seq<State>, events: seq<Event>, i: nat, j: nat, need: Need)
    requires IsRun(states, events) && Asked(events, i, j) && Needed(states[i], need)
    ensures EmitsIn(events, i, j, Remedy(need))
  {
    forall n | i <= n < j && Needed(states[n], need)
      ensures Needed(states[n + 1], need) || Emits(events[n], Remedy(need))
      ensures n == j - 1 ==> !Needed(states[n + 1], need)
    {
      NeedGoesOn(states, events, n, need);
    }
    NeededUntil(states, events, i, j - 1, need);
    if Needed(states[j - 1], need) {
      assert !Needed(states[j], need);
      assert Emits(events[j - 1], Remedy(need));
    }
  }

  /** A child added to an open supervisor is started. */
  lemma AddedChildIsStarted(states: seq<State>, events: seq<Event>, i: nat, j: nat)
    requires IsRun(states, events) && i < |events| && Asked(events, i + 1, j) && Open(states[i].status)
    requires events[i].Add? && forall c :: c in states[i].children ==> c.key != events[i].key
    ensures EmitsIn(events, i + 1, j, Start(events[i].key))
  {
    var child := Child(events[i].key, events[i].childType, Stopped, ToRun);
    ChildIsAdded(states[i], events[i].key, events[i].childType, states[i + 1]);
    assert states[i + 1].children[|states[i].children|] == child;
    assert child in states[i + 1].children;
    NeedIsMet(states, events, i + 1, j, ToStart(events[i].key));
  }

  /** Under one-for-one a child that was lost is started again, unless the supervisor
      gives up. */
  lemma LostChildIsRestarted(states: seq<State>, events: seq<Event>, i: nat, k: nat, j: nat)
    requires IsRun(states, events) && states[0].strategy.OneForOne? && i < |events| && Asked(events, i + 1, j)
    requires Open(states[i].status) && k < |states[i].children| && events[i].Exited?
    requires var c := states[i].children[k];
      && c.status == Running(events[i].address) && c.target.ToRun?
      && (c.childType.Permanent? || (c.childType.Transient? && !events[i].normal))
    requires !TooMany(states[i], events[i].at)
    ensures EmitsIn(events, i + 1, j, Start(states[i].children[k].key))
  {
    RunIsTidy(states, events, i);
    RunningChildExits(states[i], k, events[i].normal, events[i].at, states[i + 1]);
    assert states[i + 1].children[k] in states[i + 1].children;
    NeedIsMet(states, events, i + 1, j, ToStart(states[i].children[k].key));
  }

  /** A group that restarts starts every child that is to run. */
  lemma GroupIsRestarted(states: seq<State>, events: seq<Event>, i: nat, j: nat, c: Child)
    requires IsRun(states, events) && i < |events| && Emits(events[i], Noop) && Asked(events, i + 1, j)
    requires c in states[i].children && c.target.ToRun?
    ensures c.status.Stopped? && EmitsIn(events, i + 1, j, Start(c.key))
  {
    var d, d' := states[i], states[i + 1];
    assert NextAction(d, Some(Noop), d');
    RetainedMembers(d.children, c);
    var n :| 0 <= n < |Retained(d.children)| && Retained(d.children)[n] == c;
    assert d'.status == SupRunning && c in d'.children && c.status.Stopped?;
    NeedIsMet(states, events, i + 1, j, ToStart(c.key));
  }

  /** Under one-for-one a running child that is removed is told to stop. */
  lemma RemovedChildIsStopped(states: seq<State>, events: seq<Event>, i: nat, k: nat, j: nat)
    requires IsRun(states, events) && states[0].strategy.OneForOne? && i < |events| && Asked(events, i + 1, j)
    requires !states[i].status.SupStopped? && k < |states[i].children| && states[i].children[k].status.Running?
    requires events[i] == Remove(states[i].children[k].key)
    ensures EmitsIn(events, i + 1, j, Stop(states[i].children[k].status.address, Some(states[i].children[k].key)))
  {
    var c := states[i].children[k];
    RunIsTidy(states, events, i);
    ChildIsRemoved(states[i], c.key, states[i + 1]);
    assert states[i + 1].children[k] in states[i + 1].children;
    NeedIsMet(states, events, i + 1, j, ToHalt(c.key, c.status.address));
  }

  /** A start that nobody waits for is stopped. */
  lemma SurplusStartIsStopped(states: seq<State>, events: seq<Event>, i: nat, k: nat, j: nat)
    requires IsRun(states, events) && i < |events| && Asked(events, i + 1, j)
    requires k < |states[i].children| && !states[i].children[k].status.Starting?
    requires events[i].Started? && events[i].key == states[i].children[k].key
    ensures EmitsIn(events, i + 1, j, Stop(events[i].address, None))
  {
    RunIsTidy(states, events, i);
    ChildStarts(states[i], events[i].key, events[i].address, states[i + 1]);
    NeedIsMet(states, events, i + 1, j, ToDiscard(events[i].address));
  }

  /** A supervisor told to quit tells every running child to stop. */
  lemma QuitStopsChildren(states: seq<State>, events: seq<Event>, i: nat, k: nat, j: nat)
    requires IsRun(states, events) && i < |events| && events[i].Quit? && Asked(events, i + 1, j)
    requires !states[i].status.SupStopped? && k < |states[i].children| && states[i].children[k].status.Running?
    ensures EmitsIn(events, i + 1, j, Stop(states[i].children[k].status.address, Some(states[i].children[k].key)))
  {
    var c := states[i].children[k];
    assert Step(states[i], events[i], states[i + 1]);
    QuitBeginsShutdown(states[i], events[i].normal, states[i + 1]);
    assert c in states[i + 1].children;
    NeedIsMet(states, events, i + 1, j, ToHalt(c.key, c.status.address));
  }
}
