/** The deciders of the mixed supervisor. The one-for-one and the all-for-one decider
    are one machine: they differ in removal (`Removed`) and in what follows an
    unacceptable exit (`Alarmed`). */
module Decider {
  import opened Options
  import opened RestartIntensity

  datatype Strategy = OneForOne | AllForOne

  type Key = string
  type Address = nat

  datatype ChildType = Permanent | Transient | Temporary

  datatype Status = Starting | Running(address: Address) | Terminating(address: Address) | Stopped

  datatype Target = ToRun | ToStop | ToRemove

  datatype SupStatus = SupStarting | SupRunning | SupRestarting | SupStopping(normal: bool) | SupStopped

  datatype Child = Child(key: Key, childType: ChildType, status: Status, target: Target)

  datatype State = State(
    strategy: Strategy,
    intensity: Intensity,
    times: seq<nat>,
    status: SupStatus,
    children: seq<Child>,
    orphans: set<Address>)

  datatype Action =
    | Start(key: Key)
    | Stop(address: Address, child: Option<Key>)
    | InitDone
    | QuitWith(normal: bool)
    | Noop

  function Initial(strategy: Strategy, intensity: Intensity): State {
    State(strategy, intensity, [], SupStarting, [], {})
  }

  // ---------------------------------------------------------------------------
  // Events
  // ---------------------------------------------------------------------------

  predicate Lives(status: Status, address: Address) {
    (status.Running? || status.Terminating?) && status.address == address
  }

  /** The first child with this key, or the number of children. */
  function IndexOfKey(children: seq<Child>, key: Key): (i: nat)
    ensures i <= |children| && (i < |children| ==> children[i].key == key)
    ensures forall j :: 0 <= j < i ==> children[j].key != key
  {
    if children == [] || children[0].key == key then 0 else 1 + IndexOfKey(children[1..], key)
  }

  /** The first child living at this address, or the number of children. */
  function IndexOfAddress(children: seq<Child>, address: Address): (i: nat)
    ensures i <= |children| && (i < |children| ==> Lives(children[i].status, address))
    ensures forall j :: 0 <= j < i ==> !Lives(children[j].status, address)
  {
    if children == [] || Lives(children[0].status, address) then 0 else 1 + IndexOfAddress(children[1..], address)
  }

  predicate HasKey(children: seq<Child>, key: Key) {
    exists c :: c in children && c.key == key
  }

  function Added(d: State, key: Key, childType: ChildType): State {
    if IndexOfKey(d.children, key) < |d.children| then d
    else d.(children := d.children + [Child(key, childType, Stopped, ToRun)])
  }

  /** Only the one-for-one strategy supports removal. */
  function Removed(d: State, key: Key): State {
    var i := IndexOfKey(d.children, key);
    if d.strategy.AllForOne? || i == |d.children| then d
    else d.(children := d.children[i := d.children[i].(target := ToRemove)])
  }

  /** A start that nobody waits for makes an orphan. */
  function WhenStarted(d: State, key: Key, address: Address): State {
    var i := IndexOfKey(d.children, key);
    if i == |d.children| then d
    else if d.children[i].status.Starting? then
      d.(children := d.children[i := d.children[i].(status := Running(address))])
    else d.(orphans := d.orphans + {address})
  }

  predicate Acceptable(childType: ChildType, normal: bool) {
    match childType
    case Permanent => false
    case Transient => normal
    case Temporary => true
  }

  /** The supervisor after an unacceptable exit of a running child. */
  function Alarmed(d: State, at: nat): State {
    var times := Report(d.times, d.intensity.within, at);
    var status :=
      if Exceeded(d.intensity, times) then SupStopping(false)
      else if d.strategy.AllForOne? then SupRestarting
      else d.status;
    d.(times := times, status := status)
  }

  /** An exit from an address that is not a child asks the supervisor to stop. */
  function WhenExited(d: State, address: Address, normal: bool, at: nat): State {
    var i := IndexOfAddress(d.children, address);
    if i == |d.children| then d.(status := SupStopping(true))
    else
      var c := d.children[i];
      if c.status.Terminating? then d.(children := d.children[i := c.(status := Stopped)])
      else if Acceptable(c.childType, normal) then
        d.(children := d.children[i := c.(status := Stopped, target := ToStop)])
      else Alarmed(d, at).(children := d.children[i := c.(status := Stopped)])
  }

  function WhenFailed(d: State, key: Key): State {
    var i := IndexOfKey(d.children, key);
    if i == |d.children| then d
    else
      var c := d.children[i];
      d.(status := SupStopping(false),
         children := d.children[i := if c.status.Starting? then c.(status := Stopped) else c.(target := ToStop)])
  }

  function WhenQuit(d: State, normal: bool): State {
    match d.status
    case SupStopped => d
    case SupStopping(before) => d.(status := SupStopping(normal && before))
    case _ => d.(status := SupStopping(normal))
  }

  // ---------------------------------------------------------------------------
  // Actions
  // ---------------------------------------------------------------------------

  predicate Finished(c: Child) {
    c.status.Stopped? && c.target.ToRemove?
  }

  /** One-for-one drops the children that are stopped and to be removed; with
      all-for-one there are none. */
  function Retained(children: seq<Child>): seq<Child> {
    if children == [] then []
    else (if Finished(children[0]) then [] else [children[0]]) + Retained(children[1..])
  }

  /** While stopping or restarting every child is to stop. */
  function Goal(status: SupStatus, c: Child): Target {
    if status.SupStarting? || status.SupRunning? then c.target else ToStop
  }

  predicate Acts(status: SupStatus, c: Child) {
    && !status.SupStopped?
    && ((c.status.Stopped? && Goal(status, c).ToRun?) || (c.status.Running? && !Goal(status, c).ToRun?))
  }

  predicate Backward(status: SupStatus) {
    status.SupStopping? || status.SupRestarting?
  }

  /** The child to act on: the first one, or the last one when going backward. */
  ghost predicate Chosen(status: SupStatus, children: seq<Child>, i: nat) {
    && i < |children| && Acts(status, children[i])
    && (forall j :: 0 <= j < |children| && (if Backward(status) then j > i else j < i) ==> !Acts(status, children[j]))
  }

  ghost predicate Idle(status: SupStatus, children: seq<Child>) {
    forall i :: 0 <= i < |children| ==> !Acts(status, children[i])
  }

  ghost predicate AllStopped(children: seq<Child>) {
    forall i :: 0 <= i < |children| ==> children[i].status.Stopped?
  }

  ghost predicate AllRunning(children: seq<Child>) {
    forall i :: 0 <= i < |children| ==> children[i].status.Running?
  }

  function ActionOn(c: Child): Action {
    if c.status.Running? then Stop(c.status.address, Some(c.key)) else Start(c.key)
  }

  function Advanced(c: Child): Child {
    c.(status := if c.status.Running? then Terminating(c.status.address) else Starting)
  }

  /** What is left to say when no child needs anything. */
  ghost predicate Concluded(d: State, action: Option<Action>, d': State) {
    if d.status.SupStarting? && AllRunning(d.children) then
      action == Some(InitDone) && d' == d.(status := SupRunning)
    else if d.status.SupRestarting? && AllStopped(d.children) then
      action == Some(Noop) && d' == d.(status := SupRunning)
    else if d.status.SupStopping? && AllStopped(d.children) then
      action == Some(QuitWith(d.status.normal)) && d' == d.(status := SupStopped)
    else action == None && d' == d
  }

  /** `next_action`; which orphan goes first is not determined. */
  ghost predicate NextAction(d: State, action: Option<Action>, d': State) {
    var kept := d.(children := Retained(d.children));
    if d.orphans != {} then
      && action.Some? && action.value.Stop? && action.value.child.None? && action.value.address in d.orphans
      && d' == kept.(orphans := d.orphans - {action.value.address})
    else if Idle(d.status, kept.children) then Concluded(kept, action, d')
    else
      exists i: nat ::
        && Chosen(d.status, kept.children, i)
        && action == Some(ActionOn(kept.children[i]))
        && d' == kept.(children := kept.children[i := Advanced(kept.children[i])])
  }

  datatype Event =
    | Add(key: Key, childType: ChildType)
    | Remove(key: Key)
    | Started(key: Key, address: Address)
    | Exited(address: Address, normal: bool, at: nat)
    | Failed(key: Key)
    | Quit(normal: bool)
    | Next(action: Option<Action>)

  /** A start reported from an address already tracked fails an assertion. */
  ghost predicate Step(d: State, e: Event, d': State) {
    match e
    case Add(key, childType) => d' == Added(d, key, childType)
    case Remove(key) => d' == Removed(d, key)
    case Started(key, address) =>
      IndexOfAddress(d.children, address) == |d.children| && d' == WhenStarted(d, key, address)
    case Exited(address, normal, at) => d' == WhenExited(d, address, normal, at)
    case Failed(key) => d' == WhenFailed(d, key)
    case Quit(normal) => d' == WhenQuit(d, normal)
    case Next(action) => NextAction(d, action, d')
  }

  ghost predicate IsRun(states: seq<State>, events: seq<Event>) {
    && |states| == |events| + 1
    && states[0] == Initial(states[0].strategy, states[0].intensity)
    && forall i :: 0 <= i < |events| ==> Step(states[i], events[i], states[i + 1])
  }

  lemma {:induction false} RetainedMembers(children: seq<Child>, c: Child)
    ensures c in Retained(children) <==> c in children && !Finished(c)
    decreases |children|
  {
    if children != [] {
      RetainedMembers(children[1..], c);
      assert children == [children[0]] + children[1..];
    }
  }

  // ---------------------------------------------------------------------------
  // The decider as an object
  // ---------------------------------------------------------------------------

  class Decider {
    const strategy: Strategy
    const intensity: Intensity
    const stats: Stats
    var status: SupStatus
    var children: seq<Child>
    var orphans: set<Address>

    ghost function Abstract(): State
      reads this, stats
    {
      State(strategy, intensity, stats.times, status, children, orphans)
    }

    constructor (strategy: Strategy, intensity: Intensity)
      ensures Abstract() == Initial(strategy, intensity) && fresh(stats)
    {
      this.strategy, this.intensity := strategy, intensity;
      stats := new Stats();
      status, children, orphans := SupStarting, [], {};
    }

    method FindKey(key: Key) returns (i: nat)
      ensures i == IndexOfKey(children, key)
    {
      i := 0;
      while i < |children| && children[i].key != key
        invariant i <= |children| && forall j :: 0 <= j < i ==> children[j].key != key
      {
        i := i + 1;
      }
    }

    method FindAddress(address: Address) returns (i: nat)
      ensures i == IndexOfAddress(children, address)
    {
      i := 0;
      while i < |children| && !Lives(children[i].status, address)
        invariant i <= |children| && forall j :: 0 <= j < i ==> !Lives(children[j].status, address)
      {
        i := i + 1;
      }
    }

    method OnAdd(key: Key, childType: ChildType) returns (ok: bool)
      modifies this
      ensures Abstract() == Added(old(Abstract()), key, childType)
      ensures ok <==> !HasKey(old(children), key)
    {
      var i := FindKey(key);
      ok := i == |children|;
      if ok { children := children + [Child(key, childType, Stopped, ToRun)]; }
    }

    method OnRemove(key: Key) returns (supported: bool)
      modifies this
      ensures Abstract() == Removed(old(Abstract()), key) && (supported <==> strategy.OneForOne?)
    {
      supported := strategy.OneForOne?;
      if supported {
        var i := FindKey(key);
        if i < |children| { children := children[i := children[i].(target := ToRemove)]; }
      }
    }

    /** The address must not be tracked yet: the source asserts it. */
    method OnStarted(key: Key, address: Address)
      requires IndexOfAddress(children, address) == |children|
      modifies this
      ensures Abstract() == WhenStarted(old(Abstract()), key, address)
    {
      var i := FindKey(key);
      if i < |children| {
        if children[i].status.Starting? {
          children := children[i := children[i].(status := Running(address))];
        } else {
          orphans := orphans + {address};
        }
      }
    }

    method OnFailed(key: Key)
      modifies this
      ensures Abstract() == WhenFailed(old(Abstract()), key)
    {
      var i := FindKey(key);
      if i < |children| {
        var c := children[i];
        if c.status.Starting? {
          children := children[i := c.(status := Stopped)];
        } else {
          children := children[i := c.(target := ToStop)];
        }
        status := SupStopping(false);
      }
    }

    method OnQuit(normal: bool)
      modifies this
      ensures Abstract() == WhenQuit(old(Abstract()), normal)
    {
      if status.SupStopping? {
        status := SupStopping(normal && status.normal);
      } else if !status.SupStopped? {
        status := SupStopping(normal);
      }
    }

    method OnExited(address: Address, normal: bool, at: nat)
      modifies this, stats
      ensures Abstract() == WhenExited(old(Abstract()), address, normal, at)
    {
      var i := FindAddress(address);
      if i == |children| {
        status := SupStopping(true);
        return;
      }
      var c := children[i];
      if c.status.Terminating? {
        children := children[i := c.(status := Stopped)];
      } else if Acceptable(c.childType, normal) {
        children := children[i := c.(status := Stopped, target := ToStop)];
      } else {
        var ok := stats.ReportExit(intensity, at);
        if !ok {
          status := SupStopping(false);
        } else if strategy.AllForOne? {
          status := SupRestarting;
        }
        children := children[i := c.(status := Stopped)];
      }
    }

    method Retain()
      modifies `children
      ensures children == Retained(old(children))
    {
      var kept: seq<Child> := [];
      for i := 0 to |children|
        invariant Retained(children) == kept + Retained(children[i..])
      {
        if !Finished(children[i]) { kept := kept + [children[i]]; }
      }
      children := kept;
    }

    /** Scans the children in the order the status asks for. */
    method Scan() returns (found: bool, k: nat, allStopped: bool, allRunning: bool)
      ensures found ==> Chosen(status, children, k)
      ensures !found ==> Idle(status, children) && (allStopped <==> AllStopped(children)) && (allRunning <==> AllRunning(children))
    {
      found, k, allStopped, allRunning := false, 0, true, true;
      // the children from lo to hi are still to be considered
      var lo, hi := 0, |children|;
      while lo < hi
        invariant 0 <= lo <= hi <= |children| && (if Backward(status) then lo == 0 else hi == |children|)
        invariant forall j :: 0 <= j < |children| && !(lo <= j < hi) ==> !Acts(status, children[j])
        invariant allStopped <==> forall j :: 0 <= j < |children| && !(lo <= j < hi) ==> children[j].status.Stopped?
        invariant allRunning <==> forall j :: 0 <= j < |children| && !(lo <= j < hi) ==> children[j].status.Running?
        decreases hi - lo
      {
        if Backward(status) { hi := hi - 1; k := hi; } else { k := lo; lo := lo + 1; }
        allStopped := allStopped && children[k].status.Stopped?;
        allRunning := allRunning && children[k].status.Running?;
        if Acts(status, children[k]) {
          found := true;
          return;
        }
      }
    }

    method OnNextAction() returns (action: Option<Action>)
      modifies this
      ensures NextAction(old(Abstract()), action, Abstract())
    {
      Retain();
      if orphans != {} {
        var address :| address in orphans;
        orphans := orphans - {address};
        action := Some(Stop(address, None));
        return;
      }
      var found, k, allStopped, allRunning := Scan();
      if found {
        action := Some(ActionOn(children[k]));
        assert Chosen(status, children, k);
        children := children[k := Advanced(children[k])];
        return;
      }
      action := None;
      match status
      case SupStarting => if allRunning { status, action := SupRunning, Some(InitDone); }
      case SupRestarting => if allStopped { status, action := SupRunning, Some(Noop); }
      case SupStopping(normal) => if allStopped { status, action := SupStopped, Some(QuitWith(normal)); }
      case _ =>
    }
  }
}
