/** The watch and link protocol between actor containers, as a transition system.

    A node runs a set of containers. Each one owns a subnet of addresses, the jobs
    (main fork and forks) living at those addresses, and one FIFO queue of system
    messages. Containers only interact by appending to each other's queues.

    A handler of the source performs its local changes and then a series of
    fire-and-forget sends. Other containers may run between two of those sends, so
    the sends of a handler are put into an `outbox` here and leave it one per step.
    A container takes its next message or call only when its outbox is empty. */
module Protocol {

  /** An address is a subnet and a host within it; the registry finds a container
      by the subnet alone. */
  datatype Address = Address(net: nat, host: nat)

  /** Watch references are 64-bit counters. */
  type WatchRef = r: nat | r < 0x1_0000_0000_0000_0000

  datatype ExitReason = Normal | Terminate | LinkDown

  datatype SysMsg =
    | Kill
    | ForkDone(fork: Address)
    | Connect(sender: Address, receiver: Address)
    | Disconnect(sender: Address, receiver: Address)
    | Exit(sender: Address, receiver: Address, reason: ExitReason)
    | Watch(sender: Address, receiver: Address, watchRef: WatchRef)
    | Unwatch(sender: Address, receiver: Address, watchRef: WatchRef)
    | Down(sender: Address, receiver: Address, reason: ExitReason)

  datatype Job = Job(
    linkedTo: set<Address>,
    watches: set<(Address, WatchRef)>,
    watchedBy: set<(Address, WatchRef)>)

  const NO_JOB := Job({}, {}, {})

  datatype TakenWatch = TakenWatch(owner: Address, target: Address)

  /** `Starting` sends the initial link requests, `Stopping` is the time between
      leaving the main loop and closing the queue, `Draining` empties the closed
      queue. The flag says whether the actor ended normally. */
  datatype Phase =
    | Starting(pending: set<Address>)
    | Running
    | Stopping(normal: bool)
    | Draining(normal: bool)
    | Gone

  /** What a container tells its own forks, in order: replies to `watch`, watches
      given up by `unwatch` or by the end of their owner, and the reports that reach
      the priority inbox. */
  datatype Notice =
    | WatchTaken(watchRef: WatchRef)
    | WatchDropped(watchRef: WatchRef)
    | DownReport(to: Address, peer: Address, watchRef: WatchRef, normal: bool)
    | ExitReport(to: Address, peer: Address, normal: bool)

  datatype ContainerState = ContainerState(
    main: Address,
    phase: Phase,
    jobs: map<Address, Job>,
    taken: map<WatchRef, TakenWatch>,
    nextRef: WatchRef,
    trapExit: bool,
    queue: seq<SysMsg>,
    outbox: seq<SysMsg>,
    notices: seq<Notice>)

  type System = map<nat, ContainerState>

  // ---------------------------------------------------------------------------
  // Local changes
  // ---------------------------------------------------------------------------

  function Successor(r: WatchRef): WatchRef {
    if r == 0xFFFF_FFFF_FFFF_FFFF then 0 else r + 1
  }

  /** How many increments lead from `from` to `r`, wrapping at 64 bits. */
  function Ahead(from: WatchRef, r: WatchRef): nat {
    if from <= r then r - from else r + 0x1_0000_0000_0000_0000 - from
  }

  /** The ref handed out next: the first one at or after the counter not in use. */
  ghost predicate FirstFree(c: ContainerState, r: WatchRef) {
    && r !in c.taken
    && forall x: WatchRef :: Ahead(c.nextRef, x) < Ahead(c.nextRef, r) ==> x in c.taken
  }

  function RefsOn(watches: set<(Address, WatchRef)>, peer: Address): set<WatchRef> {
    set w | w in watches && w.0 == peer :: w.1
  }

  function NotOn(entries: set<(Address, WatchRef)>, peer: Address): set<(Address, WatchRef)> {
    set w | w in entries && w.0 != peer
  }

  function Refs(watches: set<(Address, WatchRef)>): set<WatchRef> {
    set w | w in watches :: w.1
  }

  function Linked(c: ContainerState, who: Address, peer: Address): ContainerState
    requires who in c.jobs
  {
    c.(jobs := c.jobs[who := c.jobs[who].(linkedTo := c.jobs[who].linkedTo + {peer})])
  }

  function Unlinked(c: ContainerState, who: Address, peer: Address): ContainerState {
    if who in c.jobs then
      c.(jobs := c.jobs[who := c.jobs[who].(linkedTo := c.jobs[who].linkedTo - {peer})])
    else c
  }

  function ReasonOf(normal: bool): ExitReason {
    if normal then Normal else LinkDown
  }

  ghost predicate NoDup<T>(s: seq<T>) {
    forall i, j :: 0 <= i < j < |s| ==> s[i] != s[j]
  }

  ghost predicate UnwatchesOf(out: seq<SysMsg>, who: Address, job: Job) {
    && NoDup(out)
    && forall m :: m in out <==> m.Unwatch? && m.sender == who && (m.receiver, m.watchRef) in job.watches
  }

  ghost predicate ExitsOf(out: seq<SysMsg>, who: Address, job: Job, normal: bool) {
    && NoDup(out)
    && forall m :: m in out <==> m.Exit? && m.sender == who && m.receiver in job.linkedTo && m.reason == ReasonOf(normal)
  }

  ghost predicate IsWatcher(job: Job, peer: Address) {
    exists r: WatchRef :: (peer, r) in job.watchedBy
  }

  /** One `Down` for every watcher, however many watches it holds. */
  ghost predicate DownsOf(out: seq<SysMsg>, who: Address, job: Job, normal: bool) {
    && NoDup(out)
    && forall m :: m in out <==> m.Down? && m.sender == who && IsWatcher(job, m.receiver) && m.reason == ReasonOf(normal)
  }

  /** What the end of a job sends: its watches are taken back, then its links and
      its watchers are told. */
  ghost predicate Farewell(out: seq<SysMsg>, who: Address, job: Job, normal: bool) {
    exists i, j :: 0 <= i <= j <= |out|
      && UnwatchesOf(out[..i], who, job)
      && ExitsOf(out[i..j], who, job, normal)
      && DownsOf(out[j..], who, job, normal)
  }

  /** The notices of dropped watches: every ref once. */
  ghost predicate DropsOf(notices: seq<Notice>, watches: set<(Address, WatchRef)>) {
    && NoDup(notices)
    && forall n :: n in notices <==> n.WatchDropped? && n.watchRef in Refs(watches)
  }

  /** Removal of a job from the tables, with its farewell in the outbox. */
  ghost predicate Retired(c: ContainerState, who: Address, normal: bool, d: ContainerState)
    requires who in c.jobs
  {
    && |c.notices| <= |d.notices|
    && d == c.(
              jobs := c.jobs - {who},
              taken := c.taken - Refs(c.jobs[who].watches),
              outbox := d.outbox,
              notices := c.notices + d.notices[|c.notices|..])
    && Farewell(d.outbox, who, c.jobs[who], normal)
    && DropsOf(d.notices[|c.notices|..], c.jobs[who].watches)
  }

  ghost predicate ReportsOf(reports: seq<Notice>, job: Job, to: Address, peer: Address, normal: bool) {
    && NoDup(reports)
    && forall n :: n in reports <==>
      n.DownReport? && n.to == to && n.peer == peer && n.normal == normal && (peer, n.watchRef) in job.watches
  }

  /** A `Down` from `peer` ends all watches of `who` on it, reporting each, and all
      watches of it on `who`. */
  ghost predicate HeardDown(c: ContainerState, who: Address, peer: Address, normal: bool, d: ContainerState)
    requires who in c.jobs
  {
    var job := c.jobs[who];
    && |c.notices| <= |d.notices|
    && d == c.(
              jobs := c.jobs[who := job.(watches := NotOn(job.watches, peer), watchedBy := NotOn(job.watchedBy, peer))],
              taken := c.taken - RefsOn(job.watches, peer),
              notices := c.notices + d.notices[|c.notices|..])
    && ReportsOf(d.notices[|c.notices|..], job, who, peer, normal)
  }

  /** An `Exit` reaching a container that does not trap exits. */
  function ExitUntrapped(c: ContainerState, sender: Address, receiver: Address, reason: ExitReason): ContainerState {
    match reason
    case Normal => Unlinked(c, receiver, sender)
    case LinkDown =>
      if receiver in c.jobs && sender in c.jobs[receiver].linkedTo
      then Unlinked(c, receiver, sender).(phase := Stopping(false))
      else c
    case Terminate =>
      if receiver in c.jobs then c.(phase := Stopping(false)) else c
  }

  /** An `Exit` reaching a container that traps exits becomes a report. */
  function ExitTrapped(c: ContainerState, sender: Address, receiver: Address, reason: ExitReason): ContainerState {
    if receiver !in c.jobs then c
    else
      var report := c.notices + [ExitReport(receiver, sender, reason.Normal?)];
      if reason.Terminate? then c.(notices := report)
      else if sender in c.jobs[receiver].linkedTo then Unlinked(c, receiver, sender).(notices := report)
      else c
  }

  function Registered(c: ContainerState, who: Address, watcher: Address, r: WatchRef): ContainerState
    requires who in c.jobs
  {
    c.(jobs := c.jobs[who := c.jobs[who].(watchedBy := c.jobs[who].watchedBy + {(watcher, r)})])
  }

  function Deregistered(c: ContainerState, who: Address, watcher: Address, r: WatchRef): ContainerState {
    if who in c.jobs then
      c.(jobs := c.jobs[who := c.jobs[who].(watchedBy := c.jobs[who].watchedBy - {(watcher, r)})])
    else c
  }

  /** A running container handles the message `m`, already taken off its queue. A
      `ForkDone` for an unknown fork has no successor: it panics. */
  ghost predicate OnMsg(c: ContainerState, m: SysMsg, d: ContainerState) {
    match m
    case Kill => d == c.(phase := Stopping(false))
    case ForkDone(fork) => fork in c.jobs && Retired(c, fork, true, d)
    case Connect(sender, receiver) =>
      d == if receiver in c.jobs then Linked(c, receiver, sender)
           else c.(outbox := [Exit(receiver, sender, LinkDown)])
    case Disconnect(sender, receiver) => d == Unlinked(c, receiver, sender)
    case Exit(sender, receiver, reason) =>
      d == if c.trapExit then ExitTrapped(c, sender, receiver, reason)
           else ExitUntrapped(c, sender, receiver, reason)
    case Watch(sender, receiver, r) =>
      d == if receiver in c.jobs then Registered(c, receiver, sender, r)
           else c.(outbox := [Down(receiver, sender, LinkDown)])
    case Unwatch(sender, receiver, r) => d == Deregistered(c, receiver, sender, r)
    case Down(sender, receiver, reason) =>
      if receiver in c.jobs then HeardDown(c, receiver, sender, reason.Normal?, d) else d == c
  }

  /** A draining container answers what still needs an answer. */
  ghost predicate OnDrain(c: ContainerState, m: SysMsg, normal: bool, d: ContainerState) {
    match m
    case ForkDone(fork) => if fork in c.jobs then Retired(c, fork, normal, d) else d == c
    case Connect(sender, receiver) => d == c.(outbox := [Exit(receiver, sender, ReasonOf(normal))])
    case Watch(sender, receiver, _) => d == c.(outbox := [Down(receiver, sender, ReasonOf(normal))])
    case _ => d == c
  }

  // ---------------------------------------------------------------------------
  // The system
  // ---------------------------------------------------------------------------

  function Queue(s: System, i: nat): seq<SysMsg> {
    if i in s then s[i].queue else []
  }

  function Outbox(s: System, i: nat): seq<SysMsg> {
    if i in s then s[i].outbox else []
  }

  predicate IsOpen(p: Phase) {
    p.Starting? || p.Running? || p.Stopping?
  }

  /** The container at `i` is registered and its queue is open. */
  predicate Accepting(s: System, i: nat) {
    i in s && IsOpen(s[i].phase)
  }

  predicate IsJob(s: System, a: Address) {
    a.net in s && a in s[a.net].jobs
  }

  function JobOf(s: System, a: Address): Job {
    if IsJob(s, a) then s[a.net].jobs[a] else NO_JOB
  }

  /** A job whose container still accepts messages. */
  predicate Live(s: System, a: Address) {
    Accepting(s, a.net) && IsJob(s, a)
  }

  predicate Mentions(m: SysMsg, a: Address) {
    match m
    case Kill => false
    case ForkDone(fork) => fork == a
    case _ => m.sender == a || m.receiver == a
  }

  /** No message on its way mentions `a`, and no job has this address. */
  ghost predicate Fresh(s: System, a: Address) {
    && !IsJob(s, a)
    && (forall i, m :: m in Queue(s, i) ==> !Mentions(m, a))
    && (forall i, m :: m in Outbox(s, i) ==> !Mentions(m, a))
  }

  function Push(s: System, i: nat, m: SysMsg): System
    requires i in s
  {
    s[i := s[i].(queue := s[i].queue + [m])]
  }

  /** `sys_send`: append if the target accepts messages, otherwise fail. */
  function Send(s: System, i: nat, m: SysMsg): System {
    if Accepting(s, i) then Push(s, i, m) else s
  }

  /** A send whose failure is answered by a message to the sender itself. */
  function SendOrElse(s: System, i: nat, m: SysMsg, self: nat, fallback: SysMsg): System
    requires self in s
  {
    if Accepting(s, i) then Push(s, i, m) else Push(s, self, fallback)
  }

  datatype Step =
    | Start(i: nat, main: Address, pending: set<Address>)
    | StartLink(i: nat, peer: Address)
    | StartDone(i: nat)
    | Flush(i: nat)
    | Handle(i: nat)
    | CallExit(i: nat, normal: bool)
    | CallTrapExit(i: nat, on: bool)
    | CallForkAdded(i: nat, fork: Address)
    | CallLink(i: nat, sender: Address, receiver: Address)
    | CallUnlink(i: nat, sender: Address, receiver: Address)
    | CallWatch(i: nat, sender: Address, receiver: Address, watchRef: WatchRef)
    | CallUnwatch(i: nat, watchRef: WatchRef)
    | DropFork(i: nat, fork: Address)
    | DropLateFork(i: nat, fork: Address)
    | Close(i: nat)
    | Drain(i: nat)
    | Finish(i: nat)
    | SendKill(i: nat)
    | SendTerminate(sender: Address, receiver: Address)

  /** Ready to take the next call or message. */
  predicate Idle(s: System, i: nat) {
    i in s && s[i].phase.Running? && s[i].outbox == []
  }

  function NewContainer(main: Address, pending: set<Address>): ContainerState {
    ContainerState(main, Starting(pending), map[main := NO_JOB], map[], 0, false, [], [], [])
  }

  ghost predicate ForksDropped(c: ContainerState) {
    forall a :: a in c.jobs && a != c.main ==> ForkDone(a) in c.queue
  }

  function LinkedSystem(s: System, i: nat, c: ContainerState, sender: Address, receiver: Address): System
    requires sender in c.jobs
  {
    SendOrElse(s[i := Linked(c, sender, receiver)],
               receiver.net, Connect(sender, receiver),
               i, Exit(receiver, sender, LinkDown))
  }

  function TakeWatch(c: ContainerState, sender: Address, receiver: Address, r: WatchRef): ContainerState
    requires sender in c.jobs
  {
    c.(jobs := c.jobs[sender := c.jobs[sender].(watches := c.jobs[sender].watches + {(receiver, r)})],
       taken := c.taken[r := TakenWatch(sender, receiver)],
       nextRef := Successor(r),
       notices := c.notices + [WatchTaken(r)])
  }

  function GiveUpWatch(c: ContainerState, r: WatchRef): ContainerState
    requires r in c.taken && c.taken[r].owner in c.jobs
  {
    var owner, target := c.taken[r].owner, c.taken[r].target;
    c.(jobs := c.jobs[owner := c.jobs[owner].(watches := c.jobs[owner].watches - {(target, r)})],
       taken := c.taken - {r},
       outbox := [Unwatch(owner, target, r)],
       notices := c.notices + [WatchDropped(r)])
  }

  ghost predicate Next(s: System, step: Step, s': System) {
    match step
    case Start(i, main, pending) =>
      && main.net == i && Fresh(s, main)
      && (i in s ==> s[i].phase.Gone? && s[i].outbox == [])
      && s' == s[i := NewContainer(main, pending)]
    case StartLink(i, peer) =>
      && i in s && s[i].phase.Starting? && peer in s[i].phase.pending
      && s[i].main in s[i].jobs
      && s' == LinkedSystem(s, i, s[i].(phase := Starting(s[i].phase.pending - {peer})), s[i].main, peer)
    case StartDone(i) =>
      && i in s && s[i].phase == Starting({})
      && s' == s[i := s[i].(phase := Running)]
    case Flush(i) =>
      && i in s && |s[i].outbox| > 0 && !s[i].outbox[0].Kill? && !s[i].outbox[0].ForkDone?
      && s' == Send(s[i := s[i].(outbox := s[i].outbox[1..])], s[i].outbox[0].receiver.net, s[i].outbox[0])
    case Handle(i) =>
      && Idle(s, i) && |s[i].queue| > 0 && i in s'
      && OnMsg(s[i].(queue := s[i].queue[1..]), s[i].queue[0], s'[i])
      && s' == s[i := s'[i]]
    case CallExit(i, normal) =>
      && Idle(s, i) && s' == s[i := s[i].(phase := Stopping(normal))]
    case CallTrapExit(i, on) =>
      && Idle(s, i) && s' == s[i := s[i].(trapExit := on)]
    case CallForkAdded(i, fork) =>
      && Idle(s, i) && fork.net == i && Fresh(s, fork)
      && s' == s[i := s[i].(jobs := s[i].jobs[fork := NO_JOB])]
    case CallLink(i, sender, receiver) =>
      && Idle(s, i) && sender in s[i].jobs
      && s' == if receiver in s[i].jobs[sender].linkedTo then s
               else LinkedSystem(s, i, s[i], sender, receiver)
    case CallUnlink(i, sender, receiver) =>
      && Idle(s, i) && sender in s[i].jobs
      && s' == if receiver in s[i].jobs[sender].linkedTo
               then s[i := Unlinked(s[i], sender, receiver).(outbox := [Disconnect(sender, receiver)])]
               else s
    case CallWatch(i, sender, receiver, r) =>
      && Idle(s, i) && sender in s[i].jobs && FirstFree(s[i], r)
      && s' == SendOrElse(s[i := TakeWatch(s[i], sender, receiver, r)],
                          receiver.net, Watch(sender, receiver, r),
                          i, Down(receiver, sender, LinkDown))
    case CallUnwatch(i, r) =>
      && Idle(s, i) && (r in s[i].taken ==> s[i].taken[r].owner in s[i].jobs)
      && s' == if r in s[i].taken then s[i := GiveUpWatch(s[i], r)] else s
    case DropFork(i, fork) =>
      && Accepting(s, i) && fork in s[i].jobs && fork != s[i].main && ForkDone(fork) !in s[i].queue
      && s' == Push(s, i, ForkDone(fork))
    case DropLateFork(i, fork) =>
      && i in s && s[i].phase.Stopping? && fork.net == i && Fresh(s, fork)
      && s' == Push(s, i, ForkDone(fork))
    case Close(i) =>
      && i in s && s[i].phase.Stopping? && s[i].outbox == [] && ForksDropped(s[i])
      && s' == s[i := s[i].(phase := Draining(s[i].phase.normal))]
    case Drain(i) =>
      && i in s && s[i].phase.Draining? && s[i].outbox == [] && |s[i].queue| > 0 && i in s'
      && OnDrain(s[i].(queue := s[i].queue[1..]), s[i].queue[0], s[i].phase.normal, s'[i])
      && s' == s[i := s'[i]]
    case Finish(i) =>
      && i in s && s[i].phase.Draining? && s[i].outbox == [] && s[i].queue == [] && i in s'
      && s[i].main in s[i].jobs
      && Retired(s[i].(phase := Gone), s[i].main, s[i].phase.normal, s'[i])
      && s' == s[i := s'[i]]
    case SendKill(i) => s' == Send(s, i, Kill)
    case SendTerminate(sender, receiver) =>
      s' == Send(s, receiver.net, Exit(sender, receiver, Terminate))
  }

  /** A run starts from a node without containers. */
  ghost predicate IsRun(states: seq<System>, steps: seq<Step>) {
    && |states| == |steps| + 1
    && states[0] == map[]
    && forall k :: 0 <= k < |steps| ==> Next(states[k], steps[k], states[k + 1])
  }
}
