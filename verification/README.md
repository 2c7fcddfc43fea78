# mm1, verified

A Dafny model of the parts of the mm1 actor runtime where state is shared between
several parties or kept in several tables at once, with proofs over every run.
`dafny verify dfyconfig.toml` checks all of it.

**The watch and link protocol.** Every actor runs in a container that owns a job for the
actor and one for each of its forks. Jobs link to and watch each other across containers
by messages in one queue per container. `Protocol` is this as a transition system: a
system is a map from network to container, a container has its tables, its queue and an
outbox of messages it has decided to send but not sent yet, so every interleaving of
sending containers is a run. `ProtocolInvariants` proves that obituaries are true,
`WatchSafety` that no `Down` is lost, `WatchRefs` that every watch reference ends at most
once, and `LinkSafety` that links do not dangle, with the exact condition under which a
call puts the two ends out of step; `LinkCrossing` is a run that shows this happening.
`EndLaws` says when a container ends, that a crash spreads along links, and that what is
said about an end is true. `Container` is the message loop itself as a class, proved against the steps of `Protocol`.

**The address pool.** `Blocks` is the arithmetic of aligned power-of-two blocks, `Trie` and
`TrieOperations` the path-compressed binary trie of free blocks, `Pool` the two tries of a
pool with their leases.

**Supervision.** `RestartIntensity` is the window of restarts; `Decider` is the state
machine behind both restart strategies, which differ only where `Strategy` is consulted,
`DeciderProperties` is what it keeps over all runs, and `DeciderLaws` what each event does
and that whatever needs doing gets done.

**Routing.** `AddressRange` is the order in which equal means overlapping,
`RouteRegistry` the three tables of routes that refine one map.

**Smaller parts.** `AddressText` prints and parses addresses, `Timer` is the one-shot
timer, `Waitlist` and `WaitlistRuns` are the requests that wait for a protocol to be
registered.

## Model

| member | source | states |
|---|---|---|
| `Container.Container.constructor` | core/mm1-node/src/runtime/container.rs:176-225 | a new container has one job, no links or watches, nothing queued, and its startup links still to make |
| `Container.Container.UnwatchTargets` | core/mm1-node/src/runtime/container.rs:871-888 | exactly one `Unwatch` for each watch of the job, no other message, and exactly its references freed |
| `Container.Container.TellLinked` | core/mm1-node/src/runtime/container.rs:394-397 | exactly one `Exit` for each linked peer, `Normal` after a normal end and `LinkDown` after any other |
| `Container.Container.TellWatchers` | core/mm1-node/src/runtime/container.rs:398-409 | exactly one `Down` for each watcher, however many references it watches with, `Normal` after a normal end and `LinkDown` after any other |
| `Container.Container.Retire` | core/mm1-node/src/runtime/container.rs:373-410 | the end of a job: its entry and its references are gone and its farewell is what links and watches require, in the order unwatches, exits, downs, with `Normal` or `LinkDown` as the job ended |
| `Container.Container.HearDown` | core/mm1-node/src/runtime/container.rs:677-723 | a `Down` removes all watches in both directions between the two jobs, frees their references and reports each of them once |
| `Container.Container.Handle` | core/mm1-node/src/runtime/container.rs:341-731 | one turn of the loop does what the transition system says for the message at the head of the queue |
| `Container.Container.Unlink` | core/mm1-node/src/runtime/container.rs:468-483 | the link of an existing job is removed, and a missing job is ignored |
| `Container.Container.ObeyExit` | core/mm1-node/src/runtime/container.rs:468-512 | without trapping, the container stops abnormally exactly for a terminate of a job it has and for a broken link that was there; a normal exit only unlinks |
| `Container.Container.TrapExit` | core/mm1-node/src/runtime/container.rs:514-558 | with trapping, the container goes on, and exactly a terminate or the end of an existing link is reported, with a flag that says whether the end was normal |
| `Container.Container.Drain` | core/mm1-node/src/runtime/container.rs:740-813 | a draining container retires ended forks, refuses links and watches and drops the rest; whatever it says of an end is `Normal` or `LinkDown` as the container ended |
| `Container.Container.Finish` | core/mm1-node/src/runtime/container.rs:815-858 | the main job retires, everybody linked to it or watching it is told `Normal` or `LinkDown` as the container ended, and with every fork dropped and the queue drained no job and no reference is left |
| `Container.Container.FreshRef` | core/mm1-node/src/runtime/container.rs:572-586 | the search wraps around and ends with the first reference not in use, counted from the last one given, whenever there is one |
| `Container.Container.CallWatch` | core/mm1-node/src/runtime/container.rs:560-615 | a watch call records the watch under a reference not in use on both tables, and a refused request is answered by a `Down` to oneself |
| `Container.Container.CallUnwatch` | core/mm1-node/src/runtime/container.rs:617-635 | an unwatch call takes back a reference in use and tells the target, and ignores any other |
| `Container.Container.CallLink` | core/mm1-node/src/runtime/container.rs:412-437 | a link call records the link and requests it once, and a refused request is answered by an `Exit` to oneself |
| `ProtocolInvariants.FarewellMessages` | core/mm1-node/src/runtime/container.rs:373-410 | the messages of a farewell are exactly the unwatches, exits and downs that the job's tables call for |
| `ProtocolInvariants.StepKeepsSound` | core/mm1-node/src/runtime/container.rs:281-858 | every step keeps the tables of every container consistent and every obituary true |
| `ProtocolInvariants.RunIsSound` | core/mm1-node/src/runtime/container.rs:281-858 | in every state of every run a `Down` or final `Exit` on its way comes from a job that is not live |
| `ProtocolInvariants.ExpectedJobsExist` | core/mm1-node/src/runtime/container.rs:617-623 | in every reachable state the owner of a reference in use has its job, and so has the main address of a container that is not gone: neither `expect` can fail |
| `WatchSafety.CallWatchKeepsWatchOk` | core/mm1-node/src/runtime/container.rs:560-615 | a watch call accounts for its own watch, accepted or refused, and disturbs no other |
| `WatchSafety.HearDownKeepsWatchOk` | core/mm1-node/src/runtime/container.rs:677-723 | handling a `Down` leaves every watch of every job accounted for |
| `WatchSafety.RetireKeepsWatchOk` | core/mm1-node/src/runtime/container.rs:373-410 | the end of a job leaves every watch of and on it accounted for |
| `WatchSafety.DrainKeepsWatchOk` | core/mm1-node/src/runtime/container.rs:740-813 | draining leaves every watch accounted for |
| `WatchSafety.StepKeepsWatchOk` | core/mm1-node/src/runtime/container.rs:281-858 | every step keeps the watch invariant of every pair of jobs and reference |
| `WatchSafety.RunKeepsWatchOk` | core/mm1-node/src/runtime/container.rs:281-858 | with a live target, what is under way settles to a registration exactly if the watcher holds the watch; with a dead one an answer is under way or owed |
| `WatchSafety.NoDownIsLost` | core/mm1-node/src/runtime/container.rs:560-723 | in every reachable state a watch of a live job has its request queued, or is registered, or has a `Down` under way back |
| `WatchSafety.StaleRegistrationIsCleared` | core/mm1-node/src/runtime/container.rs:617-675 | a registration whose watcher no longer holds the watch has a clearing `Unwatch` under way |
| `WatchSafety.QuietTablesMirror` | core/mm1-node/src/runtime/container.rs:560-723 | with nothing under way the tables of watchers and watched are mirror images |
| `WatchRefs.RunKeepsLogs` | core/mm1-node/src/runtime/container.rs:560-635 | in every run the record of references taken and ended is well nested and its open references are the ones in use |
| `WatchRefs.OneEndPerTake` | core/mm1-node/src/runtime/container.rs:677-723 | a reference given out yields at most one `Down`, and none after it was unwatched, from any fork |
| `WatchRefs.TakenRefsAreWatches` | core/mm1-node/src/runtime/container.rs:560-588 | a reference is taken by an owner for a target exactly if the owner holds that watch, in every reachable state |
| `LinkSafety.LinkCallIsOk` | core/mm1-node/src/runtime/container.rs:412-437 | a link call keeps the two ends in step if and only if no end of that link by the peer is under way |
| `LinkSafety.UnlinkCallIsOk` | core/mm1-node/src/runtime/container.rs:454-466 | an unlink call keeps the two ends in step if and only if no link request by the peer is under way |
| `LinkSafety.StepKeepsLinkOk` | core/mm1-node/src/runtime/container.rs:202-225 | every step that does not cross keeps the link invariant of every pair of jobs, startup links included |
| `LinkSafety.RunKeepsLinkOk` | core/mm1-node/src/runtime/container.rs:412-558 | in every run without crossing calls the links of two live jobs settle to a symmetric relation |
| `LinkSafety.CrossingBreaks` | core/mm1-node/src/runtime/container.rs:412-466 | a call that crosses puts its two ends out of step |
| `LinkSafety.InStepExactly` | core/mm1-node/src/runtime/container.rs:412-558 | the links of all pairs of jobs are in step throughout a run if and only if no call of the run crosses |
| `LinkSafety.LinksDoNotDangle` | core/mm1-node/src/runtime/container.rs:439-558 | in such a run a link of a live job has its request queued, or is mutual, or has its end under way |
| `LinkSafety.NoUnlinkRun` | core/mm1-node/src/runtime/container.rs:412-452 | a run without unlink calls has no crossing calls |
| `LinkSafety.LinksDoNotDangleWithoutUnlink` | core/mm1-node/src/runtime/container.rs:746-833 | in a run without unlink calls a link of a live job has its request queued, or is mutual, or has an `Exit` of the peer under way |
| `LinkCrossing.CrossingCanDangle` | core/mm1-node/src/runtime/container.rs:439-483 | a run of eleven steps from the empty node after which, with nothing under way, one of two live jobs is linked and the other is not |
| `EndLaws.UntrappedExit` | core/mm1-node/src/runtime/container.rs:485-512 | without trapping, an exit ends the container abnormally exactly if it is a terminate of a job it has or a broken link that was there; otherwise it goes on; the link is gone and nothing is reported or said |
| `EndLaws.TrappedExit` | core/mm1-node/src/runtime/container.rs:514-558 | with trapping, the container goes on, a terminate or the end of an existing link is reported once with whether it was normal, and the link is gone |
| `EndLaws.TrappingIsAsSet` | core/mm1-node/src/runtime/container.rs:353-356 | exits are trapped exactly as the actor last set it, and not in a new container |
| `EndLaws.EndsExactly` | core/mm1-node/src/runtime/container.rs:346-512 | a container ends normally or abnormally in a step if and only if the actor returns so, it is killed, or an untrapped exit brings it down, and how it ended does not change before it is gone |
| `EndLaws.EndHasCause` | core/mm1-node/src/runtime/container.rs:346-512 | in every run a container that has ended did so by one of these steps, and has not begun again since |
| `EndLaws.FarewellIsTrue` | core/mm1-node/src/runtime/container.rs:890-914 | the farewell of a job says `Normal` after a normal end and `LinkDown` after any other, to every linked peer and every watcher |
| `EndLaws.DrainTellsTruth` | core/mm1-node/src/runtime/container.rs:740-813 | a draining container answers links and watches with how it ended |
| `EndLaws.FinishTellsTruth` | core/mm1-node/src/runtime/container.rs:815-858 | in every run, what a container says at its end is how it was ended: `Normal` exactly if the actor returned normally |
| `EndLaws.CrashSpreads` | core/mm1-node/src/runtime/container.rs:485-499 | in every run, a container that handles an untrapped `LinkDown` of a linked job ends abnormally and tells everybody linked to or watching its main job `LinkDown` in turn |
| `EndLaws.RefusalIsTrue` | core/mm1-node/src/runtime/container.rs:439-452 | a running container answers only link and watch requests to jobs it does not have, with `LinkDown` |
| `EndLaws.NewsHasOrigin` | core/mm1-node/src/runtime/container.rs:373-858 | in every step, an `Exit` or `Down` under way was so before, or comes of the end of a job, a refusal or a terminate in that step, as its reason says |
| `EndLaws.NewsIsTrue` | core/mm1-node/src/runtime/container.rs:373-858 | in every run an `Exit` or `Down` under way says `Normal` only of a job that ended normally, `LinkDown` only of one that ended otherwise or was not there, and `Terminate` only if asked for |
| `EndLaws.ReportHasMessage` | core/mm1-node/src/runtime/container.rs:514-723 | a new report is of the message just handled, with its peer and whether it was normal |
| `EndLaws.ReportsAreTrue` | core/mm1-node/src/runtime/container.rs:514-723 | in every run, what an actor is told about the end of a peer was so |
| `EndLaws.DownIsReported` | core/mm1-node/src/runtime/container.rs:677-723 | a handled `Down` is reported for every reference its sender was watched with, with whether the end was normal |
| `EndLaws.DownClearsBoth` | core/mm1-node/src/runtime/container.rs:677-723 | a handled `Down` ends all watches between its two jobs, in both directions, and no other |
| `EndLaws.StartupLinksAreMade` | core/mm1-node/src/runtime/container.rs:202-225 | in every run a container begins to run only after it has made every link it was started with |
| `EndLaws.StartupLinkIsMade` | core/mm1-node/src/runtime/container.rs:202-225 | a container starts with the links it was given, and making one links the main job |
| `EndLaws.RefsWrap` | core/mm1-node/src/runtime/container.rs:572-586 | references are counted modulo 2^64 |
| `EndLaws.WatchTakesNextRef` | core/mm1-node/src/runtime/container.rs:560-588 | a watch call takes a reference not in use, the next one if that is free, and goes on from it |
| `Blocks.CommonHeightCorrect` | libs/mm1-address/src/pool/trie.rs:185-212 | the common height is the least at which the two addresses agree once the bits below are cleared |
| `Blocks.AncestorContains` | libs/mm1-address/src/pool/trie.rs:185-212 | the common ancestor is a block containing both, equals one of them if it has its size, and otherwise separates them by its highest free bit |
| `Blocks.AncestorIsLeast` | libs/mm1-address/src/pool/trie.rs:185-212 | every block containing both contains the common ancestor |
| `Blocks.FloorIsBlock` | libs/mm1-address/src/subnet.rs:67-72 | masking clears the free bits: the result is aligned and its block contains the address |
| `Blocks.AlignedIsMultiple` | libs/mm1-address/src/pool/trie.rs:279-279 | an address without bits below its mask is a multiple of the size of its block |
| `Blocks.MultipleIsAligned` | libs/mm1-address/src/pool/trie.rs:279-279 | every such multiple has no bits below the mask |
| `Trie.BuildLeftOver` | libs/mm1-address/src/pool/trie.rs:114-139 | the loop builds the trie of what is left of a leaf |
| `Trie.FullIsLeaf` | libs/mm1-address/src/pool/trie.rs:242-257 | a canonical trie that covers a whole block is a leaf |
| `Trie.RootIsLeast` | libs/mm1-address/src/pool/trie.rs:185-212 | the root of a canonical trie is the smallest block around its free addresses |
| `Trie.CanonicalIsUnique` | libs/mm1-address/src/pool/trie.rs:260-304 | two canonical tries with the same free addresses are equal |
| `TrieOperations.CompactCorrect` | libs/mm1-address/src/pool/trie.rs:242-257 | compacting a fork gives a canonical trie of the same block with the same free addresses |
| `TrieOperations.ReleaseCorrect` | libs/mm1-address/src/pool/trie.rs:17-79 | for every canonical trie and block: inserted exactly if disjoint from what is free, which then grows by exactly the block; unchanged otherwise; the assertion fails exactly for a single address that is a leaf already |
| `TrieOperations.ReleaseCommutes` | libs/mm1-address/src/pool/trie.rs:26-73 | releasing two disjoint blocks gives the same trie in either order |
| `TrieOperations.ReleaseAllCorrect` | libs/mm1-address/src/pool/trie.rs:17-79 | releasing any list of blocks that are apart frees exactly those blocks and keeps the trie canonical |
| `TrieOperations.ReleaseInAnyOrder` | libs/mm1-address/src/pool/trie.rs:17-79 | the same blocks released in any other order give the very same trie |
| `TrieOperations.LeftOverCorrect` | libs/mm1-address/src/pool/trie.rs:114-139 | what is left of a leaf is canonical and has exactly the addresses outside the block taken |
| `TrieOperations.AcquireCorrect` | libs/mm1-address/src/pool/trie.rs:81-151 | `acquire` takes exactly the lowest free aligned block of the size, keeps the trie canonical, and fails, changing nothing, exactly if there is none |
| `TrieOperations.DrainCorrect` | libs/mm1-address/src/pool/trie.rs:155-173 | draining into a disjoint trie gives a canonical trie of both sets of addresses |
| `TrieOperations.AcquireReleaseRoundTrip` | libs/mm1-address/src/pool/trie.rs:81-151 | acquiring a block and releasing it gives back the very same trie |
| `Pool.NewConserved` | libs/mm1-address/src/pool.rs:35-43 | a new pool is the block around its address, all of it free |
| `Pool.LeaseCorrect` | libs/mm1-address/src/pool.rs:45-72 | a lease takes one aligned block of the size out of the two tries together and is refused if and only if they have none between them |
| `Pool.LeaseConserves` | libs/mm1-address/src/pool.rs:45-72 | a lease keeps the network partitioned into free and leased addresses |
| `Pool.LeaseOrder` | libs/mm1-address/src/pool.rs:45-63 | a lease is the lowest block of the main trie, or else the lowest of the used one, which changes places with it, or else the lowest of both joined |
| `Pool.DropConserves` | libs/mm1-address/src/pool.rs:96-104 | dropping a lease keeps it partitioned |
| `Pool.DropReleases` | libs/mm1-address/src/pool.rs:96-104 | a dropped block becomes free in the used trie only, and no other address does |
| `Pool.NoPanic` | libs/mm1-address/src/pool/trie.rs:17-79 | neither folding the tries nor dropping a lease can fail an assertion |
| `Pool.RunConserves` | libs/mm1-address/src/pool.rs:35-104 | after every run of leases and drops the free addresses of both tries and the leases are disjoint, together the network, and every lease is aligned |
| `Pool.Pool.constructor` | libs/mm1-address/src/pool.rs:35-43 | a new pool is conserved |
| `Pool.Pool.Lease` | libs/mm1-address/src/pool.rs:45-72 | acquire, swap or fold: the new tries and the answer are those of the specification, and conservation is kept |
| `Pool.Pool.Drop` | libs/mm1-address/src/pool.rs:96-104 | a drop releases into the used trie only and keeps conservation |
| `RestartIntensity.Stats.ReportExit` | components/mm1-sup/src/common/restart_intensity.rs:22-36 | a report prunes what is before the cutoff, adds itself and fails exactly if more are left than permitted |
| `RestartIntensity.KeepIsSuffix` | components/mm1-sup/src/common/restart_intensity.rs:22-36 | pruning an ordered record keeps exactly the reports at or after the cutoff, a suffix of it |
| `RestartIntensity.RememberedIsWindow` | components/mm1-sup/src/common/restart_intensity.rs:22-36 | for every history the pruned record equals the window of the whole history if and only if no report that still counts was cut early |
| `RestartIntensity.GivesUpExactly` | components/mm1-sup/src/common/restart_intensity.rs:22-36 | the limit is judged on the whole history, whatever the limit, if and only if no report that still counts was cut early |
| `RestartIntensity.ExactAfterOnePeriod` | components/mm1-sup/src/common/restart_intensity.rs:22-36 | once the clock has run for a period before the first report, the supervisor gives up exactly if the closed window has too many |
| `RestartIntensity.EarlyReportsAreLost` | components/mm1-sup/src/common/restart_intensity.rs:27-27 | reports at 1, 2 and 3 with a period of 10: three in the window, one remembered |
| `Decider.Decider.constructor` | components/mm1-sup/src/mixed/strategy/one_for_one.rs:67-77 | a new decider has no children and is starting |
| `Decider.Decider.FindKey` | components/mm1-sup/src/mixed/strategy/one_for_one.rs:133-143 | the first child with the key, or the number of children |
| `Decider.Decider.FindAddress` | components/mm1-sup/src/mixed/strategy/one_for_one.rs:157-170 | the first child running or terminating at the address, or the number of children |
| `Decider.Decider.OnAdd` | components/mm1-sup/src/mixed/strategy/one_for_one.rs:99-112 | a new key is appended, stopped and to be run; a known key is refused and nothing changes |
| `Decider.Decider.OnRemove` | components/mm1-sup/src/mixed/strategy/one_for_one.rs:114-123 | one-for-one marks the child for removal; all-for-one refuses |
| `Decider.Decider.OnStarted` | components/mm1-sup/src/mixed/strategy/one_for_one.rs:125-154 | a starting child runs at the address; any other known child makes it an orphan |
| `Decider.Decider.OnExited` | components/mm1-sup/src/mixed/strategy/all_for_one.rs:157-207 | an acceptable exit retires the child, another restarts the child or the group or gives up, an unknown address stops the supervisor |
| `Decider.Decider.OnFailed` | components/mm1-sup/src/mixed/strategy/one_for_one.rs:205-221 | a known child that failed to start stops the supervisor abnormally |
| `Decider.Decider.OnQuit` | components/mm1-sup/src/mixed/strategy/one_for_one.rs:223-235 | quitting is recorded unless stopped, and normal only if every request was |
| `Decider.Decider.Retain` | components/mm1-sup/src/mixed/strategy/one_for_one.rs:241-246 | exactly the stopped children marked for removal go, the others keep their order |
| `Decider.Decider.Scan` | components/mm1-sup/src/mixed/strategy/all_for_one.rs:265-305 | the scan finds the first child to act on in its direction, or learns whether all are stopped or all running |
| `Decider.Decider.OnNextAction` | components/mm1-sup/src/mixed/strategy/all_for_one.rs:243-345 | the action and the new state are those of the specification: orphans first, then one child, then the status |
| `DeciderProperties.RunIsTidy` | components/mm1-sup/src/mixed/strategy/one_for_one.rs:99-154 | in every run a key names one child and an address belongs to one, so each key has at most one instance starting or live |
| `DeciderProperties.ClosedStep` | components/mm1-sup/src/mixed/strategy/all_for_one.rs:243-345 | while stopping or restarting nothing is started, and restarting is left only with all children stopped |
| `DeciderProperties.ShutdownIsFinal` | components/mm1-sup/src/mixed/strategy/one_for_one.rs:156-337 | one-for-one starts no child ever again once it has begun to stop |
| `DeciderProperties.ShutdownIsLeft` | components/mm1-sup/src/mixed/strategy/all_for_one.rs:192-203 | a step leaves the shutdown if and only if a running child of an all-for-one group exits unacceptably with restarts to spare |
| `DeciderProperties.ShutdownLasts` | components/mm1-sup/src/mixed/strategy/all_for_one.rs:157-345 | under either strategy a shutdown without such an exit lasts and starts nothing |
| `DeciderProperties.ShutdownCanTurnBack` | components/mm1-sup/src/mixed/strategy/all_for_one.rs:192-203 | a run of an all-for-one group that is told to quit and restarts instead |
| `DeciderProperties.BlameIsLost` | components/mm1-sup/src/mixed/strategy/one_for_one.rs:156-203 | a step forgets that the end is abnormal if and only if the group turns back or an unknown address exits |
| `DeciderProperties.BlameStays` | components/mm1-sup/src/mixed/strategy/one_for_one.rs:156-337 | without such events the supervisor never quits normally |
| `DeciderProperties.BlameCanBeLost` | components/mm1-sup/src/mixed/strategy/one_for_one.rs:163-170 | a run that is told to quit abnormally and quits normally |
| `DeciderProperties.StopsInReverse` | components/mm1-sup/src/mixed/strategy/one_for_one.rs:256-336 | while stopping, a child is told to stop only when no later child is running, and quit comes only with all children stopped and no orphan |
| `DeciderProperties.NotStartedAgain` | components/mm1-sup/src/mixed/strategy/one_for_one.rs:172-189 | under either strategy a temporary child that exited, or a transient one that exited normally, is never started again, group restarts included, unless its key is removed and then added anew; refused additions do not matter |
| `DeciderProperties.NotStartedAgainInGroup` | components/mm1-sup/src/mixed/strategy/all_for_one.rs:106-123 | in an all-for-one group, where nothing can be removed, such a child is never started again whatever happens |
| `DeciderProperties.NoStartBeforeGroupStops` | components/mm1-sup/src/mixed/strategy/all_for_one.rs:192-345 | between an unacceptable exit and the next start there is a moment at which all children are stopped |
| `DeciderProperties.OneGeneration` | components/mm1-sup/src/mixed/strategy/all_for_one.rs:157-345 | once any child of an all-for-one group was started after an unacceptable exit, every child that is up was started after it, by the start that it is still up from |
| `DeciderProperties.NoExitBetweenStarts` | components/mm1-sup/src/mixed/strategy/all_for_one.rs:157-345 | no unacceptable exit lies between the starts of two children that are up together |
| `DeciderProperties.StartedAfterStop` | components/mm1-sup/src/mixed/strategy/one_for_one.rs:237-337 | under either strategy a child that is up was started after any moment at which all were stopped |
| `DeciderProperties.ActionLowersPotential` | components/mm1-sup/src/mixed/strategy/all_for_one.rs:243-345 | every action lowers a bound on the actions still to come |
| `DeciderProperties.DeciderQuiesces` | components/mm1-sup/src/mixed/strategy/one_for_one.rs:237-337 | with no new event there are at most as many actions as orphans and children, plus one |
| `DeciderProperties.QuietStaysQuiet` | components/mm1-sup/src/mixed/strategy/one_for_one.rs:237-337 | a decider with nothing to do has nothing to do until the next event |
| `DeciderProperties.InitDoneOnce` | components/mm1-sup/src/mixed/strategy/one_for_one.rs:314-322 | the end of initialisation is announced at most once in a run |
| `DeciderLaws.QuietMeansDone` | components/mm1-sup/src/mixed/strategy/one_for_one.rs:237-337 | when the decider has nothing to do, no orphan and no removed child is left, every child of an open supervisor is where it should be, and a supervisor that is stopping, restarting or starting waits for a child |
| `DeciderLaws.OpenActsOnFirst` | components/mm1-sup/src/mixed/strategy/one_for_one.rs:256-310 | while starting or running, the first child that is not where it should be is started or told to stop, and no other changes |
| `DeciderLaws.ClosedStopsLast` | components/mm1-sup/src/mixed/strategy/all_for_one.rs:259-305 | while stopping or restarting, the last child that runs is told to stop, and no other changes |
| `DeciderLaws.ConclusionIsDrawn` | components/mm1-sup/src/mixed/strategy/all_for_one.rs:307-345 | with all children running a starting supervisor is initialised; with all stopped a restarting one runs and a stopping one quits with the reason it was given |
| `DeciderLaws.NeedIsMet` | components/mm1-sup/src/mixed/strategy/one_for_one.rs:237-337 | in every run, a child to start, a child to stop or an orphan is acted on before the decider, asked for actions only, has none left |
| `DeciderLaws.BeginsStarting` | components/mm1-sup/src/mixed/strategy/one_for_one.rs:67-77 | every run begins with a supervisor that is starting and has nothing |
| `DeciderLaws.QuitBeginsShutdown` | components/mm1-sup/src/mixed/strategy/one_for_one.rs:223-235 | a request to quit begins the shutdown and changes nothing else; the shutdown is normal only if every request was |
| `DeciderLaws.NoStartAfterQuit` | components/mm1-sup/src/mixed/strategy/one_for_one.rs:223-337 | under one-for-one nothing is ever started after a request to quit |
| `DeciderLaws.QuitStopsChildren` | components/mm1-sup/src/mixed/strategy/one_for_one.rs:223-310 | after a request to quit every running child is told to stop |
| `DeciderLaws.RunningChildExits` | components/mm1-sup/src/mixed/strategy/all_for_one.rs:157-207 | a temporary child, or a transient one that exits normally, is left stopped and nothing else happens; any other exit is counted and gives up, restarts the group or leaves the child to be started again |
| `DeciderLaws.OtherExits` | components/mm1-sup/src/mixed/strategy/one_for_one.rs:156-182 | a child told to stop is stopped by its exit; the exit of an unknown address begins a normal shutdown |
| `DeciderLaws.ChildStarts` | components/mm1-sup/src/mixed/strategy/one_for_one.rs:125-154 | a start runs the child that waits for it, makes an orphan if another child has the key, and is ignored for an unknown key |
| `DeciderLaws.FailedStartStops` | components/mm1-sup/src/mixed/strategy/one_for_one.rs:205-221 | a failed start of a known child begins an abnormal shutdown |
| `DeciderLaws.ChildIsAdded` | components/mm1-sup/src/mixed/strategy/one_for_one.rs:99-112 | a new key is added last, stopped and to be run; a known one is left alone |
| `DeciderLaws.ChildIsRemoved` | components/mm1-sup/src/mixed/strategy/one_for_one.rs:114-123 | one-for-one marks the child for removal and nothing else; all-for-one does nothing |
| `DeciderLaws.AddedChildIsStarted` | components/mm1-sup/src/mixed/strategy/one_for_one.rs:99-112 | in every run a child added to an open supervisor is started |
| `DeciderLaws.LostChildIsRestarted` | components/mm1-sup/src/mixed/strategy/one_for_one.rs:190-200 | in every one-for-one run a child that is to run and was lost is started again unless there were too many restarts |
| `DeciderLaws.GroupIsRestarted` | components/mm1-sup/src/mixed/strategy/all_for_one.rs:320-331 | in every run, when a group is ready to restart every child that is to run is stopped and is then started |
| `DeciderLaws.RemovedChildIsStopped` | components/mm1-sup/src/mixed/strategy/one_for_one.rs:301-307 | in every one-for-one run a running child that is removed is told to stop |
| `DeciderLaws.SurplusStartIsStopped` | components/mm1-sup/src/mixed/strategy/one_for_one.rs:125-154 | in every run the instance of a start that no child waits for is stopped |
| `AddressRange.RoundTrip` | libs/mm1-address/src/address_range.rs:49-66 | a network comes back from its range exactly if the highest free bit of its address is clear; a canonical one always does |
| `AddressRange.OverlapIsMeeting` | libs/mm1-address/src/address_range.rs:68-80 | ranges of canonical networks are equal exactly if they share an address, and less or greater exactly if they lie before or after |
| `AddressRange.PointOrder` | libs/mm1-address/src/address_range.rs:68-80 | a point equals the network that contains it and is ordered by position otherwise |
| `AddressRange.OrderIsTotal` | libs/mm1-address/src/address_range.rs:16-22 | over canonical networks that are equal or disjoint the comparison is a strict total order |
| `AddressRange.ProbeIsConsistent` | libs/mm1-address/src/address_range.rs:16-22 | every point keeps to that order |
| `RouteRegistry.InsertedAgrees` | components/mm1-multinode/src/route_registry.rs:187-203 | inserting keeps the three tables in agreement and adds exactly one route |
| `RouteRegistry.ChangedAgrees` | components/mm1-multinode/src/route_registry.rs:160-186 | changing a metric keeps them in agreement, leaves no empty set behind and changes exactly one route |
| `RouteRegistry.DeletedAgrees` | components/mm1-multinode/src/route_registry.rs:205-224 | deleting keeps them in agreement, leaves no empty set behind and removes exactly one route |
| `RouteRegistry.KeyOrder` | components/mm1-multinode/src/route_registry.rs:88-106 | the destination keys of separate networks are strictly and totally ordered |
| `RouteRegistry.FindNext` | components/mm1-multinode/src/route_registry.rs:99-106 | a key of the table, and for a probe consistent with the order the least one not below it, none exactly if all are below |
| `RouteRegistry.FindPrevious` | components/mm1-multinode/src/route_registry.rs:60-63 | a key of the table, and for a consistent probe the greatest one below it, none exactly if none is |
| `RouteRegistry.PointIsConsistent` | components/mm1-multinode/src/route_registry.rs:98-101 | the probe for an address is always consistent |
| `RouteRegistry.MeetingOneIsConsistent` | libs/mm1-address/src/address_range.rs:16-22 | the probe for a network that meets at most one other is consistent |
| `RouteRegistry.MeetingTwoCanBeInconsistent` | libs/mm1-address/src/address_range.rs:16-22 | a network that meets two others: the later key is below its probe and the earlier one is not |
| `RouteRegistry.NextIsCheapest` | components/mm1-multinode/src/route_registry.rs:88-121 | if some route covers message and address, the key found is of such a route and no other has a smaller metric |
| `RouteRegistry.FindRoute` | components/mm1-multinode/src/route_registry.rs:88-121 | a covered request is answered with a covering route of least metric; an uncovered one is answered exactly if the next key is of the same message |
| `RouteRegistry.UncoveredCanBeAnswered` | components/mm1-multinode/src/route_registry.rs:99-106 | with one route to address 2, address 1 is not covered and is answered all the same |
| `RouteRegistry.NeighboursTell` | components/mm1-multinode/src/route_registry.rs:52-68 | one of the two keys found has the network exactly if a route has, whatever the network |
| `RouteRegistry.ContainsNet` | components/mm1-multinode/src/route_registry.rs:52-68 | for every network, canonical or not: true exactly if some route has it |
| `RouteRegistry.WhatIsInTheWay` | components/mm1-multinode/src/route_registry.rs:142-165 | a network is in the way exactly if it overlaps another and a route of the message with the same gateway or metric has it |
| `RouteRegistry.Registry.FindConflict` | components/mm1-multinode/src/route_registry.rs:142-165 | a conflict is an overlapping other network among the routes of the message with the same gateway or metric, or what the network itself comes back as; without one the network comes back as it is and the route is known exactly if it is there; where at most one network is met, nothing in the way is missed |
| `RouteRegistry.Registry.Insert` | components/mm1-multinode/src/route_registry.rs:187-203 | the tables stay in agreement, the map they stand for gains exactly this route, and the slot was in no destination set before |
| `RouteRegistry.Registry.Change` | components/mm1-multinode/src/route_registry.rs:160-186 | the tables stay in agreement, the map changes at exactly this route, and the slot was in the set of the old metric |
| `RouteRegistry.Registry.Delete` | components/mm1-multinode/src/route_registry.rs:205-224 | the tables stay in agreement, the map loses exactly this route, and the slot was in the set of its metric |
| `RouteRegistry.Registry.Update` | components/mm1-multinode/src/route_registry.rs:167-226 | without a conflict the map is updated at one key and the old metric returned |
| `RouteRegistry.Registry.SetRoute` | components/mm1-multinode/src/route_registry.rs:123-226 | for every network: a conflict changes nothing and names a network in the way or the one this comes back as; otherwise the map is updated at one key and the old metric returned; the networks stay canonical and separate if and only if nothing was added that is not canonical or overlaps another |
| `RouteRegistry.SeparationAfter` | components/mm1-multinode/src/route_registry.rs:142-165 | after an update the networks are canonical and separate if and only if it was a removal or the network is canonical and fits |
| `RouteRegistry.OverlapCanSlipIn` | components/mm1-multinode/src/route_registry.rs:142-165 | an overlapping network with another gateway and another metric is not a conflict, and separation is lost |
| `RouteRegistry.StrayBitCanSlipIn` | components/mm1-multinode/src/route_registry.rs:142-165 | a network with a stray bit below its highest free one comes back as it is, so it is no conflict, and is not canonical |
| `AddressText.Digits` | libs/mm1-address/src/address.rs:89-101 | shifting the highest digit out yields the hexadecimal digits of the address in order |
| `AddressText.ValueOfDigits` | libs/mm1-address/src/address.rs:89-101 | those digits write the address |
| `AddressText.DigitOfPlace` | libs/mm1-address/src/address.rs:89-101 | the digit of each place is that of the address in base sixteen |
| `AddressText.DigitsAreLowerCase` | libs/mm1-address/src/address.rs:161-175 | digits are printed as 0 to 9 and small a to f |
| `AddressText.LongestRun` | libs/mm1-address/src/address.rs:140-159 | the run found is the leftmost of the longest runs of zeros |
| `AddressText.ColonExactly` | libs/mm1-address/src/address.rs:161-184 | a colon is printed exactly for two zero digits in a row |
| `AddressText.Print` | libs/mm1-address/src/address.rs:133-184 | the leftmost longest run of at least two zeros becomes a colon, and what is printed means the address |
| `AddressText.ShiftIsExact` | libs/mm1-address/src/address.rs:103-131 | a 64-bit shift within the sixteen digits loses none |
| `AddressText.ParseInner` | libs/mm1-address/src/address.rs:115-128 | the loop computes the number written by the digits the text stands for, and fails exactly for a second colon or a character that is no digit |
| `AddressText.Parse` | libs/mm1-address/src/address.rs:103-131 | the meaning of the whole text, for every text |
| `AddressText.AcceptedExactly` | libs/mm1-address/src/address.rs:103-131 | a text is an address exactly if it is in brackets, at most sixteen characters long inside, and has only hexadecimal digits and at most one colon there |
| `AddressText.CaseDoesNotMatter` | libs/mm1-address/src/address.rs:125-126 | capital letters mean what small ones mean, in every text |
| `AddressText.ColonIsZeros` | libs/mm1-address/src/address.rs:112-124 | a colon means as many zeros as are missing from sixteen digits |
| `AddressText.PrintThenParse` | libs/mm1-address/src/address.rs:103-184 | for every 64-bit address, parsing what was printed gives it back |
| `AddressText.PrintIsInjective` | libs/mm1-address/src/address.rs:133-184 | different addresses are printed differently |
| `Timer.Timer.constructor` | components/mm1-timer/src/v1.rs:105-110 | a new timer has nothing pending and its tables agree |
| `Timer.Timer.Schedule` | components/mm1-timer/src/v1.rs:165-172 | the entry is added to both tables |
| `Timer.Timer.Cancel` | components/mm1-timer/src/v1.rs:173-186 | a pending entry is removed from both tables and returned; an unknown key changes nothing |
| `Timer.Timer.Tick` | components/mm1-timer/src/v1.rs:187-201 | exactly the due entries go out, each once, by deadline and key, and leave both tables; nothing goes out early and nothing due is left |
| `Timer.DeliveryIsFixed` | components/mm1-timer/src/v1.rs:187-201 | what goes out, and in which order, is determined by the entries and the time |
| `Timer.NothingIsOverdue` | components/mm1-timer/src/v1.rs:187-201 | after the timer has looked at the time nothing pending is due |
| `Timer.EarlierFirst` | components/mm1-timer/src/v1.rs:187-201 | in every run, of two messages delivered that were pending together the earlier deadline, then the smaller key, comes first |
| `Timer.RunAccounts` | components/mm1-timer/src/v1.rs:129-204 | in every run each scheduled message is pending, cancelled once or delivered once, with its own content and never early, and of two pending together the earlier is delivered first |
| `Waitlist.Manager.constructor` | components/mm1-multinode/src/actors/multinode_manager.rs:176-180 | nobody waits and the two tables agree |
| `Waitlist.Manager.GetProtocol` | components/mm1-multinode/src/actors/multinode_manager.rs:676-719 | a registered protocol is answered, a missing one refused without a timeout, and waited for with one, under a new key in both tables |
| `Waitlist.Manager.NextWaiter` | components/mm1-multinode/src/actors/multinode_manager.rs:516-522 | the least key that waits for the protocol, if any |
| `Waitlist.Manager.Register` | components/mm1-multinode/src/actors/multinode_manager.rs:500-535 | the loop ends, lets go exactly those who wait for the protocol, each once and by key, and a duplicate changes nothing |
| `Waitlist.Manager.Unregister` | components/mm1-multinode/src/protocol_registry.rs:58-81 | a registered protocol not in use is removed, and nobody starts or stops waiting |
| `Waitlist.Manager.TimeoutElapsed` | components/mm1-multinode/src/actors/multinode_manager.rs:763-799 | whoever still waits under the key is refused and removed from both tables, where the two assertions hold; otherwise nothing happens |
| `WaitlistRuns.StepIsTimed` | components/mm1-multinode/src/actors/multinode_manager.rs:500-587 | every step keeps a timer armed or a timeout queued for everyone who waits |
| `WaitlistRuns.StepIsServed` | components/mm1-multinode/src/actors/multinode_manager.rs:500-587 | every step keeps each request answered once or waiting once |
| `WaitlistRuns.AnswersFit` | components/mm1-multinode/src/actors/multinode_manager.rs:500-799 | a step takes no reply back, and a new one resolves the protocol asked for, which is registered, or refuses one that is not |
| `WaitlistRuns.RepliesWereTrue` | components/mm1-multinode/src/actors/multinode_manager.rs:500-799 | in every run each reply was so when it was given |
| `WaitlistRuns.RunServes` | components/mm1-multinode/src/actors/multinode_manager.rs:676-799 | in every run whoever waits has a timer armed or a timeout queued and waits for an unregistered protocol, and each request has exactly one reply or waits under exactly one key, stale timeouts included |
| `WaitlistRuns.NobodyIsForgotten` | components/mm1-multinode/src/actors/multinode_manager.rs:781-799 | once no timer is armed and no timeout queued, every request has exactly one reply |

## Left out

- Sockets, acceptors and connectors, the node handshake, bincode and rmp encodings and frame headers: input and output over library formats.
- The internals of tokio, kanal, scc and slotmap, wakeups, metrics, tracing and logging: a channel is a sequence, a slot key an identifier not used before.
- Task abort and container errors: they skip the teardown, and the protocol model has no such step.
- Reuse of an address while a message that mentions it is under way: a new job takes an address nothing on its way mentions.
- Container exit while a fork context is still held elsewhere: a queue closes after the end of every fork has been queued.
- A `ForkDone` for a fork the container does not know panics (core/mm1-node/src/runtime/container.rs:373-410): the model has no step for it.
- Delivery of reports to the actor itself: they are recorded in order; a mailbox already closed loses them.
- Container.Container.FreshRef: the search does not end when all 2^64 references are taken; a free one is assumed.
- Container.Container.CallWatch: whether the target accepts the message is a parameter; the transition system decides it.
- `Trie` and `TrieOperations` work on values: the in-place replacement of boxed nodes is not modelled, only the trees before and after; masks are represented by their number of free bits.
- Pool.Pool.Drop: a lease is dropped once, by its owner; leases made by `Lease::trusted` belong to no pool.
- RouteRegistry.Registry.SetRoute: starts from tables whose networks are canonical and separate, as the documentation of the ranges demands of their users; where the new network meets several of them the search may or may not find one in the way.
- RouteRegistry.Registry.FindConflict: promises to find what is in the way only where at most one network is met; otherwise the order of the keys says nothing about the new one and a search of the index is unspecified.
- RouteRegistry.FindRoute: which of the cheapest candidates the hash of the address selects is left open.
- RouteRegistry.ContainsNet: asks tables whose networks are canonical and separate.
- Listing routes, and exchanging metrics between nodes: no more than filters, and one addition.
- Liveness of the supervisor actor around the deciders: it takes one action for each message it receives.
- A failing timer call in the protocol manager ends that actor; the runs of `WaitlistRuns` go on only while timer calls succeed.
- Codecs and routes registered along with a protocol: they do not touch the waitlist.
- AddressText.Parse: works on characters where the original works on bytes; texts outside ASCII have other lengths there and are refused in both, since none of their bytes is a digit.
- The uniform supervisor, the name server, the ask loop, configuration, log filters and the `dispatch!` macro: simpler bookkeeping next to the parts above.
