# Verified model of the etcd operator

A Dafny model of the parts of the operator whose correctness spans many steps: the two membership
controllers as one crash-prone protocol, the status report, the joiner's `--initial-cluster` flag, the
defragmentation sweep with its queue, deadline and cron policy, the in-place adoption of legacy clusters, the
restore agent, and the snapshot controller with the log marker it reads. `dafny verify dfyconfig.toml` checks
everything.

## How it is organised

* `Base` - shared vocabulary: `Option`, Go's string order, majorities.
* `Membership` - the protocol. A `World` holds the three stores (API server, etcd's member list and auth state,
  clock) and the place each worker has reached in its reconcile. `Next` is one interaction of anyone with a
  store; a worker can be cut off before any of its interactions, and users, the clock and other workers act in
  between. `MembershipInvariant`, `MembershipPreservation` and `MembershipWorker` hold the inductive invariant
  and its preservation, `MembershipRecords` more of what every run keeps; `MembershipTheorems` and
  `MembershipPause` hold what follows.
* `MembershipGhosts`, `MembershipRelease`, `MembershipRaces` - the guard on deletions, the theorem that under it
  no release leaves a ghost, and the races that show the guard is exact. `MembershipBare` - the deletion of a
  member that does not bear its finalizer yet.
* `MembershipProgress`, `MembershipRevival`, `MembershipConvergence`, `MembershipObstacles` - what undisturbed
  reconciles and member steps do, that some finite sequence of them converges, and what it cannot do without.
  `MembershipUndisturbed` - that no step of any schedule undoes the progress.
* `ClusterController` - the reconcile in imperative form: loops over the listing that choose the step, and a
  class whose every interaction is a step of the protocol.
* `InitialCluster` - peer URLs and the joiner's flag.
* `StatusReport` - `updateStatus` as a function on values and as a class that computes it in place.
* `Defrag`, `DefragRuns`, `DefragDeadline`, `DefragQueue`, `DefragController` - one run, what every sequence of
  passes keeps, the deadline, turn-taking between runs, and the in-place controller.
* `Schedule`, `DefragPolicy` - the catch-up walk over an abstract "least tick after", and the policy.
* `Adoption`, `AdoptionHandOff`, `AdoptionApply`, `AdoptionSafety`, `AdoptionTool`, `AdoptionOutcome` - the plan,
  the hand-over to `Membership`, the ordered writes, the tool that makes them, and that what they leave is the
  hand-over.
* `Restore` - the restore agent on a file system that keeps what an attempt had done when it was cut off.
* `SnapshotMarker`, `SnapshotController` - the marker line and the phase machine.

Controllers and tools are classes whose methods are proved equal to a function of the old state; the theorems
are about those functions and hold over every run.

## Assumptions

* Lists are fresh and there is one worker per object key; the cluster worker and the member workers interleave
  arbitrarily, and the decision of a reconcile may be stale by the time it acts.
* GenerateName never returns a name that was used before, and creation timestamps are strictly increasing.
* Nobody edits status by hand. etcd RPCs take effect or fail; a lost answer is a crash after the effect.
* A seed that starts on an empty data dir forms a one-member cluster only while the cluster ID is not latched.
* Member names contain no comma and no dot, and etcd gives live members distinct ids.

## What does not hold, and exactly when it does

* A finalizer dropped in a live, formed cluster while another member is active leaves no entry in etcd, provided
  that whoever deletes members spares two: a finalizer-bearing member that is being registered beside others, and
  the last active one while the reconcile in progress may still create another (it can dial, and has listed no
  pending record and no learner that stays) and some record that stays behind is a voter in etcd.
  `ReleasedWithoutGhost` proves it for every run that respects this guard; `GuardIsExact` proves that in every
  reachable state of a live cluster a deletion that the guard forbids can lead, with steps of workers alone after
  it, to exactly such a release of a registered member beside another; `GhostRunExists` and `StrandRunExists`
  reach such states from an ordinary start. Runs in which only scale-down deletes, on finalizer-bearing members,
  have no ghosts at all (`NoStrangers`).
* The comment in controllers/etcdcluster_controller.go:763-765 says that the finalizer covers a deletion in the
  middle of a scale-up. The reconcile that creates a member registers it in etcd before the member controller's
  first pass has added the finalizer; a member deleted in between is gone at once and nothing removes its entry
  (`BareGhostRunExists`, a run that respects the guard above). Deleting an active member without a finalizer can
  end with its entry beside an active member exactly when it is in etcd or being registered, if others are
  active, and exactly when it is in etcd and the reconcile in progress may still create another, if it is the
  last (`BareDeletionExactlyWhen`).
* With no more help from users, and calls that go through, a live, formed cluster in which some active member
  has joined and no removal was forgotten can reach its spec exactly when it is not frozen: the deadline has
  passed, the spec has nothing new, and the worker itself is still needed (`ConvergesExactlyUnlessFrozen`). It
  stays so: until a user acts, whatever fails and whoever crashes, no step takes it further from its spec but a
  Ready report that is withdrawn, and recovery stays possible unless a removal is forgotten (`RunNotAbove`,
  `AlwaysOnward`). A forgotten removal, or a Terminating member all of whose peers are half-made, holds up every
  change of the member count for good (`BlockedForever`); one crash after a create and one deletion of the last
  joined member suffice for that (`BlockedRunExists`). A formed cluster that is left without active members
  between two reconciles has no endpoint to dial and converges to nothing but zero replicas (`DesertedForever`).
* `memberNameFromPeerURL` inverts `peerURL` for dot-free names, except a name that starts with `https://` under
  the http scheme (`NameRoundTrip`, both directions).
* The run deadline outlasts every healthy sweep, whatever the calls that its passes make take within their
  timeouts, for up to seven members and for no more (`DeadlineFitsExactly`, from `SevenMembersFit` and
  `EightMembersMayNot`).
* A run that is created in the same second as a running one, with a smaller name, preempts it; arrivals keep the
  turn-taking exactly when they do not precede a run under way (`ArrivalPreempts`).
* A policy acts on its latest unhandled tick exactly when there is none, or the cutoff has not passed it and the
  window holds no more ticks than the walk allows (`ResumesExactlyWhen`); evenly spaced schedules always meet
  this (`EvenAlwaysResumes`). The comment in controllers/etcddefragpolicy_controller.go:123-125 says that a
  policy resumes at its most recent tick however far behind it is; on uneven schedules the code fails this in
  two ways: the window can be so long that it is too crowded and the policy stops (`UnevenPolicyStops`), or so
  short that it has lost the tick, which is then dropped in silence (`ShortWindowDrops`).
* A policy can stamp one tick twice only if a run is collected before its tick is recorded (`NoTickTwice`,
  `EarlyCollectionRepeats`).
* An adopted cluster is left alone exactly when its live members have distinct names
  (`QuietExactlyWhenDistinct`, with two members of one name in `SharedMemberName`).
* Re-running an interrupted adoption ends where an uninterrupted one does, unless the legacy headless Service
  bears the cluster's own name and nothing headless holds it (`RerunCompletes`, `SharedNameDiffers`).
* The snapshot marker is read back as printed exactly when the uri is not empty and `%q` escapes nothing in it
  (`MarkerRoundTrip`).
* A second Job for one snapshot is created exactly when a pass that finds no Job while Pending is recorded has its
  create accepted and its status write lost, and a later such pass finds no Job either
  (`SecondJobExactlyWhen`, with a history in `SecondJobHappens`); once Started is recorded there is none
  (`NoJobAfterStarted`).
* A crash of the restore agent between the rename and its deferred clean-up leaves the staged download in the data
  dir for good, because an initialized directory is left alone (`StagedDownloadStays`).

## Model

| member | source | states |
|---|---|---|
| MembershipWorker.RunInv | controllers/etcdcluster_controller.go:100-395 | from a fresh or an adopted cluster the inductive invariant of both controllers holds after every run, with crashes before any interaction |
| MembershipWorker.NextInv | controllers/etcdcluster_controller.go:737-870 | no single interaction of a controller, a user, the clock or etcd leaves the invariant |
| MembershipTheorems.ScaleUpSafe | controllers/etcdcluster_controller.go:766-963 | in every run at most one active non-bootstrap record has an empty initial cluster, etcd holds at most one learner, and no peer URL is registered twice |
| MembershipTheorems.CreatePoint | controllers/etcdcluster_controller.go:422-525 | only the two create points of the cluster worker assign a name |
| MembershipTheorems.CreatesAlone | controllers/etcdcluster_controller.go:766-870 | a scale-up record is created only when no active record is half-made or dormant and etcd has no learner |
| MembershipTheorems.OneRpcPerReconcile | controllers/etcdcluster_controller.go:886-992 | no reconcile of either controller issues a second membership RPC |
| MembershipTheorems.QuietListing | controllers/etcdcluster_controller.go:260-275 | no add, promote or scale-down delete is issued from a listing that contains a Terminating member |
| MembershipTheorems.VoterStep | controllers/etcdmember_controller.go:299-366 | one step changes the voter set by one member at most, and a learner add not at all |
| MembershipTheorems.QuorumsOverlap | controllers/etcdcluster_controller.go:969-992 | once the cluster has formed every majority before a step meets every majority after it |
| MembershipTheorems.ScaleDownTakesLearner | controllers/etcdcluster_controller.go:1297-1334 | a learner with a record is the newest active member, so the member at the head of the scale-down order is that learner |
| MembershipTheorems.DormantAlone | controllers/etcdcluster_controller.go:780-788 | a dormant member is the only active record, and while it sleeps nothing is created and only the wake step ends it |
| MembershipTheorems.WakePoint | controllers/helpers.go:493-503 | dormancy of a record is cleared by the cluster worker's wake step alone |
| MembershipTheorems.IdentityKept | controllers/etcdcluster_controller.go:1297-1334 | creation time, role, member ID and initial cluster of a record survive every step of anyone, pause and resume included |
| MembershipTheorems.LatchesHold | controllers/etcdcluster_controller.go:596-628 | cluster ID and authEnabled are never cleared or replaced |
| MembershipTheorems.StatusStep | controllers/etcdcluster_controller.go:174-258 | the status changes only at three points of the cluster worker, and how |
| MembershipTheorems.BootstrapOnce | controllers/etcdmember_controller.go:537-554 | at most one active seed in every run; a Pod with initial-cluster-state=new is built only for it, never after its member ID is recorded, and never after the cluster ID is latched when the parent read succeeds |
| MembershipTheorems.TargetLocked | controllers/etcdcluster_controller.go:2064-2208 | Observed changes only at first init, when the listing showed the previous target complete, or after a missed deadline of a formed cluster with a differing spec, and then equals the current spec |
| MembershipTheorems.BootstrapFailureIsFinal | controllers/etcdcluster_controller.go:2064-2120 | once the deadline passes with no cluster ID and a target above zero no later reconcile changes the status or creates a member, whatever the spec becomes |
| MembershipTheorems.AuthSafe | controllers/etcdcluster_controller.go:1139-1241 | auth turned on by the operator has a root user with the root role, authEnabled implies that etcd has auth on and that the cluster ID is latched, so anonymous discovery never meets a latched cluster |
| MembershipRelease.ReleasedWithoutGhost | controllers/etcdmember_controller.go:251-402 | in every guarded run, no finalizer dropped in a live, formed cluster while another member is active leaves an entry of its member in etcd |
| MembershipRaces.GuardIsExact | controllers/etcdcluster_controller.go:766-963 | in every reachable state of a live cluster, a deletion that the guard forbids can lead, with steps of workers alone after it, to the very release that the guarded runs exclude: of a member in etcd's list, beside an active one |
| MembershipRaces.InterruptionLeavesGhost | controllers/etcdcluster_controller.go:886-963 | so for the finalizer-bearing member that is being registered beside others: its finalizer finds etcd clean, then the worker registers it, then it is released |
| MembershipRaces.StrandingLeavesGhost | controllers/etcdcluster_controller.go:840-870 | so for the last active member while the worker may still create another: a member in etcd's list is let go as the last one and released after the new record appeared |
| MembershipRaces.GhostIsReachable | controllers/etcdcluster_controller.go:766-870 | from every healthy one-member adopted cluster asked to grow there is a run, and a deletion after it, that lead to the first such release |
| MembershipRaces.GhostRunExists | controllers/etcdcluster_controller.go:766-870 | such a start state exists |
| MembershipRaces.StrandRunExists | controllers/etcdmember_controller.go:299-334 | there is a start state and a guarded run after which deleting the last active member leads to the second such release |
| MembershipBare.BareDeletionExactlyWhen | controllers/etcdcluster_controller.go:858-963 | in every reachable state of a live, formed cluster, deleting an active member that has no finalizer yet can end with its entry in etcd, no record of it and an active member exactly when it is registered or being registered beside others, or is registered as the last one while another may still be created; otherwise no run whatever does |
| MembershipBare.BareGhostRunExists | controllers/etcdcluster_controller.go:763-765 | a run that respects the guard throughout and ends so: a joiner is created, registered and deleted before its finalizer is added |
| MembershipRecords.RunSane | controllers/etcdmember_controller.go:251-290 | in every run a Terminating record has its finalizer, only a member with a recorded ID is Ready, every active member of a formed cluster that has its flag is in etcd's list, and a dormant member has no record beside it |
| MembershipConvergence.Converges | controllers/etcdcluster_controller.go:100-395 | from every state of a live, formed cluster that is recoverable and not frozen, between two reconciles, a finite sequence of worker steps whose calls go through reaches the spec: adopted, count met, all Ready, no learner, auth latched if asked for; by a lexicographic rank that every phase lowers |
| MembershipConvergence.NewClusterConverges | controllers/etcdcluster_controller.go:174-258 | a cluster that a user has just created reaches its spec without further help |
| MembershipConvergence.BootstrapConverges | controllers/etcdcluster_controller.go:422-628 | so does one that crashed before, between or after the creation and the patch of its seed |
| MembershipObstacles.ConvergesExactlyUnlessFrozen | controllers/etcdcluster_controller.go:2064-2120 | a recoverable cluster can converge exactly when it is not frozen |
| MembershipObstacles.FrozenForever | controllers/etcdcluster_controller.go:2090-2108 | a frozen cluster never completes its target, whatever the workers, the clock and the network do, until a user acts |
| MembershipObstacles.ReachedClusterConverges | controllers/etcdcluster_controller.go:737-765 | convergence from every state that any run reaches, once the cluster worker is restarted |
| MembershipObstacles.BlockedForever | controllers/etcdmember_controller.go:299-382 | a Terminating member whose removal was forgotten, or whose peers are all half-made, keeps a cluster whose count must change from ever converging |
| MembershipObstacles.BlockedRunExists | controllers/etcdmember_controller.go:318-334 | a run to such a state: a crash after the create of a joiner, then the deletion of the only joined member |
| MembershipObstacles.DesertedForever | controllers/etcdcluster_controller.go:793-812 | a formed cluster without active members between two reconciles meets its spec in no later state, whatever anyone does, unless the spec then asks for no members |
| MembershipUndisturbed.StepNotAbove | controllers/etcdcluster_controller.go:100-395 | at any point of any worker of a live, formed cluster, no step but a user's or a withdrawn Ready report raises the rank: not a failed call, a crash, a stale decision or the clock |
| MembershipUndisturbed.RunNotAbove | controllers/etcdcluster_controller.go:737-765 | in every undisturbed run the rank never rises and the cluster stays recoverable |
| MembershipUndisturbed.AlwaysOnward | controllers/etcdcluster_controller.go:100-395 | after every undisturbed run that ends between two reconciles, unless the cluster is frozen, steps that go through converge or lower the rank |
| MembershipProgress.PendingCompleted | controllers/etcdcluster_controller.go:737-765 | a half-made record is finished by the next undisturbed reconcile from either side of the crash window, registered only if it was not, with a flag that names every registered member and itself |
| MembershipProgress.MemberJoins | controllers/etcdcluster_controller.go:766-963 | a Ready cluster with members, below its target gains one record, registered as a learner, with a complete flag |
| MembershipPause.NoStrangers | controllers/etcdmember_controller.go:299-402 | when only scale-down deletes, on finalizer-bearing members, etcd never lists a member without a record, and the eldest member of a formed cluster is active and a voter |
| MembershipPause.PauseFindsSurvivor | controllers/etcdcluster_controller.go:1297-1334 | when the 1 to 0 pause fires etcd's member list is exactly the surviving member, a voter |
| MembershipPause.ScaleDownNeverTakesVoter | controllers/etcdcluster_controller.go:1297-1334 | in those runs scale-down with a learner present deletes that learner and never a voter |
| ClusterController.Choose | controllers/etcdcluster_controller.go:174-395 | the loops over the listed members reach exactly a decision of the protocol |
| ClusterController.Newest | controllers/etcdcluster_controller.go:1297-1310 | the chosen victim is newest by creation time, then by name |
| ClusterController.FilterRunning | controllers/helpers.go:474-487 | the running members, each once, and their number |
| ClusterController.FindPending | controllers/etcdcluster_controller.go:997-1013 | a pending member if there is one, none only if there is none |
| ClusterController.FindDormant | controllers/helpers.go:493-503 | a dormant member if there is one, none only if there is none |
| ClusterController.AllMembersReady | controllers/etcdcluster_controller.go:1111-1128 | true exactly when every running member is Ready |
| ClusterController.HasPendingBootstrap | controllers/etcdcluster_controller.go:1339-1347 | true exactly when a running seed has no initial cluster |
| ClusterController.Reconciler.Reconcile | controllers/etcdcluster_controller.go:100-395 | a reconcile, with others acting in between and a crash anywhere, is a run of the protocol of at most seven interactions that leaves the worker idle and the invariant in force |
| InitialCluster.NameRoundTrip | controllers/helpers.go:510-520 | memberNameFromPeerURL inverts peerURL for both schemes exactly on dot-free names that do not themselves look like a URL under http |
| InitialCluster.BuildInitialCluster | controllers/etcdcluster_controller.go:922-945 | the flag is the sorted join of one name=peerURL entry per listed member that has a peer URL and a recoverable name |
| InitialCluster.FlagOrderIndependent | controllers/etcdcluster_controller.go:922-945 | two listings of the same members in any order give the same flag |
| InitialCluster.FlagEntries | controllers/etcdcluster_controller.go:922-945 | split at commas, the flag holds every entry as often as the listing has a member for it |
| InitialCluster.JoinerInFlag | controllers/etcdcluster_controller.go:886-963 | on both sides of the crash window the flag is not empty and contains the joiner's own entry |
| StatusReport.ReportIsFixedPoint | controllers/etcdcluster_controller.go:1359-1559 | a second pass over the same members and pending result changes nothing, however late it comes |
| StatusReport.HealthIsTruthful | controllers/etcdcluster_controller.go:1446-1506 | on a non-paused cluster either every known voter is Ready and health is left as it was, or Available holds iff the Ready members are a majority of the target and Degraded iff ready differs from desired |
| StatusReport.SettledExactly | controllers/etcdcluster_controller.go:1508-1534 | Reconciled is stamped and the deadline dropped exactly when nothing is pending and the target is met; otherwise Progressing and the deadline stay |
| StatusReport.PausedIsQuiet | controllers/etcdcluster_controller.go:1448-1488 | a paused cluster is not Available, Degraded or Progressing and has no deadline |
| StatusReport.SaidEffect | controllers/etcdcluster_controller.go:2241-2262 | setting a condition makes the list say it, moves no other condition, and changes the list exactly if it did not say so before |
| StatusReport.SinceMovesOnFlip | controllers/helpers.go:587-602 | the transition time moves only when the status flips |
| StatusReport.ClusterStatus.SetCondition | controllers/helpers.go:587-602 | in-place upsert equals the specified list |
| StatusReport.ClusterStatus.UpdateStatus | controllers/etcdcluster_controller.go:1359-1559 | the in-place computation equals the specified report, and asks for a write exactly when something changed |
| Defrag.PlanIsPermutation | controllers/etcddefrag_controller.go:485-500 | the planned rows are a permutation of the running members, all pending, with at most one leader row, in last place |
| Defrag.OneLeaderRow | controllers/etcddefrag_controller.go:438-466 | members that agree on a leader yield at most one leader row |
| DefragRuns.StepKeepsOk | controllers/etcddefrag_controller.go:102-266 | every pass keeps: distinct rows, rows settled front to back, leader last, Defragmented equals the count of Defragmented rows, Complete only with every row settled and none failed |
| DefragRuns.SweepProgress | controllers/etcddefrag_controller.go:186-266 | a healthy pass settles exactly one waiting row, or with none left closes the run, Complete iff no row failed |
| DefragRuns.CounterCountsCalls | controllers/etcddefrag_controller.go:237-266 | the counter moves by one exactly when a Defragment call was made and succeeded |
| DefragRuns.CallsAreSafe | controllers/etcddefrag_controller.go:169-266 | a Defragment call goes out only on a healthy cluster, to a listed member whose row is next, and to the leader's row only when it is the last |
| DefragRuns.RunContinues | controllers/etcddefrag_controller.go:110-137 | from any point of any run on, settled rows, the start time and a terminal status never change |
| DefragRuns.SweepBudget | controllers/etcddefrag_controller.go:186-266 | while a run is open the number of written sweep passes equals the number of settled rows, so n members take at most n + 1 |
| DefragRuns.SweepsExhaust | controllers/etcddefrag_controller.go:193-196 | a run that took more sweep passes than it has rows is terminal with no row waiting |
| DefragRuns.RunOk | controllers/etcddefrag_controller.go:102-266 | the invariant holds after every sequence of passes, each written back or lost |
| DefragRuns.RunBalances | controllers/etcddefrag_controller.go:524-545 | in every run a row's reclaimed bytes are exactly before minus after, and rows that were not defragmented or not measured claim none |
| DefragDeadline.SweepClosesIffInTime | controllers/etcddefrag_controller.go:677-682 | a healthy sweep closes its run with every row settled exactly when its last deadline check is in time |
| DefragDeadline.WorstCaseFits | controllers/etcddefrag_controller.go:49-72 | n(325+5n) is within the deadline of 2715 seconds exactly for n up to 7 |
| DefragDeadline.SevenMembersFit | controllers/etcddefrag_controller.go:49-72 | for at most seven members a healthy sweep reaches finalize in time, whatever the calls its passes make take within their timeouts |
| DefragDeadline.EightMembersMayNot | controllers/etcddefrag_controller.go:221-266 | for every larger size and every rule there is a healthy sweep that the deadline kills, in which time is spent only in calls that the pass makes, each within its timeout |
| DefragDeadline.DeadlineFitsExactly | controllers/etcddefrag_controller.go:63-72 | every healthy sweep of n members within its timeouts closes its run, exactly for n up to seven |
| DefragQueue.OldestActive | controllers/etcddefrag_controller.go:609-634 | the result is the least non-terminal run of the cluster by creation time and name, empty iff there is none |
| DefragQueue.OnlyHeadAdvances | controllers/etcddefrag_controller.go:123-137 | only the oldest open run's work list moves |
| DefragQueue.ArrivalPreempts | controllers/etcddefrag_controller.go:627-632 | an arrival breaks the turn-taking exactly when it precedes a run under way |
| DefragQueue.PreemptedRunWaits | controllers/etcddefrag_controller.go:123-137 | a preempted run is sent back to Pending by its next pass with its work list untouched |
| DefragQueue.OneSweepAtATime | controllers/etcddefrag_controller.go:123-137 | in every orderly history at most one run of a cluster is in mid-sweep, and it is the oldest open one |
| DefragQueue.IncreasingTimesAreOrderly | controllers/etcddefrag_controller.go:627-632 | histories whose runs are created at strictly increasing times are orderly |
| DefragController.ClusterHealthy | controllers/etcddefrag_controller.go:438-466 | the loop accepts exactly a cluster whose desired members are all reachable, unblocked and name one leader |
| DefragController.PlannedMembers | controllers/etcddefrag_controller.go:485-500 | the loop builds the specified plan |
| DefragController.EtcdDefrag.MarkMember | controllers/etcddefrag_controller.go:524-545 | marking by name changes the one row of that name and no other |
| DefragController.EtcdDefrag.Finalize | controllers/etcddefrag_controller.go:636-664 | closes the run as Failed iff some row failed |
| DefragController.EtcdDefrag.Reconcile | controllers/etcddefrag_controller.go:102-266 | the in-place reconcile equals the specified step and keeps the invariant |
| Schedule.NextIsLeast | controllers/etcddefragpolicy_controller.go:290-308 | the abstract Next gives a tick, and none lies before it |
| Schedule.NextSchedule | controllers/etcddefragpolicy_controller.go:290-308 | returns the greatest tick in (earliest, now] and the next tick, giving up exactly when more than maxCatchup + 1 ticks lie there |
| Schedule.LatestIsGreatest | controllers/etcddefragpolicy_controller.go:283-289 | the due tick is the greatest of the window and the one after it the least past now |
| Schedule.CountIsCardinality | controllers/etcddefragpolicy_controller.go:290-308 | walking from tick to tick counts the ticks of the window |
| Schedule.LookbackFloor | controllers/etcddefragpolicy_controller.go:313-324 | twice the widest of the next four gaps |
| Schedule.EvenSeesTwo | controllers/etcddefragpolicy_controller.go:310-324 | with evenly spaced ticks and no deadline the walk sees at most two ticks however far behind |
| Schedule.HourlyIsEven | controllers/etcddefragpolicy_controller.go:310-324 | an hourly schedule is evenly spaced, so the premise can be met |
| Schedule.UnevenOverflows | controllers/etcddefragpolicy_controller.go:313-324 | on a schedule of every minute of one hour a day the window can hold more ticks than the walk allows |
| DefragPolicy.AnchorAdvances | controllers/etcddefragpolicy_controller.go:115-199 | every write of lastScheduleTime moves it strictly forward to the greatest tick not after now, whatever the clock did |
| DefragPolicy.AnchorNeverMovesBack | controllers/etcddefragpolicy_controller.go:115-199 | over every history lastScheduleTime never moves back |
| DefragPolicy.ResumesExactlyWhen | controllers/etcddefragpolicy_controller.go:115-152 | for every schedule and clock the policy acts on its latest unhandled tick exactly when there is none, or the cutoff has not passed it and the window is not crowded |
| DefragPolicy.EvenAlwaysResumes | controllers/etcddefragpolicy_controller.go:119-136 | an evenly spaced policy without a deadline acts on its latest unhandled tick however far behind |
| DefragPolicy.UnevenPolicyStops | controllers/etcddefragpolicy_controller.go:119-152 | first failure: on a busy-hour schedule a policy far enough behind acts on no tick although one is unhandled, because the window is crowded |
| DefragPolicy.ShortWindowDrops | controllers/etcddefragpolicy_controller.go:119-152 | second failure: before the busy hour the window is two minutes long, and the last unhandled tick is dropped with no backlog reported |
| DefragPolicy.NoTickTwice | controllers/etcddefragpolicy_controller.go:169-222 | over every history, with passes cut between Create and status write, no tick is stamped twice as long as a run outlives the recording of its tick |
| DefragPolicy.EarlyCollectionRepeats | controllers/etcddefragpolicy_controller.go:169-199 | otherwise the same tick is stamped again |
| DefragPolicy.SameKeySameTick | controllers/etcddefragpolicy_controller.go:206-210 | for ticks on whole minutes the run name identifies the tick |
| DefragPolicy.EtcdDefragPolicy.Reconcile | controllers/etcddefragpolicy_controller.go:115-199 | the in-place reconcile equals the specified visit, and wakes up only for a later tick |
| Adoption.BuildAdoption | internal/migrate/adopt.go:156-331 | refuses exactly an untranslatable spec, a learner or a member without a Pod; otherwise lists every live member once in name order with a non-seed record, etcd's own peer URLs, the live replica count and the prefilled status |
| AdoptionHandOff.PlanRecords | internal/migrate/adopt.go:236-303 | every planned record is no seed, has a non-empty flag and stands for a live voter |
| AdoptionHandOff.HandOverIsStart | internal/migrate/adopt.go:236-318 | the handed-over state is a start state of the membership protocol, so all its theorems apply |
| AdoptionHandOff.HandOverIsQuiet | controllers/etcdcluster_controller.go:174-366 | from the hand-over on no reconcile bootstraps, creates, deletes, adds, promotes or parks a member or re-adopts the spec, until a user edits or deletes something |
| AdoptionHandOff.QuietExactlyWhenDistinct | internal/migrate/adopt.go:222-234 | on a Ready cluster the first reconcile is quiet exactly when the live member names are distinct |
| AdoptionHandOff.SharedMemberName | internal/migrate/adopt.go:222-234 | a plan and a hand-over with two live voters of one name, after which the first reconcile sets out to scale up |
| AdoptionApply.ReplaceRefOwners | cmd/etcd-migrate/apply_adopt.go:338-350 | afterwards the new owner is the only controller and other owners are kept |
| AdoptionApply.ReplaceRefTwice | cmd/etcd-migrate/apply_adopt.go:335-350 | replacing the controller reference again changes nothing |
| AdoptionApply.FilterOwners | cmd/etcd-migrate/apply_adopt.go:338-349 | the filter that reuses its own slice keeps exactly the kept owners in order |
| AdoptionSafety.RerunCompletes | cmd/etcd-migrate/apply_adopt.go:49-176 | after any number of attempts cut anywhere, one more run reaches the state of an uninterrupted one |
| AdoptionSafety.SharedNameDiffers | cmd/etcd-migrate/apply_adopt.go:184-272 | when the legacy headless Service bears the cluster's name and nothing headless holds it, a second complete run ends elsewhere |
| AdoptionSafety.PodsSafeThroughout | cmd/etcd-migrate/apply_adopt.go:33-48 | for every job, wherever attempts stop no Pod belongs to an EtcdMember while the StatefulSet exists |
| AdoptionSafety.ServiceSafeThroughout | cmd/etcd-migrate/apply_adopt.go:33-48 | wherever attempts stop the legacy cluster is gone only once the members own the headless Service or there is none, and that Service is never garbage, unless it shares the cluster's name |
| AdoptionSafety.LegacyIsSafe | cmd/etcd-migrate/apply_adopt.go:49-60 | a legacy cluster nobody has started to adopt satisfies both safety conditions |
| AdoptionSafety.StepsOrdered | cmd/etcd-migrate/apply_adopt.go:49-176 | every step comes after the steps it relies on |
| AdoptionSafety.DoneKept | cmd/etcd-migrate/apply_adopt.go:49-176 | no step undoes another |
| AdoptionSafety.AdoptionCompletes | cmd/etcd-migrate/apply_adopt.go:112-176 | after a complete run each member's record is filled in and the member alone controls its Pod and volume, the legacy control plane is gone and the native headless Service is in place |
| AdoptionTool.Tool.ApplyAdoption | cmd/etcd-migrate/apply_adopt.go:49-176 | the tool does exactly the prefix of the steps its lifetime allows, up to the first error, and reports success iff it did them all |
| AdoptionOutcome.AdoptionHandsOver | cmd/etcd-migrate/apply_adopt.go:58-103 | for every plan, from a store without new objects, after any number of cut attempts and a complete one the records in the API are the hand-over that the controllers start on |
| AdoptionOutcome.AdoptedClusterIsQuiet | cmd/etcd-migrate/apply_adopt.go:49-176 | so with distinct member names nothing changes the membership of an adopted cluster, however often the tool was cut, until a user acts |
| Restore.DoublingIsExact | internal/agent/restore.go:350-368 | the unsigned doubling is exact for every non-negative int64 and for no negative one |
| Restore.Agent.CleanStale | internal/agent/restore.go:259-273 | on success no staged download and no staging directory is left |
| Restore.Agent.Fetch | internal/agent/restore.go:280-293 | no download starts unless the reported free space covers twice the non-negative size |
| Restore.Agent.RunRestore | internal/agent/restore.go:35-141 | whatever fails or wherever it is cut member/ is absent or the complete rebuild, an initialized directory is untouched, at most one download is staged, and an attempt nothing goes wrong with completes |
| Restore.RunAttempts | internal/agent/restore.go:35-141 | over any sequence of attempts the directory never changes once member/ is present |
| Restore.StagedDownloadStays | internal/agent/restore.go:112-141 | a crash between the rename and the deferred removal leaves the download, and no later attempt removes it |
| SnapshotMarker.ParseMarker | controllers/etcdsnapshot_controller.go:261-277 | the leftmost match with the shortest uri, or a size overflow, or no marker iff nothing matches |
| SnapshotMarker.MarkerRoundTrip | controllers/etcdsnapshot_controller.go:36-39 | in a log without an earlier marker the printed uri, size and digest are read back exactly when the uri is not empty and nothing in it is escaped |
| SnapshotMarker.AgentLineRoundTrip | internal/agent/snapshot.go:173-175 | the same for the very line the agent prints after any complete lines without a marker |
| SnapshotMarker.GoEscapes | internal/agent/snapshot.go:173-175 | the characters that are printed as they are |
| SnapshotController.RunOk | controllers/etcdsnapshot_controller.go:283-303 | after every history Ready is true iff the phase is Complete, and an artifact is there iff it is Complete |
| SnapshotController.RunContinues | controllers/etcdsnapshot_controller.go:83-89 | the phase only moves forward and a terminal status never changes |
| SnapshotController.NoJobAfterStarted | controllers/etcdsnapshot_controller.go:134-167 | once Started is recorded no further Job is created, however stale the cache |
| SnapshotController.SecondJobExactlyWhen | controllers/etcdsnapshot_controller.go:134-167 | a second Job is created exactly when two passes find Pending recorded, the cluster ready to be snapshot, no Job in the cache and their create accepted, and the status write of the first is lost |
| SnapshotController.SecondJobHappens | controllers/etcdsnapshot_controller.go:134-167 | a history that creates two Jobs |
| SnapshotController.ArtifactFromLog | controllers/etcdsnapshot_controller.go:187-197 | a recorded artifact was read from a log |
| SnapshotController.EtcdSnapshot.Reconcile | controllers/etcdsnapshot_controller.go:75-201 | the in-place reconcile equals the specified step and says whether it created a Job |

## Left out

- MembershipConvergence.Converges: states that a converging sequence of worker steps exists; that every fair schedule runs through it is not stated, only that no step undoes progress and that some always makes it (`RunNotAbove`, `AlwaysOnward`). A removal done and then forgotten is excluded, because MemberRemove is then called again and fails (`BlockedForever`).
- Whether a formed cluster whose active members are all half-made can converge: the model lets the endpoint of a record without a Pod be dialled, the network would not.
- The self-heal gate of the member controller (`clusterHasQuorumWithout`, lost memory members, terminal Pods): its deletions are covered as deletions by anyone, its own quorum condition is not modelled.
- A seed whose volume is lost after the cluster ID was latched and which forms a second cluster.
- The cert-manager gate, the refusal to act on members of a foreign cluster and the conditions written by the protocol; conditions are modelled in `StatusReport` only.
- `syncIsVoter`, endpoint lists and role labels: mirrors of etcd's member list that no modelled decision reads; `StatusReport` takes the voter flag as given.
- The PodDisruptionBudget: its floor is one formula.
- Pod, Job, Certificate and Service construction, TLS material, Secret reads and real clients: calls succeed, fail or die.
- Text of condition messages, events and log lines: messages are constructors, not formatted strings.
- ClusterController.Reconciler.Reconcile: the victim is found by a scan where the source sorts and takes the head.
- DefragQueue.OldestActive: likewise a scan where the source sorts.
- Leadership transfer before a leader is defragmented and the disarming of NOSPACE alarms: best-effort calls that change no status; only the time they may take is modelled.
- The float arithmetic of the quota percentage: compared exactly.
- Time-to-live and history deletion of finished runs: deletions by anyone.
- Cron parsing and time zones: Next is an abstract function, assumed to have a next tick for every time.
- Translation of the legacy spec: an arbitrary input to `BuildAdoption`; member TLS derivation is not modelled.
- AdoptionSafety.RerunCompletes: assumes that nobody else writes the objects between attempts, as both operators are down; the awaited deletions are single steps.
- AdoptionOutcome.AdoptionHandsOver: the fields that only Pods read (annotations, token, Pod and volume names of the prefilled status) are written by the steps and not read by the protocol.
- Writing the snapshot file, its hash and its upload in the snapshot agent; only the printed marker is modelled.
- SnapshotMarker.MarkerRoundTrip: which characters outside ASCII are printable is a parameter.
