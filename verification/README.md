# The pool manager's protocol, verified

battery's pool manager keeps pools of microVMs warm and leases them out. Every store method is one
transaction on one connection, but ClaimVM, ReleaseVM, Heartbeat, Provision, the sweeper, the pool
and host RPCs and the reconcilers are sequences of such transactions and flintlock calls that
interleave freely, each holding records it read earlier. This project models that protocol and
proves what every interleaving keeps.

It has two layers over the same table functions (`transactions.dfy`).

**The protocol** (`protocol.dfy`) is one transition system. Its state is the tables, the microVMs
flintlock really runs, the reconciler manager, the pool locks and a program point with its held
record for every call in flight. One action is one transaction, one flintlock answer or one step of
a reconciler; the environment chooses which call moves, whether the store or flintlock answers,
fresh identifiers, hosts and times. A disabled action changes nothing, so every list of actions is a
run. Each point has a plan, the effect it has on the state, and a step applies the plan.
`invariant.dfy` states the inductive invariant; `claim_steps.dfy` to `admin_steps.dfy` prove it
point by point, `runs.dfy` lifts it to runs. `plans.dfy`, `frames.dfy` and `guarantees.dfy` say what
each action may change, `environment.dfy` what every action other than a call's step and a restart
leaves alone, and `traces.dfy`, `staffing.dfy` and `replies.dfy` follow a single VM, pool or answer
through a plan. The `*_theorems.dfy` files, `accounting.dfy`, `capacity.dfy`, `leaks.dfy`,
`outcomes.dfy` and `fates.dfy` prove the promises over whole runs. `lifecycle.dfy` lists every
change of a VM row by phase and by whom; on it build `takedowns.dfy` (nothing is deleted before its
row is DELETING), `running.dfy` (what the rows say runs does run) and `lease_terms.dfy` (a lease
holds until its expiry time). `specs.dfy` says which pool spec a call goes by, `decisions.dfy` what
a reconciler decides.

**The code as written** is a set of classes and methods with the source's loops: the store
(`store.dfy`), deletion and the hook failure policy (`deletion.dfy`), the lease service
(`lease_service.dfy`, with the sweeper in `lease_laws.dfy`), the provisioner (`provisioner.dfy`),
the sweeper (`sweeper.dfy`, specified in `sweeping.dfy`, `warnings.dfy` and `reports.dfy`), startup
recovery (`recovery.dfy`), counting and provisioning (`reconcile.dfy`), the manager (`manager.dfy`)
and the event subscription (`events.dfy`). Each store method equals the table function that the
protocol's steps use, and each manager method the manager function they use. Beside that equation a
method says by rows, fields and phases what it leaves, so that the table functions are not their own
specification.

What the model assumes of its surroundings: uids, lease ids and placement ids are fresh; a write
that answers with an error changed nothing; a failed create created nothing, except that it may
answer without a uid; a failed delete may or may not have deleted; an orphan whose record and delete
both fail is counted as leaked, and so is a microVM without a row when the server crashes. Names and
ids are integers, times are integers and hooks are booleans. Failures are chosen by the environment.
Those the code cannot recover from until a restart, or only by hand, are recorded in the state
(`leaked`, `stranded`, `unreleased`), so that the theorems say exactly which VMs and reservations
they exclude: `leaked` holds a microVM whose create answered without its uid, an orphan whose record
and delete both failed, and a microVM that a crash between the create's answer and its row left
running; `stranded` a VM whose failure-policy write got no answer; `unreleased` a reservation whose
release got none.

## Model

| member | source | states |
|---|---|---|
| `Runs.EveryRun` | internal/store/sqlite.go:35-38 | every state reachable by any interleaving of calls, sweeps, drains, reconcilers and restarts satisfies the invariant |
| `Runs.NextKeeps` | internal/store/sqlite.go:35-38 | every action of the system, from any state that satisfies the invariant, keeps it |
| `Runs.StepKeepsInv` | internal/api/lease.go:124-204 | every transaction or flintlock answer of any call keeps it, whatever stale record the call holds |
| `Runs.ClaimFirstKeeps` | internal/api/lease.go:124-167 | the first half of ClaimVM, up to the hooks, keeps the invariant |
| `Runs.ClaimLastKeeps` | internal/api/lease.go:188-269 | LeaseVM, the yield after a lost race and the replay keep it |
| `Runs.DeleteKeeps` | internal/reconciler/provision.go:412-508 | the hook failure policy, the flintlock delete and the row removal keep it |
| `Runs.ReleaseKeeps` | internal/api/lease.go:402-458 | ReleaseVM keeps it |
| `Runs.ClosingKeeps` | internal/reconciler/provision.go:607-637 | FinishVMRelease and FinishVMDeletion keep it |
| `Runs.BeatKeeps` | internal/api/lease.go:364-390 | Heartbeat keeps it |
| `Runs.ExpiryKeeps` | internal/reconciler/sweeper.go:221-254 | beginExpiry keeps it |
| `Runs.CreateKeeps` | internal/reconciler/provision.go:159-242 | a reservation, a create and the row that replaces the reservation keep it |
| `Runs.BootKeeps` | internal/reconciler/provision.go:243-320 | the create hooks and the move to AVAILABLE keep it |
| `Runs.UndoKeeps` | internal/reconciler/provision.go:328-338 | the skipped failure policy, the orphan record and the late release keep it |
| `Runs.PoolWriteKeeps` | internal/api/pooladmin.go:211-259 | the locked check and write of CreatePool and UpdatePool keep it |
| `Runs.PoolRestartKeeps` | internal/api/pooladmin.go:300-354 | UpdatePool's stop and restart of the reconciler, without waiting, keeps it |
| `Runs.DelStopKeeps` | internal/api/pooladmin.go:367-400 | DeletePool's lock, lookup and stop keep it |
| `Runs.DelWaitKeeps` | internal/api/pooladmin.go:400-433 | its wait, its transaction, its events and the restart after a refusal keep it |
| `Guarantees.NextFollows` | internal/store/sqlite.go:405-440 | what every action may do to rows, births, orphans, reservations and leases, as a two-state guarantee used by the run theorems |
| `HostTheorems.ZeroMeansEmpty` | internal/store/sqlite.go:1170-1181 | a host that counts zero has no live microVM but recorded leaks, and no create in flight |
| `HostTheorems.SafeToTakeDown` | internal/store/sqlite.go:1118-1181 | once a cordoned host counts zero it stays at zero, empty and with no create in flight, along every run until it is uncordoned or added again, apart from microVMs already recorded as leaked when it counted zero |
| `Leaks.LeaksExactly` | internal/reconciler/provision.go:208-242 | a microVM becomes a leak if and only if a create made it without answering with a uid, an orphan's record and delete both failed, or the server crashed while it had no row |
| `Leaks.NoLeakIffNoCause` | internal/reconciler/provision.go:481-508 | a run from a state without leaks ends without one if and only if none of its actions was one of these three causes |
| `Leaks.EmptyMeansEmpty` | internal/store/sqlite.go:1170-1181 | in a run without such a cause, a cordoned host that counts zero runs no microVM at all, and stays so along every run until it is uncordoned or added again |
| `Leaks.CrashLeaks` | internal/reconciler/provision.go:208-242 | without that condition the promise is false: a run in which every answer succeeds, the server crashes between the create's answer and the row, and a cordoned host counts zero with a microVM running |
| `HostTheorems.LoadNeverGrows` | internal/reconciler/provision.go:302-338 | while a host is cordoned, its reservations without a row plus its rows never increase, at any step |
| `HostTheorems.DrainOnlyShrinks` | internal/store/sqlite.go:1005-1053 | the same over every run until the host is uncordoned or added again, through which it stays cordoned |
| `TableTheorems.HostRowChanges` | internal/store/sqlite.go:974-1053 | of all actions only a cordon or a drain of a host changes its row, field by field: a cordon leaves the drain fields, an uncordon ends the drain, a drain keeps times and a reason already there; new hosts are neither cordoned nor draining |
| `TableTheorems.HostGoesIff` | internal/store/sqlite.go:875-937 | RemoveHost unregisters a host if and only if no pool, row or reservation names it and no pool write is between its check and its write |
| `TableTheorems.NewReservations` | internal/store/sqlite.go:1118-1154 | of all actions only a Provision call about to create makes a reservation, for its pool, on a host its spec names that is registered and not cordoned |
| `TableTheorems.ReservationsGo` | internal/store/sqlite.go:1156-1168 | a reservation goes only by the call that made it or by a restart |
| `LeaseTheorems.OneLeaseForLife` | internal/store/sqlite.go:597-614 | two lease rows, however far apart in a run, name the same VM only if they are the same lease |
| `LeaseTheorems.EndedStaysEnded` | internal/store/sqlite.go:577-595 | a lease that ended never comes back, and while it lasts keeps its VM, pool and request id |
| `LeaseTheorems.LeaseAndVmAgree` | internal/store/sqlite.go:405-440 | whenever a lease row and its VM row both exist, the VM carries that lease id and is LEASED or DELETING |
| `ClaimTheorems.OneLeasePerRequest` | internal/store/sqlite.go:577-625 | in every reachable state two lease rows with the same request id are the same lease |
| `ClaimTheorems.RetryTakesNothing` | internal/api/lease.go:139-147 | a claim retried with the request id of a lease takes no VM, at any point of any run, for as long as that lease row is there |
| `Running.AnswersRun` | internal/api/lease.go:210-269 | at the moment a claim answers OK, replayed or not, in any run, the VM of the lease it names is a row of the pool asked for, LEASED, and flintlock runs it on the host in the row |
| `ClaimTheorems.AnswersWereLeases` | internal/api/lease.go:210-235 | every OK answer to a claim names a lease of the asked pool with the asked request id whose row was in the table at some moment of the run after the call began |
| `ClaimTheorems.LoserYields` | internal/api/lease.go:245-269 | the loser of a race on a request id never leases its VM: once its write is answered, and until another call claims the VM, the VM has no lease and is AVAILABLE without a lease id, DELETING or gone, in every continuation of every run; unanswered, the VM is spoiled by the failure policy for good |
| `LeaseTheorems.WhyLeasesEnd` | internal/store/sqlite.go:692-731 | a lease row goes by a release, by an expiry whose now is at or after the expiry time in the row, or by its pool's delete, which without force happens only while no row of the pool is LEASED or PRE_LEASE_HOOK_RUNNING; and by nothing else |
| `LeaseTheorems.OnlyHeartbeatsRewrite` | internal/store/sqlite.go:655-664 | only a heartbeat that was answered rewrites a lease row: heartbeatAt becomes its now, expiresAt its now plus its threshold, and id, VM, pool, claimedAt and request stay |
| `LeaseTheorems.ExpiredHasNoLease` | internal/reconciler/sweeper.go:221-254 | a VM that an expiry is deleting has no lease row |
| `LeaseTerms.NewLeases` | internal/api/lease.go:124-204 | every lease row any action adds is of a claim that commits: a new id, the VM it claimed, the pool and request id asked for, claimedAt and heartbeatAt the time of the commit, expiresAt one threshold later; and that VM, claimed until then, is LEASED under it |
| `LeaseTerms.LeaseHolds` | internal/store/sqlite.go:692-731 | along every run, until a step of its release, a heartbeat write for it, a forced delete of its pool or an expiry at or after its expiry time, a lease row and the row of its LEASED VM stay exactly as they are and the microVM runs, whatever drains, sweeps, claims, pool deletes without force and crashes happen |
| `LeaseTerms.HeartbeatHolds` | internal/api/lease.go:364-390 | after a heartbeat wrote its expiry time, no expiry before that time touches the lease or its VM in any continuation of any run, until the next heartbeat, a release or a forced pool delete |
| `LeaseTerms.ClaimHolds` | internal/api/lease.go:188-204 | the same from the commit of a claim on, for the pool's expiry threshold |
| `LeaseTerms.ExpiryIsFinal` | internal/store/sqlite.go:692-731 | an expiry that is answered, at or after the expiry time in the row, ends the lease for good, in every continuation of every run; before that time it ends none |
| `LeaseTerms.FinishEndsLease` | internal/reconciler/provision.go:607-637 | under any interleaving, in every run in which its own steps are answered, FinishVMDeletion is still at it or the lease the removed VM carried has ended |
| `Specs.ClaimTermsWereRead` | internal/api/lease.go:131-137 | the spec a claim commits its lease under, threshold and all, was the row of the pool asked for at some moment of the run after the call began |
| `Specs.ThresholdWasRead` | internal/api/lease.go:364-390 | the threshold a heartbeat renews by was that of the lease's pool at some moment after the call began |
| `RowTheorems.DeletingIsFinal` | internal/store/sqlite.go:405-440 | a DELETING row stays DELETING until it goes, whatever stale records are written back |
| `RowTheorems.GoneStaysGone` | internal/store/sqlite.go:442-476 | once it has gone, its uid never has a row again |
| `RowTheorems.DrainedNeverReturns` | internal/store/sqlite.go:1077-1116 | a VM a drain marked is never AVAILABLE or leased again |
| `RowTheorems.DrainTwice` | internal/store/sqlite.go:1005-1053 | draining again keeps cordoned_at, draining_at and every row, and without a new reason changes nothing at all |
| `RowTheorems.TombstonesComplete` | internal/store/sqlite.go:234-304 | a pool without a row has only DELETING VM rows, no lease and no running reconciler |
| `RowTheorems.TombstonesOnlyGo` | internal/api/pooladmin.go:367-433 | while the name stays unused its rows only go, with claims and earlier reconcilers still in flight |
| `Lifecycle.RowChanges` | internal/store/sqlite.go:405-440 | every change any action can make to a VM row, from which phase to which and by whom: a claim, a provision, the failure policy, a release or expiry, a pool delete, a drain or a restart, whatever stale record is written |
| `Lifecycle.NewRows` | internal/reconciler/provision.go:208-242 | every new row is of a microVM its Provision call created itself, with its pool and host, PROVISIONING without a lease, or DELETING after a failed insert |
| `Takedowns.KilledDeleting` | internal/reconciler/provision.go:548-588 | over every run, flintlock is told to delete a microVM only once its row is DELETING or gone, or when its hooks failed and the cleanup write got no answer; so never while it is AVAILABLE or leased |
| `Takedowns.RowsGoDeleting` | internal/store/sqlite.go:442-476 | over every run, a row goes only once it is DELETING and flintlock no longer runs the microVM, with the same exception |
| `Running.RowsRun` | internal/store/sqlite.go:306-337 | in every reachable state, a VM that is AVAILABLE, QUARANTINED or LEASED under a lease is a microVM flintlock runs, on the host in its row |
| `Accounting.RaceRun` | internal/api/lease.go:402-458 | at every point of a race between one release and one pool delete, with any other calls at work, exactly one of these holds: the VM is in service, one of the two calls owes its report, or it was reported |
| `Accounting.ReportedExactlyOnce` | internal/api/pooladmin.go:468-497 | when the release has returned OK and both calls have ended, VM row and lease row are gone and exactly one deletion event was emitted |
| `Capacity.CountsAddUp` | internal/reconciler/reconciler.go:144-190 | the counts of any listing, with any lease ids, add up to at least the rows in use it covers |
| `Capacity.NoOverProvisioning` | internal/reconciler/reconciler.go:126-190 | under any interleaving, with one reconciler at a time of fixed size, the rows counted never exceed the size or what was there at the start |
| `Capacity.StaticPoolHoldsOne` | internal/reconciler/reconciler.go:196-262 | a static-network pool never holds two rows in any phase |
| `Reconcile.ReconcilePool` | internal/reconciler/reconciler.go:126-262 | a pass over the pool's rows, counting, deciding and provisioning: every row there stays; on a trigger the strategy does not act on, or with the warm pool at its threshold, nothing changes; otherwise, if the calls succeed, the rows counted reach exactly the pool's size, nothing is added when they already had, and a static network gets one row only if it had none. IMMEDIATE_ON_LEASE counts VMs in the pool or on their way, the other two also those leased out |
| `Reconcile.PassMeans` | internal/reconciler/strategy.go:87-142 | the same of the tables a pass leaves, in terms of rows and phases, whatever the calls do |
| `Decisions.ReconcilerDecides` | internal/reconciler/strategy.go:87-142 | under any interleaving, the decision, from the rows listed first and the leases read later, asks for nothing on a trigger the strategy does not act on, otherwise for exactly what is missing to the pool's size, with or without the VMs leased out |
| `Decisions.PassDecides` | internal/reconciler/reconciler.go:126-229 | the reads, the decision and the static-network cap of a pass that nothing interrupts, on the tables as they are: nothing, or exactly what fills the pool, or for a static network one VM only if the pool has no row in any phase |
| `Decisions.SpawnsDecided` | internal/reconciler/reconciler.go:231-262 | however often it tries, the reconciler starts exactly the number of Provision calls decided, each with its own spec |
| `Specs.ProvisionsGoBySpec` | internal/reconciler/reconciler.go:231-262 | in every reachable state, the spec and the failure policy of every Provision call are those of the reconciler it runs under |
| `ExitTheorems.ClaimStrandsNothing` | internal/api/lease.go:307-360 | every way out of ClaimVM leaves its VM leased with a committed lease, AVAILABLE, QUARANTINED, DELETING or gone, unless its cleanup write got no answer |
| `Fates.ProvisionOutcome` | internal/reconciler/provision.go:129-338 | for every VM ever created, in every run: after a nil return it is AVAILABLE, unless it was claimed since or is DELETING or gone; after an error it was never claimed or leased, is QUARANTINED, DELETING or gone unless a cleanup write got no answer, and flintlock runs it only with a row or as a recorded leak |
| `Fates.FailedClaimOutcome` | internal/api/lease.go:307-360 | a ClaimVM that gave up on its VM leaves it never leased, claimed by nobody else, and QUARANTINED, DELETING or gone, unless its cleanup write got no answer |
| `Outcomes.HookFailureIsFinal` | internal/reconciler/provision.go:412-470 | a VM whose create hook or pre-lease hook failed is never AVAILABLE and never leased again, in any continuation of any run |
| `ExitTheorems.StrandedExactly` | internal/reconciler/provision.go:445-470 | over every action, a VM becomes one of the excluded ones if and only if the failure policy's own write for it got no answer, and stops being one only by a restart |
| `ExitTheorems.ReservationsReleased` | internal/reconciler/provision.go:170-182 | a Provision call that returned has no reservation left, unless the release itself failed |
| `AdminTheorems.HostReferences` | internal/api/hostadmin.go:343-358 | every host named by a pool, a row or a reservation is registered and every draining host is cordoned, in every reachable state |
| `AdminTheorems.PoolRowsWritten` | internal/api/pooladmin.go:211-259 | of all actions, only the write of a CreatePool that found no row, or of an UpdatePool that found one, writes a pool row, with the spec it was given, while it holds the pool's lock and all its hosts are registered |
| `AdminTheorems.RunningIsTracked` | internal/poolmanager/manager.go:185-218 | every reconciler whose goroutine has not finished is in handles or exiting for its key |
| `AdminTheorems.WaitIsSound` | internal/poolmanager/manager.go:166-181 | when the wait of a DeletePool is over, no reconciler of the pool is running, replaced ones included |
| `AdminTheorems.PoolGoesQuietly` | internal/api/pooladmin.go:367-433 | of all actions, only a DeletePool whose wait is over removes a pool row, while no reconciler and no Provision call of the pool is running; without force, only in a state where no row of the pool is LEASED or PRE_LEASE_HOOK_RUNNING |
| `AdminTheorems.DeleteRefused` | internal/api/pooladmin.go:388-417 | a DeletePool without force that finds a row of the pool LEASED or PRE_LEASE_HOOK_RUNNING changes no table: the early check just returns, and the transaction goes on to start the reconciler again |
| `AdminTheorems.RecoveryIsClean` | cmd/poolmgrd/main.go:84-104 | a restart after any run leaves no placement, no abandoned claim or provision, every LEASED row backed by its lease, and everything else untouched |
| `Recovery.RecoverAbandonedClaims` | internal/reconciler/reconciler.go:278-312 | marks the abandoned claims and counts them |
| `Recovery.RecoverAbandonedProvisions` | internal/reconciler/reconciler.go:324-346 | marks the abandoned provisions and counts them |
| `Recovery.RecoverStore` | cmd/poolmgrd/main.go:84-104 | the three startup steps leave the store a restart of the protocol leaves, and the counts are the numbers of rows they changed |
| `Stores.Store.CreatePool` | internal/store/sqlite.go:129-149 | inserts a new key, or conflicts and changes nothing |
| `Stores.Store.UpdatePool` | internal/store/sqlite.go:203-224 | replaces an existing row, or NotFound and nothing changes |
| `Stores.Store.DeletePoolAndMarkVMs` | internal/store/sqlite.go:234-304 | NotFound for an unknown pool; without force and with a row of it LEASED or PRE_LEASE_HOOK_RUNNING, PoolHasLeased and nothing changes; otherwise pool and leases go, exactly the pool's rows become DELETING without lease id, and they are listed |
| `Stores.Store.CreateVM` | internal/store/sqlite.go:306-321 | inserts a new uid, or fails and changes nothing |
| `Stores.Store.ListVMsByPool` | internal/store/sqlite.go:339-367 | lists the pool's rows, each once, by uid |
| `Stores.Store.UpdateVM` | internal/store/sqlite.go:405-440 | writes the row unless it is missing or would leave DELETING |
| `Stores.Store.DeleteVMCheckingPool` | internal/store/sqlite.go:450-476 | removes the row and reports whether its pool existed |
| `Stores.Store.ClaimAvailableVM` | internal/store/sqlite.go:478-530 | takes some AVAILABLE VM of the pool if and only if there is one |
| `Stores.Store.LeaseVM` | internal/store/sqlite.go:597-614 | VM write and lease insert commit together or not at all, with the cause of a refusal |
| `Stores.Store.GetLeaseByRequestID` | internal/store/sqlite.go:640-653 | finds a lease with the request id if and only if one exists |
| `Stores.Store.UpdateLeaseHeartbeat` | internal/store/sqlite.go:655-664 | writes the heartbeat and expiry times of an existing lease and keeps its other fields and every other lease; or NotFound |
| `Stores.Store.ListExpiredLeases` | internal/store/sqlite.go:674-678 | lists the leases due by a time, earliest first |
| `Stores.Store.DeleteLeaseIfExpired` | internal/store/sqlite.go:692-731 | removes the lease if and only if it has expired by now |
| `Stores.Store.CountVMsByHost` | internal/store/sqlite.go:1170-1181 | rows plus reservations of the host |
| `Stores.Store.CreateHost` | internal/store/sqlite.go:822-837 | inserts a host neither cordoned nor draining, or refuses a registered name and changes nothing |
| `Stores.Store.DeleteHost` | internal/store/sqlite.go:875-937 | removes a host no pool names and nothing counts on; otherwise says why not |
| `Stores.Store.SetHostCordoned` | internal/store/sqlite.go:974-1003 | a cordon sets flag, reason and time and leaves the drain fields; an uncordon clears cordon and drain |
| `Stores.Store.DrainHost` | internal/store/sqlite.go:1005-1053 | cordons and marks draining, keeping times and a reason already there, and makes exactly the host's rows that are neither LEASED, PRE_LEASE_HOOK_RUNNING nor DELETING DELETING, returning them |
| `Stores.Store.MarkUnleasedVMsDeleting` | internal/store/sqlite.go:1077-1116 | of the hosts' rows exactly those neither LEASED, PRE_LEASE_HOOK_RUNNING nor DELETING become DELETING without lease id, and are listed |
| `Stores.Store.ReservePlacement` | internal/store/sqlite.go:1118-1154 | reserves on a registered, uncordoned host, or says why not |
| `Stores.Store.ClearPlacements` | internal/store/sqlite.go:1163-1168 | removes every reservation |
| `Deletions.EnsureVMDeletedCheckingPool` | internal/reconciler/provision.go:557-588 | the row goes only once flintlock confirmed; unanswered it is left DELETING; and the answer says whether the pool existed |
| `Deletions.FinishVMDeletion` | internal/reconciler/provision.go:607-618 | a lease row still there means a release, and goes; otherwise the event is an expiry |
| `Deletions.FinishVMRelease` | internal/reconciler/provision.go:627-637 | the lease goes and the release is reported |
| `Deletions.ApplyHookFailurePolicy` | internal/reconciler/provision.go:412-470 | quarantines or deletes, and reports the failed hook |
| `Deletions.PolicyStrandsNothing` | internal/reconciler/provision.go:383-411 | for every policy and flintlock answer the VM ends QUARANTINED, DELETING or gone, and no other row changes |
| `LeaseServices.LeaseServer.ClaimVM` | internal/api/lease.go:124-204 | uninterrupted: a refusal or replay that changes nothing, one VM leased, or one VM left to the policy; a claim that was no replay leaves a lease dated now that expires its pool's threshold later, and its VM LEASED under it; flintlock loses exactly the VMs whose rows went |
| `LeaseServices.ClaimMeans` | internal/api/lease.go:124-235 | row by row and for every outcome: refused, replayed as the lease's pool and VM say, ResourceExhausted, leased with every field of the new lease, or left to the pool's policy; nothing else changes |
| `LeaseServices.LeaseServer.ReplayClaim` | internal/api/lease.go:210-235 | InvalidArgument for another pool, Aborted for a VM gone or DELETING, otherwise the lease and its VM |
| `LeaseServices.LeaseServer.RunPreLeaseHooks` | internal/api/lease.go:307-338 | a VM deleted meanwhile is reported as gone and nothing changes; otherwise it succeeds if and only if every command does, and on a failure the policy is applied, in the tables and in flintlock |
| `LeaseServices.LeaseServer.Heartbeat` | internal/api/lease.go:364-390 | answers now plus its pool's threshold, leaves that as the row's expiry time and now as its heartbeat, and keeps id, VM, pool, claimedAt and request; or changes nothing |
| `LeaseServices.LeaseServer.ReleaseVM` | internal/api/lease.go:402-458 | uninterrupted: rows gone and reported once, or both kept and the VM DELETING when flintlock did not answer; flintlock loses exactly the VMs whose rows went |
| `LeaseServices.ReleaseMeans` | internal/api/lease.go:402-458 | row by row and for every outcome: lease not found, VM already gone, flintlock unanswered, or VM and lease gone with one event exactly if the pool exists |
| `LeaseLaws.HeartbeatThenTick` | internal/api/lease.go:364-390 | a heartbeat answered with t, then a sweeper tick before t: the lease and its LEASED VM are untouched |
| `LeaseLaws.ClaimThenTick` | internal/api/lease.go:188-204 | a claim at now, then a tick before now plus the pool's threshold: the lease and the VM are untouched |
| `LeaseServices.ClaimRetried` | internal/api/lease.go:116-123 | a claim retried with its request id is answered with the same lease and changes nothing |
| `LeaseServices.ClaimsKeepRequests` | internal/api/lease.go:139-147 | a claim keeps at most one lease per request id |
| `LeaseServices.ClaimThenRelease` | internal/api/lease.go:392-401 | claiming and releasing removes that VM, adds two events and leaves everything else as it was |
| `LeaseServices.ReleaseRetried` | internal/api/lease.go:392-401 | a release that flintlock did not answer, retried, leaves what it would have left at once |
| `LeaseServices.ReleasedForGood` | internal/api/lease.go:402-410 | after an OK release the lease is not found |
| `Provisioners.WaitCreated` | internal/reconciler/provision.go:342-379 | succeeds if and only if CREATED is the first answer other than pending |
| `Provisioners.Provisioner.Boot` | internal/reconciler/provision.go:243-300 | ends AVAILABLE if and only if every hook succeeded and the row was not deleted or marked meanwhile, else in the policy, or left to its deleter; flintlock loses the VM exactly when the policy deleted it |
| `Provisioners.Provisioner.Provision` | internal/reconciler/provision.go:129-300 | uninterrupted: returns nil if and only if the VM is AVAILABLE, never leaves a reservation, and flintlock runs the new VM exactly when it was created and has a row |
| `Provisioners.ProvisionSettles` | internal/reconciler/provision.go:123-128 | however it ends, every other row and every reservation is as before, and a created VM is AVAILABLE, QUARANTINED, DELETING, or without a row exactly when a hook failed, the policy deletes and flintlock confirmed |
| `Provisioners.ProvisionMeans` | internal/reconciler/provision.go:129-300 | row by row: nothing if no host took it or nothing was created, AVAILABLE if it was created in time and every command succeeded, otherwise what the policy says; with the two events, and flintlock running it unless it was deleted |
| `SweeperTheorems.TickStartsSound` | internal/reconciler/sweeper.go:110-148 | in every reachable state the tables agree as a tick requires |
| `Sweepers.Sweeper.Tick` | internal/reconciler/sweeper.go:110-148 | one uninterrupted tick, with flintlock answering, from any valid store: tables, outbox and warned are those of the tick function; where the tables agree, a row goes if and only if it was DELETING, unleased on a draining host or under a lease expired at now, a lease if and only if it had expired or its VM was DELETING, and flintlock loses exactly the VMs whose rows went |
| `Sweeping.TickExact` | internal/reconciler/sweeper.go:110-148 | of the tick function, wherever the tables agree: a row goes if and only if it was DELETING, unleased on a draining host or under a lease expired at now; a lease goes if and only if it had expired or its VM was DELETING; every other row, lease, pool, host and reservation is as it was |
| `Sweeping.TickPromises` | internal/reconciler/sweeper.go:110-148 | no DELETING row and no expired lease is left, only leased rows on draining hosts, no lease of a removed VM, and a LEASED VM under an unexpired lease is untouched with its lease |
| `Sweeping.TickDeletesExactly` | internal/reconciler/sweeper.go:150-254 | flintlock loses exactly the VMs whose rows the tick removes |
| `Warnings.TickWarns` | internal/reconciler/sweeper.go:117-147 | the tick adds to the outbox one VM_EXPIRING_SOON for each listed, unexpired lease not yet warned about at its expiry time, and no other |
| `Reports.TickReports` | internal/reconciler/sweeper.go:150-254 | every other event the tick adds, exactly once: a release, an expiry or a drain, according to the phase, the lease and the host of the VM it removed |
| `Warnings.WarnedAtMostOnce` | internal/reconciler/sweeper.go:117-147 | over any ticks with non-decreasing now, and any other work between them, the outbox gains at most one VM_EXPIRING_SOON for a lease while its expiry time stays the same |
| `Sweepers.Sweeper.RetryPendingDeletions` | internal/reconciler/sweeper.go:160-188 | every DELETING row goes, and in flintlock, with the events of FinishVMDeletion, skipped for drained VMs and removed pools; no other row changes |
| `Sweepers.Sweeper.DrainHosts` | internal/reconciler/sweeper.go:196-202 | exactly the unleased rows of draining hosts are marked, reported and removed, and in flintlock |
| `Sweepers.Sweeper.DeleteDrained` | internal/reconciler/drain.go:36-77 | removes exactly the drained VMs, and in flintlock |
| `Sweepers.Sweeper.EmitDrained` | internal/reconciler/drain.go:36-77 | one event per drained VM, in order, before any delete |
| `Sweepers.Sweeper.BeginExpiry` | internal/reconciler/sweeper.go:221-254 | nothing for a lease gone or renewed; otherwise the lease goes, and its VM with it, in flintlock too, if it is still LEASED and its pool exists |
| `Sweepers.Sweeper.WarnExpiringSoon` | internal/reconciler/sweeper.go:204-210 | one event, unless the pool is gone |
| `Sweepers.Sweeper.Visit` | internal/reconciler/sweeper.go:119-137 | one listed lease expires, is warned about, or is left, and warned is updated |
| `Sweepers.Sweeper.VisitAll` | internal/reconciler/sweeper.go:117-137 | the loop over the listed leases: tables, outbox, warned and flintlock after it |
| `Sweepers.Sweeper.Evict` | internal/reconciler/sweeper.go:139-147 | forgets exactly the leases the query did not return |
| `Reconcile.CountVMs` | internal/reconciler/reconciler.go:144-190 | the loop counts exactly the rows of each kind, by phase and by whether the lease was listed |
| `Reconcile.ProvisionN` | internal/reconciler/reconciler.go:214-262 | runs the asked number of Provision calls; for a static network one if the pool has no row at all, otherwise none; the tables are those the calls leave |
| `Managers.Manager.StartReconciler` | internal/poolmanager/manager.go:103-149 | starts a goroutine unless one has a handle or the manager is stopping; running goroutines stay tracked |
| `Managers.Manager.CancelAndForget` | internal/poolmanager/manager.go:185-205 | the handle goes and is listed as exiting unless it is done; running goroutines stay tracked |
| `Managers.Manager.CloseDone` | internal/poolmanager/manager.go:209-210 | the first half of an exit; running goroutines stay tracked |
| `Managers.Manager.DropExiting` | internal/poolmanager/manager.go:212-218 | the second half: the goroutine leaves the list, and an empty list its key; running goroutines stay tracked |
| `Managers.Manager.Seed` | internal/poolmanager/manager.go:88-99 | one reconciler per stored pool, and succeeds if and only if none had one and the manager is not stopping |
| `Managers.Without` | internal/poolmanager/manager.go:209-218 | removes every occurrence of the goroutine and nothing else |
| `Events.ListEventsSince` | internal/store/sqlite.go:755-774 | outbox rows of the asked pool after an id, ids increasing, at most limit of them, none of the pool left out up to the last id, and all of them if fewer than limit |
| `Events.Resumes` | internal/api/events.go:57-89 | asking again after the last id sent resumes exactly where sending stopped |
| `Events.EventsServer.Page` | internal/api/events.go:63-82 | one pass sends only outbox rows of the asked pool, with increasing ids and none left out: the next batch, all that is left if less, or stops at a failed Send |
| `Events.EventsServer.Subscribe` | internal/api/events.go:57-89 | for every batch size, filter, schedule of appends and failure: every entry sent is in the outbox and of the asked pool, ids strictly increase, every outbox entry of the pool up to the last id sent was sent, and whenever it waits everything of the pool was |
| `Events.PacedKeepsUp` | internal/api/events.go:49-56 | n fetches after any moment have sent what was pending then, or n full batches |
| `Events.DrainingEnds` | internal/api/events.go:49-56 | once appends stop, paging has sent exactly what the unpaged subscription would after as many fetches as it has batches |
| `Events.WaitMeansCaughtUp` | internal/api/events.go:78-88 | whenever the loop waits, everything the fetch found has been sent |

## Left out

- Shutdown: `Manager.Run` drops handles without moving them to `exiting`, so the manager and tombstone results are about runs before shutdown; a restart is modelled as a crash.
- The handlers of the lease, pool and host services in the protocol are sequences of plans rather than methods, because their transactions interleave; the lease service and the provisioner are also given as uninterrupted methods, the pool and host RPCs are not.
- LeaseServices.LeaseServer.ClaimVM: runs uninterrupted, so the lost race on a request id and a VM deleted during the claim are only in the protocol; store writes that get no answer and the request id length limit are left out.
- Provisioners.Provisioner.Provision: runs uninterrupted with a fresh uid and answered store writes, so the orphan path is only in the protocol.
- Sweepers.Sweeper.Tick: runs uninterrupted with flintlock answering; unanswered deletes and concurrent calls are only in the protocol.
- Accounting.ReportedExactlyOnce: excludes a sweeper pass on the VM, other releases or expiries of the lease, another delete or create of the pool and lost writes of the two calls' own reports, because deletion events are not exactly once in general.
- Capacity.NoOverProvisioning: needs the pool's reconcilers not to overlap and the size to stay fixed, because UpdatePool starts the new reconciler without waiting for the old one.
- Reconcile.ReconcilePool: runs the calls one after another with no other writer in between, and fills the pool only if they succeed; counts are unbounded, so the 32-bit conversion of the available count in the threshold strategy is not modelled.
- Reconcile.ProvisionN: runs the calls one after another; their interleaving is in the protocol, and a pass that cannot list the rows is left out.
- Warnings.WarnedAtMostOnce: is about one sweeper process, because warned is not stored.
- Reconcile.CountVMs: takes the two listings as arguments; that they are read at different moments is in the protocol.
- Managers.Manager.StartReconciler: an unknown strategy or a failed clone of the spec is not modelled, and the wait of StopReconcilerAndWait is only in the protocol.
- Events.EventsServer.Subscribe: the schedule says what is appended before each fetch; the ticker's duration is not modelled.
- PickHost's least-loaded choice: any host of the pool may be picked, which makes the safety results stronger.
- gRPC, TLS, authentication, configuration, logging, metrics, notifications between services and the command-line client.
- SQL text, JSON columns, migrations and row conversions; tables are maps of records.
- UpdateHost, re-addressing a host and dialling flintlock; hosts keep their address.
- Validation of pool specs and templates, and the listings that only format rows.
