/** Where the records a call holds come from: an earlier point of the same call, or a row just
    read, claimed or born. */
module Traces {
  import opened Records
  import opened Transactions
  import opened Protocol
  import opened Plans

  /** The lease a call is about to end. */
  function Ending(p: Proc): Option<Lease> {
    match p
    case Asking(ReleaseJob(l), _) => Some(l)
    case Dropping(ReleaseJob(l), _) => Some(l)
    case ReleaseGot(l) => Some(l)
    case ReleaseMarking(l, _) => Some(l)
    case ReleaseLookup(l) => Some(l)
    case ReleaseDropping(l) => Some(l)
    case Closing(l) => Some(l)
    case ClosingEvent(l) => Some(l)
    case ExpiryTaken(l) => Some(l)
    case ExpiryRead(l, _) => Some(l)
    case ExpiryMarking(l, _) => Some(l)
    case _ => None
  }

  /** A delete of a row without any bookkeeping after it. */
  predicate IsBareSweep(p: Proc) {
    (p.Asking? || p.Dropping?) && p.job.SweepJob? && !p.job.finish
  }

  /** The pool a DeletePool call is for. */
  function Removing(p: Proc): Option<PoolKey> {
    match p
    case DelStart(k, _) => Some(k)
    case DelLocked(k, _) => Some(k)
    case DelFound(k, _, _) => Some(k)
    case DelStopping(k, _, _) => Some(k)
    case DelStopped(k, _, _) => Some(k)
    case DelWaiting(k, _, _, _) => Some(k)
    case DelReady(k, _, _) => Some(k)
    case DelEvents(k, _) => Some(k)
    case DelRestart(k, _) => Some(k)
    case _ => None
  }

  /** The pool a CreatePool call is to create. */
  function Creating(p: Proc): Option<PoolKey> {
    match p
    case PoolStart(true, spec) => Some(spec.key)
    case PoolLocked(true, spec) => Some(spec.key)
    case PoolChecked(true, spec) => Some(spec.key)
    case PoolWriting(true, spec) => Some(spec.key)
    case _ => None
  }

  predicate HeldFrom(s: State, p: Proc, e: Effect, u: Uid) {
    || (Held(p).Some? && Held(p).value.uid == u)
    || (Ending(p).Some? && Ending(p).value.vm == u)
    || (e.Takes? && e.v.uid == u) || (e.Bears? && e.u == u)
  }

  predicate EndingFrom(s: State, p: Proc, l: Lease) {
    || Ending(p) == Some(l)
    || ((p.ReleaseStart? || p.ExpiryStart?) && p.id in s.db.leases && s.db.leases[p.id] == l)
    || (p.Finishing? && p.vm.leaseId.Some? && p.vm.leaseId.value in s.db.leases && s.db.leases[p.vm.leaseId.value] == l)
  }

  predicate Traced(s: State, p: Proc, e: Effect) {
    var q := After(p, e);
    && (Held(q).Some? ==> HeldFrom(s, p, e, Held(q).value.uid))
    && (Ending(q).Some? ==> EndingFrom(s, p, Ending(q).value))
    && (IsBareSweep(q) ==> IsBareSweep(p))
    && (IsBareSweep(p) && !IsBareSweep(q) ==> q.Done?)
    && (Removing(q).Some? ==> Removing(q) == Removing(p))
    && (q.DelEvents? ==> (p.DelEvents? && q.owed <= p.owed) || (p.DelReady? && q.owed == VmsOfPool(s.db, p.key).Keys))
    && (Creating(q).Some? ==> Creating(q) == Creating(p))
    && (IsEntry(q) ==> q == p)
  }

  /** At work on a claim or a provision, or done with it. */
  predicate Serves(p: Proc) {
    || InClaimFirst(p) || InClaimLast(p) || Provisions(p) || p.Failing?
    || ((p.Asking? || p.Dropping?) && (p.job.HookJob? || p.job.OrphanJob?))
    || p.ClaimOk? || p.ClaimFailed? || p.ProvOk? || p.ProvFailed? || p.Done?
  }

  /** Claims and provisions end no lease and touch no pool. */
  lemma ServesOnly(p: Proc)
    requires Serves(p)
    ensures Ending(p).None? && !IsBareSweep(p) && Removing(p).None? && Creating(p).None? && !p.DelEvents?
  {
    hide Ending, Removing, Creating;
    EndsNothing(p);
    RemovesNothing(p);
    CreatesNothing(p);
  }

  lemma EndsNothing(p: Proc)
    requires Serves(p)
    ensures Ending(p).None?
  {
  }

  lemma RemovesNothing(p: Proc)
    requires Serves(p)
    ensures Removing(p).None?
  {
  }

  lemma CreatesNothing(p: Proc)
    requires Serves(p)
    ensures Creating(p).None?
  {
  }

  lemma ClaimFirstTraced(s: State, p: Proc, c: Choice)
    requires InClaimFirst(p) && Keyed(s.db.vms)
    ensures Traced(s, p, ClaimFirstPlan(s, p, c))
  {
    hide Ending, EndingFrom, IsBareSweep, Removing, Creating;
    ServesOnly(p);
    ServesOnly(After(p, ClaimFirstPlan(s, p, c)));
  }

  lemma ClaimLastTraced(s: State, p: Proc, c: Choice)
    requires InClaimLast(p) && Keyed(s.db.vms)
    ensures Traced(s, p, ClaimLastPlan(s, p, c))
  {
    hide Ending, EndingFrom, IsBareSweep, Removing, Creating;
    ServesOnly(p);
    ServesOnly(After(p, ClaimLastPlan(s, p, c)));
  }

  lemma FailingTraced(s: State, p: Proc, c: Choice)
    requires p.Failing? && Keyed(s.db.vms)
    ensures Traced(s, p, PlanFailing(s, p, c))
  {
  }

  lemma AskingTraced(s: State, p: Proc, c: Choice)
    requires p.Asking? && Keyed(s.db.vms)
    ensures Traced(s, p, PlanAsking(s, p, c))
  {
  }

  lemma GivesUpTraced(s: State, p: Proc)
    requires p.Dropping?
    ensures Traced(s, p, Moves(Abandon(p.job, p.vm))) && Traced(s, p, Moves(Gone(p.job, p.vm)))
  {
    hide Removing, Creating;
    LeavesPools(Abandon(p.job, p.vm));
    LeavesPools(Gone(p.job, p.vm));
  }

  lemma DroppedTraced(s: State, p: Proc, poolExists: bool)
    requires p.Dropping?
    ensures Traced(s, p, Drops(Dropped(p.job, p.vm, poolExists), p.vm.uid))
  {
    hide Removing, Creating;
    LeavesPools(Dropped(p.job, p.vm, poolExists));
  }

  lemma DroppingTraced(s: State, p: Proc, c: Choice)
    requires p.Dropping? && Keyed(s.db.vms)
    ensures Traced(s, p, PlanDropping(s, p, c))
  {
    hide Traced, Abandon, Gone, Dropped;
    GivesUpTraced(s, p);
    if p.vm.uid in s.db.vms {
      DroppedTraced(s, p, s.db.vms[p.vm.uid].pool in s.db.pools);
    }
  }

  lemma LeavesPools(p: Proc)
    requires !InPoolAdmin(p) || p.Done?
    ensures Removing(p).None? && Creating(p).None? && !p.DelEvents?
  {
  }

  lemma DeleteTraced(s: State, p: Proc, c: Choice)
    requires InDelete(p) && Keyed(s.db.vms)
    ensures Traced(s, p, DeletePlan(s, p, c))
  {
    match p
    case Failing(_, _, _) => FailingTraced(s, p, c);
    case Asking(_, _) => AskingTraced(s, p, c);
    case Dropping(_, _) => DroppingTraced(s, p, c);
  }

  /** What a call that ends, renews or reports a lease holds. */
  lemma HoldsForLease(p: Proc)
    requires EndsLeases(p) || p.Asking? || p.ReleaseOk? || p.Done?
    ensures Held(p) ==
            if p.ReleaseMarking? || p.ExpiryRead? || p.ExpiryMarking? || p.Swept? || p.Finishing? || p.Asking?
              then Some(p.vm) else None
  {
  }

  lemma EndsItsLease(p: Proc)
    requires EndsLeases(p) || p.Asking? || p.ReleaseOk? || p.Done?
    ensures Ending(p) ==
            if p.Asking? then (if p.job.ReleaseJob? then Some(p.job.lease) else None)
            else if InBeat(p) || p.ReleaseStart? || p.ExpiryStart? || p.Swept? || p.Finishing? then None
            else if p.ReleaseOk? || p.Done? then None else Some(p.lease)
  {
  }

  lemma ReleaseTraced(s: State, p: Proc, c: Choice)
    requires InRelease(p) && Keyed(s.db.vms)
    ensures Traced(s, p, ReleasePlan(s, p, c))
  {
    hide Held, Ending, Removing, Creating;
    var q := After(p, ReleasePlan(s, p, c));
    HoldsForLease(p);
    HoldsForLease(q);
    EndsItsLease(p);
    EndsItsLease(q);
    LeavesPools(q);
  }

  lemma ClosingTraced(s: State, p: Proc, c: Choice)
    requires InClosing(p) && Keyed(s.db.vms)
    ensures Traced(s, p, ClosingPlan(s, p, c))
  {
    hide Held, Ending, Removing, Creating;
    var q := After(p, ClosingPlan(s, p, c));
    HoldsForLease(p);
    HoldsForLease(q);
    EndsItsLease(p);
    EndsItsLease(q);
    LeavesPools(q);
  }

  lemma BeatTraced(s: State, p: Proc, c: Choice)
    requires InBeat(p) && Keyed(s.db.vms)
    ensures Traced(s, p, BeatPlan(s, p, c))
  {
    hide Held, Ending, Removing, Creating;
    var q := After(p, BeatPlan(s, p, c));
    HoldsForLease(p);
    HoldsForLease(q);
    EndsItsLease(p);
    EndsItsLease(q);
    LeavesPools(q);
  }

  lemma ExpiryTraced(s: State, p: Proc, c: Choice)
    requires InExpiry(p) && Keyed(s.db.vms)
    ensures Traced(s, p, ExpiryPlan(s, p, c))
  {
    hide Held, Ending, Removing, Creating;
    var q := After(p, ExpiryPlan(s, p, c));
    HoldsForLease(p);
    HoldsForLease(q);
    EndsItsLease(p);
    EndsItsLease(q);
    LeavesPools(q);
  }

  /** Every point of Provision with a VM holds it. */
  lemma HoldsItsVm(p: Proc)
    requires Provisions(p) || p.Failing? || p.Asking? || p.ProvOk? || p.ProvFailed?
    ensures Held(p) ==
            if p.ProvStart? || p.ProvReserved? || p.ProvRelease? || p.ProvOk? || p.ProvFailed? then None else Some(p.vm)
  {
  }

  lemma CreateTraced(s: State, p: Proc, c: Choice)
    requires InCreate(p) && Keyed(s.db.vms)
    ensures Traced(s, p, CreatePlan(s, p, c))
  {
    hide Held, Ending, EndingFrom, IsBareSweep, Removing, Creating;
    ServesOnly(p);
    ServesOnly(After(p, CreatePlan(s, p, c)));
    HoldsItsVm(p);
    HoldsItsVm(After(p, CreatePlan(s, p, c)));
  }

  lemma BootTraced(s: State, p: Proc, c: Choice)
    requires InBoot(p) && Keyed(s.db.vms)
    ensures Traced(s, p, BootPlan(s, p, c))
  {
    hide Held, Ending, EndingFrom, IsBareSweep, Removing, Creating;
    ServesOnly(p);
    ServesOnly(After(p, BootPlan(s, p, c)));
    HoldsItsVm(p);
    HoldsItsVm(After(p, BootPlan(s, p, c)));
  }

  lemma UndoTraced(s: State, p: Proc, c: Choice)
    requires InUndo(p) && Keyed(s.db.vms)
    ensures Traced(s, p, UndoPlan(s, p, c))
  {
    hide Held, Ending, EndingFrom, IsBareSweep, Removing, Creating;
    ServesOnly(p);
    ServesOnly(After(p, UndoPlan(s, p, c)));
    HoldsItsVm(p);
    HoldsItsVm(After(p, UndoPlan(s, p, c)));
  }

  /** A call of PoolAdmin has no VM to hold and no lease to end. */
  lemma AdminTracesNothing(p: Proc)
    requires InPoolAdmin(p)
    ensures Held(p).None? && Ending(p).None? && !IsBareSweep(p)
  {
    hide Held, Ending;
    AdminHoldsNothing(p);
    AdminEndsNothing(p);
  }

  lemma AdminEndsNothing(p: Proc)
    requires InPoolAdmin(p)
    ensures Ending(p).None?
  {
  }

  lemma PoolCheckTraced(s: State, p: Proc, c: Choice)
    requires p.PoolStart? || p.PoolLocked?
    ensures Traced(s, p, PoolWritePlan(s, p, c))
  {
    hide Held, Ending, IsBareSweep, HeldFrom, EndingFrom;
    AdminTracesNothing(p);
    AdminTracesNothing(After(p, PoolWritePlan(s, p, c)));
  }

  lemma PoolCheckedTraced(s: State, p: Proc, c: Choice)
    requires p.PoolChecked? || p.PoolWriting?
    ensures Traced(s, p, PoolWritePlan(s, p, c))
  {
    hide Held, Ending, IsBareSweep, HeldFrom, EndingFrom;
    AdminTracesNothing(p);
    AdminTracesNothing(After(p, PoolWritePlan(s, p, c)));
  }

  lemma PoolWriteTraced(s: State, p: Proc, c: Choice)
    requires InPoolWrite(p) && Keyed(s.db.vms)
    ensures Traced(s, p, PoolWritePlan(s, p, c))
  {
    hide Traced, PoolWritePlan;
    if p.PoolStart? || p.PoolLocked? { PoolCheckTraced(s, p, c); } else { PoolCheckedTraced(s, p, c); }
  }

  lemma PoolRestartTraced(s: State, p: Proc, c: Choice)
    requires InPoolRestart(p) && Keyed(s.db.vms)
    ensures Traced(s, p, PoolRestartPlan(s, p, c))
  {
    hide Held, Ending, IsBareSweep, HeldFrom, EndingFrom;
    AdminTracesNothing(p);
    AdminTracesNothing(After(p, PoolRestartPlan(s, p, c)));
  }

  lemma DeletesItsPool(p: Proc)
    requires InDelStop(p) || InDelWait(p) || p.DelRestart? || p.Done?
    ensures Creating(p).None? && Removing(p) == if p.Done? then None else Some(p.key)
  {
  }

  lemma DelStopTraced(s: State, p: Proc, c: Choice)
    requires InDelStop(p) && Keyed(s.db.vms)
    ensures Traced(s, p, DelStopPlan(s, p, c))
  {
    hide Held, Ending, IsBareSweep, HeldFrom, EndingFrom, Removing, Creating;
    AdminTracesNothing(p);
    AdminTracesNothing(After(p, DelStopPlan(s, p, c)));
    DeletesItsPool(p);
    DeletesItsPool(After(p, DelStopPlan(s, p, c)));
  }

  lemma DelWaitTraced(s: State, p: Proc, c: Choice)
    requires InDelWait(p) && Keyed(s.db.vms)
    ensures Traced(s, p, DelWaitPlan(s, p, c))
  {
    hide Held, Ending, IsBareSweep, HeldFrom, EndingFrom, Removing, Creating;
    AdminTracesNothing(p);
    AdminTracesNothing(After(p, DelWaitPlan(s, p, c)));
    DeletesItsPool(p);
    DeletesItsPool(After(p, DelWaitPlan(s, p, c)));
  }

  lemma ClaimSideTraced(s: State, p: Proc, c: Choice)
    requires ClaimsOrDeletes(p) && Keyed(s.db.vms)
    ensures Traced(s, p, ClaimSidePlan(s, p, c))
  {
    if InClaimFirst(p) { ClaimFirstTraced(s, p, c); }
    else if InClaimLast(p) { ClaimLastTraced(s, p, c); }
    else { DeleteTraced(s, p, c); }
  }

  lemma LeaseSideTraced(s: State, p: Proc, c: Choice)
    requires EndsLeases(p) && Keyed(s.db.vms)
    ensures Traced(s, p, LeaseSidePlan(s, p, c))
  {
    if InRelease(p) { ReleaseTraced(s, p, c); }
    else if InClosing(p) { ClosingTraced(s, p, c); }
    else if InBeat(p) { BeatTraced(s, p, c); }
    else { ExpiryTraced(s, p, c); }
  }

  lemma BuildSideTraced(s: State, p: Proc, c: Choice)
    requires Provisions(p) && Keyed(s.db.vms)
    ensures Traced(s, p, BuildSidePlan(s, p, c))
  {
    if InCreate(p) { CreateTraced(s, p, c); }
    else if InBoot(p) { BootTraced(s, p, c); }
    else { UndoTraced(s, p, c); }
  }

  lemma PoolSideTraced(s: State, p: Proc, c: Choice)
    requires Keyed(s.db.vms)
    ensures Traced(s, p, PoolSidePlan(s, p, c))
  {
    if InPoolWrite(p) { PoolWriteTraced(s, p, c); }
    else if InPoolRestart(p) { PoolRestartTraced(s, p, c); }
    else if InDelStop(p) { DelStopTraced(s, p, c); }
    else if InDelWait(p) { DelWaitTraced(s, p, c); }
  }

  lemma PlanTraced(s: State, p: Proc, c: Choice)
    requires Keyed(s.db.vms)
    ensures Traced(s, p, Plan(s, p, c))
  {
    hide ClaimSidePlan, LeaseSidePlan, PoolSidePlan, Traced, BuildSidePlan, Provisions;
    if ClaimsOrDeletes(p) { ClaimSideTraced(s, p, c); }
    else if EndsLeases(p) { LeaseSideTraced(s, p, c); }
    else if Provisions(p) { BuildSideTraced(s, p, c); }
    else { PoolSideTraced(s, p, c); }
  }
}
