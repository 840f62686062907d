/** Who may still add a row, which phases a held record is written back in, and which rows a call
    sets out to delete. */
module Staffing {
  import opened Records
  import opened Transactions
  import opened Protocol
  import opened Plans

  /** A Provision call that may still write its row. */
  predicate IsMaking(p: Proc) {
    p.ProvStart? || p.ProvReserved? || p.ProvCreated? || p.ProvOrphan?
  }

  /** What each call writes back of the record it holds, by phase. */
  predicate WritesBack(p: Proc, v: Vm) {
    || (p.ClaimHooking? && v == p.vm.(phase := PreLeaseHookRunning))
    || (p.ClaimYielding? && v == p.vm.(phase := Available, leaseId := None))
    || (p.ProvMarkHook? && v == p.vm.(phase := CreateHookRunning))
    || (p.ProvMarkAvailable? && v == p.vm.(phase := Available))
    || (p.Failing? && v == p.vm.(phase := if p.policy.Quarantine? then Quarantined else Deleting, leaseId := None))
    || ((p.ReleaseMarking? || p.ExpiryMarking?) && v == p.vm.(phase := Deleting))
  }

  /** Only the owner of a VM writes it back in a phase that is in use; anyone else writes DELETING. */
  lemma OwnersWrite(p: Proc, v: Vm)
    requires WritesBack(p, v)
    ensures
      || v.phase.Deleting?
      || (Claimer(p).Some? && Claimer(p).value.uid == v.uid &&
          (v.phase.PreLeaseHookRunning? || v.phase.Available? || v.phase.Quarantined?))
      || (Builder(p).Some? && Builder(p).value.uid == v.uid &&
          (v.phase.CreateHookRunning? || v.phase.Available? || v.phase.Quarantined?))
  {
  }

  /** The VM a call is deleting because its row is DELETING, so not one whose hooks failed and not a
      microVM without a row. */
  function Removing(p: Proc): Option<Uid> {
    match p
    case Asking(HookJob(_, _), _) => None
    case Asking(OrphanJob(_, _, false), _) => None
    case Asking(_, v) => Some(v.uid)
    case Dropping(HookJob(_, _), _) => None
    case Dropping(_, v) => Some(v.uid)
    case _ => None
  }

  /** A row the call has just read. */
  ghost predicate ReadsRow(db: Db, v: Vm) {
    exists u :: u in db.vms && db.vms[u] == v
  }

  /** A call sets out to delete a VM only on a DELETING row it read or has just written. */
  ghost predicate Condemns(db: Db, p: Proc, e: Effect) {
    var q := After(p, e);
    Removing(q).Some? ==>
      || Removing(q) == Removing(p)
      || (e.Moves? && q.Asking? && q.vm.phase.Deleting? && ReadsRow(db, q.vm))
      || ((e.Puts? || e.Inserts?) && e.v.uid == Removing(q).value && e.v.phase.Deleting?)
  }

  /** A call comes to own a claimed VM by taking it, and a VM being provisioned by recording it; one that
      has set out to delete a VM does nothing else with it. */
  ghost predicate TakesUp(p: Proc, e: Effect) {
    var q := After(p, e);
    && (Claimer(q).Some? ==>
          || IsOf(Claimer(p), Claimer(q).value) || (e.Takes? && q.ClaimHooking? && e.v.uid == Claimer(q).value.uid))
    && (Builder(q).Some? ==> IsOf(Builder(p), Builder(q).value) || (e.Inserts? && e.v.uid == Builder(q).value.uid))
    && (p.Asking? || p.Dropping? ==> q.Asking? || q.Dropping? || (Claimer(q).None? && Builder(q).None?))
    && (e.Kills? ==> Unrecorded(q).None?)
  }

  ghost predicate Staffed(s: State, p: Proc, e: Effect) {
    var q := After(p, e);
    && (Boss(q).Some? ==> Boss(q) == Boss(p))
    && (IsMaking(q) ==> IsMaking(p))
    && (e.Inserts? ==> IsMaking(p) && !IsMaking(q))
    && (e.Puts? ==> WritesBack(p, e.v))
    && (e.Starts? ==> e.r !in s.mgr.recons)
    && Condemns(s.db, p, e)
    && TakesUp(p, e)
  }

  lemma ClaimFirstStaffed(s: State, p: Proc, c: Choice)
    requires InClaimFirst(p)
    ensures Staffed(s, p, ClaimFirstPlan(s, p, c))
  {
  }

  lemma ClaimLastStaffed(s: State, p: Proc, c: Choice)
    requires InClaimLast(p)
    ensures Staffed(s, p, ClaimLastPlan(s, p, c))
  {
  }

  lemma FailingStaffed(s: State, p: Proc, c: Choice)
    requires p.Failing?
    ensures Staffed(s, p, PlanFailing(s, p, c))
  {
  }

  lemma AskingStaffed(s: State, p: Proc, c: Choice)
    requires p.Asking?
    ensures Staffed(s, p, PlanAsking(s, p, c))
  {
  }

  lemma DroppingStaffed(s: State, p: Proc, c: Choice)
    requires p.Dropping?
    ensures Staffed(s, p, PlanDropping(s, p, c))
  {
  }

  lemma DeleteStaffed(s: State, p: Proc, c: Choice)
    requires InDelete(p)
    ensures Staffed(s, p, DeletePlan(s, p, c))
  {
    hide Staffed;
    match p
    case Failing(_, _, _) => FailingStaffed(s, p, c);
    case Asking(_, _) => AskingStaffed(s, p, c);
    case Dropping(_, _) => DroppingStaffed(s, p, c);
  }

  lemma ReleaseStaffed(s: State, p: Proc, c: Choice)
    requires InRelease(p)
    ensures Staffed(s, p, ReleasePlan(s, p, c))
  {
  }

  lemma ClosingStaffed(s: State, p: Proc, c: Choice)
    requires InClosing(p)
    ensures Staffed(s, p, ClosingPlan(s, p, c))
  {
  }

  lemma BeatStaffed(s: State, p: Proc, c: Choice)
    requires InBeat(p)
    ensures Staffed(s, p, BeatPlan(s, p, c))
  {
  }

  lemma ExpiryStaffed(s: State, p: Proc, c: Choice)
    requires InExpiry(p)
    ensures Staffed(s, p, ExpiryPlan(s, p, c))
  {
  }

  lemma ProvStartStaffed(s: State, p: Proc, c: Choice)
    requires p.ProvStart?
    ensures Staffed(s, p, PlanProvStart(s, p, c))
  {
  }

  lemma ProvReservedStaffed(s: State, p: Proc, c: Choice)
    requires p.ProvReserved?
    ensures Staffed(s, p, PlanProvReserved(s, p, c))
  {
  }

  lemma ProvCreatedStaffed(s: State, p: Proc, c: Choice)
    requires p.ProvCreated?
    ensures Staffed(s, p, PlanProvCreated(s, p, c))
  {
  }

  lemma ProvRecordedStaffed(s: State, p: Proc, c: Choice)
    requires p.ProvRecorded?
    ensures Staffed(s, p, PlanProvRecorded(s, p, c))
  {
  }

  lemma CreateStaffed(s: State, p: Proc, c: Choice)
    requires InCreate(p)
    ensures Staffed(s, p, CreatePlan(s, p, c))
  {
    hide Staffed;
    match p
    case ProvStart(_, _) => ProvStartStaffed(s, p, c);
    case ProvReserved(_, _, _, _) => ProvReservedStaffed(s, p, c);
    case ProvCreated(_, _, _, _) => ProvCreatedStaffed(s, p, c);
    case ProvRecorded(_, _, _, _) => ProvRecordedStaffed(s, p, c);
  }

  lemma BootStaffed(s: State, p: Proc, c: Choice)
    requires InBoot(p)
    ensures Staffed(s, p, BootPlan(s, p, c))
  {
  }

  lemma ProvFailStaffed(s: State, p: Proc, c: Choice)
    requires p.ProvFail?
    ensures Staffed(s, p, PlanProvFail(s, p, c))
  {
  }

  lemma ProvOrphanStaffed(s: State, p: Proc, c: Choice)
    requires p.ProvOrphan?
    ensures Staffed(s, p, PlanProvOrphan(s, p, c))
  {
  }

  lemma ProvReleaseStaffed(s: State, p: Proc, c: Choice)
    requires p.ProvRelease?
    ensures Staffed(s, p, PlanProvRelease(s, p, c))
  {
  }

  lemma UndoStaffed(s: State, p: Proc, c: Choice)
    requires InUndo(p)
    ensures Staffed(s, p, UndoPlan(s, p, c))
  {
    hide Staffed;
    match p
    case ProvFail(_, _, _) => ProvFailStaffed(s, p, c);
    case ProvOrphan(_, _, _, _) => ProvOrphanStaffed(s, p, c);
    case ProvRelease(_, _, _) => ProvReleaseStaffed(s, p, c);
  }

  /** A call of PoolAdmin owns no VM and provisions nothing. */
  lemma AdminWorksOnNone(p: Proc)
    requires InPoolAdmin(p)
    ensures Boss(p).None? && Claimer(p).None? && Builder(p).None? && Removing(p).None? && !IsMaking(p)
  {
  }

  lemma PoolWriteStaffed(s: State, p: Proc, c: Choice)
    requires InPoolWrite(p)
    ensures Staffed(s, p, PoolWritePlan(s, p, c))
  {
    hide Boss, Claimer, Builder, Removing, IsMaking;
    AdminWorksOnNone(After(p, PoolWritePlan(s, p, c)));
  }

  lemma PoolRestartStaffed(s: State, p: Proc, c: Choice)
    requires InPoolRestart(p)
    ensures Staffed(s, p, PoolRestartPlan(s, p, c))
  {
    hide Boss, Claimer, Builder, Removing, IsMaking;
    AdminWorksOnNone(After(p, PoolRestartPlan(s, p, c)));
  }

  lemma DelStopStaffed(s: State, p: Proc, c: Choice)
    requires InDelStop(p)
    ensures Staffed(s, p, DelStopPlan(s, p, c))
  {
    hide Boss, Claimer, Builder, Removing, IsMaking;
    AdminWorksOnNone(After(p, DelStopPlan(s, p, c)));
  }

  lemma DelWaitStaffed(s: State, p: Proc, c: Choice)
    requires InDelWait(p)
    ensures Staffed(s, p, DelWaitPlan(s, p, c))
  {
    hide Boss, Claimer, Builder, Removing, IsMaking;
    AdminWorksOnNone(After(p, DelWaitPlan(s, p, c)));
  }

  lemma ClaimSideStaffed(s: State, p: Proc, c: Choice)
    requires ClaimsOrDeletes(p)
    ensures Staffed(s, p, ClaimSidePlan(s, p, c))
  {
    hide Staffed;
    if InClaimFirst(p) { ClaimFirstStaffed(s, p, c); }
    else if InClaimLast(p) { ClaimLastStaffed(s, p, c); }
    else { DeleteStaffed(s, p, c); }
  }

  lemma LeaseSideStaffed(s: State, p: Proc, c: Choice)
    requires EndsLeases(p)
    ensures Staffed(s, p, LeaseSidePlan(s, p, c))
  {
    hide Staffed;
    if InRelease(p) { ReleaseStaffed(s, p, c); }
    else if InClosing(p) { ClosingStaffed(s, p, c); }
    else if InBeat(p) { BeatStaffed(s, p, c); }
    else { ExpiryStaffed(s, p, c); }
  }

  lemma BuildSideStaffed(s: State, p: Proc, c: Choice)
    requires Provisions(p)
    ensures Staffed(s, p, BuildSidePlan(s, p, c))
  {
    hide Staffed;
    if InCreate(p) { CreateStaffed(s, p, c); }
    else if InBoot(p) { BootStaffed(s, p, c); }
    else { UndoStaffed(s, p, c); }
  }

  lemma PoolSideStaffed(s: State, p: Proc, c: Choice)
    ensures Staffed(s, p, PoolSidePlan(s, p, c))
  {
    if InPoolWrite(p) { PoolWriteStaffed(s, p, c); }
    else if InPoolRestart(p) { PoolRestartStaffed(s, p, c); }
    else if InDelStop(p) { DelStopStaffed(s, p, c); }
    else if InDelWait(p) { DelWaitStaffed(s, p, c); }
  }

  lemma PlanStaffed(s: State, p: Proc, c: Choice)
    ensures Staffed(s, p, Plan(s, p, c))
  {
    hide Staffed;
    if ClaimsOrDeletes(p) { ClaimSideStaffed(s, p, c); }
    else if EndsLeases(p) { LeaseSideStaffed(s, p, c); }
    else if Provisions(p) { BuildSideStaffed(s, p, c); }
    else { PoolSideStaffed(s, p, c); }
  }
}
