/** What each plan may ask for: which effects a call can have at which point, and on what. */
module Plans {
  import opened Records
  import opened Transactions
  import opened Protocol

  /** The host of a create in flight, or of a microVM created and not recorded. */
  function Pending(p: Proc): Option<HostName> {
    match p
    case ProvReserved(_, _, _, h) => Some(h)
    case ProvCreated(_, _, _, v) => Some(v.host)
    case ProvOrphan(_, _, _, v) => Some(v.host)
    case Asking(OrphanJob(_, _, false), v) => Some(v.host)
    case _ => None
  }

  /** The point a call is at after the effect. */
  function After(p: Proc, e: Effect): Proc {
    match e
    case Stays => p
    case Unlocks(_) => Done
    case Starts(_, _) => Done
    case _ => e.q
  }

  predicate SamePlace(v: Vm, w: Vm) {
    v.uid == w.uid && v.pool == w.pool && v.host == w.host
  }

  predicate IsOf(o: Option<Vm>, v: Vm) {
    o.Some? && SamePlace(o.value, v)
  }

  /** Row writes: an update is of the VM whose record the call holds and is refused on a DELETING
      row; an insert is of the microVM the call created; only an AVAILABLE row is claimed; a row
      goes only after flintlock confirmed the delete, or stays as a tombstone. */
  predicate RowEffectOk(db: Db, p: Proc, e: Effect) {
    match e
    case Puts(_, v) => IsOf(Held(p), v) && CanUpdateVm(db, v)
    case Inserts(q, v) =>
      && (p.ProvCreated? || p.ProvOrphan?) && v.uid !in db.vms
      && v == if p.ProvCreated? then p.vm else p.vm.(phase := Deleting)
    case Takes(_, v) => p.ClaimPick? && CanClaim(db, p.pool, v.uid) && v == db.vms[v.uid].(phase := Leased)
    case Commits(_, v, l) =>
      p.ClaimLeasing? && v == p.vm.(phase := Leased, leaseId := Some(l.id)) && CanUpdateVm(db, v)
    case Drops(_, u) => p.Dropping? && u == p.vm.uid && u in db.vms
    case RemovesPool(_, k) => p.DelReady? && k == p.key && CanDeletePool(db, k, p.force)
    case _ => true
  }

  /** Reservations: made only on a registered host that is not cordoned, and given up only by the
      call that holds them; a birth happens under one, on its host. */
  predicate YardEffectOk(s: State, p: Proc, e: Effect) {
    match e
    case Reserves(q, pl, row) =>
      && p.ProvStart? && CanReserve(s.db, pl, row.host) && pl !in s.placed && row.pool == p.spec.key
      && Reserver(q) == Some((pl, row.host))
    case Frees(q, pl) => Reserver(p).Some? && Reserver(p).value.0 == pl && Reserver(q).None?
    case Overstays(q, pl) => Reserver(p).Some? && Reserver(p).value.0 == pl && Reserver(q).None?
    case Bears(q, u, pool, h, lost) =>
      p.ProvReserved? && u !in s.births && pool == p.spec.key && h == p.host && Reserver(q) == Reserver(p)
    case _ => Reserver(After(p, e)) == Reserver(p)
  }

  /** A call starts creating only with a fresh reservation, holds a microVM unrecorded only from
      flintlock's answer on, and not after the row is written. */
  predicate MakingOk(p: Proc, e: Effect) {
    var q := After(p, e);
    && (Pending(q).Some? ==> Pending(q) == Pending(p) || (e.Reserves? && Pending(q) == Some(e.row.host)))
    && (Unrecorded(q).Some? ==>
         IsOf(Unrecorded(p), Unrecorded(q).value) || (e.Bears? && Unrecorded(q).value.uid == e.u))
    && (e.Inserts? ==> Pending(p).Some? && Pending(q).None?)
  }

  /** Leases: committed with a fresh id and an unused request id; renewed only while the row is
      there; removed by expiry only at or after the expiry time in the row. */
  predicate LeaseEffectOk(s: State, p: Proc, e: Effect) {
    match e
    case Commits(_, v, l) =>
      && p.ClaimLeasing? && l.id !in s.minted && !RequestTaken(s.db, l.request)
      && l.vm == p.vm.uid && l.pool == p.pool && l.request == p.request
    case Renews(_, l) =>
      p.BeatWriting? && p.lease.id in s.db.leases && l == Renewed(s.db.leases[p.lease.id], l.heartbeatAt, l.expiresAt)
    case Ends(_, l) =>
      || (p.ExpiryStart? && l == p.id && IsExpired(s.db, l, p.now))
      || ((p.ReleaseDropping? || p.Closing?) && l == p.lease.id)
    case _ => true
  }

  predicate PoolEffectOk(s: State, p: Proc, e: Effect) {
    match e
    case WritesPool(_, spec) => p.PoolWriting? && spec == p.spec && (p.create <==> spec.key !in s.db.pools)
    case Kills(_, u) => p.Asking? && u == p.vm.uid
    case Loses(_, u) => p.Asking? && p.job.OrphanJob? && !p.job.recorded && u == p.vm.uid
    case Forsakes(_, u) => p.Failing? && u == p.vm.uid
    case Records(q, ev) =>
      || (p.ClosingEvent? && q == ReleaseOk(p.lease) && ev == Event(p.lease.pool, p.lease.vm, VmDeletedOnRelease))
      || (p.DelEvents? && ev == Event(p.key, ev.vm, VmDeletedOnPoolDelete) && ev.vm in p.owed
         && q == DelEvents(p.key, p.owed - {ev.vm}))
    case _ => true
  }

  predicate Allowed(s: State, p: Proc, e: Effect) {
    RowEffectOk(s.db, p, e) && YardEffectOk(s, p, e) && MakingOk(p, e) && LeaseEffectOk(s, p, e)
      && PoolEffectOk(s, p, e)
  }

  /** Rows are stored under their uid. */
  ghost predicate Keyed(vms: map<Uid, Vm>) {
    forall u | u in vms :: vms[u].uid == u
  }

  lemma ClaimFirstAllowed(s: State, p: Proc, c: Choice)
    requires InClaimFirst(p) && Keyed(s.db.vms)
    ensures Allowed(s, p, ClaimFirstPlan(s, p, c))
  {
  }

  lemma ClaimLastAllowed(s: State, p: Proc, c: Choice)
    requires InClaimLast(p) && Keyed(s.db.vms)
    ensures Allowed(s, p, ClaimLastPlan(s, p, c))
  {
  }

  lemma FailingAllowed(s: State, p: Proc, c: Choice)
    requires p.Failing? && Keyed(s.db.vms)
    ensures Allowed(s, p, PlanFailing(s, p, c))
  {
  }

  lemma AskingAllowed(s: State, p: Proc, c: Choice)
    requires p.Asking? && Keyed(s.db.vms)
    ensures Allowed(s, p, PlanAsking(s, p, c))
  {
  }

  lemma DroppingAllowed(s: State, p: Proc, c: Choice)
    requires p.Dropping? && Keyed(s.db.vms)
    ensures Allowed(s, p, PlanDropping(s, p, c))
  {
  }

  lemma DeleteAllowed(s: State, p: Proc, c: Choice)
    requires InDelete(p) && Keyed(s.db.vms)
    ensures Allowed(s, p, DeletePlan(s, p, c))
  {
    match p
    case Failing(_, _, _) => FailingAllowed(s, p, c);
    case Asking(_, _) => AskingAllowed(s, p, c);
    case Dropping(_, _) => DroppingAllowed(s, p, c);
  }

  lemma ReleaseAllowed(s: State, p: Proc, c: Choice)
    requires InRelease(p) && Keyed(s.db.vms)
    ensures Allowed(s, p, ReleasePlan(s, p, c))
  {
  }

  lemma ClosingAllowed(s: State, p: Proc, c: Choice)
    requires InClosing(p) && Keyed(s.db.vms)
    ensures Allowed(s, p, ClosingPlan(s, p, c))
  {
  }

  lemma BeatAllowed(s: State, p: Proc, c: Choice)
    requires InBeat(p) && Keyed(s.db.vms)
    ensures Allowed(s, p, BeatPlan(s, p, c))
  {
  }

  lemma ExpiryAllowed(s: State, p: Proc, c: Choice)
    requires InExpiry(p) && Keyed(s.db.vms)
    ensures Allowed(s, p, ExpiryPlan(s, p, c))
  {
  }

  lemma ProvStartAllowed(s: State, p: Proc, c: Choice)
    requires p.ProvStart? && Keyed(s.db.vms)
    ensures Allowed(s, p, PlanProvStart(s, p, c))
  {
  }

  lemma ProvReservedAllowed(s: State, p: Proc, c: Choice)
    requires p.ProvReserved? && Keyed(s.db.vms)
    ensures Allowed(s, p, PlanProvReserved(s, p, c))
  {
  }

  lemma ProvCreatedAllowed(s: State, p: Proc, c: Choice)
    requires p.ProvCreated? && Keyed(s.db.vms)
    ensures Allowed(s, p, PlanProvCreated(s, p, c))
  {
  }

  lemma ProvRecordedAllowed(s: State, p: Proc, c: Choice)
    requires p.ProvRecorded? && Keyed(s.db.vms)
    ensures Allowed(s, p, PlanProvRecorded(s, p, c))
  {
  }

  lemma CreateAllowed(s: State, p: Proc, c: Choice)
    requires InCreate(p) && Keyed(s.db.vms)
    ensures Allowed(s, p, CreatePlan(s, p, c))
  {
    match p
    case ProvStart(_, _) => ProvStartAllowed(s, p, c);
    case ProvReserved(_, _, _, _) => ProvReservedAllowed(s, p, c);
    case ProvCreated(_, _, _, _) => ProvCreatedAllowed(s, p, c);
    case ProvRecorded(_, _, _, _) => ProvRecordedAllowed(s, p, c);
  }

  lemma BootAllowed(s: State, p: Proc, c: Choice)
    requires InBoot(p) && Keyed(s.db.vms)
    ensures Allowed(s, p, BootPlan(s, p, c))
  {
    match p
    case ProvMarkHook(_, _, _) => ProvMarkHookAllowed(s, p, c);
    case ProvMarkAvailable(_, _, _) => ProvMarkAvailableAllowed(s, p, c);
    case _ =>
  }

  lemma ProvMarkHookAllowed(s: State, p: Proc, c: Choice)
    requires p.ProvMarkHook? && Keyed(s.db.vms)
    ensures Allowed(s, p, PlanProvMarkHook(s, p, c))
  {
  }

  lemma ProvMarkAvailableAllowed(s: State, p: Proc, c: Choice)
    requires p.ProvMarkAvailable? && Keyed(s.db.vms)
    ensures Allowed(s, p, PlanProvMarkAvailable(s, p, c))
  {
  }

  lemma UndoAllowed(s: State, p: Proc, c: Choice)
    requires InUndo(p) && Keyed(s.db.vms)
    ensures Allowed(s, p, UndoPlan(s, p, c))
  {
  }

  predicate InPoolAdmin(p: Proc) {
    InPoolWrite(p) || InPoolRestart(p) || InDelStop(p) || InDelWait(p) || p.Done?
  }

  /** A call of PoolAdmin holds no VM and no reservation. */
  lemma AdminHoldsNothing(p: Proc)
    requires InPoolAdmin(p)
    ensures Held(p).None? && Reserver(p).None? && Pending(p).None? && Unrecorded(p).None?
  {
    hide Held, Reserver, Pending, Unrecorded;
    AdminHoldsNoVm(p);
    AdminReservesNothing(p);
  }

  lemma AdminHoldsNoVm(p: Proc)
    requires InPoolAdmin(p)
    ensures Held(p).None? && Unrecorded(p).None?
  {
  }

  lemma AdminReservesNothing(p: Proc)
    requires InPoolAdmin(p)
    ensures Reserver(p).None? && Pending(p).None?
  {
  }

  lemma PoolWriteAllowed(s: State, p: Proc, c: Choice)
    requires InPoolWrite(p) && Keyed(s.db.vms)
    ensures Allowed(s, p, PoolWritePlan(s, p, c))
  {
    hide Held, Reserver, Pending, Unrecorded;
    AdminHoldsNothing(p);
    AdminHoldsNothing(After(p, PoolWritePlan(s, p, c)));
  }

  lemma PoolRestartAllowed(s: State, p: Proc, c: Choice)
    requires InPoolRestart(p) && Keyed(s.db.vms)
    ensures Allowed(s, p, PoolRestartPlan(s, p, c))
  {
    hide Held, Reserver, Pending, Unrecorded;
    AdminHoldsNothing(p);
    AdminHoldsNothing(After(p, PoolRestartPlan(s, p, c)));
  }

  lemma DelStopAllowed(s: State, p: Proc, c: Choice)
    requires InDelStop(p) && Keyed(s.db.vms)
    ensures Allowed(s, p, DelStopPlan(s, p, c))
  {
    hide Held, Reserver, Pending, Unrecorded;
    AdminHoldsNothing(p);
    AdminHoldsNothing(After(p, DelStopPlan(s, p, c)));
  }

  lemma DelWaitAllowed(s: State, p: Proc, c: Choice)
    requires InDelWait(p) && Keyed(s.db.vms)
    ensures Allowed(s, p, DelWaitPlan(s, p, c))
  {
    hide Held, Reserver, Pending, Unrecorded;
    AdminHoldsNothing(p);
    AdminHoldsNothing(After(p, DelWaitPlan(s, p, c)));
  }

  lemma StaysAllowed(s: State, p: Proc)
    ensures Allowed(s, p, Stays)
  {
  }

  lemma ClaimSideAllowed(s: State, p: Proc, c: Choice)
    requires ClaimsOrDeletes(p) && Keyed(s.db.vms)
    ensures Allowed(s, p, ClaimSidePlan(s, p, c))
  {
    hide Allowed, ClaimFirstPlan, ClaimLastPlan, DeletePlan;
    if InClaimFirst(p) { ClaimFirstAllowed(s, p, c); }
    else if InClaimLast(p) { ClaimLastAllowed(s, p, c); }
    else if InDelete(p) { DeleteAllowed(s, p, c); }
  }

  lemma LeaseSideAllowed(s: State, p: Proc, c: Choice)
    requires EndsLeases(p) && Keyed(s.db.vms)
    ensures Allowed(s, p, LeaseSidePlan(s, p, c))
  {
    hide Allowed, ExpiryPlan, ReleasePlan, ClosingPlan, BeatPlan;
    if InRelease(p) { ReleaseAllowed(s, p, c); }
    else if InClosing(p) { ClosingAllowed(s, p, c); }
    else if InBeat(p) { BeatAllowed(s, p, c); }
    else if InExpiry(p) { ExpiryAllowed(s, p, c); }
  }

  lemma BuildSideAllowed(s: State, p: Proc, c: Choice)
    requires Provisions(p) && Keyed(s.db.vms)
    ensures Allowed(s, p, BuildSidePlan(s, p, c))
  {
    hide Allowed, CreatePlan, BootPlan, UndoPlan;
    if InCreate(p) { CreateAllowed(s, p, c); }
    else if InBoot(p) { BootAllowed(s, p, c); }
    else { UndoAllowed(s, p, c); }
  }

  lemma PoolSideAllowed(s: State, p: Proc, c: Choice)
    requires Keyed(s.db.vms)
    ensures Allowed(s, p, PoolSidePlan(s, p, c))
  {
    hide Allowed, DelWaitPlan, DelStopPlan, PoolWritePlan, PoolRestartPlan;
    if InPoolWrite(p) { PoolWriteAllowed(s, p, c); }
    else if InPoolRestart(p) { PoolRestartAllowed(s, p, c); }
    else if InDelStop(p) { DelStopAllowed(s, p, c); }
    else if InDelWait(p) { DelWaitAllowed(s, p, c); }
    else { StaysAllowed(s, p); }
  }

  lemma PlanAllowed(s: State, p: Proc, c: Choice)
    requires Keyed(s.db.vms)
    ensures Allowed(s, p, Plan(s, p, c))
  {
    hide ClaimSidePlan, Allowed, LeaseSidePlan, PoolSidePlan, BuildSidePlan;
    if ClaimsOrDeletes(p) { ClaimSideAllowed(s, p, c); }
    else if EndsLeases(p) { LeaseSideAllowed(s, p, c); }
    else if Provisions(p) { BuildSideAllowed(s, p, c); }
    else { PoolSideAllowed(s, p, c); }
  }
}
