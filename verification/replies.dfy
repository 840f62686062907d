/** What a call answers, and from what: the lease it names, the VM it gave back or gave up on, the pool
    spec it goes by. */
module Replies {
  import opened Records
  import opened Transactions
  import opened Protocol
  import opened Plans

  /** The hook failure policy is being applied to u. */
  predicate Doomed(p: Proc, u: Uid) {
    && (p.ProvFail? || p.Failing? || ((p.Asking? || p.Dropping?) && p.job.HookJob?))
    && p.vm.uid == u
  }

  predicate ClaimDoomed(p: Proc, u: Uid) {
    Doomed(p, u) && Claimer(p).Some?
  }

  /** A lease row the call has just read. */
  ghost predicate ReadsLease(db: Db, l: Lease) {
    exists id :: id in db.leases && db.leases[id] == l
  }

  /** The pool a ClaimVM call was asked for, and the spec it goes by. */
  function ClaimTerms(p: Proc): Option<(PoolKey, PoolSpec)> {
    match p
    case ClaimLookup(k, _, spec) => Some((k, spec))
    case ClaimPick(k, _, spec) => Some((k, spec))
    case ClaimHooking(k, _, spec, _) => Some((k, spec))
    case ClaimRunning(k, _, spec, _) => Some((k, spec))
    case ClaimLeasing(k, _, spec, _) => Some((k, spec))
    case ClaimYielding(k, _, spec, _) => Some((k, spec))
    case _ => None
  }

  /** The spec a Provision call works from. */
  function BuildSpec(p: Proc): Option<PoolSpec> {
    match p
    case ProvStart(_, spec) => Some(spec)
    case ProvReserved(_, spec, _, _) => Some(spec)
    case ProvCreated(_, spec, _, _) => Some(spec)
    case ProvRecorded(_, spec, _, _) => Some(spec)
    case ProvWaiting(_, spec, _) => Some(spec)
    case ProvMarkHook(_, spec, _) => Some(spec)
    case ProvHooks(_, spec, _) => Some(spec)
    case ProvMarkAvailable(_, spec, _) => Some(spec)
    case ProvFail(_, spec, _) => Some(spec)
    case ProvOrphan(_, spec, _, _) => Some(spec)
    case _ => None
  }

  /** A claim reads its spec from the pool row and keeps it, a heartbeat its threshold; a Provision call
      keeps the spec it was started with; and the failure policy is that of the spec. */
  ghost predicate KeepsTerms(db: Db, p: Proc, e: Effect) {
    var q := After(p, e);
    && (ClaimTerms(q).Some? ==>
          || ClaimTerms(q) == ClaimTerms(p)
          || (p.ClaimStart? && p.pool in db.pools && ClaimTerms(q) == Some((p.pool, db.pools[p.pool]))))
    && (BuildSpec(q).Some? ==> BuildSpec(q) == BuildSpec(p))
    && (q.BeatWriting? && q != p ==>
          && p.BeatGot? && p.lease.pool in db.pools
          && q == BeatWriting(p.lease, db.pools[p.lease.pool].expiryThreshold))
    && (q.Failing? && q != p ==>
          if q.who.ByClaim?
          then ClaimTerms(p).Some? && q.policy == ClaimTerms(p).value.1.policy
          else BuildSpec(p).Some? && q.policy == BuildSpec(p).value.policy)
  }

  ghost predicate Replied(s: State, p: Proc, e: Effect) {
    var q := After(p, e);
    && (q.ClaimFailed? && q != p ==> ClaimDoomed(p, q.took))
    && (q.ClaimYielded? && q != p ==>
          p.ClaimYielding? && e.Puts? && e.v == p.vm.(phase := Available, leaseId := None) && q.gave == e.v.uid)
    && (q.ClaimReplay? && q != p ==> ReadsLease(s.db, q.lease) && q.request == q.lease.request)
    && (q.ClaimOk? && q != p ==>
          || (p.ClaimReplay? && q == ClaimOk(p.pool, p.request, p.lease.id))
          || (p.ClaimLeasing? && e.Commits? && q == ClaimOk(p.pool, p.request, e.l.id)))
    && (p.ClaimYielded? || p.ClaimReplay? || p.ClaimOk? || p.ClaimFailed? || p.Done? ==>
          (e.Moves? || e.Stays?) && (q == p || q.ClaimReplay? || q.ClaimOk? || q.Done?))
    && KeepsTerms(s.db, p, e)
  }

  lemma ClaimFirstReplied(s: State, p: Proc, c: Choice)
    requires InClaimFirst(p)
    ensures Replied(s, p, ClaimFirstPlan(s, p, c))
  {
  }

  lemma ClaimLastReplied(s: State, p: Proc, c: Choice)
    requires InClaimLast(p)
    ensures Replied(s, p, ClaimLastPlan(s, p, c))
  {
  }

  lemma FailingReplied(s: State, p: Proc, c: Choice)
    requires p.Failing?
    ensures Replied(s, p, PlanFailing(s, p, c))
  {
  }

  lemma AskingReplied(s: State, p: Proc, c: Choice)
    requires p.Asking?
    ensures Replied(s, p, PlanAsking(s, p, c))
  {
  }

  lemma DroppingReplied(s: State, p: Proc, c: Choice)
    requires p.Dropping?
    ensures Replied(s, p, PlanDropping(s, p, c))
  {
  }

  lemma DeleteReplied(s: State, p: Proc, c: Choice)
    requires InDelete(p)
    ensures Replied(s, p, DeletePlan(s, p, c))
  {
    hide Replied;
    match p
    case Failing(_, _, _) => FailingReplied(s, p, c);
    case Asking(_, _) => AskingReplied(s, p, c);
    case Dropping(_, _) => DroppingReplied(s, p, c);
  }

  lemma ReleaseReplied(s: State, p: Proc, c: Choice)
    requires InRelease(p)
    ensures Replied(s, p, ReleasePlan(s, p, c))
  {
  }

  lemma ClosingReplied(s: State, p: Proc, c: Choice)
    requires InClosing(p)
    ensures Replied(s, p, ClosingPlan(s, p, c))
  {
  }

  lemma BeatReplied(s: State, p: Proc, c: Choice)
    requires InBeat(p)
    ensures Replied(s, p, BeatPlan(s, p, c))
  {
  }

  lemma ExpiryReplied(s: State, p: Proc, c: Choice)
    requires InExpiry(p)
    ensures Replied(s, p, ExpiryPlan(s, p, c))
  {
  }

  lemma ProvStartReplied(s: State, p: Proc, c: Choice)
    requires p.ProvStart?
    ensures Replied(s, p, PlanProvStart(s, p, c))
  {
  }

  lemma ProvReservedReplied(s: State, p: Proc, c: Choice)
    requires p.ProvReserved?
    ensures Replied(s, p, PlanProvReserved(s, p, c))
  {
  }

  lemma ProvCreatedReplied(s: State, p: Proc, c: Choice)
    requires p.ProvCreated?
    ensures Replied(s, p, PlanProvCreated(s, p, c))
  {
  }

  lemma ProvRecordedReplied(s: State, p: Proc, c: Choice)
    requires p.ProvRecorded?
    ensures Replied(s, p, PlanProvRecorded(s, p, c))
  {
  }

  lemma CreateReplied(s: State, p: Proc, c: Choice)
    requires InCreate(p)
    ensures Replied(s, p, CreatePlan(s, p, c))
  {
    hide Replied;
    match p
    case ProvStart(_, _) => ProvStartReplied(s, p, c);
    case ProvReserved(_, _, _, _) => ProvReservedReplied(s, p, c);
    case ProvCreated(_, _, _, _) => ProvCreatedReplied(s, p, c);
    case ProvRecorded(_, _, _, _) => ProvRecordedReplied(s, p, c);
  }

  lemma BootReplied(s: State, p: Proc, c: Choice)
    requires InBoot(p)
    ensures Replied(s, p, BootPlan(s, p, c))
  {
  }

  lemma UndoReplied(s: State, p: Proc, c: Choice)
    requires InUndo(p)
    ensures Replied(s, p, UndoPlan(s, p, c))
  {
  }

  /** A call of PoolAdmin claims and provisions nothing. */
  lemma AdminCarriesNothing(p: Proc)
    requires InPoolAdmin(p)
    ensures ClaimTerms(p).None? && BuildSpec(p).None?
  {
  }

  lemma PoolWriteReplied(s: State, p: Proc, c: Choice)
    requires InPoolWrite(p)
    ensures Replied(s, p, PoolWritePlan(s, p, c))
  {
    hide ClaimTerms, BuildSpec, ClaimDoomed, ReadsLease;
    AdminCarriesNothing(After(p, PoolWritePlan(s, p, c)));
  }

  lemma PoolRestartReplied(s: State, p: Proc, c: Choice)
    requires InPoolRestart(p)
    ensures Replied(s, p, PoolRestartPlan(s, p, c))
  {
    hide ClaimTerms, BuildSpec, ClaimDoomed, ReadsLease;
    AdminCarriesNothing(After(p, PoolRestartPlan(s, p, c)));
  }

  lemma DelStopReplied(s: State, p: Proc, c: Choice)
    requires InDelStop(p)
    ensures Replied(s, p, DelStopPlan(s, p, c))
  {
    hide ClaimTerms, BuildSpec, ClaimDoomed, ReadsLease;
    AdminCarriesNothing(After(p, DelStopPlan(s, p, c)));
  }

  lemma DelWaitReplied(s: State, p: Proc, c: Choice)
    requires InDelWait(p)
    ensures Replied(s, p, DelWaitPlan(s, p, c))
  {
    hide ClaimTerms, BuildSpec, ClaimDoomed, ReadsLease;
    AdminCarriesNothing(After(p, DelWaitPlan(s, p, c)));
  }

  lemma ClaimSideReplied(s: State, p: Proc, c: Choice)
    requires ClaimsOrDeletes(p)
    ensures Replied(s, p, ClaimSidePlan(s, p, c))
  {
    hide Replied;
    if InClaimFirst(p) { ClaimFirstReplied(s, p, c); }
    else if InClaimLast(p) { ClaimLastReplied(s, p, c); }
    else { DeleteReplied(s, p, c); }
  }

  lemma LeaseSideReplied(s: State, p: Proc, c: Choice)
    requires EndsLeases(p)
    ensures Replied(s, p, LeaseSidePlan(s, p, c))
  {
    hide Replied;
    if InRelease(p) { ReleaseReplied(s, p, c); }
    else if InClosing(p) { ClosingReplied(s, p, c); }
    else if InBeat(p) { BeatReplied(s, p, c); }
    else { ExpiryReplied(s, p, c); }
  }

  lemma BuildSideReplied(s: State, p: Proc, c: Choice)
    requires Provisions(p)
    ensures Replied(s, p, BuildSidePlan(s, p, c))
  {
    hide Replied;
    if InCreate(p) { CreateReplied(s, p, c); }
    else if InBoot(p) { BootReplied(s, p, c); }
    else { UndoReplied(s, p, c); }
  }

  lemma PoolSideReplied(s: State, p: Proc, c: Choice)
    ensures Replied(s, p, PoolSidePlan(s, p, c))
  {
    if InPoolWrite(p) { PoolWriteReplied(s, p, c); }
    else if InPoolRestart(p) { PoolRestartReplied(s, p, c); }
    else if InDelStop(p) { DelStopReplied(s, p, c); }
    else if InDelWait(p) { DelWaitReplied(s, p, c); }
  }

  lemma PlanReplied(s: State, p: Proc, c: Choice)
    ensures Replied(s, p, Plan(s, p, c))
  {
    hide Replied;
    if ClaimsOrDeletes(p) { ClaimSideReplied(s, p, c); }
    else if EndsLeases(p) { LeaseSideReplied(s, p, c); }
    else if Provisions(p) { BuildSideReplied(s, p, c); }
    else { PoolSideReplied(s, p, c); }
  }
}
