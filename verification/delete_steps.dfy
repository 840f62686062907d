/** Every step of the hook failure policy, EnsureVMDeleted, ReleaseVM, FinishVMDeletion, Heartbeat
    and beginExpiry keeps the invariant. */
module DeleteSteps {
  import opened Records
  import opened Transactions
  import opened Protocol
  import opened Invariant
  import opened Stability
  import opened Effects
  import opened AdminEffects
  import opened Obligations

  // ---- what a deleting call relies on ----

  /** The call that owns v: a claim, or a Provision under a running reconciler of v's pool. */
  ghost predicate OwnerOk(s: State, i: Pid, who: Who, v: Vm) {
    match who
    case ByClaim => ClaimerOk(FleetOf(s), i, v)
    case ByProvision(r) => BuilderOk(FleetOf(s), i, v) && Alive(s.mgr, r) && v.pool == s.mgr.recons[r].spec.key
  }

  ghost predicate PlacementHeld(y: Yard, i: Pid, pl: PlacementId, h: HostName) {
    pl in y.placed && y.placed[pl] == i && pl in y.placements && y.placements[pl].host == h
  }

  ghost predicate JobOk(s: State, i: Pid, job: Job, v: Vm) {
    match job
    case HookJob(who, marked) => OwnerOk(s, i, who, v) && HookJobOk(FleetOf(s), marked, v)
    case OrphanJob(r, pl, _) => PlacementHeld(YardOf(s), i, pl, v.host) && Alive(s.mgr, r)
      && v.pool == s.mgr.recons[r].spec.key
    case ReleaseJob(l) => LeaseKnown(BookOf(s), l)
    case ExpiryJob => LeaseEnded(BookOf(s), v.uid)
    case _ => true
  }

  ghost predicate FailingOk(s: State, i: Pid, who: Who, v: Vm) {
    Known(FleetOf(s), v) && OwnerOk(s, i, who, v)
  }

  lemma FailingIff(s: State, i: Pid, who: Who, policy: Policy, v: Vm)
    ensures ProcOk(s, i, Failing(who, policy, v)) <==> FailingOk(s, i, who, v)
  {
    match who
    case ByClaim =>
    case ByProvision(r) =>
  }

  lemma AskingHook(s: State, i: Pid, who: Who, marked: bool, v: Vm)
    ensures ProcOk(s, i, Asking(HookJob(who, marked), v)) <==>
              Known(FleetOf(s), v) && JobOk(s, i, HookJob(who, marked), v)
  {
    match who
    case ByClaim =>
    case ByProvision(r) =>
  }

  lemma DroppingHook(s: State, i: Pid, who: Who, marked: bool, v: Vm)
    ensures ProcOk(s, i, Dropping(HookJob(who, marked), v)) <==>
            Known(FleetOf(s), v) && JobOk(s, i, HookJob(who, marked), v) && v.uid !in s.live
  {
    match who
    case ByClaim =>
    case ByProvision(r) =>
  }

  lemma AskingOther(s: State, i: Pid, job: Job, v: Vm)
    requires !job.HookJob?
    ensures ProcOk(s, i, Asking(job, v)) <==>
            && Known(FleetOf(s), v) && JobOk(s, i, job, v)
            && (job.OrphanJob? && !job.recorded ==> UnrecordedOk(FleetOf(s), i, v))
  {
    match job
    case OrphanJob(r, pl, recorded) =>
    case ReleaseJob(l) =>
    case ExpiryJob =>
    case SweepJob(f) =>
  }

  lemma DroppingOther(s: State, i: Pid, job: Job, v: Vm)
    requires !job.HookJob?
    ensures ProcOk(s, i, Dropping(job, v)) <==> Known(FleetOf(s), v) && JobOk(s, i, job, v) && v.uid !in s.live
  {
    match job
    case OrphanJob(r, pl, recorded) =>
    case ReleaseJob(l) =>
    case ExpiryJob =>
    case SweepJob(f) =>
  }

  // ---- ApplyHookFailurePolicy ----

  ghost predicate OwnerOf(p: Proc, u: Uid) {
    Owns(Claimer(p), u) || Owns(Builder(p), u)
  }

  ghost predicate AtRest(f: Fleet, u: Uid) {
    u !in f.vms || u in f.stranded || (!HasLeasedPhase(f.vms[u]) && !AbandonedProvision(f.vms[u]))
  }

  lemma OwnerReleased(f: Fleet, leaked: set<Uid>, p: Proc, q: Proc, u: Uid)
    requires OwnerOf(p, u)
    requires AtRest(f, u) || (Claimer(p).Some? && Owns(Claimer(q), u)) || (Builder(p).Some? && Owns(Builder(q), u))
    ensures Releases(f, leaked, p, q)
  {
    OneOwner(p);
  }

  lemma OwnerMayWrite(s: State, i: Pid, who: Who, v: Vm)
    requires Base(s) && OwnerOk(s, i, who, v) && Known(FleetOf(s), v) && CanUpdateVm(s.db, v)
    requires !AbandonedProvision(v) && !v.phase.Failed?
    ensures MayWrite(FleetOf(s), i, v) && KeepsLease(BookOf(s), v)
  {
    NeverLeased(FleetOf(s), BookOf(s), v);
  }

  /** The policy's write: the VM leaves the phases that need an owner. */
  lemma PolicyWriteKeeps(s: State, i: Pid, p: Proc, q: Proc, v: Vm)
    requires Inv(s) && IsAt(s, i, p) && p.Failing? && v.uid == p.vm.uid
    requires Known(FleetOf(s), v) && OwnerOk(s, i, p.who, v) && CanUpdateVm(s.db, v)
    requires !HasLeasedPhase(v) && !AbandonedProvision(v) && !v.phase.Failed? && ProcOk(Put(s, i, q, v), i, q)
    ensures Inv(Apply(s, i, Puts(q, v)))
  {
    OwnerReleased(WithRow(FleetOf(s), v), s.leaked, p, q, v.uid);
    OwnerMayWrite(s, i, p.who, v);
    WriteKeeps(s, i, q, v);
  }

  lemma PolicyForsakes(s: State, i: Pid, p: Proc, q: Proc)
    requires Inv(s) && IsAt(s, i, p) && p.Failing?
    requires ProcOk(Forsake(s, i, q, p.vm.uid), i, q)
    ensures Inv(Apply(s, i, Forsakes(q, p.vm.uid)))
  {
    OwnerReleased(FleetOf(Forsake(s, i, q, p.vm.uid)), s.leaked, p, q, p.vm.uid);
    ForsakeKeeps(s, i, q, p.vm.uid);
  }

  /** A refused write: the row is gone, or DELETING. */
  lemma PolicyRefused(s: State, i: Pid, p: Proc, q: Proc)
    requires Inv(s) && IsAt(s, i, p) && p.Failing? && ProcOk(s, i, q)
    requires p.vm.uid in s.db.vms ==> s.db.vms[p.vm.uid].phase.Deleting?
    ensures Inv(Apply(s, i, Moves(q)))
  {
    hide ProcsOk, ProcOk, Apply, ClaimsCovered, Base, Releases, OwnedBuild, LiveCovered;
    OwnerReleased(FleetOf(s), s.leaked, p, q, p.vm.uid);
    ToKeeps(s, i, q);
  }

  lemma GivesUpPlain(who: Who, v: Vm)
    ensures IsPlain(GivesUp(who, v))
  {
  }

  lemma KeepsQuarantine(s: State, i: Pid, p: Proc, c: Choice)
    requires Inv(s) && IsAt(s, i, p) && p.Failing? && p.policy.Quarantine?
    ensures Inv(Apply(s, i, PlanFailing(s, p, c)))
  {
    hide ProcOk, Covered, Apply, RowsOk, LeasesOk, OwnsNothing, ManagerOk, HostsOk;
    var v := p.vm.(phase := Quarantined, leaseId := None);
    assert ProcOk(s, i, p);
    FailingIff(s, i, p.who, p.policy, p.vm);
    var q := GivesUp(p.who, v);
    GivesUpPlain(p.who, v);
    if !c.ok {
      PlainOk(Forsake(s, i, q, v.uid), i, q);
      PolicyForsakes(s, i, p, q);
    } else if !CanUpdateVm(s.db, v) {
      PlainOk(s, i, q);
      PolicyRefused(s, i, p, q);
    } else {
      PlainOk(Put(s, i, q, v), i, q);
      PolicyWriteKeeps(s, i, p, q, v);
    }
  }

  lemma CondemnForsakes(s: State, i: Pid, p: Proc)
    requires Inv(s) && IsAt(s, i, p) && p.Failing? && FailingOk(s, i, p.who, p.vm)
    ensures Inv(Apply(s, i, Forsakes(Asking(HookJob(p.who, false), Condemn(p.vm)), p.vm.uid)))
  {
    hide Inv, ProcOk, Apply, HasLeasedPhase;
    var q := Asking(HookJob(p.who, false), Condemn(p.vm));
    AskingHook(Forsake(s, i, q, p.vm.uid), i, p.who, false, Condemn(p.vm));
    PolicyForsakes(s, i, p, q);
  }

  lemma CondemnRefused(s: State, i: Pid, p: Proc)
    requires Inv(s) && IsAt(s, i, p) && p.Failing? && FailingOk(s, i, p.who, p.vm)
    requires p.vm.uid !in s.db.vms
    ensures Inv(Apply(s, i, Moves(Asking(HookJob(p.who, true), Condemn(p.vm)))))
  {
    hide Inv, ProcOk, Apply, HasLeasedPhase;
    AskingHook(s, i, p.who, true, Condemn(p.vm));
    PolicyRefused(s, i, p, Asking(HookJob(p.who, true), Condemn(p.vm)));
  }

  lemma CondemnWrites(s: State, i: Pid, p: Proc)
    requires Inv(s) && IsAt(s, i, p) && p.Failing? && FailingOk(s, i, p.who, p.vm)
    requires p.vm.uid in s.db.vms
    ensures Inv(Apply(s, i, Puts(Asking(HookJob(p.who, true), Condemn(p.vm)), Condemn(p.vm))))
  {
    hide Inv, ProcOk, Apply;
    var v := Condemn(p.vm);
    var q := Asking(HookJob(p.who, true), v);
    AskingHook(Put(s, i, q, v), i, p.who, true, v);
    PolicyWriteKeeps(s, i, p, q, v);
  }

  lemma KeepsCondemn(s: State, i: Pid, p: Proc, c: Choice)
    requires Inv(s) && IsAt(s, i, p) && p.Failing? && !p.policy.Quarantine?
    ensures Inv(Apply(s, i, PlanFailing(s, p, c)))
  {
    hide ProcOk, Covered, Apply, HasLeasedPhase, RowsOk, LeasesOk, ManagerOk, HostsOk;
    assert ProcOk(s, i, p);
    FailingIff(s, i, p.who, p.policy, p.vm);
    if !c.ok {
      CondemnForsakes(s, i, p);
    } else if p.vm.uid !in s.db.vms {
      CondemnRefused(s, i, p);
    } else {
      CondemnWrites(s, i, p);
    }
  }

  // ---- EnsureVMDeleted ----

  lemma ProvReleaseIff(s: State, i: Pid, r: Rid, pl: PlacementId, h: HostName)
    ensures ProcOk(s, i, ProvRelease(r, pl, h)) <==> PlacementHeld(YardOf(s), i, pl, h) && Alive(s.mgr, r)
  {
  }

  lemma AskingHookReleased(f: Fleet, leaked: set<Uid>, who: Who, marked: bool, v: Vm, p: Proc, q: Proc)
    requires p == Asking(HookJob(who, marked), v) || p == Dropping(HookJob(who, marked), v)
    requires HookJobOk(f, marked, v) || v.uid !in f.vms
    ensures Releases(f, leaked, p, q)
  {
    OwnerReleased(f, leaked, p, q, v.uid);
  }

  lemma AskingHookEnds(s: State, i: Pid, p: Proc, c: Choice)
    requires Inv(s) && IsAt(s, i, p) && p.Asking? && p.job.HookJob? && !c.ok
    requires HookJobOk(FleetOf(s), p.job.marked, p.vm)
    ensures Inv(Apply(s, i, PlanAsking(s, p, c)))
  {
    hide Inv, ProcOk, Apply, OwnsNothing, Releases, IsPlain;
    var v := p.vm;
    var q := GivesUp(p.job.who, v);
    GivesUpPlain(p.job.who, v);
    if c.odd {
      PlainOk(Kill(s, i, q, v.uid), i, q);
      AskingHookReleased(FleetOf(Kill(s, i, q, v.uid)), s.leaked, p.job.who, p.job.marked, v, p, q);
      KillKeeps(s, i, q, v.uid);
    } else {
      AskingHookReleased(FleetOf(s), s.leaked, p.job.who, p.job.marked, v, p, q);
      EndKeeps(s, i, q);
    }
  }

  lemma KeepsAskingHook(s: State, i: Pid, p: Proc, c: Choice)
    requires Inv(s) && IsAt(s, i, p) && p.Asking? && p.job.HookJob?
    ensures Inv(Apply(s, i, PlanAsking(s, p, c)))
  {
    hide Covered, Apply, OfficeSideOk, HasLeasedPhase, RowsOk, LeasesOk, BookSideOk, Held;
    var v := p.vm;
    assert ProcOk(s, i, p);
    AskingHook(s, i, p.job.who, p.job.marked, v);
    if c.ok {
      var q := Dropping(p.job, v);
      DroppingHook(Kill(s, i, q, v.uid), i, p.job.who, p.job.marked, v);
      AskingHookReleased(FleetOf(Kill(s, i, q, v.uid)), s.leaked, p.job.who, p.job.marked, v, p, q);
      KillKeeps(s, i, q, v.uid);
    } else {
      AskingHookEnds(s, i, p, c);
    }
  }

  lemma OrphanReleased(f: Fleet, leaked: set<Uid>, r: Rid, pl: PlacementId, recorded: bool, v: Vm, q: Proc)
    requires recorded || v.uid !in f.live || v.uid in leaked
    ensures Releases(f, leaked, Asking(OrphanJob(r, pl, recorded), v), q)
    ensures Releases(f, leaked, Dropping(OrphanJob(r, pl, recorded), v), q)
  {
  }

  lemma KeepsAskingOrphan(s: State, i: Pid, p: Proc, c: Choice)
    requires Inv(s) && IsAt(s, i, p) && p.Asking? && p.job.OrphanJob?
    ensures Inv(Apply(s, i, PlanAsking(s, p, c)))
  {
    hide ProcOk, Covered, Apply, OwnerOk, RowsOk, LeasesOk, Releases, ManagerOk;
    var v := p.vm;
    var OrphanJob(r, pl, recorded) := p.job;
    var e := ProvRelease(r, pl, v.host);
    assert ProcOk(s, i, p);
    AskingOther(s, i, p.job, v);
    if c.ok || c.odd {
      var q := if c.ok && recorded then Dropping(p.job, v) else e;
      var s' := Kill(s, i, q, v.uid);
      DroppingOther(s', i, p.job, v);
      ProvReleaseIff(s', i, r, pl, v.host);
      OrphanReleased(FleetOf(s'), s.leaked, r, pl, recorded, v, q);
      KillKeeps(s, i, q, v.uid);
    } else if !recorded {
      ProvReleaseIff(Lose(s, i, e, v.uid), i, r, pl, v.host);
      OrphanReleased(FleetOf(s), s.leaked + {v.uid}, r, pl, recorded, v, e);
      LoseKeeps(s, i, e, v.uid);
    } else {
      ProvReleaseIff(s, i, r, pl, v.host);
      OrphanReleased(FleetOf(s), s.leaked, r, pl, recorded, v, e);
      ToKeeps(s, i, e);
    }
  }

  lemma JobOwnsNothing(job: Job, v: Vm)
    requires !job.HookJob? && !job.OrphanJob?
    ensures OwnsNothing(Asking(job, v)) && OwnsNothing(Dropping(job, v))
  {
  }

  lemma KeepsAskingOther(s: State, i: Pid, p: Proc, c: Choice)
    requires Inv(s) && IsAt(s, i, p) && p.Asking? && !p.job.HookJob? && !p.job.OrphanJob?
    ensures Inv(Apply(s, i, PlanAsking(s, p, c)))
  {
    var v := p.vm;
    assert ProcOk(s, i, p);
    AskingOther(s, i, p.job, v);
    JobOwnsNothing(p.job, v);
    if c.ok || c.odd {
      var q := if c.ok then Dropping(p.job, v) else Done;
      var s' := Kill(s, i, q, v.uid);
      DroppingOther(s', i, p.job, v);
      PlainOk(s', i, Done);
      NothingReleased(FleetOf(s'), s.leaked, p, q);
      KillKeeps(s, i, q, v.uid);
    } else {
      PlainKeeps(s, i, Done);
    }
  }

  lemma KeepsDroppingHook(s: State, i: Pid, p: Proc, c: Choice)
    requires Inv(s) && IsAt(s, i, p) && p.Dropping? && p.job.HookJob?
    ensures Inv(Apply(s, i, PlanDropping(s, p, c)))
  {
    hide Covered, Apply, JobOk, OfficeSideOk, ClaimerOk, RowsOk, LeasesOk, BookSideOk;
    var v := p.vm;
    assert ProcOk(s, i, p);
    DroppingHook(s, i, p.job.who, p.job.marked, v);
    var q := GivesUp(p.job.who, v);
    GivesUpPlain(p.job.who, v);
    if !c.ok || v.uid !in s.db.vms {
      AskingHookReleased(FleetOf(s), s.leaked, p.job.who, p.job.marked, v, p, q);
      EndKeeps(s, i, q);
    } else {
      PlainOk(DropRow(s, i, q, v.uid), i, q);
      AskingHookReleased(WithoutRow(FleetOf(s), v.uid), s.leaked, p.job.who, p.job.marked, v, p, q);
      DropRowKeeps(s, i, q, v.uid);
    }
  }

  lemma KeepsDroppingOrphan(s: State, i: Pid, p: Proc, c: Choice)
    requires Inv(s) && IsAt(s, i, p) && p.Dropping? && p.job.OrphanJob?
    ensures Inv(Apply(s, i, PlanDropping(s, p, c)))
  {
    var v := p.vm;
    var OrphanJob(r, pl, recorded) := p.job;
    var e := ProvRelease(r, pl, v.host);
    assert ProcOk(s, i, p);
    DroppingOther(s, i, p.job, v);
    if !c.ok || v.uid !in s.db.vms {
      ProvReleaseIff(s, i, r, pl, v.host);
      OrphanReleased(FleetOf(s), s.leaked, r, pl, recorded, v, e);
      ToKeeps(s, i, e);
    } else {
      ProvReleaseIff(DropRow(s, i, e, v.uid), i, r, pl, v.host);
      OrphanReleased(WithoutRow(FleetOf(s), v.uid), s.leaked, r, pl, recorded, v, e);
      DropRowKeeps(s, i, e, v.uid);
    }
  }

  lemma HeldIff(s: State, i: Pid, v: Vm)
    ensures ProcOk(s, i, Swept(v)) <==> Known(FleetOf(s), v)
    ensures ProcOk(s, i, Finishing(v)) <==> Known(FleetOf(s), v)
    ensures OwnsNothing(Swept(v)) && OwnsNothing(Finishing(v))
  {
  }

  /** After the row is gone, what the job goes on with holds. */
  lemma DroppedOk(s: State, i: Pid, job: Job, v: Vm, poolExists: bool)
    requires !job.HookJob? && !job.OrphanJob? && Known(FleetOf(s), v) && JobOk(s, i, job, v)
    ensures ProcOk(s, i, Dropped(job, v, poolExists)) && ProcOk(s, i, Gone(job, v))
  {
    HeldIff(s, i, v);
    PlainOk(s, i, Done);
    if job.ReleaseJob? {
      LeaseHolderOk(s, i, Closing(job.lease));
      LeaseHolderOk(s, i, ReleaseDropping(job.lease));
      LeaseHolderOk(s, i, ReleaseLookup(job.lease));
    }
  }

  lemma KeepsDroppingOther(s: State, i: Pid, p: Proc, c: Choice)
    requires Inv(s) && IsAt(s, i, p) && p.Dropping? && !p.job.HookJob? && !p.job.OrphanJob?
    ensures Inv(Apply(s, i, PlanDropping(s, p, c)))
  {
    var v := p.vm;
    assert ProcOk(s, i, p);
    DroppingOther(s, i, p.job, v);
    JobOwnsNothing(p.job, v);
    if !c.ok {
      PlainKeeps(s, i, Done);
    } else if v.uid !in s.db.vms {
      DroppedOk(s, i, p.job, v, false);
      NothingReleased(FleetOf(s), s.leaked, p, Gone(p.job, v));
      ToKeeps(s, i, Gone(p.job, v));
    } else {
      var q := Dropped(p.job, v, s.db.vms[v.uid].pool in s.db.pools);
      DroppedOk(DropRow(s, i, q, v.uid), i, p.job, v, s.db.vms[v.uid].pool in s.db.pools);
      NothingReleased(WithoutRow(FleetOf(s), v.uid), s.leaked, p, q);
      DropRowKeeps(s, i, q, v.uid);
    }
  }
}
