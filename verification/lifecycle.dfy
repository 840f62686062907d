/** The life of a VM row: every change any action can make to a row, from which phase to which and by
    whom, whatever records the calls hold. */
module Lifecycle {
  import opened Records
  import opened Transactions
  import opened Protocol
  import opened Invariant
  import opened Stability
  import opened Plans
  import opened Frames
  import opened Staffing
  import opened Environment
  import opened Guarantees

  // ---- by phases ----

  /** Claimed, and not leased yet. */
  predicate Claimed(v: Vm) {
    (v.phase.Leased? || v.phase.PreLeaseHookRunning?) && v.leaseId.None?
  }

  /** Being provisioned. */
  predicate Rising(v: Vm) {
    (v.phase.Provisioning? || v.phase.CreateHookRunning?) && v.leaseId.None?
  }

  /** ClaimVM takes an AVAILABLE VM of the asked pool, runs its hooks, and leases it or gives it back. */
  predicate ClaimChange(p: Proc, c: Choice, v: Vm, w: Vm) {
    || (p.ClaimPick? && v.phase.Available? && v.pool == p.pool && w == v.(phase := Leased))
    || (p.ClaimHooking? && Claimed(v) && w == v.(phase := PreLeaseHookRunning))
    || (p.ClaimLeasing? && Claimed(v) && w == v.(phase := Leased, leaseId := Some(c.pick)))
    || (p.ClaimYielding? && Claimed(v) && w == v.(phase := Available))
  }

  /** Provision takes its VM through its hooks to AVAILABLE. */
  predicate BuildChange(p: Proc, v: Vm, w: Vm) {
    || (p.ProvMarkHook? && Rising(v) && w == v.(phase := CreateHookRunning))
    || (p.ProvMarkAvailable? && Rising(v) && w == v.(phase := Available))
  }

  /** The failure policy quarantines or condemns a VM that its claim or its provision still has. */
  predicate FailChange(p: Proc, v: Vm, w: Vm) {
    && p.Failing? && (Claimed(v) || Rising(v) || (v.phase.Deleting? && !p.policy.Quarantine?))
    && w == v.(phase := if p.policy.Quarantine? then Quarantined else Deleting, leaseId := None)
  }

  /** A release or an expiry condemns the VM of its lease. */
  predicate EndChange(p: Proc, v: Vm, w: Vm) {
    && (p.ReleaseMarking? || p.ExpiryMarking?) && v.uid == p.lease.vm && (v.phase.Leased? || v.phase.Deleting?)
    && w == v.(phase := Deleting, leaseId := p.vm.leaseId)
  }

  /** DeletePool condemns every VM of the pool, by force or when none is in use. */
  ghost predicate PoolChange(db: Db, p: Proc, v: Vm, w: Vm) {
    && p.DelReady? && v.pool == p.key && w == v.(phase := Deleting, leaseId := None)
    && (p.force || forall u | u in db.vms && db.vms[u].pool == p.key ::
          !db.vms[u].phase.Leased? && !db.vms[u].phase.PreLeaseHookRunning?)
  }

  /** A drain condemns what is not leased or being leased, on hosts that are draining. */
  ghost predicate DrainChange(db': Db, v: Vm, w: Vm) {
    && !v.phase.Leased? && !v.phase.PreLeaseHookRunning? && !v.phase.Deleting?
    && v.host in db'.hosts && db'.hosts[v.host].draining
    && w == v.(phase := Deleting, leaseId := None)
  }

  /** Recovery condemns what was being provisioned, and what was claimed and has no lease row. */
  ghost predicate RecoveryChange(db: Db, v: Vm, w: Vm) {
    && w == v.(phase := Deleting)
    && (v.phase.Provisioning? || v.phase.CreateHookRunning? ||
        ((v.phase.Leased? || v.phase.PreLeaseHookRunning?) &&
         (v.leaseId.Some? ==> v.leaseId.value !in db.leases)))
  }

  ghost predicate StepChange(db: Db, p: Proc, c: Choice, v: Vm, w: Vm) {
    ClaimChange(p, c, v, w) || BuildChange(p, v, w) || FailChange(p, v, w) || EndChange(p, v, w)
      || PoolChange(db, p, v, w)
  }

  // ---- a step of a call ----

  lemma ClaimerRow(s: State, i: Pid, v: Vm)
    requires Base(s) && ProcsOk(s) && i in s.procs && Claimer(s.procs[i]) == Some(v) && Held(s.procs[i]) == Some(v)
    requires v.uid in s.db.vms
    ensures v.leaseId.None? && (Claimed(s.db.vms[v.uid]) || s.db.vms[v.uid].phase.Deleting?)
    ensures SamePlace(s.db.vms[v.uid], v)
  {
    Here(s, i);
    assert RowOk(FleetOf(s), v.uid);
  }

  lemma BuilderRow(s: State, i: Pid, v: Vm)
    requires Base(s) && ProcsOk(s) && i in s.procs && Builder(s.procs[i]) == Some(v) && Held(s.procs[i]) == Some(v)
    requires v.uid in s.db.vms
    ensures v.leaseId.None? && (Rising(s.db.vms[v.uid]) || s.db.vms[v.uid].phase.Deleting?)
    ensures SamePlace(s.db.vms[v.uid], v)
  {
    Here(s, i);
    assert RowOk(FleetOf(s), v.uid);
  }

  /** Which record each writer holds, and as what. */
  lemma WriterHolds(p: Proc)
    ensures p.ClaimHooking? || p.ClaimLeasing? || p.ClaimYielding? ==> Claimer(p) == Some(p.vm) == Held(p)
    ensures p.ProvMarkHook? || p.ProvMarkAvailable? ==> Builder(p) == Some(p.vm) == Held(p) && Claimer(p).None?
    ensures p.Failing? ==> (Claimer(p) == Some(p.vm) || Builder(p) == Some(p.vm)) && Held(p) == Some(p.vm)
    ensures p.ReleaseMarking? || p.ExpiryMarking? ==> Held(p) == Some(p.vm)
  {
  }

  /** The VM of a lease once committed is LEASED or DELETING. */
  lemma MarkerRow(s: State, i: Pid, p: Proc)
    requires Base(s) && AtPoint(s, i, p) && (p.ReleaseMarking? || p.ExpiryMarking?) && p.vm.uid in s.db.vms
    ensures p.vm.uid == p.lease.vm && SamePlace(s.db.vms[p.vm.uid], p.vm)
    ensures s.db.vms[p.vm.uid].phase.Leased? || s.db.vms[p.vm.uid].phase.Deleting?
  {
    hide Covered, YardSideOk, OfficeSideOk, Claimer, Builder, ManagerOk, HostsOk;
    Here(s, i);
    WriterHolds(p);
    assert RowOk(FleetOf(s), p.vm.uid);
    assert MintOk(FleetOf(s), s.minted[p.lease.id], p.lease.id);
  }

  lemma PutChange(s: State, i: Pid, p: Proc, c: Choice, w: Vm)
    requires Base(s) && AtPoint(s, i, p) && WritesBack(p, w) && CanUpdateVm(s.db, w)
    ensures StepChange(s.db, p, c, s.db.vms[w.uid], w)
  {
    hide Base, ProcsOk, Claimer, Builder, Held;
    WriterHolds(p);
    if p.ReleaseMarking? || p.ExpiryMarking? {
      MarkerRow(s, i, p);
    } else if Claimer(p) == Some(p.vm) {
      ClaimerRow(s, i, p.vm);
    } else {
      BuilderRow(s, i, p.vm);
    }
  }

  lemma CommitChange(s: State, i: Pid, p: Proc, c: Choice, w: Vm)
    requires Base(s) && AtPoint(s, i, p) && p.ClaimLeasing? && w == p.vm.(phase := Leased, leaseId := Some(c.pick))
    requires CanUpdateVm(s.db, w)
    ensures StepChange(s.db, p, c, s.db.vms[w.uid], w)
  {
    hide Base, ProcsOk, Claimer, Builder, Held;
    WriterHolds(p);
    ClaimerRow(s, i, p.vm);
  }

  lemma LeasingPlan(s: State, p: Proc, c: Choice)
    requires p.ClaimLeasing?
    ensures Plan(s, p, c) == PlanClaimLeasing(s, p, c)
  {
    hide ClaimFirstPlan, DeletePlan, LeaseSidePlan, BuildSidePlan, PoolSidePlan, PlanClaimLeasing, PlanClaimYielding,
      PlanClaimYielded, PlanClaimReplay;
  }

  lemma CommitWrites(s: State, p: Proc, c: Choice)
    requires p.ClaimLeasing? && Plan(s, p, c).Commits?
    ensures c.ok && c.pick !in s.minted && !RequestTaken(s.db, p.request)
    ensures Plan(s, p, c).v == p.vm.(phase := Leased, leaseId := Some(c.pick))
    ensures Plan(s, p, c).l ==
            Lease(c.pick, p.vm.uid, p.pool, c.now, c.now, c.now + p.spec.expiryThreshold, p.request)
  {
    hide Plan;
    LeasingPlan(s, p, c);
  }

  /** The effects that rewrite a row. */
  lemma EffectChange(s: State, i: Pid, c: Choice, e: Effect, u: Uid)
    requires Base(s) && ProcsOk(s) && i in s.procs && e == Plan(s, s.procs[i], c) && u in s.db.vms
    requires RowEffectOk(s.db, s.procs[i], e) && (e.Puts? ==> WritesBack(s.procs[i], e.v))
    requires u in DbAfter(s.db, e).vms && DbAfter(s.db, e).vms[u] != s.db.vms[u]
    ensures StepChange(s.db, s.procs[i], c, s.db.vms[u], DbAfter(s.db, e).vms[u])
  {
    hide Base, ProcsOk, Plan, WritesBack, FailChange, EndChange, BuildChange, Held;
    var p := s.procs[i];
    match e
    case Puts(_, w) => PutChange(s, i, p, c, w);
    case Commits(_, w, _) =>
      CommitWrites(s, p, c);
      CommitChange(s, i, p, c, w);
    case _ =>
  }

  lemma StepRow(s: State, i: Pid, c: Choice, u: Uid)
    requires Inv(s) && i in s.procs && u in s.db.vms && u in Step(s, i, c).db.vms
    requires Step(s, i, c).db.vms[u] != s.db.vms[u]
    ensures StepChange(s.db, s.procs[i], c, s.db.vms[u], Step(s, i, c).db.vms[u])
  {
    hide Inv, Base, ProcsOk, Plan, Apply, RowEffectOk, YardEffectOk, MakingOk, LeaseEffectOk, PoolEffectOk, WritesBack,
      StepChange, Boss, Condemns, DbAfter;
    InvParts(s);
    StepAllowed(s, i, c);
    PlanStaffed(s, s.procs[i], c);
    DbIs(s, i, Plan(s, s.procs[i], c));
    EffectChange(s, i, c, Plan(s, s.procs[i], c), u);
  }

  // ---- every action ----

  lemma DrainRow(s: State, a: Action, u: Uid)
    requires (a.Drain? || a.MarkDraining?) && u in s.db.vms
    ensures u in Next(s, a).db.vms
    ensures Next(s, a).db.vms[u] == s.db.vms[u] || DrainChange(Next(s, a).db, s.db.vms[u], Next(s, a).db.vms[u])
  {
    hide Next;
    if a.Drain? { NextDrain(s, a.h, a.reason, a.now); } else { NextMarkDraining(s); }
  }

  lemma SameRows(s: State, a: Action)
    requires !a.Advance? && !a.Restart? && !a.Drain? && !a.MarkDraining?
    ensures Next(s, a).db.vms == s.db.vms
  {
    hide Next, CountRows, SeedPool, ListRows, CapStatic, RestLoop, ExitLoop, LeaveLoop;
    match a
    case Call(i, p) => NextCall(s, i, p);
    case Sweep(i, u, finish) => NextSweep(s, i, u, finish);
    case ReconSpawn(r, i) => NextReconSpawn(s, r, i);
    case SetCordoned(h, cordoned, reason, now) => NextSetCordoned(s, h, cordoned, reason, now);
    case AddHost(h) => NextAddHost(s, h);
    case RemoveHost(h) => NextRemoveHost(s, h);
    case Note(e) => NextNote(s, e);
    case _ => ReconcilersAreCalm(s, a);
  }

  lemma RestartRow(s: State, u: Uid)
    requires u in s.db.vms && u in Next(s, Restart).db.vms
    ensures
      Next(s, Restart).db.vms[u] == s.db.vms[u] ||
      RecoveryChange(s.db, s.db.vms[u], Next(s, Restart).db.vms[u])
  {
    hide Next;
    NextRestart(s);
  }

  /** Every change of a VM row, from which phase to which, and who makes it. */
  lemma RowChanges(s: State, a: Action, u: Uid)
    requires Inv(s) && u in s.db.vms && u in Next(s, a).db.vms && Next(s, a).db.vms[u] != s.db.vms[u]
    ensures
      var v, w := s.db.vms[u], Next(s, a).db.vms[u];
      || (a.Advance? && a.i in s.procs && StepChange(s.db, s.procs[a.i], a.c, v, w))
      || ((a.Drain? || a.MarkDraining?) && DrainChange(Next(s, a).db, v, w))
      || (a.Restart? && RecoveryChange(s.db, v, w))
  {
    hide Inv, Next, Step, StepChange, DrainChange, RecoveryChange;
    if a.Advance? {
      NextAdvance(s, a.i, a.c);
      if a.i in s.procs { StepRow(s, a.i, a.c, u); }
    } else if a.Drain? || a.MarkDraining? {
      DrainRow(s, a, u);
    } else if a.Restart? {
      RestartRow(s, u);
    } else {
      SameRows(s, a);
    }
  }

  /** Only a Provision call adds a row, for the microVM it has not recorded yet. */
  lemma WhatAddsRows(db: Db, p: Proc, e: Effect, u: Uid)
    requires RowEffectOk(db, p, e) && u !in db.vms && u in DbAfter(db, e).vms
    ensures e.Inserts? && e.v.uid == u && (p.ProvCreated? || p.ProvOrphan?) && p.vm.uid == u
    ensures DbAfter(db, e).vms[u] == if p.ProvCreated? then p.vm else p.vm.(phase := Deleting)
  {
    hide Held, CanDeletePool;
  }

  lemma UnrecordedFacts(s: State, i: Pid, p: Proc)
    requires AtPoint(s, i, p) && (p.ProvCreated? || p.ProvOrphan?)
    ensures p.vm.uid in s.births && p.vm.leaseId.None? && (p.ProvCreated? ==> p.vm.phase.Provisioning?)
    ensures s.births[p.vm.uid] == Birth(i, p.vm.pool, p.vm.host)
  {
    hide YardSideOk, BookSideOk, OfficeSideOk;
    Here(s, i);
  }

  lemma StepTables(s: State, i: Pid, c: Choice)
    requires i in s.procs
    ensures Step(s, i, c).db == DbAfter(s.db, Plan(s, s.procs[i], c))
  {
    hide Plan, Apply, DbAfter;
    DbIs(s, i, Plan(s, s.procs[i], c));
  }

  lemma OthersKeepRows(s: State, a: Action)
    requires !a.Advance?
    ensures Next(s, a).db.vms.Keys == s.db.vms.Keys && Next(s, a).live == s.live
  {
    hide Next, Joined;
    if a.Restart? { NextRestart(s); } else { EnvironmentIsCalm(s, a); }
  }

  /** Every new row: of a microVM the call itself created, on its host and for its pool, PROVISIONING, or
      DELETING when the first insert failed. */
  lemma NewRows(s: State, a: Action, u: Uid)
    requires Inv(s) && u !in s.db.vms && u in Next(s, a).db.vms
    ensures a.Advance? && a.i in s.procs && u in s.births && s.births[u].maker == a.i
    ensures
      var p, b := s.procs[a.i], s.births[u];
      || (p.ProvCreated? && Next(s, a).db.vms[u] == Vm(u, b.pool, b.host, Provisioning, None))
      || (p.ProvOrphan? && Next(s, a).db.vms[u] == Vm(u, b.pool, b.host, Deleting, None))
  {
    hide Inv, Base, ProcsOk, Next, Step, Plan, Apply, RowEffectOk, YardEffectOk, MakingOk, LeaseEffectOk, PoolEffectOk,
      DbAfter;
    InvParts(s);
    if !a.Advance? {
      OthersKeepRows(s, a);
    }
    NextAdvance(s, a.i, a.c);
    StepAllowed(s, a.i, a.c);
    StepTables(s, a.i, a.c);
    WhatAddsRows(s.db, s.procs[a.i], Plan(s, s.procs[a.i], a.c), u);
    UnrecordedFacts(s, a.i, s.procs[a.i]);
  }
}
