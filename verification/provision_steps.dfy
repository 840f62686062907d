/** Every step of Provision keeps the invariant. */
module ProvisionSteps {
  import opened Records
  import opened Transactions
  import opened Protocol
  import opened Invariant
  import opened Stability
  import opened Effects
  import opened AdminEffects
  import opened Obligations
  import opened DeleteSteps

  // ---- what a Provision call relies on ----

  ghost predicate UnderBoss(m: Mgr, r: Rid, k: PoolKey) {
    Alive(m, r) && m.recons[r].spec.key == k
  }

  lemma ProvStartIff(s: State, i: Pid, r: Rid, spec: PoolSpec)
    ensures ProcOk(s, i, ProvStart(r, spec)) <==> UnderBoss(s.mgr, r, spec.key)
    ensures OwnsNothing(ProvStart(r, spec))
  {
  }

  lemma ProvReservedIff(s: State, i: Pid, q: Proc)
    requires q.ProvReserved?
    ensures ProcOk(s, i, q) <==> UnderBoss(s.mgr, q.rid, q.spec.key) && PlacementHeld(YardOf(s), i, q.pl, q.host)
    ensures OwnsNothing(q)
  {
  }

  lemma ProvCreatedShape(q: Proc)
    requires q.ProvCreated? || q.ProvOrphan?
    ensures Claimer(q).None? && Builder(q).None? && Unrecorded(q) == Some(q.vm) && Held(q) == Some(q.vm)
    ensures Reserver(q) == Some((q.pl, q.vm.host)) && LeaseIn(q).None? && Boss(q) == Some(q.rid) && LockOf(q).None?
  {
  }

  lemma ProvCreatedIff(s: State, i: Pid, q: Proc)
    requires q.ProvCreated? || q.ProvOrphan?
    ensures ProcOk(s, i, q) <==>
            && UnderBoss(s.mgr, q.rid, q.vm.pool) && PlacementHeld(YardOf(s), i, q.pl, q.vm.host)
            && Known(FleetOf(s), q.vm) && UnrecordedOk(FleetOf(s), i, q.vm)
            && (q.ProvCreated? ==> q.vm.phase.Provisioning?)
  {
    ProvCreatedShape(q);
  }

  lemma ProvRecordedIff(s: State, i: Pid, q: Proc)
    requires q.ProvRecorded?
    ensures ProcOk(s, i, q) <==>
            && UnderBoss(s.mgr, q.rid, q.vm.pool) && PlacementHeld(YardOf(s), i, q.pl, q.vm.host)
            && Known(FleetOf(s), q.vm) && BuilderOk(FleetOf(s), i, q.vm)
  {
  }

  predicate IsBuilding(q: Proc) {
    q.ProvWaiting? || q.ProvMarkHook? || q.ProvHooks? || q.ProvMarkAvailable? || q.ProvFail?
  }

  lemma BuildingShape(q: Proc)
    requires IsBuilding(q)
    ensures Claimer(q).None? && Builder(q) == Some(q.vm) && Unrecorded(q).None? && Held(q) == Some(q.vm)
    ensures Reserver(q).None? && LeaseIn(q).None? && Boss(q) == Some(q.rid) && LockOf(q).None?
  {
  }

  lemma BuildingIff(s: State, i: Pid, q: Proc)
    requires IsBuilding(q)
    ensures ProcOk(s, i, q) <==>
              UnderBoss(s.mgr, q.rid, q.vm.pool) && Known(FleetOf(s), q.vm) && BuilderOk(FleetOf(s), i, q.vm)
  {
    BuildingShape(q);
  }

  /** The VM being provisioned stays with its call, or is at rest. */
  lemma BuildReleased(f: Fleet, leaked: set<Uid>, p: Proc, q: Proc, u: Uid)
    requires Owns(Builder(p), u) && (Owns(Builder(q), u) || AtRest(f, u))
    ensures Releases(f, leaked, p, q)
  {
    OneOwner(p);
  }

  lemma BuildingFacts(s: State, i: Pid, p: Proc)
    requires ProcsOk(s) && IsAt(s, i, p) && IsBuilding(p)
    ensures UnderBoss(s.mgr, p.rid, p.vm.pool) && Known(FleetOf(s), p.vm) && BuilderOk(FleetOf(s), i, p.vm)
    ensures Owns(Builder(p), p.vm.uid)
  {
    assert ProcOk(s, i, p);
    BuildingIff(s, i, p);
    BuildingShape(p);
  }

  predicate SameVm(v: Vm, w: Vm) {
    v.uid == w.uid && v.pool == w.pool && v.host == w.host && v.leaseId == w.leaseId
  }

  /** On to the next stage of the pipeline. */
  /** The same Provision call, on the same VM. */
  predicate SameBuild(p: Proc, q: Proc) {
    IsBuilding(p) && IsBuilding(q) && q.rid == p.rid && SameVm(q.vm, p.vm)
  }

  lemma BuildingTo(s: State, i: Pid, p: Proc, q: Proc)
    requires Inv(s) && IsAt(s, i, p) && SameBuild(p, q)
    ensures Inv(Apply(s, i, Moves(q)))
  {
    BuildingFacts(s, i, p);
    BuildingIff(s, i, q);
    BuildingShape(q);
    BuildReleased(FleetOf(s), s.leaked, p, q, p.vm.uid);
    ToKeeps(s, i, q);
  }

  lemma BuilderMayWrite(s: State, i: Pid, v: Vm)
    requires Base(s) && BuilderOk(FleetOf(s), i, v) && Known(FleetOf(s), v) && CanUpdateVm(s.db, v)
    requires !v.phase.Deleting? && !v.phase.Failed?
    ensures MayWrite(FleetOf(s), i, v) && KeepsLease(BookOf(s), v)
  {
    NeverLeased(FleetOf(s), BookOf(s), v);
  }

  lemma BuiltRow(f: Fleet, leaked: set<Uid>, i: Pid, p: Proc, q: Proc, v: Vm)
    requires Owns(Builder(p), v.uid) && BuilderOk(f, i, v) && (v.phase.CreateHookRunning? || v.phase.Available?)
    requires v.phase.CreateHookRunning? ==> Owns(Builder(q), v.uid)
    ensures RowCovered(f, i, q, v) && Releases(WithRow(f, v), leaked, p, q)
  {
    BuildReleased(WithRow(f, v), leaked, p, q, v.uid);
  }

  lemma BuildingPut(s: State, i: Pid, p: Proc, q: Proc, v: Vm)
    requires Inv(s) && IsAt(s, i, p) && Owns(Builder(p), v.uid)
    requires BuilderOk(FleetOf(s), i, v) && Known(FleetOf(s), v)
    requires CanUpdateVm(s.db, v) && (v.phase.CreateHookRunning? || v.phase.Available?)
    requires ProcOk(Put(s, i, q, v), i, q) && (v.phase.CreateHookRunning? ==> Owns(Builder(q), v.uid))
    ensures Inv(Apply(s, i, Puts(q, v)))
  {
    BuilderMayWrite(s, i, v);
    BuiltRow(FleetOf(s), s.leaked, i, p, q, v);
    WriteKeeps(s, i, q, v);
  }

  // ---- reserve, create, record ----

  lemma ReservedOk(s: State, i: Pid, p: Proc, q: Proc, row: Placement)
    requires AtPoint(s, i, p) && p.ProvStart? && q.ProvReserved? && q.rid == p.rid && q.spec == p.spec
    requires row.host == q.host
    ensures ProcOk(Place(s, i, q, q.pl, row), i, q) && Releases(FleetOf(s), s.leaked, p, q)
  {
    Here(s, i);
    ProvStartIff(s, i, p.rid, p.spec);
    ProvReservedIff(Place(s, i, q, q.pl, row), i, q);
    NothingReleased(FleetOf(s), s.leaked, p, q);
  }

  lemma KeepsProvStart(s: State, i: Pid, p: Proc, c: Choice)
    requires Inv(s) && IsAt(s, i, p) && p.ProvStart?
    ensures Inv(Apply(s, i, PlanProvStart(s, p, c)))
  {
    if !c.ok || c.host !in p.spec.hosts || c.host !in s.db.hosts || s.db.hosts[c.host].cordoned {
      PlainKeeps(s, i, ProvFailed);
    } else if c.pick !in s.placed && c.pick !in s.db.placements {
      var q := ProvReserved(p.rid, p.spec, c.pick, c.host);
      var row := Placement(c.host, p.spec.key);
      ReservedOk(s, i, p, q, row);
      PlaceKeeps(s, i, q, c.pick, row);
    }
  }

  lemma FreshUid(s: State, u: Uid)
    requires Base(s) && u !in s.births
    ensures u !in s.db.vms && u !in s.claimant && u !in s.leaseOf
  {
    forall w | w in s.db.vms ensures w in s.births {
      assert RowOk(FleetOf(s), w);
    }
  }

  lemma NewUid(s: State, i: Pid, p: Proc, q: Proc, u: Uid, b: Birth)
    requires AtPoint(s, i, p) && p.ProvReserved? && u !in s.db.vms && u !in s.claimant && u !in s.leaseOf
    requires q == ProvCreated(p.rid, p.spec, p.pl, Vm(u, p.spec.key, p.host, Provisioning, None))
    requires b == Birth(i, p.spec.key, p.host)
    ensures ProcOk(Born(s, i, q, u, b, false), i, q) && Owns(Unrecorded(q), u)
    ensures Releases(FleetOf(Born(s, i, q, u, b, false)), s.leaked, p, q)
  {
    hide ProcsOk, FleetSideOk, OfficeSideOk, BookSideOk, OwnsNothing, YardSideOk;
    Here(s, i);
    ProvReservedIff(s, i, p);
    NothingReleased(FleetOf(Born(s, i, q, u, b, false)), s.leaked, p, q);
    ProvCreatedIff(Born(s, i, q, u, b, false), i, q);
  }

  lemma KeepsCreate(s: State, i: Pid, p: Proc, q: Proc, u: Uid, b: Birth)
    requires Inv(s) && IsAt(s, i, p) && p.ProvReserved? && u !in s.births
    requires q == ProvCreated(p.rid, p.spec, p.pl, Vm(u, p.spec.key, p.host, Provisioning, None))
    requires b == Birth(i, p.spec.key, p.host)
    ensures Inv(Apply(s, i, Bears(q, u, b.pool, b.host, false)))
  {
    FreshUid(s, u);
    NewUid(s, i, p, q, u, b);
    BornKeeps(s, i, q, u, b, false);
  }

  lemma KeepsProvReserved(s: State, i: Pid, p: Proc, c: Choice)
    requires Inv(s) && IsAt(s, i, p) && p.ProvReserved?
    ensures Inv(Apply(s, i, PlanProvReserved(s, p, c)))
  {
    var e := ProvRelease(p.rid, p.pl, p.host);
    var b := Birth(i, p.spec.key, p.host);
    assert ProcOk(s, i, p);
    ProvReservedIff(s, i, p);
    if c.pick !in s.births {
      if c.ok {
        KeepsCreate(s, i, p, ProvCreated(p.rid, p.spec, p.pl, Vm(c.pick, p.spec.key, p.host, Provisioning, None)),
          c.pick, b);
      } else if c.odd {
        var s' := Born(s, i, e, c.pick, b, true);
        ProvReleaseIff(s', i, p.rid, p.pl, p.host);
        NothingReleased(FleetOf(s'), s.leaked, p, e);
        BornKeeps(s, i, e, c.pick, b, true);
      } else {
        ProvReleaseIff(s, i, p.rid, p.pl, p.host);
        NothingReleased(FleetOf(s), s.leaked, p, e);
        ToKeeps(s, i, e);
      }
    }
  }

  lemma CreatedFacts(s: State, i: Pid, p: Proc)
    requires AtPoint(s, i, p) && (p.ProvCreated? || p.ProvOrphan?)
    ensures Known(FleetOf(s), p.vm) && UnrecordedOk(FleetOf(s), i, p.vm)
    ensures UnderBoss(s.mgr, p.rid, p.vm.pool) && PlacementHeld(YardOf(s), i, p.pl, p.vm.host)
  {
    Here(s, i);
    ProvCreatedIff(s, i, p);
  }

  /** The row a Provision call writes is its own, on a registered host, for an existing pool. */
  lemma NewRowMayWrite(s: State, i: Pid, p: Proc, v: Vm)
    requires Base(s) && AtPoint(s, i, p) && (p.ProvCreated? || p.ProvOrphan?) && v == p.vm.(phase := v.phase)
    requires !v.phase.Failed?
    ensures MayWrite(FleetOf(s), i, v) && KeepsLease(BookOf(s), v) && Homed(s.db, v)
    ensures v.uid in s.births && s.births[v.uid].maker == i
  {
    CreatedFacts(s, i, p);
    NeverLeased(FleetOf(s), BookOf(s), v);
  }

  lemma RecordReleased(f: Fleet, leaked: set<Uid>, p: Proc, q: Proc, u: Uid)
    requires (p.ProvCreated? || p.ProvOrphan?) && p.vm.uid == u && (u in f.vms || Owns(Unrecorded(q), u))
    ensures Releases(f, leaked, p, q)
  {
    hide Unrecorded, Claimer, Builder;
    ProvCreatedShape(p);
  }

  lemma NewRowKeeps(s: State, i: Pid, p: Proc, q: Proc, v: Vm)
    requires Inv(s) && IsAt(s, i, p) && (p.ProvCreated? || p.ProvOrphan?)
    requires v == p.vm.(phase := v.phase) && (v.phase.Deleting? || (v.phase.Provisioning? && Owns(Builder(q), v.uid)))
    requires ProcOk(Put(s, i, q, v), i, q)
    ensures Inv(Apply(s, i, Inserts(q, v)))
  {
    hide Base, ProcOk, ProcsOk, Covered, Releases, Apply;
    NewRowMayWrite(s, i, p, v);
    RecordReleased(WithRow(FleetOf(s), v), s.leaked, p, q, v.uid);
    PutKeeps(s, i, q, v);
    InsertsRow(s, i, q, v);
  }

  lemma OrphanedOk(s: State, i: Pid, p: Proc, q: Proc)
    requires p.ProvCreated? && q == ProvOrphan(p.rid, p.spec, p.pl, p.vm) && ProcOk(s, i, p)
    ensures ProcOk(s, i, q) && Owns(Unrecorded(q), p.vm.uid)
  {
    hide ProcOk;
    ProvCreatedIff(s, i, p);
    ProvCreatedIff(s, i, q);
  }

  lemma Orphaned(s: State, i: Pid, p: Proc, q: Proc)
    requires Inv(s) && IsAt(s, i, p) && p.ProvCreated? && q == ProvOrphan(p.rid, p.spec, p.pl, p.vm)
    ensures Inv(Apply(s, i, Moves(q)))
  {
    Here(s, i);
    OrphanedOk(s, i, p, q);
    RecordReleased(FleetOf(s), s.leaked, p, q, p.vm.uid);
    ToKeeps(s, i, q);
  }

  lemma RecordedOk(s: State, i: Pid, p: Proc, q: Proc)
    requires p.ProvCreated? && q == ProvRecorded(p.rid, p.spec, p.pl, p.vm) && ProcOk(s, i, p)
    ensures ProcOk(Put(s, i, q, p.vm), i, q) && Owns(Builder(q), p.vm.uid) && p.vm.phase.Provisioning?
  {
    hide ProcOk, Held, Claimer;
    ProvCreatedIff(s, i, p);
    ProvRecordedIff(Put(s, i, q, p.vm), i, q);
  }

  lemma Recorded(s: State, i: Pid, p: Proc, q: Proc)
    requires Inv(s) && IsAt(s, i, p) && p.ProvCreated? && q == ProvRecorded(p.rid, p.spec, p.pl, p.vm)
    ensures Inv(Apply(s, i, Inserts(q, p.vm)))
  {
    Here(s, i);
    RecordedOk(s, i, p, q);
    NewRowKeeps(s, i, p, q, p.vm);
  }

  lemma KeepsProvCreated(s: State, i: Pid, p: Proc, c: Choice)
    requires Inv(s) && IsAt(s, i, p) && p.ProvCreated?
    ensures Inv(Apply(s, i, PlanProvCreated(s, p, c)))
  {
    if !c.ok || p.vm.uid in s.db.vms {
      var q := ProvOrphan(p.rid, p.spec, p.pl, p.vm);
      assert PlanProvCreated(s, p, c) == Moves(q);
      Orphaned(s, i, p, q);
    } else {
      var q := ProvRecorded(p.rid, p.spec, p.pl, p.vm);
      assert PlanProvCreated(s, p, c) == Inserts(q, p.vm);
      Recorded(s, i, p, q);
    }
  }

  lemma UnrecordedOrphan(s: State, i: Pid, p: Proc, q: Proc)
    requires AtPoint(s, i, p) && p.ProvOrphan?
    requires q == Asking(OrphanJob(p.rid, p.pl, false), p.vm.(phase := Deleting))
    ensures ProcOk(s, i, q) && Releases(FleetOf(s), s.leaked, p, q)
  {
    Here(s, i);
    ProvCreatedIff(s, i, p);
    AskingOther(s, i, q.job, q.vm);
    RecordReleased(FleetOf(s), s.leaked, p, q, p.vm.uid);
  }

  lemma RecordedOrphan(s: State, i: Pid, p: Proc, q: Proc)
    requires AtPoint(s, i, p) && p.ProvOrphan?
    requires q == Asking(OrphanJob(p.rid, p.pl, true), p.vm.(phase := Deleting))
    ensures ProcOk(Put(s, i, q, q.vm), i, q)
  {
    Here(s, i);
    ProvCreatedIff(s, i, p);
    AskingOther(Put(s, i, q, q.vm), i, q.job, q.vm);
  }

  lemma KeepsProvOrphan(s: State, i: Pid, p: Proc, c: Choice)
    requires Inv(s) && IsAt(s, i, p) && p.ProvOrphan?
    ensures Inv(Apply(s, i, PlanProvOrphan(s, p, c)))
  {
    var v := p.vm.(phase := Deleting);
    if !c.ok || v.uid in s.db.vms {
      var q := Asking(OrphanJob(p.rid, p.pl, false), v);
      UnrecordedOrphan(s, i, p, q);
      ToKeeps(s, i, q);
    } else {
      var q := Asking(OrphanJob(p.rid, p.pl, true), v);
      RecordedOrphan(s, i, p, q);
      NewRowKeeps(s, i, p, q, v);
    }
  }

  lemma KeepsProvRecorded(s: State, i: Pid, p: Proc, c: Choice)
    requires Inv(s) && IsAt(s, i, p) && p.ProvRecorded?
    ensures Inv(Apply(s, i, PlanProvRecorded(s, p, c)))
  {
    var q := ProvWaiting(p.rid, p.spec, p.vm);
    if !c.ok {
      assert PlanProvRecorded(s, p, c) == Overstays(q, p.pl);
      KeptReservation(s, i, p, q);
    } else {
      assert PlanProvRecorded(s, p, c) == Frees(q, p.pl);
      ReleasedReservation(s, i, p, q);
    }
  }

  lemma WaitingReleases(f: Fleet, leaked: set<Uid>, p: Proc, q: Proc)
    requires p.ProvRecorded? && q == ProvWaiting(p.rid, p.spec, p.vm)
    ensures Releases(f, leaked, p, q)
  {
    BuildReleased(f, leaked, p, q, p.vm.uid);
  }

  lemma WaitingOk(s: State, s': State, i: Pid, p: Proc, q: Proc)
    requires AtPoint(s, i, p) && p.ProvRecorded? && q == ProvWaiting(p.rid, p.spec, p.vm)
    requires FleetOf(s') == FleetOf(s) && BookOf(s') == BookOf(s) && OfficeOf(s') == OfficeOf(s)
    ensures ProcOk(s', i, q) && p.pl in s.placed && s.placed[p.pl] == i
    ensures Releases(FleetOf(s), s.leaked, p, q)
  {
    Here(s, i);
    ProvRecordedIff(s, i, p);
    BuildingIff(s', i, q);
    WaitingReleases(FleetOf(s), s.leaked, p, q);
  }

  lemma KeptReservation(s: State, i: Pid, p: Proc, q: Proc)
    requires Inv(s) && IsAt(s, i, p) && p.ProvRecorded? && q == ProvWaiting(p.rid, p.spec, p.vm)
    ensures Inv(Apply(s, i, Overstays(q, p.pl)))
  {
    ApplyOverstays(s, i, q, p.pl);
    var s' := Overstay(s, i, q, p.pl);
    WaitingOk(s, s', i, p, q);
    QuietKeeps(s, s', i, q);
  }

  lemma ReleasedReservation(s: State, i: Pid, p: Proc, q: Proc)
    requires Inv(s) && IsAt(s, i, p) && p.ProvRecorded? && q == ProvWaiting(p.rid, p.spec, p.vm)
    ensures Inv(Apply(s, i, Frees(q, p.pl)))
  {
    WaitingOk(s, Unplace(s, i, q, p.pl), i, p, q);
    UnplaceKeeps(s, i, q, p.pl);
  }

  // ---- boot, hooks, available ----

  lemma KeepsProvWaiting(s: State, i: Pid, p: Proc, c: Choice)
    requires Inv(s) && IsAt(s, i, p) && p.ProvWaiting?
    ensures Inv(Apply(s, i, PlanProvWaiting(s, p, c)))
  {
    BuildingTo(s, i, p, if c.ok then ProvMarkHook(p.rid, p.spec, p.vm) else ProvFail(p.rid, p.spec, p.vm));
  }

  lemma KeepsProvHooks(s: State, i: Pid, p: Proc, c: Choice)
    requires Inv(s) && IsAt(s, i, p) && p.ProvHooks?
    ensures Inv(Apply(s, i, PlanProvHooks(s, p, c)))
  {
    BuildingTo(s, i, p, if c.ok then ProvMarkAvailable(p.rid, p.spec, p.vm) else ProvFail(p.rid, p.spec, p.vm));
  }

  lemma KeepsProvMarkHook(s: State, i: Pid, p: Proc, c: Choice)
    requires Inv(s) && IsAt(s, i, p) && p.ProvMarkHook?
    ensures Inv(Apply(s, i, PlanProvMarkHook(s, p, c)))
  {
    var v := p.vm.(phase := CreateHookRunning);
    if !c.ok || !CanUpdateVm(s.db, v) {
      assert PlanProvMarkHook(s, p, c) == Moves(ProvFail(p.rid, p.spec, v));
      BuildingTo(s, i, p, ProvFail(p.rid, p.spec, v));
    } else {
      var q := ProvHooks(p.rid, p.spec, v);
      assert PlanProvMarkHook(s, p, c) == Puts(q, v);
      HooksStarted(s, i, p, q, v);
    }
  }

  lemma HooksStarted(s: State, i: Pid, p: Proc, q: Proc, v: Vm)
    requires Inv(s) && IsAt(s, i, p) && p.ProvMarkHook?
    requires v == p.vm.(phase := CreateHookRunning) && q == ProvHooks(p.rid, p.spec, v) && CanUpdateVm(s.db, v)
    ensures Inv(Apply(s, i, Puts(q, v)))
  {
    BuildingFacts(s, i, p);
    HooksOk(s, i, q, v);
    BuildingPut(s, i, p, q, v);
  }

  lemma HooksOk(s: State, i: Pid, q: Proc, v: Vm)
    requires q.ProvHooks? && q.vm == v && v.phase.CreateHookRunning?
    requires UnderBoss(s.mgr, q.rid, v.pool) && Known(FleetOf(s), v) && BuilderOk(FleetOf(s), i, v)
    ensures ProcOk(Put(s, i, q, v), i, q) && Owns(Builder(q), v.uid)
  {
    BuildingIff(Put(s, i, q, v), i, q);
  }

  lemma KeepsProvMarkAvailable(s: State, i: Pid, p: Proc, c: Choice)
    requires Inv(s) && IsAt(s, i, p) && p.ProvMarkAvailable?
    ensures Inv(Apply(s, i, PlanProvMarkAvailable(s, p, c)))
  {
    var v := p.vm.(phase := Available);
    if !c.ok || !CanUpdateVm(s.db, v) {
      assert PlanProvMarkAvailable(s, p, c) == Moves(ProvFail(p.rid, p.spec, v));
      BuildingTo(s, i, p, ProvFail(p.rid, p.spec, v));
    } else {
      var q := ProvOk(v.uid);
      assert PlanProvMarkAvailable(s, p, c) == Puts(q, v);
      PlainOk(Put(s, i, q, v), i, q);
      BuildingFacts(s, i, p);
      BuildingPut(s, i, p, q, v);
    }
  }

  lemma PolicyTakesOver(s: State, i: Pid, p: Proc, q: Proc)
    requires AtPoint(s, i, p) && p.ProvFail? && q == Failing(ByProvision(p.rid), p.spec.policy, p.vm)
    ensures ProcOk(s, i, q) && Releases(FleetOf(s), s.leaked, p, q)
  {
    BuildingFacts(s, i, p);
    FailingIff(s, i, ByProvision(p.rid), p.spec.policy, p.vm);
    BuildReleased(FleetOf(s), s.leaked, p, q, p.vm.uid);
  }

  lemma LeftToDeleter(f: Fleet, leaked: set<Uid>, p: Proc)
    requires p.ProvFail? && AtRest(f, p.vm.uid)
    ensures Releases(f, leaked, p, ProvFailed)
  {
    BuildReleased(f, leaked, p, ProvFailed, p.vm.uid);
  }

  lemma KeepsProvFail(s: State, i: Pid, p: Proc, c: Choice)
    requires Inv(s) && IsAt(s, i, p) && p.ProvFail?
    ensures Inv(Apply(s, i, PlanProvFail(s, p, c)))
  {
    if c.ok && (p.vm.uid !in s.db.vms || s.db.vms[p.vm.uid].phase.Deleting?) {
      LeftToDeleter(FleetOf(s), s.leaked, p);
      EndKeeps(s, i, ProvFailed);
    } else {
      PolicyTakesOver(s, i, p, Failing(ByProvision(p.rid), p.spec.policy, p.vm));
      ToKeeps(s, i, Failing(ByProvision(p.rid), p.spec.policy, p.vm));
    }
  }

  lemma ReleaseFacts(s: State, i: Pid, p: Proc)
    requires AtPoint(s, i, p) && p.ProvRelease?
    ensures p.pl in s.placed && s.placed[p.pl] == i && Releases(FleetOf(s), s.leaked, p, ProvFailed)
  {
    Here(s, i);
    ProvReleaseIff(s, i, p.rid, p.pl, p.host);
    NothingReleased(FleetOf(s), s.leaked, p, ProvFailed);
  }

  lemma ReleaseFailed(s: State, i: Pid, p: Proc)
    requires Inv(s) && IsAt(s, i, p) && p.ProvRelease?
    ensures Inv(Apply(s, i, Overstays(ProvFailed, p.pl)))
  {
    ApplyOverstays(s, i, ProvFailed, p.pl);
    ReleaseFacts(s, i, p);
    PlainOk(Overstay(s, i, ProvFailed, p.pl), i, ProvFailed);
    QuietKeeps(s, Overstay(s, i, ProvFailed, p.pl), i, ProvFailed);
  }

  lemma KeepsProvRelease(s: State, i: Pid, p: Proc, c: Choice)
    requires Inv(s) && IsAt(s, i, p) && p.ProvRelease?
    ensures Inv(Apply(s, i, PlanProvRelease(s, p, c)))
  {
    if !c.ok {
      ReleaseFailed(s, i, p);
    } else {
      ReleaseFacts(s, i, p);
      PlainOk(Unplace(s, i, ProvFailed, p.pl), i, ProvFailed);
      UnplaceKeeps(s, i, ProvFailed, p.pl);
    }
  }
}
