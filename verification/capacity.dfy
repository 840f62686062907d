/** No over-provisioning: the pool's tally, plus the provisions that may still add a row, plus what
    the reconciler is about to start, never exceeds its bound, though CountVMs reads VM rows and
    leases at two different moments. */
module Capacity {
  import opened Records
  import opened Transactions
  import opened Replenishment
  import opened Protocol
  import opened Invariant
  import opened Stability
  import opened Plans
  import opened Frames
  import opened Environment
  import opened Staffing
  import opened Runs
  import opened Guarantees
  import opened Sets

  // ---- what is counted ----

  /** Every row (a static-network pool), every row in use (REPLACE_ON_DELETE and
      MIN_SIZE_THRESHOLD), or every row in use whose VM was never leased (IMMEDIATE_ON_LEASE). */
  datatype Measure = AllRows | InUse | Unleased

  predicate IsInUse(v: Vm) {
    v.phase.Available? || v.phase.Provisioning? || v.phase.CreateHookRunning? || HasLeasedPhase(v)
  }

  predicate Counts1(leaseOf: map<Uid, LeaseId>, measure: Measure, u: Uid, v: Vm) {
    match measure
    case AllRows => true
    case InUse => IsInUse(v)
    case Unleased => IsInUse(v) && u !in leaseOf
  }

  ghost function Tally(s: State, k: PoolKey, measure: Measure): set<Uid> {
    set u | u in s.db.vms && s.db.vms[u].pool == k && Counts1(s.leaseOf, measure, u, s.db.vms[u])
  }

  ghost predicate WorksFor(m: Mgr, k: PoolKey, p: Proc) {
    Boss(p).Some? && Boss(p).value in m.recons && m.recons[Boss(p).value].spec.key == k
  }

  ghost function MakingFor(s: State, k: PoolKey): set<Pid> {
    set i | i in s.procs && IsMaking(s.procs[i]) && WorksFor(s.mgr, k, s.procs[i])
  }

  function Budget(loop: Loop): nat {
    if loop.Spawning? && loop.n > 0 then loop.n else 0
  }

  ghost predicate RunsFor(m: Mgr, k: PoolKey, r: Rid) {
    Alive(m, r) && m.recons[r].spec.key == k
  }

  // ---- what the reconciler may do ----

  ghost predicate NoOverlap(m: Mgr, k: PoolKey) {
    forall r, t | RunsFor(m, k, r) && RunsFor(m, k, t) :: r == t
  }

  ghost predicate Suits(spec: PoolSpec, measure: Measure, size: int) {
    match measure
    case AllRows => spec.staticNetwork
    case InUse => spec.size == size && !spec.strategy.ImmediateOnLease?
    case Unleased => spec.size == size && spec.strategy.ImmediateOnLease?
  }

  /** One reconciler at a time for the pool, of a fixed size and strategy. */
  ghost predicate Disciplined(s: State, k: PoolKey, measure: Measure, size: int) {
    && NoOverlap(s.mgr, k)
    && (forall r | RunsFor(s.mgr, k, r) :: Suits(s.mgr.recons[r].spec, measure, size))
  }

  /** What a listing, however old, still covers: it has every VM counted now, in use, and carrying
      a lease id only if the VM was leased. */
  ghost predicate Covers(s: State, k: PoolKey, measure: Measure, vms: map<Uid, Vm>) {
    forall u | u in Tally(s, k, measure) ::
      u in vms && (!measure.AllRows? ==> IsInUse(vms[u])) && (vms[u].leaseId.Some? ==> u in s.leaseOf)
  }

  ghost predicate LoopOk(s: State, k: PoolKey, measure: Measure, r: Rid)
    requires r in s.mgr.recons
  {
    var g := s.mgr.recons[r];
    && (!g.loop.Spawning? ==> !Busy(s, r))
    && (g.loop.Listed? ==> Covers(s, k, measure, g.loop.vms))
    && (g.loop.Capping? && !measure.AllRows? ==> g.spec.size >= 1)
  }

  ghost predicate Capped(s: State, k: PoolKey, measure: Measure, bound: nat) {
    && |Tally(s, k, measure)| + |MakingFor(s, k)| <= bound
    && (forall r | RunsFor(s.mgr, k, r) ::
          && |Tally(s, k, measure)| + |MakingFor(s, k)| + Budget(s.mgr.recons[r].loop) <= bound
          && LoopOk(s, k, measure, r))
  }

  /** The bound leaves room for the size; a static-network pool may have one row. */
  ghost predicate Sized(measure: Measure, size: int, bound: nat) {
    if measure.AllRows? then 1 <= bound else size <= bound
  }

  // ---- counting ----

  /** The four counts of rows in use add up to the rows in use. */
  lemma CountsAddUp(vms: map<Uid, Vm>, committed: set<LeaseId>, t: set<Uid>)
    requires forall u | u in t :: u in vms && IsInUse(vms[u])
    ensures
      var c := Counts(vms, committed);
      |t| <= c.available + c.claiming + c.leased + c.provisioning
  {
    var a := set u | u in vms && vms[u].phase.Available?;
    var b := set u | u in vms && CountsAsClaiming(vms[u], committed);
    var l := set u | u in vms && CountsAsLeased(vms[u], committed);
    var p := set u | u in vms && CountsAsProvisioning(vms[u]);
    forall u | u in t ensures u in a + b + l + p {}
    SubsetSize(t, a + b + l + p);
    DisjointSize(a, b);
    DisjointSize(a + b, l);
    DisjointSize(a + b + l, p);
  }

  /** A VM never leased is not counted as leased, whenever the leases were read. */
  lemma UnleasedAddUp(vms: map<Uid, Vm>, committed: set<LeaseId>, t: set<Uid>)
    requires forall u | u in t :: u in vms && IsInUse(vms[u]) && !CountsAsLeased(vms[u], committed)
    ensures
      var c := Counts(vms, committed);
      |t| <= c.available + c.claiming + c.provisioning
  {
    var a := set u | u in vms && vms[u].phase.Available?;
    var b := set u | u in vms && CountsAsClaiming(vms[u], committed);
    var p := set u | u in vms && CountsAsProvisioning(vms[u]);
    forall u | u in t ensures u in a + b + p {}
    SubsetSize(t, a + b + p);
    DisjointSize(a, b);
    DisjointSize(a + b, p);
  }

  /** What a strategy asks for never takes the counted set past the size. */
  lemma DesiredFits(s: State, k: PoolKey, measure: Measure, spec: PoolSpec, hook: Hook, vms: map<Uid, Vm>, size: int)
    requires !measure.AllRows? && Suits(spec, measure, size) && Covers(s, k, measure, vms)
    ensures
      var n := Desired(spec, hook, Counts(vms, LeaseIdsOf(s.db, spec.key)));
      n > 0 ==> |Tally(s, k, measure)| + n <= size
  {
    var t := Tally(s, k, measure);
    var committed := LeaseIdsOf(s.db, spec.key);
    if measure.InUse? {
      CountsAddUp(vms, committed, t);
    } else {
      forall u | u in t ensures !CountsAsLeased(vms[u], committed) {
        assert vms[u].leaseId.Some? ==> u in s.leaseOf;
      }
      UnleasedAddUp(vms, committed, t);
    }
  }

  // ---- a step of a call ----

  /** A VM written back in use was in use, and was not leased. */
  lemma WrittenBackCounts(s: State, i: Pid, p: Proc, v: Vm, measure: Measure)
    requires Inv(s) && AtPoint(s, i, p) && IsOf(Held(p), v) && CanUpdateVm(s.db, v) && WritesBack(p, v)
    ensures s.db.vms[v.uid].pool == v.pool
    ensures Counts1(s.leaseOf, measure, v.uid, v) ==> Counts1(s.leaseOf, measure, v.uid, s.db.vms[v.uid])
  {
    hide WritesBack, ProcsOk, Covered, RowsOk, LeasesOk, MintsOk, Held;
    HeldRow(s, i, p, v);
    if !v.phase.Deleting? && !v.phase.Quarantined? {
      OwnerFacts(s, i, p, v);
    }
  }

  lemma OwnerFacts(s: State, i: Pid, p: Proc, v: Vm)
    requires AtPoint(s, i, p) && WritesBack(p, v) && CanUpdateVm(s.db, v) && !v.phase.Deleting? && !v.phase.Quarantined?
    ensures v.uid !in s.leaseOf && (HasLeasedPhase(s.db.vms[v.uid]) || AbandonedProvision(s.db.vms[v.uid]))
  {
    hide Known, WritesBack, YardSideOk, BookSideOk, OfficeSideOk, Claimer, Builder, Unrecorded;
    OwnersWrite(p, v);
    Here(s, i);
  }

  lemma CommitterFacts(s: State, i: Pid, p: Proc)
    requires AtPoint(s, i, p) && p.ClaimLeasing?
    ensures p.vm.uid !in s.leaseOf && Held(p) == Some(p.vm)
    ensures p.vm.uid in s.db.vms && !s.db.vms[p.vm.uid].phase.Deleting? ==> HasLeasedPhase(s.db.vms[p.vm.uid])
  {
    Here(s, i);
  }

  ghost function Inserted(s: State, p: Proc, e: Effect, k: PoolKey): set<Uid> {
    if e.Inserts? && WorksFor(s.mgr, k, p) then {e.v.uid} else {}
  }

  lemma InsertedPool(s: State, i: Pid, p: Proc, e: Effect, k: PoolKey)
    requires AtPoint(s, i, p) && RowEffectOk(s.db, p, e) && e.Inserts? && e.v.pool == k
    ensures WorksFor(s.mgr, k, p)
  {
    Here(s, i);
  }

  lemma TallyWrites(s: State, i: Pid, p: Proc, e: Effect, k: PoolKey, measure: Measure)
    requires Inv(s) && AtPoint(s, i, p) && RowEffectOk(s.db, p, e) && Staffed(s, p, e)
    requires e.Puts? || e.Commits? || e.Takes?
    ensures Tally(Apply(s, i, e), k, measure) <= Tally(s, k, measure)
  {
    hide Inv, Base, AtPoint, ProcsOk, Covered, Apply, CanDeletePool, HasLeasedPhase, WritesBack, Condemns, TakesUp;
    hide Boss, IsMaking, Held;
    InvParts(s);
    DbIs(s, i, e);
    ClaimsAfter(s, i, e);
    match e
    case Puts(_, v) => WrittenBackCounts(s, i, p, v, measure);
    case Commits(_, v, l) =>
      CommitterFacts(s, i, p);
      HeldRow(s, i, p, v);
    case Takes(_, v) =>
  }

  lemma TallyRest(s: State, i: Pid, p: Proc, e: Effect, k: PoolKey, measure: Measure)
    requires AtPoint(s, i, p) && RowEffectOk(s.db, p, e) && !e.Puts? && !e.Commits? && !e.Takes?
    ensures Tally(Apply(s, i, e), k, measure) <= Tally(s, k, measure) + Inserted(s, p, e, k)
  {
    hide AtPoint, Apply, CanDeletePool, Held, WorksFor;
    ClaimsAfter(s, i, e);
    if e.Inserts? {
      DbIs(s, i, e);
      if e.v.pool == k {
        InsertedPool(s, i, p, e, k);
      }
    } else if TouchesRows(e) {
      DbIs(s, i, e);
    } else {
      RowsUntouched(s, i, e);
    }
  }

  lemma TallyAfter(s: State, i: Pid, p: Proc, e: Effect, k: PoolKey, measure: Measure)
    requires Inv(s) && AtPoint(s, i, p) && RowEffectOk(s.db, p, e) && Staffed(s, p, e)
    ensures Tally(Apply(s, i, e), k, measure) <= Tally(s, k, measure) + Inserted(s, p, e, k)
  {
    hide *;
    if e.Puts? || e.Commits? || e.Takes? {
      TallyWrites(s, i, p, e, k, measure);
    } else {
      TallyRest(s, i, p, e, k, measure);
    }
  }

  lemma MakerHasBoss(p: Proc)
    requires IsMaking(p)
    ensures Boss(p).Some?
  {
  }

  /** Reconcilers already known keep their spec, their loop and their goroutine. */
  ghost predicate SameKnown(m: Mgr, m': Mgr) {
    forall r | r in m.recons :: r in m'.recons && m'.recons[r] == m.recons[r]
  }

  lemma KnownAfter(s: State, i: Pid, p: Proc, e: Effect)
    requires Staffed(s, p, e)
    ensures SameKnown(s.mgr, Apply(s, i, e).mgr)
    ensures forall r | r in Apply(s, i, e).mgr.recons && r !in s.mgr.recons :: Apply(s, i, e).mgr.recons[r].loop.Idle?
  {
    ManagerAfter(s, i, e);
  }

  lemma SameWork(s: State, m: Mgr, j: Pid, q: Proc, k: PoolKey)
    requires ProcsOk(s) && j in s.procs && Boss(q).Some? && Boss(q) == Boss(s.procs[j])
    requires SameKnown(s.mgr, m) && WorksFor(m, k, q)
    ensures WorksFor(s.mgr, k, s.procs[j])
  {
    BossAlive(s, j);
  }

  lemma MakersAfter(s: State, s': State, i: Pid, p: Proc, e: Effect, k: PoolKey)
    requires ProcsOk(s) && IsAt(s, i, p) && Staffed(s, p, e)
    requires s'.procs == s.procs[i := After(p, e)] && SameKnown(s.mgr, s'.mgr)
    ensures MakingFor(s', k) <= MakingFor(s, k) - (if e.Inserts? then {i} else {})
    ensures e.Inserts? && WorksFor(s.mgr, k, p) ==> i in MakingFor(s, k)
  {
    forall j | j in MakingFor(s', k) ensures j in MakingFor(s, k) - (if e.Inserts? then {i} else {}) {
      var q := s'.procs[j];
      MakerHasBoss(q);
      SameWork(s, s'.mgr, j, q, k);
    }
  }

  lemma MakingAfter(s: State, i: Pid, p: Proc, e: Effect, k: PoolKey)
    requires ProcsOk(s) && IsAt(s, i, p) && Staffed(s, p, e)
    ensures MakingFor(Apply(s, i, e), k) <= MakingFor(s, k) - (if e.Inserts? then {i} else {})
    ensures e.Inserts? && WorksFor(s.mgr, k, p) ==> i in MakingFor(s, k)
  {
    assert i in s.procs && s.procs[i] == p;
    hide *;
    CallAfter(s, i, e);
    KnownAfter(s, i, p, e);
    MakersAfter(s, Apply(s, i, e), i, p, e, k);
  }

  lemma SumAfter(s: State, i: Pid, p: Proc, e: Effect, k: PoolKey, measure: Measure)
    requires Inv(s) && AtPoint(s, i, p) && RowEffectOk(s.db, p, e) && Staffed(s, p, e)
    ensures |Tally(Apply(s, i, e), k, measure)| + |MakingFor(Apply(s, i, e), k)| <= |Tally(s, k, measure)|
              + |MakingFor(s, k)|
  {
    var s' := Apply(s, i, e);
    TallyAfter(s, i, p, e, k, measure);
    MakingAfter(s, i, p, e, k);
    if e.Inserts? && WorksFor(s.mgr, k, p) {
      SwapSize(MakingFor(s, k), MakingFor(s', k), Tally(s, k, measure), Tally(s', k, measure), i, e.v.uid);
    } else {
      SubsetSize(MakingFor(s', k), MakingFor(s, k));
      SubsetSize(Tally(s', k, measure), Tally(s, k, measure));
    }
  }

  lemma BusyAfter(s: State, i: Pid, p: Proc, e: Effect, r: Rid)
    requires IsAt(s, i, p) && Staffed(s, p, e) && !Busy(s, r)
    ensures !Busy(Apply(s, i, e), r)
  {
    CallAfter(s, i, e);
  }

  /** While the reconciler waits between its two reads, nobody adds a row for the pool. */
  lemma NobodyInserts(s: State, i: Pid, p: Proc, e: Effect, k: PoolKey, r: Rid)
    requires ProcsOk(s) && IsAt(s, i, p) && NoOverlap(s.mgr, k) && RunsFor(s.mgr, k, r) && !Busy(s, r)
    ensures Inserted(s, p, e, k) == {}
  {
    if WorksFor(s.mgr, k, p) {
      BossAlive(s, i);
      assert RunsFor(s.mgr, k, Boss(p).value);
    }
  }

  lemma CoversStill(s: State, s': State, k: PoolKey, measure: Measure, vms: map<Uid, Vm>)
    requires Covers(s, k, measure, vms) && Tally(s', k, measure) <= Tally(s, k, measure)
    requires forall u | u in s.leaseOf :: u in s'.leaseOf
    ensures Covers(s', k, measure, vms)
  {
  }

  lemma LoopAfter(s: State, i: Pid, p: Proc, e: Effect, k: PoolKey, measure: Measure, r: Rid)
    requires Inv(s) && AtPoint(s, i, p) && RowEffectOk(s.db, p, e) && Staffed(s, p, e)
    requires NoOverlap(s.mgr, k) && RunsFor(s.mgr, k, r) && LoopOk(s, k, measure, r)
    ensures r in Apply(s, i, e).mgr.recons && LoopOk(Apply(s, i, e), k, measure, r)
  {
    var s' := Apply(s, i, e);
    KnownAfter(s, i, p, e);
    if !s.mgr.recons[r].loop.Spawning? {
      BusyAfter(s, i, p, e, r);
      NobodyInserts(s, i, p, e, k, r);
      TallyAfter(s, i, p, e, k, measure);
      ClaimsAfter(s, i, e);
      if s.mgr.recons[r].loop.Listed? {
        CoversStill(s, s', k, measure, s.mgr.recons[r].loop.vms);
      }
    }
  }

  lemma NewLoopOk(s: State, i: Pid, p: Proc, e: Effect, k: PoolKey, measure: Measure, r: Rid)
    requires ProcsOk(s) && AtPoint(s, i, p) && Staffed(s, p, e) && r !in s.mgr.recons && r in Apply(s, i, e).mgr.recons
    ensures LoopOk(Apply(s, i, e), k, measure, r) && Budget(Apply(s, i, e).mgr.recons[r].loop) == 0
  {
    KnownAfter(s, i, p, e);
    assert !Busy(s, r) by {
      forall j | j in s.procs ensures Boss(s.procs[j]) != Some(r) {
        if Boss(s.procs[j]).Some? { BossAlive(s, j); }
      }
    }
    BusyAfter(s, i, p, e, r);
  }

  lemma EffectCapped(s: State, i: Pid, p: Proc, e: Effect, k: PoolKey, measure: Measure, bound: nat)
    requires Inv(s) && AtPoint(s, i, p) && RowEffectOk(s.db, p, e) && Staffed(s, p, e)
    requires NoOverlap(s.mgr, k) && Capped(s, k, measure, bound)
    ensures Capped(Apply(s, i, e), k, measure, bound)
  {
    var s' := Apply(s, i, e);
    SumAfter(s, i, p, e, k, measure);
    KnownAfter(s, i, p, e);
    forall r | RunsFor(s'.mgr, k, r)
      ensures |Tally(s', k, measure)| + |MakingFor(s', k)| + Budget(s'.mgr.recons[r].loop) <= bound
      ensures LoopOk(s', k, measure, r)
    {
      if r in s.mgr.recons {
        assert RunsFor(s.mgr, k, r);
        LoopAfter(s, i, p, e, k, measure, r);
      } else {
        NewLoopOk(s, i, p, e, k, measure, r);
      }
    }
  }

  lemma StepCapped(s: State, i: Pid, c: Choice, k: PoolKey, measure: Measure, bound: nat)
    requires Inv(s) && i in s.procs && NoOverlap(s.mgr, k) && Capped(s, k, measure, bound)
    ensures Capped(Step(s, i, c), k, measure, bound)
  {
    hide Inv, Plan, Apply, Capped, Staffed, NoOverlap, ProcsOk;
    InvParts(s);
    StepAllowed(s, i, c);
    PlanStaffed(s, s.procs[i], c);
    EffectCapped(s, i, s.procs[i], Plan(s, s.procs[i], c), k, measure, bound);
  }

  // ---- the reconciler itself ----

  lemma NoMakers(s: State, k: PoolKey, r: Rid)
    requires ProcsOk(s) && NoOverlap(s.mgr, k) && RunsFor(s.mgr, k, r) && !Busy(s, r)
    ensures MakingFor(s, k) == {}
  {
    forall i | i in s.procs && WorksFor(s.mgr, k, s.procs[i]) ensures false {
      BossAlive(s, i);
      assert RunsFor(s.mgr, k, Boss(s.procs[i]).value);
    }
  }

  /** What reconciler r's loop must satisfy, with everything else as in s. */
  ghost predicate MayLoop(s: State, k: PoolKey, measure: Measure, bound: nat, r: Rid, loop: Loop)
    requires r in s.mgr.recons
  {
    && |Tally(s, k, measure)| + |MakingFor(s, k)| + Budget(loop) <= bound
    && (!loop.Spawning? ==> !Busy(s, r))
    && (loop.Listed? ==> Covers(s, k, measure, loop.vms))
    && (loop.Capping? && !measure.AllRows? ==> s.mgr.recons[r].spec.size >= 1)
  }

  lemma SetLoopMakes(s: State, k: PoolKey, r: Rid, loop: Loop)
    requires r in s.mgr.recons
    ensures MakingFor(s.(mgr := SetLoop(s.mgr, r, loop)), k) == MakingFor(s, k)
  {
    var s' := s.(mgr := SetLoop(s.mgr, r, loop));
    forall i | i in s.procs ensures WorksFor(s'.mgr, k, s.procs[i]) <==> WorksFor(s.mgr, k, s.procs[i]) {
    }
  }

  lemma SetLoopCapped(s: State, k: PoolKey, measure: Measure, bound: nat, r: Rid, loop: Loop)
    requires Capped(s, k, measure, bound) && Alive(s.mgr, r)
    requires s.mgr.recons[r].spec.key == k ==> MayLoop(s, k, measure, bound, r, loop)
    ensures Capped(s.(mgr := SetLoop(s.mgr, r, loop)), k, measure, bound)
  {
    var s' := s.(mgr := SetLoop(s.mgr, r, loop));
    SetLoopMakes(s, k, r, loop);
    assert Tally(s', k, measure) == Tally(s, k, measure);
    forall t | RunsFor(s'.mgr, k, t)
      ensures |Tally(s', k, measure)| + |MakingFor(s', k)| + Budget(s'.mgr.recons[t].loop) <= bound
      ensures LoopOk(s', k, measure, t)
    {
      assert RunsFor(s.mgr, k, t);
    }
  }

  /** A listing covers everything counted at the moment it is made. */
  lemma FreshListing(s: State, k: PoolKey, measure: Measure)
    requires Base(s)
    ensures Covers(s, k, measure, VmsOfPool(s.db, k))
  {
    forall u | u in Tally(s, k, measure) ensures s.db.vms[u].leaseId.Some? ==> u in s.leaseOf {
      assert RowOk(FleetOf(s), u);
    }
  }

  lemma ListCapped(s: State, k: PoolKey, measure: Measure, bound: nat, r: Rid, hook: Hook)
    requires Inv(s) && Capped(s, k, measure, bound)
    ensures Capped(s.(mgr := ListRows(s, r, hook)), k, measure, bound)
  {
    if Alive(s.mgr, r) && s.mgr.recons[r].loop.Idle? {
      FreshListing(s, k, measure);
      assert s.mgr.recons[r].spec.key == k ==> RunsFor(s.mgr, k, r);
      SetLoopCapped(s, k, measure, bound, r, Listed(hook, VmsOfPool(s.db, s.mgr.recons[r].spec.key)));
    }
  }

  lemma PlanMayLoop(s: State, k: PoolKey, measure: Measure, size: int, bound: nat, r: Rid)
    requires ProcsOk(s) && Capped(s, k, measure, bound) && Disciplined(s, k, measure, size) && RunsFor(s.mgr, k, r)
    requires s.mgr.recons[r].loop.Listed? && (!measure.AllRows? ==> size <= bound)
    ensures
      var g := s.mgr.recons[r];
      MayLoop(s, k, measure, bound, r, PlanLoop(s, g.spec, g.loop.hook, g.loop.vms))
  {
    var g := s.mgr.recons[r];
    NoMakers(s, k, r);
    if !measure.AllRows? {
      DesiredFits(s, k, measure, g.spec, g.loop.hook, g.loop.vms, size);
    }
  }

  lemma CountCapped(s: State, k: PoolKey, measure: Measure, size: int, bound: nat, r: Rid)
    requires Inv(s) && Capped(s, k, measure, bound) && Disciplined(s, k, measure, size) && Sized(measure, size, bound)
    ensures Capped(s.(mgr := CountRows(s, r)), k, measure, bound)
  {
    if Alive(s.mgr, r) && s.mgr.recons[r].loop.Listed? {
      var g := s.mgr.recons[r];
      if g.spec.key == k {
        PlanMayLoop(s, k, measure, size, bound, r);
      }
      SetLoopCapped(s, k, measure, bound, r, PlanLoop(s, g.spec, g.loop.hook, g.loop.vms));
    }
  }

  lemma NoRowsNoTally(s: State, k: PoolKey, measure: Measure)
    requires VmsOfPool(s.db, k) == map[]
    ensures Tally(s, k, measure) == {}
  {
    forall u | u in s.db.vms ensures s.db.vms[u].pool != k {
      assert u !in VmsOfPool(s.db, k);
    }
  }

  lemma CapCapped(s: State, k: PoolKey, measure: Measure, size: int, bound: nat, r: Rid)
    requires Inv(s) && Capped(s, k, measure, bound) && Disciplined(s, k, measure, size) && Sized(measure, size, bound)
    ensures Capped(s.(mgr := CapStatic(s, r)), k, measure, bound)
  {
    if Alive(s.mgr, r) && s.mgr.recons[r].loop.Capping? {
      if s.mgr.recons[r].spec.key == k {
        assert RunsFor(s.mgr, k, r);
        NoMakers(s, k, r);
        if VmsOfPool(s.db, k) == map[] {
          NoRowsNoTally(s, k, measure);
        }
      }
      SetLoopCapped(s, k, measure, bound, r,
        if VmsOfPool(s.db, s.mgr.recons[r].spec.key) == map[] then Spawning(1) else Idle);
    }
  }

  lemma RestCapped(s: State, k: PoolKey, measure: Measure, bound: nat, r: Rid)
    requires Capped(s, k, measure, bound)
    ensures Capped(s.(mgr := RestLoop(s, r)), k, measure, bound)
  {
    if Alive(s.mgr, r) && !Busy(s, r) {
      assert s.mgr.recons[r].spec.key == k ==> RunsFor(s.mgr, k, r);
      SetLoopCapped(s, k, measure, bound, r, Idle);
    }
  }

  lemma SpawnMakes(s: State, k: PoolKey, r: Rid, i: Pid)
    requires CanSpawn(s, r, i)
    ensures MakingFor(SpawnProvision(s, r, i), k) <= MakingFor(s, k)
              + (if s.mgr.recons[r].spec.key == k then {i} else {})
  {
    var s' := SpawnProvision(s, r, i);
    forall j | j in MakingFor(s', k) && j != i ensures j in MakingFor(s, k) {
      assert s'.procs[j] == s.procs[j];
    }
  }

  lemma SpawnBusy(s: State, r: Rid, i: Pid, t: Rid)
    requires CanSpawn(s, r, i) && t != r && !Busy(s, t)
    ensures !Busy(SpawnProvision(s, r, i), t)
  {
  }

  /** A provision started is one less to start. */
  lemma SpawnCapped(s: State, k: PoolKey, measure: Measure, bound: nat, r: Rid, i: Pid)
    requires Capped(s, k, measure, bound) && NoOverlap(s.mgr, k)
    ensures Capped(SpawnProvision(s, r, i), k, measure, bound)
  {
    if CanSpawn(s, r, i) {
      var s' := SpawnProvision(s, r, i);
      SpawnMakes(s, k, r, i);
      SubsetSize(MakingFor(s', k), MakingFor(s, k) + (if s.mgr.recons[r].spec.key == k then {i} else {}));
      assert Tally(s', k, measure) == Tally(s, k, measure);
      assert s.mgr.recons[r].spec.key == k ==> RunsFor(s.mgr, k, r);
      forall t | RunsFor(s'.mgr, k, t)
        ensures |Tally(s', k, measure)| + |MakingFor(s', k)| + Budget(s'.mgr.recons[t].loop) <= bound
        ensures LoopOk(s', k, measure, t)
      {
        assert RunsFor(s.mgr, k, t);
        if t != r && !s.mgr.recons[t].loop.Spawning? {
          SpawnBusy(s, r, i, t);
        }
      }
    }
  }

  // ---- everything else ----

  /** Fewer VMs counted, no more provisions, and every loop that runs as it was, or new. */
  lemma LessIsCapped(s: State, s': State, k: PoolKey, measure: Measure, bound: nat)
    requires Capped(s, k, measure, bound)
    requires Tally(s', k, measure) <= Tally(s, k, measure) && MakingFor(s', k) <= MakingFor(s, k)
    requires forall u | u in s.leaseOf :: u in s'.leaseOf
    requires forall r | RunsFor(s'.mgr, k, r) ::
               if r in s.mgr.recons then s'.mgr.recons[r] == s.mgr.recons[r] else s'.mgr.recons[r].loop.Idle?
    requires forall r | RunsFor(s'.mgr, k, r) :: Busy(s', r) ==> Busy(s, r) && r in s.mgr.recons
    ensures Capped(s', k, measure, bound)
  {
    SubsetSize(Tally(s', k, measure), Tally(s, k, measure));
    SubsetSize(MakingFor(s', k), MakingFor(s, k));
    forall r | RunsFor(s'.mgr, k, r)
      ensures |Tally(s', k, measure)| + |MakingFor(s', k)| + Budget(s'.mgr.recons[r].loop) <= bound
      ensures LoopOk(s', k, measure, r)
    {
      if r in s.mgr.recons {
        assert RunsFor(s.mgr, k, r);
        if s.mgr.recons[r].loop.Listed? {
          CoversStill(s, s', k, measure, s.mgr.recons[r].loop.vms);
        }
      }
    }
  }

  lemma ExitCapped(s: State, k: PoolKey, measure: Measure, bound: nat, r: Rid)
    requires Capped(s, k, measure, bound)
    ensures Capped(s.(mgr := ExitLoop(s, r)), k, measure, bound)
  {
    var s' := s.(mgr := ExitLoop(s, r));
    assert Tally(s', k, measure) == Tally(s, k, measure);
    forall i | i in s.procs ensures WorksFor(s'.mgr, k, s.procs[i]) == WorksFor(s.mgr, k, s.procs[i]) {}
    LessIsCapped(s, s', k, measure, bound);
  }

  lemma LeaveCapped(s: State, k: PoolKey, measure: Measure, bound: nat, r: Rid)
    requires Capped(s, k, measure, bound)
    ensures Capped(s.(mgr := LeaveLoop(s.mgr, r)), k, measure, bound)
  {
    var s' := s.(mgr := LeaveLoop(s.mgr, r));
    assert s'.mgr.recons == s.mgr.recons;
    assert Tally(s', k, measure) == Tally(s, k, measure);
    forall i | i in s.procs ensures WorksFor(s'.mgr, k, s.procs[i]) == WorksFor(s.mgr, k, s.procs[i]) {}
    LessIsCapped(s, s', k, measure, bound);
  }

  lemma SeedCapped(s: State, k: PoolKey, measure: Measure, bound: nat, j: PoolKey, r: Rid)
    requires Inv(s) && Capped(s, k, measure, bound)
    ensures Capped(s.(mgr := SeedPool(s, j, r)), k, measure, bound)
  {
    var s' := s.(mgr := SeedPool(s, j, r));
    assert Tally(s', k, measure) == Tally(s, k, measure);
    forall i | i in s.procs && Boss(s.procs[i]).Some?
      ensures Boss(s.procs[i]).value in s.mgr.recons
      ensures WorksFor(s'.mgr, k, s.procs[i]) == WorksFor(s.mgr, k, s.procs[i])
    {
      BossAlive(s, i);
    }
    forall i | i in MakingFor(s', k) ensures i in MakingFor(s, k) {
      assert Boss(s.procs[i]).Some?;
    }
    forall t | Busy(s', t) ensures Busy(s, t) && t in s.mgr.recons {
      var i :| i in s'.procs && Boss(s'.procs[i]) == Some(t);
      assert i in s.procs && Boss(s.procs[i]) == Some(t);
    }
    LessIsCapped(s, s', k, measure, bound);
  }

  lemma JoinCapped(s: State, s': State, k: PoolKey, measure: Measure, bound: nat, i: Pid, q: Proc)
    requires Capped(s, k, measure, bound) && s'.db == s.db && s'.leaseOf == s.leaseOf && s'.mgr == s.mgr
    requires i !in s.procs && s'.procs == s.procs[i := q] && Boss(q).None?
    ensures Capped(s', k, measure, bound)
  {
    assert Tally(s', k, measure) == Tally(s, k, measure);
    LessIsCapped(s, s', k, measure, bound);
  }

  lemma CallCapped(s: State, k: PoolKey, measure: Measure, bound: nat, i: Pid, p: Proc)
    requires Capped(s, k, measure, bound)
    ensures Capped(StartCall(s, i, p), k, measure, bound)
  {
    hide Capped;
    if i !in s.procs && IsEntry(p) {
      assert Boss(p).None?;
      JoinCapped(s, StartCall(s, i, p), k, measure, bound, i, p);
    }
  }

  lemma SweepCapped(s: State, k: PoolKey, measure: Measure, bound: nat, i: Pid, u: Uid, finish: bool)
    requires Capped(s, k, measure, bound)
    ensures Capped(StartSweep(s, i, u, finish), k, measure, bound)
  {
    if i !in s.procs && u in s.db.vms && s.db.vms[u].phase.Deleting? {
      JoinCapped(s, StartSweep(s, i, u, finish), k, measure, bound, i, Asking(SweepJob(finish), s.db.vms[u]));
    }
  }

  /** A drain, a host action or an event. */
  lemma TablesCapped(s: State, k: PoolKey, measure: Measure, bound: nat, db: Db)
    requires Capped(s, k, measure, bound)
    requires forall u | u in db.vms :: u in s.db.vms && (db.vms[u] == s.db.vms[u] || db.vms[u] == Condemn(s.db.vms[u]))
    ensures Capped(s.(db := db), k, measure, bound)
  {
    LessIsCapped(s, s.(db := db), k, measure, bound);
  }

  lemma RestartCapped(s: State, k: PoolKey, measure: Measure, bound: nat)
    requires Capped(s, k, measure, bound)
    ensures Capped(RestartState(s), k, measure, bound)
  {
    var s' := RestartState(s);
    assert forall i | i in s'.procs :: !IsMaking(s'.procs[i]);
    LessIsCapped(s, s', k, measure, bound);
  }

  lemma TableActionCapped(s: State, a: Action, k: PoolKey, measure: Measure, bound: nat)
    requires Capped(s, k, measure, bound)
    requires a.SetCordoned? || a.Drain? || a.MarkDraining? || a.AddHost? || a.RemoveHost? || a.Note?
    ensures Capped(Next(s, a), k, measure, bound)
  {
    hide Next, Capped, Calm;
    TablesAreCalm(s, a);
    TablesCapped(s, k, measure, bound, Next(s, a).db);
  }

  lemma LoopActionCapped(s: State, a: Action, k: PoolKey, measure: Measure, size: int, bound: nat)
    requires Inv(s) && Capped(s, k, measure, bound) && Disciplined(s, k, measure, size) && Sized(measure, size, bound)
    requires a.Seed? || a.ReconList? || a.ReconCount? || a.ReconCap? || a.ReconRest? || a.ReconExit? || a.ReconLeave?
    ensures Capped(Next(s, a), k, measure, bound)
  {
    hide *;
    match a
    case Seed(j, r) => NextSeed(s, j, r); SeedCapped(s, k, measure, bound, j, r);
    case ReconExit(r) => NextReconExit(s, r); ExitCapped(s, k, measure, bound, r);
    case ReconLeave(r) => NextReconLeave(s, r); LeaveCapped(s, k, measure, bound, r);
    case ReconList(r, hook) => NextReconList(s, r, hook); ListCapped(s, k, measure, bound, r, hook);
    case ReconCount(r) => NextReconCount(s, r); CountCapped(s, k, measure, size, bound, r);
    case ReconCap(r) => NextReconCap(s, r); CapCapped(s, k, measure, size, bound, r);
    case ReconRest(r) => NextReconRest(s, r); RestCapped(s, k, measure, bound, r);
  }

  lemma StartActionCapped(s: State, a: Action, k: PoolKey, measure: Measure, size: int, bound: nat)
    requires Inv(s) && Capped(s, k, measure, bound) && Disciplined(s, k, measure, size)
    requires a.Call? || a.Sweep? || a.ReconSpawn?
    ensures Capped(Next(s, a), k, measure, bound)
  {
    hide Inv, Next, Capped, StartCall, StartSweep, SpawnProvision;
    match a
    case Call(i, p) => NextCall(s, i, p); CallCapped(s, k, measure, bound, i, p);
    case Sweep(i, u, finish) => NextSweep(s, i, u, finish); SweepCapped(s, k, measure, bound, i, u, finish);
    case ReconSpawn(r, i) => NextReconSpawn(s, r, i); SpawnCapped(s, k, measure, bound, r, i);
  }

  lemma NoneOverlap(s: State, k: PoolKey, measure: Measure, size: int)
    requires Disciplined(s, k, measure, size)
    ensures NoOverlap(s.mgr, k)
  {
  }

  lemma NextCapped(s: State, a: Action, k: PoolKey, measure: Measure, size: int, bound: nat)
    requires Inv(s) && Capped(s, k, measure, bound) && Disciplined(s, k, measure, size) && Sized(measure, size, bound)
    ensures Capped(Next(s, a), k, measure, bound)
  {
    hide *;
    if a.Advance? {
      NextAdvance(s, a.i, a.c);
      NoneOverlap(s, k, measure, size);
      if a.i in s.procs { StepCapped(s, a.i, a.c, k, measure, bound); }
    } else if a.Restart? {
      NextRestart(s);
      RestartCapped(s, k, measure, bound);
    } else if a.Call? || a.Sweep? || a.ReconSpawn? {
      StartActionCapped(s, a, k, measure, size, bound);
    } else if a.SetCordoned? || a.Drain? || a.MarkDraining? || a.AddHost? || a.RemoveHost? || a.Note? {
      TableActionCapped(s, a, k, measure, bound);
    } else {
      LoopActionCapped(s, a, k, measure, size, bound);
    }
  }

  // ---- every run ----

  ghost predicate DisciplinedThroughout(s: State, actions: seq<Action>, k: PoolKey, measure: Measure, size: int)
    decreases |actions|
  {
    && Disciplined(s, k, measure, size)
    && (actions != [] ==> DisciplinedThroughout(Next(s, actions[0]), actions[1..], k, measure, size))
  }

  lemma {:induction false} StaysCapped(s: State, actions: seq<Action>, k: PoolKey, measure: Measure, size: int,
    bound: nat)
    requires Inv(s) && Capped(s, k, measure, bound) && Sized(measure, size, bound)
    requires DisciplinedThroughout(s, actions, k, measure, size)
    ensures Capped(Run(s, actions), k, measure, bound)
    decreases |actions|
  {
    hide Next, Inv, Capped, Disciplined;
    if actions != [] {
      NextKeeps(s, actions[0]);
      NextCapped(s, actions[0], k, measure, size, bound);
      StaysCapped(Next(s, actions[0]), actions[1..], k, measure, size, bound);
    }
  }

  /** Between two reconciles: nothing of the pool is being provisioned or decided. */
  ghost predicate Settled(s: State, k: PoolKey) {
    MakingFor(s, k) == {} && forall r | RunsFor(s.mgr, k, r) :: s.mgr.recons[r].loop.Idle? && !Busy(s, r)
  }

  /** Under any concurrent claims, yields, releases and expiries, with one reconciler at a time of
      a fixed size, the VMs counted never exceed the size or what was there at the start. */
  lemma NoOverProvisioning(before: seq<Action>, after: seq<Action>, k: PoolKey, measure: Measure, size: nat)
    requires !measure.AllRows?
    requires var s := Run(Initial(), before); Settled(s, k) && DisciplinedThroughout(s, after, k, measure, size)
    ensures
      var s := Run(Initial(), before);
      |Tally(Run(s, after), k, measure)| <= Max(size, |Tally(s, k, measure)|)
  {
    hide Run, Next, Inv, Covers, Disciplined, Tally, MakingFor, Busy;
    var s := Run(Initial(), before);
    EveryRun(before);
    StaysCapped(s, after, k, measure, size, Max(size, |Tally(s, k, measure)|));
  }

  /** A static-network pool never holds two rows, in any phase, though DELETING and QUARANTINED
      rows are invisible to every strategy. */
  lemma StaticPoolHoldsOne(before: seq<Action>, after: seq<Action>, k: PoolKey)
    requires
      var s := Run(Initial(), before);
      Settled(s, k) && |Tally(s, k, AllRows)| <= 1 && DisciplinedThroughout(s, after, k, AllRows, 0)
    ensures |VmsOfPool(Run(Run(Initial(), before), after).db, k).Keys| <= 1
  {
    hide Run, Next, Inv, Covers, Disciplined, Tally, MakingFor, Busy;
    var s := Run(Initial(), before);
    EveryRun(before);
    StaysCapped(s, after, k, AllRows, 0, 1);
    TallyIsAllRows(Run(s, after), k);
  }

  lemma TallyIsAllRows(s: State, k: PoolKey)
    ensures VmsOfPool(s.db, k).Keys == Tally(s, k, AllRows)
  {
  }
}
