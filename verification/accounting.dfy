/** One ReleaseVM against one DeletePool: whatever the interleaving, the VM's deletion is
    reported exactly once. */
module Accounting {
  import opened Records
  import opened Transactions
  import opened Protocol
  import opened Invariant
  import opened Stability
  import opened Plans
  import opened Frames
  import opened Environment
  import opened Traces
  import opened Runs
  import opened Guarantees
  import opened LeaseTheorems

  /** Call i releases lease l of VM u while call j deletes pool k. */
  datatype Race = Race(i: Pid, j: Pid, u: Uid, k: PoolKey, l: LeaseId)

  // ---- what is reported, and what is still owed ----

  predicate Reports(e: Event, u: Uid) {
    e.vm == u && (e.kind.VmDeletedOnRelease? || e.kind.VmDeletedOnPoolDelete?)
  }

  function Reported(events: seq<Event>, u: Uid): nat {
    if events == [] then 0
    else Reported(events[..|events| - 1], u) + if Reports(events[|events| - 1], u) then 1 else 0
  }

  lemma ReportedAfter(events: seq<Event>, e: Event, u: Uid)
    ensures Reported(events + [e], u) == Reported(events, u) + if Reports(e, u) then 1 else 0
  {
    assert (events + [e])[..|events|] == events;
  }

  predicate ReleaseOwes(p: Proc, u: Uid) {
    (p.Closing? || p.ClosingEvent?) && p.lease.vm == u
  }

  predicate DeleteOwes(p: Proc, u: Uid) {
    p.DelEvents? && u in p.owed
  }

  function Owed(p: Proc, u: Uid): nat {
    if ReleaseOwes(p, u) || DeleteOwes(p, u) then 1 else 0
  }

  /** The VM still has its row in an existing pool. */
  ghost predicate InService(db: Db, x: Race) {
    x.u in db.vms && x.k in db.pools
  }

  ghost function Standing(db: Db, x: Race): nat {
    Reported(db.events, x.u) + if InService(db, x) then 1 else 0
  }

  /** The VM is in service, or its deletion is owed by one of the two calls, or it is reported:
      always exactly one of these. */
  ghost predicate Balanced(s: State, x: Race)
    requires x.i in s.procs && x.j in s.procs
  {
    Standing(s.db, x) + Owed(s.procs[x.i], x.u) + Owed(s.procs[x.j], x.u) == 1
  }

  // ---- the two calls, and the others ----

  ghost predicate IsTheLease(x: Race, l: Lease) {
    l.id == x.l && l.vm == x.u && l.pool == x.k
  }

  /** What the release has established at each point. */
  ghost predicate ReleaseAt(db: Db, x: Race, p: Proc) {
    match p
    case ReleaseStart(id) => id == x.l && (x.u in db.vms || x.k !in db.pools)
    case ReleaseGot(l) => IsTheLease(x, l) && (x.u in db.vms || x.k !in db.pools)
    case ReleaseMarking(l, v) => IsTheLease(x, l) && v.uid == x.u && (x.u in db.vms || x.k !in db.pools)
    case Asking(ReleaseJob(l), v) => IsTheLease(x, l) && v.uid == x.u && (x.u in db.vms || x.k !in db.pools)
    case Dropping(ReleaseJob(l), v) => IsTheLease(x, l) && v.uid == x.u && (x.u in db.vms || x.k !in db.pools)
    case ReleaseLookup(l) => IsTheLease(x, l) && x.u !in db.vms && x.k !in db.pools
    case ReleaseDropping(l) => IsTheLease(x, l) && x.u !in db.vms && x.k !in db.pools
    case Closing(l) => IsTheLease(x, l) && x.u !in db.vms
    case ClosingEvent(l) => IsTheLease(x, l) && x.u !in db.vms && x.l !in db.leases
    case ReleaseOk(l) => IsTheLease(x, l) && x.u !in db.vms && x.l !in db.leases
    case Done => true
    case _ => false
  }

  predicate DeleteAt(x: Race, p: Proc) {
    Removing(p) == Some(x.k) || p.Done?
  }

  /** A call that is neither: it may delete u's row only as DeletePool does, after the pool went,
      and it neither ends the lease, nor deletes or creates the pool. */
  ghost predicate Aloof(db: Db, x: Race, q: Proc) {
    && (Held(q).Some? && Held(q).value.uid == x.u ==> IsBareSweep(q) && x.k !in db.pools)
    && (Ending(q).Some? ==> Ending(q).value.vm != x.u)
    && (q.ReleaseStart? || q.ExpiryStart? ==> q.id != x.l)
    && Removing(q) != Some(x.k) && (q.DelEvents? ==> x.u !in q.owed)
    && Creating(q) != Some(x.k)
  }

  ghost predicate RaceInv(s: State, x: Race) {
    && Inv(s) && x.i != x.j && x.i in s.procs && x.j in s.procs
    && x.u in s.births && s.births[x.u].pool == x.k && x.u in s.leaseOf && s.leaseOf[x.u] == x.l
    && ReleaseAt(s.db, x, s.procs[x.i]) && DeleteAt(x, s.procs[x.j])
    && (forall y | y in s.procs && y != x.i && y != x.j :: Aloof(s.db, x, s.procs[y]))
    && Balanced(s, x)
  }

  /** A call about to end the lease or to report a deletion. */
  predicate RecordsOutcome(p: Proc) {
    p.Closing? || p.ClosingEvent? || p.DelEvents?
  }

  /** No sweeper pass on u, no other release or expiry of l, no other delete or create of pool k,
      no restart; the two calls' writes that record the outcome succeed. DeletePool's own delete of u's row
      is a sweep without bookkeeping, after the pool went. */
  ghost predicate Permitted(s: State, x: Race, a: Action) {
    match a
    case Call(_, p) => Aloof(s.db, x, p)
    case Sweep(_, u, finish) => u == x.u ==> !finish && x.k !in s.db.pools
    case Advance(y, c) =>
      (y == x.i || y == x.j) && y in s.procs && RecordsOutcome(s.procs[y]) ==> c.ok
    case Restart => false
    case _ => true
  }

  ghost predicate PermittedRun(s: State, x: Race, actions: seq<Action>)
    decreases |actions|
  {
    actions != [] ==> Permitted(s, x, actions[0]) && PermittedRun(Next(s, actions[0]), x, actions[1..])
  }

  // ---- what no action undoes ----

  /** A VM that was leased has no row to come, an ended lease does not come back, a given lease
      stays given. */
  lemma NothingUndone(s: State, a: Action, u: Uid, l: LeaseId)
    requires Inv(s) && u in s.leaseOf && l in s.minted
    ensures u !in s.db.vms ==> u !in Next(s, a).db.vms
    ensures l !in s.db.leases ==> l !in Next(s, a).db.leases
    ensures u in s.births ==> u in Next(s, a).births && Next(s, a).births[u] == s.births[u]
  {
    hide Next, ProcsOk, Covered, RowsOk, LeasesOk, OrphansFollow, ManagerOk, OwnedOrphan;
    NextFollows(s, a);
    NoOrphan(s, u);
  }

  lemma NoOrphan(s: State, u: Uid)
    requires ProcsOk(s) && u in s.leaseOf
    ensures !OwnedOrphan(s.births, s.procs, u)
  {
    if OwnedOrphan(s.births, s.procs, u) {
      Here(s, s.births[u].maker);
    }
  }

  lemma LeaseOfKept(s: State, a: Action, u: Uid)
    requires Inv(s) && u in s.leaseOf
    ensures u in Next(s, a).leaseOf && Next(s, a).leaseOf[u] == s.leaseOf[u]
  {
    hide Next, ProcsOk, Covered, RowsOk, LeasesOk, RowsFollow, OrphansFollow, ManagerOk;
    var l := s.leaseOf[u];
    NextKeeps(s, a);
    NextFollows(s, a);
    assert MintOk(FleetOf(Next(s, a)), Next(s, a).minted[l], l);
  }

  /** What does not come back: the row, the pool, the lease. */
  ghost predicate Lasting(db: Db, db': Db, x: Race) {
    && (x.u !in db.vms ==> x.u !in db'.vms) && (x.k !in db.pools ==> x.k !in db'.pools)
    && (x.l !in db.leases ==> x.l !in db'.leases)
  }

  /** Nobody but the release takes u's row away while its pool exists. */
  ghost predicate KeepsService(db: Db, db': Db, x: Race) {
    InService(db, x) ==> x.u in db'.vms || x.k !in db'.pools
  }

  lemma SteadyRelease(db: Db, db': Db, x: Race, p: Proc)
    requires ReleaseAt(db, x, p) && Lasting(db, db', x) && KeepsService(db, db', x)
    ensures ReleaseAt(db', x, p)
  {
  }

  lemma SteadyAloof(db: Db, db': Db, x: Race, q: Proc)
    requires Aloof(db, x, q) && Lasting(db, db', x)
    ensures Aloof(db', x, q)
  {
  }

  // ---- a step of another call ----

  lemma ClosingEnds(q: Proc)
    requires q.Closing? || q.ClosingEvent?
    ensures Ending(q) == Some(q.lease)
  {
  }

  lemma AloofOwesNothing(db: Db, x: Race, q: Proc)
    requires Aloof(db, x, q)
    ensures Owed(q, x.u) == 0
  {
    hide Held, Creating, Removing;
    if q.Closing? || q.ClosingEvent? {
      ClosingEnds(q);
    }
  }

  lemma AloofReportsNothing(s: State, x: Race, p: Proc, e: Effect)
    requires Aloof(s.db, x, p) && PoolEffectOk(s, p, e) && e.Records?
    ensures !Reports(e.e, x.u)
  {
  }

  lemma PoolPoints(p: Proc)
    ensures p.PoolWriting? && p.create ==> Creating(p) == Some(p.spec.key)
    ensures p.DelReady? ==> Removing(p) == Some(p.key)
  {
  }

  lemma PoolsUntouched(db: Db, e: Effect)
    requires !e.WritesPool? && !e.RemovesPool?
    ensures DbAfter(db, e).pools == db.pools
  {
  }

  lemma AloofKeepsPool(s: State, x: Race, p: Proc, e: Effect)
    requires Aloof(s.db, x, p) && PoolEffectOk(s, p, e) && RowEffectOk(s.db, p, e)
    ensures x.k in DbAfter(s.db, e).pools <==> x.k in s.db.pools
  {
    PoolPoints(p);
    if !e.WritesPool? && !e.RemovesPool? {
      PoolsUntouched(s.db, e);
    }
  }

  lemma DroppedIsHeld(p: Proc)
    requires p.Dropping?
    ensures Held(p) == Some(p.vm)
  {
  }

  lemma AloofKeepsRow(s: State, x: Race, p: Proc, e: Effect)
    requires Aloof(s.db, x, p) && RowEffectOk(s.db, p, e) && InService(s.db, x)
    ensures x.u in DbAfter(s.db, e).vms
  {
    hide CanDeletePool, Held, Creating, Ending, Removing;
    if e.Drops? {
      DroppedIsHeld(p);
    }
  }

  /** The facts about u, l and k that the two calls race over. */
  ghost predicate Leased(s: State, x: Race) {
    && Base(s) && x.u in s.births && s.births[x.u].pool == x.k && x.u in s.leaseOf && s.leaseOf[x.u] == x.l
  }

  lemma OnlyThisLease(s: State, x: Race, l: LeaseId)
    requires Leased(s, x) && l in s.db.leases && s.db.leases[l].vm == x.u
    ensures l == x.l
  {
    RowsAreMinted(s, l);
    assert MintOk(FleetOf(s), s.minted[l], l);
  }

  lemma HeldLeaseIsOwn(s: State, x: Race, v: Vm)
    requires Leased(s, x) && Known(FleetOf(s), v) && v.uid != x.u && v.leaseId.Some? && v.leaseId.value in s.db.leases
    ensures s.db.leases[v.leaseId.value].vm != x.u
  {
    RowsAreMinted(s, v.leaseId.value);
    assert MintOk(FleetOf(s), s.minted[v.leaseId.value], v.leaseId.value);
  }

  lemma NotAvailable(s: State, x: Race)
    requires Leased(s, x)
    ensures x.u in s.db.vms ==> s.db.vms[x.u].pool == x.k && !s.db.vms[x.u].phase.Available?
  {
    if x.u in s.db.vms {
      assert RowOk(FleetOf(s), x.u);
    }
  }

  lemma AloofHolds(s: State, x: Race, p: Proc, e: Effect)
    requires Leased(s, x) && Aloof(s.db, x, p) && Traced(s, p, e) && RowEffectOk(s.db, p, e) && YardEffectOk(s, p, e)
    ensures
      var q := After(p, e);
      Held(q).Some? && Held(q).value.uid == x.u ==> IsBareSweep(q) && x.k !in s.db.pools
  {
    hide *;
    HeldHow(s, p, e);
    HoldsAloof(s.db, x, p);
    NotTaken(s, x, p, e);
    BareSweepHolds(After(p, e));
  }

  lemma HeldHow(s: State, p: Proc, e: Effect)
    requires Traced(s, p, e)
    ensures
      var q := After(p, e);
      && (Held(q).Some? ==>
            var u := Held(q).value.uid;
            || (Held(p).Some? && Held(p).value.uid == u) || (Ending(p).Some? && Ending(p).value.vm == u)
            || (e.Takes? && e.v.uid == u) || (e.Bears? && e.u == u))
      && (IsBareSweep(p) && !IsBareSweep(q) ==> q.Done?)
  {
    hide Held, Ending, EndingFrom, Removing, Creating, IsBareSweep, IsEntry, VmsOfPool;
  }

  lemma HoldsAloof(db: Db, x: Race, p: Proc)
    requires Aloof(db, x, p)
    ensures Held(p).Some? && Held(p).value.uid == x.u ==> IsBareSweep(p) && x.k !in db.pools
    ensures Ending(p).Some? ==> Ending(p).value.vm != x.u
  {
    hide Held, Ending, Removing, Creating, IsBareSweep;
  }

  /** A leased VM is neither AVAILABLE nor new. */
  lemma NotTaken(s: State, x: Race, p: Proc, e: Effect)
    requires Leased(s, x) && RowEffectOk(s.db, p, e) && YardEffectOk(s, p, e)
    ensures !(e.Takes? && e.v.uid == x.u) && !(e.Bears? && e.u == x.u)
  {
    hide CanDeletePool, Reserver, Held, RowsOk, LeasesOk;
    NotAvailable(s, x);
  }

  lemma BareSweepHolds(q: Proc)
    ensures q.Done? ==> Held(q).None?
  {
  }

  lemma AloofEnds(s: State, y: Pid, x: Race, p: Proc, e: Effect)
    requires Leased(s, x) && AtPoint(s, y, p) && Aloof(s.db, x, p) && Traced(s, p, e)
    ensures Ending(After(p, e)).Some? ==> Ending(After(p, e)).value.vm != x.u
  {
    var q := After(p, e);
    if p.ReleaseStart? || p.ExpiryStart? {
      if p.id in s.db.leases && s.db.leases[p.id].vm == x.u { OnlyThisLease(s, x, p.id); }
    } else if p.Finishing? && p.vm.leaseId.Some? && p.vm.leaseId.value in s.db.leases {
      FinishingHeld(s, y, p);
      HeldLeaseIsOwn(s, x, p.vm);
    }
  }

  lemma FinishingHeld(s: State, y: Pid, p: Proc)
    requires AtPoint(s, y, p) && p.Finishing?
    ensures Known(FleetOf(s), p.vm) && Held(p) == Some(p.vm) && !IsBareSweep(p)
  {
    Here(s, y);
  }

  lemma AloofAdmin(s: State, x: Race, p: Proc, e: Effect)
    requires Leased(s, x) && Aloof(s.db, x, p) && Traced(s, p, e)
    ensures
      var q := After(p, e);
      && (q.ReleaseStart? || q.ExpiryStart? ==> q.id != x.l)
      && Removing(q) != Some(x.k) && (q.DelEvents? ==> x.u !in q.owed) && Creating(q) != Some(x.k)
  {
    hide HeldFrom, Held, EndingFrom, Ending;
    NotAvailable(s, x);
    var q := After(p, e);
    if p.DelReady? {
      assert Removing(p) == Some(p.key);
    }
  }

  lemma AloofStays(s: State, y: Pid, x: Race, p: Proc, e: Effect)
    requires Leased(s, x) && AtPoint(s, y, p) && Aloof(s.db, x, p) && Traced(s, p, e) && Allowed(s, p, e)
    ensures Aloof(s.db, x, After(p, e))
  {
    AloofHolds(s, x, p, e);
    AloofEnds(s, y, x, p, e);
    AloofAdmin(s, x, p, e);
  }

  lemma StandingSame(db: Db, e: Effect, x: Race)
    requires InService(DbAfter(db, e), x) == InService(db, x) && (e.Records? ==> !Reports(e.e, x.u))
    ensures Standing(DbAfter(db, e), x) == Standing(db, x)
  {
    if e.Records? {
      ReportedAfter(db.events, e.e, x.u);
    }
  }

  ghost predicate OthersAloof(s: State, x: Race) {
    forall y | y in s.procs && y != x.i && y != x.j :: Aloof(s.db, x, s.procs[y])
  }

  /** Whoever moved, and whatever it did to the tables, the race goes on. */
  lemma RaceGoesOn(s: State, s': State, x: Race, y: Pid, p: Proc, q: Proc)
    requires RaceInv(s, x) && Inv(s') && Leased(s', x) && y in s.procs && p == s.procs[y] && s'.procs == s.procs[y := q]
    requires Lasting(s.db, s'.db, x) && (y != x.i ==> KeepsService(s.db, s'.db, x))
    requires y == x.i ==> ReleaseAt(s'.db, x, q)
    requires y == x.j ==> DeleteAt(x, q)
    requires y != x.i && y != x.j ==> Aloof(s'.db, x, q)
    requires Standing(s'.db, x) + Owed(q, x.u) == Standing(s.db, x) + Owed(p, x.u)
    ensures RaceInv(s', x)
  {
    hide Base, ProcsOk, Covered;
    if y != x.i {
      SteadyRelease(s.db, s'.db, x, s.procs[x.i]);
    }
    if y != x.i && y != x.j {
      AloofOwesNothing(s.db, x, p);
      AloofOwesNothing(s'.db, x, q);
    }
    StayAloof(s, s', x, y, q);
  }

  lemma StayAloof(s: State, s': State, x: Race, y: Pid, q: Proc)
    requires OthersAloof(s, x) && Lasting(s.db, s'.db, x) && s'.procs == s.procs[y := q]
    requires y != x.i && y != x.j ==> Aloof(s'.db, x, q)
    ensures OthersAloof(s', x)
  {
    forall z | z in s'.procs && z != x.i && z != x.j ensures Aloof(s'.db, x, s'.procs[z]) {
      if z != y {
        SteadyAloof(s.db, s'.db, x, s.procs[z]);
      }
    }
  }

  lemma OtherEffect(s: State, x: Race, y: Pid, p: Proc, e: Effect)
    requires Leased(s, x) && AtPoint(s, y, p) && Aloof(s.db, x, p) && Traced(s, p, e) && Allowed(s, p, e)
    requires x.u !in s.db.vms ==> x.u !in DbAfter(s.db, e).vms
    ensures Standing(DbAfter(s.db, e), x) == Standing(s.db, x) && KeepsService(s.db, DbAfter(s.db, e), x)
    ensures x.k in DbAfter(s.db, e).pools <==> x.k in s.db.pools
    ensures Owed(p, x.u) == 0 && Owed(After(p, e), x.u) == 0 && Aloof(s.db, x, After(p, e))
  {
    AloofStays(s, y, x, p, e);
    AloofOwesNothing(s.db, x, p);
    AloofOwesNothing(s.db, x, After(p, e));
    AloofKeepsPool(s, x, p, e);
    if e.Records? {
      AloofReportsNothing(s, x, p, e);
    }
    if InService(s.db, x) {
      AloofKeepsRow(s, x, p, e);
    }
    StandingSame(s.db, e, x);
  }

  /** What is common to every step of every call. */
  lemma StepFacts(s: State, x: Race, y: Pid, c: Choice)
    requires RaceInv(s, x) && y in s.procs
    ensures
      var e := Plan(s, s.procs[y], c);
      var s' := Step(s, y, c);
      && Inv(s') && Leased(s', x) && s'.db == DbAfter(s.db, e) && s'.procs == s.procs[y := After(s.procs[y], e)]
      && (x.u !in s.db.vms ==> x.u !in s'.db.vms) && (x.l !in s.db.leases ==> x.l !in s'.db.leases)
      && Allowed(s, s.procs[y], e) && Traced(s, s.procs[y], e)
  {
    hide Plan, ProcsOk, RowEffectOk, Covered, CountRows, Apply, StartDrain, RestartState;
    var a := Advance(y, c);
    var e := Plan(s, s.procs[y], c);
    NextKeeps(s, a);
    NothingUndone(s, a, x.u, x.l);
    LeaseOfKept(s, a, x.u);
    RowsKeyed(s);
    PlanAllowed(s, s.procs[y], c);
    PlanTraced(s, s.procs[y], c);
    DbIs(s, y, e);
    CallAfter(s, y, e);
  }

  lemma OtherStep(s: State, x: Race, y: Pid, c: Choice)
    requires RaceInv(s, x) && y in s.procs && y != x.i && y != x.j
    ensures RaceInv(Step(s, y, c), x)
  {
    hide Step, Plan, ProcsOk, Allowed, Covered, Traced, Aloof;
    var p := s.procs[y];
    var e := Plan(s, p, c);
    StepFacts(s, x, y, c);
    OtherEffect(s, x, y, p, e);
    SteadyAloof(s.db, Step(s, y, c).db, x, After(p, e));
    RaceGoesOn(s, Step(s, y, c), x, y, p, After(p, e));
  }

  // ---- a step of the release ----

  ghost predicate ReleaseMoves(s: State, x: Race, p: Proc, e: Effect) {
    && ReleaseAt(DbAfter(s.db, e), x, After(p, e))
    && Standing(DbAfter(s.db, e), x) + Owed(After(p, e), x.u) == Standing(s.db, x) + Owed(p, x.u)
    && (x.k in DbAfter(s.db, e).pools <==> x.k in s.db.pools)
  }

  lemma LeaseRead(s: State, x: Race)
    requires Leased(s, x) && x.l in s.db.leases
    ensures IsTheLease(x, s.db.leases[x.l])
  {
    RowsAreMinted(s, x.l);
    assert MintOk(FleetOf(s), s.minted[x.l], x.l);
  }

  lemma ReleaseFinds(s: State, x: Race, p: Proc, c: Choice)
    requires Leased(s, x) && ReleaseAt(s.db, x, p) && p.ReleaseStart?
    ensures ReleaseMoves(s, x, p, PlanReleaseStart(s, p, c))
  {
    hide Base;
    if x.l in s.db.leases {
      LeaseRead(s, x);
    }
    if !c.ok || p.id !in s.db.leases {} else {}
  }

  lemma ReleaseReads(s: State, x: Race, p: Proc, c: Choice)
    requires Leased(s, x) && ReleaseAt(s.db, x, p) && Keyed(s.db.vms) && p.ReleaseGot?
    ensures ReleaseMoves(s, x, p, PlanReleaseGot(s, p, c))
  {
    hide Base;
    if !c.ok {} else if p.lease.vm !in s.db.vms {} else if s.db.vms[p.lease.vm].phase.Deleting? {} else {}
  }

  lemma ReleaseMarks(s: State, x: Race, p: Proc, c: Choice)
    requires ReleaseAt(s.db, x, p) && p.ReleaseMarking?
    ensures ReleaseMoves(s, x, p, ReleasePlan(s, p, c))
  {
    if !c.ok {} else if !CanUpdateVm(s.db, p.vm.(phase := Deleting)) {} else {}
  }

  lemma ReleaseEnds(s: State, x: Race, p: Proc, c: Choice)
    requires ReleaseAt(s.db, x, p) && (p.ReleaseLookup? || p.ReleaseDropping?)
    ensures ReleaseMoves(s, x, p, ReleasePlan(s, p, c))
  {
    if p.ReleaseLookup? {
      if !c.ok {} else if p.lease.pool in s.db.pools {} else {}
    } else {
      if !c.ok {} else {}
    }
  }

  lemma ReleaseCloses(s: State, x: Race, p: Proc, c: Choice)
    requires ReleaseAt(s.db, x, p) && (p.Closing? || p.ClosingEvent?) && c.ok
    ensures ReleaseMoves(s, x, p, ClosingPlan(s, p, c))
  {
    hide DeletePool, Reported;
    if p.ClosingEvent? {
      ReportedAfter(s.db.events, Event(p.lease.pool, p.lease.vm, VmDeletedOnRelease), x.u);
    }
  }

  lemma ReleaseAsks(s: State, x: Race, p: Proc, c: Choice)
    requires ReleaseAt(s.db, x, p) && p.Asking?
    ensures ReleaseMoves(s, x, p, PlanAsking(s, p, c))
  {
    if c.ok {} else if c.odd {} else {}
  }

  lemma ReleaseDrops(s: State, x: Race, p: Proc, c: Choice)
    requires Leased(s, x) && ReleaseAt(s.db, x, p) && p.Dropping?
    ensures ReleaseMoves(s, x, p, PlanDropping(s, p, c))
  {
    hide Base;
    NotAvailable(s, x);
    if !c.ok {} else if p.vm.uid !in s.db.vms {} else if s.db.vms[p.vm.uid].pool in s.db.pools {} else {}
  }

  lemma ReleaseDeletes(s: State, x: Race, p: Proc, c: Choice)
    requires Leased(s, x) && ReleaseAt(s.db, x, p) && (p.Asking? || p.Dropping?)
    ensures ReleaseMoves(s, x, p, DeletePlan(s, p, c))
  {
    hide Leased, ReleaseAt, ReleaseMoves, PlanAsking, PlanDropping, PlanFailing;
    if p.Asking? { ReleaseAsks(s, x, p, c); } else { ReleaseDrops(s, x, p, c); }
  }

  lemma ReleaseOwnPlans(s: State, x: Race, p: Proc, c: Choice)
    requires Leased(s, x) && ReleaseAt(s.db, x, p) && Keyed(s.db.vms) && InRelease(p)
    ensures ReleaseMoves(s, x, p, ReleasePlan(s, p, c))
  {
    hide Leased, ReleaseAt, ReleaseMoves, PlanReleaseStart, PlanReleaseGot;
    if p.ReleaseMarking? {
      ReleaseMarks(s, x, p, c);
    } else if p.ReleaseLookup? || p.ReleaseDropping? {
      ReleaseEnds(s, x, p, c);
    } else if p.ReleaseStart? {
      ReleaseFinds(s, x, p, c);
    } else {
      ReleaseReads(s, x, p, c);
    }
  }

  lemma ReleasePoints(db: Db, x: Race, p: Proc)
    requires ReleaseAt(db, x, p)
    ensures InDelete(p) ==> p.Asking? || p.Dropping?
    ensures InClosing(p) ==> p.Closing? || p.ClosingEvent?
    ensures InDelete(p) || InClosing(p) || InRelease(p) || p.ReleaseOk? || p.Done?
  {
  }

  lemma StillReleasing(s: State, x: Race, p: Proc)
    requires ReleaseAt(s.db, x, p)
    ensures ReleaseMoves(s, x, p, Stays)
  {
    hide ReleaseAt, Standing, Owed;
  }

  lemma ReleasePlans(s: State, x: Race, p: Proc, c: Choice)
    requires Leased(s, x) && ReleaseAt(s.db, x, p) && Keyed(s.db.vms) && (p.Closing? || p.ClosingEvent? ==> c.ok)
    ensures ReleaseMoves(s, x, p, Plan(s, p, c))
  {
    hide *;
    ReleasePoints(s.db, x, p);
    if InDelete(p) {
      DeletePlanIs(s, p, c);
      ReleaseDeletes(s, x, p, c);
    } else if InClosing(p) || InRelease(p) {
      ReleasePlanIs(s, p, c);
      if InRelease(p) { ReleaseOwnPlans(s, x, p, c); } else { ReleaseCloses(s, x, p, c); }
    } else {
      EndedStays(s, p, c);
      StillReleasing(s, x, p);
    }
  }

  lemma ReleaseStep(s: State, x: Race, c: Choice)
    requires RaceInv(s, x) && Permitted(s, x, Advance(x.i, c))
    ensures RaceInv(Step(s, x.i, c), x)
  {
    hide Step, Plan, ProcsOk, Allowed, Covered, Traced, Aloof, Base;
    var p := s.procs[x.i];
    var e := Plan(s, p, c);
    StepFacts(s, x, x.i, c);
    RowsKeyed(s);
    ReleasePlans(s, x, p, c);
    RaceGoesOn(s, Step(s, x.i, c), x, x.i, p, After(p, e));
  }

  // ---- a step of the pool's deletion ----

  ghost predicate DeleteMoves(s: State, x: Race, p: Proc, e: Effect) {
    && DeleteAt(x, After(p, e))
    && Standing(DbAfter(s.db, e), x) + Owed(After(p, e), x.u) == Standing(s.db, x) + Owed(p, x.u)
    && (x.k !in s.db.pools ==> x.k !in DbAfter(s.db, e).pools) && KeepsService(s.db, DbAfter(s.db, e), x)
  }

  lemma DeletePrepares(s: State, x: Race, p: Proc, c: Choice)
    requires Removing(p) == Some(x.k) && InDelStop(p)
    ensures DeleteMoves(s, x, p, DelStopPlan(s, p, c))
  {
    match p
    case DelStart(_, _) => if p.key in s.locks {} else {}
    case DelLocked(_, _) => DeleteLooksUp(s, x, p, c);
    case DelFound(_, _, _) => DeleteChecks(s, x, p, c);
    case DelStopping(_, _, _) =>
  }

  lemma DeleteLooksUp(s: State, x: Race, p: Proc, c: Choice)
    requires Removing(p) == Some(x.k) && p.DelLocked?
    ensures DeleteMoves(s, x, p, DelStopPlan(s, p, c))
  {
    if !c.ok || p.key !in s.db.pools {} else {}
  }

  lemma DeleteChecks(s: State, x: Race, p: Proc, c: Choice)
    requires Removing(p) == Some(x.k) && p.DelFound?
    ensures DeleteMoves(s, x, p, DelStopPlan(s, p, c))
  {
    if !p.force && (!c.ok || PoolHasLeasedVms(s.db, p.key)) {} else {}
  }

  lemma DeleteWaits(s: State, x: Race, p: Proc, c: Choice)
    requires Removing(p) == Some(x.k) && (p.DelStopped? || p.DelWaiting?)
    ensures DeleteMoves(s, x, p, DelWaitPlan(s, p, c))
  {
    match p
    case DelStopped(_, _, _) =>
    case DelWaiting(_, _, _, _) =>
      if p.rest == {} {} else if !c.ok {} else if c.pick in p.rest && !Alive(s.mgr, c.pick) {} else {}
  }

  lemma DeleteRemoves(s: State, x: Race, p: Proc, c: Choice)
    requires Leased(s, x) && Removing(p) == Some(x.k) && p.DelReady?
    ensures DeleteMoves(s, x, p, DelWaitPlan(s, p, c))
  {
    NotAvailable(s, x);
    if c.ok && p.key !in s.db.pools {
    } else if !c.ok || !CanDeletePool(s.db, p.key, p.force) {
    } else {
      DeleteTakesPool(s, x, p, c);
    }
  }

  lemma DeleteTakesPool(s: State, x: Race, p: Proc, c: Choice)
    requires p.DelReady? && p.key == x.k && c.ok && CanDeletePool(s.db, p.key, p.force)
    requires x.u in s.db.vms ==> s.db.vms[x.u].pool == x.k
    ensures DeleteMoves(s, x, p, DelWaitPlan(s, p, c))
  {
  }

  lemma DeleteReports(s: State, x: Race, p: Proc, c: Choice)
    requires Removing(p) == Some(x.k) && p.DelEvents? && c.ok
    ensures DeleteMoves(s, x, p, DelWaitPlan(s, p, c))
  {
    hide PlanDelReady, PlanDelWaiting, DeletePool, Reported;
    if p.owed == {} {} else if c.pick !in p.owed {} else {
      ReportedAfter(s.db.events, Event(p.key, c.pick, VmDeletedOnPoolDelete), x.u);
    }
  }

  lemma DeleteGivesUp(s: State, x: Race, p: Proc, c: Choice)
    requires Removing(p) == Some(x.k) && p.DelRestart?
    ensures DeleteMoves(s, x, p, PoolRestartPlan(s, p, c))
  {
    if !c.ok || p.spec.key in s.mgr.handles {} else if c.pick in s.mgr.recons {} else {}
  }

  lemma RemovingPoints(p: Proc)
    requires Removing(p).Some?
    ensures InDelStop(p) || InDelWait(p) || p.DelRestart?
  {
  }

  lemma RemovingPlans(s: State, p: Proc, c: Choice)
    requires Removing(p).Some?
    ensures InDelStop(p) ==> Plan(s, p, c) == DelStopPlan(s, p, c)
    ensures InDelWait(p) ==> Plan(s, p, c) == DelWaitPlan(s, p, c)
    ensures p.DelRestart? ==> Plan(s, p, c) == PoolRestartPlan(s, p, c)
  {
  }

  lemma DeletePlans(s: State, x: Race, p: Proc, c: Choice)
    requires Leased(s, x) && DeleteAt(x, p) && (p.DelEvents? ==> c.ok)
    ensures DeleteMoves(s, x, p, Plan(s, p, c))
  {
    if p.Done? {
      EndedStays(s, p, c);
    } else {
      RemovingPoints(p);
      RemovingPlans(s, p, c);
      if InDelStop(p) { DeletePrepares(s, x, p, c); }
      else if p.DelStopped? || p.DelWaiting? { DeleteWaits(s, x, p, c); }
      else if p.DelReady? { DeleteRemoves(s, x, p, c); }
      else if p.DelEvents? { DeleteReports(s, x, p, c); }
      else { DeleteGivesUp(s, x, p, c); }
    }
  }

  lemma DeleteStep(s: State, x: Race, c: Choice)
    requires RaceInv(s, x) && Permitted(s, x, Advance(x.j, c))
    ensures RaceInv(Step(s, x.j, c), x)
  {
    hide Step, Plan, ProcsOk, Allowed, Covered, Traced, Aloof, Base;
    var p := s.procs[x.j];
    var e := Plan(s, p, c);
    StepFacts(s, x, x.j, c);
    DeletePlans(s, x, p, c);
    RaceGoesOn(s, Step(s, x.j, c), x, x.j, p, After(p, e));
  }

  // ---- everything else ----

  /** The tables after an action that is no call's step: the pools and the set of rows stay, and
      nothing is reported about any VM. */
  ghost predicate QuietTables(db: Db, db': Db) {
    && db'.pools == db.pools && db'.vms.Keys == db.vms.Keys
    && (db'.events == db.events || exists e :: db'.events == db.events + [e] && forall u :: !Reports(e, u))
  }

  lemma QuietStanding(db: Db, db': Db, x: Race)
    requires QuietTables(db, db')
    ensures Standing(db', x) == Standing(db, x) && KeepsService(db, db', x)
  {
    if db'.events != db.events {
      var e :| db'.events == db.events + [e] && forall u :: !Reports(e, u);
      ReportedAfter(db.events, e, x.u);
      assert !Reports(e, x.u);
    }
  }

  lemma CalmIsQuiet(db: Db, db': Db)
    requires CalmTables(db, db')
    ensures QuietTables(db, db')
  {
    if db'.events != db.events {
      var e :| Reportless(e) && db'.events == db.events + [e];
      assert forall u :: !Reports(e, u);
    }
  }

  lemma EnvironmentIsQuiet(s: State, a: Action)
    requires !a.Advance? && !a.Restart?
    ensures QuietTables(s.db, Next(s, a).db)
  {
    hide Next, QuietTables, CalmTables, Joined;
    EnvironmentIsCalm(s, a);
    CalmIsQuiet(s.db, Next(s, a).db);
  }

  /** No call moves; at most one joins, and it is aloof. */
  ghost predicate Joins(s: State, s': State, x: Race) {
    s'.procs == s.procs || exists y, q :: y !in s.procs && s'.procs == s.procs[y := q] && Aloof(s.db, x, q)
  }

  lemma SweepIsAloof(s: State, x: Race, v: Vm, finish: bool)
    requires v.uid == x.u ==> !finish && x.k !in s.db.pools
    ensures Aloof(s.db, x, Asking(SweepJob(finish), v))
  {
  }

  lemma SpawnIsAloof(s: State, x: Race, r: Rid, spec: PoolSpec)
    ensures Aloof(s.db, x, ProvStart(r, spec))
  {
  }

  lemma EnvironmentJoins(s: State, x: Race, a: Action)
    requires !a.Advance? && Permitted(s, x, a) && Keyed(s.db.vms)
    ensures Joins(s, Next(s, a), x)
  {
    hide Next, StartCall, StartSweep, SpawnProvision, Aloof, Calm, CalmTables, Joins, Keyed;
    match a
    case Call(i, p) => NextCall(s, i, p); CallJoins(s, x, i, p);
    case Sweep(i, u, finish) => NextSweep(s, i, u, finish); SweepJoins(s, x, i, u, finish);
    case ReconSpawn(r, i) => NextReconSpawn(s, r, i); SpawnJoins(s, x, r, i);
    case _ =>
      if a.SetCordoned? || a.Drain? || a.MarkDraining? || a.AddHost? || a.RemoveHost? || a.Note? {
        TablesAreCalm(s, a);
      } else {
        ReconcilersAreCalm(s, a);
      }
      NobodyJoins(s, Next(s, a), x);
  }

  lemma NobodyJoins(s: State, s': State, x: Race)
    requires s'.procs == s.procs
    ensures Joins(s, s', x)
  {
  }

  lemma CallJoins(s: State, x: Race, i: Pid, p: Proc)
    requires Aloof(s.db, x, p)
    ensures Joins(s, StartCall(s, i, p), x)
  {
  }

  lemma SweepJoins(s: State, x: Race, i: Pid, u: Uid, finish: bool)
    requires (u == x.u ==> !finish && x.k !in s.db.pools) && Keyed(s.db.vms)
    ensures Joins(s, StartSweep(s, i, u, finish), x)
  {
    if i !in s.procs && u in s.db.vms && s.db.vms[u].phase.Deleting? {
      SweepIsAloof(s, x, s.db.vms[u], finish);
    }
  }

  lemma SpawnJoins(s: State, x: Race, r: Rid, i: Pid)
    ensures Joins(s, SpawnProvision(s, r, i), x)
  {
    if CanSpawn(s, r, i) {
      SpawnIsAloof(s, x, r, s.mgr.recons[r].spec);
    }
  }

  lemma EnvironmentStep(s: State, x: Race, a: Action)
    requires RaceInv(s, x) && !a.Advance? && Permitted(s, x, a)
    ensures RaceInv(Next(s, a), x)
  {
    hide Next, ProcsOk, Covered, Joins, Aloof, RowsOk, LeasesOk, ReleaseAt;
    var s' := Next(s, a);
    NextKeeps(s, a);
    NothingUndone(s, a, x.u, x.l);
    LeaseOfKept(s, a, x.u);
    RowsKeyed(s);
    EnvironmentIsQuiet(s, a);
    QuietStanding(s.db, s'.db, x);
    EnvironmentJoins(s, x, a);
    RaceUndisturbed(s, s', x);
  }

  lemma RaceUndisturbed(s: State, s': State, x: Race)
    requires RaceInv(s, x) && Inv(s') && Leased(s', x) && Joins(s, s', x)
    requires Lasting(s.db, s'.db, x) && KeepsService(s.db, s'.db, x) && Standing(s'.db, x) == Standing(s.db, x)
    ensures RaceInv(s', x)
  {
    SteadyRelease(s.db, s'.db, x, s.procs[x.i]);
    forall z | z in s'.procs && z != x.i && z != x.j ensures Aloof(s'.db, x, s'.procs[z]) {
      SteadyAloof(s.db, s'.db, x, s'.procs[z]);
    }
  }

  // ---- every interleaving ----

  lemma RaceStep(s: State, x: Race, a: Action)
    requires RaceInv(s, x) && Permitted(s, x, a)
    ensures RaceInv(Next(s, a), x)
  {
    hide Step, RaceInv, CountRows, StartDrain, RestartState, Permitted, MarkUnleased, ExitLoop;
    if a.Advance? {
      NextAdvance(s, a.i, a.c);
      if a.i in s.procs {
        if a.i == x.i { ReleaseStep(s, x, a.c); }
        else if a.i == x.j { DeleteStep(s, x, a.c); }
        else { OtherStep(s, x, a.i, a.c); }
      }
    } else {
      EnvironmentStep(s, x, a);
    }
  }

  lemma {:induction false} RaceRun(s: State, x: Race, actions: seq<Action>)
    requires RaceInv(s, x) && PermittedRun(s, x, actions)
    ensures RaceInv(Run(s, actions), x)
    decreases |actions|
  {
    hide Next, Inv, Permitted, Aloof, ReleaseAt, Balanced, DeleteAt;
    if actions != [] {
      RaceStep(s, x, actions[0]);
      RaceRun(Next(s, actions[0]), x, actions[1..]);
    }
  }

  /** A release of a leased VM is called while its pool is being deleted, nothing has been reported
      about the VM, and no other call is about either. */
  ghost predicate RaceStarts(s: State, x: Race) {
    && Inv(s) && x.i != x.j && x.i in s.procs && x.j in s.procs
    && x.l in s.db.leases && s.db.leases[x.l].vm == x.u && s.db.leases[x.l].pool == x.k && x.u in s.db.vms
    && s.procs[x.i] == ReleaseStart(x.l) && s.procs[x.j].DelStart? && s.procs[x.j].key == x.k
    && OthersAloof(s, x) && Reported(s.db.events, x.u) == 0
  }

  lemma RaceStartsBalanced(s: State, x: Race)
    requires RaceStarts(s, x)
    ensures RaceInv(s, x)
  {
    RowsAreMinted(s, x.l);
    assert MintOk(FleetOf(s), s.minted[x.l], x.l);
    TombstoneFree(s, x);
    StartsOwingNothing(s.procs[x.i], s.procs[x.j], x);
  }

  lemma TombstoneFree(s: State, x: Race)
    requires Base(s) && x.l in s.db.leases && s.db.leases[x.l].pool == x.k && x.u in s.db.vms
    ensures InService(s.db, x)
  {
  }

  lemma StartsOwingNothing(p: Proc, q: Proc, x: Race)
    requires p.ReleaseStart? && q.DelStart? && q.key == x.k
    ensures Owed(p, x.u) == 0 && Owed(q, x.u) == 0 && DeleteAt(x, q)
  {
  }

  lemma RaceEnds(s: State, x: Race)
    requires RaceInv(s, x) && s.procs[x.i].ReleaseOk? && s.procs[x.j].Done?
    ensures x.u !in s.db.vms && x.l !in s.db.leases && Reported(s.db.events, x.u) == 1
  {
  }

  /** However the two interleave, with each other and with everything else: once the release has
      returned OK and the pool's deletion has returned, the VM row and the lease row are gone, and
      the deletion was reported exactly once, as a release or as a pool delete. */
  lemma ReportedExactlyOnce(s: State, x: Race, actions: seq<Action>)
    requires RaceStarts(s, x) && PermittedRun(s, x, actions)
    requires
      var s' := Run(s, actions);
      x.i in s'.procs && s'.procs[x.i].ReleaseOk? && x.j in s'.procs && s'.procs[x.j].Done?
    ensures
      var s' := Run(s, actions);
      x.u !in s'.db.vms && x.l !in s'.db.leases && Reported(s'.db.events, x.u) == 1
  {
    hide *;
    RaceStartsBalanced(s, x);
    RaceRun(s, x, actions);
    RaceEnds(Run(s, actions), x);
  }
}
