/** Pools, hosts and reconcilers over whole runs, and what a restart leaves. */
module AdminTheorems {
  import opened Records
  import opened Transactions
  import opened Protocol
  import opened Invariant
  import opened Stability
  import opened Plans
  import opened Frames
  import opened Environment
  import opened Runs
  import opened Guarantees
  import opened AdminSteps

  // ---- referential integrity ----

  /** Every host a pool, a VM row or a reservation names is registered, though CreatePool's check
      and write and RemoveHost's are separate steps, and though provisions may still run a spec
      that has been replaced. A draining host is cordoned. */
  lemma HostReferences(actions: seq<Action>)
    ensures
      var db := Run(Initial(), actions).db;
      && (forall k, h | k in db.pools && h in db.pools[k].hosts :: h in db.hosts)
      && (forall u | u in db.vms :: db.vms[u].host in db.hosts)
      && (forall pl | pl in db.placements :: db.placements[pl].host in db.hosts)
      && (forall h | h in db.hosts && db.hosts[h].draining :: db.hosts[h].cordoned)
  {
    hide Run, ProcsOk, Covered, RowsOk, LeasesOk, ManagerOk, MintsOk, TombstonesOk;
    EveryRun(actions);
  }

  // ---- reconcilers ----

  /** Every reconciler whose goroutine has not finished is in handles or exiting for its key, and
      its pool exists. */
  lemma RunningIsTracked(actions: seq<Action>, r: Rid)
    requires Alive(Run(Initial(), actions).mgr, r)
    ensures
      var s := Run(Initial(), actions);
      var k := s.mgr.recons[r].spec.key;
      ((k in s.mgr.handles && s.mgr.handles[k] == r) || r in ExitingOf(s.mgr, k)) && k in s.db.pools
  {
    hide Run, ProcsOk, Covered, RowsOk, LeasesOk, HostsOk, MintsOk, TombstonesOk;
    EveryRun(actions);
    assert Tracked(Run(Initial(), actions).mgr, r);
  }

  /** Stop and wait is sound: a DeletePool whose wait is over finds no goroutine of the pool
      running, replaced ones included, and none starts before its transaction. */
  lemma WaitIsSound(actions: seq<Action>, i: Pid, r: Rid)
    requires i in Run(Initial(), actions).procs && Run(Initial(), actions).procs[i].DelReady?
    requires Alive(Run(Initial(), actions).mgr, r)
    ensures Run(Initial(), actions).mgr.recons[r].spec.key != Run(Initial(), actions).procs[i].key
  {
    var s := Run(Initial(), actions);
    EveryRun(actions);
    Here(s, i);
    ReadyIff(s, i, s.procs[i]);
  }

  lemma OthersKeepPools(s: State, a: Action)
    requires !a.Advance? || a.i !in s.procs
    ensures Next(s, a).db.pools == s.db.pools
  {
    hide Next, Step, Joined;
    if a.Advance? {
      NextAdvance(s, a.i, a.c);
    } else if a.Restart? {
      NextRestart(s);
    } else {
      EnvironmentIsCalm(s, a);
    }
  }

  lemma StepPools(s: State, i: Pid, c: Choice)
    requires Inv(s) && i in s.procs
    ensures
      var e := Plan(s, s.procs[i], c);
      && PoolEffectOk(s, s.procs[i], e) && RowEffectOk(s.db, s.procs[i], e)
      && Step(s, i, c).db.pools ==
         if e.WritesPool? then s.db.pools[e.spec.key := e.spec]
         else if e.RemovesPool? then s.db.pools - {e.k} else s.db.pools
  {
    hide Inv, Plan, Apply, RowEffectOk, YardEffectOk, MakingOk, LeaseEffectOk, PoolEffectOk;
    StepAllowed(s, i, c);
    PoolsAfter(s, i, Plan(s, s.procs[i], c));
  }

  /** Nothing runs for the pool: no reconciler, and no Provision call. */
  ghost predicate NothingRunsFor(s: State, k: PoolKey) {
    && (forall r | Alive(s.mgr, r) :: s.mgr.recons[r].spec.key != k)
    && (forall j | j in s.procs && Boss(s.procs[j]).Some? ::
          Boss(s.procs[j]).value in s.mgr.recons && s.mgr.recons[Boss(s.procs[j]).value].spec.key != k)
  }

  lemma ReadyQuiet(s: State, i: Pid)
    requires Inv(s) && i in s.procs && s.procs[i].DelReady?
    ensures NothingRunsFor(s, s.procs[i].key)
  {
    Here(s, i);
    ReadyIff(s, i, s.procs[i]);
    forall j | j in s.procs && Boss(s.procs[j]).Some? ensures Alive(s.mgr, Boss(s.procs[j]).value) {
      BossAlive(s, j);
    }
  }

  /** A pool goes only by a DeletePool whose wait is over, while nothing provisions for it; without
      force, only while none of its VMs is LEASED or has its pre-lease hooks running. */
  lemma PoolGoesQuietly(s: State, a: Action, k: PoolKey)
    requires Inv(s) && k in s.db.pools && k !in Next(s, a).db.pools
    ensures a.Advance? && a.i in s.procs && s.procs[a.i].DelReady? && s.procs[a.i].key == k
    ensures NothingRunsFor(s, k)
    ensures s.procs[a.i].force || forall u | u in s.db.vms && s.db.vms[u].pool == k ::
              !s.db.vms[u].phase.Leased? && !s.db.vms[u].phase.PreLeaseHookRunning?
  {
    hide Inv, Next, Step, Plan, NothingRunsFor;
    if !a.Advance? || a.i !in s.procs {
      OthersKeepPools(s, a);
    }
    NextAdvance(s, a.i, a.c);
    StepPools(s, a.i, a.c);
    ReadyQuiet(s, a.i);
  }

  lemma WritingChecked(s: State, i: Pid)
    requires Inv(s) && i in s.procs && s.procs[i].PoolWriting?
    ensures s.procs[i].spec.key in s.locks && s.locks[s.procs[i].spec.key] == i
    ensures forall h | h in s.procs[i].spec.hosts :: h in s.db.hosts
  {
    Here(s, i);
    CheckedIff(s, i, s.procs[i]);
  }

  /** A pool row is written only by a CreatePool that found none or an UpdatePool that found one, with
      the spec the call was given, after its check of the hosts and under the pool's lock. */
  lemma PoolRowsWritten(s: State, a: Action, k: PoolKey)
    requires Inv(s) && k in Next(s, a).db.pools && (k in s.db.pools ==> Next(s, a).db.pools[k] != s.db.pools[k])
    ensures a.Advance? && a.i in s.procs && s.procs[a.i].PoolWriting? && (s.procs[a.i].create <==> k !in s.db.pools)
    ensures s.procs[a.i].spec.key == k && Next(s, a).db.pools[k] == s.procs[a.i].spec
    ensures k in s.locks && s.locks[k] == a.i && forall h | h in s.procs[a.i].spec.hosts :: h in s.db.hosts
  {
    hide Inv, Next, Step, Plan;
    if !a.Advance? || a.i !in s.procs {
      OthersKeepPools(s, a);
    }
    NextAdvance(s, a.i, a.c);
    StepPools(s, a.i, a.c);
    WritingChecked(s, a.i);
  }

  lemma DelPlans(s: State, p: Proc, c: Choice)
    ensures p.DelFound? ==> Plan(s, p, c) == PlanDelFound(s, p, c)
    ensures p.DelReady? ==> Plan(s, p, c) == PlanDelReady(s, p, c)
  {
    hide ClaimSidePlan, LeaseSidePlan, BuildSidePlan, PoolWritePlan, PoolRestartPlan, PlanDelStart, PlanDelLocked,
      PlanDelFound, PlanDelStopping, PlanDelStopped, PlanDelWaiting, PlanDelReady, PlanDelEvents;
  }

  /** A DeletePool without force that finds a VM of the pool LEASED, or with its pre-lease hooks
      running, changes no table: before the reconciler is stopped it just returns, and afterwards it
      goes on to start the reconciler again. */
  lemma DeleteRefused(s: State, i: Pid, c: Choice, u: Uid)
    requires i in s.procs && (s.procs[i].DelFound? || s.procs[i].DelReady?) && !s.procs[i].force
    requires u in s.db.vms && s.db.vms[u].pool == s.procs[i].key
    requires s.db.vms[u].phase.Leased? || s.db.vms[u].phase.PreLeaseHookRunning?
    ensures
      var p, s' := s.procs[i], Next(s, Advance(i, c));
      && s'.db == s.db && s'.mgr == s.mgr && i in s'.procs
      && (p.DelFound? ==> s'.procs[i].Done?)
      && (p.DelReady? && p.key in s.db.pools ==> s'.procs[i] == DelRestart(p.key, p.spec))
  {
    hide Next, Plan, Apply;
    var e := Plan(s, s.procs[i], c);
    NextAdvance(s, i, c);
    DelPlans(s, s.procs[i], c);
    CallAfter(s, i, e);
    DbIs(s, i, e);
    ManagerAfter(s, i, e);
  }

  // ---- restart ----

  /** No reservations, no row half-provisioned or half-claimed, every LEASED row backed by its
      lease row; the leases are as they were, every row that was not abandoned is as it was, and
      the abandoned ones are DELETING. */
  ghost predicate CleanRecovery(db: Db, db': Db) {
    && db'.placements == map[] && db'.leases == db.leases && db'.pools == db.pools && db'.hosts == db.hosts
    && db'.vms.Keys == db.vms.Keys
    && (forall u | u in db.vms :: RecoveredRow(db, db.vms[u], db'.vms[u], u))
    && (forall l | l in db.leases && db.leases[l].vm in db.vms :: db'.vms[db.leases[l].vm] == db.vms[db.leases[l].vm])
  }

  ghost predicate RecoveredRow(db: Db, v: Vm, w: Vm, u: Uid) {
    && (w.phase.Available? || w.phase.Quarantined? || w.phase.Deleting? || w.phase.Leased?)
    && (w.phase.Leased? ==> w.leaseId.Some? && w.leaseId.value in db.leases && db.leases[w.leaseId.value].vm == u)
    && w == if v.phase.Provisioning? || v.phase.CreateHookRunning?
               || ((v.phase.Leased? || v.phase.PreLeaseHookRunning?)
                   && (v.leaseId.Some? ==> v.leaseId.value !in db.leases))
            then v.(phase := Deleting) else v
  }

  lemma RecoveredRowOk(s: State, u: Uid)
    requires Base(s) && u in s.db.vms
    ensures RecoveredRow(s.db, s.db.vms[u], Recover(s.db).vms[u], u)
  {
    var v := s.db.vms[u];
    assert RowOk(FleetOf(s), u);
    if v.phase.Leased? && !AbandonedClaim(s.db, v) {
      assert LeaseOk(s.db.vms, BookOf(s), v.leaseId.value);
    }
  }

  lemma RecoversCleanly(s: State)
    requires Base(s)
    ensures CleanRecovery(s.db, Recover(s.db))
  {
    forall u | u in s.db.vms ensures RecoveredRow(s.db, s.db.vms[u], Recover(s.db).vms[u], u) {
      RecoveredRowOk(s, u);
    }
    forall l | l in s.db.leases && s.db.leases[l].vm in s.db.vms
      ensures Recover(s.db).vms[s.db.leases[l].vm] == s.db.vms[s.db.leases[l].vm]
    {
      assert LeaseOk(s.db.vms, BookOf(s), l);
    }
  }

  /** Recovery from a crash at any point of any run. */
  lemma RecoveryIsClean(actions: seq<Action>)
    ensures CleanRecovery(Run(Initial(), actions).db, Next(Run(Initial(), actions), Restart).db)
  {
    hide Run, Step, Base, ProcsOk, Covered, CountRows, StartDrain, CleanRecovery;
    EveryRun(actions);
    RecoversCleanly(Run(Initial(), actions));
  }
}
