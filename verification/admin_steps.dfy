/** CreatePool, UpdatePool, DeletePool and the reconcilers keep the invariant. */
module AdminSteps {
  import opened Records
  import opened Transactions
  import opened Replenishment
  import opened Protocol
  import opened Invariant
  import opened Stability
  import opened Effects
  import opened AdminEffects
  import opened EnvEffects
  import opened Obligations
  import opened ProvisionSteps

  // ---- what a call under a pool lock has to establish about itself ----

  ghost predicate HoldsLock(o: Office, i: Pid, k: PoolKey) {
    k in o.locks && o.locks[k] == i
  }

  lemma AdminShape(q: Proc)
    requires LockOf(q).Some?
    ensures OwnsNothing(q) && Held(q).None? && Reserver(q).None? && LeaseIn(q).None? && Boss(q).None?
  {
  }

  /** A call under a pool lock answers for its lock, its pool and the reconcilers it stopped. */
  lemma AdminIff(s: State, i: Pid, q: Proc)
    requires LockOf(q).Some?
    ensures ProcOk(s, i, q) <==> LockSideOk(s.locks, i, q) && PoolSideOk(OfficeOf(s), i, q) && StopSideOk(s.mgr, q)
    ensures OwnsNothing(q)
  {
    AdminShape(q);
  }

  lemma LockedIff(s: State, i: Pid, q: Proc, k: PoolKey)
    requires (q.PoolLocked? || q.DelLocked? || q.DelEvents?) && LockOf(q) == Some(k)
    ensures ProcOk(s, i, q) <==> HoldsLock(OfficeOf(s), i, k)
    ensures OwnsNothing(q)
  {
    AdminIff(s, i, q);
  }

  lemma CheckedIff(s: State, i: Pid, q: Proc)
    requires q.PoolChecked? || q.PoolWriting?
    ensures ProcOk(s, i, q) <==>
            && HoldsLock(OfficeOf(s), i, q.spec.key) && i in s.readers
            && forall h | h in q.spec.hosts :: h in s.db.hosts
    ensures OwnsNothing(q)
  {
    AdminIff(s, i, q);
  }

  lemma WrittenIff(s: State, i: Pid, q: Proc)
    requires q.PoolStopping? || q.PoolStarting?
    ensures ProcOk(s, i, q) <==> HoldsLock(OfficeOf(s), i, q.spec.key) && q.spec.key in s.db.pools
    ensures OwnsNothing(q)
  {
    AdminIff(s, i, q);
  }

  ghost predicate Deletes(o: Office, i: Pid, k: PoolKey, spec: PoolSpec) {
    HoldsLock(o, i, k) && k in o.pools && spec.key == k
  }

  lemma DeletesShape(q: Proc)
    requires q.DelFound? || q.DelStopping? || q.DelRestart?
    ensures LockOf(q) == Some(q.key) && IsDeletingPool(q)
  {
  }

  lemma DeletesIff(s: State, i: Pid, q: Proc)
    requires q.DelFound? || q.DelStopping? || q.DelRestart?
    ensures ProcOk(s, i, q) <==> Deletes(OfficeOf(s), i, q.key, q.spec)
    ensures OwnsNothing(q)
  {
    hide ProcOk, OwnsNothing, LockOf, IsDeletingPool;
    DeletesShape(q);
    AdminIff(s, i, q);
  }

  lemma StoppedIff(s: State, i: Pid, q: Proc)
    requires q.DelStopped?
    ensures ProcOk(s, i, q) <==> Deletes(OfficeOf(s), i, q.key, q.spec) && q.key !in s.mgr.handles
    ensures OwnsNothing(q)
  {
    AdminIff(s, i, q);
  }

  lemma WaitingIff(s: State, i: Pid, q: Proc)
    requires q.DelWaiting?
    ensures ProcOk(s, i, q) <==> Deletes(OfficeOf(s), i, q.key, q.spec) && NoneAlive(s.mgr, q.key, q.rest)
    ensures OwnsNothing(q)
  {
    AdminIff(s, i, q);
  }

  lemma ReadyIff(s: State, i: Pid, q: Proc)
    requires q.DelReady?
    ensures ProcOk(s, i, q) <==> Deletes(OfficeOf(s), i, q.key, q.spec) && NoneAlive(s.mgr, q.key, {})
    ensures OwnsNothing(q)
  {
    AdminIff(s, i, q);
  }

  lemma LockHeld(s: State, i: Pid, p: Proc)
    requires ProcOk(s, i, p) && LockOf(p).Some?
    ensures HoldsLock(OfficeOf(s), i, LockOf(p).value)
  {
  }

  lemma AdminOwnsNothing(p: Proc)
    requires LockOf(p).Some? || p.PoolStart? || p.DelStart?
    ensures OwnsNothing(p)
  {
  }

  lemma AdminReturns(s: State, i: Pid, p: Proc)
    requires Inv(s) && IsAt(s, i, p) && LockOf(p).Some?
    ensures Inv(Apply(s, i, Unlocks(LockOf(p).value)))
  {
    Here(s, i);
    LockHeld(s, i, p);
    AdminOwnsNothing(p);
    NothingReleased(FleetOf(s), s.leaked, p, Done);
    UnlockKeeps(s, i, LockOf(p).value);
  }

  lemma AdminLocks(s: State, i: Pid, p: Proc, q: Proc, k: PoolKey)
    requires Inv(s) && IsAt(s, i, p) && (p.PoolStart? || p.DelStart?)
    requires (q.PoolLocked? || q.DelLocked?) && LockOf(q) == Some(k) && k !in s.locks
    ensures Inv(Apply(s, i, Locks(q, k)))
  {
    LockedIff(Lock(s, i, q, k), i, q, k);
    AdminOwnsNothing(p);
    NothingReleased(FleetOf(s), s.leaked, p, q);
    LockKeeps(s, i, q, k);
  }

  // ---- CreatePool and UpdatePool ----

  lemma KeepsPoolStart(s: State, i: Pid, p: Proc)
    requires Inv(s) && IsAt(s, i, p) && p.PoolStart?
    ensures Inv(Apply(s, i, PlanPoolStart(s, p)))
  {
    if p.spec.key !in s.locks {
      AdminLocks(s, i, p, PoolLocked(p.create, p.spec), p.spec.key);
    }
  }

  lemma HostsCheckedOk(s: State, i: Pid, p: Proc, q: Proc)
    requires p.PoolLocked? && q == PoolChecked(p.create, p.spec) && AtPoint(s, i, p) && p.spec.hosts <= s.db.hosts.Keys
    ensures ProcOk(Read(s, i, q), i, q) && Releases(FleetOf(s), s.leaked, p, q)
  {
    Here(s, i);
    LockedIff(s, i, p, p.spec.key);
    CheckedIff(Read(s, i, q), i, q);
    NothingReleased(FleetOf(s), s.leaked, p, q);
  }

  lemma HostsChecked(s: State, i: Pid, p: Proc, q: Proc)
    requires Inv(s) && IsAt(s, i, p) && p.PoolLocked? && q == PoolChecked(p.create, p.spec)
    requires p.spec.hosts <= s.db.hosts.Keys
    ensures Inv(Apply(s, i, Reads(q)))
  {
    HostsCheckedOk(s, i, p, q);
    ReadKeeps(s, i, q);
  }

  lemma KeepsPoolLocked(s: State, i: Pid, p: Proc, c: Choice)
    requires Inv(s) && IsAt(s, i, p) && p.PoolLocked?
    ensures Inv(Apply(s, i, PlanPoolLocked(s, p, c)))
  {
    hide Inv, Apply;
    if c.ok && p.spec.hosts <= s.db.hosts.Keys {
      HostsChecked(s, i, p, PoolChecked(p.create, p.spec));
    } else {
      AdminReturns(s, i, p);
    }
  }

  lemma PoolCheckedOk(s: State, i: Pid, p: Proc, q: Proc)
    requires p.PoolChecked? && q == PoolWriting(p.create, p.spec) && AtPoint(s, i, p)
    ensures ProcOk(s, i, q) && Releases(FleetOf(s), s.leaked, p, q)
  {
    Here(s, i);
    CheckedIff(s, i, p);
    CheckedIff(s, i, q);
    NothingReleased(FleetOf(s), s.leaked, p, q);
  }

  lemma KeepsPoolChecked(s: State, i: Pid, p: Proc, c: Choice)
    requires Inv(s) && IsAt(s, i, p) && p.PoolChecked?
    ensures Inv(Apply(s, i, PlanPoolChecked(s, p, c)))
  {
    if c.ok && (p.create <==> p.spec.key !in s.db.pools) {
      PoolCheckedOk(s, i, p, PoolWriting(p.create, p.spec));
      ToKeeps(s, i, PoolWriting(p.create, p.spec));
    } else {
      AdminReturns(s, i, p);
    }
  }

  lemma PoolWrittenOk(s: State, i: Pid, p: Proc, q: Proc)
    requires p.PoolWriting? && AtPoint(s, i, p) && (q == PoolStarting(p.spec) || q == PoolStopping(p.spec))
    ensures ProcOk(WritePool(s, i, q, p.spec), i, q) && Releases(FleetOf(s), s.leaked, p, q)
    ensures forall h | h in p.spec.hosts :: h in s.db.hosts
  {
    Here(s, i);
    CheckedIff(s, i, p);
    WrittenIff(WritePool(s, i, q, p.spec), i, q);
    NothingReleased(FleetOf(s), s.leaked, p, q);
  }

  lemma PoolWritten(s: State, i: Pid, p: Proc, q: Proc)
    requires Inv(s) && IsAt(s, i, p) && p.PoolWriting?
    requires q == PoolStarting(p.spec) || q == PoolStopping(p.spec)
    ensures Inv(Apply(s, i, WritesPool(q, p.spec)))
  {
    PoolWrittenOk(s, i, p, q);
    WritePoolKeeps(s, i, q, p.spec);
  }

  lemma KeepsPoolWriting(s: State, i: Pid, p: Proc, c: Choice)
    requires Inv(s) && IsAt(s, i, p) && p.PoolWriting?
    ensures Inv(Apply(s, i, PlanPoolWriting(s, p, c)))
  {
    hide Inv, Apply;
    if !c.ok || (p.create <==> p.spec.key in s.db.pools) {
      AdminReturns(s, i, p);
    } else {
      PoolWritten(s, i, p, if p.create then PoolStarting(p.spec) else PoolStopping(p.spec));
    }
  }

  lemma PoolForgottenOk(s: State, i: Pid, p: Proc, q: Proc)
    requires p.PoolStopping? && q == PoolStarting(p.spec) && AtPoint(s, i, p)
    ensures ProcOk(Manage(s, i, q, Forget(s.mgr, p.spec.key)), i, q) && Releases(FleetOf(s), s.leaked, p, q)
  {
    Here(s, i);
    WrittenIff(s, i, p);
    WrittenIff(Manage(s, i, q, Forget(s.mgr, p.spec.key)), i, q);
    NothingReleased(FleetOf(s), s.leaked, p, q);
  }

  lemma KeepsPoolStopping(s: State, i: Pid, p: Proc)
    requires Inv(s) && IsAt(s, i, p) && p.PoolStopping?
    ensures Inv(Apply(s, i, PlanPoolStopping(s, p)))
  {
    PoolForgottenOk(s, i, p, PoolStarting(p.spec));
    ForgetKeeps(s, i, PoolStarting(p.spec), p.spec.key);
  }

  lemma StartingFacts(s: State, i: Pid, p: Proc)
    requires (p.PoolStarting? || p.DelRestart?) && AtPoint(s, i, p)
    ensures p.spec.key in s.db.pools && HoldsLock(OfficeOf(s), i, p.spec.key)
    ensures Releases(FleetOf(s), s.leaked, p, Done)
  {
    Here(s, i);
    if p.PoolStarting? {
      WrittenIff(s, i, p);
    } else {
      DeletesIff(s, i, p);
    }
    NothingReleased(FleetOf(s), s.leaked, p, Done);
  }

  lemma KeepsStartAndUnlock(s: State, i: Pid, p: Proc, c: Choice)
    requires Inv(s) && IsAt(s, i, p) && (p.PoolStarting? || p.DelRestart?)
    ensures Inv(Apply(s, i, PlanStart(s, p.spec, c)))
  {
    StartingFacts(s, i, p);
    if !c.ok || p.spec.key in s.mgr.handles {
      UnlockKeeps(s, i, p.spec.key);
    } else if c.pick !in s.mgr.recons {
      StartAndUnlockKeeps(s, i, c.pick, p.spec);
    }
  }

  // ---- DeletePool ----

  lemma KeepsDelStart(s: State, i: Pid, p: Proc)
    requires Inv(s) && IsAt(s, i, p) && p.DelStart?
    ensures Inv(Apply(s, i, PlanDelStart(s, p)))
  {
    hide Inv, RemovePool, Forget, Commit, StartRecon;
    if p.key !in s.locks {
      AdminLocks(s, i, p, DelLocked(p.key, p.force), p.key);
    }
  }

  lemma FoundOk(s: State, i: Pid, p: Proc)
    requires p.DelLocked? && AtPoint(s, i, p) && p.key in s.db.pools && TombstonesOk(s.db.pools, s.db.vms, s.db.leases)
    ensures ProcOk(s, i, DelFound(p.key, p.force, s.db.pools[p.key]))
    ensures Releases(FleetOf(s), s.leaked, p, DelFound(p.key, p.force, s.db.pools[p.key]))
  {
    Here(s, i);
    LockedIff(s, i, p, p.key);
    DeletesIff(s, i, DelFound(p.key, p.force, s.db.pools[p.key]));
    NothingReleased(FleetOf(s), s.leaked, p, DelFound(p.key, p.force, s.db.pools[p.key]));
  }

  lemma KeepsDelLocked(s: State, i: Pid, p: Proc, c: Choice)
    requires Inv(s) && IsAt(s, i, p) && p.DelLocked?
    ensures Inv(Apply(s, i, PlanDelLocked(s, p, c)))
  {
    hide AtPoint, ProcsOk, ProcOk, Covered, Apply, RowsOk, LeasesOk, Releases;
    if !c.ok || p.key !in s.db.pools {
      AdminReturns(s, i, p);
    } else {
      FoundOk(s, i, p);
      ToKeeps(s, i, DelFound(p.key, p.force, s.db.pools[p.key]));
    }
  }

  /** DeletePool goes on to a point that needs no more than it has. */
  lemma DeletingOk(s: State, i: Pid, p: Proc, q: Proc)
    requires AtPoint(s, i, p) && (p.DelFound? || p.DelWaiting? || p.DelReady?)
    requires (q.DelStopping? || q.DelRestart?) && q.key == p.key && q.spec == p.spec
    ensures ProcOk(s, i, q) && Releases(FleetOf(s), s.leaked, p, q)
  {
    Here(s, i);
    DeletesIff(s, i, q);
    if p.DelFound? {
      DeletesIff(s, i, p);
    } else if p.DelWaiting? {
      WaitingIff(s, i, p);
    } else {
      ReadyIff(s, i, p);
    }
    NothingReleased(FleetOf(s), s.leaked, p, q);
  }

  lemma KeepsDelFound(s: State, i: Pid, p: Proc, c: Choice)
    requires Inv(s) && IsAt(s, i, p) && p.DelFound?
    ensures Inv(Apply(s, i, PlanDelFound(s, p, c)))
  {
    hide AtPoint, ProcsOk, ProcOk, Covered, Apply, PoolHasLeasedVms, Base, Releases;
    if !p.force && (!c.ok || PoolHasLeasedVms(s.db, p.key)) {
      AdminReturns(s, i, p);
    } else {
      DeletingOk(s, i, p, DelStopping(p.key, p.force, p.spec));
      ToKeeps(s, i, DelStopping(p.key, p.force, p.spec));
    }
  }

  lemma DelForgottenOk(s: State, i: Pid, p: Proc, q: Proc)
    requires p.DelStopping? && q == DelStopped(p.key, p.force, p.spec) && AtPoint(s, i, p)
    ensures ProcOk(Manage(s, i, q, Forget(s.mgr, p.key)), i, q) && Releases(FleetOf(s), s.leaked, p, q)
  {
    Here(s, i);
    DeletesIff(s, i, p);
    StoppedIff(Manage(s, i, q, Forget(s.mgr, p.key)), i, q);
    NothingReleased(FleetOf(s), s.leaked, p, q);
  }

  lemma KeepsDelStopping(s: State, i: Pid, p: Proc)
    requires Inv(s) && IsAt(s, i, p) && p.DelStopping?
    ensures Inv(Apply(s, i, PlanDelStopping(s, p)))
  {
    DelForgottenOk(s, i, p, DelStopped(p.key, p.force, p.spec));
    ForgetKeeps(s, i, DelStopped(p.key, p.force, p.spec), p.key);
  }

  /** With no handle, every reconciler of the pool still running is in exiting. */
  lemma ExitingCoversAll(m: Mgr, pools: map<PoolKey, PoolSpec>, k: PoolKey)
    requires ManagerOk(m, pools) && k !in m.handles
    ensures NoneAlive(m, k, ExitingOf(m, k))
  {
    forall r | Alive(m, r) && m.recons[r].spec.key == k ensures r in ExitingOf(m, k) {
      assert Tracked(m, r);
    }
  }

  lemma StoppedOk(s: State, i: Pid, p: Proc, q: Proc)
    requires p.DelStopped? && q == DelWaiting(p.key, p.force, p.spec, ExitingOf(s.mgr, p.key)) && AtPoint(s, i, p)
    requires ManagerOk(s.mgr, s.db.pools)
    ensures ProcOk(s, i, q) && Releases(FleetOf(s), s.leaked, p, q)
  {
    Here(s, i);
    StoppedIff(s, i, p);
    ExitingCoversAll(s.mgr, s.db.pools, p.key);
    WaitingIff(s, i, q);
    NothingReleased(FleetOf(s), s.leaked, p, q);
  }

  lemma KeepsDelStopped(s: State, i: Pid, p: Proc)
    requires Inv(s) && IsAt(s, i, p) && p.DelStopped?
    ensures Inv(Apply(s, i, PlanDelStopped(s, p)))
  {
    var q := DelWaiting(p.key, p.force, p.spec, ExitingOf(s.mgr, p.key));
    StoppedOk(s, i, p, q);
    ToKeeps(s, i, q);
  }

  lemma WaitedOk(s: State, i: Pid, p: Proc, q: Proc)
    requires p.DelWaiting? && p.rest == {} && q == DelReady(p.key, p.force, p.spec) && AtPoint(s, i, p)
    ensures ProcOk(s, i, q) && Releases(FleetOf(s), s.leaked, p, q)
  {
    Here(s, i);
    WaitingIff(s, i, p);
    ReadyIff(s, i, q);
    NothingReleased(FleetOf(s), s.leaked, p, q);
  }

  /** Receiving from a done channel leaves only running reconcilers to wait for. */
  lemma ReceivedOk(s: State, i: Pid, p: Proc, q: Proc, r: Rid)
    requires p.DelWaiting? && !Alive(s.mgr, r) && q == DelWaiting(p.key, p.force, p.spec, p.rest - {r})
    requires AtPoint(s, i, p)
    ensures ProcOk(s, i, q) && Releases(FleetOf(s), s.leaked, p, q)
  {
    Here(s, i);
    WaitingIff(s, i, p);
    WaitingIff(s, i, q);
    NothingReleased(FleetOf(s), s.leaked, p, q);
  }

  lemma KeepsDelWaiting(s: State, i: Pid, p: Proc, c: Choice)
    requires Inv(s) && IsAt(s, i, p) && p.DelWaiting?
    ensures Inv(Apply(s, i, PlanDelWaiting(s, p, c)))
  {
    if p.rest == {} {
      Waited(s, i, p, DelReady(p.key, p.force, p.spec));
    } else if !c.ok {
      GaveUp(s, i, p, DelRestart(p.key, p.spec));
    } else if c.pick in p.rest && !Alive(s.mgr, c.pick) {
      Received(s, i, p, DelWaiting(p.key, p.force, p.spec, p.rest - {c.pick}), c.pick);
    }
  }

  lemma Waited(s: State, i: Pid, p: Proc, q: Proc)
    requires Inv(s) && IsAt(s, i, p) && p.DelWaiting?
    requires p.rest == {} && q == DelReady(p.key, p.force, p.spec)
    ensures Inv(Apply(s, i, Moves(q)))
  {
    WaitedOk(s, i, p, q);
    ToKeeps(s, i, q);
  }

  lemma Received(s: State, i: Pid, p: Proc, q: Proc, r: Rid)
    requires Inv(s) && IsAt(s, i, p) && p.DelWaiting?
    requires !Alive(s.mgr, r) && q == DelWaiting(p.key, p.force, p.spec, p.rest - {r})
    ensures Inv(Apply(s, i, Moves(q)))
  {
    ReceivedOk(s, i, p, q, r);
    ToKeeps(s, i, q);
  }

  /** The caller gave up waiting, or the transaction failed: the reconciler is started again. */
  lemma GaveUp(s: State, i: Pid, p: Proc, q: Proc)
    requires Inv(s) && IsAt(s, i, p) && (p.DelWaiting? || p.DelReady?)
    requires q == DelRestart(p.key, p.spec)
    ensures Inv(Apply(s, i, Moves(q)))
  {
    DeletingOk(s, i, p, q);
    ToKeeps(s, i, q);
  }

  lemma RemovedOk(s: State, i: Pid, p: Proc, q: Proc)
    requires p.DelReady? && q.DelEvents? && q.key == p.key && AtPoint(s, i, p)
    ensures NoneAlive(s.mgr, p.key, {}) && HoldsLock(OfficeOf(s), i, p.key)
    ensures ProcOk(RemovePool(s, i, q, p.key), i, q)
    ensures Releases(FleetOf(RemovePool(s, i, q, p.key)), s.leaked, p, q)
  {
    Here(s, i);
    ReadyIff(s, i, p);
    LockedIff(RemovePool(s, i, q, p.key), i, q, p.key);
    NothingReleased(FleetOf(RemovePool(s, i, q, p.key)), s.leaked, p, q);
  }

  lemma PoolRemoved(s: State, i: Pid, p: Proc, q: Proc)
    requires Inv(s) && IsAt(s, i, p) && p.DelReady? && q.DelEvents? && q.key == p.key
    ensures Inv(Apply(s, i, RemovesPool(q, p.key)))
  {
    RemovedOk(s, i, p, q);
    RemovePoolKeeps(s, i, q, p.key);
  }

  lemma KeepsDelReady(s: State, i: Pid, p: Proc, c: Choice)
    requires Inv(s) && IsAt(s, i, p) && p.DelReady?
    ensures Inv(Apply(s, i, PlanDelReady(s, p, c)))
  {
    hide Inv, Apply, CanDeletePool;
    if c.ok && p.key !in s.db.pools {
      AdminReturns(s, i, p);
    } else if !c.ok || !CanDeletePool(s.db, p.key, p.force) {
      GaveUp(s, i, p, DelRestart(p.key, p.spec));
    } else {
      PoolRemoved(s, i, p, DelEvents(p.key, VmsOfPool(s.db, p.key).Keys));
    }
  }

  lemma EventsOk(s: State, s': State, i: Pid, p: Proc, q: Proc)
    requires p.DelEvents? && q.DelEvents? && q.key == p.key && AtPoint(s, i, p) && OfficeOf(s') == OfficeOf(s)
    ensures ProcOk(s', i, q) && Releases(FleetOf(s), s.leaked, p, q)
  {
    Here(s, i);
    LockedIff(s, i, p, p.key);
    LockedIff(s', i, q, p.key);
    NothingReleased(FleetOf(s), s.leaked, p, q);
  }

  lemma EventRecorded(s: State, i: Pid, p: Proc, q: Proc, e: Event)
    requires Inv(s) && IsAt(s, i, p) && p.DelEvents? && q.DelEvents? && q.key == p.key
    ensures Inv(Apply(s, i, Moves(q))) && Inv(Apply(s, i, Records(q, e)))
  {
    ApplyMoves(s, i, q);
    ApplyRecords(s, i, q, e);
    EventsOk(s, s, i, p, q);
    EventsOk(s, Record(s, i, q, e), i, p, q);
    ToKeeps(s, i, q);
    QuietKeeps(s, Record(s, i, q, e), i, q);
  }

  lemma KeepsDelEvents(s: State, i: Pid, p: Proc, c: Choice)
    requires Inv(s) && IsAt(s, i, p) && p.DelEvents?
    ensures Inv(Apply(s, i, PlanDelEvents(s, p, c)))
  {
    hide Inv, RemovePool, Forget, Commit, StartRecon;
    if p.owed == {} {
      AdminReturns(s, i, p);
    } else if c.pick in p.owed {
      EventRecorded(s, i, p, DelEvents(p.key, p.owed - {c.pick}), Event(p.key, c.pick, VmDeletedOnPoolDelete));
    }
  }

  // ---- reconcilers ----

  /** A new Provision call runs under the reconciler that started it. */
  lemma KeepsReconSpawn(s: State, r: Rid, i: Pid, loop: Loop)
    requires Inv(s) && Alive(s.mgr, r) && i !in s.procs
    ensures Inv(s.(mgr := SetLoop(s.mgr, r, loop), procs := s.procs[i := ProvStart(r, s.mgr.recons[r].spec)]))
  {
    var s1 := s.(mgr := SetLoop(s.mgr, r, loop));
    SetLoopKeeps(s, r, loop);
    ProvStartIff(s1, i, r, s.mgr.recons[r].spec);
    Joins(s1, i, ProvStart(r, s.mgr.recons[r].spec));
  }

  lemma KeepsSpawn(s: State, r: Rid, i: Pid)
    requires Inv(s)
    ensures Inv(SpawnProvision(s, r, i))
  {
    if CanSpawn(s, r, i) { KeepsReconSpawn(s, r, i, Spawning(s.mgr.recons[r].loop.n - 1)); }
  }

  /** At most the loop of reconciler r differs. */
  ghost predicate OnlyLoop(m: Mgr, m': Mgr, r: Rid) {
    m' == m || (r in m.recons && r in m'.recons && m' == SetLoop(m, r, m'.recons[r].loop))
  }

  lemma OnlyLoopKeeps(s: State, m: Mgr, r: Rid)
    requires Inv(s) && OnlyLoop(s.mgr, m, r)
    ensures Inv(s.(mgr := m))
  {
    if m == s.mgr {
      assert s.(mgr := m) == s;
    } else {
      SetLoopKeeps(s, r, m.recons[r].loop);
    }
  }

  lemma ListRowsIs(s: State, r: Rid, hook: Hook)
    ensures OnlyLoop(s.mgr, ListRows(s, r, hook), r)
  {
  }

  lemma KeepsListRows(s: State, r: Rid, hook: Hook)
    requires Inv(s)
    ensures Inv(s.(mgr := ListRows(s, r, hook)))
  {
    hide *;
    ListRowsIs(s, r, hook);
    OnlyLoopKeeps(s, ListRows(s, r, hook), r);
  }

  lemma CountRowsIs(s: State, r: Rid)
    ensures OnlyLoop(s.mgr, CountRows(s, r), r)
  {
  }

  lemma KeepsCountRows(s: State, r: Rid)
    requires Inv(s)
    ensures Inv(s.(mgr := CountRows(s, r)))
  {
    hide *;
    CountRowsIs(s, r);
    OnlyLoopKeeps(s, CountRows(s, r), r);
  }

  lemma CapStaticIs(s: State, r: Rid)
    ensures OnlyLoop(s.mgr, CapStatic(s, r), r)
  {
  }

  lemma KeepsCapStatic(s: State, r: Rid)
    requires Inv(s)
    ensures Inv(s.(mgr := CapStatic(s, r)))
  {
    hide *;
    CapStaticIs(s, r);
    OnlyLoopKeeps(s, CapStatic(s, r), r);
  }

  lemma RestLoopIs(s: State, r: Rid)
    ensures OnlyLoop(s.mgr, RestLoop(s, r), r)
  {
  }

  lemma KeepsRestLoop(s: State, r: Rid)
    requires Inv(s)
    ensures Inv(s.(mgr := RestLoop(s, r)))
  {
    hide *;
    RestLoopIs(s, r);
    OnlyLoopKeeps(s, RestLoop(s, r), r);
  }

  lemma KeepsExitLoop(s: State, r: Rid)
    requires Inv(s)
    ensures Inv(s.(mgr := ExitLoop(s, r)))
  {
    if Alive(s.mgr, r) && !Busy(s, r) { ExitKeeps(s, r); }
  }

  lemma KeepsLeaveLoop(s: State, r: Rid)
    requires Inv(s)
    ensures Inv(s.(mgr := LeaveLoop(s.mgr, r)))
  {
    if r in s.mgr.recons && s.mgr.recons[r].done {
      assert LeaveLoop(s.mgr, r) == Leave(s.mgr, r);
      LeaveKeeps(s, r);
    } else {
      assert s.(mgr := LeaveLoop(s.mgr, r)) == s;
    }
  }

  lemma KeepsSeed(s: State, k: PoolKey, r: Rid)
    requires Inv(s)
    ensures Inv(s.(mgr := SeedPool(s, k, r)))
  {
    if k in s.db.pools && k !in s.locks && k !in s.mgr.handles && r !in s.mgr.recons {
      assert SeedPool(s, k, r) == StartRecon(s.mgr, r, s.db.pools[k]);
      SeedKeeps(s, k, r);
    } else {
      assert s.(mgr := SeedPool(s, k, r)) == s;
    }
  }

  lemma KeepsSweep(s: State, i: Pid, u: Uid, finish: bool)
    requires Inv(s) && i !in s.procs && u in s.db.vms
    ensures Inv(To(s, i, Asking(SweepJob(finish), s.db.vms[u])))
  {
    var q := Asking(SweepJob(finish), s.db.vms[u]);
    assert RowOk(FleetOf(s), u);
    SweepOk(s, i, q);
    Joins(s, i, q);
  }

  lemma SweepOk(s: State, i: Pid, q: Proc)
    requires q.Asking? && q.job.SweepJob? && Known(FleetOf(s), q.vm)
    ensures ProcOk(s, i, q)
  {
  }

  lemma KeepsDrain(s: State, h: HostName, reason: Option<string>, now: Time)
    requires Inv(s) && h in s.db.hosts
    ensures Inv(s.(db := DrainHost(s.db, h, reason, now)))
  {
    var s1 := s.(db := PutHost(s.db, h, Drained(s.db.hosts[h], reason, now)));
    PutHostKeeps(s, h, Drained(s.db.hosts[h], reason, now));
    MarkKeeps(s1, {h});
  }

  lemma CordonedRow(db: Db, y: Yard, h: HostName, cordoned: bool, reason: Option<string>, now: Time)
    requires HostsOk(db.hosts, db.pools, db.vms, y) && h in db.hosts
    ensures
      var row := Cordon(db.hosts[h], cordoned, reason, now);
      (row.draining ==> row.cordoned) && CordonHost(db, h, cordoned, reason, now) == PutHost(db, h, row)
  {
  }

  lemma KeepsCordon(s: State, h: HostName, cordoned: bool, reason: Option<string>, now: Time)
    requires Inv(s)
    ensures Inv(s.(db := CordonHost(s.db, h, cordoned, reason, now)))
  {
    if h in s.db.hosts {
      CordonedRow(s.db, YardOf(s), h, cordoned, reason, now);
      PutHostKeeps(s, h, Cordon(s.db.hosts[h], cordoned, reason, now));
    } else {
      assert s.(db := CordonHost(s.db, h, cordoned, reason, now)) == s;
    }
  }

  lemma KeepsStartDrain(s: State, h: HostName, reason: Option<string>, now: Time)
    requires Inv(s)
    ensures Inv(s.(db := StartDrain(s.db, h, reason, now)))
  {
    if h in s.db.hosts {
      KeepsDrain(s, h, reason, now);
    } else {
      assert s.(db := StartDrain(s.db, h, reason, now)) == s;
    }
  }

  lemma KeepsRegister(s: State, h: HostName)
    requires Inv(s)
    ensures Inv(s.(db := RegisterHost(s.db, h)))
  {
    if h !in s.db.hosts {
      PutHostKeeps(s, h, Host(false, None, None, false, None));
    } else {
      assert s.(db := RegisterHost(s.db, h)) == s;
    }
  }

  lemma KeepsUnregister(s: State, h: HostName)
    requires Inv(s)
    ensures Inv(s.(db := UnregisterHost(s, h)))
  {
    if s.readers == {} && CanDeleteHost(s.db, h) {
      RemoveHostKeeps(s, h);
    } else {
      assert s.(db := UnregisterHost(s, h)) == s;
    }
  }
}
