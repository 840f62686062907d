/** Reservations, microVMs, pools, hosts, locks and reconcilers: each change keeps the invariant. */
module AdminEffects {
  import opened Records
  import opened Transactions
  import opened Protocol
  import opened Invariant
  import opened Stability
  import opened Effects

  // ---- reservations ----

  lemma YardChangeKeeps(s: State, s': State, i: Pid, q: Proc)
    requires Inv(s) && ProcOk(s', i, q) && s'.procs == s.procs[i := q]
    requires FleetOf(s') == FleetOf(s) && BookOf(s') == BookOf(s) && OfficeOf(s') == OfficeOf(s)
    requires s'.leaked == s.leaked
    requires HostsOk(s'.db.hosts, s'.db.pools, s'.db.vms, YardOf(s'))
    requires forall j | j != i :: YardKept(YardOf(s), YardOf(s'), j)
    requires LetsGo(s, i, FleetOf(s), s.leaked, q)
    ensures Inv(s')
  {
    MoveCovers(FleetOf(s), s.leaked, s.procs, i, q);
    forall j | j in s'.procs ensures ProcOk(s', j, s'.procs[j]) {
      if j != i {
        Here(s, j);
        YardSideKept(YardOf(s), YardOf(s'), j, s.procs[j]);
      }
    }
  }

  lemma PlaceKeeps(s: State, i: Pid, q: Proc, pl: PlacementId, row: Placement)
    requires Inv(s) && pl !in s.placed && row.host in s.db.hosts && ProcOk(Place(s, i, q, pl, row), i, q)
    requires LetsGo(s, i, FleetOf(s), s.leaked, q)
    ensures Inv(Apply(s, i, Reserves(q, pl, row)))
  {
    ApplyReserves(s, i, q, pl, row);
    PlaceYard(YardOf(s), i, pl, row);
    PlaceHosts(s.db, YardOf(s), i, pl, row);
    YardChangeKeeps(s, Place(s, i, q, pl, row), i, q);
  }

  function WithPlacement(y: Yard, i: Pid, pl: PlacementId, row: Placement): Yard {
    Yard(y.placements[pl := row], y.placed[pl := i])
  }

  lemma PlaceYard(y: Yard, i: Pid, pl: PlacementId, row: Placement)
    requires pl !in y.placed
    ensures forall j | j != i :: YardKept(y, WithPlacement(y, i, pl, row), j)
  {
  }

  lemma PlaceHosts(db: Db, y: Yard, i: Pid, pl: PlacementId, row: Placement)
    requires HostsOk(db.hosts, db.pools, db.vms, y) && row.host in db.hosts
    ensures HostsOk(db.hosts, db.pools, db.vms, WithPlacement(y, i, pl, row))
  {
  }

  lemma UnplaceKeeps(s: State, i: Pid, q: Proc, pl: PlacementId)
    requires Inv(s) && pl in s.placed && s.placed[pl] == i && ProcOk(Unplace(s, i, q, pl), i, q)
    requires LetsGo(s, i, FleetOf(s), s.leaked, q)
    ensures Inv(Apply(s, i, Frees(q, pl)))
  {
    hide LetsGo, ProcOk, Covered, ProcsOk, Apply, RowsOk, LeasesOk, MintsOk, ManagerOk, TombstonesOk, BornOk, GivenOk,
      RequestsOk;
    ApplyFrees(s, i, q, pl);
    YardChangeKeeps(s, Unplace(s, i, q, pl), i, q);
  }

  // ---- microVMs ----

  lemma BornKeeps(s: State, i: Pid, q: Proc, u: Uid, b: Birth, lost: bool)
    requires Inv(s) && u !in s.births && b.maker == i && ProcOk(Born(s, i, q, u, b, lost), i, q)
    requires lost || Owns(Unrecorded(q), u)
    requires LetsGo(s, i, FleetOf(Born(s, i, q, u, b, lost)), s.leaked, q)
    ensures Inv(Apply(s, i, Bears(q, u, b.pool, b.host, lost)))
  {
    ApplyBears(s, i, q, u, b.pool, b.host, lost);
    var s' := Born(s, i, q, u, b, lost);
    BornBase(s, i, q, u, b, lost);
    BornFleetKept(FleetOf(s), u, b);
    BornAdopts(FleetOf(s), s.leaked, s.procs, i, q, u, b, lost);
    FleetChangeKeeps(s, s', i, q);
  }

  function WithBirth(f: Fleet, u: Uid, b: Birth): Fleet {
    f.(live := f.live[u := b.host], births := f.births[u := b])
  }

  lemma BornFleetKept(f: Fleet, u: Uid, b: Birth)
    requires u !in f.births
    ensures forall j :: FleetKept(f, WithBirth(f, u, b), j)
  {
  }

  lemma BornBase(s: State, i: Pid, q: Proc, u: Uid, b: Birth, lost: bool)
    requires Base(s) && u !in s.births
    ensures Base(Born(s, i, q, u, b, lost))
  {
    var s' := Born(s, i, q, u, b, lost);
    var f := FleetOf(s);
    assert FleetOf(s') == WithBirth(f, u, b);
    assert RowsOk(FleetOf(s')) by {
      forall w | w in s'.db.vms ensures RowOk(FleetOf(s'), w) {
        assert RowOk(f, w);
      }
    }
    assert MintsOk(FleetOf(s'), BookOf(s')) by {
      forall l | l in s'.minted ensures MintOk(FleetOf(s'), s'.minted[l], l) {
        assert MintOk(f, s.minted[l], l);
      }
    }
  }

  lemma BornAdopts(f: Fleet, leaked: set<Uid>, procs: map<Pid, Proc>, i: Pid, q: Proc, u: Uid, b: Birth, lost: bool)
    requires AllCovered(f, leaked, procs) && RowsOk(f) && BornOk(f) && u !in f.births && b.maker == i
    requires lost || Owns(Unrecorded(q), u)
    ensures Adopts(f, leaked, WithBirth(f, u, b), if lost then leaked + {u} else leaked, i, q)
  {
    assert forall w | w in f.vms :: RowOk(f, w);
  }

  /** A microVM goes, a leak is recorded, or a VM is recorded as stranded. */
  lemma FewerOwedKeeps(s: State, s': State, i: Pid, q: Proc)
    requires Inv(s) && ProcOk(s', i, q)
    requires s' == s.(live := s'.live, leaked := s'.leaked, stranded := s'.stranded, procs := s.procs[i := q])
    requires (forall u | u in s'.live :: u in s.live && s'.live[u] == s.live[u]) && s.leaked <= s'.leaked
    requires s.stranded <= s'.stranded
    requires LetsGo(s, i, FleetOf(s'), s'.leaked, q)
    ensures Inv(s')
  {
    var f, f' := FleetOf(s), FleetOf(s');
    assert RowsOk(f') by {
      forall w | w in s'.db.vms ensures RowOk(f', w) {
        assert RowOk(f, w);
      }
    }
    assert MintsOk(f', BookOf(s')) by {
      forall l | l in s'.minted ensures MintOk(f', s'.minted[l], l) {
        assert MintOk(f, s.minted[l], l);
      }
    }
    assert Base(s');
    FewerFleetKept(f, f');
    FewerAdopts(f, s.leaked, f', s'.leaked, s.procs, i, q);
    FleetChangeKeeps(s, s', i, q);
  }

  ghost predicate Fewer(f: Fleet, f': Fleet) {
    && f' == f.(live := f'.live, stranded := f'.stranded)
    && (forall u | u in f'.live :: u in f.live && f'.live[u] == f.live[u]) && f.stranded <= f'.stranded
  }

  lemma FewerFleetKept(f: Fleet, f': Fleet)
    requires Fewer(f, f')
    ensures forall j :: FleetKept(f, f', j)
  {
  }

  lemma FewerAdopts(f: Fleet, leaked: set<Uid>, f': Fleet, leaked': set<Uid>, procs: map<Pid, Proc>, i: Pid, q: Proc)
    requires AllCovered(f, leaked, procs) && Fewer(f, f') && leaked <= leaked'
    ensures Adopts(f, leaked, f', leaked', i, q)
  {
  }

  lemma KillKeeps(s: State, i: Pid, q: Proc, u: Uid)
    requires Inv(s) && ProcOk(Kill(s, i, q, u), i, q)
    requires LetsGo(s, i, FleetOf(Kill(s, i, q, u)), s.leaked, q)
    ensures Inv(Apply(s, i, Kills(q, u)))
  {
    ApplyKills(s, i, q, u);
    FewerOwedKeeps(s, Kill(s, i, q, u), i, q);
  }

  lemma LoseKeeps(s: State, i: Pid, q: Proc, u: Uid)
    requires Inv(s) && ProcOk(Lose(s, i, q, u), i, q)
    requires LetsGo(s, i, FleetOf(s), s.leaked + {u}, q)
    ensures Inv(Apply(s, i, Loses(q, u)))
  {
    ApplyLoses(s, i, q, u);
    FewerOwedKeeps(s, Lose(s, i, q, u), i, q);
  }

  lemma ForsakeKeeps(s: State, i: Pid, q: Proc, u: Uid)
    requires Inv(s) && ProcOk(Forsake(s, i, q, u), i, q)
    requires LetsGo(s, i, FleetOf(Forsake(s, i, q, u)), s.leaked, q)
    ensures Inv(Apply(s, i, Forsakes(q, u)))
  {
    ApplyForsakes(s, i, q, u);
    FewerOwedKeeps(s, Forsake(s, i, q, u), i, q);
  }

  // ---- the office ----

  /** Whatever call j may rely on in o, it may rely on in o'. */
  ghost predicate OfficeKept(o: Office, o': Office, j: Pid) {
    forall p :: OfficeSideOk(o, j, p) ==> OfficeSideOk(o', j, p)
  }

  lemma OfficeChangeKeeps(s: State, s': State, i: Pid, q: Proc)
    requires Inv(s) && ProcOk(s', i, q) && s'.procs == s.procs[i := q]
    requires FleetOf(s') == FleetOf(s) && BookOf(s') == BookOf(s) && YardOf(s') == YardOf(s) && s'.leaked == s.leaked
    requires ManagerOk(s'.mgr, s'.db.pools) && TombstonesOk(s'.db.pools, s'.db.vms, s'.db.leases)
    requires HostsOk(s'.db.hosts, s'.db.pools, s'.db.vms, YardOf(s'))
    requires forall j | j != i :: OfficeKept(OfficeOf(s), OfficeOf(s'), j)
    requires LetsGo(s, i, FleetOf(s), s.leaked, q)
    ensures Inv(s')
  {
    MoveCovers(FleetOf(s), s.leaked, s.procs, i, q);
    forall j | j in s'.procs ensures ProcOk(s', j, s'.procs[j]) {
      if j != i {
        Here(s, j);
        OfficeSideKept(OfficeOf(s), OfficeOf(s'), j, s.procs[j]);
      }
    }
  }

  lemma OfficeSideKept(o: Office, o': Office, j: Pid, p: Proc)
    requires OfficeKept(o, o', j) && OfficeSideOk(o, j, p)
    ensures OfficeSideOk(o', j, p)
  {
  }

  lemma LockOffice(o: Office, i: Pid, k: PoolKey, j: Pid)
    requires k !in o.locks
    ensures OfficeKept(o, o.(locks := o.locks[k := i]), j)
  {
  }

  lemma LockKeeps(s: State, i: Pid, q: Proc, k: PoolKey)
    requires Inv(s) && k !in s.locks && ProcOk(Lock(s, i, q, k), i, q)
    requires LetsGo(s, i, FleetOf(s), s.leaked, q)
    ensures Inv(Apply(s, i, Locks(q, k)))
  {
    ApplyLocks(s, i, q, k);
    forall j | j != i ensures OfficeKept(OfficeOf(s), OfficeOf(Lock(s, i, q, k)), j) {
      LockOffice(OfficeOf(s), i, k, j);
    }
    OfficeChangeKeeps(s, Lock(s, i, q, k), i, q);
  }

  lemma UnlockOffice(o: Office, i: Pid, k: PoolKey, j: Pid)
    requires k in o.locks && o.locks[k] == i && j != i
    ensures OfficeKept(o, o.(locks := o.locks - {k}, readers := o.readers - {i}), j)
  {
  }

  lemma UnlockKeeps(s: State, i: Pid, k: PoolKey)
    requires Inv(s) && k in s.locks && s.locks[k] == i
    requires LetsGo(s, i, FleetOf(s), s.leaked, Done)
    ensures Inv(Apply(s, i, Unlocks(k)))
  {
    ApplyUnlocks(s, i, k);
    forall j | j != i ensures OfficeKept(OfficeOf(s), OfficeOf(Unlock(s, i, k)), j) {
      UnlockOffice(OfficeOf(s), i, k, j);
    }
    DoneOk(Unlock(s, i, k), i);
    OfficeChangeKeeps(s, Unlock(s, i, k), i, Done);
  }

  lemma ReadOffice(o: Office, i: Pid, j: Pid)
    ensures OfficeKept(o, o.(readers := o.readers + {i}), j)
  {
  }

  lemma ReadKeeps(s: State, i: Pid, q: Proc)
    requires Inv(s) && ProcOk(Read(s, i, q), i, q)
    requires LetsGo(s, i, FleetOf(s), s.leaked, q)
    ensures Inv(Apply(s, i, Reads(q)))
  {
    ApplyReads(s, i, q);
    forall j | j != i ensures OfficeKept(OfficeOf(s), OfficeOf(Read(s, i, q)), j) {
      ReadOffice(OfficeOf(s), i, j);
    }
    OfficeChangeKeeps(s, Read(s, i, q), i, q);
  }

  lemma WritePoolOffice(o: Office, spec: PoolSpec, j: Pid)
    ensures OfficeKept(o, o.(pools := o.pools[spec.key := spec]), j)
  {
  }

  lemma WritePoolKeeps(s: State, i: Pid, q: Proc, spec: PoolSpec)
    requires Inv(s) && ProcOk(WritePool(s, i, q, spec), i, q) && (forall h | h in spec.hosts :: h in s.db.hosts)
    requires LetsGo(s, i, FleetOf(s), s.leaked, q)
    ensures Inv(Apply(s, i, WritesPool(q, spec)))
  {
    hide ProcsOk, FleetSideOk, Covered, Apply, OfficeKept, OfficeSideOk, RowsOk, LeasesOk;
    ApplyWritesPool(s, i, q, spec);
    forall j | j != i ensures OfficeKept(OfficeOf(s), OfficeOf(WritePool(s, i, q, spec)), j) {
      WritePoolOffice(OfficeOf(s), spec, j);
    }
    OfficeChangeKeeps(s, WritePool(s, i, q, spec), i, q);
  }

  // ---- reconcilers ----

  lemma ForgetManager(m: Mgr, pools: map<PoolKey, PoolSpec>, k: PoolKey)
    requires ManagerOk(m, pools)
    ensures ManagerOk(Forget(m, k), pools) && k !in Forget(m, k).handles
    ensures forall r :: Alive(Forget(m, k), r) <==> Alive(m, r)
  {
    forall r | Alive(Forget(m, k), r) ensures Tracked(Forget(m, k), r) {
      assert Alive(m, r);
      assert Tracked(m, r);
    }
  }

  lemma ForgetOffice(o: Office, k: PoolKey, j: Pid)
    ensures OfficeKept(o, o.(mgr := Forget(o.mgr, k)), j)
  {
  }

  lemma ForgetKeeps(s: State, i: Pid, q: Proc, k: PoolKey)
    requires Inv(s) && ProcOk(Manage(s, i, q, Forget(s.mgr, k)), i, q)
    requires LetsGo(s, i, FleetOf(s), s.leaked, q)
    ensures Inv(Apply(s, i, Forgets(q, k)))
  {
    ApplyForgets(s, i, q, k);
    var s' := Manage(s, i, q, Forget(s.mgr, k));
    ForgetManager(s.mgr, s.db.pools, k);
    forall j | j != i ensures OfficeKept(OfficeOf(s), OfficeOf(s'), j) {
      ForgetOffice(OfficeOf(s), k, j);
    }
    OfficeChangeKeeps(s, s', i, q);
  }

  lemma StartManager(m: Mgr, pools: map<PoolKey, PoolSpec>, r: Rid, spec: PoolSpec)
    requires ManagerOk(m, pools) && r !in m.recons && spec.key !in m.handles && spec.key in pools
    ensures ManagerOk(StartRecon(m, r, spec), pools)
  {
    forall x | Alive(StartRecon(m, r, spec), x) ensures Tracked(StartRecon(m, r, spec), x) {
      if x != r {
        assert Alive(m, x);
        assert Tracked(m, x);
      }
    }
  }

  /** Only the holder of a pool's lock may rely on the pool having no running reconciler. */
  lemma StartOffice(o: Office, r: Rid, spec: PoolSpec, j: Pid)
    requires r !in o.mgr.recons && (spec.key in o.locks ==> o.locks[spec.key] != j)
    ensures OfficeKept(o, o.(mgr := StartRecon(o.mgr, r, spec)), j)
  {
    var o' := o.(mgr := StartRecon(o.mgr, r, spec));
    forall p | OfficeSideOk(o, j, p) ensures OfficeSideOk(o', j, p) {
      StartOfficeSide(o, r, spec, j, p);
    }
  }

  lemma StartBoss(m: Mgr, r: Rid, spec: PoolSpec, p: Proc)
    requires r !in m.recons && BossOk(m, p)
    ensures BossOk(StartRecon(m, r, spec), p)
  {
  }

  lemma StartStop(m: Mgr, locks: map<PoolKey, Pid>, r: Rid, spec: PoolSpec, j: Pid, p: Proc)
    requires r !in m.recons && (spec.key in locks ==> locks[spec.key] != j) && LockSideOk(locks, j, p)
    requires StopSideOk(m, p)
    ensures StopSideOk(StartRecon(m, r, spec), p)
  {
  }

  lemma StartOfficeSide(o: Office, r: Rid, spec: PoolSpec, j: Pid, p: Proc)
    requires r !in o.mgr.recons && (spec.key in o.locks ==> o.locks[spec.key] != j) && OfficeSideOk(o, j, p)
    ensures OfficeSideOk(o.(mgr := StartRecon(o.mgr, r, spec)), j, p)
  {
    StartBoss(o.mgr, r, spec, p);
    StartStop(o.mgr, o.locks, r, spec, j, p);
  }

  lemma StartAndUnlockOffice(o: Office, i: Pid, r: Rid, spec: PoolSpec, j: Pid)
    requires r !in o.mgr.recons && spec.key in o.locks && o.locks[spec.key] == i && j != i
    ensures OfficeKept(o,
              o.(mgr := StartRecon(o.mgr, r, spec), locks := o.locks - {spec.key}, readers := o.readers - {i}), j)
  {
    var o1 := o.(mgr := StartRecon(o.mgr, r, spec));
    StartOffice(o, r, spec, j);
    UnlockOffice(o1, i, spec.key, j);
  }

  lemma StartAndUnlockKeeps(s: State, i: Pid, r: Rid, spec: PoolSpec)
    requires Inv(s) && r !in s.mgr.recons && spec.key !in s.mgr.handles && spec.key in s.db.pools
    requires spec.key in s.locks && s.locks[spec.key] == i
    requires LetsGo(s, i, FleetOf(s), s.leaked, Done)
    ensures Inv(Apply(s, i, Starts(r, spec)))
  {
    ApplyStarts(s, i, r, spec);
    var s' := Unlock(s.(mgr := StartRecon(s.mgr, r, spec)), i, spec.key);
    StartManager(s.mgr, s.db.pools, r, spec);
    forall j | j != i ensures OfficeKept(OfficeOf(s), OfficeOf(s'), j) {
      StartAndUnlockOffice(OfficeOf(s), i, r, spec, j);
    }
    DoneOk(s', i);
    OfficeChangeKeeps(s, s', i, Done);
  }
}
