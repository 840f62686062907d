/** Changes no single call makes: marking rows in bulk, removing a pool, the host registry, the
    reconcilers' own steps, and a restart. */
module EnvEffects {
  import opened Records
  import opened Transactions
  import opened Protocol
  import opened Invariant
  import opened Stability
  import opened AdminEffects

  // ---- rows are marked DELETING in bulk ----

  ghost predicate Condemned(vms: map<Uid, Vm>, vms': map<Uid, Vm>) {
    && vms'.Keys == vms.Keys
    && forall u | u in vms :: vms'[u] == vms[u] || vms'[u] == Condemn(vms[u])
  }

  lemma CondemnedFleetKept(f: Fleet, vms': map<Uid, Vm>)
    requires Condemned(f.vms, vms')
    ensures forall j :: FleetKept(f, f.(vms := vms'), j)
  {
  }

  lemma CondemnedRows(f: Fleet, vms': map<Uid, Vm>)
    requires RowsOk(f) && Condemned(f.vms, vms')
    ensures RowsOk(f.(vms := vms'))
  {
    forall u | u in vms' ensures RowOk(f.(vms := vms'), u) {
      assert RowOk(f, u);
    }
  }

  lemma CondemnedCovers(f: Fleet, leaked: set<Uid>, procs: map<Pid, Proc>, vms': map<Uid, Vm>)
    requires AllCovered(f, leaked, procs) && Condemned(f.vms, vms')
    ensures AllCovered(f.(vms := vms'), leaked, procs)
  {
  }

  /** A row with a lease row is LEASED or DELETING, so a drain leaves it alone. */
  lemma MarkedLeases(db: Db, b: Book, hosts: set<HostName>)
    requires LeasesOk(db.vms, b)
    ensures LeasesOk(MarkUnleased(db, hosts).vms, b)
  {
    forall l | l in b.leases ensures LeaseOk(MarkUnleased(db, hosts).vms, b, l) {
      assert LeaseOk(db.vms, b, l);
    }
  }

  lemma MarkedTables(db: Db, y: Yard, hosts: set<HostName>)
    requires TombstonesOk(db.pools, db.vms, db.leases) && HostsOk(db.hosts, db.pools, db.vms, y)
    ensures TombstonesOk(db.pools, MarkUnleased(db, hosts).vms, db.leases)
    ensures HostsOk(db.hosts, db.pools, MarkUnleased(db, hosts).vms, y)
  {
  }

  lemma MarkBase(s: State, hosts: set<HostName>)
    requires Base(s)
    ensures Base(s.(db := MarkUnleased(s.db, hosts)))
  {
    var vms' := MarkUnleased(s.db, hosts).vms;
    assert FleetOf(s.(db := MarkUnleased(s.db, hosts))) == FleetOf(s).(vms := vms');
    CondemnedRows(FleetOf(s), vms');
    MintsKept(FleetOf(s), FleetOf(s).(vms := vms'), BookOf(s));
    MarkedLeases(s.db, BookOf(s), hosts);
    MarkedTables(s.db, YardOf(s), hosts);
  }

  lemma MarkKeeps(s: State, hosts: set<HostName>)
    requires Inv(s)
    ensures Inv(s.(db := MarkUnleased(s.db, hosts)))
  {
    var s' := s.(db := MarkUnleased(s.db, hosts));
    assert FleetOf(s') == FleetOf(s).(vms := s'.db.vms);
    MarkBase(s, hosts);
    CondemnedFleetKept(FleetOf(s), s'.db.vms);
    CondemnedCovers(FleetOf(s), s.leaked, s.procs, s'.db.vms);
    forall j | j in s'.procs ensures ProcOk(s', j, s'.procs[j]) {
      Here(s, j);
      FleetSideKept(FleetOf(s), FleetOf(s'), j, s.procs[j]);
    }
  }

  // ---- a pool goes, with its leases, and its rows become tombstones ----

  lemma RemovedLeases(f: Fleet, b: Book, db: Db, k: PoolKey)
    requires f.vms == db.vms && b.leases == db.leases && RowsOk(f) && MintsOk(f, b) && LeasesOk(f.vms, b)
    requires RequestsOk(b.leases)
    ensures LeasesOk(DeletePool(db, k).vms, Book(DeletePool(db, k).leases, b.minted))
    ensures RequestsOk(DeletePool(db, k).leases)
    ensures BookKept(b, Book(DeletePool(db, k).leases, b.minted))
  {
    var b' := Book(DeletePool(db, k).leases, b.minted);
    forall l | l in b'.leases ensures LeaseOk(DeletePool(db, k).vms, b', l) {
      assert LeaseOk(f.vms, b, l);
      assert MintOk(f, b.minted[l], l);
      assert b.leases[l].vm in f.vms ==> RowOk(f, b.leases[l].vm);
    }
  }

  lemma RemovedTables(db: Db, y: Yard, m: Mgr, k: PoolKey)
    requires TombstonesOk(db.pools, db.vms, db.leases) && HostsOk(db.hosts, db.pools, db.vms, y)
    requires ManagerOk(m, db.pools) && NoneAlive(m, k, {})
    ensures
      var db' := DeletePool(db, k);
      TombstonesOk(db'.pools, db'.vms, db'.leases) && HostsOk(db'.hosts, db'.pools, db'.vms, y)
        && ManagerOk(m, db'.pools)
  {
  }

  /** Only the holder of the pool's lock relies on the pool's row. */
  lemma RemovedOffice(o: Office, i: Pid, k: PoolKey, j: Pid)
    requires k in o.locks && o.locks[k] == i && j != i
    ensures OfficeKept(o, o.(pools := o.pools - {k}), j)
  {
    var o' := o.(pools := o.pools - {k});
    forall p | OfficeSideOk(o, j, p) ensures OfficeSideOk(o', j, p) {
      RemovedPoolSide(o, i, k, j, p);
    }
  }

  /** Whoever has established something about a pool holds its lock. */
  lemma LockNames(p: Proc)
    ensures p.PoolStopping? || p.PoolStarting? ==> LockOf(p) == Some(p.spec.key)
    ensures IsDeletingPool(p) ==> LockOf(p) == Some(p.key)
  {
  }

  lemma RemovedPoolSide(o: Office, i: Pid, k: PoolKey, j: Pid, p: Proc)
    requires k in o.locks && o.locks[k] == i && j != i && LockSideOk(o.locks, j, p) && PoolSideOk(o, j, p)
    ensures PoolSideOk(o.(pools := o.pools - {k}), j, p)
  {
    hide LockOf, IsDeletingPool;
    LockNames(p);
  }

  lemma RemovePoolBase(s: State, i: Pid, q: Proc, k: PoolKey)
    requires Base(s) && NoneAlive(s.mgr, k, {})
    ensures Base(RemovePool(s, i, q, k)) && BookKept(BookOf(s), BookOf(RemovePool(s, i, q, k)))
  {
    var s' := RemovePool(s, i, q, k);
    assert FleetOf(s') == FleetOf(s).(vms := s'.db.vms);
    assert BookOf(s') == Book(s'.db.leases, s.minted);
    CondemnedRows(FleetOf(s), s'.db.vms);
    MintsKept(FleetOf(s), FleetOf(s'), BookOf(s));
    RemovedLeases(FleetOf(s), BookOf(s), s.db, k);
    RemovedTables(s.db, YardOf(s), s.mgr, k);
  }

  lemma RemovePoolKeeps(s: State, i: Pid, q: Proc, k: PoolKey)
    requires Inv(s) && NoneAlive(s.mgr, k, {}) && k in s.locks && s.locks[k] == i
    requires ProcOk(RemovePool(s, i, q, k), i, q)
    requires LetsGo(s, i, FleetOf(RemovePool(s, i, q, k)), s.leaked, q)
    ensures Inv(Apply(s, i, RemovesPool(q, k)))
  {
    ApplyRemovesPool(s, i, q, k);
    var s' := RemovePool(s, i, q, k);
    assert FleetOf(s') == FleetOf(s).(vms := s'.db.vms);
    RemovePoolBase(s, i, q, k);
    CondemnedFleetKept(FleetOf(s), s'.db.vms);
    CondemnedCovers(FleetOf(s), s.leaked, s.procs, s'.db.vms);
    MoveCovers(FleetOf(s'), s.leaked, s.procs, i, q);
    forall j | j in s'.procs ensures ProcOk(s', j, s'.procs[j]) {
      if j != i {
        Here(s, j);
        FleetSideKept(FleetOf(s), FleetOf(s'), j, s.procs[j]);
        BookSideKept(BookOf(s), BookOf(s'), s.procs[j]);
        RemovedOffice(OfficeOf(s), i, k, j);
        OfficeSideKept(OfficeOf(s), OfficeOf(s'), j, s.procs[j]);
      }
    }
  }

  // ---- hosts and reconcilers: no call moves ----

  lemma OfficeEnvKeeps(s: State, s': State)
    requires Inv(s) && s'.procs == s.procs
    requires FleetOf(s') == FleetOf(s) && BookOf(s') == BookOf(s) && YardOf(s') == YardOf(s) && s'.leaked == s.leaked
    requires ManagerOk(s'.mgr, s'.db.pools) && TombstonesOk(s'.db.pools, s'.db.vms, s'.db.leases)
    requires HostsOk(s'.db.hosts, s'.db.pools, s'.db.vms, YardOf(s'))
    requires forall j | j in s.procs :: OfficeSideOk(OfficeOf(s'), j, s.procs[j])
    ensures Inv(s')
  {
    forall j | j in s'.procs ensures ProcOk(s', j, s'.procs[j]) {
      assert ProcOk(s, j, s.procs[j]);
    }
  }

  lemma MoreHostsOffice(o: Office, hosts': map<HostName, Host>, j: Pid, p: Proc)
    requires OfficeSideOk(o, j, p) && (forall h | h in o.hosts :: h in hosts')
    ensures OfficeSideOk(o.(hosts := hosts'), j, p)
  {
  }

  lemma PutHostKeeps(s: State, h: HostName, row: Host)
    requires Inv(s) && (row.draining ==> row.cordoned)
    ensures Inv(s.(db := PutHost(s.db, h, row)))
  {
    var s' := s.(db := PutHost(s.db, h, row));
    forall j | j in s.procs ensures OfficeSideOk(OfficeOf(s'), j, s.procs[j]) {
      assert ProcOk(s, j, s.procs[j]);
      MoreHostsOffice(OfficeOf(s), s'.db.hosts, j, s.procs[j]);
    }
    OfficeEnvKeeps(s, s');
  }

  lemma UnusedHost(db: Db, y: Yard, h: HostName)
    requires HostsOk(db.hosts, db.pools, db.vms, y) && CanDeleteHost(db, h) && y.placements == db.placements
    ensures HostsOk(DropHost(db, h).hosts, db.pools, db.vms, y)
  {
    assert forall u | u in db.vms :: u !in RowsOn(db, h);
    assert forall pl | pl in db.placements :: pl !in PlacementsOn(db, h);
  }

  lemma FewerHostsOffice(o: Office, hosts': map<HostName, Host>, j: Pid, p: Proc)
    requires OfficeSideOk(o, j, p) && o.readers == {}
    ensures OfficeSideOk(o.(hosts := hosts'), j, p)
  {
  }

  lemma RemoveHostKeeps(s: State, h: HostName)
    requires Inv(s) && s.readers == {} && CanDeleteHost(s.db, h)
    ensures Inv(s.(db := DropHost(s.db, h)))
  {
    var s' := s.(db := DropHost(s.db, h));
    UnusedHost(s.db, YardOf(s), h);
    forall j | j in s.procs ensures OfficeSideOk(OfficeOf(s'), j, s.procs[j]) {
      assert ProcOk(s, j, s.procs[j]);
      FewerHostsOffice(OfficeOf(s), s'.db.hosts, j, s.procs[j]);
    }
    OfficeEnvKeeps(s, s');
  }

  lemma SeedKeeps(s: State, k: PoolKey, r: Rid)
    requires Inv(s) && k in s.db.pools && k !in s.locks && k !in s.mgr.handles && r !in s.mgr.recons
    ensures Inv(s.(mgr := StartRecon(s.mgr, r, s.db.pools[k])))
  {
    var spec := s.db.pools[k];
    var s' := s.(mgr := StartRecon(s.mgr, r, spec));
    StartManager(s.mgr, s.db.pools, r, spec);
    forall j | j in s.procs ensures OfficeSideOk(OfficeOf(s'), j, s.procs[j]) {
      assert ProcOk(s, j, s.procs[j]);
      StartOfficeSide(OfficeOf(s), r, spec, j, s.procs[j]);
    }
    OfficeEnvKeeps(s, s');
  }

  /** The reconcilers named in m' run for the same pools as in m, and exactly as many of them. */
  ghost predicate SameRuns(m: Mgr, m': Mgr) {
    && m'.handles == m.handles
    && m'.recons.Keys == m.recons.Keys
    && forall r | r in m.recons :: m'.recons[r].spec == m.recons[r].spec && m'.recons[r].done == m.recons[r].done
  }

  lemma SameRunsOffice(o: Office, m': Mgr, j: Pid, p: Proc)
    requires OfficeSideOk(o, j, p) && SameRuns(o.mgr, m')
    ensures OfficeSideOk(o.(mgr := m'), j, p)
  {
    assert BossOk(m', p);
    assert StopSideOk(m', p);
  }

  lemma SameRunsKeeps(s: State, m': Mgr)
    requires Inv(s) && SameRuns(s.mgr, m') && ManagerOk(m', s.db.pools)
    ensures Inv(s.(mgr := m'))
  {
    var s' := s.(mgr := m');
    forall j | j in s.procs ensures OfficeSideOk(OfficeOf(s'), j, s.procs[j]) {
      assert ProcOk(s, j, s.procs[j]);
      SameRunsOffice(OfficeOf(s), m', j, s.procs[j]);
    }
    OfficeEnvKeeps(s, s');
  }

  lemma SetLoopKeeps(s: State, r: Rid, loop: Loop)
    requires Inv(s) && r in s.mgr.recons
    ensures Inv(s.(mgr := SetLoop(s.mgr, r, loop)))
  {
    var m' := SetLoop(s.mgr, r, loop);
    assert ManagerOk(m', s.db.pools) by {
      forall x | Alive(m', x) ensures Tracked(m', x) {
        assert Alive(s.mgr, x);
        assert Tracked(s.mgr, x);
      }
    }
    SameRunsKeeps(s, m');
  }

  lemma LeaveKeeps(s: State, r: Rid)
    requires Inv(s) && r in s.mgr.recons && s.mgr.recons[r].done
    ensures Inv(s.(mgr := Leave(s.mgr, r)))
  {
    var m' := Leave(s.mgr, r);
    assert ManagerOk(m', s.db.pools) by {
      forall x | Alive(m', x) ensures Tracked(m', x) {
        assert Alive(s.mgr, x);
        assert Tracked(s.mgr, x);
      }
    }
    SameRunsKeeps(s, m');
  }

  lemma ExitOffice(o: Office, r: Rid, j: Pid, p: Proc)
    requires OfficeSideOk(o, j, p) && r in o.mgr.recons && Boss(p) != Some(r)
    ensures OfficeSideOk(o.(mgr := Finished(o.mgr, r)), j, p)
  {
    assert BossOk(Finished(o.mgr, r), p);
    assert StopSideOk(Finished(o.mgr, r), p);
  }

  lemma ExitKeeps(s: State, r: Rid)
    requires Inv(s) && Alive(s.mgr, r) && !Busy(s, r)
    ensures Inv(s.(mgr := Finished(s.mgr, r)))
  {
    var s' := s.(mgr := Finished(s.mgr, r));
    assert ManagerOk(s'.mgr, s.db.pools) by {
      forall x | Alive(s'.mgr, x) ensures Tracked(s'.mgr, x) {
        assert Alive(s.mgr, x);
        assert Tracked(s.mgr, x);
      }
    }
    forall j | j in s.procs ensures OfficeSideOk(OfficeOf(s'), j, s.procs[j]) {
      assert ProcOk(s, j, s.procs[j]);
      ExitOffice(OfficeOf(s), r, j, s.procs[j]);
    }
    OfficeEnvKeeps(s, s');
  }

  // ---- a restart ----

  lemma RecoveredRows(f: Fleet, db: Db)
    requires f.vms == db.vms && RowsOk(f)
    ensures RowsOk(f.(vms := Recover(db).vms, stranded := {}))
  {
    var f' := f.(vms := Recover(db).vms, stranded := {});
    forall u | u in f'.vms ensures RowOk(f', u) {
      assert RowOk(f, u);
    }
  }

  lemma RecoveredLeases(db: Db, b: Book)
    requires LeasesOk(db.vms, b) && b.leases == db.leases
    ensures LeasesOk(Recover(db).vms, b)
  {
    forall l | l in b.leases ensures LeaseOk(Recover(db).vms, b, l) {
      assert LeaseOk(db.vms, b, l);
    }
  }

  lemma RestartBase(s: State)
    requires Base(s)
    ensures Base(RestartState(s))
  {
    var s' := RestartState(s);
    assert FleetOf(s') == FleetOf(s).(vms := s'.db.vms, stranded := {});
    RecoveredRows(FleetOf(s), s.db);
    RecoveredLeases(s.db, BookOf(s));
    assert MintsOk(FleetOf(s'), BookOf(s')) by {
      forall l | l in s'.minted ensures MintOk(FleetOf(s'), s'.minted[l], l) {
        assert MintOk(FleetOf(s), s.minted[l], l);
      }
    }
  }

  /** Recovery leaves no VM in transit: a LEASED row that stays carries a lease in the table. */
  lemma RestartCovered(s: State)
    requires Base(s) && Covered(s)
    ensures Covered(RestartState(s))
  {
    hide MintsOk, LeasesOk, TombstonesOk, ManagerOk, RequestsOk, GivenOk, BornOk, HostsOk;
    var s' := RestartState(s);
    forall u | u in s'.db.vms && HasLeasedPhase(s'.db.vms[u]) ensures u in s'.leaseOf {
      assert RowOk(FleetOf(s), u);
    }
  }

  lemma RestartKeeps(s: State)
    requires Inv(s)
    ensures Inv(RestartState(s))
  {
    RestartBase(s);
    RestartCovered(s);
    forall i | i in s.procs ensures ProcOk(RestartState(s), i, Done) {
      DoneOk(RestartState(s), i);
    }
  }
}
