/** Each effect a step of a call can have keeps the invariant. */
module Effects {
  import opened Records
  import opened Transactions
  import opened Protocol
  import opened Invariant
  import opened Stability

  lemma Unchanged(s: State, s': State, j: Pid)
    requires FleetOf(s') == FleetOf(s) && BookOf(s') == BookOf(s) && YardOf(s') == YardOf(s)
    requires OfficeOf(s') == OfficeOf(s)
    ensures Undisturbed(s, s', j)
  {
  }

  /** Call i moves on, and the parts of the state the invariant reads stay as they are. */
  lemma QuietKeeps(s: State, s': State, i: Pid, q: Proc)
    requires Inv(s) && s'.procs == s.procs[i := q] && ProcOk(s', i, q)
    requires FleetOf(s') == FleetOf(s) && BookOf(s') == BookOf(s) && YardOf(s') == YardOf(s)
    requires OfficeOf(s') == OfficeOf(s)
    requires s'.leaked == s.leaked
    requires LetsGo(s, i, FleetOf(s), s.leaked, q)
    ensures Inv(s')
  {
    MoveCovers(FleetOf(s), s.leaked, s.procs, i, q);
    forall j | j in s'.procs ensures ProcOk(s', j, s'.procs[j]) {
      if j != i {
        Unchanged(s, s', j);
        ProcKept(s, s', j, s.procs[j]);
      }
    }
  }

  /** Call i moves on and changes VM rows or leases; reservations and the office stay. */
  lemma FleetChangeKeeps(s: State, s': State, i: Pid, q: Proc)
    requires Inv(s) && Base(s') && s'.procs == s.procs[i := q] && ProcOk(s', i, q)
    requires YardOf(s') == YardOf(s) && OfficeOf(s') == OfficeOf(s)
    requires forall j | j != i :: FleetKept(FleetOf(s), FleetOf(s'), j)
    requires BookKept(BookOf(s), BookOf(s'))
    requires Adopts(FleetOf(s), s.leaked, FleetOf(s'), s'.leaked, i, q)
    requires LetsGo(s, i, FleetOf(s'), s'.leaked, q)
    ensures Inv(s')
  {
    AdoptCovers(FleetOf(s), s.leaked, FleetOf(s'), s'.leaked, s.procs, i, q);
    forall j | j in s'.procs ensures ProcOk(s', j, s'.procs[j]) {
      if j != i {
        Here(s, j);
        FleetSideKept(FleetOf(s), FleetOf(s'), j, s.procs[j]);
        BookSideKept(BookOf(s), BookOf(s'), s.procs[j]);
      }
    }
  }

  // ---- a row is written ----

  function WithRow(f: Fleet, v: Vm): Fleet {
    f.(vms := f.vms[v.uid := v])
  }

  /** i alone may write v: it claimed the VM, or made it. */
  ghost predicate Exclusive(f: Fleet, i: Pid, v: Vm) {
    && v.uid !in f.leaseOf && !v.phase.Failed?
    && ((v.uid in f.vms && HasLeasedPhase(f.vms[v.uid]) && v.uid in f.claimant && f.claimant[v.uid] == i
       && !AbandonedProvision(v))
        || (v.uid in f.vms && AbandonedProvision(f.vms[v.uid]) && v.uid in f.births && f.births[v.uid].maker == i)
        || (v.uid !in f.vms && v.uid !in f.claimant && v.uid in f.births && f.births[v.uid].maker == i))
  }

  /** A write that keeps or makes an existing row DELETING may come from anyone. */
  ghost predicate MayWrite(f: Fleet, i: Pid, v: Vm) {
    Known(f, v) && (Exclusive(f, i, v) || (v.phase.Deleting? && v.uid in f.vms))
  }

  lemma RowFleetKept(f: Fleet, i: Pid, v: Vm)
    requires MayWrite(f, i, v)
    ensures forall j | j != i :: FleetKept(f, WithRow(f, v), j)
  {
  }

  lemma RowRows(f: Fleet, i: Pid, v: Vm)
    requires RowsOk(f) && MayWrite(f, i, v)
    ensures RowsOk(WithRow(f, v))
  {
    forall u | u in WithRow(f, v).vms ensures RowOk(WithRow(f, v), u) {
      assert u in f.vms ==> RowOk(f, u);
    }
  }

  /** No lease row names the VM, or v carries it. */
  ghost predicate KeepsLease(b: Book, v: Vm) {
    forall l | l in b.leases && b.leases[l].vm == v.uid ::
      v.leaseId == Some(l) && (v.phase.Leased? || v.phase.Deleting?)
  }

  lemma RowLeases(vms: map<Uid, Vm>, b: Book, v: Vm)
    requires LeasesOk(vms, b) && KeepsLease(b, v)
    ensures LeasesOk(vms[v.uid := v], b)
  {
    forall l | l in b.leases ensures LeaseOk(vms[v.uid := v], b, l) {
      assert LeaseOk(vms, b, l);
    }
  }

  ghost predicate Homed(db: Db, v: Vm) {
    v.host in db.hosts && (v.pool in db.pools || v.phase.Deleting?)
  }

  lemma RowTables(db: Db, y: Yard, v: Vm)
    requires TombstonesOk(db.pools, db.vms, db.leases) && HostsOk(db.hosts, db.pools, db.vms, y) && Homed(db, v)
    ensures TombstonesOk(db.pools, db.vms[v.uid := v], db.leases) && HostsOk(db.hosts, db.pools, db.vms[v.uid := v], y)
  {
  }

  lemma RowBase(s: State, i: Pid, v: Vm)
    requires Base(s) && MayWrite(FleetOf(s), i, v) && KeepsLease(BookOf(s), v) && Homed(s.db, v)
    ensures Base(s.(db := PutVm(s.db, v)))
  {
    assert FleetOf(s.(db := PutVm(s.db, v))) == WithRow(FleetOf(s), v);
    RowRows(FleetOf(s), i, v);
    MintsKept(FleetOf(s), WithRow(FleetOf(s), v), BookOf(s));
    RowLeases(s.db.vms, BookOf(s), v);
    RowTables(s.db, YardOf(s), v);
  }

  /** The row v, owned by q if it is in transit. */
  ghost predicate RowCovered(f: Fleet, i: Pid, q: Proc, v: Vm) {
    && (HasLeasedPhase(v) ==>
         v.uid in f.leaseOf || (v.uid in f.claimant && f.claimant[v.uid] == i && Owns(Claimer(q), v.uid)))
    && (AbandonedProvision(v) ==> v.uid in f.births && f.births[v.uid].maker == i && Owns(Builder(q), v.uid))
  }

  /** What is owned before stays owned, except what the step itself takes over. */
  lemma RowAdopts(f: Fleet, leaked: set<Uid>, procs: map<Pid, Proc>, i: Pid, q: Proc, v: Vm)
    requires AllCovered(f, leaked, procs) && RowCovered(f, i, q, v)
    ensures Adopts(f, leaked, WithRow(f, v), leaked, i, q)
  {
  }

  lemma PutKeeps(s: State, i: Pid, q: Proc, v: Vm)
    requires Inv(s) && MayWrite(FleetOf(s), i, v) && KeepsLease(BookOf(s), v) && Homed(s.db, v)
    requires ProcOk(Put(s, i, q, v), i, q) && RowCovered(FleetOf(s), i, q, v)
    requires LetsGo(s, i, WithRow(FleetOf(s), v), s.leaked, q)
    ensures Inv(Apply(s, i, Puts(q, v)))
  {
    ApplyPuts(s, i, q, v);
    var s' := Put(s, i, q, v);
    assert FleetOf(s') == WithRow(FleetOf(s), v);
    RowBase(s, i, v);
    RowAdopts(FleetOf(s), s.leaked, s.procs, i, q, v);
    RowFleetKept(FleetOf(s), i, v);
    FleetChangeKeeps(s, s', i, q);
  }

  // ---- a VM is claimed ----

  function WithClaim(f: Fleet, i: Pid, v: Vm): Fleet {
    WithRow(f, v).(claimant := f.claimant[v.uid := i])
  }

  lemma TakeFleetKept(f: Fleet, i: Pid, v: Vm)
    requires v.uid in f.vms && f.vms[v.uid].phase.Available? && v.phase.Leased?
    ensures forall j | j != i :: FleetKept(f, WithClaim(f, i, v), j)
  {
  }

  lemma TakeAdopts(f: Fleet, leaked: set<Uid>, procs: map<Pid, Proc>, i: Pid, q: Proc, v: Vm)
    requires AllCovered(f, leaked, procs) && Owns(Claimer(q), v.uid) && v.phase.Leased?
    requires v.uid in f.vms && f.vms[v.uid].phase.Available?
    ensures Adopts(f, leaked, WithClaim(f, i, v), leaked, i, q)
  {
  }

  lemma NoLeaseFor(vms: map<Uid, Vm>, b: Book, v: Vm)
    requires LeasesOk(vms, b) && v.uid in vms && !vms[v.uid].phase.Leased? && !vms[v.uid].phase.Deleting?
    ensures KeepsLease(b, v)
  {
    forall l | l in b.leases ensures b.leases[l].vm != v.uid {
      assert LeaseOk(vms, b, l);
    }
  }

  lemma TakeBase(s: State, i: Pid, v: Vm)
    requires Base(s) && v.uid in s.db.vms && s.db.vms[v.uid].phase.Available? && v == s.db.vms[v.uid].(phase := Leased)
    ensures Base(s.(db := PutVm(s.db, v), claimant := s.claimant[v.uid := i]))
  {
    var f := FleetOf(s);
    var s' := s.(db := PutVm(s.db, v), claimant := s.claimant[v.uid := i]);
    assert FleetOf(s') == WithClaim(f, i, v);
    assert RowsOk(FleetOf(s')) by {
      forall w | w in s'.db.vms ensures RowOk(FleetOf(s'), w) {
        assert RowOk(f, w);
      }
    }
    assert RowOk(f, v.uid);
    MintsKept(f, WithClaim(f, i, v), BookOf(s));
    NoLeaseFor(s.db.vms, BookOf(s), v);
    RowLeases(s.db.vms, BookOf(s), v);
    RowTables(s.db, YardOf(s), v);
  }

  lemma TakeKeeps(s: State, i: Pid, q: Proc, v: Vm)
    requires Inv(s) && v.uid in s.db.vms && s.db.vms[v.uid].phase.Available? && v == s.db.vms[v.uid].(phase := Leased)
    requires Owns(Claimer(q), v.uid) && ProcOk(Take(s, i, q, v), i, q)
    requires LetsGo(s, i, FleetOf(Take(s, i, q, v)), s.leaked, q)
    ensures Inv(Apply(s, i, Takes(q, v)))
  {
    ApplyTakes(s, i, q, v);
    var s' := Take(s, i, q, v);
    assert FleetOf(s') == WithClaim(FleetOf(s), i, v);
    TakeBase(s, i, v);
    TakeFleetKept(FleetOf(s), i, v);
    TakeAdopts(FleetOf(s), s.leaked, s.procs, i, q, v);
    FleetChangeKeeps(s, s', i, q);
  }

  // ---- a lease is committed ----

  function WithLease(f: Fleet, v: Vm, l: LeaseId): Fleet {
    WithRow(f, v).(leaseOf := f.leaseOf[v.uid := l])
  }

  lemma CommitFleetKept(f: Fleet, i: Pid, v: Vm, l: LeaseId)
    requires v.uid in f.vms && HasLeasedPhase(f.vms[v.uid]) && ClaimerOk(f, i, v) && v.phase.Leased?
    ensures forall j | j != i :: FleetKept(f, WithLease(f, v, l), j)
  {
  }

  lemma CommitAdopts(f: Fleet, leaked: set<Uid>, procs: map<Pid, Proc>, i: Pid, q: Proc, v: Vm, l: LeaseId)
    requires AllCovered(f, leaked, procs) && v.phase.Leased?
    ensures Adopts(f, leaked, WithLease(f, v, l), leaked, i, q)
  {
  }

  lemma CommitBook(f: Fleet, b: Book, v: Vm, l: Lease)
    requires MintsOk(f, b) && LeasesOk(f.vms, b)
    requires l.vm == v.uid && v.uid !in f.leaseOf && l.id !in b.minted && v.uid in f.births
    requires l.pool == f.births[v.uid].pool
    requires v.leaseId == Some(l.id) && v.phase.Leased?
    ensures
      var f' := WithLease(f, v, l.id);
      var b' := Book(b.leases[l.id := l], b.minted[l.id := l]);
      MintsOk(f', b') && LeasesOk(f'.vms, b') && BookKept(b, b')
  {
    var f' := WithLease(f, v, l.id);
    var b' := Book(b.leases[l.id := l], b.minted[l.id := l]);
    forall m | m in b'.minted ensures MintOk(f', b'.minted[m], m) {
      assert m != l.id ==> MintOk(f, b.minted[m], m);
    }
    forall m | m in b'.leases ensures LeaseOk(f'.vms, b', m) {
      if m != l.id {
        assert LeaseOk(f.vms, b, m);
        assert MintOk(f, b.minted[m], m);
      }
    }
  }

  lemma CommitRows(f: Fleet, i: Pid, v: Vm, l: LeaseId)
    requires RowsOk(f) && v.uid in f.vms && v.pool == f.vms[v.uid].pool && v.host == f.vms[v.uid].host
    requires v.phase.Leased? && v.leaseId == Some(l) && v.uid !in f.leaseOf
    ensures RowsOk(WithLease(f, v, l))
  {
    var f' := WithLease(f, v, l);
    forall u | u in f'.vms ensures RowOk(f', u) {
      assert RowOk(f, u);
    }
  }

  lemma CommitRequests(leases: map<LeaseId, Lease>, l: Lease)
    requires RequestsOk(leases)
    requires l.request.Some? ==> forall m | m in leases :: leases[m].request != l.request
    ensures RequestsOk(leases[l.id := l])
  {
  }

  ghost predicate MayCommit(s: State, i: Pid, v: Vm, l: Lease) {
    && v.uid in s.db.vms && HasLeasedPhase(s.db.vms[v.uid]) && ClaimerOk(FleetOf(s), i, v)
    && v.pool == s.db.vms[v.uid].pool && v.host == s.db.vms[v.uid].host
    && v.phase.Leased? && v.leaseId == Some(l.id)
    && l.vm == v.uid && l.pool == v.pool && l.id !in s.minted && !RequestTaken(s.db, l.request)
  }

  lemma CommitBase(s: State, i: Pid, q: Proc, v: Vm, l: Lease)
    requires Base(s) && MayCommit(s, i, v, l)
    ensures Base(Commit(s, i, q, v, l)) && BookKept(BookOf(s), BookOf(Commit(s, i, q, v, l)))
  {
    assert RowOk(FleetOf(s), v.uid);
    assert FleetOf(Commit(s, i, q, v, l)) == WithLease(FleetOf(s), v, l.id);
    assert BookOf(Commit(s, i, q, v, l)) == Book(s.db.leases[l.id := l], s.minted[l.id := l]);
    CommitRows(FleetOf(s), i, v, l.id);
    CommitBook(FleetOf(s), BookOf(s), v, l);
    CommitRequests(s.db.leases, l);
    RowTables(s.db, YardOf(s), v);
  }

  lemma CommitKeeps(s: State, i: Pid, q: Proc, v: Vm, l: Lease)
    requires Inv(s) && MayCommit(s, i, v, l)
    requires ProcOk(Commit(s, i, q, v, l), i, q)
    requires LetsGo(s, i, WithLease(FleetOf(s), v, l.id), s.leaked, q)
    ensures Inv(Apply(s, i, Commits(q, v, l)))
  {
    ApplyCommits(s, i, q, v, l);
    var s' := Commit(s, i, q, v, l);
    assert FleetOf(s') == WithLease(FleetOf(s), v, l.id);
    CommitBase(s, i, q, v, l);
    CommitFleetKept(FleetOf(s), i, v, l.id);
    CommitAdopts(FleetOf(s), s.leaked, s.procs, i, q, v, l.id);
    FleetChangeKeeps(s, s', i, q);
  }

  // ---- a row goes ----

  function WithoutRow(f: Fleet, u: Uid): Fleet {
    f.(vms := f.vms - {u})
  }

  lemma DropRowFleetKept(f: Fleet, u: Uid, j: Pid)
    ensures FleetKept(f, WithoutRow(f, u), j)
  {
  }

  lemma DropRowAdopts(f: Fleet, leaked: set<Uid>, procs: map<Pid, Proc>, i: Pid, q: Proc, u: Uid)
    requires AllCovered(f, leaked, procs) && u !in f.live
    ensures Adopts(f, leaked, WithoutRow(f, u), leaked, i, q)
  {
  }

  lemma DropRowKeeps(s: State, i: Pid, q: Proc, u: Uid)
    requires Inv(s) && u !in s.live && ProcOk(DropRow(s, i, q, u), i, q)
    requires LetsGo(s, i, WithoutRow(FleetOf(s), u), s.leaked, q)
    ensures Inv(Apply(s, i, Drops(q, u)))
  {
    ApplyDrops(s, i, q, u);
    var s' := DropRow(s, i, q, u);
    assert FleetOf(s') == WithoutRow(FleetOf(s), u);
    DropRowBase(s, i, q, u);
    DropRowAdopts(FleetOf(s), s.leaked, s.procs, i, q, u);
    forall j | j != i ensures FleetKept(FleetOf(s), FleetOf(s'), j) {
      DropRowFleetKept(FleetOf(s), u, j);
    }
    FleetChangeKeeps(s, s', i, q);
  }

  lemma DropRowBase(s: State, i: Pid, q: Proc, u: Uid)
    requires Base(s)
    ensures Base(DropRow(s, i, q, u))
  {
    var s' := DropRow(s, i, q, u);
    assert RowsOk(FleetOf(s')) by {
      forall w | w in s'.db.vms ensures RowOk(FleetOf(s'), w) {
        assert RowOk(FleetOf(s), w);
      }
    }
    assert LeasesOk(s'.db.vms, BookOf(s')) by {
      forall l | l in s.db.leases ensures LeaseOk(s'.db.vms, BookOf(s'), l) {
        assert LeaseOk(s.db.vms, BookOf(s), l);
      }
    }
    MintsKept(FleetOf(s), FleetOf(s'), BookOf(s));
  }

  // ---- a lease ends or is renewed ----

  lemma EndLeaseKeeps(s: State, i: Pid, q: Proc, l: LeaseId)
    requires Inv(s) && ProcOk(EndLease(s, i, q, l), i, q)
    requires LetsGo(s, i, FleetOf(s), s.leaked, q)
    ensures Inv(Apply(s, i, Ends(q, l)))
  {
    ApplyEnds(s, i, q, l);
    var s' := EndLease(s, i, q, l);
    assert FleetOf(s') == FleetOf(s);
    assert LeasesOk(s'.db.vms, BookOf(s')) by {
      forall m | m in s'.db.leases ensures LeaseOk(s'.db.vms, BookOf(s'), m) {
        assert LeaseOk(s.db.vms, BookOf(s), m);
      }
    }
    assert Base(s');
    MoveCovers(FleetOf(s), s.leaked, s.procs, i, q);
    assert BookKept(BookOf(s), BookOf(s'));
    BookChangeKeeps(s, s', i, q);
  }

  lemma BookChangeKeeps(s: State, s': State, i: Pid, q: Proc)
    requires Inv(s) && Base(s') && ProcOk(s', i, q) && s'.procs == s.procs[i := q]
    requires FleetOf(s') == FleetOf(s) && YardOf(s') == YardOf(s) && OfficeOf(s') == OfficeOf(s)
    requires s'.leaked == s.leaked
    requires BookKept(BookOf(s), BookOf(s')) && AllCovered(FleetOf(s), s.leaked, s.procs[i := q])
    ensures Inv(s')
  {
    forall j | j in s'.procs ensures ProcOk(s', j, s'.procs[j]) {
      if j != i {
        Here(s, j);
        BookSideKept(BookOf(s), BookOf(s'), s.procs[j]);
      }
    }
  }

  lemma RenewBase(s: State, i: Pid, q: Proc, l: Lease)
    requires Base(s) && l.id in s.db.leases && l == Renewed(s.db.leases[l.id], l.heartbeatAt, l.expiresAt)
    ensures Base(Renew(s, i, q, l)) && BookKept(BookOf(s), BookOf(Renew(s, i, q, l)))
  {
    hide RowsOk, ManagerOk;
    var s' := Renew(s, i, q, l);
    assert FleetOf(s') == FleetOf(s);
    assert LeaseOk(s.db.vms, BookOf(s), l.id);
    assert MintsOk(FleetOf(s'), BookOf(s')) by {
      forall m | m in s'.minted ensures MintOk(FleetOf(s'), s'.minted[m], m) {
        assert MintOk(FleetOf(s), s.minted[m], m);
      }
    }
    assert LeasesOk(s'.db.vms, BookOf(s')) by {
      forall m | m in s'.db.leases ensures LeaseOk(s'.db.vms, BookOf(s'), m) {
        assert LeaseOk(s.db.vms, BookOf(s), m);
      }
    }
  }

  lemma RenewKeeps(s: State, i: Pid, q: Proc, l: Lease)
    requires Inv(s) && l.id in s.db.leases && l == Renewed(s.db.leases[l.id], l.heartbeatAt, l.expiresAt)
    requires ProcOk(Renew(s, i, q, l), i, q)
    requires LetsGo(s, i, FleetOf(s), s.leaked, q)
    ensures Inv(Apply(s, i, Renews(q, l)))
  {
    ApplyRenews(s, i, q, l);
    RenewBase(s, i, q, l);
    MoveCovers(FleetOf(s), s.leaked, s.procs, i, q);
    BookChangeKeeps(s, Renew(s, i, q, l), i, q);
  }
}
