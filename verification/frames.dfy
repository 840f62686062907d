/** What each effect changes, part by part, and so what it leaves alone. */
module Frames {
  import opened Records
  import opened Transactions
  import opened Protocol
  import opened Plans

  // ---- the call itself ----

  lemma CallAfter(s: State, i: Pid, e: Effect)
    requires i in s.procs
    ensures Apply(s, i, e).procs == s.procs[i := After(s.procs[i], e)]
  {
    hide Forget, DeletePool, StartRecon;
    if e.Stays? {
      assert s.procs == s.procs[i := s.procs[i]];
    }
  }

  // ---- the tables ----

  predicate TouchesRows(e: Effect) {
    e.Puts? || e.Inserts? || e.Takes? || e.Commits? || e.Drops? || e.RemovesPool?
  }

  predicate TouchesDb(e: Effect) {
    || TouchesRows(e) || e.Ends? || e.Renews? || e.Reserves? || e.Frees? || e.WritesPool? || e.Records?
  }

  lemma DbUntouched(s: State, i: Pid, e: Effect)
    requires !TouchesDb(e)
    ensures Apply(s, i, e).db == s.db
  {
  }

  /** The tables after an effect, without the rest of the state. */
  function DbAfter(db: Db, e: Effect): Db {
    match e
    case Puts(_, v) => PutVm(db, v)
    case Inserts(_, v) => PutVm(db, v)
    case Takes(_, v) => PutVm(db, v)
    case Commits(_, v, l) => PutLease(PutVm(db, v), l)
    case Drops(_, u) => DropVm(db, u)
    case Ends(_, l) => DropLease(db, l)
    case Renews(_, l) => PutLease(db, l)
    case Reserves(_, pl, row) => Reserve(db, pl, row)
    case Frees(_, pl) => Unreserve(db, pl)
    case WritesPool(_, spec) => PutPool(db, spec)
    case RemovesPool(_, k) => DeletePool(db, k)
    case Records(_, ev) => Emit(db, ev)
    case _ => db
  }

  lemma DbIs(s: State, i: Pid, e: Effect)
    ensures Apply(s, i, e).db == DbAfter(s.db, e)
  {
    if !TouchesDb(e) {
      DbUntouched(s, i, e);
    } else if TouchesRows(e) {
      RowsAre(s, i, e);
    } else {
      match e
      case Ends(q, l) => ApplyEnds(s, i, q, l);
      case Renews(q, l) => ApplyRenews(s, i, q, l);
      case Reserves(q, pl, row) => ApplyReserves(s, i, q, pl, row);
      case Frees(q, pl) => ApplyFrees(s, i, q, pl);
      case WritesPool(q, spec) => ApplyWritesPool(s, i, q, spec);
      case Records(q, ev) => ApplyRecords(s, i, q, ev);
    }
  }

  lemma RowsAre(s: State, i: Pid, e: Effect)
    requires TouchesRows(e)
    ensures Apply(s, i, e).db == DbAfter(s.db, e)
  {
    match e
    case Puts(q, v) => ApplyPuts(s, i, q, v);
    case Inserts(q, v) =>
      InsertsRow(s, i, q, v);
      ApplyPuts(s, i, q, v);
    case Drops(q, u) => ApplyDrops(s, i, q, u);
    case Takes(q, v) => ApplyTakes(s, i, q, v);
    case Commits(q, v, l) => ApplyCommits(s, i, q, v, l);
    case RemovesPool(q, k) => ApplyRemovesPool(s, i, q, k);
  }

  lemma RowsUntouched(s: State, i: Pid, e: Effect)
    requires !TouchesRows(e)
    ensures Apply(s, i, e).db.vms == s.db.vms
  {
    DbIs(s, i, e);
  }

  lemma PlacementsAfter(s: State, i: Pid, e: Effect)
    ensures Apply(s, i, e).db.placements ==
            if e.Reserves? then s.db.placements[e.pl := e.row]
            else if e.Frees? then s.db.placements - {e.pl} else s.db.placements
  {
    DbIs(s, i, e);
  }

  lemma HostsAfter(s: State, i: Pid, e: Effect)
    ensures Apply(s, i, e).db.hosts == s.db.hosts
  {
    DbIs(s, i, e);
  }

  lemma PoolsAfter(s: State, i: Pid, e: Effect)
    ensures Apply(s, i, e).db.pools ==
            if e.WritesPool? then s.db.pools[e.spec.key := e.spec]
            else if e.RemovesPool? then s.db.pools - {e.k} else s.db.pools
  {
    hide Apply;
    DbIs(s, i, e);
  }

  // ---- history, flintlock and the manager ----

  predicate TablesOnly(e: Effect) {
    e.Puts? || e.Inserts? || e.Drops? || e.Ends? || e.Frees? || e.WritesPool? || e.RemovesPool? || e.Records?
  }

  lemma RestUntouched(s: State, i: Pid, e: Effect)
    requires TablesOnly(e)
    ensures Apply(s, i, e) == s.(db := DbAfter(s.db, e), procs := s.procs[i := e.q])
  {
    hide Apply, DeletePool;
    match e
    case Puts(q, v) => ApplyPuts(s, i, q, v);
    case Inserts(q, v) =>
      InsertsRow(s, i, q, v);
      ApplyPuts(s, i, q, v);
    case Drops(q, u) => ApplyDrops(s, i, q, u);
    case Ends(q, l) => ApplyEnds(s, i, q, l);
    case Frees(q, pl) => ApplyFrees(s, i, q, pl);
    case WritesPool(q, spec) => ApplyWritesPool(s, i, q, spec);
    case RemovesPool(q, k) => ApplyRemovesPool(s, i, q, k);
    case Records(q, ev) => ApplyRecords(s, i, q, ev);
  }

  /** The effects that write a table and the history beside it. */
  lemma TogetherIs(s: State, i: Pid, e: Effect)
    requires e.Takes? || e.Commits? || e.Renews? || e.Reserves?
    ensures
      var s' := Apply(s, i, e);
      && s' == s.(db := s'.db, claimant := s'.claimant, leaseOf := s'.leaseOf, minted := s'.minted, placed := s'.placed,
                  procs := s'.procs)
      && (!e.Commits? && !e.Renews? ==> s'.minted == s.minted) && (!e.Reserves? ==> s'.placed == s.placed)
      && (!e.Takes? ==> s'.claimant == s.claimant) && (!e.Commits? ==> s'.leaseOf == s.leaseOf)
  {
    match e
    case Takes(q, v) => ApplyTakes(s, i, q, v);
    case Commits(q, v, l) => ApplyCommits(s, i, q, v, l);
    case Renews(q, l) => ApplyRenews(s, i, q, l);
    case Reserves(q, pl, row) => ApplyReserves(s, i, q, pl, row);
  }

  lemma MintsUntouched(s: State, i: Pid, e: Effect)
    requires !e.Commits? && !e.Renews?
    ensures Apply(s, i, e).minted == s.minted
  {
    if TablesOnly(e) { RestUntouched(s, i, e); }
    else if TouchesDb(e) { TogetherIs(s, i, e); }
  }

  lemma BookAfter(s: State, i: Pid, e: Effect)
    requires !e.Commits? && !e.Renews?
    ensures Apply(s, i, e).minted == s.minted
    ensures Apply(s, i, e).db.leases ==
            if e.Ends? then s.db.leases - {e.lease} else if e.RemovesPool? then DeletePool(s.db, e.k).leases
              else s.db.leases
  {
    DbIs(s, i, e);
    MintsUntouched(s, i, e);
  }

  lemma MicroVmsUntouched(s: State, i: Pid, e: Effect)
    requires !e.Bears? && !e.Kills?
    ensures Apply(s, i, e).births == s.births && Apply(s, i, e).live == s.live
  {
    if TablesOnly(e) { RestUntouched(s, i, e); }
    else if TouchesDb(e) { TogetherIs(s, i, e); }
  }

  lemma BirthsAfter(s: State, i: Pid, e: Effect)
    ensures Apply(s, i, e).births ==
            if e.Bears? then s.births[e.u := Birth(i, e.pool, e.host)] else s.births
    ensures Apply(s, i, e).live ==
            if e.Bears? then s.live[e.u := e.host] else if e.Kills? then s.live - {e.u} else s.live
  {
    match e
    case Bears(q, u, pool, host, lost) => ApplyBears(s, i, q, u, pool, host, lost);
    case Kills(q, u) => ApplyKills(s, i, q, u);
    case _ => MicroVmsUntouched(s, i, e);
  }

  /** Who claimed each VM, and the lease each was given. */
  lemma ClaimsAfter(s: State, i: Pid, e: Effect)
    ensures Apply(s, i, e).claimant == if e.Takes? then s.claimant[e.v.uid := i] else s.claimant
    ensures Apply(s, i, e).leaseOf == if e.Commits? then s.leaseOf[e.v.uid := e.l.id] else s.leaseOf
  {
    match e
    case Takes(q, v) => ApplyTakes(s, i, q, v);
    case Commits(q, v, l) => ApplyCommits(s, i, q, v, l);
    case _ => ClaimsUntouched(s, i, e);
  }

  lemma ClaimsUntouched(s: State, i: Pid, e: Effect)
    requires !e.Takes? && !e.Commits?
    ensures Apply(s, i, e).claimant == s.claimant && Apply(s, i, e).leaseOf == s.leaseOf
  {
    if TablesOnly(e) { RestUntouched(s, i, e); }
    else if TouchesDb(e) { TogetherIs(s, i, e); }
  }

  lemma YardUntouched(s: State, i: Pid, e: Effect)
    requires !e.Reserves? && !e.Overstays?
    ensures Apply(s, i, e).placed == s.placed && Apply(s, i, e).unreleased == s.unreleased
  {
    if TablesOnly(e) { RestUntouched(s, i, e); }
    else if TouchesDb(e) { TogetherIs(s, i, e); }
  }

  lemma PlacedAfter(s: State, i: Pid, e: Effect)
    ensures Apply(s, i, e).placed == if e.Reserves? then s.placed[e.pl := i] else s.placed
    ensures Apply(s, i, e).unreleased == if e.Overstays? then s.unreleased + {e.pl} else s.unreleased
  {
    match e
    case Reserves(q, pl, row) => ApplyReserves(s, i, q, pl, row);
    case Overstays(q, pl) => ApplyOverstays(s, i, q, pl);
    case _ => YardUntouched(s, i, e);
  }

  lemma FailuresUntouched(s: State, i: Pid, e: Effect)
    requires !e.Forsakes? && !e.Loses? && !e.Bears?
    ensures Apply(s, i, e).stranded == s.stranded && Apply(s, i, e).leaked == s.leaked
  {
    if TablesOnly(e) { RestUntouched(s, i, e); }
    else if TouchesDb(e) { TogetherIs(s, i, e); }
  }

  lemma FailuresAfter(s: State, i: Pid, e: Effect)
    ensures Apply(s, i, e).stranded == if e.Forsakes? then s.stranded + {e.u} else s.stranded
    ensures Apply(s, i, e).leaked == if e.Loses? || (e.Bears? && e.lost) then s.leaked + {e.u} else s.leaked
  {
    match e
    case Forsakes(q, u) => ApplyForsakes(s, i, q, u);
    case Loses(q, u) => ApplyLoses(s, i, q, u);
    case Bears(q, u, pool, host, lost) => ApplyBears(s, i, q, u, pool, host, lost);
    case _ => FailuresUntouched(s, i, e);
  }

  lemma ManagerUntouched(s: State, i: Pid, e: Effect)
    requires !e.Forgets? && !e.Starts?
    ensures Apply(s, i, e).mgr == s.mgr
  {
    if TablesOnly(e) { RestUntouched(s, i, e); }
    else if TouchesDb(e) { TogetherIs(s, i, e); }
  }

  lemma ManagerAfter(s: State, i: Pid, e: Effect)
    ensures Apply(s, i, e).mgr ==
            if e.Forgets? then Forget(s.mgr, e.k)
            else if e.Starts? then StartRecon(s.mgr, e.r, e.spec) else s.mgr
  {
    match e
    case Forgets(q, k) => ApplyForgets(s, i, q, k);
    case Starts(r, spec) => ApplyStarts(s, i, r, spec);
    case _ => ManagerUntouched(s, i, e);
  }
}
