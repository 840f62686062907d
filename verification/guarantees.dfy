/** What one action may change, whatever else is going on: rows keep their VM's place and never
    leave DELETING, a row appears only for a microVM its Provision call holds unrecorded and goes
    only when flintlock no longer runs it, a reservation is only made on a host taking new VMs,
    and no birth, lease or reservation once made is revised. */
module Guarantees {
  import opened Records
  import opened Transactions
  import opened Protocol
  import opened Invariant
  import opened Stability
  import opened Plans
  import opened Frames
  import opened Environment

  // ---- two-state predicates ----

  /** What the row v may become. */
  predicate Follows(v: Vm, w: Vm) {
    w.pool == v.pool && w.host == v.host && (v.phase.Deleting? ==> w.phase.Deleting?)
  }

  ghost predicate RowsFollow(s: State, s': State) {
    && (forall u | u in s'.db.vms ::
          if u in s.db.vms then Follows(s.db.vms[u], s'.db.vms[u]) else OwnedOrphan(s.births, s.procs, u))
    && (forall u | u in s.db.vms && u !in s'.db.vms :: u !in s.live)
  }

  /** Only flintlock's answer makes a microVM a call's to record. */
  ghost predicate OrphansFollow(s: State, s': State) {
    forall u | OwnedOrphan(s'.births, s'.procs, u) :: OwnedOrphan(s.births, s.procs, u) || u !in s.births
  }

  ghost predicate Occupied(db: Db, h: HostName) {
    exists pl :: pl in db.placements && db.placements[pl].host == h
  }

  ghost predicate BirthsFollow(s: State, s': State) {
    && (forall u | u in s.births :: u in s'.births && s'.births[u] == s.births[u])
    && (forall u | u in s'.births && u !in s.births :: Occupied(s.db, s'.births[u].host))
    && (forall u | u in s'.live && u !in s.live :: u !in s.births)
  }

  ghost predicate Open(db: Db, h: HostName) {
    h in db.hosts && !db.hosts[h].cordoned
  }

  ghost predicate YardFollows(s: State, s': State) {
    forall pl | pl in s'.db.placements ::
      || (pl in s.db.placements && s'.db.placements[pl] == s.db.placements[pl])
      || Open(s.db, s'.db.placements[pl].host)
  }

  /** A committed lease keeps its terms for good, and one that ended does not come back. */
  ghost predicate LeasesFollow(s: State, s': State) {
    BookKept(BookOf(s), BookOf(s'))
  }

  ghost predicate Guarantee(s: State, s': State) {
    RowsFollow(s, s') && OrphansFollow(s, s') && BirthsFollow(s, s') && YardFollows(s, s') && LeasesFollow(s, s')
  }

  lemma StutterFollows(s: State)
    ensures Guarantee(s, s)
  {
  }

  // ---- rows ----

  /** A held record agrees with its row on what never changes. */
  lemma HeldRow(s: State, i: Pid, p: Proc, v: Vm)
    requires Base(s) && AtPoint(s, i, p) && IsOf(Held(p), v) && CanUpdateVm(s.db, v)
    ensures Follows(s.db.vms[v.uid], v)
  {
    Here(s, i);
    assert RowOk(FleetOf(s), v.uid);
  }

  lemma UpdateFollows(s: State, s': State, v: Vm)
    requires s'.db.vms == s.db.vms[v.uid := v] && v.uid in s.db.vms && Follows(s.db.vms[v.uid], v)
    ensures RowsFollow(s, s')
  {
  }

  lemma HeldClaim(p: Proc)
    requires p.ClaimLeasing?
    ensures Held(p) == Some(p.vm)
  {
  }

  lemma PutRows(s: State, i: Pid, p: Proc, e: Effect)
    requires Base(s) && AtPoint(s, i, p) && RowEffectOk(s.db, p, e) && (e.Puts? || e.Takes? || e.Commits?)
    ensures RowsFollow(s, Apply(s, i, e))
  {
    match e
    case Puts(q, v) =>
      HeldRow(s, i, p, v);
      ApplyPuts(s, i, q, v);
      UpdateFollows(s, Apply(s, i, e), v);
    case Takes(q, v) =>
      ApplyTakes(s, i, q, v);
      UpdateFollows(s, Apply(s, i, e), v);
    case Commits(q, v, l) =>
      HeldClaim(p);
      HeldRow(s, i, p, v);
      ApplyCommits(s, i, q, v, l);
      UpdateFollows(s, Apply(s, i, e), v);
  }

  lemma CreatedOwner(s: State, i: Pid, p: Proc)
    requires AtPoint(s, i, p) && (p.ProvCreated? || p.ProvOrphan?)
    ensures OwnedOrphan(s.births, s.procs, p.vm.uid)
  {
    Here(s, i);
  }

  lemma InsertRows(s: State, i: Pid, p: Proc, e: Effect)
    requires AtPoint(s, i, p) && RowEffectOk(s.db, p, e) && e.Inserts?
    ensures RowsFollow(s, Apply(s, i, e))
  {
    CreatedOwner(s, i, p);
    InsertsRow(s, i, e.q, e.v);
    ApplyPuts(s, i, e.q, e.v);
  }

  /** The record of a microVM is dropped only after flintlock confirmed the delete. */
  lemma ConfirmedGone(s: State, i: Pid, p: Proc)
    requires AtPoint(s, i, p) && p.Dropping?
    ensures p.vm.uid !in s.live
  {
    Here(s, i);
  }

  lemma DropRows(s: State, i: Pid, p: Proc, e: Effect)
    requires AtPoint(s, i, p) && RowEffectOk(s.db, p, e) && (e.Drops? || e.RemovesPool?)
    ensures RowsFollow(s, Apply(s, i, e))
  {
    if e.Drops? {
      ConfirmedGone(s, i, p);
      ApplyDrops(s, i, e.q, e.u);
    } else {
      ApplyRemovesPool(s, i, e.q, e.k);
    }
  }

  lemma EffectRows(s: State, i: Pid, p: Proc, e: Effect)
    requires Base(s) && AtPoint(s, i, p) && RowEffectOk(s.db, p, e)
    ensures RowsFollow(s, Apply(s, i, e))
  {
    if e.Puts? || e.Takes? || e.Commits? { PutRows(s, i, p, e); }
    else if e.Inserts? { InsertRows(s, i, p, e); }
    else if e.Drops? || e.RemovesPool? { DropRows(s, i, p, e); }
    else { RowsUntouched(s, i, e); }
  }

  // ---- microVMs and reservations ----

  lemma ReservedHost(s: State, i: Pid, p: Proc)
    requires AtPoint(s, i, p) && p.ProvReserved?
    ensures Occupied(s.db, p.host)
  {
    Here(s, i);
    assert p.pl in s.db.placements;
  }

  lemma EffectBirths(s: State, i: Pid, p: Proc, e: Effect)
    requires Base(s) && AtPoint(s, i, p) && YardEffectOk(s, p, e)
    ensures BirthsFollow(s, Apply(s, i, e))
  {
    hide ProcsOk, RowsOk, LeasesOk, ManagerOk, RemovePool, Reserver, Forget, HostsOk;
    if e.Bears? {
      ReservedHost(s, i, p);
      ApplyBears(s, i, e.q, e.u, e.pool, e.host, e.lost);
    } else {
      BirthsAfter(s, i, e);
    }
  }

  lemma EffectOrphans(s: State, i: Pid, p: Proc, e: Effect)
    requires AtPoint(s, i, p) && MakingOk(p, e) && YardEffectOk(s, p, e)
    ensures OrphansFollow(s, Apply(s, i, e))
  {
    CallAfter(s, i, e);
    BirthsAfter(s, i, e);
  }

  lemma EffectYard(s: State, i: Pid, p: Proc, e: Effect)
    requires YardEffectOk(s, p, e)
    ensures YardFollows(s, Apply(s, i, e))
  {
    PlacementsAfter(s, i, e);
  }

  // ---- leases ----

  lemma EffectLeases(s: State, i: Pid, p: Proc, e: Effect)
    requires Base(s) && LeaseEffectOk(s, p, e)
    ensures LeasesFollow(s, Apply(s, i, e))
  {
    hide Apply, RowsOk, ManagerOk, HostsOk, TombstonesOk;
    match e
    case Commits(q, v, l) => ApplyCommits(s, i, q, v, l);
    case Renews(q, l) =>
      assert LeaseOk(s.db.vms, BookOf(s), p.lease.id);
      assert MintOk(FleetOf(s), s.minted[p.lease.id], p.lease.id);
      ApplyRenews(s, i, q, l);
    case _ => BookAfter(s, i, e);
  }

  // ---- every action ----

  lemma RowsKeyed(s: State)
    requires Base(s)
    ensures Keyed(s.db.vms)
  {
    forall u | u in s.db.vms ensures s.db.vms[u].uid == u {
      assert RowOk(FleetOf(s), u);
    }
  }

  lemma StepAllowed(s: State, i: Pid, c: Choice)
    requires Inv(s) && i in s.procs
    ensures Allowed(s, s.procs[i], Plan(s, s.procs[i], c))
  {
    hide *;
    InvParts(s);
    RowsKeyed(s);
    PlanAllowed(s, s.procs[i], c);
  }

  lemma EffectFollows(s: State, i: Pid, p: Proc, e: Effect)
    requires Base(s) && AtPoint(s, i, p) && Allowed(s, p, e)
    ensures Guarantee(s, Apply(s, i, e))
  {
    EffectRows(s, i, p, e);
    EffectOrphans(s, i, p, e);
    EffectBirths(s, i, p, e);
    EffectYard(s, i, p, e);
    EffectLeases(s, i, p, e);
  }

  lemma StepFollows(s: State, i: Pid, c: Choice)
    requires Inv(s) && i in s.procs
    ensures Guarantee(s, Step(s, i, c))
  {
    hide Inv, Base, ProcsOk, Plan, Apply, Allowed, Guarantee;
    InvParts(s);
    StepAllowed(s, i, c);
    EffectFollows(s, i, s.procs[i], Plan(s, s.procs[i], c));
  }

  lemma RestartFollows(s: State)
    ensures Guarantee(s, RestartState(s))
  {
  }

  /** A call that has just begun owns nothing. */
  lemma BeginsShape(q: Proc)
    requires Begins(q)
    ensures Claimer(q).None? && Builder(q).None? && Unrecorded(q).None? && Reserver(q).None? && Pending(q).None?
  {
  }

  lemma CalmOrphans(s: State, s': State)
    requires s'.births == s.births && Joined(s.procs, s'.procs)
    ensures OrphansFollow(s, s')
  {
    hide Begins, Unrecorded;
    forall u | OwnedOrphan(s'.births, s'.procs, u) ensures OwnedOrphan(s.births, s.procs, u) {
      var i := s.births[u].maker;
      JoinedKeeps(s.procs, s'.procs, i);
      if i !in s.procs {
        BeginsShape(s'.procs[i]);
      }
    }
  }

  lemma CalmFollows(s: State, s': State)
    requires Calm(s, s')
    ensures Guarantee(s, s')
  {
    hide OwnedOrphan, OrphansFollow, Joined;
    CalmOrphans(s, s');
  }

  lemma NextFollows(s: State, a: Action)
    requires Inv(s)
    ensures Guarantee(s, Next(s, a))
  {
    hide *;
    if a.Advance? {
      NextAdvance(s, a.i, a.c);
      if a.i in s.procs { StepFollows(s, a.i, a.c); } else { StutterFollows(s); }
    } else if a.Restart? {
      NextRestart(s);
      RestartFollows(s);
    } else {
      EnvironmentIsCalm(s, a);
      CalmFollows(s, Next(s, a));
    }
  }
}
