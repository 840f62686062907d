/** VM rows over whole runs: DELETING is final, a drained VM never comes back, and a deleted pool
    leaves only tombstones. */
module RowTheorems {
  import opened Records
  import opened Transactions
  import opened Protocol
  import opened Invariant
  import opened Runs
  import opened Guarantees
  import opened HostTheorems

  // ---- DELETING is final ----

  /** A VM that is DELETING or gone, and that no Provision call is about to record. */
  ghost predicate Retired(s: State, u: Uid) {
    && u in s.births && !OwnedOrphan(s.births, s.procs, u)
    && (u in s.db.vms ==> s.db.vms[u].phase.Deleting?)
  }

  lemma RetiredStays(s: State, a: Action, u: Uid)
    requires Inv(s) && Retired(s, u)
    ensures Retired(Next(s, a), u)
  {
    hide Next, Inv, OwnedOrphan, LeasesFollow, YardFollows;
    NextFollows(s, a);
  }

  lemma {:induction false} RetiredForGood(s: State, actions: seq<Action>, u: Uid)
    requires Inv(s) && Retired(s, u)
    ensures Retired(Run(s, actions), u)
    decreases |actions|
  {
    hide Next, Inv, Retired;
    if actions != [] {
      NextKeeps(s, actions[0]);
      RetiredStays(s, actions[0], u);
      RetiredForGood(Next(s, actions[0]), actions[1..], u);
    }
  }

  lemma DeletingRetires(s: State, u: Uid)
    requires Inv(s) && u in s.db.vms && s.db.vms[u].phase.Deleting?
    ensures Retired(s, u)
  {
    assert RowOk(FleetOf(s), u);
    if OwnedOrphan(s.births, s.procs, u) {
      OrphanHeld(s, u);
    }
  }

  /** Whatever stale records are written back, a DELETING row stays DELETING until it goes, and
      its uid never has a row again after that. */
  lemma DeletingIsFinal(before: seq<Action>, after: seq<Action>, u: Uid)
    requires var s := Run(Initial(), before); u in s.db.vms && s.db.vms[u].phase.Deleting?
    ensures var s' := Run(Run(Initial(), before), after); u in s'.db.vms ==> s'.db.vms[u].phase.Deleting?
  {
    EveryRun(before);
    DeletingRetires(Run(Initial(), before), u);
    RetiredForGood(Run(Initial(), before), after, u);
  }

  lemma GoneStaysGone(before: seq<Action>, middle: seq<Action>, after: seq<Action>, u: Uid)
    requires var s := Run(Initial(), before); u in s.db.vms && s.db.vms[u].phase.Deleting?
    requires u !in Run(Run(Initial(), before), middle).db.vms
    ensures u !in Run(Run(Run(Initial(), before), middle), after).db.vms
  {
    hide *;
    var s1 := Run(Run(Initial(), before), middle);
    EveryRun(before);
    DeletingRetires(Run(Initial(), before), u);
    RetiredForGood(Run(Initial(), before), middle, u);
    RunKeeps(Run(Initial(), before), middle);
    AbsentForGood(s1, after, u);
  }

  lemma {:induction false} AbsentForGood(s: State, actions: seq<Action>, u: Uid)
    requires Inv(s) && Retired(s, u) && u !in s.db.vms
    ensures u !in Run(s, actions).db.vms
    decreases |actions|
  {
    hide Next, ProcsOk, Covered, Base, OrphansFollow, OwnedOrphan, LeasesFollow, BirthsFollow;
    if actions != [] {
      NextKeeps(s, actions[0]);
      NextFollows(s, actions[0]);
      RetiredStays(s, actions[0], u);
      AbsentForGood(Next(s, actions[0]), actions[1..], u);
    }
  }

  // ---- drains ----

  lemma DrainMarks(s: State, h: HostName, reason: Option<string>, now: Time, u: Uid)
    requires h in s.db.hosts && u in s.db.vms && s.db.vms[u].host == h
    requires !s.db.vms[u].phase.Leased? && !s.db.vms[u].phase.PreLeaseHookRunning?
    ensures var s' := Next(s, Drain(h, reason, now)); u in s'.db.vms && s'.db.vms[u].phase.Deleting?
  {
  }

  /** A VM a drain marked is never AVAILABLE or leased again. */
  lemma DrainedNeverReturns(before: seq<Action>, h: HostName, reason: Option<string>, now: Time, after: seq<Action>,
    u: Uid)
    requires
      var s := Run(Initial(), before);
      && h in s.db.hosts && u in s.db.vms && s.db.vms[u].host == h
      && !s.db.vms[u].phase.Leased? && !s.db.vms[u].phase.PreLeaseHookRunning?
    ensures
      var s' := Run(Next(Run(Initial(), before), Drain(h, reason, now)), after);
      u in s'.db.vms ==> s'.db.vms[u].phase.Deleting?
  {
    var s := Run(Initial(), before);
    EveryRun(before);
    DrainMarks(s, h, reason, now, u);
    NextKeeps(s, Drain(h, reason, now));
    DeletingRetires(Next(s, Drain(h, reason, now)), u);
    RetiredForGood(Next(s, Drain(h, reason, now)), after, u);
  }

  /** Draining again refreshes nothing: the first times stay, and so does a reason not given anew;
      the second call marks no row the first did not. */
  lemma DrainTwice(db: Db, h: HostName, reason: Option<string>, now: Time, again: Option<string>, later: Time)
    requires h in db.hosts
    ensures
      var once := DrainHost(db, h, reason, now);
      var twice := DrainHost(once, h, again, later);
      && twice.hosts[h].cordonedAt == once.hosts[h].cordonedAt && twice.hosts[h].drainingAt == once.hosts[h].drainingAt
      && (again.None? ==> twice == once)
      && twice.vms == once.vms
  {
    var once := DrainHost(db, h, reason, now);
    var twice := DrainHost(once, h, again, later);
    assert forall u | u in once.vms && once.vms[u].host == h :: !Unleased(once.vms[u]);
    assert twice.vms == once.vms;
    if again.None? {
      assert twice.hosts == once.hosts;
    }
  }

  // ---- tombstones ----

  /** A pool that does not exist has only DELETING rows and no lease. */
  lemma TombstonesComplete(actions: seq<Action>, k: PoolKey)
    requires k !in Run(Initial(), actions).db.pools
    ensures
      var s := Run(Initial(), actions);
      && (forall u | u in s.db.vms && s.db.vms[u].pool == k :: s.db.vms[u].phase.Deleting?)
      && (forall l | l in s.db.leases :: s.db.leases[l].pool != k)
      && (forall r | Alive(s.mgr, r) :: s.mgr.recons[r].spec.key != k)
  {
    hide Run, ProcsOk, Covered, RowsOk, LeasesOk, HostsOk, MintsOk;
    EveryRun(actions);
  }

  lemma NoNewTombstone(s: State, a: Action, k: PoolKey)
    requires Inv(s) && k !in s.db.pools
    ensures forall u | u in Next(s, a).db.vms && Next(s, a).db.vms[u].pool == k ::
              u in s.db.vms && s.db.vms[u].pool == k
  {
    hide Next, ProcsOk, ClaimsCovered, LeasesOk, BuildsCovered, LiveCovered, OrphansFollow, LeasesFollow;
    var s' := Next(s, a);
    NextKeeps(s, a);
    NextFollows(s, a);
    forall u | u in s'.db.vms && s'.db.vms[u].pool == k ensures u in s.db.vms && s.db.vms[u].pool == k {
      assert RowOk(FleetOf(s'), u);
      if u !in s.db.vms {
        OrphanHeld(s, u);
      }
    }
  }

  ghost predicate AbsentThroughout(s: State, actions: seq<Action>, k: PoolKey)
    decreases |actions|
  {
    k !in s.db.pools && (actions != [] ==> AbsentThroughout(Next(s, actions[0]), actions[1..], k))
  }

  /** While a pool name stays unused, its tombstones only ever go: no claim, yield, release or
      Provision still in flight when the pool was deleted can add a row for it. */
  lemma {:induction false} TombstonesOnlyGo(s: State, actions: seq<Action>, k: PoolKey)
    requires Inv(s) && AbsentThroughout(s, actions, k)
    ensures
      var s' := Run(s, actions);
      forall u | u in s'.db.vms && s'.db.vms[u].pool == k :: u in s.db.vms && s.db.vms[u].pool == k
        && s'.db.vms[u].phase.Deleting?
    decreases |actions|
  {
    hide Next, ProcsOk, Covered, RowsOk, LeasesOk, ManagerOk, HostsOk, MintsOk;
    if actions != [] {
      NextKeeps(s, actions[0]);
      NoNewTombstone(s, actions[0], k);
      TombstonesOnlyGo(Next(s, actions[0]), actions[1..], k);
    }
  }
}
