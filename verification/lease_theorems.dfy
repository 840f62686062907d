/** Leases over whole runs: one lease per VM for life, lease rows and VM rows agree, expiry after the
    last heartbeat only. */
module LeaseTheorems {
  import opened Records
  import opened Transactions
  import opened Protocol
  import opened Invariant
  import opened Stability
  import opened Plans
  import opened Frames
  import opened Environment
  import opened Runs
  import opened Guarantees

  // ---- one lease per VM, in its whole life ----

  lemma OneLeaseEver(s: State, l: LeaseId, m: LeaseId)
    requires Base(s) && l in s.minted && m in s.minted && s.minted[l].vm == s.minted[m].vm
    ensures l == m
  {
    assert MintOk(FleetOf(s), s.minted[l], l);
    assert MintOk(FleetOf(s), s.minted[m], m);
  }

  lemma RowsAreMinted(s: State, l: LeaseId)
    requires Base(s) && l in s.db.leases
    ensures l in s.minted && s.minted[l] == s.db.leases[l] && s.db.leases[l].id == l
  {
    assert LeaseOk(s.db.vms, BookOf(s), l);
    assert MintOk(FleetOf(s), s.minted[l], l);
  }

  lemma {:induction false} BookKeptForGood(s: State, actions: seq<Action>)
    requires Inv(s)
    ensures BookKept(BookOf(s), BookOf(Run(s, actions)))
    decreases |actions|
  {
    hide Next, ProcsOk, Covered, RowsOk, LeasesOk, RowsFollow, OrphansFollow, ManagerOk;
    if actions != [] {
      NextKeeps(s, actions[0]);
      NextFollows(s, actions[0]);
      BookKeptForGood(Next(s, actions[0]), actions[1..]);
      KeptTransitively(BookOf(s), BookOf(Next(s, actions[0])), BookOf(Run(s, actions)));
    }
  }

  lemma KeptTransitively(a: Book, b: Book, c: Book)
    requires BookKept(a, b) && BookKept(b, c)
    ensures BookKept(a, c)
  {
  }

  /** However far apart, two lease rows that name the same VM are the same lease. */
  lemma OneLeaseForLife(before: seq<Action>, after: seq<Action>, l: LeaseId, m: LeaseId)
    requires
      var s := Run(Initial(), before);
      var s' := Run(s, after);
      l in s.db.leases && m in s'.db.leases && s.db.leases[l].vm == s'.db.leases[m].vm
    ensures l == m
  {
    hide Run, Base, ProcsOk, Covered;
    var s := Run(Initial(), before);
    var s' := Run(s, after);
    EveryRun(before);
    RunKeeps(s, after);
    BookKeptForGood(s, after);
    RowsAreMinted(s, l);
    RowsAreMinted(s', m);
    OneLeaseEver(s', l, m);
  }

  /** A lease that ended does not come back, and while it lasts it keeps its VM, pool and request. */
  lemma EndedStaysEnded(before: seq<Action>, after: seq<Action>, l: LeaseId)
    requires l in Run(Initial(), before).minted
    ensures
      var s := Run(Initial(), before);
      var s' := Run(s, after);
      && (l in s'.db.leases ==>
            && l in s.db.leases && s'.db.leases[l].vm == s.db.leases[l].vm
            && s'.db.leases[l].pool == s.db.leases[l].pool && s'.db.leases[l].request == s.db.leases[l].request)
  {
    hide Run, Base, ProcsOk, Covered;
    var s := Run(Initial(), before);
    var s' := Run(s, after);
    EveryRun(before);
    RunKeeps(s, after);
    BookKeptForGood(s, after);
    if l in s'.db.leases {
      RowsAreMinted(s', l);
      RowsAreMinted(s, l);
    }
  }

  /** A lease row and its VM row agree whenever both exist. */
  lemma LeaseAndVmAgree(actions: seq<Action>, l: LeaseId)
    requires l in Run(Initial(), actions).db.leases
    ensures
      var s := Run(Initial(), actions);
      var m := s.db.leases[l];
      m.vm in s.db.vms ==>
        && s.db.vms[m.vm].leaseId == Some(l) && s.db.vms[m.vm].pool == m.pool
        && (s.db.vms[m.vm].phase.Leased? || s.db.vms[m.vm].phase.Deleting?)
  {
    hide Run, ProcsOk, Covered, ManagerOk, HostsOk, TombstonesOk;
    var s := Run(Initial(), actions);
    EveryRun(actions);
    assert LeaseOk(s.db.vms, BookOf(s), l);
    assert MintOk(FleetOf(s), s.minted[l], l);
    if s.db.leases[l].vm in s.db.vms {
      assert RowOk(FleetOf(s), s.db.leases[l].vm);
    }
  }

  // ---- expiry and heartbeats ----

  /** No VM of the pool is leased, or being leased. */
  ghost predicate NoneInUse(db: Db, k: PoolKey) {
    forall u | u in db.vms && db.vms[u].pool == k :: !db.vms[u].phase.Leased? && !db.vms[u].phase.PreLeaseHookRunning?
  }

  lemma LeasesAfter(s: State, i: Pid, p: Proc, e: Effect, l: LeaseId)
    requires LeaseEffectOk(s, p, e) && RowEffectOk(s.db, p, e) && l in s.db.leases && l !in Apply(s, i, e).db.leases
    ensures
      || (p.ExpiryStart? && l == p.id && s.db.leases[l].expiresAt <= p.now)
      || ((p.ReleaseDropping? || p.Closing?) && l == p.lease.id)
      || (p.DelReady? && s.db.leases[l].pool == p.key && (p.force || NoneInUse(s.db, p.key)))
  {
    match e
    case Commits(q, v, m) => ApplyCommits(s, i, q, v, m);
    case Renews(q, m) => ApplyRenews(s, i, q, m);
    case _ => BookAfter(s, i, e);
  }

  lemma EnvironmentKeepsLeases(s: State, a: Action)
    requires !a.Advance?
    ensures Next(s, a).db.leases == s.db.leases
  {
    hide Next, Recover, Joined;
    if a.Restart? { NextRestart(s); RestartKeepsLeases(s); } else { EnvironmentIsCalm(s, a); }
  }

  lemma RestartKeepsLeases(s: State)
    ensures RestartState(s).db.leases == s.db.leases
  {
  }

  /** Every way a lease row can go. In particular a tick removes it only if its now is at or after
      the expiry time last committed, by the claim or by a heartbeat; and a DeletePool without force
      removes none while a VM of the pool is LEASED or has its pre-lease hooks running. */
  lemma WhyLeasesEnd(s: State, a: Action, l: LeaseId)
    requires Inv(s) && l in s.db.leases && l !in Next(s, a).db.leases
    ensures a.Advance? && a.i in s.procs
    ensures
      var p := s.procs[a.i];
      || (p.ExpiryStart? && l == p.id && s.db.leases[l].expiresAt <= p.now)
      || ((p.ReleaseDropping? || p.Closing?) && l == p.lease.id)
      || (p.DelReady? && s.db.leases[l].pool == p.key &&
          (p.force || forall u | u in s.db.vms && s.db.vms[u].pool == p.key ::
             !s.db.vms[u].phase.Leased? && !s.db.vms[u].phase.PreLeaseHookRunning?))
  {
    hide Plan, ProcsOk, RowEffectOk, Covered, CountRows, Apply, StartDrain;
    if !a.Advance? {
      EnvironmentKeepsLeases(s, a);
    }
    RowsKeyed(s);
    PlanAllowed(s, s.procs[a.i], a.c);
    LeasesAfter(s, a.i, s.procs[a.i], Plan(s, s.procs[a.i], a.c), l);
  }

  lemma LeaseRowsAfter(s: State, i: Pid, p: Proc, e: Effect, l: LeaseId)
    requires LeaseEffectOk(s, p, e) && l in s.db.leases && l in s.minted && l in Apply(s, i, e).db.leases
    requires forall m | m in s.db.leases :: s.db.leases[m].id == m
    ensures
      || Apply(s, i, e).db.leases[l] == s.db.leases[l]
      || (p.BeatWriting? && l == p.lease.id && e.Renews? && Apply(s, i, e).db.leases[l] == e.l)
  {
    match e
    case Commits(q, v, m) => ApplyCommits(s, i, q, v, m);
    case Renews(q, m) => ApplyRenews(s, i, q, m);
    case _ => BookAfter(s, i, e);
  }

  lemma RenewalIsHeartbeat(s: State, p: Proc, c: Choice)
    requires p.BeatWriting? && Plan(s, p, c).Renews?
    ensures c.ok && p.lease.id in s.db.leases
    ensures Plan(s, p, c).l == Renewed(s.db.leases[p.lease.id], c.now, c.now + p.threshold)
  {
    assert Plan(s, p, c) == PlanBeatWriting(s, p, c);
  }

  lemma LeasesKeyed(s: State)
    requires Base(s)
    ensures forall m | m in s.db.leases :: s.db.leases[m].id == m && m in s.minted
  {
    forall m | m in s.db.leases ensures s.db.leases[m].id == m && m in s.minted {
      RowsAreMinted(s, m);
    }
  }

  lemma StepRewrites(s: State, i: Pid, c: Choice, l: LeaseId)
    requires Inv(s) && i in s.procs && l in s.db.leases && l in Step(s, i, c).db.leases
    requires Step(s, i, c).db.leases[l] != s.db.leases[l]
    ensures s.procs[i].BeatWriting? && s.procs[i].lease.id == l && c.ok
    ensures Step(s, i, c).db.leases[l] == Renewed(s.db.leases[l], c.now, c.now + s.procs[i].threshold)
  {
    hide Plan, ProcsOk, Covered, Apply, RowsOk, LeasesOk, LeaseEffectOk;
    var p := s.procs[i];
    RowsKeyed(s);
    LeasesKeyed(s);
    PlanAllowed(s, p, c);
    LeaseRowsAfter(s, i, p, Plan(s, p, c), l);
    RenewalIsHeartbeat(s, p, c);
  }

  /** The expiry time in a lease row is the one last committed: only a heartbeat rewrites the row, with
      the time of the write and the time threshold after it, and keeps everything else. */
  lemma OnlyHeartbeatsRewrite(s: State, a: Action, l: LeaseId)
    requires Inv(s) && l in s.db.leases && l in Next(s, a).db.leases && Next(s, a).db.leases[l] != s.db.leases[l]
    ensures a.Advance? && a.i in s.procs && s.procs[a.i].BeatWriting? && s.procs[a.i].lease.id == l && a.c.ok
    ensures
      var m, m' := s.db.leases[l], Next(s, a).db.leases[l];
      && m'.heartbeatAt == a.c.now && m'.expiresAt == a.c.now + s.procs[a.i].threshold
      && m'.id == m.id && m'.vm == m.vm && m'.pool == m.pool && m'.claimedAt == m.claimedAt && m'.request == m.request
  {
    hide Step, ProcsOk, Covered, CountRows, StartDrain, RestartState, MarkUnleased, RowsOk;
    if !a.Advance? {
      EnvironmentKeepsLeases(s, a);
    }
    NextAdvance(s, a.i, a.c);
    StepRewrites(s, a.i, a.c, l);
  }

  /** The VM that an expiry goes on to delete has no live lease. */
  lemma ExpiredHasNoLease(actions: seq<Action>, i: Pid, u: Uid)
    requires i in Run(Initial(), actions).procs
    requires
      var p := Run(Initial(), actions).procs[i];
      || ((p.ExpiryTaken? || p.ExpiryRead? || p.ExpiryMarking?) && p.lease.vm == u)
      || ((p.Asking? || p.Dropping?) && p.job.ExpiryJob? && p.vm.uid == u)
    ensures forall l | l in Run(Initial(), actions).db.leases :: Run(Initial(), actions).db.leases[l].vm != u
  {
    var s := Run(Initial(), actions);
    EveryRun(actions);
    ExpiryFacts(s, i, u);
    NoLeaseAfter(s, u);
  }

  lemma ExpiryFacts(s: State, i: Pid, u: Uid)
    requires ProcsOk(s) && i in s.procs
    requires
      var p := s.procs[i];
      || ((p.ExpiryTaken? || p.ExpiryRead? || p.ExpiryMarking?) && p.lease.vm == u)
      || ((p.Asking? || p.Dropping?) && p.job.ExpiryJob? && p.vm.uid == u)
    ensures LeaseEnded(BookOf(s), u)
  {
    Here(s, i);
    var p := s.procs[i];
    if p.ExpiryTaken? || p.ExpiryRead? || p.ExpiryMarking? {
      assert p.lease.id in s.minted && p.lease.id !in s.db.leases && s.minted[p.lease.id].vm == u;
    }
  }

  lemma NoLeaseAfter(s: State, u: Uid)
    requires Base(s) && LeaseEnded(BookOf(s), u)
    ensures forall l | l in s.db.leases :: s.db.leases[l].vm != u
  {
    var m :| m in s.minted && m !in s.db.leases && s.minted[m].vm == u;
    forall l | l in s.db.leases ensures s.db.leases[l].vm != u {
      RowsAreMinted(s, l);
      if s.db.leases[l].vm == u {
        OneLeaseEver(s, l, m);
      }
    }
  }
}
