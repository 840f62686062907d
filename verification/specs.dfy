/** Which pool spec a call goes by, over every run: a claim and a heartbeat by a pool row they read
    after they began, a Provision call by the spec of its reconciler. */
module Specs {
  import opened Records
  import opened Transactions
  import opened Protocol
  import opened Invariant
  import opened Stability
  import opened Plans
  import opened Frames
  import opened Staffing
  import opened Replies
  import opened Environment
  import opened Runs
  import opened Outcomes
  import opened Fates
  import opened Takedowns

  // ---- read from the pool row ----

  ghost predicate PoolThen(s: State, i: Pid, k: PoolKey, spec: PoolSpec) {
    i in s.procs && k in s.db.pools && s.db.pools[k] == spec
  }

  /** At some moment of the run, after call i began, the row of pool k was spec. */
  ghost predicate WasRead(actions: seq<Action>, i: Pid, k: PoolKey, spec: PoolSpec) {
    exists n | 0 <= n <= |actions| :: PoolThen(Run(Initial(), actions[..n]), i, k, spec)
  }

  ghost predicate GoesBy(actions: seq<Action>, i: Pid, p: Proc) {
    && (ClaimTerms(p).Some? ==> WasRead(actions, i, ClaimTerms(p).value.0, ClaimTerms(p).value.1))
    && (p.BeatWriting? ==>
          exists spec: PoolSpec :: spec.expiryThreshold == p.threshold && WasRead(actions, i, p.lease.pool, spec))
    && (p.Failing? && p.who.ByClaim? ==>
          exists spec: PoolSpec :: spec.policy == p.policy && WasRead(actions, i, p.vm.pool, spec))
  }

  lemma ReadNow(actions: seq<Action>, i: Pid, k: PoolKey, spec: PoolSpec)
    requires PoolThen(Run(Initial(), actions), i, k, spec)
    ensures WasRead(actions, i, k, spec)
  {
    hide Run, PoolThen;
    assert actions[..|actions|] == actions;
  }

  lemma ReadBefore(actions: seq<Action>, n: nat, i: Pid, k: PoolKey, spec: PoolSpec)
    requires n <= |actions| && WasRead(actions[..n], i, k, spec)
    ensures WasRead(actions, i, k, spec)
  {
    hide Run, PoolThen;
    var m :| 0 <= m <= n && PoolThen(Run(Initial(), actions[..n][..m]), i, k, spec);
    assert actions[..n][..m] == actions[..m];
  }

  lemma WentBy(actions: seq<Action>, n: nat, i: Pid, p: Proc)
    requires n <= |actions| && GoesBy(actions[..n], i, p)
    ensures GoesBy(actions, i, p)
  {
    hide WasRead, ClaimTerms;
    if ClaimTerms(p).Some? {
      ReadBefore(actions, n, i, ClaimTerms(p).value.0, ClaimTerms(p).value.1);
    }
    if p.BeatWriting? {
      var spec: PoolSpec :| spec.expiryThreshold == p.threshold && WasRead(actions[..n], i, p.lease.pool, spec);
      ReadBefore(actions, n, i, p.lease.pool, spec);
    }
    if p.Failing? && p.who.ByClaim? {
      var spec: PoolSpec :| spec.policy == p.policy && WasRead(actions[..n], i, p.vm.pool, spec);
      ReadBefore(actions, n, i, p.vm.pool, spec);
    }
  }

  /** The VM a claim gives up on is of the pool the claim was for. */
  lemma FailsOwnPool(s: State, i: Pid, q: Proc)
    requires ProcsOk(s) && i in s.procs && ClaimTerms(s.procs[i]).Some?
    requires q.Failing? && q.who.ByClaim? && Claimer(q).Some? && IsOf(Claimer(s.procs[i]), Claimer(q).value)
    ensures q.vm.pool == ClaimTerms(s.procs[i]).value.0
  {
    hide FleetSideOk, YardSideOk, OfficeSideOk;
    Here(s, i);
  }

  lemma FailingClaimer(q: Proc)
    requires q.Failing? && q.who.ByClaim?
    ensures Claimer(q).Some?
  {
  }

  /** The call's own step reads the row now, or keeps what it read. */
  lemma StepGoesBy(before: seq<Action>, i: Pid, c: Choice, q: Proc)
    requires i in Run(Initial(), before).procs && GoesBy(before, i, Run(Initial(), before).procs[i])
    requires var s := Run(Initial(), before); q == After(s.procs[i], Plan(s, s.procs[i], c))
    ensures GoesBy(before, i, q)
  {
    hide Inv, Run, Plan, WasRead, ClaimTerms, BuildSpec, Claimer, Builder, Condemns, WritesBack, Boss, IsMaking;
    var s := Run(Initial(), before);
    var p := s.procs[i];
    EveryRun(before);
    InvParts(s);
    PlanReplied(s, p, c);
    PlanStaffed(s, p, c);
    forall k | k in s.db.pools ensures WasRead(before, i, k, s.db.pools[k]) {
      ReadNow(before, i, k, s.db.pools[k]);
    }
    if q.Failing? && q.who.ByClaim? && q != p {
      FailingClaimer(q);
      FailsOwnPool(s, i, q);
    }
  }

  lemma BegunGoesByNothing(q: Proc)
    requires Begins(q) || q.Done?
    ensures ClaimTerms(q).None? && !q.BeatWriting? && !q.Failing?
  {
  }

  /** Every other action leaves the call where it was, or has just begun it, or ends it in a crash. */
  lemma OtherActions(s: State, a: Action, i: Pid)
    requires i in Next(s, a).procs && !(a.Advance? && a.i == i && i in s.procs)
    ensures
      || (i in s.procs && Next(s, a).procs[i] == s.procs[i])
      || (var q := Next(s, a).procs[i]; ClaimTerms(q).None? && !q.BeatWriting? && !q.Failing?)
  {
    hide Next, Step, Plan, Begins, Joined, CalmTables, ClaimTerms;
    if a.Advance? {
      NextAdvance(s, a.i, a.c);
      if a.i in s.procs { OtherStepSpares(s, a.i, a.c, i); }
    } else if a.Restart? {
      NextRestart(s);
      BegunGoesByNothing(Next(s, a).procs[i]);
    } else {
      EnvironmentIsCalm(s, a);
      JoinedKeeps(s.procs, Next(s, a).procs, i);
      if i !in s.procs {
        BegunGoesByNothing(Next(s, a).procs[i]);
      }
    }
  }

  lemma {:induction false} SpecsRead(actions: seq<Action>, i: Pid)
    requires i in Run(Initial(), actions).procs
    ensures GoesBy(actions, i, Run(Initial(), actions).procs[i])
    decreases |actions|
  {
    hide Run, Next, Step, Plan, After, WasRead, ClaimTerms;
    if actions == [] {
      RunNone(Initial());
    } else {
      var n := |actions| - 1;
      var before, a := actions[..n], actions[n];
      var s := Run(Initial(), before);
      RunLast(Initial(), actions);
      if a.Advance? && a.i == i && i in s.procs {
        SpecsRead(before, i);
        NextAdvance(s, i, a.c);
        OthersStay(s, i, a.c);
        StepGoesBy(before, i, a.c, Next(s, a).procs[i]);
        WentBy(actions, n, i, Next(s, a).procs[i]);
      } else {
        OtherActions(s, a, i);
        if i in s.procs && Next(s, a).procs[i] == s.procs[i] {
          SpecsRead(before, i);
          WentBy(actions, n, i, s.procs[i]);
        }
      }
    }
  }

  /** The terms a claim is about to commit its lease on, its expiry threshold among them, are those of
      the pool asked for, as its row was at some moment after the call began. */
  lemma ClaimTermsWereRead(actions: seq<Action>, i: Pid)
    requires i in Run(Initial(), actions).procs && Run(Initial(), actions).procs[i].ClaimLeasing?
    ensures
      var p := Run(Initial(), actions).procs[i];
      exists n | 0 <= n <= |actions| :: PoolThen(Run(Initial(), actions[..n]), i, p.pool, p.spec)
  {
    hide Run, PoolThen;
    SpecsRead(actions, i);
  }

  /** The threshold a heartbeat is about to renew by is that of the lease's pool, read after it began. */
  lemma ThresholdWasRead(actions: seq<Action>, i: Pid)
    requires i in Run(Initial(), actions).procs && Run(Initial(), actions).procs[i].BeatWriting?
    ensures
      var p := Run(Initial(), actions).procs[i];
      exists spec: PoolSpec :: spec.expiryThreshold == p.threshold &&
        exists n | 0 <= n <= |actions| :: PoolThen(Run(Initial(), actions[..n]), i, p.lease.pool, spec)
  {
    hide Run, PoolThen;
    SpecsRead(actions, i);
    var p := Run(Initial(), actions).procs[i];
    var spec: PoolSpec :| spec.expiryThreshold == p.threshold && WasRead(actions, i, p.lease.pool, spec);
  }

  // ---- given by the reconciler ----

  /** The spec and the failure policy of a Provision call are those of the reconciler it runs under. */
  ghost predicate BuildsBy(m: Mgr, p: Proc) {
    Boss(p).Some? ==>
      && Boss(p).value in m.recons
      && (BuildSpec(p).Some? ==> BuildSpec(p).value == m.recons[Boss(p).value].spec)
      && (p.Failing? ==> p.policy == m.recons[Boss(p).value].spec.policy)
  }

  ghost predicate AllBuildBy(s: State) {
    forall i | i in s.procs :: BuildsBy(s.mgr, s.procs[i])
  }

  /** No reconciler changes its spec. */
  ghost predicate SpecsKept(m: Mgr, m': Mgr) {
    forall r | r in m.recons :: r in m'.recons && m'.recons[r].spec == m.recons[r].spec
  }

  lemma BuildsStill(m: Mgr, m': Mgr, p: Proc)
    requires BuildsBy(m, p) && SpecsKept(m, m')
    ensures BuildsBy(m', p)
  {
    if Boss(p).Some? {
      var r := Boss(p).value;
      assert m'.recons[r].spec == m.recons[r].spec;
    }
  }

  lemma StepKeepsSpecs(s: State, i: Pid, c: Choice)
    requires i in s.procs
    ensures SpecsKept(s.mgr, Step(s, i, c).mgr)
  {
    hide Plan, Apply, Condemns, TakesUp, WritesBack, Boss;
    PlanStaffed(s, s.procs[i], c);
    ManagerAfter(s, i, Plan(s, s.procs[i], c));
  }

  lemma FailingBoss(q: Proc)
    requires q.Failing? && Boss(q).Some?
    ensures !q.who.ByClaim?
  {
  }

  lemma StepBuildsBy(s: State, i: Pid, c: Choice)
    requires i in s.procs && BuildsBy(s.mgr, s.procs[i])
    ensures BuildsBy(s.mgr, After(s.procs[i], Plan(s, s.procs[i], c)))
  {
    hide Plan, Condemns, TakesUp, WritesBack, Boss, BuildSpec, ClaimTerms, IsMaking, After;
    var p := s.procs[i];
    var q := After(p, Plan(s, p, c));
    PlanStaffed(s, p, c);
    PlanReplied(s, p, c);
    if q.Failing? && Boss(q).Some? {
      FailingBoss(q);
    }
  }

  lemma LoopKeepsSpecs(m: Mgr, r: Rid, loop: Loop)
    requires r in m.recons
    ensures SpecsKept(m, SetLoop(m, r, loop)) && SpecsKept(m, Finished(m, r)) && SpecsKept(m, Leave(m, r))
  {
  }

  lemma SameSpecs(m: Mgr)
    ensures SpecsKept(m, m)
  {
  }

  lemma ReconcilersKeepSpecs(s: State, a: Action)
    requires a.ReconList? || a.ReconCount? || a.ReconCap? || a.ReconRest? || a.ReconExit? || a.ReconLeave?
    ensures SpecsKept(s.mgr, Next(s, a).mgr)
  {
    hide Next, SpecsKept, SetLoop, Finished, Leave, Busy, PlanLoop, VmsOfPool;
    var r := a.r;
    SameSpecs(s.mgr);
    if r in s.mgr.recons {
      var g := s.mgr.recons[r];
      LoopKeepsSpecs(s.mgr, r, Idle);
      LoopKeepsSpecs(s.mgr, r, Spawning(1));
      if a.ReconList? {
        LoopKeepsSpecs(s.mgr, r, Listed(a.hook, VmsOfPool(s.db, g.spec.key)));
      }
      if g.loop.Listed? {
        LoopKeepsSpecs(s.mgr, r, PlanLoop(s, g.spec, g.loop.hook, g.loop.vms));
      }
    }
    match a
    case ReconList(_, hook) => NextReconList(s, r, hook);
    case ReconCount(_) => NextReconCount(s, r);
    case ReconCap(_) => NextReconCap(s, r);
    case ReconRest(_) => NextReconRest(s, r);
    case ReconExit(_) => NextReconExit(s, r);
    case ReconLeave(_) => NextReconLeave(s, r);
  }

  /** A Provision call begins with its reconciler's spec. */
  lemma SpawnGoesBy(s: State, r: Rid, i: Pid, j: Pid)
    ensures SpecsKept(s.mgr, Next(s, ReconSpawn(r, i)).mgr)
    ensures j !in s.procs && j in Next(s, ReconSpawn(r, i)).procs ==>
              BuildsBy(Next(s, ReconSpawn(r, i)).mgr, Next(s, ReconSpawn(r, i)).procs[j])
  {
    hide Next;
    NextReconSpawn(s, r, i);
  }

  lemma LoopsKeepSpecs(s: State, a: Action)
    requires !a.Advance? && !a.Restart?
    ensures SpecsKept(s.mgr, Next(s, a).mgr)
  {
    hide *;
    SameSpecs(s.mgr);
    if a.Call? {
      NextCall(s, a.i, a.p);
      CallKeepsManager(s, a.i, a.p);
    } else if a.Sweep? {
      NextSweep(s, a.i, a.u, a.finish);
      SweepKeepsManager(s, a.i, a.u, a.finish);
    } else if a.ReconSpawn? {
      SpawnGoesBy(s, a.r, a.i, a.i);
    } else if a.Seed? {
      NextSeed(s, a.k, a.r);
      SeedKeepsSpecs(s, a.k, a.r);
    } else if a.SetCordoned? || a.Drain? || a.MarkDraining? || a.AddHost? || a.RemoveHost? || a.Note? {
      TablesAreCalm(s, a);
    } else {
      ReconcilersKeepSpecs(s, a);
    }
  }

  lemma CallKeepsManager(s: State, i: Pid, p: Proc)
    ensures StartCall(s, i, p).mgr == s.mgr
  {
  }

  lemma SweepKeepsManager(s: State, i: Pid, u: Uid, finish: bool)
    ensures StartSweep(s, i, u, finish).mgr == s.mgr
  {
  }

  lemma SeedKeepsSpecs(s: State, k: PoolKey, r: Rid)
    ensures SpecsKept(s.mgr, SeedPool(s, k, r))
  {
  }

  lemma BuildsNothing(m: Mgr, q: Proc)
    requires IsEntry(q) || (q.Asking? && q.job.SweepJob?)
    ensures BuildsBy(m, q)
  {
  }

  lemma CallBuildsNothing(s: State, i: Pid, p: Proc, j: Pid)
    requires j !in s.procs && j in StartCall(s, i, p).procs
    ensures BuildsBy(StartCall(s, i, p).mgr, StartCall(s, i, p).procs[j])
  {
    hide IsEntry, BuildsBy;
    BuildsNothing(s.mgr, p);
  }

  lemma SweepBuildsNothing(s: State, i: Pid, u: Uid, finish: bool, j: Pid)
    requires j !in s.procs && j in StartSweep(s, i, u, finish).procs
    ensures BuildsBy(StartSweep(s, i, u, finish).mgr, StartSweep(s, i, u, finish).procs[j])
  {
    hide IsEntry, BuildsBy;
    BuildsNothing(s.mgr, StartSweep(s, i, u, finish).procs[j]);
  }

  lemma BegunBuildsBy(s: State, a: Action, i: Pid)
    requires !a.Advance? && !a.Restart? && i !in s.procs && i in Next(s, a).procs
    ensures BuildsBy(Next(s, a).mgr, Next(s, a).procs[i])
  {
    hide *;
    if a.Call? {
      NextCall(s, a.i, a.p);
      CallBuildsNothing(s, a.i, a.p, i);
    } else if a.Sweep? {
      NextSweep(s, a.i, a.u, a.finish);
      SweepBuildsNothing(s, a.i, a.u, a.finish, i);
    } else if a.ReconSpawn? {
      SpawnGoesBy(s, a.r, a.i, i);
    } else {
      SameCalls(s, a);
    }
  }

  lemma NextBuildsBy(s: State, a: Action, i: Pid)
    requires AllBuildBy(s) && i in Next(s, a).procs
    ensures BuildsBy(Next(s, a).mgr, Next(s, a).procs[i])
  {
    hide Next, Step, Plan, After, BuildsBy, SpecsKept, RestartState;
    if a.Advance? {
      NextAdvance(s, a.i, a.c);
      if a.i in s.procs {
        StepKeepsSpecs(s, a.i, a.c);
        StepBuildsBy(s, a.i, a.c);
        OthersStay(s, a.i, a.c);
        OnlyItself(s, a.i, a.c);
        BuildsStill(s.mgr, Next(s, a).mgr, Next(s, a).procs[i]);
      }
    } else if a.Restart? {
      NextRestart(s);
      CrashBuildsBy(s, i);
    } else {
      if i in s.procs {
        CallsStay(s, a, i);
        LoopsKeepSpecs(s, a);
        BuildsStill(s.mgr, Next(s, a).mgr, s.procs[i]);
      } else {
        BegunBuildsBy(s, a, i);
      }
    }
  }

  lemma CrashBuildsBy(s: State, i: Pid)
    requires i in RestartState(s).procs
    ensures BuildsBy(RestartState(s).mgr, RestartState(s).procs[i])
  {
  }

  lemma {:induction false} ProvisionsGoBySpec(actions: seq<Action>)
    ensures AllBuildBy(Run(Initial(), actions))
    decreases |actions|
  {
    hide Run, Next, BuildsBy;
    if actions == [] {
      RunNone(Initial());
    } else {
      var n := |actions| - 1;
      var s := Run(Initial(), actions[..n]);
      RunLast(Initial(), actions);
      ProvisionsGoBySpec(actions[..n]);
      var s' := Next(s, actions[n]);
      forall i | i in s'.procs ensures BuildsBy(s'.mgr, s'.procs[i]) {
        NextBuildsBy(s, actions[n], i);
      }
    }
  }
}
