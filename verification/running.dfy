/** What the rows say runs does run: over every run, a VM that is AVAILABLE, QUARANTINED, or under a
    lease is a microVM flintlock runs, on the host in the row. */
module Running {
  import opened Records
  import opened Transactions
  import opened Protocol
  import opened Invariant
  import opened Stability
  import opened Plans
  import opened Frames
  import opened Staffing
  import opened Replies
  import opened Environment
  import opened Obligations
  import opened Runs
  import opened Guarantees
  import opened Outcomes
  import opened Fates
  import opened Lifecycle
  import opened Takedowns

  ghost predicate HasIt(p: Proc, u: Uid) {
    Owns(Claimer(p), u) || Owns(Builder(p), u)
  }

  predicate Underway(v: Vm) {
    v.phase.Leased? || v.phase.PreLeaseHookRunning? || v.phase.Provisioning? || v.phase.CreateHookRunning?
  }

  /** Never leased, still in the phase in which its call gave up on it, and that call, if it still has
      the VM, is only deleting it. */
  ghost predicate Forsaken(s: State, u: Uid)
    requires u in s.db.vms
  {
    && u !in s.leaseOf && Underway(s.db.vms[u])
    && (forall j | j in s.procs && HasIt(s.procs[j], u) :: s.procs[j].Asking? || s.procs[j].Dropping?)
  }

  /** A row without a microVM is DELETING or forsaken. */
  ghost predicate Backed(s: State) {
    forall u | u in s.db.vms && u !in s.live :: s.db.vms[u].phase.Deleting? || Forsaken(s, u)
  }

  /** A microVM about to be recorded runs. */
  ghost predicate Fresh(s: State) {
    forall i | i in s.procs && Unrecorded(s.procs[i]).Some? :: Unrecorded(s.procs[i]).value.uid in s.live
  }

  // ---- who else could have it ----

  /** Nobody else deletes a microVM that its Provision call has not recorded. */
  lemma OrphanSafe(s: State, i: Pid, j: Pid, u: Uid)
    requires Inv(s) && TakedownsOk(s) && i in s.procs && j in s.procs && i != j
    requires Owns(Unrecorded(s.procs[j]), u) && s.procs[i].Asking?
    ensures s.procs[i].vm.uid != u
  {
    hide Base, Covered, Known, YardSideOk, BookSideOk, OfficeSideOk, Held, Removing, Claimer, Builder;
    Here(s, i);
    Here(s, j);
    if s.procs[i].vm.uid == u {
      if s.procs[i].job.HookJob? {
        HookJobOwner(s.procs[i]);
      } else {
        AskerShape(s.procs[i]);
      }
    }
  }

  lemma AskerShape(p: Proc)
    requires p.Asking? && !p.job.HookJob?
    ensures Removing(p) == Some(p.vm.uid) || Unrecorded(p) == Some(p.vm)
  {
  }

  lemma OnlyOwner(s: State, i: Pid, j: Pid, u: Uid)
    requires Inv(s) && i in s.procs && j in s.procs && HasIt(s.procs[i], u) && HasIt(s.procs[j], u)
    requires u in s.db.vms && !s.db.vms[u].phase.Deleting?
    ensures i == j
  {
    hide Covered, Known, YardSideOk, BookSideOk, OfficeSideOk, Held, Claimer, Builder, Unrecorded;
    Here(s, i);
    Here(s, j);
    assert RowOk(FleetOf(s), u);
  }

  // ---- a step of a call ----

  lemma StepFresh(s: State, i: Pid, c: Choice)
    requires Inv(s) && TakedownsOk(s) && Fresh(s) && i in s.procs
    ensures Fresh(Step(s, i, c))
  {
    hide Inv, TakedownsOk, Plan, Step, Apply, After, Unrecorded, RowEffectOk, YardEffectOk, LeaseEffectOk, PoolEffectOk,
      Condemns, WritesBack, Boss, Claimer, Builder;
    var e := Plan(s, s.procs[i], c);
    var s' := Step(s, i, c);
    StepAllowed(s, i, c);
    PlanStaffed(s, s.procs[i], c);
    OthersStay(s, i, c);
    OnlyItself(s, i, c);
    LiveAfter(s, i, c);
    forall j | j in s'.procs && Unrecorded(s'.procs[j]).Some? ensures Unrecorded(s'.procs[j]).value.uid in s'.live {
      var u := Unrecorded(s'.procs[j]).value.uid;
      StepTakesDown(s, i, c, u);
      if j != i && s.procs[i].Asking? {
        OrphanSafe(s, i, j, u);
      }
    }
  }

  lemma LiveAfter(s: State, i: Pid, c: Choice)
    requires i in s.procs
    ensures
      var e := Plan(s, s.procs[i], c);
      Step(s, i, c).live == if e.Bears? then s.live[e.u := e.host] else if e.Kills? then s.live - {e.u} else s.live
  {
    hide Plan, Apply;
    BirthsAfter(s, i, Plan(s, s.procs[i], c));
  }

  /** A microVM is killed under its row only if the row is DELETING, or by the call that forsook it. */
  lemma KillForsakes(s: State, i: Pid, c: Choice, u: Uid)
    requires Inv(s) && TakedownsOk(s) && i in s.procs && u in s.db.vms && u in s.live && u !in Step(s, i, c).live
    ensures
      var s' := Step(s, i, c);
      && u in s'.db.vms && s'.db.vms[u] == s.db.vms[u]
      && (s.db.vms[u].phase.Deleting? || Forsaken(s', u))
  {
    hide Inv, TakedownsOk, Plan, Step, Apply, After, Claimer, Builder, Unrecorded, YardEffectOk, LeaseEffectOk;
    hide MakingOk, PoolEffectOk, Condemns, WritesBack, Boss;
    var p, e := s.procs[i], Plan(s, s.procs[i], c);
    var s' := Step(s, i, c);
    StepTakesDown(s, i, c, u);
    LiveAfter(s, i, c);
    PlanStaffed(s, p, c);
    OthersStay(s, i, c);
    OnlyItself(s, i, c);
    StepTables(s, i, c);
    GivenAfter(s, i, c);
    DeletingFirst(s, i, u);
    if !s.db.vms[u].phase.Deleting? {
      PhaseLeft(s, u);
      HookJobOwner(p);
      forall j | j in s'.procs && HasIt(s'.procs[j], u) ensures s'.procs[j].Asking? || s'.procs[j].Dropping? {
        if j != i {
          OnlyOwner(s, i, j, u);
        }
      }
    }
  }

  lemma GivenAfter(s: State, i: Pid, c: Choice)
    requires i in s.procs && !Plan(s, s.procs[i], c).Commits?
    ensures Step(s, i, c).leaseOf == s.leaseOf
  {
    hide Plan, Apply;
    ClaimsAfter(s, i, Plan(s, s.procs[i], c));
  }

  lemma PhaseLeft(s: State, u: Uid)
    requires Inv(s) && u in s.db.vms && !s.db.vms[u].phase.Deleting?
    requires !s.db.vms[u].phase.Available? && !s.db.vms[u].phase.Quarantined?
    ensures Underway(s.db.vms[u])
  {
    hide ProcsOk, Covered, LeasesOk, MintsOk, ManagerOk, HostsOk;
    assert RowOk(FleetOf(s), u);
  }

  /** A call that is only deleting u neither writes its row nor leases it. */
  lemma DeleterLeaves(s: State, i: Pid, c: Choice, u: Uid)
    requires Inv(s) && i in s.procs && u in s.db.vms && (s.procs[i].Asking? || s.procs[i].Dropping?)
    ensures
      var s' := Step(s, i, c);
      s'.leaseOf == s.leaseOf && (u in s'.db.vms ==> s'.db.vms[u] == s.db.vms[u])
  {
    hide Inv, Plan, Step, Apply, YardEffectOk, LeaseEffectOk, MakingOk, PoolEffectOk, Condemns, Boss, Claimer, Builder,
      Held, CanDeletePool;
    StepAllowed(s, i, c);
    PlanStaffed(s, s.procs[i], c);
    StepTables(s, i, c);
    GivenAfter(s, i, c);
  }

  lemma RecordedOnce(s: State, i: Pid, u: Uid)
    requires Inv(s) && i in s.procs && u in s.db.vms
    ensures !Owns(Unrecorded(s.procs[i]), u)
  {
    hide Base, Covered, Known, YardSideOk, BookSideOk, OfficeSideOk, Held, Claimer, Builder;
    Here(s, i);
  }

  lemma ForsakenRow(s: State, i: Pid, c: Choice, u: Uid)
    requires Inv(s) && i in s.procs && u in s.db.vms && Forsaken(s, u) && u in Step(s, i, c).db.vms
    ensures
      var s' := Step(s, i, c);
      u !in s'.leaseOf && (s'.db.vms[u] == s.db.vms[u] || s'.db.vms[u].phase.Deleting?)
  {
    hide Inv, Step, Claimer, Builder, Unrecorded;
    RecordedOnce(s, i, u);
    if HasIt(s.procs[i], u) {
      DeleterLeaves(s, i, c, u);
    } else {
      StepLeaves(s, i, c, u);
    }
  }

  lemma ForsakenCalls(s: State, i: Pid, c: Choice, u: Uid)
    requires Inv(s) && i in s.procs && u in s.db.vms && Forsaken(s, u)
    ensures
      var s' := Step(s, i, c);
      forall j | j in s'.procs && HasIt(s'.procs[j], u) :: s'.procs[j].Asking? || s'.procs[j].Dropping?
  {
    hide Inv, Plan, Step, After, Claimer, Builder, YardEffectOk, LeaseEffectOk, MakingOk, PoolEffectOk, Condemns, Boss,
      WritesBack, Held, CanDeletePool;
    StepAllowed(s, i, c);
    PlanStaffed(s, s.procs[i], c);
    OthersStay(s, i, c);
    OnlyItself(s, i, c);
  }

  /** A row appears only over a microVM that runs. */
  lemma InsertBacked(s: State, i: Pid, c: Choice, u: Uid)
    requires Inv(s) && Fresh(s) && i in s.procs && u !in s.db.vms && u in Step(s, i, c).db.vms
    ensures u in Step(s, i, c).live
  {
    hide Inv, Plan, Step, Apply, RowEffectOk, YardEffectOk, LeaseEffectOk, MakingOk, PoolEffectOk, DbAfter;
    StepAllowed(s, i, c);
    StepTables(s, i, c);
    LiveAfter(s, i, c);
    WhatAddsRows(s.db, s.procs[i], Plan(s, s.procs[i], c), u);
  }

  lemma StepBacked(s: State, i: Pid, c: Choice)
    requires Inv(s) && TakedownsOk(s) && Fresh(s) && Backed(s) && i in s.procs
    ensures Backed(Step(s, i, c))
  {
    hide Inv, TakedownsOk, Fresh, Step, Underway, HasIt, Forsaken;
    hide OrphansFollow, BirthsFollow, YardFollows, LeasesFollow;
    var s' := Step(s, i, c);
    StepFollows(s, i, c);
    forall u | u in s'.db.vms && u !in s'.live ensures s'.db.vms[u].phase.Deleting? || Forsaken(s', u) {
      if u !in s.db.vms {
        InsertBacked(s, i, c, u);
      } else if u in s.live {
        KillForsakes(s, i, c, u);
      } else if !s.db.vms[u].phase.Deleting? {
        StillForsaken(s, i, c, u);
      }
    }
  }

  lemma StillForsaken(s: State, i: Pid, c: Choice, u: Uid)
    requires Inv(s) && i in s.procs && u in s.db.vms && Forsaken(s, u) && u in Step(s, i, c).db.vms
    ensures Step(s, i, c).db.vms[u].phase.Deleting? || Forsaken(Step(s, i, c), u)
  {
    hide Inv, Step, HasIt;
    ForsakenRow(s, i, c, u);
    ForsakenCalls(s, i, c, u);
  }

  // ---- every action ----

  lemma CalmBacked(s: State, s': State)
    requires Calm(s, s') && Backed(s) && Fresh(s)
    ensures Backed(s') && Fresh(s')
  {
    hide Joined, Begins, Claimer, Builder, Unrecorded;
    forall j | j in s'.procs ensures (j in s.procs && s'.procs[j] == s.procs[j]) || OwnsNothing(s'.procs[j]) {
      JoinedKeeps(s.procs, s'.procs, j);
      if j !in s.procs {
        BeginsShape(s'.procs[j]);
      }
    }
  }

  lemma RestartBacked(s: State)
    requires Inv(s) && Backed(s)
    ensures Backed(RestartState(s)) && Fresh(RestartState(s))
  {
    hide ProcsOk, Covered, HasIt;
    var s' := RestartState(s);
    forall u | u in s'.db.vms && u !in s'.live ensures s'.db.vms[u].phase.Deleting? {
      assert RowOk(FleetOf(s), u);
    }
  }

  lemma NextBacked(s: State, a: Action)
    requires Inv(s) && TakedownsOk(s) && Backed(s) && Fresh(s)
    ensures Backed(Next(s, a)) && Fresh(Next(s, a))
  {
    hide *;
    if a.Advance? {
      NextAdvance(s, a.i, a.c);
      if a.i in s.procs {
        StepBacked(s, a.i, a.c);
        StepFresh(s, a.i, a.c);
      }
    } else if a.Restart? {
      NextRestart(s);
      RestartBacked(s);
    } else {
      EnvironmentIsCalm(s, a);
      CalmBacked(s, Next(s, a));
    }
  }

  lemma {:induction false} AlwaysBacked(actions: seq<Action>)
    ensures Backed(Run(Initial(), actions)) && Fresh(Run(Initial(), actions))
    decreases |actions|
  {
    hide *;
    if actions == [] {
      RunNone(Initial());
      NothingToBack();
    } else {
      var n := |actions| - 1;
      RunLast(Initial(), actions);
      EveryRun(actions[..n]);
      TakedownsAlwaysOk(actions[..n]);
      AlwaysBacked(actions[..n]);
      NextBacked(Run(Initial(), actions[..n]), actions[n]);
    }
  }

  lemma NothingToBack()
    ensures Backed(Initial()) && Fresh(Initial())
  {
  }

  // ---- what the rows say ----

  lemma LeasedIsNotForsaken(s: State, u: Uid)
    requires Inv(s) && u in s.db.vms
    ensures u in s.live ==> s.live[u] == s.db.vms[u].host
    ensures s.db.vms[u].leaseId.Some? ==> u in s.leaseOf
  {
    hide ProcsOk, Covered, LeasesOk, MintsOk, ManagerOk, HostsOk;
    assert RowOk(FleetOf(s), u);
  }

  /** A VM that is AVAILABLE, QUARANTINED, or LEASED under a lease runs, on the host in its row. */
  lemma RowsRun(actions: seq<Action>, u: Uid)
    requires
      var s := Run(Initial(), actions);
      && u in s.db.vms
      && (s.db.vms[u].phase.Available? || s.db.vms[u].phase.Quarantined?
          || (s.db.vms[u].phase.Leased? && s.db.vms[u].leaseId.Some?))
    ensures
      var s := Run(Initial(), actions);
      u in s.live && s.live[u] == s.db.vms[u].host
  {
    hide Run, Inv, HasIt;
    EveryRun(actions);
    AlwaysBacked(actions);
    LeasedIsNotForsaken(Run(Initial(), actions), u);
  }

  // ---- what a claim answers with ----

  ghost predicate AnswerThere(s: State, l: LeaseId) {
    && l in s.minted && s.minted[l].vm in s.db.vms && !s.db.vms[s.minted[l].vm].phase.Deleting?
  }

  lemma ReplayPlanIs(s: State, p: Proc, c: Choice)
    requires p.ClaimReplay?
    ensures Plan(s, p, c) == PlanClaimReplay(s, p, c)
  {
    hide ClaimFirstPlan, DeletePlan, LeaseSidePlan, BuildSidePlan, PoolSidePlan, PlanClaimLeasing, PlanClaimYielding,
      PlanClaimYielded, PlanClaimReplay;
  }

  lemma ReplayLease(s: State, i: Pid, p: Proc)
    requires AtPoint(s, i, p) && p.ClaimReplay?
    ensures p.lease.id in s.minted && s.minted[p.lease.id].vm == p.lease.vm
  {
    hide FleetSideOk, YardSideOk, OfficeSideOk;
    Here(s, i);
  }

  /** A replay answers only over a row that is there and not DELETING, a commit over the row it writes. */
  lemma AnswerStep(s: State, i: Pid, p: Proc, c: Choice, q: Proc)
    requires Inv(s) && IsAt(s, i, p) && q == After(p, Plan(s, p, c)) && q.ClaimOk? && !p.ClaimOk?
    ensures AnswerThere(Step(s, i, c), q.answer)
  {
    hide Inv, Base, ProcsOk, Plan, Apply, YardEffectOk, MakingOk, PoolEffectOk, LeaseEffectOk, Held, ReadsLease,
      ClaimDoomed, KeepsTerms;
    var e := Plan(s, p, c);
    InvParts(s);
    StepAllowed(s, i, c);
    PlanReplied(s, p, c);
    if p.ClaimReplay? {
      ReplayPlanIs(s, p, c);
      ReplayLease(s, i, p);
      DbIs(s, i, e);
      MintsUntouched(s, i, e);
    } else {
      CommitWrites(s, p, c);
      ApplyCommits(s, i, e.q, e.v, e.l);
    }
  }

  /** The VM of a lease that is there is LEASED, of the lease's pool, and was given that lease. */
  lemma AnswerRow(s: State, l: LeaseId)
    requires Inv(s) && AnswerThere(s, l)
    ensures
      var u := s.minted[l].vm;
      s.db.vms[u].phase.Leased? && s.db.vms[u].pool == s.minted[l].pool && u in s.leaseOf && s.leaseOf[u] == l
  {
    hide ProcsOk, Covered, LeasesOk, ManagerOk, HostsOk;
    assert MintOk(FleetOf(s), s.minted[l], l);
    assert RowOk(FleetOf(s), s.minted[l].vm);
  }

  lemma AnswerPool(s: State, i: Pid)
    requires Inv(s) && i in s.procs && s.procs[i].ClaimOk?
    ensures s.procs[i].answer in s.minted && s.minted[s.procs[i].answer].pool == s.procs[i].pool
  {
    hide Base, Covered, FleetSideOk, YardSideOk, OfficeSideOk;
    Here(s, i);
  }

  /** At the moment a claim answers OK, replayed or not, in any run: the VM of the lease it names is a row
      of the pool asked for, LEASED, and flintlock runs it on the host in the row. */
  lemma AnswersRun(before: seq<Action>, i: Pid, c: Choice)
    requires
      var s := Run(Initial(), before);
      && i in s.procs && !s.procs[i].ClaimOk?
      && i in Next(s, Advance(i, c)).procs && Next(s, Advance(i, c)).procs[i].ClaimOk?
    ensures
      var s' := Next(Run(Initial(), before), Advance(i, c));
      var l := s'.procs[i].answer;
      && l in s'.minted
      && var u := s'.minted[l].vm;
      && u in s'.db.vms && s'.db.vms[u].phase.Leased? && s'.db.vms[u].pool == s'.procs[i].pool
      && u in s'.live && s'.live[u] == s'.db.vms[u].host
  {
    hide Inv, Run, Next, Step, Plan, After, HasIt;
    var s := Run(Initial(), before);
    var s' := Next(s, Advance(i, c));
    EveryRun(before);
    NextAdvance(s, i, c);
    OthersStay(s, i, c);
    AnswerStep(s, i, s.procs[i], c, s'.procs[i]);
    RunLast(Initial(), before + [Advance(i, c)]);
    assert (before + [Advance(i, c)])[..|before|] == before;
    EveryRun(before + [Advance(i, c)]);
    AlwaysBacked(before + [Advance(i, c)]);
    AnswerPool(s', i);
    AnswerRow(s', s'.procs[i].answer);
    LeasedIsNotForsaken(s', s'.minted[s'.procs[i].answer].vm);
  }
}
