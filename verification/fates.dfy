/** How Provision and ClaimVM return, over every run: a VM provisioned is AVAILABLE until someone
    claims or deletes it, and a VM given up on is QUARANTINED, DELETING or gone. */
module Fates {
  import opened Records
  import opened Transactions
  import opened Protocol
  import opened Invariant
  import opened Stability
  import opened Plans
  import opened Frames
  import opened Replies
  import opened Environment
  import opened Runs
  import opened Guarantees
  import opened Outcomes

  // ---- the call that made a VM ----

  ghost predicate AtWork(p: Proc, u: Uid) {
    Owns(Builder(p), u) || Owns(Unrecorded(p), u)
  }

  /** An orphan recorded as DELETING is being deleted. */
  predicate DeletesOrphan(p: Proc, u: Uid) {
    (p.Dropping? || (p.Asking? && p.job.OrphanJob? && p.job.recorded)) && p.job.OrphanJob? && p.vm.uid == u
  }

  /** The point of the Provision call that made u, from flintlock's answer on. */
  ghost predicate Makes(p: Proc, u: Uid) {
    AtWork(p, u) || DeletesOrphan(p, u) || p.ProvRelease? || p == ProvOk(u) || p.ProvFailed? || p.Done?
  }

  /** The call has nothing more to do with u than to clean up. */
  predicate Rejects(p: Proc, u: Uid) {
    p.ProvFailed? || p.ProvRelease? || DeletesOrphan(p, u)
  }

  ghost predicate FateOk(s: State, u: Uid)
    requires u in s.births
  {
    && s.births[u].maker in s.procs
    && var p := s.procs[s.births[u].maker];
    && Makes(p, u)
    && (AtWork(p, u) ==> u !in s.claimant)
    && (p.ProvOk? && u in s.db.vms ==> Free(s.db, u) || s.db.vms[u].phase.Deleting? || u in s.claimant)
    && (Rejects(p, u) ==> u !in s.claimant && Spoiled(s, u))
  }

  ghost predicate FatesOk(s: State) {
    forall u {:trigger FateOk(s, u)} | u in s.births :: FateOk(s, u)
  }

  // ---- what the call does next ----

  /** The orphan is recorded as DELETING, or deleted without a record. */
  ghost predicate LeavesOrphan(p: Proc, e: Effect, u: Uid) {
    && Owns(Unrecorded(p), u) && Unrecorded(After(p, e)).None?
    && (e.Kills? || e.Loses? || (e.Inserts? && e.v.uid == u && e.v.phase.Deleting?))
  }

  ghost predicate Fated(p: Proc, e: Effect, u: Uid) {
    var q := After(p, e);
    && Makes(q, u) && !e.Takes? && !e.Commits? && !e.Bears?
    && (q.ProvOk? && q != p ==> e.Puts? && e.v.uid == u && e.v.phase.Available?)
    && (AtWork(q, u) ==> AtWork(p, u)) && (q.Done? ==> p.Done?)
    && (Rejects(q, u) ==> Rejects(p, u) || Doomed(p, u) || LeavesOrphan(p, e, u))
  }

  lemma CreateFated(s: State, p: Proc, c: Choice, u: Uid)
    requires Makes(p, u) && InCreate(p)
    ensures Fated(p, CreatePlan(s, p, c), u)
  {
  }

  lemma BootFated(s: State, p: Proc, c: Choice, u: Uid)
    requires Makes(p, u) && InBoot(p)
    ensures Fated(p, BootPlan(s, p, c), u)
  {
  }

  lemma UndoFated(s: State, p: Proc, c: Choice, u: Uid)
    requires Makes(p, u) && InUndo(p)
    ensures Fated(p, UndoPlan(s, p, c), u)
  {
  }

  lemma FailingFated(s: State, p: Proc, c: Choice, u: Uid)
    requires Makes(p, u) && p.Failing?
    ensures Fated(p, PlanFailing(s, p, c), u)
  {
  }

  lemma AskingFated(s: State, p: Proc, c: Choice, u: Uid)
    requires Makes(p, u) && p.Asking?
    ensures Fated(p, PlanAsking(s, p, c), u)
  {
  }

  lemma DroppingFated(s: State, p: Proc, c: Choice, u: Uid)
    requires Makes(p, u) && p.Dropping?
    ensures Fated(p, PlanDropping(s, p, c), u)
  {
  }

  lemma MakersPoint(p: Proc, u: Uid)
    requires Makes(p, u)
    ensures Provisions(p) || InDelete(p) || p.ProvOk? || p.ProvFailed? || p.Done?
  {
  }

  lemma BuildFated(s: State, p: Proc, c: Choice, u: Uid)
    requires Makes(p, u) && Provisions(p)
    ensures Fated(p, BuildSidePlan(s, p, c), u)
  {
    hide Makes, Fated, CreatePlan, BootPlan, UndoPlan;
    if InCreate(p) { CreateFated(s, p, c, u); }
    else if InBoot(p) { BootFated(s, p, c, u); }
    else { UndoFated(s, p, c, u); }
  }

  lemma DeleteFated(s: State, p: Proc, c: Choice, u: Uid)
    requires Makes(p, u) && InDelete(p)
    ensures Fated(p, DeletePlan(s, p, c), u)
  {
    hide Makes, Fated, PlanFailing, PlanAsking, PlanDropping;
    if p.Failing? { FailingFated(s, p, c, u); }
    else if p.Asking? { AskingFated(s, p, c, u); }
    else { DroppingFated(s, p, c, u); }
  }

  lemma RestFated(p: Proc, u: Uid)
    requires Makes(p, u) && (p.ProvOk? || p.ProvFailed? || p.Done?)
    ensures Fated(p, Stays, u)
  {
  }

  lemma PlanFated(s: State, p: Proc, c: Choice, u: Uid)
    requires Makes(p, u)
    ensures Fated(p, Plan(s, p, c), u)
  {
    hide *;
    MakersPoint(p, u);
    if Provisions(p) {
      BuildPlanIs(s, p, c);
      BuildFated(s, p, c, u);
    } else if InDelete(p) {
      DeletePlanIs(s, p, c);
      DeleteFated(s, p, c, u);
    } else {
      EndedStays(s, p, c);
      RestFated(p, u);
    }
  }

  // ---- every step keeps the fates ----

  lemma WorkerFacts(s: State, i: Pid, u: Uid)
    requires Inv(s) && i in s.procs && AtWork(s.procs[i], u)
    ensures u in s.births && s.births[u].maker == i && u !in s.leaseOf && !Free(s.db, u)
    ensures Owns(Unrecorded(s.procs[i]), u) ==> u !in s.db.vms && u !in s.claimant
  {
    Here(s, i);
  }

  lemma ClaimerFacts(s: State, i: Pid, u: Uid)
    requires Inv(s) && i in s.procs && Owns(Claimer(s.procs[i]), u)
    ensures u in s.claimant && s.claimant[u] == i && u !in s.leaseOf
    ensures u in s.db.vms ==> HasLeasedPhase(s.db.vms[u]) || s.db.vms[u].phase.Deleting?
  {
    Here(s, i);
  }

  lemma SpoiledNotFree(s: State, u: Uid)
    requires Spoiled(s, u)
    ensures !Free(s.db, u)
  {
    hide OwnedOrphan, ClaimGivenUp, BuildGivenUp;
  }

  /** What the maker's own step leaves of its VM, as far as the effect says it. */
  lemma MakerStep(s: State, i: Pid, c: Choice, u: Uid)
    requires Inv(s) && i in s.procs && u in s.births && s.births[u].maker == i && Makes(s.procs[i], u)
    ensures
      var s' := Step(s, i, c);
      var e := Plan(s, s.procs[i], c);
      && u in s'.births && s'.births[u] == s.births[u] && i in s'.procs && s'.procs[i] == After(s.procs[i], e)
      && s'.claimant == s.claimant && s'.leaseOf == s.leaseOf && s'.db == DbAfter(s.db, e)
      && Fated(s.procs[i], e, u)
  {
    hide Inv, Plan, Apply, After, DbAfter, Makes, AtWork, Rejects, LeavesOrphan;
    var e := Plan(s, s.procs[i], c);
    PlanFated(s, s.procs[i], c, u);
    BirthsAfter(s, i, e);
    ClaimsAfter(s, i, e);
    DbIs(s, i, e);
    OthersStay(s, i, c);
  }

  lemma MakerProvides(s: State, i: Pid, c: Choice, u: Uid)
    requires Inv(s) && i in s.procs && u in s.births && s.births[u].maker == i && FateOk(s, u)
    ensures
      var s' := Step(s, i, c);
      i in s'.procs && s'.procs[i].ProvOk? && u in s'.db.vms ==>
        Free(s'.db, u) || s'.db.vms[u].phase.Deleting? || u in s'.claimant
  {
    hide Inv, Plan, Step, Makes, AtWork, Rejects, LeavesOrphan, Spoiled;
    if s.procs[i].ProvOk? {
      EndedStays(s, s.procs[i], c);
      StepStays(s, i, c);
    } else {
      MakerStep(s, i, c, u);
    }
  }

  lemma StepStays(s: State, i: Pid, c: Choice)
    requires i in s.procs && Plan(s, s.procs[i], c) == Stays
    ensures Step(s, i, c) == s
  {
    hide Plan, Apply;
    ApplyStays(s, i);
  }

  lemma OrphanLeft(s: State, i: Pid, c: Choice, u: Uid)
    requires Inv(s) && i in s.procs && u in s.births && s.births[u].maker == i && Makes(s.procs[i], u)
    requires LeavesOrphan(s.procs[i], Plan(s, s.procs[i], c), u)
    ensures Spoiled(Step(s, i, c), u) && u !in s.claimant
  {
    hide Inv, Plan, Step, Makes, Fated, Unrecorded, Builder;
    WorkerFacts(s, i, u);
    MakerStep(s, i, c, u);
  }

  lemma DoomedMakerWorks(p: Proc, u: Uid)
    requires Doomed(p, u) && Makes(p, u)
    ensures AtWork(p, u)
  {
  }

  lemma MakerRejects(s: State, i: Pid, c: Choice, u: Uid)
    requires Inv(s) && i in s.procs && u in s.births && s.births[u].maker == i && FateOk(s, u)
    requires i in Step(s, i, c).procs && Rejects(Step(s, i, c).procs[i], u)
    ensures u !in Step(s, i, c).claimant && Spoiled(Step(s, i, c), u)
  {
    hide Inv, Plan, Step, Makes, AtWork, Rejects, LeavesOrphan, Spoiled, Doomed, DbAfter, After, Free;
    var p := s.procs[i];
    MakerStep(s, i, c, u);
    if Rejects(p, u) {
      StepKeepsSpoiled(s, i, c, u);
    } else if Doomed(p, u) {
      DoomedMakerWorks(p, u);
      DoomedSpoils(s, i, u);
      StepKeepsSpoiled(s, i, c, u);
    } else {
      OrphanLeft(s, i, c, u);
    }
  }

  lemma MakerKeepsFate(s: State, i: Pid, c: Choice, u: Uid)
    requires Inv(s) && i in s.procs && u in s.births && s.births[u].maker == i && FateOk(s, u)
    ensures u in Step(s, i, c).births && FateOk(Step(s, i, c), u)
  {
    hide Inv, Plan, Step, Makes, AtWork, Rejects, LeavesOrphan, Spoiled, Doomed, DbAfter, After, Free;
    MakerStep(s, i, c, u);
    MakerProvides(s, i, c, u);
    if Rejects(Step(s, i, c).procs[i], u) {
      MakerRejects(s, i, c, u);
    }
  }

  lemma OtherKeepsFate(s: State, i: Pid, c: Choice, u: Uid)
    requires Inv(s) && i in s.procs && u in s.births && s.births[u].maker != i && FateOk(s, u)
    ensures u in Step(s, i, c).births && FateOk(Step(s, i, c), u)
  {
    hide Inv, Plan, Step, Makes, AtWork, Rejects, Spoiled, Claimer, Builder, Unrecorded, RowsFollow, OrphansFollow,
      YardFollows, LeasesFollow, Occupied;
    StepFollows(s, i, c);
    OthersStay(s, i, c);
    StepLeaves(s, i, c, u);
    var m := s.births[u].maker;
    if AtWork(s.procs[m], u) {
      WorkerFacts(s, m, u);
    }
    if Rejects(s.procs[m], u) {
      SpoiledNotFree(s, u);
      StepKeepsSpoiled(s, i, c, u);
    }
    if s.procs[m].ProvOk? && u !in s.claimant {
      NotTheirs(s, i, u);
    }
  }

  lemma NotTheirs(s: State, i: Pid, u: Uid)
    requires Inv(s) && i in s.procs && u in s.births && s.births[u].maker != i && u !in s.claimant
    ensures !Acts(s.procs[i], u)
  {
    hide Inv, Claimer, Builder, Unrecorded;
    if Owns(Claimer(s.procs[i]), u) {
      ClaimerFacts(s, i, u);
    } else if AtWork(s.procs[i], u) {
      WorkerFacts(s, i, u);
    }
  }

  lemma BornFate(s: State, i: Pid, c: Choice, u: Uid)
    requires Inv(s) && i in s.procs && u !in s.births && u in Step(s, i, c).births
    ensures FateOk(Step(s, i, c), u)
  {
    hide Inv, Plan, Apply;
    var e := Plan(s, s.procs[i], c);
    BirthsAfter(s, i, e);
    ClaimsAfter(s, i, e);
    DbIs(s, i, e);
    OthersStay(s, i, c);
    BirthPlan(s, i, c);
    Unborn(s, u);
  }

  lemma ReservedPlan(s: State, p: Proc, c: Choice)
    requires p.ProvReserved?
    ensures Plan(s, p, c) == PlanProvReserved(s, p, c)
  {
    hide ClaimSidePlan, LeaseSidePlan, BootPlan, UndoPlan, PoolSidePlan, PlanProvReserved, PlanProvStart,
         PlanProvCreated, PlanProvRecorded;
  }

  lemma BirthPlan(s: State, i: Pid, c: Choice)
    requires Inv(s) && i in s.procs
    ensures
      var e := Plan(s, s.procs[i], c);
      e.Bears? ==> s.procs[i].ProvReserved? && ((e.q.ProvCreated? && e.q.vm.uid == e.u) || e.q.ProvRelease?)
  {
    hide Inv, Plan, RowEffectOk, MakingOk, LeaseEffectOk, PoolEffectOk;
    var p := s.procs[i];
    StepAllowed(s, i, c);
    if Plan(s, p, c).Bears? {
      ReservedPlan(s, p, c);
    }
  }

  lemma RowBorn(s: State, u: Uid)
    requires Inv(s) && u in s.db.vms
    ensures u in s.births
  {
    assert RowOk(FleetOf(s), u);
  }

  lemma Unborn(s: State, u: Uid)
    requires Inv(s) && u !in s.births
    ensures u !in s.db.vms && u !in s.claimant && u !in s.leaseOf
  {
    if u in s.db.vms {
      RowBorn(s, u);
    }
  }

  lemma StepKeepsFates(s: State, i: Pid, c: Choice)
    requires Inv(s) && FatesOk(s) && i in s.procs
    ensures FatesOk(Step(s, i, c))
  {
    hide Inv, Step, FateOk;
    forall u | u in Step(s, i, c).births ensures FateOk(Step(s, i, c), u) {
      if u !in s.births {
        BornFate(s, i, c, u);
      } else {
        assert FateOk(s, u);
        if s.births[u].maker == i { MakerKeepsFate(s, i, c, u); } else { OtherKeepsFate(s, i, c, u); }
      }
    }
  }

  lemma CalmKeepsFate(s: State, s': State, u: Uid)
    requires Calm(s, s') && u in s.births && FateOk(s, u)
    ensures FateOk(s', u)
  {
    hide Makes, AtWork, Rejects, Spoiled, Joined;
    JoinedAt(s.procs, s'.procs, s.births[u].maker);
    if Rejects(s.procs[s.births[u].maker], u) {
      CalmKeepsSpoiled(s, s', u);
    }
  }

  lemma CalmKeepsFates(s: State, s': State)
    requires Calm(s, s') && FatesOk(s)
    ensures FatesOk(s')
  {
    hide FateOk, CalmTables, Joined;
    forall u | u in s'.births ensures FateOk(s', u) {
      assert FateOk(s, u);
      CalmKeepsFate(s, s', u);
    }
  }

  lemma RestartKeepsFates(s: State)
    requires FatesOk(s)
    ensures FatesOk(RestartState(s))
  {
    hide Spoiled;
    forall u | u in s.births ensures FateOk(RestartState(s), u) {
      assert FateOk(s, u);
    }
  }

  lemma NextKeepsFates(s: State, a: Action)
    requires Inv(s) && FatesOk(s)
    ensures FatesOk(Next(s, a))
  {
    hide *;
    if a.Advance? {
      NextAdvance(s, a.i, a.c);
      if a.i in s.procs { StepKeepsFates(s, a.i, a.c); }
    } else if a.Restart? {
      NextRestart(s);
      RestartKeepsFates(s);
    } else {
      EnvironmentIsCalm(s, a);
      CalmKeepsFates(s, Next(s, a));
    }
  }

  lemma {:induction false} RunKeepsFates(s: State, actions: seq<Action>)
    requires Inv(s) && FatesOk(s)
    ensures Inv(Run(s, actions)) && FatesOk(Run(s, actions))
    decreases |actions|
  {
    hide *;
    if actions == [] {
      RunNone(s);
    } else {
      RunFirst(s, actions);
      NextKeeps(s, actions[0]);
      NextKeepsFates(s, actions[0]);
      RunKeepsFates(Next(s, actions[0]), actions[1..]);
    }
  }

  lemma InitialFates()
    ensures Inv(Initial()) && FatesOk(Initial()) && NoneCutShort(Initial())
  {
    InitialOk();
  }

  lemma EveryFate(actions: seq<Action>)
    ensures Inv(Run(Initial(), actions)) && FatesOk(Run(Initial(), actions))
  {
    hide Inv, Run, FatesOk;
    InitialFates();
    RunKeepsFates(Initial(), actions);
  }

  // ---- only a crash cuts a Provision call short ----

  ghost predicate NoneCutShort(s: State) {
    forall u | u in s.births :: s.births[u].maker in s.procs && !s.procs[s.births[u].maker].Done?
  }

  lemma StepCutsNoneShort(s: State, i: Pid, c: Choice, u: Uid)
    requires Inv(s) && FatesOk(s) && NoneCutShort(s) && i in s.procs && u in Step(s, i, c).births
    ensures Step(s, i, c).births[u].maker in Step(s, i, c).procs
    ensures !Step(s, i, c).procs[Step(s, i, c).births[u].maker].Done?
  {
    hide Inv, Plan, Step, Makes, AtWork, Rejects, LeavesOrphan, Spoiled, RowsFollow, OrphansFollow, YardFollows,
      LeasesFollow, Occupied, DbAfter, After;
    OthersStay(s, i, c);
    StepFollows(s, i, c);
    if u in s.births {
      assert FateOk(s, u);
      if s.births[u].maker == i {
        MakerStep(s, i, c, u);
      }
    } else {
      BornFate(s, i, c, u);
      BornAtWork(s, i, c, u);
    }
  }

  lemma BornAtWork(s: State, i: Pid, c: Choice, u: Uid)
    requires Inv(s) && i in s.procs && u !in s.births && u in Step(s, i, c).births
    ensures Step(s, i, c).births[u].maker == i && i in Step(s, i, c).procs && !Step(s, i, c).procs[i].Done?
  {
    hide Inv, Plan, Apply;
    var e := Plan(s, s.procs[i], c);
    BirthsAfter(s, i, e);
    OthersStay(s, i, c);
    BirthPlan(s, i, c);
  }

  lemma NextCutsNoneShort(s: State, a: Action)
    requires Inv(s) && FatesOk(s) && NoneCutShort(s) && !a.Restart?
    ensures NoneCutShort(Next(s, a))
  {
    hide Inv, FatesOk, Next, Step, Calm;
    if a.Advance? {
      NextAdvance(s, a.i, a.c);
      if a.i in s.procs {
        forall u | u in Step(s, a.i, a.c).births
          ensures Step(s, a.i, a.c).births[u].maker in Step(s, a.i, a.c).procs
          ensures !Step(s, a.i, a.c).procs[Step(s, a.i, a.c).births[u].maker].Done?
        {
          StepCutsNoneShort(s, a.i, a.c, u);
        }
      }
    } else {
      EnvironmentIsCalm(s, a);
      CalmCutsNoneShort(s, Next(s, a));
    }
  }

  lemma CalmCutsNoneShort(s: State, s': State)
    requires Calm(s, s') && NoneCutShort(s)
    ensures NoneCutShort(s')
  {
    hide Begins, Joined, CalmTables;
    forall u | u in s'.births ensures s'.births[u].maker in s'.procs && !s'.procs[s'.births[u].maker].Done? {
      JoinedAt(s.procs, s'.procs, s.births[u].maker);
    }
  }

  ghost predicate NoRestart(actions: seq<Action>) {
    forall k | 0 <= k < |actions| :: !actions[k].Restart?
  }

  lemma {:induction false} RunCutsNoneShort(s: State, actions: seq<Action>)
    requires Inv(s) && FatesOk(s) && NoneCutShort(s) && NoRestart(actions)
    ensures NoneCutShort(Run(s, actions))
    decreases |actions|
  {
    hide Inv, FatesOk, Next, Run, NoneCutShort;
    if actions == [] {
      RunNone(s);
    } else {
      RunFirst(s, actions);
      NextKeeps(s, actions[0]);
      NextKeepsFates(s, actions[0]);
      NextCutsNoneShort(s, actions[0]);
      RunCutsNoneShort(Next(s, actions[0]), actions[1..]);
    }
  }

  // ---- claims that gave up ----

  /** A failed claim leaves its VM spoiled, and nobody has claimed it since. */
  ghost predicate ClaimFateOk(s: State, i: Pid)
    requires i in s.procs
  {
    s.procs[i].ClaimFailed? ==>
      var u := s.procs[i].took;
      u in s.claimant && s.claimant[u] == i && Spoiled(s, u)
  }

  ghost predicate ClaimFatesOk(s: State) {
    forall i {:trigger ClaimFateOk(s, i)} | i in s.procs :: ClaimFateOk(s, i)
  }

  lemma StepKeepsClaimFate(s: State, i: Pid, c: Choice, j: Pid)
    requires Inv(s) && i in s.procs && j in s.procs && ClaimFateOk(s, j) && j in Step(s, i, c).procs
    ensures ClaimFateOk(Step(s, i, c), j)
  {
    hide Inv, Plan, Step, Spoiled, Claimer, Doomed;
    OthersStay(s, i, c);
    PlanReplied(s, s.procs[i], c);
    var s' := Step(s, i, c);
    if s'.procs[j].ClaimFailed? {
      var u := s'.procs[j].took;
      if s.procs[j] != s'.procs[j] {
        DoomedClaim(s, i, u);
      }
      SpoiledNotFree(s, u);
      StepKeepsSpoiled(s, i, c, u);
      StepLeaves(s, i, c, u);
    }
  }

  lemma DoomedClaim(s: State, i: Pid, u: Uid)
    requires Inv(s) && i in s.procs && ClaimDoomed(s.procs[i], u)
    ensures u in s.claimant && s.claimant[u] == i && Spoiled(s, u)
  {
    hide Inv, Spoiled;
    DoomedOwner(s.procs[i], u);
    OwnedByClaim(s.procs[i], u);
    ClaimerFacts(s, i, u);
    DoomedSpoils(s, i, u);
  }

  lemma OwnedByClaim(p: Proc, u: Uid)
    requires ClaimDoomed(p, u)
    ensures Owns(Claimer(p), u)
  {
  }

  lemma StepKeepsClaimFates(s: State, i: Pid, c: Choice)
    requires Inv(s) && ClaimFatesOk(s) && i in s.procs
    ensures ClaimFatesOk(Step(s, i, c))
  {
    hide Inv, Plan, Step, ClaimFateOk;
    OnlyItself(s, i, c);
    forall j | j in Step(s, i, c).procs ensures ClaimFateOk(Step(s, i, c), j) {
      assert ClaimFateOk(s, j);
      StepKeepsClaimFate(s, i, c, j);
    }
  }

  lemma OnlyItself(s: State, i: Pid, c: Choice)
    requires i in s.procs
    ensures Step(s, i, c).procs.Keys == s.procs.Keys
  {
    hide Plan, Apply, After;
    CallAfter(s, i, Plan(s, s.procs[i], c));
  }

  lemma CalmKeepsClaimFates(s: State, s': State)
    requires Calm(s, s') && ClaimFatesOk(s)
    ensures ClaimFatesOk(s')
  {
    hide Begins, Spoiled, Joined, CalmTables;
    forall i | i in s'.procs ensures ClaimFateOk(s', i) {
      JoinedKeeps(s.procs, s'.procs, i);
      if i in s.procs {
        assert ClaimFateOk(s, i);
        if s.procs[i].ClaimFailed? {
          CalmKeepsSpoiled(s, s', s.procs[i].took);
        }
      } else {
        NoneFailedYet(s'.procs[i]);
      }
    }
  }

  lemma NoneFailedYet(q: Proc)
    requires Begins(q)
    ensures !q.ClaimFailed?
  {
  }

  lemma RestartKeepsClaimFates(s: State)
    ensures ClaimFatesOk(RestartState(s))
  {
  }

  lemma NextKeepsClaimFates(s: State, a: Action)
    requires Inv(s) && ClaimFatesOk(s)
    ensures ClaimFatesOk(Next(s, a))
  {
    hide *;
    if a.Advance? {
      NextAdvance(s, a.i, a.c);
      if a.i in s.procs { StepKeepsClaimFates(s, a.i, a.c); }
    } else if a.Restart? {
      NextRestart(s);
      RestartKeepsClaimFates(s);
    } else {
      EnvironmentIsCalm(s, a);
      CalmKeepsClaimFates(s, Next(s, a));
    }
  }

  lemma {:induction false} RunKeepsClaimFates(s: State, actions: seq<Action>)
    requires Inv(s) && ClaimFatesOk(s)
    ensures Inv(Run(s, actions)) && ClaimFatesOk(Run(s, actions))
    decreases |actions|
  {
    hide *;
    if actions == [] {
      RunNone(s);
    } else {
      RunFirst(s, actions);
      NextKeeps(s, actions[0]);
      NextKeepsClaimFates(s, actions[0]);
      RunKeepsClaimFates(Next(s, actions[0]), actions[1..]);
    }
  }

  // ---- every way out ----

  /** Never leased, not AVAILABLE; QUARANTINED, DELETING or gone, unless the policy's own write got no
      answer. */
  ghost predicate GivenUp(s: State, u: Uid) {
    && u !in s.leaseOf && !Free(s.db, u)
    && (u in s.db.vms && u !in s.stranded ==> s.db.vms[u].phase.Quarantined? || s.db.vms[u].phase.Deleting?)
  }

  lemma FailedClaimGaveUp(s: State, i: Pid, u: Uid)
    requires Inv(s) && i in s.procs && s.procs[i] == ClaimFailed(u)
    requires u in s.claimant && s.claimant[u] == i && Spoiled(s, u)
    ensures GivenUp(s, u)
  {
    hide ProcsOk, LiveCovered;
    if u in s.db.vms {
      assert RowOk(FleetOf(s), u);
    }
  }

  lemma FailedProvisionGaveUp(s: State, i: Pid, u: Uid)
    requires Inv(s) && i in s.procs && s.procs[i].ProvFailed? && u in s.births && s.births[u].maker == i
    requires u !in s.claimant && Spoiled(s, u)
    ensures GivenUp(s, u) && (u in s.live ==> u in s.db.vms || u in s.leaked)
  {
    hide ProcsOk;
  }

  /** Every way out of a ClaimVM that gave up on its VM, for as long as the server runs: nobody else
      has claimed the VM, it was never leased, and it is QUARANTINED, DELETING or gone. */
  lemma FailedClaimOutcome(actions: seq<Action>, i: Pid)
    requires i in Run(Initial(), actions).procs && Run(Initial(), actions).procs[i].ClaimFailed?
    ensures
      var s := Run(Initial(), actions);
      var u := s.procs[i].took;
      u in s.claimant && s.claimant[u] == i && GivenUp(s, u)
  {
    hide Inv, Run, Spoiled, GivenUp;
    var s := Run(Initial(), actions);
    InitialOk();
    RunKeepsClaimFates(Initial(), actions);
    assert ClaimFateOk(s, i);
    FailedClaimGaveUp(s, i, s.procs[i].took);
  }

  /** The call that made u has returned. */
  predicate Returned(p: Proc) {
    p.ProvOk? || p.ProvFailed? || p.Done?
  }

  lemma BuilderHasBoss(p: Proc)
    ensures Builder(p).Some? || Unrecorded(p).Some? ==> Boss(p).Some?
  {
    match p
    case Failing(who, _, _) => if who.ByClaim? {}
    case Asking(job, _) => if job.HookJob? { if job.who.ByClaim? {} }
    case Dropping(job, _) => if job.HookJob? { if job.who.ByClaim? {} }
    case _ =>
  }

  lemma OrphanHasBoss(p: Proc, u: Uid)
    requires DeletesOrphan(p, u) || p.ProvRelease?
    ensures Boss(p).Some?
  {
  }

  lemma MakerReturns(p: Proc, u: Uid)
    requires Makes(p, u)
    ensures Boss(p).None? ==> Returned(p)
    ensures p.ProvOk? ==> p.made == u
  {
    hide Builder, Unrecorded, Boss, DeletesOrphan;
    BuilderHasBoss(p);
    if DeletesOrphan(p, u) || p.ProvRelease? {
      OrphanHasBoss(p, u);
    }
    if p.ProvOk? {
      OkOwnsNothing(p, u);
    }
  }

  lemma OkOwnsNothing(p: Proc, u: Uid)
    requires p.ProvOk?
    ensures !AtWork(p, u) && !DeletesOrphan(p, u)
  {
  }

  /** Every way out of Provision. A nil return: the VM is AVAILABLE, unless it was claimed or is
      DELETING or gone since. An error: it was never claimed and never leased, it is QUARANTINED,
      DELETING or gone, and flintlock runs it only with a row or as a recorded leak. */
  lemma ProvisionOutcome(actions: seq<Action>, u: Uid)
    requires u in Run(Initial(), actions).births
    ensures
      var s := Run(Initial(), actions);
      && s.births[u].maker in s.procs
      && var p := s.procs[s.births[u].maker];
      && (Boss(p).None? ==> Returned(p)) && (p.Done? ==> !NoRestart(actions))
      && (p.ProvOk? ==>
           p.made == u && (u in s.db.vms ==> Free(s.db, u) || s.db.vms[u].phase.Deleting? || u in s.claimant))
      && (p.ProvFailed? ==> u !in s.claimant && GivenUp(s, u) && (u in s.live ==> u in s.db.vms || u in s.leaked))
  {
    hide Inv, Run, Spoiled, GivenUp, AtWork;
    var s := Run(Initial(), actions);
    EveryFate(actions);
    assert FateOk(s, u);
    var p := s.procs[s.births[u].maker];
    MakerReturns(p, u);
    if NoRestart(actions) {
      InitialFates();
      RunCutsNoneShort(Initial(), actions);
    }
    if p.ProvFailed? {
      FailedProvisionGaveUp(s, s.births[u].maker, u);
    }
  }
}
