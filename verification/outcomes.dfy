/** What becomes of a VM whose hooks failed: from the moment its claim or its provision gives up on
    it, it is never leased and never AVAILABLE again. */
module Outcomes {
  import opened Records
  import opened Transactions
  import opened Protocol
  import opened Invariant
  import opened Stability
  import opened Plans
  import opened Frames
  import opened Staffing
  import opened Replies
  import opened Environment
  import opened Runs
  import opened Guarantees

  // ---- who acts on a VM ----

  ghost predicate Acts(p: Proc, u: Uid) {
    Owns(Claimer(p), u) || Owns(Builder(p), u) || Owns(Unrecorded(p), u)
  }

  ghost predicate Free(db: Db, u: Uid) {
    u in db.vms && db.vms[u].phase.Available?
  }

  /** Call i has claimed u, which was AVAILABLE. */
  ghost predicate TakenBy(s: State, s': State, u: Uid, i: Pid)
    requires i in s.procs
  {
    Free(s.db, u) && u in s'.claimant && s'.claimant[u] == i && s.procs[i].ClaimPick?
  }

  /** u's row stays, goes, is condemned, or is claimed while AVAILABLE. */
  ghost predicate RowLeft(s: State, s': State, u: Uid, i: Pid)
    requires i in s.procs
  {
    u in s'.db.vms ==>
      && u in s.db.vms
      && (s'.db.vms[u] == s.db.vms[u] || s'.db.vms[u].phase.Deleting? || TakenBy(s, s', u, i))
  }

  /** Only an AVAILABLE VM changes hands. */
  ghost predicate ClaimLeft(s: State, s': State, u: Uid, i: Pid)
    requires i in s.procs
  {
    && (u in s.claimant ==> u in s'.claimant && (s'.claimant[u] == s.claimant[u] || TakenBy(s, s', u, i)))
    && (u in s'.claimant && u !in s.claimant ==> TakenBy(s, s', u, i))
  }

  ghost predicate LeaseLeft(s: State, s': State, u: Uid) {
    u in s'.leaseOf ==> u in s.leaseOf
  }

  /** Whoever does not own a VM leaves it alone, condemns it, removes it once it is gone from
      flintlock, or claims it while it is AVAILABLE. */
  lemma OthersRow(s: State, i: Pid, p: Proc, e: Effect, u: Uid)
    requires IsAt(s, i, p)
    requires RowEffectOk(s.db, p, e) && (e.Puts? ==> WritesBack(p, e.v)) && !Acts(p, u)
    ensures RowLeft(s, Apply(s, i, e), u, i)
  {
    hide Apply, Acts, WritesBack;
    DbIs(s, i, e);
    ClaimsAfter(s, i, e);
    if e.Puts? {
      WrittenByOwner(p, e.v, u);
    } else if e.Inserts? || e.Commits? {
      MadeByOwner(s.db, p, e, u);
    }
  }

  lemma WrittenByOwner(p: Proc, v: Vm, u: Uid)
    requires WritesBack(p, v) && !Acts(p, u)
    ensures v.uid != u || v.phase.Deleting?
  {
    hide Claimer, Builder, Unrecorded, WritesBack;
    OwnersWrite(p, v);
  }

  lemma MadeByOwner(db: Db, p: Proc, e: Effect, u: Uid)
    requires RowEffectOk(db, p, e) && (e.Inserts? || e.Commits?) && !Acts(p, u)
    ensures e.v.uid != u
  {
  }

  lemma HandsChange(s: State, i: Pid, p: Proc, e: Effect, u: Uid)
    requires IsAt(s, i, p) && RowEffectOk(s.db, p, e)
    ensures ClaimLeft(s, Apply(s, i, e), u, i)
    ensures Owns(Claimer(p), u) || LeaseLeft(s, Apply(s, i, e), u)
  {
    ClaimsAfter(s, i, e);
  }

  lemma StepLeaves(s: State, i: Pid, c: Choice, u: Uid)
    requires Inv(s) && i in s.procs
    ensures ClaimLeft(s, Step(s, i, c), u, i)
    ensures Owns(Claimer(s.procs[i]), u) || LeaseLeft(s, Step(s, i, c), u)
    ensures Acts(s.procs[i], u) || RowLeft(s, Step(s, i, c), u, i)
  {
    hide Inv, Plan, Apply, RowLeft, ClaimLeft, LeaseLeft, Acts, WritesBack, RowEffectOk, YardEffectOk, MakingOk,
      LeaseEffectOk, PoolEffectOk, Claimer, Boss;
    var p := s.procs[i];
    StepAllowed(s, i, c);
    PlanStaffed(s, p, c);
    HandsChange(s, i, p, Plan(s, p, c), u);
    if !Acts(p, u) {
      OthersRow(s, i, p, Plan(s, p, c), u);
    }
  }

  // ---- a VM given up on ----

  predicate ClaimGivenUp(p: Proc, u: Uid) {
    ClaimDoomed(p, u) || p == ClaimFailed(u)
  }

  predicate BuildGivenUp(p: Proc, u: Uid) {
    (Doomed(p, u) && Builder(p).Some?) || p.ProvFailed?
  }

  /** u has no lease, and its row is gone, DELETING, QUARANTINED, or still in the phase in which its
      call gave up on it. */
  ghost predicate Spoiled(s: State, u: Uid) {
    && u in s.births && u !in s.leaseOf && !OwnedOrphan(s.births, s.procs, u)
    && (u in s.db.vms ==> SpoiledRow(s, s.db.vms[u], u))
  }

  ghost predicate SpoiledRow(s: State, v: Vm, u: Uid)
    requires u in s.births
  {
    || v.phase.Quarantined? || v.phase.Deleting?
    || (HasLeasedPhase(v) && u in s.claimant && s.claimant[u] in s.procs && ClaimGivenUp(s.procs[s.claimant[u]], u))
    || (AbandonedProvision(v) && s.births[u].maker in s.procs && BuildGivenUp(s.procs[s.births[u].maker], u))
  }

  lemma DoomedOwner(p: Proc, u: Uid)
    requires Doomed(p, u)
    ensures Owns(Claimer(p), u) || Owns(Builder(p), u)
    ensures Unrecorded(p).None?
  {
  }

  /** A call that applies the failure policy to u has spoiled it. */
  lemma DoomedSpoils(s: State, i: Pid, u: Uid)
    requires Inv(s) && i in s.procs && Doomed(s.procs[i], u)
    ensures Spoiled(s, u)
  {
    var p := s.procs[i];
    DoomedOwner(p, u);
    Here(s, i);
    if u in s.db.vms && OwnedOrphan(s.births, s.procs, u) {
      Here(s, s.births[u].maker);
    }
    if Owns(Claimer(p), u) && OwnedOrphan(s.births, s.procs, u) {
      Here(s, s.births[u].maker);
    }
  }

  // ---- it stays given up on ----

  /** The failure policy's own steps: the VM is quarantined, condemned, removed or left as it is, and
      the call goes on giving up on it. */
  predicate PolicyEffect(p: Proc, e: Effect, u: Uid) {
    && (e.Moves? || e.Forsakes? || e.Kills? || (e.Drops? && e.u == u)
        || (e.Puts? && e.v.uid == u && (e.v.phase.Quarantined? || e.v.phase.Deleting?)))
    && (ClaimDoomed(p, u) ==> ClaimGivenUp(After(p, e), u))
    && (Doomed(p, u) && Builder(p).Some? ==> BuildGivenUp(After(p, e), u))
    && Unrecorded(After(p, e)).None?
  }

  lemma DoomedPlan(s: State, p: Proc, c: Choice, u: Uid)
    requires Doomed(p, u)
    ensures PolicyEffect(p, Plan(s, p, c), u)
  {
    if p.ProvFail? { DoomedProvFail(s, p, c, u); }
    else if p.Failing? { DoomedFailing(s, p, c, u); }
    else if p.Asking? { DoomedAsking(s, p, c, u); }
    else { DoomedDropping(s, p, c, u); }
  }

  lemma DoomedProvFail(s: State, p: Proc, c: Choice, u: Uid)
    requires Doomed(p, u) && p.ProvFail?
    ensures PolicyEffect(p, PlanProvFail(s, p, c), u)
  {
  }

  lemma DoomedFailing(s: State, p: Proc, c: Choice, u: Uid)
    requires Doomed(p, u) && p.Failing?
    ensures PolicyEffect(p, PlanFailing(s, p, c), u)
  {
  }

  lemma DoomedAsking(s: State, p: Proc, c: Choice, u: Uid)
    requires Doomed(p, u) && p.Asking?
    ensures PolicyEffect(p, PlanAsking(s, p, c), u)
  {
  }

  lemma DoomedDropping(s: State, p: Proc, c: Choice, u: Uid)
    requires Doomed(p, u) && p.Dropping?
    ensures PolicyEffect(p, PlanDropping(s, p, c), u)
  {
  }

  /** An owner of a spoiled VM that still has a row to write is applying the policy to it. */
  lemma SpoiledOwner(s: State, i: Pid, u: Uid)
    requires Inv(s) && Spoiled(s, u) && i in s.procs && Acts(s.procs[i], u)
    requires u in s.db.vms && !s.db.vms[u].phase.Deleting?
    ensures Doomed(s.procs[i], u)
    ensures if HasLeasedPhase(s.db.vms[u]) then s.claimant[u] == i
              else AbandonedProvision(s.db.vms[u]) && s.births[u].maker == i
  {
    hide ProcsOk, OfficeSideOk, Base, BookSideOk, Held, OwnedBuild, YardSideOk, LiveCovered;
    Here(s, i);
  }

  lemma PolicyKeepsSpoiled(s: State, i: Pid, e: Effect, u: Uid)
    requires Spoiled(s, u) && i in s.procs && Doomed(s.procs[i], u) && PolicyEffect(s.procs[i], e, u)
    requires u in s.db.vms
    requires if HasLeasedPhase(s.db.vms[u]) then s.claimant[u] == i
               else AbandonedProvision(s.db.vms[u]) && s.births[u].maker == i
    ensures Spoiled(Apply(s, i, e), u)
  {
    hide Apply, Doomed, Claimer, Builder, ClaimGivenUp, BuildGivenUp, DbAfter;
    var p := s.procs[i];
    PolicyDb(s, i, e, u);
    BirthsAfter(s, i, e);
    ClaimsAfter(s, i, e);
    CallAfter(s, i, e);
    DoomedSide(s, i, u);
  }

  lemma PolicyDb(s: State, i: Pid, e: Effect, u: Uid)
    requires i in s.procs && PolicyEffect(s.procs[i], e, u)
    ensures
      var vms := Apply(s, i, e).db.vms;
      u in vms ==> vms[u].phase.Quarantined? || vms[u].phase.Deleting? || (u in s.db.vms && vms[u] == s.db.vms[u])
  {
    hide Apply, ClaimDoomed, Doomed, ClaimGivenUp, BuildGivenUp, Unrecorded, Builder;
    DbIs(s, i, e);
  }

  lemma DoomedSide(s: State, i: Pid, u: Uid)
    requires Spoiled(s, u) && i in s.procs && Doomed(s.procs[i], u) && u in s.db.vms
    ensures HasLeasedPhase(s.db.vms[u]) && s.claimant[u] == i ==> ClaimDoomed(s.procs[i], u)
    ensures AbandonedProvision(s.db.vms[u]) && s.births[u].maker == i ==> Builder(s.procs[i]).Some?
  {
  }

  /** A call that has given up and acts no more. */
  lemma GivenUpRests(s: State, i: Pid, c: Choice, u: Uid)
    requires i in s.procs && !Acts(s.procs[i], u) && (ClaimGivenUp(s.procs[i], u) || BuildGivenUp(s.procs[i], u))
    ensures Step(s, i, c) == s
  {
    var p := s.procs[i];
    if Doomed(p, u) {
      DoomedOwner(p, u);
    }
    EndedStays(s, p, c);
    ApplyStays(s, i);
  }

  /** A lease is committed only for a VM whose row is there to be written. */
  lemma CommitNeedsRow(s: State, i: Pid, c: Choice, u: Uid)
    requires Inv(s) && i in s.procs && u !in s.leaseOf && u in Step(s, i, c).leaseOf
    ensures s.procs[i].ClaimLeasing? && Owns(Claimer(s.procs[i]), u)
    ensures u in s.db.vms && !s.db.vms[u].phase.Deleting?
  {
    hide Inv, Plan, Apply, YardEffectOk, MakingOk, PoolEffectOk;
    StepAllowed(s, i, c);
    ClaimsAfter(s, i, Plan(s, s.procs[i], c));
  }

  /** Nobody leases a spoiled VM. */
  lemma SpoiledNotLeased(s: State, i: Pid, c: Choice, u: Uid)
    requires Inv(s) && Spoiled(s, u) && i in s.procs
    ensures u !in Step(s, i, c).leaseOf
  {
    hide Inv, Step, Claimer, Builder, Unrecorded;
    if u in Step(s, i, c).leaseOf {
      CommitNeedsRow(s, i, c, u);
      SpoiledOwner(s, i, u);
    }
  }

  /** The part of Spoiled that does not depend on the row. */
  lemma SpoiledBase(s: State, s': State, u: Uid)
    requires Spoiled(s, u) && OrphansFollow(s, s') && BirthsFollow(s, s')
    ensures u in s'.births && s'.births[u] == s.births[u] && !OwnedOrphan(s'.births, s'.procs, u)
  {
    hide OwnedOrphan, SpoiledRow, Occupied;
  }

  lemma GoneOrDeletingStays(s: State, s': State, u: Uid)
    requires Spoiled(s, u) && Guarantee(s, s') && u !in s'.leaseOf
    requires u in s.db.vms ==> s.db.vms[u].phase.Deleting?
    ensures Spoiled(s', u)
  {
    hide ClaimGivenUp, BuildGivenUp, OwnedOrphan, Occupied;
    SpoiledBase(s, s', u);
  }

  /** The calls that gave up on u are where they were, or acted on it themselves. */
  lemma LeftSpoiled(s: State, s': State, u: Uid, i: Pid)
    requires i in s.procs
    requires Spoiled(s, u) && Guarantee(s, s') && u !in s'.leaseOf && u in s.db.vms && !s.db.vms[u].phase.Deleting?
    requires RowLeft(s, s', u, i) && ClaimLeft(s, s', u, i)
    requires forall j | j in s.procs && (ClaimGivenUp(s.procs[j], u) || BuildGivenUp(s.procs[j], u)) ::
               j in s'.procs && s'.procs[j] == s.procs[j]
    ensures Spoiled(s', u)
  {
    hide ClaimGivenUp, BuildGivenUp, OwnedOrphan, Occupied;
    SpoiledBase(s, s', u);
  }

  lemma BystanderKeepsSpoiled(s: State, i: Pid, c: Choice, u: Uid)
    requires Inv(s) && Spoiled(s, u) && i in s.procs && !Acts(s.procs[i], u)
    requires u in s.db.vms && !s.db.vms[u].phase.Deleting?
    ensures Spoiled(Step(s, i, c), u)
  {
    hide Inv, Step, Acts, RowLeft, ClaimLeft, ClaimGivenUp, BuildGivenUp, Guarantee, SpoiledRow, OwnedOrphan;
    if ClaimGivenUp(s.procs[i], u) || BuildGivenUp(s.procs[i], u) {
      GivenUpRests(s, i, c, u);
    } else {
      StepFollows(s, i, c);
      SpoiledNotLeased(s, i, c, u);
      StepLeaves(s, i, c, u);
      OthersStay(s, i, c);
      LeftSpoiled(s, Step(s, i, c), u, i);
    }
  }

  lemma OthersStay(s: State, i: Pid, c: Choice)
    requires i in s.procs
    ensures forall j | j in s.procs && j != i :: j in Step(s, i, c).procs && Step(s, i, c).procs[j] == s.procs[j]
    ensures i in Step(s, i, c).procs && Step(s, i, c).procs[i] == After(s.procs[i], Plan(s, s.procs[i], c))
  {
    hide Plan, Apply, After;
    CallAfter(s, i, Plan(s, s.procs[i], c));
  }

  lemma OwnerKeepsSpoiled(s: State, i: Pid, c: Choice, u: Uid)
    requires Inv(s) && Spoiled(s, u) && i in s.procs && Acts(s.procs[i], u)
    requires u in s.db.vms && !s.db.vms[u].phase.Deleting?
    ensures Spoiled(Step(s, i, c), u)
  {
    hide Inv, Plan, Apply, Acts, Spoiled, Doomed, PolicyEffect;
    SpoiledOwner(s, i, u);
    DoomedPlan(s, s.procs[i], c, u);
    SpoiledHasBirth(s, u);
    PolicyKeepsSpoiled(s, i, Plan(s, s.procs[i], c), u);
  }

  lemma SpoiledHasBirth(s: State, u: Uid)
    requires Spoiled(s, u)
    ensures u in s.births
  {
    hide SpoiledRow, OwnedOrphan;
  }

  lemma StepKeepsSpoiled(s: State, i: Pid, c: Choice, u: Uid)
    requires Inv(s) && Spoiled(s, u) && i in s.procs
    ensures Spoiled(Step(s, i, c), u)
  {
    hide *;
    if u in s.db.vms && !s.db.vms[u].phase.Deleting? {
      if Acts(s.procs[i], u) { OwnerKeepsSpoiled(s, i, c, u); } else { BystanderKeepsSpoiled(s, i, c, u); }
    } else {
      StepFollows(s, i, c);
      SpoiledNotLeased(s, i, c, u);
      GoneOrDeletingStays(s, Step(s, i, c), u);
    }
  }

  lemma CalmKeepsSpoiled(s: State, s': State, u: Uid)
    requires Calm(s, s') && Spoiled(s, u)
    ensures Spoiled(s', u)
  {
    hide ClaimGivenUp, BuildGivenUp, OwnedOrphan, Occupied, Joined;
    CalmOrphans(s, s');
    if u in s.claimant && s.claimant[u] in s.procs {
      JoinedAt(s.procs, s'.procs, s.claimant[u]);
    }
    if s.births[u].maker in s.procs {
      JoinedAt(s.procs, s'.procs, s.births[u].maker);
    }
  }

  lemma RestartKeepsSpoiled(s: State, u: Uid)
    requires Inv(s) && Spoiled(s, u)
    ensures Spoiled(RestartState(s), u)
  {
    hide ProcsOk, Covered, ClaimGivenUp, BuildGivenUp;
    if u in s.db.vms {
      assert RowOk(FleetOf(s), u);
    }
  }

  lemma NextKeepsSpoiled(s: State, a: Action, u: Uid)
    requires Inv(s) && Spoiled(s, u)
    ensures Spoiled(Next(s, a), u)
  {
    hide *;
    if a.Advance? {
      NextAdvance(s, a.i, a.c);
      if a.i in s.procs { StepKeepsSpoiled(s, a.i, a.c, u); }
    } else if a.Restart? {
      NextRestart(s);
      RestartKeepsSpoiled(s, u);
    } else {
      EnvironmentIsCalm(s, a);
      CalmKeepsSpoiled(s, Next(s, a), u);
    }
  }

  lemma {:induction false} SpoiledForGood(s: State, actions: seq<Action>, u: Uid)
    requires Inv(s) && Spoiled(s, u)
    ensures Inv(Run(s, actions)) && Spoiled(Run(s, actions), u)
    decreases |actions|
  {
    hide *;
    if actions == [] {
      RunNone(s);
    } else {
      RunFirst(s, actions);
      NextKeeps(s, actions[0]);
      NextKeepsSpoiled(s, actions[0], u);
      SpoiledForGood(Next(s, actions[0]), actions[1..], u);
    }
  }

  /** A VM whose hooks failed, in Provision or in ClaimVM, is never AVAILABLE and never leased from
      then on, in every continuation of every run: it is QUARANTINED, DELETING or gone, or still in
      the phase it failed in, while its call is at work or because the policy's write got no answer. */
  lemma HookFailureIsFinal(before: seq<Action>, after: seq<Action>, i: Pid, u: Uid)
    requires i in Run(Initial(), before).procs && Doomed(Run(Initial(), before).procs[i], u)
    ensures
      var s := Run(Run(Initial(), before), after);
      && u !in s.leaseOf && (forall l | l in s.db.leases :: s.db.leases[l].vm != u)
      && (u in s.db.vms ==>
            var v := s.db.vms[u];
            || v.phase.Quarantined? || v.phase.Deleting?
            || ((HasLeasedPhase(v) || AbandonedProvision(v)) && (u in s.stranded || BeingDoomed(s, u))))
  {
    hide *;
    var s := Run(Initial(), before);
    EveryRun(before);
    DoomedSpoils(s, i, u);
    SpoiledForGood(s, after, u);
    SpoiledMeans(Run(s, after), u);
  }

  ghost predicate BeingDoomed(s: State, u: Uid) {
    exists i :: i in s.procs && Doomed(s.procs[i], u)
  }

  lemma SpoiledUnleased(s: State, u: Uid, l: LeaseId)
    requires Base(s) && u !in s.leaseOf && l in s.db.leases
    ensures s.db.leases[l].vm != u
  {
    hide RowsOk, TombstonesOk, ManagerOk, HostsOk, BornOk, RequestsOk;
    assert LeaseOk(s.db.vms, BookOf(s), l);
    assert MintOk(FleetOf(s), s.minted[l], l);
  }

  lemma SpoiledRowMeans(s: State, u: Uid)
    requires Covered(s) && u in s.births && u !in s.leaseOf && u in s.db.vms && SpoiledRow(s, s.db.vms[u], u)
    ensures
      var v := s.db.vms[u];
      || v.phase.Quarantined? || v.phase.Deleting?
      || ((HasLeasedPhase(v) || AbandonedProvision(v)) && (u in s.stranded || BeingDoomed(s, u)))
  {
    if HasLeasedPhase(s.db.vms[u]) {
      var i := s.claimant[u];
      assert Doomed(s.procs[i], u) || s.procs[i] == ClaimFailed(u);
      assert u in s.stranded || OwnedClaim(s.claimant, s.procs, u);
    } else if AbandonedProvision(s.db.vms[u]) {
      var i := s.births[u].maker;
      assert Doomed(s.procs[i], u) || s.procs[i].ProvFailed?;
      assert u in s.stranded || OwnedBuild(s.births, s.procs, u);
    }
  }

  lemma SpoiledMeans(s: State, u: Uid)
    requires Inv(s) && Spoiled(s, u)
    ensures u !in s.leaseOf && forall l | l in s.db.leases :: s.db.leases[l].vm != u
    ensures u in s.db.vms ==>
              var v := s.db.vms[u];
              || v.phase.Quarantined? || v.phase.Deleting?
              || ((HasLeasedPhase(v) || AbandonedProvision(v)) && (u in s.stranded || BeingDoomed(s, u)))
  {
    hide Base, ProcsOk, Covered, SpoiledRow, OwnedOrphan, BeingDoomed, HasLeasedPhase, AbandonedProvision;
    forall l | l in s.db.leases ensures s.db.leases[l].vm != u {
      SpoiledUnleased(s, u, l);
    }
    if u in s.db.vms {
      SpoiledRowMeans(s, u);
    }
  }
}
