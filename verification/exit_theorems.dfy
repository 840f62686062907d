/** What calls leave behind when they return, over every run: no VM stuck mid-claim or
    mid-provision, no reservation kept, unless a cleanup write itself failed. */
module ExitTheorems {
  import opened Records
  import opened Transactions
  import opened Protocol
  import opened Invariant
  import opened Plans
  import opened Frames
  import opened Environment
  import opened Runs
  import opened Guarantees

  // ---- no VM is stranded ----

  /** A call that has returned, or that has handed on whatever it worked on. */
  ghost predicate HandedOn(p: Proc) {
    Claimer(p).None? && Builder(p).None? && Unrecorded(p).None? && Reserver(p).None?
  }

  /** Every way out of ClaimVM leaves its VM with its committed lease, AVAILABLE, QUARANTINED,
      DELETING or gone, unless the write that was to do so failed. */
  lemma ClaimStrandsNothing(actions: seq<Action>, i: Pid, u: Uid)
    requires
      var s := Run(Initial(), actions);
      i in s.procs && HandedOn(s.procs[i]) && u in s.claimant && s.claimant[u] == i && u !in s.stranded
    ensures
      var s := Run(Initial(), actions);
      u in s.db.vms ==>
        var v := s.db.vms[u];
        || v.phase.Available? || v.phase.Quarantined? || v.phase.Deleting?
        || (v.phase.Leased? && u in s.leaseOf)
  {
    var s := Run(Initial(), actions);
    EveryRun(actions);
    if u in s.db.vms {
      assert RowOk(FleetOf(s), u);
      LeasedOrReturned(s, u);
    }
  }

  lemma LeasedOrReturned(s: State, u: Uid)
    requires Inv(s) && u in s.db.vms && u in s.claimant && u !in s.stranded
    requires s.claimant[u] in s.procs && Claimer(s.procs[s.claimant[u]]).None?
    ensures HasLeasedPhase(s.db.vms[u]) ==> u in s.leaseOf && s.db.vms[u].phase.Leased?
  {
    assert RowOk(FleetOf(s), u);
  }

  /** The failure policy's own write gets no answer. */
  ghost predicate Strands(s: State, a: Action, u: Uid) {
    a.Advance? && a.i in s.procs && s.procs[a.i].Failing? && s.procs[a.i].vm.uid == u && !a.c.ok
  }

  lemma FailingPlan(s: State, p: Proc, c: Choice)
    requires p.Failing?
    ensures Plan(s, p, c) == PlanFailing(s, p, c)
  {
    hide ClaimFirstPlan, ClaimLastPlan, LeaseSidePlan, BuildSidePlan, PoolSidePlan, PlanFailing, PlanAsking,
         PlanDropping;
  }

  lemma StepStrands(s: State, i: Pid, c: Choice, u: Uid)
    requires Inv(s) && i in s.procs
    ensures u in Step(s, i, c).stranded <==> u in s.stranded || Strands(s, Advance(i, c), u)
  {
    hide Inv, Plan, Apply, RowEffectOk, YardEffectOk, MakingOk, LeaseEffectOk;
    StepAllowed(s, i, c);
    FailuresAfter(s, i, Plan(s, s.procs[i], c));
    if s.procs[i].Failing? {
      FailingPlan(s, s.procs[i], c);
    }
  }

  /** A VM becomes stranded exactly when the failure policy's own write gets no answer, and stays so
      until a restart clears up. */
  lemma StrandedExactly(s: State, a: Action, u: Uid)
    requires Inv(s)
    ensures u in Next(s, a).stranded <==> !a.Restart? && (u in s.stranded || Strands(s, a, u))
  {
    hide Inv, Next, Step, Recover, CalmTables, Joined;
    if a.Advance? {
      NextAdvance(s, a.i, a.c);
      if a.i in s.procs { StepStrands(s, a.i, a.c, u); }
    } else if a.Restart? {
      NextRestart(s);
    } else {
      EnvironmentIsCalm(s, a);
    }
  }

  // ---- no reservation is kept ----

  ghost predicate Holds(p: Proc, pl: PlacementId) {
    Reserver(p).Some? && Reserver(p).value.0 == pl
  }

  /** Every reservation in the table has its Provision call at work, or its release failed. */
  ghost predicate ReservationsOwned(s: State) {
    forall pl | pl in s.db.placements && pl !in s.unreleased ::
      pl in s.placed && s.placed[pl] in s.procs && Holds(s.procs[s.placed[pl]], pl)
  }

  lemma EffectKeepsOwned(s: State, i: Pid, p: Proc, e: Effect)
    requires ReservationsOwned(s) && IsAt(s, i, p) && YardEffectOk(s, p, e)
    ensures ReservationsOwned(Apply(s, i, e))
  {
    CallAfter(s, i, e);
    PlacementsAfter(s, i, e);
    PlacedAfter(s, i, e);
  }

  lemma StepKeepsOwned(s: State, i: Pid, c: Choice)
    requires Inv(s) && ReservationsOwned(s) && i in s.procs
    ensures ReservationsOwned(Step(s, i, c))
  {
    hide Inv, ReservationsOwned, Apply, Plan, YardEffectOk, RowEffectOk, MakingOk, LeaseEffectOk, PoolEffectOk;
    StepAllowed(s, i, c);
    EffectKeepsOwned(s, i, s.procs[i], Plan(s, s.procs[i], c));
  }

  lemma CalmKeepsOwned(s: State, s': State)
    requires ReservationsOwned(s) && Calm(s, s')
    ensures ReservationsOwned(s')
  {
    hide Begins, Holds, Joined;
    forall pl | pl in s'.db.placements && pl !in s'.unreleased
      ensures pl in s'.placed && s'.placed[pl] in s'.procs && Holds(s'.procs[s'.placed[pl]], pl)
    {
      JoinedAt(s.procs, s'.procs, s.placed[pl]);
    }
  }

  lemma ActionKeepsOwned(s: State, a: Action)
    requires Inv(s) && ReservationsOwned(s)
    ensures ReservationsOwned(Next(s, a))
  {
    hide *;
    if a.Advance? {
      NextAdvance(s, a.i, a.c);
      if a.i in s.procs { StepKeepsOwned(s, a.i, a.c); }
    } else if a.Restart? {
      NextRestart(s);
      RestartKeepsOwned(s);
    } else {
      EnvironmentIsCalm(s, a);
      CalmKeepsOwned(s, Next(s, a));
    }
  }

  lemma RestartKeepsOwned(s: State)
    ensures ReservationsOwned(RestartState(s))
  {
  }

  lemma {:induction false} RunKeepsOwned(s: State, actions: seq<Action>)
    requires Inv(s) && ReservationsOwned(s)
    ensures ReservationsOwned(Run(s, actions))
    decreases |actions|
  {
    hide Next, Inv, ReservationsOwned;
    if actions != [] {
      NextKeeps(s, actions[0]);
      ActionKeepsOwned(s, actions[0]);
      RunKeepsOwned(Next(s, actions[0]), actions[1..]);
    }
  }

  /** A Provision call that returned has released its reservation, unless the release failed. */
  lemma ReservationsReleased(actions: seq<Action>, i: Pid, pl: PlacementId)
    requires
      var s := Run(Initial(), actions);
      i in s.procs && HandedOn(s.procs[i]) && pl in s.placed && s.placed[pl] == i && pl !in s.unreleased
    ensures pl !in Run(Initial(), actions).db.placements
  {
    InitialOk();
    RunKeepsOwned(Initial(), actions);
  }
}
