/** What a lease is worth to its holder, over every run: the terms a claim commits and a heartbeat
    renews, and that nothing touches the lease or its VM before the expiry time in the row except a
    release, a forced pool delete or the next heartbeat. */
module LeaseTerms {
  import opened Records
  import opened Transactions
  import opened Protocol
  import opened Invariant
  import opened Stability
  import opened Plans
  import opened Frames
  import opened Runs
  import opened Guarantees
  import opened Outcomes
  import opened LeaseTheorems
  import opened Lifecycle
  import opened Takedowns
  import opened Running

  // ---- the terms of a new lease ----

  lemma WhatAddsLeases(db: Db, e: Effect, l: LeaseId)
    requires l !in db.leases && l in DbAfter(db, e).leases
    ensures (e.Commits? || e.Renews?) && e.l.id == l
  {
  }

  lemma OnlyCommitsAdd(s: State, i: Pid, c: Choice, l: LeaseId)
    requires Inv(s) && i in s.procs && l !in s.db.leases && l in Step(s, i, c).db.leases
    ensures
      var e := Plan(s, s.procs[i], c);
      && s.procs[i].ClaimLeasing? && e.Commits? && e.l.id == l
      && Step(s, i, c).db == DbAfter(s.db, e)
  {
    hide Inv, Base, ProcsOk, Covered, Plan, Apply, RowEffectOk, YardEffectOk, MakingOk, PoolEffectOk, DbAfter;
    var e := Plan(s, s.procs[i], c);
    InvParts(s);
    StepAllowed(s, i, c);
    LeasesKeyed(s);
    DbIs(s, i, e);
    WhatAddsLeases(s.db, e, l);
  }

  /** What the committing claim holds, and the row it finds. */
  lemma LeasingRow(s: State, i: Pid, p: Proc)
    requires Base(s) && AtPoint(s, i, p) && p.ClaimLeasing?
    ensures p.vm.pool == p.pool
    ensures p.vm.uid in s.db.vms && !s.db.vms[p.vm.uid].phase.Deleting? ==> Claimed(s.db.vms[p.vm.uid])
  {
    hide Base, ProcsOk, Claimer, Builder, Held, Unrecorded;
    Here(s, i);
    WriterHolds(p);
    if p.vm.uid in s.db.vms {
      ClaimerRow(s, i, p.vm);
    }
  }

  /** Every lease row a step adds is of a claim that commits: its id was never used, it names the VM
      the call claimed, of the pool asked for, with the request id asked for; it counts from the time
      of the commit and expires one threshold later; and the VM becomes LEASED under it. */
  lemma NewLeases(s: State, a: Action, l: LeaseId)
    requires Inv(s) && l !in s.db.leases && l in Next(s, a).db.leases
    ensures a.Advance? && a.i in s.procs && s.procs[a.i].ClaimLeasing? && a.c.ok && l !in s.minted
    ensures
      var p, m := s.procs[a.i], Next(s, a).db.leases[l];
      && m.id == l && m.vm == p.vm.uid && m.pool == p.pool && m.request == p.request
      && m.claimedAt == a.c.now && m.heartbeatAt == a.c.now && m.expiresAt == a.c.now + p.spec.expiryThreshold
    ensures
      var u := s.procs[a.i].vm.uid;
      && u in s.db.vms && Claimed(s.db.vms[u]) && u in Next(s, a).db.vms
      && Next(s, a).db.vms[u].phase.Leased? && Next(s, a).db.vms[u].leaseId == Some(l)
      && Next(s, a).db.vms[u].pool == s.procs[a.i].pool
  {
    hide Inv, Base, ProcsOk, Next, Step, Plan, YardEffectOk, MakingOk, PoolEffectOk, LeaseEffectOk;
    InvParts(s);
    if !a.Advance? {
      EnvironmentKeepsLeases(s, a);
    }
    NextAdvance(s, a.i, a.c);
    OnlyCommitsAdd(s, a.i, a.c, l);
    CommitWrites(s, s.procs[a.i], a.c);
    StepAllowed(s, a.i, a.c);
    LeasingRow(s, a.i, s.procs[a.i]);
  }

  // ---- a lease holds until its expiry time ----

  /** The action is no step of a release of the lease, no forced delete of its pool, no heartbeat write
      for it, and no expiry of it at or after its expiry time. */
  ghost predicate Spares(s: State, a: Action, m: Lease) {
    a.Advance? && a.i in s.procs ==>
      var p := s.procs[a.i];
      && !((p.ReleaseMarking? || p.ReleaseDropping? || p.Closing?) && p.lease.id == m.id)
      && !(p.DelReady? && p.force && p.key == m.pool)
      && !(p.BeatWriting? && p.lease.id == m.id)
      && !(p.ExpiryStart? && p.id == m.id && m.expiresAt <= p.now)
  }

  /** m is a lease row, and its VM is LEASED. */
  ghost predicate InForce(s: State, m: Lease) {
    && m.id in s.db.leases && s.db.leases[m.id] == m
    && m.vm in s.db.vms && s.db.vms[m.vm].phase.Leased?
  }

  lemma InForceFacts(s: State, m: Lease)
    requires Base(s) && InForce(s, m)
    ensures s.db.vms[m.vm].uid == m.vm && s.db.vms[m.vm].leaseId == Some(m.id) && s.db.vms[m.vm].pool == m.pool
    ensures m.id in s.minted && s.minted[m.id] == m && m.vm in s.leaseOf
  {
    hide Covered, ManagerOk, HostsOk, TombstonesOk, GivenOk, RequestsOk;
    assert LeaseOk(s.db.vms, BookOf(s), m.id);
    assert MintOk(FleetOf(s), s.minted[m.id], m.id);
    assert RowOk(FleetOf(s), m.vm);
  }

  lemma LeaseKept(s: State, a: Action, m: Lease)
    requires Inv(s) && InForce(s, m) && Spares(s, a, m)
    ensures m.id in Next(s, a).db.leases && Next(s, a).db.leases[m.id] == m
  {
    hide Inv, Base, ProcsOk, Covered, Next;
    InvParts(s);
    InForceFacts(s, m);
    if m.id !in Next(s, a).db.leases {
      WhyLeasesEnd(s, a, m.id);
    } else if Next(s, a).db.leases[m.id] != m {
      OnlyHeartbeatsRewrite(s, a, m.id);
    }
  }

  /** The lease a release or an expiry condemns a VM for is the VM's one lease. */
  lemma MarksItsLease(s: State, i: Pid, m: Lease)
    requires Inv(s) && InForce(s, m) && i in s.procs && (s.procs[i].ReleaseMarking? || s.procs[i].ExpiryMarking?)
    requires s.procs[i].lease.vm == m.vm
    ensures s.procs[i].ReleaseMarking? && s.procs[i].lease.id == m.id
  {
    hide Base, Covered, FleetSideOk, YardSideOk, OfficeSideOk;
    InForceFacts(s, m);
    Here(s, i);
    OneLeaseEver(s, s.procs[i].lease.id, m.id);
  }

  lemma RowKept(s: State, a: Action, m: Lease)
    requires Inv(s) && InForce(s, m) && Spares(s, a, m) && m.vm in Next(s, a).db.vms
    ensures Next(s, a).db.vms[m.vm] == s.db.vms[m.vm]
  {
    hide Inv, Base, ProcsOk, Covered, Next;
    InvParts(s);
    InForceFacts(s, m);
    if Next(s, a).db.vms[m.vm] != s.db.vms[m.vm] {
      RowChanges(s, a, m.vm);
      if a.Advance? && a.i in s.procs && EndChange(s.procs[a.i], s.db.vms[m.vm], Next(s, a).db.vms[m.vm]) {
        MarksItsLease(s, a.i, m);
      }
    }
  }

  lemma StillHolds(before: seq<Action>, a: Action, m: Lease)
    requires InForce(Run(Initial(), before), m) && Spares(Run(Initial(), before), a, m)
    ensures
      var s, s' := Run(Initial(), before), Next(Run(Initial(), before), a);
      InForce(s', m) && s'.db.vms[m.vm] == s.db.vms[m.vm]
  {
    hide Inv, Base, Run, Next, Spares;
    var s := Run(Initial(), before);
    EveryRun(before);
    InvParts(s);
    InForceFacts(s, m);
    LeaseKept(s, a, m);
    if m.vm !in Next(s, a).db.vms {
      RowsGoDeleting(before, a, m.vm);
    }
    RowKept(s, a, m);
  }

  lemma HolderRuns(actions: seq<Action>, m: Lease)
    requires InForce(Run(Initial(), actions), m)
    ensures m.vm in Run(Initial(), actions).live
  {
    hide Run, Inv, Base;
    EveryRun(actions);
    InvParts(Run(Initial(), actions));
    InForceFacts(Run(Initial(), actions), m);
    RowsRun(actions, m.vm);
  }

  /** Every action of the run spares the lease. */
  ghost predicate Spared(s: State, actions: seq<Action>, m: Lease)
    decreases |actions|
  {
    actions != [] ==> Spares(s, actions[0], m) && Spared(Next(s, actions[0]), actions[1..], m)
  }

  /** A lease holds: until it is released, renewed, expired at or after its expiry time, or lost to a
      forced pool delete, its row and the row of its VM stay as they are, and the microVM runs,
      whatever drains, cordons, sweeps, other claims and crashes happen. */
  lemma {:induction false} LeaseHolds(before: seq<Action>, after: seq<Action>, m: Lease)
    requires InForce(Run(Initial(), before), m) && Spared(Run(Initial(), before), after, m)
    ensures
      var s, s' := Run(Initial(), before), Run(Run(Initial(), before), after);
      && m.id in s'.db.leases && s'.db.leases[m.id] == m
      && m.vm in s'.db.vms && s'.db.vms[m.vm] == s.db.vms[m.vm] && m.vm in s'.live
    decreases |after|
  {
    hide Run, Next, Spares;
    var s := Run(Initial(), before);
    if after == [] {
      RunNone(s);
      HolderRuns(before, m);
    } else {
      var a := after[0];
      StillHolds(before, a, m);
      RunLast(Initial(), before + [a]);
      assert (before + [a])[..|before|] == before;
      LeaseHolds(before + [a], after[1..], m);
      RunFirst(s, after);
    }
  }

  // ---- after a claim, after a heartbeat ----

  lemma BeatPlanIs(s: State, p: Proc, c: Choice)
    requires p.BeatWriting?
    ensures Plan(s, p, c) == PlanBeatWriting(s, p, c)
  {
    hide ClaimSidePlan, ReleasePlan, ClosingPlan, ExpiryPlan, BuildSidePlan, PoolSidePlan, PlanBeatStart, PlanBeatGot,
      PlanBeatWriting;
  }

  lemma ExpiryPlanIs(s: State, p: Proc, c: Choice)
    requires InExpiry(p)
    ensures Plan(s, p, c) == ExpiryPlan(s, p, c)
  {
    hide ClaimSidePlan, ReleasePlan, ClosingPlan, BeatPlan, ExpiryPlan, BuildSidePlan, PoolSidePlan;
  }

  lemma ExpiryTakes(s: State, i: Pid, p: Proc, c: Choice)
    requires IsAt(s, i, p) && p.ExpiryStart? && c.ok
    ensures
      Next(s, Advance(i, c)).db.leases ==
      if p.id in s.db.leases && s.db.leases[p.id].expiresAt <= p.now then s.db.leases - {p.id} else s.db.leases
  {
    hide Next, Plan, Apply;
    NextAdvance(s, i, c);
    ExpiryPlanIs(s, p, c);
    DbIs(s, i, Plan(s, p, c));
  }

  /** An expiry that is answered, at or after the expiry time in the row, ends the lease for good: the
      row is in no later state of any run. Before that time it ends none. */
  lemma ExpiryIsFinal(before: seq<Action>, i: Pid, p: Proc, c: Choice, after: seq<Action>)
    requires IsAt(Run(Initial(), before), i, p) && p.ExpiryStart? && c.ok && p.id in Run(Initial(), before).db.leases
    ensures
      var s := Run(Initial(), before);
      var s1 := Next(s, Advance(i, c));
      if s.db.leases[p.id].expiresAt <= p.now then p.id !in Run(s1, after).db.leases else s1.db.leases == s.db.leases
  {
    hide Run, Next, Inv, Base;
    var s := Run(Initial(), before);
    EveryRun(before);
    InvParts(s);
    LeasesKeyed(s);
    ExpiryTakes(s, i, p, c);
    NextKeeps(s, Advance(i, c));
    MintedStays(s, Advance(i, c), p.id);
    EndedForGood(Next(s, Advance(i, c)), after, p.id);
  }

  lemma MintedStays(s: State, a: Action, l: LeaseId)
    requires Inv(s) && l in s.minted
    ensures l in Next(s, a).minted && (l !in s.db.leases ==> l !in Next(s, a).db.leases)
  {
    hide Inv, Next, RowsFollow, OrphansFollow, BirthsFollow, YardFollows;
    NextFollows(s, a);
  }

  lemma EndedForGood(s: State, actions: seq<Action>, l: LeaseId)
    requires Inv(s) && l in s.minted
    ensures l !in s.db.leases ==> l !in Run(s, actions).db.leases
  {
    hide Inv, Run;
    BookKeptForGood(s, actions);
  }

  // ---- a sweep ends the lease of the VM it removed ----

  /** The call is ending lease l, or the lease has ended. */
  ghost predicate EndsIt(s: State, i: Pid, l: LeaseId) {
    && l in s.minted && i in s.procs
    && (l in s.db.leases ==>
         || (s.procs[i].Finishing? && s.procs[i].vm.leaseId == Some(l))
         || (s.procs[i].Closing? && s.procs[i].lease.id == l))
  }

  lemma FinishSteps(s: State, i: Pid, p: Proc, c: Choice)
    requires IsAt(s, i, p) && (p.Finishing? || p.Closing?) && c.ok
    ensures
      var q, leases' := After(p, Plan(s, p, c)), Step(s, i, c).db.leases;
      && (p.Closing? ==> leases' == s.db.leases - {p.lease.id})
      && (p.Finishing? && p.vm.leaseId.Some? && p.vm.leaseId.value in s.db.leases ==>
            leases' == s.db.leases && q == Closing(s.db.leases[p.vm.leaseId.value]))
  {
    hide Plan, Apply;
    ReleasePlanIs(s, p, c);
    DbIs(s, i, Plan(s, p, c));
  }

  lemma EndsStep(s: State, i: Pid, l: LeaseId, c: Choice)
    requires Inv(s) && EndsIt(s, i, l) && c.ok
    ensures EndsIt(Next(s, Advance(i, c)), i, l)
  {
    hide Inv, Base, Next, Step, Plan, After;
    InvParts(s);
    LeasesKeyed(s);
    MintedStays(s, Advance(i, c), l);
    NextAdvance(s, i, c);
    OthersStay(s, i, c);
    if l in s.db.leases {
      FinishSteps(s, i, s.procs[i], c);
    }
  }

  lemma EndsOther(s: State, i: Pid, l: LeaseId, a: Action)
    requires Inv(s) && EndsIt(s, i, l) && !a.Restart? && !(a.Advance? && a.i == i)
    ensures EndsIt(Next(s, a), i, l)
  {
    hide Inv, Next;
    MintedStays(s, a, l);
    StaysPut(s, a, i);
  }

  lemma StaysPut(s: State, a: Action, i: Pid)
    requires i in s.procs && !a.Restart? && !(a.Advance? && a.i == i)
    ensures i in Next(s, a).procs && Next(s, a).procs[i] == s.procs[i]
  {
    hide Next, Step, Plan, After;
    if a.Advance? {
      NextAdvance(s, a.i, a.c);
      if a.i in s.procs { OthersStay(s, a.i, a.c); }
    } else {
      CallsStay(s, a, i);
    }
  }

  /** The call's own steps in the run are answered, and there is no crash. */
  predicate Answered(actions: seq<Action>, i: Pid) {
    forall n | 0 <= n < |actions| ::
      !actions[n].Restart? && (actions[n].Advance? && actions[n].i == i ==> actions[n].c.ok)
  }

  /** FinishVMDeletion, under any interleaving with other calls: in every run in which its own steps are
      answered, the lease the removed VM carried has ended by the time the call is done. */
  lemma {:induction false} FinishEndsLease(s: State, actions: seq<Action>, i: Pid, l: LeaseId)
    requires Inv(s) && EndsIt(s, i, l) && Answered(actions, i)
    ensures EndsIt(Run(s, actions), i, l)
    decreases |actions|
  {
    hide Inv, Next, Run, EndsIt;
    if actions == [] {
      RunNone(s);
    } else {
      var a := actions[0];
      RunFirst(s, actions);
      NextKeeps(s, a);
      if a.Advance? && a.i == i { EndsStep(s, i, l, a.c); } else { EndsOther(s, i, l, a); }
      FinishEndsLease(Next(s, a), actions[1..], i, l);
    }
  }

  /** A heartbeat write renews the row it finds, and touches nothing else. */
  lemma BeatWrites(s: State, i: Pid, c: Choice)
    requires i in s.procs && s.procs[i].BeatWriting? && c.ok && s.procs[i].lease.id in s.db.leases
    requires s.db.leases[s.procs[i].lease.id].id == s.procs[i].lease.id
    ensures
      var s' := Next(s, Advance(i, c));
      var l, m := s.procs[i].lease.id, s.db.leases[s.procs[i].lease.id];
      && s'.db.vms == s.db.vms && l in s'.db.leases
      && s'.db.leases[l] == m.(heartbeatAt := c.now, expiresAt := c.now + s.procs[i].threshold)
  {
    hide Next, Plan, Apply;
    NextAdvance(s, i, c);
    BeatPlanIs(s, s.procs[i], c);
    DbIs(s, i, Plan(s, s.procs[i], c));
  }

  /** A heartbeat answered with the expiry time t: until the lease is released, renewed again or lost
      to a forced pool delete, no expiry at a time before t touches the lease or its VM. */
  lemma HeartbeatHolds(before: seq<Action>, i: Pid, c: Choice, after: seq<Action>, m: Lease)
    requires
      var s := Run(Initial(), before);
      && i in s.procs && s.procs[i].BeatWriting? && c.ok && s.procs[i].lease.id in s.db.leases
      && InForce(s, s.db.leases[s.procs[i].lease.id])
      && m == s.db.leases[s.procs[i].lease.id].(heartbeatAt := c.now, expiresAt := c.now + s.procs[i].threshold)
      && Spared(Next(s, Advance(i, c)), after, m)
    ensures
      var s' := Run(Next(Run(Initial(), before), Advance(i, c)), after);
      && m.id in s'.db.leases && s'.db.leases[m.id] == m
      && m.vm in s'.db.vms && s'.db.vms[m.vm] == Run(Initial(), before).db.vms[m.vm] && m.vm in s'.live
  {
    hide Run, Next, Spared, Base;
    var s := Run(Initial(), before);
    EveryRun(before);
    LeasesKeyed(s);
    BeatWrites(s, i, c);
    RunLast(Initial(), before + [Advance(i, c)]);
    assert (before + [Advance(i, c)])[..|before|] == before;
    LeaseHolds(before + [Advance(i, c)], after, m);
  }

  /** A claim that committed: until the lease is released, renewed or lost to a forced pool delete, no
      expiry before its threshold has passed touches the lease or its VM. */
  lemma ClaimHolds(before: seq<Action>, i: Pid, c: Choice, after: seq<Action>, l: LeaseId)
    requires
      var s := Run(Initial(), before);
      var s1 := Next(s, Advance(i, c));
      && i in s.procs && l !in s.db.leases && l in s1.db.leases
      && Spared(s1, after, s1.db.leases[l])
    ensures
      var s := Run(Initial(), before);
      var s' := Run(Next(s, Advance(i, c)), after);
      && s.procs[i].ClaimLeasing? && l in s'.db.leases
      && s'.db.leases[l] ==
         Lease(l, s.procs[i].vm.uid, s.procs[i].pool, c.now, c.now, c.now + s.procs[i].spec.expiryThreshold,
               s.procs[i].request)
      && s.procs[i].vm.uid in s'.db.vms && s'.db.vms[s.procs[i].vm.uid].phase.Leased?
      && s'.db.vms[s.procs[i].vm.uid].leaseId == Some(l) && s.procs[i].vm.uid in s'.live
  {
    hide Run, Next, Spared, Inv;
    var s := Run(Initial(), before);
    EveryRun(before);
    NewLeases(s, Advance(i, c), l);
    RunLast(Initial(), before + [Advance(i, c)]);
    assert (before + [Advance(i, c)])[..|before|] == before;
    LeaseHolds(before + [Advance(i, c)], after, Next(s, Advance(i, c)).db.leases[l]);
  }
}
