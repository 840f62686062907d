/** Idempotent claims, over every run: one lease per request id, a loser that gives its VM back, and
    answers that name a lease which was there while the call ran. */
module ClaimTheorems {
  import opened Records
  import opened Transactions
  import opened Protocol
  import opened Invariant
  import opened Stability
  import opened Plans
  import opened Frames
  import opened Replies
  import opened Environment
  import opened Runs
  import opened Guarantees
  import opened LeaseTheorems
  import opened Outcomes
  import opened Fates

  // ---- one lease per request id ----

  /** However many calls use the same request id, at any moment at most one lease row carries it. */
  lemma OneLeasePerRequest(actions: seq<Action>, l: LeaseId, m: LeaseId)
    requires
      var leases := Run(Initial(), actions).db.leases;
      l in leases && m in leases && leases[l].request.Some? && leases[l].request == leases[m].request
    ensures l == m
  {
    hide Run;
    EveryRun(actions);
  }

  // ---- the loser of a race gives its VM back ----

  /** A claim that has yielded, or returned. */
  predicate AfterYield(p: Proc) {
    p.ClaimYielded? || p.ClaimReplay? || p.ClaimOk? || p.Done?
  }

  ghost predicate Idle(db: Db, u: Uid) {
    u in db.vms ==> (db.vms[u].phase.Available? && db.vms[u].leaseId.None?) || db.vms[u].phase.Deleting?
  }

  /** Unless another call has claimed u since, u has no lease and is AVAILABLE, DELETING or gone. */
  ghost predicate GivenBack(s: State, i: Pid, u: Uid) {
    && i in s.procs && AfterYield(s.procs[i]) && u in s.births && u in s.claimant
    && (s.claimant[u] == i ==> u !in s.leaseOf && Idle(s.db, u))
  }

  lemma ClaimedNoOrphan(s: State, u: Uid)
    requires Inv(s) && u in s.claimant
    ensures !OwnedOrphan(s.births, s.procs, u)
  {
    hide Inv, Unrecorded;
    if OwnedOrphan(s.births, s.procs, u) {
      WorkerFacts(s, s.births[u].maker, u);
    }
  }

  /** Only u's claimant, which has yielded, could have acted on it. */
  lemma NobodyActs(s: State, i: Pid, j: Pid, u: Uid)
    requires Inv(s) && GivenBack(s, i, u) && s.claimant[u] == i && j in s.procs && Free(s.db, u)
    ensures !Acts(s.procs[j], u)
  {
    hide Inv, Builder, Unrecorded;
    if Owns(Claimer(s.procs[j]), u) {
      ClaimerFacts(s, j, u);
    } else if AtWork(s.procs[j], u) {
      WorkerFacts(s, j, u);
    }
  }

  lemma NobodyLeases(s: State, i: Pid, j: Pid, c: Choice, u: Uid)
    requires Inv(s) && GivenBack(s, i, u) && s.claimant[u] == i && j in s.procs
    ensures u !in Step(s, j, c).leaseOf
  {
    hide Inv, Step, Idle;
    if u in Step(s, j, c).leaseOf {
      CommitNeedsRow(s, j, c, u);
      ClaimerFacts(s, j, u);
    }
  }

  lemma YieldedMoves(s: State, i: Pid, c: Choice)
    requires i in s.procs && AfterYield(s.procs[i])
    ensures
      var s' := Step(s, i, c);
      s'.db == s.db && i in s'.procs && AfterYield(s'.procs[i])
  {
    hide Plan, Apply, ReadsLease;
    var e := Plan(s, s.procs[i], c);
    PlanReplied(s, s.procs[i], c);
    OthersStay(s, i, c);
    DbIs(s, i, e);
  }

  lemma RowStaysIdle(s: State, i: Pid, j: Pid, c: Choice, u: Uid)
    requires Inv(s) && GivenBack(s, i, u) && s.claimant[u] == i && j in s.procs && j != i
    requires u in Step(s, j, c).claimant && Step(s, j, c).claimant[u] == i
    ensures Idle(Step(s, j, c).db, u)
  {
    hide Inv, Step, Acts, AfterYield, OwnedOrphan, OrphansFollow, BirthsFollow, YardFollows, LeasesFollow;
    StepFollows(s, j, c);
    ClaimedNoOrphan(s, u);
    if Free(s.db, u) {
      NobodyActs(s, i, j, u);
      StepLeaves(s, j, c, u);
    }
  }

  lemma StepKeepsGivenBack(s: State, i: Pid, j: Pid, c: Choice, u: Uid)
    requires Inv(s) && GivenBack(s, i, u) && j in s.procs
    ensures GivenBack(Step(s, j, c), i, u)
  {
    hide Inv, Plan, Step, Idle, RowsFollow, OrphansFollow, YardFollows, LeasesFollow, Occupied;
    StepFollows(s, j, c);
    StepLeaves(s, j, c, u);
    OthersStay(s, j, c);
    if i == j {
      YieldedMoves(s, i, c);
    }
    var s' := Step(s, j, c);
    if s'.claimant[u] == i {
      assert s.claimant[u] == i;
      NobodyLeases(s, i, j, c, u);
      if i != j {
        RowStaysIdle(s, i, j, c, u);
      }
    }
  }

  lemma CalmKeepsGivenBack(s: State, s': State, i: Pid, u: Uid)
    requires Calm(s, s') && GivenBack(s, i, u)
    ensures GivenBack(s', i, u)
  {
    hide Joined;
    JoinedAt(s.procs, s'.procs, i);
  }

  lemma RestartKeepsGivenBack(s: State, i: Pid, u: Uid)
    requires GivenBack(s, i, u)
    ensures GivenBack(RestartState(s), i, u)
  {
  }

  lemma NextKeepsGivenBack(s: State, a: Action, i: Pid, u: Uid)
    requires Inv(s) && GivenBack(s, i, u)
    ensures GivenBack(Next(s, a), i, u)
  {
    hide *;
    if a.Advance? {
      NextAdvance(s, a.i, a.c);
      if a.i in s.procs { StepKeepsGivenBack(s, i, a.i, a.c, u); }
    } else if a.Restart? {
      NextRestart(s);
      RestartKeepsGivenBack(s, i, u);
    } else {
      EnvironmentIsCalm(s, a);
      CalmKeepsGivenBack(s, Next(s, a), i, u);
    }
  }

  lemma {:induction false} GivenBackForGood(s: State, actions: seq<Action>, i: Pid, u: Uid)
    requires Inv(s) && GivenBack(s, i, u)
    ensures GivenBack(Run(s, actions), i, u)
    decreases |actions|
  {
    hide *;
    if actions == [] {
      RunNone(s);
    } else {
      RunFirst(s, actions);
      NextKeeps(s, actions[0]);
      NextKeepsGivenBack(s, actions[0], i, u);
      GivenBackForGood(Next(s, actions[0]), actions[1..], i, u);
    }
  }

  lemma YieldPlan(s: State, p: Proc, c: Choice)
    requires p.ClaimYielding?
    ensures Plan(s, p, c) == PlanClaimYielding(s, p, c)
  {
    hide ClaimFirstPlan, DeletePlan, LeaseSidePlan, BuildSidePlan, PoolSidePlan, PlanClaimLeasing, PlanClaimYielding,
      PlanClaimYielded, PlanClaimReplay;
  }

  lemma ClaimerIs(p: Proc)
    requires p.ClaimYielding?
    ensures Owns(Claimer(p), p.vm.uid)
  {
  }

  lemma ClaimedBorn(s: State, u: Uid)
    requires Inv(s) && u in s.claimant
    ensures u in s.births
  {
  }

  lemma YieldGivesBack(s: State, i: Pid, c: Choice)
    requires Inv(s) && i in s.procs && s.procs[i].ClaimYielding? && c.ok
    ensures GivenBack(Step(s, i, c), i, s.procs[i].vm.uid)
  {
    hide Inv, Plan, Apply, Claimer;
    var p := s.procs[i];
    var e := Plan(s, p, c);
    ClaimerIs(p);
    ClaimerFacts(s, i, p.vm.uid);
    ClaimedBorn(s, p.vm.uid);
    YieldPlan(s, p, c);
    OthersStay(s, i, c);
    DbIs(s, i, e);
    ClaimsAfter(s, i, e);
    BirthsAfter(s, i, e);
  }

  lemma YieldFails(s: State, i: Pid, c: Choice)
    requires i in s.procs && s.procs[i].ClaimYielding? && !c.ok
    ensures i in Step(s, i, c).procs && Doomed(Step(s, i, c).procs[i], s.procs[i].vm.uid)
  {
    hide Plan, Apply;
    YieldPlan(s, s.procs[i], c);
    OthersStay(s, i, c);
  }

  /** The loser of a race on a request id puts its VM back. From that write on, in every continuation
      of every run and until another call claims the VM, the VM has no lease and is AVAILABLE without
      a lease id, DELETING or gone. If the write got no answer, the failure policy has spoiled the VM
      for good. Either way the loser's VM is never leased to it. */
  lemma LoserYields(before: seq<Action>, c: Choice, after: seq<Action>, i: Pid)
    requires i in Run(Initial(), before).procs && Run(Initial(), before).procs[i].ClaimYielding?
    ensures
      var s := Run(Initial(), before);
      var u := s.procs[i].vm.uid;
      var s' := Run(Next(s, Advance(i, c)), after);
      if c.ok then u in s'.claimant && (s'.claimant[u] == i ==> u !in s'.leaseOf && Idle(s'.db, u))
      else u !in s'.leaseOf && !Free(s'.db, u) && Spoiled(s', u)
  {
    hide Inv, Run, Next, Step, Spoiled, Doomed;
    var s := Run(Initial(), before);
    var u := s.procs[i].vm.uid;
    EveryRun(before);
    NextAdvance(s, i, c);
    NextKeeps(s, Advance(i, c));
    var s1 := Next(s, Advance(i, c));
    if c.ok {
      YieldGivesBack(s, i, c);
      GivenBackForGood(s1, after, i, u);
    } else {
      YieldFails(s, i, c);
      DoomedSpoils(s1, i, u);
      SpoiledForGood(s1, after, u);
      SpoiledNotFree(Run(s1, after), u);
      SpoiledMeans(Run(s1, after), u);
    }
  }

  // ---- a retry takes nothing while the first lease lives ----

  /** A claim with this request id that has not begun to take a VM, or has been answered. */
  predicate TakingNothing(p: Proc, request: Option<RequestId>) {
    || ((p.ClaimStart? || p.ClaimLookup?) && p.request == request)
    || p.ClaimReplay? || p.ClaimOk? || p.Done?
  }

  ghost predicate Carrying(db: Db, l: LeaseId, request: Option<RequestId>) {
    l in db.leases && db.leases[l].request == request
  }

  ghost predicate CarryingThroughout(s: State, actions: seq<Action>, l: LeaseId, request: Option<RequestId>)
    decreases |actions|
  {
    Carrying(s.db, l, request) && (actions != [] ==> CarryingThroughout(Next(s, actions[0]), actions[1..], l, request))
  }

  /** Call i has claimed no VM in s' that it had not in s. */
  ghost predicate TookNothing(s: State, s': State, i: Pid) {
    forall u | u in s'.claimant && s'.claimant[u] == i :: u in s.claimant && s.claimant[u] == i
  }

  lemma RetryPlan(s: State, p: Proc, c: Choice)
    requires p.ClaimStart? || p.ClaimLookup?
    ensures Plan(s, p, c) == ClaimFirstPlan(s, p, c)
  {
    hide DeletePlan, LeaseSidePlan, BuildSidePlan, PoolSidePlan, ClaimFirstPlan, ClaimLastPlan;
  }

  lemma RetryMoves(s: State, p: Proc, c: Choice, l: LeaseId, request: Option<RequestId>)
    requires TakingNothing(p, request) && request.Some? && Carrying(s.db, l, request)
    ensures TakingNothing(After(p, Plan(s, p, c)), request) && !Plan(s, p, c).Takes?
  {
    hide Plan, ReadsLease, ClaimDoomed, KeepsTerms;
    if p.ClaimStart? || p.ClaimLookup? {
      RetryPlan(s, p, c);
    } else {
      PlanReplied(s, p, c);
    }
  }

  lemma RetryStep(s: State, a: Action, i: Pid, l: LeaseId, request: Option<RequestId>)
    requires i in s.procs && TakingNothing(s.procs[i], request) && request.Some? && Carrying(s.db, l, request)
    ensures i in Next(s, a).procs && TakingNothing(Next(s, a).procs[i], request) && TookNothing(s, Next(s, a), i)
  {
    hide Next, Step, Plan, After, TakingNothing, Carrying, CalmTables, Joined;
    if a.Advance? {
      NextAdvance(s, a.i, a.c);
      if a.i in s.procs {
        OthersStay(s, a.i, a.c);
        StepClaims(s, a.i, a.c);
        if a.i == i { RetryMoves(s, s.procs[i], a.c, l, request); }
      }
    } else if a.Restart? {
      NextRestart(s);
      DoneTakesNothing(request);
    } else {
      EnvironmentIsCalm(s, a);
      JoinedAt(s.procs, Next(s, a).procs, i);
    }
  }

  lemma DoneTakesNothing(request: Option<RequestId>)
    ensures TakingNothing(Done, request)
  {
  }

  lemma StepClaims(s: State, i: Pid, c: Choice)
    requires i in s.procs
    ensures
      var e := Plan(s, s.procs[i], c);
      Step(s, i, c).claimant == if e.Takes? then s.claimant[e.v.uid := i] else s.claimant
  {
    hide Plan, Apply;
    ClaimsAfter(s, i, Plan(s, s.procs[i], c));
  }

  /** A claim retried with the request id of a lease takes no VM, at any point of any run, for as long as
      that lease is there, whatever other calls do. */
  lemma {:induction false} RetryTakesNothing(
    s: State, actions: seq<Action>, i: Pid, l: LeaseId, request: Option<RequestId>)
    requires i in s.procs && TakingNothing(s.procs[i], request) && request.Some?
    requires CarryingThroughout(s, actions, l, request)
    ensures
      var s' := Run(s, actions);
      i in s'.procs && TakingNothing(s'.procs[i], request) && TookNothing(s, s', i)
    decreases |actions|
  {
    hide Next, Run, TakingNothing, Carrying;
    if actions == [] {
      RunNone(s);
    } else {
      RunFirst(s, actions);
      RetryStep(s, actions[0], i, l, request);
      RetryTakesNothing(Next(s, actions[0]), actions[1..], i, l, request);
    }
  }

  // ---- answers name leases that were there ----

  ghost predicate HasLease(s: State, i: Pid, l: LeaseId, pool: PoolKey, request: Option<RequestId>) {
    && i in s.procs && l in s.db.leases && s.db.leases[l].pool == pool && s.db.leases[l].request == request
  }

  /** At some moment of the run, after call i began, the lease row was there. */
  ghost predicate Saw(actions: seq<Action>, i: Pid, l: LeaseId, pool: PoolKey, request: Option<RequestId>) {
    exists k | 0 <= k <= |actions| :: HasLease(Run(Initial(), actions[..k]), i, l, pool, request)
  }

  lemma SawNow(actions: seq<Action>, i: Pid, l: LeaseId, pool: PoolKey, request: Option<RequestId>)
    requires HasLease(Run(Initial(), actions), i, l, pool, request)
    ensures Saw(actions, i, l, pool, request)
  {
    hide HasLease, Run;
    assert actions[..|actions|] == actions;
  }

  lemma SawBefore(actions: seq<Action>, n: nat, i: Pid, l: LeaseId, pool: PoolKey, request: Option<RequestId>)
    requires n <= |actions| && Saw(actions[..n], i, l, pool, request)
    ensures Saw(actions, i, l, pool, request)
  {
    hide HasLease, Run;
    var k :| 0 <= k <= n && HasLease(Run(Initial(), actions[..n][..k]), i, l, pool, request);
    assert actions[..n][..k] == actions[..k];
  }

  /** What a claim that is about to answer, or has answered, has seen. */
  ghost predicate AnswerSeen(actions: seq<Action>, i: Pid, p: Proc) {
    && (p.ClaimReplay? ==> Saw(actions, i, p.lease.id, p.lease.pool, p.request))
    && (p.ClaimOk? ==> Saw(actions, i, p.answer, p.pool, p.request))
  }

  lemma SeenBefore(actions: seq<Action>, n: nat, i: Pid, p: Proc)
    requires n <= |actions| && AnswerSeen(actions[..n], i, p)
    ensures AnswerSeen(actions, i, p)
  {
    hide Saw;
    if p.ClaimReplay? {
      SawBefore(actions, n, i, p.lease.id, p.lease.pool, p.request);
    } else if p.ClaimOk? {
      SawBefore(actions, n, i, p.answer, p.pool, p.request);
    }
  }

  lemma ReplayRead(s: State, i: Pid, l: Lease)
    requires Inv(s) && i in s.procs && ReadsLease(s.db, l)
    ensures HasLease(s, i, l.id, l.pool, l.request)
  {
    var id :| id in s.db.leases && s.db.leases[id] == l;
    RowsAreMinted(s, id);
  }

  lemma ReplayPool(s: State, i: Pid, s': State, l: Lease)
    requires Inv(s) && Inv(s') && BookKept(BookOf(s), BookOf(s'))
    requires i in s.procs && s.procs[i].ClaimReplay? && s.procs[i].lease == l
    requires i in s'.procs && s'.procs[i].ClaimOk? && s'.procs[i].answer == l.id
    ensures l.pool == s'.procs[i].pool && l.request == s.procs[i].request
  {
    Here(s, i);
    Here(s', i);
  }

  lemma CommitSeen(s: State, i: Pid, c: Choice)
    requires Inv(s) && i in s.procs && s.procs[i].ClaimLeasing? && Plan(s, s.procs[i], c).Commits?
    ensures HasLease(Step(s, i, c), i, Plan(s, s.procs[i], c).l.id, s.procs[i].pool, s.procs[i].request)
  {
    hide Inv, Plan, Apply, YardEffectOk, MakingOk, PoolEffectOk;
    var e := Plan(s, s.procs[i], c);
    StepAllowed(s, i, c);
    OthersStay(s, i, c);
    DbIs(s, i, e);
  }

  /** The call's own step: it read the lease, answers with the one it read, or has committed it. */
  lemma StepSees(before: seq<Action>, i: Pid, c: Choice, actions: seq<Action>)
    requires actions == before + [Advance(i, c)] && i in Run(Initial(), before).procs
    requires AnswerSeen(before, i, Run(Initial(), before).procs[i])
    requires Run(Initial(), actions) == Step(Run(Initial(), before), i, c)
    requires i in Run(Initial(), actions).procs
    ensures AnswerSeen(actions, i, Run(Initial(), actions).procs[i])
  {
    hide Inv, Plan, Run, Step, Saw, HasLease, ReadsLease, ClaimDoomed;
    var s, s' := Run(Initial(), before), Run(Initial(), actions);
    var p, q := s.procs[i], s'.procs[i];
    EveryRun(before);
    EveryRun(actions);
    OthersStay(s, i, c);
    PlanReplied(s, p, c);
    assert actions[..|before|] == before;
    SeenBefore(actions, |before|, i, p);
    if q != p && q.ClaimReplay? {
      ReplayRead(s, i, q.lease);
      SawNow(before, i, q.lease.id, q.lease.pool, q.request);
      SawBefore(actions, |before|, i, q.lease.id, q.lease.pool, q.request);
    } else if q != p && q.ClaimOk? {
      if p.ClaimReplay? {
        StepFollows(s, i, c);
        BookFollows(s, s');
        ReplayPool(s, i, s', p.lease);
      } else {
        CommitSeen(s, i, c);
        SawNow(actions, i, q.answer, q.pool, q.request);
      }
    }
  }

  lemma BookFollows(s: State, s': State)
    requires Guarantee(s, s')
    ensures BookKept(BookOf(s), BookOf(s'))
  {
    hide RowsFollow, OrphansFollow, BirthsFollow, YardFollows, BookKept;
  }

  /** Every other action leaves the call where it was, or has just begun it, or ends it in a crash. */
  lemma OtherActionSees(s: State, a: Action, i: Pid)
    requires i in Next(s, a).procs && !(a.Advance? && a.i == i && i in s.procs)
    ensures (i in s.procs && Next(s, a).procs[i] == s.procs[i])
              || !(Next(s, a).procs[i].ClaimReplay? || Next(s, a).procs[i].ClaimOk?)
  {
    hide Next, Step, Plan, Begins, Joined, CalmTables;
    if a.Advance? {
      NextAdvance(s, a.i, a.c);
      if a.i in s.procs {
        OthersStay(s, a.i, a.c);
        OnlyItself(s, a.i, a.c);
      }
    } else if a.Restart? {
      NextRestart(s);
    } else {
      EnvironmentIsCalm(s, a);
      JoinedKeeps(s.procs, Next(s, a).procs, i);
      if i !in s.procs {
        BeginsUnanswered(Next(s, a).procs[i]);
      }
    }
  }

  lemma BeginsUnanswered(q: Proc)
    requires Begins(q)
    ensures !q.ClaimReplay? && !q.ClaimOk?
  {
  }

  lemma {:induction false} AnswersSeen(actions: seq<Action>, i: Pid)
    requires i in Run(Initial(), actions).procs
    ensures AnswerSeen(actions, i, Run(Initial(), actions).procs[i])
    decreases |actions|
  {
    hide Run, Next, Step, AnswerSeen;
    if actions == [] {
      RunNone(Initial());
    } else {
      var n := |actions| - 1;
      var before, a := actions[..n], actions[n];
      var s := Run(Initial(), before);
      assert actions == before + [a];
      RunLast(Initial(), actions);
      if a.Advance? && a.i == i && i in s.procs {
        AnswersSeen(before, i);
        NextAdvance(s, i, a.c);
        StepSees(before, i, a.c, actions);
      } else {
        OtherActionSees(s, a, i);
        if i in s.procs && Next(s, a).procs[i] == s.procs[i] {
          AnswersSeen(before, i);
          SeenBefore(actions, n, i, s.procs[i]);
        } else {
          NothingToSee(actions, i, Next(s, a).procs[i]);
        }
      }
    }
  }

  lemma NothingToSee(actions: seq<Action>, i: Pid, p: Proc)
    requires !p.ClaimReplay? && !p.ClaimOk?
    ensures AnswerSeen(actions, i, p)
  {
    hide Saw;
  }

  /** Every OK answer to a claim names a lease of the asked pool, with the asked request id, whose row
      was there at some moment after the call began. */
  lemma AnswersWereLeases(actions: seq<Action>, i: Pid)
    requires i in Run(Initial(), actions).procs && Run(Initial(), actions).procs[i].ClaimOk?
    ensures
      var p := Run(Initial(), actions).procs[i];
      exists k | 0 <= k <= |actions| ::
        HasLease(Run(Initial(), actions[..k]), i, p.answer, p.pool, p.request)
  {
    hide Run, HasLease;
    AnswersSeen(actions, i);
  }
}
