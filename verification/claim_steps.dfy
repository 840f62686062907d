/** Every step of ClaimVM keeps the invariant. */
module ClaimSteps {
  import opened Records
  import opened Transactions
  import opened Protocol
  import opened Invariant
  import opened Stability
  import opened Effects
  import opened Obligations

  lemma KeepsClaimStart(s: State, i: Pid, p: Proc, c: Choice)
    requires Inv(s) && IsAt(s, i, p) && p.ClaimStart?
    ensures Inv(Apply(s, i, PlanClaimStart(s, p, c)))
  {
    if !c.ok || p.pool !in s.db.pools {
      PlainKeeps(s, i, Done);
    } else if p.request.None? {
      PlainKeeps(s, i, ClaimPick(p.pool, p.request, s.db.pools[p.pool]));
    } else {
      PlainKeeps(s, i, ClaimLookup(p.pool, p.request, s.db.pools[p.pool]));
    }
  }

  lemma KeepsClaimLookup(s: State, i: Pid, p: Proc, c: Choice)
    requires Inv(s) && IsAt(s, i, p) && p.ClaimLookup?
    ensures Inv(Apply(s, i, PlanClaimLookup(s, p, c)))
  {
    if !c.ok {
      PlainKeeps(s, i, Done);
    } else if !RequestTaken(s.db, p.request) {
      PlainKeeps(s, i, ClaimPick(p.pool, p.request, p.spec));
    } else if c.pick in s.db.leases && s.db.leases[c.pick].request == p.request {
      LeaseRowKnown(s, c.pick);
      HolderKeeps(s, i, ClaimReplay(p.pool, p.request, s.db.leases[c.pick]));
    }
  }

  lemma KeepsClaimPick(s: State, i: Pid, p: Proc, c: Choice)
    requires Inv(s) && IsAt(s, i, p) && p.ClaimPick?
    ensures Inv(Apply(s, i, PlanClaimPick(s, p, c)))
  {
    hide ProcsOk, ProcOk, Covered, LeasesOk, Releases, ManagerOk, RemovePool, Forget;
    if c.ok && CanClaim(s.db, p.pool, c.pick) {
      var v := s.db.vms[c.pick].(phase := Leased);
      var q := ClaimHooking(p.pool, p.request, p.spec, v);
      var s' := Take(s, i, q, v);
      assert RowOk(FleetOf(s), c.pick);
      ClaimingOk(s', i, q);
      NothingReleased(FleetOf(s'), s.leaked, p, q);
      TakeKeeps(s, i, q, v);
    } else {
      PlainKeeps(s, i, Done);
    }
  }

  /** What the owner of a claim knows, and what its writes keep. */
  lemma ClaimWriteKeeps(s: State, i: Pid, q: Proc, v: Vm)
    requires Inv(s) && i in s.procs && Owns(Claimer(s.procs[i]), v.uid) && ClaimerOk(FleetOf(s), i, v)
    requires Known(FleetOf(s), v)
    requires CanUpdateVm(s.db, v) && ProcOk(Put(s, i, q, v), i, q)
    requires !AbandonedProvision(v) && !v.phase.Failed? && (HasLeasedPhase(v) ==> Owns(Claimer(q), v.uid))
    ensures Inv(Apply(s, i, Puts(q, v)))
  {
    OneOwner(s.procs[i]);
    NeverLeased(FleetOf(s), BookOf(s), v);
    ClaimReleased(WithRow(FleetOf(s), v), s.leaked, s.procs[i], q, v.uid);
    WriteKeeps(s, i, q, v);
  }

  lemma ClaimMoveKeeps(s: State, i: Pid, q: Proc, u: Uid)
    requires Inv(s) && i in s.procs && Owns(Claimer(s.procs[i]), u) && ProcOk(s, i, q)
    requires Owns(Claimer(q), u) || u !in s.db.vms || !HasLeasedPhase(s.db.vms[u]) || u in s.stranded
    ensures Inv(Apply(s, i, Moves(q)))
  {
    OneOwner(s.procs[i]);
    ClaimReleased(FleetOf(s), s.leaked, s.procs[i], q, u);
    ToKeeps(s, i, q);
  }

  lemma KeepsClaimHooking(s: State, i: Pid, p: Proc, c: Choice)
    requires Inv(s) && IsAt(s, i, p) && p.ClaimHooking?
    ensures Inv(Apply(s, i, PlanClaimHooking(s, p, c)))
  {
    hide Covered, Apply, OfficeSideOk, RowsOk, LeasesOk, OwnsNothing, YardSideOk, LeaseIn;
    var v := p.vm.(phase := PreLeaseHookRunning);
    assert ProcOk(s, i, p);
    if !c.ok {
      ClaimFailingOk(s, i, p.spec.policy, v);
      ClaimMoveKeeps(s, i, Failing(ByClaim, p.spec.policy, v), v.uid);
    } else if !CanUpdateVm(s.db, v) {
      PlainOk(s, i, Done);
      ClaimMoveKeeps(s, i, Done, v.uid);
    } else {
      var q := ClaimRunning(p.pool, p.request, p.spec, v);
      ClaimingOk(Put(s, i, q, v), i, q);
      ClaimWriteKeeps(s, i, q, v);
    }
  }

  lemma KeepsClaimRunning(s: State, i: Pid, p: Proc, c: Choice)
    requires Inv(s) && IsAt(s, i, p) && p.ClaimRunning?
    ensures Inv(Apply(s, i, PlanClaimRunning(s, p, c)))
  {
    assert ProcOk(s, i, p);
    if c.ok {
      var q := ClaimLeasing(p.pool, p.request, p.spec, p.vm);
      ClaimingOk(s, i, q);
      ClaimMoveKeeps(s, i, q, p.vm.uid);
    } else {
      ClaimFailingOk(s, i, p.spec.policy, p.vm);
      ClaimMoveKeeps(s, i, Failing(ByClaim, p.spec.policy, p.vm), p.vm.uid);
    }
  }

  lemma KeepsCommit(s: State, i: Pid, p: Proc, id: LeaseId, now: Time)
    requires Inv(s) && IsAt(s, i, p) && p.ClaimLeasing?
    requires
      var v := p.vm.(phase := Leased, leaseId := Some(id));
      CanUpdateVm(s.db, v) && !RequestTaken(s.db, p.request) && id !in s.minted
    ensures
      var v := p.vm.(phase := Leased, leaseId := Some(id));
      Inv(Apply(s, i, Commits(ClaimOk(p.pool, p.request, id), v, NewLease(p, id, now))))
  {
    var v := p.vm.(phase := Leased, leaseId := Some(id));
    var q := ClaimOk(p.pool, p.request, id);
    var l := NewLease(p, id, now);
    ClaimFacts(s, i, p);
    assert RowOk(FleetOf(s), v.uid);
    CommittedOk(s, i, p, q, v, l);
    CommitKeeps(s, i, q, v, l);
  }

  lemma ClaimFacts(s: State, i: Pid, p: Proc)
    requires AtPoint(s, i, p) && IsClaiming(p)
    ensures Known(FleetOf(s), p.vm) && ClaimerOk(FleetOf(s), i, p.vm) && p.vm.pool == p.pool
    ensures Owns(Claimer(p), p.vm.uid)
  {
    Here(s, i);
    ClaimingShape(p);
  }

  lemma CommittedOk(s: State, i: Pid, p: Proc, q: Proc, v: Vm, l: Lease)
    requires p.ClaimLeasing? && v.uid == p.vm.uid && q == ClaimOk(p.pool, p.request, l.id) && l.pool == p.pool
    requires l.request == p.request
    ensures ProcOk(Commit(s, i, q, v, l), i, q) && Releases(WithLease(FleetOf(s), v, l.id), s.leaked, p, q)
  {
    AnsweredOk(Commit(s, i, q, v, l), i, q);
    ClaimReleased(WithLease(FleetOf(s), v, l.id), s.leaked, p, q, v.uid);
  }

  lemma KeepsClaimLeasing(s: State, i: Pid, p: Proc, c: Choice)
    requires Inv(s) && IsAt(s, i, p) && p.ClaimLeasing?
    ensures Inv(Apply(s, i, PlanClaimLeasing(s, p, c)))
  {
    hide Covered, OfficeSideOk, RowsOk, LeasesOk, OwnsNothing, YardSideOk, LeaseIn, ManagerOk;
    var v := p.vm.(phase := Leased, leaseId := Some(c.pick));
    assert ProcOk(s, i, p);
    if !c.ok {
      ClaimFailingOk(s, i, p.spec.policy, p.vm);
      ClaimMoveKeeps(s, i, Failing(ByClaim, p.spec.policy, p.vm), p.vm.uid);
    } else if !CanUpdateVm(s.db, v) {
      PlainOk(s, i, Done);
      ClaimMoveKeeps(s, i, Done, v.uid);
    } else if RequestTaken(s.db, p.request) {
      var q := ClaimYielding(p.pool, p.request, p.spec, p.vm);
      ClaimingOk(s, i, q);
      ClaimMoveKeeps(s, i, q, p.vm.uid);
    } else if c.pick !in s.minted {
      KeepsCommit(s, i, p, c.pick, c.now);
    }
  }

  lemma KeepsClaimYielding(s: State, i: Pid, p: Proc, c: Choice)
    requires Inv(s) && IsAt(s, i, p) && p.ClaimYielding?
    ensures Inv(Apply(s, i, PlanClaimYielding(s, p, c)))
  {
    hide Covered, Apply, OfficeSideOk, RowsOk, LeasesOk, OwnsNothing, YardSideOk, LeaseIn;
    var v := p.vm.(phase := Available, leaseId := None);
    assert ProcOk(s, i, p);
    if !c.ok {
      ClaimFailingOk(s, i, p.spec.policy, v);
      ClaimMoveKeeps(s, i, Failing(ByClaim, p.spec.policy, v), v.uid);
    } else if !CanUpdateVm(s.db, v) {
      PlainOk(s, i, Done);
      ClaimMoveKeeps(s, i, Done, v.uid);
    } else {
      var q := ClaimYielded(p.pool, p.request, v.uid);
      PlainOk(Put(s, i, q, v), i, q);
      ClaimWriteKeeps(s, i, q, v);
    }
  }

  lemma KeepsClaimYielded(s: State, i: Pid, p: Proc, c: Choice)
    requires Inv(s) && IsAt(s, i, p) && p.ClaimYielded?
    ensures Inv(Apply(s, i, PlanClaimYielded(s, p, c)))
  {
    if !c.ok || !RequestTaken(s.db, p.request) {
      PlainKeeps(s, i, Done);
    } else if c.pick in s.db.leases && s.db.leases[c.pick].request == p.request {
      LeaseRowKnown(s, c.pick);
      HolderKeeps(s, i, ClaimReplay(p.pool, p.request, s.db.leases[c.pick]));
    }
  }

  lemma KeepsClaimReplay(s: State, i: Pid, p: Proc, c: Choice)
    requires Inv(s) && IsAt(s, i, p) && p.ClaimReplay?
    ensures Inv(Apply(s, i, PlanClaimReplay(s, p, c)))
  {
    assert ProcOk(s, i, p);
    if !c.ok || p.lease.pool != p.pool || p.lease.vm !in s.db.vms || s.db.vms[p.lease.vm].phase.Deleting? {
      PlainKeeps(s, i, Done);
    } else {
      var q := ClaimOk(p.pool, p.request, p.lease.id);
      AnsweredOk(s, i, q);
      NothingReleased(FleetOf(s), s.leaked, p, q);
      ToKeeps(s, i, q);
    }
  }
}
