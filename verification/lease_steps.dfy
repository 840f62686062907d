/** Every step of ReleaseVM, FinishVMDeletion, Heartbeat and beginExpiry keeps the invariant. */
module LeaseSteps {
  import opened Records
  import opened Transactions
  import opened Protocol
  import opened Invariant
  import opened Stability
  import opened Effects
  import opened Obligations
  import opened DeleteSteps

  predicate IsMarking(q: Proc) {
    q.ReleaseMarking? || q.ExpiryRead? || q.ExpiryMarking?
  }

  lemma MarkingShape(q: Proc)
    requires IsMarking(q)
    ensures OwnsNothing(q) && Held(q) == Some(q.vm) && Reserver(q).None? && LeaseIn(q) == Some(q.lease) && Boss(q).None?
    ensures LockOf(q).None?
  {
  }

  lemma MarkingOk(s: State, i: Pid, q: Proc)
    requires IsMarking(q) && Known(FleetOf(s), q.vm) && LeaseKnown(BookOf(s), q.lease)
    requires MarkerOk(BookOf(s), q.lease, q.vm)
    requires !q.ReleaseMarking? ==> q.lease.id !in s.db.leases
    ensures ProcOk(s, i, q)
  {
    MarkingShape(q);
  }

  /** A row as read is known, and carries the lease that names it. */
  lemma RowRead(s: State, l: Lease)
    requires Base(s) && LeaseKnown(BookOf(s), l) && l.vm in s.db.vms
    ensures Known(FleetOf(s), s.db.vms[l.vm]) && MarkerOk(BookOf(s), l, s.db.vms[l.vm])
  {
    assert RowOk(FleetOf(s), l.vm);
    if l.id in s.db.leases {
      assert LeaseOk(s.db.vms, BookOf(s), l.id);
    }
  }

  /** The only lease row that can name the VM is the one the record carries. */
  lemma MarkerKeepsLease(s: State, l: Lease, v: Vm)
    requires Base(s) && LeaseKnown(BookOf(s), l) && MarkerOk(BookOf(s), l, v) && v.phase.Deleting?
    ensures KeepsLease(BookOf(s), v)
  {
    assert MintOk(FleetOf(s), s.minted[l.id], l.id);
    forall m | m in s.db.leases && s.db.leases[m].vm == v.uid ensures m == l.id {
      assert LeaseOk(s.db.vms, BookOf(s), m) && MintOk(FleetOf(s), s.minted[m], m);
    }
  }

  lemma MarkerWriteKeeps(s: State, i: Pid, q: Proc, l: Lease, v: Vm)
    requires Inv(s) && i in s.procs && OwnsNothing(s.procs[i])
    requires Known(FleetOf(s), v) && LeaseKnown(BookOf(s), l) && MarkerOk(BookOf(s), l, v)
    requires v.phase.Deleting? && v.uid in s.db.vms && ProcOk(Put(s, i, q, v), i, q)
    ensures Inv(Apply(s, i, Puts(q, v)))
  {
    MarkerKeepsLease(s, l, v);
    NothingReleased(WithRow(FleetOf(s), v), s.leaked, s.procs[i], q);
    WriteKeeps(s, i, q, v);
  }

  lemma QuietMove(s: State, i: Pid, q: Proc)
    requires Inv(s) && i in s.procs && OwnsNothing(s.procs[i]) && ProcOk(s, i, q)
    ensures Inv(Apply(s, i, Moves(q)))
  {
    hide *;
    NothingReleased(FleetOf(s), s.leaked, s.procs[i], q);
    ToKeeps(s, i, q);
  }

  // ---- ReleaseVM ----

  lemma KeepsReleaseStart(s: State, i: Pid, p: Proc, c: Choice)
    requires Inv(s) && IsAt(s, i, p) && p.ReleaseStart?
    ensures Inv(Apply(s, i, PlanReleaseStart(s, p, c)))
  {
    if !c.ok || p.id !in s.db.leases {
      PlainKeeps(s, i, Done);
    } else {
      LeaseRowKnown(s, p.id);
      HolderKeeps(s, i, ReleaseGot(s.db.leases[p.id]));
    }
  }

  lemma KeepsReleaseGot(s: State, i: Pid, p: Proc, c: Choice)
    requires Inv(s) && IsAt(s, i, p) && p.ReleaseGot?
    ensures Inv(Apply(s, i, PlanReleaseGot(s, p, c)))
  {
    hide Covered, Apply, OwnerOk, OfficeSideOk, ClaimerOk, Base, YardSideOk;
    assert ProcOk(s, i, p);
    if !c.ok {
      PlainKeeps(s, i, Done);
    } else if p.lease.vm !in s.db.vms {
      HolderKeeps(s, i, ReleaseDropping(p.lease));
    } else {
      var v := s.db.vms[p.lease.vm];
      RowRead(s, p.lease);
      AskingOther(s, i, ReleaseJob(p.lease), v);
      MarkingOk(s, i, ReleaseMarking(p.lease, v));
      QuietMove(s, i, if v.phase.Deleting? then Asking(ReleaseJob(p.lease), v) else ReleaseMarking(p.lease, v));
    }
  }

  lemma KeepsReleaseMarking(s: State, i: Pid, p: Proc, c: Choice)
    requires Inv(s) && IsAt(s, i, p) && p.ReleaseMarking?
    ensures Inv(Apply(s, i, PlanReleaseMarking(s, p, c)))
  {
    hide Covered, Apply, OwnerOk, OfficeSideOk, ClaimerOk, RowsOk, LeasesOk;
    var v := p.vm.(phase := Deleting);
    assert ProcOk(s, i, p);
    if !c.ok {
      PlainKeeps(s, i, Done);
    } else if !CanUpdateVm(s.db, v) {
      HolderKeeps(s, i, ReleaseLookup(p.lease));
    } else {
      var q := Asking(ReleaseJob(p.lease), v);
      AskingOther(Put(s, i, q, v), i, ReleaseJob(p.lease), v);
      MarkerWriteKeeps(s, i, q, p.lease, v);
    }
  }

  lemma KeepsReleaseLookup(s: State, i: Pid, p: Proc, c: Choice)
    requires Inv(s) && IsAt(s, i, p) && p.ReleaseLookup?
    ensures Inv(Apply(s, i, PlanReleaseLookup(s, p, c)))
  {
    hide Covered, Apply, OfficeSideOk, ClaimerOk, Base, Held, YardSideOk;
    assert ProcOk(s, i, p);
    if !c.ok {
      PlainKeeps(s, i, Done);
    } else {
      HolderKeeps(s, i, if p.lease.pool in s.db.pools then ReleaseOk(p.lease) else ReleaseDropping(p.lease));
    }
  }

  /** A lease row goes while its call keeps the record. */
  lemma EndHolderKeeps(s: State, i: Pid, q: Proc)
    requires Inv(s) && i in s.procs && OwnsNothing(s.procs[i]) && HoldsLeaseOnly(q) && !q.ClaimReplay?
    requires LeaseKnown(BookOf(s), q.lease)
    ensures Inv(Apply(s, i, Ends(q, q.lease.id)))
  {
    LeaseHolderOk(EndLease(s, i, q, q.lease.id), i, q);
    NothingReleased(FleetOf(s), s.leaked, s.procs[i], q);
    EndLeaseKeeps(s, i, q, q.lease.id);
  }

  lemma KeepsReleaseDropping(s: State, i: Pid, p: Proc, c: Choice)
    requires Inv(s) && IsAt(s, i, p) && p.ReleaseDropping?
    ensures Inv(Apply(s, i, PlanReleaseDropping(s, p, c)))
  {
    assert ProcOk(s, i, p);
    if !c.ok {
      PlainKeeps(s, i, Done);
    } else {
      EndHolderKeeps(s, i, ReleaseOk(p.lease));
    }
  }

  lemma KeepsClosing(s: State, i: Pid, p: Proc, c: Choice)
    requires Inv(s) && IsAt(s, i, p) && p.Closing?
    ensures Inv(Apply(s, i, PlanClosing(s, p, c)))
  {
    hide Covered, Apply, OfficeSideOk, ClaimerOk, Base, Held, YardSideOk;
    assert ProcOk(s, i, p);
    if !c.ok {
      HolderKeeps(s, i, ClosingEvent(p.lease));
    } else {
      EndHolderKeeps(s, i, ClosingEvent(p.lease));
    }
  }

  lemma RecordKeeps(s: State, i: Pid, q: Proc, e: Event)
    requires Inv(s) && i in s.procs && OwnsNothing(s.procs[i]) && ProcOk(s, i, q)
    ensures Inv(Apply(s, i, Records(q, e)))
  {
    ApplyRecords(s, i, q, e);
    NothingReleased(FleetOf(s), s.leaked, s.procs[i], q);
    QuietKeeps(s, Record(s, i, q, e), i, q);
  }

  lemma KeepsClosingEvent(s: State, i: Pid, p: Proc, c: Choice)
    requires Inv(s) && IsAt(s, i, p) && p.ClosingEvent?
    ensures Inv(Apply(s, i, PlanClosingEvent(s, p, c)))
  {
    assert ProcOk(s, i, p);
    if !c.ok {
      HolderKeeps(s, i, ReleaseOk(p.lease));
    } else {
      LeaseHolderOk(s, i, ReleaseOk(p.lease));
      RecordKeeps(s, i, ReleaseOk(p.lease), Event(p.lease.pool, p.lease.vm, VmDeletedOnRelease));
    }
  }

  lemma KeepsSwept(s: State, i: Pid, p: Proc, c: Choice)
    requires Inv(s) && IsAt(s, i, p) && p.Swept?
    ensures Inv(Apply(s, i, PlanSwept(s, p, c)))
  {
    assert ProcOk(s, i, p);
    HeldIff(s, i, p.vm);
    PlainKeeps(s, i, Done);
    QuietMove(s, i, Finishing(p.vm));
  }

  lemma KeepsFinishing(s: State, i: Pid, p: Proc, c: Choice)
    requires Inv(s) && IsAt(s, i, p) && p.Finishing?
    ensures Inv(Apply(s, i, PlanFinishing(s, p, c)))
  {
    HeldIff(s, i, p.vm);
    if c.ok && p.vm.leaseId.Some? && p.vm.leaseId.value in s.db.leases {
      LeaseRowKnown(s, p.vm.leaseId.value);
      HolderKeeps(s, i, Closing(s.db.leases[p.vm.leaseId.value]));
    } else {
      PlainKeeps(s, i, Done);
    }
  }

  // ---- Heartbeat ----

  lemma KeepsBeatStart(s: State, i: Pid, p: Proc, c: Choice)
    requires Inv(s) && IsAt(s, i, p) && p.BeatStart?
    ensures Inv(Apply(s, i, PlanBeatStart(s, p, c)))
  {
    if !c.ok || p.id !in s.db.leases {
      PlainKeeps(s, i, Done);
    } else {
      LeaseRowKnown(s, p.id);
      HolderKeeps(s, i, BeatGot(s.db.leases[p.id]));
    }
  }

  lemma KeepsBeatGot(s: State, i: Pid, p: Proc, c: Choice)
    requires Inv(s) && IsAt(s, i, p) && p.BeatGot?
    ensures Inv(Apply(s, i, PlanBeatGot(s, p, c)))
  {
    hide Covered, Apply, OfficeSideOk, ClaimerOk, Base, Held, YardSideOk;
    assert ProcOk(s, i, p);
    if !c.ok || p.lease.pool !in s.db.pools {
      PlainKeeps(s, i, Done);
    } else {
      HolderKeeps(s, i, BeatWriting(p.lease, s.db.pools[p.lease.pool].expiryThreshold));
    }
  }

  lemma BeatKeeps(s: State, i: Pid, l: Lease)
    requires Inv(s) && i in s.procs && OwnsNothing(s.procs[i])
    requires l.id in s.db.leases && l == Renewed(s.db.leases[l.id], l.heartbeatAt, l.expiresAt)
    ensures Inv(Apply(s, i, Renews(Done, l)))
  {
    PlainOk(Renew(s, i, Done, l), i, Done);
    NothingReleased(FleetOf(s), s.leaked, s.procs[i], Done);
    RenewKeeps(s, i, Done, l);
  }

  lemma KeepsBeatWriting(s: State, i: Pid, p: Proc, c: Choice)
    requires Inv(s) && IsAt(s, i, p) && p.BeatWriting?
    ensures Inv(Apply(s, i, PlanBeatWriting(s, p, c)))
  {
    if !c.ok || p.lease.id !in s.db.leases {
      PlainKeeps(s, i, Done);
    } else {
      LeaseRowKnown(s, p.lease.id);
      var l := Renewed(s.db.leases[p.lease.id], c.now, c.now + p.threshold);
      assert PlanBeatWriting(s, p, c) == Renews(Done, l);
      BeatKeeps(s, i, l);
    }
  }

  // ---- Sweeper.beginExpiry ----

  lemma KeepsExpiryStart(s: State, i: Pid, p: Proc, c: Choice)
    requires Inv(s) && IsAt(s, i, p) && p.ExpiryStart?
    ensures Inv(Apply(s, i, PlanExpiryStart(s, p, c)))
  {
    if !c.ok || !IsExpired(s.db, p.id, p.now) {
      PlainKeeps(s, i, Done);
    } else {
      LeaseRowKnown(s, p.id);
      EndHolderKeeps(s, i, ExpiryTaken(s.db.leases[p.id]));
    }
  }

  lemma ExpiryReadOk(s: State, i: Pid, p: Proc, q: Proc)
    requires Base(s) && AtPoint(s, i, p) && p.ExpiryTaken? && p.lease.vm in s.db.vms
    requires q == ExpiryRead(p.lease, s.db.vms[p.lease.vm])
    ensures ProcOk(s, i, q) && OwnsNothing(p)
  {
    Here(s, i);
    RowRead(s, p.lease);
    MarkingOk(s, i, q);
  }

  lemma KeepsExpiryTaken(s: State, i: Pid, p: Proc, c: Choice)
    requires Inv(s) && IsAt(s, i, p) && p.ExpiryTaken?
    ensures Inv(Apply(s, i, PlanExpiryTaken(s, p, c)))
  {
    if !c.ok || p.lease.vm !in s.db.vms || !s.db.vms[p.lease.vm].phase.Leased? {
      PlainKeeps(s, i, Done);
    } else {
      ExpiryReadOk(s, i, p, ExpiryRead(p.lease, s.db.vms[p.lease.vm]));
      QuietMove(s, i, ExpiryRead(p.lease, s.db.vms[p.lease.vm]));
    }
  }

  lemma ExpiryMarkingOk(s: State, i: Pid, p: Proc, q: Proc)
    requires AtPoint(s, i, p) && p.ExpiryRead? && q == ExpiryMarking(p.lease, p.vm)
    ensures ProcOk(s, i, q) && OwnsNothing(p)
  {
    Here(s, i);
    MarkingOk(s, i, q);
  }

  lemma KeepsExpiryRead(s: State, i: Pid, p: Proc, c: Choice)
    requires Inv(s) && IsAt(s, i, p) && p.ExpiryRead?
    ensures Inv(Apply(s, i, PlanExpiryRead(s, p, c)))
  {
    if !c.ok || p.lease.pool !in s.db.pools {
      PlainKeeps(s, i, Done);
    } else {
      ExpiryMarkingOk(s, i, p, ExpiryMarking(p.lease, p.vm));
      QuietMove(s, i, ExpiryMarking(p.lease, p.vm));
    }
  }

  lemma ExpiryMarkedOk(s: State, i: Pid, p: Proc, q: Proc, v: Vm)
    requires AtPoint(s, i, p) && p.ExpiryMarking? && v == p.vm.(phase := Deleting) && q == Asking(ExpiryJob, v)
    ensures ProcOk(Put(s, i, q, v), i, q) && OwnsNothing(p)
    ensures Known(FleetOf(s), v) && LeaseKnown(BookOf(s), p.lease) && MarkerOk(BookOf(s), p.lease, v)
  {
    Here(s, i);
    AskingOther(Put(s, i, q, v), i, ExpiryJob, v);
    assert p.lease.id in s.minted && p.lease.id !in s.db.leases && s.minted[p.lease.id].vm == v.uid;
  }

  lemma KeepsExpiryMarking(s: State, i: Pid, p: Proc, c: Choice)
    requires Inv(s) && IsAt(s, i, p) && p.ExpiryMarking?
    ensures Inv(Apply(s, i, PlanExpiryMarking(s, p, c)))
  {
    var v := p.vm.(phase := Deleting);
    if !c.ok || !CanUpdateVm(s.db, v) {
      PlainKeeps(s, i, Done);
    } else {
      ExpiryMarkedOk(s, i, p, Asking(ExpiryJob, v), v);
      MarkerWriteKeeps(s, i, Asking(ExpiryJob, v), p.lease, v);
    }
  }
}
