/** What a call has to establish about itself at each point, and the moves many steps share. */
module Obligations {
  import opened Records
  import opened Transactions
  import opened Protocol
  import opened Invariant
  import opened Stability
  import opened Effects

  // ---- what each kind of call has to establish about itself ----

  predicate OwnsNothing(p: Proc) {
    Claimer(p).None? && Builder(p).None? && Unrecorded(p).None?
  }

  lemma NothingReleased(f: Fleet, leaked: set<Uid>, p: Proc, q: Proc)
    requires OwnsNothing(p)
    ensures Releases(f, leaked, p, q)
  {
  }

  /** A claimed VM stays with its call, or is no longer mid-claim. */
  lemma ClaimReleased(f: Fleet, leaked: set<Uid>, p: Proc, q: Proc, u: Uid)
    requires Owns(Claimer(p), u) && Builder(p).None? && Unrecorded(p).None?
    requires Owns(Claimer(q), u) || u !in f.vms || !HasLeasedPhase(f.vms[u]) || u in f.stranded || u in f.leaseOf
    ensures Releases(f, leaked, p, q)
  {
  }

  predicate IsPlain(q: Proc) {
    || IsEntry(q) || q.Done? || q.ClaimLookup? || q.ClaimPick? || q.ClaimYielded?
    || q.ClaimFailed? || q.ProvOk? || q.ProvFailed?
  }

  lemma PlainShape(q: Proc)
    requires IsPlain(q)
    ensures OwnsNothing(q) && Held(q).None? && Reserver(q).None? && LeaseIn(q).None? && Boss(q).None? && LockOf(q).None?
  {
  }

  lemma PlainOffice(o: Office, i: Pid, q: Proc)
    requires IsPlain(q)
    ensures OfficeSideOk(o, i, q)
  {
    PlainShape(q);
  }

  lemma PlainBook(b: Book, q: Proc)
    requires IsPlain(q)
    ensures BookSideOk(b, q)
  {
    PlainShape(q);
  }

  lemma PlainOk(s: State, i: Pid, q: Proc)
    requires IsPlain(q)
    ensures ProcOk(s, i, q) && OwnsNothing(q)
  {
    PlainShape(q);
    PlainOffice(OfficeOf(s), i, q);
    PlainBook(BookOf(s), q);
  }

  predicate IsClaiming(q: Proc) {
    q.ClaimHooking? || q.ClaimRunning? || q.ClaimLeasing? || q.ClaimYielding?
  }

  lemma ClaimingShape(q: Proc)
    requires IsClaiming(q)
    ensures Claimer(q) == Some(q.vm) && Builder(q).None? && Unrecorded(q).None? && Held(q) == Some(q.vm)
    ensures Reserver(q).None? && LeaseIn(q).None? && Boss(q).None? && LockOf(q).None?
  {
  }

  lemma ClaimingOk(s: State, i: Pid, q: Proc)
    requires IsClaiming(q) && q.vm.pool == q.pool && Known(FleetOf(s), q.vm) && ClaimerOk(FleetOf(s), i, q.vm)
    ensures ProcOk(s, i, q)
  {
    ClaimingShape(q);
  }

  lemma ClaimFailingOk(s: State, i: Pid, policy: Policy, v: Vm)
    requires Known(FleetOf(s), v) && ClaimerOk(FleetOf(s), i, v)
    ensures ProcOk(s, i, Failing(ByClaim, policy, v))
  {
  }

  predicate HoldsLeaseOnly(q: Proc) {
    || q.ClaimReplay? || q.ReleaseGot? || q.ReleaseLookup? || q.ReleaseDropping? || q.Closing? || q.ClosingEvent?
    || q.ReleaseOk? || q.BeatGot? || q.BeatWriting? || q.ExpiryTaken?
  }

  lemma LeaseHolderShape(q: Proc)
    requires HoldsLeaseOnly(q)
    ensures OwnsNothing(q) && Held(q).None? && Reserver(q).None? && LeaseIn(q) == Some(q.lease) && Boss(q).None?
    ensures LockOf(q).None?
  {
  }

  lemma LeaseHolderOk(s: State, i: Pid, q: Proc)
    requires HoldsLeaseOnly(q) && LeaseKnown(BookOf(s), q.lease) && (q.ClaimReplay? ==> q.request == q.lease.request)
    requires q.ExpiryTaken? ==> q.lease.id !in s.db.leases
    ensures ProcOk(s, i, q) && OwnsNothing(q)
  {
    LeaseHolderShape(q);
  }

  lemma AnsweredOk(s: State, i: Pid, q: Proc)
    requires q.ClaimOk? && q.answer in s.minted && s.minted[q.answer].pool == q.pool
    requires s.minted[q.answer].request == q.request
    ensures ProcOk(s, i, q) && OwnsNothing(q)
  {
  }

  // ---- shared steps ----

  /** A new call. */
  lemma Joins(s: State, i: Pid, q: Proc)
    requires Inv(s) && i !in s.procs && ProcOk(s, i, q)
    ensures Inv(To(s, i, q))
  {
    QuietKeeps(s, To(s, i, q), i, q);
  }

  lemma ToKeeps(s: State, i: Pid, q: Proc)
    requires Inv(s) && ProcOk(s, i, q)
    requires LetsGo(s, i, FleetOf(s), s.leaked, q)
    ensures Inv(Apply(s, i, Moves(q)))
  {
    ApplyMoves(s, i, q);
    QuietKeeps(s, To(s, i, q), i, q);
  }

  lemma EndKeeps(s: State, i: Pid, q: Proc)
    requires Inv(s) && IsPlain(q)
    requires LetsGo(s, i, FleetOf(s), s.leaked, q)
    ensures Inv(Apply(s, i, Moves(q)))
  {
    hide *;
    PlainOk(s, i, q);
    ToKeeps(s, i, q);
  }

  lemma NeverLeased(f: Fleet, b: Book, v: Vm)
    requires MintsOk(f, b) && LeasesOk(f.vms, b) && v.uid !in f.leaseOf
    ensures KeepsLease(b, v)
  {
    forall l | l in b.leases ensures b.leases[l].vm != v.uid {
      assert LeaseOk(f.vms, b, l) && MintOk(f, b.minted[l], l);
    }
  }

  lemma StillHomed(s: State, v: Vm)
    requires Base(s) && Known(FleetOf(s), v) && CanUpdateVm(s.db, v)
    ensures Homed(s.db, v)
  {
    assert RowOk(FleetOf(s), v.uid);
  }

  /** The write of an owner, or of anyone marking DELETING. */
  lemma WriteKeeps(s: State, i: Pid, q: Proc, v: Vm)
    requires Inv(s) && CanUpdateVm(s.db, v) && MayWrite(FleetOf(s), i, v) && KeepsLease(BookOf(s), v)
    requires ProcOk(Put(s, i, q, v), i, q) && RowCovered(FleetOf(s), i, q, v)
    requires LetsGo(s, i, WithRow(FleetOf(s), v), s.leaked, q)
    ensures Inv(Apply(s, i, Puts(q, v)))
  {
    StillHomed(s, v);
    PutKeeps(s, i, q, v);
  }

  /** A call that owns nothing moves to where it needs nothing. */
  lemma PlainKeeps(s: State, i: Pid, q: Proc)
    requires Inv(s) && IsPlain(q) && (i in s.procs ==> OwnsNothing(s.procs[i]))
    ensures Inv(Apply(s, i, Moves(q)))
  {
    hide *;
    PlainOk(s, i, q);
    if i in s.procs {
      NothingReleased(FleetOf(s), s.leaked, s.procs[i], q);
    }
    ToKeeps(s, i, q);
  }

  lemma LeaseRowKnown(s: State, l: LeaseId)
    requires Base(s) && l in s.db.leases
    ensures LeaseKnown(BookOf(s), s.db.leases[l]) && s.db.leases[l].id == l
  {
    assert LeaseOk(s.db.vms, BookOf(s), l);
    assert MintOk(FleetOf(s), s.minted[l], l);
  }

  lemma HolderKeeps(s: State, i: Pid, q: Proc)
    requires Inv(s) && i in s.procs && OwnsNothing(s.procs[i])
    requires HoldsLeaseOnly(q) && LeaseKnown(BookOf(s), q.lease) && (q.ClaimReplay? ==> q.request == q.lease.request)
    requires q.ExpiryTaken? ==> q.lease.id !in s.db.leases
    ensures Inv(Apply(s, i, Moves(q)))
  {
    hide *;
    LeaseHolderOk(s, i, q);
    NothingReleased(FleetOf(s), s.leaked, s.procs[i], q);
    ToKeeps(s, i, q);
  }

  lemma OneOwner(p: Proc)
    ensures Claimer(p).Some? ==> Builder(p).None? && Unrecorded(p).None?
    ensures Builder(p).Some? ==> Unrecorded(p).None?
  {
  }
}
