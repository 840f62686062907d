/** When a change of the state disturbs no other call, and leaves nothing without an owner. */
module Stability {
  import opened Records
  import opened Transactions
  import opened Protocol
  import opened Invariant

  ghost predicate AtPoint(s: State, i: Pid, p: Proc) {
    ProcsOk(s) && IsAt(s, i, p)
  }

  lemma InvParts(s: State)
    requires Inv(s)
    ensures Base(s) && ProcsOk(s) && Covered(s)
  {
    hide Base, ProcsOk, Covered;
  }

  lemma Here(s: State, i: Pid)
    requires ProcsOk(s) && i in s.procs
    ensures ProcOk(s, i, s.procs[i])
  {
  }

  /** A Provision call's reconciler is running until the call returns. */
  lemma BossAlive(s: State, j: Pid)
    requires ProcsOk(s) && j in s.procs && Boss(s.procs[j]).Some?
    ensures Alive(s.mgr, Boss(s.procs[j]).value)
  {
    Here(s, j);
  }

  /** What a lease was minted for depends on births and on the leases given, not on rows. */
  lemma MintsKept(f: Fleet, f': Fleet, b: Book)
    requires MintsOk(f, b) && f'.births == f.births && f'.leaseOf == f.leaseOf
    ensures MintsOk(f', b)
  {
    forall l | l in b.minted ensures MintOk(f', b.minted[l], l) {
      assert MintOk(f, b.minted[l], l);
    }
  }

  // ---- other calls ----

  /** Whatever call j may rely on in f, it may rely on in f'. */
  ghost predicate FleetKept(f: Fleet, f': Fleet, j: Pid) {
    && (forall w :: Known(f, w) ==> Known(f', w))
    && (forall w :: ClaimerOk(f, j, w) ==> ClaimerOk(f', j, w))
    && (forall w :: BuilderOk(f, j, w) ==> BuilderOk(f', j, w))
    && (forall w :: UnrecordedOk(f, j, w) ==> UnrecordedOk(f', j, w))
    && (forall w, marked :: (ClaimerOk(f, j, w) || BuilderOk(f, j, w)) && HookJobOk(f, marked, w) ==>
         HookJobOk(f', marked, w))
    && (forall u :: u in f.births && u !in f.live ==> u !in f'.live)
  }

  /** A hook-failure job is run by the call that owns the VM. */
  lemma HookJobOwner(p: Proc)
    requires (p.Asking? || p.Dropping?) && p.job.HookJob?
    ensures Claimer(p) == Some(p.vm) || Builder(p) == Some(p.vm)
  {
  }

  lemma FleetSideKept(f: Fleet, f': Fleet, j: Pid, p: Proc)
    requires FleetSideOk(f, j, p) && FleetKept(f, f', j)
    ensures FleetSideOk(f', j, p)
  {
    if (p.Asking? || p.Dropping?) && p.job.HookJob? {
      HookJobOwner(p);
    }
  }

  /** No committed lease changes its terms, and none that ended comes back. */
  ghost predicate BookKept(b: Book, b': Book) {
    && (forall l | l in b.minted ::
          && l in b'.minted && b'.minted[l].vm == b.minted[l].vm && b'.minted[l].pool == b.minted[l].pool
          && b'.minted[l].request == b.minted[l].request)
    && (forall l | l in b.minted && l in b'.leases :: l in b.leases)
  }

  lemma BookSideKept(b: Book, b': Book, p: Proc)
    requires BookSideOk(b, p) && BookKept(b, b')
    ensures BookSideOk(b', p)
  {
  }

  ghost predicate YardKept(y: Yard, y': Yard, j: Pid) {
    forall pl | pl in y.placed && y.placed[pl] == j ::
      && pl in y'.placed && y'.placed[pl] == j
      && (pl in y.placements ==> pl in y'.placements && y'.placements[pl] == y.placements[pl])
  }

  lemma YardSideKept(y: Yard, y': Yard, j: Pid, p: Proc)
    requires YardSideOk(y, j, p) && YardKept(y, y', j)
    ensures YardSideOk(y', j, p)
  {
  }

  /** Whatever call j may rely on, it may still rely on in s'. */
  ghost predicate Undisturbed(s: State, s': State, j: Pid) {
    && FleetKept(FleetOf(s), FleetOf(s'), j)
    && BookKept(BookOf(s), BookOf(s'))
    && YardKept(YardOf(s), YardOf(s'), j)
    && (forall p :: OfficeSideOk(OfficeOf(s), j, p) ==> OfficeSideOk(OfficeOf(s'), j, p))
  }

  lemma ProcKept(s: State, s': State, j: Pid, p: Proc)
    requires ProcOk(s, j, p) && Undisturbed(s, s', j)
    ensures ProcOk(s', j, p)
  {
    FleetSideKept(FleetOf(s), FleetOf(s'), j, p);
    BookSideKept(BookOf(s), BookOf(s'), p);
    YardSideKept(YardOf(s), YardOf(s'), j, p);
  }

  lemma DoneOk(s: State, i: Pid)
    ensures ProcOk(s, i, Done)
  {
  }

  // ---- owners ----

  /** What p owned in f, q owns or needs no owner any more. */
  ghost predicate Releases(f: Fleet, leaked: set<Uid>, p: Proc, q: Proc) {
    && (Unrecorded(p).Some? ==>
          var u := Unrecorded(p).value.uid;
          u in f.live && u !in f.vms ==> u in leaked || Owns(Unrecorded(q), u))
    && (Claimer(p).Some? ==>
          var u := Claimer(p).value.uid;
          u in f.vms && HasLeasedPhase(f.vms[u]) ==> u in f.stranded || u in f.leaseOf || Owns(Claimer(q), u))
    && (Builder(p).Some? ==>
          var u := Builder(p).value.uid;
          u in f.vms && AbandonedProvision(f.vms[u]) ==> u in f.stranded || Owns(Builder(q), u))
  }

  /** What call i owned, if it is there, it owns at q or needs no owner any more. */
  ghost predicate LetsGo(s: State, i: Pid, f: Fleet, leaked: set<Uid>, q: Proc) {
    i in s.procs ==> Releases(f, leaked, s.procs[i], q)
  }

  /** Everything is owned, with the calls as they are in procs. */
  ghost predicate AllCovered(f: Fleet, leaked: set<Uid>, procs: map<Pid, Proc>) {
    LiveCovered(f, leaked, procs) && ClaimsCovered(f, procs) && BuildsCovered(f, procs)
  }

  lemma MoveCovers(f: Fleet, leaked: set<Uid>, procs: map<Pid, Proc>, i: Pid, q: Proc)
    requires AllCovered(f, leaked, procs)
    requires i in procs ==> Releases(f, leaked, procs[i], q)
    ensures AllCovered(f, leaked, procs[i := q])
  {
  }

  /** Either f' needs no owner f did not, or q is that owner. */
  ghost predicate Adopts(f: Fleet, leaked: set<Uid>, f': Fleet, leaked': set<Uid>, i: Pid, q: Proc) {
    && (forall u | u in f'.live && u !in f'.vms && u !in leaked' ::
          || (u in f.live && u !in f.vms && u !in leaked && u in f.births && u in f'.births
             && f'.births[u] == f.births[u])
          || (u in f'.births && f'.births[u].maker == i && Owns(Unrecorded(q), u)))
    && (forall u | u in f'.vms && HasLeasedPhase(f'.vms[u]) && u !in f'.leaseOf && u !in f'.stranded ::
          || (u in f.vms && HasLeasedPhase(f.vms[u]) && u !in f.leaseOf && u !in f.stranded
              && u in f.claimant && u in f'.claimant && f'.claimant[u] == f.claimant[u])
          || (u in f'.claimant && f'.claimant[u] == i && Owns(Claimer(q), u)))
    && (forall u | u in f'.vms && AbandonedProvision(f'.vms[u]) && u !in f'.stranded ::
          || (u in f.vms && AbandonedProvision(f.vms[u]) && u !in f.stranded
              && u in f.births && u in f'.births && f'.births[u] == f.births[u])
          || (u in f'.births && f'.births[u].maker == i && Owns(Builder(q), u)))
  }

  lemma AdoptCovers(f: Fleet, leaked: set<Uid>, f': Fleet, leaked': set<Uid>, procs: map<Pid, Proc>, i: Pid, q: Proc)
    requires AllCovered(f, leaked, procs) && Adopts(f, leaked, f', leaked', i, q)
    requires i in procs ==> Releases(f', leaked', procs[i], q)
    ensures AllCovered(f', leaked', procs[i := q])
  {
  }
}
