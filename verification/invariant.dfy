/** What every reachable state satisfies. The base predicates speak of tables and history only;
    the call predicates tie one call to them and never mention another call, so a step of one
    call is checked against each other call separately; the cover predicates say that no microVM
    and no VM in transit is without an owner. Each predicate takes just the part of the state it
    depends on. */
module Invariant {
  import opened Records
  import opened Transactions
  import opened Protocol

  // ---- views ----

  /** The VM rows, their history and what flintlock runs. */
  datatype Fleet = Fleet(
    vms: map<Uid, Vm>, births: map<Uid, Birth>, claimant: map<Uid, Pid>, leaseOf: map<Uid, LeaseId>,
    live: map<Uid, HostName>, stranded: set<Uid>)

  function FleetOf(s: State): Fleet {
    Fleet(s.db.vms, s.births, s.claimant, s.leaseOf, s.live, s.stranded)
  }

  /** The lease rows and every lease ever committed. */
  datatype Book = Book(leases: map<LeaseId, Lease>, minted: map<LeaseId, Lease>)

  function BookOf(s: State): Book {
    Book(s.db.leases, s.minted)
  }

  /** The reservations and who made them. */
  datatype Yard = Yard(placements: map<PlacementId, Placement>, placed: map<PlacementId, Pid>)

  function YardOf(s: State): Yard {
    Yard(s.db.placements, s.placed)
  }

  /** The pool and host rows, the reconcilers and the locks. */
  datatype Office = Office(
    pools: map<PoolKey, PoolSpec>, hosts: map<HostName, Host>, mgr: Mgr,
    locks: map<PoolKey, Pid>, readers: set<Pid>)

  function OfficeOf(s: State): Office {
    Office(s.db.pools, s.db.hosts, s.mgr, s.locks, s.readers)
  }

  // ---- tables and history ----

  /** A row agrees with its birth; it carries a lease id only of the lease the VM was given;
      outside LEASED and DELETING the VM was never given one; and a VM once claimed is not being
      provisioned any more. */
  ghost predicate RowOk(f: Fleet, u: Uid)
    requires u in f.vms
  {
    var v := f.vms[u];
    && v.uid == u && u in f.births && v.pool == f.births[u].pool && v.host == f.births[u].host
    && (v.leaseId.Some? ==> u in f.leaseOf && f.leaseOf[u] == v.leaseId.value)
    && (!v.phase.Leased? && !v.phase.Deleting? ==> u !in f.leaseOf)
    && (u in f.claimant ==> !AbandonedProvision(v)) && !v.phase.Failed?
  }

  ghost predicate RowsOk(f: Fleet) {
    forall u {:trigger RowOk(f, u)} | u in f.vms :: RowOk(f, u)
  }

  /** A VM is given at most one lease, in its whole life. */
  ghost predicate MintOk(f: Fleet, m: Lease, l: LeaseId) {
    && m.id == l && m.vm in f.births && m.pool == f.births[m.vm].pool
    && m.vm in f.leaseOf && f.leaseOf[m.vm] == l
  }

  ghost predicate MintsOk(f: Fleet, b: Book) {
    forall l {:trigger MintOk(f, b.minted[l], l)} | l in b.minted :: MintOk(f, b.minted[l], l)
  }

  /** The lease a VM was given was committed for it. */
  ghost predicate GivenOk(leaseOf: map<Uid, LeaseId>, minted: map<LeaseId, Lease>) {
    forall u | u in leaseOf :: leaseOf[u] in minted && minted[leaseOf[u]].vm == u
  }

  /** A lease row and its VM row agree whenever both exist. */
  ghost predicate LeaseOk(vms: map<Uid, Vm>, b: Book, l: LeaseId)
    requires l in b.leases
  {
    var m := b.leases[l];
    && l in b.minted && b.minted[l] == m
    && (m.vm in vms ==> vms[m.vm].leaseId == Some(l) && (vms[m.vm].phase.Leased? || vms[m.vm].phase.Deleting?))
  }

  ghost predicate LeasesOk(vms: map<Uid, Vm>, b: Book) {
    forall l {:trigger LeaseOk(vms, b, l)} | l in b.leases :: LeaseOk(vms, b, l)
  }

  ghost predicate RequestsOk(leases: map<LeaseId, Lease>) {
    forall l, m | l in leases && m in leases ::
      leases[l].request.Some? && leases[l].request == leases[m].request ==> l == m
  }

  /** A deleted pool leaves only DELETING rows and no lease. */
  ghost predicate TombstonesOk(pools: map<PoolKey, PoolSpec>, vms: map<Uid, Vm>, leases: map<LeaseId, Lease>) {
    && (forall k | k in pools :: pools[k].key == k)
    && (forall u | u in vms :: vms[u].pool in pools || vms[u].phase.Deleting?)
    && (forall l | l in leases :: leases[l].pool in pools)
  }

  ghost predicate Tracked(m: Mgr, r: Rid)
    requires r in m.recons
  {
    var k := m.recons[r].spec.key;
    (k in m.handles && m.handles[k] == r) || r in ExitingOf(m, k)
  }

  /** A reconciler still running is in handles or exiting, and its pool exists. */
  ghost predicate ManagerOk(m: Mgr, pools: map<PoolKey, PoolSpec>) {
    && (forall r | Alive(m, r) :: Tracked(m, r) && m.recons[r].spec.key in pools)
    && (forall k | k in m.handles :: m.handles[k] in m.recons && m.recons[m.handles[k]].spec.key == k)
  }

  /** Every host a pool, a row or a reservation names is registered. */
  ghost predicate HostsOk(hosts: map<HostName, Host>, pools: map<PoolKey, PoolSpec>, vms: map<Uid, Vm>, y: Yard) {
    && (forall h | h in hosts :: hosts[h].draining ==> hosts[h].cordoned)
    && (forall k, h | k in pools && h in pools[k].hosts :: h in hosts)
    && (forall u | u in vms :: vms[u].host in hosts)
    && (forall pl | pl in y.placements :: pl in y.placed && y.placements[pl].host in hosts)
  }

  /** Only microVMs flintlock once answered for are live, claimed or leased. */
  ghost predicate BornOk(f: Fleet) {
    && (forall u | u in f.live :: u in f.births && f.live[u] == f.births[u].host)
    && (forall u | u in f.claimant :: u in f.births)
    && (forall u | u in f.leaseOf :: u in f.births)
  }

  ghost predicate Base(s: State) {
    && RowsOk(FleetOf(s))
    && MintsOk(FleetOf(s), BookOf(s))
    && GivenOk(s.leaseOf, s.minted)
    && LeasesOk(s.db.vms, BookOf(s))
    && RequestsOk(s.db.leases)
    && TombstonesOk(s.db.pools, s.db.vms, s.db.leases)
    && ManagerOk(s.mgr, s.db.pools)
    && HostsOk(s.db.hosts, s.db.pools, s.db.vms, YardOf(s))
    && BornOk(FleetOf(s))
  }

  // ---- one call ----

  /** A held record agrees with the VM's birth and with the lease it was given. */
  ghost predicate Known(f: Fleet, v: Vm) {
    && v.uid in f.births && v.pool == f.births[v.uid].pool && v.host == f.births[v.uid].host
    && (v.leaseId.Some? ==> v.uid in f.leaseOf && f.leaseOf[v.uid] == v.leaseId.value)
  }

  ghost predicate ClaimerOk(f: Fleet, i: Pid, v: Vm) {
    && v.uid in f.claimant && f.claimant[v.uid] == i && v.uid !in f.leaseOf
    && (v.uid in f.vms ==> HasLeasedPhase(f.vms[v.uid]) || f.vms[v.uid].phase.Deleting?)
  }

  ghost predicate BuilderOk(f: Fleet, i: Pid, v: Vm) {
    && v.uid in f.births && f.births[v.uid].maker == i && v.uid !in f.leaseOf
    && (v.uid in f.vms ==> AbandonedProvision(f.vms[v.uid]) || f.vms[v.uid].phase.Deleting?)
  }

  ghost predicate UnrecordedOk(f: Fleet, i: Pid, v: Vm) {
    && v.uid in f.births && f.births[v.uid].maker == i
    && v.uid !in f.leaseOf && v.uid !in f.claimant && v.uid !in f.vms
  }

  /** EnsureVMDeleted after a hook failure: marked, or its mark failed. */
  ghost predicate HookJobOk(f: Fleet, marked: bool, v: Vm) {
    if marked then v.uid in f.vms ==> f.vms[v.uid].phase.Deleting? else v.uid in f.stranded
  }

  ghost predicate FleetSideOk(f: Fleet, i: Pid, p: Proc) {
    && (Held(p).Some? ==> Known(f, Held(p).value))
    && (Claimer(p).Some? ==> ClaimerOk(f, i, Claimer(p).value))
    && (Builder(p).Some? ==> BuilderOk(f, i, Builder(p).value))
    && (Unrecorded(p).Some? ==> UnrecordedOk(f, i, Unrecorded(p).value))
    && (p.ProvCreated? ==> p.vm.phase.Provisioning?)
    && (p.Dropping? ==> p.vm.uid !in f.live)
    && (p.Asking? && p.job.HookJob? ==> HookJobOk(f, p.job.marked, p.vm))
    && (p.Dropping? && p.job.HookJob? ==> HookJobOk(f, p.job.marked, p.vm))
  }

  ghost predicate YardSideOk(y: Yard, i: Pid, p: Proc) {
    Reserver(p).Some? ==>
      var r := Reserver(p).value;
      && r.0 in y.placed && y.placed[r.0] == i
      && r.0 in y.placements && y.placements[r.0].host == r.1
  }

  /** A lease record a call holds is of a lease once committed, with the same terms. */
  ghost predicate LeaseKnown(b: Book, l: Lease) {
    && l.id in b.minted && b.minted[l.id].vm == l.vm && b.minted[l.id].pool == l.pool
    && b.minted[l.id].request == l.request
  }

  /** A record about to be written back as DELETING carries its lease, while the lease lives. */
  ghost predicate MarkerOk(b: Book, l: Lease, v: Vm) {
    v.uid == l.vm && (l.id in b.leases ==> v.leaseId == Some(l.id))
  }

  /** The VM's lease has ended; it is given no other. */
  ghost predicate LeaseEnded(b: Book, u: Uid) {
    exists l :: l in b.minted && l !in b.leases && b.minted[l].vm == u
  }

  ghost predicate BookSideOk(b: Book, p: Proc) {
    && (LeaseIn(p).Some? ==> LeaseKnown(b, LeaseIn(p).value))
    && (p.ReleaseMarking? || p.ExpiryRead? || p.ExpiryMarking? ==> MarkerOk(b, p.lease, p.vm))
    && (p.ExpiryTaken? || p.ExpiryRead? || p.ExpiryMarking? ==> p.lease.id !in b.leases)
    && ((p.Asking? || p.Dropping?) && p.job.ExpiryJob? ==> LeaseEnded(b, p.vm.uid))
    && (p.ClaimHooking? || p.ClaimRunning? || p.ClaimLeasing? || p.ClaimYielding? ==> p.vm.pool == p.pool)
    && (p.ClaimReplay? ==> p.request == p.lease.request)
    && (p.ClaimOk? ==>
         p.answer in b.minted && b.minted[p.answer].pool == p.pool && b.minted[p.answer].request == p.request)
  }

  ghost predicate NoneAlive(m: Mgr, k: PoolKey, except: set<Rid>) {
    k !in m.handles && forall r | Alive(m, r) && m.recons[r].spec.key == k :: r in except
  }

  /** The pool a Provision call works for is its reconciler's. */
  ghost predicate BossOk(m: Mgr, p: Proc) {
    Boss(p).Some? ==>
      && Alive(m, Boss(p).value)
      && (Held(p).Some? ==> Held(p).value.pool == m.recons[Boss(p).value].spec.key)
      && (p.ProvStart? || p.ProvReserved? ==> p.spec.key == m.recons[Boss(p).value].spec.key)
  }

  predicate IsDeletingPool(p: Proc) {
    p.DelFound? || p.DelStopping? || p.DelStopped? || p.DelWaiting? || p.DelReady? || p.DelRestart?
  }

  ghost predicate LockSideOk(locks: map<PoolKey, Pid>, i: Pid, p: Proc) {
    LockOf(p).Some? ==> LockOf(p).value in locks && locks[LockOf(p).value] == i
  }

  /** What CreatePool, UpdatePool and DeletePool have established under the pool's lock. */
  ghost predicate PoolSideOk(o: Office, i: Pid, p: Proc) {
    && (p.PoolChecked? || p.PoolWriting? ==> i in o.readers && forall h | h in p.spec.hosts :: h in o.hosts)
    && (p.PoolStopping? || p.PoolStarting? ==> p.spec.key in o.pools)
    && (IsDeletingPool(p) ==> p.key in o.pools && p.spec.key == p.key)
  }

  /** StopReconcilerAndWait: whatever still runs for the pool is yet to be waited for. */
  ghost predicate StopSideOk(m: Mgr, p: Proc) {
    && (p.DelStopped? ==> p.key !in m.handles)
    && (p.DelWaiting? ==> NoneAlive(m, p.key, p.rest))
    && (p.DelReady? ==> NoneAlive(m, p.key, {}))
  }

  ghost predicate OfficeSideOk(o: Office, i: Pid, p: Proc) {
    BossOk(o.mgr, p) && LockSideOk(o.locks, i, p) && PoolSideOk(o, i, p) && StopSideOk(o.mgr, p)
  }

  ghost predicate ProcOk(s: State, i: Pid, p: Proc) {
    && FleetSideOk(FleetOf(s), i, p)
    && YardSideOk(YardOf(s), i, p)
    && BookSideOk(BookOf(s), p)
    && OfficeSideOk(OfficeOf(s), i, p)
  }

  ghost predicate ProcsOk(s: State) {
    forall i {:trigger ProcOk(s, i, s.procs[i])} | i in s.procs :: ProcOk(s, i, s.procs[i])
  }

  // ---- nothing without an owner ----

  ghost predicate Owns(o: Option<Vm>, u: Uid) {
    o.Some? && o.value.uid == u
  }

  ghost predicate OwnedOrphan(births: map<Uid, Birth>, procs: map<Pid, Proc>, u: Uid) {
    u in births && births[u].maker in procs && Owns(Unrecorded(procs[births[u].maker]), u)
  }

  ghost predicate OwnedClaim(claimant: map<Uid, Pid>, procs: map<Pid, Proc>, u: Uid) {
    u in claimant && claimant[u] in procs && Owns(Claimer(procs[claimant[u]]), u)
  }

  ghost predicate OwnedBuild(births: map<Uid, Birth>, procs: map<Pid, Proc>, u: Uid) {
    u in births && births[u].maker in procs && Owns(Builder(procs[births[u].maker]), u)
  }

  /** Every microVM flintlock runs has a row, or its Provision call is about to write one, or it
      is a recorded leak. */
  ghost predicate LiveCovered(f: Fleet, leaked: set<Uid>, procs: map<Pid, Proc>) {
    forall u | u in f.live :: u in f.vms || u in leaked || OwnedOrphan(f.births, procs, u)
  }

  /** Every VM claimed and never leased has its ClaimVM call. */
  ghost predicate ClaimsCovered(f: Fleet, procs: map<Pid, Proc>) {
    forall u | u in f.vms && HasLeasedPhase(f.vms[u]) ::
      u in f.leaseOf || u in f.stranded || OwnedClaim(f.claimant, procs, u)
  }

  /** Every VM being provisioned has its Provision call. */
  ghost predicate BuildsCovered(f: Fleet, procs: map<Pid, Proc>) {
    forall u | u in f.vms && AbandonedProvision(f.vms[u]) ::
      u in f.stranded || OwnedBuild(f.births, procs, u)
  }

  ghost predicate Covered(s: State) {
    && LiveCovered(FleetOf(s), s.leaked, s.procs)
    && ClaimsCovered(FleetOf(s), s.procs)
    && BuildsCovered(FleetOf(s), s.procs)
  }

  ghost predicate Inv(s: State) {
    Base(s) && ProcsOk(s) && Covered(s)
  }
}
