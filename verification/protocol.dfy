/** The pool manager as a transition system. Every step is one store transaction, one flintlock
    answer or one critical section of the pool manager; the steps of all calls interleave
    freely, and between two of its steps a call holds whatever records it read before. */
module Protocol {
  import opened Records
  import opened Transactions
  import opened Replenishment

  type Pid = int
  type Rid = int

  // ---- calls in flight ----

  datatype Who = ByClaim | ByProvision(rid: Rid)

  /** On whose behalf EnsureVMDeleted runs, which decides what happens after it. */
  datatype Job =
    | HookJob(who: Who, marked: bool)
    | OrphanJob(rid: Rid, pl: PlacementId, recorded: bool)
    | ReleaseJob(lease: Lease)
    | ExpiryJob
    | SweepJob(finish: bool)

  /** A call and the point it has reached, with the records it holds there. */
  datatype Proc =
    | Done
      // ClaimVM
    | ClaimStart(pool: PoolKey, request: Option<RequestId>)
    | ClaimLookup(pool: PoolKey, request: Option<RequestId>, spec: PoolSpec)
    | ClaimPick(pool: PoolKey, request: Option<RequestId>, spec: PoolSpec)
    | ClaimHooking(pool: PoolKey, request: Option<RequestId>, spec: PoolSpec, vm: Vm)
    | ClaimRunning(pool: PoolKey, request: Option<RequestId>, spec: PoolSpec, vm: Vm)
    | ClaimLeasing(pool: PoolKey, request: Option<RequestId>, spec: PoolSpec, vm: Vm)
    | ClaimYielding(pool: PoolKey, request: Option<RequestId>, spec: PoolSpec, vm: Vm)
    | ClaimYielded(pool: PoolKey, request: Option<RequestId>, gave: Uid)
    | ClaimReplay(pool: PoolKey, request: Option<RequestId>, lease: Lease)
    | ClaimOk(pool: PoolKey, request: Option<RequestId>, answer: LeaseId)
    | ClaimFailed(took: Uid)
      // hook failure policy and EnsureVMDeleted
    | Failing(who: Who, policy: Policy, vm: Vm)
    | Asking(job: Job, vm: Vm)
    | Dropping(job: Job, vm: Vm)
      // ReleaseVM and FinishVMDeletion
    | ReleaseStart(id: LeaseId)
    | ReleaseGot(lease: Lease)
    | ReleaseMarking(lease: Lease, vm: Vm)
    | ReleaseLookup(lease: Lease)
    | ReleaseDropping(lease: Lease)
    | Closing(lease: Lease)
    | ClosingEvent(lease: Lease)
    | ReleaseOk(lease: Lease)
    | Swept(vm: Vm)
    | Finishing(vm: Vm)
      // Heartbeat
    | BeatStart(id: LeaseId)
    | BeatGot(lease: Lease)
    | BeatWriting(lease: Lease, threshold: int)
      // Sweeper.beginExpiry
    | ExpiryStart(id: LeaseId, now: Time)
    | ExpiryTaken(lease: Lease)
    | ExpiryRead(lease: Lease, vm: Vm)
    | ExpiryMarking(lease: Lease, vm: Vm)
      // Provision
    | ProvStart(rid: Rid, spec: PoolSpec)
    | ProvReserved(rid: Rid, spec: PoolSpec, pl: PlacementId, host: HostName)
    | ProvCreated(rid: Rid, spec: PoolSpec, pl: PlacementId, vm: Vm)
    | ProvRecorded(rid: Rid, spec: PoolSpec, pl: PlacementId, vm: Vm)
    | ProvWaiting(rid: Rid, spec: PoolSpec, vm: Vm)
    | ProvMarkHook(rid: Rid, spec: PoolSpec, vm: Vm)
    | ProvHooks(rid: Rid, spec: PoolSpec, vm: Vm)
    | ProvMarkAvailable(rid: Rid, spec: PoolSpec, vm: Vm)
    | ProvFail(rid: Rid, spec: PoolSpec, vm: Vm)
    | ProvOrphan(rid: Rid, spec: PoolSpec, pl: PlacementId, vm: Vm)
    | ProvRelease(rid: Rid, pl: PlacementId, host: HostName)
    | ProvOk(made: Uid)
    | ProvFailed
      // CreatePool and UpdatePool
    | PoolStart(create: bool, spec: PoolSpec)
    | PoolLocked(create: bool, spec: PoolSpec)
    | PoolChecked(create: bool, spec: PoolSpec)
    | PoolWriting(create: bool, spec: PoolSpec)
    | PoolStopping(spec: PoolSpec)
    | PoolStarting(spec: PoolSpec)
      // DeletePool
    | DelStart(key: PoolKey, force: bool)
    | DelLocked(key: PoolKey, force: bool)
    | DelFound(key: PoolKey, force: bool, spec: PoolSpec)
    | DelStopping(key: PoolKey, force: bool, spec: PoolSpec)
    | DelStopped(key: PoolKey, force: bool, spec: PoolSpec)
    | DelWaiting(key: PoolKey, force: bool, spec: PoolSpec, rest: set<Rid>)
    | DelReady(key: PoolKey, force: bool, spec: PoolSpec)
    | DelEvents(key: PoolKey, owed: set<Uid>)
    | DelRestart(key: PoolKey, spec: PoolSpec)

  // ---- the pool manager's reconcilers ----

  datatype Loop =
    | Idle
    | Listed(hook: Hook, vms: map<Uid, Vm>)
    | Capping
    | Spawning(n: int)

  /** A reconciler goroutine; done is its closed done channel. */
  datatype Recon = Recon(spec: PoolSpec, loop: Loop, done: bool)

  datatype Mgr = Mgr(handles: map<PoolKey, Rid>, exiting: map<PoolKey, set<Rid>>, recons: map<Rid, Recon>)

  predicate Alive(m: Mgr, r: Rid) {
    r in m.recons && !m.recons[r].done
  }

  function ExitingOf(m: Mgr, k: PoolKey): set<Rid> {
    if k in m.exiting then m.exiting[k] else {}
  }

  /** StartReconciler, when no handle for the pool exists. */
  function StartRecon(m: Mgr, r: Rid, spec: PoolSpec): Mgr {
    m.(handles := m.handles[spec.key := r], recons := m.recons[r := Recon(spec, Idle, false)])
  }

  /** cancelAndForget: the handle goes, and joins exiting unless its goroutine is already done. */
  function Forget(m: Mgr, k: PoolKey): Mgr {
    if k !in m.handles then m
    else
      var r := m.handles[k];
      var m' := m.(handles := m.handles - {k});
      if Alive(m, r) then m'.(exiting := m.exiting[k := ExitingOf(m, k) + {r}]) else m'
  }

  /** The second half of exited: the goroutine, already done, leaves the exiting list. */
  function Leave(m: Mgr, r: Rid): Mgr
    requires r in m.recons
  {
    var k := m.recons[r].spec.key;
    var rest := ExitingOf(m, k) - {r};
    if rest == {} then m.(exiting := m.exiting - {k}) else m.(exiting := m.exiting[k := rest])
  }

  /** The first half of exited: the done channel closes. */
  function Finished(m: Mgr, r: Rid): Mgr
    requires r in m.recons
  {
    m.(recons := m.recons[r := m.recons[r].(done := true)])
  }

  function SetLoop(m: Mgr, r: Rid, loop: Loop): Mgr
    requires r in m.recons
  {
    m.(recons := m.recons[r := m.recons[r].(loop := loop)])
  }

  // ---- the whole system ----

  /** Which Provision call made a microVM, and where: fixed when flintlock answers. */
  datatype Birth = Birth(maker: Pid, pool: PoolKey, host: HostName)

  /** db is the store and mgr the pool manager. live is what flintlock really runs. The rest of
      the first group is history: births, the call that last claimed each VM, the lease each VM
      was given, every lease ever committed as last written, and the call that made each
      reservation. The next three record the documented failures: leaked, the microVMs flintlock
      runs that no row could be written for; stranded, the VMs whose cleanup write failed; and
      unreleased, the reservations whose release failed. */
  datatype State = State(
    db: Db,
    mgr: Mgr,
    live: map<Uid, HostName>,
    births: map<Uid, Birth>,
    claimant: map<Uid, Pid>,
    leaseOf: map<Uid, LeaseId>,
    minted: map<LeaseId, Lease>,
    placed: map<PlacementId, Pid>,
    leaked: set<Uid>,
    stranded: set<Uid>,
    unreleased: set<PlacementId>,
    locks: map<PoolKey, Pid>,
    readers: set<Pid>,
    procs: map<Pid, Proc>)

  /** What the environment decides in a step: whether the store or flintlock answered, fresh
      identifiers, the host picked, the time. odd is an effect behind a failed answer. */
  datatype Choice = Choice(ok: bool, odd: bool, pick: int, host: HostName, now: Time)

  datatype Action =
    | Call(i: Pid, p: Proc)
    | Advance(i: Pid, c: Choice)
    | Sweep(i: Pid, u: Uid, finish: bool)
    | SetCordoned(h: HostName, cordoned: bool, reason: Option<string>, now: Time)
    | Drain(h: HostName, reason: Option<string>, now: Time)
    | MarkDraining
    | AddHost(h: HostName)
    | RemoveHost(h: HostName)
    | Note(e: Event)
    | Seed(k: PoolKey, r: Rid)
    | ReconList(r: Rid, hook: Hook)
    | ReconCount(r: Rid)
    | ReconCap(r: Rid)
    | ReconSpawn(r: Rid, i: Pid)
    | ReconRest(r: Rid)
    | ReconExit(r: Rid)
    | ReconLeave(r: Rid)
    | Restart

  /** Call i has reached point p. */
  predicate IsAt(s: State, i: Pid, p: Proc) {
    i in s.procs && s.procs[i] == p
  }

  // ---- what a call owns at each point ----

  /** The VM a ClaimVM call has claimed and not yet leased, handed back or given up. */
  function Claimer(p: Proc): Option<Vm> {
    match p
    case ClaimHooking(_, _, _, v) => Some(v)
    case ClaimRunning(_, _, _, v) => Some(v)
    case ClaimLeasing(_, _, _, v) => Some(v)
    case ClaimYielding(_, _, _, v) => Some(v)
    case Failing(ByClaim, _, v) => Some(v)
    case Asking(HookJob(ByClaim, _), v) => Some(v)
    case Dropping(HookJob(ByClaim, _), v) => Some(v)
    case _ => None
  }

  /** The VM a Provision call has recorded and is still working on. */
  function Builder(p: Proc): Option<Vm> {
    match p
    case ProvRecorded(_, _, _, v) => Some(v)
    case ProvWaiting(_, _, v) => Some(v)
    case ProvMarkHook(_, _, v) => Some(v)
    case ProvHooks(_, _, v) => Some(v)
    case ProvMarkAvailable(_, _, v) => Some(v)
    case ProvFail(_, _, v) => Some(v)
    case Failing(ByProvision(_), _, v) => Some(v)
    case Asking(HookJob(ByProvision(_), _), v) => Some(v)
    case Dropping(HookJob(ByProvision(_), _), v) => Some(v)
    case _ => None
  }

  /** The microVM a Provision call has created and not yet recorded. */
  function Unrecorded(p: Proc): Option<Vm> {
    match p
    case ProvCreated(_, _, _, v) => Some(v)
    case ProvOrphan(_, _, _, v) => Some(v)
    case Asking(OrphanJob(_, _, false), v) => Some(v)
    case _ => None
  }

  /** The reservation a Provision call still has to release, and its host. */
  function Reserver(p: Proc): Option<(PlacementId, HostName)> {
    match p
    case ProvReserved(_, _, pl, h) => Some((pl, h))
    case ProvCreated(_, _, pl, v) => Some((pl, v.host))
    case ProvRecorded(_, _, pl, v) => Some((pl, v.host))
    case ProvOrphan(_, _, pl, v) => Some((pl, v.host))
    case Asking(OrphanJob(_, pl, _), v) => Some((pl, v.host))
    case Dropping(OrphanJob(_, pl, _), v) => Some((pl, v.host))
    case ProvRelease(_, pl, h) => Some((pl, h))
    case _ => None
  }

  /** The VM record a call holds. */
  function Held(p: Proc): Option<Vm> {
    match p
    case Asking(_, v) => Some(v)
    case Dropping(_, v) => Some(v)
    case ReleaseMarking(_, v) => Some(v)
    case ExpiryRead(_, v) => Some(v)
    case ExpiryMarking(_, v) => Some(v)
    case Swept(v) => Some(v)
    case Finishing(v) => Some(v)
    case _ =>
      if Claimer(p).Some? then Claimer(p) else if Builder(p).Some? then Builder(p) else Unrecorded(p)
  }

  /** The lease record a call holds. */
  function LeaseIn(p: Proc): Option<Lease> {
    match p
    case ClaimReplay(_, _, l) => Some(l)
    case Asking(ReleaseJob(l), _) => Some(l)
    case Dropping(ReleaseJob(l), _) => Some(l)
    case ReleaseGot(l) => Some(l)
    case ReleaseMarking(l, _) => Some(l)
    case ReleaseLookup(l) => Some(l)
    case ReleaseDropping(l) => Some(l)
    case Closing(l) => Some(l)
    case ClosingEvent(l) => Some(l)
    case ReleaseOk(l) => Some(l)
    case BeatGot(l) => Some(l)
    case BeatWriting(l, _) => Some(l)
    case ExpiryTaken(l) => Some(l)
    case ExpiryRead(l, _) => Some(l)
    case ExpiryMarking(l, _) => Some(l)
    case _ => None
  }

  /** The reconciler a Provision call runs under, until the call returns. */
  function Boss(p: Proc): Option<Rid> {
    match p
    case ProvStart(r, _) => Some(r)
    case ProvReserved(r, _, _, _) => Some(r)
    case ProvCreated(r, _, _, _) => Some(r)
    case ProvRecorded(r, _, _, _) => Some(r)
    case ProvWaiting(r, _, _) => Some(r)
    case ProvMarkHook(r, _, _) => Some(r)
    case ProvHooks(r, _, _) => Some(r)
    case ProvMarkAvailable(r, _, _) => Some(r)
    case ProvFail(r, _, _) => Some(r)
    case ProvOrphan(r, _, _, _) => Some(r)
    case ProvRelease(r, _, _) => Some(r)
    case Failing(ByProvision(r), _, _) => Some(r)
    case Asking(HookJob(ByProvision(r), _), _) => Some(r)
    case Dropping(HookJob(ByProvision(r), _), _) => Some(r)
    case Asking(OrphanJob(r, _, _), _) => Some(r)
    case Dropping(OrphanJob(r, _, _), _) => Some(r)
    case _ => None
  }

  /** The pool whose lock a pool-admin call holds. */
  function LockOf(p: Proc): Option<PoolKey> {
    match p
    case PoolLocked(_, spec) => Some(spec.key)
    case PoolChecked(_, spec) => Some(spec.key)
    case PoolWriting(_, spec) => Some(spec.key)
    case PoolStopping(spec) => Some(spec.key)
    case PoolStarting(spec) => Some(spec.key)
    case DelLocked(k, _) => Some(k)
    case DelFound(k, _, _) => Some(k)
    case DelStopping(k, _, _) => Some(k)
    case DelStopped(k, _, _) => Some(k)
    case DelWaiting(k, _, _, _) => Some(k)
    case DelReady(k, _, _) => Some(k)
    case DelEvents(k, _) => Some(k)
    case DelRestart(k, _) => Some(k)
    case _ => None
  }

  /** Where a call may begin. */
  predicate IsEntry(p: Proc) {
    p.ClaimStart? || p.ReleaseStart? || p.BeatStart? || p.ExpiryStart? || p.PoolStart? || p.DelStart?
  }

  // ---- effects: what one step of call i changes ----

  function To(s: State, i: Pid, q: Proc): State {
    s.(procs := s.procs[i := q])
  }

  function Put(s: State, i: Pid, q: Proc, v: Vm): State {
    s.(db := PutVm(s.db, v), procs := s.procs[i := q])
  }

  function DropRow(s: State, i: Pid, q: Proc, u: Uid): State {
    s.(db := DropVm(s.db, u), procs := s.procs[i := q])
  }

  function Take(s: State, i: Pid, q: Proc, v: Vm): State {
    s.(db := PutVm(s.db, v), claimant := s.claimant[v.uid := i], procs := s.procs[i := q])
  }

  function Commit(s: State, i: Pid, q: Proc, v: Vm, l: Lease): State {
    s.(db := PutLease(PutVm(s.db, v), l),
       leaseOf := s.leaseOf[v.uid := l.id],
       minted := s.minted[l.id := l],
       procs := s.procs[i := q])
  }

  function EndLease(s: State, i: Pid, q: Proc, l: LeaseId): State {
    s.(db := DropLease(s.db, l), procs := s.procs[i := q])
  }

  function Renew(s: State, i: Pid, q: Proc, l: Lease): State {
    s.(db := PutLease(s.db, l), minted := s.minted[l.id := l], procs := s.procs[i := q])
  }

  function Place(s: State, i: Pid, q: Proc, pl: PlacementId, row: Placement): State {
    s.(db := Reserve(s.db, pl, row), placed := s.placed[pl := i], procs := s.procs[i := q])
  }

  function Unplace(s: State, i: Pid, q: Proc, pl: PlacementId): State {
    s.(db := Unreserve(s.db, pl), procs := s.procs[i := q])
  }

  function Overstay(s: State, i: Pid, q: Proc, pl: PlacementId): State {
    s.(unreleased := s.unreleased + {pl}, procs := s.procs[i := q])
  }

  function Born(s: State, i: Pid, q: Proc, u: Uid, b: Birth, lost: bool): State {
    s.(live := s.live[u := b.host],
       births := s.births[u := b],
       leaked := if lost then s.leaked + {u} else s.leaked,
       procs := s.procs[i := q])
  }

  function Kill(s: State, i: Pid, q: Proc, u: Uid): State {
    s.(live := s.live - {u}, procs := s.procs[i := q])
  }

  function Lose(s: State, i: Pid, q: Proc, u: Uid): State {
    s.(leaked := s.leaked + {u}, procs := s.procs[i := q])
  }

  function Forsake(s: State, i: Pid, q: Proc, u: Uid): State {
    s.(stranded := s.stranded + {u}, procs := s.procs[i := q])
  }

  function Lock(s: State, i: Pid, q: Proc, k: PoolKey): State {
    s.(locks := s.locks[k := i], procs := s.procs[i := q])
  }

  /** A pool-admin call returns: its pool lock, and its read lock on host references, go. */
  function Unlock(s: State, i: Pid, k: PoolKey): State {
    s.(locks := s.locks - {k}, readers := s.readers - {i}, procs := s.procs[i := Done])
  }

  function Read(s: State, i: Pid, q: Proc): State {
    s.(readers := s.readers + {i}, procs := s.procs[i := q])
  }

  function WritePool(s: State, i: Pid, q: Proc, spec: PoolSpec): State {
    s.(db := PutPool(s.db, spec), procs := s.procs[i := q])
  }

  function RemovePool(s: State, i: Pid, q: Proc, k: PoolKey): State {
    s.(db := DeletePool(s.db, k), procs := s.procs[i := q])
  }

  function Manage(s: State, i: Pid, q: Proc, m: Mgr): State {
    s.(mgr := m, procs := s.procs[i := q])
  }

  function Record(s: State, i: Pid, q: Proc, e: Event): State {
    s.(db := Emit(s.db, e), procs := s.procs[i := q])
  }

  /** The one thing a step of a call does, and the point it moves to. */
  datatype Effect =
    | Stays
    | Moves(q: Proc)
    | Puts(q: Proc, v: Vm)
    | Inserts(q: Proc, v: Vm)
    | Drops(q: Proc, u: Uid)
    | Takes(q: Proc, v: Vm)
    | Commits(q: Proc, v: Vm, l: Lease)
    | Ends(q: Proc, lease: LeaseId)
    | Renews(q: Proc, l: Lease)
    | Reserves(q: Proc, pl: PlacementId, row: Placement)
    | Frees(q: Proc, pl: PlacementId)
    | Overstays(q: Proc, pl: PlacementId)
    | Bears(q: Proc, u: Uid, pool: PoolKey, host: HostName, lost: bool)
    | Kills(q: Proc, u: Uid)
    | Loses(q: Proc, u: Uid)
    | Forsakes(q: Proc, u: Uid)
    | Locks(q: Proc, k: PoolKey)
    | Unlocks(k: PoolKey)
    | Reads(q: Proc)
    | WritesPool(q: Proc, spec: PoolSpec)
    | RemovesPool(q: Proc, k: PoolKey)
    | Forgets(q: Proc, k: PoolKey)
    | Starts(r: Rid, spec: PoolSpec)
    | Records(q: Proc, e: Event)

  function Apply(s: State, i: Pid, e: Effect): State {
    match e
    case Stays => s
    case Moves(q) => To(s, i, q)
    case Puts(q, v) => Put(s, i, q, v)
    case Inserts(q, v) => Put(s, i, q, v)
    case Drops(q, u) => DropRow(s, i, q, u)
    case Takes(q, v) => Take(s, i, q, v)
    case Commits(q, v, l) => Commit(s, i, q, v, l)
    case Ends(q, l) => EndLease(s, i, q, l)
    case Renews(q, l) => Renew(s, i, q, l)
    case Reserves(q, pl, row) => Place(s, i, q, pl, row)
    case Frees(q, pl) => Unplace(s, i, q, pl)
    case Overstays(q, pl) => Overstay(s, i, q, pl)
    case Bears(q, u, pool, host, lost) => Born(s, i, q, u, Birth(i, pool, host), lost)
    case Kills(q, u) => Kill(s, i, q, u)
    case Loses(q, u) => Lose(s, i, q, u)
    case Forsakes(q, u) => Forsake(s, i, q, u)
    case Locks(q, k) => Lock(s, i, q, k)
    case Unlocks(k) => Unlock(s, i, k)
    case Reads(q) => Read(s, i, q)
    case WritesPool(q, spec) => WritePool(s, i, q, spec)
    case RemovesPool(q, k) => RemovePool(s, i, q, k)
    case Forgets(q, k) => Manage(s, i, q, Forget(s.mgr, k))
    case Starts(r, spec) => Unlock(s.(mgr := StartRecon(s.mgr, r, spec)), i, spec.key)
    case Records(q, e) => Record(s, i, q, e)
  }

  // ---- each effect, applied ----

  lemma ApplyStays(s: State, i: Pid)
    ensures Apply(s, i, Stays) == s
  {
  }

  lemma ApplyMoves(s: State, i: Pid, q: Proc)
    ensures Apply(s, i, Moves(q)) == To(s, i, q)
  {
  }

  lemma ApplyPuts(s: State, i: Pid, q: Proc, v: Vm)
    ensures Apply(s, i, Puts(q, v)) == Put(s, i, q, v)
  {
  }

  lemma ApplyDrops(s: State, i: Pid, q: Proc, u: Uid)
    ensures Apply(s, i, Drops(q, u)) == DropRow(s, i, q, u)
  {
  }

  lemma ApplyTakes(s: State, i: Pid, q: Proc, v: Vm)
    ensures Apply(s, i, Takes(q, v)) == Take(s, i, q, v)
  {
  }

  lemma ApplyCommits(s: State, i: Pid, q: Proc, v: Vm, l: Lease)
    ensures Apply(s, i, Commits(q, v, l)) == Commit(s, i, q, v, l)
  {
  }

  lemma ApplyEnds(s: State, i: Pid, q: Proc, l: LeaseId)
    ensures Apply(s, i, Ends(q, l)) == EndLease(s, i, q, l)
  {
  }

  lemma ApplyRenews(s: State, i: Pid, q: Proc, l: Lease)
    ensures Apply(s, i, Renews(q, l)) == Renew(s, i, q, l)
  {
  }

  lemma ApplyReserves(s: State, i: Pid, q: Proc, pl: PlacementId, row: Placement)
    ensures Apply(s, i, Reserves(q, pl, row)) == Place(s, i, q, pl, row)
  {
  }

  lemma ApplyFrees(s: State, i: Pid, q: Proc, pl: PlacementId)
    ensures Apply(s, i, Frees(q, pl)) == Unplace(s, i, q, pl)
  {
  }

  lemma ApplyOverstays(s: State, i: Pid, q: Proc, pl: PlacementId)
    ensures Apply(s, i, Overstays(q, pl)) == Overstay(s, i, q, pl)
  {
  }

  lemma ApplyBears(s: State, i: Pid, q: Proc, u: Uid, pool: PoolKey, host: HostName, lost: bool)
    ensures Apply(s, i, Bears(q, u, pool, host, lost)) == Born(s, i, q, u, Birth(i, pool, host), lost)
  {
  }

  lemma ApplyKills(s: State, i: Pid, q: Proc, u: Uid)
    ensures Apply(s, i, Kills(q, u)) == Kill(s, i, q, u)
  {
  }

  lemma ApplyLoses(s: State, i: Pid, q: Proc, u: Uid)
    ensures Apply(s, i, Loses(q, u)) == Lose(s, i, q, u)
  {
  }

  lemma ApplyForsakes(s: State, i: Pid, q: Proc, u: Uid)
    ensures Apply(s, i, Forsakes(q, u)) == Forsake(s, i, q, u)
  {
  }

  lemma ApplyLocks(s: State, i: Pid, q: Proc, k: PoolKey)
    ensures Apply(s, i, Locks(q, k)) == Lock(s, i, q, k)
  {
  }

  lemma ApplyUnlocks(s: State, i: Pid, k: PoolKey)
    ensures Apply(s, i, Unlocks(k)) == Unlock(s, i, k)
  {
  }

  lemma ApplyReads(s: State, i: Pid, q: Proc)
    ensures Apply(s, i, Reads(q)) == Read(s, i, q)
  {
  }

  lemma ApplyWritesPool(s: State, i: Pid, q: Proc, spec: PoolSpec)
    ensures Apply(s, i, WritesPool(q, spec)) == WritePool(s, i, q, spec)
  {
  }

  lemma ApplyRemovesPool(s: State, i: Pid, q: Proc, k: PoolKey)
    ensures Apply(s, i, RemovesPool(q, k)) == RemovePool(s, i, q, k)
  {
  }

  lemma ApplyForgets(s: State, i: Pid, q: Proc, k: PoolKey)
    ensures Apply(s, i, Forgets(q, k)) == Manage(s, i, q, Forget(s.mgr, k))
  {
  }

  lemma ApplyStarts(s: State, i: Pid, r: Rid, spec: PoolSpec)
    ensures Apply(s, i, Starts(r, spec)) == Unlock(s.(mgr := StartRecon(s.mgr, r, spec)), i, spec.key)
  {
  }

  lemma ApplyRecords(s: State, i: Pid, q: Proc, e: Event)
    ensures Apply(s, i, Records(q, e)) == Record(s, i, q, e)
  {
  }

  /** Inserting and updating a row write the same table. */
  lemma InsertsRow(s: State, i: Pid, q: Proc, v: Vm)
    ensures Apply(s, i, Inserts(q, v)) == Apply(s, i, Puts(q, v))
  {
  }

  // ---- plans: each is of one point of a call, and does nothing at any other ----

  // ---- plans: ClaimVM ----

  function PlanClaimStart(s: State, p: Proc, c: Choice): Effect {
    if !p.ClaimStart? then Stays
    else if !c.ok || p.pool !in s.db.pools then Moves(Done)
    else if p.request.None? then Moves(ClaimPick(p.pool, p.request, s.db.pools[p.pool]))
    else Moves(ClaimLookup(p.pool, p.request, s.db.pools[p.pool]))
  }

  /** GetLeaseByRequestID: the row found, if there is one, is the lease c picks. */
  function PlanClaimLookup(s: State, p: Proc, c: Choice): Effect {
    if !p.ClaimLookup? then Stays
    else if !c.ok then Moves(Done)
    else if !RequestTaken(s.db, p.request) then Moves(ClaimPick(p.pool, p.request, p.spec))
    else if c.pick in s.db.leases && s.db.leases[c.pick].request == p.request then
      Moves(ClaimReplay(p.pool, p.request, s.db.leases[c.pick]))
    else Stays
  }

  function PlanClaimPick(s: State, p: Proc, c: Choice): Effect {
    if !p.ClaimPick? then Stays
    else if !c.ok then Moves(Done)
    else if CanClaim(s.db, p.pool, c.pick) then
      var v := s.db.vms[c.pick].(phase := Leased);
      Takes(ClaimHooking(p.pool, p.request, p.spec, v), v)
    else if !(exists u :: u in s.db.vms && CanClaim(s.db, p.pool, u)) then Moves(Done)
    else Stays
  }

  function PlanClaimHooking(s: State, p: Proc, c: Choice): Effect {
    if !p.ClaimHooking? then Stays
    else
      var v := p.vm.(phase := PreLeaseHookRunning);
      if !c.ok then Moves(Failing(ByClaim, p.spec.policy, v))
      else if !CanUpdateVm(s.db, v) then Moves(Done)
      else Puts(ClaimRunning(p.pool, p.request, p.spec, v), v)
  }

  function PlanClaimRunning(s: State, p: Proc, c: Choice): Effect {
    if !p.ClaimRunning? then Stays
    else if !c.ok then Moves(Failing(ByClaim, p.spec.policy, p.vm))
    else Moves(ClaimLeasing(p.pool, p.request, p.spec, p.vm))
  }

  function NewLease(p: Proc, id: LeaseId, now: Time): Lease
    requires p.ClaimLeasing?
  {
    Lease(id, p.vm.uid, p.pool, now, now, now + p.spec.expiryThreshold, p.request)
  }

  /** LeaseVM: the VM write is tried first, then the insert, and both commit or neither. */
  function PlanClaimLeasing(s: State, p: Proc, c: Choice): Effect {
    if !p.ClaimLeasing? then Stays
    else
      var v := p.vm.(phase := Leased, leaseId := Some(c.pick));
      if !c.ok then Moves(Failing(ByClaim, p.spec.policy, p.vm))
      else if !CanUpdateVm(s.db, v) then Moves(Done)
      else if RequestTaken(s.db, p.request) then Moves(ClaimYielding(p.pool, p.request, p.spec, p.vm))
      else if c.pick in s.minted then Stays
      else Commits(ClaimOk(p.pool, p.request, c.pick), v, NewLease(p, c.pick, c.now))
  }

  function PlanClaimYielding(s: State, p: Proc, c: Choice): Effect {
    if !p.ClaimYielding? then Stays
    else
      var v := p.vm.(phase := Available, leaseId := None);
      if !c.ok then Moves(Failing(ByClaim, p.spec.policy, v))
      else if !CanUpdateVm(s.db, v) then Moves(Done)
      else Puts(ClaimYielded(p.pool, p.request, v.uid), v)
  }

  function PlanClaimYielded(s: State, p: Proc, c: Choice): Effect {
    if !p.ClaimYielded? then Stays
    else if !c.ok || !RequestTaken(s.db, p.request) then Moves(Done)
    else if c.pick in s.db.leases && s.db.leases[c.pick].request == p.request then
      Moves(ClaimReplay(p.pool, p.request, s.db.leases[c.pick]))
    else Stays
  }

  function PlanClaimReplay(s: State, p: Proc, c: Choice): Effect {
    if !p.ClaimReplay? then Stays
    else if !c.ok || p.lease.pool != p.pool || p.lease.vm !in s.db.vms || s.db.vms[p.lease.vm].phase.Deleting?
    then Moves(Done)
    else Moves(ClaimOk(p.pool, p.request, p.lease.id))
  }

  // ---- plans: hook failure policy and EnsureVMDeleted ----

  /** The call returns an error after its failure policy. */
  function GivesUp(who: Who, v: Vm): Proc {
    match who
    case ByClaim => ClaimFailed(v.uid)
    case ByProvision(_) => ProvFailed
  }

  /** ApplyHookFailurePolicy's store write. A refused write is left to whoever deletes the VM;
      an unanswered one may strand it. */
  function PlanFailing(s: State, p: Proc, c: Choice): Effect {
    if !p.Failing? then Stays
    else if p.policy.Quarantine? then
      var v := p.vm.(phase := Quarantined, leaseId := None);
      if !c.ok then Forsakes(GivesUp(p.who, v), v.uid)
      else if !CanUpdateVm(s.db, v) then Moves(GivesUp(p.who, v))
      else Puts(GivesUp(p.who, v), v)
    else
      var v := Condemn(p.vm);
      if !c.ok then Forsakes(Asking(HookJob(p.who, false), v), v.uid)
      else if !CanUpdateVm(s.db, v) then Moves(Asking(HookJob(p.who, true), v))
      else Puts(Asking(HookJob(p.who, true), v), v)
  }

  /** Where a job goes when flintlock or the store did not answer, or the row was gone. */
  function Abandon(job: Job, v: Vm): Proc {
    match job
    case OrphanJob(r, pl, _) => ProvRelease(r, pl, v.host)
    case HookJob(who, _) => GivesUp(who, v)
    case _ => Done
  }

  function Gone(job: Job, v: Vm): Proc {
    match job
    case OrphanJob(r, pl, _) => ProvRelease(r, pl, v.host)
    case HookJob(who, _) => GivesUp(who, v)
    case ReleaseJob(l) => ReleaseLookup(l)
    case _ => Done
  }

  function Dropped(job: Job, v: Vm, poolExists: bool): Proc {
    match job
    case OrphanJob(r, pl, _) => ProvRelease(r, pl, v.host)
    case HookJob(who, _) => GivesUp(who, v)
    case ReleaseJob(l) => if poolExists then Closing(l) else ReleaseDropping(l)
    case ExpiryJob => Finishing(v)
    case SweepJob(finish) => if finish then Swept(v) else Done
  }

  /** DeleteMicroVM: an answer (or NotFound) confirms; a failure may still have deleted it. */
  function PlanAsking(s: State, p: Proc, c: Choice): Effect {
    if !p.Asking? then Stays
    else
      var lost := p.job.OrphanJob? && !p.job.recorded;
      if c.ok then Kills(if lost then Abandon(p.job, p.vm) else Dropping(p.job, p.vm), p.vm.uid)
      else if c.odd then Kills(Abandon(p.job, p.vm), p.vm.uid)
      else if lost then Loses(Abandon(p.job, p.vm), p.vm.uid)
      else Moves(Abandon(p.job, p.vm))
  }

  function PlanDropping(s: State, p: Proc, c: Choice): Effect {
    if !p.Dropping? then Stays
    else if !c.ok then Moves(Abandon(p.job, p.vm))
    else if p.vm.uid !in s.db.vms then Moves(Gone(p.job, p.vm))
    else Drops(Dropped(p.job, p.vm, s.db.vms[p.vm.uid].pool in s.db.pools), p.vm.uid)
  }

  // ---- plans: ReleaseVM and FinishVMDeletion ----

  function PlanReleaseStart(s: State, p: Proc, c: Choice): Effect {
    if !p.ReleaseStart? then Stays
    else if !c.ok || p.id !in s.db.leases then Moves(Done) else Moves(ReleaseGot(s.db.leases[p.id]))
  }

  function PlanReleaseGot(s: State, p: Proc, c: Choice): Effect {
    if !p.ReleaseGot? then Stays
    else if !c.ok then Moves(Done)
    else if p.lease.vm !in s.db.vms then Moves(ReleaseDropping(p.lease))
    else
      var v := s.db.vms[p.lease.vm];
      Moves(if v.phase.Deleting? then Asking(ReleaseJob(p.lease), v) else ReleaseMarking(p.lease, v))
  }

  function PlanReleaseMarking(s: State, p: Proc, c: Choice): Effect {
    if !p.ReleaseMarking? then Stays
    else
      var v := p.vm.(phase := Deleting);
      if !c.ok then Moves(Done)
      else if !CanUpdateVm(s.db, v) then Moves(ReleaseLookup(p.lease))
      else Puts(Asking(ReleaseJob(p.lease), v), v)
  }

  function PlanReleaseLookup(s: State, p: Proc, c: Choice): Effect {
    if !p.ReleaseLookup? then Stays
    else if !c.ok then Moves(Done)
    else if p.lease.pool in s.db.pools then Moves(ReleaseOk(p.lease))
    else Moves(ReleaseDropping(p.lease))
  }

  function PlanReleaseDropping(s: State, p: Proc, c: Choice): Effect {
    if !p.ReleaseDropping? then Stays
    else if !c.ok then Moves(Done) else Ends(ReleaseOk(p.lease), p.lease.id)
  }

  /** FinishVMRelease: the lease row, then the event, each best effort. */
  function PlanClosing(s: State, p: Proc, c: Choice): Effect {
    if !p.Closing? then Stays
    else if !c.ok then Moves(ClosingEvent(p.lease)) else Ends(ClosingEvent(p.lease), p.lease.id)
  }

  function PlanClosingEvent(s: State, p: Proc, c: Choice): Effect {
    if !p.ClosingEvent? then Stays
    else if !c.ok then Moves(ReleaseOk(p.lease))
    else Records(ReleaseOk(p.lease), Event(p.lease.pool, p.lease.vm, VmDeletedOnRelease))
  }

  /** After the Sweeper removed a row: no pool means no bookkeeping, and a leaseless VM of a
      draining host (odd) had its event when it was marked. */
  function PlanSwept(s: State, p: Proc, c: Choice): Effect {
    if !p.Swept? then Stays
    else if !c.ok || p.vm.pool !in s.db.pools || (c.odd && p.vm.leaseId.None?) then Moves(Done)
    else Moves(Finishing(p.vm))
  }

  /** FinishVMDeletion: a lease row still there for the VM means a release. */
  function PlanFinishing(s: State, p: Proc, c: Choice): Effect {
    if !p.Finishing? then Stays
    else if c.ok && p.vm.leaseId.Some? && p.vm.leaseId.value in s.db.leases then
      Moves(Closing(s.db.leases[p.vm.leaseId.value]))
    else Moves(Done)
  }

  // ---- plans: Heartbeat and beginExpiry ----

  function PlanBeatStart(s: State, p: Proc, c: Choice): Effect {
    if !p.BeatStart? then Stays
    else if !c.ok || p.id !in s.db.leases then Moves(Done) else Moves(BeatGot(s.db.leases[p.id]))
  }

  function PlanBeatGot(s: State, p: Proc, c: Choice): Effect {
    if !p.BeatGot? then Stays
    else if !c.ok || p.lease.pool !in s.db.pools then Moves(Done)
    else Moves(BeatWriting(p.lease, s.db.pools[p.lease.pool].expiryThreshold))
  }

  function PlanBeatWriting(s: State, p: Proc, c: Choice): Effect {
    if !p.BeatWriting? then Stays
    else if !c.ok || p.lease.id !in s.db.leases then Moves(Done)
    else Renews(Done, Renewed(s.db.leases[p.lease.id], c.now, c.now + p.threshold))
  }

  function PlanExpiryStart(s: State, p: Proc, c: Choice): Effect {
    if !p.ExpiryStart? then Stays
    else if !c.ok || !IsExpired(s.db, p.id, p.now) then Moves(Done)
    else Ends(ExpiryTaken(s.db.leases[p.id]), p.id)
  }

  function PlanExpiryTaken(s: State, p: Proc, c: Choice): Effect {
    if !p.ExpiryTaken? then Stays
    else if !c.ok || p.lease.vm !in s.db.vms || !s.db.vms[p.lease.vm].phase.Leased? then Moves(Done)
    else Moves(ExpiryRead(p.lease, s.db.vms[p.lease.vm]))
  }

  function PlanExpiryRead(s: State, p: Proc, c: Choice): Effect {
    if !p.ExpiryRead? then Stays
    else if !c.ok || p.lease.pool !in s.db.pools then Moves(Done) else Moves(ExpiryMarking(p.lease, p.vm))
  }

  function PlanExpiryMarking(s: State, p: Proc, c: Choice): Effect {
    if !p.ExpiryMarking? then Stays
    else
      var v := p.vm.(phase := Deleting);
      if !c.ok || !CanUpdateVm(s.db, v) then Moves(Done)
      else Puts(Asking(ExpiryJob, v), v)
  }

  // ---- plans: Provision ----

  /** PickHost chose c.host from the spec; ReservePlacement refuses a host that is cordoned or
      not registered by now. */
  function PlanProvStart(s: State, p: Proc, c: Choice): Effect {
    if !p.ProvStart? then Stays
    else if !c.ok || c.host !in p.spec.hosts || c.host !in s.db.hosts || s.db.hosts[c.host].cordoned
    then Moves(ProvFailed)
    else if c.pick in s.placed || c.pick in s.db.placements then Stays
    else Reserves(ProvReserved(p.rid, p.spec, c.pick, c.host), c.pick, Placement(c.host, p.spec.key))
  }

  /** CreateMicroVM. odd is an answer without a uid: flintlock runs a microVM nobody can name. */
  function PlanProvReserved(s: State, p: Proc, c: Choice): Effect {
    if !p.ProvReserved? then Stays
    else if c.pick in s.births then Stays
    else if c.ok then
      Bears(ProvCreated(p.rid, p.spec, p.pl, Vm(c.pick, p.spec.key, p.host, Provisioning, None)), c.pick, p.spec.key,
        p.host, false)
    else if c.odd then Bears(ProvRelease(p.rid, p.pl, p.host), c.pick, p.spec.key, p.host, true)
    else Moves(ProvRelease(p.rid, p.pl, p.host))
  }

  function PlanProvCreated(s: State, p: Proc, c: Choice): Effect {
    if !p.ProvCreated? then Stays
    else if !c.ok || p.vm.uid in s.db.vms then Moves(ProvOrphan(p.rid, p.spec, p.pl, p.vm))
    else Inserts(ProvRecorded(p.rid, p.spec, p.pl, p.vm), p.vm)
  }

  /** The reservation goes once the row stands in for it; a failed release is not retried. */
  function PlanProvRecorded(s: State, p: Proc, c: Choice): Effect {
    if !p.ProvRecorded? then Stays
    else
      var q := ProvWaiting(p.rid, p.spec, p.vm);
      if !c.ok then Overstays(q, p.pl) else Frees(q, p.pl)
  }

  function PlanProvWaiting(s: State, p: Proc, c: Choice): Effect {
    if !p.ProvWaiting? then Stays
    else
      Moves(if c.ok then ProvMarkHook(p.rid, p.spec, p.vm) else ProvFail(p.rid, p.spec, p.vm))
  }

  function PlanProvMarkHook(s: State, p: Proc, c: Choice): Effect {
    if !p.ProvMarkHook? then Stays
    else
      var v := p.vm.(phase := CreateHookRunning);
      if !c.ok || !CanUpdateVm(s.db, v) then Moves(ProvFail(p.rid, p.spec, v))
      else Puts(ProvHooks(p.rid, p.spec, v), v)
  }

  function PlanProvHooks(s: State, p: Proc, c: Choice): Effect {
    if !p.ProvHooks? then Stays
    else
      Moves(if c.ok then ProvMarkAvailable(p.rid, p.spec, p.vm) else ProvFail(p.rid, p.spec, p.vm))
  }

  function PlanProvMarkAvailable(s: State, p: Proc, c: Choice): Effect {
    if !p.ProvMarkAvailable? then Stays
    else
      var v := p.vm.(phase := Available);
      if !c.ok || !CanUpdateVm(s.db, v) then Moves(ProvFail(p.rid, p.spec, v))
      else Puts(ProvOk(v.uid), v)
  }

  /** Provisioner.applyHookFailurePolicy: a VM deleted meanwhile is left to its deleter; an
      unanswered read goes on to the policy. */
  function PlanProvFail(s: State, p: Proc, c: Choice): Effect {
    if !p.ProvFail? then Stays
    else if c.ok && (p.vm.uid !in s.db.vms || s.db.vms[p.vm.uid].phase.Deleting?) then Moves(ProvFailed)
    else Moves(Failing(ByProvision(p.rid), p.spec.policy, p.vm))
  }

  /** deleteOrphan: record the microVM as DELETING, then delete it. */
  function PlanProvOrphan(s: State, p: Proc, c: Choice): Effect {
    if !p.ProvOrphan? then Stays
    else
      var v := p.vm.(phase := Deleting);
      if !c.ok || v.uid in s.db.vms then Moves(Asking(OrphanJob(p.rid, p.pl, false), v))
      else Inserts(Asking(OrphanJob(p.rid, p.pl, true), v), v)
  }

  function PlanProvRelease(s: State, p: Proc, c: Choice): Effect {
    if !p.ProvRelease? then Stays
    else if !c.ok then Overstays(ProvFailed, p.pl) else Frees(ProvFailed, p.pl)
  }

  // ---- plans: CreatePool, UpdatePool, DeletePool ----

  function PlanPoolStart(s: State, p: Proc): Effect {
    if !p.PoolStart? then Stays
    else if p.spec.key in s.locks then Stays else Locks(PoolLocked(p.create, p.spec), p.spec.key)
  }

  /** checkFlintlockHosts, with the read lock on host references taken just before. */
  function PlanPoolLocked(s: State, p: Proc, c: Choice): Effect {
    if !p.PoolLocked? then Stays
    else if c.ok && p.spec.hosts <= s.db.hosts.Keys then Reads(PoolChecked(p.create, p.spec))
    else Unlocks(p.spec.key)
  }

  function PlanPoolChecked(s: State, p: Proc, c: Choice): Effect {
    if !p.PoolChecked? then Stays
    else if c.ok && (p.create <==> p.spec.key !in s.db.pools) then Moves(PoolWriting(p.create, p.spec))
    else Unlocks(p.spec.key)
  }

  function PlanPoolWriting(s: State, p: Proc, c: Choice): Effect {
    if !p.PoolWriting? then Stays
    else if !c.ok || (p.create <==> p.spec.key in s.db.pools) then Unlocks(p.spec.key)
    else WritesPool(if p.create then PoolStarting(p.spec) else PoolStopping(p.spec), p.spec)
  }

  function PlanPoolStopping(s: State, p: Proc): Effect {
    if !p.PoolStopping? then Stays
    else
      Forgets(PoolStarting(p.spec), p.spec.key)
  }

  /** StartReconciler, refused if the pool has a handle or (ok false) the manager is stopping;
      then the call returns. */
  function PlanStart(s: State, spec: PoolSpec, c: Choice): Effect {
    if !c.ok || spec.key in s.mgr.handles then Unlocks(spec.key)
    else if c.pick in s.mgr.recons then Stays
    else Starts(c.pick, spec)
  }

  function PlanDelStart(s: State, p: Proc): Effect {
    if !p.DelStart? then Stays
    else if p.key in s.locks then Stays else Locks(DelLocked(p.key, p.force), p.key)
  }

  function PlanDelLocked(s: State, p: Proc, c: Choice): Effect {
    if !p.DelLocked? then Stays
    else if !c.ok || p.key !in s.db.pools then Unlocks(p.key)
    else Moves(DelFound(p.key, p.force, s.db.pools[p.key]))
  }

  function PlanDelFound(s: State, p: Proc, c: Choice): Effect {
    if !p.DelFound? then Stays
    else if !p.force && (!c.ok || PoolHasLeasedVms(s.db, p.key)) then Unlocks(p.key)
    else Moves(DelStopping(p.key, p.force, p.spec))
  }

  function PlanDelStopping(s: State, p: Proc): Effect {
    if !p.DelStopping? then Stays
    else
      Forgets(DelStopped(p.key, p.force, p.spec), p.key)
  }

  function PlanDelStopped(s: State, p: Proc): Effect {
    if !p.DelStopped? then Stays
    else
      Moves(DelWaiting(p.key, p.force, p.spec, ExitingOf(s.mgr, p.key)))
  }

  /** One receive from a done channel (the reconciler c picks), or the caller gave up. */
  function PlanDelWaiting(s: State, p: Proc, c: Choice): Effect {
    if !p.DelWaiting? then Stays
    else if p.rest == {} then Moves(DelReady(p.key, p.force, p.spec))
    else if !c.ok then Moves(DelRestart(p.key, p.spec))
    else if c.pick in p.rest && !Alive(s.mgr, c.pick) then
      Moves(DelWaiting(p.key, p.force, p.spec, p.rest - {c.pick}))
    else Stays
  }

  function PlanDelReady(s: State, p: Proc, c: Choice): Effect {
    if !p.DelReady? then Stays
    else if c.ok && p.key !in s.db.pools then Unlocks(p.key)
    else if !c.ok || !CanDeletePool(s.db, p.key, p.force) then Moves(DelRestart(p.key, p.spec))
    else RemovesPool(DelEvents(p.key, VmsOfPool(s.db, p.key).Keys), p.key)
  }

  /** VM_DELETED_ON_POOL_DELETE for each listed VM (the one c picks next), then the call returns.
      Its deletes are Sweep actions without bookkeeping. */
  function PlanDelEvents(s: State, p: Proc, c: Choice): Effect {
    if !p.DelEvents? then Stays
    else if p.owed == {} then Unlocks(p.key)
    else if c.pick !in p.owed then Stays
    else
      var q := DelEvents(p.key, p.owed - {c.pick});
      if !c.ok then Moves(q) else Records(q, Event(p.key, c.pick, VmDeletedOnPoolDelete))
  }

  // ---- one step of a call ----

  predicate InClaimFirst(p: Proc) {
    p.ClaimStart? || p.ClaimLookup? || p.ClaimPick? || p.ClaimHooking? || p.ClaimRunning?
  }

  /** ClaimVM up to its pre-lease hooks. */
  function ClaimFirstPlan(s: State, p: Proc, c: Choice): Effect {
    match p
    case ClaimStart(_, _) => PlanClaimStart(s, p, c)
    case ClaimLookup(_, _, _) => PlanClaimLookup(s, p, c)
    case ClaimPick(_, _, _) => PlanClaimPick(s, p, c)
    case ClaimHooking(_, _, _, _) => PlanClaimHooking(s, p, c)
    case ClaimRunning(_, _, _, _) => PlanClaimRunning(s, p, c)
    case _ => Stays
  }

  predicate InClaimLast(p: Proc) {
    p.ClaimLeasing? || p.ClaimYielding? || p.ClaimYielded? || p.ClaimReplay?
  }

  /** LeaseVM and the replies of ClaimVM. */
  function ClaimLastPlan(s: State, p: Proc, c: Choice): Effect {
    match p
    case ClaimLeasing(_, _, _, _) => PlanClaimLeasing(s, p, c)
    case ClaimYielding(_, _, _, _) => PlanClaimYielding(s, p, c)
    case ClaimYielded(_, _, _) => PlanClaimYielded(s, p, c)
    case ClaimReplay(_, _, _) => PlanClaimReplay(s, p, c)
    case _ => Stays
  }

  predicate InDelete(p: Proc) {
    p.Failing? || p.Asking? || p.Dropping?
  }

  /** The hook failure policy and EnsureVMDeleted. */
  function DeletePlan(s: State, p: Proc, c: Choice): Effect {
    match p
    case Failing(_, _, _) => PlanFailing(s, p, c)
    case Asking(_, _) => PlanAsking(s, p, c)
    case Dropping(_, _) => PlanDropping(s, p, c)
    case _ => Stays
  }

  predicate InRelease(p: Proc) {
    p.ReleaseStart? || p.ReleaseGot? || p.ReleaseMarking? || p.ReleaseLookup? || p.ReleaseDropping?
  }

  /** ReleaseVM. */
  function ReleasePlan(s: State, p: Proc, c: Choice): Effect {
    match p
    case ReleaseStart(_) => PlanReleaseStart(s, p, c)
    case ReleaseGot(_) => PlanReleaseGot(s, p, c)
    case ReleaseMarking(_, _) => PlanReleaseMarking(s, p, c)
    case ReleaseLookup(_) => PlanReleaseLookup(s, p, c)
    case ReleaseDropping(_) => PlanReleaseDropping(s, p, c)
    case _ => Stays
  }

  predicate InClosing(p: Proc) {
    p.Closing? || p.ClosingEvent? || p.Swept? || p.Finishing?
  }

  /** FinishVMRelease and FinishVMDeletion. */
  function ClosingPlan(s: State, p: Proc, c: Choice): Effect {
    match p
    case Closing(_) => PlanClosing(s, p, c)
    case ClosingEvent(_) => PlanClosingEvent(s, p, c)
    case Swept(_) => PlanSwept(s, p, c)
    case Finishing(_) => PlanFinishing(s, p, c)
    case _ => Stays
  }

  predicate InBeat(p: Proc) {
    p.BeatStart? || p.BeatGot? || p.BeatWriting?
  }

  /** Heartbeat. */
  function BeatPlan(s: State, p: Proc, c: Choice): Effect {
    match p
    case BeatStart(_) => PlanBeatStart(s, p, c)
    case BeatGot(_) => PlanBeatGot(s, p, c)
    case BeatWriting(_, _) => PlanBeatWriting(s, p, c)
    case _ => Stays
  }

  predicate InExpiry(p: Proc) {
    p.ExpiryStart? || p.ExpiryTaken? || p.ExpiryRead? || p.ExpiryMarking?
  }

  /** beginExpiry. */
  function ExpiryPlan(s: State, p: Proc, c: Choice): Effect {
    match p
    case ExpiryStart(_, _) => PlanExpiryStart(s, p, c)
    case ExpiryTaken(_) => PlanExpiryTaken(s, p, c)
    case ExpiryRead(_, _) => PlanExpiryRead(s, p, c)
    case ExpiryMarking(_, _) => PlanExpiryMarking(s, p, c)
    case _ => Stays
  }

  predicate InCreate(p: Proc) {
    p.ProvStart? || p.ProvReserved? || p.ProvCreated? || p.ProvRecorded?
  }

  /** Provision until its row is written. */
  function CreatePlan(s: State, p: Proc, c: Choice): Effect {
    match p
    case ProvStart(_, _) => PlanProvStart(s, p, c)
    case ProvReserved(_, _, _, _) => PlanProvReserved(s, p, c)
    case ProvCreated(_, _, _, _) => PlanProvCreated(s, p, c)
    case ProvRecorded(_, _, _, _) => PlanProvRecorded(s, p, c)
    case _ => Stays
  }

  predicate InBoot(p: Proc) {
    p.ProvWaiting? || p.ProvMarkHook? || p.ProvHooks? || p.ProvMarkAvailable?
  }

  /** Provision until AVAILABLE. */
  function BootPlan(s: State, p: Proc, c: Choice): Effect {
    match p
    case ProvWaiting(_, _, _) => PlanProvWaiting(s, p, c)
    case ProvMarkHook(_, _, _) => PlanProvMarkHook(s, p, c)
    case ProvHooks(_, _, _) => PlanProvHooks(s, p, c)
    case ProvMarkAvailable(_, _, _) => PlanProvMarkAvailable(s, p, c)
    case _ => Stays
  }

  predicate InUndo(p: Proc) {
    p.ProvFail? || p.ProvOrphan? || p.ProvRelease?
  }

  /** Provision when something failed. */
  function UndoPlan(s: State, p: Proc, c: Choice): Effect {
    match p
    case ProvFail(_, _, _) => PlanProvFail(s, p, c)
    case ProvOrphan(_, _, _, _) => PlanProvOrphan(s, p, c)
    case ProvRelease(_, _, _) => PlanProvRelease(s, p, c)
    case _ => Stays
  }

  predicate InPoolWrite(p: Proc) {
    p.PoolStart? || p.PoolLocked? || p.PoolChecked? || p.PoolWriting?
  }

  /** CreatePool and UpdatePool, up to the write. */
  function PoolWritePlan(s: State, p: Proc, c: Choice): Effect {
    match p
    case PoolStart(_, _) => PlanPoolStart(s, p)
    case PoolLocked(_, _) => PlanPoolLocked(s, p, c)
    case PoolChecked(_, _) => PlanPoolChecked(s, p, c)
    case PoolWriting(_, _) => PlanPoolWriting(s, p, c)
    case _ => Stays
  }

  predicate InPoolRestart(p: Proc) {
    p.PoolStopping? || p.PoolStarting? || p.DelRestart?
  }

  /** Reconcilers stopped and started. */
  function PoolRestartPlan(s: State, p: Proc, c: Choice): Effect {
    match p
    case PoolStopping(_) => PlanPoolStopping(s, p)
    case PoolStarting(spec) => PlanStart(s, spec, c)
    case DelRestart(_, spec) => PlanStart(s, spec, c)
    case _ => Stays
  }

  predicate InDelStop(p: Proc) {
    p.DelStart? || p.DelLocked? || p.DelFound? || p.DelStopping?
  }

  /** DeletePool until the reconciler is told to stop. */
  function DelStopPlan(s: State, p: Proc, c: Choice): Effect {
    match p
    case DelStart(_, _) => PlanDelStart(s, p)
    case DelLocked(_, _) => PlanDelLocked(s, p, c)
    case DelFound(_, _, _) => PlanDelFound(s, p, c)
    case DelStopping(_, _, _) => PlanDelStopping(s, p)
    case _ => Stays
  }

  predicate InDelWait(p: Proc) {
    p.DelStopped? || p.DelWaiting? || p.DelReady? || p.DelEvents?
  }

  /** DeletePool from there. */
  function DelWaitPlan(s: State, p: Proc, c: Choice): Effect {
    match p
    case DelStopped(_, _, _) => PlanDelStopped(s, p)
    case DelWaiting(_, _, _, _) => PlanDelWaiting(s, p, c)
    case DelReady(_, _, _) => PlanDelReady(s, p, c)
    case DelEvents(_, _) => PlanDelEvents(s, p, c)
    case _ => Stays
  }

  predicate ClaimsOrDeletes(p: Proc) {
    InClaimFirst(p) || InClaimLast(p) || InDelete(p)
  }

  function ClaimSidePlan(s: State, p: Proc, c: Choice): Effect {
    if InClaimFirst(p) then ClaimFirstPlan(s, p, c)
    else if InClaimLast(p) then ClaimLastPlan(s, p, c)
    else DeletePlan(s, p, c)
  }

  predicate EndsLeases(p: Proc) {
    InRelease(p) || InClosing(p) || InBeat(p) || InExpiry(p)
  }

  function LeaseSidePlan(s: State, p: Proc, c: Choice): Effect {
    if InRelease(p) then ReleasePlan(s, p, c)
    else if InClosing(p) then ClosingPlan(s, p, c)
    else if InBeat(p) then BeatPlan(s, p, c)
    else ExpiryPlan(s, p, c)
  }

  predicate Provisions(p: Proc) {
    InCreate(p) || InBoot(p) || InUndo(p)
  }

  function BuildSidePlan(s: State, p: Proc, c: Choice): Effect {
    if InCreate(p) then CreatePlan(s, p, c)
    else if InBoot(p) then BootPlan(s, p, c)
    else UndoPlan(s, p, c)
  }

  function PoolSidePlan(s: State, p: Proc, c: Choice): Effect {
    if InPoolWrite(p) then PoolWritePlan(s, p, c)
    else if InPoolRestart(p) then PoolRestartPlan(s, p, c)
    else if InDelStop(p) then DelStopPlan(s, p, c)
    else if InDelWait(p) then DelWaitPlan(s, p, c)
    else Stays
  }

  /** What a call at p does next. */
  function Plan(s: State, p: Proc, c: Choice): Effect {
    if ClaimsOrDeletes(p) then ClaimSidePlan(s, p, c)
    else if EndsLeases(p) then LeaseSidePlan(s, p, c)
    else if Provisions(p) then BuildSidePlan(s, p, c)
    else PoolSidePlan(s, p, c)
  }

  // ---- which plan that is ----

  lemma DeletePlanIs(s: State, p: Proc, c: Choice)
    requires InDelete(p)
    ensures Plan(s, p, c) == DeletePlan(s, p, c)
  {
    hide DeletePlan, ClaimFirstPlan, ClaimLastPlan, LeaseSidePlan, BuildSidePlan, PoolSidePlan;
  }

  lemma ReleasePlanIs(s: State, p: Proc, c: Choice)
    requires InRelease(p) || InClosing(p)
    ensures Plan(s, p, c) == if InRelease(p) then ReleasePlan(s, p, c) else ClosingPlan(s, p, c)
  {
    hide ClaimSidePlan, ReleasePlan, ClosingPlan, BeatPlan, ExpiryPlan, BuildSidePlan, PoolSidePlan;
  }

  lemma BuildPlanIs(s: State, p: Proc, c: Choice)
    requires Provisions(p)
    ensures Plan(s, p, c) == BuildSidePlan(s, p, c)
  {
    hide ClaimSidePlan, LeaseSidePlan, BuildSidePlan, PoolSidePlan;
  }

  lemma PoolPlanIs(s: State, p: Proc, c: Choice)
    requires InPoolWrite(p) || InPoolRestart(p)
    ensures Plan(s, p, c) == if InPoolWrite(p) then PoolWritePlan(s, p, c) else PoolRestartPlan(s, p, c)
  {
    hide ClaimSidePlan, LeaseSidePlan, BuildSidePlan, PoolWritePlan, PoolRestartPlan, DelStopPlan, DelWaitPlan;
  }

  /** A call that has returned does nothing more. */
  lemma EndedStays(s: State, p: Proc, c: Choice)
    requires p.ClaimFailed? || p.ProvOk? || p.ProvFailed? || p.ReleaseOk? || p.Done?
    ensures Plan(s, p, c) == Stays
  {
    hide ClaimSidePlan, LeaseSidePlan, BuildSidePlan, PoolWritePlan, PoolRestartPlan, DelStopPlan, DelWaitPlan;
  }

  function Step(s: State, i: Pid, c: Choice): State {
    if i in s.procs then Apply(s, i, Plan(s, s.procs[i], c)) else s
  }

  predicate Busy(s: State, r: Rid) {
    exists i :: i in s.procs && Boss(s.procs[i]) == Some(r)
  }

  function LeaseIdsOf(db: Db, k: PoolKey): set<LeaseId> {
    set l | l in db.leases && db.leases[l].pool == k
  }

  /** CountVMs' second read, the strategy, and the static-network check of provisionN. */
  function PlanLoop(s: State, spec: PoolSpec, hook: Hook, vms: map<Uid, Vm>): Loop {
    var n := Desired(spec, hook, Counts(vms, LeaseIdsOf(s.db, spec.key)));
    if n > 0 && spec.staticNetwork then Capping else Spawning(n)
  }

  /** A crash at any moment, and the recovery that runs before anything is served again. */
  function RestartState(s: State): State {
    s.(db := Recover(s.db),
       mgr := Mgr(map[], map[], map r | r in s.mgr.recons :: s.mgr.recons[r].(done := true)),
       leaked := s.leaked + (set u | u in s.live && u !in s.db.vms),
       stranded := {},
       unreleased := {},
       locks := map[],
       readers := {},
       procs := map i | i in s.procs :: Done)
  }

  // ---- actions: one that is not enabled changes nothing ----

  function StartCall(s: State, i: Pid, p: Proc): State {
    if i !in s.procs && IsEntry(p) then To(s, i, p) else s
  }

  /** The Sweeper, a drain or DeletePool takes up a DELETING row as it read it. */
  function StartSweep(s: State, i: Pid, u: Uid, finish: bool): State {
    if i !in s.procs && u in s.db.vms && s.db.vms[u].phase.Deleting?
    then To(s, i, Asking(SweepJob(finish), s.db.vms[u])) else s
  }

  function CordonHost(db: Db, h: HostName, cordoned: bool, reason: Option<string>, now: Time): Db {
    if h in db.hosts then PutHost(db, h, Cordon(db.hosts[h], cordoned, reason, now)) else db
  }

  function StartDrain(db: Db, h: HostName, reason: Option<string>, now: Time): Db {
    if h in db.hosts then DrainHost(db, h, reason, now) else db
  }

  function RegisterHost(db: Db, h: HostName): Db {
    if h !in db.hosts then PutHost(db, h, Host(false, None, None, false, None)) else db
  }

  /** RemoveHost holds the write lock on host references, so no pool write is between its check
      and its write. */
  function UnregisterHost(s: State, h: HostName): Db {
    if s.readers == {} && CanDeleteHost(s.db, h) then DropHost(s.db, h) else s.db
  }

  /** Any other event the handlers emit. */
  function NoteEvent(db: Db, e: Event): Db {
    if e.kind.VmDeletedOnRelease? || e.kind.VmDeletedOnPoolDelete? then db else Emit(db, e)
  }

  /** Manager.Run starts a reconciler for a stored pool that has none. */
  function SeedPool(s: State, k: PoolKey, r: Rid): Mgr {
    if k in s.db.pools && k !in s.locks && k !in s.mgr.handles && r !in s.mgr.recons
    then StartRecon(s.mgr, r, s.db.pools[k]) else s.mgr
  }

  /** CountVMs' first read, on the trigger of a hook. */
  function ListRows(s: State, r: Rid, hook: Hook): Mgr {
    if Alive(s.mgr, r) && s.mgr.recons[r].loop.Idle?
    then SetLoop(s.mgr, r, Listed(hook, VmsOfPool(s.db, s.mgr.recons[r].spec.key))) else s.mgr
  }

  /** Its second read, and the decision. */
  function CountRows(s: State, r: Rid): Mgr {
    if Alive(s.mgr, r) && s.mgr.recons[r].loop.Listed? then
      var g := s.mgr.recons[r];
      SetLoop(s.mgr, r, PlanLoop(s, g.spec, g.loop.hook, g.loop.vms))
    else s.mgr
  }

  /** capForStaticNetwork: at most one, and only if the pool has no row at all. */
  function CapStatic(s: State, r: Rid): Mgr {
    if Alive(s.mgr, r) && s.mgr.recons[r].loop.Capping? then
      SetLoop(s.mgr, r, if VmsOfPool(s.db, s.mgr.recons[r].spec.key) == map[] then Spawning(1) else Idle)
    else s.mgr
  }

  predicate CanSpawn(s: State, r: Rid, i: Pid) {
    Alive(s.mgr, r) && s.mgr.recons[r].loop.Spawning? && s.mgr.recons[r].loop.n > 0 && i !in s.procs
  }

  function SpawnProvision(s: State, r: Rid, i: Pid): State {
    if CanSpawn(s, r, i) then
      s.(mgr := SetLoop(s.mgr, r, Spawning(s.mgr.recons[r].loop.n - 1)),
         procs := s.procs[i := ProvStart(r, s.mgr.recons[r].spec)])
    else s
  }

  /** provisionN has waited for every Provision it started. */
  function RestLoop(s: State, r: Rid): Mgr {
    if Alive(s.mgr, r) && !s.mgr.recons[r].loop.Idle? && !Busy(s, r)
       && (s.mgr.recons[r].loop.Spawning? ==> s.mgr.recons[r].loop.n <= 0)
    then SetLoop(s.mgr, r, Idle) else s.mgr
  }

  /** The goroutine returns: its done channel closes, and later it leaves the exiting list. */
  function ExitLoop(s: State, r: Rid): Mgr {
    if Alive(s.mgr, r) && s.mgr.recons[r].loop.Idle? && !Busy(s, r) then Finished(s.mgr, r) else s.mgr
  }

  function LeaveLoop(m: Mgr, r: Rid): Mgr {
    if r in m.recons && m.recons[r].done then Leave(m, r) else m
  }

  function Next(s: State, a: Action): State {
    match a
    case Call(i, p) => StartCall(s, i, p)
    case Advance(i, c) => Step(s, i, c)
    case Sweep(i, u, finish) => StartSweep(s, i, u, finish)
    case SetCordoned(h, cordoned, reason, now) => s.(db := CordonHost(s.db, h, cordoned, reason, now))
    case Drain(h, reason, now) => s.(db := StartDrain(s.db, h, reason, now))
    case MarkDraining => s.(db := MarkUnleased(s.db, DrainingHosts(s.db)))
    case AddHost(h) => s.(db := RegisterHost(s.db, h))
    case RemoveHost(h) => s.(db := UnregisterHost(s, h))
    case Note(e) => s.(db := NoteEvent(s.db, e))
    case Seed(k, r) => s.(mgr := SeedPool(s, k, r))
    case ReconList(r, hook) => s.(mgr := ListRows(s, r, hook))
    case ReconCount(r) => s.(mgr := CountRows(s, r))
    case ReconCap(r) => s.(mgr := CapStatic(s, r))
    case ReconSpawn(r, i) => SpawnProvision(s, r, i)
    case ReconRest(r) => s.(mgr := RestLoop(s, r))
    case ReconExit(r) => s.(mgr := ExitLoop(s, r))
    case ReconLeave(r) => s.(mgr := LeaveLoop(s.mgr, r))
    case Restart => RestartState(s)
  }

  // ---- each action, taken ----

  lemma NextCall(s: State, i: Pid, p: Proc)
    ensures Next(s, Call(i, p)) == StartCall(s, i, p)
  {}

  lemma NextAdvance(s: State, i: Pid, c: Choice)
    ensures Next(s, Advance(i, c)) == if i in s.procs then Step(s, i, c) else s
  {}

  lemma NextSweep(s: State, i: Pid, u: Uid, finish: bool)
    ensures Next(s, Sweep(i, u, finish)) == StartSweep(s, i, u, finish)
  {}

  lemma NextSetCordoned(s: State, h: HostName, cordoned: bool, reason: Option<string>, now: Time)
    ensures Next(s, SetCordoned(h, cordoned, reason, now)) == s.(db := CordonHost(s.db, h, cordoned, reason, now))
  {}

  lemma NextDrain(s: State, h: HostName, reason: Option<string>, now: Time)
    ensures Next(s, Drain(h, reason, now)) == s.(db := StartDrain(s.db, h, reason, now))
  {}

  lemma NextMarkDraining(s: State)
    ensures Next(s, MarkDraining) == s.(db := MarkUnleased(s.db, DrainingHosts(s.db)))
  {}

  lemma NextAddHost(s: State, h: HostName)
    ensures Next(s, AddHost(h)) == s.(db := RegisterHost(s.db, h))
  {}

  lemma NextRemoveHost(s: State, h: HostName)
    ensures Next(s, RemoveHost(h)) == s.(db := UnregisterHost(s, h))
  {}

  lemma NextNote(s: State, e: Event)
    ensures Next(s, Note(e)) == s.(db := NoteEvent(s.db, e))
  {}

  lemma NextSeed(s: State, k: PoolKey, r: Rid)
    ensures Next(s, Seed(k, r)) == s.(mgr := SeedPool(s, k, r))
  {}

  lemma NextReconList(s: State, r: Rid, hook: Hook)
    ensures Next(s, ReconList(r, hook)) == s.(mgr := ListRows(s, r, hook))
  {}

  lemma NextReconCount(s: State, r: Rid)
    ensures Next(s, ReconCount(r)) == s.(mgr := CountRows(s, r))
  {}

  lemma NextReconCap(s: State, r: Rid)
    ensures Next(s, ReconCap(r)) == s.(mgr := CapStatic(s, r))
  {}

  lemma NextReconSpawn(s: State, r: Rid, i: Pid)
    ensures Next(s, ReconSpawn(r, i)) == SpawnProvision(s, r, i)
  {}

  lemma NextReconRest(s: State, r: Rid)
    ensures Next(s, ReconRest(r)) == s.(mgr := RestLoop(s, r))
  {}

  lemma NextReconExit(s: State, r: Rid)
    ensures Next(s, ReconExit(r)) == s.(mgr := ExitLoop(s, r))
  {}

  lemma NextReconLeave(s: State, r: Rid)
    ensures Next(s, ReconLeave(r)) == s.(mgr := LeaveLoop(s.mgr, r))
  {}

  lemma NextRestart(s: State)
    ensures Next(s, Restart) == RestartState(s)
  {}

  /** The state after a schedule of actions. */
  function Run(s: State, actions: seq<Action>): State
    decreases |actions|
  {
    if actions == [] then s else Run(Next(s, actions[0]), actions[1..])
  }

  lemma RunNone(s: State)
    ensures Run(s, []) == s
  {
    hide Next;
  }

  lemma RunFirst(s: State, actions: seq<Action>)
    requires actions != []
    ensures Run(s, actions) == Run(Next(s, actions[0]), actions[1..])
  {
    hide Next;
  }

  lemma {:induction false} RunLast(s: State, actions: seq<Action>)
    requires actions != []
    ensures Run(s, actions) == Next(Run(s, actions[..|actions| - 1]), actions[|actions| - 1])
    decreases |actions|
  {
    hide Next, Run;
    RunFirst(s, actions);
    if |actions| == 1 {
      RunNone(s);
      RunNone(Next(s, actions[0]));
      assert actions[1..] == [] && actions[..0] == [];
    } else {
      var rest := actions[1..];
      var most := actions[..|actions| - 1];
      RunLast(Next(s, actions[0]), rest);
      RunFirst(s, most);
      assert rest[..|rest| - 1] == most[1..] && rest[|rest| - 1] == actions[|actions| - 1];
    }
  }
}
