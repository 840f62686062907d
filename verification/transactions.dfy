/** The tables, and every store transaction as a function on them. */
module Transactions {
  import opened Records

  datatype Db = Db(
    pools: map<PoolKey, PoolSpec>,
    vms: map<Uid, Vm>,
    leases: map<LeaseId, Lease>,
    hosts: map<HostName, Host>,
    placements: map<PlacementId, Placement>,
    events: seq<Event>)

  // ---- vms ----

  predicate HasLeasedPhase(v: Vm) {
    v.phase.Leased? || v.phase.PreLeaseHookRunning?
  }

  /** The WHERE clause of updateVM: the row exists, and a DELETING row only matches a write
      that keeps it DELETING. */
  predicate CanUpdateVm(db: Db, v: Vm) {
    v.uid in db.vms && (db.vms[v.uid].phase.Deleting? ==> v.phase.Deleting?)
  }

  function PutVm(db: Db, v: Vm): Db {
    db.(vms := db.vms[v.uid := v])
  }

  function DropVm(db: Db, u: Uid): Db {
    db.(vms := db.vms - {u})
  }

  predicate CanClaim(db: Db, pool: PoolKey, u: Uid) {
    u in db.vms && db.vms[u].pool == pool && db.vms[u].phase.Available?
  }

  function Condemn(v: Vm): Vm {
    v.(phase := Deleting, leaseId := None)
  }

  function VmsOfPool(db: Db, pool: PoolKey): map<Uid, Vm> {
    map u | u in db.vms && db.vms[u].pool == pool :: db.vms[u]
  }

  function VmsInPhase(db: Db, phase: Phase): map<Uid, Vm> {
    map u | u in db.vms && db.vms[u].phase == phase :: db.vms[u]
  }

  // ---- leases ----

  predicate RequestTaken(db: Db, request: Option<RequestId>) {
    request.Some? && exists l :: l in db.leases && db.leases[l].request == request
  }

  predicate CanInsertLease(db: Db, l: Lease) {
    l.id !in db.leases && !RequestTaken(db, l.request)
  }

  function PutLease(db: Db, l: Lease): Db {
    db.(leases := db.leases[l.id := l])
  }

  function DropLease(db: Db, l: LeaseId): Db {
    db.(leases := db.leases - {l})
  }

  function Renewed(l: Lease, at: Time, expiresAt: Time): Lease {
    l.(heartbeatAt := at, expiresAt := expiresAt)
  }

  predicate IsExpired(db: Db, l: LeaseId, now: Time) {
    l in db.leases && db.leases[l].expiresAt <= now
  }

  function LeasesExpiredBy(db: Db, now: Time): map<LeaseId, Lease> {
    map l | l in db.leases && db.leases[l].expiresAt <= now :: db.leases[l]
  }

  // ---- pools ----

  predicate PoolHasLeasedVms(db: Db, pool: PoolKey) {
    exists u :: u in db.vms && db.vms[u].pool == pool && HasLeasedPhase(db.vms[u])
  }

  predicate CanDeletePool(db: Db, pool: PoolKey, force: bool) {
    pool in db.pools && (force || !PoolHasLeasedVms(db, pool))
  }

  /** DeletePoolAndMarkVMs once its checks have passed. */
  function DeletePool(db: Db, pool: PoolKey): Db {
    db.(
      pools := db.pools - {pool},
      vms := map u | u in db.vms :: if db.vms[u].pool == pool then Condemn(db.vms[u]) else db.vms[u],
      leases := map l | l in db.leases && db.leases[l].pool != pool :: db.leases[l])
  }

  function PutPool(db: Db, spec: PoolSpec): Db {
    db.(pools := db.pools[spec.key := spec])
  }

  // ---- hosts and placements ----

  predicate IsDraining(db: Db, h: HostName) {
    h in db.hosts && db.hosts[h].draining
  }

  /** What markUnleasedVMsDeleting's UPDATE matches, apart from its host condition. */
  predicate Unleased(v: Vm) {
    !v.phase.Leased? && !v.phase.PreLeaseHookRunning? && !v.phase.Deleting?
  }

  /** The rows markUnleasedVMsDeleting returns: those it matches, as it leaves them. */
  function MarkedBy(db: Db, hosts: set<HostName>): map<Uid, Vm> {
    map u | u in db.vms && db.vms[u].host in hosts && Unleased(db.vms[u]) :: Condemn(db.vms[u])
  }

  function MarkUnleased(db: Db, hosts: set<HostName>): Db {
    db.(vms := map u | u in db.vms ::
      if db.vms[u].host in hosts && Unleased(db.vms[u]) then Condemn(db.vms[u]) else db.vms[u])
  }

  function DrainingHosts(db: Db): set<HostName> {
    set h | h in db.hosts && db.hosts[h].draining
  }

  function Cordon(h: Host, cordoned: bool, reason: Option<string>, now: Time): Host {
    if cordoned then
      h.(cordoned := true, reason := reason, cordonedAt := Some(now))
    else
      Host(false, None, None, false, None)
  }

  function Drained(h: Host, reason: Option<string>, now: Time): Host {
    Host(true, if reason.Some? then reason else h.reason,
         if h.cordoned then h.cordonedAt else Some(now),
         true,
         if h.draining then h.drainingAt else Some(now))
  }

  function DrainHost(db: Db, h: HostName, reason: Option<string>, now: Time): Db
    requires h in db.hosts
  {
    MarkUnleased(db.(hosts := db.hosts[h := Drained(db.hosts[h], reason, now)]), {h})
  }

  predicate CanReserve(db: Db, id: PlacementId, h: HostName) {
    id !in db.placements && h in db.hosts && !db.hosts[h].cordoned
  }

  function Reserve(db: Db, id: PlacementId, p: Placement): Db {
    db.(placements := db.placements[id := p])
  }

  function Unreserve(db: Db, id: PlacementId): Db {
    db.(placements := db.placements - {id})
  }

  function RowsOn(db: Db, h: HostName): set<Uid> {
    set u | u in db.vms && db.vms[u].host == h
  }

  function PlacementsOn(db: Db, h: HostName): set<PlacementId> {
    set p | p in db.placements && db.placements[p].host == h
  }

  function CountVmsByHost(db: Db, h: HostName): nat {
    |RowsOn(db, h)| + |PlacementsOn(db, h)|
  }

  predicate PoolNamesHost(db: Db, h: HostName) {
    exists k :: k in db.pools && h in db.pools[k].hosts
  }

  predicate CanDeleteHost(db: Db, h: HostName) {
    h in db.hosts && !PoolNamesHost(db, h) && CountVmsByHost(db, h) == 0
  }

  function DropHost(db: Db, h: HostName): Db {
    db.(hosts := db.hosts - {h})
  }

  function PutHost(db: Db, h: HostName, row: Host): Db {
    db.(hosts := db.hosts[h := row])
  }

  // ---- events ----

  function Emit(db: Db, e: Event): Db {
    db.(events := db.events + [e])
  }

  // ---- startup recovery ----

  predicate AbandonedClaim(db: Db, v: Vm) {
    HasLeasedPhase(v) && (v.leaseId.Some? ==> v.leaseId.value !in db.leases)
  }

  predicate AbandonedProvision(v: Vm) {
    v.phase.Provisioning? || v.phase.CreateHookRunning?
  }

  /** ClearPlacements, RecoverAbandonedClaims, RecoverAbandonedProvisions: the rows they mark
      keep their lease id. */
  function Recover(db: Db): Db {
    db.(
      placements := map[],
      vms := map u | u in db.vms ::
        if AbandonedClaim(db, db.vms[u]) || AbandonedProvision(db.vms[u])
        then db.vms[u].(phase := Deleting) else db.vms[u])
  }
}
