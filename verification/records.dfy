/** The rows and records of the pool manager. Identifiers are only ever compared for
    equality (and, in listings, for order), so they are integers here. */
module Records {
  type Name = int
  type Uid = int
  type LeaseId = int
  type RequestId = int
  type HostName = int
  type PlacementId = int
  type Time = int

  datatype Option<+T> = None | Some(value: T)

  datatype PoolKey = PoolKey(name: Name, namespace: Name)

  datatype Phase =
    | Provisioning
    | CreateHookRunning
    | Available
    | Leased
    | PreLeaseHookRunning
    | Deleting
    | Quarantined
    | Failed

  /** A row of the vms table, and the in-memory record a handler holds of it. */
  datatype Vm = Vm(uid: Uid, pool: PoolKey, host: HostName, phase: Phase, leaseId: Option<LeaseId>)

  /** A row of the leases table; an empty request id is stored as NULL. */
  datatype Lease = Lease(
    id: LeaseId, vm: Uid, pool: PoolKey,
    claimedAt: Time, heartbeatAt: Time, expiresAt: Time, request: Option<RequestId>)

  datatype Host = Host(
    cordoned: bool, reason: Option<string>, cordonedAt: Option<Time>,
    draining: bool, drainingAt: Option<Time>)

  datatype Placement = Placement(host: HostName, pool: PoolKey)

  datatype Strategy = ImmediateOnLease | MinSizeThreshold(minSize: int) | ReplaceOnDelete

  datatype Policy = DeleteAndReplace | Quarantine

  datatype PoolSpec = PoolSpec(
    key: PoolKey, size: int, hosts: set<HostName>, strategy: Strategy, policy: Policy,
    staticNetwork: bool, expiryThreshold: int)

  datatype EventKind =
    | VmProvisioned | VmAvailable | VmClaimed | VmExpiringSoon | VmHookFailed
    | VmDeletedDueToExpiry | VmDeletedOnRelease | VmDeletedOnPoolDelete | VmDeletedOnHostDrain

  datatype Event = Event(pool: PoolKey, vm: Uid, kind: EventKind)
}
