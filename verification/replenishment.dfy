/** How many VMs a pool's reconciler asks for: the phase counts and the three strategies. */
module Replenishment {
  import opened Records

  datatype VmCounts = VmCounts(available: nat, claiming: nat, leased: nat, provisioning: nat, quarantined: nat)

  datatype Hook = OnTick | OnVmClaimed | OnVmDeleted

  /** A LEASED row counts as leased only if the lease it carries was listed. */
  predicate IsCommitted(v: Vm, committed: set<LeaseId>) {
    v.leaseId.Some? && v.leaseId.value in committed
  }

  predicate CountsAsClaiming(v: Vm, committed: set<LeaseId>) {
    v.phase.PreLeaseHookRunning? || (v.phase.Leased? && !IsCommitted(v, committed))
  }

  predicate CountsAsLeased(v: Vm, committed: set<LeaseId>) {
    v.phase.Leased? && IsCommitted(v, committed)
  }

  predicate CountsAsProvisioning(v: Vm) {
    v.phase.Provisioning? || v.phase.CreateHookRunning?
  }

  function Counts(vms: map<Uid, Vm>, committed: set<LeaseId>): VmCounts {
    VmCounts(
      |set u | u in vms && vms[u].phase.Available?|,
      |set u | u in vms && CountsAsClaiming(vms[u], committed)|,
      |set u | u in vms && CountsAsLeased(vms[u], committed)|,
      |set u | u in vms && CountsAsProvisioning(vms[u])|,
      |set u | u in vms && vms[u].phase.Quarantined?|)
  }

  function Max(a: int, b: int): int {
    if a < b then b else a
  }

  /** The Strategy hook the reconciler evaluates for each trigger. */
  function Desired(spec: PoolSpec, hook: Hook, c: VmCounts): int {
    match spec.strategy
    case ImmediateOnLease =>
      if hook.OnVmDeleted? then 0
      else Max(0, spec.size - (c.available + c.claiming + c.provisioning))
    case MinSizeThreshold(minSize) =>
      if !hook.OnTick? || c.available >= minSize then 0
      else Max(0, spec.size - (c.available + c.claiming + c.leased + c.provisioning))
    case ReplaceOnDelete =>
      if hook.OnVmClaimed? then 0
      else Max(0, spec.size - (c.available + c.claiming + c.leased + c.provisioning))
  }
}
