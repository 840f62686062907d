/** Deleting a VM through flintlock, the bookkeeping after it, and the hook failure policy: run
    without interruption, with flintlock answering or not. */
module Deletions {
  import opened Records
  import opened Transactions
  import opened Stores
  import opened Sets

  class Flintlock {
    var live: map<Uid, HostName>

    constructor (running: map<Uid, HostName>)
      ensures live == running
    {
      live := running;
    }

    method CreateMicroVM(u: Uid, h: HostName)
      modifies this
      ensures live == old(live)[u := h]
    {
      live := live[u := h];
    }

    /** Answers, or NotFound: either way the microVM is gone. */
    method DeleteMicroVM(u: Uid)
      modifies this
      ensures live == old(live) - {u}
    {
      live := live - {u};
    }
  }

  lemma PutTwice(db: Db, v: Vm, w: Vm)
    requires v.uid == w.uid
    ensures PutVm(PutVm(db, v), w) == PutVm(db, w)
  {
    SameMap(db.vms[v.uid := v][w.uid := w], db.vms[w.uid := w]);
  }

  lemma PutAndDrop(db: Db, v: Vm)
    ensures DropVm(PutVm(db, v), v.uid) == DropVm(db, v.uid)
  {
    SameMap(db.vms[v.uid := v] - {v.uid}, db.vms - {v.uid});
  }

  /** The mark EnsureVMDeleted makes before it asks flintlock, unless the record says it is made. */
  function Marked(db: Db, vm: Vm): Db {
    if vm.phase.Deleting? || vm.uid !in db.vms then db else PutVm(db, vm.(phase := Deleting))
  }

  /** The row goes only once flintlock has answered; unanswered, it stays DELETING. */
  method EnsureVMDeletedCheckingPool(st: Store, flint: Flintlock, vm: Vm, answers: bool) returns (r: Result<bool>)
    requires st.Valid()
    modifies st`vms, flint
    ensures st.Valid() && (answers ==> st.vms == old(st.vms) - {vm.uid})
    ensures !answers ==>
              st.vms == if vm.phase.Deleting? || vm.uid !in old(st.vms) then old(st.vms)
                        else old(st.vms)[vm.uid := vm.(phase := Deleting)]
    ensures st.Contents() == if answers then DropVm(old(st.Contents()), vm.uid) else Marked(old(st.Contents()), vm)
    ensures r.Ok? <==> answers && vm.uid in old(st.vms)
    ensures r.Ok? ==> r.value == ((if vm.phase.Deleting? then old(st.vms)[vm.uid].pool else vm.pool) in old(st.pools))
    ensures r.Err? ==> r.error == if vm.uid !in old(st.vms) && (answers || !vm.phase.Deleting?) then NotFound
              else Unanswered
    ensures flint.live ==
            if answers && (vm.phase.Deleting? || vm.uid in old(st.vms)) then old(flint.live) - {vm.uid}
              else old(flint.live)
  {
    if !vm.phase.Deleting? {
      PutAndDrop(st.Contents(), vm.(phase := Deleting));
      var marked := st.UpdateVM(vm.(phase := Deleting));
      if marked.Err? {
        SameMap(st.vms, st.vms - {vm.uid});
        return Err(marked.error);
      }
    }
    if !answers {
      return Err(Unanswered);
    }
    flint.DeleteMicroVM(vm.uid);
    r := st.DeleteVMCheckingPool(vm.uid);
  }

  function Released(db: Db, pool: PoolKey, u: Uid, l: LeaseId): Db {
    Emit(DropLease(db, l), Event(pool, u, VmDeletedOnRelease))
  }

  method FinishVMRelease(st: Store, pool: PoolKey, u: Uid, l: LeaseId)
    requires st.Valid()
    modifies st`leases, st`events
    ensures st.Valid() && st.leases == old(st.leases) - {l}
    ensures st.events == old(st.events) + [Event(pool, u, VmDeletedOnRelease)]
    ensures st.Contents() == Released(old(st.Contents()), pool, u, l)
  {
    var gone := st.DeleteLease(l);
    st.AppendEvent(Event(pool, u, VmDeletedOnRelease));
  }

  /** A lease row still there for the VM means a release; otherwise its lease had expired. */
  function Finished(db: Db, pool: PoolKey, vm: Vm): Db {
    if vm.leaseId.Some? && vm.leaseId.value in db.leases
    then Released(db, pool, vm.uid, vm.leaseId.value)
    else Emit(db, Event(pool, vm.uid, VmDeletedDueToExpiry))
  }

  method FinishVMDeletion(st: Store, pool: PoolKey, vm: Vm)
    requires st.Valid()
    modifies st`leases, st`events
    ensures st.Valid()
    ensures if vm.leaseId.Some? && vm.leaseId.value in old(st.leases)
            then && st.leases == old(st.leases) - {vm.leaseId.value}
                 && st.events == old(st.events) + [Event(pool, vm.uid, VmDeletedOnRelease)]
            else && st.leases == old(st.leases)
                 && st.events == old(st.events) + [Event(pool, vm.uid, VmDeletedDueToExpiry)]
    ensures st.Contents() == Finished(old(st.Contents()), pool, vm)
  {
    if vm.leaseId.Some? {
      var lease := st.GetLease(vm.leaseId.value);
      if lease.Ok? {
        FinishVMRelease(st, pool, vm.uid, lease.value.id);
        return;
      }
    }
    st.AppendEvent(Event(pool, vm.uid, VmDeletedDueToExpiry));
  }

  // ---- the hook failure policy ----

  /** The row the policy leaves; none once flintlock has confirmed the delete. */
  function PolicyRow(policy: Policy, vm: Vm, answers: bool): Option<Vm> {
    if policy.Quarantine? then Some(vm.(phase := Quarantined, leaseId := None))
    else if answers then None
    else Some(Condemn(vm))
  }

  /** db with u's row, if it may still be written, replaced or removed. */
  function Settled(db: Db, u: Uid, row: Option<Vm>): Db {
    if row.None? then DropVm(db, u)
    else if CanUpdateVm(db, row.value) then PutVm(db, row.value)
    else db
  }

  function PolicyOutcome(db: Db, spec: PoolSpec, vm: Vm, answers: bool): Db {
    Emit(Settled(db, vm.uid, PolicyRow(spec.policy, vm, answers)), Event(spec.key, vm.uid, VmHookFailed))
  }

  method ApplyHookFailurePolicy(st: Store, flint: Flintlock, spec: PoolSpec, vm: Vm, answers: bool)
    requires st.Valid()
    modifies st`vms, st`events, flint
    ensures st.Valid() && st.events == old(st.events) + [Event(spec.key, vm.uid, VmHookFailed)]
    ensures spec.policy.Quarantine? ==>
              st.vms == if vm.uid !in old(st.vms) || old(st.vms)[vm.uid].phase.Deleting? then old(st.vms)
                        else old(st.vms)[vm.uid := vm.(phase := Quarantined, leaseId := None)]
    ensures spec.policy.DeleteAndReplace? ==>
              st.vms == if answers then old(st.vms) - {vm.uid}
                        else if vm.uid !in old(st.vms) then old(st.vms)
                        else old(st.vms)[vm.uid := vm.(phase := Deleting, leaseId := None)]
    ensures st.Contents() == PolicyOutcome(old(st.Contents()), spec, vm, answers)
    ensures flint.live == if spec.policy.Quarantine? || !answers then old(flint.live) else old(flint.live) - {vm.uid}
  {
    if spec.policy.Quarantine? {
      var written := st.UpdateVM(vm.(phase := Quarantined, leaseId := None));
    } else {
      PutAndDrop(st.Contents(), Condemn(vm));
      var written := st.UpdateVM(Condemn(vm));
      var deleted := EnsureVMDeletedCheckingPool(st, flint, Condemn(vm), answers);
    }
    st.AppendEvent(Event(spec.key, vm.uid, VmHookFailed));
  }

  /** Whatever the policy and flintlock's answer, the VM ends QUARANTINED, DELETING or gone, with no
      lease id unless its row was already DELETING; no other row, lease or placement changes; and
      a row goes only if flintlock confirmed the delete. */
  lemma PolicyStrandsNothing(db: Db, spec: PoolSpec, vm: Vm, answers: bool)
    ensures PolicyOutcome(db, spec, vm, answers).(vms := db.vms, events := db.events) == db
    ensures forall u | u != vm.uid && u in db.vms :: u in PolicyOutcome(db, spec, vm, answers).vms
              && PolicyOutcome(db, spec, vm, answers).vms[u] == db.vms[u]
    ensures forall u | u in PolicyOutcome(db, spec, vm, answers).vms :: u in db.vms
    ensures vm.uid in PolicyOutcome(db, spec, vm, answers).vms ==>
              var v := PolicyOutcome(db, spec, vm, answers).vms[vm.uid];
              && (v.phase.Quarantined? || v.phase.Deleting?)
              && (v.leaseId.None? || db.vms[vm.uid].phase.Deleting?)
    ensures vm.uid in db.vms && vm.uid !in PolicyOutcome(db, spec, vm, answers).vms ==>
              answers && !spec.policy.Quarantine?
  {
  }
}
