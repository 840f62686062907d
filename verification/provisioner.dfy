/** Provision, run without interruption against the store and flintlock. */
module Provisioners {
  import opened Records
  import opened Transactions
  import opened Stores
  import opened Deletions
  import opened Sets

  /** What one GetMicroVM poll answered. */
  datatype Poll = Pending | Created | CreateFailed | Unreachable

  ghost predicate Reached(polls: seq<Poll>, n: nat) {
    n < |polls| && polls[n].Created? && forall m | 0 <= m < n :: polls[m].Pending?
  }

  /** waitCreated: one poll per tick, until the microVM is created, fails or the timeout comes. */
  method WaitCreated(polls: seq<Poll>) returns (ok: bool)
    ensures ok <==> exists n | 0 <= n < |polls| :: polls[n].Created? && forall m | 0 <= m < n :: polls[m].Pending?
    ensures ok <==> exists n: nat :: Reached(polls, n)
  {
    for n := 0 to |polls|
      invariant forall m | 0 <= m < n :: polls[m].Pending?
    {
      if polls[n].Created? {
        assert Reached(polls, n);
        return true;
      }
      if !polls[n].Pending? {
        return false;
      }
    }
    return false;
  }

  /** What the world answers a Provision call. */
  datatype World = World(
    host: Option<HostName>, created: Option<Uid>, polls: seq<Poll>, ready: bool, commands: seq<bool>, answers: bool)

  ghost predicate Booted(w: World) {
    (exists n: nat :: Reached(w.polls, n)) && w.ready && forall n | 0 <= n < |w.commands| :: w.commands[n]
  }

  function NewVm(spec: PoolSpec, u: Uid, h: HostName): Vm {
    Vm(u, spec.key, h, Provisioning, None)
  }

  function Recorded(db: Db, spec: PoolSpec, v: Vm): Db {
    Emit(PutVm(db, v), Event(spec.key, v.uid, VmProvisioned))
  }

  /** The whole of Provision, seen from outside: no reservation is left, and the VM is AVAILABLE or
      was left to the hook failure policy. */
  ghost function Outcome(db: Db, spec: PoolSpec, id: PlacementId, w: World): Db {
    if w.host.None? || !CanReserve(db, id, w.host.value) || w.created.None? then db
    else
      var v := NewVm(spec, w.created.value, w.host.value);
      if Booted(w) then Emit(Recorded(db, spec, v.(phase := Available)), Event(spec.key, v.uid, VmAvailable))
      else PolicyOutcome(Recorded(db, spec, v), spec, v, w.answers)
  }

  predicate Present(db: Db, u: Uid) {
    u in db.vms && !db.vms[u].phase.Deleting?
  }

  /** The failure policy, unless the VM is already being deleted. */
  function Abandoned(db: Db, spec: PoolSpec, vm: Vm, answers: bool): Db {
    if Present(db, vm.uid) then PolicyOutcome(db, spec, vm, answers) else db
  }

  /** What flintlock runs in the end: the new microVM if and only if it has a row. */
  function Running(live: map<Uid, HostName>, db: Db, w: World): map<Uid, HostName> {
    if w.created.Some? && w.host.Some? && w.created.value in db.vms then live[w.created.value := w.host.value] else live
  }

  class Provisioner {
    const st: Store
    const flint: Flintlock

    constructor (st: Store, flint: Flintlock)
      ensures this.st == st && this.flint == flint
    {
      this.st, this.flint := st, flint;
    }

    /** applyHookFailurePolicy: a VM deleted while Provision ran is left to its deleter. */
    method GiveUp(spec: PoolSpec, vm: Vm, answers: bool)
      requires st.Valid()
      modifies st`vms, st`events, flint
      ensures st.Valid()
      ensures vm.uid !in old(st.vms) || old(st.vms)[vm.uid].phase.Deleting? ==>
                st.vms == old(st.vms) && st.events == old(st.events)
      ensures st.Contents() == Abandoned(old(st.Contents()), spec, vm, answers)
      ensures flint.live ==
              if !Present(old(st.Contents()), vm.uid) || !answers || spec.policy.Quarantine? then old(flint.live)
              else old(flint.live) - {vm.uid}
    {
      var row := st.GetVM(vm.uid);
      if row.Err? || row.value.phase.Deleting? {
        return;
      }
      ApplyHookFailurePolicy(st, flint, spec, vm, answers);
    }

    /** From the recorded row to AVAILABLE, or to the failure policy; a VM marked DELETING meanwhile
        never becomes AVAILABLE. */
    method Boot(spec: PoolSpec, vm: Vm, w: World) returns (ok: bool)
      requires st.Valid() && vm.phase.Provisioning?
      modifies st`vms, st`events, flint
      ensures st.Valid()
      ensures vm.uid !in old(st.vms) || old(st.vms)[vm.uid].phase.Deleting? ==>
                !ok && st.vms == old(st.vms) && st.events == old(st.events)
      ensures ok <==> Booted(w) && Present(old(st.Contents()), vm.uid)
      ensures st.Contents() ==
              if ok then Emit(PutVm(old(st.Contents()), vm.(phase := Available)), Event(spec.key, vm.uid, VmAvailable))
              else Abandoned(old(st.Contents()), spec, vm, w.answers)
      ensures flint.live ==
              if ok || !Present(old(st.Contents()), vm.uid) || !w.answers || spec.policy.Quarantine?
                then old(flint.live)
              else old(flint.live) - {vm.uid}
    {
      ghost var db := st.Contents();
      var created := WaitCreated(w.polls);
      if !created {
        GiveUp(spec, vm, w.answers);
        return false;
      }
      var hooking := vm.(phase := CreateHookRunning);
      var marked := st.UpdateVM(hooking);
      if marked.Err? {
        GiveUp(spec, hooking, w.answers);
        return false;
      }
      PolicyForgets(db, spec, vm, hooking, w.answers);
      var hooked := RunCreateCommands(spec, hooking, w);
      if !hooked {
        return false;
      }
      PutTwice(db, hooking, vm.(phase := Available));
      var available := st.UpdateVM(vm.(phase := Available));
      st.AppendEvent(Event(spec.key, vm.uid, VmAvailable));
      return true;
    }

    /** The guest agent, then one result per create command, in order. */
    method RunCreateCommands(spec: PoolSpec, vm: Vm, w: World) returns (ok: bool)
      requires st.Valid()
      modifies st`vms, st`events, flint
      ensures st.Valid() && (ok <==> w.ready && forall n | 0 <= n < |w.commands| :: w.commands[n])
      ensures st.Contents() == if ok then old(st.Contents()) else Abandoned(old(st.Contents()), spec, vm, w.answers)
      ensures flint.live ==
              if ok || !Present(old(st.Contents()), vm.uid) || !w.answers || spec.policy.Quarantine?
                then old(flint.live)
              else old(flint.live) - {vm.uid}
    {
      if !w.ready {
        GiveUp(spec, vm, w.answers);
        return false;
      }
      for n := 0 to |w.commands|
        invariant st.Valid() && st.Contents() == old(st.Contents()) && flint.live == old(flint.live)
        invariant forall m | 0 <= m < n :: w.commands[m]
      {
        if !w.commands[n] {
          GiveUp(spec, vm, w.answers);
          return false;
        }
      }
      return true;
    }

    /** id is the fresh placement id, and a uid flintlock answers with is fresh. */
    method Provision(spec: PoolSpec, id: PlacementId, w: World) returns (ok: bool)
      requires st.Valid() && id !in st.placements
      requires w.created.Some? ==> w.created.value !in st.vms && w.created.value !in flint.live
      modifies st`vms, st`placements, st`events, flint
      ensures st.Valid() && st.placements == old(st.placements)
      ensures ok <==>
              && w.host.Some? && w.host.value in st.hosts && !st.hosts[w.host.value].cordoned && w.created.Some?
              && (exists n | 0 <= n < |w.polls| :: w.polls[n].Created? && forall m | 0 <= m < n :: w.polls[m].Pending?)
              && w.ready && forall n | 0 <= n < |w.commands| :: w.commands[n]
      ensures st.Contents() == Outcome(old(st.Contents()), spec, id, w)
      ensures flint.live == Running(old(flint.live), st.Contents(), w)
    {
      ghost var db := st.Contents();
      if w.host.None? {
        return false;
      }
      var host := w.host.value;
      var reserved := st.ReservePlacement(id, host, spec.key);
      if reserved.Err? {
        return false;
      }
      ReserveReleased(db, id, Placement(host, spec.key));
      if w.created.None? {
        st.ReleasePlacement(id);
        return false;
      }
      var vm := NewVm(spec, w.created.value, host);
      flint.CreateMicroVM(vm.uid, host);
      var recorded := st.CreateVM(vm);
      st.ReleasePlacement(id);
      st.AppendEvent(Event(spec.key, vm.uid, VmProvisioned));
      assert st.Contents() == Recorded(db, spec, vm);
      BootForgets(db, spec, vm);
      ghost var live := old(flint.live);
      BootedMeans(w);
      Undone(live, vm.uid, host);
      ok := Boot(spec, vm, w);
    }
  }

  lemma Undone(live: map<Uid, HostName>, u: Uid, h: HostName)
    requires u !in live
    ensures live[u := h] - {u} == live
  {
    SameMap(live[u := h] - {u}, live);
  }

  lemma ReserveReleased(db: Db, id: PlacementId, p: Placement)
    requires id !in db.placements
    ensures Unreserve(Reserve(db, id, p), id) == db
  {
    SameMap(db.placements[id := p] - {id}, db.placements);
  }

  lemma PolicyForgets(db: Db, spec: PoolSpec, vm: Vm, now: Vm, answers: bool)
    requires Present(db, vm.uid) && now == vm.(phase := CreateHookRunning)
    ensures Abandoned(PutVm(db, now), spec, now, answers) == Abandoned(db, spec, vm, answers)
  {
    PutAndDrop(db, now);
    PutTwice(db, now, Condemn(vm));
    PutTwice(db, now, vm.(phase := Quarantined, leaseId := None));
  }

  lemma BootForgets(db: Db, spec: PoolSpec, vm: Vm)
    ensures PutVm(Recorded(db, spec, vm), vm.(phase := Available)) == Recorded(db, spec, vm.(phase := Available))
  {
    PutTwice(db, vm, vm.(phase := Available));
  }

  /** However Provision ends, the placements and every other row are as they were, the new VM is
      AVAILABLE, QUARANTINED, DELETING or has no row, and once created it has no row exactly when a
      hook failed, the policy deletes and flintlock confirmed the delete. */
  lemma ProvisionSettles(db: Db, spec: PoolSpec, id: PlacementId, w: World)
    requires w.created.Some? ==> w.created.value !in db.vms
    ensures Outcome(db, spec, id, w).(vms := db.vms, events := db.events) == db
    ensures forall u | u in db.vms :: u in Outcome(db, spec, id, w).vms && Outcome(db, spec, id, w).vms[u] == db.vms[u]
    ensures forall u | u in Outcome(db, spec, id, w).vms && u !in db.vms ::
              var v := Outcome(db, spec, id, w).vms[u];
              && w.created == Some(u) && w.host == Some(v.host) && v.pool == spec.key
              && v.leaseId.None? && (v.phase.Available? || v.phase.Quarantined? || v.phase.Deleting?)
              && (v.phase.Available? <==> Booted(w))
    ensures w.host.Some? && CanReserve(db, id, w.host.value) && w.created.Some? ==>
              (w.created.value !in Outcome(db, spec, id, w).vms <==>
                !Booted(w) && w.answers && !spec.policy.Quarantine?)
  {
    if w.host.Some? && CanReserve(db, id, w.host.value) && w.created.Some? && !Booted(w) {
      var v := NewVm(spec, w.created.value, w.host.value);
      PolicyStrandsNothing(Recorded(db, spec, v), spec, v, w.answers);
    }
  }

  /** How Provision ends, row by row: nothing at all if no host took it or flintlock created nothing;
      an AVAILABLE row if everything succeeded; otherwise what the pool's policy says. */
  lemma ProvisionMeans(db: Db, live: map<Uid, HostName>, spec: PoolSpec, id: PlacementId, w: World)
    requires id !in db.placements && (w.created.Some? ==> w.created.value !in db.vms && w.created.value !in live)
    ensures
      var db' := Outcome(db, spec, id, w);
      db' == db.(vms := db'.vms, events := db'.events)
    ensures w.host.None? || w.host.value !in db.hosts || db.hosts[w.host.value].cordoned || w.created.None? ==>
              Outcome(db, spec, id, w) == db && Running(live, db, w) == live
    ensures
      w.host.Some? && w.host.value in db.hosts && !db.hosts[w.host.value].cordoned && w.created.Some? ==>
        var u, h, db' := w.created.value, w.host.value, Outcome(db, spec, id, w);
        var booted := (exists n | 0 <= n < |w.polls| ::
                         w.polls[n].Created? && forall m | 0 <= m < n :: w.polls[m].Pending?)
                      && w.ready && forall n | 0 <= n < |w.commands| :: w.commands[n];
        var gone := !booted && spec.policy.DeleteAndReplace? && w.answers;
        && Running(live, db', w) == (if gone then live else live[u := h])
        && db'.vms == (if gone then db.vms
                       else db.vms[u := Vm(u, spec.key, h, if booted then Available
                                                           else if spec.policy.Quarantine? then Quarantined
                                                           else Deleting, None)])
        && db'.events == db.events + [Event(spec.key, u, VmProvisioned),
                                      Event(spec.key, u, if booted then VmAvailable else VmHookFailed)]
  {
    hide Booted, PolicyOutcome;
    if w.host.Some? && w.host.value in db.hosts && !db.hosts[w.host.value].cordoned && w.created.Some? {
      BootedMeans(w);
      var v := NewVm(spec, w.created.value, w.host.value);
      if !Booted(w) {
        FreshFails(db, spec, v, w.answers);
      }
    }
  }

  lemma FreshFails(db: Db, spec: PoolSpec, v: Vm, answers: bool)
    requires v.uid !in db.vms && v.phase.Provisioning? && v.leaseId.None?
    ensures
      var db' := PolicyOutcome(Recorded(db, spec, v), spec, v, answers);
      && db' == db.(vms := db'.vms, events := db'.events)
      && db'.events == db.events + [Event(spec.key, v.uid, VmProvisioned), Event(spec.key, v.uid, VmHookFailed)]
      && db'.vms == if spec.policy.Quarantine? then db.vms[v.uid := v.(phase := Quarantined)]
                    else if answers then db.vms else db.vms[v.uid := v.(phase := Deleting)]
  {
    SameMap(db.vms[v.uid := v] - {v.uid}, db.vms);
    SameMap(db.vms[v.uid := v][v.uid := Condemn(v)], db.vms[v.uid := Condemn(v)]);
    SameMap(db.vms[v.uid := v][v.uid := v.(phase := Quarantined)], db.vms[v.uid := v.(phase := Quarantined)]);
  }

  lemma BootedMeans(w: World)
    ensures Booted(w) <==>
            && (exists n | 0 <= n < |w.polls| :: w.polls[n].Created? && forall m | 0 <= m < n :: w.polls[m].Pending?)
            && w.ready && forall n | 0 <= n < |w.commands| :: w.commands[n]
  {
    if n :| 0 <= n < |w.polls| && w.polls[n].Created? && forall m | 0 <= m < n :: w.polls[m].Pending? {
      assert Reached(w.polls, n);
    }
  }
}
