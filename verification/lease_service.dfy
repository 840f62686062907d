/** ClaimVM, Heartbeat and ReleaseVM, each run without interruption against the store. */
module LeaseServices {
  import opened Records
  import opened Transactions
  import opened Stores
  import opened Deletions
  import opened Sets

  datatype Reply =
    | Claimed(lease: LeaseId, vm: Uid)
    | Refused(code: Code)

  datatype HookResult = HooksOk | HooksFailed | VmGone

  datatype Code = PoolNotFound | LeaseNotFound | InvalidArgument | ResourceExhausted | Aborted | Internal | Unavailable

  // ---- what each call does ----

  ghost predicate OneLeasePerRequest(db: Db) {
    forall l, m | l in db.leases && m in db.leases ::
      db.leases[l].request.Some? && db.leases[l].request == db.leases[m].request ==> l == m
  }

  /** replayClaim: the lease's own pool and a VM not on its way out, or a refusal. */
  function Replay(db: Db, k: PoolKey, l: Lease): Reply {
    if l.pool != k then Refused(InvalidArgument)
    else if l.vm !in db.vms || db.vms[l.vm].phase.Deleting? then Refused(Aborted)
    else Claimed(l.id, l.vm)
  }

  function NewLease(id: LeaseId, u: Uid, spec: PoolSpec, now: Time, request: Option<RequestId>): Lease {
    Lease(id, u, spec.key, now, now, now + spec.expiryThreshold, request)
  }

  /** A VM that was AVAILABLE is LEASED under a new lease, and nothing else changes. */
  function Leasing(db: Db, spec: PoolSpec, u: Uid, l: Lease): Db
    requires u in db.vms
  {
    Emit(PutLease(PutVm(db, db.vms[u].(phase := Leased, leaseId := Some(l.id))), l), Event(spec.key, u, VmClaimed))
  }

  /** A claim that took an AVAILABLE VM u: leased if every command succeeded, else left to the policy. */
  ghost predicate Took(db: Db, spec: PoolSpec, u: Uid, l: Lease, hooked: bool, answers: bool, db': Db, r: Reply) {
    && CanClaim(db, spec.key, u) && l.vm == u
    && r == (if hooked then Claimed(l.id, u) else Refused(Internal))
    && db' == if hooked then Leasing(db, spec, u, l) else PolicyOutcome(db, spec, db.vms[u], answers)
  }

  /** The whole of ClaimVM. */
  ghost predicate Claims(
    db: Db, k: PoolKey, request: Option<RequestId>, hooked: bool, id: LeaseId, now: Time, answers: bool, db': Db,
      r: Reply)
  {
    if k !in db.pools then r == Refused(PoolNotFound) && db' == db
    else if RequestTaken(db, request) then
      db' == db && exists l :: l in db.leases && db.leases[l].request == request && r == Replay(db, k, db.leases[l])
    else if !(exists u :: CanClaim(db, k, u)) then r == Refused(ResourceExhausted) && db' == db
    else
      var spec := db.pools[k].(key := k);
      exists u :: Took(db, spec, u, NewLease(id, u, spec, now, request), hooked, answers, db', r)
  }

  /** The whole of ReleaseVM. */
  ghost predicate Releases(db: Db, id: LeaseId, answers: bool, db': Db, r: Option<Code>) {
    if id !in db.leases then r == Some(LeaseNotFound) && db' == db
    else
      var l := db.leases[id];
      if l.vm !in db.vms then r == None && db' == DropLease(db, id)
      else if !answers then r == Some(Unavailable) && db' == PutVm(db, db.vms[l.vm].(phase := Deleting))
      else if db.vms[l.vm].pool in db.pools then r == None && db' == Released(DropVm(db, l.vm), l.pool, l.vm, id)
      else r == None && db' == DropLease(DropVm(db, l.vm), id)
  }

  // ---- the server ----

  class LeaseServer {
    const st: Store
    const flint: Flintlock

    constructor (st: Store, flint: Flintlock)
      ensures this.st == st && this.flint == flint
    {
      this.st, this.flint := st, flint;
    }

    method ReplayClaim(lease: Lease, k: PoolKey) returns (r: Reply)
      requires st.Valid()
      ensures lease.pool != k ==> r == Refused(InvalidArgument)
      ensures lease.pool == k && (lease.vm !in st.vms || st.vms[lease.vm].phase.Deleting?) ==> r == Refused(Aborted)
      ensures lease.pool == k && lease.vm in st.vms && !st.vms[lease.vm].phase.Deleting? ==>
                r == Claimed(lease.id, lease.vm)
      ensures r == Replay(st.Contents(), k, lease)
    {
      if lease.pool != k {
        return Refused(InvalidArgument);
      }
      var vm := st.GetVM(lease.vm);
      if vm.Err? || vm.value.phase.Deleting? {
        return Refused(Aborted);
      }
      return Claimed(lease.id, vm.value.uid);
    }

    /** One result per pre-lease command, in order; the first failure stops the loop. A VM deleted
        before the hooks start is left to its deleter. */
    method RunPreLeaseHooks(spec: PoolSpec, vm: Vm, commands: seq<bool>, answers: bool) returns (r: HookResult)
      requires st.Valid()
      modifies st`vms, st`events, flint
      ensures st.Valid() && (r.VmGone? <==> vm.uid !in old(st.vms) || old(st.vms)[vm.uid].phase.Deleting?)
      ensures !r.VmGone? ==> (r.HooksOk? <==> forall n | 0 <= n < |commands| :: commands[n])
      ensures st.Contents() ==
              if r.VmGone? then old(st.Contents())
              else if r.HooksOk? then PutVm(old(st.Contents()), vm.(phase := PreLeaseHookRunning))
              else PolicyOutcome(PutVm(old(st.Contents()), vm.(phase := PreLeaseHookRunning)), spec,
                vm.(phase := PreLeaseHookRunning), answers)
      ensures flint.live ==
              if r.HooksFailed? && answers && !spec.policy.Quarantine? then old(flint.live) - {vm.uid}
                else old(flint.live)
    {
      var running := vm.(phase := PreLeaseHookRunning);
      var written := st.UpdateVM(running);
      if written.Err? {
        return VmGone;
      }
      for n := 0 to |commands|
        invariant st.Valid() && st.Contents() == PutVm(old(st.Contents()), running) && flint.live == old(flint.live)
        invariant forall m | 0 <= m < n :: commands[m]
      {
        if !commands[n] {
          ApplyHookFailurePolicy(st, flint, spec, running, answers);
          return HooksFailed;
        }
      }
      return HooksOk;
    }

    /** id is the fresh lease id, commands what each pre-lease command answered, answers whether
        flintlock answered a delete. */
    method ClaimVM(k: PoolKey, request: Option<RequestId>, commands: seq<bool>, id: LeaseId, now: Time, answers: bool)
      returns (r: Reply)
      requires st.Valid() && id !in st.leases
      modifies st`vms, st`leases, st`events, flint
      ensures st.Valid()
      ensures
        r.Claimed? && (request.None? || forall l | l in old(st.leases) :: old(st.leases)[l].request != request) ==>
          && r.lease == id && id in st.leases && r.vm in st.vms && k in st.pools
          && st.leases[id].vm == r.vm && st.leases[id].pool == k && st.leases[id].request == request
          && st.leases[id].claimedAt == now && st.leases[id].heartbeatAt == now
          && st.leases[id].expiresAt == now + st.pools[k].expiryThreshold
          && st.vms[r.vm].phase.Leased? && st.vms[r.vm].leaseId == Some(id) && st.vms[r.vm].pool == k
      ensures Claims(old(st.Contents()), k, request, forall n | 0 <= n < |commands| :: commands[n],
                id, now, answers, st.Contents(), r)
      ensures flint.live == old(flint.live) - (old(st.vms).Keys - st.vms.Keys)
    {
      ghost var db := st.Contents();
      NothingLost(flint.live, st.vms);
      if k !in st.pools {
        return Refused(PoolNotFound);
      }
      var spec := st.pools[k].(key := k);
      if request.Some? {
        var lease := st.GetLeaseByRequestID(request);
        if lease.Ok? {
          r := ReplayClaim(lease.value, k);
          return;
        }
      }
      var picked := st.ClaimAvailableVM(k);
      if picked.Err? {
        return Refused(ResourceExhausted);
      }
      var vm := picked.value;
      r := ClaimPicked(spec, request, vm, commands, id, now, answers, db);
      ClaimMeans(db, k, request, forall n | 0 <= n < |commands| :: commands[n], id, now, answers, st.Contents(), r);
    }

    /** The rest of a claim, from the VM it has claimed. */
    method ClaimPicked(
      spec: PoolSpec, request: Option<RequestId>, vm: Vm, commands: seq<bool>, id: LeaseId, now: Time, answers: bool,
        ghost db: Db)
      returns (r: Reply)
      requires st.Valid() && id !in st.leases && !RequestTaken(st.Contents(), request)
      requires CanClaim(db, spec.key, vm.uid) && db.vms[vm.uid].uid == vm.uid
      requires vm == db.vms[vm.uid].(phase := Leased) && st.Contents() == PutVm(db, vm)
      modifies st`vms, st`leases, st`events, flint
      ensures st.Valid()
      ensures Took(db, spec, vm.uid, NewLease(id, vm.uid, spec, now, request),
                forall n | 0 <= n < |commands| :: commands[n], answers, st.Contents(), r)
      ensures flint.live == old(flint.live) - (db.vms.Keys - st.vms.Keys)
    {
      NothingLost(flint.live, db.vms);
      var hooks := RunPreLeaseHooks(spec, vm, commands, answers);
      var lease := NewLease(id, vm.uid, spec, now, request);
      match hooks {
        case VmGone =>
          return Refused(Aborted);
        case HooksFailed =>
          PolicyOverwrites(db, spec, vm, answers);
          PolicyLoses(old(flint.live), db, spec, db.vms[vm.uid], answers);
          return Refused(Internal);
        case HooksOk =>
          LeaseOverwrites(db, spec, vm, lease);
          var leased := st.LeaseVM(vm.(phase := Leased, leaseId := Some(id)), lease);
          st.AppendEvent(Event(spec.key, vm.uid, VmClaimed));
          NothingLost(flint.live, db.vms);
          assert st.vms.Keys == db.vms.Keys;
          return Claimed(id, vm.uid);
      }
    }

    method Heartbeat(id: LeaseId, now: Time) returns (r: Result<Time>)
      requires st.Valid()
      modifies st`leases
      ensures st.Valid() && (r.Ok? <==> id in old(st.leases) && old(st.leases)[id].pool in st.pools)
      ensures r.Err? ==> r.error == NotFound && st.leases == old(st.leases)
      ensures r.Ok? ==> r.value == now + st.pools[old(st.leases)[id].pool].expiryThreshold
      ensures r.Ok? ==> id in st.leases && st.leases == old(st.leases)[id := st.leases[id]]
      ensures r.Ok? ==>
                var l, m := old(st.leases)[id], st.leases[id];
                && m.heartbeatAt == now && m.expiresAt == r.value
                && m.id == id && m.vm == l.vm && m.pool == l.pool
                && m.claimedAt == l.claimedAt && m.request == l.request
      ensures r.Ok? ==> st.Contents() == PutLease(old(st.Contents()), Renewed(old(st.leases)[id], now, r.value))
    {
      var lease := st.GetLease(id);
      if lease.Err? {
        return Err(lease.error);
      }
      if lease.value.pool !in st.pools {
        return Err(NotFound);
      }
      var expiresAt := now + st.pools[lease.value.pool].expiryThreshold;
      var written := st.UpdateLeaseHeartbeat(id, now, expiresAt);
      return Ok(expiresAt);
    }

    method ReleaseVM(id: LeaseId, answers: bool) returns (r: Option<Code>)
      requires st.Valid()
      modifies st`vms, st`leases, st`events, flint
      ensures st.Valid() && Releases(old(st.Contents()), id, answers, st.Contents(), r)
      ensures flint.live == old(flint.live) - (old(st.vms).Keys - st.vms.Keys)
    {
      ghost var db := st.Contents();
      NothingLost(flint.live, st.vms);
      var lease := st.GetLease(id);
      if lease.Err? {
        return Some(LeaseNotFound);
      }
      var vm := st.GetVM(lease.value.vm);
      if vm.Ok? {
        MarkKeeps(db, vm.value);
        OneLost(flint.live, st.vms, vm.value.uid);
        NoneLost(flint.live, st.vms, vm.value.(phase := Deleting));
        var deleted := EnsureVMDeletedCheckingPool(st, flint, vm.value, answers);
        if deleted.Err? {
          return Some(Unavailable);
        }
        if deleted.value {
          FinishVMRelease(st, lease.value.pool, vm.value.uid, id);
          return None;
        }
      }
      var gone := st.DeleteLease(id);
      return None;
    }
  }

  // ---- flintlock loses exactly the VMs whose rows went ----

  lemma NothingLost(live: map<Uid, HostName>, vms: map<Uid, Vm>)
    ensures live - (vms.Keys - vms.Keys) == live
  {
    SameMap(live - (vms.Keys - vms.Keys), live);
  }

  lemma OneLost(live: map<Uid, HostName>, vms: map<Uid, Vm>, u: Uid)
    requires u in vms
    ensures live - (vms.Keys - (vms - {u}).Keys) == live - {u}
  {
    SameMap(live - (vms.Keys - (vms - {u}).Keys), live - {u});
  }

  lemma NoneLost(live: map<Uid, HostName>, vms: map<Uid, Vm>, v: Vm)
    requires v.uid in vms
    ensures live - (vms.Keys - vms[v.uid := v].Keys) == live
  {
    SameMap(live - (vms.Keys - vms[v.uid := v].Keys), live);
  }

  lemma PolicyLoses(live: map<Uid, HostName>, db: Db, spec: PoolSpec, vm: Vm, answers: bool)
    requires vm.uid in db.vms && db.vms[vm.uid] == vm && !vm.phase.Deleting?
    ensures live - (db.vms.Keys - PolicyOutcome(db, spec, vm, answers).vms.Keys) ==
            if spec.policy.Quarantine? || !answers then live else live - {vm.uid}
  {
    OneLost(live, db.vms, vm.uid);
    NoneLost(live, db.vms, Condemn(vm));
    NoneLost(live, db.vms, vm.(phase := Quarantined, leaseId := None));
  }

  // ---- the writes in between leave no trace ----

  lemma PolicyOverwrites(db: Db, spec: PoolSpec, vm: Vm, answers: bool)
    requires vm.uid in db.vms && vm == db.vms[vm.uid].(phase := Leased) && !db.vms[vm.uid].phase.Deleting?
    ensures var running := vm.(phase := PreLeaseHookRunning);
            PolicyOutcome(PutVm(PutVm(db, vm), running), spec, running, answers) ==
              PolicyOutcome(db, spec, db.vms[vm.uid], answers)
  {
    var running := vm.(phase := PreLeaseHookRunning);
    PutTwice(db, vm, running);
    PutAndDrop(db, running);
    PutTwice(db, running, Condemn(running));
    PutTwice(db, running, running.(phase := Quarantined, leaseId := None));
  }

  lemma LeaseOverwrites(db: Db, spec: PoolSpec, vm: Vm, l: Lease)
    requires vm.uid in db.vms && vm == db.vms[vm.uid].(phase := Leased)
    ensures var running, leased := vm.(phase := PreLeaseHookRunning), vm.(phase := Leased, leaseId := Some(l.id));
            PutVm(PutVm(PutVm(db, vm), running), leased) ==
              PutVm(db, db.vms[vm.uid].(phase := Leased, leaseId := Some(l.id)))
  {
    PutTwice(db, vm, vm.(phase := PreLeaseHookRunning));
    PutTwice(db, vm.(phase := PreLeaseHookRunning), vm.(phase := Leased, leaseId := Some(l.id)));
  }

  lemma MarkKeeps(db: Db, vm: Vm)
    requires vm.uid in db.vms && db.vms[vm.uid] == vm
    ensures Marked(db, vm) == PutVm(db, vm.(phase := Deleting))
  {
    if vm.phase.Deleting? {
      SameMap(db.vms, db.vms[vm.uid := vm.(phase := Deleting)]);
    }
  }

  // ---- what the calls do, row by row ----

  /** The whole of ClaimVM. A new lease is dated now and expires its pool's threshold later. */
  lemma ClaimMeans(
    db: Db, k: PoolKey, request: Option<RequestId>, hooked: bool, id: LeaseId, now: Time, answers: bool, db': Db,
    r: Reply)
    requires Claims(db, k, request, hooked, id, now, answers, db', r)
    requires forall u | u in db.vms :: db.vms[u].uid == u
    ensures db' == db.(vms := db'.vms, leases := db'.leases, events := db'.events)
    ensures k !in db.pools ==> r == Refused(PoolNotFound) && db' == db
    ensures
      k in db.pools && request.Some? && (exists l :: l in db.leases && db.leases[l].request == request) ==>
        && db' == db
        && exists l :: l in db.leases && db.leases[l].request == request
                       && var m := db.leases[l];
                       && (m.pool != k ==> r == Refused(InvalidArgument))
                       && (m.pool == k && (m.vm !in db.vms || db.vms[m.vm].phase.Deleting?) ==> r == Refused(Aborted))
                       && (m.pool == k && m.vm in db.vms && !db.vms[m.vm].phase.Deleting? ==> r == Claimed(m.id, m.vm))
    ensures
      k in db.pools && (request.None? || forall l | l in db.leases :: db.leases[l].request != request) ==>
        if forall u | u in db.vms :: !(db.vms[u].pool == k && db.vms[u].phase.Available?)
        then r == Refused(ResourceExhausted) && db' == db
        else if hooked then HandedOut(db, k, request, id, now, db', r)
        else r == Refused(Internal) && LeftToPolicy(db, k, answers, db')
  {
    if k in db.pools && !RequestTaken(db, request) {
      if u :| CanClaim(db, k, u) {
        var spec := db.pools[k].(key := k);
        var w :| Took(db, spec, w, NewLease(id, w, spec, now, request), hooked, answers, db', r);
        if !hooked {
          PolicyRowMeans(db, spec, db.vms[w], answers);
        }
      } else {
        assert forall u | u in db.vms :: !CanClaim(db, k, u);
      }
    }
  }

  /** An AVAILABLE VM of the pool is LEASED, under a lease with these terms and no other change. */
  ghost predicate HandedOut(
    db: Db, k: PoolKey, request: Option<RequestId>, id: LeaseId, now: Time, db': Db, r: Reply)
    requires k in db.pools
  {
    && r.Claimed? && r.lease == id && r.vm in db.vms && db.vms[r.vm].pool == k && db.vms[r.vm].phase.Available?
    && db'.vms == db.vms[r.vm := db.vms[r.vm].(phase := Leased, leaseId := Some(id))]
    && db'.leases == db.leases[id := Lease(id, r.vm, k, now, now, now + db.pools[k].expiryThreshold, request)]
    && db'.events == db.events + [Event(k, r.vm, VmClaimed)]
  }

  /** An AVAILABLE VM of the pool is QUARANTINED, DELETING or gone, as the pool's policy says. */
  ghost predicate LeftToPolicy(db: Db, k: PoolKey, answers: bool, db': Db)
    requires k in db.pools
  {
    exists u ::
      && u in db.vms && db.vms[u].pool == k && db.vms[u].phase.Available? && db'.leases == db.leases
      && db'.events == db.events + [Event(k, u, VmHookFailed)]
      && db'.vms == if db.pools[k].policy.Quarantine?
                    then db.vms[u := db.vms[u].(phase := Quarantined, leaseId := None)]
                    else if answers then db.vms - {u}
                    else db.vms[u := db.vms[u].(phase := Deleting, leaseId := None)]
  }

  lemma PolicyRowMeans(db: Db, spec: PoolSpec, v: Vm, answers: bool)
    requires v.uid in db.vms && db.vms[v.uid] == v && !v.phase.Deleting?
    ensures
      var db' := PolicyOutcome(db, spec, v, answers);
      && db' == db.(vms := db'.vms, events := db.events + [Event(spec.key, v.uid, VmHookFailed)])
      && db'.vms == if spec.policy.Quarantine? then db.vms[v.uid := v.(phase := Quarantined, leaseId := None)]
                    else if answers then db.vms - {v.uid}
                    else db.vms[v.uid := v.(phase := Deleting, leaseId := None)]
  {
  }

  /** The whole of ReleaseVM. */
  lemma ReleaseMeans(db: Db, id: LeaseId, answers: bool, db': Db, r: Option<Code>)
    requires Releases(db, id, answers, db', r)
    requires forall u | u in db.vms :: db.vms[u].uid == u
    ensures db' == db.(vms := db'.vms, leases := db'.leases, events := db'.events)
    ensures id !in db.leases ==> r == Some(LeaseNotFound) && db' == db
    ensures id in db.leases && db.leases[id].vm !in db.vms ==>
              r == None && db'.vms == db.vms && db'.leases == db.leases - {id} && db'.events == db.events
    ensures id in db.leases && db.leases[id].vm in db.vms ==>
              var u := db.leases[id].vm;
              if !answers then
                && r == Some(Unavailable) && db'.leases == db.leases && db'.events == db.events
                && db'.vms == db.vms[u := db.vms[u].(phase := Deleting)]
              else
                && r == None && db'.leases == db.leases - {id} && db'.vms == db.vms - {u}
                && db'.events == db.events + if db.vms[u].pool in db.pools
                                             then [Event(db.leases[id].pool, u, VmDeletedOnRelease)] else []
  {
  }

  // ---- what the calls promise together ----

  /** A claim keeps one lease per request id. */
  lemma ClaimsKeepRequests(
    db: Db, k: PoolKey, request: Option<RequestId>, hooked: bool, id: LeaseId, now: Time, answers: bool, db': Db,
      r: Reply)
    requires OneLeasePerRequest(db) && Claims(db, k, request, hooked, id, now, answers, db', r)
    ensures OneLeasePerRequest(db')
  {
  }

  /** A claim retried with its request id is answered with the same lease and changes nothing,
      whatever the hooks, flintlock or the clock say the second time. */
  lemma ClaimRetried(
    db: Db, k: PoolKey, request: Option<RequestId>, hooked: bool, id: LeaseId, now: Time, answers: bool, db': Db,
      r: Reply,
    hooked': bool, id': LeaseId, now': Time, answers': bool, db'': Db, r': Reply)
    requires OneLeasePerRequest(db) && id !in db.leases && request.Some?
    requires Claims(db, k, request, hooked, id, now, answers, db', r) && r.Claimed?
    requires Claims(db', k, request, hooked', id', now', answers', db'', r')
    ensures r' == r && db'' == db'
  {
    ClaimsKeepRequests(db, k, request, hooked, id, now, answers, db', r);
    if RequestTaken(db, request) {
    } else {
      assert id in db'.leases && db'.leases[id].request == request;
    }
  }

  /** Claiming a VM and releasing it leaves every other row as it was: the pool has lost the VM, and
      the outbox has gained the claim and the release. */
  lemma ClaimThenRelease(
    db: Db, k: PoolKey, request: Option<RequestId>, id: LeaseId, now: Time, db': Db, u: Uid, db'': Db, r: Option<Code>)
    requires id !in db.leases && !RequestTaken(db, request) && forall w | w in db.vms :: db.vms[w].uid == w
    requires Claims(db, k, request, true, id, now, true, db', Claimed(id, u)) && Releases(db', id, true, db'', r)
    ensures r == None && CanClaim(db, k, u)
    ensures db'' == db.(
      vms := db.vms - {u},
      events := db.events + [Event(k, u, VmClaimed), Event(k, u, VmDeletedOnRelease)])
  {
    var v := db.vms[u].(phase := Leased, leaseId := Some(id));
    assert db'.leases[id].vm == u && db'.leases[id].pool == k && db'.vms == db.vms[u := v];
    SameMap(db.vms[u := v] - {u}, db.vms - {u});
    SameMap(db'.leases - {id}, db.leases);
  }

  /** A release flintlock did not answer can be retried, and then leaves what it would have left. */
  lemma ReleaseRetried(db: Db, id: LeaseId, db': Db, db'': Db, r: Option<Code>, whole: Db, done: Option<Code>)
    requires forall u | u in db.vms :: db.vms[u].uid == u
    requires Releases(db, id, false, db', Some(Unavailable)) && Releases(db', id, true, db'', r)
    requires Releases(db, id, true, whole, done)
    ensures r == None && done == None && db'' == whole && id !in db''.leases
  {
    var v := db.vms[db.leases[id].vm];
    PutAndDrop(db, v.(phase := Deleting));
  }

  /** A release that answered OK has ended the lease: the next one finds nothing. */
  lemma ReleasedForGood(db: Db, id: LeaseId, answers: bool, db': Db, again: bool, db'': Db, r: Option<Code>)
    requires Releases(db, id, answers, db', None) && Releases(db', id, again, db'', r)
    ensures r == Some(LeaseNotFound) && db'' == db'
  {
  }
}
