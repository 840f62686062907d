/** The store: every method is one transaction on the tables, so each is specified by the function
    of the tables that the protocol steps use. */
module Stores {
  import opened Records
  import opened Transactions
  import opened Listings

  datatype Error =
    | NotFound | VmDeleting | PoolHasLeased | NoAvailableVm | DuplicateRequestId | LeaseNotExpired
    | HostCordoned | HostNotRegistered | HostExists | HostInUse(count: nat) | Conflict | Unanswered

  datatype Result<+T> = Ok(value: T) | Err(error: Error)

  // ---- listings ----

  function Uids(vms: seq<Vm>): seq<Uid> {
    seq(|vms|, i requires 0 <= i < |vms| => vms[i].uid)
  }

  /** r is rows, each once, ordered by uid. */
  ghost predicate Lists(r: seq<Vm>, rows: map<Uid, Vm>) {
    && Increasing(Uids(r))
    && (forall v | v in r :: v.uid in rows && rows[v.uid] == v)
    && (forall u | u in rows :: rows[u] in r)
  }

  /** A listing has every row once. */
  lemma ListedApart(r: seq<Vm>, rows: map<Uid, Vm>, m: nat, n: nat)
    requires Lists(r, rows) && m < n < |r|
    ensures r[m].uid != r[n].uid
  {
    assert Uids(r)[m] < Uids(r)[n];
  }

  lemma ListedInOrder(r: seq<Vm>, rows: map<Uid, Vm>)
    requires Lists(r, rows)
    ensures forall m, n | 0 <= m < n < |r| :: r[m].uid < r[n].uid
  {
    forall m, n | 0 <= m < n < |r| ensures r[m].uid < r[n].uid {
      assert Uids(r)[m] < Uids(r)[n];
    }
  }

  lemma ListedAt(r: seq<Vm>, v: Vm)
    ensures Uids(r + [v]) == Uids(r) + [v.uid]
  {
  }

  /** SELECT ... ORDER BY uid, row by row. */
  method Select(rows: map<Uid, Vm>) returns (r: seq<Vm>)
    requires forall u | u in rows :: rows[u].uid == u
    ensures Lists(r, rows)
  {
    var uids := Ordered(rows.Keys);
    r := [];
    for n := 0 to |uids|
      invariant Uids(r) == uids[..n]
      invariant forall m | 0 <= m < n :: r[m] == rows[uids[m]]
    {
      ListedAt(r, rows[uids[n]]);
      r := r + [rows[uids[n]]];
    }
    forall u | u in rows ensures rows[u] in r {
      assert u in uids;
    }
  }

  /** r is rows, each once, ordered by expiry. */
  ghost predicate ListsLeases(r: seq<Lease>, rows: map<LeaseId, Lease>) {
    && (forall i, j | 0 <= i < j < |r| :: r[i].expiresAt <= r[j].expiresAt && r[i].id != r[j].id)
    && (forall l | l in r :: l.id in rows && rows[l.id] == l)
    && (forall id | id in rows :: rows[id] in r)
  }

  lemma EarliestExists(rows: map<LeaseId, Lease>, rest: set<LeaseId>)
    requires rest <= rows.Keys && rest != {}
    ensures exists id :: id in rest && forall x | x in rest :: rows[id].expiresAt <= rows[x].expiresAt
  {
    var times := set id | id in rest :: rows[id].expiresAt;
    NoMemberNoSet(rest);
    var some :| some in rest;
    assert rows[some].expiresAt in times;
    LeastOfSome(times);
    var t :| IsLeast(t, times);
    var id :| id in rest && rows[id].expiresAt == t;
    assert forall x | x in rest :: rows[x].expiresAt in times;
  }

  method SelectLeases(rows: map<LeaseId, Lease>) returns (r: seq<Lease>)
    requires forall id | id in rows :: rows[id].id == id
    ensures ListsLeases(r, rows)
  {
    var rest := rows.Keys;
    r := [];
    while rest != {}
      invariant rest <= rows.Keys
      invariant forall i, j | 0 <= i < j < |r| :: r[i].expiresAt <= r[j].expiresAt && r[i].id != r[j].id
      invariant forall l | l in r :: l.id in rows && rows[l.id] == l && l.id !in rest
      invariant forall id | id in rows :: id in rest || rows[id] in r
      invariant forall l, x | l in r && x in rest :: l.expiresAt <= rows[x].expiresAt
      decreases |rest|
    {
      EarliestExists(rows, rest);
      var id :| id in rest && forall x | x in rest :: rows[id].expiresAt <= rows[x].expiresAt;
      r, rest := r + [rows[id]], rest - {id};
    }
  }

  // ---- the tables ----

  class Store {
    var pools: map<PoolKey, PoolSpec>
    var vms: map<Uid, Vm>
    var leases: map<LeaseId, Lease>
    var hosts: map<HostName, Host>
    var placements: map<PlacementId, Placement>
    var events: seq<Event>

    ghost function Contents(): Db
      reads this
    {
      Db(pools, vms, leases, hosts, placements, events)
    }

    /** Rows are stored under their keys. */
    ghost predicate Valid()
      reads this
    {
      (forall u | u in vms :: vms[u].uid == u) && (forall l | l in leases :: leases[l].id == l)
    }

    constructor ()
      ensures Valid() && Contents() == Db(map[], map[], map[], map[], map[], [])
    {
      pools, vms, leases, hosts, placements, events := map[], map[], map[], map[], map[], [];
    }

    // ---- pools ----

    method CreatePool(spec: PoolSpec) returns (r: Result<()>)
      requires Valid()
      modifies `pools
      ensures Valid() && r == (if spec.key in old(pools) then Err(Conflict) else Ok(()))
      ensures pools == if r.Ok? then old(pools)[spec.key := spec] else old(pools)
      ensures Contents() == if r.Ok? then PutPool(old(Contents()), spec) else old(Contents())
    {
      if spec.key in pools {
        return Err(Conflict);
      }
      pools := pools[spec.key := spec];
      return Ok(());
    }

    method UpdatePool(spec: PoolSpec) returns (r: Result<()>)
      requires Valid()
      modifies `pools
      ensures Valid() && r == (if spec.key in old(pools) then Ok(()) else Err(NotFound))
      ensures pools == if r.Ok? then old(pools)[spec.key := spec] else old(pools)
      ensures Contents() == if r.Ok? then PutPool(old(Contents()), spec) else old(Contents())
    {
      if spec.key !in pools {
        return Err(NotFound);
      }
      pools := pools[spec.key := spec];
      return Ok(());
    }

    /** SELECT COUNT(*) over the pool's rows that a claim holds or a lease covers. */
    method CountLeased(k: PoolKey) returns (leased: nat)
      ensures leased > 0 <==> exists u ::
                u in vms && vms[u].pool == k && (vms[u].phase.Leased? || vms[u].phase.PreLeaseHookRunning?)
    {
      var uids := Ordered(vms.Keys);
      leased := 0;
      for n := 0 to |uids|
        invariant leased > 0 <==> exists m | 0 <= m < n :: vms[uids[m]].pool == k && HasLeasedPhase(vms[uids[m]])
      {
        if vms[uids[n]].pool == k && HasLeasedPhase(vms[uids[n]]) {
          leased := leased + 1;
        }
      }
      if leased > 0 {
        ghost var m :| 0 <= m < |uids| && vms[uids[m]].pool == k && HasLeasedPhase(vms[uids[m]]);
        assert uids[m] in vms;
      } else {
        forall u | u in vms ensures !(vms[u].pool == k && HasLeasedPhase(vms[u])) {
          assert u in uids;
        }
      }
    }

    /** The pool row goes first; a refusal rolls it back. Without force, one VM LEASED or running its
        pre-lease hooks is enough to refuse. */
    method DeletePoolAndMarkVMs(k: PoolKey, force: bool) returns (r: Result<seq<Vm>>)
      requires Valid()
      modifies `pools, `vms, `leases
      ensures Valid() && (k !in old(pools) ==> r == Err(NotFound))
      ensures k in old(pools) ==>
                if !force && (exists u ::
                                && u in old(vms) && old(vms)[u].pool == k
                                && (old(vms)[u].phase.Leased? || old(vms)[u].phase.PreLeaseHookRunning?))
                then r == Err(PoolHasLeased) else r.Ok?
      ensures r.Err? ==> pools == old(pools) && vms == old(vms) && leases == old(leases)
      ensures r.Ok? ==>
                && pools == old(pools) - {k} && vms.Keys == old(vms).Keys
                && (forall u | u in vms ::
                      vms[u] == if old(vms)[u].pool == k then old(vms)[u].(phase := Deleting, leaseId := None)
                                else old(vms)[u])
                && (forall l :: l in leases <==> l in old(leases) && old(leases)[l].pool != k)
                && (forall l | l in leases :: leases[l] == old(leases)[l])
      ensures r.Ok? <==> CanDeletePool(old(Contents()), k, force)
      ensures Contents() == if r.Ok? then DeletePool(old(Contents()), k) else old(Contents())
      ensures r.Ok? ==> Lists(r.value, VmsOfPool(Contents(), k))
    {
      var before := pools;
      if k !in pools {
        return Err(NotFound);
      }
      pools := pools - {k};
      if !force {
        var leased := CountLeased(k);
        if leased > 0 {
          pools := before;
          return Err(PoolHasLeased);
        }
      }
      vms := map u | u in vms :: if vms[u].pool == k then Condemn(vms[u]) else vms[u];
      leases := map l | l in leases && leases[l].pool != k :: leases[l];
      var listed := Select(map u | u in vms && vms[u].pool == k :: vms[u]);
      return Ok(listed);
    }

    // ---- vms ----

    method CreateVM(v: Vm) returns (r: Result<()>)
      requires Valid()
      modifies `vms
      ensures Valid() && r == (if v.uid in old(vms) then Err(Conflict) else Ok(()))
      ensures vms == if r.Ok? then old(vms)[v.uid := v] else old(vms)
      ensures Contents() == if r.Ok? then PutVm(old(Contents()), v) else old(Contents())
    {
      if v.uid in vms {
        return Err(Conflict);
      }
      vms := vms[v.uid := v];
      return Ok(());
    }

    method GetVM(u: Uid) returns (r: Result<Vm>)
      ensures r == if u in vms then Ok(vms[u]) else Err(NotFound)
    {
      if u !in vms {
        return Err(NotFound);
      }
      return Ok(vms[u]);
    }

    method ListVMsByPool(k: PoolKey) returns (r: seq<Vm>)
      requires Valid()
      ensures forall v | v in r :: v.uid in vms && vms[v.uid] == v && v.pool == k
      ensures forall u | u in vms && vms[u].pool == k :: vms[u] in r
      ensures forall m, n | 0 <= m < n < |r| :: r[m].uid < r[n].uid
      ensures Lists(r, VmsOfPool(Contents(), k))
    {
      ghost var rows := VmsOfPool(Contents(), k);
      r := Select(map u | u in vms && vms[u].pool == k :: vms[u]);
      ListedInOrder(r, rows);
      forall u | u in vms && vms[u].pool == k ensures vms[u] in r {
        assert u in rows;
      }
    }

    method ListVMsByPhase(phase: Phase) returns (r: seq<Vm>)
      requires Valid()
      ensures forall v | v in r :: v.uid in vms && vms[v.uid] == v && v.phase == phase
      ensures forall u | u in vms && vms[u].phase == phase :: vms[u] in r
      ensures forall m, n | 0 <= m < n < |r| :: r[m].uid < r[n].uid
      ensures Lists(r, VmsInPhase(Contents(), phase))
    {
      ghost var rows := VmsInPhase(Contents(), phase);
      r := Select(map u | u in vms && vms[u].phase == phase :: vms[u]);
      ListedInOrder(r, rows);
      forall u | u in vms && vms[u].phase == phase ensures vms[u] in r {
        assert u in rows;
      }
    }

    /** Refused for a missing row, and for one that would leave DELETING. */
    method UpdateVM(v: Vm) returns (r: Result<()>)
      requires Valid()
      modifies `vms
      ensures Valid() && r == (if v.uid !in old(vms) then Err(NotFound)
                               else if old(vms)[v.uid].phase.Deleting? && !v.phase.Deleting? then Err(VmDeleting)
                               else Ok(()))
      ensures vms == if r.Ok? then old(vms)[v.uid := v] else old(vms)
      ensures r.Ok? <==> CanUpdateVm(old(Contents()), v)
      ensures Contents() == if r.Ok? then PutVm(old(Contents()), v) else old(Contents())
    {
      if v.uid in vms && (!vms[v.uid].phase.Deleting? || v.phase.Deleting?) {
        vms := vms[v.uid := v];
        return Ok(());
      }
      return Err(if v.uid in vms then VmDeleting else NotFound);
    }

    /** Removes the row and says, in the same transaction, whether its pool exists. */
    method DeleteVMCheckingPool(u: Uid) returns (r: Result<bool>)
      requires Valid()
      modifies `vms
      ensures Valid() && r == if u in old(vms) then Ok(old(vms)[u].pool in old(pools)) else Err(NotFound)
      ensures vms == old(vms) - {u}
      ensures Contents() == DropVm(old(Contents()), u)
    {
      if u !in vms {
        assert DropVm(Contents(), u) == Contents();
        return Err(NotFound);
      }
      var pool := vms[u].pool;
      vms := vms - {u};
      return Ok(pool in pools);
    }

    method ClaimAvailableVM(k: PoolKey) returns (r: Result<Vm>)
      requires Valid()
      modifies `vms
      ensures Valid() && (r.Ok? <==> exists u :: u in old(vms) && old(vms)[u].pool == k && old(vms)[u].phase.Available?)
      ensures r.Err? ==> r.error == NoAvailableVm && vms == old(vms)
      ensures r.Ok? ==>
                var u := r.value.uid;
                && u in old(vms) && old(vms)[u].pool == k && old(vms)[u].phase.Available?
                && r.value == old(vms)[u].(phase := Leased) && vms == old(vms)[u := r.value]
      ensures r.Ok? <==> exists u :: CanClaim(old(Contents()), k, u)
      ensures r.Ok? ==>
                && CanClaim(old(Contents()), k, r.value.uid)
                && Contents() == PutVm(old(Contents()), r.value)
    {
      var uids := Ordered(vms.Keys);
      for n := 0 to |uids|
        invariant forall m | 0 <= m < n :: !CanClaim(Contents(), k, uids[m])
        invariant Valid() && Contents() == old(Contents())
      {
        if vms[uids[n]].pool == k && vms[uids[n]].phase.Available? {
          var v := vms[uids[n]].(phase := Leased);
          vms := vms[uids[n] := v];
          assert CanClaim(old(Contents()), k, uids[n]);
          return Ok(v);
        }
      }
      forall u ensures !CanClaim(Contents(), k, u) {
        assert u in vms ==> u in uids;
      }
      return Err(NoAvailableVm);
    }

    // ---- leases ----

    /** The VM write and the lease insert commit together or not at all. */
    method LeaseVM(v: Vm, l: Lease) returns (r: Result<()>)
      requires Valid()
      modifies `vms, `leases
      ensures Valid() && (r.Err? ==> vms == old(vms) && leases == old(leases))
      ensures r.Ok? ==> vms == old(vms)[v.uid := v] && leases == old(leases)[l.id := l]
      ensures v.uid !in old(vms) <==> r == Err(NotFound)
      ensures v.uid in old(vms) && old(vms)[v.uid].phase.Deleting? && !v.phase.Deleting? <==> r == Err(VmDeleting)
      ensures r == Err(DuplicateRequestId) ==>
                l.request.Some? && exists m :: m in old(leases) && old(leases)[m].request == l.request
      ensures r.Ok? ==>
                && l.id !in old(leases)
                && (l.request.None? || forall m | m in old(leases) :: old(leases)[m].request != l.request)
      ensures r.Err? ==> r.error in {NotFound, VmDeleting, DuplicateRequestId, Conflict}
      ensures r == Err(Conflict) ==> l.id in old(leases)
      ensures r.Ok? <==> CanUpdateVm(old(Contents()), v) && CanInsertLease(old(Contents()), l)
      ensures r.Ok? ==> Contents() == PutLease(PutVm(old(Contents()), v), l)
    {
      var before := vms;
      var updated := UpdateVM(v);
      if updated.Err? {
        return updated;
      }
      if l.id in leases {
        vms := before;
        return Err(Conflict);
      }
      var ids := Ordered(leases.Keys);
      for n := 0 to |ids|
        invariant forall m | 0 <= m < n :: l.request.None? || leases[ids[m]].request != l.request
        invariant Valid() && Contents() == PutVm(old(Contents()), v)
      {
        if l.request.Some? && leases[ids[n]].request == l.request {
          vms := before;
          assert ids[n] in old(leases) && old(leases)[ids[n]].request == l.request;
          return Err(DuplicateRequestId);
        }
      }
      forall m | m in leases ensures l.request.None? || leases[m].request != l.request {
        assert m in ids;
      }
      leases := leases[l.id := l];
      return Ok(());
    }

    method GetLease(id: LeaseId) returns (r: Result<Lease>)
      ensures r == if id in leases then Ok(leases[id]) else Err(NotFound)
    {
      if id !in leases {
        return Err(NotFound);
      }
      return Ok(leases[id]);
    }

    /** No request id matches nothing, as NULL does. */
    method GetLeaseByRequestID(request: Option<RequestId>) returns (r: Result<Lease>)
      requires Valid()
      ensures r.Ok? <==> request.Some? && exists m :: m in leases && leases[m].request == request
      ensures r.Ok? <==> RequestTaken(Contents(), request)
      ensures r.Err? ==> r.error == NotFound
      ensures r.Ok? ==> r.value.id in leases && leases[r.value.id] == r.value && r.value.request == request
    {
      var ids := Ordered(leases.Keys);
      for n := 0 to |ids|
        invariant forall m | 0 <= m < n :: request.None? || leases[ids[m]].request != request
      {
        if request.Some? && leases[ids[n]].request == request {
          return Ok(leases[ids[n]]);
        }
      }
      forall m | m in leases ensures request.None? || leases[m].request != request {
        assert m in ids;
      }
      return Err(NotFound);
    }

    method UpdateLeaseHeartbeat(id: LeaseId, at: Time, expiresAt: Time) returns (r: Result<()>)
      requires Valid()
      modifies `leases
      ensures Valid() && r == if id in old(leases) then Ok(()) else Err(NotFound)
      ensures r.Err? ==> leases == old(leases)
      ensures r.Ok? ==> id in leases && leases == old(leases)[id := leases[id]]
      ensures r.Ok? ==>
                var l, m := old(leases)[id], leases[id];
                && m.heartbeatAt == at && m.expiresAt == expiresAt
                && m.id == l.id && m.vm == l.vm && m.pool == l.pool && m.claimedAt == l.claimedAt
                && m.request == l.request
      ensures Contents() ==
              if r.Ok? then PutLease(old(Contents()), Renewed(old(leases)[id], at, expiresAt)) else old(Contents())
    {
      if id !in leases {
        return Err(NotFound);
      }
      leases := leases[id := leases[id].(heartbeatAt := at, expiresAt := expiresAt)];
      return Ok(());
    }

    method DeleteLease(id: LeaseId) returns (r: Result<()>)
      requires Valid()
      modifies `leases
      ensures Valid() && r == if id in old(leases) then Ok(()) else Err(NotFound)
      ensures leases == old(leases) - {id}
      ensures Contents() == DropLease(old(Contents()), id)
    {
      if id !in leases {
        assert DropLease(Contents(), id) == Contents();
        return Err(NotFound);
      }
      leases := leases - {id};
      return Ok(());
    }

    method ListExpiredLeases(now: Time) returns (r: seq<Lease>)
      requires Valid()
      ensures forall l | l in r :: l.id in leases && leases[l.id] == l && l.expiresAt <= now
      ensures forall id | id in leases && leases[id].expiresAt <= now :: leases[id] in r
      ensures forall m, n | 0 <= m < n < |r| :: r[m].expiresAt <= r[n].expiresAt && r[m].id != r[n].id
      ensures ListsLeases(r, LeasesExpiredBy(Contents(), now))
    {
      ghost var rows := LeasesExpiredBy(Contents(), now);
      r := SelectLeases(map l | l in leases && leases[l].expiresAt <= now :: leases[l]);
      forall id | id in leases && leases[id].expiresAt <= now ensures leases[id] in r {
        assert id in rows;
      }
    }

    /** Re-checks the expiry in the transaction that deletes. */
    method DeleteLeaseIfExpired(id: LeaseId, now: Time) returns (r: Result<Lease>)
      requires Valid()
      modifies `leases
      ensures Valid() && r == (if id !in old(leases) then Err(NotFound)
                               else if old(leases)[id].expiresAt > now then Err(LeaseNotExpired)
                               else Ok(old(leases)[id]))
      ensures leases == if r.Ok? then old(leases) - {id} else old(leases)
      ensures r.Ok? <==> IsExpired(old(Contents()), id, now)
      ensures Contents() == if r.Ok? then DropLease(old(Contents()), id) else old(Contents())
    {
      if id !in leases {
        return Err(NotFound);
      }
      var l := leases[id];
      if l.expiresAt > now {
        return Err(LeaseNotExpired);
      }
      leases := leases - {id};
      return Ok(l);
    }

    // ---- hosts and placements ----

    method CreateHost(h: HostName) returns (r: Result<()>)
      requires Valid()
      modifies `hosts
      ensures Valid() && r == if h in old(hosts) then Err(HostExists) else Ok(())
      ensures hosts == if r.Ok? then old(hosts)[h := Host(false, None, None, false, None)] else old(hosts)
      ensures Contents() ==
              if r.Ok? then PutHost(old(Contents()), h, Host(false, None, None, false, None)) else old(Contents())
    {
      if h in hosts {
        return Err(HostExists);
      }
      hosts := hosts[h := Host(false, None, None, false, None)];
      return Ok(());
    }

    method CountVMsByHost(h: HostName) returns (count: nat)
      requires Valid()
      ensures count == |set u | u in vms && vms[u].host == h| + |set p | p in placements && placements[p].host == h|
      ensures count == CountVmsByHost(Contents(), h)
    {
      var rows := map u | u in vms && vms[u].host == h :: vms[u];
      var here := Select(rows);
      ListedSize(here, rows);
      assert rows.Keys == RowsOn(Contents(), h);
      var reserved := set p | p in placements && placements[p].host == h;
      return |here| + |reserved|;
    }

    method DeleteHost(h: HostName) returns (r: Result<()>)
      requires Valid()
      modifies `hosts
      ensures Valid() && (r == Err(NotFound) <==> h !in old(hosts))
      ensures r.Ok? <==>
              && h in old(hosts) && (forall k | k in pools :: h !in pools[k].hosts)
              && (forall u | u in vms :: vms[u].host != h) && (forall p | p in placements :: placements[p].host != h)
      ensures r.Err? && h in old(hosts) ==>
                r == Err(HostInUse(|set u | u in vms && vms[u].host == h|
                                   + |set p | p in placements && placements[p].host == h|))
      ensures hosts == if r.Ok? then old(hosts) - {h} else old(hosts)
      ensures r.Ok? <==> CanDeleteHost(old(Contents()), h)
      ensures Contents() == if r.Ok? then DropHost(old(Contents()), h) else old(Contents())
    {
      if h !in hosts {
        return Err(NotFound);
      }
      var named := exists k :: k in pools && h in pools[k].hosts;
      var count := CountVMsByHost(h);
      NobodyOn(Contents(), h);
      if named || count > 0 {
        return Err(HostInUse(count));
      }
      hosts := hosts - {h};
      return Ok(());
    }

    method SetHostCordoned(h: HostName, cordoned: bool, reason: Option<string>, now: Time) returns (r: Result<Host>)
      requires Valid()
      modifies `hosts
      ensures Valid() && (r.Ok? <==> h in old(hosts)) && (r.Err? ==> r.error == NotFound)
      ensures hosts == if r.Ok? then old(hosts)[h := r.value] else old(hosts)
      ensures r.Ok? && cordoned ==>
                && r.value.cordoned && r.value.reason == reason && r.value.cordonedAt == Some(now)
                && r.value.draining == old(hosts)[h].draining && r.value.drainingAt == old(hosts)[h].drainingAt
      ensures r.Ok? && !cordoned ==>
                && !r.value.cordoned && r.value.reason.None? && r.value.cordonedAt.None?
                && !r.value.draining && r.value.drainingAt.None?
      ensures r.Ok? ==>
                && r.value == Cordon(old(hosts)[h], cordoned, reason, now)
                && Contents() == PutHost(old(Contents()), h, r.value)
    {
      if h !in hosts {
        return Err(NotFound);
      }
      var row := hosts[h];
      row := row.(cordoned := cordoned, reason := if cordoned then reason else None,
                  cordonedAt := if cordoned then Some(now) else None);
      if !cordoned {
        row := row.(draining := false, drainingAt := None);
      }
      hosts := hosts[h := row];
      return Ok(row);
    }

    /** UPDATE ... RETURNING, then sorted by uid. */
    method MarkUnleasedVMsDeleting(on: set<HostName>) returns (marked: seq<Vm>)
      requires Valid()
      modifies `vms
      ensures Valid() && vms.Keys == old(vms).Keys
      ensures forall u | u in vms ::
                var v := old(vms)[u];
                vms[u] == if v.host in on && (v.phase.Provisioning? || v.phase.CreateHookRunning? || v.phase.Available?
                                              || v.phase.Quarantined? || v.phase.Failed?)
                          then v.(phase := Deleting, leaseId := None) else v
      ensures forall v | v in marked ::
                v.uid in vms && vms[v.uid] == v && !old(vms)[v.uid].phase.Deleting? && v.phase.Deleting?
      ensures forall u | u in vms && vms[u] != old(vms)[u] :: vms[u] in marked
      ensures Contents() == MarkUnleased(old(Contents()), on)
      ensures Lists(marked, MarkedBy(old(Contents()), on))
    {
      var hit := map u | u in vms && vms[u].host in on && Unleased(vms[u]) :: Condemn(vms[u]);
      assert hit == MarkedBy(Contents(), on);
      vms := map u | u in vms :: if u in hit then hit[u] else vms[u];
      marked := Select(hit);
      MarkingSpares(old(Contents()), on);
      MarkedAreListed(old(Contents()), on, marked);
    }

    method DrainHost(h: HostName, reason: Option<string>, now: Time) returns (r: Result<seq<Vm>>)
      requires Valid()
      modifies `hosts, `vms
      ensures Valid() && (r.Ok? <==> h in old(hosts))
      ensures r.Err? ==> r.error == NotFound && hosts == old(hosts) && vms == old(vms)
      ensures r.Ok? ==>
                var g := old(hosts)[h];
                && h in hosts && hosts == old(hosts)[h := hosts[h]] && hosts[h].cordoned && hosts[h].draining
                && hosts[h].reason == (if reason.Some? then reason else g.reason)
                && hosts[h].cordonedAt == (if g.cordoned then g.cordonedAt else Some(now))
                && hosts[h].drainingAt == (if g.draining then g.drainingAt else Some(now))
      ensures r.Ok? ==>
                && vms.Keys == old(vms).Keys
                && forall u | u in vms ::
                     var v := old(vms)[u];
                     vms[u] == if v.host == h && (v.phase.Provisioning? || v.phase.CreateHookRunning?
                                                  || v.phase.Available? || v.phase.Quarantined? || v.phase.Failed?)
                               then v.(phase := Deleting, leaseId := None) else v
      ensures r.Ok? ==>
                && Contents() == Transactions.DrainHost(old(Contents()), h, reason, now)
                && Lists(r.value, MarkedBy(old(Contents()), {h}))
    {
      if h !in hosts {
        return Err(NotFound);
      }
      var row := hosts[h];
      if reason.Some? {
        row := row.(reason := reason);
      }
      if !row.cordoned {
        row := row.(cordonedAt := Some(now));
      }
      if !row.draining {
        row := row.(drainingAt := Some(now));
      }
      row := row.(cordoned := true, draining := true);
      hosts := hosts[h := row];
      assert row == Drained(old(hosts)[h], reason, now);
      ghost var cordoned := Contents();
      var marked := MarkUnleasedVMsDeleting({h});
      assert Contents() == MarkUnleased(cordoned, {h}) && cordoned == old(Contents()).(hosts := cordoned.hosts);
      return Ok(marked);
    }

    method MarkDrainingHostsVMsDeleting() returns (marked: seq<Vm>)
      requires Valid()
      modifies `vms
      ensures Valid() && vms.Keys == old(vms).Keys
      ensures forall u | u in vms ::
                var v := old(vms)[u];
                vms[u] == if v.host in hosts && hosts[v.host].draining
                             && (v.phase.Provisioning? || v.phase.CreateHookRunning? || v.phase.Available?
                                 || v.phase.Quarantined? || v.phase.Failed?)
                          then v.(phase := Deleting, leaseId := None) else v
      ensures Contents() == MarkUnleased(old(Contents()), DrainingHosts(old(Contents())))
      ensures Lists(marked, MarkedBy(old(Contents()), DrainingHosts(old(Contents()))))
    {
      marked := MarkUnleasedVMsDeleting(set h | h in hosts && hosts[h].draining);
    }

    /** Cordon check and insert in one transaction. */
    method ReservePlacement(id: PlacementId, h: HostName, k: PoolKey) returns (r: Result<()>)
      requires Valid()
      modifies `placements
      ensures Valid() && r == (if h !in hosts then Err(HostNotRegistered)
                               else if hosts[h].cordoned then Err(HostCordoned)
                               else if id in old(placements) then Err(Conflict) else Ok(()))
      ensures placements == if r.Ok? then old(placements)[id := Placement(h, k)] else old(placements)
      ensures r.Ok? <==> CanReserve(old(Contents()), id, h)
      ensures Contents() == if r.Ok? then Reserve(old(Contents()), id, Placement(h, k)) else old(Contents())
    {
      if h !in hosts {
        return Err(HostNotRegistered);
      }
      if hosts[h].cordoned {
        return Err(HostCordoned);
      }
      if id in placements {
        return Err(Conflict);
      }
      placements := placements[id := Placement(h, k)];
      return Ok(());
    }

    method ReleasePlacement(id: PlacementId)
      requires Valid()
      modifies `placements
      ensures Valid() && placements == old(placements) - {id}
      ensures Contents() == Unreserve(old(Contents()), id)
    {
      placements := placements - {id};
    }

    method ClearPlacements()
      requires Valid()
      modifies `placements
      ensures Valid() && placements == map[]
    {
      placements := map[];
    }

    // ---- events ----

    method AppendEvent(e: Event)
      requires Valid()
      modifies `events
      ensures Valid() && events == old(events) + [e]
      ensures Contents() == Emit(old(Contents()), e)
    {
      events := events + [e];
    }
  }

  /** A host counts zero exactly when no row and no reservation names it. */
  lemma NobodyOn(db: Db, h: HostName)
    ensures |set u | u in db.vms && db.vms[u].host == h|
            + |set p | p in db.placements && db.placements[p].host == h| == 0
            <==> (forall u | u in db.vms :: db.vms[u].host != h)
                 && (forall p | p in db.placements :: db.placements[p].host != h)
  {
    var rows := set u | u in db.vms && db.vms[u].host == h;
    var reserved := set p | p in db.placements && db.placements[p].host == h;
    if u :| u in db.vms && db.vms[u].host == h {
      assert u in rows;
    } else {
      NoMemberNoSet(rows);
    }
    if p :| p in db.placements && db.placements[p].host == h {
      assert p in reserved;
    } else {
      NoMemberNoSet(reserved);
    }
  }

  /** Marking unleased rows, by phases: a row LEASED, running its pre-lease hooks or already DELETING is
      left as it is. */
  lemma MarkingSpares(db: Db, on: set<HostName>)
    ensures MarkUnleased(db, on).vms.Keys == db.vms.Keys
    ensures forall u | u in db.vms ::
              var v := db.vms[u];
              MarkUnleased(db, on).vms[u] ==
              if v.host in on && (v.phase.Provisioning? || v.phase.CreateHookRunning? || v.phase.Available?
                                  || v.phase.Quarantined? || v.phase.Failed?)
              then v.(phase := Deleting, leaseId := None) else v
    ensures forall u :: u in MarkedBy(db, on) <==> u in db.vms && MarkUnleased(db, on).vms[u] != db.vms[u]
    ensures forall u | u in MarkedBy(db, on) ::
              MarkedBy(db, on)[u] == MarkUnleased(db, on).vms[u] && !db.vms[u].phase.Deleting?
  {
  }

  lemma MarkedAreListed(db: Db, on: set<HostName>, marked: seq<Vm>)
    requires Lists(marked, MarkedBy(db, on)) && forall u | u in db.vms :: db.vms[u].uid == u
    ensures forall v | v in marked ::
              && v.uid in db.vms && MarkUnleased(db, on).vms[v.uid] == v
              && !db.vms[v.uid].phase.Deleting? && v.phase.Deleting?
    ensures forall u | u in db.vms && MarkUnleased(db, on).vms[u] != db.vms[u] :: MarkUnleased(db, on).vms[u] in marked
  {
    hide MarkUnleased, MarkedBy;
    MarkingSpares(db, on);
    forall u | u in db.vms && MarkUnleased(db, on).vms[u] != db.vms[u] ensures MarkUnleased(db, on).vms[u] in marked {
      assert u in MarkedBy(db, on);
    }
  }

  /** A listing has as many rows as the part of the table it lists. */
  lemma ListedSize(r: seq<Vm>, rows: map<Uid, Vm>)
    requires Lists(r, rows) && forall u | u in rows :: rows[u].uid == u
    ensures |r| == |rows.Keys|
  {
    OrderSize(Uids(r));
    forall u ensures u in Uids(r) <==> u in rows {
      if u in rows {
        var i :| 0 <= i < |r| && r[i] == rows[u];
        assert Uids(r)[i] == u;
      }
      if u in Uids(r) {
        var i :| 0 <= i < |r| && Uids(r)[i] == u;
        assert r[i] in r;
      }
    }
    assert (set k | k in Uids(r)) == rows.Keys;
  }
}
