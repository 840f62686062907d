/** The reconciler's own code: CountVMs' loop over a listing, the Provision calls of provisionN, and
    that a pass fills the pool. */
module Reconcile {
  import opened Records
  import opened Transactions
  import opened Replenishment
  import opened Stores
  import opened Sets
  import opened Provisioners

  /** How many of the first n rows satisfy f. */
  ghost function Hits(vms: seq<Vm>, n: nat, f: Vm -> bool): nat
    requires n <= |vms|
  {
    if n == 0 then 0 else Hits(vms, n - 1, f) + if f(vms[n - 1]) then 1 else 0
  }

  /** t is the uids of those of the first n rows that satisfy f. */
  ghost predicate Picks(vms: seq<Vm>, n: nat, f: Vm -> bool, t: set<Uid>)
    requires n <= |vms|
  {
    forall u :: u in t <==> exists m | 0 <= m < n :: vms[m].uid == u && f(vms[m])
  }

  lemma {:induction false} Picked(vms: seq<Vm>, rows: map<Uid, Vm>, n: nat, f: Vm -> bool) returns (t: set<Uid>)
    requires Lists(vms, rows) && n <= |vms|
    ensures Picks(vms, n, f, t) && |t| == Hits(vms, n, f)
  {
    if n == 0 {
      t := {};
    } else {
      t := Picked(vms, rows, n - 1, f);
      forall m | 0 <= m < n - 1 ensures vms[m].uid != vms[n - 1].uid {
        ListedApart(vms, rows, m, n - 1);
      }
      if f(vms[n - 1]) {
        t := t + {vms[n - 1].uid};
      }
    }
  }

  /** Counting a listing row by row counts the keyed rows it lists. */
  lemma HitsCount(vms: seq<Vm>, rows: map<Uid, Vm>, f: Vm -> bool)
    requires Lists(vms, rows) && forall u | u in rows :: rows[u].uid == u
    ensures Hits(vms, |vms|, f) == |set u | u in rows && f(rows[u])|
  {
    var t := Picked(vms, rows, |vms|, f);
    var all := set u | u in rows && f(rows[u]);
    forall u ensures u in t <==> u in all {
      if u in all {
        assert rows[u] in vms;
      }
      if u in t {
        var m :| 0 <= m < |vms| && vms[m].uid == u && f(vms[m]);
        assert vms[m] in vms;
      }
    }
    SameSize(t, all);
  }

  /** The counts after the first n rows. */
  ghost function CountsUpTo(vms: seq<Vm>, n: nat, committed: set<LeaseId>): VmCounts
    requires n <= |vms|
  {
    VmCounts(
      Hits(vms, n, (v: Vm) => v.phase.Available?),
      Hits(vms, n, (v: Vm) => CountsAsClaiming(v, committed)),
      Hits(vms, n, (v: Vm) => CountsAsLeased(v, committed)),
      Hits(vms, n, (v: Vm) => CountsAsProvisioning(v)),
      Hits(vms, n, (v: Vm) => v.phase.Quarantined?))
  }

  lemma AllCounted(vms: seq<Vm>, rows: map<Uid, Vm>, committed: set<LeaseId>)
    requires Lists(vms, rows) && forall u | u in rows :: rows[u].uid == u
    ensures CountsUpTo(vms, |vms|, committed) == Counts(rows, committed)
  {
    var available := (v: Vm) => v.phase.Available?;
    HitsCount(vms, rows, available);
    SameSize(set u | u in rows && available(rows[u]), set u | u in rows && rows[u].phase.Available?);
    var claiming := (v: Vm) => CountsAsClaiming(v, committed);
    HitsCount(vms, rows, claiming);
    SameSize(set u | u in rows && claiming(rows[u]), set u | u in rows && CountsAsClaiming(rows[u], committed));
    var leased := (v: Vm) => CountsAsLeased(v, committed);
    HitsCount(vms, rows, leased);
    SameSize(set u | u in rows && leased(rows[u]), set u | u in rows && CountsAsLeased(rows[u], committed));
    var provisioning := (v: Vm) => CountsAsProvisioning(v);
    HitsCount(vms, rows, provisioning);
    SameSize(set u | u in rows && provisioning(rows[u]), set u | u in rows && CountsAsProvisioning(rows[u]));
    var quarantined := (v: Vm) => v.phase.Quarantined?;
    HitsCount(vms, rows, quarantined);
    SameSize(set u | u in rows && quarantined(rows[u]), set u | u in rows && rows[u].phase.Quarantined?);
  }

  lemma CountsByPhase(rows: map<Uid, Vm>, committed: set<LeaseId>)
    ensures
      var c := Counts(rows, committed);
      && c.available == |set u | u in rows && rows[u].phase.Available?|
      && c.claiming == |set u | u in rows && (rows[u].phase.PreLeaseHookRunning? || (rows[u].phase.Leased?
                                && !(rows[u].leaseId.Some? && rows[u].leaseId.value in committed)))|
      && c.leased == |set u | u in rows && rows[u].phase.Leased?
                              && rows[u].leaseId.Some? && rows[u].leaseId.value in committed|
      && c.provisioning == |set u | u in rows && (rows[u].phase.Provisioning? || rows[u].phase.CreateHookRunning?)|
      && c.quarantined == |set u | u in rows && rows[u].phase.Quarantined?|
  {
    SameSize(set u | u in rows && CountsAsClaiming(rows[u], committed),
             set u | u in rows && (rows[u].phase.PreLeaseHookRunning? || (rows[u].phase.Leased?
                                && !(rows[u].leaseId.Some? && rows[u].leaseId.value in committed))));
    SameSize(set u | u in rows && CountsAsLeased(rows[u], committed),
             set u | u in rows && rows[u].phase.Leased? && rows[u].leaseId.Some? && rows[u].leaseId.value in committed);
    SameSize(set u | u in rows && CountsAsProvisioning(rows[u]),
             set u | u in rows && (rows[u].phase.Provisioning? || rows[u].phase.CreateHookRunning?));
  }

  /** The loop of CountVMs, over the VM listing read first and the lease ids read after it. */
  method CountVMs(vms: seq<Vm>, committed: set<LeaseId>, ghost rows: map<Uid, Vm>) returns (c: VmCounts)
    requires Lists(vms, rows) && forall u | u in rows :: rows[u].uid == u
    ensures c.available == |set u | u in rows && rows[u].phase.Available?|
    ensures c.claiming == |set u | u in rows && (rows[u].phase.PreLeaseHookRunning? || (rows[u].phase.Leased?
                                && !(rows[u].leaseId.Some? && rows[u].leaseId.value in committed)))|
    ensures c.leased == |set u | u in rows && rows[u].phase.Leased?
                              && rows[u].leaseId.Some? && rows[u].leaseId.value in committed|
    ensures c.provisioning == |set u | u in rows && (rows[u].phase.Provisioning? || rows[u].phase.CreateHookRunning?)|
    ensures c.quarantined == |set u | u in rows && rows[u].phase.Quarantined?|
    ensures c == Counts(rows, committed)
  {
    c := VmCounts(0, 0, 0, 0, 0);
    for n := 0 to |vms|
      invariant c == CountsUpTo(vms, n, committed)
    {
      var v := vms[n];
      match v.phase {
        case Available => c := c.(available := c.available + 1);
        case PreLeaseHookRunning => c := c.(claiming := c.claiming + 1);
        case Leased =>
          if v.leaseId.Some? && v.leaseId.value in committed {
            c := c.(leased := c.leased + 1);
          } else {
            c := c.(claiming := c.claiming + 1);
          }
        case Provisioning => c := c.(provisioning := c.provisioning + 1);
        case CreateHookRunning => c := c.(provisioning := c.provisioning + 1);
        case Quarantined => c := c.(quarantined := c.quarantined + 1);
        case Deleting =>
        case Failed =>
      }
    }
    AllCounted(vms, rows, committed);
    CountsByPhase(rows, committed);
  }

  // ---- provisionN ----

  /** The store after the first n Provision calls, each run without interruption. */
  ghost function Provisioned(db: Db, spec: PoolSpec, ids: seq<PlacementId>, worlds: seq<World>, n: nat): Db
    requires n <= |ids| && n <= |worlds|
  {
    if n == 0 then db else Outcome(Provisioned(db, spec, ids, worlds, n - 1), spec, ids[n - 1], worlds[n - 1])
  }

  /** The uids flintlock will answer with are new, and all different. */
  ghost predicate AllFresh(used: set<Uid>, worlds: seq<World>) {
    && (forall m | 0 <= m < |worlds| && worlds[m].created.Some? :: worlds[m].created.value !in used)
    && (forall m, n | 0 <= m < n < |worlds| && worlds[m].created.Some? :: worlds[m].created != worlds[n].created)
  }

  /** How many calls are started: for a static-network template, one if the pool has no row in any
      phase, otherwise none. */
  ghost function Started(db: Db, spec: PoolSpec, n: int): nat {
    if n <= 0 then 0
    else if !spec.staticNetwork then n
    else if VmsOfPool(db, spec.key) == map[] then 1 else 0
  }

  method ProvisionN(p: Provisioner, spec: PoolSpec, n: int, ids: seq<PlacementId>, worlds: seq<World>)
    requires p.st.Valid() && |ids| == |worlds| && n <= |worlds|
    requires AllFresh(p.st.vms.Keys + p.flint.live.Keys, worlds)
    requires forall m | 0 <= m < |ids| :: ids[m] !in p.st.placements
    modifies p.st`vms, p.st`placements, p.st`events, p.flint
    ensures p.st.Valid() && p.st.placements == old(p.st.placements)
    ensures Started(old(p.st.Contents()), spec, n) <= |worlds|
    ensures p.st.Contents() ==
              Provisioned(old(p.st.Contents()), spec, ids, worlds, Started(old(p.st.Contents()), spec, n))
  {
    ghost var db := p.st.Contents();
    var wanted := n;
    if n > 0 && spec.staticNetwork {
      var vms := p.st.ListVMsByPool(spec.key);
      EmptyListing(vms, VmsOfPool(p.st.Contents(), spec.key));
      wanted := if |vms| > 0 then 0 else 1;
    }
    if wanted <= 0 {
      return;
    }
    for i := 0 to wanted
      invariant p.st.Valid() && p.st.Contents() == Provisioned(db, spec, ids, worlds, i)
      invariant p.st.placements == db.placements
      invariant forall m | i <= m < |worlds| && worlds[m].created.Some? ::
                  worlds[m].created.value !in p.st.vms && worlds[m].created.value !in p.flint.live
    {
      ProvisionSettles(p.st.Contents(), spec, ids[i], worlds[i]);
      var ok := p.Provision(spec, ids[i], worlds[i]);
    }
  }

  lemma EmptyListing(r: seq<Vm>, rows: map<Uid, Vm>)
    requires Lists(r, rows)
    ensures |r| == 0 <==> rows == map[]
  {
    if |r| > 0 {
      assert r[0] in r;
    } else {
      var none: map<Uid, Vm> := map[];
      forall u ensures u in rows <==> u in none {}
      SameMap(rows, none);
    }
  }

  // ---- a pass fills the pool ----

  /** Call m of a pass succeeds: it picks a host that takes VMs, flintlock creates, and all hooks do. */
  ghost predicate Succeeds(db: Db, id: PlacementId, w: World) {
    w.host.Some? && CanReserve(db, id, w.host.value) && w.created.Some? && Booted(w)
  }

  lemma OneMoreAvailable(rows: map<Uid, Vm>, v: Vm, committed: set<LeaseId>)
    requires v.uid !in rows && v.phase.Available?
    ensures Counts(rows[v.uid := v], committed) ==
              Counts(rows, committed).(available := Counts(rows, committed).available + 1)
  {
    var more := rows[v.uid := v];
    UnionSize(set u | u in more && more[u].phase.Available?, set u | u in rows && rows[u].phase.Available?, {v.uid});
    SameSize(set u | u in more && CountsAsClaiming(more[u], committed),
             set u | u in rows && CountsAsClaiming(rows[u], committed));
    SameSize(set u | u in more && CountsAsLeased(more[u], committed),
             set u | u in rows && CountsAsLeased(rows[u], committed));
    SameSize(set u | u in more && CountsAsProvisioning(more[u]), set u | u in rows && CountsAsProvisioning(rows[u]));
    SameSize(set u | u in more && more[u].phase.Quarantined?, set u | u in rows && rows[u].phase.Quarantined?);
  }

  /** The part of the tables a successful call leaves as it is, and the row it adds. */
  lemma SucceededRow(db: Db, spec: PoolSpec, id: PlacementId, w: World)
    requires Succeeds(db, id, w) && w.created.value !in db.vms
    ensures
      var v := NewVm(spec, w.created.value, w.host.value).(phase := Available);
      var db' := Outcome(db, spec, id, w);
      db'.vms == db.vms[v.uid := v] && db'.hosts == db.hosts && db'.placements == db.placements
  {
  }

  lemma {:induction false} PassCounts(
    db: Db, spec: PoolSpec, ids: seq<PlacementId>, worlds: seq<World>, n: nat, committed: set<LeaseId>)
    requires n <= |ids| && n <= |worlds| && AllFresh(db.vms.Keys, worlds)
    requires forall m | 0 <= m < n :: Succeeds(db, ids[m], worlds[m])
    ensures
      var db' := Provisioned(db, spec, ids, worlds, n);
      var c := Counts(VmsOfPool(db, spec.key), committed);
      && db'.hosts == db.hosts && db'.placements == db.placements
      && (forall m | n <= m < |worlds| && worlds[m].created.Some? :: worlds[m].created.value !in db'.vms)
      && Counts(VmsOfPool(db', spec.key), committed) == c.(available := c.available + n)
  {
    if n > 0 {
      PassCounts(db, spec, ids, worlds, n - 1, committed);
      var mid := Provisioned(db, spec, ids, worlds, n - 1);
      assert Succeeds(db, ids[n - 1], worlds[n - 1]);
      SucceededRow(mid, spec, ids[n - 1], worlds[n - 1]);
      var v := NewVm(spec, worlds[n - 1].created.value, worlds[n - 1].host.value).(phase := Available);
      OneMoreAvailable(VmsOfPool(mid, spec.key), v, committed);
      SameMap(VmsOfPool(Provisioned(db, spec, ids, worlds, n), spec.key), VmsOfPool(mid, spec.key)[v.uid := v]);
    }
  }

  /** A LEASED row whose lease, a lease of the pool, has been committed. */
  ghost predicate IsLeasedOut(db: Db, k: PoolKey, v: Vm) {
    && v.phase.Leased? && v.leaseId.Some?
    && v.leaseId.value in db.leases && db.leases[v.leaseId.value].pool == k
  }

  /** The pool's VMs by phase: in the warm pool, on their way there, or taken by a claim that has not
      committed; those leased out; and those in the warm pool alone. */
  ghost function Ready(db: Db, k: PoolKey): set<Uid> {
    set u | u in db.vms && db.vms[u].pool == k
            && (db.vms[u].phase.Available? || db.vms[u].phase.PreLeaseHookRunning? || db.vms[u].phase.Provisioning?
                || db.vms[u].phase.CreateHookRunning? || (db.vms[u].phase.Leased? && !IsLeasedOut(db, k, db.vms[u])))
  }

  ghost function LeasedOut(db: Db, k: PoolKey): set<Uid> {
    set u | u in db.vms && db.vms[u].pool == k && IsLeasedOut(db, k, db.vms[u])
  }

  ghost function Warm(db: Db, k: PoolKey): set<Uid> {
    set u | u in db.vms && db.vms[u].pool == k && db.vms[u].phase.Available?
  }

  ghost function Committed(db: Db, k: PoolKey): set<LeaseId> {
    set l | l in db.leases && db.leases[l].pool == k
  }

  lemma RowKinds(db: Db, k: PoolKey, u: Uid)
    requires u in VmsOfPool(db, k)
    ensures CountsAsLeased(db.vms[u], Committed(db, k)) <==> u in LeasedOut(db, k)
    ensures CountsAsClaiming(db.vms[u], Committed(db, k)) <==>
            db.vms[u].phase.PreLeaseHookRunning? || (db.vms[u].phase.Leased? && u !in LeasedOut(db, k))
    ensures u in Ready(db, k) <==>
            || db.vms[u].phase.Available? || CountsAsClaiming(db.vms[u], Committed(db, k))
            || CountsAsProvisioning(db.vms[u])
  {
  }

  lemma RowsCounted(db: Db, k: PoolKey)
    ensures
      var c := Counts(VmsOfPool(db, k), Committed(db, k));
      && |Warm(db, k)| == c.available && |LeasedOut(db, k)| == c.leased
      && |Ready(db, k)| == c.available + c.claiming + c.provisioning
  {
    hide Committed;
    var rows, committed := VmsOfPool(db, k), Committed(db, k);
    var available := set u | u in rows && rows[u].phase.Available?;
    var claiming := set u | u in rows && CountsAsClaiming(rows[u], committed);
    var leased := set u | u in rows && CountsAsLeased(rows[u], committed);
    var provisioning := set u | u in rows && CountsAsProvisioning(rows[u]);
    forall u ensures (u in Warm(db, k) <==> u in available) && (u in LeasedOut(db, k) <==> u in leased)
                     && (u in Ready(db, k) <==> u in available + claiming || u in provisioning) {
      if u in rows {
        RowKinds(db, k, u);
      }
    }
    SameSize(Warm(db, k), available);
    SameSize(LeasedOut(db, k), leased);
    UnionSize(available + claiming, available, claiming);
    UnionSize(Ready(db, k), available + claiming, provisioning);
  }

  lemma OnlyItsOwn(db: Db, spec: PoolSpec, id: PlacementId, w: World, u: Uid)
    requires u !in db.vms && w.created != Some(u) && (w.created.Some? ==> w.created.value !in db.vms)
    ensures u !in Outcome(db, spec, id, w).vms
  {
    hide Outcome;
    ProvisionSettles(db, spec, id, w);
  }

  /** No Provision call changes a row that is there, whatever happens to it. */
  lemma {:induction false} ProvisionedKeeps(db: Db, spec: PoolSpec, ids: seq<PlacementId>, worlds: seq<World>, n: nat)
    requires n <= |ids| && n <= |worlds| && AllFresh(db.vms.Keys, worlds)
    ensures
      var db' := Provisioned(db, spec, ids, worlds, n);
      && db' == db.(vms := db'.vms, events := db'.events)
      && (forall u | u in db.vms :: u in db'.vms && db'.vms[u] == db.vms[u])
      && (forall m | n <= m < |worlds| && worlds[m].created.Some? :: worlds[m].created.value !in db'.vms)
  {
    hide Outcome;
    if n > 0 {
      ProvisionedKeeps(db, spec, ids, worlds, n - 1);
      var mid := Provisioned(db, spec, ids, worlds, n - 1);
      var end := Provisioned(db, spec, ids, worlds, n);
      ProvisionSettles(mid, spec, ids[n - 1], worlds[n - 1]);
      forall m | n <= m < |worlds| && worlds[m].created.Some? ensures worlds[m].created.value !in end.vms {
        assert worlds[n - 1].created.None? || worlds[n - 1].created != worlds[m].created;
        OnlyItsOwn(mid, spec, ids[n - 1], worlds[n - 1], worlds[m].created.value);
      }
    }
  }

  /** The rows gain one AVAILABLE VM of the pool. */
  ghost predicate OneMore(db: Db, db': Db, k: PoolKey) {
    exists v: Vm :: v.uid !in db.vms && v.pool == k && v.phase.Available? && db'.vms == db.vms[v.uid := v]
  }

  /** Had VMs of the pool counted before a pass and has after it, the pass has filled the pool up to its
      size: with nothing to do it adds nothing, and a static network never gets a second row. */
  ghost predicate FilledUp(db: Db, db': Db, spec: PoolSpec, had: nat, has: nat) {
    if had >= spec.size then db' == db
    else if !spec.staticNetwork then has == spec.size
    else if (exists u :: u in db.vms && db.vms[u].pool == spec.key) then db' == db
    else OneMore(db, db', spec.key)
  }

  lemma OneCall(db: Db, spec: PoolSpec, ids: seq<PlacementId>, worlds: seq<World>)
    requires 1 <= |ids| && 1 <= |worlds| && AllFresh(db.vms.Keys, worlds) && Succeeds(db, ids[0], worlds[0])
    ensures OneMore(db, Provisioned(db, spec, ids, worlds, 1), spec.key)
  {
    assert Provisioned(db, spec, ids, worlds, 0) == db;
    SucceededRow(db, spec, ids[0], worlds[0]);
  }

  lemma PoolRows(db: Db, k: PoolKey)
    ensures VmsOfPool(db, k) == map[] <==> forall u | u in db.vms :: db.vms[u].pool != k
  {
    var none: map<Uid, Vm> := map[];
    if forall u | u in db.vms :: db.vms[u].pool != k {
      SameMap(VmsOfPool(db, k), none);
    } else {
      var u :| u in db.vms && db.vms[u].pool == k;
      assert u in VmsOfPool(db, k);
    }
  }

  /** What a pass that asked for n more VMs leaves, if the calls it starts succeed. */
  lemma PassFills(
    db: Db, spec: PoolSpec, ids: seq<PlacementId>, worlds: seq<World>, n: int, leased: bool, had: nat)
    requires |ids| == |worlds| && n <= |worlds| && AllFresh(db.vms.Keys, worlds)
    requires forall m | 0 <= m < |worlds| :: Succeeds(db, ids[m], worlds[m])
    requires had == |Ready(db, spec.key)| + if leased then |LeasedOut(db, spec.key)| else 0
    requires n == if had >= spec.size then 0 else spec.size - had
    ensures
      var db' := Provisioned(db, spec, ids, worlds, Started(db, spec, n));
      FilledUp(db, db', spec, had, |Ready(db', spec.key)| + if leased then |LeasedOut(db', spec.key)| else 0)
  {
    hide Ready, LeasedOut, Counts, Outcome, Succeeds, AllFresh;
    var k := spec.key;
    PoolRows(db, k);
    if n > 0 {
      if !spec.staticNetwork {
        var db' := Provisioned(db, spec, ids, worlds, n);
        PassCounts(db, spec, ids, worlds, n, Committed(db, k));
        ProvisionedKeeps(db, spec, ids, worlds, n);
        RowsCounted(db, k);
        RowsCounted(db', k);
      } else if VmsOfPool(db, k) == map[] {
        OneCall(db, spec, ids, worlds);
      }
    }
  }

  /** What a pass leaves, row by row. */
  lemma PassMeans(db: Db, spec: PoolSpec, hook: Hook, ids: seq<PlacementId>, worlds: seq<World>, n: int)
    requires |ids| == |worlds| && n <= |worlds| && AllFresh(db.vms.Keys, worlds)
    requires n == Desired(spec, hook, Counts(VmsOfPool(db, spec.key), Committed(db, spec.key)))
    ensures Started(db, spec, n) <= |worlds|
    ensures
      var db' := Provisioned(db, spec, ids, worlds, Started(db, spec, n));
      var ready, leased := |Ready(db, spec.key)|, |LeasedOut(db, spec.key)|;
      var succeed := forall m | 0 <= m < |worlds| :: Succeeds(db, ids[m], worlds[m]);
      && (forall u | u in db.vms :: u in db'.vms && db'.vms[u] == db.vms[u])
      && (Idles(spec, hook, |Warm(db, spec.key)|) ==> db' == db)
      && (succeed && spec.strategy.ImmediateOnLease? && !hook.OnVmDeleted? ==>
            FilledUp(db, db', spec, ready, |Ready(db', spec.key)|))
      && (succeed && !spec.strategy.ImmediateOnLease? && !Idles(spec, hook, |Warm(db, spec.key)|) ==>
            FilledUp(db, db', spec, ready + leased, |Ready(db', spec.key)| + |LeasedOut(db', spec.key)|))
  {
    hide Ready, LeasedOut, Warm, Counts, Succeeds, FilledUp, AllFresh;
    RowsCounted(db, spec.key);
    ProvisionedKeeps(db, spec, ids, worlds, Started(db, spec, n));
    if forall m | 0 <= m < |worlds| :: Succeeds(db, ids[m], worlds[m]) {
      var ready, leased := |Ready(db, spec.key)|, |LeasedOut(db, spec.key)|;
      if spec.strategy.ImmediateOnLease? {
        if !hook.OnVmDeleted? { PassFills(db, spec, ids, worlds, n, false, ready); }
      } else if !Idles(spec, hook, |Warm(db, spec.key)|) {
        PassFills(db, spec, ids, worlds, n, true, ready + leased);
      }
    }
  }

  /** The triggers a strategy does not act on, and a warm pool still at its threshold. */
  ghost predicate Idles(spec: PoolSpec, hook: Hook, warm: nat) {
    match spec.strategy
    case ImmediateOnLease => hook.OnVmDeleted?
    case MinSizeThreshold(minSize) => hook.OnVmClaimed? || hook.OnVmDeleted? || warm >= minSize
    case ReplaceOnDelete => hook.OnVmClaimed?
  }

  /** reconcile: count the pool's rows, ask the strategy, provision. The counts of IMMEDIATE_ON_LEASE
      leave out the VMs leased out, so that each is replaced at once; the other two count them. */
  method ReconcilePool(p: Provisioner, spec: PoolSpec, hook: Hook, ids: seq<PlacementId>, worlds: seq<World>)
    requires p.st.Valid() && |ids| == |worlds| && spec.size <= |worlds|
    requires AllFresh(p.st.vms.Keys + p.flint.live.Keys, worlds)
    requires forall m | 0 <= m < |ids| :: ids[m] !in p.st.placements
    modifies p.st`vms, p.st`placements, p.st`events, p.flint
    ensures p.st.Valid() && p.st.placements == old(p.st.placements)
    ensures forall u | u in old(p.st.vms) :: u in p.st.vms && p.st.vms[u] == old(p.st.vms)[u]
    ensures
      || (spec.strategy.ImmediateOnLease? && hook.OnVmDeleted?) || (spec.strategy.ReplaceOnDelete? && hook.OnVmClaimed?)
      || (spec.strategy.MinSizeThreshold?
          && (!hook.OnTick? || |Warm(old(p.st.Contents()), spec.key)| >= spec.strategy.minSize)) ==>
        p.st.Contents() == old(p.st.Contents())
    ensures
      && spec.strategy.ImmediateOnLease? && (hook.OnTick? || hook.OnVmClaimed?)
      && (forall m | 0 <= m < |worlds| :: Succeeds(old(p.st.Contents()), ids[m], worlds[m])) ==>
        FilledUp(old(p.st.Contents()), p.st.Contents(), spec, |Ready(old(p.st.Contents()), spec.key)|,
                 |Ready(p.st.Contents(), spec.key)|)
    ensures
      && ((spec.strategy.ReplaceOnDelete? && (hook.OnTick? || hook.OnVmDeleted?))
          || (spec.strategy.MinSizeThreshold? && hook.OnTick?
              && |Warm(old(p.st.Contents()), spec.key)| < spec.strategy.minSize))
      && (forall m | 0 <= m < |worlds| :: Succeeds(old(p.st.Contents()), ids[m], worlds[m])) ==>
        FilledUp(old(p.st.Contents()), p.st.Contents(), spec,
                 |Ready(old(p.st.Contents()), spec.key)| + |LeasedOut(old(p.st.Contents()), spec.key)|,
                 |Ready(p.st.Contents(), spec.key)| + |LeasedOut(p.st.Contents(), spec.key)|)
  {
    hide Ready, LeasedOut, Warm, FilledUp, Succeeds, Provisioned, Desired, AllFresh, Started;
    ghost var db := p.st.Contents();
    var vms := p.st.ListVMsByPool(spec.key);
    var committed := set l | l in p.st.leases && p.st.leases[l].pool == spec.key;
    var counts := CountVMs(vms, committed, VmsOfPool(p.st.Contents(), spec.key));
    assert committed == Committed(db, spec.key);
    FreshHere(p.st.vms.Keys, p.flint.live.Keys, worlds);
    DesiredAtMostSize(spec, hook, counts);
    var n := Desired(spec, hook, counts);
    PassMeans(db, spec, hook, ids, worlds, n);
    ProvisionN(p, spec, n, ids, worlds);
  }

  lemma DesiredAtMostSize(spec: PoolSpec, hook: Hook, c: VmCounts)
    ensures Desired(spec, hook, c) <= Max(0, spec.size)
  {
  }

  lemma FreshHere(rows: set<Uid>, live: set<Uid>, worlds: seq<World>)
    requires AllFresh(rows + live, worlds)
    ensures AllFresh(rows, worlds)
  {
  }
}
