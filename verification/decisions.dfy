/** What a reconciler decides in the system of interleaved calls, in terms of the rows it read: the
    decision itself, a whole pass, and the Provision calls it starts. */
module Decisions {
  import opened Records
  import opened Transactions
  import opened Replenishment
  import opened Protocol
  import opened Sets
  import opened Reconcile

  /** Listed as in the warm pool, on its way there, or taken by a claim that has no lease yet. */
  ghost predicate ListedReady(db: Db, k: PoolKey, v: Vm) {
    || v.phase.Available? || v.phase.PreLeaseHookRunning? || v.phase.Provisioning? || v.phase.CreateHookRunning?
    || (v.phase.Leased? && !IsLeasedOut(db, k, v))
  }

  lemma ListingCounted(db: Db, k: PoolKey, rows: map<Uid, Vm>)
    ensures
      var c := Counts(rows, LeaseIdsOf(db, k));
      && |set u | u in rows && rows[u].phase.Available?| == c.available
      && |set u | u in rows && IsLeasedOut(db, k, rows[u])| == c.leased
      && |set u | u in rows && ListedReady(db, k, rows[u])| == c.available + c.claiming + c.provisioning
  {
    var committed := LeaseIdsOf(db, k);
    var available := set u | u in rows && rows[u].phase.Available?;
    var claiming := set u | u in rows && CountsAsClaiming(rows[u], committed);
    var provisioning := set u | u in rows && CountsAsProvisioning(rows[u]);
    var leased := set u | u in rows && IsLeasedOut(db, k, rows[u]);
    var ready := set u | u in rows && ListedReady(db, k, rows[u]);
    SameSize(leased, set u | u in rows && CountsAsLeased(rows[u], committed));
    UnionSize(available + claiming, available, claiming);
    UnionSize(ready, available + claiming, provisioning);
  }

  /** The first read lists the pool's rows as they are. */
  lemma ReconcilerLists(s: State, r: Rid, hook: Hook)
    requires Alive(s.mgr, r) && s.mgr.recons[r].loop.Idle?
    ensures
      var loop, k := Next(s, ReconList(r, hook)).mgr.recons[r].loop, s.mgr.recons[r].spec.key;
      && loop.Listed? && loop.hook == hook
      && (forall u :: u in loop.vms <==> u in s.db.vms && s.db.vms[u].pool == k)
      && (forall u | u in loop.vms :: loop.vms[u] == s.db.vms[u])
  {
    hide Next;
    NextReconList(s, r, hook);
  }

  /** had VMs counted, the loop goes on to ask for what is missing to the pool's size. */
  ghost predicate AsksFor(spec: PoolSpec, had: nat, loop: Loop) {
    if had >= spec.size then loop == Spawning(0)
    else if spec.staticNetwork then loop.Capping?
    else loop == Spawning(spec.size - had)
  }

  /** The decision, from the rows listed first and the leases read after them: nothing on a trigger the
      strategy does not act on; otherwise what is missing to the pool's size, counting the VMs leased
      out unless the strategy is IMMEDIATE_ON_LEASE. */
  lemma ReconcilerDecides(s: State, r: Rid)
    requires Alive(s.mgr, r) && s.mgr.recons[r].loop.Listed?
    ensures
      var spec, hook, rows := s.mgr.recons[r].spec, s.mgr.recons[r].loop.hook, s.mgr.recons[r].loop.vms;
      var loop := Next(s, ReconCount(r)).mgr.recons[r].loop;
      var warm := |set u | u in rows && rows[u].phase.Available?|;
      var ready := |set u | u in rows && ListedReady(s.db, spec.key, rows[u])|;
      var leased := |set u | u in rows && IsLeasedOut(s.db, spec.key, rows[u])|;
      && (Idles(spec, hook, warm) ==> loop == Spawning(0))
      && (spec.strategy.ImmediateOnLease? && !hook.OnVmDeleted? ==> AsksFor(spec, ready, loop))
      && (!spec.strategy.ImmediateOnLease? && !Idles(spec, hook, warm) ==> AsksFor(spec, ready + leased, loop))
  {
    hide Next, Counts, ListedReady, IsLeasedOut;
    NextReconCount(s, r);
    ListingCounted(s.db, s.mgr.recons[r].spec.key, s.mgr.recons[r].loop.vms);
  }

  /** A static-network pool gets its one VM only while it has no row in any phase. */
  lemma ReconcilerCaps(s: State, r: Rid)
    requires Alive(s.mgr, r) && s.mgr.recons[r].loop.Capping?
    ensures
      var loop, k := Next(s, ReconCap(r)).mgr.recons[r].loop, s.mgr.recons[r].spec.key;
      loop == if exists u :: u in s.db.vms && s.db.vms[u].pool == k then Idle else Spawning(1)
  {
    hide Next;
    NextReconCap(s, r);
    PoolRows(s.db, s.mgr.recons[r].spec.key);
  }

  /** Each Provision call it starts works from the reconciler's spec, and uses up one. */
  lemma ReconcilerSpawns(s: State, r: Rid, i: Pid)
    requires Alive(s.mgr, r) && s.mgr.recons[r].loop.Spawning? && i !in s.procs
    ensures
      var n, s' := s.mgr.recons[r].loop.n, Next(s, ReconSpawn(r, i));
      if n > 0 then
        s'.procs == s.procs[i := ProvStart(r, s.mgr.recons[r].spec)] && s'.mgr.recons[r].loop == Spawning(n - 1)
      else s' == s
  {
    hide Next;
    NextReconSpawn(s, r, i);
  }

  // ---- a whole pass ----

  /** had VMs counted, the pass goes on to start what is missing to the pool's size; a static network gets
      one VM, and only while the pool has no row at all. */
  ghost predicate StartsFor(db: Db, spec: PoolSpec, had: nat, loop: Loop) {
    if had >= spec.size then loop == Spawning(0)
    else if !spec.staticNetwork then loop == Spawning(spec.size - had)
    else if exists u :: u in db.vms && db.vms[u].pool == spec.key then loop == Idle
    else loop == Spawning(1)
  }

  lemma ListingIs(db: Db, k: PoolKey, rows: map<Uid, Vm>)
    requires forall u :: u in rows <==> u in db.vms && db.vms[u].pool == k
    requires forall u | u in rows :: rows[u] == db.vms[u]
    ensures |set u | u in rows && rows[u].phase.Available?| == |Warm(db, k)|
    ensures |set u | u in rows && ListedReady(db, k, rows[u])| == |Ready(db, k)|
    ensures |set u | u in rows && IsLeasedOut(db, k, rows[u])| == |LeasedOut(db, k)|
  {
    var warm := set u | u in rows && rows[u].phase.Available?;
    var ready := set u | u in rows && ListedReady(db, k, rows[u]);
    var leased := set u | u in rows && IsLeasedOut(db, k, rows[u]);
    forall u ensures (u in warm <==> u in Warm(db, k)) && (u in ready <==> u in Ready(db, k))
                     && (u in leased <==> u in LeasedOut(db, k)) {
    }
    SameSize(warm, Warm(db, k));
    SameSize(ready, Ready(db, k));
    SameSize(leased, LeasedOut(db, k));
  }

  /** The state after the reads and the decision of a pass, with nothing else in between. */
  function Decided(s: State, r: Rid, hook: Hook): State {
    Next(Next(Next(s, ReconList(r, hook)), ReconCount(r)), ReconCap(r))
  }

  lemma LoopOnly(s: State, a: Action, r: Rid)
    requires Alive(s.mgr, r) && (a.ReconList? || a.ReconCount? || a.ReconCap?) && a.r == r
    ensures Next(s, a).db == s.db && Alive(Next(s, a).mgr, r) && Next(s, a).mgr.recons[r].spec == s.mgr.recons[r].spec
    ensures a.ReconCap? && !s.mgr.recons[r].loop.Capping? ==> Next(s, a) == s
  {
    hide Next, PlanLoop, VmsOfPool;
    match a
    case ReconList(_, hook) => NextReconList(s, r, hook);
    case ReconCount(_) => NextReconCount(s, r);
    case ReconCap(_) => NextReconCap(s, r);
  }

  lemma CapMeans(s: State, s1: State, r: Rid, had: nat)
    requires Alive(s.mgr, r) && s1 == Next(s, ReconCap(r)) && AsksFor(s.mgr.recons[r].spec, had, s.mgr.recons[r].loop)
    ensures r in s1.mgr.recons && StartsFor(s.db, s.mgr.recons[r].spec, had, s1.mgr.recons[r].loop)
  {
    hide Next;
    LoopOnly(s, ReconCap(r), r);
    if s.mgr.recons[r].loop.Capping? {
      ReconcilerCaps(s, r);
    }
  }

  /** A pass that nothing interrupts asks, on the rows and leases there are, for nothing on a trigger the
      strategy does not act on, and otherwise for exactly what fills the pool. */
  lemma PassDecides(s: State, r: Rid, hook: Hook)
    requires Alive(s.mgr, r) && s.mgr.recons[r].loop.Idle?
    ensures
      var spec, s' := s.mgr.recons[r].spec, Decided(s, r, hook);
      var ready, leased := |Ready(s.db, spec.key)|, |LeasedOut(s.db, spec.key)|;
      && s'.db == s.db && r in s'.mgr.recons
      && var loop := s'.mgr.recons[r].loop;
      && (Idles(spec, hook, |Warm(s.db, spec.key)|) ==> loop == Spawning(0))
      && (spec.strategy.ImmediateOnLease? && !hook.OnVmDeleted? ==> StartsFor(s.db, spec, ready, loop))
      && (!spec.strategy.ImmediateOnLease? && !Idles(spec, hook, |Warm(s.db, spec.key)|) ==>
            StartsFor(s.db, spec, ready + leased, loop))
  {
    hide Next, Ready, LeasedOut, Warm, ListedReady, IsLeasedOut, AsksFor, StartsFor;
    var s1 := Next(s, ReconList(r, hook));
    var s2 := Next(s1, ReconCount(r));
    var spec := s.mgr.recons[r].spec;
    LoopOnly(s, ReconList(r, hook), r);
    ReconcilerLists(s, r, hook);
    ListingIs(s.db, spec.key, s1.mgr.recons[r].loop.vms);
    LoopOnly(s1, ReconCount(r), r);
    ReconcilerDecides(s1, r);
    LoopOnly(s2, ReconCap(r), r);
    if !Idles(spec, hook, |Warm(s.db, spec.key)|) {
      var had := |Ready(s.db, spec.key)| + if spec.strategy.ImmediateOnLease? then 0 else |LeasedOut(s.db, spec.key)|;
      CapMeans(s2, Decided(s, r, hook), r, had);
    }
  }

  // ---- the calls it starts ----

  function Spawns(r: Rid, pids: seq<Pid>): seq<Action> {
    if pids == [] then [] else [ReconSpawn(r, pids[0])] + Spawns(r, pids[1..])
  }

  ghost predicate AllNew(procs: map<Pid, Proc>, pids: seq<Pid>) {
    (forall m | 0 <= m < |pids| :: pids[m] !in procs) && (forall m, n | 0 <= m < n < |pids| :: pids[m] != pids[n])
  }

  /** However often it tries, exactly the number decided of Provision calls start, each with the
      reconciler's spec. */
  lemma {:induction false} SpawnsDecided(s: State, r: Rid, pids: seq<Pid>)
    requires Alive(s.mgr, r) && s.mgr.recons[r].loop.Spawning? && AllNew(s.procs, pids)
    ensures
      var n, s' := s.mgr.recons[r].loop.n, Run(s, Spawns(r, pids));
      && (forall i | i in s.procs :: i in s'.procs && s'.procs[i] == s.procs[i])
      && (forall i | i in s'.procs && i !in pids :: i in s.procs)
      && (forall m | 0 <= m < |pids| ::
            if m < n then pids[m] in s'.procs && s'.procs[pids[m]] == ProvStart(r, s.mgr.recons[r].spec)
            else pids[m] !in s'.procs)
    decreases |pids|
  {
    hide Next, Run;
    if pids == [] {
      RunNone(s);
    } else {
      var s1, rest := Next(s, ReconSpawn(r, pids[0])), pids[1..];
      assert Spawns(r, pids)[1..] == Spawns(r, rest);
      RunFirst(s, Spawns(r, pids));
      ReconcilerSpawns(s, r, pids[0]);
      SpawnLeaves(s, r, pids[0]);
      SpawnsDecided(s1, r, rest);
      forall m | 0 < m < |pids| ensures pids[m] == rest[m - 1] {}
    }
  }

  lemma SpawnLeaves(s: State, r: Rid, i: Pid)
    requires Alive(s.mgr, r) && s.mgr.recons[r].loop.Spawning? && i !in s.procs
    ensures
      var s' := Next(s, ReconSpawn(r, i));
      Alive(s'.mgr, r) && s'.mgr.recons[r].spec == s.mgr.recons[r].spec && s'.mgr.recons[r].loop.Spawning?
  {
    hide Next;
    NextReconSpawn(s, r, i);
  }
}
