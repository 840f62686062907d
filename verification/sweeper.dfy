/** The Sweeper: one tick, run without interruption and with flintlock answering, is exactly what
    Sweeping says of the tables it finds. */
module Sweepers {
  import opened Records
  import opened Transactions
  import opened Listings
  import opened Stores
  import opened Deletions
  import opened Sets
  import opened Sweeping

  lemma ThreeLess(live: map<Uid, HostName>, a: set<Uid>, b: set<Uid>, c: set<Uid>)
    ensures live - a - b - c == live - (a + b + c)
  {
    SameMap(live - a - b - c, live - (a + b + c));
  }

  lemma ListedPhase(db: Db, r: seq<Vm>, phase: Phase, n: nat)
    requires Lists(r, VmsInPhase(db, phase)) && n < |r|
    ensures r[n].phase == phase
  {
    assert r[n] in r;
  }

  lemma SeenListed(r: seq<Lease>, seen: set<LeaseId>)
    requires seen == set l | l in r :: l.id
    ensures forall l :: l in seen <==> exists m | 0 <= m < |r| :: r[m].id == l
  {
    forall m | 0 <= m < |r| ensures r[m].id in seen {
      assert r[m] in r;
    }
  }

  lemma TickLeaves(db: Db, warned: map<LeaseId, Time>, x: Lists3, now: Time, window: nat)
    requires Sound(db) && TickLists(db, x, now + window)
    ensures
      var end := Ticked(db, warned, x, now).db;
      && (forall u :: u in end.vms <==> u in db.vms && !Due(db, u, now))
      && (forall u | u in end.vms :: end.vms[u] == db.vms[u])
      && (forall l :: l in end.leases <==> l in db.leases && !LeaseDue(db, l, now))
      && (forall l | l in end.leases :: end.leases[l] == db.leases[l])
      && TickDeletes(db, warned, x, now) == db.vms.Keys - end.vms.Keys
  {
    hide Sound, TickLists, Ticked, TickDeletes, Due, LeaseDue;
    TickExact(db, warned, x, now, window);
    var end := Ticked(db, warned, x, now).db;
    forall u ensures u in TickDeletes(db, warned, x, now) <==> u in db.vms.Keys - end.vms.Keys {
      TickDeletesExactly(db, warned, x, now, window, u);
    }
    SameSet(TickDeletes(db, warned, x, now), db.vms.Keys - Ticked(db, warned, x, now).db.vms.Keys);
  }

  class Sweeper {
    const st: Store
    const flint: Flintlock
    const window: nat
    var warned: map<LeaseId, Time>

    constructor (st: Store, flint: Flintlock, window: nat)
      ensures this.st == st && this.flint == flint && this.window == window && warned == map[]
    {
      this.st, this.flint, this.window, warned := st, flint, window, map[];
    }

    /** One pending deletion, as it was listed. */
    method Retry(vm: Vm, draining: set<HostName>)
      requires st.Valid() && vm.phase.Deleting? && draining == DrainingHosts(st.Contents())
      modifies st`vms, st`leases, st`events, flint
      ensures st.Valid() && st.Contents() == Retried(old(st.Contents()), vm)
      ensures flint.live == old(flint.live) - {vm.uid}
    {
      var deleted := EnsureVMDeletedCheckingPool(st, flint, vm, true);
      if deleted.Err? {
        SameMap(old(st.vms) - {vm.uid}, old(st.vms));
        return;
      }
      if vm.pool !in st.pools {
        return;
      }
      if vm.leaseId.None? && vm.host in draining {
        return;
      }
      FinishVMDeletion(st, vm.pool, vm);
    }

    method RetryPendingDeletions() returns (ghost pending: seq<Vm>)
      requires st.Valid()
      modifies st`vms, st`leases, st`events, flint
      ensures st.Valid() && Lists(pending, VmsInPhase(old(st.Contents()), Deleting))
      ensures st.Contents() == RetriedAll(old(st.Contents()), pending, |pending|)
      ensures flint.live == old(flint.live) - Gone(pending, |pending|)
    {
      ghost var db := st.Contents();
      var vms := st.ListVMsByPhase(Deleting);
      var draining := set h | h in st.hosts && st.hosts[h].draining;
      pending := vms;
      NoneGone(vms);
      SameMap(flint.live - {}, flint.live);
      for n := 0 to |vms|
        invariant st.Valid() && st.Contents() == RetriedAll(db, vms, n) && st.hosts == db.hosts
        invariant flint.live == old(flint.live) - Gone(vms, n)
      {
        ListedPhase(db, vms, Deleting, n);
        OneMoreGone(vms, n);
        SameMap(flint.live - {vms[n].uid}, old(flint.live) - Gone(vms, n + 1));
        Retry(vms[n], draining);
      }
    }

    method EmitDrained(vms: seq<Vm>)
      requires st.Valid()
      modifies st`events
      ensures st.Valid() && |st.events| == |old(st.events)| + |vms| && old(st.events) <= st.events
      ensures forall m | 0 <= m < |vms| ::
                st.events[|old(st.events)| + m] == Event(vms[m].pool, vms[m].uid, VmDeletedOnHostDrain)
      ensures st.Contents() == old(st.Contents()).(events := old(st.events) + DrainEvents(vms))
    {
      for n := 0 to |vms|
        invariant st.Valid() && st.Contents() == old(st.Contents()).(events := old(st.events) + DrainEvents(vms)[..n])
      {
        st.AppendEvent(Event(vms[n].pool, vms[n].uid, VmDeletedOnHostDrain));
      }
      assert DrainEvents(vms)[..|vms|] == DrainEvents(vms);
    }

    /** The deletes of DeleteDrainedVMs, one after another. */
    method DeleteDrained(vms: seq<Vm>)
      requires st.Valid() && forall m | 0 <= m < |vms| :: vms[m].phase.Deleting?
      modifies st`vms, st`leases, st`events, flint
      ensures st.Valid() && st.leases == old(st.leases) && st.events == old(st.events)
      ensures st.vms == old(st.vms) - set m | 0 <= m < |vms| :: vms[m].uid
      ensures st.Contents() == DroppedAll(old(st.Contents()), vms, |vms|)
      ensures flint.live == old(flint.live) - Gone(vms, |vms|)
    {
      ghost var db := st.Contents();
      NoneGone(vms);
      SameMap(flint.live - {}, flint.live);
      for n := 0 to |vms|
        invariant st.Valid() && st.Contents() == DroppedAll(db, vms, n)
        invariant flint.live == old(flint.live) - Gone(vms, n)
      {
        OneMoreGone(vms, n);
        SameMap(flint.live - {vms[n].uid}, old(flint.live) - Gone(vms, n + 1));
        var deleted := EnsureVMDeletedCheckingPool(st, flint, vms[n], true);
      }
      DroppedSoFar(db, vms, |vms|);
      assert Gone(vms, |vms|) == set m | 0 <= m < |vms| :: vms[m].uid;
    }

    method DrainHosts() returns (ghost drained: seq<Vm>)
      requires st.Valid()
      modifies st`vms, st`leases, st`events, flint
      ensures st.Valid() && Lists(drained, MarkedBy(old(st.Contents()), DrainingHosts(old(st.Contents()))))
      ensures st.Contents() == DrainedOut(old(st.Contents()), drained)
      ensures flint.live == old(flint.live) - Gone(drained, |drained|)
    {
      ghost var db := st.Contents();
      var vms := st.MarkDrainingHostsVMsDeleting();
      drained := vms;
      forall m | 0 <= m < |vms| ensures vms[m].phase.Deleting? {
        assert vms[m] in vms;
      }
      EmitDrained(vms);
      DeleteDrained(vms);
    }

    /** The lease goes only if it has expired at now; its VM goes if it is still LEASED and its pool
        exists. */
    method BeginExpiry(l: Lease, now: Time)
      requires st.Valid()
      modifies st`vms, st`leases, st`events, flint
      ensures st.Valid()
      ensures l.id !in old(st.leases) || old(st.leases)[l.id].expiresAt > now ==>
                st.vms == old(st.vms) && st.leases == old(st.leases) && st.events == old(st.events)
      ensures
        l.id in old(st.leases) && old(st.leases)[l.id].expiresAt <= now
        && (l.vm in old(st.vms) && old(st.vms)[l.vm].leaseId.Some? ==> old(st.vms)[l.vm].leaseId.value == l.id) ==>
          && st.leases == old(st.leases) - {l.id}
          && if l.vm in old(st.vms) && old(st.vms)[l.vm].phase.Leased? && l.pool in st.pools
             then && st.vms == old(st.vms) - {l.vm}
                  && st.events == old(st.events) + [Event(l.pool, l.vm, VmDeletedDueToExpiry)]
             else st.vms == old(st.vms) && st.events == old(st.events)
      ensures st.Contents() == Expired(old(st.Contents()), l, now)
      ensures l.expiresAt <= now ==>
                flint.live == if Deletes(old(st.Contents()), l, now) then old(flint.live) - {l.vm} else old(flint.live)
    {
      var ended := st.DeleteLeaseIfExpired(l.id, now);
      if ended.Err? {
        return;
      }
      var vm := st.GetVM(l.vm);
      if vm.Err? || !vm.value.phase.Leased? {
        return;
      }
      if l.pool !in st.pools {
        return;
      }
      var deleted := EnsureVMDeletedCheckingPool(st, flint, vm.value, true);
      FinishVMDeletion(st, l.pool, vm.value);
    }

    method WarnExpiringSoon(l: Lease)
      requires st.Valid()
      modifies st`events
      ensures st.Valid()
      ensures st.events == old(st.events) + if l.pool in st.pools then [Event(l.pool, l.vm, VmExpiringSoon)] else []
      ensures st.Contents() == Warned(old(st.Contents()), l)
    {
      if l.pool in st.pools {
        st.AppendEvent(Event(l.pool, l.vm, VmExpiringSoon));
      }
    }

    /** One listed lease: expired, it ends; about to expire, it is warned about unless it was at
        this expiry time before. */
    method Visit(l: Lease, now: Time)
      requires st.Valid()
      modifies `warned, st`vms, st`leases, st`events, flint
      ensures st.Valid() && Round(st.Contents(), warned) == Visited(Round(old(st.Contents()), old(warned)), l, now)
      ensures flint.live == if Deletes(old(st.Contents()), l, now) then old(flint.live) - {l.vm} else old(flint.live)
    {
      if l.expiresAt <= now {
        BeginExpiry(l, now);
        warned := warned - {l.id};
        return;
      }
      if l.id !in warned || warned[l.id] != l.expiresAt {
        WarnExpiringSoon(l);
        warned := warned[l.id := l.expiresAt];
      }
    }

    method VisitAll(leases: seq<Lease>, now: Time)
      requires st.Valid()
      modifies `warned, st`vms, st`leases, st`events, flint
      ensures st.Valid()
      ensures Round(st.Contents(), warned) == VisitedAll(Round(old(st.Contents()), old(warned)), leases, |leases|, now)
      ensures flint.live == old(flint.live) - Deleted(Round(old(st.Contents()), old(warned)), leases, |leases|, now)
    {
      ghost var x := Round(st.Contents(), warned);
      SameMap(flint.live - {}, flint.live);
      for n := 0 to |leases|
        invariant st.Valid() && Round(st.Contents(), warned) == VisitedAll(x, leases, n, now)
        invariant flint.live == old(flint.live) - Deleted(x, leases, n, now)
      {
        ghost var before := flint.live;
        ghost var kills := Deletes(st.Contents(), leases[n], now);
        Visit(leases[n], now);
        SameMap(if kills then before - {leases[n].vm} else before, old(flint.live) - Deleted(x, leases, n + 1, now));
      }
    }

    /** Forgets the leases the query did not return. */
    method Evict(due: seq<Lease>)
      modifies `warned
      ensures warned == Evicted(old(warned), due)
    {
      var seen := set l | l in due :: l.id;
      var ids := Ordered(warned.Keys);
      for n := 0 to |ids|
        invariant forall l | l in warned :: l in old(warned) && warned[l] == old(warned)[l]
        invariant forall l | l in old(warned) && l in seen :: l in warned
        invariant forall m | 0 <= m < n :: ids[m] in seen || ids[m] !in warned
        invariant forall m | n <= m < |ids| :: ids[m] in warned
      {
        if ids[n] !in seen {
          warned := warned - {ids[n]};
        }
      }
      forall l | l in warned ensures l in seen {
        assert l in ids;
      }
      SeenListed(due, seen);
      SameMap(warned, Evicted(old(warned), due));
    }

    /** One uninterrupted tick, with flintlock answering. Where lease rows and VM rows agree, as they do
        in every reachable state: a row goes if and only if it is due, in flintlock too, a lease if and
        only if it is due, and every other row and lease is as it was. */
    method Tick(now: Time) returns (ghost x: Lists3)
      requires st.Valid()
      modifies `warned, st`vms, st`leases, st`events, flint
      ensures st.Valid()
      ensures Sound(old(st.Contents())) ==>
                && (forall u :: u in st.vms <==> u in old(st.vms) && !Due(old(st.Contents()), u, now))
                && (forall u | u in st.vms :: st.vms[u] == old(st.vms)[u])
                && (forall l :: l in st.leases <==> l in old(st.leases) && !LeaseDue(old(st.Contents()), l, now))
                && (forall l | l in st.leases :: st.leases[l] == old(st.leases)[l])
                && flint.live == old(flint.live) - (old(st.vms).Keys - st.vms.Keys)
      ensures TickLists(old(st.Contents()), x, now + window)
      ensures Round(st.Contents(), warned) == Ticked(old(st.Contents()), old(warned), x, now)
      ensures flint.live == old(flint.live) - TickDeletes(old(st.Contents()), old(warned), x, now)
    {
      hide RetriedAll, DrainedOut, VisitedAll, Evicted, Gone, Deleted, Lists, ListsLeases, MarkedBy, VmsInPhase,
        LeasesExpiredBy;
      ghost var live := flint.live;
      ghost var pending := RetryPendingDeletions();
      ghost var drained := DrainHosts();
      var leases := st.ListExpiredLeases(now + window);
      x := Lists3(pending, drained, leases);
      VisitAll(leases, now);
      Evict(leases);
      ThreeLess(live, Gone(pending, |pending|), Gone(drained, |drained|),
                Deleted(Round(Drains(old(st.Contents()), x), old(warned)), leases, |leases|, now));
      if Sound(old(st.Contents())) {
        TickLeaves(old(st.Contents()), old(warned), x, now, window);
      }
    }
  }
}
