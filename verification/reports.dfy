/** What a tick reports: one event for each VM it deletes, of the kind its row and lease call for. */
module Reports {
  import opened Records
  import opened Transactions
  import opened Stores
  import opened Sweeping
  import opened Warnings

  /** The deletions a tick at now reports, by phase, lease and host: a DELETING row as a release while
      its lease is there and otherwise as an expiry, unless a drain has reported it; a LEASED row under
      an expired lease as an expiry; a row neither leased nor being claimed on a draining host as
      drained. Rows of a removed pool are reported by nobody here, except when they are drained. */
  ghost predicate CallsFor(db: Db, e: Event, now: Time) {
    && e.vm in db.vms && e.pool == db.vms[e.vm].pool
    && var v := db.vms[e.vm];
    var held := v.leaseId.Some? && v.leaseId.value in db.leases;
    var draining := v.host in db.hosts && db.hosts[v.host].draining;
    match e.kind
    case VmDeletedOnRelease => v.phase.Deleting? && v.pool in db.pools && held
    case VmDeletedDueToExpiry =>
      || (v.phase.Deleting? && v.pool in db.pools && !held && !(v.leaseId.None? && draining))
      || (v.phase.Leased? && held && db.leases[v.leaseId.value].expiresAt <= now)
    case VmDeletedOnHostDrain =>
      draining && !v.phase.Deleting? && !v.phase.Leased? && !v.phase.PreLeaseHookRunning?
    case _ => false
  }

  // ---- pending deletions ----

  lemma {:induction false} RetryCount(db: Db, vms: seq<Vm>, n: nat, e: Event)
    requires n <= |vms| && forall i, j | 0 <= i < j < |vms| :: vms[i].uid != vms[j].uid
    ensures multiset(AllRetryEvents(db, vms, n))[e] ==
            if exists m | 0 <= m < n :: RetryEvents(db, vms[m]) == [e] then 1 else 0
  {
    hide RetryEvents;
    if n > 0 {
      RetryCount(db, vms, n - 1, e);
      assert multiset(AllRetryEvents(db, vms, n)) ==
             multiset(AllRetryEvents(db, vms, n - 1)) + multiset(RetryEvents(db, vms[n - 1]));
      RetryIsOne(db, vms[n - 1], e);
      if RetryEvents(db, vms[n - 1]) == [e] {
        forall m | 0 <= m < n - 1 ensures RetryEvents(db, vms[m]) != [e] {
          RetryIsOne(db, vms[m], e);
        }
      }
    }
  }

  lemma RetryIsOne(db: Db, vm: Vm, e: Event)
    ensures multiset(RetryEvents(db, vm))[e] == if RetryEvents(db, vm) == [e] then 1 else 0
    ensures RetryEvents(db, vm) == [e] ==> e.vm == vm.uid
  {
  }

  lemma RetriesReport(db: Db, pending: seq<Vm>, e: Event)
    requires Sound(db) && Lists(pending, VmsInPhase(db, Deleting))
    ensures multiset(AllRetryEvents(db, pending, |pending|))[e] ==
            if e.vm in db.vms && db.vms[e.vm].phase.Deleting? && RetryEvents(db, db.vms[e.vm]) == [e] then 1 else 0
  {
    hide RetryEvents, Sound;
    PendingListed(db, pending);
    RetryCount(db, pending, |pending|, e);
    if m :| 0 <= m < |pending| && RetryEvents(db, pending[m]) == [e] {
      RetryIsOne(db, pending[m], e);
      assert pending[m] in pending;
    } else if e.vm in db.vms && db.vms[e.vm].phase.Deleting? {
      assert e.vm in VmsInPhase(db, Deleting);
      assert db.vms[e.vm] in pending;
    }
  }

  // ---- drains ----

  lemma {:induction false} DrainCount(vms: seq<Vm>, e: Event)
    requires forall i, j | 0 <= i < j < |vms| :: vms[i].uid != vms[j].uid
    ensures multiset(DrainEvents(vms))[e] ==
            if exists m | 0 <= m < |vms| :: e == Event(vms[m].pool, vms[m].uid, VmDeletedOnHostDrain) then 1 else 0
    decreases |vms|
  {
    if vms != [] {
      var n := |vms| - 1;
      DrainCount(vms[..n], e);
      assert DrainEvents(vms) == DrainEvents(vms[..n]) + [Event(vms[n].pool, vms[n].uid, VmDeletedOnHostDrain)];
      assert forall m | 0 <= m < n :: vms[..n][m] == vms[m];
    }
  }

  lemma DrainsReport(db: Db, drained: seq<Vm>, e: Event)
    requires Sound(db) && Lists(drained, MarkedBy(db, DrainingHosts(db)))
    ensures multiset(DrainEvents(drained))[e] ==
            if e.kind.VmDeletedOnHostDrain? && e.vm in Drainable(db) && e.pool == db.vms[e.vm].pool then 1 else 0
  {
    var marked := MarkedBy(db, DrainingHosts(db));
    forall i, j | 0 <= i < j < |drained| ensures drained[i].uid != drained[j].uid {
      ListedApart(drained, marked, i, j);
    }
    DrainCount(drained, e);
    if e.vm in Drainable(db) && e.pool == db.vms[e.vm].pool && e.kind.VmDeletedOnHostDrain? {
      assert marked[e.vm] in drained;
    }
    if m :| 0 <= m < |drained| && e == Event(drained[m].pool, drained[m].uid, VmDeletedOnHostDrain) {
      assert drained[m] in drained;
    }
  }

  // ---- expiries ----

  /** The visit of l reports e, an event other than a warning. */
  ghost predicate VisitReports(db: Db, l: Lease, now: Time, e: Event) {
    l.expiresAt <= now && l.vm in db.vms && e == Event(l.pool, l.vm, VmDeletedDueToExpiry)
  }

  lemma {:induction false} VisitCount(
    db: Db, warned: map<LeaseId, Time>, due: seq<Lease>, n: nat, now: Time, e: Event)
    requires Sound(db) && LeaseRows(db, due) && n <= |due| && !e.kind.VmExpiringSoon?
    ensures multiset(AllVisitEvents(db, warned, due, n, now))[e] ==
            if exists m | 0 <= m < n :: VisitReports(db, due[m], now, e) then 1 else 0
  {
    hide VisitEvents, VisitReports, Sound, AlreadyWarned;
    if n > 0 {
      VisitCount(db, warned, due, n - 1, now, e);
      assert multiset(AllVisitEvents(db, warned, due, n, now)) ==
             multiset(AllVisitEvents(db, warned, due, n - 1, now)) + multiset(VisitEvents(db, warned, due[n - 1], now));
      VisitIsOne(db, warned, due[n - 1], now, e);
      if VisitReports(db, due[n - 1], now, e) {
        forall m | 0 <= m < n - 1 ensures !VisitReports(db, due[m], now, e) {
          TwoLeases(db, due, m, n - 1, now, e);
        }
      }
    }
  }

  lemma VisitIsOne(db: Db, warned: map<LeaseId, Time>, l: Lease, now: Time, e: Event)
    requires !e.kind.VmExpiringSoon?
    ensures multiset(VisitEvents(db, warned, l, now))[e] == if VisitReports(db, l, now, e) then 1 else 0
  {
  }

  lemma TwoLeases(db: Db, due: seq<Lease>, m: nat, n: nat, now: Time, e: Event)
    requires Sound(db) && LeaseRows(db, due) && m < n < |due| && VisitReports(db, due[n], now, e)
    ensures !VisitReports(db, due[m], now, e)
  {
    NamesNoOther(db, due[n].vm);
  }

  lemma VisitsReport(db: Db, warned: map<LeaseId, Time>, due: seq<Lease>, now: Time, horizon: Time, e: Event)
    requires Sound(db) && NonePending(db) && ListsLeases(due, LeasesExpiredBy(db, horizon)) && now <= horizon
    requires !e.kind.VmExpiringSoon?
    ensures multiset(AllVisitEvents(db, warned, due, |due|, now))[e] ==
            if e.kind.VmDeletedDueToExpiry? && e.vm in db.vms && e.pool == db.vms[e.vm].pool
               && db.vms[e.vm].leaseId.Some? && IsExpired(db, db.vms[e.vm].leaseId.value, now) then 1 else 0
  {
    DueListed(db, due, horizon);
    VisitCount(db, warned, due, |due|, now, e);
    if m :| 0 <= m < |due| && VisitReports(db, due[m], now, e) {
      NamesNoOther(db, due[m].vm);
      assert Carries(db.vms[due[m].vm], due[m]);
    } else if e.kind.VmDeletedDueToExpiry? && e.vm in db.vms && e.pool == db.vms[e.vm].pool
              && db.vms[e.vm].leaseId.Some? && IsExpired(db, db.vms[e.vm].leaseId.value, now) {
      ExpiredVisited(db, due, now, horizon, e);
    }
  }

  lemma ExpiredVisited(db: Db, due: seq<Lease>, now: Time, horizon: Time, e: Event)
    requires Sound(db) && ListsLeases(due, LeasesExpiredBy(db, horizon)) && now <= horizon
    requires e.kind.VmDeletedDueToExpiry? && e.vm in db.vms && e.pool == db.vms[e.vm].pool
    requires db.vms[e.vm].leaseId.Some? && IsExpired(db, db.vms[e.vm].leaseId.value, now)
    ensures exists m | 0 <= m < |due| :: VisitReports(db, due[m], now, e)
  {
    var l := db.vms[e.vm].leaseId.value;
    assert db.leases[l].vm == e.vm && Carries(db.vms[e.vm], db.leases[l]);
    assert l in LeasesExpiredBy(db, horizon);
    assert LeasesExpiredBy(db, horizon)[l] in due;
    var m :| 0 <= m < |due| && due[m] == db.leases[l];
    assert VisitReports(db, due[m], now, e);
  }

  // ---- the whole tick ----

  /** Every event other than a warning that a tick adds, and that it adds it once. */
  lemma TickReports(db: Db, warned: map<LeaseId, Time>, x: Lists3, now: Time, window: nat, e: Event)
    requires Sound(db) && TickLists(db, x, now + window) && !e.kind.VmExpiringSoon?
    ensures multiset(Ticked(db, warned, x, now).db.events)[e] ==
            multiset(db.events)[e] + if CallsFor(db, e, now) then 1 else 0
  {
    hide Sound, Ticked, AllRetryEvents, DrainEvents, AllVisitEvents, RetryEvents, CallsFor, Drainable;
    var mid, last := Retries(db, x), Drains(db, x);
    TickEvents(db, warned, x, now, window);
    DrainsExact(db, x, now + window);
    RetriesReport(db, x.pending, e);
    DrainsReport(mid, x.drained, e);
    VisitsReport(last, warned, x.due, now, now + window, e);
    OneReport(db, mid, last, now, e);
  }

  /** The three parts of a tick report different VMs. */
  lemma OneReport(db: Db, mid: Db, last: Db, now: Time, e: Event)
    requires Sound(db) && Sound(mid) && Sound(last)
    requires Without(db, mid, Pending(db)) && Without(db, last, Pending(db) + Drainable(db))
    ensures
      var retried := e.vm in db.vms && db.vms[e.vm].phase.Deleting? && RetryEvents(db, db.vms[e.vm]) == [e];
      var drained := e.kind.VmDeletedOnHostDrain? && e.vm in Drainable(mid) && e.pool == mid.vms[e.vm].pool;
      var expired := e.kind.VmDeletedDueToExpiry? && e.vm in last.vms && e.pool == last.vms[e.vm].pool
                     && last.vms[e.vm].leaseId.Some? && IsExpired(last, last.vms[e.vm].leaseId.value, now);
      && !(retried && drained) && !(retried && expired) && !(drained && expired)
      && (CallsFor(db, e, now) <==> retried || drained || expired)
  {
    DrainableStill(db, mid);
    if e.vm in db.vms && db.vms[e.vm].leaseId.Some? && db.vms[e.vm].leaseId.value in db.leases {
      var l := db.vms[e.vm].leaseId.value;
      assert db.leases[l].vm == e.vm;
      assert Carries(db.vms[db.leases[l].vm], db.leases[l]);
      UnleasedUnnamed(db, l);
    }
  }
}
