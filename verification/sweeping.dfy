/** What one tick of the Sweeper does to the tables, as a function of them, and what that amounts to:
    which rows and leases go, and which events are written. */
module Sweeping {
  import opened Records
  import opened Transactions
  import opened Stores
  import opened Deletions
  import opened Sets

  // ---- what a tick starts from ----

  ghost predicate Carries(v: Vm, l: Lease) {
    v.leaseId == Some(l.id) && v.pool == l.pool && (v.phase.Leased? || v.phase.Deleting?)
  }

  /** Lease rows and VM rows agree, and every lease's pool exists. */
  ghost predicate Sound(db: Db) {
    && (forall u | u in db.vms :: db.vms[u].uid == u)
    && (forall l | l in db.leases :: db.leases[l].id == l && db.leases[l].pool in db.pools)
    && (forall l | l in db.leases && db.leases[l].vm in db.vms :: Carries(db.vms[db.leases[l].vm], db.leases[l]))
    && (forall u | u in db.vms && db.vms[u].leaseId.Some? && db.vms[u].leaseId.value in db.leases ::
          db.leases[db.vms[u].leaseId.value].vm == u)
  }

  /** Only rows, leases and events may differ. */
  ghost predicate SameOffice(db: Db, db': Db) {
    db'.pools == db.pools && db'.hosts == db.hosts && db'.placements == db.placements
  }

  /** The rows without those of gone, and the leases that name none of them. */
  ghost predicate Without(db: Db, db': Db, gone: set<Uid>) {
    && SameOffice(db, db') && db'.vms == db.vms - gone
    && (forall l :: l in db'.leases <==> l in db.leases && db.leases[l].vm !in gone)
    && (forall l | l in db'.leases :: db'.leases[l] == db.leases[l])
  }

  lemma WithoutSound(db: Db, db': Db, gone: set<Uid>)
    requires Sound(db) && Without(db, db', gone)
    ensures Sound(db')
  {
    forall l | l in db'.leases && db'.leases[l].vm in db'.vms
      ensures Carries(db'.vms[db'.leases[l].vm], db'.leases[l]) {
      assert Carries(db.vms[db.leases[l].vm], db.leases[l]);
    }
  }

  lemma WithoutMore(a: Db, b: Db, c: Db, gone: set<Uid>, more: set<Uid>)
    requires Without(a, b, gone) && Without(b, c, more)
    ensures Without(a, c, gone + more)
  {
    SameMap(a.vms - gone - more, a.vms - (gone + more));
  }

  /** Only the lease a VM's row carries can name it. */
  lemma NamesNoOther(db: Db, u: Uid)
    requires Sound(db) && u in db.vms
    ensures forall l | l in db.leases && db.leases[l].vm == u ::
              db.vms[u].leaseId == Some(l) && db.vms[u].pool in db.pools
  {
    forall l | l in db.leases && db.leases[l].vm == u
      ensures db.vms[u].leaseId == Some(l) && db.vms[u].pool in db.pools {
      assert Carries(db.vms[u], db.leases[l]);
    }
  }

  // ---- listings ----

  ghost function Gone(r: seq<Vm>, n: nat): set<Uid>
    requires n <= |r|
  {
    set m | 0 <= m < n :: r[m].uid
  }

  lemma OneMoreGone(r: seq<Vm>, n: nat)
    requires n < |r|
    ensures Gone(r, n + 1) == Gone(r, n) + {r[n].uid}
  {
    SameSet(Gone(r, n + 1), Gone(r, n) + {r[n].uid});
  }

  lemma NoneGone(r: seq<Vm>)
    ensures Gone(r, 0) == {}
  {
    SameSet(Gone(r, 0), {});
  }

  /** A listing of rows, each once, as they are in the table. */
  ghost predicate Rows(db: Db, r: seq<Vm>) {
    && (forall m | 0 <= m < |r| :: r[m].uid in db.vms && db.vms[r[m].uid] == r[m])
    && (forall m, n | 0 <= m < n < |r| :: r[m].uid != r[n].uid)
  }

  lemma NotYetGone(r: seq<Vm>, n: nat)
    requires n < |r| && forall i, j | 0 <= i < j < |r| :: r[i].uid != r[j].uid
    ensures r[n].uid !in Gone(r, n)
  {
  }

  // ---- pending deletions ----

  function Retried(db: Db, vm: Vm): Db {
    if vm.uid !in db.vms then db
    else if vm.pool in db.pools && !(vm.leaseId.None? && IsDraining(db, vm.host))
    then Finished(DropVm(db, vm.uid), vm.pool, vm)
    else DropVm(db, vm.uid)
  }

  function RetriedAll(db: Db, vms: seq<Vm>, n: nat): Db
    requires n <= |vms|
  {
    if n == 0 then db else Retried(RetriedAll(db, vms, n - 1), vms[n - 1])
  }

  /** The event of a finished deletion: none for a VM whose pool is gone, or that a drain marked and
      reported; a release if the lease row was still there, an expiry otherwise. */
  function RetryEvents(db: Db, vm: Vm): seq<Event> {
    if vm.pool !in db.pools || (vm.leaseId.None? && IsDraining(db, vm.host)) then []
    else if vm.leaseId.Some? && vm.leaseId.value in db.leases then [Event(vm.pool, vm.uid, VmDeletedOnRelease)]
    else [Event(vm.pool, vm.uid, VmDeletedDueToExpiry)]
  }

  function AllRetryEvents(db: Db, vms: seq<Vm>, n: nat): seq<Event>
    requires n <= |vms|
  {
    if n == 0 then [] else AllRetryEvents(db, vms, n - 1) + RetryEvents(db, vms[n - 1])
  }

  lemma RetriedOne(db: Db, vm: Vm)
    requires Sound(db) && vm.uid in db.vms && db.vms[vm.uid] == vm
    ensures Without(db, Retried(db, vm), {vm.uid}) && Sound(Retried(db, vm))
    ensures Retried(db, vm).events == db.events + RetryEvents(db, vm)
  {
    NamesNoOther(db, vm.uid);
    WithoutSound(db, Retried(db, vm), {vm.uid});
  }

  lemma {:induction false} RetriedSoFar(db: Db, vms: seq<Vm>, n: nat)
    requires Sound(db) && Rows(db, vms) && n <= |vms|
    ensures Without(db, RetriedAll(db, vms, n), Gone(vms, n)) && Sound(RetriedAll(db, vms, n))
    ensures RetriedAll(db, vms, n).events == db.events + AllRetryEvents(db, vms, n)
  {
    hide Sound, Rows, Gone, Retried, RetryEvents;
    if n == 0 {
      NoneGone(vms);
      SameMap(db.vms - {}, db.vms);
    } else {
      hide Without;
      RetriedSoFar(db, vms, n - 1);
      RetriedNext(db, RetriedAll(db, vms, n - 1), vms, n - 1);
    }
  }

  lemma RetriedNext(db: Db, mid: Db, vms: seq<Vm>, n: nat)
    requires Sound(db) && Sound(mid) && Rows(db, vms) && n < |vms| && Without(db, mid, Gone(vms, n))
    ensures Without(db, Retried(mid, vms[n]), Gone(vms, n + 1)) && Sound(Retried(mid, vms[n]))
    ensures Retried(mid, vms[n]).events == mid.events + RetryEvents(db, vms[n])
  {
    NotYetGone(vms, n);
    OneMoreGone(vms, n);
    RetriedOne(mid, vms[n]);
    WithoutMore(db, mid, Retried(mid, vms[n]), Gone(vms, n), {vms[n].uid});
    SameLease(db, mid, vms[n], Gone(vms, n));
  }

  /** The deletions before this one left its lease alone. */
  lemma SameLease(db: Db, mid: Db, vm: Vm, gone: set<Uid>)
    requires Sound(db) && Without(db, mid, gone) && vm.uid in db.vms && db.vms[vm.uid] == vm && vm.uid !in gone
    ensures RetryEvents(mid, vm) == RetryEvents(db, vm)
  {
    if vm.leaseId.Some? {
      var l := vm.leaseId.value;
      if l in db.leases {
        assert db.leases[db.vms[vm.uid].leaseId.value].vm == vm.uid;
        assert l in mid.leases;
      } else {
        assert l !in mid.leases;
      }
    }
  }

  // ---- drains ----

  function DroppedAll(db: Db, vms: seq<Vm>, n: nat): Db
    requires n <= |vms|
  {
    if n == 0 then db else DropVm(DroppedAll(db, vms, n - 1), vms[n - 1].uid)
  }

  function DrainEvents(vms: seq<Vm>): seq<Event> {
    seq(|vms|, m requires 0 <= m < |vms| => Event(vms[m].pool, vms[m].uid, VmDeletedOnHostDrain))
  }

  /** MarkDrainingHostsVMsDeleting, the events, and then the deletes. */
  function DrainedOut(db: Db, vms: seq<Vm>): Db {
    DroppedAll(MarkUnleased(db, DrainingHosts(db)).(events := db.events + DrainEvents(vms)), vms, |vms|)
  }

  /** The rows a drain takes: unleased, on a draining host. */
  ghost function Drainable(db: Db): set<Uid> {
    set u | u in db.vms && IsDraining(db, db.vms[u].host) && Unleased(db.vms[u])
  }

  lemma {:induction false} DroppedSoFar(db: Db, vms: seq<Vm>, n: nat)
    requires n <= |vms|
    ensures DroppedAll(db, vms, n) == db.(vms := db.vms - Gone(vms, n))
  {
    if n == 0 {
      NoneGone(vms);
      SameMap(db.vms - {}, db.vms);
    } else {
      DroppedSoFar(db, vms, n - 1);
      OneMoreGone(vms, n - 1);
      SameMap(db.vms - Gone(vms, n - 1) - {vms[n - 1].uid}, db.vms - Gone(vms, n));
    }
  }

  lemma DrainedListed(db: Db, vms: seq<Vm>)
    requires Sound(db) && Lists(vms, MarkedBy(db, DrainingHosts(db)))
    ensures Gone(vms, |vms|) == Drainable(db)
  {
    var marked := MarkedBy(db, DrainingHosts(db));
    forall u ensures u in Gone(vms, |vms|) <==> u in Drainable(db) {
      if u in Drainable(db) {
        assert marked[u] in vms;
      }
      if u in Gone(vms, |vms|) {
        var m :| 0 <= m < |vms| && vms[m].uid == u;
        assert vms[m] in vms;
      }
    }
    SameSet(Gone(vms, |vms|), Drainable(db));
  }

  lemma UnleasedUnnamed(db: Db, l: LeaseId)
    requires Sound(db) && l in db.leases
    ensures db.leases[l].vm !in Drainable(db)
  {
    if db.leases[l].vm in db.vms {
      assert Carries(db.vms[db.leases[l].vm], db.leases[l]);
    }
  }

  lemma DrainExact(db: Db, vms: seq<Vm>)
    requires Sound(db) && Lists(vms, MarkedBy(db, DrainingHosts(db)))
    ensures Without(db, DrainedOut(db, vms), Drainable(db)) && Sound(DrainedOut(db, vms))
    ensures DrainedOut(db, vms).events == db.events + DrainEvents(vms)
  {
    var marked := MarkUnleased(db, DrainingHosts(db)).(events := db.events + DrainEvents(vms));
    DroppedSoFar(marked, vms, |vms|);
    DrainedListed(db, vms);
    forall u | u in db.vms && u !in Drainable(db) ensures marked.vms[u] == db.vms[u] {
      assert db.vms[u].host in DrainingHosts(db) <==> IsDraining(db, db.vms[u].host);
    }
    SameMap(marked.vms - Drainable(db), db.vms - Drainable(db));
    forall l | l in db.leases ensures db.leases[l].vm !in Drainable(db) {
      UnleasedUnnamed(db, l);
    }
    WithoutSound(db, DrainedOut(db, vms), Drainable(db));
  }

  // ---- leases ----

  /** beginExpiry: nothing if the lease was renewed or is gone; its VM goes only if it is still LEASED
      and its pool exists. */
  function Expired(db: Db, l: Lease, now: Time): Db {
    if !IsExpired(db, l.id, now) then db
    else
      var ended := DropLease(db, l.id);
      if l.vm !in ended.vms || !ended.vms[l.vm].phase.Leased? || l.pool !in ended.pools then ended
      else Finished(DropVm(ended, l.vm), l.pool, ended.vms[l.vm])
  }

  /** warnExpiringSoon. */
  function Warned(db: Db, l: Lease): Db {
    if l.pool in db.pools then Emit(db, Event(l.pool, l.vm, VmExpiringSoon)) else db
  }

  predicate AlreadyWarned(warned: map<LeaseId, Time>, l: Lease) {
    l.id in warned && warned[l.id] == l.expiresAt
  }

  /** The tables and the warned map, while the listed leases are visited. */
  datatype Round = Round(db: Db, warned: map<LeaseId, Time>)

  function Visited(x: Round, l: Lease, now: Time): Round {
    if l.expiresAt <= now then Round(Expired(x.db, l, now), x.warned - {l.id})
    else if AlreadyWarned(x.warned, l) then x
    else Round(Warned(x.db, l), x.warned[l.id := l.expiresAt])
  }

  function VisitedAll(x: Round, leases: seq<Lease>, n: nat, now: Time): Round
    requires n <= |leases|
  {
    if n == 0 then x else Visited(VisitedAll(x, leases, n - 1, now), leases[n - 1], now)
  }

  /** The event a visit writes: an expiry that found its VM, or a warning not yet given. */
  function VisitEvents(db: Db, warned: map<LeaseId, Time>, l: Lease, now: Time): seq<Event> {
    if l.expiresAt <= now then (if l.vm in db.vms then [Event(l.pool, l.vm, VmDeletedDueToExpiry)] else [])
    else if AlreadyWarned(warned, l) then []
    else [Event(l.pool, l.vm, VmExpiringSoon)]
  }

  function AllVisitEvents(db: Db, warned: map<LeaseId, Time>, leases: seq<Lease>, n: nat, now: Time): seq<Event>
    requires n <= |leases|
  {
    if n == 0 then []
    else AllVisitEvents(db, warned, leases, n - 1, now) + VisitEvents(db, warned, leases[n - 1], now)
  }

  /** The leases of a listing, each once, as they are in the table. */
  ghost predicate LeaseRows(db: Db, r: seq<Lease>) {
    && (forall m | 0 <= m < |r| :: r[m].id in db.leases && db.leases[r[m].id] == r[m])
    && (forall m, n | 0 <= m < n < |r| :: r[m].id != r[n].id)
  }

  ghost predicate NonePending(db: Db) {
    forall u | u in db.vms :: !db.vms[u].phase.Deleting?
  }

  /** The leases of ended have gone, with the VMs they name. */
  ghost predicate Ended(db: Db, db': Db, ended: set<LeaseId>) {
    && SameOffice(db, db') && db'.leases == db.leases - ended
    && (forall u :: u in db'.vms <==> u in db.vms && !Names(db, ended, u))
    && (forall u | u in db'.vms :: db'.vms[u] == db.vms[u])
  }

  ghost predicate Names(db: Db, ended: set<LeaseId>, u: Uid) {
    exists l :: l in ended && l in db.leases && db.leases[l].vm == u
  }

  ghost function EndedBy(r: seq<Lease>, n: nat, now: Time): set<LeaseId>
    requires n <= |r|
  {
    set m | 0 <= m < n && r[m].expiresAt <= now :: r[m].id
  }

  lemma EndedSound(db: Db, db': Db, ended: set<LeaseId>)
    requires Sound(db) && Ended(db, db', ended)
    ensures Sound(db') && (NonePending(db) ==> NonePending(db'))
  {
    forall l | l in db'.leases && db'.leases[l].vm in db'.vms
      ensures Carries(db'.vms[db'.leases[l].vm], db'.leases[l]) {
      assert Carries(db.vms[db.leases[l].vm], db.leases[l]);
    }
  }

  /** A lease that is listed and has not been visited still names its VM alone. */
  lemma StillNamed(db: Db, mid: Db, ended: set<LeaseId>, l: Lease)
    requires Sound(db) && Ended(db, mid, ended) && l.id in db.leases && db.leases[l.id] == l && l.id !in ended
    ensures l.vm in mid.vms <==> l.vm in db.vms
  {
    if l.vm in db.vms && Names(db, ended, l.vm) {
      var k :| k in ended && k in db.leases && db.leases[k].vm == l.vm;
      NamesNoOther(db, l.vm);
      assert false;
    }
  }

  /** Ending one more lease. */
  lemma EndedOneMore(db: Db, mid: Db, ended: set<LeaseId>, l: Lease, now: Time)
    requires Sound(db) && NonePending(db) && Ended(db, mid, ended)
    requires l.id in db.leases && db.leases[l.id] == l && l.id !in ended && l.expiresAt <= now
    ensures Ended(db, Expired(mid, l, now), ended + {l.id})
    ensures Expired(mid, l, now).events == mid.events + VisitEvents(db, map[], l, now)
  {
    EndedSound(db, mid, ended);
    StillNamed(db, mid, ended, l);
    if l.vm in mid.vms {
      assert Carries(mid.vms[l.vm], mid.leases[l.id]);
    }
    SameMap(db.leases - ended - {l.id}, db.leases - (ended + {l.id}));
    NamesOneMore(db, ended, l);
  }

  lemma NamesOneMore(db: Db, ended: set<LeaseId>, l: Lease)
    requires l.id in db.leases && db.leases[l.id] == l
    ensures forall u :: Names(db, ended + {l.id}, u) <==> Names(db, ended, u) || u == l.vm
  {
    forall u ensures Names(db, ended + {l.id}, u) <==> Names(db, ended, u) || u == l.vm {
      if u == l.vm {
        assert l.id in ended + {l.id} && db.leases[l.id].vm == u;
      }
      if Names(db, ended, u) {
        var k :| k in ended && k in db.leases && db.leases[k].vm == u;
        assert k in ended + {l.id};
      }
    }
  }

  /** What the first n leases leave in warned. */
  ghost predicate WarnedSoFar(r: seq<Lease>, n: nat, now: Time, before: map<LeaseId, Time>, warned: map<LeaseId, Time>)
    requires n <= |r|
  {
    && (forall m | 0 <= m < n :: r[m].id in warned <==> r[m].expiresAt > now)
    && (forall m | 0 <= m < n && r[m].expiresAt > now :: r[m].id in warned && warned[r[m].id] == r[m].expiresAt)
    && (forall id | (forall m | 0 <= m < n :: r[m].id != id) ::
          (id in warned <==> id in before) && (id in before ==> id in warned && warned[id] == before[id]))
  }

  ghost predicate VisitedFine(x: Round, r: seq<Lease>, n: nat, now: Time, y: Round)
    requires n <= |r|
  {
    && Ended(x.db, y.db, EndedBy(r, n, now)) && WarnedSoFar(r, n, now, x.warned, y.warned)
    && y.db.events == x.db.events + AllVisitEvents(x.db, x.warned, r, n, now)
  }

  lemma NotYetEnded(r: seq<Lease>, n: nat, now: Time)
    requires n < |r| && forall i, j | 0 <= i < j < |r| :: r[i].id != r[j].id
    ensures r[n].id !in EndedBy(r, n, now)
    ensures r[n].expiresAt <= now ==> EndedBy(r, n + 1, now) == EndedBy(r, n, now) + {r[n].id}
    ensures r[n].expiresAt > now ==> EndedBy(r, n + 1, now) == EndedBy(r, n, now)
  {
    if r[n].expiresAt <= now {
      SameSet(EndedBy(r, n + 1, now), EndedBy(r, n, now) + {r[n].id});
    } else {
      SameSet(EndedBy(r, n + 1, now), EndedBy(r, n, now));
    }
  }

  lemma WarnedOneMore(r: seq<Lease>, n: nat, now: Time, before: map<LeaseId, Time>, held: map<LeaseId, Time>)
    requires n < |r| && WarnedSoFar(r, n, now, before, held) && forall i, j | 0 <= i < j < |r| :: r[i].id != r[j].id
    ensures AlreadyWarned(held, r[n]) <==> AlreadyWarned(before, r[n])
    ensures r[n].expiresAt <= now ==> WarnedSoFar(r, n + 1, now, before, held - {r[n].id})
    ensures r[n].expiresAt > now ==>
              WarnedSoFar(r, n + 1, now, before, if AlreadyWarned(held, r[n]) then held
                else held[r[n].id := r[n].expiresAt])
  {
    assert forall m | 0 <= m < n :: r[m].id != r[n].id;
  }

  /** An ended lease's VM is the only thing its visit takes; a live lease's visit takes nothing. */
  lemma VisitedNext(x: Round, r: seq<Lease>, n: nat, now: Time, y: Round)
    requires Sound(x.db) && NonePending(x.db) && LeaseRows(x.db, r) && n < |r| && VisitedFine(x, r, n, now, y)
    ensures VisitedFine(x, r, n + 1, now, Visited(y, r[n], now))
  {
    hide Sound, WarnedSoFar, NonePending, EndedBy;
    NotYetEnded(r, n, now);
    WarnedOneMore(r, n, now, x.warned, y.warned);
    if r[n].expiresAt <= now {
      EndedOneMore(x.db, y.db, EndedBy(r, n, now), r[n], now);
    } else {
      WarningOnly(x.db, y.db, EndedBy(r, n, now), r[n]);
    }
  }

  lemma WarningOnly(db: Db, mid: Db, ended: set<LeaseId>, l: Lease)
    requires Sound(db) && Ended(db, mid, ended) && l.id in db.leases && db.leases[l.id] == l
    ensures Ended(db, Warned(mid, l), ended)
    ensures Warned(mid, l).events == mid.events + [Event(l.pool, l.vm, VmExpiringSoon)]
  {
  }

  lemma NoneVisited(x: Round, r: seq<Lease>, now: Time)
    requires Sound(x.db)
    ensures VisitedFine(x, r, 0, now, x)
  {
    SameSet(EndedBy(r, 0, now), {});
    SameMap(x.db.leases - {}, x.db.leases);
  }

  lemma {:induction false} VisitedSoFar(x: Round, r: seq<Lease>, n: nat, now: Time)
    requires Sound(x.db) && NonePending(x.db) && LeaseRows(x.db, r) && n <= |r|
    ensures VisitedFine(x, r, n, now, VisitedAll(x, r, n, now))
  {
    hide Sound, NonePending, LeaseRows, VisitedFine, Visited;
    if n == 0 {
      NoneVisited(x, r, now);
    } else {
      VisitedSoFar(x, r, n - 1, now);
      VisitedNext(x, r, n - 1, now, VisitedAll(x, r, n - 1, now));
    }
  }

  // ---- the whole tick ----

  /** A tick's listings: the DELETING rows, the rows a drain marks after them, and the leases due by
      the end of the warning window after that. */
  datatype Lists3 = Lists3(pending: seq<Vm>, drained: seq<Vm>, due: seq<Lease>)

  function Retries(db: Db, x: Lists3): Db {
    RetriedAll(db, x.pending, |x.pending|)
  }

  function Drains(db: Db, x: Lists3): Db {
    DrainedOut(Retries(db, x), x.drained)
  }

  ghost predicate TickLists(db: Db, x: Lists3, horizon: Time) {
    && Lists(x.pending, VmsInPhase(db, Deleting))
    && Lists(x.drained, MarkedBy(Retries(db, x), DrainingHosts(Retries(db, x))))
    && ListsLeases(x.due, LeasesExpiredBy(Drains(db, x), horizon))
  }

  /** The entries of warned that the listing returned again. */
  function Evicted(warned: map<LeaseId, Time>, due: seq<Lease>): map<LeaseId, Time> {
    map l | l in warned && (exists m | 0 <= m < |due| :: due[m].id == l) :: warned[l]
  }

  function Ticked(db: Db, warned: map<LeaseId, Time>, x: Lists3, now: Time): Round {
    var y := VisitedAll(Round(Drains(db, x), warned), x.due, |x.due|, now);
    Round(y.db, Evicted(y.warned, x.due))
  }

  /** A row a tick at now removes: DELETING, unleased on a draining host, or under an expired lease. */
  ghost predicate Due(db: Db, u: Uid, now: Time)
    requires u in db.vms
  {
    var v := db.vms[u];
    || v.phase.Deleting?
    || (v.host in db.hosts && db.hosts[v.host].draining && !v.phase.Leased? && !v.phase.PreLeaseHookRunning?)
    || (v.leaseId.Some? && v.leaseId.value in db.leases && db.leases[v.leaseId.value].expiresAt <= now)
  }

  /** A lease it ends: expired, or of a VM that was DELETING. */
  ghost predicate LeaseDue(db: Db, l: LeaseId, now: Time)
    requires l in db.leases
  {
    db.leases[l].expiresAt <= now || (db.leases[l].vm in db.vms && db.vms[db.leases[l].vm].phase.Deleting?)
  }

  ghost function Pending(db: Db): set<Uid> {
    set u | u in db.vms && db.vms[u].phase.Deleting?
  }

  lemma PendingListed(db: Db, r: seq<Vm>)
    requires Sound(db) && Lists(r, VmsInPhase(db, Deleting))
    ensures Rows(db, r) && Gone(r, |r|) == Pending(db)
  {
    forall m | 0 <= m < |r| ensures r[m].uid in db.vms && db.vms[r[m].uid] == r[m] && r[m].phase.Deleting? {
      assert r[m] in r;
    }
    forall m, n | 0 <= m < n < |r| ensures r[m].uid != r[n].uid {
      ListedApart(r, VmsInPhase(db, Deleting), m, n);
    }
    forall u ensures u in Gone(r, |r|) <==> u in Pending(db) {
      if u in Pending(db) {
        assert VmsInPhase(db, Deleting)[u] in r;
      }
    }
    SameSet(Gone(r, |r|), Pending(db));
  }

  lemma DueListed(db: Db, r: seq<Lease>, horizon: Time)
    requires Sound(db) && ListsLeases(r, LeasesExpiredBy(db, horizon))
    ensures LeaseRows(db, r)
    ensures forall l | l in LeasesExpiredBy(db, horizon) :: exists m | 0 <= m < |r| :: r[m].id == l
    ensures forall m | 0 <= m < |r| :: r[m].id in LeasesExpiredBy(db, horizon)
  {
    forall m | 0 <= m < |r| ensures r[m].id in LeasesExpiredBy(db, horizon) && db.leases[r[m].id] == r[m] {
      assert r[m] in r;
    }
    forall l | l in LeasesExpiredBy(db, horizon) ensures exists m | 0 <= m < |r| :: r[m].id == l {
      assert LeasesExpiredBy(db, horizon)[l] in r;
    }
  }

  lemma DrainableStill(db: Db, mid: Db)
    requires Without(db, mid, Pending(db))
    ensures Drainable(mid) == Drainable(db)
  {
    forall u ensures u in Drainable(mid) <==> u in Drainable(db) {
      if u in db.vms && Unleased(db.vms[u]) {
        assert u !in Pending(db) && u in mid.vms;
      }
    }
    SameSet(Drainable(mid), Drainable(db));
  }

  /** After pending deletions and drains: exactly the DELETING and the drainable rows are gone, with
      the leases that named them. */
  lemma DrainsExact(db: Db, x: Lists3, horizon: Time)
    requires Sound(db) && TickLists(db, x, horizon)
    ensures Without(db, Retries(db, x), Pending(db)) && Sound(Retries(db, x))
    ensures Without(db, Drains(db, x), Pending(db) + Drainable(db)) && Sound(Drains(db, x))
    ensures NonePending(Drains(db, x))
    ensures Gone(x.pending, |x.pending|) == Pending(db) && Gone(x.drained, |x.drained|) == Drainable(db)
  {
    PendingListed(db, x.pending);
    RetriedSoFar(db, x.pending, |x.pending|);
    var mid := Retries(db, x);
    DrainedListed(mid, x.drained);
    DrainExact(mid, x.drained);
    DrainableStill(db, mid);
    WithoutMore(db, mid, Drains(db, x), Pending(db), Drainable(db));
  }

  lemma AllEnded(db: Db, r: seq<Lease>, now: Time, horizon: Time, l: LeaseId)
    requires Sound(db) && now <= horizon && ListsLeases(r, LeasesExpiredBy(db, horizon)) && l in db.leases
    ensures l in EndedBy(r, |r|, now) <==> IsExpired(db, l, now)
  {
    DueListed(db, r, horizon);
    if IsExpired(db, l, now) {
      assert l in LeasesExpiredBy(db, horizon);
      var m :| 0 <= m < |r| && r[m].id == l;
    }
  }

  /** Which rows are left after a tick, and that they are as they were. */
  lemma RowsLeft(db: Db, mid: Db, end: Db, ended: set<LeaseId>, now: Time, u: Uid)
    requires Sound(db) && Sound(mid) && Without(db, mid, Pending(db) + Drainable(db)) && Ended(mid, end, ended)
    requires forall l | l in mid.leases :: l in ended <==> IsExpired(mid, l, now)
    ensures u in end.vms <==> u in db.vms && !Due(db, u, now)
    ensures u in end.vms ==> end.vms[u] == db.vms[u]
  {
    if u in mid.vms {
      NamesNoOther(mid, u);
      if Names(mid, ended, u) {
        var l :| l in ended && l in mid.leases && mid.leases[l].vm == u;
        assert mid.vms[u].leaseId == Some(l) && IsExpired(db, l, now);
      }
      if db.vms[u].leaseId.Some? && IsExpired(db, db.vms[u].leaseId.value, now) {
        var l := db.vms[u].leaseId.value;
        assert db.leases[l].vm == u;
        assert l in mid.leases && l in ended;
      }
    }
  }

  lemma LeasesLeft(db: Db, mid: Db, end: Db, ended: set<LeaseId>, now: Time, l: LeaseId)
    requires Sound(db) && Without(db, mid, Pending(db) + Drainable(db)) && Ended(mid, end, ended)
    requires forall k | k in mid.leases :: k in ended <==> IsExpired(mid, k, now)
    ensures l in end.leases <==> l in db.leases && !LeaseDue(db, l, now)
    ensures l in end.leases ==> end.leases[l] == db.leases[l]
  {
    if l in db.leases {
      UnleasedUnnamed(db, l);
    }
  }

  /** Exactly what one uninterrupted tick leaves, with flintlock answering: a row goes if and only if
      it was DELETING, unleased on a draining host, or under a lease expired at now; a lease goes if
      and only if it had expired or its VM was DELETING; everything else is as it was. */
  lemma TickExact(db: Db, warned: map<LeaseId, Time>, x: Lists3, now: Time, window: nat)
    requires Sound(db) && TickLists(db, x, now + window)
    ensures var end := Ticked(db, warned, x, now).db; Sound(end) && SameOffice(db, end)
    ensures forall u :: u in Ticked(db, warned, x, now).db.vms <==> u in db.vms && !Due(db, u, now)
    ensures forall u | u in Ticked(db, warned, x, now).db.vms :: Ticked(db, warned, x, now).db.vms[u] == db.vms[u]
    ensures forall l :: l in Ticked(db, warned, x, now).db.leases <==> l in db.leases && !LeaseDue(db, l, now)
    ensures forall l | l in Ticked(db, warned, x, now).db.leases ::
              Ticked(db, warned, x, now).db.leases[l] == db.leases[l]
  {
    hide Sound, IsExpired, Due, LeaseDue, Drains, Pending, Drainable, EndedBy, VisitedAll, ListsLeases, LeasesExpiredBy,
      LeaseRows, NonePending, Lists, Evicted;
    var mid := Drains(db, x);
    var end := Ticked(db, warned, x, now).db;
    var ended := EndedBy(x.due, |x.due|, now);
    DrainsExact(db, x, now + window);
    DueListed(mid, x.due, now + window);
    VisitedSoFar(Round(mid, warned), x.due, |x.due|, now);
    EndedSound(mid, end, ended);
    forall l | l in mid.leases ensures l in ended <==> IsExpired(mid, l, now) {
      AllEnded(mid, x.due, now, now + window, l);
    }
    forall u ensures (u in end.vms <==> u in db.vms && !Due(db, u, now)) && (u in end.vms ==> end.vms[u] == db.vms[u]) {
      RowsLeft(db, mid, end, ended, now, u);
    }
    forall l ensures (l in end.leases <==> l in db.leases && !LeaseDue(db, l, now))
      && (l in end.leases ==> end.leases[l] == db.leases[l]) {
      LeasesLeft(db, mid, end, ended, now, l);
    }
  }

  /** What the source promises of a tick: no DELETING row and no expired lease is left, only leased
      rows on draining hosts, no lease of a VM the tick removed; and a LEASED VM under an unexpired
      lease, and that lease, are untouched. */
  lemma TickPromises(db: Db, warned: map<LeaseId, Time>, x: Lists3, now: Time, window: nat)
    requires Sound(db) && TickLists(db, x, now + window)
    ensures
      var end := Ticked(db, warned, x, now).db;
      && (forall u | u in end.vms :: !end.vms[u].phase.Deleting?)
      && (forall l | l in end.leases :: end.leases[l].expiresAt > now)
      && (forall u | u in end.vms && end.vms[u].host in end.hosts && end.hosts[end.vms[u].host].draining ::
            end.vms[u].phase.Leased? || end.vms[u].phase.PreLeaseHookRunning?)
      && (forall l | l in end.leases && end.leases[l].vm in db.vms :: end.leases[l].vm in end.vms)
    ensures
      var end := Ticked(db, warned, x, now).db;
      forall l | l in db.leases && db.leases[l].expiresAt > now && db.leases[l].vm in db.vms
        && db.vms[db.leases[l].vm].phase.Leased? ::
        && l in end.leases && end.leases[l] == db.leases[l]
        && db.leases[l].vm in end.vms && end.vms[db.leases[l].vm] == db.vms[db.leases[l].vm]
  {
    TickExact(db, warned, x, now, window);
    var end := Ticked(db, warned, x, now).db;
    forall l | l in db.leases && db.leases[l].vm in db.vms && db.vms[db.leases[l].vm].phase.Leased?
      && db.leases[l].expiresAt > now
      ensures !Due(db, db.leases[l].vm, now)
    {
      NamesNoOther(db, db.leases[l].vm);
    }
    forall l | l in end.leases && end.leases[l].vm in db.vms ensures end.leases[l].vm in end.vms {
      NamesNoOther(db, db.leases[l].vm);
      UnleasedUnnamed(db, l);
    }
  }

  // ---- flintlock ----

  /** The expiry of l deletes its VM. */
  predicate Deletes(db: Db, l: Lease, now: Time) {
    && l.expiresAt <= now && IsExpired(db, l.id, now)
    && l.vm in db.vms && db.vms[l.vm].phase.Leased? && l.pool in db.pools
  }

  /** The VMs the first n visits delete. */
  ghost function Deleted(x: Round, leases: seq<Lease>, n: nat, now: Time): set<Uid>
    requires n <= |leases|
  {
    if n == 0 then {}
    else
      Deleted(x, leases, n - 1, now)
      + if Deletes(VisitedAll(x, leases, n - 1, now).db, leases[n - 1], now) then {leases[n - 1].vm} else {}
  }

  /** The microVMs a tick deletes in flintlock. */
  ghost function TickDeletes(db: Db, warned: map<LeaseId, Time>, x: Lists3, now: Time): set<Uid> {
    Gone(x.pending, |x.pending|) + Gone(x.drained, |x.drained|)
    + Deleted(Round(Drains(db, x), warned), x.due, |x.due|, now)
  }

  lemma DeletesOne(db: Db, mid: Db, ended: set<LeaseId>, l: Lease, now: Time)
    requires Sound(db) && NonePending(db) && Ended(db, mid, ended)
    requires l.id in db.leases && db.leases[l.id] == l && l.id !in ended
    ensures Deletes(mid, l, now) <==> l.expiresAt <= now && l.vm in db.vms
  {
    EndedSound(db, mid, ended);
    StillNamed(db, mid, ended, l);
    if l.vm in mid.vms {
      assert Carries(mid.vms[l.vm], mid.leases[l.id]);
    }
  }

  lemma DeletesNext(x: Round, leases: seq<Lease>, n: nat, now: Time)
    requires Sound(x.db) && NonePending(x.db) && LeaseRows(x.db, leases) && n < |leases|
    ensures Deletes(VisitedAll(x, leases, n, now).db, leases[n], now) <==>
            leases[n].expiresAt <= now && leases[n].vm in x.db.vms
  {
    hide Sound, NonePending, Ended, WarnedSoFar, EndedBy, Deletes, VisitedAll, AllVisitEvents;
    VisitedSoFar(x, leases, n, now);
    NotYetEnded(leases, n, now);
    DeletesOne(x.db, VisitedAll(x, leases, n, now).db, EndedBy(leases, n, now), leases[n], now);
  }

  lemma NamesNext(db: Db, leases: seq<Lease>, n: nat, now: Time, u: Uid)
    requires LeaseRows(db, leases) && n < |leases|
    ensures Names(db, EndedBy(leases, n + 1, now), u) <==>
            Names(db, EndedBy(leases, n, now), u) || (leases[n].expiresAt <= now && u == leases[n].vm)
  {
    hide EndedBy, Names;
    NotYetEnded(leases, n, now);
    NamesOneMore(db, EndedBy(leases, n, now), leases[n]);
  }

  lemma NoneNamed(db: Db, leases: seq<Lease>, now: Time, u: Uid)
    ensures !Names(db, EndedBy(leases, 0, now), u)
  {
  }

  lemma {:induction false} DeletedSoFar(x: Round, leases: seq<Lease>, n: nat, now: Time, u: Uid)
    requires Sound(x.db) && NonePending(x.db) && LeaseRows(x.db, leases) && n <= |leases|
    ensures u in Deleted(x, leases, n, now) <==> u in x.db.vms && Names(x.db, EndedBy(leases, n, now), u)
  {
    hide Sound, NonePending, LeaseRows, Deletes, VisitedAll, Names, EndedBy;
    if n == 0 {
      NoneNamed(x.db, leases, now, u);
    } else {
      DeletedSoFar(x, leases, n - 1, now, u);
      DeletesNext(x, leases, n - 1, now);
      NamesNext(x.db, leases, n - 1, now, u);
    }
  }

  /** What the visits of a tick start from and leave. */
  lemma TickVisits(db: Db, warned: map<LeaseId, Time>, x: Lists3, now: Time, window: nat)
    requires Sound(db) && TickLists(db, x, now + window)
    ensures
      var mid := Drains(db, x);
      && Without(db, mid, Pending(db) + Drainable(db)) && Sound(mid) && NonePending(mid) && LeaseRows(mid, x.due)
      && Ended(mid, Ticked(db, warned, x, now).db, EndedBy(x.due, |x.due|, now))
      && ListsLeases(x.due, LeasesExpiredBy(mid, now + window))
      && Gone(x.pending, |x.pending|) == Pending(db) && Gone(x.drained, |x.drained|) == Drainable(db)
  {
    DrainsExact(db, x, now + window);
    DueListed(Drains(db, x), x.due, now + window);
    VisitedSoFar(Round(Drains(db, x), warned), x.due, |x.due|, now);
  }

  /** Flintlock loses exactly the VMs whose rows the tick removes. */
  lemma TickDeletesExactly(db: Db, warned: map<LeaseId, Time>, x: Lists3, now: Time, window: nat, u: Uid)
    requires Sound(db) && TickLists(db, x, now + window)
    ensures u in TickDeletes(db, warned, x, now) <==> u in db.vms && Due(db, u, now)
  {
    hide Sound, TickLists, Ticked, VisitedAll, Names, Gone, Deleted, LeaseRows, NonePending;
    var mid := Drains(db, x);
    var ended := EndedBy(x.due, |x.due|, now);
    TickVisits(db, warned, x, now, window);
    DeletedSoFar(Round(mid, warned), x.due, |x.due|, now, u);
    forall l | l in mid.leases ensures l in ended <==> IsExpired(mid, l, now) {
      AllEnded(mid, x.due, now, now + window, l);
    }
    RowsLeft(db, mid, Ticked(db, warned, x, now).db, ended, now, u);
  }
}
