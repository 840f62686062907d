/** VM_EXPIRING_SOON in the outbox: what one tick writes, and that a lease is warned about at most once
    for as long as its expiry time stays the same. */
module Warnings {
  import opened Records
  import opened Transactions
  import opened Stores
  import opened Sweeping

  predicate IsWarning(e: Event) {
    e.kind.VmExpiringSoon?
  }

  /** The warnings among the events, in order. */
  function WarningsIn(events: seq<Event>): seq<Event> {
    if events == [] then []
    else
      var before := WarningsIn(events[..|events| - 1]);
      if IsWarning(events[|events| - 1]) then before + [events[|events| - 1]] else before
  }

  lemma {:induction false} WarningsSplit(a: seq<Event>, b: seq<Event>)
    ensures WarningsIn(a + b) == WarningsIn(a) + WarningsIn(b)
    decreases |b|
  {
    if b == [] {
      assert a + b == a;
    } else {
      assert (a + b)[..|a + b| - 1] == a + b[..|b| - 1];
      WarningsSplit(a, b[..|b| - 1]);
    }
  }

  lemma {:induction false} NoWarnings(events: seq<Event>)
    requires forall m | 0 <= m < |events| :: !IsWarning(events[m])
    ensures WarningsIn(events) == []
  {
    if events != [] {
      NoWarnings(events[..|events| - 1]);
    }
  }

  // ---- one tick ----

  /** The warning a listed lease gets: one if it has not expired and was not warned about at this
      expiry time, otherwise none. */
  function Alarm(warned: map<LeaseId, Time>, l: Lease, now: Time): seq<Event> {
    if l.expiresAt > now && !AlreadyWarned(warned, l) then [Event(l.pool, l.vm, VmExpiringSoon)] else []
  }

  function Alarms(warned: map<LeaseId, Time>, due: seq<Lease>, n: nat, now: Time): seq<Event>
    requires n <= |due|
  {
    if n == 0 then [] else Alarms(warned, due, n - 1, now) + Alarm(warned, due[n - 1], now)
  }

  lemma {:induction false} VisitWarnings(db: Db, warned: map<LeaseId, Time>, due: seq<Lease>, n: nat, now: Time)
    requires n <= |due|
    ensures WarningsIn(AllVisitEvents(db, warned, due, n, now)) == Alarms(warned, due, n, now)
  {
    hide WarningsIn, VisitEvents, Alarm;
    if n == 0 {
      NoWarnings([]);
    } else {
      VisitWarnings(db, warned, due, n - 1, now);
      var last := VisitEvents(db, warned, due[n - 1], now);
      WarningsSplit(AllVisitEvents(db, warned, due, n - 1, now), last);
      VisitAlarm(db, warned, due[n - 1], now);
    }
  }

  lemma VisitAlarm(db: Db, warned: map<LeaseId, Time>, l: Lease, now: Time)
    ensures WarningsIn(VisitEvents(db, warned, l, now)) == Alarm(warned, l, now)
  {
    hide WarningsIn;
    OneEvent(VisitEvents(db, warned, l, now));
  }

  lemma OneEvent(events: seq<Event>)
    requires |events| <= 1
    ensures WarningsIn(events) == if |events| == 1 && IsWarning(events[0]) then events else []
  {
    if |events| == 1 {
      assert events[..0] == [];
    }
  }

  lemma {:induction false} RetriesWarnNobody(db: Db, vms: seq<Vm>, n: nat)
    requires n <= |vms|
    ensures WarningsIn(AllRetryEvents(db, vms, n)) == []
  {
    hide WarningsIn;
    if n == 0 {
      NoWarnings([]);
    } else {
      RetriesWarnNobody(db, vms, n - 1);
      WarningsSplit(AllRetryEvents(db, vms, n - 1), RetryEvents(db, vms[n - 1]));
      OneEvent(RetryEvents(db, vms[n - 1]));
    }
  }

  lemma DrainsWarnNobody(vms: seq<Vm>)
    ensures WarningsIn(DrainEvents(vms)) == []
  {
    hide WarningsIn;
    NoWarnings(DrainEvents(vms));
  }

  /** A tick warns exactly about the listed leases it has not warned about at their expiry time. */
  lemma TickWarns(db: Db, warned: map<LeaseId, Time>, x: Lists3, now: Time, window: nat)
    requires Sound(db) && TickLists(db, x, now + window)
    ensures WarningsIn(Ticked(db, warned, x, now).db.events) == WarningsIn(db.events)
              + Alarms(warned, x.due, |x.due|, now)
  {
    hide *;
    var retried, drained := AllRetryEvents(db, x.pending, |x.pending|), DrainEvents(x.drained);
    var visited := AllVisitEvents(Drains(db, x), warned, x.due, |x.due|, now);
    TickEvents(db, warned, x, now, window);
    WarningsSplit(db.events + retried + drained, visited);
    WarningsSplit(db.events + retried, drained);
    WarningsSplit(db.events, retried);
    RetriesWarnNobody(db, x.pending, |x.pending|);
    DrainsWarnNobody(x.drained);
    VisitWarnings(Drains(db, x), warned, x.due, |x.due|, now);
  }

  /** Every event a tick writes, in order. */
  lemma TickEvents(db: Db, warned: map<LeaseId, Time>, x: Lists3, now: Time, window: nat)
    requires Sound(db) && TickLists(db, x, now + window)
    ensures Ticked(db, warned, x, now).db.events ==
            db.events + AllRetryEvents(db, x.pending, |x.pending|) + DrainEvents(x.drained)
            + AllVisitEvents(Drains(db, x), warned, x.due, |x.due|, now)
  {
    hide Sound, Rows, Gone, Without, Pending, Drainable, NonePending, Lists, ListsLeases, LeasesExpiredBy, LeaseRows,
      Ended, WarnedSoFar, EndedBy, Evicted;
    PendingListed(db, x.pending);
    RetriedSoFar(db, x.pending, |x.pending|);
    DrainExact(Retries(db, x), x.drained);
    DrainsExact(db, x, now + window);
    DueListed(Drains(db, x), x.due, now + window);
    VisitedSoFar(Round(Drains(db, x), warned), x.due, |x.due|, now);
  }

  /** What warned holds after a tick that listed due: the leases not expired, at their expiry times. */
  ghost predicate WarnedIs(warned: map<LeaseId, Time>, due: seq<Lease>, now: Time) {
    && (forall l | l in warned :: exists m | 0 <= m < |due| :: due[m].id == l && due[m].expiresAt > now)
    && (forall m | 0 <= m < |due| && due[m].expiresAt > now ::
         due[m].id in warned && warned[due[m].id] == due[m].expiresAt)
  }

  lemma TickRemembers(db: Db, warned: map<LeaseId, Time>, x: Lists3, now: Time, window: nat)
    requires Sound(db) && TickLists(db, x, now + window)
    ensures WarnedIs(Ticked(db, warned, x, now).warned, x.due, now)
  {
    DrainsExact(db, x, now + window);
    DueListed(Drains(db, x), x.due, now + window);
    VisitedSoFar(Round(Drains(db, x), warned), x.due, |x.due|, now);
  }

  // ---- many ticks ----

  /** The part of a tick the warnings depend on: the lease rows it could see, its now, the leases it
      listed, and what warned held after it. */
  datatype Glance = Glance(leases: map<LeaseId, Lease>, now: Time, due: seq<Lease>, after: map<LeaseId, Time>)

  ghost predicate Fine(g: Glance, window: nat) {
    && (forall l | l in g.leases :: g.leases[l].id == l)
    && (forall m | 0 <= m < |g.due| ::
          g.due[m].id in g.leases && g.leases[g.due[m].id] == g.due[m] && g.due[m].expiresAt <= g.now + window)
    && (forall m, n | 0 <= m < n < |g.due| :: g.due[m].id != g.due[n].id)
    && (forall l | l in g.leases && g.leases[l].expiresAt <= g.now + window ::
         exists m | 0 <= m < |g.due| :: g.due[m].id == l)
    && WarnedIs(g.after, g.due, g.now)
  }

  /** Ticks in order, with non-decreasing now. */
  ghost predicate Ticks(ticks: seq<Glance>, window: nat) {
    && (forall n | 0 <= n < |ticks| :: Fine(ticks[n], window))
    && (forall m, n | 0 <= m < n < |ticks| :: ticks[m].now <= ticks[n].now)
  }

  function WarnedBefore(ticks: seq<Glance>, n: nat): map<LeaseId, Time>
    requires n <= |ticks|
  {
    if n == 0 then map[] else ticks[n - 1].after
  }

  /** The warnings written by ticks i up to j. */
  function Sent(ticks: seq<Glance>, i: nat, j: nat): seq<Event>
    requires i <= j <= |ticks|
    decreases j - i
  {
    if i == j then []
    else
      Sent(ticks, i, j - 1) + Alarms(WarnedBefore(ticks, j - 1), ticks[j - 1].due, |ticks[j - 1].due|, ticks[j - 1].now)
  }

  /** Throughout ticks i up to j, lease is there with these terms and is the only one of its VM. */
  ghost predicate Unchanged(ticks: seq<Glance>, i: nat, j: nat, lease: Lease) {
    forall n | i <= n < j && n < |ticks| ::
      && lease.id in ticks[n].leases && SameTerms(ticks[n].leases[lease.id], lease)
      && forall l | l in ticks[n].leases && ticks[n].leases[l].vm == lease.vm :: l == lease.id
  }

  predicate SameTerms(l: Lease, lease: Lease) {
    l.id == lease.id && l.vm == lease.vm && l.pool == lease.pool && l.expiresAt == lease.expiresAt
  }

  /** Tick n warns about the lease. */
  ghost predicate WarnsAt(ticks: seq<Glance>, n: nat, lease: Lease)
    requires n < |ticks|
  {
    && (exists m | 0 <= m < |ticks[n].due| :: ticks[n].due[m].id == lease.id)
    && lease.expiresAt > ticks[n].now && !AlreadyWarned(WarnedBefore(ticks, n), lease)
  }

  function WarningOf(lease: Lease): Event {
    Event(lease.pool, lease.vm, VmExpiringSoon)
  }

  /** The lease occurs among the first n of the listing, and only once. */
  ghost predicate ListedIn(g: Glance, n: nat, lease: Lease)
    requires n <= |g.due|
  {
    exists m | 0 <= m < n :: g.due[m].id == lease.id
  }

  lemma {:induction false} AlarmCount(g: Glance, window: nat, warned: map<LeaseId, Time>, n: nat, lease: Lease)
    requires Fine(g, window) && n <= |g.due|
    requires lease.id in g.leases && SameTerms(g.leases[lease.id], lease)
    requires forall l | l in g.leases && g.leases[l].vm == lease.vm :: l == lease.id
    ensures multiset(Alarms(warned, g.due, n, g.now))[WarningOf(lease)] ==
            if ListedIn(g, n, lease) && lease.expiresAt > g.now && !AlreadyWarned(warned, lease) then 1 else 0
  {
    hide Fine, SameTerms, ListedIn, Alarm, AlreadyWarned, WarningOf;
    if n == 0 {
      NoneListed(g, lease);
    } else {
      AlarmCount(g, window, warned, n - 1, lease);
      assert multiset(Alarms(warned, g.due, n, g.now)) ==
             multiset(Alarms(warned, g.due, n - 1, g.now)) + multiset(Alarm(warned, g.due[n - 1], g.now));
      OneAlarm(g, window, warned, n - 1, lease);
      ListedStep(g, window, n - 1, lease);
    }
  }

  lemma NoneListed(g: Glance, lease: Lease)
    ensures !ListedIn(g, 0, lease)
  {
  }

  lemma ListedStep(g: Glance, window: nat, n: nat, lease: Lease)
    requires Fine(g, window) && n < |g.due|
    ensures ListedIn(g, n + 1, lease) <==> ListedIn(g, n, lease) || g.due[n].id == lease.id
    ensures g.due[n].id == lease.id ==> !ListedIn(g, n, lease)
  {
  }

  lemma OneAlarm(g: Glance, window: nat, warned: map<LeaseId, Time>, n: nat, lease: Lease)
    requires Fine(g, window) && n < |g.due|
    requires lease.id in g.leases && SameTerms(g.leases[lease.id], lease)
    requires forall l | l in g.leases && g.leases[l].vm == lease.vm :: l == lease.id
    ensures multiset(Alarm(warned, g.due[n], g.now))[WarningOf(lease)] ==
            if g.due[n].id == lease.id && lease.expiresAt > g.now && !AlreadyWarned(warned, lease) then 1 else 0
  {
    assert g.due[n].id in g.leases && g.leases[g.due[n].id] == g.due[n];
  }

  /** A tick that saw the lease after one that warned about it stays silent. */
  lemma WarnsOnlyOnce(ticks: seq<Glance>, window: nat, lease: Lease, m: nat, n: nat)
    requires Ticks(ticks, window) && m < n < |ticks| && Unchanged(ticks, m, n + 1, lease) && WarnsAt(ticks, m, lease)
    ensures !WarnsAt(ticks, n, lease)
  {
    var g := ticks[n - 1];
    assert lease.id in ticks[m].leases && SameTerms(ticks[m].leases[lease.id], lease);
    assert Fine(ticks[m], window) && Fine(g, window);
    assert lease.id in g.leases && SameTerms(g.leases[lease.id], lease);
    assert ticks[m].now <= g.now <= ticks[n].now;
    var k :| 0 <= k < |g.due| && g.due[k].id == lease.id;
    if lease.expiresAt > g.now {
      assert g.after[g.due[k].id] == g.due[k].expiresAt;
    }
  }

  lemma SentCount(ticks: seq<Glance>, window: nat, i: nat, j: nat, lease: Lease)
    requires Ticks(ticks, window) && i < j <= |ticks| && Unchanged(ticks, i, j, lease)
    ensures multiset(Sent(ticks, i, j))[WarningOf(lease)] ==
            multiset(Sent(ticks, i, j - 1))[WarningOf(lease)] + if WarnsAt(ticks, j - 1, lease) then 1 else 0
  {
    var g := ticks[j - 1];
    assert Fine(g, window);
    AlarmCount(g, window, WarnedBefore(ticks, j - 1), |g.due|, lease);
    assert multiset(Sent(ticks, i, j)) ==
           multiset(Sent(ticks, i, j - 1)) + multiset(Alarms(WarnedBefore(ticks, j - 1), g.due, |g.due|, g.now));
  }

  lemma {:induction false} CountsWarnings(ticks: seq<Glance>, window: nat, i: nat, j: nat, lease: Lease)
    requires Ticks(ticks, window) && i <= j <= |ticks| && Unchanged(ticks, i, j, lease)
    ensures multiset(Sent(ticks, i, j))[WarningOf(lease)] == if WarnsIn(ticks, i, j, lease) then 1 else 0
    decreases j - i
  {
    hide *;
    if i == j {
      WarnsNot(ticks, i, lease);
    } else {
      UnchangedLess(ticks, i, j, lease);
      CountsWarnings(ticks, window, i, j - 1, lease);
      SentCount(ticks, window, i, j, lease);
      WarnsStep(ticks, window, i, j - 1, lease);
    }
  }

  ghost predicate WarnsIn(ticks: seq<Glance>, i: nat, j: nat, lease: Lease)
    requires j <= |ticks|
  {
    exists n | i <= n < j :: WarnsAt(ticks, n, lease)
  }

  lemma WarnsNot(ticks: seq<Glance>, i: nat, lease: Lease)
    requires i <= |ticks|
    ensures !WarnsIn(ticks, i, i, lease) && Sent(ticks, i, i) == []
  {
  }

  lemma UnchangedLess(ticks: seq<Glance>, i: nat, j: nat, lease: Lease)
    requires i < j <= |ticks| && Unchanged(ticks, i, j, lease)
    ensures Unchanged(ticks, i, j - 1, lease)
  {
  }

  lemma WarnsStep(ticks: seq<Glance>, window: nat, i: nat, j: nat, lease: Lease)
    requires Ticks(ticks, window) && i <= j < |ticks| && Unchanged(ticks, i, j + 1, lease)
    ensures WarnsIn(ticks, i, j + 1, lease) <==> WarnsIn(ticks, i, j, lease) || WarnsAt(ticks, j, lease)
    ensures WarnsIn(ticks, i, j, lease) ==> !WarnsAt(ticks, j, lease)
  {
    hide WarnsAt, Ticks;
    if WarnsIn(ticks, i, j, lease) {
      var n :| i <= n < j && WarnsAt(ticks, n, lease);
      WarnsOnlyOnce(ticks, window, lease, n, j);
    }
  }

  lemma DueIsFine(db: Db, due: seq<Lease>, now: Time, window: nat, after: map<LeaseId, Time>)
    requires Sound(db) && ListsLeases(due, LeasesExpiredBy(db, now + window)) && WarnedIs(after, due, now)
    ensures Fine(Glance(db.leases, now, due, after), window)
  {
    hide WarnedIs;
    DueListed(db, due, now + window);
    forall l | l in db.leases && db.leases[l].expiresAt <= now + window
      ensures exists m | 0 <= m < |due| :: due[m].id == l
    {
      assert l in LeasesExpiredBy(db, now + window);
    }
  }

  /** A tick is such a glance: of the leases left after pending deletions and drains. */
  lemma TickIsGlance(db: Db, warned: map<LeaseId, Time>, x: Lists3, now: Time, window: nat)
    requires Sound(db) && TickLists(db, x, now + window)
    ensures Fine(Glance(Drains(db, x).leases, now, x.due, Ticked(db, warned, x, now).warned), window)
  {
    hide Ticked, Drains, WarnedIs, Fine, Sound, ListsLeases, Lists;
    DrainsExact(db, x, now + window);
    TickRemembers(db, warned, x, now, window);
    DueIsFine(Drains(db, x), x.due, now, window, Ticked(db, warned, x, now).warned);
  }

  // ---- the outbox over many ticks ----

  /** The tables a tick found, its listings and its now. */
  datatype Tour = Tour(db: Db, x: Lists3, now: Time)

  /** What warned holds before tick n of a sweeper that started with nothing in it. */
  function HeldBefore(tours: seq<Tour>, n: nat): map<LeaseId, Time>
    requires n <= |tours|
  {
    if n == 0 then map[]
    else Ticked(tours[n - 1].db, HeldBefore(tours, n - 1), tours[n - 1].x, tours[n - 1].now).warned
  }

  /** The tables tick n leaves. */
  function Left(tours: seq<Tour>, n: nat): Db
    requires n < |tours|
  {
    Ticked(tours[n].db, HeldBefore(tours, n), tours[n].x, tours[n].now).db
  }

  /** Ticks in order, with non-decreasing now. Between them the tables may change in any way, except
      that only the sweeper writes warnings. */
  ghost predicate Sweeps(tours: seq<Tour>, window: nat) {
    && (forall n | 0 <= n < |tours| ::
          Sound(tours[n].db) && TickLists(tours[n].db, tours[n].x, tours[n].now + window))
    && (forall m, n | 0 <= m < n < |tours| :: tours[m].now <= tours[n].now)
    && (forall n | 0 < n < |tours| :: WarningsIn(tours[n].db.events) == WarningsIn(Left(tours, n - 1).events))
  }

  function GlanceAt(tours: seq<Tour>, n: nat): Glance
    requires n < |tours|
  {
    Glance(Drains(tours[n].db, tours[n].x).leases, tours[n].now, tours[n].x.due, HeldBefore(tours, n + 1))
  }

  function Glances(tours: seq<Tour>): (r: seq<Glance>)
    ensures |r| == |tours| && forall n | 0 <= n < |tours| :: r[n] == GlanceAt(tours, n)
  {
    seq(|tours|, n requires 0 <= n < |tours| => GlanceAt(tours, n))
  }

  lemma TourIsFine(tours: seq<Tour>, window: nat, n: nat)
    requires Sweeps(tours, window) && n < |tours|
    ensures Fine(GlanceAt(tours, n), window) && GlanceAt(tours, n).now == tours[n].now
  {
    hide Ticked, Drains, TickLists, Sound, Fine, Left, WarningsIn;
    TickIsGlance(tours[n].db, HeldBefore(tours, n), tours[n].x, tours[n].now, window);
  }

  lemma SweepsInOrder(tours: seq<Tour>, window: nat, m: nat, n: nat)
    requires Sweeps(tours, window) && m < n < |tours|
    ensures tours[m].now <= tours[n].now
  {
    hide TickLists, Sound, Left, WarningsIn;
  }

  lemma SweepsAreTicks(tours: seq<Tour>, window: nat)
    requires Sweeps(tours, window)
    ensures Ticks(Glances(tours), window)
  {
    hide Sweeps, Fine, GlanceAt;
    forall n | 0 <= n < |tours| ensures Fine(Glances(tours)[n], window) {
      TourIsFine(tours, window, n);
    }
    forall m, n | 0 <= m < n < |tours| ensures Glances(tours)[m].now <= Glances(tours)[n].now {
      TourIsFine(tours, window, m);
      TourIsFine(tours, window, n);
      SweepsInOrder(tours, window, m, n);
    }
  }

  /** What tick n sends. */
  function Rings(tours: seq<Tour>, n: nat): seq<Event>
    requires n < |tours|
  {
    Alarms(HeldBefore(tours, n), tours[n].x.due, |tours[n].x.due|, tours[n].now)
  }

  lemma TourWarns(tours: seq<Tour>, window: nat, n: nat)
    requires Sweeps(tours, window) && n < |tours|
    ensures WarningsIn(Left(tours, n).events) == WarningsIn(tours[n].db.events) + Rings(tours, n)
    ensures n > 0 ==> WarningsIn(tours[n].db.events) == WarningsIn(Left(tours, n - 1).events)
  {
    hide Ticked, Drains, TickLists, Sound, WarningsIn, Alarms;
    TickWarns(tours[n].db, HeldBefore(tours, n), tours[n].x, tours[n].now, window);
  }

  lemma SentSoFar(tours: seq<Tour>, i: nat, j: nat)
    requires i <= j < |tours|
    ensures Sent(Glances(tours), i, i) == []
    ensures Sent(Glances(tours), i, j + 1) == Sent(Glances(tours), i, j) + Rings(tours, j)
  {
    hide Alarms, Ticked, Drains;
  }

  /** The outbox after tick j - 1 holds the warnings it held before tick i and those sent since. */
  lemma {:induction false} OutboxGains(tours: seq<Tour>, window: nat, i: nat, j: nat)
    requires Sweeps(tours, window) && i < j <= |tours|
    ensures WarningsIn(Left(tours, j - 1).events) ==
            WarningsIn(tours[i].db.events) + Sent(Glances(tours), i, j)
    decreases j - i
  {
    hide *;
    TourWarns(tours, window, j - 1);
    SentSoFar(tours, i, j - 1);
    if j - 1 > i {
      OutboxGains(tours, window, i, j - 1);
    }
  }

  /** Over any run of ticks, with any other work between them, the outbox gains at most one
      VM_EXPIRING_SOON for a lease while its expiry time stays the same. */
  lemma WarnedAtMostOnce(tours: seq<Tour>, window: nat, i: nat, j: nat, lease: Lease)
    requires Sweeps(tours, window) && i < j <= |tours| && Unchanged(Glances(tours), i, j, lease)
    ensures multiset(WarningsIn(Left(tours, j - 1).events))[WarningOf(lease)] <=
            multiset(WarningsIn(tours[i].db.events))[WarningOf(lease)] + 1
  {
    hide *;
    SweepsAreTicks(tours, window);
    OutboxGains(tours, window, i, j);
    CountsWarnings(Glances(tours), window, i, j, lease);
  }
}
