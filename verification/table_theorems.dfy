/** Every change any action can make to a host row or a reservation, by fields and by whom. */
module TableTheorems {
  import opened Records
  import opened Transactions
  import opened Protocol
  import opened Invariant
  import opened Stability
  import opened Plans
  import opened Frames
  import opened Environment
  import opened Guarantees
  import opened HostTheorems

  // ---- hosts ----

  /** A cordon sets the flag, the reason and the time, and leaves the drain fields; an uncordon ends the
      drain too. */
  predicate CordonedAs(r: Host, r': Host, cordoned: bool, reason: Option<string>, now: Time) {
    && r'.cordoned == cordoned
    && (cordoned ==> r'.reason == reason && r'.cordonedAt == Some(now))
    && (cordoned ==> r'.draining == r.draining && r'.drainingAt == r.drainingAt)
    && (!cordoned ==> r'.reason.None? && r'.cordonedAt.None? && !r'.draining && r'.drainingAt.None?)
  }

  /** A drain cordons, and keeps the times, and a reason not given anew, of a cordon or a drain that was
      there before. */
  predicate DrainedAs(r: Host, r': Host, reason: Option<string>, now: Time) {
    && r'.cordoned && r'.draining
    && r'.reason == (if reason.Some? then reason else r.reason)
    && (r.cordoned ==> r'.cordonedAt == r.cordonedAt) && (!r.cordoned ==> r'.cordonedAt == Some(now))
    && (r.draining ==> r'.drainingAt == r.drainingAt) && (!r.draining ==> r'.drainingAt == Some(now))
  }

  /** Nothing names the host: no pool, no VM row, no reservation. */
  ghost predicate Unreferenced(db: Db, h: HostName) {
    && (forall k | k in db.pools :: h !in db.pools[k].hosts)
    && (forall u | u in db.vms :: db.vms[u].host != h)
    && (forall pl | pl in db.placements :: db.placements[pl].host != h)
  }

  lemma CountIsZero(db: Db, h: HostName)
    ensures CountVmsByHost(db, h) == 0 <==>
            && (forall u | u in db.vms :: db.vms[u].host != h)
            && (forall pl | pl in db.placements :: db.placements[pl].host != h)
  {
    forall u | u in db.vms && db.vms[u].host == h ensures |RowsOn(db, h)| > 0 {
      assert u in RowsOn(db, h);
    }
    forall pl | pl in db.placements && db.placements[pl].host == h ensures |PlacementsOn(db, h)| > 0 {
      assert pl in PlacementsOn(db, h);
    }
    if (forall u | u in db.vms :: db.vms[u].host != h)
       && (forall pl | pl in db.placements :: db.placements[pl].host != h) {
      assert RowsOn(db, h) == {} && PlacementsOn(db, h) == {};
    }
  }

  /** RemoveHost unregisters a host exactly when nothing names it and no pool write is under way. */
  lemma HostGoesIff(s: State, h: HostName)
    requires h in s.db.hosts
    ensures h !in Next(s, RemoveHost(h)).db.hosts <==> s.readers == {} && Unreferenced(s.db, h)
  {
    hide Next, CountVmsByHost;
    NextRemoveHost(s, h);
    CountIsZero(s.db, h);
  }

  lemma OnlyHostActions(s: State, a: Action)
    requires !a.SetCordoned? && !a.Drain? && !a.AddHost? && !a.RemoveHost?
    ensures Next(s, a).db.hosts == s.db.hosts
  {
    hide *;
    if a.Advance? {
      NextAdvance(s, a.i, a.c);
      if a.i in s.procs { StepLeavesHosts(s, a.i, a.c); }
    } else if a.Restart? {
      NextRestart(s);
      RestartLeavesHosts(s);
    } else {
      QuietHosts(s, a);
    }
  }

  lemma RestartLeavesHosts(s: State)
    ensures RestartState(s).db.hosts == s.db.hosts
  {
  }

  lemma QuietHosts(s: State, a: Action)
    requires a.Call? || a.Sweep? || a.MarkDraining? || a.Note? || a.ReconSpawn? || a.Seed? || a.ReconList?
             || a.ReconCount? || a.ReconCap? || a.ReconRest? || a.ReconExit? || a.ReconLeave?
    ensures Next(s, a).db.hosts == s.db.hosts
  {
    hide Next, CountRows, SeedPool, ListRows, CapStatic, RestLoop, ExitLoop, LeaveLoop;
    match a
    case Call(i, p) => NextCall(s, i, p);
    case Sweep(i, u, finish) => NextSweep(s, i, u, finish);
    case MarkDraining => NextMarkDraining(s);
    case Note(e) => NextNote(s, e);
    case ReconSpawn(r, i) => NextReconSpawn(s, r, i);
    case _ => ReconcilersAreCalm(s, a);
  }

  /** Every change of a host row: by a cordon or a drain of that host, field by field; new rows are not
      cordoned; and one goes only when nothing names it. */
  lemma HostRowChanges(s: State, a: Action, h: HostName)
    ensures
      var hosts, hosts' := s.db.hosts, Next(s, a).db.hosts;
      && (h in hosts && h in hosts' && hosts'[h] != hosts[h] ==> (a.SetCordoned? || a.Drain?) && a.h == h)
      && (h in hosts && a.SetCordoned? && a.h == h ==>
            h in hosts' && CordonedAs(hosts[h], hosts'[h], a.cordoned, a.reason, a.now))
      && (h in hosts && a.Drain? && a.h == h ==> h in hosts' && DrainedAs(hosts[h], hosts'[h], a.reason, a.now))
      && (h in hosts && h !in hosts' ==> a == RemoveHost(h))
      && (h !in hosts && h in hosts' ==> a == AddHost(h) && !hosts'[h].cordoned && !hosts'[h].draining)
  {
    hide Next, CanDeleteHost;
    match a
    case SetCordoned(k, cordoned, reason, now) => NextSetCordoned(s, k, cordoned, reason, now);
    case Drain(k, reason, now) => NextDrain(s, k, reason, now);
    case AddHost(k) => NextAddHost(s, k);
    case RemoveHost(k) => NextRemoveHost(s, k);
    case _ => OnlyHostActions(s, a);
  }

  // ---- reservations ----

  lemma ReservePlan(s: State, p: Proc, c: Choice)
    requires p.ProvStart?
    ensures Plan(s, p, c) == PlanProvStart(s, p, c)
  {
    hide Plan, PlanProvStart, PlanProvReserved, PlanProvCreated, PlanProvRecorded;
    BuildPlanIs(s, p, c);
  }

  lemma ReservesWhere(s: State, p: Proc, c: Choice)
    requires p.ProvStart? && Plan(s, p, c).Reserves?
    ensures c.ok && Plan(s, p, c).row == Placement(c.host, p.spec.key) && c.host in p.spec.hosts
    ensures c.host in s.db.hosts && !s.db.hosts[c.host].cordoned
  {
    hide Plan;
    ReservePlan(s, p, c);
  }

  lemma StepPlacements(s: State, i: Pid, c: Choice)
    requires Inv(s) && i in s.procs
    ensures
      var e := Plan(s, s.procs[i], c);
      && YardEffectOk(s, s.procs[i], e)
      && Step(s, i, c).db.placements ==
         if e.Reserves? then s.db.placements[e.pl := e.row]
         else if e.Frees? then s.db.placements - {e.pl} else s.db.placements
  {
    hide Inv, Plan, Apply, RowEffectOk, YardEffectOk, MakingOk, LeaseEffectOk, PoolEffectOk;
    StepAllowed(s, i, c);
    PlacementsAfter(s, i, Plan(s, s.procs[i], c));
  }

  lemma OthersReserveNothing(s: State, a: Action)
    requires !a.Advance?
    ensures Next(s, a).db.placements == if a.Restart? then map[] else s.db.placements
  {
    hide Next, Joined;
    if a.Restart? { NextRestart(s); } else { EnvironmentIsCalm(s, a); }
  }

  /** A reservation is made only by a Provision call about to create, for its pool, on a host its spec
      names that is registered and not cordoned. */
  lemma NewReservations(s: State, a: Action, pl: PlacementId)
    requires Inv(s) && pl !in s.db.placements && pl in Next(s, a).db.placements
    ensures a.Advance? && a.i in s.procs && s.procs[a.i].ProvStart?
    ensures
      var spec, row := s.procs[a.i].spec, Next(s, a).db.placements[pl];
      && row.pool == spec.key && row.host in spec.hosts
      && row.host in s.db.hosts && !s.db.hosts[row.host].cordoned
  {
    hide Inv, Next, Step, Plan, Reserver;
    if !a.Advance? {
      OthersReserveNothing(s, a);
    }
    NextAdvance(s, a.i, a.c);
    StepPlacements(s, a.i, a.c);
    ReservesWhere(s, s.procs[a.i], a.c);
  }

  /** A reservation goes only by a restart, or by the call that made it. */
  lemma ReservationsGo(s: State, a: Action, pl: PlacementId)
    requires Inv(s) && pl in s.db.placements && pl !in Next(s, a).db.placements
    ensures a.Restart? || (a.Advance? && a.i in s.procs && pl in s.placed && s.placed[pl] == a.i)
  {
    hide Inv, Next, Step, Plan, Reserver;
    if a.Advance? {
      NextAdvance(s, a.i, a.c);
      StepPlacements(s, a.i, a.c);
      HoldsReservation(s, a.i);
    } else {
      OthersReserveNothing(s, a);
    }
  }

  lemma HoldsReservation(s: State, i: Pid)
    requires Inv(s) && i in s.procs && Reserver(s.procs[i]).Some?
    ensures Reserver(s.procs[i]).value.0 in s.placed && s.placed[Reserver(s.procs[i]).value.0] == i
  {
    hide Base, Covered, FleetSideOk, BookSideOk, OfficeSideOk, Reserver;
    Here(s, i);
  }
}
