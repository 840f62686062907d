/** Hosts over whole runs: a cordoned host whose count is zero is safe to take down and stays so,
    a cordoned host's load never grows, and DELETING is final. */
module HostTheorems {
  import opened Records
  import opened Transactions
  import opened Protocol
  import opened Invariant
  import opened Stability
  import opened Plans
  import opened Frames
  import opened Environment
  import opened Runs
  import opened Guarantees
  import opened Sets

  // ---- rows and reservations cover every microVM ----

  /** The call that is to record u holds a reservation on u's host, under a running reconciler of
      u's pool. */
  lemma OrphanHeld(s: State, u: Uid)
    requires ProcsOk(s) && OwnedOrphan(s.births, s.procs, u)
    ensures Occupied(s.db, s.births[u].host) && u !in s.db.vms
    ensures exists r :: Alive(s.mgr, r) && s.mgr.recons[r].spec.key == s.births[u].pool
  {
    var i := s.births[u].maker;
    var p := s.procs[i];
    Here(s, i);
    OrphanShape(p);
    assert Reserver(p).value.0 in s.db.placements;
    assert Alive(s.mgr, Boss(p).value) && s.mgr.recons[Boss(p).value].spec.key == s.births[u].pool;
  }

  lemma OrphanShape(p: Proc)
    requires Unrecorded(p).Some?
    ensures Held(p) == Unrecorded(p) && Reserver(p).Some? && Reserver(p).value.1 == Unrecorded(p).value.host
    ensures Boss(p).Some?
  {
  }

  lemma PendingShape(p: Proc)
    requires Pending(p).Some?
    ensures Reserver(p).Some? && Reserver(p).value.1 == Pending(p).value
  {
  }

  lemma PendingHeld(s: State, i: Pid)
    requires ProcsOk(s) && i in s.procs && Pending(s.procs[i]).Some?
    ensures Occupied(s.db, Pending(s.procs[i]).value)
  {
    Here(s, i);
    PendingShape(s.procs[i]);
    assert Reserver(s.procs[i]).value.0 in s.db.placements;
  }

  lemma NoneCounted(db: Db, h: HostName)
    ensures CountVmsByHost(db, h) == 0 <==> RowsOn(db, h) == {} && PlacementsOn(db, h) == {}
    ensures Occupied(db, h) <==> PlacementsOn(db, h) != {}
  {
    if Occupied(db, h) {
      var pl :| pl in db.placements && db.placements[pl].host == h;
      assert pl in PlacementsOn(db, h);
    }
    if !Occupied(db, h) {
      assert forall pl :: pl !in PlacementsOn(db, h);
    }
  }

  /** A microVM flintlock runs has its row or its reservation counted on its host, or is a leak. */
  lemma LiveAccounted(s: State, u: Uid)
    requires Inv(s) && u in s.live
    ensures u in RowsOn(s.db, s.live[u]) || Occupied(s.db, s.live[u]) || u in s.leaked
  {
    if u in s.db.vms {
      assert RowOk(FleetOf(s), u);
    } else if u !in s.leaked {
      OrphanHeld(s, u);
    }
  }

  /** What CountVmsByHost promises: at zero, flintlock runs nothing on the host but recorded leaks,
      and no create is in flight there. */
  lemma ZeroMeansEmpty(s: State, h: HostName)
    requires Inv(s) && CountVmsByHost(s.db, h) == 0
    ensures forall u | u in s.live && s.live[u] == h :: u in s.leaked
    ensures forall i | i in s.procs :: Pending(s.procs[i]) != Some(h)
  {
    NoneCounted(s.db, h);
    forall u | u in s.live && s.live[u] == h ensures u in s.leaked {
      LiveAccounted(s, u);
    }
    forall i | i in s.procs ensures Pending(s.procs[i]) != Some(h) {
      if Pending(s.procs[i]).Some? {
        PendingHeld(s, i);
      }
    }
  }

  // ---- ... and nothing new comes to a cordoned host ----

  ghost predicate Closed(db: Db, h: HostName) {
    h in db.hosts ==> db.hosts[h].cordoned
  }

  ghost predicate Vacant(s: State, h: HostName) {
    CountVmsByHost(s.db, h) == 0 && Closed(s.db, h)
  }

  /** Neither UncordonHost nor AddHost of h. */
  predicate LeavesClosed(a: Action, h: HostName) {
    !(a.SetCordoned? && a.h == h && !a.cordoned) && !(a.AddHost? && a.h == h)
  }

  lemma StepLeavesHosts(s: State, i: Pid, c: Choice)
    requires i in s.procs
    ensures Step(s, i, c).db.hosts == s.db.hosts
  {
    hide Plan, Apply;
    HostsAfter(s, i, Plan(s, s.procs[i], c));
  }

  lemma StartsLeaveHosts(s: State, a: Action)
    requires a.Call? || a.Sweep? || a.ReconSpawn?
    ensures Next(s, a).db.hosts == s.db.hosts
  {
    hide Next, IsEntry;
    match a
    case Call(i, p) => NextCall(s, i, p);
    case Sweep(i, u, finish) => NextSweep(s, i, u, finish);
    case ReconSpawn(r, i) => NextReconSpawn(s, r, i);
  }

  lemma CallsLeaveHosts(s: State, a: Action)
    requires a.Call? || a.Advance? || a.Sweep? || a.ReconSpawn? || a.Restart?
    ensures Next(s, a).db.hosts == s.db.hosts
  {
    hide Next, Step;
    match a
    case Advance(i, c) =>
      NextAdvance(s, i, c);
      if i in s.procs { StepLeavesHosts(s, i, c); }
    case Restart => NextRestart(s);
    case _ => StartsLeaveHosts(s, a);
  }

  lemma StaysClosed(s: State, a: Action, h: HostName)
    requires Closed(s.db, h) && LeavesClosed(a, h)
    ensures Closed(Next(s, a).db, h)
  {
    hide Next;
    if a.Call? || a.Advance? || a.Sweep? || a.ReconSpawn? || a.Restart? {
      CallsLeaveHosts(s, a);
    } else if a.SetCordoned? || a.Drain? || a.MarkDraining? || a.AddHost? || a.RemoveHost? || a.Note? {
      HostTableStaysClosed(s, a, h);
    } else {
      ReconcilersAreCalm(s, a);
    }
  }

  lemma HostTableStaysClosed(s: State, a: Action, h: HostName)
    requires Closed(s.db, h) && LeavesClosed(a, h)
    requires a.SetCordoned? || a.Drain? || a.MarkDraining? || a.AddHost? || a.RemoveHost? || a.Note?
    ensures Closed(Next(s, a).db, h)
  {
    hide Next, CordonHost, StartDrain, RegisterHost, UnregisterHost;
    match a
    case SetCordoned(k, cordoned, reason, now) =>
      NextSetCordoned(s, k, cordoned, reason, now);
      CordonStaysClosed(s.db, k, cordoned, reason, now, h);
    case Drain(k, reason, now) =>
      NextDrain(s, k, reason, now);
      DrainStaysClosed(s.db, k, reason, now, h);
    case AddHost(k) =>
      NextAddHost(s, k);
      RegisterStaysClosed(s.db, k, h);
    case RemoveHost(k) =>
      NextRemoveHost(s, k);
      UnregisterStaysClosed(s, k, h);
    case MarkDraining => NextMarkDraining(s);
    case Note(e) => NextNote(s, e);
  }

  lemma CordonStaysClosed(db: Db, k: HostName, cordoned: bool, reason: Option<string>, now: Time, h: HostName)
    requires Closed(db, h) && (k == h ==> cordoned)
    ensures Closed(CordonHost(db, k, cordoned, reason, now), h)
  {
  }

  lemma DrainStaysClosed(db: Db, k: HostName, reason: Option<string>, now: Time, h: HostName)
    requires Closed(db, h)
    ensures Closed(StartDrain(db, k, reason, now), h)
  {
  }

  lemma RegisterStaysClosed(db: Db, k: HostName, h: HostName)
    requires Closed(db, h) && k != h
    ensures Closed(RegisterHost(db, k), h)
  {
  }

  lemma UnregisterStaysClosed(s: State, k: HostName, h: HostName)
    requires Closed(s.db, h)
    ensures Closed(UnregisterHost(s, k), h)
  {
  }

  lemma NoNewRow(s: State, s': State, h: HostName)
    requires Inv(s) && Inv(s') && RowsFollow(s, s') && BirthsFollow(s, s') && RowsOn(s.db, h) == {}
    requires !Occupied(s.db, h)
    ensures RowsOn(s'.db, h) == {}
  {
    forall u | u in s'.db.vms ensures s'.db.vms[u].host != h {
      assert RowOk(FleetOf(s'), u);
      if u in s.db.vms {
        assert u !in RowsOn(s.db, h);
      } else {
        OrphanHeld(s, u);
      }
    }
  }

  lemma NoNewLive(s: State, s': State, h: HostName)
    requires Inv(s) && Inv(s') && BirthsFollow(s, s') && !Occupied(s.db, h)
    ensures forall u | u in s'.live && s'.live[u] == h :: u in s.live && s.live[u] == h
  {
  }

  lemma VacantStays(s: State, a: Action, h: HostName)
    requires Inv(s) && Vacant(s, h) && LeavesClosed(a, h)
    ensures Vacant(Next(s, a), h)
    ensures forall u | u in Next(s, a).live && Next(s, a).live[u] == h :: u in s.live && s.live[u] == h
  {
    hide Next, ProcsOk, Covered, Base, RowsFollow, OrphansFollow, LeasesFollow, BirthsFollow;
    var s' := Next(s, a);
    NextKeeps(s, a);
    NextFollows(s, a);
    StaysClosed(s, a, h);
    NoneCounted(s.db, h);
    NoneCounted(s'.db, h);
    NoNewRow(s, s', h);
    NoNewLive(s, s', h);
  }

  predicate AllLeaveClosed(actions: seq<Action>, h: HostName) {
    forall k | 0 <= k < |actions| :: LeavesClosed(actions[k], h)
  }

  lemma {:induction false} VacantForGood(s: State, actions: seq<Action>, h: HostName)
    requires Inv(s) && Vacant(s, h) && AllLeaveClosed(actions, h)
    ensures Inv(Run(s, actions)) && Vacant(Run(s, actions), h)
    ensures forall u | u in Run(s, actions).live && Run(s, actions).live[u] == h :: u in s.live && s.live[u] == h
    decreases |actions|
  {
    hide Next, Inv, Vacant;
    if actions != [] {
      NextKeeps(s, actions[0]);
      VacantStays(s, actions[0], h);
      VacantForGood(Next(s, actions[0]), actions[1..], h);
    }
  }

  /** Safe to take down. Once a cordoned host counts zero, then for as long as it is neither
      uncordoned nor added again, flintlock runs nothing there but microVMs already recorded as
      leaked when it counted zero, and no create is in flight there. */
  lemma SafeToTakeDown(before: seq<Action>, after: seq<Action>, h: HostName)
    requires var s := Run(Initial(), before); h in s.db.hosts && s.db.hosts[h].cordoned && CountVmsByHost(s.db, h) == 0
    requires AllLeaveClosed(after, h)
    ensures
      var s := Run(Initial(), before);
      var s' := Run(s, after);
      && CountVmsByHost(s'.db, h) == 0
      && (forall u | u in s'.live && s'.live[u] == h :: u in s.leaked)
      && (forall i | i in s'.procs :: Pending(s'.procs[i]) != Some(h))
  {
    hide Run, Base, ProcsOk, Covered, CountVmsByHost;
    var s := Run(Initial(), before);
    EveryRun(before);
    VacantForGood(s, after, h);
    ZeroMeansEmpty(s, h);
    ZeroMeansEmpty(Run(s, after), h);
  }

  // ---- a cordoned host's load never grows ----

  ghost function PendingOn(procs: map<Pid, Proc>, h: HostName): set<Pid> {
    set i | i in procs && Pending(procs[i]) == Some(h)
  }

  /** The provisions that hold a reservation on h and no row, plus the VM rows on h. */
  ghost function Load(s: State, h: HostName): nat {
    |PendingOn(s.procs, h)| + |RowsOn(s.db, h)|
  }

  lemma KeysAfter(s: State, i: Pid, p: Proc, e: Effect)
    requires RowEffectOk(s.db, p, e) && !e.Inserts?
    ensures forall u | u in Apply(s, i, e).db.vms :: u in s.db.vms
  {
    if TouchesRows(e) {
      match e
      case Puts(q, v) => ApplyPuts(s, i, q, v);
      case Takes(q, v) => ApplyTakes(s, i, q, v);
      case Commits(q, v, l) => ApplyCommits(s, i, q, v, l);
      case Drops(q, u) => ApplyDrops(s, i, q, u);
      case RemovesPool(q, k) => ApplyRemovesPool(s, i, q, k);
    } else {
      RowsUntouched(s, i, e);
    }
  }

  lemma PendingAfter(s: State, i: Pid, p: Proc, e: Effect, h: HostName)
    requires IsAt(s, i, p) && MakingOk(p, e) && YardEffectOk(s, p, e) && Closed(s.db, h)
    ensures PendingOn(Apply(s, i, e).procs, h) <= PendingOn(s.procs, h)
    ensures e.Inserts? ==> i !in PendingOn(Apply(s, i, e).procs, h)
  {
    CallAfter(s, i, e);
  }

  lemma RowsKept(s: State, s': State, h: HostName)
    requires RowsFollow(s, s') && (forall u | u in s'.db.vms :: u in s.db.vms)
    ensures RowsOn(s'.db, h) <= RowsOn(s.db, h)
  {
    forall u | u in RowsOn(s'.db, h) ensures u in RowsOn(s.db, h) {
      assert Follows(s.db.vms[u], s'.db.vms[u]);
    }
  }

  lemma RowAdded(s: State, i: Pid, p: Proc, e: Effect, h: HostName)
    requires RowEffectOk(s.db, p, e) && e.Inserts?
    ensures RowsOn(Apply(s, i, e).db, h) <= RowsOn(s.db, h) + (if Pending(p) == Some(h) then {e.v.uid} else {})
  {
    InsertsRow(s, i, e.q, e.v);
    ApplyPuts(s, i, e.q, e.v);
  }

  lemma EffectShrinks(s: State, i: Pid, p: Proc, e: Effect, h: HostName)
    requires Base(s) && AtPoint(s, i, p) && Allowed(s, p, e) && Closed(s.db, h)
    ensures Load(Apply(s, i, e), h) <= Load(s, h)
  {
    var s' := Apply(s, i, e);
    PendingAfter(s, i, p, e, h);
    if e.Inserts? && Pending(p) == Some(h) {
      RowAdded(s, i, p, e, h);
      SwapSize(PendingOn(s.procs, h), PendingOn(s'.procs, h), RowsOn(s.db, h), RowsOn(s'.db, h), i, e.v.uid);
    } else {
      if e.Inserts? {
        RowAdded(s, i, p, e, h);
      } else {
        KeysAfter(s, i, p, e);
        EffectRows(s, i, p, e);
        RowsKept(s, s', h);
      }
      SubsetSize(PendingOn(s'.procs, h), PendingOn(s.procs, h));
      SubsetSize(RowsOn(s'.db, h), RowsOn(s.db, h));
    }
  }

  lemma StepShrinks(s: State, i: Pid, c: Choice, h: HostName)
    requires Inv(s) && i in s.procs && Closed(s.db, h)
    ensures Load(Step(s, i, c), h) <= Load(s, h)
  {
    RowsKeyed(s);
    PlanAllowed(s, s.procs[i], c);
    EffectShrinks(s, i, s.procs[i], Plan(s, s.procs[i], c), h);
  }

  ghost predicate AddsNothing(s: State, s': State, h: HostName) {
    PendingOn(s'.procs, h) <= PendingOn(s.procs, h) && forall u | u in s'.db.vms :: u in s.db.vms
  }

  lemma NothingAdded(s: State, s': State, h: HostName)
    requires RowsFollow(s, s') && AddsNothing(s, s', h)
    ensures Load(s', h) <= Load(s, h)
  {
    RowsKept(s, s', h);
    SubsetSize(PendingOn(s'.procs, h), PendingOn(s.procs, h));
    SubsetSize(RowsOn(s'.db, h), RowsOn(s.db, h));
  }

  lemma RestartAddsNothing(s: State, h: HostName)
    ensures AddsNothing(s, RestartState(s), h)
  {
    assert forall i | i in RestartState(s).procs :: Pending(RestartState(s).procs[i]).None?;
  }

  lemma CalmAddsNothing(s: State, s': State, h: HostName)
    requires Calm(s, s')
    ensures AddsNothing(s, s', h)
  {
    hide Begins, Pending, Joined;
    forall i | i in s'.procs && Pending(s'.procs[i]) == Some(h) ensures i in s.procs && s.procs[i] == s'.procs[i] {
      JoinedKeeps(s.procs, s'.procs, i);
      if i !in s.procs {
        BeginsShape(s'.procs[i]);
      }
    }
  }

  lemma OtherActionsAddNothing(s: State, a: Action, h: HostName)
    requires !a.Advance?
    ensures AddsNothing(s, Next(s, a), h)
  {
    hide *;
    if a.Restart? {
      NextRestart(s);
      RestartAddsNothing(s, h);
    } else {
      EnvironmentIsCalm(s, a);
      CalmAddsNothing(s, Next(s, a), h);
    }
  }

  /** While a host is cordoned, its load never grows: not by a create that was in flight, not by
      an orphan being recorded, not by any claim, release or reconciler. */
  lemma LoadNeverGrows(s: State, a: Action, h: HostName)
    requires Inv(s) && Closed(s.db, h)
    ensures Load(Next(s, a), h) <= Load(s, h)
  {
    hide Step, Inv, CountRows, StartDrain, RestartState, MarkUnleased, ExitLoop, RestLoop;
    if a.Advance? {
      NextAdvance(s, a.i, a.c);
      if a.i in s.procs {
        StepShrinks(s, a.i, a.c, h);
      }
    } else {
      NextFollows(s, a);
      OtherActionsAddNothing(s, a, h);
      NothingAdded(s, Next(s, a), h);
    }
  }

  lemma {:induction false} DrainOnlyShrinks(s: State, actions: seq<Action>, h: HostName)
    requires Inv(s) && Closed(s.db, h) && AllLeaveClosed(actions, h)
    ensures Load(Run(s, actions), h) <= Load(s, h) && Closed(Run(s, actions).db, h)
    decreases |actions|
  {
    hide Next, Inv, Load;
    if actions != [] {
      NextKeeps(s, actions[0]);
      LoadNeverGrows(s, actions[0], h);
      StaysClosed(s, actions[0], h);
      DrainOnlyShrinks(Next(s, actions[0]), actions[1..], h);
    }
  }
}
