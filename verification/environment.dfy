/** What an action may change that is neither a step of a call nor a restart: host rows, the
    reconcilers, events that report no release or pool delete, rows a drain condemns, and one new
    call. */
module Environment {
  import opened Records
  import opened Transactions
  import opened Protocol

  /** A call that has just begun. */
  predicate Begins(q: Proc) {
    IsEntry(q) || q.ProvStart? || (q.Asking? && q.job.SweepJob?)
  }

  predicate Reportless(e: Event) {
    !e.kind.VmDeletedOnRelease? && !e.kind.VmDeletedOnPoolDelete?
  }

  ghost predicate CalmTables(db: Db, db': Db) {
    && db'.pools == db.pools && db'.leases == db.leases && db'.placements == db.placements
    && db'.vms.Keys == db.vms.Keys
    && (forall u | u in db.vms :: db'.vms[u] == db.vms[u] || db'.vms[u] == Condemn(db.vms[u]))
    && (db'.events == db.events || exists e :: Reportless(e) && db'.events == db.events + [e])
  }

  ghost predicate Joined(procs: map<Pid, Proc>, procs': map<Pid, Proc>) {
    procs' == procs || exists i, q :: i !in procs && Begins(q) && procs' == procs[i := q]
  }

  ghost predicate Calm(s: State, s': State) {
    && s' == s.(db := s'.db, mgr := s'.mgr, procs := s'.procs)
    && CalmTables(s.db, s'.db) && Joined(s.procs, s'.procs)
  }

  lemma CalmDb(s: State, db: Db)
    requires CalmTables(s.db, db)
    ensures Calm(s, s.(db := db))
  {
    hide CalmTables;
  }

  lemma CalmMgr(s: State, m: Mgr)
    ensures Calm(s, s.(mgr := m))
  {
  }

  lemma CalmJoin(s: State, i: Pid, q: Proc)
    requires i !in s.procs && Begins(q)
    ensures Calm(s, To(s, i, q))
  {
    hide Begins;
  }

  lemma CallIsCalm(s: State, i: Pid, p: Proc)
    ensures Calm(s, StartCall(s, i, p))
  {
    hide Calm, IsEntry;
    if i !in s.procs && IsEntry(p) {
      EntryBegins(p);
      CalmJoin(s, i, p);
    } else {
      CalmMgr(s, s.mgr);
    }
  }

  lemma EntryBegins(p: Proc)
    requires IsEntry(p)
    ensures Begins(p)
  {
    hide IsEntry;
  }

  lemma SweepIsCalm(s: State, i: Pid, u: Uid, finish: bool)
    ensures Calm(s, StartSweep(s, i, u, finish))
  {
    hide Calm, IsEntry;
    if i !in s.procs && u in s.db.vms && s.db.vms[u].phase.Deleting? {
      CalmJoin(s, i, Asking(SweepJob(finish), s.db.vms[u]));
    } else {
      CalmMgr(s, s.mgr);
    }
  }

  lemma SpawnIsCalm(s: State, r: Rid, i: Pid)
    ensures Calm(s, SpawnProvision(s, r, i))
  {
    hide IsEntry, CalmTables;
    CalmMgr(s, s.mgr);
    if CanSpawn(s, r, i) {
      assert Begins(ProvStart(r, s.mgr.recons[r].spec));
    }
  }

  lemma MarkIsCalm(db: Db, hosts: set<HostName>)
    ensures CalmTables(db, MarkUnleased(db, hosts))
  {
    assert MarkUnleased(db, hosts).vms.Keys == db.vms.Keys;
  }

  lemma DrainIsCalm(db: Db, h: HostName, reason: Option<string>, now: Time)
    ensures CalmTables(db, StartDrain(db, h, reason, now))
  {
    if h in db.hosts {
      MarkIsCalm(db.(hosts := db.hosts[h := Drained(db.hosts[h], reason, now)]), {h});
    }
  }

  lemma HostRowsAreCalm(db: Db, hosts: map<HostName, Host>)
    ensures CalmTables(db, db.(hosts := hosts))
  {
  }

  lemma CordonIsCalm(db: Db, h: HostName, cordoned: bool, reason: Option<string>, now: Time)
    ensures CalmTables(db, CordonHost(db, h, cordoned, reason, now))
  {
    HostRowsAreCalm(db, CordonHost(db, h, cordoned, reason, now).hosts);
  }

  lemma RegisterIsCalm(db: Db, h: HostName)
    ensures CalmTables(db, RegisterHost(db, h))
  {
    HostRowsAreCalm(db, RegisterHost(db, h).hosts);
  }

  lemma UnregisterIsCalm(s: State, h: HostName)
    ensures CalmTables(s.db, UnregisterHost(s, h))
  {
    HostRowsAreCalm(s.db, UnregisterHost(s, h).hosts);
  }

  lemma NoteIsCalm(db: Db, e: Event)
    ensures CalmTables(db, NoteEvent(db, e))
  {
    if Reportless(e) {
      assert NoteEvent(db, e).events == db.events + [e];
    }
  }

  lemma TablesAreCalm(s: State, a: Action)
    requires a.SetCordoned? || a.Drain? || a.MarkDraining? || a.AddHost? || a.RemoveHost? || a.Note?
    ensures Calm(s, Next(s, a)) && Next(s, a) == s.(db := Next(s, a).db) && CalmTables(s.db, Next(s, a).db)
  {
    hide *;
    match a
    case SetCordoned(h, cordoned, reason, now) =>
      NextSetCordoned(s, h, cordoned, reason, now);
      CordonIsCalm(s.db, h, cordoned, reason, now);
      CalmDb(s, CordonHost(s.db, h, cordoned, reason, now));
    case Drain(h, reason, now) =>
      NextDrain(s, h, reason, now);
      DrainIsCalm(s.db, h, reason, now);
      CalmDb(s, StartDrain(s.db, h, reason, now));
    case MarkDraining =>
      NextMarkDraining(s);
      MarkIsCalm(s.db, DrainingHosts(s.db));
      CalmDb(s, MarkUnleased(s.db, DrainingHosts(s.db)));
    case AddHost(h) =>
      NextAddHost(s, h);
      RegisterIsCalm(s.db, h);
      CalmDb(s, RegisterHost(s.db, h));
    case RemoveHost(h) =>
      NextRemoveHost(s, h);
      UnregisterIsCalm(s, h);
      CalmDb(s, UnregisterHost(s, h));
    case Note(e) =>
      NextNote(s, e);
      NoteIsCalm(s.db, e);
      CalmDb(s, NoteEvent(s.db, e));
  }

  lemma ReconcilersAreCalm(s: State, a: Action)
    requires a.Seed? || a.ReconList? || a.ReconCount? || a.ReconCap? || a.ReconRest? || a.ReconExit? || a.ReconLeave?
    ensures Calm(s, Next(s, a)) && Next(s, a).db == s.db && Next(s, a).procs == s.procs
  {
    hide *;
    match a
    case Seed(k, r) => NextSeed(s, k, r); CalmMgr(s, SeedPool(s, k, r));
    case ReconList(r, hook) => NextReconList(s, r, hook); CalmMgr(s, ListRows(s, r, hook));
    case ReconCount(r) => NextReconCount(s, r); CalmMgr(s, CountRows(s, r));
    case ReconCap(r) => NextReconCap(s, r); CalmMgr(s, CapStatic(s, r));
    case ReconRest(r) => NextReconRest(s, r); CalmMgr(s, RestLoop(s, r));
    case ReconExit(r) => NextReconExit(s, r); CalmMgr(s, ExitLoop(s, r));
    case ReconLeave(r) => NextReconLeave(s, r); CalmMgr(s, LeaveLoop(s.mgr, r));
  }

  lemma EnvironmentIsCalm(s: State, a: Action)
    requires !a.Advance? && !a.Restart?
    ensures Calm(s, Next(s, a))
  {
    hide *;
    if a.Call? {
      NextCall(s, a.i, a.p);
      CallIsCalm(s, a.i, a.p);
    } else if a.Sweep? {
      NextSweep(s, a.i, a.u, a.finish);
      SweepIsCalm(s, a.i, a.u, a.finish);
    } else if a.ReconSpawn? {
      NextReconSpawn(s, a.r, a.i);
      SpawnIsCalm(s, a.r, a.i);
    } else if a.SetCordoned? || a.Drain? || a.MarkDraining? || a.AddHost? || a.RemoveHost? || a.Note? {
      TablesAreCalm(s, a);
    } else {
      ReconcilersAreCalm(s, a);
    }
  }

  /** The calls already there stay where they are. */
  lemma JoinedAt(procs: map<Pid, Proc>, procs': map<Pid, Proc>, i: Pid)
    requires Joined(procs, procs') && i in procs
    ensures i in procs' && procs'[i] == procs[i]
  {
    hide Begins;
  }

  lemma JoinedKeeps(procs: map<Pid, Proc>, procs': map<Pid, Proc>, i: Pid)
    requires Joined(procs, procs') && i in procs'
    ensures if i in procs then procs'[i] == procs[i] else Begins(procs'[i])
  {
    hide Begins;
  }
}
