/** The microVMs nobody keeps a record of: exactly when one is left behind, a crash that does it, and
    what a cordoned host that counts zero promises in a run where none was. */
module Leaks {
  import opened Records
  import opened Transactions
  import opened Replenishment
  import opened Protocol
  import opened Invariant
  import opened Plans
  import opened Frames
  import opened Environment
  import opened Runs
  import opened Guarantees
  import opened HostTheorems
  import opened Fates

  // ---- the three causes ----

  /** CreateMicroVM answered without a uid. */
  ghost predicate Unnamed(s: State, p: Proc, c: Choice, u: Uid) {
    p.ProvReserved? && !c.ok && c.odd && c.pick == u && u !in s.births
  }

  /** The delete of an orphan that has no record failed. */
  ghost predicate OrphanLost(p: Proc, c: Choice, u: Uid) {
    p.Asking? && p.job.OrphanJob? && !p.job.recorded && p.vm.uid == u && !c.ok && !c.odd
  }

  /** A crash while flintlock runs u and no row records it. */
  ghost predicate CutOff(s: State, u: Uid) {
    u in s.live && u !in s.db.vms
  }

  ghost predicate CausesLeak(s: State, a: Action, u: Uid) {
    || (a.Advance? && a.i in s.procs && (Unnamed(s, s.procs[a.i], a.c, u) || OrphanLost(s.procs[a.i], a.c, u)))
    || (a.Restart? && CutOff(s, u))
  }

  lemma AskingPlan(s: State, p: Proc, c: Choice)
    requires p.Asking?
    ensures Plan(s, p, c) == PlanAsking(s, p, c)
  {
    hide PlanAsking, PlanFailing, PlanDropping, Plan;
    DeletePlanIs(s, p, c);
  }

  lemma LosingPlan(s: State, i: Pid, c: Choice, u: Uid)
    requires Inv(s) && i in s.procs
    ensures
      var e := Plan(s, s.procs[i], c);
      (e.Loses? && e.u == u) || (e.Bears? && e.lost && e.u == u) <==>
      Unnamed(s, s.procs[i], c, u) || OrphanLost(s.procs[i], c, u)
  {
    hide Inv, Plan, RowEffectOk, MakingOk, LeaseEffectOk;
    var p := s.procs[i];
    StepAllowed(s, i, c);
    if p.ProvReserved? {
      ReservedPlan(s, p, c);
    } else if p.Asking? {
      AskingPlan(s, p, c);
    }
  }

  lemma StepLeaks(s: State, i: Pid, c: Choice, u: Uid)
    requires Inv(s) && i in s.procs
    ensures u in Step(s, i, c).leaked <==> u in s.leaked || Unnamed(s, s.procs[i], c, u) || OrphanLost(s.procs[i], c, u)
  {
    hide Inv, Plan, Apply, Unnamed, OrphanLost;
    LosingPlan(s, i, c, u);
    FailuresAfter(s, i, Plan(s, s.procs[i], c));
  }

  lemma CalmLeaks(s: State, s': State)
    requires Calm(s, s')
    ensures s'.leaked == s.leaked
  {
    hide CalmTables, Joined;
  }

  lemma RestartLeaks(s: State, u: Uid)
    ensures u in RestartState(s).leaked <==> u in s.leaked || CutOff(s, u)
  {
    hide Recover;
  }

  /** A microVM becomes a leak in exactly three ways. */
  lemma LeaksExactly(s: State, a: Action, u: Uid)
    requires Inv(s)
    ensures u in Next(s, a).leaked <==> u in s.leaked || CausesLeak(s, a, u)
  {
    hide Inv, Next, Step, RestartState, Calm, Unnamed, OrphanLost, CutOff;
    if a.Advance? {
      NextAdvance(s, a.i, a.c);
      if a.i in s.procs { StepLeaks(s, a.i, a.c, u); }
    } else if a.Restart? {
      NextRestart(s);
      RestartLeaks(s, u);
    } else {
      EnvironmentIsCalm(s, a);
      CalmLeaks(s, Next(s, a));
    }
  }

  // ---- runs without a leak ----

  ghost predicate LeakFree(s: State, actions: seq<Action>)
    decreases |actions|
  {
    actions != [] ==> (forall u :: !CausesLeak(s, actions[0], u)) && LeakFree(Next(s, actions[0]), actions[1..])
  }

  /** After a run there is no leak if and only if there was none before and no action of the run was
      one of the three causes. */
  lemma {:induction false} NoLeakIffNoCause(s: State, actions: seq<Action>)
    requires Inv(s)
    ensures (forall u :: u !in Run(s, actions).leaked) <==> (forall u :: u !in s.leaked) && LeakFree(s, actions)
    decreases |actions|
  {
    hide Inv, Next, Run, CausesLeak;
    if actions == [] {
      RunNone(s);
    } else {
      RunFirst(s, actions);
      NextKeeps(s, actions[0]);
      NoLeakIffNoCause(Next(s, actions[0]), actions[1..]);
      forall u ensures u in Next(s, actions[0]).leaked <==> u in s.leaked || CausesLeak(s, actions[0], u) {
        LeaksExactly(s, actions[0], u);
      }
    }
  }

  /** In a run without a leak, a cordoned host that counts zero runs nothing at all, and that stays so
      until it is uncordoned or added again, whatever else happens and fails after. */
  lemma EmptyMeansEmpty(before: seq<Action>, after: seq<Action>, h: HostName)
    requires LeakFree(Initial(), before) && AllLeaveClosed(after, h)
    requires var s := Run(Initial(), before); h in s.db.hosts && s.db.hosts[h].cordoned && CountVmsByHost(s.db, h) == 0
    ensures
      var s := Run(Run(Initial(), before), after);
      && (forall u | u in s.live :: s.live[u] != h) && (forall i | i in s.procs :: Pending(s.procs[i]) != Some(h))
  {
    hide Inv, Run, LeakFree, AllLeaveClosed, CountVmsByHost;
    InitialOk();
    NoLeakIffNoCause(Initial(), before);
    SafeToTakeDown(before, after, h);
  }

  // ---- a crash that leaks ----

  const HOST: HostName := 1
  const POOL: PoolKey := PoolKey(1, 1)
  const RECONCILER: Rid := 7
  const MICROVM: Uid := 300
  const SPEC: PoolSpec := PoolSpec(POOL, 1, {HOST}, ReplaceOnDelete, DeleteAndReplace, false, 10)

  function Ok(pick: int): Choice {
    Choice(true, false, pick, HOST, 0)
  }

  /** A host is added and a pool created; its reconciler starts one Provision, flintlock creates the
      microVM, and the server crashes before the row is written. Then the host is cordoned. */
  const CRASH: seq<Action> := [
    AddHost(HOST), Call(0, PoolStart(true, SPEC)),
    Advance(0, Ok(0)), Advance(0, Ok(0)), Advance(0, Ok(0)), Advance(0, Ok(0)), Advance(0, Ok(RECONCILER)),
    ReconList(RECONCILER, OnTick), ReconCount(RECONCILER), ReconSpawn(RECONCILER, 1),
    Advance(1, Ok(100)), Advance(1, Ok(MICROVM)), Restart, SetCordoned(HOST, true, None, 0)]

  function WithHost(): State {
    Initial().(db := Initial().db.(hosts := map[HOST := Host(false, None, None, false, None)]))
  }

  function WithPool(): State {
    WithHost().(
      db := WithHost().db.(pools := map[POOL := SPEC]),
      mgr := Mgr(map[POOL := RECONCILER], map[], map[RECONCILER := Recon(SPEC, Idle, false)]),
      procs := map[0 := Done])
  }

  lemma HostAdded()
    ensures Next(Initial(), AddHost(HOST)) == WithHost()
  {
    hide Next;
    NextAddHost(Initial(), HOST);
  }

  function PoolCall(q: Proc, locked: bool, reading: bool, pools: map<PoolKey, PoolSpec>): State {
    WithHost().(
      db := WithHost().db.(pools := pools), locks := if locked then map[POOL := 0] else map[],
      readers := if reading then {0} else {}, procs := map[0 := q])
  }

  lemma PoolCallStarts()
    ensures Next(WithHost(), Call(0, PoolStart(true, SPEC))) == PoolCall(PoolStart(true, SPEC), false, false, map[])
  {
    hide Next;
    NextCall(WithHost(), 0, PoolStart(true, SPEC));
  }

  lemma StepIs(s: State, i: Pid, p: Proc, c: Choice, e: Effect)
    requires IsAt(s, i, p) && Plan(s, p, c) == e
    ensures Next(s, Advance(i, c)) == Apply(s, i, e)
  {
    hide Next, Plan, Apply;
    NextAdvance(s, i, c);
  }

  lemma PoolCallLocks()
    ensures Next(PoolCall(PoolStart(true, SPEC), false, false, map[]), Advance(0, Ok(0))) ==
            PoolCall(PoolLocked(true, SPEC), true, false, map[])
  {
    hide Next, Plan, Apply;
    var s := PoolCall(PoolStart(true, SPEC), false, false, map[]);
    PoolPlanIs(s, s.procs[0], Ok(0));
    StepIs(s, 0, s.procs[0], Ok(0), Locks(PoolLocked(true, SPEC), POOL));
    ApplyLocks(s, 0, PoolLocked(true, SPEC), POOL);
  }

  lemma PoolCallChecks()
    ensures Next(PoolCall(PoolLocked(true, SPEC), true, false, map[]), Advance(0, Ok(0))) ==
            PoolCall(PoolChecked(true, SPEC), true, true, map[])
  {
    hide Next, Plan, Apply;
    var s := PoolCall(PoolLocked(true, SPEC), true, false, map[]);
    PoolPlanIs(s, s.procs[0], Ok(0));
    StepIs(s, 0, s.procs[0], Ok(0), Reads(PoolChecked(true, SPEC)));
    ApplyReads(s, 0, PoolChecked(true, SPEC));
  }

  lemma PoolCallLooks()
    ensures Next(PoolCall(PoolChecked(true, SPEC), true, true, map[]), Advance(0, Ok(0))) ==
            PoolCall(PoolWriting(true, SPEC), true, true, map[])
  {
    hide Next, Plan, Apply;
    var s := PoolCall(PoolChecked(true, SPEC), true, true, map[]);
    PoolPlanIs(s, s.procs[0], Ok(0));
    StepIs(s, 0, s.procs[0], Ok(0), Moves(PoolWriting(true, SPEC)));
    ApplyMoves(s, 0, PoolWriting(true, SPEC));
  }

  lemma PoolCallWrites()
    ensures Next(PoolCall(PoolWriting(true, SPEC), true, true, map[]), Advance(0, Ok(0))) ==
            PoolCall(PoolStarting(SPEC), true, true, map[POOL := SPEC])
  {
    hide Next, Plan, Apply;
    var s := PoolCall(PoolWriting(true, SPEC), true, true, map[]);
    PoolPlanIs(s, s.procs[0], Ok(0));
    StepIs(s, 0, s.procs[0], Ok(0), WritesPool(PoolStarting(SPEC), SPEC));
    ApplyWritesPool(s, 0, PoolStarting(SPEC), SPEC);
  }

  lemma PoolCallReturns()
    ensures Next(PoolCall(PoolStarting(SPEC), true, true, map[POOL := SPEC]), Advance(0, Ok(RECONCILER))) == WithPool()
  {
    hide Next, Plan, Apply;
    var s := PoolCall(PoolStarting(SPEC), true, true, map[POOL := SPEC]);
    PoolPlanIs(s, s.procs[0], Ok(RECONCILER));
    StepIs(s, 0, s.procs[0], Ok(RECONCILER), Starts(RECONCILER, SPEC));
    ApplyStarts(s, 0, RECONCILER, SPEC);
  }

  function Reconciling(loop: Loop): State {
    WithPool().(mgr := WithPool().mgr.(recons := map[RECONCILER := Recon(SPEC, loop, false)]))
  }

  lemma Listing()
    ensures Next(WithPool(), ReconList(RECONCILER, OnTick)) == Reconciling(Listed(OnTick, map[]))
  {
    hide Next;
    NextReconList(WithPool(), RECONCILER, OnTick);
    assert VmsOfPool(WithPool().db, POOL) == map[];
  }

  lemma Counting()
    ensures Next(Reconciling(Listed(OnTick, map[])), ReconCount(RECONCILER)) == Reconciling(Spawning(1))
  {
    hide Next;
    NextReconCount(Reconciling(Listed(OnTick, map[])), RECONCILER);
  }

  function Building(q: Proc): State {
    Reconciling(Spawning(0)).(procs := map[0 := Done, 1 := q])
  }

  lemma Spawns()
    ensures Next(Reconciling(Spawning(1)), ReconSpawn(RECONCILER, 1)) == Building(ProvStart(RECONCILER, SPEC))
  {
    hide Next;
    NextReconSpawn(Reconciling(Spawning(1)), RECONCILER, 1);
  }

  const RESERVED: Proc := ProvReserved(RECONCILER, SPEC, 100, HOST)

  function Reserving(): State {
    Building(RESERVED).(
      db := WithPool().db.(placements := map[100 := Placement(HOST, POOL)]), placed := map[100 := 1])
  }

  lemma StartPlan(s: State, p: Proc, c: Choice)
    requires p.ProvStart?
    ensures Plan(s, p, c) == PlanProvStart(s, p, c)
  {
    hide Plan, BootPlan, UndoPlan, PlanProvStart, PlanProvReserved, PlanProvCreated, PlanProvRecorded;
    BuildPlanIs(s, p, c);
  }

  lemma Reserves()
    ensures Next(Building(ProvStart(RECONCILER, SPEC)), Advance(1, Ok(100))) == Reserving()
  {
    hide Next, Plan;
    var s := Building(ProvStart(RECONCILER, SPEC));
    NextAdvance(s, 1, Ok(100));
    StartPlan(s, s.procs[1], Ok(100));
    assert PlanProvStart(s, s.procs[1], Ok(100)) == Effect.Reserves(RESERVED, 100, Placement(HOST, POOL));
  }

  function Creating(): State {
    Reserving().(
      live := map[MICROVM := HOST], births := map[MICROVM := Birth(1, POOL, HOST)],
      procs := map[0 := Done, 1 := ProvCreated(RECONCILER, SPEC, 100, Vm(MICROVM, POOL, HOST, Provisioning, None))])
  }

  lemma Creates()
    ensures Next(Reserving(), Advance(1, Ok(MICROVM))) == Creating()
  {
    hide Next, Plan;
    var s := Reserving();
    NextAdvance(s, 1, Ok(MICROVM));
    ReservedPlan(s, s.procs[1], Ok(MICROVM));
  }

  lemma Crashes()
    ensures
      var s := Next(Next(Creating(), Restart), SetCordoned(HOST, true, None, 0));
      && HOST in s.db.hosts && s.db.hosts[HOST].cordoned && CountVmsByHost(s.db, HOST) == 0
      && MICROVM in s.live && s.live[MICROVM] == HOST && MICROVM in s.leaked
  {
    hide Next;
    NextRestart(Creating());
    NextSetCordoned(RestartState(Creating()), HOST, true, None, 0);
    NoneCounted(Next(Next(Creating(), Restart), SetCordoned(HOST, true, None, 0)).db, HOST);
  }

  lemma Onward(s: State, actions: seq<Action>, k: nat)
    requires k < |actions|
    ensures Run(s, actions[k..]) == Run(Next(s, actions[k]), actions[k + 1..])
  {
    hide Next, Run;
    RunFirst(s, actions[k..]);
    assert actions[k..][1..] == actions[k + 1..];
  }

  lemma RunToPool()
    ensures Run(Initial(), CRASH) == Run(WithPool(), CRASH[7..])
  {
    hide Next, Run, Initial, WithHost, PoolCall, WithPool;
    assert CRASH[0..] == CRASH;
    HostAdded();
    Onward(Initial(), CRASH, 0);
    PoolCallStarts();
    Onward(WithHost(), CRASH, 1);
    PoolCallLocks();
    Onward(PoolCall(PoolStart(true, SPEC), false, false, map[]), CRASH, 2);
    PoolCallChecks();
    Onward(PoolCall(PoolLocked(true, SPEC), true, false, map[]), CRASH, 3);
    PoolCallLooks();
    Onward(PoolCall(PoolChecked(true, SPEC), true, true, map[]), CRASH, 4);
    PoolCallWrites();
    Onward(PoolCall(PoolWriting(true, SPEC), true, true, map[]), CRASH, 5);
    PoolCallReturns();
    Onward(PoolCall(PoolStarting(SPEC), true, true, map[POOL := SPEC]), CRASH, 6);
  }

  lemma RunToCreate()
    ensures Run(WithPool(), CRASH[7..]) == Run(Creating(), CRASH[12..])
  {
    hide Next, Run, WithPool, Reconciling, Building, Reserving, Creating;
    Listing();
    Onward(WithPool(), CRASH, 7);
    Counting();
    Onward(Reconciling(Listed(OnTick, map[])), CRASH, 8);
    Spawns();
    Onward(Reconciling(Spawning(1)), CRASH, 9);
    Reserves();
    Onward(Building(ProvStart(RECONCILER, SPEC)), CRASH, 10);
    Creates();
    Onward(Reserving(), CRASH, 11);
  }

  /** Without a leak being ruled out the promise is false: in this run every answer succeeds, the
      cordoned host counts zero, and flintlock runs a microVM on it. */
  lemma CrashLeaks()
    ensures
      var s := Run(Initial(), CRASH);
      && (forall k | 0 <= k < |CRASH| && CRASH[k].Advance? :: CRASH[k].c.ok)
      && HOST in s.db.hosts && s.db.hosts[HOST].cordoned && CountVmsByHost(s.db, HOST) == 0
      && MICROVM in s.live && s.live[MICROVM] == HOST && MICROVM in s.leaked
  {
    hide Next, Run, WithPool, Creating, Initial, CountVmsByHost;
    RunToPool();
    RunToCreate();
    var crashed := Next(Creating(), Restart);
    Onward(Creating(), CRASH, 12);
    Onward(crashed, CRASH, 13);
    assert CRASH[14..] == [];
    RunNone(Next(crashed, SetCordoned(HOST, true, None, 0)));
    Crashes();
  }
}
