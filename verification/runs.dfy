/** Every action keeps the invariant, so every state of every run satisfies it. */
module Runs {
  import opened Records
  import opened Transactions
  import opened Protocol
  import opened Invariant
  import opened Stability
  import opened EnvEffects
  import opened Obligations
  import opened ClaimSteps
  import opened DeleteSteps
  import opened LeaseSteps
  import opened ProvisionSteps
  import opened AdminSteps

  // ---- one step of a call ----

  lemma ClaimFirstKeeps(s: State, i: Pid, p: Proc, c: Choice)
    requires Inv(s) && IsAt(s, i, p) && InClaimFirst(p)
    ensures Inv(Apply(s, i, ClaimFirstPlan(s, p, c)))
  {
    hide Inv, Apply, PlanClaimStart, PlanClaimLookup, PlanClaimPick, PlanClaimHooking, PlanClaimRunning;
    match p
    case ClaimStart(_, _) => KeepsClaimStart(s, i, p, c);
    case ClaimLookup(_, _, _) => KeepsClaimLookup(s, i, p, c);
    case ClaimPick(_, _, _) => KeepsClaimPick(s, i, p, c);
    case ClaimHooking(_, _, _, _) => KeepsClaimHooking(s, i, p, c);
    case ClaimRunning(_, _, _, _) => KeepsClaimRunning(s, i, p, c);
  }

  lemma ClaimLastKeeps(s: State, i: Pid, p: Proc, c: Choice)
    requires Inv(s) && IsAt(s, i, p) && InClaimLast(p)
    ensures Inv(Apply(s, i, ClaimLastPlan(s, p, c)))
  {
    hide Inv, Apply, PlanClaimLeasing, PlanClaimYielding, PlanClaimYielded, PlanClaimReplay;
    match p
    case ClaimLeasing(_, _, _, _) => KeepsClaimLeasing(s, i, p, c);
    case ClaimYielding(_, _, _, _) => KeepsClaimYielding(s, i, p, c);
    case ClaimYielded(_, _, _) => KeepsClaimYielded(s, i, p, c);
    case ClaimReplay(_, _, _) => KeepsClaimReplay(s, i, p, c);
  }

  lemma DeleteKeeps(s: State, i: Pid, p: Proc, c: Choice)
    requires Inv(s) && IsAt(s, i, p) && InDelete(p)
    ensures Inv(Apply(s, i, DeletePlan(s, p, c)))
  {
    hide Inv, Apply, PlanFailing, PlanAsking, PlanDropping;
    match p
    case Failing(_, policy, _) =>
      if policy.Quarantine? { KeepsQuarantine(s, i, p, c); } else { KeepsCondemn(s, i, p, c); }
    case Asking(job, _) =>
      if job.HookJob? { KeepsAskingHook(s, i, p, c); }
      else if job.OrphanJob? { KeepsAskingOrphan(s, i, p, c); }
      else { KeepsAskingOther(s, i, p, c); }
    case Dropping(job, _) =>
      if job.HookJob? { KeepsDroppingHook(s, i, p, c); }
      else if job.OrphanJob? { KeepsDroppingOrphan(s, i, p, c); }
      else { KeepsDroppingOther(s, i, p, c); }
  }

  lemma ReleaseKeeps(s: State, i: Pid, p: Proc, c: Choice)
    requires Inv(s) && IsAt(s, i, p) && InRelease(p)
    ensures Inv(Apply(s, i, ReleasePlan(s, p, c)))
  {
    hide Inv, Apply, PlanReleaseStart, PlanReleaseGot, PlanReleaseMarking, PlanReleaseLookup;
    hide PlanReleaseDropping;
    match p
    case ReleaseStart(_) => KeepsReleaseStart(s, i, p, c);
    case ReleaseGot(_) => KeepsReleaseGot(s, i, p, c);
    case ReleaseMarking(_, _) => KeepsReleaseMarking(s, i, p, c);
    case ReleaseLookup(_) => KeepsReleaseLookup(s, i, p, c);
    case ReleaseDropping(_) => KeepsReleaseDropping(s, i, p, c);
  }

  lemma ClosingKeeps(s: State, i: Pid, p: Proc, c: Choice)
    requires Inv(s) && IsAt(s, i, p) && InClosing(p)
    ensures Inv(Apply(s, i, ClosingPlan(s, p, c)))
  {
    hide Inv, Apply, PlanClosing, PlanClosingEvent, PlanSwept, PlanFinishing;
    match p
    case Closing(_) => KeepsClosing(s, i, p, c);
    case ClosingEvent(_) => KeepsClosingEvent(s, i, p, c);
    case Swept(_) => KeepsSwept(s, i, p, c);
    case Finishing(_) => KeepsFinishing(s, i, p, c);
  }

  lemma BeatKeeps(s: State, i: Pid, p: Proc, c: Choice)
    requires Inv(s) && IsAt(s, i, p) && InBeat(p)
    ensures Inv(Apply(s, i, BeatPlan(s, p, c)))
  {
    hide Inv, Apply, PlanBeatStart, PlanBeatGot, PlanBeatWriting;
    match p
    case BeatStart(_) => KeepsBeatStart(s, i, p, c);
    case BeatGot(_) => KeepsBeatGot(s, i, p, c);
    case BeatWriting(_, _) => KeepsBeatWriting(s, i, p, c);
  }

  lemma ExpiryKeeps(s: State, i: Pid, p: Proc, c: Choice)
    requires Inv(s) && IsAt(s, i, p) && InExpiry(p)
    ensures Inv(Apply(s, i, ExpiryPlan(s, p, c)))
  {
    hide Inv, Apply, PlanExpiryStart, PlanExpiryTaken, PlanExpiryRead, PlanExpiryMarking;
    match p
    case ExpiryStart(_, _) => KeepsExpiryStart(s, i, p, c);
    case ExpiryTaken(_) => KeepsExpiryTaken(s, i, p, c);
    case ExpiryRead(_, _) => KeepsExpiryRead(s, i, p, c);
    case ExpiryMarking(_, _) => KeepsExpiryMarking(s, i, p, c);
  }

  lemma CreateKeeps(s: State, i: Pid, p: Proc, c: Choice)
    requires Inv(s) && IsAt(s, i, p) && InCreate(p)
    ensures Inv(Apply(s, i, CreatePlan(s, p, c)))
  {
    hide Inv, Apply, PlanProvStart, PlanProvReserved, PlanProvCreated, PlanProvRecorded;
    match p
    case ProvStart(_, _) => KeepsProvStart(s, i, p, c);
    case ProvReserved(_, _, _, _) => KeepsProvReserved(s, i, p, c);
    case ProvCreated(_, _, _, _) => KeepsProvCreated(s, i, p, c);
    case ProvRecorded(_, _, _, _) => KeepsProvRecorded(s, i, p, c);
  }

  lemma BootKeeps(s: State, i: Pid, p: Proc, c: Choice)
    requires Inv(s) && IsAt(s, i, p) && InBoot(p)
    ensures Inv(Apply(s, i, BootPlan(s, p, c)))
  {
    hide Inv, Apply, PlanProvWaiting, PlanProvMarkHook, PlanProvHooks, PlanProvMarkAvailable;
    match p
    case ProvWaiting(_, _, _) => KeepsProvWaiting(s, i, p, c);
    case ProvMarkHook(_, _, _) => KeepsProvMarkHook(s, i, p, c);
    case ProvHooks(_, _, _) => KeepsProvHooks(s, i, p, c);
    case ProvMarkAvailable(_, _, _) => KeepsProvMarkAvailable(s, i, p, c);
  }

  lemma UndoKeeps(s: State, i: Pid, p: Proc, c: Choice)
    requires Inv(s) && IsAt(s, i, p) && InUndo(p)
    ensures Inv(Apply(s, i, UndoPlan(s, p, c)))
  {
    hide Inv, Apply, PlanProvFail, PlanProvOrphan, PlanProvRelease;
    match p
    case ProvFail(_, _, _) => KeepsProvFail(s, i, p, c);
    case ProvOrphan(_, _, _, _) => KeepsProvOrphan(s, i, p, c);
    case ProvRelease(_, _, _) => KeepsProvRelease(s, i, p, c);
  }

  lemma PoolWriteKeeps(s: State, i: Pid, p: Proc, c: Choice)
    requires Inv(s) && IsAt(s, i, p) && InPoolWrite(p)
    ensures Inv(Apply(s, i, PoolWritePlan(s, p, c)))
  {
    hide Inv, Apply, PlanPoolStart, PlanPoolLocked, PlanPoolChecked, PlanPoolWriting;
    match p
    case PoolStart(_, _) => KeepsPoolStart(s, i, p);
    case PoolLocked(_, _) => KeepsPoolLocked(s, i, p, c);
    case PoolChecked(_, _) => KeepsPoolChecked(s, i, p, c);
    case PoolWriting(_, _) => KeepsPoolWriting(s, i, p, c);
  }

  lemma PoolRestartKeeps(s: State, i: Pid, p: Proc, c: Choice)
    requires Inv(s) && IsAt(s, i, p) && InPoolRestart(p)
    ensures Inv(Apply(s, i, PoolRestartPlan(s, p, c)))
  {
    hide Inv, Apply, PlanPoolStopping, PlanStart;
    match p
    case PoolStopping(_) => KeepsPoolStopping(s, i, p);
    case PoolStarting(_) => KeepsStartAndUnlock(s, i, p, c);
    case DelRestart(_, _) => KeepsStartAndUnlock(s, i, p, c);
  }

  lemma DelStopKeeps(s: State, i: Pid, p: Proc, c: Choice)
    requires Inv(s) && IsAt(s, i, p) && InDelStop(p)
    ensures Inv(Apply(s, i, DelStopPlan(s, p, c)))
  {
    hide Inv, Apply, PlanDelStart, PlanDelLocked, PlanDelFound, PlanDelStopping;
    match p
    case DelStart(_, _) => KeepsDelStart(s, i, p);
    case DelLocked(_, _) => KeepsDelLocked(s, i, p, c);
    case DelFound(_, _, _) => KeepsDelFound(s, i, p, c);
    case DelStopping(_, _, _) => KeepsDelStopping(s, i, p);
  }

  lemma DelWaitKeeps(s: State, i: Pid, p: Proc, c: Choice)
    requires Inv(s) && IsAt(s, i, p) && InDelWait(p)
    ensures Inv(Apply(s, i, DelWaitPlan(s, p, c)))
  {
    hide Inv, Apply, PlanDelStopped, PlanDelWaiting, PlanDelReady, PlanDelEvents;
    match p
    case DelStopped(_, _, _) => KeepsDelStopped(s, i, p);
    case DelWaiting(_, _, _, _) => KeepsDelWaiting(s, i, p, c);
    case DelReady(_, _, _) => KeepsDelReady(s, i, p, c);
    case DelEvents(_, _) => KeepsDelEvents(s, i, p, c);
  }

  lemma ClaimSideKeeps(s: State, i: Pid, p: Proc, c: Choice)
    requires Inv(s) && IsAt(s, i, p) && ClaimsOrDeletes(p)
    ensures Inv(Apply(s, i, ClaimSidePlan(s, p, c)))
  {
    hide Inv, Apply, ClaimFirstPlan, ClaimLastPlan, DeletePlan;
    if InClaimFirst(p) { ClaimFirstKeeps(s, i, p, c); }
    else if InClaimLast(p) { ClaimLastKeeps(s, i, p, c); }
    else { DeleteKeeps(s, i, p, c); }
  }

  lemma LeaseSideKeeps(s: State, i: Pid, p: Proc, c: Choice)
    requires Inv(s) && IsAt(s, i, p) && EndsLeases(p)
    ensures Inv(Apply(s, i, LeaseSidePlan(s, p, c)))
  {
    hide Inv, Apply, ReleasePlan, ClosingPlan, BeatPlan, ExpiryPlan;
    if InRelease(p) { ReleaseKeeps(s, i, p, c); }
    else if InClosing(p) { ClosingKeeps(s, i, p, c); }
    else if InBeat(p) { BeatKeeps(s, i, p, c); }
    else { ExpiryKeeps(s, i, p, c); }
  }

  lemma BuildSideKeeps(s: State, i: Pid, p: Proc, c: Choice)
    requires Inv(s) && IsAt(s, i, p) && Provisions(p)
    ensures Inv(Apply(s, i, BuildSidePlan(s, p, c)))
  {
    hide Inv, Apply, CreatePlan, BootPlan, UndoPlan;
    if InCreate(p) { CreateKeeps(s, i, p, c); }
    else if InBoot(p) { BootKeeps(s, i, p, c); }
    else { UndoKeeps(s, i, p, c); }
  }

  lemma PoolSideKeeps(s: State, i: Pid, p: Proc, c: Choice)
    requires Inv(s) && IsAt(s, i, p)
    ensures Inv(Apply(s, i, PoolSidePlan(s, p, c)))
  {
    hide Inv, Apply, PoolWritePlan, PoolRestartPlan, DelStopPlan, DelWaitPlan;
    if InPoolWrite(p) { PoolWriteKeeps(s, i, p, c); }
    else if InPoolRestart(p) { PoolRestartKeeps(s, i, p, c); }
    else if InDelStop(p) { DelStopKeeps(s, i, p, c); }
    else if InDelWait(p) { DelWaitKeeps(s, i, p, c); }
    else { ApplyStays(s, i); }
  }

  lemma StepKeepsInv(s: State, i: Pid, c: Choice)
    requires Inv(s) && i in s.procs
    ensures Inv(Step(s, i, c))
  {
    hide Inv, Apply, ClaimSidePlan, LeaseSidePlan, BuildSidePlan, PoolSidePlan;
    var p := s.procs[i];
    if ClaimsOrDeletes(p) { ClaimSideKeeps(s, i, p, c); }
    else if EndsLeases(p) { LeaseSideKeeps(s, i, p, c); }
    else if Provisions(p) { BuildSideKeeps(s, i, p, c); }
    else { PoolSideKeeps(s, i, p, c); }
  }

  // ---- one action ----

  lemma CallKeeps(s: State, i: Pid, p: Proc)
    requires Inv(s) && i !in s.procs && IsEntry(p)
    ensures Inv(To(s, i, p))
  {
    PlainOk(s, i, p);
    Joins(s, i, p);
  }

  lemma NoteKeeps(s: State, e: Event)
    requires Inv(s)
    ensures Inv(s.(db := Emit(s.db, e)))
  {
    var s' := s.(db := Emit(s.db, e));
    forall j | j in s'.procs ensures ProcOk(s', j, s'.procs[j]) {
      Here(s, j);
    }
  }

  lemma LoopKeeps(s: State, a: Action)
    requires Inv(s) && (a.ReconList? || a.ReconCount? || a.ReconCap? || a.ReconRest?)
    ensures Inv(Next(s, a))
  {
    hide *;
    match a
    case ReconList(r, hook) => NextReconList(s, r, hook); KeepsListRows(s, r, hook);
    case ReconCount(r) => NextReconCount(s, r); KeepsCountRows(s, r);
    case ReconCap(r) => NextReconCap(s, r); KeepsCapStatic(s, r);
    case ReconRest(r) => NextReconRest(s, r); KeepsRestLoop(s, r);
  }

  lemma ReconKeeps(s: State, a: Action)
    requires Inv(s) && (a.ReconSpawn? || a.ReconExit? || a.ReconLeave? || a.Seed?)
    ensures Inv(Next(s, a))
  {
    hide *;
    match a
    case ReconSpawn(r, i) => NextReconSpawn(s, r, i); KeepsSpawn(s, r, i);
    case ReconExit(r) => NextReconExit(s, r); KeepsExitLoop(s, r);
    case ReconLeave(r) => NextReconLeave(s, r); KeepsLeaveLoop(s, r);
    case Seed(k, r) => NextSeed(s, k, r); KeepsSeed(s, k, r);
  }

  lemma HostKeeps(s: State, a: Action)
    requires Inv(s) && (a.SetCordoned? || a.Drain? || a.MarkDraining? || a.AddHost? || a.RemoveHost?)
    ensures Inv(Next(s, a))
  {
    hide *;
    match a
    case SetCordoned(h, cordoned, reason, now) =>
      NextSetCordoned(s, h, cordoned, reason, now);
      KeepsCordon(s, h, cordoned, reason, now);
    case Drain(h, reason, now) => NextDrain(s, h, reason, now); KeepsStartDrain(s, h, reason, now);
    case MarkDraining => NextMarkDraining(s); MarkKeeps(s, DrainingHosts(s.db));
    case AddHost(h) => NextAddHost(s, h); KeepsRegister(s, h);
    case RemoveHost(h) => NextRemoveHost(s, h); KeepsUnregister(s, h);
  }

  lemma StartCallKeeps(s: State, i: Pid, p: Proc)
    requires Inv(s)
    ensures Inv(StartCall(s, i, p))
  {
    hide Inv, IsEntry;
    if i !in s.procs && IsEntry(p) { CallKeeps(s, i, p); }
  }

  lemma StartSweepKeeps(s: State, i: Pid, u: Uid, finish: bool)
    requires Inv(s)
    ensures Inv(StartSweep(s, i, u, finish))
  {
    hide Inv;
    if i !in s.procs && u in s.db.vms && s.db.vms[u].phase.Deleting? { KeepsSweep(s, i, u, finish); }
  }

  lemma NoteEventKeeps(s: State, e: Event)
    requires Inv(s)
    ensures Inv(s.(db := NoteEvent(s.db, e)))
  {
    hide Inv, Emit;
    NoteKeeps(s, e);
  }

  lemma NextKeeps(s: State, a: Action)
    requires Inv(s)
    ensures Inv(Next(s, a))
  {
    hide *;
    if a.ReconSpawn? || a.ReconExit? || a.ReconLeave? || a.Seed? { ReconKeeps(s, a); }
    else if a.ReconList? || a.ReconCount? || a.ReconCap? || a.ReconRest? { LoopKeeps(s, a); }
    else if a.SetCordoned? || a.Drain? || a.MarkDraining? || a.AddHost? || a.RemoveHost? { HostKeeps(s, a); }
    else {
      match a
      case Call(i, p) => NextCall(s, i, p); StartCallKeeps(s, i, p);
      case Advance(i, c) => NextAdvance(s, i, c); if i in s.procs { StepKeepsInv(s, i, c); }
      case Sweep(i, u, finish) => NextSweep(s, i, u, finish); StartSweepKeeps(s, i, u, finish);
      case Note(e) => NextNote(s, e); NoteEventKeeps(s, e);
      case Restart => NextRestart(s); RestartKeeps(s);
    }
  }

  // ---- every run ----

  /** A new deployment: empty tables, nothing running. */
  function Initial(): State {
    State(Db(map[], map[], map[], map[], map[], []), Mgr(map[], map[], map[]),
          map[], map[], map[], map[], map[], map[], {}, {}, {}, map[], {}, map[])
  }

  lemma InitialOk()
    ensures Inv(Initial())
  {
  }

  /** Whatever interleaving of calls, failures, sweeps, drains and crashes happens. */
  lemma {:induction false} RunKeeps(s: State, actions: seq<Action>)
    requires Inv(s)
    ensures Inv(Run(s, actions))
    decreases |actions|
  {
    hide Next, Inv;
    if actions != [] {
      NextKeeps(s, actions[0]);
      RunKeeps(Next(s, actions[0]), actions[1..]);
    }
  }

  lemma EveryRun(actions: seq<Action>)
    ensures Inv(Run(Initial(), actions))
  {
    hide *;
    InitialOk();
    RunKeeps(Initial(), actions);
  }
}
