/** When a VM is taken down: over every run, flintlock is asked to delete a microVM, and a row is
    removed, only once the row is DELETING, whoever asks and however stale the record it holds. The
    one exception is a VM whose hooks failed and whose cleanup write got no answer. */
module Takedowns {
  import opened Records
  import opened Transactions
  import opened Protocol
  import opened Invariant
  import opened Stability
  import opened Plans
  import opened Frames
  import opened Staffing
  import opened Environment
  import opened Runs
  import opened Guarantees
  import opened Outcomes
  import opened Fates
  import opened RowTheorems
  import opened Lifecycle

  /** What a call is deleting for its DELETING row stays DELETING until it is gone. */
  ghost predicate TakedownsOk(s: State) {
    forall i | i in s.procs && Removing(s.procs[i]).Some? :: Retired(s, Removing(s.procs[i]).value)
  }

  lemma KeyedRow(s: State, v: Vm)
    requires Inv(s) && ReadsRow(s.db, v)
    ensures v.uid in s.db.vms && s.db.vms[v.uid] == v
  {
    var u :| u in s.db.vms && s.db.vms[u] == v;
    assert RowOk(FleetOf(s), u);
  }

  lemma ReadRowRetires(s: State, a: Action, v: Vm)
    requires Inv(s) && ReadsRow(s.db, v) && v.phase.Deleting?
    ensures Retired(Next(s, a), v.uid)
  {
    hide *;
    KeyedRow(s, v);
    DeletingRetires(s, v.uid);
    RetiredStays(s, a, v.uid);
  }

  lemma DeleterVm(p: Proc)
    requires Removing(p).Some?
    ensures (p.Asking? || p.Dropping?) && Removing(p).value == p.vm.uid
  {
  }

  /** The call's own step. */
  lemma StepCondemns(s: State, i: Pid, c: Choice)
    requires Inv(s) && i in s.procs && (Removing(s.procs[i]).Some? ==> Retired(s, Removing(s.procs[i]).value))
    ensures
      var s' := Next(s, Advance(i, c));
      && i in s'.procs && (Removing(s'.procs[i]).Some? ==> Retired(s', Removing(s'.procs[i]).value))
  {
    hide Inv, Next, Plan, Apply, Retired, Removing, ReadsRow, Boss, IsMaking, WritesBack, After;
    var p, e := s.procs[i], Plan(s, s.procs[i], c);
    NextAdvance(s, i, c);
    OthersStay(s, i, c);
    PlanStaffed(s, p, c);
    var s' := Next(s, Advance(i, c));
    var q := s'.procs[i];
    if Removing(q).Some? {
      DeleterVm(q);
      if Removing(q) == Removing(p) {
        RetiredStays(s, Advance(i, c), Removing(q).value);
      } else if e.Moves? {
        ReadRowRetires(s, Advance(i, c), q.vm);
      } else {
        DbIs(s, i, e);
        NextKeeps(s, Advance(i, c));
        DeletingRetires(s', Removing(q).value);
      }
    }
  }

  lemma SameCalls(s: State, a: Action)
    requires !a.Advance? && !a.Call? && !a.Sweep? && !a.ReconSpawn? && !a.Restart?
    ensures Next(s, a).procs == s.procs
  {
    hide *;
    if a.SetCordoned? || a.Drain? || a.MarkDraining? || a.AddHost? || a.RemoveHost? || a.Note? {
      TablesAreCalm(s, a);
    } else {
      ReconcilersAreCalm(s, a);
    }
  }

  /** Another call's step leaves the call where it was. */
  lemma OtherStepSpares(s: State, j: Pid, c: Choice, i: Pid)
    requires i != j && i in Next(s, Advance(j, c)).procs
    ensures i in s.procs && Next(s, Advance(j, c)).procs[i] == s.procs[i]
  {
    hide Next, Step, Plan, After;
    NextAdvance(s, j, c);
    if j in s.procs {
      OthersStay(s, j, c);
      OnlyItself(s, j, c);
    }
  }

  /** A sweep begins with a DELETING row it read. */
  lemma SweepCondemns(s: State, j: Pid, u: Uid, finish: bool, i: Pid)
    requires Inv(s) && i !in s.procs && i in Next(s, Sweep(j, u, finish)).procs
    ensures
      var q := Next(s, Sweep(j, u, finish)).procs[i];
      Removing(q).Some? ==> Retired(Next(s, Sweep(j, u, finish)), Removing(q).value)
  {
    hide Inv, Next, Retired;
    NextSweep(s, j, u, finish);
    ReadRowRetires(s, Sweep(j, u, finish), s.db.vms[u]);
  }

  lemma EntryDeletesNothing(q: Proc)
    requires IsEntry(q) || q.ProvStart? || q.Done?
    ensures Removing(q).None?
  {
  }

  /** No other call begins by deleting. */
  lemma BegunDeletesNothing(s: State, a: Action, i: Pid)
    requires (a.Call? || a.ReconSpawn?) && i !in s.procs && i in Next(s, a).procs
    ensures Removing(Next(s, a).procs[i]).None?
  {
    hide Next, IsEntry, Removing;
    if a.Call? { NextCall(s, a.i, a.p); } else { NextReconSpawn(s, a.r, a.i); }
    EntryDeletesNothing(Next(s, a).procs[i]);
  }

  lemma CallsStay(s: State, a: Action, i: Pid)
    requires !a.Advance? && !a.Restart? && i in s.procs
    ensures i in Next(s, a).procs && Next(s, a).procs[i] == s.procs[i]
  {
    hide Next, Joined, CalmTables;
    EnvironmentIsCalm(s, a);
    JoinedAt(s.procs, Next(s, a).procs, i);
  }

  lemma RestartDeletesNothing(s: State, i: Pid)
    requires i in Next(s, Restart).procs
    ensures Removing(Next(s, Restart).procs[i]).None?
  {
    hide Next;
    NextRestart(s);
  }

  /** Every other action leaves the call where it was, or begins it: only a sweep begins by deleting. */
  lemma BegunCondemns(s: State, a: Action, i: Pid)
    requires Inv(s) && !(a.Advance? && a.i == i) && i in Next(s, a).procs && Removing(Next(s, a).procs[i]).Some?
    ensures
      || (i in s.procs && Next(s, a).procs[i] == s.procs[i])
      || Retired(Next(s, a), Removing(Next(s, a).procs[i]).value)
  {
    hide *;
    if a.Advance? {
      OtherStepSpares(s, a.i, a.c, i);
    } else if a.Restart? {
      RestartDeletesNothing(s, i);
    } else if i in s.procs {
      CallsStay(s, a, i);
    } else if a.Sweep? {
      SweepCondemns(s, a.i, a.u, a.finish, i);
    } else if a.Call? || a.ReconSpawn? {
      BegunDeletesNothing(s, a, i);
    } else {
      SameCalls(s, a);
    }
  }

  lemma NextKeepsTakedowns(s: State, a: Action)
    requires Inv(s) && TakedownsOk(s)
    ensures TakedownsOk(Next(s, a))
  {
    hide Inv, Next, Retired, Removing;
    var s' := Next(s, a);
    forall i | i in s'.procs && Removing(s'.procs[i]).Some? ensures Retired(s', Removing(s'.procs[i]).value) {
      if a.Advance? && a.i == i && i in s.procs {
        StepCondemns(s, i, a.c);
      } else {
        if a.Advance? { NextAdvance(s, a.i, a.c); }
        BegunCondemns(s, a, i);
        if i in s.procs && s'.procs[i] == s.procs[i] {
          RetiredStays(s, a, Removing(s.procs[i]).value);
        }
      }
    }
  }

  lemma {:induction false} TakedownsAlwaysOk(actions: seq<Action>)
    ensures TakedownsOk(Run(Initial(), actions))
    decreases |actions|
  {
    hide *;
    if actions == [] {
      RunNone(Initial());
      NobodyCondemns();
    } else {
      var n := |actions| - 1;
      RunLast(Initial(), actions);
      EveryRun(actions[..n]);
      TakedownsAlwaysOk(actions[..n]);
      NextKeepsTakedowns(Run(Initial(), actions[..n]), actions[n]);
    }
  }

  lemma NobodyCondemns()
    ensures TakedownsOk(Initial())
  {
  }

  // ---- what goes, and when ----

  /** The call is deleting u. */
  ghost predicate TakesDown(p: Proc, u: Uid) {
    (p.Asking? || p.Dropping?) && p.vm.uid == u
  }

  /** The hook failure policy's write got no answer: the VM was never leased, and is not AVAILABLE. */
  ghost predicate CleanupFailed(s: State, p: Proc, u: Uid)
    requires TakesDown(p, u) && u in s.db.vms
  {
    && p.job.HookJob? && !p.job.marked && u in s.stranded && u !in s.leaseOf
    && !s.db.vms[u].phase.Available? && !s.db.vms[u].phase.Quarantined?
  }

  lemma HookCleanup(s: State, i: Pid, u: Uid)
    requires Inv(s) && i in s.procs && TakesDown(s.procs[i], u) && u in s.db.vms && s.procs[i].job.HookJob?
    ensures s.db.vms[u].phase.Deleting? || CleanupFailed(s, s.procs[i], u)
  {
    hide Known, Covered, Base, YardSideOk, BookSideOk, OfficeSideOk, Claimer, Builder, Unrecorded;
    InvParts(s);
    Here(s, i);
    HookJobOwner(s.procs[i]);
  }

  lemma NotAnOrphan(s: State, i: Pid, u: Uid)
    requires Inv(s) && i in s.procs && TakesDown(s.procs[i], u) && u in s.db.vms && !s.procs[i].job.HookJob?
    ensures Removing(s.procs[i]) == Some(u)
  {
    hide Known, Covered, Base, YardSideOk, BookSideOk, OfficeSideOk, Claimer, Builder;
    InvParts(s);
    Here(s, i);
  }

  lemma DeletingFirst(s: State, i: Pid, u: Uid)
    requires Inv(s) && TakedownsOk(s) && i in s.procs && TakesDown(s.procs[i], u) && u in s.db.vms
    ensures s.db.vms[u].phase.Deleting? || CleanupFailed(s, s.procs[i], u)
  {
    hide Inv, Removing, OwnedOrphan;
    if s.procs[i].job.HookJob? { HookCleanup(s, i, u); } else { NotAnOrphan(s, i, u); }
  }

  lemma StepTakesDown(s: State, i: Pid, c: Choice, u: Uid)
    requires Inv(s) && i in s.procs
    ensures u in s.db.vms && u !in Step(s, i, c).db.vms ==> s.procs[i].Dropping? && s.procs[i].vm.uid == u
    ensures u in s.live && u !in Step(s, i, c).live ==> s.procs[i].Asking? && s.procs[i].vm.uid == u
  {
    hide Inv, Plan, Apply, YardEffectOk, MakingOk, LeaseEffectOk;
    var e := Plan(s, s.procs[i], c);
    StepAllowed(s, i, c);
    DbIs(s, i, e);
    BirthsAfter(s, i, e);
  }

  /** A row goes only once it is DELETING and flintlock no longer runs its microVM, or after its
      hooks failed and the cleanup write got no answer. */
  lemma RowsGoDeleting(before: seq<Action>, a: Action, u: Uid)
    requires u in Run(Initial(), before).db.vms && u !in Next(Run(Initial(), before), a).db.vms
    ensures
      var s := Run(Initial(), before);
      && a.Advance? && a.i in s.procs && s.procs[a.i].Dropping? && s.procs[a.i].vm.uid == u && u !in s.live
      && (s.db.vms[u].phase.Deleting? || CleanupFailed(s, s.procs[a.i], u))
  {
    hide Run, Next, Inv, Step, CleanupFailed, TakedownsOk, OrphansFollow, BirthsFollow, YardFollows, LeasesFollow;
    var s := Run(Initial(), before);
    EveryRun(before);
    TakedownsAlwaysOk(before);
    if !a.Advance? {
      OthersKeepRows(s, a);
    }
    NextAdvance(s, a.i, a.c);
    StepTakesDown(s, a.i, a.c, u);
    NextFollows(s, a);
    DeletingFirst(s, a.i, u);
  }

  /** flintlock is told to delete a microVM only once its row is DELETING or gone, so never while the
      VM is AVAILABLE or under a lease; or after its hooks failed and the cleanup write got no answer. */
  lemma KilledDeleting(before: seq<Action>, a: Action, u: Uid)
    requires u in Run(Initial(), before).live && u !in Next(Run(Initial(), before), a).live
    ensures
      var s := Run(Initial(), before);
      && a.Advance? && a.i in s.procs && s.procs[a.i].Asking? && s.procs[a.i].vm.uid == u
      && (u in s.db.vms ==> s.db.vms[u].phase.Deleting? || CleanupFailed(s, s.procs[a.i], u))
  {
    hide Run, Next, Inv, Step, CleanupFailed, TakedownsOk;
    var s := Run(Initial(), before);
    EveryRun(before);
    TakedownsAlwaysOk(before);
    if !a.Advance? {
      OthersKeepRows(s, a);
    }
    NextAdvance(s, a.i, a.c);
    StepTakesDown(s, a.i, a.c, u);
    if u in s.db.vms {
      DeletingFirst(s, a.i, u);
    }
  }
}
