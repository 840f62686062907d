/** The sweeper's starting condition holds of the store in every reachable state. */
module SweeperTheorems {
  import opened Records
  import opened Transactions
  import opened Protocol
  import opened Invariant
  import opened Runs
  import opened Sweeping

  lemma LeaseCarried(s: State, l: LeaseId)
    requires Base(s) && l in s.db.leases
    ensures s.db.leases[l].id == l && s.db.leases[l].pool in s.db.pools
    ensures s.db.leases[l].vm in s.db.vms ==> Carries(s.db.vms[s.db.leases[l].vm], s.db.leases[l])
  {
    assert LeaseOk(s.db.vms, BookOf(s), l);
    assert MintOk(FleetOf(s), s.minted[l], l);
    if s.db.leases[l].vm in s.db.vms {
      assert RowOk(FleetOf(s), s.db.leases[l].vm);
    }
  }

  lemma RowCarries(s: State, u: Uid)
    requires Base(s) && u in s.db.vms && s.db.vms[u].leaseId.Some? && s.db.vms[u].leaseId.value in s.db.leases
    ensures s.db.leases[s.db.vms[u].leaseId.value].vm == u
  {
    var l := s.db.vms[u].leaseId.value;
    assert RowOk(FleetOf(s), u);
    assert LeaseOk(s.db.vms, BookOf(s), l);
    assert MintOk(FleetOf(s), s.minted[l], l);
    assert s.leaseOf[u] == l;
  }

  /** Whatever ran before, a tick starts from tables that agree. */
  lemma TickStartsSound(actions: seq<Action>)
    ensures Sound(Run(Initial(), actions).db)
  {
    EveryRun(actions);
    var s := Run(Initial(), actions);
    forall u | u in s.db.vms ensures s.db.vms[u].uid == u {
      assert RowOk(FleetOf(s), u);
    }
    forall l | l in s.db.leases ensures s.db.leases[l].id == l && s.db.leases[l].pool in s.db.pools {
      LeaseCarried(s, l);
    }
    forall l | l in s.db.leases && s.db.leases[l].vm in s.db.vms
      ensures Carries(s.db.vms[s.db.leases[l].vm], s.db.leases[l]) {
      LeaseCarried(s, l);
    }
    forall u | u in s.db.vms && s.db.vms[u].leaseId.Some? && s.db.vms[u].leaseId.value in s.db.leases
      ensures s.db.leases[s.db.vms[u].leaseId.value].vm == u
    {
      RowCarries(s, u);
    }
  }
}
