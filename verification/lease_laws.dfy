/** What a claim and a heartbeat buy: until the time they answer, no tick takes the VM away. */
module LeaseLaws {
  import opened Records
  import opened Transactions
  import opened Sweeping
  import opened LeaseServices

  /** A lease of a LEASED VM that runs past now, and the VM, are as they were after a tick at now. */
  ghost predicate Survives(db: Db, end: Db, id: LeaseId)
    requires id in db.leases && db.leases[id].vm in db.vms
  {
    var u := db.leases[id].vm;
    id in end.leases && end.leases[id] == db.leases[id] && u in end.vms && end.vms[u] == db.vms[u]
  }

  /** A heartbeat at now of a lease of a LEASED VM, as Heartbeat leaves the tables; then a tick at any
      time before the answer. */
  lemma HeartbeatThenTick(
    db: Db, id: LeaseId, now: Time, db': Db, answer: Time, warned: map<LeaseId, Time>, x: Lists3, at: Time, window: nat)
    requires Sound(db) && id in db.leases && db.leases[id].vm in db.vms && db.vms[db.leases[id].vm].phase.Leased?
    requires answer == now + db.pools[db.leases[id].pool].expiryThreshold
    requires db' == db.(leases := db.leases[id := db.leases[id].(heartbeatAt := now, expiresAt := answer)])
    requires TickLists(db', x, at + window) && at < answer
    ensures Survives(db', Ticked(db', warned, x, at).db, id)
  {
    hide Ticked, TickLists;
    assert Sound(db') by {
      forall l | l in db'.leases && db'.leases[l].vm in db'.vms
        ensures Carries(db'.vms[db'.leases[l].vm], db'.leases[l])
      {
        assert Carries(db.vms[db.leases[l].vm], db.leases[l]);
      }
    }
    TickPromises(db', warned, x, at, window);
  }

  /** A claim at now that leased a VM out; then a tick at any time before the pool's threshold. */
  lemma ClaimThenTick(
    db: Db, k: PoolKey, request: Option<RequestId>, id: LeaseId, now: Time, db': Db, u: Uid,
    warned: map<LeaseId, Time>, x: Lists3, at: Time, window: nat)
    requires Sound(db) && id !in db.leases && (forall v | v in db.vms :: db.vms[v].leaseId != Some(id))
    requires k in db.pools && (request.None? || forall l | l in db.leases :: db.leases[l].request != request)
    requires Claims(db, k, request, true, id, now, true, db', Claimed(id, u))
    requires TickLists(db', x, at + window) && at < now + db.pools[k].expiryThreshold
    ensures id in db'.leases && db'.leases[id].vm == u && u in db'.vms && db'.vms[u].phase.Leased?
    ensures Survives(db', Ticked(db', warned, x, at).db, id)
  {
    hide Ticked, TickLists, Claims;
    ClaimMeans(db, k, request, true, id, now, true, db', Claimed(id, u));
    assert HandedOut(db, k, request, id, now, db', Claimed(id, u));
    ClaimSound(db, k, request, id, now, db', u);
    TickPromises(db', warned, x, at, window);
  }

  lemma ClaimSound(db: Db, k: PoolKey, request: Option<RequestId>, id: LeaseId, now: Time, db': Db, u: Uid)
    requires Sound(db) && id !in db.leases && (forall v | v in db.vms :: db.vms[v].leaseId != Some(id)) && k in db.pools
    requires HandedOut(db, k, request, id, now, db', Claimed(id, u))
    requires db' == db.(vms := db'.vms, leases := db'.leases, events := db'.events)
    ensures Sound(db')
  {
    forall l | l in db'.leases && db'.leases[l].vm in db'.vms
      ensures Carries(db'.vms[db'.leases[l].vm], db'.leases[l])
    {
      if l != id {
        assert Carries(db.vms[db.leases[l].vm], db.leases[l]);
      }
    }
  }
}
