/** Startup recovery: what poolmgrd does to the store before anything is served. */
module Recovery {
  import opened Records
  import opened Transactions
  import opened Stores
  import opened Sets

  /** A row in one of the two phases, without a lease among those kept. */
  predicate IsAbandoned(v: Vm, p: Phase, q: Phase, kept: set<LeaseId>) {
    (v.phase == p || v.phase == q) && !(v.leaseId.Some? && v.leaseId.value in kept)
  }

  function Abandoned(db: Db, p: Phase, q: Phase, kept: set<LeaseId>): set<Uid> {
    set u | u in db.vms && IsAbandoned(db.vms[u], p, q, kept)
  }

  /** Those rows marked DELETING; they keep their lease id. */
  function Condemned(db: Db, p: Phase, q: Phase, kept: set<LeaseId>): Db {
    db.(vms := map u | u in db.vms ::
      if IsAbandoned(db.vms[u], p, q, kept) then db.vms[u].(phase := Deleting) else db.vms[u])
  }

  lemma CondemnedAt(db: Db, p: Phase, q: Phase, kept: set<LeaseId>)
    ensures Condemned(db, p, q, kept).vms.Keys == db.vms.Keys
    ensures forall u | u in db.vms ::
              Condemned(db, p, q, kept).vms[u] ==
              if IsAbandoned(db.vms[u], p, q, kept) then db.vms[u].(phase := Deleting) else db.vms[u]
  {
  }

  /** One phase after the other: the rows the second pass finds are those it would have found at
      first. */
  lemma CondemnedInTurn(db: Db, p: Phase, q: Phase, kept: set<LeaseId>)
    requires p != q && p != Deleting && q != Deleting
    ensures Condemned(Condemned(db, p, p, kept), q, q, kept) == Condemned(db, p, q, kept)
    ensures |Abandoned(db, p, q, kept)| == |Abandoned(db, p, p, kept)|
              + |Abandoned(Condemned(db, p, p, kept), q, q, kept)|
  {
    var once := Condemned(db, p, p, kept);
    CondemnedAt(db, p, p, kept);
    CondemnedAt(once, q, q, kept);
    CondemnedAt(db, p, q, kept);
    assert Condemned(once, q, q, kept).vms == Condemned(db, p, q, kept).vms;
    AbandonedInTurn(db, once, p, q, kept);
  }

  lemma AbandonedInTurn(db: Db, once: Db, p: Phase, q: Phase, kept: set<LeaseId>)
    requires p != q && p != Deleting && q != Deleting && once.vms.Keys == db.vms.Keys
    requires forall u | u in db.vms ::
               once.vms[u] == if IsAbandoned(db.vms[u], p, p, kept) then db.vms[u].(phase := Deleting) else db.vms[u]
    ensures |Abandoned(db, p, q, kept)| == |Abandoned(db, p, p, kept)| + |Abandoned(once, q, q, kept)|
  {
    var both, first, second := Abandoned(db, p, q, kept), Abandoned(db, p, p, kept), Abandoned(once, q, q, kept);
    forall u: Uid ensures (u in both <==> u in first || u in second) && !(u in first && u in second) {
      if u in db.vms {
        assert u in once.vms;
      }
    }
    UnionSize(both, first, second);
  }

  /** The rows after the first n of a listing have been dealt with. */
  ghost predicate MarkedSoFar(before: map<Uid, Vm>, vms: map<Uid, Vm>, hit: set<Uid>) {
    && vms.Keys == before.Keys
    && (forall u | u in before :: vms[u] == if u in hit then before[u].(phase := Deleting) else before[u])
  }

  /** The uids of the first n rows that are abandoned. */
  ghost predicate HitSoFar(r: seq<Vm>, n: nat, phase: Phase, kept: set<LeaseId>, hit: set<Uid>)
    requires n <= |r|
  {
    forall u :: u in hit <==> exists m | 0 <= m < n :: r[m].uid == u && IsAbandoned(r[m], phase, phase, kept)
  }

  lemma ListedOnce(r: seq<Vm>, rows: map<Uid, Vm>, n: nat)
    requires Lists(r, rows) && n < |r|
    ensures r[n].uid in rows && rows[r[n].uid] == r[n]
    ensures forall m | 0 <= m < n :: r[m].uid != r[n].uid
  {
    assert r[n] in r;
    forall m | 0 <= m < n ensures r[m].uid != r[n].uid {
      ListedApart(r, rows, m, n);
    }
  }

  lemma OneMoreHit(r: seq<Vm>, n: nat, phase: Phase, kept: set<LeaseId>, hit: set<Uid>)
    requires n < |r| && HitSoFar(r, n, phase, kept, hit)
    ensures HitSoFar(r, n + 1, phase, kept, if IsAbandoned(r[n], phase, phase, kept) then hit + {r[n].uid} else hit)
  {
  }

  lemma AllHit(db: Db, r: seq<Vm>, phase: Phase, kept: set<LeaseId>, hit: set<Uid>, u: Uid)
    requires Lists(r, VmsInPhase(db, phase)) && HitSoFar(r, |r|, phase, kept, hit)
    requires forall w | w in db.vms :: db.vms[w].uid == w
    ensures u in hit <==> u in Abandoned(db, phase, phase, kept)
  {
    if u in db.vms && IsAbandoned(db.vms[u], phase, phase, kept) {
      assert u in VmsInPhase(db, phase);
      assert db.vms[u] in r;
    }
    if u in hit {
      var m :| 0 <= m < |r| && r[m].uid == u && IsAbandoned(r[m], phase, phase, kept);
      assert r[m] in r;
    }
  }

  lemma MarkedAll(db: Db, vms: map<Uid, Vm>, phase: Phase, kept: set<LeaseId>, hit: set<Uid>)
    requires MarkedSoFar(db.vms, vms, hit) && forall u :: u in hit <==> u in Abandoned(db, phase, phase, kept)
    ensures vms == Condemned(db, phase, phase, kept).vms
  {
    CondemnedAt(db, phase, phase, kept);
    var all := Condemned(db, phase, phase, kept).vms;
    forall u | u in db.vms ensures vms[u] == all[u] {
      assert u in hit <==> u in Abandoned(db, phase, phase, kept);
    }
    assert vms.Keys == all.Keys;
  }

  /** The inner loop: every VM in one phase that has no lease among those kept. */
  method MarkAbandoned(st: Store, phase: Phase, kept: set<LeaseId>) returns (recovered: nat)
    requires st.Valid() && phase != Deleting
    modifies st`vms
    ensures st.Valid() && st.Contents() == Condemned(old(st.Contents()), phase, phase, kept)
    ensures recovered == |Abandoned(old(st.Contents()), phase, phase, kept)|
  {
    ghost var db := st.Contents();
    var r := st.ListVMsByPhase(phase);
    recovered := 0;
    ghost var hit: set<Uid> := {};
    for n := 0 to |r|
      invariant st.Valid() && st.Contents() == db.(vms := st.vms) && MarkedSoFar(db.vms, st.vms, hit)
      invariant HitSoFar(r, n, phase, kept, hit) && recovered == |hit|
    {
      ListedOnce(r, VmsInPhase(db, phase), n);
      OneMoreHit(r, n, phase, kept, hit);
      assert r[n].uid !in hit;
      if !(r[n].leaseId.Some? && r[n].leaseId.value in kept) {
        var done := st.UpdateVM(r[n].(phase := Deleting));
        recovered := recovered + 1;
        hit := hit + {r[n].uid};
      }
    }
    forall u ensures u in hit <==> u in Abandoned(db, phase, phase, kept) {
      AllHit(db, r, phase, kept, hit, u);
    }
    MarkedAll(db, st.vms, phase, kept, hit);
    SameSize(hit, Abandoned(db, phase, phase, kept));
  }

  method RecoverAbandonedClaims(st: Store) returns (recovered: nat)
    requires st.Valid()
    modifies st`vms
    ensures st.Valid() && st.vms.Keys == old(st.vms).Keys
    ensures forall u | u in st.vms ::
              var v := old(st.vms)[u];
              st.vms[u] == if (v.phase.Leased? || v.phase.PreLeaseHookRunning?)
                              && (v.leaseId.None? || v.leaseId.value !in st.leases)
                           then v.(phase := Deleting) else v
    ensures st.Contents() == Condemned(old(st.Contents()), PreLeaseHookRunning, Leased, old(st.leases).Keys)
    ensures recovered == |Abandoned(old(st.Contents()), PreLeaseHookRunning, Leased, old(st.leases).Keys)|
  {
    var committed := st.leases.Keys;
    ghost var db := st.Contents();
    var first := MarkAbandoned(st, PreLeaseHookRunning, committed);
    var second := MarkAbandoned(st, Leased, committed);
    CondemnedInTurn(db, PreLeaseHookRunning, Leased, committed);
    return first + second;
  }

  method RecoverAbandonedProvisions(st: Store) returns (recovered: nat)
    requires st.Valid()
    modifies st`vms
    ensures st.Valid() && st.vms.Keys == old(st.vms).Keys
    ensures forall u | u in st.vms ::
              var v := old(st.vms)[u];
              st.vms[u] == if v.phase.Provisioning? || v.phase.CreateHookRunning? then v.(phase := Deleting) else v
    ensures st.Contents() == Condemned(old(st.Contents()), Provisioning, CreateHookRunning, {})
    ensures recovered == |Abandoned(old(st.Contents()), Provisioning, CreateHookRunning, {})|
  {
    ghost var db := st.Contents();
    var first := MarkAbandoned(st, Provisioning, {});
    var second := MarkAbandoned(st, CreateHookRunning, {});
    CondemnedInTurn(db, Provisioning, CreateHookRunning, {});
    return first + second;
  }

  lemma PassesRow(db: Db, claims: Db, u: Uid)
    requires claims == Condemned(db.(placements := map[]), PreLeaseHookRunning, Leased, db.leases.Keys) && u in db.vms
    ensures u in claims.vms && u in Recover(db).vms
    ensures IsAbandoned(claims.vms[u], Provisioning, CreateHookRunning, {}) <==> AbandonedProvision(db.vms[u])
    ensures Recover(db).vms[u] ==
            if AbandonedProvision(db.vms[u]) then claims.vms[u].(phase := Deleting) else claims.vms[u]
  {
  }

  /** The three passes together are the recovery of the protocol's restart. */
  lemma PassesRecover(db: Db)
    ensures
      var claims := Condemned(db.(placements := map[]), PreLeaseHookRunning, Leased, db.leases.Keys);
      Condemned(claims, Provisioning, CreateHookRunning, {}) == Recover(db)
  {
    var bare := db.(placements := map[]);
    var claims := Condemned(bare, PreLeaseHookRunning, Leased, db.leases.Keys);
    var last := Condemned(claims, Provisioning, CreateHookRunning, {}).vms;
    CondemnedAt(bare, PreLeaseHookRunning, Leased, db.leases.Keys);
    CondemnedAt(claims, Provisioning, CreateHookRunning, {});
    assert Recover(db).vms.Keys == db.vms.Keys;
    forall u | u in db.vms ensures last[u] == Recover(db).vms[u] {
      PassesRow(db, claims, u);
    }
    assert last == Recover(db).vms;
  }

  lemma ProvisionsAbandoned(db: Db, claims: Db, u: Uid)
    requires claims == Condemned(db.(placements := map[]), PreLeaseHookRunning, Leased, db.leases.Keys)
    ensures u in Abandoned(claims, Provisioning, CreateHookRunning, {}) <==>
              u in db.vms && AbandonedProvision(db.vms[u])
  {
    if u in db.vms {
      PassesRow(db, claims, u);
    }
  }

  /** ClearPlacements, then both recoveries, with how many rows they marked. */
  method RecoverStore(st: Store) returns (claims: nat, provisions: nat)
    requires st.Valid()
    modifies st`vms, st`placements
    ensures st.Valid() && st.placements == map[] && st.vms.Keys == old(st.vms).Keys
    ensures forall u | u in st.vms ::
              var v := old(st.vms)[u];
              var claim := (v.phase.Leased? || v.phase.PreLeaseHookRunning?)
                           && (v.leaseId.None? || v.leaseId.value !in st.leases);
              var provision := v.phase.Provisioning? || v.phase.CreateHookRunning?;
              st.vms[u] == if claim || provision then v.(phase := Deleting) else v
    ensures st.Contents() == Recover(old(st.Contents()))
    ensures claims == |set u | u in old(st.vms) && AbandonedClaim(old(st.Contents()), old(st.vms)[u])|
    ensures provisions == |set u | u in old(st.vms) && AbandonedProvision(old(st.vms)[u])|
  {
    ghost var db := st.Contents();
    st.ClearPlacements();
    claims := RecoverAbandonedClaims(st);
    ghost var middle := st.Contents();
    provisions := RecoverAbandonedProvisions(st);
    PassesRecover(db);
    ghost var left := set u | u in db.vms && AbandonedClaim(db, db.vms[u]);
    ghost var half := set u | u in db.vms && AbandonedProvision(db.vms[u]);
    forall u ensures u in Abandoned(db.(placements := map[]), PreLeaseHookRunning, Leased, db.leases.Keys) <==>
      u in left {}
    SameSize(Abandoned(db.(placements := map[]), PreLeaseHookRunning, Leased, db.leases.Keys), left);
    forall u ensures u in Abandoned(middle, Provisioning, CreateHookRunning, {}) <==> u in half {
      ProvisionsAbandoned(db, middle, u);
    }
    SameSize(Abandoned(middle, Provisioning, CreateHookRunning, {}), half);
  }
}
