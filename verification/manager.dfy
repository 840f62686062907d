/** The pool manager: which reconcilers have a handle, and which were forgotten but have not exited. */
module Managers {
  import opened Records
  import opened Protocol
  import opened Invariant
  import opened Sets

  ghost function Ids(list: seq<Rid>): set<Rid> {
    set r | r in list
  }

  lemma IdsSplit(a: seq<Rid>, b: seq<Rid>)
    ensures Ids(a + b) == Ids(a) + Ids(b)
  {
    SameSet(Ids(a + b), Ids(a) + Ids(b));
  }

  /** slices.DeleteFunc on the exiting list. */
  method Without(list: seq<Rid>, r: Rid) returns (rest: seq<Rid>)
    ensures forall x :: x in rest <==> x in list && x != r
    ensures Ids(rest) == Ids(list) - {r}
    ensures rest == [] <==> Ids(list) - {r} == {}
  {
    rest := [];
    for n := 0 to |list|
      invariant forall x :: x in rest <==> x in list[..n] && x != r
    {
      if list[n] != r {
        rest := rest + [list[n]];
      }
    }
    assert list[..|list|] == list;
    forall x ensures x in Ids(rest) <==> x in Ids(list) - {r} {
      assert x in rest <==> x in list && x != r;
    }
    SameSet(Ids(rest), Ids(list) - {r});
    NoneIn(rest);
  }

  lemma NoneIn(list: seq<Rid>)
    ensures list == [] <==> Ids(list) == {}
  {
    if list != [] {
      assert list[0] in Ids(list);
    } else {
      SameSet(Ids(list), {});
    }
  }

  class Manager {
    var handles: map<PoolKey, Rid>
    var exiting: map<PoolKey, seq<Rid>>
    var recons: map<Rid, Recon>
    var stopped: bool

    /** The manager as the state machine sees it: the exiting lists as sets. */
    ghost function View(): Mgr
      reads this
    {
      Mgr(handles, map k | k in exiting :: Ids(exiting[k]), recons)
    }

    /** Every goroutine still running has a handle or is listed as exiting, and handles are keyed by
        their reconciler's pool. */
    ghost predicate Valid()
      reads this
    {
      && (forall r | Alive(View(), r) :: Tracked(View(), r))
      && (forall k | k in handles :: handles[k] in recons && recons[handles[k]].spec.key == k)
    }

    constructor ()
      ensures Valid() && View() == Mgr(map[], map[], map[]) && !stopped
    {
      handles, exiting, recons, stopped := map[], map[], map[], false;
      new;
      var none: map<PoolKey, set<Rid>> := map[];
      SameMap(View().exiting, none);
    }

    /** StartReconciler; r names the goroutine it starts. */
    method StartReconciler(r: Rid, spec: PoolSpec) returns (ok: bool)
      requires Valid() && r !in recons
      modifies `handles, `recons
      ensures Valid() && (ok <==> spec.key !in old(handles) && !stopped)
      ensures handles == if ok then old(handles)[spec.key := r] else old(handles)
      ensures recons == if ok then old(recons)[r := Recon(spec, Idle, false)] else old(recons)
      ensures View() == if ok then StartRecon(old(View()), r, spec) else old(View())
    {
      if spec.key in handles || stopped {
        return false;
      }
      handles := handles[spec.key := r];
      recons := recons[r := Recon(spec, Idle, false)];
      ok := true;
      forall g | Alive(View(), g) ensures Tracked(View(), g) {
        if g != r {
          assert Alive(old(View()), g) && Tracked(old(View()), g);
        }
      }
    }

    method CancelAndForget(k: PoolKey)
      requires Valid()
      modifies `handles, `exiting
      ensures Valid() && handles == old(handles) - {k}
      ensures forall c | c in old(exiting) && c != k :: c in exiting && exiting[c] == old(exiting)[c]
      ensures exiting.Keys ==
              old(exiting).Keys + if k in old(handles) && !recons[old(handles)[k]].done then {k} else {}
      ensures k in exiting ==>
                exiting[k] == (if k in old(exiting) then old(exiting)[k] else [])
                              + if k in old(handles) && !recons[old(handles)[k]].done then [old(handles)[k]] else []
      ensures View() == Forget(old(View()), k)
    {
      if k !in handles {
        return;
      }
      var r := handles[k];
      handles := handles - {k};
      if !recons[r].done {
        var list := if k in exiting then exiting[k] else [];
        IdsSplit(list, [r]);
        SameSet(Ids([r]), {r});
        NoneIn([]);
        exiting := exiting[k := list + [r]];
      }
      SameMap(View().exiting, Forget(old(View()), k).exiting);
      forall g | Alive(View(), g) ensures Tracked(View(), g) {
        assert Alive(old(View()), g) && Tracked(old(View()), g);
      }
    }

    /** exited's first half, before it takes the lock: the done channel closes. */
    method CloseDone(r: Rid)
      requires Valid() && r in recons && !recons[r].done
      modifies `recons
      ensures Valid() && recons == old(recons)[r := old(recons)[r].(done := true)]
      ensures View() == Finished(old(View()), r)
    {
      recons := recons[r := recons[r].(done := true)];
      forall g | Alive(View(), g) ensures Tracked(View(), g) {
        assert Alive(old(View()), g) && Tracked(old(View()), g);
      }
    }

    /** Its second half: the goroutine leaves the exiting list. */
    method DropExiting(r: Rid)
      requires Valid() && r in recons && recons[r].done
      modifies `exiting
      ensures Valid()
      ensures forall c | c in exiting :: c in old(exiting) && forall g | g in exiting[c] :: g in old(exiting)[c]
      ensures forall c, g | c in old(exiting) && g in old(exiting)[c] ::
                (c in exiting && g in exiting[c]) <==> !(c == recons[r].spec.key && g == r)
      ensures recons[r].spec.key in exiting ==> exiting[recons[r].spec.key] != []
      ensures View() == Leave(old(View()), r)
    {
      var k := recons[r].spec.key;
      NoneIn([]);
      var rest := Without(if k in exiting then exiting[k] else [], r);
      exiting := if rest == [] then exiting - {k} else exiting[k := rest];
      SameMap(View().exiting, Leave(old(View()), r).exiting);
      forall g | Alive(View(), g) ensures Tracked(View(), g) {
        assert Alive(old(View()), g) && Tracked(old(View()), g);
      }
    }

    /** Seed: one reconciler per stored pool, stopping at the first it cannot start; the n-th pool's
        goroutine is named first + n. */
    method Seed(pools: seq<PoolSpec>, first: Rid) returns (ok: bool)
      requires Valid() && forall r | r in recons :: r < first
      requires forall m, n | 0 <= m < n < |pools| :: pools[m].key != pools[n].key
      modifies this
      ensures Valid() && stopped == old(stopped) && exiting == old(exiting)
      ensures ok <==> pools == [] || (!stopped && forall n | 0 <= n < |pools| :: pools[n].key !in old(handles))
      ensures ok ==> forall n | 0 <= n < |pools| ::
                pools[n].key in handles && recons[handles[pools[n].key]] == Recon(pools[n], Idle, false)
      ensures forall k | k in old(handles) :: k in handles && handles[k] == old(handles)[k]
    {
      for n := 0 to |pools|
        invariant Valid() && stopped == old(stopped) && exiting == old(exiting)
        invariant forall r | r in recons :: r < first + n
        invariant n > 0 ==> !stopped
        invariant forall m | 0 <= m < n :: pools[m].key !in old(handles)
        invariant forall m | 0 <= m < n ::
                    pools[m].key in handles && recons[handles[pools[m].key]] == Recon(pools[m], Idle, false)
        invariant forall k | k in handles :: k in old(handles) || exists m | 0 <= m < n :: pools[m].key == k
        invariant forall k | k in old(handles) :: k in handles && handles[k] == old(handles)[k]
      {
        ok := StartReconciler(first + n, pools[n]);
        if !ok {
          return false;
        }
      }
      ok := true;
    }
  }
}
