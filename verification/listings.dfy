/** ORDER BY: the rows of a table in the order of their keys. */
module Listings {
  predicate Increasing(s: seq<int>) {
    forall i, j | 0 <= i < j < |s| :: s[i] < s[j]
  }

  predicate IsLeast(m: int, keys: set<int>) {
    m in keys && forall x | x in keys :: m <= x
  }

  lemma {:induction false} LeastExists(keys: set<int>, k: int)
    requires k in keys
    ensures exists m :: IsLeast(m, keys)
    decreases |keys|
  {
    var rest := set x | x in keys && x < k;
    if rest == {} {
      assert IsLeast(k, keys) by {
        forall x | x in keys ensures k <= x {
          assert x !in rest;
        }
      }
    } else {
      var y :| y in rest;
      assert keys - {k} < keys;
      LeastExists(keys - {k}, y);
      var m :| IsLeast(m, keys - {k});
      assert m <= y;
      assert IsLeast(m, keys) by {
        forall x | x in keys ensures m <= x {
          assert x == k || x in keys - {k};
        }
      }
    }
  }

  lemma NoMemberNoSet(keys: set<int>)
    ensures (forall k: int :: k !in keys) ==> keys == {}
  {
    var none: set<int> := {};
    if forall k: int :: k !in keys {
      assert forall k: int :: k in keys <==> k in none;
    }
  }

  lemma LeastOfSome(keys: set<int>)
    requires keys != {}
    ensures exists m :: IsLeast(m, keys)
  {
    NoMemberNoSet(keys);
    var k :| k in keys;
    LeastExists(keys, k);
  }

  method Ordered(keys: set<int>) returns (s: seq<int>)
    ensures Increasing(s) && (forall k :: k in s <==> k in keys) && (forall i | 0 <= i < |s| :: s[i] in keys)
  {
    var rest := keys;
    s := [];
    while rest != {}
      invariant Increasing(s)
      invariant forall k :: k in keys <==> k in s || k in rest
      invariant forall i, x | 0 <= i < |s| && x in rest :: s[i] < x
      decreases |rest|
    {
      LeastOfSome(rest);
      var m :| m in rest && IsLeast(m, rest);
      s, rest := s + [m], rest - {m};
    }
  }

  /** An ordering lists each key once. */
  lemma {:induction false} OrderSize(s: seq<int>)
    requires Increasing(s)
    ensures |set k | k in s| == |s|
    decreases |s|
  {
    if s == [] {
      assert (set k | k in s) == {};
    } else {
      var n := |s| - 1;
      OrderSize(s[..n]);
      assert s == s[..n] + [s[n]];
      assert (set k | k in s) == (set k | k in s[..n]) + {s[n]};
      assert s[n] !in s[..n];
    }
  }
}
