/** Witness and extensionality facts about finite sets and maps. */
module Sets {
  lemma Pick<T>(s: set<T>) returns (k: T)
    requires s != {}
    ensures k in s
  {
    k :| k in s;
  }

  lemma PickMissing<T>(a: set<T>, b: set<T>) returns (k: T)
    requires a <= b && a != b
    ensures k in b && k !in a
  {
    assert a + (b - a) == b;
    k := Pick(b - a);
  }

  predicate Between(lo: int, k: int, hi: int) {
    lo <= k < hi
  }

  function Interval(lo: int, hi: int): (s: set<int>)
    ensures forall k :: k in s <==> lo <= k < hi
  {
    set k: int | lo <= k < hi && Between(lo, k, hi)
  }

  lemma SameIntMap<V>(a: map<int, V>, b: map<int, V>)
    requires forall k <- a :: k in b && a[k] == b[k]
    requires forall k <- b :: k in a
    ensures a == b
  {
    assert forall k :: k in a.Keys <==> k in b.Keys;
    assert a.Keys == b.Keys;
    assert forall k :: k in a.Keys ==> a[k] == b[k];
  }

  lemma Overwrite<V>(m: map<int, V>, k: int, a: V, b: V)
    ensures m[k := a][k := b] == m[k := b]
  {
    SameIntMap(m[k := a][k := b], m[k := b]);
  }

  lemma {:induction false} BoundedCount(ids: set<int>, n: nat)
    requires forall k <- ids :: 0 <= k < n
    ensures |ids| <= n
  {
    if n == 0 {
      if ids != {} {
        var k := Pick(ids);
        assert false;
      }
    } else {
      BoundedCount(ids - {n - 1}, n - 1);
    }
  }

  lemma {:induction false} DistinctCount(s: seq<int>, ids: set<int>)
    requires forall i, j | 0 <= i < j < |s| :: s[i] != s[j]
    requires forall k :: k in s <==> k in ids
    ensures |s| == |ids|
  {
    if s == [] {
      if ids != {} {
        var k := Pick(ids);
        assert false;
      }
    } else {
      var n := |s| - 1;
      assert s[n] in s;
      forall k ensures k in s[..n] <==> k in ids - {s[n]} {
        if k in s && k != s[n] {
          var i :| 0 <= i < |s| && s[i] == k;
          assert s[..n][i] == k;
        }
      }
      DistinctCount(s[..n], ids - {s[n]});
    }
  }

  lemma {:induction false} DistinctWithin(s: seq<int>, t: seq<int>)
    requires forall i, j | 0 <= i < j < |s| :: s[i] != s[j]
    requires forall i | 0 <= i < |s| :: s[i] in t
    ensures |s| <= |t|
  {
    if s != [] {
      var n := |s| - 1;
      var at :| 0 <= at < |t| && t[at] == s[n];
      var rest := t[..at] + t[at + 1..];
      forall i | 0 <= i < n ensures s[i] in rest {
        var k :| 0 <= k < |t| && t[k] == s[i];
        assert rest[if k < at then k else k - 1] == s[i];
      }
      DistinctWithin(s[..n], rest);
    }
  }

  lemma SameRest<T>(a: multiset<T>, b: multiset<T>, x: T)
    requires a + multiset{x} == b + multiset{x}
    ensures a == b
  {
    assert a == (a + multiset{x}) - multiset{x};
    assert b == (b + multiset{x}) - multiset{x};
  }
}
