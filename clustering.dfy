/**
  Cassandra returns the rows of one partition ordered by clustering key. For a text key that is the
  order of the key's UTF-8 bytes, which is the lexicographic order of its Unicode scalar values.
*/
module Clustering {

  /** `a` sorts strictly before `b`. */
  predicate LexLess(a: string, b: string)
    decreases |a|
  {
    |b| > 0 && (|a| == 0 || a[0] < b[0] || (a[0] == b[0] && LexLess(a[1..], b[1..])))
  }

  lemma {:induction false} LexLessIrreflexive(a: string)
    ensures !LexLess(a, a)
    decreases |a|
  {
    if |a| > 0 {
      LexLessIrreflexive(a[1..]);
    }
  }

  lemma {:induction false} LexLessTransitive(a: string, b: string, c: string)
    requires LexLess(a, b) && LexLess(b, c)
    ensures LexLess(a, c)
    decreases |a|
  {
    if |a| > 0 && a[0] == b[0] && b[0] == c[0] {
      LexLessTransitive(a[1..], b[1..], c[1..]);
    }
  }

  lemma {:induction false} LexLessTotal(a: string, b: string)
    requires a != b
    ensures LexLess(a, b) || LexLess(b, a)
    decreases |a|
  {
    if |a| > 0 && |b| > 0 && a[0] == b[0] {
      assert a == [a[0]] + a[1..] && b == [b[0]] + b[1..];
      LexLessTotal(a[1..], b[1..]);
    }
  }

  lemma LexLessAsymmetric(a: string, b: string)
    requires LexLess(a, b)
    ensures !LexLess(b, a)
  {
  }

  /** Every key sorts strictly before every later one, so no key repeats. */
  predicate StrictlySorted(s: seq<string>) {
    forall i, j :: 0 <= i < j < |s| ==> LexLess(s[i], s[j])
  }

  /** `m` is the first of the keys `ks`. */
  predicate IsLeast(m: string, ks: set<string>) {
    m in ks && forall y :: y in ks && y != m ==> LexLess(m, y)
  }

  lemma {:induction false} LeastExists(ks: set<string>)
    requires ks != {}
    ensures exists m :: IsLeast(m, ks)
  {
    var x :| x in ks;
    if ks == {x} {
      assert IsLeast(x, ks);
    } else {
      LeastExists(ks - {x});
      var m :| IsLeast(m, ks - {x});
      if LexLess(x, m) {
        forall y | y in ks && y != x
          ensures LexLess(x, y)
        {
          if y != m {
            LexLessTransitive(x, m, y);
          }
        }
        assert IsLeast(x, ks);
      } else {
        LexLessTotal(x, m);
        assert IsLeast(m, ks);
      }
    }
  }

  /** The keys `ks` in clustering order. */
  ghost function ClusteringOrder(ks: set<string>): (r: seq<string>)
    ensures StrictlySorted(r)
    ensures |r| == |ks|
    ensures forall k :: k in r <==> k in ks
  {
    if ks == {} then []
    else
      LeastExists(ks);
      var m :| IsLeast(m, ks);
      [m] + ClusteringOrder(ks - {m})
  }

  /** A strictly sorted sequence holding exactly the keys `ks` has one entry per key. */
  lemma {:induction false} SortedHasSize(s: seq<string>, ks: set<string>)
    requires StrictlySorted(s)
    requires forall k :: k in s <==> k in ks
    ensures |s| == |ks|
    decreases |s|
  {
    if s != [] {
      assert s[0] in ks;
      forall k | k in s[1..]
        ensures k != s[0]
      {
        var j :| 0 <= j < |s[1..]| && s[1..][j] == k;
        assert LexLess(s[0], s[j + 1]);
        LexLessIrreflexive(s[0]);
      }
      assert forall k :: k in s[1..] <==> k in ks - {s[0]} by {
        assert s == [s[0]] + s[1..];
      }
      SortedHasSize(s[1..], ks - {s[0]});
    }
  }

  /** A strictly sorted sequence is determined by its elements. */
  lemma {:induction false} SortedUnique(a: seq<string>, b: seq<string>)
    requires StrictlySorted(a) && StrictlySorted(b)
    requires |a| == |b|
    requires forall k :: k in a <==> k in b
    ensures a == b
    decreases |a|
  {
    if a != [] {
      assert a[0] in b;
      if a[0] != b[0] {
        assert b[0] in a;
        var i :| 0 <= i < |a| && a[i] == b[0];
        var j :| 0 <= j < |b| && b[j] == a[0];
        assert i > 0 && j > 0;
        LexLessAsymmetric(a[0], b[0]);
        assert false;
      }
      forall k
        ensures k in a[1..] <==> k in b[1..]
      {
        if k in a[1..] {
          var i :| 1 <= i < |a| && a[i] == k;
          LexLessIrreflexive(a[0]);
          assert k in b && k != b[0];
        }
        if k in b[1..] {
          var j :| 1 <= j < |b| && b[j] == k;
          LexLessIrreflexive(b[0]);
          assert k in a && k != a[0];
        }
      }
      SortedUnique(a[1..], b[1..]);
      assert a == [a[0]] + a[1..] && b == [b[0]] + b[1..];
    }
  }

  /** Lists the keys of a partition in clustering order, taking the least remaining key each time. */
  method SortKeys(ks: set<string>) returns (r: seq<string>)
    ensures r == ClusteringOrder(ks)
  {
    r := [];
    var rest := ks;
    while rest != {}
      invariant StrictlySorted(r)
      invariant |r| + |rest| == |ks|
      invariant forall k :: k in ks <==> k in r || k in rest
      invariant forall k :: k in r ==> k !in rest
      invariant forall k, y :: k in r && y in rest ==> LexLess(k, y)
      decreases rest
    {
      LeastExists(rest);
      var m :| IsLeast(m, rest);
      r := r + [m];
      rest := rest - {m};
    }
    SortedUnique(r, ClusteringOrder(ks));
  }
}
