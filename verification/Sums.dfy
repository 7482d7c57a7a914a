// Finite sums over the values of a map.
module Sums {

  ghost function Sum(m: map<nat, int>): int
    decreases |m|
  {
    if m == map[] then 0
    else
      var k :| k in m;
      ShrinksBy(m, k);
      m[k] + Sum(m - {k})
  }

  lemma ShrinksBy(m: map<nat, int>, k: nat)
    requires k in m
    ensures |m - {k}| < |m|
  {
    assert (m - {k}).Keys == m.Keys - {k};
    assert |(m - {k}).Keys| == |m.Keys| - 1;
  }

  // The order of summation does not matter.
  lemma {:induction false} SumSplit(m: map<nat, int>, k: nat)
    requires k in m
    ensures Sum(m) == m[k] + Sum(m - {k})
    decreases |m|
  {
    var first :| first in m && Sum(m) == m[first] + Sum(m - {first});
    if first != k {
      ShrinksBy(m, first);
      ShrinksBy(m, k);
      SumSplit(m - {first}, k);
      SumSplit(m - {k}, first);
      assert m - {first} - {k} == m - {k} - {first};
    }
  }

  lemma SumInsert(m: map<nat, int>, k: nat, v: int)
    requires k !in m
    ensures Sum(m[k := v]) == Sum(m) + v
  {
    SumSplit(m[k := v], k);
    assert m[k := v] - {k} == m;
  }

  lemma SumUpdate(m: map<nat, int>, k: nat, v: int)
    requires k in m
    ensures Sum(m[k := v]) == Sum(m) - m[k] + v
  {
    SumSplit(m, k);
    SumSplit(m[k := v], k);
    assert m[k := v] - {k} == m - {k};
  }

  // One summand more, or one changed.
  lemma SumPut(m: map<nat, int>, k: nat, v: int)
    ensures Sum(m[k := v]) == Sum(m) - (if k in m then m[k] else 0) + v
  {
    if k in m {
      SumUpdate(m, k, v);
    } else {
      SumInsert(m, k, v);
    }
  }

  // c[k] = x * a[k] + y * b[k] everywhere.
  lemma {:induction false} SumLinear(a: map<nat, int>, b: map<nat, int>, c: map<nat, int>, x: int, y: int)
    requires a.Keys == b.Keys == c.Keys
    requires forall k :: k in c ==> c[k] == x * a[k] + y * b[k]
    ensures Sum(c) == x * Sum(a) + y * Sum(b)
    decreases |c|
  {
    if k :| k in c {
      ShrinksBy(c, k);
      SumSplit(a, k);
      SumSplit(b, k);
      SumSplit(c, k);
      SumLinear(a - {k}, b - {k}, c - {k}, x, y);
      Distribute(x, a[k], Sum(a - {k}));
      Distribute(y, b[k], Sum(b - {k}));
    } else {
      assert a == map[] && b == map[] && c == map[];
    }
  }

  lemma Distribute(x: int, p: int, q: int)
    ensures x * (p + q) == x * p + x * q
  {
  }

  lemma {:induction false} SumAtMost(a: map<nat, int>, b: map<nat, int>)
    requires a.Keys == b.Keys
    requires forall k :: k in a ==> a[k] <= b[k]
    ensures Sum(a) <= Sum(b)
    decreases |a|
  {
    if k :| k in a {
      ShrinksBy(a, k);
      SumSplit(a, k);
      SumSplit(b, k);
      SumAtMost(a - {k}, b - {k});
    } else {
      assert a == map[] && b == map[];
    }
  }

  // A sum of zeros and ones counts the ones.
  lemma {:induction false} SumCounts(m: map<nat, int>, ones: set<nat>)
    requires ones <= m.Keys
    requires forall k :: k in m ==> m[k] == if k in ones then 1 else 0
    ensures Sum(m) == |ones|
    decreases |m|
  {
    if k :| k in m {
      ShrinksBy(m, k);
      SumSplit(m, k);
      SumCounts(m - {k}, ones - {k});
      if k !in ones {
        assert ones - {k} == ones;
      }
    } else {
      assert m == map[] && ones == {};
    }
  }

  // Renaming the keys one to one changes nothing.
  lemma {:induction false} SumRename(a: map<nat, int>, b: map<nat, int>, f: map<nat, nat>)
    requires f.Keys == a.Keys
    requires forall k :: k in a ==> f[k] in b && b[f[k]] == a[k]
    requires forall k, l :: k in a && l in a && f[k] == f[l] ==> k == l
    requires forall j :: j in b ==> exists k :: k in f && f[k] == j
    ensures Sum(a) == Sum(b)
    decreases |a|
  {
    if k :| k in a {
      ShrinksBy(a, k);
      SumSplit(a, k);
      SumSplit(b, f[k]);
      forall j | j in b - {f[k]}
        ensures exists l :: l in f - {k} && (f - {k})[l] == j
      {
        var l :| l in f && f[l] == j;
        assert l in f - {k} && (f - {k})[l] == j;
      }
      SumRename(a - {k}, b - {f[k]}, f - {k});
    } else {
      assert a == map[];
      assert b == map[];
    }
  }
}
