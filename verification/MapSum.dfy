/** The sum of a finite map's values, and how it moves when one entry does. */
module MapSum {

  ghost function Total(m: map<nat, int>): int {
    if m == map[] then 0
    else
      var k :| k in m;
      m[k] + Total(m - {k})
  }

  lemma {:induction false} TotalSplit(m: map<nat, int>, k: nat)
    requires k in m
    ensures Total(m) == m[k] + Total(m - {k})
    decreases |m|
  {
    var j :| j in m && Total(m) == m[j] + Total(m - {j});
    if j == k {
    } else {
      TotalSplit(m - {j}, k);
      TotalSplit(m - {k}, j);
      assert m - {j} - {k} == m - {k} - {j};
    }
  }

  lemma TotalPut(m: map<nat, int>, k: nat, v: int)
    ensures Total(m[k := v]) == Total(m) + v - (if k in m then m[k] else 0)
  {
    var n := m[k := v];
    TotalSplit(n, k);
    if k in m {
      TotalSplit(m, k);
      assert n - {k} == m - {k};
    } else {
      assert n - {k} == m;
    }
  }

  lemma {:induction false} TotalZero(m: map<nat, int>)
    requires forall k | k in m :: m[k] == 0
    ensures Total(m) == 0
    decreases |m|
  {
    if m == map[] {
    } else {
      var k :| k in m;
      TotalSplit(m, k);
      TotalZero(m - {k});
    }
  }

  lemma {:induction false} TotalNonNegative(m: map<nat, int>)
    requires forall k | k in m :: 0 <= m[k]
    ensures 0 <= Total(m)
    ensures forall k | k in m :: m[k] <= Total(m)
    decreases |m|
  {
    if m == map[] {
    } else {
      var k :| k in m;
      TotalSplit(m, k);
      TotalNonNegative(m - {k});
      forall j | j in m ensures m[j] <= Total(m) {
        if j != k { assert j in m - {k}; }
      }
    }
  }

  /** Entries of value zero may be dropped. */
  lemma {:induction false} TotalDrop(m: map<nat, int>, gone: set<nat>)
    requires forall k | k in m && k in gone :: m[k] == 0
    ensures Total(m - gone) == Total(m)
    decreases |m|
  {
    if k :| k in m && k in gone {
      TotalSplit(m, k);
      TotalDrop(m - {k}, gone);
      assert m - {k} - gone == m - gone;
    } else {
      assert m - gone == m;
    }
  }

  /** A map that is pointwise no larger than a non-negative one sums to no more. */
  lemma {:induction false} TotalWithin(small: map<nat, int>, big: map<nat, int>)
    requires forall k | k in big :: 0 <= big[k]
    requires forall k | k in small :: k in big && small[k] <= big[k]
    ensures Total(small) <= Total(big)
    decreases |big|
  {
    if big == map[] {
      assert small == map[];
    } else {
      var k :| k in big;
      TotalSplit(big, k);
      if k in small { TotalSplit(small, k); }
      assert k !in small ==> small - {k} == small;
      TotalWithin(small - {k}, big - {k});
    }
  }
}
