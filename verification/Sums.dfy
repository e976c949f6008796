/** Sums of reals over finite maps (SQL's SUM, Python's sum over a dict) and over sequences. */
module Sums {

  ghost function Total<K>(m: map<K, real>): real
    decreases |m|
  {
    if m == map[] then 0.0
    else
      var k :| k in m;
      assert |m - {k}| < |m| by { Shrinks(m, k); }
      m[k] + Total(m - {k})
  }

  lemma Shrinks<K, V>(m: map<K, V>, k: K)
    requires k in m
    ensures |m - {k}| == |m| - 1
  {
    assert (m - {k}).Keys == m.Keys - {k};
    assert |(m - {k}).Keys| == |m.Keys| - 1;
  }

  lemma {:induction false} TotalRemove<K>(m: map<K, real>, k: K)
    requires k in m
    ensures Total(m) == m[k] + Total(m - {k})
    decreases |m|
  {
    var c :| c in m && Total(m) == m[c] + Total(m - {c});
    if c != k {
      Shrinks(m, c);
      Shrinks(m, k);
      TotalRemove(m - {c}, k);
      TotalRemove(m - {k}, c);
      assert m - {c} - {k} == m - {k} - {c};
    }
  }

  /** Writing one entry replaces its contribution and nothing else. */
  lemma TotalUpdate<K>(m: map<K, real>, k: K, v: real)
    ensures Total(m[k := v]) == Total(m) - (if k in m then m[k] else 0.0) + v
  {
    TotalRemove(m[k := v], k);
    if k in m {
      TotalRemove(m, k);
      assert m[k := v] - {k} == m - {k};
    } else {
      assert m[k := v] - {k} == m;
    }
  }

  lemma {:induction false} TotalNonNegative<K>(m: map<K, real>)
    requires forall k | k in m :: m[k] >= 0.0
    ensures Total(m) >= 0.0
    ensures forall k | k in m :: m[k] <= Total(m)
    decreases |m|
  {
    if m != map[] {
      forall k | k in m ensures 0.0 <= m[k] <= Total(m) {
        Shrinks(m, k);
        TotalNonNegative(m - {k});
        TotalRemove(m, k);
      }
      var k :| k in m;
      assert m[k] <= Total(m);
    }
  }

  /** Dropping entries cannot raise a sum of non-negative terms. */
  lemma {:induction false} TotalSubmap<K>(small: map<K, real>, big: map<K, real>)
    requires forall k | k in small :: k in big && small[k] <= big[k]
    requires forall k | k in big :: big[k] >= 0.0
    ensures Total(small) <= Total(big)
    decreases |small|
  {
    if small == map[] {
      TotalNonNegative(big);
    } else {
      var k :| k in small;
      Shrinks(small, k);
      TotalRemove(small, k);
      TotalRemove(big, k);
      TotalSubmap(small - {k}, big - {k});
    }
  }

  /** Adds a map up entry by entry, in whatever order the entries come. */
  method AddUp<K(==)>(m: map<K, real>) returns (t: real)
    ensures t == Total(m)
  {
    var rest := m;
    t := 0.0;
    while rest != map[]
      invariant t + Total(rest) == Total(m)
      decreases |rest|
    {
      var k :| k in rest;
      TotalRemove(rest, k);
      Shrinks(rest, k);
      t := t + rest[k];
      rest := rest - {k};
    }
  }

  function SumSeq(s: seq<real>): real {
    if s == [] then 0.0 else SumSeq(s[..|s| - 1]) + s[|s| - 1]
  }

  lemma SumSeqAppend(s: seq<real>, x: real)
    ensures SumSeq(s + [x]) == SumSeq(s) + x
  {
    assert (s + [x])[..|s|] == s;
  }

  lemma {:induction false} SumSeqConcat(s: seq<real>, t: seq<real>)
    ensures SumSeq(s + t) == SumSeq(s) + SumSeq(t)
  {
    if t == [] {
      assert s + t == s;
    } else {
      var last := |t| - 1;
      assert s + t == (s + t[..last]) + [t[last]];
      SumSeqAppend(s + t[..last], t[last]);
      SumSeqConcat(s, t[..last]);
    }
  }

  /** Adds a sequence up from the left. */
  method AddUpSeq(s: seq<real>) returns (t: real)
    ensures t == SumSeq(s)
  {
    t := 0.0;
    for n := 0 to |s|
      invariant t == SumSeq(s[..n])
    {
      assert s[..n + 1][..n] == s[..n];
      t := t + s[n];
    }
    assert s[..|s|] == s;
  }
}
