/** Holm's step-down adjustment: the ranked loop, against a definition without ranks. */
module Holm {
  import opened Common

  datatype Adjusted = Adjusted(index: nat, raw: real, adjusted: real, reject: bool)

  /** enumerate's pairs. */
  datatype Ranked = Ranked(index: nat, p: real)

  predicate Probabilities(values: seq<real>) {
    forall i | 0 <= i < |values| :: 0.0 <= values[i] <= 1.0
  }

  /** The sort key: p-value, then index. */
  predicate Precedes(a: Ranked, b: Ranked) {
    a.p < b.p || (a.p == b.p && a.index < b.index)
  }

  predicate Sorted(r: seq<Ranked>) {
    forall i, j | 0 <= i < j < |r| :: Precedes(r[i], r[j])
  }

  /** The first n values, each once, in order. */
  ghost predicate Ranks(values: seq<real>, r: seq<Ranked>, n: nat) {
    && n <= |values| && |r| == n && Sorted(r)
    && (forall k | 0 <= k < |r| :: r[k].index < n && r[k].p == values[r[k].index])
    && (forall i: nat | i < n :: Ranked(i, values[i]) in r)
  }

  method Insert(r: seq<Ranked>, x: Ranked) returns (s: seq<Ranked>)
    requires Sorted(r) && forall k | 0 <= k < |r| :: r[k].index < x.index
    ensures Sorted(s) && |s| == |r| + 1 && forall y :: y in s <==> y in r || y == x
  {
    var i := |r|;
    while i > 0 && Precedes(x, r[i - 1])
      invariant 0 <= i <= |r|
      invariant forall k | i <= k < |r| :: Precedes(x, r[k])
    {
      i := i - 1;
    }
    s := r[..i] + [x] + r[i..];
    assert forall y :: y in r <==> y in r[..i] || y in r[i..] by {
      assert r == r[..i] + r[i..];
    }
    assert i > 0 ==> Precedes(r[i - 1], x);
  }

  /** sorted(enumerate(values), key=...) */
  method Rank(values: seq<real>) returns (r: seq<Ranked>)
    ensures Ranks(values, r, |values|)
  {
    r := [];
    for n := 0 to |values|
      invariant Ranks(values, r, n)
    {
      ghost var before := r;
      r := Insert(r, Ranked(n, values[n]));
      forall k | 0 <= k < |r| ensures r[k].index < n + 1 && r[k].p == values[r[k].index] {
        assert r[k] in r;
      }
    }
  }

  // ----- The definition without ranks -----

  /** How many values lie strictly below u. */
  ghost function Below(values: seq<real>, u: real): nat {
    |BelowSet(values, u)|
  }

  ghost function BelowSet(values: seq<real>, u: real): set<nat> {
    set i: nat | i < |values| && values[i] < u
  }

  function Scaled(count: int, p: real): real { count as real * p }

  /** The factor Holm applies to a value: the hypotheses not strictly more significant. */
  ghost function Level(values: seq<real>, u: real): real {
    Min(1.0, Scaled(|values| - Below(values, u), u))
  }

  /** a is the greatest level among the values up to v. */
  ghost predicate IsHolm(values: seq<real>, v: real, a: real) {
    && (exists k | 0 <= k < |values| :: values[k] <= v && a == Level(values, values[k]))
    && (forall k | 0 <= k < |values| && values[k] <= v :: Level(values, values[k]) <= a)
  }

  /** The running maximum over the first n ranks. */
  function Running(r: seq<Ranked>, n: nat): real
    requires n <= |r|
  {
    if n == 0 then 0.0 else Max(Running(r, n - 1), RankLevel(r, n - 1))
  }

  function RankLevel(r: seq<Ranked>, k: nat): real
    requires k < |r|
  {
    Min(1.0, Scaled(|r| - k, r[k].p))
  }

  function Indices(r: seq<Ranked>, n: nat): set<nat>
    requires n <= |r|
  {
    set k | 0 <= k < n :: r[k].index
  }

  lemma {:induction false} IndicesCount(r: seq<Ranked>, n: nat)
    requires n <= |r| && forall i, j | 0 <= i < j < |r| :: r[i].index != r[j].index
    ensures |Indices(r, n)| == n
  {
    if n > 0 {
      IndicesCount(r, n - 1);
      assert Indices(r, n) == Indices(r, n - 1) + {r[n - 1].index};
    }
  }

  lemma RankedAreDistinct(values: seq<real>, r: seq<Ranked>)
    requires Ranks(values, r, |values|)
    ensures |r| == |values| && forall i, j | 0 <= i < j < |r| :: r[i].index != r[j].index
  {
    forall i, j | 0 <= i < j < |r| ensures r[i].index != r[j].index {
      assert Precedes(r[i], r[j]);
    }
  }

  lemma RankOrder(r: seq<Ranked>, j: nat, k: nat)
    requires Sorted(r) && j < |r| && k < |r|
    ensures j <= k ==> r[j].p <= r[k].p
    ensures r[j].p < r[k].p ==> j < k
  {
    assert j < k ==> Precedes(r[j], r[k]);
    assert k < j ==> Precedes(r[k], r[j]);
  }

  lemma RankOf(values: seq<real>, r: seq<Ranked>, i: nat) returns (j: nat)
    requires Ranks(values, r, |values|) && i < |values|
    ensures j < |r| && r[j].index == i && r[j].p == values[i]
  {
    assert Ranked(i, values[i]) in r;
    j :| 0 <= j < |r| && r[j] == Ranked(i, values[i]);
  }

  /** At rank k, at most k values lie below; at the first of a run of ties, exactly k. */
  lemma RankCounts(values: seq<real>, r: seq<Ranked>, k: nat)
    requires Ranks(values, r, |values|) && k < |r|
    ensures Below(values, r[k].p) <= k
    ensures (k == 0 || r[k - 1].p < r[k].p) ==> Below(values, r[k].p) == k
  {
    RankedAreDistinct(values, r);
    IndicesCount(r, k);
    forall i | i in BelowSet(values, r[k].p) ensures i in Indices(r, k) {
      var j := RankOf(values, r, i);
      RankOrder(r, j, k);
    }
    SubsetCount(BelowSet(values, r[k].p), Indices(r, k));
    if k == 0 || r[k - 1].p < r[k].p {
      forall i | i in Indices(r, k) ensures i in BelowSet(values, r[k].p) {
        var j :| 0 <= j < k && r[j].index == i;
        RankOrder(r, j, k - 1);
      }
      assert Indices(r, k) == BelowSet(values, r[k].p);
    }
  }

  lemma ScaledGrows(a: int, b: int, p: real)
    requires a <= b && p >= 0.0
    ensures Scaled(a, p) <= Scaled(b, p)
  {
  }

  lemma {:induction false} FirstOfTies(values: seq<real>, r: seq<Ranked>, k: nat) returns (f: nat)
    requires Ranks(values, r, |values|) && k < |r|
    ensures f <= k && r[f].p == r[k].p && (f == 0 || r[f - 1].p < r[f].p)
  {
    f := k;
    if k > 0 {
      RankOrder(r, k - 1, k);
      if r[k - 1].p == r[k].p {
        f := FirstOfTies(values, r, k - 1);
      }
    }
  }

  /** A rank's level never exceeds its value's level, and the first rank of its ties attains that. */
  lemma RankLevels(values: seq<real>, r: seq<Ranked>, k: nat) returns (f: nat)
    requires Ranks(values, r, |values|) && Probabilities(values) && k < |r|
    ensures RankLevel(r, k) <= Level(values, r[k].p)
    ensures f <= k && r[f].p == r[k].p && RankLevel(r, f) == Level(values, r[k].p) && (f == 0 || r[f - 1].p < r[f].p)
  {
    f := FirstOfTies(values, r, k);
    RankCounts(values, r, k);
    RankCounts(values, r, f);
    ScaledGrows(|r| - k, |values| - Below(values, r[k].p), r[k].p);
  }

  lemma {:induction false} RunningIsMax(r: seq<Ranked>, n: nat)
    requires n <= |r| && forall k | 0 <= k < |r| :: r[k].p >= 0.0
    ensures forall k: nat | k < n :: RankLevel(r, k) <= Running(r, n)
    ensures n > 0 ==> exists k: nat :: k < n && RankLevel(r, k) == Running(r, n)
    ensures Running(r, n) >= 0.0
  {
    if n > 0 {
      RunningIsMax(r, n - 1);
      ScaledGrows(0, |r| - (n - 1), r[n - 1].p);
      if n > 1 && Running(r, n) == Running(r, n - 1) {
        var k: nat :| k < n - 1 && RankLevel(r, k) == Running(r, n - 1);
        assert RankLevel(r, k) == Running(r, n);
      } else {
        assert RankLevel(r, n - 1) == Running(r, n);
      }
    }
  }

  /** A value up to the one at rank k attains its level at some rank up to k. */
  lemma LevelIsRanked(values: seq<real>, r: seq<Ranked>, k: nat, i: nat) returns (f: nat)
    requires Ranks(values, r, |values|) && Probabilities(values) && k < |r| && i < |values| && values[i] <= r[k].p
    ensures f <= k && RankLevel(r, f) == Level(values, values[i])
  {
    var j := RankOf(values, r, i);
    f := RankLevels(values, r, j);
    if f > 0 {
      RankOrder(r, f - 1, k);
      RankOrder(r, k, f - 1);
    }
  }

  /** The loop's running maximum at a rank is the rank-free adjustment of its value. */
  lemma RunningIsHolm(values: seq<real>, r: seq<Ranked>, k: nat)
    requires Ranks(values, r, |values|) && Probabilities(values) && k < |r|
    ensures IsHolm(values, r[k].p, Running(r, k + 1))
  {
    RunningIsMax(r, k + 1);
    forall i | 0 <= i < |values| && values[i] <= r[k].p ensures Level(values, values[i]) <= Running(r, k + 1) {
      var f := LevelIsRanked(values, r, k, i);
    }
    var q: nat :| q < k + 1 && RankLevel(r, q) == Running(r, k + 1);
    var f := RankLevels(values, r, q);
    RankOrder(r, q, k);
    assert values[r[q].index] <= r[k].p && Running(r, k + 1) == Level(values, values[r[q].index]);
  }

  // ----- holm_bonferroni -----

  /** The loop over the ranks. */
  method Adjust(values: seq<real>, ranked: seq<Ranked>) returns (adjusted: map<nat, real>)
    requires Ranks(values, ranked, |values|) && Probabilities(values)
    ensures forall i: nat | i < |values| :: i in adjusted && IsHolm(values, values[i], adjusted[i])
  {
    hide IsHolm; hide Ranks;
    RankedAreDistinct(values, ranked);
    adjusted := map[];
    var running, count := 0.0, |values|;
    for rank := 0 to |ranked|
      invariant running == Running(ranked, rank)
      invariant forall k: nat | k < rank ::
                ranked[k].index in adjusted && adjusted[ranked[k].index] == Running(ranked, k + 1)
    {
      var value := Min(1.0, Scaled(count - rank, ranked[rank].p));
      running := Max(running, value);
      adjusted := adjusted[ranked[rank].index := running];
    }
    AllAdjusted(values, ranked, adjusted);
  }

  method HolmBonferroni(values: seq<real>, alpha: real) returns (r: Outcome<seq<Adjusted>>)
    ensures r.Ok? <==> 0.0 < alpha < 1.0 && forall i | 0 <= i < |values| :: 0.0 <= values[i] <= 1.0
    ensures r.Raised? ==> r.error == ValueError
    ensures r.Ok? ==> |r.value| == |values| && forall i: nat | i < |values| ::
              && r.value[i].index == i && r.value[i].raw == values[i]
              && IsHolm(values, values[i], r.value[i].adjusted)
              && (r.value[i].reject <==> r.value[i].adjusted < alpha)
  {
    hide IsHolm; hide Ranks;
    if !(0.0 < alpha < 1.0) { return Raised(ValueError); }
    if exists i | 0 <= i < |values| :: !(0.0 <= values[i] <= 1.0) { return Raised(ValueError); }
    var ranked := Rank(values);
    var adjusted := Adjust(values, ranked);
    r := Ok(seq(|values|, i requires 0 <= i < |values| && i in adjusted =>
                  Adjusted(i, values[i], adjusted[i], adjusted[i] < alpha)));
  }

  lemma AllAdjusted(values: seq<real>, ranked: seq<Ranked>, adjusted: map<nat, real>)
    requires Ranks(values, ranked, |values|) && Probabilities(values)
    requires forall k: nat | k < |ranked| ::
             ranked[k].index in adjusted && adjusted[ranked[k].index] == Running(ranked, k + 1)
    ensures forall i: nat | i < |values| :: i in adjusted && IsHolm(values, values[i], adjusted[i])
  {
    forall i: nat | i < |values| ensures i in adjusted && IsHolm(values, values[i], adjusted[i]) {
      var k := RankOf(values, ranked, i);
      RunningIsHolm(values, ranked, k);
    }
  }

  // ----- What the adjustment guarantees -----

  /** The adjustment of a value is determined by the values alone. */
  lemma HolmIsUnique(values: seq<real>, v: real, a: real, b: real)
    requires IsHolm(values, v, a) && IsHolm(values, v, b)
    ensures a == b
  {
  }

  /** Monotone: a larger p-value never gets a smaller adjustment; so ties get equal ones. */
  lemma HolmIsMonotone(values: seq<real>, v: real, w: real, a: real, b: real)
    requires IsHolm(values, v, a) && IsHolm(values, w, b) && v <= w
    ensures a <= b
  {
    var k :| 0 <= k < |values| && values[k] <= v && a == Level(values, values[k]);
    assert Level(values, values[k]) <= b;
  }

  ghost function UpTo(n: nat): (s: set<nat>)
    ensures |s| == n && forall j: nat :: j in s <==> j < n
  {
    if n == 0 then {} else UpTo(n - 1) + {n - 1}
  }

  lemma BelowIsFew(values: seq<real>, i: nat)
    requires i < |values|
    ensures Below(values, values[i]) < |values|
  {
    SubsetCount(BelowSet(values, values[i]), UpTo(|values|) - {i});
  }

  /** An adjustment is a probability, and never below the raw p-value. */
  lemma HolmIsConservative(values: seq<real>, i: nat, a: real)
    requires Probabilities(values) && i < |values| && IsHolm(values, values[i], a)
    ensures values[i] <= a <= 1.0
  {
    BelowIsFew(values, i);
    ScaledGrows(1, |values| - Below(values, values[i]), values[i]);
    assert Scaled(1, values[i]) == values[i];
    assert Level(values, values[i]) <= a;
  }

  /** A hypothesis is rejected exactly when it, and every more significant one, is below alpha after
      scaling by the number of hypotheses not strictly more significant. */
  lemma RejectedIff(values: seq<real>, v: real, a: real, alpha: real)
    requires IsHolm(values, v, a) && 0.0 < alpha < 1.0
    ensures a < alpha
            <==> forall k | 0 <= k < |values| && values[k] <= v ::
              Scaled(|values| - Below(values, values[k]), values[k]) < alpha
  {
    forall k | 0 <= k < |values| && values[k] <= v
      ensures a < alpha ==> Scaled(|values| - Below(values, values[k]), values[k]) < alpha
    {
      assert Level(values, values[k]) <= a;
    }
    var k :| 0 <= k < |values| && values[k] <= v && a == Level(values, values[k]);
  }

  /** Step-down: in sorted order, a hypothesis is rejected exactly when each sorted p-value up to and
      including its own, scaled by the hypotheses from it on, is below alpha. */
  lemma StepDownIff(values: seq<real>, r: seq<Ranked>, j: nat, a: real, alpha: real)
    requires Ranks(values, r, |values|) && Probabilities(values) && j < |r| && 0.0 < alpha < 1.0
             && IsHolm(values, r[j].p, a)
    ensures a < alpha <==> forall q: nat | q <= j :: Scaled(|r| - q, r[q].p) < alpha
  {
    RunningIsHolm(values, r, j);
    HolmIsUnique(values, r[j].p, a, Running(r, j + 1));
    RunningIsMax(r, j + 1);
    hide IsHolm; hide Ranks; hide Running; hide Probabilities;
    assert forall q: nat | q < j + 1 :: RankLevel(r, q) <= a;
    var q: nat :| q < j + 1 && RankLevel(r, q) == a;
    if a < alpha {
      forall q: nat | q <= j ensures Scaled(|r| - q, r[q].p) < alpha {
        assert RankLevel(r, q) <= a;
      }
    }
  }

  /** `to` carries position i of `values` to position to[i] of `other`, and `back` carries it back. */
  ghost predicate Permutes(values: seq<real>, other: seq<real>, to: seq<nat>, back: seq<nat>) {
    && |values| == |other| == |to| == |back|
    && (forall i | 0 <= i < |to| :: to[i] < |back| && back[to[i]] == i && other[to[i]] == values[i])
    && (forall k | 0 <= k < |back| :: back[k] < |to| && to[back[k]] == k)
  }

  /** Reordering the hypotheses reorders the adjustments and changes none: an adjustment depends on
      the value and on how often each value occurs, not on positions. */
  lemma HolmIsPositionFree(values: seq<real>, other: seq<real>, to: seq<nat>, back: seq<nat>, v: real, a: real)
    requires Permutes(values, other, to, back) && IsHolm(values, v, a)
    ensures IsHolm(other, v, a)
  {
    hide Below;
    var k :| 0 <= k < |values| && values[k] <= v && a == Level(values, values[k]);
    PermutingKeepsBelow(values, other, to, back, values[k]);
    assert other[to[k]] == values[k];
    assert a == Level(other, other[to[k]]);
    forall i | 0 <= i < |other| && other[i] <= v ensures Level(other, other[i]) <= a {
      PermutingKeepsBelow(values, other, to, back, other[i]);
      assert values[back[i]] == other[i];
      assert Level(values, values[back[i]]) <= a;
    }
  }

  lemma PermutingKeepsBelow(values: seq<real>, other: seq<real>, to: seq<nat>, back: seq<nat>, u: real)
    requires Permutes(values, other, to, back)
    ensures Below(values, u) == Below(other, u)
  {
    var a, image := BelowSet(values, u), Image(BelowSet(values, u), to);
    ImageCount(a, to, back);
    forall k | k in BelowSet(other, u) ensures k in image {
      assert back[k] in a && to[back[k]] == k;
    }
    assert image == BelowSet(other, u);
  }

  ghost function Image(a: set<nat>, to: seq<nat>): set<nat> {
    set i | i in a && i < |to| :: to[i]
  }

  lemma {:induction false} ImageCount(a: set<nat>, to: seq<nat>, back: seq<nat>)
    requires |to| == |back| && forall i | i in a :: i < |to| && to[i] < |back| && back[to[i]] == i
    ensures |Image(a, to)| == |a|
  {
    if a != {} {
      var x :| x in a;
      ImageCount(a - {x}, to, back);
      assert Image(a, to) == Image(a - {x}, to) + {to[x]};
      assert to[x] !in Image(a - {x}, to);
    }
  }
}
