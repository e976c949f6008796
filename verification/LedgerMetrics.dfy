/** One-pass metrics over completed positions: counts, equity, drawdown, losing streaks and lanes. */
module LedgerMetrics {
  import opened Common
  import opened Sums
  import opened PositionLedger

  datatype LaneReport = LaneReport(positions: nat, wins: nat, losses: nat, pnl: real, streak: nat)

  datatype Metrics = Metrics(equity: seq<real>, pnl: real, wins: nat, losses: nat, flats: nat, grossWin: real,
                             grossLoss: real, streak: nat, drawdown: real, lanes: map<string, LaneReport>)

  predicate Win(p: Position) { p.net > EPS }

  predicate Loss(p: Position) { p.net < -EPS }

  predicate Flat(p: Position) { Abs(p.net) <= EPS }

  // ----- Sums -----

  /** What the positions weigh together: their profit, or how many of them have a property. */
  function Weight(ps: seq<Position>, f: Position -> real): real {
    if ps == [] then 0.0 else Weight(ps[..|ps| - 1], f) + f(ps[|ps| - 1])
  }

  function Net(p: Position): real { p.net }

  function Pnl(ps: seq<Position>): real { Weight(ps, Net) }

  function Keep(ps: seq<Position>, keep: Position -> bool): seq<Position> {
    if ps == [] then []
    else Keep(ps[..|ps| - 1], keep) + (if keep(ps[|ps| - 1]) then [ps[|ps| - 1]] else [])
  }

  function InLane(ps: seq<Position>, lane: string): seq<Position> { Keep(ps, (p: Position) => p.lane == lane) }

  function LanesIn(ps: seq<Position>): set<string> { set p | p in ps :: p.lane }

  lemma WeightAppend(ps: seq<Position>, p: Position, f: Position -> real)
    ensures Weight(ps + [p], f) == Weight(ps, f) + f(p)
  {
    assert (ps + [p])[..|ps|] == ps;
  }

  // ----- Equity and drawdown -----

  /** The balance at the start and after each position. */
  ghost predicate IsEquity(initial: real, ps: seq<Position>, equity: seq<real>) {
    && |equity| == |ps| + 1 && equity[0] == initial
    && forall k | 1 <= k < |equity| :: equity[k] == equity[k - 1] + ps[k - 1].net
  }

  ghost predicate IsPeak(equity: seq<real>, peak: real) {
    && (forall i | 0 <= i < |equity| :: equity[i] <= peak)
    && exists i :: 0 <= i < |equity| && equity[i] == peak
  }

  /** The largest fall from any balance to the same or a later one. */
  ghost predicate IsDrawdown(equity: seq<real>, drawdown: real) {
    && (forall i, j | 0 <= i <= j < |equity| :: equity[i] - equity[j] <= drawdown)
    && exists i, j :: 0 <= i <= j < |equity| && equity[i] - equity[j] == drawdown
  }

  /** The running balance, peak and drawdown. */
  method Drawdown(initial: real, ps: seq<Position>) returns (equity: seq<real>, drawdown: real)
    ensures IsEquity(initial, ps, equity) && IsDrawdown(equity, drawdown)
  {
    hide IsEquity; hide IsPeak; hide IsDrawdown;
    equity, drawdown := [initial], 0.0;
    var balance, peak := initial, initial;
    EquityStarts(initial, ps);
    for n := 0 to |ps|
      invariant IsEquity(initial, ps[..n], equity) && |equity| == n + 1 && balance == equity[n]
      invariant IsPeak(equity, peak) && IsDrawdown(equity, drawdown)
    {
      EquityGrows(initial, ps, n, equity);
      balance := balance + ps[n].net;
      DrawdownGrows(equity, balance, peak, drawdown);
      peak := Max(peak, balance);
      drawdown := Max(drawdown, peak - balance);
      equity := equity + [balance];
    }
    assert ps[..|ps|] == ps;
  }

  lemma EquityStarts(initial: real, ps: seq<Position>)
    ensures IsEquity(initial, ps[..0], [initial]) && IsPeak([initial], initial) && IsDrawdown([initial], 0.0)
  {
    assert [initial][0] == initial && [initial][0] - [initial][0] == 0.0;
  }

  lemma EquityGrows(initial: real, ps: seq<Position>, n: nat, equity: seq<real>)
    requires n < |ps| && IsEquity(initial, ps[..n], equity)
    ensures IsEquity(initial, ps[..n + 1], equity + [equity[n] + ps[n].net])
  {
  }

  lemma PeakGrows(equity: seq<real>, balance: real, peak: real)
    requires IsPeak(equity, peak)
    ensures IsPeak(equity + [balance], Max(peak, balance))
  {
    var after := equity + [balance];
    var i :| 0 <= i < |equity| && equity[i] == peak;
    assert after[i] == peak && after[|equity|] == balance;
  }

  lemma DrawdownGrows(equity: seq<real>, balance: real, peak: real, drawdown: real)
    requires IsPeak(equity, peak) && IsDrawdown(equity, drawdown)
    ensures IsPeak(equity + [balance], Max(peak, balance))
    ensures IsDrawdown(equity + [balance], Max(drawdown, Max(peak, balance) - balance))
  {
    PeakGrows(equity, balance, peak);
    var after, top := equity + [balance], Max(peak, balance);
    var i, j :| 0 <= i <= j < |equity| && equity[i] - equity[j] == drawdown;
    var k :| 0 <= k < |after| && after[k] == top;
    assert after[i] - after[j] == drawdown && after[k] - after[|equity|] == top - balance;
  }

  /** Every balance is the initial one plus the profit so far. */
  lemma {:induction false} BalanceIsProfit(initial: real, ps: seq<Position>, equity: seq<real>, n: nat)
    requires IsEquity(initial, ps, equity) && n <= |ps|
    ensures equity[n] == initial + Pnl(ps[..n])
  {
    if n > 0 {
      BalanceIsProfit(initial, ps, equity, n - 1);
      assert ps[..n][..n - 1] == ps[..n - 1];
    }
  }

  // ----- Losing streak -----

  predicate LosingRun(ps: seq<Position>, i: nat, j: nat)
    requires i <= j <= |ps|
  {
    forall k | i <= k < j :: Loss(ps[k])
  }

  /** The longest run of consecutive losses among the first n. */
  ghost predicate IsStreak(ps: seq<Position>, n: nat, streak: nat)
    requires n <= |ps|
  {
    && (forall i: nat, j: nat | i <= j <= n && LosingRun(ps, i, j) :: j - i <= streak)
    && (exists i: nat, j: nat :: i <= j <= n && LosingRun(ps, i, j) && j - i == streak)
  }

  /** How many losses the first n end with. */
  ghost predicate IsCurrent(ps: seq<Position>, n: nat, current: nat)
    requires n <= |ps|
  {
    current <= n && LosingRun(ps, n - current, n) && (current < n ==> !Loss(ps[n - current - 1]))
  }

  method LosingStreak(ps: seq<Position>) returns (streak: nat)
    ensures IsStreak(ps, |ps|, streak)
  {
    streak := 0;
    var current: nat := 0;
    assert LosingRun(ps, 0, 0);
    for n := 0 to |ps|
      invariant IsStreak(ps, n, streak) && IsCurrent(ps, n, current) && current <= streak
    {
      hide IsStreak; hide IsCurrent;
      StreakGrows(ps, n, streak, current);
      if ps[n].net < -EPS {
        current := current + 1;
        streak := if current > streak then current else streak;
      } else {
        current := 0;
      }
    }
  }

  lemma StreakGrows(ps: seq<Position>, n: nat, streak: nat, current: nat)
    requires n < |ps| && IsStreak(ps, n, streak) && IsCurrent(ps, n, current) && current <= streak
    ensures Loss(ps[n]) ==>
              && IsCurrent(ps, n + 1, current + 1)
              && IsStreak(ps, n + 1, if current + 1 > streak then current + 1 else streak)
    ensures !Loss(ps[n]) ==> IsCurrent(ps, n + 1, 0) && IsStreak(ps, n + 1, streak)
  {
    var longest := if Loss(ps[n]) && current + 1 > streak then current + 1 else streak;
    forall i: nat, j: nat | i <= j <= n + 1 && LosingRun(ps, i, j) ensures j - i <= longest {
    }
    var i: nat, j: nat :| i <= j <= n && LosingRun(ps, i, j) && j - i == streak;
    assert LosingRun(ps, i, j) && j <= n + 1;
    if Loss(ps[n]) {
      assert LosingRun(ps, n - current, n + 1);
    }
  }

  // ----- The report -----

  ghost predicate IsLaneReport(ps: seq<Position>, lane: string, r: LaneReport) {
    var rows := InLane(ps, lane);
    && r.positions == |rows| && r.wins == |Keep(rows, Win)| && r.losses == |Keep(rows, Loss)| && r.pnl == Pnl(rows)
    && IsStreak(rows, |rows|, r.streak)
  }

  ghost predicate IsMetrics(initial: real, ps: seq<Position>, m: Metrics) {
    && IsEquity(initial, ps, m.equity) && IsDrawdown(m.equity, m.drawdown) && IsStreak(ps, |ps|, m.streak)
    && m.pnl == Pnl(ps) && m.grossWin == Pnl(Keep(ps, Win)) && m.grossLoss == Abs(Pnl(Keep(ps, Loss)))
    && m.wins == |Keep(ps, Win)| && m.losses == |Keep(ps, Loss)| && m.flats == |Keep(ps, Flat)|
    && m.lanes.Keys == LanesIn(ps) && forall lane | lane in m.lanes :: IsLaneReport(ps, lane, m.lanes[lane])
  }

  /** The whole report; it refuses exactly a non-positive initial balance. */
  method CalculateMetrics(ps: seq<Position>, initial: real) returns (r: Outcome<Metrics>)
    ensures r.Raised? <==> initial <= 0.0
    ensures r.Raised? ==> r.error == ValueError
    ensures r.Ok? ==> IsMetrics(initial, ps, r.value)
  {
    hide IsEquity; hide IsDrawdown; hide IsStreak;
    if initial <= 0.0 { return Raised(ValueError); }
    var wins, losses, flats := Keep(ps, Win), Keep(ps, Loss), Keep(ps, Flat);
    var streak := LosingStreak(ps);
    var equity, drawdown := Drawdown(initial, ps);
    var lanes: map<string, LaneReport> := map[];
    var rest := LanesIn(ps);
    while rest != {}
      invariant rest <= LanesIn(ps) && lanes.Keys == LanesIn(ps) - rest
      invariant forall lane | lane in lanes :: IsLaneReport(ps, lane, lanes[lane])
      decreases |rest|
    {
      var lane :| lane in rest;
      rest := rest - {lane};
      var rows := InLane(ps, lane);
      var laneStreak := LosingStreak(rows);
      lanes := lanes[lane := LaneReport(|rows|, |Keep(rows, Win)|, |Keep(rows, Loss)|, Pnl(rows), laneStreak)];
    }
    r := Ok(Metrics(equity, Pnl(ps), |wins|, |losses|, |flats|, Pnl(wins), Abs(Pnl(losses)), streak, drawdown, lanes));
  }

  // ----- What the report guarantees -----

  lemma KeepLast(ps: seq<Position>, keep: Position -> bool, f: Position -> real)
    requires ps != []
    ensures var before, p := ps[..|ps| - 1], ps[|ps| - 1];
            && |Keep(ps, keep)| == |Keep(before, keep)| + (if keep(p) then 1 else 0)
            && Weight(Keep(ps, keep), f) == Weight(Keep(before, keep), f) + (if keep(p) then f(p) else 0.0)
  {
    var before, p := ps[..|ps| - 1], ps[|ps| - 1];
    if keep(p) {
      WeightAppend(Keep(before, keep), p, f);
    } else {
      assert Keep(ps, keep) == Keep(before, keep);
    }
  }

  lemma KeepNone(keep: Position -> bool, f: Position -> real)
    ensures Keep([], keep) == [] && Weight([], f) == 0.0
  {
  }

  lemma {:induction false} EveryPositionIsOneKind(ps: seq<Position>)
    ensures |ps| == |Keep(ps, Win)| + |Keep(ps, Loss)| + |Keep(ps, Flat)|
    ensures Pnl(ps) == Pnl(Keep(ps, Win)) + Pnl(Keep(ps, Loss)) + Pnl(Keep(ps, Flat))
    ensures Pnl(Keep(ps, Win)) >= 0.0 >= Pnl(Keep(ps, Loss))
    ensures Abs(Pnl(Keep(ps, Flat))) <= |Keep(ps, Flat)| as real * EPS
  {
    hide Keep; hide Weight;
    if ps == [] {
      KeepNone(Win, Net);
      KeepNone(Loss, Net);
      KeepNone(Flat, Net);
    } else {
      var before, p := ps[..|ps| - 1], ps[|ps| - 1];
      EveryPositionIsOneKind(before);
      assert ps == before + [p];
      WeightAppend(before, p, Net);
      KeepLast(ps, Win, Net);
      KeepLast(ps, Loss, Net);
      KeepLast(ps, Flat, Net);
      assert Win(p) || Loss(p) || Flat(p);
    }
  }

  function LaneWeights(ps: seq<Position>, lanes: set<string>, f: Position -> real): map<string, real> {
    map lane | lane in lanes :: Weight(InLane(ps, lane), f)
  }

  lemma {:induction false} TotalOfZeros(m: map<string, real>)
    requires forall k | k in m :: m[k] == 0.0
    ensures Total(m) == 0.0
    decreases |m|
  {
    if m != map[] {
      var k :| k in m;
      Shrinks(m, k);
      TotalRemove(m, k);
      TotalOfZeros(m - {k});
    }
  }

  /** Whatever is summed over the positions, the lanes' sums add up to the whole. */
  lemma {:induction false} LanesAddUp(ps: seq<Position>, lanes: set<string>, f: Position -> real)
    requires LanesIn(ps) <= lanes
    ensures Total(LaneWeights(ps, lanes, f)) == Weight(ps, f)
  {
    hide Keep; hide Weight; hide Total;
    if ps == [] {
      forall lane | lane in lanes ensures LaneWeights(ps, lanes, f)[lane] == 0.0 {
        KeepNone((p: Position) => p.lane == lane, f);
      }
      KeepNone(Win, f);
      TotalOfZeros(LaneWeights(ps, lanes, f));
    } else {
      var before, p := ps[..|ps| - 1], ps[|ps| - 1];
      assert p in ps && ps == before + [p];
      LanesAddUp(before, lanes, f);
      WeightAppend(before, p, f);
      LaneGrows(ps, lanes, f);
      var was := LaneWeights(before, lanes, f);
      TotalUpdate(was, p.lane, was[p.lane] + f(p));
    }
  }

  lemma LaneGrows(ps: seq<Position>, lanes: set<string>, f: Position -> real)
    requires ps != [] && LanesIn(ps) <= lanes
    ensures var p, was := ps[|ps| - 1], LaneWeights(ps[..|ps| - 1], lanes, f);
            p.lane in was && LaneWeights(ps, lanes, f) == was[p.lane := was[p.lane] + f(p)]
  {
    hide Keep; hide Weight;
    var p := ps[|ps| - 1];
    assert p in ps;
    forall lane | lane in lanes
      ensures LaneWeights(ps, lanes, f)[lane]
              == LaneWeights(ps[..|ps| - 1], lanes, f)[lane] + (if lane == p.lane then f(p) else 0.0)
    {
      KeepLast(ps, (q: Position) => q.lane == lane, f);
    }
  }

  lemma {:induction false} WeightOfOnes(ps: seq<Position>)
    ensures Weight(ps, (p: Position) => 1.0) == |ps| as real
  {
    if ps != [] {
      WeightOfOnes(ps[..|ps| - 1]);
    }
  }

  function LanePnls(m: Metrics): map<string, real> { map lane | lane in m.lanes :: m.lanes[lane].pnl }

  function LaneCounts(m: Metrics): map<string, real> { map lane | lane in m.lanes :: m.lanes[lane].positions as real }

  /** A report is consistent: the last balance is the first plus the profit; wins, losses and flats
      partition the positions and their profit; the lanes add up to the totals; and no drawdown is negative. */
  lemma ReportIsConsistent(initial: real, ps: seq<Position>, m: Metrics)
    requires IsMetrics(initial, ps, m)
    ensures m.equity[|ps|] == initial + m.pnl
    ensures m.wins + m.losses + m.flats == |ps|
    ensures Abs(m.pnl - (m.grossWin - m.grossLoss)) <= m.flats as real * EPS
    ensures Total(LanePnls(m)) == m.pnl && Total(LaneCounts(m)) == |ps| as real
    ensures m.drawdown >= 0.0 && m.streak <= m.losses
  {
    hide Keep; hide Weight; hide Total; hide IsStreak;
    BalanceIsProfit(initial, ps, m.equity, |ps|);
    assert ps[..|ps|] == ps;
    EveryPositionIsOneKind(ps);
    LanesAddUp(ps, LanesIn(ps), Net);
    assert LanePnls(m) == LaneWeights(ps, LanesIn(ps), Net);
    LanesAddUp(ps, LanesIn(ps), (p: Position) => 1.0);
    WeightOfOnes(ps);
    CountsAreWeights(ps, m);
    assert m.equity[0] - m.equity[0] == 0.0;
    StreakIsLosses(ps, m.streak);
  }

  lemma CountsAreWeights(ps: seq<Position>, m: Metrics)
    requires m.lanes.Keys == LanesIn(ps)
             && forall lane | lane in m.lanes :: m.lanes[lane].positions == |InLane(ps, lane)|
    ensures LaneCounts(m) == LaneWeights(ps, LanesIn(ps), (p: Position) => 1.0)
  {
    forall lane | lane in m.lanes
      ensures LaneCounts(m)[lane] == LaneWeights(ps, LanesIn(ps), (p: Position) => 1.0)[lane]
    {
      WeightOfOnes(InLane(ps, lane));
    }
  }

  lemma StreakIsLosses(ps: seq<Position>, streak: nat)
    requires IsStreak(ps, |ps|, streak)
    ensures streak <= |Keep(ps, Loss)|
  {
    var i: nat, j: nat :| i <= j <= |ps| && LosingRun(ps, i, j) && j - i == streak;
    RunIsKept(ps, i, j);
  }

  lemma {:induction false} RunIsKept(ps: seq<Position>, i: nat, j: nat)
    requires i <= j <= |ps| && LosingRun(ps, i, j)
    ensures j - i <= |Keep(ps, Loss)|
  {
    if j < |ps| {
      assert LosingRun(ps[..|ps| - 1], i, j);
      RunIsKept(ps[..|ps| - 1], i, j);
    } else if i < j {
      assert LosingRun(ps[..|ps| - 1], i, j - 1);
      RunIsKept(ps[..|ps| - 1], i, j - 1);
    }
  }
}
