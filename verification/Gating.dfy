/** The recalibration gate: from a history of interval statistics to PROMOTE, HOLD or ROLLBACK. */
module Gating {
  import opened Common

  datatype Stat = Stat(value: Option<real>, low: Option<real>, high: Option<real>) {
    predicate Estimable() { value.Some? && low.Some? && high.Some? }
  }

  const EMPTY_STAT: Stat := Stat(None, None, None)

  datatype Metric = WinRate | ConfidenceAuc | ConfidenceCorrelation

  const GATED: seq<Metric> := [WinRate, ConfidenceAuc, ConfidenceCorrelation]

  datatype Direction = Up | Down | Flat

  datatype Source = Live | Synthetic | OtherSource

  /** One calibration cycle: its provenance, and the statistics it has for the weight version. */
  datatype Cycle = Cycle(source: Source, hasId: bool, stats: map<Metric, Stat>)

  datatype Action = InsufficientData | Hold | Rollback | Promote

  datatype Verdict = Verdict(metric: Metric, prior: Stat, latest: Stat, overlap: Option<bool>, moved: Option<Direction>)

  datatype Decision = Decision(action: Action, verdicts: seq<Verdict>, considered: nat)

  function ExtractStat(c: Cycle, m: Metric): Stat { if m in c.stats then c.stats[m] else EMPTY_STAT }

  function IntervalsOverlap(a: Stat, b: Stat): Option<bool> {
    if !a.Estimable() || !b.Estimable() then None
    else Some(a.low.value <= b.high.value && b.low.value <= a.high.value)
  }

  function DirectionOf(a: Stat, b: Stat): Option<Direction> {
    if !a.Estimable() || !b.Estimable() then None
    else Some(if b.value.value > a.value.value then Up else if b.value.value < a.value.value then Down else Flat)
  }

  function Moved(a: Stat, b: Stat): Option<Direction> {
    if IntervalsOverlap(a, b) == Some(false) then DirectionOf(a, b) else None
  }

  /** How metric m moved from cycle i - 1 to cycle i. */
  function MoveAt(cycles: seq<Cycle>, m: Metric, i: nat): Option<Direction>
    requires 0 < i < |cycles|
  {
    Moved(ExtractStat(cycles[i - 1], m), ExtractStat(cycles[i], m))
  }

  predicate ValidHistory(cycles: seq<Cycle>) {
    && cycles != []
    && (forall i | 0 <= i < |cycles| :: cycles[i].source != OtherSource && cycles[i].hasId)
    && (forall i, j | 0 <= i < |cycles| && 0 <= j < |cycles| :: cycles[i].source == cycles[j].source)
  }

  /** The last k moves of a metric, oldest first. */
  function Recent(cycles: seq<Cycle>, m: Metric, k: nat): seq<Option<Direction>>
    requires 0 < k < |cycles|
  {
    seq(k, j requires 0 <= j < k => MoveAt(cycles, m, |cycles| - k + j))
  }

  predicate Unresolved(recent: seq<Option<Direction>>) { None in recent }

  predicate Contradictory(recent: seq<Option<Direction>>) {
    !Unresolved(recent) && exists i, j | 0 <= i < |recent| && 0 <= j < |recent| :: recent[i] != recent[j]
  }

  predicate Persistent(recent: seq<Option<Direction>>, d: Direction) {
    forall j | 0 <= j < |recent| :: recent[j] == Some(d)
  }

  type Moves = map<Metric, seq<Option<Direction>>>

  function Of(moves: Moves, m: Metric): seq<Option<Direction>> { if m in moves then moves[m] else [] }

  /** The action, from the recent moves of the three metrics. */
  function Choose(recents: Moves): Action {
    if exists m: Metric :: Contradictory(Of(recents, m)) then Rollback
    else if exists m: Metric :: Unresolved(Of(recents, m)) then Hold
    else if forall m: Metric :: Persistent(Of(recents, m), Down) then Rollback
    else if forall m: Metric :: Persistent(Of(recents, m), Up) then Promote
    else Hold
  }

  function Recents(cycles: seq<Cycle>, k: nat): Moves
    requires 0 < k < |cycles|
  {
    map[WinRate := Recent(cycles, WinRate, k), ConfidenceAuc := Recent(cycles, ConfidenceAuc, k),
        ConfidenceCorrelation := Recent(cycles, ConfidenceCorrelation, k)]
  }

  lemma RecentsOf(cycles: seq<Cycle>, k: nat, m: Metric)
    requires 0 < k < |cycles|
    ensures Of(Recents(cycles, k), m) == Recent(cycles, m, k)
  {
    match m case WinRate => case ConfidenceAuc => case ConfidenceCorrelation =>
  }

  /** The verdicts on the last transition. */
  function LastVerdicts(cycles: seq<Cycle>): seq<Verdict>
    requires |cycles| > 1
  {
    seq(3, j requires 0 <= j < 3 => VerdictOn(GATED[j], cycles[|cycles| - 2], cycles[|cycles| - 1]))
  }

  function VerdictOn(m: Metric, prior: Cycle, latest: Cycle): Verdict {
    var a, b := ExtractStat(prior, m), ExtractStat(latest, m);
    Verdict(m, a, b, IntervalsOverlap(a, b), Moved(a, b))
  }

  function DecisionOf(cycles: seq<Cycle>, k: int): Outcome<Decision> {
    if !ValidHistory(cycles) || k < 1 then Raised(ValueError)
    else if |cycles| < k + 1 then Ok(Decision(InsufficientData, [], |cycles|))
    else Ok(Decision(Choose(Recents(cycles, k)), LastVerdicts(cycles), |cycles|))
  }

  // ----- decide -----

  method ValidateCycles(cycles: seq<Cycle>) returns (ok: bool)
    ensures ok <==> ValidHistory(cycles)
  {
    if cycles == [] { return false; }
    var sources := set i | 0 <= i < |cycles| :: cycles[i].source;
    assert forall i | 0 <= i < |cycles| :: cycles[i].source in sources;
    if Live in sources && Synthetic in sources { return false; }
    for n := 0 to |cycles|
      invariant forall i | 0 <= i < n :: cycles[i].source != OtherSource && cycles[i].hasId
    {
      if cycles[n].source == OtherSource || !cycles[n].hasId { return false; }
    }
    ok := true;
  }

  /** The loops over transitions and metrics that collect the directions. */
  method CollectMoves(cycles: seq<Cycle>, metric: Metric) returns (moves: seq<Option<Direction>>)
    requires cycles != []
    ensures |moves| == |cycles| - 1 && forall i: nat | 0 < i < |cycles| :: moves[i - 1] == MoveAt(cycles, metric, i)
  {
    moves := [];
    for i := 1 to |cycles|
      invariant |moves| == i - 1 && forall j: nat | 0 < j < i :: moves[j - 1] == MoveAt(cycles, metric, j)
    {
      var prior, latest := ExtractStat(cycles[i - 1], metric), ExtractStat(cycles[i], metric);
      var overlap := IntervalsOverlap(prior, latest);
      var moved := None;
      if overlap == Some(false) {
        moved := DirectionOf(prior, latest);
      }
      moves := moves + [moved];
    }
  }

  /** What the loop knows after the first n metrics. */
  ghost predicate Weighed(recents: Moves, n: nat, contradiction: bool, incomplete: bool, trends: map<Metric, Direction>)
    requires n <= |GATED|
  {
    && (contradiction <==> exists j | 0 <= j < n :: Contradictory(Of(recents, GATED[j])))
    && (incomplete <==> exists j | 0 <= j < n :: Unresolved(Of(recents, GATED[j])))
    && (forall j | 0 <= j < n && !Contradictory(Of(recents, GATED[j])) && !Unresolved(Of(recents, GATED[j])) ::
          GATED[j] in trends && Persistent(Of(recents, GATED[j]), trends[GATED[j]]))
  }

  lemma AllWeighed(recents: Moves, contradiction: bool, incomplete: bool, trends: map<Metric, Direction>)
    requires Weighed(recents, |GATED|, contradiction, incomplete, trends) && forall m: Metric :: Of(recents, m) != []
    ensures contradiction <==> exists m: Metric :: Contradictory(Of(recents, m))
    ensures incomplete <==> exists m: Metric :: Unresolved(Of(recents, m))
    ensures !contradiction && !incomplete ==>
              forall m: Metric :: m in trends && forall d: Direction ::
                Persistent(Of(recents, m), d) <==> trends[m] == d
  {
    assert GATED[0] == WinRate && GATED[1] == ConfidenceAuc && GATED[2] == ConfidenceCorrelation;
    forall m: Metric ensures exists j :: 0 <= j < |GATED| && GATED[j] == m
      ensures Contradictory(Of(recents, m)) ==> contradiction
      ensures Unresolved(Of(recents, m)) ==> incomplete {
      match m case WinRate => case ConfidenceAuc => case ConfidenceCorrelation =>
    }
    if !contradiction && !incomplete {
      forall m: Metric ensures m in trends && forall d: Direction :: Persistent(Of(recents, m), d) <==> trends[m] == d {
        var j :| 0 <= j < |GATED| && GATED[j] == m;
        assert Of(recents, m)[0] == Some(trends[m]);
      }
    }
  }

  lemma TrendsAgree(recents: Moves, trends: map<Metric, Direction>, d: Direction)
    requires forall m: Metric :: m in trends && (Persistent(Of(recents, m), d) <==> trends[m] == d)
    ensures (forall m: Metric :: Persistent(Of(recents, m), d))
            <==> trends[WinRate] == trends[ConfidenceAuc] == trends[ConfidenceCorrelation] == d
  {
    hide Persistent;
    if trends[WinRate] == trends[ConfidenceAuc] == trends[ConfidenceCorrelation] == d {
      forall m: Metric ensures Persistent(Of(recents, m), d) {
        match m case WinRate => case ConfidenceAuc => case ConfidenceCorrelation =>
      }
    } else {
      assert exists m: Metric :: !Persistent(Of(recents, m), d) by {
        assert trends[WinRate] != d ==> !Persistent(Of(recents, WinRate), d);
        assert trends[ConfidenceAuc] != d ==> !Persistent(Of(recents, ConfidenceAuc), d);
        assert trends[ConfidenceCorrelation] != d ==> !Persistent(Of(recents, ConfidenceCorrelation), d);
      }
    }
  }

  /** The action, from what the loop found. */
  function Act(contradiction: bool, incomplete: bool, trends: map<Metric, Direction>): Action
    requires contradiction || incomplete
             || (WinRate in trends && ConfidenceAuc in trends && ConfidenceCorrelation in trends)
  {
    if contradiction then Rollback
    else if incomplete then Hold
    else if trends[WinRate] == trends[ConfidenceAuc] == trends[ConfidenceCorrelation] == Down then Rollback
    else if trends[WinRate] == trends[ConfidenceAuc] == trends[ConfidenceCorrelation] == Up then Promote
    else Hold
  }

  lemma ActIsChoose(recents: Moves, contradiction: bool, incomplete: bool, trends: map<Metric, Direction>)
    requires Weighed(recents, |GATED|, contradiction, incomplete, trends) && forall m: Metric :: Of(recents, m) != []
    ensures contradiction || incomplete
            || (WinRate in trends && ConfidenceAuc in trends && ConfidenceCorrelation in trends)
    ensures Act(contradiction, incomplete, trends) == Choose(recents)
  {
    AllWeighed(recents, contradiction, incomplete, trends);
    hide Weighed; hide Contradictory; hide Unresolved; hide Persistent;
    if !contradiction && !incomplete {
      TrendsAgree(recents, trends, Down);
      TrendsAgree(recents, trends, Up);
    }
  }

  /** The loop over metrics that sorts their recent moves into contradictions, gaps and trends. */
  method Weigh(recents: Moves) returns (action: Action)
    requires forall m: Metric :: Of(recents, m) != []
    ensures action == Choose(recents)
  {
    var contradiction, incomplete := false, false;
    var trends: map<Metric, Direction> := map[];
    var n := 0;
    while n < |GATED|
      invariant 0 <= n <= |GATED| && Weighed(recents, n, contradiction, incomplete, trends)
    {
      var metric := GATED[n];
      var recent := Of(recents, metric);
      Sorts(recent);
      if None in recent {
        incomplete := true;
      } else if exists j | 0 <= j < |recent| :: recent[j] != recent[0] {
        contradiction := true;
      } else {
        trends := trends[metric := recent[0].value];
      }
      n := n + 1;
    }
    ActIsChoose(recents, contradiction, incomplete, trends);
    hide Choose;
    if contradiction {
      action := Rollback;
    } else if incomplete {
      action := Hold;
    } else if trends[WinRate] == trends[ConfidenceAuc] == trends[ConfidenceCorrelation] == Down {
      action := Rollback;
    } else if trends[WinRate] == trends[ConfidenceAuc] == trends[ConfidenceCorrelation] == Up {
      action := Promote;
    } else {
      action := Hold;
    }
  }

  /** Three kinds of recent moves: with a gap, in disagreement, or all in one direction. */
  lemma Sorts(recent: seq<Option<Direction>>)
    requires recent != []
    ensures Contradictory(recent) <==> None !in recent && exists j | 0 <= j < |recent| :: recent[j] != recent[0]
    ensures !Contradictory(recent) && !Unresolved(recent) ==> recent[0].Some? && Persistent(recent, recent[0].value)
  {
    assert recent[0] in recent;
  }

  method Decide(cycles: seq<Cycle>, k: int) returns (r: Outcome<Decision>)
    ensures r == DecisionOf(cycles, k)
  {
    var valid := ValidateCycles(cycles);
    if !valid || k < 1 { return Raised(ValueError); }
    if |cycles| < k + 1 { return Ok(Decision(InsufficientData, [], |cycles|)); }
    var recents: map<Metric, seq<Option<Direction>>> := map[];
    var verdicts: seq<Verdict> := [];
    for n := 0 to |GATED|
      invariant forall j | 0 <= j < n :: GATED[j] in recents && recents[GATED[j]] == Recent(cycles, GATED[j], k)
      invariant recents.Keys == set j | 0 <= j < n :: GATED[j]
      invariant |verdicts| == n
                && forall j | 0 <= j < n ::
                   verdicts[j] == VerdictOn(GATED[j], cycles[|cycles| - 2], cycles[|cycles| - 1])
    {
      var moves := CollectMoves(cycles, GATED[n]);
      assert moves[|moves| - k..] == Recent(cycles, GATED[n], k);
      recents := recents[GATED[n] := moves[|moves| - k..]];
      verdicts := verdicts + [VerdictOn(GATED[n], cycles[|cycles| - 2], cycles[|cycles| - 1])];
    }
    assert GATED[0] == WinRate && GATED[1] == ConfidenceAuc && GATED[2] == ConfidenceCorrelation;
    assert recents.Keys == {WinRate, ConfidenceAuc, ConfidenceCorrelation};
    assert recents == Recents(cycles, k);
    RecentsOf(cycles, k, WinRate);
    RecentsOf(cycles, k, ConfidenceAuc);
    RecentsOf(cycles, k, ConfidenceCorrelation);
    forall m: Metric ensures Of(recents, m) != [] {
      RecentsOf(cycles, k, m);
    }
    var action := Weigh(recents);
    r := Ok(Decision(action, verdicts, |cycles|));
    assert verdicts == LastVerdicts(cycles);
  }

  // ----- What a decision says about the evidence -----

  /** The point estimate lies in its interval. */
  predicate Sound(s: Stat) {
    s.Estimable() ==> s.low.value <= s.value.value <= s.high.value
  }

  ghost predicate SoundHistory(cycles: seq<Cycle>) {
    forall i, m: Metric | 0 <= i < |cycles| :: Sound(ExtractStat(cycles[i], m))
  }

  /** The whole of b's interval lies above the whole of a's. */
  predicate Above(b: Stat, a: Stat) {
    a.Estimable() && b.Estimable() && a.high.value < b.low.value
  }

  lemma MovedUpIff(a: Stat, b: Stat)
    requires Sound(a) && Sound(b)
    ensures Moved(a, b) == Some(Up) <==> Above(b, a)
    ensures Moved(a, b) == Some(Down) <==> Above(a, b)
    ensures Moved(a, b) != Some(Flat)
  {
  }

  /** Metric m rose to a disjoint, higher interval in the transition to cycle i. */
  predicate RoseAt(cycles: seq<Cycle>, m: Metric, i: nat)
    requires 0 < i < |cycles|
  {
    Above(ExtractStat(cycles[i], m), ExtractStat(cycles[i - 1], m))
  }

  /** The evidence for promotion: every gated metric rose in each of the last k transitions. */
  ghost predicate RoseThroughout(cycles: seq<Cycle>, k: nat)
    requires 0 < k < |cycles|
  {
    forall m: Metric, i: nat | |cycles| - k <= i < |cycles| :: RoseAt(cycles, m, i)
  }

  lemma RecentIs(cycles: seq<Cycle>, k: nat, m: Metric, d: Direction)
    requires 0 < k < |cycles|
    ensures Persistent(Recent(cycles, m, k), d)
            <==> forall i: nat | |cycles| - k <= i < |cycles| :: MoveAt(cycles, m, i) == Some(d)
  {
    var recent := Recent(cycles, m, k);
    if Persistent(recent, d) {
      forall i: nat | |cycles| - k <= i < |cycles| ensures MoveAt(cycles, m, i) == Some(d) {
        assert recent[i - (|cycles| - k)] == MoveAt(cycles, m, i);
      }
    }
  }

  lemma PersistentlyUpIff(cycles: seq<Cycle>, k: nat, m: Metric)
    requires 0 < k < |cycles| && SoundHistory(cycles)
    ensures Persistent(Recent(cycles, m, k), Up)
            <==> forall i: nat | |cycles| - k <= i < |cycles| :: RoseAt(cycles, m, i)
  {
    RecentIs(cycles, k, m, Up);
    forall i: nat | |cycles| - k <= i < |cycles| ensures MoveAt(cycles, m, i) == Some(Up) <==> RoseAt(cycles, m, i) {
      MovedUpIff(ExtractStat(cycles[i - 1], m), ExtractStat(cycles[i], m));
    }
  }

  /** PROMOTE is decided exactly on that evidence. */
  lemma PromoteIff(cycles: seq<Cycle>, k: int)
    requires ValidHistory(cycles) && SoundHistory(cycles) && k >= 1
    ensures DecisionOf(cycles, k).value.action == Promote <==> |cycles| >= k + 1 && RoseThroughout(cycles, k)
  {
    if |cycles| >= k + 1 {
      forall m: Metric
        ensures Persistent(Recent(cycles, m, k), Up)
                <==> forall i: nat | |cycles| - k <= i < |cycles| :: RoseAt(cycles, m, i)
      {
        PersistentlyUpIff(cycles, k, m);
      }
      PromoteMeans(cycles, k);
      hide Choose; hide Persistent; hide RoseAt; hide SoundHistory; hide Recents; hide Recent;
      if RoseThroughout(cycles, k) {
        forall m: Metric ensures Persistent(Recent(cycles, m, k), Up) {
          assert forall i: nat | |cycles| - k <= i < |cycles| :: RoseAt(cycles, m, i);
        }
      } else {
        var m: Metric, i: nat :| |cycles| - k <= i < |cycles| && !RoseAt(cycles, m, i);
        assert !Persistent(Recent(cycles, m, k), Up);
      }
    }
  }

  lemma PromoteMeans(cycles: seq<Cycle>, k: nat)
    requires 0 < k < |cycles|
    ensures Choose(Recents(cycles, k)) == Promote <==> forall m: Metric :: Persistent(Recent(cycles, m, k), Up)
  {
    var recents := Recents(cycles, k);
    forall m: Metric ensures Of(recents, m) == Recent(cycles, m, k) {
      RecentsOf(cycles, k, m);
    }
    if forall m: Metric :: Persistent(Recent(cycles, m, k), Up) {
      assert Of(recents, WinRate)[0] == Some(Up);
    }
  }

  /** So the latest interval of each gated metric lies wholly above its interval k cycles ago. */
  lemma PromotionClimbs(cycles: seq<Cycle>, k: int, m: Metric)
    requires ValidHistory(cycles) && SoundHistory(cycles) && k >= 1 && DecisionOf(cycles, k).value.action == Promote
    ensures |cycles| > k && Above(ExtractStat(cycles[|cycles| - 1], m), ExtractStat(cycles[|cycles| - 1 - k], m))
  {
    PromoteIff(cycles, k);
    Climbs(cycles, m, |cycles| - 1 - k, |cycles| - 1);
  }

  lemma {:induction false} Climbs(cycles: seq<Cycle>, m: Metric, i: nat, j: nat)
    requires SoundHistory(cycles) && i < j < |cycles|
    requires forall n: nat | i < n <= j :: RoseAt(cycles, m, n)
    ensures Above(ExtractStat(cycles[j], m), ExtractStat(cycles[i], m))
    decreases j - i
  {
    assert RoseAt(cycles, m, i + 1);
    if i + 1 < j {
      Climbs(cycles, m, i, j - 1);
      assert RoseAt(cycles, m, j);
      assert Sound(ExtractStat(cycles[j - 1], m));
    }
  }

  /** The gate has no memory beyond the last k transitions: of a valid history, only the last k + 1
      cycles decide. */
  lemma OnlyRecentCyclesDecide(cycles: seq<Cycle>, k: int)
    requires ValidHistory(cycles) && k >= 1 && |cycles| >= k + 1
    ensures var recent := cycles[|cycles| - k - 1..];
            ValidHistory(recent)
              && DecisionOf(recent, k).value.(considered := 0) == DecisionOf(cycles, k).value.(considered := 0)
  {
    var recent := cycles[|cycles| - k - 1..];
    forall i | 0 <= i < |recent| ensures recent[i] in cycles {
      assert recent[i] == cycles[|cycles| - k - 1 + i];
    }
    SameRecent(cycles, recent, WinRate, k);
    SameRecent(cycles, recent, ConfidenceAuc, k);
    SameRecent(cycles, recent, ConfidenceCorrelation, k);
    assert LastVerdicts(recent) == LastVerdicts(cycles);
  }

  lemma SameRecent(cycles: seq<Cycle>, recent: seq<Cycle>, m: Metric, k: nat)
    requires 0 < k < |cycles| && recent == cycles[|cycles| - k - 1..]
    ensures Recent(recent, m, k) == Recent(cycles, m, k)
  {
    forall j | 0 <= j < k ensures Recent(recent, m, k)[j] == Recent(cycles, m, k)[j] {
      assert recent[j] == cycles[|cycles| - k - 1 + j] && recent[j + 1] == cycles[|cycles| - k + j];
      assert Recent(recent, m, k)[j] == MoveAt(recent, m, j + 1);
      assert Recent(cycles, m, k)[j] == MoveAt(cycles, m, |cycles| - k + j);
    }
  }

  /** Fail safe: contradiction anywhere outweighs everything else, and nothing is promoted or rolled
      back on a trend while any gated metric is unresolved. */
  lemma RollbackIff(cycles: seq<Cycle>, k: int)
    requires ValidHistory(cycles) && k >= 1 && |cycles| >= k + 1
    ensures DecisionOf(cycles, k).value.action == Rollback <==>
              || (exists m: Metric :: Contradictory(Recent(cycles, m, k)))
              || (forall m: Metric :: Persistent(Recent(cycles, m, k), Down))
  {
    var recents := Recents(cycles, k);
    forall m: Metric ensures Of(recents, m) == Recent(cycles, m, k) {
      RecentsOf(cycles, k, m);
    }
    assert forall m: Metric :: Persistent(Of(recents, m), Down) ==> !Unresolved(Of(recents, m));
  }

  // ----- Decisions, on intervals -----

  predicate FellAt(cycles: seq<Cycle>, m: Metric, i: nat)
    requires 0 < i < |cycles|
  {
    Above(ExtractStat(cycles[i - 1], m), ExtractStat(cycles[i], m))
  }

  /** Metric m moved to a disjoint interval in each of the last k transitions. */
  ghost predicate MovedThroughout(cycles: seq<Cycle>, m: Metric, k: nat)
    requires 0 < k < |cycles|
  {
    forall i: nat | |cycles| - k <= i < |cycles| :: RoseAt(cycles, m, i) || FellAt(cycles, m, i)
  }

  /** It did, and it both rose and fell. */
  ghost predicate Wavered(cycles: seq<Cycle>, m: Metric, k: nat)
    requires 0 < k < |cycles|
  {
    && MovedThroughout(cycles, m, k)
    && (exists i: nat :: |cycles| - k <= i < |cycles| && RoseAt(cycles, m, i))
    && (exists i: nat :: |cycles| - k <= i < |cycles| && FellAt(cycles, m, i))
  }

  ghost predicate FellIn(cycles: seq<Cycle>, m: Metric, k: nat)
    requires 0 < k < |cycles|
  {
    forall i: nat | |cycles| - k <= i < |cycles| :: FellAt(cycles, m, i)
  }

  ghost predicate FellThroughout(cycles: seq<Cycle>, k: nat)
    requires 0 < k < |cycles|
  {
    forall m: Metric :: FellIn(cycles, m, k)
  }

  lemma MoveIs(cycles: seq<Cycle>, m: Metric, i: nat)
    requires 0 < i < |cycles| && SoundHistory(cycles)
    ensures MoveAt(cycles, m, i) == Some(Up) <==> RoseAt(cycles, m, i)
    ensures MoveAt(cycles, m, i) == Some(Down) <==> FellAt(cycles, m, i)
    ensures MoveAt(cycles, m, i) == None <==> !RoseAt(cycles, m, i) && !FellAt(cycles, m, i)
  {
    MovedUpIff(ExtractStat(cycles[i - 1], m), ExtractStat(cycles[i], m));
  }

  /** The recent moves are what the intervals show. */
  ghost predicate Shown(cycles: seq<Cycle>, m: Metric, k: nat, recent: seq<Option<Direction>>)
    requires 0 < k < |cycles|
  {
    |recent| == k && forall j | 0 <= j < k :: ShownAt(cycles, m, |cycles| - k + j, recent[j])
  }

  ghost predicate ShownAt(cycles: seq<Cycle>, m: Metric, i: nat, d: Option<Direction>)
    requires 0 < i < |cycles|
  {
    && (d == Some(Up) <==> RoseAt(cycles, m, i)) && (d == Some(Down) <==> FellAt(cycles, m, i))
    && (d == None <==> !RoseAt(cycles, m, i) && !FellAt(cycles, m, i))
  }

  lemma RecentIsShown(cycles: seq<Cycle>, m: Metric, k: nat)
    requires 0 < k < |cycles| && SoundHistory(cycles)
    ensures Shown(cycles, m, k, Recent(cycles, m, k))
  {
    hide SoundHistory; hide RoseAt; hide FellAt; hide MoveAt;
    forall j | 0 <= j < k ensures ShownAt(cycles, m, |cycles| - k + j, Recent(cycles, m, k)[j]) {
      MoveIs(cycles, m, |cycles| - k + j);
    }
  }

  lemma UnresolvedIff(cycles: seq<Cycle>, m: Metric, k: nat, recent: seq<Option<Direction>>)
    requires 0 < k < |cycles| && Shown(cycles, m, k, recent)
    ensures Unresolved(recent) <==> !MovedThroughout(cycles, m, k)
  {
    hide RoseAt; hide FellAt;
    if !MovedThroughout(cycles, m, k) {
      var i: nat :| |cycles| - k <= i < |cycles| && !RoseAt(cycles, m, i) && !FellAt(cycles, m, i);
      assert ShownAt(cycles, m, |cycles| - k + (i - (|cycles| - k)), recent[i - (|cycles| - k)]);
    }
    if Unresolved(recent) {
      var j :| 0 <= j < k && recent[j] == None;
      assert ShownAt(cycles, m, |cycles| - k + j, recent[j]);
    }
  }

  lemma WaveredIff(cycles: seq<Cycle>, m: Metric, k: nat, recent: seq<Option<Direction>>)
    requires 0 < k < |cycles| && Shown(cycles, m, k, recent)
    ensures Contradictory(recent) <==> Wavered(cycles, m, k)
  {
    hide RoseAt; hide FellAt; hide MovedThroughout; hide Unresolved;
    var first := |cycles| - k;
    UnresolvedIff(cycles, m, k, recent);
    if Contradictory(recent) {
      var i, j :| 0 <= i < k && 0 <= j < k && recent[i] != recent[j];
      assert ShownAt(cycles, m, first + i, recent[i]) && ShownAt(cycles, m, first + j, recent[j]);
      NoneIsUnresolved(recent, i);
      NoneIsUnresolved(recent, j);
    }
    if Wavered(cycles, m, k) {
      var i: nat :| first <= i < |cycles| && RoseAt(cycles, m, i);
      var j: nat :| first <= j < |cycles| && FellAt(cycles, m, j);
      assert ShownAt(cycles, m, first + (i - first), recent[i - first]);
      assert ShownAt(cycles, m, first + (j - first), recent[j - first]);
      assert recent[i - first] != recent[j - first];
    }
  }

  lemma NoneIsUnresolved(recent: seq<Option<Direction>>, j: nat)
    requires j < |recent| && !Unresolved(recent)
    ensures recent[j].Some?
  {
    assert recent[j] in recent;
  }

  lemma PersistentlyDownIff(cycles: seq<Cycle>, k: nat, m: Metric)
    requires 0 < k < |cycles| && SoundHistory(cycles)
    ensures Persistent(Recent(cycles, m, k), Down) <==> FellIn(cycles, m, k)
  {
    RecentIs(cycles, k, m, Down);
    forall i: nat | |cycles| - k <= i < |cycles| ensures MoveAt(cycles, m, i) == Some(Down) <==> FellAt(cycles, m, i) {
      MoveIs(cycles, m, i);
    }
    hide SoundHistory; hide FellAt; hide MoveAt;
  }

  /** Every decision on sound evidence. Too few cycles decide nothing. Otherwise: ROLLBACK if some metric,
      moving in every recent transition, both rose and fell, or if every metric fell in all of them;
      PROMOTE if every metric rose in all of them; HOLD if neither. */
  lemma ActionIff(cycles: seq<Cycle>, k: int)
    requires ValidHistory(cycles) && SoundHistory(cycles) && k >= 1
    ensures DecisionOf(cycles, k).Ok?
    ensures var action := DecisionOf(cycles, k).value.action;
            if |cycles| <= k then action == InsufficientData
            else if (exists m: Metric :: Wavered(cycles, m, k)) || FellThroughout(cycles, k) then action == Rollback
            else if RoseThroughout(cycles, k) then action == Promote
            else action == Hold
  {
    if |cycles| > k {
      PromoteIff(cycles, k);
      RollbackIff(cycles, k);
      forall m: Metric
        ensures Contradictory(Recent(cycles, m, k)) <==> Wavered(cycles, m, k)
        ensures Persistent(Recent(cycles, m, k), Down) <==> FellIn(cycles, m, k) {
        RecentIsShown(cycles, m, k);
        WaveredIff(cycles, m, k, Recent(cycles, m, k));
        PersistentlyDownIff(cycles, k, m);
      }
      ChoiceIsMade(Recents(cycles, k));
      hide Contradictory; hide Wavered; hide Persistent; hide SoundHistory; hide ValidHistory; hide RoseThroughout;
      hide Recent; hide FellIn; hide Recents; hide Choose; hide FellAt; hide Shown;
    }
  }

  lemma ChoiceIsMade(recents: Moves)
    ensures Choose(recents) in {Hold, Rollback, Promote}
  {
  }

  /** The history the gate accepts, and the verdicts it reports: on each of the three metrics, the last
      two statistics, whether their intervals overlap, and, if they are apart, which way the estimate moved. */
  lemma VerdictsAre(cycles: seq<Cycle>, k: int)
    ensures DecisionOf(cycles, k).Ok? <==>
              && k >= 1 && cycles != []
              && (forall i | 0 <= i < |cycles| ::
                    cycles[i].hasId && cycles[i].source == cycles[0].source && cycles[i].source in {Live, Synthetic})
    ensures DecisionOf(cycles, k).Raised? ==> DecisionOf(cycles, k).error == ValueError
    ensures DecisionOf(cycles, k).Ok? ==>
              var d := DecisionOf(cycles, k).value;
              && d.considered == |cycles|
              && (|cycles| <= k ==> d.verdicts == [])
              && (|cycles| > k ==>
                    && |d.verdicts| == 3 && d.verdicts[0].metric == WinRate && d.verdicts[1].metric == ConfidenceAuc
                    && d.verdicts[2].metric == ConfidenceCorrelation
                    && var prior, latest := cycles[|cycles| - 2], cycles[|cycles| - 1];
                    && Reports(d.verdicts[0], prior, latest) && Reports(d.verdicts[1], prior, latest)
                    && Reports(d.verdicts[2], prior, latest))
  {
    assert GATED[0] == WinRate && GATED[1] == ConfidenceAuc && GATED[2] == ConfidenceCorrelation;
    if DecisionOf(cycles, k).Ok? && |cycles| > k {
      VerdictReports(WinRate, cycles[|cycles| - 2], cycles[|cycles| - 1]);
      VerdictReports(ConfidenceAuc, cycles[|cycles| - 2], cycles[|cycles| - 1]);
      VerdictReports(ConfidenceCorrelation, cycles[|cycles| - 2], cycles[|cycles| - 1]);
      hide Choose; hide Recents; hide VerdictOn; hide Reports;
    }
  }

  ghost predicate Reports(v: Verdict, prior: Cycle, latest: Cycle) {
    && v.prior == (if v.metric in prior.stats then prior.stats[v.metric] else Stat(None, None, None))
    && v.latest == (if v.metric in latest.stats then latest.stats[v.metric] else Stat(None, None, None))
    && var a, b := v.prior, v.latest;
    if a.value == None || a.low == None || a.high == None || b.value == None || b.low == None || b.high == None
    then v.overlap == None && v.moved == None
    else if a.high.value < b.low.value || b.high.value < a.low.value then
      && v.overlap == Some(false)
      && v.moved == Some(if a.value.value < b.value.value then Up else if b.value.value < a.value.value then Down
                         else Flat)
    else v.overlap == Some(true) && v.moved == None
  }

  lemma VerdictReports(m: Metric, prior: Cycle, latest: Cycle)
    ensures Reports(VerdictOn(m, prior, latest), prior, latest) && VerdictOn(m, prior, latest).metric == m
  {
  }
}
