/** The verdict on a position and the kinds of its result, stated on the rows of the ledger only. */
module LedgerLaws {
  import opened Common
  import opened PositionLedger
  import LedgerMetrics
  import Sums

  /** What row k adds to the opened and to the closed volume. */
  function Opens(d: Deal): real { if d.kind == In then d.volume else 0.0 }

  function Closes(d: Deal): real { if d.kind == Out || d.kind == OutBy then d.volume else 0.0 }

  /** The sum of f over the rows. */
  ghost function Over(rows: seq<Deal>, f: Deal -> real): real {
    Sums.SumSeq(seq(|rows|, k requires 0 <= k < |rows| => f(rows[k])))
  }

  lemma {:induction false} SumIsOver(rows: seq<Deal>, f: Deal -> real)
    ensures Sum(rows, f) == Over(rows, f)
  {
    if rows != [] {
      var last := |rows| - 1;
      SumIsOver(rows[..last], f);
      var all := seq(|rows|, k requires 0 <= k < |rows| => f(rows[k]));
      assert all[..last] == seq(last, k requires 0 <= k < last => f(rows[..last][k]));
    }
  }

  lemma {:induction false} SelectedSum(rows: seq<Deal>, keep: Deal -> bool, f: Deal -> real, g: Deal -> real)
    requires forall d :: g(d) == if keep(d) then f(d) else 0.0
    ensures Sum(Select(rows, keep), f) == Sum(rows, g)
  {
    if rows != [] {
      var last := |rows| - 1;
      var before := Select(rows[..last], keep);
      SelectedSum(rows[..last], keep, f, g);
      if keep(rows[last]) {
        assert (before + [rows[last]])[..|before|] == before;
      } else {
        assert Select(rows, keep) == before;
      }
    }
  }

  lemma LastIsMember(rows: seq<Deal>, d: Deal)
    requires rows != []
    ensures d in rows <==> d in rows[..|rows| - 1] || d == rows[|rows| - 1]
  {
    assert rows == rows[..|rows| - 1] + [rows[|rows| - 1]];
  }

  /** Selecting keeps exactly the rows with the property. */
  lemma {:induction false} SelectedIff(rows: seq<Deal>, keep: Deal -> bool, d: Deal)
    ensures d in Select(rows, keep) <==> d in rows && keep(d)
  {
    if rows != [] {
      SelectedIff(rows[..|rows| - 1], keep, d);
      LastIsMember(rows, d);
    }
  }

  /** It starts with the first of them. */
  lemma {:induction false} FirstSelected(rows: seq<Deal>, keep: Deal -> bool)
    ensures Select(rows, keep) == [] ==> forall k | 0 <= k < |rows| :: !keep(rows[k])
    ensures Select(rows, keep) != [] ==> FirstWith(rows, keep, Select(rows, keep)[0])
  {
    if rows != [] {
      var last := |rows| - 1;
      var before := Select(rows[..last], keep);
      FirstSelected(rows[..last], keep);
      if before == [] {
        forall k | 0 <= k < last ensures !keep(rows[k]) {
          assert !keep(rows[..last][k]);
        }
      } else {
        FirstStays(rows, keep, before[0]);
      }
    }
  }

  lemma FirstStays(rows: seq<Deal>, keep: Deal -> bool, d: Deal)
    requires rows != [] && FirstWith(rows[..|rows| - 1], keep, d)
    ensures FirstWith(rows, keep, d)
  {
    var before := rows[..|rows| - 1];
    var k :| 0 <= k < |before| && before[k] == d && keep(d) && forall j | 0 <= j < k :: !keep(before[j]);
    forall j | 0 <= j < k ensures !keep(rows[j]) {
      assert !keep(before[j]);
    }
  }

  lemma SelectedAre(rows: seq<Deal>, keep: Deal -> bool)
    ensures forall d :: d in Select(rows, keep) <==> d in rows && keep(d)
    ensures Select(rows, keep) != [] ==> FirstWith(rows, keep, Select(rows, keep)[0])
  {
    FirstSelected(rows, keep);
    forall d ensures d in Select(rows, keep) <==> d in rows && keep(d) {
      SelectedIff(rows, keep, d);
    }
    hide Select; hide FirstWith;
  }

  /** d is the first row with the property. */
  ghost predicate FirstWith(rows: seq<Deal>, keep: Deal -> bool, d: Deal) {
    exists k :: 0 <= k < |rows| && rows[k] == d && keep(d) && forall j | 0 <= j < k :: !keep(rows[j])
  }

  ghost predicate SomeKind(rows: seq<Deal>, kinds: set<Kind>) {
    exists d | d in rows :: d.kind in kinds
  }

  /** Two positive risks differ by more than a hundredth of the larger, and than a hundredth; or two rows
      are tagged with different lanes. */
  ghost predicate AtOdds(rows: seq<Deal>) {
    || (exists a, b | a in rows && b in rows ::
          a.risk > 0.0 && b.risk > 0.0 && a.risk - b.risk > 0.01 && a.risk - b.risk > a.risk * 0.01)
    || (exists a, b | a in rows && b in rows :: a.lane != "" && b.lane != "" && a.lane != b.lane)
  }

  lemma {:induction false} RisksBound(risks: seq<Deal>, d: Deal)
    requires d in risks
    ensures LeastRisk(risks) <= d.risk <= GreatestRisk(risks)
  {
    LastIsMember(risks, d);
    if d in risks[..|risks| - 1] {
      RisksBound(risks[..|risks| - 1], d);
    }
  }

  lemma {:induction false} RisksAttained(risks: seq<Deal>) returns (least: Deal, greatest: Deal)
    requires risks != []
    ensures least in risks && least.risk == LeastRisk(risks)
    ensures greatest in risks && greatest.risk == GreatestRisk(risks)
  {
    var last := |risks| - 1;
    least, greatest := risks[last], risks[last];
    if last > 0 {
      var a, b := RisksAttained(risks[..last]);
      least := if a.risk <= risks[last].risk then a else risks[last];
      greatest := if risks[last].risk <= b.risk then b else risks[last];
      LastIsMember(risks, a);
      LastIsMember(risks, b);
    }
  }

  lemma RisksDifferIff(risks: seq<Deal>)
    requires forall d | d in risks :: d.risk > 0.0
    ensures RisksDiffer(risks) <==>
              exists a, b | a in risks && b in risks :: a.risk - b.risk > 0.01 && a.risk - b.risk > a.risk * 0.01
  {
    if risks != [] {
      var least, greatest := RisksAttained(risks);
      if a, b :| a in risks && b in risks && a.risk - b.risk > 0.01 && a.risk - b.risk > a.risk * 0.01 {
        RisksBound(risks, a);
        RisksBound(risks, b);
      }
      if RisksDiffer(risks) {
        assert greatest.risk - least.risk > 0.01 && greatest.risk - least.risk > greatest.risk * 0.01;
      }
    }
  }

  lemma LanesDifferIff(rows: seq<Deal>)
    ensures |Lanes(rows)| > 1
            <==> exists a, b | a in rows && b in rows :: a.lane != "" && b.lane != "" && a.lane != b.lane
  {
    if a, b :| a in rows && b in rows && a.lane != "" && b.lane != "" && a.lane != b.lane {
      assert {a.lane, b.lane} <= Lanes(rows);
      SubsetCount({a.lane, b.lane}, Lanes(rows));
    }
    if |Lanes(rows)| > 1 {
      var x :| x in Lanes(rows);
      assert |Lanes(rows) - {x}| == |Lanes(rows)| - 1;
      var y :| y in Lanes(rows) - {x};
      var a :| a in rows && a.lane != "" && a.lane == x;
      var b :| b in rows && b.lane != "" && b.lane == y;
    }
  }

  /** The tolerance between opened and closed volume. */
  ghost function Tolerance(entered: real): real {
    if entered * 0.00001 < 0.0000001 then 0.0000001 else entered * 0.00001
  }

  /** Every verdict, in the order in which they are tried: still open; an entry and an exit in one deal;
      no entry, no exit, nothing opened, or less closed than opened; more closed than opened; risks or
      lanes at odds; complete. */
  lemma ClassIff(id: string, rows: seq<Deal>, isOpen: bool)
    ensures var entered, closed := Over(rows, Opens), Over(rows, Closes);
            var verdict := ClassOf(id, rows, isOpen);
            if isOpen then verdict == Ignored(OpenPosition)
            else if SomeKind(rows, {InOut}) then verdict == Ignored(InoutAmbiguous)
            else if !SomeKind(rows, {In}) || !SomeKind(rows, {Out, OutBy}) || entered <= 0.0
                    || closed < entered - Tolerance(entered)
            then verdict == Ignored(IncompleteVolume)
            else if closed > entered + Tolerance(entered) then verdict == Ignored(InoutAmbiguous)
            else if AtOdds(rows) then verdict == Inconsistent
            else verdict.Complete?
  {
    VolumesAre(rows);
    KindsAre(rows);
    AtOddsIff(rows);
    hide Over; hide Sum; hide Select; hide RisksDiffer; hide Lanes; hide AtOdds; hide Earliest; hide Latest;
    hide LaneOf; hide SomeKind;
    assert SomeKind(rows, {InOut}) <==> exists d | d in rows :: d.kind == InOut by { InOutIff(rows); }
  }

  lemma InOutIff(rows: seq<Deal>)
    ensures SomeKind(rows, {InOut}) <==> exists d | d in rows :: d.kind == InOut
  {
  }

  lemma VolumesAre(rows: seq<Deal>)
    ensures Sum(Select(rows, (d: Deal) => d.kind == In), (d: Deal) => d.volume) == Over(rows, Opens)
    ensures Sum(Select(rows, (d: Deal) => d.kind in {Out, OutBy}), (d: Deal) => d.volume) == Over(rows, Closes)
  {
    SelectedSum(rows, (d: Deal) => d.kind == In, (d: Deal) => d.volume, Opens);
    SelectedSum(rows, (d: Deal) => d.kind in {Out, OutBy}, (d: Deal) => d.volume, Closes);
    SumIsOver(rows, Opens);
    SumIsOver(rows, Closes);
  }

  lemma KindsAre(rows: seq<Deal>)
    ensures Select(rows, (d: Deal) => d.kind == In) == [] <==> !SomeKind(rows, {In})
    ensures Select(rows, (d: Deal) => d.kind in {Out, OutBy}) == [] <==> !SomeKind(rows, {Out, OutBy})
  {
    SelectedAre(rows, (d: Deal) => d.kind == In);
    SelectedAre(rows, (d: Deal) => d.kind in {Out, OutBy});
    SomeIn(Select(rows, (d: Deal) => d.kind == In));
    SomeIn(Select(rows, (d: Deal) => d.kind in {Out, OutBy}));
  }

  lemma AtOddsIff(rows: seq<Deal>)
    ensures AtOdds(rows) <==> RisksDiffer(Select(rows, (d: Deal) => d.risk > 0.0)) || |Lanes(rows)| > 1
  {
    var risks := Select(rows, (d: Deal) => d.risk > 0.0);
    SelectedAre(rows, (d: Deal) => d.risk > 0.0);
    RisksDifferIff(risks);
    LanesDifferIff(rows);
    hide RisksDiffer; hide Lanes; hide Select;
    if a, b :| a in rows && b in rows && a.risk > 0.0 && b.risk > 0.0 && a.risk - b.risk > 0.01
               && a.risk - b.risk > a.risk * 0.01 {
      assert a in risks && b in risks;
    }
  }

  /** What a complete position reports of its rows: opened at its first entry and closed at its last exit,
      with the volumes and the sums of each amount, the first positive risk and the first lane tag. */
  lemma CompleteReports(id: string, rows: seq<Deal>, isOpen: bool)
    requires ClassOf(id, rows, isOpen).Complete?
    ensures var p := ClassOf(id, rows, isOpen).position;
            && p.id == id && p.rows == |rows| && p.opening == Over(rows, Opens) && p.closing == Over(rows, Closes)
            && p.gross == Over(rows, (d: Deal) => d.profit) && p.commission == Over(rows, (d: Deal) => d.commission)
            && p.swap == Over(rows, (d: Deal) => d.swap) && p.fee == Over(rows, (d: Deal) => d.fee)
            && p.net == Over(rows, (d: Deal) => d.profit + d.commission + d.swap + d.fee)
            && (exists d | d in rows :: d.kind == In && d.time == p.openedAt)
            && (forall d | d in rows && d.kind == In :: p.openedAt <= d.time)
            && (exists d | d in rows :: (d.kind == Out || d.kind == OutBy) && d.time == p.closedAt)
            && (forall d | d in rows && (d.kind == Out || d.kind == OutBy) :: d.time <= p.closedAt)
            && (p.risk == None ==> forall d | d in rows :: d.risk <= 0.0)
            && (p.risk.Some? ==> exists d :: FirstWith(rows, (e: Deal) => e.risk > 0.0, d) && p.risk == Some(d.risk))
            && (if exists d | d in rows :: d.lane != ""
                then exists d :: FirstWith(rows, (e: Deal) => e.lane != "", d) && p.lane == d.lane
                else p.lane == "UNTAGGED")
  {
    VolumesAre(rows);
    AmountsAre(rows);
    TimesAre(rows);
    RiskAndLaneAre(rows);
    hide Over; hide Sum; hide Select; hide RisksDiffer; hide Lanes; hide Earliest; hide Latest; hide LaneOf;
    hide FirstWith;
  }

  lemma AmountsAre(rows: seq<Deal>)
    ensures Sum(rows, (d: Deal) => d.profit) == Over(rows, (d: Deal) => d.profit)
    ensures Sum(rows, (d: Deal) => d.commission) == Over(rows, (d: Deal) => d.commission)
    ensures Sum(rows, (d: Deal) => d.swap) == Over(rows, (d: Deal) => d.swap)
    ensures Sum(rows, (d: Deal) => d.fee) == Over(rows, (d: Deal) => d.fee)
    ensures Sum(rows, (d: Deal) => d.Net()) == Over(rows, (d: Deal) => d.profit + d.commission + d.swap + d.fee)
  {
    SumIsOver(rows, (d: Deal) => d.profit);
    SumIsOver(rows, (d: Deal) => d.commission);
    SumIsOver(rows, (d: Deal) => d.swap);
    SumIsOver(rows, (d: Deal) => d.fee);
    SumIsOver(rows, (d: Deal) => d.Net());
    var net, sum := (d: Deal) => d.Net(), (d: Deal) => d.profit + d.commission + d.swap + d.fee;
    assert seq(|rows|, k requires 0 <= k < |rows| => net(rows[k]))
           == seq(|rows|, k requires 0 <= k < |rows| => sum(rows[k]));
  }

  lemma {:induction false} TimesBound(rows: seq<Deal>, d: Deal)
    requires d in rows
    ensures Earliest(rows) <= d.time <= Latest(rows)
  {
    LastIsMember(rows, d);
    if d in rows[..|rows| - 1] {
      TimesBound(rows[..|rows| - 1], d);
    }
  }

  lemma {:induction false} TimesAttained(rows: seq<Deal>) returns (first: Deal, final: Deal)
    requires rows != []
    ensures first in rows && first.time == Earliest(rows)
    ensures final in rows && final.time == Latest(rows)
  {
    var last := |rows| - 1;
    first, final := rows[last], rows[last];
    if last > 0 {
      var a, b := TimesAttained(rows[..last]);
      first := if rows[last].time < a.time then rows[last] else a;
      final := if rows[last].time > b.time then rows[last] else b;
      LastIsMember(rows, a);
      LastIsMember(rows, b);
    }
  }

  lemma EarliestIs(rows: seq<Deal>)
    requires rows != []
    ensures (exists d | d in rows :: d.time == Earliest(rows)) && forall d | d in rows :: Earliest(rows) <= d.time
    ensures (exists d | d in rows :: d.time == Latest(rows)) && forall d | d in rows :: d.time <= Latest(rows)
  {
    var first, final := TimesAttained(rows);
    forall d | d in rows ensures Earliest(rows) <= d.time <= Latest(rows) {
      TimesBound(rows, d);
    }
    hide Earliest; hide Latest;
  }

  lemma TimesAre(rows: seq<Deal>)
    ensures var entries := Select(rows, (d: Deal) => d.kind == In);
            entries != [] ==>
              && (exists d | d in rows :: d.kind == In && d.time == Earliest(entries))
              && (forall d | d in rows && d.kind == In :: Earliest(entries) <= d.time)
    ensures var exits := Select(rows, (d: Deal) => d.kind in {Out, OutBy});
            exits != [] ==>
              && (exists d | d in rows :: (d.kind == Out || d.kind == OutBy) && d.time == Latest(exits))
              && (forall d | d in rows && (d.kind == Out || d.kind == OutBy) :: d.time <= Latest(exits))
  {
    var entries := Select(rows, (d: Deal) => d.kind == In);
    var exits := Select(rows, (d: Deal) => d.kind in {Out, OutBy});
    SelectedAre(rows, (d: Deal) => d.kind == In);
    SelectedAre(rows, (d: Deal) => d.kind in {Out, OutBy});
    hide Select;
    if entries != [] { EarliestIs(entries); }
    if exits != [] { EarliestIs(exits); }
  }

  lemma RiskAndLaneAre(rows: seq<Deal>)
    ensures var risks := Select(rows, (d: Deal) => d.risk > 0.0);
            if risks == [] then forall d | d in rows :: d.risk <= 0.0
            else FirstWith(rows, (e: Deal) => e.risk > 0.0, risks[0])
    ensures if exists d | d in rows :: d.lane != ""
            then exists d :: FirstWith(rows, (e: Deal) => e.lane != "", d) && LaneOf(rows) == d.lane
            else LaneOf(rows) == "UNTAGGED"
  {
    hide Select; hide FirstWith;
    SelectedAre(rows, (d: Deal) => d.risk > 0.0);
    SelectedAre(rows, (d: Deal) => d.lane != "");
    var tagged := Select(rows, (d: Deal) => d.lane != "");
    SomeIn(tagged);
    if tagged != [] {
      assert FirstWith(rows, (d: Deal) => d.lane != "", tagged[0]) && tagged[0] in tagged;
    }
    if d :| d in rows && d.lane != "" {
      assert d in tagged;
    }
  }

  /** The order of ids is that of their first difference, a shorter one coming before what extends it. */
  lemma {:induction false} BeforeIff(a: string, b: string)
    ensures Before(a, b) <==> (a < b) || exists k :: 0 <= k < |a| && k < |b| && a[..k] == b[..k] && a[k] < b[k]
    decreases |a|
  {
    if a != [] && b != [] && a[0] == b[0] {
      BeforeIff(a[1..], b[1..]);
      if k :| 0 <= k < |a| && k < |b| && a[..k] == b[..k] && a[k] < b[k] {
        assert k > 0 && a[1..][..k - 1] == a[..k][1..] == b[..k][1..] == b[1..][..k - 1];
        assert a[1..][k - 1] < b[1..][k - 1];
      }
      if k :| 0 <= k < |a[1..]| && k < |b[1..]| && a[1..][..k] == b[1..][..k] && a[1..][k] < b[1..][k] {
        assert a[..k + 1] == [a[0]] + a[1..][..k] == [b[0]] + b[1..][..k] == b[..k + 1];
        assert a[k + 1] < b[k + 1];
      }
      assert a[1..] < b[1..] <==> a < b by { Prefixes(a, b); }
    } else if a != [] && b != [] {
      if a[0] < b[0] {
        assert a[..0] == b[..0];
      }
      if k :| 0 <= k < |a| && k < |b| && a[..k] == b[..k] && a[k] < b[k] {
        if k > 0 { SameStart(a, b, k); }
      }
    }
  }

  lemma SameStart(a: string, b: string, k: nat)
    requires 0 < k <= |a| && k <= |b| && a[..k] == b[..k]
    ensures a[0] == b[0]
  {
    assert a[..k][0] == b[..k][0];
  }

  lemma Prefixes(a: string, b: string)
    requires a != [] && b != [] && a[0] == b[0]
    ensures a[1..] < b[1..] <==> a < b
  {
    if a < b {
      assert b[1..][..|a| - 1] == b[..|a|][1..];
    }
    if a[1..] < b[1..] {
      assert b[..|a|] == [b[0]] + b[1..][..|a| - 1];
      assert a == [a[0]] + a[1..];
    }
  }

  /** A result within 1e-7 of zero is neither a win nor a loss. */
  lemma KindsOfResult(p: Position)
    ensures LedgerMetrics.Win(p) <==> p.net > 0.0000001
    ensures LedgerMetrics.Loss(p) <==> p.net < -0.0000001
    ensures LedgerMetrics.Flat(p) <==> -0.0000001 <= p.net <= 0.0000001
  {
  }
}
