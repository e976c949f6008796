/** Positions out of a deal ledger: grouping, classification and canonical order. */
module PositionLedger {
  import opened Common

  datatype Kind = In | Out | OutBy | InOut

  /** A deal row. `row` is its line in the file. */
  datatype Deal = Deal(position: string, time: int, kind: Kind, volume: real, profit: real, commission: real,
                       swap: real, fee: real, risk: real, lane: string, row: nat)
  {
    function Net(): real { profit + commission + swap + fee }
  }

  datatype Position = Position(id: string, openedAt: int, closedAt: int, opening: real, closing: real, rows: nat,
                               exitRows: nat, gross: real, commission: real, swap: real, fee: real, net: real,
                               risk: Option<real>, lane: string)

  datatype Reason = OpenPosition | IncompleteVolume | InoutAmbiguous

  datatype Class = Ignored(reason: Reason) | Complete(position: Position) | Inconsistent

  datatype Report = Report(positions: seq<Position>, ignored: map<Reason, nat>)

  const EPS: real := 0.0000001
  const UNTAGGED: string := "UNTAGGED"

  // ----- Orders -----

  /** Python's order on strings, and its pairs (time, row) and (closed at, id). */
  predicate Before(a: string, b: string) {
    b != [] && (a == [] || a[0] < b[0] || (a[0] == b[0] && Before(a[1..], b[1..])))
  }

  lemma {:induction false} BeforeIsTotal(a: string, b: string)
    ensures a == b || Before(a, b) || Before(b, a)
    ensures !(Before(a, b) && Before(b, a)) && !Before(a, a)
    decreases |a| + |b|
  {
    if a != [] && b != [] && a[0] == b[0] {
      BeforeIsTotal(a[1..], b[1..]);
      assert a == [a[0]] + a[1..] && b == [b[0]] + b[1..];
    }
    if a != [] {
      BeforeIsIrreflexive(a);
    }
  }

  lemma {:induction false} BeforeIsIrreflexive(a: string)
    ensures !Before(a, a)
  {
    if a != [] {
      BeforeIsIrreflexive(a[1..]);
    }
  }

  lemma {:induction false} BeforeIsTransitive(a: string, b: string, c: string)
    requires Before(a, b) && Before(b, c)
    ensures Before(a, c)
    decreases |a|
  {
    if a != [] && a[0] == b[0] == c[0] {
      BeforeIsTransitive(a[1..], b[1..], c[1..]);
    }
  }

  predicate DealPrecedes(a: Deal, b: Deal) {
    a.time < b.time || (a.time == b.time && a.row < b.row)
  }

  predicate PositionPrecedes(a: Position, b: Position) {
    a.closedAt < b.closedAt || (a.closedAt == b.closedAt && Before(a.id, b.id))
  }

  predicate DealsSorted(s: seq<Deal>) {
    forall i, j | 0 <= i < j < |s| :: DealPrecedes(s[i], s[j])
  }

  predicate PositionsSorted(s: seq<Position>) {
    forall i, j | 0 <= i < j < |s| :: PositionPrecedes(s[i], s[j])
  }

  // ----- One group -----

  function Sum(rows: seq<Deal>, f: Deal -> real): real {
    if rows == [] then 0.0 else Sum(rows[..|rows| - 1], f) + f(rows[|rows| - 1])
  }

  function Select(rows: seq<Deal>, keep: Deal -> bool): seq<Deal> {
    if rows == [] then []
    else Select(rows[..|rows| - 1], keep) + (if keep(rows[|rows| - 1]) then [rows[|rows| - 1]] else [])
  }

  function Earliest(rows: seq<Deal>): int
    requires rows != []
  {
    var last := rows[|rows| - 1].time;
    if |rows| == 1 then last else var before := Earliest(rows[..|rows| - 1]); if last < before then last else before
  }

  function Latest(rows: seq<Deal>): int
    requires rows != []
  {
    var last := rows[|rows| - 1].time;
    if |rows| == 1 then last else var before := Latest(rows[..|rows| - 1]); if last > before then last else before
  }

  function LeastRisk(rows: seq<Deal>): real
    requires rows != []
  {
    if |rows| == 1 then rows[0].risk else Min(LeastRisk(rows[..|rows| - 1]), rows[|rows| - 1].risk)
  }

  function GreatestRisk(rows: seq<Deal>): real
    requires rows != []
  {
    if |rows| == 1 then rows[0].risk else Max(GreatestRisk(rows[..|rows| - 1]), rows[|rows| - 1].risk)
  }

  predicate RisksDiffer(risks: seq<Deal>) {
    risks != [] && GreatestRisk(risks) - LeastRisk(risks) > Max(0.01, GreatestRisk(risks) * 0.01)
  }

  function Lanes(rows: seq<Deal>): set<string> { set d | d in rows && d.lane != "" :: d.lane }

  function LaneOf(rows: seq<Deal>): string {
    var tagged := Select(rows, (d: Deal) => d.lane != "");
    if tagged == [] then UNTAGGED else tagged[0].lane
  }

  /** The verdict on the rows of one position, in time order. */
  function ClassOf(id: string, rows: seq<Deal>, isOpen: bool): Class {
    var entries, exits := Select(rows, (d: Deal) => d.kind == In), Select(rows, (d: Deal) => d.kind in {Out, OutBy});
    var opening, closing := Sum(entries, (d: Deal) => d.volume), Sum(exits, (d: Deal) => d.volume);
    var tolerance, risks := Max(EPS, opening * 0.00001), Select(rows, (d: Deal) => d.risk > 0.0);
    if isOpen then Ignored(OpenPosition)
    else if exists d | d in rows :: d.kind == InOut then Ignored(InoutAmbiguous)
    else if entries == [] || exits == [] || opening <= 0.0 || closing + tolerance < opening
    then Ignored(IncompleteVolume)
    else if closing > opening + tolerance then Ignored(InoutAmbiguous)
    else if RisksDiffer(risks) || |Lanes(rows)| > 1 then Inconsistent
    else Complete(Position(id, Earliest(entries), Latest(exits), opening, closing, |rows|, |exits|,
                           Sum(rows, (d: Deal) => d.profit), Sum(rows, (d: Deal) => d.commission),
                             Sum(rows, (d: Deal) => d.swap),
                           Sum(rows, (d: Deal) => d.fee), Sum(rows, (d: Deal) => d.Net()),
                           if risks == [] then None else Some(risks[0].risk), LaneOf(rows)))
  }

  /** In a completed position nothing is left open: what was closed is what was opened, up to the
      tolerance; its profit, commission, swap and fee make up its net; and every row has been used. */
  lemma CompletedIsClosed(id: string, rows: seq<Deal>, isOpen: bool)
    requires ClassOf(id, rows, isOpen).Complete?
    ensures var p := ClassOf(id, rows, isOpen).position;
            && !isOpen && p.id == id && p.opening > 0.0
            && Abs(p.closing - p.opening) <= Max(EPS, p.opening * 0.00001)
            && p.net == p.gross + p.commission + p.swap + p.fee
            && p.rows == |rows| && 0 < p.exitRows < p.rows
  {
    NetIsSum(rows);
    EntriesAndExits(rows);
  }

  lemma {:induction false} NetIsSum(rows: seq<Deal>)
    ensures Sum(rows, (d: Deal) => d.Net()) == Sum(rows, (d: Deal) => d.profit) + Sum(rows, (d: Deal) => d.commission)
                                              + Sum(rows, (d: Deal) => d.swap) + Sum(rows, (d: Deal) => d.fee)
  {
    if rows != [] {
      NetIsSum(rows[..|rows| - 1]);
    }
  }

  lemma {:induction false} EntriesAndExits(rows: seq<Deal>)
    ensures |Select(rows, (d: Deal) => d.kind == In)| + |Select(rows, (d: Deal) => d.kind in {Out, OutBy})| <= |rows|
  {
    if rows != [] {
      EntriesAndExits(rows[..|rows| - 1]);
    }
  }

  // ----- All groups -----

  predicate DistinctRows(deals: seq<Deal>) {
    forall i, j | 0 <= i < j < |deals| :: deals[i].row != deals[j].row
  }

  function Ids(deals: seq<Deal>): set<string> { set d | d in deals :: d.position }

  /** The rows of one position, in time order. */
  ghost predicate IsGroup(deals: seq<Deal>, id: string, rows: seq<Deal>) {
    DealsSorted(rows) && forall d :: d in rows <==> d in deals && d.position == id
  }

  /** The groups of a ledger. */
  ghost predicate AreGroups(deals: seq<Deal>, groups: map<string, seq<Deal>>) {
    groups.Keys == Ids(deals) && forall id | id in groups :: IsGroup(deals, id, groups[id])
  }

  function Classes(groups: map<string, seq<Deal>>, openIds: set<string>): map<string, Class> {
    map id | id in groups :: ClassOf(id, groups[id], id in openIds)
  }

  function WithReason(classes: map<string, Class>, reason: Reason): set<string> {
    set id | id in classes && classes[id] == Ignored(reason)
  }

  function Completed(classes: map<string, Class>): set<string> {
    set id | id in classes && classes[id].Complete?
  }

  /** The completed positions, in order. */
  ghost predicate Listed(classes: map<string, Class>, positions: seq<Position>) {
    && PositionsSorted(positions)
    && (forall p | p in positions :: p.id in classes && classes[p.id] == Complete(p))
    && (forall id | id in classes && classes[id].Complete? :: classes[id].position in positions)
    && |positions| == |Completed(classes)|
  }

  /** How many were ignored, for each reason. */
  ghost predicate Counted(classes: map<string, Class>, ignored: map<Reason, nat>) {
    && ignored.Keys == {OpenPosition, IncompleteVolume, InoutAmbiguous}
    && forall reason | reason in ignored :: ignored[reason] == |WithReason(classes, reason)|
  }

  ghost predicate IsReport(classes: map<string, Class>, r: Report) {
    Listed(classes, r.positions) && Counted(classes, r.ignored)
  }

  method InsertDeal(s: seq<Deal>, d: Deal) returns (r: seq<Deal>)
    requires DealsSorted(s) && forall e | e in s :: e.row != d.row
    ensures DealsSorted(r) && forall e :: e in r <==> e in s || e == d
  {
    var i := |s|;
    while i > 0 && DealPrecedes(d, s[i - 1])
      invariant 0 <= i <= |s| && forall k | i <= k < |s| :: DealPrecedes(d, s[k])
    {
      i := i - 1;
    }
    assert i > 0 ==> s[i - 1] in s;
    r := s[..i] + [d] + s[i..];
    InsertedMembers(s, i, d);
    forall j, k | 0 <= j < k < |r| ensures DealPrecedes(r[j], r[k]) {
      assert r[j] == if j < i then s[j] else if j == i then d else s[j - 1];
      assert r[k] == if k < i then s[k] else if k == i then d else s[k - 1];
      assert 0 < i && j < i - 1 ==> DealPrecedes(s[j], s[i - 1]);
    }
  }

  method InsertPosition(s: seq<Position>, p: Position) returns (r: seq<Position>)
    requires PositionsSorted(s) && forall q | q in s :: q.id != p.id
    ensures PositionsSorted(r) && |r| == |s| + 1 && forall q :: q in r <==> q in s || q == p
  {
    var i := |s|;
    while i > 0 && PositionPrecedes(p, s[i - 1])
      invariant 0 <= i <= |s| && forall k | i <= k < |s| :: PositionPrecedes(p, s[k])
    {
      i := i - 1;
    }
    if i > 0 {
      assert s[i - 1] in s;
      BeforeIsTotal(s[i - 1].id, p.id);
    }
    r := s[..i] + [p] + s[i..];
    InsertedMembers(s, i, p);
    forall j, k | 0 <= j < k < |r| ensures PositionPrecedes(r[j], r[k]) {
      assert r[j] == if j < i then s[j] else if j == i then p else s[j - 1];
      assert r[k] == if k < i then s[k] else if k == i then p else s[k - 1];
      if 0 < i && j < i - 1 && k == i {
        PrecedesTransitively(s[j], s[i - 1], p);
      }
    }
  }

  lemma PrecedesTransitively(a: Position, b: Position, c: Position)
    requires PositionPrecedes(a, b) && PositionPrecedes(b, c)
    ensures PositionPrecedes(a, c)
  {
    if a.closedAt == b.closedAt == c.closedAt {
      BeforeIsTransitive(a.id, b.id, c.id);
    }
  }

  lemma GroupsGrow(seen: seq<Deal>, groups: map<string, seq<Deal>>, d: Deal, rows: seq<Deal>)
    requires AreGroups(seen, groups) && DealsSorted(rows)
    requires forall e :: e in rows <==> (d.position in groups && e in groups[d.position]) || e == d
    ensures AreGroups(seen + [d], groups[d.position := rows])
  {
    hide DealsSorted; hide IsGroup; hide Ids;
    var after := groups[d.position := rows];
    IdsGrow(seen, d);
    forall id | id in after ensures IsGroup(seen + [d], id, after[id]) {
      var known := d.position in groups;
      GroupGrows(seen, known, if known then groups[d.position] else [], id, after[id], d);
    }
  }

  lemma IdsGrow(seen: seq<Deal>, d: Deal)
    ensures Ids(seen + [d]) == Ids(seen) + {d.position}
    ensures forall e | e in seen :: e.position in Ids(seen)
  {
    assert d in seen + [d];
  }

  lemma GroupGrows(seen: seq<Deal>, known: bool, was: seq<Deal>, id: string, rows: seq<Deal>, d: Deal)
    requires id != d.position ==> IsGroup(seen, id, rows)
    requires id == d.position ==> DealsSorted(rows) && forall e :: e in rows <==> e in was || e == d
    requires id == d.position ==> if known then IsGroup(seen, id, was)
             else was == [] && forall e | e in seen :: e.position != id
    ensures IsGroup(seen + [d], id, rows)
  {
    hide DealsSorted;
  }

  /** The grouping loop; each group is kept in (time, row) order, as its sort leaves it. */
  method Group(deals: seq<Deal>) returns (groups: map<string, seq<Deal>>)
    requires DistinctRows(deals)
    ensures AreGroups(deals, groups)
  {
    groups := map[];
    for n := 0 to |deals|
      invariant AreGroups(deals[..n], groups)
    {
      var d := deals[n];
      assert deals[..n + 1] == deals[..n] + [d];
      var rows := if d.position in groups then groups[d.position] else [];
      assert d.position in groups ==> IsGroup(deals[..n], d.position, rows);
      forall e | e in rows ensures e.row != d.row {
        var k :| 0 <= k < n && deals[..n][k] == e;
      }
      rows := InsertDeal(rows, d);
      GroupsGrow(deals[..n], groups, d, rows);
      groups := groups[d.position := rows];
    }
    assert deals[..|deals|] == deals;
  }

  /** Book one verdict: count the ignored group, or put the completed position in its place. */
  method Book(ghost done: map<string, Class>, positions: seq<Position>, ignored: map<Reason, nat>, id: string,
              verdict: Class)
    returns (listed: seq<Position>, counted: map<Reason, nat>)
    requires Listed(done, positions) && Counted(done, ignored) && id !in done && verdict != Inconsistent
    requires verdict.Complete? ==> verdict.position.id == id
    ensures Listed(done[id := verdict], listed) && Counted(done[id := verdict], counted)
  {
    listed, counted := positions, ignored;
    OneMoreCounted(done, ignored, id, verdict);
    if verdict.Ignored? {
      OneMoreUnlisted(done, positions, id, verdict.reason);
      counted := ignored[verdict.reason := ignored[verdict.reason] + 1];
    } else {
      listed := InsertPosition(positions, verdict.position);
      OneMoreListed(done, positions, id, verdict.position, listed);
    }
  }

  /** The loop over groups, and the final sort. Raises exactly when a group is inconsistent. */
  method ReconstructPositions(deals: seq<Deal>, openIds: set<string>)
    returns (r: Outcome<Report>, ghost groups: map<string, seq<Deal>>)
    requires DistinctRows(deals)
    ensures AreGroups(deals, groups)
    ensures r.Raised? <==> exists id | id in groups :: Classes(groups, openIds)[id] == Inconsistent
    ensures r.Raised? ==> r.error == ValueError
    ensures r.Ok? ==> IsReport(Classes(groups, openIds), r.value)
  {
    hide Listed; hide Counted; hide ClassOf; hide AreGroups; hide Classes; hide DistinctRows; hide PositionsSorted;
    var grouped := Group(deals);
    groups := grouped;
    ghost var classes := Classes(groups, openIds);
    var positions: seq<Position> := [];
    var ignored := map[OpenPosition := 0, IncompleteVolume := 0, InoutAmbiguous := 0];
    var done: map<string, Class> := map[];
    NothingReported();
    ClassesAre(grouped, openIds);
    var rest := grouped.Keys;
    while rest != {}
      invariant rest <= grouped.Keys && done.Keys == grouped.Keys - rest
                && forall id | id in done :: done[id] == classes[id] != Inconsistent
      invariant Listed(done, positions) && Counted(done, ignored)
      decreases |rest|
    {
      var id :| id in rest;
      rest := rest - {id};
      var verdict := ClassOf(id, grouped[id], id in openIds);
      assert classes[id] == verdict;
      if verdict == Inconsistent { return Raised(ValueError), groups; }
      CompletedHasId(id, grouped[id], id in openIds);
      positions, ignored := Book(done, positions, ignored, id, verdict);
      done := done[id := verdict];
    }
    SameClasses(done, classes);
    r := Ok(Report(positions, ignored));
  }

  lemma ClassesAre(groups: map<string, seq<Deal>>, openIds: set<string>)
    ensures Classes(groups, openIds).Keys == groups.Keys
    ensures forall id | id in groups :: Classes(groups, openIds)[id] == ClassOf(id, groups[id], id in openIds)
  {
    hide ClassOf;
  }

  lemma SameClasses(a: map<string, Class>, b: map<string, Class>)
    requires a.Keys == b.Keys && forall id | id in a :: a[id] == b[id]
    ensures a == b
  {
  }

  lemma NothingReported()
    ensures Listed(map[], []) && Counted(map[], map[OpenPosition := 0, IncompleteVolume := 0, InoutAmbiguous := 0])
  {
    assert Completed(map[]) == {};
    assert forall reason: Reason :: WithReason(map[], reason) == {};
  }

  lemma OneMoreReason(classes: map<string, Class>, id: string, verdict: Class, reason: Reason)
    requires id !in classes
    ensures |WithReason(classes[id := verdict], reason)|
            == |WithReason(classes, reason)| + (if verdict == Ignored(reason) then 1 else 0)
  {
    assert WithReason(classes[id := verdict], reason)
        == if verdict == Ignored(reason) then WithReason(classes, reason) + {id} else WithReason(classes, reason);
  }

  lemma OneMoreCounted(classes: map<string, Class>, ignored: map<Reason, nat>, id: string, verdict: Class)
    requires Counted(classes, ignored) && id !in classes
    ensures verdict.Ignored? ==>
              && verdict.reason in ignored
              && Counted(classes[id := verdict], ignored[verdict.reason := ignored[verdict.reason] + 1])
    ensures !verdict.Ignored? ==> Counted(classes[id := verdict], ignored)
  {
    hide WithReason;
    OneMoreReason(classes, id, verdict, OpenPosition);
    OneMoreReason(classes, id, verdict, IncompleteVolume);
    OneMoreReason(classes, id, verdict, InoutAmbiguous);
    if verdict.Ignored? {
      match verdict.reason case OpenPosition => case IncompleteVolume => case InoutAmbiguous =>
    }
  }

  lemma OneMoreUnlisted(classes: map<string, Class>, positions: seq<Position>, id: string, reason: Reason)
    requires Listed(classes, positions) && id !in classes
    ensures Listed(classes[id := Ignored(reason)], positions)
  {
    hide PositionsSorted;
    assert Completed(classes[id := Ignored(reason)]) == Completed(classes);
  }

  lemma OneMoreListed(classes: map<string, Class>, before: seq<Position>, id: string, p: Position,
                      positions: seq<Position>)
    requires Listed(classes, before) && id !in classes && p.id == id && PositionsSorted(positions)
             && |positions| == |before| + 1
    requires forall q :: q in positions <==> q in before || q == p
    ensures Listed(classes[id := Complete(p)], positions)
  {
    hide PositionsSorted;
    assert Completed(classes[id := Complete(p)]) == Completed(classes) + {id};
  }

  lemma CompletedHasId(id: string, rows: seq<Deal>, isOpen: bool)
    ensures ClassOf(id, rows, isOpen).Complete? ==> ClassOf(id, rows, isOpen).position.id == id
  {
  }

  // ----- What a report guarantees -----

  /** Every position id is accounted for once: as a completed position, or ignored for one reason. */
  lemma EveryIdIsAccountedFor(deals: seq<Deal>, groups: map<string, seq<Deal>>, openIds: set<string>, r: Report)
    requires AreGroups(deals, groups) && IsReport(Classes(groups, openIds), r)
    requires forall id | id in groups :: Classes(groups, openIds)[id] != Inconsistent
    ensures |Ids(deals)|
            == |r.positions| + r.ignored[OpenPosition] + r.ignored[IncompleteVolume] + r.ignored[InoutAmbiguous]
  {
    var classes := Classes(groups, openIds);
    hide ClassOf; hide PositionsSorted;
    assert Ids(deals) == classes.Keys;
    EveryClassCounts(classes);
  }

  lemma EveryClassCounts(classes: map<string, Class>)
    requires forall id | id in classes :: classes[id] != Inconsistent
    ensures |classes.Keys|
            == |Completed(classes)| + |WithReason(classes, OpenPosition)| + |WithReason(classes, IncompleteVolume)|
                              + |WithReason(classes, InoutAmbiguous)|
  {
    var a, b, c, d := Completed(classes), WithReason(classes, OpenPosition), WithReason(classes, IncompleteVolume),
      WithReason(classes, InoutAmbiguous);
    forall id | id in classes ensures id in a + b + c + d {
      if classes[id].Ignored? {
        match classes[id].reason case OpenPosition => case IncompleteVolume => case InoutAmbiguous =>
      }
    }
    assert classes.Keys == a + b + c + d;
    assert |a + b| == |a| + |b| && |a + b + c| == |a + b| + |c|;
  }

  lemma SomeIn<T>(s: seq<T>)
    ensures s == [] || exists x :: x in s
  {
    if s != [] {
      assert s[0] in s;
    }
  }

  lemma {:induction false} SortedDealsAreCanonical(a: seq<Deal>, b: seq<Deal>)
    requires DealsSorted(a) && DealsSorted(b) && forall d :: d in a <==> d in b
    ensures a == b
    decreases |a|
  {
    if a == [] {
      SomeIn(b);
    } else {
      assert a[0] in b && (b != [] ==> b[0] in a);
      assert a[0] == b[0];
      forall d ensures d in a[1..] <==> d in b[1..] {
        assert d in a <==> d == a[0] || d in a[1..];
        assert d in b <==> d == b[0] || d in b[1..];
        assert a[0] !in a[1..] && b[0] !in b[1..];
      }
      SortedDealsAreCanonical(a[1..], b[1..]);
    }
  }

  lemma PositionPrecedesStrictly(p: Position)
    ensures !PositionPrecedes(p, p)
  {
    BeforeIsIrreflexive(p.id);
  }

  lemma PositionOrderIsAsymmetric(p: Position, q: Position)
    ensures !(PositionPrecedes(p, q) && PositionPrecedes(q, p))
  {
    BeforeIsTotal(p.id, q.id);
  }

  lemma {:induction false} SortedPositionsAreCanonical(a: seq<Position>, b: seq<Position>)
    requires PositionsSorted(a) && PositionsSorted(b) && forall p :: p in a <==> p in b
    ensures a == b
    decreases |a|
  {
    hide PositionPrecedes;
    if a == [] {
      SomeIn(b);
    } else {
      assert a[0] in b && (b != [] ==> b[0] in a);
      PositionOrderIsAsymmetric(a[0], b[0]);
      assert a[0] == b[0];
      forall p ensures p in a[1..] <==> p in b[1..] {
        assert p in a <==> p == a[0] || p in a[1..];
        assert p in b <==> p == b[0] || p in b[1..];
        PositionPrecedesStrictly(a[0]);
        assert a[0] !in a[1..] && b[0] !in b[1..];
      }
      SortedPositionsAreCanonical(a[1..], b[1..]);
    }
  }

  /** The order of the rows in the file does not matter: ledgers with the same rows have the same
      groups and the same report. */
  lemma RowOrderIsIrrelevant(deals: seq<Deal>, other: seq<Deal>, groups: map<string, seq<Deal>>,
                             others: map<string, seq<Deal>>, openIds: set<string>, r: Report, s: Report)
    requires forall d :: d in deals <==> d in other
    requires AreGroups(deals, groups) && AreGroups(other, others)
    ensures groups == others
    ensures IsReport(Classes(groups, openIds), r) && IsReport(Classes(others, openIds), s) ==> r == s
  {
    hide DealsSorted; hide ClassOf;
    assert Ids(deals) == Ids(other);
    forall id | id in groups ensures groups[id] == others[id] {
      assert IsGroup(deals, id, groups[id]) && IsGroup(other, id, others[id]);
      SortedDealsAreCanonical(groups[id], others[id]);
    }
    assert groups == others;
    if IsReport(Classes(groups, openIds), r) && IsReport(Classes(others, openIds), s) {
      SameReports(Classes(groups, openIds), r, s);
    }
  }

  lemma SameReports(classes: map<string, Class>, r: Report, s: Report)
    requires IsReport(classes, r) && IsReport(classes, s)
    ensures r == s
  {
    SortedPositionsAreCanonical(r.positions, s.positions);
    assert r.ignored == s.ignored;
  }
}
