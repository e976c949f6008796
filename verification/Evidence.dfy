/** The train / validation / locked out-of-sample partition of tester trades: what may be seen when. */
module Evidence {
  import opened Common

  type Time = int

  datatype Fold = Fold(id: int, trainStart: Time, trainEnd: Time, validationStart: Time, validationEnd: Time)

  datatype Trade = Trade(id: string, entered: Time, resolved: Time)

  datatype Role = LockedOos | Train | Validation

  /** A row of the output: a trade in one role of one fold; the locked window has no fold. */
  datatype Emitted = Emitted(trade: Trade, role: Role, fold: Option<int>)

  /** The declared windows beside the folds. */
  datatype Windows = Windows(periodStart: Time, periodEnd: Time, oosStart: Time, oosEnd: Time,
                             excluded: seq<(Time, Time)>)

  datatype Tally = Tally(output: seq<Emitted>, excluded: nat, censoredRows: nat, censoredAssignments: nat)

  predicate Contains(t: Time, start: Time, end: Time) { start <= t < end }

  // ----- _validate_folds -----

  predicate Ordered(f: Fold, periodStart: Time, oosStart: Time) {
    periodStart <= f.trainStart < f.trainEnd <= f.validationStart < f.validationEnd <= oosStart
  }

  predicate FoldOk(f: Fold, periodStart: Time, oosStart: Time) {
    1 <= f.id <= 1000 && Ordered(f, periodStart, oosStart)
  }

  predicate DistinctFolds(folds: seq<Fold>) {
    forall i, j | 0 <= i < j < |folds| :: folds[i].id != folds[j].id
  }

  predicate SortedFolds(folds: seq<Fold>) {
    forall i, j | 0 <= i < j < |folds| :: folds[i].id < folds[j].id
  }

  method Insert(folds: seq<Fold>, f: Fold) returns (r: seq<Fold>)
    requires SortedFolds(folds) && forall g | g in folds :: g.id != f.id
    ensures SortedFolds(r) && |r| == |folds| + 1 && forall g :: g in r <==> g in folds || g == f
  {
    var i := |folds|;
    while i > 0 && f.id < folds[i - 1].id
      invariant 0 <= i <= |folds| && forall k | i <= k < |folds| :: f.id < folds[k].id
    {
      i := i - 1;
    }
    assert i > 0 ==> folds[i - 1] in folds;
    r := folds[..i] + [f] + folds[i..];
    InsertedInOrder(folds, i, f);
  }

  lemma InsertedInOrder(folds: seq<Fold>, i: nat, f: Fold)
    requires i <= |folds| && SortedFolds(folds)
    requires (i > 0 ==> folds[i - 1].id < f.id) && forall k | i <= k < |folds| :: f.id < folds[k].id
    ensures SortedFolds(folds[..i] + [f] + folds[i..])
    ensures forall g :: g in folds[..i] + [f] + folds[i..] <==> g in folds || g == f
  {
    var r := folds[..i] + [f] + folds[i..];
    forall j, k | 0 <= j < k < |r| ensures r[j].id < r[k].id {
      assert r[j] == if j < i then folds[j] else if j == i then f else folds[j - 1];
      assert r[k] == if k < i then folds[k] else if k == i then f else folds[k - 1];
      assert 0 < i && j < i - 1 ==> folds[j].id < folds[i - 1].id;
    }
    hide SortedFolds;
    InsertedMembers(folds, i, f);
  }

  /** Accepts exactly distinct folds whose windows are in order, and returns them sorted by id. */
  method ValidateFolds(folds: seq<Fold>, periodStart: Time, oosStart: Time) returns (r: Outcome<seq<Fold>>)
    ensures r.Ok? <==> DistinctFolds(folds) && forall f | f in folds :: FoldOk(f, periodStart, oosStart)
    ensures r.Raised? ==> r.error == ValueError
    ensures r.Ok? ==> SortedFolds(r.value) && |r.value| == |folds| && forall f :: f in r.value <==> f in folds
  {
    var sorted: seq<Fold> := [];
    var seen: set<int> := {};
    for n := 0 to |folds|
      invariant forall k | 0 <= k < n :: FoldOk(folds[k], periodStart, oosStart)
      invariant DistinctFolds(folds[..n]) && seen == set k | 0 <= k < n :: folds[k].id
      invariant SortedFolds(sorted) && |sorted| == n && forall f :: f in sorted <==> f in folds[..n]
    {
      var f := folds[n];
      assert f in folds && folds[..n + 1] == folds[..n] + [f];
      if !(1 <= f.id <= 1000) { return Raised(ValueError); }
      if f.id in seen {
        return Raised(ValueError);
      }
      seen := seen + {f.id};
      if !Ordered(f, periodStart, oosStart) { return Raised(ValueError); }
      forall g | g in sorted ensures g.id != f.id {
        var k :| 0 <= k < n && folds[k] == g;
      }
      sorted := Insert(sorted, f);
    }
    assert folds[..|folds|] == folds;
    r := Ok(sorted);
  }

  // ----- _normalize_candidate_trades -----

  /** A trade opened in a window counts there if it is resolved before the window ends. */
  predicate Matured(t: Trade, start: Time, end: Time) {
    Contains(t.entered, start, end) && t.resolved < end
  }

  predicate Censored(t: Trade, start: Time, end: Time) {
    Contains(t.entered, start, end) && t.resolved >= end
  }

  function One(condition: bool, e: Emitted): seq<Emitted> { if condition then [e] else [] }

  function FoldEmits(t: Trade, f: Fold): seq<Emitted> {
    One(Matured(t, f.trainStart, f.trainEnd), Emitted(t, Train, Some(f.id)))
    + One(Matured(t, f.validationStart, f.validationEnd), Emitted(t, Validation, Some(f.id)))
  }

  function FoldCensors(t: Trade, f: Fold): nat {
    (if Censored(t, f.trainStart, f.trainEnd) then 1 else 0)
    + (if Censored(t, f.validationStart, f.validationEnd) then 1 else 0)
  }

  predicate FoldMatches(t: Trade, f: Fold) {
    Contains(t.entered, f.trainStart, f.trainEnd) || Contains(t.entered, f.validationStart, f.validationEnd)
  }

  function FoldsEmit(t: Trade, folds: seq<Fold>): seq<Emitted> {
    if folds == [] then [] else FoldsEmit(t, folds[..|folds| - 1]) + FoldEmits(t, folds[|folds| - 1])
  }

  function FoldsCensor(t: Trade, folds: seq<Fold>): nat {
    if folds == [] then 0 else FoldsCensor(t, folds[..|folds| - 1]) + FoldCensors(t, folds[|folds| - 1])
  }

  predicate FoldsMatch(t: Trade, folds: seq<Fold>) {
    exists k | 0 <= k < |folds| :: FoldMatches(t, folds[k])
  }

  /** What one trade contributes: a trade opened in the locked window belongs to no fold. */
  function Emits(t: Trade, folds: seq<Fold>, w: Windows): seq<Emitted> {
    if Contains(t.entered, w.oosStart, w.oosEnd) then One(t.resolved < w.oosEnd, Emitted(t, LockedOos, None))
    else FoldsEmit(t, folds)
  }

  function Censors(t: Trade, folds: seq<Fold>, w: Windows): nat {
    if Contains(t.entered, w.oosStart, w.oosEnd) then (if t.resolved < w.oosEnd then 0 else 1)
    else FoldsCensor(t, folds)
  }

  predicate Matches(t: Trade, folds: seq<Fold>, w: Windows) {
    Contains(t.entered, w.oosStart, w.oosEnd) || FoldsMatch(t, folds)
  }

  predicate ExcludedOnPurpose(t: Trade, w: Windows) {
    exists k | 0 <= k < |w.excluded| :: Contains(t.entered, w.excluded[k].0, w.excluded[k].1)
  }

  predicate Acceptable(t: Trade, folds: seq<Fold>, w: Windows) {
    && w.periodStart <= t.entered <= w.periodEnd && t.resolved <= w.periodEnd
    && (Matches(t, folds, w) || ExcludedOnPurpose(t, w))
  }

  function AddTrade(a: Tally, t: Trade, folds: seq<Fold>, w: Windows): Tally {
    var emits, censors := Emits(t, folds, w), Censors(t, folds, w);
    Tally(a.output + emits,
          if Matches(t, folds, w) then a.excluded else a.excluded + 1,
          if Matches(t, folds, w) && emits == [] && censors > 0 then a.censoredRows + 1 else a.censoredRows,
          a.censoredAssignments + censors)
  }

  function Partition(trades: seq<Trade>, folds: seq<Fold>, w: Windows): Tally {
    if trades == [] then Tally([], 0, 0, 0)
    else AddTrade(Partition(trades[..|trades| - 1], folds, w), trades[|trades| - 1], folds, w)
  }

  /** The body of the loop over folds. */
  method AssignTo(t: Trade, f: Fold) returns (output: seq<Emitted>, matched: bool, censors: nat)
    ensures output == FoldEmits(t, f) && matched == FoldMatches(t, f) && censors == FoldCensors(t, f)
  {
    output, matched, censors := [], false, 0;
    if Contains(t.entered, f.trainStart, f.trainEnd) {
      matched := true;
      if t.resolved < f.trainEnd {
        output := output + [Emitted(t, Train, Some(f.id))];
      } else {
        censors := censors + 1;
      }
    }
    if Contains(t.entered, f.validationStart, f.validationEnd) {
      matched := true;
      if t.resolved < f.validationEnd {
        output := output + [Emitted(t, Validation, Some(f.id))];
      } else {
        censors := censors + 1;
      }
    }
  }

  /** The loop over folds for one trade outside the locked window. */
  method Assign(t: Trade, folds: seq<Fold>) returns (output: seq<Emitted>, matched: bool, censors: nat)
    ensures output == FoldsEmit(t, folds) && matched == FoldsMatch(t, folds) && censors == FoldsCensor(t, folds)
  {
    hide FoldEmits; hide FoldMatches; hide FoldCensors;
    output, matched, censors := [], false, 0;
    for n := 0 to |folds|
      invariant output == FoldsEmit(t, folds[..n]) && censors == FoldsCensor(t, folds[..n])
      invariant matched <==> exists k | 0 <= k < n :: FoldMatches(t, folds[k])
    {
      assert folds[..n + 1][..n] == folds[..n];
      var emitted, here, censored := AssignTo(t, folds[n]);
      output, matched, censors := output + emitted, matched || here, censors + censored;
    }
    assert folds[..|folds|] == folds;
  }

  /** Where one trade goes: into the locked window, or through the loop over folds. */
  method Place(t: Trade, folds: seq<Fold>, w: Windows)
    returns (emits: seq<Emitted>, matched: bool, censors: nat)
    ensures emits == Emits(t, folds, w) && matched == Matches(t, folds, w) && censors == Censors(t, folds, w)
  {
    hide FoldsEmit; hide FoldsCensor; hide FoldsMatch;
    emits, matched, censors := [], false, 0;
    if Contains(t.entered, w.oosStart, w.oosEnd) {
      matched := true;
      if t.resolved < w.oosEnd {
        emits := [Emitted(t, LockedOos, None)];
      } else {
        censors := 1;
      }
    } else {
      emits, matched, censors := Assign(t, folds);
    }
  }

  lemma PartitionGrows(trades: seq<Trade>, n: nat, folds: seq<Fold>, w: Windows)
    requires n < |trades|
    ensures Partition(trades[..n + 1], folds, w) == AddTrade(Partition(trades[..n], folds, w), trades[n], folds, w)
  {
    assert trades[..n + 1][..n] == trades[..n];
    hide AddTrade;
  }

  method NormalizeTrades(trades: seq<Trade>, folds: seq<Fold>, w: Windows) returns (r: Outcome<Tally>)
    ensures r.Ok? <==> forall t | t in trades :: Acceptable(t, folds, w)
    ensures r.Raised? ==> r.error == ValueError
    ensures r.Ok? ==> r.value == Partition(trades, folds, w)
  {
    hide Emits; hide Censors; hide Matches; hide ExcludedOnPurpose; hide Contains;
    var a := Tally([], 0, 0, 0);
    for n := 0 to |trades|
      invariant a == Partition(trades[..n], folds, w)
      invariant forall k | 0 <= k < n :: Acceptable(trades[k], folds, w)
    {
      var t := trades[n];
      assert t in trades;
      PartitionGrows(trades, n, folds, w);
      if !(w.periodStart <= t.entered <= w.periodEnd) { return Raised(ValueError); }
      if t.resolved > w.periodEnd { return Raised(ValueError); }
      var emits, matched, censors := Place(t, folds, w);
      if !matched {
        if !ExcludedOnPurpose(t, w) { return Raised(ValueError); }
        a := a.(excluded := a.excluded + 1);
      } else if censors > 0 && emits == [] {
        a := a.(censoredRows := a.censoredRows + 1);
      }
      a := a.(output := a.output + emits, censoredAssignments := a.censoredAssignments + censors);
    }
    assert trades[..|trades|] == trades;
    r := Ok(a);
  }

  // ----- No look-ahead -----

  /** What an emitted row says: its trade opened and was resolved inside the window of its role. */
  ghost predicate Rightful(e: Emitted, folds: seq<Fold>, w: Windows) {
    match e.role
    case LockedOos => e.fold.None? && Matured(e.trade, w.oosStart, w.oosEnd)
    case Train => exists f | f in folds :: e.fold == Some(f.id) && Matured(e.trade, f.trainStart, f.trainEnd)
    case Validation =>
      exists f | f in folds :: e.fold == Some(f.id) && Matured(e.trade, f.validationStart, f.validationEnd)
  }

  lemma {:induction false} FoldRowsAreRightful(t: Trade, folds: seq<Fold>, w: Windows, e: Emitted)
    requires e in FoldsEmit(t, folds)
    ensures e.trade == t && Rightful(e, folds, w)
  {
    var last := |folds| - 1;
    if e in FoldsEmit(t, folds[..last]) {
      FoldRowsAreRightful(t, folds[..last], w, e);
    } else {
      assert e in FoldEmits(t, folds[last]) && folds[last] in folds;
    }
  }

  lemma {:induction false} RowsAreRightful(trades: seq<Trade>, folds: seq<Fold>, w: Windows, e: Emitted)
    requires e in Partition(trades, folds, w).output
    ensures e.trade in trades && Rightful(e, folds, w)
  {
    var last := |trades| - 1;
    if e in Partition(trades[..last], folds, w).output {
      RowsAreRightful(trades[..last], folds, w, e);
    } else {
      assert e in Emits(trades[last], folds, w);
      if !Contains(trades[last].entered, w.oosStart, w.oosEnd) {
        FoldRowsAreRightful(trades[last], folds, w, e);
      }
    }
  }

  ghost predicate FoldsOk(folds: seq<Fold>, w: Windows) {
    DistinctFolds(folds) && forall f | f in folds :: FoldOk(f, w.periodStart, w.oosStart)
  }

  /** Training never sees the validation of its fold: every train row is resolved before any
      validation row of the same fold opens. In particular no trade plays both roles. */
  lemma TrainPrecedesValidation(trades: seq<Trade>, folds: seq<Fold>, w: Windows, a: Emitted, b: Emitted)
    requires FoldsOk(folds, w) && a in Partition(trades, folds, w).output && b in Partition(trades, folds, w).output
    requires a.role == Train && b.role == Validation && a.fold == b.fold
    ensures a.trade.resolved < b.trade.entered
    ensures a.trade != b.trade
  {
    RowsAreRightful(trades, folds, w, a);
    RowsAreRightful(trades, folds, w, b);
    var f :| f in folds && a.fold == Some(f.id) && Matured(a.trade, f.trainStart, f.trainEnd);
    var g :| g in folds && b.fold == Some(g.id) && Matured(b.trade, g.validationStart, g.validationEnd);
    var i :| 0 <= i < |folds| && folds[i] == f;
    var j :| 0 <= j < |folds| && folds[j] == g;
    assert i == j;
  }

  /** Nothing in any fold sees the locked window: every train or validation row is resolved before
      any locked row opens, and none of their trades is a locked one. */
  lemma FoldsPrecedeLockedOos(trades: seq<Trade>, folds: seq<Fold>, w: Windows, a: Emitted, b: Emitted)
    requires FoldsOk(folds, w) && a in Partition(trades, folds, w).output && b in Partition(trades, folds, w).output
    requires a.role != LockedOos && b.role == LockedOos
    ensures a.trade.resolved < b.trade.entered && a.trade != b.trade
  {
    RowsAreRightful(trades, folds, w, a);
    RowsAreRightful(trades, folds, w, b);
    if a.role == Train {
      var f :| f in folds && a.fold == Some(f.id) && Matured(a.trade, f.trainStart, f.trainEnd);
      assert FoldOk(f, w.periodStart, w.oosStart);
    } else {
      var f :| f in folds && a.fold == Some(f.id) && Matured(a.trade, f.validationStart, f.validationEnd);
      assert FoldOk(f, w.periodStart, w.oosStart);
    }
  }

  // ----- Nothing is lost -----

  lemma {:induction false} FoldRowsAreComplete(t: Trade, folds: seq<Fold>, f: Fold)
    requires f in folds
    ensures Matured(t, f.trainStart, f.trainEnd) ==> Emitted(t, Train, Some(f.id)) in FoldsEmit(t, folds)
    ensures Matured(t, f.validationStart, f.validationEnd) ==> Emitted(t, Validation, Some(f.id)) in FoldsEmit(t, folds)
  {
    var last := |folds| - 1;
    if f == folds[last] {
      var train, validation := Emitted(t, Train, Some(f.id)), Emitted(t, Validation, Some(f.id));
      assert Matured(t, f.trainStart, f.trainEnd) ==> FoldEmits(t, f)[0] == train;
      assert Matured(t, f.validationStart, f.validationEnd) ==> FoldEmits(t, f)[|FoldEmits(t, f)| - 1] == validation;
    } else {
      FoldRowsAreComplete(t, folds[..last], f);
    }
  }

  /** Every role a trade has matured in is emitted: the locked one if it opened in the locked window,
      and otherwise each window of each fold. */
  lemma {:induction false} RowsAreComplete(trades: seq<Trade>, folds: seq<Fold>, w: Windows, t: Trade, f: Fold)
    requires t in trades && f in folds
    ensures var output := Partition(trades, folds, w).output;
            && (Matured(t, w.oosStart, w.oosEnd) ==> Emitted(t, LockedOos, None) in output)
            && (!Contains(t.entered, w.oosStart, w.oosEnd) && Matured(t, f.trainStart, f.trainEnd)
                ==> Emitted(t, Train, Some(f.id)) in output)
            && (!Contains(t.entered, w.oosStart, w.oosEnd) && Matured(t, f.validationStart, f.validationEnd) ==>
                  Emitted(t, Validation, Some(f.id)) in output)
  {
    var last := |trades| - 1;
    var before := Partition(trades[..last], folds, w).output;
    assert Partition(trades, folds, w).output == before + Emits(trades[last], folds, w);
    if t == trades[last] {
      FoldRowsAreComplete(t, folds, f);
      if Matured(t, w.oosStart, w.oosEnd) {
        assert Emits(t, folds, w)[0] == Emitted(t, LockedOos, None);
      }
    } else {
      RowsAreComplete(trades[..last], folds, w, t, f);
    }
  }

  /** The trades that are emitted at least once. */
  function EmittedCount(trades: seq<Trade>, folds: seq<Fold>, w: Windows): nat {
    if trades == [] then 0
    else EmittedCount(trades[..|trades| - 1], folds, w) + (if Emits(trades[|trades| - 1], folds, w) != [] then 1 else 0)
  }

  lemma {:induction false} MatchedOrNot(t: Trade, folds: seq<Fold>)
    ensures FoldsMatch(t, folds) <==> FoldsEmit(t, folds) != [] || FoldsCensor(t, folds) > 0
  {
    if folds != [] {
      var last := |folds| - 1;
      MatchedOrNot(t, folds[..last]);
      assert FoldsMatch(t, folds) <==> FoldsMatch(t, folds[..last]) || FoldMatches(t, folds[last]) by {
        if FoldsMatch(t, folds[..last]) {
          var k :| 0 <= k < last && FoldMatches(t, folds[..last][k]);
          assert FoldMatches(t, folds[k]);
        }
        if FoldsMatch(t, folds) && !FoldMatches(t, folds[last]) {
          var k :| 0 <= k < |folds| && FoldMatches(t, folds[k]);
          assert FoldMatches(t, folds[..last][k]);
        }
      }
    }
  }

  /** Conservation: every input row is excluded, or fully censored, or emitted at least once, and
      only one of these. */
  lemma {:induction false} EveryRowIsAccountedFor(trades: seq<Trade>, folds: seq<Fold>, w: Windows)
    ensures var a := Partition(trades, folds, w);
            |trades| == a.excluded + a.censoredRows + EmittedCount(trades, folds, w)
  {
    if trades != [] {
      var last := |trades| - 1;
      EveryRowIsAccountedFor(trades[..last], folds, w);
      MatchedOrNot(trades[last], folds);
    }
  }

  // ----- The partition, on times -----

  /** The fold's windows follow each other, inside the period and before the locked window. */
  lemma FoldOkIff(f: Fold, periodStart: Time, oosStart: Time)
    ensures FoldOk(f, periodStart, oosStart) <==>
              && 0 < f.id < 1001 && periodStart <= f.trainStart && f.trainStart < f.trainEnd
              && f.trainEnd <= f.validationStart && f.validationStart < f.validationEnd && f.validationEnd <= oosStart
  {
  }

  /** The trade opened in the window, and was resolved before it ended, or not. */
  predicate OpenedIn(t: Trade, start: Time, end: Time) { start <= t.entered && t.entered < end }

  predicate ResolvedIn(t: Trade, start: Time, end: Time) { OpenedIn(t, start, end) && t.resolved < end }

  predicate CutOff(t: Trade, start: Time, end: Time) { OpenedIn(t, start, end) && end <= t.resolved }

  predicate Locked(t: Trade, w: Windows) { OpenedIn(t, w.oosStart, w.oosEnd) }

  /** A trade is permitted exactly if it opened and was resolved within the period, and opened in the
      locked window, in a window of some fold, or in one that is excluded on purpose. */
  lemma AcceptableIff(t: Trade, folds: seq<Fold>, w: Windows)
    ensures Acceptable(t, folds, w) <==>
              && w.periodStart <= t.entered && t.entered <= w.periodEnd && t.resolved <= w.periodEnd
              && (|| Placed(t, folds, w)
                  || exists k | 0 <= k < |w.excluded| :: OpenedIn(t, w.excluded[k].0, w.excluded[k].1))
  {
    PlacedIff(t, folds, w);
    if k :| 0 <= k < |w.excluded| && OpenedIn(t, w.excluded[k].0, w.excluded[k].1) {
      assert Contains(t.entered, w.excluded[k].0, w.excluded[k].1);
    }
    if k :| 0 <= k < |w.excluded| && Contains(t.entered, w.excluded[k].0, w.excluded[k].1) {
      assert OpenedIn(t, w.excluded[k].0, w.excluded[k].1);
    }
    hide Matches; hide Placed;
  }

  /** It opened in the locked window, or in a window of some fold. */
  ghost predicate Placed(t: Trade, folds: seq<Fold>, w: Windows) {
    Locked(t, w) || exists f | f in folds :: OpenedInFold(t, f)
  }

  predicate OpenedInFold(t: Trade, f: Fold) {
    OpenedIn(t, f.trainStart, f.trainEnd) || OpenedIn(t, f.validationStart, f.validationEnd)
  }

  lemma PlacedIff(t: Trade, folds: seq<Fold>, w: Windows)
    ensures Matches(t, folds, w) <==> Placed(t, folds, w)
  {
    if k :| 0 <= k < |folds| && FoldMatches(t, folds[k]) {
      assert folds[k] in folds && OpenedInFold(t, folds[k]);
    }
    if f :| f in folds && OpenedInFold(t, f) {
      var k :| 0 <= k < |folds| && folds[k] == f;
      assert FoldMatches(t, folds[k]);
    }
  }

  /** The rows a trade is entitled to. */
  ghost predicate Entitled(e: Emitted, folds: seq<Fold>, w: Windows) {
    match e.role
    case LockedOos => e.fold == None && ResolvedIn(e.trade, w.oosStart, w.oosEnd)
    case Train =>
      !Locked(e.trade, w)
      && exists f | f in folds :: e.fold == Some(f.id) && ResolvedIn(e.trade, f.trainStart, f.trainEnd)
    case Validation =>
      !Locked(e.trade, w)
      && exists f | f in folds :: e.fold == Some(f.id) && ResolvedIn(e.trade, f.validationStart, f.validationEnd)
  }

  lemma {:induction false} FoldsEmitIff(t: Trade, folds: seq<Fold>, w: Windows, e: Emitted)
    requires !Locked(t, w)
    ensures e in FoldsEmit(t, folds) <==> e.trade == t && e.role != LockedOos && Entitled(e, folds, w)
  {
    if folds != [] {
      var last := |folds| - 1;
      var before, f := folds[..last], folds[last];
      FoldsEmitIff(t, before, w, e);
      assert forall g :: g in folds <==> g in before || g == f by {
        InsertedMembers(before, last, f);
        LastAppends(folds);
      }
      assert e in FoldEmits(t, f) <==>
               e.trade == t && e.fold == Some(f.id)
               && ((e.role == Train && ResolvedIn(t, f.trainStart, f.trainEnd))
                   || (e.role == Validation && ResolvedIn(t, f.validationStart, f.validationEnd))) by {
        FoldEmitsIff(t, f, e);
      }
      hide FoldEmits; hide ResolvedIn; hide Locked;
    }
  }

  lemma LastAppends(folds: seq<Fold>)
    requires folds != []
    ensures var last := |folds| - 1;
            folds[..last] + [folds[last]] + folds[..last][last..] == folds
  {
  }

  lemma FoldEmitsIff(t: Trade, f: Fold, e: Emitted)
    ensures e in FoldEmits(t, f) <==>
              && e.trade == t && e.fold == Some(f.id)
              && ((e.role == Train && ResolvedIn(t, f.trainStart, f.trainEnd))
                  || (e.role == Validation && ResolvedIn(t, f.validationStart, f.validationEnd)))
  {
    var train, validation := Emitted(t, Train, Some(f.id)), Emitted(t, Validation, Some(f.id));
    assert e in One(Matured(t, f.trainStart, f.trainEnd), train)
           <==> ResolvedIn(t, f.trainStart, f.trainEnd) && e == train;
    assert e in One(Matured(t, f.validationStart, f.validationEnd), validation)
           <==> ResolvedIn(t, f.validationStart, f.validationEnd) && e == validation;
    hide One;
  }

  lemma EmitsIff(t: Trade, folds: seq<Fold>, w: Windows, e: Emitted)
    ensures e in Emits(t, folds, w) <==> e.trade == t && Entitled(e, folds, w)
  {
    if !Locked(t, w) {
      FoldsEmitIff(t, folds, w, e);
      hide FoldsEmit;
    }
  }

  lemma LastIsMember(trades: seq<Trade>, t: Trade)
    requires trades != []
    ensures t in trades <==> t in trades[..|trades| - 1] || t == trades[|trades| - 1]
  {
    var last := |trades| - 1;
    assert trades == trades[..last] + [trades[last]];
  }

  /** The output has exactly the rows that its trades are entitled to. */
  lemma {:induction false} EmittedIff(trades: seq<Trade>, folds: seq<Fold>, w: Windows, e: Emitted)
    ensures e in Partition(trades, folds, w).output <==> e.trade in trades && Entitled(e, folds, w)
  {
    if trades != [] {
      hide Emits; hide Entitled; hide Censors; hide Matches;
      var last := |trades| - 1;
      var before := Partition(trades[..last], folds, w).output;
      EmittedIff(trades[..last], folds, w, e);
      EmitsIff(trades[last], folds, w, e);
      assert Partition(trades, folds, w).output == before + Emits(trades[last], folds, w);
      LastIsMember(trades, e.trade);
    }
  }

  // ----- Each row once -----

  lemma {:induction false} FoldsEmitOnce(t: Trade, folds: seq<Fold>)
    requires DistinctFolds(folds)
    ensures Distinct(FoldsEmit(t, folds))
    ensures forall e | e in FoldsEmit(t, folds) :: exists f | f in folds :: e.fold == Some(f.id)
  {
    if folds != [] {
      var last := |folds| - 1;
      var before, f := FoldsEmit(t, folds[..last]), folds[last];
      FoldsEmitOnce(t, folds[..last]);
      forall e | e in FoldEmits(t, f) ensures e !in before && e.fold == Some(f.id) {
        FoldEmitsIff(t, f, e);
      }
      FoldEmitsOnce(t, f);
      DistinctJoins(before, FoldEmits(t, f));
      forall e | e in FoldsEmit(t, folds) ensures exists g | g in folds :: e.fold == Some(g.id) {
        if e in before {
          var g :| g in folds[..last] && e.fold == Some(g.id);
          assert g in folds;
        } else {
          assert e in FoldEmits(t, f) && f in folds;
        }
      }
    }
  }

  lemma FoldEmitsOnce(t: Trade, f: Fold)
    ensures Distinct(FoldEmits(t, f))
  {
  }

  lemma DistinctJoins(a: seq<Emitted>, b: seq<Emitted>)
    requires Distinct(a) && Distinct(b) && forall e | e in b :: e !in a
    ensures Distinct(a + b)
  {
    forall i, j | 0 <= i < j < |a + b| ensures (a + b)[i] != (a + b)[j] {
      if i < |a| <= j {
        assert b[j - |a|] in b;
      }
    }
  }

  /** No row is emitted twice, if no trade comes twice and no two folds share an id. */
  lemma {:induction false} EachRowOnce(trades: seq<Trade>, folds: seq<Fold>, w: Windows)
    requires DistinctFolds(folds) && Distinct(trades)
    ensures Distinct(Partition(trades, folds, w).output)
  {
    if trades != [] {
      var last := |trades| - 1;
      var before, t := Partition(trades[..last], folds, w).output, trades[last];
      EachRowOnce(trades[..last], folds, w);
      FoldsEmitOnce(t, folds);
      forall e | e in Emits(t, folds, w) ensures e !in before {
        EmitsIff(t, folds, w, e);
        EmittedIff(trades[..last], folds, w, e);
      }
      hide FoldsEmit; hide DistinctFolds;
      DistinctJoins(before, Emits(t, folds, w));
    }
  }

  // ----- The counts -----

  /** How many trades have a property, and how many windows cut a trade off. */
  ghost function Count(trades: seq<Trade>, p: Trade -> bool): nat {
    if trades == [] then 0 else Count(trades[..|trades| - 1], p) + (if p(trades[|trades| - 1]) then 1 else 0)
  }

  ghost function CutOffs(t: Trade, folds: seq<Fold>): nat {
    if folds == [] then 0
    else
      var f := folds[|folds| - 1];
      CutOffs(t, folds[..|folds| - 1]) + (if CutOff(t, f.trainStart, f.trainEnd) then 1 else 0)
      + (if CutOff(t, f.validationStart, f.validationEnd) then 1 else 0)
  }

  ghost function CutOffsOf(t: Trade, folds: seq<Fold>, w: Windows): nat {
    if Locked(t, w) then (if CutOff(t, w.oosStart, w.oosEnd) then 1 else 0) else CutOffs(t, folds)
  }

  ghost function AllCutOffs(trades: seq<Trade>, folds: seq<Fold>, w: Windows): nat {
    if trades == [] then 0
    else AllCutOffs(trades[..|trades| - 1], folds, w) + CutOffsOf(trades[|trades| - 1], folds, w)
  }

  lemma {:induction false} CensorsAreCutOffs(t: Trade, folds: seq<Fold>)
    ensures FoldsCensor(t, folds) == CutOffs(t, folds)
  {
    if folds != [] {
      CensorsAreCutOffs(t, folds[..|folds| - 1]);
    }
  }

  /** Some row of the trade is emitted. */
  ghost predicate Seen(t: Trade, folds: seq<Fold>, w: Windows) {
    exists e: Emitted :: e.trade == t && Entitled(e, folds, w)
  }

  /** The counts are what they say: the trades that opened in no window; those that opened in some, but
      were cut off by every one they opened in; and all the cut-offs. */
  lemma {:induction false} CountsAre(trades: seq<Trade>, folds: seq<Fold>, w: Windows)
    ensures var a := Partition(trades, folds, w);
            && a.excluded == Count(trades, t => !Placed(t, folds, w))
            && a.censoredRows == Count(trades, t => Placed(t, folds, w) && !Seen(t, folds, w))
            && a.censoredAssignments == AllCutOffs(trades, folds, w)
  {
    if trades != [] {
      var last := |trades| - 1;
      var t := trades[last];
      CountsAre(trades[..last], folds, w);
      PlacedIff(t, folds, w);
      SeenIff(t, folds, w);
      CensorsAreCutOffs(t, folds);
      MatchedOrNot(t, folds);
      assert Censors(t, folds, w) == CutOffsOf(t, folds, w);
      assert Matches(t, folds, w) && Emits(t, folds, w) == [] ==> Censors(t, folds, w) > 0;
      hide Matches; hide Emits; hide Censors; hide CutOffsOf; hide Placed; hide Seen;
    }
  }

  lemma SeenIff(t: Trade, folds: seq<Fold>, w: Windows)
    ensures Seen(t, folds, w) <==> Emits(t, folds, w) != []
  {
    if Emits(t, folds, w) != [] {
      EmitsIff(t, folds, w, Emits(t, folds, w)[0]);
      assert Emits(t, folds, w)[0] in Emits(t, folds, w);
    }
    if e: Emitted :| e.trade == t && Entitled(e, folds, w) {
      EmitsIff(t, folds, w, e);
    }
    hide Emits; hide Entitled;
  }
}
