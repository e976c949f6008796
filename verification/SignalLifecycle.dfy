/** The signal lifecycle, tick by tick, against what its whole price history says it should be. */
module SignalLifecycle {
  import opened Common

  datatype Direction = Buy | Sell

  datatype Status = Active | Invalidated | Expired | Stale | Superseded | Tp1Reached | Tp2Reached | Completed

  datatype Setup = Setup(direction: Direction, entryTop: real, entryBottom: real, invalidation: real, stopLoss: real,
                         tp1: real, tp2: real, finalTp: real, confidence: real, expiry: Option<real>)

  datatype Tick = Tick(price: real, now: real)

  /** The fields of a signal that change. The reason of an invalidation is one constant. */
  datatype Progress = Progress(status: Status, invalidatedAt: Option<real>, tp1At: Option<real>, tp2At: Option<real>,
                               completedAt: Option<real>)

  const EMITTED: Progress := Progress(Active, None, None, None, None)

  /** validate_complete_setup raises exactly when this fails. */
  predicate Complete(s: Setup) {
    && s.entryTop >= s.entryBottom
    && (match s.direction
        case Buy =>
          s.stopLoss < s.entryBottom && s.invalidation < s.entryBottom && s.entryTop < s.tp1 < s.tp2 < s.finalTp
        case Sell =>
          s.stopLoss > s.entryTop && s.invalidation > s.entryTop && s.entryBottom > s.tp1 > s.tp2 > s.finalTp)
    && 0.0 <= s.confidence <= 100.0
  }

  /** On one scale, upward for a buy and downward for a sell, a complete setup has its stop and its
      invalidation below the entry range and its targets, in order, above it. */
  lemma CompleteIff(s: Setup)
    ensures var up := if s.direction == Buy then 1.0 else -1.0;
            var near, far := if s.direction == Buy then s.entryBottom else s.entryTop,
                             if s.direction == Buy then s.entryTop else s.entryBottom;
            Complete(s) <==>
              && up * s.stopLoss < up * near && up * s.invalidation < up * near && up * near <= up * far
              && up * far < up * s.tp1 < up * s.tp2 < up * s.finalTp && 0.0 <= s.confidence <= 100.0
  {
  }

  predicate CrossesInvalidation(d: Direction, price: real, invalidation: real) {
    if d == Buy then price <= invalidation else price >= invalidation
  }

  predicate EntryIsStale(s: Setup, price: real, maxDrift: real) {
    if s.entryBottom <= price <= s.entryTop then false
    else if maxDrift <= 0.0 then false
    else
      var width := Max(s.entryTop - s.entryBottom, TOL_9);
      Min(Abs(price - s.entryTop), Abs(price - s.entryBottom)) > width * (maxDrift / 10000.0)
  }

  predicate Hit(s: Setup, level: real, price: real) {
    if s.direction == Buy then price >= level else price <= level
  }

  function UpdateProgress(s: Setup, p: Progress, t: Tick): Progress {
    var p1 := if p.status == Active && Hit(s, s.tp1, t.price) then p.(status := Tp1Reached, tp1At := Some(t.now))
      else p;
    var p2 := if p1.status == Tp1Reached && Hit(s, s.tp2, t.price) then p1.(status := Tp2Reached, tp2At := Some(t.now))
      else p1;
    if p2.status == Tp2Reached && Hit(s, s.finalTp, t.price) then p2.(status := Completed, completedAt := Some(t.now))
    else p2
  }

  /** evaluate_signal. Its staleness test is made with the default drift tolerance, zero. */
  function Evaluate(s: Setup, p: Progress, t: Tick): Progress {
    if p.status !in {Active, Tp1Reached, Tp2Reached} then p
    else if s.expiry.Some? && t.now >= s.expiry.value then p.(status := Expired)
    else if CrossesInvalidation(s.direction, t.price, s.invalidation)
    then p.(status := Invalidated, invalidatedAt := Some(t.now))
    else if p.status == Active && EntryIsStale(s, t.price, 0.0) then p.(status := Stale)
    else UpdateProgress(s, p, t)
  }

  class Signal {
    const setup: Setup
    var status: Status
    var invalidatedAt: Option<real>
    var tp1At: Option<real>
    var tp2At: Option<real>
    var completedAt: Option<real>

    constructor (setup: Setup)
      ensures this.setup == setup && Snapshot() == EMITTED
    {
      this.setup := setup;
      status, invalidatedAt, tp1At, tp2At, completedAt := Active, None, None, None, None;
    }

    function Snapshot(): Progress
      reads this
    {
      Progress(status, invalidatedAt, tp1At, tp2At, completedAt)
    }

    method UpdateTargetProgress(price: real, now: real)
      modifies this
      ensures Snapshot() == UpdateProgress(setup, old(Snapshot()), Tick(price, now))
    {
      if status == Active && Hit(setup, setup.tp1, price) {
        status, tp1At := Tp1Reached, Some(now);
      }
      if status == Tp1Reached && Hit(setup, setup.tp2, price) {
        status, tp2At := Tp2Reached, Some(now);
      }
      if status == Tp2Reached && Hit(setup, setup.finalTp, price) {
        status, completedAt := Completed, Some(now);
      }
    }

    method EvaluateSignal(price: real, now: real) returns (r: Status)
      modifies this
      ensures Snapshot() == Evaluate(setup, old(Snapshot()), Tick(price, now)) && r == status
    {
      if status !in {Active, Tp1Reached, Tp2Reached} { return status; }
      if setup.expiry.Some? && now >= setup.expiry.value {
        status := Expired;
        return status;
      }
      if CrossesInvalidation(setup.direction, price, setup.invalidation) {
        status, invalidatedAt := Invalidated, Some(now);
        return status;
      }
      if status == Active && EntryIsStale(setup, price, 0.0) {
        // Would become STALE; the default tolerance never lets it.
        assert false;
      }
      UpdateTargetProgress(price, now);
      r := status;
    }

    /** Every tick of a feed, in order. */
    method Follow(ticks: seq<Tick>)
      modifies this
      ensures Snapshot() == Run(setup, old(Snapshot()), ticks)
    {
      for n := 0 to |ticks|
        invariant Snapshot() == Run(setup, old(Snapshot()), ticks[..n])
      {
        assert ticks[..n + 1][..n] == ticks[..n];
        var _ := EvaluateSignal(ticks[n].price, ticks[n].now);
      }
      assert ticks[..|ticks|] == ticks;
    }
  }

  function Run(s: Setup, p: Progress, ticks: seq<Tick>): Progress {
    if ticks == [] then p else Evaluate(s, Run(s, p, ticks[..|ticks| - 1]), ticks[|ticks| - 1])
  }

  // ----- What the history says -----

  predicate Expires(s: Setup, t: Tick) {
    s.expiry.Some? && t.now >= s.expiry.value
  }

  /** A tick that ends a live signal, whatever it reached before. */
  predicate Ends(s: Setup, t: Tick) {
    Expires(s, t) || CrossesInvalidation(s.direction, t.price, s.invalidation) || Hit(s, s.finalTp, t.price)
  }

  function FirstEnd(s: Setup, ticks: seq<Tick>): Option<nat> {
    if ticks == [] then None
    else
      var before := FirstEnd(s, ticks[..|ticks| - 1]);
      if before.Some? then before else if Ends(s, ticks[|ticks| - 1]) then Some(|ticks| - 1) else None
  }

  function FirstHit(s: Setup, level: real, ticks: seq<Tick>): Option<real> {
    if ticks == [] then None
    else
      var before := FirstHit(s, level, ticks[..|ticks| - 1]);
      if before.Some? then before else if Hit(s, level, ticks[|ticks| - 1].price) then Some(ticks[|ticks| - 1].now)
      else None
  }

  /** The most favourable price so far: the highest for a buy, the lowest for a sell. */
  function Best(s: Setup, ticks: seq<Tick>): Option<real> {
    if ticks == [] then None
    else
      var before, price := Best(s, ticks[..|ticks| - 1]), ticks[|ticks| - 1].price;
      if before.None? then Some(price)
      else Some(if s.direction == Buy then Max(before.value, price) else Min(before.value, price))
  }

  /** The furthest target the best price has reached. */
  function Reached(s: Setup, best: Option<real>): Status {
    if best.Some? && Hit(s, s.tp2, best.value) then Tp2Reached
    else if best.Some? && Hit(s, s.tp1, best.value) then Tp1Reached
    else Active
  }

  /** The signal as its history has it: cut at the first tick that ends it; before that, the target
      levels against the best price, each stamped with the first tick that reached it. */
  function History(s: Setup, ticks: seq<Tick>): Progress {
    var end := FirstEnd(s, ticks);
    if end.None? || end.value >= |ticks| then
      Progress(Reached(s, Best(s, ticks)), None, FirstHit(s, s.tp1, ticks), FirstHit(s, s.tp2, ticks), None)
    else
      var t, seen := ticks[end.value], ticks[..end.value];
      var tp1At, tp2At := FirstHit(s, s.tp1, seen), FirstHit(s, s.tp2, seen);
      if Expires(s, t) then Progress(Expired, None, tp1At, tp2At, None)
      else if CrossesInvalidation(s.direction, t.price, s.invalidation)
      then Progress(Invalidated, Some(t.now), tp1At, tp2At, None)
      else Progress(Completed, None, Some(if tp1At.Some? then tp1At.value else t.now),
                    Some(if tp2At.Some? then tp2At.value else t.now), Some(t.now))
  }

  /** FirstEnd is the first tick that ends the signal. */
  lemma {:induction false} FirstEndMeans(s: Setup, ticks: seq<Tick>)
    ensures FirstEnd(s, ticks).None? <==> forall i | 0 <= i < |ticks| :: !Ends(s, ticks[i])
    ensures FirstEnd(s, ticks).Some? ==>
              var n := FirstEnd(s, ticks).value;
              n < |ticks| && Ends(s, ticks[n]) && forall i | 0 <= i < n :: !Ends(s, ticks[i])
  {
    if ticks != [] {
      FirstEndMeans(s, ticks[..|ticks| - 1]);
    }
  }

  /** FirstHit is the time of the first tick at or beyond the level. */
  lemma {:induction false} FirstHitMeans(s: Setup, level: real, ticks: seq<Tick>)
    ensures FirstHit(s, level, ticks).None? <==> forall i | 0 <= i < |ticks| :: !Hit(s, level, ticks[i].price)
    ensures FirstHit(s, level, ticks).Some? ==>
              exists n | 0 <= n < |ticks| ::
                && ticks[n].now == FirstHit(s, level, ticks).value && Hit(s, level, ticks[n].price)
                                             && forall i | 0 <= i < n :: !Hit(s, level, ticks[i].price)
  {
    if ticks != [] {
      var before := ticks[..|ticks| - 1];
      FirstHitMeans(s, level, before);
      if FirstHit(s, level, before).Some? {
        var n :| 0 <= n < |before| && before[n].now == FirstHit(s, level, before).value
          && Hit(s, level, before[n].price)
                 && forall i | 0 <= i < n :: !Hit(s, level, before[i].price);
        assert ticks[n] == before[n] && forall i | 0 <= i < n :: !Hit(s, level, ticks[i].price);
      } else if Hit(s, level, ticks[|ticks| - 1].price) {
        assert ticks[|before|].now == FirstHit(s, level, ticks).value;
        assert forall i | 0 <= i < |before| :: !Hit(s, level, ticks[i].price);
      }
    }
  }

  /** The best price is one of the prices, and none is more favourable. */
  lemma {:induction false} BestMeans(s: Setup, ticks: seq<Tick>)
    ensures Best(s, ticks).None? <==> ticks == []
    ensures ticks != [] ==>
              && (exists i | 0 <= i < |ticks| :: ticks[i].price == Best(s, ticks).value)
              && forall i | 0 <= i < |ticks| :: Hit(s, ticks[i].price, Best(s, ticks).value)
  {
    if ticks != [] {
      var before := ticks[..|ticks| - 1];
      BestMeans(s, before);
      if before != [] && Best(s, ticks) == Best(s, before) {
        var i :| 0 <= i < |before| && before[i].price == Best(s, before).value;
        assert ticks[i].price == Best(s, ticks).value;
      } else {
        assert ticks[|before|].price == Best(s, ticks).value;
      }
    }
  }

  /** A level was hit at some time exactly when the best price is at or beyond it. */
  lemma {:induction false} HitsAreBest(s: Setup, level: real, ticks: seq<Tick>)
    ensures FirstHit(s, level, ticks).Some? <==> Best(s, ticks).Some? && Hit(s, level, Best(s, ticks).value)
  {
    if ticks != [] {
      HitsAreBest(s, level, ticks[..|ticks| - 1]);
    }
  }

  /** The final target lies beyond the others, on the other side of the invalidation. */
  lemma TargetsAreOrdered(s: Setup, price: real)
    requires Complete(s)
    ensures Hit(s, s.finalTp, price) ==> Hit(s, s.tp2, price)
    ensures Hit(s, s.tp2, price) ==> Hit(s, s.tp1, price)
    ensures Hit(s, s.tp1, price) ==> !CrossesInvalidation(s.direction, price, s.invalidation)
  {
  }

  lemma {:induction false} FirstEndInRange(s: Setup, ticks: seq<Tick>)
    ensures FirstEnd(s, ticks).Some? ==> FirstEnd(s, ticks).value < |ticks|
  {
    if ticks != [] {
      FirstEndInRange(s, ticks[..|ticks| - 1]);
    }
  }

  /** One more tick. */
  lemma HistoryGrows(s: Setup, ticks: seq<Tick>)
    requires Complete(s) && ticks != []
    ensures Evaluate(s, History(s, ticks[..|ticks| - 1]), ticks[|ticks| - 1]) == History(s, ticks)
  {
    var last := |ticks| - 1;
    var seen, t := ticks[..last], ticks[last];
    FirstEndInRange(s, seen);
    FirstEndInRange(s, ticks);
    HitsAreBest(s, s.tp1, seen);
    HitsAreBest(s, s.tp2, seen);
    TargetsAreOrdered(s, t.price);
    if Best(s, seen).Some? {
      TargetsAreOrdered(s, Best(s, seen).value);
    }
    var end := FirstEnd(s, seen);
    if end.Some? {
      assert ticks[..end.value] == seen[..end.value];
    } else {
      StepMatches(s, seen, ticks, t);
    }
  }

  lemma StepMatches(s: Setup, seen: seq<Tick>, ticks: seq<Tick>, t: Tick)
    requires Complete(s) && ticks == seen + [t] && FirstEnd(s, seen).None? && ticks[..|seen|] == seen
    ensures Evaluate(s, History(s, seen), t) == History(s, ticks)
  {
    HitsAreBest(s, s.tp1, seen);
    HitsAreBest(s, s.tp2, seen);
    TargetsAreOrdered(s, t.price);
    if Best(s, seen).Some? {
      TargetsAreOrdered(s, Best(s, seen).value);
    }
  }

  /** Refinement: for every complete setup and every feed, the tick-driven signal is the one its
      history specifies, time stamps included. */
  lemma {:induction false} RunIsHistory(s: Setup, ticks: seq<Tick>)
    requires Complete(s)
    ensures Run(s, EMITTED, ticks) == History(s, ticks)
  {
    if ticks != [] {
      RunIsHistory(s, ticks[..|ticks| - 1]);
      HistoryGrows(s, ticks);
    }
  }

  /** STALE is never entered, by any setup on any feed: the default tolerance switches it off. */
  lemma {:induction false} NeverStale(s: Setup, p: Progress, ticks: seq<Tick>)
    requires p.status != Stale
    ensures Run(s, p, ticks).status != Stale
  {
    if ticks != [] {
      NeverStale(s, p, ticks[..|ticks| - 1]);
    }
  }

  // ----- Buy and sell -----

  function Mirror(s: Setup): Setup {
    Setup(if s.direction == Buy then Sell else Buy, -s.entryBottom, -s.entryTop, -s.invalidation, -s.stopLoss,
          -s.tp1, -s.tp2, -s.finalTp, s.confidence, s.expiry)
  }

  function MirrorTicks(ticks: seq<Tick>): seq<Tick> {
    if ticks == [] then []
    else MirrorTicks(ticks[..|ticks| - 1]) + [Tick(-ticks[|ticks| - 1].price, ticks[|ticks| - 1].now)]
  }

  /** A sell is a buy in negated prices: the mirrored setup is complete exactly when the setup is,
      and its run over the mirrored feed is the same, from any starting point. */
  lemma {:induction false} SellsMirrorBuys(s: Setup, p: Progress, ticks: seq<Tick>)
    ensures Mirror(Mirror(s)) == s && (Complete(Mirror(s)) <==> Complete(s))
    ensures |MirrorTicks(ticks)| == |ticks|
    ensures Run(Mirror(s), p, MirrorTicks(ticks)) == Run(s, p, ticks)
  {
    if ticks != [] {
      var last := |ticks| - 1;
      SellsMirrorBuys(s, p, ticks[..last]);
      assert MirrorTicks(ticks)[..last] == MirrorTicks(ticks[..last]);
    }
  }

  // ----- Whole runs, on prices and times -----

  predicate Late(s: Setup, t: Tick) {
    s.expiry != None && s.expiry.value <= t.now
  }

  /** At or beyond a level, on the side the signal hopes for. */
  predicate Beyond(s: Setup, level: real, t: Tick) {
    (s.direction == Buy && level <= t.price) || (s.direction == Sell && t.price <= level)
  }

  predicate Crossed(s: Setup, t: Tick) {
    (s.direction == Buy && t.price <= s.invalidation) || (s.direction == Sell && s.invalidation <= t.price)
  }

  /** None of the first n ticks is late, crosses the invalidation or reaches the final target. */
  ghost predicate Quiet(s: Setup, ticks: seq<Tick>, n: nat)
    requires n <= |ticks|
  {
    forall j | 0 <= j < n :: !Late(s, ticks[j]) && !Crossed(s, ticks[j]) && !Beyond(s, s.finalTp, ticks[j])
  }

  ghost predicate FirstBeyond(s: Setup, level: real, ticks: seq<Tick>, j: nat)
    requires j < |ticks|
  {
    Beyond(s, level, ticks[j]) && forall i | 0 <= i < j :: !Beyond(s, level, ticks[i])
  }

  /** The stamp of a target is the time of the first of the first n ticks beyond it, if there is one. */
  ghost predicate StampedBy(s: Setup, level: real, ticks: seq<Tick>, n: nat, at: Option<real>)
    requires n <= |ticks|
  {
    && (at == None ==> forall j | 0 <= j < n :: !Beyond(s, level, ticks[j]))
    && (at.Some? ==> exists j: nat :: j < n && FirstBeyond(s, level, ticks, j) && at == Some(ticks[j].now))
  }

  ghost predicate TargetsBy(s: Setup, ticks: seq<Tick>, n: nat, p: Progress)
    requires n <= |ticks|
  {
    StampedBy(s, s.tp1, ticks, n, p.tp1At) && StampedBy(s, s.tp2, ticks, n, p.tp2At)
  }

  lemma EndsIff(s: Setup, t: Tick)
    ensures Ends(s, t) <==> Late(s, t) || Crossed(s, t) || Beyond(s, s.finalTp, t)
    ensures Expires(s, t) <==> Late(s, t)
    ensures CrossesInvalidation(s.direction, t.price, s.invalidation) <==> Crossed(s, t)
    ensures forall level :: Hit(s, level, t.price) <==> Beyond(s, level, t)
  {
  }

  lemma QuietIff(s: Setup, ticks: seq<Tick>, n: nat)
    requires n <= |ticks|
    ensures Quiet(s, ticks, n) <==> FirstEnd(s, ticks[..n]) == None
  {
    var seen := ticks[..n];
    FirstEndMeans(s, seen);
    forall j | 0 <= j < n
      ensures Ends(s, seen[j]) <==> Late(s, ticks[j]) || Crossed(s, ticks[j]) || Beyond(s, s.finalTp, ticks[j]) {
      EndsIff(s, ticks[j]);
    }
    hide Late; hide Crossed; hide Beyond; hide Ends;
  }

  lemma FirstHitStamps(s: Setup, level: real, ticks: seq<Tick>, n: nat)
    requires n <= |ticks|
    ensures StampedBy(s, level, ticks, n, FirstHit(s, level, ticks[..n]))
  {
    var seen := ticks[..n];
    FirstHitMeans(s, level, seen);
    forall j | 0 <= j < n ensures Hit(s, level, seen[j].price) <==> Beyond(s, level, ticks[j]) {
      EndsIff(s, ticks[j]);
    }
    hide Hit; hide Beyond; hide FirstHit;
    if FirstHit(s, level, seen).Some? {
      var k :| 0 <= k < |seen| && seen[k].now == FirstHit(s, level, seen).value && Hit(s, level, seen[k].price)
               && forall i | 0 <= i < k :: !Hit(s, level, seen[i].price);
      assert FirstBeyond(s, level, ticks, k);
    }
  }

  /** The first tick that ends the signal decides how: late, it expires; otherwise, at or past the
      invalidation, it is invalidated at that time; otherwise it is completed at that time. The targets
      carry the times they were first reached before that, or by the completing tick. */
  lemma EndingMeans(s: Setup, ticks: seq<Tick>, k: nat)
    requires Complete(s) && k < |ticks| && Quiet(s, ticks, k)
    requires Late(s, ticks[k]) || Crossed(s, ticks[k]) || Beyond(s, s.finalTp, ticks[k])
    ensures var p := Run(s, EMITTED, ticks);
            if Late(s, ticks[k]) then
              p.status == Expired && p.invalidatedAt == None && p.completedAt == None && TargetsBy(s, ticks, k, p)
            else if Crossed(s, ticks[k]) then
              p.status == Invalidated && p.invalidatedAt == Some(ticks[k].now) && p.completedAt == None
              && TargetsBy(s, ticks, k, p)
            else
              p.status == Completed && p.invalidatedAt == None && p.completedAt == Some(ticks[k].now)
              && TargetsBy(s, ticks, k + 1, p)
  {
    RunIsHistory(s, ticks);
    QuietIff(s, ticks, k);
    FirstEndIs(s, ticks, k);
    EndsIff(s, ticks[k]);
    FirstHitStamps(s, s.tp1, ticks, k);
    FirstHitStamps(s, s.tp2, ticks, k);
    CompletionStamps(s, ticks, k);
    hide Run; hide StampedBy; hide FirstHit; hide FirstEnd; hide Quiet; hide Hit; hide Beyond; hide Complete;
    hide CrossesInvalidation; hide Crossed; hide Late; hide Expires;
  }

  lemma FirstEndIs(s: Setup, ticks: seq<Tick>, k: nat)
    requires k < |ticks| && FirstEnd(s, ticks[..k]) == None && Ends(s, ticks[k])
    ensures FirstEnd(s, ticks) == Some(k)
  {
    FirstEndMeans(s, ticks[..k]);
    FirstEndMeans(s, ticks);
    assert forall j | 0 <= j < k :: ticks[..k][j] == ticks[j];
    hide Ends;
  }

  /** The completing tick is beyond both other targets. */
  lemma CompletionStamps(s: Setup, ticks: seq<Tick>, k: nat)
    requires Complete(s) && k < |ticks|
    ensures Beyond(s, s.finalTp, ticks[k]) ==>
              forall level | level in {s.tp1, s.tp2} ::
                var before := FirstHit(s, level, ticks[..k]);
                StampedBy(s, level, ticks, k + 1, Some(if before.Some? then before.value else ticks[k].now))
  {
    if Beyond(s, s.finalTp, ticks[k]) {
      TargetsAreOrdered(s, ticks[k].price);
      EndsIff(s, ticks[k]);
      forall level | level in {s.tp1, s.tp2}
        ensures var before := FirstHit(s, level, ticks[..k]);
                StampedBy(s, level, ticks, k + 1, Some(if before.Some? then before.value else ticks[k].now)) {
        FirstHitStamps(s, level, ticks, k);
        assert Beyond(s, level, ticks[k]);
        if FirstHit(s, level, ticks[..k]).None? {
          assert FirstBeyond(s, level, ticks, k);
        }
      }
    }
  }

  /** Until then it stands at the furthest target any tick has reached. */
  lemma LiveMeans(s: Setup, ticks: seq<Tick>)
    requires Complete(s) && Quiet(s, ticks, |ticks|)
    ensures var p := Run(s, EMITTED, ticks);
            && p.invalidatedAt == None && p.completedAt == None && TargetsBy(s, ticks, |ticks|, p)
            && p.status in {Active, Tp1Reached, Tp2Reached}
            && (p.status == Tp2Reached <==> exists j | 0 <= j < |ticks| :: Beyond(s, s.tp2, ticks[j]))
            && (p.status == Active <==> forall j | 0 <= j < |ticks| :: !Beyond(s, s.tp1, ticks[j]))
  {
    RunIsHistory(s, ticks);
    QuietIff(s, ticks, |ticks|);
    assert ticks[..|ticks|] == ticks;
    HitsAreBest(s, s.tp1, ticks);
    HitsAreBest(s, s.tp2, ticks);
    FirstHitStamps(s, s.tp1, ticks, |ticks|);
    FirstHitStamps(s, s.tp2, ticks, |ticks|);
    if Best(s, ticks).Some? { TargetsAreOrdered(s, Best(s, ticks).value); }
    hide Run; hide FirstHit; hide FirstEnd; hide Quiet; hide Hit; hide Beyond; hide Complete; hide Best;
  }

  /** The tick, if any, at which the signal is invalidated. */
  ghost predicate InvalidatesAt(s: Setup, ticks: seq<Tick>, k: nat) {
    k < |ticks| && Quiet(s, ticks, k) && !Late(s, ticks[k]) && Crossed(s, ticks[k])
  }

  ghost predicate ExpiresAt(s: Setup, ticks: seq<Tick>, k: nat) {
    k < |ticks| && Quiet(s, ticks, k) && Late(s, ticks[k])
  }

  ghost predicate CompletesAt(s: Setup, ticks: seq<Tick>, k: nat) {
    && k < |ticks| && Quiet(s, ticks, k) && !Late(s, ticks[k]) && !Crossed(s, ticks[k])
    && Beyond(s, s.finalTp, ticks[k])
  }

  lemma {:induction false} LoudTick(s: Setup, ticks: seq<Tick>) returns (k: nat)
    requires !Quiet(s, ticks, |ticks|)
    ensures k < |ticks| && Quiet(s, ticks, k)
    ensures Late(s, ticks[k]) || Crossed(s, ticks[k]) || Beyond(s, s.finalTp, ticks[k])
  {
    var last := |ticks| - 1;
    var before := ticks[..last];
    if Quiet(s, before, last) {
      k := last;
    } else {
      k := LoudTick(s, before);
    }
  }

  /** A complete setup ends invalidated exactly if some tick is at or past its invalidation, is not late,
      and follows no tick that is late, at or past the invalidation, or at or beyond the final target;
      and the stamp is that tick's time. So for the other two ends. */
  lemma EndsWhenIff(s: Setup, ticks: seq<Tick>)
    requires Complete(s)
    ensures var p := Run(s, EMITTED, ticks);
            && (p.status == Invalidated <==> exists k: nat :: InvalidatesAt(s, ticks, k))
            && (p.status == Expired <==> exists k: nat :: ExpiresAt(s, ticks, k))
            && (p.status == Completed <==> exists k: nat :: CompletesAt(s, ticks, k))
            && (forall k: nat | InvalidatesAt(s, ticks, k) :: p.invalidatedAt == Some(ticks[k].now))
            && (forall k: nat | CompletesAt(s, ticks, k) :: p.completedAt == Some(ticks[k].now))
            && (p.status != Invalidated ==> p.invalidatedAt == None)
            && (p.status != Completed ==> p.completedAt == None)
  {
    hide Run; hide Quiet; hide Late; hide Crossed; hide Beyond; hide Complete; hide TargetsBy;
    forall k: nat | k < |ticks| && Quiet(s, ticks, k)
                    && (Late(s, ticks[k]) || Crossed(s, ticks[k]) || Beyond(s, s.finalTp, ticks[k]))
      ensures EndsAs(s, ticks, k, Run(s, EMITTED, ticks)) {
      EndingMeans(s, ticks, k);
    }
    if Quiet(s, ticks, |ticks|) {
      LiveMeans(s, ticks);
      forall k: nat | k < |ticks| && Quiet(s, ticks, k)
        ensures !InvalidatesAt(s, ticks, k) && !ExpiresAt(s, ticks, k) && !CompletesAt(s, ticks, k) {
        QuietAt(s, ticks, k);
      }
    } else {
      var k := LoudTick(s, ticks);
      assert EndsAs(s, ticks, k, Run(s, EMITTED, ticks));
      assert InvalidatesAt(s, ticks, k) || ExpiresAt(s, ticks, k) || CompletesAt(s, ticks, k);
    }
  }

  ghost predicate EndsAs(s: Setup, ticks: seq<Tick>, k: nat, p: Progress)
    requires k < |ticks|
  {
    if Late(s, ticks[k]) then p.status == Expired && p.invalidatedAt == None && p.completedAt == None
    else if Crossed(s, ticks[k]) then
      p.status == Invalidated && p.invalidatedAt == Some(ticks[k].now) && p.completedAt == None
    else p.status == Completed && p.invalidatedAt == None && p.completedAt == Some(ticks[k].now)
  }

  lemma QuietAt(s: Setup, ticks: seq<Tick>, k: nat)
    requires k < |ticks| && Quiet(s, ticks, |ticks|)
    ensures !Late(s, ticks[k]) && !Crossed(s, ticks[k]) && !Beyond(s, s.finalTp, ticks[k])
  {
  }

  /** The staleness test, at any tolerance: the price is outside the entry range, by more of its width
      than the tolerance from either edge. */
  lemma StaleIff(s: Setup, price: real, maxDrift: real)
    requires s.entryBottom <= s.entryTop
    ensures EntryIsStale(s, price, maxDrift) <==>
              && maxDrift > 0.0 && (price < s.entryBottom || s.entryTop < price)
              && var drift := if price < s.entryBottom then s.entryBottom - price else price - s.entryTop;
              && var width := if s.entryTop - s.entryBottom < 0.000000001 then 0.000000001
                              else s.entryTop - s.entryBottom;
              10000.0 * drift > width * maxDrift
  {
    var width := Max(s.entryTop - s.entryBottom, TOL_9);
    assert 10000.0 * (width * (maxDrift / 10000.0)) == width * maxDrift;
  }
}
