/** Parent-to-child slicing: the TWAP, VWAP and POV schedules and the children built from them. */
module Slicing {
  import opened Common
  import opened Orders
  import Sums

  // ----- execution_policy -----

  function TwapOf(quantity: real, slices: int): Outcome<seq<real>> {
    if quantity <= 0.0 || slices <= 0 then Raised(ValueError) else Ok(seq(slices, _ => quantity / slices as real))
  }

  function VwapOf(quantity: real, volumes: seq<real>): Outcome<seq<real>> {
    if quantity <= 0.0 || volumes == [] || AnyNegative(volumes) || Sums.SumSeq(volumes) <= 0.0 then Raised(ValueError)
    else Ok(Shares(quantity, volumes, Sums.SumSeq(volumes)))
  }

  function PovOf(quantity: real, volumes: seq<real>, participation: real): Outcome<seq<real>> {
    if quantity <= 0.0 || participation <= 0.0 || participation > 1.0 || volumes == [] then Raised(ValueError)
    else Ok(Greedy(quantity, Offers(volumes, participation)))
  }

  method TwapSchedule(quantity: real, slices: int) returns (r: Outcome<seq<real>>)
    ensures r == TwapOf(quantity, slices)
  {
    if quantity <= 0.0 || slices <= 0 { return Raised(ValueError); }
    var child := quantity / slices as real;
    r := Ok(seq(slices, _ => child));
    assert r.value == TwapOf(quantity, slices).value;
  }

  /** TWAP: positive equal slices that add up to the quantity exactly. */
  lemma TwapDividesEvenly(quantity: real, slices: int)
    requires quantity > 0.0 && slices > 0
    ensures TwapOf(quantity, slices).Ok?
    ensures var r := TwapOf(quantity, slices).value;
            && |r| == slices && Sums.SumSeq(r) == quantity
            && forall i, j | 0 <= i < slices && 0 <= j < slices :: r[i] == r[j] > 0.0
  {
    var child := quantity / slices as real;
    SumOfEqual(TwapOf(quantity, slices).value, child);
    assert child * slices as real == quantity;
    assert child > 0.0 by { if child <= 0.0 { NotPositive(child, slices as real); } }
  }

  lemma NotPositive(x: real, y: real)
    requires x <= 0.0 && y > 0.0
    ensures x * y <= 0.0
  {
  }

  lemma {:induction false} SumOfEqual(s: seq<real>, x: real)
    requires forall i | 0 <= i < |s| :: s[i] == x
    ensures Sums.SumSeq(s) == x * |s| as real
  {
    if s != [] {
      SumOfEqual(s[..|s| - 1], x);
      assert x * |s| as real == x * (|s| - 1) as real + x;
    }
  }

  predicate AnyNegative(volumes: seq<real>) {
    exists i | 0 <= i < |volumes| :: volumes[i] < 0.0
  }

  function Share(quantity: real, volume: real, total: real): real
    requires total != 0.0
  {
    quantity * volume / total
  }

  function Shares(quantity: real, volumes: seq<real>, total: real): seq<real>
    requires total != 0.0
  {
    seq(|volumes|, i requires 0 <= i < |volumes| => Share(quantity, volumes[i], total))
  }

  /** Each slice has the share of the quantity that its volume has of the total. */
  ghost predicate Proportional(quantity: real, volumes: seq<real>, total: real, shares: seq<real>)
    requires |shares| == |volumes|
  {
    forall i | 0 <= i < |volumes| ::
      shares[i] * total == quantity * volumes[i] && (shares[i] > 0.0 <==> volumes[i] > 0.0) && shares[i] >= 0.0
  }

  method VwapSchedule(quantity: real, volumes: seq<real>) returns (r: Outcome<seq<real>>)
    ensures r == VwapOf(quantity, volumes)
  {
    if quantity <= 0.0 || volumes == [] || AnyNegative(volumes) { return Raised(ValueError); }
    var total := Sums.AddUpSeq(volumes);
    if total <= 0.0 { return Raised(ValueError); }
    r := Ok(Shares(quantity, volumes, total));
  }

  /** VWAP: each slice has the share of the quantity that its volume has of the total, and the
      slices add up to the quantity exactly. */
  lemma VwapIsProportional(quantity: real, volumes: seq<real>)
    requires VwapOf(quantity, volumes).Ok?
    ensures var r := VwapOf(quantity, volumes).value;
            && |r| == |volumes| && Sums.SumSeq(r) == quantity
               && Proportional(quantity, volumes, Sums.SumSeq(volumes), r)
  {
    SharesAreProportional(quantity, volumes, Sums.SumSeq(volumes), VwapOf(quantity, volumes).value);
  }

  lemma SharesAreProportional(quantity: real, volumes: seq<real>, total: real, shares: seq<real>)
    requires quantity > 0.0 && !AnyNegative(volumes) && total == Sums.SumSeq(volumes) && total > 0.0
             && |shares| == |volumes|
    requires forall i | 0 <= i < |volumes| :: shares[i] == Share(quantity, volumes[i], total)
    ensures Sums.SumSeq(shares) == quantity
    ensures Proportional(quantity, volumes, total, shares)
  {
    SumOfShares(quantity, volumes, total, shares);
    WholeShare(quantity, total);
    forall i | 0 <= i < |volumes|
      ensures shares[i] * total == quantity * volumes[i] && (shares[i] > 0.0 <==> volumes[i] > 0.0) && shares[i] >= 0.0
    {
      assert volumes[i] >= 0.0;
      ShareSign(quantity, volumes[i], total);
    }
  }

  lemma WholeShare(quantity: real, total: real)
    requires total > 0.0
    ensures Share(quantity, total, total) == quantity
  {
  }

  lemma ShareSign(quantity: real, volume: real, total: real)
    requires quantity > 0.0 && volume >= 0.0 && total > 0.0
    ensures Share(quantity, volume, total) * total == quantity * volume
    ensures Share(quantity, volume, total) > 0.0 <==> volume > 0.0
    ensures Share(quantity, volume, total) >= 0.0
  {
    var product := quantity * volume;
    assert product > 0.0 <==> volume > 0.0;
  }

  lemma ShareAdds(quantity: real, x: real, y: real, total: real)
    requires total != 0.0
    ensures Share(quantity, x + y, total) == Share(quantity, x, total) + Share(quantity, y, total)
  {
    assert quantity * (x + y) == quantity * x + quantity * y;
  }

  lemma {:induction false} SumOfShares(quantity: real, volumes: seq<real>, total: real, shares: seq<real>)
    requires total != 0.0 && |shares| == |volumes|
    requires forall i | 0 <= i < |volumes| :: shares[i] == Share(quantity, volumes[i], total)
    ensures Sums.SumSeq(shares) == Share(quantity, Sums.SumSeq(volumes), total)
  {
    if volumes != [] {
      var last := |volumes| - 1;
      SumOfShares(quantity, volumes[..last], total, shares[..last]);
      ShareAdds(quantity, Sums.SumSeq(volumes[..last]), volumes[last], total);
    }
  }

  /** What may be taken of each observed volume. */
  function Offers(volumes: seq<real>, participation: real): (r: seq<real>)
    ensures |r| == |volumes|
  {
    seq(|volumes|, i requires 0 <= i < |volumes| => Offer(volumes[i], participation))
  }

  function Offer(volume: real, participation: real): real { Max(0.0, volume) * participation }

  lemma OfferSign(volumes: seq<real>, participation: real, i: nat)
    requires participation > 0.0 && i < |volumes|
    ensures Offers(volumes, participation)[i] >= 0.0
    ensures Offers(volumes, participation)[i] > 0.0 <==> volumes[i] > 0.0
  {
    var volume := Max(0.0, volumes[i]);
    assert volume * participation > 0.0 <==> volume > 0.0;
  }

  /** The greedy schedule: take what each offer allows, stop once 1e-12 or less is left, and end
      with one slice for whatever the offers could not absorb. */
  function Greedy(quantity: real, offers: seq<real>): seq<real>
    decreases |offers|
  {
    if offers == [] then (if quantity > TOL_12 then [quantity] else [])
    else
      var child := Min(quantity, offers[0]);
      if quantity - child <= TOL_12 then [child] else [child] + Greedy(quantity - child, offers[1..])
  }

  /** It schedules everything but at most 1e-12, in non-negative slices none of which exceeds its
      offer, except a last one for the remainder. */
  lemma {:induction false} GreedySchedulesAll(quantity: real, offers: seq<real>)
    requires quantity >= 0.0 && forall i | 0 <= i < |offers| :: offers[i] >= 0.0
    ensures var r := Greedy(quantity, offers);
            && 0.0 <= quantity - Sums.SumSeq(r) <= TOL_12
            && |r| <= |offers| + 1
            && (forall i | 0 <= i < |r| :: r[i] >= 0.0)
            && (forall i | 0 <= i < |r| && i < |offers| :: r[i] <= offers[i])
    decreases |offers|
  {
    var r := Greedy(quantity, offers);
    if offers == [] {
      assert r == [] || r == [] + [quantity];
      Sums.SumSeqAppend([], quantity);
    } else {
      var child := Min(quantity, offers[0]);
      Sums.SumSeqAppend([], child);
      assert [] + [child] == [child];
      if quantity - child > TOL_12 {
        var rest := Greedy(quantity - child, offers[1..]);
        GreedySchedulesAll(quantity - child, offers[1..]);
        Sums.SumSeqConcat([child], rest);
        assert r == [child] + rest;
      }
    }
  }

  /** What is scheduled so far, and what is left to do from offer n on, make up the greedy schedule. */
  ghost predicate OnCourse(quantity: real, offers: seq<real>, n: nat, result: seq<real>, remaining: real)
    requires n <= |offers|
  {
    result + Greedy(remaining, offers[n..]) == Greedy(quantity, offers)
  }

  lemma Departs(quantity: real, offers: seq<real>)
    ensures OnCourse(quantity, offers, 0, [], quantity)
  {
    assert offers[0..] == offers;
  }

  lemma StaysOnCourse(quantity: real, offers: seq<real>, n: nat, result: seq<real>, remaining: real)
    requires n < |offers| && OnCourse(quantity, offers, n, result, remaining)
    ensures var child := Min(remaining, offers[n]);
            if remaining - child <= TOL_12 then result + [child] == Greedy(quantity, offers)
            else OnCourse(quantity, offers, n + 1, result + [child], remaining - child)
  {
    var child := Min(remaining, offers[n]);
    assert offers[n..][1..] == offers[n + 1..];
    var rest := Greedy(remaining - child, offers[n + 1..]);
    assert result + ([child] + rest) == result + [child] + rest;
  }

  lemma Arrives(quantity: real, offers: seq<real>, result: seq<real>, remaining: real)
    requires OnCourse(quantity, offers, |offers|, result, remaining)
    ensures Greedy(quantity, offers) == if remaining > TOL_12 then result + [remaining] else result
  {
    assert offers[|offers|..] == [];
  }

  method PovSchedule(quantity: real, volumes: seq<real>, participation: real) returns (r: Outcome<seq<real>>)
    ensures r == PovOf(quantity, volumes, participation)
  {
    if quantity <= 0.0 || participation <= 0.0 || participation > 1.0 || volumes == [] { return Raised(ValueError); }
    ghost var offers := Offers(volumes, participation);
    var remaining := quantity;
    var result: seq<real> := [];
    Departs(quantity, offers);
    hide OnCourse; hide Greedy; hide Offer;
    var n := 0;
    while n < |volumes|
      invariant 0 <= n <= |volumes|
      invariant OnCourse(quantity, offers, n, result, remaining)
    {
      var child := Min(remaining, Offer(volumes[n], participation));
      assert child == Min(remaining, offers[n]);
      StaysOnCourse(quantity, offers, n, result, remaining);
      result := result + [child];
      remaining := remaining - child;
      n := n + 1;
      if remaining <= TOL_12 {
        return Ok(result);
      }
    }
    Arrives(quantity, offers, result, remaining);
    if remaining > TOL_12 {
      result := result + [remaining];
    }
    r := Ok(result);
  }

  // ----- child_execution -----

  /** schedule(): dispatch on the policy. */
  function ScheduleOf(o: Order, volumes: Option<seq<real>>): Outcome<seq<real>> {
    if o.quantity <= 0.0 then Raised(ValueError)
    else match o.policy
      case Twap => TwapOf(o.quantity, o.metadata.slices)
      case Vwap => if volumes.None? then Raised(ValueError) else VwapOf(o.quantity, volumes.value)
      case Pov =>
        if volumes.None? then Raised(ValueError) else PovOf(o.quantity, volumes.value, o.metadata.participation)
      case _ => Ok([o.quantity])
  }

  method Schedule(o: Order, volumes: Option<seq<real>>) returns (r: Outcome<seq<real>>)
    ensures r == ScheduleOf(o, volumes)
  {
    if o.quantity <= 0.0 { return Raised(ValueError); }
    match o.policy
    case Twap =>
      r := TwapSchedule(o.quantity, o.metadata.slices);
    case Vwap =>
      if volumes.None? { return Raised(ValueError); }
      r := VwapSchedule(o.quantity, volumes.value);
    case Pov =>
      if volumes.None? { return Raised(ValueError); }
      r := PovSchedule(o.quantity, volumes.value, o.metadata.participation);
    case _ =>
      r := Ok([o.quantity]);
  }

  /** What every schedule promises: non-negative slices that add up to the order, except that POV
      may leave up to 1e-12 unscheduled. */
  ghost predicate Sliced(o: Order, volumes: Option<seq<real>>, slices: seq<real>) {
    && (forall i | 0 <= i < |slices| :: slices[i] >= 0.0)
    && 0.0 <= o.quantity - Sums.SumSeq(slices) <= TOL_12
    && (o.policy != Pov ==> Sums.SumSeq(slices) == o.quantity)
    && (o.policy == Pov ==> volumes.Some? && volumes.value != [] && 0.0 < o.metadata.participation
                            && slices == Greedy(o.quantity, Offers(volumes.value, o.metadata.participation)))
  }

  lemma ScheduleFacts(o: Order, volumes: Option<seq<real>>)
    requires ScheduleOf(o, volumes).Ok?
    ensures o.quantity > 0.0 && Sliced(o, volumes, ScheduleOf(o, volumes).value)
  {
    match o.policy
    case Twap => TwapDividesEvenly(o.quantity, o.metadata.slices);
    case Vwap => VwapIsProportional(o.quantity, volumes.value);
    case Pov => GreedyIsSliced(o, volumes.value, ScheduleOf(o, volumes).value);
    case _ => assert [o.quantity][..0] == [];
  }

  lemma GreedyIsSliced(o: Order, volumes: seq<real>, slices: seq<real>)
    requires o.policy == Pov && o.quantity > 0.0 && volumes != [] && o.metadata.participation > 0.0
    requires slices == Greedy(o.quantity, Offers(volumes, o.metadata.participation))
    ensures Sliced(o, Some(volumes), slices)
  {
    forall i | 0 <= i < |volumes| ensures Offers(volumes, o.metadata.participation)[i] >= 0.0 {
      OfferSign(volumes, o.metadata.participation, i);
    }
    GreedySchedulesAll(o.quantity, Offers(volumes, o.metadata.participation));
  }

  function ChildOrder(parent: Order, index: nat, quantity: real): Order {
    parent.(id := ChildOf(parent.id, index), quantity := quantity, status := New,
            key := Some(ChildOf(parent.ClientId(), index)))
  }

  function ChildQuantities(children: seq<Order>): seq<real> {
    seq(|children|, i requires 0 <= i < |children| => children[i].quantity)
  }

  /** The children are slices of the parent: positive, numbered in increasing order, and otherwise
      copies of it. */
  ghost predicate ChildrenOf(parent: Order, children: seq<Order>) {
    && (forall i | 0 <= i < |children| :: children[i].quantity > 0.0 && children[i].id.ChildOf?
          && children[i] == ChildOrder(parent, children[i].id.index, children[i].quantity))
    && (forall i, j | 0 <= i < j < |children| :: children[i].id.index < children[j].id.index)
  }

  /** The one plan without children: POV, no more than 1e-12 to do, and no volume seen at first. */
  predicate NothingToSend(o: Order, volumes: Option<seq<real>>) {
    o.policy == Pov && o.quantity <= TOL_12 && volumes.Some? && volumes.value != [] && volumes.value[0] <= 0.0
  }

  /** One child per positive slice, numbered by the position of the slice. */
  function Children(parent: Order, slices: seq<real>): seq<Order> {
    if slices == [] then []
    else
      var last := |slices| - 1;
      var before := Children(parent, slices[..last]);
      if slices[last] <= 0.0 then before else before + [ChildOrder(parent, last, slices[last])]
  }

  lemma {:induction false} ChildrenAreChildren(parent: Order, slices: seq<real>)
    ensures ChildrenOf(parent, Children(parent, slices))
    ensures var children := Children(parent, slices);
            children != [] ==> children[|children| - 1].id.ChildOf? && children[|children| - 1].id.index < |slices|
  {
    if slices != [] {
      var last := |slices| - 1;
      ChildrenAreChildren(parent, slices[..last]);
      var before, all := Children(parent, slices[..last]), Children(parent, slices);
      hide Children;
      forall i | 0 <= i < |all| ensures all[i].quantity > 0.0 && all[i].id.ChildOf? && all[i].id.index < |slices|
                                     && all[i] == ChildOrder(parent, all[i].id.index, all[i].quantity) {
        assert i < |before| ==> all[i] == before[i];
        assert i < |before| - 1 ==> before[i].id.index < before[|before| - 1].id.index;
      }
    }
  }

  lemma {:induction false} ChildrenKeepTheSum(parent: Order, slices: seq<real>)
    requires forall i | 0 <= i < |slices| :: slices[i] >= 0.0
    ensures Sums.SumSeq(ChildQuantities(Children(parent, slices))) == Sums.SumSeq(slices)
    ensures Children(parent, slices) == [] <==> forall i | 0 <= i < |slices| :: slices[i] <= 0.0
  {
    if slices == [] {
      assert ChildQuantities([]) == [];
    } else {
      var last := |slices| - 1;
      ChildrenKeepTheSum(parent, slices[..last]);
      var before := Children(parent, slices[..last]);
      if slices[last] > 0.0 {
        assert ChildQuantities(before + [ChildOrder(parent, last, slices[last])])
               == ChildQuantities(before) + [slices[last]];
        Sums.SumSeqAppend(ChildQuantities(before), slices[last]);
      }
    }
  }

  function PlanOf(o: Order, volumes: Option<seq<real>>): Outcome<seq<Order>> {
    var slices := ScheduleOf(o, volumes);
    if slices.Raised? then Raised(slices.error)
    else if Abs(Sums.SumSeq(ChildQuantities(Children(o, slices.value))) - o.quantity) > TOL_10 then Raised(RuntimeError)
    else Ok(Children(o, slices.value))
  }

  /** Whenever there is a schedule there is a plan: the conservation check never fires. The plan is
      made of children, covers the order up to 1e-12, and is empty in exactly one case. */
  lemma PlanFacts(o: Order, volumes: Option<seq<real>>)
    ensures PlanOf(o, volumes).Ok? <==> ScheduleOf(o, volumes).Ok?
    ensures PlanOf(o, volumes).Raised? ==> PlanOf(o, volumes).error == ValueError
    ensures PlanOf(o, volumes).Ok? ==>
              var children := PlanOf(o, volumes).value;
              && ChildrenOf(o, children)
              && 0.0 <= o.quantity - Sums.SumSeq(ChildQuantities(children)) <= TOL_12
              && (children == [] <==> NothingToSend(o, volumes))
  {
    if ScheduleOf(o, volumes).Ok? {
      var slices := ScheduleOf(o, volumes).value;
      ScheduleFacts(o, volumes);
      ChildrenAreChildren(o, slices);
      ChildrenKeepTheSum(o, slices);
      EmptyPlanIff(o, volumes, slices);
    }
  }

  method BuildChildren(o: Order, volumes: Option<seq<real>>) returns (r: Outcome<seq<Order>>)
    ensures r == PlanOf(o, volumes)
  {
    var schedule := Schedule(o, volumes);
    if schedule.Raised? { return Raised(schedule.error); }
    var slices := schedule.value;
    var children: seq<Order> := [];
    for n := 0 to |slices|
      invariant children == Children(o, slices[..n])
    {
      assert slices[..n + 1][..n] == slices[..n];
      if slices[n] <= 0.0 { continue; }
      children := children + [ChildOrder(o, n, slices[n])];
    }
    assert slices[..|slices|] == slices;
    var total := Sums.AddUpSeq(ChildQuantities(children));
    if Abs(total - o.quantity) > TOL_10 { return Raised(RuntimeError); }
    r := Ok(children);
  }

  lemma EmptyPlanIff(o: Order, volumes: Option<seq<real>>, slices: seq<real>)
    requires o.quantity > 0.0 && Sliced(o, volumes, slices)
    ensures (forall i | 0 <= i < |slices| :: slices[i] <= 0.0) <==> NothingToSend(o, volumes)
  {
    if forall i | 0 <= i < |slices| :: slices[i] <= 0.0 {
      SumOfEqual(slices, 0.0);
      OfferSign(volumes.value, o.metadata.participation, 0);
      assert slices[0] == Min(o.quantity, Offers(volumes.value, o.metadata.participation)[0]);
    }
    if NothingToSend(o, volumes) {
      OfferSign(volumes.value, o.metadata.participation, 0);
    }
  }

  // ----- What each policy is given -----

  /** What a policy needs before it can be scheduled. */
  ghost predicate Schedulable(o: Order, volumes: Option<seq<real>>) {
    && o.quantity > 0.0
    && (o.policy == Twap ==> o.metadata.slices >= 1)
    && (o.policy == Vwap ==> && volumes.Some? && volumes.value != []
                             && (forall k | 0 <= k < |volumes.value| :: volumes.value[k] >= 0.0)
                             && Sums.SumSeq(volumes.value) > 0.0)
    && (o.policy == Pov ==> volumes.Some? && volumes.value != [] && 0.0 < o.metadata.participation <= 1.0)
  }

  /** TWAP: so many equal slices. VWAP: one slice per volume, in proportion. POV: see Paced. Any other
      policy: one slice. */
  ghost predicate Scheduled(o: Order, volumes: Option<seq<real>>, s: seq<real>) {
    match o.policy
    case Twap => |s| == o.metadata.slices && forall k | 0 <= k < |s| :: s[k] * |s| as real == o.quantity
    case Vwap =>
      && volumes.Some? && |s| == |volumes.value|
      && (forall k | 0 <= k < |s| :: s[k] * Sums.SumSeq(volumes.value) == o.quantity * volumes.value[k])
    case Pov => volumes.Some? && Paced(o.quantity, volumes.value, o.metadata.participation, s)
    case _ => s == [o.quantity]
  }

  /** Slice k takes what its volume allows, or what is left if that is less. More slices follow as long
      as more than 1e-12 is left, and the one after the last volume takes all of it. */
  ghost predicate Paced(quantity: real, volumes: seq<real>, participation: real, s: seq<real>) {
    && 0 < |s| <= |volumes| + 1
    && (forall k | 0 <= k < |s| :: PacedAt(quantity, volumes, participation, s, k))
    && quantity - Sums.SumSeq(s) <= 0.000000000001
  }

  ghost predicate PacedAt(quantity: real, volumes: seq<real>, participation: real, s: seq<real>, k: nat)
    requires k < |s|
  {
    var left := quantity - Sums.SumSeq(s[..k]);
    && (k > 0 ==> left > 0.000000000001)
    && s[k] == (if k >= |volumes| then left
                else
                  var allowed := (if volumes[k] > 0.0 then volumes[k] else 0.0) * participation;
                  if left <= allowed then left else allowed)
  }

  /** Slice k of a schedule is slice k - 1 of the rest of it. */
  lemma PacedLater(quantity: real, volumes: seq<real>, participation: real, child: real, rest: seq<real>, k: nat)
    requires volumes != [] && 0 < k <= |rest|
    requires PacedAt(quantity - child, volumes[1..], participation, rest, k - 1) && quantity - child > TOL_12
    ensures PacedAt(quantity, volumes, participation, [child] + rest, k)
  {
    assert ([child] + rest)[..k] == [child] + rest[..k - 1];
    SumAfter(child, rest[..k - 1]);
    assert rest[..0] == [];
    hide Sums.SumSeq;
    assert k < |volumes| ==> volumes[1..][k - 1] == volumes[k];
  }

  lemma SumAfter(x: real, s: seq<real>)
    ensures Sums.SumSeq([x] + s) == x + Sums.SumSeq(s) && Sums.SumSeq([]) == 0.0
  {
    Sums.SumSeqAppend([], x);
    assert [] + [x] == [x];
    Sums.SumSeqConcat([x], s);
  }

  lemma PacedFirst(quantity: real, volumes: seq<real>, participation: real, rest: seq<real>)
    requires volumes != []
    ensures PacedAt(quantity, volumes, participation, [Min(quantity, Offer(volumes[0], participation))] + rest, 0)
  {
    var s := [Min(quantity, Offer(volumes[0], participation))] + rest;
    assert s[..0] == [];
  }

  lemma {:induction false} GreedyIsPaced(quantity: real, volumes: seq<real>, participation: real)
    requires volumes == [] ==> quantity > TOL_12
    ensures Paced(quantity, volumes, participation, Greedy(quantity, Offers(volumes, participation)))
    decreases |volumes|
  {
    hide Offer; hide PacedAt; hide Sums.SumSeq;
    var offers := Offers(volumes, participation);
    var s := Greedy(quantity, offers);
    if volumes == [] {
      assert s == [quantity];
      PacedLast(quantity, participation);
    } else {
      var child := Min(quantity, Offer(volumes[0], participation));
      assert offers[1..] == Offers(volumes[1..], participation);
      var rest := if quantity - child <= TOL_12 then [] else Greedy(quantity - child, offers[1..]);
      assert s == [child] + rest;
      SumAfter(child, rest);
      PacedFirst(quantity, volumes, participation, rest);
      if quantity - child > TOL_12 {
        GreedyIsPaced(quantity - child, volumes[1..], participation);
        forall k | 0 < k < |s| ensures PacedAt(quantity, volumes, participation, s, k) {
          PacedLater(quantity, volumes, participation, child, rest, k);
        }
      }
    }
  }

  lemma PacedLast(quantity: real, participation: real)
    ensures PacedAt(quantity, [], participation, [quantity], 0) && Sums.SumSeq([quantity]) == quantity
  {
    SumAfter(quantity, []);
    assert [quantity] + [] == [quantity] && [quantity][..0] == [];
  }

  /** The schedule of an order, by policy: when there is one, and what it is. */
  lemma ScheduleIff(o: Order, volumes: Option<seq<real>>)
    ensures ScheduleOf(o, volumes).Ok? <==> Schedulable(o, volumes)
    ensures ScheduleOf(o, volumes).Raised? ==> ScheduleOf(o, volumes).error == ValueError
    ensures ScheduleOf(o, volumes).Ok? ==> Scheduled(o, volumes, ScheduleOf(o, volumes).value)
  {
    if ScheduleOf(o, volumes).Ok? {
      var s := ScheduleOf(o, volumes).value;
      match o.policy
      case Twap => TwapIsEven(o.quantity, o.metadata.slices);
      case Vwap => VwapIsProportional(o.quantity, volumes.value);
      case Pov => GreedyIsPaced(o.quantity, volumes.value, o.metadata.participation);
      case _ =>
    }
    hide Greedy; hide Paced; hide Sums.SumSeq;
  }

  lemma TwapIsEven(quantity: real, slices: int)
    requires slices > 0
    ensures (quantity / slices as real) * slices as real == quantity
  {
  }

  /** The children carry the schedule: one for each positive slice, numbered by its position, with its
      quantity, new, under a child of the order's identities, and otherwise like the order. */
  ghost predicate Carries(o: Order, s: seq<real>, children: seq<Order>) {
    && (forall i | 0 <= i < |children| :: CarriesSlice(o, s, children[i]))
    && (forall i, j | 0 <= i < j < |children| && children[i].id.ChildOf? && children[j].id.ChildOf? ::
          children[i].id.index < children[j].id.index)
    && (forall k: nat | k < |s| && s[k] > 0.0 :: Numbered(children, ChildOf(o.id, k)))
  }

  ghost predicate CarriesSlice(o: Order, s: seq<real>, c: Order) {
    && c.id.ChildOf? && c.id == ChildOf(o.id, c.id.index) && c.id.index < |s| && c.quantity == s[c.id.index] > 0.0
    && c.status == New
    && c.key == Some(ChildOf(if o.key.Some? && o.key != Some(Name("")) then o.key.value else o.id, c.id.index))
    && c.decision == o.decision && c.symbol == o.symbol && c.side == o.side && c.orderType == o.orderType
    && c.limitPrice == o.limitPrice && c.policy == o.policy && c.venue == o.venue && c.filled == o.filled
    && c.average == o.average && c.updatedAt == o.updatedAt && c.metadata == o.metadata
  }

  ghost predicate Numbered(children: seq<Order>, id: Id) {
    exists i | 0 <= i < |children| :: children[i].id == id
  }

  lemma {:induction false} ChildrenCarry(o: Order, s: seq<real>)
    ensures Carries(o, s, Children(o, s))
  {
    ChildrenAreChildren(o, s);
    if s != [] {
      var last := |s| - 1;
      var before, all := Children(o, s[..last]), Children(o, s);
      ChildrenCarry(o, s[..last]);
      forall i | 0 <= i < |all| ensures CarriesSlice(o, s, all[i]) {
        assert i < |before| ==> all[i] == before[i] && CarriesSlice(o, s[..last], before[i]);
      }
      forall k: nat | k < |s| && s[k] > 0.0 ensures Numbered(all, ChildOf(o.id, k)) {
        if k < last {
          assert s[..last][k] > 0.0 && Numbered(before, ChildOf(o.id, k));
          var i :| 0 <= i < |before| && before[i].id == ChildOf(o.id, k);
          assert all[i].id == ChildOf(o.id, k);
        } else {
          assert all[|before|].id == ChildOf(o.id, k);
        }
      }
    }
  }

  /** The plan of an order: when there is one, and that it carries the policy's schedule. */
  lemma PlanIff(o: Order, volumes: Option<seq<real>>)
    ensures PlanOf(o, volumes).Ok? <==> Schedulable(o, volumes)
    ensures PlanOf(o, volumes).Ok? ==>
              exists s :: Scheduled(o, volumes, s) && Carries(o, s, PlanOf(o, volumes).value)
  {
    ScheduleIff(o, volumes);
    PlanFacts(o, volumes);
    if PlanOf(o, volumes).Ok? {
      var s := ScheduleOf(o, volumes).value;
      ChildrenCarry(o, s);
      assert Scheduled(o, volumes, s) && Carries(o, s, PlanOf(o, volumes).value);
    }
    hide Schedulable; hide Scheduled; hide Carries; hide Children; hide ChildrenOf; hide Sums.SumSeq; hide ScheduleOf;
  }
}
