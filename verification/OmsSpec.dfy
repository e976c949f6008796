/** The order manager as a value, and what any sequence of fills or transitions makes of an order. */
module OmsSpec {
  import opened Common
  import opened Orders

  datatype Fingerprint = Fingerprint(decision: Id, symbol: string, side: Side, quantity: real, orderType: string,
                                     limitPrice: Option<real>, policy: Policy, key: Option<Id>,
                                     configHash: Option<string>, modelHash: Option<string>)

  datatype Oms = Oms(orders: map<Id, Order>, keys: map<Id, Id>, prints: map<Id, Fingerprint>, fills: map<Id, set<Id>>)

  function PrintOf(o: Order): Fingerprint {
    Fingerprint(o.decision, o.symbol, o.side, o.quantity, o.orderType, o.limitPrice, o.policy, o.key,
                o.metadata.configHash, o.metadata.modelHash)
  }

  /** The three dictionaries that share their keys. */
  ghost predicate OmsOk(m: Oms) {
    && m.prints.Keys == m.orders.Keys && m.fills.Keys == m.orders.Keys
    && (forall id | id in m.orders :: m.orders[id].id == id)
    && (forall k | k in m.keys :: m.keys[k] in m.orders)
  }

  function Governed(o: Order): bool {
    o.metadata.configHash.Some? && o.metadata.configHash.value != ""
  }

  function Store(m: Oms, o: Order, now: real): (Oms, Order) {
    var stored := o.(status := New, updatedAt := now);
    (Oms(m.orders[o.id := stored],
         if o.key.Some? && !Empty(o.key.value) then m.keys[o.key.value := o.id] else m.keys,
         m.prints[o.id := PrintOf(o)], m.fills[o.id := {}]),
     stored)
  }

  function Submit(m: Oms, o: Order, requireGovernance: bool, now: real): Outcome<(Oms, Order)>
    requires OmsOk(m)
  {
    if requireGovernance && !Governed(o) then Raised(ValueError)
    else if o.id in m.orders then
      if m.prints[o.id] != PrintOf(o) then Raised(ValueError) else Ok((m, m.orders[o.id]))
    else if o.key.Some? && !Empty(o.key.value) && o.key.value in m.keys && !Empty(m.keys[o.key.value]) then
      var existing := m.keys[o.key.value];
      if m.prints[existing] != PrintOf(o) then Raised(ValueError) else Ok((m, m.orders[existing]))
    else Ok(Store(m, o, now))
  }

  function Allowed(from: OrderStatus): set<OrderStatus> {
    match from
    case New => {Validated, Rejected}
    case Validated => {Routing, Rejected}
    case Routing => {Working, Rejected, Unknown}
    case Working => {PartiallyFilled, Filled, CancelPending, Expired, Unknown}
    case PartiallyFilled => {PartiallyFilled, Filled, CancelPending, Unknown}
    case CancelPending => {Cancelled, Filled, Unknown}
    case Unknown => {Working, PartiallyFilled, Filled, Cancelled, RecoveryRequired}
    case RecoveryRequired => {Working, Cancelled, Filled, Rejected}
    case _ => {}
  }

  function Transition(m: Oms, id: Id, status: OrderStatus, now: real): Outcome<(Oms, Order)> {
    if id !in m.orders then Raised(KeyError)
    else if status !in Allowed(m.orders[id].status) then Raised(ValueError)
    else
      var updated := m.orders[id].(status := status, updatedAt := now);
      Ok((m.(orders := m.orders[id := updated]), updated))
  }

  function NewAverage(o: Order, quantity: real, price: real): real
    requires o.average.Some? ==> o.filled + quantity != 0.0
  {
    if o.average.None? then price
    else (o.average.value * o.filled + price * quantity) / (o.filled + quantity)
  }

  function Executed(o: Order, quantity: real, price: real, now: real): Order
    requires o.average.Some? ==> o.filled + quantity != 0.0
  {
    o.(filled := o.filled + quantity, average := Some(NewAverage(o, quantity, price)),
       status := if Abs(o.filled + quantity - o.quantity) <= TOL_12 then Filled else PartiallyFilled,
       updatedAt := now)
  }

  predicate FillAccepted(o: Order, f: Fill) {
    f.quantity > 0.0 && f.price > 0.0 && f.quantity <= o.Remaining() + TOL_12
  }

  /** record_fill. It divides by the new filled quantity, which is zero only for an order that was
      submitted with a negative one. */
  function RecordFill(m: Oms, f: Fill, now: real): Outcome<(Oms, Order)>
    requires OmsOk(m)
  {
    if f.order !in m.orders then Raised(KeyError)
    else
      var o := m.orders[f.order];
      if f.fillId in m.fills[f.order] then Ok((m, o))
      else if !FillAccepted(o, f) then Raised(ValueError)
      else if o.average.Some? && o.filled + f.quantity == 0.0 then Raised(ZeroDivisionError)
      else
        var updated := Executed(o, f.quantity, f.price, now);
        Ok((m.(orders := m.orders[f.order := updated], fills := m.fills[f.order := m.fills[f.order] + {f.fillId}]),
            updated))
  }

  /** freeze_for_reconciliation: only an UNKNOWN order is stored as RECOVERY_REQUIRED; any other
      live order is returned so marked, but stays as it was. */
  function Freeze(m: Oms, id: Id, now: real): Outcome<(Oms, Order)> {
    if id !in m.orders then Raised(KeyError)
    else if Terminal(m.orders[id].status) then Ok((m, m.orders[id]))
    else if m.orders[id].status == Unknown then Transition(m, id, RecoveryRequired, now)
    else Ok((m, m.orders[id].(status := RecoveryRequired, updatedAt := now)))
  }

  /** Freezing writes exactly when the order is UNKNOWN, and then only its status and time stamp. */
  lemma FreezeWritesIff(m: Oms, id: Id, now: real)
    requires id in m.orders
    ensures Freeze(m, id, now).Ok?
    ensures Freeze(m, id, now).value.0 != m <==> m.orders[id].status == Unknown
    ensures m.orders[id].status == Unknown ==>
              Freeze(m, id, now).value.0
                == m.(orders := m.orders[id := m.orders[id].(status := RecoveryRequired, updatedAt := now)])
  {
    var after := Freeze(m, id, now).value.0;
    if m.orders[id].status == Unknown {
      assert after.orders[id].status == RecoveryRequired;
    }
  }

  // ----- Fills, over any sequence -----

  ghost predicate FilledNonNegative(m: Oms) {
    forall id | id in m.orders :: m.orders[id].filled >= 0.0
  }

  /** Deliver fills for any orders, duplicates and refusals included; a refused one changes nothing. */
  ghost function Play(m: Oms, fills: seq<Fill>, now: real): (r: Oms)
    requires OmsOk(m) && FilledNonNegative(m)
    ensures OmsOk(r) && FilledNonNegative(r) && r.orders.Keys == m.orders.Keys
    ensures forall id | id in m.orders :: r.orders[id].quantity == m.orders[id].quantity
  {
    if fills == [] then m
    else
      var before := Play(m, fills[..|fills| - 1], now);
      Deliver(before, fills[|fills| - 1], now)
  }

  ghost function Deliver(m: Oms, f: Fill, now: real): (r: Oms)
    requires OmsOk(m) && FilledNonNegative(m)
    ensures OmsOk(r) && FilledNonNegative(r) && r.orders.Keys == m.orders.Keys
    ensures forall id | id in m.orders :: r.orders[id].quantity == m.orders[id].quantity
    ensures forall id | id in m.orders ::
              if Counts(m, f, id)
              then r.orders[id] == Executed(m.orders[id], f.quantity, f.price, now)
                && r.fills[id] == m.fills[id] + {f.fillId}
              else r.orders[id] == m.orders[id] && r.fills[id] == m.fills[id]
  {
    var after := RecordFill(m, f, now);
    if after.Ok? then after.value.0 else m
  }

  ghost predicate Counts(m: Oms, f: Fill, id: Id)
    requires OmsOk(m) && FilledNonNegative(m)
  {
    f.order == id && id in m.orders && f.fillId !in m.fills[id] && FillAccepted(m.orders[id], f)
  }

  /** The fills of `id` that were executed: the first acceptable delivery of each fill id. */
  ghost function Accepted(m: Oms, fills: seq<Fill>, now: real, id: Id): seq<Fill>
    requires OmsOk(m) && FilledNonNegative(m)
  {
    if fills == [] then []
    else
      var last := |fills| - 1;
      var before := Accepted(m, fills[..last], now, id);
      if Counts(Play(m, fills[..last], now), fills[last], id) then before + [fills[last]] else before
  }

  ghost function QuantitySum(fills: seq<Fill>): real {
    if fills == [] then 0.0 else QuantitySum(fills[..|fills| - 1]) + fills[|fills| - 1].quantity
  }

  ghost function WorthSum(fills: seq<Fill>): real {
    if fills == [] then 0.0 else WorthSum(fills[..|fills| - 1]) + fills[|fills| - 1].Worth()
  }

  ghost predicate Fresh(m: Oms, id: Id) {
    && id in m.orders && id in m.fills && m.fills[id] == {}
    && m.orders[id].filled == 0.0 && m.orders[id].average.None? && m.orders[id].quantity > 0.0
  }

  /** The stored amounts are exactly those of the executed fills. */
  ghost predicate Accounts(o: Order, ids: set<Id>, fills: seq<Fill>) {
    && ids == (set f | f in fills :: f.fillId)
    && (forall i, j | 0 <= i < j < |fills| :: fills[i].fillId != fills[j].fillId)
    && o.filled == QuantitySum(fills)
    && (fills == [] ==> o.average.None?)
    && (fills != [] ==> o.filled > 0.0 && o.average.Some? && o.average.value * o.filled == WorthSum(fills))
    && o.filled <= o.quantity + |fills| as real * TOL_12
  }

  lemma DivideBack(x: real, y: real)
    requires y != 0.0
    ensures x / y * y == x
  {
  }

  /** The new average, times the new quantity, is the old worth and the fill's. */
  lemma AverageWorth(o: Order, f: Fill)
    requires o.filled >= 0.0 && f.quantity > 0.0 && (o.average.None? ==> o.filled == 0.0)
    ensures NewAverage(o, f.quantity, f.price) * (o.filled + f.quantity)
         == (if o.average.None? then 0.0 else o.average.value * o.filled) + f.Worth()
  {
    if o.average.Some? {
      DivideBack(o.average.value * o.filled + f.price * f.quantity, o.filled + f.quantity);
    }
  }

  lemma OneMoreStep(n: nat)
    ensures (n + 1) as real * TOL_12 == n as real * TOL_12 + TOL_12
  {
  }

  lemma FillAccounts(o: Order, ids: set<Id>, fills: seq<Fill>, f: Fill, now: real)
    requires Accounts(o, ids, fills) && o.filled >= 0.0 && FillAccepted(o, f) && f.fillId !in ids
    ensures Accounts(Executed(o, f.quantity, f.price, now), ids + {f.fillId}, fills + [f])
  {
    assert (fills + [f])[..|fills|] == fills;
    assert fills == [] ==> QuantitySum(fills) == 0.0 && WorthSum(fills) == 0.0;
    AverageWorth(o, f);
    OneMoreStep(|fills|);
    assert |fills + [f]| == |fills| + 1;
    hide NewAverage;
    assert forall g | g in fills + [f] :: g in fills || g == f;
    assert (set g | g in fills + [f] :: g.fillId) == (set g | g in fills :: g.fillId) + {f.fillId};
  }

  lemma DeliveryAccounts(m: Oms, f: Fill, now: real, id: Id, executed: seq<Fill>)
    requires OmsOk(m) && FilledNonNegative(m) && id in m.orders && Accounts(m.orders[id], m.fills[id], executed)
    ensures var after := Deliver(m, f, now);
            Accounts(after.orders[id], after.fills[id], if Counts(m, f, id) then executed + [f] else executed)
  {
    if Counts(m, f, id) {
      FillAccounts(m.orders[id], m.fills[id], executed, f, now);
    }
  }

  /** Over any deliveries, with duplicates, refusals and other orders mixed in: filled is the sum
      over the distinct executed fill ids, average times filled is their total worth, and the
      overshoot is at most 1e-12 per executed fill. */
  lemma {:induction false} FillsAddUp(m: Oms, fills: seq<Fill>, now: real, id: Id)
    requires OmsOk(m) && FilledNonNegative(m) && Fresh(m, id)
    ensures var after := Play(m, fills, now); Accounts(after.orders[id], after.fills[id], Accepted(m, fills, now, id))
  {
    if fills != [] {
      var last := |fills| - 1;
      FillsAddUp(m, fills[..last], now, id);
      var before := Play(m, fills[..last], now);
      DeliveryAccounts(before, fills[last], now, id, Accepted(m, fills[..last], now, id));
    }
  }

  lemma {:induction false} WorthIsBetween(fills: seq<Fill>, lo: real, hi: real)
    requires forall f | f in fills :: f.quantity > 0.0 && lo <= f.price <= hi
    ensures lo * QuantitySum(fills) <= WorthSum(fills) <= hi * QuantitySum(fills)
  {
    if fills != [] {
      var f := fills[|fills| - 1];
      WorthIsBetween(fills[..|fills| - 1], lo, hi);
      assert f in fills;
      OneMoreWorth(lo, hi, QuantitySum(fills[..|fills| - 1]), WorthSum(fills[..|fills| - 1]), f);
    }
  }

  lemma OneMoreWorth(lo: real, hi: real, rest: real, worth: real, f: Fill)
    requires lo * rest <= worth <= hi * rest && f.quantity > 0.0 && lo <= f.price <= hi
    ensures lo * (rest + f.quantity) <= worth + f.Worth() <= hi * (rest + f.quantity)
  {
    ScalesWithin(lo, f.price, hi, f.quantity);
    Distributes(lo, rest, f.quantity);
    Distributes(hi, rest, f.quantity);
  }

  lemma Distributes(a: real, x: real, y: real)
    ensures a * (x + y) == a * x + a * y
  {
  }

  lemma ScalesWithin(lo: real, x: real, hi: real, q: real)
    requires lo <= x <= hi && q > 0.0
    ensures lo * q <= x * q <= hi * q
  {
  }

  lemma CancelsPositive(a: real, b: real, q: real)
    requires q > 0.0 && a * q <= b * q
    ensures a <= b
  {
  }

  lemma {:induction false} AcceptedAreAcceptable(m: Oms, fills: seq<Fill>, now: real, id: Id)
    requires OmsOk(m) && FilledNonNegative(m)
    ensures forall f | f in Accepted(m, fills, now, id) ::
            f in fills && f.order == id && f.quantity > 0.0 && f.price > 0.0
  {
    if fills != [] {
      AcceptedAreAcceptable(m, fills[..|fills| - 1], now, id);
    }
  }

  /** The average fill price lies between the least and the greatest executed price. */
  lemma AverageIsBetween(m: Oms, fills: seq<Fill>, now: real, id: Id, lo: real, hi: real)
    requires OmsOk(m) && FilledNonNegative(m) && Fresh(m, id) && Accepted(m, fills, now, id) != []
    requires forall f | f in Accepted(m, fills, now, id) :: lo <= f.price <= hi
    ensures Play(m, fills, now).orders[id].average.Some?
    ensures lo <= Play(m, fills, now).orders[id].average.value <= hi
  {
    FillsAddUp(m, fills, now, id);
    AcceptedAreAcceptable(m, fills, now, id);
    AverageFromAccounts(Play(m, fills, now).orders[id], Play(m, fills, now).fills[id], Accepted(m, fills, now, id), lo,
                        hi);
  }

  lemma AverageFromAccounts(o: Order, ids: set<Id>, executed: seq<Fill>, lo: real, hi: real)
    requires Accounts(o, ids, executed) && executed != []
    requires forall f | f in executed :: f.quantity > 0.0 && lo <= f.price <= hi
    ensures lo <= o.average.value <= hi
  {
    WorthIsBetween(executed, lo, hi);
    CancelsPositive(lo, o.average.value, o.filled);
    CancelsPositive(o.average.value, hi, o.filled);
  }

  // ----- The overshoot is real -----

  /** One fill for the whole order and then `n` fills of 1e-12 each. */
  function Drip(id: Id, quantity: real, price: real, n: nat): seq<Fill> {
    if n == 0 then [Fill(FillOf(id), id, id, quantity, price, 0.0)]
    else Drip(id, quantity, price, n - 1) + [Fill(FillOf(ChildOf(id, n)), id, id, TOL_12, price, 0.0)]
  }

  /** The order once `n` drips have been executed. */
  ghost predicate Dripped(m: Oms, id: Id, quantity: real, n: nat) {
    && OmsOk(m) && id in m.orders && m.orders[id].quantity == quantity
    && m.orders[id].filled == quantity + n as real * TOL_12
    && m.orders[id].status == (if n <= 1 then Filled else PartiallyFilled)
    && (forall k | k > n :: FillOf(ChildOf(id, k)) !in m.fills[id])
  }

  /** All of them are executed: the bound of FillsAddUp is reached up to one step, and an order
      that was FILLED is PARTIALLY_FILLED again after the second drip. */
  lemma {:induction false} DripOverfills(m: Oms, now: real, id: Id, price: real, n: nat)
    requires OmsOk(m) && FilledNonNegative(m) && Fresh(m, id) && price > 0.0
    ensures Dripped(Play(m, Drip(id, m.orders[id].quantity, price, n), now), id, m.orders[id].quantity, n)
  {
    hide Dripped; hide OmsOk; hide FilledNonNegative; hide Drip; hide Play;
    if n == 0 {
      FirstDrip(m, now, id, price);
    } else {
      DripOverfills(m, now, id, price, n - 1);
      NextDrip(m, now, id, price, n);
    }
  }

  lemma NextDrip(m: Oms, now: real, id: Id, price: real, n: nat)
    requires OmsOk(m) && FilledNonNegative(m) && Fresh(m, id) && price > 0.0 && n > 0
    requires Dripped(Play(m, Drip(id, m.orders[id].quantity, price, n - 1), now), id, m.orders[id].quantity, n - 1)
    ensures Dripped(Play(m, Drip(id, m.orders[id].quantity, price, n), now), id, m.orders[id].quantity, n)
  {
    var quantity := m.orders[id].quantity;
    var fills := Drip(id, quantity, price, n);
    DripEnds(id, quantity, price, n);
    hide Dripped; hide Deliver; hide OmsOk; hide Fresh; hide FilledNonNegative; hide Drip;
    OneMoreDrip(Play(m, fills[..|fills| - 1], now), now, id, price, quantity, n);
  }

  lemma DripEnds(id: Id, quantity: real, price: real, n: nat)
    requires n > 0
    ensures var fills := Drip(id, quantity, price, n);
            && fills != [] && fills[..|fills| - 1] == Drip(id, quantity, price, n - 1)
            && fills[|fills| - 1] == Fill(FillOf(ChildOf(id, n)), id, id, TOL_12, price, 0.0)
  {
  }

  lemma FirstDrip(m: Oms, now: real, id: Id, price: real)
    requires OmsOk(m) && FilledNonNegative(m) && Fresh(m, id) && price > 0.0
    ensures Dripped(Play(m, Drip(id, m.orders[id].quantity, price, 0), now), id, m.orders[id].quantity, 0)
  {
    var fills := Drip(id, m.orders[id].quantity, price, 0);
    assert fills[..0] == [];
    assert Counts(m, fills[0], id);
    assert Play(m, fills, now) == Deliver(m, fills[0], now);
    assert Deliver(m, fills[0], now).fills[id] == {FillOf(id)};
  }

  lemma Multiples(n: nat)
    requires n > 0
    ensures n as real * TOL_12 == (n - 1) as real * TOL_12 + TOL_12
    ensures n as real * TOL_12 > TOL_12 <==> n > 1
    ensures (n - 1) as real * TOL_12 >= 0.0
  {
    if n > 1 {
      ProductGrows(n as real, TOL_12);
    }
  }

  lemma ProductGrows(x: real, y: real)
    requires x > 1.0 && y > 0.0
    ensures x * y > y
  {
  }

  lemma OneMoreDrip(m: Oms, now: real, id: Id, price: real, quantity: real, n: nat)
    requires FilledNonNegative(m) && price > 0.0 && n > 0 && Dripped(m, id, quantity, n - 1)
    ensures Dripped(Deliver(m, Fill(FillOf(ChildOf(id, n)), id, id, TOL_12, price, 0.0), now), id, quantity, n)
  {
    var f := Fill(FillOf(ChildOf(id, n)), id, id, TOL_12, price, 0.0);
    Multiples(n);
    assert Counts(m, f, id);
    assert Deliver(m, f, now).orders[id] == Executed(m.orders[id], TOL_12, price, now);
    assert Deliver(m, f, now).fills[id] == m.fills[id] + {f.fillId};
    hide Deliver; hide NewAverage;
  }

  // ----- Transitions, over any sequence -----

  ghost function PlayTransitions(m: Oms, steps: seq<(Id, OrderStatus)>, now: real): Oms {
    if steps == [] then m
    else
      var before, step := PlayTransitions(m, steps[..|steps| - 1], now), steps[|steps| - 1];
      var after := Transition(before, step.0, step.1, now);
      if after.Ok? then after.value.0 else before
  }

  /** No sequence of transitions takes an order out of a terminal status, or changes it there. */
  lemma {:induction false} TerminalAbsorbs(m: Oms, steps: seq<(Id, OrderStatus)>, now: real, id: Id)
    requires id in m.orders && Terminal(m.orders[id].status)
    ensures id in PlayTransitions(m, steps, now).orders && PlayTransitions(m, steps, now).orders[id] == m.orders[id]
  {
    if steps != [] {
      TerminalAbsorbs(m, steps[..|steps| - 1], now, id);
    }
  }

  /** record_fill does not consult the transition table: a terminal order keeps its status exactly
      when the fill is a duplicate or refused, or the order is FILLED and stays within 1e-12. */
  lemma FillKeepsTerminalIff(m: Oms, f: Fill, now: real)
    requires OmsOk(m) && FilledNonNegative(m) && f.order in m.orders && Terminal(m.orders[f.order].status)
    ensures var o, after := m.orders[f.order], RecordFill(m, f, now);
            (after.Ok? ==> after.value.1.status == o.status)
            <==> (|| f.fillId in m.fills[f.order] || !FillAccepted(o, f)
                  || (o.status == Filled && Abs(o.filled + f.quantity - o.quantity) <= TOL_12))
  {
  }

  // ----- Terminal orders, over any mix of transitions and fills -----

  datatype Step = Move(id: Id, status: OrderStatus) | Report(fill: Fill)

  ghost function Take(m: Oms, step: Step, now: real): (r: Oms)
    requires OmsOk(m) && FilledNonNegative(m)
    ensures OmsOk(r) && FilledNonNegative(r) && r.orders.Keys == m.orders.Keys
  {
    match step
    case Report(fill) => Deliver(m, fill, now)
    case Move(id, status) =>
      var after := Transition(m, id, status, now);
      if after.Ok? then after.value.0 else m
  }

  ghost function PlaySteps(m: Oms, steps: seq<Step>, now: real): (r: Oms)
    requires OmsOk(m) && FilledNonNegative(m)
    ensures OmsOk(r) && FilledNonNegative(r) && r.orders.Keys == m.orders.Keys
  {
    if steps == [] then m else Take(PlaySteps(m, steps[..|steps| - 1], now), steps[|steps| - 1], now)
  }

  /** A new, acceptable fill of the order, other than one that keeps a FILLED order within 1e-12. */
  ghost predicate Disturbs(m: Oms, step: Step, id: Id)
    requires OmsOk(m) && FilledNonNegative(m)
  {
    && step.Report? && Counts(m, step.fill, id)
    && !(m.orders[id].status == Filled
         && Abs(m.orders[id].filled + step.fill.quantity - m.orders[id].quantity) <= TOL_12)
  }

  lemma TakeKeepsTerminalIff(m: Oms, step: Step, now: real, id: Id)
    requires OmsOk(m) && FilledNonNegative(m) && id in m.orders && Terminal(m.orders[id].status)
    ensures Take(m, step, now).orders[id].status == m.orders[id].status <==> !Disturbs(m, step, id)
  {
    if step.Report? && step.fill.order == id {
      FillKeepsTerminalIff(m, step.fill, now);
    }
  }

  ghost predicate StatusAt(m: Oms, steps: seq<Step>, now: real, id: Id, n: nat)
    requires OmsOk(m) && FilledNonNegative(m) && id in m.orders && n <= |steps|
  {
    PlaySteps(m, steps[..n], now).orders[id].status == m.orders[id].status
  }

  ghost predicate DisturbedAt(m: Oms, steps: seq<Step>, now: real, id: Id, n: nat)
    requires OmsOk(m) && FilledNonNegative(m) && n < |steps|
  {
    Disturbs(PlaySteps(m, steps[..n], now), steps[n], id)
  }

  /** Over any mix of transitions and fills, of this order and of others, a terminal order keeps its
      status all along exactly when no fill that disturbs it is delivered. */
  lemma {:induction false} TerminalKeptIff(m: Oms, steps: seq<Step>, now: real, id: Id)
    requires OmsOk(m) && FilledNonNegative(m) && id in m.orders && Terminal(m.orders[id].status)
    ensures (forall n: nat | n <= |steps| :: StatusAt(m, steps, now, id, n))
            <==> (forall n: nat | n < |steps| :: !DisturbedAt(m, steps, now, id, n))
  {
    hide PlaySteps; hide Disturbs; hide OmsOk; hide FilledNonNegative;
    if steps == [] {
      NothingTaken(m, now, id);
    } else {
      var before := steps[..|steps| - 1];
      TerminalKeptIff(m, before, now, id);
      LastStepKeepsIff(m, steps, now, id);
      forall n: nat | n < |steps|
        ensures StatusAt(m, before, now, id, n) == StatusAt(m, steps, now, id, n)
        ensures n < |before| ==> DisturbedAt(m, before, now, id, n) == DisturbedAt(m, steps, now, id, n)
      {
        PrefixAgrees(m, steps, now, id, n);
      }
    }
  }

  lemma NothingTaken(m: Oms, now: real, id: Id)
    requires OmsOk(m) && FilledNonNegative(m) && id in m.orders
    ensures StatusAt(m, [], now, id, 0)
  {
  }

  lemma PrefixAgrees(m: Oms, steps: seq<Step>, now: real, id: Id, n: nat)
    requires OmsOk(m) && FilledNonNegative(m) && id in m.orders && n < |steps|
    ensures StatusAt(m, steps[..|steps| - 1], now, id, n) == StatusAt(m, steps, now, id, n)
    ensures n < |steps| - 1 ==> DisturbedAt(m, steps[..|steps| - 1], now, id, n) == DisturbedAt(m, steps, now, id, n)
  {
    hide OmsOk; hide FilledNonNegative; hide PlaySteps; hide Disturbs;
    assert steps[..|steps| - 1][..n] == steps[..n];
  }

  lemma LastStepKeepsIff(m: Oms, steps: seq<Step>, now: real, id: Id)
    requires OmsOk(m) && FilledNonNegative(m) && id in m.orders && Terminal(m.orders[id].status) && steps != []
    ensures var last := |steps| - 1;
            StatusAt(m, steps, now, id, last) ==>
              (StatusAt(m, steps, now, id, |steps|) <==> !DisturbedAt(m, steps, now, id, last))
  {
    hide Disturbs; hide Take;
    assert steps[..|steps|] == steps;
    if StatusAt(m, steps, now, id, |steps| - 1) {
      TakeKeepsTerminalIff(PlaySteps(m, steps[..|steps| - 1], now), steps[|steps| - 1], now, id);
    }
  }
}
