/** What each operation of the order manager accepts, and what every field of the order holds
    afterwards, stated on orders, keys and fills only. */
module OmsLaws {
  import opened Common
  import opened Orders
  import opened OmsSpec

  /** The two orders ask for the same thing, under the same key and the same governance. */
  predicate SameRequest(a: Order, b: Order) {
    && a.decision == b.decision && a.symbol == b.symbol && a.side == b.side && a.quantity == b.quantity
    && a.orderType == b.orderType && a.limitPrice == b.limitPrice && a.policy == b.policy && a.key == b.key
    && a.metadata.configHash == b.metadata.configHash && a.metadata.modelHash == b.metadata.modelHash
  }

  /** Every stored order still has the request it was submitted with. */
  ghost predicate PrintsMatch(m: Oms) {
    forall id | id in m.orders :: id in m.prints && m.prints[id] == PrintOf(m.orders[id])
  }

  /** Nothing about any other order has changed. */
  ghost predicate OnlyAt(m: Oms, m': Oms, id: Id) {
    && m'.orders.Keys == m.orders.Keys + {id} && m'.fills.Keys == m.fills.Keys + {id}
    && m'.prints.Keys == m.prints.Keys + {id}
    && (forall other | other in m.orders && other != id :: m'.orders[other] == m.orders[other])
    && (forall other | other in m.fills && other != id :: m'.fills[other] == m.fills[other])
    && (forall other | other in m.prints && other != id :: m'.prints[other] == m.prints[other])
  }

  // ----- submit -----

  /** The order an equal submission would be answered with: that of the same id, or else of the same key. */
  ghost function Earlier(m: Oms, o: Order): Option<Id> {
    if o.id in m.orders then Some(o.id)
    else if o.key.Some? && o.key.value != Name("") && o.key.value in m.keys && m.keys[o.key.value] != Name("")
    then Some(m.keys[o.key.value])
    else None
  }

  /** An ungoverned order is refused where governance is required. One that was submitted before, by id
      or by key, is answered with the stored one if it asks for the same, and refused if not. Any other
      is stored as NEW, with no fills, and its key leads to it. */
  lemma SubmitIff(m: Oms, o: Order, requireGovernance: bool, now: real)
    requires OmsOk(m) && PrintsMatch(m)
    ensures var r := OmsSpec.Submit(m, o, requireGovernance, now);
            if requireGovernance && (o.metadata.configHash == None || o.metadata.configHash == Some("")) then
              r == Raised(ValueError)
            else if Earlier(m, o).Some? then
              && Earlier(m, o).value in m.orders
              && var stored := m.orders[Earlier(m, o).value];
              r == if SameRequest(stored, o) then Ok((m, stored)) else Raised(ValueError)
            else r.Ok? && StoredAsNew(m, o, now, r.value.0, r.value.1)
  {
    hide StoredAsNew; hide PrintOf; hide SameRequest; hide Store;
    if Earlier(m, o).Some? {
      PrintIff(m.orders[Earlier(m, o).value], o);
    }
    StoreIs(m, o, now);
  }

  /** The order is in as NEW, with no fills, and its key leads to it. */
  ghost predicate StoredAsNew(m: Oms, o: Order, now: real, m': Oms, stored: Order) {
    && OnlyAt(m, m', o.id) && o.id in m'.orders && o.id in m'.fills && m'.orders[o.id] == stored
    && m'.fills[o.id] == {} && PrintsMatch(m')
    && stored == o.(status := New, updatedAt := now)
    && (forall k :: k in m'.keys <==> k in m.keys || (o.key == Some(k) && k != Name("")))
    && (forall k | k in m'.keys :: m'.keys[k] == if o.key == Some(k) && k != Name("") then o.id else m.keys[k])
  }

  lemma StoreIs(m: Oms, o: Order, now: real)
    requires PrintsMatch(m)
    ensures StoredAsNew(m, o, now, Store(m, o, now).0, Store(m, o, now).1)
  {
    PrintIff(o, o.(status := New, updatedAt := now));
    hide PrintOf;
  }

  lemma PrintIff(a: Order, b: Order)
    ensures PrintOf(a) == PrintOf(b) <==> SameRequest(a, b)
  {
  }

  /** What an order asks for never changes afterwards. */
  lemma RequestsStay(m: Oms, id: Id, status: OrderStatus, f: Fill, now: real)
    requires OmsOk(m) && PrintsMatch(m)
    ensures Transition(m, id, status, now).Ok? ==> PrintsMatch(Transition(m, id, status, now).value.0)
    ensures RecordFill(m, f, now).Ok? ==> PrintsMatch(RecordFill(m, f, now).value.0)
    ensures Freeze(m, id, now).Ok? ==> PrintsMatch(Freeze(m, id, now).value.0)
  {
    hide PrintOf; hide PrintsMatch; hide Allowed; hide FillAccepted; hide NewAverage; hide Executed; hide SameRequest;
    if id in m.orders {
      var o := m.orders[id];
      PrintIff(o, o.(status := status, updatedAt := now));
      PrintIff(o, o.(status := RecoveryRequired, updatedAt := now));
      SameRequestStays(o, status, now);
      RequestStays(m, id, o.(status := status, updatedAt := now), m.fills);
      RequestStays(m, id, o.(status := RecoveryRequired, updatedAt := now), m.fills);
    }
    if f.order in m.orders && RecordFill(m, f, now).Ok? && f.fillId !in m.fills[f.order] {
      var o := m.orders[f.order];
      ExecutedIsSame(o, f, now);
      RequestStays(m, f.order, Executed(o, f.quantity, f.price, now),
                   m.fills[f.order := m.fills[f.order] + {f.fillId}]);
    }
  }

  lemma RequestStays(m: Oms, id: Id, o: Order, fills: map<Id, set<Id>>)
    requires PrintsMatch(m) && id in m.orders && PrintOf(o) == PrintOf(m.orders[id])
    ensures PrintsMatch(Oms(m.orders[id := o], m.keys, m.prints, fills))
  {
    hide PrintOf;
  }

  lemma SameRequestStays(o: Order, status: OrderStatus, now: real)
    ensures SameRequest(o, o.(status := status, updatedAt := now))
    ensures SameRequest(o, o.(status := RecoveryRequired, updatedAt := now))
  {
  }

  lemma ExecutedIsSame(o: Order, f: Fill, now: real)
    requires o.average.Some? ==> o.filled + f.quantity != 0.0
    ensures PrintOf(Executed(o, f.quantity, f.price, now)) == PrintOf(o)
  {
  }

  // ----- transition -----

  /** The states from which each state can be reached. */
  predicate LeadsTo(from: OrderStatus, to: OrderStatus) {
    match to
    case New => false
    case Validated => from == New
    case Routing => from == Validated
    case Working => from in {Routing, Unknown, RecoveryRequired}
    case PartiallyFilled => from in {Working, PartiallyFilled, Unknown}
    case Filled => from in {Working, PartiallyFilled, CancelPending, Unknown, RecoveryRequired}
    case CancelPending => from in {Working, PartiallyFilled}
    case Cancelled => from in {CancelPending, Unknown, RecoveryRequired}
    case Rejected => from in {New, Validated, Routing, RecoveryRequired}
    case Expired => from == Working
    case Unknown => from in {Routing, Working, PartiallyFilled, CancelPending}
    case RecoveryRequired => from == Unknown
  }

  /** A move is accepted exactly along the table, and writes the status and the time; nothing else. */
  lemma TransitionIff(m: Oms, id: Id, status: OrderStatus, now: real)
    ensures var r := Transition(m, id, status, now);
            if id !in m.orders then r == Raised(KeyError)
            else if LeadsTo(m.orders[id].status, status) then
              && r.Ok? && var m', moved := r.value.0, r.value.1;
              && moved == m.orders[id].(status := status, updatedAt := now)
              && m'.orders == m.orders[id := moved] && m'.keys == m.keys && m'.prints == m.prints
              && m'.fills == m.fills
            else r == Raised(ValueError)
  {
    if id in m.orders {
      assert status in Allowed(m.orders[id].status) <==> LeadsTo(m.orders[id].status, status);
    }
  }

  // ----- record_fill -----

  /** A fill whose id was seen is answered with the order as it stands. Any other is accepted exactly if
      its amounts are positive and it leaves no more than 1e-12 over the order's quantity; it then adds
      to the filled quantity and, at its price, to the worth, and the order is FILLED when it is within
      1e-12 of its quantity, PARTIALLY_FILLED otherwise, whatever it was before. */
  lemma RecordFillIff(m: Oms, f: Fill, now: real)
    requires OmsOk(m) && FilledNonNegative(m)
    ensures var r := RecordFill(m, f, now);
            if f.order !in m.orders then r == Raised(KeyError)
            else
              var o := m.orders[f.order];
              if f.fillId in m.fills[f.order] then r == Ok((m, o))
              else if f.quantity > 0.0 && f.price > 0.0 && Fits(o, f.quantity) then
                && r.Ok? && var m', p := r.value.0, r.value.1;
                && m'.orders == m.orders[f.order := p] && m'.keys == m.keys && m'.prints == m.prints
                && m'.fills == m.fills[f.order := m.fills[f.order] + {f.fillId}] && Grown(o, f, p, now)
              else r == Raised(ValueError)
  {
    hide NewAverage; hide Executed; hide Grown; hide FilledNonNegative;
    if f.order in m.orders {
      var o := m.orders[f.order];
      assert o.filled >= 0.0 by { NotNegative(m, f.order); }
      assert FillAccepted(o, f) <==> f.quantity > 0.0 && f.price > 0.0 && Fits(o, f.quantity);
      if f.quantity > 0.0 {
        ExecutedGrows(o, f, now);
      }
    }
  }

  lemma NotNegative(m: Oms, id: Id)
    requires FilledNonNegative(m) && id in m.orders
    ensures m.orders[id].filled >= 0.0
  {
  }

  /** The order with the fill added. */
  ghost predicate Grown(o: Order, f: Fill, p: Order, now: real) {
    && p == o.(filled := p.filled, average := p.average, status := p.status, updatedAt := now)
    && p.filled == o.filled + f.quantity && p.average.Some?
    && p.average.value * p.filled
       == (if o.average == None then f.price * p.filled else o.average.value * o.filled + f.price * f.quantity)
    && p.status == (if -0.000000000001 <= p.filled - o.quantity <= 0.000000000001 then OrderStatus.Filled
                    else PartiallyFilled)
  }

  lemma ExecutedGrows(o: Order, f: Fill, now: real)
    requires o.filled + f.quantity != 0.0
    ensures Grown(o, f, Executed(o, f.quantity, f.price, now), now)
  {
    hide NewAverage;
    AverageIs(o, f.quantity, f.price);
  }

  lemma AverageIs(o: Order, quantity: real, price: real)
    requires o.filled + quantity != 0.0
    ensures NewAverage(o, quantity, price) * (o.filled + quantity)
         == if o.average == None then price * (o.filled + quantity)
            else o.average.value * o.filled + price * quantity
  {
  }

  /** There is room for the quantity, up to 1e-12; an order that is full has room for no more than that. */
  predicate Fits(o: Order, quantity: real) {
    if o.filled <= o.quantity then o.filled + quantity <= o.quantity + 0.000000000001 else quantity <= 0.000000000001
  }

  // ----- freeze_for_reconciliation -----

  /** An order that ended is answered as it is; any other is answered marked RECOVERY_REQUIRED. */
  lemma FreezeAnswers(m: Oms, id: Id, now: real)
    ensures var r := Freeze(m, id, now);
            if id !in m.orders then r == Raised(KeyError)
            else if m.orders[id].status in {Filled, Cancelled, Rejected, Expired} then r == Ok((m, m.orders[id]))
            else r.Ok? && r.value.1 == m.orders[id].(status := RecoveryRequired, updatedAt := now)
  {
  }
}
