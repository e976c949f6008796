/** The gates, the terms of a batch and the end of an execution, stated on orders, quotes, limits, rows
    and reservations only. */
module ExecutionLaws {
  import opened Common
  import opened Orders
  import opened ExecutionBatch
  import opened ExecutionExits
  import opened ExecutionProtocol
  import opened ExecutionSpec
  import opened Identity
  import A = AdmissionSpec
  import AdmissionRuns
  import E = StateEvents
  import J = JournalSpec
  import JournalLaws
  import JR = JournalRuns
  import O = OmsSpec
  import PreTrade
  import Slicing
  import Sums
  import V = Venue

  // ----- The gates -----

  /** What is wrong with an order, for each reason to turn it away. */
  ghost predicate Wrong(reason: PreTrade.Reason, o: Order, price: real, portfolio: real, symbol: real, dailyLoss: real,
                        spread: real, limits: A.Limits, healthy: bool) {
    match reason
    case InvalidQuantityOrPrice => o.quantity <= 0.0 || price <= 0.0
    case NegativeInput => portfolio < 0.0 || symbol < 0.0 || dailyLoss < 0.0 || spread < 0.0
    case NegativeLimit =>
      || limits.maxOrder < 0.0 || limits.maxPortfolio < 0.0 || limits.maxSymbol < 0.0
      || limits.maxDailyLoss < 0.0 || limits.maxSpread < 0.0
    case InvalidSide => o.side != Buy && o.side != Sell
    case OrderLimit => limits.maxOrder < o.quantity * price
    case PortfolioLimit => limits.maxPortfolio < portfolio + o.quantity * price
    case SymbolLimit => limits.maxSymbol < symbol + o.quantity * price
    case DailyLossLimit => limits.maxDailyLoss <= dailyLoss
    case SpreadLimit => limits.maxSpread < spread
    case VenueUnhealthy => !healthy
  }

  /** Each reason is given exactly for its own condition. */
  lemma EachReasonIff(reason: PreTrade.Reason, o: Order, price: real, portfolio: real, symbol: real, dailyLoss: real,
                      spread: real, limits: A.Limits, healthy: bool)
    ensures reason in PreTrade.Evaluate(o, price, portfolio, symbol, dailyLoss, spread, limits, healthy)
       <==> Wrong(reason, o, price, portfolio, symbol, dailyLoss, spread, limits, healthy)
  {
    hide PreTrade.BadInputs; hide PreTrade.BrokenLimits; hide PreTrade.Admissible; hide Wrong;
    BadInputIff(reason, o, price, portfolio, symbol, dailyLoss, spread, limits, healthy);
    BrokenLimitIff(reason, o, price, portfolio, symbol, dailyLoss, spread, limits, healthy);
  }

  const INPUTS: set<PreTrade.Reason> :=
    {PreTrade.InvalidQuantityOrPrice, PreTrade.NegativeInput, PreTrade.NegativeLimit, PreTrade.InvalidSide}

  lemma BadInputIff(reason: PreTrade.Reason, o: Order, price: real, portfolio: real, symbol: real, dailyLoss: real,
                    spread: real, limits: A.Limits, healthy: bool)
    ensures reason in PreTrade.BadInputs(o, price, portfolio, symbol, dailyLoss, spread, limits)
       <==> reason in INPUTS && Wrong(reason, o, price, portfolio, symbol, dailyLoss, spread, limits, healthy)
  {
  }

  lemma BrokenLimitIff(reason: PreTrade.Reason, o: Order, price: real, portfolio: real, symbol: real, dailyLoss: real,
                       spread: real, limits: A.Limits, healthy: bool)
    ensures reason in PreTrade.BrokenLimits(o, price, portfolio, symbol, dailyLoss, spread, limits, healthy)
       <==> reason !in INPUTS && Wrong(reason, o, price, portfolio, symbol, dailyLoss, spread, limits, healthy)
  {
  }

  /** The limits an order has to respect, on top of the portfolio and the symbol as given. */
  ghost predicate WithinLimits(o: Order, terms: Terms) {
    var notional := o.quantity * terms.referencePrice;
    && 0.0 < o.quantity && 0.0 < terms.referencePrice && (o.side == Buy || o.side == Sell)
    && 0.0 <= terms.portfolioNotional && terms.portfolioNotional + notional <= terms.limits.maxPortfolio
    && 0.0 <= terms.symbolNotional && terms.symbolNotional + notional <= terms.limits.maxSymbol
    && notional <= terms.limits.maxOrder && 0.0 <= terms.dailyLoss < terms.limits.maxDailyLoss
    && 0.0 <= terms.spread <= terms.limits.maxSpread
  }

  /** Nothing in the journal waits for the broker. */
  ghost predicate NothingPending(t: J.Tables) {
    forall id | id in t.rows ::
      || t.rows[id].state in {J.Cancelled, J.Rejected, J.Expired, J.Recovered}
      || (t.rows[id].state == J.Filled && t.rows[id].complete)
  }

  /** The gates let an order in exactly if its configuration hash is the approved one, or none; it is
      quoted, in its own symbol, by an authorized and healthy venue; it is within the limits; nothing in
      the journal waits for the broker; and the controls are normal. It goes on under the approved hashes. */
  lemma GateIff(o: Order, config: Config, quoted: Outcome<V.Quote>, terms: Terms, t: J.Tables)
    ensures var r := GateVerdict(o, config, quoted, terms, UnresolvedIn(t));
            if o.metadata.configHash != None && o.metadata.configHash != Some(config.hash) then
              r == Raised(PermissionError)
            else if quoted.Raised? then r == Raised(quoted.error)
            else if quoted.value.symbol != o.symbol then r == Raised(RuntimeError)
            else if && quoted.value.venue in config.venues && quoted.value.healthy && WithinLimits(o, terms)
                    && NothingPending(t) && terms.controlsNormal
            then
              && r.Ok? && r.value.1 == quoted.value
              && r.value.0 == o.(metadata := Metadata(Some(config.hash), Some(config.modelHash), o.metadata.slices,
                                                      o.metadata.participation))
            else r == Raised(PermissionError)
  {
    if quoted.Ok? {
      WithinLimitsIff(o, terms);
    }
    NothingPendingIff(t);
    hide NothingPending; hide WithinLimits; hide PreTrade.Admissible; hide UnresolvedIn;
  }

  lemma WithinLimitsIff(o: Order, terms: Terms)
    ensures WithinLimits(o, terms)
       <==> PreTrade.Admissible(o, terms.referencePrice, terms.portfolioNotional, terms.symbolNotional,
                                terms.dailyLoss, terms.spread, terms.limits, true)
  {
    if WithinLimits(o, terms) {
      PositiveNotional(o.quantity, terms.referencePrice);
    }
    if PreTrade.Admissible(o, terms.referencePrice, terms.portfolioNotional, terms.symbolNotional, terms.dailyLoss,
                           terms.spread, terms.limits, true) {
      PositiveNotional(o.quantity, terms.referencePrice);
    }
  }

  lemma NothingPendingIff(t: J.Tables)
    ensures NothingPending(t) <==> UnresolvedIn(t) == {}
  {
    forall id | id in t.rows
      ensures id in UnresolvedIn(t) <==>
                !(|| t.rows[id].state in {J.Cancelled, J.Rejected, J.Expired, J.Recovered}
                  || (t.rows[id].state == J.Filled && t.rows[id].complete)) {
      JournalLaws.ResolvedIff(t.rows[id]);
    }
    if NothingPending(t) {
      assert forall id :: id !in UnresolvedIn(t);
    }
  }

  // ----- The terms of a batch -----

  /** The notional of order i, and what it adds to one symbol. */
  ghost function Worths(b: BatchTerms, orders: seq<Order>, n: nat): seq<real>
    requires Priced(b, orders, n)
  {
    seq(n, i requires 0 <= i < n => orders[i].quantity * b.prices[orders[i].symbol])
  }

  ghost function WorthsIn(b: BatchTerms, orders: seq<Order>, symbol: string, n: nat): seq<real>
    requires Priced(b, orders, n)
  {
    seq(n, i requires 0 <= i < n =>
      if orders[i].symbol == symbol then orders[i].quantity * b.prices[symbol] else 0.0)
  }

  lemma {:induction false} ProjectionsAreSums(b: BatchTerms, orders: seq<Order>, symbol: string, n: nat)
    requires Priced(b, orders, n)
    ensures Projected(b, orders, n) == b.portfolio + Sums.SumSeq(Worths(b, orders, n))
    ensures ProjectedIn(b, orders, symbol, n)
         == (if symbol in b.symbols then b.symbols[symbol] else 0.0) + Sums.SumSeq(WorthsIn(b, orders, symbol, n))
  {
    if n > 0 {
      ProjectionsAreSums(b, orders, symbol, n - 1);
      assert Worths(b, orders, n)[..n - 1] == Worths(b, orders, n - 1);
      assert WorthsIn(b, orders, symbol, n)[..n - 1] == WorthsIn(b, orders, symbol, n - 1);
    }
  }

  /** Order k is checked, and executed, at the prices and limits of the batch, on top of the baseline
      and of the notionals of the orders before it. */
  lemma TermsAre(b: BatchTerms, orders: seq<Order>, k: nat, controlsNormal: bool, routable: bool)
    requires Priced(b, orders, k + 1)
    ensures var terms, symbol := TermsFor(b, orders, k, controlsNormal, routable), orders[k].symbol;
            && terms.referencePrice == b.prices[symbol] && terms.spread == b.spreads[symbol]
            && terms.portfolioNotional == b.portfolio + Sums.SumSeq(Worths(b, orders, k))
            && terms.symbolNotional == (if symbol in b.symbols then b.symbols[symbol] else 0.0)
                                       + Sums.SumSeq(WorthsIn(b, orders, symbol, k))
            && terms.dailyLoss == b.dailyLoss && terms.limits == b.limits
            && terms.volumes == (if symbol in b.volumes then Some(b.volumes[symbol]) else None)
            && terms.controlsNormal == controlsNormal && terms.routable == routable
  {
    ProjectionsAreSums(b, orders, orders[k].symbol, k);
  }

  /** A batch is admitted exactly if every order has a price and a spread, no id and no non-empty key
      comes twice, and every order, on its own terms, is within the limits. */
  lemma AdmittedIff(b: BatchTerms, orders: seq<Order>)
    ensures Admitted(b, orders) <==>
              && Priced(b, orders, |orders|)
              && (forall i, j | 0 <= i < j < |orders| ::
                    && orders[i].id != orders[j].id
                    && (orders[i].key == orders[j].key ==> orders[i].key == None || orders[i].key == Some(Name(""))))
              && (forall k: nat | k < |orders| :: OnItsTerms(b, orders, k))
  {
    if Priced(b, orders, |orders|) {
      forall k: nat | k < |orders| ensures AllowedAt(b, orders, k) <==> OnItsTerms(b, orders, k) {
        WithinLimitsIff(orders[k], TermsFor(b, orders, k, true, true));
      }
    }
    hide AllowedAt; hide OnItsTerms;
  }

  ghost predicate OnItsTerms(b: BatchTerms, orders: seq<Order>, k: nat) {
    Priced(b, orders, k + 1) && WithinLimits(orders[k], TermsFor(b, orders, k, true, true))
  }

  // ----- The set-up -----

  /** The backend stream of the order has this event. */
  ghost predicate HasTold(log: E.Log, o: Order, status: OrderStatus, sequence: int, fingerprint: Id) {
    && (E.Backend, o.id) in log
    && exists k :: 0 <= k < |log[(E.Backend, o.id)]|
                   && E.SaysTheSame(log[(E.Backend, o.id)][k],
                                    E.Entry(o.decision, fingerprint, E.Known(status), o.filled, o.average, sequence,
                                            0.0))
  }

  lemma TellTells(w: World, o: Order, status: OrderStatus, sequence: nat, fingerprint: Id, p: Order,
                  before: OrderStatus, earlier: int)
    requires Tell(w, o, status, sequence, fingerprint).1.Ok?
    ensures var w' := Tell(w, o, status, sequence, fingerprint).0;
            && HasTold(w'.events, o, status, sequence, fingerprint) && w'.oms == w.oms && w'.journal == w.journal
            && (HasTold(w.events, p, before, earlier, fingerprint)
                ==> HasTold(w'.events, p, before, earlier, fingerprint))
            && Tell(w, o, status, sequence, fingerprint).1.value == o
  {
    var e := BackendEvent(o.(status := status), sequence, fingerprint);
    var s, log := E.StreamOf(w.events, E.Backend, o.id), E.Record(w.events, e).value;
    AppendTells(s, e.entry);
    var s' := E.Append(s, e.entry).value;
    assert log[(E.Backend, o.id)] == s';
    var k :| 0 <= k < |s'| && E.SaysTheSame(s'[k], e.entry);
    assert E.SaysTheSame(log[(E.Backend, o.id)][k],
                         E.Entry(o.decision, fingerprint, E.Known(status), o.filled, o.average, sequence, 0.0));
    if HasTold(w.events, p, before, earlier, fingerprint) {
      var told := E.Entry(p.decision, fingerprint, E.Known(before), p.filled, p.average, earlier, 0.0);
      var j :| 0 <= j < |w.events[(E.Backend, p.id)]| && E.SaysTheSame(w.events[(E.Backend, p.id)][j], told);
      assert log[(E.Backend, p.id)][j] == w.events[(E.Backend, p.id)][j];
    }
  }

  lemma AppendTells(s: E.Stream, e: E.Entry)
    requires E.Append(s, e).Ok?
    ensures var s' := E.Append(s, e).value;
            && s <= s' && exists k :: 0 <= k < |s'| && E.SaysTheSame(s'[k], e)
  {
    E.FindMeans(s, e.sequence);
    var s' := E.Append(s, e).value;
    if E.Find(s, e.sequence).Some? {
      var k :| 0 <= k < |s| && s[k] == E.Find(s, e.sequence).value;
      assert E.SaysTheSame(s'[k], e);
    } else {
      assert E.SaysTheSame(s'[|s|], e);
    }
  }

  /** One transition that is told: along the table, and nothing else moves. */
  lemma AdvancingTells(w: World, id: Id, status: OrderStatus, sequence: nat, fingerprint: Id, now: real, p: Order,
                       before: OrderStatus, earlier: int)
    requires Advancing(w, id, status, sequence, fingerprint, now).1.Ok? && O.OmsOk(w.oms)
    ensures id in w.oms.orders
    ensures var after := Advancing(w, id, status, sequence, fingerprint, now);
            && after.1.value == w.oms.orders[id].(status := status, updatedAt := now)
            && after.0.oms == w.oms.(orders := w.oms.orders[id := after.1.value]) && after.0.journal == w.journal
            && O.OmsOk(after.0.oms)
            && HasTold(after.0.events, w.oms.orders[id], status, sequence, fingerprint)
            && (HasTold(w.events, p, before, earlier, fingerprint)
                ==> HasTold(after.0.events, p, before, earlier, fingerprint))
  {
    var moved := O.Transition(w.oms, id, status, now);
    var o := w.oms.orders[id].(status := status, updatedAt := now);
    TellTells(w.(oms := moved.value.0), o, status, sequence, fingerprint, p, before, earlier);
    assert HasTold(Advancing(w, id, status, sequence, fingerprint, now).0.events, o, status, sequence, fingerprint);
    hide E.Record; hide Tell;
  }

  lemma AdvancingIsKnown(w: World, id: Id, status: OrderStatus, sequence: nat, fingerprint: Id, now: real)
    requires Advancing(w, id, status, sequence, fingerprint, now).1.Ok?
    ensures id in w.oms.orders
  {
  }

  /** A plan is made only if the router accepts, the venue is authorized and the order can be scheduled.
      By then the order has gone from NEW to WORKING, and the backend stream has told each step of it, in
      turn, under the fingerprint of the call; nothing is in the journal but what was there. */
  lemma PlanningMeans(w: World, id: Id, quote: V.Quote, terms: Terms, config: Config, fingerprint: Id, now: real)
    requires O.OmsOk(w.oms) && Planning(w, id, quote, terms, config, fingerprint, now).1.Ok?
    ensures terms.routable && quote.venue in config.venues && id in w.oms.orders
    ensures var planned, o := Planning(w, id, quote, terms, config, fingerprint, now), w.oms.orders[id];
            && Slicing.Schedulable(o, terms.volumes)
            && Slicing.PlanOf(o.(status := Routing, updatedAt := now), terms.volumes) == Ok(planned.1.value.1)
            && planned.1.value.0 == o.(status := OrderStatus.Working, updatedAt := now)
            && planned.0.journal == w.journal
            && planned.0.oms == w.oms.(orders := w.oms.orders[id := planned.1.value.0])
            && HasTold(planned.0.events, o, Validated, 1, fingerprint)
            && HasTold(planned.0.events, o, Routing, 2, fingerprint)
            && HasTold(planned.0.events, o, OrderStatus.Working, 3, fingerprint)
            && (HasTold(w.events, o, New, 0, fingerprint) ==> HasTold(planned.0.events, o, New, 0, fingerprint))
  {
    hide Advancing; hide O.OmsOk; hide Slicing.PlanOf; hide HasTold; hide Slicing.Schedulable; hide Slicing.ChildrenOf;
    hide Slicing.NothingToSend;
    var validated := Advancing(w, id, Validated, 1, fingerprint, now);
    var routing := Advancing(validated.0, id, Routing, 2, fingerprint, now);
    var working := Advancing(routing.0, id, OrderStatus.Working, 3, fingerprint, now);
    AdvancingIsKnown(w, id, Validated, 1, fingerprint, now);
    var o := w.oms.orders[id];
    AdvancingTells(w, id, Validated, 1, fingerprint, now, o, New, 0);
    AdvancingTells(validated.0, id, Routing, 2, fingerprint, now, o, New, 0);
    AdvancingTells(validated.0, id, Routing, 2, fingerprint, now, o, Validated, 1);
    AdvancingTells(routing.0, id, OrderStatus.Working, 3, fingerprint, now, o, New, 0);
    AdvancingTells(routing.0, id, OrderStatus.Working, 3, fingerprint, now, o, Validated, 1);
    AdvancingTells(routing.0, id, OrderStatus.Working, 3, fingerprint, now, o, Routing, 2);
    SameTold(validated.0.oms.orders[id], o);
    SameTold(routing.0.oms.orders[id], o);
    Slicing.PlanIff(routing.1.value, terms.volumes);
    SameSchedule(o, routing.1.value, terms.volumes);
  }

  lemma SameTold(p: Order, o: Order)
    requires p == o.(status := p.status, updatedAt := p.updatedAt)
    ensures forall log, status, sequence, fingerprint ::
              HasTold(log, p, status, sequence, fingerprint) == HasTold(log, o, status, sequence, fingerprint)
  {
  }

  lemma SameSchedule(o: Order, p: Order, volumes: Option<seq<real>>)
    requires p == o.(status := p.status, updatedAt := p.updatedAt)
    ensures Slicing.Schedulable(o, volumes) <==> Slicing.Schedulable(p, volumes)
  {
  }

  /** A parent that gets as far as being stored is journaled as SUBMITTING, under its client identity and
      with its quantity, stored as NEW, and told so. */
  lemma OpeningMeans(w: World, o: Order, fingerprint: Id, now: real)
    requires WorldOk(w) && Linked(w.journal, w.oms) && Governable(o) && Opening(w, o, fingerprint, now).2.Ok?
    ensures var after := Opening(w, o, fingerprint, now);
            && after.1 && o.id !in w.journal.rows && o.id in after.0.journal.rows
            && after.0.journal.rows == w.journal.rows[o.id := after.0.journal.rows[o.id]]
            && after.0.journal.fills == w.journal.fills
            && var row := after.0.journal.rows[o.id];
            && row.state == J.Submitting && row.parentId == None && row.requested == Some(o.quantity)
            && row.clientId == Some(if o.key.Some? && o.key != Some(Name("")) then o.key.value else o.id)
            && row.filled == 0.0 && row.complete && row.venueId == None
            && after.2.value == o.(status := New, updatedAt := now)
            && o.id in after.0.oms.orders && after.0.oms.orders == w.oms.orders[o.id := after.2.value]
            && HasTold(after.0.events, o, New, 0, fingerprint)
  {
    NewToTheJournalIsNewToTheOms(w.journal, w.oms, o, now);
    var stored := O.Store(w.oms, o, now);
    var w1 := w.(journal := BeginParent(w.journal, o, now).value, oms := stored.0);
    TellTells(w1, stored.1, New, 0, fingerprint, o, New, 0);
    SameTold(stored.1, o);
    hide HasTold; hide Tell; hide JR.TablesOk; hide Linked; hide O.OmsOk;
  }

  /** After a failure: the order, if it was stored and is UNKNOWN, is RECOVERY_REQUIRED; and if no broker
      call was made, its row, if still SUBMITTING, is CANCELLED, and its reservation is gone. Nothing
      else changes. */
  lemma CleanedUpWrites(w: World, t: A.Tables, id: Id, submitted: bool, started: bool, now: real)
    requires O.OmsOk(w.oms) && (submitted ==> id in w.oms.orders)
    ensures var end := CleanedUp(w, t, id, submitted, started, now);
            && end.0.events == w.events && end.0.journal.fills == w.journal.fills
            && end.0.oms == (if submitted && w.oms.orders[id].status == OrderStatus.Unknown
                             then w.oms.(orders := w.oms.orders[id := w.oms.orders[id].(status := RecoveryRequired,
                                                                                          updatedAt := now)])
                             else w.oms)
            && end.0.journal.rows
               == (if !started && id in w.journal.rows && w.journal.rows[id].state == J.Submitting
                   then w.journal.rows[id := w.journal.rows[id].(state := J.Cancelled, lastError := None,
                                                                  updatedAt := now)]
                   else w.journal.rows)
            && end.1 == if started then t else t.(reservations := t.reservations - {id})
  {
    if submitted {
      O.FreezeWritesIff(w.oms, id, now);
    }
    hide O.Freeze; hide O.OmsOk;
  }

  // ----- The end -----

  /** What the journal has filled of the order's children. */
  ghost function ChildFills(t: J.Tables, parent: Id): map<Id, real> {
    map id | id in t.rows && t.rows[id].parentId == Some(parent) :: t.rows[id].filled
  }

  /** The journal has children of the order, all FILLED, that add up to its filled quantity, up to 1e-9 of
      it, or of one if that is more. */
  ghost predicate JournalAgrees(t: J.Tables, current: Order) {
    && (exists id :: id in t.rows && t.rows[id].parentId == Some(current.id))
    && (forall id | id in t.rows && t.rows[id].parentId == Some(current.id) :: t.rows[id].state == J.Filled)
    && Near(Sums.Total(ChildFills(t, current.id)), current.filled)
  }

  predicate Near(x: real, y: real) {
    || -0.000000001 <= x - y <= 0.000000001
    || -0.000000001 * y <= x - y <= 0.000000001 * y
    || 0.000000001 * y <= x - y <= -0.000000001 * y
  }

  lemma NearIff(x: real, y: real)
    ensures Near(x, y) <==> Abs(x - y) <= TOL_9 * Max(1.0, Abs(y))
  {
  }

  lemma JournalAgreesIff(t: J.Tables, current: Order)
    ensures JournalAgrees(t, current) <==> DurablyMatched(ChildrenIn(t, current.id), current)
  {
    var children := ChildrenIn(t, current.id);
    assert FilledAmounts(children) == ChildFills(t, current.id);
    NearIff(Sums.Total(ChildFills(t, current.id)), current.filled);
    if id :| id in t.rows && t.rows[id].parentId == Some(current.id) {
      assert id in children;
    }
    if children != map[] {
      var id :| id in children;
      assert id in t.rows;
    }
    if forall id | id in children :: children[id].state == J.Filled {
      forall id | id in t.rows && t.rows[id].parentId == Some(current.id) ensures t.rows[id].state == J.Filled {
        assert id in children;
      }
    }
    hide Sums.Total; hide Near;
  }

  /** Filled times average is within what the order has reserved, in all and in its symbol. */
  ghost predicate Affordable(t: A.Tables, current: Order) {
    && current.id in t.reservations
    && var held, cost := t.reservations[current.id], CostOf(current);
    && 0.0 <= cost <= held.portfolio
    && cost <= (if current.symbol in held.symbols then held.symbols[current.symbol] else 0.0)
  }

  ghost function CostOf(o: Order): real {
    if o.average == None then 0.0 else o.filled * o.average.value
  }

  lemma InsideOne(symbol: string, cost: real, held: map<string, real>)
    ensures AdmissionRuns.Inside(map[symbol := cost], held)
       <==> 0.0 <= cost <= (if symbol in held then held[symbol] else 0.0)
  {
    if AdmissionRuns.Inside(map[symbol := cost], held) {
      assert symbol in map[symbol := cost] && map[symbol := cost][symbol] == cost;
    }
  }

  lemma AffordableIff(t: A.Tables, current: Order)
    ensures Affordable(t, current) <==> CommitFilled(t, current).Ok?
    ensures CommitFilled(t, current)
         == A.Commit(t, current.id, Some(CostOf(current)), Some(map[current.symbol := CostOf(current)]))
  {
    var cost := CostOf(current);
    AdmissionRuns.CommitIff(t, current.id, Some(cost), Some(map[current.symbol := cost]));
    if current.id in t.reservations {
      InsideOne(current.symbol, cost, t.reservations[current.id].symbols);
    }
    hide A.Commit;
  }

  /** After the loop: any unmatched child leaves the order in doubt; then, a journal that does not agree
      with the stored order; then, a cost beyond the reservation is not committed; otherwise it is, and
      the report follows unless the quoted price on the order's side is not positive. */
  lemma ConcludedIff(w: World, t: A.Tables, current: Order, flags: seq<bool>, quote: V.Quote, now: real)
    ensures var end := Concluded(w, t, current, flags, quote, now);
            var committed := A.Commit(t, current.id, Some(CostOf(current)),
                                      Some(map[current.symbol := CostOf(current)]));
            if exists k :: 0 <= k < |flags| && !flags[k] then
              end.exit == Unreconciled && end.result == Raised(RuntimeError) && end.exposure == t
            else if !JournalAgrees(w.journal, current) then
              end.exit == DurableMismatch && end.result == Raised(RuntimeError) && end.exposure == t
            else if !Affordable(t, current) then
              end.exit == CommitRefused && end.result.Raised? && end.exposure == t && end.world == w
            else
              && committed == Ok(end.exposure)
              && if (if current.side == Buy then quote.ask else quote.bid) <= 0.0
                 then end.exit == AnalyticsFailed && end.result == Raised(ValueError)
                 else end.exit == Returned && end.result.Ok? && end.result.value.order == current.id
                      && end.result.value.filled == current.filled && end.result.value.average == current.average
                      && end.result.value.status == current.status
  {
    JournalAgreesIff(w.journal, current);
    AffordableIff(t, current);
    assert false in flags <==> exists k :: 0 <= k < |flags| && !flags[k];
    hide JournalAgrees; hide Affordable; hide DurablyMatched; hide CommitFilled; hide A.Commit; hide Frozen; hide Moved;
    hide CostOf; hide ChildrenIn;
  }

  /** What the end leaves in the journal: an order in doubt is UNKNOWN, wherever the table allows it, with
      an error noted unless it was UNKNOWN already; one that went through is RECOVERED if it was still
      SUBMITTING. Nothing else in the journal, and none of its events, changes. */
  lemma ConcludedWrites(w: World, t: A.Tables, current: Order, flags: seq<bool>, quote: V.Quote, now: real)
    requires current.id in w.journal.rows
    ensures var end := Concluded(w, t, current, flags, quote, now);
            var row := w.journal.rows[current.id];
            && end.world.events == w.events && end.world.journal.fills == w.journal.fills
            && current.id in end.world.journal.rows
            && end.world.journal.rows == w.journal.rows[current.id := end.world.journal.rows[current.id]]
            && var row' := end.world.journal.rows[current.id];
            && (end.exit in {Unreconciled, DurableMismatch} ==>
                  row' == if JournalLaws.LeadsTo(row.state, J.Unknown)
                             && !(end.exit == Unreconciled && row.state == J.Unknown)
                          then row.(state := J.Unknown, lastError := Some(""), updatedAt := now) else row)
            && (end.exit in {AnalyticsFailed, Returned} ==>
                  row' == if row.state == J.Submitting
                          then row.(state := J.Recovered, lastError := None, updatedAt := now) else row)
  {
    hide DurablyMatched; hide CommitFilled; hide Frozen; hide Moved;
    FrozenWrites(w, current.id, now);
    MovedWrites(Frozen(w, current.id, now), current.id, J.Unknown, Some(""), now);
    MovedWrites(w, current.id, J.Unknown, Some(""), now);
    MovedWrites(w, current.id, J.Recovered, None, now);
    assert w.journal.rows[current.id := w.journal.rows[current.id]] == w.journal.rows;
  }

  lemma FrozenWrites(w: World, id: Id, now: real)
    ensures Frozen(w, id, now).journal == w.journal && Frozen(w, id, now).events == w.events
  {
    hide O.Freeze;
  }

  lemma MovedWrites(w: World, id: Id, state: J.State, error: Option<string>, now: real)
    requires id in w.journal.rows
    ensures var w' := Moved(w, id, state, error, now);
            && w'.oms == w.oms && w'.events == w.events && w'.journal.fills == w.journal.fills
            && w'.journal.rows == (if JournalLaws.LeadsTo(w.journal.rows[id].state, state)
                                   then w.journal.rows[id := w.journal.rows[id].(state := state, lastError := error,
                                                                                 updatedAt := now)]
                                   else w.journal.rows)
  {
    JournalLaws.UpdateIff(w.journal, id, state, None, error, now);
  }
}
