/** The simulated venue: submit, fill and reconcile as functions of its dictionaries, and the
    object that holds them. */
module Venue {
  import opened Common
  import opened Orders

  datatype Quote = Quote(venue: string, symbol: string, bid: real, ask: real, healthy: bool)

  /** What a reconcile query answers. A status that is not a known word is None. */
  datatype Observation = Observation(status: Option<OrderStatus>, filled: Option<real>, average: Option<real>)

  datatype Market = Market(name: string, bid: real, ask: real, available: real)

  datatype Books = Books(submitted: map<Id, Order>, fills: map<Id, Fill>, clients: map<Id, Id>)

  function VenueId(m: Market, o: Order): Id { VenueRef(m.name, o.id) }

  function Submit(m: Market, b: Books, o: Order): Outcome<(Books, Id)> {
    var id := VenueId(m, o);
    if o.quantity <= 0.0 || o.quantity > m.available then Raised(BrokerError)
    else if o.venue.Some? && o.venue.value != m.name then Raised(BrokerError)
    else if id in b.submitted then
      var previous := b.submitted[id];
      if previous.key != o.key || previous.decision != o.decision || previous.quantity != o.quantity
      then Raised(BrokerError) else Ok((b, id))
    else
      var clients := b.clients[o.id := id];
      Ok((b.(submitted := b.submitted[id := o],
             clients := if o.key.Some? && !Empty(o.key.value) then clients[o.key.value := id] else clients), id))
  }

  function FillFor(o: Order, id: Id, price: real, now: real): Fill {
    Fill(FillOf(id), o.id, id, o.quantity, price, now)
  }

  function Execute(m: Market, b: Books, o: Order, id: Id, price: real, now: real): Outcome<(Books, Fill)> {
    if Empty(id) || price <= 0.0 || id !in b.submitted then Raised(BrokerError)
    else if id in b.fills then
      if b.fills[id].quantity != o.quantity || b.fills[id].price != price then Raised(BrokerError)
      else Ok((b, b.fills[id]))
    else if (o.side == Buy && price < m.ask) || (o.side == Sell && price > m.bid) then Raised(BrokerError)
    else Ok((b.(fills := b.fills[id := FillFor(o, id, price, now)]), FillFor(o, id, price, now)))
  }

  function Observe(b: Books, id: Id): Observation {
    if Empty(id) || id !in b.submitted then Observation(Some(Unknown), None, None)
    else if id !in b.fills then Observation(Some(Working), Some(0.0), None)
    else Observation(Some(Filled), Some(b.fills[id].quantity), Some(b.fills[id].price))
  }

  function ObserveClient(b: Books, client: Id): Observation {
    if Empty(client) || client !in b.clients then Observation(Some(Unknown), None, None)
    else Observe(b, b.clients[client])
  }

  /** submit takes exactly what is positive, within its liquidity and routed to it or nowhere; and a known
      id only for the same quantity, decision and key. It then files a new order under its venue id, and
      that under the order's id and key. */
  lemma SubmitIff(m: Market, b: Books, o: Order)
    ensures var r := Submit(m, b, o);
            var id := VenueRef(m.name, o.id);
            if 0.0 < o.quantity <= m.available && (o.venue == None || o.venue == Some(m.name))
            then
              if id in b.submitted then
                var p := b.submitted[id];
                r == if p.quantity == o.quantity && p.decision == o.decision && p.key == o.key then Ok((b, id))
                     else Raised(BrokerError)
              else
                && r.Ok? && r.value.1 == id && var b' := r.value.0;
                && b'.submitted == b.submitted[id := o] && b'.fills == b.fills
                && (forall k :: k in b'.clients <==>
                      k in b.clients || k == o.id || (o.key == Some(k) && k != Name("")))
                && (forall k | k in b'.clients ::
                      b'.clients[k] == if k == o.id || (o.key == Some(k) && k != Name("")) then id else b.clients[k])
            else r == Raised(BrokerError)
  {
  }

  /** fill makes exactly one fill of a submitted order, in full, at the price it is asked for, if that is
      positive and no better than the market; asked again, it answers with the same fill, but only for
      the same quantity and price. */
  lemma ExecuteIff(m: Market, b: Books, o: Order, id: Id, price: real, now: real)
    ensures var r := Execute(m, b, o, id, price, now);
            if id == Name("") || price <= 0.0 || id !in b.submitted then r == Raised(BrokerError)
            else if id in b.fills then
              r == if b.fills[id].quantity == o.quantity && b.fills[id].price == price then Ok((b, b.fills[id]))
                   else Raised(BrokerError)
            else if (o.side == Buy ==> m.ask <= price) && (o.side == Sell ==> price <= m.bid) then
              && r.Ok? && var f := r.value.1;
              && r.value.0 == b.(fills := b.fills[id := f])
              && f.fillId == FillOf(id) && f.order == o.id && f.venueOrder == id && f.quantity == o.quantity
              && f.price == price && f.at == now
            else r == Raised(BrokerError)
  {
  }

  /** reconcile sees UNKNOWN, WORKING with nothing filled, or FILLED with the fill's amounts. */
  lemma ObserveIs(b: Books, id: Id)
    ensures var seen := Observe(b, id);
            if id == Name("") || id !in b.submitted
            then seen.status == Some(Unknown) && seen.filled == None && seen.average == None
            else if id in b.fills
            then seen.status == Some(Filled) && seen.filled == Some(b.fills[id].quantity)
                 && seen.average == Some(b.fills[id].price)
            else seen.status == Some(Working) && seen.filled == Some(0.0) && seen.average == None
  {
  }

  /** Retrying a call the venue has answered gives the same answer and changes nothing: an order
      cannot be submitted, or executed, twice. */
  lemma RetriesAreIdempotent(m: Market, b: Books, o: Order, price: real, now: real, later: real)
    requires Submit(m, b, o).Ok?
    ensures var s := Submit(m, b, o).value;
            && Submit(m, s.0, o) == Ok(s)
            && (Execute(m, s.0, o, s.1, price, now).Ok? ==>
                  var x := Execute(m, s.0, o, s.1, price, now).value;
                  && Submit(m, x.0, o) == Ok((x.0, s.1))
                  && Execute(m, x.0, o, s.1, price, later) == Ok(x))
  {
  }

  /** Once a new order is submitted and executed, every later query, by venue id, order id or
      client id, sees it filled in full at its price. */
  lemma ExecutedIsVisible(m: Market, b: Books, o: Order, price: real, now: real)
    requires VenueId(m, o) !in b.submitted && VenueId(m, o) !in b.fills && !Empty(o.id)
    requires Submit(m, b, o).Ok?
    requires Execute(m, Submit(m, b, o).value.0, o, VenueId(m, o), price, now).Ok?
    ensures var after := Execute(m, Submit(m, b, o).value.0, o, VenueId(m, o), price, now).value.0;
            var seen := Observation(Some(Filled), Some(o.quantity), Some(price));
            && Observe(after, VenueId(m, o)) == seen && ObserveClient(after, o.id) == seen
            && ObserveClient(after, o.ClientId()) == seen
  {
  }

  class SimulatedVenue {
    const market: Market
    var submitted: map<Id, Order>
    var fills: map<Id, Fill>
    var clients: map<Id, Id>

    constructor (market: Market)
      ensures this.market == market && Snapshot() == Books(map[], map[], map[])
    {
      this.market := market;
      submitted, fills, clients := map[], map[], map[];
    }

    function Snapshot(): Books
      reads this
    {
      Books(submitted, fills, clients)
    }

    method SubmitOrder(o: Order) returns (r: Outcome<Id>)
      modifies this`submitted, this`clients
      ensures match Submit(market, old(Snapshot()), o)
              case Ok(after) => Snapshot() == after.0 && r == Ok(after.1)
              case Raised(error) => Snapshot() == old(Snapshot()) && r == Raised(error)
    {
      if o.quantity <= 0.0 || o.quantity > market.available { return Raised(BrokerError); }
      if o.venue.Some? && o.venue.value != market.name { return Raised(BrokerError); }
      var id := VenueRef(market.name, o.id);
      if id in submitted {
        var previous := submitted[id];
        if previous.key != o.key || previous.decision != o.decision || previous.quantity != o.quantity {
          return Raised(BrokerError);
        }
        return Ok(id);
      }
      submitted := submitted[id := o];
      clients := clients[o.id := id];
      if o.key.Some? && !Empty(o.key.value) {
        clients := clients[o.key.value := id];
      }
      r := Ok(id);
    }

    method FillOrder(o: Order, id: Id, price: real, now: real) returns (r: Outcome<Fill>)
      modifies this`fills
      ensures match Execute(market, old(Snapshot()), o, id, price, now)
              case Ok(after) => Snapshot() == after.0 && r == Ok(after.1)
              case Raised(error) => Snapshot() == old(Snapshot()) && r == Raised(error)
    {
      if Empty(id) || price <= 0.0 || id !in submitted { return Raised(BrokerError); }
      if id in fills {
        var existing := fills[id];
        if existing.quantity != o.quantity || existing.price != price { return Raised(BrokerError); }
        return Ok(existing);
      }
      if o.side == Buy && price < market.ask { return Raised(BrokerError); }
      if o.side == Sell && price > market.bid { return Raised(BrokerError); }
      var fill := Fill(FillOf(id), o.id, id, o.quantity, price, now);
      fills := fills[id := fill];
      r := Ok(fill);
    }
  }
}
