/** The execution domain records. Times are explicit; metadata keeps the entries the core reads. */
module Orders {
  import opened Common

  datatype OrderStatus =
    | New | Validated | Routing | Working | PartiallyFilled | Filled | CancelPending | Cancelled
    | Rejected | Expired | Unknown | RecoveryRequired

  predicate Terminal(s: OrderStatus) { s in {Filled, Cancelled, Rejected, Expired} }

  datatype Policy = Market | Passive | Twap | Vwap | Pov | Adaptive

  datatype Side = Buy | Sell | OtherSide

  /** slices and participation already carry their defaults, 1 and 0.1. */
  datatype Metadata = Metadata(configHash: Option<string>, modelHash: Option<string>, slices: int, participation: real)

  datatype Order = Order(id: Id, decision: Id, symbol: string, side: Side, quantity: real, orderType: string,
                         limitPrice: Option<real>, policy: Policy, status: OrderStatus, venue: Option<string>,
                         filled: real, average: Option<real>, key: Option<Id>, updatedAt: real, metadata: Metadata)
  {
    function Remaining(): real { Max(0.0, quantity - filled) }

    /** The broker-side identity: the idempotency key, or the order id when there is none. */
    function ClientId(): Id { if key.Some? && !Empty(key.value) then key.value else id }
  }

  datatype Fill = Fill(fillId: Id, order: Id, venueOrder: Id, quantity: real, price: real, at: real) {
    function Worth(): real { price * quantity }
  }
}
