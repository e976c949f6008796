/** OrderManager: the object whose dictionaries hold the orders, each method proved to do exactly
    what OmsSpec says. */
module OrderManagement {
  import opened Common
  import opened Orders
  import opened OmsSpec

  class OrderManager {
    var orders: map<Id, Order>
    var keys: map<Id, Id>
    var prints: map<Id, Fingerprint>
    var fills: map<Id, set<Id>>
    const requireGovernance: bool

    constructor (requireGovernance: bool)
      ensures Valid() && Snapshot() == Oms(map[], map[], map[], map[]) && this.requireGovernance == requireGovernance
    {
      orders, keys, prints, fills := map[], map[], map[], map[];
      this.requireGovernance := requireGovernance;
    }

    function Snapshot(): Oms
      reads this
    {
      Oms(orders, keys, prints, fills)
    }

    ghost predicate Valid()
      reads this
    {
      OmsOk(Snapshot())
    }

    ghost predicate Did(t: Outcome<(Oms, Order)>, before: Oms, r: Outcome<Order>)
      reads this
    {
      match t
      case Ok(after) => Snapshot() == after.0 && r == Ok(after.1)
      case Raised(error) => Snapshot() == before && r == Raised(error)
    }

    method Submit(o: Order, now: real) returns (r: Outcome<Order>)
      requires Valid()
      modifies this
      ensures Valid() && Did(OmsSpec.Submit(old(Snapshot()), o, requireGovernance, now), old(Snapshot()), r)
    {
      if requireGovernance && !Governed(o) { return Raised(ValueError); }
      var print_ := PrintOf(o);
      if o.id in orders {
        if prints[o.id] != print_ { return Raised(ValueError); }
        return Ok(orders[o.id]);
      }
      if o.key.Some? && !Empty(o.key.value) {
        if o.key.value in keys && !Empty(keys[o.key.value]) {
          var existing := keys[o.key.value];
          if prints[existing] != print_ { return Raised(ValueError); }
          return Ok(orders[existing]);
        }
        keys := keys[o.key.value := o.id];
      }
      var stored := o.(status := New, updatedAt := now);
      orders := orders[o.id := stored];
      prints := prints[o.id := print_];
      fills := fills[o.id := {}];
      r := Ok(stored);
    }

    method Transition(id: Id, status: OrderStatus, now: real) returns (r: Outcome<Order>)
      requires Valid()
      modifies this`orders
      ensures Valid() && Did(OmsSpec.Transition(old(Snapshot()), id, status, now), old(Snapshot()), r)
    {
      if id !in orders { return Raised(KeyError); }
      var order := orders[id];
      if status !in Allowed(order.status) { return Raised(ValueError); }
      order := order.(status := status, updatedAt := now);
      orders := orders[id := order];
      r := Ok(order);
    }

    method RecordFill(f: Fill, now: real) returns (r: Outcome<Order>)
      requires Valid()
      modifies this`orders, this`fills
      ensures Valid() && Did(OmsSpec.RecordFill(old(Snapshot()), f, now), old(Snapshot()), r)
    {
      if f.order !in orders { return Raised(KeyError); }
      var order := orders[f.order];
      if f.fillId in fills[f.order] { return Ok(order); }
      if f.quantity <= 0.0 || f.price <= 0.0 { return Raised(ValueError); }
      if f.quantity > order.Remaining() + TOL_12 { return Raised(ValueError); }
      var newQuantity := order.filled + f.quantity;
      var average := f.price;
      if order.average.Some? {
        if newQuantity == 0.0 { return Raised(ZeroDivisionError); }
        average := (order.average.value * order.filled + f.price * f.quantity) / newQuantity;
      }
      var status := PartiallyFilled;
      if Abs(newQuantity - order.quantity) <= TOL_12 {
        status := Filled;
      }
      assert average == NewAverage(order, f.quantity, f.price);
      fills := fills[f.order := fills[f.order] + {f.fillId}];
      order := order.(filled := newQuantity, average := Some(average), status := status, updatedAt := now);
      orders := orders[f.order := order];
      r := Ok(order);
    }

    method FreezeForReconciliation(id: Id, now: real) returns (r: Outcome<Order>)
      requires Valid()
      modifies this`orders
      ensures Valid() && Did(Freeze(old(Snapshot()), id, now), old(Snapshot()), r)
    {
      if id !in orders { return Raised(KeyError); }
      var order := orders[id];
      if order.status in {Filled, Cancelled, Rejected, Expired} { return Ok(order); }
      if order.status == Unknown {
        r := Transition(id, RecoveryRequired, now);
        return;
      }
      r := Ok(order.(status := RecoveryRequired, updatedAt := now));
    }
  }
}
