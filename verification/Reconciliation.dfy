/** Broker/OMS reconciliation: one function of its arguments. */
module Reconciliation {
  import opened Common
  import opened Orders

  datatype Action = Resume | FreezeAndQuery | FreezeAndReconcile | RecordMismatch

  datatype Verdict = Verdict(matched: bool, action: Action)

  /** The two records describe the same, internally consistent, amount of execution. */
  predicate Consistent(expected: Order, status: OrderStatus, filled: real) {
    && expected.quantity > 0.0
    && 0.0 <= expected.filled <= expected.quantity + TOL_9
    && 0.0 <= filled <= expected.quantity + TOL_9
    && status !in {Unknown, RecoveryRequired}
    && (expected.status == Filled ==> expected.filled >= expected.quantity - TOL_9)
    && (expected.status == PartiallyFilled ==> 0.0 < expected.filled < expected.quantity - TOL_9)
  }

  /** Execution may resume exactly on consistent evidence of the same status and the same amount;
      no missing piece of evidence ever counts as agreement. */
  function Reconcile(expected: Order, observed: Option<OrderStatus>, filled: Option<real>): (v: Verdict)
    ensures v.matched <==> && observed.Some? && filled.Some? && Consistent(expected, observed.value, filled.value)
                           && expected.status == observed.value && Abs(filled.value - expected.filled) <= TOL_9
    ensures v.matched <==> v.action == Resume
    ensures v.action == RecordMismatch ==> Terminal(expected.status) && observed.Some? && Terminal(observed.value)
    ensures v.action == FreezeAndQuery
            ==> observed.None? || filled.None? || observed.value in {Unknown, RecoveryRequired}
  {
    if expected.quantity <= 0.0 then Verdict(false, FreezeAndReconcile)
    else if expected.filled < 0.0 then Verdict(false, FreezeAndReconcile)
    else if expected.filled > expected.quantity + TOL_9 then Verdict(false, FreezeAndReconcile)
    else if observed.None? then Verdict(false, FreezeAndQuery)
    else if observed.value in {Unknown, RecoveryRequired} then Verdict(false, FreezeAndQuery)
    else if filled.None? then Verdict(false, FreezeAndQuery)
    else if filled.value < 0.0 then Verdict(false, FreezeAndReconcile)
    else if filled.value > expected.quantity + TOL_9 then Verdict(false, FreezeAndReconcile)
    else if expected.status == Filled && expected.filled < expected.quantity - TOL_9
    then Verdict(false, FreezeAndReconcile)
    else if expected.status == PartiallyFilled && !(0.0 < expected.filled < expected.quantity - TOL_9)
    then Verdict(false, FreezeAndReconcile)
    else if expected.status == observed.value && Abs(filled.value - expected.filled) <= TOL_9 then Verdict(true, Resume)
    else if !Terminal(expected.status) || !Terminal(observed.value) then Verdict(false, FreezeAndReconcile)
    else Verdict(false, RecordMismatch)
  }

  /** The expected amounts make sense: up to 1e-9 no more is filled than was ordered. */
  predicate Sensible(expected: Order) {
    0.0 < expected.quantity && 0.0 <= expected.filled && expected.filled - expected.quantity <= 0.000000001
  }

  /** The order is as far as its status says: all but 1e-9 if FILLED; something, but not that much, if
      PARTIALLY_FILLED. */
  predicate AsFarAs(expected: Order) {
    && (expected.status == Filled ==> expected.quantity - expected.filled <= 0.000000001)
    && (expected.status == PartiallyFilled ==>
          0.0 < expected.filled && 0.000000001 < expected.quantity - expected.filled)
  }

  /** Every answer: an observation that is missing, or says that the broker does not know, asks for a
      query, once the expected amounts make sense; amounts that do not make sense, or do not fit, freeze
      the order; the same status with the same amount, up to 1e-9, resumes; two ends that differ are a
      mismatch for the record; anything else freezes. */
  lemma ReconcileIs(expected: Order, observed: Option<OrderStatus>, filled: Option<real>)
    ensures var action := Reconcile(expected, observed, filled).action;
            if !Sensible(expected) then action == FreezeAndReconcile
            else if || observed == None || observed == Some(Unknown) || observed == Some(RecoveryRequired)
                    || filled == None
            then action == FreezeAndQuery
            else if !(0.0 <= filled.value && filled.value - expected.quantity <= 0.000000001) || !AsFarAs(expected)
            then action == FreezeAndReconcile
            else if observed == Some(expected.status) && -0.000000001 <= filled.value - expected.filled <= 0.000000001
            then action == Resume
            else if && expected.status in {Filled, Cancelled, Rejected, Expired}
                    && observed.value in {Filled, Cancelled, Rejected, Expired}
            then action == RecordMismatch
            else action == FreezeAndReconcile
    ensures Reconcile(expected, observed, filled).matched <==> Reconcile(expected, observed, filled).action == Resume
  {
  }
}
