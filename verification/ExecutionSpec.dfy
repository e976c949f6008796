/** The child loop of the coordinator as a function of the broker's replies. The broker is any
    broker: each call may raise or answer anything. */
module ExecutionSpec {
  import opened Common
  import opened Orders
  import J = JournalSpec
  import JR = JournalRuns
  import O = OmsSpec
  import E = StateEvents
  import R = Reconciliation
  import V = Venue

  /** What the loop writes to. */
  datatype World = World(journal: J.Tables, events: E.Log, oms: O.Oms)

  /** The broker's answers for one child. */
  datatype Replies = Replies(submitted: Outcome<Id>, filled: Outcome<Fill>, observed: Outcome<V.Observation>)

  /** One broker call, with its arguments, and what came back. */
  datatype Answer =
    | Quoted(symbol: string, quote: Outcome<V.Quote>)                            // quote(symbol)
    | Took(order: Order, reply: Outcome<Id>)                                     // submit(order)
    | Gave(order: Order, venueOrder: Id, price: real, fill: Outcome<Fill>)       // fill(order, venueOrder, price)
    | Saw(venueOrder: Id, seen: Outcome<V.Observation>)                          // reconcile(venueOrder)

  /** After one child: was `venue.submit` reached, the broker calls made, in order, and either the
      stored parent and whether the child reconciled, or the exception. */
  datatype Progress = Progress(world: World, called: bool, answers: seq<Answer>, outcome: Outcome<(Order, bool)>)

  /** The price at which an order of this side trades against the quote. */
  function Arrival(o: Order, quote: V.Quote): real { if o.side == Buy then quote.ask else quote.bid }

  function After(a: Answer, p: Progress): Progress { p.(answers := [a] + p.answers) }

  lemma AnswersChain(before: seq<Answer>, a: Answer, p: Progress)
    ensures before + [a] + p.answers == before + After(a, p).answers
  {
  }

  ghost predicate WorldOk(w: World) {
    O.OmsOk(w.oms) && O.FilledNonNegative(w.oms) && JR.TablesOk(w.journal)
  }

  /** The event _record_backend_state writes. */
  function BackendEvent(o: Order, sequence: int, fingerprint: Id): E.Event {
    E.Event(E.Backend, o.id,
            E.Entry(o.decision, fingerprint, E.Known(o.status), o.filled, o.average, sequence, o.updatedAt))
  }

  /** The broker's answer to `submit` goes into the journal: UNKNOWN if it raised, otherwise WORKING
      with the venue id bound. */
  ghost function AfterReply(t: J.Tables, child: Id, reply: Outcome<Id>, now: real): (J.Tables, Outcome<Id>) {
    if reply.Raised? then
      var marked := J.Update(t, child, J.Unknown, None, Some(""), now);
      (if marked.Ok? then marked.value else t, reply)
    else
      var working := J.Update(t, child, J.Working, Some(reply.value), None, now);
      if working.Raised? then (t, Raised(working.error)) else (working.value, reply)
  }

  /** The broker boundary and everything after it, once the child's row is in the journal. */
  ghost function AfterBegin(w: World, parent: Id, child: Order, index: nat, quote: V.Quote, replies: Replies,
                            fingerprint: Id, now: real): Progress
    requires O.OmsOk(w.oms) && O.FilledNonNegative(w.oms)
  {
    var placed := AfterReply(w.journal, child.id, replies.submitted, now);
    var w1 := w.(journal := placed.0);
    if placed.1.Raised? then Progress(w1, true, [Took(child, replies.submitted)], Raised(placed.1.error))
    else After(Took(child, replies.submitted),
               AfterPlace(w1, parent, child, index, placed.1.value, quote, replies.filled, replies.observed,
                          fingerprint, now))
  }

  ghost function AfterPlace(w: World, parent: Id, child: Order, index: nat, venueOrder: Id, quote: V.Quote,
                            filled: Outcome<Fill>, observed: Outcome<V.Observation>, fingerprint: Id,
                            now: real): Progress
    requires O.OmsOk(w.oms) && O.FilledNonNegative(w.oms)
  {
    var gave := Gave(child, venueOrder, Arrival(child, quote), filled);
    if filled.Raised? then Progress(w, true, [gave], Raised(filled.error))
    else After(gave, AfterFill(w, parent, child, index, venueOrder, filled.value, observed, fingerprint, now))
  }

  ghost function AfterFill(w: World, parent: Id, child: Order, index: nat, venueOrder: Id, fill: Fill,
                           observed: Outcome<V.Observation>, fingerprint: Id, now: real): Progress
    requires O.OmsOk(w.oms) && O.FilledNonNegative(w.oms)
  {
    var booked := BookFill(w.journal, parent, child.id, fill, now);
    var w1 := w.(journal := booked.0);
    if booked.1.Some? then Progress(w1, true, [], Raised(booked.1.value))
    else AfterBooking(w1, parent, child, index, venueOrder, fill, observed, fingerprint, now)
  }

  /** The fill goes to the child's ledger and then, under a prefixed id, to the parent's. The first
      stays even if the second raises. */
  ghost function BookFill(t: J.Tables, parent: Id, child: Id, fill: Fill, now: real): (J.Tables, Option<Error>) {
    var first := J.MarkFill(t, child, fill.quantity, fill.price, now, Some(fill.fillId));
    if first.Raised? then (t, Some(first.error))
    else
      var second := J.MarkFill(first.value, parent, fill.quantity, fill.price, now, Some(Scoped(child, fill.fillId)));
      if second.Raised? then (first.value, Some(second.error)) else (second.value, None)
  }

  ghost function AfterBooking(w: World, parent: Id, child: Order, index: nat, venueOrder: Id, fill: Fill,
                              observed: Outcome<V.Observation>, fingerprint: Id, now: real): Progress
    requires O.OmsOk(w.oms) && O.FilledNonNegative(w.oms)
  {
    var stored := O.RecordFill(w.oms, Fill(fill.fillId, parent, venueOrder, fill.quantity, fill.price, fill.at), now);
    if stored.Raised? then Progress(w, true, [], Raised(stored.error))
    else
      var told := E.Record(w.events, BackendEvent(stored.value.1, 4 + index, fingerprint));
      if told.Raised? then Progress(w.(oms := stored.value.0), true, [], Raised(told.error))
      else Progress(w.(oms := stored.value.0, events := told.value), true, [Saw(venueOrder, observed)],
                    Verdict(child, fill, observed, stored.value.1))
  }

  /** The reconciliation of one child against the broker's view of it. */
  function Verdict(child: Order, fill: Fill, observed: Outcome<V.Observation>, stored: Order): Outcome<(Order, bool)> {
    var expected := child.(status := Filled, filled := child.quantity, average := Some(fill.price));
    if observed.Raised? then Raised(observed.error)
    else if observed.value.status.None? then Raised(ValueError)
    else Ok((stored, R.Reconcile(expected, observed.value.status, observed.value.filled).matched))
  }

  ghost function ChildStep(w: World, parent: Id, child: Order, index: nat, quote: V.Quote, replies: Replies,
                           fingerprint: Id, now: real): Progress
    requires WorldOk(w)
  {
    var begun := J.BeginSubmission(w.journal, child.id, now, Some(parent), Some(child.ClientId()), Some(child.quantity),
                                   true);
    if begun.Raised? then Progress(w, false, [], Raised(begun.error))
    else
      AfterBegin(w.(journal := begun.value), parent, child, index, quote, replies, fingerprint, now)
  }

  // ----- What one child can do -----

  /** Only the child's and the parent's rows move; rows, identities and recorded deals survive. */
  ghost predicate RowsContained(t: J.Tables, t': J.Tables, parent: Id, child: Id) {
    && JR.TablesOk(t') && JR.TablesEvolve(t, t')
    && t'.rows.Keys <= t.rows.Keys + {child}
    && (forall id | id in t.rows && id != parent && id != child :: t'.rows[id] == t.rows[id])
    && (parent in t.rows ==> t'.rows[parent].parentId == t.rows[parent].parentId)
    && (parent in t.rows && t.rows[parent].state in OPEN_STATES ==> t'.rows[parent].state in OPEN_STATES)
  }

  /** The states the parent's row passes through while its children run. */
  const OPEN_STATES: set<J.State> := {J.Submitting, J.PartiallyFilled, J.Filled}

  /** Only the parent's amounts, status and time stamp move. */
  ghost predicate OrdersContained(m: O.Oms, m': O.Oms, parent: Id) {
    && O.OmsOk(m) && O.OmsOk(m') && O.FilledNonNegative(m')
    && m'.orders.Keys == m.orders.Keys && m'.keys == m.keys && m'.prints == m.prints
    && (forall id | id in m.orders && id != parent :: m'.orders[id] == m.orders[id] && m'.fills[id] == m.fills[id])
    && (parent in m.orders ==>
          var o, o' := m.orders[parent], m'.orders[parent];
          o' == o.(status := o'.status, filled := o'.filled, average := o'.average, updatedAt := o'.updatedAt))
  }

  /** The parent's stored amounts after a fill: it is added, unless its id is one the OMS has. */
  ghost predicate FillRecorded(m: O.Oms, m': O.Oms, parent: Id, fill: Fill) {
    && parent in m.orders && parent in m.fills && parent in m'.orders && parent in m'.fills
       && m.orders[parent].filled >= 0.0
    && var o, o' := m.orders[parent], m'.orders[parent];
    if fill.fillId in m.fills[parent] then o' == o && m'.fills[parent] == m.fills[parent]
    else && O.FillAccepted(o, fill)
         && o'.filled == o.filled + fill.quantity
         && o'.average == Some(O.NewAverage(o, fill.quantity, fill.price))
         && o'.status == (if Abs(o'.filled - o.quantity) <= TOL_12 then Filled else PartiallyFilled)
         && m'.fills[parent] == m.fills[parent] + {fill.fillId}
  }

  /** The journal row a successful child leaves behind. */
  ghost predicate Journaled(t: J.Tables, parent: Id, child: Order, filled: real) {
    && child.id in t.rows
    && var row := t.rows[child.id];
    && row.parentId == Some(parent) && row.clientId == Some(child.ClientId()) && row.requested == Some(child.quantity)
    && row.state in {J.Filled, J.PartiallyFilled} && JR.Fits(row) && row.filled == filled > 0.0
  }

  /** A child's row between submission and fill. */
  ghost predicate AwaitsFill(t: J.Tables, parent: Id, child: Order) {
    && child.id in t.rows && J.LedgerOf(t, child.id) == map[]
    && var row := t.rows[child.id];
    && row.parentId == Some(parent) && row.clientId == Some(child.ClientId()) && row.requested == Some(child.quantity)
    && row.filled == 0.0 && row.complete && row.state in {J.Submitting, J.Working}
       && row.venueId.None? == row.state.Submitting?
  }

  lemma RecordFillFacts(m: O.Oms, f: Fill, now: real)
    requires O.OmsOk(m) && O.FilledNonNegative(m) && O.RecordFill(m, f, now).Ok?
    ensures var after := O.RecordFill(m, f, now).value;
            f.order in m.orders && OrdersContained(m, after.0, f.order) && FillRecorded(m, after.0, f.order, f)
            && after.1 == after.0.orders[f.order]
  {
  }

  lemma BeginFacts(t: J.Tables, parent: Id, child: Order, now: real)
    requires JR.TablesOk(t) && parent in t.rows
    requires J.BeginSubmission(t, child.id, now, Some(parent), Some(child.ClientId()), Some(child.quantity), true).Ok?
    ensures var t' := J.BeginSubmission(t, child.id, now, Some(parent), Some(child.ClientId()), Some(child.quantity),
                                        true).value;
            child.id !in t.rows && RowsContained(t, t', parent, child.id) && AwaitsFill(t', parent, child)
            && t'.rows[child.id].state == J.Submitting
  {
    JR.BeginEvolves(t, child.id, now, Some(parent), Some(child.ClientId()), Some(child.quantity), true);
    assert child.id !in t.fills;
  }

  lemma MarkFacts(t: J.Tables, parent: Id, child: Order, state: J.State, venue: Option<Id>, error: Option<string>,
                  now: real)
    requires JR.TablesOk(t) && AwaitsFill(t, parent, child) && t.rows[child.id].state == J.Submitting
             && parent != child.id
    requires state in {J.Unknown, J.Working} && (state == J.Working <==> venue.Some?)
    ensures J.Update(t, child.id, state, venue, error, now).Ok?
    ensures var t' := J.Update(t, child.id, state, venue, error, now).value;
            && RowsContained(t, t', parent, child.id) && t'.rows[child.id].state == state
            && t'.rows[child.id].clientId == Some(child.ClientId()) && t'.rows[child.id].parentId == Some(parent)
            && (state == J.Working ==> AwaitsFill(t', parent, child))
  {
    JR.UpdateEvolves(t, child.id, state, venue, error, now);
  }

  lemma ChildFillFacts(t: J.Tables, parent: Id, child: Order, fill: Fill, now: real)
    requires JR.TablesOk(t) && AwaitsFill(t, parent, child)
    requires J.MarkFill(t, child.id, fill.quantity, fill.price, now, Some(fill.fillId)).Ok?
    ensures var t' := J.MarkFill(t, child.id, fill.quantity, fill.price, now, Some(fill.fillId)).value;
            && RowsContained(t, t', parent, child.id) && Journaled(t', parent, child, fill.quantity)
            && fill.quantity > 0.0 && fill.price > 0.0
  {
    JR.FillEvolves(t, child.id, fill.quantity, fill.price, now, Some(fill.fillId));
  }

  lemma ParentFillFacts(t: J.Tables, parent: Id, child: Order, fill: Fill, now: real)
    requires JR.TablesOk(t) && parent in t.rows && parent != child.id && Journaled(t, parent, child, fill.quantity)
    requires J.MarkFill(t, parent, fill.quantity, fill.price, now, Some(Scoped(child.id, fill.fillId))).Ok?
    ensures var t' := J.MarkFill(t, parent, fill.quantity, fill.price, now, Some(Scoped(child.id, fill.fillId))).value;
            && RowsContained(t, t', parent, child.id) && Journaled(t', parent, child, fill.quantity)
  {
    JR.FillEvolves(t, parent, fill.quantity, fill.price, now, Some(Scoped(child.id, fill.fillId)));
  }

  lemma ContainedTrans(t: J.Tables, t': J.Tables, t'': J.Tables, parent: Id, child: Id)
    requires RowsContained(t, t', parent, child) && RowsContained(t', t'', parent, child)
    ensures RowsContained(t, t'', parent, child)
  {
    forall id | id in t.rows ensures id in t''.rows && JR.Evolves(t.rows[id], t''.rows[id])
                                     && J.LedgerOf(t, id).Keys <= J.LedgerOf(t'', id).Keys {
      assert JR.Evolves(t.rows[id], t'.rows[id]);
      assert JR.Evolves(t'.rows[id], t''.rows[id]);
    }
  }

  lemma AfterFillFacts(w: World, parent: Id, child: Order, index: nat, venueOrder: Id, fill: Fill,
                       observed: Outcome<V.Observation>, fingerprint: Id, now: real)
    requires WorldOk(w) && parent in w.journal.rows && parent != child.id && AwaitsFill(w.journal, parent, child)
    ensures var p := AfterFill(w, parent, child, index, venueOrder, fill, observed, fingerprint, now);
            && p.called && RowsContained(w.journal, p.world.journal, parent, child.id)
            && OrdersContained(w.oms, p.world.oms, parent)
            && (p.outcome.Ok? ==>
                  && Journaled(p.world.journal, parent, child, fill.quantity) && fill.price > 0.0
                          && FillRecorded(w.oms, p.world.oms, parent, fill.(order := parent, venueOrder := venueOrder))
                  && p.outcome.value.0 == p.world.oms.orders[parent])
  {
    BookFillFacts(w.journal, parent, child, fill, now);
    var booked := BookFill(w.journal, parent, child.id, fill, now);
    if booked.1.None? {
      AfterBookingFacts(w.(journal := booked.0), parent, child, index, venueOrder, fill, observed, fingerprint, now);
    }
  }

  lemma BookFillFacts(t: J.Tables, parent: Id, child: Order, fill: Fill, now: real)
    requires JR.TablesOk(t) && parent in t.rows && parent != child.id && AwaitsFill(t, parent, child)
    ensures var booked := BookFill(t, parent, child.id, fill, now);
            && RowsContained(t, booked.0, parent, child.id)
            && (booked.1.None? ==> Journaled(booked.0, parent, child, fill.quantity) && fill.price > 0.0)
  {
    var first := J.MarkFill(t, child.id, fill.quantity, fill.price, now, Some(fill.fillId));
    if first.Ok? {
      ChildFillFacts(t, parent, child, fill, now);
      var second := J.MarkFill(first.value, parent, fill.quantity, fill.price, now,
                               Some(Scoped(child.id, fill.fillId)));
      if second.Ok? {
        ParentFillFacts(first.value, parent, child, fill, now);
        ContainedTrans(t, first.value, second.value, parent, child.id);
      }
    }
  }

  lemma AfterBookingFacts(w: World, parent: Id, child: Order, index: nat, venueOrder: Id, fill: Fill,
                          observed: Outcome<V.Observation>, fingerprint: Id, now: real)
    requires O.OmsOk(w.oms) && O.FilledNonNegative(w.oms)
    ensures var p := AfterBooking(w, parent, child, index, venueOrder, fill, observed, fingerprint, now);
            && p.called && p.world.journal == w.journal && OrdersContained(w.oms, p.world.oms, parent)
            && (p.outcome.Ok? ==>
                  && FillRecorded(w.oms, p.world.oms, parent, fill.(order := parent, venueOrder := venueOrder))
                  && p.outcome.value.0 == p.world.oms.orders[parent])
  {
    var f := Fill(fill.fillId, parent, venueOrder, fill.quantity, fill.price, fill.at);
    var p := AfterBooking(w, parent, child, index, venueOrder, fill, observed, fingerprint, now);
    assert f == fill.(order := parent, venueOrder := venueOrder);
    assert O.RecordFill(w.oms, f, now).Raised? ==> p == Progress(w, true, [], p.outcome) && p.outcome.Raised?;
    if O.RecordFill(w.oms, f, now).Ok? {
      assert p.world.oms == O.RecordFill(w.oms, f, now).value.0;
      assert p.outcome.Ok? ==> p.outcome.value.0 == O.RecordFill(w.oms, f, now).value.1;
      RecordFillFacts(w.oms, f, now);
    }
  }

  /** What one child does, whatever the broker answers. The boundary is crossed only for an id the
      journal has just gained, under the identity it is submitted with; a broker call that raises
      leaves the child for recovery; and a child that succeeds leaves its fill in all three places. */
  ghost predicate StepOk(w: World, parent: Id, child: Order, replies: Replies, p: Progress) {
    && WorldOk(p.world) && parent in p.world.journal.rows
    && RowsContained(w.journal, p.world.journal, parent, child.id)
    && OrdersContained(w.oms, p.world.oms, parent)
    && (if p.called then child.id !in w.journal.rows && Bound(p.world.journal, parent, child)
        else p.world == w && p.outcome.Raised?)
    && (p.called && (replies.submitted.Raised? || replies.filled.Raised?) ==>
          p.outcome.Raised? && J.Unresolved(p.world.journal.rows[child.id]))
    && (p.outcome.Ok? ==>
          && p.called && replies.submitted.Ok? && replies.filled.Ok? && replies.filled.value.price > 0.0
          && Journaled(p.world.journal, parent, child, replies.filled.value.quantity)
          && FillRecorded(w.oms, p.world.oms, parent, ParentFill(parent, replies))
          && p.outcome.value.0 == p.world.oms.orders[parent])
  }

  /** In the journal, under the identity it is, or was, submitted with. */
  ghost predicate Bound(t: J.Tables, parent: Id, child: Order) {
    && child.id in t.rows && t.rows[child.id].clientId == Some(child.ClientId())
       && t.rows[child.id].parentId == Some(parent)
  }

  /** The fill the OMS is given for the parent. */
  function ParentFill(parent: Id, replies: Replies): Fill
    requires replies.submitted.Ok? && replies.filled.Ok?
  {
    replies.filled.value.(order := parent, venueOrder := replies.submitted.value)
  }

  lemma ChildStepFacts(w: World, parent: Id, child: Order, index: nat, quote: V.Quote, replies: Replies,
                       fingerprint: Id, now: real)
    requires WorldOk(w) && parent in w.journal.rows
    ensures StepOk(w, parent, child, replies, ChildStep(w, parent, child, index, quote, replies, fingerprint, now))
  {
    var t := w.journal;
    var begun := J.BeginSubmission(t, child.id, now, Some(parent), Some(child.ClientId()), Some(child.quantity), true);
    if begun.Ok? {
      BeginFacts(t, parent, child, now);
      AfterBeginFacts(w.(journal := begun.value), parent, child, index, quote, replies, fingerprint, now);
      var p := ChildStep(w, parent, child, index, quote, replies, fingerprint, now);
      ContainedTrans(t, begun.value, p.world.journal, parent, child.id);
    }
  }

  lemma AfterBeginFacts(w: World, parent: Id, child: Order, index: nat, quote: V.Quote, replies: Replies,
                        fingerprint: Id, now: real)
    requires WorldOk(w) && parent in w.journal.rows && parent != child.id
    requires AwaitsFill(w.journal, parent, child) && w.journal.rows[child.id].state == J.Submitting
    ensures var p := AfterBegin(w, parent, child, index, quote, replies, fingerprint, now);
            && p.called && RowsContained(w.journal, p.world.journal, parent, child.id)
            && OrdersContained(w.oms, p.world.oms, parent)
            && Bound(p.world.journal, parent, child)
            && (replies.submitted.Raised? || replies.filled.Raised? ==>
                  p.outcome.Raised? && J.Unresolved(p.world.journal.rows[child.id]))
            && (p.outcome.Ok? ==>
                  && var fill := replies.filled.value;
                  && Journaled(p.world.journal, parent, child, fill.quantity) && fill.price > 0.0
                  && FillRecorded(w.oms, p.world.oms, parent, ParentFill(parent, replies))
                          && p.outcome.value.0 == p.world.oms.orders[parent])
  {
    var t := w.journal;
    if replies.submitted.Raised? {
      MarkFacts(t, parent, child, J.Unknown, None, Some(""), now);
    } else {
      var venue := Some(replies.submitted.value);
      MarkFacts(t, parent, child, J.Working, venue, None, now);
      var w2 := w.(journal := J.Update(t, child.id, J.Working, venue, None, now).value);
      if replies.filled.Ok? {
        var fill := replies.filled.value;
        AfterFillFacts(w2, parent, child, index, replies.submitted.value, fill, replies.observed, fingerprint, now);
        var p := AfterBegin(w, parent, child, index, quote, replies, fingerprint, now);
        ContainedTrans(t, w2.journal, p.world.journal, parent, child.id);
        assert JR.Evolves(w2.journal.rows[child.id], p.world.journal.rows[child.id]);
      }
    }
  }
}
