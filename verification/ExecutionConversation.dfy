/** What the broker is told, and what becomes of its answers: the calls of one execution with their
    arguments, turn by turn, against the journal and the order manager they leave behind. */
module ExecutionConversation {
  import opened Common
  import opened Orders
  import opened ExecutionExits
  import opened ExecutionLoop
  import opened ExecutionProtocol
  import opened ExecutionSpec
  import opened Identity
  import A = AdmissionSpec
  import E = StateEvents
  import J = JournalSpec
  import JR = JournalRuns
  import O = OmsSpec
  import Slicing
  import Sums
  import V = Venue

  /** The calls made for one child, in order. */
  type Turn = seq<Answer>

  function Turns(steps: seq<Progress>): (r: seq<Turn>)
    ensures |r| == |steps|
  {
    seq(|steps|, k requires 0 <= k < |steps| => steps[k].answers)
  }

  // ----- What is said -----

  /** submit a part of the order on the quoted venue; if it is taken, ask for its fill under the venue
      id that submit answered, a buy at the ask and anything else at the bid; if that is given and
      recorded, reconcile the same venue id. */
  ghost predicate Spoken(o: Order, quote: V.Quote, said: Turn) {
    && |said| <= 3
    && (said != [] ==> && said[0].Took? && IsPart(o, said[0].order) && said[0].order.venue == Some(quote.venue)
                       && said[0].order.status == OrderStatus.Working)
    && (|said| == 1 ==> said[0].reply.Raised?)
    && (|said| > 1 ==> && said[0].reply.Ok? && said[1].Gave? && said[1].order == said[0].order
                       && said[1].venueOrder == said[0].reply.value
                       && said[1].price == if o.side == Buy then quote.ask else quote.bid)
    && (|said| > 2 ==> && said[1].fill.Ok? && said[2].Saw? && said[2].venueOrder == said[0].reply.value)
  }

  /** All three calls were made, and the last was answered with a status the coordinator knows. */
  ghost predicate Answered(said: Turn) {
    |said| == 3 && said[2].Saw? && said[2].seen.Ok? && said[2].seen.value.status.Some?
  }

  /** The broker sees all of the child's own quantity FILLED, up to 1e-9. */
  ghost predicate SeesFilled(child: Order, seen: V.Observation) {
    && seen.status == Some(OrderStatus.Filled) && seen.filled.Some? && seen.filled.value >= 0.0
    && -0.000000001 <= seen.filled.value - child.quantity <= 0.000000001
  }

  ghost predicate Confirmed(said: Turn) {
    Answered(said) && said[0].Took? && SeesFilled(said[0].order, said[2].seen.value)
  }

  // ----- What becomes of the answers -----

  /** The child's row: under the identity and the quantity it was submitted with, UNKNOWN if submit
      raised, bound to the venue id it answered otherwise, and holding the fill once it is recorded. */
  ghost predicate Booked(t: J.Tables, parent: Id, said: Turn, now: real) {
    said != [] && said[0].Took? ==>
      && var c := said[0].order;
      && c.id in t.rows
      && var row := t.rows[c.id];
      && row.parentId == Some(parent) && row.clientId == c.key && row.requested == Some(c.quantity)
      && (said[0].reply.Raised? ==> row.state == J.Unknown && row.venueId == None && row.filled == 0.0)
      && (said[0].reply.Ok? ==> row.venueId == Some(said[0].reply.value))
      && (|said| > 1 && said[1].Gave? && said[1].fill.Raised? ==> row.state == J.Working && row.filled == 0.0)
      && (|said| > 2 && said[1].Gave? && said[1].fill.Ok? ==> HoldsFill(t, parent, c, said[1].fill.value, now))
  }

  /** The fill exactly as the broker gave it, in the child's row and ledger, and in the parent's ledger
      under a prefixed id. */
  ghost predicate HoldsFill(t: J.Tables, parent: Id, c: Order, f: Fill, now: real) {
    && c.id in t.rows && f.quantity > 0.0 && f.price > 0.0
    && var row, prefixed := t.rows[c.id], Scoped(c.id, f.fillId);
    && row.filled == f.quantity && row.notional == f.quantity * f.price && row.complete
    && row.state == (if f.quantity >= c.quantity - 0.000000001 then J.Filled else J.PartiallyFilled)
    && J.LedgerOf(t, c.id) == map[f.fillId := J.Deal(f.quantity, f.price, now)]
    && prefixed in J.LedgerOf(t, parent) && Near(J.LedgerOf(t, parent)[prefixed], f)
  }

  ghost predicate Near(d: J.Deal, f: Fill) {
    && -0.000000000001 <= d.quantity - f.quantity <= 0.000000000001
    && -0.000000000001 <= d.price - f.price <= 0.000000000001
  }

  // ----- One turn -----

  /** Rows and ledgers other than the parent's are as they were, and the parent's ledger keeps its deals. */
  ghost predicate Spared(t: J.Tables, t': J.Tables, parent: Id, child: Id) {
    && (forall id | id in t.rows && id != parent && id != child ::
          id in t'.rows && t'.rows[id] == t.rows[id] && J.LedgerOf(t', id) == J.LedgerOf(t, id))
    && (forall f | f in J.LedgerOf(t, parent) ::
          f in J.LedgerOf(t', parent) && J.LedgerOf(t', parent)[f] == J.LedgerOf(t, parent)[f])
  }

  /** The row of a child the broker is working on. */
  ghost predicate Pending(t: J.Tables, parent: Id, child: Order, state: J.State, venue: Option<Id>) {
    && child.id in t.rows && J.LedgerOf(t, child.id) == map[]
    && var row := t.rows[child.id];
    && row.parentId == Some(parent) && row.clientId == child.key && row.requested == Some(child.quantity)
    && row.filled == 0.0 && row.notional == 0.0 && row.complete && row.state == state && row.venueId == venue
  }

  lemma BookingSays(w: World, parent: Id, child: Order, index: nat, venueOrder: Id, fill: Fill,
                    observed: Outcome<V.Observation>, fingerprint: Id, now: real)
    requires O.OmsOk(w.oms) && O.FilledNonNegative(w.oms) && child.quantity > 0.0
    ensures var p := AfterBooking(w, parent, child, index, venueOrder, fill, observed, fingerprint, now);
            && p.called && p.world.journal == w.journal && (p.answers == [] || p.answers == [Saw(venueOrder, observed)])
            && (p.outcome.Ok? <==> p.answers != [] && observed.Ok? && observed.value.status.Some?)
            && (p.outcome.Ok? ==> (p.outcome.value.1 <==> SeesFilled(child, observed.value)))
  {
    hide O.RecordFill; hide E.Record; hide O.OmsOk; hide O.FilledNonNegative;
  }

  /** The fill is in the child's own row and ledger. */
  ghost predicate HalfBooked(t: J.Tables, c: Order, f: Fill, now: real) {
    && c.id in t.rows && f.quantity > 0.0 && f.price > 0.0
    && var row := t.rows[c.id];
    && row.filled == f.quantity && row.notional == f.quantity * f.price && row.complete
    && row.state == (if f.quantity >= c.quantity - 0.000000001 then J.Filled else J.PartiallyFilled)
    && J.LedgerOf(t, c.id) == map[f.fillId := J.Deal(f.quantity, f.price, now)]
  }

  ghost predicate BoundTo(t: J.Tables, parent: Id, child: Order, venue: Option<Id>) {
    && child.id in t.rows
    && var row := t.rows[child.id];
    && row.parentId == Some(parent) && row.clientId == child.key && row.requested == Some(child.quantity)
    && row.venueId == venue
  }

  lemma ChildBooks(t: J.Tables, parent: Id, child: Order, venue: Option<Id>, f: Fill, now: real)
    requires parent != child.id && Pending(t, parent, child, J.Working, venue)
    requires J.MarkFill(t, child.id, f.quantity, f.price, now, Some(f.fillId)).Ok?
    ensures var t' := J.MarkFill(t, child.id, f.quantity, f.price, now, Some(f.fillId)).value;
            && Spared(t, t', parent, child.id) && HalfBooked(t', child, f, now) && BoundTo(t', parent, child, venue)
  {
    var t' := J.MarkFill(t, child.id, f.quantity, f.price, now, Some(f.fillId)).value;
    var deal := J.Deal(f.quantity, f.price, now);
    assert t' == J.Tables(t.rows[child.id := J.FilledRow(t.rows[child.id], f.quantity, f.price, now, true)],
                          t.fills[child.id := map[][f.fillId := deal]]);
    hide J.MarkFill;
    assert deal.Worth() == f.quantity * f.price;
  }

  lemma ParentBooks(t: J.Tables, parent: Id, child: Order, venue: Option<Id>, f: Fill, now: real)
    requires parent != child.id && HalfBooked(t, child, f, now) && BoundTo(t, parent, child, venue)
    requires J.MarkFill(t, parent, f.quantity, f.price, now, Some(Scoped(child.id, f.fillId))).Ok?
    ensures var t' := J.MarkFill(t, parent, f.quantity, f.price, now, Some(Scoped(child.id, f.fillId))).value;
            && Spared(t, t', parent, child.id) && HoldsFill(t', parent, child, f, now)
            && BoundTo(t', parent, child, venue)
  {
    var prefixed, ledger := Scoped(child.id, f.fillId), J.LedgerOf(t, parent);
    var t' := J.MarkFill(t, parent, f.quantity, f.price, now, Some(prefixed)).value;
    var deal := J.Deal(f.quantity, f.price, now);
    if prefixed in ledger {
      assert t' == t && J.SameDeal(ledger[prefixed], f.quantity, f.price);
    } else {
      assert t' == J.Tables(t.rows[parent := J.FilledRow(t.rows[parent], f.quantity, f.price, now, true)],
                            t.fills[parent := ledger[prefixed := deal]]);
      hide J.MarkFill; hide J.FilledRow;
      assert J.LedgerOf(t', parent) == ledger[prefixed := deal];
      assert J.LedgerOf(t', child.id) == J.LedgerOf(t, child.id);
    }
  }

  lemma SparedTrans(t: J.Tables, t': J.Tables, t'': J.Tables, parent: Id, child: Id)
    requires Spared(t, t', parent, child) && Spared(t', t'', parent, child)
    ensures Spared(t, t'', parent, child)
  {
    hide J.LedgerOf;
  }

  /** The two entries of one fill. */
  lemma BookMeans(t: J.Tables, parent: Id, child: Order, venue: Option<Id>, fill: Fill, now: real)
    requires parent != child.id && Pending(t, parent, child, J.Working, venue)
    ensures var booked := BookFill(t, parent, child.id, fill, now);
            && Spared(t, booked.0, parent, child.id) && BoundTo(booked.0, parent, child, venue)
            && (booked.1.None? ==> HoldsFill(booked.0, parent, child, fill, now))
  {
    var first := J.MarkFill(t, child.id, fill.quantity, fill.price, now, Some(fill.fillId));
    assert Spared(t, t, parent, child.id) && BoundTo(t, parent, child, venue);
    if first.Ok? {
      ChildBooks(t, parent, child, venue, fill, now);
      var second := J.MarkFill(first.value, parent, fill.quantity, fill.price, now,
                               Some(Scoped(child.id, fill.fillId)));
      if second.Ok? {
        ParentBooks(first.value, parent, child, venue, fill, now);
        SparedTrans(t, first.value, second.value, parent, child.id);
      }
    }
    hide J.MarkFill; hide Spared; hide BoundTo; hide HoldsFill; hide HalfBooked; hide Pending;
  }

  /** From the fill on. */
  lemma FillSays(w: World, parent: Id, child: Order, index: nat, venueOrder: Id, fill: Fill,
                 observed: Outcome<V.Observation>, fingerprint: Id, now: real)
    requires O.OmsOk(w.oms) && O.FilledNonNegative(w.oms) && child.quantity > 0.0
    requires parent != child.id && Pending(w.journal, parent, child, J.Working, Some(venueOrder))
    ensures var p := AfterFill(w, parent, child, index, venueOrder, fill, observed, fingerprint, now);
            && p.called && (p.answers == [] || p.answers == [Saw(venueOrder, observed)])
            && (p.outcome.Ok? <==> p.answers != [] && observed.Ok? && observed.value.status.Some?)
            && (p.outcome.Ok? ==> (p.outcome.value.1 <==> SeesFilled(child, observed.value)))
            && Spared(w.journal, p.world.journal, parent, child.id)
            && BoundTo(p.world.journal, parent, child, Some(venueOrder))
            && (p.answers != [] ==> HoldsFill(p.world.journal, parent, child, fill, now))
  {
    BookMeans(w.journal, parent, child, Some(venueOrder), fill, now);
    var booked := BookFill(w.journal, parent, child.id, fill, now);
    if booked.1.None? {
      BookingSays(w.(journal := booked.0), parent, child, index, venueOrder, fill, observed, fingerprint, now);
    }
    hide BookFill; hide AfterBooking; hide Spared; hide BoundTo; hide HoldsFill; hide Pending; hide SeesFilled;
    hide O.OmsOk; hide O.FilledNonNegative;
  }

  lemma ReplyMeans(t: J.Tables, parent: Id, child: Order, reply: Outcome<Id>, now: real)
    requires parent != child.id && Pending(t, parent, child, J.Submitting, None)
    ensures var placed := AfterReply(t, child.id, reply, now);
            && placed.1 == reply && Spared(t, placed.0, parent, child.id)
            && (if reply.Ok? then Pending(placed.0, parent, child, J.Working, Some(reply.value))
                else Pending(placed.0, parent, child, J.Unknown, None))
  {
  }

  lemma BeginMeans(t: J.Tables, parent: Id, child: Order, now: real)
    requires JR.TablesOk(t) && parent in t.rows && child.key == Some(child.ClientId())
    requires J.BeginSubmission(t, child.id, now, Some(parent), Some(child.ClientId()), Some(child.quantity), true).Ok?
    ensures var t' := J.BeginSubmission(t, child.id, now, Some(parent), Some(child.ClientId()), Some(child.quantity),
                                        true).value;
            && parent != child.id && child.id !in t.rows && child.quantity > 0.0
            && Pending(t', parent, child, J.Submitting, None)
            && Spared(t, t', parent, child.id)
  {
    assert child.id !in t.fills;
  }

  /** One turn, what it books, and what the loop body makes of it. */
  ghost predicate TurnIs(t: J.Tables, o: Order, quote: V.Quote, said: Turn, filled: Outcome<Fill>,
                         outcome: Outcome<(Order, bool)>, now: real) {
    && Spoken(o, quote, said) && Booked(t, o.id, said, now)
    && (outcome.Ok? <==> Answered(said))
    && (outcome.Ok? ==> (outcome.value.1 <==> Confirmed(said)) && said[1].fill == filled)
  }

  /** What one child's turn amounts to. */
  ghost predicate TurnTaken(w: World, o: Order, child: Order, quote: V.Quote, replies: Replies, p: Progress,
                            now: real) {
    && TurnIs(p.world.journal, o, quote, p.answers, replies.filled, p.outcome, now)
    && (p.called <==> p.answers != []) && (p.called ==> p.answers[0] == Took(child, replies.submitted))
    && (if p.called then child.id != o.id && child.id !in w.journal.rows
                         && Spared(w.journal, p.world.journal, o.id, child.id)
        else p.world == w)
  }

  /** The child as the coordinator routes it. */
  ghost predicate RoutedPart(o: Order, quote: V.Quote, child: Order) {
    IsPart(o, child) && child.venue == Some(quote.venue) && child.status == OrderStatus.Working
  }

  /** A turn whose order was taken. */
  lemma TakenTurn(t: J.Tables, o: Order, child: Order, quote: V.Quote, venueOrder: Id, filled: Outcome<Fill>,
                  tail: Turn, outcome: Outcome<(Order, bool)>, now: real)
    requires RoutedPart(o, quote, child) && BoundTo(t, o.id, child, Some(venueOrder))
    requires tail == [] || (|tail| == 1 && tail[0].Saw? && tail[0].venueOrder == venueOrder && filled.Ok?)
    requires filled.Raised? ==> t.rows[child.id].state == J.Working && t.rows[child.id].filled == 0.0
    requires filled.Ok? && tail != [] ==> HoldsFill(t, o.id, child, filled.value, now)
    requires outcome.Ok? <==> tail != [] && tail[0].seen.Ok? && tail[0].seen.value.status.Some?
    requires outcome.Ok? ==> (outcome.value.1 <==> SeesFilled(child, tail[0].seen.value))
    ensures var said := [Took(child, Ok(venueOrder)), Gave(child, venueOrder, Arrival(child, quote), filled)] + tail;
            TurnIs(t, o, quote, said, filled, outcome, now)
  {
    hide HoldsFill; hide SeesFilled; hide J.LedgerOf;
  }

  lemma PlaceSays(w: World, o: Order, child: Order, index: nat, venueOrder: Id, quote: V.Quote, filled: Outcome<Fill>,
                  observed: Outcome<V.Observation>, fingerprint: Id, now: real)
    requires O.OmsOk(w.oms) && O.FilledNonNegative(w.oms) && RoutedPart(o, quote, child) && o.id != child.id
    requires Pending(w.journal, o.id, child, J.Working, Some(venueOrder))
    ensures var p := AfterPlace(w, o.id, child, index, venueOrder, quote, filled, observed, fingerprint, now);
            && p.called
            && TurnIs(p.world.journal, o, quote, [Took(child, Ok(venueOrder))] + p.answers, filled, p.outcome, now)
            && Spared(w.journal, p.world.journal, o.id, child.id)
  {
    hide TurnIs; hide AfterFill; hide O.OmsOk; hide O.FilledNonNegative; hide SeesFilled; hide HoldsFill;
    hide J.LedgerOf; hide Arrival;
    var took, gave := Took(child, Ok(venueOrder)), Gave(child, venueOrder, Arrival(child, quote), filled);
    if filled.Ok? {
      FillSays(w, o.id, child, index, venueOrder, filled.value, observed, fingerprint, now);
      var p := AfterFill(w, o.id, child, index, venueOrder, filled.value, observed, fingerprint, now);
      TakenTurn(p.world.journal, o, child, quote, venueOrder, filled, p.answers, p.outcome, now);
      assert [took] + ([gave] + p.answers) == [took, gave] + p.answers;
    } else {
      TakenTurn(w.journal, o, child, quote, venueOrder, filled, [], Raised(filled.error), now);
      assert [took] + [gave] == [took, gave] + [];
    }
  }

  /** A turn whose order was not taken. */
  lemma RefusedTurn(t: J.Tables, o: Order, child: Order, quote: V.Quote, error: Error, filled: Outcome<Fill>, now: real)
    requires RoutedPart(o, quote, child) && Pending(t, o.id, child, J.Unknown, None)
    ensures TurnIs(t, o, quote, [Took(child, Raised(error))], filled, Raised(error), now)
  {
    hide IsPart; hide J.LedgerOf;
  }

  lemma BeginSays(w: World, o: Order, child: Order, index: nat, quote: V.Quote, replies: Replies, fingerprint: Id,
                  now: real)
    requires O.OmsOk(w.oms) && O.FilledNonNegative(w.oms) && RoutedPart(o, quote, child) && o.id != child.id
    requires Pending(w.journal, o.id, child, J.Submitting, None)
    ensures var p := AfterBegin(w, o.id, child, index, quote, replies, fingerprint, now);
            && p.called && p.answers != [] && p.answers[0] == Took(child, replies.submitted)
            && TurnIs(p.world.journal, o, quote, p.answers, replies.filled, p.outcome, now)
            && Spared(w.journal, p.world.journal, o.id, child.id)
  {
    hide TurnIs; hide AfterPlace; hide AfterReply; hide O.OmsOk; hide O.FilledNonNegative; hide Spared; hide Pending;
    hide RoutedPart;
    var placed := AfterReply(w.journal, child.id, replies.submitted, now);
    ReplyMeans(w.journal, o.id, child, replies.submitted, now);
    if replies.submitted.Ok? {
      var w1 := w.(journal := placed.0);
      PlaceSays(w1, o, child, index, replies.submitted.value, quote, replies.filled, replies.observed, fingerprint,
                now);
      var p := AfterPlace(w1, o.id, child, index, replies.submitted.value, quote, replies.filled, replies.observed,
                          fingerprint, now);
      SparedTrans(w.journal, w1.journal, p.world.journal, o.id, child.id);
    } else {
      RefusedTurn(placed.0, o, child, quote, replies.submitted.error, replies.filled, now);
    }
  }

  lemma NothingSaid(t: J.Tables, o: Order, quote: V.Quote, error: Error, filled: Outcome<Fill>, now: real)
    ensures TurnIs(t, o, quote, [], filled, Raised(error), now)
  {
  }

  lemma ChildSays(w: World, o: Order, child: Order, index: nat, quote: V.Quote, replies: Replies, fingerprint: Id,
                  now: real)
    requires WorldOk(w) && o.id in w.journal.rows && RoutedPart(o, quote, child)
    ensures TurnTaken(w, o, child, quote, replies, ChildStep(w, o.id, child, index, quote, replies, fingerprint, now),
                      now)
  {
    hide TurnIs; hide AfterBegin; hide J.BeginSubmission; hide O.OmsOk; hide O.FilledNonNegative; hide Pending;
    hide Spared; hide JR.TablesOk;
    var begun := J.BeginSubmission(w.journal, child.id, now, Some(o.id), Some(child.ClientId()), Some(child.quantity),
                                   true);
    if begun.Ok? {
      BeginMeans(w.journal, o.id, child, now);
      var w1 := w.(journal := begun.value);
      BeginSays(w1, o, child, index, quote, replies, fingerprint, now);
      var p := AfterBegin(w1, o.id, child, index, quote, replies, fingerprint, now);
      SparedTrans(w.journal, w1.journal, p.world.journal, o.id, child.id);
    } else {
      NothingSaid(w.journal, o, quote, begun.error, replies.filled, now);
    }
  }

  // ----- The whole loop -----

  /** The rest of the loop leaves a child's row, and its ledger, alone. */
  lemma BookedLasts(t: J.Tables, t': J.Tables, parent: Id, said: Turn, now: real)
    requires Booked(t, parent, said, now) && Spared(t, t', parent, parent)
    requires said != [] ==> said[0].Took? && said[0].order.id != parent
    ensures Booked(t', parent, said, now)
  {
    hide J.LedgerOf;
  }

  lemma TurnAt(start: World, o: Order, sent: seq<Order>, trace: Trace, quote: V.Quote, fingerprint: Id, now: real,
               k: nat)
    requires Traced(start, o.id, sent, trace) && Faithful(o.id, sent, trace, quote, fingerprint, now)
    requires k < |trace.steps| && RoutedPart(o, quote, sent[k])
    ensures TurnTaken(trace.worlds[k], o, sent[k], quote, trace.replies[k], trace.steps[k], now)
  {
    hide ChildStep; hide TurnTaken; hide RoutedPart; hide WorldOk;
    assert StepIs(o.id, sent, trace, k, quote, fingerprint, now);
    if k > 0 {
      assert StepOk(trace.worlds[k - 1], o.id, sent[k - 1], trace.replies[k - 1], trace.steps[k - 1]);
    }
    ChildSays(trace.worlds[k], o, sent[k], k, quote, trace.replies[k], fingerprint, now);
  }

  ghost predicate TurnsTaken(o: Order, sent: seq<Order>, trace: Trace, quote: V.Quote, now: real) {
    && |trace.steps| <= |sent| && |trace.worlds| == |trace.steps| + 1 && |trace.replies| == |trace.steps|
    && (forall k | 0 <= k < |trace.steps| ::
          TurnTaken(trace.worlds[k], o, sent[k], quote, trace.replies[k], trace.steps[k], now))
    && (forall k | 0 <= k < |trace.steps| :: trace.worlds[k + 1] == trace.steps[k].world)
  }

  lemma TraceTurns(start: World, o: Order, sent: seq<Order>, trace: Trace, quote: V.Quote, fingerprint: Id, now: real)
    requires Traced(start, o.id, sent, trace) && Faithful(o.id, sent, trace, quote, fingerprint, now)
    requires forall k | 0 <= k < |sent| :: RoutedPart(o, quote, sent[k])
    ensures TurnsTaken(o, sent, trace, quote, now)
  {
    forall k | 0 <= k < |trace.steps|
      ensures TurnTaken(trace.worlds[k], o, sent[k], quote, trace.replies[k], trace.steps[k], now) {
      TurnAt(start, o, sent, trace, quote, fingerprint, now, k);
    }
    hide TurnTaken; hide StepOk; hide Faithful; hide RoutedPart; hide WorldOk;
  }

  lemma {:induction false} TurnsSpare(o: Order, sent: seq<Order>, trace: Trace, quote: V.Quote, now: real, i: nat,
                                      j: nat)
    requires TurnsTaken(o, sent, trace, quote, now) && i <= j < |trace.worlds|
    ensures Spared(trace.worlds[i].journal, trace.worlds[j].journal, o.id, o.id)
    decreases j - i
  {
    hide Spoken; hide Booked; hide Answered; hide Confirmed; hide J.LedgerOf;
    if i < j {
      TurnsSpare(o, sent, trace, quote, now, i, j - 1);
      assert TurnTaken(trace.worlds[j - 1], o, sent[j - 1], quote, trace.replies[j - 1], trace.steps[j - 1], now);
    }
  }

  /** Everything said, and everything booked, as it stands when the loop ends. */
  ghost predicate Talked(o: Order, quote: V.Quote, t: J.Tables, turns: seq<Turn>, now: real) {
    forall k | 0 <= k < |turns| :: Spoken(o, quote, turns[k]) && Booked(t, o.id, turns[k], now)
  }

  lemma TurnsTalk(o: Order, sent: seq<Order>, trace: Trace, quote: V.Quote, now: real)
    requires TurnsTaken(o, sent, trace, quote, now)
    ensures Talked(o, quote, Last(trace).journal, Turns(trace.steps), now)
  {
    hide Spoken; hide Booked; hide Answered; hide Confirmed; hide Spared;
    forall k | 0 <= k < |trace.steps|
      ensures Spoken(o, quote, Turns(trace.steps)[k]) && Booked(Last(trace).journal, o.id, Turns(trace.steps)[k], now) {
      assert TurnTaken(trace.worlds[k], o, sent[k], quote, trace.replies[k], trace.steps[k], now);
      TurnsSpare(o, sent, trace, quote, now, k + 1, |trace.steps|);
      BookedLasts(trace.worlds[k + 1].journal, Last(trace).journal, o.id, trace.steps[k].answers, now);
    }
  }

  // ----- How the conversation and the exit belong together -----

  /** The quantities submitted. */
  function Ordered(turns: seq<Turn>): seq<real> {
    seq(|turns|, k requires 0 <= k < |turns| =>
      if turns[k] != [] && turns[k][0].Took? then turns[k][0].order.quantity else 0.0)
  }

  predicate GivesFill(said: Turn) {
    |said| > 1 && said[0].Took? && said[0].reply.Ok? && said[1].Gave? && said[1].fill.Ok?
  }

  /** The fills the broker gave, as fills of the parent. */
  function Given(parent: Id, turns: seq<Turn>): seq<Fill>
    requires forall k | 0 <= k < |turns| :: GivesFill(turns[k])
  {
    seq(|turns|, k requires 0 <= k < |turns| && GivesFill(turns[k]) =>
      turns[k][1].fill.value.(order := parent, venueOrder := turns[k][0].reply.value))
  }

  /** The stored parent holds the sum, and the average price, of these fills, each id counted once. */
  ghost predicate HoldsFills(m: O.Oms, parent: Id, fills: seq<Fill>) {
    && parent in m.orders
    && var p, counted := m.orders[parent], Firsts(fills);
    && p.filled == O.QuantitySum(counted)
    && (counted != [] ==> p.average.Some? && p.average.value * p.filled == O.WorthSum(counted))
  }

  const THROUGH: set<Exit> := {Unreconciled, DurableMismatch, CommitRefused, AnalyticsFailed, Returned}

  /** How the exit follows from the answers. */
  ghost predicate ExitFits(exit: Exit, turns: seq<Turn>) {
    && (forall k | 0 <= k < |turns| - 1 :: Answered(turns[k]))
    && (exit == SetupFailed ==> forall k | 0 <= k < |turns| :: turns[k] == [])
    && (exit == LoopFailed ==> turns != [] && turns[0] != [] && !Answered(turns[|turns| - 1]))
    && (exit in THROUGH ==>
          && (forall k | 0 <= k < |turns| :: Answered(turns[k]))
          && (exit == Unreconciled <==> exists k :: 0 <= k < |turns| && !Confirmed(turns[k])))
  }

  /** After a loop that went through, everything was ordered, and the parent holds what was filled. */
  ghost predicate Fulfilled(o: Order, m: O.Oms, turns: seq<Turn>) {
    && (forall k | 0 <= k < |turns| :: GivesFill(turns[k]))
    && o.quantity - 0.000000000001 <= Sums.SumSeq(Ordered(turns))
    && HoldsFills(m, o.id, Given(o.id, turns))
  }

  /** One conversation, and the world and the exit it ends with. */
  ghost predicate Conversed(o: Order, quote: V.Quote, w': World, exit: Exit, turns: seq<Turn>, now: real) {
    && Talked(o, quote, w'.journal, turns, now) && Sums.SumSeq(Ordered(turns)) <= o.quantity && ExitFits(exit, turns)
    && (exit in THROUGH ==> Fulfilled(o, w'.oms, turns))
  }

  lemma {:induction false} SumOfAtMost(a: seq<real>, b: seq<real>)
    requires |a| <= |b| && (forall k | 0 <= k < |a| :: a[k] <= b[k]) && forall k | 0 <= k < |b| :: b[k] >= 0.0
    ensures Sums.SumSeq(a) <= Sums.SumSeq(b)
  {
    if b != [] {
      var last := |b| - 1;
      SumOfAtMost(if |a| == |b| then a[..last] else a, b[..last]);
    }
  }

  lemma OrderedFits(o: Order, volumes: Option<seq<real>>, sent: seq<Order>, trace: Trace, quote: V.Quote, now: real)
    requires TurnsTaken(o, sent, trace, quote, now) && Planned(o, volumes, sent)
    ensures Sums.SumSeq(Ordered(Turns(trace.steps))) <= o.quantity
    ensures RanThrough(sent, trace)
            ==> o.quantity - 0.000000000001 <= Sums.SumSeq(Ordered(Turns(trace.steps)))
  {
    hide Spoken; hide Booked; hide Confirmed; hide Spared; hide IsPart;
    var a, b := Ordered(Turns(trace.steps)), Slicing.ChildQuantities(sent);
    forall k | 0 <= k < |a| ensures a[k] == (if trace.steps[k].called then b[k] else 0.0) {
      assert TurnTaken(trace.worlds[k], o, sent[k], quote, trace.replies[k], trace.steps[k], now);
    }
    SumOfAtMost(a, b);
    if RanThrough(sent, trace) {
      forall k | 0 <= k < |a| ensures trace.steps[k].called {
        assert TurnTaken(trace.worlds[k], o, sent[k], quote, trace.replies[k], trace.steps[k], now);
      }
      assert a == b;
    }
  }

  lemma GivenIsRecorded(o: Order, sent: seq<Order>, trace: Trace, quote: V.Quote, now: real)
    requires TurnsTaken(o, sent, trace, quote, now) && RanThrough(sent, trace)
    ensures forall k | 0 <= k < |Turns(trace.steps)| ::
              Answered(Turns(trace.steps)[k]) && GivesFill(Turns(trace.steps)[k])
    ensures Given(o.id, Turns(trace.steps)) == FillsOf(o.id, trace)
    ensures forall k | 0 <= k < |trace.steps| :: trace.steps[k].outcome.value.1 <==> Confirmed(Turns(trace.steps)[k])
  {
    hide Booked; hide Confirmed; hide Spared; hide IsPart;
    forall k | 0 <= k < |trace.steps|
      ensures Answered(Turns(trace.steps)[k]) && GivesFill(Turns(trace.steps)[k])
              && Turns(trace.steps)[k][1].fill == trace.replies[k].filled
              && Turns(trace.steps)[k][0].reply == trace.replies[k].submitted
              && (trace.steps[k].outcome.value.1 <==> Confirmed(Turns(trace.steps)[k])) {
      assert TurnTaken(trace.worlds[k], o, sent[k], quote, trace.replies[k], trace.steps[k], now);
    }
  }

  // ----- The end of the call -----

  lemma FailedSpares(w: World, t: A.Tables, id: Id, submitted: bool, started: bool, now: real)
    requires O.OmsOk(w.oms)
    ensures Spared(w.journal, CleanedUp(w, t, id, submitted, started, now).0.journal, id, id)
  {
    hide O.Freeze; hide O.OmsOk;
  }

  lemma MovedSpares(w: World, id: Id, state: J.State, error: Option<string>, now: real)
    ensures Spared(w.journal, Moved(w, id, state, error, now).journal, id, id)
    ensures Moved(w, id, state, error, now).oms == w.oms
  {
  }

  lemma FrozenSpares(w: World, id: Id, now: real)
    ensures Frozen(w, id, now).journal == w.journal && Spared(w.journal, w.journal, id, id)
  {
    hide O.Freeze;
  }

  lemma ConcludedSpares(w: World, t: A.Tables, current: Order, flags: seq<bool>, quote: V.Quote, now: real)
    ensures var end := Concluded(w, t, current, flags, quote, now);
            && Spared(w.journal, end.world.journal, current.id, current.id)
            && end.world.oms == (if false in flags then Frozen(w, current.id, now).oms else w.oms)
            && end.exit in THROUGH && (end.exit == Unreconciled <==> false in flags)
  {
    hide Spared; hide Moved; hide Frozen; hide DurablyMatched; hide CommitFilled;
    FrozenSpares(w, current.id, now);
    MovedSpares(Frozen(w, current.id, now), current.id, J.Unknown, Some(""), now);
    MovedSpares(w, current.id, J.Unknown, Some(""), now);
    MovedSpares(w, current.id, J.Recovered, None, now);
  }

  /** Freezing the parent leaves its stored amounts as they are. */
  lemma FrozenKeepsAmounts(w: World, id: Id, now: real, fills: seq<Fill>)
    requires O.OmsOk(w.oms) && HoldsFills(w.oms, id, fills)
    ensures HoldsFills(Frozen(w, id, now).oms, id, fills)
  {
    hide O.Freeze; hide O.OmsOk; hide O.QuantitySum; hide O.WorthSum; hide Firsts;
    FreezingMeans(w.oms, id, now);
  }

  lemma TalkedLasts(o: Order, quote: V.Quote, t: J.Tables, t': J.Tables, turns: seq<Turn>, now: real)
    requires Talked(o, quote, t, turns, now) && Spared(t, t', o.id, o.id)
    ensures Talked(o, quote, t', turns, now)
  {
    forall k | 0 <= k < |turns| ensures Booked(t', o.id, turns[k], now) {
      assert Spoken(o, quote, turns[k]);
      if turns[k] != [] {
        assert turns[k][0].order.id != o.id by { SelfPart(turns[k][0].order.id); }
      }
      BookedLasts(t, t', o.id, turns[k], now);
    }
  }

  lemma SelfPart(id: Id)
    ensures id.ChildOf? ==> id.parent != id
  {
    if id.ChildOf? {
      assert id.parent < id;
    }
  }

  /** The turns before the last were all answered; the last one was, exactly if the loop went through. */
  lemma AnsweredTurns(o: Order, sent: seq<Order>, trace: Trace, quote: V.Quote, now: real)
    requires TurnsTaken(o, sent, trace, quote, now)
    requires forall k | 0 <= k < |trace.steps| - 1 :: trace.steps[k].outcome.Ok?
    ensures var turns := Turns(trace.steps);
            && (forall k | 0 <= k < |turns| - 1 :: Answered(turns[k]))
            && (trace.steps != [] && trace.steps[|trace.steps| - 1].outcome.Raised?
                ==> turns != [] && !Answered(turns[|turns| - 1]))
            && (forall k | 0 <= k < |turns| :: trace.steps[k].called <==> turns[k] != [])
            && (forall k | 0 <= k < |turns| :: trace.steps[k].outcome.Ok? ==> turns[k] != [])
  {
    hide Spoken; hide Booked; hide Confirmed; hide Spared;
    var turns := Turns(trace.steps);
    forall k | 0 <= k < |turns|
      ensures && (trace.steps[k].outcome.Ok? <==> Answered(turns[k]))
              && (trace.steps[k].called <==> turns[k] != []) {
      assert TurnTaken(trace.worlds[k], o, sent[k], quote, trace.replies[k], trace.steps[k], now);
    }
  }

  lemma FirstTurnCalls(steps: seq<Progress>)
    requires forall k | 0 <= k < |steps| - 1 :: steps[k].outcome.Ok?
    ensures SomeCalled(steps) && (forall k | 0 <= k < |steps| && steps[k].outcome.Ok? :: steps[k].called)
            ==> steps != [] && steps[0].called
  {
    if |steps| > 1 {
      assert steps[0].outcome.Ok?;
    }
  }

  lemma NoneCalled(steps: seq<Progress>)
    requires !SomeCalled(steps)
    ensures forall k | 0 <= k < |steps| :: !steps[k].called
  {
  }

  lemma FailureFits(o: Order, sent: seq<Order>, trace: Trace, quote: V.Quote, now: real)
    requires TurnsTaken(o, sent, trace, quote, now)
    requires forall k | 0 <= k < |trace.steps| - 1 :: trace.steps[k].outcome.Ok?
    requires trace.steps != [] && trace.steps[|trace.steps| - 1].outcome.Raised?
    ensures ExitFits(if SomeCalled(trace.steps) then LoopFailed else SetupFailed, Turns(trace.steps))
  {
    hide TurnsTaken; hide Answered; hide Confirmed; hide SomeCalled; hide Turns;
    AnsweredTurns(o, sent, trace, quote, now);
    FirstTurnCalls(trace.steps);
    if !SomeCalled(trace.steps) {
      NoneCalled(trace.steps);
    }
  }

  lemma EndFits(o: Order, sent: seq<Order>, trace: Trace, quote: V.Quote, now: real, exit: Exit)
    requires TurnsTaken(o, sent, trace, quote, now) && RanThrough(sent, trace)
    requires exit in THROUGH && (exit == Unreconciled <==> false in Verdicts(trace.steps))
    ensures ExitFits(exit, Turns(trace.steps))
  {
    hide TurnsTaken; hide Answered; hide Confirmed; hide GivesFill; hide Given; hide FillsOf;
    GivenIsRecorded(o, sent, trace, quote, now);
    var flags, turns := Verdicts(trace.steps), Turns(trace.steps);
    hide RanThrough; hide Turns;
    if k :| 0 <= k < |turns| && !Confirmed(turns[k]) {
      assert !flags[k];
    }
  }

  /** The loop stopped. */
  lemma FailureConverses(t: A.Tables, o: Order, volumes: Option<seq<real>>, sent: seq<Order>, trace: Trace,
                         quote: V.Quote, error: Error, now: real)
    requires TurnsTaken(o, sent, trace, quote, now) && Planned(o, volumes, sent) && O.OmsOk(Last(trace).oms)
    requires forall k | 0 <= k < |trace.steps| - 1 :: trace.steps[k].outcome.Ok?
    requires trace.steps != [] && trace.steps[|trace.steps| - 1].outcome.Raised?
    ensures var end := Failed(Last(trace), t, o.id, true, SomeCalled(trace.steps), now, error);
            Conversed(o, quote, end.world, end.exit, Turns(trace.steps), now)
  {
    assert trace.worlds != [];
    hide Talked; hide Spared; hide CleanedUp; hide TurnsTaken; hide Planned; hide Ordered; hide O.OmsOk; hide ExitFits;
    hide Fulfilled; hide Turns; hide SomeCalled;
    TurnsTalk(o, sent, trace, quote, now);
    OrderedFits(o, volumes, sent, trace, quote, now);
    FailureFits(o, sent, trace, quote, now);
    FailedSpares(Last(trace), t, o.id, true, SomeCalled(trace.steps), now);
    TalkedLasts(o, quote, Last(trace).journal,
                CleanedUp(Last(trace), t, o.id, true, SomeCalled(trace.steps), now).0.journal, Turns(trace.steps), now);
  }

  lemma EndIsFulfilled(start: World, o: Order, volumes: Option<seq<real>>, sent: seq<Order>, trace: Trace,
                       quote: V.Quote, now: real)
    requires TurnsTaken(o, sent, trace, quote, now) && Planned(o, volumes, sent) && RanThrough(sent, trace)
    requires Traced(start, o.id, sent, trace) && O.Fresh(start.oms, o.id)
    ensures Fulfilled(o, Last(trace).oms, Turns(trace.steps))
  {
    hide Answered; hide Ordered; hide Confirmed; hide GivesFill; hide Given; hide Firsts; hide O.QuantitySum;
    hide O.WorthSum; hide O.Fresh; hide FillsOf; hide Traced; hide TurnsTaken; hide Planned; hide RanThrough;
    hide Turns;
    OrderedFits(o, volumes, sent, trace, quote, now);
    GivenIsRecorded(o, sent, trace, quote, now);
    LoopAccounts(start, o.id, sent, trace);
  }

  /** The loop went through. */
  lemma EndConverses(start: World, t: A.Tables, o: Order, volumes: Option<seq<real>>, sent: seq<Order>, trace: Trace,
                     quote: V.Quote, current: Order, now: real)
    requires TurnsTaken(o, sent, trace, quote, now) && Planned(o, volumes, sent) && RanThrough(sent, trace)
    requires Traced(start, o.id, sent, trace) && O.Fresh(start.oms, o.id) && current.id == o.id
    requires WorldOk(Last(trace))
    ensures var end := Concluded(Last(trace), t, current, Verdicts(trace.steps), quote, now);
            Conversed(o, quote, end.world, end.exit, Turns(trace.steps), now)
  {
    assert trace.worlds != [] && O.OmsOk(Last(trace).oms);
    var turns, flags := Turns(trace.steps), Verdicts(trace.steps);
    hide Talked; hide Spared; hide TurnsTaken; hide Planned; hide Ordered; hide WorldOk; hide Turns; hide RanThrough;
    hide O.OmsOk; hide Traced; hide Concluded; hide ExitFits; hide Fulfilled; hide O.Fresh; hide Frozen;
    var end := Concluded(Last(trace), t, current, flags, quote, now);
    TurnsTalk(o, sent, trace, quote, now);
    OrderedFits(o, volumes, sent, trace, quote, now);
    EndIsFulfilled(start, o, volumes, sent, trace, quote, now);
    FrozenFulfils(o, Last(trace), turns, now);
    ConcludedSpares(Last(trace), t, current, flags, quote, now);
    EndFits(o, sent, trace, quote, now, end.exit);
    TalkedLasts(o, quote, Last(trace).journal, end.world.journal, turns, now);
  }

  lemma FrozenFulfils(o: Order, w: World, turns: seq<Turn>, now: real)
    requires O.OmsOk(w.oms) && Fulfilled(o, w.oms, turns)
    ensures Fulfilled(o, Frozen(w, o.id, now).oms, turns)
  {
    hide Given; hide GivesFill; hide Ordered;
    FrozenKeepsAmounts(w, o.id, now, Given(o.id, turns));
    hide HoldsFills; hide O.OmsOk; hide Frozen;
  }

  lemma NothingConversed(o: Order, quote: V.Quote, w': World, now: real)
    requires o.quantity > 0.0
    ensures Conversed(o, quote, w', SetupFailed, [], now)
  {
    assert Ordered([]) == [];
  }

  lemma RoutedParts(o: Order, volumes: Option<seq<real>>, children: seq<Order>, quote: V.Quote)
    requires Planned(o, volumes, children)
    ensures forall k | 0 <= k < |children| :: RoutedPart(o, quote, Routed(children, quote.venue)[k])
  {
    forall k | 0 <= k < |children| ensures RoutedPart(o, quote, Routed(children, quote.venue)[k]) {
      assert IsPart(o, children[k]);
    }
  }

  /** What the loop makes of the call, from where the set-up ends. */
  ghost function LoopEnding(t: A.Tables, o: Order, plan: (Order, seq<Order>), quote: V.Quote, trace: Trace,
                            now: real): Ending
    requires trace.worlds != []
  {
    var run := LoopResult(plan.0, Routed(plan.1, quote.venue), trace);
    if run.Raised? then Failed(Last(trace), t, o.id, true, SomeCalled(trace.steps), now, run.error)
    else Concluded(Last(trace), t, run.value.0, run.value.1, quote, now)
  }

  lemma LoopRuns(start: World, t: A.Tables, o: Order, plan: (Order, seq<Order>), quote: V.Quote, trace: Trace,
                 now: real)
    requires Traced(start, o.id, Routed(plan.1, quote.venue), trace)
    requires o.id in start.oms.orders && plan.0 == start.oms.orders[o.id]
    requires RanThrough(Routed(plan.1, quote.venue), trace)
             || (trace.steps != [] && trace.steps[|trace.steps| - 1].outcome.Raised?)
    ensures trace.worlds != [] && forall k | 0 <= k < |trace.steps| - 1 :: trace.steps[k].outcome.Ok?
    ensures if RanThrough(Routed(plan.1, quote.venue), trace)
            then o.id in Last(trace).oms.orders
                 && LoopEnding(t, o, plan, quote, trace, now)
                    == Concluded(Last(trace), t, Last(trace).oms.orders[o.id], Verdicts(trace.steps), quote, now)
            else trace.steps != [] && trace.steps[|trace.steps| - 1].outcome.Raised?
                 && LoopEnding(t, o, plan, quote, trace, now)
                    == Failed(Last(trace), t, o.id, true, SomeCalled(trace.steps), now,
                              trace.steps[|trace.steps| - 1].outcome.error)
  {
    hide StepOk; hide WorldOk; hide Concluded; hide Failed; hide Routed; hide SomeCalled;
    LoopEnds(start, o, plan, Routed(plan.1, quote.venue), trace);
  }

  lemma LoopConverses(start: World, t: A.Tables, o: Order, volumes: Option<seq<real>>, plan: (Order, seq<Order>),
                      quote: V.Quote, trace: Trace, fingerprint: Id, now: real)
    requires Planned(o, volumes, plan.1) && O.Fresh(start.oms, o.id) && o.id in start.oms.orders
    requires Traced(start, o.id, Routed(plan.1, quote.venue), trace) && plan.0 == start.oms.orders[o.id]
             && Faithful(o.id, Routed(plan.1, quote.venue), trace, quote, fingerprint, now)
    requires RanThrough(Routed(plan.1, quote.venue), trace)
             || (trace.steps != [] && trace.steps[|trace.steps| - 1].outcome.Raised?)
    ensures trace.worlds != []
    ensures var end := LoopEnding(t, o, plan, quote, trace, now);
            Conversed(o, quote, end.world, end.exit, Turns(trace.steps), now)
  {
    hide Traced; hide Faithful; hide RoutedPart; hide Conversed; hide O.Fresh; hide Planned; hide TurnsTaken;
    hide Concluded; hide Failed; hide SomeCalled; hide Turns; hide Routed; hide LoopResult; hide LoopEnding;
    hide RanThrough; hide JR.TablesOk; hide O.FilledNonNegative;
    var sent := Routed(plan.1, quote.venue);
    LoopRuns(start, t, o, plan, quote, trace, now);
    RoutedParts(o, volumes, plan.1, quote);
    RoutedIsPlanned(o, volumes, plan.1, quote.venue);
    TraceTurns(start, o, sent, trace, quote, fingerprint, now);
    LoopKeepsWorldOk(start, o.id, sent, trace);
    if RanThrough(sent, trace) {
      EndConverses(start, t, o, volumes, sent, trace, quote, Last(trace).oms.orders[o.id], now);
    } else {
      FailureConverses(t, o, volumes, sent, trace, quote, trace.steps[|trace.steps| - 1].outcome.error, now);
    }
  }

  /** Every call that made its reservation: what was said, what became of the answers, and how the
      exit follows from them, whatever the broker answers. */
  lemma CarriedConverses(w: World, t: A.Tables, o: Order, quote: V.Quote, terms: Terms, config: Config, fingerprint: Id,
                         now: real, trace: Trace)
    requires WorldOk(w) && Linked(w.journal, w.oms) && Governable(o)
    requires TraceOf(w, o, quote, terms, config, fingerprint, now, trace)
    ensures trace.worlds != []
    ensures var end := Carried(w, t, o, quote, terms, config, fingerprint, now, trace);
            Conversed(o, quote, end.world, end.exit, Turns(trace.steps), now)
  {
    assert O.OmsOk(w.oms) && o.quantity > 0.0;
    hide Traced; hide Faithful; hide Conversed; hide Planned; hide Linked; hide WorldOk; hide O.OmsOk; hide Opening;
    hide Planning; hide LoopResult; hide Concluded; hide CleanedUp; hide OpenedWorld; hide Governable; hide RanThrough;
    hide Routed; hide SomeCalled;
    OpeningFacts(w, o, fingerprint, now);
    var begun := Opening(w, o, fingerprint, now);
    NothingConversed(o, quote, CleanedUp(begun.0, t, o.id, begun.1, false, now).0, now);
    if begun.2.Ok? {
      PlanningFacts(w, begun.0, o, quote, terms, config, fingerprint, now);
      var planned := Planning(begun.0, o.id, quote, terms, config, fingerprint, now);
      NothingConversed(o, quote, CleanedUp(planned.0, t, o.id, true, false, now).0, now);
      if planned.1.Ok? {
        OpenedIsNew(w, planned.0, o, now);
        LoopConverses(planned.0, t, o, terms.volumes, planned.1.value, quote, trace, fingerprint, now);
      }
    }
  }

  lemma OpenedIsNew(w: World, w': World, o: Order, now: real)
    requires OpenedWorld(w, w', o, now)
    ensures O.Fresh(w'.oms, o.id)
  {
  }

  // ----- The whole call -----

  /** One call of execute, from (w, t) to (w', t'): what it does with the broker's answers is the
      function Execution of them, and what it says to the broker is the conversation above. */
  ghost predicate Performed(w: World, w': World, t: A.Tables, t': A.Tables, o: Order, terms: Terms, config: Config,
                            scope: A.Scope, fingerprint: Id, now: real, r: Outcome<Report>, tale: Tale)
    requires O.OmsOk(w.oms)
  {
    && tale.trace.worlds != []
    && Ending(w', t', r, tale.exit)
       == Execution(w, t, o, terms, config, scope, fingerprint, now, tale.quoted, tale.trace)
    && (tale.exit == Gated
        <==> !(tale.quoted.Ok? && GatesOpen(o, config, tale.quoted.value, terms, UnresolvedIn(w.journal))))
    && (tale.exit !in {Gated, ReserveRefused} ==>
          && tale.quoted.Ok?
          && TraceOf(w, Attach(o, config), tale.quoted.value, terms, config, fingerprint, now, tale.trace)
          && Conversed(Attach(o, config), tale.quoted.value, w', tale.exit, Turns(tale.trace.steps), now))
  }

  lemma StoppedIsPerformed(w: World, t: A.Tables, o: Order, terms: Terms, config: Config, scope: A.Scope,
                           fingerprint: Id, now: real, error: Error, tale: Tale)
    requires O.OmsOk(w.oms) && tale.trace.worlds != []
    requires var gates := GateVerdict(o, config, tale.quoted, terms, UnresolvedIn(w.journal));
             || (gates == Raised(error) && tale.exit == Gated)
             || (gates.Ok? && Hold(t, gates.value.0, scope, terms, now) == Raised(error)
                 && tale.exit == ReserveRefused)
    ensures Performed(w, w, t, t, o, terms, config, scope, fingerprint, now, Raised(error), tale)
  {
    hide Carried; hide Hold; hide TraceOf; hide Conversed; hide O.OmsOk; hide GatesOpen;
    GatesAgree(o, config, tale.quoted, terms, UnresolvedIn(w.journal));
  }

  lemma CarriedIsPerformed(w: World, w': World, t: A.Tables, t': A.Tables, o: Order, terms: Terms, config: Config,
                           scope: A.Scope, fingerprint: Id, now: real, r: Outcome<Report>, tale: Tale)
    requires WorldOk(w) && Linked(w.journal, w.oms) && Governable(Attach(o, config)) && tale.trace.worlds != []
    requires tale.quoted.Ok? && tale.exit !in {Gated, ReserveRefused}
    requires var gates := GateVerdict(o, config, tale.quoted, terms, UnresolvedIn(w.journal));
             && gates.Ok?
             && var held := Hold(t, gates.value.0, scope, terms, now);
             && held.Ok?
             && Ending(w', t', r, tale.exit)
                == Carried(w, held.value, gates.value.0, gates.value.1, terms, config, fingerprint, now, tale.trace)
             && TraceOf(w, gates.value.0, gates.value.1, terms, config, fingerprint, now, tale.trace)
    ensures Performed(w, w', t, t', o, terms, config, scope, fingerprint, now, r, tale)
  {
    hide Carried; hide Hold; hide TraceOf; hide Conversed; hide Linked; hide GatesOpen; hide WorldOk; hide Governable;
    GatesAgree(o, config, tale.quoted, terms, UnresolvedIn(w.journal));
    var held := Hold(t, Attach(o, config), scope, terms, now).value;
    CarriedConverses(w, held, Attach(o, config), tale.quoted.value, terms, config, fingerprint, now, tale.trace);
  }
}
