/** GovernedExecutionCoordinator: one governed order from the risk gates, through the reservation,
    the journal, the order manager and the broker, to committed exposure, with every exit. */
module Coordinator {
  import opened Common
  import opened Orders
  import opened ExecutionSpec
  import opened ExecutionBatch
  import opened ExecutionConversation
  import opened ExecutionExits
  import opened ExecutionLoop
  import opened ExecutionProtocol
  import opened Identity
  import A = AdmissionSpec
  import Admission
  import E = StateEvents
  import J = JournalSpec
  import JR = JournalRuns
  import Journal
  import O = OmsSpec
  import OrderManagement
  import PreTrade
  import R = Reconciliation
  import Slicing
  import Sums
  import V = Venue

  /** Any broker at all: every call may raise, or answer anything. It only remembers the
      calls, with their arguments, and what it answered. */
  class Broker {
    var calls: seq<Id>
    var answers: seq<Answer>

    constructor ()
      ensures calls == [] && answers == []
    {
      calls, answers := [], [];
    }

    method Quote(symbol: string) returns (r: Outcome<V.Quote>)
      modifies this`answers
      ensures answers == old(answers) + [Quoted(symbol, r)]
    {
      r := *;
      answers := answers + [Quoted(symbol, r)];
    }

    method Submit(child: Order) returns (r: Outcome<Id>)
      modifies this
      ensures calls == old(calls) + [child.id] && answers == old(answers) + [Took(child, r)]
    {
      r := *;
      calls, answers := calls + [child.id], answers + [Took(child, r)];
    }

    method Fill(child: Order, venueOrder: Id, price: real) returns (r: Outcome<Fill>)
      modifies this`answers
      ensures answers == old(answers) + [Gave(child, venueOrder, price, r)]
    {
      r := *;
      answers := answers + [Gave(child, venueOrder, price, r)];
    }

    method Reconcile(venueOrder: Id) returns (r: Outcome<V.Observation>)
      modifies this`answers
      ensures answers == old(answers) + [Saw(venueOrder, r)]
    {
      r := *;
      answers := answers + [Saw(venueOrder, r)];
    }
  }

  class GovernedExecutionCoordinator {
    const oms: OrderManagement.OrderManager
    const journal: Journal.ExecutionRecoveryJournal
    const admission: Admission.PersistentPortfolioAdmission
    const broker: Broker
    const config: Config
    const scope: A.Scope

    constructor (broker: Broker, config: Config, scope: A.Scope, journal: Journal.ExecutionRecoveryJournal,
                 admission: Admission.PersistentPortfolioAdmission)
      requires config.hash != "" && scope != ""
      requires JR.TablesOk(journal.Snapshot()) && ParentsKnown(journal.Snapshot())
      ensures Valid() && fresh(oms) && oms.orders == map[]
      ensures this.broker == broker && this.config == config && this.scope == scope
      ensures this.journal == journal && this.admission == admission
    {
      this.oms := new OrderManagement.OrderManager(true);
      this.broker, this.config, this.scope, this.journal, this.admission := broker, config, scope, journal, admission;
    }

    ghost predicate Valid()
      reads oms, journal
    {
      && WorldOk(State()) && Linked(journal.Snapshot(), oms.Snapshot())
      && oms.requireGovernance && config.hash != "" && scope != ""
    }

    ghost function State(): World
      reads oms, journal
    {
      World(journal.Snapshot(), journal.events, oms.Snapshot())
    }

    /** The fill goes into the child's ledger and then into the parent's. */
    method BookInJournal(parent: Id, child: Id, fill: Fill, now: real) returns (e: Option<Error>)
      modifies journal`rows, journal`fills
      ensures (journal.Snapshot(), e) == BookFill(old(journal.Snapshot()), parent, child, fill, now)
    {
      var first := journal.MarkFill(child, fill.quantity, fill.price, now, Some(fill.fillId));
      if first.Raised? { return Some(first.error); }
      var second := journal.MarkFill(parent, fill.quantity, fill.price, now, Some(Scoped(child, fill.fillId)));
      if second.Raised? { return Some(second.error); }
      e := None;
    }

    /** The fill goes into the OMS, and the child is reconciled against the broker. */
    method RecordAndReconcile(parent: Id, child: Order, index: nat, venueOrder: Id, fill: Fill, fingerprint: Id,
                              now: real)
      returns (r: Outcome<(Order, bool)>, ghost observed: Outcome<V.Observation>)
      requires O.OmsOk(oms.Snapshot()) && O.FilledNonNegative(oms.Snapshot())
      modifies oms, journal`events, broker`answers
      ensures var p := AfterBooking(old(State()), parent, child, index, venueOrder, fill, observed, fingerprint, now);
              State() == p.world && r == p.outcome && broker.answers == old(broker.answers) + p.answers
    {
      observed := Raised(BrokerError);
      var stored := oms.RecordFill(Fill(fill.fillId, parent, venueOrder, fill.quantity, fill.price, fill.at), now);
      if stored.Raised? { return Raised(stored.error), observed; }
      var told := journal.RecordStateEvent(BackendEvent(stored.value, 4 + index, fingerprint));
      if told.Raised? { return Raised(told.error), observed; }
      var answer := broker.Reconcile(venueOrder);
      observed := answer;
      if answer.Raised? { return Raised(answer.error), observed; }
      if answer.value.status.None? { return Raised(ValueError), observed; }
      var expected := child.(status := Filled, filled := child.quantity, average := Some(fill.price));
      var verdict := R.Reconcile(expected, answer.value.status, answer.value.filled);
      r := Ok((stored.value, verdict.matched));
    }

    /** The second half of the loop body: record the fill, in the journal and then in the OMS, and
        reconcile. */
    method SettleChild(parent: Id, child: Order, index: nat, venueOrder: Id, fill: Fill, fingerprint: Id, now: real)
      returns (r: Outcome<(Order, bool)>, ghost observed: Outcome<V.Observation>)
      requires O.OmsOk(oms.Snapshot()) && O.FilledNonNegative(oms.Snapshot())
      modifies oms, journal, broker`answers
      ensures var p := AfterFill(old(State()), parent, child, index, venueOrder, fill, observed, fingerprint, now);
              State() == p.world && r == p.outcome && broker.answers == old(broker.answers) + p.answers
    {
      var refused := BookInJournal(parent, child.id, fill, now);
      if refused.Some? { return Raised(refused.value), Raised(BrokerError); }
      r, observed := RecordAndReconcile(parent, child, index, venueOrder, fill, fingerprint, now);
    }

    /** The broker boundary: submit, and journal the answer. */
    method Place(child: Order, now: real) returns (placed: Outcome<Id>, ghost reply: Outcome<Id>)
      modifies journal`rows, broker
      ensures (journal.Snapshot(), placed) == AfterReply(old(journal.Snapshot()), child.id, reply, now)
      ensures broker.calls == old(broker.calls) + [child.id]
      ensures broker.answers == old(broker.answers) + [Took(child, reply)]
    {
      var submitted := broker.Submit(child);
      reply := submitted;
      if submitted.Raised? {
        var _ := journal.Update(child.id, J.Unknown, None, Some(""), now);
        return submitted, reply;
      }
      var working := journal.Update(child.id, J.Working, Some(submitted.value), None, now);
      if working.Raised? { return Raised(working.error), reply; }
      placed := submitted;
    }

    /** Ask for the fill and settle it. */
    method FillChild(parent: Id, child: Order, index: nat, venueOrder: Id, quote: V.Quote, fingerprint: Id, now: real)
      returns (r: Outcome<(Order, bool)>, ghost filled: Outcome<Fill>, ghost observed: Outcome<V.Observation>)
      requires O.OmsOk(oms.Snapshot()) && O.FilledNonNegative(oms.Snapshot())
      modifies oms, journal, broker`answers
      ensures var p := AfterPlace(old(State()), parent, child, index, venueOrder, quote, filled, observed, fingerprint,
                                 now);
              State() == p.world && r == p.outcome && broker.answers == old(broker.answers) + p.answers
    {
      hide AfterFill;
      observed := Raised(BrokerError);
      var answer := broker.Fill(child, venueOrder, if child.side == Buy then quote.ask else quote.bid);
      filled := answer;
      if answer.Raised? { return Raised(answer.error), filled, observed; }
      ghost var before := State();
      r, observed := SettleChild(parent, child, index, venueOrder, answer.value, fingerprint, now);
      AnswersChain(old(broker.answers), Gave(child, venueOrder, Arrival(child, quote), answer),
                   AfterFill(before, parent, child, index, venueOrder, answer.value, observed, fingerprint, now));
      hide After;
    }

    /** Everything that follows once the child's row is in the journal. */
    method CrossBoundary(parent: Id, child: Order, index: nat, quote: V.Quote, fingerprint: Id, now: real)
      returns (r: Outcome<(Order, bool)>, ghost replies: Replies)
      requires O.OmsOk(oms.Snapshot()) && O.FilledNonNegative(oms.Snapshot())
      modifies oms, journal, broker
      ensures var p := AfterBegin(old(State()), parent, child, index, quote, replies, fingerprint, now);
              State() == p.world && r == p.outcome && broker.answers == old(broker.answers) + p.answers
      ensures broker.calls == old(broker.calls) + [child.id]
    {
      hide AfterPlace; hide AfterReply;
      var placed; ghost var reply, filled, observed;
      placed, reply := Place(child, now);
      if placed.Raised? { return Raised(placed.error), Replies(reply, Raised(BrokerError), Raised(BrokerError)); }
      ghost var before := State();
      r, filled, observed := FillChild(parent, child, index, placed.value, quote, fingerprint, now);
      AnswersChain(old(broker.answers), Took(child, reply),
                   AfterPlace(before, parent, child, index, placed.value, quote, filled, observed, fingerprint, now));
      hide After;
      replies := Replies(reply, filled, observed);
    }

    /** The body of the loop over children. */
    method RunChild(parent: Id, child: Order, index: nat, quote: V.Quote, fingerprint: Id, now: real)
      returns (r: Outcome<(Order, bool)>, crossed: bool, ghost p: Progress, ghost replies: Replies)
      requires WorldOk(State()) && parent in journal.rows
      modifies oms, journal, broker
      ensures p == ChildStep(old(State()), parent, child, index, quote, replies, fingerprint, now)
      ensures State() == p.world && r == p.outcome && crossed == p.called
      ensures broker.calls == old(broker.calls) + (if p.called then [child.id] else [])
      ensures broker.answers == old(broker.answers) + p.answers
    {
      replies := Replies(Raised(BrokerError), Raised(BrokerError), Raised(BrokerError));
      p := ChildStep(State(), parent, child, index, quote, replies, fingerprint, now);
      var begun := journal.BeginSubmission(child.id, now, Some(parent), Some(child.ClientId()), Some(child.quantity),
                                           true);
      if begun.Raised? { return Raised(begun.error), false, p, replies; }
      crossed := true;
      r, replies := CrossBoundary(parent, child, index, quote, fingerprint, now);
      p := ChildStep(old(State()), parent, child, index, quote, replies, fingerprint, now);
    }

    /** The loop over children. `started` is the source's broker_call_started. */
    method RunChildren(parent: Order, children: seq<Order>, venue: string, quote: V.Quote, fingerprint: Id, now: real)
      returns (r: Outcome<(Order, seq<bool>)>, started: bool, ghost trace: Trace)
      requires WorldOk(State()) && parent.id in journal.rows
      modifies oms, journal, broker
      ensures Traced(old(State()), parent.id, Routed(children, venue), trace) && Last(trace) == State()
      ensures Faithful(parent.id, Routed(children, venue), trace, quote, fingerprint, now)
      ensures r == LoopResult(parent, Routed(children, venue), trace)
      ensures r.Ok? <==> RanThrough(Routed(children, venue), trace)
      ensures r.Raised? ==> trace.steps != [] && trace.steps[|trace.steps| - 1].outcome.Raised?
      ensures broker.calls == old(broker.calls) + Submitted(Routed(children, venue), trace.steps)
      ensures broker.answers == old(broker.answers) + Heard(trace.steps)
      ensures started <==> Submitted(Routed(children, venue), trace.steps) != []
    {
      hide StepOk; hide ChildStep; hide WorldOk; hide Submitted; hide Extend; hide Faithful; hide Heard;
      hide LoopResult; hide Traced;
      started := false;
      ghost var sent := Routed(children, venue);
      trace := Trace([State()], [], []);
      TraceStarts(State(), parent.id, sent, trace);
      StartsFaithful(State(), parent.id, sent, quote, fingerprint, now);
      var stored, flags := parent, [];
      var n := 0;
      while n < |children|
        invariant 0 <= n == |trace.steps| == |flags| <= |children|
        invariant trace.worlds != [] && Traced(old(State()), parent.id, sent, trace) && Last(trace) == State()
        invariant Faithful(parent.id, sent, trace, quote, fingerprint, now)
        invariant forall k | 0 <= k < n :: trace.steps[k].outcome.Ok? && flags[k] == trace.steps[k].outcome.value.1
        invariant stored == if n == 0 then parent else trace.steps[n - 1].outcome.value.0
        invariant broker.calls == old(broker.calls) + Submitted(sent, trace.steps)
        invariant broker.answers == old(broker.answers) + Heard(trace.steps)
        invariant started <==> Submitted(sent, trace.steps) != []
      {
        var child := children[n].(venue := Some(venue), status := Working);
        LoopKeepsWorldOk(old(State()), parent.id, sent, trace);
        var outcome, crossed; ghost var p, replies;
        outcome, crossed, p, replies := RunChild(parent.id, child, n, quote, fingerprint, now);
        OneMoreChild(old(State()), parent.id, sent, trace, replies, p, quote, fingerprint, now);
        trace := Extend(trace, replies, p);
        started := started || crossed;
        if outcome.Raised? {
          FailedResult(parent, sent, trace);
          return Raised(outcome.error), started, trace;
        }
        stored, flags := outcome.value.0, flags + [outcome.value.1];
        n := n + 1;
      }
      RunResult(parent, sent, trace, stored, flags);
      r := Ok((stored, flags));
    }

    /** One state event for the parent. */
    method Tell(o: Order, status: OrderStatus, sequence: nat, fingerprint: Id) returns (r: Outcome<Order>)
      modifies journal`events
      ensures (State(), r) == ExecutionProtocol.Tell(old(State()), o, status, sequence, fingerprint)
    {
      var told := journal.RecordStateEvent(BackendEvent(o.(status := status), sequence, fingerprint));
      if told.Raised? { return Raised(told.error); }
      r := Ok(o);
    }

    /** The journal row and the stored order of a new parent. */
    method OpenParent(governed: Order, fingerprint: Id, now: real) returns (r: Outcome<Order>, submitted: bool)
      requires oms.Valid() && oms.requireGovernance
      modifies oms, journal
      ensures (State(), submitted, r) == Opening(old(State()), governed, fingerprint, now)
    {
      hide JR.TablesOk; hide J.BeginSubmission; hide O.OmsOk; hide O.Submit; hide E.Record;
      submitted := false;
      var begun := journal.BeginSubmission(governed.id, now, None, Some(governed.ClientId()), Some(governed.quantity),
                                           true);
      if begun.Raised? { return Raised(begun.error), submitted; }
      var stored := oms.Submit(governed, now);
      if stored.Raised? {
        var record := journal.Get(governed.id);
        if record.Ok? && record.value.state == J.Submitting {
          var _ := journal.Update(governed.id, J.Cancelled, None, None, now);
        }
        return Raised(stored.error), submitted;
      }
      submitted := true;
      r := Tell(stored.value, New, 0, fingerprint);
    }

    /** One transition of the parent, and its event. */
    method Advance(id: Id, status: OrderStatus, sequence: nat, fingerprint: Id, now: real) returns (r: Outcome<Order>)
      requires oms.Valid()
      modifies oms`orders, journal`events
      ensures oms.Valid()
      ensures State() == Advancing(old(State()), id, status, sequence, fingerprint, now).0
      ensures r == Advancing(old(State()), id, status, sequence, fingerprint, now).1
    {
      hide O.OmsOk; hide O.Transition; hide ExecutionProtocol.Tell;
      var moved := oms.Transition(id, status, now);
      if moved.Raised? { return Raised(moved.error); }
      assert State() == old(State()).(oms := oms.Snapshot());
      r := Tell(moved.value, status, sequence, fingerprint);
    }

    /** From the stored parent to a plan of children and a working order. */
    method Plan(id: Id, quote: V.Quote, terms: Terms, fingerprint: Id, now: real)
      returns (r: Outcome<(Order, seq<Order>)>)
      requires oms.Valid()
      modifies oms`orders, journal`events
      ensures oms.Valid() && (State(), r) == Planning(old(State()), id, quote, terms, config, fingerprint, now)
    {
      hide O.OmsOk; hide Advancing; hide Slicing.PlanOf; hide Slicing.ChildrenOf; hide Slicing.NothingToSend;
      var stored := Advance(id, Validated, 1, fingerprint, now);
      if stored.Raised? { return Raised(stored.error); }
      if !terms.routable { return Raised(RuntimeError); }
      if quote.venue !in config.venues { return Raised(PermissionError); }
      stored := Advance(id, Routing, 2, fingerprint, now);
      if stored.Raised? { return Raised(stored.error); }
      var children := Slicing.BuildChildren(stored.value, terms.volumes);
      if children.Raised? { return Raised(children.error); }
      stored := Advance(id, Working, 3, fingerprint, now);
      if stored.Raised? { return Raised(stored.error); }
      r := Ok((stored.value, children.value));
    }

    /** The body of the try block. `submitted` says whether the source's `stored` is still None. */
    method Attempt(governed: Order, quote: V.Quote, terms: Terms, fingerprint: Id, now: real)
      returns (r: Outcome<(Order, seq<bool>)>, submitted: bool, started: bool, ghost story: Story)
      requires Valid() && Governable(governed)
      modifies oms, journal, broker
      ensures Tried(old(State()), State(), governed, quote, terms, config, fingerprint, now, story, r, submitted)
      ensures broker.calls == old(broker.calls) + Calls(story)
      ensures broker.answers == old(broker.answers) + Heard(story.trace.steps)
      ensures started <==> Calls(story) != []
    {
      assert oms.Valid() && Heard([]) == [];
      hide WorldOk; hide Linked; hide Opening; hide Planning; hide Tried; hide Submitted; hide O.OmsOk; hide Heard;
      hide Faithful; hide LoopResult; hide Routed; hide Traced; hide RanThrough; hide OpenedWorld; hide Governable;
      started := false;
      ghost var w := State();
      var stored;
      stored, submitted := OpenParent(governed, fingerprint, now);
      ghost var begun := State();
      story := Story(submitted, begun, [], Trace([begun], [], []));
      OpeningFacts(w, governed, fingerprint, now);
      if stored.Raised? {
        OpeningTried(w, governed, quote, terms, config, fingerprint, now);
        return Raised(stored.error), submitted, started, story;
      }
      assert oms.Snapshot() == begun.oms;
      var planned := Plan(governed.id, quote, terms, fingerprint, now);
      ghost var start := State();
      story := Story(true, start, [], Trace([start], [], []));
      PlanningFacts(w, begun, governed, quote, terms, config, fingerprint, now);
      if planned.Raised? {
        PlanningTried(w, governed, quote, terms, config, fingerprint, now);
        return Raised(planned.error), submitted, started, story;
      }
      ghost var trace;
      r, started, trace := RunChildren(planned.value.0, planned.value.1, quote.venue, quote, fingerprint, now);
      story := Story(true, start, Routed(planned.value.1, quote.venue), trace);
      LoopTried(w, governed, quote, terms, config, fingerprint, now, trace);
    }

    method Freeze(id: Id, now: real)
      requires oms.Valid() && id in oms.orders
      modifies oms`orders
      ensures oms.Valid() && State() == Frozen(old(State()), id, now)
    {
      hide O.OmsOk;
      var _ := oms.FreezeForReconciliation(id, now);
    }

    /** mark_unknown, mark_recovered and mark_cancelled, with any refusal ignored. */
    method Move(id: Id, state: J.State, error: Option<string>, now: real)
      modifies journal`rows
      ensures State() == Moved(old(State()), id, state, error, now)
    {
      hide J.Update;
      var _ := journal.Update(id, state, None, error, now);
    }

    /** Cancel the parent's row if it is still SUBMITTING. */
    method Withdraw(id: Id, now: real)
      modifies journal`rows
      ensures journal.rows == Withdrawn(old(journal.rows), id, now)
    {
      var record := journal.Get(id);
      if record.Ok? && record.value.state == J.Submitting {
        var _ := journal.Update(id, J.Cancelled, None, None, now);
      }
    }

    /** The except block. A failure that reached no broker call is certain, so the parent is
        cancelled and the reservation released; any other failure leaves both as they are. */
    method CleanUp(id: Id, submitted: bool, started: bool, now: real)
      requires oms.Valid() && (submitted ==> id in oms.orders)
      modifies oms`orders, journal`rows, admission`reservations
      ensures State() == CleanedUp(old(State()), old(admission.Snapshot()), id, submitted, started, now).0
      ensures admission.Snapshot() == CleanedUp(old(State()), old(admission.Snapshot()), id, submitted, started, now).1
    {
      hide O.OmsOk; hide Frozen; hide Withdrawn;
      if submitted {
        Freeze(id, now);
      }
      if !started {
        Withdraw(id, now);
        admission.Release(id);
      }
    }

    /** Do the journal's children account for what the OMS says of the parent? */
    method DurableMatch(current: Order) returns (ok: bool)
      ensures ok <==> DurablyMatched(ChildrenIn(journal.Snapshot(), current.id), current)
    {
      var children := journal.ChildRecords(current.id);
      assert children == ChildrenIn(journal.Snapshot(), current.id);
      var filled := Sums.AddUp(FilledAmounts(children));
      if children == map[] || (exists id | id in children :: children[id].state != J.Filled) { return false; }
      ok := Abs(filled - current.filled) <= TOL_9 * Max(1.0, Abs(current.filled));
    }

    /** From the end of the child loop: reconcile, compare with the journal, commit, report. */
    method Conclude(current: Order, flags: seq<bool>, quote: V.Quote, now: real)
      returns (r: Outcome<Report>, ghost exit: Exit)
      requires oms.Valid() && current.id in oms.orders && current.id in journal.rows
      modifies oms`orders, journal`rows, admission
      ensures Ending(State(), admission.Snapshot(), r, exit)
              == Concluded(old(State()), old(admission.Snapshot()), current, flags, quote, now)
    {
      hide O.OmsOk; hide Frozen; hide Moved; hide DurablyMatched; hide A.Commit;
      if false in flags {
        Freeze(current.id, now);
        var record := journal.Get(current.id);
        if record.Ok? && record.value.state != J.Unknown {
          Move(current.id, J.Unknown, Some(""), now);
        }
        return Raised(RuntimeError), Unreconciled;
      }
      var matched := DurableMatch(current);
      if !matched {
        Move(current.id, J.Unknown, Some(""), now);
        return Raised(RuntimeError), DurableMismatch;
      }
      var notional := FilledNotional(current);
      var committed := admission.Commit(current.id, Some(notional), Some(map[current.symbol := notional]));
      if committed.Raised? { return Raised(committed.error), CommitRefused; }
      var record := journal.Get(current.id);
      if record.Ok? && record.value.state == J.Submitting {
        Move(current.id, J.Recovered, None, now);
      }
      if Arrival(current, quote) <= 0.0 { return Raised(ValueError), AnalyticsFailed; }
      return Ok(Report(current.id, current.filled, current.average, current.status)), Returned;
    }

    /** Everything after the reservation. */
    method Carry(governed: Order, quote: V.Quote, terms: Terms, fingerprint: Id, now: real)
      returns (r: Outcome<Report>, ghost tale: Tale)
      requires Valid() && Governable(governed) && journal.UnresolvedIds() == {}
      modifies oms, journal, broker, admission
      ensures tale.trace.worlds != []
      ensures Ending(State(), admission.Snapshot(), r, tale.exit)
           == Carried(old(State()), old(admission.Snapshot()), governed, quote, terms, config, fingerprint, now,
                      tale.trace)
      ensures TraceOf(old(State()), governed, quote, terms, config, fingerprint, now, tale.trace)
      ensures Kept(old(State()), State(), old(admission.Snapshot()), admission.Snapshot(), governed, terms.volumes, r,
                   tale)
      ensures broker.calls == old(broker.calls) + tale.calls
      ensures broker.answers == old(broker.answers) + Heard(tale.trace.steps)
      ensures Valid()
    {
      hide WorldOk; hide Linked; hide Carried; hide TraceOf; hide Kept; hide Tried; hide CleanedUp; hide Concluded;
      hide O.OmsOk;
      ghost var w, t := State(), admission.Snapshot();
      var run, submitted, started; ghost var story;
      run, submitted, started, story := Attempt(governed, quote, terms, fingerprint, now);
      ghost var after := State();
      AttemptFacts(w, after, governed, quote, terms, config, fingerprint, now, story, run, submitted);
      StoryEnds(w, after, governed, story, now);
      if run.Raised? {
        FailureIsCarried(w, after, t, governed, quote, terms, config, fingerprint, now, story, run, submitted);
        CleanUp(governed.id, submitted, started, now);
        return Raised(run.error), FailureTale(story, governed);
      }
      EndIsCarried(w, after, t, governed, quote, terms, config, fingerprint, now, story, run, submitted);
      ghost var exit;
      r, exit := Conclude(run.value.0, run.value.1, quote, now);
      tale := Tale(exit, Raised(BrokerError), Calls(story), story.trace, run.value.0);
    }

    /** The gates: nothing is written, and exactly when all of them are open is the order let in. */
    method PassGates(order: Order, terms: Terms) returns (r: Outcome<(Order, V.Quote)>, ghost quoted: Outcome<V.Quote>)
      modifies broker`answers
      ensures r == GateVerdict(order, config, quoted, terms, journal.UnresolvedIds())
      ensures broker.answers
              == old(broker.answers) + (if HashAgrees(order, config) then [Quoted(order.symbol, quoted)] else [])
    {
      quoted := Raised(BrokerError);
      if order.metadata.configHash.Some? && order.metadata.configHash.value != config.hash {
        return Raised(PermissionError), quoted;
      }
      var governed := Attach(order, config);
      var answer := broker.Quote(governed.symbol);
      quoted := answer;
      if answer.Raised? { return Raised(answer.error), quoted; }
      var quote := answer.value;
      if quote.symbol != governed.symbol { return Raised(RuntimeError), quoted; }
      if quote.venue !in config.venues || !quote.healthy { return Raised(PermissionError), quoted; }
      var reasons := PreTrade.Evaluate(governed, terms.referencePrice, terms.portfolioNotional, terms.symbolNotional,
                                       terms.dailyLoss, terms.spread, terms.limits, quote.healthy);
      if reasons != [] { return Raised(PermissionError), quoted; }
      if journal.UnresolvedIds() != {} { return Raised(PermissionError), quoted; }
      if !terms.controlsNormal { return Raised(PermissionError), quoted; }
      r := Ok((governed, quote));
    }

    /** The reservation of the whole order at its reference price. */
    method Reserve(governed: Order, terms: Terms, now: real) returns (e: Option<Error>)
      modifies admission`reservations
      ensures match Hold(old(admission.Snapshot()), governed, scope, terms, now)
              case Ok(held) => e == None && admission.Snapshot() == held
              case Raised(error) => e == Some(error) && admission.Snapshot() == old(admission.Snapshot())
    {
      hide A.Reserve;
      var requested := Requested(governed, terms);
      var reserved := admission.Reserve(governed.id, scope, requested, map[governed.symbol := requested], terms.limits,
                                        Some(TTL), now);
      e := if reserved.Raised? then Some(reserved.error) else None;
    }

    /** execute, for any broker. `tale` tells how the call ended, what the broker answered, what it was
        asked to submit, and which order the OMS held at the end. The first group of clauses says
        what the call does with those answers; the second, what it guarantees whatever they are. */
    method Execute(order: Order, terms: Terms, fingerprint: Id, now: real)
      returns (r: Outcome<Report>, ghost tale: Tale)
      requires Valid() && order.filled == 0.0 && order.average.None?
      modifies oms, journal, admission, broker
      ensures Performed(old(State()), State(), old(admission.Snapshot()), admission.Snapshot(), order, terms, config,
                        scope, fingerprint, now, r, tale)
      ensures broker.answers == old(broker.answers) + Said(order, config, tale)
      ensures broker.calls == old(broker.calls) + tale.calls
      ensures Valid()
      ensures Guaranteed(old(State()), State(), old(admission.Snapshot()), admission.Snapshot(), order, terms, scope,
                         now, r, tale)
    {
      hide WorldOk; hide Linked; hide Guaranteed; hide Kept; hide GatesOpen; hide Carried; hide Performed;
      hide Governable; hide Hold; hide Said; hide TraceOf; hide O.OmsOk; hide Heard; hide HashAgrees;
      BeforeIsOk(State());
      ghost var w, t, none := State(), admission.Snapshot(), Trace([State()], [], []);
      var gates; ghost var quoted;
      gates, quoted := PassGates(order, terms);
      SaidIs(order, config, quoted);
      GatesAgree(order, config, quoted, terms, journal.UnresolvedIds());
      tale := Tale(Gated, quoted, [], none, order);
      assert journal.UnresolvedIds() == UnresolvedIn(w.journal);
      hide GateVerdict;
      if gates.Raised? {
        StoppedIsPerformed(w, t, order, terms, config, scope, fingerprint, now, gates.error, tale);
        StoppedIsGuaranteed(w, t, order, terms, scope, now, gates.error, tale);
        return Raised(gates.error), tale;
      }
      var governed, quote := gates.value.0, gates.value.1;
      AttachedIsGovernable(order, config, quote, terms);
      HoldsTheSame(t, order, governed, scope, terms, now);
      var refused := Reserve(governed, terms, now);
      if refused.Some? {
        tale := tale.(exit := ReserveRefused);
        StoppedIsPerformed(w, t, order, terms, config, scope, fingerprint, now, refused.value, tale);
        StoppedIsGuaranteed(w, t, order, terms, scope, now, refused.value, tale);
        return Raised(refused.value), tale;
      }
      ghost var carried;
      r, carried := Carry(governed, quote, terms, fingerprint, now);
      tale := carried.(quoted := quoted);
      QuoteAside(w, State(), Hold(t, order, scope, terms, now).value, admission.Snapshot(), governed, terms.volumes, r,
                 carried, quoted);
      CarriedIsPerformed(w, State(), t, admission.Snapshot(), order, terms, config, scope, fingerprint, now, r, tale);
      KeptIsGuaranteed(w, State(), t, admission.Snapshot(), order, governed, terms, scope, now, r, tale);
    }

    /** Market inputs, quote and risk of one order of a batch. */
    method AdmitOne(order: Order, b: BatchTerms, portfolio: real, symbol: real)
      returns (e: Option<Error>, ghost quoted: seq<Outcome<V.Quote>>)
      modifies broker`answers
      ensures |quoted| <= 1 && broker.answers == old(broker.answers) + Asked([order], quoted)
      ensures |quoted| == (if order.symbol in b.prices && order.symbol in b.spreads then 1 else 0)
      ensures e.None? <==> && |quoted| == 1 && Authorized(quoted[0], config, order)
                           && PreTrade.Admissible(order, b.prices[order.symbol], portfolio, symbol, b.dailyLoss,
                                                  b.spreads[order.symbol], b.limits, true)
    {
      quoted := [];
      if order.symbol !in b.prices || order.symbol !in b.spreads { return Some(ValueError), quoted; }
      var answer := broker.Quote(order.symbol);
      quoted := [answer];
      assert Asked([order], quoted) == [Quoted(order.symbol, answer)];
      if answer.Raised? { return Some(answer.error), quoted; }
      var quote := answer.value;
      if quote.symbol != order.symbol || quote.venue !in config.venues || !quote.healthy {
        return Some(PermissionError), quoted;
      }
      var reasons := PreTrade.Evaluate(Attach(order, config), b.prices[order.symbol], portfolio, symbol, b.dailyLoss,
                                       b.spreads[order.symbol], b.limits, quote.healthy);
      if reasons != [] { return Some(PermissionError), quoted; }
      e := None;
    }

    /** The first loop of execute_many. */
    method AdmitBatch(orders: seq<Order>, b: BatchTerms) returns (e: Option<Error>, ghost quotes: seq<Outcome<V.Quote>>)
      modifies broker`answers
      ensures |quotes| <= |orders| && broker.answers == old(broker.answers) + Asked(orders, quotes)
      ensures e.None? <==> && Admitted(b, orders) && |quotes| == |orders|
                           && forall k | 0 <= k < |quotes| :: Authorized(quotes[k], config, orders[k])
    {
      hide PreTrade.Admissible; hide Authorized;
      var seenIds, seenKeys: set<Id> := {}, {};
      var portfolio, symbols := b.portfolio, b.symbols;
      quotes := [];
      var n := 0;
      StartsTracking(b, orders);
      hide Tracks; hide Projected; hide ProjectedIn;
      while n < |orders|
        invariant 0 <= n <= |orders| && Priced(b, orders, n) && AllowedUpTo(b, orders, n) && DistinctUpTo(orders, n)
        invariant portfolio == Projected(b, orders, n)
        invariant Tracks(symbols, b, orders, n)
        invariant seenIds == set k | 0 <= k < n :: orders[k].id
        invariant seenKeys == set k | 0 <= k < n && orders[k].key.Some? && !Empty(orders[k].key.value) ::
                  orders[k].key.value
        invariant |quotes| == n && forall k | 0 <= k < n :: Authorized(quotes[k], config, orders[k])
        invariant broker.answers == old(broker.answers) + Asked(orders, quotes)
      {
        var order := orders[n];
        if order.id in seenIds { return Some(ValueError), quotes; }
        seenIds := seenIds + {order.id};
        if order.key.Some? && !Empty(order.key.value) {
          if order.key.value in seenKeys { return Some(ValueError), quotes; }
          seenKeys := seenKeys + {order.key.value};
        }
        assert DistinctUpTo(orders, n + 1);
        ghost var quoted;
        AdmittedSoFar(b, orders, n);
        TracksOne(symbols, b, orders, n, order.symbol);
        e, quoted := AdmitOne(order, b, portfolio, A.Get(symbols, order.symbol));
        AskedOneMore(orders, quotes, quoted);
        quotes := quotes + quoted;
        if e.Some? { return; }
        var notional := order.quantity * b.prices[order.symbol];
        assert notional == NotionalOf(b, order);
        var added := symbols[order.symbol := A.Get(symbols, order.symbol) + notional];
        TracksOn(symbols, added, b, orders, n);
        portfolio, symbols := portfolio + notional, added;
        n := n + 1;
      }
      e := None;
    }

    /** One turn of the second loop of execute_many. The clock, the control state and the router answer
        as they like. */
    method ExecuteNext(orders: seq<Order>, b: BatchTerms, n: nat, portfolio: real, symbol: real)
      returns (r: Outcome<Report>, ghost s: BatchStep)
      requires Valid() && Priced(b, orders, n + 1) && orders[n].filled == 0.0 && orders[n].average.None?
      requires portfolio == Projected(b, orders, n) && symbol == ProjectedIn(b, orders, orders[n].symbol, n)
      modifies oms, journal, admission, broker
      ensures Valid() && StepRan(b, orders, n, config, scope, s)
      ensures s.world == old(State()) && s.exposure == old(admission.Snapshot())
      ensures s.ending.world == State() && s.ending.exposure == admission.Snapshot() && s.ending.result == r
      ensures broker.calls == old(broker.calls) + s.tale.calls
      ensures broker.answers == old(broker.answers) + Said(orders[n], config, s.tale)
      ensures WriteAhead(old(journal.Snapshot()), journal.Snapshot(), orders[n].id, s.tale.calls)
      ensures JR.TablesEvolve(old(journal.Snapshot()), journal.Snapshot())
    {
      BeforeIsOk(State());
      hide WorldOk; hide Linked; hide JR.TablesEvolve; hide WriteAhead; hide Left; hide Sent; hide Accounted;
      hide GatesOpen; hide FullyExecuted; hide Execution; hide TraceOf; hide Heard; hide O.OmsOk; hide Said;
      var order := orders[n];
      var controlsNormal: bool, routable: bool, fingerprint: Id, now: real := *, *, *, *;
      var terms := Terms(b.prices[order.symbol], portfolio, symbol, b.dailyLoss, b.spreads[order.symbol], b.limits,
                         if order.symbol in b.volumes then Some(b.volumes[order.symbol])
                         else None, controlsNormal, routable);
      ghost var before, exposed := State(), admission.Snapshot();
      ghost var tale;
      r, tale := Execute(order, terms, fingerprint, now);
      s := BatchStep(before, exposed, controlsNormal, routable, fingerprint, now, tale,
                     Ending(State(), admission.Snapshot(), r, tale.exit));
    }

    /** execute_many. */
    method ExecuteMany(orders: seq<Order>, b: BatchTerms)
      returns (r: Outcome<seq<Report>>, ghost quotes: seq<Outcome<V.Quote>>, ghost steps: seq<BatchStep>,
               ghost calls: seq<Id>)
      requires Valid() && forall k | 0 <= k < |orders| :: orders[k].filled == 0.0 && orders[k].average.None?
      modifies oms, journal, admission, broker
      ensures Valid()
      // Nothing is written, let alone sent, unless the batch as a whole is admitted on authorized, healthy quotes.
      ensures !(Admitted(b, orders) && |quotes| == |orders|
                && forall k | 0 <= k < |quotes| :: Authorized(quotes[k], config, orders[k])) ==>
                && r.Raised? && State() == old(State()) && admission.Snapshot() == old(admission.Snapshot())
                && calls == [] && steps == []
      // Otherwise the orders are executed in turn, until one fails.
      ensures Admitted(b, orders) && |quotes| == |orders|
              && (forall k | 0 <= k < |quotes| :: Authorized(quotes[k], config, orders[k])) ==>
                && BatchRan(b, orders, config, scope, steps, old(State()), old(admission.Snapshot()), State(),
                            admission.Snapshot())
                && BatchResult(orders, steps, r)
      ensures |quotes| <= |orders| && |steps| <= |orders|
      ensures broker.answers == old(broker.answers) + Asked(orders, quotes) + AllSaid(orders, config, steps)
      ensures broker.calls == old(broker.calls) + calls
      ensures BatchWriteAhead(old(journal.Snapshot()), journal.Snapshot(), calls)
    {
      hide WorldOk; hide Linked; hide JR.TablesEvolve; hide WriteAhead; hide AllowedUpTo; hide DistinctUpTo; hide Asked;
      hide Authorized; hide StepRan; hide Projected; hide Tracks; hide Said; hide BatchWriteAhead; hide BatchRan;
      hide AllSaid;
      StartsTracking(b, orders);
      NothingSubmitted(journal.Snapshot());
      NothingSaidYet(orders, config);
      calls, steps := [], [];
      var refused;
      refused, quotes := AdmitBatch(orders, b);
      if refused.Some? { return Raised(refused.value), quotes, steps, calls; }
      ghost var w, t := State(), admission.Snapshot();
      NothingRan(b, orders, config, scope, w, t);
      var results: seq<Report> := [];
      var portfolio, symbols := b.portfolio, b.symbols;
      var n := 0;
      while n < |orders|
        invariant 0 <= n == |results| == |steps| <= |orders| && Valid() && Admitted(b, orders)
        invariant portfolio == Projected(b, orders, n)
        invariant Tracks(symbols, b, orders, n)
        invariant broker.calls == old(broker.calls) + calls
        invariant broker.answers == old(broker.answers) + Asked(orders, quotes) + AllSaid(orders, config, steps)
        invariant BatchWriteAhead(old(journal.Snapshot()), journal.Snapshot(), calls)
        invariant BatchRan(b, orders, config, scope, steps, w, t, State(), admission.Snapshot())
        invariant forall k | 0 <= k < n :: steps[k].ending.result == Ok(results[k])
      {
        var order := orders[n];
        ghost var before := State();
        var outcome; ghost var s;
        TracksOne(symbols, b, orders, n, order.symbol);
        outcome, s := ExecuteNext(orders, b, n, portfolio, A.Get(symbols, order.symbol));
        OneMoreRan(b, orders, config, scope, steps, w, t, s);
        OneMoreOrder(old(journal.Snapshot()), before.journal, journal.Snapshot(), calls, s.tale.calls, order.id);
        calls, steps := calls + s.tale.calls, steps + [s];
        if outcome.Raised? { return Raised(outcome.error), quotes, steps, calls; }
        results := results + [outcome.value];
        var notional := order.quantity * b.prices[order.symbol];
        assert Priced(b, orders, n + 1) && notional == NotionalOf(b, order);
        var added := symbols[order.symbol := A.Get(symbols, order.symbol) + notional];
        TracksOn(symbols, added, b, orders, n);
        portfolio, symbols := portfolio + notional, added;
        n := n + 1;
      }
      r := Ok(results);
    }
  }

  lemma BeforeIsOk(w: World)
    requires WorldOk(w)
    ensures O.OmsOk(w.oms)
  {
  }
}
