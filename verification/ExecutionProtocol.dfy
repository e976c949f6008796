/** One governed execution as a function: of the world and the exposure ledger it starts from, of
    the broker's quote, and of the broker's answers to each child. */
module ExecutionProtocol {
  import opened Common
  import opened Orders
  import opened ExecutionExits
  import opened ExecutionLoop
  import opened ExecutionSpec
  import opened Identity
  import A = AdmissionSpec
  import E = StateEvents
  import J = JournalSpec
  import JR = JournalRuns
  import O = OmsSpec
  import Slicing
  import V = Venue

  // ----- The gates -----

  /** The ids unresolved_records lists. */
  function UnresolvedIn(t: J.Tables): set<Id> {
    set id | id in t.rows && J.Unresolved(t.rows[id])
  }

  predicate HashAgrees(o: Order, config: Config) {
    o.metadata.configHash.Some? ==> o.metadata.configHash.value == config.hash
  }

  /** The order as governed and the quote, or the first objection. */
  function GateVerdict(o: Order, config: Config, quoted: Outcome<V.Quote>, terms: Terms,
                       unresolved: set<Id>): Outcome<(Order, V.Quote)> {
    if !HashAgrees(o, config) then Raised(PermissionError)
    else if quoted.Raised? then Raised(quoted.error)
    else if quoted.value.symbol != o.symbol then Raised(RuntimeError)
    else if !GatesOpen(o, config, quoted.value, terms, unresolved) then Raised(PermissionError)
    else Ok((Attach(o, config), quoted.value))
  }

  // ----- The set-up -----

  ghost function Tell(w: World, o: Order, status: OrderStatus, sequence: nat,
                      fingerprint: Id): (World, Outcome<Order>) {
    var told := E.Record(w.events, BackendEvent(o.(status := status), sequence, fingerprint));
    if told.Raised? then (w, Raised(told.error)) else (w.(events := told.value), Ok(o))
  }

  /** The journal row and the stored order of a new parent; whether the order was stored. */
  ghost function Opening(w: World, o: Order, fingerprint: Id, now: real): (World, bool, Outcome<Order>)
    requires O.OmsOk(w.oms)
  {
    var row := BeginParent(w.journal, o, now);
    if row.Raised? then (w, false, Raised(row.error))
    else
      var stored := O.Submit(w.oms, o, true, now);
      if stored.Raised? then
        (w.(journal := row.value.(rows := Withdrawn(row.value.rows, o.id, now))), false, Raised(stored.error))
      else
        var told := Tell(w.(journal := row.value, oms := stored.value.0), stored.value.1, New, 0, fingerprint);
        (told.0, true, told.1)
  }

  /** One transition of the parent, and its event. */
  ghost function Advancing(w: World, id: Id, status: OrderStatus, sequence: nat, fingerprint: Id,
                           now: real): (World, Outcome<Order>) {
    var moved := O.Transition(w.oms, id, status, now);
    if moved.Raised? then (w, Raised(moved.error))
    else Tell(w.(oms := moved.value.0), moved.value.1, status, sequence, fingerprint)
  }

  /** From the stored parent to a working order and its children. */
  ghost function Planning(w: World, id: Id, quote: V.Quote, terms: Terms, config: Config, fingerprint: Id, now: real):
    (World, Outcome<(Order, seq<Order>)>)
  {
    var validated := Advancing(w, id, Validated, 1, fingerprint, now);
    if validated.1.Raised? then (validated.0, Raised(validated.1.error))
    else if !terms.routable then (validated.0, Raised(RuntimeError))
    else if quote.venue !in config.venues then (validated.0, Raised(PermissionError))
    else
      var routing := Advancing(validated.0, id, Routing, 2, fingerprint, now);
      if routing.1.Raised? then (routing.0, Raised(routing.1.error))
      else
        var children := Slicing.PlanOf(routing.1.value, terms.volumes);
        if children.Raised? then (routing.0, Raised(children.error))
        else
          var working := Advancing(routing.0, id, Working, 3, fingerprint, now);
          if working.1.Raised? then (working.0, Raised(working.1.error))
          else (working.0, Ok((working.1.value, children.value)))
  }

  // ----- The loop -----

  /** Every step of the trace is what the loop body makes of the broker's answers. */
  ghost predicate Faithful(parent: Id, children: seq<Order>, trace: Trace, quote: V.Quote, fingerprint: Id, now: real) {
    && |trace.steps| <= |children| && |trace.replies| == |trace.steps| && |trace.worlds| == |trace.steps| + 1
    && (forall k | 0 <= k < |trace.steps| :: StepIs(parent, children, trace, k, quote, fingerprint, now))
  }

  ghost predicate StepIs(parent: Id, children: seq<Order>, trace: Trace, k: nat, quote: V.Quote, fingerprint: Id,
                         now: real)
    requires k < |trace.steps| <= |children| && |trace.replies| == |trace.steps| && |trace.worlds| == |trace.steps| + 1
  {
    && WorldOk(trace.worlds[k])
    && trace.steps[k] == ChildStep(trace.worlds[k], parent, children[k], k, quote, trace.replies[k], fingerprint, now)
  }

  /** The broker calls of the loop, in order. */
  function Heard(steps: seq<Progress>): seq<Answer> {
    if steps == [] then [] else Heard(steps[..|steps| - 1]) + steps[|steps| - 1].answers
  }

  /** Everything a call says to the broker: the quote is asked for once the hash agrees, and the rest is
      the loop. */
  function Said(o: Order, config: Config, tale: Tale): seq<Answer> {
    (if HashAgrees(o, config) then [Quoted(o.symbol, tale.quoted)] else [])
    + (if tale.exit in {Gated, ReserveRefused} then [] else Heard(tale.trace.steps))
  }

  lemma SaidIs(o: Order, config: Config, quoted: Outcome<V.Quote>)
    ensures forall tale: Tale | tale.quoted == quoted ::
              Said(o, config, tale) == (if HashAgrees(o, config) then [Quoted(o.symbol, quoted)] else [])
                                       + (if tale.exit in {Gated, ReserveRefused} then [] else Heard(tale.trace.steps))
  {
  }

  function Verdicts(steps: seq<Progress>): seq<bool>
    requires forall k | 0 <= k < |steps| :: steps[k].outcome.Ok?
  {
    seq(|steps|, k requires 0 <= k < |steps| => steps[k].outcome.value.1)
  }

  /** What the loop leaves with: the stored parent and the verdicts, or the exception of its last step. */
  ghost function LoopResult(parent: Order, children: seq<Order>, trace: Trace): Outcome<(Order, seq<bool>)> {
    if RanThrough(children, trace) then
      Ok((if children == [] then parent else trace.steps[|children| - 1].outcome.value.0, Verdicts(trace.steps)))
    else if trace.steps != [] && trace.steps[|trace.steps| - 1].outcome.Raised? then
      Raised(trace.steps[|trace.steps| - 1].outcome.error)
    else Raised(RuntimeError)
  }

  // ----- The end -----

  /** The handler of an exception raised inside the try block. */
  ghost function CleanedUp(w: World, t: A.Tables, id: Id, submitted: bool, started: bool,
                           now: real): (World, A.Tables) {
    var frozen := if submitted then Frozen(w, id, now) else w;
    if started then (frozen, t)
    else (frozen.(journal := frozen.journal.(rows := Withdrawn(frozen.journal.rows, id, now))), A.Release(t, id))
  }

  ghost function Frozen(w: World, id: Id, now: real): World {
    var frozen := O.Freeze(w.oms, id, now);
    if frozen.Ok? then w.(oms := frozen.value.0) else w
  }

  ghost function Moved(w: World, id: Id, state: J.State, error: Option<string>, now: real): World {
    var moved := J.Update(w.journal, id, state, None, error, now);
    if moved.Ok? then w.(journal := moved.value) else w
  }

  function ChildrenIn(t: J.Tables, parent: Id): map<Id, J.Row> {
    map id | id in t.rows && t.rows[id].parentId == Some(parent) :: t.rows[id]
  }

  /** What a call leaves behind, and how it ends. */
  datatype Ending = Ending(world: World, exposure: A.Tables, result: Outcome<Report>, exit: Exit)

  /** Reconcile, compare with the journal, commit, report. */
  ghost function Concluded(w: World, t: A.Tables, current: Order, flags: seq<bool>, quote: V.Quote, now: real): Ending {
    if false in flags then
      var frozen := Frozen(w, current.id, now);
      Ending(if StateIs(w, current.id, J.Unknown) then frozen else Moved(frozen, current.id, J.Unknown, Some(""), now),
             t, Raised(RuntimeError), Unreconciled)
    else if !DurablyMatched(ChildrenIn(w.journal, current.id), current) then
      Ending(Moved(w, current.id, J.Unknown, Some(""), now), t, Raised(RuntimeError), DurableMismatch)
    else
      var committed := CommitFilled(t, current);
      if committed.Raised? then Ending(w, t, Raised(committed.error), CommitRefused)
      else
        var w' := if StateIs(w, current.id, J.Submitting) then Moved(w, current.id, J.Recovered, None, now) else w;
        if Arrival(current, quote) <= 0.0 then Ending(w', committed.value, Raised(ValueError), AnalyticsFailed)
        else Ending(w', committed.value, Ok(Report(current.id, current.filled, current.average, current.status)),
                    Returned)
  }

  predicate StateIs(w: World, id: Id, state: J.State) {
    id in w.journal.rows && w.journal.rows[id].state == state
  }

  // ----- The whole call -----

  /** From the reservation on, given the trace of the loop if it came that far. */
  ghost function Carried(w: World, t: A.Tables, governed: Order, quote: V.Quote, terms: Terms, config: Config,
                         fingerprint: Id, now: real, trace: Trace): Ending
    requires O.OmsOk(w.oms) && trace.worlds != []
  {
    var begun := Opening(w, governed, fingerprint, now);
    if begun.2.Raised? then Failed(begun.0, t, governed.id, begun.1, false, now, begun.2.error)
    else
      var planned := Planning(begun.0, governed.id, quote, terms, config, fingerprint, now);
      if planned.1.Raised? then Failed(planned.0, t, governed.id, true, false, now, planned.1.error)
      else
        var sent := Routed(planned.1.value.1, quote.venue);
        var run := LoopResult(planned.1.value.0, sent, trace);
        if run.Raised? then
          Failed(Last(trace), t, governed.id, true, SomeCalled(trace.steps), now, run.error)
        else
          Concluded(Last(trace), t, run.value.0, run.value.1, quote, now)
  }

  predicate SomeCalled(steps: seq<Progress>) {
    exists k | 0 <= k < |steps| :: steps[k].called
  }

  ghost function Failed(w: World, t: A.Tables, id: Id, submitted: bool, started: bool, now: real,
                        error: Error): Ending {
    var after := CleanedUp(w, t, id, submitted, started, now);
    Ending(after.0, after.1, Raised(error), if started then LoopFailed else SetupFailed)
  }

  /** The trace is that of this attempt's loop: it starts where the set-up ends, if it came that far. */
  ghost predicate TraceOf(w: World, governed: Order, quote: V.Quote, terms: Terms, config: Config, fingerprint: Id,
                          now: real, trace: Trace)
    requires O.OmsOk(w.oms)
  {
    var begun := Opening(w, governed, fingerprint, now);
    && trace.worlds != []
    && if begun.2.Raised? then trace.steps == []
       else
         var planned := Planning(begun.0, governed.id, quote, terms, config, fingerprint, now);
         if planned.1.Raised? then trace.steps == []
         else
           var sent := Routed(planned.1.value.1, quote.venue);
           && Traced(planned.0, governed.id, sent, trace) && Faithful(governed.id, sent, trace, quote, fingerprint, now)
           && (RanThrough(sent, trace) || (trace.steps != [] && trace.steps[|trace.steps| - 1].outcome.Raised?))
  }

  ghost function Execution(w: World, t: A.Tables, o: Order, terms: Terms, config: Config, scope: A.Scope,
                           fingerprint: Id, now: real, quoted: Outcome<V.Quote>, trace: Trace): Ending
    requires O.OmsOk(w.oms) && trace.worlds != []
  {
    var gates := GateVerdict(o, config, quoted, terms, UnresolvedIn(w.journal));
    if gates.Raised? then Ending(w, t, Raised(gates.error), Gated)
    else
      var held := Hold(t, gates.value.0, scope, terms, now);
      if held.Raised? then Ending(w, t, Raised(held.error), ReserveRefused)
      else Carried(w, held.value, gates.value.0, gates.value.1, terms, config, fingerprint, now, trace)
  }

  // ----- The loop's trace is faithful -----

  lemma StartsFaithful(w: World, parent: Id, children: seq<Order>, quote: V.Quote, fingerprint: Id, now: real)
    ensures Faithful(parent, children, Trace([w], [], []), quote, fingerprint, now)
            && Heard(Trace([w], [], []).steps) == []
  {
  }

  lemma StaysFaithful(parent: Id, children: seq<Order>, trace: Trace, replies: Replies, p: Progress, quote: V.Quote,
                      fingerprint: Id, now: real)
    requires Faithful(parent, children, trace, quote, fingerprint, now) && |trace.steps| < |children|
             && WorldOk(Last(trace))
    requires p == ChildStep(Last(trace), parent, children[|trace.steps|], |trace.steps|, quote, replies, fingerprint,
                            now)
    ensures Faithful(parent, children, Extend(trace, replies, p), quote, fingerprint, now)
    ensures Heard(Extend(trace, replies, p).steps) == Heard(trace.steps) + p.answers
  {
    hide ChildStep; hide WorldOk;
    var next, n := Extend(trace, replies, p), |trace.steps|;
    assert next.steps[..n] == trace.steps;
    assert forall k | 0 <= k <= n :: next.worlds[k] == trace.worlds[k];
    forall k | 0 <= k < n + 1 ensures StepIs(parent, children, next, k, quote, fingerprint, now) {
      if k < n {
        assert StepIs(parent, children, trace, k, quote, fingerprint, now);
        assert next.replies[k] == trace.replies[k] && next.steps[k] == trace.steps[k];
      }
    }
  }

  /** One more child: the trace grows by what the loop body makes of the broker's answers. */
  lemma OneMoreChild(start: World, parent: Id, children: seq<Order>, trace: Trace, replies: Replies, p: Progress,
                     quote: V.Quote, fingerprint: Id, now: real)
    requires Traced(start, parent, children, trace) && Faithful(parent, children, trace, quote, fingerprint, now)
    requires |trace.steps| < |children| && forall k | 0 <= k < |trace.steps| :: trace.steps[k].outcome.Ok?
    requires WorldOk(Last(trace)) && parent in Last(trace).journal.rows
    requires p == ChildStep(Last(trace), parent, children[|trace.steps|], |trace.steps|, quote, replies, fingerprint,
                            now)
    ensures var next, n := Extend(trace, replies, p), |trace.steps|;
            && Traced(start, parent, children, next) && next.worlds != [] && Last(next) == p.world
            && Faithful(parent, children, next, quote, fingerprint, now)
            && |next.steps| == n + 1 && next.steps[n] == p && (forall k | 0 <= k < n :: next.steps[k] == trace.steps[k])
            && Submitted(children, next.steps)
               == Submitted(children, trace.steps) + (if p.called then [children[n].id] else [])
            && Heard(next.steps) == Heard(trace.steps) + p.answers
  {
    hide StepOk; hide ChildStep; hide WorldOk; hide Submitted; hide Extend; hide Faithful; hide Heard;
    ChildStepFacts(Last(trace), parent, children[|trace.steps|], |trace.steps|, quote, replies, fingerprint, now);
    TraceExtends(start, parent, children, trace, replies, p);
    StaysFaithful(parent, children, trace, replies, p, quote, fingerprint, now);
    SubmittedGrows(children, trace, replies, p);
  }

  lemma RunResult(parent: Order, children: seq<Order>, trace: Trace, stored: Order, flags: seq<bool>)
    requires |trace.steps| == |children| == |flags| && forall k | 0 <= k < |children| :: trace.steps[k].outcome.Ok?
    requires stored == if children == [] then parent else trace.steps[|children| - 1].outcome.value.0
    requires forall k | 0 <= k < |children| :: flags[k] == trace.steps[k].outcome.value.1
    ensures RanThrough(children, trace) && LoopResult(parent, children, trace) == Ok((stored, flags))
  {
    assert Verdicts(trace.steps) == flags;
  }

  lemma FailedResult(parent: Order, children: seq<Order>, trace: Trace)
    requires trace.steps != [] && trace.steps[|trace.steps| - 1].outcome.Raised?
    ensures !RanThrough(children, trace)
    ensures LoopResult(parent, children, trace) == Raised(trace.steps[|trace.steps| - 1].outcome.error)
  {
  }

  // ----- What the set-up guarantees -----

  /** An order whose identity is new gets as far as being stored, or nothing at all has changed: the
      source's clean-up between journaling and storing is never needed. */
  lemma OpeningFacts(w: World, o: Order, fingerprint: Id, now: real)
    requires WorldOk(w) && Linked(w.journal, w.oms) && Governable(o)
    ensures var after := Opening(w, o, fingerprint, now);
            && O.OmsOk(after.0.oms)
            && (after.1 ==> OpenedWorld(w, after.0, o, now))
            && (!after.1 ==> after.0 == w && after.2.Raised?)
            && (after.2.Ok? ==> after.1 && o.id in after.0.oms.orders && after.2.value == after.0.oms.orders[o.id])
  {
    if BeginParent(w.journal, o, now).Ok? {
      NewToTheJournalIsNewToTheOms(w.journal, w.oms, o, now);
      StoringIsFresh(w.oms, o, now);
      hide O.Submit; hide BeginParent; hide StoredFresh; hide Linked; hide JR.TablesOk;
      FreshIsOk(w.oms, O.Store(w.oms, o, now).0, o);
    }
  }

  lemma FreshIsOk(m: O.Oms, m': O.Oms, o: Order)
    requires StoredFresh(m, m', o)
    ensures O.OmsOk(m') && o.id in m'.orders && m'.orders[o.id].id == o.id
  {
  }

  lemma AdvancingFacts(w: World, o: Order, m: O.Oms, status: OrderStatus, sequence: nat, fingerprint: Id, now: real)
    requires StoredFresh(m, w.oms, o)
    ensures var after := Advancing(w, o.id, status, sequence, fingerprint, now);
            && after.0.journal == w.journal && StoredFresh(m, after.0.oms, o)
            && (after.1.Ok? ==> o.id in after.0.oms.orders && after.1.value == after.0.oms.orders[o.id])
  {
    var moved := O.Transition(w.oms, o.id, status, now);
    if moved.Ok? {
      MovingKeepsFresh(m, w.oms, o, status, now);
      TransitionIs(w.oms, o.id, status, now);
      hide StoredFresh; hide O.Transition; hide E.Record;
    }
  }

  lemma TransitionIs(m: O.Oms, id: Id, status: OrderStatus, now: real)
    requires O.Transition(m, id, status, now).Ok?
    ensures var after := O.Transition(m, id, status, now).value; id in after.0.orders && after.1 == after.0.orders[id]
  {
  }

  lemma PlanningFacts(w: World, begun: World, o: Order, quote: V.Quote, terms: Terms, config: Config, fingerprint: Id,
                      now: real)
    requires WorldOk(w) && Linked(w.journal, w.oms) && OpenedWorld(w, begun, o, now)
    ensures var after := Planning(begun, o.id, quote, terms, config, fingerprint, now);
            && OpenedWorld(w, after.0, o, now) && WorldOk(after.0) && o.id in after.0.journal.rows
            && (after.1.Ok? ==>
                  && o.id in after.0.oms.orders && after.1.value.0 == after.0.oms.orders[o.id]
                     && after.1.value.0.id == o.id
                  && Planned(o, terms.volumes, after.1.value.1))
  {
    OpenedIsFresh(w, begun, o, now);
    PlanningKeeps(begun, o, w.oms, quote, terms, config, fingerprint, now);
    var after := Planning(begun, o.id, quote, terms, config, fingerprint, now);
    hide Planning; hide Linked;
    StillOpened(w, begun, after.0, o, now);
    OpenedIsOk(w, after.0, o, now);
    FreshIsOk(w.oms, after.0.oms, o);
  }

  lemma PlanningKeeps(w: World, o: Order, m: O.Oms, quote: V.Quote, terms: Terms, config: Config, fingerprint: Id,
                      now: real)
    requires StoredFresh(m, w.oms, o)
    ensures var after := Planning(w, o.id, quote, terms, config, fingerprint, now);
            && after.0.journal == w.journal && StoredFresh(m, after.0.oms, o)
            && (after.1.Ok? ==> o.id in after.0.oms.orders && after.1.value.0 == after.0.oms.orders[o.id]
                                && Planned(o, terms.volumes, after.1.value.1))
  {
    hide StoredFresh; hide Advancing; hide Planned; hide Slicing.PlanOf;
    AdvancingFacts(w, o, m, Validated, 1, fingerprint, now);
    var validated := Advancing(w, o.id, Validated, 1, fingerprint, now);
    AdvancingFacts(validated.0, o, m, Routing, 2, fingerprint, now);
    var routing := Advancing(validated.0, o.id, Routing, 2, fingerprint, now);
    AdvancingFacts(routing.0, o, m, Working, 3, fingerprint, now);
    if routing.1.Ok? && Slicing.PlanOf(routing.1.value, terms.volumes).Ok? {
      PlanCarries(m, routing.0.oms, o, terms.volumes);
    }
  }

  /** The plan made from the stored order is one for the order as governed. */
  lemma PlanCarries(m: O.Oms, m': O.Oms, o: Order, volumes: Option<seq<real>>)
    requires StoredFresh(m, m', o) && Slicing.PlanOf(m'.orders[o.id], volumes).Ok?
    ensures Planned(o, volumes, Slicing.PlanOf(m'.orders[o.id], volumes).value)
  {
    Slicing.PlanFacts(m'.orders[o.id], volumes);
    hide Slicing.PlanOf;
  }

  // ----- The attempt as a whole -----

  /** The attempt went as the functions above say, and came as far as the story tells. */
  ghost predicate Tried(w: World, w': World, o: Order, quote: V.Quote, terms: Terms, config: Config, fingerprint: Id,
                        now: real, story: Story, r: Outcome<(Order, seq<bool>)>, submitted: bool)
    requires O.OmsOk(w.oms)
  {
    var begun := Opening(w, o, fingerprint, now);
    && story.begun == submitted == begun.1 && Went(w, w', o, story, now)
    && if begun.2.Raised? then Stopped(w', story) && w' == begun.0 && r == Raised(begun.2.error)
       else
         var planned := Planning(begun.0, o.id, quote, terms, config, fingerprint, now);
         if planned.1.Raised? then submitted && Stopped(w', story) && w' == planned.0 && r == Raised(planned.1.error)
         else Looped(planned.0, w', o, planned.1.value, quote, fingerprint, now, story, r)
              && submitted && Planned(o, terms.volumes, story.sent)
  }

  /** The loop was not reached. */
  ghost predicate Stopped(w': World, story: Story) {
    story.sent == [] && story.trace == Trace([w'], [], [])
  }

  ghost predicate Looped(start: World, w': World, o: Order, plan: (Order, seq<Order>), quote: V.Quote, fingerprint: Id,
                         now: real, story: Story, r: Outcome<(Order, seq<bool>)>)
  {
    && story.start == start && story.sent == Routed(plan.1, quote.venue)
    && Faithful(o.id, story.sent, story.trace, quote, fingerprint, now)
    && r == LoopResult(plan.0, story.sent, story.trace)
    && (r.Ok? <==> RanThrough(story.sent, story.trace))
    && (r.Raised? ==> story.trace.steps != [] && story.trace.steps[|story.trace.steps| - 1].outcome.Raised?)
    && (r.Ok? ==> o.id in w'.oms.orders && r.value.0 == w'.oms.orders[o.id] && |r.value.1| == |story.sent|)
  }

  lemma OpeningTried(w: World, o: Order, quote: V.Quote, terms: Terms, config: Config, fingerprint: Id, now: real)
    requires WorldOk(w) && Linked(w.journal, w.oms) && Governable(o) && Opening(w, o, fingerprint, now).2.Raised?
    ensures var after := Opening(w, o, fingerprint, now);
            var story := Story(after.1, after.0, [], Trace([after.0], [], []));
            Tried(w, after.0, o, quote, terms, config, fingerprint, now, story, Raised(after.2.error), after.1)
              && Calls(story) == []
  {
    OpeningFacts(w, o, fingerprint, now);
    var after := Opening(w, o, fingerprint, now);
    hide Opening; hide Linked; hide WorldOk;
    if after.1 {
      BeginStory(w, after.0, o, now);
    }
  }

  lemma PlanningTried(w: World, o: Order, quote: V.Quote, terms: Terms, config: Config, fingerprint: Id, now: real)
    requires WorldOk(w) && Linked(w.journal, w.oms) && Governable(o) && Opening(w, o, fingerprint, now).2.Ok?
    requires Planning(Opening(w, o, fingerprint, now).0, o.id, quote, terms, config, fingerprint, now).1.Raised?
    ensures var after := Planning(Opening(w, o, fingerprint, now).0, o.id, quote, terms, config, fingerprint, now);
            var story := Story(true, after.0, [], Trace([after.0], [], []));
            Tried(w, after.0, o, quote, terms, config, fingerprint, now, story, Raised(after.1.error), true)
              && Calls(story) == []
  {
    assert O.OmsOk(w.oms);
    hide Opening; hide Planning; hide Linked; hide WorldOk; hide Went; hide OpenedWorld; hide Governable; hide O.OmsOk;
    OpeningFacts(w, o, fingerprint, now);
    var begun := Opening(w, o, fingerprint, now).0;
    PlanningFacts(w, begun, o, quote, terms, config, fingerprint, now);
    StoppedAs(w, Planning(begun, o.id, quote, terms, config, fingerprint, now).0, o, now);
    hide Stopped; hide Looped; hide Calls;
  }

  lemma StoppedAs(w: World, w': World, o: Order, now: real)
    requires WorldOk(w) && Linked(w.journal, w.oms) && OpenedWorld(w, w', o, now)
    ensures var story := Story(true, w', [], Trace([w'], [], []));
            Went(w, w', o, story, now) && Stopped(w', story) && Calls(story) == []
  {
    BeginStory(w, w', o, now);
  }

  lemma LoopTried(w: World, o: Order, quote: V.Quote, terms: Terms, config: Config, fingerprint: Id, now: real,
                  trace: Trace)
    requires WorldOk(w) && Linked(w.journal, w.oms) && Governable(o) && Opening(w, o, fingerprint, now).2.Ok?
    requires var planned := Planning(Opening(w, o, fingerprint, now).0, o.id, quote, terms, config, fingerprint, now);
             && planned.1.Ok?
             && var sent := Routed(planned.1.value.1, quote.venue);
             && Traced(planned.0, o.id, sent, trace) && Faithful(o.id, sent, trace, quote, fingerprint, now)
             && (RanThrough(sent, trace) || (trace.steps != [] && trace.steps[|trace.steps| - 1].outcome.Raised?))
    ensures var planned := Planning(Opening(w, o, fingerprint, now).0, o.id, quote, terms, config, fingerprint, now);
            var sent := Routed(planned.1.value.1, quote.venue);
            Tried(w, Last(trace), o, quote, terms, config, fingerprint, now, Story(true, planned.0, sent, trace),
                  LoopResult(planned.1.value.0, sent, trace), true)
  {
    assert O.OmsOk(w.oms);
    hide StepOk; hide LoopResult; hide RanThrough; hide Traced; hide Opening; hide Planning; hide Linked; hide WorldOk;
    hide Went; hide OpenedWorld; hide Faithful; hide Planned; hide Routed; hide Governable; hide O.OmsOk;
    OpeningFacts(w, o, fingerprint, now);
    var begun := Opening(w, o, fingerprint, now).0;
    PlanningFacts(w, begun, o, quote, terms, config, fingerprint, now);
    var planned := Planning(begun, o.id, quote, terms, config, fingerprint, now);
    RoutedIsPlanned(o, terms.volumes, planned.1.value.1, quote.venue);
    LoopedAs(w, planned.0, o, planned.1.value, quote, fingerprint, now, trace);
    hide Looped;
  }

  lemma LoopedAs(w: World, start: World, o: Order, plan: (Order, seq<Order>), quote: V.Quote, fingerprint: Id,
                 now: real, trace: Trace)
    requires OpenedWorld(w, start, o, now) && o.id in start.oms.orders && plan.0 == start.oms.orders[o.id]
    requires Traced(start, o.id, Routed(plan.1, quote.venue), trace)
             && Faithful(o.id, Routed(plan.1, quote.venue), trace, quote, fingerprint, now)
    requires RanThrough(Routed(plan.1, quote.venue), trace)
             || (trace.steps != [] && trace.steps[|trace.steps| - 1].outcome.Raised?)
    ensures var story := Story(true, start, Routed(plan.1, quote.venue), trace);
            && Looped(start, Last(trace), o, plan, quote, fingerprint, now, story,
                      LoopResult(plan.0, story.sent, trace))
            && Went(w, Last(trace), o, story, now)
  {
    var sent := Routed(plan.1, quote.venue);
    LoopStory(w, start, Last(trace), o, sent, trace, now);
    LoopEnds(start, o, plan, sent, trace);
    if !RanThrough(sent, trace) {
      FailedResult(plan.0, sent, trace);
    }
    hide StepOk; hide LoopResult; hide RanThrough; hide Traced; hide OpenedWorld; hide Faithful; hide Routed; hide Went;
  }

  lemma LoopEnds(start: World, o: Order, plan: (Order, seq<Order>), sent: seq<Order>, trace: Trace)
    requires Traced(start, o.id, sent, trace) && o.id in start.oms.orders && plan.0 == start.oms.orders[o.id]
    requires RanThrough(sent, trace) || (trace.steps != [] && trace.steps[|trace.steps| - 1].outcome.Raised?)
    ensures var r := LoopResult(plan.0, sent, trace);
            && (r.Ok? <==> RanThrough(sent, trace))
            && (r.Ok? ==>
                  && o.id in Last(trace).oms.orders && r.value.0 == Last(trace).oms.orders[o.id]
                  && |r.value.1| == |sent|)
  {
    if trace.steps != [] && trace.steps[|trace.steps| - 1].outcome.Raised? {
      FailedResult(plan.0, sent, trace);
    } else {
      EndsStored(start, o.id, sent, trace);
      hide StepOk; hide Traced;
    }
  }

  // ----- What the end of a call keeps -----

  lemma FrozenFacts(w: World, id: Id, now: real)
    requires WorldOk(w) && Linked(w.journal, w.oms) && id in w.oms.orders
    ensures WorldOk(Frozen(w, id, now)) && Linked(w.journal, Frozen(w, id, now).oms)
            && Frozen(w, id, now).journal == w.journal
  {
    FreezingKeeps(w, id, now);
    hide O.Freeze; hide WorldOk; hide Linked;
  }

  lemma MovedFacts(w: World, id: Id, state: J.State, error: Option<string>, now: real)
    requires WorldOk(w) && Linked(w.journal, w.oms)
    ensures var w' := Moved(w, id, state, error, now);
            WorldOk(w') && Linked(w'.journal, w'.oms) && w'.oms == w.oms && JR.TablesEvolve(w.journal, w'.journal)
  {
    EvolvesRefl(w.journal);
    if J.Update(w.journal, id, state, None, error, now).Ok? {
      UpdatingKeeps(w, id, state, None, error, now);
    }
    hide WorldOk; hide Linked; hide JR.TablesEvolve; hide J.Update;
  }

  lemma CleanedUpFacts(w: World, t: A.Tables, id: Id, submitted: bool, started: bool, now: real)
    requires WorldOk(w) && Linked(w.journal, w.oms) && (submitted ==> id in w.oms.orders)
    ensures var end := CleanedUp(w, t, id, submitted, started, now);
            && WorldOk(end.0) && Linked(end.0.journal, end.0.oms) && JR.TablesEvolve(w.journal, end.0.journal)
            && (started ==> end.0.journal == w.journal && end.1 == t)
            && (!started ==> end.0.journal.rows == Withdrawn(w.journal.rows, id, now) && end.1 == A.Release(t, id))
  {
    EvolvesRefl(w.journal);
    if submitted {
      FrozenFacts(w, id, now);
    }
    var frozen := if submitted then Frozen(w, id, now) else w;
    if !started && StateIs(w, id, J.Submitting) {
      WithdrawingIsAllowed(w.journal, id, now);
      UpdatingKeeps(frozen, id, J.Cancelled, None, None, now);
    } else {
      assert w.journal.(rows := w.journal.rows) == w.journal;
    }
    hide WorldOk; hide Linked; hide JR.TablesEvolve; hide J.Update; hide Frozen;
  }

  /** What a conclusion keeps. */
  lemma ConcludedKeeps(w: World, t: A.Tables, current: Order, flags: seq<bool>, quote: V.Quote, now: real)
    requires WorldOk(w) && Linked(w.journal, w.oms) && current.id in w.oms.orders
    ensures var end := Concluded(w, t, current, flags, quote, now).world;
            WorldOk(end) && Linked(end.journal, end.oms) && JR.TablesEvolve(w.journal, end.journal)
  {
    hide WorldOk; hide Linked; hide JR.TablesEvolve; hide Frozen; hide Moved; hide DurablyMatched; hide CommitFilled;
    EvolvesRefl(w.journal);
    FrozenFacts(w, current.id, now);
    MovedFacts(Frozen(w, current.id, now), current.id, J.Unknown, Some(""), now);
    MovedFacts(w, current.id, J.Unknown, Some(""), now);
    MovedFacts(w, current.id, J.Recovered, None, now);
  }

  lemma DoubtMoves(w: World, id: Id, now: real)
    requires id in w.journal.rows && w.journal.rows[id].state in OPEN_STATES
    ensures StateIs(Moved(w, id, J.Unknown, Some(""), now), id, J.Unknown)
  {
    DoubtIsAllowed(w.journal, id, now);
    hide J.Update;
  }

  /** What a conclusion tells about the loop it concludes. */
  lemma ConcludedFacts(w: World, t: A.Tables, current: Order, flags: seq<bool>, quote: V.Quote, now: real)
    requires WorldOk(w) && Linked(w.journal, w.oms) && current.id in w.oms.orders
    requires current.id in w.journal.rows && w.journal.rows[current.id].state in OPEN_STATES
    ensures var end := Concluded(w, t, current, flags, quote, now);
            && Settled(end.exit, t, end.exposure, current.id, current)
            && end.exit in {Unreconciled, DurableMismatch, CommitRefused, AnalyticsFailed, Returned}
            && (end.exit == Unreconciled <==> false in flags)
            && (end.exit in {CommitRefused, AnalyticsFailed, Returned}
                ==> DurablyMatched(ChildrenIn(w.journal, current.id), current))
            && (end.exit in {Unreconciled, DurableMismatch} ==> StateIs(end.world, current.id, J.Unknown))
            && (end.exit == CommitRefused ==> end.world.journal == w.journal)
            && (end.exit != Unreconciled ==> end.world.oms == w.oms)
            && (end.result.Ok? <==> end.exit == Returned)
            && (end.result.Ok?
                ==> end.result.value == Report(current.id, current.filled, current.average, current.status))
  {
    hide WorldOk; hide Linked; hide JR.TablesEvolve; hide Frozen; hide Moved; hide DurablyMatched; hide CommitFilled;
    FrozenFacts(w, current.id, now);
    DoubtMoves(Frozen(w, current.id, now), current.id, now);
    DoubtMoves(w, current.id, now);
    MovedFacts(w, current.id, J.Unknown, Some(""), now);
    MovedFacts(w, current.id, J.Recovered, None, now);
  }

  /** Cost analysis raises exactly when everything before it has gone well and the quoted arrival price
      is not positive. By then the commit has been made: the reservation is gone and exposure has grown. */
  lemma AnalyticsFailsIff(w: World, t: A.Tables, current: Order, flags: seq<bool>, quote: V.Quote, now: real)
    ensures var end := Concluded(w, t, current, flags, quote, now);
            && (end.exit == AnalyticsFailed <==>
                  && (forall k | 0 <= k < |flags| :: flags[k])
                     && DurablyMatched(ChildrenIn(w.journal, current.id), current)
                  && CommitFilled(t, current).Ok? && Arrival(current, quote) <= 0.0)
            && (end.exit == AnalyticsFailed ==> end.result == Raised(ValueError) && Committed(t, end.exposure, current))
  {
    hide DurablyMatched; hide Frozen; hide Moved; hide ChildrenIn;
    assert false in flags <==> exists k :: 0 <= k < |flags| && !flags[k];
  }

  /** The reservation has become exposure, in its scope, of filled times average. */
  ghost predicate Committed(t: A.Tables, t': A.Tables, current: Order) {
    && current.id in t.reservations && t'.reservations == t.reservations - {current.id}
    && var scope := t.reservations[current.id].scope;
    && t'.exposure == t.exposure[scope := A.Get(t.exposure, scope) + FilledNotional(current)]
    && A.Get(t'.symbolExposure, (scope, current.symbol))
       == A.Get(t.symbolExposure, (scope, current.symbol)) + FilledNotional(current)
  }

  // ----- From the functions to the guarantees -----

  /** What every call that made its reservation guarantees, whatever the broker does. */
  ghost predicate Kept(w: World, w': World, held: A.Tables, t': A.Tables, o: Order, volumes: Option<seq<real>>,
                       r: Outcome<Report>, tale: Tale)
  {
    && WorldOk(w') && Linked(w'.journal, w'.oms) && JR.TablesEvolve(w.journal, w'.journal)
    && tale.exit !in {Gated, ReserveRefused} && Settled(tale.exit, held, t', o.id, tale.current)
    && tale.current.id == o.id && tale.current.symbol == o.symbol
    && (tale.exit in {CommitRefused, AnalyticsFailed, Returned}
        ==> o.id in w'.oms.orders && tale.current == w'.oms.orders[o.id])
    && WriteAhead(w.journal, w'.journal, o.id, tale.calls)
    && Sent(tale.exit, o, volumes, tale.calls) && Left(tale.exit, w'.journal.rows, o.id)
    && (tale.exit in {AnalyticsFailed, Returned} ==> FullyExecuted(o.quantity, tale.current.filled, |tale.calls|))
    && (r.Ok? <==> tale.exit == Returned)
    && (r.Ok? ==> r.value == Report(o.id, tale.current.filled, tale.current.average, tale.current.status))
  }

  lemma {:induction false} CallsIff(children: seq<Order>, steps: seq<Progress>)
    requires |steps| <= |children|
    ensures Submitted(children, steps) != [] <==> SomeCalled(steps)
  {
    if steps != [] {
      var last := |steps| - 1;
      CallsIff(children, steps[..last]);
      if SomeCalled(steps[..last]) {
        var k :| 0 <= k < last && steps[..last][k].called;
        assert steps[k].called;
      }
      if SomeCalled(steps) && !steps[last].called {
        var k :| 0 <= k < |steps| && steps[k].called;
        assert steps[..last][k].called;
      }
    }
  }

  /** An attempt leaves a world that is in order, whichever way it went. */
  lemma AttemptFacts(w: World, after: World, o: Order, quote: V.Quote, terms: Terms, config: Config, fingerprint: Id,
                     now: real, story: Story, r: Outcome<(Order, seq<bool>)>, submitted: bool)
    requires WorldOk(w) && Linked(w.journal, w.oms)
    requires Tried(w, after, o, quote, terms, config, fingerprint, now, story, r, submitted)
    ensures WorldOk(after) && Linked(after.journal, after.oms) && O.OmsOk(after.oms)
            && JR.TablesEvolve(w.journal, after.journal)
    ensures Went(w, after, o, story, now) && |story.trace.steps| <= |story.sent|
    ensures story.sent != [] || r.Ok? ==> Planned(o, terms.volumes, story.sent)
    ensures submitted
            ==> o.id in after.oms.orders && o.id in after.journal.rows && after.journal.rows[o.id].state in OPEN_STATES
    ensures r.Ok? ==> && submitted && story.begun && RanThrough(story.sent, story.trace)
                      && r.value.0 == after.oms.orders[o.id] && |r.value.1| == |story.sent|
                      && r.value.0.id == o.id && r.value.0.symbol == o.symbol
  {
    hide Went; hide Linked; hide JR.TablesEvolve; hide Opening; hide Planning; hide Faithful; hide LoopResult;
    hide RanThrough; hide Planned;
    WentKeeps(w, after, o, story, now);
  }

  function FailureTale(story: Story, o: Order): Tale
    requires |story.trace.steps| <= |story.sent|
  {
    Tale(if Calls(story) != [] then LoopFailed else SetupFailed, Raised(BrokerError), Calls(story), story.trace, o)
  }

  /** A failed attempt, cleaned up, is what Carried says, and keeps what it should. */
  lemma FailureIsCarried(w: World, after: World, t: A.Tables, o: Order, quote: V.Quote, terms: Terms, config: Config,
                         fingerprint: Id, now: real, story: Story, r: Outcome<(Order, seq<bool>)>, submitted: bool)
    requires WorldOk(w) && Linked(w.journal, w.oms) && Clean(w.journal.rows) && r.Raised?
    requires Tried(w, after, o, quote, terms, config, fingerprint, now, story, r, submitted)
    requires |story.trace.steps| <= |story.sent|
    ensures var end := CleanedUp(after, t, o.id, submitted, Calls(story) != [], now);
            && Ending(end.0, end.1, Reraised(r), FailureTale(story, o).exit)
               == Carried(w, t, o, quote, terms, config, fingerprint, now, story.trace)
            && TraceOf(w, o, quote, terms, config, fingerprint, now, story.trace)
            && Kept(w, end.0, t, end.1, o, terms.volumes, Reraised(r), FailureTale(story, o))
            && WorldOk(end.0) && Linked(end.0.journal, end.0.oms)
  {
    AttemptFacts(w, after, o, quote, terms, config, fingerprint, now, story, r, submitted);
    CleanedUpFacts(after, t, o.id, submitted, Calls(story) != [], now);
    FailureIsKept(w, after, t, o, terms, now, story, r, submitted);
    FailureIsTraced(w, after, t, o, quote, terms, config, fingerprint, now, story, r, submitted);
  }

  function Reraised(r: Outcome<(Order, seq<bool>)>): Outcome<Report>
    requires r.Raised?
  {
    Raised(r.error)
  }

  lemma FailureIsKept(w: World, after: World, t: A.Tables, o: Order, terms: Terms, now: real, story: Story,
                      r: Outcome<(Order, seq<bool>)>, submitted: bool)
    requires WorldOk(w) && Linked(w.journal, w.oms) && Clean(w.journal.rows) && r.Raised?
    requires WorldOk(after) && Linked(after.journal, after.oms) && JR.TablesEvolve(w.journal, after.journal)
    requires Went(w, after, o, story, now) && |story.trace.steps| <= |story.sent|
             && (submitted ==> o.id in after.oms.orders)
    requires story.sent != [] ==> Planned(o, terms.volumes, story.sent)
    ensures var end := CleanedUp(after, t, o.id, submitted, Calls(story) != [], now);
            Kept(w, end.0, t, end.1, o, terms.volumes, Reraised(r), FailureTale(story, o))
  {
    hide WorldOk; hide Linked; hide JR.TablesEvolve; hide Went; hide CleanedUp; hide WriteAhead; hide Sent; hide Left;
    hide Withdrawn; hide FullyExecuted; hide Planned; hide Clean; hide Calls;
    var end := CleanedUp(after, t, o.id, submitted, Calls(story) != [], now);
    CleanedUpFacts(after, t, o.id, submitted, Calls(story) != [], now);
    WentWriteAhead(w, after, o, story, now);
    WriteAheadLasts(w.journal, after.journal, end.0.journal, o.id, Calls(story));
    EvolvesTrans(w.journal, after.journal, end.0.journal);
    FailureFacts(w, after, o, story, terms.volumes, now);
  }

  lemma FailureIsTraced(w: World, after: World, t: A.Tables, o: Order, quote: V.Quote, terms: Terms, config: Config,
                        fingerprint: Id, now: real, story: Story, r: Outcome<(Order, seq<bool>)>, submitted: bool)
    requires O.OmsOk(w.oms) && r.Raised? && |story.trace.steps| <= |story.sent|
    requires Tried(w, after, o, quote, terms, config, fingerprint, now, story, r, submitted)
    ensures var end := CleanedUp(after, t, o.id, submitted, Calls(story) != [], now);
            && Ending(end.0, end.1, Reraised(r), FailureTale(story, o).exit)
               == Carried(w, t, o, quote, terms, config, fingerprint, now, story.trace)
            && TraceOf(w, o, quote, terms, config, fingerprint, now, story.trace)
  {
    hide OpenedWorld; hide Opening; hide Planning; hide Faithful; hide LoopResult; hide RanThrough; hide Planned;
    hide CleanedUp; hide O.OmsOk; hide Traced; hide SomeCalled; hide Submitted; hide Routed;
    CallsIff(story.sent, story.trace.steps);
    StoryEnds(w, after, o, story, now);
  }

  lemma StoryEnds(w: World, after: World, o: Order, story: Story, now: real)
    requires Went(w, after, o, story, now)
    ensures story.trace.worlds != [] && Last(story.trace) == after && (story.trace.steps == [] ==> Calls(story) == [])
  {
  }

  /** A loop that went through, concluded, is what Carried says, and keeps what it should. */
  lemma EndIsCarried(w: World, after: World, t: A.Tables, o: Order, quote: V.Quote, terms: Terms, config: Config,
                     fingerprint: Id, now: real, story: Story, r: Outcome<(Order, seq<bool>)>, submitted: bool)
    requires WorldOk(w) && Linked(w.journal, w.oms) && Clean(w.journal.rows) && r.Ok?
    requires Tried(w, after, o, quote, terms, config, fingerprint, now, story, r, submitted)
    requires |story.trace.steps| <= |story.sent|
    ensures var end := Concluded(after, t, r.value.0, r.value.1, quote, now);
            && end == Carried(w, t, o, quote, terms, config, fingerprint, now, story.trace)
            && TraceOf(w, o, quote, terms, config, fingerprint, now, story.trace)
            && Kept(w, end.world, t, end.exposure, o, terms.volumes, end.result,
                    Tale(end.exit, Raised(BrokerError), Calls(story), story.trace, r.value.0))
            && WorldOk(end.world) && Linked(end.world.journal, end.world.oms)
  {
    AttemptFacts(w, after, o, quote, terms, config, fingerprint, now, story, r, submitted);
    ConcludedFacts(after, t, r.value.0, r.value.1, quote, now);
    ConcludedKeeps(after, t, r.value.0, r.value.1, quote, now);
    EndIsKept(w, after, t, o, terms, quote, now, story, r);
    EndIsTraced(w, after, t, o, quote, terms, config, fingerprint, now, story, r, submitted);
  }

  lemma EndIsKept(w: World, after: World, t: A.Tables, o: Order, terms: Terms, quote: V.Quote, now: real, story: Story,
                  r: Outcome<(Order, seq<bool>)>)
    requires WorldOk(w) && Linked(w.journal, w.oms) && r.Ok?
    requires WorldOk(after) && Linked(after.journal, after.oms) && JR.TablesEvolve(w.journal, after.journal)
    requires Went(w, after, o, story, now) && |story.trace.steps| <= |story.sent| && story.begun
    requires RanThrough(story.sent, story.trace) && Planned(o, terms.volumes, story.sent)
    requires o.id in after.oms.orders && o.id in after.journal.rows && after.journal.rows[o.id].state in OPEN_STATES
    requires r.value.0 == after.oms.orders[o.id] && |r.value.1| == |story.sent| && r.value.0.id == o.id
             && r.value.0.symbol == o.symbol
    ensures var end := Concluded(after, t, r.value.0, r.value.1, quote, now);
            Kept(w, end.world, t, end.exposure, o, terms.volumes, end.result,
                 Tale(end.exit, Raised(BrokerError), Calls(story), story.trace, r.value.0))
  {
    hide WorldOk; hide Linked; hide JR.TablesEvolve; hide Went; hide Concluded; hide WriteAhead; hide Sent; hide Left;
    hide FullyExecuted; hide Planned; hide Calls; hide DurablyMatched; hide RanThrough;
    var end := Concluded(after, t, r.value.0, r.value.1, quote, now);
    ConcludedFacts(after, t, r.value.0, r.value.1, quote, now);
    ConcludedKeeps(after, t, r.value.0, r.value.1, quote, now);
    WentWriteAhead(w, after, o, story, now);
    WriteAheadLasts(w.journal, after.journal, end.world.journal, o.id, Calls(story));
    EvolvesTrans(w.journal, after.journal, end.world.journal);
    EndFacts(w, after, o, story, terms.volumes, now, ChildrenIn(after.journal, o.id));
    SentFacts(end.exit, o, terms.volumes, Calls(story), after.journal.rows, end.world.journal.rows);
  }

  lemma EndIsTraced(w: World, after: World, t: A.Tables, o: Order, quote: V.Quote, terms: Terms, config: Config,
                    fingerprint: Id, now: real, story: Story, r: Outcome<(Order, seq<bool>)>, submitted: bool)
    requires O.OmsOk(w.oms) && r.Ok? && Tried(w, after, o, quote, terms, config, fingerprint, now, story, r, submitted)
    ensures story.trace.worlds != []
    ensures Concluded(after, t, r.value.0, r.value.1, quote, now)
            == Carried(w, t, o, quote, terms, config, fingerprint, now, story.trace)
    ensures TraceOf(w, o, quote, terms, config, fingerprint, now, story.trace)
  {
    StoryEnds(w, after, o, story, now);
    hide OpenedWorld; hide Opening; hide Planning; hide Faithful; hide LoopResult; hide RanThrough; hide Planned;
    hide Concluded; hide O.OmsOk; hide Traced; hide Routed;
  }

  lemma GatesAgree(o: Order, config: Config, quoted: Outcome<V.Quote>, terms: Terms, unresolved: set<Id>)
    ensures var r := GateVerdict(o, config, quoted, terms, unresolved);
            && (r.Ok? <==> quoted.Ok? && GatesOpen(o, config, quoted.value, terms, unresolved))
            && (r.Ok? ==> r.value == (Attach(o, config), quoted.value) && unresolved == {})
  {
  }

  lemma ExecutionIs(w: World, t: A.Tables, o: Order, terms: Terms, config: Config, scope: A.Scope, fingerprint: Id,
                    now: real, quoted: Outcome<V.Quote>, trace: Trace)
    requires O.OmsOk(w.oms) && trace.worlds != []
    ensures var gates := GateVerdict(o, config, quoted, terms, UnresolvedIn(w.journal));
            var all := Execution(w, t, o, terms, config, scope, fingerprint, now, quoted, trace);
            if gates.Raised? then all == Ending(w, t, Raised(gates.error), Gated)
            else
              var held := Hold(t, o, scope, terms, now);
              if held.Raised? then all == Ending(w, t, Raised(held.error), ReserveRefused)
              else all == Carried(w, held.value, gates.value.0, gates.value.1, terms, config, fingerprint, now, trace)
  {
    var gates := GateVerdict(o, config, quoted, terms, UnresolvedIn(w.journal));
    if gates.Ok? {
      HoldsTheSame(t, o, gates.value.0, scope, terms, now);
    }
    hide Carried; hide Hold;
  }

  // ----- What every call guarantees -----

  /** What a call of execute guarantees, whatever the broker does: from (w, t) to (w', t'), with the
      result r, as `tale` tells it. */
  ghost predicate Guaranteed(w: World, w': World, t: A.Tables, t': A.Tables, o: Order, terms: Terms, scope: A.Scope,
                             now: real, r: Outcome<Report>, tale: Tale)
  {
    && JR.TablesEvolve(w.journal, w'.journal)
    && (tale.exit in {Gated, ReserveRefused} ==> w' == w)
    && Accounted(tale.exit, t, t', o, scope, terms, now, tale.current)
    && tale.current.id == o.id && tale.current.symbol == o.symbol
    && (tale.exit in {CommitRefused, AnalyticsFailed, Returned}
        ==> o.id in w'.oms.orders && tale.current == w'.oms.orders[o.id])
    && WriteAhead(w.journal, w'.journal, o.id, tale.calls)
    && Sent(tale.exit, o, terms.volumes, tale.calls)
    && Left(tale.exit, w'.journal.rows, o.id)
    && (tale.exit in {AnalyticsFailed, Returned} ==> FullyExecuted(o.quantity, tale.current.filled, |tale.calls|))
    && (r.Ok? <==> tale.exit == Returned)
    && (r.Ok? ==> r.value == Report(o.id, tale.current.filled, tale.current.average, tale.current.status))
  }

  /** A call that stops at the gates, or is refused its reservation, keeps them all. */
  lemma StoppedIsGuaranteed(w: World, t: A.Tables, o: Order, terms: Terms, scope: A.Scope, now: real, error: Error,
                            tale: Tale)
    requires tale.exit == Gated || (tale.exit == ReserveRefused && Hold(t, o, scope, terms, now).Raised?)
    requires tale.calls == [] && tale.current == o
    ensures Guaranteed(w, w, t, t, o, terms, scope, now, Raised(error), tale)
  {
    hide Hold;
    EvolvesRefl(w.journal);
    NothingIsWriteAhead(w.journal, o.id);
    UnsentIsSent(o, terms.volumes, w.journal.rows);
    hide WriteAhead; hide JR.TablesEvolve;
  }

  lemma QuoteAside(w: World, w': World, held: A.Tables, t': A.Tables, o: Order, volumes: Option<seq<real>>,
                   r: Outcome<Report>, tale: Tale, quoted: Outcome<V.Quote>)
    requires Kept(w, w', held, t', o, volumes, r, tale)
    ensures Kept(w, w', held, t', o, volumes, r, tale.(quoted := quoted))
    ensures tale.exit !in {Gated, ReserveRefused}
  {
    hide WorldOk; hide Linked; hide WriteAhead; hide Sent; hide Left; hide FullyExecuted; hide Settled;
    hide JR.TablesEvolve;
  }

  /** And so does one that carried its reservation to an end. */
  lemma KeptIsGuaranteed(w: World, w': World, t: A.Tables, t': A.Tables, o: Order, governed: Order, terms: Terms,
                         scope: A.Scope, now: real, r: Outcome<Report>, tale: Tale)
    requires governed == o.(metadata := governed.metadata) && Hold(t, o, scope, terms, now).Ok?
    requires Kept(w, w', Hold(t, o, scope, terms, now).value, t', governed, terms.volumes, r, tale)
    ensures Guaranteed(w, w', t, t', o, terms, scope, now, r, tale)
  {
    SentTheSame(tale.exit, o, governed, terms.volumes, tale.calls);
    hide Hold; hide Settled; hide WriteAhead; hide Sent; hide Left; hide FullyExecuted; hide WorldOk; hide Linked;
    hide JR.TablesEvolve;
  }
}
