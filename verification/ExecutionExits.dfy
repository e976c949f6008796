/** The exits of a governed execution: what each one leaves in the exposure ledger, and what the
    child loop's guarantees amount to once the broker's answers are fixed. */
module ExecutionExits {
  import opened Common
  import opened Orders
  import opened ExecutionSpec
  import opened ExecutionLoop
  import opened Identity
  import A = AdmissionSpec
  import J = JournalSpec
  import JR = JournalRuns
  import O = OmsSpec
  import PreTrade
  import Slicing
  import Sums
  import V = Venue

  /** The approved configuration: its hash is opaque. */
  datatype Config = Config(hash: string, modelHash: string, venues: set<string>)

  /** The arguments of execute besides the order. `controlsNormal` and `routable` stand for the
      verdicts of the institutional control state and of the router. */
  datatype Terms = Terms(referencePrice: real, portfolioNotional: real, symbolNotional: real, dailyLoss: real,
                         spread: real, limits: A.Limits, volumes: Option<seq<real>>, controlsNormal: bool,
                         routable: bool)

  /** How a call of execute ended. */
  datatype Exit =
    | Gated                 // refused before anything was written
    | ReserveRefused        // no capacity, or a clashing reservation
    | SetupFailed           // raised before the first broker call
    | LoopFailed            // raised at or after the first broker call, inside the loop
    | Unreconciled          // some child does not match the broker
    | DurableMismatch       // the journal's children do not match the OMS
    | CommitRefused         // the exposure ledger refused the commit
    | AnalyticsFailed       // cost analysis raised after the commit
    | Returned

  datatype Report = Report(order: Id, filled: real, average: Option<real>, status: OrderStatus)

  /** attach_identity, on the entries the model keeps. */
  function Attach(o: Order, config: Config): Order {
    o.(metadata := o.metadata.(configHash := Some(config.hash), modelHash := Some(config.modelHash)))
  }

  /** Everything that has to hold before a reservation is attempted. */
  predicate GatesOpen(o: Order, config: Config, quote: V.Quote, terms: Terms, unresolved: set<Id>) {
    && (o.metadata.configHash.Some? ==> o.metadata.configHash.value == config.hash)
    && quote.symbol == o.symbol && quote.venue in config.venues && quote.healthy
    && PreTrade.Admissible(o, terms.referencePrice, terms.portfolioNotional, terms.symbolNotional, terms.dailyLoss,
                           terms.spread, terms.limits, quote.healthy)
    && unresolved == {} && terms.controlsNormal
  }

  /** What the gates have made sure of before anything is reserved. */
  ghost predicate Governable(o: Order) {
    o.quantity > 0.0 && o.filled == 0.0 && o.average.None? && O.Governed(o)
  }

  // ----- Exposure -----

  const TTL: real := 30.0

  function Requested(o: Order, terms: Terms): real { o.quantity * terms.referencePrice }

  function FilledNotional(o: Order): real {
    if o.average.None? then 0.0 else o.filled * o.average.value
  }

  ghost function Hold(t: A.Tables, o: Order, scope: A.Scope, terms: Terms, now: real): Outcome<A.Tables> {
    A.Reserve(t, o.id, scope, Requested(o, terms), map[o.symbol := Requested(o, terms)], terms.limits, Some(TTL), now)
  }

  function CommitFilled(t: A.Tables, current: Order): Outcome<A.Tables> {
    A.Commit(t, current.id, Some(FilledNotional(current)), Some(map[current.symbol := FilledNotional(current)]))
  }

  /** The exposure ledger after each exit, once the reservation was made. `current` is the order the
      OMS holds at the commit. */
  ghost predicate Settled(exit: Exit, held: A.Tables, t': A.Tables, id: Id, current: Order) {
    match exit
    case Gated => false
    case ReserveRefused => false
    case SetupFailed => t' == A.Release(held, id)
    case LoopFailed => t' == held
    case Unreconciled => t' == held
    case DurableMismatch => t' == held
    case CommitRefused => t' == held && CommitFilled(held, current).Raised?
    case _ => CommitFilled(held, current) == Ok(t')
  }

  ghost predicate Accounted(exit: Exit, t: A.Tables, t': A.Tables, o: Order, scope: A.Scope, terms: Terms, now: real,
                            current: Order) {
    var held := Hold(t, o, scope, terms, now);
    match exit
    case Gated => t' == t
    case ReserveRefused => held.Raised? && t' == t
    case _ => held.Ok? && Settled(exit, held.value, t', o.id, current)
  }

  ghost predicate Live(t: A.Tables, id: Id, now: real) {
    id in t.reservations && !A.Expired(t.reservations[id], now)
  }

  /** Reservation accounting, for an order id without a live reservation on entry. A refusal leaves
      the ledger alone; a failure before the first broker call leaves no reservation and no
      exposure; a failure from then until the commit leaves the reservation held and no exposure;
      and once the commit is made the reservation is gone and exposure has grown, in the scope and
      in the symbol, by exactly filled times average price. Other reservations only expire. */
  lemma EveryExitAccounts(exit: Exit, t: A.Tables, t': A.Tables, o: Order, scope: A.Scope, terms: Terms, now: real,
                          current: Order)
    requires Accounted(exit, t, t', o, scope, terms, now, current) && !Live(t, o.id, now)
    requires current.id == o.id && current.symbol == o.symbol
    ensures exit in {Gated, ReserveRefused} ==> t' == t
    ensures exit == SetupFailed ==> t' == t.(reservations := A.Purge(t.reservations, now))
    ensures exit in {LoopFailed, Unreconciled, DurableMismatch, CommitRefused} ==>
              && t'.exposure == t.exposure && t'.symbolExposure == t.symbolExposure
              && t'.reservations == A.Purge(t.reservations, now)[o.id :=
                   A.Reservation(scope, Requested(o, terms), map[o.symbol := Requested(o, terms)], now,
                                 Some(now + TTL))]
    ensures exit in {AnalyticsFailed, Returned} ==>
              && t'.reservations == A.Purge(t.reservations, now)
              && t'.exposure == t.exposure[scope := A.Get(t.exposure, scope) + FilledNotional(current)]
              && (forall k: (A.Scope, A.Symbol) :: A.Get(t'.symbolExposure, k)
                    == A.Get(t.symbolExposure, k) + (if k == (scope, o.symbol) then FilledNotional(current) else 0.0))
              && 0.0 <= FilledNotional(current) <= Requested(o, terms)
    ensures exit == CommitRefused ==> FilledNotional(current) < 0.0 || FilledNotional(current) > Requested(o, terms)
  {
    if exit !in {Gated, ReserveRefused} {
      HoldingMeans(t, o, scope, terms, now);
      var live, held := A.Purge(t.reservations, now), Hold(t, o, scope, terms, now).value;
      CommittingMeans(held, current, scope, Requested(o, terms));
      HeldIsExtra(live, held.reservations, o.id, held.reservations[o.id]);
      hide Hold; hide CommitFilled; hide FilledNotional; hide Requested; hide A.Purge;
    }
  }

  lemma HeldIsExtra(live: map<Id, A.Reservation>, held: map<Id, A.Reservation>, id: Id, r: A.Reservation)
    requires id !in live && held == live[id := r]
    ensures held - {id} == live
  {
  }

  lemma CommittingMeans(t: A.Tables, current: Order, scope: A.Scope, amount: real)
    requires current.id in t.reservations
    requires var r := t.reservations[current.id];
             r.scope == scope && r.portfolio == amount && r.symbols == map[current.symbol := amount]
    ensures CommitFilled(t, current).Ok? <==> 0.0 <= FilledNotional(current) <= amount
    ensures CommitFilled(t, current).Ok? ==>
              var t', n := CommitFilled(t, current).value, FilledNotional(current);
              && t'.reservations == t.reservations - {current.id}
              && t'.exposure == t.exposure[scope := A.Get(t.exposure, scope) + n]
              && (forall k: (A.Scope, A.Symbol) :: A.Get(t'.symbolExposure, k)
                    == A.Get(t.symbolExposure, k) + (if k == (scope, current.symbol) then n else 0.0))
  {
  }

  lemma HoldingMeans(t: A.Tables, o: Order, scope: A.Scope, terms: Terms, now: real)
    requires Hold(t, o, scope, terms, now).Ok? && !Live(t, o.id, now)
    ensures o.id !in A.Purge(t.reservations, now)
    ensures Hold(t, o, scope, terms, now).value == t.(reservations := A.Purge(t.reservations, now)[o.id :=
              A.Reservation(scope, Requested(o, terms), map[o.symbol := Requested(o, terms)], now, Some(now + TTL))])
  {
  }

  // ----- The attempt: from the journaled parent to the end of the child loop -----

  /** How far an attempt got. `sent` are the children as routed; before the loop there are none. */
  datatype Story = Story(begun: bool, start: World, sent: seq<Order>, trace: Trace)

  ghost predicate Went(w: World, w': World, o: Order, story: Story, now: real) {
    && |story.trace.steps| <= |story.sent|
    && (story.begun ==> OpenedWorld(w, story.start, o, now) && Traced(story.start, o.id, story.sent, story.trace)
                        && Last(story.trace) == w')
    && (!story.begun ==> w' == w && story.sent == [] && story.trace == Trace([w], [], []))
  }

  function Calls(story: Story): seq<Id>
    requires |story.trace.steps| <= |story.sent|
  {
    Submitted(story.sent, story.trace.steps)
  }

  lemma WentKeeps(w: World, w': World, o: Order, story: Story, now: real)
    requires WorldOk(w) && Linked(w.journal, w.oms) && Went(w, w', o, story, now)
    ensures WorldOk(w') && Linked(w'.journal, w'.oms) && JR.TablesEvolve(w.journal, w'.journal)
    ensures |story.trace.steps| <= |story.sent|
    ensures story.begun ==> o.id !in w.journal.rows && o.id in w'.journal.rows && o.id in w'.oms.orders
                            && w'.journal.rows[o.id].state in OPEN_STATES
                            && w'.oms.orders[o.id].id == o.id && w'.oms.orders[o.id].symbol == o.symbol
                            && w'.oms.orders[o.id].quantity == o.quantity
  {
    hide StepOk; hide WorldOk; hide JR.Evolves; hide Linked; hide JR.TablesEvolve; hide ParentsKnown;
    if story.begun {
      OpenedIsOk(w, story.start, o, now);
      StartKnows(w, story.start, o, now);
      LoopSparesRows(story.start, o.id, story.sent, story.trace);
      LoopKeepsParents(story.start, o.id, story.sent, story.trace);
      LoopKeepsWorldOk(story.start, o.id, story.sent, story.trace);
      LoopContainsOrders(story.start, o.id, story.sent, story.trace);
      EvolvingKeepsLinked(story.start.journal, w'.journal, story.start.oms, w'.oms, o.id);
      EvolvesTrans(w.journal, story.start.journal, w'.journal);
    } else {
      EvolvesRefl(w.journal);
    }
  }

  lemma StartKnows(w: World, start: World, o: Order, now: real)
    requires OpenedWorld(w, start, o, now) && Linked(start.journal, start.oms)
    ensures ParentsKnown(start.journal) && o.id in start.oms.orders && start.journal.rows[o.id].state in OPEN_STATES
    ensures var p := start.oms.orders[o.id]; p == o.(status := p.status, updatedAt := p.updatedAt)
  {
  }

  /** Ids that crossed the boundary: new to the journal before, in it after, under a parent and a
      client identity, and no two alike. */
  ghost predicate WriteAhead(t: J.Tables, t': J.Tables, parent: Id, calls: seq<Id>) {
    && (forall k | 0 <= k < |calls| ::
          && calls[k] !in t.rows && calls[k] in t'.rows
          && t'.rows[calls[k]].parentId == Some(parent) && t'.rows[calls[k]].clientId.Some?)
    && Distinct(calls)
  }

  lemma {:induction false} SubmittedComesFrom(children: seq<Order>, steps: seq<Progress>, i: nat) returns (k: nat)
    requires |steps| <= |children| && i < |Submitted(children, steps)|
    ensures k < |steps| && steps[k].called && children[k].id == Submitted(children, steps)[i]
  {
    var last := |steps| - 1;
    if i < |Submitted(children, steps[..last])| {
      k := SubmittedComesFrom(children, steps[..last], i);
    } else {
      k := last;
    }
  }

  lemma {:induction false} SubmittedAreDistinct(children: seq<Order>, steps: seq<Progress>)
    requires |steps| <= |children|
    requires forall j, k | 0 <= j < k < |steps| && steps[j].called && steps[k].called ::
             children[j].id != children[k].id
    ensures Distinct(Submitted(children, steps))
  {
    if steps != [] {
      var last := |steps| - 1;
      var before := Submitted(children, steps[..last]);
      SubmittedAreDistinct(children, steps[..last]);
      var s := Submitted(children, steps);
      forall i, j | 0 <= i < j < |s| ensures s[i] != s[j] {
        if j < |before| {
          assert s[i] == before[i] && s[j] == before[j];
        } else {
          var k := SubmittedComesFrom(children, steps[..last], i);
          assert s[i] == children[k].id && s[j] == children[last].id;
          assert steps[k].called && steps[last].called;
        }
      }
    }
  }

  /** At most once, and write-ahead, as seen from the sequence of ids the broker was given. */
  lemma TraceIsWriteAhead(w: World, parent: Id, children: seq<Order>, trace: Trace)
    requires Traced(w, parent, children, trace)
    ensures WriteAhead(w.journal, Last(trace).journal, parent, Submitted(children, trace.steps))
  {
    hide StepOk;
    LoopSubmitsOnce(w, parent, children, trace);
    SubmittedAreDistinct(children, trace.steps);
    var calls := Submitted(children, trace.steps);
    forall i | 0 <= i < |calls|
      ensures calls[i] !in w.journal.rows && calls[i] in Last(trace).journal.rows
              && Last(trace).journal.rows[calls[i]].parentId == Some(parent)
              && Last(trace).journal.rows[calls[i]].clientId.Some? {
      var k := SubmittedComesFrom(children, trace.steps, i);
      assert Bound(Last(trace).journal, parent, children[k]);
    }
  }

  lemma WentWriteAhead(w: World, w': World, o: Order, story: Story, now: real)
    requires WorldOk(w) && Linked(w.journal, w.oms) && Went(w, w', o, story, now)
    ensures WriteAhead(w.journal, w'.journal, o.id, Calls(story))
  {
    hide StepOk; hide WorldOk; hide Linked;
    if story.begun {
      OpenedIsOk(w, story.start, o, now);
      TraceIsWriteAhead(story.start, o.id, story.sent, story.trace);
      assert JR.TablesEvolve(w.journal, story.start.journal);
    }
  }

  lemma WriteAheadLasts(t: J.Tables, t': J.Tables, t'': J.Tables, parent: Id, calls: seq<Id>)
    requires WriteAhead(t, t', parent, calls) && JR.TablesEvolve(t', t'')
    ensures WriteAhead(t, t'', parent, calls)
  {
    forall k | 0 <= k < |calls| ensures calls[k] in t''.rows && t''.rows[calls[k]].parentId == Some(parent)
                                        && t''.rows[calls[k]].clientId.Some? {
      assert JR.Evolves(t'.rows[calls[k]], t''.rows[calls[k]]);
    }
  }

  /** A run that reached no broker call changed nothing. */
  lemma UnsentChangesNothing(w: World, parent: Id, children: seq<Order>, trace: Trace)
    requires Traced(w, parent, children, trace) && Submitted(children, trace.steps) == []
    ensures Last(trace) == w
  {
    if trace.steps != [] {
      var last := |trace.steps| - 1;
      assert StepOk(trace.worlds[last], parent, children[last], trace.replies[last], trace.steps[last]);
      if last > 0 {
        FirstIsSubmitted(w, parent, children, trace);
      }
    }
  }

  lemma FirstIsSubmitted(w: World, parent: Id, children: seq<Order>, trace: Trace)
    requires Traced(w, parent, children, trace) && |trace.steps| > 1
    ensures Submitted(children, trace.steps) != []
  {
    assert StepOk(trace.worlds[0], parent, children[0], trace.replies[0], trace.steps[0]);
    FirstCallCounts(children, trace.steps);
  }

  lemma {:induction false} FirstCallCounts(children: seq<Order>, steps: seq<Progress>)
    requires 0 < |steps| <= |children| && steps[0].called
    ensures Submitted(children, steps) != []
  {
    if |steps| > 1 {
      FirstCallCounts(children, steps[..|steps| - 1]);
    }
  }

  // ----- What a successful attempt executed -----

  /** The plan: positive children that add up to the order, up to 1e-12; empty in exactly one case. */
  ghost predicate Planned(o: Order, volumes: Option<seq<real>>, children: seq<Order>) {
    && (forall k | 0 <= k < |children| :: children[k].quantity > 0.0)
    && 0.0 <= o.quantity - Sums.SumSeq(Slicing.ChildQuantities(children)) <= TOL_12
    && (children == [] <==> Slicing.NothingToSend(o, volumes))
    && (forall k | 0 <= k < |children| :: IsPart(o, children[k]))
  }

  /** A part of the order: numbered under its id and its client identity, and otherwise like it. */
  ghost predicate IsPart(o: Order, c: Order) {
    && c.id.ChildOf? && c.id.parent == o.id && c.quantity > 0.0
    && c.key == Some(ChildOf(if o.key.Some? && o.key != Some(Name("")) then o.key.value else o.id, c.id.index))
    && c.decision == o.decision && c.symbol == o.symbol && c.side == o.side && c.orderType == o.orderType
    && c.limitPrice == o.limitPrice && c.policy == o.policy && c.metadata == o.metadata
    && c.filled == o.filled && c.average == o.average
  }

  function FilledAmounts(rows: map<Id, J.Row>): map<Id, real> { map id | id in rows :: rows[id].filled }

  /** Distinct orders, each filled up to 1e-9 in the map, make up most of its sum. */
  lemma {:induction false} DistinctFillsAddUp(m: map<Id, real>, children: seq<Order>)
    requires forall id | id in m :: m[id] >= 0.0
    requires forall k | 0 <= k < |children| :: children[k].id in m && m[children[k].id] >= children[k].quantity - TOL_9
    requires forall j, k | 0 <= j < k < |children| :: children[j].id != children[k].id
    ensures Sums.Total(m) >= Sums.SumSeq(Slicing.ChildQuantities(children)) - |children| as real * TOL_9
  {
    if children == [] {
      Sums.TotalNonNegative(m);
    } else {
      var last := |children| - 1;
      var id := children[last].id;
      Sums.TotalRemove(m, id);
      DistinctFillsAddUp(m - {id}, children[..last]);
      assert Slicing.ChildQuantities(children)[..last] == Slicing.ChildQuantities(children[..last]);
      assert |children| as real * TOL_9 == last as real * TOL_9 + TOL_9;
    }
  }

  /** The amount executed, against the amount asked for, after n children. */
  ghost predicate FullyExecuted(quantity: real, filled: real, n: nat) {
    && quantity - TOL_12 - n as real * TOL_9 - TOL_9 * Max(1.0, Abs(filled)) <= filled
    && filled <= quantity + n as real * TOL_12
  }

  lemma ThroughIsExecuted(w: World, w': World, o: Order, story: Story, volumes: Option<seq<real>>, now: real,
                          children: map<Id, J.Row>)
    requires WorldOk(w) && Linked(w.journal, w.oms) && Went(w, w', o, story, now) && story.begun
    requires RanThrough(story.sent, story.trace) && Planned(o, volumes, story.sent)
    requires children == map id | id in w'.journal.rows && w'.journal.rows[id].parentId == Some(o.id) ::
             w'.journal.rows[id]
    requires forall id | id in children :: children[id].state == J.Filled
    requires o.id in w'.oms.orders
    requires Abs(Sums.Total(FilledAmounts(children)) - w'.oms.orders[o.id].filled)
             <= TOL_9 * Max(1.0, Abs(w'.oms.orders[o.id].filled))
    ensures FullyExecuted(o.quantity, w'.oms.orders[o.id].filled, |story.sent|)
  {
    hide StepOk; hide Linked; hide OpenedWorld;
    ChildrenAreFilled(w, w', o, story, now, children);
    DistinctFillsAddUp(FilledAmounts(children), story.sent);
    ExecutedWithin(w, w', o, story, now);
  }

  lemma ExecutedWithin(w: World, w': World, o: Order, story: Story, now: real)
    requires WorldOk(w) && Linked(w.journal, w.oms) && Went(w, w', o, story, now) && story.begun
    requires RanThrough(story.sent, story.trace)
    ensures o.id in w'.oms.orders && w'.oms.orders[o.id].filled <= o.quantity + |story.sent| as real * TOL_12
  {
    hide StepOk;
    WentKeeps(w, w', o, story, now);
    LoopAccounts(story.start, o.id, story.sent, story.trace);
    assert |Firsts(FillsOf(o.id, story.trace))| as real * TOL_12 <= |story.sent| as real * TOL_12;
  }

  lemma ChildrenAreFilled(w: World, w': World, o: Order, story: Story, now: real, children: map<Id, J.Row>)
    requires WorldOk(w) && Linked(w.journal, w.oms) && Went(w, w', o, story, now) && story.begun
    requires RanThrough(story.sent, story.trace)
    requires children == map id | id in w'.journal.rows && w'.journal.rows[id].parentId == Some(o.id) ::
             w'.journal.rows[id]
    requires forall id | id in children :: children[id].state == J.Filled
    ensures forall id | id in children :: children[id].filled >= 0.0
    ensures forall k | 0 <= k < |story.sent| ::
              story.sent[k].id in children && children[story.sent[k].id].filled >= story.sent[k].quantity - TOL_9
    ensures forall j, k | 0 <= j < k < |story.sent| :: story.sent[j].id != story.sent[k].id
  {
    hide StepOk; hide Linked; hide OpenedWorld; hide Bound;
    forall k | 0 <= k < |story.sent|
      ensures story.trace.steps[k].called && story.sent[k].id in children
              && children[story.sent[k].id].filled >= story.sent[k].quantity - TOL_9 {
      LoopJournals(story.start, o.id, story.sent, story.trace, k);
    }
    LoopSubmitsOnce(story.start, o.id, story.sent, story.trace);
    LoopKeepsWorldOk(story.start, o.id, story.sent, story.trace);
  }

  // ----- Glue between the steps of one execution -----

  /** replace(child, venue=..., status=WORKING), for each child. */
  function Routed(children: seq<Order>, venue: string): (r: seq<Order>)
    ensures |r| == |children|
  {
    seq(|children|, k requires 0 <= k < |children| => children[k].(venue := Some(venue), status := Working))
  }

  lemma RoutedIsPlanned(o: Order, volumes: Option<seq<real>>, children: seq<Order>, venue: string)
    requires Planned(o, volumes, children)
    ensures Planned(o, volumes, Routed(children, venue))
  {
    assert Slicing.ChildQuantities(Routed(children, venue)) == Slicing.ChildQuantities(children);
  }

  lemma BeginStory(w: World, w': World, o: Order, now: real)
    requires WorldOk(w) && Linked(w.journal, w.oms) && OpenedWorld(w, w', o, now)
    ensures Went(w, w', o, Story(true, w', [], Trace([w'], [], [])), now)
    ensures Calls(Story(true, w', [], Trace([w'], [], []))) == []
  {
    OpenedIsOk(w, w', o, now);
  }

  lemma OpenedIsFresh(w: World, w': World, o: Order, now: real)
    requires OpenedWorld(w, w', o, now)
    ensures StoredFresh(w.oms, w'.oms, o)
  {
  }

  lemma StillOpened(w: World, w': World, w'': World, o: Order, now: real)
    requires OpenedWorld(w, w', o, now) && w''.journal == w'.journal && StoredFresh(w.oms, w''.oms, o)
    ensures OpenedWorld(w, w'', o, now)
  {
  }

  /** At the end of a run that went through, the order in hand is the one the OMS holds. */
  lemma EndsStored(start: World, parent: Id, sent: seq<Order>, trace: Trace)
    requires Traced(start, parent, sent, trace) && RanThrough(sent, trace)
    ensures sent == [] ==> Last(trace) == start
    ensures sent != [] ==> parent in Last(trace).oms.orders
                           && trace.steps[|sent| - 1].outcome.value.0 == Last(trace).oms.orders[parent]
  {
    if sent != [] {
      LoopStores(start, parent, sent, trace);
    }
  }

  lemma LoopStory(w: World, start: World, w': World, o: Order, sent: seq<Order>, trace: Trace, now: real)
    requires OpenedWorld(w, start, o, now) && Traced(start, o.id, sent, trace) && Last(trace) == w'
    ensures Went(w, w', o, Story(true, start, sent, trace), now) && |trace.steps| <= |sent|
  {
  }

  /** Freezing changes at most the status and the time stamp of the one order. */
  lemma FreezingMeans(m: O.Oms, id: Id, now: real)
    requires O.OmsOk(m) && id in m.orders
    ensures O.Freeze(m, id, now).Ok?
    ensures var m' := O.Freeze(m, id, now).value.0;
            id in m'.orders
              && m'
                 == m.(orders := m.orders[id := m.orders[id].(status := m'.orders[id].status,
                                                              updatedAt := m'.orders[id].updatedAt)])
  {
    assert m.orders[id := m.orders[id]] == m.orders;
  }

  lemma SameOrderKeepsOk(m: O.Oms, m': O.Oms, id: Id)
    requires O.OmsOk(m) && O.FilledNonNegative(m) && id in m.orders && id in m'.orders
    requires m'
             == m.(orders := m.orders[id := m.orders[id].(status := m'.orders[id].status,
                                                          updatedAt := m'.orders[id].updatedAt)])
    ensures O.OmsOk(m') && O.FilledNonNegative(m')
  {
  }

  lemma FreezingKeeps(w: World, id: Id, now: real)
    requires WorldOk(w) && Linked(w.journal, w.oms) && id in w.oms.orders
    ensures O.Freeze(w.oms, id, now).Ok?
    ensures var m := O.Freeze(w.oms, id, now).value.0;
            && WorldOk(w.(oms := m)) && Linked(w.journal, m) && id in m.orders
            && m.orders[id] == w.oms.orders[id].(status := m.orders[id].status, updatedAt := m.orders[id].updatedAt)
  {
    hide O.Freeze; hide JR.TablesOk; hide ParentsKnown;
    FreezingMeans(w.oms, id, now);
    SameOrderKeepsOk(w.oms, O.Freeze(w.oms, id, now).value.0, id);
    hide O.OmsOk; hide O.FilledNonNegative;
  }

  lemma UpdatingKeeps(w: World, id: Id, state: J.State, venue: Option<Id>, error: Option<string>, now: real)
    requires WorldOk(w) && Linked(w.journal, w.oms)
    requires J.Update(w.journal, id, state, venue, error, now).Ok?
    ensures var t := J.Update(w.journal, id, state, venue, error, now).value;
            WorldOk(w.(journal := t)) && Linked(t, w.oms) && JR.TablesEvolve(w.journal, t)
  {
    JR.UpdateEvolves(w.journal, id, state, venue, error, now);
  }

  /** The rows once a parent that was never submitted has been cancelled. */
  function Withdrawn(rows: map<Id, J.Row>, id: Id, now: real): map<Id, J.Row> {
    if id in rows && rows[id].state == J.Submitting
    then rows[id := rows[id].(state := J.Cancelled, lastError := None, updatedAt := now)]
    else rows
  }

  lemma WithdrawingIsAllowed(t: J.Tables, id: Id, now: real)
    requires id in t.rows && t.rows[id].state == J.Submitting
    ensures J.Update(t, id, J.Cancelled, None, None, now) == Ok(t.(rows := Withdrawn(t.rows, id, now)))
  {
  }

  /** Marking the parent UNKNOWN succeeds from every state its row passes through in the loop. */
  lemma DoubtIsAllowed(t: J.Tables, id: Id, now: real)
    requires id in t.rows && t.rows[id].state in OPEN_STATES
    ensures J.Update(t, id, J.Unknown, None, Some(""), now).Ok?
    ensures J.Update(t, id, J.Unknown, None, Some(""), now).value.rows[id].state == J.Unknown
  {
  }

  /** The check of the journal's children against the order the OMS holds. */
  ghost predicate DurablyMatched(children: map<Id, J.Row>, current: Order) {
    && children != map[]
    && (forall id | id in children :: children[id].state == J.Filled)
    && Abs(Sums.Total(FilledAmounts(children)) - current.filled) <= TOL_9 * Max(1.0, Abs(current.filled))
  }

  lemma {:induction false} ThroughSubmitsAll(children: seq<Order>, steps: seq<Progress>)
    requires |steps| <= |children| && forall k | 0 <= k < |steps| :: steps[k].called
    ensures |Submitted(children, steps)| == |steps|
  {
    if steps != [] {
      ThroughSubmitsAll(children, steps[..|steps| - 1]);
    }
  }

  /** A failure before the first broker call leaves nothing behind that needs recovery. */
  lemma WithdrawnIsResolved(w: World, w': World, o: Order, story: Story, now: real)
    requires WorldOk(w) && Linked(w.journal, w.oms) && Went(w, w', o, story, now) && Calls(story) == []
    requires Clean(w.journal.rows)
    ensures Clean(Withdrawn(w'.journal.rows, o.id, now))
  {
    hide StepOk; hide Linked; hide WorldOk; hide Traced;
    if story.begun {
      UnsentChangesNothing(story.start, o.id, story.sent, story.trace);
      assert w'.journal.rows == w.journal.rows[o.id := J.NewRow(now, None, Some(o.ClientId()), Some(o.quantity))];
    }
  }

  /** No row names a parent the journal does not have, so a new parent starts without children. */
  lemma NothingSentNothingDurable(w: World, w': World, o: Order, story: Story, now: real)
    requires WorldOk(w) && Linked(w.journal, w.oms) && Went(w, w', o, story, now) && story.begun && Calls(story) == []
    ensures forall id | id in w'.journal.rows :: w'.journal.rows[id].parentId != Some(o.id)
  {
    hide StepOk; hide WorldOk; hide Traced;
    UnsentChangesNothing(story.start, o.id, story.sent, story.trace);
    assert w'.journal.rows == w.journal.rows[o.id := J.NewRow(now, None, Some(o.ClientId()), Some(o.quantity))];
    assert o.id !in w.journal.rows;
  }

  lemma ThroughCalls(start: World, parent: Id, sent: seq<Order>, trace: Trace)
    requires Traced(start, parent, sent, trace) && RanThrough(sent, trace)
    ensures |Submitted(sent, trace.steps)| == |sent|
  {
    forall k | 0 <= k < |sent| ensures trace.steps[k].called {
      assert StepOk(trace.worlds[k], parent, sent[k], trace.replies[k], trace.steps[k]);
    }
    ThroughSubmitsAll(sent, trace.steps);
  }

  /** Which exits can follow which broker calls. The empty plan is the one way past the loop
      without any. */
  ghost predicate Sent(exit: Exit, o: Order, volumes: Option<seq<real>>, calls: seq<Id>) {
    && (exit in {Gated, ReserveRefused, SetupFailed} ==> calls == [])
    && (exit in {LoopFailed, Unreconciled, CommitRefused, AnalyticsFailed, Returned} ==> calls != [])
    && (calls == [] && exit == DurableMismatch ==> Slicing.NothingToSend(o, volumes))
    && (Slicing.NothingToSend(o, volumes) ==> calls == [])
  }

  ghost predicate Clean(rows: map<Id, J.Row>) {
    forall id | id in rows :: !J.Unresolved(rows[id])
  }

  /** What an exit after the reservation leaves in the journal: nothing to recover if nothing was
      sent; otherwise something that blocks new exposure, unless the parent was already FILLED. */
  ghost predicate Left(exit: Exit, rows: map<Id, J.Row>, id: Id) {
    && (exit == SetupFailed ==> Clean(rows))
    && (exit in {LoopFailed, Unreconciled, DurableMismatch, CommitRefused} ==>
          !Clean(rows) || (id in rows && rows[id].state == J.Filled))
  }

  lemma FailureFacts(w: World, w': World, o: Order, story: Story, volumes: Option<seq<real>>, now: real)
    requires WorldOk(w) && Linked(w.journal, w.oms) && Went(w, w', o, story, now) && Clean(w.journal.rows)
    requires story.sent != [] ==> Planned(o, volumes, story.sent)
    ensures Sent(if Calls(story) != [] then LoopFailed else SetupFailed, o, volumes, Calls(story))
    ensures Calls(story) != [] ==> Left(LoopFailed, w'.journal.rows, o.id)
    ensures Calls(story) == [] ==> Left(SetupFailed, Withdrawn(w'.journal.rows, o.id, now), o.id)
  {
    hide StepOk; hide Linked; hide WorldOk; hide OpenedWorld; hide Traced; hide JR.TablesEvolve; hide Withdrawn;
    WentKeeps(w, w', o, story, now);
    if Calls(story) == [] {
      WithdrawnIsResolved(w, w', o, story, now);
    } else {
      assert story.begun;
      assert w'.journal.rows[o.id].state != J.Filled ==> J.Unresolved(w'.journal.rows[o.id]);
    }
  }

  lemma EndFacts(w: World, w': World, o: Order, story: Story, volumes: Option<seq<real>>, now: real,
                 children: map<Id, J.Row>)
    requires WorldOk(w) && Linked(w.journal, w.oms) && Went(w, w', o, story, now) && story.begun
    requires RanThrough(story.sent, story.trace) && Planned(o, volumes, story.sent) && o.id in w'.oms.orders
    requires children == map id | id in w'.journal.rows && w'.journal.rows[id].parentId == Some(o.id) ::
             w'.journal.rows[id]
    ensures |Calls(story)| == |story.sent|
    ensures story.sent == [] <==> Slicing.NothingToSend(o, volumes)
    ensures DurablyMatched(children, w'.oms.orders[o.id]) ==>
              story.sent != [] && FullyExecuted(o.quantity, w'.oms.orders[o.id].filled, |Calls(story)|)
  {
    hide StepOk; hide Linked; hide WorldOk; hide OpenedWorld; hide FullyExecuted;
    ThroughCalls(story.start, o.id, story.sent, story.trace);
    if story.sent == [] {
      NothingSentNothingDurable(w, w', o, story, now);
      assert children == map[];
    } else if DurablyMatched(children, w'.oms.orders[o.id]) {
      ThroughIsExecuted(w, w', o, story, volumes, now, children);
    }
  }

  lemma SentFacts(exit: Exit, o: Order, volumes: Option<seq<real>>, calls: seq<Id>, before: map<Id, J.Row>,
                  rows: map<Id, J.Row>)
    requires calls == [] <==> Slicing.NothingToSend(o, volumes)
    requires exit in {Unreconciled, DurableMismatch, CommitRefused, AnalyticsFailed, Returned}
    requires exit in {Unreconciled, CommitRefused, AnalyticsFailed, Returned} ==> calls != []
    requires exit in {Unreconciled, DurableMismatch} ==> o.id in rows && rows[o.id].state == J.Unknown
    requires exit == CommitRefused ==> rows == before && o.id in before && before[o.id].state in OPEN_STATES
    ensures Sent(exit, o, volumes, calls) && Left(exit, rows, o.id)
  {
    assert exit in {Unreconciled, DurableMismatch, CommitRefused} && rows[o.id].state != J.Filled
           ==> J.Unresolved(rows[o.id]);
  }

  /** How one call went: the broker's quote, the ids it was asked to submit, the run of the loop, and
      the order the OMS held at the end. */
  datatype Tale = Tale(exit: Exit, quoted: Outcome<V.Quote>, calls: seq<Id>, trace: Trace, current: Order)

  lemma NothingIsWriteAhead(t: J.Tables, parent: Id)
    ensures WriteAhead(t, t, parent, [])
  {
  }

  lemma UnsentIsSent(o: Order, volumes: Option<seq<real>>, rows: map<Id, J.Row>)
    ensures Sent(Gated, o, volumes, []) && Sent(ReserveRefused, o, volumes, [])
    ensures Left(Gated, rows, o.id) && Left(ReserveRefused, rows, o.id)
  {
  }

  lemma AttachedIsGovernable(o: Order, config: Config, quote: V.Quote, terms: Terms)
    requires GatesOpen(o, config, quote, terms, {}) && o.filled == 0.0 && o.average.None? && config.hash != ""
    ensures Governable(Attach(o, config))
  {
  }

  lemma HoldsTheSame(t: A.Tables, o: Order, governed: Order, scope: A.Scope, terms: Terms, now: real)
    requires governed == o.(metadata := governed.metadata)
    ensures Hold(t, governed, scope, terms, now) == Hold(t, o, scope, terms, now)
  {
    hide A.Reserve;
    assert governed.id == o.id && governed.symbol == o.symbol && Requested(governed, terms) == Requested(o, terms);
    assert map[governed.symbol := Requested(governed, terms)] == map[o.symbol := Requested(o, terms)];
  }

  lemma SentTheSame(exit: Exit, o: Order, governed: Order, volumes: Option<seq<real>>, calls: seq<Id>)
    requires governed == o.(metadata := governed.metadata) && Sent(exit, governed, volumes, calls)
    ensures Sent(exit, o, volumes, calls)
  {
  }
}
