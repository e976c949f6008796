/** The whole of execute against the simulated venue: exactly how a new, admitted order ends. */
module SimulatedExecution {
  import opened Common
  import opened Orders
  import opened ExecutionExits
  import opened ExecutionLoop
  import opened ExecutionProtocol
  import opened ExecutionSpec
  import opened Identity
  import opened SimulatedRun
  import A = AdmissionSpec
  import E = StateEvents
  import J = JournalSpec
  import JR = JournalRuns
  import O = OmsSpec
  import Slicing
  import V = Venue

  // ----- The coordinator's loop is the simulated loop -----

  /** The venue's books when child k is submitted. */
  function BooksAt(s: Sim, b: V.Books, k: nat): V.Books
    requires k <= |s.children|
  {
    if k == 0 then b else Serve(s, BooksAt(s, b, k - 1), k - 1).0
  }

  /** The broker's answers in the trace are those of the simulated venue. */
  ghost predicate Served(s: Sim, b: V.Books, trace: Trace) {
    && |trace.replies| <= |s.children|
    && forall k | 0 <= k < |trace.replies| :: trace.replies[k] == Serve(s, BooksAt(s, b, k), k).1
  }

  ghost predicate LoopTrace(s: Sim, w: World, b: V.Books, trace: Trace) {
    && Traced(w, s.order.id, s.children, trace)
    && Faithful(s.order.id, s.children, trace, s.quote, s.fingerprint, s.now)
    && Served(s, b, trace)
    && (RanThrough(s.children, trace) || (trace.steps != [] && trace.steps[|trace.steps| - 1].outcome.Raised?))
  }

  lemma TraceRuns(s: Sim, w: World, b: V.Books, trace: Trace, k: nat)
    requires LoopTrace(s, w, b, trace) && k < |trace.steps|
    ensures |trace.replies| == |trace.steps| <= |s.children| && |trace.worlds| == |trace.steps| + 1
    ensures Running(s, trace.worlds[k])
    ensures trace.steps[k] == ChildOutcome(s, trace.worlds[k], BooksAt(s, b, k), k)
            && trace.worlds[k + 1] == trace.steps[k].world
    ensures trace.steps[k].outcome.Ok? ==> trace.steps[k].called
  {
    hide ChildStep; hide WorldOk; hide RowsContained; hide OrdersContained; hide Bound; hide Serve; hide BooksAt;
    hide RanThrough;
    assert StepOk(trace.worlds[k], s.order.id, s.children[k], trace.replies[k], trace.steps[k]);
    if k > 0 {
      assert StepOk(trace.worlds[k - 1], s.order.id, s.children[k - 1], trace.replies[k - 1], trace.steps[k - 1]);
    }
    assert StepIs(s.order.id, s.children, trace, k, s.quote, s.fingerprint, s.now);
  }

  lemma TraceAdvances(s: Sim, w: World, b: V.Books, trace: Trace, n: nat)
    requires LoopTrace(s, w, b, trace) && n < |trace.steps| <= |s.children| && |trace.worlds| == |trace.steps| + 1
    requires forall k | 0 <= k <= n :: trace.steps[k].outcome.Ok?
    ensures Advance(s, Stage(trace.worlds[n], BooksAt(s, b, n), Ok(Verdicts(trace.steps[..n]))), n)
         == Stage(trace.worlds[n + 1], BooksAt(s, b, n + 1), Ok(Verdicts(trace.steps[..n + 1])))
  {
    TraceRuns(s, w, b, trace, n);
    VerdictsGrow(trace.steps, n);
    hide LoopTrace; hide ChildOutcome; hide Serve; hide Running; hide Verdicts;
  }

  lemma VerdictsGrow(steps: seq<Progress>, n: nat)
    requires n < |steps| && forall k | 0 <= k <= n :: steps[k].outcome.Ok?
    ensures Verdicts(steps[..n + 1]) == Verdicts(steps[..n]) + [steps[n].outcome.value.1]
  {
    var before := steps[..n];
    assert steps[..n + 1] == before + [steps[n]];
  }

  /** As long as nothing raises, world, books and verdicts go the same way. */
  lemma {:induction false} TraceIsLoop(s: Sim, w: World, b: V.Books, trace: Trace, n: nat)
    requires LoopTrace(s, w, b, trace) && n <= |trace.steps| <= |s.children| && |trace.worlds| == |trace.steps| + 1
    requires forall k | 0 <= k < n :: trace.steps[k].outcome.Ok?
    ensures Loop(s, w, b, n) == Stage(trace.worlds[n], BooksAt(s, b, n), Ok(Verdicts(trace.steps[..n])))
  {
    hide ChildOutcome; hide Serve; hide Running; hide Advance; hide Faithful; hide RanThrough; hide StepOk; hide Served;
    if n == 0 {
      TraceBegins(s, w, b, trace);
    } else {
      hide LoopTrace; hide Verdicts; hide BooksAt;
      TraceIsLoop(s, w, b, trace, n - 1);
      TraceAdvances(s, w, b, trace, n - 1);
    }
  }

  lemma TraceBegins(s: Sim, w: World, b: V.Books, trace: Trace)
    requires LoopTrace(s, w, b, trace)
    ensures trace.worlds != []
            && Loop(s, w, b, 0) == Stage(trace.worlds[0], BooksAt(s, b, 0), Ok(Verdicts(trace.steps[..0])))
  {
    hide StepOk; hide Faithful; hide Served; hide RanThrough;
    assert trace.steps[..0] == [] && Verdicts([]) == [];
  }

  lemma {:induction false} RaisedStays(s: Sim, w: World, b: V.Books, m: nat, n: nat)
    requires m <= n <= |s.children| && Loop(s, w, b, m).verdicts.Raised?
    ensures Loop(s, w, b, n) == Loop(s, w, b, m)
  {
    hide Advance;
    if m < n {
      RaisedStays(s, w, b, m, n - 1);
    }
  }

  /** The loop of the coordinator goes through exactly when the simulated one does, and then both end
      in the same world. */
  lemma TraceEnds(s: Sim, w: World, b: V.Books, trace: Trace)
    requires LoopTrace(s, w, b, trace)
    ensures RanThrough(s.children, trace) <==> Loop(s, w, b, |s.children|).verdicts.Ok?
    ensures RanThrough(s.children, trace) ==>
              trace.worlds != [] && Loop(s, w, b, |s.children|).world == Last(trace)
              && Loop(s, w, b, |s.children|).verdicts == Ok(Verdicts(trace.steps))
  {
    hide ChildOutcome; hide Serve; hide Running; hide Faithful; hide Served;
    if RanThrough(s.children, trace) {
      TraceIsLoop(s, w, b, trace, |s.children|);
      assert trace.steps[..|s.children|] == trace.steps;
    } else {
      var n := |trace.steps| - 1;
      TraceRuns(s, w, b, trace, n);
      TraceIsLoop(s, w, b, trace, n);
      RaisedStays(s, w, b, n + 1, |s.children|);
    }
  }

  // ----- The set-up of a new order succeeds -----

  /** The order's backend stream after n events, before any fill. */
  ghost predicate Told(log: E.Log, o: Order, fingerprint: Id, n: nat) {
    var stream := E.StreamOf(log, E.Backend, o.id);
    && E.StreamOk(stream) && (stream == [] <==> n == 0)
    && (n > 0 ==>
          var last := stream[|stream| - 1];
          last.sequence == n - 1 && last.decision == o.decision && last.fingerprint == fingerprint
            && last.filled == 0.0)
  }

  predicate Named(o: Order, fingerprint: Id) {
    !Blank(o.id) && !Blank(o.decision) && !Blank(fingerprint) && o.filled == 0.0 && o.average.None?
  }

  lemma TellsNext(log: E.Log, o: Order, x: Order, fingerprint: Id, n: nat)
    requires Named(o, fingerprint) && Told(log, o, fingerprint, n)
             && x == o.(status := x.status, updatedAt := x.updatedAt)
    ensures E.Record(log, BackendEvent(x, n, fingerprint)).Ok?
    ensures Told(E.Record(log, BackendEvent(x, n, fingerprint)).value, o, fingerprint, n + 1)
  {
    var stream, e := E.StreamOf(log, E.Backend, o.id), BackendEvent(x, n, fingerprint).entry;
    if n > 0 {
      E.LatestIsLast(stream);
    }
    E.FindMeans(stream, n);
    assert E.Find(stream, n).None?;
    E.AppendKeepsOk(stream, e);
  }

  /** The order is stored, untouched but for its status, and n events have been told. */
  ghost predicate Standing(w: World, o: Order, status: OrderStatus, fingerprint: Id, n: nat) {
    && o.id in w.oms.orders && Told(w.events, o, fingerprint, n)
    && w.oms.orders[o.id] == o.(status := status, updatedAt := w.oms.orders[o.id].updatedAt)
  }

  lemma AdvanceWorks(w: World, o: Order, from: OrderStatus, to: OrderStatus, fingerprint: Id, n: nat, now: real)
    requires Named(o, fingerprint) && Standing(w, o, from, fingerprint, n) && to in O.Allowed(from)
    ensures var after := Advancing(w, o.id, to, n, fingerprint, now);
            && after.1 == Ok(o.(status := to, updatedAt := now)) && Standing(after.0, o, to, fingerprint, n + 1)
  {
    TellsNext(w.events, o, o.(status := to, updatedAt := now), fingerprint, n);
    hide Told; hide E.Record; hide Named;
  }

  lemma OpeningWorks(w: World, o: Order, fingerprint: Id, now: real)
    requires WorldOk(w) && Linked(w.journal, w.oms) && Governable(o) && Named(o, fingerprint)
    requires BeginParent(w.journal, o, now).Ok? && Told(w.events, o, fingerprint, 0)
    ensures var after := Opening(w, o, fingerprint, now);
            && after.1 && after.2.Ok? && Standing(after.0, o, New, fingerprint, 1)
  {
    NewToTheJournalIsNewToTheOms(w.journal, w.oms, o, now);
    TellsNext(w.events, o, o.(status := New, updatedAt := now), fingerprint, 0);
    hide Told; hide E.Record; hide Named; hide Linked; hide JR.TablesOk; hide O.Submit; hide BeginParent;
  }

  lemma PlanningWorks(w: World, o: Order, quote: V.Quote, terms: Terms, config: Config, fingerprint: Id, now: real)
    requires Named(o, fingerprint) && Standing(w, o, New, fingerprint, 1)
    requires terms.routable && quote.venue in config.venues
    requires Slicing.PlanOf(o.(status := Routing, updatedAt := now), terms.volumes).Ok?
    ensures var after := Planning(w, o.id, quote, terms, config, fingerprint, now);
            && after.1 == Ok((o.(status := OrderStatus.Working, updatedAt := now),
                              Slicing.PlanOf(o.(status := Routing, updatedAt := now), terms.volumes).value))
            && Standing(after.0, o, OrderStatus.Working, fingerprint, 4)
  {
    hide Advancing; hide Standing; hide Named; hide Slicing.PlanOf;
    AdvanceWorks(w, o, New, Validated, fingerprint, 1, now);
    var validated := Advancing(w, o.id, Validated, 1, fingerprint, now);
    AdvanceWorks(validated.0, o, Validated, Routing, fingerprint, 2, now);
    var routing := Advancing(validated.0, o.id, Routing, 2, fingerprint, now);
    AdvanceWorks(routing.0, o, Routing, OrderStatus.Working, fingerprint, 3, now);
  }

  // ----- The whole call -----

  /** A call of execute and the venue it is made to. `quote` is what the venue said when it was asked,
      and `price` what it fills at. The repository's venue fills at the price it is asked for; a broker
      may do otherwise. */
  datatype Setting = Setting(order: Order, terms: Terms, config: Config, market: V.Market, quote: V.Quote, price: real,
                             fingerprint: Id, now: real)
  {
    function Governed(): Order { Attach(order, config) }

    function Plan(): Outcome<seq<Order>> {
      Slicing.PlanOf(Governed().(status := Routing, updatedAt := now), terms.volumes)
    }

    function Sim(): Sim
      requires Plan().Ok?
    {
      SimulatedRun.Sim(market, Governed(), Routed(Plan().value, market.name), quote, price, fingerprint, now)
    }
  }

  /** Neither the journal nor the event stream has met the order. */
  ghost predicate NewOrder(c: Setting, w: World) {
    BeginParent(w.journal, c.order, c.now).Ok? && E.StreamOf(w.events, E.Backend, c.order.id) == []
  }

  /** Nor have the journal and the venue met its children. */
  ghost predicate NewTo(c: Setting, w: World, books: V.Books) {
    && NewOrder(c, w)
    && (forall k: nat ::
        ChildOf(c.order.id, k) !in w.journal.rows && ClientFree(w.journal.rows, ChildOf(c.order.ClientId(), k)))
    && (forall k: nat :: VenueRef(c.market.name, ChildOf(c.order.id, k)) !in books.submitted)
    && (forall k: nat :: VenueRef(c.market.name, ChildOf(c.order.id, k)) !in books.fills)
  }

  /** There is a plan, and the venue has the liquidity for it and fills at the price. */
  ghost predicate Tradable(c: Setting) {
    && c.Plan().Ok? && c.Plan().value != [] && c.terms.routable && Workable(c)
    && forall k | 0 <= k < |c.Plan().value| :: c.Plan().value[k].quantity <= c.market.available
  }

  /** The venue fills no order for nothing, no buy below its ask and no sale above its bid. */
  predicate Workable(c: Setting) {
    && c.price > 0.0 && (c.order.side == Buy ==> c.price >= c.market.ask)
    && (c.order.side == Sell ==> c.price <= c.market.bid)
  }

  ghost predicate PastTheGates(c: Setting, w: World) {
    && c.quote.venue == c.market.name
    && WorldOk(w) && Linked(w.journal, w.oms) && c.config.hash != "" && Named(c.order, c.fingerprint)
    && GateVerdict(c.order, c.config, Ok(c.quote), c.terms, UnresolvedIn(w.journal)).Ok?
  }

  lemma PlanIsOk(c: Setting)
    requires Tradable(c) && Named(c.order, c.fingerprint)
    ensures c.order.quantity > 0.0 && PlanOk(c.Sim())
    ensures forall k | 0 <= k < |c.Sim().children| ::
              exists i: nat :: && c.Sim().children[k].id == ChildOf(c.order.id, i)
                               && c.Sim().children[k].ClientId() == ChildOf(c.order.ClientId(), i)
  {
    var routed, children := c.Governed().(status := Routing, updatedAt := c.now), c.Plan().value;
    Slicing.PlanFacts(routed, c.terms.volumes);
    Slicing.ScheduleFacts(routed, c.terms.volumes);
    SlicedPlanIsOk(c.market, routed, children, c.quote, c.price, c.fingerprint, c.now);
    SamePlanOk(SimulatedRun.Sim(c.market, routed, Routed(children, c.market.name), c.quote, c.price, c.fingerprint,
                                c.now),
               c.Sim());
    forall k | 0 <= k < |c.Sim().children|
      ensures exists i: nat :: && c.Sim().children[k].id == ChildOf(c.order.id, i)
                               && c.Sim().children[k].ClientId() == ChildOf(c.order.ClientId(), i)
    {
      assert children[k] == Slicing.ChildOrder(routed, children[k].id.index, children[k].quantity);
      assert c.Sim().children[k].id == ChildOf(c.order.id, children[k].id.index);
    }
  }

  lemma SamePlanOk(a: Sim, b: Sim)
    requires PlanOk(a) && b == a.(order := b.order)
             && b.order == a.order.(status := b.order.status, updatedAt := b.order.updatedAt)
    ensures PlanOk(b)
  {
    SameDone(a, b, |a.children|);
    forall k | 0 <= k < |b.children| ensures ChildOk(b, b.children[k]) {
      assert ChildOk(a, a.children[k]);
    }
  }

  lemma {:induction false} SameDone(a: Sim, b: Sim, n: nat)
    requires a.children == b.children && n <= |a.children|
    ensures Done(a, n) == Done(b, n)
  {
    if n > 0 {
      SameDone(a, b, n - 1);
    }
  }

  /** The set-up of a new order succeeds. */
  lemma SetUpGoes(c: Setting, w: World)
    requires PastTheGates(c, w) && NewOrder(c, w) && c.Plan().Ok? && c.terms.routable
    ensures var governed := c.Governed();
            var begun := Opening(w, governed, c.fingerprint, c.now);
            var planned := Planning(begun.0, governed.id, c.quote, c.terms, c.config, c.fingerprint, c.now);
            && begun.2.Ok? && begun.1
               && planned.1 == Ok((governed.(status := OrderStatus.Working, updatedAt := c.now), c.Plan().value))
            && OpenedWorld(w, planned.0, governed, c.now)
               && Standing(planned.0, governed, OrderStatus.Working, c.fingerprint, 4)
  {
    var governed := c.Governed();
    GatesAgree(c.order, c.config, Ok(c.quote), c.terms, UnresolvedIn(w.journal));
    AttachedIsGovernable(c.order, c.config, c.quote, c.terms);
    assert BeginParent(w.journal, governed, c.now) == BeginParent(w.journal, c.order, c.now);
    OpeningWorks(w, governed, c.fingerprint, c.now);
    OpeningFacts(w, governed, c.fingerprint, c.now);
    var begun := Opening(w, governed, c.fingerprint, c.now);
    PlanningWorks(begun.0, governed, c.quote, c.terms, c.config, c.fingerprint, c.now);
    PlanningFacts(w, begun.0, governed, c.quote, c.terms, c.config, c.fingerprint, c.now);
  }

  /** It leaves a world the loop can start from. */
  lemma SetUpWorks(c: Setting, w: World, books: V.Books)
    requires PastTheGates(c, w) && NewTo(c, w, books) && Tradable(c)
    ensures var governed := c.Governed();
            var begun := Opening(w, governed, c.fingerprint, c.now);
            var planned := Planning(begun.0, governed.id, c.quote, c.terms, c.config, c.fingerprint, c.now);
            && begun.2.Ok? && begun.1
               && planned.1 == Ok((governed.(status := OrderStatus.Working, updatedAt := c.now), c.Plan().value))
            && PlanOk(c.Sim()) && Running(c.Sim(), planned.0) && WorldAfter(c.Sim(), planned.0, 0)
               && BooksReady(c.Sim(), books, 0)
            && OpenedWorld(w, planned.0, governed, c.now)
            && c.order.id in planned.0.oms.orders && planned.0.oms.orders[c.order.id]
               == governed.(status := OrderStatus.Working, updatedAt := planned.0.oms.orders[c.order.id].updatedAt)
  {
    SetUpGoes(c, w);
    PlanIsOk(c);
    var begun := Opening(w, c.Governed(), c.fingerprint, c.now);
    var planned := Planning(begun.0, c.order.id, c.quote, c.terms, c.config, c.fingerprint, c.now);
    ToldIsEvents(c.Sim(), planned.0);
    ChildrenAreNew(c, w, books);
    OpenedIsReady(c.Sim(), w, planned.0);
  }

  lemma ToldIsEvents(s: Sim, w: World)
    requires Standing(w, s.order, OrderStatus.Working, s.fingerprint, 4)
    ensures EventsAfter(s, w.events, 0)
  {
  }

  lemma ChildrenAreNew(c: Setting, w: World, books: V.Books)
    requires NewTo(c, w, books) && Tradable(c) && Named(c.order, c.fingerprint)
    ensures BooksReady(c.Sim(), books, 0)
    ensures forall k | 0 <= k < |c.Sim().children| ::
              && c.Sim().children[k].id !in w.journal.rows && ClientFree(w.journal.rows, c.Sim().children[k].ClientId())
              && c.Sim().children[k].ClientId() != c.Sim().order.ClientId()
  {
    PlanIsOk(c);
    var s := c.Sim();
    forall k: nat | k < |s.children|
      ensures VenueIdOf(s, k) !in books.submitted && VenueIdOf(s, k) !in books.fills
      ensures s.children[k].id !in w.journal.rows && ClientFree(w.journal.rows, s.children[k].ClientId())
      ensures s.children[k].ClientId() != s.order.ClientId()
    {
      var i: nat :| s.children[k].id == ChildOf(c.order.id, i)
        && s.children[k].ClientId() == ChildOf(c.order.ClientId(), i);
      SelfChild(c.order.ClientId(), i);
    }
  }

  /** What the exposure ledger holds for the order when the loop ends. */
  ghost predicate HeldFor(s: Sim, held: A.Tables, scope: A.Scope, referencePrice: real) {
    && s.order.id in held.reservations
    && var r := held.reservations[s.order.id];
    && r.scope == scope && r.portfolio == Budget(s, referencePrice)
    && r.symbols == map[s.order.symbol := Budget(s, referencePrice)]
  }

  /** The end after a loop that went through: the commit or its refusal, and then the report, unless
      the quoted arrival price is one cost analysis refuses. */
  ghost predicate Concludes(s: Sim, held: A.Tables, scope: A.Scope, referencePrice: real, quote: V.Quote, end: Ending) {
    if Cost(s) > Budget(s, referencePrice) then end.exit == CommitRefused && end.result.Raised? && end.exposure == held
    else
      && A.Get(end.exposure.exposure, scope) == A.Get(held.exposure, scope) + Cost(s)
      && end.exposure.reservations == held.reservations - {s.order.id}
      && if Arrival(s.order, quote) <= 0.0 then end.exit == AnalyticsFailed && end.result == Raised(ValueError)
         else end.exit == Returned && end.result == Ok(Report(s.order.id, Done(s, |s.children|), Some(s.price), Filled))
  }

  /** A loop that went through is concluded by the commit, or by its refusal. */
  lemma LoopIsConcluded(s: Sim, w: World, held: A.Tables, scope: A.Scope, referencePrice: real, current: Order,
                        flags: seq<bool>, quote: V.Quote)
    requires PlanOk(s) && Agreed(s, w) && HeldFor(s, held, scope, referencePrice) && referencePrice > 0.0
    requires current == w.oms.orders[s.order.id] && current.id == s.order.id && current.symbol == s.order.symbol
    requires current.side == s.order.side && forall k | 0 <= k < |flags| :: flags[k]
    ensures var end := Concluded(w, held, current, flags, quote, s.now);
            end.world == w && Concludes(s, held, scope, referencePrice, quote, end)
  {
    CommitIff(s, w, held, scope, referencePrice);
    CostIs(s, w, referencePrice);
    hide Cost; hide Budget; hide PlanOk; hide CommitFilled; hide FilledNotional; hide DurablyMatched; hide ChildDone;
    hide Moved; hide Frozen;
    CommittingMeans(held, current, scope, Budget(s, referencePrice));
    assert DurablyMatched(ChildrenIn(w.journal, current.id), current);
  }

  /** The loop against the venue: through, with everything agreed, or stopped after a broker call. */
  lemma LoopGoes(s: Sim, start: World, books: V.Books, trace: Trace)
    requires PlanOk(s) && Running(s, start) && WorldAfter(s, start, 0) && BooksReady(s, books, 0)
             && LoopTrace(s, start, books, trace)
    ensures trace.worlds != [] && (RanThrough(s.children, trace) <==> OpenUntil(s, |s.children|))
    ensures if RanThrough(s.children, trace)
            then Agreed(s, Last(trace)) && forall k | 0 <= k < |Verdicts(trace.steps)| :: Verdicts(trace.steps)[k]
            else SomeCalled(trace.steps)
  {
    TraceEnds(s, start, books, trace);
    SimulatedRunIff(s, start, books);
    if !RanThrough(s.children, trace) {
      TraceRuns(s, start, books, trace, 0);
      OutcomeIff(s, start, books, 0);
    }
  }

  /** The order in hand after the loop is the stored one: the order as governed, but for its fills. */
  lemma LoopKeepsOrder(s: Sim, start: World, trace: Trace)
    requires Traced(start, s.order.id, s.children, trace) && RanThrough(s.children, trace) && s.children != []
    requires s.order.id in start.oms.orders
    ensures trace.worlds != [] && s.order.id in Last(trace).oms.orders
    ensures var current := trace.steps[|s.children| - 1].outcome.value.0;
            && current == Last(trace).oms.orders[s.order.id]
            && current.id == start.oms.orders[s.order.id].id && current.symbol == start.oms.orders[s.order.id].symbol
            && current.side == start.oms.orders[s.order.id].side
  {
    LoopStores(start, s.order.id, s.children, trace);
    LoopContainsOrders(start, s.order.id, s.children, trace);
    hide Traced;
  }

  lemma HoldingIsHeld(c: Setting, t: A.Tables, scope: A.Scope)
    requires Tradable(c) && Hold(t, c.order, scope, c.terms, c.now).Ok? && !Live(t, c.order.id, c.now)
    ensures var held := Hold(t, c.order, scope, c.terms, c.now).value;
            && HeldFor(c.Sim(), held, scope, c.terms.referencePrice) && held.exposure == t.exposure
            && held.reservations - {c.order.id} == A.Purge(t.reservations, c.now)
  {
    HoldingMeans(t, c.order, scope, c.terms, c.now);
    hide Hold; hide Slicing.PlanOf;
    HeldIsExtra(A.Purge(t.reservations, c.now), Hold(t, c.order, scope, c.terms, c.now).value.reservations, c.order.id,
                A.Reservation(scope, Requested(c.order, c.terms), map[c.order.symbol := Requested(c.order, c.terms)],
                              c.now, Some(c.now + TTL)));
  }

  /** A run that went through leaves no row for recovery, if there was none before. */
  lemma NothingLeftToResolve(s: Sim, w: World, start: World, trace: Trace)
    requires WorldOk(w) && Linked(w.journal, w.oms) && OpenedWorld(w, start, s.order, s.now)
             && UnresolvedIn(w.journal) == {}
    requires Traced(start, s.order.id, s.children, trace) && trace.worlds != [] && Agreed(s, Last(trace))
    ensures Clean(Last(trace).journal.rows)
  {
    hide WorldOk; hide StepOk; hide Traced; hide Linked; hide OpenedWorld; hide DurablyMatched; hide JR.TablesEvolve;
    hide Done;
    OpenedIsOk(w, start, s.order, s.now);
    LoopSparesRows(start, s.order.id, s.children, trace);
    var rows := Last(trace).journal.rows;
    forall id | id in rows ensures !J.Unresolved(rows[id]) {
      LoopAddsOnlyChildren(start, s.order.id, s.children, trace, id);
      if id != s.order.id && id !in start.journal.rows {
        var k: nat :| k < |s.children| && s.children[k].id == id;
        assert ChildDone(s, Last(trace).journal, k);
      } else if id != s.order.id {
        assert id in w.journal.rows && rows[id] == w.journal.rows[id];
        assert id !in UnresolvedIn(w.journal);
      }
    }
  }

  /** How an attempt ends, against the exposure ledger that holds its reservation. */
  ghost predicate EndsFromHold(c: Setting, held: A.Tables, scope: A.Scope, end: Ending)
    requires c.Plan().Ok?
  {
    var s := c.Sim();
    if !OpenUntil(s, |s.children|) then end.exit == LoopFailed && end.result.Raised? && end.exposure == held
    else
      && Agreed(s, end.world) && Clean(end.world.journal.rows) && O.OmsOk(end.world.oms)
      && Concludes(s, held, scope, c.terms.referencePrice, c.quote, end)
  }

  lemma GatesAskAPrice(c: Setting, w: World)
    requires PastTheGates(c, w)
    ensures c.terms.referencePrice > 0.0 && UnresolvedIn(w.journal) == {}
  {
    GatesAgree(c.order, c.config, Ok(c.quote), c.terms, UnresolvedIn(w.journal));
    hide WorldOk; hide Linked;
  }

  /** The attempt, from the reservation on. */
  lemma AttemptEnds(c: Setting, w: World, held: A.Tables, scope: A.Scope, books: V.Books, trace: Trace)
    requires PastTheGates(c, w) && NewTo(c, w, books) && Tradable(c)
             && HeldFor(c.Sim(), held, scope, c.terms.referencePrice)
    requires TraceOf(w, c.Governed(), c.quote, c.terms, c.config, c.fingerprint, c.now, trace)
             && Served(c.Sim(), books, trace)
    ensures EndsFromHold(c, held, scope,
                         Carried(w, held, c.Governed(), c.quote, c.terms, c.config, c.fingerprint, c.now, trace))
  {
    hide Opening; hide Planning; hide NewTo; hide WorldAfter; hide BooksReady; hide StepOk; hide OpenedWorld;
    hide Faithful; hide Concluded; hide Agreed; hide Clean; hide Concludes; hide OpenUntil; hide Served;
    hide Slicing.PlanOf; hide JR.TablesOk; hide HeldFor; hide Linked; hide GatesOpen;
    var s, governed := c.Sim(), c.Governed();
    SetUpWorks(c, w, books);
    var begun := Opening(w, governed, c.fingerprint, c.now);
    var planned := Planning(begun.0, governed.id, c.quote, c.terms, c.config, c.fingerprint, c.now);
    assert s.children == Routed(planned.1.value.1, c.quote.venue);
    assert LoopTrace(s, planned.0, books, trace);
    LoopGoes(s, planned.0, books, trace);
    GatesAskAPrice(c, w);
    if RanThrough(s.children, trace) {
      NothingLeftToResolve(s, w, planned.0, trace);
      LoopKeepsWorldOk(planned.0, s.order.id, s.children, trace);
      LoopKeepsOrder(s, planned.0, trace);
      LoopIsConcluded(s, Last(trace), held, scope, c.terms.referencePrice, Last(trace).oms.orders[s.order.id],
                      Verdicts(trace.steps), c.quote);
    }
  }

  /** How a call ends, against the exposure ledger it found: in one of four ways, and when in which. */
  ghost predicate FourEndings(c: Setting, t: A.Tables, scope: A.Scope, end: Ending)
    requires Tradable(c)
  {
    var s, n := c.Sim(), |c.Sim().children|;
    var executed := Done(s, n);
    var visible := n == 1 || (n > 1 && c.order.quantity - Done(s, n - 1) > TOL_9);
    var afforded := executed * c.price <= c.order.quantity * c.terms.referencePrice;
    var measurable := Arrival(c.order, c.quote) > 0.0;
    && 0.0 <= c.order.quantity - executed <= TOL_12
    && (end.exit == Returned <==> visible && afforded && measurable)
    && (end.exit == AnalyticsFailed <==> visible && afforded && !measurable)
    && (end.exit == CommitRefused <==> visible && !afforded)
    && (end.exit == LoopFailed <==> !visible)
    && (visible ==> Agreed(s, end.world) && Clean(end.world.journal.rows))
    && (if visible && afforded
        then && A.Get(end.exposure.exposure, scope) == A.Get(t.exposure, scope) + executed * c.price
             && end.exposure.reservations == A.Purge(t.reservations, c.now)
        else end.exposure.exposure == t.exposure && c.order.id in end.exposure.reservations)
    && (if end.exit == Returned then end.result == Ok(Report(c.order.id, executed, Some(c.price), Filled))
        else end.result.Raised?)
  }

  lemma ExecutionIsCarried(c: Setting, w: World, t: A.Tables, scope: A.Scope, trace: Trace)
    requires PastTheGates(c, w) && Hold(t, c.order, scope, c.terms, c.now).Ok? && trace.worlds != []
    ensures Execution(w, t, c.order, c.terms, c.config, scope, c.fingerprint, c.now, Ok(c.quote), trace)
         == Carried(w, Hold(t, c.order, scope, c.terms, c.now).value, c.Governed(), c.quote, c.terms, c.config,
                    c.fingerprint, c.now, trace)
  {
    GatesAgree(c.order, c.config, Ok(c.quote), c.terms, UnresolvedIn(w.journal));
    ExecutionIs(w, t, c.order, c.terms, c.config, scope, c.fingerprint, c.now, Ok(c.quote), trace);
    hide Execution; hide GateVerdict; hide GatesOpen; hide Carried; hide Hold;
  }

  lemma EndingMeans(c: Setting, t: A.Tables, held: A.Tables, scope: A.Scope, end: Ending)
    requires Tradable(c) && PlanOk(c.Sim()) && EndsFromHold(c, held, scope, end)
    requires HeldFor(c.Sim(), held, scope, c.terms.referencePrice) && held.exposure == t.exposure
    requires held.reservations - {c.order.id} == A.Purge(t.reservations, c.now)
    ensures FourEndings(c, t, scope, end)
  {
    hide Agreed; hide Slicing.PlanOf; hide A.Purge; hide Done; hide ChildOk; hide Clean;
  }

  /** Conservation end to end. A new order that passes the gates, gets its reservation and finds a
      price and liquidity returns exactly when its last child, with what the plan left unscheduled, is
      more than 1e-9 (or is the only one), the cost stays within the reservation, and the quoted arrival
      price is positive, as that of a venue quoting its own prices is. Then the whole plan is executed
      at the price; OMS parent, journal parent and journal children agree and are FILLED; and exposure
      has grown by the cost. If only the last condition fails, the same has happened and the call
      raises; if the second fails, the same has been executed but the commit is refused; if the first
      fails, the call stops in the loop. In these two cases the reservation stays. */
  lemma SimulatedExecutionIff(c: Setting, w: World, t: A.Tables, scope: A.Scope, books: V.Books, trace: Trace)
    requires PastTheGates(c, w) && NewTo(c, w, books) && Tradable(c)
    requires Hold(t, c.order, scope, c.terms, c.now).Ok? && !Live(t, c.order.id, c.now)
    requires TraceOf(w, c.Governed(), c.quote, c.terms, c.config, c.fingerprint, c.now, trace)
             && Served(c.Sim(), books, trace)
    ensures trace.worlds != []
    ensures FourEndings(c, t, scope,
                        Execution(w, t, c.order, c.terms, c.config, scope, c.fingerprint, c.now, Ok(c.quote), trace))
  {
    var held := Hold(t, c.order, scope, c.terms, c.now).value;
    PlanIsOk(c);
    HoldingIsHeld(c, t, scope);
    AttemptEnds(c, w, held, scope, books, trace);
    ExecutionIsCarried(c, w, t, scope, trace);
    var end := Carried(w, held, c.Governed(), c.quote, c.terms, c.config, c.fingerprint, c.now, trace);
    hide *;
    EndingMeans(c, t, held, scope, end);
  }

  /** The order has been executed, the commit refused, and no journal row asks for recovery. */
  ghost predicate Stranded(c: Setting, t: A.Tables, scope: A.Scope, end: Ending) {
    && end.exit == CommitRefused && end.result.Raised? && O.OmsOk(end.world.oms)
    && c.order.id in end.world.oms.orders && end.world.oms.orders[c.order.id].filled > 0.0
    && c.order.id in end.world.journal.rows && UnresolvedIn(end.world.journal) == {}
    && Hold(t, c.order, scope, c.terms, c.now) == Ok(end.exposure)
  }

  lemma RefusedCommitStrands(c: Setting, w: World, t: A.Tables, scope: A.Scope, books: V.Books, trace: Trace)
    requires PastTheGates(c, w) && NewTo(c, w, books) && Tradable(c)
    requires Hold(t, c.order, scope, c.terms, c.now).Ok? && !Live(t, c.order.id, c.now)
    requires TraceOf(w, c.Governed(), c.quote, c.terms, c.config, c.fingerprint, c.now, trace)
             && Served(c.Sim(), books, trace)
    requires OpenUntil(c.Sim(), |c.Sim().children|) && Cost(c.Sim()) > Budget(c.Sim(), c.terms.referencePrice)
    ensures trace.worlds != []
    ensures Stranded(c, t, scope,
                     Execution(w, t, c.order, c.terms, c.config, scope, c.fingerprint, c.now, Ok(c.quote), trace))
  {
    var held := Hold(t, c.order, scope, c.terms, c.now).value;
    PlanIsOk(c);
    HoldingIsHeld(c, t, scope);
    AttemptEnds(c, w, held, scope, books, trace);
    ExecutionIsCarried(c, w, t, scope, trace);
    var end := Carried(w, held, c.Governed(), c.quote, c.terms, c.config, c.fingerprint, c.now, trace);
    hide *;
    RefusalMeans(c, t, scope, end);
  }

  lemma RefusalMeans(c: Setting, t: A.Tables, scope: A.Scope, end: Ending)
    requires c.Plan().Ok? && PlanOk(c.Sim()) && Hold(t, c.order, scope, c.terms, c.now).Ok?
    requires EndsFromHold(c, Hold(t, c.order, scope, c.terms, c.now).value, scope, end)
    requires OpenUntil(c.Sim(), |c.Sim().children|) && Cost(c.Sim()) > Budget(c.Sim(), c.terms.referencePrice)
    ensures Stranded(c, t, scope, end)
  {
    hide Slicing.PlanOf; hide DurablyMatched; hide ChildDone; hide J.Unresolved; hide Done; hide Hold; hide O.OmsOk;
    DoneIsPositive(c.Sim());
    hide PlanOk;
  }

  /** A call that stops in the loop does so over a fill: the venue has executed the last child it was
      sent, and the parent's row, closed by the one before, has refused it. */
  lemma RefusedFillWasExecuted(c: Setting, w: World, books: V.Books, trace: Trace)
    requires PastTheGates(c, w) && NewTo(c, w, books) && Tradable(c) && !OpenUntil(c.Sim(), |c.Sim().children|)
    requires TraceOf(w, c.Governed(), c.quote, c.terms, c.config, c.fingerprint, c.now, trace)
             && Served(c.Sim(), books, trace)
    ensures 0 < |trace.steps| == |trace.replies| <= |c.Sim().children|
    ensures var k := |trace.steps| - 1;
            trace.replies[k].filled == Ok(FillOfChild(c.Sim(), k)) && ParentState(c.Sim(), k) == J.Filled
  {
    SetUpWorks(c, w, books);
    var s, begun := c.Sim(), Opening(w, c.Governed(), c.fingerprint, c.now);
    var start := Planning(begun.0, c.order.id, c.quote, c.terms, c.config, c.fingerprint, c.now).0;
    assert s.children == Routed(c.Plan().value, c.quote.venue);
    hide PastTheGates; hide NewTo; hide Tradable; hide StepOk; hide Slicing.PlanOf; hide OpenUntil; hide WorldAfter;
    hide PlanOk;
    LoopStopsOverFill(s, start, books, trace);
  }

  lemma LoopStopsOverFill(s: Sim, start: World, books: V.Books, trace: Trace)
    requires PlanOk(s) && Running(s, start) && WorldAfter(s, start, 0) && BooksReady(s, books, 0)
             && LoopTrace(s, start, books, trace)
    requires !OpenUntil(s, |s.children|)
    ensures 0 < |trace.steps| == |trace.replies| <= |s.children|
    ensures var k := |trace.steps| - 1;
            trace.replies[k].filled == Ok(FillOfChild(s, k)) && ParentState(s, k) == J.Filled
  {
    LoopGoes(s, start, books, trace);
    var k := |trace.steps| - 1;
    TraceRuns(s, start, books, trace, k);
    TraceIsLoop(s, start, books, trace, k);
    LoopIff(s, start, books, k);
    hide LoopTrace; hide PlanOk; hide WorldAfter; hide BooksReady; hide Loop; hide RanThrough; hide OpenUntil;
    hide ParentState; hide ChildOutcome;
    OutcomeIff(s, trace.worlds[k], BooksAt(s, books, k), k);
    ServeWorks(s, BooksAt(s, books, k), k);
  }

  /** The same call at a venue that would take any price. */
  function Obliging(c: Setting): Setting {
    c.(market := c.market.(bid := 1.0, ask := 1.0), price := 1.0)
  }

  /** If the venue no longer fills at the price, its refusal of the first fill ends the call in the
      loop: one child has been submitted and not filled, its row asks for recovery, and the
      reservation stays. */
  lemma StaleQuoteStops(c: Setting, w: World, t: A.Tables, scope: A.Scope, books: V.Books, trace: Trace)
    requires PastTheGates(c, w) && NewTo(c, w, books) && c.Plan().Ok? && Tradable(Obliging(c)) && !Workable(c)
    requires Hold(t, c.order, scope, c.terms, c.now).Ok?
    requires TraceOf(w, c.Governed(), c.quote, c.terms, c.config, c.fingerprint, c.now, trace)
             && Served(c.Sim(), books, trace)
    ensures |trace.replies| == 1 && trace.replies[0].submitted.Ok? && trace.replies[0].filled.Raised?
    ensures var end := Execution(w, t, c.order, c.terms, c.config, scope, c.fingerprint, c.now, Ok(c.quote), trace);
            && end.exit == LoopFailed && end.result.Raised? && UnresolvedIn(end.world.journal) != {}
            && Hold(t, c.order, scope, c.terms, c.now) == Ok(end.exposure)
  {
    hide PastTheGates; hide NewTo; hide Tradable; hide Workable; hide TraceOf; hide Execution; hide Carried; hide Hold;
    hide Slicing.PlanOf; hide Served;
    StaleAttempt(c, w, Hold(t, c.order, scope, c.terms, c.now).value, books, trace);
    ExecutionIsCarried(c, w, t, scope, trace);
  }

  lemma StaleAttempt(c: Setting, w: World, held: A.Tables, books: V.Books, trace: Trace)
    requires PastTheGates(c, w) && NewTo(c, w, books) && c.Plan().Ok? && Tradable(Obliging(c)) && !Workable(c)
    requires TraceOf(w, c.Governed(), c.quote, c.terms, c.config, c.fingerprint, c.now, trace)
             && Served(c.Sim(), books, trace)
    ensures |trace.replies| == 1 && trace.replies[0].submitted.Ok? && trace.replies[0].filled.Raised?
    ensures trace.worlds != []
    ensures var end := Carried(w, held, c.Governed(), c.quote, c.terms, c.config, c.fingerprint, c.now, trace);
            && end.exit == LoopFailed && end.result.Raised? && UnresolvedIn(end.world.journal) != {}
            && end.exposure == held
  {
    hide NewTo; hide Tradable; hide Workable; hide Opening; hide Planning; hide StepOk; hide PlanOk; hide WorldAfter;
    hide OpenedWorld; hide BooksReady; hide Slicing.PlanOf; hide JR.TablesOk; hide Linked; hide GatesOpen;
    hide Faithful; hide Served; hide GateVerdict; hide O.Freeze;
    var s, governed := c.Sim(), c.Governed();
    ObligingIsTheSame(c, w, books);
    SetUpWorks(Obliging(c), w, books);
    var begun := Opening(w, governed, c.fingerprint, c.now);
    var planned := Planning(begun.0, governed.id, c.quote, c.terms, c.config, c.fingerprint, c.now);
    assert s.children == Routed(planned.1.value.1, c.quote.venue);
    StaleLoop(c, planned.0, books, trace);
  }

  lemma ObligingIsTheSame(c: Setting, w: World, books: V.Books)
    requires PastTheGates(c, w) && NewTo(c, w, books) && c.Plan().Ok?
    ensures PastTheGates(Obliging(c), w) && NewTo(Obliging(c), w, books)
    ensures Obliging(c).Plan() == c.Plan() && Obliging(c).Governed() == c.Governed()
    ensures Obliging(c).Sim() == c.Sim().(market := Obliging(c).market, price := 1.0)
  {
    hide GateVerdict; hide WorldOk; hide Linked; hide Slicing.PlanOf; hide BeginParent;
  }

  lemma StaleServe(c: Setting, books: V.Books)
    requires c.Plan().Ok? && !Workable(c)
    requires Obliging(c).Plan().Ok? && Obliging(c).Sim() == c.Sim().(market := Obliging(c).market, price := 1.0)
    requires PlanOk(Obliging(c).Sim()) && BooksReady(Obliging(c).Sim(), books, 0)
    ensures c.Sim().children != [] && Serve(c.Sim(), books, 0).1.submitted.Ok?
    ensures Serve(c.Sim(), books, 0).1.filled.Raised?
  {
    hide Slicing.PlanOf;
    var s := Obliging(c).Sim();
    assert ChildOk(s, s.children[0]) && VenueIdOf(s, 0) !in books.submitted && VenueIdOf(s, 0) !in books.fills;
  }

  lemma StaleLoop(c: Setting, start: World, books: V.Books, trace: Trace)
    requires c.Plan().Ok? && !Workable(c)
    requires Obliging(c).Plan().Ok? && Obliging(c).Sim() == c.Sim().(market := Obliging(c).market, price := 1.0)
    requires PlanOk(Obliging(c).Sim()) && Running(c.Sim(), start) && WorldAfter(Obliging(c).Sim(), start, 0)
             && BooksReady(Obliging(c).Sim(), books, 0)
    requires LoopTrace(c.Sim(), start, books, trace)
    ensures |trace.steps| == |trace.replies| == 1 && trace.steps[0].called && trace.steps[0].outcome.Raised?
    ensures trace.replies[0].submitted.Ok? && trace.replies[0].filled.Raised?
    ensures trace.worlds != [] && WorldOk(Last(trace)) && UnresolvedIn(Last(trace).journal) != {}
  {
    hide Slicing.PlanOf; hide PlanOk; hide Workable; hide JournalAfter; hide OrdersAfter; hide EventsAfter;
    hide Faithful; hide BooksReady; hide AfterFill; hide AfterReply; hide Serve; hide JR.TablesOk; hide O.OmsOk;
    hide O.FilledNonNegative; hide J.Unresolved; hide RowsContained; hide OrdersContained; hide JournalDuring;
    hide J.BeginSubmission; hide FillRecorded; hide Journaled;
    var s := c.Sim();
    StaleServe(c, books);
    BeginWorks(Obliging(c).Sim(), start.journal, 0);
    TraceRuns(s, start, books, trace, 0);
    assert trace.replies[0] == Serve(s, BooksAt(s, books, 0), 0).1;
    assert StepOk(trace.worlds[0], s.order.id, s.children[0], trace.replies[0], trace.steps[0]);
    assert s.children[0].id in UnresolvedIn(Last(trace).journal);
  }

  /** Such a run exists: the venue has an answer to every call of the loop. */
  lemma VenueAnswersEveryCall(c: Setting, w: World, books: V.Books) returns (trace: Trace)
    requires PastTheGates(c, w) && NewTo(c, w, books) && Tradable(c)
    ensures TraceOf(w, c.Governed(), c.quote, c.terms, c.config, c.fingerprint, c.now, trace)
            && Served(c.Sim(), books, trace)
  {
    var s, governed := c.Sim(), c.Governed();
    SetUpWorks(c, w, books);
    var begun := Opening(w, governed, c.fingerprint, c.now);
    var start := Planning(begun.0, governed.id, c.quote, c.terms, c.config, c.fingerprint, c.now).0;
    trace := LoopAgainst(s, start, books);
  }

  lemma LoopAgainst(s: Sim, start: World, books: V.Books) returns (trace: Trace)
    requires Running(s, start)
    ensures LoopTrace(s, start, books, trace)
  {
    hide ChildStep; hide StepOk; hide Faithful; hide Extend; hide Serve; hide WorldOk;
    trace := Trace([start], [], []);
    TraceStarts(start, s.order.id, s.children, trace);
    StartsFaithful(start, s.order.id, s.children, s.quote, s.fingerprint, s.now);
    while |trace.steps| < |s.children|
      invariant Traced(start, s.order.id, s.children, trace)
                && Faithful(s.order.id, s.children, trace, s.quote, s.fingerprint, s.now)
      invariant Served(s, books, trace) && forall k | 0 <= k < |trace.steps| :: trace.steps[k].outcome.Ok?
      decreases |s.children| - |trace.steps|
    {
      var n := |trace.steps|;
      var replies := Serve(s, BooksAt(s, books, n), n).1;
      LoopKeepsWorldOk(start, s.order.id, s.children, trace);
      var p := ChildStep(Last(trace), s.order.id, s.children[n], n, s.quote, replies, s.fingerprint, s.now);
      ChildStepFacts(Last(trace), s.order.id, s.children[n], n, s.quote, replies, s.fingerprint, s.now);
      TraceExtends(start, s.order.id, s.children, trace, replies, p);
      StaysFaithful(s.order.id, s.children, trace, replies, p, s.quote, s.fingerprint, s.now);
      ServedExtends(s, books, trace, replies, p);
      trace := Extend(trace, replies, p);
      if p.outcome.Raised? { return; }
    }
  }

  lemma ServedExtends(s: Sim, b: V.Books, trace: Trace, replies: Replies, p: Progress)
    requires Served(s, b, trace) && |trace.steps| == |trace.replies| < |s.children|
    requires replies == Serve(s, BooksAt(s, b, |trace.steps|), |trace.steps|).1
    ensures var next := Extend(trace, replies, p);
            && Served(s, b, next) && |next.steps| == |trace.steps| + 1 && next.steps[|trace.steps|] == p
            && forall k | 0 <= k < |trace.steps| :: next.steps[k] == trace.steps[k]
  {
    hide Serve;
  }

  // ----- The plan without children -----

  /** A new, admitted order with nothing to send fails its durable check: nothing is submitted, and
      yet the reservation stays. */
  lemma NothingToSendKeepsReservation(c: Setting, w: World, t: A.Tables, scope: A.Scope, trace: Trace)
    requires PastTheGates(c, w) && NewOrder(c, w) && c.Plan() == Ok([]) && c.terms.routable
    requires Hold(t, c.order, scope, c.terms, c.now).Ok? && !Live(t, c.order.id, c.now)
    requires TraceOf(w, c.Governed(), c.quote, c.terms, c.config, c.fingerprint, c.now, trace)
    ensures Slicing.NothingToSend(c.order, c.terms.volumes) && trace.worlds != [] && trace.steps == []
    ensures var end := Execution(w, t, c.order, c.terms, c.config, scope, c.fingerprint, c.now, Ok(c.quote), trace);
            end.exit == DurableMismatch && end.result.Raised? && c.order.id in end.exposure.reservations
  {
    Slicing.PlanFacts(c.Governed().(status := Routing, updatedAt := c.now), c.terms.volumes);
    HoldingMeans(t, c.order, scope, c.terms, c.now);
    EmptyPlanEnds(c, w, Hold(t, c.order, scope, c.terms, c.now).value, trace);
    ExecutionIsCarried(c, w, t, scope, trace);
    hide Execution; hide Carried; hide Hold; hide TraceOf; hide Slicing.PlanOf; hide NewOrder; hide PastTheGates;
    hide Live;
  }

  lemma EmptyPlanEnds(c: Setting, w: World, held: A.Tables, trace: Trace)
    requires PastTheGates(c, w) && NewOrder(c, w) && c.Plan() == Ok([]) && c.terms.routable
    requires TraceOf(w, c.Governed(), c.quote, c.terms, c.config, c.fingerprint, c.now, trace)
    ensures trace.worlds != [] && trace.steps == []
    ensures var end := Carried(w, held, c.Governed(), c.quote, c.terms, c.config, c.fingerprint, c.now, trace);
            end.exit == DurableMismatch && end.result.Raised? && end.exposure == held
  {
    hide StepOk; hide Standing; hide NewOrder; hide Slicing.PlanOf; hide Faithful; hide Planning; hide Opening;
    hide Advancing;
    SetUpGoes(c, w);
    var begun := Opening(w, c.Governed(), c.fingerprint, c.now);
    var start := Planning(begun.0, c.order.id, c.quote, c.terms, c.config, c.fingerprint, c.now).0;
    NoChildrenYet(w, start, c.Governed(), c.now);
    hide PastTheGates; hide OpenedWorld;
    assert Routed([], c.quote.venue) == [];
    assert trace.steps == [] && Last(trace) == start;
    assert Verdicts([]) == [];
  }

  lemma NoChildrenYet(w: World, w': World, o: Order, now: real)
    requires WorldOk(w) && Linked(w.journal, w.oms) && OpenedWorld(w, w', o, now)
    ensures ChildrenIn(w'.journal, o.id) == map[]
  {
    OpenedIsOk(w, w', o, now);
    hide OpenedWorld; hide WorldOk; hide JR.TablesEvolve;
  }
}
