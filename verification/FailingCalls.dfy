/** Calls that lose what other calls keep: when they do, and inputs on which they do. */
module FailingCalls {
  import opened Common
  import opened Orders
  import opened ExecutionExits
  import opened ExecutionLoop
  import opened ExecutionProtocol
  import opened ExecutionSpec
  import opened Identity
  import opened SimulatedExecution
  import opened SimulatedRun
  import A = AdmissionSpec
  import AdmissionRuns
  import J = JournalSpec
  import O = OmsSpec
  import Slicing
  import Sums
  import V = Venue

  // ----- Retries -----

  /** A retry under a journaled id whose reservation is live gets past the gates and the reservation,
      fails before the first broker call, and takes the reservation with it. Nothing else changes. */
  lemma RetryReleases(w: World, t: A.Tables, o: Order, terms: Terms, config: Config, scope: A.Scope, fingerprint: Id,
                      now: real, quoted: Outcome<V.Quote>, trace: Trace)
    requires O.OmsOk(w.oms) && trace.worlds != []
    requires o.id in w.journal.rows && Live(t, o.id, now)
    requires GateVerdict(o, config, quoted, terms, UnresolvedIn(w.journal)).Ok? && Hold(t, o, scope, terms, now).Ok?
    ensures Execution(w, t, o, terms, config, scope, fingerprint, now, quoted, trace)
         == Ending(w, A.Release(t.(reservations := A.Purge(t.reservations, now)), o.id), Raised(ValueError),
                   SetupFailed)
    ensures var live := t.(reservations := A.Purge(t.reservations, now));
            A.Reserved(A.Release(live, o.id), scope) == A.Reserved(live, scope) - Requested(o, terms)
  {
    GatesAgree(o, config, quoted, terms, UnresolvedIn(w.journal));
    ExecutionIs(w, t, o, terms, config, scope, fingerprint, now, quoted, trace);
    var governed := Attach(o, config);
    LiveIsKept(t, o, scope, terms, now);
    AdmissionRuns.RemovingFrees(t.(reservations := A.Purge(t.reservations, now)), o.id, scope, o.symbol);
    hide A.Reserved;
    KnownIsRefused(w.journal, governed, now);
    NothingToWithdraw(w.journal, o.id, now);
    hide Execution; hide GateVerdict; hide GatesOpen; hide Hold; hide BeginParent; hide Withdrawn; hide O.OmsOk;
    hide UnresolvedIn; hide Live;
  }

  lemma LiveIsKept(t: A.Tables, o: Order, scope: A.Scope, terms: Terms, now: real)
    requires Live(t, o.id, now) && Hold(t, o, scope, terms, now).Ok?
    ensures Hold(t, o, scope, terms, now).value == t.(reservations := A.Purge(t.reservations, now))
    ensures o.id in A.Purge(t.reservations, now)
    ensures var r := A.Purge(t.reservations, now)[o.id]; r.scope == scope && r.portfolio == Requested(o, terms)
  {
  }

  lemma KnownIsRefused(t: J.Tables, o: Order, now: real)
    requires o.id in t.rows
    ensures BeginParent(t, o, now) == Raised(ValueError)
  {
  }

  lemma NothingToWithdraw(t: J.Tables, id: Id, now: real)
    ensures UnresolvedIn(t) == {} ==> Withdrawn(t.rows, id, now) == t.rows
  {
    assert id in t.rows && J.Unresolved(t.rows[id]) ==> id in UnresolvedIn(t);
  }

  // ----- After a refused commit -----

  /** Once the reservation has expired, the exposure ledger is exactly what it would be had the
      executed order never been placed; and new orders have been let in all along. */
  lemma RefusedCommitIsForgotten(c: Setting, t: A.Tables, scope: A.Scope, end: Ending, later: real)
    requires Stranded(c, t, scope, end) && !Live(t, c.order.id, c.now) && later >= c.now + 30.0
    ensures end.exposure.(reservations := A.Purge(end.exposure.reservations, later))
            == t.(reservations := A.Purge(t.reservations, later))
  {
    HoldingMeans(t, c.order, scope, c.terms, c.now);
    hide Hold; hide O.OmsOk;
    assert A.Purge(end.exposure.reservations, later) == A.Purge(t.reservations, later);
  }

  /** A retry does not wait for that: made while the reservation is live, with the same terms and
      quote, it leaves the ledger as if the executed order had never been placed, at once. */
  lemma RetryForgetsAtOnce(c: Setting, w: World, t: A.Tables, scope: A.Scope, end: Ending, fingerprint: Id, again: real,
                           trace: Trace)
    requires PastTheGates(c, w) && Stranded(c, t, scope, end) && !Live(t, c.order.id, c.now)
    requires c.now <= again < c.now + 30.0 && trace.worlds != []
    ensures Execution(end.world, end.exposure, c.order, c.terms, c.config, scope, fingerprint, again, Ok(c.quote),
                      trace)
         == Ending(end.world, t.(reservations := A.Purge(t.reservations, again)), Raised(ValueError), SetupFailed)
  {
    HoldingMeans(t, c.order, scope, c.terms, c.now);
    HeldIsLive(c, t, scope, end, again);
    GatesAgree(c.order, c.config, Ok(c.quote), c.terms, UnresolvedIn(w.journal));
    GatesAgree(c.order, c.config, Ok(c.quote), c.terms, UnresolvedIn(end.world.journal));
    hide Hold; hide Live; hide GateVerdict; hide Execution; hide O.OmsOk; hide A.Purge; hide WorldOk; hide Linked;
    RetryReleases(end.world, end.exposure, c.order, c.terms, c.config, scope, fingerprint, again, Ok(c.quote), trace);
  }

  lemma HeldIsLive(c: Setting, t: A.Tables, scope: A.Scope, end: Ending, again: real)
    requires c.now <= again < c.now + TTL && !Live(t, c.order.id, c.now)
    requires end.exposure == t.(reservations := A.Purge(t.reservations, c.now)[c.order.id :=
               A.Reservation(scope, Requested(c.order, c.terms), map[c.order.symbol := Requested(c.order, c.terms)],
                             c.now, Some(c.now + TTL))])
    requires Hold(t, c.order, scope, c.terms, c.now).Ok?
    ensures Live(end.exposure, c.order.id, again) && Hold(end.exposure, c.order, scope, c.terms, again).Ok?
    ensures A.Release(end.exposure.(reservations := A.Purge(end.exposure.reservations, again)), c.order.id)
         == t.(reservations := A.Purge(t.reservations, again))
  {
    assert A.Purge(end.exposure.reservations, again) - {c.order.id} == A.Purge(t.reservations, again);
  }

  // ----- Inputs -----

  const VENUE: string := "venue"
  const LIMITS: A.Limits := A.Limits(100.0, 100.0, 100.0, 100.0, 100.0)
  const CONFIG: Config := Config("config", "model", {VENUE})
  const EMPTY_WORLD: World := World(J.EMPTY_TABLES, map[], O.Oms(map[], map[], map[], map[]))
  const EMPTY_LEDGER: A.Tables := A.Tables(map[], map[], map[])
  const EMPTY_BOOKS: V.Books := V.Books(map[], map[], map[])
  const SCOPE: A.Scope := "default"

  /** A buy at a reference price of 10, quoted at `quoted` and filled at `ask`. */
  function Purchase(quantity: real, policy: Policy, slices: int, volumes: Option<seq<real>>, ask: real,
                    quoted: real): Setting {
    Setting(Order(Name("order"), Name("decision"), "EURUSD", Buy, quantity, "MARKET", None, policy, New, None, 0.0,
                  None, None, 0.0,
                  Metadata(None, None, slices, 0.1)),
            Terms(10.0, 0.0, 0.0, 0.0, 0.0, LIMITS, volumes, true, true), CONFIG, V.Market(VENUE, 10.0, ask, 10.0),
            V.Quote(VENUE, "EURUSD", 10.0, quoted, true), ask, Name("fingerprint"), 0.0)
  }

  lemma NothingIsHeld()
    ensures WorldOk(EMPTY_WORLD) && Linked(EMPTY_WORLD.journal, EMPTY_WORLD.oms)
            && UnresolvedIn(EMPTY_WORLD.journal) == {}
  {
  }

  lemma NamesAreNotBlank()
    ensures !Blank(Name("order")) && !Blank(Name("decision")) && !Blank(Name("fingerprint"))
  {
    assert "order"[0] == 'o' && "decision"[0] == 'd' && "fingerprint"[0] == 'f';
  }

  /** Up to ten lots, any such purchase passes the gates and gets its reservation in empty stores. */
  lemma PurchaseIsLetIn(quantity: real, policy: Policy, slices: int, volumes: Option<seq<real>>, ask: real,
                        quoted: real)
    requires 0.0 < quantity <= 10.0
    ensures var c := Purchase(quantity, policy, slices, volumes, ask, quoted);
            && PastTheGates(c, EMPTY_WORLD) && NewTo(c, EMPTY_WORLD, EMPTY_BOOKS) && NewOrder(c, EMPTY_WORLD)
            && Hold(EMPTY_LEDGER, c.order, SCOPE, c.terms, c.now).Ok? && !Live(EMPTY_LEDGER, c.order.id, c.now)
  {
    var c := Purchase(quantity, policy, slices, volumes, ask, quoted);
    NothingIsHeld();
    NamesAreNotBlank();
    GatesAgree(c.order, c.config, Ok(c.quote), c.terms, UnresolvedIn(EMPTY_WORLD.journal));
    CapacityIsFree(c.order, c.terms, c.now);
  }

  lemma CapacityIsFree(o: Order, terms: Terms, now: real)
    requires !Empty(o.id) && o.symbol != "" && 0.0 <= Requested(o, terms) <= 100.0 && terms.limits == LIMITS
    ensures Hold(EMPTY_LEDGER, o, SCOPE, terms, now).Ok?
  {
    var live := EMPTY_LEDGER.(reservations := A.Purge(EMPTY_LEDGER.reservations, now));
    assert A.InScope(live.reservations, SCOPE) == map[] && A.InSymbol(live.reservations, SCOPE, o.symbol) == map[];
    assert Sums.Total<Id>(map[]) == 0.0;
  }

  function OneLot(ask: real, quoted: real): Setting { Purchase(1.0, Policy.Market, 1, None, ask, quoted) }

  lemma OneLotIsOneChild(ask: real, quoted: real)
    requires ask > 0.0
    ensures var c := OneLot(ask, quoted);
            && Tradable(c) && |c.Sim().children| == 1 && Done(c.Sim(), 1) == 1.0
            && Cost(c.Sim()) == ask && Budget(c.Sim(), c.terms.referencePrice) == 10.0
  {
    var c := OneLot(ask, quoted);
    var parent := c.Governed().(status := Routing, updatedAt := c.now);
    PlanOfSlices(parent, None, [1.0]);
    assert [1.0][..0] == [];
    assert Slicing.Children(parent, [1.0]) == [Slicing.ChildOrder(parent, 0, 1.0)];
    hide Slicing.PlanOf;
    assert Done(c.Sim(), 1) == Done(c.Sim(), 0) + c.Sim().children[0].quantity;
  }

  lemma PlanOfSlices(o: Order, volumes: Option<seq<real>>, slices: seq<real>)
    requires Slicing.ScheduleOf(o, volumes) == Ok(slices)
    ensures Slicing.PlanOf(o, volumes) == Ok(Slicing.Children(o, slices))
  {
    Slicing.PlanFacts(o, volumes);
  }

  ghost function EndOf(c: Setting, trace: Trace): Ending
    requires trace.worlds != []
  {
    Execution(EMPTY_WORLD, EMPTY_LEDGER, c.order, c.terms, c.config, SCOPE, c.fingerprint, c.now, Ok(c.quote), trace)
  }

  /** The trace is one the venue, in empty stores, produces. */
  ghost predicate Occurs(c: Setting, trace: Trace) {
    && c.Plan().Ok? && trace.worlds != []
    && TraceOf(EMPTY_WORLD, c.Governed(), c.quote, c.terms, c.config, c.fingerprint, c.now, trace)
    && Served(c.Sim(), EMPTY_BOOKS, trace)
  }

  lemma TradesOccur(c: Setting) returns (trace: Trace)
    requires PastTheGates(c, EMPTY_WORLD) && NewTo(c, EMPTY_WORLD, EMPTY_BOOKS) && Tradable(c)
    requires Hold(EMPTY_LEDGER, c.order, SCOPE, c.terms, c.now).Ok? && !Live(EMPTY_LEDGER, c.order.id, c.now)
    ensures Occurs(c, trace) && FourEndings(c, EMPTY_LEDGER, SCOPE, EndOf(c, trace))
  {
    trace := VenueAnswersEveryCall(c, EMPTY_WORLD, EMPTY_BOOKS);
    SimulatedExecutionIff(c, EMPTY_WORLD, EMPTY_LEDGER, SCOPE, EMPTY_BOOKS, trace);
  }

  /** An unaffordable trade in empty stores strands. */
  lemma StrandingOccurs(c: Setting) returns (trace: Trace)
    requires PastTheGates(c, EMPTY_WORLD) && NewTo(c, EMPTY_WORLD, EMPTY_BOOKS) && Tradable(c)
    requires Hold(EMPTY_LEDGER, c.order, SCOPE, c.terms, c.now).Ok? && !Live(EMPTY_LEDGER, c.order.id, c.now)
    requires OpenUntil(c.Sim(), |c.Sim().children|) && Cost(c.Sim()) > Budget(c.Sim(), c.terms.referencePrice)
    ensures Occurs(c, trace) && Stranded(c, EMPTY_LEDGER, SCOPE, EndOf(c, trace))
  {
    trace := VenueAnswersEveryCall(c, EMPTY_WORLD, EMPTY_BOOKS);
    RefusedCommitStrands(c, EMPTY_WORLD, EMPTY_LEDGER, SCOPE, EMPTY_BOOKS, trace);
  }

  lemma RetryEmptiesLedger(c: Setting, end: Ending, again: real, retry: Trace)
    requires PastTheGates(c, EMPTY_WORLD) && Stranded(c, EMPTY_LEDGER, SCOPE, end)
    requires c.now <= again < c.now + 30.0 && retry.worlds != []
    ensures Retried(c, end, again, retry) == Ending(end.world, EMPTY_LEDGER, Raised(ValueError), SetupFailed)
  {
    RetryForgetsAtOnce(c, EMPTY_WORLD, EMPTY_LEDGER, SCOPE, end, c.fingerprint, again, retry);
    assert EMPTY_LEDGER.(reservations := A.Purge(EMPTY_LEDGER.reservations, again)) == EMPTY_LEDGER;
    hide Execution;
  }

  /** The same call again, on what the first one left. */
  ghost function Retried(c: Setting, end: Ending, again: real, retry: Trace): Ending
    requires O.OmsOk(end.world.oms) && retry.worlds != []
  {
    Execution(end.world, end.exposure, c.order, c.terms, c.config, SCOPE, c.fingerprint, again, Ok(c.quote), retry)
  }

  const OVERPAID: Setting := OneLot(11.0, 11.0)

  /** One lot bought at 11 against a reference price of 10 is executed, and its commit refused. Retried
      a second later, it leaves the exposure ledger as empty as before it was first placed. */
  lemma RefusedCommitHappens(retry: Trace) returns (trace: Trace)
    requires retry.worlds != []
    ensures Occurs(OVERPAID, trace) && Stranded(OVERPAID, EMPTY_LEDGER, SCOPE, EndOf(OVERPAID, trace))
    ensures Retried(OVERPAID, EndOf(OVERPAID, trace), 1.0, retry)
         == Ending(EndOf(OVERPAID, trace).world, EMPTY_LEDGER, Raised(ValueError), SetupFailed)
  {
    PurchaseIsLetIn(1.0, Policy.Market, 1, None, 11.0, 11.0);
    OneLotIsOneChild(11.0, 11.0);
    hide Stranded; hide Occurs; hide EndOf; hide Retried; hide Tradable; hide PastTheGates; hide NewTo;
    trace := StrandingOccurs(OVERPAID);
    RetryEmptiesLedger(OVERPAID, EndOf(OVERPAID, trace), 1.0, retry);
    hide *;
  }

  const MISQUOTED: Setting := OneLot(10.0, 0.0)

  /** The call raises, and its 10 are committed. */
  ghost predicate PaidButRaised(end: Ending) {
    end.exit == AnalyticsFailed && end.result.Raised? && A.Get(end.exposure.exposure, SCOPE) == 10.0
  }

  /** One lot quoted at zero and filled at 10 ends so. */
  lemma AnalyticsFailureHappens() returns (trace: Trace)
    ensures Occurs(MISQUOTED, trace) && PaidButRaised(EndOf(MISQUOTED, trace))
  {
    PurchaseIsLetIn(1.0, Policy.Market, 1, None, 10.0, 0.0);
    OneLotIsOneChild(10.0, 0.0);
    trace := TradesOccur(MISQUOTED);
    hide *;
    AnalyticsEnd(EndOf(MISQUOTED, trace));
  }

  lemma AnalyticsEnd(end: Ending)
    requires Tradable(MISQUOTED) && |MISQUOTED.Sim().children| == 1 && Done(MISQUOTED.Sim(), 1) == 1.0
    requires FourEndings(MISQUOTED, EMPTY_LEDGER, SCOPE, end)
    ensures PaidButRaised(end)
  {
    hide Agreed; hide Done; hide Tradable; hide Slicing.PlanOf;
  }

  const TWO_SLICES: Setting := Purchase(2.0 * TOL_9, Twap, 2, None, 10.0, 10.0)

  lemma TwoSlicesAreTwoChildren()
    ensures Tradable(TWO_SLICES) && |TWO_SLICES.Sim().children| == 2 && Done(TWO_SLICES.Sim(), 1) == TOL_9
  {
    var c := TWO_SLICES;
    var parent := c.Governed().(status := Routing, updatedAt := c.now);
    var slices := [TOL_9, TOL_9];
    assert Slicing.TwapOf(2.0 * TOL_9, 2).value == slices;
    PlanOfSlices(parent, None, slices);
    assert slices[..1] == [TOL_9] && [TOL_9][..0] == [];
    assert Slicing.Children(parent, [TOL_9]) == [Slicing.ChildOrder(parent, 0, TOL_9)];
    assert Slicing.Children(parent, slices)
           == [Slicing.ChildOrder(parent, 0, TOL_9), Slicing.ChildOrder(parent, 1, TOL_9)];
    hide Slicing.PlanOf;
    assert Done(c.Sim(), 1) == Done(c.Sim(), 0) + c.Sim().children[0].quantity;
  }

  /** Two slices of 1e-9: the call stops in the loop, over a fill the venue has made. */
  lemma TinyLastChildHappens() returns (trace: Trace)
    ensures Occurs(TWO_SLICES, trace) && EndOf(TWO_SLICES, trace).exit == LoopFailed
    ensures 0 < |trace.replies| && trace.replies[|trace.replies| - 1].filled.Ok?
  {
    PurchaseIsLetIn(2.0 * TOL_9, Twap, 2, None, 10.0, 10.0);
    TwoSlicesAreTwoChildren();
    trace := TradesOccur(TWO_SLICES);
    RefusedFillWasExecuted(TWO_SLICES, EMPTY_WORLD, EMPTY_BOOKS, trace);
    hide *;
    TinyEnd(EndOf(TWO_SLICES, trace));
  }

  lemma TinyEnd(end: Ending)
    requires Tradable(TWO_SLICES) && |TWO_SLICES.Sim().children| == 2 && Done(TWO_SLICES.Sim(), 1) == TOL_9
    requires FourEndings(TWO_SLICES, EMPTY_LEDGER, SCOPE, end)
    ensures end.exit == LoopFailed
  {
    hide Agreed; hide Done; hide Tradable; hide Slicing.PlanOf;
  }

  const SPECK: Setting := Purchase(TOL_12, Pov, 1, Some([0.0]), 10.0, 10.0)

  lemma SpeckHasNoChildren()
    ensures SPECK.Plan() == Ok([]) && SPECK.terms.routable
  {
    var parent := SPECK.Governed().(status := Routing, updatedAt := SPECK.now);
    Slicing.PlanFacts(parent, SPECK.terms.volumes);
  }

  /** A POV order of 1e-12 with no volume observed: nothing is submitted, and its reservation stays. */
  lemma EmptyPlanHappens() returns (trace: Trace)
    ensures trace.worlds != [] && trace.steps == []
    ensures TraceOf(EMPTY_WORLD, SPECK.Governed(), SPECK.quote, SPECK.terms, CONFIG, SPECK.fingerprint, SPECK.now,
                    trace)
    ensures KeptForNothing(EndOf(SPECK, trace))
  {
    PurchaseIsLetIn(TOL_12, Pov, 1, Some([0.0]), 10.0, 10.0);
    SpeckHasNoChildren();
    trace := EmptyPlanOccurs(SPECK, EMPTY_WORLD);
    NothingToSendKeepsReservation(SPECK, EMPTY_WORLD, EMPTY_LEDGER, SCOPE, trace);
    hide *;
  }

  ghost predicate KeptForNothing(end: Ending) {
    end.exit == DurableMismatch && end.result.Raised? && SPECK.order.id in end.exposure.reservations
  }

  lemma EmptyPlanOccurs(c: Setting, w: World) returns (trace: Trace)
    requires PastTheGates(c, w) && NewOrder(c, w) && c.Plan() == Ok([]) && c.terms.routable
    ensures TraceOf(w, c.Governed(), c.quote, c.terms, c.config, c.fingerprint, c.now, trace)
  {
    SetUpGoes(c, w);
    var begun := Opening(w, c.Governed(), c.fingerprint, c.now);
    var start := Planning(begun.0, c.order.id, c.quote, c.terms, c.config, c.fingerprint, c.now).0;
    hide Planning; hide Opening; hide StepOk; hide Slicing.PlanOf; hide Standing;
    assert Routed([], c.quote.venue) == [];
    trace := Trace([start], [], []);
    OpenedIsOk(w, start, c.Governed(), c.now);
    hide OpenedWorld; hide WorldOk;
    TraceStarts(start, c.order.id, [], trace);
    StartsFaithful(start, c.order.id, [], c.quote, c.fingerprint, c.now);
  }
}
