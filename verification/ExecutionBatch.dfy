/** Batch admission: what execute_many's first loop makes sure of before anything is sent. */
module ExecutionBatch {
  import opened Common
  import opened Orders
  import opened ExecutionConversation
  import opened ExecutionExits
  import opened ExecutionProtocol
  import opened ExecutionSpec
  import A = AdmissionSpec
  import J = JournalSpec
  import JR = JournalRuns
  import O = OmsSpec
  import PreTrade
  import V = Venue

  /** The arguments the whole batch shares. */
  datatype BatchTerms = BatchTerms(prices: map<string, real>, spreads: map<string, real>, portfolio: real,
                                   symbols: map<string, real>, dailyLoss: real, limits: A.Limits,
                                   volumes: map<string, seq<real>>)

  /** The first n orders have a reference price and a spread. */
  predicate Priced(b: BatchTerms, orders: seq<Order>, n: nat) {
    n <= |orders| && forall k: nat | k < n :: orders[k].symbol in b.prices && orders[k].symbol in b.spreads
  }

  function NotionalOf(b: BatchTerms, o: Order): real
    requires o.symbol in b.prices
  {
    o.quantity * b.prices[o.symbol]
  }

  /** The portfolio, and one symbol, with the first n orders of the batch added. */
  function Projected(b: BatchTerms, orders: seq<Order>, n: nat): real
    requires Priced(b, orders, n)
  {
    if n == 0 then b.portfolio else Projected(b, orders, n - 1) + NotionalOf(b, orders[n - 1])
  }

  function ProjectedIn(b: BatchTerms, orders: seq<Order>, symbol: string, n: nat): real
    requires Priced(b, orders, n)
  {
    if n == 0 then A.Get(b.symbols, symbol)
    else ProjectedIn(b, orders, symbol, n - 1)
         + (if orders[n - 1].symbol == symbol then NotionalOf(b, orders[n - 1]) else 0.0)
  }

  /** The terms order k is executed on, in the second loop. */
  function TermsFor(b: BatchTerms, orders: seq<Order>, k: nat, controlsNormal: bool, routable: bool): Terms
    requires Priced(b, orders, k + 1)
  {
    var o := orders[k];
    Terms(b.prices[o.symbol], Projected(b, orders, k), ProjectedIn(b, orders, o.symbol, k), b.dailyLoss,
          b.spreads[o.symbol],
          b.limits, if o.symbol in b.volumes then Some(b.volumes[o.symbol]) else None, controlsNormal, routable)
  }

  /** The risk check of order k, on top of the ones before it. */
  predicate AllowedAt(b: BatchTerms, orders: seq<Order>, k: nat)
    requires Priced(b, orders, k + 1)
  {
    var t := TermsFor(b, orders, k, true, true);
    PreTrade.Admissible(orders[k], t.referencePrice, t.portfolioNotional, t.symbolNotional, t.dailyLoss, t.spread,
                        t.limits, true)
  }

  predicate AllowedUpTo(b: BatchTerms, orders: seq<Order>, n: nat)
    requires Priced(b, orders, n)
  {
    forall k: nat | k < n :: AllowedAt(b, orders, k)
  }

  predicate DistinctUpTo(orders: seq<Order>, n: nat)
    requires n <= |orders|
  {
    && (forall i, j | 0 <= i < j < n :: orders[i].id != orders[j].id)
    && (forall i, j | 0 <= i < j < n && orders[i].key.Some? && !Empty(orders[i].key.value) ::
        orders[i].key != orders[j].key)
  }

  /** A batch the first loop lets through, if the venues are authorized and healthy. */
  predicate Admitted(b: BatchTerms, orders: seq<Order>) {
    Priced(b, orders, |orders|) && DistinctUpTo(orders, |orders|) && AllowedUpTo(b, orders, |orders|)
  }

  /** Order n decides whether the batch can still be admitted. */
  lemma AdmittedSoFar(b: BatchTerms, orders: seq<Order>, n: nat)
    requires n < |orders| && Priced(b, orders, n) && AllowedUpTo(b, orders, n)
    ensures var o := orders[n];
            if o.symbol in b.prices && o.symbol in b.spreads
               && PreTrade.Admissible(o, b.prices[o.symbol], Projected(b, orders, n),
                                      ProjectedIn(b, orders, o.symbol, n), b.dailyLoss,
                                      b.spreads[o.symbol], b.limits, true)
            then Priced(b, orders, n + 1) && AllowedUpTo(b, orders, n + 1)
            else !Admitted(b, orders)
  {
    hide PreTrade.Admissible;
    if Priced(b, orders, |orders|) && AllowedUpTo(b, orders, |orders|) {
      assert AllowedAt(b, orders, n);
    }
  }

  /** The dictionary of symbol notionals holds the projections of the first n orders. */
  ghost predicate Tracks(symbols: map<string, real>, b: BatchTerms, orders: seq<Order>, n: nat)
    requires Priced(b, orders, n)
  {
    forall s: string :: A.Get(symbols, s) == ProjectedIn(b, orders, s, n)
  }

  lemma StartsTracking(b: BatchTerms, orders: seq<Order>)
    ensures Projected(b, orders, 0) == b.portfolio && Tracks(b.symbols, b, orders, 0)
  {
  }

  lemma TracksOne(symbols: map<string, real>, b: BatchTerms, orders: seq<Order>, n: nat, symbol: string)
    requires Priced(b, orders, n) && Tracks(symbols, b, orders, n)
    ensures A.Get(symbols, symbol) == ProjectedIn(b, orders, symbol, n)
  {
  }

  /** One order further. */
  lemma TracksOn(symbols: map<string, real>, after: map<string, real>, b: BatchTerms, orders: seq<Order>, n: nat)
    requires n < |orders| && Priced(b, orders, n + 1) && Tracks(symbols, b, orders, n)
    requires var o := orders[n]; after == symbols[o.symbol := A.Get(symbols, o.symbol) + NotionalOf(b, o)]
    ensures Projected(b, orders, n + 1) == Projected(b, orders, n) + NotionalOf(b, orders[n])
    ensures Tracks(after, b, orders, n + 1)
  {
    hide NotionalOf;
    forall s: string ensures A.Get(after, s) == ProjectedIn(b, orders, s, n + 1) {
      assert A.Get(symbols, s) == ProjectedIn(b, orders, s, n);
    }
  }

  predicate Authorized(quoted: Outcome<V.Quote>, config: Config, o: Order) {
    quoted.Ok? && quoted.value.symbol == o.symbol && quoted.value.venue in config.venues && quoted.value.healthy
  }

  /** If the first loop lets the batch through, then every prefix of it, and so all of it, fits the
      portfolio limit on top of the baseline, and so it does in every symbol it trades. */
  lemma {:induction false} EveryPrefixFits(b: BatchTerms, orders: seq<Order>, n: nat)
    requires Priced(b, orders, n) && AllowedUpTo(b, orders, n)
    ensures n > 0 ==> b.portfolio < Projected(b, orders, n) <= b.limits.maxPortfolio
    ensures forall k: nat | k < n ::
              A.Get(b.symbols, orders[k].symbol) < ProjectedIn(b, orders, orders[k].symbol, n) <= b.limits.maxSymbol
    ensures forall k: nat | k < n :: NotionalOf(b, orders[k]) <= b.limits.maxOrder
    ensures forall s: string :: A.Get(b.symbols, s) <= ProjectedIn(b, orders, s, n)
  {
    if n > 0 {
      EveryPrefixFits(b, orders, n - 1);
      var o := orders[n - 1];
      OneAllowed(b, orders, n - 1);
      hide NotionalOf; hide AllowedAt;
    }
  }

  lemma OneAllowed(b: BatchTerms, orders: seq<Order>, k: nat)
    requires Priced(b, orders, k + 1) && AllowedAt(b, orders, k)
    ensures 0.0 < NotionalOf(b, orders[k]) <= b.limits.maxOrder
    ensures Projected(b, orders, k) + NotionalOf(b, orders[k]) <= b.limits.maxPortfolio
    ensures ProjectedIn(b, orders, orders[k].symbol, k) + NotionalOf(b, orders[k]) <= b.limits.maxSymbol
  {
    hide Projected; hide ProjectedIn;
    PositiveNotional(orders[k].quantity, b.prices[orders[k].symbol]);
    assert 0.0 < NotionalOf(b, orders[k]) == PreTrade.Notional(orders[k], b.prices[orders[k].symbol]);
    hide NotionalOf; hide PreTrade.Notional;
  }

  lemma PositiveNotional(x: real, y: real)
    requires x > 0.0 && y > 0.0
    ensures x * y > 0.0
  {
  }

  /** The second loop's risk check repeats the first one's verdict: once the batch is admitted, an
      order is turned away at the gates only for its configuration hash, a quote that is no longer
      authorized and healthy, an unresolved record, or the control state. */
  lemma SecondVerdictIsTheFirst(b: BatchTerms, orders: seq<Order>, k: nat, config: Config, quote: V.Quote,
                                unresolved: set<Id>, controlsNormal: bool, routable: bool)
    requires Admitted(b, orders) && k < |orders|
    ensures GatesOpen(orders[k], config, quote, TermsFor(b, orders, k, controlsNormal, routable), unresolved) <==>
              && (orders[k].metadata.configHash.Some? ==> orders[k].metadata.configHash.value == config.hash)
              && quote.symbol == orders[k].symbol && quote.venue in config.venues && quote.healthy
              && unresolved == {} && controlsNormal
  {
    assert AllowedAt(b, orders, k);
  }

  /** Ids submitted by a whole batch: all new to the journal at its start, all in it at its end. */
  ghost predicate BatchWriteAhead(t: J.Tables, t': J.Tables, calls: seq<Id>) {
    && JR.TablesEvolve(t, t')
    && (forall k | 0 <= k < |calls| :: calls[k] !in t.rows && calls[k] in t'.rows && t'.rows[calls[k]].clientId.Some?)
    && Distinct(calls)
  }

  lemma NothingSubmitted(t: J.Tables)
    ensures BatchWriteAhead(t, t, [])
  {
  }

  lemma OneMoreOrder(t: J.Tables, t': J.Tables, t'': J.Tables, before: seq<Id>, calls: seq<Id>, parent: Id)
    requires BatchWriteAhead(t, t', before) && JR.TablesEvolve(t', t'') && WriteAhead(t', t'', parent, calls)
    ensures BatchWriteAhead(t, t'', before + calls)
  {
    forall id | id in t.rows ensures id in t''.rows && JR.Evolves(t.rows[id], t''.rows[id])
                                     && J.LedgerOf(t, id).Keys <= J.LedgerOf(t'', id).Keys {
      assert JR.Evolves(t.rows[id], t'.rows[id]) && JR.Evolves(t'.rows[id], t''.rows[id]);
    }
    forall k | 0 <= k < |before| ensures before[k] in t''.rows && t''.rows[before[k]].clientId.Some? {
      assert JR.Evolves(t'.rows[before[k]], t''.rows[before[k]]);
    }
    DistinctAppend(before, calls);
  }

  lemma DistinctAppend(a: seq<Id>, b: seq<Id>)
    requires Distinct(a) && Distinct(b) && forall i, j | 0 <= i < |a| && 0 <= j < |b| :: a[i] != b[j]
    ensures Distinct(a + b)
  {
  }

  // ----- The second loop -----

  /** One execution of the batch: what it started from, what the clock, the control state and the
      router said, how it went and what it left. */
  datatype BatchStep = BatchStep(world: World, exposure: A.Tables, controlsNormal: bool, routable: bool,
                                 fingerprint: Id, now: real, tale: Tale, ending: Ending)

  /** Step k executes order k, on top of the notional of the ones before it. */
  ghost predicate StepRan(b: BatchTerms, orders: seq<Order>, k: nat, config: Config, scope: A.Scope, s: BatchStep)
    requires Priced(b, orders, k + 1)
  {
    && O.OmsOk(s.world.oms)
    && var terms := TermsFor(b, orders, k, s.controlsNormal, s.routable);
    && s.tale.exit == s.ending.exit
    && Performed(s.world, s.ending.world, s.exposure, s.ending.exposure, orders[k], terms, config, scope,
                 s.fingerprint, s.now, s.ending.result, s.tale)
  }

  /** Everything said to the broker in these executions, one after the other. */
  function AllSaid(orders: seq<Order>, config: Config, steps: seq<BatchStep>): seq<Answer>
    requires |steps| <= |orders|
  {
    if steps == [] then []
    else
      var last := |steps| - 1;
      AllSaid(orders, config, steps[..last]) + Said(orders[last], config, steps[last].tale)
  }

  /** The steps run one after the other from (w, t) to (w', t'), in order; only the last may have failed. */
  ghost predicate BatchRan(b: BatchTerms, orders: seq<Order>, config: Config, scope: A.Scope, steps: seq<BatchStep>,
                           w: World, t: A.Tables, w': World, t': A.Tables)
    requires Priced(b, orders, |orders|)
  {
    if steps == [] then w' == w && t' == t
    else
      var n, last := |steps| - 1, steps[|steps| - 1];
      && n < |orders| && BatchRan(b, orders, config, scope, steps[..n], w, t, last.world, last.exposure)
      && (n > 0 ==> steps[n - 1].ending.result.Ok?)
      && StepRan(b, orders, n, config, scope, last) && w' == last.ending.world && t' == last.ending.exposure
  }

  /** What the batch returns: every report, or the first exception. */
  ghost predicate BatchResult(orders: seq<Order>, steps: seq<BatchStep>, r: Outcome<seq<Report>>) {
    match r
    case Ok(reports) =>
      |reports| == |steps| == |orders| && forall k | 0 <= k < |steps| :: steps[k].ending.result == Ok(reports[k])
    case Raised(error) => steps != [] && steps[|steps| - 1].ending.result == Raised(error)
  }

  /** The quotes asked for in the first loop, as broker calls: one for the symbol of each order in turn. */
  function Asked(orders: seq<Order>, quotes: seq<Outcome<V.Quote>>): seq<Answer>
    requires |quotes| <= |orders|
  {
    seq(|quotes|, k requires 0 <= k < |quotes| => Quoted(orders[k].symbol, quotes[k]))
  }

  lemma AskedOneMore(orders: seq<Order>, quotes: seq<Outcome<V.Quote>>, quoted: seq<Outcome<V.Quote>>)
    requires |quotes| < |orders| && |quoted| <= 1
    ensures Asked(orders, quotes + quoted) == Asked(orders, quotes) + Asked([orders[|quotes|]], quoted)
  {
  }

  lemma NothingSaidYet(orders: seq<Order>, config: Config)
    ensures AllSaid(orders, config, []) == []
  {
  }

  lemma NothingRan(b: BatchTerms, orders: seq<Order>, config: Config, scope: A.Scope, w: World, t: A.Tables)
    requires Priced(b, orders, |orders|)
    ensures BatchRan(b, orders, config, scope, [], w, t, w, t)
  {
  }

  lemma OneMoreRan(b: BatchTerms, orders: seq<Order>, config: Config, scope: A.Scope, steps: seq<BatchStep>, w: World,
                   t: A.Tables, s: BatchStep)
    requires Priced(b, orders, |orders|) && |steps| < |orders|
             && BatchRan(b, orders, config, scope, steps, w, t, s.world, s.exposure)
    requires steps != [] ==> steps[|steps| - 1].ending.result.Ok?
    requires StepRan(b, orders, |steps|, config, scope, s)
    ensures BatchRan(b, orders, config, scope, steps + [s], w, t, s.ending.world, s.ending.exposure)
    ensures AllSaid(orders, config, steps + [s])
         == AllSaid(orders, config, steps) + Said(orders[|steps|], config, s.tale)
  {
    hide StepRan; hide Said;
    assert (steps + [s])[..|steps|] == steps;
  }
}
