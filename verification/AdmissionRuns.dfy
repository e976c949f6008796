/** Exposure is never oversubscribed: what any interleaving of reserve, commit and release, by any
    number of workers with any clocks, keeps of the exposure ledger. */
module AdmissionRuns {
  import opened Common
  import opened AdmissionSpec
  import Sums

  datatype Op =
    | DoReserve(id: Id, scope: Scope, portfolio: real, symbols: map<Symbol, real>, limits: Limits, ttl: Option<real>,
                now: real)
    | DoCommit(id: Id, committed: Option<real>, committedSymbols: Option<map<Symbol, real>>)
    | DoRelease(id: Id)

  ghost function Apply(t: Tables, op: Op): Tables {
    var after := match op
      case DoReserve(id, scope, portfolio, symbols, limits, ttl, now) =>
        Reserve(t, id, scope, portfolio, symbols, limits, ttl, now)
      case DoCommit(id, committed, committedSymbols) => Commit(t, id, committed, committedSymbols)
      case DoRelease(id) => Ok(Release(t, id));
    if after.Ok? then after.value else t
  }

  ghost function Run(t: Tables, ops: seq<Op>): Tables {
    if ops == [] then t else Apply(Run(t, ops[..|ops| - 1]), ops[|ops| - 1])
  }

  /** Committed plus live reserved notional of a scope, and of one symbol in it. */
  ghost function Used(t: Tables, scope: Scope): real { Get(t.exposure, scope) + Reserved(t, scope) }

  ghost function UsedIn(t: Tables, scope: Scope, symbol: Symbol): real {
    Get(t.symbolExposure, (scope, symbol)) + ReservedIn(t, scope, symbol)
  }

  ghost predicate TablesOk(t: Tables) {
    && (forall id | id in t.reservations ::
        t.reservations[id].portfolio >= 0.0 && NonNegative(t.reservations[id].symbols))
    && (forall s | s in t.exposure :: t.exposure[s] >= 0.0)
    && (forall k | k in t.symbolExposure :: t.symbolExposure[k] >= 0.0)
  }

  /** No `reserve` of the scope passes a limit above these. */
  ghost predicate Capped(op: Op, scope: Scope, portfolio: real, symbol: real) {
    op.DoReserve? && op.scope == scope ==> op.limits.maxPortfolio <= portfolio && op.limits.maxSymbol <= symbol
  }

  /** Dropping reservations, whichever they are, frees capacity and changes nothing else. */
  lemma DroppingFrees(t: Tables, t': Tables, scope: Scope, symbol: Symbol)
    requires TablesOk(t) && t'.exposure == t.exposure && t'.symbolExposure == t.symbolExposure
    requires forall id | id in t'.reservations :: id in t.reservations && t'.reservations[id] == t.reservations[id]
    ensures Used(t', scope) <= Used(t, scope) && UsedIn(t', scope, symbol) <= UsedIn(t, scope, symbol)
  {
    Sums.TotalSubmap(InScope(t'.reservations, scope), InScope(t.reservations, scope));
    Sums.TotalSubmap(InSymbol(t'.reservations, scope, symbol), InSymbol(t.reservations, scope, symbol));
  }

  /** Adding one reservation raises the reserved sums by exactly what it asks for. */
  lemma AddingReserves(t: Tables, id: Id, r: Reservation, scope: Scope, symbol: Symbol)
    requires id !in t.reservations
    ensures var t' := t.(reservations := t.reservations[id := r]);
            && Reserved(t', scope) == Reserved(t, scope) + (if r.scope == scope then r.portfolio else 0.0)
            && ReservedIn(t', scope, symbol)
               == ReservedIn(t, scope, symbol) + (if r.scope == scope then Get(r.symbols, symbol) else 0.0)
  {
    var more := t.reservations[id := r];
    if r.scope == scope {
      assert InScope(more, scope) == InScope(t.reservations, scope)[id := r.portfolio];
      assert InSymbol(more, scope, symbol) == InSymbol(t.reservations, scope, symbol)[id := Get(r.symbols, symbol)];
      Sums.TotalUpdate(InScope(t.reservations, scope), id, r.portfolio);
      Sums.TotalUpdate(InSymbol(t.reservations, scope, symbol), id, Get(r.symbols, symbol));
    } else {
      assert InScope(more, scope) == InScope(t.reservations, scope);
      assert InSymbol(more, scope, symbol) == InSymbol(t.reservations, scope, symbol);
    }
  }

  /** Removing one reservation lowers them by exactly what it held. */
  lemma RemovingFrees(t: Tables, id: Id, scope: Scope, symbol: Symbol)
    requires id in t.reservations
    ensures var r, t' := t.reservations[id], Release(t, id);
            && Reserved(t', scope) == Reserved(t, scope) - (if r.scope == scope then r.portfolio else 0.0)
            && ReservedIn(t', scope, symbol)
               == ReservedIn(t, scope, symbol) - (if r.scope == scope then Get(r.symbols, symbol) else 0.0)
  {
    var rest := Release(t, id);
    assert rest.(reservations := rest.reservations[id := t.reservations[id]]).reservations == t.reservations;
    AddingReserves(rest, id, t.reservations[id], scope, symbol);
  }

  /** A commit turns part of one reservation into exposure: what was used falls by exactly the
      part of the reservation that was not committed. */
  lemma CommitConserves(t: Tables, id: Id, committed: Option<real>, committedSymbols: Option<map<Symbol, real>>,
                        scope: Scope, symbol: Symbol)
    requires Commit(t, id, committed, committedSymbols).Ok?
    ensures var t', r := Commit(t, id, committed, committedSymbols).value, t.reservations[id];
            var amount := if committed.Some? then committed.value else r.portfolio;
            var amounts := if committedSymbols.Some? then committedSymbols.value else r.symbols;
            && Used(t', scope) == Used(t, scope) - (if r.scope == scope then r.portfolio - amount else 0.0)
            && UsedIn(t', scope, symbol)
               == UsedIn(t, scope, symbol)
                  - (if r.scope == scope then Get(r.symbols, symbol) - Get(amounts, symbol) else 0.0)
  {
    RemovingFrees(t, id, scope, symbol);
    var t', r := Commit(t, id, committed, committedSymbols).value, t.reservations[id];
    assert t'.reservations == Release(t, id).reservations;
    var amounts := if committedSymbols.Some? then committedSymbols.value else r.symbols;
    assert Get(t'.symbolExposure, (scope, symbol))
        == Get(t.symbolExposure, (scope, symbol)) + (if r.scope == scope then Get(amounts, symbol) else 0.0);
  }

  lemma ReserveIsBounded(t: Tables, op: Op, scope: Scope, symbol: Symbol, portfolioCap: real, symbolCap: real)
    requires TablesOk(t) && op.DoReserve? && Capped(op, scope, portfolioCap, symbolCap)
    requires Used(t, scope) <= portfolioCap && UsedIn(t, scope, symbol) <= symbolCap
    ensures TablesOk(Apply(t, op))
    ensures Used(Apply(t, op), scope) <= portfolioCap && UsedIn(Apply(t, op), scope, symbol) <= symbolCap
  {
    var live := t.(reservations := Purge(t.reservations, op.now));
    DroppingFrees(t, live, scope, symbol);
    if Apply(t, op) != t && op.id !in live.reservations {
      var r := Apply(t, op).reservations[op.id];
      AddingReserves(live, op.id, r, scope, symbol);
      assert Apply(t, op) == live.(reservations := live.reservations[op.id := r]);
    }
  }

  /** One step keeps every scope and every symbol within its cap. */
  lemma StepIsBounded(t: Tables, op: Op, scope: Scope, symbol: Symbol, portfolioCap: real, symbolCap: real)
    requires TablesOk(t) && Capped(op, scope, portfolioCap, symbolCap)
    requires Used(t, scope) <= portfolioCap && UsedIn(t, scope, symbol) <= symbolCap
    ensures TablesOk(Apply(t, op))
    ensures Used(Apply(t, op), scope) <= portfolioCap && UsedIn(Apply(t, op), scope, symbol) <= symbolCap
  {
    match op {
      case DoReserve(_, _, _, _, _, _, _) =>
        ReserveIsBounded(t, op, scope, symbol, portfolioCap, symbolCap);
      case DoCommit(id, committed, committedSymbols) =>
        if Commit(t, id, committed, committedSymbols).Ok? {
          CommitConserves(t, id, committed, committedSymbols, scope, symbol);
        }
      case DoRelease(id) =>
        DroppingFrees(t, Release(t, id), scope, symbol);
    }
  }

  /** Under any interleaving, committed exposure plus live reservations of a scope stay within the
      largest portfolio limit any of its reservations was admitted under, and so does every symbol. */
  lemma {:induction false} NeverOversubscribed(t: Tables, ops: seq<Op>, scope: Scope, symbol: Symbol,
                                               portfolioCap: real, symbolCap: real)
    requires TablesOk(t) && Used(t, scope) <= portfolioCap && UsedIn(t, scope, symbol) <= symbolCap
    requires forall op | op in ops :: Capped(op, scope, portfolioCap, symbolCap)
    ensures TablesOk(Run(t, ops))
    ensures Used(Run(t, ops), scope) <= portfolioCap && UsedIn(Run(t, ops), scope, symbol) <= symbolCap
  {
    if ops != [] {
      var before := ops[..|ops| - 1];
      NeverOversubscribed(t, before, scope, symbol, portfolioCap, symbolCap);
      StepIsBounded(Run(t, before), ops[|ops| - 1], scope, symbol, portfolioCap, symbolCap);
    }
  }

  /** What is committed alone is within the cap too: reservations only ever add to it. */
  lemma CommittedIsBounded(ops: seq<Op>, scope: Scope, symbol: Symbol, portfolioCap: real, symbolCap: real)
    requires portfolioCap >= 0.0 && symbolCap >= 0.0
    requires forall op | op in ops :: Capped(op, scope, portfolioCap, symbolCap)
    ensures var t := Run(Tables(map[], map[], map[]), ops);
            Get(t.exposure, scope) <= portfolioCap && Get(t.symbolExposure, (scope, symbol)) <= symbolCap
  {
    var empty := Tables(map[], map[], map[]);
    assert InScope(empty.reservations, scope) == map[] && InSymbol(empty.reservations, scope, symbol) == map[];
    NeverOversubscribed(empty, ops, scope, symbol, portfolioCap, symbolCap);
    var t := Run(empty, ops);
    Sums.TotalNonNegative(InScope(t.reservations, scope));
    Sums.TotalNonNegative(InSymbol(t.reservations, scope, symbol));
  }

  // ----- What each transaction accepts and writes -----

  /** `live` is the ledger without its expired reservations. */
  ghost predicate WithoutExpired(t: Tables, live: Tables, now: real) {
    && live.exposure == t.exposure && live.symbolExposure == t.symbolExposure
    && (forall id :: id in live.reservations <==>
          id in t.reservations
          && (t.reservations[id].expiresAt == None || now < t.reservations[id].expiresAt.value))
    && (forall id | id in live.reservations :: live.reservations[id] == t.reservations[id])
  }

  ghost predicate Askable(id: Id, scope: Scope, portfolio: real, symbols: map<Symbol, real>, ttl: Option<real>) {
    && id != Name("") && scope != "" && (ttl == None || 0.0 < ttl.value) && 0.0 <= portfolio
    && (forall s | s in symbols :: s != "" && 0.0 <= symbols[s])
  }

  /** A reservation that is not live yet is admitted exactly if it fits: on top of what the live ledger
      uses, in the portfolio and in every symbol it asks for. It is then stored as asked for. One that is
      live is confirmed exactly if it asks for the same. Expired ones are gone either way. */
  lemma ReserveIff(t: Tables, live: Tables, id: Id, scope: Scope, portfolio: real, symbols: map<Symbol, real>,
                   limits: Limits, ttl: Option<real>, now: real)
    requires WithoutExpired(t, live, now)
    ensures var r := Reserve(t, id, scope, portfolio, symbols, limits, ttl, now);
            if !Askable(id, scope, portfolio, symbols, ttl) then r == Raised(ValueError)
            else if id in live.reservations then
              var held := live.reservations[id];
              if held.scope == scope && held.portfolio == portfolio && held.symbols == symbols then r == Ok(live)
              else r == Raised(ValueError)
            else if && Used(live, scope) + portfolio <= limits.maxPortfolio
                    && forall s | s in symbols :: UsedIn(live, scope, s) + symbols[s] <= limits.maxSymbol
            then
              && r.Ok? && r.value.exposure == t.exposure && r.value.symbolExposure == t.symbolExposure
              && r.value.reservations == live.reservations[id := r.value.reservations[id]]
              && var made := r.value.reservations[id];
              && made.scope == scope && made.portfolio == portfolio && made.symbols == symbols
              && made.createdAt == now && made.expiresAt == (if ttl == None then None else Some(now + ttl.value))
            else r == Raised(PermissionError)
  {
    assert live == t.(reservations := Purge(t.reservations, now));
    hide Reserved; hide ReservedIn; hide Get; hide Purge;
    assert "" !in symbols && NonNegative(symbols) <==> forall s | s in symbols :: s != "" && 0.0 <= symbols[s];
  }

  /** No amount is negative, or more than is reserved for its symbol. */
  ghost predicate Inside(amounts: map<Symbol, real>, reserved: map<Symbol, real>) {
    forall s | s in amounts :: 0.0 <= amounts[s] <= (if s in reserved then reserved[s] else 0.0)
  }

  /** A commit is accepted exactly within its reservation, in the whole and in every symbol. It removes
      that reservation, and adds what it commits to the exposure of its scope. */
  lemma CommitIff(t: Tables, id: Id, committed: Option<real>, committedSymbols: Option<map<Symbol, real>>)
    ensures var r := Commit(t, id, committed, committedSymbols);
            if id !in t.reservations then r == Raised(KeyError)
            else
              var held := t.reservations[id];
              var amount := if committed == None then held.portfolio else committed.value;
              var amounts := if committedSymbols == None then held.symbols else committedSymbols.value;
              if 0.0 <= amount <= held.portfolio && Inside(amounts, held.symbols) then
                && r.Ok? && r.value.reservations == t.reservations - {id}
                && r.value.exposure.Keys == t.exposure.Keys + {held.scope}
                && (forall scope | scope in r.value.exposure ::
                      r.value.exposure[scope] == (if scope in t.exposure then t.exposure[scope] else 0.0)
                                                 + (if scope == held.scope then amount else 0.0))
                && (forall k | k in r.value.symbolExposure ::
                      r.value.symbolExposure[k]
                      == (if k in t.symbolExposure then t.symbolExposure[k] else 0.0)
                         + (if k.0 == held.scope && k.1 in amounts then amounts[k.1] else 0.0))
                && (forall k :: k in r.value.symbolExposure
                                <==> k in t.symbolExposure || (k.0 == held.scope && k.1 in amounts))
              else r == Raised(ValueError)
  {
    if id in t.reservations {
      var held := t.reservations[id];
      var amounts := if committedSymbols == None then held.symbols else committedSymbols.value;
      FitsIff(amounts, held.symbols);
    }
    hide NonNegative; hide AdmissionSpec.Within; hide Inside;
  }

  lemma FitsIff(amounts: map<Symbol, real>, reserved: map<Symbol, real>)
    ensures NonNegative(amounts) && AdmissionSpec.Within(amounts, reserved) <==> Inside(amounts, reserved)
  {
  }

  lemma ReleaseWrites(t: Tables, id: Id)
    ensures var t' := Release(t, id);
            && t'.exposure == t.exposure && t'.symbolExposure == t.symbolExposure && id !in t'.reservations
            && (forall other | other != id :: other in t'.reservations <==> other in t.reservations)
            && (forall other | other in t'.reservations :: t'.reservations[other] == t.reservations[other])
  {
  }
}
