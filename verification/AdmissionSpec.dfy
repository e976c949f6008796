/** The persistent exposure ledger as a value: its three tables, and the transaction behind each
    of reserve, commit and release. A transaction that raises is rolled back. */
module AdmissionSpec {
  import opened Common
  import Sums

  type Scope = string
  type Symbol = string

  datatype Limits = Limits(maxOrder: real, maxPortfolio: real, maxSymbol: real, maxDailyLoss: real, maxSpread: real)

  datatype Reservation = Reservation(scope: Scope, portfolio: real, symbols: map<Symbol, real>, createdAt: real,
                                     expiresAt: Option<real>)

  datatype Tables = Tables(reservations: map<Id, Reservation>, exposure: map<Scope, real>,
                           symbolExposure: map<(Scope, Symbol), real>)

  function Get<K>(m: map<K, real>, k: K): real { if k in m then m[k] else 0.0 }

  predicate Expired(r: Reservation, now: real) {
    r.expiresAt.Some? && r.expiresAt.value <= now
  }

  /** DELETE ... WHERE expires_at <= now */
  function Purge(reservations: map<Id, Reservation>, now: real): map<Id, Reservation> {
    map id | id in reservations && !Expired(reservations[id], now) :: reservations[id]
  }

  /** The reserved notional of each reservation of a scope, and of each in one symbol. */
  function InScope(reservations: map<Id, Reservation>, scope: Scope): map<Id, real> {
    map id | id in reservations && reservations[id].scope == scope :: reservations[id].portfolio
  }

  function InSymbol(reservations: map<Id, Reservation>, scope: Scope, symbol: Symbol): map<Id, real> {
    map id | id in reservations && reservations[id].scope == scope :: Get(reservations[id].symbols, symbol)
  }

  ghost function Reserved(t: Tables, scope: Scope): real { Sums.Total(InScope(t.reservations, scope)) }

  ghost function ReservedIn(t: Tables, scope: Scope, symbol: Symbol): real {
    Sums.Total(InSymbol(t.reservations, scope, symbol))
  }

  predicate NonNegative(symbols: map<Symbol, real>) {
    forall s | s in symbols :: symbols[s] >= 0.0
  }

  predicate ReserveArgumentsOk(id: Id, scope: Scope, portfolio: real, symbols: map<Symbol, real>, ttl: Option<real>) {
    && !Empty(id) && scope != "" && (ttl.Some? ==> ttl.value > 0.0)
    && "" !in symbols && portfolio >= 0.0 && NonNegative(symbols)
  }

  ghost predicate SymbolsFit(t: Tables, scope: Scope, symbols: map<Symbol, real>, limit: real) {
    forall s | s in symbols :: Get(t.symbolExposure, (scope, s)) + ReservedIn(t, scope, s) + symbols[s] <= limit
  }

  ghost function Reserve(t: Tables, id: Id, scope: Scope, portfolio: real, symbols: map<Symbol, real>, limits: Limits,
                         ttl: Option<real>, now: real): Outcome<Tables>
  {
    if !ReserveArgumentsOk(id, scope, portfolio, symbols, ttl) then Raised(ValueError)
    else
      var live := t.(reservations := Purge(t.reservations, now));
      if id in live.reservations then
        var r := live.reservations[id];
        if r.scope != scope || r.portfolio != portfolio || r.symbols != symbols then Raised(ValueError) else Ok(live)
      else if Get(t.exposure, scope) + Reserved(live, scope) + portfolio > limits.maxPortfolio
      then Raised(PermissionError)
      else if !SymbolsFit(live, scope, symbols, limits.maxSymbol) then Raised(PermissionError)
      else
        var expires := if ttl.Some? then Some(now + ttl.value) else None;
        Ok(live.(reservations := live.reservations[id := Reservation(scope, portfolio, symbols, now, expires)]))
  }

  /** Every entry of `added`, on top of what the scope already holds. */
  function AddExposure(held: map<(Scope, Symbol), real>, scope: Scope,
                       added: map<Symbol, real>): map<(Scope, Symbol), real> {
    map k | k in held.Keys + (set s | s in added :: (scope, s)) ::
      Get(held, k) + (if k.0 == scope then Get(added, k.1) else 0.0)
  }

  predicate Within(amounts: map<Symbol, real>, reserved: map<Symbol, real>) {
    forall s | s in amounts :: amounts[s] <= Get(reserved, s)
  }

  function Commit(t: Tables, id: Id, portfolio: Option<real>, symbols: Option<map<Symbol, real>>): Outcome<Tables>
  {
    if id !in t.reservations then Raised(KeyError)
    else
      var r := t.reservations[id];
      var amount := if portfolio.Some? then portfolio.value else r.portfolio;
      var amounts := if symbols.Some? then symbols.value else r.symbols;
      if amount < 0.0 || !NonNegative(amounts) || amount > r.portfolio || !Within(amounts, r.symbols)
      then Raised(ValueError)
      else Ok(Tables(t.reservations - {id}, t.exposure[r.scope := Get(t.exposure, r.scope) + amount],
                     AddExposure(t.symbolExposure, r.scope, amounts)))
  }

  function Release(t: Tables, id: Id): Tables {
    t.(reservations := t.reservations - {id})
  }
}
