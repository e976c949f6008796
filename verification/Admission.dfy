/** PersistentPortfolioAdmission: the object whose methods run the exposure ledger's transactions,
    each proved to do exactly what AdmissionSpec says. */
module Admission {
  import opened Common
  import opened AdmissionSpec
  import Sums

  class PersistentPortfolioAdmission {
    var reservations: map<Id, Reservation>
    var exposure: map<Scope, real>
    var symbolExposure: map<(Scope, Symbol), real>

    constructor ()
      ensures Snapshot() == Tables(map[], map[], map[])
    {
      reservations, exposure, symbolExposure := map[], map[], map[];
    }

    function Snapshot(): Tables
      reads this
    {
      Tables(reservations, exposure, symbolExposure)
    }

    /** The loop over the requested symbols: may each one still be reserved? */
    method CheckSymbols(live: map<Id, Reservation>, scope: Scope, symbols: map<Symbol, real>, limit: real)
      returns (fits: bool)
      ensures fits == SymbolsFit(Tables(live, exposure, symbolExposure), scope, symbols, limit)
    {
      var rest := symbols.Keys;
      while rest != {}
        invariant rest <= symbols.Keys
        invariant forall s | s in symbols && s !in rest ::
                    Get(symbolExposure, (scope, s)) + Sums.Total(InSymbol(live, scope, s)) + symbols[s] <= limit
        decreases |rest|
      {
        var s :| s in rest;
        var reserved := Sums.AddUp(InSymbol(live, scope, s));
        if Get(symbolExposure, (scope, s)) + reserved + symbols[s] > limit {
          return false;
        }
        rest := rest - {s};
      }
      fits := true;
    }

    method Reserve(id: Id, scope: Scope, portfolio: real, symbols: map<Symbol, real>, limits: Limits, ttl: Option<real>,
                   now: real)
      returns (r: Outcome<Reservation>)
      modifies this`reservations
      ensures match AdmissionSpec.Reserve(old(Snapshot()), id, scope, portfolio, symbols, limits, ttl, now)
              case Ok(after) => Snapshot() == after && id in reservations && r == Ok(reservations[id])
              case Raised(error) => Snapshot() == old(Snapshot()) && r == Raised(error)
    {
      if Empty(id) || scope == "" { return Raised(ValueError); }
      if ttl.Some? && ttl.value <= 0.0 { return Raised(ValueError); }
      if "" in symbols { return Raised(ValueError); }
      if portfolio < 0.0 || !NonNegative(symbols) { return Raised(ValueError); }
      var live := Purge(reservations, now);
      if id in live {
        var existing := live[id];
        if existing.scope != scope || existing.portfolio != portfolio || existing.symbols != symbols {
          return Raised(ValueError);
        }
        reservations := live;
        return Ok(existing);
      }
      var reserved := Sums.AddUp(InScope(live, scope));
      if Get(exposure, scope) + reserved + portfolio > limits.maxPortfolio { return Raised(PermissionError); }
      var fits := CheckSymbols(live, scope, symbols, limits.maxSymbol);
      if !fits { return Raised(PermissionError); }
      var expires := None;
      if ttl.Some? {
        expires := Some(now + ttl.value);
      }
      r := Ok(Reservation(scope, portfolio, symbols, now, expires));
      reservations := live[id := r.value];
    }

    /** The loop of commit that adds each symbol's notional to what is already committed. */
    method AddSymbols(scope: Scope, amounts: map<Symbol, real>)
      modifies this`symbolExposure
      ensures symbolExposure == AddExposure(old(symbolExposure), scope, amounts)
    {
      var done: map<Symbol, real> := map[];
      assert AddExposure(symbolExposure, scope, done) == symbolExposure;
      while done.Keys != amounts.Keys
        invariant forall s | s in done :: s in amounts && done[s] == amounts[s]
        invariant symbolExposure == AddExposure(old(symbolExposure), scope, done)
        decreases amounts.Keys - done.Keys
      {
        var s :| s in amounts && s !in done;
        AddOne(old(symbolExposure), scope, done, s, amounts[s]);
        symbolExposure := symbolExposure[(scope, s) := Get(symbolExposure, (scope, s)) + amounts[s]];
        done := done[s := amounts[s]];
      }
      assert done == amounts;
    }

    method Commit(id: Id, portfolio: Option<real>, symbols: Option<map<Symbol, real>>) returns (r: Outcome<()>)
      modifies this
      ensures match AdmissionSpec.Commit(old(Snapshot()), id, portfolio, symbols)
              case Ok(after) => Snapshot() == after && r == Ok(())
              case Raised(error) => Snapshot() == old(Snapshot()) && r == Raised(error)
    {
      if id !in reservations { return Raised(KeyError); }
      var reservation := reservations[id];
      var scope := reservation.scope;
      var amount := if portfolio.Some? then portfolio.value else reservation.portfolio;
      var amounts := if symbols.Some? then symbols.value else reservation.symbols;
      if amount < 0.0 || !NonNegative(amounts) { return Raised(ValueError); }
      if amount > reservation.portfolio { return Raised(ValueError); }
      if !Within(amounts, reservation.symbols) { return Raised(ValueError); }
      exposure := exposure[scope := Get(exposure, scope) + amount];
      AddSymbols(scope, amounts);
      reservations := reservations - {id};
      r := Ok(());
    }

    method Release(id: Id)
      modifies this`reservations
      ensures Snapshot() == AdmissionSpec.Release(old(Snapshot()), id)
    {
      reservations := reservations - {id};
    }
  }

  lemma AddOne(held: map<(Scope, Symbol), real>, scope: Scope, done: map<Symbol, real>, s: Symbol, amount: real)
    requires s !in done
    ensures var before := AddExposure(held, scope, done);
            AddExposure(held, scope, done[s := amount]) == before[(scope, s) := Get(before, (scope, s)) + amount]
  {
  }
}
