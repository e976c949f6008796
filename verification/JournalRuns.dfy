/** What every run of the recovery journal keeps. A run is any interleaving of the public
    operations by any number of processes; `recover_unknown` is two steps, the read it makes
    outside its transaction and the transaction itself. */
module JournalRuns {
  import opened Common
  import opened JournalSpec
  import Sums

  datatype Op =
    | Begin(id: Id, now: real, parent: Option<Id>, client: Option<Id>, requested: Option<real>, rejectExisting: bool)
    | Fill(id: Id, quantity: real, price: real, now: real, fillId: Option<Id>)
    | MarkUnknown(id: Id, error: string, now: real)
    | MarkWorking(id: Id, venueId: Id, now: real)
    | MarkCancelRequested(id: Id, now: real)
    | MarkCancelled(id: Id, now: real)
    | MarkRecovered(id: Id, now: real)
    | RecoverRead(token: nat, id: Id)
    | RecoverWrite(token: nat, venue: Option<Id>, status: State, filled: real, notional: real, now: real,
                   reports: Option<seq<DealReport>>)

  /** The tables, and the row each recovery in progress has read. */
  datatype System = System(tables: Tables, pending: map<nat, (Id, Row)>)

  const START: System := System(EMPTY_TABLES, map[])

  ghost function Transaction(s: System, op: Op): Outcome<Tables> {
    var t := s.tables;
    match op
    case Begin(id, now, parent, client, requested, rejectExisting) =>
      BeginSubmission(t, id, now, parent, client, requested, rejectExisting)
    case Fill(id, quantity, price, now, fillId) => MarkFill(t, id, quantity, price, now, fillId)
    case MarkUnknown(id, error, now) => Update(t, id, Unknown, None, Some(error), now)
    case MarkWorking(id, venue, now) => Update(t, id, Working, Some(venue), None, now)
    case MarkCancelRequested(id, now) => Update(t, id, CancelPending, None, None, now)
    case MarkCancelled(id, now) => Update(t, id, Cancelled, None, None, now)
    case MarkRecovered(id, now) => Update(t, id, Recovered, None, None, now)
    case RecoverRead(token, id) => if id in t.rows then Ok(t) else Raised(KeyError)
    case RecoverWrite(token, venue, status, filled, notional, now, reports) =>
      if token in s.pending
      then Recover(t, s.pending[token].1, s.pending[token].0, venue, status, filled, notional, now, reports)
      else Raised(KeyError)
  }

  ghost function Apply(s: System, op: Op): System {
    var after := Transaction(s, op);
    if after.Raised? then s
    else System(after.value,
                if op.RecoverRead? then s.pending[op.token := (op.id, s.tables.rows[op.id])] else s.pending)
  }

  ghost function Run(s: System, ops: seq<Op>): System {
    if ops == [] then s else Apply(Run(s, ops[..|ops| - 1]), ops[|ops| - 1])
  }

  // ----- Identity and lifecycle -----

  ghost predicate RowOk(row: Row) {
    && row.filled >= 0.0 && row.notional >= 0.0
    && (row.requested.Some? ==> row.requested.value > 0.0)
    && row.state != RecoveryRequired
  }

  ghost predicate LedgerOk(l: Ledger) {
    forall f | f in l :: l[f].quantity > 0.0 && l[f].price > 0.0
  }

  ghost predicate ClientsInjective(rows: map<Id, Row>) {
    forall a, b | a in rows && b in rows && rows[a].clientId.Some? && rows[a].clientId == rows[b].clientId :: a == b
  }

  ghost predicate TablesOk(t: Tables) {
    && (forall id | id in t.rows :: RowOk(t.rows[id]))
    && (forall id | id in t.fills :: id in t.rows && LedgerOk(t.fills[id]))
    && ClientsInjective(t.rows)
  }

  /** What may become of a row over any number of operations: identities are write-once, and an
      order that was rejected, expired or recovered keeps its state and its amounts. */
  ghost predicate Evolves(a: Row, b: Row) {
    && (a.parentId.Some? ==> b.parentId == a.parentId)
    && (a.clientId.Some? ==> b.clientId == a.clientId)
    && (a.requested.Some? ==> b.requested == a.requested)
    && (a.venueId.Some? ==> b.venueId.Some?)
    && (a.state in {Rejected, Expired, Recovered} ==>
          b.state == a.state && b.filled == a.filled && b.notional == a.notional && b.complete == a.complete)
  }

  /** No row and no recorded deal ever disappears. */
  ghost predicate TablesEvolve(t: Tables, t': Tables) {
    forall id | id in t.rows ::
      && id in t'.rows && Evolves(t.rows[id], t'.rows[id])
      && LedgerOf(t, id).Keys <= LedgerOf(t', id).Keys
  }

  ghost predicate SystemOk(s: System) {
    && TablesOk(s.tables)
    && forall k | k in s.pending ::
       s.pending[k].0 in s.tables.rows && Evolves(s.pending[k].1, s.tables.rows[s.pending[k].0])
  }

  lemma {:induction false} NormalizedLedgerOk(reports: seq<DealReport>, now: real)
    requires Normalize(reports, now).Ok?
    ensures LedgerOk(Normalize(reports, now).value)
  {
    if reports != [] {
      NormalizedLedgerOk(reports[..|reports| - 1], now);
    }
  }

  /** Only the row and the ledger of `id` may differ. */
  ghost predicate Touches(t: Tables, t': Tables, id: Id) {
    && t'.rows.Keys == t.rows.Keys + {id}
    && (forall other | other in t.rows && other != id :: t'.rows[other] == t.rows[other])
    && (forall other | other != id :: LedgerOf(t', other) == LedgerOf(t, other))
  }

  lemma TouchEvolves(t: Tables, t': Tables, id: Id)
    requires TablesOk(t) && Touches(t, t', id) && RowOk(t'.rows[id]) && LedgerOk(LedgerOf(t', id))
    requires t'.fills.Keys <= t'.rows.Keys
    requires id in t.rows ==> Evolves(t.rows[id], t'.rows[id]) && LedgerOf(t, id).Keys <= LedgerOf(t', id).Keys
    requires if id in t.rows && t'.rows[id].clientId == t.rows[id].clientId then true
             else !ClientTaken(t.rows, id, t'.rows[id].clientId)
    ensures TablesOk(t') && TablesEvolve(t, t')
  {
    forall other | other in t'.fills ensures other in t'.rows && LedgerOk(t'.fills[other]) {
      assert LedgerOf(t', other) == t'.fills[other];
    }
  }

  lemma BeginEvolves(t: Tables, id: Id, now: real, parent: Option<Id>, client: Option<Id>, requested: Option<real>,
                     rejectExisting: bool)
    requires TablesOk(t) && BeginSubmission(t, id, now, parent, client, requested, rejectExisting).Ok?
    ensures var t' := BeginSubmission(t, id, now, parent, client, requested, rejectExisting).value;
            Touches(t, t', id) && TablesOk(t') && TablesEvolve(t, t')
  {
    var t' := BeginSubmission(t, id, now, parent, client, requested, rejectExisting).value;
    assert t'.fills == t.fills;
    if id in t.rows {
      assert RowOk(t.rows[id]) && RowOk(t'.rows[id]) && Evolves(t.rows[id], t'.rows[id]);
    }
    TouchEvolves(t, t', id);
  }

  lemma ProductPositive(x: real, y: real)
    requires x > 0.0 && y > 0.0
    ensures x * y > 0.0
  {
  }

  lemma FillEvolves(t: Tables, id: Id, quantity: real, price: real, now: real, fillId: Option<Id>)
    requires TablesOk(t) && MarkFill(t, id, quantity, price, now, fillId).Ok?
    ensures var t' := MarkFill(t, id, quantity, price, now, fillId).value;
            Touches(t, t', id) && TablesOk(t') && TablesEvolve(t, t')
  {
    var t' := MarkFill(t, id, quantity, price, now, fillId).value;
    if t' != t {
      ProductPositive(quantity, price);
      assert RowOk(t.rows[id]);
      TouchEvolves(t, t', id);
    }
  }

  lemma UpdateEvolves(t: Tables, id: Id, state: State, venue: Option<Id>, error: Option<string>, now: real)
    requires TablesOk(t) && Update(t, id, state, venue, error, now).Ok?
    ensures var t' := Update(t, id, state, venue, error, now).value;
            Touches(t, t', id) && TablesOk(t') && TablesEvolve(t, t')
  {
    var t' := Update(t, id, state, venue, error, now).value;
    assert RowOk(t.rows[id]);
    TouchEvolves(t, t', id);
  }

  lemma RecoveredRowEvolves(t: Tables, snapshot: Row, id: Id, venue: Option<Id>, status: State, filled: real,
                            notional: real, now: real, reports: Option<seq<DealReport>>)
    requires Recover(t, snapshot, id, venue, status, filled, notional, now, reports).Ok?
    ensures var t' := Recover(t, snapshot, id, venue, status, filled, notional, now, reports).value;
            && id in t.rows && t.rows[id].state == Unknown && id in t'.rows
            && (RowOk(t.rows[id]) ==> RowOk(t'.rows[id]))
            && Evolves(t.rows[id], t'.rows[id]) && t'.rows[id].clientId == t.rows[id].clientId
            && t'.rows == t.rows[id := t'.rows[id]]
            && t'.fills == (if reports.Some? then t.fills[id := Normalize(reports.value, now).value] else t.fills)
            && (reports.Some?
                ==> Normalize(reports.value, now).Ok? && Covers(Normalize(reports.value, now).value, LedgerOf(t, id)))
  {
  }

  lemma RecoveryEvolves(t: Tables, snapshot: Row, id: Id, venue: Option<Id>, status: State, filled: real,
                        notional: real, now: real, reports: Option<seq<DealReport>>)
    requires TablesOk(t) && Recover(t, snapshot, id, venue, status, filled, notional, now, reports).Ok?
    ensures var t' := Recover(t, snapshot, id, venue, status, filled, notional, now, reports).value;
            Touches(t, t', id) && TablesOk(t') && TablesEvolve(t, t')
  {
    RecoveredRowEvolves(t, snapshot, id, venue, status, filled, notional, now, reports);
    RecoveredTablesEvolve(t, Recover(t, snapshot, id, venue, status, filled, notional, now, reports).value, id, reports,
                          now);
  }

  lemma RecoveredTablesEvolve(t: Tables, t': Tables, id: Id, reports: Option<seq<DealReport>>, now: real)
    requires TablesOk(t) && id in t.rows && id in t'.rows && t'.rows == t.rows[id := t'.rows[id]]
    requires RowOk(t'.rows[id]) && Evolves(t.rows[id], t'.rows[id]) && t'.rows[id].clientId == t.rows[id].clientId
    requires reports.Some?
             ==> Normalize(reports.value, now).Ok? && Covers(Normalize(reports.value, now).value, LedgerOf(t, id))
    requires t'.fills == (if reports.Some? then t.fills[id := Normalize(reports.value, now).value] else t.fills)
    ensures Touches(t, t', id) && TablesOk(t') && TablesEvolve(t, t')
  {
    if reports.Some? {
      NormalizedLedgerOk(reports.value, now);
    }
    TouchEvolves(t, t', id);
  }

  /** The order an operation is about. */
  ghost function Subject(s: System, op: Op): Id {
    if op.RecoverWrite? then (if op.token in s.pending then s.pending[op.token].0 else Name("")) else op.id
  }

  lemma TransactionEvolves(s: System, op: Op)
    requires TablesOk(s.tables) && Transaction(s, op).Ok?
    ensures var t' := Transaction(s, op).value;
            Touches(s.tables, t', Subject(s, op)) && TablesOk(t') && TablesEvolve(s.tables, t')
  {
    var t := s.tables;
    match op
    case Begin(id, now, parent, client, requested, rejectExisting) =>
      BeginEvolves(t, id, now, parent, client, requested, rejectExisting);
    case Fill(id, quantity, price, now, fillId) => FillEvolves(t, id, quantity, price, now, fillId);
    case MarkUnknown(id, error, now) => UpdateEvolves(t, id, Unknown, None, Some(error), now);
    case MarkWorking(id, venue, now) => UpdateEvolves(t, id, Working, Some(venue), None, now);
    case MarkCancelRequested(id, now) => UpdateEvolves(t, id, CancelPending, None, None, now);
    case MarkCancelled(id, now) => UpdateEvolves(t, id, Cancelled, None, None, now);
    case MarkRecovered(id, now) => UpdateEvolves(t, id, Recovered, None, None, now);
    case RecoverRead(token, id) =>
    case RecoverWrite(token, venue, status, filled, notional, now, reports) =>
      RecoveryEvolves(t, s.pending[token].1, s.pending[token].0, venue, status, filled, notional, now, reports);
  }

  lemma StepEvolves(s: System, op: Op)
    requires SystemOk(s)
    ensures SystemOk(Apply(s, op)) && TablesEvolve(s.tables, Apply(s, op).tables)
  {
    if Transaction(s, op).Ok? {
      TransactionEvolves(s, op);
      var s' := Apply(s, op);
      forall k | k in s'.pending ensures s'.pending[k].0 in s'.tables.rows
                                         && Evolves(s'.pending[k].1, s'.tables.rows[s'.pending[k].0]) {
        if k in s.pending && s'.pending[k] == s.pending[k] {
          assert Evolves(s.tables.rows[s.pending[k].0], s'.tables.rows[s.pending[k].0]);
        }
      }
    }
  }

  /** Over every run: client ids stay injective, parent, client and requested quantity are
      write-once, RECOVERY_REQUIRED is never entered, REJECTED, EXPIRED and RECOVERED absorb,
      and no row or recorded fill id is lost. */
  lemma {:induction false} RunEvolves(s: System, ops: seq<Op>)
    requires SystemOk(s)
    ensures SystemOk(Run(s, ops)) && TablesEvolve(s.tables, Run(s, ops).tables)
  {
    if ops != [] {
      var before := ops[..|ops| - 1];
      RunEvolves(s, before);
      StepEvolves(Run(s, before), ops[|ops| - 1]);
    }
  }

  /** What one step may do to the row of an existing order. */
  ghost predicate Moves(a: Row, b: Row, recovery: bool) {
    && (a.state == Filled ==> b.state in {Filled, Unknown})
    && (a.state == Cancelled ==> b.state in {Cancelled, Filled, PartiallyFilled})
    && (a.venueId.Some? && b.venueId != a.venueId ==> recovery && a.state == Unknown)
    && (b.filled < a.filled || b.notional < a.notional ==> recovery && a.state == Unknown)
    && (b.state == Recovered && a.state != Recovered ==> a.state in {Submitting, Working, PartiallyFilled})
  }

  /** The amounts and the state of a row fit the quantity it was begun with. */
  ghost predicate Fits(row: Row) {
    row.requested.Some? ==>
      && !Exceeds(row.requested, row.filled)
      && (row.state == Filled ==> Reaches(row.requested, row.filled))
      && (row.state == PartiallyFilled ==> 0.0 < row.filled && !Reaches(row.requested, row.filled))
  }

  lemma FillMoves(t: Tables, id: Id, quantity: real, price: real, now: real, fillId: Option<Id>)
    requires id in t.rows && RowOk(t.rows[id]) && MarkFill(t, id, quantity, price, now, fillId).Ok?
    ensures var b := MarkFill(t, id, quantity, price, now, fillId).value.rows[id];
            Moves(t.rows[id], b, false) && (Fits(t.rows[id]) ==> Fits(b))
  {
    ProductPositive(quantity, price);
    assert Deal(quantity, price, now).Worth() > 0.0;
  }

  lemma UpdateMoves(t: Tables, id: Id, state: State, venue: Option<Id>, error: Option<string>, now: real)
    requires id in t.rows && Update(t, id, state, venue, error, now).Ok? && state !in {Filled, PartiallyFilled}
    ensures var b := Update(t, id, state, venue, error, now).value.rows[id];
            Moves(t.rows[id], b, false) && (Fits(t.rows[id]) ==> Fits(b))
  {
  }

  lemma RecoveryMoves(t: Tables, snapshot: Row, id: Id, venue: Option<Id>, status: State, filled: real, notional: real,
                      now: real, reports: Option<seq<DealReport>>)
    requires id in t.rows && Recover(t, snapshot, id, venue, status, filled, notional, now, reports).Ok?
    ensures var b := Recover(t, snapshot, id, venue, status, filled, notional, now, reports).value.rows[id];
            && Moves(t.rows[id], b, true)
            && (b.venueId != t.rows[id].venueId ==> b.venueId == venue)
            && (snapshot.requested == t.rows[id].requested ==> Fits(b))
  {
  }

  lemma BeginMoves(t: Tables, id: Id, now: real, parent: Option<Id>, client: Option<Id>, requested: Option<real>,
                   rejectExisting: bool)
    requires id in t.rows && BeginSubmission(t, id, now, parent, client, requested, rejectExisting).Ok?
    ensures var b := BeginSubmission(t, id, now, parent, client, requested, rejectExisting).value.rows[id];
            Moves(t.rows[id], b, false) && (t.rows[id].requested.Some? && Fits(t.rows[id]) ==> Fits(b))
  {
  }

  /** If a recovery is about to write, the quantity it read is the quantity bound now. */
  ghost predicate ReadIsCurrent(s: System, op: Op, id: Id)
    requires id in s.tables.rows
  {
    op.RecoverWrite? && op.token in s.pending && s.pending[op.token].0 == id
    ==> s.pending[op.token].1.requested == s.tables.rows[id].requested
  }

  lemma SubjectMoves(s: System, op: Op, id: Id)
    requires TablesOk(s.tables) && id in s.tables.rows && id == Subject(s, op)
    requires Transaction(s, op).Ok? && id in Transaction(s, op).value.rows
    ensures Moves(s.tables.rows[id], Transaction(s, op).value.rows[id], op.RecoverWrite?)
    ensures s.tables.rows[id].requested.Some? && Fits(s.tables.rows[id]) && ReadIsCurrent(s, op, id)
            ==> Fits(Transaction(s, op).value.rows[id])
  {
    var t := s.tables;
    assert RowOk(t.rows[id]);
    match op
    case Begin(_, now, parent, client, requested, rejectExisting) =>
      BeginMoves(t, id, now, parent, client, requested, rejectExisting);
    case Fill(_, quantity, price, now, fillId) => FillMoves(t, id, quantity, price, now, fillId);
    case MarkUnknown(_, error, now) => UpdateMoves(t, id, Unknown, None, Some(error), now);
    case MarkWorking(_, venue, now) => UpdateMoves(t, id, Working, Some(venue), None, now);
    case MarkCancelRequested(_, now) => UpdateMoves(t, id, CancelPending, None, None, now);
    case MarkCancelled(_, now) => UpdateMoves(t, id, Cancelled, None, None, now);
    case MarkRecovered(_, now) => UpdateMoves(t, id, Recovered, None, None, now);
    case RecoverRead(token, _) =>
    case RecoverWrite(token, venue, status, filled, notional, now, reports) =>
      RecoveryMoves(t, s.pending[token].1, id, venue, status, filled, notional, now, reports);
  }

  lemma StepMoves(s: System, op: Op, id: Id)
    requires SystemOk(s) && id in s.tables.rows
    ensures id in Apply(s, op).tables.rows
    ensures Moves(s.tables.rows[id], Apply(s, op).tables.rows[id], op.RecoverWrite?)
    ensures s.tables.rows[id].requested.Some? && Fits(s.tables.rows[id]) && ReadIsCurrent(s, op, id)
            ==> Fits(Apply(s, op).tables.rows[id])
  {
    StepEvolves(s, op);
    if Transaction(s, op).Ok? {
      TransactionEvolves(s, op);
      if id == Subject(s, op) {
        SubjectMoves(s, op, id);
      }
    }
  }

  /** One step: FILLED is left only to UNKNOWN, a bound venue id changes and recorded amounts fall
      only in a recovery transaction on an UNKNOWN order, RECOVERED is entered only from an order
      that was live, and only `begin_submission` creates a row: in SUBMITTING, with no deals. */
  lemma StepLifecycle(s: System, op: Op, id: Id)
    requires SystemOk(s) && id in Apply(s, op).tables.rows
    ensures if id in s.tables.rows then Moves(s.tables.rows[id], Apply(s, op).tables.rows[id], op.RecoverWrite?)
            else && op.Begin? && op.id == id && LedgerOf(Apply(s, op).tables, id) == map[]
                 && Apply(s, op).tables.rows[id] == NewRow(op.now, op.parent, op.client, op.requested)
  {
    if id in s.tables.rows {
      StepMoves(s, op, id);
    } else {
      assert id !in s.tables.fills;
      if Transaction(s, op).Ok? {
        TransactionEvolves(s, op);
      }
    }
  }

  // ----- The fill ledger and the aggregate -----

  /** A row that claims a complete ledger agrees with it, within the journal's tolerances. */
  ghost predicate Agrees(t: Tables, id: Id)
    requires id in t.rows
  {
    var row := t.rows[id];
    row.complete ==>
      Reconciles(LedgerQuantity(LedgerOf(t, id)), LedgerNotional(LedgerOf(t, id)), row.filled, row.notional)
  }

  ghost predicate LedgersAgree(t: Tables) {
    forall id | id in t.rows :: Agrees(t, id)
  }

  /** The guard of the branch that breaks agreement: a recovery to "nothing filled", without a
      deal list, of an order whose recorded deals add up to more than the tolerance. */
  ghost predicate ErasesLedger(t: Tables, id: Id, filled: real, reports: Option<seq<DealReport>>) {
    && reports.None? && filled == 0.0
    && (LedgerQuantity(LedgerOf(t, id)) > TOL_9 || LedgerNotional(LedgerOf(t, id)) > TOL_7)
  }

  lemma LedgerTotalsNonNegative(l: Ledger)
    requires LedgerOk(l)
    ensures LedgerQuantity(l) >= 0.0 && LedgerNotional(l) >= 0.0
  {
    Sums.TotalNonNegative(Quantities(l));
    Sums.TotalNonNegative(Notionals(l));
  }

  lemma LedgerInsert(l: Ledger, f: Id, d: Deal)
    requires f !in l
    ensures LedgerQuantity(l[f := d]) == LedgerQuantity(l) + d.quantity
    ensures LedgerNotional(l[f := d]) == LedgerNotional(l) + d.Worth()
  {
    assert Quantities(l[f := d]) == Quantities(l)[f := d.quantity];
    assert Notionals(l[f := d]) == Notionals(l)[f := d.Worth()];
    Sums.TotalUpdate(Quantities(l), f, d.quantity);
    Sums.TotalUpdate(Notionals(l), f, d.Worth());
  }

  lemma EmptyLedgerTotals()
    ensures LedgerQuantity(map[]) == 0.0 && LedgerNotional(map[]) == 0.0
  {
    assert Quantities(map[]) == map[] && Notionals(map[]) == map[];
  }

  /** A recovery transaction keeps an agreeing journal in agreement exactly when it does not
      erase a ledger, however old the row it read beforehand. */
  lemma RecoveryAgreesIff(t: Tables, snapshot: Row, id: Id, venue: Option<Id>, status: State, filled: real,
                          notional: real, now: real, reports: Option<seq<DealReport>>)
    requires TablesOk(t) && LedgersAgree(t)
    requires Recover(t, snapshot, id, venue, status, filled, notional, now, reports).Ok?
    ensures LedgersAgree(Recover(t, snapshot, id, venue, status, filled, notional, now, reports).value)
            <==> !ErasesLedger(t, id, filled, reports)
  {
    var t' := Recover(t, snapshot, id, venue, status, filled, notional, now, reports).value;
    forall other | other in t'.rows && other != id ensures Agrees(t', other) {
      assert Agrees(t, other);
      assert LedgerOf(t', other) == LedgerOf(t, other);
    }
    if reports.None? {
      LedgerTotalsNonNegative(LedgerOf(t, id));
    }
    assert Agrees(t', id) <==> !ErasesLedger(t, id, filled, reports);
  }

  /** Adding the same positive amounts to both sides keeps them within tolerance. */
  lemma ReconcilesGrows(sumQuantity: real, sumNotional: real, filled: real, notional: real, quantity: real, worth: real)
    requires Reconciles(sumQuantity, sumNotional, filled, notional) && filled >= 0.0 && notional >= 0.0
             && quantity > 0.0 && worth > 0.0
    ensures Reconciles(sumQuantity + quantity, sumNotional + worth, filled + quantity, notional + worth)
  {
  }

  lemma FilledRowAgrees(t: Tables, t': Tables, id: Id, deal: Deal, now: real, fillId: Id)
    requires TablesOk(t) && id in t.rows && id in t'.rows && Agrees(t, id) && deal.quantity > 0.0 && deal.price > 0.0
    requires fillId !in LedgerOf(t, id) && LedgerOf(t', id) == LedgerOf(t, id)[fillId := deal]
    requires t'.rows[id] == FilledRow(t.rows[id], deal.quantity, deal.price, now, true) && deal.at == now
    ensures Agrees(t', id)
  {
    var row, ledger := t.rows[id], LedgerOf(t, id);
    LedgerInsert(ledger, fillId, deal);
    ProductPositive(deal.quantity, deal.price);
    assert RowOk(row) && deal.Worth() > 0.0 && Deal(deal.quantity, deal.price, now) == deal;
    hide Deal.Worth; hide LedgerOf; hide LedgerQuantity; hide LedgerNotional; hide Reconciles; hide TablesOk;
    if row.complete {
      ReconcilesGrows(LedgerQuantity(ledger), LedgerNotional(ledger), row.filled, row.notional, deal.quantity,
                      deal.Worth());
    }
  }

  lemma FillAgrees(t: Tables, id: Id, quantity: real, price: real, now: real, fillId: Option<Id>)
    requires TablesOk(t) && LedgersAgree(t) && MarkFill(t, id, quantity, price, now, fillId).Ok?
    ensures LedgersAgree(MarkFill(t, id, quantity, price, now, fillId).value)
  {
    var t' := MarkFill(t, id, quantity, price, now, fillId).value;
    if t' != t {
      forall other | other in t'.rows && other != id ensures Agrees(t', other) {
        assert Agrees(t, other);
        assert LedgerOf(t', other) == LedgerOf(t, other);
      }
      assert Agrees(t, id);
      if fillId.Some? {
        FilledRowAgrees(t, t', id, Deal(quantity, price, now), now, fillId.value);
      }
      assert Agrees(t', id);
    }
  }

  ghost predicate Erases(s: System, op: Op) {
    op.RecoverWrite? && op.token in s.pending && ErasesLedger(s.tables, s.pending[op.token].0, op.filled, op.reports)
  }

  lemma StepAgrees(s: System, op: Op)
    requires SystemOk(s) && LedgersAgree(s.tables) && !Erases(s, op)
    ensures LedgersAgree(Apply(s, op).tables)
  {
    var t, t' := s.tables, Apply(s, op).tables;
    if Transaction(s, op).Raised? {
    } else if op.RecoverWrite? {
      RecoveryAgreesIff(t, s.pending[op.token].1, s.pending[op.token].0, op.venue, op.status, op.filled, op.notional,
                        op.now, op.reports);
    } else if op.Fill? {
      FillAgrees(t, op.id, op.quantity, op.price, op.now, op.fillId);
    } else {
      EmptyLedgerTotals();
      forall id | id in t'.rows ensures Agrees(t', id) {
        assert LedgerOf(t', id) == LedgerOf(t, id);
        if id in t.rows {
          assert Agrees(t, id);
        } else {
          assert LedgerOf(t, id) == map[];
        }
      }
    }
  }

  /** Over every run that never erases a ledger, each row marked complete agrees with the sum of
      its recorded deals, in quantity and in notional. */
  lemma {:induction false} RunAgrees(s: System, ops: seq<Op>)
    requires SystemOk(s) && LedgersAgree(s.tables)
    requires forall n | 0 <= n < |ops| :: !Erases(Run(s, ops[..n]), ops[n])
    ensures LedgersAgree(Run(s, ops).tables)
  {
    if ops != [] {
      var last := |ops| - 1;
      forall n | 0 <= n < last ensures !Erases(Run(s, ops[..last][..n]), ops[..last][n]) {
        assert ops[..last][..n] == ops[..n];
      }
      RunAgrees(s, ops[..last]);
      RunEvolves(s, ops[..last]);
      StepAgrees(Run(s, ops[..last]), ops[last]);
    }
  }

  // ----- State against quantity -----

  /** The order exists, was begun with a quantity, and fits it. */
  ghost predicate Fixed(s: System, id: Id) {
    && id in s.tables.rows && s.tables.rows[id].requested.Some? && Fits(s.tables.rows[id])
    && forall k | k in s.pending && s.pending[k].0 == id :: s.pending[k].1.requested == s.tables.rows[id].requested
  }

  /** For an order begun with a quantity, no operation breaks the fit: not even a recovery that
      decides on a row read long before. */
  lemma StepFits(s: System, op: Op, id: Id)
    requires SystemOk(s) && Fixed(s, id)
    ensures Fixed(Apply(s, op), id)
  {
    StepEvolves(s, op);
    StepMoves(s, op, id);
  }

  lemma {:induction false} RunFits(s: System, ops: seq<Op>, id: Id)
    requires SystemOk(s) && Fixed(s, id)
    ensures Fixed(Run(s, ops), id)
  {
    if ops != [] {
      var before := ops[..|ops| - 1];
      RunFits(s, before, id);
      RunEvolves(s, before);
      StepFits(Run(s, before), ops[|ops| - 1], id);
    }
  }

  /** From the moment an order is inserted with a quantity: its fills never exceed the quantity by
      more than 1e-9, FILLED means filled up to 1e-9, and PARTIALLY_FILLED means strictly between. */
  lemma InsertedOrderFits(s: System, begin: Op, ops: seq<Op>)
    requires SystemOk(s) && begin.Begin? && begin.id !in s.tables.rows && begin.requested.Some?
    requires Transaction(s, begin).Ok?
    ensures Fixed(Run(Apply(s, begin), ops), begin.id)
    ensures Run(Apply(s, begin), ops).tables.rows[begin.id].requested == begin.requested
  {
    StepEvolves(s, begin);
    RunFits(Apply(s, begin), ops, begin.id);
    RunEvolves(Apply(s, begin), ops);
  }

  // ----- The bound of every order, however it came by its quantity -----

  /** No order is filled beyond its quantity by more than 1e-9, whenever that was bound. */
  ghost predicate Bounded(t: Tables) {
    forall id | id in t.rows :: !Exceeds(t.rows[id].requested, t.rows[id].filled)
  }

  /** A recovery that read its order before a quantity was bound to it, and brings more than the
      quantity bound since. */
  ghost predicate Overfills(s: System, op: Op) {
    && op.RecoverWrite? && op.token in s.pending && s.pending[op.token].1.requested.None?
    && s.pending[op.token].0 in s.tables.rows
    && Exceeds(s.tables.rows[s.pending[op.token].0].requested, op.filled)
  }

  /** What one transaction makes of the bound of its own order. */
  lemma SubjectBoundIff(s: System, op: Op)
    requires SystemOk(s) && Bounded(s.tables) && Transaction(s, op).Ok?
             && Subject(s, op) in Transaction(s, op).value.rows
    ensures var row := Transaction(s, op).value.rows[Subject(s, op)];
            !Exceeds(row.requested, row.filled) <==> !Overfills(s, op)
  {
    hide LedgerOf; hide LedgerQuantity; hide LedgerNotional; hide Covers; hide Normalize; hide LedgerOk;
    hide ClientsInjective;
    var t := s.tables;
    if op.RecoverWrite? {
      var id, snapshot := s.pending[op.token].0, s.pending[op.token].1;
      RecoveredRowEvolves(t, snapshot, id, op.venue, op.status, op.filled, op.notional, op.now, op.reports);
    }
  }

  /** Exactly one kind of step breaks the bound, in any journal that keeps it. */
  lemma StepBoundedIff(s: System, op: Op)
    requires SystemOk(s) && Bounded(s.tables)
    ensures Bounded(Apply(s, op).tables) <==> !(Transaction(s, op).Ok? && Overfills(s, op))
  {
    if Transaction(s, op).Ok? {
      TransactionEvolves(s, op);
      var t, t', subject := s.tables, Apply(s, op).tables, Subject(s, op);
      SubjectBoundIff(s, op);
      hide Transaction; hide Overfills; hide SystemOk; hide TablesOk; hide TablesEvolve; hide Exceeds;
      forall id | id in t'.rows && id != subject ensures !Exceeds(t'.rows[id].requested, t'.rows[id].filled) {
        assert t'.rows[id] == t.rows[id];
      }
    }
  }

  ghost predicate BoundedAt(s: System, ops: seq<Op>, n: nat)
    requires n <= |ops|
  {
    Bounded(Run(s, ops[..n]).tables)
  }

  ghost predicate OverfillsAt(s: System, ops: seq<Op>, n: nat)
    requires n < |ops|
  {
    Transaction(Run(s, ops[..n]), ops[n]).Ok? && Overfills(Run(s, ops[..n]), ops[n])
  }

  /** Over every run, of all orders together: filled stays within requested plus 1e-9 all along
      exactly when no recovery brings more than a quantity bound since it read its order. */
  lemma {:induction false} RunBoundedIff(s: System, ops: seq<Op>)
    requires SystemOk(s) && Bounded(s.tables)
    ensures (forall n: nat | n <= |ops| :: BoundedAt(s, ops, n))
            <==> (forall n: nat | n < |ops| :: !OverfillsAt(s, ops, n))
  {
    hide Bounded; hide Overfills; hide Transaction; hide Run; hide SystemOk; hide TablesEvolve;
    if ops == [] {
      NothingApplied(s);
    } else {
      var before := ops[..|ops| - 1];
      RunBoundedIff(s, before);
      RunEvolves(s, before);
      LastBoundedIff(s, ops);
      forall n: nat | n < |ops|
        ensures BoundedAt(s, before, n) == BoundedAt(s, ops, n)
        ensures n < |before| ==> OverfillsAt(s, before, n) == OverfillsAt(s, ops, n)
      {
        PrefixAgrees(s, ops, n);
      }
    }
  }

  lemma NothingApplied(s: System)
    requires Bounded(s.tables)
    ensures BoundedAt(s, [], 0)
  {
  }

  lemma PrefixAgrees(s: System, ops: seq<Op>, n: nat)
    requires n < |ops|
    ensures BoundedAt(s, ops[..|ops| - 1], n) == BoundedAt(s, ops, n)
    ensures n < |ops| - 1 ==> OverfillsAt(s, ops[..|ops| - 1], n) == OverfillsAt(s, ops, n)
  {
    hide Run; hide Bounded; hide Transaction; hide Overfills;
    assert ops[..|ops| - 1][..n] == ops[..n];
  }

  lemma LastBoundedIff(s: System, ops: seq<Op>)
    requires ops != [] && SystemOk(Run(s, ops[..|ops| - 1]))
    ensures BoundedAt(s, ops, |ops| - 1) ==> (BoundedAt(s, ops, |ops|) <==> !OverfillsAt(s, ops, |ops| - 1))
  {
    hide Bounded; hide SystemOk; hide Transaction; hide Overfills;
    assert ops[..|ops|] == ops;
    if BoundedAt(s, ops, |ops| - 1) {
      StepBoundedIff(Run(s, ops[..|ops| - 1]), ops[|ops| - 1]);
    }
  }

  // ----- The two ways the guarantees above can be lost -----

  const ORDER: Id := ChildOf(Name("order"), 0)
  const CLIENT: Id := ChildOf(Name("client"), 0)
  const FILL: Id := FillOf(VenueRef("venue", ORDER))

  /** One deal of one lot is recorded, the order becomes UNKNOWN, and the broker answers
      "cancelled, nothing filled" without a deal list. */
  function ErasingRun(): seq<Op> {
    [Begin(ORDER, 0.0, None, Some(CLIENT), Some(2.0), true),
     Fill(ORDER, 1.0, 10.0, 1.0, Some(FILL)),
     MarkUnknown(ORDER, "timeout", 2.0),
     RecoverRead(0, ORDER),
     RecoverWrite(0, None, Cancelled, 0.0, 0.0, 3.0, None)]
  }

  lemma FiveSteps(s: System, ops: seq<Op>)
    requires |ops| == 5
    ensures Run(s, ops) == Apply(Apply(Apply(Apply(Apply(s, ops[0]), ops[1]), ops[2]), ops[3]), ops[4])
  {
    assert ops[..4][..3] == ops[..3] && ops[..3][..2] == ops[..2] && ops[..2][..1] == ops[..1] && ops[..1][..0] == [];
    assert Run(s, ops[..1]) == Apply(s, ops[0]);
    assert Run(s, ops[..2]) == Apply(Run(s, ops[..1]), ops[1]);
    assert Run(s, ops[..3]) == Apply(Run(s, ops[..2]), ops[2]);
    assert Run(s, ops[..4]) == Apply(Run(s, ops[..3]), ops[3]);
  }

  const DEAL: Deal := Deal(1.0, 10.0, 1.0)

  /** The state of that run once the order is UNKNOWN. */
  const HELD: System := System(
    Tables(map[ORDER := Row(Unknown, None, 1.0, 10.0, Some("timeout"), 2.0, None, Some(CLIENT), Some(2.0), true)],
           map[ORDER := map[FILL := DEAL]]), map[])

  lemma ErasingRunHolds()
    ensures var ops := ErasingRun(); Apply(Apply(Apply(START, ops[0]), ops[1]), ops[2]) == HELD
  {
    var ops := ErasingRun();
    var s1 := Apply(START, ops[0]);
    assert s1 == System(Tables(map[ORDER := NewRow(0.0, None, Some(CLIENT), Some(2.0))], map[]), map[]);
    SecondStep(s1);
    hide Transaction;
    var row := Row(PartiallyFilled, None, 1.0, 10.0, None, 1.0, None, Some(CLIENT), Some(2.0), true);
    var s2 := Apply(s1, ops[1]);
    ThirdStep(s2, row);
  }

  lemma SecondStep(s: System)
    requires s == System(Tables(map[ORDER := NewRow(0.0, None, Some(CLIENT), Some(2.0))], map[]), map[])
    ensures Apply(s, ErasingRun()[1])
         == System(Tables(map[ORDER := Row(PartiallyFilled, None, 1.0, 10.0, None, 1.0, None, Some(CLIENT), Some(2.0),
                                           true)],
                          map[ORDER := map[FILL := DEAL]]), map[])
  {
    var row := FilledRow(NewRow(0.0, None, Some(CLIENT), Some(2.0)), 1.0, 10.0, 1.0, true);
    assert row == Row(PartiallyFilled, None, 1.0, 10.0, None, 1.0, None, Some(CLIENT), Some(2.0), true);
    assert LedgerOf(s.tables, ORDER) == map[];
  }

  lemma ThirdStep(s: System, row: Row)
    requires row == Row(PartiallyFilled, None, 1.0, 10.0, None, 1.0, None, Some(CLIENT), Some(2.0), true)
    requires s == System(Tables(map[ORDER := row], map[ORDER := map[FILL := DEAL]]), map[])
    ensures Apply(s, ErasingRun()[2]) == HELD
  {
  }

  /** After it the row says "complete, nothing filled" over a ledger that holds a whole lot. */
  lemma ErasingRunDisagrees()
    ensures var t := Run(START, ErasingRun()).tables;
            ORDER in t.rows && t.rows[ORDER].complete && t.rows[ORDER].filled == 0.0
            && LedgerQuantity(LedgerOf(t, ORDER)) == 1.0 && !LedgersAgree(t)
  {
    var ops := ErasingRun();
    FiveSteps(START, ops);
    ErasingRunHolds();
    ErasingRunEnds();
    EmptyLedgerTotals();
    LedgerInsert(map[], FILL, DEAL);
    assert HELD.tables.fills[ORDER] == map[][FILL := DEAL];
    assert !Agrees(Run(START, ops).tables, ORDER);
  }

  lemma ErasingRunEnds()
    ensures var ops := ErasingRun(); var row := HELD.tables.rows[ORDER];
            Apply(Apply(HELD, ops[3]), ops[4]).tables
            == Tables(map[ORDER := RecoveredRow(row, None, Cancelled, 0.0, 0.0, true, 3.0)], HELD.tables.fills)
  {
    var ops := ErasingRun();
    var row := HELD.tables.rows[ORDER];
    assert Apply(HELD, ops[3]) == System(HELD.tables, map[0 := (ORDER, row)]);
    assert RecoveryAccepted(row, None, Cancelled, 0.0, 0.0);
  }

  /** An order begun without a quantity becomes UNKNOWN; a recovery reads it, a second process
      binds one lot to it, and the recovery then writes five. */
  function RacingRun(): seq<Op> {
    [Begin(ORDER, 0.0, None, Some(CLIENT), None, true),
     MarkUnknown(ORDER, "timeout", 1.0),
     RecoverRead(0, ORDER),
     Begin(ORDER, 2.0, None, Some(CLIENT), Some(1.0), false),
     RecoverWrite(0, None, PartiallyFilled, 5.0, 50.0, 3.0, None)]
  }

  lemma RacingRunOverfills()
    ensures var t := Run(START, RacingRun()).tables;
            ORDER in t.rows && t.rows[ORDER].requested == Some(1.0) && t.rows[ORDER].filled == 5.0
  {
    var ops := RacingRun();
    FiveSteps(START, ops);
    var begun := NewRow(0.0, None, Some(CLIENT), None);
    var s1 := Apply(START, ops[0]);
    assert s1 == System(Tables(map[ORDER := begun], map[]), map[]);
    var unknown := begun.(state := Unknown, lastError := Some("timeout"), updatedAt := 1.0);
    var s2 := Apply(s1, ops[1]);
    assert s2 == System(Tables(map[ORDER := unknown], map[]), map[]);
    var s3 := Apply(s2, ops[2]);
    assert s3 == System(s2.tables, map[0 := (ORDER, unknown)]);
    RacingRunEnds(s3, unknown);
  }

  lemma RacingRunEnds(s: System, unknown: Row)
    requires unknown
             == NewRow(0.0, None, Some(CLIENT), None).(state := Unknown, lastError := Some("timeout"), updatedAt := 1.0)
    requires s == System(Tables(map[ORDER := unknown], map[]), map[0 := (ORDER, unknown)])
    ensures var ops := RacingRun(); var t := Apply(Apply(s, ops[3]), ops[4]).tables;
            ORDER in t.rows && t.rows[ORDER].requested == Some(1.0) && t.rows[ORDER].filled == 5.0
  {
    var ops := RacingRun();
    var s4 := Apply(s, ops[3]);
    assert s4 == System(Tables(map[ORDER := unknown.(requested := Some(1.0))], map[]), s.pending);
  }

  // ----- Recorded deals -----

  /** Every recorded deal is still recorded, with quantity and price within `drift`. */
  ghost predicate DealsKept(t: Tables, t': Tables, drift: real) {
    forall id, f | id in t.rows && f in LedgerOf(t, id) ::
      f in LedgerOf(t', id)
      && Abs(LedgerOf(t', id)[f].quantity - LedgerOf(t, id)[f].quantity) <= drift
      && Abs(LedgerOf(t', id)[f].price - LedgerOf(t, id)[f].price) <= drift
  }

  lemma FillKeepsDeals(t: Tables, id: Id, quantity: real, price: real, now: real, fillId: Option<Id>)
    requires MarkFill(t, id, quantity, price, now, fillId).Ok?
    ensures DealsKept(t, MarkFill(t, id, quantity, price, now, fillId).value, 0.0)
  {
  }

  lemma RecoveryKeepsDeals(t: Tables, snapshot: Row, id: Id, venue: Option<Id>, status: State, filled: real,
                           notional: real, now: real, reports: Option<seq<DealReport>>)
    requires Recover(t, snapshot, id, venue, status, filled, notional, now, reports).Ok?
    ensures DealsKept(t, Recover(t, snapshot, id, venue, status, filled, notional, now, reports).value, TOL_12)
  {
  }

  lemma StepKeepsDeals(s: System, op: Op)
    requires SystemOk(s)
    ensures DealsKept(s.tables, Apply(s, op).tables, TOL_12)
  {
    var t, t' := s.tables, Apply(s, op).tables;
    if Transaction(s, op).Ok? {
      if op.Fill? {
        FillKeepsDeals(t, op.id, op.quantity, op.price, op.now, op.fillId);
      } else if op.RecoverWrite? {
        RecoveryKeepsDeals(t, s.pending[op.token].1, s.pending[op.token].0, op.venue, op.status, op.filled, op.notional,
                           op.now, op.reports);
      } else {
        assert t'.fills == t.fills;
      }
    }
  }

  /** A deal, once recorded, is never dropped; each step may move it by at most 1e-12. */
  lemma {:induction false} RunKeepsDeals(s: System, ops: seq<Op>)
    requires SystemOk(s)
    ensures DealsKept(s.tables, Run(s, ops).tables, Drift(|ops|))
  {
    hide SystemOk; hide Evolves; hide Apply; hide DealsKept; hide Drift;
    if ops == [] {
      DealsStay(s.tables);
    } else {
      var before := ops[..|ops| - 1];
      RunKeepsDeals(s, before);
      RunEvolves(s, before);
      StepKeepsDeals(Run(s, before), ops[|ops| - 1]);
      DealsDrift(s.tables, Run(s, before).tables, Run(s, ops).tables, Drift(|before|));
      DriftGrows(|before|);
    }
  }

  lemma DealsStay(t: Tables)
    ensures DealsKept(t, t, Drift(0))
  {
  }

  function Drift(n: nat): real { n as real * TOL_12 }

  lemma DriftGrows(n: nat)
    ensures Drift(n + 1) == Drift(n) + TOL_12
  {
  }

  lemma DealsDrift(t: Tables, t': Tables, t'': Tables, drift: real)
    requires DealsKept(t, t', drift) && DealsKept(t', t'', TOL_12) && TablesEvolve(t, t')
    ensures DealsKept(t, t'', drift + TOL_12)
  {
  }
}
