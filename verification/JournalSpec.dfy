/** The recovery journal as a value: its two order tables and, for each public operation, the
    transaction it runs. An operation that raises leaves the tables as they were, so a
    transaction is a function to `Outcome<Tables>`. */
module JournalSpec {
  import opened Common
  import Sums

  datatype State =
    | Submitting | Unknown | Working | PartiallyFilled | CancelPending | Cancelled
    | Filled | Rejected | Expired | Recovered | RecoveryRequired

  /** A row of execution_recovery. */
  datatype Row = Row(state: State, venueId: Option<Id>, filled: real, notional: real, lastError: Option<string>,
                     updatedAt: real, parentId: Option<Id>, clientId: Option<Id>, requested: Option<real>,
                     complete: bool)

  /** A row of execution_recovery_fills, without its key. */
  datatype Deal = Deal(quantity: real, price: real, at: real) {
    function Worth(): real { quantity * price }
  }

  /** The recorded deals of one order, by fill id. */
  type Ledger = map<Id, Deal>

  datatype Tables = Tables(rows: map<Id, Row>, fills: map<Id, Ledger>)

  /** One entry of the `fills` argument of recover_unknown; the id is already stripped. */
  datatype DealReport = DealReport(fillId: Id, quantity: real, price: real, at: Option<real>)

  const EMPTY_TABLES: Tables := Tables(map[], map[])

  function LedgerOf(t: Tables, id: Id): Ledger {
    if id in t.fills then t.fills[id] else map[]
  }

  function Quantities(l: Ledger): map<Id, real> { map f | f in l :: l[f].quantity }

  function Notionals(l: Ledger): map<Id, real> { map f | f in l :: l[f].Worth() }

  ghost function LedgerQuantity(l: Ledger): real { Sums.Total(Quantities(l)) }

  ghost function LedgerNotional(l: Ledger): real { Sums.Total(Notionals(l)) }

  /** The two-sided tolerance test between deal totals and a broker aggregate. */
  predicate Reconciles(sumQuantity: real, sumNotional: real, filled: real, notional: real) {
    && Abs(sumQuantity - filled) <= Max(TOL_9, Abs(filled) * TOL_9)
    && Abs(sumNotional - notional) <= Max(TOL_7, Abs(notional) * TOL_9)
  }

  // ----- begin_submission -----

  /** Would the unique index refuse `client` for `id`? */
  predicate ClientTaken(rows: map<Id, Row>, id: Id, client: Option<Id>) {
    client.Some? && exists other | other in rows :: other != id && rows[other].clientId == client
  }

  function NewRow(now: real, parent: Option<Id>, client: Option<Id>, requested: Option<real>): Row {
    Row(Submitting, None, 0.0, 0.0, None, now, parent, client, requested, true)
  }

  predicate Conflicts<T(==)>(bound: Option<T>, given: Option<T>) {
    given.Some? && bound.Some? && bound != given
  }

  predicate QuantityConflicts(row: Row, requested: Option<real>) {
    && requested.Some?
    && (|| (row.requested.Some? && Abs(row.requested.value - requested.value) > TOL_9)
        || row.filled > requested.value + TOL_9)
  }

  function Bind(row: Row, parent: Option<Id>, client: Option<Id>, requested: Option<real>): Row {
    row.(parentId := Coalesce(row.parentId, parent),
         clientId := Coalesce(row.clientId, client),
         requested := Coalesce(row.requested, requested))
  }

  predicate BeginArgumentsOk(id: Id, parent: Option<Id>, client: Option<Id>, requested: Option<real>) {
    && !Blank(id)
    && (parent.Some? ==> !Blank(parent.value) && parent.value != id)
    && (client.Some? ==> !Blank(client.value))
    && (requested.Some? ==> requested.value > 0.0)
  }

  function BeginSubmission(t: Tables, id: Id, now: real, parent: Option<Id>, client: Option<Id>,
                           requested: Option<real>, rejectExisting: bool): Outcome<Tables>
  {
    if !BeginArgumentsOk(id, parent, client, requested) then Raised(ValueError)
    else if id in t.rows then
      var row := t.rows[id];
      if rejectExisting || Conflicts(row.parentId, parent) || Conflicts(row.clientId, client)
         || QuantityConflicts(row, requested)
         || (row.clientId.None? && ClientTaken(t.rows, id, client))
      then Raised(ValueError)
      else Ok(t.(rows := t.rows[id := Bind(row, parent, client, requested)]))
    else if ClientTaken(t.rows, id, client) then Raised(ValueError)
    else Ok(t.(rows := t.rows[id := NewRow(now, parent, client, requested)]))
  }

  // ----- mark_fill -----

  predicate Reaches(requested: Option<real>, quantity: real) {
    requested.Some? && quantity >= requested.value - TOL_9
  }

  predicate Exceeds(requested: Option<real>, quantity: real) {
    requested.Some? && quantity > requested.value + TOL_9
  }

  predicate SameDeal(d: Deal, quantity: real, price: real) {
    Abs(d.quantity - quantity) <= TOL_12 && Abs(d.price - price) <= TOL_12
  }

  function FilledRow(row: Row, quantity: real, price: real, now: real, identified: bool): Row {
    var total := row.filled + quantity;
    row.(state := if Reaches(row.requested, total) then Filled else PartiallyFilled,
         filled := total, notional := row.notional + Deal(quantity, price, now).Worth(),
         complete := row.complete && identified, lastError := None, updatedAt := now)
  }

  function MarkFill(t: Tables, id: Id, quantity: real, price: real, now: real, fillId: Option<Id>): Outcome<Tables>
  {
    if quantity <= 0.0 || price <= 0.0 || (fillId.Some? && Blank(fillId.value)) then Raised(ValueError)
    else if id !in t.rows then Raised(KeyError)
    else
      var row, ledger := t.rows[id], LedgerOf(t, id);
      if fillId.Some? && fillId.value in ledger then
        if SameDeal(ledger[fillId.value], quantity, price) then Ok(t) else Raised(ValueError)
      else if row.state in {Filled, Rejected, Expired, Recovered} then Raised(ValueError)
      else if Exceeds(row.requested, row.filled + quantity) then Raised(ValueError)
      else
        var rows := t.rows[id := FilledRow(row, quantity, price, now, fillId.Some?)];
        if fillId.None? then Ok(Tables(rows, t.fills))
        else Ok(Tables(rows, t.fills[id := ledger[fillId.value := Deal(quantity, price, now)]]))
  }

  // ----- _update and its public wrappers -----

  function Allowed(from: State): set<State> {
    match from
    case Submitting => {Submitting, Working, Unknown, Cancelled, Rejected, Expired, Recovered}
    case Unknown => {Unknown, Working, PartiallyFilled, Filled, CancelPending, Cancelled, Rejected, Expired}
    case Working => {Working, Unknown, PartiallyFilled, Filled, CancelPending, Cancelled, Rejected, Expired, Recovered}
    case PartiallyFilled => {PartiallyFilled, Unknown, Filled, CancelPending, Cancelled, Recovered}
    case CancelPending => {CancelPending, Unknown, PartiallyFilled, Filled, Cancelled}
    case Cancelled => {Cancelled}
    case Filled => {Filled, Unknown}
    case Rejected => {Rejected}
    case Expired => {Expired}
    case Recovered => {Recovered}
    case RecoveryRequired => {}
  }

  function Update(t: Tables, id: Id, state: State, venue: Option<Id>, error: Option<string>, now: real): Outcome<Tables>
  {
    if id !in t.rows then Raised(KeyError)
    else
      var row := t.rows[id];
      if state !in Allowed(row.state) || Conflicts(row.venueId, venue) then Raised(ValueError)
      else Ok(t.(rows := t.rows[id := row.(state := state, venueId := Coalesce(row.venueId, venue),
                                           lastError := error, updatedAt := now)]))
  }

  // ----- recover_unknown -----

  /** The checks made on the row read before the transaction starts. */
  predicate RecoveryAccepted(snapshot: Row, venue: Option<Id>, status: State, filled: real, notional: real) {
    && filled >= 0.0 && notional >= 0.0
    && (filled == 0.0 <==> notional == 0.0)
    && status in {Working, PartiallyFilled, Filled, Cancelled, Expired, Rejected}
    && (status in {PartiallyFilled, Filled} ==> filled > 0.0)
    && snapshot.state == Unknown
    && ((venue.Some? && !Empty(venue.value)) || (snapshot.clientId.Some? && !Empty(snapshot.clientId.value)))
    && !Exceeds(snapshot.requested, filled)
    && (status == Filled && snapshot.requested.Some? ==> Reaches(snapshot.requested, filled))
    && (status == PartiallyFilled ==> !Reaches(snapshot.requested, filled))
  }

  /** One turn of the loop that builds `by_id`: the first report of a fill id wins, and a repeat
      must agree with it. */
  function AddReport(byId: Ledger, r: DealReport, now: real): Outcome<Ledger> {
    if Blank(r.fillId) || r.quantity <= 0.0 || r.price <= 0.0 then Raised(ValueError)
    else if r.fillId in byId then
      if SameDeal(byId[r.fillId], r.quantity, r.price) then Ok(byId) else Raised(ValueError)
    else Ok(byId[r.fillId := Deal(r.quantity, r.price, if r.at.Some? then r.at.value else now)])
  }

  function Normalize(reports: seq<DealReport>, now: real): Outcome<Ledger> {
    if reports == [] then Ok(map[])
    else
      var before := Normalize(reports[..|reports| - 1], now);
      if before.Raised? then before else AddReport(before.value, reports[|reports| - 1], now)
  }

  /** The recorded deals all reappear, unchanged up to 1e-12, in the broker's history. */
  predicate Covers(history: Ledger, recorded: Ledger) {
    forall f | f in recorded :: f in history && SameDeal(history[f], recorded[f].quantity, recorded[f].price)
  }

  function RecoveredRow(row: Row, venue: Option<Id>, status: State, filled: real, notional: real, complete: bool,
                        now: real): Row {
    row.(state := status, venueId := Coalesce(venue, row.venueId), filled := filled, notional := notional,
         complete := complete, lastError := None, updatedAt := now)
  }

  /** The whole of recover_unknown, given the row `snapshot` that `self.get` returned. The tables
      may have moved on since that read: it is not part of the transaction. */
  ghost function Recover(t: Tables, snapshot: Row, id: Id, venue: Option<Id>, status: State, filled: real,
                         notional: real, now: real, reports: Option<seq<DealReport>>): Outcome<Tables>
  {
    if !RecoveryAccepted(snapshot, venue, status, filled, notional) then Raised(ValueError)
    else if reports.Some? then
      var history := Normalize(reports.value, now);
      if history.Raised? then Raised(history.error)
      else if !Reconciles(LedgerQuantity(history.value), LedgerNotional(history.value), filled, notional)
              || !Covers(history.value, LedgerOf(t, id))
      then Raised(ValueError)
      else if id !in t.rows || t.rows[id].state != Unknown then Raised(RuntimeError)
      else Ok(Tables(t.rows[id := RecoveredRow(t.rows[id], venue, status, filled, notional, true, now)],
                     t.fills[id := history.value]))
    else
      var recorded := LedgerOf(t, id);
      var complete := (filled == 0.0 && notional == 0.0)
                      || (snapshot.complete
                          && Reconciles(LedgerQuantity(recorded), LedgerNotional(recorded), filled, notional));
      if id !in t.rows || t.rows[id].state != Unknown then Raised(RuntimeError)
      else Ok(t.(rows := t.rows[id := RecoveredRow(t.rows[id], venue, status, filled, notional, complete, now)]))
  }

  // ----- unresolved_records -----

  /** Does this row still need broker reconciliation? */
  predicate Unresolved(row: Row) {
    || row.state in {Submitting, Unknown, Working, PartiallyFilled, CancelPending, RecoveryRequired}
    || (row.state == Filled && !row.complete)
  }
}
