/** ExecutionRecoveryJournal: the object whose methods run the journal's transactions on its
    tables. Each method is proved to do exactly what JournalSpec says of the transaction. */
module Journal {
  import opened Common
  import opened JournalSpec
  import StateEvents
  import Sums

  class ExecutionRecoveryJournal {
    var rows: map<Id, Row>
    var fills: map<Id, Ledger>
    var events: StateEvents.Log

    constructor ()
      ensures Snapshot() == EMPTY_TABLES && events == map[]
    {
      rows, fills, events := map[], map[], map[];
    }

    /** The two order tables as one value. */
    function Snapshot(): Tables
      reads this
    {
      Tables(rows, fills)
    }

    /** The tables are what transaction `t` makes of them, and `r` reports the row or the error. */
    ghost predicate Ran(t: Outcome<Tables>, before: Tables, id: Id, r: Outcome<Row>)
      reads this
    {
      match t
      case Ok(after) => Snapshot() == after && id in rows && r == Ok(rows[id])
      case Raised(error) => Snapshot() == before && r == Raised(error)
    }

    method BeginSubmission(id: Id, now: real, parent: Option<Id>, client: Option<Id>, requested: Option<real>,
                           rejectExisting: bool)
      returns (r: Outcome<Row>)
      modifies this`rows
      ensures Ran(JournalSpec.BeginSubmission(old(Snapshot()), id, now, parent, client, requested, rejectExisting),
                  old(Snapshot()), id, r)
    {
      ghost var outcome := JournalSpec.BeginSubmission(Snapshot(), id, now, parent, client, requested, rejectExisting);
      if Blank(id) { return Raised(ValueError); }
      if parent.Some? && (Blank(parent.value) || parent.value == id) { return Raised(ValueError); }
      if client.Some? && Blank(client.value) { return Raised(ValueError); }
      if requested.Some? && requested.value <= 0.0 { return Raised(ValueError); }
      if id in rows {
        if rejectExisting { return Raised(ValueError); }
        var row := rows[id];
        if parent.Some? && row.parentId != None && row.parentId != parent { return Raised(ValueError); }
        if client.Some? && row.clientId != None && row.clientId != client { return Raised(ValueError); }
        if requested.Some? {
          if row.requested.Some? && Abs(row.requested.value - requested.value) > TOL_9 { return Raised(ValueError); }
          if row.filled > requested.value + TOL_9 { return Raised(ValueError); }
        }
        if row.clientId.None? && ClientTaken(rows, id, client) { return Raised(ValueError); }
        var bound := row.(parentId := if row.parentId.Some? then row.parentId else parent,
                          clientId := if row.clientId.Some? then row.clientId else client,
                          requested := if row.requested.Some? then row.requested else requested);
        assert bound == Bind(row, parent, client, requested);
        assert outcome == Ok(Tables(rows[id := bound], fills));
        rows := rows[id := bound];
        return Ok(bound);
      }
      if ClientTaken(rows, id, client) { return Raised(ValueError); }
      r := Ok(Row(Submitting, None, 0.0, 0.0, None, now, parent, client, requested, true));
      rows := rows[id := r.value];
    }

    method MarkFill(id: Id, quantity: real, price: real, now: real, fillId: Option<Id>) returns (r: Outcome<Row>)
      modifies this`rows, this`fills
      ensures Ran(JournalSpec.MarkFill(old(Snapshot()), id, quantity, price, now, fillId), old(Snapshot()), id, r)
    {
      if quantity <= 0.0 || price <= 0.0 { return Raised(ValueError); }
      if fillId.Some? && Blank(fillId.value) { return Raised(ValueError); }
      if id !in rows { return Raised(KeyError); }
      var row := rows[id];
      var ledger := LedgerOf(Snapshot(), id);
      if fillId.Some? && fillId.value in ledger {
        var prior := ledger[fillId.value];
        if Abs(prior.quantity - quantity) > TOL_12 || Abs(prior.price - price) > TOL_12 { return Raised(ValueError); }
        return Ok(row);
      }
      if row.state == Filled { return Raised(ValueError); }
      if row.state in {Rejected, Expired, Recovered} { return Raised(ValueError); }
      var newQuantity := row.filled + quantity;
      var newNotional := row.notional + quantity * price;
      if row.requested.Some? && newQuantity > row.requested.value + TOL_9 { return Raised(ValueError); }
      if fillId.Some? {
        fills := fills[id := ledger[fillId.value := Deal(quantity, price, now)]];
      }
      var newState := PartiallyFilled;
      if row.requested.Some? && newQuantity >= row.requested.value - TOL_9 {
        newState := Filled;
      }
      assert newNotional == row.notional + Deal(quantity, price, now).Worth();
      rows := rows[id := row.(state := newState, filled := newQuantity, notional := newNotional,
                              complete := row.complete && fillId.Some?, lastError := None, updatedAt := now)];
      r := Ok(rows[id]);
    }

    method Update(id: Id, state: State, venue: Option<Id>, error: Option<string>, now: real) returns (r: Outcome<Row>)
      modifies this`rows
      ensures Ran(JournalSpec.Update(old(Snapshot()), id, state, venue, error, now), old(Snapshot()), id, r)
    {
      if id !in rows { return Raised(KeyError); }
      var row := rows[id];
      if state !in Allowed(row.state) { return Raised(ValueError); }
      if venue.Some? && row.venueId != None && row.venueId != venue { return Raised(ValueError); }
      rows := rows[id := row.(state := state, venueId := if row.venueId.Some? then row.venueId else venue,
                              lastError := error, updatedAt := now)];
      r := Ok(rows[id]);
    }

    /** The loop of recover_unknown that folds the reported deals into `by_id`. */
    method CollectReports(reports: seq<DealReport>, now: real) returns (r: Outcome<Ledger>)
      ensures r == Normalize(reports, now)
    {
      var byId: Ledger := map[];
      var n := 0;
      while n < |reports|
        invariant 0 <= n <= |reports|
        invariant Normalize(reports[..n], now) == Ok(byId)
      {
        var item := reports[n];
        assert reports[..n + 1][..n] == reports[..n];
        assert Normalize(reports[..n + 1], now) == AddReport(byId, item, now);
        if Blank(item.fillId) || item.quantity <= 0.0 || item.price <= 0.0 {
          FailurePersists(reports, n + 1, now);
          return Raised(ValueError);
        }
        if item.fillId in byId {
          var previous := byId[item.fillId];
          if Abs(previous.quantity - item.quantity) > TOL_12 || Abs(previous.price - item.price) > TOL_12 {
            FailurePersists(reports, n + 1, now);
            return Raised(ValueError);
          }
        } else {
          byId := byId[item.fillId := Deal(item.quantity, item.price, if item.at.Some? then item.at.value else now)];
        }
        n := n + 1;
      }
      assert reports[..n] == reports;
      r := Ok(byId);
    }

    /** Is every recorded deal in the broker's history, unchanged? */
    method CheckHistory(history: Ledger, recorded: Ledger) returns (covered: bool)
      ensures covered == Covers(history, recorded)
    {
      var rest := recorded.Keys;
      while rest != {}
        invariant rest <= recorded.Keys
        invariant forall f | f in recorded && f !in rest ::
                  f in history && SameDeal(history[f], recorded[f].quantity, recorded[f].price)
        decreases |rest|
      {
        var f :| f in rest;
        if f !in history || Abs(history[f].quantity - recorded[f].quantity) > TOL_12
           || Abs(history[f].price - recorded[f].price) > TOL_12 {
          return false;
        }
        rest := rest - {f};
      }
      covered := true;
    }

    method Totals(ledger: Ledger) returns (quantity: real, notional: real)
      ensures quantity == LedgerQuantity(ledger) && notional == LedgerNotional(ledger)
    {
      quantity := Sums.AddUp(Quantities(ledger));
      notional := Sums.AddUp(Notionals(ledger));
    }

    /** recover_unknown after `self.get` has returned `snapshot`. */
    method RecoverFrom(snapshot: Row, id: Id, venue: Option<Id>, status: State, filled: real, notional: real, now: real,
                       reports: Option<seq<DealReport>>)
      returns (r: Outcome<Row>)
      modifies this`rows, this`fills
      ensures Ran(Recover(old(Snapshot()), snapshot, id, venue, status, filled, notional, now, reports),
                  old(Snapshot()), id, r)
    {
      if !RecoveryAccepted(snapshot, venue, status, filled, notional) { return Raised(ValueError); }
      var complete := filled == 0.0 && notional == 0.0;
      var history: Ledger := map[];
      if reports.Some? {
        var collected := CollectReports(reports.value, now);
        if collected.Raised? { return Raised(collected.error); }
        history := collected.value;
        var quantity, worth := Totals(history);
        if Abs(quantity - filled) > Max(TOL_9, Abs(filled) * TOL_9) { return Raised(ValueError); }
        if Abs(worth - notional) > Max(TOL_7, Abs(notional) * TOL_9) { return Raised(ValueError); }
        var covered := CheckHistory(history, LedgerOf(Snapshot(), id));
        if !covered { return Raised(ValueError); }
        complete := true;
      } else {
        var quantity, worth := Totals(LedgerOf(Snapshot(), id));
        if snapshot.complete && Reconciles(quantity, worth, filled, notional) {
          complete := true;
        }
      }
      if id !in rows || rows[id].state != Unknown { return Raised(RuntimeError); }
      var row := rows[id];
      rows := rows[id := row.(state := status, venueId := if venue.Some? then venue else row.venueId,
                              filled := filled, notional := notional, complete := complete,
                              lastError := None, updatedAt := now)];
      if reports.Some? {
        fills := fills[id := history];
      }
      r := Ok(rows[id]);
    }

    /** recover_unknown with nobody else at work between its read and its transaction. */
    method RecoverUnknown(id: Id, venue: Option<Id>, status: State, filled: real, notional: real, now: real,
                          reports: Option<seq<DealReport>>)
      returns (r: Outcome<Row>)
      modifies this`rows, this`fills
      ensures id in old(rows) ==>
                Ran(Recover(old(Snapshot()), old(rows[id]), id, venue, status, filled, notional, now, reports),
                    old(Snapshot()), id, r)
      ensures id !in old(rows) ==> Snapshot() == old(Snapshot()) && r == Raised(KeyError)
    {
      var record := Get(id);
      if record.Raised? { return record; }
      r := RecoverFrom(record.value, id, venue, status, filled, notional, now, reports);
    }

    method Get(id: Id) returns (r: Outcome<Row>)
      ensures r == if id in rows then Ok(rows[id]) else Raised(KeyError)
    {
      if id !in rows { return Raised(KeyError); }
      r := Ok(rows[id]);
    }

    /** The ids unresolved_records would list. */
    function UnresolvedIds(): (ids: set<Id>)
      reads this
      ensures forall id :: id in ids <==> id in rows && Unresolved(rows[id])
      ensures ids == {} <==> forall id | id in rows :: !Unresolved(rows[id])
    {
      var ids := set id | id in rows && Unresolved(rows[id]);
      assert forall id | id in rows :: Unresolved(rows[id]) <==> id in ids;
      ids
    }

    function ChildRecords(parent: Id): map<Id, Row>
      reads this
    {
      map id | id in rows && rows[id].parentId == Some(parent) :: rows[id]
    }

    method RecordStateEvent(e: StateEvents.Event) returns (r: Outcome<()>)
      modifies this`events
      ensures match StateEvents.Record(old(events), e)
              case Ok(after) => events == after && r == Ok(())
              case Raised(error) => events == old(events) && r == Raised(error)
    {
      if e.source == StateEvents.OtherSource { return Raised(ValueError); }
      if Blank(e.order) || Blank(e.entry.decision) || Blank(e.entry.fingerprint) { return Raised(ValueError); }
      if e.entry.status.Text? && BlankText(e.entry.status.text) { return Raised(ValueError); }
      if e.entry.sequence < 0 || e.entry.filled < 0.0 { return Raised(ValueError); }
      if e.entry.average.Some? && e.entry.average.value <= 0.0 { return Raised(ValueError); }
      if e.entry.filled > 0.0 && e.entry.average.None? { return Raised(ValueError); }
      var stream := StateEvents.StreamOf(events, e.source, e.order);
      var existing := StateEvents.Find(stream, e.entry.sequence);
      if existing.Some? {
        if !StateEvents.SameEntry(existing.value, e.entry) { return Raised(ValueError); }
        assert events[(e.source, e.order) := stream] == events;
        return Ok(());
      }
      var previous := StateEvents.Latest(stream);
      if previous.Some? {
        if e.entry.sequence <= previous.value.sequence { return Raised(ValueError); }
        if e.entry.decision != previous.value.decision || e.entry.fingerprint != previous.value.fingerprint {
          return Raised(ValueError);
        }
        if e.entry.filled + TOL_9 < previous.value.filled { return Raised(ValueError); }
      }
      events := events[(e.source, e.order) := stream + [e.entry]];
      r := Ok(());
    }
  }

  /** Once a prefix of the reports is refused, so is the whole list. */
  lemma {:induction false} FailurePersists(reports: seq<DealReport>, n: nat, now: real)
    requires n <= |reports| && Normalize(reports[..n], now) == Raised(ValueError)
    ensures Normalize(reports, now) == Raised(ValueError)
    decreases |reports|
  {
    if n == |reports| {
      assert reports[..n] == reports;
    } else {
      var last := |reports| - 1;
      assert reports[..last][..n] == reports[..n];
      FailurePersists(reports[..last], n, now);
    }
  }
}
