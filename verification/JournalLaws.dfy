/** What each transaction of the recovery journal accepts, and what every field of the row and of the
    ledger holds afterwards, stated on rows, amounts and reports only. */
module JournalLaws {
  import opened Common
  import opened JournalSpec
  import Sums

  /** Neither table has changed but for this one row and this one ledger. */
  ghost predicate OnlyAt(t: Tables, t': Tables, id: Id) {
    && t'.rows.Keys == t.rows.Keys + {id}
    && (forall other | other in t.rows && other != id :: t'.rows[other] == t.rows[other])
    && (forall other: Id | other != id :: LedgerOf(t', other) == LedgerOf(t, other))
  }

  /** No other row has this client identity. */
  ghost predicate Unclaimed(t: Tables, id: Id, client: Option<Id>) {
    client.Some? ==> forall other | other in t.rows && other != id :: t.rows[other].clientId != client
  }

  /** A given value is not at odds with a bound one. */
  ghost predicate Compatible<T>(bound: Option<T>, given: Option<T>) {
    bound == None || given == None || bound == given
  }

  // ----- begin_submission -----

  /** A new order is inserted exactly if its identities are not blank, it is not its own parent, its
      quantity is positive and nobody else has its client identity. A known one is accepted exactly if
      the caller allows it, nothing given is at odds with what is bound, and the quantity covers what
      has been filled. */
  lemma BeginIff(t: Tables, id: Id, now: real, parent: Option<Id>, client: Option<Id>, requested: Option<real>,
                 rejectExisting: bool)
    ensures BeginSubmission(t, id, now, parent, client, requested, rejectExisting).Ok? <==>
              && Visible(id) && (parent.Some? ==> Visible(parent.value) && parent.value != id)
              && (client.Some? ==> Visible(client.value)) && (requested.Some? ==> requested.value > 0.0)
              && (if id !in t.rows then Unclaimed(t, id, client)
                  else
                    var row := t.rows[id];
                    && !rejectExisting && Compatible(row.parentId, parent) && Compatible(row.clientId, client)
                    && (row.clientId == None ==> Unclaimed(t, id, client))
                    && (requested.Some? ==>
                          && row.filled <= requested.value + 0.000000001
                          && (row.requested.Some?
                              ==> -0.000000001 <= row.requested.value - requested.value <= 0.000000001)))
    ensures BeginSubmission(t, id, now, parent, client, requested, rejectExisting).Raised? ==>
              BeginSubmission(t, id, now, parent, client, requested, rejectExisting).error == ValueError
  {
    VisibleIff(id);
    if parent.Some? { VisibleIff(parent.value); }
    if client.Some? { VisibleIff(client.value); }
  }

  /** A new row is SUBMITTING with nothing filled; a known one only gains what it had not bound. */
  lemma BeginWrites(t: Tables, id: Id, now: real, parent: Option<Id>, client: Option<Id>, requested: Option<real>,
                    rejectExisting: bool)
    requires BeginSubmission(t, id, now, parent, client, requested, rejectExisting).Ok?
    ensures var t' := BeginSubmission(t, id, now, parent, client, requested, rejectExisting).value;
            && OnlyAt(t, t', id) && t'.fills == t.fills && id in t'.rows
            && var row' := t'.rows[id];
            if id !in t.rows then
              && row'.state == Submitting && row'.venueId == None && row'.filled == 0.0 && row'.notional == 0.0
              && row'.lastError == None && row'.updatedAt == now && row'.complete
              && row'.parentId == parent && row'.clientId == client && row'.requested == requested
            else
              var row := t.rows[id];
              && row'.state == row.state && row'.venueId == row.venueId && row'.filled == row.filled
              && row'.notional == row.notional && row'.lastError == row.lastError && row'.updatedAt == row.updatedAt
              && row'.complete == row.complete
              && row'.parentId == (if row.parentId == None then parent else row.parentId)
              && row'.clientId == (if row.clientId == None then client else row.clientId)
              && row'.requested == (if row.requested == None then requested else row.requested)
  {
  }

  // ----- mark_fill -----

  /** A recorded fill id may be replayed with the same deal, up to 1e-12. Any other fill is accepted
      exactly if the order is open to fills and stays within its requested quantity, up to 1e-9. */
  lemma MarkFillIff(t: Tables, id: Id, quantity: real, price: real, now: real, fillId: Option<Id>)
    ensures MarkFill(t, id, quantity, price, now, fillId).Ok? <==>
              && quantity > 0.0 && price > 0.0 && (fillId.Some? ==> Visible(fillId.value)) && id in t.rows
              && (if fillId.Some? && fillId.value in LedgerOf(t, id) then
                    var deal := LedgerOf(t, id)[fillId.value];
                    && -0.000000000001 <= deal.quantity - quantity <= 0.000000000001
                    && -0.000000000001 <= deal.price - price <= 0.000000000001
                  else
                    var row := t.rows[id];
                    && row.state in {Submitting, Unknown, Working, PartiallyFilled, CancelPending, Cancelled,
                                     RecoveryRequired}
                    && (row.requested.Some? ==> row.filled + quantity <= row.requested.value + 0.000000001))
    ensures MarkFill(t, id, quantity, price, now, fillId).Raised? ==>
              MarkFill(t, id, quantity, price, now, fillId).error
              == if quantity > 0.0 && price > 0.0 && (fillId.Some? ==> Visible(fillId.value)) && id !in t.rows
                 then KeyError else ValueError
  {
    if fillId.Some? { VisibleIff(fillId.value); }
    if id in t.rows { StatesAre(t.rows[id].state); }
  }

  lemma StatesAre(s: State)
    ensures s in {Submitting, Unknown, Working, PartiallyFilled, CancelPending, Cancelled, RecoveryRequired}
            <==> s !in {Filled, Rejected, Expired, Recovered}
  {
    match s
    case Submitting => case Unknown => case Working => case PartiallyFilled => case CancelPending =>
    case Cancelled => case Filled => case Rejected => case Expired => case Recovered => case RecoveryRequired =>
  }

  /** A replay changes nothing. Any other fill is added to the row, which is FILLED once it reaches the
      requested quantity, up to 1e-9, and to the ledger, which stays complete only if the fill has an id. */
  lemma MarkFillWrites(t: Tables, id: Id, quantity: real, price: real, now: real, fillId: Option<Id>)
    requires MarkFill(t, id, quantity, price, now, fillId).Ok?
    ensures var t' := MarkFill(t, id, quantity, price, now, fillId).value;
            if fillId.Some? && fillId.value in LedgerOf(t, id) then t' == t
            else
              && id in t.rows && id in t'.rows && OnlyAt(t, t', id)
              && var row, row', total := t.rows[id], t'.rows[id], t.rows[id].filled + quantity;
              && row'.filled == total && row'.notional == row.notional + quantity * price
              && row'.state == (if row.requested.Some? && total >= row.requested.value - 0.000000001 then Filled
                                else PartiallyFilled)
              && row'.complete == (row.complete && fillId.Some?) && row'.lastError == None && row'.updatedAt == now
              && row'.venueId == row.venueId && row'.parentId == row.parentId && row'.clientId == row.clientId
              && row'.requested == row.requested
              && LedgerOf(t', id)
                 == (if fillId.Some? then LedgerOf(t, id)[fillId.value := Deal(quantity, price, now)]
                     else LedgerOf(t, id))
  {
  }

  // ----- the state table -----

  /** The states from which each state can be reached. */
  predicate LeadsTo(from: State, to: State) {
    match to
    case Submitting => from == Submitting
    case Unknown => from in {Submitting, Unknown, Working, PartiallyFilled, CancelPending, Filled}
    case Working => from in {Submitting, Unknown, Working}
    case PartiallyFilled => from in {Unknown, Working, PartiallyFilled, CancelPending}
    case CancelPending => from in {Unknown, Working, PartiallyFilled, CancelPending}
    case Cancelled => from in {Submitting, Unknown, Working, PartiallyFilled, CancelPending, Cancelled}
    case Filled => from in {Unknown, Working, PartiallyFilled, CancelPending, Filled}
    case Rejected => from in {Submitting, Unknown, Working, Rejected}
    case Expired => from in {Submitting, Unknown, Working, Expired}
    case Recovered => from in {Submitting, Working, PartiallyFilled, Recovered}
    case RecoveryRequired => false
  }

  /** A move is accepted exactly along the table, and with a venue id that is the bound one, if any. It
      writes the state, the error, the time, and the venue id if there was none; nothing else. */
  lemma UpdateIff(t: Tables, id: Id, state: State, venue: Option<Id>, error: Option<string>, now: real)
    ensures Update(t, id, state, venue, error, now).Ok? <==>
              id in t.rows && LeadsTo(t.rows[id].state, state) && Compatible(t.rows[id].venueId, venue)
    ensures Update(t, id, state, venue, error, now).Raised? ==>
              Update(t, id, state, venue, error, now).error == if id !in t.rows then KeyError else ValueError
    ensures Update(t, id, state, venue, error, now).Ok? ==>
              var t' := Update(t, id, state, venue, error, now).value;
              && OnlyAt(t, t', id) && t'.fills == t.fills && id in t'.rows
              && var row, row' := t.rows[id], t'.rows[id];
              && row'.state == state && row'.venueId == (if row.venueId == None then venue else row.venueId)
              && row'.lastError == error && row'.updatedAt == now
              && row'.filled == row.filled && row'.notional == row.notional && row'.complete == row.complete
              && row'.parentId == row.parentId && row'.clientId == row.clientId && row'.requested == row.requested
  {
    if id in t.rows {
      assert state in Allowed(t.rows[id].state) <==> LeadsTo(t.rows[id].state, state);
    }
  }

  // ----- recover_unknown -----

  ghost predicate FirstReport(reports: seq<DealReport>, k: nat)
    requires k < |reports|
  {
    forall j | 0 <= j < k :: reports[j].fillId != reports[k].fillId
  }

  predicate Readable(r: DealReport) { Visible(r.fillId) && r.quantity > 0.0 && r.price > 0.0 }

  predicate SameReport(a: DealReport, b: DealReport) {
    && -0.000000000001 <= a.quantity - b.quantity <= 0.000000000001
    && -0.000000000001 <= a.price - b.price <= 0.000000000001
  }

  /** Every report is readable, and every repeat of a fill id agrees with its first report. */
  ghost predicate WellReported(reports: seq<DealReport>) {
    && (forall k | 0 <= k < |reports| :: Readable(reports[k]))
    && (forall j, k | 0 <= j < k < |reports| && FirstReport(reports, j) && reports[j].fillId == reports[k].fillId ::
          SameReport(reports[j], reports[k]))
  }

  /** The first report of each fill id, with the time of the recovery where it has none of its own. */
  ghost predicate HistoryOf(reports: seq<DealReport>, now: real, h: Ledger) {
    && (forall f :: f in h <==> Reported(reports, f))
    && (forall k | 0 <= k < |reports| && FirstReport(reports, k) :: reports[k].fillId in h && h[reports[k].fillId]
          == Deal(reports[k].quantity, reports[k].price, if reports[k].at == None then now else reports[k].at.value))
  }

  ghost predicate Reported(reports: seq<DealReport>, f: Id) {
    exists k | 0 <= k < |reports| :: reports[k].fillId == f
  }

  lemma {:induction false} FirstOf(reports: seq<DealReport>, f: Id) returns (k: nat)
    requires Reported(reports, f)
    ensures k < |reports| && reports[k].fillId == f && FirstReport(reports, k)
  {
    var last := |reports| - 1;
    if Reported(reports[..last], f) {
      k := FirstOf(reports[..last], f);
      PrefixFirst(reports, k);
    } else {
      k := last;
      forall j | 0 <= j < last ensures reports[j].fillId != f {
        assert reports[..last][j] == reports[j];
      }
      var m :| 0 <= m < |reports| && reports[m].fillId == f;
      assert m == last;
    }
  }

  lemma PrefixFirst(reports: seq<DealReport>, k: nat)
    requires k < |reports| - 1
    ensures FirstReport(reports[..|reports| - 1], k) <==> FirstReport(reports, k)
  {
    var before := reports[..|reports| - 1];
    assert forall j | 0 <= j <= k :: before[j] == reports[j];
  }

  /** One more report is in order exactly if it is readable and agrees with the first of its id. */
  lemma WellReportedStep(reports: seq<DealReport>, last: nat)
    requires |reports| == last + 1
    ensures WellReported(reports) <==>
              && WellReported(reports[..last]) && Readable(reports[last])
              && forall j | && 0 <= j < last && FirstReport(reports[..last], j)
                            && reports[j].fillId == reports[last].fillId ::
                   SameReport(reports[j], reports[last])
  {
    hide Readable; hide SameReport; hide FirstReport;
    var before := reports[..last];
    forall j | 0 <= j < last ensures FirstReport(before, j) <==> FirstReport(reports, j) {
      PrefixFirst(reports, j);
    }
    if WellReported(reports) {
      forall k | 0 <= k < last ensures Readable(before[k]) {
        assert Readable(reports[k]);
      }
    }
    if WellReported(before) && Readable(reports[last]) {
      forall k | 0 <= k < |reports| ensures Readable(reports[k]) {
        assert k < last ==> Readable(before[k]);
      }
    }
  }

  lemma ReportedStep(reports: seq<DealReport>, last: nat, f: Id)
    requires |reports| == last + 1
    ensures Reported(reports, f) <==> Reported(reports[..last], f) || f == reports[last].fillId
  {
    var before := reports[..last];
    if Reported(before, f) {
      var k :| 0 <= k < last && before[k].fillId == f;
      assert reports[k].fillId == f;
    }
    if Reported(reports, f) && f != reports[last].fillId {
      var k :| 0 <= k <= last && reports[k].fillId == f;
      assert before[k].fillId == f;
    }
    assert f == reports[last].fillId ==> Reported(reports, f);
  }

  lemma HistoryStep(reports: seq<DealReport>, last: nat, now: real, h: Ledger)
    requires |reports| == last + 1 && HistoryOf(reports[..last], now, h)
    ensures var r := reports[last];
            var deal := Deal(r.quantity, r.price, if r.at.Some? then r.at.value else now);
            HistoryOf(reports, now, if r.fillId in h then h else h[r.fillId := deal])
  {
    hide FirstReport; hide Reported;
    var before, r := reports[..last], reports[last];
    forall k | 0 <= k < last ensures before[k] == reports[k] && (FirstReport(before, k) <==> FirstReport(reports, k)) {
      PrefixFirst(reports, k);
    }
    forall f ensures Reported(reports, f) <==> Reported(before, f) || f == r.fillId {
      ReportedStep(reports, last, f);
    }
    FirstMeans(reports, last);
    var deal := Deal(r.quantity, r.price, if r.at.Some? then r.at.value else now);
    var h' := if r.fillId in h then h else h[r.fillId := deal];
    forall k | 0 <= k < |reports| && FirstReport(reports, k)
      ensures reports[k].fillId in h' && h'[reports[k].fillId]
           == Deal(reports[k].quantity, reports[k].price, if reports[k].at == None then now else reports[k].at.value) {
      if k < last {
        assert FirstReport(before, k) && before[k].fillId in h;
      }
    }
  }

  lemma FirstMeans(reports: seq<DealReport>, last: nat)
    requires |reports| == last + 1
    ensures FirstReport(reports, last) <==> !Reported(reports[..last], reports[last].fillId)
  {
    var before := reports[..last];
    assert forall k | 0 <= k < last :: before[k] == reports[k];
  }

  /** The history a recovery reads off the broker's reports, if it accepts them. */
  lemma {:induction false} NormalizeIff(reports: seq<DealReport>, now: real)
    ensures Normalize(reports, now).Ok? <==> WellReported(reports)
    ensures Normalize(reports, now).Ok? ==> HistoryOf(reports, now, Normalize(reports, now).value)
    ensures Normalize(reports, now).Raised? ==> Normalize(reports, now).error == ValueError
  {
    if reports != [] {
      var last := |reports| - 1;
      var before, r := Normalize(reports[..last], now), reports[last];
      NormalizeIff(reports[..last], now);
      WellReportedStep(reports, last);
      VisibleIff(r.fillId);
      if before.Ok? {
        HistoryStep(reports, last, now, before.value);
        if r.fillId in before.value {
          assert Reported(reports[..last], r.fillId);
          RepeatAgrees(reports, last, now, before.value);
        } else {
          forall j | 0 <= j < last ensures reports[j].fillId != r.fillId {
            assert reports[..last][j].fillId == reports[j].fillId;
            assert Reported(reports[..last], reports[j].fillId);
          }
        }
      }
      hide WellReported; hide HistoryOf; hide Visible; hide Blank;
    }
  }

  /** A repeat is compared with the first report of its id. */
  lemma RepeatAgrees(reports: seq<DealReport>, last: nat, now: real, h: Ledger)
    requires |reports| == last + 1 && HistoryOf(reports[..last], now, h) && reports[last].fillId in h
    ensures SameDeal(h[reports[last].fillId], reports[last].quantity, reports[last].price) <==>
              forall j | && 0 <= j < last && FirstReport(reports[..last], j)
                         && reports[j].fillId == reports[last].fillId ::
                SameReport(reports[j], reports[last])
  {
    var f, before := reports[last].fillId, reports[..last];
    var k := FirstOf(before, f);
    forall j | 0 <= j < last && FirstReport(before, j) && reports[j].fillId == f ensures j == k {
      assert before[j].fillId == before[k].fillId;
    }
    assert h[before[k].fillId].quantity == reports[k].quantity && h[before[k].fillId].price == reports[k].price;
  }

  ghost function QuantityOf(h: Ledger): real { Sums.Total(map f | f in h :: h[f].quantity) }

  ghost function WorthOf(h: Ledger): real { Sums.Total(map f | f in h :: h[f].quantity * h[f].price) }

  lemma TotalsAre(h: Ledger)
    ensures QuantityOf(h) == LedgerQuantity(h) && WorthOf(h) == LedgerNotional(h)
  {
    assert Notionals(h) == map f | f in h :: h[f].quantity * h[f].price;
  }

  predicate Within(x: real, y: real, bound: real) { -bound <= x - y <= bound }

  /** The deals add up to the reported amounts: quantities within 1e-9, or a billionth of the report if
      that is more, and notionals within 1e-7, or a billionth. */
  ghost predicate AddsUp(h: Ledger, filled: real, notional: real) {
    && (Within(QuantityOf(h), filled, 0.000000001) || Within(QuantityOf(h), filled, Abs(filled) * 0.000000001))
    && (Within(WorthOf(h), notional, 0.0000001) || Within(WorthOf(h), notional, Abs(notional) * 0.000000001))
  }

  lemma AddsUpIff(h: Ledger, filled: real, notional: real)
    ensures AddsUp(h, filled, notional) <==> Reconciles(LedgerQuantity(h), LedgerNotional(h), filled, notional)
  {
    TotalsAre(h);
    hide QuantityOf; hide WorthOf; hide LedgerQuantity; hide LedgerNotional;
  }

  /** Every recorded deal reappears in the history, the same up to 1e-12. */
  ghost predicate Reappear(recorded: Ledger, h: Ledger) {
    forall f | f in recorded :: f in h && Within(h[f].quantity, recorded[f].quantity, 0.000000000001)
                                       && Within(h[f].price, recorded[f].price, 0.000000000001)
  }

  /** What the broker may say of an order that was read as `row`. */
  ghost predicate Sayable(row: Row, venue: Option<Id>, status: State, filled: real, notional: real) {
    && row.state == Unknown
    && ((venue.Some? && venue.value != Name("")) || (row.clientId.Some? && row.clientId.value != Name("")))
    && ((filled == 0.0 && notional == 0.0 && status in {Working, Cancelled, Expired, Rejected})
        || (filled > 0.0 && notional > 0.0
            && status in {Working, PartiallyFilled, Filled, Cancelled, Expired, Rejected}))
    && (row.requested.Some? ==>
          && filled <= row.requested.value + 0.000000001
          && (status == Filled ==> filled >= row.requested.value - 0.000000001)
          && (status == PartiallyFilled ==> filled < row.requested.value - 0.000000001))
  }

  lemma SayableIff(row: Row, venue: Option<Id>, status: State, filled: real, notional: real)
    ensures Sayable(row, venue, status, filled, notional) <==> RecoveryAccepted(row, venue, status, filled, notional)
  {
  }

  /** A recovery is accepted exactly if the broker's word is sayable of the row it read, the row is
      still UNKNOWN when it is written, and the deals, if the broker gave any, are in order, add up to
      its word and include every recorded one. */
  lemma RecoverIff(t: Tables, read: Row, id: Id, venue: Option<Id>, status: State, filled: real, notional: real,
                   now: real, reports: Option<seq<DealReport>>)
    ensures Recover(t, read, id, venue, status, filled, notional, now, reports).Ok? <==>
              && Sayable(read, venue, status, filled, notional) && id in t.rows && t.rows[id].state == Unknown
              && (reports.Some? ==>
                    && WellReported(reports.value)
                    && forall h | HistoryOf(reports.value, now, h) ::
                         AddsUp(h, filled, notional) && Reappear(LedgerOf(t, id), h))
    ensures Recover(t, read, id, venue, status, filled, notional, now, reports).Raised? ==>
              var error := Recover(t, read, id, venue, status, filled, notional, now, reports).error;
              && error in {ValueError, RuntimeError}
              && (error == RuntimeError ==> id !in t.rows || t.rows[id].state != Unknown)
              && (!Sayable(read, venue, status, filled, notional) ==> error == ValueError)
  {
    hide Sayable; hide RecoveryAccepted; hide Reconciles; hide AddsUp; hide WellReported; hide HistoryOf;
    hide Normalize;
    SayableIff(read, venue, status, filled, notional);
    if reports.Some? {
      NormalizeIff(reports.value, now);
      if WellReported(reports.value) {
        var h := Normalize(reports.value, now).value;
        AddsUpIff(h, filled, notional);
        ReappearIff(LedgerOf(t, id), h);
        forall g | HistoryOf(reports.value, now, g) ensures g == h {
          OneHistory(reports.value, now, g, h);
        }
      }
    }
    hide Reappear; hide Covers;
  }

  lemma ReappearIff(recorded: Ledger, h: Ledger)
    ensures Reappear(recorded, h) <==> Covers(h, recorded)
  {
    assert forall f | f in recorded && f in h ::
        SameDeal(h[f], recorded[f].quantity, recorded[f].price)
        <==> Within(h[f].quantity, recorded[f].quantity, 0.000000000001)
             && Within(h[f].price, recorded[f].price, 0.000000000001);
  }

  /** The reports make one history. */
  lemma OneHistory(reports: seq<DealReport>, now: real, g: Ledger, h: Ledger)
    requires HistoryOf(reports, now, g) && HistoryOf(reports, now, h)
    ensures g == h
  {
    forall f | f in h ensures f in g && g[f] == h[f] {
      assert Reported(reports, f);
      var k := FirstOf(reports, f);
      assert reports[k].fillId in g;
    }
    forall f | f in g ensures f in h {
      assert Reported(reports, f);
    }
  }

  /** What an accepted recovery writes. The state is the broker's word and the amounts are its amounts;
      the venue id is the given one, or else the old one. The ledger is the broker's history if it gave
      one, and is complete then; otherwise it stays, and is complete if the broker reports nothing
      filled, or if it was complete when read and adds up to the broker's word. */
  lemma RecoverWrites(t: Tables, read: Row, id: Id, venue: Option<Id>, status: State, filled: real, notional: real,
                      now: real, reports: Option<seq<DealReport>>)
    requires Recover(t, read, id, venue, status, filled, notional, now, reports).Ok?
    ensures var t' := Recover(t, read, id, venue, status, filled, notional, now, reports).value;
            && id in t.rows && id in t'.rows && OnlyAt(t, t', id)
            && var row, row' := t.rows[id], t'.rows[id];
            && row'.state == status && row'.filled == filled && row'.notional == notional
            && row'.venueId == (if venue == None then row.venueId else venue)
            && row'.lastError == None && row'.updatedAt == now
            && row'.parentId == row.parentId && row'.clientId == row.clientId && row'.requested == row.requested
            && (if reports.Some? then row'.complete && HistoryOf(reports.value, now, LedgerOf(t', id))
                else && LedgerOf(t', id) == LedgerOf(t, id)
                     && (row'.complete
                         <==> (filled == 0.0 && notional == 0.0)
                              || (read.complete && AddsUp(LedgerOf(t, id), filled, notional))))
  {
    hide RecoveryAccepted; hide Reconciles; hide AddsUp; hide HistoryOf; hide Normalize; hide Covers; hide WellReported;
    AddsUpIff(LedgerOf(t, id), filled, notional);
    if reports.Some? {
      NormalizeIff(reports.value, now);
    }
  }

  /** After a recovery the order still needs the broker exactly if it is live there, or FILLED on a
      ledger that is not complete. */
  lemma RecoveredStillOpenIff(t: Tables, read: Row, id: Id, venue: Option<Id>, status: State, filled: real,
                              notional: real, now: real, reports: Option<seq<DealReport>>)
    requires Recover(t, read, id, venue, status, filled, notional, now, reports).Ok?
    ensures var t' := Recover(t, read, id, venue, status, filled, notional, now, reports).value;
            id in t'.rows
            && (Unresolved(t'.rows[id])
                <==> status == Working || status == PartiallyFilled || (status == Filled && !t'.rows[id].complete))
  {
    RecoverWrites(t, read, id, venue, status, filled, notional, now, reports);
    SayableIff(read, venue, status, filled, notional);
    hide Normalize; hide Reconciles; hide Covers; hide HistoryOf; hide AddsUp; hide OnlyAt;
  }

  /** A row that needs no reconciliation is one that ended, or is FILLED on a complete ledger. */
  lemma ResolvedIff(row: Row)
    ensures !Unresolved(row) <==>
              || row.state == Cancelled || row.state == Rejected || row.state == Expired || row.state == Recovered
              || (row.state == Filled && row.complete)
  {
    StatesAre(row.state);
  }
}
