/** The child loop against the simulated venue: exactly when it goes through, and what the order
    manager, the journal and the venue then agree on. */
module SimulatedRun {
  import opened Common
  import opened Orders
  import opened ExecutionExits
  import opened ExecutionLoop
  import opened ExecutionSpec
  import opened Identity
  import A = AdmissionSpec
  import E = StateEvents
  import J = JournalSpec
  import JR = JournalRuns
  import O = OmsSpec
  import Slicing
  import Sums
  import V = Venue

  /** One attempt: the stored parent, its routed children, the quote the coordinator acts on, and the
      price the children are executed at. */
  datatype Sim = Sim(market: V.Market, order: Order, children: seq<Order>, quote: V.Quote, price: real, fingerprint: Id,
                     now: real)

  /** The quantity of the first n children. */
  function Done(s: Sim, n: nat): real
    requires n <= |s.children|
  {
    if n == 0 then 0.0 else Done(s, n - 1) + s.children[n - 1].quantity
  }

  /** The children are a plan for the order that the venue can take. */
  ghost predicate PlanOk(s: Sim) {
    var o, n := s.order, |s.children|;
    && o.quantity > 0.0 && !Blank(o.id) && !Blank(o.decision) && !Blank(s.fingerprint)
    && s.price > 0.0 && (o.side == Buy ==> s.price >= s.market.ask) && (o.side == Sell ==> s.price <= s.market.bid)
    && (forall k | 0 <= k < n :: ChildOk(s, s.children[k]))
    && (forall j, k | 0 <= j < k < n ::
          s.children[j].id != s.children[k].id && s.children[j].ClientId() != s.children[k].ClientId())
    && n > 0 && 0.0 <= o.quantity - Done(s, n) <= TOL_12
  }

  ghost predicate ChildOk(s: Sim, c: Order) {
    && 0.0 < c.quantity <= s.market.available && c.venue == Some(s.market.name) && c.side == s.order.side
    && !Blank(c.id) && !Blank(c.ClientId()) && c.id != s.order.id && !Empty(c.id)
  }

  function VenueIdOf(s: Sim, k: nat): Id
    requires k < |s.children|
  {
    V.VenueId(s.market, s.children[k])
  }

  // ----- The venue -----

  /** submit, fill and reconcile, one after the other, as the coordinator calls them. */
  function Serve(s: Sim, b: V.Books, k: nat): (V.Books, Replies)
    requires k < |s.children|
  {
    var c := s.children[k];
    var submitted := V.Submit(s.market, b, c);
    if submitted.Raised? then (b, Replies(Raised(submitted.error), Raised(BrokerError), Raised(BrokerError)))
    else
      var filled := V.Execute(s.market, submitted.value.0, c, submitted.value.1, s.price, s.now);
      if filled.Raised?
      then (submitted.value.0, Replies(Ok(submitted.value.1), Raised(filled.error), Raised(BrokerError)))
      else
        (filled.value.0,
         Replies(Ok(submitted.value.1), Ok(filled.value.1), Ok(V.Observe(filled.value.0, submitted.value.1))))
  }

  /** Children from n on are new to the venue. */
  ghost predicate BooksReady(s: Sim, b: V.Books, n: nat) {
    forall k: nat | n <= k < |s.children| :: VenueIdOf(s, k) !in b.submitted && VenueIdOf(s, k) !in b.fills
  }

  function FillOfChild(s: Sim, k: nat): Fill
    requires k < |s.children|
  {
    V.FillFor(s.children[k], VenueIdOf(s, k), s.price, s.now)
  }

  lemma ServeWorks(s: Sim, b: V.Books, n: nat)
    requires PlanOk(s) && n < |s.children| && BooksReady(s, b, n)
    ensures BooksReady(s, Serve(s, b, n).0, n + 1)
    ensures Serve(s, b, n).1 == Replies(Ok(VenueIdOf(s, n)), Ok(FillOfChild(s, n)),
                                        Ok(V.Observation(Some(Filled), Some(s.children[n].quantity), Some(s.price))))
  {
    assert ChildOk(s, s.children[n]);
    assert VenueIdOf(s, n) !in b.submitted;
    forall k: nat | n < k < |s.children| ensures VenueIdOf(s, k) != VenueIdOf(s, n) {
    }
  }

  // ----- The journal -----

  function ParentState(s: Sim, n: nat): J.State
    requires n <= |s.children|
  {
    if n == 0 then J.Submitting else if Done(s, n) >= s.order.quantity - TOL_9 then J.Filled else J.PartiallyFilled
  }

  function ParentFillId(s: Sim, k: nat): Id
    requires k < |s.children|
  {
    Scoped(s.children[k].id, FillOfChild(s, k).fillId)
  }

  ghost predicate ClientFree(rows: map<Id, J.Row>, client: Id) {
    forall id | id in rows :: rows[id].clientId != Some(client)
  }

  /** Child k is in the journal as it should be after it was filled. */
  ghost predicate ChildDone(s: Sim, t: J.Tables, k: nat)
    requires k < |s.children|
  {
    var c := s.children[k];
    && c.id in t.rows
    && t.rows[c.id].parentId == Some(s.order.id) && t.rows[c.id].clientId == Some(c.ClientId())
    && t.rows[c.id].requested == Some(c.quantity) && t.rows[c.id].filled == c.quantity && t.rows[c.id].state == J.Filled
       && t.rows[c.id].complete
  }

  /** The journal after n children. */
  ghost predicate JournalAfter(s: Sim, t: J.Tables, n: nat)
    requires n <= |s.children|
  {
    && JR.TablesOk(t) && s.order.id in t.rows
    && t.rows[s.order.id].requested == Some(s.order.quantity) && t.rows[s.order.id].filled == Done(s, n)
    && t.rows[s.order.id].state == ParentState(s, n) && t.rows[s.order.id].complete
    && (forall k: nat | n <= k < |s.children| ::
          && ParentFillId(s, k) !in J.LedgerOf(t, s.order.id)
          && s.children[k].id !in t.rows && ClientFree(t.rows, s.children[k].ClientId()))
    && (forall k: nat | k < n :: ChildDone(s, t, k))
    && KidAmounts(s, t) == Kids(s, n)
  }

  /** What the journal says of the parent's children, and what it should say after n of them. */
  function KidAmounts(s: Sim, t: J.Tables): map<Id, real> {
    map id | id in t.rows && t.rows[id].parentId == Some(s.order.id) :: t.rows[id].filled
  }

  function Kids(s: Sim, n: nat): map<Id, real>
    requires n <= |s.children|
  {
    if n == 0 then map[] else Kids(s, n - 1)[s.children[n - 1].id := s.children[n - 1].quantity]
  }

  lemma {:induction false} KidIds(s: Sim, n: nat, id: Id)
    requires n <= |s.children| && id in Kids(s, n)
    ensures exists k: nat | k < n :: s.children[k].id == id
  {
    if id != s.children[n - 1].id {
      KidIds(s, n - 1, id);
    } else {
      var k: nat := n - 1;
      assert s.children[k].id == id;
    }
  }

  lemma {:induction false} KidsAddUp(s: Sim, n: nat)
    requires PlanOk(s) && n <= |s.children|
    ensures Sums.Total(Kids(s, n)) == Done(s, n)
  {
    if n > 0 {
      KidsAddUp(s, n - 1);
      if s.children[n - 1].id in Kids(s, n - 1) {
        KidIds(s, n - 1, s.children[n - 1].id);
      }
      Sums.TotalUpdate(Kids(s, n - 1), s.children[n - 1].id, s.children[n - 1].quantity);
    }
  }

  function BeginChild(s: Sim, t: J.Tables, k: nat): Outcome<J.Tables>
    requires k < |s.children|
  {
    var c := s.children[k];
    J.BeginSubmission(t, c.id, s.now, Some(s.order.id), Some(c.ClientId()), Some(c.quantity), true)
  }

  /** Between the child's submission and its fill: everything else is as it was. */
  ghost predicate JournalDuring(s: Sim, t: J.Tables, t': J.Tables, n: nat)
    requires n < |s.children|
  {
    && JR.TablesOk(t') && s.order.id in t.rows && AwaitsFill(t', s.order.id, s.children[n])
    && t'.rows.Keys == t.rows.Keys + {s.children[n].id} && s.children[n].id !in t.rows
    && (forall id | id in t.rows :: t'.rows[id] == t.rows[id])
    && (forall id | id in t.rows :: J.LedgerOf(t', id) == J.LedgerOf(t, id))
  }

  lemma BeginWorks(s: Sim, t: J.Tables, n: nat)
    requires PlanOk(s) && n < |s.children| && JournalAfter(s, t, n)
    ensures BeginChild(s, t, n).Ok?
    ensures JournalDuring(s, t, BeginChild(s, t, n).value, n)
            && BeginChild(s, t, n).value.rows[s.children[n].id].state == J.Submitting
  {
    var c := s.children[n];
    assert ChildOk(s, c) && ClientFree(t.rows, c.ClientId());
    assert BeginChild(s, t, n).Ok?;
    BeginFacts(t, s.order.id, c, s.now);
  }

  lemma ContainedIsOk(t: J.Tables, t': J.Tables, parent: Id, child: Id)
    requires RowsContained(t, t', parent, child)
    ensures JR.TablesOk(t')
  {
  }

  lemma AwaitsSubmitting(t: J.Tables, parent: Id, child: Order)
    requires AwaitsFill(t, parent, child)
    ensures child.id in t.rows
  {
  }

  lemma ReplyWorks(s: Sim, t: J.Tables, t': J.Tables, n: nat)
    requires PlanOk(s) && n < |s.children| && JournalDuring(s, t, t', n)
             && t'.rows[s.children[n].id].state == J.Submitting
    ensures AfterReply(t', s.children[n].id, Ok(VenueIdOf(s, n)), s.now).1 == Ok(VenueIdOf(s, n))
    ensures JournalDuring(s, t, AfterReply(t', s.children[n].id, Ok(VenueIdOf(s, n)), s.now).0, n)
  {
    assert ChildOk(s, s.children[n]);
    hide RowsContained; hide JR.TablesOk; hide AwaitsFill; hide PlanOk; hide J.Update;
    var parent, c, venue := s.order.id, s.children[n], Some(VenueIdOf(s, n));
    AwaitsSubmitting(t', parent, c);
    MarkFacts(t', parent, c, J.Working, venue, None, s.now);
    UpdateMeans(t', c.id, J.Working, venue, None, s.now);
    ContainedIsOk(t', J.Update(t', c.id, J.Working, venue, None, s.now).value, parent, c.id);
  }

  lemma UpdateMeans(t: J.Tables, id: Id, state: J.State, venue: Option<Id>, error: Option<string>, now: real)
    requires J.Update(t, id, state, venue, error, now).Ok?
    ensures var t' := J.Update(t, id, state, venue, error, now).value;
            && id in t.rows && t'.rows.Keys == t.rows.Keys && t'.fills == t.fills
            && forall other | other in t.rows && other != id :: t'.rows[other] == t.rows[other]
  {
  }

  function ChildMark(s: Sim, t: J.Tables, n: nat): Outcome<J.Tables>
    requires n < |s.children|
  {
    J.MarkFill(t, s.children[n].id, s.children[n].quantity, s.price, s.now, Some(FillOfChild(s, n).fillId))
  }

  function ParentMark(s: Sim, t: J.Tables, n: nat): Outcome<J.Tables>
    requires n < |s.children|
  {
    J.MarkFill(t, s.order.id, s.children[n].quantity, s.price, s.now, Some(ParentFillId(s, n)))
  }

  /** After the child's own fill. */
  ghost predicate ChildBooked(s: Sim, t: J.Tables, t': J.Tables, n: nat)
    requires n < |s.children|
  {
    && JR.TablesOk(t') && s.order.id in t.rows && ChildDone(s, t', n) && s.children[n].id !in t.rows
    && t'.rows.Keys == t.rows.Keys + {s.children[n].id}
    && (forall id | id in t.rows :: t'.rows[id] == t.rows[id])
    && J.LedgerOf(t', s.order.id) == J.LedgerOf(t, s.order.id)
  }

  lemma ChildMarkWorks(s: Sim, t: J.Tables, t': J.Tables, n: nat)
    requires PlanOk(s) && n < |s.children| && JournalDuring(s, t, t', n)
    ensures ChildMark(s, t', n).Ok? && ChildBooked(s, t, ChildMark(s, t', n).value, n)
  {
    assert ChildOk(s, s.children[n]);
    JR.FillEvolves(t', s.children[n].id, s.children[n].quantity, s.price, s.now, Some(FillOfChild(s, n).fillId));
  }

  /** The parent's fill is accepted exactly when the parent's row has not closed early. */
  lemma ParentMarkIff(s: Sim, t: J.Tables, t': J.Tables, n: nat)
    requires PlanOk(s) && n < |s.children| && JournalAfter(s, t, n) && ChildBooked(s, t, t', n)
    ensures ParentMark(s, t', n).Ok? <==> ParentState(s, n) != J.Filled
    ensures ParentMark(s, t', n).Ok? ==> JournalAfter(s, ParentMark(s, t', n).value, n + 1)
  {
    assert ChildOk(s, s.children[n]);
    DoneGrows(s, n + 1, |s.children|);
    if ParentMark(s, t', n).Ok? {
      ParentMarkMoves(s, t, t', n);
    }
  }

  lemma {:induction false} DoneGrows(s: Sim, m: nat, n: nat)
    requires m <= n <= |s.children| && forall k | 0 <= k < |s.children| :: s.children[k].quantity > 0.0
    ensures Done(s, m) <= Done(s, n) && (m < n ==> Done(s, m) < Done(s, n))
    decreases n - m
  {
    if m < n {
      DoneGrows(s, m, n - 1);
    }
  }

  lemma ParentMarkMeans(s: Sim, t: J.Tables, n: nat)
    requires n < |s.children| && s.order.id in t.rows && JR.TablesOk(t) && ParentMark(s, t, n).Ok?
    requires ParentFillId(s, n) !in J.LedgerOf(t, s.order.id)
    ensures var t', row := ParentMark(s, t, n).value, t.rows[s.order.id];
            && JR.TablesOk(t')
            && t'.rows == t.rows[s.order.id := J.FilledRow(row, s.children[n].quantity, s.price, s.now, true)]
            && J.LedgerOf(t', s.order.id).Keys == J.LedgerOf(t, s.order.id).Keys + {ParentFillId(s, n)}
  {
    JR.FillEvolves(t, s.order.id, s.children[n].quantity, s.price, s.now, Some(ParentFillId(s, n)));
  }

  lemma ParentMarkMoves(s: Sim, t: J.Tables, t': J.Tables, n: nat)
    requires PlanOk(s) && n < |s.children| && JournalAfter(s, t, n) && ChildBooked(s, t, t', n)
    requires ParentMark(s, t', n).Ok? && ParentState(s, n) != J.Filled
    ensures JournalAfter(s, ParentMark(s, t', n).value, n + 1)
  {
    hide ParentMark; hide JR.TablesOk; hide ClientFree; hide Kids; hide KidAmounts; hide ChildDone; hide J.LedgerOf;
    hide ParentFillId; hide PlanOk;
    assert ParentFillId(s, n) !in J.LedgerOf(t, s.order.id);
    ParentMarkMeans(s, t', n);
    var t'' := ParentMark(s, t', n).value;
    FutureStays(s, t, t', t'', n);
    PastStays(s, t, t', t'', n);
    KidsGrow(s, t, t', t'', n);
  }

  lemma {:induction false} ParentIsNoKid(s: Sim, n: nat)
    requires PlanOk(s) && n <= |s.children|
    ensures s.order.id !in Kids(s, n)
  {
    if n > 0 {
      ParentIsNoKid(s, n - 1);
      assert ChildOk(s, s.children[n - 1]);
    }
  }

  lemma KidsGrow(s: Sim, t: J.Tables, t': J.Tables, t'': J.Tables, n: nat)
    requires PlanOk(s) && n < |s.children| && ChildBooked(s, t, t', n) && KidAmounts(s, t) == Kids(s, n)
    requires t''.rows.Keys == t'.rows.Keys && t''.rows[s.order.id].parentId == t'.rows[s.order.id].parentId
    requires forall id | id in t'.rows && id != s.order.id :: t''.rows[id] == t'.rows[id]
    ensures KidAmounts(s, t'') == Kids(s, n + 1)
  {
    assert ChildOk(s, s.children[n]);
    var c := s.children[n];
    assert t'.rows[c.id].parentId == Some(s.order.id) && t'.rows[c.id].filled == c.quantity;
    ParentIsNoKid(s, n);
    hide PlanOk; hide JR.TablesOk; hide J.LedgerOf; hide ChildDone; hide ChildOk; hide Kids;
    assert s.order.id !in KidAmounts(s, t);
    KidsAre(s, t, t'', n);
    OneMoreKid(s, n);
  }

  lemma OneMoreKid(s: Sim, n: nat)
    requires n < |s.children|
    ensures Kids(s, n + 1) == Kids(s, n)[s.children[n].id := s.children[n].quantity]
  {
  }

  lemma KidsAre(s: Sim, t: J.Tables, t': J.Tables, n: nat)
    requires n < |s.children| && s.order.id in t.rows && s.order.id !in KidAmounts(s, t)
    requires s.children[n].id !in t.rows && t'.rows.Keys == t.rows.Keys + {s.children[n].id}
    requires t'.rows[s.children[n].id].parentId == Some(s.order.id)
             && t'.rows[s.children[n].id].filled == s.children[n].quantity
    requires t'.rows[s.order.id].parentId == t.rows[s.order.id].parentId
    requires forall id | id in t.rows && id != s.order.id :: t'.rows[id] == t.rows[id]
    ensures KidAmounts(s, t') == KidAmounts(s, t)[s.children[n].id := s.children[n].quantity]
  {
  }

  lemma FutureStays(s: Sim, t: J.Tables, t': J.Tables, t'': J.Tables, n: nat)
    requires PlanOk(s) && n < |s.children| && JournalAfter(s, t, n) && ChildBooked(s, t, t', n)
    requires t''.rows.Keys == t'.rows.Keys && t''.rows[s.order.id].clientId == t'.rows[s.order.id].clientId
    requires forall id | id in t'.rows && id != s.order.id :: t''.rows[id] == t'.rows[id]
    requires J.LedgerOf(t'', s.order.id).Keys == J.LedgerOf(t', s.order.id).Keys + {ParentFillId(s, n)}
    ensures forall k: nat | n + 1 <= k < |s.children| ::
              && ParentFillId(s, k) !in J.LedgerOf(t'', s.order.id)
              && s.children[k].id !in t''.rows && ClientFree(t''.rows, s.children[k].ClientId())
  {
    forall k: nat | n + 1 <= k < |s.children|
      ensures ParentFillId(s, k) !in J.LedgerOf(t'', s.order.id) && s.children[k].id !in t''.rows
              && ClientFree(t''.rows, s.children[k].ClientId()) {
      var c := s.children[n];
      assert s.children[k].id != c.id && s.children[k].ClientId() != c.ClientId();
      assert t'.rows[c.id].clientId == Some(c.ClientId());
      assert ParentFillId(s, k) !in J.LedgerOf(t, s.order.id) && s.children[k].id !in t.rows;
      hide PlanOk; hide JR.TablesOk; hide ChildDone; hide Kids; hide KidAmounts; hide J.LedgerOf;
      assert ClientFree(t.rows, s.children[k].ClientId());
      StillFree(t.rows, t''.rows, s.order.id, c.id, s.children[k].ClientId());
    }
  }

  lemma StillFree(rows: map<Id, J.Row>, rows': map<Id, J.Row>, parent: Id, child: Id, client: Id)
    requires parent in rows && rows'.Keys == rows.Keys + {child} && rows'[parent].clientId == rows[parent].clientId
    requires rows'[child].clientId != Some(client)
    requires forall id | id in rows && id != parent && id != child :: rows'[id] == rows[id]
    requires ClientFree(rows, client)
    ensures ClientFree(rows', client)
  {
  }

  lemma PastStays(s: Sim, t: J.Tables, t': J.Tables, t'': J.Tables, n: nat)
    requires PlanOk(s) && n < |s.children| && JournalAfter(s, t, n) && ChildBooked(s, t, t', n)
    requires t''.rows.Keys == t'.rows.Keys
    requires forall id | id in t'.rows && id != s.order.id :: t''.rows[id] == t'.rows[id]
    ensures forall k: nat | k < n + 1 :: ChildDone(s, t'', k)
  {
    forall k: nat | k < n + 1 ensures ChildDone(s, t'', k) {
      assert k < n ==> ChildDone(s, t, k);
      assert s.children[k].id != s.order.id by { assert ChildOk(s, s.children[k]); }
    }
  }

  // ----- The order manager -----

  /** The order manager after n children: the average stays the one price. */
  ghost predicate OrdersAfter(s: Sim, m: O.Oms, n: nat)
    requires n <= |s.children|
  {
    && O.OmsOk(m) && O.FilledNonNegative(m) && s.order.id in m.orders
    && var o := m.orders[s.order.id];
    && o.quantity == s.order.quantity && o.decision == s.order.decision && o.filled == Done(s, n)
    && o.average == (if n == 0 then None else Some(s.price))
    && (n > 0 ==> o.status == if Abs(Done(s, n) - s.order.quantity) <= TOL_12 then Filled else PartiallyFilled)
    && (forall k: nat | n <= k < |s.children| :: FillOfChild(s, k).fillId !in m.fills[s.order.id])
  }

  function ParentFillOf(s: Sim, k: nat): Fill
    requires k < |s.children|
  {
    Fill(FillOfChild(s, k).fillId, s.order.id, VenueIdOf(s, k), s.children[k].quantity, s.price, s.now)
  }

  lemma SameAverage(price: real, x: real, y: real)
    requires x + y != 0.0
    ensures (price * x + price * y) / (x + y) == price
  {
    assert price * x + price * y == price * (x + y);
  }

  lemma FillIsTaken(s: Sim, m: O.Oms, n: nat)
    requires PlanOk(s) && n < |s.children| && OrdersAfter(s, m, n)
    ensures ParentFillOf(s, n).fillId !in m.fills[s.order.id]
    ensures O.FillAccepted(m.orders[s.order.id], ParentFillOf(s, n))
    ensures Done(s, n) >= 0.0
  {
    assert ChildOk(s, s.children[n]);
    DoneGrows(s, n + 1, |s.children|);
    DoneGrows(s, 0, n);
  }

  lemma AverageStays(s: Sim, o: Order, n: nat)
    requires n < |s.children| && o.filled == Done(s, n) >= 0.0 && s.children[n].quantity > 0.0
    requires o.average == (if n == 0 then None else Some(s.price))
    ensures O.NewAverage(o, s.children[n].quantity, s.price) == s.price
  {
    if n > 0 {
      SameAverage(s.price, o.filled, s.children[n].quantity);
    }
  }

  lemma OtherFills(s: Sim, n: nat)
    requires PlanOk(s) && n < |s.children|
    ensures forall k: nat | n + 1 <= k < |s.children| :: FillOfChild(s, k).fillId != FillOfChild(s, n).fillId
  {
    forall k: nat | n + 1 <= k < |s.children| ensures FillOfChild(s, k).fillId != FillOfChild(s, n).fillId {
      assert s.children[k].id != s.children[n].id;
    }
  }

  lemma FillWorks(s: Sim, m: O.Oms, n: nat)
    requires PlanOk(s) && n < |s.children| && OrdersAfter(s, m, n)
    ensures O.RecordFill(m, ParentFillOf(s, n), s.now).Ok?
    ensures OrdersAfter(s, O.RecordFill(m, ParentFillOf(s, n), s.now).value.0, n + 1)
    ensures var after := O.RecordFill(m, ParentFillOf(s, n), s.now).value; after.1 == after.0.orders[s.order.id]
  {
    FillIsTaken(s, m, n);
    assert s.children[n].quantity > 0.0 by { assert ChildOk(s, s.children[n]); }
    AverageStays(s, m.orders[s.order.id], n);
    OtherFills(s, n);
    hide PlanOk; hide O.NewAverage; hide O.FillAccepted; hide FillOfChild;
  }

  // ----- The event stream -----

  /** The parent's backend stream after n children: NEW, VALIDATED, ROUTING and WORKING are 0 to 3. */
  ghost predicate EventsAfter(s: Sim, log: E.Log, n: nat)
    requires n <= |s.children|
  {
    var stream := E.StreamOf(log, E.Backend, s.order.id);
    && E.StreamOk(stream) && stream != []
    && var last := stream[|stream| - 1];
    && last.sequence == 3 + n && last.decision == s.order.decision && last.fingerprint == s.fingerprint
    && last.filled == Done(s, n)
  }

  lemma EventWorks(s: Sim, log: E.Log, o: Order, n: nat)
    requires PlanOk(s) && n < |s.children| && EventsAfter(s, log, n)
    requires o.id == s.order.id && o.decision == s.order.decision && o.filled == Done(s, n + 1)
             && o.average == Some(s.price)
    ensures E.Record(log, BackendEvent(o, 4 + n, s.fingerprint)).Ok?
    ensures EventsAfter(s, E.Record(log, BackendEvent(o, 4 + n, s.fingerprint)).value, n + 1)
  {
    var stream, e := E.StreamOf(log, E.Backend, s.order.id), BackendEvent(o, 4 + n, s.fingerprint).entry;
    assert ChildOk(s, s.children[n]);
    DoneGrows(s, 0, n + 1);
    E.LatestIsLast(stream);
    E.FindMeans(stream, 4 + n);
    assert E.Find(stream, 4 + n).None?;
    E.AppendKeepsOk(stream, e);
  }

  // ----- One child, and the whole loop -----

  ghost predicate WorldAfter(s: Sim, w: World, n: nat)
    requires n <= |s.children|
  {
    JournalAfter(s, w.journal, n) && OrdersAfter(s, w.oms, n) && EventsAfter(s, w.events, n)
  }

  lemma BookingWorks(s: Sim, w: World, n: nat, observed: Outcome<V.Observation>)
    requires PlanOk(s) && n < |s.children| && OrdersAfter(s, w.oms, n) && EventsAfter(s, w.events, n)
    requires observed == Ok(V.Observation(Some(Filled), Some(s.children[n].quantity), Some(s.price)))
    ensures var p := AfterBooking(w, s.order.id, s.children[n], n, VenueIdOf(s, n), FillOfChild(s, n), observed,
                                  s.fingerprint, s.now);
            && p.called && p.outcome.Ok? && p.outcome.value.1 && p.world.journal == w.journal
            && OrdersAfter(s, p.world.oms, n + 1) && EventsAfter(s, p.world.events, n + 1)
  {
    FillWorks(s, w.oms, n);
    var stored := O.RecordFill(w.oms, ParentFillOf(s, n), s.now).value;
    EventWorks(s, w.events, stored.1, n);
    VerdictMatches(s, n, observed, stored.1);
    hide PlanOk; hide O.RecordFill; hide E.Record; hide OrdersAfter; hide EventsAfter; hide Verdict;
    KeepsOk(s, w.oms, n);
    assert ParentFillOf(s, n) == Fill(FillOfChild(s, n).fillId, s.order.id, VenueIdOf(s, n), FillOfChild(s, n).quantity,
                                      FillOfChild(s, n).price, FillOfChild(s, n).at);
  }

  lemma KeepsOk(s: Sim, m: O.Oms, n: nat)
    requires n <= |s.children| && OrdersAfter(s, m, n)
    ensures O.OmsOk(m) && O.FilledNonNegative(m)
  {
  }

  lemma VerdictMatches(s: Sim, n: nat, observed: Outcome<V.Observation>, stored: Order)
    requires PlanOk(s) && n < |s.children|
    requires observed == Ok(V.Observation(Some(Filled), Some(s.children[n].quantity), Some(s.price)))
    ensures Verdict(s.children[n], FillOfChild(s, n), observed, stored) == Ok((stored, true))
  {
    assert ChildOk(s, s.children[n]);
  }

  lemma BookIff(s: Sim, t: J.Tables, t': J.Tables, n: nat)
    requires PlanOk(s) && n < |s.children| && JournalAfter(s, t, n) && JournalDuring(s, t, t', n)
    ensures var booked := BookFill(t', s.order.id, s.children[n].id, FillOfChild(s, n), s.now);
            && (booked.1.None? <==> ParentState(s, n) != J.Filled)
            && (booked.1.None? ==> JournalAfter(s, booked.0, n + 1))
  {
    ChildMarkWorks(s, t, t', n);
    var first := ChildMark(s, t', n);
    ParentMarkIff(s, t, first.value, n);
    hide J.MarkFill; hide JournalAfter; hide JournalDuring; hide PlanOk;
  }

  /** One child against the simulated venue: it goes through, reconciled, exactly when the parent's
      row has not closed early. */
  lemma StepIff(s: Sim, w: World, b: V.Books, n: nat)
    requires PlanOk(s) && n < |s.children| && WorldOk(w) && WorldAfter(s, w, n) && BooksReady(s, b, n)
    ensures var p := ChildStep(w, s.order.id, s.children[n], n, s.quote, Serve(s, b, n).1, s.fingerprint, s.now);
            && p.called
            && (p.outcome.Ok? <==> ParentState(s, n) != J.Filled)
            && (p.outcome.Ok? ==> p.outcome.value.1 && WorldAfter(s, p.world, n + 1))
  {
    var t, c := w.journal, s.children[n];
    ServeWorks(s, b, n);
    BeginWorks(s, t, n);
    var begun := BeginChild(s, t, n).value;
    ReplyWorks(s, t, begun, n);
    var placed := AfterReply(begun, c.id, Ok(VenueIdOf(s, n)), s.now).0;
    BookIff(s, t, placed, n);
    var booked := BookFill(placed, s.order.id, c.id, FillOfChild(s, n), s.now);
    var observed := Serve(s, b, n).1.observed;
    BookingWorks(s, w.(journal := booked.0), n, observed);
    hide PlanOk; hide JournalAfter; hide JournalDuring; hide OrdersAfter; hide EventsAfter; hide J.BeginSubmission;
    hide AfterReply; hide BookFill; hide AfterBooking; hide Serve; hide JR.TablesOk; hide BooksReady; hide ParentState;
  }

  ghost predicate Running(s: Sim, w: World) {
    WorldOk(w) && s.order.id in w.journal.rows
  }

  ghost function ChildOutcome(s: Sim, w: World, b: V.Books, k: nat): Progress
    requires k < |s.children|
  {
    if Running(s, w) then ChildStep(w, s.order.id, s.children[k], k, s.quote, Serve(s, b, k).1, s.fingerprint, s.now)
    else Progress(w, false, [], Raised(RuntimeError))
  }

  lemma KeepsRunning(s: Sim, w: World, b: V.Books, k: nat)
    requires k < |s.children| && Running(s, w)
    ensures Running(s, ChildOutcome(s, w, b, k).world)
  {
    ChildStepFacts(w, s.order.id, s.children[k], k, s.quote, Serve(s, b, k).1, s.fingerprint, s.now);
    hide ChildStep; hide RowsContained; hide OrdersContained; hide WorldOk; hide Journaled; hide FillRecorded;
    hide Bound;
  }

  /** Where the loop stands: the world, the venue's books, and the verdicts so far or the exception. */
  datatype Stage = Stage(world: World, books: V.Books, verdicts: Outcome<seq<bool>>)

  ghost function Advance(s: Sim, before: Stage, k: nat): Stage
    requires k < |s.children| && before.verdicts.Ok?
  {
    var p := ChildOutcome(s, before.world, before.books, k);
    Stage(p.world, if p.called then Serve(s, before.books, k).0 else before.books,
          if p.outcome.Ok? then Ok(before.verdicts.value + [p.outcome.value.1]) else Raised(p.outcome.error))
  }

  /** The loop over the first n children. */
  ghost function Loop(s: Sim, w: World, b: V.Books, n: nat): Stage
    requires n <= |s.children|
  {
    if n == 0 then Stage(w, b, Ok([]))
    else
      var before := Loop(s, w, b, n - 1);
      if before.verdicts.Raised? then before else Advance(s, before, n - 1)
  }

  /** The parent's row stays open until the last of the first n children is reached. */
  ghost predicate OpenUntil(s: Sim, n: nat)
    requires n <= |s.children|
  {
    n <= 1 || s.order.quantity - Done(s, n - 1) > TOL_9
  }

  lemma {:induction false} LoopIff(s: Sim, w: World, b: V.Books, n: nat)
    requires PlanOk(s) && n <= |s.children| && Running(s, w) && WorldAfter(s, w, 0) && BooksReady(s, b, 0)
    ensures Running(s, Loop(s, w, b, n).world)
    ensures Loop(s, w, b, n).verdicts.Ok? <==> OpenUntil(s, n)
    ensures Loop(s, w, b, n).verdicts.Ok? ==> GoneThrough(s, Loop(s, w, b, n), n)
  {
    hide PlanOk; hide WorldAfter; hide BooksReady; hide Running; hide OpenUntil; hide ParentState; hide Advance;
    hide GoneThrough;
    if n == 0 {
      NothingIsOpen(s, Stage(w, b, Ok([])));
    } else {
      LoopIff(s, w, b, n - 1);
      OpensInOrder(s, n);
      var before := Loop(s, w, b, n - 1);
      if before.verdicts.Ok? {
        AdvanceIff(s, before, n - 1);
      }
    }
  }

  ghost predicate GoneThrough(s: Sim, g: Stage, n: nat)
    requires n <= |s.children|
  {
    && WorldAfter(s, g.world, n) && BooksReady(s, g.books, n) && g.verdicts.Ok?
    && |g.verdicts.value| == n && forall k | 0 <= k < n :: g.verdicts.value[k]
  }

  lemma AdvanceIff(s: Sim, before: Stage, n: nat)
    requires PlanOk(s) && n < |s.children| && Running(s, before.world) && GoneThrough(s, before, n)
    ensures var g := Advance(s, before, n);
            && Running(s, g.world) && (g.verdicts.Ok? <==> ParentState(s, n) != J.Filled)
            && (g.verdicts.Ok? ==> GoneThrough(s, g, n + 1))
  {
    hide PlanOk; hide WorldAfter; hide BooksReady; hide ChildOutcome; hide Serve; hide Running; hide ParentState;
    KeepsRunning(s, before.world, before.books, n);
    OutcomeIff(s, before.world, before.books, n);
    ServeWorks(s, before.books, n);
  }

  lemma NothingIsOpen(s: Sim, g: Stage)
    ensures OpenUntil(s, 0)
    ensures g.verdicts == Ok([]) && WorldAfter(s, g.world, 0) && BooksReady(s, g.books, 0) ==> GoneThrough(s, g, 0)
  {
  }

  lemma OutcomeIff(s: Sim, w: World, b: V.Books, n: nat)
    requires PlanOk(s) && n < |s.children| && Running(s, w) && WorldAfter(s, w, n) && BooksReady(s, b, n)
    ensures var p := ChildOutcome(s, w, b, n);
            && p.called && (p.outcome.Ok? <==> ParentState(s, n) != J.Filled)
            && (p.outcome.Ok? ==> p.outcome.value.1 && WorldAfter(s, p.world, n + 1))
  {
    hide PlanOk; hide WorldAfter; hide BooksReady; hide ChildStep; hide Serve; hide WorldOk; hide ParentState;
    StepIff(s, w, b, n);
  }

  lemma OpensInOrder(s: Sim, n: nat)
    requires PlanOk(s) && 0 < n <= |s.children|
    ensures OpenUntil(s, n) <==> OpenUntil(s, n - 1) && ParentState(s, n - 1) != J.Filled
  {
    assert forall k | 0 <= k < |s.children| :: s.children[k].quantity > 0.0 by {
      assert forall k | 0 <= k < |s.children| :: ChildOk(s, s.children[k]);
    }
    if n > 2 {
      DoneGrows(s, n - 2, n - 1);
    }
  }

  /** Against the simulated venue the loop goes through exactly when there is one child, or the last
      child, with what the plan left unscheduled, is more than 1e-9. Then every child reconciles;
      the OMS parent and the journal's parent are FILLED for the same quantity, the plan's; every
      journal child is FILLED in full; and the average is the price. */
  lemma SimulatedRunIff(s: Sim, w: World, b: V.Books)
    requires PlanOk(s) && Running(s, w) && WorldAfter(s, w, 0) && BooksReady(s, b, 0)
    ensures var n, end := |s.children|, Loop(s, w, b, |s.children|);
            && (end.verdicts.Ok? <==> n <= 1 || s.order.quantity - Done(s, n - 1) > TOL_9)
            && (end.verdicts.Ok? ==>
                  && Agreed(s, end.world) && |end.verdicts.value| == n
                  && forall k | 0 <= k < n :: end.verdicts.value[k])
  {
    LoopIff(s, w, b, |s.children|);
    hide Loop; hide PlanOk;
    if Loop(s, w, b, |s.children|).verdicts.Ok? {
      AfterAllAgreed(s, Loop(s, w, b, |s.children|).world);
    }
  }

  /** The order manager and the journal agree that everything was executed. */
  ghost predicate Agreed(s: Sim, w: World) {
    && s.order.id in w.oms.orders && s.order.id in w.journal.rows
    && var o, row := w.oms.orders[s.order.id], w.journal.rows[s.order.id];
    && o.status == Filled && row.state == J.Filled && row.complete
    && o.filled == row.filled == Done(s, |s.children|) && o.average == Some(s.price)
    && 0.0 <= s.order.quantity - o.filled <= TOL_12
    && (forall k: nat | k < |s.children| :: ChildDone(s, w.journal, k))
    && DurablyMatched(map id | id in w.journal.rows && w.journal.rows[id].parentId == Some(s.order.id) ::
                      w.journal.rows[id], o)
  }

  lemma AfterAllAgreed(s: Sim, w: World)
    requires PlanOk(s) && WorldAfter(s, w, |s.children|)
    ensures Agreed(s, w)
  {
    hide JR.TablesOk; hide ChildOk; hide EventsAfter;
    ChildrenMatch(s, w.journal, w.oms.orders[s.order.id]);
    hide ChildDone; hide DurablyMatched; hide KidAmounts; hide Kids;
  }

  lemma ChildrenMatch(s: Sim, t: J.Tables, o: Order)
    requires PlanOk(s) && JournalAfter(s, t, |s.children|) && o.filled == Done(s, |s.children|)
    ensures DurablyMatched(map id | id in t.rows && t.rows[id].parentId == Some(s.order.id) :: t.rows[id], o)
  {
    var children := map id | id in t.rows && t.rows[id].parentId == Some(s.order.id) :: t.rows[id];
    assert FilledAmounts(children) == KidAmounts(s, t);
    KidsAddUp(s, |s.children|);
    forall id | id in children ensures children[id].state == J.Filled {
      assert id in KidAmounts(s, t);
      KidIds(s, |s.children|, id);
      var k: nat :| k < |s.children| && s.children[k].id == id;
      assert ChildDone(s, t, k);
    }
    assert ChildDone(s, t, 0);
    assert s.children[0].id in children;
  }

  /** The money: the exposure commit that follows succeeds exactly when the price times the quantity
      executed stays within what was reserved at the reference price. So a price above the reference
      price, such as the ask of a buy, makes the commit raise whenever the plan covers the order. */
  lemma CommitIff(s: Sim, w: World, held: A.Tables, scope: A.Scope, referencePrice: real)
    requires PlanOk(s) && Agreed(s, w) && referencePrice > 0.0
    requires var o := w.oms.orders[s.order.id]; o.id == s.order.id && o.symbol == s.order.symbol
    requires s.order.id in held.reservations
    requires var r := held.reservations[s.order.id];
             && r.scope == scope && r.portfolio == Budget(s, referencePrice)
             && r.symbols == map[s.order.symbol := Budget(s, referencePrice)]
    ensures CommitFilled(held, w.oms.orders[s.order.id]).Ok? <==> Cost(s) <= Budget(s, referencePrice)
    ensures s.price <= referencePrice ==> CommitFilled(held, w.oms.orders[s.order.id]).Ok?
    ensures Done(s, |s.children|) == s.order.quantity && s.price > referencePrice ==>
              CommitFilled(held, w.oms.orders[s.order.id]).Raised?
  {
    CostIs(s, w, referencePrice);
    hide PlanOk; hide Agreed; hide Done; hide CommitFilled; hide FilledNotional; hide Cost; hide Budget;
    CommittingMeans(held, w.oms.orders[s.order.id], scope, Budget(s, referencePrice));
  }

  /** What was paid, and what was reserved. */
  function Cost(s: Sim): real { Done(s, |s.children|) * s.price }

  function Budget(s: Sim, referencePrice: real): real { s.order.quantity * referencePrice }

  lemma CostIs(s: Sim, w: World, referencePrice: real)
    requires PlanOk(s) && Agreed(s, w) && referencePrice > 0.0
    ensures FilledNotional(w.oms.orders[s.order.id]) == Cost(s) >= 0.0
    ensures s.price <= referencePrice ==> Cost(s) <= Budget(s, referencePrice)
    ensures Done(s, |s.children|) == s.order.quantity && s.price > referencePrice
            ==> Cost(s) > Budget(s, referencePrice)
  {
    DoneIsPositive(s);
    Money(Done(s, |s.children|), s.order.quantity, s.price, referencePrice);
  }

  lemma Money(d: real, q: real, price: real, referencePrice: real)
    requires 0.0 < d <= q && price > 0.0 && referencePrice > 0.0
    ensures d * price >= 0.0
    ensures price <= referencePrice ==> d * price <= q * referencePrice
    ensures d == q && price > referencePrice ==> d * price > q * referencePrice
  {
    ProductsGrow(0.0, 0.0, d, price);
    if price <= referencePrice {
      ProductsGrow(d, price, q, referencePrice);
    } else {
      ProductsDiffer(q, referencePrice, price);
    }
  }

  lemma DoneIsPositive(s: Sim)
    requires PlanOk(s)
    ensures Done(s, |s.children|) > 0.0
  {
    assert forall k | 0 <= k < |s.children| :: s.children[k].quantity > 0.0 by {
      assert forall k | 0 <= k < |s.children| :: ChildOk(s, s.children[k]);
    }
    DoneGrows(s, 0, |s.children|);
  }

  lemma ProductsGrow(a: real, x: real, b: real, y: real)
    requires 0.0 <= a <= b && 0.0 <= x <= y
    ensures a * x <= b * y
  {
    assert a * x <= a * y;
    assert a * y <= b * y;
  }

  lemma ProductsDiffer(q: real, x: real, y: real)
    requires q > 0.0 && x < y
    ensures q * x < q * y
  {
  }

  // ----- Where the loop starts -----

  lemma {:induction false} DoneIsSum(s: Sim, n: nat)
    requires n <= |s.children|
    ensures Done(s, n) == Sums.SumSeq(Slicing.ChildQuantities(s.children[..n]))
  {
    if n > 0 {
      DoneIsSum(s, n - 1);
      var q := Slicing.ChildQuantities(s.children[..n]);
      assert q[..n - 1] == Slicing.ChildQuantities(s.children[..n - 1]);
    }
  }

  /** Any plan of the slicer is one the venue can take, given liquidity and a workable price. */
  lemma SlicedPlanIsOk(market: V.Market, o: Order, children: seq<Order>, quote: V.Quote, price: real, fingerprint: Id,
                       now: real)
    requires o.quantity > 0.0 && !Blank(o.id) && !Blank(o.decision) && !Blank(fingerprint)
    requires price > 0.0 && (o.side == Buy ==> price >= market.ask) && (o.side == Sell ==> price <= market.bid)
    requires Slicing.ChildrenOf(o, children) && children != []
    requires 0.0 <= o.quantity - Sums.SumSeq(Slicing.ChildQuantities(children)) <= TOL_12
    requires forall k | 0 <= k < |children| :: children[k].quantity <= market.available
    ensures PlanOk(Sim(market, o, Routed(children, market.name), quote, price, fingerprint, now))
  {
    var s := Sim(market, o, Routed(children, market.name), quote, price, fingerprint, now);
    DoneIsSum(s, |children|);
    assert s.children[..|children|] == s.children;
    assert Slicing.ChildQuantities(s.children) == Slicing.ChildQuantities(children);
    forall k | 0 <= k < |children| ensures ChildOk(s, s.children[k]) {
      assert children[k] == Slicing.ChildOrder(o, children[k].id.index, children[k].quantity);
      SelfChild(o.id, children[k].id.index);
    }
    forall j, k | 0 <= j < k < |children|
      ensures s.children[j].id != s.children[k].id && s.children[j].ClientId() != s.children[k].ClientId() {
      assert children[j].id.index < children[k].id.index;
      assert children[j] == Slicing.ChildOrder(o, children[j].id.index, children[j].quantity);
      assert children[k] == Slicing.ChildOrder(o, children[k].id.index, children[k].quantity);
    }
  }

  lemma SelfChild(id: Id, index: nat)
    ensures ChildOf(id, index) != id
  {
    var c := ChildOf(id, index);
    assert c.parent < c;
  }

  /** The world the coordinator's set-up leaves behind is one the loop can start from, as long as the
      journal has not seen the children's identities and the stream stands at WORKING. */
  lemma OpenedIsReady(s: Sim, w: World, w': World)
    requires PlanOk(s) && WorldOk(w) && Linked(w.journal, w.oms) && OpenedWorld(w, w', s.order, s.now)
    requires EventsAfter(s, w'.events, 0)
    requires forall k | 0 <= k < |s.children| ::
               && s.children[k].id !in w.journal.rows && ClientFree(w.journal.rows, s.children[k].ClientId())
               && s.children[k].ClientId() != s.order.ClientId()
    ensures Running(s, w') && WorldAfter(s, w', 0)
  {
    OpenedIsOk(w, w', s.order, s.now);
    StartIsJournaled(s, w, w');
    hide JR.TablesOk; hide JR.TablesEvolve; hide EventsAfter; hide JournalAfter; hide Linked; hide BeginParent;
    hide PlanOk;
  }

  lemma StartIsJournaled(s: Sim, w: World, w': World)
    requires PlanOk(s) && WorldOk(w) && Linked(w.journal, w.oms) && OpenedWorld(w, w', s.order, s.now)
    requires WorldOk(w')
             && w'.journal.rows
                == w.journal.rows[s.order.id := J.NewRow(s.now, None, Some(s.order.ClientId()), Some(s.order.quantity))]
    requires s.order.id !in w.journal.rows
    requires forall k | 0 <= k < |s.children| ::
               && s.children[k].id !in w.journal.rows && ClientFree(w.journal.rows, s.children[k].ClientId())
               && s.children[k].ClientId() != s.order.ClientId()
    ensures JournalAfter(s, w'.journal, 0)
  {
    var t := w'.journal;
    BegunHasNoDeals(w, w', s.order, s.now);
    StartHasNoKids(s, w.journal, t);
    forall k: nat | k < |s.children|
      ensures ParentFillId(s, k) !in J.LedgerOf(t, s.order.id) && s.children[k].id !in t.rows
              && ClientFree(t.rows, s.children[k].ClientId()) {
      assert ChildOk(s, s.children[k]);
      hide PlanOk; hide Linked; hide OpenedWorld; hide WorldOk; hide J.LedgerOf;
      assert ClientFree(w.journal.rows, s.children[k].ClientId());
    }
    hide PlanOk; hide Linked; hide OpenedWorld; hide J.LedgerOf; hide ClientFree; hide KidAmounts;
  }

  lemma BegunHasNoDeals(w: World, w': World, o: Order, now: real)
    requires WorldOk(w) && OpenedWorld(w, w', o, now)
    ensures J.LedgerOf(w'.journal, o.id) == map[]
  {
    assert o.id !in w.journal.fills;
  }

  lemma StartHasNoKids(s: Sim, t: J.Tables, t': J.Tables)
    requires ParentsKnown(t) && s.order.id !in t.rows
    requires t'.rows == t.rows[s.order.id := J.NewRow(s.now, None, Some(s.order.ClientId()), Some(s.order.quantity))]
    ensures KidAmounts(s, t') == map[]
  {
  }
}
