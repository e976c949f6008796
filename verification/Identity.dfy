/** The identities that tie the order manager to the journal, and why a new order gets past both. */
module Identity {
  import opened Common
  import opened Orders
  import opened ExecutionSpec
  import opened ExecutionLoop
  import J = JournalSpec
  import JR = JournalRuns
  import O = OmsSpec

  /** Every order the manager holds was journaled first, under its client identity; every
      idempotency key leads to the order that carries it; every child names a journaled parent. */
  ghost predicate Linked(t: J.Tables, m: O.Oms) {
    && (forall id | id in m.orders :: id in t.rows && t.rows[id].clientId == Some(m.orders[id].ClientId()))
    && (forall k | k in m.keys :: m.keys[k] in m.orders && m.orders[m.keys[k]].ClientId() == k)
    && ParentsKnown(t)
  }

  function BeginParent(t: J.Tables, o: Order, now: real): Outcome<J.Tables> {
    J.BeginSubmission(t, o.id, now, None, Some(o.ClientId()), Some(o.quantity), true)
  }

  /** An order whose identity the journal accepts as new is new to the manager too, so it is stored
      fresh: it cannot alias an earlier order through its id or its idempotency key. */
  lemma NewToTheJournalIsNewToTheOms(t: J.Tables, m: O.Oms, o: Order, now: real)
    requires JR.TablesOk(t) && O.OmsOk(m) && Linked(t, m) && BeginParent(t, o, now).Ok?
    requires o.filled == 0.0 && o.average.None? && O.Governed(o)
    ensures o.id !in t.rows && o.id !in m.orders
    ensures O.Submit(m, o, true, now) == Ok(O.Store(m, o, now))
  {
  }

  lemma StoringKeepsOmsOk(m: O.Oms, o: Order, now: real)
    requires O.OmsOk(m) && o.id !in m.orders
    ensures O.OmsOk(O.Store(m, o, now).0)
  {
  }

  lemma BeginningKeepsLinked(t: J.Tables, m: O.Oms, o: Order, now: real)
    requires Linked(t, m) && BeginParent(t, o, now).Ok?
    ensures var t' := BeginParent(t, o, now).value;
            && o.id !in t.rows && t'.rows == t.rows[o.id := J.NewRow(now, None, Some(o.ClientId()), Some(o.quantity))]
            && Linked(t', m)
  {
  }

  /** Identities survive whatever the broker makes of a child. */
  lemma EvolvingKeepsLinked(t: J.Tables, t': J.Tables, m: O.Oms, m': O.Oms, parent: Id)
    requires Linked(t, m) && JR.TablesEvolve(t, t') && OrdersContained(m, m', parent)
    requires ParentsKnown(t')
    ensures Linked(t', m')
  {
    hide O.OmsOk; hide O.FilledNonNegative; hide ParentsKnown; hide J.LedgerOf;
    forall id | id in m'.orders ensures id in t'.rows && t'.rows[id].clientId == Some(m'.orders[id].ClientId()) {
      assert JR.Evolves(t.rows[id], t'.rows[id]);
      assert m'.orders[id].ClientId() == m.orders[id].ClientId();
    }
  }

  /** What submitting `o` and moving it along leaves in the manager: `o`, fresh but for its status,
      beside everything that was there. */
  ghost predicate StoredFresh(m: O.Oms, m': O.Oms, o: Order) {
    && O.OmsOk(m') && O.FilledNonNegative(m')
    && o.id !in m.orders && m'.orders.Keys == m.orders.Keys + {o.id}
    && (forall id | id in m.orders :: m'.orders[id] == m.orders[id])
    && m'.keys == O.Store(m, o, 0.0).0.keys
    && O.Fresh(m', o.id)
    && m'.orders[o.id] == o.(status := m'.orders[o.id].status, updatedAt := m'.orders[o.id].updatedAt)
  }

  /** The parent is journaled and stored; nothing has been sent. */
  ghost predicate OpenedWorld(w: World, w': World, o: Order, now: real) {
    && BeginParent(w.journal, o, now).Ok? && w'.journal == BeginParent(w.journal, o, now).value
    && StoredFresh(w.oms, w'.oms, o)
  }

  lemma StoringIsFresh(m: O.Oms, o: Order, now: real)
    requires O.OmsOk(m) && O.FilledNonNegative(m) && o.id !in m.orders
    requires o.filled == 0.0 && o.average.None? && o.quantity > 0.0
    ensures StoredFresh(m, O.Store(m, o, now).0, o)
  {
    StoringKeepsOmsOk(m, o, now);
  }

  lemma MovingKeepsFresh(m: O.Oms, m': O.Oms, o: Order, status: OrderStatus, now: real)
    requires StoredFresh(m, m', o) && O.Transition(m', o.id, status, now).Ok?
    ensures StoredFresh(m, O.Transition(m', o.id, status, now).value.0, o)
  {
    TransitionMeans(m', o.id, status, now);
    hide O.OmsOk; hide O.FilledNonNegative; hide O.Transition; hide O.Store;
  }

  lemma TransitionMeans(m: O.Oms, id: Id, status: OrderStatus, now: real)
    requires O.OmsOk(m) && O.FilledNonNegative(m) && O.Transition(m, id, status, now).Ok?
    ensures var m' := O.Transition(m, id, status, now).value.0;
            && id in m.orders && m' == m.(orders := m.orders[id := m.orders[id].(status := status, updatedAt := now)])
            && O.OmsOk(m') && O.FilledNonNegative(m')
  {
  }

  lemma OpenedIsOk(w: World, w': World, o: Order, now: real)
    requires WorldOk(w) && Linked(w.journal, w.oms) && OpenedWorld(w, w', o, now)
    ensures WorldOk(w') && Linked(w'.journal, w'.oms) && o.id in w'.journal.rows && o.id !in w.journal.rows
    ensures w'.journal.rows == w.journal.rows[o.id := J.NewRow(now, None, Some(o.ClientId()), Some(o.quantity))]
    ensures JR.TablesEvolve(w.journal, w'.journal)
  {
    JR.BeginEvolves(w.journal, o.id, now, None, Some(o.ClientId()), Some(o.quantity), true);
    BeginningKeepsLinked(w.journal, w.oms, o, now);
    OpenedIsLinked(w'.journal, w.oms, w'.oms, o);
  }

  lemma OpenedIsLinked(t: J.Tables, m: O.Oms, m': O.Oms, o: Order)
    requires Linked(t, m) && o.id in t.rows && t.rows[o.id].clientId == Some(o.ClientId()) && StoredFresh(m, m', o)
    ensures Linked(t, m')
  {
    hide O.OmsOk; hide O.FilledNonNegative; hide O.Fresh; hide ParentsKnown;
    assert m'.orders[o.id].ClientId() == o.ClientId();
    forall k | k in m'.keys ensures m'.keys[k] in m'.orders && m'.orders[m'.keys[k]].ClientId() == k {
      if !(o.key.Some? && !Empty(o.key.value) && k == o.key.value) {
        assert k in m.keys && m'.keys[k] == m.keys[k];
      }
    }
  }
}
