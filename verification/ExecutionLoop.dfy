/** What the whole child loop keeps, for any broker and any number of children. */
module ExecutionLoop {
  import opened Common
  import opened Orders
  import opened ExecutionSpec
  import J = JournalSpec
  import JR = JournalRuns
  import O = OmsSpec

  /** A run of the loop: child k takes the world from worlds[k] to worlds[k + 1], and only the last
      child that was started may have raised. */
  datatype Trace = Trace(worlds: seq<World>, replies: seq<Replies>, steps: seq<Progress>)

  ghost predicate Traced(w: World, parent: Id, children: seq<Order>, trace: Trace) {
    && |trace.steps| <= |children| && |trace.replies| == |trace.steps| && |trace.worlds| == |trace.steps| + 1
    && trace.worlds[0] == w && WorldOk(w) && parent in w.journal.rows
    && (forall k | 0 <= k < |trace.steps| :: trace.worlds[k + 1] == trace.steps[k].world)
    && (forall k {:trigger StepOk(trace.worlds[k], parent, children[k], trace.replies[k], trace.steps[k])}
          | 0 <= k < |trace.steps| :: StepOk(trace.worlds[k], parent, children[k], trace.replies[k], trace.steps[k]))
    && (forall k | 0 <= k < |trace.steps| - 1 :: trace.steps[k].outcome.Ok?)
  }

  /** All children were started and none raised. */
  ghost predicate RanThrough(children: seq<Order>, trace: Trace) {
    |trace.steps| == |children| && forall k | 0 <= k < |trace.steps| :: trace.steps[k].outcome.Ok?
  }

  ghost function Last(trace: Trace): World
    requires trace.worlds != []
  {
    trace.worlds[|trace.worlds| - 1]
  }

  function Extend(trace: Trace, replies: Replies, p: Progress): Trace {
    Trace(trace.worlds + [p.world], trace.replies + [replies], trace.steps + [p])
  }

  lemma TraceExtends(w: World, parent: Id, children: seq<Order>, trace: Trace, replies: Replies, p: Progress)
    requires Traced(w, parent, children, trace) && |trace.steps| < |children|
    requires forall k | 0 <= k < |trace.steps| :: trace.steps[k].outcome.Ok?
    requires StepOk(Last(trace), parent, children[|trace.steps|], replies, p)
    ensures Traced(w, parent, children, Extend(trace, replies, p)) && Last(Extend(trace, replies, p)) == p.world
  {
    hide StepOk;
    var next, n := Extend(trace, replies, p), |trace.steps|;
    assert forall k | 0 <= k <= n :: next.worlds[k] == trace.worlds[k];
    assert forall k | 0 <= k < n :: next.replies[k] == trace.replies[k] && next.steps[k] == trace.steps[k];
    assert next.worlds[n] == Last(trace) && next.replies[n] == replies && next.steps[n] == p;
    forall k | 0 <= k < n + 1
      ensures StepOk(next.worlds[k], parent, children[k], next.replies[k], next.steps[k]) {
      assert k < n ==> StepOk(trace.worlds[k], parent, children[k], trace.replies[k], trace.steps[k]);
    }
  }

  lemma TraceStarts(w: World, parent: Id, children: seq<Order>, trace: Trace)
    requires WorldOk(w) && parent in w.journal.rows && trace == Trace([w], [], [])
    ensures Traced(w, parent, children, trace) && Last(trace) == w && Submitted(children, trace.steps) == []
  {
  }

  lemma SubmittedGrows(children: seq<Order>, trace: Trace, replies: Replies, p: Progress)
    requires |trace.steps| < |children|
    ensures var next, n := Extend(trace, replies, p), |trace.steps|;
            && |next.steps| == n + 1 && next.steps[n] == p && (forall k | 0 <= k < n :: next.steps[k] == trace.steps[k])
            && Submitted(children, next.steps)
               == Submitted(children, trace.steps) + (if p.called then [children[n].id] else [])
  {
    assert Extend(trace, replies, p).steps[..|trace.steps|] == trace.steps;
  }

  /** The ids that reached the broker, in order. */
  function Submitted(children: seq<Order>, steps: seq<Progress>): seq<Id>
    requires |steps| <= |children|
  {
    if steps == [] then []
    else
      var last := |steps| - 1;
      Submitted(children, steps[..last]) + (if steps[last].called then [children[last].id] else [])
  }

  // ----- The journal along a run -----

  /** One child, seen from the journal. */
  ghost predicate SubmitStep(t: J.Tables, t': J.Tables, parent: Id, child: Order, called: bool) {
    && JR.TablesEvolve(t, t')
    && (forall id | id in t.rows && id != parent && id != child.id :: t'.rows[id] == t.rows[id])
    && t'.rows.Keys <= t.rows.Keys + {child.id}
    && (parent in t.rows ==> t'.rows[parent].parentId == t.rows[parent].parentId)
    && (parent in t.rows && t.rows[parent].state in OPEN_STATES ==> t'.rows[parent].state in OPEN_STATES)
    && if called then child.id !in t.rows && Bound(t', parent, child) else t' == t
  }

  ghost predicate SubmitChain(ts: seq<J.Tables>, parent: Id, children: seq<Order>, called: seq<bool>) {
    && |ts| == |called| + 1 && |called| <= |children|
    && forall k | 0 <= k < |called| :: SubmitStep(ts[k], ts[k + 1], parent, children[k], called[k])
  }

  ghost function JournalsOf(trace: Trace): seq<J.Tables> {
    seq(|trace.worlds|, k requires 0 <= k < |trace.worlds| => trace.worlds[k].journal)
  }

  ghost function CallsOf(trace: Trace): seq<bool> {
    seq(|trace.steps|, k requires 0 <= k < |trace.steps| => trace.steps[k].called)
  }

  lemma StepSubmits(w: World, parent: Id, child: Order, replies: Replies, p: Progress)
    requires StepOk(w, parent, child, replies, p)
    ensures SubmitStep(w.journal, p.world.journal, parent, child, p.called)
  {
  }

  lemma TraceSubmits(w: World, parent: Id, children: seq<Order>, trace: Trace)
    requires Traced(w, parent, children, trace)
    ensures SubmitChain(JournalsOf(trace), parent, children, CallsOf(trace))
  {
    hide StepOk; hide SubmitStep;
    forall k | 0 <= k < |trace.steps|
      ensures SubmitStep(JournalsOf(trace)[k], JournalsOf(trace)[k + 1], parent, children[k], CallsOf(trace)[k]) {
      StepSubmits(trace.worlds[k], parent, children[k], trace.replies[k], trace.steps[k]);
    }
  }

  lemma {:induction false} ChainEvolves(ts: seq<J.Tables>, parent: Id, children: seq<Order>, called: seq<bool>, i: nat,
                                        j: nat)
    requires SubmitChain(ts, parent, children, called) && i <= j < |ts|
    ensures JR.TablesEvolve(ts[i], ts[j])
    decreases j - i
  {
    hide JR.Evolves; hide Bound;
    if i < j {
      ChainEvolves(ts, parent, children, called, i, j - 1);
      assert SubmitStep(ts[j - 1], ts[j], parent, children[j - 1], called[j - 1]);
      EvolvesTrans(ts[i], ts[j - 1], ts[j]);
    } else {
      EvolvesRefl(ts[i]);
    }
  }

  lemma EvolvesRefl(t: J.Tables)
    ensures JR.TablesEvolve(t, t)
  {
  }

  lemma EvolvesTrans(t: J.Tables, t': J.Tables, t'': J.Tables)
    requires JR.TablesEvolve(t, t') && JR.TablesEvolve(t', t'')
    ensures JR.TablesEvolve(t, t'')
  {
    forall id | id in t.rows ensures id in t''.rows && JR.Evolves(t.rows[id], t''.rows[id])
                                     && J.LedgerOf(t, id).Keys <= J.LedgerOf(t'', id).Keys {
      assert JR.Evolves(t.rows[id], t'.rows[id]);
      assert JR.Evolves(t'.rows[id], t''.rows[id]);
    }
  }

  /** A row other than the parent's never changes again once it is there. */
  lemma {:induction false} ChainSpares(ts: seq<J.Tables>, parent: Id, children: seq<Order>, called: seq<bool>, id: Id,
                                       i: nat, j: nat)
    requires SubmitChain(ts, parent, children, called) && i <= j < |ts| && id in ts[i].rows && id != parent
    ensures id in ts[j].rows && ts[j].rows[id] == ts[i].rows[id]
    decreases j - i
  {
    if i < j {
      ChainSpares(ts, parent, children, called, id, i, j - 1);
      assert SubmitStep(ts[j - 1], ts[j], parent, children[j - 1], called[j - 1]);
    }
  }

  /** Write-ahead and at most once: every id that reached the broker was new to the journal, is in
      it from then on under the identity it was submitted with, and reached the broker once. */
  lemma LoopSubmitsOnce(w: World, parent: Id, children: seq<Order>, trace: Trace)
    requires Traced(w, parent, children, trace)
    ensures forall k | 0 <= k < |trace.steps| && trace.steps[k].called ::
              children[k].id !in w.journal.rows && Bound(Last(trace).journal, parent, children[k])
    ensures forall j, k | 0 <= j < k < |trace.steps| && trace.steps[j].called && trace.steps[k].called ::
              children[j].id != children[k].id
  {
    TraceSubmits(w, parent, children, trace);
    ChainSubmitsOnce(JournalsOf(trace), parent, children, CallsOf(trace));
    assert forall k | 0 <= k < |trace.steps| :: trace.steps[k].called == CallsOf(trace)[k];
  }

  lemma ChainSubmitsOnce(ts: seq<J.Tables>, parent: Id, children: seq<Order>, called: seq<bool>)
    requires SubmitChain(ts, parent, children, called)
    ensures forall k | 0 <= k < |called| && called[k] ::
            children[k].id !in ts[0].rows && Bound(ts[|ts| - 1], parent, children[k])
    ensures forall j, k | 0 <= j < k < |called| && called[j] && called[k] :: children[j].id != children[k].id
  {
    forall k | 0 <= k < |called| && called[k]
      ensures children[k].id !in ts[0].rows && Bound(ts[|ts| - 1], parent, children[k]) {
      assert SubmitStep(ts[k], ts[k + 1], parent, children[k], called[k]);
      ChainEvolves(ts, parent, children, called, 0, k);
      ChainEvolves(ts, parent, children, called, k + 1, |ts| - 1);
      assert JR.Evolves(ts[k + 1].rows[children[k].id], ts[|ts| - 1].rows[children[k].id]);
    }
    forall j, k | 0 <= j < k < |called| && called[j] && called[k] ensures children[j].id != children[k].id {
      assert SubmitStep(ts[j], ts[j + 1], parent, children[j], called[j]);
      assert SubmitStep(ts[k], ts[k + 1], parent, children[k], called[k]);
      ChainEvolves(ts, parent, children, called, j + 1, k);
    }
  }

  /** Whatever the broker does, the run keeps every row, and changes none but the parent's. */
  lemma LoopSparesRows(w: World, parent: Id, children: seq<Order>, trace: Trace)
    requires Traced(w, parent, children, trace)
    ensures JR.TablesEvolve(w.journal, Last(trace).journal)
    ensures forall id | id in w.journal.rows && id != parent :: Last(trace).journal.rows[id] == w.journal.rows[id]
  {
    TraceSubmits(w, parent, children, trace);
    var ts, called := JournalsOf(trace), CallsOf(trace);
    ChainEvolves(ts, parent, children, called, 0, |ts| - 1);
    forall id | id in w.journal.rows && id != parent ensures Last(trace).journal.rows[id] == w.journal.rows[id] {
      ChainSpares(ts, parent, children, called, id, 0, |ts| - 1);
    }
  }

  lemma {:induction false} ChainAddsOnlyChildren(ts: seq<J.Tables>, parent: Id, children: seq<Order>, called: seq<bool>,
                                                 n: nat, id: Id)
    requires SubmitChain(ts, parent, children, called) && n < |ts| && id in ts[n].rows
    ensures id in ts[0].rows || exists k: nat :: k < n && children[k].id == id
  {
    hide JR.TablesEvolve; hide Bound;
    if n > 0 && id != children[n - 1].id {
      assert SubmitStep(ts[n - 1], ts[n], parent, children[n - 1], called[n - 1]);
      ChainAddsOnlyChildren(ts, parent, children, called, n - 1, id);
    }
  }

  /** Nobody else's row appears in the journal during a run. */
  lemma LoopAddsOnlyChildren(w: World, parent: Id, children: seq<Order>, trace: Trace, id: Id)
    requires Traced(w, parent, children, trace) && id in Last(trace).journal.rows
    ensures id in w.journal.rows || exists k: nat :: k < |children| && children[k].id == id
  {
    TraceSubmits(w, parent, children, trace);
    ChainAddsOnlyChildren(JournalsOf(trace), parent, children, CallsOf(trace), |trace.steps|, id);
  }

  /** Every row that names a parent names one in the journal. */
  ghost predicate ParentsKnown(t: J.Tables) {
    forall id | id in t.rows && t.rows[id].parentId.Some? :: t.rows[id].parentId.value in t.rows
  }

  lemma {:induction false} ChainKeepsParents(ts: seq<J.Tables>, parent: Id, children: seq<Order>, called: seq<bool>,
                                             n: nat)
    requires SubmitChain(ts, parent, children, called) && n < |ts| && parent in ts[0].rows && ParentsKnown(ts[0])
    ensures parent in ts[n].rows && ParentsKnown(ts[n])
    ensures ts[0].rows[parent].state in OPEN_STATES ==> ts[n].rows[parent].state in OPEN_STATES
  {
    hide JR.Evolves;
    if n > 0 {
      ChainKeepsParents(ts, parent, children, called, n - 1);
      assert SubmitStep(ts[n - 1], ts[n], parent, children[n - 1], called[n - 1]);
    }
  }

  lemma LoopKeepsParents(w: World, parent: Id, children: seq<Order>, trace: Trace)
    requires Traced(w, parent, children, trace) && ParentsKnown(w.journal)
    ensures ParentsKnown(Last(trace).journal) && parent in Last(trace).journal.rows
    ensures w.journal.rows[parent].state in OPEN_STATES ==> Last(trace).journal.rows[parent].state in OPEN_STATES
  {
    TraceSubmits(w, parent, children, trace);
    ChainKeepsParents(JournalsOf(trace), parent, children, CallsOf(trace), |trace.steps|);
  }

  lemma LoopKeepsWorldOk(w: World, parent: Id, children: seq<Order>, trace: Trace)
    requires Traced(w, parent, children, trace)
    ensures WorldOk(Last(trace)) && parent in Last(trace).journal.rows
  {
    if trace.steps != [] {
      var n := |trace.steps| - 1;
      assert StepOk(trace.worlds[n], parent, children[n], trace.replies[n], trace.steps[n]);
    }
  }

  /** A broker call that raises ends the run with a record that blocks new exposure. */
  lemma LoopFailureBlocks(w: World, parent: Id, children: seq<Order>, trace: Trace)
    requires Traced(w, parent, children, trace) && trace.steps != []
    requires var n := |trace.steps| - 1;
             trace.steps[n].called && (trace.replies[n].submitted.Raised? || trace.replies[n].filled.Raised?)
    ensures exists id | id in Last(trace).journal.rows :: J.Unresolved(Last(trace).journal.rows[id])
  {
    var n := |trace.steps| - 1;
    assert StepOk(trace.worlds[n], parent, children[n], trace.replies[n], trace.steps[n]);
    assert children[n].id in Last(trace).journal.rows;
  }

  lemma StepJournals(w: World, parent: Id, child: Order, replies: Replies, p: Progress)
    requires StepOk(w, parent, child, replies, p) && p.outcome.Ok?
    ensures p.called && replies.submitted.Ok? && replies.filled.Ok? && replies.filled.value.price > 0.0
    ensures Journaled(p.world.journal, parent, child, replies.filled.value.quantity)
  {
  }

  lemma ChainJournals(ts: seq<J.Tables>, parent: Id, children: seq<Order>, called: seq<bool>, k: nat, filled: real)
    requires SubmitChain(ts, parent, children, called) && k < |called| && called[k] && parent in ts[0].rows
    requires Journaled(ts[k + 1], parent, children[k], filled)
    ensures Journaled(ts[|ts| - 1], parent, children[k], filled)
  {
    assert SubmitStep(ts[k], ts[k + 1], parent, children[k], called[k]);
    ChainEvolves(ts, parent, children, called, 0, k);
    assert children[k].id != parent;
    ChainSpares(ts, parent, children, called, children[k].id, k + 1, |ts| - 1);
  }

  /** Every child of a run that went through is journaled with the amount the broker reported. */
  lemma LoopJournals(w: World, parent: Id, children: seq<Order>, trace: Trace, k: nat)
    requires Traced(w, parent, children, trace) && RanThrough(children, trace) && k < |children|
    ensures trace.replies[k].filled.Ok? && trace.steps[k].called
    ensures Journaled(Last(trace).journal, parent, children[k], trace.replies[k].filled.value.quantity)
  {
    hide StepOk; hide Journaled; hide SubmitStep;
    TraceSubmits(w, parent, children, trace);
    StepJournals(trace.worlds[k], parent, children[k], trace.replies[k], trace.steps[k]);
    ChainJournals(JournalsOf(trace), parent, children, CallsOf(trace), k, trace.replies[k].filled.value.quantity);
  }

  // ----- The order manager along a run -----

  ghost function OmsOf(trace: Trace): seq<O.Oms> {
    seq(|trace.worlds|, k requires 0 <= k < |trace.worlds| => trace.worlds[k].oms)
  }

  ghost predicate OrderChain(ms: seq<O.Oms>, parent: Id) {
    forall k | 0 <= k < |ms| - 1 :: OrdersContained(ms[k], ms[k + 1], parent)
  }

  lemma StepContains(w: World, parent: Id, child: Order, replies: Replies, p: Progress)
    requires StepOk(w, parent, child, replies, p)
    ensures OrdersContained(w.oms, p.world.oms, parent)
  {
  }

  lemma StepFills(w: World, parent: Id, child: Order, replies: Replies, p: Progress)
    requires StepOk(w, parent, child, replies, p) && p.outcome.Ok?
    ensures replies.submitted.Ok? && replies.filled.Ok?
    ensures FillRecorded(w.oms, p.world.oms, parent, ParentFill(parent, replies))
    ensures p.outcome.value.0 == p.world.oms.orders[parent]
  {
  }

  lemma TraceContains(w: World, parent: Id, children: seq<Order>, trace: Trace)
    requires Traced(w, parent, children, trace)
    ensures OrderChain(OmsOf(trace), parent)
  {
    forall k | 0 <= k < |trace.steps| ensures OrdersContained(OmsOf(trace)[k], OmsOf(trace)[k + 1], parent) {
      StepContains(trace.worlds[k], parent, children[k], trace.replies[k], trace.steps[k]);
    }
  }

  lemma {:induction false} ChainContains(ms: seq<O.Oms>, parent: Id, n: nat)
    requires OrderChain(ms, parent) && n < |ms| && O.OmsOk(ms[0]) && O.FilledNonNegative(ms[0])
    ensures OrdersContained(ms[0], ms[n], parent)
  {
    if n > 0 {
      ChainContains(ms, parent, n - 1);
      assert OrdersContained(ms[n - 1], ms[n], parent);
    }
  }

  /** Whatever the broker does, no order but the parent changes in the OMS, and of the parent only
      its amounts, status and time stamp. */
  lemma LoopContainsOrders(w: World, parent: Id, children: seq<Order>, trace: Trace)
    requires Traced(w, parent, children, trace)
    ensures OrdersContained(w.oms, Last(trace).oms, parent)
  {
    TraceContains(w, parent, children, trace);
    ChainContains(OmsOf(trace), parent, |trace.steps|);
  }

  /** The order a run that went through ends with is the one the OMS stores. */
  lemma LoopStores(w: World, parent: Id, children: seq<Order>, trace: Trace)
    requires Traced(w, parent, children, trace) && RanThrough(children, trace) && children != []
    ensures parent in Last(trace).oms.orders
    ensures trace.steps[|children| - 1].outcome.value.0 == Last(trace).oms.orders[parent]
  {
    var n := |trace.steps| - 1;
    StepFills(trace.worlds[n], parent, children[n], trace.replies[n], trace.steps[n]);
  }

  lemma RecordedAccounts(m: O.Oms, m': O.Oms, parent: Id, fill: Fill, executed: seq<Fill>)
    requires FillRecorded(m, m', parent, fill) && OrdersContained(m, m', parent)
    requires O.Accounts(m.orders[parent], m.fills[parent], executed)
    ensures O.Accounts(m'.orders[parent], m'.fills[parent],
                       if fill.fillId in m.fills[parent] then executed else executed + [fill])
  {
    if fill.fillId !in m.fills[parent] {
      var o, o' := m.orders[parent], m'.orders[parent];
      O.FillAccounts(o, m.fills[parent], executed, fill, o'.updatedAt);
      assert o' == O.Executed(o, fill.quantity, fill.price, o'.updatedAt);
    }
  }

  ghost predicate RecordedAt(ms: seq<O.Oms>, parent: Id, fills: seq<Fill>, k: nat)
    requires |ms| == |fills| + 1 && k < |fills|
  {
    FillRecorded(ms[k], ms[k + 1], parent, fills[k])
  }

  /** A chain of order managers in which each step records one fill for the parent. */
  ghost predicate FillChain(ms: seq<O.Oms>, parent: Id, fills: seq<Fill>) {
    && |ms| == |fills| + 1 && OrderChain(ms, parent)
    && forall k {:trigger RecordedAt(ms, parent, fills, k)} | 0 <= k < |fills| :: RecordedAt(ms, parent, fills, k)
  }

  /** The first fill of each fill id. */
  function Firsts(fills: seq<Fill>): (r: seq<Fill>)
    ensures |r| <= |fills|
  {
    if fills == [] then []
    else
      var last := |fills| - 1;
      var before := Firsts(fills[..last]);
      if exists f | f in before :: f.fillId == fills[last].fillId then before else before + [fills[last]]
  }

  lemma FirstsGrow(fills: seq<Fill>, n: nat, ids: set<Id>)
    requires 0 < n <= |fills| && ids == set f | f in Firsts(fills[..n - 1]) :: f.fillId
    ensures Firsts(fills[..n])
         == if fills[n - 1].fillId in ids then Firsts(fills[..n - 1]) else Firsts(fills[..n - 1]) + [fills[n - 1]]
  {
    assert fills[..n][..n - 1] == fills[..n - 1];
  }

  lemma IdsOfAccounted(o: Order, ids: set<Id>, fills: seq<Fill>)
    requires O.Accounts(o, ids, fills)
    ensures ids == set f | f in fills :: f.fillId
  {
  }

  lemma NothingAccounted(m: O.Oms, parent: Id)
    requires O.Fresh(m, parent)
    ensures O.Accounts(m.orders[parent], m.fills[parent], Firsts([]))
  {
    assert m.fills[parent] == set f | f in Firsts([]) :: f.fillId;
  }

  lemma {:induction false} ChainAccounts(ms: seq<O.Oms>, parent: Id, fills: seq<Fill>, n: nat)
    requires FillChain(ms, parent, fills) && n <= |fills| && O.Fresh(ms[0], parent)
    ensures parent in ms[n].orders && parent in ms[n].fills
    ensures O.Accounts(ms[n].orders[parent], ms[n].fills[parent], Firsts(fills[..n]))
  {
    hide O.Accounts; hide Firsts; hide OrdersContained; hide O.FillAccepted; hide O.NewAverage;
    if n == 0 {
      NothingAccounted(ms[0], parent);
      assert fills[..0] == [];
    } else {
      ChainAccounts(ms, parent, fills, n - 1);
      assert RecordedAt(ms, parent, fills, n - 1) && OrdersContained(ms[n - 1], ms[n], parent);
      RecordedAccounts(ms[n - 1], ms[n], parent, fills[n - 1], Firsts(fills[..n - 1]));
      IdsOfAccounted(ms[n - 1].orders[parent], ms[n - 1].fills[parent], Firsts(fills[..n - 1]));
      FirstsGrow(fills, n, ms[n - 1].fills[parent]);
    }
  }

  /** The fills the broker reported, as the OMS is given them. */
  ghost function FillsOf(parent: Id, trace: Trace): seq<Fill> {
    seq(|trace.replies|, k requires 0 <= k < |trace.replies| =>
      if trace.replies[k].submitted.Ok? && trace.replies[k].filled.Ok? then ParentFill(parent, trace.replies[k])
      else Fill(parent, parent, parent, 0.0, 0.0, 0.0))
  }

  lemma TraceRecords(w: World, parent: Id, children: seq<Order>, trace: Trace, k: nat)
    requires Traced(w, parent, children, trace) && RanThrough(children, trace) && k < |children|
    ensures RecordedAt(OmsOf(trace), parent, FillsOf(parent, trace), k)
  {
    StepFills(trace.worlds[k], parent, children[k], trace.replies[k], trace.steps[k]);
  }

  lemma TraceFills(w: World, parent: Id, children: seq<Order>, trace: Trace)
    requires Traced(w, parent, children, trace) && RanThrough(children, trace)
    ensures FillChain(OmsOf(trace), parent, FillsOf(parent, trace))
  {
    TraceContains(w, parent, children, trace);
    forall k | 0 <= k < |children| ensures RecordedAt(OmsOf(trace), parent, FillsOf(parent, trace), k) {
      TraceRecords(w, parent, children, trace, k);
    }
  }

  /** After a run that went through, the parent's stored amounts add up over the fills the broker
      reported, each fill id counted once. */
  lemma LoopAccounts(w: World, parent: Id, children: seq<Order>, trace: Trace)
    requires Traced(w, parent, children, trace) && RanThrough(children, trace) && O.Fresh(w.oms, parent)
    ensures var m := Last(trace).oms;
            && parent in m.orders && parent in m.fills && |FillsOf(parent, trace)| == |children|
            && O.Accounts(m.orders[parent], m.fills[parent], Firsts(FillsOf(parent, trace)))
  {
    var fills := FillsOf(parent, trace);
    TraceFills(w, parent, children, trace);
    ChainAccounts(OmsOf(trace), parent, fills, |children|);
    assert fills[..|children|] == fills;
  }
}
