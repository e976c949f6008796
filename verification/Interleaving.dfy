/** Any number of coordinators sharing one journal, each at its own point of the child loop, with
    crashes, retries and other users of the journal in between. Every step of a worker is one
    transaction or one broker call of execute. */
module Interleaving {
  import opened Common
  import opened Orders
  import JR = JournalRuns

  /** Where a worker is. `started` is its broker_call_started. */
  datatype Pc =
    | AtChild(k: nat, started: bool)       // about to journal child k, or to leave the loop
    | Armed(k: nat)                        // child k journaled, about to call venue.submit
    | Replied(k: nat, reply: Outcome<Id>)  // about to journal the broker's answer
    | Filling(k: nat)                      // about to call venue.fill
    | Booking(k: nat, fill: Fill)          // about to record the fill for the child
    | BookingParent(k: nat, fill: Fill)    // about to record it for the parent
    | Failing(started: bool)               // in the exception handler
    | Stopped

  datatype Worker = Worker(parent: Order, children: seq<Order>, pc: Pc) {
    predicate Alive() { 0 <= Index() < |children| }

    function Index(): int {
      match pc
      case AtChild(k, _) => k
      case Armed(k) => k
      case Replied(k, _) => k
      case Filling(k) => k
      case Booking(k, _) => k
      case BookingParent(k, _) => k
      case _ => -1
    }

    function Child(): Order
      requires Alive()
    {
      children[Index()]
    }
  }

  /** One call of venue.submit. */
  datatype Call = Call(id: Id, client: Id, parent: Id, quantity: real)

  function CallOf(parent: Order, child: Order): Call {
    Call(child.id, child.ClientId(), parent.id, child.quantity)
  }

  /** The shared journal, the workers, and every venue.submit so far, in order. */
  datatype Scene = Scene(journal: JR.System, workers: map<nat, Worker>, calls: seq<Call>)

  datatype Step =
    | Start(w: nat, order: Order, plan: seq<Order>, now: real)  // journal the parent, with any plan of children
    | Journal(w: nat, now: real)                                // begin_submission of the next child
    | Submit(w: nat, reply: Outcome<Id>)                        // venue.submit, whatever it answers
    | Acknowledge(w: nat, now: real)                            // mark_working or mark_unknown
    | Execute(w: nat, answer: Outcome<Fill>)                    // venue.fill, whatever it answers
    | Book(w: nat, now: real)                                   // mark_fill of the child, then of the parent
    | Raise(w: nat)                                             // any other exception inside the try block
    | Handle(w: nat, now: real)                                 // the handler: cancel the parent, or just leave
    | Crash(w: nat)                                             // the process dies
    | Elsewhere(op: JR.Op)                                      // recovery jobs and other users of the journal

  function ChildBegin(parent: Order, child: Order, now: real): JR.Op {
    JR.Begin(child.id, now, Some(parent.id), Some(child.ClientId()), Some(child.quantity), true)
  }

  /** The journal operation a worker performs in a step, if it is at that point. */
  function WorkerOp(me: Worker, step: Step): Option<JR.Op> {
    if step.Journal? && me.Alive() && me.pc.AtChild? then Some(ChildBegin(me.parent, me.Child(), step.now))
    else if step.Acknowledge? && me.Alive() && me.pc.Replied? then
      Some(if me.pc.reply.Raised? then JR.MarkUnknown(me.Child().id, "", step.now)
           else JR.MarkWorking(me.Child().id, me.pc.reply.value, step.now))
    else if step.Book? && me.Alive() && me.pc.Booking? then
      Some(JR.Fill(me.Child().id, me.pc.fill.quantity, me.pc.fill.price, step.now, Some(me.pc.fill.fillId)))
    else if step.Book? && me.Alive() && me.pc.BookingParent? then
      Some(JR.Fill(me.parent.id, me.pc.fill.quantity, me.pc.fill.price, step.now,
                   Some(Scoped(me.Child().id, me.pc.fill.fillId))))
    else if step.Handle? && me.pc.Failing? && !me.pc.started then Some(JR.MarkCancelled(me.parent.id, step.now))
    else None
  }

  function OpOf(s: Scene, step: Step): Option<JR.Op> {
    if step.Elsewhere? then Some(step.op)
    else if step.Start? then
      if step.w in s.workers && s.workers[step.w].pc != Stopped then None
      else Some(JR.Begin(step.order.id, step.now, None, Some(step.order.ClientId()), Some(step.order.quantity), true))
    else if step.w in s.workers then WorkerOp(s.workers[step.w], step)
    else None
  }

  /** Where the worker goes; `went` tells whether its journal operation succeeded. */
  function Next(me: Worker, step: Step, went: bool): Pc {
    match step
    case Journal(_, _) =>
      if !(me.Alive() && me.pc.AtChild?) then me.pc
      else if went then Armed(me.pc.k) else Failing(me.pc.started)
    case Submit(_, reply) => if me.Alive() && me.pc.Armed? then Replied(me.pc.k, reply) else me.pc
    case Acknowledge(_, _) =>
      if !(me.Alive() && me.pc.Replied?) then me.pc
      else if went && me.pc.reply.Ok? then Filling(me.pc.k) else Failing(true)
    case Execute(_, answer) =>
      if !(me.Alive() && me.pc.Filling?) then me.pc
      else if answer.Ok? then Booking(me.pc.k, answer.value) else Failing(true)
    case Book(_, _) =>
      if me.Alive() && me.pc.Booking? then (if went then BookingParent(me.pc.k, me.pc.fill) else Failing(true))
      else if me.Alive() && me.pc.BookingParent? then (if went then AtChild(me.pc.k + 1, true) else Failing(true))
      else me.pc
    case Raise(_) =>
      if me.pc.Failing? || me.pc.Stopped? then me.pc
      else Failing(!me.pc.AtChild? || me.pc.started)
    case Handle(_, _) => if me.pc.Failing? then Stopped else me.pc
    case _ => Stopped
  }

  ghost function After(s: Scene, step: Step): Scene {
    var op := OpOf(s, step);
    var went := op.Some? && JR.Transaction(s.journal, op.value).Ok?;
    var journal := if op.Some? then JR.Apply(s.journal, op.value) else s.journal;
    if step.Elsewhere? then s.(journal := journal)
    else if step.Start? then
      if op.None? then s
      else Scene(journal,
                 s.workers[step.w := Worker(step.order, step.plan, if went then AtChild(0, false) else Stopped)],
                   s.calls)
    else if step.w !in s.workers then s
    else
      var me := s.workers[step.w];
      Scene(journal, s.workers[step.w := me.(pc := Next(me, step, went))],
            if step.Submit? && me.Alive() && me.pc.Armed? then s.calls + [CallOf(me.parent, me.Child())] else s.calls)
  }

  ghost function Run(s: Scene, steps: seq<Step>): Scene {
    if steps == [] then s else After(Run(s, steps[..|steps| - 1]), steps[|steps| - 1])
  }

  const OPENING: Scene := Scene(JR.START, map[], [])

  // ----- Safety -----

  /** The call is in the journal, under the identity and for the quantity it was made with, and the
      journal's account of it never exceeds that quantity by more than 1e-9. */
  ghost predicate Recorded(s: JR.System, c: Call) {
    && JR.Fixed(s, c.id)
    && s.tables.rows[c.id].clientId == Some(c.client) && s.tables.rows[c.id].parentId == Some(c.parent)
    && s.tables.rows[c.id].requested == Some(c.quantity)
  }

  ghost predicate IsArmed(s: Scene, w: nat) {
    w in s.workers && s.workers[w].Alive() && s.workers[w].pc.Armed?
  }

  function Pending(s: Scene, w: nat): Call
    requires w in s.workers && s.workers[w].Alive()
  {
    CallOf(s.workers[w].parent, s.workers[w].Child())
  }

  /** A call that is about to be made is journaled, was never made, and is nobody else's. */
  ghost predicate SceneOk(s: Scene) {
    && JR.SystemOk(s.journal)
    && (forall i | 0 <= i < |s.calls| :: Recorded(s.journal, s.calls[i]))
    && (forall i, j | 0 <= i < j < |s.calls| :: s.calls[i].id != s.calls[j].id)
    && (forall w | IsArmed(s, w) ::
          && Recorded(s.journal, Pending(s, w))
          && forall i | 0 <= i < |s.calls| :: s.calls[i].id != Pending(s, w).id)
    && (forall v, w | IsArmed(s, v) && IsArmed(s, w) && v != w :: Pending(s, v).id != Pending(s, w).id)
  }

  lemma RecordedLasts(s: JR.System, op: JR.Op, c: Call)
    requires JR.SystemOk(s) && Recorded(s, c)
    ensures Recorded(JR.Apply(s, op), c)
  {
    JR.StepEvolves(s, op);
    JR.StepFits(s, op, c.id);
    assert JR.Evolves(s.tables.rows[c.id], JR.Apply(s, op).tables.rows[c.id]);
  }

  /** A successful begin_submission with reject_existing is of an id nobody has journaled. */
  lemma BeginningRecords(s: JR.System, parent: Order, child: Order, now: real)
    requires JR.SystemOk(s)
    requires JR.Transaction(s, ChildBegin(parent, child, now)).Ok?
    ensures child.id !in s.tables.rows
    ensures Recorded(JR.Apply(s, ChildBegin(parent, child, now)), CallOf(parent, child))
  {
    var op := ChildBegin(parent, child, now);
    JR.StepEvolves(s, op);
    assert forall k | k in s.pending :: s.pending[k].0 != child.id;
  }

  /** The journal moves on; everything recorded stays recorded. */
  lemma JournalMoves(s: Scene, op: JR.Op)
    requires SceneOk(s)
    ensures SceneOk(s.(journal := JR.Apply(s.journal, op)))
  {
    hide JR.SystemOk; hide Recorded; hide JR.TablesEvolve; hide JR.Apply;
    var s' := s.(journal := JR.Apply(s.journal, op));
    JR.StepEvolves(s.journal, op);
    forall i | 0 <= i < |s.calls| ensures Recorded(s'.journal, s.calls[i]) {
      RecordedLasts(s.journal, op, s.calls[i]);
    }
    assert forall w | IsArmed(s', w) :: IsArmed(s, w) && Pending(s', w) == Pending(s, w);
    forall w | IsArmed(s', w) ensures Recorded(s'.journal, Pending(s', w)) {
      assert IsArmed(s, w);
      RecordedLasts(s.journal, op, Pending(s, w));
    }
  }

  /** A worker that moves to a point where it is not armed endangers nothing. */
  lemma Disarms(s: Scene, w: nat, me: Worker)
    requires SceneOk(s) && !(me.Alive() && me.pc.Armed?)
    ensures SceneOk(s.(workers := s.workers[w := me]))
  {
    var s' := s.(workers := s.workers[w := me]);
    assert forall v | IsArmed(s', v) :: IsArmed(s, v) && v != w && Pending(s', v) == Pending(s, v);
  }

  /** A worker may be armed with a call that is journaled, was never made, and is nobody else's. */
  lemma ArmsSafely(s: Scene, w: nat, me: Worker)
    requires SceneOk(s) && me.Alive() && me.pc.Armed? && Recorded(s.journal, CallOf(me.parent, me.Child()))
    requires forall i | 0 <= i < |s.calls| :: s.calls[i].id != me.Child().id
    requires forall v | IsArmed(s, v) && v != w :: Pending(s, v).id != me.Child().id
    ensures SceneOk(s.(workers := s.workers[w := me]))
  {
    hide Recorded; hide JR.SystemOk;
    var s' := s.(workers := s.workers[w := me]);
    assert Pending(s', w) == CallOf(me.parent, me.Child());
    assert forall v | IsArmed(s', v) && v != w :: IsArmed(s, v) && Pending(s', v) == Pending(s, v);
  }

  lemma Arms(s: Scene, w: nat, now: real)
    requires SceneOk(s) && w in s.workers && s.workers[w].Alive() && s.workers[w].pc.AtChild?
    requires OpOf(s, Journal(w, now)).Some? && JR.Transaction(s.journal, OpOf(s, Journal(w, now)).value).Ok?
    ensures SceneOk(After(s, Journal(w, now)))
  {
    var me, op := s.workers[w], OpOf(s, Journal(w, now)).value;
    BeginningRecords(s.journal, me.parent, me.Child(), now);
    JournalMoves(s, op);
    RecordedAreRows(s);
    hide SceneOk; hide Recorded; hide JR.Apply; hide JR.Transaction; hide ChildBegin;
    var moved := s.(journal := JR.Apply(s.journal, op));
    assert forall v | IsArmed(moved, v) :: IsArmed(s, v) && Pending(moved, v) == Pending(s, v);
    ArmsSafely(moved, w, me.(pc := Armed(me.pc.k)));
  }

  lemma RecordedAreRows(s: Scene)
    requires SceneOk(s)
    ensures forall i | 0 <= i < |s.calls| :: s.calls[i].id in s.journal.tables.rows
    ensures forall w | IsArmed(s, w) :: Pending(s, w).id in s.journal.tables.rows
  {
    assert forall i | 0 <= i < |s.calls| :: Recorded(s.journal, s.calls[i]);
  }

  lemma Fires(s: Scene, w: nat, reply: Outcome<Id>)
    requires SceneOk(s) && IsArmed(s, w)
    ensures SceneOk(After(s, Submit(w, reply)))
  {
    hide Recorded; hide JR.SystemOk; hide JR.Apply; hide JR.Transaction;
    var s' := After(s, Submit(w, reply));
    assert !IsArmed(s', w);
    assert forall v | IsArmed(s', v) :: IsArmed(s, v) && v != w && Pending(s', v) == Pending(s, v);
    assert s'.calls == s.calls + [Pending(s, w)];
  }

  lemma StepKeepsOk(s: Scene, step: Step)
    requires SceneOk(s)
    ensures SceneOk(After(s, step))
  {
    hide SceneOk; hide JR.Apply; hide JR.Transaction; hide IsArmed;
    var op := OpOf(s, step);
    if op.Some? {
      JournalMoves(s, op.value);
    }
    if step.Start? {
      if op.Some? {
        Disarms(s.(journal := JR.Apply(s.journal, op.value)), step.w, After(s, step).workers[step.w]);
      }
    } else if !step.Elsewhere? && step.w in s.workers {
      if step.Submit? && IsArmed(s, step.w) {
        Fires(s, step.w, step.reply);
      } else if step.Journal? && op.Some? && JR.Transaction(s.journal, op.value).Ok? {
        Arms(s, step.w, step.now);
      } else {
        OtherwiseDisarmed(s, step);
      }
    }
  }

  lemma OtherwiseDisarmed(s: Scene, step: Step)
    requires SceneOk(s) && !step.Elsewhere? && !step.Start? && step.w in s.workers
    requires !(step.Submit? && IsArmed(s, step.w))
    requires !(step.Journal? && OpOf(s, step).Some? && JR.Transaction(s.journal, OpOf(s, step).value).Ok?)
    ensures SceneOk(After(s, step))
  {
    hide SceneOk; hide JR.Apply; hide JR.Transaction;
    var me, s' := s.workers[step.w], After(s, step);
    var moved := if OpOf(s, step).Some? then s.(journal := JR.Apply(s.journal, OpOf(s, step).value)) else s;
    if OpOf(s, step).Some? {
      JournalMoves(s, OpOf(s, step).value);
    }
    if s'.workers[step.w] == me {
      assert s.workers[step.w := me] == s.workers;
      assert s' == moved;
    } else {
      Disarms(moved, step.w, s'.workers[step.w]);
    }
  }

  lemma {:induction false} RunKeepsOk(s: Scene, steps: seq<Step>)
    requires SceneOk(s)
    ensures SceneOk(Run(s, steps))
  {
    if steps != [] {
      RunKeepsOk(s, steps[..|steps| - 1]);
      StepKeepsOk(Run(s, steps[..|steps| - 1]), steps[|steps| - 1]);
    }
  }

  /** At most once: over any run, from an empty start, no child id and no client identity crosses
      venue.submit twice, whatever crashes, retries or other journal users come in between. */
  lemma AtMostOnce(steps: seq<Step>, i: nat, j: nat)
    requires i < j < |Run(OPENING, steps).calls|
    ensures var c := Run(OPENING, steps).calls; c[i].id != c[j].id && c[i].client != c[j].client
  {
    RunKeepsOk(OPENING, steps);
    var s := Run(OPENING, steps);
    assert Recorded(s.journal, s.calls[i]) && Recorded(s.journal, s.calls[j]);
  }

  /** Write-ahead: whenever a run is about to call venue.submit, the child is already journaled, for
      the quantity and under the parent and client identity it is submitted with, and stays so. */
  lemma WriteAheadAlways(steps: seq<Step>, w: nat, reply: Outcome<Id>, later: seq<Step>)
    requires IsArmed(Run(OPENING, steps), w)
    ensures var s := Run(OPENING, steps);
            && Recorded(s.journal, Pending(s, w))
            && After(s, Submit(w, reply)).calls == s.calls + [Pending(s, w)]
            && Recorded(Run(After(s, Submit(w, reply)), later).journal, Pending(s, w))
  {
    RunKeepsOk(OPENING, steps);
    var s := Run(OPENING, steps);
    StepKeepsOk(s, Submit(w, reply));
    StaysRecorded(After(s, Submit(w, reply)), later, Pending(s, w));
  }

  lemma {:induction false} StaysRecorded(s: Scene, steps: seq<Step>, c: Call)
    requires SceneOk(s) && Recorded(s.journal, c)
    ensures Recorded(Run(s, steps).journal, c)
  {
    if steps != [] {
      var before, last := Run(s, steps[..|steps| - 1]), steps[|steps| - 1];
      StaysRecorded(s, steps[..|steps| - 1], c);
      RunKeepsOk(s, steps[..|steps| - 1]);
      if OpOf(before, last).Some? {
        RecordedLasts(before.journal, OpOf(before, last).value, c);
      }
    }
  }
}
