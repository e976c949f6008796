/** The interleaved workers are the coordinator: each turn of its child loop is a run of one worker. */
module WorkerSteps {
  import opened Common
  import opened Orders
  import opened ExecutionLoop
  import opened ExecutionProtocol
  import opened ExecutionSpec
  import I = Interleaving
  import J = JournalSpec
  import JR = JournalRuns
  import O = OmsSpec
  import V = Venue

  /** One more step. */
  lemma OneMore(s: I.Scene, steps: seq<I.Step>, step: I.Step)
    ensures I.Run(s, steps + [step]) == I.After(I.Run(s, steps), step)
  {
    assert (steps + [step])[..|steps|] == steps;
  }

  /** The worker v, with the tables t, the broker calls so far, and the point it has come to. */
  ghost predicate At(s: I.Scene, v: nat, me: I.Worker, pc: I.Pc, t: J.Tables, calls: seq<I.Call>) {
    s.journal.tables == t && s.calls == calls && v in s.workers && s.workers[v] == me.(pc := pc)
  }

  lemma Journals(s: I.Scene, v: nat, me: I.Worker, k: nat, started: bool, now: real)
    requires k < |me.children| && At(s, v, me, I.AtChild(k, started), s.journal.tables, s.calls)
    ensures var c := me.children[k];
            var begun := J.BeginSubmission(s.journal.tables, c.id, now, Some(me.parent.id), Some(c.ClientId()),
                                           Some(c.quantity), true);
            At(I.After(s, I.Journal(v, now)), v, me, if begun.Ok? then I.Armed(k) else I.Failing(started),
               if begun.Ok? then begun.value else s.journal.tables, s.calls)
  {
    hide J.BeginSubmission;
  }

  lemma Submits(s: I.Scene, v: nat, me: I.Worker, k: nat, reply: Outcome<Id>)
    requires k < |me.children| && At(s, v, me, I.Armed(k), s.journal.tables, s.calls)
    ensures At(I.After(s, I.Submit(v, reply)), v, me, I.Replied(k, reply), s.journal.tables,
               s.calls + [I.CallOf(me.parent, me.children[k])])
  {
    hide JR.Transaction;
  }

  lemma Acknowledges(s: I.Scene, v: nat, me: I.Worker, k: nat, reply: Outcome<Id>, now: real)
    requires k < |me.children| && At(s, v, me, I.Replied(k, reply), s.journal.tables, s.calls)
    ensures var placed := AfterReply(s.journal.tables, me.children[k].id, reply, now);
            At(I.After(s, I.Acknowledge(v, now)), v, me, if placed.1.Ok? then I.Filling(k) else I.Failing(true),
               placed.0, s.calls)
  {
    hide J.Update;
  }

  lemma Fills(s: I.Scene, v: nat, me: I.Worker, k: nat, answer: Outcome<Fill>)
    requires k < |me.children| && At(s, v, me, I.Filling(k), s.journal.tables, s.calls)
    ensures At(I.After(s, I.Execute(v, answer)), v, me, if answer.Ok? then I.Booking(k, answer.value)
               else I.Failing(true),
               s.journal.tables, s.calls)
  {
    hide JR.Transaction;
  }

  /** Booking the fill takes two steps, unless the first is refused. */
  lemma Books(s: I.Scene, v: nat, me: I.Worker, k: nat, fill: Fill, now: real) returns (steps: seq<I.Step>)
    requires k < |me.children| && At(s, v, me, I.Booking(k, fill), s.journal.tables, s.calls)
    ensures var booked := BookFill(s.journal.tables, me.parent.id, me.children[k].id, fill, now);
            At(I.Run(s, steps), v, me, if booked.1.None? then I.AtChild(k + 1, true) else I.Failing(true), booked.0,
               s.calls)
  {
    hide J.MarkFill;
    var step := I.Book(v, now);
    var first := I.After(s, step);
    steps := [step];
    OneMore(s, [], step);
    assert [] + [step] == [step];
    if J.MarkFill(s.journal.tables, me.children[k].id, fill.quantity, fill.price, now, Some(fill.fillId)).Ok? {
      steps := [step] + [step];
      OneMore(s, [step], step);
    }
  }

  /** Where the worker is after a turn of the loop body: at the next child, or in the exception handler. */
  function AfterTurn(p: Progress, k: nat, started: bool): I.Pc {
    if p.outcome.Ok? then I.AtChild(k + 1, true) else I.Failing(started || p.called)
  }

  /** Whatever the broker answers, the worker has a run that leaves the journal as the loop body leaves
      it, makes the same call of submit, and comes to the same point. */
  lemma TurnIsARun(s: I.Scene, v: nat, me: I.Worker, k: nat, started: bool, w: World, index: nat, quote: V.Quote,
                   replies: Replies, fingerprint: Id, now: real)
    returns (steps: seq<I.Step>)
    requires k < |me.children| && At(s, v, me, I.AtChild(k, started), w.journal, s.calls) && WorldOk(w)
    ensures var p := ChildStep(w, me.parent.id, me.children[k], index, quote, replies, fingerprint, now);
            At(I.Run(s, steps), v, me, AfterTurn(p, k, started), p.world.journal,
               s.calls + (if p.called then [I.CallOf(me.parent, me.children[k])] else []))
  {
    hide JR.TablesOk; hide J.BeginSubmission; hide AfterReply; hide BookFill; hide I.After; hide AfterBooking;
    var c := me.children[k];
    var begun := J.BeginSubmission(w.journal, c.id, now, Some(me.parent.id), Some(c.ClientId()), Some(c.quantity),
                                   true);
    Journals(s, v, me, k, started, now);
    var s1 := I.After(s, I.Journal(v, now));
    OneMore(s, [], I.Journal(v, now));
    steps := [] + [I.Journal(v, now)];
    if begun.Ok? {
      var rest := CrossesAsARun(s1, v, me, k, w.(journal := begun.value), index, quote, replies, fingerprint, now);
      Continues(s, steps, rest);
      steps := steps + rest;
    }
  }

  lemma {:induction false} Continues(s: I.Scene, first: seq<I.Step>, rest: seq<I.Step>)
    ensures I.Run(s, first + rest) == I.Run(I.Run(s, first), rest)
  {
    if rest == [] {
      assert first + rest == first;
    } else {
      var last := |rest| - 1;
      Continues(s, first, rest[..last]);
      OneMore(s, first + rest[..last], rest[last]);
      assert first + rest[..last] + [rest[last]] == first + rest;
    }
  }

  lemma CrossesAsARun(s: I.Scene, v: nat, me: I.Worker, k: nat, w: World, index: nat, quote: V.Quote, replies: Replies,
                      fingerprint: Id, now: real)
    returns (steps: seq<I.Step>)
    requires k < |me.children| && At(s, v, me, I.Armed(k), w.journal, s.calls)
    requires O.OmsOk(w.oms) && O.FilledNonNegative(w.oms)
    ensures var p := AfterBegin(w, me.parent.id, me.children[k], index, quote, replies, fingerprint, now);
            && p.called
            && At(I.Run(s, steps), v, me, AfterTurn(p, k, true), p.world.journal,
                  s.calls + [I.CallOf(me.parent, me.children[k])])
  {
    hide AfterReply; hide AfterFill; hide I.After; hide O.OmsOk; hide O.FilledNonNegative;
    Submits(s, v, me, k, replies.submitted);
    var s1 := I.After(s, I.Submit(v, replies.submitted));
    OneMore(s, [], I.Submit(v, replies.submitted));
    Acknowledges(s1, v, me, k, replies.submitted, now);
    var s2 := I.After(s1, I.Acknowledge(v, now));
    steps := [] + [I.Submit(v, replies.submitted)];
    OneMore(s, steps, I.Acknowledge(v, now));
    steps := steps + [I.Acknowledge(v, now)];
    var placed := AfterReply(w.journal, me.children[k].id, replies.submitted, now);
    if placed.1.Ok? {
      Fills(s2, v, me, k, replies.filled);
      var s3 := I.After(s2, I.Execute(v, replies.filled));
      OneMore(s, steps, I.Execute(v, replies.filled));
      steps := steps + [I.Execute(v, replies.filled)];
      if replies.filled.Ok? {
        var rest := SettlesAsARun(s3, v, me, k, w.(journal := placed.0), index, placed.1.value, replies.filled.value,
                                  replies.observed, fingerprint, now);
        Continues(s, steps, rest);
        steps := steps + rest;
      }
    }
  }

  lemma SettlesAsARun(s: I.Scene, v: nat, me: I.Worker, k: nat, w: World, index: nat, venueOrder: Id, fill: Fill,
                      observed: Outcome<V.Observation>, fingerprint: Id, now: real)
    returns (steps: seq<I.Step>)
    requires k < |me.children| && At(s, v, me, I.Booking(k, fill), w.journal, s.calls)
    requires O.OmsOk(w.oms) && O.FilledNonNegative(w.oms)
    ensures var p := AfterFill(w, me.parent.id, me.children[k], index, venueOrder, fill, observed, fingerprint, now);
            && p.called && At(I.Run(s, steps), v, me, AfterTurn(p, k, true), p.world.journal, s.calls)
  {
    hide BookFill; hide AfterBooking; hide I.After; hide O.OmsOk; hide O.FilledNonNegative;
    steps := Books(s, v, me, k, fill, now);
    var booked := BookFill(w.journal, me.parent.id, me.children[k].id, fill, now);
    if booked.1.None? {
      var w1 := w.(journal := booked.0);
      AfterBookingFacts(w1, me.parent.id, me.children[k], index, venueOrder, fill, observed, fingerprint, now);
      var p := AfterBooking(w1, me.parent.id, me.children[k], index, venueOrder, fill, observed, fingerprint, now);
      if p.outcome.Raised? {
        Raises(I.Run(s, steps), v, me, k);
        OneMore(s, steps, I.Raise(v));
        steps := steps + [I.Raise(v)];
      }
    }
  }

  lemma Raises(s: I.Scene, v: nat, me: I.Worker, k: nat)
    requires At(s, v, me, I.AtChild(k + 1, true), s.journal.tables, s.calls)
    ensures At(I.After(s, I.Raise(v)), v, me, I.Failing(true), s.journal.tables, s.calls)
  {
    hide JR.Transaction;
  }

  // ----- The whole loop -----

  /** The calls of submit in the first n turns. */
  function CallsMade(me: I.Worker, steps: seq<Progress>, n: nat): seq<I.Call>
    requires n <= |steps| <= |me.children|
  {
    if n == 0 then []
    else CallsMade(me, steps, n - 1) + (if steps[n - 1].called then [I.CallOf(me.parent, me.children[n - 1])] else [])
  }

  function AfterTurns(steps: seq<Progress>, n: nat): I.Pc
    requires n <= |steps|
  {
    if n == 0 then I.AtChild(0, false) else AfterTurn(steps[n - 1], n - 1, n > 1)
  }

  /** The child loop of the coordinator, as far as it came, is a run of one worker: with the same journal
      after every turn, and the same calls of submit in the same order. */
  lemma {:induction false} LoopIsARun(s: I.Scene, v: nat, me: I.Worker, start: World, trace: Trace, quote: V.Quote,
                                      fingerprint: Id, now: real, n: nat)
    returns (steps: seq<I.Step>)
    requires Traced(start, me.parent.id, me.children, trace)
             && Faithful(me.parent.id, me.children, trace, quote, fingerprint, now)
    requires n <= |trace.steps| && At(s, v, me, I.AtChild(0, false), start.journal, s.calls)
    ensures |trace.steps| <= |me.children| && |trace.worlds| == |trace.steps| + 1
    ensures At(I.Run(s, steps), v, me, AfterTurns(trace.steps, n), trace.worlds[n].journal,
               s.calls + CallsMade(me, trace.steps, n))
  {
    hide StepOk; hide ChildStep; hide I.After; hide WorldOk;
    steps := [];
    if n > 0 {
      steps := LoopIsARun(s, v, me, start, trace, quote, fingerprint, now, n - 1);
      assert StepIs(me.parent.id, me.children, trace, n - 1, quote, fingerprint, now);
      TurnsGoOn(start, me.parent.id, me.children, trace, n - 1);
      var s1 := I.Run(s, steps);
      var rest := TurnIsARun(s1, v, me, n - 1, n > 1, trace.worlds[n - 1], n - 1, quote, trace.replies[n - 1],
                             fingerprint, now);
      Continues(s, steps, rest);
      steps := steps + rest;
    } else {
      assert s.calls + [] == s.calls;
    }
  }

  /** Only the last turn can have raised. */
  lemma TurnsGoOn(start: World, parent: Id, children: seq<Order>, trace: Trace, n: nat)
    requires Traced(start, parent, children, trace) && n < |trace.steps|
    ensures n > 0 ==> trace.steps[n - 1].outcome.Ok?
  {
    hide StepOk;
  }
}
