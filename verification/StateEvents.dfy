/** The EA/backend state-event streams kept beside the journal, and the parity test on them. */
module StateEvents {
  import opened Common
  import Orders

  /** The status column: a status the OMS knows, or any other text an EA may send. */
  datatype StatusText = Known(status: Orders.OrderStatus) | Text(text: string)

  datatype Source = EA | Backend | OtherSource

  /** A row of execution_state_events, without its source and order. */
  datatype Entry = Entry(decision: Id, fingerprint: Id, status: StatusText, filled: real, average: Option<real>,
                         sequence: int, createdAt: real)

  datatype Event = Event(source: Source, order: Id, entry: Entry)

  /** The rows of one source and order, in the order they were inserted. */
  type Stream = seq<Entry>

  type Log = map<(Source, Id), Stream>

  function StreamOf(log: Log, source: Source, order: Id): Stream {
    if (source, order) in log then log[(source, order)] else []
  }

  /** Equal in every column but created_at. */
  predicate SameEntry(a: Entry, b: Entry) {
    a.(createdAt := 0.0) == b.(createdAt := 0.0)
  }

  predicate EntryOk(e: Entry) {
    && !Blank(e.decision) && !Blank(e.fingerprint) && (e.status.Text? ==> !BlankText(e.status.text))
    && e.sequence >= 0 && e.filled >= 0.0
    && (e.average.Some? ==> e.average.value > 0.0)
    && (e.filled > 0.0 ==> e.average.Some?)
  }

  /** SELECT ... WHERE sequence = ? */
  function Find(s: Stream, sequence: int): Option<Entry> {
    if s == [] then None
    else if s[|s| - 1].sequence == sequence then Some(s[|s| - 1])
    else Find(s[..|s| - 1], sequence)
  }

  /** SELECT ... ORDER BY sequence DESC LIMIT 1 */
  function Latest(s: Stream): Option<Entry> {
    if s == [] then None
    else
      var before := Latest(s[..|s| - 1]);
      if before.Some? && before.value.sequence > s[|s| - 1].sequence then before else Some(s[|s| - 1])
  }

  predicate Follows(previous: Entry, e: Entry) {
    && e.sequence > previous.sequence
    && e.decision == previous.decision && e.fingerprint == previous.fingerprint
    && e.filled + TOL_9 >= previous.filled
  }

  function Append(s: Stream, e: Entry): Outcome<Stream> {
    var existing, previous := Find(s, e.sequence), Latest(s);
    if existing.Some? then (if SameEntry(existing.value, e) then Ok(s) else Raised(ValueError))
    else if previous.Some? && !Follows(previous.value, e) then Raised(ValueError)
    else Ok(s + [e])
  }

  /** record_state_event */
  function Record(log: Log, e: Event): Outcome<Log> {
    if e.source == OtherSource || Blank(e.order) || !EntryOk(e.entry) then Raised(ValueError)
    else
      var after := Append(StreamOf(log, e.source, e.order), e.entry);
      if after.Raised? then Raised(after.error)
      else Ok(log[(e.source, e.order) := after.value])
  }

  function RunLog(log: Log, events: seq<Event>): Log {
    if events == [] then log
    else
      var before := RunLog(log, events[..|events| - 1]);
      var after := Record(before, events[|events| - 1]);
      if after.Ok? then after.value else before
  }

  /** Sequences strictly increase, the decision and its fingerprint never change, and cumulative
      fill drops by at most 1e-9 from one event to the next. */
  ghost predicate StreamOk(s: Stream) {
    && (forall i | 0 <= i < |s| - 1 :: Follows(s[i], s[i + 1]))
    && (forall i, j | 0 <= i < j < |s| :: s[i].sequence < s[j].sequence)
    && (forall i, j | 0 <= i < j < |s| :: s[i].decision == s[j].decision && s[i].fingerprint == s[j].fingerprint)
  }

  ghost predicate LogOk(log: Log) {
    forall k | k in log :: StreamOk(log[k])
  }

  lemma {:induction false} LatestIsLast(s: Stream)
    requires StreamOk(s) && s != []
    ensures Latest(s) == Some(s[|s| - 1])
  {
    if |s| > 1 {
      LatestIsLast(s[..|s| - 1]);
    }
  }

  lemma {:induction false} FindMeans(s: Stream, sequence: int)
    ensures Find(s, sequence).Some? ==> Find(s, sequence).value in s && Find(s, sequence).value.sequence == sequence
    ensures Find(s, sequence).None? ==> forall i | 0 <= i < |s| :: s[i].sequence != sequence
  {
    if s != [] {
      FindMeans(s[..|s| - 1], sequence);
    }
  }

  lemma AppendKeepsOk(s: Stream, e: Entry)
    requires StreamOk(s) && Append(s, e).Ok?
    ensures StreamOk(Append(s, e).value)
  {
    if s != [] {
      LatestIsLast(s);
    }
  }

  /** Every run of events, from both sources and for all orders, keeps every stream in order. */
  lemma {:induction false} RunKeepsOk(log: Log, events: seq<Event>)
    requires LogOk(log)
    ensures LogOk(RunLog(log, events))
  {
    if events != [] {
      var before, e := events[..|events| - 1], events[|events| - 1];
      RunKeepsOk(log, before);
      var middle := RunLog(log, before);
      if Record(middle, e).Ok? {
        AppendKeepsOk(StreamOf(middle, e.source, e.order), e.entry);
      }
    }
  }

  /** Cumulative fill over a whole stream can fall by at most 1e-9 per event. */
  lemma {:induction false} FillFallsSlowly(s: Stream, i: nat, j: nat)
    requires StreamOk(s) && i <= j < |s|
    ensures s[j].filled >= s[i].filled - (j - i) as real * TOL_9
    decreases j - i
  {
    if i < j {
      FillFallsSlowly(s, i, j - 1);
      assert Follows(s[j - 1], s[j]);
    }
  }

  /** An event the log already holds is accepted again, at any later time and with any creation
      time, and changes nothing. */
  lemma ReplayIsNoOp(log: Log, e: Event, i: nat)
    requires LogOk(log) && e.source != OtherSource && !Blank(e.order) && EntryOk(e.entry)
    requires i < |StreamOf(log, e.source, e.order)| && SameEntry(StreamOf(log, e.source, e.order)[i], e.entry)
    ensures Record(log, e) == Ok(log)
  {
    var s := StreamOf(log, e.source, e.order);
    FindMeans(s, e.entry.sequence);
    assert StreamOk(s);
    assert s[i].sequence == e.entry.sequence;
    var found := Find(s, e.entry.sequence).value;
    var k :| 0 <= k < |s| && s[k] == found;
    assert k == i;
    assert log[(e.source, e.order) := s] == log;
  }

  // ----- Parity -----

  predicate SameStream(a: Stream, b: Stream) {
    |a| == |b| && forall i | 0 <= i < |a| :: SameEntry(a[i], b[i])
  }

  predicate Parity(log: Log, order: Id) {
    var ea, backend := StreamOf(log, EA, order), StreamOf(log, Backend, order);
    ea != [] && backend != [] && SameStream(ea, backend)
  }

  /** What one source said about one order, in the order it said it. */
  function Said(events: seq<Event>, source: Source, order: Id): seq<Entry> {
    if events == [] then []
    else
      var before, e := Said(events[..|events| - 1], source, order), events[|events| - 1];
      if e.source == source && e.order == order && EntryOk(e.entry) then before + [e.entry] else before
  }

  function RunStream(s: Stream, entries: seq<Entry>): Stream {
    if entries == [] then s
    else
      var before := RunStream(s, entries[..|entries| - 1]);
      var after := Append(before, entries[|entries| - 1]);
      if after.Ok? then after.value else before
  }

  /** A stream depends only on what its own source said about its own order: interleaving with the
      other source and with other orders makes no difference. */
  lemma {:induction false} StreamsAreIndependent(log: Log, events: seq<Event>, source: Source, order: Id)
    requires source != OtherSource && !Blank(order)
    ensures StreamOf(RunLog(log, events), source, order)
            == RunStream(StreamOf(log, source, order), Said(events, source, order))
  {
    if events != [] {
      var before, e := events[..|events| - 1], events[|events| - 1];
      StreamsAreIndependent(log, before, source, order);
      if e.source == source && e.order == order && EntryOk(e.entry) {
        assert (Said(before, source, order) + [e.entry])[..|Said(before, source, order)|]
               == Said(before, source, order);
      }
    }
  }

  lemma {:induction false} SameLookups(a: Stream, b: Stream, sequence: int)
    requires SameStream(a, b)
    ensures Find(a, sequence).Some? == Find(b, sequence).Some? && Latest(a).Some? == Latest(b).Some?
    ensures Find(a, sequence).Some? ==> SameEntry(Find(a, sequence).value, Find(b, sequence).value)
    ensures Latest(a).Some? ==> SameEntry(Latest(a).value, Latest(b).value)
  {
    if a != [] {
      SameLookups(a[..|a| - 1], b[..|b| - 1], sequence);
    }
  }

  lemma {:induction false} SameRuns(s: Stream, s': Stream, a: seq<Entry>, b: seq<Entry>)
    requires SameStream(s, s') && SameStream(a, b)
    ensures SameStream(RunStream(s, a), RunStream(s', b))
  {
    if a != [] {
      var last := |a| - 1;
      SameRuns(s, s', a[..last], b[..last]);
      var x, y := RunStream(s, a[..last]), RunStream(s', b[..last]);
      SameLookups(x, y, a[last].sequence);
      assert Append(x, a[last]).Ok? == Append(y, b[last]).Ok?;
    }
  }

  lemma {:induction false} FirstEntryIsKept(s: Stream, entries: seq<Entry>)
    requires s != [] || entries != []
    ensures RunStream(s, entries) != []
  {
    if |entries| > 1 || (s != [] && entries != []) {
      FirstEntryIsKept(s, entries[..|entries| - 1]);
    }
  }

  /** If the EA and the backend say the same things about an order, however their events and those
      of other orders are interleaved, then parity holds as soon as anything was said. */
  lemma MirroredSourcesReachParity(events: seq<Event>, order: Id)
    requires !Blank(order) && SameStream(Said(events, EA, order), Said(events, Backend, order))
    ensures Parity(RunLog(map[], events), order) <==> Said(events, EA, order) != []
  {
    StreamsAreIndependent(map[], events, EA, order);
    StreamsAreIndependent(map[], events, Backend, order);
    SameRuns([], [], Said(events, EA, order), Said(events, Backend, order));
    if Said(events, EA, order) != [] {
      FirstEntryIsKept([], Said(events, EA, order));
      FirstEntryIsKept([], Said(events, Backend, order));
    }
  }

  // ----- What one event does -----

  /** An event of a known source that says who, what and why, in amounts that make sense. */
  ghost predicate Presentable(e: Event) {
    && (e.source == EA || e.source == Backend)
    && Visible(e.order) && Visible(e.entry.decision) && Visible(e.entry.fingerprint)
    && (match e.entry.status case Known(_) => true case Text(text) => VisibleText(text))
    && 0 <= e.entry.sequence && 0.0 <= e.entry.filled
    && (match e.entry.average case None => e.entry.filled == 0.0 case Some(average) => 0.0 < average)
  }

  /** The two say the same, whenever they were created. */
  predicate SaysTheSame(a: Entry, b: Entry) {
    && a.decision == b.decision && a.fingerprint == b.fingerprint && a.status == b.status && a.filled == b.filled
    && a.average == b.average && a.sequence == b.sequence
  }

  /** It may follow the last one: a later sequence, of the same decision and set-up, without falling
      back in filled quantity by more than 1e-9. */
  predicate MayFollow(last: Entry, e: Entry) {
    && last.sequence < e.sequence && e.decision == last.decision && e.fingerprint == last.fingerprint
    && last.filled - e.filled <= 0.000000001
  }

  ghost predicate Sequenced(s: Stream, sequence: int) {
    exists k | 0 <= k < |s| :: s[k].sequence == sequence
  }

  /** A sequence number the stream has is accepted exactly if it says the same again, and then nothing
      changes; a new one exactly if it may follow the last, and then it is appended to the stream of its
      source and order. Other streams stay as they are, and a refusal is a ValueError. */
  lemma RecordIff(log: Log, e: Event)
    requires LogOk(log)
    ensures var s := if (e.source, e.order) in log then log[(e.source, e.order)] else [];
            var r := Record(log, e);
            if !Presentable(e) then r == Raised(ValueError)
            else if Sequenced(s, e.entry.sequence) then
              if exists k | 0 <= k < |s| :: SaysTheSame(s[k], e.entry)
              then r.Ok? && r.value.Keys == log.Keys + {(e.source, e.order)}
                && forall k | k in r.value :: r.value[k] == if k == (e.source, e.order) then s else log[k]
              else r == Raised(ValueError)
            else if s == [] || MayFollow(s[|s| - 1], e.entry)
            then r.Ok? && r.value.Keys == log.Keys + {(e.source, e.order)}
              && forall k | k in r.value :: r.value[k] == if k == (e.source, e.order) then s + [e.entry] else log[k]
            else r == Raised(ValueError)
  {
    var s := StreamOf(log, e.source, e.order);
    PresentableIff(e);
    if Presentable(e) {
      AppendIff(s, e.entry);
    }
    hide Presentable; hide EntryOk; hide Append; hide Sequenced; hide MayFollow; hide SaysTheSame; hide StreamOk;
  }

  lemma PresentableIff(e: Event)
    ensures Presentable(e) <==> e.source != OtherSource && !Blank(e.order) && EntryOk(e.entry)
  {
    VisibleIff(e.order);
    VisibleIff(e.entry.decision);
    VisibleIff(e.entry.fingerprint);
    if e.entry.status.Text? { VisibleTextIff(e.entry.status.text); }
    hide Visible; hide Blank; hide VisibleText; hide BlankText;
  }

  lemma AppendIff(s: Stream, e: Entry)
    requires StreamOk(s)
    ensures if Sequenced(s, e.sequence) then
              Append(s, e) == if exists k | 0 <= k < |s| :: SaysTheSame(s[k], e) then Ok(s) else Raised(ValueError)
            else Append(s, e) == if s == [] || MayFollow(s[|s| - 1], e) then Ok(s + [e]) else Raised(ValueError)
  {
    FindMeans(s, e.sequence);
    if s != [] { LatestIsLast(s); }
    if Sequenced(s, e.sequence) {
      var k :| 0 <= k < |s| && s[k].sequence == e.sequence;
      var found := Find(s, e.sequence).value;
      var j :| 0 <= j < |s| && s[j] == found;
      assert j == k;
      assert SaysTheSame(s[k], e) <==> SameEntry(s[k], e);
      if i :| 0 <= i < |s| && SaysTheSame(s[i], e) {
        assert i == k;
      }
    } else {
      assert Find(s, e.sequence).None?;
    }
  }

  /** Parity holds exactly if both sources have spoken, equally often, and said the same each time. */
  lemma ParityIff(log: Log, order: Id)
    ensures Parity(log, order) <==>
              && (EA, order) in log && (Backend, order) in log
              && var ea, backend := log[(EA, order)], log[(Backend, order)];
              && 0 < |ea| == |backend| && forall k | 0 <= k < |ea| :: SaysTheSame(ea[k], backend[k])
  {
    var ea, backend := StreamOf(log, EA, order), StreamOf(log, Backend, order);
    if |ea| == |backend| {
      forall k | 0 <= k < |ea| ensures SaysTheSame(ea[k], backend[k]) <==> SameEntry(ea[k], backend[k]) {
      }
    }
    hide SaysTheSame; hide SameEntry;
  }
}
