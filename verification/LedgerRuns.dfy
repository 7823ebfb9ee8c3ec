/** Where the records of every run end up. */
module LedgerRuns {
  import opened Common
  import opened LedgerBatcher

  /** How a batch's record left the pipeline: written, or given up, its row possibly there all the same. */
  datatype Fate = Fate(record: Record, written: bool, landed: bool)

  /**
   * offered: records enqueued before closing; accepted: those the queue took; late: those it took since
   * the last load; fates: those done with; landed: the current batch's rows are in the table already;
   * flushed: rows that landed beside the queue; rows: everything inserted, in order, repetitions included.
   */
  datatype World = World(
    state: State,
    offered: nat,
    full: nat,
    accepted: seq<Record>,
    late: seq<Record>,
    fates: seq<Fate>,
    landed: bool,
    flushed: seq<Record>,
    rows: seq<Record>)

  function Fates(batch: seq<Record>, written: bool, landed: bool): seq<Fate> {
    seq(|batch|, i requires 0 <= i < |batch| => Fate(batch[i], written, landed))
  }

  function Records(fates: seq<Fate>): seq<Record> {
    seq(|fates|, i requires 0 <= i < |fates| => fates[i].record)
  }

  function Initial(table: Table): World {
    World(State([], [], Idle, false, 0, table), 0, 0, [], [], [], false, [], [])
  }

  /** The rows one action tries to insert. */
  function Inserted(s: State, a: Action): seq<Record> {
    match a
    case Attempt(write) => if Lands(write) then s.batch else []
    case Cancel(landed) => if landed && s.phase.Writing? then s.batch else []
    case Flush(r, landed) => if landed then [r] else []
    case _ => []
  }

  function Step(c: Config, w: World, a: Action): World
    requires Enabled(w.state, a)
  {
    var s, next := w.state, w.(state := Next(c, w.state, a), rows := w.rows + Inserted(w.state, a));
    match a
    case Enqueue(r) =>
      if s.closed then next
      else if Full(c, s.queue) then next.(offered := w.offered + 1, full := w.full + 1)
      else next.(offered := w.offered + 1, accepted := w.accepted + [r], late := w.late + [r])
    case Attempt(write) =>
      if Retries(s.phase, write) then next.(landed := w.landed || Lands(write))
      else next.(fates := w.fates + Fates(s.batch, write.Succeeds?, w.landed || Lands(write)), landed := false)
    case Cancel(landed) => next.(landed := w.landed || (landed && s.phase.Writing?))
    case Load => next.(late := [])
    case Flush(r, landed) => if landed then next.(flushed := w.flushed + [r]) else next
    case _ => next
  }

  ghost predicate IsRun(c: Config, table: Table, actions: seq<Action>)
    decreases |actions|, 0
  {
    actions == [] ||
    var init := actions[..|actions| - 1];
    IsRun(c, table, init) && Enabled(Run(c, table, init).state, actions[|actions| - 1])
  }

  ghost function Run(c: Config, table: Table, actions: seq<Action>): World
    requires IsRun(c, table, actions)
    decreases |actions|, 1
  {
    if actions == [] then Initial(table)
    else
      var init := actions[..|actions| - 1];
      Step(c, Run(c, table, init), actions[|actions| - 1])
  }

  // ---------------------------------------------------------------------------------------------
  // No record is lost or doubled on its way
  // ---------------------------------------------------------------------------------------------

  function Lost(fates: seq<Fate>): nat {
    if fates == [] then 0 else Lost(fates[..|fates| - 1]) + if fates[|fates| - 1].written then 0 else 1
  }

  ghost predicate Ordered(w: World) {
    w.accepted == Records(w.fates) + w.state.batch + w.state.queue
  }

  ghost predicate Counted(c: Config, w: World) {
    && w.offered == |w.accepted| + w.full
    && w.state.dropped == w.full + Lost(w.fates)
    && (0 < c.queueMax ==> |w.state.queue| <= c.queueMax)
  }

  /** Only a task that fills or writes holds a batch, and only rows of such a batch can have landed. */
  ghost predicate PhaseInv(w: World) {
    && (w.state.batch != [] <==> w.state.phase.Filling? || IsWriting(w.state.phase))
    && (w.landed ==> w.state.phase.Writing? || w.state.phase.LastWriting? || w.state.phase.DrainWriting?)
    && (w.state.phase == DrainWriting(true) || w.state.phase.Stopped? ==> w.state.queue == w.late)
  }

  lemma {:induction false} LostAppend(fates: seq<Fate>, batch: seq<Record>, written: bool, landed: bool)
    ensures Lost(fates + Fates(batch, written, landed)) == Lost(fates) + if written then 0 else |batch|
  {
    var all := fates + Fates(batch, written, landed);
    if batch == [] {
      assert all == fates;
    } else {
      var init := batch[..|batch| - 1];
      assert all[..|all| - 1] == fates + Fates(init, written, landed);
      LostAppend(fates, init, written, landed);
    }
  }

  lemma RecordsAppend(fates: seq<Fate>, batch: seq<Record>, written: bool, landed: bool)
    ensures Records(fates + Fates(batch, written, landed)) == Records(fates) + batch
  {
  }

  lemma StepKeepsPhaseInv(c: Config, w: World, a: Action)
    requires PhaseInv(w) && Enabled(w.state, a)
    ensures PhaseInv(Step(c, w, a))
  {
  }

  lemma StepKeepsOrder(c: Config, w: World, a: Action)
    requires PhaseInv(w) && Ordered(w) && Enabled(w.state, a)
    ensures Ordered(Step(c, w, a))
  {
    var s := w.state;
    match a {
      case Enqueue(r) => Regroup(Records(w.fates) + s.batch, s.queue, [r]);
      case Get =>
        assert s.queue == [s.queue[0]] + s.queue[1..];
        Regroup(Records(w.fates), s.batch, [s.queue[0]]);
        Regroup(Records(w.fates) + s.batch, [s.queue[0]], s.queue[1..]);
      case Attempt(write) =>
        var done := Records(w.fates) + s.batch;
        RecordsAppend(w.fates, s.batch, write.Succeeds?, w.landed || Lands(write));
        assert done + [] == done;
      case Load =>
        var n := Portion(c, s.queue);
        assert s.queue == s.queue[..n] + s.queue[n..];
        assert Records(w.fates) + [] == Records(w.fates);
        Regroup(Records(w.fates), s.queue[..n], s.queue[n..]);
      case _ =>
    }
  }

  lemma Regroup(a: seq<Record>, b: seq<Record>, c: seq<Record>)
    ensures a + b + c == a + (b + c)
  {
  }

  lemma StepKeepsCounts(c: Config, w: World, a: Action)
    requires Counted(c, w) && Enabled(w.state, a)
    ensures Counted(c, Step(c, w, a))
  {
    if a.Attempt? {
      AttemptKeepsCounts(c, w, a.write);
    } else {
      assert Step(c, w, a).fates == w.fates;
    }
  }

  lemma AttemptKeepsCounts(c: Config, w: World, write: Write)
    requires Counted(c, w) && IsWriting(w.state.phase)
    ensures Counted(c, Step(c, w, Attempt(write)))
  {
    LostAppend(w.fates, w.state.batch, write.Succeeds?, w.landed || Lands(write));
  }

  /**
   * Through every interleaving, the records offered while open are, in order, those done with, those in
   * the batch and those queued, apart from the ones a full queue turned away; and the drop counter counts
   * exactly the latter and those a drain gave up.
   */
  lemma {:induction false} LedgerConservation(c: Config, table: Table, actions: seq<Action>)
    requires IsRun(c, table, actions)
    ensures var w := Run(c, table, actions); Ordered(w) && Counted(c, w) && PhaseInv(w)
  {
    if actions == [] {
      assert Records([]) == [];
    } else {
      var init := actions[..|actions| - 1];
      LedgerConservation(c, table, init);
      StepKeepsOrder(c, Run(c, table, init), actions[|actions| - 1]);
      StepKeepsCounts(c, Run(c, table, init), actions[|actions| - 1]);
      StepKeepsPhaseInv(c, Run(c, table, init), actions[|actions| - 1]);
    }
  }

  // ---------------------------------------------------------------------------------------------
  // What the table holds
  // ---------------------------------------------------------------------------------------------

  function Lookup(t: Table, id: string): Option<Record> {
    if id in t then Some(t[id]) else None
  }

  function OrElse(a: Option<Record>, b: Option<Record>): Option<Record> {
    if a.Some? then a else b
  }

  /** The first record of a request. */
  function FirstOf(records: seq<Record>, id: string): Option<Record> {
    if records == [] then None
    else
      var last := records[|records| - 1];
      OrElse(FirstOf(records[..|records| - 1], id), if last.requestId == id then Some(last) else None)
  }

  lemma {:induction false} FirstOfIsFirst(records: seq<Record>, id: string)
    ensures FirstOf(records, id).None? <==> forall r :: r in records ==> r.requestId != id
    ensures FirstOf(records, id).Some? ==>
              exists i :: 0 <= i < |records| && records[i] == FirstOf(records, id).value && records[i].requestId == id
                          && forall j :: 0 <= j < i ==> records[j].requestId != id
  {
    if records == [] {
    } else {
      var n := |records| - 1;
      var init := records[..n];
      FirstOfIsFirst(init, id);
      assert forall r :: r in records <==> r in init || r == records[n];
      if FirstOf(init, id).Some? {
        var i :| 0 <= i < |init| && init[i] == FirstOf(init, id).value && init[i].requestId == id
                 && forall j :: 0 <= j < i ==> init[j].requestId != id;
        assert records[i] == init[i];
        assert forall j :: 0 <= j < i ==> records[j] == init[j];
      } else if records[n].requestId == id {
        forall j | 0 <= j < n
          ensures records[j].requestId != id
        {
          assert init[j] in init;
        }
      }
    }
  }

  lemma {:induction false} FirstOfAppend(a: seq<Record>, b: seq<Record>, id: string)
    ensures FirstOf(a + b, id) == OrElse(FirstOf(a, id), FirstOf(b, id))
  {
    if b == [] {
      assert a + b == a;
    } else {
      assert (a + b)[..|a + b| - 1] == a + b[..|b| - 1];
      FirstOfAppend(a, b[..|b| - 1], id);
    }
  }

  lemma {:induction false} InsertAllLookup(t: Table, batch: seq<Record>, id: string)
    ensures Lookup(InsertAll(t, batch), id) == OrElse(Lookup(t, id), FirstOf(batch, id))
  {
    if batch == [] {
    } else {
      InsertAllLookup(t, batch[..|batch| - 1], id);
    }
  }

  /** Writing a batch twice, whatever other requests' rows came in between, is writing it once. */
  lemma WritingTwiceIsWritingOnce(t: Table, batch: seq<Record>, between: seq<Record>)
    ensures InsertAll(InsertAll(t, batch), batch) == InsertAll(t, batch)
    ensures InsertAll(InsertAll(InsertAll(t, batch), between), batch) == InsertAll(InsertAll(t, batch), between)
  {
    var once := InsertAll(t, batch);
    var later := InsertAll(once, between);
    forall id: string
      ensures Lookup(InsertAll(once, batch), id) == Lookup(once, id)
      ensures Lookup(InsertAll(later, batch), id) == Lookup(later, id)
    {
      InsertAllLookup(t, batch, id);
      InsertAllLookup(once, batch, id);
      InsertAllLookup(once, between, id);
      InsertAllLookup(later, batch, id);
    }
    SameLookups(InsertAll(once, batch), once);
    SameLookups(InsertAll(later, batch), later);
  }

  lemma SameLookups(a: Table, b: Table)
    requires forall id :: Lookup(a, id) == Lookup(b, id)
    ensures a == b
  {
    assert forall id :: id in a <==> Lookup(a, id).Some?;
    assert forall id :: id in b <==> Lookup(b, id).Some?;
    assert forall id :: id in a ==> Lookup(a, id) == Some(a[id]);
    assert forall id :: id in b ==> Lookup(b, id) == Some(b[id]);
  }

  function Landed(fates: seq<Fate>): seq<Record> {
    if fates == [] then []
    else Landed(fates[..|fates| - 1]) + if fates[|fates| - 1].landed then [fates[|fates| - 1].record] else []
  }

  lemma {:induction false} LandedAppend(fates: seq<Fate>, batch: seq<Record>, written: bool, landed: bool)
    ensures Landed(fates + Fates(batch, written, landed)) == Landed(fates) + if landed then batch else []
  {
    var all := fates + Fates(batch, written, landed);
    if batch == [] {
      assert all == fates;
    } else {
      var init := batch[..|batch| - 1];
      assert all[..|all| - 1] == fates + Fates(init, written, landed);
      LandedAppend(fates, init, written, landed);
      assert init + [batch[|batch| - 1]] == batch;
    }
  }

  ghost predicate TableInv(table: Table, w: World, id: string) {
    Lookup(w.state.table, id) ==
    OrElse(OrElse(Lookup(table, id), FirstOf(Landed(w.fates), id)),
           if w.landed then FirstOf(w.state.batch, id) else None)
  }

  predicate Flushes(a: Action, id: string) {
    a.Flush? && a.record.requestId == id
  }

  lemma AttemptKeepsTable(c: Config, table: Table, w: World, write: Write, id: string)
    requires PhaseInv(w) && TableInv(table, w, id) && IsWriting(w.state.phase)
    ensures TableInv(table, Step(c, w, Attempt(write)), id)
  {
    var s, landed := w.state, w.landed || Lands(write);
    InsertAllLookup(s.table, s.batch, id);
    if !Retries(s.phase, write) {
      FateOfBatch(w.fates, s.batch, write.Succeeds?, landed, id);
    }
  }

  lemma FateOfBatch(fates: seq<Fate>, batch: seq<Record>, written: bool, landed: bool, id: string)
    ensures FirstOf(Landed(fates + Fates(batch, written, landed)), id)
            == OrElse(FirstOf(Landed(fates), id), if landed then FirstOf(batch, id) else None)
  {
    LandedAppend(fates, batch, written, landed);
    FirstOfAppend(Landed(fates), batch, id);
    assert Landed(fates) + [] == Landed(fates);
  }

  lemma StepKeepsTable(c: Config, table: Table, w: World, a: Action, id: string)
    requires PhaseInv(w) && TableInv(table, w, id) && Enabled(w.state, a) && !Flushes(a, id)
    ensures TableInv(table, Step(c, w, a), id)
  {
    match a {
      case Attempt(write) => AttemptKeepsTable(c, table, w, write, id);
      case Cancel(_) => InsertAllLookup(w.state.table, w.state.batch, id);
      case _ =>
    }
  }

  lemma {:induction false} RunKeepsTable(c: Config, table: Table, actions: seq<Action>, id: string)
    requires IsRun(c, table, actions) && forall a :: a in actions ==> !Flushes(a, id)
    ensures TableInv(table, Run(c, table, actions), id)
  {
    if actions == [] {
    } else {
      var init, last := actions[..|actions| - 1], actions[|actions| - 1];
      assert forall a :: a in init ==> a in actions;
      RunKeepsTable(c, table, init, id);
      LedgerConservation(c, table, init);
      StepKeepsTable(c, table, Run(c, table, init), last, id);
    }
  }

  /** At every moment the table is the initial one with each request's first inserted row. */
  lemma {:induction false} RowsInOrder(c: Config, table: Table, actions: seq<Action>, id: string)
    requires IsRun(c, table, actions)
    ensures var w := Run(c, table, actions);
            Lookup(w.state.table, id) == OrElse(Lookup(table, id), FirstOf(w.rows, id))
  {
    if actions == [] {
    } else {
      var init, last := actions[..|actions| - 1], actions[|actions| - 1];
      RowsInOrder(c, table, init, id);
      var w := Run(c, table, init);
      var more := Inserted(w.state, last);
      StepInserts(c, w, last);
      FirstOfAppend(w.rows, more, id);
      InsertAllLookup(w.state.table, more, id);
    }
  }

  lemma StepInserts(c: Config, w: World, a: Action)
    requires Enabled(w.state, a)
    ensures Step(c, w, a).state.table == InsertAll(w.state.table, Inserted(w.state, a))
    ensures Step(c, w, a).rows == w.rows + Inserted(w.state, a)
  {
    InsertOne(w.state.table, Inserted(w.state, a));
  }

  lemma InsertOne(t: Table, rows: seq<Record>)
    ensures rows == [] ==> InsertAll(t, rows) == t
    ensures |rows| == 1 ==> InsertAll(t, rows) == Insert(t, rows[0])
  {
    if |rows| == 1 {
      assert rows[..0] == [];
    }
  }

  /** What was inserted is what landed from the queue or beside it. */
  ghost predicate RowsInv(w: World) {
    forall r :: r in w.rows <==> r in Landed(w.fates) || (w.landed && r in w.state.batch) || r in w.flushed
  }

  lemma StepKeepsRows(c: Config, w: World, a: Action)
    requires PhaseInv(w) && RowsInv(w) && Enabled(w.state, a)
    ensures RowsInv(Step(c, w, a))
  {
    if a.Attempt? {
      AttemptKeepsRows(c, w, a.write);
    } else {
      assert Step(c, w, a).fates == w.fates;
    }
  }

  lemma AttemptKeepsRows(c: Config, w: World, write: Write)
    requires PhaseInv(w) && RowsInv(w) && IsWriting(w.state.phase)
    ensures RowsInv(Step(c, w, Attempt(write)))
  {
    var landed := w.landed || Lands(write);
    LandedAppend(w.fates, w.state.batch, write.Succeeds?, landed);
  }

  lemma {:induction false} RunKeepsRows(c: Config, table: Table, actions: seq<Action>)
    requires IsRun(c, table, actions)
    ensures RowsInv(Run(c, table, actions))
  {
    if actions == [] {
    } else {
      var init := actions[..|actions| - 1];
      RunKeepsRows(c, table, init);
      LedgerConservation(c, table, init);
      StepKeepsRows(c, Run(c, table, init), actions[|actions| - 1]);
    }
  }

  /**
   * Direct writes included: once the writer has stopped and every batch it finished has landed, a request has
   * exactly one row if it had one before, or one of its records was finished or written directly, and none
   * otherwise.
   */
  lemma OneRowIff(c: Config, table: Table, actions: seq<Action>, id: string)
    requires IsRun(c, table, actions)
    requires var w := Run(c, table, actions); w.state.phase.Stopped? && forall f :: f in w.fates ==> f.landed
    ensures var w := Run(c, table, actions);
            id in w.state.table
            <==> id in table || exists r :: (r in Records(w.fates) || r in w.flushed) && r.requestId == id
  {
    var w := Run(c, table, actions);
    RowsInOrder(c, table, actions, id);
    RunKeepsRows(c, table, actions);
    LedgerConservation(c, table, actions);
    AllLanded(w.fates);
    FirstOfIsFirst(w.rows, id);
    assert id in w.state.table <==> Lookup(w.state.table, id).Some?;
    assert id in table <==> Lookup(table, id).Some?;
  }

  lemma {:induction false} AllLanded(fates: seq<Fate>)
    requires forall f :: f in fates ==> f.landed
    ensures Landed(fates) == Records(fates)
  {
    if fates == [] {
    } else {
      var init, last := fates[..|fates| - 1], fates[|fates| - 1];
      assert forall f :: f in init ==> f in fates;
      assert last in fates;
      AllLanded(init);
      assert Records(fates) == Records(init) + [last.record];
    }
  }

  lemma Emptied(w: World)
    requires Ordered(w) && w.state.batch == []
    ensures w.accepted == Records(w.fates) + w.state.queue
    ensures w.state.queue == [] ==> w.accepted == Records(w.fates)
  {
    assert Records(w.fates) + [] == Records(w.fates);
  }

  /**
   * Once the writer has stopped, if every batch it finished reached the table, each request has in it the
   * row it started with, or else its first finished record. That is its first accepted record exactly if it
   * has a row already or no record of it came while the last batch was being written. Requests that also
   * wrote beside the queue are apart: see OneRowIff.
   */
  lemma ExactlyOnce(c: Config, table: Table, actions: seq<Action>, id: string)
    requires IsRun(c, table, actions) && forall a :: a in actions ==> !Flushes(a, id)
    requires var w := Run(c, table, actions); w.state.phase.Stopped? && forall f :: f in w.fates ==> f.landed
    ensures var w := Run(c, table, actions);
            && w.accepted == Records(w.fates) + w.late && w.late == w.state.queue
            && Lookup(w.state.table, id) == OrElse(Lookup(table, id), FirstOf(Records(w.fates), id))
            && (Lookup(w.state.table, id) == OrElse(Lookup(table, id), FirstOf(w.accepted, id)) <==>
                id in table || FirstOf(Records(w.fates), id).Some? || FirstOf(w.late, id).None?)
  {
    var w := Run(c, table, actions);
    RunKeepsTable(c, table, actions, id);
    LedgerConservation(c, table, actions);
    AllLanded(w.fates);
    Emptied(w);
    FirstOfAppend(Records(w.fates), w.late, id);
  }

  lemma {:induction false} WrittenHasLanded(c: Config, table: Table, actions: seq<Action>)
    requires IsRun(c, table, actions)
    ensures forall f :: f in Run(c, table, actions).fates && f.written ==> f.landed
  {
    if actions == [] {
    } else {
      var init, last := actions[..|actions| - 1], actions[|actions| - 1];
      WrittenHasLanded(c, table, init);
      var w := Run(c, table, init);
      if last.Attempt? {
        var more := Fates(w.state.batch, last.write.Succeeds?, w.landed || Lands(last.write));
        assert forall f :: f in more ==> f.written == last.write.Succeeds? && f.landed == (w.landed || Lands(last.write));
        assert forall f :: f in w.fates + more ==> f in w.fates || f in more;
      }
    }
  }

  lemma {:induction false} NoneLost(fates: seq<Fate>)
    ensures Lost(fates) == 0 <==> forall f :: f in fates ==> f.written
  {
    if fates == [] {
    } else {
      var n := |fates| - 1;
      NoneLost(fates[..n]);
      assert forall f :: f in fates <==> f in fates[..n] || f == fates[n];
    }
  }

  /** If the drop counter shows nothing but records turned away at the queue, every finished batch landed. */
  lemma NoDropsNoLosses(c: Config, table: Table, actions: seq<Action>)
    requires IsRun(c, table, actions) && Run(c, table, actions).state.dropped == Run(c, table, actions).full
    ensures forall f :: f in Run(c, table, actions).fates ==> f.landed
  {
    LedgerConservation(c, table, actions);
    NoneLost(Run(c, table, actions).fates);
    WrittenHasLanded(c, table, actions);
  }

  lemma OneMore(c: Config, table: Table, actions: seq<Action>, a: Action)
    requires IsRun(c, table, actions) && Enabled(Run(c, table, actions).state, a)
    ensures IsRun(c, table, actions + [a]) && Run(c, table, actions + [a]) == Step(c, Run(c, table, actions), a)
  {
    assert (actions + [a])[..|actions|] == actions;
  }

  /** The writer is cancelled and drains; a record is offered during its last write. */
  function FirstDrain(first: Record, second: Record): seq<Action> {
    [Enqueue(first)] + [Cancel(false)] + [Load] + [Enqueue(second)] + [Attempt(Succeeds)]
  }

  /** The application then drains once more, another record is offered during its last write, and it closes. */
  function Shutdown(first: Record, second: Record, third: Record): seq<Action> {
    FirstDrain(first, second) + [Drain] + [Load] + [Enqueue(third)] + [Attempt(Succeeds)] + [Close]
  }

  /** A record offered during a drain's last write stays in the queue. */
  lemma LateRecordStaysQueued(c: Config, table: Table, first: Record, second: Record)
    requires 1 < c.batchSize && 1 < c.queueMax
    ensures IsRun(c, table, FirstDrain(first, second))
    ensures Run(c, table, FirstDrain(first, second)).state
            == State([second], [], Stopped, false, 0, Insert(table, first))
  {
    var start := [Enqueue(first)] + [Cancel(false)];
    assert [] + [Enqueue(first)] == [Enqueue(first)];
    OneMore(c, table, [], Enqueue(first));
    OneMore(c, table, [Enqueue(first)], Cancel(false));
    DrainWithLate(c, table, start, first, second);
  }

  /**
   * The second drain writes what the first one left. A record offered during its own last write is never
   * written, and no counter shows it.
   */
  lemma ShutdownLosesLateRecord(c: Config, table: Table, first: Record, second: Record, third: Record)
    requires 1 < c.batchSize && 1 < c.queueMax
    ensures IsRun(c, table, Shutdown(first, second, third))
    ensures Run(c, table, Shutdown(first, second, third)).state
            == State([third], [], Stopped, true, 0, Insert(Insert(table, first), second))
  {
    LateRecordStaysQueued(c, table, first, second);
    var before := FirstDrain(first, second);
    OneMore(c, table, before, Drain);
    DrainWithLate(c, table, before + [Drain], second, third);
    OneMore(c, table, before + [Drain] + [Load] + [Enqueue(third)] + [Attempt(Succeeds)], Close);
  }

  /** A drain of one record during whose write another one is offered. */
  lemma DrainWithLate(c: Config, table: Table, before: seq<Action>, queued: Record, late: Record)
    requires 1 < c.batchSize && 1 < c.queueMax && IsRun(c, table, before)
    requires var s := Run(c, table, before).state; s == State([queued], [], Draining, false, 0, s.table)
    ensures var actions := before + [Load] + [Enqueue(late)] + [Attempt(Succeeds)];
            && IsRun(c, table, actions)
            && Run(c, table, actions).state
               == State([late], [], Stopped, false, 0, Insert(Run(c, table, before).state.table, queued))
  {
    var t := Run(c, table, before).state.table;
    OneMore(c, table, before, Load);
    assert Run(c, table, before + [Load]).state == State([], [queued], DrainWriting(true), false, 0, t);
    OneMore(c, table, before + [Load], Enqueue(late));
    OneMore(c, table, before + [Load] + [Enqueue(late)], Attempt(Succeeds));
    InsertOne(t, [queued]);
  }
}
