/** Usage records on their way from requests to the ledger table. */
module LedgerBatcher {
  import opened Common

  datatype Record = Record(requestId: string, tenant: string, costMicro: int)

  type Table = map<string, Record>

  /**
   * Where the writing task stands: waiting for a record, filling a batch, writing it, writing it again
   * after being cancelled, or draining. A partial batch is a drain's last.
   */
  datatype Phase = Idle | Filling | Writing | LastWriting | Draining | DrainWriting(partial: bool) | Stopped

  datatype Config = Config(batchSize: int, queueMax: int)

  /** batch: records taken off the queue and not yet done with. dropped: the counter of lost records. */
  datatype State = State(
    queue: seq<Record>,
    batch: seq<Record>,
    phase: Phase,
    closed: bool,
    dropped: nat,
    table: Table)

  /**
   * One write attempt: it succeeds, or fails although its rows may have landed, in a drain maybe past
   * the deadline.
   */
  datatype Write = Succeeds | Fails(landed: bool, pastDeadline: bool)

  predicate Lands(w: Write) {
    w.Succeeds? || w.landed
  }

  datatype Action =
    | Enqueue(record: Record)
    | Get
    | Timeout
    | Attempt(write: Write)
    | Cancel(landed: bool)
    | Load
    | Drain
    | Close
    | Flush(record: Record, landed: bool)

  function Insert(t: Table, r: Record): Table {
    if r.requestId in t then t else t[r.requestId := r]
  }

  function InsertAll(t: Table, batch: seq<Record>): Table {
    if batch == [] then t else Insert(InsertAll(t, batch[..|batch| - 1]), batch[|batch| - 1])
  }

  predicate Full(c: Config, queue: seq<Record>) {
    0 < c.queueMax <= |queue|
  }

  predicate IsWriting(p: Phase) {
    p.Writing? || p.LastWriting? || p.DrainWriting?
  }

  /** A batch is written again until it succeeds, or in a drain until the deadline has passed. */
  predicate Retries(p: Phase, w: Write) {
    w.Fails? && !(p.DrainWriting? && w.pastDeadline)
  }

  function AfterBatch(p: Phase): Phase {
    match p
    case Writing => Idle
    case DrainWriting(partial) => if partial then Stopped else Draining
    case _ => Draining
  }

  /** How much a drain takes at once: up to a full batch, and at least one record. */
  function Portion(c: Config, queue: seq<Record>): nat {
    if |queue| == 0 then 0 else if c.batchSize <= 1 then 1 else MinInt(c.batchSize, |queue|)
  }

  predicate Enabled(s: State, a: Action) {
    match a
    case Get => (s.phase.Idle? || s.phase.Filling?) && s.queue != []
    case Timeout => s.phase.Filling?
    case Attempt(_) => IsWriting(s.phase)
    case Cancel(_) => s.phase.Idle? || s.phase.Filling? || s.phase.Writing?
    case Load => s.phase.Draining?
    case Drain => s.phase.Stopped?
    case _ => true
  }

  function Next(c: Config, s: State, a: Action): State
    requires Enabled(s, a)
  {
    match a
    case Enqueue(r) =>
      if s.closed then s
      else if Full(c, s.queue) then s.(dropped := s.dropped + 1)
      else s.(queue := s.queue + [r])
    case Get =>
      s.(queue := s.queue[1..], batch := s.batch + [s.queue[0]],
         phase := if |s.batch| + 1 < c.batchSize then Filling else Writing)
    case Timeout => s.(phase := Writing)
    case Attempt(w) =>
      var table := if Lands(w) then InsertAll(s.table, s.batch) else s.table;
      if Retries(s.phase, w) then s.(table := table)
      else s.(table := table, batch := [], phase := AfterBatch(s.phase),
              dropped := s.dropped + if w.Fails? then |s.batch| else 0)
    case Cancel(landed) =>
      s.(phase := if s.batch == [] then Draining else LastWriting,
         table := if landed && s.phase.Writing? then InsertAll(s.table, s.batch) else s.table)
    case Load =>
      var n := Portion(c, s.queue);
      s.(queue := s.queue[n..], batch := s.queue[..n],
         phase := if n == 0 then Stopped else DrainWriting(n < c.batchSize))
    case Drain => s.(phase := Draining)
    case Close => s.(closed := true)
    case Flush(r, landed) => if landed then s.(table := Insert(s.table, r)) else s
  }

  class LedgerBatcher {
    const config: Config
    var queue: seq<Record>
    var batch: seq<Record>
    var phase: Phase
    var closed: bool
    var dropped: nat
    var table: Table

    ghost function View(): State
      reads this
    {
      State(queue, batch, phase, closed, dropped, table)
    }

    constructor (config: Config, table: Table)
      ensures this.config == config && View() == State([], [], Idle, false, 0, table)
    {
      this.config, this.table := config, table;
      queue, batch, phase, closed, dropped := [], [], Idle, false, 0;
    }

    method Enqueue(record: Record)
      modifies this
      ensures View() == Next(config, old(View()), Action.Enqueue(record))
    {
      if closed {
        return;
      }
      if 0 < config.queueMax <= |queue| {
        dropped := dropped + 1;
      } else {
        queue := queue + [record];
      }
    }

    method Get()
      requires Enabled(View(), Action.Get)
      modifies this
      ensures View() == Next(config, old(View()), Action.Get)
    {
      batch := batch + [queue[0]];
      queue := queue[1..];
      phase := if |batch| < config.batchSize then Filling else Writing;
    }

    method Timeout()
      requires Enabled(View(), Action.Timeout)
      modifies this
      ensures View() == Next(config, old(View()), Action.Timeout)
    {
      phase := Writing;
    }

    /** Inserts row by row; a request id that already has a row keeps it. */
    method InsertRows()
      modifies this`table
      ensures table == InsertAll(old(table), batch)
    {
      for i := 0 to |batch|
        invariant table == InsertAll(old(table), batch[..i])
      {
        assert batch[..i + 1][..i] == batch[..i];
        if batch[i].requestId !in table {
          table := table[batch[i].requestId := batch[i]];
        }
      }
      assert batch[..|batch|] == batch;
    }

    method WriteAttempt(w: Write)
      requires IsWriting(phase)
      modifies this
      ensures View() == Next(config, old(View()), Attempt(w))
    {
      if Lands(w) {
        InsertRows();
      }
      if w.Fails? {
        if !phase.DrainWriting? || !w.pastDeadline {
          return;
        }
        dropped := dropped + |batch|;
      }
      batch := [];
      phase := AfterBatch(phase);
    }

    /** Cancelling a write leaves open whether its rows landed; the batch is then written again. */
    method Cancel(landed: bool)
      requires Enabled(View(), Action.Cancel(landed))
      modifies this
      ensures View() == Next(config, old(View()), Action.Cancel(landed))
    {
      if landed && phase.Writing? {
        InsertRows();
      }
      phase := if batch == [] then Draining else LastWriting;
    }

    /** A drain fills its next batch without waiting. */
    method Load()
      requires phase.Draining? && batch == []
      modifies this
      ensures View() == Next(config, old(View()), Action.Load)
    {
      while queue != [] && (batch == [] || |batch| < config.batchSize)
        invariant batch + queue == old(queue)
        invariant |batch| <= Portion(config, old(queue))
        invariant phase == old(phase) && closed == old(closed) && dropped == old(dropped) && table == old(table)
        decreases |queue|
      {
        batch := batch + [queue[0]];
        queue := queue[1..];
      }
      assert |batch| == Portion(config, old(queue));
      assert batch == old(queue)[..|batch|] && queue == old(queue)[|batch|..];
      phase := if batch == [] then Stopped else DrainWriting(|batch| < config.batchSize);
    }

    method Drain()
      requires phase.Stopped?
      modifies this`phase
      ensures View() == Next(config, old(View()), Action.Drain)
    {
      phase := Draining;
    }

    method Close()
      modifies this`closed
      ensures View() == Next(config, old(View()), Action.Close)
    {
      closed := true;
    }

    /** A streamed completion writes its own record, beside the queue; an attempt begun may outlast closing. */
    method FlushAttempt(record: Record, landed: bool)
      modifies this`table
      ensures View() == Next(config, old(View()), Flush(record, landed))
    {
      if landed && record.requestId !in table {
        table := table[record.requestId := record];
      }
    }
  }
}
