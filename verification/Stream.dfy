/** The retry loop behind a streaming completion, and what the client receives. */
module Stream {
  import opened Common
  import opened Routing
  import opened Attempts
  import opened Settlement
  import opened QuotaService

  /** One item of an upstream stream; Idle is a slot in which nothing arrived before the heartbeat. */
  datatype Delta = Idle | Delta(hasContent: bool, usage: Option<Usage>)

  datatype Chunk = Comment | Data(attempt: nat) | CachedData | ErrorChunk | DoneMark

  datatype Ending = Finishes | Disconnects | Raises | Fails(category: Category)

  /**
   * What the environment does in one attempt. refusal: the error a reservation is refused with, if it is;
   * Raises stands for cancellation and for every exception that is no gateway error.
   */
  datatype Attempt = Attempt(
    offers: seq<Option<Deployment>>,
    refusal: Option<Category>,
    starts: bool,
    deltas: seq<Delta>,
    ending: Ending)

  /** Kept across the attempts of one request. */
  datatype Accounting = Accounting(usage: Option<Usage>, forwarded: nat)

  /** A usage report is passed on only to clients that asked for it. */
  function Show(d: Delta, attempt: nat, includeUsage: bool): seq<Chunk> {
    if d.Idle? then [Comment]
    else if d.usage.Some? && !includeUsage then []
    else [Data(attempt)]
  }

  function Shown(deltas: seq<Delta>, attempt: nat, includeUsage: bool): seq<Chunk> {
    if deltas == [] then []
    else Shown(deltas[..|deltas| - 1], attempt, includeUsage) + Show(deltas[|deltas| - 1], attempt, includeUsage)
  }

  function Noted(acc: Accounting, d: Delta): Accounting {
    if d.Idle? then acc
    else Accounting(if d.usage.Some? then d.usage else acc.usage, acc.forwarded + if d.hasContent then 1 else 0)
  }

  function Accounted(acc: Accounting, deltas: seq<Delta>): Accounting {
    if deltas == [] then acc else Noted(Accounted(acc, deltas[..|deltas| - 1]), deltas[|deltas| - 1])
  }

  predicate HasData(chunks: seq<Chunk>) {
    exists c :: c in chunks && c.Data?
  }

  method Render(deltas: seq<Delta>, attempt: nat, includeUsage: bool, before: Accounting)
    returns (chunks: seq<Chunk>, acc: Accounting, sentData: bool)
    ensures chunks == Shown(deltas, attempt, includeUsage)
    ensures acc == Accounted(before, deltas)
    ensures sentData == HasData(chunks)
  {
    chunks, acc, sentData := [], before, false;
    for n := 0 to |deltas|
      invariant chunks == Shown(deltas[..n], attempt, includeUsage)
      invariant acc == Accounted(before, deltas[..n])
      invariant sentData == HasData(chunks)
    {
      var d := deltas[n];
      assert deltas[..n + 1][..n] == deltas[..n];
      if !d.Idle? {
        acc := Accounting(if d.usage.Some? then d.usage else acc.usage, acc.forwarded + if d.hasContent then 1 else 0);
      }
      var shown := Show(d, attempt, includeUsage);
      ghost var was := chunks;
      chunks := chunks + shown;
      assert shown != [] ==> chunks[|was|] == shown[0];
      assert forall c :: c in chunks <==> c in was || c in shown;
      sentData := sentData || (shown != [] && shown[0].Data?);
    }
    assert deltas[..|deltas|] == deltas;
  }

  /**
   * picks, started and upstream are a record of the run: deployments tried, attempts whose stream was
   * opened, and the last of these.
   */
  datatype Loop = Loop(
    body: seq<Chunk>,
    acc: Accounting,
    held: bool,
    refused: bool,
    attempted: set<Key>,
    level: nat,
    lastError: Option<Category>,
    picks: seq<Pick>,
    started: set<nat>,
    upstream: Option<nat>)

  datatype Result = Completed | Interrupted | Replayed(pieces: nat) | Failed(category: Category)

  datatype Step = GoOn(loop: Loop) | Break(loop: Loop) | End(loop: Loop, result: Result)

  datatype Final = Final(loop: Loop, result: Result)

  datatype Options = Options(levels: seq<Level>, includeUsage: bool, first: Option<Pick>, stale: Option<nat>)

  function Begin(o: Options, exclude: set<Key>, level: nat): Loop {
    Loop([], Accounting(None, 0), o.first.Some?, false, exclude, level, None,
         if o.first.Some? then [o.first.value] else [], {}, None)
  }

  /** The first attempt is handed in with its reservation; others are picked, and reserved for if need be. */
  function Chosen(o: Options, a: Attempt, i: nat, s: Loop): Step {
    if i == 0 && o.first.Some? then GoOn(s)
    else
      match PickFrom(o.levels, a.offers, s.attempted, s.level)
      case None => Break(s.(lastError := Some(RetryableUpstream)))
      case Some(pick) =>
        if !s.held && a.refusal.Some? then Break(s.(refused := true, level := pick.level, lastError := a.refusal))
        else GoOn(s.(held := true, level := pick.level, attempted := s.attempted + {pick.deployment.Key()},
                     picks := s.picks + [pick]))
  }

  function Received(o: Options, a: Attempt, i: nat, s: Loop): Loop {
    s.(body := s.body + Shown(a.deltas, i, o.includeUsage), acc := Accounted(s.acc, a.deltas),
       started := s.started + {i}, upstream := Some(i))
  }

  /** A failed stream is retried only if no data event has left and another attempt is allowed. */
  function React(o: Options, a: Attempt, i: nat, isLast: bool, s: Loop): Step {
    var r := Received(o, a, i, s);
    match a.ending
    case Finishes => End(r, Completed)
    case Disconnects => End(r, Interrupted)
    case Raises => End(r, Interrupted)
    case Fails(category) =>
      var failed := r.(lastError := Some(category));
      if HasData(Shown(a.deltas, i, o.includeUsage)) || !Retryable(category) || isLast then Break(failed)
      else GoOn(failed)
  }

  function Iterate(o: Options, a: Attempt, i: nat, isLast: bool, s: Loop): Step {
    match Chosen(o, a, i, s)
    case Break(c) => Break(c)
    case End(c, result) => End(c, result)
    case GoOn(c) =>
      if !a.starts then GoOn(c.(lastError := Some(RetryableUpstream)))
      else React(o, a, i, isLast, c)
  }

  function Finish(o: Options, s: Loop): Final {
    Final(s, if o.stale.Some? then Replayed(o.stale.value) else Failed(s.lastError.GetOr(RetryableUpstream)))
  }

  /** The loop from its i-th iteration on. */
  function Proceed(o: Options, script: seq<Attempt>, i: nat, s: Loop): Final
    decreases |script| - i
  {
    if i >= |script| then Finish(o, s)
    else
      match Iterate(o, script[i], i, i == |script| - 1, s)
      case GoOn(after) => Proceed(o, script, i + 1, after)
      case Break(after) => Finish(o, after)
      case End(after, result) => Final(after, result)
  }

  function Cached(n: nat): seq<Chunk> {
    seq(n, _ => CachedData)
  }

  /** What follows the upstream's own events; a replay closes with its finish reason and any usage. */
  function Tail(o: Options, result: Result): seq<Chunk> {
    match result
    case Completed => [DoneMark]
    case Interrupted => []
    case Replayed(pieces) => Cached(pieces + if o.includeUsage then 2 else 1) + [DoneMark]
    case Failed(_) => [ErrorChunk, DoneMark]
  }

  /** Everything the client receives. */
  function Output(o: Options, f: Final): seq<Chunk> {
    f.loop.body + Tail(o, f.result)
  }

  // ---------------------------------------------------------------------------------------------
  // The handler, with its reservation and its flight
  // ---------------------------------------------------------------------------------------------

  /** The quota log once the request has asked for its reservation, if it came without one. */
  function AfterReserve(before: seq<QuotaCall>, o: Options, s: Loop): seq<QuotaCall> {
    if o.first.Some? then before
    else if s.held then before + [Reserve(true)]
    else if s.refused then before + [Reserve(false)]
    else before
  }

  function AfterRelease(before: seq<QuotaCall>, o: Options, f: Final): seq<QuotaCall> {
    var reserved := AfterReserve(before, o, f.loop);
    if !f.loop.held then reserved
    else reserved + [if f.result.Replayed? then Refund else Settle(f.loop.acc.usage, f.loop.acc.forwarded)]
  }

  /** Whether the answer reached the flight's followers. */
  predicate Shared(f: Final) {
    f.result.Completed? && f.loop.acc.usage.Some?
  }

  method Choose(o: Options, a: Attempt, i: nat, s: Loop, held: QuotaSettlement?, account: Account,
                ghost before: seq<QuotaCall>) returns (step: Step, quota: QuotaSettlement?)
    requires s.held <==> held != null
    requires !s.refused && (o.first.Some? ==> s.held)
    requires held != null ==> held.account == account && !held.settled && held.usage == None
    requires account.calls == AfterReserve(before, o, s)
    modifies account
    ensures step == Chosen(o, a, i, s)
    ensures account.calls == AfterReserve(before, o, step.loop)
    ensures step.loop.held <==> quota != null
    ensures step.GoOn? ==> step.loop.held && !step.loop.refused
    ensures quota != null ==> quota.account == account && !quota.settled && quota.usage == None
    ensures quota != null ==> quota == held || fresh(quota)
  {
    quota := held;
    if i == 0 && o.first.Some? {
      return GoOn(s), quota;
    }
    var pick := PickNextAttempt(o.levels, a.offers, s.attempted, s.level);
    if pick.None? {
      return Break(s.(lastError := Some(RetryableUpstream))), quota;
    }
    if quota == null {
      quota := ReserveQuota(account, a.refusal.None?);
      if quota == null {
        return Break(s.(refused := true, level := pick.value.level, lastError := a.refusal)), null;
      }
    }
    step := GoOn(s.(held := true, level := pick.value.level, attempted := s.attempted + {pick.value.deployment.Key()},
                    picks := s.picks + [pick.value]));
  }

  /** The flight's outcome is set, and the reservation settled, as soon as a stream with usage completes. */
  method Receive(o: Options, a: Attempt, i: nat, isLast: bool, s: Loop, quota: QuotaSettlement, account: Account,
                 leader: bool, ghost before: seq<QuotaCall>) returns (step: Step, flight: FlightEnd)
    requires s.held && quota.account == account && !quota.settled && quota.usage == None
    requires account.calls == AfterReserve(before, o, s)
    modifies account, quota
    ensures step == React(o, a, i, isLast, s)
    ensures flight == if !leader || !step.End? then Open
                      else if Shared(Final(step.loop, step.result)) then Resolved else Rejected
    ensures Pending(quota, account, before, o, step.loop) || (step.End? && Released(quota, account, before, o, step))
    ensures !step.End? ==> quota.usage == None
  {
    flight := Open;
    var chunks, acc, sentData := Render(a.deltas, i, o.includeUsage, s.acc);
    var r := s.(body := s.body + chunks, acc := acc, started := s.started + {i}, upstream := Some(i));
    match a.ending {
      case Finishes =>
        quota.CaptureUsage(acc.usage);
        if acc.usage.Some? {
          if leader {
            flight := Set(flight, Resolved);
          }
          quota.SettleOnce(acc.usage, acc.forwarded);
        } else if leader {
          flight := Set(flight, Rejected);
        }
        return End(r, Completed), flight;
      case Disconnects =>
        return End(r, Interrupted), if leader then Set(flight, Rejected) else flight;
      case Raises =>
        return End(r, Interrupted), if leader then Set(flight, Rejected) else flight;
      case Fails(category) =>
        var failed := r.(lastError := Some(category));
        if sentData || !Retryable(category) || isLast {
          return Break(failed), flight;
        }
        return GoOn(failed), flight;
    }
  }

  ghost predicate Pending(quota: QuotaSettlement, account: Account, before: seq<QuotaCall>, o: Options, s: Loop)
    reads quota, account
  {
    && !quota.settled && account.calls == AfterReserve(before, o, s)
    && (quota.usage.Some? ==> quota.usage == s.acc.usage)
  }

  ghost predicate Released(quota: QuotaSettlement, account: Account, before: seq<QuotaCall>, o: Options, step: Step)
    requires step.End?
    reads quota, account
  {
    quota.settled && account.calls == AfterRelease(before, o, Final(step.loop, step.result))
  }

  method TryOnce(o: Options, a: Attempt, i: nat, isLast: bool, s: Loop, held: QuotaSettlement?, account: Account,
                 leader: bool, ghost before: seq<QuotaCall>)
    returns (step: Step, quota: QuotaSettlement?, flight: FlightEnd)
    requires s.held <==> held != null
    requires !s.refused && (o.first.Some? ==> s.held)
    requires held != null ==> held.account == account && !held.settled && held.usage == None
    requires account.calls == AfterReserve(before, o, s)
    modifies account, held
    ensures step == Iterate(o, a, i, isLast, s)
    ensures step.End? ==> !step.result.Replayed?
    ensures step.GoOn? ==> !step.loop.refused
    ensures step.loop.held <==> quota != null
    ensures o.first.Some? ==> step.loop.held
    ensures quota != null ==> quota.account == account && (quota == held || fresh(quota))
    ensures flight == if !leader || !step.End? then Open
                      else if Shared(Final(step.loop, step.result)) then Resolved else Rejected
    ensures quota == null ==> !step.End? && account.calls == AfterReserve(before, o, step.loop)
    ensures quota != null ==>
              Pending(quota, account, before, o, step.loop) || (step.End? && Released(quota, account, before, o, step))
    ensures quota != null && !step.End? ==> quota.usage == None
  {
    flight := Open;
    step, quota := Choose(o, a, i, s, held, account, before);
    if step.Break? {
      return;
    }
    if !a.starts {
      step := GoOn(step.loop.(lastError := Some(RetryableUpstream)));
      return;
    }
    step, flight := Receive(o, a, i, isLast, step.loop, quota, account, leader, before);
  }

  /** After the last attempt: a stale cached answer with a full refund, or an error in the stream itself. */
  method Conclude(o: Options, s: Loop, quota: QuotaSettlement?, account: Account, leader: bool,
                  ghost before: seq<QuotaCall>) returns (f: Final, flight: FlightEnd)
    requires s.held <==> quota != null
    requires quota != null ==> quota.account == account && Pending(quota, account, before, o, s)
    requires quota == null ==> account.calls == AfterReserve(before, o, s)
    modifies account, quota
    ensures f == Finish(o, s)
    ensures flight == if leader then Rejected else Open
    ensures quota == null ==> account.calls == AfterRelease(before, o, f)
    ensures quota != null ==>
              if f.result.Replayed? then quota.settled && account.calls == AfterRelease(before, o, f)
              else Pending(quota, account, before, o, s)
  {
    if o.stale.Some? && quota != null {
      quota.RefundFull();
    }
    f := Final(s, if o.stale.Some? then Replayed(o.stale.value) else Failed(s.lastError.GetOr(RetryableUpstream)));
    flight := if leader then Set(Open, Rejected) else Open;
  }

  /** What the loop comes to after n iterations that left it at this step. */
  function Rest(o: Options, script: seq<Attempt>, n: nat, step: Step): Final {
    match step
    case GoOn(s) => Proceed(o, script, n, s)
    case Break(s) => Finish(o, s)
    case End(s, result) => Final(s, result)
  }

  lemma RestSteps(o: Options, script: seq<Attempt>, n: nat, s: Loop)
    requires n < |script|
    ensures Rest(o, script, n, GoOn(s)) == Rest(o, script, n + 1, Iterate(o, script[n], n, n == |script| - 1, s))
  {
  }

  method TryAll(o: Options, script: seq<Attempt>, s: Loop, held: QuotaSettlement?, account: Account, leader: bool,
                ghost before: seq<QuotaCall>)
    returns (step: Step, quota: QuotaSettlement?, flight: FlightEnd)
    requires s.held <==> held != null
    requires !s.refused && (o.first.Some? ==> s.held)
    requires held != null ==> held.account == account && !held.settled && held.usage == None
    requires account.calls == AfterReserve(before, o, s)
    modifies account, held
    ensures Proceed(o, script, 0, s) == if step.End? then Final(step.loop, step.result) else Finish(o, step.loop)
    ensures step.End? ==> !step.result.Replayed?
    ensures step.loop.held <==> quota != null
    ensures quota != null ==> quota.account == account && (quota == held || fresh(quota))
    ensures flight == if !leader || !step.End? then Open
                      else if Shared(Final(step.loop, step.result)) then Resolved else Rejected
    ensures quota == null ==> !step.End? && account.calls == AfterReserve(before, o, step.loop)
    ensures quota != null ==>
              Pending(quota, account, before, o, step.loop) || (step.End? && Released(quota, account, before, o, step))
  {
    step, quota, flight := GoOn(s), held, Open;
    var n := 0;
    while n < |script| && step.GoOn?
      invariant n <= |script|
      invariant Proceed(o, script, 0, s) == Rest(o, script, n, step)
      invariant step.End? ==> !step.result.Replayed?
      invariant step.loop.held <==> quota != null
      invariant o.first.Some? ==> step.loop.held
      invariant step.GoOn? ==> !step.loop.refused
      invariant quota != null ==> quota.account == account && (quota == held || fresh(quota))
      invariant flight == if !leader || !step.End? then Open
                          else if Shared(Final(step.loop, step.result)) then Resolved else Rejected
      invariant quota == null ==> !step.End? && account.calls == AfterReserve(before, o, step.loop)
      invariant quota != null ==>
                  Pending(quota, account, before, o, step.loop) || (step.End? && Released(quota, account, before, o, step))
      invariant quota != null && !step.End? ==> quota.usage == None
    {
      RestSteps(o, script, n, step.loop);
      step, quota, flight := TryOnce(o, script[n], n, n == |script| - 1, step.loop, quota, account, leader, before);
      n := n + 1;
    }
  }

  /**
   * Runs the handler against the environment's script, one entry an allowed attempt. A reservation made
   * here or handed in is released exactly once on every way out, a leader's flight ended and released, and
   * reported usage goes to the ledger once.
   */
  method StreamWithRetries(o: Options, script: seq<Attempt>, exclude: set<Key>, level: nat, held: QuotaSettlement?,
                           account: Account, leader: bool)
    returns (f: Final, output: seq<Chunk>, flight: FlightEnd, released: bool, billed: seq<Usage>)
    requires o.first.Some? <==> held != null
    requires held != null ==> held.account == account && !held.settled && held.usage == None
    modifies account, held
    ensures f == Proceed(o, script, 0, Begin(o, exclude, level))
    ensures output == Output(o, f)
    ensures account.calls == AfterRelease(old(account.calls), o, f)
    ensures leader ==> released && flight == if Shared(f) then Resolved else Rejected
    ensures !leader ==> !released && flight == Open
    ensures billed == if f.loop.acc.usage.Some? then [f.loop.acc.usage.value] else []
  {
    ghost var before := account.calls;
    var step, quota;
    step, quota, flight := TryAll(o, script, Begin(o, exclude, level), held, account, leader, before);
    var s := step.loop;
    billed := [];
    if step.End? {
      f := Final(s, step.result);
      if step.result.Completed? && s.acc.usage.Some? {
        billed := [s.acc.usage.value];
      }
    } else {
      f, flight := Conclude(o, s, quota, account, leader, before);
    }
    output := Output(o, f);
    // on every way out
    if quota != null {
      quota.SettleOnce(s.acc.usage, s.acc.forwarded);
    }
    if s.acc.usage.Some? && billed == [] {
      billed := [s.acc.usage.value];
    }
    released := leader;
  }
}
