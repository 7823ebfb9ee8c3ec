/** The retry loop behind a non-streaming completion. */
module NonStream {
  import opened Common
  import opened Routing
  import opened Attempts
  import opened Settlement
  import opened QuotaService

  /**
   * What the environment does in one attempt. refusal: the error a reservation is refused with, if it is;
   * a crash is an exception that is no gateway error.
   */
  datatype Reply = Answers(usage: Usage) | Fails(category: Category) | Crashes

  datatype Attempt = Attempt(
    offers: seq<Option<Deployment>>,
    refusal: Option<Category>,
    starts: bool,
    reply: Reply)

  datatype Event =
    | Reserved(granted: bool)
    | Picked(pick: Pick)
    | Dispatched(pick: Pick)
    | Settled(usage: Option<Usage>)
    | Refunded

  /** What happened so far, latest event last. */
  datatype Trace = Empty | Then(before: Trace, event: Event)

  datatype Result = Returned(usage: Usage, degraded: bool) | Stale | Raised(category: Category) | Crashed

  datatype Final = Final(trace: Trace, result: Result)

  /** held: a reservation is waiting to be settled. */
  datatype Loop = Loop(trace: Trace, held: bool, exclude: set<Key>, level: nat, lastError: Option<Category>)

  /** After the last attempt: a stale cached answer, or the last error. */
  function Finish(s: Loop, stale: bool): Final {
    if stale then Final(if s.held then Then(s.trace, Refunded) else s.trace, Stale)
    else Final(if s.held then Then(s.trace, Settled(None)) else s.trace, Raised(s.lastError.GetOr(RetryableUpstream)))
  }

  /** A pick counts as tried; unless a reservation is waiting, one is asked for. */
  function Chosen(s: Loop, pick: Pick, granted: bool): Loop {
    var picked := Then(s.trace, Picked(pick));
    s.(trace := if s.held then picked else Then(picked, Reserved(granted)), held := s.held || granted,
       exclude := s.exclude + {pick.deployment.Key()}, level := pick.level)
  }

  /** How one iteration leaves the loop: on to the next one, out to the stale cache, or out of the handler. */
  datatype Step = GoOn(loop: Loop) | Break(loop: Loop) | End(loop: Loop, result: Result)

  /** One upstream call under the held reservation. A failed call settles it without usage. */
  function React(c: Loop, pick: Pick, reply: Reply, degraded: bool): Step {
    var sent := Then(c.trace, Dispatched(pick));
    match reply
    case Answers(usage) => End(c.(trace := Then(sent, Settled(Some(usage))), held := false), Returned(usage, degraded))
    case Crashes => End(c.(trace := sent), Crashed)
    case Fails(category) =>
      var failed := c.(trace := Then(sent, Settled(None)), held := false, lastError := Some(category));
      if Retryable(category) then GoOn(failed) else End(failed, Raised(category))
  }

  function Iterate(levels: seq<Level>, a: Attempt, s: Loop): Step {
    match PickFrom(levels, a.offers, s.exclude, s.level)
    case None => Break(s.(lastError := Some(RetryableUpstream)))
    case Some(pick) =>
      var c := Chosen(s, pick, a.refusal.None?);
      if !c.held then End(c, Raised(a.refusal.value))
      else if !a.starts then GoOn(c.(lastError := Some(RetryableUpstream)))
      else React(c, pick, a.reply, levels[pick.level].degraded)
  }

  /** The loop from its next iteration on. */
  function Proceed(levels: seq<Level>, script: seq<Attempt>, stale: bool, s: Loop): Final {
    if script == [] then Finish(s, stale)
    else
      match Iterate(levels, script[0], s)
      case GoOn(after) => Proceed(levels, script[1..], stale, after)
      case Break(after) => Finish(after, stale)
      case End(after, result) => Final(after.trace, result)
  }

  function Begin(held: bool): Loop {
    Loop(Empty, held, {}, 0, None)
  }

  /** The quota service's log after these events. */
  function Log(before: seq<QuotaCall>, trace: Trace): seq<QuotaCall> {
    if trace.Empty? then before else Log(before, trace.before) + CallOf(trace.event)
  }

  /** Settling without usage forwards no tokens. */
  function CallOf(e: Event): seq<QuotaCall> {
    match e
    case Reserved(granted) => [QuotaCall.Reserve(granted)]
    case Settled(usage) => [QuotaCall.Settle(usage, if usage.Some? then usage.value.completion else 0)]
    case Refunded => [QuotaCall.Refund]
    case _ => []
  }

  /** One upstream call; `before` is what the request had asked of the quota service before this loop. */
  method Dispatch(c: Loop, pick: Pick, reply: Reply, degraded: bool, quota: QuotaSettlement, account: Account,
                  ghost before: seq<QuotaCall>) returns (step: Step)
    requires c.held && quota.account == account && !quota.settled && quota.usage == None
    requires account.calls == Log(before, c.trace)
    modifies account, quota
    ensures step == React(c, pick, reply, degraded)
    ensures account.calls == Log(before, step.loop.trace)
  {
    var sent := Then(c.trace, Dispatched(pick));
    match reply {
      case Answers(usage) =>
        quota.SettleOnce(Some(usage), usage.completion);
        return End(c.(trace := Then(sent, Settled(Some(usage))), held := false), Returned(usage, degraded));
      case Crashes =>
        return End(c.(trace := sent), Crashed);
      case Fails(category) =>
        quota.SettleOnce(None, 0);
        var failed := c.(trace := Then(sent, Settled(None)), held := false, lastError := Some(category));
        return if Retryable(category) then GoOn(failed) else End(failed, Raised(category));
    }
  }

  method Conclude(s: Loop, stale: bool, quota: QuotaSettlement?, account: Account, ghost before: seq<QuotaCall>)
    returns (final: Final)
    requires s.held <==> quota != null
    requires quota != null ==> quota.account == account && !quota.settled && quota.usage == None
    requires account.calls == Log(before, s.trace)
    modifies account, quota
    ensures final == Finish(s, stale)
    ensures account.calls == Log(before, final.trace)
  {
    var trace := s.trace;
    if stale {
      if quota != null {
        quota.RefundFull();
        trace := Then(trace, Refunded);
      }
      final := Final(trace, Stale);
    } else {
      if quota != null {
        quota.SettleOnce(None, 0);
        trace := Then(trace, Settled(None));
      }
      final := Final(trace, Raised(s.lastError.GetOr(RetryableUpstream)));
    }
  }

  /** Counts the pick as tried and reserves for it unless a reservation is waiting; null if refused. */
  method Prepare(s: Loop, pick: Pick, refusal: Option<Category>, held: QuotaSettlement?, account: Account,
                 ghost before: seq<QuotaCall>) returns (c: Loop, quota: QuotaSettlement?)
    requires s.held <==> held != null
    requires held != null ==> held.account == account && !held.settled && held.usage == None
    requires account.calls == Log(before, s.trace)
    modifies account
    ensures quota == null <==> !s.held && refusal.Some?
    ensures c == Chosen(s, pick, refusal.None?)
    ensures quota != null ==> quota.account == account && !quota.settled && quota.usage == None
    ensures quota != null ==> quota == held || fresh(quota)
    ensures account.calls == Log(before, c.trace)
  {
    quota := held;
    if held == null {
      quota := ReserveQuota(account, refusal.None?);
    }
    c := Chosen(s, pick, refusal.None?);
  }

  method TryOnce(levels: seq<Level>, a: Attempt, s: Loop, held: QuotaSettlement?, account: Account,
                  ghost before: seq<QuotaCall>) returns (step: Step, quota: QuotaSettlement?)
    requires s.held <==> held != null
    requires held != null ==> held.account == account && !held.settled && held.usage == None
    requires account.calls == Log(before, s.trace)
    modifies account, held
    ensures step == Iterate(levels, a, s)
    ensures account.calls == Log(before, step.loop.trace)
    ensures !step.End? ==> (step.loop.held <==> quota != null)
    ensures !step.End? && quota != null ==> quota.account == account && !quota.settled && quota.usage == None
    ensures quota != null ==> quota == held || fresh(quota)
  {
    var pick := PickNextAttempt(levels, a.offers, s.exclude, s.level);
    if pick.None? {
      return Break(s.(lastError := Some(RetryableUpstream))), held;
    }
    var c;
    c, quota := Prepare(s, pick.value, a.refusal, held, account, before);
    if quota == null {
      return End(c, Raised(a.refusal.value)), null;
    }
    if !a.starts {
      return GoOn(c.(lastError := Some(RetryableUpstream))), quota;
    }
    step := Dispatch(c, pick.value, a.reply, levels[pick.value.level].degraded, quota, account, before);
    quota := null;
  }

  /** What the loop comes to after n iterations that left it at this step. */
  function Rest(levels: seq<Level>, script: seq<Attempt>, stale: bool, n: nat, step: Step): Final
    requires n <= |script|
  {
    match step
    case GoOn(s) => Proceed(levels, script[n..], stale, s)
    case Break(s) => Finish(s, stale)
    case End(s, result) => Final(s.trace, result)
  }

  lemma RestSteps(levels: seq<Level>, script: seq<Attempt>, stale: bool, n: nat, s: Loop)
    requires n < |script|
    ensures Rest(levels, script, stale, n, GoOn(s)) == Rest(levels, script, stale, n + 1, Iterate(levels, script[n], s))
  {
    assert script[n..][0] == script[n] && script[n..][1..] == script[n + 1..];
  }

  method TryAll(levels: seq<Level>, script: seq<Attempt>, stale: bool, s: Loop, held: QuotaSettlement?,
                account: Account, ghost before: seq<QuotaCall>) returns (step: Step, quota: QuotaSettlement?)
    requires s.held <==> held != null
    requires held != null ==> held.account == account && !held.settled && held.usage == None
    requires account.calls == Log(before, s.trace)
    modifies account, held
    ensures Proceed(levels, script, stale, s)
            == if step.End? then Final(step.loop.trace, step.result) else Finish(step.loop, stale)
    ensures account.calls == Log(before, step.loop.trace)
    ensures !step.End? ==> (step.loop.held <==> quota != null)
    ensures !step.End? && quota != null ==> quota.account == account && !quota.settled && quota.usage == None
    ensures quota != null ==> quota == held || fresh(quota)
  {
    step, quota := GoOn(s), held;
    var n := 0;
    assert script[0..] == script;
    while n < |script| && step.GoOn?
      invariant n <= |script|
      invariant Proceed(levels, script, stale, s) == Rest(levels, script, stale, n, step)
      invariant account.calls == Log(before, step.loop.trace)
      invariant !step.End? ==> (step.loop.held <==> quota != null)
      invariant !step.End? && quota != null ==> quota.account == account && !quota.settled && quota.usage == None
      invariant quota != null ==> quota == held || fresh(quota)
    {
      RestSteps(levels, script, stale, n, step.loop);
      step, quota := TryOnce(levels, script[n], step.loop, quota, account, before);
      n := n + 1;
    }
  }

  /**
   * Runs the loop against the environment's script, one entry an allowed attempt. `held` is a reservation
   * already made for the request, if any. A leader's flight is ended on every way out.
   */
  method CallUpstream(levels: seq<Level>, script: seq<Attempt>, stale: bool, held: QuotaSettlement?,
                      account: Account, leader: bool)
    returns (final: Final, flight: FlightEnd, released: bool)
    requires held != null ==> held.account == account && !held.settled && held.usage == None
    modifies account, held
    ensures final == Proceed(levels, script, stale, Begin(held != null))
    ensures account.calls == Log(old(account.calls), final.trace)
    ensures leader ==> released && flight == if final.result.Returned? then Resolved else Rejected
    ensures !leader ==> !released && flight == Open
  {
    ghost var before := account.calls;
    var step, quota := TryAll(levels, script, stale, Begin(held != null), held, account, before);
    if step.End? {
      final := Final(step.loop.trace, step.result);
    } else {
      final := Conclude(step.loop, stale, quota, account, before);
    }
    flight, released := LeaveFlight(leader, final.result.Returned?);
  }

  /** Resolve or reject, then release, all without an await in between. */
  method LeaveFlight(leader: bool, success: bool) returns (flight: FlightEnd, released: bool)
    ensures released == leader
    ensures flight == if !leader then Open else if success then Resolved else Rejected
  {
    flight, released := Open, false;
    if leader {
      flight := Set(flight, if success then Resolved else Rejected);
      released := true;
    }
  }

  // ---------------------------------------------------------------------------------------------
  // Properties of every script
  // ---------------------------------------------------------------------------------------------

  function Picks(trace: Trace): seq<Pick> {
    if trace.Empty? then []
    else if trace.event.Picked? then Picks(trace.before) + [trace.event.pick]
    else Picks(trace.before)
  }

  function Dispatches(trace: Trace): nat {
    if trace.Empty? then 0 else Dispatches(trace.before) + if trace.event.Dispatched? then 1 else 0
  }

  /** Usage settled as reported by an upstream. */
  function Charges(trace: Trace): seq<Usage> {
    if trace.Empty? then []
    else if trace.event.Settled? && trace.event.usage.Some? then Charges(trace.before) + [trace.event.usage.value]
    else Charges(trace.before)
  }

  /** Upstream calls settled without a report, which are charged the assumed usage. */
  function Guessed(trace: Trace): nat {
    if trace.Empty? then 0
    else Guessed(trace.before) + if trace.event == Settled(None) && JustDispatched(trace.before) then 1 else 0
  }

  predicate JustDispatched(trace: Trace) {
    trace.Then? && trace.event.Dispatched?
  }

  /** The reservation's life: none, waiting, or covering a call in flight; Broken once used out of turn. */
  datatype Cover = Uncovered | Waiting | InFlight | Broken

  function CoverStep(c: Cover, e: Event): Cover {
    match e
    case Picked(_) => c
    case Reserved(granted) => if !c.Uncovered? then Broken else if granted then Waiting else Uncovered
    case Dispatched(_) => if c.Waiting? then InFlight else Broken
    case Settled(usage) => if c.InFlight? || (c.Waiting? && usage.None?) then Uncovered else Broken
    case Refunded => if c.Waiting? then Uncovered else Broken
  }

  function CoverOf(start: Cover, trace: Trace): Cover {
    if trace.Empty? then start else CoverStep(CoverOf(start, trace.before), trace.event)
  }

  ghost predicate LoopInv(start: Cover, s: Loop, attempts: nat) {
    && CoverOf(start, s.trace) == (if s.held then Waiting else Uncovered)
    && Disciplined(Picks(s.trace))
    && (forall p :: p in Picks(s.trace) ==> p.deployment.Key() in s.exclude && p.level <= s.level)
    && |Picks(s.trace)| <= attempts && Dispatches(s.trace) <= attempts
    && Charges(s.trace) == [] && Guessed(s.trace) == Dispatches(s.trace)
  }

  ghost predicate FinalInv(start: Cover, f: Final, attempts: nat) {
    && CoverOf(start, f.trace) == (if f.result.Crashed? then InFlight else Uncovered)
    && Disciplined(Picks(f.trace))
    && |Picks(f.trace)| <= attempts && Dispatches(f.trace) <= attempts
    && Charges(f.trace) == (if f.result.Returned? then [f.result.usage] else [])
    && Guessed(f.trace) + (if f.result.Returned? || f.result.Crashed? then 1 else 0) == Dispatches(f.trace)
  }

  lemma ChosenKeepsInv(start: Cover, s: Loop, pick: Pick, granted: bool, attempts: nat)
    requires LoopInv(start, s, attempts) && s.level <= pick.level && pick.deployment.Key() !in s.exclude
    ensures LoopInv(start, Chosen(s, pick, granted), attempts + 1)
    ensures Dispatches(Chosen(s, pick, granted).trace) <= attempts
  {
    var picked := Then(s.trace, Picked(pick));
    assert Picks(picked) == Picks(s.trace) + [pick];
  }

  lemma FinishKeepsInv(start: Cover, s: Loop, stale: bool, attempts: nat)
    requires LoopInv(start, s, attempts)
    ensures FinalInv(start, Finish(s, stale), attempts)
  {
  }

  ghost predicate StepInv(start: Cover, step: Step, attempts: nat) {
    if step.End? then FinalInv(start, Final(step.loop.trace, step.result), attempts)
    else LoopInv(start, step.loop, attempts)
  }

  lemma ReactKeepsInv(start: Cover, c: Loop, pick: Pick, reply: Reply, degraded: bool, attempts: nat)
    requires LoopInv(start, c, attempts + 1) && c.held && Dispatches(c.trace) <= attempts
    ensures StepInv(start, React(c, pick, reply, degraded), attempts + 1)
  {
    var sent := Then(c.trace, Dispatched(pick));
    assert Picks(sent) == Picks(c.trace);
  }

  lemma IterateKeepsInv(levels: seq<Level>, a: Attempt, start: Cover, s: Loop, attempts: nat)
    requires LoopInv(start, s, attempts)
    ensures StepInv(start, Iterate(levels, a, s), attempts + 1)
  {
    match PickFrom(levels, a.offers, s.exclude, s.level) {
      case None =>
      case Some(pick) =>
        var granted := a.refusal.None?;
        ChosenKeepsInv(start, s, pick, granted, attempts);
        var c := Chosen(s, pick, granted);
        if c.held && a.starts {
          ReactKeepsInv(start, c, pick, a.reply, levels[pick.level].degraded, attempts);
        }
    }
  }

  lemma {:induction false} ProceedKeepsInv(levels: seq<Level>, script: seq<Attempt>, stale: bool, start: Cover, s: Loop,
                                           attempts: nat)
    requires LoopInv(start, s, attempts)
    ensures FinalInv(start, Proceed(levels, script, stale, s), attempts + |script|)
    decreases |script|
  {
    if script == [] {
      FinishKeepsInv(start, s, stale, attempts);
    } else {
      IterateKeepsInv(levels, script[0], start, s, attempts);
      match Iterate(levels, script[0], s) {
        case GoOn(after) => ProceedKeepsInv(levels, script[1..], stale, start, after, attempts + 1);
        case Break(after) => FinishKeepsInv(start, after, stale, attempts + |script|);
        case End(_, _) =>
      }
    }
  }

  /**
   * Attempts go to pairwise distinct deployments at levels that never fall back, each upstream call runs
   * under its own reservation, at most one reservation is open at any moment, none is left unless the
   * loop crashed, and there are no more dispatches than attempts allowed. Reported usage is charged for
   * the returned response and for nothing else; every other upstream call is charged assumed usage, once,
   * except one that crashes.
   */
  lemma RetryDiscipline(levels: seq<Level>, script: seq<Attempt>, stale: bool, held: bool)
    ensures var f := Proceed(levels, script, stale, Begin(held));
            && CoverOf(if held then Waiting else Uncovered, f.trace) == (if f.result.Crashed? then InFlight else Uncovered)
            && Disciplined(Picks(f.trace))
            && Dispatches(f.trace) <= |script|
            && Charges(f.trace) == (if f.result.Returned? then [f.result.usage] else [])
            && Guessed(f.trace) + (if f.result.Returned? || f.result.Crashed? then 1 else 0) == Dispatches(f.trace)
  {
    ProceedKeepsInv(levels, script, stale, if held then Waiting else Uncovered, Begin(held), 0);
  }

  function Length(trace: Trace): nat {
    if trace.Empty? then 0 else Length(trace.before) + 1
  }

  /** The first n events. */
  function Take(trace: Trace, n: nat): Trace {
    if n >= Length(trace) then trace else Take(trace.before, n)
  }

  /** Cover is never broken before a trace's end if it is not broken at the end. */
  lemma {:induction false} PrefixesAreCovered(start: Cover, trace: Trace, n: nat)
    requires !CoverOf(start, trace).Broken?
    ensures !CoverOf(start, Take(trace, n)).Broken?
  {
    if n >= Length(trace) {
    } else {
      PrefixesAreCovered(start, trace.before, n);
    }
  }

  /** Reservations settled without an upstream call to settle for. */
  function UnusedSettles(trace: Trace): nat {
    if trace.Empty? then 0
    else UnusedSettles(trace.before) + if trace.event.Settled? && !JustDispatched(trace.before) then 1 else 0
  }

  function Refunds(trace: Trace): nat {
    if trace.Empty? then 0 else Refunds(trace.before) + if trace.event.Refunded? then 1 else 0
  }

  lemma IterateReleasesNoUnused(levels: seq<Level>, a: Attempt, s: Loop)
    ensures UnusedSettles(Iterate(levels, a, s).loop.trace) == UnusedSettles(s.trace)
    ensures Refunds(Iterate(levels, a, s).loop.trace) == Refunds(s.trace)
    ensures Iterate(levels, a, s).End? ==> !Iterate(levels, a, s).result.Stale?
  {
    match PickFrom(levels, a.offers, s.exclude, s.level) {
      case None =>
      case Some(pick) =>
        var c := Chosen(s, pick, a.refusal.None?);
        assert UnusedSettles(Then(s.trace, Picked(pick))) == UnusedSettles(s.trace);
        assert Refunds(Then(s.trace, Picked(pick))) == Refunds(s.trace);
        assert UnusedSettles(Then(c.trace, Dispatched(pick))) == UnusedSettles(c.trace);
        assert Refunds(Then(c.trace, Dispatched(pick))) == Refunds(c.trace);
    }
  }

  /**
   * A reservation that no upstream call used is given back in full if a stale answer is served, and charged assumed
   * usage only if the request ends in an error; nothing else is ever refunded.
   */
  lemma {:induction false} UnusedIsRefundedIfStale(levels: seq<Level>, script: seq<Attempt>, stale: bool, s: Loop)
    ensures var f := Proceed(levels, script, stale, s);
            && (f.result.Stale? ==> UnusedSettles(f.trace) == UnusedSettles(s.trace))
            && (!f.result.Stale? ==> Refunds(f.trace) == Refunds(s.trace))
            && (stale && f.result.Raised? ==> UnusedSettles(f.trace) == UnusedSettles(s.trace))
    decreases |script|
  {
    if script == [] {
    } else {
      IterateReleasesNoUnused(levels, script[0], s);
      var step := Iterate(levels, script[0], s);
      if step.GoOn? {
        UnusedIsRefundedIfStale(levels, script[1..], stale, step.loop);
      }
    }
  }
}
