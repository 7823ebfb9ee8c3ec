/** The retry loops' quota calls, carried out against a tenant whose scripts may also be lost. */
module RequestLoops {
  import opened Common
  import opened Settlement
  import opened QuotaScripts
  import opened Reservations
  import opened RequestRuns
  import S = QuotaService
  import Attempts
  import NonStream
  import Routing
  import TokenBucket
  import Stream
  import StreamSafety

  /** A reserve comes where nothing is held, a release where something is. */
  predicate InTurn(calls: seq<QuotaCall>) {
    forall i :: 0 <= i < |calls| ==> TurnAt(calls, i)
  }

  predicate TurnAt(calls: seq<QuotaCall>, i: nat)
    requires i < |calls|
  {
    calls[i].Reserve? <==> !(i > 0 && calls[i - 1] == QuotaCall.Reserve(true))
  }

  predicate Holding(calls: seq<QuotaCall>) {
    calls != [] && calls[|calls| - 1] == QuotaCall.Reserve(true)
  }

  /** Redis answers every reserve, and every settle reaches it in the end. */
  predicate Reliable(steps: seq<Step>) {
    forall i :: 0 <= i < |steps| && steps[i].Own? ==>
                  match steps[i].call
                  case Asking(_, _, reply, _) => reply.Answered?
                  case Releasing(_, _, first, second) => S.Landed(first, second)
  }

  /** The log up to step n is the beginning of the whole log, and step n's call is the next in it. */
  lemma {:induction false} LogGrows(p: Plan, steps: seq<Step>, n: nat)
    requires n <= |steps|
    ensures Run(p, steps[..n]).log <= Run(p, steps).log
    ensures n < |steps| && steps[n].Own? ==>
              && |Run(p, steps[..n]).log| < |Run(p, steps).log|
              && Run(p, steps).log[|Run(p, steps[..n]).log|] == CallAt(p, steps, n)
    decreases |steps| - n
  {
    if n == |steps| {
      assert steps[..n] == steps;
    } else {
      LogGrows(p, steps, n + 1);
      assert steps[..n + 1][..n] == steps[..n];
    }
  }

  function CallAt(p: Plan, steps: seq<Step>, n: nat): QuotaCall
    requires n < |steps| && steps[n].Own?
  {
    match steps[n].call
    case Asking(_, _, _, _) => QuotaCall.Reserve(Granted(p, Run(p, steps[..n]).s, steps[n].call))
    case Releasing(c, _, _, _) => c
  }

  lemma {:induction false} LogStays(p: Plan, steps: seq<Step>, i: nat, m: nat)
    requires i < m <= |steps| && steps[i].Own? && NoneBetween(steps, i, m)
    ensures Run(p, steps[..m]).log == Run(p, steps[..i]).log + [CallAt(p, steps, i)]
  {
    assert steps[..m][..m - 1] == steps[..m - 1];
    if m == i + 1 {
    } else {
      LogStays(p, steps, i, m - 1);
    }
  }

  lemma {:induction false} NextOwn(steps: seq<Step>, i: nat, k: nat) returns (m: nat)
    requires i < k <= |steps|
    ensures i < m <= k && NoneBetween(steps, i, m) && (m < k ==> steps[m].Own?)
    decreases k - i
  {
    m := i + 1;
    while m < k && !steps[m].Own?
      invariant i < m <= k && NoneBetween(steps, i, m)
    {
      m := m + 1;
    }
  }

  /** What an answered reserve takes is made good by the request's next call, once that has been made. */
  lemma NextCallReleases(p: Plan, steps: seq<Step>, id: Id, calls: seq<QuotaCall>, i: nat, k: nat)
    requires OfRequest(steps, id) && InTurn(calls) && Run(p, steps).log <= calls && Reliable(steps)
    requires i < k <= |steps| && Takes(p, steps, i)
    requires if k < |steps| then Asks(steps, k) else !Holding(Run(p, steps).log)
    ensures Recovered(steps, id, i, k)
  {
    var m := NextOwn(steps, i, k);
    if m == |steps| {
      StillHolding(p, steps, i);
    } else {
      NextIsRelease(p, steps, calls, i, m);
      assert BelongsTo(steps[m], id);
      assert ReleasedAt(steps, i, m);
    }
  }

  lemma StillHolding(p: Plan, steps: seq<Step>, i: nat)
    requires Takes(p, steps, i) && steps[i].call.reply.Answered? && NoneBetween(steps, i, |steps|)
    ensures Holding(Run(p, steps).log)
  {
    LogStays(p, steps, i, |steps|);
    assert steps[..|steps|] == steps;
  }

  /** In turn, the call after a granted reserve is a release. */
  lemma NextIsRelease(p: Plan, steps: seq<Step>, calls: seq<QuotaCall>, i: nat, m: nat)
    requires InTurn(calls) && Run(p, steps).log <= calls
    requires i < m < |steps| && steps[i].Own? && steps[m].Own? && NoneBetween(steps, i, m)
    requires CallAt(p, steps, i) == QuotaCall.Reserve(true)
    ensures steps[m].call.Releasing?
  {
    var log := Run(p, steps[..i]).log;
    LogStays(p, steps, i, m);
    LogGrows(p, steps, m);
    assert Run(p, steps[..m]).log[|log|] == QuotaCall.Reserve(true);
    assert calls[|log|] == QuotaCall.Reserve(true);
    assert TurnAt(calls, |log| + 1);
  }

  /** While Redis is reliable, calls in turn reserve a free id every time, and leave nothing once all is released. */
  lemma ReliableRequest(p: Plan, steps: seq<Step>, id: Id, calls: seq<QuotaCall>)
    requires OfRequest(steps, id) && InTurn(calls) && Run(p, steps).log <= calls && Reliable(steps)
    ensures FreshBefore(p, steps, id, |steps|)
    ensures !Holding(Run(p, steps).log) ==> id !in Run(p, steps).s.held
  {
    forall i: nat, k: nat | i < k && Takes(p, steps, i) && Asks(steps, k)
      ensures Recovered(steps, id, i, k)
    {
      NextCallReleases(p, steps, id, calls, i, k);
    }
    FreshIff(p, steps, id);
    NothingLeftIff(p, steps, id);
    if !Holding(Run(p, steps).log) {
      forall i: nat | Takes(p, steps, i)
        ensures Recovered(steps, id, i, |steps|)
      {
        NextCallReleases(p, steps, id, calls, i, |steps|);
      }
    }
  }

  // ---------------------------------------------------------------------------------------------
  // The two loops
  // ---------------------------------------------------------------------------------------------

  /** The reservation that a loop may have been handed was made by the same request. */
  function Opening(held: bool): seq<QuotaCall> {
    if held then [QuotaCall.Reserve(true)] else []
  }

  function StartOf(held: bool): NonStream.Cover {
    if held then NonStream.Waiting else NonStream.Uncovered
  }

  lemma TurnTaken(calls: seq<QuotaCall>, c: QuotaCall)
    requires InTurn(calls) && (c.Reserve? <==> !Holding(calls))
    ensures InTurn(calls + [c]) && (Holding(calls + [c]) <==> c == QuotaCall.Reserve(true))
  {
    forall i | 0 <= i < |calls + [c]|
      ensures TurnAt(calls + [c], i)
    {
      assert i < |calls| ==> TurnAt(calls, i);
    }
  }

  /** The discipline of a non-streaming trace, read off the quota service's log. */
  lemma {:induction false} CoveredIsInTurn(trace: NonStream.Trace, held: bool)
    requires !NonStream.CoverOf(StartOf(held), trace).Broken?
    ensures InTurn(NonStream.Log(Opening(held), trace))
    ensures Holding(NonStream.Log(Opening(held), trace)) <==> !NonStream.CoverOf(StartOf(held), trace).Uncovered?
  {
    if trace.Empty? {
    } else {
      CoveredIsInTurn(trace.before, held);
      var log := NonStream.Log(Opening(held), trace.before);
      var calls := NonStream.CallOf(trace.event);
      assert NonStream.Log(Opening(held), trace) == log + calls;
      if calls == [] {
        assert log + calls == log;
      } else {
        assert calls == [calls[0]];
        TurnTaken(log, calls[0]);
      }
    }
  }

  /**
   * A non-streaming request amid everything else that happens to its tenant, each of its calls answered,
   * refused or lost. It reserves its id only while that is free iff each reserve that took the id was made
   * good before the next; with a reliable Redis it always does, and holds nothing at the end unless it
   * crashed.
   */
  lemma {:induction false} NonStreamRequest(p: Plan, steps: seq<Step>, id: Id, levels: seq<Attempts.Level>,
                                            script: seq<NonStream.Attempt>, stale: bool, held: bool)
    requires OfRequest(steps, id)
    requires var f := NonStream.Proceed(levels, script, stale, NonStream.Begin(held));
             Run(p, steps).log <= NonStream.Log(Opening(held), f.trace)
    ensures FreshBefore(p, steps, id, |steps|)
            <==> forall i: nat, k: nat :: i < k && Takes(p, steps, i) && Asks(steps, k) ==> Recovered(steps, id, i, k)
    ensures Reliable(steps) ==> FreshBefore(p, steps, id, |steps|)
    ensures var f := NonStream.Proceed(levels, script, stale, NonStream.Begin(held));
            Reliable(steps) && Run(p, steps).log == NonStream.Log(Opening(held), f.trace) && !f.result.Crashed? ==>
              id !in Run(p, steps).s.held
  {
    var f := NonStream.Proceed(levels, script, stale, NonStream.Begin(held));
    NonStream.RetryDiscipline(levels, script, stale, held);
    CoveredIsInTurn(f.trace, held);
    FreshIff(p, steps, id);
    if Reliable(steps) {
      ReliableRequest(p, steps, id, NonStream.Log(Opening(held), f.trace));
    }
  }

  /** The same for a streaming request, whichever way its stream ends. */
  lemma {:induction false} StreamRequest(p: Plan, steps: seq<Step>, id: Id, o: Stream.Options, script: seq<Stream.Attempt>,
                                         exclude: set<Routing.Key>, level: nat)
    requires OfRequest(steps, id)
    requires var f := StreamSafety.Handle(o, script, exclude, level);
             Run(p, steps).log <= Stream.AfterRelease(Opening(o.first.Some?), o, f)
    ensures FreshBefore(p, steps, id, |steps|)
            <==> forall i: nat, k: nat :: i < k && Takes(p, steps, i) && Asks(steps, k) ==> Recovered(steps, id, i, k)
    ensures Reliable(steps) ==> FreshBefore(p, steps, id, |steps|)
    ensures var f := StreamSafety.Handle(o, script, exclude, level);
            Reliable(steps) && Run(p, steps).log == Stream.AfterRelease(Opening(o.first.Some?), o, f) ==>
              id !in Run(p, steps).s.held
  {
    var f := StreamSafety.Handle(o, script, exclude, level);
    var calls := Stream.AfterRelease(Opening(o.first.Some?), o, f);
    if o.first.Some? {
      StreamSafety.FirstStaysHeld(o, script, 0, Stream.Begin(o, exclude, level));
    }
    assert InTurn(calls) && !Holding(calls);
    FreshIff(p, steps, id);
    if Reliable(steps) {
      ReliableRequest(p, steps, id, calls);
    }
  }

  // ---------------------------------------------------------------------------------------------
  // Two runs that leak
  // ---------------------------------------------------------------------------------------------

  const PLAN := Plan(60, 1000, 2, 100)

  const USAGE := S.Usage(5, 5, 10)

  function Ask(id: Id, reply: S.Reply): Step {
    Own(Asking(Req(id), S.Estimate(5, 10, 7), reply, true))
  }

  function Release(c: QuotaCall, first: S.Reply): Step {
    Own(Releasing(c, S.Prices(0.0, 0.0), first, S.Answered))
  }

  /** A request's calls, first reservation included, when one upstream call fails and the next one answers. */
  function RetriedCalls(): seq<QuotaCall> {
    [QuotaCall.Reserve(true), QuotaCall.Settle(None, 0), QuotaCall.Reserve(true), QuotaCall.Settle(Some(USAGE), 5)]
  }

  lemma RetryMakesTheseCalls(first: Routing.Deployment, second: Routing.Deployment)
    requires first.Key() != second.Key()
    ensures var levels := [Attempts.Level([first, second], false)];
            var script := [NonStream.Attempt([Some(first)], None, true, NonStream.Fails(Attempts.RetryableUpstream)),
                           NonStream.Attempt([Some(second)], None, true, NonStream.Answers(USAGE))];
            var f := NonStream.Proceed(levels, script, false, NonStream.Begin(true));
            NonStream.Log(Opening(true), f.trace) == RetriedCalls()
  {
    var levels := [Attempts.Level([first, second], false)];
    var a := NonStream.Attempt([Some(first)], None, true, NonStream.Fails(Attempts.RetryableUpstream));
    var b := NonStream.Attempt([Some(second)], None, true, NonStream.Answers(USAGE));
    var s := NonStream.Begin(true);
    assert Attempts.Offer(levels, a.offers, {}, 0) == Some(first);
    var step := NonStream.Iterate(levels, a, s);
    assert Attempts.Offer(levels, b.offers, step.loop.exclude, 0) == Some(second);
    var last := NonStream.Iterate(levels, b, step.loop);
    assert NonStream.Proceed(levels, [a, b], false, s) == NonStream.Proceed(levels, [b], false, step.loop);
    var failed, answered := step.loop.trace, last.loop.trace;
    var picked := NonStream.Then(NonStream.Empty, NonStream.Picked(Attempts.Pick(0, first)));
    assert failed.before.before == picked;
    assert NonStream.Log(Opening(true), picked) == [QuotaCall.Reserve(true)];
    assert NonStream.Log(Opening(true), failed) == [QuotaCall.Reserve(true), QuotaCall.Settle(None, 0)];
    assert NonStream.Log(Opening(true), answered.before.before)
           == [QuotaCall.Reserve(true), QuotaCall.Settle(None, 0), QuotaCall.Reserve(true)];
    assert NonStream.Log(Opening(true), answered) == RetriedCalls();
  }

  lemma OneMore(p: Plan, steps: seq<Step>, step: Step)
    ensures Run(p, steps + [step]) == After(p, Run(p, steps), step)
  {
    assert (steps + [step])[..|steps|] == steps;
  }

  function Req(id: Id): Request {
    Request(0, id, 1000, 10, 7, "m")
  }

  function Level(conc: nat, held: Table, deadlines: map<Id, int>, rpm: real, tpm: real, budget: int): Tenant {
    Tenant(Bucket(rpm, 0, 60), Bucket(tpm, 0, 1000), conc, map["m" := budget], deadlines, held)
  }

  function Entry(id: Id): Table {
    map[id := Reservation(10, 7, "m")]
  }

  /** The tenant after one admission, after a second over the same id, and after a settle. */
  lemma TwiceReserved(id: Id)
    ensures Decide(EMPTY, PLAN, Req(id)).Admitted?
    ensures QuotaScripts.Reserve(EMPTY, PLAN, Req(id)) == Level(1, Entry(id), map[id := 1000], 59.0, 990.0, 93)
    ensures var once := Level(1, Entry(id), map[id := 1000], 59.0, 990.0, 93);
            && Decide(once, PLAN, Req(id)).Admitted?
            && QuotaScripts.Reserve(once, PLAN, Req(id)) == Level(2, Entry(id), map[id := 1000], 58.0, 980.0, 86)
    ensures QuotaScripts.Settle(Level(2, Entry(id), map[id := 1000], 58.0, 980.0, 86), id, 10, 0)
            == Level(1, map[], map[], 58.0, 980.0, 93)
  {
    assert TokenBucket.Accrual(0.0, PerSecond(60) / 1000.0) == 0.0;
    assert TokenBucket.Accrual(0.0, PerSecond(1000) / 1000.0) == 0.0;
    assert Entry(id)[id := Reservation(10, 7, "m")] == Entry(id);
    assert Entry(id) - {id} == map[];
    assert map[id := 1000] - {id} == map[];
    assert map["m" := 100]["m" := 93] == map["m" := 93] && map["m" := 93]["m" := 86] == map["m" := 86];
    assert map["m" := 93]["m" := 93] == map["m" := 93] && map["m" := 86]["m" := 93] == map["m" := 93];
  }

  /**
   * Nothing is reserved any more, nothing is left for a sweep to find, and 10 tokens were used at no price; yet
   * the counter stands at one, 20 tokens are gone, and so is the 7 of the overwritten entry from the month's 100.
   */
  predicate Leaked(s: Tenant) {
    && s.held == map[] && s.deadlines == map[] && s.conc == 1
    && s.tpm == Bucket(980.0, 0, 1000) && s.budget == map["m" := 93]
  }

  /** The lost attempt: its reserve or its settle goes missing on the way to or from Redis. */
  function LostAttempt(id: Id, settleLost: bool): seq<Step> {
    [Ask(id, if settleLost then S.Answered else S.TimedOut(true)),
     Release(QuotaCall.Settle(None, 0), if settleLost then S.TimedOut(false) else S.Answered)]
  }

  lemma LostAttemptRuns(id: Id, settleLost: bool)
    ensures Run(PLAN, LostAttempt(id, settleLost))
            == State(Level(1, Entry(id), map[id := 1000], 59.0, 990.0, 93), None,
                     [QuotaCall.Reserve(true), QuotaCall.Settle(None, 0)])
  {
    var steps := LostAttempt(id, settleLost);
    TwiceReserved(id);
    OneMore(PLAN, [], steps[0]);
    OneMore(PLAN, [steps[0]], steps[1]);
    assert [] + [steps[0]] == [steps[0]] && [steps[0]] + [steps[1]] == steps;
  }

  lemma NextAttemptRuns(id: Id, steps: seq<Step>, log: seq<QuotaCall>)
    requires Run(PLAN, steps) == State(Level(1, Entry(id), map[id := 1000], 59.0, 990.0, 93), None, log)
    ensures Run(PLAN, steps + [Ask(id, S.Answered)] + [Release(QuotaCall.Settle(Some(USAGE), 5), S.Answered)])
            == State(Level(1, map[], map[], 58.0, 980.0, 93), None,
                     log + [QuotaCall.Reserve(true)] + [QuotaCall.Settle(Some(USAGE), 5)])
  {
    TwiceReserved(id);
    OneMore(PLAN, steps, Ask(id, S.Answered));
    OneMore(PLAN, steps + [Ask(id, S.Answered)], Release(QuotaCall.Settle(Some(USAGE), 5), S.Answered));
    assert S.ActualBudget(USAGE, S.Prices(0.0, 0.0)) == 0;
  }

  /**
   * Either the first settle is lost, or the first reserve runs although its answer is lost. The loop reserves
   * again over the entry, and the second settle removes it for both.
   */
  lemma LostCallsLeak(id: Id, settleLost: bool)
    ensures var steps := LostAttempt(id, settleLost)
                         + [Ask(id, S.Answered)] + [Release(QuotaCall.Settle(Some(USAGE), 5), S.Answered)];
            && OfRequest(steps, id) && Run(PLAN, steps).log == RetriedCalls()
            && !FreshBefore(PLAN, steps, id, |steps|)
            && Leaked(Run(PLAN, steps).s)
  {
    var lost := LostAttempt(id, settleLost);
    var steps := lost + [Ask(id, S.Answered)] + [Release(QuotaCall.Settle(Some(USAGE), 5), S.Answered)];
    LostAttemptRuns(id, settleLost);
    NextAttemptRuns(id, lost, Run(PLAN, lost).log);
    assert steps[..2] == lost && Asks(steps, 2);
  }
}
