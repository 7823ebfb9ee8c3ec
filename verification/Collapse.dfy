/**
 * Identical cacheable requests sharing one exact-match cache entry and one flight. Every step lies
 * between two awaits of the request handler, so any interleaving of steps is a possible run.
 */
module Collapse {
  import opened Common
  import opened SingleFlight

  type Response = nat

  /** Whether the leader's response reached the cache; it may also have been refused or lost. */
  datatype Storing = NotYet | Stored | Skipped

  datatype Phase =
    | Start
    | Missed
    | Following(flight: nat)
    | Leading(flight: nat)
    | HitAgain(flight: nat, r: Response)
    | MissedAgain(flight: nat)
    | Calling(flight: nat)
    | Answered(flight: nat, r: Response, storing: Storing, resolved: bool)
    | Abandoned(flight: nat)
    | FallbackCalling
    | FallbackAnswered(r: Response)
    | Done(r: Response)
    | Failed

  datatype Holder = Holder(flight: nat, owner: nat)

  /**
   * calls: upstream calls made; lapses: leader failures, responses not stored, expiries; fallbacks:
   * followers that stopped waiting; filled: a leader's response is in the cache; first: the first answer.
   */
  datatype World = World(
    phases: seq<Phase>,
    cache: Option<Response>,
    flights: seq<Outcome<Response>>,
    current: Option<Holder>,
    calls: nat,
    lapses: nat,
    fallbacks: nat,
    filled: bool,
    first: Option<Response>)

  datatype Action =
    | Lookup(i: nat)
    | Acquire(i: nat)
    | Join(i: nat)
    | Recheck(i: nat)
    | Publish(i: nat)
    | Call(i: nat)
    | Answer(i: nat, r: Response)
    | Store(i: nat)
    | Resolve(i: nat)
    | Release(i: nat)
    // departures from the smooth course
    | SkipStore(i: nat)
    | FailLeader(i: nat)
    // cancelled during the second lookup or the refund after it, or before a stream's first step
    | Abandon(i: nat)
    | FallBack(i: nat)
    | FallbackAnswer(i: nat, r: Response)
    | FallbackFinish(i: nat, stored: bool)
    | FallbackFail(i: nat)
    | Expire(i: nat)

  function Initial(n: nat): World {
    World(seq(n, _ => Start), None, [], None, 0, 0, 0, false, None)
  }

  predicate Enabled(w: World, a: Action) {
    a.i < |w.phases| &&
    var p := w.phases[a.i];
    match a
    case Lookup(_) => p.Start?
    case Acquire(_) => p.Missed?
    case Join(_) => p.Following? && p.flight < |w.flights| && w.flights[p.flight].Resolved?
    case Recheck(_) => p.Leading?
    case Publish(_) => p.HitAgain?
    case Call(_) => p.MissedAgain?
    case Answer(_, _) => p.Calling?
    case Store(_) => p.Answered? && p.storing.NotYet?
    case Resolve(_) => p.Answered? && !p.resolved
    case Release(_) => p.Answered? && !p.storing.NotYet? && p.resolved
    case SkipStore(_) => p.Answered? && p.storing.NotYet?
    case FailLeader(_) => p.Calling?
    case Abandon(_) => p.Leading? || p.HitAgain? || p.MissedAgain?
    case FallBack(_) => p.Following?
    case FallbackAnswer(_, _) => p.FallbackCalling?
    case FallbackFinish(_, _) => p.FallbackAnswered?
    case FallbackFail(_) => p.FallbackCalling?
    case Expire(_) => w.cache.Some?
  }

  function SetOnce(flights: seq<Outcome<Response>>, f: nat, o: Outcome<Response>): seq<Outcome<Response>> {
    if f < |flights| && flights[f].Pending? then flights[f := o] else flights
  }

  function Next(w: World, a: Action): World
    requires Enabled(w, a)
  {
    var i, p := a.i, w.phases[a.i];
    match a
    case Lookup(_) => w.(phases := w.phases[i := if w.cache.Some? then Done(w.cache.value) else Missed])
    case Acquire(_) =>
      if w.current.Some? then w.(phases := w.phases[i := Following(w.current.value.flight)])
      else w.(phases := w.phases[i := Leading(|w.flights|)], flights := w.flights + [Pending],
              current := Some(Holder(|w.flights|, i)))
    case Join(_) => w.(phases := w.phases[i := Done(w.flights[p.flight].value)])
    case Recheck(_) =>
      w.(phases := w.phases[i := if w.cache.Some? then HitAgain(p.flight, w.cache.value) else MissedAgain(p.flight)])
    case Publish(_) =>
      w.(phases := w.phases[i := Done(p.r)], flights := SetOnce(w.flights, p.flight, Resolved(p.r)), current := None)
    case Call(_) => w.(phases := w.phases[i := Calling(p.flight)], calls := w.calls + 1)
    case Answer(_, r) =>
      w.(phases := w.phases[i := Answered(p.flight, r, NotYet, false)], first := if w.first.Some? then w.first else Some(r))
    case Store(_) => w.(phases := w.phases[i := p.(storing := Stored)], cache := Some(p.r), filled := true)
    case Resolve(_) =>
      w.(phases := w.phases[i := p.(resolved := true)], flights := SetOnce(w.flights, p.flight, Resolved(p.r)))
    case Release(_) => w.(phases := w.phases[i := Done(p.r)], current := None)
    case SkipStore(_) => w.(phases := w.phases[i := p.(storing := Skipped)], lapses := w.lapses + 1)
    case FailLeader(_) =>
      w.(phases := w.phases[i := Failed], flights := SetOnce(w.flights, p.flight, Rejected), current := None,
         lapses := w.lapses + 1)
    case Abandon(_) => w.(phases := w.phases[i := Abandoned(p.flight)])
    case FallBack(_) =>
      w.(phases := w.phases[i := FallbackCalling], calls := w.calls + 1, fallbacks := w.fallbacks + 1)
    case FallbackAnswer(_, r) =>
      w.(phases := w.phases[i := FallbackAnswered(r)], first := if w.first.Some? then w.first else Some(r))
    case FallbackFinish(_, stored) =>
      w.(phases := w.phases[i := Done(p.r)], cache := if stored then Some(p.r) else w.cache)
    case FallbackFail(_) => w.(phases := w.phases[i := Failed])
    case Expire(_) => w.(cache := None, filled := false, lapses := w.lapses + 1)
  }

  ghost predicate IsRun(n: nat, actions: seq<Action>)
    decreases |actions|, 0
  {
    actions == [] ||
    (IsRun(n, actions[..|actions| - 1]) && Enabled(Run(n, actions[..|actions| - 1]), actions[|actions| - 1]))
  }

  ghost function Run(n: nat, actions: seq<Action>): World
    requires IsRun(n, actions)
    decreases |actions|, 1
  {
    if actions == [] then Initial(n) else Next(Run(n, actions[..|actions| - 1]), actions[|actions| - 1])
  }

  predicate Leads(p: Phase) {
    p.Leading? || p.HitAgain? || p.MissedAgain? || p.Calling? || p.Answered? || p.Abandoned?
  }

  /** The flight is held by exactly the one request that leads. */
  ghost predicate OneLeader(w: World) {
    && (w.current.Some? ==> w.current.value.owner < |w.phases| && Leads(w.phases[w.current.value.owner]))
    && forall i :: 0 <= i < |w.phases| && Leads(w.phases[i]) ==> w.current == Some(Holder(w.phases[i].flight, i))
  }

  /** One upstream call is paid for by a stored response or by a leader that can still store one. */
  ghost function Credit(w: World): nat
    requires OneLeader(w)
  {
    if w.filled then 1
    else if w.current.None? then 0
    else
      var p := w.phases[w.current.value.owner];
      if p.Calling? || (p.Answered? && p.storing.NotYet?) then 1 else 0
  }

  ghost predicate Bounded(w: World) {
    && OneLeader(w)
    && (w.filled ==> w.cache.Some?)
    && (forall i :: 0 <= i < |w.phases| && (w.phases[i].MissedAgain? || w.phases[i].Calling?) ==> !w.filled)
    && w.calls <= w.lapses + w.fallbacks + Credit(w)
  }

  /** The steps by which a flight is taken and given back. */
  predicate MovesFlight(a: Action) {
    a.Acquire? || a.Publish? || a.Release? || a.FailLeader?
  }

  lemma FlightMoves(w: World, a: Action)
    requires OneLeader(w) && Enabled(w, a) && MovesFlight(a)
    ensures OneLeader(Next(w, a))
  {
  }

  lemma FlightStays(w: World, a: Action)
    requires OneLeader(w) && Enabled(w, a) && !MovesFlight(a)
    ensures OneLeader(Next(w, a)) && Next(w, a).current == w.current
  {
    var p, p' := w.phases[a.i], Next(w, a).phases[a.i];
    assert Leads(p) == Leads(p') && (Leads(p) ==> p.flight == p'.flight);
  }

  /** Whatever the step, at most one request leads, and it holds the flight. */
  lemma StepKeepsOneLeader(w: World, a: Action)
    requires OneLeader(w) && Enabled(w, a)
    ensures OneLeader(Next(w, a))
  {
    if MovesFlight(a) {
      FlightMoves(w, a);
    } else {
      FlightStays(w, a);
    }
  }

  lemma StepKeepsBounded(w: World, a: Action)
    requires Bounded(w) && Enabled(w, a)
    ensures Bounded(Next(w, a))
  {
    StepKeepsOneLeader(w, a);
    var w' := Next(w, a);
    assert Leads(w.phases[a.i]) ==> w.current == Some(Holder(w.phases[a.i].flight, a.i));
  }

  lemma {:induction false} RunIsBounded(n: nat, actions: seq<Action>)
    requires IsRun(n, actions)
    ensures Bounded(Run(n, actions)) && |Run(n, actions).phases| == n
  {
    if actions == [] {
    } else {
      RunIsBounded(n, actions[..|actions| - 1]);
      StepKeepsBounded(Run(n, actions[..|actions| - 1]), actions[|actions| - 1]);
    }
  }

  /** Nothing more will happen to a request. */
  predicate Over(p: Phase) {
    p.Done? || p.Failed? || p.Abandoned?
  }

  /**
   * When all requests are over, their flight has been given back exactly if no leader was cancelled between
   * taking it and calling upstream.
   */
  lemma FlightComesBackIff(n: nat, actions: seq<Action>)
    requires IsRun(n, actions) && forall i :: 0 <= i < |Run(n, actions).phases| ==> Over(Run(n, actions).phases[i])
    ensures Run(n, actions).current.None? <==>
              forall i :: 0 <= i < |Run(n, actions).phases| ==> !Run(n, actions).phases[i].Abandoned?
  {
    RunIsBounded(n, actions);
    OnlyAbandonedHold(Run(n, actions));
  }

  lemma OnlyAbandonedHold(w: World)
    requires OneLeader(w) && forall i :: 0 <= i < |w.phases| ==> Over(w.phases[i])
    ensures w.current.None? <==> forall i :: 0 <= i < |w.phases| ==> !w.phases[i].Abandoned?
  {
    if w.current.Some? {
      assert w.phases[w.current.value.owner].Abandoned?;
    }
  }

  lemma OneMore(n: nat, actions: seq<Action>, a: Action)
    requires IsRun(n, actions) && Enabled(Run(n, actions), a)
    ensures IsRun(n, actions + [a]) && Run(n, actions + [a]) == Next(Run(n, actions), a)
  {
    assert (actions + [a])[..|actions|] == actions;
  }

  /** One request whose leader is cancelled before it calls: all is over, and the flight is still taken. */
  lemma CancelledLeaderKeepsFlight()
    ensures var actions := [Lookup(0)] + [Acquire(0)] + [Abandon(0)];
            && IsRun(1, actions)
            && Run(1, actions).phases == [Abandoned(0)] && Run(1, actions).current == Some(Holder(0, 0))
  {
    assert [] + [Lookup(0)] == [Lookup(0)];
    OneMore(1, [], Lookup(0));
    OneMore(1, [Lookup(0)], Acquire(0));
    OneMore(1, [Lookup(0)] + [Acquire(0)], Abandon(0));
  }

  /**
   * Such a leader keeps the flight for good: from then on nobody leads and no follower is answered, so that
   * requests end by the cache or by an upstream call of their own.
   */
  lemma {:induction false} AbandonedKeepsFlight(n: nat, actions: seq<Action>, i: nat, m: nat)
    requires IsRun(n, actions) && m <= |actions| && IsRun(n, actions[..m])
    requires i < |Run(n, actions[..m]).phases| && Run(n, actions[..m]).phases[i].Abandoned?
    ensures i < |Run(n, actions).phases| && Run(n, actions).phases[i] == Run(n, actions[..m]).phases[i]
    ensures Run(n, actions).current == Some(Holder(Run(n, actions).phases[i].flight, i))
    decreases |actions|
  {
    RunIsBounded(n, actions);
    if m == |actions| {
      assert actions[..m] == actions;
    } else {
      var init := actions[..|actions| - 1];
      assert init[..m] == actions[..m];
      AbandonedKeepsFlight(n, init, i, m);
      RunIsBounded(n, init);
      AbandonedStays(Run(n, init), actions[|actions| - 1], i);
    }
  }

  lemma AbandonedStays(w: World, a: Action, i: nat)
    requires OneLeader(w) && Enabled(w, a) && i < |w.phases| && w.phases[i].Abandoned?
    ensures Next(w, a).phases[i] == w.phases[i] && Next(w, a).current == w.current
  {
  }

  /** Only the flight in hand is pending. */
  ghost predicate OnlyCurrentPends(w: World) {
    && (forall f :: 0 <= f < |w.flights| && w.flights[f].Pending? ==> w.current.Some? && w.current.value.flight == f)
    && (w.current.Some? ==> w.current.value.flight < |w.flights|)
    && (forall i :: 0 <= i < |w.phases| && w.phases[i].Following? ==> w.phases[i].flight < |w.flights|)
  }

  lemma StepKeepsPending(w: World, a: Action)
    requires OneLeader(w) && OnlyCurrentPends(w) && Enabled(w, a)
    requires a.Release? ==> w.phases[a.i].flight < |w.flights| && !w.flights[w.phases[a.i].flight].Pending?
    ensures OnlyCurrentPends(Next(w, a))
  {
  }

  /** An answer said to be resolved is. */
  ghost predicate ResolvedAre(w: World) {
    forall i :: 0 <= i < |w.phases| && w.phases[i].Answered? && w.phases[i].resolved ==>
                  w.phases[i].flight < |w.flights| && !w.flights[w.phases[i].flight].Pending?
  }

  lemma StepKeepsResolved(w: World, a: Action)
    requires OneLeader(w) && OnlyCurrentPends(w) && ResolvedAre(w) && Enabled(w, a)
    ensures ResolvedAre(Next(w, a))
  {
  }

  /**
   * In every interleaving a follower waits only for a flight that its leader still has in hand: whatever became of
   * the leader, its answer or its failure has reached the flight by the time it lets go of it.
   */
  lemma {:induction false} FlightsAreSettled(n: nat, actions: seq<Action>)
    requires IsRun(n, actions)
    ensures OnlyCurrentPends(Run(n, actions)) && ResolvedAre(Run(n, actions))
  {
    RunIsBounded(n, actions);
    if actions == [] {
    } else {
      var init, a := actions[..|actions| - 1], actions[|actions| - 1];
      FlightsAreSettled(n, init);
      RunIsBounded(n, init);
      StepKeepsPending(Run(n, init), a);
      StepKeepsResolved(Run(n, init), a);
    }
  }

  /** In every interleaving, each upstream call beyond the first is the price of one lapse or one fallback. */
  lemma CallsBounded(n: nat, actions: seq<Action>)
    requires IsRun(n, actions)
    ensures Run(n, actions).calls <= 1 + Run(n, actions).lapses + Run(n, actions).fallbacks
  {
    RunIsBounded(n, actions);
  }

  // ---------------------------------------------------------------------------------------------
  // Smooth runs: the leader succeeds and stores, nothing expires, no follower gives up
  // ---------------------------------------------------------------------------------------------

  predicate Smooth(a: Action) {
    !(a.SkipStore? || a.FailLeader? || a.Abandon? || a.FallBack? || a.FallbackAnswer? || a.FallbackFinish? || a.FallbackFail?
      || a.Expire?)
  }

  predicate SmoothPhase(p: Phase) {
    !(p.FallbackCalling? || p.FallbackAnswered? || p.Failed? || p.Abandoned? || (p.Answered? && p.storing.Skipped?))
  }

  /** Every response in sight is the first answer. */
  predicate Shows(p: Phase, first: Option<Response>) {
    p.HitAgain? || p.Answered? || p.Done? ==> first == Some(p.r)
  }

  /** Nothing but the first answer is ever seen, in a phase or in the cache. */
  ghost predicate OneAnswer(w: World) {
    && (forall i :: 0 <= i < |w.phases| ==> SmoothPhase(w.phases[i]) && Shows(w.phases[i], w.first))
    && (w.cache.Some? ==> w.filled && w.cache == w.first)
  }

  /** There is an answer only once there was a call, and a call only while there is no answer. */
  ghost predicate OneCall(w: World) {
    && (w.first.Some? ==> 1 <= w.calls)
    && (forall i :: 0 <= i < |w.phases| && w.phases[i].Answered? && w.phases[i].storing.Stored? ==> w.filled)
    && (forall i :: 0 <= i < |w.phases| && w.phases[i].Calling? ==> 1 <= w.calls && w.first.None?)
    && (forall i :: 0 <= i < |w.phases| && w.phases[i].MissedAgain? ==> w.first.None?)
  }

  /** A flight is pending only as long as its leader has it in hand, and then brings the first answer. */
  ghost predicate FlightsLand(w: World) {
    && (forall i :: 0 <= i < |w.phases| && w.phases[i].Following? ==> w.phases[i].flight < |w.flights|)
    && (forall f :: 0 <= f < |w.flights| ==> !w.flights[f].Rejected?
                                             && (w.flights[f].Resolved? ==> w.first == Some(w.flights[f].value)))
    && (forall f :: 0 <= f < |w.flights| && w.flights[f].Pending? ==>
                      w.current.Some? && w.current.value.flight == f
                      && w.current.value.owner < |w.phases|
                      && !(var p := w.phases[w.current.value.owner]; p.Answered? && p.resolved))
    && (w.current.Some? ==> w.current.value.flight < |w.flights|)
  }

  ghost predicate SmoothWorld(w: World) {
    Bounded(w) && w.lapses == 0 && w.fallbacks == 0 && OneAnswer(w) && OneCall(w) && FlightsLand(w)
  }

  lemma StepKeepsOneAnswer(w: World, a: Action)
    requires SmoothWorld(w) && Enabled(w, a) && Smooth(a)
    ensures OneAnswer(Next(w, a))
  {
  }

  lemma StepKeepsOneCall(w: World, a: Action)
    requires SmoothWorld(w) && Enabled(w, a) && Smooth(a)
    ensures OneCall(Next(w, a))
  {
  }

  lemma StepKeepsFlightsLanding(w: World, a: Action)
    requires SmoothWorld(w) && Enabled(w, a) && Smooth(a)
    ensures FlightsLand(Next(w, a))
  {
    StepKeepsOneLeader(w, a);
  }

  lemma StepStaysSmooth(w: World, a: Action)
    requires SmoothWorld(w) && Enabled(w, a) && Smooth(a)
    ensures SmoothWorld(Next(w, a))
  {
    StepKeepsBounded(w, a);
    StepKeepsOneAnswer(w, a);
    StepKeepsOneCall(w, a);
    StepKeepsFlightsLanding(w, a);
  }

  function Rank(p: Phase): nat {
    match p
    case Start => 0
    case Missed => 1
    case Leading(_) => 2
    case HitAgain(_, _) => 3
    case MissedAgain(_) => 3
    case Calling(_) => 4
    case Answered(_, _, storing, resolved) => 5 + (if storing.NotYet? then 0 else 1) + if resolved then 1 else 0
    case Following(_) => 7
    case _ => 8
  }

  ghost function Progress(phases: seq<Phase>): nat {
    if phases == [] then 0 else Progress(phases[..|phases| - 1]) + Rank(phases[|phases| - 1])
  }

  lemma {:induction false} ProgressUpdate(phases: seq<Phase>, i: nat, p: Phase)
    requires i < |phases|
    ensures Progress(phases[i := p]) == Progress(phases) - Rank(phases[i]) + Rank(p)
  {
    var n := |phases| - 1;
    if i == n {
      assert phases[i := p][..n] == phases[..n];
    } else {
      assert phases[i := p][..n] == phases[..n][i := p];
      ProgressUpdate(phases[..n], i, p);
    }
  }

  lemma {:induction false} ProgressBound(phases: seq<Phase>)
    ensures Progress(phases) <= 8 * |phases|
  {
    if phases == [] {
    } else {
      ProgressBound(phases[..|phases| - 1]);
    }
  }

  lemma SmoothStepProgresses(w: World, a: Action)
    requires Enabled(w, a) && Smooth(a)
    ensures Progress(w.phases) < Progress(Next(w, a).phases)
  {
    ProgressUpdate(w.phases, a.i, Next(w, a).phases[a.i]);
  }

  /** As long as some request is not done, some smooth step can be taken. */
  lemma SmoothNeverStuck(w: World, i: nat) returns (a: Action)
    requires SmoothWorld(w) && i < |w.phases| && !w.phases[i].Done?
    ensures Enabled(w, a) && Smooth(a)
  {
    var p := w.phases[i];
    match p {
      case Start => a := Lookup(i);
      case Missed => a := Acquire(i);
      case Following(f) =>
        if w.flights[f].Resolved? {
          a := Join(i);
        } else {
          a := LeaderStep(w, w.current.value.owner);
        }
      case _ => a := LeaderStep(w, i);
    }
  }

  lemma LeaderStep(w: World, i: nat) returns (a: Action)
    requires i < |w.phases| && Leads(w.phases[i]) && SmoothPhase(w.phases[i])
    ensures Enabled(w, a) && Smooth(a)
  {
    match w.phases[i] {
      case Leading(_) => a := Recheck(i);
      case HitAgain(_, _) => a := Publish(i);
      case MissedAgain(_) => a := Call(i);
      case Calling(_) => a := Answer(i, 0);
      case Answered(_, _, storing, resolved) =>
        a := if storing.NotYet? then Store(i) else if !resolved then Resolve(i) else Release(i);
    }
  }

  ghost predicate SmoothRun(n: nat, actions: seq<Action>) {
    IsRun(n, actions) && forall k :: 0 <= k < |actions| ==> Smooth(actions[k])
  }

  lemma {:induction false} SmoothRunStaysSmooth(n: nat, actions: seq<Action>)
    requires SmoothRun(n, actions)
    ensures SmoothWorld(Run(n, actions)) && |Run(n, actions).phases| == n
    ensures |actions| <= Progress(Run(n, actions).phases)
  {
    if actions == [] {
    } else {
      var init, a := actions[..|actions| - 1], actions[|actions| - 1];
      assert forall k :: 0 <= k < |init| ==> init[k] == actions[k];
      SmoothRunStaysSmooth(n, init);
      StepStaysSmooth(Run(n, init), a);
      SmoothStepProgresses(Run(n, init), a);
    }
  }

  /** A smooth run takes at most eight steps a request. */
  lemma SmoothRunsEnd(n: nat, actions: seq<Action>)
    requires SmoothRun(n, actions)
    ensures |actions| <= 8 * n
  {
    SmoothRunStaysSmooth(n, actions);
    ProgressBound(Run(n, actions).phases);
  }

  /**
   * When a smooth run can go no further, all requests have their response, it is the same one, and
   * exactly one upstream call was made.
   */
  lemma ExactlyOneCall(n: nat, actions: seq<Action>)
    requires 0 < n && SmoothRun(n, actions)
    requires forall a :: Smooth(a) ==> !Enabled(Run(n, actions), a)
    ensures Run(n, actions).calls == 1
    ensures Run(n, actions).first.Some? && |Run(n, actions).phases| == n
    ensures forall i :: 0 <= i < n ==> Run(n, actions).phases[i] == Done(Run(n, actions).first.value)
  {
    SmoothRunStaysSmooth(n, actions);
    var w := Run(n, actions);
    forall i | 0 <= i < n
      ensures w.phases[i].Done?
    {
      if !w.phases[i].Done? {
        var a := SmoothNeverStuck(w, i);
      }
    }
    assert Shows(w.phases[0], w.first);
  }

  /** At every moment of a smooth run, whoever has a response has the one answer of the one call. */
  lemma AtMostOneCall(n: nat, actions: seq<Action>, i: nat)
    requires SmoothRun(n, actions) && i < n
    ensures var w := Run(n, actions);
            w.calls <= 1 && i < |w.phases| && (w.phases[i].Done? ==> w.calls == 1 && w.first == Some(w.phases[i].r))
  {
    SmoothRunStaysSmooth(n, actions);
    assert Shows(Run(n, actions).phases[i], Run(n, actions).first);
  }
}
