/** What the circuit breaker promises over every run of calls, results and forced openings. */
module BreakerRuns {
  import opened Common
  import opened Breaker

  /** Results may come late, overlap, or belong to calls of an earlier episode. */
  datatype Event =
    | Refreshing(now: real)
    | Allowing(now: real)
    | Recording(success: bool, now: real)
    | Forcing(now: real, remaining: real)

  /**
   * admitted: calls let through since HALF_OPEN was last entered; log: outcomes recorded outside
   * HALF_OPEN since the last close; cooldowns: how long each opening since the last close was to last.
   */
  datatype Track = Track(b: Breaker, admitted: nat, log: seq<bool>, cooldowns: seq<real>)

  const START := Track(FRESH, 0, [], [])

  function After(c: Config, t: Track, e: Event): Track
    requires 1 <= c.windowSize
  {
    match e
    case Refreshing(now) =>
      var b' := Refresh(t.b, now);
      t.(b := b', admitted := if t.b.state.Open? && b'.state.HalfOpen? then 0 else t.admitted)
    case Allowing(now) =>
      var r := Refresh(t.b, now);
      var before := if t.b.state.Open? && r.state.HalfOpen? then 0 else t.admitted;
      t.(b := Allow(c, t.b, now), admitted := before + if Admits(c, r) then 1 else 0)
    case Recording(success, now) =>
      var b' := Record(c, t.b, success, now);
      var log := if t.b.state.HalfOpen? then t.log else t.log + [success];
      if t.b.state.HalfOpen? && b'.state.Closed? then Track(b', t.admitted, [], [])
      else if !t.b.state.Open? && b'.state.Open? then Track(b', t.admitted, log, t.cooldowns + [b'.openUntil - now])
      else Track(b', t.admitted, log, t.cooldowns)
    case Forcing(now, remaining) => t.(b := ForceOpen(t.b, now, remaining))
  }

  function Run(c: Config, events: seq<Event>): Track
    requires 1 <= c.windowSize
  {
    if events == [] then START else After(c, Run(c, events[..|events| - 1]), events[|events| - 1])
  }

  /** The number of probes is what the half-open counters are bounded by. */
  ghost predicate HalfOpenBounded(c: Config, t: Track) {
    if t.b.state.HalfOpen? then
      && 0 <= t.b.inflight <= c.probes && 0 <= t.b.successes < c.probes
      && t.admitted <= t.b.inflight + t.b.successes
    else t.b.inflight == 0 && t.b.successes == 0
  }

  /** The bounded deque is a view of the whole log, and it explains why the breaker is closed. */
  ghost predicate WindowRefines(c: Config, t: Track) {
    && t.b.window == LastN(t.log, c.windowSize)
    && (t.b.state.Closed? ==> t.b.window == [] || !ShouldOpen(c, t.b.window))
  }

  ghost predicate CooldownsEscalate(c: Config, t: Track) {
    && t.b.openCount == |t.cooldowns|
    && forall k :: 0 <= k < |t.cooldowns| ==> t.cooldowns[k] == Cooldown(c, k + 1)
  }

  lemma LastNExtends(log: seq<bool>, x: bool, n: nat)
    requires 1 <= n
    ensures LastN(LastN(log, n) + [x], n) == LastN(log + [x], n)
  {
  }

  lemma StepKeepsHalfOpen(c: Config, t: Track, e: Event)
    requires 1 <= c.windowSize && 1 <= c.probes && HalfOpenBounded(c, t)
    ensures HalfOpenBounded(c, After(c, t, e))
  {
  }

  lemma StepKeepsWindow(c: Config, t: Track, e: Event)
    requires 1 <= c.windowSize && WindowRefines(c, t)
    ensures WindowRefines(c, After(c, t, e))
  {
    if e.Recording? {
      RecordKeepsWindow(c, t, e);
    }
  }

  lemma {:induction false} RecordKeepsWindow(c: Config, t: Track, e: Event)
    requires 1 <= c.windowSize && WindowRefines(c, t) && e.Recording?
    ensures WindowRefines(c, After(c, t, e))
  {
    LastNExtends(t.log, e.success, c.windowSize);
  }

  lemma StepKeepsCooldowns(c: Config, t: Track, e: Event)
    requires 1 <= c.windowSize && CooldownsEscalate(c, t)
    ensures CooldownsEscalate(c, After(c, t, e))
  {
    if e.Recording? {
      var b' := Record(c, t.b, e.success, e.now);
      if !t.b.state.Open? && b'.state.Open? {
        assert b'.openCount == t.b.openCount + 1;
        assert b'.openUntil - e.now == Cooldown(c, t.b.openCount + 1);
      }
    }
  }

  lemma {:induction false} RunKeepsInvariants(c: Config, events: seq<Event>)
    requires 1 <= c.windowSize && 1 <= c.probes
    ensures var t := Run(c, events); HalfOpenBounded(c, t) && WindowRefines(c, t) && CooldownsEscalate(c, t)
  {
    if events == [] {
    } else {
      var t, e := Run(c, events[..|events| - 1]), events[|events| - 1];
      RunKeepsInvariants(c, events[..|events| - 1]);
      StepKeepsHalfOpen(c, t, e);
      StepKeepsWindow(c, t, e);
      StepKeepsCooldowns(c, t, e);
    }
  }

  /**
   * However results arrive, one HALF_OPEN episode lets at most 2 * probes - 1 calls through, and both
   * counters stay within their bounds and are zero outside HALF_OPEN.
   */
  lemma HalfOpenBound(c: Config, events: seq<Event>)
    requires 1 <= c.windowSize && 1 <= c.probes
    ensures var t := Run(c, events);
            if t.b.state.HalfOpen? then
              && 0 <= t.b.inflight <= c.probes && 0 <= t.b.successes < c.probes
              && t.admitted <= 2 * c.probes - 1
            else t.b.inflight == 0 && t.b.successes == 0
  {
    RunKeepsInvariants(c, events);
  }

  /** n probes are let in, then successes and further probes alternate m times. */
  function Burst(n: nat, m: nat, now: real): seq<Event> {
    if m > 0 then Burst(n, m - 1, now) + [Recording(true, now), Allowing(now)]
    else if n > 0 then Burst(n - 1, 0, now) + [Allowing(now)]
    else [Forcing(now, 0.0), Refreshing(now)]
  }

  lemma RunAppend(c: Config, events: seq<Event>, e: Event)
    requires 1 <= c.windowSize
    ensures Run(c, events + [e]) == After(c, Run(c, events), e)
  {
    assert (events + [e])[..|events|] == events;
  }

  ghost predicate Probing(c: Config, t: Track, n: nat, m: nat) {
    t.b.state.HalfOpen? && t.b.inflight == n && t.b.successes == m && t.admitted == n + m
  }

  lemma ProbingSteps(c: Config, t: Track, n: nat, m: nat, now: real)
    requires 1 <= c.windowSize && Probing(c, t, n, m)
    ensures n < c.probes ==> Probing(c, After(c, t, Allowing(now)), n + 1, m)
    ensures n == c.probes && m + 1 < c.probes ==>
              Probing(c, After(c, After(c, t, Recording(true, now)), Allowing(now)), n, m + 1)
  {
  }

  lemma {:induction false} BurstAdmits(c: Config, n: nat, m: nat, now: real)
    requires 1 <= c.windowSize && n <= c.probes && m < c.probes && (m > 0 ==> n == c.probes)
    ensures Probing(c, Run(c, Burst(n, m, now)), n, m)
    decreases m, n
  {
    if m > 0 {
      var before := Burst(n, m - 1, now);
      BurstAdmits(c, n, m - 1, now);
      ProbingSteps(c, Run(c, before), n, m - 1, now);
      RunAppend(c, before, Recording(true, now));
      RunAppend(c, before + [Recording(true, now)], Allowing(now));
      assert Burst(n, m, now) == before + [Recording(true, now)] + [Allowing(now)];
    } else if n > 0 {
      BurstAdmits(c, n - 1, 0, now);
      ProbingSteps(c, Run(c, Burst(n - 1, 0, now)), n - 1, 0, now);
      RunAppend(c, Burst(n - 1, 0, now), Allowing(now));
    } else {
      RunAppend(c, [], Forcing(now, 0.0));
      RunAppend(c, [Forcing(now, 0.0)], Refreshing(now));
      assert Burst(0, 0, now) == [] + [Forcing(now, 0.0)] + [Refreshing(now)];
      assert [] + [Forcing(now, 0.0)] == [Forcing(now, 0.0)];
    }
  }

  /** The bound is attained for every number of probes. */
  lemma HalfOpenBoundIsTight(c: Config)
    requires 1 <= c.windowSize && 1 <= c.probes
    ensures exists events :: Run(c, events).b.state.HalfOpen? && Run(c, events).admitted == 2 * c.probes - 1
  {
    BurstAdmits(c, c.probes, c.probes - 1, 0.0);
  }

  /** window holds too few outcomes, or too few failures among them, to open the breaker. */
  ghost predicate FewFailed(c: Config, window: seq<bool>) {
    |window| < c.minSamples
    || (window != [] ==> multiset(window)[false] as real / |window| as real < c.failureRate)
  }

  /** window is the last n outcomes of the log, or all of them. */
  ghost predicate EndOf(window: seq<bool>, log: seq<bool>, n: int) {
    && |window| == MinInt(|log|, n)
    && forall i :: 0 <= i < |window| ==> window[i] == log[|log| - |window| + i]
  }

  lemma {:induction false} FewFailures(c: Config, window: seq<bool>)
    requires window != [] && !ShouldOpen(c, window)
    ensures FewFailed(c, window)
  {
    FailuresAreCounted(window);
  }

  lemma {:induction false} LastOnes(log: seq<bool>, n: nat)
    ensures EndOf(LastN(log, n), log, n)
  {
  }

  lemma {:induction false} FailuresAreCounted(window: seq<bool>)
    ensures Failures(window) == multiset(window)[false]
  {
    if window == [] {
    } else {
      var n := |window| - 1;
      FailuresAreCounted(window[..n]);
      assert window == window[..n] + [window[n]];
    }
  }

  /** The window is the end of the log, and in CLOSED holds too few outcomes or too few failures to open. */
  ghost predicate RecentLog(c: Config, t: Track) {
    EndOf(t.b.window, t.log, c.windowSize) && (t.b.state.Closed? && t.b.window != [] ==> FewFailed(c, t.b.window))
  }

  lemma {:induction false} RefinedWindow(c: Config, t: Track)
    requires WindowRefines(c, t)
    ensures RecentLog(c, t)
  {
    LastOnes(t.log, c.windowSize);
    if t.b.window != [] && !ShouldOpen(c, t.b.window) {
      FewFailures(c, t.b.window);
    }
  }

  /** The window is the last windowSize outcomes outside HALF_OPEN since the last close, and justifies CLOSED. */
  lemma {:induction false} WindowIsRecentLog(c: Config, events: seq<Event>)
    requires 1 <= c.windowSize && 1 <= c.probes
    ensures RecentLog(c, Run(c, events)) && Run(c, events).b.window == LastN(Run(c, events).log, c.windowSize)
  {
    RunKeepsInvariants(c, events);
    RefinedWindow(c, Run(c, events));
  }

  lemma {:induction false} Pow2Grows(n: nat, m: nat)
    requires n <= m
    ensures 0.0 < Pow2(n) <= Pow2(m)
  {
    if n < m {
      Pow2Grows(n, m - 1);
    } else if n > 0 {
      Pow2Grows(n - 1, n - 1);
    }
  }

  lemma ScaleMonotone(a: real, b: real, c: real)
    requires a <= b && 0.0 <= c
    ensures Scaled(c, a) <= Scaled(c, b)
  {
  }

  /** Openings without a close between them last min(max, base * 2^(k-1)), never less than the one before. */
  lemma CooldownsNeverShrink(c: Config, events: seq<Event>, i: nat, j: nat)
    requires 1 <= c.windowSize && 1 <= c.probes && 0.0 <= c.cooldownS
    requires i <= j < |Run(c, events).cooldowns|
    ensures var cooldowns := Run(c, events).cooldowns;
            && cooldowns[j] == Min(c.cooldownMaxS, Scaled(c.cooldownS, Pow2(j)))
            && cooldowns[i] <= cooldowns[j]
  {
    RunKeepsInvariants(c, events);
    Pow2Grows(i, j);
    ScaleMonotone(Pow2(i), Pow2(j), c.cooldownS);
    assert MaxInt(0, j + 1 - 1) == j && MaxInt(0, i + 1 - 1) == i;
  }

  /** The first opening since a close lasts the base, and each one after it twice as long, up to the maximum. */
  lemma {:induction false} CooldownsDouble(c: Config, events: seq<Event>, i: nat)
    requires 1 <= c.windowSize && 1 <= c.probes && 0.0 <= c.cooldownS && 0.0 <= c.cooldownMaxS
    requires i < |Run(c, events).cooldowns|
    ensures var cooldowns := Run(c, events).cooldowns;
            && cooldowns[0] == Min(c.cooldownMaxS, c.cooldownS)
            && (0 < i ==> cooldowns[i] == Min(c.cooldownMaxS, 2.0 * cooldowns[i - 1]))
  {
    RunKeepsInvariants(c, events);
    var cooldowns := Run(c, events).cooldowns;
    assert cooldowns[0] == Cooldown(c, 0 + 1) && cooldowns[i] == Cooldown(c, i + 1);
    FirstCooldown(c);
    if 0 < i {
      assert cooldowns[i - 1] == Cooldown(c, (i - 1) + 1);
      CooldownDoubles(c, i);
    }
  }

  lemma {:induction false} FirstCooldown(c: Config)
    requires 0.0 <= c.cooldownS
    ensures Cooldown(c, 1) == Min(c.cooldownMaxS, c.cooldownS)
  {
    assert Scaled(c.cooldownS, 1.0) == c.cooldownS;
  }

  lemma {:induction false} CooldownDoubles(c: Config, i: nat)
    requires 0.0 <= c.cooldownS && 0.0 <= c.cooldownMaxS && 0 < i
    ensures Cooldown(c, i + 1) == Min(c.cooldownMaxS, 2.0 * Cooldown(c, i))
  {
    assert MaxInt(0, i + 1 - 1) == i && MaxInt(0, i - 1) == i - 1;
    Pow2Grows(0, i - 1);
    ScaledTwice(c.cooldownS, Pow2(i - 1));
  }

  lemma ScaledTwice(a: real, factor: real)
    requires 0.0 <= a && 0.0 < factor
    ensures Scaled(a, 2.0 * factor) == 2.0 * Scaled(a, factor) && 0.0 <= Scaled(a, factor)
  {
  }

  /** Each time one call is allowed and then reported successful. */
  function Probed(c: Config, b: Breaker, times: seq<real>): Breaker
    requires 1 <= c.windowSize
  {
    if times == [] then b
    else
      var now := times[|times| - 1];
      Record(c, Allow(c, Probed(c, b, times[..|times| - 1]), now), true, now)
  }

  lemma {:induction false} ProbesCount(c: Config, b: Breaker, times: seq<real>)
    requires 1 <= c.windowSize && 1 <= c.probes && 1 <= |times| <= c.probes
    requires b.state.Open? && b.openUntil <= times[0]
    ensures var b' := Probed(c, b, times);
            if |times| < c.probes then b'.state.HalfOpen? && b'.inflight == 0 && b'.successes == |times|
            else b' == b.(state := Closed, window := [], openCount := 0, inflight := 0, successes := 0)
    ensures |times| < c.probes ==> Probed(c, b, times).(state := Open, successes := b.successes, inflight := b.inflight) == b
  {
    if |times| > 1 {
      ProbesCount(c, b, times[..|times| - 1]);
    } else {
      assert Probed(c, b, times[..0]) == b;
    }
  }

  /** After its cooldown the breaker closes again on exactly the last of `probes` successful probes. */
  lemma RecoversAfterProbes(c: Config, b: Breaker, times: seq<real>)
    requires 1 <= c.windowSize && 1 <= c.probes && 1 <= |times| <= c.probes
    requires b.state.Open? && b.openUntil <= times[0]
    ensures Probed(c, b, times).state.Closed? <==> |times| == c.probes
    ensures |times| == c.probes ==> Probed(c, b, times).window == [] && Probed(c, b, times).openCount == 0
  {
    ProbesCount(c, b, times);
  }
}
