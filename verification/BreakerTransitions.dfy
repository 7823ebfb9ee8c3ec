/** Exactly when the breaker changes its state, and for how long it then refuses, told from the run before. */
module BreakerTransitions {
  import opened Common
  import opened Breaker
  import opened BreakerRuns

  /** Calls are refused up to this instant, and admitted from it on. */
  ghost predicate RefusesUntil(c: Config, b: Breaker, until: real) {
    forall t :: Admits(c, Refresh(b, t)) <==> until <= t
  }

  /** The cooldown of the next opening: the base, doubled for every opening since the last close, up to the maximum. */
  function NextCooldown(c: Config, t: Track): real {
    Min(c.cooldownMaxS, Scaled(c.cooldownS, Pow2(|t.cooldowns|)))
  }

  /** Enough outcomes, and enough failures among them. */
  predicate Trips(c: Config, outcomes: seq<bool>) {
    && outcomes != [] && c.minSamples <= |outcomes|
    && c.failureRate <= multiset(outcomes)[false] as real / |outcomes| as real
  }

  /**
   * A closed breaker opens iff the outcome completes a window of the log that trips it, and stays closed otherwise;
   * a call on a closed breaker is always admitted.
   */
  lemma ClosedOpensIff(c: Config, events: seq<Event>, success: bool, now: real)
    requires 1 <= c.windowSize && 1 <= c.probes && Run(c, events).b.state.Closed?
    ensures var t, t' := Run(c, events), After(c, Run(c, events), Recording(success, now));
            && (forall at :: Admits(c, Refresh(t.b, at)))
            && if Trips(c, LastN(t.log + [success], c.windowSize))
               then t'.b.state.Open? && RefusesUntil(c, t'.b, now + NextCooldown(c, t))
               else t'.b.state.Closed?
  {
    RunKeepsInvariants(c, events);
    LastNExtends(Run(c, events).log, success, c.windowSize);
    FailuresAreCounted(LastN(Run(c, events).log + [success], c.windowSize));
  }

  /** An open breaker is moved by no result, however late; it turns half-open when its time has come. */
  lemma OpenWaits(c: Config, events: seq<Event>, e: Event)
    requires 1 <= c.windowSize && 1 <= c.probes && Run(c, events).b.state.Open?
    ensures var t, t' := Run(c, events), After(c, Run(c, events), e);
            && RefusesUntil(c, t.b, t.b.openUntil)
            && (e.Recording? ==> t'.b.state.Open? && t'.b.openUntil == t.b.openUntil)
            && (e.Refreshing? || e.Allowing? ==>
                  if t.b.openUntil <= e.now then t'.b.state.HalfOpen?
                  else t'.b == t.b)
  {
  }

  /** A forced opening refuses for the time given, whatever the state, and for none if that is negative. */
  lemma ForcedRefusesFor(c: Config, events: seq<Event>, now: real, remaining: real)
    requires 1 <= c.windowSize && 1 <= c.probes
    ensures var t' := After(c, Run(c, events), Forcing(now, remaining));
            t'.b.state.Open? && RefusesUntil(c, t'.b, now + Max(0.0, remaining))
  {
  }

  /** The results recorded since HALF_OPEN was last entered. */
  function Episode(c: Config, events: seq<Event>): seq<bool>
    requires 1 <= c.windowSize
  {
    if events == [] || !Run(c, events).b.state.HalfOpen? then []
    else
      var init, last := events[..|events| - 1], events[|events| - 1];
      if !Run(c, init).b.state.HalfOpen? then []
      else if last.Recording? then Episode(c, init) + [last.success]
      else Episode(c, init)
  }

  /** In HALF_OPEN every result so far was a success, and there were fewer of them than probes. */
  lemma {:induction false} EpisodeSucceeds(c: Config, events: seq<Event>)
    requires 1 <= c.windowSize && 1 <= c.probes && Run(c, events).b.state.HalfOpen?
    ensures |Episode(c, events)| == Run(c, events).b.successes < c.probes
    ensures forall r :: r in Episode(c, events) ==> r
  {
    RunKeepsInvariants(c, events);
    if events == [] {
    } else {
      var init := events[..|events| - 1];
      if Run(c, init).b.state.HalfOpen? {
        EpisodeSucceeds(c, init);
      } else {
        RunKeepsInvariants(c, init);
      }
    }
  }

  /**
   * A half-open breaker closes, forgetting what it counted, iff this is the last of `probes` successes with no
   * failure among them; a failure opens it again for the next cooldown; nothing else but a forced opening moves it.
   */
  lemma HalfOpenMovesIff(c: Config, events: seq<Event>, e: Event)
    requires 1 <= c.windowSize && 1 <= c.probes && Run(c, events).b.state.HalfOpen?
    ensures var t, t' := Run(c, events), After(c, Run(c, events), e);
            && (t'.b.state.Closed? <==> e.Recording? && e.success && |Episode(c, events)| + 1 == c.probes)
            && (t'.b.state.Closed? ==> t'.b.window == [] && t'.cooldowns == [])
            && (t'.b.state.Open? <==> e.Forcing? || (e.Recording? && !e.success))
            && (e.Recording? && !e.success ==> RefusesUntil(c, t'.b, e.now + NextCooldown(c, t)))
  {
    EpisodeSucceeds(c, events);
    RunKeepsInvariants(c, events);
  }
}
