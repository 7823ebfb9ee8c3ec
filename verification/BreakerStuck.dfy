/**
 * Probes that end without a verdict: an aborted or rate-limited call records nothing with the breaker, and
 * keeps its slot.
 */
module BreakerStuck {
  import opened Common
  import opened Breaker
  import opened BreakerRuns

  /** All probe slots are taken. */
  predicate Stuck(c: Config, b: Breaker) {
    b.state.HalfOpen? && c.probes <= b.inflight
  }

  /** Only such a breaker refuses at every instant: a closed one admits, an open one when its time has come. */
  lemma StuckNeverAdmits(c: Config, b: Breaker)
    requires 1 <= c.probes
    ensures Stuck(c, b) <==> forall now :: !Admits(c, Refresh(b, now))
  {
    if !Stuck(c, b) {
      var due := if b.state.Open? then b.openUntil else 0.0;
      assert Admits(c, Refresh(b, due));
    }
  }

  /** What ends a call with a verdict, and what overrides the breaker from outside. */
  predicate Frees(e: Event) {
    e.Recording? || e.Forcing?
  }

  lemma StuckStep(c: Config, t: Track, e: Event)
    requires 1 <= c.windowSize && 1 <= c.probes && HalfOpenBounded(c, t) && Stuck(c, t.b)
    ensures Stuck(c, After(c, t, e).b) <==> !Frees(e)
    ensures !Frees(e) ==> After(c, t, e).b == t.b
  {
  }

  /**
   * Once stuck, a breaker refuses every call until the first recorded result or forced opening, however much
   * time passes, and either of these frees it.
   */
  lemma {:induction false} StuckUntilFreed(c: Config, before: seq<Event>, more: seq<Event>)
    requires 1 <= c.windowSize && 1 <= c.probes && Stuck(c, Run(c, before).b)
    ensures (forall e :: e in more ==> !Frees(e)) ==> Run(c, before + more).b == Run(c, before).b
    ensures more != [] && Frees(more[|more| - 1]) && (forall e :: e in more[..|more| - 1] ==> !Frees(e)) ==>
              !Stuck(c, Run(c, before + more).b)
  {
    if more == [] {
      assert before + more == before;
    } else {
      var init, last := more[..|more| - 1], more[|more| - 1];
      assert more == init + [last];
      assert before + more == before + init + [last];
      StuckUntilFreed(c, before, init);
      RunAppend(c, before + init, last);
      RunKeepsInvariants(c, before + init);
      if forall e :: e in init ==> !Frees(e) {
        StuckStep(c, Run(c, before + init), last);
      }
    }
  }

  /** As many probes as there are slots, none of them ever recorded. */
  lemma StuckIsReached(c: Config)
    requires 1 <= c.windowSize && 1 <= c.probes
    ensures exists events: seq<Event> ::
              Stuck(c, Run(c, events).b) && forall e: Event :: e in events ==> !e.Recording?
  {
    BurstAdmits(c, c.probes, 0, 0.0);
    BurstRecordsNothing(c.probes);
    assert Stuck(c, Run(c, Burst(c.probes, 0, 0.0)).b);
  }

  lemma {:induction false} BurstRecordsNothing(n: nat)
    ensures forall e: Event :: e in Burst(n, 0, 0.0) ==> !e.Recording?
  {
    if n == 0 {
    } else {
      BurstRecordsNothing(n - 1);
    }
  }
}
