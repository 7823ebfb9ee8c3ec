/** Per-deployment routing statistics and the power-of-two-choices selector over them. */
module Routing {
  import opened Common
  import B = Breaker

  type Key = (string, string)

  datatype Deployment = Deployment(
    provider: string,
    upstreamModel: string,
    weight: int,
    priceIn: real,
    priceOut: real)
  {
    function Key(): Key {
      (provider, upstreamModel)
    }
  }

  datatype Stats = Stats(
    ttft: real,
    errorRate: real,
    ttftInitialized: bool,
    errorRateInitialized: bool,
    inflight: int,
    cooldownUntil: real)

  const NO_STATS := Stats(0.0, 0.0, false, false, 0, 0.0)

  datatype Settings = Settings(breaker: B.Config, alpha: real, slowTtft: real)

  /** Missing entries read as the freshly created ones that the state puts there. */
  datatype Table = Table(stats: map<Key, Stats>, breakers: map<Key, B.Breaker>) {
    function StatsFor(k: Key): Stats {
      MapOr(stats, k, NO_STATS)
    }

    function BreakerFor(k: Key): B.Breaker {
      MapOr(breakers, k, B.FRESH)
    }
  }

  function Weighted(w: real, x: real): real {
    w * x
  }

  lemma WeightedGrows(w: real, less: real, more: real)
    requires 0.0 <= w && less <= more
    ensures Weighted(w, less) <= Weighted(w, more)
    ensures 0.0 < w && less < more ==> Weighted(w, less) < Weighted(w, more)
  {
  }

  function Ewma(current: real, sample: real, alpha: real, initialized: bool): real {
    if !initialized then sample else Weighted(alpha, sample) + Weighted(1.0 - alpha, current)
  }

  /** An average stays between whatever bounds its samples. */
  lemma EwmaBetween(current: real, sample: real, alpha: real, initialized: bool, low: real, high: real)
    requires 0.0 <= alpha <= 1.0 && low <= current <= high && low <= sample <= high
    ensures low <= Ewma(current, sample, alpha, initialized) <= high
  {
    WeightedGrows(alpha, low, sample);
    WeightedGrows(alpha, sample, high);
    WeightedGrows(1.0 - alpha, low, current);
    WeightedGrows(1.0 - alpha, current, high);
    assert Weighted(alpha, low) + Weighted(1.0 - alpha, low) == low;
    assert Weighted(alpha, high) + Weighted(1.0 - alpha, high) == high;
  }

  /** The first sample is taken as it is; each later one moves the average by its share of the difference. */
  lemma EwmaMoves(current: real, sample: real, alpha: real)
    ensures Ewma(current, sample, alpha, false) == sample
    ensures Ewma(current, sample, alpha, true) - current == alpha * (sample - current)
  {
    assert Weighted(alpha, sample) == alpha * sample;
    assert Weighted(1.0 - alpha, current) == current - alpha * current;
  }

  predicate Sane(s: Stats) {
    0 <= s.inflight && 0.0 <= s.errorRate <= 1.0
  }

  /** record_finish's effect on a deployment's statistics, and the verdict it passes to the breaker. */
  function Finished(settings: Settings, s: Stats, success: bool, ttft: Option<real>): Stats {
    s.(inflight := MaxInt(0, s.inflight - 1),
       ttft := if ttft.Some? then Ewma(s.ttft, ttft.value, settings.alpha, s.ttftInitialized) else s.ttft,
       ttftInitialized := s.ttftInitialized || ttft.Some?,
       errorRate := Ewma(s.errorRate, if Verdict(settings, success, ttft) then 0.0 else 1.0, settings.alpha,
                         s.errorRateInitialized),
       errorRateInitialized := true)
  }

  /** A slow first token counts as a failure. */
  predicate Verdict(settings: Settings, success: bool, ttft: Option<real>) {
    success && !(ttft.Some? && ttft.value > settings.slowTtft)
  }

  lemma FinishedIsSane(settings: Settings, s: Stats, success: bool, ttft: Option<real>)
    requires 0.0 <= settings.alpha <= 1.0 && Sane(s)
    ensures Sane(Finished(settings, s, success, ttft))
  {
    EwmaBetween(s.errorRate, if Verdict(settings, success, ttft) then 0.0 else 1.0, settings.alpha,
                s.errorRateInitialized, 0.0, 1.0);
  }

  /** One finished call: whether it succeeded, and how long its first token took if one came. */
  datatype Outcome = Outcome(success: bool, ttft: Option<real>)

  function AllFinished(settings: Settings, outcomes: seq<Outcome>): Stats {
    if outcomes == [] then NO_STATS
    else
      var last := outcomes[|outcomes| - 1];
      Finished(settings, AllFinished(settings, outcomes[..|outcomes| - 1]), last.success, last.ttft)
  }

  /** Succeeded, and not slow. */
  predicate Good(settings: Settings, o: Outcome) {
    o.success && (o.ttft.None? || o.ttft.value <= settings.slowTtft)
  }

  /** Calls that all succeed in time leave an error rate of 0; calls that all fail or are slow, one of 1. */
  lemma {:induction false} ErrorRateEnds(settings: Settings, outcomes: seq<Outcome>)
    requires outcomes != []
    ensures AllFinished(settings, outcomes).errorRateInitialized
    ensures (forall o :: o in outcomes ==> Good(settings, o)) ==> AllFinished(settings, outcomes).errorRate == 0.0
    ensures (forall o :: o in outcomes ==> !Good(settings, o)) ==> AllFinished(settings, outcomes).errorRate == 1.0
  {
    var n := |outcomes| - 1;
    var before, bad := AllFinished(settings, outcomes[..n]), if Good(settings, outcomes[n]) then 0.0 else 1.0;
    assert outcomes[n] in outcomes && forall o :: o in outcomes[..n] ==> o in outcomes;
    EwmaMoves(before.errorRate, bad, settings.alpha);
    if n == 0 {
    } else {
      ErrorRateEnds(settings, outcomes[..n]);
      if (forall o :: o in outcomes ==> Good(settings, o)) || (forall o :: o in outcomes ==> !Good(settings, o)) {
        assert before.errorRate == bad;
      }
    }
  }

  /**
   * A finished call gives back its place; its first-token time, if there was one, moves the average by its share,
   * and is the average if it is the first; a call without one leaves that average alone.
   */
  lemma FinishLearns(c: B.Config, settings: Settings, t: Table, d: Deployment, now: real, o: Outcome)
    requires Sane(t.StatsFor(d.Key())) && B.Admits(c, B.Refresh(t.BreakerFor(d.Key()), now))
    ensures var s := t.StatsFor(d.Key());
            var f := Finished(settings, Started(c, t, d, now).StatsFor(d.Key()), o.success, o.ttft);
            && f.inflight == s.inflight && f.cooldownUntil == s.cooldownUntil
            && (o.ttft.None? ==> f.ttft == s.ttft && f.ttftInitialized == s.ttftInitialized)
            && (o.ttft.Some? ==>
                  && f.ttftInitialized
                  && if s.ttftInitialized then f.ttft - s.ttft == settings.alpha * (o.ttft.value - s.ttft)
                     else f.ttft == o.ttft.value)
  {
    if o.ttft.Some? {
      EwmaMoves(t.StatsFor(d.Key()).ttft, o.ttft.value, settings.alpha);
    }
  }

  function Started(c: B.Config, t: Table, d: Deployment, now: real): Table {
    var b, s := t.BreakerFor(d.Key()), t.StatsFor(d.Key());
    Table(if B.Admits(c, B.Refresh(b, now)) then t.stats[d.Key() := s.(inflight := s.inflight + 1)] else t.stats,
          t.breakers[d.Key() := B.Allow(c, b, now)])
  }

  function Aborted(t: Table, d: Deployment): Table {
    var s := t.StatsFor(d.Key());
    t.(stats := t.stats[d.Key() := s.(inflight := MaxInt(0, s.inflight - 1))])
  }

  function RateLimited(t: Table, d: Deployment, retryAfterS: real, now: real): Table {
    var s := t.StatsFor(d.Key());
    t.(stats := t.stats[d.Key() := s.(inflight := MaxInt(0, s.inflight - 1),
                                      cooldownUntil := Max(s.cooldownUntil, now + retryAfterS))])
  }

  /**
   * Aborting or rate-limiting a started call takes back its place in the statistics, and extends the cooldown
   * at most; with the breaker the call stays counted, in HALF_OPEN as one more probe in flight.
   */
  lemma UnrecordedCallKeepsSlot(c: B.Config, t: Table, d: Deployment, now: real, retryAfterS: real, later: real)
    requires Sane(t.StatsFor(d.Key())) && B.Admits(c, B.Refresh(t.BreakerFor(d.Key()), now))
    ensures var key, b := d.Key(), B.Refresh(t.BreakerFor(d.Key()), now);
            var aborted, limited := Aborted(Started(c, t, d, now), d), RateLimited(Started(c, t, d, now), d, retryAfterS, later);
            && aborted.StatsFor(key) == t.StatsFor(key)
            && limited.StatsFor(key).(cooldownUntil := t.StatsFor(key).cooldownUntil) == t.StatsFor(key)
            && t.StatsFor(key).cooldownUntil <= limited.StatsFor(key).cooldownUntil
            && aborted.BreakerFor(key) == limited.BreakerFor(key)
               == (if b.state.HalfOpen? then b.(inflight := b.inflight + 1) else b)
  {
  }

  class RoutingState {
    const settings: Settings
    var stats: map<Key, Stats>
    var breakers: map<Key, B.Breaker>

    function View(): Table
      reads this
    {
      Table(stats, breakers)
    }

    /** In-flight counts are not negative and error rates are rates, in every reachable state. */
    ghost predicate Valid()
      reads this
    {
      && 1 <= settings.breaker.windowSize && 0.0 <= settings.alpha <= 1.0
      && forall k :: k in stats ==> Sane(stats[k])
    }

    constructor (settings: Settings)
      requires 1 <= settings.breaker.windowSize && 0.0 <= settings.alpha <= 1.0
      ensures Valid() && this.settings == settings && View() == Table(map[], map[])
    {
      this.settings := settings;
      stats, breakers := map[], map[];
    }

    method RecordStart(d: Deployment, now: real) returns (ok: bool)
      requires Valid()
      modifies this
      ensures Valid()
      ensures ok == B.Admits(settings.breaker, B.Refresh(old(View()).BreakerFor(d.Key()), now))
      ensures View() == Started(settings.breaker, old(View()), d, now)
    {
      var b := View().BreakerFor(d.Key());
      ok := B.Admits(settings.breaker, B.Refresh(b, now));
      breakers := breakers[d.Key() := B.Allow(settings.breaker, b, now)];
      if !ok {
        return;
      }
      var s := View().StatsFor(d.Key());
      stats := stats[d.Key() := s.(inflight := s.inflight + 1)];
    }

    method RecordAbort(d: Deployment)
      requires Valid()
      modifies this`stats
      ensures Valid() && View() == Aborted(old(View()), d)
    {
      var s := View().StatsFor(d.Key());
      stats := stats[d.Key() := s.(inflight := MaxInt(0, s.inflight - 1))];
    }

    method RecordFinish(d: Deployment, success: bool, ttft: Option<real>, now: real)
      requires Valid()
      modifies this
      ensures Valid()
      ensures stats == old(stats)[d.Key() := Finished(settings, old(View()).StatsFor(d.Key()), success, ttft)]
      ensures breakers == old(breakers)[d.Key() :=
                B.Record(settings.breaker, old(View()).BreakerFor(d.Key()), Verdict(settings, success, ttft), now)]
    {
      var verdict := FinishStats(d, success, ttft);
      var b := View().BreakerFor(d.Key());
      breakers := breakers[d.Key() := B.Record(settings.breaker, b, verdict, now)];
    }

    /** The statistics part of record_finish. */
    method FinishStats(d: Deployment, success: bool, ttft: Option<real>) returns (verdict: bool)
      requires Valid()
      modifies this`stats
      ensures Valid()
      ensures verdict == Verdict(settings, success, ttft)
      ensures stats == old(stats)[d.Key() := Finished(settings, old(View()).StatsFor(d.Key()), success, ttft)]
    {
      var s := View().StatsFor(d.Key());
      FinishedIsSane(settings, s, success, ttft);
      ghost var before := s;
      s := s.(inflight := MaxInt(0, s.inflight - 1));
      verdict := success;
      if ttft.Some? {
        s := s.(ttft := Ewma(s.ttft, ttft.value, settings.alpha, s.ttftInitialized), ttftInitialized := true);
        if ttft.value > settings.slowTtft {
          verdict := false;
        }
      }
      var sample := if verdict then 0.0 else 1.0;
      s := s.(errorRate := Ewma(s.errorRate, sample, settings.alpha, s.errorRateInitialized),
              errorRateInitialized := true);
      assert s == Finished(settings, before, success, ttft);
      stats := stats[d.Key() := s];
    }

    method RecordRateLimit(d: Deployment, retryAfterS: real, now: real)
      requires Valid()
      modifies this`stats
      ensures Valid() && View() == RateLimited(old(View()), d, retryAfterS, now)
    {
      var s := View().StatsFor(d.Key());
      stats := stats[d.Key() := s.(inflight := MaxInt(0, s.inflight - 1),
                                   cooldownUntil := Max(s.cooldownUntil, now + retryAfterS))];
    }

    method RefreshBreaker(d: Deployment, now: real) returns (state: B.State)
      modifies this`breakers
      ensures breakers == old(breakers)[d.Key() := B.Refresh(old(View()).BreakerFor(d.Key()), now)]
      ensures state == B.Refresh(old(View()).BreakerFor(d.Key()), now).state
    {
      var b := B.Refresh(View().BreakerFor(d.Key()), now);
      breakers := breakers[d.Key() := b];
      return b.state;
    }
  }

  // ---------------------------------------------------------------------------------------------
  // Selection
  // ---------------------------------------------------------------------------------------------

  datatype Weights = Weights(ttft: real, errorRate: real, inflight: real, price: real)

  /** Not refused before its breaker is even looked at. */
  predicate Considered(t: Table, d: Deployment, exclude: set<Key>, now: real) {
    0 < d.weight && d.Key() !in exclude && t.StatsFor(d.Key()).cooldownUntil <= now
  }

  /** May be dispatched to at `now`. */
  predicate Eligible(c: B.Config, t: Table, d: Deployment, exclude: set<Key>, now: real) {
    Considered(t, d, exclude, now) && B.Admits(c, B.Refresh(t.BreakerFor(d.Key()), now))
  }

  /** The candidate list: the group's eligible deployments in their configured order. */
  function Candidates(c: B.Config, t: Table, group: seq<Deployment>, exclude: set<Key>, now: real): (cs: seq<Deployment>)
    ensures forall d :: d in cs <==> d in group && Eligible(c, t, d, exclude, now)
  {
    if group == [] then []
    else
      Candidates(c, t, group[..|group| - 1], exclude, now)
      + if Eligible(c, t, group[|group| - 1], exclude, now) then [group[|group| - 1]] else []
  }

  datatype Field = Ttft | Inflight | Price

  function Value(stats: map<Key, Stats>, d: Deployment, field: Field): real {
    match field
    case Ttft => MapOr(stats, d.Key(), NO_STATS).ttft
    case Inflight => MapOr(stats, d.Key(), NO_STATS).inflight as real
    case Price => d.priceIn + d.priceOut
  }

  /** A value scaled to the pair it is compared in; 0 when the pair does not differ. */
  function Norm(stats: map<Key, Stats>, d: Deployment, other: Deployment, field: Field): real {
    var v, o := Value(stats, d, field), Value(stats, other, field);
    var low, high := Min(v, o), Max(v, o);
    if high == low then 0.0 else (v - low) / (high - low)
  }

  /** Within a pair the scale has only its two ends. */
  lemma NormIsRank(stats: map<Key, Stats>, d: Deployment, other: Deployment, field: Field)
    ensures Norm(stats, d, other, field) == if Value(stats, d, field) > Value(stats, other, field) then 1.0 else 0.0
  {
    var v, o := Value(stats, d, field), Value(stats, other, field);
    if v > o {
      SelfQuotient(v - o);
    } else if v < o {
      assert (v - v) / (o - v) == 0.0;
    }
  }

  lemma SelfQuotient(x: real)
    requires x != 0.0
    ensures x / x == 1.0
  {
  }

  function Score(stats: map<Key, Stats>, w: Weights, d: Deployment, other: Deployment): real {
    Weighted(w.ttft, Norm(stats, d, other, Ttft)) + Weighted(w.errorRate, MapOr(stats, d.Key(), NO_STATS).errorRate)
    + Weighted(w.inflight, Norm(stats, d, other, Inflight)) + Weighted(w.price, Norm(stats, d, other, Price))
  }

  /** No better than `other` anywhere and strictly worse in a field that carries weight. */
  predicate Worse(stats: map<Key, Stats>, w: Weights, d: Deployment, other: Deployment) {
    var s, o := MapOr(stats, d.Key(), NO_STATS), MapOr(stats, other.Key(), NO_STATS);
    && s.ttft >= o.ttft && s.errorRate >= o.errorRate && s.inflight >= o.inflight
    && d.priceIn + d.priceOut >= other.priceIn + other.priceOut
    && ((w.ttft > 0.0 && s.ttft > o.ttft)
        || (w.errorRate > 0.0 && s.errorRate > o.errorRate)
        || (w.inflight > 0.0 && s.inflight > o.inflight)
        || (w.price > 0.0 && d.priceIn + d.priceOut > other.priceIn + other.priceOut))
  }

  /** The i-th candidate is worse than each of the others. */
  predicate Dominated(stats: map<Key, Stats>, w: Weights, cs: seq<Deployment>, i: nat)
    requires i < |cs|
  {
    forall k :: 0 <= k < |cs| && k != i ==> Worse(stats, w, cs[i], cs[k])
  }

  lemma WorseScoresHigher(stats: map<Key, Stats>, w: Weights, d: Deployment, other: Deployment)
    requires NonNegative(w)
    requires Worse(stats, w, d, other)
    ensures Score(stats, w, d, other) > Score(stats, w, other, d)
  {
    assert Value(stats, d, Ttft) >= Value(stats, other, Ttft);
    assert Value(stats, d, Inflight) >= Value(stats, other, Inflight);
    assert Value(stats, d, Price) >= Value(stats, other, Price);
    NormIsRank(stats, d, other, Ttft);
    NormIsRank(stats, other, d, Ttft);
    NormIsRank(stats, d, other, Inflight);
    NormIsRank(stats, other, d, Inflight);
    NormIsRank(stats, d, other, Price);
    NormIsRank(stats, other, d, Price);
    WeightedGrows(w.ttft, Norm(stats, other, d, Ttft), Norm(stats, d, other, Ttft));
    WeightedGrows(w.inflight, Norm(stats, other, d, Inflight), Norm(stats, d, other, Inflight));
    WeightedGrows(w.price, Norm(stats, other, d, Price), Norm(stats, d, other, Price));
    WeightedGrows(w.errorRate, MapOr(stats, other.Key(), NO_STATS).errorRate, MapOr(stats, d.Key(), NO_STATS).errorRate);
  }

  /** Once a breaker admits, it goes on admitting until a call is allowed or a result recorded. */
  lemma AdmissionPersists(c: B.Config, b: B.Breaker, now: real, later: real)
    requires B.Admits(c, B.Refresh(b, now))
    ensures B.Admits(c, B.Refresh(B.Refresh(b, now), later))
  {
  }

  function ConsideredKeys(t: Table, group: seq<Deployment>, exclude: set<Key>, now: real): set<Key> {
    set d | d in group && Considered(t, d, exclude, now) :: d.Key()
  }

  /** t' is t with exactly the breakers of `keys` brought up to `now`. */
  ghost predicate Refreshed(t: Table, t': Table, keys: set<Key>, now: real) {
    && t'.stats == t.stats
    && forall k :: t'.BreakerFor(k) == if k in keys then B.Refresh(t.BreakerFor(k), now) else t.BreakerFor(k)
  }

  lemma RefreshOneMore(t: Table, t': Table, keys: set<Key>, k: Key, now: real)
    requires Refreshed(t, t', keys, now)
    ensures Refreshed(t, t'.(breakers := t'.breakers[k := B.Refresh(t'.BreakerFor(k), now)]), keys + {k}, now)
  {
    var t'' := t'.(breakers := t'.breakers[k := B.Refresh(t'.BreakerFor(k), now)]);
    forall other
      ensures t''.BreakerFor(other)
              == if other in keys + {k} then B.Refresh(t.BreakerFor(other), now) else t.BreakerFor(other)
    {
      assert t'.BreakerFor(other) == if other in keys then B.Refresh(t.BreakerFor(other), now) else t.BreakerFor(other);
    }
  }

  lemma PickIsAdmitted(c: B.Config, t: Table, t': Table, group: seq<Deployment>, exclude: set<Key>, now: real, d: Deployment)
    requires d in group && Eligible(c, t, d, exclude, now)
    requires Refreshed(t, t', ConsideredKeys(t, group, exclude, now), now)
    ensures forall later :: B.Admits(c, B.Refresh(t'.BreakerFor(d.Key()), later))
  {
    assert d.Key() in ConsideredKeys(t, group, exclude, now);
    forall later
      ensures B.Admits(c, B.Refresh(t'.BreakerFor(d.Key()), later))
    {
      AdmissionPersists(c, t.BreakerFor(d.Key()), now, later);
    }
  }

  class P2CSelector {
    const weights: Weights
    const state: RoutingState

    constructor (weights: Weights, state: RoutingState)
      ensures this.weights == weights && this.state == state
    {
      this.weights, this.state := weights, state;
    }

    /**
     * Picks one of the candidates: the first that is half-open, else the only one, else the lower score of
     * two drawn at random. Whenever a call to the pick then starts, it is not refused, and a candidate that
     * is worse than each of the others is not picked.
     */
    method Pick(group: seq<Deployment>, exclude: set<Key>, now: real) returns (picked: Option<Deployment>)
      requires state.Valid()
      modifies state`breakers
      ensures state.Valid()
      ensures Refreshed(old(state.View()), state.View(), ConsideredKeys(old(state.View()), group, exclude, now), now)
      ensures PickedSoundly(state.settings.breaker, weights, old(state.View()), group, exclude, now, picked)
      ensures picked.Some? ==>
                forall later ::
                  B.Admits(state.settings.breaker, B.Refresh(state.View().BreakerFor(picked.value.Key()), later))
    {
      ghost var t := state.View();
      var candidates := CollectCandidates(group, exclude, now);
      if candidates == [] {
        return None;
      }
      ghost var keys := ConsideredKeys(t, group, exclude, now);
      assert forall d :: d in candidates ==> d.Key() in keys;
      picked := FirstHalfOpen(candidates, now, t, keys);
      if picked.None? {
        if |candidates| == 1 {
          picked := Some(candidates[0]);
        } else {
          picked := BetterOfTwo(candidates);
        }
      }
      PickIsEligible(state.settings.breaker, weights, t, group, exclude, now, picked);
      PickIsAdmitted(state.settings.breaker, t, state.View(), group, exclude, now, picked.value);
    }

    /** The first candidate whose breaker turns half-open at `now`, if there is one. */
    method FirstHalfOpen(candidates: seq<Deployment>, now: real, ghost t: Table, ghost keys: set<Key>)
      returns (found: Option<Deployment>)
      requires state.Valid() && Refreshed(t, state.View(), keys, now)
      requires forall d :: d in candidates ==> d.Key() in keys
      modifies state`breakers
      ensures state.Valid() && Refreshed(t, state.View(), keys, now)
      ensures found == FirstHalfOpenOf(t, candidates, now)
    {
      for i := 0 to |candidates|
        invariant state.stats == t.stats && Refreshed(t, state.View(), keys, now)
        invariant FirstHalfOpenOf(t, candidates, now) == FirstHalfOpenOf(t, candidates[i..], now)
      {
        RefreshOneMore(t, state.View(), keys, candidates[i].Key(), now);
        assert keys + {candidates[i].Key()} == keys;
        var s := state.RefreshBreaker(candidates[i], now);
        assert candidates[i..][1..] == candidates[i + 1..];
        if s.HalfOpen? {
          return Some(candidates[i]);
        }
      }
      return None;
    }

    /** The lower score of two distinct random positions; the first drawn wins a tie. */
    method BetterOfTwo(candidates: seq<Deployment>) returns (picked: Option<Deployment>)
      requires 2 <= |candidates|
      ensures picked.Some? && WonPair(state.stats, weights, candidates, picked.value)
    {
      assert 0 != 1;
      var i, j :| 0 <= i < |candidates| && 0 <= j < |candidates| && i != j;
      var first, second := candidates[i], candidates[j];
      if Score(state.stats, weights, first, second) <= Score(state.stats, weights, second, first) {
        return Some(first);
      }
      return Some(second);
    }

    method CollectCandidates(group: seq<Deployment>, exclude: set<Key>, now: real) returns (cs: seq<Deployment>)
      requires state.Valid()
      modifies state`breakers
      ensures state.Valid()
      ensures cs == Candidates(state.settings.breaker, old(state.View()), group, exclude, now)
      ensures Refreshed(old(state.View()), state.View(), ConsideredKeys(old(state.View()), group, exclude, now), now)
    {
      ghost var t := state.View();
      cs := [];
      for i := 0 to |group|
        invariant state.stats == t.stats
        invariant cs == Candidates(state.settings.breaker, t, group[..i], exclude, now)
        invariant Refreshed(t, state.View(), ConsideredKeys(t, group[..i], exclude, now), now)
      {
        var d := group[i];
        ghost var keys := ConsideredKeys(t, group[..i], exclude, now);
        assert group[..i + 1][..i] == group[..i];
        assert ConsideredKeys(t, group[..i + 1], exclude, now)
               == keys + if Considered(t, d, exclude, now) then {d.Key()} else {};
        RefreshOneMore(t, state.View(), keys, d.Key(), now);
        assert Eligible(state.settings.breaker, state.View(), d, exclude, now)
               == Eligible(state.settings.breaker, t, d, exclude, now);
        var allowed := CandidateAllowed(d, exclude, now);
        if allowed {
          cs := cs + [d];
        }
      }
      assert group[..|group|] == group;
    }

    method CandidateAllowed(d: Deployment, exclude: set<Key>, now: real) returns (allowed: bool)
      modifies state`breakers
      ensures var t := old(state.View());
              && allowed == Eligible(state.settings.breaker, t, d, exclude, now)
              && state.breakers == if Considered(t, d, exclude, now)
                                   then t.breakers[d.Key() := B.Refresh(t.BreakerFor(d.Key()), now)] else t.breakers
    {
      if d.weight <= 0 || d.Key() in exclude {
        return false;
      }
      if state.View().StatsFor(d.Key()).cooldownUntil > now {
        return false;
      }
      var _ := state.RefreshBreaker(d, now);
      return B.Admits(state.settings.breaker, state.View().BreakerFor(d.Key()));
    }
  }

  predicate HalfOpenAt(t: Table, d: Deployment, now: real) {
    B.Refresh(t.BreakerFor(d.Key()), now).state.HalfOpen?
  }

  predicate NonNegative(w: Weights) {
    0.0 <= w.ttft && 0.0 <= w.errorRate && 0.0 <= w.inflight && 0.0 <= w.price
  }

  /** d scores no higher than some candidate in another position. */
  ghost predicate WonPair(stats: map<Key, Stats>, w: Weights, cs: seq<Deployment>, d: Deployment) {
    exists i, j :: 0 <= i < |cs| && 0 <= j < |cs| && i != j && cs[i] == d &&
                   Score(stats, w, cs[i], cs[j]) <= Score(stats, w, cs[j], cs[i])
  }

  function FirstHalfOpenOf(t: Table, cs: seq<Deployment>, now: real): Option<Deployment> {
    if cs == [] then None else if HalfOpenAt(t, cs[0], now) then Some(cs[0]) else FirstHalfOpenOf(t, cs[1..], now)
  }

  /** The first half-open candidate, else the only candidate, else the winner of some pair. */
  ghost predicate PickedSoundly(c: B.Config, w: Weights, t: Table, group: seq<Deployment>, exclude: set<Key>,
                                now: real, picked: Option<Deployment>) {
    var cs := Candidates(c, t, group, exclude, now);
    var halfOpen := FirstHalfOpenOf(t, cs, now);
    if cs == [] then picked.None?
    else if halfOpen.Some? then picked == halfOpen
    else picked.Some? && if |cs| == 1 then picked.value == cs[0] else WonPair(t.stats, w, cs, picked.value)
  }

  lemma {:induction false} FirstHalfOpenIsCandidate(t: Table, cs: seq<Deployment>, now: real)
    ensures var found := FirstHalfOpenOf(t, cs, now);
            if found.Some? then found.value in cs && HalfOpenAt(t, found.value, now)
            else forall d :: d in cs ==> !HalfOpenAt(t, d, now)
  {
    if cs != [] && !HalfOpenAt(t, cs[0], now) {
      FirstHalfOpenIsCandidate(t, cs[1..], now);
    }
  }

  /** A pick is in the group, has weight, is not excluded, is not cooling down and its breaker admits. */
  lemma PickIsEligible(c: B.Config, w: Weights, t: Table, group: seq<Deployment>, exclude: set<Key>, now: real,
                       picked: Option<Deployment>)
    requires PickedSoundly(c, w, t, group, exclude, now, picked)
    ensures picked.None? <==> forall d :: d in group ==> !Eligible(c, t, d, exclude, now)
    ensures picked.Some? ==> picked.value in group && Eligible(c, t, picked.value, exclude, now)
  {
    var cs := Candidates(c, t, group, exclude, now);
    FirstHalfOpenIsCandidate(t, cs, now);
    if cs != [] {
      assert cs[0] in cs;
    }
  }

  /** A candidate worse than each of the others is never picked while no candidate is half-open. */
  lemma DominatedNeverPicked(c: B.Config, w: Weights, t: Table, group: seq<Deployment>, exclude: set<Key>, now: real,
                             picked: Option<Deployment>, worst: nat)
    requires NonNegative(w) && PickedSoundly(c, w, t, group, exclude, now, picked)
    requires var cs := Candidates(c, t, group, exclude, now);
             && 2 <= |cs| && FirstHalfOpenOf(t, cs, now).None?
             && worst < |cs| && Dominated(t.stats, w, cs, worst)
    ensures picked != Some(Candidates(c, t, group, exclude, now)[worst])
  {
    var cs := Candidates(c, t, group, exclude, now);
    var i, j :| 0 <= i < |cs| && 0 <= j < |cs| && i != j && cs[i] == picked.value &&
                Score(t.stats, w, cs[i], cs[j]) <= Score(t.stats, w, cs[j], cs[i]);
    if i == worst {
      WorseScoresHigher(t.stats, w, cs[i], cs[j]);
    } else {
      assert Worse(t.stats, w, cs[worst], cs[i]);
    }
  }

  /** It has weight, was not tried, is not cooling down, and its breaker lets calls through. */
  predicate Usable(c: B.Config, t: Table, d: Deployment, exclude: set<Key>, now: real) {
    var s, b := MapOr(t.stats, d.Key(), NO_STATS), MapOr(t.breakers, d.Key(), B.FRESH);
    && 1 <= d.weight && d.Key() !in exclude && s.cooldownUntil <= now
    && (b.state.Closed?
        || (b.state.Open? && b.openUntil <= now && 0 < c.probes)
        || (b.state.HalfOpen? && b.inflight < c.probes))
  }

  /** A pick is a usable deployment of the group; there is none iff the group has none. */
  lemma PickIsUsable(c: B.Config, w: Weights, t: Table, group: seq<Deployment>, exclude: set<Key>, now: real,
                     picked: Option<Deployment>)
    requires PickedSoundly(c, w, t, group, exclude, now, picked)
    ensures picked.None? <==> forall d :: d in group ==> !Usable(c, t, d, exclude, now)
    ensures picked.Some? ==> picked.value in group && Usable(c, t, picked.value, exclude, now)
  {
    PickIsEligible(c, w, t, group, exclude, now, picked);
    forall d
      ensures Eligible(c, t, d, exclude, now) <==> Usable(c, t, d, exclude, now)
    {
    }
  }

  /** Its breaker is probing, or will be as soon as it is looked at. */
  predicate Probing(t: Table, d: Deployment, now: real) {
    var b := MapOr(t.breakers, d.Key(), B.FRESH);
    b.state.HalfOpen? || (b.state.Open? && b.openUntil <= now)
  }

  /** If a usable deployment is probing, the first of these in the configured order is picked, before any other. */
  lemma {:induction false} ProbesGoFirst(c: B.Config, w: Weights, t: Table, group: seq<Deployment>, exclude: set<Key>,
                                         now: real, picked: Option<Deployment>, i: nat)
    requires PickedSoundly(c, w, t, group, exclude, now, picked)
    requires i < |group| && Usable(c, t, group[i], exclude, now) && Probing(t, group[i], now)
    requires forall j :: 0 <= j < i ==> !(Usable(c, t, group[j], exclude, now) && Probing(t, group[j], now))
    ensures picked == Some(group[i])
  {
    assert group[..|group|] == group;
    FirstProbing(c, t, group, exclude, now, i, |group|);
  }

  lemma {:induction false} FirstProbing(c: B.Config, t: Table, group: seq<Deployment>, exclude: set<Key>, now: real,
                                        i: nat, n: nat)
    requires i < n <= |group| && Usable(c, t, group[i], exclude, now) && Probing(t, group[i], now)
    requires forall j :: 0 <= j < i ==> !(Usable(c, t, group[j], exclude, now) && Probing(t, group[j], now))
    ensures FirstHalfOpenOf(t, Candidates(c, t, group[..n], exclude, now), now) == Some(group[i])
  {
    var init := group[..n - 1];
    assert group[..n][..n - 1] == init && group[..n][n - 1] == group[n - 1];
    var before := Candidates(c, t, init, exclude, now);
    assert before + [] == before;
    if i == n - 1 {
      NoneProbingBefore(c, t, group, exclude, now, i);
      assert Eligible(c, t, group[i], exclude, now);
      FirstOfAppended(t, before, group[i], now);
    } else {
      FirstProbing(c, t, group, exclude, now, i, n - 1);
      FirstOfAppended(t, before, group[n - 1], now);
    }
  }

  lemma {:induction false} NoneProbingBefore(c: B.Config, t: Table, group: seq<Deployment>, exclude: set<Key>, now: real,
                                             i: nat)
    requires i <= |group|
    requires forall j :: 0 <= j < i ==> !(Usable(c, t, group[j], exclude, now) && Probing(t, group[j], now))
    ensures forall d :: d in Candidates(c, t, group[..i], exclude, now) ==> !HalfOpenAt(t, d, now)
  {
    forall d | d in Candidates(c, t, group[..i], exclude, now)
      ensures !HalfOpenAt(t, d, now)
    {
      assert d in group[..i] && Eligible(c, t, d, exclude, now);
      var j :| 0 <= j < i && group[..i][j] == d;
      assert group[j] == d;
    }
  }

  lemma {:induction false} FirstOfAppended(t: Table, cs: seq<Deployment>, d: Deployment, now: real)
    ensures FirstHalfOpenOf(t, cs + [d], now)
            == if FirstHalfOpenOf(t, cs, now).Some? then FirstHalfOpenOf(t, cs, now)
               else if HalfOpenAt(t, d, now) then Some(d) else None
    ensures (forall e :: e in cs ==> !HalfOpenAt(t, e, now)) ==> FirstHalfOpenOf(t, cs, now).None?
  {
    if cs == [] {
      assert ([d])[1..] == [];
    } else {
      FirstOfAppended(t, cs[1..], d, now);
      assert (cs + [d])[1..] == cs[1..] + [d];
    }
  }

  /** A rate-limited deployment is not picked before its time, nor before any earlier limit it was given. */
  lemma RateLimitedIsSkipped(c: B.Config, w: Weights, t: Table, d: Deployment, retryAfterS: real, at: real,
                             group: seq<Deployment>, exclude: set<Key>, now: real, picked: Option<Deployment>)
    requires PickedSoundly(c, w, RateLimited(t, d, retryAfterS, at), group, exclude, now, picked)
    requires now < at + retryAfterS || now < t.StatsFor(d.Key()).cooldownUntil
    ensures picked.Some? ==> picked.value.Key() != d.Key()
  {
    PickIsEligible(c, w, RateLimited(t, d, retryAfterS, at), group, exclude, now, picked);
  }
}
