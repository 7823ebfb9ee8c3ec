/** The per-deployment circuit breaker. */
module Breaker {
  import opened Common

  datatype State = Closed | Open | HalfOpen

  datatype Config = Config(
    windowSize: nat,
    failureRate: real,
    minSamples: int,
    cooldownS: real,
    cooldownMaxS: real,
    probes: int)

  datatype Breaker = Breaker(
    state: State,
    window: seq<bool>,
    openCount: nat,
    openUntil: real,
    inflight: int,
    successes: int)

  const FRESH := Breaker(Closed, [], 0, 0.0, 0, 0)

  /** The last n entries of s. */
  function LastN<T>(s: seq<T>, n: nat): (r: seq<T>)
    ensures |r| == MinInt(|s|, n)
  {
    if |s| <= n then s else s[|s| - n..]
  }

  function Failures(window: seq<bool>): nat {
    if window == [] then 0 else Failures(window[..|window| - 1]) + if window[|window| - 1] then 0 else 1
  }

  predicate ShouldOpen(c: Config, window: seq<bool>)
    requires window != []
  {
    |window| >= c.minSamples && Failures(window) as real / |window| as real >= c.failureRate
  }

  function Pow2(n: nat): real {
    if n == 0 then 1.0 else 2.0 * Pow2(n - 1)
  }

  function Scaled(baseS: real, factor: real): real {
    baseS * factor
  }

  /** How long the k-th opening since the last close lasts. */
  function Cooldown(c: Config, k: nat): real {
    Min(c.cooldownMaxS, Scaled(c.cooldownS, Pow2(MaxInt(0, k - 1))))
  }

  function Opened(c: Config, b: Breaker, now: real): Breaker {
    b.(state := Open, openCount := b.openCount + 1, openUntil := now + Cooldown(c, b.openCount + 1),
       inflight := 0, successes := 0)
  }

  function Refresh(b: Breaker, now: real): Breaker {
    if b.state.Open? && b.openUntil <= now then b.(state := HalfOpen, inflight := 0, successes := 0) else b
  }

  /** Whether a call would be admitted; `b` is already refreshed. */
  predicate Admits(c: Config, b: Breaker) {
    b.state.Closed? || (b.state.HalfOpen? && b.inflight < c.probes)
  }

  function Allow(c: Config, b: Breaker, now: real): Breaker {
    var r := Refresh(b, now);
    if r.state.HalfOpen? && Admits(c, r) then r.(inflight := r.inflight + 1) else r
  }

  function Record(c: Config, b: Breaker, success: bool, now: real): Breaker
    requires 1 <= c.windowSize
  {
    if b.state.HalfOpen? then
      if !success then Opened(c, b, now)
      else if b.successes + 1 >= c.probes then
        b.(state := Closed, window := [], openCount := 0, inflight := 0, successes := 0)
      else b.(inflight := MaxInt(0, b.inflight - 1), successes := b.successes + 1)
    else
      var window := LastN(b.window + [success], c.windowSize);
      var b' := b.(window := window);
      if b.state.Closed? && ShouldOpen(c, window) then Opened(c, b', now) else b'
  }

  function ForceOpen(b: Breaker, now: real, remaining: real): Breaker {
    b.(state := Open, openUntil := now + Max(0.0, remaining), inflight := 0, successes := 0)
  }

  class CircuitBreaker {
    const config: Config
    var state: State
    var window: seq<bool>
    var openCount: nat
    var openUntil: real
    var inflight: int
    var successes: int

    ghost function View(): Breaker
      reads this
    {
      Breaker(state, window, openCount, openUntil, inflight, successes)
    }

    /** The deque's bound. */
    ghost predicate Valid()
      reads this
    {
      1 <= config.windowSize && |window| <= config.windowSize
    }

    constructor (config: Config)
      requires 1 <= config.windowSize
      ensures Valid() && this.config == config && View() == FRESH
    {
      this.config := config;
      state, window, openCount, openUntil, inflight, successes := Closed, [], 0, 0.0, 0, 0;
    }

    method RefreshState(now: real)
      requires Valid()
      modifies this
      ensures Valid() && View() == Refresh(old(View()), now)
    {
      if state.Open? {
        if now < openUntil {
          return;
        }
        state, inflight, successes := HalfOpen, 0, 0;
      }
    }

    method CanTry(now: real) returns (ok: bool)
      requires Valid()
      modifies this
      ensures Valid() && View() == Refresh(old(View()), now)
      ensures ok == Admits(config, View())
    {
      RefreshState(now);
      if state.Closed? {
        return true;
      }
      return state.HalfOpen? && inflight < config.probes;
    }

    method AllowCall(now: real) returns (ok: bool)
      requires Valid()
      modifies this
      ensures Valid() && View() == Allow(config, old(View()), now)
      ensures ok == Admits(config, Refresh(old(View()), now))
    {
      RefreshState(now);
      if state.Closed? {
        return true;
      }
      if state.HalfOpen? {
        if inflight >= config.probes {
          return false;
        }
        inflight := inflight + 1;
        return true;
      }
      return false;
    }

    method RecordOutcome(success: bool, now: real)
      requires Valid()
      modifies this
      ensures Valid() && View() == Record(config, old(View()), success, now)
    {
      if state.HalfOpen? {
        inflight := MaxInt(0, inflight - 1);
        if success {
          successes := successes + 1;
          if successes >= config.probes {
            Close();
          }
        } else {
          OpenNow(now);
        }
        return;
      }
      window := window + [success];
      if |window| > config.windowSize {
        window := window[1..];
      }
      if state.Closed? {
        var trip := CountedFailuresTrip();
        if trip {
          OpenNow(now);
        }
      }
    }

    /** Counts the failures in the window and compares their share with the threshold. */
    method CountedFailuresTrip() returns (trip: bool)
      requires Valid() && window != []
      ensures trip == ShouldOpen(config, window)
    {
      if |window| < config.minSamples {
        return false;
      }
      var failures := 0;
      for i := 0 to |window|
        invariant failures == Failures(window[..i])
      {
        assert window[..i + 1][..i] == window[..i];
        if !window[i] {
          failures := failures + 1;
        }
      }
      assert window[..|window|] == window;
      return failures as real / |window| as real >= config.failureRate;
    }

    method OpenNow(now: real)
      modifies this
      ensures View() == Opened(config, old(View()), now)
    {
      state := Open;
      openCount := openCount + 1;
      openUntil := now + Min(config.cooldownMaxS, config.cooldownS * Pow2(MaxInt(0, openCount - 1)));
      inflight, successes := 0, 0;
    }

    method Close()
      modifies this
      ensures View() == old(View()).(state := Closed, window := [], openCount := 0, inflight := 0, successes := 0)
    {
      state, window, openCount, inflight, successes := Closed, [], 0, 0, 0;
    }

    method ForceOpenFor(now: real, remaining: real)
      requires Valid()
      modifies this
      ensures Valid() && View() == ForceOpen(old(View()), now, remaining)
    {
      state, openUntil, inflight, successes := Open, now + Max(0.0, remaining), 0, 0;
    }
  }
}
