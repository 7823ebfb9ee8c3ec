/**
 * The arithmetic of a lazily refilled, capped token bucket, away from any storage: what a bucket
 * has admitted inside a window, and how refills compose with each other and with refunds.
 */
module TokenBucket {
  import opened Common

  /** Tokens accrued over `elapsed` time units at `rate` tokens a unit. */
  function Accrual(elapsed: real, rate: real): real {
    elapsed * rate
  }

  lemma AccrualAdds(first: real, second: real, rate: real)
    ensures Accrual(first + second, rate) == Accrual(first, rate) + Accrual(second, rate)
  {
  }

  lemma AccrualGrows(less: real, more: real, rate: real)
    requires less <= more && 0.0 <= rate
    ensures Accrual(less, rate) <= Accrual(more, rate)
    ensures 0.0 <= less ==> 0.0 <= Accrual(less, rate)
  {
  }

  function Refill(tokens: real, elapsed: real, rate: real, cap: real): real {
    Min(cap, tokens + Accrual(elapsed, rate))
  }

  /** One visit refills the bucket at time `at` and then takes `spend` tokens (0 for a refusal). */
  datatype Visit = Visit(at: real, spend: real)

  /** The bucket just after its visits; a bucket nobody has visited is full. */
  function Level(visits: seq<Visit>, rate: real, cap: real): real
    decreases |visits|, 1
  {
    if visits == [] then cap else Before(visits, rate, cap) - visits[|visits| - 1].spend
  }

  /** The bucket at its last visit, refilled but not yet debited. */
  function Before(visits: seq<Visit>, rate: real, cap: real): real
    requires visits != []
    decreases |visits|, 0
  {
    var n := |visits|;
    if n == 1 then cap
    else Refill(Level(visits[..n - 1], rate, cap), Max(0.0, visits[n - 1].at - visits[n - 2].at), rate, cap)
  }

  /** No visit takes more than the bucket holds. */
  predicate Funded(visits: seq<Visit>, rate: real, cap: real) {
    visits == [] ||
    (var n := |visits| - 1;
     Funded(visits[..n], rate, cap) && 0.0 <= visits[n].spend &&
     (visits[n].spend == 0.0 || visits[n].spend <= Before(visits, rate, cap)))
  }

  predicate Ordered(visits: seq<Visit>) {
    forall i, j :: 0 <= i < j < |visits| ==> visits[i].at <= visits[j].at
  }

  function SpentIn(visits: seq<Visit>, from: real, to: real): real {
    if visits == [] then 0.0
    else
      var n := |visits| - 1;
      SpentIn(visits[..n], from, to) + if from <= visits[n].at <= to then visits[n].spend else 0.0
  }

  /** Time the clock moved forward over the visits; backward jumps count for nothing. */
  function Forward(visits: seq<Visit>): (t: real)
    ensures 0.0 <= t
  {
    var n := |visits|;
    if n <= 1 then 0.0
    else Forward(visits[..n - 1]) + Max(0.0, visits[n - 1].at - visits[n - 2].at)
  }

  /** Forward time is the plain difference of the end points exactly when the clock never went back. */
  lemma {:induction false} ForwardIsElapsed(visits: seq<Visit>)
    requires visits != []
    ensures Forward(visits) >= visits[|visits| - 1].at - visits[0].at
    ensures Forward(visits) == visits[|visits| - 1].at - visits[0].at <==> Ordered(visits)
  {
    var n := |visits|;
    if n == 1 {
    } else {
      var init := visits[..n - 1];
      ForwardIsElapsed(init);
      assert init[|init| - 1] == visits[n - 2];
      if Ordered(visits) {
        assert Ordered(init);
      }
      if Ordered(init) && visits[n - 2].at <= visits[n - 1].at {
        forall i, j | 0 <= i < j < n
          ensures visits[i].at <= visits[j].at
        {
          assert visits[i] == init[i];
          if j < n - 1 {
            assert visits[j] == init[j];
          } else {
            assert init[i].at <= init[n - 2].at;
          }
        }
      }
    }
  }

  lemma {:induction false} LevelInRange(visits: seq<Visit>, rate: real, cap: real)
    requires 0.0 <= rate && 0.0 <= cap && Funded(visits, rate, cap)
    ensures 0.0 <= Level(visits, rate, cap) <= cap
  {
    if visits == [] {
    } else {
      var n := |visits| - 1;
      LevelInRange(visits[..n], rate, cap);
      if n > 0 {
        AccrualGrows(0.0, Max(0.0, visits[n].at - visits[n - 1].at), rate);
      }
    }
  }

  /** What a window has admitted plus what is left never beats one full bucket plus the refill since. */
  lemma {:induction false} WindowPotential(visits: seq<Visit>, rate: real, cap: real, from: real, to: real)
    requires 0.0 <= rate && 0.0 <= cap && visits != [] && Ordered(visits) && Funded(visits, rate, cap)
    requires from <= visits[|visits| - 1].at <= to
    ensures SpentIn(visits, from, to) + Level(visits, rate, cap)
            <= cap + Accrual(visits[|visits| - 1].at - from, rate)
  {
    var n := |visits| - 1;
    var init, last := visits[..n], visits[n];
    AccrualGrows(0.0, last.at - from, rate);
    if n > 0 && from <= visits[n - 1].at {
      var prev := visits[n - 1];
      WindowPotential(init, rate, cap, from, to);
      AccrualAdds(prev.at - from, last.at - prev.at, rate);
    } else {
      NothingBefore(init, from, to);
    }
  }

  lemma {:induction false} NothingBefore(visits: seq<Visit>, from: real, to: real)
    requires Ordered(visits) && (visits == [] || visits[|visits| - 1].at < from)
    ensures SpentIn(visits, from, to) == 0.0
  {
    if visits == [] {
    } else {
      var n := |visits| - 1;
      assert n > 0 ==> visits[n - 1].at <= visits[n].at;
      NothingBefore(visits[..n], from, to);
    }
  }

  /** In any window the bucket admits at most one full bucket plus the window's refill. */
  lemma {:induction false} WindowBound(visits: seq<Visit>, rate: real, cap: real, from: real, to: real)
    requires 0.0 <= rate && 0.0 <= cap && from <= to && Ordered(visits) && Funded(visits, rate, cap)
    ensures SpentIn(visits, from, to) <= cap + Accrual(to - from, rate)
  {
    AccrualGrows(0.0, to - from, rate);
    if visits == [] {
    } else {
      var n := |visits| - 1;
      var last := visits[n];
      if from <= last.at <= to {
        WindowPotential(visits, rate, cap, from, to);
        LevelInRange(visits, rate, cap);
        AccrualGrows(last.at - from, to - from, rate);
      } else {
        WindowBound(visits[..n], rate, cap, from, to);
      }
    }
  }

  lemma Extend(visits: seq<Visit>, v: Visit, rate: real, cap: real, from: real, to: real)
    ensures var before := if visits == [] then cap
                          else Refill(Level(visits, rate, cap), Max(0.0, v.at - visits[|visits| - 1].at), rate, cap);
            && Level(visits + [v], rate, cap) == before - v.spend
            && (Funded(visits, rate, cap) && 0.0 <= v.spend <= before ==> Funded(visits + [v], rate, cap))
    ensures from <= v.at <= to ==> SpentIn(visits + [v], from, to) == SpentIn(visits, from, to) + v.spend
  {
    assert (visits + [v])[..|visits|] == visits;
  }

  /** The ordered clock is needed: rewound by a visit, a bucket pays the same refill out twice. */
  lemma RewoundClockBreaksBound(period: real, rate: real, cap: real)
    requires 0.0 < period && 0.0 < cap && Accrual(period, rate) == cap
    ensures exists visits :: Funded(visits, rate, cap) &&
                             SpentIn(visits, 0.0, period) > cap + Accrual(period, rate)
  {
    var first := [] + [Visit(0.0, cap)];
    var second := first + [Visit(period, cap)];
    var third := second + [Visit(0.0, 0.0)];
    var fourth := third + [Visit(period, cap)];
    assert Accrual(0.0, rate) == 0.0;
    Extend([], Visit(0.0, cap), rate, cap, 0.0, period);
    Extend(first, Visit(period, cap), rate, cap, 0.0, period);
    Extend(second, Visit(0.0, 0.0), rate, cap, 0.0, period);
    Extend(third, Visit(period, cap), rate, cap, 0.0, period);
    assert SpentIn(fourth, 0.0, period) == cap + cap + cap;
    assert Funded(fourth, rate, cap);
  }

  /** A refill may be split over any intermediate instant. */
  lemma RefillComposes(tokens: real, first: real, second: real, rate: real, cap: real)
    requires 0.0 <= rate && 0.0 <= second
    ensures Refill(Refill(tokens, first, rate, cap), second, rate, cap) == Refill(tokens, first + second, rate, cap)
  {
    AccrualGrows(0.0, second, rate);
    AccrualAdds(first, second, rate);
  }

  /**
   * Refilling before or after a capped refund agrees exactly when the refund is not negative or the
   * refill did not overflow the cap.
   */
  lemma RefillCommutesWithRefund(tokens: real, elapsed: real, refund: real, rate: real, cap: real)
    requires 0.0 <= rate && 0.0 <= elapsed && tokens <= cap
    ensures Min(cap, Refill(tokens, elapsed, rate, cap) + refund)
            == Refill(Min(cap, tokens + refund), elapsed, rate, cap)
            <==> 0.0 <= refund || tokens + Accrual(elapsed, rate) <= cap
  {
    AccrualGrows(0.0, elapsed, rate);
  }
}
