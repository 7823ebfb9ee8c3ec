/** The sliding-window budget for hedged requests. */
module HedgeBudget {
  import opened Common

  /** Drops the leading entries before the cutoff, as the two deques are pruned. */
  function DropOlder(times: seq<real>, cutoff: real): seq<real> {
    if times != [] && times[0] < cutoff then DropOlder(times[1..], cutoff) else times
  }

  /** The entries from `from` on, wherever they stand. */
  function Since(times: seq<real>, from: real): seq<real> {
    if times == [] then []
    else Since(times[..|times| - 1], from) + if from <= times[|times| - 1] then [times[|times| - 1]] else []
  }

  function CountIn(times: seq<real>, from: real, to: real): nat {
    if times == [] then 0
    else CountIn(times[..|times| - 1], from, to) + if from <= times[|times| - 1] <= to then 1 else 0
  }

  /** Grants may be at most `ratio` of the requests in the window, counting at least one request. */
  predicate Affordable(grants: nat, requests: nat, ratio: real) {
    (grants + 1) as real / MaxInt(1, requests) as real <= ratio
  }

  class HedgeBudget {
    const windowS: real
    var requests: seq<real>
    var hedges: seq<real>

    constructor (windowS: real)
      ensures this.windowS == windowS && requests == [] && hedges == []
    {
      this.windowS := windowS;
      requests, hedges := [], [];
    }

    method RecordRequest(now: real)
      modifies this
      ensures requests == DropOlder(old(requests), now - windowS) + [now]
      ensures hedges == DropOlder(old(hedges), now - windowS)
    {
      Prune(now);
      requests := requests + [now];
    }

    method Allow(ratio: real, now: real) returns (granted: bool)
      modifies this
      ensures requests == DropOlder(old(requests), now - windowS)
      ensures var kept := DropOlder(old(hedges), now - windowS);
              && granted == Affordable(|kept|, |requests|, ratio)
              && hedges == kept + if granted then [now] else []
    {
      Prune(now);
      var count := MaxInt(1, |requests|);
      if (|hedges| + 1) as real / count as real > ratio {
        return false;
      }
      hedges := hedges + [now];
      return true;
    }

    method Prune(now: real)
      modifies this
      ensures requests == DropOlder(old(requests), now - windowS)
      ensures hedges == DropOlder(old(hedges), now - windowS)
    {
      var cutoff := now - windowS;
      while requests != [] && requests[0] < cutoff
        invariant DropOlder(requests, cutoff) == DropOlder(old(requests), cutoff) && hedges == old(hedges)
        decreases |requests|
      {
        requests := requests[1..];
      }
      while hedges != [] && hedges[0] < cutoff
        invariant requests == DropOlder(old(requests), cutoff)
        invariant DropOlder(hedges, cutoff) == DropOlder(old(hedges), cutoff)
        decreases |hedges|
      {
        hedges := hedges[1..];
      }
    }
  }

  // ---------------------------------------------------------------------------------------------
  // Runs
  // ---------------------------------------------------------------------------------------------

  datatype Op = Request(now: real) | Hedge(now: real, ratio: real)

  /** The two deques, and every request and every grant there ever was. */
  datatype Track = Track(requests: seq<real>, hedges: seq<real>, allRequests: seq<real>, allGrants: seq<real>)

  function After(t: Track, op: Op, windowS: real): Track {
    var requests, hedges := DropOlder(t.requests, op.now - windowS), DropOlder(t.hedges, op.now - windowS);
    match op
    case Request(now) => Track(requests + [now], hedges, t.allRequests + [now], t.allGrants)
    case Hedge(now, ratio) =>
      if Affordable(|hedges|, |requests|, ratio) then
        Track(requests, hedges + [now], t.allRequests, t.allGrants + [now])
      else Track(requests, hedges, t.allRequests, t.allGrants)
  }

  function Run(ops: seq<Op>, windowS: real): Track {
    if ops == [] then Track([], [], [], []) else After(Run(ops[..|ops| - 1], windowS), ops[|ops| - 1], windowS)
  }

  ghost predicate Sorted(times: seq<real>) {
    forall i, j :: 0 <= i < j < |times| ==> times[i] <= times[j]
  }

  ghost predicate Timely(ops: seq<Op>) {
    forall i, j :: 0 <= i < j < |ops| ==> ops[i].now <= ops[j].now
  }

  ghost predicate UpTo(times: seq<real>, now: real) {
    Sorted(times) && forall i :: 0 <= i < |times| ==> times[i] <= now
  }

  lemma {:induction false} SinceOfSince(times: seq<real>, early: real, late: real)
    requires early <= late
    ensures Since(Since(times, early), late) == Since(times, late)
  {
    if times == [] {
    } else {
      var n := |times| - 1;
      var kept := Since(times[..n], early);
      SinceOfSince(times[..n], early, late);
      if early <= times[n] {
        assert Since(times, early)[..|kept|] == kept;
      } else {
        assert Since(times, early) == kept;
        assert Since(times, late) == Since(times[..n], late);
      }
    }
  }

  lemma {:induction false} SinceNothing(times: seq<real>, from: real)
    requires forall i :: 0 <= i < |times| ==> from <= times[i]
    ensures Since(times, from) == times
  {
    if times == [] {
    } else {
      SinceNothing(times[..|times| - 1], from);
    }
  }

  lemma {:induction false} SinceDropsHead(times: seq<real>, from: real)
    requires times != [] && times[0] < from
    ensures Since(times, from) == Since(times[1..], from)
  {
    if |times| > 1 {
      var n := |times| - 1;
      SinceDropsHead(times[..n], from);
      assert times[1..][..n - 1] == times[..n][1..];
    } else {
      assert times[..0] == [] && times[1..] == [];
      assert Since([], from) == [];
    }
  }

  /** Pruning a sorted deque from the left removes exactly what is out of the window. */
  lemma {:induction false} PruneIsExact(times: seq<real>, cutoff: real)
    requires Sorted(times)
    ensures DropOlder(times, cutoff) == Since(times, cutoff)
  {
    if times != [] && times[0] < cutoff {
      PruneIsExact(times[1..], cutoff);
      SinceDropsHead(times, cutoff);
    } else {
      SinceNothing(times, cutoff);
    }
  }

  lemma {:induction false} SinceKeepsUpTo(times: seq<real>, from: real, now: real)
    requires UpTo(times, now)
    ensures UpTo(Since(times, from), now)
  {
    if times == [] {
    } else {
      var n := |times| - 1;
      assert forall i :: 0 <= i < n ==> times[..n][i] <= times[n];
      SinceKeepsUpTo(times[..n], from, times[n]);
    }
  }

  lemma {:induction false} CountSince(times: seq<real>, from: real, now: real)
    requires UpTo(times, now)
    ensures |Since(times, from)| == CountIn(times, from, now)
  {
    if times == [] {
    } else {
      CountSince(times[..|times| - 1], from, now);
    }
  }

  lemma {:induction false} CountGrows(times: seq<real>, from: real, to: real, from': real, to': real)
    requires from' <= from && to <= to'
    ensures CountIn(times, from, to) <= CountIn(times, from', to')
  {
    if times == [] {
    } else {
      CountGrows(times[..|times| - 1], from, to, from', to');
    }
  }

  lemma {:induction false} CountUpTo(times: seq<real>, from: real, to: real, now: real)
    requires UpTo(times, now) && now <= to
    ensures CountIn(times, from, to) == CountIn(times, from, now)
  {
    if times == [] {
    } else {
      CountUpTo(times[..|times| - 1], from, to, now);
    }
  }

  ghost predicate Exact(t: Track, now: real, windowS: real) {
    InWindow(t.requests, t.allRequests, now, windowS) && InWindow(t.hedges, t.allGrants, now, windowS)
  }

  /** The deque is the in-window part of the history, which has nothing later than now. */
  ghost predicate InWindow(deque: seq<real>, all: seq<real>, now: real, windowS: real) {
    UpTo(all, now) && deque == Since(all, now - windowS)
  }

  lemma {:induction false} WindowSlides(all: seq<real>, last: real, now: real, windowS: real)
    requires UpTo(all, last) && last <= now && 0.0 <= windowS
    ensures DropOlder(Since(all, last - windowS), now - windowS) == Since(all, now - windowS)
  {
    SinceKeepsUpTo(all, last - windowS, last);
    PruneIsExact(Since(all, last - windowS), now - windowS);
    SinceOfSince(all, last - windowS, now - windowS);
  }

  lemma HistoryGrows(all: seq<real>, last: real, now: real, windowS: real)
    requires UpTo(all, last) && last <= now && 0.0 <= windowS
    ensures UpTo(all, now) && UpTo(all + [now], now)
    ensures Since(all + [now], now - windowS) == Since(all, now - windowS) + [now]
  {
    assert (all + [now])[..|all|] == all;
  }

  /** One step: pruning leaves the counts of the full history, and the deques stay exact. */
  lemma StepStaysExact(t: Track, last: real, op: Op, windowS: real)
    requires Exact(t, last, windowS) && last <= op.now && 0.0 <= windowS
    ensures Exact(After(t, op, windowS), op.now, windowS)
    ensures |DropOlder(t.hedges, op.now - windowS)| == CountIn(t.allGrants, op.now - windowS, op.now)
    ensures |DropOlder(t.requests, op.now - windowS)| == CountIn(t.allRequests, op.now - windowS, op.now)
    ensures UpTo(t.allGrants, op.now) && UpTo(t.allRequests, op.now)
  {
    DequeStaysExact(t.requests, t.allRequests, last, op.now, windowS);
    DequeStaysExact(t.hedges, t.allGrants, last, op.now, windowS);
  }

  lemma {:induction false} DequeStaysExact(deque: seq<real>, all: seq<real>, last: real, now: real, windowS: real)
    requires InWindow(deque, all, last, windowS) && last <= now && 0.0 <= windowS
    ensures var pruned := DropOlder(deque, now - windowS);
            && InWindow(pruned, all, now, windowS) && InWindow(pruned + [now], all + [now], now, windowS)
            && |pruned| == CountIn(all, now - windowS, now)
  {
    WindowSlides(all, last, now, windowS);
    HistoryGrows(all, last, now, windowS);
    CountSince(all, now - windowS, now);
  }

  function LastTime(ops: seq<Op>, start: real): real {
    if ops == [] then start else ops[|ops| - 1].now
  }

  /** In every run the deques hold exactly the part of the full history that is in the window. */
  lemma {:induction false} DequesAreWindow(ops: seq<Op>, windowS: real, start: real)
    requires Timely(ops) && 0.0 <= windowS && (ops != [] ==> start <= ops[0].now)
    ensures Exact(Run(ops, windowS), LastTime(ops, start), windowS)
  {
    if ops == [] {
    } else {
      var init := ops[..|ops| - 1];
      DequesAreWindow(init, windowS, start);
      StepStaysExact(Run(init, windowS), LastTime(init, start), ops[|ops| - 1], windowS);
    }
  }

  /** The grants and requests that are in the window when a hedge asks, out of the full history. */
  predicate AffordableNow(t: Track, op: Op, windowS: real)
    requires op.Hedge?
  {
    Affordable(CountIn(t.allGrants, op.now - windowS, op.now), CountIn(t.allRequests, op.now - windowS, op.now), op.ratio)
  }

  lemma StepGrants(t: Track, last: real, op: Op, windowS: real)
    requires Exact(t, last, windowS) && last <= op.now && 0.0 <= windowS && op.Hedge?
    ensures After(t, op, windowS).allGrants
            == if AffordableNow(t, op, windowS) then t.allGrants + [op.now] else t.allGrants
    ensures After(t, op, windowS).allRequests == t.allRequests
  {
    StepStaysExact(t, last, op, windowS);
    var hedges, requests := |DropOlder(t.hedges, op.now - windowS)|, |DropOlder(t.requests, op.now - windowS)|;
    assert Affordable(hedges, requests, op.ratio) == AffordableNow(t, op, windowS);
  }

  /** A hedge is granted iff the grants in the window, this one included, are within the ratio. */
  lemma GrantedIffAffordable(ops: seq<Op>, windowS: real)
    requires Timely(ops) && 0.0 <= windowS && ops != [] && ops[|ops| - 1].Hedge?
    ensures var before, op := Run(ops[..|ops| - 1], windowS), ops[|ops| - 1];
            Run(ops, windowS).allGrants
            == if AffordableNow(before, op, windowS) then before.allGrants + [op.now] else before.allGrants
  {
    var init := ops[..|ops| - 1];
    DequesAreWindow(init, windowS, ops[0].now);
    StepGrants(Run(init, windowS), LastTime(init, ops[0].now), ops[|ops| - 1], windowS);
  }

  function Allowance(ratio: real, requests: nat): real {
    ratio * MaxInt(1, requests) as real
  }

  lemma AllowanceGrows(ratio: real, ratio': real, requests: nat, requests': nat)
    requires 0.0 <= ratio' && ratio <= ratio' && requests <= requests'
    ensures Allowance(ratio, requests) <= Allowance(ratio', requests') && 0.0 <= Allowance(ratio', requests')
  {
    Product(ratio, ratio', MaxInt(1, requests) as real);
    Product(MaxInt(1, requests) as real, MaxInt(1, requests') as real, ratio');
  }

  lemma Product(a: real, b: real, c: real)
    requires a <= b && 0.0 <= c
    ensures a * c <= b * c
  {
  }

  lemma AffordableAllowance(grants: nat, requests: nat, ratio: real)
    ensures Affordable(grants, requests, ratio) <==> (grants + 1) as real <= Allowance(ratio, requests)
  {
    var n := MaxInt(1, requests) as real;
    DivideBy((grants + 1) as real, n, ratio);
  }

  lemma DivideBy(a: real, n: real, ratio: real)
    requires 0.0 < n
    ensures a / n <= ratio <==> a <= ratio * n
  {
    var share := a / n;
    assert share * n == a;
    Cancel(share, ratio, n);
  }

  lemma Cancel(a: real, b: real, c: real)
    requires 0.0 < c
    ensures a <= b <==> a * c <= b * c
  {
    assert (b - a) * c == b * c - a * c;
    if b < a {
      assert 0.0 < (a - b) * c;
    }
  }

  /** One granted hedge at `now`, seen from any window that contains it. */
  lemma GrantWithinAllowance(before: Track, op: Op, windowS: real, ratio: real, t: real)
    requires UpTo(before.allGrants, op.now) && UpTo(before.allRequests, op.now) && 0.0 <= windowS && 0.0 <= ratio
    requires op.Hedge? && op.ratio <= ratio && t - windowS <= op.now <= t
    requires AffordableNow(before, op, windowS)
    ensures (CountIn(before.allGrants, t - windowS, t) + 1) as real
            <= Allowance(ratio, CountIn(before.allRequests, t - 2.0 * windowS, t))
  {
    var grants := CountIn(before.allGrants, op.now - windowS, op.now);
    var recent := CountIn(before.allRequests, op.now - windowS, op.now);
    CountUpTo(before.allGrants, t - windowS, t, op.now);
    CountGrows(before.allGrants, t - windowS, op.now, op.now - windowS, op.now);
    CountGrows(before.allRequests, op.now - windowS, op.now, t - 2.0 * windowS, t);
    AffordableAllowance(grants, recent, op.ratio);
    AllowanceGrows(op.ratio, ratio, recent, CountIn(before.allRequests, t - 2.0 * windowS, t));
  }

  lemma CountAppend(times: seq<real>, now: real, from: real, to: real)
    ensures CountIn(times + [now], from, to) == CountIn(times, from, to) + if from <= now <= to then 1 else 0
  {
    assert (times + [now])[..|times|] == times;
  }

  ghost predicate WithinAllowance(track: Track, windowS: real, ratio: real, t: real) {
    Within(track.allGrants, track.allRequests, windowS, ratio, t)
  }

  ghost predicate Within(grants: seq<real>, requests: seq<real>, windowS: real, ratio: real, t: real) {
    CountIn(grants, t - windowS, t) as real <= Allowance(ratio, CountIn(requests, t - 2.0 * windowS, t))
  }

  lemma StepKeepsAllowance(before: Track, last: real, op: Op, windowS: real, ratio: real, t: real)
    requires Exact(before, last, windowS) && last <= op.now && 0.0 <= windowS && 0.0 <= ratio
    requires op.Hedge? ==> op.ratio <= ratio
    requires WithinAllowance(before, windowS, ratio, t)
    ensures WithinAllowance(After(before, op, windowS), windowS, ratio, t)
  {
    if op.Request? {
      RequestKeepsAllowance(before.allGrants, before.allRequests, op.now, windowS, ratio, t);
    } else {
      StepGrants(before, last, op, windowS);
      if AffordableNow(before, op, windowS) {
        GrantKeepsAllowance(before, last, op, windowS, ratio, t);
      }
    }
  }

  /** One more request can only raise the allowance. */
  lemma RequestKeepsAllowance(grants: seq<real>, requests: seq<real>, now: real, windowS: real, ratio: real, t: real)
    requires 0.0 <= ratio && Within(grants, requests, windowS, ratio, t)
    ensures Within(grants, requests + [now], windowS, ratio, t)
  {
    var n := CountIn(requests, t - 2.0 * windowS, t);
    CountAppend(requests, now, t - 2.0 * windowS, t);
    AllowanceGrows(ratio, ratio, n, CountIn(requests + [now], t - 2.0 * windowS, t));
  }

  /** One more grant is affordable in every window that contains it, and in no other is it counted. */
  lemma GrantKeepsAllowance(before: Track, last: real, op: Op, windowS: real, ratio: real, t: real)
    requires Exact(before, last, windowS) && last <= op.now && 0.0 <= windowS && 0.0 <= ratio
    requires op.Hedge? && op.ratio <= ratio && AffordableNow(before, op, windowS)
    requires WithinAllowance(before, windowS, ratio, t)
    ensures Within(before.allGrants + [op.now], before.allRequests, windowS, ratio, t)
  {
    CountAppend(before.allGrants, op.now, t - windowS, t);
    if t - windowS <= op.now <= t {
      StepStaysExact(before, last, op, windowS);
      GrantWithinAllowance(before, op, windowS, ratio, t);
    }
  }

  /** Any window [t - w, t] holds at most ratio times the requests of [t - 2w, t], counting at least one. */
  lemma {:induction false} WindowedGrants(ops: seq<Op>, windowS: real, ratio: real, t: real)
    requires Timely(ops) && 0.0 <= windowS && 0.0 <= ratio
    requires forall i :: 0 <= i < |ops| && ops[i].Hedge? ==> ops[i].ratio <= ratio
    ensures WithinAllowance(Run(ops, windowS), windowS, ratio, t)
  {
    if ops == [] {
      AllowanceGrows(0.0, ratio, 0, 0);
    } else {
      var init := ops[..|ops| - 1];
      WindowedGrants(init, windowS, ratio, t);
      DequesAreWindow(init, windowS, ops[0].now);
      StepKeepsAllowance(Run(init, windowS), LastTime(init, ops[0].now), ops[|ops| - 1], windowS, ratio, t);
    }
  }
}
