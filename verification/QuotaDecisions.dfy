/** What an admission decision promises: when to retry, and that a rejection leaves no trace. */
module QuotaDecisions {
  import opened Common
  import opened Reservations
  import opened QuotaScripts
  import opened QuotaRuns
  import TokenBucket

  // ---------------------------------------------------------------------------------------------
  // Retry-After
  // ---------------------------------------------------------------------------------------------

  /** Seconds carried by the quota error (service.py:118). */
  function RetryAfterS(retryAfterMs: int): real {
    Max(1.0, Ceil(retryAfterMs as real / 1000.0) as real)
  }

  /** The whole seconds of the Retry-After header (errors.py:75). */
  function Header(retryAfterS: real): int {
    (retryAfterS + 0.999).Floor
  }

  /** The header is the least number of whole seconds, and at least one, that covers the wait. */
  lemma HeaderCoversWait(retryAfterMs: int)
    ensures retryAfterMs <= 1000 * Header(RetryAfterS(retryAfterMs))
    ensures 1 <= Header(RetryAfterS(retryAfterMs))
    ensures Header(RetryAfterS(retryAfterMs)) == 1 || 1000 * (Header(RetryAfterS(retryAfterMs)) - 1) < retryAfterMs
  {
    var whole := Ceil(retryAfterMs as real / 1000.0);
    assert retryAfterMs <= 1000 * whole;
    assert Header(RetryAfterS(retryAfterMs)) == MaxInt(1, whole);
  }

  /** A shortage is refilled exactly from the millisecond that RetryAfterMs names. */
  lemma ShortageRefilled(shortage: real, perMinute: int, waitMs: int)
    requires 0 < perMinute
    ensures shortage <= TokenBucket.Accrual(waitMs as real, PerMs(perMinute))
            <==> RetryAfterMs(shortage, PerSecond(perMinute)) <= waitMs
  {
    var rate, w := PerSecond(perMinute), waitMs as real;
    var exact := shortage / rate * 1000.0;
    assert rate > 0.0;
    assert exact * rate == shortage * 1000.0;
    Scale(w, exact, rate);
    assert TokenBucket.Accrual(w, PerMs(perMinute)) * 1000.0 == w * rate;
  }

  lemma Scale(a: real, b: real, c: real)
    requires 0.0 < c
    ensures a <= b <==> a * c <= b * c
    ensures b <= a <==> b * c <= a * c
  {
  }

  lemma TokensAfterWait(tokens: real, nowMs: int, perMinute: int, waitMs: nat)
    ensures TokensAt(Bucket(tokens, nowMs, perMinute), nowMs + waitMs, perMinute)
            == Min(perMinute as real, tokens + TokenBucket.Accrual(waitMs as real, PerMs(perMinute)))
  {
  }

  lemma EnoughAfterWait(tokens: real, accrued: real, need: int, cap: int)
    requires tokens <= cap as real && 0.0 <= accrued
    ensures tokens <= Min(cap as real, tokens + accrued)
    ensures need as real <= Min(cap as real, tokens + accrued) <==> need <= cap && need as real - tokens <= accrued
  {
  }

  lemma AccruedInTime(shortage: real, perMinute: int, waitMs: nat)
    requires 0 <= perMinute && 0.0 < shortage
    ensures shortage <= TokenBucket.Accrual(waitMs as real, PerMs(perMinute))
            <==> 0 < perMinute && RetryAfterMs(shortage, PerSecond(perMinute)) <= waitMs
  {
    if 0 < perMinute {
      ShortageRefilled(shortage, perMinute, waitMs);
    } else {
      assert PerMs(0) == 0.0 && TokenBucket.Accrual(waitMs as real, 0.0) == 0.0;
    }
  }

  /** What a bucket short of `need` tokens at nowMs, and read then, holds `waitMs` later. */
  lemma WaitForTokens(b: BucketHash, nowMs: int, perMinute: int, need: int, waitMs: nat)
    requires 0 <= perMinute
    ensures var tokens := TokensAt(b, nowMs, perMinute);
            var later := TokensAt(Bucket(tokens, nowMs, perMinute), nowMs + waitMs, perMinute);
            && tokens <= later
            && (tokens < need as real ==>
                  (need as real <= later
                   <==> 0 < perMinute && need <= perMinute
                        && RetryAfterMs(need as real - tokens, PerSecond(perMinute)) <= waitMs))
  {
    var tokens := TokensAt(b, nowMs, perMinute);
    var accrued := TokenBucket.Accrual(waitMs as real, PerMs(perMinute));
    TokenBucket.AccrualGrows(0.0, waitMs as real, PerMs(perMinute));
    TokensAfterWait(tokens, nowMs, perMinute, waitMs);
    EnoughAfterWait(tokens, accrued, need, perMinute);
    if tokens < need as real {
      AccruedInTime(need as real - tokens, perMinute, waitMs);
    }
  }

  function Later(r: Request, waitMs: nat): Request {
    r.(nowMs := r.nowMs + waitMs)
  }

  /** The keys as a rejected attempt leaves them. */
  lemma RejectionLeaves(p: Plan, s: Tenant, r: Request)
    requires Decide(s, p, r).Rejected?
    ensures Reserve(s, p, r).rpm == Bucket(TokensAt(s.rpm, r.nowMs, p.rpm), r.nowMs, p.rpm)
    ensures Reserve(s, p, r).tpm == Bucket(TokensAt(s.tpm, r.nowMs, p.tpm), r.nowMs, p.tpm)
    ensures Reserve(s, p, r).budget == s.budget[r.month := MapOr(s.budget, r.month, p.budgetMicro)]
  {
  }

  /**
   * A request rejected on tokens and repeated with nothing in between gets past the token check exactly
   * when it waited the announced milliseconds, the rate is positive and the bucket can ever hold its cost.
   */
  lemma TpmRetryAfterIsExact(p: Plan, s: Tenant, r: Request, waitMs: nat)
    requires Sensible(p) && Decide(s, p, r).Rejected? && Decide(s, p, r).dimension == Tpm
    ensures var again := Decide(Reserve(s, p, r), p, Later(r, waitMs));
            again.Rejected? && (again.dimension == Rpm || again.dimension == Tpm)
            <==> !(0 < p.tpm && r.tpmCost <= p.tpm && Decide(s, p, r).retryAfterMs <= waitMs)
  {
    WaitForTokens(s.rpm, r.nowMs, p.rpm, 1, waitMs);
    WaitForTokens(s.tpm, r.nowMs, p.tpm, r.tpmCost, waitMs);
    RejectionLeaves(p, s, r);
  }

  /** The same for a request rejected on the request rate, which needs one request token. */
  lemma RpmRetryAfterIsExact(p: Plan, s: Tenant, r: Request, waitMs: nat)
    requires Sensible(p) && Decide(s, p, r).Rejected? && Decide(s, p, r).dimension == Rpm
    ensures var again := Decide(Reserve(s, p, r), p, Later(r, waitMs));
            again.Rejected? && again.dimension == Rpm
            <==> !(1 <= p.rpm && Decide(s, p, r).retryAfterMs <= waitMs)
  {
    WaitForTokens(s.rpm, r.nowMs, p.rpm, 1, waitMs);
    RejectionLeaves(p, s, r);
  }

  /** Waiting the header's whole seconds clears the limit that rejected the request. */
  lemma {:induction false} HeaderIsSufficient(p: Plan, s: Tenant, r: Request)
    requires Sensible(p) && Decide(s, p, r).Rejected?
    requires match Decide(s, p, r).dimension
             case Rpm => 1 <= p.rpm
             case Tpm => 0 < p.tpm && r.tpmCost <= p.tpm
             case _ => false
    ensures var seconds := Header(RetryAfterS(Decide(s, p, r).retryAfterMs));
            0 < seconds &&
            (var again := Decide(Reserve(s, p, r), p, Later(r, 1000 * seconds));
             again.Rejected? ==> again.dimension != Decide(s, p, r).dimension)
  {
    var ms := Decide(s, p, r).retryAfterMs;
    HeaderCoversWait(ms);
    var wait := 1000 * Header(RetryAfterS(ms));
    if Decide(s, p, r).dimension == Rpm {
      RpmRetryAfterIsExact(p, s, r, wait);
    } else {
      TpmRetryAfterIsExact(p, s, r, wait);
    }
  }

  // ---------------------------------------------------------------------------------------------
  // Rejections are unobservable
  // ---------------------------------------------------------------------------------------------

  datatype Outcome = Decided(d: Decision) | Released(found: bool) | Swept(count: nat)

  function Exec(p: Plan, s: Tenant, op: Op): (Tenant, Outcome) {
    match op
    case Reserving(r) => (Reserve(s, p, r), Decided(Decide(s, p, r)))
    case Settling(id, tpm, budget) => (Settle(s, id, tpm, budget), Released(id in s.held))
    case Sweeping(_, _, ids) =>
      (SweepAll(s, ids), Swept(|set id | id in ids && id in s.held|))
  }

  function Outcomes(p: Plan, s: Tenant, ops: seq<Op>): seq<Outcome>
    decreases |ops|
  {
    if ops == [] then [] else [Exec(p, s, ops[0]).1] + Outcomes(p, Exec(p, s, ops[0]).0, ops[1..])
  }

  /** The entries of xs at the positions that `keep` marks. */
  function Kept<T>(xs: seq<T>, keep: seq<bool>): seq<T>
    requires |xs| == |keep|
  {
    if xs == [] then [] else (if keep[0] then [xs[0]] else []) + Kept(xs[1..], keep[1..])
  }

  /** Reserve times do not go back, costs are at least the estimator's, settles stay within estimates. */
  ghost predicate Tame(p: Plan, s: Tenant, ops: seq<Op>, clockMs: int)
    decreases |ops|
  {
    ops == [] ||
    ((match ops[0]
      case Reserving(r) => clockMs <= r.nowMs && 1 <= r.tpmCost
      case Settling(id, tpm, _) => id in s.held ==> tpm <= s.held[id].tpmEst
      case Sweeping(_, _, _) => true) &&
     Tame(p, Exec(p, s, ops[0]).0, ops[1..], if ops[0].Reserving? then ops[0].r.nowMs else clockMs))
  }

  /** Only rejected reserve attempts are dropped. */
  ghost predicate DropsRejections(outcomes: seq<Outcome>, keep: seq<bool>) {
    |outcomes| == |keep| &&
    forall i :: 0 <= i < |keep| && !keep[i] ==> outcomes[i].Decided? && outcomes[i].d.Rejected?
  }

  ghost predicate BucketAlike(a: BucketHash, b: BucketHash, perMinute: int, clockMs: int) {
    && (a == NO_BUCKET || (Filled(a, perMinute) && a.tsMs.value <= clockMs && a.tokens.value <= perMinute as real))
    && (b == NO_BUCKET || (Filled(b, perMinute) && b.tsMs.value <= clockMs && b.tokens.value <= perMinute as real))
    && TokensAt(a, clockMs, perMinute) == TokensAt(b, clockMs, perMinute)
  }

  /** A month's budget that was never touched counts as untouched, seeded or not. */
  ghost predicate BudgetAlike(p: Plan, a: map<Month, int>, b: map<Month, int>) {
    forall m :: MapOr(a, m, p.budgetMicro) == MapOr(b, m, p.budgetMicro)
  }

  lemma PutStaysAlike(p: Plan, a: map<Month, int>, b: map<Month, int>, month: Month, left: int)
    requires BudgetAlike(p, a, b)
    ensures BudgetAlike(p, a[month := left], b[month := left])
  {
    var a', b' := a[month := left], b[month := left];
    forall m
      ensures MapOr(a', m, p.budgetMicro) == MapOr(b', m, p.budgetMicro)
    {
      assert MapOr(a, m, p.budgetMicro) == MapOr(b, m, p.budgetMicro);
    }
  }

  lemma SeedStaysAlike(p: Plan, a: map<Month, int>, b: map<Month, int>, month: Month)
    requires BudgetAlike(p, a, b)
    ensures MapOr(a, month, p.budgetMicro) == MapOr(b, month, p.budgetMicro)
    ensures BudgetAlike(p, a[month := MapOr(a, month, p.budgetMicro)], b)
    ensures BudgetAlike(p, a[month := MapOr(a, month, p.budgetMicro)], b[month := MapOr(b, month, p.budgetMicro)])
  {
    var seeded := a[month := MapOr(a, month, p.budgetMicro)];
    forall m
      ensures MapOr(seeded, m, p.budgetMicro) == MapOr(b, m, p.budgetMicro)
    {
      assert MapOr(a, m, p.budgetMicro) == MapOr(b, m, p.budgetMicro);
    }
    PutStaysAlike(p, a, b, month, MapOr(a, month, p.budgetMicro));
  }

  /** Two tenants no later step can tell apart. */
  ghost predicate Alike(p: Plan, a: Tenant, b: Tenant, clockMs: int) {
    && BucketAlike(a.rpm, b.rpm, p.rpm, clockMs) && BucketAlike(a.tpm, b.tpm, p.tpm, clockMs)
    && a.conc == b.conc && a.deadlines == b.deadlines && a.held == b.held
    && BudgetAlike(p, a.budget, b.budget)
    && (forall id :: id in a.held ==> 1 <= a.held[id].tpmEst &&
                                      a.held[id].month in a.budget && a.held[id].month in b.budget)
    && (a.held != map[] ==> 1 <= p.tpm && a.tpm != NO_BUCKET && b.tpm != NO_BUCKET)
  }

  /** A bucket's level at a later instant depends only on its level at the clock. */
  lemma TokensAtLater(a: BucketHash, perMinute: int, clockMs: int, nowMs: int)
    requires 0 <= perMinute && clockMs <= nowMs
    requires a == NO_BUCKET || (Filled(a, perMinute) && a.tsMs.value <= clockMs)
    ensures TokensAt(a, nowMs, perMinute)
            == TokenBucket.Refill(TokensAt(a, clockMs, perMinute), (nowMs - clockMs) as real,
                                  PerMs(perMinute), perMinute as real)
  {
    if a == NO_BUCKET {
      TokenBucket.AccrualGrows(0.0, (nowMs - clockMs) as real, PerMs(perMinute));
    } else {
      TokenBucket.RefillComposes(a.tokens.value, (clockMs - a.tsMs.value) as real, (nowMs - clockMs) as real,
                                 PerMs(perMinute), perMinute as real);
      assert (clockMs - a.tsMs.value) as real + (nowMs - clockMs) as real == (nowMs - a.tsMs.value) as real;
    }
  }

  /** Writing back the level read at `nowMs`, on one side or both, less what both sides take. */
  lemma BucketStaysAlike(a: BucketHash, b: BucketHash, perMinute: int, clockMs: int, nowMs: int, spend: real)
    requires 0 <= perMinute && clockMs <= nowMs && 0.0 <= spend && BucketAlike(a, b, perMinute, clockMs)
    ensures TokensAt(a, nowMs, perMinute) == TokensAt(b, nowMs, perMinute) <= perMinute as real
    ensures var next := Bucket(TokensAt(a, nowMs, perMinute) - spend, nowMs, perMinute);
            BucketAlike(next, next, perMinute, nowMs)
    ensures BucketAlike(Bucket(TokensAt(a, nowMs, perMinute), nowMs, perMinute), b, perMinute, nowMs)
  {
    TokensAtLater(a, perMinute, clockMs, nowMs);
    TokensAtLater(b, perMinute, clockMs, nowMs);
    assert TokenBucket.Accrual(0.0, PerMs(perMinute)) == 0.0;
  }

  lemma RefundStaysAlike(a: BucketHash, b: BucketHash, perMinute: int, clockMs: int, refund: real)
    requires 0 < perMinute && 0.0 <= refund && BucketAlike(a, b, perMinute, clockMs)
    requires a != NO_BUCKET && b != NO_BUCKET
    ensures BucketAlike(Refunded(a, refund), Refunded(b, refund), perMinute, clockMs)
  {
    var cap := perMinute as real;
    TokenBucket.RefillCommutesWithRefund(a.tokens.value, (clockMs - a.tsMs.value) as real, refund, PerMs(perMinute), cap);
    TokenBucket.RefillCommutesWithRefund(b.tokens.value, (clockMs - b.tsMs.value) as real, refund, PerMs(perMinute), cap);
  }

  lemma AlikeDecide(p: Plan, a: Tenant, b: Tenant, clockMs: int, r: Request)
    requires Sensible(p) && Alike(p, a, b, clockMs) && clockMs <= r.nowMs
    ensures TokensAt(a.rpm, r.nowMs, p.rpm) == TokensAt(b.rpm, r.nowMs, p.rpm)
    ensures TokensAt(a.tpm, r.nowMs, p.tpm) == TokensAt(b.tpm, r.nowMs, p.tpm)
    ensures Decide(a, p, r) == Decide(b, p, r)
  {
    BucketStaysAlike(a.rpm, b.rpm, p.rpm, clockMs, r.nowMs, 0.0);
    BucketStaysAlike(a.tpm, b.tpm, p.tpm, clockMs, r.nowMs, 0.0);
  }

  lemma AdmittedStaysAlike(p: Plan, a: Tenant, b: Tenant, clockMs: int, r: Request)
    requires Sensible(p) && Alike(p, a, b, clockMs) && clockMs <= r.nowMs && 1 <= r.tpmCost
    requires Decide(a, p, r).Admitted?
    ensures Alike(p, Reserve(a, p, r), Reserve(b, p, r), r.nowMs)
  {
    AlikeDecide(p, a, b, clockMs, r);
    BucketStaysAlike(a.rpm, b.rpm, p.rpm, clockMs, r.nowMs, 1.0);
    BucketStaysAlike(a.tpm, b.tpm, p.tpm, clockMs, r.nowMs, r.tpmCost as real);
    var a', b' := Reserve(a, p, r), Reserve(b, p, r);
    assert BucketAlike(a'.rpm, b'.rpm, p.rpm, r.nowMs) && BucketAlike(a'.tpm, b'.tpm, p.tpm, r.nowMs);
    assert a'.held == b'.held && a'.deadlines == b'.deadlines && a'.conc == b'.conc;
    assert 1 <= p.tpm;
    SeedStaysAlike(p, a.budget, b.budget, r.month);
    var left := MapOr(a.budget, r.month, p.budgetMicro) - r.budgetCost;
    PutStaysAlike(p, a.budget, b.budget, r.month, left);
    assert a'.budget == a.budget[r.month := left] && b'.budget == b.budget[r.month := left];
  }

  lemma RejectedStaysAlike(p: Plan, a: Tenant, b: Tenant, clockMs: int, r: Request)
    requires Sensible(p) && Alike(p, a, b, clockMs) && clockMs <= r.nowMs
    requires Decide(a, p, r).Rejected?
    ensures Alike(p, Reserve(a, p, r), b, r.nowMs)
    ensures Alike(p, Reserve(a, p, r), Reserve(b, p, r), r.nowMs)
  {
    AlikeDecide(p, a, b, clockMs, r);
    BucketStaysAlike(a.rpm, b.rpm, p.rpm, clockMs, r.nowMs, 0.0);
    BucketStaysAlike(a.tpm, b.tpm, p.tpm, clockMs, r.nowMs, 0.0);
    RejectionLeaves(p, a, r);
    RejectionLeaves(p, b, r);
    SeedStaysAlike(p, a.budget, b.budget, r.month);
  }

  lemma ReserveStaysAlike(p: Plan, a: Tenant, b: Tenant, clockMs: int, r: Request)
    requires Sensible(p) && Alike(p, a, b, clockMs) && clockMs <= r.nowMs && 1 <= r.tpmCost
    ensures Decide(a, p, r) == Decide(b, p, r)
    ensures Alike(p, Reserve(a, p, r), Reserve(b, p, r), r.nowMs)
    ensures Decide(a, p, r).Rejected? ==> Alike(p, Reserve(a, p, r), b, r.nowMs)
  {
    AlikeDecide(p, a, b, clockMs, r);
    if Decide(a, p, r).Admitted? {
      AdmittedStaysAlike(p, a, b, clockMs, r);
    } else {
      RejectedStaysAlike(p, a, b, clockMs, r);
    }
  }

  lemma SettleStaysAlike(p: Plan, a: Tenant, b: Tenant, clockMs: int, id: Id, tpm: int, budget: int)
    requires Sensible(p) && Alike(p, a, b, clockMs) && (id in a.held ==> tpm <= a.held[id].tpmEst)
    ensures Alike(p, Settle(a, id, tpm, budget), Settle(b, id, tpm, budget), clockMs)
  {
    if id in a.held {
      RefundStaysAlike(a.tpm, b.tpm, p.tpm, clockMs, (a.held[id].tpmEst - tpm) as real);
      var r := a.held[id];
      PutStaysAlike(p, a.budget, b.budget, r.month, MapOr(a.budget, r.month, 0) + (r.budgetEst - budget));
      SeedStaysAlike(p, a.budget, b.budget, r.month);
    }
  }

  lemma {:induction false} SweepStaysAlike(p: Plan, a: Tenant, b: Tenant, clockMs: int, ids: seq<Id>)
    requires Sensible(p) && Alike(p, a, b, clockMs)
    ensures Alike(p, SweepAll(a, ids), SweepAll(b, ids), clockMs)
  {
    if ids == [] {
    } else {
      var init, last := ids[..|ids| - 1], ids[|ids| - 1];
      SweepStaysAlike(p, a, b, clockMs, init);
      SettleStaysAlike(p, SweepAll(a, init), SweepAll(b, init), clockMs, last, 0, 0);
    }
  }

  /** Dropping rejected attempts from a run leaves every other outcome as it was. */
  lemma {:induction false} DroppedFrom(p: Plan, a: Tenant, b: Tenant, ops: seq<Op>, keep: seq<bool>, clockMs: int)
    requires Sensible(p) && Alike(p, a, b, clockMs) && Tame(p, a, ops, clockMs)
    requires |ops| == |keep| && DropsRejections(Outcomes(p, a, ops), keep)
    ensures |Outcomes(p, a, ops)| == |keep|
    ensures Outcomes(p, b, Kept(ops, keep)) == Kept(Outcomes(p, a, ops), keep)
    decreases |ops|
  {
    if ops == [] {
    } else {
      var op := ops[0];
      var a' := Exec(p, a, op).0;
      var clock' := if op.Reserving? then op.r.nowMs else clockMs;
      var later := Outcomes(p, a', ops[1..]);
      assert Outcomes(p, a, ops)[1..] == later;
      assert DropsRejections(later, keep[1..]) by {
        forall i | 0 <= i < |keep[1..]| && !keep[1..][i]
          ensures later[i].Decided? && later[i].d.Rejected?
        {
          assert later[i] == Outcomes(p, a, ops)[i + 1];
        }
      }
      match op {
        case Reserving(r) => ReserveStaysAlike(p, a, b, clockMs, r);
        case Settling(id, tpm, budget) => SettleStaysAlike(p, a, b, clockMs, id, tpm, budget);
        case Sweeping(_, _, ids) => SweepStaysAlike(p, a, b, clockMs, ids);
      }
      if keep[0] {
        var b' := Exec(p, b, op).0;
        DroppedFrom(p, a', b', ops[1..], keep[1..], clock');
        assert Kept(ops, keep)[0] == op && Kept(ops, keep)[1..] == Kept(ops[1..], keep[1..]);
      } else {
        assert Outcomes(p, a, ops)[0] == Exec(p, a, op).1;
        DroppedFrom(p, a', b, ops[1..], keep[1..], clock');
        assert Kept(ops, keep) == Kept(ops[1..], keep[1..]);
      }
    }
  }

  /** A rejected reserve attempt cannot be observed by anything that follows in a tenant's life. */
  lemma RejectionsUnobservable(p: Plan, ops: seq<Op>, keep: seq<bool>, clockMs: int)
    requires Sensible(p) && Tame(p, EMPTY, ops, clockMs)
    requires |ops| == |keep| && DropsRejections(Outcomes(p, EMPTY, ops), keep)
    ensures |Outcomes(p, EMPTY, ops)| == |keep|
    ensures Outcomes(p, EMPTY, Kept(ops, keep)) == Kept(Outcomes(p, EMPTY, ops), keep)
  {
    DroppedFrom(p, EMPTY, EMPTY, ops, keep, clockMs);
  }

  /**
   * The limit on settles is needed, exactly: a rejected attempt before a settle is unobservable to every
   * later reading of the bucket iff the settle refunds nothing negative or the attempt clipped nothing.
   */
  lemma RejectionBeforeSettle(p: Plan, b: BucketHash, atMs: int, refund: real)
    requires 0 < p.tpm && Filled(b, p.tpm) && b.tsMs.value <= atMs && b.tokens.value <= p.tpm as real
    ensures TokensAt(Refunded(Bucket(TokensAt(b, atMs, p.tpm), atMs, p.tpm), refund), atMs, p.tpm)
            == TokensAt(Refunded(b, refund), atMs, p.tpm)
            <==> 0.0 <= refund
                 || b.tokens.value + TokenBucket.Accrual((atMs - b.tsMs.value) as real, PerMs(p.tpm)) <= p.tpm as real
  {
    TokenBucket.RefillCommutesWithRefund(b.tokens.value, (atMs - b.tsMs.value) as real, refund, PerMs(p.tpm),
                                         p.tpm as real);
    assert TokenBucket.Accrual(0.0, PerMs(p.tpm)) == 0.0;
  }
}
