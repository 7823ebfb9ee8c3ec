/** When a rejected attempt is noticed after all: a settle above its estimate comes between. */
module QuotaRejections {
  import opened Common
  import opened Reservations
  import opened QuotaScripts
  import opened QuotaRuns
  import opened QuotaDecisions
  import TokenBucket

  /** A bucket's level at `later` if the attempt at `at` wrote it back before the refund, and if it did not. */
  lemma LevelsApart(b: BucketHash, perMinute: int, at: int, later: int, refund: real, x: real)
    requires 0 < perMinute && Filled(b, perMinute) && b.tsMs.value <= at <= later && b.tokens.value <= perMinute as real
    ensures var with := TokensAt(Refunded(Bucket(TokensAt(b, at, perMinute), at, perMinute), refund), later, perMinute);
            var without := TokensAt(Refunded(b, refund), later, perMinute);
            && with <= without
            && (x <= without ==>
                  (with < x <==>
                   refund < 0.0 &&
                   perMinute as real + refund + TokenBucket.Accrual((later - at) as real, PerMs(perMinute)) < x))
  {
    var first, second := (at - b.tsMs.value) as real, (later - at) as real;
    assert first + second == (later - b.tsMs.value) as real;
    TokenBucket.AccrualAdds(first, second, PerMs(perMinute));
    TokenBucket.AccrualGrows(0.0, first, PerMs(perMinute));
    TokenBucket.AccrualGrows(0.0, second, PerMs(perMinute));
  }

  /** A bucket written back at `at` reads the same later. */
  lemma WrittenBack(b: BucketHash, perMinute: int, at: int, later: int)
    requires 0 <= perMinute && at <= later
    requires b == NO_BUCKET || (Filled(b, perMinute) && b.tsMs.value <= at)
    ensures TokensAt(Bucket(TokensAt(b, at, perMinute), at, perMinute), later, perMinute) == TokensAt(b, later, perMinute)
  {
    var written := Bucket(TokensAt(b, at, perMinute), at, perMinute);
    assert TokenBucket.Accrual(0.0, PerMs(perMinute)) == 0.0;
    assert TokensAt(b, at, perMinute) <= perMinute as real;
    assert TokensAt(written, at, perMinute) == TokensAt(b, at, perMinute);
    TokensAtLater(written, perMinute, at, later);
    TokensAtLater(b, perMinute, at, later);
  }

  /** Seeding a month that holds the refund's reservation does not change what any month reads. */
  lemma SeededBudgetsAgree(p: Plan, budget: map<Month, int>, seeded: Month, refunded: Month, change: int, read: Month)
    requires refunded in budget
    ensures var with := budget[seeded := MapOr(budget, seeded, p.budgetMicro)];
            MapOr(with[refunded := MapOr(with, refunded, 0) + change], read, p.budgetMicro)
            == MapOr(budget[refunded := MapOr(budget, refunded, 0) + change], read, p.budgetMicro)
  {
  }

  /** What is left of the request bucket, the counter and the budgets does not depend on the attempt. */
  lemma OtherChecksAgree(p: Plan, s: Tenant, clockMs: int, r: Request, id: Id, tpm: int, budget: int, later: Request)
    requires Sensible(p) && Alike(p, s, s, clockMs) && clockMs <= r.nowMs <= later.nowMs
    requires id in s.held && Decide(s, p, r).Rejected?
    ensures var with, without := Settle(Reserve(s, p, r), id, tpm, budget), Settle(s, id, tpm, budget);
            && TokensAt(with.rpm, later.nowMs, p.rpm) == TokensAt(without.rpm, later.nowMs, p.rpm)
            && with.conc == without.conc && with.held == without.held
            && MapOr(with.budget, later.month, p.budgetMicro) == MapOr(without.budget, later.month, p.budgetMicro)
  {
    RejectionLeaves(p, s, r);
    WrittenBack(s.rpm, p.rpm, r.nowMs, later.nowMs);
    SeededBudgetsAgree(p, s.budget, r.month, s.held[id].month, s.held[id].budgetEst - budget, later.month);
  }

  /**
   * A rejected attempt before a settle changes a later admission exactly if the settle exceeds its estimate
   * and the later request, admitted without the attempt, costs more than the full bucket less that excess and
   * plus what has been refilled since the attempt.
   */
  lemma {:induction false} RejectionSwaysAdmission(p: Plan, s: Tenant, clockMs: int, r: Request, id: Id, tpm: int, budget: int,
                                                   later: Request)
    requires Sensible(p) && Alike(p, s, s, clockMs) && clockMs <= r.nowMs <= later.nowMs
    requires id in s.held && Decide(s, p, r).Rejected?
    ensures var with, without := Settle(Reserve(s, p, r), id, tpm, budget), Settle(s, id, tpm, budget);
            var excess := tpm - s.held[id].tpmEst;
            Decide(with, p, later).Admitted? != Decide(without, p, later).Admitted?
            <==> && Decide(without, p, later).Admitted?
                 && 0 < excess
                 && (p.tpm - excess) as real + TokenBucket.Accrual((later.nowMs - r.nowMs) as real, PerMs(p.tpm))
                    < later.tpmCost as real
  {
    var refund := (s.held[id].tpmEst - tpm) as real;
    OtherChecksAgree(p, s, clockMs, r, id, tpm, budget, later);
    RejectionLeaves(p, s, r);
    LevelsApart(s.tpm, p.tpm, r.nowMs, later.nowMs, refund, later.tpmCost as real);
    var with, without := Settle(Reserve(s, p, r), id, tpm, budget), Settle(s, id, tpm, budget);
    assert with.tpm == Refunded(Bucket(TokensAt(s.tpm, r.nowMs, p.tpm), r.nowMs, p.tpm), refund);
    assert without.tpm == Refunded(s.tpm, refund);
  }

  // ---------------------------------------------------------------------------------------------
  // A run
  // ---------------------------------------------------------------------------------------------

  const PLAN := Plan(60000, 60000, 10, 0)

  function Req(id: Id, nowMs: int, cost: int): Request {
    Request(nowMs, id, 1000000, cost, 0, "m")
  }

  function Keys(rpm: real, tpm: real, tsMs: int, held: bool): Tenant {
    Tenant(Bucket(rpm, tsMs, 60000), Bucket(tpm, tsMs, 60000), if held then 1 else 0, map["m" := 0],
           if held then map["a" := 1000000] else map[], if held then map["a" := Reservation(10, 0, "m")] else map[])
  }

  lemma FirstReserve()
    ensures Decide(EMPTY, PLAN, Req("a", 0, 10)) == Admitted
    ensures Reserve(EMPTY, PLAN, Req("a", 0, 10)) == Keys(59999.0, 59990.0, 0, true)
  {
    assert map["m" := 0]["m" := 0 - 0] == map["m" := 0];
  }

  lemma TwentyMs()
    ensures TokenBucket.Accrual(20.0, PerSecond(60000) / 1000.0) == 20.0
    ensures TokenBucket.Accrual(0.0, PerSecond(60000) / 1000.0) == 0.0
  {
  }

  /** The attempt asks for more than the bucket can hold; its refill is cut at the cap. */
  lemma SecondReserve()
    ensures var s := Keys(59999.0, 59990.0, 0, true);
            && Decide(s, PLAN, Req("b", 20, 60001)).Rejected?
            && Reserve(s, PLAN, Req("b", 20, 60001)) == Keys(60000.0, 60000.0, 20, true)
  {
    TwentyMs();
    assert map["m" := 0]["m" := 0] == map["m" := 0];
  }

  lemma SettleAbove(rpm: real, tpm: real, tsMs: int)
    requires tpm <= 60000.0
    ensures Settle(Keys(rpm, tpm, tsMs, true), "a", 110, 0) == Keys(rpm, tpm - 100.0, tsMs, false)
  {
    assert map["m" := 0]["m" := 0 + (0 - 0)] == map["m" := 0];
    assert map["a" := 1000000] - {"a"} == map[];
    assert map["a" := Reservation(10, 0, "m")] - {"a"} == map[];
  }

  lemma LastReserveWith()
    ensures Decide(Keys(60000.0, 59900.0, 20, false), PLAN, Req("c", 20, 59905)).Rejected?
  {
    TwentyMs();
    assert TokensAt(Bucket(59900.0, 20, 60000), 20, 60000) == 59900.0;
  }

  lemma LastReserveWithout()
    ensures Decide(Keys(59999.0, 59890.0, 0, false), PLAN, Req("c", 20, 59905)) == Admitted
  {
    TwentyMs();
    assert TokensAt(Bucket(59999.0, 0, 60000), 20, 60000) == 60000.0;
    assert TokensAt(Bucket(59890.0, 0, 60000), 20, 60000) == 59910.0;
  }

  /** A run from the start in which dropping a rejected attempt turns a later rejection into an admission. */
  lemma RejectionIsNoticed()
    ensures var a, b, c := Reserving(Req("a", 0, 10)), Reserving(Req("b", 20, 60001)), Reserving(Req("c", 20, 59905));
            var ops, keep := [a, b, Settling("a", 110, 0), c], [true, false, true, true];
            var outcomes := Outcomes(PLAN, EMPTY, ops);
            && |outcomes| == 4 && DropsRejections(outcomes, keep)
            && Outcomes(PLAN, EMPTY, Kept(ops, keep)) != Kept(outcomes, keep)
  {
    var a, b, c := Reserving(Req("a", 0, 10)), Reserving(Req("b", 20, 60001)), Reserving(Req("c", 20, 59905));
    var settle := Settling("a", 110, 0);
    FirstReserve();
    SecondReserve();
    SettleAbove(60000.0, 60000.0, 20);
    SettleAbove(59999.0, 59990.0, 0);
    LastReserveWith();
    LastReserveWithout();
    var s1, s2 := Keys(59999.0, 59990.0, 0, true), Keys(60000.0, 60000.0, 20, true);
    TwoFrom(s2, settle, c);
    TwoFrom(s1, settle, c);
    var rejected := Exec(PLAN, s1, b).1;
    var outcomes := Outcomes(PLAN, EMPTY, [a, b, settle, c]);
    Later(EMPTY, a, [b, settle, c]);
    Later(s1, b, [settle, c]);
    Later(EMPTY, a, [settle, c]);
    assert [a] + [b, settle, c] == [a, b, settle, c] && [b] + [settle, c] == [b, settle, c];
    assert [a] + [settle, c] == [a, settle, c];
    assert outcomes == [Exec(PLAN, EMPTY, a).1] + ([rejected] + Outcomes(PLAN, s2, [settle, c]));
    assert Kept([a, b, settle, c], [true, false, true, true]) == [a, settle, c] by {
      KeptOf(a, b, settle, c);
    }
    KeptOf(outcomes[0], outcomes[1], outcomes[2], outcomes[3]);
    assert outcomes == [outcomes[0], outcomes[1], outcomes[2], outcomes[3]];
    var shorter := Outcomes(PLAN, EMPTY, [a, settle, c]);
    assert shorter == [Exec(PLAN, EMPTY, a).1] + Outcomes(PLAN, s1, [settle, c]);
    assert shorter[2] == Outcomes(PLAN, s1, [settle, c])[1];
  }

  lemma Later(s: Tenant, op: Op, rest: seq<Op>)
    ensures Outcomes(PLAN, s, [op] + rest) == [Exec(PLAN, s, op).1] + Outcomes(PLAN, Exec(PLAN, s, op).0, rest)
  {
    assert ([op] + rest)[1..] == rest;
  }

  lemma TwoFrom(s: Tenant, op: Op, last: Op)
    ensures Outcomes(PLAN, s, [op, last])
            == [Exec(PLAN, s, op).1, Exec(PLAN, Exec(PLAN, s, op).0, last).1]
  {
    Later(s, op, [last]);
    Later(Exec(PLAN, s, op).0, last, []);
    assert [op] + [last] == [op, last] && [last] + [] == [last];
  }

  lemma KeptOf<T>(a: T, b: T, c: T, d: T)
    ensures Kept([a, b, c, d], [true, false, true, true]) == [a, c, d]
  {
    assert [a, b, c, d][1..] == [b, c, d] && [b, c, d][1..] == [c, d] && [c, d][1..] == [d] && [d][1..] == [];
    assert [true, false, true, true][1..] == [false, true, true] && [false, true, true][1..] == [true, true];
    assert [true, true][1..] == [true] && [true][1..] == [];
    assert Kept([d], [true]) == [d];
    assert Kept([c, d], [true, true]) == [c, d];
    assert Kept([b, c, d], [false, true, true]) == [c, d];
  }
}
