/** The quota promises, read off the invariants of QuotaRuns for every run of the three scripts. */
module QuotaTheorems {
  import opened Common
  import opened Reservations
  import opened QuotaScripts
  import opened QuotaRuns
  import TokenBucket

  // ---------------------------------------------------------------------------------------------
  // Tokens
  // ---------------------------------------------------------------------------------------------

  /** Estimates of everything still reserved. */
  ghost function Outstanding(s: Tenant): int {
    Sum(s.held, TokensOf())
  }

  /**
   * Every token is accounted for, in every run: what the bucket holds is one full bucket plus the refill,
   * less settled usage, outstanding estimates, estimates that were overwritten, and what the cap cut off.
   */
  lemma TpmConservation(p: Plan, ops: seq<Op>)
    requires Sensible(p)
    ensures var w := Run(p, ops);
            w.b.visits != [] ==>
              && Filled(w.s.tpm, p.tpm)
              && w.s.tpm.tokens.value
                 == p.tpm as real + TokenBucket.Accrual(TokenBucket.Forward(w.b.visits), PerMs(p.tpm))
                    - (w.b.spentTpm + Outstanding(w.s) + w.b.lostTpm) as real - w.b.clipped
              && 0.0 <= w.b.clipped
  {
    RunKeepsBalanced(p, ops);
  }

  /** With costs and usage not negative, the cap is never exceeded, and without elapsed time it cuts nothing off. */
  lemma TpmStaysBounded(p: Plan, ops: seq<Op>)
    requires Sensible(p) && CostedRun(ops)
    ensures var w := Run(p, ops);
            && (w.b.visits != [] ==> -(w.b.overshoot as real) <= w.s.tpm.tokens.GetOr(0.0) <= p.tpm as real)
            && (TokenBucket.Forward(w.b.visits) == 0.0 ==> w.b.clipped == 0.0)
            && 0 <= w.b.spentTpm && 0 <= w.b.lostTpm && 0 <= w.b.overshoot
  {
    RunKeepsBalanced(p, ops);
    RunKeepsBounds(p, ops);
  }

  /** Where every reserved id is free, the same without loss. */
  lemma {:induction false} TpmConservationOfFreshIds(p: Plan, ops: seq<Op>)
    requires Sensible(p) && LegalRun(p, ops)
    ensures var w := Run(p, ops);
            w.b.visits != [] ==>
              w.s.tpm.tokens.GetOr(0.0)
              == p.tpm as real + TokenBucket.Accrual(TokenBucket.Forward(w.b.visits), PerMs(p.tpm))
                 - (w.b.spentTpm + Outstanding(w.s)) as real - w.b.clipped
  {
    TpmConservation(p, ops);
    LegalRunsLoseNothing(p, ops);
  }

  ghost function ElapsedMs(w: World): real
    requires w.b.visits != []
  {
    w.b.visits[|w.b.visits| - 1].at - w.b.visits[0].at
  }

  ghost predicate WithinAdmission(p: Plan, w: World) {
    w.b.visits != [] ==>
      (w.b.spentTpm + Outstanding(w.s) + w.b.lostTpm) as real
      <= p.tpm as real + TokenBucket.Accrual(ElapsedMs(w), PerMs(p.tpm)) + w.b.overshoot as real
  }

  lemma BooksBoundAdmission(p: Plan, w: World)
    requires TpmBalanced(p, w) && TpmBounded(p, w) && TokenBucket.Ordered(w.b.visits)
    ensures WithinAdmission(p, w)
  {
    if w.b.visits != [] {
      TokenBucket.ForwardIsElapsed(w.b.visits);
      assert TokenBucket.Forward(w.b.visits) == ElapsedMs(w);
    }
  }

  /**
   * Usage settled, promised, or promised and overwritten stays within the cap, the refill and the overshoot,
   * whether or not ids are reserved twice.
   */
  lemma {:induction false} AdmissionBound(p: Plan, ops: seq<Op>)
    requires Sensible(p) && CostedRun(ops) && TokenBucket.Ordered(Run(p, ops).b.visits)
    ensures WithinAdmission(p, Run(p, ops))
  {
    RunKeepsBalanced(p, ops);
    RunKeepsBounds(p, ops);
    BooksBoundAdmission(p, Run(p, ops));
  }

  // ---------------------------------------------------------------------------------------------
  // Requests
  // ---------------------------------------------------------------------------------------------

  /** Reserve attempts admitted with a clock reading inside the window. */
  function AdmissionsIn(p: Plan, ops: seq<Op>, fromMs: int, toMs: int): nat {
    if ops == [] then 0
    else
      var init, op := ops[..|ops| - 1], ops[|ops| - 1];
      AdmissionsIn(p, init, fromMs, toMs)
      + if op.Reserving? && fromMs <= op.r.nowMs <= toMs && Decide(Run(p, init).s, p, op.r).Admitted? then 1 else 0
  }

  lemma {:induction false} SweepLeavesVisits(w: World, ids: seq<Id>)
    ensures AfterSweep(w, ids).b.visits == w.b.visits
  {
    if ids == [] {
    } else {
      SweepLeavesVisits(w, ids[..|ids| - 1]);
    }
  }

  lemma {:induction false} AdmissionsAreSpends(p: Plan, ops: seq<Op>, fromMs: int, toMs: int)
    ensures AdmissionsIn(p, ops, fromMs, toMs) as real
            == TokenBucket.SpentIn(Run(p, ops).b.visits, fromMs as real, toMs as real)
  {
    if ops == [] {
    } else {
      var init, op := ops[..|ops| - 1], ops[|ops| - 1];
      AdmissionsAreSpends(p, init, fromMs, toMs);
      var visits := Run(p, init).b.visits;
      match op
      case Reserving(r) =>
        var after := Run(p, ops).b.visits;
        assert after[..|visits|] == visits && |after| == |visits| + 1;
      case Settling(_, _, _) =>
      case Sweeping(_, _, ids) => SweepLeavesVisits(Run(p, init), ids);
    }
  }

  /** In any window at most one full bucket plus the window's refill of requests is admitted. */
  lemma RpmWindowBound(p: Plan, ops: seq<Op>, fromMs: int, toMs: int)
    requires Sensible(p) && TokenBucket.Ordered(Run(p, ops).b.visits) && fromMs <= toMs
    ensures AdmissionsIn(p, ops, fromMs, toMs) as real
            <= p.rpm as real + TokenBucket.Accrual((toMs - fromMs) as real, PerMs(p.rpm))
  {
    AdmissionsAreSpends(p, ops, fromMs, toMs);
    VisitsAreFunded(p, ops);
    TokenBucket.WindowBound(Run(p, ops).b.visits, PerMs(p.rpm), p.rpm as real, fromMs as real, toMs as real);
    assert toMs as real - fromMs as real == (toMs - fromMs) as real;
  }

  /** The request bucket never pays out what it does not hold. */
  lemma VisitsAreFunded(p: Plan, ops: seq<Op>)
    requires Sensible(p)
    ensures TokenBucket.Funded(Run(p, ops).b.visits, PerMs(p.rpm), p.rpm as real)
  {
    RunKeepsBalanced(p, ops);
  }

  /** A rate is per minute: in one minute a limit of n refills n. */
  lemma MinuteRefillsLimit(n: int)
    ensures TokenBucket.Accrual(60000.0, PerMs(n)) == n as real
  {
  }

  /** In any minute at most twice the plan's requests are admitted: a full bucket and one minute's refill. */
  lemma MinuteAdmitsTwice(p: Plan, ops: seq<Op>, fromMs: int)
    requires Sensible(p) && TokenBucket.Ordered(Run(p, ops).b.visits)
    ensures AdmissionsIn(p, ops, fromMs, fromMs + 60000) <= 2 * p.rpm
  {
    RpmWindowBound(p, ops, fromMs, fromMs + 60000);
    MinuteRefillsLimit(p.rpm);
  }

  // ---------------------------------------------------------------------------------------------
  // Releases
  // ---------------------------------------------------------------------------------------------

  /**
   * In every run each admission ends in one settle, one sweep, one overwriting, or is held; index and table
   * agree; and the counter exceeds them by the entries overwritten.
   */
  lemma {:induction false} WhereAdmissionsEnd(p: Plan, ops: seq<Op>, id: Id)
    requires Sensible(p)
    ensures var w := Run(p, ops);
            && w.s.deadlines.Keys == w.s.held.Keys
            && w.s.conc == |w.s.held| + |w.b.overwritten| <= MaxInt(0, p.concurrency)
            && w.b.admitted[id]
               == w.b.settled[id] + w.b.swept[id] + w.b.overwritten[id] + if id in w.s.held then 1 else 0
  {
    RunKeepsBalanced(p, ops);
  }

  /** Index, table and counter agree, and each admission ends in one settle, one sweep, or is held. */
  lemma {:induction false} ReleaseExactlyOnce(p: Plan, ops: seq<Op>, id: Id)
    requires Sensible(p) && LegalRun(p, ops)
    ensures var w := Run(p, ops);
            && w.s.deadlines.Keys == w.s.held.Keys
            && w.s.conc == |w.s.held| <= MaxInt(0, p.concurrency)
            && w.b.admitted[id] == w.b.settled[id] + w.b.swept[id] + if id in w.s.held then 1 else 0
  {
    WhereAdmissionsEnd(p, ops, id);
    LegalRunsLoseNothing(p, ops);
  }

  function Members(ids: seq<Id>): set<Id> {
    set id | id in ids
  }

  lemma {:induction false} SweepEmpties(s: Tenant, ids: seq<Id>)
    ensures SweepAll(s, ids).held == s.held - Members(ids)
    ensures SweepAll(s, ids).deadlines == s.deadlines - Members(ids)
  {
    if ids != [] {
      var init, last := ids[..|ids| - 1], ids[|ids| - 1];
      SweepEmpties(s, init);
      assert Members(ids) == Members(init) + {last};
    } else {
      assert s.held - {} == s.held;
    }
  }

  /** A second settle, and a settle after a sweep, change nothing whatever usage they report. */
  lemma {:induction false} LateSettlesAreNoOps(s: Tenant, ids: seq<Id>, id: Id, tpm: int, budget: int, lateTpm: int,
                                               lateBudget: int)
    ensures Settle(Settle(s, id, tpm, budget), id, lateTpm, lateBudget) == Settle(s, id, tpm, budget)
    ensures id in ids ==> Settle(SweepAll(s, ids), id, lateTpm, lateBudget) == SweepAll(s, ids)
  {
    SweepEmpties(s, ids);
  }

  /** Re-reserving an id keeps index, table and counter in agreement exactly if it is not outstanding. */
  lemma FreshIdKeepsIndex(p: Plan, s: Tenant, r: Request)
    requires Indexed(p, s) && Decide(s, p, r).Admitted?
    ensures Indexed(p, Reserve(s, p, r)) <==> r.id !in s.held
  {
    var s' := Reserve(s, p, r);
    if r.id in s.held {
      assert s'.held.Keys == s.held.Keys;
      assert |s'.held| == |s.held|;
    } else {
      assert s'.held.Keys == s.held.Keys + {r.id};
      assert |s'.held| == |s.held| + 1;
    }
  }

  /** The entries that later reserves of the same id replaced, in order. */
  function Overwritten(p: Plan, ops: seq<Op>): seq<Reservation> {
    if ops == [] then []
    else
      var gone, s, op := Overwritten(p, ops[..|ops| - 1]), Run(p, ops[..|ops| - 1]).s, ops[|ops| - 1];
      if op.Reserving? && Replaced(p, s, op.r).Some? then gone + [Replaced(p, s, op.r).value] else gone
  }

  function Total(entries: seq<Reservation>, weight: Reservation -> int): int {
    if entries == [] then 0 else Total(entries[..|entries| - 1], weight) + weight(entries[|entries| - 1])
  }

  lemma TotalAppend(entries: seq<Reservation>, r: Reservation, weight: Reservation -> int)
    ensures Total(entries + [r], weight) == Total(entries, weight) + weight(r)
  {
    assert (entries + [r])[..|entries|] == entries;
  }

  ghost predicate Holds(b: Books, gone: seq<Reservation>, month: Month) {
    && |b.overwritten| == |gone|
    && b.lostTpm == Total(gone, TokensOf())
    && MapOr(b.lostBudget, month, 0) == Total(gone, BudgetOf(month))
  }

  lemma ReserveHolds(p: Plan, w: World, r: Request, gone: seq<Reservation>, month: Month)
    requires Holds(w.b, gone, month)
    ensures var replaced := Replaced(p, w.s, r);
            Holds(AfterReserve(p, w, r).b, if replaced.Some? then gone + [replaced.value] else gone, month)
  {
    var replaced := Replaced(p, w.s, r);
    if replaced.Some? {
      TotalAppend(gone, replaced.value, TokensOf());
      TotalAppend(gone, replaced.value, BudgetOf(month));
    }
  }

  lemma {:induction false} BooksHoldOverwritten(p: Plan, ops: seq<Op>, month: Month)
    ensures Holds(Run(p, ops).b, Overwritten(p, ops), month)
  {
    if ops == [] {
    } else {
      var init, op := ops[..|ops| - 1], ops[|ops| - 1];
      BooksHoldOverwritten(p, init, month);
      match op {
        case Reserving(r) => ReserveHolds(p, Run(p, init), r, Overwritten(p, init), month);
        case Settling(_, _, _) =>
        case Sweeping(_, _, ids) => SweepOverwritesNothing(Run(p, init), ids);
      }
    }
  }

  /**
   * What overwriting costs, in every run: the counter exceeds the reservations by the number of overwritten
   * entries, a month's money falls short of what is left, reserved and spent by their estimates, and so do the
   * tokens. No settle and no sweep ever brings any of it back.
   */
  lemma OverwritesLeak(p: Plan, ops: seq<Op>, month: Month)
    requires Sensible(p)
    ensures var w, gone := Run(p, ops), Overwritten(p, ops);
            && w.s.deadlines.Keys == w.s.held.Keys
            && w.s.conc == |w.s.held| + |gone|
            && MapOr(w.s.budget, month, p.budgetMicro) + Sum(w.s.held, BudgetOf(month)) + MapOr(w.b.spentBudget, month, 0)
               == p.budgetMicro - Total(gone, BudgetOf(month))
            && w.b.lostTpm == Total(gone, TokensOf())
  {
    RunKeepsBalanced(p, ops);
    BooksHoldOverwritten(p, ops, month);
    assert Left(p, Run(p, ops), month) + MapOr(Run(p, ops).b.spentBudget, month, 0)
           + MapOr(Run(p, ops).b.lostBudget, month, 0) == p.budgetMicro;
  }

  /** A full refund undoes a reservation, except for the request token and the lazy refills. */
  lemma RefundUndoesReserve(p: Plan, s: Tenant, r: Request)
    requires Sensible(p) && Indexed(p, s) && Legal(s, Reserving(r)) && Decide(s, p, r).Admitted?
    ensures Settle(Reserve(s, p, r), r.id, 0, 0)
            == Tenant(Bucket(TokensAt(s.rpm, r.nowMs, p.rpm) - 1.0, r.nowMs, p.rpm),
                      Bucket(TokensAt(s.tpm, r.nowMs, p.tpm), r.nowMs, p.tpm),
                      s.conc,
                      s.budget[r.month := MapOr(s.budget, r.month, p.budgetMicro)],
                      s.deadlines,
                      s.held)
  {
    var left := MapOr(s.budget, r.month, p.budgetMicro);
    PutAndTaken(s.deadlines, r.id, r.deadlineMs);
    PutAndTaken(s.held, r.id, Reservation(r.tpmCost, r.budgetCost, r.month));
    TokensComeBack(TokensAt(s.tpm, r.nowMs, p.tpm), r.nowMs, p.tpm, r.tpmCost);
    assert Reserve(s, p, r).budget == s.budget[r.month := left - r.budgetCost];
  }

  lemma PutAndTaken<V>(m: map<Id, V>, id: Id, v: V)
    requires id !in m
    ensures m[id := v] - {id} == m
  {
  }

  lemma TokensComeBack(tokens: real, nowMs: int, cap: int, cost: int)
    requires tokens <= cap as real
    ensures Refunded(Bucket(tokens - cost as real, nowMs, cap), (cost - 0) as real) == Bucket(tokens, nowMs, cap)
  {
  }

  // ---------------------------------------------------------------------------------------------
  // Sweeping
  // ---------------------------------------------------------------------------------------------

  function SweepRounds(s: Tenant, rounds: seq<seq<Id>>): Tenant
    decreases |rounds|
  {
    if rounds == [] then s else SweepRounds(SweepAll(s, rounds[0]), rounds[1..])
  }

  ghost predicate LegalRounds(s: Tenant, nowMs: int, limit: int, rounds: seq<seq<Id>>)
    decreases |rounds|
  {
    rounds == [] ||
    (IsExpiredRange(s.deadlines, nowMs, limit, rounds[0]) &&
     LegalRounds(SweepAll(s, rounds[0]), nowMs, limit, rounds[1..]))
  }

  lemma {:induction false} DistinctSize(ids: seq<Id>)
    requires forall i, j :: 0 <= i < j < |ids| ==> ids[i] != ids[j]
    ensures |Members(ids)| == |ids|
  {
    if ids != [] {
      var init, last := ids[..|ids| - 1], ids[|ids| - 1];
      DistinctSize(init);
      assert Members(ids) == Members(init) + {last};
    } else {
      assert Members(ids) == {};
    }
  }

  lemma RoundShrinks(s: Tenant, nowMs: int, limit: nat, ids: seq<Id>)
    requires IsExpiredRange(s.deadlines, nowMs, limit, ids)
    ensures var before, after := Expired(s.deadlines, nowMs), Expired(SweepAll(s, ids).deadlines, nowMs);
            after == before - Members(ids) && |after| == MaxInt(0, |before| - limit)
  {
    SweepEmpties(s, ids);
    DistinctSize(ids);
    var gone := Members(ids);
    var before := Expired(s.deadlines, nowMs);
    assert gone <= before;
    assert Expired(SweepAll(s, ids).deadlines, nowMs) == before - gone;
    assert |before - gone| == |before| - |gone|;
  }

  /** How many reservations k sweeps may take. */
  function Capacity(k: nat, limit: nat): nat {
    k * limit
  }

  lemma CapacityGrows(k: nat, limit: nat)
    ensures Capacity(0, limit) == 0 && Capacity(k + 1, limit) == Capacity(k, limit) + limit
  {
  }

  /** k sweeps of at most `limit` leave n - k * limit of n expired reservations, or none. */
  lemma {:induction false} SweepsCountDown(s: Tenant, nowMs: int, limit: nat, rounds: seq<seq<Id>>)
    requires LegalRounds(s, nowMs, limit, rounds)
    ensures |Expired(SweepRounds(s, rounds).deadlines, nowMs)|
            == MaxInt(0, |Expired(s.deadlines, nowMs)| - Capacity(|rounds|, limit))
    decreases |rounds|
  {
    if rounds == [] {
    } else {
      RoundShrinks(s, nowMs, limit, rounds[0]);
      SweepsCountDown(SweepAll(s, rounds[0]), nowMs, limit, rounds[1..]);
      CapacityGrows(|rounds| - 1, limit);
    }
  }

  lemma DropTwice<V>(m: map<Id, V>, first: set<Id>, later: set<Id>)
    ensures m - first - later == m - (first + later)
  {
  }

  lemma ExpiredAfterDrop(deadlines: map<Id, int>, nowMs: int, gone: set<Id>)
    ensures Expired(deadlines - gone, nowMs) == Expired(deadlines, nowMs) - gone
  {
  }

  /** s' keeps everything of s but some expired ids, which left index and table together. */
  ghost predicate OnlyExpiredGone(s: Tenant, s': Tenant, nowMs: int) {
    var gone := Expired(s.deadlines, nowMs) - Expired(s'.deadlines, nowMs);
    s'.deadlines == s.deadlines - gone && s'.held == s.held - gone
  }

  lemma GoneTogether(s: Tenant, mid: Tenant, s': Tenant, nowMs: int, first: set<Id>)
    requires first <= Expired(s.deadlines, nowMs)
    requires mid.deadlines == s.deadlines - first && mid.held == s.held - first
    requires OnlyExpiredGone(mid, s', nowMs)
    ensures OnlyExpiredGone(s, s', nowMs)
  {
    var left := Expired(s'.deadlines, nowMs);
    var later := Expired(mid.deadlines, nowMs) - left;
    ExpiredAfterDrop(s.deadlines, nowMs, first);
    ExpiredAfterDrop(mid.deadlines, nowMs, later);
    assert first + later == Expired(s.deadlines, nowMs) - left;
    DropTwice(s.deadlines, first, later);
    DropTwice(s.held, first, later);
  }

  lemma {:induction false} SweepsTakeExpired(s: Tenant, nowMs: int, limit: nat, rounds: seq<seq<Id>>)
    requires LegalRounds(s, nowMs, limit, rounds)
    ensures OnlyExpiredGone(s, SweepRounds(s, rounds), nowMs)
    decreases |rounds|
  {
    if rounds != [] {
      SweepsTakeExpired(SweepAll(s, rounds[0]), nowMs, limit, rounds[1..]);
      SweepEmpties(s, rounds[0]);
      GoneTogether(s, SweepAll(s, rounds[0]), SweepRounds(s, rounds), nowMs, Members(rounds[0]));
    } else {
      var gone := Expired(s.deadlines, nowMs) - Expired(s.deadlines, nowMs);
      assert gone == {} && s.deadlines - gone == s.deadlines && s.held - gone == s.held;
    }
  }

  /** The estimates that left the table are back in the bucket, as far as its cap allows. */
  ghost predicate TokensBack(p: Plan, s: Tenant, s': Tenant) {
    && Filled(s.tpm, p.tpm) && Outstanding(s') <= Outstanding(s)
    && s'.tpm == s.tpm.(tokens := Some(Min(p.tpm as real, s.tpm.tokens.value + (Outstanding(s) - Outstanding(s')) as real)))
  }

  /** The money that left the table is back in the month it was reserved in. */
  ghost predicate BudgetBack(p: Plan, s: Tenant, s': Tenant) {
    forall m :: MapOr(s'.budget, m, p.budgetMicro) + Sum(s'.held, BudgetOf(m))
                == MapOr(s.budget, m, p.budgetMicro) + Sum(s.held, BudgetOf(m))
  }

  ghost predicate GivenBack(p: Plan, s: Tenant, s': Tenant) {
    TokensBack(p, s, s') && BudgetBack(p, s, s') && s'.rpm == s.rpm && s'.conc == s.conc - (|s.held| - |s'.held|)
  }

  lemma SweepOneStaysSound(p: Plan, s: Tenant, id: Id)
    requires Indexed(p, s) && Sound(p, s)
    ensures Indexed(p, SweepOne(s, id)) && Sound(p, SweepOne(s, id))
    ensures SweepOne(s, id).conc == s.conc - (|s.held| - |SweepOne(s, id).held|)
  {
    if id in s.held {
      assert (s.held - {id}).Keys == s.held.Keys - {id};
      assert |s.held - {id}| == |s.held| - 1;
    } else {
      assert s.deadlines - {id} == s.deadlines;
    }
  }

  lemma SweepOneTokensBack(p: Plan, s: Tenant, mid: Tenant, id: Id)
    requires TokensBack(p, s, mid) && Sound(p, mid)
    ensures TokensBack(p, s, SweepOne(mid, id))
  {
    if id in mid.held {
      SumWithout(mid.held, id, TokensOf());
    }
  }

  lemma SweepOneBudgetBack(p: Plan, s: Tenant, mid: Tenant, id: Id)
    requires BudgetBack(p, s, mid) && Sound(p, mid)
    ensures BudgetBack(p, s, SweepOne(mid, id))
  {
    if id in mid.held {
      forall m
        ensures MapOr(SweepOne(mid, id).budget, m, p.budgetMicro) + Sum(SweepOne(mid, id).held, BudgetOf(m))
                == MapOr(mid.budget, m, p.budgetMicro) + Sum(mid.held, BudgetOf(m))
      {
        SumWithout(mid.held, id, BudgetOf(m));
      }
    }
  }

  /**
   * Whatever ids a sweep takes, it gives back in full what the reservations among them held: tokens up to the
   * cap, money to the month each was reserved in, and one place in the concurrency counter each.
   */
  lemma {:induction false} SweepRefundsInFull(p: Plan, s: Tenant, ids: seq<Id>)
    requires Indexed(p, s) && Sound(p, s) && 1 <= p.tpm && Filled(s.tpm, p.tpm) && s.tpm.tokens.value <= p.tpm as real
    ensures GivenBack(p, s, SweepAll(s, ids)) && SweepAll(s, ids).held == s.held - Members(ids)
    ensures Indexed(p, SweepAll(s, ids)) && Sound(p, SweepAll(s, ids))
  {
    SweepEmpties(s, ids);
    if ids == [] {
      assert s.held - {} == s.held;
    } else {
      var init, last := ids[..|ids| - 1], ids[|ids| - 1];
      SweepRefundsInFull(p, s, init);
      SweepOneTokensBack(p, s, SweepAll(s, init), last);
      SweepOneBudgetBack(p, s, SweepAll(s, init), last);
      SweepOneStaysSound(p, SweepAll(s, init), last);
    }
  }

  /** Once k reaches the ceiling of n / limit, exactly the expired reservations are gone. */
  lemma {:induction false} SweepsClear(s: Tenant, nowMs: int, limit: nat, rounds: seq<seq<Id>>)
    requires LegalRounds(s, nowMs, limit, rounds)
    ensures var expired, s' := Expired(s.deadlines, nowMs), SweepRounds(s, rounds);
            s'.deadlines == s.deadlines - expired && s'.held == s.held - expired
            <==> |expired| <= Capacity(|rounds|, limit)
  {
    SweepsCountDown(s, nowMs, limit, rounds);
    SweepsTakeExpired(s, nowMs, limit, rounds);
    var expired, s' := Expired(s.deadlines, nowMs), SweepRounds(s, rounds);
    var left := Expired(s'.deadlines, nowMs);
    if left == {} {
      assert expired - left == expired;
    } else {
      var id :| id in left;
      assert id in expired && id in s'.deadlines;
    }
  }

  // ---------------------------------------------------------------------------------------------
  // Budgets
  // ---------------------------------------------------------------------------------------------

  /**
   * In every run and every month, what is left plus what is reserved, spent, or reserved and overwritten is the
   * month's budget. The month in which a settle or a sweep runs does not occur here: refunds go to the
   * reservation's month.
   */
  lemma BudgetConservation(p: Plan, ops: seq<Op>, month: Month)
    requires Sensible(p)
    ensures var w := Run(p, ops);
            MapOr(w.s.budget, month, p.budgetMicro) + Sum(w.s.held, BudgetOf(month))
            + MapOr(w.b.spentBudget, month, 0) + MapOr(w.b.lostBudget, month, 0) == p.budgetMicro
  {
    RunKeepsBalanced(p, ops);
    assert Left(p, Run(p, ops), month) + MapOr(Run(p, ops).b.spentBudget, month, 0)
           + MapOr(Run(p, ops).b.lostBudget, month, 0) == p.budgetMicro;
  }

  /** Where every reserved id is free, nothing of a month's budget is lost. */
  lemma {:induction false} BudgetConservationOfFreshIds(p: Plan, ops: seq<Op>, month: Month)
    requires Sensible(p) && LegalRun(p, ops)
    ensures var w := Run(p, ops);
            MapOr(w.s.budget, month, p.budgetMicro) + Sum(w.s.held, BudgetOf(month))
            + MapOr(w.b.spentBudget, month, 0) == p.budgetMicro
  {
    BudgetConservation(p, ops, month);
    LegalRunsLoseNothing(p, ops);
  }

  /**
   * In every run no month is overdrawn but by what settles took above their estimates, so that what is spent,
   * reserved, or reserved and overwritten stays within the month's budget and that excess.
   */
  lemma BudgetIsKept(p: Plan, ops: seq<Op>, month: Month)
    requires Sensible(p) && 0 <= p.budgetMicro && CostedRun(ops)
    ensures var w := Run(p, ops);
            var excess := MapOr(w.b.budgetOvershoot, month, 0);
            && -excess <= MapOr(w.s.budget, month, p.budgetMicro)
            && MapOr(w.b.spentBudget, month, 0) + Sum(w.s.held, BudgetOf(month)) + MapOr(w.b.lostBudget, month, 0)
               <= p.budgetMicro + excess
  {
    BudgetConservation(p, ops, month);
    RunKeepsBudgetBound(p, ops);
    assert MinInt(0, p.budgetMicro) - MapOr(Run(p, ops).b.budgetOvershoot, month, 0)
           <= MapOr(Run(p, ops).s.budget, month, p.budgetMicro);
  }

  // ---------------------------------------------------------------------------------------------
  // Admission
  // ---------------------------------------------------------------------------------------------

  /** The request bucket, refilled from its last visit, holds a whole request. */
  predicate RequestsCover(p: Plan, w: World, r: Request) {
    1.0 <= TokenBucket.Before(w.b.visits + [TokenBucket.Visit(r.nowMs as real, 0.0)], PerMs(p.rpm), p.rpm as real)
  }

  /** One full bucket and the refill, less all that is accounted for, cover the estimate; the cap must, too. */
  ghost predicate TokensCover(p: Plan, w: World, r: Request) {
    var forward := TokenBucket.Forward(w.b.visits + [TokenBucket.Visit(r.nowMs as real, 0.0)]);
    && r.tpmCost <= p.tpm
    && r.tpmCost as real <= p.tpm as real + TokenBucket.Accrual(forward, PerMs(p.tpm))
                            - (w.b.spentTpm + Outstanding(w.s) + w.b.lostTpm) as real - w.b.clipped
  }

  /** Reservations held, and those overwritten, leave a place. */
  ghost predicate PlacesCover(p: Plan, w: World) {
    |w.s.held| + |w.b.overwritten| < p.concurrency
  }

  /** The month's budget covers the estimate beside what is reserved, spent and lost. */
  ghost predicate MoneyCovers(p: Plan, w: World, r: Request) {
    Sum(w.s.held, BudgetOf(r.month)) + MapOr(w.b.spentBudget, r.month, 0) + MapOr(w.b.lostBudget, r.month, 0)
    + r.budgetCost <= p.budgetMicro
  }

  /** A bucket that was used before: its level then, and the time since. */
  lemma {:induction false} LaterTokensCoverIff(p: Plan, w: World, r: Request)
    requires Sensible(p) && TpmBalanced(p, w) && w.s.tpm != NO_BUCKET
    ensures TokensCover(p, w, r) <==> r.tpmCost as real <= TokensAt(w.s.tpm, r.nowMs, p.tpm)
  {
    var n, v := |w.b.visits|, TokenBucket.Visit(r.nowMs as real, 0.0);
    var gap := MaxInt(0, r.nowMs - w.s.tpm.tsMs.value) as real;
    ForwardGrows(w.b.visits, v);
    assert gap == Max(0.0, v.at - w.b.visits[n - 1].at);
    TokenBucket.AccrualAdds(TokenBucket.Forward(w.b.visits), gap, PerMs(p.tpm));
    assert TokensAt(w.s.tpm, r.nowMs, p.tpm)
           == Min(p.tpm as real, w.s.tpm.tokens.value + TokenBucket.Accrual(gap, PerMs(p.tpm)));
  }

  lemma {:induction false} TokensCoverIff(p: Plan, w: World, r: Request)
    requires Sensible(p) && TpmBalanced(p, w) && Present(p, w.s)
    ensures TokensCover(p, w, r) <==> r.tpmCost as real <= TokensAt(w.s.tpm, r.nowMs, p.tpm)
  {
    if w.s.tpm == NO_BUCKET {
      ForwardGrows(w.b.visits, TokenBucket.Visit(r.nowMs as real, 0.0));
      assert w.s.held == map[];
      assert TokenBucket.Accrual(0.0, PerMs(p.tpm)) == 0.0;
    } else {
      LaterTokensCoverIff(p, w, r);
    }
  }

  lemma RequestsCoverIff(p: Plan, w: World, r: Request)
    requires Sensible(p) && RpmBooked(p, w)
    ensures RequestsCover(p, w, r) <==> 1.0 <= TokensAt(w.s.rpm, r.nowMs, p.rpm)
  {
    var n, visits := |w.b.visits|, w.b.visits + [TokenBucket.Visit(r.nowMs as real, 0.0)];
    assert visits[..n] == w.b.visits;
    if n > 0 {
      assert MaxInt(0, r.nowMs - w.s.rpm.tsMs.value) as real == Max(0.0, visits[n].at - visits[n - 1].at);
    }
  }

  /**
   * In every run a request is admitted iff all four limits cover it, told from the accounts; otherwise the first
   * that does not, in the order requests, tokens, places, money, is the one it is rejected on. Where waiting is of
   * no known use it is told to wait a second.
   */
  lemma FourLimits(p: Plan, ops: seq<Op>, r: Request)
    requires Sensible(p)
    ensures var w := Run(p, ops);
            var decision := Decide(w.s, p, r);
            && (decision.Admitted? <==>
                RequestsCover(p, w, r) && TokensCover(p, w, r) && PlacesCover(p, w) && MoneyCovers(p, w, r))
            && (decision.Rejected? ==>
                  && (decision.dimension == Rpm <==> !RequestsCover(p, w, r))
                  && (decision.dimension == Tpm <==> RequestsCover(p, w, r) && !TokensCover(p, w, r))
                  && (decision.dimension == Concurrency <==>
                      RequestsCover(p, w, r) && TokensCover(p, w, r) && !PlacesCover(p, w))
                  && (decision.dimension == Concurrency || decision.dimension == Budget ==> decision.retryAfterMs == 1000)
                  && (decision.dimension == Rpm && p.rpm == 0 ==> decision.retryAfterMs == 1000)
                  && (decision.dimension == Tpm && p.tpm == 0 ==> decision.retryAfterMs == 1000))
  {
    var w := Run(p, ops);
    RunKeepsBalanced(p, ops);
    TokensCoverIff(p, w, r);
    RequestsCoverIff(p, w, r);
    BudgetConservation(p, ops, r.month);
  }
}
