/**
 * What every run of reserve, settle and sweep steps keeps, for one tenant with a fixed plan. The
 * books beside the keys record history only: they are never read by a script.
 */
module QuotaRuns {
  import opened Common
  import opened Reservations
  import opened QuotaScripts
  import TokenBucket

  /**
   * visits: each reserve attempt's time and the request token it took; clipped: tokens cut off at the
   * cap; spentTpm, spentBudget: actual usage settled; overshoot: usage above the estimates; overwritten,
   * lostTpm, lostBudget: entries that a later reserve of the same id replaced, and the estimates in them;
   * budgetOvershoot: money settled above the estimates, by month.
   */
  datatype Books = Books(
    visits: seq<TokenBucket.Visit>,
    clipped: real,
    spentTpm: int,
    overshoot: int,
    spentBudget: map<Month, int>,
    admitted: multiset<Id>,
    settled: multiset<Id>,
    swept: multiset<Id>,
    overwritten: multiset<Id>,
    lostTpm: int,
    lostBudget: map<Month, int>,
    budgetOvershoot: map<Month, int>)

  datatype World = World(s: Tenant, b: Books)

  const START := World(EMPTY, Books([], 0.0, 0, 0, map[], multiset{}, multiset{}, multiset{}, multiset{}, 0, map[], map[]))

  datatype Op =
    | Reserving(r: Request)
    | Settling(id: Id, actualTpm: int, actualBudget: int)
    | Sweeping(nowMs: int, limit: int, ids: seq<Id>)

  /** Limits are not negative. */
  predicate Sensible(p: Plan) {
    0 <= p.rpm && 0 <= p.tpm
  }

  /** The estimator's lower bounds (estimator.py:70, 137), and an id that is not outstanding. */
  ghost predicate Legal(s: Tenant, op: Op) {
    && Costed(op)
    && (op.Reserving? ==> op.r.id !in s.held)
    && (op.Sweeping? ==> IsExpiredRange(s.deadlines, op.nowMs, op.limit, op.ids))
  }

  /** Estimates and usage as the estimator and the upstreams give them. */
  predicate Costed(op: Op) {
    match op
    case Reserving(r) => 1 <= r.tpmCost && 0 <= r.budgetCost
    case Settling(_, actualTpm, actualBudget) => 0 <= actualTpm && 0 <= actualBudget
    case Sweeping(_, _, _) => true
  }

  predicate CostedRun(ops: seq<Op>) {
    forall op :: op in ops ==> Costed(op)
  }

  function PerMs(perMinute: int): real {
    PerSecond(perMinute) / 1000.0
  }

  /** The entry an attempt replaces, if it is admitted under an id that is outstanding. */
  function Replaced(p: Plan, s: Tenant, r: Request): Option<Reservation> {
    if Decide(s, p, r).Admitted? && r.id in s.held then Some(s.held[r.id]) else None
  }

  /** What the bucket would hold without its cap. */
  function Unclipped(p: Plan, s: Tenant, nowMs: int): real {
    if s.tpm.tokens.None? || s.tpm.tsMs.None? then p.tpm as real
    else s.tpm.tokens.value + TokenBucket.Accrual(MaxInt(0, nowMs - s.tpm.tsMs.value) as real, PerMs(p.tpm))
  }

  function AfterReserve(p: Plan, w: World, r: Request): World {
    var admits, replaced := Decide(w.s, p, r).Admitted?, Replaced(p, w.s, r);
    World(Reserve(w.s, p, r),
          w.b.(visits := w.b.visits + [TokenBucket.Visit(r.nowMs as real, if admits then 1.0 else 0.0)],
               clipped := w.b.clipped + (Unclipped(p, w.s, r.nowMs) - TokensAt(w.s.tpm, r.nowMs, p.tpm)),
               admitted := w.b.admitted + if admits then multiset{r.id} else multiset{},
               overwritten := w.b.overwritten + if replaced.Some? then multiset{r.id} else multiset{},
               lostTpm := w.b.lostTpm + if replaced.Some? then replaced.value.tpmEst else 0,
               lostBudget := if replaced.None? then w.b.lostBudget else Lose(w.b.lostBudget, replaced.value)))
  }

  function Lose(lost: map<Month, int>, r: Reservation): map<Month, int> {
    lost[r.month := MapOr(lost, r.month, 0) + r.budgetEst]
  }

  function Released(w: World, id: Id, actualTpm: int, actualBudget: int): Books
    requires id in w.s.held
  {
    var r := w.s.held[id];
    var unclipped := w.s.tpm.tokens.GetOr(0.0) + (r.tpmEst - actualTpm) as real;
    w.b.(clipped := w.b.clipped + (unclipped - Refunded(w.s.tpm, (r.tpmEst - actualTpm) as real).tokens.value),
         spentTpm := w.b.spentTpm + actualTpm,
         overshoot := w.b.overshoot + MaxInt(0, actualTpm - r.tpmEst),
         spentBudget := w.b.spentBudget[r.month := MapOr(w.b.spentBudget, r.month, 0) + actualBudget],
         budgetOvershoot := w.b.budgetOvershoot[r.month :=
           MapOr(w.b.budgetOvershoot, r.month, 0) + MaxInt(0, actualBudget - r.budgetEst)])
  }

  function AfterSettle(w: World, id: Id, actualTpm: int, actualBudget: int): World {
    World(Settle(w.s, id, actualTpm, actualBudget),
          if id in w.s.held then
            Released(w, id, actualTpm, actualBudget).(settled := w.b.settled + multiset{id})
          else w.b)
  }

  function AfterSweepOne(w: World, id: Id): World {
    World(SweepOne(w.s, id),
          if id in w.s.held then Released(w, id, 0, 0).(swept := w.b.swept + multiset{id}) else w.b)
  }

  function AfterSweep(w: World, ids: seq<Id>): (w': World)
    ensures w'.s == SweepAll(w.s, ids)
  {
    if ids == [] then w else AfterSweepOne(AfterSweep(w, ids[..|ids| - 1]), ids[|ids| - 1])
  }

  function After(p: Plan, w: World, op: Op): World {
    match op
    case Reserving(r) => AfterReserve(p, w, r)
    case Settling(id, actualTpm, actualBudget) => AfterSettle(w, id, actualTpm, actualBudget)
    case Sweeping(_, _, ids) => AfterSweep(w, ids)
  }

  function Run(p: Plan, ops: seq<Op>): World {
    if ops == [] then START else After(p, Run(p, ops[..|ops| - 1]), ops[|ops| - 1])
  }

  ghost predicate LegalRun(p: Plan, ops: seq<Op>) {
    ops == [] ||
    (LegalRun(p, ops[..|ops| - 1]) && Legal(Run(p, ops[..|ops| - 1]).s, ops[|ops| - 1]))
  }

  // ---------------------------------------------------------------------------------------------
  // Invariants
  // ---------------------------------------------------------------------------------------------

  predicate Filled(b: BucketHash, p: int) {
    b.tokens.Some? && b.tsMs.Some? && b.cap == Some(p as real)
  }

  /** The deadline index, the reservation table and the concurrency counter agree. */
  ghost predicate Indexed(p: Plan, s: Tenant) {
    && s.deadlines.Keys == s.held.Keys
    && s.conc == |s.held| <= MaxInt(0, p.concurrency)
  }

  /** The same up to overwritten entries, whose places in the counter are never given back. */
  ghost predicate Counted(p: Plan, w: World) {
    && w.s.deadlines.Keys == w.s.held.Keys
    && w.s.conc == |w.s.held| + |w.b.overwritten| <= MaxInt(0, p.concurrency)
  }

  ghost predicate Present(p: Plan, s: Tenant) {
    && (s.tpm == NO_BUCKET || Filled(s.tpm, p.tpm))
    && (s.held != map[] ==> Filled(s.tpm, p.tpm))
    && forall id :: id in s.held ==> s.held[id].month in s.budget
  }

  ghost predicate Estimated(p: Plan, s: Tenant) {
    && (s.held != map[] ==> 1 <= p.tpm)
    && forall id :: id in s.held ==> 1 <= s.held[id].tpmEst && 0 <= s.held[id].budgetEst
  }

  ghost predicate Sound(p: Plan, s: Tenant) {
    Present(p, s) && Estimated(p, s)
  }

  /** Every admitted reservation is in exactly one place: settled, swept, overwritten or still held. */
  ghost predicate Custody(w: World) {
    w.b.admitted == w.b.settled + w.b.swept + w.b.overwritten + multiset(w.s.held.Keys)
  }

  /** Every token is accounted for. */
  ghost predicate TpmBalanced(p: Plan, w: World) {
    var b := w.b;
    if w.s.tpm == NO_BUCKET then
      b.visits == [] && b.clipped == 0.0 && b.spentTpm == 0 && b.overshoot == 0 && b.lostTpm == 0
    else
      && Filled(w.s.tpm, p.tpm)
      && b.visits != [] && b.visits[|b.visits| - 1].at == w.s.tpm.tsMs.value as real
      && w.s.tpm.tokens.value
         == p.tpm as real + TokenBucket.Accrual(TokenBucket.Forward(b.visits), PerMs(p.tpm))
            - (b.spentTpm + Sum(w.s.held, TokensOf()) + b.lostTpm) as real - b.clipped
      && 0.0 <= b.clipped
  }

  /** The level stays below the cap, and above zero but for overshoot; standing still, nothing is cut off. */
  ghost predicate TpmBounded(p: Plan, w: World) {
    && 0 <= w.b.spentTpm && 0 <= w.b.overshoot && 0 <= w.b.lostTpm
    && (w.s.tpm.tokens.Some? ==> -(w.b.overshoot as real) <= w.s.tpm.tokens.value <= p.tpm as real)
    && (TokenBucket.Forward(w.b.visits) == 0.0 ==> w.b.clipped == 0.0)
  }

  /** No month is overdrawn, but for money settled above its estimates. */
  ghost predicate BudgetBounded(p: Plan, w: World) {
    forall m :: 0 <= MapOr(w.b.budgetOvershoot, m, 0)
                && MinInt(0, p.budgetMicro) - MapOr(w.b.budgetOvershoot, m, 0) <= MapOr(w.s.budget, m, p.budgetMicro)
  }

  ghost predicate BudgetBooked(p: Plan, w: World) {
    forall m :: Left(p, w, m) + MapOr(w.b.spentBudget, m, 0) + MapOr(w.b.lostBudget, m, 0) == p.budgetMicro
  }

  /** A month's budget that is neither spent nor lost: what is left of it and what is reserved. */
  ghost function Left(p: Plan, w: World, m: Month): int {
    MapOr(w.s.budget, m, p.budgetMicro) + Sum(w.s.held, BudgetOf(m))
  }

  ghost predicate RpmBooked(p: Plan, w: World) {
    && TokenBucket.Funded(w.b.visits, PerMs(p.rpm), p.rpm as real)
    && if w.s.rpm == NO_BUCKET then w.b.visits == []
       else
         && Filled(w.s.rpm, p.rpm)
         && w.b.visits != [] && w.b.visits[|w.b.visits| - 1].at == w.s.rpm.tsMs.value as real
         && w.s.rpm.tokens.value == TokenBucket.Level(w.b.visits, PerMs(p.rpm), p.rpm as real)
  }

  /** The accounts balance, whatever ids, costs and usage a run brings. */
  ghost predicate Balanced(p: Plan, w: World) {
    && Counted(p, w) && Custody(w) && Present(p, w.s)
    && TpmBalanced(p, w) && BudgetBooked(p, w) && RpmBooked(p, w)
  }

  /** What holds besides if costs and usage are not negative. */
  ghost predicate Bounded(p: Plan, w: World) {
    Estimated(p, w.s) && TpmBounded(p, w)
  }

  // ---------------------------------------------------------------------------------------------
  // One reserve step
  // ---------------------------------------------------------------------------------------------

  lemma ReserveKeepsCount(p: Plan, w: World, r: Request)
    requires Counted(p, w)
    ensures Counted(p, AfterReserve(p, w, r))
  {
    var held := w.s.held[r.id := Reservation(r.tpmCost, r.budgetCost, r.month)];
    assert held.Keys == w.s.held.Keys + {r.id};
    assert |held| == |held.Keys| && |w.s.held| == |w.s.held.Keys|;
    if r.id in w.s.held {
      assert held.Keys == w.s.held.Keys;
    }
  }

  lemma ReserveKeepsCustody(p: Plan, w: World, r: Request)
    requires Custody(w)
    ensures Custody(AfterReserve(p, w, r))
  {
    var held := w.s.held[r.id := Reservation(r.tpmCost, r.budgetCost, r.month)];
    assert held.Keys == w.s.held.Keys + {r.id};
    if r.id in w.s.held {
      assert held.Keys == w.s.held.Keys;
    } else {
      assert multiset(held.Keys) == multiset(w.s.held.Keys) + multiset{r.id};
    }
  }

  lemma ReserveKeepsPresent(p: Plan, s: Tenant, r: Request)
    requires Present(p, s)
    ensures Present(p, Reserve(s, p, r))
  {
    assert Filled(Reserve(s, p, r).tpm, p.tpm);
  }

  lemma ReserveKeepsEstimates(p: Plan, s: Tenant, r: Request)
    requires Estimated(p, s) && Costed(Reserving(r))
    ensures Estimated(p, Reserve(s, p, r))
  {
    assert TokensAt(s.tpm, r.nowMs, p.tpm) <= p.tpm as real;
  }

  lemma ForwardGrows(visits: seq<TokenBucket.Visit>, v: TokenBucket.Visit)
    ensures visits == [] ==> TokenBucket.Forward(visits + [v]) == 0.0
    ensures visits != [] ==> TokenBucket.Forward(visits + [v])
                             == TokenBucket.Forward(visits) + Max(0.0, v.at - visits[|visits| - 1].at)
  {
    assert (visits + [v])[..|visits|] == visits;
  }

  /** What an attempt takes from the bucket is what it adds to the estimates held or overwritten. */
  lemma ReserveSpends(p: Plan, w: World, r: Request)
    ensures var w' := AfterReserve(p, w, r);
            var spent := if Decide(w.s, p, r).Admitted? then r.tpmCost else 0;
            && w'.s.tpm == Bucket(TokensAt(w.s.tpm, r.nowMs, p.tpm) - spent as real, r.nowMs, p.tpm)
            && Sum(w'.s.held, TokensOf()) + w'.b.lostTpm == Sum(w.s.held, TokensOf()) + w.b.lostTpm + spent
            && (spent as real <= TokensAt(w.s.tpm, r.nowMs, p.tpm) || spent == 0)
  {
    if Decide(w.s, p, r).Admitted? {
      SumPut(w.s.held, r.id, Reservation(r.tpmCost, r.budgetCost, r.month), TokensOf());
    }
  }

  /** Time the bucket moves forward by an attempt at nowMs. */
  function Gap(s: Tenant, nowMs: int): real {
    MaxInt(0, nowMs - s.tpm.tsMs.GetOr(nowMs)) as real
  }

  /** An attempt moves the clock forward by its gap, and never back; the first one finds a full bucket. */
  lemma ReserveRefills(p: Plan, w: World, r: Request)
    requires Sensible(p) && TpmBalanced(p, w)
    ensures var forward, forward' := TokenBucket.Forward(w.b.visits), TokenBucket.Forward(AfterReserve(p, w, r).b.visits);
            var refilled := TokenBucket.Accrual(Gap(w.s, r.nowMs), PerMs(p.tpm));
            && TokenBucket.Accrual(forward', PerMs(p.tpm)) == TokenBucket.Accrual(forward, PerMs(p.tpm)) + refilled
            && Unclipped(p, w.s, r.nowMs) == (if w.s.tpm == NO_BUCKET then p.tpm as real else w.s.tpm.tokens.value + refilled)
            && TokensAt(w.s.tpm, r.nowMs, p.tpm) == Min(p.tpm as real, Unclipped(p, w.s, r.nowMs))
            && 0.0 <= refilled
            && (forward' == 0.0 ==> forward == 0.0 && refilled == 0.0)
  {
    var gap := Gap(w.s, r.nowMs);
    var v := AfterReserve(p, w, r).b.visits[|w.b.visits|];
    ForwardGrows(w.b.visits, v);
    TokenBucket.AccrualAdds(TokenBucket.Forward(w.b.visits), gap, PerMs(p.tpm));
    TokenBucket.AccrualGrows(0.0, gap, PerMs(p.tpm));
    assert gap == 0.0 ==> TokenBucket.Accrual(gap, PerMs(p.tpm)) == 0.0;
    if w.s.tpm != NO_BUCKET {
      assert gap == Max(0.0, v.at - w.b.visits[|w.b.visits| - 1].at);
    }
  }

  /** The attempt refills for the time since the last one, and books what the cap cuts off. */
  lemma ReserveKeepsBalance(p: Plan, w: World, r: Request)
    requires Sensible(p) && TpmBalanced(p, w) && Present(p, w.s)
    ensures TpmBalanced(p, AfterReserve(p, w, r))
  {
    ReserveRefills(p, w, r);
    ReserveSpends(p, w, r);
    var w' := AfterReserve(p, w, r);
    assert w'.b.visits[|w'.b.visits| - 1].at == r.nowMs as real;
    if w.s.tpm == NO_BUCKET {
      assert w.s.held == map[];
      assert TokenBucket.Accrual(TokenBucket.Forward([]), PerMs(p.tpm)) == 0.0;
    }
  }

  lemma ReserveKeepsBounds(p: Plan, w: World, r: Request)
    requires Sensible(p) && TpmBalanced(p, w) && TpmBounded(p, w) && Estimated(p, w.s) && Costed(Reserving(r))
    ensures TpmBounded(p, AfterReserve(p, w, r))
  {
    ReserveRefills(p, w, r);
    ReserveSpends(p, w, r);
  }

  lemma ReserveKeepsBudget(p: Plan, w: World, r: Request)
    requires BudgetBooked(p, w)
    ensures BudgetBooked(p, AfterReserve(p, w, r))
  {
    var w' := AfterReserve(p, w, r);
    forall m
      ensures Left(p, w', m) + MapOr(w'.b.spentBudget, m, 0) + MapOr(w'.b.lostBudget, m, 0) == p.budgetMicro
    {
      if Decide(w.s, p, r).Admitted? {
        SumPut(w.s.held, r.id, Reservation(r.tpmCost, r.budgetCost, r.month), BudgetOf(m));
      }
      assert Left(p, w, m) + MapOr(w.b.spentBudget, m, 0) + MapOr(w.b.lostBudget, m, 0) == p.budgetMicro;
    }
  }

  lemma ReserveKeepsRpm(p: Plan, w: World, r: Request)
    requires Sensible(p) && RpmBooked(p, w)
    ensures RpmBooked(p, AfterReserve(p, w, r))
  {
    var w' := AfterReserve(p, w, r);
    var n := |w.b.visits|;
    assert w'.b.visits[..n] == w.b.visits;
    if n > 0 {
      assert MaxInt(0, r.nowMs - w.s.rpm.tsMs.value) as real
             == Max(0.0, w'.b.visits[n].at - w'.b.visits[n - 1].at);
    }
    assert TokensAt(w.s.rpm, r.nowMs, p.rpm) == TokenBucket.Before(w'.b.visits, PerMs(p.rpm), p.rpm as real);
  }

  lemma ReserveKeepsBalanced(p: Plan, w: World, r: Request)
    requires Sensible(p) && Balanced(p, w)
    ensures Balanced(p, AfterReserve(p, w, r))
  {
    ReserveKeepsCount(p, w, r);
    ReserveKeepsCustody(p, w, r);
    ReserveKeepsPresent(p, w.s, r);
    ReserveKeepsBalance(p, w, r);
    ReserveKeepsBudget(p, w, r);
    ReserveKeepsRpm(p, w, r);
  }

  // ---------------------------------------------------------------------------------------------
  // One release, by settle or by sweep
  // ---------------------------------------------------------------------------------------------

  /** Sweeping a held reservation is settling it at zero usage. */
  lemma SweepIsZeroSettle(p: Plan, s: Tenant, id: Id)
    requires s.deadlines.Keys == s.held.Keys
    ensures SweepOne(s, id) == Settle(s, id, 0, 0)
  {
    if id !in s.held {
      assert s.deadlines - {id} == s.deadlines;
    }
  }

  /** w' is w with the entry of id released at this usage; only who released it is left open. */
  ghost predicate Releases(w: World, w': World, id: Id, actualTpm: int, actualBudget: int) {
    && id in w.s.held
    && w'.s == Settle(w.s, id, actualTpm, actualBudget)
    && w'.b == Released(w, id, actualTpm, actualBudget).(settled := w'.b.settled, swept := w'.b.swept)
    && w'.b.settled + w'.b.swept == w.b.settled + w.b.swept + multiset{id}
  }

  lemma ReleaseKeepsCount(p: Plan, w: World, w': World, id: Id, actualTpm: int, actualBudget: int)
    requires Counted(p, w) && Custody(w) && Present(p, w.s) && Releases(w, w', id, actualTpm, actualBudget)
    ensures Counted(p, w') && Custody(w') && Present(p, w'.s)
  {
    assert w'.s.held.Keys == w.s.held.Keys - {id};
    assert multiset(w.s.held.Keys) == multiset(w'.s.held.Keys) + multiset{id};
    assert |w'.s.held| == |w.s.held| - 1;
  }

  lemma ReleaseKeepsBalance(p: Plan, w: World, w': World, id: Id, actualTpm: int, actualBudget: int)
    requires TpmBalanced(p, w) && Present(p, w.s) && Releases(w, w', id, actualTpm, actualBudget)
    ensures TpmBalanced(p, w')
  {
    SumWithout(w.s.held, id, TokensOf());
  }

  lemma ReleaseKeepsBounds(p: Plan, w: World, w': World, id: Id, actualTpm: int, actualBudget: int)
    requires TpmBalanced(p, w) && Present(p, w.s) && Bounded(p, w) && 0 <= actualTpm
    requires Releases(w, w', id, actualTpm, actualBudget)
    ensures Bounded(p, w')
  {
    SumWithout(w.s.held, id, TokensOf());
    forall other | other in w.s.held - {id}
      ensures 0 <= TokensOf()((w.s.held - {id})[other])
    {
    }
    SumNonNegative(w.s.held - {id}, TokensOf());
    assert TokenBucket.Forward(w.b.visits) == 0.0 ==>
             TokenBucket.Accrual(TokenBucket.Forward(w.b.visits), PerMs(p.tpm)) == 0.0;
  }

  lemma ReleaseKeepsBudget(p: Plan, w: World, w': World, id: Id, actualTpm: int, actualBudget: int)
    requires BudgetBooked(p, w) && Present(p, w.s) && Releases(w, w', id, actualTpm, actualBudget)
    ensures BudgetBooked(p, w')
  {
    forall m
      ensures Left(p, w', m) + MapOr(w'.b.spentBudget, m, 0) + MapOr(w'.b.lostBudget, m, 0) == p.budgetMicro
    {
      SumWithout(w.s.held, id, BudgetOf(m));
      assert Left(p, w, m) + MapOr(w.b.spentBudget, m, 0) + MapOr(w.b.lostBudget, m, 0) == p.budgetMicro;
    }
  }

  lemma ReleaseKeepsRpm(p: Plan, w: World, w': World)
    requires RpmBooked(p, w) && w.s.rpm == w'.s.rpm && w.b.visits == w'.b.visits
    ensures RpmBooked(p, w')
  {
  }

  lemma ReleaseKeepsBalanced(p: Plan, w: World, w': World, id: Id, actualTpm: int, actualBudget: int)
    requires Balanced(p, w) && Releases(w, w', id, actualTpm, actualBudget)
    ensures Balanced(p, w')
  {
    ReleaseKeepsCount(p, w, w', id, actualTpm, actualBudget);
    ReleaseKeepsBalance(p, w, w', id, actualTpm, actualBudget);
    ReleaseKeepsBudget(p, w, w', id, actualTpm, actualBudget);
    ReleaseKeepsRpm(p, w, w');
  }

  lemma SettleReleases(w: World, id: Id, actualTpm: int, actualBudget: int)
    ensures var w' := AfterSettle(w, id, actualTpm, actualBudget);
            if id in w.s.held then Releases(w, w', id, actualTpm, actualBudget) else w' == w
  {
  }

  lemma SweepOneReleases(p: Plan, w: World, id: Id)
    requires w.s.deadlines.Keys == w.s.held.Keys
    ensures var w' := AfterSweepOne(w, id); if id in w.s.held then Releases(w, w', id, 0, 0) else w' == w
  {
    SweepIsZeroSettle(p, w.s, id);
  }

  lemma {:induction false} SweepKeepsBalanced(p: Plan, w: World, ids: seq<Id>)
    requires Balanced(p, w)
    ensures Balanced(p, AfterSweep(w, ids))
  {
    if ids == [] {
    } else {
      var mid, id := AfterSweep(w, ids[..|ids| - 1]), ids[|ids| - 1];
      SweepKeepsBalanced(p, w, ids[..|ids| - 1]);
      SweepOneReleases(p, mid, id);
      if id in mid.s.held {
        ReleaseKeepsBalanced(p, mid, AfterSweepOne(mid, id), id, 0, 0);
      }
    }
  }

  lemma {:induction false} SweepKeepsBounds(p: Plan, w: World, ids: seq<Id>)
    requires Balanced(p, w) && Bounded(p, w)
    ensures Bounded(p, AfterSweep(w, ids))
  {
    if ids == [] {
    } else {
      var mid, id := AfterSweep(w, ids[..|ids| - 1]), ids[|ids| - 1];
      SweepKeepsBalanced(p, w, ids[..|ids| - 1]);
      SweepKeepsBounds(p, w, ids[..|ids| - 1]);
      SweepOneReleases(p, mid, id);
      if id in mid.s.held {
        ReleaseKeepsBounds(p, mid, AfterSweepOne(mid, id), id, 0, 0);
      }
    }
  }

  // ---------------------------------------------------------------------------------------------
  // Runs
  // ---------------------------------------------------------------------------------------------

  /** Every run keeps the accounts balanced: no assumption on ids, costs, usage, clocks or sweeps. */
  lemma {:induction false} RunKeepsBalanced(p: Plan, ops: seq<Op>)
    requires Sensible(p)
    ensures Balanced(p, Run(p, ops))
  {
    if ops == [] {
      assert forall m :: Sum(map[], BudgetOf(m)) == 0;
    } else {
      var w := Run(p, ops[..|ops| - 1]);
      RunKeepsBalanced(p, ops[..|ops| - 1]);
      match ops[|ops| - 1] {
        case Reserving(r) => ReserveKeepsBalanced(p, w, r);
        case Settling(id, actualTpm, actualBudget) =>
          SettleReleases(w, id, actualTpm, actualBudget);
          if id in w.s.held {
            ReleaseKeepsBalanced(p, w, AfterSettle(w, id, actualTpm, actualBudget), id, actualTpm, actualBudget);
          }
        case Sweeping(_, _, ids) => SweepKeepsBalanced(p, w, ids);
      }
    }
  }

  /** With estimates and usage that are not negative, levels and sums stay in their bounds too. */
  lemma {:induction false} RunKeepsBounds(p: Plan, ops: seq<Op>)
    requires Sensible(p) && CostedRun(ops)
    ensures Bounded(p, Run(p, ops))
  {
    if ops == [] {
    } else {
      var init, op := ops[..|ops| - 1], ops[|ops| - 1];
      var w := Run(p, init);
      RunKeepsBalanced(p, init);
      RunKeepsBounds(p, init);
      assert Costed(op);
      match op {
        case Reserving(r) =>
          ReserveKeepsEstimates(p, w.s, r);
          ReserveKeepsBounds(p, w, r);
        case Settling(id, actualTpm, actualBudget) =>
          SettleReleases(w, id, actualTpm, actualBudget);
          if id in w.s.held {
            ReleaseKeepsBounds(p, w, AfterSettle(w, id, actualTpm, actualBudget), id, actualTpm, actualBudget);
          }
        case Sweeping(_, _, ids) => SweepKeepsBounds(p, w, ids);
      }
    }
  }

  lemma ReserveKeepsBudgetBound(p: Plan, w: World, r: Request)
    requires BudgetBounded(p, w)
    ensures BudgetBounded(p, AfterReserve(p, w, r))
  {
    var w' := AfterReserve(p, w, r);
    forall m
      ensures MinInt(0, p.budgetMicro) - MapOr(w'.b.budgetOvershoot, m, 0) <= MapOr(w'.s.budget, m, p.budgetMicro)
    {
      assert 0 <= MapOr(w.b.budgetOvershoot, m, 0);
    }
  }

  lemma ReleaseKeepsBudgetBound(p: Plan, w: World, w': World, id: Id, actualTpm: int, actualBudget: int)
    requires BudgetBounded(p, w) && Present(p, w.s) && Estimated(p, w.s)
    requires Releases(w, w', id, actualTpm, actualBudget)
    ensures BudgetBounded(p, w')
  {
    forall m
      ensures 0 <= MapOr(w'.b.budgetOvershoot, m, 0)
      ensures MinInt(0, p.budgetMicro) - MapOr(w'.b.budgetOvershoot, m, 0) <= MapOr(w'.s.budget, m, p.budgetMicro)
    {
      assert 0 <= MapOr(w.b.budgetOvershoot, m, 0);
    }
  }

  lemma {:induction false} SweepKeepsBudgetBound(p: Plan, w: World, ids: seq<Id>)
    requires Balanced(p, w) && Bounded(p, w) && BudgetBounded(p, w)
    ensures BudgetBounded(p, AfterSweep(w, ids))
  {
    if ids == [] {
    } else {
      var init, id := ids[..|ids| - 1], ids[|ids| - 1];
      var mid := AfterSweep(w, init);
      SweepKeepsBalanced(p, w, init);
      SweepKeepsBounds(p, w, init);
      SweepKeepsBudgetBound(p, w, init);
      SweepOneReleases(p, mid, id);
      if id in mid.s.held {
        ReleaseKeepsBudgetBound(p, mid, AfterSweepOne(mid, id), id, 0, 0);
      }
    }
  }

  /** With costs and usage not negative, no month is overdrawn by admissions, in any run. */
  lemma {:induction false} RunKeepsBudgetBound(p: Plan, ops: seq<Op>)
    requires Sensible(p) && CostedRun(ops)
    ensures BudgetBounded(p, Run(p, ops))
  {
    if ops == [] {
    } else {
      var init, op := ops[..|ops| - 1], ops[|ops| - 1];
      var w := Run(p, init);
      RunKeepsBalanced(p, init);
      RunKeepsBounds(p, init);
      RunKeepsBudgetBound(p, init);
      match op {
        case Reserving(r) => ReserveKeepsBudgetBound(p, w, r);
        case Settling(id, actualTpm, actualBudget) =>
          SettleReleases(w, id, actualTpm, actualBudget);
          if id in w.s.held {
            ReleaseKeepsBudgetBound(p, w, AfterSettle(w, id, actualTpm, actualBudget), id, actualTpm, actualBudget);
          }
        case Sweeping(_, _, ids) => SweepKeepsBudgetBound(p, w, ids);
      }
    }
  }

  lemma {:induction false} SweepOverwritesNothing(w: World, ids: seq<Id>)
    ensures var b := AfterSweep(w, ids).b;
            b.overwritten == w.b.overwritten && b.lostTpm == w.b.lostTpm && b.lostBudget == w.b.lostBudget
  {
    if ids == [] {
    } else {
      SweepOverwritesNothing(w, ids[..|ids| - 1]);
    }
  }

  /** Where every id reserved is free, nothing is overwritten and nothing lost. */
  lemma {:induction false} LegalRunsLoseNothing(p: Plan, ops: seq<Op>)
    requires LegalRun(p, ops)
    ensures CostedRun(ops)
    ensures var b := Run(p, ops).b; b.overwritten == multiset{} && b.lostTpm == 0 && b.lostBudget == map[]
  {
    if ops == [] {
    } else {
      var init, op := ops[..|ops| - 1], ops[|ops| - 1];
      LegalRunsLoseNothing(p, init);
      assert forall o :: o in ops <==> o in init || o == op;
      if op.Sweeping? {
        SweepOverwritesNothing(Run(p, init), op.ids);
      }
    }
  }
}
