/**
 * One tenant's quota keys in Redis and the three scripts that change them. Each script runs as one
 * atomic step. The functions say what a script does to the keys; class QuotaStore runs the scripts'
 * own commands over mutable keys and is proved to do the same.
 */
module QuotaScripts {
  import opened Common
  import opened Reservations
  import TokenBucket

  /** A bucket hash; a missing field reads as nil. */
  datatype BucketHash = BucketHash(tokens: Option<real>, tsMs: Option<int>, cap: Option<real>)

  const NO_BUCKET := BucketHash(None, None, None)

  datatype Tenant = Tenant(
    rpm: BucketHash,
    tpm: BucketHash,
    conc: int,
    budget: map<Month, int>,
    deadlines: map<Id, int>,
    held: Table)

  const EMPTY := Tenant(NO_BUCKET, NO_BUCKET, 0, map[], map[], map[])

  datatype Plan = Plan(rpm: int, tpm: int, concurrency: int, budgetMicro: int)

  datatype Request = Request(
    nowMs: int,
    id: Id,
    deadlineMs: int,
    tpmCost: int,
    budgetCost: int,
    month: Month)

  datatype Dimension = Rpm | Tpm | Concurrency | Budget

  datatype Decision = Admitted | Rejected(dimension: Dimension, retryAfterMs: int)

  function PerSecond(perMinute: int): real {
    perMinute as real / 60.0
  }

  /** Tokens a bucket holds at `nowMs`; a bucket without a level or a timestamp is full. */
  function TokensAt(b: BucketHash, nowMs: int, perMinute: int): real {
    if b.tokens.None? || b.tsMs.None? then perMinute as real
    else TokenBucket.Refill(b.tokens.value, MaxInt(0, nowMs - b.tsMs.value) as real,
                            PerSecond(perMinute) / 1000.0, perMinute as real)
  }

  function RetryAfterMs(shortage: real, rate: real): int {
    if rate <= 0.0 then 1000 else Ceil(shortage / rate * 1000.0)
  }

  /** The admission decision: the four limits are consulted in this order. */
  function Decide(s: Tenant, p: Plan, r: Request): Decision {
    var rpmTokens := TokensAt(s.rpm, r.nowMs, p.rpm);
    var tpmTokens := TokensAt(s.tpm, r.nowMs, p.tpm);
    if rpmTokens < 1.0 then Rejected(Rpm, RetryAfterMs(1.0 - rpmTokens, PerSecond(p.rpm)))
    else if tpmTokens < r.tpmCost as real then
      Rejected(Tpm, RetryAfterMs(r.tpmCost as real - tpmTokens, PerSecond(p.tpm)))
    else if s.conc >= p.concurrency then Rejected(Concurrency, 1000)
    else if MapOr(s.budget, r.month, p.budgetMicro) < r.budgetCost then Rejected(Budget, 1000)
    else Admitted
  }

  function Bucket(tokens: real, nowMs: int, perMinute: int): BucketHash {
    BucketHash(Some(tokens), Some(nowMs), Some(perMinute as real))
  }

  /** State left by check_and_reserve: refilled buckets and a seeded budget even on a rejection. */
  function Reserve(s: Tenant, p: Plan, r: Request): Tenant {
    var rpmTokens := TokensAt(s.rpm, r.nowMs, p.rpm);
    var tpmTokens := TokensAt(s.tpm, r.nowMs, p.tpm);
    var budget := s.budget[r.month := MapOr(s.budget, r.month, p.budgetMicro)];
    if Decide(s, p, r).Admitted? then
      Tenant(Bucket(rpmTokens - 1.0, r.nowMs, p.rpm),
             Bucket(tpmTokens - r.tpmCost as real, r.nowMs, p.tpm),
             s.conc + 1,
             budget[r.month := budget[r.month] - r.budgetCost],
             s.deadlines[r.id := r.deadlineMs],
             s.held[r.id := Reservation(r.tpmCost, r.budgetCost, r.month)])
    else
      s.(rpm := Bucket(rpmTokens, r.nowMs, p.rpm), tpm := Bucket(tpmTokens, r.nowMs, p.tpm), budget := budget)
  }

  /** A refund is cut at the stored cap unless that cap is missing or not positive. */
  function Refunded(b: BucketHash, refund: real): BucketHash {
    var cap := b.cap.GetOr(0.0);
    var next := b.tokens.GetOr(0.0) + refund;
    b.(tokens := Some(if cap > 0.0 then Min(cap, next) else next))
  }

  /** settle: swap the estimate for the actual usage; nothing happens for an id that is not held. */
  function Settle(s: Tenant, id: Id, actualTpm: int, actualBudget: int): Tenant {
    if id !in s.held then s
    else
      var r := s.held[id];
      Tenant(s.rpm,
             Refunded(s.tpm, (r.tpmEst - actualTpm) as real),
             MaxInt(0, s.conc - 1),
             s.budget[r.month := MapOr(s.budget, r.month, 0) + (r.budgetEst - actualBudget)],
             s.deadlines - {id},
             s.held - {id})
  }

  /** One pass of the sweep loop: a held id is refunded in full, any other only leaves the index. */
  function SweepOne(s: Tenant, id: Id): Tenant {
    if id in s.held then Settle(s, id, 0, 0) else s.(deadlines := s.deadlines - {id})
  }

  function SweepAll(s: Tenant, ids: seq<Id>): Tenant {
    if ids == [] then s else SweepOne(SweepAll(s, ids[..|ids| - 1]), ids[|ids| - 1])
  }

  function Expired(deadlines: map<Id, int>, nowMs: int): set<Id> {
    set id | id in deadlines && deadlines[id] <= nowMs
  }

  /** ids is what ZRANGEBYSCORE -inf nowMs LIMIT 0 limit may return: the earliest deadlines first. */
  ghost predicate IsExpiredRange(deadlines: map<Id, int>, nowMs: int, limit: int, ids: seq<Id>) {
    && (forall i :: 0 <= i < |ids| ==> ids[i] in Expired(deadlines, nowMs))
    && (forall i, j :: 0 <= i < j < |ids| ==> ids[i] != ids[j] && deadlines[ids[i]] <= deadlines[ids[j]])
    && (forall id, i :: 0 <= i < |ids| && id in Expired(deadlines, nowMs) && id !in ids ==>
                          deadlines[ids[i]] <= deadlines[id])
    && |ids| == if limit < 0 then |Expired(deadlines, nowMs)| else MinInt(limit, |Expired(deadlines, nowMs)|)
  }

  lemma {:induction false} EarliestExists(deadlines: map<Id, int>, ids: set<Id>)
    requires ids != {} && ids <= deadlines.Keys
    ensures exists id :: id in ids && forall other :: other in ids ==> deadlines[id] <= deadlines[other]
    decreases |ids|
  {
    var id :| id in ids;
    if ids != {id} {
      EarliestExists(deadlines, ids - {id});
      var best :| best in ids - {id} && forall other :: other in ids - {id} ==> deadlines[best] <= deadlines[other];
      var winner := if deadlines[id] <= deadlines[best] then id else best;
      assert forall other :: other in ids ==> other == id || other in ids - {id};
      assert winner in ids && forall other :: other in ids ==> deadlines[winner] <= deadlines[other];
    } else {
      assert forall other :: other in ids ==> deadlines[id] <= deadlines[other];
    }
  }

  lemma OneLess(held: Table, id: Id)
    ensures id in held ==> |held - {id}| == |held| - 1
    ensures id !in held ==> held - {id} == held
  {
    assert (held - {id}).Keys == held.Keys - {id};
  }

  /** The tenant's Redis keys, updated in place by the scripts' commands. */
  class QuotaStore {
    var rpm: BucketHash
    var tpm: BucketHash
    var conc: int
    var budget: map<Month, int>
    var deadlines: map<Id, int>
    var held: Table

    ghost function View(): Tenant
      reads this
    {
      Tenant(rpm, tpm, conc, budget, deadlines, held)
    }

    constructor ()
      ensures View() == EMPTY
    {
      rpm, tpm, conc, budget, deadlines, held := NO_BUCKET, NO_BUCKET, 0, map[], map[], map[];
    }

    /** check_and_reserve.lua */
    method CheckAndReserve(p: Plan, r: Request) returns (decision: Decision)
      modifies this
      ensures decision == Decide(old(View()), p, r)
      ensures View() == Reserve(old(View()), p, r)
    {
      ghost var s := View();
      var rpmTokens, tpmTokens;
      rpm, rpmTokens := RefillBucket(rpm, r.nowMs, p.rpm);
      tpm, tpmTokens := RefillBucket(tpm, r.nowMs, p.tpm);

      if r.month !in budget {
        budget := budget[r.month := p.budgetMicro];
      }
      var left := budget[r.month];
      ghost var seeded := s.budget[r.month := MapOr(s.budget, r.month, p.budgetMicro)];
      assert budget == seeded && left == MapOr(s.budget, r.month, p.budgetMicro);

      if rpmTokens < 1.0 {
        return Rejected(Rpm, RetryAfterMs(1.0 - rpmTokens, PerSecond(p.rpm)));
      }
      if tpmTokens < r.tpmCost as real {
        return Rejected(Tpm, RetryAfterMs(r.tpmCost as real - tpmTokens, PerSecond(p.tpm)));
      }
      if conc >= p.concurrency {
        return Rejected(Concurrency, 1000);
      }
      if left < r.budgetCost {
        return Rejected(Budget, 1000);
      }

      Commit(r, rpmTokens, tpmTokens, left);
      return Admitted;
    }

    /** The commands that follow the four checks. */
    method Commit(r: Request, rpmTokens: real, tpmTokens: real, left: int)
      modifies this
      ensures View() == Tenant(old(rpm).(tokens := Some(rpmTokens - 1.0)),
                               old(tpm).(tokens := Some(tpmTokens - r.tpmCost as real)),
                               old(conc) + 1,
                               old(budget)[r.month := left - r.budgetCost],
                               old(deadlines)[r.id := r.deadlineMs],
                               old(held)[r.id := Reservation(r.tpmCost, r.budgetCost, r.month)])
    {
      rpm := rpm.(tokens := Some(rpmTokens - 1.0));
      tpm := tpm.(tokens := Some(tpmTokens - r.tpmCost as real));
      conc := conc + 1;
      budget := budget[r.month := left - r.budgetCost];
      deadlines := deadlines[r.id := r.deadlineMs];
      held := held[r.id := Reservation(r.tpmCost, r.budgetCost, r.month)];
    }

    /** The refill as the script writes it: whole milliseconds times a per-second rate, over 1000. */
    static method RefillBucket(b: BucketHash, nowMs: int, perMinute: int) returns (next: BucketHash, tokens: real)
      ensures tokens == TokensAt(b, nowMs, perMinute)
      ensures next == Bucket(tokens, nowMs, perMinute)
    {
      var rate, cap := PerSecond(perMinute), perMinute as real;
      if b.tokens.None? || b.tsMs.None? {
        tokens := cap;
      } else {
        var deltaMs := MaxInt(0, nowMs - b.tsMs.value);
        tokens := Min(cap, b.tokens.value + deltaMs as real * rate / 1000.0);
      }
      next := BucketHash(Some(tokens), Some(nowMs), Some(cap));
    }

    /** settle.lua; true when the reservation was found. */
    method SettleReservation(id: Id, actualTpm: int, actualBudget: int, currentMonth: Month) returns (found: bool)
      modifies this
      ensures found == (id in old(held))
      ensures View() == Settle(old(View()), id, actualTpm, actualBudget)
    {
      if id !in held {
        return false;
      }
      var data := held[id];
      var refundMonth := currentMonth;
      if data.month != currentMonth {
        refundMonth := data.month;
      }
      var cap := tpm.cap.GetOr(0.0);
      var next := tpm.tokens.GetOr(0.0) + (data.tpmEst - actualTpm) as real;
      if cap > 0.0 {
        next := Min(cap, next);
      }
      tpm := tpm.(tokens := Some(next));
      budget := budget[refundMonth := MapOr(budget, refundMonth, 0) + (data.budgetEst - actualBudget)];
      conc := MaxInt(0, conc - 1);
      deadlines := deadlines - {id};
      held := held - {id};
      return true;
    }

    /** ZRANGEBYSCORE: repeatedly takes an earliest expired member until the limit is reached. */
    method ExpiredRange(nowMs: int, limit: int) returns (ids: seq<Id>)
      ensures IsExpiredRange(deadlines, nowMs, limit, ids)
    {
      ids := [];
      var rest := Expired(deadlines, nowMs);
      while rest != {} && (limit < 0 || |ids| < limit)
        invariant rest <= Expired(deadlines, nowMs)
        invariant forall id :: id in Expired(deadlines, nowMs) ==> (id in rest <==> id !in ids)
        invariant forall i :: 0 <= i < |ids| ==> ids[i] in Expired(deadlines, nowMs)
        invariant forall i, j :: 0 <= i < j < |ids| ==>
                                   ids[i] != ids[j] && deadlines[ids[i]] <= deadlines[ids[j]]
        invariant forall id, i :: 0 <= i < |ids| && id in rest ==> deadlines[ids[i]] <= deadlines[id]
        invariant |ids| + |rest| == |Expired(deadlines, nowMs)|
        invariant 0 <= limit ==> |ids| <= limit
        decreases |rest|
      {
        EarliestExists(deadlines, rest);
        var id :| id in rest && forall other :: other in rest ==> deadlines[id] <= deadlines[other];
        ids := ids + [id];
        rest := rest - {id};
      }
    }

    /** sweep.lua; counts the reservations it refunded. */
    method Sweep(nowMs: int, limit: int, currentMonth: Month) returns (count: nat, ghost ids: seq<Id>)
      modifies this
      ensures IsExpiredRange(old(deadlines), nowMs, limit, ids)
      ensures View() == SweepAll(old(View()), ids)
      ensures count == |old(held)| - |held|
    {
      var expired := ExpiredRange(nowMs, limit);
      ids := expired;
      count := 0;
      var cap := tpm.cap.GetOr(0.0);
      ghost var start := View();
      for i := 0 to |expired|
        invariant expired == ids
        invariant View() == SweepAll(start, ids[..i])
        invariant cap == tpm.cap.GetOr(0.0)
        invariant count == |start.held| - |held|
      {
        assert ids[..i + 1][..i] == ids[..i];
        var done := SweepEntry(expired[i], cap, currentMonth);
        if done {
          count := count + 1;
        }
      }
      assert ids[..|ids|] == ids;
    }

    /** The body of the sweep loop. */
    method SweepEntry(id: Id, cap: real, currentMonth: Month) returns (refunded: bool)
      requires cap == tpm.cap.GetOr(0.0)
      modifies this
      ensures refunded == (id in old(held))
      ensures View() == SweepOne(old(View()), id)
      ensures tpm.cap == old(tpm.cap)
      ensures |held| == |old(held)| - if refunded then 1 else 0
    {
      ghost var s := View();
      refunded := id in held;
      OneLess(held, id);
      if refunded {
        RefundEntry(held[id], cap, currentMonth);
      }
      deadlines := deadlines - {id};
      held := held - {id};
      assert View() == SweepOne(s, id);
    }

    /** Gives back a whole estimate: tokens up to the cap, money to the reservation's month, one place. */
    method RefundEntry(data: Reservation, cap: real, currentMonth: Month)
      requires cap == tpm.cap.GetOr(0.0)
      modifies this`tpm, this`budget, this`conc
      ensures tpm == Refunded(old(tpm), (data.tpmEst - 0) as real)
      ensures budget == old(budget)[data.month := MapOr(old(budget), data.month, 0) + (data.budgetEst - 0)]
      ensures conc == MaxInt(0, old(conc) - 1)
    {
      var refundMonth := currentMonth;
      if data.month != currentMonth {
        refundMonth := data.month;
      }
      var next := tpm.tokens.GetOr(0.0) + data.tpmEst as real;
      if cap > 0.0 {
        next := Min(cap, next);
      }
      tpm := tpm.(tokens := Some(next));
      budget := budget[refundMonth := MapOr(budget, refundMonth, 0) + data.budgetEst];
      conc := MaxInt(0, conc - 1);
    }
  }
}
