/** The in-process limiter that admits requests while Redis is away. */
module LocalFallback {
  import opened Common
  import opened TokenBucket

  datatype Held = Held(tokens: real, ts: real)

  /** Per-instance caps of a plan; rates are one cap a minute. */
  datatype Caps = Caps(rpm: real, tpm: real)

  predicate Usable(caps: Caps) {
    1.0 <= caps.rpm && 1.0 <= caps.tpm
  }

  function CapsFor(rpm: int, tpm: int, instanceCount: int): (caps: Caps)
    ensures Usable(caps)
  {
    var instances := MaxInt(1, instanceCount) as real;
    Caps(Max(1.0, rpm as real / instances), Max(1.0, tpm as real / instances))
  }

  datatype Limiter = Limiter(rpm: map<string, Held>, tpm: map<string, Held>)

  function LevelAt(buckets: map<string, Held>, tenant: string, cap: real, now: real): real {
    if tenant in buckets then Refill(buckets[tenant].tokens, now - buckets[tenant].ts, cap / 60.0, cap)
    else Refill(cap, 0.0, cap / 60.0, cap)
  }

  datatype Call = Call(tenant: string, cost: int, now: real)

  predicate Allows(s: Limiter, caps: Caps, c: Call) {
    1.0 <= LevelAt(s.rpm, c.tenant, caps.rpm, c.now) && c.cost as real <= LevelAt(s.tpm, c.tenant, caps.tpm, c.now)
  }

  /** Both buckets are refilled; only an admission debits them, and then both. */
  function After(s: Limiter, caps: Caps, c: Call): Limiter {
    var rpm, tpm := LevelAt(s.rpm, c.tenant, caps.rpm, c.now), LevelAt(s.tpm, c.tenant, caps.tpm, c.now);
    var admits := Allows(s, caps, c);
    Limiter(s.rpm[c.tenant := Held(rpm - if admits then 1.0 else 0.0, c.now)],
            s.tpm[c.tenant := Held(tpm - if admits then c.cost as real else 0.0, c.now)])
  }

  class LocalFallbackLimiter {
    var rpm: map<string, Held>
    var tpm: map<string, Held>

    ghost function View(): Limiter
      reads this
    {
      Limiter(rpm, tpm)
    }

    constructor ()
      ensures View() == Limiter(map[], map[])
    {
      rpm, tpm := map[], map[];
    }

    method Allow(c: Call, planRpm: int, planTpm: int, instanceCount: int) returns (ok: bool)
      modifies this
      ensures ok == Allows(old(View()), CapsFor(planRpm, planTpm, instanceCount), c)
      ensures View() == After(old(View()), CapsFor(planRpm, planTpm, instanceCount), c)
    {
      var caps := CapsFor(planRpm, planTpm, instanceCount);
      var rpmBucket := BucketFor(rpm, c.tenant, caps.rpm, c.now);
      var tpmBucket := BucketFor(tpm, c.tenant, caps.tpm, c.now);
      var rpmTokens := Refill(rpmBucket.tokens, c.now - rpmBucket.ts, caps.rpm / 60.0, caps.rpm);
      var tpmTokens := Refill(tpmBucket.tokens, c.now - tpmBucket.ts, caps.tpm / 60.0, caps.tpm);
      assert rpmTokens == LevelAt(rpm, c.tenant, caps.rpm, c.now);
      assert tpmTokens == LevelAt(tpm, c.tenant, caps.tpm, c.now);
      ghost var s := View();
      rpm, tpm := rpm[c.tenant := Held(rpmTokens, c.now)], tpm[c.tenant := Held(tpmTokens, c.now)];
      if rpmTokens < 1.0 || tpmTokens < c.cost as real {
        return false;
      }
      rpm := rpm[c.tenant := Held(rpmTokens - 1.0, c.now)];
      tpm := tpm[c.tenant := Held(tpmTokens - c.cost as real, c.now)];
      assert rpm == s.rpm[c.tenant := Held(rpmTokens - 1.0, c.now)];
      assert tpm == s.tpm[c.tenant := Held(tpmTokens - c.cost as real, c.now)];
      return true;
    }

    static function BucketFor(buckets: map<string, Held>, tenant: string, cap: real, now: real): Held {
      if tenant in buckets then buckets[tenant] else Held(cap, now)
    }
  }

  function Run(caps: Caps, calls: seq<Call>): Limiter {
    if calls == [] then Limiter(map[], map[])
    else After(Run(caps, calls[..|calls| - 1]), caps, calls[|calls| - 1])
  }

  /** What a call takes from its tenant's request bucket, or from its token bucket. */
  function VisitOf(s: Limiter, caps: Caps, c: Call, inTokens: bool): Visit {
    Visit(c.now, if !Allows(s, caps, c) then 0.0 else if inTokens then c.cost as real else 1.0)
  }

  function Visited(visits: seq<Visit>, mine: bool, v: Visit): seq<Visit> {
    if mine then visits + [v] else visits
  }

  /** One tenant's calls as bucket visits, in requests or in tokens. */
  function Visits(caps: Caps, calls: seq<Call>, tenant: string, inTokens: bool): seq<Visit> {
    if calls == [] then []
    else
      var init, c := calls[..|calls| - 1], calls[|calls| - 1];
      Visited(Visits(caps, init, tenant, inTokens), c.tenant == tenant, VisitOf(Run(caps, init), caps, c, inTokens))
  }

  function BucketsOf(s: Limiter, inTokens: bool): map<string, Held> {
    if inTokens then s.tpm else s.rpm
  }

  function CapOf(caps: Caps, inTokens: bool): real {
    if inTokens then caps.tpm else caps.rpm
  }

  /** What one tenant was admitted inside a window, in requests or in tokens. */
  function AdmittedIn(caps: Caps, calls: seq<Call>, tenant: string, inTokens: bool, from: real, to: real): real {
    SpentIn(Visits(caps, calls, tenant, inTokens), from, to)
  }

  ghost predicate Timely(calls: seq<Call>) {
    && (forall i, j :: 0 <= i < j < |calls| ==> calls[i].now <= calls[j].now)
    && forall i :: 0 <= i < |calls| ==> 1 <= calls[i].cost
  }

  ghost predicate Books(buckets: map<string, Held>, tenant: string, visits: seq<Visit>, cap: real, lastCall: real) {
    && Ordered(visits) && Funded(visits, cap / 60.0, cap)
    && (tenant in buckets <==> visits != [])
    && (visits != [] ==>
          && buckets[tenant] == Held(Level(visits, cap / 60.0, cap), visits[|visits| - 1].at)
          && visits[|visits| - 1].at <= lastCall)
  }

  lemma {:induction false} VisitKeepsBooks(buckets: map<string, Held>, tenant: string, visits: seq<Visit>, cap: real, lastCall: real,
                                           now: real, spend: real)
    requires 1.0 <= cap && Books(buckets, tenant, visits, cap, lastCall) && lastCall <= now
    requires 0.0 <= spend <= LevelAt(buckets, tenant, cap, now) || spend == 0.0
    ensures Books(buckets[tenant := Held(LevelAt(buckets, tenant, cap, now) - spend, now)], tenant,
                  visits + [Visit(now, spend)], cap, now)
  {
    var v := Visit(now, spend);
    Extend(visits, v, cap / 60.0, cap, now, now);
    var after := visits + [v];
    assert after[..|visits|] == visits;
    assert Accrual(0.0, cap / 60.0) == 0.0;
    assert Before(after, cap / 60.0, cap) == LevelAt(buckets, tenant, cap, now);
    OrderedGrows(visits, v);
  }

  lemma OrderedGrows(visits: seq<Visit>, v: Visit)
    requires Ordered(visits) && (visits != [] ==> visits[|visits| - 1].at <= v.at)
    ensures Ordered(visits + [v])
  {
  }

  lemma {:induction false} OthersKeepBooks(buckets: map<string, Held>, other: string, h: Held, tenant: string, visits: seq<Visit>,
                                           cap: real, lastCall: real, now: real)
    requires Books(buckets, tenant, visits, cap, lastCall) && other != tenant && lastCall <= now
    ensures Books(buckets[other := h], tenant, visits, cap, now)
  {
  }

  lemma CallVisits(s: Limiter, caps: Caps, c: Call, inTokens: bool)
    requires 1 <= c.cost
    ensures var spend := VisitOf(s, caps, c, inTokens).spend;
            var level := LevelAt(BucketsOf(s, inTokens), c.tenant, CapOf(caps, inTokens), c.now);
            && BucketsOf(After(s, caps, c), inTokens) == BucketsOf(s, inTokens)[c.tenant := Held(level - spend, c.now)]
            && (0.0 <= spend <= level || spend == 0.0)
  {
  }

  lemma {:induction false} CallKeepsBooks(s: Limiter, caps: Caps, c: Call, tenant: string, inTokens: bool, visits: seq<Visit>, lastCall: real)
    requires Usable(caps) && 1 <= c.cost && lastCall <= c.now
    requires Books(BucketsOf(s, inTokens), tenant, visits, CapOf(caps, inTokens), lastCall)
    ensures Books(BucketsOf(After(s, caps, c), inTokens), tenant,
                  Visited(visits, c.tenant == tenant, VisitOf(s, caps, c, inTokens)),
                  CapOf(caps, inTokens), c.now)
  {
    CallVisits(s, caps, c, inTokens);
    var buckets, cap, spend := BucketsOf(s, inTokens), CapOf(caps, inTokens), VisitOf(s, caps, c, inTokens).spend;
    VisitOrOther(buckets, cap, c.tenant, tenant, visits, lastCall, c.now, spend);
    assert VisitOf(s, caps, c, inTokens) == Visit(c.now, spend);
  }

  /** A bucket written back after a visit keeps the books of the tenant it belongs to, and everyone else's. */
  lemma {:induction false} VisitOrOther(buckets: map<string, Held>, cap: real, visitor: string, tenant: string, visits: seq<Visit>,
                                        lastCall: real, now: real, spend: real)
    requires 1.0 <= cap && lastCall <= now && Books(buckets, tenant, visits, cap, lastCall)
    requires 0.0 <= spend <= LevelAt(buckets, visitor, cap, now) || spend == 0.0
    ensures Books(buckets[visitor := Held(LevelAt(buckets, visitor, cap, now) - spend, now)], tenant,
                  Visited(visits, visitor == tenant, Visit(now, spend)), cap, now)
  {
    if visitor == tenant {
      VisitKeepsBooks(buckets, tenant, visits, cap, lastCall, now, spend);
    } else {
      OthersKeepBooks(buckets, visitor, Held(LevelAt(buckets, visitor, cap, now) - spend, now), tenant, visits, cap,
                      lastCall, now);
    }
  }

  lemma {:induction false} RunKeepsBooks(caps: Caps, calls: seq<Call>, tenant: string, inTokens: bool, start: real)
    requires Usable(caps) && Timely(calls) && (calls != [] ==> start <= calls[0].now)
    ensures Books(BucketsOf(Run(caps, calls), inTokens), tenant, Visits(caps, calls, tenant, inTokens),
                  CapOf(caps, inTokens), if calls == [] then start else calls[|calls| - 1].now)
  {
    if calls == [] {
    } else {
      var init, c := calls[..|calls| - 1], calls[|calls| - 1];
      RunKeepsBooks(caps, init, tenant, inTokens, start);
      CallKeepsBooks(Run(caps, init), caps, c, tenant, inTokens, Visits(caps, init, tenant, inTokens),
                     if init == [] then start else init[|init| - 1].now);
    }
  }

  /** Both limits hold in every window, per tenant, without any overshoot term. */
  lemma FallbackBound(caps: Caps, calls: seq<Call>, tenant: string, inTokens: bool, from: real, to: real)
    requires Usable(caps) && Timely(calls) && from <= to
    ensures AdmittedIn(caps, calls, tenant, inTokens, from, to)
            <= CapOf(caps, inTokens) + Accrual(to - from, CapOf(caps, inTokens) / 60.0)
  {
    RunKeepsBooks(caps, calls, tenant, inTokens, if calls == [] then 0.0 else calls[0].now);
    WindowBound(Visits(caps, calls, tenant, inTokens), CapOf(caps, inTokens) / 60.0, CapOf(caps, inTokens), from, to);
  }

  /** Writing back a bucket's level does not change its later levels. */
  lemma LevelWrittenBack(buckets: map<string, Held>, tenant: string, cap: real, now: real, later: real)
    requires 1.0 <= cap && now <= later
    ensures LevelAt(buckets[tenant := Held(LevelAt(buckets, tenant, cap, now), now)], tenant, cap, later)
            == LevelAt(buckets, tenant, cap, later)
  {
    AccrualGrows(0.0, later - now, cap / 60.0);
    if tenant in buckets {
      var b := buckets[tenant];
      RefillComposes(b.tokens, now - b.ts, later - now, cap / 60.0, cap);
      assert now - b.ts + (later - now) == later - b.ts;
    } else {
      assert Accrual(0.0, cap / 60.0) == 0.0;
    }
  }

  /** A rejection debits neither bucket: from then on every tenant's levels read as if it never came. */
  lemma RejectionDebitsNothing(s: Limiter, caps: Caps, c: Call, tenant: string, later: real)
    requires Usable(caps) && !Allows(s, caps, c) && c.now <= later
    ensures LevelAt(After(s, caps, c).rpm, tenant, caps.rpm, later) == LevelAt(s.rpm, tenant, caps.rpm, later)
    ensures LevelAt(After(s, caps, c).tpm, tenant, caps.tpm, later) == LevelAt(s.tpm, tenant, caps.tpm, later)
  {
    if tenant == c.tenant {
      LevelWrittenBack(s.rpm, tenant, caps.rpm, c.now, later);
      LevelWrittenBack(s.tpm, tenant, caps.tpm, c.now, later);
    }
  }

  /** A whole fleet of instances allows the plan, or one a minute each if the plan has less to share. */
  lemma FleetKeepsPlan(rpm: int, tpm: int, instances: nat)
    requires 0 < instances
    ensures CapsFor(rpm, tpm, instances).rpm * instances as real == Max(instances as real, rpm as real)
    ensures CapsFor(rpm, tpm, instances).tpm * instances as real == Max(instances as real, tpm as real)
  {
    var n := instances as real;
    assert MaxInt(1, instances) as real == n;
    SharesAddUp(rpm as real, n);
    SharesAddUp(tpm as real, n);
  }

  lemma SharesAddUp(plan: real, n: real)
    requires 0.0 < n
    ensures Max(1.0, plan / n) * n == Max(n, plan)
  {
    var share := plan / n;
    assert share * n == plan;
    if share <= 1.0 {
      assert (1.0 - share) * n >= 0.0;
    } else {
      assert (share - 1.0) * n > 0.0;
    }
  }

  /** A tenant's bucket before a call, told from the visits before; one that never called finds it full. */
  function LevelBefore(caps: Caps, calls: seq<Call>, c: Call, inTokens: bool): real {
    Before(Visits(caps, calls, c.tenant, inTokens) + [Visit(c.now, 0.0)], CapOf(caps, inTokens) / 60.0,
           CapOf(caps, inTokens))
  }

  lemma {:induction false} LevelIsBefore(caps: Caps, calls: seq<Call>, c: Call, inTokens: bool)
    requires Usable(caps) && Timely(calls) && (calls != [] ==> calls[|calls| - 1].now <= c.now)
    ensures LevelAt(BucketsOf(Run(caps, calls), inTokens), c.tenant, CapOf(caps, inTokens), c.now)
            == LevelBefore(caps, calls, c, inTokens)
  {
    var visits, cap := Visits(caps, calls, c.tenant, inTokens), CapOf(caps, inTokens);
    RunKeepsBooks(caps, calls, c.tenant, inTokens, if calls == [] then c.now else calls[0].now);
    assert (visits + [Visit(c.now, 0.0)])[..|visits|] == visits;
    assert Accrual(0.0, cap / 60.0) == 0.0;
  }

  /** In every run a call is allowed iff its tenant's buckets, refilled since the last visits, cover it. */
  lemma {:induction false} AllowsIff(caps: Caps, calls: seq<Call>, c: Call)
    requires Usable(caps) && Timely(calls) && (calls != [] ==> calls[|calls| - 1].now <= c.now)
    ensures Allows(Run(caps, calls), caps, c)
            <==> 1.0 <= LevelBefore(caps, calls, c, false) && c.cost as real <= LevelBefore(caps, calls, c, true)
  {
    LevelIsBefore(caps, calls, c, false);
    LevelIsBefore(caps, calls, c, true);
  }
}
