/** Quota admission and settlement as the gateway calls them, over replies that Redis may lose. */
module QuotaService {
  import opened Common
  import opened QuotaScripts
  import LocalFallback
  import QuotaDecisions
  import QuotaTheorems

  datatype Estimate = Estimate(outputTokens: int, tpmCost: int, budgetCost: int)

  datatype Usage = Usage(prompt: nat, completion: nat, total: nat)

  /** Prices in USD per thousand tokens. */
  datatype Prices = Prices(input: real, output: real)

  datatype Reservation = Reservation(id: string, estimate: Estimate, month: string, redisReserved: bool)

  /** What became of one script call: an answer, an error, or a timeout; a failed call may still have run. */
  datatype Reply = Answered | Errored(ran: bool) | TimedOut(ran: bool)

  function Ran(r: Reply): bool {
    match r
    case Answered => true
    case Errored(ran) => ran
    case TimedOut(ran) => ran
  }

  /** Whether a settle takes effect: an error is followed by a second call, a timeout is not. */
  predicate Landed(first: Reply, second: Reply) {
    Ran(first) || (first.Errored? && Ran(second))
  }

  datatype Refusal = QuotaExceeded(dimension: Dimension, retryAfterS: real) | Unavailable

  datatype Result<+T> = Ok(value: T) | Err(refusal: Refusal)

  /** Usage assumed when the upstream reported none. */
  function FallbackUsage(e: Estimate, forwarded: int): (u: Usage)
    ensures u.total == u.prompt + u.completion
  {
    var completion := MaxInt(0, forwarded);
    var prompt := MaxInt(0, e.tpmCost - e.outputTokens);
    Usage(prompt, completion, prompt + completion)
  }

  /** Assumed usage overshoots the estimate exactly when more was forwarded than its output share. */
  lemma FallbackUsageOvershoots(e: Estimate, forwarded: int)
    requires 0 <= e.tpmCost && 0 <= e.outputTokens
    ensures FallbackUsage(e, forwarded).total <= e.tpmCost <==> forwarded <= MinInt(e.tpmCost, e.outputTokens)
  {
  }

  /** Assumed output is what was forwarded, assumed input the rest of the estimate; neither is negative. */
  lemma FallbackUsageParts(e: Estimate, forwarded: int)
    ensures 0 <= forwarded ==> FallbackUsage(e, forwarded).completion == forwarded
    ensures forwarded < 0 ==> FallbackUsage(e, forwarded).completion == 0
    ensures 0 <= e.outputTokens <= e.tpmCost ==> FallbackUsage(e, forwarded).prompt + e.outputTokens == e.tpmCost
    ensures e.tpmCost < e.outputTokens ==> FallbackUsage(e, forwarded).prompt == 0
  {
  }

  /** The charge is the least whole micro-USD that covers input and output at their own prices. */
  lemma ChargeCoversCost(u: Usage, p: Prices)
    requires 0.0 <= p.input && 0.0 <= p.output
    ensures var microPerToken := 1000.0;
            var cost := u.prompt as real * (p.input * microPerToken) + u.completion as real * (p.output * microPerToken);
            cost <= ActualBudget(u, p) as real < cost + 1.0
  {
    PerToken(u.prompt as real, p.input);
    PerToken(u.completion as real, p.output);
  }

  lemma PerToken(n: real, price: real)
    requires 0.0 <= n && 0.0 <= price
    ensures n / 1000.0 * price * 1000000.0 == n * (price * 1000.0) && 0.0 <= n * (price * 1000.0)
  {
    assert n / 1000.0 * price == n * price / 1000.0;
  }

  function ActualBudget(u: Usage, p: Prices): int {
    MaxInt(0, Ceil((u.prompt as real / 1000.0 * p.input + u.completion as real / 1000.0 * p.output) * 1000000.0))
  }

  class Service {
    const store: QuotaStore
    const fallback: LocalFallback.LocalFallbackLimiter
    var fallbackActive: bool

    constructor (store: QuotaStore, fallback: LocalFallback.LocalFallbackLimiter)
      ensures this.store == store && this.fallback == fallback && !fallbackActive
    {
      this.store, this.fallback, fallbackActive := store, fallback, false;
    }

    /**
     * An answered script decides. An unanswered one leaves the decision to the plan's fail mode: closed
     * refuses, open asks the local limiter and hands out a reservation that Redis does not know.
     */
    method Reserve(plan: Plan, failOpen: bool, request: Request, estimate: Estimate, tenant: string,
                   clockS: real, instanceCount: int, reply: Reply)
      returns (result: Result<Reservation>)
      requires request.tpmCost == estimate.tpmCost && request.budgetCost == estimate.budgetCost
      modifies this, store, fallback
      ensures var keys := old(store.View());
              store.View() == if Ran(reply) then QuotaScripts.Reserve(keys, plan, request) else keys
      ensures reply.Answered? ==>
                && !fallbackActive && fallback.View() == old(fallback.View())
                && match Decide(old(store.View()), plan, request)
                   case Admitted => result == Ok(Reservation(request.id, estimate, request.month, true))
                   case Rejected(dimension, ms) => result == Err(QuotaExceeded(dimension, QuotaDecisions.RetryAfterS(ms)))
      ensures !reply.Answered? && !failOpen ==>
                && result == Err(Unavailable) && fallbackActive == old(fallbackActive)
                && fallback.View() == old(fallback.View())
      ensures !reply.Answered? && failOpen ==>
                var caps, call := LocalFallback.CapsFor(plan.rpm, plan.tpm, instanceCount),
                                  LocalFallback.Call(tenant, estimate.tpmCost, clockS);
                && fallbackActive && fallback.View() == LocalFallback.After(old(fallback.View()), caps, call)
                && result == if LocalFallback.Allows(old(fallback.View()), caps, call)
                             then Ok(Reservation(request.id, estimate, request.month, false))
                             else Err(QuotaExceeded(Tpm, 1.0))
    {
      var decision := Admitted;
      if Ran(reply) {
        decision := store.CheckAndReserve(plan, request);
      }
      if !reply.Answered? {
        if !failOpen {
          return Err(Unavailable);
        }
        fallbackActive := true;
        var ok := fallback.Allow(LocalFallback.Call(tenant, estimate.tpmCost, clockS), plan.rpm, plan.tpm, instanceCount);
        if !ok {
          return Err(QuotaExceeded(Tpm, 1.0));
        }
        return Ok(Reservation(request.id, estimate, request.month, false));
      }
      fallbackActive := false;
      match decision {
        case Rejected(dimension, ms) => return Err(QuotaExceeded(dimension, QuotaDecisions.RetryAfterS(ms)));
        case Admitted => return Ok(Reservation(request.id, estimate, request.month, true));
      }
    }

    /**
     * Settles once although the script may run twice: the second run, after an error whose first run did
     * take effect, finds nothing left to settle. The keys move iff at least one call ran.
     */
    method Settle(reservation: Reservation, actual: Option<Usage>, forwarded: int, prices: Prices,
                  first: Reply, second: Reply) returns (reached: bool)
      modifies store
      ensures reached == (reservation.redisReserved && Landed(first, second))
      ensures var usage := actual.GetOr(FallbackUsage(reservation.estimate, forwarded));
              store.View() == if reached
                              then QuotaScripts.Settle(old(store.View()), reservation.id, usage.total,
                                                       ActualBudget(usage, prices))
                              else old(store.View())
    {
      reached := false;
      if !reservation.redisReserved {
        return;
      }
      var usage := actual.GetOr(FallbackUsage(reservation.estimate, forwarded));
      var budget := ActualBudget(usage, prices);
      ghost var keys := store.View();
      if Ran(first) {
        var _ := store.SettleReservation(reservation.id, usage.total, budget, reservation.month);
        reached := true;
      }
      if first.Errored? && Ran(second) {
        var _ := store.SettleReservation(reservation.id, usage.total, budget, reservation.month);
        reached := true;
        QuotaTheorems.LateSettlesAreNoOps(keys, [], reservation.id, usage.total, budget, usage.total, budget);
      }
    }

    /** A full refund is a settle at zero usage, so a held reservation's whole estimate comes back. */
    method RefundFull(reservation: Reservation, prices: Prices, first: Reply, second: Reply) returns (reached: bool)
      modifies store
      ensures reached == (reservation.redisReserved && Landed(first, second))
      ensures store.View() == if reached then QuotaScripts.Settle(old(store.View()), reservation.id, 0, 0)
                              else old(store.View())
    {
      reached := Settle(reservation, Some(Usage(0, 0, 0)), 0, prices, first, second);
      assert ActualBudget(Usage(0, 0, 0), prices) == 0;
    }
  }
}
