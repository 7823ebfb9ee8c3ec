/** A request's calls as the quota service carries them out. */
module RequestCalls {
  import opened Common
  import opened QuotaScripts
  import opened RequestRuns
  import S = QuotaService

  /** The service's store before the call is as st says, and an asking call knows its own estimate. */
  ghost predicate Ready(service: S.Service, st: State, call: Call)
    reads service, service.store
  {
    && service.store.View() == st.s
    && (call.Asking? ==>
          call.request.tpmCost == call.estimate.tpmCost && call.request.budgetCost == call.estimate.budgetCost)
  }

  /**
   * Reserves through the service. The request's own view of the call, and the keys, are those of its step; where
   * Redis does not answer, fail mode and local limiter have decided.
   */
  method Ask(service: S.Service, p: Plan, ghost st: State, call: Call, failOpen: bool, tenant: string, clockS: real,
             instances: int) returns (result: S.Result<S.Reservation>)
    requires call.Asking? && Ready(service, st, call)
    modifies service, service.store, service.fallback
    ensures var next := After(p, st, Own(call.(allowed := result.Ok?)));
            && service.store.View() == next.s
            && next.held == (if result.Ok? then Some(result.value) else None)
  {
    result := service.Reserve(p, failOpen, call.request, call.estimate, tenant, clockS, instances, call.reply);
  }

  /** Settles or refunds the request's reservation through the service; the keys move as its step says. */
  method Release(service: S.Service, p: Plan, ghost st: State, call: Call, reservation: S.Reservation)
    requires call.Releasing? && !call.call.Reserve? && Ready(service, st, call) && st.held == Some(reservation)
    modifies service.store
    ensures service.store.View() == After(p, st, Own(call)).s
  {
    var usage := Some(S.Usage(0, 0, 0));
    var forwarded := 0;
    if call.call.Settle? {
      usage, forwarded := call.call.usage, call.call.forwarded;
    }
    var _ := service.Settle(reservation, usage, forwarded, call.prices, call.first, call.second);
  }
}
