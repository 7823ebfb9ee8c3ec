/** From requests back to script runs: a tenant's run meets the quota theorems' condition iff every request does. */
module RequestLegal {
  import opened Common
  import opened Settlement
  import opened QuotaScripts
  import opened Reservations
  import opened RequestRuns
  import opened RequestLoops
  import QuotaRuns
  import S = QuotaService

  /** The script run that a step amounts to, if any. */
  function OpOf(p: Plan, st: State, step: Step): Option<QuotaRuns.Op> {
    match step
    case Elsewhere(op) => Some(op)
    case Own(Asking(r, _, reply, _)) => if S.Ran(reply) then Some(QuotaRuns.Reserving(r)) else None
    case Own(Releasing(c, prices, _, _)) =>
      if !Effective(st, step.call) then None
      else
        var usage := UsageOf(c, st.held.value.estimate);
        Some(QuotaRuns.Settling(st.held.value.id, usage.total, S.ActualBudget(usage, prices)))
  }

  function OpsOf(p: Plan, steps: seq<Step>): seq<QuotaRuns.Op> {
    if steps == [] then []
    else
      var init, step := steps[..|steps| - 1], steps[|steps| - 1];
      var op := OpOf(p, Run(p, init), step);
      if op.Some? then OpsOf(p, init) + [op.value] else OpsOf(p, init)
  }

  lemma RunMore(p: Plan, ops: seq<QuotaRuns.Op>, op: QuotaRuns.Op)
    ensures QuotaRuns.Run(p, ops + [op]) == QuotaRuns.After(p, QuotaRuns.Run(p, ops), op)
  {
    assert (ops + [op])[..|ops|] == ops;
  }

  /** The request's steps leave the tenant's keys exactly as these script runs do. */
  lemma {:induction false} StepsAreScriptRuns(p: Plan, steps: seq<Step>)
    ensures Run(p, steps).s == QuotaRuns.Run(p, OpsOf(p, steps)).s
  {
    if steps == [] {
    } else {
      var init, step := steps[..|steps| - 1], steps[|steps| - 1];
      StepsAreScriptRuns(p, init);
      var op := OpOf(p, Run(p, init), step);
      if op.Some? {
        RunMore(p, OpsOf(p, init), op.value);
      }
    }
  }

  lemma {:induction false} OpsOfPrefix(p: Plan, steps: seq<Step>, k: nat)
    requires k <= |steps|
    ensures OpsOf(p, steps[..k]) <= OpsOf(p, steps)
    ensures k < |steps| && OpOf(p, Run(p, steps[..k]), steps[k]).Some? ==>
              && |OpsOf(p, steps[..k])| < |OpsOf(p, steps)|
              && OpsOf(p, steps)[|OpsOf(p, steps[..k])|] == OpOf(p, Run(p, steps[..k]), steps[k]).value
    decreases |steps| - k
  {
    if k == |steps| {
      assert steps[..k] == steps;
    } else {
      OpsOfPrefix(p, steps, k + 1);
      assert steps[..k + 1][..k] == steps[..k];
    }
  }

  /** The step that makes the n-th script run. */
  lemma {:induction false} StepOf(p: Plan, steps: seq<Step>, n: nat) returns (k: nat)
    requires n < |OpsOf(p, steps)|
    ensures k < |steps| && OpsOf(p, steps[..k]) == OpsOf(p, steps)[..n]
    ensures OpOf(p, Run(p, steps[..k]), steps[k]) == Some(OpsOf(p, steps)[n])
  {
    var last := |steps| - 1;
    if n < |OpsOf(p, steps[..last])| {
      k := StepOf(p, steps[..last], n);
      assert steps[..last][..k] == steps[..k];
    } else {
      k := last;
    }
  }

  /** Every run of the reserve script under this id finds it free. */
  ghost predicate FreshOps(p: Plan, ops: seq<QuotaRuns.Op>, id: Id) {
    forall n :: 0 <= n < |ops| && ops[n].Reserving? && ops[n].r.id == id ==> id !in QuotaRuns.Run(p, ops[..n]).s.held
  }

  lemma FreshStepsAreFreshOps(p: Plan, steps: seq<Step>, id: Id)
    requires OfRequest(steps, id)
    ensures FreshBefore(p, steps, id, |steps|) <==> FreshOps(p, OpsOf(p, steps), id)
  {
    var ops := OpsOf(p, steps);
    if FreshBefore(p, steps, id, |steps|) {
      forall n: nat | n < |ops| && ops[n].Reserving? && ops[n].r.id == id
        ensures id !in QuotaRuns.Run(p, ops[..n]).s.held
      {
        var k := StepOf(p, steps, n);
        assert BelongsTo(steps[k], id);
        assert Asks(steps, k);
        StepsAreScriptRuns(p, steps[..k]);
      }
    }
    if FreshOps(p, ops, id) {
      forall k: nat | k < |steps| && Asks(steps, k)
        ensures id !in Run(p, steps[..k]).s.held
      {
        OpsOfPrefix(p, steps, k);
        var n := |OpsOf(p, steps[..k])|;
        assert BelongsTo(steps[k], id);
        assert ops[..n] == OpsOf(p, steps[..k]);
        StepsAreScriptRuns(p, steps[..k]);
      }
    }
  }

  /** Sweeps take what the index gives them. */
  ghost predicate SweepsExpired(p: Plan, ops: seq<QuotaRuns.Op>) {
    forall n :: 0 <= n < |ops| && ops[n].Sweeping? ==>
                  IsExpiredRange(QuotaRuns.Run(p, ops[..n]).s.deadlines, ops[n].nowMs, ops[n].limit, ops[n].ids)
  }

  ghost predicate LegalAt(p: Plan, ops: seq<QuotaRuns.Op>, n: nat)
    requires n < |ops|
  {
    QuotaRuns.Legal(QuotaRuns.Run(p, ops[..n]).s, ops[n])
  }

  lemma LegalAtPrefix(p: Plan, ops: seq<QuotaRuns.Op>, m: nat, n: nat)
    requires n < m <= |ops|
    ensures LegalAt(p, ops[..m], n) <==> LegalAt(p, ops, n)
  {
    assert ops[..m][..n] == ops[..n];
  }

  lemma {:induction false} LegalRunIff(p: Plan, ops: seq<QuotaRuns.Op>)
    ensures QuotaRuns.LegalRun(p, ops) <==> forall n: nat :: n < |ops| ==> LegalAt(p, ops, n)
  {
    if ops == [] {
    } else {
      var last := |ops| - 1;
      LegalRunIff(p, ops[..last]);
      forall n: nat | n < last
        ensures LegalAt(p, ops[..last], n) <==> LegalAt(p, ops, n)
      {
        LegalAtPrefix(p, ops, last, n);
      }
      assert QuotaRuns.LegalRun(p, ops) <==> QuotaRuns.LegalRun(p, ops[..last]) && LegalAt(p, ops, last);
    }
  }

  /** The same script runs, seen by each request in turn: its own calls, and all the rest elsewhere. */
  ghost predicate SeenBy(p: Plan, ops: seq<QuotaRuns.Op>, requests: Id -> seq<Step>) {
    forall id :: OfRequest(requests(id), id) && OpsOf(p, requests(id)) == ops
  }

  /**
   * A tenant's run, costs and sweeps being what they are, meets the condition of the quota theorems exactly if
   * every request reserves its own id only while that is free.
   */
  lemma AllFreshIsLegal(p: Plan, ops: seq<QuotaRuns.Op>, requests: Id -> seq<Step>)
    requires SeenBy(p, ops, requests) && QuotaRuns.CostedRun(ops) && SweepsExpired(p, ops)
    ensures QuotaRuns.LegalRun(p, ops) <==> forall id :: FreshBefore(p, requests(id), id, |requests(id)|)
  {
    LegalRunIff(p, ops);
    forall id
      ensures FreshBefore(p, requests(id), id, |requests(id)|) <==> FreshOps(p, ops, id)
    {
      assert OfRequest(requests(id), id) && OpsOf(p, requests(id)) == ops;
      FreshStepsAreFreshOps(p, requests(id), id);
    }
    if forall id :: FreshOps(p, ops, id) {
      forall n: nat | n < |ops|
        ensures LegalAt(p, ops, n)
      {
        assert ops[n] in ops;
        assert ops[n].Reserving? ==> FreshOps(p, ops, ops[n].r.id);
      }
    }
    if forall n: nat :: n < |ops| ==> LegalAt(p, ops, n) {
      forall id, n | 0 <= n < |ops| && ops[n].Reserving? && ops[n].r.id == id
        ensures id !in QuotaRuns.Run(p, ops[..n]).s.held
      {
        assert LegalAt(p, ops, n);
      }
      assert forall id :: FreshOps(p, ops, id);
    }
  }

  /** With a reliable Redis and calls in turn, as both retry loops make them, every such run is legal. */
  lemma ReliableRunsAreLegal(p: Plan, ops: seq<QuotaRuns.Op>, requests: Id -> seq<Step>)
    requires SeenBy(p, ops, requests) && QuotaRuns.CostedRun(ops) && SweepsExpired(p, ops)
    requires forall id :: Reliable(requests(id)) && InTurn(Run(p, requests(id)).log)
    ensures QuotaRuns.LegalRun(p, ops)
  {
    forall id
      ensures FreshBefore(p, requests(id), id, |requests(id)|)
    {
      assert OfRequest(requests(id), id) && OpsOf(p, requests(id)) == ops;
      assert Reliable(requests(id)) && InTurn(Run(p, requests(id)).log);
      ReliableRequest(p, requests(id), id, Run(p, requests(id)).log);
    }
    AllFreshIsLegal(p, ops, requests);
  }
}
