/**
 * One request's quota calls, with the replies Redis gave or lost, among everything else that happens to its
 * tenant: when does the request reserve an id that is still outstanding, and what does it leave behind?
 */
module RequestRuns {
  import opened Common
  import opened Settlement
  import opened QuotaScripts
  import opened Reservations
  import QuotaRuns
  import QuotaDecisions
  import QuotaTheorems
  import S = QuotaService

  /**
   * allowed: what the fail mode and the local limiter say when Redis does not answer. Of a settle's two
   * script runs only the first that happens can have an effect, so that it counts as one step.
   */
  datatype Call =
    | Asking(request: Request, estimate: S.Estimate, reply: S.Reply, allowed: bool)
    | Releasing(call: QuotaCall, prices: S.Prices, first: S.Reply, second: S.Reply)

  datatype Step = Elsewhere(op: QuotaRuns.Op) | Own(call: Call)

  /** The tenant's keys, the request's reservation, and the calls as the request sees them. */
  datatype State = State(s: Tenant, held: Option<S.Reservation>, log: seq<QuotaCall>)

  predicate Granted(p: Plan, s: Tenant, c: Call)
    requires c.Asking?
  {
    if c.reply.Answered? then Decide(s, p, c.request).Admitted? else c.allowed
  }

  /** What a release charges. */
  function UsageOf(c: QuotaCall, e: S.Estimate): S.Usage {
    match c
    case Settle(usage, forwarded) => usage.GetOr(S.FallbackUsage(e, forwarded))
    case _ => S.Usage(0, 0, 0)
  }

  function After(p: Plan, st: State, step: Step): State {
    match step
    case Elsewhere(op) => st.(s := QuotaDecisions.Exec(p, st.s, op).0)
    case Own(Asking(r, e, reply, allowed)) =>
      State(if S.Ran(reply) then QuotaScripts.Reserve(st.s, p, r) else st.s,
            if Granted(p, st.s, step.call) then Some(S.Reservation(r.id, e, r.month, reply.Answered?)) else None,
            st.log + [QuotaCall.Reserve(Granted(p, st.s, step.call))])
    case Own(Releasing(c, prices, first, second)) =>
      State(if Effective(st, step.call) then
              var usage := UsageOf(c, st.held.value.estimate);
              QuotaScripts.Settle(st.s, st.held.value.id, usage.total, S.ActualBudget(usage, prices))
            else st.s,
            None, st.log + [c])
  }

  /** A release moves the keys iff Redis knows the reservation and one of the script calls ran. */
  predicate Effective(st: State, c: Call)
    requires c.Releasing?
  {
    st.held.Some? && st.held.value.redisReserved && S.Landed(c.first, c.second)
  }

  function Run(p: Plan, steps: seq<Step>): State {
    if steps == [] then State(EMPTY, None, []) else After(p, Run(p, steps[..|steps| - 1]), steps[|steps| - 1])
  }

  predicate Owned(op: QuotaRuns.Op, id: Id) {
    match op
    case Reserving(r) => r.id == id
    case Settling(other, _, _) => other == id
    case Sweeping(_, _, _) => false
  }

  /** Scripts under the request's id run through its own calls only; sweeps take what they find. */
  predicate OfRequest(steps: seq<Step>, id: Id) {
    forall i :: 0 <= i < |steps| ==> BelongsTo(steps[i], id)
  }

  predicate BelongsTo(step: Step, id: Id) {
    match step
    case Elsewhere(op) => !Owned(op, id)
    case Own(Asking(r, _, _, _)) => r.id == id
    case Own(Releasing(c, _, _, _)) => !c.Reserve?
  }

  // ---------------------------------------------------------------------------------------------
  // When the id is outstanding
  // ---------------------------------------------------------------------------------------------

  /** Step k runs the reserve script, whether or not its answer arrives. */
  predicate Asks(steps: seq<Step>, k: nat) {
    k < |steps| && steps[k].Own? && steps[k].call.Asking? && S.Ran(steps[k].call.reply)
  }

  /** Step i puts the id in the table. */
  predicate Takes(p: Plan, steps: seq<Step>, i: nat) {
    Asks(steps, i) && Decide(Run(p, steps[..i]).s, p, steps[i].call.request).Admitted?
  }

  predicate Sweeps(steps: seq<Step>, id: Id, m: nat) {
    m < |steps| && steps[m].Elsewhere? && steps[m].op.Sweeping? && id in steps[m].op.ids
  }

  /** Step m removes the id if it is there. */
  predicate Removes(p: Plan, steps: seq<Step>, id: Id, m: nat) {
    || Sweeps(steps, id, m)
    || (m < |steps| && steps[m].Own? && steps[m].call.Releasing? && Effective(Run(p, steps[..m]), steps[m].call))
  }

  lemma PrefixAgrees(p: Plan, steps: seq<Step>, n: nat, id: Id, i: nat)
    requires i < n <= |steps|
    ensures Asks(steps[..n], i) == Asks(steps, i)
    ensures Takes(p, steps[..n], i) == Takes(p, steps, i)
    ensures Removes(p, steps[..n], id, i) == Removes(p, steps, id, i)
  {
    assert steps[..n][..i] == steps[..i];
  }

  lemma {:induction false} HeldIsOwn(p: Plan, steps: seq<Step>, id: Id)
    requires OfRequest(steps, id)
    ensures Run(p, steps).held.Some? ==> Run(p, steps).held.value.id == id
  {
    if steps == [] {
    } else {
      HeldIsOwn(p, steps[..|steps| - 1], id);
      assert BelongsTo(steps[|steps| - 1], id);
    }
  }

  /** What one step does to the id's place in the table. */
  lemma OneStep(p: Plan, steps: seq<Step>, id: Id)
    requires steps != [] && OfRequest(steps, id)
    ensures var n := |steps| - 1;
            id in Run(p, steps).s.held
            <==> Takes(p, steps, n) || (id in Run(p, steps[..n]).s.held && !Removes(p, steps, id, n))
  {
    var n := |steps| - 1;
    var st := Run(p, steps[..n]);
    assert BelongsTo(steps[n], id);
    HeldIsOwn(p, steps[..n], id);
    match steps[n] {
      case Elsewhere(Sweeping(_, _, ids)) => QuotaTheorems.SweepEmpties(st.s, ids);
      case Elsewhere(_) =>
      case Own(_) =>
    }
  }

  ghost predicate Standing(p: Plan, steps: seq<Step>, id: Id, i: nat, n: nat) {
    i < n && Takes(p, steps, i) && forall m :: i < m < n ==> !Removes(p, steps, id, m)
  }

  /** The id is outstanding iff some reserve took it and nothing has removed it since. */
  lemma {:induction false} HeldIff(p: Plan, steps: seq<Step>, id: Id, n: nat)
    requires n <= |steps| && OfRequest(steps, id)
    ensures id in Run(p, steps[..n]).s.held <==> exists i: nat :: Standing(p, steps, id, i, n)
  {
    if n == 0 {
    } else {
      HeldIff(p, steps, id, n - 1);
      assert steps[..n][..n - 1] == steps[..n - 1];
      OneStep(p, steps[..n], id);
      PrefixAgrees(p, steps, n, id, n - 1);
      forall i: nat
        ensures Standing(p, steps, id, i, n)
                <==> (i == n - 1 && Takes(p, steps, i))
                     || (Standing(p, steps, id, i, n - 1) && !Removes(p, steps, id, n - 1))
      {
        StandingStep(p, steps, id, i, n);
      }
      assert Takes(p, steps, n - 1) ==> Standing(p, steps, id, n - 1, n);
    }
  }

  lemma StandingStep(p: Plan, steps: seq<Step>, id: Id, i: nat, n: nat)
    requires 0 < n <= |steps|
    ensures Standing(p, steps, id, i, n)
            <==> (i == n - 1 && Takes(p, steps, i))
                 || (Standing(p, steps, id, i, n - 1) && !Removes(p, steps, id, n - 1))
  {
  }

  // ---------------------------------------------------------------------------------------------
  // Releases and the reserves they belong to
  // ---------------------------------------------------------------------------------------------

  predicate NoneBetween(steps: seq<Step>, i: nat, m: nat) {
    forall j :: i < j < m && j < |steps| ==> !steps[j].Own?
  }

  /** The release that follows reserve i reaches Redis at step m, and Redis had answered the reserve. */
  predicate ReleasedAt(steps: seq<Step>, i: nat, m: nat) {
    && i < m < |steps| && steps[i].Own? && steps[i].call.Asking? && steps[i].call.reply.Answered?
    && NoneBetween(steps, i, m)
    && steps[m].Own? && steps[m].call.Releasing? && S.Landed(steps[m].call.first, steps[m].call.second)
  }

  /** Between reserve i and step k its settle reached Redis, or a sweep took it. */
  ghost predicate Recovered(steps: seq<Step>, id: Id, i: nat, k: nat) {
    exists m: nat :: i < m < k && (Sweeps(steps, id, m) || ReleasedAt(steps, i, m))
  }

  /** An answered reserve that took the id stays the request's reservation until its next call. */
  lemma {:induction false} HoldsUntil(p: Plan, steps: seq<Step>, i: nat, m: nat)
    requires i < m <= |steps| && Takes(p, steps, i) && steps[i].call.reply.Answered? && NoneBetween(steps, i, m)
    ensures Run(p, steps[..m]).held.Some? && Run(p, steps[..m]).held.value.redisReserved
  {
    assert steps[..m][..m - 1] == steps[..m - 1];
    if m == i + 1 {
    } else {
      HoldsUntil(p, steps, i, m - 1);
    }
  }

  /** A reservation that Redis knows was taken by the request's last call, and that was answered. */
  lemma {:induction false} HeldSince(p: Plan, steps: seq<Step>, m: nat) returns (i: nat)
    requires m <= |steps|
    requires Run(p, steps[..m]).held.Some? && Run(p, steps[..m]).held.value.redisReserved
    ensures i < m && Takes(p, steps, i) && steps[i].call.reply.Answered? && NoneBetween(steps, i, m)
  {
    assert steps[..m][..m - 1] == steps[..m - 1];
    if steps[m - 1].Own? {
      i := m - 1;
    } else {
      i := HeldSince(p, steps, m - 1);
    }
  }

  /** Every run of the reserve script before step k found the id free. */
  ghost predicate FreshBefore(p: Plan, steps: seq<Step>, id: Id, k: nat) {
    forall n: nat :: n < k && Asks(steps, n) ==> id !in Run(p, steps[..n]).s.held
  }

  lemma {:induction false} FreshAt(p: Plan, steps: seq<Step>, id: Id, k: nat)
    requires k <= |steps| && OfRequest(steps, id) && FreshBefore(p, steps, id, k)
    ensures id !in Run(p, steps[..k]).s.held
            <==> forall i: nat :: i < k && Takes(p, steps, i) ==> Recovered(steps, id, i, k)
    decreases k, 1
  {
    HeldIff(p, steps, id, k);
    if i: nat :| Standing(p, steps, id, i, k) {
      if Recovered(steps, id, i, k) {
        var m: nat :| i < m < k && (Sweeps(steps, id, m) || ReleasedAt(steps, i, m));
        if ReleasedAt(steps, i, m) {
          HoldsUntil(p, steps, i, m);
        }
        assert Removes(p, steps, id, m);
      }
    } else {
      forall i: nat | i < k && Takes(p, steps, i)
        ensures Recovered(steps, id, i, k)
      {
        assert !Standing(p, steps, id, i, k);
        var m :| i < m < k && Removes(p, steps, id, m);
        RemovalRecovers(p, steps, id, i, m, k);
      }
    }
  }

  /** While reserves are fresh, what removes the id makes good the reserve that took it. */
  lemma RemovalRecovers(p: Plan, steps: seq<Step>, id: Id, i: nat, m: nat, k: nat)
    requires i < m < k <= |steps| && OfRequest(steps, id) && FreshBefore(p, steps, id, k)
    requires Takes(p, steps, i) && Removes(p, steps, id, m)
    ensures Recovered(steps, id, i, k)
    decreases k, 0
  {
    if !Sweeps(steps, id, m) {
      var j := HeldSince(p, steps, m);
      assert !(j < i);
      assert ReleasedAt(steps, j, m);
      if i < j {
        FreshAt(p, steps, id, j);
        var r: nat :| i < r < j && (Sweeps(steps, id, r) || ReleasedAt(steps, i, r));
      }
    }
  }

  /**
   * A request never reserves an id that is outstanding exactly if, before each run of the reserve script,
   * every earlier reserve that took the id has been made good: it was answered and its settle reached
   * Redis, or a sweep took it. A lost settle is made good by a sweep only, and so is a reserve that ran
   * although its answer was lost.
   */
  lemma {:induction false} FreshIff(p: Plan, steps: seq<Step>, id: Id)
    requires OfRequest(steps, id)
    ensures FreshBefore(p, steps, id, |steps|)
            <==> forall i: nat, k: nat :: i < k && Takes(p, steps, i) && Asks(steps, k) ==> Recovered(steps, id, i, k)
  {
    if FreshBefore(p, steps, id, |steps|) {
      forall i: nat, k: nat | i < k && Takes(p, steps, i) && Asks(steps, k)
        ensures Recovered(steps, id, i, k)
      {
        FreshAt(p, steps, id, k);
      }
    }
    if forall i: nat, k: nat :: i < k && Takes(p, steps, i) && Asks(steps, k) ==> Recovered(steps, id, i, k) {
      FreshFrom(p, steps, id, |steps|);
    }
  }

  lemma {:induction false} FreshFrom(p: Plan, steps: seq<Step>, id: Id, n: nat)
    requires n <= |steps| && OfRequest(steps, id)
    requires forall i: nat, k: nat :: i < k && Takes(p, steps, i) && Asks(steps, k) ==> Recovered(steps, id, i, k)
    ensures FreshBefore(p, steps, id, n)
  {
    if n == 0 {
    } else {
      FreshFrom(p, steps, id, n - 1);
      if Asks(steps, n - 1) {
        FreshAt(p, steps, id, n - 1);
      }
    }
  }

  /** Besides, nothing is left in the table at the end iff every reserve that took the id has been made good. */
  lemma {:induction false} NothingLeftIff(p: Plan, steps: seq<Step>, id: Id)
    requires OfRequest(steps, id) && FreshBefore(p, steps, id, |steps|)
    ensures id !in Run(p, steps).s.held
            <==> forall i: nat :: Takes(p, steps, i) ==> Recovered(steps, id, i, |steps|)
  {
    assert steps[..|steps|] == steps;
    FreshAt(p, steps, id, |steps|);
  }
}
