/** Which reservations the sweeper takes, by the deadlines they were made with. */
module QuotaDeadlines {
  import opened Common
  import opened Reservations
  import opened QuotaScripts
  import opened QuotaRuns
  import opened QuotaTheorems

  /** The deadline given with the latest admitted reserve of an id. */
  function DeadlineGiven(p: Plan, ops: seq<Op>, id: Id): Option<int> {
    if ops == [] then None
    else
      var init, op := ops[..|ops| - 1], ops[|ops| - 1];
      if op.Reserving? && op.r.id == id && Decide(Run(p, init).s, p, op.r).Admitted? then Some(op.r.deadlineMs)
      else DeadlineGiven(p, init, id)
  }

  lemma {:induction false} SweepKeepsDeadlines(w: World, ids: seq<Id>)
    ensures forall id :: id in AfterSweep(w, ids).s.deadlines ==>
                           id in w.s.deadlines && AfterSweep(w, ids).s.deadlines[id] == w.s.deadlines[id]
  {
    if ids == [] {
    } else {
      SweepKeepsDeadlines(w, ids[..|ids| - 1]);
    }
  }

  /** In every run the index holds for each id the deadline that its latest admission was given. */
  lemma {:induction false} IndexHoldsDeadlines(p: Plan, ops: seq<Op>, id: Id)
    ensures id in Run(p, ops).s.deadlines ==> DeadlineGiven(p, ops, id) == Some(Run(p, ops).s.deadlines[id])
  {
    if ops == [] {
    } else {
      var init, op := ops[..|ops| - 1], ops[|ops| - 1];
      IndexHoldsDeadlines(p, init, id);
      if op.Sweeping? {
        SweepKeepsDeadlines(Run(p, init), op.ids);
      }
    }
  }

  /** Reservations whose deadline has come. */
  function Due(p: Plan, ops: seq<Op>, nowMs: int): set<Id> {
    set id | id in Run(p, ops).s.held && DeadlineGiven(p, ops, id).Some? && DeadlineGiven(p, ops, id).value <= nowMs
  }

  lemma DueIsExpired(p: Plan, ops: seq<Op>, nowMs: int)
    requires Sensible(p)
    ensures Due(p, ops, nowMs) == Expired(Run(p, ops).s.deadlines, nowMs)
  {
    RunKeepsBalanced(p, ops);
    forall id
      ensures id in Due(p, ops, nowMs) <==> id in Expired(Run(p, ops).s.deadlines, nowMs)
    {
      IndexHoldsDeadlines(p, ops, id);
      assert id in Run(p, ops).s.deadlines <==> id in Run(p, ops).s.held;
    }
  }

  /**
   * After any run, sweeps at one instant take a reservation only if its deadline has come, and once they have the
   * capacity for all that are due they leave exactly those that are not.
   */
  lemma DueAreSwept(p: Plan, ops: seq<Op>, nowMs: int, limit: nat, rounds: seq<seq<Id>>, id: Id)
    requires Sensible(p) && LegalRounds(Run(p, ops).s, nowMs, limit, rounds) && id in Run(p, ops).s.held
    ensures DeadlineGiven(p, ops, id).Some?
    ensures nowMs < DeadlineGiven(p, ops, id).value ==> id in SweepRounds(Run(p, ops).s, rounds).held
    ensures |Due(p, ops, nowMs)| <= Capacity(|rounds|, limit) ==>
              (id in SweepRounds(Run(p, ops).s, rounds).held <==> nowMs < DeadlineGiven(p, ops, id).value)
  {
    var s := Run(p, ops).s;
    RunKeepsBalanced(p, ops);
    assert id in s.deadlines;
    IndexHoldsDeadlines(p, ops, id);
    DueIsExpired(p, ops, nowMs);
    SweepsTakeExpired(s, nowMs, limit, rounds);
    SweepsClear(s, nowMs, limit, rounds);
  }

  /** A sweep takes the earliest deadlines first: what it leaves of the expired is due no earlier than what it takes. */
  lemma OldestAreSweptFirst(s: Tenant, nowMs: int, limit: int, ids: seq<Id>, taken: Id, left: Id)
    requires IsExpiredRange(s.deadlines, nowMs, limit, ids)
    requires taken in ids && left in s.deadlines && left in SweepAll(s, ids).deadlines && s.deadlines[left] <= nowMs
    ensures s.deadlines[taken] <= s.deadlines[left]
  {
    SweepEmpties(s, ids);
    var i :| 0 <= i < |ids| && ids[i] == taken;
  }

  /** A refund is cut only by a cap that is set and positive, and only by what exceeds it. */
  lemma RefundIsCutIff(b: BucketHash, refund: real)
    requires b.tokens.Some?
    ensures var full := b.tokens.value + refund;
            && Refunded(b, refund) == b.(tokens := Refunded(b, refund).tokens)
            && (Refunded(b, refund).tokens == Some(full) <==> !(b.cap.Some? && 0.0 < b.cap.value < full))
            && (b.cap.Some? && 0.0 < b.cap.value < full ==> Refunded(b, refund).tokens == b.cap)
  {
  }
}
