/** What a streaming request is billed in the ledger and what its tenant's quota is charged. */
module StreamBilling {
  import opened Common
  import opened Routing
  import opened Attempts
  import opened Stream
  import opened StreamSafety
  import opened StreamReach
  import opened Settlement
  import QuotaService

  /** Some upstream that is opened reports usage. */
  ghost predicate Reports(o: Options, script: seq<Attempt>, exclude: set<Key>, level: nat) {
    exists k: nat :: Opened(o, script, exclude, level, k) && Reported(script[k]).Some?
  }

  /** A stale answer is at hand, and no opened upstream completes or interrupts the run. */
  ghost predicate Replays(o: Options, script: seq<Attempt>, exclude: set<Key>, level: nat) {
    o.stale.Some? && !EndsBy(o, script, exclude, level, true) && !EndsBy(o, script, exclude, level, false)
  }

  /** The request comes with a reservation, or its first attempt finds a deployment and its quota. */
  predicate Seated(o: Options, script: seq<Attempt>, exclude: set<Key>, level: nat) {
    o.first.Some? || (script != [] && SearchAt(o, script, exclude, level, 1).Some?)
  }

  lemma HeldIffSeated(o: Options, script: seq<Attempt>, exclude: set<Key>, level: nat)
    ensures Handle(o, script, exclude, level).loop.held <==> Seated(o, script, exclude, level)
  {
    var s := Begin(o, exclude, level);
    if o.first.Some? {
      FirstStaysHeld(o, script, 0, s);
    } else if script != [] {
      var step := Iterate(o, script[0], 0, 0 == |script| - 1, s);
      assert SearchAt(o, script, exclude, level, 0) == Some(SearchOf(s));
      if step.GoOn? {
        FirstStaysHeld(o, script, 1, step.loop);
      }
    }
  }

  lemma UsageIffReports(o: Options, script: seq<Attempt>, exclude: set<Key>, level: nat)
    requires FirstIsTried(o, exclude, level)
    ensures Handle(o, script, exclude, level).loop.acc.usage.Some? <==> Reports(o, script, exclude, level)
  {
    var f := Handle(o, script, exclude, level);
    HandleInv(o, script, exclude, level);
    HandleForetold(o, script, exclude, level);
    if k: nat :| Opened(o, script, exclude, level, k) && Reported(script[k]).Some? {
      assert k in f.loop.started;
    }
  }

  /** The ledger's row is what the quota settles; without a row, nothing is settled. */
  predicate Agree(billed: Option<QuotaService.Usage>, calls: seq<QuotaCall>) {
    if billed.Some? then calls != [] && calls[|calls| - 1].Settle? && calls[|calls| - 1].usage == billed
    else calls == [] || !calls[|calls| - 1].Settle?
  }

  /**
   * Ledger and quota agree exactly unless some upstream reports usage and the request ends with a stale answer,
   * when the usage is billed although the reservation is refunded in full; or no upstream reports any and a
   * reservation is settled all the same, when assumed usage is charged that is billed nowhere.
   */
  lemma BillingAgreesIff(o: Options, script: seq<Attempt>, exclude: set<Key>, level: nat)
    requires FirstIsTried(o, exclude, level)
    ensures var f := Handle(o, script, exclude, level);
            var reports, replays := Reports(o, script, exclude, level), Replays(o, script, exclude, level);
            Agree(f.loop.acc.usage, AfterRelease([], o, f))
            <==> !(reports && replays) && !(Seated(o, script, exclude, level) && !reports && !replays)
  {
    var f := Handle(o, script, exclude, level);
    HandleForetold(o, script, exclude, level);
    HeldIffSeated(o, script, exclude, level);
    UsageIffReports(o, script, exclude, level);
    StaleIsReplayed(o, script, 0, Begin(o, exclude, level));
    ReportsAreSeated(o, script, exclude, level);
  }

  /** Only a request with a reservation opens anything. */
  lemma ReportsAreSeated(o: Options, script: seq<Attempt>, exclude: set<Key>, level: nat)
    ensures Reports(o, script, exclude, level) ==> Seated(o, script, exclude, level)
  {
    if k: nat :| Opened(o, script, exclude, level, k) && Reported(script[k]).Some? {
      if SearchAt(o, script, exclude, level, 1).None? {
        SearchStays(o, script, exclude, level, 1, k + 1);
      }
    }
  }

  /** An upstream reports usage and fails, and a stale answer is replayed: billed, and refunded in full. */
  lemma BilledAndRefunded(d: Deployment, u: QuotaService.Usage)
    ensures var o := Options([Level([d], false)], false, Some(Pick(0, d)), Some(0));
            var script := [Attempt([], None, true, [Delta(false, Some(u))], Fails(RetryableUpstream))];
            var f := Handle(o, script, {d.Key()}, 0);
            f.loop.acc.usage == Some(u) && AfterRelease([], o, f) == [Refund]
  {
    var o := Options([Level([d], false)], false, Some(Pick(0, d)), Some(0));
    var a := Attempt([], None, true, [Delta(false, Some(u))], Fails(RetryableUpstream));
    OneDelta(a.deltas[0], 0, false, Accounting(None, 0));
    var s := Begin(o, {d.Key()}, 0);
    var step := Iterate(o, a, 0, true, s);
    assert step == Break(step.loop) && step.loop.acc == Accounting(Some(u), 0);
    assert Handle(o, [a], {d.Key()}, 0) == Finish(o, step.loop);
  }

  /** Followers get the stream's answer exactly if some opened upstream finishes and some reports usage. */
  lemma FollowersAreAnsweredIff(o: Options, script: seq<Attempt>, exclude: set<Key>, level: nat)
    requires FirstIsTried(o, exclude, level)
    ensures Shared(Handle(o, script, exclude, level))
            <==> EndsBy(o, script, exclude, level, true) && Reports(o, script, exclude, level)
  {
    HandleForetold(o, script, exclude, level);
    UsageIffReports(o, script, exclude, level);
  }
}
