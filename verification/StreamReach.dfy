/** Which upstreams a streaming run opens, told from its inputs alone, and what follows from that. */
module StreamReach {
  import opened Common
  import opened Routing
  import opened Attempts
  import opened Stream
  import opened StreamSafety
  import Settlement
  import QuotaService

  /** All that picking depends on. */
  datatype Search = Search(held: bool, attempted: set<Key>, level: nat)

  function SearchOf(s: Loop): Search {
    Search(s.held, s.attempted, s.level)
  }

  /** How attempt i moves the search on; nothing if no deployment is offered or the quota refuses. */
  function Sought(o: Options, a: Attempt, i: nat, h: Search): Option<Search> {
    if i == 0 && o.first.Some? then Some(h)
    else
      match PickFrom(o.levels, a.offers, h.attempted, h.level)
      case None => None
      case Some(pick) =>
        if !h.held && a.refusal.Some? then None
        else Some(Search(true, h.attempted + {pick.deployment.Key()}, pick.level))
  }

  /** The search after the first k attempts' picks. */
  function SearchAt(o: Options, script: seq<Attempt>, exclude: set<Key>, level: nat, k: nat): Option<Search>
    requires k <= |script|
  {
    if k == 0 then Some(Search(o.first.Some?, exclude, level))
    else
      match SearchAt(o, script, exclude, level, k - 1)
      case None => None
      case Some(h) => Sought(o, script[k - 1], k - 1, h)
  }

  /** After such an attempt another may follow: it never started, or failed retryably without showing data. */
  predicate Passes(o: Options, script: seq<Attempt>, k: nat)
    requires k < |script|
  {
    var a := script[k];
    !a.starts || (a.ending.Fails? && a.ending.category in TRANSIENT && !HasData(ShownBy(o, script, k)))
  }

  /** Attempt k is reached, finds its deployment and its quota, and starts. */
  ghost predicate Opened(o: Options, script: seq<Attempt>, exclude: set<Key>, level: nat, k: nat) {
    && k < |script| && script[k].starts
    && SearchAt(o, script, exclude, level, k + 1).Some?
    && forall j :: 0 <= j < k ==> Passes(o, script, j)
  }

  lemma {:induction false} SearchStays(o: Options, script: seq<Attempt>, exclude: set<Key>, level: nat, i: nat, k: nat)
    requires i <= k <= |script| && SearchAt(o, script, exclude, level, i).None?
    ensures SearchAt(o, script, exclude, level, k).None?
  {
    if i == k {
    } else {
      SearchStays(o, script, exclude, level, i, k - 1);
    }
  }

  ghost predicate StartedOf(o: Options, script: seq<Attempt>, exclude: set<Key>, level: nat, n: nat, s: Loop) {
    && (forall j: nat :: j in s.started <==> j < n && Opened(o, script, exclude, level, j))
    && (if s.upstream.None? then s.started == {}
        else s.upstream.value in s.started && forall j :: j in s.started ==> j <= s.upstream.value)
  }

  /** s is the loop's state at its i-th iteration, as the inputs tell. */
  ghost predicate Tracks(o: Options, script: seq<Attempt>, exclude: set<Key>, level: nat, i: nat, s: Loop) {
    && i <= |script|
    && SearchAt(o, script, exclude, level, i) == Some(SearchOf(s))
    && (forall j :: 0 <= j < i ==> Passes(o, script, j))
    && StartedOf(o, script, exclude, level, i, s)
  }

  /** An opened attempt that ends the run in one of these ways. */
  ghost predicate EndsBy(o: Options, script: seq<Attempt>, exclude: set<Key>, level: nat, finishes: bool) {
    exists k: nat :: Opened(o, script, exclude, level, k) && !script[k].ending.Fails?
                && (script[k].ending.Finishes? <==> finishes)
  }

  ghost predicate Foretold(o: Options, script: seq<Attempt>, exclude: set<Key>, level: nat, f: Final) {
    && StartedOf(o, script, exclude, level, |script|, f.loop)
    && (f.result.Completed? <==> EndsBy(o, script, exclude, level, true))
    && (f.result.Interrupted? <==> EndsBy(o, script, exclude, level, false))
  }

  lemma ChosenTracks(o: Options, script: seq<Attempt>, exclude: set<Key>, level: nat, i: nat, s: Loop)
    requires i < |script| && Tracks(o, script, exclude, level, i, s)
    ensures var step := Chosen(o, script[i], i, s);
            && !step.End?
            && SearchAt(o, script, exclude, level, i + 1) == (if step.GoOn? then Some(SearchOf(step.loop)) else None)
            && step.loop.started == s.started && step.loop.upstream == s.upstream
  {
  }

  /** Nothing is opened after an attempt that finds no deployment, or lets nothing follow it. */
  lemma NoneLater(o: Options, script: seq<Attempt>, exclude: set<Key>, level: nat, i: nat, j: nat)
    requires i < |script| && i < j
    requires SearchAt(o, script, exclude, level, i + 1).None? || !Passes(o, script, i) || i == |script| - 1
    ensures !Opened(o, script, exclude, level, j)
  {
    if j < |script| && SearchAt(o, script, exclude, level, i + 1).None? {
      SearchStays(o, script, exclude, level, i + 1, j + 1);
    }
  }

  /** An iteration's effect on the record of started attempts is the one foretold. */
  lemma OneMore(o: Options, script: seq<Attempt>, exclude: set<Key>, level: nat, i: nat, s: Loop, after: Loop)
    requires i < |script| && Tracks(o, script, exclude, level, i, s)
    requires if Opened(o, script, exclude, level, i) then after.started == s.started + {i} && after.upstream == Some(i)
             else after.started == s.started && after.upstream == s.upstream
    ensures StartedOf(o, script, exclude, level, i + 1, after)
  {
  }

  /** Where nothing is opened after attempt i, the record after i is the whole record. */
  lemma AllOpened(o: Options, script: seq<Attempt>, exclude: set<Key>, level: nat, i: nat, after: Loop)
    requires i < |script| && StartedOf(o, script, exclude, level, i + 1, after)
    requires SearchAt(o, script, exclude, level, i + 1).None? || !Passes(o, script, i) || i == |script| - 1
    ensures StartedOf(o, script, exclude, level, |script|, after)
  {
    forall j: nat | i < j
      ensures !Opened(o, script, exclude, level, j)
    {
      NoneLater(o, script, exclude, level, i, j);
    }
  }

  /** Only an attempt that lets nothing follow can end a run. */
  lemma OnlyEnding(o: Options, script: seq<Attempt>, exclude: set<Key>, level: nat, i: nat, finishes: bool)
    requires i < |script| && forall j :: 0 <= j < i ==> Passes(o, script, j)
    requires SearchAt(o, script, exclude, level, i + 1).None? || !Passes(o, script, i) || i == |script| - 1
    ensures EndsBy(o, script, exclude, level, finishes) <==>
              Opened(o, script, exclude, level, i) && !script[i].ending.Fails? && (script[i].ending.Finishes? <==> finishes)
  {
    forall k: nat | Opened(o, script, exclude, level, k) && !script[k].ending.Fails?
      ensures k == i
    {
      assert k < i ==> Passes(o, script, k);
      if i < k {
        NoneLater(o, script, exclude, level, i, k);
      }
    }
  }

  /** How the run ends if it ends with this step. */
  function Outcome(o: Options, step: Step): Final {
    if step.End? then Final(step.loop, step.result) else Finish(o, step.loop)
  }

  lemma IterateForetold(o: Options, script: seq<Attempt>, exclude: set<Key>, level: nat, i: nat, s: Loop)
    requires i < |script| && Tracks(o, script, exclude, level, i, s)
    ensures var step := Iterate(o, script[i], i, i == |script| - 1, s);
            if step.GoOn? then Tracks(o, script, exclude, level, i + 1, step.loop)
            else Foretold(o, script, exclude, level, Outcome(o, step))
  {
    var step := Iterate(o, script[i], i, i == |script| - 1, s);
    ChosenTracks(o, script, exclude, level, i, s);
    OneMore(o, script, exclude, level, i, s, step.loop);
    if !step.GoOn? {
      AllOpened(o, script, exclude, level, i, step.loop);
      OnlyEnding(o, script, exclude, level, i, true);
      OnlyEnding(o, script, exclude, level, i, false);
    }
  }

  /** Where all attempts pass, none ends the run. */
  lemma NoEnding(o: Options, script: seq<Attempt>, exclude: set<Key>, level: nat, finishes: bool)
    requires forall j :: 0 <= j < |script| ==> Passes(o, script, j)
    ensures !EndsBy(o, script, exclude, level, finishes)
  {
    forall k: nat | Opened(o, script, exclude, level, k)
      ensures script[k].ending.Fails?
    {
      assert Passes(o, script, k);
    }
  }

  lemma {:induction false} ProceedForetold(o: Options, script: seq<Attempt>, exclude: set<Key>, level: nat, i: nat, s: Loop)
    requires Tracks(o, script, exclude, level, i, s)
    ensures Foretold(o, script, exclude, level, Proceed(o, script, i, s))
    decreases |script| - i
  {
    if i == |script| {
      NoEnding(o, script, exclude, level, true);
      NoEnding(o, script, exclude, level, false);
    } else {
      IterateForetold(o, script, exclude, level, i, s);
      var step := Iterate(o, script[i], i, i == |script| - 1, s);
      if step.GoOn? {
        ProceedForetold(o, script, exclude, level, i + 1, step.loop);
      }
    }
  }

  lemma HandleForetold(o: Options, script: seq<Attempt>, exclude: set<Key>, level: nat)
    ensures Foretold(o, script, exclude, level, Handle(o, script, exclude, level))
  {
    ProceedForetold(o, script, exclude, level, 0, Begin(o, exclude, level));
  }

  /** A run that is neither completed nor interrupted replays a stale answer if there is one. */
  lemma {:induction false} StaleIsReplayed(o: Options, script: seq<Attempt>, i: nat, s: Loop)
    ensures var f := Proceed(o, script, i, s);
            f.result.Replayed? <==> o.stale.Some? && !f.result.Completed? && !f.result.Interrupted?
    decreases |script| - i
  {
    if i >= |script| {
    } else {
      var step := Iterate(o, script[i], i, i == |script| - 1, s);
      if step.GoOn? {
        StaleIsReplayed(o, script, i + 1, step.loop);
      }
    }
  }

  /** An opened attempt that lets nothing follow is the last one opened. */
  lemma LastOpened(o: Options, script: seq<Attempt>, exclude: set<Key>, level: nat, k: nat, f: Final)
    requires Opened(o, script, exclude, level, k) && !Passes(o, script, k)
    requires Foretold(o, script, exclude, level, f)
    ensures f.loop.upstream == Some(k)
    ensures script[k].ending.Fails? ==> !f.result.Completed? && !f.result.Interrupted?
    ensures script[k].ending.Finishes? ==> f.result.Completed?
  {
    forall j: nat | k < j
      ensures !Opened(o, script, exclude, level, j)
    {
      NoneLater(o, script, exclude, level, k, j);
    }
    assert k in f.loop.started;
    assert forall j: nat :: Opened(o, script, exclude, level, j) && !Passes(o, script, j) ==> j == k;
  }

  /** Some upstream that is opened shows data and then fails. */
  ghost predicate FailsAfterData(o: Options, script: seq<Attempt>, exclude: set<Key>, level: nat) {
    exists k: nat :: Opened(o, script, exclude, level, k) && HasData(ShownBy(o, script, k)) && script[k].ending.Fails?
  }

  /**
   * The client sees content of two sources exactly when an opened upstream fails after data and a stale answer
   * is at hand.
   */
  lemma OneSourceIff(o: Options, script: seq<Attempt>, exclude: set<Key>, level: nat)
    requires FirstIsTried(o, exclude, level)
    ensures FromOneSource(Output(o, Handle(o, script, exclude, level)))
            <==> !(o.stale.Some? && FailsAfterData(o, script, exclude, level))
  {
    var f := Handle(o, script, exclude, level);
    HandleInv(o, script, exclude, level);
    HandleForetold(o, script, exclude, level);
    SourcesOfResult(o, script, exclude, level);
    BodyChunks(o, script, f);
    StaleIsReplayed(o, script, 0, Begin(o, exclude, level));
    if FailsAfterData(o, script, exclude, level) {
      var k: nat :| Opened(o, script, exclude, level, k) && HasData(ShownBy(o, script, k)) && script[k].ending.Fails?;
      LastOpened(o, script, exclude, level, k, f);
    }
  }

  /** If no upstream fails after data, there is one source, stale answer or not. */
  lemma OneSourceIfDataIsFinal(o: Options, script: seq<Attempt>, exclude: set<Key>, level: nat)
    requires FirstIsTried(o, exclude, level)
    requires forall k :: 0 <= k < |script| && script[k].starts && script[k].ending.Fails? ==>
                           !HasData(ShownBy(o, script, k))
    ensures FromOneSource(Output(o, Handle(o, script, exclude, level)))
  {
    OneSourceIff(o, script, exclude, level);
  }

  /** A run completes iff some opened upstream finishes, and then that is its last. */
  lemma CompletesIff(o: Options, script: seq<Attempt>, exclude: set<Key>, level: nat)
    ensures var f := Handle(o, script, exclude, level);
            f.result.Completed? <==> exists k: nat :: Opened(o, script, exclude, level, k) && script[k].ending.Finishes?
  {
    HandleForetold(o, script, exclude, level);
    var f := Handle(o, script, exclude, level);
    if k: nat :| Opened(o, script, exclude, level, k) && script[k].ending.Finishes? {
      LastOpened(o, script, exclude, level, k, f);
    }
  }

  lemma OpenedBefore(o: Options, script: seq<Attempt>, exclude: set<Key>, level: nat, k: nat, s: Loop)
    requires StartedOf(o, script, exclude, level, |script|, s) && s.upstream == Some(k)
    ensures forall j: nat :: j in s.started - {k} <==> j < k && Opened(o, script, exclude, level, j)
  {
  }

  /**
   * A stream that completes is charged what its own upstream reported, and followers get that usage,
   * exactly if that upstream reported any or none opened before it had.
   */
  lemma CompletedCharge(o: Options, script: seq<Attempt>, exclude: set<Key>, level: nat, k: nat)
    requires FirstIsTried(o, exclude, level)
    requires Opened(o, script, exclude, level, k) && script[k].ending.Finishes?
    ensures var f := Handle(o, script, exclude, level);
            && f.result.Completed?
            && (f.loop.acc.usage == Reported(script[k]) <==>
                Reported(script[k]).Some?
                || forall j: nat :: j < k && Opened(o, script, exclude, level, j) ==> Reported(script[j]).None?)
  {
    var f := Handle(o, script, exclude, level);
    HandleInv(o, script, exclude, level);
    HandleForetold(o, script, exclude, level);
    LastOpened(o, script, exclude, level, k, f);
    OpenedBefore(o, script, exclude, level, k, f.loop);
  }

  lemma OneDelta(d: Delta, attempt: nat, includeUsage: bool, acc: Accounting)
    ensures Shown([d], attempt, includeUsage) == Show(d, attempt, includeUsage)
    ensures Accounted(acc, [d]) == Noted(acc, d)
  {
    assert [d][..0] == [];
    assert Shown([d][..0], attempt, includeUsage) == [];
  }

  /**
   * An attempt reports its usage to a client that did not ask for it and fails; the next one finishes
   * without a report. The first one's report is settled and handed to the followers.
   */
  lemma EarlierReportIsCharged(first: Deployment, second: Deployment, u: QuotaService.Usage)
    requires first.Key() != second.Key()
    ensures var o := Options([Level([first, second], false)], false, Some(Pick(0, first)), None);
            var script := [Attempt([], None, true, [Delta(false, Some(u))], Fails(RetryableUpstream)),
                           Attempt([Some(second)], None, true, [Delta(true, None)], Finishes)];
            var f := Handle(o, script, {first.Key()}, 0);
            && Reported(script[1]) == None
            && f.result.Completed? && Shared(f)
            && AfterRelease([], o, f) == [Settlement.Settle(Some(u), 1)]
  {
    var o := Options([Level([first, second], false)], false, Some(Pick(0, first)), None);
    var a := Attempt([], None, true, [Delta(false, Some(u))], Fails(RetryableUpstream));
    var b := Attempt([Some(second)], None, true, [Delta(true, None)], Finishes);
    var script := [a, b];
    var s0 := Begin(o, {first.Key()}, 0);
    var none := Accounting(None, 0);
    OneDelta(a.deltas[0], 0, false, none);
    OneDelta(b.deltas[0], 1, false, Accounting(Some(u), 0));
    OneDelta(b.deltas[0], 1, false, none);
    var s1 := Iterate(o, a, 0, false, s0).loop;
    assert Iterate(o, a, 0, false, s0).GoOn?;
    assert s1.acc == Accounting(Some(u), 0) && s1.level == 0 && s1.held;
    var pick := Pick(0, second);
    assert Offer(o.levels, b.offers, s1.attempted, 0) == Some(second);
    assert PickFrom(o.levels, b.offers, s1.attempted, 0) == Some(pick);
    assert Iterate(o, b, 1, true, s1).End?;
    assert Handle(o, script, {first.Key()}, 0) == Proceed(o, script, 1, s1);
    assert AfterReserve([], o, Proceed(o, script, 1, s1).loop) == [];
  }
}
