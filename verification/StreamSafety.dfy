/** What every run of the streaming loop delivers and what it is charged for. */
module StreamSafety {
  import opened Common
  import opened Routing
  import opened Attempts
  import opened Settlement
  import QuotaService
  import opened Stream

  ghost predicate Quiet(chunks: seq<Chunk>) {
    forall c :: c in chunks ==> c.Comment?
  }

  /** The usage an attempt reported last. */
  function Reported(a: Attempt): Option<QuotaService.Usage> {
    Accounted(Accounting(None, 0), a.deltas).usage
  }

  lemma {:induction false} ReportedUsageWins(acc: Accounting, deltas: seq<Delta>)
    ensures var own := Accounted(Accounting(None, 0), deltas).usage;
            Accounted(acc, deltas).usage == if own.Some? then own else acc.usage
  {
    if deltas == [] {
    } else {
      ReportedUsageWins(acc, deltas[..|deltas| - 1]);
    }
  }

  lemma {:induction false} ShownChunks(deltas: seq<Delta>, attempt: nat, includeUsage: bool)
    ensures forall c :: c in Shown(deltas, attempt, includeUsage) ==> c == Comment || c == Data(attempt)
  {
    if deltas == [] {
    } else {
      ShownChunks(deltas[..|deltas| - 1], attempt, includeUsage);
    }
  }

  function ShownBy(o: Options, script: seq<Attempt>, k: nat): seq<Chunk>
    requires k < |script|
  {
    Shown(script[k].deltas, k, o.includeUsage)
  }

  /** The body is heartbeats followed by everything the last opened upstream had to show. */
  ghost predicate BodyOf(o: Options, script: seq<Attempt>, s: Loop) {
    if s.upstream.None? then s.body == []
    else
      var k := s.upstream.value;
      k < |script| &&
      var shown := ShownBy(o, script, k);
      && |shown| <= |s.body| && s.body[|s.body| - |shown|..] == shown
      && Quiet(s.body[..|s.body| - |shown|])
  }

  ghost predicate Tried(s: Loop) {
    && Disciplined(s.picks)
    && forall p :: p in s.picks ==> p.deployment.Key() in s.attempted && p.level <= s.level
  }

  /** Usage is known iff some opened upstream reported it. */
  ghost predicate UsageOf(script: seq<Attempt>, i: nat, started: set<nat>, acc: Accounting) {
    && (forall j :: j in started ==> j < i && j < |script|)
    && (acc.usage.None? <==> forall j :: j in started ==> Reported(script[j]).None?)
  }

  ghost predicate LoopInv(o: Options, script: seq<Attempt>, i: nat, s: Loop) {
    BodyOf(o, script, s) && Tried(s) && UsageOf(script, i, s.started, s.acc)
  }

  /** A completed run's usage: its last upstream's report, or else the latest earlier report. */
  ghost predicate ChargedUsage(script: seq<Attempt>, f: Final) {
    f.result.Completed? ==>
      && f.loop.upstream.Some? && f.loop.upstream.value < |script|
      && (forall j :: j in f.loop.started ==> j < |script|)
      && var k := f.loop.upstream.value;
         f.loop.acc.usage == Reported(script[k]) <==>
           Reported(script[k]).Some? || forall j :: j in f.loop.started - {k} ==> Reported(script[j]).None?
  }

  ghost predicate FinalInv(o: Options, script: seq<Attempt>, f: Final) {
    && BodyOf(o, script, f.loop) && Tried(f.loop) && ChargedUsage(script, f)
    && UsageOf(script, |script|, f.loop.started, f.loop.acc)
  }

  lemma ChosenIsTried(o: Options, a: Attempt, i: nat, s: Loop)
    requires Tried(s)
    ensures Tried(Chosen(o, a, i, s).loop)
  {
    var c := Chosen(o, a, i, s).loop;
    if c.picks != s.picks {
      assert c.picks == s.picks + [c.picks[|s.picks|]];
      assert forall p :: p in c.picks <==> p in s.picks || p == c.picks[|s.picks|];
    }
  }

  /** Picking, and noting an error, touch neither what was received nor what was started. */
  lemma {:induction false} PickingKeepsInv(o: Options, script: seq<Attempt>, i: nat, s: Loop, t: Loop)
    requires LoopInv(o, script, i, s) && Tried(t)
    requires t.body == s.body && t.acc == s.acc && t.started == s.started && t.upstream == s.upstream
    ensures LoopInv(o, script, i, t)
  {
  }

  lemma ChosenKeepsInv(o: Options, script: seq<Attempt>, i: nat, s: Loop)
    requires i < |script| && LoopInv(o, script, i, s)
    ensures LoopInv(o, script, i, Chosen(o, script[i], i, s).loop)
    ensures Chosen(o, script[i], i, s).loop.body == s.body
    ensures !Chosen(o, script[i], i, s).End?
  {
    ChosenIsTried(o, script[i], i, s);
    PickingKeepsInv(o, script, i, s, Chosen(o, script[i], i, s).loop);
  }

  lemma ReceivedBody(o: Options, script: seq<Attempt>, i: nat, s: Loop)
    requires i < |script| && Quiet(s.body)
    ensures BodyOf(o, script, Received(o, script[i], i, s))
  {
    var r, shown := Received(o, script[i], i, s), ShownBy(o, script, i);
    assert r.body[|s.body|..] == shown && r.body[..|s.body|] == s.body;
  }

  lemma ReceivedStaysQuiet(o: Options, script: seq<Attempt>, i: nat, s: Loop)
    requires i < |script| && Quiet(s.body) && !HasData(ShownBy(o, script, i))
    ensures Quiet(Received(o, script[i], i, s).body)
  {
    ShownChunks(script[i].deltas, i, o.includeUsage);
  }

  lemma ReceivedUsage(o: Options, script: seq<Attempt>, i: nat, s: Loop)
    requires i < |script| && UsageOf(script, i, s.started, s.acc)
    ensures var r := Received(o, script[i], i, s); UsageOf(script, i + 1, r.started, r.acc)
  {
    ReportedUsageWins(s.acc, script[i].deltas);
    assert forall j :: j in s.started + {i} <==> j in s.started || j == i;
  }

  lemma ReceivedCharge(o: Options, script: seq<Attempt>, i: nat, s: Loop)
    requires i < |script| && UsageOf(script, i, s.started, s.acc)
    ensures ChargedUsage(script, Final(Received(o, script[i], i, s), Completed))
  {
    var r := Received(o, script[i], i, s);
    ReportedUsageWins(s.acc, script[i].deltas);
    assert r.started - {i} == s.started;
    assert forall j :: j in r.started <==> j in s.started || j == i;
  }

  lemma ReceivedKeepsInv(o: Options, script: seq<Attempt>, i: nat, s: Loop)
    requires i < |script| && LoopInv(o, script, i, s) && Quiet(s.body)
    ensures LoopInv(o, script, i + 1, Received(o, script[i], i, s))
    ensures !HasData(ShownBy(o, script, i)) ==> Quiet(Received(o, script[i], i, s).body)
    ensures ChargedUsage(script, Final(Received(o, script[i], i, s), Completed))
  {
    ReceivedBody(o, script, i, s);
    ReceivedUsage(o, script, i, s);
    ReceivedCharge(o, script, i, s);
    if !HasData(ShownBy(o, script, i)) {
      ReceivedStaysQuiet(o, script, i, s);
    }
  }

  ghost predicate StepInv(o: Options, script: seq<Attempt>, i: nat, step: Step) {
    match step
    case GoOn(s) => LoopInv(o, script, i + 1, s) && Quiet(s.body)
    case Break(s) => BodyOf(o, script, s) && Tried(s) && UsageOf(script, |script|, s.started, s.acc)
    case End(s, result) => FinalInv(o, script, Final(s, result)) && !result.Replayed?
  }

  lemma {:induction false} EndingKeepsInv(o: Options, script: seq<Attempt>, i: nat, r: Loop)
    requires LoopInv(o, script, i, r) && ChargedUsage(script, Final(r, Completed))
    ensures FinalInv(o, script, Final(r, Completed)) && FinalInv(o, script, Final(r, Interrupted))
  {
  }

  lemma {:induction false} FailingKeepsInv(o: Options, script: seq<Attempt>, i: nat, isLast: bool, s: Loop)
    requires i < |script| && LoopInv(o, script, i, s) && Quiet(s.body) && script[i].ending.Fails?
    ensures StepInv(o, script, i, React(o, script[i], i, isLast, s))
  {
    var r := Received(o, script[i], i, s);
    ReceivedKeepsInv(o, script, i, s);
    var failed := r.(lastError := Some(script[i].ending.category));
    PickingKeepsInv(o, script, i + 1, r, failed);
    assert React(o, script[i], i, isLast, s).loop == failed;
  }

  lemma {:induction false} ReactKeepsInv(o: Options, script: seq<Attempt>, i: nat, isLast: bool, s: Loop)
    requires i < |script| && LoopInv(o, script, i, s) && Quiet(s.body)
    ensures StepInv(o, script, i, React(o, script[i], i, isLast, s))
  {
    if script[i].ending.Fails? {
      FailingKeepsInv(o, script, i, isLast, s);
    } else {
      ReceivedKeepsInv(o, script, i, s);
      EndingKeepsInv(o, script, i + 1, Received(o, script[i], i, s));
    }
  }

  lemma IterateKeepsInv(o: Options, script: seq<Attempt>, i: nat, isLast: bool, s: Loop)
    requires i < |script| && LoopInv(o, script, i, s) && Quiet(s.body)
    ensures StepInv(o, script, i, Iterate(o, script[i], i, isLast, s))
  {
    ChosenKeepsInv(o, script, i, s);
    var chosen := Chosen(o, script[i], i, s);
    if chosen.GoOn? && script[i].starts {
      ReactKeepsInv(o, script, i, isLast, chosen.loop);
    }
  }

  lemma {:induction false} ProceedKeepsInv(o: Options, script: seq<Attempt>, i: nat, s: Loop)
    requires LoopInv(o, script, i, s) && Quiet(s.body)
    ensures FinalInv(o, script, Proceed(o, script, i, s))
    ensures Proceed(o, script, i, s).result.Replayed? ==> o.stale == Some(Proceed(o, script, i, s).result.pieces)
    decreases |script| - i
  {
    if i >= |script| {
    } else {
      var step := Iterate(o, script[i], i, i == |script| - 1, s);
      IterateKeepsInv(o, script, i, i == |script| - 1, s);
      if step.GoOn? {
        ProceedKeepsInv(o, script, i + 1, step.loop);
      }
    }
  }

  /** A first attempt handed in has already been counted as tried, at the level picking goes on from. */
  predicate FirstIsTried(o: Options, exclude: set<Key>, level: nat) {
    o.first.Some? ==> o.first.value.deployment.Key() in exclude && o.first.value.level <= level
  }

  function Handle(o: Options, script: seq<Attempt>, exclude: set<Key>, level: nat): Final {
    Proceed(o, script, 0, Begin(o, exclude, level))
  }

  lemma HandleInv(o: Options, script: seq<Attempt>, exclude: set<Key>, level: nat)
    requires FirstIsTried(o, exclude, level)
    ensures FinalInv(o, script, Handle(o, script, exclude, level))
    ensures var f := Handle(o, script, exclude, level); f.result.Replayed? ==> o.stale == Some(f.result.pieces)
  {
    ProceedKeepsInv(o, script, 0, Begin(o, exclude, level));
  }

  lemma BodyChunks(o: Options, script: seq<Attempt>, f: Final)
    requires BodyOf(o, script, f.loop)
    ensures forall c :: c in f.loop.body ==> c.Comment? || (f.loop.upstream.Some? && c == Data(f.loop.upstream.value))
    ensures HasData(f.loop.body) <==> f.loop.upstream.Some? && HasData(ShownBy(o, script, f.loop.upstream.value))
  {
    if f.loop.upstream.Some? {
      var k, body := f.loop.upstream.value, f.loop.body;
      var shown := ShownBy(o, script, k);
      var quiet := body[..|body| - |shown|];
      ShownChunks(script[k].deltas, k, o.includeUsage);
      assert body == quiet + shown;
    }
  }

  lemma TailChunks(o: Options, result: Stream.Result)
    ensures var tail := Tail(o, result);
            && (tail == [] <==> result.Interrupted?)
            && (forall i :: 0 <= i < |tail| ==> !tail[i].Data? && (tail[i].DoneMark? <==> i == |tail| - 1))
            && ((exists c :: c in tail && c.CachedData?) <==> result.Replayed?)
  {
    if result.Replayed? {
      assert Tail(o, result)[0].CachedData?;
    }
  }

  /**
   * Data events come from one upstream attempt at most, and before them there is nothing but heartbeats.
   * A run that is not interrupted ends with [DONE] and has no other.
   */
  lemma StreamShape(o: Options, script: seq<Attempt>, exclude: set<Key>, level: nat)
    requires FirstIsTried(o, exclude, level)
    ensures var f := Handle(o, script, exclude, level);
            var output := Output(o, f);
            && BodyOf(o, script, f.loop)
            && (forall i :: 0 <= i < |output| && output[i].Data? ==> f.loop.upstream == Some(output[i].attempt))
            && (!f.result.Interrupted? ==> output != [])
            && (forall i :: 0 <= i < |output| ==>
                              (output[i].DoneMark? <==> !f.result.Interrupted? && i == |output| - 1))
  {
    var f := Handle(o, script, exclude, level);
    HandleInv(o, script, exclude, level);
    BodyChunks(o, script, f);
    TailChunks(o, f.result);
    Joined(f.loop.body, Tail(o, f.result), f.loop.upstream);
  }

  /** A body of heartbeats and data from one upstream, then a tail that only ends with [DONE]. */
  lemma Joined(body: seq<Chunk>, tail: seq<Chunk>, upstream: Option<nat>)
    requires forall c :: c in body ==> c.Comment? || (upstream.Some? && c == Data(upstream.value))
    requires forall i :: 0 <= i < |tail| ==> !tail[i].Data? && (tail[i].DoneMark? <==> i == |tail| - 1)
    ensures forall i :: 0 <= i < |body + tail| && (body + tail)[i].Data? ==> upstream == Some((body + tail)[i].attempt)
    ensures forall i :: 0 <= i < |body + tail| ==>
                          ((body + tail)[i].DoneMark? <==> tail != [] && i == |body + tail| - 1)
  {
    forall i | 0 <= i < |body + tail|
      ensures (body + tail)[i] == if i < |body| then body[i] else tail[i - |body|]
      ensures i < |body| ==> body[i] in body
    {
    }
  }

  /** Where a content event comes from: an upstream attempt, or the cache. */
  function Source(c: Chunk): Option<Option<nat>> {
    match c
    case Data(attempt) => Some(Some(attempt))
    case CachedData => Some(None)
    case _ => None
  }

  ghost predicate FromOneSource(output: seq<Chunk>) {
    forall c, d :: c in output && d in output && Source(c).Some? && Source(d).Some? ==> Source(c) == Source(d)
  }

  lemma JoinedSources(body: seq<Chunk>, tail: seq<Chunk>, upstream: Option<nat>)
    requires forall c :: c in body ==> c.Comment? || (upstream.Some? && c == Data(upstream.value))
    requires forall c :: c in tail ==> !c.Data?
    ensures FromOneSource(body + tail) <==> !(HasData(body) && exists c :: c in tail && c.CachedData?)
  {
    assert forall c :: c in body + tail <==> c in body || c in tail;
    if HasData(body) && exists c :: c in tail && c.CachedData? {
      var c :| c in body && c.Data?;
      var d :| d in tail && d.CachedData?;
      assert Source(c) != Source(d);
    }
  }

  lemma SourcesOfResult(o: Options, script: seq<Attempt>, exclude: set<Key>, level: nat)
    requires FirstIsTried(o, exclude, level)
    ensures var f := Handle(o, script, exclude, level);
            FromOneSource(Output(o, f)) <==> !(f.result.Replayed? && HasData(f.loop.body))
  {
    var f := Handle(o, script, exclude, level);
    HandleInv(o, script, exclude, level);
    BodyChunks(o, script, f);
    TailChunks(o, f.result);
    JoinedSources(f.loop.body, Tail(o, f.result), f.loop.upstream);
  }

  /** Without a stale answer at hand, no failure whatever mixes sources. */
  lemma OneSourceWithoutStale(o: Options, script: seq<Attempt>, exclude: set<Key>, level: nat)
    requires FirstIsTried(o, exclude, level) && o.stale.None?
    ensures FromOneSource(Output(o, Handle(o, script, exclude, level)))
  {
    HandleInv(o, script, exclude, level);
    SourcesOfResult(o, script, exclude, level);
  }

  /** One attempt that fails after its first piece, with a stale answer at hand. */
  lemma StaleReplayMixesSources(d: Deployment)
    ensures var o := Options([Level([d], false)], false, Some(Pick(0, d)), Some(0));
            var script := [Attempt([], None, true, [Delta(true, None)], Fails(TimeoutStall))];
            Output(o, Handle(o, script, {d.Key()}, 0)) == [Data(0), CachedData, DoneMark]
  {
    var o := Options([Level([d], false)], false, Some(Pick(0, d)), Some(0));
    var deltas := [Delta(true, None)];
    var script := [Attempt([], None, true, deltas, Fails(TimeoutStall))];
    assert deltas[..0] == [] && deltas[0] == Delta(true, None);
    assert Shown(deltas[..0], 0, false) == [];
    assert Shown(deltas, 0, false) == [Data(0)];
    assert Data(0) in Shown(deltas, 0, false);
    var r := Received(o, script[0], 0, Begin(o, {d.Key()}, 0));
    assert r.body == [] + [Data(0)] == [Data(0)];
    assert Tail(o, Replayed(0)) == [CachedData, DoneMark];
  }

  /** Streaming attempts are picked under the same discipline as the others. */
  lemma StreamPicks(o: Options, script: seq<Attempt>, exclude: set<Key>, level: nat)
    requires FirstIsTried(o, exclude, level)
    ensures Disciplined(Handle(o, script, exclude, level).loop.picks)
  {
    HandleInv(o, script, exclude, level);
  }

  function Effect(c: QuotaCall): int {
    match c
    case Reserve(granted) => if granted then 1 else 0
    case _ => -1
  }

  /** Reservations taken and not yet released. */
  function Outstanding(calls: seq<QuotaCall>): int {
    if calls == [] then 0
    else Outstanding(calls[..|calls| - 1]) + Effect(calls[|calls| - 1])
  }

  lemma OutstandingAppend(calls: seq<QuotaCall>, c: QuotaCall)
    ensures Outstanding(calls + [c]) == Outstanding(calls) + Effect(c)
  {
    assert (calls + [c])[..|calls|] == calls;
  }

  lemma {:induction false} FirstStaysHeld(o: Options, script: seq<Attempt>, i: nat, s: Loop)
    requires s.held
    ensures Proceed(o, script, i, s).loop.held
    decreases |script| - i
  {
    if i >= |script| {
    } else {
      var step := Iterate(o, script[i], i, i == |script| - 1, s);
      if step.GoOn? {
        FirstStaysHeld(o, script, i + 1, step.loop);
      }
    }
  }

  /** Whatever the run, the request holds no reservation after it: one handed in or made here is released once. */
  lemma NothingLeftHeld(o: Options, script: seq<Attempt>, exclude: set<Key>, level: nat, before: seq<QuotaCall>)
    ensures var after := AfterRelease(before, o, Handle(o, script, exclude, level));
            Outstanding(after) == Outstanding(before) - if o.first.Some? then 1 else 0
  {
    var f := Handle(o, script, exclude, level);
    var reserved := AfterReserve(before, o, f.loop);
    OutstandingAppend(before, Reserve(true));
    OutstandingAppend(before, Reserve(false));
    OutstandingAppend(reserved, Refund);
    OutstandingAppend(reserved, Settle(f.loop.acc.usage, f.loop.acc.forwarded));
    if o.first.Some? {
      FirstStaysHeld(o, script, 0, Begin(o, exclude, level));
    }
  }

  function Idles(deltas: seq<Delta>): nat {
    if deltas == [] then 0 else Idles(deltas[..|deltas| - 1]) + if deltas[|deltas| - 1].Idle? then 1 else 0
  }

  /** Usage reports that the client did not ask for. */
  function Withheld(deltas: seq<Delta>, includeUsage: bool): nat {
    if deltas == [] then 0
    else
      var last := deltas[|deltas| - 1];
      Withheld(deltas[..|deltas| - 1], includeUsage) + if last.Delta? && last.usage.Some? && !includeUsage then 1 else 0
  }

  /** Every idle slot is a heartbeat, and every other item an event of its own, unless it is usage nobody asked for. */
  lemma {:induction false} ShownOneForOne(deltas: seq<Delta>, attempt: nat, includeUsage: bool)
    ensures multiset(Shown(deltas, attempt, includeUsage))[Comment] == Idles(deltas)
    ensures multiset(Shown(deltas, attempt, includeUsage))[Data(attempt)]
            == |deltas| - Idles(deltas) - Withheld(deltas, includeUsage)
  {
    if deltas == [] {
    } else {
      ShownOneForOne(deltas[..|deltas| - 1], attempt, includeUsage);
    }
  }
}
