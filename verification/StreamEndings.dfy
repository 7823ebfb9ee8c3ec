/** How a stream ends for the client, told from the inputs of the run. */
module StreamEndings {
  import opened Common
  import opened Routing
  import opened Attempts
  import opened Stream
  import opened StreamSafety
  import opened StreamReach
  import QuotaService

  /** No stale answer is at hand, and no upstream that is opened completes or interrupts the run. */
  ghost predicate Fails(o: Options, script: seq<Attempt>, exclude: set<Key>, level: nat) {
    o.stale.None? && !EndsBy(o, script, exclude, level, true) && !EndsBy(o, script, exclude, level, false)
  }

  /**
   * The client is told of a failure exactly if the run fails, once, directly before the closing [DONE]. A run that
   * completes, is interrupted or replays a stale answer says nothing of the kind.
   */
  lemma {:induction false} FailureIsTold(o: Options, script: seq<Attempt>, exclude: set<Key>, level: nat)
    requires FirstIsTried(o, exclude, level)
    ensures var output := Output(o, Handle(o, script, exclude, level));
            && (Fails(o, script, exclude, level) ==> 2 <= |output| && output[|output| - 1] == DoneMark)
            && forall i :: 0 <= i < |output| ==>
                             (output[i].ErrorChunk? <==> Fails(o, script, exclude, level) && i == |output| - 2)
  {
    var f := Handle(o, script, exclude, level);
    HandleInv(o, script, exclude, level);
    FailsForetold(o, script, exclude, level);
    BodyChunks(o, script, f);
    TailErrors(o, f.result);
    ErrorInTail(f.loop.body, Tail(o, f.result), f.result.Failed?);
  }

  lemma {:induction false} FailsForetold(o: Options, script: seq<Attempt>, exclude: set<Key>, level: nat)
    ensures Handle(o, script, exclude, level).result.Failed? <==> Fails(o, script, exclude, level)
  {
    HandleForetold(o, script, exclude, level);
    StaleIsReplayed(o, script, 0, Begin(o, exclude, level));
  }

  lemma TailErrors(o: Options, result: Stream.Result)
    ensures if result.Failed? then Tail(o, result) == [ErrorChunk, DoneMark]
            else forall c :: c in Tail(o, result) ==> !c.ErrorChunk?
  {
  }

  lemma ErrorInTail(body: seq<Chunk>, tail: seq<Chunk>, failed: bool)
    requires forall c :: c in body ==> !c.ErrorChunk?
    requires failed ==> tail == [ErrorChunk, DoneMark]
    requires !failed ==> forall c :: c in tail ==> !c.ErrorChunk?
    ensures forall i :: 0 <= i < |body + tail| ==>
                          ((body + tail)[i].ErrorChunk? <==> failed && i == |body + tail| - 2)
    ensures failed ==> 2 <= |body + tail| && (body + tail)[|body + tail| - 1] == DoneMark
  {
    forall i | 0 <= i < |body + tail|
      ensures (body + tail)[i] in if i < |body| then body else tail
    {
    }
  }

  /** A cached answer as a stream: its pieces, its finish reason, its usage. */
  function ReplayDeltas(pieces: nat, usage: QuotaService.Usage): seq<Delta> {
    if pieces == 0 then [Delta(false, None)] + [Delta(false, Some(usage))]
    else [Delta(true, None)] + ReplayDeltas(pieces - 1, usage)
  }

  function ShownCached(deltas: seq<Delta>, includeUsage: bool): nat {
    if deltas == [] then 0 else |Show(deltas[0], 0, includeUsage)| + ShownCached(deltas[1..], includeUsage)
  }

  lemma {:induction false} ReplayLength(pieces: nat, usage: QuotaService.Usage, includeUsage: bool)
    ensures ShownCached(ReplayDeltas(pieces, usage), includeUsage) == pieces + if includeUsage then 2 else 1
  {
    var deltas := ReplayDeltas(pieces, usage);
    if pieces == 0 {
      var last := [Delta(false, Some(usage))];
      assert deltas[0] == Delta(false, None) && deltas[1..] == last && last[1..] == [];
      assert ShownCached(last, includeUsage) == if includeUsage then 1 else 0;
    } else {
      ReplayLength(pieces - 1, usage, includeUsage);
      assert deltas[1..] == ReplayDeltas(pieces - 1, usage);
    }
  }

  /**
   * A replayed answer is shown like any stream: everything before the closing [DONE] is cached data, one event for
   * each delta of the answer that the client would be shown.
   */
  lemma ReplayIsWhole(o: Options, pieces: nat, usage: QuotaService.Usage)
    ensures var tail := Tail(o, Replayed(pieces));
            && |tail| == ShownCached(ReplayDeltas(pieces, usage), o.includeUsage) + 1
            && forall i :: 0 <= i < |tail| - 1 ==> tail[i] == CachedData
  {
    ReplayLength(pieces, usage, o.includeUsage);
  }
}
