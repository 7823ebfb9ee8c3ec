/** Which upstreams the non-streaming loop calls and what it comes to, told from its inputs alone. */
module NonStreamReach {
  import opened Common
  import opened Routing
  import opened Attempts
  import opened NonStream
  import QuotaService

  /** All that picking and reserving depend on. */
  datatype Search = Search(held: bool, exclude: set<Key>, level: nat)

  function SearchOf(s: Loop): Search {
    Search(s.held, s.exclude, s.level)
  }

  function PickAt(levels: seq<Level>, a: Attempt, h: Search): Option<Pick> {
    PickFrom(levels, a.offers, h.exclude, h.level)
  }

  /** The attempt finds a deployment, but its reservation is refused. */
  predicate Refuses(levels: seq<Level>, a: Attempt, h: Search) {
    PickAt(levels, a, h).Some? && !h.held && a.refusal.Some?
  }

  /** The attempt finds a deployment and quota, and starts. */
  predicate Calls(levels: seq<Level>, a: Attempt, h: Search) {
    PickAt(levels, a, h).Some? && (h.held || a.refusal.None?) && a.starts
  }

  /** Another attempt may follow: this one found deployment and quota, and did not start or failed transiently. */
  predicate Passes(levels: seq<Level>, a: Attempt, h: Search) {
    && PickAt(levels, a, h).Some? && (h.held || a.refusal.None?)
    && (a.starts ==> a.reply.Fails? && a.reply.category in TRANSIENT)
  }

  /** The search that attempt k meets, if every attempt before it lets another follow. */
  function SearchAt(levels: seq<Level>, script: seq<Attempt>, start: Search, k: nat): Option<Search>
    requires k <= |script|
  {
    if k == 0 then Some(start)
    else
      match SearchAt(levels, script, start, k - 1)
      case None => None
      case Some(h) =>
        var a := script[k - 1];
        if !Passes(levels, a, h) then None
        else
          var pick := PickAt(levels, a, h).value;
          Some(Search(!a.starts, h.exclude + {pick.deployment.Key()}, pick.level))
  }

  /** Attempt k calls its upstream. */
  predicate CalledAt(levels: seq<Level>, script: seq<Attempt>, start: Search, k: nat) {
    k < |script| &&
    var h := SearchAt(levels, script, start, k);
    h.Some? && Calls(levels, script[k], h.value)
  }

  /** The upstreams called by the first n attempts, in order. */
  function CalledPicks(levels: seq<Level>, script: seq<Attempt>, start: Search, n: nat): seq<Pick>
    requires n <= |script|
  {
    if n == 0 then []
    else
      var before := CalledPicks(levels, script, start, n - 1);
      if CalledAt(levels, script, start, n - 1)
      then before + [PickAt(levels, script[n - 1], SearchAt(levels, script, start, n - 1).value).value]
      else before
  }

  /** Attempt k is reached and lets no other follow. */
  predicate StopsAt(levels: seq<Level>, script: seq<Attempt>, start: Search, k: nat) {
    k < |script| &&
    var h := SearchAt(levels, script, start, k);
    h.Some? && !Passes(levels, script[k], h.value)
  }

  /** The error left by the attempts before k, the last of which did not start or failed. */
  function ErrorBefore(script: seq<Attempt>, k: nat): Category
    requires k <= |script|
  {
    if k > 0 && script[k - 1].starts && script[k - 1].reply.Fails? then script[k - 1].reply.category
    else RetryableUpstream
  }

  /** What attempt k comes to if it lets no other follow. */
  function StopResult(levels: seq<Level>, a: Attempt, h: Search, stale: bool): Result {
    if PickAt(levels, a, h).None? then (if stale then Stale else Raised(RetryableUpstream))
    else if Refuses(levels, a, h) then Raised(a.refusal.value)
    else
      match a.reply
      case Answers(usage) => Returned(usage, levels[PickAt(levels, a, h).value.level].degraded)
      case Crashes => Crashed
      case Fails(category) => Raised(category)
  }

  /** The upstream calls in a trace. */
  function DispatchedPicks(trace: Trace): seq<Pick> {
    if trace.Empty? then []
    else if trace.event.Dispatched? then DispatchedPicks(trace.before) + [trace.event.pick]
    else DispatchedPicks(trace.before)
  }

  lemma {:induction false} NoneAfterStop(levels: seq<Level>, script: seq<Attempt>, start: Search, k: nat, n: nat)
    requires StopsAt(levels, script, start, k) && k < n <= |script|
    ensures SearchAt(levels, script, start, n).None?
    ensures CalledPicks(levels, script, start, n) == CalledPicks(levels, script, start, k + 1)
  {
    if n == k + 1 {
    } else {
      NoneAfterStop(levels, script, start, k, n - 1);
    }
  }

  /** The loop at its k-th iteration is where the inputs say. */
  ghost predicate Tracks(levels: seq<Level>, script: seq<Attempt>, start: Search, k: nat, s: Loop) {
    && k <= |script|
    && SearchAt(levels, script, start, k) == Some(SearchOf(s))
    && DispatchedPicks(s.trace) == CalledPicks(levels, script, start, k)
    && s.lastError.GetOr(RetryableUpstream) == ErrorBefore(script, k)
  }

  ghost predicate Foretold(levels: seq<Level>, script: seq<Attempt>, stale: bool, start: Search, f: Final) {
    && DispatchedPicks(f.trace) == CalledPicks(levels, script, start, |script|)
    && (forall k: nat :: StopsAt(levels, script, start, k) ==>
          f.result == StopResult(levels, script[k], SearchAt(levels, script, start, k).value, stale))
    && (SearchAt(levels, script, start, |script|).Some? ==>
          f.result == if stale then Stale else Raised(ErrorBefore(script, |script|)))
  }

  /** One iteration, against the inputs. */
  lemma IterateForetold(levels: seq<Level>, a: Attempt, s: Loop, stale: bool)
    ensures var h, step := SearchOf(s), Iterate(levels, a, s);
            && (step.GoOn? <==> Passes(levels, a, h))
            && (step.GoOn? ==>
                  var pick := PickAt(levels, a, h).value;
                  && SearchOf(step.loop) == Search(!a.starts, h.exclude + {pick.deployment.Key()}, pick.level)
                  && step.loop.lastError
                     == Some(if a.starts && a.reply.Fails? then a.reply.category else RetryableUpstream))
            && (step.Break? ==> PickAt(levels, a, h).None? && Finish(step.loop, stale).result == StopResult(levels, a, h, stale))
            && (step.End? ==> step.result == StopResult(levels, a, h, stale))
            && DispatchedPicks(step.loop.trace)
               == if Calls(levels, a, h) then DispatchedPicks(s.trace) + [PickAt(levels, a, h).value]
                  else DispatchedPicks(s.trace)
  {
    if a.reply.Fails? {
      RetryableIsTransient(a.reply.category);
    }
    var pick := PickAt(levels, a, SearchOf(s));
    if pick.Some? {
      ChoosingDispatchesNothing(s, pick.value, a.refusal.None?);
      CallingDispatchesOne(Chosen(s, pick.value, a.refusal.None?), pick.value, a.reply, levels[pick.value.level].degraded);
    }
  }

  lemma ChoosingDispatchesNothing(s: Loop, pick: Pick, granted: bool)
    ensures DispatchedPicks(Chosen(s, pick, granted).trace) == DispatchedPicks(s.trace)
  {
    assert DispatchedPicks(Then(s.trace, Picked(pick))) == DispatchedPicks(s.trace);
  }

  lemma CallingDispatchesOne(c: Loop, pick: Pick, reply: Reply, degraded: bool)
    ensures DispatchedPicks(React(c, pick, reply, degraded).loop.trace) == DispatchedPicks(c.trace) + [pick]
  {
    assert DispatchedPicks(Then(c.trace, Dispatched(pick))) == DispatchedPicks(c.trace) + [pick];
  }

  lemma FinishDispatchesNothing(s: Loop, stale: bool)
    ensures DispatchedPicks(Finish(s, stale).trace) == DispatchedPicks(s.trace)
  {
  }

  lemma {:induction false} ProceedForetold(levels: seq<Level>, script: seq<Attempt>, stale: bool, start: Search, k: nat, s: Loop)
    requires Tracks(levels, script, start, k, s)
    ensures Foretold(levels, script, stale, start, Proceed(levels, script[k..], stale, s))
    decreases |script| - k
  {
    if k == |script| {
      FinishDispatchesNothing(s, stale);
      OnlyStop(levels, script, start, k);
    } else {
      assert script[k..][0] == script[k] && script[k..][1..] == script[k + 1..];
      IterateForetold(levels, script[k], s, stale);
      var step := Iterate(levels, script[k], s);
      if step.GoOn? {
        ProceedForetold(levels, script, stale, start, k + 1, step.loop);
      } else {
        NoneAfterStop(levels, script, start, k, |script|);
        OnlyStop(levels, script, start, k);
        FinishDispatchesNothing(step.loop, stale);
      }
    }
  }

  /** Where k is reached, no attempt before it stops the loop, and if k stops it no other does. */
  lemma OnlyStop(levels: seq<Level>, script: seq<Attempt>, start: Search, k: nat)
    requires k <= |script| && SearchAt(levels, script, start, k).Some?
    ensures forall j: nat :: j < k ==> !StopsAt(levels, script, start, j)
    ensures StopsAt(levels, script, start, k) ==> forall j: nat :: StopsAt(levels, script, start, j) ==> j == k
  {
    forall j: nat | StopsAt(levels, script, start, j)
      ensures k <= j
    {
      if j < k {
        NoneAfterStop(levels, script, start, j, k);
      }
    }
    if StopsAt(levels, script, start, k) {
      forall j: nat | StopsAt(levels, script, start, j)
        ensures j == k
      {
        if k < j {
          NoneAfterStop(levels, script, start, k, j);
        }
      }
    }
  }

  /**
   * The upstreams called are exactly those of the attempts that find a deployment and quota and start, while every
   * attempt before them did not start or failed transiently. The attempt that lets no other follow decides: with its
   * answer, its refusal, or its own error, or, if it finds no deployment, with the stale answer or an error. If every
   * attempt lets another follow, it is the stale answer or the last attempt's error.
   */
  lemma LoopForetold(levels: seq<Level>, script: seq<Attempt>, stale: bool, held: bool)
    ensures Foretold(levels, script, stale, Search(held, {}, 0), Proceed(levels, script, stale, Begin(held)))
  {
    assert script[0..] == script;
    ProceedForetold(levels, script, stale, Search(held, {}, 0), 0, Begin(held));
  }

  /**
   * An upstream's answer, and an error that is not transient, are what the request gets, and no upstream is called
   * after them.
   */
  lemma {:induction false} FinalRepliesEnd(levels: seq<Level>, script: seq<Attempt>, stale: bool, held: bool, k: nat)
    requires CalledAt(levels, script, Search(held, {}, 0), k)
    requires script[k].reply.Fails? ==> script[k].reply.category !in TRANSIENT
    ensures var f := Proceed(levels, script, stale, Begin(held));
            && DispatchedPicks(f.trace) == CalledPicks(levels, script, Search(held, {}, 0), k + 1)
            && match script[k].reply
               case Answers(usage) => f.result.Returned? && f.result.usage == usage
               case Crashes => f.result.Crashed?
               case Fails(category) => f.result == Raised(category)
  {
    var start := Search(held, {}, 0);
    FinalReplyStops(levels, script, start, k, stale);
    LoopForetold(levels, script, stale, held);
    if k + 1 < |script| {
      NoneAfterStop(levels, script, start, k, |script|);
    }
  }

  lemma FinalReplyStops(levels: seq<Level>, script: seq<Attempt>, start: Search, k: nat, stale: bool)
    requires CalledAt(levels, script, start, k)
    requires script[k].reply.Fails? ==> script[k].reply.category !in TRANSIENT
    ensures StopsAt(levels, script, start, k)
    ensures var result := StopResult(levels, script[k], SearchAt(levels, script, start, k).value, stale);
            match script[k].reply
            case Answers(usage) => result.Returned? && result.usage == usage
            case Crashes => result.Crashed?
            case Fails(category) => result == Raised(category)
  {
  }
}
