/** Which upstream answers a streaming attempt if a hedge was started beside its primary and won. */
module StreamHedges {
  import opened Common
  import opened Routing
  import opened Attempts
  import opened Stream
  import opened StreamSafety
  import opened StreamReach

  /** What the selector answers for each level. */
  type Offers = seq<Option<Deployment>>

  /** The loop's own pick for attempt k. */
  function Primary(o: Options, script: seq<Attempt>, exclude: set<Key>, level: nat, k: nat): Option<Pick>
    requires k < |script|
  {
    if k == 0 && o.first.Some? then o.first
    else
      match SearchAt(o, script, exclude, level, k)
      case None => None
      case Some(h) => PickFrom(o.levels, script[k].offers, h.attempted, h.level)
  }

  /**
   * A hedge is picked from the first level on, past everything attempted; what it picks is not recorded as
   * attempted. offers: what the selector then answers for each level.
   */
  function HedgeFor(o: Options, script: seq<Attempt>, exclude: set<Key>, level: nat, k: nat,
                    offers: Offers): Option<Pick>
    requires k < |script|
  {
    match SearchAt(o, script, exclude, level, k + 1)
    case None => None
    case Some(h) => PickFrom(o.levels, offers, h.attempted, 0)
  }

  /** hedges: for each attempt the offers to its hedge, if one was started and came first. */
  function Hedged(o: Options, script: seq<Attempt>, hedges: seq<Option<Offers>>, exclude: set<Key>,
                  level: nat, k: nat): Option<Pick>
    requires k < |script| == |hedges|
  {
    if hedges[k].None? then None else HedgeFor(o, script, exclude, level, k, hedges[k].value)
  }

  function Winner(o: Options, script: seq<Attempt>, hedges: seq<Option<Offers>>, exclude: set<Key>,
                  level: nat, k: nat): Option<Pick>
    requires k < |script| == |hedges|
  {
    var hedge := Hedged(o, script, hedges, exclude, level, k);
    if hedge.Some? then hedge else Primary(o, script, exclude, level, k)
  }

  lemma {:induction false} SearchGrows(o: Options, script: seq<Attempt>, exclude: set<Key>, level: nat, i: nat, k: nat)
    requires i <= k <= |script| && SearchAt(o, script, exclude, level, k).Some?
    ensures SearchAt(o, script, exclude, level, i).Some?
    ensures var early, late := SearchAt(o, script, exclude, level, i).value, SearchAt(o, script, exclude, level, k).value;
            early.attempted <= late.attempted && early.level <= late.level
  {
    if i == k {
    } else {
      SearchGrows(o, script, exclude, level, i, k - 1);
    }
  }

  /** The loop's own pick counts as attempted from then on, and was not before. */
  lemma PrimaryIsTried(o: Options, script: seq<Attempt>, exclude: set<Key>, level: nat, k: nat)
    requires k < |script| && FirstIsTried(o, exclude, level) && SearchAt(o, script, exclude, level, k + 1).Some?
    ensures var pick, h := Primary(o, script, exclude, level, k), SearchAt(o, script, exclude, level, k + 1).value;
            && pick.Some? && pick.value.deployment.Key() in h.attempted && pick.value.level <= h.level
            && (0 < k ==>
                  var before := SearchAt(o, script, exclude, level, k).value;
                  pick.value.deployment.Key() !in before.attempted && before.level <= pick.value.level)
  {
    SearchGrows(o, script, exclude, level, k, k + 1);
  }

  /** The key counts as attempted when attempt k is picked. */
  predicate Attempted(o: Options, script: seq<Attempt>, exclude: set<Key>, level: nat, k: nat, key: Key)
    requires k <= |script|
  {
    var h := SearchAt(o, script, exclude, level, k);
    h.Some? && key in h.value.attempted
  }

  function LevelAt(o: Options, script: seq<Attempt>, exclude: set<Key>, level: nat, k: nat): nat
    requires k <= |script|
  {
    var h := SearchAt(o, script, exclude, level, k);
    if h.Some? then h.value.level else level
  }

  /**
   * Whatever answers attempt k was not attempted before it; if it is the loop's own pick, it counts as attempted
   * after it.
   */
  lemma WinnerIsNew(o: Options, script: seq<Attempt>, hedges: seq<Option<Offers>>, exclude: set<Key>, level: nat, k: nat)
    returns (winner: Pick)
    requires FirstIsTried(o, exclude, level) && k < |script| == |hedges|
    requires SearchAt(o, script, exclude, level, k + 1).Some?
    ensures Winner(o, script, hedges, exclude, level, k) == Some(winner)
    ensures 0 < k ==> !Attempted(o, script, exclude, level, k, winner.deployment.Key())
    ensures Hedged(o, script, hedges, exclude, level, k).None? ==>
              && Attempted(o, script, exclude, level, k + 1, winner.deployment.Key())
              && winner.level <= LevelAt(o, script, exclude, level, k + 1)
              && (0 < k ==> LevelAt(o, script, exclude, level, k) <= winner.level)
  {
    PrimaryIsTried(o, script, exclude, level, k);
    SearchGrows(o, script, exclude, level, k, k + 1);
    winner := Winner(o, script, hedges, exclude, level, k).value;
  }

  lemma StaysAttempted(o: Options, script: seq<Attempt>, exclude: set<Key>, level: nat, i: nat, k: nat, key: Key)
    requires i <= k <= |script| && SearchAt(o, script, exclude, level, k).Some?
    ensures Attempted(o, script, exclude, level, i, key) ==> Attempted(o, script, exclude, level, k, key)
    ensures LevelAt(o, script, exclude, level, i) <= LevelAt(o, script, exclude, level, k)
  {
    SearchGrows(o, script, exclude, level, i, k);
  }

  /**
   * Opened upstreams are distinct, at levels that never fall back, unless a hedge won: the same deployment
   * answers twice only if it was a hedge the first time, and the level falls only to or from a hedge.
   */
  lemma {:induction false} HedgesAside(o: Options, script: seq<Attempt>, hedges: seq<Option<Offers>>,
                                       exclude: set<Key>, level: nat, j: nat, k: nat)
    returns (early: Pick, late: Pick)
    requires FirstIsTried(o, exclude, level) && |hedges| == |script| && j < k
    requires Opened(o, script, exclude, level, j) && Opened(o, script, exclude, level, k)
    ensures Winner(o, script, hedges, exclude, level, j) == Some(early)
    ensures Winner(o, script, hedges, exclude, level, k) == Some(late)
    ensures early.deployment.Key() == late.deployment.Key() ==> Hedged(o, script, hedges, exclude, level, j).Some?
    ensures late.level < early.level ==>
              Hedged(o, script, hedges, exclude, level, j).Some? || Hedged(o, script, hedges, exclude, level, k).Some?
  {
    early, late := PicksApart(o, script, hedges, exclude, level, j, k);
  }

  lemma PicksApart(o: Options, script: seq<Attempt>, hedges: seq<Option<Offers>>, exclude: set<Key>, level: nat, j: nat,
                   k: nat) returns (early: Pick, late: Pick)
    requires FirstIsTried(o, exclude, level) && j < k < |script| == |hedges|
    requires SearchAt(o, script, exclude, level, j + 1).Some? && SearchAt(o, script, exclude, level, k + 1).Some?
    ensures Winner(o, script, hedges, exclude, level, j) == Some(early)
    ensures Winner(o, script, hedges, exclude, level, k) == Some(late)
    ensures early.deployment.Key() == late.deployment.Key() ==> Hedged(o, script, hedges, exclude, level, j).Some?
    ensures late.level < early.level ==>
              Hedged(o, script, hedges, exclude, level, j).Some? || Hedged(o, script, hedges, exclude, level, k).Some?
  {
    early := WinnerIsNew(o, script, hedges, exclude, level, j);
    late := WinnerIsNew(o, script, hedges, exclude, level, k);
    SearchGrows(o, script, exclude, level, k, k + 1);
    StaysAttempted(o, script, exclude, level, j + 1, k, early.deployment.Key());
  }

  /**
   * The request starts one level down; its hedge answers from the first level and fails before any data, and
   * the retry goes to the very same deployment.
   */
  lemma HedgeIsRetried(first: Deployment, second: Deployment)
    requires first.Key() != second.Key()
    ensures var o := Options([Level([second], false), Level([first, second], true)], false, Some(Pick(1, first)), None);
            var script := [Attempt([], None, true, [], Fails(RetryableUpstream)),
                           Attempt([None, Some(second)], None, true, [], Finishes)];
            var hedges: seq<Option<Offers>> := [Some([Some(second)]), None];
            && FirstIsTried(o, {first.Key()}, 1)
            && Opened(o, script, {first.Key()}, 1, 0) && Opened(o, script, {first.Key()}, 1, 1)
            && Winner(o, script, hedges, {first.Key()}, 1, 0) == Some(Pick(0, second))
            && Winner(o, script, hedges, {first.Key()}, 1, 1) == Some(Pick(1, second))
  {
    var o := Options([Level([second], false), Level([first, second], true)], false, Some(Pick(1, first)), None);
    var a := Attempt([], None, true, [], Fails(RetryableUpstream));
    var b := Attempt([None, Some(second)], None, true, [], Finishes);
    var script := [a, b];
    var exclude := {first.Key()};
    assert SearchAt(o, script, exclude, 1, 0) == Some(Search(true, exclude, 1));
    assert SearchAt(o, script, exclude, 1, 1) == Some(Search(true, exclude, 1));
    assert Offer(o.levels, [Some(second)], exclude, 0) == Some(second);
    assert Offer(o.levels, b.offers, exclude, 1) == Some(second);
    assert PickFrom(o.levels, b.offers, exclude, 1) == Some(Pick(1, second));
    assert SearchAt(o, script, exclude, 1, 2).Some?;
    assert ShownBy(o, script, 0) == [];
    assert Passes(o, script, 0);
  }
}
