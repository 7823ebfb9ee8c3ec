/** The order in which model groups are tried for one request. */
module Ladder {
  import opened Common
  import opened Routing

  type Group = seq<Deployment>

  datatype Degradation = NotDegraded | Fallback | SmallerModel

  datatype RouteLevel = RouteLevel(name: string, group: Group, degraded: Degradation)

  datatype Policy = Policy(fallbackChain: seq<string>, smaller: Option<string>)

  datatype Candidate = Candidate(name: string, degraded: Degradation)

  /** The first position of a member. */
  function IndexOf(names: seq<string>, name: string): (i: nat)
    requires name in names
    ensures i < |names| && names[i] == name && name !in names[..i]
  {
    if names[0] == name then 0 else IndexOf(names[1..], name) + 1
  }

  /** Only what comes after the requested group in the chain; the whole chain if it is no member. */
  function FallbackNames(chain: seq<string>, requested: string): seq<string> {
    if requested in chain then chain[IndexOf(chain, requested) + 1..] else chain
  }

  /** Everything considered, in order. */
  function Candidates(policy: Policy, requested: string): seq<Candidate> {
    [Candidate(requested, NotDegraded)] + AsFallbacks(FallbackNames(policy.fallbackChain, requested)) +
    if policy.smaller.Some? then [Candidate(policy.smaller.value, SmallerModel)] else []
  }

  function AsFallbacks(names: seq<string>): seq<Candidate> {
    seq(|names|, i requires 0 <= i < |names| => Candidate(names[i], Fallback))
  }

  /** The known candidates, each name once, where it first comes up. */
  function Kept(groups: map<string, Group>, candidates: seq<Candidate>): seq<RouteLevel> {
    if candidates == [] then []
    else
      var kept, c := Kept(groups, candidates[..|candidates| - 1]), candidates[|candidates| - 1];
      if c.name in Names(kept) || c.name !in groups then kept
      else kept + [RouteLevel(c.name, groups[c.name], c.degraded)]
  }

  function Names(levels: seq<RouteLevel>): set<string> {
    set l | l in levels :: l.name
  }

  method Append(groups: map<string, Group>, levels: seq<RouteLevel>, seen: set<string>, c: Candidate,
                   ghost before: seq<Candidate>) returns (longer: seq<RouteLevel>, more: set<string>)
    requires levels == Kept(groups, before) && seen == Names(levels)
    ensures longer == Kept(groups, before + [c]) && more == Names(longer)
  {
    assert (before + [c])[..|before|] == before;
    if c.name in seen || c.name !in groups {
      return levels, seen;
    }
    longer := levels + [RouteLevel(c.name, groups[c.name], c.degraded)];
    more := seen + {c.name};
    assert forall l :: l in longer <==> l in levels || l == longer[|levels|];
  }

  method Levels(groups: map<string, Group>, policy: Policy, requested: string) returns (levels: seq<RouteLevel>)
    ensures levels == Kept(groups, Candidates(policy, requested))
  {
    var seen := {};
    levels := [];
    levels, seen := Append(groups, levels, seen, Candidate(requested, NotDegraded), []);
    var names := FallbackNames(policy.fallbackChain, requested);
    ghost var first, all := [Candidate(requested, NotDegraded)], AsFallbacks(names);
    ghost var before := first;
    assert [] + first == first;
    OneByOne(first, all);
    for i := 0 to |names|
      invariant before == first + all[..i]
      invariant levels == Kept(groups, before) && seen == Names(levels)
    {
      levels, seen := Append(groups, levels, seen, Candidate(names[i], Fallback), before);
      before := before + [Candidate(names[i], Fallback)];
      assert before == first + all[..i] + [all[i]];
    }
    if policy.smaller.Some? {
      levels, seen := Append(groups, levels, seen, Candidate(policy.smaller.value, SmallerModel), before);
    }
  }

  lemma OneByOne(first: seq<Candidate>, all: seq<Candidate>)
    ensures first + all[..0] == first && first + all[..|all|] == first + all && first + all + [] == first + all
    ensures forall i :: 0 <= i < |all| ==> first + all[..i] + [all[i]] == first + all[..i + 1]
  {
  }

  /** The position at which a name first comes up. */
  ghost predicate FirstAt(candidates: seq<Candidate>, i: nat, name: string) {
    i < |candidates| && candidates[i].name == name && forall j :: 0 <= j < i ==> candidates[j].name != name
  }

  ghost predicate CameFrom(groups: map<string, Group>, candidates: seq<Candidate>, level: RouteLevel, i: nat) {
    && FirstAt(candidates, i, level.name) && level.degraded == candidates[i].degraded
    && level.name in groups && groups[level.name] == level.group
  }

  /** Positions of the levels' candidates: increasing, one for each level. */
  ghost predicate InOrder(groups: map<string, Group>, candidates: seq<Candidate>, levels: seq<RouteLevel>,
                             from: seq<nat>) {
    && |from| == |levels|
    && (forall k :: 0 <= k < |levels| ==> CameFrom(groups, candidates, levels[k], from[k]))
    && (forall j, k :: 0 <= j < k < |from| ==> from[j] < from[k])
  }

  /**
   * Each level is the first mention of a known group, levels come in the order of those mentions, and
   * every known group that is mentioned has its level.
   */
  lemma {:induction false} KeptIsFirstMentions(groups: map<string, Group>, candidates: seq<Candidate>)
    returns (from: seq<nat>)
    ensures InOrder(groups, candidates, Kept(groups, candidates), from)
    ensures forall k :: 0 <= k < |from| ==> from[k] < |candidates|
    ensures forall c :: c in candidates && c.name in groups ==> c.name in Names(Kept(groups, candidates))
  {
    if candidates == [] {
      from := [];
    } else {
      var n := |candidates| - 1;
      var init, c := candidates[..n], candidates[n];
      assert candidates == init + [c];
      var kept := Kept(groups, init);
      from := KeptIsFirstMentions(groups, init);
      OrderOutlasts(groups, init, c, kept, from);
      if c.name !in Names(kept) && c.name in groups {
        OrderGrows(groups, init, c, kept, from);
        from := from + [n];
      }
    }
  }

  lemma OrderOutlasts(groups: map<string, Group>, init: seq<Candidate>, c: Candidate, kept: seq<RouteLevel>,
                      from: seq<nat>)
    requires InOrder(groups, init, kept, from)
    ensures InOrder(groups, init + [c], kept, from)
  {
    forall k | 0 <= k < |kept|
      ensures CameFrom(groups, init + [c], kept[k], from[k])
    {
      assert CameFrom(groups, init, kept[k], from[k]);
    }
  }

  lemma OrderGrows(groups: map<string, Group>, init: seq<Candidate>, c: Candidate, kept: seq<RouteLevel>,
                   from: seq<nat>)
    requires InOrder(groups, init + [c], kept, from) && forall k :: 0 <= k < |from| ==> from[k] < |init|
    requires forall d :: d in init && d.name in groups ==> d.name in Names(kept)
    requires c.name !in Names(kept) && c.name in groups
    ensures var longer := kept + [RouteLevel(c.name, groups[c.name], c.degraded)];
            && InOrder(groups, init + [c], longer, from + [|init|])
            && Names(longer) == Names(kept) + {c.name}
  {
    var longer := kept + [RouteLevel(c.name, groups[c.name], c.degraded)];
    assert forall l :: l in longer <==> l in kept || l == longer[|kept|];
    forall j | 0 <= j < |init|
      ensures (init + [c])[j].name != c.name
    {
      assert init[j] in init;
    }
    assert CameFrom(groups, init + [c], longer[|kept|], |init|);
    forall k | 0 <= k < |kept|
      ensures CameFrom(groups, init + [c], longer[k], (from + [|init|])[k])
    {
      assert CameFrom(groups, init + [c], kept[k], from[k]);
    }
  }

  /** The name stands in the chain, after the requested one if that is in the chain at all. */
  ghost predicate FallsBackTo(chain: seq<string>, requested: string, name: string) {
    exists i :: 0 <= i < |chain| && chain[i] == name && (requested in chain ==> requested in chain[..i])
  }

  lemma FallbackIff(chain: seq<string>, requested: string, name: string)
    ensures name in FallbackNames(chain, requested) <==> FallsBackTo(chain, requested, name)
  {
    if requested in chain {
      var first := IndexOf(chain, requested);
      if name in chain[first + 1..] {
        var k :| 0 <= k < |chain[first + 1..]| && chain[first + 1..][k] == name;
        assert chain[..first + 1 + k][first] == requested;
        assert chain[first + 1 + k] == name;
      }
      if i :| 0 <= i < |chain| && chain[i] == name && requested in chain[..i] {
        var j :| 0 <= j < i && chain[..i][j] == requested;
        assert chain[first + 1..][i - first - 1] == name;
      }
    }
  }

  /**
   * Groups are tried at most once each; those tried are exactly the known ones among the requested
   * group, the chain beyond it, and the smaller model; and a known requested group is tried first.
   */
  lemma LadderLevels(groups: map<string, Group>, policy: Policy, requested: string)
    ensures var levels := Kept(groups, Candidates(policy, requested));
            && (forall j, k :: 0 <= j < k < |levels| ==> levels[j].name != levels[k].name)
            && (forall name :: name in Names(levels) <==>
                  name in groups &&
                  (name == requested || FallsBackTo(policy.fallbackChain, requested, name)
                   || policy.smaller == Some(name)))
            && (requested in groups ==>
                  levels != [] && levels[0] == RouteLevel(requested, groups[requested], NotDegraded))
  {
    var candidates := Candidates(policy, requested);
    var levels := Kept(groups, candidates);
    var from := KeptIsFirstMentions(groups, candidates);
    forall j, k | 0 <= j < k < |levels|
      ensures levels[j].name != levels[k].name
    {
      assert CameFrom(groups, candidates, levels[j], from[j]) && CameFrom(groups, candidates, levels[k], from[k]);
    }
    Mentioned(policy, requested);
    forall name
      ensures name in FallbackNames(policy.fallbackChain, requested)
              <==> FallsBackTo(policy.fallbackChain, requested, name)
    {
      FallbackIff(policy.fallbackChain, requested, name);
    }
    assert forall l :: l in levels ==> exists k :: 0 <= k < |levels| && levels[k] == l;
    forall name | name in Names(levels)
      ensures name in groups && exists c :: c in candidates && c.name == name
    {
      var k :| 0 <= k < |levels| && levels[k].name == name;
      assert CameFrom(groups, candidates, levels[k], from[k]);
      assert candidates[from[k]] in candidates;
    }
    if requested in groups {
      assert candidates[0].name == requested;
      var k :| 0 <= k < |levels| && levels[k].name == requested;
      assert CameFrom(groups, candidates, levels[k], from[k]);
      assert from[k] == 0;
    }
  }

  lemma Mentioned(policy: Policy, requested: string)
    ensures var names := FallbackNames(policy.fallbackChain, requested);
            forall name :: (exists c :: c in Candidates(policy, requested) && c.name == name) <==>
                             name == requested || name in names || policy.smaller == Some(name)
  {
    var names, candidates := FallbackNames(policy.fallbackChain, requested), Candidates(policy, requested);
    assert candidates[0] == Candidate(requested, NotDegraded);
    forall name | name in names
      ensures Candidate(name, Fallback) in candidates
    {
      var i :| 0 <= i < |names| && names[i] == name;
      assert candidates[1 + i] == Candidate(name, Fallback);
    }
    if policy.smaller.Some? {
      assert candidates[1 + |names|] == Candidate(policy.smaller.value, SmallerModel);
    }
  }

  /** Which of the three parts of the ladder a level comes from. */
  function Rank(d: Degradation): nat {
    match d
    case NotDegraded => 0
    case Fallback => 1
    case SmallerModel => 2
  }

  lemma {:induction false} CandidatesAreRanked(policy: Policy, requested: string)
    ensures var cs, names := Candidates(policy, requested), FallbackNames(policy.fallbackChain, requested);
            && (forall i, j :: 0 <= i < j < |cs| ==> Rank(cs[i].degraded) <= Rank(cs[j].degraded))
            && (forall i :: 0 <= i < |cs| ==> (cs[i].degraded.NotDegraded? <==> i == 0))
            && (forall i :: 1 <= i <= |names| ==> cs[i] == Candidate(names[i - 1], Fallback))
            && (forall i :: |names| < i < |cs| ==> cs[i].degraded.SmallerModel?)
  {
  }

  /**
   * The requested group stands alone at the top, then come fallbacks in the order of the chain, then the smaller
   * model; a level is marked as what it is tried as.
   */
  lemma {:induction false} LadderOrder(groups: map<string, Group>, policy: Policy, requested: string) returns (from: seq<nat>)
    ensures var levels := Kept(groups, Candidates(policy, requested));
            var names := FallbackNames(policy.fallbackChain, requested);
            && |from| == |levels|
            && (forall i, j :: 0 <= i < j < |levels| ==>
                  Rank(levels[i].degraded) <= Rank(levels[j].degraded) && from[i] < from[j])
            && (forall i :: 0 <= i < |levels| ==>
                  && (levels[i].degraded.NotDegraded? ==> levels[i].name == requested)
                  && (levels[i].degraded.Fallback? ==> 1 <= from[i] <= |names| && levels[i].name == names[from[i] - 1])
                  && (levels[i].degraded.SmallerModel? ==>
                        policy.smaller == Some(levels[i].name) && levels[i].name !in names))
  {
    var cs, names := Candidates(policy, requested), FallbackNames(policy.fallbackChain, requested);
    var levels := Kept(groups, cs);
    from := KeptIsFirstMentions(groups, cs);
    CandidatesAreRanked(policy, requested);
    forall i | 0 <= i < |levels|
      ensures from[i] < |cs| && levels[i].name == cs[from[i]].name && levels[i].degraded == cs[from[i]].degraded
      ensures forall j :: 0 <= j < from[i] ==> cs[j].name != levels[i].name
    {
      assert CameFrom(groups, cs, levels[i], from[i]);
    }
    forall i, k | 0 <= i < |levels| && levels[i].degraded.SmallerModel? && 0 <= k < |names|
      ensures names[k] != levels[i].name
    {
      assert cs[k + 1] == Candidate(names[k], Fallback);
    }
  }
}
