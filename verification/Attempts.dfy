/** What the streaming and the non-streaming retry loops share: error categories, levels, picking. */
module Attempts {
  import opened Common
  import opened Routing
  import Breaker

  datatype Category =
    | RetryableUpstream | RateLimitedUpstream | ContentBlocked | TimeoutTtft | TimeoutStall | TimeoutTotal
    | QuotaExceeded | ClientError | Internal

  predicate Retryable(c: Category) {
    c.RetryableUpstream? || c.RateLimitedUpstream? || c.TimeoutTtft?
  }

  /** The failures after which another deployment is tried; any other is the client's answer. */
  const TRANSIENT := {RetryableUpstream, RateLimitedUpstream, TimeoutTtft}

  lemma RetryableIsTransient(c: Category)
    ensures Retryable(c) <==> c in TRANSIENT
  {
  }

  datatype Level = Level(deployments: seq<Deployment>, degraded: bool)

  datatype Pick = Pick(level: nat, deployment: Deployment)

  /** The selector's answer for one level; anything outside the group or excluded is no answer. */
  function Offer(levels: seq<Level>, offers: seq<Option<Deployment>>, exclude: set<Key>, index: nat): Option<Deployment>
    requires index < |levels|
  {
    if index < |offers| && offers[index].Some? && offers[index].value in levels[index].deployments
       && offers[index].value.Key() !in exclude
    then offers[index] else None
  }

  /** The first level from `from` on whose selector finds a deployment. */
  function PickFrom(levels: seq<Level>, offers: seq<Option<Deployment>>, exclude: set<Key>, from: nat): (p: Option<Pick>)
    ensures p.Some? ==>
              && from <= p.value.level < |levels|
              && p.value.deployment in levels[p.value.level].deployments
              && p.value.deployment.Key() !in exclude
    decreases |levels| - from
  {
    if from >= |levels| then None
    else
      var offer := Offer(levels, offers, exclude, from);
      if offer.Some? then Some(Pick(from, offer.value)) else PickFrom(levels, offers, exclude, from + 1)
  }

  /** The pick is the offer of the first level from the current one on that makes any; none iff none does. */
  lemma {:induction false} PickIsFirstOffer(levels: seq<Level>, offers: seq<Option<Deployment>>, exclude: set<Key>,
                                            from: nat)
    ensures var p := PickFrom(levels, offers, exclude, from);
            if p.None? then forall i :: from <= i < |levels| ==> Offer(levels, offers, exclude, i).None?
            else && Offer(levels, offers, exclude, p.value.level) == Some(p.value.deployment)
                 && forall i :: from <= i < p.value.level ==> Offer(levels, offers, exclude, i).None?
    decreases |levels| - from
  {
    if from >= |levels| {
    } else {
      PickIsFirstOffer(levels, offers, exclude, from + 1);
    }
  }

  /** The offers are what the selector answers for each level, each over the tables as it finds them. */
  ghost predicate Selected(c: Breaker.Config, w: Weights, tables: seq<Table>, levels: seq<Level>,
                           offers: seq<Option<Deployment>>, exclude: set<Key>, now: real) {
    && |tables| == |offers| == |levels|
    && forall i :: 0 <= i < |levels| ==>
                     PickedSoundly(c, w, tables[i], levels[i].deployments, exclude, now, offers[i])
  }

  ghost predicate NoneEligible(c: Breaker.Config, t: Table, level: Level, exclude: set<Key>, now: real) {
    forall d :: d in level.deployments ==> !Eligible(c, t, d, exclude, now)
  }

  /** The selector's own answers need no filtering: what they offer is in the level and not excluded. */
  lemma SelectorOffersStand(c: Breaker.Config, w: Weights, tables: seq<Table>, levels: seq<Level>,
                            offers: seq<Option<Deployment>>, exclude: set<Key>, now: real, index: nat)
    requires index < |levels| && Selected(c, w, tables, levels, offers, exclude, now)
    ensures Offer(levels, offers, exclude, index) == offers[index]
    ensures offers[index].None? <==> NoneEligible(c, tables[index], levels[index], exclude, now)
    ensures offers[index].Some? ==> Eligible(c, tables[index], offers[index].value, exclude, now)
  {
    PickIsEligible(c, w, tables[index], levels[index].deployments, exclude, now, offers[index]);
  }

  /**
   * Over the selector's answers a pick is eligible and the selector's choice in the first level that has an
   * eligible deployment; there is no pick iff no level from the current one on has any.
   */
  lemma {:induction false} PickOverSelector(c: Breaker.Config, w: Weights, tables: seq<Table>, levels: seq<Level>,
                                            offers: seq<Option<Deployment>>, exclude: set<Key>, now: real, from: nat)
    requires Selected(c, w, tables, levels, offers, exclude, now)
    ensures var p := PickFrom(levels, offers, exclude, from);
            && (p.None? <==> forall i :: from <= i < |levels| ==> NoneEligible(c, tables[i], levels[i], exclude, now))
            && (p.Some? ==>
                  && offers[p.value.level] == Some(p.value.deployment)
                  && Eligible(c, tables[p.value.level], p.value.deployment, exclude, now)
                  && forall i :: from <= i < p.value.level ==> NoneEligible(c, tables[i], levels[i], exclude, now))
  {
    PickIsFirstOffer(levels, offers, exclude, from);
    forall i: nat | from <= i < |levels|
      ensures Offer(levels, offers, exclude, i).None? <==> NoneEligible(c, tables[i], levels[i], exclude, now)
      ensures Offer(levels, offers, exclude, i).Some? ==>
                Offer(levels, offers, exclude, i) == offers[i] && Eligible(c, tables[i], offers[i].value, exclude, now)
    {
      SelectorOffersStand(c, w, tables, levels, offers, exclude, now, i);
    }
  }

  method PickNextAttempt(levels: seq<Level>, offers: seq<Option<Deployment>>, exclude: set<Key>, from: nat)
    returns (p: Option<Pick>)
    ensures p == PickFrom(levels, offers, exclude, from)
  {
    var index := from;
    while index < |levels|
      invariant from <= index
      invariant PickFrom(levels, offers, exclude, from) == PickFrom(levels, offers, exclude, index)
    {
      var offer := Offer(levels, offers, exclude, index);
      if offer.Some? {
        return Some(Pick(index, offer.value));
      }
      index := index + 1;
    }
    return None;
  }

  /** Pairwise distinct deployments, at levels that never fall back. */
  ghost predicate Disciplined(picks: seq<Pick>) {
    forall i, j :: 0 <= i < j < |picks| ==>
                     picks[i].deployment.Key() != picks[j].deployment.Key() && picks[i].level <= picks[j].level
  }

  /** How a leader leaves its flight. */
  datatype FlightEnd = Open | Resolved | Rejected

  /** A future keeps its first outcome. */
  function Set(f: FlightEnd, end: FlightEnd): FlightEnd {
    if f.Open? then end else f
  }
}
