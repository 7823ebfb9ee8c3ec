/** API key authentication: a cached lookup that has to agree with a scan of the current tenants. */
module AuthMiddleware {
  import opened Common
  import opened AuthCache

  datatype Settings = Settings(tenants: seq<Tenant>, cacheSize: nat, cacheTtlS: real)

  /** Everything of a tenant but its id. */
  datatype Fingerprint = Fingerprint(apiKeyHash: Hash, plan: string, policy: string, cache: string)

  function FingerprintOf(t: Tenant): Fingerprint {
    Fingerprint(t.apiKeyHash, t.plan, t.policy, t.cache)
  }

  /** A later tenant with the same id replaces an earlier one. */
  function Fingerprints(tenants: seq<Tenant>): map<TenantId, Fingerprint> {
    if tenants == [] then map[]
    else
      var last := tenants[|tenants| - 1];
      Fingerprints(tenants[..|tenants| - 1])[last.id := FingerprintOf(last)]
  }

  /** The first tenant with the key hash. */
  function Find(tenants: seq<Tenant>, key: Hash): Option<Tenant> {
    if tenants == [] then None
    else if tenants[0].apiKeyHash == key then Some(tenants[0])
    else Find(tenants[1..], key)
  }

  /** Middleware state apart from the configuration it reads. */
  datatype Auth = Auth(
    cache: Cache,
    version: int,
    cacheSize: nat,
    cacheTtlS: real,
    fingerprints: map<TenantId, Fingerprint>)

  function Started(s: Settings, version: int): Auth {
    Auth(EMPTY, version, s.cacheSize, s.cacheTtlS, Fingerprints(s.tenants))
  }

  function Changed(before: map<TenantId, Fingerprint>, after: map<TenantId, Fingerprint>): set<TenantId> {
    set id | id in before && !(id in after && after[id] == before[id])
  }

  /** Seen only through a version change: new cache settings empty it, otherwise changed tenants are dropped. */
  function Reset(a: Auth, s: Settings, version: int): Auth {
    if a.version == version then a
    else
      var next := Fingerprints(s.tenants);
      Auth(if (s.cacheSize, s.cacheTtlS) != (a.cacheSize, a.cacheTtlS) then EMPTY
           else Dropped(a.cache, Changed(a.fingerprints, next)),
           version, s.cacheSize, s.cacheTtlS, next)
  }

  function Lookup(a: Auth, s: Settings, key: Hash, now: real): Option<Tenant> {
    if Live(a.cache, key, now) then Some(a.cache.entries[key].tenant) else Find(s.tenants, key)
  }

  function Served(a: Auth, s: Settings, key: Hash, now: real): Auth {
    var got := Got(a.cache, key, now);
    match Lookup(a, s, key, now)
    case None => a.(cache := got)
    case Some(tenant) => a.(cache := PutIn(got, key, tenant, now, a.cacheSize, a.cacheTtlS))
  }

  class ConfigHolder {
    var current: Settings
    var version: int

    constructor (initial: Settings, version: int)
      ensures current == initial && this.version == version
    {
      current, this.version := initial, version;
    }

    method Replace(next: Settings, version: Option<int>)
      modifies this
      ensures current == next && this.version == version.GetOr(old(this.version))
    {
      current := next;
      if version.Some? {
        this.version := version.value;
      }
    }
  }

  class Middleware {
    const config: ConfigHolder
    var cache: AuthCache
    var cacheVersion: int
    var fingerprints: map<TenantId, Fingerprint>

    ghost function View(): Auth
      reads this, cache
    {
      Auth(cache.View(), cacheVersion, cache.capacity, cache.ttlS, fingerprints)
    }

    ghost predicate Valid()
      reads this, cache
    {
      cache.Valid()
    }

    constructor (config: ConfigHolder)
      ensures Valid() && fresh(cache) && this.config == config
      ensures View() == Started(config.current, config.version)
    {
      this.config := config;
      cache := new AuthCache(config.current.cacheSize, config.current.cacheTtlS);
      cacheVersion := config.version;
      fingerprints := Fingerprints(config.current.tenants);
    }

    method Authenticate(key: Hash, now: real) returns (tenant: Option<Tenant>)
      requires Valid()
      modifies this, cache
      ensures Valid() && (cache == old(cache) || fresh(cache))
      ensures var a := Reset(old(View()), config.current, config.version);
              && tenant == Lookup(a, config.current, key, now)
              && View() == Served(a, config.current, key, now)
      ensures config.current == old(config.current) && config.version == old(config.version)
    {
      ResetCacheIfConfigChanged();
      tenant := cache.Get(key, now);
      if tenant.None? {
        tenant := FindTenant(key);
      }
      if tenant.None? {
        return;
      }
      cache.Put(key, tenant.value, now);
    }

    method ResetCacheIfConfigChanged()
      requires Valid()
      modifies this, cache
      ensures Valid() && (cache == old(cache) || fresh(cache))
      ensures View() == Reset(old(View()), config.current, config.version)
      ensures config.current == old(config.current) && config.version == old(config.version)
    {
      if cacheVersion == config.version {
        return;
      }
      var s := config.current;
      var next := Fingerprints(s.tenants);
      if (s.cacheSize, s.cacheTtlS) != (cache.capacity, cache.ttlS) {
        cache := new AuthCache(s.cacheSize, s.cacheTtlS);
      } else {
        ghost var c := cache.View();
        var changed := Changed(fingerprints, next);
        DroppingNone(c);
        ghost var done: set<TenantId> := {};
        ghost var all := changed;
        while changed != {}
          invariant cache == old(cache) && cache.Valid()
          invariant done + changed == all && cache.View() == Dropped(c, done)
          decreases |changed|
        {
          var id :| id in changed;
          DroppingMore(c, done, id);
          cache.InvalidateTenant(id);
          changed := changed - {id};
          done := done + {id};
        }
        assert done == all;
      }
      fingerprints := next;
      cacheVersion := config.version;
    }

    method FindTenant(key: Hash) returns (tenant: Option<Tenant>)
      ensures tenant == Find(config.current.tenants, key)
    {
      var tenants := config.current.tenants;
      for i := 0 to |tenants|
        invariant Find(tenants, key) == Find(tenants[i..], key)
      {
        if tenants[i].apiKeyHash == key {
          return Some(tenants[i]);
        }
        assert tenants[i..][1..] == tenants[i + 1..];
      }
      return None;
    }
  }

  lemma DroppingNone(c: Cache)
    ensures Dropped(c, {}) == c
  {
    SurvivingAll(c.order, c.entries, {});
    assert Dropped(c, {}).entries == c.entries;
  }

  /** Dropping by `first` and then by `second` keeps what dropping by `both` keeps. */
  lemma {:induction false} SurvivingTwice(order: seq<Hash>, entries: map<Hash, Entry>, entries': map<Hash, Entry>,
                                          first: set<TenantId>, second: set<TenantId>, both: set<TenantId>)
    requires forall k :: Belongs(k, entries, both) <==> Belongs(k, entries, first) || Belongs(k, entries', second)
    ensures Surviving(Surviving(order, entries, first), entries', second) == Surviving(order, entries, both)
  {
    if order == [] {
    } else {
      var n := |order| - 1;
      SurvivingTwice(order[..n], entries, entries', first, second, both);
      var kept := Surviving(order[..n], entries, first);
      assert Belongs(order[n], entries, both) <==> Belongs(order[n], entries, first) || Belongs(order[n], entries', second);
      if Belongs(order[n], entries, first) {
        assert Surviving(order, entries, first) == kept;
        assert Surviving(order, entries, both) == Surviving(order[..n], entries, both);
      } else {
        assert Surviving(order, entries, first)[..|kept|] == kept;
      }
    }
  }

  lemma DroppingMore(c: Cache, ids: set<TenantId>, id: TenantId)
    ensures Dropped(Dropped(c, ids), {id}) == Dropped(c, ids + {id})
  {
    SurvivingTwice(c.order, c.entries, Dropped(c, ids).entries, ids, {id}, ids + {id});
    assert Dropped(Dropped(c, ids), {id}).entries == Dropped(c, ids + {id}).entries;
  }

  // ---------------------------------------------------------------------------------------------
  // Agreement with the scan
  // ---------------------------------------------------------------------------------------------

  ghost predicate Unique(tenants: seq<Tenant>) {
    forall i, j :: 0 <= i < j < |tenants| ==>
                     tenants[i].id != tenants[j].id && tenants[i].apiKeyHash != tenants[j].apiKeyHash
  }

  lemma {:induction false} FindIsMembership(tenants: seq<Tenant>, t: Tenant)
    requires Unique(tenants)
    ensures Find(tenants, t.apiKeyHash) == Some(t) <==> t in tenants
  {
    if tenants == [] {
    } else {
      FindIsMembership(tenants[1..], t);
      assert tenants == [tenants[0]] + tenants[1..];
    }
  }

  lemma {:induction false} FindFindsHash(tenants: seq<Tenant>, key: Hash)
    ensures Find(tenants, key).Some? ==> Find(tenants, key).value.apiKeyHash == key
  {
    if tenants == [] {
    } else {
      FindFindsHash(tenants[1..], key);
    }
  }

  lemma {:induction false} FingerprintIsMembership(tenants: seq<Tenant>, t: Tenant)
    requires Unique(tenants)
    ensures t.id in Fingerprints(tenants) && Fingerprints(tenants)[t.id] == FingerprintOf(t) <==> t in tenants
  {
    if tenants == [] {
    } else {
      var n := |tenants| - 1;
      FingerprintIsMembership(tenants[..n], t);
      assert tenants == tenants[..n] + [tenants[n]];
      if t.id == tenants[n].id {
        assert forall i :: 0 <= i < n ==> tenants[..n][i].id != t.id;
        assert FingerprintOf(t) == FingerprintOf(tenants[n]) ==> t == tenants[n];
      }
    }
  }

  /** Everything cached is what a scan of `tenants` finds. */
  ghost predicate Agrees(c: Cache, tenants: seq<Tenant>) {
    forall k :: k in c.entries ==> Find(tenants, k) == Some(c.entries[k].tenant)
  }

  /** a was last brought up to date with s. */
  ghost predicate UpToDate(a: Auth, s: Settings) {
    && a.cacheSize == s.cacheSize && a.cacheTtlS == s.cacheTtlS
    && a.fingerprints == Fingerprints(s.tenants) && Agrees(a.cache, s.tenants)
  }

  /** A version change brings the cache in line with the new tenants. */
  lemma ResetRestoresAgreement(a: Auth, seen: Settings, s: Settings, version: int)
    requires UpToDate(a, seen) && Unique(seen.tenants) && Unique(s.tenants) && a.version != version
    ensures UpToDate(Reset(a, s, version), s)
  {
    var r := Reset(a, s, version);
    forall k | k in r.cache.entries
      ensures Find(s.tenants, k) == Some(r.cache.entries[k].tenant)
    {
      var t := r.cache.entries[k].tenant;
      assert k in a.cache.entries && a.cache.entries[k].tenant == t;
      FindFindsHash(seen.tenants, k);
      FindIsMembership(seen.tenants, t);
      FingerprintIsMembership(seen.tenants, t);
      assert t.id !in Changed(a.fingerprints, Fingerprints(s.tenants));
      FingerprintIsMembership(s.tenants, t);
      FindIsMembership(s.tenants, t);
    }
  }

  lemma ServingKeepsAgreement(a: Auth, s: Settings, key: Hash, now: real)
    requires UpToDate(a, s)
    ensures Lookup(a, s, key, now) == Find(s.tenants, key) && UpToDate(Served(a, s, key, now), s)
  {
    var served := Served(a, s, key, now);
    forall k | k in served.cache.entries
      ensures Find(s.tenants, k) == Some(served.cache.entries[k].tenant)
    {
    }
  }

  /** A request that finds its tenant, cached or not, is good for the whole time to live from then on. */
  lemma RequestRenews(a: Auth, s: Settings, key: Hash, now: real, later: real)
    requires Lookup(a, s, key, now).Some? && 0 < a.cacheSize
    ensures var c := Served(a, s, key, now).cache;
            && key in c.entries && c.entries[key].tenant == Lookup(a, s, key, now).value
            && (Live(c, key, later) <==> later < now + a.cacheTtlS)
  {
    var order := Without(Got(a.cache, key, now).order, key) + [key];
    assert order[|order| - 1] == key;
    assert key in Kept(order, a.cacheSize);
  }

  datatype Event = Replacing(next: Settings, version: int) | Requesting(key: Hash, now: real)

  datatype World = World(settings: Settings, version: int, auth: Auth)

  function After(w: World, e: Event): World {
    match e
    case Replacing(next, version) => World(next, version, w.auth)
    case Requesting(key, now) => w.(auth := Served(Reset(w.auth, w.settings, w.version), w.settings, key, now))
  }

  function Run(initial: Settings, version: int, events: seq<Event>): World {
    if events == [] then World(initial, version, Started(initial, version))
    else After(Run(initial, version, events[..|events| - 1]), events[|events| - 1])
  }

  /** Every replacement carries a version not used before, and tenants are unique in every configuration. */
  ghost predicate FreshVersions(initial: Settings, version: int, events: seq<Event>) {
    && Unique(initial.tenants)
    && (forall i :: 0 <= i < |events| && events[i].Replacing? ==>
                      events[i].version != version && Unique(events[i].next.tenants))
    && (forall i, j :: 0 <= i < j < |events| && events[i].Replacing? && events[j].Replacing? ==>
                         events[i].version != events[j].version)
  }

  ghost predicate UsedVersion(version: int, events: seq<Event>, v: int) {
    v == version || exists i :: 0 <= i < |events| && events[i].Replacing? && events[i].version == v
  }

  /** The middleware is up to date with some configuration: the current one if it has seen its version. */
  ghost predicate Tracked(w: World, seen: Settings) {
    && UpToDate(w.auth, seen) && Unique(seen.tenants) && Unique(w.settings.tenants)
    && (w.auth.version == w.version ==> seen == w.settings)
  }

  lemma {:induction false} RunIsTracked(initial: Settings, version: int, events: seq<Event>) returns (seen: Settings)
    requires FreshVersions(initial, version, events)
    ensures Tracked(Run(initial, version, events), seen)
    ensures UsedVersion(version, events, Run(initial, version, events).auth.version)
    ensures UsedVersion(version, events, Run(initial, version, events).version)
  {
    if events == [] {
      return initial;
    }
    var init, e := events[..|events| - 1], events[|events| - 1];
    assert FreshVersions(initial, version, init);
    seen := RunIsTracked(initial, version, init);
    var w := Run(initial, version, init);
    assert forall v :: UsedVersion(version, init, v) ==> UsedVersion(version, events, v) by {
      assert forall i :: 0 <= i < |init| ==> init[i] == events[i];
    }
    match e {
      case Replacing(next, v) =>
        assert w.auth.version != v;
        assert events[|events| - 1].version == v;
      case Requesting(key, now) =>
        if w.auth.version != w.version {
          ResetRestoresAgreement(w.auth, seen, w.settings, w.version);
          seen := w.settings;
        }
        ServingKeepsAgreement(Reset(w.auth, w.settings, w.version), w.settings, key, now);
    }
  }

  /** In every run with fresh versions, a request is served the tenant that a scan of the config finds. */
  lemma CachedEqualsScan(initial: Settings, version: int, events: seq<Event>, key: Hash, now: real)
    requires FreshVersions(initial, version, events)
    ensures var w := Run(initial, version, events);
            Lookup(Reset(w.auth, w.settings, w.version), w.settings, key, now) == Find(w.settings.tenants, key)
  {
    var w := Run(initial, version, events);
    var seen := RunIsTracked(initial, version, events);
    if w.auth.version != w.version {
      ResetRestoresAgreement(w.auth, seen, w.settings, w.version);
    }
    ServingKeepsAgreement(Reset(w.auth, w.settings, w.version), w.settings, key, now);
  }

  // ---------------------------------------------------------------------------------------------
  // Runs with any versions
  // ---------------------------------------------------------------------------------------------

  /** Tenants are unique in every configuration; versions may repeat. */
  ghost predicate UniqueThroughout(initial: Settings, events: seq<Event>) {
    && Unique(initial.tenants)
    && forall i :: 0 <= i < |events| && events[i].Replacing? ==> Unique(events[i].next.tenants)
  }

  /** A tenant is cached under its own key hash only. */
  ghost predicate Keyed(c: Cache) {
    forall k :: k in c.entries ==> c.entries[k].tenant.apiKeyHash == k
  }

  lemma {:induction false} RunIsKeyed(initial: Settings, version: int, events: seq<Event>)
    requires UniqueThroughout(initial, events)
    ensures Keyed(Run(initial, version, events).auth.cache)
    ensures Unique(Run(initial, version, events).settings.tenants)
  {
    if events == [] {
    } else {
      var init, e := events[..|events| - 1], events[|events| - 1];
      assert forall i :: 0 <= i < |init| ==> init[i] == events[i];
      RunIsKeyed(initial, version, init);
      if e.Requesting? {
        var w := Run(initial, version, init);
        ServingKeepsKeyed(Reset(w.auth, w.settings, w.version), w.settings, e.key, e.now);
      }
    }
  }

  lemma {:induction false} ServingKeepsKeyed(a: Auth, s: Settings, key: Hash, now: real)
    requires Keyed(a.cache)
    ensures Keyed(Served(a, s, key, now).cache)
  {
    FindFindsHash(s.tenants, key);
  }

  /** Some cached tenant that is still alive is no tenant any more, and a reset would not notice. */
  ghost predicate KeepsOutdated(w: World, now: real) {
    var a, s := w.auth, w.settings;
    exists key :: Live(a.cache, key, now) && a.cache.entries[key].tenant !in s.tenants
                     && Overlooked(w, a.cache.entries[key].tenant.id)
  }

  /**
   * No reset is due; or the one that is due keeps this tenant, because its id is in no recorded fingerprint
   * or because the fingerprint recorded for it has not changed.
   */
  predicate Overlooked(w: World, id: TenantId) {
    || w.auth.version == w.version
    || (&& (w.settings.cacheSize, w.settings.cacheTtlS) == (w.auth.cacheSize, w.auth.cacheTtlS)
        && (var next := Fingerprints(w.settings.tenants);
            id in w.auth.fingerprints ==> id in next && next[id] == w.auth.fingerprints[id]))
  }

  /**
   * In every run, whatever versions its configurations carry, all keys are served what a scan finds unless
   * the cache keeps an outdated tenant that the version change, if there was one, does not reveal.
   */
  lemma ServedAsScannedIff(initial: Settings, version: int, events: seq<Event>, now: real)
    requires UniqueThroughout(initial, events)
    ensures var w := Run(initial, version, events);
            (forall key ::
               Lookup(Reset(w.auth, w.settings, w.version), w.settings, key, now) == Find(w.settings.tenants, key))
            <==> !KeepsOutdated(w, now)
  {
    var w := Run(initial, version, events);
    RunIsKeyed(initial, version, events);
    forall key
      ensures Lookup(Reset(w.auth, w.settings, w.version), w.settings, key, now) != Find(w.settings.tenants, key)
              <==> Live(w.auth.cache, key, now) && w.auth.cache.entries[key].tenant !in w.settings.tenants
                   && Overlooked(w, w.auth.cache.entries[key].tenant.id)
    {
      KeyServedAsScannedIff(w, key, now);
    }
  }

  lemma KeyServedAsScannedIff(w: World, key: Hash, now: real)
    requires Keyed(w.auth.cache) && Unique(w.settings.tenants)
    ensures Lookup(Reset(w.auth, w.settings, w.version), w.settings, key, now) != Find(w.settings.tenants, key)
            <==> Live(w.auth.cache, key, now) && w.auth.cache.entries[key].tenant !in w.settings.tenants
                 && Overlooked(w, w.auth.cache.entries[key].tenant.id)
  {
    var r := Reset(w.auth, w.settings, w.version);
    if key in w.auth.cache.entries {
      var t := w.auth.cache.entries[key].tenant;
      FindIsMembership(w.settings.tenants, t);
      assert Live(r.cache, key, now) ==> r.cache.entries[key] == w.auth.cache.entries[key];
      assert Live(r.cache, key, now) <==>
               Live(w.auth.cache, key, now)
               && (w.auth.version == w.version
                   || (&& (w.settings.cacheSize, w.settings.cacheTtlS) == (w.auth.cacheSize, w.auth.cacheTtlS)
                       && t.id !in Changed(w.auth.fingerprints, Fingerprints(w.settings.tenants))));
    }
  }

  lemma RunStep(initial: Settings, version: int, events: seq<Event>, e: Event)
    ensures Run(initial, version, events + [e]) == After(Run(initial, version, events), e)
  {
    assert (events + [e])[..|events|] == events;
  }

  /** The first request of a tenant caches it. */
  lemma FirstRequestCaches(a: Auth, t: Tenant, s: Settings)
    requires a.cache == EMPTY && a.cacheSize == 1 && a.cacheTtlS == 60.0 && s.tenants == [t]
    ensures var c := Served(a, s, t.apiKeyHash, 0.0).cache;
            && Live(c, t.apiKeyHash, 1.0) && c.entries[t.apiKeyHash].tenant == t
            && Served(a, s, t.apiKeyHash, 0.0) == a.(cache := c)
  {
    assert Lookup(a, s, t.apiKeyHash, 0.0) == Some(t);
    assert Without([], t.apiKeyHash) + [t.apiKeyHash] == [t.apiKeyHash];
    var put := PutIn(EMPTY, t.apiKeyHash, t, 0.0, 1, 60.0);
    assert put.order == [t.apiKeyHash] && t.apiKeyHash in put.order;
  }

  /**
   * A reload first replaces the configuration under the old version: until the new one is set, a removed
   * tenant is served.
   */
  lemma ReloadGapServesRemoved(t: Tenant, version: int)
    ensures var s, gone := Settings([t], 1, 60.0), Settings([], 1, 60.0);
            var w := Run(s, version, [Requesting(t.apiKeyHash, 0.0), Replacing(gone, version)]);
            && Lookup(Reset(w.auth, w.settings, w.version), w.settings, t.apiKeyHash, 1.0) == Some(t)
            && Find(w.settings.tenants, t.apiKeyHash) == None
  {
    var s, gone := Settings([t], 1, 60.0), Settings([], 1, 60.0);
    FirstRequestCaches(Started(s, version), t, s);
    RunStep(s, version, [], Requesting(t.apiKeyHash, 0.0));
    RunStep(s, version, [Requesting(t.apiKeyHash, 0.0)], Replacing(gone, version));
    assert [] + [Requesting(t.apiKeyHash, 0.0)] == [Requesting(t.apiKeyHash, 0.0)];
    assert [Requesting(t.apiKeyHash, 0.0)] + [Replacing(gone, version)]
           == [Requesting(t.apiKeyHash, 0.0), Replacing(gone, version)];
  }

  /**
   * Startup puts the stored tenants in place under the version whose fingerprints are already recorded. A
   * tenant served since then is in no fingerprint, so that even a new version does not end its cache entry.
   */
  lemma StartupTenantOutlivesRemoval(t: Tenant, version: int)
    ensures var before, s, gone := Settings([], 1, 60.0), Settings([t], 1, 60.0), Settings([], 1, 60.0);
            var events := [Replacing(s, version), Requesting(t.apiKeyHash, 0.0), Replacing(gone, version + 1)];
            var w := Run(before, version, events);
            && Lookup(Reset(w.auth, w.settings, w.version), w.settings, t.apiKeyHash, 1.0) == Some(t)
            && Find(w.settings.tenants, t.apiKeyHash) == None
  {
    var before, s, gone := Settings([], 1, 60.0), Settings([t], 1, 60.0), Settings([], 1, 60.0);
    var one: seq<Event> := [Replacing(s, version)];
    var two := one + [Requesting(t.apiKeyHash, 0.0)];
    RunStep(before, version, [], Replacing(s, version));
    assert [] + [Replacing(s, version)] == one;
    RunStep(before, version, one, Requesting(t.apiKeyHash, 0.0));
    RunStep(before, version, two, Replacing(gone, version + 1));
    FirstRequestCaches(Started(before, version), t, s);
    assert two + [Replacing(gone, version + 1)]
           == [Replacing(s, version), Requesting(t.apiKeyHash, 0.0), Replacing(gone, version + 1)];
    var w := Run(before, version, two + [Replacing(gone, version + 1)]);
    assert Fingerprints([]) == map[] && Changed(w.auth.fingerprints, Fingerprints(gone.tenants)) == {};
    DroppingNone(w.auth.cache);
  }
}
