/** The LRU cache with a time to live that maps API key hashes to tenants, and its two-way tenant index. */
module AuthCache {
  import opened Common

  type Hash = string
  type TenantId = string

  datatype Tenant = Tenant(id: TenantId, apiKeyHash: Hash, plan: string, policy: string, cache: string)

  datatype Entry = Entry(tenant: Tenant, expiresAt: real)

  /** The ordered entry map: `order` runs from the least to the most recently used key. */
  datatype Cache = Cache(order: seq<Hash>, entries: map<Hash, Entry>)

  const EMPTY := Cache([], map[])

  function Without(order: seq<Hash>, key: Hash): seq<Hash> {
    if order == [] then []
    else Without(order[..|order| - 1], key) + if order[|order| - 1] == key then [] else [order[|order| - 1]]
  }

  /** The keys of `order` whose tenants are not in `ids`. */
  function Surviving(order: seq<Hash>, entries: map<Hash, Entry>, ids: set<TenantId>): seq<Hash> {
    if order == [] then []
    else
      var last := order[|order| - 1];
      Surviving(order[..|order| - 1], entries, ids) + if Belongs(last, entries, ids) then [] else [last]
  }

  predicate Belongs(key: Hash, entries: map<Hash, Entry>, ids: set<TenantId>) {
    key in entries && entries[key].tenant.id in ids
  }

  predicate Distinct(order: seq<Hash>) {
    forall i, j :: 0 <= i < j < |order| ==> order[i] != order[j]
  }

  ghost predicate Ordered(c: Cache) {
    Distinct(c.order) && forall k :: k in c.entries <==> k in c.order
  }

  function Removed(c: Cache, key: Hash): Cache {
    Cache(Without(c.order, key), c.entries - {key})
  }

  predicate Live(c: Cache, key: Hash, now: real) {
    key in c.entries && now < c.entries[key].expiresAt
  }

  /** A live hit becomes the most recently used key; an expired entry is dropped. */
  function Got(c: Cache, key: Hash, now: real): Cache {
    if Live(c, key, now) then c.(order := Without(c.order, key) + [key])
    else if key in c.entries then Removed(c, key)
    else c
  }

  /** The most recently used `capacity` keys survive a put, the new one last. */
  function Kept(order: seq<Hash>, capacity: nat): (r: seq<Hash>)
    ensures |r| <= capacity
  {
    if |order| <= capacity then order else order[|order| - capacity..]
  }

  function Restricted(entries: map<Hash, Entry>, order: seq<Hash>): map<Hash, Entry> {
    map k | k in entries && k in order :: entries[k]
  }

  function PutIn(c: Cache, key: Hash, tenant: Tenant, now: real, capacity: nat, ttlS: real): Cache {
    var order := Kept(Without(c.order, key) + [key], capacity);
    var entries := c.entries[key := Entry(tenant, now + ttlS)];
    Cache(order, Restricted(entries, order))
  }

  /** Exactly the entries of the given tenants go. */
  function Dropped(c: Cache, ids: set<TenantId>): Cache {
    Cache(Surviving(c.order, c.entries, ids), map k | k in c.entries && c.entries[k].tenant.id !in ids :: c.entries[k])
  }

  lemma {:induction false} WithoutMembers(order: seq<Hash>, key: Hash)
    ensures forall k :: k in Without(order, key) <==> k in order && k != key
    ensures |Without(order, key)| <= |order|
  {
    if order == [] {
    } else {
      var n := |order| - 1;
      WithoutMembers(order[..n], key);
      assert order == order[..n] + [order[n]];
    }
  }

  lemma {:induction false} SurvivingMembers(order: seq<Hash>, entries: map<Hash, Entry>, ids: set<TenantId>)
    ensures forall k :: k in Surviving(order, entries, ids) <==> k in order && !Belongs(k, entries, ids)
    ensures |Surviving(order, entries, ids)| <= |order|
  {
    if order == [] {
    } else {
      var n := |order| - 1;
      SurvivingMembers(order[..n], entries, ids);
      assert order == order[..n] + [order[n]];
    }
  }

  lemma {:induction false} WithoutDistinct(order: seq<Hash>, key: Hash)
    requires Distinct(order)
    ensures Distinct(Without(order, key))
  {
    if order == [] {
    } else {
      var n := |order| - 1;
      WithoutDistinct(order[..n], key);
      WithoutMembers(order[..n], key);
      assert order[n] !in order[..n];
    }
  }

  lemma {:induction false} WithoutAbsent(order: seq<Hash>, key: Hash)
    requires key !in order
    ensures Without(order, key) == order
  {
    if order == [] {
    } else {
      var n := |order| - 1;
      WithoutAbsent(order[..n], key);
      assert order[n] in order;
      assert order == order[..n] + [order[n]];
    }
  }

  lemma {:induction false} WithoutPresent(order: seq<Hash>, key: Hash)
    requires Distinct(order) && key in order
    ensures |Without(order, key)| == |order| - 1
  {
    var n := |order| - 1;
    if order[n] == key {
      assert key !in order[..n];
      WithoutAbsent(order[..n], key);
    } else {
      assert key in order[..n];
      WithoutPresent(order[..n], key);
    }
  }

  lemma {:induction false} SurvivingDistinct(order: seq<Hash>, entries: map<Hash, Entry>, ids: set<TenantId>)
    requires Distinct(order)
    ensures Distinct(Surviving(order, entries, ids))
  {
    if order == [] {
    } else {
      var n := |order| - 1;
      SurvivingDistinct(order[..n], entries, ids);
      SurvivingMembers(order[..n], entries, ids);
      assert order[n] !in order[..n];
    }
  }

  lemma RemovedOrdered(c: Cache, key: Hash)
    requires Ordered(c)
    ensures Ordered(Removed(c, key)) && |Removed(c, key).order| <= |c.order|
  {
    WithoutDistinct(c.order, key);
    WithoutMembers(c.order, key);
  }

  lemma GotOrdered(c: Cache, key: Hash, now: real)
    requires Ordered(c)
    ensures Ordered(Got(c, key, now)) && |Got(c, key, now).order| <= |c.order|
  {
    WithoutDistinct(c.order, key);
    WithoutMembers(c.order, key);
    if key in c.entries {
      WithoutPresent(c.order, key);
    }
  }

  lemma DistinctSnoc(order: seq<Hash>, key: Hash)
    requires Distinct(order) && key !in order
    ensures Distinct(order + [key])
  {
  }

  lemma KeptTail(order: seq<Hash>, capacity: nat)
    requires capacity < |order|
    ensures Kept(order[1..], capacity) == Kept(order, capacity)
  {
  }

  lemma Relinked(entries: map<Hash, Entry>, key: Hash, entry: Entry)
    ensures (entries - {key})[key := entry] == entries[key := entry]
  {
  }

  /** Evicting the least recently used key. */
  lemma TailOrdered(c: Cache, all: map<Hash, Entry>)
    requires Ordered(c) && c.order != [] && c.entries == Restricted(all, c.order)
    ensures var oldest, rest := c.order[0], c.order[1..];
            Ordered(Cache(rest, c.entries - {oldest})) && c.entries - {oldest} == Restricted(all, rest)
  {
    var oldest, rest := c.order[0], c.order[1..];
    HeadApart(c.order);
    assert forall k :: k in c.entries - {oldest} <==> k in rest;
    assert forall k :: k in c.entries - {oldest} <==> k in Restricted(all, rest);
  }

  lemma HeadApart(order: seq<Hash>)
    requires Distinct(order) && order != []
    ensures order[0] !in order[1..] && Distinct(order[1..])
    ensures forall k :: k in order <==> k == order[0] || k in order[1..]
  {
    assert order == [order[0]] + order[1..];
  }

  lemma PutOrdered(c: Cache, key: Hash, tenant: Tenant, now: real, capacity: nat, ttlS: real)
    requires Ordered(c)
    ensures Ordered(PutIn(c, key, tenant, now, capacity, ttlS))
    ensures |PutIn(c, key, tenant, now, capacity, ttlS).order| <= capacity
  {
    WithoutDistinct(c.order, key);
    WithoutMembers(c.order, key);
    var full := Without(c.order, key) + [key];
    DistinctSnoc(Without(c.order, key), key);
    var kept := Kept(full, capacity);
    assert forall k :: k in kept ==> k in full;
  }

  lemma DroppedOrdered(c: Cache, ids: set<TenantId>)
    requires Ordered(c)
    ensures Ordered(Dropped(c, ids)) && |Dropped(c, ids).order| <= |c.order|
  {
    SurvivingDistinct(c.order, c.entries, ids);
    SurvivingMembers(c.order, c.entries, ids);
  }

  // ---------------------------------------------------------------------------------------------
  // The cache as an object
  // ---------------------------------------------------------------------------------------------

  /** The two tenant indexes are each other's inverse, cover exactly the entries, and hold no empty set. */
  ghost predicate Indexed(entries: map<Hash, Entry>, keysByTenant: map<TenantId, set<Hash>>,
                          tenantByKey: map<Hash, TenantId>) {
    && tenantByKey.Keys == entries.Keys
    && (forall k :: k in entries ==> tenantByKey[k] == entries[k].tenant.id)
    && (forall id :: id in keysByTenant ==> keysByTenant[id] != {})
    && (forall id, k :: id in keysByTenant && k in keysByTenant[id] ==> k in tenantByKey && tenantByKey[k] == id)
    && (forall k :: k in tenantByKey ==> tenantByKey[k] in keysByTenant && k in keysByTenant[tenantByKey[k]])
  }

  lemma IndexedAfterLink(entries: map<Hash, Entry>, keysByTenant: map<TenantId, set<Hash>>,
                         tenantByKey: map<Hash, TenantId>, key: Hash, entry: Entry)
    requires Indexed(entries, keysByTenant, tenantByKey) && key !in entries
    ensures var id := entry.tenant.id;
            Indexed(entries[key := entry], keysByTenant[id := MapOr(keysByTenant, id, {}) + {key}], tenantByKey[key := id])
  {
    var id := entry.tenant.id;
    var keysByTenant' := keysByTenant[id := MapOr(keysByTenant, id, {}) + {key}];
    assert keysByTenant'[id] != {} by {
      assert key in keysByTenant'[id];
    }
  }

  lemma OrderedAfterLink(c: Cache, key: Hash, entry: Entry)
    requires Ordered(c) && key !in c.entries
    ensures Ordered(Cache(c.order + [key], c.entries[key := entry]))
  {
    DistinctSnoc(c.order, key);
  }

  class AuthCache {
    const capacity: nat
    const ttlS: real
    var order: seq<Hash>
    var entries: map<Hash, Entry>
    var keysByTenant: map<TenantId, set<Hash>>
    var tenantByKey: map<Hash, TenantId>

    ghost function View(): Cache
      reads this
    {
      Cache(order, entries)
    }

    /** Entries, use order and tenant index agree, within the capacity. */
    ghost predicate Valid()
      reads this
    {
      && Ordered(View()) && |order| <= capacity
      && Indexed(entries, keysByTenant, tenantByKey)
    }

    constructor (capacity: nat, ttlS: real)
      ensures Valid() && View() == EMPTY && this.capacity == capacity && this.ttlS == ttlS
    {
      this.capacity, this.ttlS := capacity, ttlS;
      order, entries, keysByTenant, tenantByKey := [], map[], map[], map[];
    }

    method Get(key: Hash, now: real) returns (tenant: Option<Tenant>)
      requires Valid()
      modifies this
      ensures Valid() && View() == Got(old(View()), key, now)
      ensures tenant == if Live(old(View()), key, now) then Some(old(entries)[key].tenant) else None
    {
      if key !in entries {
        return None;
      }
      var entry := entries[key];
      if entry.expiresAt <= now {
        Remove(key);
        return None;
      }
      GotOrdered(View(), key, now);
      order := Without(order, key) + [key];
      return Some(entry.tenant);
    }

    method Put(key: Hash, tenant: Tenant, now: real)
      requires Valid()
      modifies this
      ensures Valid() && View() == PutIn(old(View()), key, tenant, now, capacity, ttlS)
    {
      Relinked(entries, key, Entry(tenant, now + ttlS));
      Remove(key);
      Link(key, tenant, now);
      EvictOldest();
    }

    /** Adds an entry as the most recent one and indexes it both ways. */
    method Link(key: Hash, tenant: Tenant, now: real)
      requires Ordered(View()) && Indexed(entries, keysByTenant, tenantByKey) && key !in entries
      modifies this
      ensures Ordered(View()) && Indexed(entries, keysByTenant, tenantByKey)
      ensures order == old(order) + [key] && entries == old(entries)[key := Entry(tenant, now + ttlS)]
    {
      IndexedAfterLink(entries, keysByTenant, tenantByKey, key, Entry(tenant, now + ttlS));
      OrderedAfterLink(View(), key, Entry(tenant, now + ttlS));
      entries := entries[key := Entry(tenant, now + ttlS)];
      order := order + [key];
      keysByTenant := keysByTenant[tenant.id := MapOr(keysByTenant, tenant.id, {}) + {key}];
      tenantByKey := tenantByKey[key := tenant.id];
    }

    method EvictOldest()
      requires Ordered(View()) && Indexed(entries, keysByTenant, tenantByKey)
      modifies this
      ensures Ordered(View()) && Indexed(entries, keysByTenant, tenantByKey)
      ensures order == Kept(old(order), capacity) && entries == Restricted(old(entries), order)
    {
      ghost var full, all := order, entries;
      assert Restricted(all, full) == all;
      while |order| > capacity
        invariant Ordered(View()) && Indexed(entries, keysByTenant, tenantByKey)
        invariant Kept(order, capacity) == Kept(full, capacity)
        invariant entries == Restricted(all, order)
        decreases |order|
      {
        TailOrdered(View(), all);
        KeptTail(order, capacity);
        PopOldest();
      }
    }

    /** popitem(last=False), and the index entry with it. */
    method PopOldest()
      requires Indexed(entries, keysByTenant, tenantByKey) && order != []
      modifies this
      ensures Indexed(entries, keysByTenant, tenantByKey)
      ensures order == old(order)[1..] && entries == old(entries) - {old(order)[0]}
    {
      var oldest := order[0];
      ghost var before := entries;
      order := order[1..];
      entries := entries - {oldest};
      RemoveIndex(oldest, before);
    }

    method InvalidateTenant(id: TenantId)
      requires Valid()
      modifies this
      ensures Valid() && View() == Dropped(old(View()), {id})
    {
      ghost var c := View();
      var keys := MapOr(keysByTenant, id, {});
      while keys != {}
        invariant Valid()
        invariant forall k :: k in keys <==> k in entries && entries[k].tenant.id == id
        invariant Dropped(View(), {id}) == Dropped(c, {id})
        decreases |keys|
      {
        var key :| key in keys;
        RemovalCommutes(View(), key, id);
        Remove(key);
        keys := keys - {key};
      }
      NothingToDrop(View(), id);
    }

    method Remove(key: Hash)
      requires Valid()
      modifies this
      ensures Valid() && View() == Removed(old(View()), key)
    {
      RemovedOrdered(View(), key);
      ghost var before := entries;
      order := Without(order, key);
      entries := entries - {key};
      RemoveIndex(key, before);
    }

    /** Called when the entry is already gone; the index still fits the entries as they were before. */
    method RemoveIndex(key: Hash, ghost before: map<Hash, Entry>)
      requires Indexed(before, keysByTenant, tenantByKey) && entries == before - {key}
      modifies this`keysByTenant, this`tenantByKey
      ensures Indexed(entries, keysByTenant, tenantByKey)
    {
      if key !in tenantByKey {
        return;
      }
      var id := tenantByKey[key];
      tenantByKey := tenantByKey - {key};
      if id !in keysByTenant {
        return;
      }
      var keys := keysByTenant[id] - {key};
      if keys == {} {
        keysByTenant := keysByTenant - {id};
      } else {
        keysByTenant := keysByTenant[id := keys];
      }
    }
  }

  lemma {:induction false} SurvivingWithout(order: seq<Hash>, entries: map<Hash, Entry>, key: Hash, ids: set<TenantId>)
    requires key in entries && entries[key].tenant.id in ids
    ensures Surviving(Without(order, key), entries - {key}, ids) == Surviving(order, entries, ids)
  {
    if order == [] {
    } else {
      var init, last := order[..|order| - 1], order[|order| - 1];
      SurvivingWithout(init, entries, key, ids);
      SurvivingSnoc(Without(init, key), last, entries - {key}, ids);
      assert last != key ==> (Belongs(last, entries - {key}, ids) <==> Belongs(last, entries, ids));
      assert Without(init, key) + [] == Without(init, key) && Surviving(init, entries, ids) + [] == Surviving(init, entries, ids);
    }
  }

  lemma {:induction false} SurvivingSnoc(order: seq<Hash>, last: Hash, entries: map<Hash, Entry>, ids: set<TenantId>)
    ensures Surviving(order + [last], entries, ids)
            == Surviving(order, entries, ids) + if Belongs(last, entries, ids) then [] else [last]
  {
    assert (order + [last])[..|order|] == order;
  }

  /** Removing one of a tenant's keys first does not change what dropping the tenant leaves. */
  lemma RemovalCommutes(c: Cache, key: Hash, id: TenantId)
    requires key in c.entries && c.entries[key].tenant.id == id
    ensures Dropped(Removed(c, key), {id}) == Dropped(c, {id})
  {
    SurvivingWithout(c.order, c.entries, key, {id});
    assert Dropped(Removed(c, key), {id}).entries == Dropped(c, {id}).entries;
  }

  lemma {:induction false} SurvivingAll(order: seq<Hash>, entries: map<Hash, Entry>, ids: set<TenantId>)
    requires forall i :: 0 <= i < |order| ==> !Belongs(order[i], entries, ids)
    ensures Surviving(order, entries, ids) == order
  {
    if order == [] {
    } else {
      var n := |order| - 1;
      SurvivingAll(order[..n], entries, ids);
      assert order == order[..n] + [order[n]];
    }
  }

  lemma NothingToDrop(c: Cache, id: TenantId)
    requires forall k :: k in c.entries ==> c.entries[k].tenant.id != id
    ensures Dropped(c, {id}) == c
  {
    SurvivingAll(c.order, c.entries, {id});
    assert Dropped(c, {id}).entries == c.entries;
  }

  // ---------------------------------------------------------------------------------------------
  // Least recently used
  // ---------------------------------------------------------------------------------------------

  datatype Op =
    | Getting(key: Hash, now: real)
    | Putting(key: Hash, tenant: Tenant, now: real)
    | Dropping(ids: set<TenantId>)

  function After(c: Cache, op: Op, capacity: nat, ttlS: real): Cache {
    match op
    case Getting(key, now) => Got(c, key, now)
    case Putting(key, tenant, now) => PutIn(c, key, tenant, now, capacity, ttlS)
    case Dropping(ids) => Dropped(c, ids)
  }

  function Run(ops: seq<Op>, capacity: nat, ttlS: real): Cache {
    if ops == [] then EMPTY else After(Run(ops[..|ops| - 1], capacity, ttlS), ops[|ops| - 1], capacity, ttlS)
  }

  /** The number of the last operation that read or wrote `key`, counting from 1; 0 for none. */
  function LastUse(ops: seq<Op>, key: Hash): nat {
    if ops == [] then 0
    else
      var op := ops[|ops| - 1];
      if !op.Dropping? && op.key == key then |ops| else LastUse(ops[..|ops| - 1], key)
  }

  lemma {:induction false} LastUseBound(ops: seq<Op>, key: Hash)
    ensures LastUse(ops, key) <= |ops|
  {
    if ops == [] {
    } else {
      LastUseBound(ops[..|ops| - 1], key);
    }
  }

  ghost predicate ByUse(order: seq<Hash>, ops: seq<Op>) {
    forall i, j :: 0 <= i < j < |order| ==> LastUse(ops, order[i]) < LastUse(ops, order[j])
  }

  lemma {:induction false} WithoutKeepsByUse(order: seq<Hash>, key: Hash, ops: seq<Op>)
    requires ByUse(order, ops)
    ensures ByUse(Without(order, key), ops)
  {
    if order == [] {
    } else {
      var n := |order| - 1;
      WithoutKeepsByUse(order[..n], key, ops);
      WithoutMembers(order[..n], key);
      LastIsLatest(order, Without(order[..n], key), ops);
    }
  }

  /** Any of the earlier keys was used before the last one. */
  lemma LastIsLatest(order: seq<Hash>, kept: seq<Hash>, ops: seq<Op>)
    requires order != [] && ByUse(order, ops) && forall k :: k in kept ==> k in order[..|order| - 1]
    ensures forall i :: 0 <= i < |kept| ==> LastUse(ops, kept[i]) < LastUse(ops, order[|order| - 1])
  {
    var n := |order| - 1;
    forall i | 0 <= i < |kept|
      ensures LastUse(ops, kept[i]) < LastUse(ops, order[n])
    {
      assert kept[i] in kept;
      var k :| 0 <= k < n && order[..n][k] == kept[i];
      assert order[k] == kept[i];
    }
  }

  lemma {:induction false} SurvivingKeepsByUse(order: seq<Hash>, entries: map<Hash, Entry>, ids: set<TenantId>,
                                               ops: seq<Op>)
    requires ByUse(order, ops)
    ensures ByUse(Surviving(order, entries, ids), ops)
  {
    if order == [] {
    } else {
      var n := |order| - 1;
      SurvivingKeepsByUse(order[..n], entries, ids, ops);
      SurvivingMembers(order[..n], entries, ids);
      LastIsLatest(order, Surviving(order[..n], entries, ids), ops);
    }
  }

  /** An operation on `key` makes it the most recent and leaves the others' uses alone. */
  lemma UseMoves(order: seq<Hash>, key: Hash, init: seq<Op>, op: Op)
    requires ByUse(order, init) && !op.Dropping? && op.key == key && key !in order
    ensures ByUse(order, init + [op]) && ByUse(order + [key], init + [op])
  {
    var ops := init + [op];
    assert ops[..|init|] == init;
    forall k | k in order
      ensures LastUse(ops, k) == LastUse(init, k) <= |init|
    {
      LastUseBound(init, k);
    }
  }

  lemma StepKeepsLru(c: Cache, init: seq<Op>, op: Op, capacity: nat, ttlS: real)
    requires Ordered(c) && ByUse(c.order, init)
    ensures Ordered(After(c, op, capacity, ttlS)) && ByUse(After(c, op, capacity, ttlS).order, init + [op])
    ensures |c.order| <= capacity ==> |After(c, op, capacity, ttlS).order| <= capacity
  {
    var ops := init + [op];
    assert ops[..|init|] == init;
    match op {
      case Getting(key, now) =>
        GotOrdered(c, key, now);
        WithoutKeepsByUse(c.order, key, init);
        WithoutMembers(c.order, key);
        UseMoves(Without(c.order, key), key, init, op);
        if key !in c.entries {
          WithoutAbsent(c.order, key);
        }
      case Putting(key, tenant, now) =>
        PutOrdered(c, key, tenant, now, capacity, ttlS);
        WithoutKeepsByUse(c.order, key, init);
        WithoutMembers(c.order, key);
        UseMoves(Without(c.order, key), key, init, op);
      case Dropping(ids) =>
        DroppedOrdered(c, ids);
        SurvivingKeepsByUse(c.order, c.entries, ids, init);
        assert forall k :: LastUse(ops, k) == LastUse(init, k);
    }
  }

  /** In every run the cache lists its keys in order of their last use, and holds at most `capacity`. */
  lemma {:induction false} OrderIsLru(ops: seq<Op>, capacity: nat, ttlS: real)
    ensures var c := Run(ops, capacity, ttlS); Ordered(c) && |c.order| <= capacity && ByUse(c.order, ops)
  {
    if ops == [] {
    } else {
      var init := ops[..|ops| - 1];
      OrderIsLru(init, capacity, ttlS);
      StepKeepsLru(Run(init, capacity, ttlS), init, ops[|ops| - 1], capacity, ttlS);
      assert ops == init + [ops[|ops| - 1]];
    }
  }

  // ---------------------------------------------------------------------------------------------
  // Time to live and capacity
  // ---------------------------------------------------------------------------------------------

  /** The last tenant put under a key, and when. */
  function LastPut(ops: seq<Op>, key: Hash): Option<(Tenant, real)> {
    if ops == [] then None
    else
      var op := ops[|ops| - 1];
      if op.Putting? && op.key == key then Some((op.tenant, op.now)) else LastPut(ops[..|ops| - 1], key)
  }

  lemma {:induction false} EntryIsLastPut(ops: seq<Op>, capacity: nat, ttlS: real, key: Hash)
    ensures var c := Run(ops, capacity, ttlS);
            key in c.entries ==>
              && LastPut(ops, key).Some?
              && c.entries[key] == Entry(LastPut(ops, key).value.0, LastPut(ops, key).value.1 + ttlS)
  {
    if ops == [] {
    } else {
      EntryIsLastPut(ops[..|ops| - 1], capacity, ttlS, key);
    }
  }

  /**
   * In every run a cached tenant is the last one put under its key, and served for exactly the time to live
   * since then.
   */
  lemma ServedForTtl(ops: seq<Op>, capacity: nat, ttlS: real, key: Hash, now: real)
    requires key in Run(ops, capacity, ttlS).entries
    ensures LastPut(ops, key).Some?
    ensures Run(ops, capacity, ttlS).entries[key].tenant == LastPut(ops, key).value.0
    ensures Live(Run(ops, capacity, ttlS), key, now) <==> now < LastPut(ops, key).value.1 + ttlS
    ensures key in Got(Run(ops, capacity, ttlS), key, now).entries <==> now < LastPut(ops, key).value.1 + ttlS
  {
    EntryIsLastPut(ops, capacity, ttlS, key);
  }

  /** A put evicts only what exceeds the capacity, and of that the least recently used: the rest keeps its order. */
  lemma PutEvictsOverflowOnly(c: Cache, key: Hash, tenant: Tenant, now: real, capacity: nat, ttlS: real)
    ensures var order := Without(c.order, key) + [key];
            var put := PutIn(c, key, tenant, now, capacity, ttlS);
            && |put.order| == MinInt(capacity, |order|)
            && (forall i :: 0 <= i < |put.order| ==> put.order[i] == order[|order| - |put.order| + i])
            && (forall k :: k in put.order && k != key && k in c.entries ==>
                  k in put.entries && put.entries[k] == c.entries[k])
  {
  }
}
