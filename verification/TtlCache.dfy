/** The TTL cache: atomic lookups and stores under one lock, interleaved with the clock. */
module TtlCacheModel {
  import opened Common

  datatype Entry<V> = Entry(value: V, storedAt: nat)

  datatype Cache<K, V> = Cache(entries: map<K, Entry<V>>, hits: nat, misses: nat, expirations: nat, evictions: nat)

  datatype Limits = Limits(ttl: nat, maxEntries: nat)

  function Empty<K, V>(): Cache<K, V> {
    Cache(map[], 0, 0, 0, 0)
  }

  predicate Live<V>(l: Limits, e: Entry<V>, now: nat) {
    SaturatingSub(now, e.storedAt) < l.ttl
  }

  function Probe<K, V>(l: Limits, c: Cache<K, V>, key: K, now: nat): (Option<V>, Cache<K, V>) {
    if key !in c.entries then (None, c.(misses := c.misses + 1))
    else if Live(l, c.entries[key], now) then (Some(c.entries[key].value), c.(hits := c.hits + 1))
    else (None, c.(entries := c.entries - {key}, expirations := c.expirations + 1, misses := c.misses + 1))
  }

  /** Drop what is past its TTL. */
  function Retained<K, V>(l: Limits, c: Cache<K, V>, now: nat): Cache<K, V> {
    var kept := map k | k in c.entries && Live(l, c.entries[k], now) :: c.entries[k];
    c.(entries := kept, evictions := c.evictions + SaturatingSub(|c.entries|, |kept|))
  }

  /** No entry is older. Several may be equally old: the hash map's order decides between them. */
  predicate Oldest<K, V>(entries: map<K, Entry<V>>, key: K) {
    key in entries && forall k :: k in entries ==> entries[key].storedAt <= entries[k].storedAt
  }

  predicate MakesRoom<K, V>(l: Limits, c: Cache<K, V>, key: K) {
    |c.entries| >= l.maxEntries && key !in c.entries
  }

  /** Insert, with the entry the hash map yields as the oldest in case one has to go. */
  function Insert<K, V>(l: Limits, c: Cache<K, V>, key: K, value: V, now: nat, victim: K): Cache<K, V> {
    var c1 := if MakesRoom(l, c, key) then Retained(l, c, now) else c;
    var c2 := if MakesRoom(l, c, key) && |c1.entries| >= l.maxEntries
              then c1.(entries := c1.entries - {victim}, evictions := c1.evictions + 1) else c1;
    c2.(entries := c2.entries[key := Entry(value, now)])
  }

  predicate VictimIsOldest<K, V>(l: Limits, c: Cache<K, V>, key: K, now: nat, victim: K) {
    var c1 := Retained(l, c, now);
    MakesRoom(l, c, key) && |c1.entries| >= l.maxEntries ==> Oldest(c1.entries, victim)
  }

  // ── The object ──

  class TtlCache<K(==, !new), V(!new)> {
    const limits: Limits
    var entries: map<K, Entry<V>>
    var hits: nat
    var misses: nat
    var expirations: nat
    var evictions: nat

    function State(): Cache<K, V>
      reads this
    {
      Cache(entries, hits, misses, expirations, evictions)
    }

    constructor (ttl: nat, maxEntries: nat)
      ensures limits == Limits(ttl, Max(maxEntries, 1)) && State() == Empty()
    {
      limits := Limits(ttl, Max(maxEntries, 1));
      entries, hits, misses, expirations, evictions := map[], 0, 0, 0, 0;
    }

    method Lookup(key: K, now: nat) returns (r: Option<V>)
      modifies this
      ensures (r, State()) == old(Probe(limits, State(), key, now))
    {
      if key !in entries {
        misses := misses + 1;
        return None;
      }
      if Live(limits, entries[key], now) {
        hits := hits + 1;
        return Some(entries[key].value);
      }
      entries := entries - {key};
      expirations := expirations + 1;
      misses := misses + 1;
      r := None;
    }

    /** The minimum over the map, in whatever order its keys come. */
    method FindOldest() returns (oldest: K)
      requires entries.Keys != {}
      ensures Oldest(entries, oldest)
    {
      oldest :| oldest in entries.Keys;
      var rest := entries.Keys - {oldest};
      while rest != {}
        invariant rest <= entries.Keys && oldest in entries
        invariant forall k :: k in entries && k !in rest ==> entries[oldest].storedAt <= entries[k].storedAt
        decreases |rest|
      {
        var k :| k in rest;
        rest := rest - {k};
        if entries[k].storedAt < entries[oldest].storedAt {
          oldest := k;
        }
      }
    }

    method Store(key: K, value: V, now: nat) returns (ghost victim: K)
      requires limits.maxEntries >= 1
      modifies this
      ensures old(VictimIsOldest(limits, State(), key, now, victim))
      ensures State() == old(Insert(limits, State(), key, value, now, victim))
    {
      victim := key;
      if |entries| >= limits.maxEntries && key !in entries {
        var before := |entries|;
        entries := map k | k in entries && Live(limits, entries[k], now) :: entries[k];
        evictions := evictions + SaturatingSub(before, |entries|);
        if |entries| >= limits.maxEntries {
          assert |entries.Keys| == |entries| > 0;
          var oldest := FindOldest();
          victim := oldest;
          entries := entries - {oldest};
          evictions := evictions + 1;
        }
      }
      entries := entries[key := Entry(value, now)];
    }

    /** Alone on the cache: a disabled one only computes, a hit computes nothing, and what was computed
        is stored and served until its TTL is over. */
    method GetOrInsertWith(key: K, computed: Option<V>, now: nat, later: nat) returns (r: Option<V>, ghost victim: K)
      requires limits.maxEntries >= 1 && now <= later
      modifies this
      ensures limits.ttl == 0 ==> r == computed && State() == old(State())
      ensures limits.ttl > 0 ==>
                var (hit, c) := old(Probe(limits, State(), key, now));
                && r == (if hit.Some? then hit else computed)
                && (hit.Some? || computed.None? ==> State() == c)
                && (hit.None? && computed.Some? ==>
                      && VictimIsOldest(limits, c, key, later, victim)
                      && State() == Insert(limits, c, key, computed.value, later, victim)
                      && forall t :: later <= t < later + limits.ttl ==>
                           Probe(limits, State(), key, t).0 == computed)
    {
      victim := key;
      if limits.ttl == 0 {
        return computed, key;
      }
      r := Lookup(key, now);
      if r.Some? || computed.None? {
        return;
      }
      victim := Store(key, computed.value, later);
      r := computed;
    }
  }

  // ── What each step keeps ──

  /** A lookup serves an entry exactly while it is younger than the TTL, drops exactly the entry it finds
      expired, and touches no other. */
  lemma LookupServes<K, V>(l: Limits, c: Cache<K, V>, key: K, now: nat, other: K)
    requires key in c.entries ==> c.entries[key].storedAt <= now
    ensures var (hit, c') := Probe(l, c, key, now);
            && (hit.Some? <==> key in c.entries && now - c.entries[key].storedAt < l.ttl)
            && (hit.Some? ==> hit.value == c.entries[key].value && c'.entries == c.entries)
            && (key in c'.entries <==> hit.Some?)
            && (other != key ==>
                  && (other in c'.entries <==> other in c.entries)
                  && (other in c.entries ==> c'.entries[other] == c.entries[other]))
            && c'.expirations == c.expirations + (if key in c.entries && hit.None? then 1 else 0)
            && c'.hits == c.hits + (if hit.Some? then 1 else 0)
  {
  }

  ghost function StillLive<K, V>(l: Limits, c: Cache<K, V>, now: nat): set<K> {
    set k | k in c.entries && SaturatingSub(now, c.entries[k].storedAt) < l.ttl
  }

  /** A store drops nothing while there is room or the key is there already. When full, it drops what has
      expired, and one of the oldest live entries only if the live ones alone fill the cache. */
  lemma StoreDropsOnlyWhatItMust<K, V>(l: Limits, c: Cache<K, V>, key: K, value: V, now: nat, victim: K, other: K)
    requires VictimIsOldest(l, c, key, now, victim) && other in c.entries && other != key
    ensures var c' := Insert(l, c, key, value, now, victim);
            var full := |c.entries| >= l.maxEntries && key !in c.entries;
            var live := StillLive(l, c, now);
            && (other in c'.entries <==>
                  !full || (other in live && !(|live| >= l.maxEntries && other == victim)))
            && (other in c'.entries ==> c'.entries[other] == c.entries[other])
            && (full && |live| >= l.maxEntries ==>
                  victim in live && forall k :: k in live ==> c.entries[victim].storedAt <= c.entries[k].storedAt)
  {
    var kept := Retained(l, c, now).entries;
    assert kept.Keys == StillLive(l, c, now);
    assert |kept.Keys| == |kept|;
    if MakesRoom(l, c, key) && |kept| >= l.maxEntries {
      assert forall k :: k in StillLive(l, c, now) ==> k in kept && kept[k] == c.entries[k];
    }
  }

  // ── Runs: any interleaving of the atomic steps of any number of callers ──

  datatype CacheOp<K, V> = Look(key: K) | Put(key: K, value: V, victim: K) | Clear | Tick(elapsed: nat)

  datatype Run<K, V> = Run(cache: Cache<K, V>, now: nat)

  function After<K, V>(l: Limits, ops: seq<CacheOp<K, V>>): Run<K, V> {
    if ops == [] then Run(Empty(), 0)
    else
      var r := After(l, ops[..|ops| - 1]);
      match ops[|ops| - 1]
      case Look(key) => r.(cache := Probe(l, r.cache, key, r.now).1)
      case Put(key, value, victim) => r.(cache := Insert(l, r.cache, key, value, r.now, victim))
      case Clear => r.(cache := r.cache.(entries := map[]))
      case Tick(elapsed) => r.(now := r.now + elapsed)
  }

  /** Every victim was an oldest entry when it was dropped. */
  ghost predicate Possible<K, V>(l: Limits, ops: seq<CacheOp<K, V>>) {
    ops != [] ==>
      var r, op := After(l, ops[..|ops| - 1]), ops[|ops| - 1];
      && Possible(l, ops[..|ops| - 1])
      && (op.Put? ==> VictimIsOldest(l, r.cache, op.key, r.now, op.victim))
  }

  function Lookups<K, V>(ops: seq<CacheOp<K, V>>): nat {
    if ops == [] then 0 else Lookups(ops[..|ops| - 1]) + (if ops[|ops| - 1].Look? then 1 else 0)
  }

  /** How many stores were of a key not in the cache at that moment. */
  function NewKeys<K(==), V>(l: Limits, ops: seq<CacheOp<K, V>>): nat {
    if ops == [] then 0
    else
      var op := ops[|ops| - 1];
      NewKeys(l, ops[..|ops| - 1]) +
      (if op.Put? && op.key !in After(l, ops[..|ops| - 1]).cache.entries then 1 else 0)
  }

  function Cleared<K(==), V>(l: Limits, ops: seq<CacheOp<K, V>>): nat {
    if ops == [] then 0
    else Cleared(l, ops[..|ops| - 1]) +
         (if ops[|ops| - 1].Clear? then |After(l, ops[..|ops| - 1]).cache.entries| else 0)
  }

  /** The last value stored under a key, and when. */
  function LastPut<K(==), V>(l: Limits, ops: seq<CacheOp<K, V>>, key: K): Option<Entry<V>> {
    if ops == [] then None
    else
      var op := ops[|ops| - 1];
      if op.Put? && op.key == key then Some(Entry(op.value, After(l, ops[..|ops| - 1]).now))
      else LastPut(l, ops[..|ops| - 1], key)
  }

  ghost predicate Bookkept<K, V>(l: Limits, ops: seq<CacheOp<K, V>>) {
    var c := After(l, ops).cache;
    && |c.entries| <= l.maxEntries
    && c.hits + c.misses == Lookups(ops)
    && NewKeys(l, ops) == |c.entries| + c.expirations + c.evictions + Cleared(l, ops)
  }

  ghost predicate HoldsLatest<K, V>(l: Limits, ops: seq<CacheOp<K, V>>) {
    var r := After(l, ops);
    forall k :: k in r.cache.entries ==>
      LastPut(l, ops, k) == Some(r.cache.entries[k]) && r.cache.entries[k].storedAt <= r.now
  }

  lemma RemoveOne<K, V>(m: map<K, V>, key: K)
    requires key in m
    ensures |m - {key}| == |m| - 1
  {
    assert m == (m - {key})[key := m[key]];
  }

  lemma {:induction false} SubmapSize<K, V>(small: map<K, V>, big: map<K, V>)
    requires small.Keys <= big.Keys
    ensures |small| <= |big|
    decreases |small|
  {
    if small != map[] {
      var k :| k in small;
      RemoveOne(small, k);
      RemoveOne(big, k);
      SubmapSize(small - {k}, big - {k});
    }
  }

  lemma LookupCounts<K, V>(l: Limits, c: Cache<K, V>, key: K, now: nat)
    ensures var c' := Probe(l, c, key, now).1;
            && |c'.entries| + c'.expirations == |c.entries| + c.expirations
            && c'.hits + c'.misses == c.hits + c.misses + 1 && c'.evictions == c.evictions
            && |c'.entries| <= |c.entries|
            && (forall k :: k in c'.entries ==> k in c.entries && c'.entries[k] == c.entries[k])
  {
    if key in c.entries {
      RemoveOne(c.entries, key);
    }
  }

  lemma StoreCounts<K, V>(l: Limits, c: Cache<K, V>, key: K, value: V, now: nat, victim: K)
    requires l.maxEntries >= 1 && |c.entries| <= l.maxEntries && VictimIsOldest(l, c, key, now, victim)
    ensures var c' := Insert(l, c, key, value, now, victim);
            && |c'.entries| + c'.evictions == |c.entries| + c.evictions + (if key in c.entries then 0 else 1)
            && c'.hits == c.hits && c'.misses == c.misses && c'.expirations == c.expirations
            && |c'.entries| <= l.maxEntries
            && key in c'.entries && c'.entries[key] == Entry(value, now)
            && (forall k :: k in c'.entries && k != key ==> k in c.entries && c'.entries[k] == c.entries[k])
  {
    if MakesRoom(l, c, key) {
      var c1 := Retained(l, c, now);
      SubmapSize(c1.entries, c.entries);
      if |c1.entries| >= l.maxEntries {
        RemoveOne(c1.entries, victim);
      }
    }
  }

  /** In every interleaving the cache stays within its capacity, every lookup is a hit or a miss, and
      every key that came in is still there or was counted out. */
  lemma {:induction false} AlwaysBookkept<K, V>(l: Limits, ops: seq<CacheOp<K, V>>)
    requires l.maxEntries >= 1 && Possible(l, ops)
    ensures Bookkept(l, ops)
  {
    if ops != [] {
      hide Probe, Insert, VictimIsOldest;
      var front, op := ops[..|ops| - 1], ops[|ops| - 1];
      AlwaysBookkept(l, front);
      var r := After(l, front);
      match op {
        case Look(key) => LookupCounts(l, r.cache, key, r.now);
        case Put(key, value, victim) => StoreCounts(l, r.cache, key, value, r.now, victim);
        case Clear =>
        case Tick(_) =>
      }
    }
  }

  lemma {:induction false} AlwaysHoldsLatest<K, V>(l: Limits, ops: seq<CacheOp<K, V>>)
    requires l.maxEntries >= 1 && Possible(l, ops)
    ensures HoldsLatest(l, ops)
  {
    if ops != [] {
      hide Probe, Insert, VictimIsOldest, Bookkept;
      var front, op := ops[..|ops| - 1], ops[|ops| - 1];
      AlwaysHoldsLatest(l, front);
      AlwaysBookkept(l, front);
      var r := After(l, front);
      match op {
        case Look(key) => LookupCounts(l, r.cache, key, r.now);
        case Put(key, value, victim) =>
          WithinCapacity(l, front);
          StoreCounts(l, r.cache, key, value, r.now, victim);
        case Clear =>
        case Tick(_) =>
      }
    }
  }

  lemma WithinCapacity<K, V>(l: Limits, ops: seq<CacheOp<K, V>>)
    requires Bookkept(l, ops)
    ensures |After(l, ops).cache.entries| <= l.maxEntries
  {
  }

  /** A hit is the last value stored under that very key, less than the TTL ago. */
  lemma HitsAreFresh<K, V>(l: Limits, ops: seq<CacheOp<K, V>>, key: K)
    requires l.maxEntries >= 1 && Possible(l, ops)
    ensures var r := After(l, ops);
            var (hit, _) := Probe(l, r.cache, key, r.now);
            var last := LastPut(l, ops, key);
            hit.Some? ==> last.Some? && hit.value == last.value.value && 0 <= r.now - last.value.storedAt < l.ttl
  {
    AlwaysHoldsLatest(l, ops);
  }
}
