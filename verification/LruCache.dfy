/** A least-recently-used cache kept as a map with timestamps, an optional time to live, and
    eviction of an entry with the least timestamp. */
module LruCache {
  import opened Wrappers
  import opened Events

  datatype Stamped<V> = Stamped(value: V, at: Time)

  predicate Expired<V>(ttl: Option<nat>, e: Stamped<V>, now: Time) {
    ttl.Some? && now - e.at > ttl.value
  }

  /** A key is present and its entry has not outlived the time to live. */
  predicate Live<K(==), V>(entries: map<K, Stamped<V>>, ttl: Option<nat>, key: K, now: Time) {
    key in entries && !Expired(ttl, entries[key], now)
  }

  predicate IsOldest<K(==), V>(entries: map<K, Stamped<V>>, key: K) {
    key in entries && forall k :: k in entries ==> entries[key].at <= entries[k].at
  }

  function Lookup<K(==), V>(entries: map<K, Stamped<V>>, ttl: Option<nat>, key: K, now: Time): Option<V> {
    if Live(entries, ttl, key, now) then Some(entries[key].value) else None
  }

  /** A hit is stamped anew, an expired entry goes. */
  function AfterLookup<K(==), V>(entries: map<K, Stamped<V>>, ttl: Option<nat>, key: K, now: Time): map<K, Stamped<V>> {
    if key !in entries then entries
    else if Expired(ttl, entries[key], now) then entries - {key}
    else entries[key := Stamped(entries[key].value, now)]
  }

  /** Over capacity, one entry with the least timestamp goes; which one, among ties, is open. */
  ghost predicate Evicted<K, V>(entries: map<K, Stamped<V>>, capacity: nat, left: map<K, Stamped<V>>) {
    if |entries| <= capacity then left == entries
    else exists k :: k in entries && IsOldest(entries, k) && left == entries - {k}
  }

  lemma {:induction false} OldestExists<K, V>(entries: map<K, Stamped<V>>, keys: set<K>) returns (k: K)
    requires keys != {} && keys <= entries.Keys
    ensures k in keys && forall k' :: k' in keys ==> entries[k].at <= entries[k'].at
    decreases |keys|
  {
    k :| k in keys;
    if keys != {k} {
      assert keys - {k} != {} by {
        assert exists x :: x in keys && x != k;
      }
      var rest := OldestExists(entries, keys - {k});
      if entries[rest].at < entries[k].at {
        k := rest;
      }
    }
  }

  class LruCache<K(==), V> {
    const capacity: nat
    const ttl: Option<nat>
    var entries: map<K, Stamped<V>>

    /** Never more entries than the capacity, which is at least one. */
    ghost predicate Valid()
      reads this
    {
      1 <= capacity && |entries| <= capacity
    }

    constructor (capacity: nat, ttl: Option<nat>)
      ensures Valid() && entries == map[] && this.ttl == ttl
      ensures this.capacity == if capacity == 0 then 1 else capacity
    {
      this.capacity := if capacity == 0 then 1 else capacity;
      this.ttl := ttl;
      this.entries := map[];
    }

    /** Only a live entry is a hit, so what is returned is never older than the time to live. */
    method GetCloned(key: K, now: Time) returns (r: Option<V>)
      requires Valid()
      modifies this`entries
      ensures Valid()
      ensures r == Lookup(old(entries), ttl, key, now)
      ensures entries == AfterLookup(old(entries), ttl, key, now)
    {
      if key in entries {
        var e := entries[key];
        if ttl.Some? {
          if now - e.at > ttl.value {
            RemovedSize(entries, {key});
            entries := entries - {key};
            return None;
          }
        }
        StampedSize(entries, key, Stamped(e.value, now));
        entries := entries[key := Stamped(e.value, now)];
        return Some(e.value);
      }
      return None;
    }

    method Put(key: K, value: V, now: Time)
      requires Valid()
      modifies this`entries
      ensures Valid()
      ensures Evicted(old(entries)[key := Stamped(value, now)], capacity, entries)
    {
      StampedSize(entries, key, Stamped(value, now));
      entries := entries[key := Stamped(value, now)];
      EvictIfNeeded();
    }

    method EvictIfNeeded()
      requires 1 <= capacity && |entries| <= capacity + 1
      modifies this`entries
      ensures Valid() && Evicted(old(entries), capacity, entries)
    {
      if |entries| <= capacity {
        return;
      }
      ghost var some := OldestExists(entries, entries.Keys);
      assert IsOldest(entries, some);
      var oldest :| oldest in entries && IsOldest(entries, oldest);
      RemovedSize(entries, {oldest});
      entries := entries - {oldest};
    }

    /** Visits the live entries in some order until one matches; only a fruitless search removes
        the expired entries it passed, and then it has passed all of them. */
    method AnyEntryMatches(matches: (K, V) -> bool, now: Time) returns (found: bool)
      requires Valid()
      modifies this`entries
      ensures Valid()
      ensures found <==> exists k :: Live(old(entries), ttl, k, now) && matches(k, old(entries)[k].value)
      ensures found ==> entries == old(entries)
      ensures !found ==> entries == map k | k in old(entries) && Live(old(entries), ttl, k, now) :: old(entries)[k]
    {
      var left := entries.Keys;
      var expired: set<K> := {};
      while left != {}
        invariant left <= entries.Keys && expired <= entries.Keys && entries == old(entries)
        invariant forall k :: k in entries && k !in left ==>
                    if Expired(ttl, entries[k], now) then k in expired else !matches(k, entries[k].value)
        invariant forall k :: k in expired ==> Expired(ttl, entries[k], now) && k !in left
        decreases |left|
      {
        var key :| key in left;
        left := left - {key};
        var e := entries[key];
        if ttl.Some? && now - e.at > ttl.value {
          expired := expired + {key};
          continue;
        }
        if matches(key, e.value) {
          assert Live(entries, ttl, key, now);
          return true;
        }
      }
      RemovedSize(entries, expired);
      entries := entries - expired;
      return false;
    }
  }

  lemma {:induction false} RemovedSize<K, V>(entries: map<K, V>, keys: set<K>)
    requires keys <= entries.Keys
    ensures |entries - keys| == |entries| - |keys|
  {
    assert (entries - keys).Keys == entries.Keys - keys;
    assert |(entries - keys).Keys| == |entries - keys|;
  }

  lemma {:induction false} StampedSize<K, V>(entries: map<K, V>, key: K, value: V)
    ensures |entries[key := value]| == |entries| + if key in entries then 0 else 1
  {
    assert entries[key := value].Keys == entries.Keys + {key};
    assert |entries[key := value].Keys| == |entries[key := value]|;
  }
}
