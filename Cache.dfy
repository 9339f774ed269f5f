/** The in-memory TTL cache of backend/internal/performance/cache.go: a map from
    keys to (value, expiry) pairs. Time is an explicit `now` in nanoseconds; an
    entry is expired when `now` is strictly after its expiry instant (Go's
    `time.Now().After`). The lock is dropped: every operation runs alone. */
module Cache {
  import opened Wrappers
  import opened Strings

  const Minute: int := 60_000_000_000

  const EventTTL: int := 10 * Minute
  const UserTTL: int := 5 * Minute
  const AnalyticsTTL: int := 15 * Minute

  datatype CacheItem<V> = CacheItem(value: V, expiresAt: int)

  predicate Expired<V>(item: CacheItem<V>, now: int) {
    now > item.expiresAt
  }

  /** What `Get` answers for `key` at time `now`. */
  function Lookup<V>(items: map<string, CacheItem<V>>, key: string, now: int): Option<V> {
    if key in items && !Expired(items[key], now) then Some(items[key].value) else None
  }

  /** The entries one cleanup pass keeps. */
  function Sweep<V>(items: map<string, CacheItem<V>>, now: int): map<string, CacheItem<V>> {
    map k | k in items && !Expired(items[k], now) :: items[k]
  }

  /** The keys one cleanup pass (or `GetStats`) counts as expired. */
  function ExpiredKeys<V>(items: map<string, CacheItem<V>>, now: int): set<string> {
    set k | k in items && Expired(items[k], now)
  }

  /** The entries `InvalidatePattern` keeps: those whose key does not start with the pattern. */
  function Invalidated<V>(items: map<string, CacheItem<V>>, pattern: string): map<string, CacheItem<V>> {
    map k | k in items && !StartsWith(k, pattern) :: items[k]
  }

  function EventKey(eventID: string): string { "event:" + eventID }
  function UserKey(userID: string): string { "user:" + userID }
  function AnalyticsKey(key: string): string { "analytics:" + key }

  class Cache<V> {
    var items: map<string, CacheItem<V>>

    /** NewCache: an empty cache (the cleanup goroutine is not modelled). */
    constructor ()
      ensures items == map[]
    {
      items := map[];
    }

    method Set(key: string, value: V, ttl: int, now: int)
      modifies this
      ensures items == old(items)[key := CacheItem(value, now + ttl)]
    {
      items := items[key := CacheItem(value, now + ttl)];
    }

    /** The stored value when the key is present and not expired at `now`. */
    method Get(key: string, now: int) returns (r: Option<V>)
      ensures r.Some? <==> key in items && now <= items[key].expiresAt
      ensures r.Some? ==> r.value == items[key].value
      ensures r == Lookup(items, key, now)
    {
      if key !in items || now > items[key].expiresAt {
        return None;
      }
      return Some(items[key].value);
    }

    method Delete(key: string)
      modifies this
      ensures items == old(items) - {key}
    {
      items := items - {key};
    }

    method Clear()
      modifies this
      ensures items == map[]
    {
      items := map[];
    }

    /** One pass of the periodic cleanup: every entry expired at `now` is deleted. */
    method Cleanup(now: int)
      modifies this
      ensures items == Sweep(old(items), now)
    {
      var pending := items.Keys;
      ghost var original := items;
      while pending != {}
        invariant pending <= original.Keys
        invariant forall k :: k in items <==> k in original && (k in pending || !Expired(original[k], now))
        invariant forall k :: k in items ==> items[k] == original[k]
        decreases |pending|
      {
        var k :| k in pending;
        if now > items[k].expiresAt {
          items := items - {k};
        }
        pending := pending - {k};
      }
      assert items == Sweep(original, now);
    }

    /** The counts reported by GetStats: all entries, the expired ones and the rest. */
    method GetStats(now: int) returns (total: nat, expired: nat, active: int)
      ensures total == |items|
      ensures expired == |ExpiredKeys(items, now)|
      ensures expired <= total && active == total - expired
    {
      expired := 0;
      var pending := items.Keys;
      ghost var seen: set<string> := {};
      while pending != {}
        invariant pending !! seen && pending + seen == items.Keys
        invariant expired == |ExpiredIn(items, seen, now)|
        decreases |pending|
      {
        var k :| k in pending;
        ExpiredInStep(items, seen, k, now);
        if now > items[k].expiresAt {
          expired := expired + 1;
        }
        pending := pending - {k};
        seen := seen + {k};
      }
      assert ExpiredIn(items, seen, now) == ExpiredKeys(items, now);
      ExpiredKeysBound(items, now);
      total := |items|;
      active := total - expired;
    }

    /** Deletes every key that starts with `pattern` (the source's `contains` is a prefix test). */
    method InvalidatePattern(pattern: string)
      modifies this
      ensures items == Invalidated(old(items), pattern)
    {
      var pending := items.Keys;
      ghost var original := items;
      while pending != {}
        invariant pending <= original.Keys
        invariant forall k :: k in items <==> k in original && (k in pending || !StartsWith(k, pattern))
        invariant forall k :: k in items ==> items[k] == original[k]
        decreases |pending|
      {
        var k :| k in pending;
        if |k| >= |pattern| && k[..|pattern|] == pattern {
          items := items - {k};
        }
        pending := pending - {k};
      }
      assert items == Invalidated(original, pattern);
    }

    method CacheEventData(eventID: string, data: V, now: int)
      modifies this
      ensures items == old(items)[EventKey(eventID) := CacheItem(data, now + EventTTL)]
    {
      Set(EventKey(eventID), data, EventTTL, now);
    }

    method GetEventData(eventID: string, now: int) returns (r: Option<V>)
      ensures r == Lookup(items, EventKey(eventID), now)
    {
      r := Get(EventKey(eventID), now);
    }

    method CacheUserData(userID: string, data: V, now: int)
      modifies this
      ensures items == old(items)[UserKey(userID) := CacheItem(data, now + UserTTL)]
    {
      Set(UserKey(userID), data, UserTTL, now);
    }

    method GetUserData(userID: string, now: int) returns (r: Option<V>)
      ensures r == Lookup(items, UserKey(userID), now)
    {
      r := Get(UserKey(userID), now);
    }

    method CacheAnalytics(key: string, data: V, now: int)
      modifies this
      ensures items == old(items)[AnalyticsKey(key) := CacheItem(data, now + AnalyticsTTL)]
    {
      Set(AnalyticsKey(key), data, AnalyticsTTL, now);
    }

    method GetAnalytics(key: string, now: int) returns (r: Option<V>)
      ensures r == Lookup(items, AnalyticsKey(key), now)
    {
      r := Get(AnalyticsKey(key), now);
    }
  }

  /** The expired entries among `keys`. */
  function ExpiredIn<V>(items: map<string, CacheItem<V>>, keys: set<string>, now: int): set<string> {
    set k | k in keys && k in items && Expired(items[k], now)
  }

  /** Looking at one more key adds it exactly when its entry has expired. */
  lemma ExpiredInStep<V>(items: map<string, CacheItem<V>>, keys: set<string>, k: string, now: int)
    requires k in items && k !in keys
    ensures Expired(items[k], now) ==> |ExpiredIn(items, keys + {k}, now)| == |ExpiredIn(items, keys, now)| + 1
    ensures !Expired(items[k], now) ==> ExpiredIn(items, keys + {k}, now) == ExpiredIn(items, keys, now)
  {
    if Expired(items[k], now) {
      assert ExpiredIn(items, keys + {k}, now) == ExpiredIn(items, keys, now) + {k};
    } else {
      assert ExpiredIn(items, keys + {k}, now) == ExpiredIn(items, keys, now);
    }
  }

  lemma ExpiredKeysBound<V>(items: map<string, CacheItem<V>>, now: int)
    ensures |ExpiredKeys(items, now)| <= |items|
  {
    assert ExpiredKeys(items, now) <= items.Keys;
    SubsetCard(ExpiredKeys(items, now), items.Keys);
  }

  lemma {:induction false} SubsetCard<T>(a: set<T>, b: set<T>)
    requires a <= b
    ensures |a| <= |b|
  {
    if a != {} {
      var x :| x in a;
      SubsetCard(a - {x}, b - {x});
    }
  }

  // ---------------------------------------------------------------------------
  // Properties of the abstract cache

  /** A stored value is readable from the moment it is set up to and including its expiry instant. */
  lemma SetThenGet<V>(items: map<string, CacheItem<V>>, key: string, value: V, ttl: int, setAt: int, now: int)
    ensures Lookup(items[key := CacheItem(value, setAt + ttl)], key, now)
         == if now <= setAt + ttl then Some(value) else None
  {
  }

  /** Setting one key does not change what any other key reads. */
  lemma SetOtherKey<V>(items: map<string, CacheItem<V>>, key: string, other: string, item: CacheItem<V>, now: int)
    requires other != key
    ensures Lookup(items[key := item], other, now) == Lookup(items, other, now)
  {
  }

  /** After Delete the key misses; other keys read as before. */
  lemma DeleteThenGet<V>(items: map<string, CacheItem<V>>, key: string, other: string, now: int)
    ensures Lookup(items - {key}, key, now) == None
    ensures other != key ==> Lookup(items - {key}, other, now) == Lookup(items, other, now)
  {
  }

  /** The sweep removes exactly the expired keys, keeps the others with their values,
      and does not change what any Get at the same instant answers. */
  lemma SweepExact<V>(items: map<string, CacheItem<V>>, now: int, key: string)
    ensures key in Sweep(items, now) <==> key in items && key !in ExpiredKeys(items, now)
    ensures key in Sweep(items, now) ==> Sweep(items, now)[key] == items[key]
    ensures Lookup(Sweep(items, now), key, now) == Lookup(items, key, now)
  {
  }

  /** After a sweep nothing is expired at that instant, and the active count is what remains. */
  lemma SweepLeavesNoExpired<V>(items: map<string, CacheItem<V>>, now: int)
    ensures ExpiredKeys(Sweep(items, now), now) == {}
    ensures |Sweep(items, now)| == |items| - |ExpiredKeys(items, now)|
  {
    var kept := Sweep(items, now).Keys;
    assert kept == items.Keys - ExpiredKeys(items, now);
    assert kept !! ExpiredKeys(items, now);
    assert items.Keys == kept + ExpiredKeys(items, now);
  }

  /** Keys of the three typed namespaces never collide. */
  lemma TypedKeysDistinct(a: string, b: string, c: string)
    ensures EventKey(a) != UserKey(b) && EventKey(a) != AnalyticsKey(c) && UserKey(b) != AnalyticsKey(c)
  {
    assert EventKey(a)[0] == 'e' && UserKey(b)[0] == 'u' && AnalyticsKey(c)[0] == 'a';
  }

  /** Invalidating the "event:" prefix removes every cached event and keeps every cached user. */
  lemma InvalidateEvents<V>(items: map<string, CacheItem<V>>, eventID: string, userID: string)
    ensures EventKey(eventID) !in Invalidated(items, "event:")
    ensures UserKey(userID) in Invalidated(items, "event:") <==> UserKey(userID) in items
    ensures UserKey(userID) in items ==> Invalidated(items, "event:")[UserKey(userID)] == items[UserKey(userID)]
  {
    assert StartsWith(EventKey(eventID), "event:") by {
      assert EventKey(eventID)[..6] == "event:";
    }
    assert !StartsWith(UserKey(userID), "event:") by {
      assert UserKey(userID)[0] == 'u';
    }
  }

  /** Round trip of a typed helper: event data cached at `setAt` reads back for ten minutes. */
  lemma CacheEventRoundTrip<V>(items: map<string, CacheItem<V>>, eventID: string, data: V, setAt: int, now: int)
    requires setAt <= now <= setAt + EventTTL
    ensures Lookup(items[EventKey(eventID) := CacheItem(data, setAt + EventTTL)], EventKey(eventID), now) == Some(data)
  {
  }
}
