/**
 The in-memory side of the response cache (src/api/services/cacheService.js): entries with a time to
 live, deleted lazily, by a sweep, or by a pattern on the key.
 */
module Cache {
  import opened Values

  type Key = string
  type Value = string

  datatype Entry = Entry(value: Value, expiresAt: int)

  /** The operations that mean something to later reads. */
  datatype Change = Put(key: Key, value: Value, expiresAt: int) | Invalidated(pattern: string)

  predicate OccursAt(key: Key, pattern: string, i: nat) {
    i + |pattern| <= |key| && key[i..i + |pattern|] == pattern
  }

  /** `key.includes(pattern)`. */
  predicate Includes(key: Key, pattern: string) {
    exists i :: 0 <= i <= |key| && OccursAt(key, pattern, i)
  }

  /** The pattern stands somewhere in the key. */
  lemma IncludesMeans(key: Key, pattern: string)
    ensures Includes(key, pattern) <==> exists before: string, after: string :: key == before + pattern + after
  {
    if Includes(key, pattern) {
      var i :| 0 <= i <= |key| && OccursAt(key, pattern, i);
      assert key == key[..i] + pattern + key[i + |pattern|..];
    }
    if before: string, after: string :| key == before + pattern + after {
      assert OccursAt(key, pattern, |before|);
    }
  }

  /** What a read must see, from the log of changes alone: the last value put, if nothing hit the key since. */
  function Expected(log: seq<Change>, key: Key, now: int): Option<Value> {
    if log == [] then None
    else
      match log[|log| - 1]
      case Put(k, value, expiresAt) =>
        if k != key then Expected(log[..|log| - 1], key, now)
        else if now > expiresAt then None else Some(value)
      case Invalidated(pattern) =>
        if Includes(key, pattern) then None else Expected(log[..|log| - 1], key, now)
  }

  /** What the map answers. */
  function Lookup(store: map<Key, Entry>, key: Key, now: int): Option<Value> {
    if key in store && now <= store[key].expiresAt then Some(store[key].value) else None
  }

  /** From now on, the map answers every read as the log demands. */
  ghost predicate Answers(store: map<Key, Entry>, log: seq<Change>, clock: int) {
    forall key, now :: now >= clock ==> Lookup(store, key, now) == Expected(log, key, now)
  }

  function Matching(store: map<Key, Entry>, pattern: string): set<Key> {
    set k | k in store && Includes(k, pattern)
  }

  lemma InvalidatedAnswers(store: map<Key, Entry>, log: seq<Change>, pattern: string, clock: int)
    requires Answers(store, log, clock)
    ensures Answers(store - Matching(store, pattern), log + [Invalidated(pattern)], clock)
  {
    var after, longer := store - Matching(store, pattern), log + [Invalidated(pattern)];
    assert longer[..|log|] == log;
    forall key, now | now >= clock ensures Lookup(after, key, now) == Expected(longer, key, now) {
      assert Lookup(store, key, now) == Expected(log, key, now);
    }
  }

  class CacheService {
    var store: map<Key, Entry>
    var hits: nat
    var misses: nat
    ghost var log: seq<Change>
    ghost var clock: int
    ghost var gets: nat

    ghost predicate Valid()
      reads this
    {
      && Answers(store, log, clock)
      && hits + misses == gets
    }

    constructor ()
      ensures Valid() && store == map[] && log == [] && gets == 0
    {
      store, hits, misses := map[], 0, 0;
      log, clock, gets := [], 0, 0;
    }

    method Set(key: Key, value: Value, ttl: int, now: int)
      requires Valid() && clock <= now
      modifies this
      ensures Valid() && clock == now && gets == old(gets) && hits == old(hits) && misses == old(misses)
      ensures log == old(log) + [Put(key, value, now + ttl)]
    {
      store := store[key := Entry(value, now + ttl)];
      log := log + [Put(key, value, now + ttl)];
      clock := now;
      assert log[..|log| - 1] == old(log);
    }

    /** A read gives exactly what the log says; that it may delete the entry on the way shows nowhere. */
    method Get(key: Key, now: int) returns (value: Option<Value>)
      requires Valid() && clock <= now
      modifies this
      ensures Valid() && clock == now && log == old(log) && gets == old(gets) + 1
      ensures value == Expected(log, key, now)
      ensures if value.Some? then hits == old(hits) + 1 && misses == old(misses)
              else hits == old(hits) && misses == old(misses) + 1
    {
      assert Lookup(store, key, now) == Expected(log, key, now);
      clock, gets := now, gets + 1;
      if key !in store {
        misses := misses + 1;
        return None;
      }
      var entry := store[key];
      if now > entry.expiresAt {
        store := store - {key};
        misses := misses + 1;
        assert forall k, later :: later >= now ==> Lookup(store, k, later) == Lookup(old(store), k, later);
        return None;
      }
      hits := hits + 1;
      return Some(entry.value);
    }

    method DeleteMatching(pattern: string) returns (count: nat)
      modifies this`store
      ensures store == old(store) - Matching(old(store), pattern)
      ensures count == |Matching(old(store), pattern)|
    {
      ghost var before, gone: set<Key> := store, {};
      var keys := store.Keys;
      count := 0;
      while keys != {}
        invariant keys <= before.Keys && gone !! keys && count == |gone|
        invariant forall k :: k in gone <==> k in before && k !in keys && Includes(k, pattern)
        invariant store == before - gone
        decreases |keys|
      {
        var key :| key in keys;
        if Includes(key, pattern) {
          store := store - {key};
          count := count + 1;
          gone := gone + {key};
        }
        keys := keys - {key};
      }
      assert gone == Matching(before, pattern);
    }

    method Invalidate(pattern: string, now: int) returns (count: nat)
      requires Valid() && clock <= now
      modifies this
      ensures Valid() && clock == now && gets == old(gets) && hits == old(hits) && misses == old(misses)
      ensures log == old(log) + [Invalidated(pattern)]
      ensures count == |Matching(old(store), pattern)|
      ensures store == old(store) - Matching(old(store), pattern)
    {
      count := DeleteMatching(pattern);
      InvalidatedAnswers(old(store), old(log), pattern, now);
      log := log + [Invalidated(pattern)];
      clock := now;
    }

    /** The sweep of expired entries is unobservable. */
    method Evict(now: int)
      requires Valid() && clock <= now
      modifies this
      ensures Valid() && clock == now && log == old(log) && gets == old(gets) && hits == old(hits)
      ensures misses == old(misses)
      ensures forall k :: k in store <==> k in old(store) && now <= old(store)[k].expiresAt
    {
      var keys := store.Keys;
      while keys != {}
        invariant keys <= store.Keys <= old(store).Keys
        invariant forall k :: k in store ==> store[k] == old(store)[k]
        invariant forall k :: k in old(store) && k !in keys ==> (k in store <==> now <= old(store)[k].expiresAt)
        invariant log == old(log) && gets == old(gets) && hits == old(hits) && misses == old(misses)
        decreases |keys|
      {
        var key :| key in keys;
        if now > store[key].expiresAt {
          store := store - {key};
        }
        keys := keys - {key};
      }
      clock := now;
      forall k, later | later >= now ensures Lookup(store, k, later) == Expected(log, k, later) {
        assert Lookup(old(store), k, later) == Expected(old(log), k, later);
      }
    }

    /** After a write to the tables: nothing that depends on listings survives. */
    method InvalidateListings(now: int)
      requires Valid() && clock <= now
      modifies this
      ensures Valid() && clock == now && gets == old(gets)
      ensures log == old(log) + [Invalidated("listings:"), Invalidated("search:"), Invalidated("agents:"),
        Invalidated("groups:")]
    {
      var a := Invalidate("listings:", now);
      var b := Invalidate("search:", now);
      var c := Invalidate("agents:", now);
      var d := Invalidate("groups:", now);
    }
  }

  predicate Touches(change: Change, key: Key) {
    match change
    case Put(k, _, _) => k == key
    case Invalidated(pattern) => Includes(key, pattern)
  }

  predicate Untouched(log: seq<Change>, key: Key, start: nat) {
    forall j :: start <= j < |log| ==> !Touches(log[j], key)
  }

  /** The put at this place is the value to read. */
  predicate Current(log: seq<Change>, key: Key, now: int, value: Value, i: nat) {
    && i < |log| && log[i].Put? && log[i].key == key && log[i].value == value
    && now <= log[i].expiresAt && Untouched(log, key, i + 1)
  }

  /** The reference semantics in closed form: a read sees a put exactly when it is fresh and nothing came after it. */
  lemma {:induction false} ReadsTheLastPut(log: seq<Change>, key: Key, now: int, value: Value)
    ensures Expected(log, key, now) == Some(value) <==> exists i: nat :: Current(log, key, now, value, i)
  {
    if log != [] {
      var last := |log| - 1;
      var front := log[..last];
      if Touches(log[last], key) {
        if Expected(log, key, now) == Some(value) { assert Current(log, key, now, value, last); }
        forall i: nat | Current(log, key, now, value, i) ensures i == last {
        }
      } else {
        ReadsTheLastPut(front, key, now, value);
        forall i: nat ensures Current(front, key, now, value, i) <==> Current(log, key, now, value, i) {
          if i < last { assert front[i] == log[i]; }
          forall j | i + 1 <= j < last ensures front[j] == log[j] {
          }
        }
      }
    }
  }
}
