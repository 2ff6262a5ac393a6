/**
 The TTL-LRU cache of src/chatwoot/integration.py. `order` is the insertion order of the
 OrderedDict, least recently used first. The ghost `log` keeps every write, every hit and every
 clear; hits, misses and evictions are stated on it.
 */
module TtlCache {
  import opened Wrappers
  import opened Windows

  datatype Event<K, V> = Wrote(key: K, value: V, at: Time) | Hit(key: K) | Cleared

  datatype Stamped<V> = Stamped(value: V, at: Time)

  datatype Store<K, V> = Store(order: seq<K>, cache: map<K, V>, stamps: map<K, Time>)

  /** The last value written for a key since the last clear, and when. */
  ghost function Latest<K(!new), V>(log: seq<Event<K, V>>, key: K): Option<Stamped<V>> {
    if log == [] then None else LatestAfter(Latest(log[..|log| - 1], key), log[|log| - 1], key)
  }

  ghost function LatestAfter<K(!new), V>(before: Option<Stamped<V>>, event: Event<K, V>, key: K): Option<Stamped<V>> {
    match event
    case Cleared => None
    case Wrote(k, v, t) => if k == key then Some(Stamped(v, t)) else before
    case Hit(_) => before
  }

  /** The other keys written or hit since `key` itself was last written or hit. */
  ghost function OthersSince<K(!new), V>(log: seq<Event<K, V>>, key: K): set<K> {
    if log == [] then {} else OthersAfter(OthersSince(log[..|log| - 1], key), log[|log| - 1], key)
  }

  ghost function OthersAfter<K(!new), V>(before: set<K>, event: Event<K, V>, key: K): set<K> {
    if event.Cleared? then before else if event.key == key then {} else before + {event.key}
  }

  lemma Extended<K(!new), V>(log: seq<Event<K, V>>, event: Event<K, V>, key: K)
    ensures Latest(log + [event], key) == LatestAfter(Latest(log, key), event, key)
    ensures OthersSince(log + [event], key) == OthersAfter(OthersSince(log, key), event, key)
  {
    assert (log + [event])[..|log|] == log;
  }

  // ---- The order ----

  /** No key occurs twice, and everything behind a key was used after it. */
  ghost predicate Ranked<K(!new), V>(order: seq<K>, log: seq<Event<K, V>>) {
    order == [] ||
    (&& order[0] !in order[1..]
     && (forall k :: k in order[1..] ==> k in OthersSince(log, order[0]))
     && Ranked(order[1..], log))
  }

  function Without<K(==)>(order: seq<K>, key: K): (rest: seq<K>) {
    if order == [] then []
    else if order[0] == key then order[1..]
    else [order[0]] + Without(order[1..], key)
  }

  lemma {:induction false} WithoutKeeps<K(!new), V>(order: seq<K>, key: K, log: seq<Event<K, V>>)
    requires Ranked(order, log)
    ensures Ranked(Without(order, key), log)
    ensures forall k :: k in Without(order, key) <==> k in order && k != key
    ensures |Without(order, key)| == if key in order then |order| - 1 else |order|
  {
    if order != [] && order[0] != key {
      WithoutKeeps(order[1..], key, log);
      var rest := Without(order[1..], key);
      assert ([order[0]] + rest)[1..] == rest;
    }
  }

  /** Using a key moves it to the recent end. */
  lemma {:induction false} Touched<K(!new), V>(order: seq<K>, key: K, log: seq<Event<K, V>>, event: Event<K, V>)
    requires Ranked(order, log) && key !in order
    requires !event.Cleared? && event.key == key
    ensures Ranked(order + [key], log + [event])
  {
    if order != [] {
      Touched(order[1..], key, log, event);
      assert (order + [key])[1..] == order[1..] + [key];
      Extended(log, event, order[0]);
    } else {
      assert ([key] + order)[1..] == [];
    }
  }

  lemma {:induction false} RankedDistinct<K(!new), V>(order: seq<K>, log: seq<Event<K, V>>, keys: set<K>)
    requires Ranked(order, log) && forall k :: k in order ==> k in keys
    ensures |order| <= |keys|
  {
    if order != [] {
      RankedDistinct(order[1..], log, keys - {order[0]});
    }
  }

  /** When a full cache takes a new key, at least `|order|` other keys were used since its oldest was. */
  lemma EvictedIsStale<K(!new), V>(order: seq<K>, key: K, log: seq<Event<K, V>>, event: Event<K, V>)
    requires order != [] && Ranked(order, log) && key !in order
    requires !event.Cleared? && event.key == key
    ensures |order| <= |OthersSince(log + [event], order[0])|
  {
    Extended(log, event, order[0]);
    Touched(order[1..], key, log, event);
    RankedDistinct(order[1..] + [key], log + [event], OthersSince(log, order[0]) + {key});
  }

  // ---- The invariant ----

  ghost predicate Shape<K, V>(s: Store<K, V>, maxSize: nat) {
    && 1 <= maxSize && |s.order| <= maxSize
    && (set k | k in s.order) == s.cache.Keys == s.stamps.Keys
  }

  ghost predicate Current<K(!new), V>(s: Store<K, V>, log: seq<Event<K, V>>) {
    s.cache.Keys == s.stamps.Keys
    && forall k :: k in s.cache ==> Latest(log, k) == Some(Stamped(s.cache[k], s.stamps[k]))
  }

  /** A key that is gone either outlived its ttl or had enough other keys used after it. */
  ghost predicate Excused<K(!new), V>(log: seq<Event<K, V>>, key: K, maxSize: nat, ttl: Time, now: Time) {
    Latest(log, key).Some? ==>
      now - Latest(log, key).value.at > ttl || maxSize <= |OthersSince(log, key)|
  }

  ghost predicate Accounted<K(!new), V>(cached: set<K>, log: seq<Event<K, V>>, maxSize: nat, ttl: Time, now: Time) {
    forall k: K :: k !in cached ==> Excused(log, k, maxSize, ttl, now)
  }

  ghost predicate Coherent<K(!new), V>(s: Store<K, V>, log: seq<Event<K, V>>, maxSize: nat, ttl: Time, now: Time) {
    Shape(s, maxSize) && Ranked(s.order, log) && Current(s, log) && Accounted(s.cache.Keys, log, maxSize, ttl, now)
  }

  lemma Grows<K(!new)>(small: set<K>, k: K)
    ensures |small| <= |small + {k}|
  {
    if k in small {
      assert small + {k} == small;
    }
  }

  lemma ExcusedLater<K(!new), V>(log: seq<Event<K, V>>, event: Event<K, V>, key: K, maxSize: nat, ttl: Time,
                                 before: Time, now: Time)
    requires Excused(log, key, maxSize, ttl, before) && before <= now
    requires event.Cleared? || event.key != key
    ensures Excused(log + [event], key, maxSize, ttl, now)
  {
    Extended(log, event, key);
    if !event.Cleared? {
      Grows(OthersSince(log, key), event.key);
    }
  }

  /** Nothing becomes unaccounted for by an event on a key that is cached afterwards. */
  lemma AccountedLater<K(!new), V>(cached: set<K>, cached': set<K>, log: seq<Event<K, V>>, event: Event<K, V>,
                                   maxSize: nat, ttl: Time, before: Time, now: Time)
    requires Accounted(cached, log, maxSize, ttl, before) && before <= now
    requires event.Cleared? || event.key in cached'
    requires forall k :: k in cached && k !in cached' ==> Excused(log + [event], k, maxSize, ttl, now)
    ensures Accounted(cached', log + [event], maxSize, ttl, now)
  {
    forall k: K | k !in cached'
      ensures Excused(log + [event], k, maxSize, ttl, now)
    {
      if k !in cached {
        assert Excused(log, k, maxSize, ttl, before);
        ExcusedLater(log, event, k, maxSize, ttl, before, now);
      }
    }
  }

  function Dropped<K(==), V>(s: Store<K, V>, key: K): Store<K, V> {
    Store(Without(s.order, key), s.cache - {key}, s.stamps - {key})
  }

  lemma AfterMiss<K(!new), V>(s: Store<K, V>, log: seq<Event<K, V>>, maxSize: nat, ttl: Time, before: Time, now: Time)
    requires Coherent(s, log, maxSize, ttl, before) && before <= now
    ensures Coherent(s, log, maxSize, ttl, now)
  {
    hide Ranked, Current;
    forall k: K | k !in s.cache
      ensures Excused(log, k, maxSize, ttl, now)
    {
      assert Excused(log, k, maxSize, ttl, before);
    }
  }

  lemma AfterExpiry<K(!new), V>(s: Store<K, V>, log: seq<Event<K, V>>, maxSize: nat, ttl: Time, before: Time, now: Time,
                                key: K)
    requires Coherent(s, log, maxSize, ttl, before) && before <= now
    requires key in s.cache && now - s.stamps[key] > ttl
    ensures Coherent(Dropped(s, key), log, maxSize, ttl, now)
    ensures Excused(log, key, maxSize, ttl, now)
  {
    WithoutKeeps(s.order, key, log);
    hide Ranked;
    AfterMiss(s, log, maxSize, ttl, before, now);
    assert Latest(log, key) == Some(Stamped(s.cache[key], s.stamps[key]));
    forall k: K | k !in Dropped(s, key).cache
      ensures Excused(log, k, maxSize, ttl, now)
    {
      if k != key {
        assert Excused(log, k, maxSize, ttl, now);
      }
    }
  }

  lemma AfterHit<K(!new), V>(s: Store<K, V>, log: seq<Event<K, V>>, maxSize: nat, ttl: Time, before: Time, now: Time,
                             key: K)
    requires Coherent(s, log, maxSize, ttl, before) && before <= now && key in s.cache
    ensures Coherent(s.(order := Without(s.order, key) + [key]), log + [Hit(key)], maxSize, ttl, now)
  {
    WithoutKeeps(s.order, key, log);
    assert key in s.order by { assert key in (set k | k in s.order); }
    Touched(Without(s.order, key), key, log, Hit(key));
    hide Ranked;
    AccountedLater(s.cache.Keys, s.cache.Keys, log, Hit(key), maxSize, ttl, before, now);
    forall k | k in s.cache
      ensures Latest(log + [Hit(key)], k) == Some(Stamped(s.cache[k], s.stamps[k]))
    {
      Extended(log, Hit(key), k);
    }
    var order' := Without(s.order, key) + [key];
    forall k
      ensures k in order' <==> k in s.cache
    {
      assert k in s.order <==> k in (set j | j in s.order);
    }
  }

  /** The store after `set`, before which the oldest key goes if the cache is full and the key is new. */
  function Stored<K(==), V>(s: Store<K, V>, maxSize: nat, key: K, value: V, now: Time): Store<K, V> {
    if key in s.cache then
      Store(Without(s.order, key) + [key], s.cache[key := value], s.stamps[key := now])
    else if |s.order| >= maxSize && s.order != [] then
      Store(s.order[1..] + [key], (s.cache - {s.order[0]})[key := value], (s.stamps - {s.order[0]})[key := now])
    else
      Store(s.order + [key], s.cache[key := value], s.stamps[key := now])
  }

  lemma WritesCurrent<K(!new), V>(s: Store<K, V>, s': Store<K, V>, log: seq<Event<K, V>>, key: K, value: V, now: Time)
    requires Current(s, log)
    requires s'.cache.Keys == s'.stamps.Keys && key in s'.cache && s'.cache[key] == value && s'.stamps[key] == now
    requires forall k :: k in s'.cache && k != key ==>
               k in s.cache && s'.cache[k] == s.cache[k] && s'.stamps[k] == s.stamps[k]
    ensures Current(s', log + [Wrote(key, value, now)])
  {
    forall k | k in s'.cache
      ensures Latest(log + [Wrote(key, value, now)], k) == Some(Stamped(s'.cache[k], s'.stamps[k]))
    {
      Extended(log, Wrote(key, value, now), k);
      if k != key {
        assert Latest(log, k) == Some(Stamped(s.cache[k], s.stamps[k]));
      }
    }
  }

  lemma InOrder<K(!new), V>(s: Store<K, V>, maxSize: nat)
    requires Shape(s, maxSize)
    ensures forall k :: k in s.order <==> k in s.cache
  {
    forall k
      ensures k in s.order <==> k in s.cache
    {
      assert k in s.order <==> k in (set j | j in s.order);
    }
  }

  lemma ShapeOf<K(!new), V>(s: Store<K, V>, maxSize: nat)
    requires 1 <= maxSize && |s.order| <= maxSize && s.cache.Keys == s.stamps.Keys
    requires forall k :: k in s.order <==> k in s.cache
    ensures Shape(s, maxSize)
  {
  }

  lemma AfterSet<K(!new), V>(s: Store<K, V>, log: seq<Event<K, V>>, maxSize: nat, ttl: Time, before: Time, now: Time,
                             key: K, value: V)
    requires Coherent(s, log, maxSize, ttl, before) && before <= now
    ensures Coherent(Stored(s, maxSize, key, value, now), log + [Wrote(key, value, now)], maxSize, ttl, now)
  {
    hide Ranked, Current, Accounted, Shape;
    assert 1 <= maxSize && |s.order| <= maxSize && s.cache.Keys == s.stamps.Keys by { ShapeFacts(s, maxSize); }
    var s', event := Stored(s, maxSize, key, value, now), Wrote(key, value, now);
    InOrder(s, maxSize);
    WritesCurrent(s, s', log, key, value, now);
    if key in s.cache {
      WithoutKeeps(s.order, key, log);
      Touched(Without(s.order, key), key, log, event);
    } else if |s.order| >= maxSize {
      EvictedIsStale(s.order, key, log, event);
      Tail(s.order, log);
      Touched(s.order[1..], key, log, event);
      StaleIsExcused(log + [event], s.order[0], maxSize, ttl, now);
    } else {
      Touched(s.order, key, log, event);
    }
    ShapeOf(s', maxSize);
    AccountedLater(s.cache.Keys, s'.cache.Keys, log, event, maxSize, ttl, before, now);
  }

  lemma ShapeFacts<K(!new), V>(s: Store<K, V>, maxSize: nat)
    requires Shape(s, maxSize)
    ensures 1 <= maxSize && |s.order| <= maxSize && s.cache.Keys == s.stamps.Keys
  {
  }

  lemma Tail<K(!new), V>(order: seq<K>, log: seq<Event<K, V>>)
    requires order != [] && Ranked(order, log)
    ensures Ranked(order[1..], log) && order[0] !in order[1..]
    ensures forall k :: k in order <==> k == order[0] || k in order[1..]
  {
  }

  lemma StaleIsExcused<K(!new), V>(log: seq<Event<K, V>>, key: K, maxSize: nat, ttl: Time, now: Time)
    requires maxSize <= |OthersSince(log, key)|
    ensures Excused(log, key, maxSize, ttl, now)
  {
  }

  /** A fresh value whose key has had fewer than `maxSize` others used after it is always still cached. */
  lemma StillCached<K(!new), V>(s: Store<K, V>, log: seq<Event<K, V>>, maxSize: nat, ttl: Time, now: Time, key: K)
    requires Coherent(s, log, maxSize, ttl, now)
    requires Latest(log, key).Some? && now - Latest(log, key).value.at <= ttl
    requires |OthersSince(log, key)| < maxSize
    ensures key in s.cache && s.cache[key] == Latest(log, key).value.value
  {
    assert key !in s.cache ==> Excused(log, key, maxSize, ttl, now);
  }

  class TTLLRUCache<K(==, !new), V> {
    const maxSize: nat
    const ttl: Time
    var order: seq<K>
    var cache: map<K, V>
    var stamps: map<K, Time>
    ghost var log: seq<Event<K, V>>
    ghost var clock: Time

    ghost function State(): Store<K, V>
      reads this
    {
      Store(order, cache, stamps)
    }

    ghost predicate Valid()
      reads this
    {
      Coherent(State(), log, maxSize, ttl, clock)
    }

    constructor (maxSize: nat, ttl: Time, ghost start: Time)
      requires 1 <= maxSize
      ensures Valid() && this.maxSize == maxSize && this.ttl == ttl && log == [] && clock == start
    {
      this.maxSize, this.ttl := maxSize, ttl;
      order, cache, stamps := [], map[], map[];
      log, clock := [], start;
    }

    /**
     A hit is the latest value written for the key, written no more than the ttl ago. A miss means
     there is none, or it is older than the ttl, or `maxSize` other keys were used since.
     */
    method Get(key: K, now: Time) returns (found: Option<V>)
      requires Valid() && clock <= now
      modifies this
      ensures Valid() && clock == now
      ensures found.Some? ==>
                && Latest(old(log), key).Some? && Latest(old(log), key).value.value == found.value
                && now - Latest(old(log), key).value.at <= ttl
                && log == old(log) + [Hit(key)]
      ensures found.None? ==> log == old(log) && Excused(log, key, maxSize, ttl, now)
      ensures cache.Keys == old(cache).Keys || (found.None? && cache.Keys == old(cache).Keys - {key})
    {
      hide Coherent, Excused, Latest;
      found := None;
      Reading(State(), log, maxSize, ttl, clock, now, key);
      if key in cache {
        if now - stamps[key] > ttl {
          AfterExpiry(State(), log, maxSize, ttl, clock, now, key);
          ghost var after := Dropped(State(), key);
          order, cache, stamps := Without(order, key), cache - {key}, stamps - {key};
          assert State() == after;
        } else {
          AfterHit(State(), log, maxSize, ttl, clock, now, key);
          ghost var after := State().(order := Without(order, key) + [key]);
          order, log, found := Without(order, key) + [key], log + [Hit(key)], Some(cache[key]);
          assert State() == after;
        }
      } else {
        AfterMiss(State(), log, maxSize, ttl, clock, now);
      }
      clock := now;
    }

    method Set(key: K, value: V, now: Time)
      requires Valid() && clock <= now
      modifies this
      ensures Valid() && clock == now
      ensures log == old(log) + [Wrote(key, value, now)]
      ensures State() == Stored(old(State()), maxSize, key, value, now)
    {
      hide Coherent, Without;
      AfterSet(State(), log, maxSize, ttl, clock, now, key, value);
      Reading(State(), log, maxSize, ttl, clock, now, key);
      ghost var after := Stored(State(), maxSize, key, value, now);
      if key in cache {
        order := Without(order, key) + [key];
      } else {
        if |order| >= maxSize {
          var oldest := order[0];
          order, cache, stamps := order[1..], cache - {oldest}, stamps - {oldest};
        }
        order := order + [key];
      }
      cache, stamps := cache[key := value], stamps[key := now];
      assert State() == after;
      log, clock := log + [Wrote(key, value, now)], now;
    }

    method Clear(now: Time)
      requires Valid() && clock <= now
      modifies this
      ensures Valid() && clock == now
      ensures log == old(log) + [Cleared] && cache == map[]
    {
      forall k: K
        ensures Excused(log + [Cleared], k, maxSize, ttl, now)
      {
        Extended(log, Cleared, k);
      }
      order, cache, stamps := [], map[], map[];
      log, clock := log + [Cleared], now;
    }
  }

  lemma Reading<K(!new), V>(
      s: Store<K, V>, log: seq<Event<K, V>>, maxSize: nat, ttl: Time, before: Time, now: Time, key: K)
    requires Coherent(s, log, maxSize, ttl, before) && before <= now
    ensures 1 <= maxSize && s.cache.Keys == s.stamps.Keys
    ensures key in s.cache ==> Latest(log, key) == Some(Stamped(s.cache[key], s.stamps[key]))
    ensures key !in s.cache ==> Excused(log, key, maxSize, ttl, now)
  {
    if key !in s.cache {
      assert Excused(log, key, maxSize, ttl, before);
    }
  }
}
