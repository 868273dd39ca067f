/**
 The two-tier cache of internal/cache/cache.go: an in-memory tier on each gateway node, over one Redis.

 The cache never looks into the values it stores, so it is generic in them. Redis honours its time-to-lives. The
 in-memory tier may drop a write and may lose an entry at any time, but it never keeps the old entry of a key that
 is written again. A time-to-live of 0 means that the entry does not expire, in both tiers.
 Nothing comes between the accesses of an operation here; Staleness takes the operations apart.
 */
module TwoTierCache {
  import opened Wrappers

  const BACKFILL: nat := 10 * MINUTE

  datatype Entry<+V> = Entry(value: V, expires: Option<int>)

  type Tier<+V> = map<string, Entry<V>>

  function Expiry(now: int, ttl: nat): Option<int> {
    if ttl == 0 then None else Some(now + ttl)
  }

  predicate Live<V>(e: Entry<V>, now: int) {
    e.expires.None? || now < e.expires.value
  }

  function Lookup<V>(tier: Tier<V>, key: string, now: int): Option<V> {
    if key in tier && Live(tier[key], now) then Some(tier[key].value) else None
  }

  /** A write to the in-memory tier: kept or dropped. */
  function WriteL1<V>(l1: Tier<V>, key: string, e: Entry<V>, kept: bool): Tier<V> {
    if kept then l1[key := e] else l1 - {key}
  }

  /** What Get returns: a value, a miss, or the error of an unavailable Redis. */
  datatype Fetch<+V> = Hit(value: V) | Miss | Failed

  function GetL1<V>(l1: Tier<V>, l2: Tier<V>, key: string, now: int, up: bool, kept: bool): (Tier<V>, Fetch<V>) {
    match Lookup(l1, key, now)
    case Some(v) => (l1, Hit(v))
    case None =>
      if !up then (l1, Failed)
      else
        match Lookup(l2, key, now)
        case None => (l1, Miss)
        case Some(v) => (WriteL1(l1, key, Entry(v, Expiry(now, BACKFILL)), kept), Hit(v))
  }

  function SetL2<V>(l2: Tier<V>, key: string, e: Entry<V>, up: bool): Tier<V> {
    if up then l2[key := e] else l2
  }

  /** Which Gets hit, miss, and fail: one that finds a live entry in memory does not ask Redis, and one that does not
      fails exactly if Redis is down. */
  lemma GetReplies<V>(l1: Tier<V>, l2: Tier<V>, key: string, now: int, up: bool, kept: bool)
    ensures var reply := GetL1(l1, l2, key, now, up, kept).1;
            var inMemory := key in l1 && (l1[key].expires.Some? ==> now < l1[key].expires.value);
            var inRedis := key in l2 && (l2[key].expires.Some? ==> now < l2[key].expires.value);
            && (reply.Failed? <==> !inMemory && !up)
            && (reply.Miss? <==> !inMemory && up && !inRedis)
            && (reply.Hit? ==> reply.value == if inMemory then l1[key].value else l2[key].value)
    ensures !GetL1(l1, l2, key, now, up, kept).1.Hit? ==> GetL1(l1, l2, key, now, up, kept).0 == l1
  {
  }

  class Redis<V> {
    var entries: Tier<V>

    constructor ()
      ensures entries == map[]
    {
      entries := map[];
    }
  }

  class Cache<V> {
    var l1: Tier<V>
    const redis: Redis<V>

    constructor (redis: Redis<V>)
      ensures l1 == map[] && this.redis == redis
    {
      l1, this.redis := map[], redis;
    }

    /** `up`: Redis answers; `kept`: the in-memory tier keeps the backfill. */
    method Get(key: string, now: int, up: bool, kept: bool) returns (r: Fetch<V>)
      modifies this
      ensures (l1, r) == GetL1(old(l1), redis.entries, key, now, up, kept)
    {
      // 1. in-memory lookup
      if key in l1 && Live(l1[key], now) {
        return Hit(l1[key].value);
      }
      // 2. Redis fallback
      if !up {
        return Failed;
      }
      if key !in redis.entries || !Live(redis.entries[key], now) {
        return Miss;
      }
      var val := redis.entries[key].value;
      // 3. backfill
      l1 := if kept then l1[key := Entry(val, Some(now + BACKFILL))] else l1 - {key};
      return Hit(val);
    }

    /** `ok`: Redis accepts the write. */
    method Set(key: string, value: V, ttl: nat, now: int, ok: bool, kept: bool) returns (err: bool)
      modifies this, redis
      ensures l1 == WriteL1(old(l1), key, Entry(value, Expiry(now, ttl)), kept)
      ensures redis.entries == SetL2(old(redis.entries), key, Entry(value, Expiry(now, ttl)), ok)
      ensures err == !ok
    {
      var e := Entry(value, if ttl == 0 then None else Some(now + ttl));
      l1 := if kept then l1[key := e] else l1 - {key};
      if ok {
        redis.entries := redis.entries[key := e];
      }
      return !ok;
    }
  }
}
