/**
 The local token bucket of internal/ratelimit/ratelimit.go.

 The source keeps tokens as a float64 and refills `limit / 60` of them per second. Here a token
 is TOKEN = 60 * 10^9 units and time is counted in nanoseconds, so a bucket of limit L earns exactly L
 units per nanosecond and a tenth of the limit is exactly 6 * 10^9 * L units: all arithmetic is exact.
 */
module RateLimit {
  import opened Wrappers

  const TOKEN: int := 60 * SECOND

  /** What one bucket holds: its units, and the clock reading of its last refill. */
  datatype Bucket = Bucket(tokens: int, last: int)

  /** One call of Allow: the limit passed in and the two clock readings it takes (the first is used only
      when the call creates the bucket). */
  datatype Call = Call(limit: int, start: int, now: int)

  datatype Verdict = Verdict(allowed: bool, limit: int, remaining: int, retryAfter: int)

  /** The grant of a new bucket: a tenth of the limit, but at least one token. */
  function Initial(limit: int): int {
    if 6 * SECOND * limit < TOKEN then TOKEN else 6 * SECOND * limit
  }

  function Refill(b: Bucket, limit: int, now: int): Bucket {
    var tokens := b.tokens + limit * (now - b.last);
    Bucket(if tokens > limit * TOKEN then limit * TOKEN else tokens, now)
  }

  /** The bucket a call works on: the tenant's own, or a new one. */
  function Opened(b: Option<Bucket>, limit: int, start: int): Bucket {
    match b
    case Some(own) => own
    case None => Bucket(Initial(limit), start)
  }

  /** The local check: a full token is taken if there is one. */
  function Spend(full: Bucket, limit: int): (Bucket, Verdict) {
    if full.tokens >= TOKEN then
      var left := full.tokens - TOKEN;
      (Bucket(left, full.last), Verdict(true, limit, left / TOKEN, 0))
    else
      (full, Verdict(false, limit, 0, SECOND))
  }

  function Allow(b: Option<Bucket>, c: Call): (Bucket, Verdict) {
    Spend(Refill(Opened(b, c.limit, c.start), c.limit, c.now), c.limit)
  }

  /** The same on the limiter's whole map of buckets. */
  function AllowIn(buckets: map<string, Bucket>, tenant: string, c: Call): (map<string, Bucket>, Verdict) {
    var (b, v) := Allow(Get(buckets, tenant), c);
    (buckets[tenant := b], v)
  }

  class LocalBucket {
    var tokens: int
    var last: int

    ghost function View(): Bucket
      reads this
    {
      Bucket(tokens, last)
    }

    constructor (tokens: int, last: int)
      ensures View() == Bucket(tokens, last)
    {
      this.tokens, this.last := tokens, last;
    }

    /** The refill and the local check of Allow, done in place on one bucket. */
    method Take(limit: int, now: int) returns (r: Verdict)
      modifies this
      ensures (View(), r) == Spend(Refill(old(View()), limit, now), limit)
    {
      tokens := tokens + limit * (now - last);
      if tokens > limit * TOKEN {
        tokens := limit * TOKEN;
      }
      last := now;
      assert View() == Refill(old(View()), limit, now);
      if tokens >= TOKEN {
        tokens := tokens - TOKEN;
        return Verdict(true, limit, tokens / TOKEN, 0);
      }
      return Verdict(false, limit, 0, SECOND);
    }
  }

  class TokenBucket {
    var buckets: map<string, LocalBucket>

    /** No two tenants share a bucket. */
    ghost predicate Valid()
      reads this
    {
      forall i, j :: i in buckets && j in buckets && i != j ==> buckets[i] != buckets[j]
    }

    ghost function View(): map<string, Bucket>
      reads this, buckets.Values
    {
      map i | i in buckets :: buckets[i].View()
    }

    constructor ()
      ensures Valid() && View() == map[] && buckets == map[]
    {
      buckets := map[];
    }

    /** `start` and `now` are the readings of the two `time.Now()` calls. */
    method Allow(tenant: string, limit: int, start: int, now: int) returns (r: Verdict)
      requires Valid()
      modifies this, buckets.Values
      ensures Valid() && fresh(buckets.Values - old(buckets.Values))
      ensures (View(), r) == AllowIn(old(View()), tenant, Call(limit, start, now))
    {
      ghost var was := View();
      var bucket := Find(tenant, limit, start);
      assert bucket.View() == View()[tenant] == Opened(Get(was, tenant), limit, start);
      label found:
      r := bucket.Take(limit, now);
      assert View() == old@found(View())[tenant := bucket.View()];
      assert View() == was[tenant := bucket.View()];
    }

    /** The tenant's bucket, created with its initial grant if there is none yet. */
    method Find(tenant: string, limit: int, start: int) returns (bucket: LocalBucket)
      requires Valid()
      modifies this
      ensures Valid() && fresh(buckets.Values - old(buckets.Values))
      ensures tenant in buckets && buckets[tenant] == bucket
      ensures View() == old(View())[tenant := Opened(Get(old(View()), tenant), limit, start)]
    {
      ghost var was := View();
      if tenant !in buckets {
        var initialTokens := 6 * SECOND * limit;
        if initialTokens < TOKEN {
          initialTokens := TOKEN;
        }
        var created := new LocalBucket(initialTokens, start);
        buckets := buckets[tenant := created];
      }
      bucket := buckets[tenant];
      assert View() == was[tenant := bucket.View()];
    }

    /** The part of backgroundSync that runs under the lock: it copies every level and changes nothing. */
    method Snapshot() returns (snapshot: map<string, int>)
      ensures snapshot.Keys == buckets.Keys
      ensures forall id :: id in buckets ==> snapshot[id] == buckets[id].tokens
    {
      snapshot := map[];
      var rest := buckets.Keys;
      while rest != {}
        invariant rest <= buckets.Keys && snapshot.Keys == buckets.Keys - rest
        invariant forall id :: id in snapshot ==> snapshot[id] == buckets[id].tokens
        decreases rest
      {
        var id :| id in rest;
        snapshot := snapshot[id := buckets[id].tokens];
        rest := rest - {id};
      }
    }
  }
}
