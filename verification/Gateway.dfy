/**
 The request handler of internal/router/handler.go on one node: the ordered gates of ServeHTTP over the limiter, the
 cache, the monitor and the selector, and the two ways of dispatching.

 What lies outside (the database, the clocks, the base providers, the scheduler, the availability of Redis, the
 lossiness of the in-memory cache) is an environment that is fixed per request.
 */
module Gateway {
  import opened Wrappers
  import opened Tenants
  import opened TwoTierCache
  import opened Selector
  import H = Health
  import L = RateLimit
  import R = Retry
  import S = Streaming

  const RESPONSE_TTL: nat := 60 * MINUTE

  datatype ChatRequest = ChatRequest(model: string, digest: string, stream: bool)

  type Cached = Payload<Tenant, ChatResponse>

  /** The key hash is missing without an API key, and the body when it does not decode. */
  datatype Request = Request(keyHash: Option<string>, body: Option<ChatRequest>)

  /** The circumstances of one cache operation. */
  datatype Access = Access(now: int, up: bool, kept: bool)

  datatype Env = Env(
    row: Option<Tenant>,               // the database's answer, if it is asked
    tenantGet: Access, tenantSet: Access, responseGet: Access, responseSet: Access,
    start: int, now: int,              // the limiter's clock readings
    latency: int,                      // from the arrival of the request to the provider's answer
    chat: nat -> R.Round<ChatResponse>,
    stream: nat -> S.Round, turns: seq<S.Turn>)

  datatype Status =
    | Unauthorized | PaymentRequired | TooManyRequests | BadRequest | Unavailable | BadGateway
    | FromCache(response: ChatResponse)
    | Answered(response: ChatResponse)
    | Streamed(session: S.Session)

  /** What became of a request: the reply, the provider it was dispatched to, how often that provider's base was
      called, and the event that was logged. */
  datatype Served = Served(status: Status, dispatched: Option<Provider>, attempts: nat, log: Option<S.LogEvent>)

  function Undispatched(status: Status): Served {
    Served(status, None, 0, None)
  }

  /** The state of a node, with the Redis it shares. */
  datatype Node = Node(buckets: map<string, L.Bucket>, l1: Tier<Cached>, l2: Tier<Cached>,
                       metrics: map<string, H.Metrics>)

  /** What is left open: the selection, and the dispatched call's outcome. */
  datatype Choice = Choice(chosen: Option<Provider>, outcome: R.Outcome<ChatResponse>, sent: seq<S.Send>, rounds: nat)

  // ---------- Costs

  /** In cents. */
  function EstimateCost(model: string, promptTokens: int, completionTokens: int): real {
    var (promptRate, completionRate) :=
      if model == "gpt-4o" then (0.5, 1.5) else if model == "claude-3-sonnet" then (0.3, 1.5) else (0.1, 0.2);
    promptTokens as real * promptRate / 1000.0 + completionTokens as real * completionRate / 1000.0
  }

  lemma CostIsNotNegative(model: string, promptTokens: nat, completionTokens: nat)
    ensures EstimateCost(model, promptTokens, completionTokens) >= 0.0
  {
  }

  // ---------- The specification

  function LookUpTenant(g: Node, keyHash: string, env: Env): (Node, Option<Tenant>) {
    var key := TenantKey(keyHash);
    var (l1, found) := GetL1(g.l1, g.l2, key, env.tenantGet.now, env.tenantGet.up, env.tenantGet.kept);
    if found.Hit? then (g.(l1 := l1), if found.value.TenantData? then Some(found.value.tenant) else None)
    else if env.row.None? then (g.(l1 := l1), None)
    else
      var e := Entry(TenantData(env.row.value), Expiry(env.tenantSet.now, TENANT_TTL));
      (g.(l1 := WriteL1(l1, key, e, env.tenantSet.kept), l2 := SetL2(g.l2, key, e, env.tenantSet.up)), env.row)
  }

  function Call(tenant: Tenant, env: Env): L.Call {
    L.Call(tenant.rateLimitRPM, env.start, env.now)
  }

  /** The provider's error is recorded. */
  function Blamed(g: Node, p: Provider): Node {
    g.(metrics := g.metrics[p.name := H.Error(H.Of(g.metrics, p.name))])
  }

  /** handleSync after a success: it is recorded, logged with its cost, and cached. */
  function Responded(g: Node, tenant: Tenant, chat: ChatRequest, p: Provider, env: Env, r: ChatResponse, attempts: nat)
    : (Node, Served)
  {
    var key := ResponseKey(tenant.id, chat.model, chat.digest);
    var e := Entry(ResponseData(r), Expiry(env.responseSet.now, RESPONSE_TTL));
    (g.(metrics := g.metrics[p.name := H.Success(H.Of(g.metrics, p.name), env.latency)],
        l1 := WriteL1(g.l1, key, e, env.responseSet.kept), l2 := SetL2(g.l2, key, e, env.responseSet.up)),
     Served(Answered(r), Some(p), attempts,
            Some(S.LogEvent(r.promptTokens, r.completionTokens,
                            EstimateCost(r.model, r.promptTokens, r.completionTokens), 200))))
  }

  /** handleSync. */
  function Answer(g: Node, tenant: Tenant, chat: ChatRequest, p: Provider, env: Env,
                  o: R.Outcome<ChatResponse>): (Node, Served)
  {
    if o.reply.Response? then Responded(g, tenant, chat, p, env, o.reply.response, o.attempts)
    else (Blamed(g, p), Served(BadGateway, Some(p), o.attempts, None))
  }

  /** handleStream. */
  function Stream(g: Node, p: Provider, env: Env, sent: seq<S.Send>, rounds: nat): (Node, Served) {
    var session := S.Serve(S.Fresh(sent), [], env.turns);
    (if session.end.Recorded? then Blamed(g, p) else g,
     Served(Streamed(session), Some(p), rounds, if session.end.Logged? then Some(session.end.event) else None))
  }

  function Route(g: Node, providers: seq<Provider>, tenant: Tenant, chat: ChatRequest, env: Env,
                 c: Choice): (Node, Served)
  {
    var seen := g.(metrics := Seen(g.metrics, providers, tenant.allowlist));
    if c.chosen.None? then (seen, Undispatched(Unavailable))
    else if chat.stream then Stream(seen, c.chosen.value, env, c.sent, c.rounds)
    else Answer(seen, tenant, chat, c.chosen.value, env, c.outcome)
  }

  /** The cache check for a response. */
  function CachedResponse(g: Node, tenant: Tenant, chat: ChatRequest, a: Access): (Node, Option<ChatResponse>) {
    var (l1, found) := GetL1(g.l1, g.l2, ResponseKey(tenant.id, chat.model, chat.digest), a.now, a.up, a.kept);
    (g.(l1 := l1), if found.Hit? && found.value.ResponseData? then Some(found.value.response) else None)
  }

  /** The gates of a request that the limiter has admitted. */
  function Admitted(g: Node, providers: seq<Provider>, tenant: Tenant, req: Request, env: Env,
                    c: Choice): (Node, Served)
  {
    if req.body.None? then (g, Undispatched(BadRequest))
    else
      var chat := req.body.value;
      if chat.stream then Route(g, providers, tenant, chat, env, c)
      else
        var (looked, response) := CachedResponse(g, tenant, chat, env.responseGet);
        if response.Some? then (looked, Undispatched(FromCache(response.value)))
        else Route(looked, providers, tenant, chat, env, c)
  }

  /** The gates after the tenant is known, in their order. */
  function Gates(g: Node, providers: seq<Provider>, tenant: Tenant, req: Request, env: Env, c: Choice): (Node, Served) {
    if Exhausted(tenant) then (g, Undispatched(PaymentRequired))
    else
      var (buckets, verdict) := L.AllowIn(g.buckets, tenant.id, Call(tenant, env));
      var charged := g.(buckets := buckets);
      if !verdict.allowed then (charged, Undispatched(TooManyRequests))
      else Admitted(charged, providers, tenant, req, env, c)
  }

  function Serve(g: Node, providers: seq<Provider>, req: Request, env: Env, c: Choice): (Node, Served) {
    if req.keyHash.None? then (g, Undispatched(Unauthorized))
    else
      var (found, tenant) := LookUpTenant(g, req.keyHash.value, env);
      if tenant.None? then (found, Undispatched(Unauthorized)) else Gates(found, providers, tenant.value, req, env, c)
  }

  /** The choices a request may see: a selection the selector can make on the node's metrics, and an outcome the
      retry decorator can have. */
  ghost predicate Possible(metrics: map<string, H.Metrics>, providers: seq<Provider>, allowlist: seq<string>,
                           stream: bool, env: Env, c: Choice)
  {
    && Selects(metrics, providers, allowlist, c.chosen)
    && (c.chosen.Some? ==>
          if stream then S.IsPiped(c.chosen.value.maxRetries, env.stream, c.sent, c.rounds)
          else R.IsOutcome(c.chosen.value.maxRetries, env.chat, c.outcome))
  }

  /** What was served came about by possible choices, if it came as far as routing. */
  ghost predicate Lawful(g: Node, providers: seq<Provider>, req: Request, env: Env, c: Choice, served: Served) {
    served.dispatched.Some? || served.status.Unavailable? ==>
      && req.keyHash.Some? && req.body.Some? && LookUpTenant(g, req.keyHash.value, env).1.Some?
      && Possible(g.metrics, providers, LookUpTenant(g, req.keyHash.value, env).1.value.allowlist,
                  req.body.value.stream, env, c)
  }

  lemma GatesAreServing(g: Node, found: Node, providers: seq<Provider>, tenant: Tenant, req: Request, env: Env,
                        c: Choice, g': Node, served: Served)
    requires req.keyHash.Some? && (found, Some(tenant)) == LookUpTenant(g, req.keyHash.value, env)
    requires (g', served) == Gates(found, providers, tenant, req, env, c)
    requires served.dispatched.Some? || served.status.Unavailable? ==>
               req.body.Some? && Possible(found.metrics, providers, tenant.allowlist, req.body.value.stream, env, c)
    ensures (g', served) == Serve(g, providers, req, env, c) && Lawful(g, providers, req, env, c, served)
  {
    assert found.metrics == g.metrics;
  }

  /** Every key holds its own kind of entry. */
  ghost predicate WellKeyed(tier: Tier<Cached>) {
    && (forall k :: TenantKey(k) in tier ==> tier[TenantKey(k)].value.TenantData?)
    && (forall i, m, d :: ResponseKey(i, m, d) in tier ==> tier[ResponseKey(i, m, d)].value.ResponseData?)
  }

  lemma WriteTenant(tier: Tier<Cached>, keyHash: string, e: Entry<Cached>, kept: bool)
    requires WellKeyed(tier) && e.value.TenantData?
    ensures WellKeyed(WriteL1(tier, TenantKey(keyHash), e, kept)) && WellKeyed(SetL2(tier, TenantKey(keyHash), e, kept))
  {
    forall i, m, d
      ensures ResponseKey(i, m, d) != TenantKey(keyHash)
    {
      KeysDiffer(keyHash, i, m, d);
    }
  }

  lemma WriteResponse(tier: Tier<Cached>, i: string, m: string, d: string, e: Entry<Cached>,
                      kept: bool)
    requires WellKeyed(tier) && e.value.ResponseData?
    ensures WellKeyed(WriteL1(tier, ResponseKey(i, m, d), e, kept))
    ensures WellKeyed(SetL2(tier, ResponseKey(i, m, d), e, kept))
  {
    forall k
      ensures ResponseKey(i, m, d) != TenantKey(k)
    {
      KeysDiffer(k, i, m, d);
    }
  }

  // ---------- The handler

  const NO_OUTCOME: R.Outcome<ChatResponse> := R.Outcome(R.Exhausted(None), 0, 0)

  class GatewayHandler {
    const limiter: L.TokenBucket
    const cache: Cache<Cached>
    const selector: LatencyAwareSelector
    const providers: seq<Provider>

    constructor (limiter: L.TokenBucket, cache: Cache<Cached>, selector: LatencyAwareSelector, providers: seq<Provider>)
      ensures this.limiter == limiter && this.cache == cache && this.selector == selector && this.providers == providers
    {
      this.limiter, this.cache, this.selector, this.providers := limiter, cache, selector, providers;
    }

    ghost predicate Valid()
      reads limiter, cache, cache.redis, selector.monitor
    {
      limiter.Valid() && selector.monitor.Valid() && WellKeyed(cache.l1) && WellKeyed(cache.redis.entries)
    }

    ghost function View(): Node
      reads limiter, limiter.buckets.Values, cache, cache.redis, selector.monitor, selector.monitor.metrics.Values
    {
      Node(limiter.View(), cache.l1, cache.redis.entries, selector.monitor.View())
    }

    /** Auth and tenant lookup. */
    method LookUp(keyHash: string, env: Env) returns (tenant: Option<Tenant>)
      requires Valid()
      modifies cache, cache.redis
      ensures Valid() && (View(), tenant) == LookUpTenant(old(View()), keyHash, env)
    {
      var key := TenantKey(keyHash);
      var cached := cache.Get(key, env.tenantGet.now, env.tenantGet.up, env.tenantGet.kept);
      if cached.Hit? {
        assert cached.value.TenantData?;
        WriteTenant(old(cache.l1), keyHash, Entry(cached.value, Expiry(env.tenantGet.now, BACKFILL)), env.tenantGet.kept);
        return Some(cached.value.tenant);
      }
      if env.row.None? {
        return None;
      }
      Store(keyHash, env.row.value, env.tenantSet);
      return env.row;
    }

    /** The row that has been read goes into the cache. */
    method Store(keyHash: string, row: Tenant, a: Access)
      requires Valid()
      modifies cache, cache.redis
      ensures Valid()
      ensures var e := Entry(TenantData(row), Expiry(a.now, TENANT_TTL));
              View() == old(View()).(l1 := WriteL1(old(cache.l1), TenantKey(keyHash), e, a.kept),
                                     l2 := SetL2(old(cache.redis.entries), TenantKey(keyHash), e, a.up))
    {
      ghost var e := Entry(TenantData(row), Expiry(a.now, TENANT_TTL));
      WriteTenant(cache.l1, keyHash, e, a.kept);
      WriteTenant(cache.redis.entries, keyHash, e, a.up);
      var _ := cache.Set(TenantKey(keyHash), TenantData(row), TENANT_TTL, a.now, a.up, a.kept);
    }

    method ServeHTTP(req: Request, env: Env) returns (served: Served, ghost c: Choice)
      requires Valid()
      modifies limiter, limiter.buckets.Values, cache, cache.redis, selector.monitor, selector.monitor.metrics.Values
      ensures Valid() && fresh(limiter.buckets.Values - old(limiter.buckets.Values))
      ensures fresh(selector.monitor.metrics.Values - old(selector.monitor.metrics.Values))
      ensures (View(), served) == Serve(old(View()), providers, req, env, c)
      ensures Lawful(old(View()), providers, req, env, c, served)
    {
      c := Choice(None, NO_OUTCOME, [], 0);
      // 1. auth and tenant lookup
      if req.keyHash.None? {
        return Undispatched(Unauthorized), c;
      }
      var tenant := LookUp(req.keyHash.value, env);
      if tenant.None? {
        return Undispatched(Unauthorized), c;
      }
      ghost var found := View();
      served, c := PassGates(tenant.value, req, env);
      GatesAreServing(old(View()), found, providers, tenant.value, req, env, c, View(), served);
    }

    method PassGates(tenant: Tenant, req: Request, env: Env) returns (served: Served, ghost c: Choice)
      requires Valid()
      modifies limiter, limiter.buckets.Values, cache, cache.redis, selector.monitor, selector.monitor.metrics.Values
      ensures Valid() && fresh(limiter.buckets.Values - old(limiter.buckets.Values))
      ensures fresh(selector.monitor.metrics.Values - old(selector.monitor.metrics.Values))
      ensures (View(), served) == Gates(old(View()), providers, tenant, req, env, c)
      ensures served.dispatched.Some? || served.status.Unavailable? ==>
                req.body.Some?
                && Possible(old(View()).metrics, providers, tenant.allowlist, req.body.value.stream, env, c)
    {
      c := Choice(None, NO_OUTCOME, [], 0);
      // 2. budget
      if tenant.budgetCents > 0 && tenant.spentCents >= tenant.budgetCents {
        return Undispatched(PaymentRequired), c;
      }
      // 3. rate limit
      var verdict := TakeToken(tenant, env);
      if !verdict.allowed {
        return Undispatched(TooManyRequests), c;
      }
      served, c := Admit(tenant, req, env);
    }

    method TakeToken(tenant: Tenant, env: Env) returns (verdict: L.Verdict)
      requires Valid()
      modifies limiter, limiter.buckets.Values
      ensures Valid() && fresh(limiter.buckets.Values - old(limiter.buckets.Values))
      ensures var (buckets, v) := L.AllowIn(old(View()).buckets, tenant.id, Call(tenant, env));
              View() == old(View()).(buckets := buckets) && verdict == v
    {
      verdict := limiter.Allow(tenant.id, tenant.rateLimitRPM, env.start, env.now);
    }

    method Admit(tenant: Tenant, req: Request, env: Env) returns (served: Served, ghost c: Choice)
      requires Valid()
      modifies cache, cache.redis, selector.monitor, selector.monitor.metrics.Values
      ensures Valid() && fresh(selector.monitor.metrics.Values - old(selector.monitor.metrics.Values))
      ensures (View(), served) == Admitted(old(View()), providers, tenant, req, env, c)
      ensures served.dispatched.Some? || served.status.Unavailable? ==>
                req.body.Some?
                && Possible(old(View()).metrics, providers, tenant.allowlist, req.body.value.stream, env, c)
    {
      c := Choice(None, NO_OUTCOME, [], 0);
      // 4. parse
      if req.body.None? {
        return Undispatched(BadRequest), c;
      }
      var chat := req.body.value;
      // 5. response cache
      if !chat.stream {
        var cached := LookUpResponse(tenant, chat, env.responseGet);
        if cached.Some? {
          return Undispatched(FromCache(cached.value)), c;
        }
      }
      // 6. routing and dispatch
      served, c := Dispatch(tenant, chat, env);
    }

    /** The cache check for a response. */
    method LookUpResponse(tenant: Tenant, chat: ChatRequest, a: Access) returns (cached: Option<ChatResponse>)
      requires Valid()
      modifies cache, cache.redis
      ensures Valid() && (View(), cached) == CachedResponse(old(View()), tenant, chat, a)
    {
      ghost var key := ResponseKey(tenant.id, chat.model, chat.digest);
      assert key in cache.l1 ==> cache.l1[key].value.ResponseData?;
      assert key in cache.redis.entries ==> cache.redis.entries[key].value.ResponseData?;
      var fetched := cache.Get(ResponseKey(tenant.id, chat.model, chat.digest), a.now, a.up, a.kept);
      if fetched.Hit? {
        WriteResponse(old(cache.l1), tenant.id, chat.model, chat.digest,
                      Entry(fetched.value, Expiry(a.now, BACKFILL)), a.kept);
        return Some(fetched.value.response);
      }
      return None;
    }

    method Dispatch(tenant: Tenant, chat: ChatRequest, env: Env) returns (served: Served, ghost c: Choice)
      requires Valid()
      modifies cache, cache.redis, selector.monitor, selector.monitor.metrics.Values
      ensures Valid() && fresh(selector.monitor.metrics.Values - old(selector.monitor.metrics.Values))
      ensures (View(), served) == Route(old(View()), providers, tenant, chat, env, c)
      ensures Possible(old(View()).metrics, providers, tenant.allowlist, chat.stream, env, c)
    {
      var p := selector.Select(providers, tenant.allowlist);
      if p.None? {
        return Undispatched(Unavailable), Choice(p, NO_OUTCOME, [], 0);
      }
      if chat.stream {
        var sent, rounds;
        served, sent, rounds := HandleStream(p.value, env);
        c := Choice(p, NO_OUTCOME, sent, rounds);
      } else {
        var o;
        served, o := HandleSync(p.value, tenant, chat, env);
        c := Choice(p, o, [], 0);
      }
    }

    method HandleSync(p: Provider, tenant: Tenant, chat: ChatRequest, env: Env)
      returns (served: Served, o: R.Outcome<ChatResponse>)
      requires Valid()
      modifies cache, cache.redis, selector.monitor, selector.monitor.metrics.Values
      ensures Valid() && fresh(selector.monitor.metrics.Values - old(selector.monitor.metrics.Values))
      ensures (View(), served) == Answer(old(View()), tenant, chat, p, env, o)
      ensures R.IsOutcome(p.maxRetries, env.chat, o)
    {
      o := R.Chat(p.maxRetries, env.chat);
      served := Finish(p, tenant, chat, env, o);
    }

    /** The part of handleSync after the provider's answer. */
    method Finish(p: Provider, tenant: Tenant, chat: ChatRequest, env: Env, o: R.Outcome<ChatResponse>)
      returns (served: Served)
      requires Valid()
      modifies cache, cache.redis, selector.monitor, selector.monitor.metrics.Values
      ensures Valid() && fresh(selector.monitor.metrics.Values - old(selector.monitor.metrics.Values))
      ensures (View(), served) == Answer(old(View()), tenant, chat, p, env, o)
    {
      if o.reply.Response? {
        served := Respond(p, tenant, chat, env, o.reply.response, o.attempts);
      } else {
        RecordError(p);
        served := Served(BadGateway, Some(p), o.attempts, None);
      }
    }

    /** The part of handleSync after a success. */
    method Respond(p: Provider, tenant: Tenant, chat: ChatRequest, env: Env, r: ChatResponse, attempts: nat)
      returns (served: Served)
      requires Valid()
      modifies cache, cache.redis, selector.monitor, selector.monitor.metrics.Values
      ensures Valid() && fresh(selector.monitor.metrics.Values - old(selector.monitor.metrics.Values))
      ensures (View(), served) == Responded(old(View()), tenant, chat, p, env, r, attempts)
    {
      selector.monitor.RecordSuccess(p.name, env.latency);
      label recorded:
      assert View() == old(View()).(metrics := selector.monitor.View());
      var event := S.LogEvent(r.promptTokens, r.completionTokens,
                              EstimateCost(r.model, r.promptTokens, r.completionTokens), 200);
      Remember(tenant, chat, r, env.responseSet);
      assert View().buckets == old@recorded(View()).buckets && View().metrics == old@recorded(View()).metrics;
      return Served(Answered(r), Some(p), attempts, Some(event));
    }

    /** The response goes into the cache. */
    method Remember(tenant: Tenant, chat: ChatRequest, r: ChatResponse, a: Access)
      requires Valid()
      modifies cache, cache.redis
      ensures Valid()
      ensures var key := ResponseKey(tenant.id, chat.model, chat.digest);
              var e := Entry(ResponseData(r), Expiry(a.now, RESPONSE_TTL));
              View() == old(View()).(l1 := WriteL1(old(cache.l1), key, e, a.kept),
                                     l2 := SetL2(old(cache.redis.entries), key, e, a.up))
    {
      ghost var e := Entry(ResponseData(r), Expiry(a.now, RESPONSE_TTL));
      WriteResponse(cache.l1, tenant.id, chat.model, chat.digest, e, a.kept);
      WriteResponse(cache.redis.entries, tenant.id, chat.model, chat.digest, e, a.up);
      var key := ResponseKey(tenant.id, chat.model, chat.digest);
      var _ := cache.Set(key, ResponseData(r), RESPONSE_TTL, a.now, a.up, a.kept);
    }

    method HandleStream(p: Provider, env: Env) returns (served: Served, sent: seq<S.Send>, rounds: nat)
      requires Valid()
      modifies selector.monitor, selector.monitor.metrics.Values
      ensures Valid() && fresh(selector.monitor.metrics.Values - old(selector.monitor.metrics.Values))
      ensures (View(), served) == Stream(old(View()), p, env, sent, rounds)
      ensures S.IsPiped(p.maxRetries, env.stream, sent, rounds)
    {
      var slept;
      sent, rounds, slept := S.ChatStream(p.maxRetries, env.stream);
      served := Relay(p, env, sent, rounds);
    }

    /** The part of handleStream that reads the two channels. */
    method Relay(p: Provider, env: Env, sent: seq<S.Send>, rounds: nat) returns (served: Served)
      requires Valid()
      modifies selector.monitor, selector.monitor.metrics.Values
      ensures Valid() && fresh(selector.monitor.metrics.Values - old(selector.monitor.metrics.Values))
      ensures (View(), served) == Stream(old(View()), p, env, sent, rounds)
    {
      var session := S.HandleStream(S.Fresh(sent), env.turns);
      if session.end.Recorded? {
        RecordError(p);
      }
      served := Served(Streamed(session), Some(p), rounds, if session.end.Logged? then Some(session.end.event) else None);
    }

    method RecordError(p: Provider)
      requires Valid()
      modifies selector.monitor, selector.monitor.metrics.Values
      ensures Valid() && fresh(selector.monitor.metrics.Values - old(selector.monitor.metrics.Values))
      ensures View() == Blamed(old(View()), p)
    {
      selector.monitor.RecordError(p.name);
    }
  }
}
