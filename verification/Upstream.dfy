/**
 What one node can be made to send upstream: from the limiter, through the gates and the selection, to the retry
 loops around the base providers.
 */
module Upstream {
  import opened Wrappers
  import opened Tenants
  import opened Gateway
  import opened Selector
  import opened TwoTierCache
  import H = Health
  import L = RateLimit
  import LT = LimiterTheorems
  import R = Retry
  import S = Streaming

  /** One request, its circumstances, and the choices made while serving it. */
  datatype Exchange = Exchange(req: Request, env: Env, choice: Choice)

  function Step(g: Node, providers: seq<Provider>, x: Exchange): (Node, Served) {
    Serve(g, providers, x.req, x.env, x.choice)
  }

  /** The tenant a request is found to come from. */
  function Who(g: Node, x: Exchange): Option<Tenant> {
    if x.req.keyHash.None? then None else LookUpTenant(g, x.req.keyHash.value, x.env).1
  }

  predicate IsFrom(g: Node, x: Exchange, id: string) {
    Who(g, x).Some? && Who(g, x).value.id == id
  }

  /** A request arrives at a node whose caches and monitor have become what they may: through other requests still in
      flight, through other nodes, through losses. Only the limiter's buckets are the node's alone, and change under
      a lock. */
  datatype Arrival = Arrival(l1: Tier<Cached>, l2: Tier<Cached>, metrics: map<string, H.Metrics>, x: Exchange)

  type Buckets = map<string, L.Bucket>

  function Found(buckets: Buckets, a: Arrival): Node {
    Node(buckets, a.l1, a.l2, a.metrics)
  }

  ghost predicate Legal(g: Buckets, providers: seq<Provider>, xs: seq<Arrival>)
    decreases |xs|
  {
    xs == [] ||
    (var (g', served) := Step(Found(g, xs[0]), providers, xs[0].x);
     && Lawful(Found(g, xs[0]), providers, xs[0].x.req, xs[0].x.env, xs[0].x.choice, served)
     && Legal(g'.buckets, providers, xs[1..]))
  }

  /** What one of a tenant's requests uses: a call of the limiter, if it comes that far, and base-provider calls. */
  datatype Use = Use(call: Option<L.Call>, attempts: nat)

  /** What a tenant's requests use, one after the other. */
  function Uses(g: Buckets, providers: seq<Provider>, xs: seq<Arrival>, id: string): seq<Use>
    decreases |xs|
  {
    if xs == [] then []
    else
      var (h', served) := Step(Found(g, xs[0]), providers, xs[0].x);
      var rest := Uses(h'.buckets, providers, xs[1..], id);
      if IsFrom(Found(g, xs[0]), xs[0].x, id) then [Use(LimiterCall(Found(g, xs[0]), xs[0].x), served.attempts)] + rest
      else rest
  }

  function LimiterCall(g: Node, x: Exchange): Option<L.Call>
    requires Who(g, x).Some?
  {
    if Exhausted(Who(g, x).value) then None else Some(Gateway.Call(Who(g, x).value, x.env))
  }

  function Attempts(uses: seq<Use>): nat {
    if uses == [] then 0 else uses[0].attempts + Attempts(uses[1..])
  }

  function Calls(uses: seq<Use>): seq<L.Call> {
    if uses == [] then []
    else if uses[0].call.Some? then [uses[0].call.value] + Calls(uses[1..])
    else Calls(uses[1..])
  }

  lemma AdmittedKeepsBuckets(g: Node, providers: seq<Provider>, tenant: Tenant, req: Request,
                             env: Env, c: Choice)
    ensures Admitted(g, providers, tenant, req, env, c).0.buckets == g.buckets
  {
  }

  /** The gates of a known tenant spend from its own bucket only, and nothing is dispatched past a denial. */
  lemma GatesStep(g: Node, providers: seq<Provider>, tenant: Tenant, req: Request, env: Env,
                  c: Choice)
    ensures var (g', served) := Gates(g, providers, tenant, req, env, c);
            if Exhausted(tenant) then g' == g && served.attempts == 0
            else
              var (b, v) := L.Allow(Get(g.buckets, tenant.id), Gateway.Call(tenant, env));
              g'.buckets == g.buckets[tenant.id := b] && (!v.allowed ==> served.attempts == 0)
  {
    if !Exhausted(tenant) {
      var (buckets, verdict) := L.AllowIn(g.buckets, tenant.id, Gateway.Call(tenant, env));
      AdmittedKeepsBuckets(g.(buckets := buckets), providers, tenant, req, env, c);
    }
  }

  /** What a request does to a tenant's bucket. */
  lemma BucketStep(g: Node, providers: seq<Provider>, x: Exchange, id: string)
    ensures var (g', served) := Step(g, providers, x);
            if IsFrom(g, x, id) && !Exhausted(Who(g, x).value) then
              var (b, v) := L.Allow(Get(g.buckets, id), Gateway.Call(Who(g, x).value, x.env));
              Get(g'.buckets, id) == Some(b) && (!v.allowed ==> served.attempts == 0)
            else
              Get(g'.buckets, id) == Get(g.buckets, id) && (IsFrom(g, x, id) ==> served.attempts == 0)
  {
    if Who(g, x).Some? {
      var found := LookUpTenant(g, x.req.keyHash.value, x.env).0;
      assert found.buckets == g.buckets;
      GatesStep(found, providers, Who(g, x).value, x.req, x.env, x.choice);
    }
  }

  /** A request is dispatched at most once, to the provider selected, and how often that calls its base is up to its
      retry loop; any other request calls none. */
  lemma DispatchedOnce(g: Node, providers: seq<Provider>, x: Exchange)
    ensures var served := Step(g, providers, x).1;
            && (served.dispatched.Some? ==> served.dispatched == x.choice.chosen)
            && (served.dispatched.Some? <==>
                  served.status.Answered? || served.status.BadGateway? || served.status.Streamed?)
            && served.attempts == if served.dispatched.None? then 0
                                  else if served.status.Streamed? then x.choice.rounds
                                  else x.choice.outcome.attempts
  {
    if Who(g, x).Some? {
      var (found, tenant) := LookUpTenant(g, x.req.keyHash.value, x.env);
      if !Exhausted(tenant.value) {
        var buckets := L.AllowIn(found.buckets, tenant.value.id, Gateway.Call(tenant.value, x.env)).0;
        AdmittedOnce(found.(buckets := buckets), providers, tenant.value, x);
      }
    }
  }

  lemma AdmittedOnce(g: Node, providers: seq<Provider>, t: Tenant, x: Exchange)
    ensures var served := Admitted(g, providers, t, x.req, x.env, x.choice).1;
            && (served.dispatched.Some? ==> served.dispatched == x.choice.chosen)
            && (served.dispatched.Some? <==>
                  served.status.Answered? || served.status.BadGateway? || served.status.Streamed?)
            && served.attempts == if served.dispatched.None? then 0
                                  else if served.status.Streamed? then x.choice.rounds
                                  else x.choice.outcome.attempts
  {
  }

  /** A served request calls base providers at most once more than it may retry. */
  lemma AttemptsAreBounded(g: Node, providers: seq<Provider>, x: Exchange, maxRetries: nat)
    requires Lawful(g, providers, x.req, x.env, x.choice, Step(g, providers, x).1)
    requires forall p :: p in providers ==> p.maxRetries <= maxRetries
    ensures Step(g, providers, x).1.attempts <= maxRetries + 1
  {
    DispatchedOnce(g, providers, x);
    if Step(g, providers, x).1.dispatched.Some? {
      SelectionIsArgMin(g.metrics, providers, Who(g, x).value.allowlist, x.choice.chosen);
      StreamsAreStreamed(g, providers, x);
    }
  }

  lemma StreamsAreStreamed(g: Node, providers: seq<Provider>, x: Exchange)
    requires Step(g, providers, x).1.dispatched.Some?
    ensures x.req.body.Some? && (x.req.body.value.stream <==> Step(g, providers, x).1.status.Streamed?)
  {
  }

  /** Every use that calls upstream has been admitted, and makes at most k calls. */
  predicate Paid(b: Option<L.Bucket>, uses: seq<Use>, k: nat)
    decreases |uses|
  {
    uses == [] ||
    match uses[0].call
    case None => uses[0].attempts == 0 && Paid(b, uses[1..], k)
    case Some(call) =>
      var (b', v) := L.Allow(b, call);
      uses[0].attempts <= (if v.allowed then k else 0) && Paid(Some(b'), uses[1..], k)
  }

  lemma {:induction false} UsesArePaid(g: Buckets, providers: seq<Provider>, xs: seq<Arrival>, id: string,
                                       maxRetries: nat)
    requires Legal(g, providers, xs) && forall p :: p in providers ==> p.maxRetries <= maxRetries
    ensures Paid(Get(g, id), Uses(g, providers, xs, id), maxRetries + 1)
    decreases |xs|
  {
    if xs == [] {
    } else {
      var h, x := Found(g, xs[0]), xs[0].x;
      var later := Step(h, providers, x).0.buckets;
      BucketStep(h, providers, x, id);
      AttemptsAreBounded(h, providers, x, maxRetries);
      UsesArePaid(later, providers, xs[1..], id, maxRetries);
      var rest := Uses(later, providers, xs[1..], id);
      if IsFrom(h, x, id) {
        assert Uses(g, providers, xs, id)[1..] == rest;
      }
    }
  }

  lemma {:induction false} PaidByAdmissions(b: Option<L.Bucket>, uses: seq<Use>, k: nat)
    requires Paid(b, uses, k)
    ensures Attempts(uses) <= k * LT.Admitted(LT.Run(b, Calls(uses)))
    decreases |uses|
  {
    if uses == [] {
    } else {
      var rest := Calls(uses[1..]);
      match uses[0].call
      case None => PaidByAdmissions(b, uses[1..], k);
      case Some(call) =>
        var (b', v) := L.Allow(b, call);
        PaidByAdmissions(Some(b'), uses[1..], k);
        LT.FirstCall(b, call, rest);
        Times(k, LT.Admitted(LT.Run(Some(b'), rest)));
    }
  }

  /** What a tenant's requests cause upstream is at most maxRetries + 1 times what the limiter admits of them. */
  lemma AttemptsFollowAdmissions(g: Buckets, providers: seq<Provider>, xs: seq<Arrival>,
                                 id: string, maxRetries: nat)
    requires Legal(g, providers, xs) && forall p :: p in providers ==> p.maxRetries <= maxRetries
    ensures var uses := Uses(g, providers, xs, id);
            Attempts(uses) <= (maxRetries + 1) * LT.Admitted(LT.Run(Get(g, id), Calls(uses)))
  {
    UsesArePaid(g, providers, xs, id, maxRetries);
    PaidByAdmissions(Get(g, id), Uses(g, providers, xs, id), maxRetries + 1);
  }

  lemma Times(k: int, b: int)
    ensures k * (1 + b) == k + k * b && k * (0 + b) == k * b
  {
  }

  /** Every request that is found to come from the tenant is found with this limit. */
  ghost predicate HasLimit(xs: seq<Arrival>, id: string, limit: int) {
    forall a :: a in xs && IsFrom(Found(map[], a), a.x, id) ==> Who(Found(map[], a), a.x).value.rateLimitRPM == limit
  }

  /** The limiter is asked with the tenant's own limit. */
  lemma {:induction false} CallsHaveLimit(g: Buckets, providers: seq<Provider>, xs: seq<Arrival>, id: string,
                                          limit: int)
    requires HasLimit(xs, id, limit)
    ensures LT.Fixed(limit, Calls(Uses(g, providers, xs, id)))
    decreases |xs|
  {
    if xs == [] {
    } else {
      var h, x := Found(g, xs[0]), xs[0].x;
      var later := Step(h, providers, x).0.buckets;
      assert xs[0] in xs && forall a :: a in xs[1..] ==> a in xs;
      CallsHaveLimit(later, providers, xs[1..], id, limit);
      assert Who(h, x) == Who(Found(map[], xs[0]), x);
      if IsFrom(h, x, id) {
        var use := Use(LimiterCall(h, x), Step(h, providers, x).1.attempts);
        assert ([use] + Uses(later, providers, xs[1..], id))[1..] == Uses(later, providers, xs[1..], id);
      }
    }
  }

  /** End to end: with a fixed limit of the tenant's and a clock that does not run backwards, what its requests cause
      upstream on one node since its bucket was created is at most what the limiter may admit by then, times the
      attempts a dispatch may make. */
  lemma UpstreamBound(g: Buckets, providers: seq<Provider>, xs: seq<Arrival>, id: string,
                      limit: int, maxRetries: nat)
    requires Legal(g, providers, xs) && id !in g && limit >= 1 && HasLimit(xs, id, limit)
    requires forall p :: p in providers ==> p.maxRetries <= maxRetries
    requires LT.Timed(None, Calls(Uses(g, providers, xs, id)))
    ensures var uses := Uses(g, providers, xs, id); var calls := Calls(uses);
            if calls == [] then Attempts(uses) == 0
            else 10 * L.TOKEN * Attempts(uses)
                 <= (maxRetries + 1) * LT.TenfoldGrant(limit, calls[|calls| - 1].now - calls[0].start)
  {
    var uses := Uses(g, providers, xs, id);
    CallsHaveLimit(g, providers, xs, id, limit);
    AttemptsFollowAdmissions(g, providers, xs, id, maxRetries);
    assert Get(g, id) == None;
    AdmittedTraceBound(Calls(uses), limit, maxRetries + 1, Attempts(uses));
  }

  /** What is at most k times the admissions of a new tenant's trace. */
  lemma AdmittedTraceBound(calls: seq<L.Call>, limit: int, k: nat, attempts: nat)
    requires limit >= 1 && LT.Fixed(limit, calls) && LT.Timed(None, calls)
    requires attempts <= k * LT.Admitted(LT.Run(None, calls))
    ensures if calls == [] then attempts == 0
            else 10 * L.TOKEN * attempts <= k * LT.TenfoldGrant(limit, calls[|calls| - 1].now - calls[0].start)
  {
    if calls != [] {
      LT.CreationBound(calls, limit);
      Chain(attempts, k, LT.Admitted(LT.Run(None, calls)),
            LT.TenfoldGrant(limit, calls[|calls| - 1].now - calls[0].start));
    }
  }

  lemma Chain(attempts: nat, k: nat, admitted: nat, grant: int)
    requires attempts <= k * admitted && 10 * L.TOKEN * admitted <= grant
    ensures 10 * L.TOKEN * attempts <= k * grant
  {
    Scale(k, 10 * L.TOKEN * admitted, grant);
    assert k * (10 * L.TOKEN * admitted) == 10 * L.TOKEN * (k * admitted);
  }

  lemma Scale(k: nat, x: int, y: int)
    requires x <= y
    ensures k * x <= k * y
  {
  }
}
