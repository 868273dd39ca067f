/**
 What serving requests on a node amounts to: steps of the dispatch loop, a response cache that never mixes tenants
 up, and log events that the budget processor charges.
 */
module GatewayTheorems {
  import opened Wrappers
  import opened Tenants
  import opened TwoTierCache
  import opened Gateway
  import opened Selector
  import opened Upstream
  import D = Dispatch
  import H = Health
  import L = RateLimit
  import S = Streaming

  // ---------- Serving is dispatching and completing

  /** How a dispatched request ended, as the monitor sees it. */
  function Ending(served: Served, env: Env): D.Ending {
    match served.status
    case Answered(_) => D.Succeeded(env.latency)
    case BadGateway => D.Failed
    case Streamed(session) => if session.end.Recorded? then D.Failed else D.Unrecorded
    case _ => D.Unrecorded
  }

  /** Whatever has become of the monitor (and of the rest of the node) since a request was dispatched: when it
      completes, its handler does to the monitor what a completion step of the dispatch loop does, and a streamed
      request never records a success. */
  lemma CompletionIsAStep(later: Node, tenant: Tenant, chat: ChatRequest, p: Provider, env: Env, c: Choice)
    ensures var (g', served) := if chat.stream then Stream(later, p, env, c.sent, c.rounds)
                                else Answer(later, tenant, chat, p, env, c.outcome);
            && served.dispatched == Some(p)
            && g'.metrics == D.Ended(later.metrics, p.name, Ending(served, env))
            && (chat.stream ==> !Ending(served, env).Succeeded?)
  {
  }

  /** And when it is dispatched, its handler does what a request step does. */
  lemma SelectionIsAStep(g: Node, providers: seq<Provider>, tenant: Tenant, chat: ChatRequest, env: Env, c: Choice,
                         inFlight: map<string, nat>)
    requires Possible(g.metrics, providers, tenant.allowlist, chat.stream, env, c)
    ensures var s, request := D.Loop(g.metrics, inFlight), D.Request(tenant.allowlist, c.chosen);
            var seen := D.Apply(providers, s, request);
            && D.Legal(providers, s, [request])
            && (c.chosen.None? ==> Route(g, providers, tenant, chat, env, c).0.metrics == seen.metrics)
            && (c.chosen.Some? ==>
                  && D.InFlight(seen, c.chosen.value.name) > 0
                  && Route(g, providers, tenant, chat, env, c)
                     == if chat.stream then Stream(g.(metrics := seen.metrics), c.chosen.value, env, c.sent, c.rounds)
                        else Answer(g.(metrics := seen.metrics), tenant, chat, c.chosen.value, env, c.outcome))
  {
    assert [D.Request(tenant.allowlist, c.chosen)][1..] == [];
  }

  /** The steps of the dispatch loop that serving a request makes. */
  function Steps(g: Node, x: Exchange, served: Served): seq<D.Step> {
    if Who(g, x).None? then []
    else if served.dispatched.Some? then
      [D.Request(Who(g, x).value.allowlist, x.choice.chosen),
       D.Complete(served.dispatched.value.name, Ending(served, x.env))]
    else if served.status.Unavailable? then [D.Request(Who(g, x).value.allowlist, None)]
    else []
  }

  /** Serving one request from start to end is a run of the dispatch loop: one selection that the loop allows, followed
      by the completion of just that dispatch. (With others served in between, SelectionIsAStep and CompletionIsAStep
      say the same of its two halves.) */
  lemma ServingDispatches(g: Node, providers: seq<Provider>, x: Exchange, inFlight: map<string, nat>)
    requires Lawful(g, providers, x.req, x.env, x.choice, Step(g, providers, x).1) && D.IsDuration(x.env.latency)
    ensures var (g', served) := Step(g, providers, x);
            var s, steps := D.Loop(g.metrics, inFlight), Steps(g, x, served);
            && D.Legal(providers, s, steps)
            && D.Run(providers, s, steps).metrics == g'.metrics
            && (forall name :: D.InFlight(D.Run(providers, s, steps), name) == D.InFlight(s, name))
            && (served.dispatched.Some? ==> D.Dispatches(steps[0], served.dispatched.value.name))
  {
    var (g', served) := Step(g, providers, x);
    if served.dispatched.Some? {
      RoutedMetrics(g, providers, x);
      Roundtrip(providers, D.Loop(g.metrics, inFlight), Who(g, x).value.allowlist, served.dispatched.value,
                Ending(served, x.env));
    } else if served.status.Unavailable? {
      RoutedMetrics(g, providers, x);
      assert [D.Request(Who(g, x).value.allowlist, None)][1..] == [];
    } else {
      UnroutedMetrics(g, providers, x);
    }
  }

  /** A dispatch and its completion. */
  lemma Roundtrip(providers: seq<Provider>, s: D.Loop, allowlist: seq<string>, p: Provider, ending: D.Ending)
    requires Selects(s.metrics, providers, allowlist, Some(p))
    requires ending.Succeeded? ==> D.IsDuration(ending.latency)
    ensures var steps := [D.Request(allowlist, Some(p)), D.Complete(p.name, ending)];
            && D.Legal(providers, s, steps)
            && D.Run(providers, s, steps).metrics == D.Ended(Seen(s.metrics, providers, allowlist), p.name, ending)
            && (forall name :: D.InFlight(D.Run(providers, s, steps), name) == D.InFlight(s, name))
  {
    var request, complete := D.Request(allowlist, Some(p)), D.Complete(p.name, ending);
    var s1 := D.Apply(providers, s, request);
    assert [request, complete][1..] == [complete] && [complete][1..] == [];
    assert D.Run(providers, s, [request, complete]) == D.Run(providers, s1, [complete])
           == D.Apply(providers, s1, complete);
    assert D.Legal(providers, s1, [complete]);
  }

  /** What routing does to the monitor. */
  lemma RoutedMetrics(g: Node, providers: seq<Provider>, x: Exchange)
    requires var served := Step(g, providers, x).1; served.dispatched.Some? || served.status.Unavailable?
    ensures Who(g, x).Some? && Step(g, providers, x).1.dispatched == x.choice.chosen
    ensures var (g', served) := Step(g, providers, x);
            var seen := Seen(g.metrics, providers, Who(g, x).value.allowlist);
            g'.metrics == if served.dispatched.None? then seen
                          else D.Ended(seen, served.dispatched.value.name, Ending(served, x.env))
  {
    var (found, tenant) := LookUpTenant(g, x.req.keyHash.value, x.env);
    assert found.metrics == g.metrics;
    GatesMetrics(found, providers, tenant.value, x.req, x.env, x.choice);
  }

  lemma UnroutedMetrics(g: Node, providers: seq<Provider>, x: Exchange)
    requires var served := Step(g, providers, x).1; served.dispatched.None? && !served.status.Unavailable?
    ensures Step(g, providers, x).0.metrics == g.metrics
  {
    if Who(g, x).Some? {
      var (found, tenant) := LookUpTenant(g, x.req.keyHash.value, x.env);
      assert found.metrics == g.metrics;
      GatesMetrics(found, providers, tenant.value, x.req, x.env, x.choice);
    }
  }

  lemma GatesMetrics(g: Node, providers: seq<Provider>, tenant: Tenant, req: Request, env: Env,
                     c: Choice)
    ensures var (g', served) := Gates(g, providers, tenant, req, env, c);
            var seen := Seen(g.metrics, providers, tenant.allowlist);
            if served.dispatched.Some? then
              served.dispatched == c.chosen
              && g'.metrics == D.Ended(seen, served.dispatched.value.name, Ending(served, env))
            else if served.status.Unavailable? then c.chosen.None? && g'.metrics == seen
            else g'.metrics == g.metrics
  {
    if !Exhausted(tenant) {
      var (buckets, verdict) := AllowedBuckets(g, tenant, env);
      AdmittedMetrics(g.(buckets := buckets), providers, tenant, req, env, c);
    }
  }

  function AllowedBuckets(g: Node, tenant: Tenant, env: Env): (map<string, L.Bucket>, L.Verdict) {
    L.AllowIn(g.buckets, tenant.id, Gateway.Call(tenant, env))
  }

  lemma AdmittedMetrics(g: Node, providers: seq<Provider>, tenant: Tenant, req: Request, env: Env, c: Choice)
    ensures var (g', served) := Admitted(g, providers, tenant, req, env, c);
            var seen := Seen(g.metrics, providers, tenant.allowlist);
            if served.dispatched.Some? then
              served.dispatched == c.chosen
              && g'.metrics == D.Ended(seen, served.dispatched.value.name, Ending(served, env))
            else if served.status.Unavailable? then c.chosen.None? && g'.metrics == seen
            else g'.metrics == g.metrics
  {
    if req.body.Some? {
      var chat := req.body.value;
      if chat.stream {
        RouteMetrics(g, providers, tenant, chat, env, c);
      } else {
        RouteMetrics(CachedResponse(g, tenant, chat, env.responseGet).0, providers, tenant, chat, env, c);
      }
    }
  }

  lemma RouteMetrics(g: Node, providers: seq<Provider>, tenant: Tenant, chat: ChatRequest, env: Env, c: Choice)
    ensures var (g', served) := Route(g, providers, tenant, chat, env, c);
            var seen := Seen(g.metrics, providers, tenant.allowlist);
            && served.dispatched == c.chosen && (c.chosen.None? ==> served.status.Unavailable?)
            && g'.metrics == if c.chosen.None? then seen else D.Ended(seen, c.chosen.value.name, Ending(served, env))
  {
    if c.chosen.Some? {
      CompletionIsAStep(g.(metrics := Seen(g.metrics, providers, tenant.allowlist)), tenant, chat, c.chosen.value, env, c);
    }
  }

  // ---------- Gates

  /** Who gets how far: a request is rejected at the first gate that holds against it, and only a known tenant with
      budget and a token left can be parsed, served from the cache, or sent upstream. A budget of zero is no budget.
      Before the limiter nothing is spent; past it, exactly one token of that tenant is, at the tenant's own limit. */
  lemma GatesInOrder(g: Node, providers: seq<Provider>, x: Exchange)
    ensures var (g', served) := Step(g, providers, x);
            var tenant := Who(g, x);
            && (served.status.Unauthorized? <==> tenant.None?)
            && (served.status.PaymentRequired? <==>
                  tenant.Some? && 0 < tenant.value.budgetCents <= tenant.value.spentCents)
            && (if served.status.Unauthorized? || served.status.PaymentRequired? then
                  g'.buckets == g.buckets && g'.metrics == g.metrics && served.attempts == 0 && served.log.None?
                else
                  var id, call := tenant.value.id, L.Call(tenant.value.rateLimitRPM, x.env.start, x.env.now);
                  var (bucket, verdict) := L.Allow(Get(g.buckets, id), call);
                  && g'.buckets == g.buckets[id := bucket]
                  && (served.status.TooManyRequests? <==> !verdict.allowed)
                  && (!verdict.allowed ==> g'.metrics == g.metrics && served.attempts == 0 && served.log.None?))
  {
    if Who(g, x).Some? {
      var (found, tenant) := LookUpTenant(g, x.req.keyHash.value, x.env);
      assert found.buckets == g.buckets && found.metrics == g.metrics;
      if !Exhausted(tenant.value) {
        var (buckets, verdict) := AllowedBuckets(found, tenant.value, x.env);
        if verdict.allowed {
          PastTheLimiter(found.(buckets := buckets), providers, tenant.value, x.req, x.env, x.choice);
        }
      }
    }
  }

  lemma PastTheLimiter(g: Node, providers: seq<Provider>, tenant: Tenant, req: Request, env: Env,
                       c: Choice)
    ensures var (g', served) := Admitted(g, providers, tenant, req, env, c);
            g'.buckets == g.buckets && !served.status.Unauthorized? && !served.status.PaymentRequired?
            && !served.status.TooManyRequests?
  {
  }

  /** The response that a node has cached under this key, in memory or in Redis. */
  function HeldResponse(g: Node, key: string, a: Access): Option<ChatResponse> {
    var inMemory := Lookup(g.l1, key, a.now);
    var held := if inMemory.None? && a.up then Lookup(g.l2, key, a.now) else inMemory;
    if held.Some? && held.value.ResponseData? then Some(held.value.response) else None
  }

  lemma LookUpKeepsResponses(g: Node, keyHash: string, env: Env, id: string, chat: ChatRequest, a: Access)
    ensures var key := ResponseKey(id, chat.model, chat.digest);
            HeldResponse(LookUpTenant(g, keyHash, env).0, key, a) == HeldResponse(g, key, a)
  {
    KeysDiffer(keyHash, id, chat.model, chat.digest);
  }

  /** The reply to every request: the first of these that applies. */
  lemma RepliesInOrder(g: Node, providers: seq<Provider>, x: Exchange)
    requires Lawful(g, providers, x.req, x.env, x.choice, Step(g, providers, x).1)
    ensures var status, tenant := Step(g, providers, x).1.status, Who(g, x);
            if tenant.None? then status == Unauthorized
            else
              var t := tenant.value;
              if t.budgetCents > 0 && t.spentCents >= t.budgetCents then status == PaymentRequired
              else if !L.Allow(Get(g.buckets, t.id), L.Call(t.rateLimitRPM, x.env.start, x.env.now)).1.allowed then
                status == TooManyRequests
              else if x.req.body.None? then status == BadRequest
              else status == Reply(g, providers, t, x)
  {
    GatesInOrder(g, providers, x);
    if Who(g, x).Some? && !Exhausted(Who(g, x).value) && AllowedBuckets(g, Who(g, x).value, x.env).1.allowed {
      PastTheBudget(g, providers, Who(g, x).value, x);
    }
  }

  lemma PastTheBudget(g: Node, providers: seq<Provider>, t: Tenant, x: Exchange)
    requires Lawful(g, providers, x.req, x.env, x.choice, Step(g, providers, x).1)
    requires Who(g, x) == Some(t) && !Exhausted(t) && AllowedBuckets(g, t, x.env).1.allowed
    ensures Step(g, providers, x).1.status == if x.req.body.None? then BadRequest else Reply(g, providers, t, x)
  {
    var charged := Charged(g, t, x);
    ChargedIsAdmitted(g, providers, t, x);
    if x.req.body.Some? {
      LookUpKeepsResponses(g, x.req.keyHash.value, x.env, t.id, x.req.body.value, x.env.responseGet);
      RepliesPastTheLimiter(charged, providers, t, x);
    }
  }

  /** The node once the tenant has been looked up, and a token taken. */
  function Charged(g: Node, t: Tenant, x: Exchange): Node
    requires x.req.keyHash.Some?
  {
    LookUpTenant(g, x.req.keyHash.value, x.env).0.(buckets := AllowedBuckets(g, t, x.env).0)
  }

  lemma ChargedIsAdmitted(g: Node, providers: seq<Provider>, t: Tenant, x: Exchange)
    requires Who(g, x) == Some(t) && !Exhausted(t) && AllowedBuckets(g, t, x.env).1.allowed
    ensures Step(g, providers, x) == Admitted(Charged(g, t, x), providers, t, x.req, x.env, x.choice)
    ensures Charged(g, t, x).metrics == g.metrics
  {
    var found := LookUpTenant(g, x.req.keyHash.value, x.env).0;
    assert found.metrics == g.metrics && found.buckets == g.buckets;
  }

  /** Past the limiter: a cached response, unless the request is streamed; nothing to send it to; or the outcome. */
  function Reply(g: Node, providers: seq<Provider>, t: Tenant, x: Exchange): Status
    requires x.req.body.Some?
  {
    var chat := x.req.body.value;
    var cached := HeldResponse(g, ResponseKey(t.id, chat.model, chat.digest), x.env.responseGet);
    if !chat.stream && cached.Some? then FromCache(cached.value)
    else if forall p :: p in providers ==>
              H.StateOf(H.Of(g.metrics, p.name)).Unhealthy? || (t.allowlist != [] && p.name !in t.allowlist) then
      Unavailable
    else if chat.stream then Streamed(S.Serve(S.Fresh(x.choice.sent), [], x.env.turns))
    else if x.choice.outcome.reply.Response? then Answered(x.choice.outcome.reply.response)
    else BadGateway
  }

  lemma RepliesPastTheLimiter(g: Node, providers: seq<Provider>, t: Tenant, x: Exchange)
    requires x.req.body.Some?
    requires var served := Admitted(g, providers, t, x.req, x.env, x.choice).1;
             served.dispatched.Some? || served.status.Unavailable? ==>
               Possible(g.metrics, providers, t.allowlist, x.req.body.value.stream, x.env, x.choice)
    ensures Admitted(g, providers, t, x.req, x.env, x.choice).1.status == Reply(g, providers, t, x)
  {
    SelectionIsArgMin(g.metrics, providers, t.allowlist, x.choice.chosen);
  }

  // ---------- Charges

  /** A streamed request is logged as costing nothing, however many tokens it took: its events never bring a tenant
      nearer to its budget. */
  lemma StreamsAreNeverCharged(g: Node, providers: seq<Provider>, x: Exchange)
    requires x.req.body.Some? && x.req.body.value.stream
    ensures var served := Step(g, providers, x).1; served.log.Some? ==> served.log.value.costCents == 0.0
  {
    S.LogAddsUp(S.Fresh(x.choice.sent), [], x.env.turns);
  }

  // ---------- The response cache

  /** A request, and the cache entries that were lost before it arrived. */
  datatype Visit = Visit(lostL1: set<string>, lostL2: set<string>, x: Exchange)

  function Found(g: Node, v: Visit): Node {
    g.(l1 := g.l1 - v.lostL1, l2 := g.l2 - v.lostL2)
  }

  function After(g: Node, providers: seq<Provider>, vs: seq<Visit>): Node
    decreases |vs|
  {
    if vs == [] then g else After(Step(Found(g, vs[0]), providers, vs[0].x).0, providers, vs[1..])
  }

  /** The node as the request at position j finds it. */
  function FoundAt(g: Node, providers: seq<Provider>, vs: seq<Visit>, j: nat): Node
    requires j < |vs|
  {
    Found(After(g, providers, vs[..j]), vs[j])
  }

  /** The request is the tenant's, for this model and this digest. */
  predicate Asks(g: Node, x: Exchange, id: string, model: string, digest: string) {
    && IsFrom(g, x, id) && x.req.body.Some?
    && x.req.body.value.model == model && x.req.body.value.digest == digest
  }

  function Key(g: Node, x: Exchange): string
    requires Who(g, x).Some? && x.req.body.Some?
  {
    ResponseKey(Who(g, x).value.id, x.req.body.value.model, x.req.body.value.digest)
  }

  /** The exchange answered with this response, for this key. */
  predicate Answers(g: Node, providers: seq<Provider>, x: Exchange, key: string, r: ChatResponse) {
    Step(g, providers, x).1.status == Answered(r) && Who(g, x).Some? && x.req.body.Some? && Key(g, x) == key
  }

  ghost predicate AnsweredBefore(g: Node, providers: seq<Provider>, vs: seq<Visit>, key: string, r: ChatResponse) {
    exists j :: 0 <= j < |vs| && Answers(FoundAt(g, providers, vs, j), providers, vs[j].x, key, r)
  }

  ghost predicate Backed(tier: Tier<Cached>, known: (string, ChatResponse) -> bool) {
    forall k :: k in tier && tier[k].value.ResponseData? ==> known(k, tier[k].value.response)
  }

  ghost predicate BothBacked(g: Node, known: (string, ChatResponse) -> bool) {
    Backed(g.l1, known) && Backed(g.l2, known)
  }

  lemma {:induction false} AfterSnoc(g: Node, providers: seq<Provider>, vs: seq<Visit>, v: Visit)
    ensures After(g, providers, vs + [v]) == Step(Found(After(g, providers, vs), v), providers, v.x).0
    decreases |vs|
  {
    if vs == [] {
      assert [v][1..] == [];
    } else {
      assert (vs + [v])[1..] == vs[1..] + [v];
      AfterSnoc(Step(Found(g, vs[0]), providers, vs[0].x).0, providers, vs[1..], v);
    }
  }

  lemma LookUpBacked(g: Node, keyHash: string, env: Env, known: (string, ChatResponse) -> bool)
    requires BothBacked(g, known)
    ensures BothBacked(LookUpTenant(g, keyHash, env).0, known)
  {
  }

  lemma RouteBacked(g: Node, providers: seq<Provider>, tenant: Tenant, chat: ChatRequest, env: Env, c: Choice,
                    known: (string, ChatResponse) -> bool)
    requires BothBacked(g, known)
    requires var served := Route(g, providers, tenant, chat, env, c).1;
             served.status.Answered? ==> known(ResponseKey(tenant.id, chat.model, chat.digest), served.status.response)
    ensures BothBacked(Route(g, providers, tenant, chat, env, c).0, known)
    ensures !Route(g, providers, tenant, chat, env, c).1.status.FromCache?
  {
  }

  lemma AdmittedBacked(g: Node, providers: seq<Provider>, tenant: Tenant, req: Request, env: Env, c: Choice,
                       known: (string, ChatResponse) -> bool)
    requires BothBacked(g, known)
    requires var served := Admitted(g, providers, tenant, req, env, c).1;
             served.status.Answered? && req.body.Some? ==>
               known(ResponseKey(tenant.id, req.body.value.model, req.body.value.digest), served.status.response)
    ensures BothBacked(Admitted(g, providers, tenant, req, env, c).0, known)
    ensures var served := Admitted(g, providers, tenant, req, env, c).1;
            served.status.FromCache? ==>
              && req.body.Some?
              && known(ResponseKey(tenant.id, req.body.value.model, req.body.value.digest), served.status.response)
  {
    if req.body.Some? {
      var chat, a := req.body.value, env.responseGet;
      if chat.stream {
        RouteBacked(g, providers, tenant, chat, env, c, known);
      } else {
        var (looked, response) := CachedResponse(g, tenant, chat, a);
        if response.None? {
          RouteBacked(looked, providers, tenant, chat, env, c, known);
        }
      }
    }
  }

  /** Serving keeps the caches backed, if what it answers is known; and what it takes from them is known. */
  lemma StepBacked(g: Node, providers: seq<Provider>, x: Exchange, known: (string, ChatResponse) -> bool)
    requires BothBacked(g, known)
    requires forall k, r :: Answers(g, providers, x, k, r) ==> known(k, r)
    ensures BothBacked(Step(g, providers, x).0, known)
    ensures var served := Step(g, providers, x).1;
            served.status.FromCache? ==> Who(g, x).Some? && x.req.body.Some? && known(Key(g, x), served.status.response)
  {
    if Who(g, x).Some? {
      var (found, tenant) := LookUpTenant(g, x.req.keyHash.value, x.env);
      LookUpBacked(g, x.req.keyHash.value, x.env, known);
      if !Exhausted(tenant.value) {
        var (buckets, verdict) := AllowedBuckets(found, tenant.value, x.env);
        if verdict.allowed {
          var served := Step(g, providers, x).1;
          if served.status.Answered? && x.req.body.Some? {
            assert Answers(g, providers, x, Key(g, x), served.status.response);
          }
          AdmittedBacked(found.(buckets := buckets), providers, tenant.value, x.req, x.env, x.choice, known);
        }
      }
    }
  }

  lemma {:induction false} RunBacked(g: Node, providers: seq<Provider>, vs: seq<Visit>)
    requires g.l1 == map[] && g.l2 == map[]
    ensures BothBacked(After(g, providers, vs), (k, r) => AnsweredBefore(g, providers, vs, k, r))
    decreases |vs|
  {
    var known := (k, r) => AnsweredBefore(g, providers, vs, k, r);
    if vs == [] {
    } else {
      var n := |vs| - 1;
      var before, v := vs[..n], vs[n];
      RunBacked(g, providers, before);
      var h := FoundAt(g, providers, vs, n);
      forall k, r | AnsweredBefore(g, providers, before, k, r)
        ensures known(k, r)
      {
        var j :| 0 <= j < n && Answers(FoundAt(g, providers, before, j), providers, before[j].x, k, r);
        assert before[..j] == vs[..j];
      }
      StepBacked(h, providers, v.x, known);
      AfterSnoc(g, providers, before, v);
      assert vs == before + [v];
    }
  }

  /** Cache integrity: on a node that starts with empty caches, a response that is served from the cache is the
      answer an earlier request of the same tenant got, for the same model and digest. */
  lemma CachedResponsesAreOwn(g: Node, providers: seq<Provider>, vs: seq<Visit>, v: Visit,
                              id: string, model: string, digest: string)
    requires g.l1 == map[] && g.l2 == map[]
    requires forall j :: 0 <= j < |vs| ==> PlainKey(FoundAt(g, providers, vs, j), vs[j].x)
    requires var h := Found(After(g, providers, vs), v);
             PlainKey(h, v.x) && Asks(h, v.x, id, model, digest) && Step(h, providers, v.x).1.status.FromCache?
    ensures exists j :: 0 <= j < |vs| &&
              var h := FoundAt(g, providers, vs, j);
              Asks(h, vs[j].x, id, model, digest)
              && Step(h, providers, vs[j].x).1.status
                 == Answered(Step(Found(After(g, providers, vs), v), providers, v.x).1.status.response)
  {
    var h := Found(After(g, providers, vs), v);
    var r := Step(h, providers, v.x).1.status.response;
    RunBacked(g, providers, vs);
    TakenFromKnown(h, providers, v.x, (k, r) => AnsweredBefore(g, providers, vs, k, r));
    var j :| 0 <= j < |vs| && Answers(FoundAt(g, providers, vs, j), providers, vs[j].x, Key(h, v.x), r);
    var hj, x := FoundAt(g, providers, vs, j), vs[j].x;
    assert PlainKey(hj, x);
    ResponseKeyIsInjective(Who(hj, x).value.id, x.req.body.value.model, x.req.body.value.digest, id, model, digest);
  }

  /** Tenant ids and digests have no colon in them. */
  predicate PlainKey(g: Node, x: Exchange) {
    (Who(g, x).Some? ==> ':' !in Who(g, x).value.id) && (x.req.body.Some? ==> ':' !in x.req.body.value.digest)
  }

  lemma TakenFromKnown(g: Node, providers: seq<Provider>, x: Exchange, known: (string, ChatResponse) -> bool)
    requires BothBacked(g, known) && Step(g, providers, x).1.status.FromCache?
    ensures Who(g, x).Some? && x.req.body.Some? && known(Key(g, x), Step(g, providers, x).1.status.response)
  {
    StepBacked(g, providers, x, (k, r) => known(k, r) || Answers(g, providers, x, k, r));
  }
}
