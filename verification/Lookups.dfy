/**
 What the request handler does with the cache and the database, as events of the world of Enforcement: so that the
 enforcement theorems, which are about any number of nodes and any interleaving, are about its replies.
 */
module Lookups {
  import opened Wrappers
  import opened Tenants
  import opened TwoTierCache
  import opened Gateway
  import opened Selector
  import opened Upstream
  import E = Enforcement
  import GT = GatewayTheorems
  import P = Processors
  import R = Retry
  import S = Staleness

  // ---------- One node's view of the caches

  /** A cached value without the time its row was read. */
  function Bare(p: E.Cached): Gateway.Cached {
    match p
    case TenantData(record) => TenantData(record.tenant)
    case ResponseData(response) => ResponseData(response)
  }

  function BareTier(tier: Tier<S.Stamped<E.Cached>>): Tier<Gateway.Cached> {
    map k | k in tier :: Entry(Bare(tier[k].value.body), tier[k].expires)
  }

  function BareFetch(f: Fetch<S.Stamped<E.Cached>>): Fetch<Gateway.Cached> {
    match f
    case Hit(v) => Hit(Bare(v.body))
    case Miss => Miss
    case Failed => Failed
  }

  /** The node has the caches that it has in the world. */
  predicate Mirrors(g: Node, w: E.World, node: nat) {
    g.l1 == BareTier(S.L1(w.cache, node)) && g.l2 == BareTier(w.cache.l2)
  }

  lemma WriteIsBare(l1: Tier<S.Stamped<E.Cached>>, key: string, e: Entry<S.Stamped<E.Cached>>, kept: bool)
    ensures BareTier(WriteL1(l1, key, e, kept))
            == WriteL1(BareTier(l1), key, Entry(Bare(e.value.body), e.expires), kept)
    ensures BareTier(SetL2(l1, key, e, kept)) == SetL2(BareTier(l1), key, Entry(Bare(e.value.body), e.expires), kept)
  {
  }

  lemma GetIsBare(l1: Tier<S.Stamped<E.Cached>>, l2: Tier<S.Stamped<E.Cached>>, key: string, now: int, up: bool,
                  kept: bool)
    ensures var (l1', f) := GetL1(l1, l2, key, now, up, kept);
            GetL1(BareTier(l1), BareTier(l2), key, now, up, kept) == (BareTier(l1'), BareFetch(f))
    ensures GetL1(l1, l2, key, now, up, true).1 == GetL1(l1, l2, key, now, up, kept).1
  {
    if Lookup(l1, key, now).None? && up && Lookup(l2, key, now).Some? {
      WriteIsBare(l1, key, Entry(Lookup(l2, key, now).value, Expiry(now, BACKFILL)), kept);
    }
  }

  // ---------- Gets and Sets

  function GetSteps(w: E.World, node: nat, get: nat, key: string, a: Access): seq<S.Step<E.Cached>> {
    S.GetSteps(w.cache, get, node, key, a.up, a.kept)
  }

  /** What the handler's Get finds. */
  function Finds(w: E.World, node: nat, key: string, a: Access): Fetch<S.Stamped<E.Cached>> {
    GetL1(S.L1(w.cache, node), w.cache.l2, key, w.cache.now, a.up, a.kept).1
  }

  /** In a good state it is not too old. */
  lemma FindsYoung(delay: nat, w: E.World, node: nat, key: string, a: Access)
    requires S.Good(delay, w.cache) && Finds(w, node, key, a).Hit?
    ensures var v := Finds(w, node, key, a).value; v.ttl > 0 ==> w.cache.now <= S.LastMoment(delay, v)
  {
    if Lookup(S.L1(w.cache, node), key, w.cache.now).Some? {
      assert S.GoodL1(delay, w.cache, S.L1(w.cache, node)[key]);
    } else {
      assert S.GoodL2(delay, w.cache, w.cache.l2[key]);
    }
  }

  lemma FindsHeld(w: E.World, node: nat, key: string, a: Access)
    requires Finds(w, node, key, a).Hit?
    ensures S.Holds(w.cache, key, Finds(w, node, key, a).value)
  {
    var v := Finds(w, node, key, a).value;
    if Lookup(S.L1(w.cache, node), key, w.cache.now).Some? {
      assert S.InL1(w.cache, key, v);
    } else {
      assert S.InL2(w.cache, key, v);
    }
  }

  /** What the handler gets from the cache. */
  lemma GetIsFound(w: E.World, g: Node, node: nat, key: string, a: Access)
    requires Mirrors(g, w, node) && a.now == w.cache.now
    ensures GetL1(g.l1, g.l2, key, a.now, a.up, a.kept)
            == (BareTier(GetL1(S.L1(w.cache, node), w.cache.l2, key, w.cache.now, a.up, a.kept).0),
                BareFetch(Finds(w, node, key, a)))
  {
    GetIsBare(S.L1(w.cache, node), w.cache.l2, key, a.now, a.up, a.kept);
  }

  /** A Get of the handler is a run of events, which leave the rest of the world as it is. */
  lemma GetIsEvents(delay: nat, w: E.World, g: Node, node: nat, get: nat, key: string, a: Access)
    requires Mirrors(g, w, node) && a.now == w.cache.now && get !in w.cache.gets
    ensures var steps := GetSteps(w, node, get, key, a);
            var w' := E.After(w, E.Lift(steps));
            && S.Legal(delay, w.cache, steps) && E.Legal(delay, w, E.Lift(steps))
            && w' == w.(cache := w.cache.(l1 := w'.cache.l1))
            && Mirrors(g.(l1 := GetL1(g.l1, g.l2, key, a.now, a.up, a.kept).0), w', node)
  {
    GetIsFound(w, g, node, key, a);
    S.GetIsSteps(delay, w.cache, get, node, key, a.up, a.kept);
    E.LiftRun(delay, w, GetSteps(w, node, get, key, a));
  }

  /** The value has been written to both tiers. */
  predicate StoredFrom(w: E.World, w': E.World, node: nat, key: string, body: E.Cached, ttl: nat, a: Access) {
    var e := Entry(S.Stamped(body, a.now, ttl, w.cache.writes), Expiry(a.now, ttl));
    && S.L1(w'.cache, node) == WriteL1(S.L1(w.cache, node), key, e, a.kept)
    && w'.cache.l2 == SetL2(w.cache.l2, key, e, a.up)
  }

  /** A Set of the handler. */
  lemma StoredMirrors(w: E.World, w': E.World, g: Node, node: nat, key: string, body: E.Cached, ttl: nat, a: Access)
    requires Mirrors(g, w, node) && StoredFrom(w, w', node, key, body, ttl, a)
    ensures var e := Entry(Bare(body), Expiry(a.now, ttl));
            Mirrors(g.(l1 := WriteL1(g.l1, key, e, a.kept), l2 := SetL2(g.l2, key, e, a.up)), w', node)
  {
    var e := Entry(S.Stamped(body, a.now, ttl, w.cache.writes), Expiry(a.now, ttl));
    WriteIsBare(S.L1(w.cache, node), key, e, a.kept);
    WriteIsBare(w.cache.l2, key, e, a.up);
  }

  // ---------- Tenant lookups

  /** The circumstances of a request are those of the world: its clock; its database, unless the read fails; a store
      delay within bounds; and numbers for its Get and its read that are not in use. */
  predicate Fits(delay: nat, w: E.World, get: nat, request: nat, keyHash: string, env: Env) {
    && env.tenantGet.now == w.cache.now && (env.row == E.Row(w, keyHash) || env.row.None?)
    && w.cache.now <= env.tenantSet.now <= w.cache.now + delay
    && get !in w.cache.gets && request !in w.lookups
  }

  /** A row is read, and some time later stored in memory. */
  function Stores(node: nat, request: nat, keyHash: string, wait: nat, kept: bool): seq<E.Event> {
    [E.ReadRow(request, node, keyHash)] + ([E.Cache(S.Wait(wait))] + ([E.StoreRow(request, kept)] + []))
  }

  function Pause(w: E.World, env: Env): nat {
    if env.tenantSet.now > w.cache.now then env.tenantSet.now - w.cache.now else 0
  }

  /** The event in which the budget gate gets its record, and those before it. */
  function Before(w: E.World, node: nat, get: nat, request: nat, keyHash: string, env: Env): seq<E.Event> {
    var steps := GetSteps(w, node, get, TenantKey(keyHash), env.tenantGet);
    if Finds(w, node, TenantKey(keyHash), env.tenantGet).Hit? then E.Lift(steps[..|steps| - 1])
    else E.Lift(steps) + Stores(node, request, keyHash, Pause(w, env), env.tenantSet.kept)
  }

  function Deciding(w: E.World, node: nat, get: nat, keyHash: string, env: Env): E.Event {
    var steps := GetSteps(w, node, get, TenantKey(keyHash), env.tenantGet);
    if Finds(w, node, TenantKey(keyHash), env.tenantGet).Hit? then E.Cache(steps[|steps| - 1])
    else E.Cache(S.Publish(w.cache.writes, env.tenantSet.up))
  }

  /** These events end in a decision of the budget gate, on this tenant. */
  ghost predicate Decides(delay: nat, w: E.World, es: seq<E.Event>, e: E.Event, keyHash: string, tenant: Tenant) {
    && E.Legal(delay, w, es + [e]) && (forall d :: d in es ==> !d.Charge?)
    && E.Decision(E.After(w, es), e, keyHash).Some? && E.Decision(E.After(w, es), e, keyHash).value.tenant == tenant
  }

  lemma {:induction false} LiftSplit(xs: seq<S.Step<E.Cached>>, ys: seq<S.Step<E.Cached>>)
    ensures E.Lift(xs + ys) == E.Lift(xs) + E.Lift(ys) && forall e :: e in E.Lift(xs) ==> e.Cache?
  {
    if xs == [] {
      assert xs + ys == ys;
    } else {
      assert (xs + ys)[1..] == xs[1..] + ys;
      LiftSplit(xs[1..], ys);
    }
  }

  /** A Get that hits ends, in its last step, with what it has found. */
  lemma EndsObtaining(delay: nat, w: E.World, steps: seq<S.Step<E.Cached>>, node: nat, key: string,
                      tier: Tier<S.Stamped<E.Cached>>, reply: Fetch<S.Stamped<E.Cached>>)
    requires S.Gets(delay, w.cache, steps, node, key, tier, reply) && reply.Hit?
    requires forall step :: step in steps ==> !step.Write?
    ensures var es, e := E.Lift(steps[..|steps| - 1]), E.Cache(steps[|steps| - 1]);
            && E.Legal(delay, w, es + [e]) && (forall d :: d in es ==> !d.Charge?) && es + [e] == E.Lift(steps)
            && E.Obtained(E.After(w, es).cache, e.step, key) == Some(reply.value)
  {
    var n := |steps| - 1;
    var before, last := steps[..n], steps[n];
    assert steps == before + [last];
    S.RunSplit(delay, w.cache, before, [last]);
    E.LiftRun(delay, w, before);
    E.LiftRun(delay, w, steps);
    LiftSplit(before, [last]);
    assert E.Lift([last]) == [E.Cache(last)];
    E.ReturnedIsObtained(E.After(w, E.Lift(before)).cache, last, node, key);
  }

  /** A lookup that hits the cache finds a tenant record. */
  lemma HitIsRecord(delay: nat, w: E.World, g: Node, node: nat, keyHash: string, env: Env)
    requires E.Inv(delay, w) && Mirrors(g, w, node) && env.tenantGet.now == w.cache.now
    requires Finds(w, node, TenantKey(keyHash), env.tenantGet).Hit?
    ensures var v := Finds(w, node, TenantKey(keyHash), env.tenantGet).value;
            v.body.TenantData? && LookUpTenant(g, keyHash, env).1 == Some(v.body.tenant.tenant)
  {
    GetIsFound(w, g, node, TenantKey(keyHash), env.tenantGet);
    FindsHeld(w, node, TenantKey(keyHash), env.tenantGet);
    assert E.Sound(delay, w, keyHash, Finds(w, node, TenantKey(keyHash), env.tenantGet).value);
  }

  /** It decides, with its last step, on that record. */
  lemma HitDecides(delay: nat, w: E.World, node: nat, get: nat, keyHash: string, a: Access)
    requires get !in w.cache.gets && Finds(w, node, TenantKey(keyHash), a).Hit?
    requires Finds(w, node, TenantKey(keyHash), a).value.body.TenantData?
    ensures var steps := GetSteps(w, node, get, TenantKey(keyHash), a);
            && Decides(delay, w, E.Lift(steps[..|steps| - 1]), E.Cache(steps[|steps| - 1]), keyHash,
                       Finds(w, node, TenantKey(keyHash), a).value.body.tenant.tenant)
            && E.Lift(steps[..|steps| - 1]) + [E.Cache(steps[|steps| - 1])] == E.Lift(steps)
  {
    var key := TenantKey(keyHash);
    S.GetIsSteps(delay, w.cache, get, node, key, a.up, a.kept);
    EndsObtaining(delay, w, GetSteps(w, node, get, key, a), node, key,
                  GetL1(S.L1(w.cache, node), w.cache.l2, key, w.cache.now, a.up, a.kept).0, Finds(w, node, key, a));
  }

  /** What the world is like when a row has been read, and stored in memory. */
  lemma StoresRun(delay: nat, w: E.World, node: nat, request: nat, keyHash: string, wait: nat, kept: bool)
    requires E.Row(w, keyHash).Some? && wait <= delay && request !in w.lookups
    ensures var es := Stores(node, request, keyHash, wait, kept);
            var record := E.Record(E.Row(w, keyHash).value, w.cache.now);
            var s, key := w.cache.(now := w.cache.now + wait), TenantKey(keyHash);
            && E.Legal(delay, w, es)
            && E.After(w, es).cache == S.Apply(s, S.Write(node, key, TenantData(record), TENANT_TTL, kept))
  {
    var read, pause, store := E.ReadRow(request, node, keyHash), E.Cache(S.Wait(wait)), E.StoreRow(request, kept);
    var record := E.Record(E.Row(w, keyHash).value, w.cache.now);
    var w1 := E.Next(w, read);
    var w2 := E.Next(w1, pause);
    assert w2.lookups[request] == E.Lookup(node, keyHash, record);
    E.Cons(delay, w2, store, []);
    E.Cons(delay, w1, pause, [store] + []);
    E.Cons(delay, w, read, [pause] + ([store] + []));
  }

  /** The end of a Set that has nothing between its two writes. */
  lemma PublishStores(delay: nat, w: E.World, w1: E.World, node: nat, key: string, body: E.Cached, ttl: nat, a: Access)
    requires w1.cache == S.Apply(w.cache.(now := a.now), S.Write(node, key, body, ttl, a.kept))
    ensures var e := E.Cache(S.Publish(w.cache.writes, a.up));
            && E.Legal(delay, w1, [e]) && E.After(w1, [e]) == E.Next(w1, e)
            && E.Obtained(w1.cache, e.step, key) == Some(S.Stamped(body, a.now, ttl, w.cache.writes))
            && StoredFrom(w, E.Next(w1, e), node, key, body, ttl, a)
  {
    var e := E.Cache(S.Publish(w.cache.writes, a.up));
    E.Cons(delay, w1, e, []);
    assert [e] + [] == [e];
  }

  /** A lookup that misses reads the row, stores it, and decides on it. */
  lemma StoreDecides(delay: nat, w: E.World, node: nat, request: nat, keyHash: string, a: Access)
    requires E.Row(w, keyHash).Some? && w.cache.now <= a.now <= w.cache.now + delay && request !in w.lookups
    ensures var es := Stores(node, request, keyHash, a.now - w.cache.now, a.kept);
            var e := E.Cache(S.Publish(w.cache.writes, a.up));
            var record := E.Record(E.Row(w, keyHash).value, w.cache.now);
            && Decides(delay, w, es, e, keyHash, record.tenant)
            && StoredFrom(w, E.After(w, es + [e]), node, TenantKey(keyHash), TenantData(record), TENANT_TTL, a)
  {
    var body: E.Cached := TenantData(E.Record(E.Row(w, keyHash).value, w.cache.now));
    var es := Stores(node, request, keyHash, a.now - w.cache.now, a.kept);
    StoresRun(delay, w, node, request, keyHash, a.now - w.cache.now, a.kept);
    PublishStores(delay, w, E.After(w, es), node, TenantKey(keyHash), body, TENANT_TTL, a);
    E.LegalSplit(delay, w, es, [E.Cache(S.Publish(w.cache.writes, a.up))]);
  }

  lemma DecidesLater(delay: nat, w: E.World, got: seq<E.Event>, es: seq<E.Event>, e: E.Event, keyHash: string,
                     tenant: Tenant)
    requires E.Legal(delay, w, got) && Decides(delay, E.After(w, got), es, e, keyHash, tenant)
    requires forall d :: d in got ==> !d.Charge?
    ensures Decides(delay, w, got + es, e, keyHash, tenant)
    ensures E.After(w, got + es + [e]) == E.After(E.After(w, got), es + [e])
  {
    E.LegalSplit(delay, w, got, es);
    E.LegalSplit(delay, w, got, es + [e]);
    assert got + es + [e] == got + (es + [e]);
  }

  /** A lookup that misses the cache, and whose read of the row does not fail. */
  lemma MissRuns(delay: nat, w: E.World, g: Node, node: nat, get: nat, request: nat, keyHash: string, env: Env)
    returns (w1: E.World)
    requires Mirrors(g, w, node) && Fits(delay, w, get, request, keyHash, env) && env.row.Some?
    requires !Finds(w, node, TenantKey(keyHash), env.tenantGet).Hit?
    ensures var es, e := Before(w, node, get, request, keyHash, env), Deciding(w, node, get, keyHash, env);
            var record := E.Record(env.row.value, w.cache.now);
            && Decides(delay, w, es, e, keyHash, env.row.value)
            && StoredFrom(w1, E.After(w, es + [e]), node, TenantKey(keyHash), TenantData(record), TENANT_TTL,
                          env.tenantSet)
    ensures var a, key := env.tenantGet, TenantKey(keyHash);
            Mirrors(g.(l1 := GetL1(g.l1, g.l2, key, a.now, a.up, a.kept).0), w1, node)
  {
    var a, store, key := env.tenantGet, env.tenantSet, TenantKey(keyHash);
    var steps := GetSteps(w, node, get, key, a);
    var got := E.Lift(steps);
    w1 := E.After(w, got);
    GetIsEvents(delay, w, g, node, get, key, a);
    LiftSplit(steps, []);
    StoreDecides(delay, w1, node, request, keyHash, store);
    DecidesLater(delay, w, got, Stores(node, request, keyHash, store.now - w.cache.now, store.kept),
                 E.Cache(S.Publish(w.cache.writes, store.up)), keyHash, env.row.value);
  }

  lemma MissDecides(delay: nat, w: E.World, g: Node, node: nat, get: nat, request: nat, keyHash: string, env: Env)
    requires Mirrors(g, w, node) && Fits(delay, w, get, request, keyHash, env) && env.row.Some?
    requires !Finds(w, node, TenantKey(keyHash), env.tenantGet).Hit?
    ensures var es, e := Before(w, node, get, request, keyHash, env), Deciding(w, node, get, keyHash, env);
            && LookUpTenant(g, keyHash, env).1 == env.row
            && Decides(delay, w, es, e, keyHash, env.row.value)
            && Mirrors(LookUpTenant(g, keyHash, env).0, E.After(w, es + [e]), node)
  {
    var es, e := Before(w, node, get, request, keyHash, env), Deciding(w, node, get, keyHash, env);
    var w1 := MissRuns(delay, w, g, node, get, request, keyHash, env);
    MissFindsRow(w, g, node, keyHash, env);
    StoredMirrors(w1, E.After(w, es + [e]), g, node, TenantKey(keyHash),
                  TenantData(E.Record(env.row.value, w.cache.now)), TENANT_TTL, env.tenantSet);
  }

  lemma MissFindsRow(w: E.World, g: Node, node: nat, keyHash: string, env: Env)
    requires Mirrors(g, w, node) && env.tenantGet.now == w.cache.now && env.row.Some?
    requires !Finds(w, node, TenantKey(keyHash), env.tenantGet).Hit?
    ensures var a, store, key := env.tenantGet, env.tenantSet, TenantKey(keyHash);
            var e := Entry(TenantData(env.row.value), Expiry(store.now, TENANT_TTL));
            && GetL1(g.l1, g.l2, key, a.now, a.up, a.kept).0 == g.l1
            && LookUpTenant(g, keyHash, env)
               == (g.(l1 := WriteL1(g.l1, key, e, store.kept), l2 := SetL2(g.l2, key, e, store.up)), env.row)
  {
    GetIsFound(w, g, node, TenantKey(keyHash), env.tenantGet);
  }

  /** The handler's tenant lookup is a run of the world that ends in the decision of the budget gate, on the tenant the
      handler goes on with; it finds no tenant exactly if there is no cached record and the database gives no row: it
      has none, or the read fails. */
  lemma LookUpIsDecision(delay: nat, w: E.World, g: Node, node: nat, get: nat, request: nat, keyHash: string, env: Env)
    requires E.Inv(delay, w) && Mirrors(g, w, node) && Fits(delay, w, get, request, keyHash, env)
    ensures LookUpTenant(g, keyHash, env).1.None?
            <==> env.row.None? && !Finds(w, node, TenantKey(keyHash), env.tenantGet).Hit?
    ensures LookUpTenant(g, keyHash, env).1.Some? ==>
              var es, e := Before(w, node, get, request, keyHash, env), Deciding(w, node, get, keyHash, env);
              && Decides(delay, w, es, e, keyHash, LookUpTenant(g, keyHash, env).1.value)
              && Mirrors(LookUpTenant(g, keyHash, env).0, E.After(w, es + [e]), node)
  {
    var a, key := env.tenantGet, TenantKey(keyHash);
    if Finds(w, node, key, a).Hit? {
      HitIsRecord(delay, w, g, node, keyHash, env);
      HitDecides(delay, w, node, get, keyHash, a);
      GetIsEvents(delay, w, g, node, get, key, a);
      GetIsFound(w, g, node, key, a);
    } else if env.row.Some? {
      MissDecides(delay, w, g, node, get, request, keyHash, env);
    } else {
      GetIsFound(w, g, node, key, a);
    }
  }

  // ---------- The handler's 402

  /** In the world of a run from the start. */
  ghost predicate Reached(delay: nat, start: E.World, run: seq<E.Event>) {
    E.Initial(start) && E.Legal(delay, start, run)
  }

  /** A request with an API key is answered with 402 exactly if the tenant that is looked up has a positive budget and
      has spent it. */
  lemma RejectedIff(g: Node, providers: seq<Provider>, x: Exchange)
    requires x.req.keyHash.Some?
    ensures Upstream.Step(g, providers, x).1.status.PaymentRequired?
            <==> var tenant := LookUpTenant(g, x.req.keyHash.value, x.env).1;
                 tenant.Some? && 0 < tenant.value.budgetCents <= tenant.value.spentCents
  {
    GT.GatesInOrder(g, providers, x);
  }

  /** A decision that takes several events, at the end of one run. */
  lemma AsOneRun(delay: nat, start: E.World, before: seq<E.Event>, after: seq<E.Event>, es: seq<E.Event>, e: E.Event)
    requires Reached(delay, start, before + after)
    requires E.Legal(delay, E.After(E.After(start, before), after), es + [e])
    ensures var reached := E.After(start, before);
            var w := E.After(reached, after);
            && E.Legal(delay, start, before + (after + es) + [e])
            && E.After(reached, after + es) == E.After(w, es) && E.After(w, es).cache.now >= w.cache.now
  {
    var w := E.After(E.After(start, before), after);
    InWorld(delay, start, before, after);
    E.LegalSplit(delay, start, before + after, es + [e]);
    Regroup(before, after, es, e);
    E.LegalSplit(delay, w, es, [e]);
    E.LegalSplit(delay, E.After(start, before), after, es);
    E.ReachInv(delay, w, es);
  }

  lemma Regroup(before: seq<E.Event>, after: seq<E.Event>, es: seq<E.Event>, e: E.Event)
    ensures (before + after) + (es + [e]) == before + (after + es) + [e]
  {
  }

  /** Bounded enforcement lag, for a decision that takes several events. */
  lemma LateDecisions(delay: nat, start: E.World, before: seq<E.Event>, after: seq<E.Event>, es: seq<E.Event>,
                      e: E.Event, keyHash: string, tenant: Tenant)
    requires Reached(delay, start, before + after)
    requires var reached := E.After(start, before);
             && E.Row(reached, keyHash).Some?
             && 0 < E.Row(reached, keyHash).value.budgetCents <= E.Row(reached, keyHash).value.spentCents
             && E.After(reached, after).cache.now > reached.cache.now + E.MaxLag(delay)
             && Decides(delay, E.After(reached, after), es, e, keyHash, tenant)
    ensures Exhausted(tenant)
  {
    AsOneRun(delay, start, before, after, es, e);
    E.BoundedLag(delay, start, before, after + es, e, keyHash);
  }

  lemma LateLookups(delay: nat, start: E.World, before: seq<E.Event>, after: seq<E.Event>, g: Node, node: nat,
                    get: nat, request: nat, keyHash: string, env: Env)
    requires Reached(delay, start, before + after)
    requires var reached := E.After(start, before);
             var w := E.After(reached, after);
             && E.Row(reached, keyHash).Some?
             && 0 < E.Row(reached, keyHash).value.budgetCents <= E.Row(reached, keyHash).value.spentCents
             && w.cache.now > reached.cache.now + E.MaxLag(delay)
             && Mirrors(g, w, node) && Fits(delay, w, get, request, keyHash, env)
    ensures var tenant := LookUpTenant(g, keyHash, env).1; tenant.Some? ==> Exhausted(tenant.value)
  {
    var w := E.After(E.After(start, before), after);
    InWorld(delay, start, before, after);
    LookUpIsDecision(delay, w, g, node, get, request, keyHash, env);
    if LookUpTenant(g, keyHash, env).1.Some? {
      LateDecisions(delay, start, before, after, Before(w, node, get, request, keyHash, env),
                    Deciding(w, node, get, keyHash, env), keyHash, LookUpTenant(g, keyHash, env).1.value);
    }
  }

  /** Bounded enforcement lag, at the handler: once a tenant's spend in the database has reached its positive budget,
      15 minutes and three delays later every request with its key is answered with 402, on any node and whatever has
      happened in between; or with 401, exactly if the lookup misses the cache and the read of the row fails. */
  lemma LateRequestsGet402(delay: nat, start: E.World, before: seq<E.Event>, after: seq<E.Event>, g: Node, node: nat,
                           get: nat, request: nat, providers: seq<Provider>, x: Exchange)
    requires Reached(delay, start, before + after) && x.req.keyHash.Some?
    requires var keyHash, reached := x.req.keyHash.value, E.After(start, before);
             var w := E.After(reached, after);
             && E.Row(reached, keyHash).Some?
             && 0 < E.Row(reached, keyHash).value.budgetCents <= E.Row(reached, keyHash).value.spentCents
             && w.cache.now > reached.cache.now + E.MaxLag(delay)
             && Mirrors(g, w, node) && Fits(delay, w, get, request, keyHash, x.env)
    ensures var w := E.After(E.After(start, before), after);
            Upstream.Step(g, providers, x).1.status
            == if x.env.row.None? && !Finds(w, node, TenantKey(x.req.keyHash.value), x.env.tenantGet).Hit? then
                 Unauthorized
               else PaymentRequired
  {
    var w, keyHash := E.After(E.After(start, before), after), x.req.keyHash.value;
    InWorld(delay, start, before, after);
    LookUpIsDecision(delay, w, g, node, get, request, keyHash, x.env);
    LateLookups(delay, start, before, after, g, node, get, request, keyHash, x.env);
    GT.GatesInOrder(g, providers, x);
  }

  lemma InWorld(delay: nat, start: E.World, before: seq<E.Event>, after: seq<E.Event>)
    requires Reached(delay, start, before + after)
    ensures E.Legal(delay, start, before) && E.Legal(delay, E.After(start, before), after)
    ensures E.After(start, before + after) == E.After(E.After(start, before), after)
    ensures E.Inv(delay, E.After(E.After(start, before), after))
  {
    E.LegalSplit(delay, start, before, after);
    E.InitInv(delay, start);
    E.ReachInv(delay, start, before + after);
  }

  lemma NoRecordLeft(delay: nat, start: E.World, before: seq<E.Event>, after: seq<E.Event>, es: seq<E.Event>,
                     e: E.Event, keyHash: string)
    requires Reached(delay, start, before + after)
    requires (forall d :: d in after ==> !d.ReadRow?) && (forall d :: d in es ==> !d.ReadRow?)
    requires var reached := E.After(start, before);
             var w := E.After(reached, after);
             w.cache.now > reached.cache.now + E.MaxLag(delay) && E.Legal(delay, w, es + [e])
    ensures E.Decision(E.After(E.After(E.After(start, before), after), es), e, keyHash).None?
  {
    AsOneRun(delay, start, before, after, es, e);
    E.RecordsRunOut(delay, start, before, after + es, e, keyHash);
  }

  lemma NoTenantLeft(delay: nat, start: E.World, before: seq<E.Event>, after: seq<E.Event>, g: Node, node: nat,
                     get: nat, request: nat, keyHash: string, env: Env)
    requires Reached(delay, start, before + after) && forall e :: e in after ==> !e.ReadRow?
    requires var reached := E.After(start, before);
             var w := E.After(reached, after);
             && w.cache.now > reached.cache.now + E.MaxLag(delay) && Mirrors(g, w, node)
             && Fits(delay, w, get, request, keyHash, env) && env.row.None?
    ensures LookUpTenant(g, keyHash, env).1.None?
  {
    var w, key := E.After(E.After(start, before), after), TenantKey(keyHash);
    InWorld(delay, start, before, after);
    if Finds(w, node, key, env.tenantGet).Hit? {
      var steps := GetSteps(w, node, get, key, env.tenantGet);
      HitIsRecord(delay, w, g, node, keyHash, env);
      HitDecides(delay, w, node, get, keyHash, env.tenantGet);
      LiftSplit(steps[..|steps| - 1], []);
      NoRecordLeft(delay, start, before, after, E.Lift(steps[..|steps| - 1]), E.Cache(steps[|steps| - 1]), keyHash);
    } else {
      LookUpIsDecision(delay, w, g, node, get, request, keyHash, env);
    }
  }

  /** While rows cannot be read, requests are served from cached records, but not for long: more than 15 minutes and
      three delays, less two nanoseconds, after the last row was read, every request is answered with 401, on any node
      and whoever sent it. */
  lemma PartitionEndsIn401(delay: nat, start: E.World, before: seq<E.Event>, after: seq<E.Event>, g: Node, node: nat,
                           get: nat, request: nat, providers: seq<Provider>, x: Exchange)
    requires Reached(delay, start, before + after) && forall e :: e in after ==> !e.ReadRow?
    requires var reached := E.After(start, before);
             var w := E.After(reached, after);
             && w.cache.now > reached.cache.now + E.MaxLag(delay) && Mirrors(g, w, node)
             && (x.req.keyHash.Some? ==> Fits(delay, w, get, request, x.req.keyHash.value, x.env)) && x.env.row.None?
    ensures Upstream.Step(g, providers, x).1.status == Unauthorized
  {
    if x.req.keyHash.Some? {
      NoTenantLeft(delay, start, before, after, g, node, get, request, x.req.keyHash.value, x.env);
    }
    GT.GatesInOrder(g, providers, x);
  }

  /** The tenant has a budget, which is positive, and what it had spent at the start and the costs of its events
      consumed since come to it. */
  ghost predicate BudgetIsDue(start: E.World, run: seq<E.Event>, keyHash: string) {
    && keyHash in start.accounts && start.accounts[keyHash].id in start.ledger.spent
    && var a := start.accounts[keyHash];
       a.budgetCents > 0 && start.ledger.spent[a.id] as real + P.Cost(E.Charges(run), a.id) >= a.budgetCents as real
  }

  lemma EarlyDecisions(delay: nat, start: E.World, run: seq<E.Event>, es: seq<E.Event>, e: E.Event, keyHash: string,
                       tenant: Tenant)
    requires Reached(delay, start, run) && Decides(delay, E.After(start, run), es, e, keyHash, tenant)
    requires Exhausted(tenant)
    ensures BudgetIsDue(start, run, keyHash)
  {
    E.LegalSplit(delay, start, run, es + [e]);
    E.LegalSplit(delay, start, run, es);
    assert run + (es + [e]) == (run + es) + [e];
    E.NoPremature402(delay, start, run + es, e, keyHash);
    NoCharges(run, es);
  }

  /** No premature 402, at the handler: a request is answered with 402 only if the tenant's initial spend and the costs
      of its events consumed since come to at least its budget. */
  lemma NoEarly402(delay: nat, start: E.World, run: seq<E.Event>, g: Node, node: nat, get: nat,
                   request: nat, providers: seq<Provider>, x: Exchange)
    requires Reached(delay, start, run) && x.req.keyHash.Some?
    requires Mirrors(g, E.After(start, run), node)
    requires Fits(delay, E.After(start, run), get, request, x.req.keyHash.value, x.env)
    requires Upstream.Step(g, providers, x).1.status.PaymentRequired?
    ensures BudgetIsDue(start, run, x.req.keyHash.value)
  {
    var w, keyHash := E.After(start, run), x.req.keyHash.value;
    RejectedIff(g, providers, x);
    E.InitInv(delay, start);
    E.ReachInv(delay, start, run);
    LookUpIsDecision(delay, w, g, node, get, request, keyHash, x.env);
    EarlyDecisions(delay, start, run, Before(w, node, get, request, keyHash, x.env),
                   Deciding(w, node, get, keyHash, x.env), keyHash, LookUpTenant(g, keyHash, x.env).1.value);
  }

  /** A tenant without a positive budget is never answered with 402, on any node and whatever it has spent. */
  lemma NoBudgetNo402(delay: nat, start: E.World, run: seq<E.Event>, g: Node, node: nat, get: nat, request: nat,
                      providers: seq<Provider>, x: Exchange)
    requires Reached(delay, start, run) && x.req.keyHash.Some?
    requires Mirrors(g, E.After(start, run), node)
    requires Fits(delay, E.After(start, run), get, request, x.req.keyHash.value, x.env)
    requires x.req.keyHash.value in start.accounts && start.accounts[x.req.keyHash.value].budgetCents <= 0
    ensures !Upstream.Step(g, providers, x).1.status.PaymentRequired?
  {
    if Upstream.Step(g, providers, x).1.status.PaymentRequired? {
      NoEarly402(delay, start, run, g, node, get, request, providers, x);
    }
  }

  lemma {:induction false} NoCharges(run: seq<E.Event>, es: seq<E.Event>)
    requires forall e :: e in es ==> !e.Charge?
    ensures E.Charges(run + es) == E.Charges(run)
    decreases |run|, |es|
  {
    if run != [] {
      assert (run + es)[1..] == run[1..] + es;
      NoCharges(run[1..], es);
    } else if es != [] {
      assert run + es == es && [] + es[1..] == es[1..];
      assert es[0] in es;
      NoCharges([], es[1..]);
    } else {
      assert run + es == [];
    }
  }

  // ---------- Responses

  /** What the handler finds under a response's key, and what it leaves in the caches, is what a Get of the world does.
      */
  lemma ResponseIsRead(delay: nat, w: E.World, g: Node, node: nat, get: nat, tenant: Tenant, chat: ChatRequest,
                       a: Access)
    requires Mirrors(g, w, node) && a.now == w.cache.now && get !in w.cache.gets
    ensures var key := ResponseKey(tenant.id, chat.model, chat.digest);
            var es := E.Lift(GetSteps(w, node, get, key, a));
            var found := Finds(w, node, key, a);
            && E.Legal(delay, w, es) && Mirrors(CachedResponse(g, tenant, chat, a).0, E.After(w, es), node)
            && CachedResponse(g, tenant, chat, a).1
               == if found.Hit? && found.value.body.ResponseData? then Some(found.value.body.response) else None
  {
    var key := ResponseKey(tenant.id, chat.model, chat.digest);
    GetIsEvents(delay, w, g, node, get, key, a);
    GetIsFound(w, g, node, key, a);
  }

  /** What handlers, on any nodes, and the rest of the world do: a handler's call of its provider has come back, or
      anything else has happened. */
  datatype Act =
    | Answering(node: nat, tenant: Tenant, chat: ChatRequest, p: Provider, env: Env, outcome: R.Outcome<ChatResponse>)
    | Other(event: E.Event)

  /** What the handler does to the world then. (The second write of its Set is one of the other events.) */
  function Events(act: Act): seq<E.Event> {
    match act
    case Answering(node, tenant, chat, _, env, outcome) =>
      if outcome.reply.Response? then
        [E.CacheResponse(node, tenant.id, chat.model, chat.digest, outcome.reply.response, RESPONSE_TTL,
                         env.responseSet.kept)]
      else []
    case Other(e) => [e]
  }

  function AllEvents(acts: seq<Act>): seq<E.Event> {
    if acts == [] then [] else Events(acts[0]) + AllEvents(acts[1..])
  }

  /** A run of the world, with its handlers. */
  ghost predicate HandlersRun(delay: nat, start: E.World, acts: seq<Act>) {
    && Reached(delay, start, AllEvents(acts))
    && forall act :: act in acts ==> IsHandlers(act)
  }

  /** Only handlers cache responses; tenant ids and digests have no colon in them. */
  predicate IsHandlers(act: Act) {
    match act
    case Answering(_, tenant, chat, _, _, _) => ':' !in tenant.id && ':' !in chat.digest
    case Other(e) => !e.CacheResponse?
  }

  /** The handler's request is the tenant's, for this model and digest, and is answered with this response, whatever
      has become of its node. */
  ghost predicate AnswersWith(act: Act, id: string, model: string, digest: string, r: ChatResponse) {
    && act.Answering? && act.tenant.id == id && act.chat.model == model && act.chat.digest == digest
    && forall g :: Answer(g, act.tenant, act.chat, act.p, act.env, act.outcome).1.status == Answered(r)
  }

  lemma CachingRuns(delay: nat, w: E.World, e: E.Event, up: bool)
    requires e.CacheResponse?
    ensures var es := [e] + [E.Cache(S.Publish(w.cache.writes, up))];
            && E.Legal(delay, w, es)
            && StoredFrom(w, E.After(w, es), e.node, ResponseKey(e.tenantId, e.model, e.digest),
                          ResponseData(e.response), e.ttl, Access(w.cache.now, up, e.kept))
  {
    PublishStores(delay, w, E.Next(w, e), e.node, ResponseKey(e.tenantId, e.model, e.digest), ResponseData(e.response),
                  e.ttl, Access(w.cache.now, up, e.kept));
    E.Cons(delay, w, e, [E.Cache(S.Publish(w.cache.writes, up))]);
  }

  /** A handler that has got an answer does just this to its node, if nothing comes between the two writes of its Set.
      */
  lemma AnswerIsEvents(delay: nat, w: E.World, g: Node, act: Act)
    requires act.Answering? && E.Inv(delay, w) && Mirrors(g, w, act.node) && act.env.responseSet.now == w.cache.now
    ensures var publish := E.Cache(S.Publish(w.cache.writes, act.env.responseSet.up));
            var es := if act.outcome.reply.Response? then Events(act) + [publish] else [];
            var g' := Answer(g, act.tenant, act.chat, act.p, act.env, act.outcome).0;
            E.Legal(delay, w, es) && Mirrors(g', E.After(w, es), act.node)
  {
    if act.outcome.reply.Response? {
      var a, e := act.env.responseSet, Events(act)[0];
      CachingRuns(delay, w, e, a.up);
      StoredMirrors(w, E.After(w, Events(act) + [E.Cache(S.Publish(w.cache.writes, a.up))]), g, act.node,
                    ResponseKey(act.tenant.id, act.chat.model, act.chat.digest), ResponseData(e.response), RESPONSE_TTL,
                    a);
    }
  }

  lemma {:induction false} EventsSnoc(acts: seq<Act>, act: Act)
    ensures AllEvents(acts + [act]) == AllEvents(acts) + Events(act)
    decreases |acts|
  {
    if acts == [] {
      assert [act][1..] == [] && acts + [act] == [act];
    } else {
      assert (acts + [act])[1..] == acts[1..] + [act];
      EventsSnoc(acts[1..], act);
    }
  }

  /** What was cached is what a handler has answered with, for an hour. */
  lemma {:induction false} CachedByHandler(acts: seq<Act>, i: nat, id: string, model: string, digest: string,
                                           r: ChatResponse) returns (k: nat)
    requires forall act :: act in acts ==> IsHandlers(act)
    requires i < |AllEvents(acts)| && E.WasCached(AllEvents(acts)[i], id, model, digest, r)
    ensures AllEvents(acts)[i].ttl == 3_600_000_000_000
    ensures k < |acts| && AllEvents(acts[..k]) == AllEvents(acts)[..i] && AnswersWith(acts[k], id, model, digest, r)
    decreases |acts|
  {
    var n := |acts| - 1;
    var before, last := acts[..n], acts[n];
    assert acts == before + [last];
    EventsSnoc(before, last);
    if i < |AllEvents(before)| {
      assert forall act :: act in before ==> act in acts;
      k := CachedByHandler(before, i, id, model, digest, r);
      assert before[..k] == acts[..k] && AllEvents(before)[..i] == AllEvents(acts)[..i];
    } else {
      k := n;
      assert last in acts && AllEvents(acts)[..i] == AllEvents(before) && AllEvents(acts)[i] == Events(last)[0];
      HandlerCaches(last, id, model, digest, r);
    }
  }

  lemma HandlerCaches(act: Act, id: string, model: string, digest: string, r: ChatResponse)
    requires IsHandlers(act) && Events(act) != [] && E.WasCached(Events(act)[0], id, model, digest, r)
    ensures AnswersWith(act, id, model, digest, r) && Events(act)[0].ttl == 3_600_000_000_000
  {
  }

  lemma {:induction false} HandlersArePlain(acts: seq<Act>)
    requires forall act :: act in acts ==> IsHandlers(act)
    ensures forall e :: e in AllEvents(acts) ==> E.Plain(e)
    decreases |acts|
  {
    if acts == [] {
    } else {
      assert acts[0] in acts && forall act :: act in acts[1..] ==> act in acts;
      HandlersArePlain(acts[1..]);
    }
  }

  /** The handler's act at position k answered with this response, not longer ago than 70 minutes and two delays, less
      two nanoseconds. */
  ghost predicate AnsweredAt(delay: nat, start: E.World, acts: seq<Act>, k: nat, id: string, model: string,
                             digest: string, r: ChatResponse)
    requires k < |acts|
  {
    && AnswersWith(acts[k], id, model, digest, r)
    && E.After(start, AllEvents(acts)).cache.now
       <= E.After(start, AllEvents(acts[..k])).cache.now + 4_200_000_000_000 + 2 * delay - 2
  }

  /** Cache integrity at the handlers: over any number of nodes and any interleaving, a response that a handler finds
      in the cache is what an earlier request of the same tenant, for the same model and digest, was answered with, at
      most 70 minutes and two delays, less two nanoseconds, ago. */
  lemma FoundResponsesWereAnswers(delay: nat, start: E.World, acts: seq<Act>, g: Node, node: nat, tenant: Tenant,
                                  chat: ChatRequest, a: Access)
    requires HandlersRun(delay, start, acts) && ':' !in tenant.id && ':' !in chat.digest
    requires var w := E.After(start, AllEvents(acts)); Mirrors(g, w, node) && a.now == w.cache.now
    requires CachedResponse(g, tenant, chat, a).1.Some?
    ensures exists k: nat :: k < |acts| && AnsweredAt(delay, start, acts, k, tenant.id, chat.model, chat.digest,
                                                      CachedResponse(g, tenant, chat, a).1.value)
  {
    var es, key := AllEvents(acts), ResponseKey(tenant.id, chat.model, chat.digest);
    var w := E.After(start, es);
    var r := CachedResponse(g, tenant, chat, a).1.value;
    var v := Finds(w, node, key, a).value;
    GetIsFound(w, g, node, key, a);
    FindsHeld(w, node, key, a);
    HandlersArePlain(acts);
    E.HeldWasCached(delay, start, es, tenant.id, chat.model, chat.digest, v);
    E.InitInv(delay, start);
    E.ReachInv(delay, start, es);
    FindsYoung(delay, w, node, key, a);
    var i :| E.CachedAt(start, es, i, tenant.id, chat.model, chat.digest, v);
    var k := CachedByHandler(acts, i, tenant.id, chat.model, chat.digest, r);
    assert AnsweredAt(delay, start, acts, k, tenant.id, chat.model, chat.digest, r);
  }
}
