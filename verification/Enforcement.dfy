/**
 Budget enforcement across the whole gateway: tenant records are read from the database, cached on several nodes,
 and decide at the budget gate of internal/router/handler.go, while the budget processors charge the tenants.

 Whatever the source does in several steps is taken apart, and anything may happen in between: a record is read and
 later written to memory and to Redis; a Get looks into memory, asks Redis and backfills; a flush updates row after
 row. Up to `delay` nanoseconds pass between the read of a row and the write of the record to memory, between the two
 writes of a Set, and between the answer of Redis and the backfill.
 */
module Enforcement {
  import opened Wrappers
  import opened TwoTierCache
  import opened Staleness
  import opened Tenants
  import P = Processors

  const MAX_AGE: nat := TENANT_TTL + BACKFILL

  /** How old a record may be, counted from the read of its row, when the gate decides on it: 15 minutes and three
      delays, less two nanoseconds. */
  function MaxLag(delay: nat): (lag: int)
    ensures lag == 900_000_000_000 + 3 * delay - 2
  {
    MAX_AGE + 3 * delay - 2
  }

  /** A tenant record, with the time its row was read. */
  datatype Record = Record(tenant: Tenant, readAt: int)

  type Cached = Payload<Record, ChatResponse>

  datatype Lookup = Lookup(node: nat, keyHash: string, record: Record)

  datatype World = World(
    accounts: map<string, Tenant>,    // by key hash; their spending is the ledger's, and no route changes the rest
    ledger: P.State,
    cache: Nodes<Cached>,
    lookups: map<nat, Lookup>)        // rows read by requests that missed the cache

  datatype Event =
    | Cache(step: Step<Cached>)       // of any operation but the first of a Set
    | ReadRow(request: nat, node: nat, keyHash: string)
    | StoreRow(request: nat, kept: bool)
    | CacheResponse(node: nat, tenantId: string, model: string, digest: string, response: ChatResponse, ttl: nat,
                    kept: bool)
    | Charge(act: P.Act)

  function Row(w: World, keyHash: string): Option<Tenant> {
    if keyHash in w.accounts && w.accounts[keyHash].id in w.ledger.spent then
      Some(w.accounts[keyHash].(spentCents := w.ledger.spent[w.accounts[keyHash].id]))
    else None
  }

  predicate Enabled(delay: nat, w: World, e: Event) {
    match e
    case Cache(step) => !step.Write? && Staleness.Enabled(delay, w.cache, step)
    case ReadRow(request, node, keyHash) => request !in w.lookups && Row(w, keyHash).Some?
    case StoreRow(request, kept) => request in w.lookups && w.cache.now <= w.lookups[request].record.readAt + delay
    case CacheResponse(_, _, _, _, _, _, _) => true
    case Charge(act) => P.Enabled(w.ledger, act) && (act.Consume? ==> act.event.cost >= 0.0)
  }

  /** The step an event makes on the caches, if any. */
  function CacheStep(w: World, e: Event): Option<Step<Cached>> {
    match e
    case Cache(step) => Some(step)
    case StoreRow(request, kept) =>
      if request in w.lookups then
        var l := w.lookups[request];
        Some(Step.Write(l.node, TenantKey(l.keyHash), TenantData(l.record), TENANT_TTL, kept))
      else None
    case CacheResponse(node, id, model, digest, response, ttl, kept) =>
      Some(Step.Write(node, ResponseKey(id, model, digest), ResponseData(response), ttl, kept))
    case _ => None
  }

  function NextCache(w: World, e: Event): Nodes<Cached> {
    match CacheStep(w, e)
    case Some(step) => Apply(w.cache, step)
    case None => w.cache
  }

  function Next(w: World, e: Event): World {
    match e
    case ReadRow(request, node, keyHash) =>
      if Row(w, keyHash).Some? then
        w.(lookups := w.lookups[request := Lookup(node, keyHash, Record(Row(w, keyHash).value, w.cache.now))])
      else w
    case StoreRow(request, kept) => w.(cache := NextCache(w, e), lookups := w.lookups - {request})
    case Charge(act) => w.(ledger := P.Apply(w.ledger, act))
    case _ => w.(cache := NextCache(w, e))
  }

  predicate Legal(delay: nat, w: World, es: seq<Event>)
    decreases |es|
  {
    es == [] || (Enabled(delay, w, es[0]) && Legal(delay, Next(w, es[0]), es[1..]))
  }

  function After(w: World, es: seq<Event>): World
    decreases |es|
  {
    if es == [] then w else After(Next(w, es[0]), es[1..])
  }

  /** A gateway that starts with empty caches and idle processors. */
  predicate Initial(w: World) {
    w.cache == Start(w.cache.now) && w.lookups == map[] && P.Idle(w.ledger)
  }

  /** The value that an operation on this key ends with in this step: a Get returns it, or a Set has stored it. */
  function Obtained(s: Nodes<Cached>, step: Step<Cached>, key: string): Option<Stamped<Cached>> {
    match step
    case Look(_, node, k) => Returned(s, step, node, key)
    case Backfill(get, _) =>
      if get in s.gets && s.gets[get].Found? then Returned(s, step, s.gets[get].node, key) else None
    case Publish(id, _) => if id in s.sets && s.sets[id].key == key then Some(s.sets[id].value) else None
    case _ => None
  }

  /** The record the budget gate decides on in this event, for a request with this key: the one that the request's Get
      has returned, or the one it has read and now stored. */
  function Decision(w: World, e: Event, keyHash: string): Option<Record> {
    if !e.Cache? then None
    else
      var v := Obtained(w.cache, e.step, TenantKey(keyHash));
      if v.Some? && v.value.body.TenantData? then Some(v.value.body.tenant) else None
  }

  // ---------- Where records come from

  /** A record of the key's tenant that was read no later than it was stored, and at most `delay` before. */
  predicate Sound(delay: nat, w: World, keyHash: string, v: Stamped<Cached>) {
    && v.ttl == TENANT_TTL && v.body.TenantData?
    && SoundRecord(w, keyHash, v.body.tenant)
    && v.body.tenant.readAt <= v.setAt <= v.body.tenant.readAt + delay
  }

  /** A record of a row that has only been charged more since. */
  predicate SoundRecord(w: World, keyHash: string, r: Record) {
    && keyHash in w.accounts && r.tenant == w.accounts[keyHash].(spentCents := r.tenant.spentCents)
    && r.tenant.id in w.ledger.spent && r.tenant.spentCents <= w.ledger.spent[r.tenant.id]
    && r.readAt <= w.cache.now
  }

  ghost predicate Inv(delay: nat, w: World) {
    && Good(delay, w.cache)
    && (forall k, v :: Holds(w.cache, TenantKey(k), v) ==> Sound(delay, w, k, v))
    && (forall q :: q in w.lookups ==> SoundRecord(w, w.lookups[q].keyHash, w.lookups[q].record))
    && P.NonNegative(w.ledger)
  }

  /** What an event can change of a world: the clock and the ledger move forwards only. */
  ghost predicate Forward(w: World, w': World) {
    && w'.accounts == w.accounts && w.cache.now <= w'.cache.now
    && w'.ledger.spent.Keys == w.ledger.spent.Keys
    && (forall t :: t in w.ledger.spent ==> w.ledger.spent[t] <= w'.ledger.spent[t])
  }

  lemma MovesForward(delay: nat, w: World, e: Event)
    requires Enabled(delay, w, e) && P.NonNegative(w.ledger)
    ensures Forward(w, Next(w, e)) && P.NonNegative(Next(w, e).ledger)
  {
    if e.Charge? {
      P.StaysNonNegative(w.ledger, e.act);
    }
  }

  /** What is held under a tenant's key after an event is sound. */
  lemma HeldStaysSound(delay: nat, w: World, e: Event, k: string, v: Stamped<Cached>)
    requires Inv(delay, w) && Enabled(delay, w, e) && Holds(Next(w, e).cache, TenantKey(k), v)
    ensures Sound(delay, Next(w, e), k, v)
  {
    MovesForward(delay, w, e);
    if Holds(w.cache, TenantKey(k), v) {
      assert Sound(delay, w, k, v);
    } else {
      Provenance(w.cache, CacheStep(w, e).value, TenantKey(k), v);
      if e.CacheResponse? {
        KeysDiffer(k, e.tenantId, e.model, e.digest);
      } else {
        var l := w.lookups[e.request];
        TenantKeyIsInjective(k, l.keyHash);
        assert SoundRecord(w, l.keyHash, l.record);
      }
    }
  }

  lemma StaysGoodCache(delay: nat, w: World, e: Event)
    requires Good(delay, w.cache) && Enabled(delay, w, e)
    ensures Good(delay, Next(w, e).cache)
  {
    if CacheStep(w, e).Some? {
      StaysGood(delay, w.cache, CacheStep(w, e).value);
    }
  }

  lemma KeepsInv(delay: nat, w: World, e: Event)
    requires Inv(delay, w) && Enabled(delay, w, e)
    ensures Inv(delay, Next(w, e))
  {
    var w' := Next(w, e);
    MovesForward(delay, w, e);
    StaysGoodCache(delay, w, e);
    forall k, v | Holds(w'.cache, TenantKey(k), v)
      ensures Sound(delay, w', k, v)
    {
      HeldStaysSound(delay, w, e, k, v);
    }
    forall q | q in w'.lookups
      ensures SoundRecord(w', w'.lookups[q].keyHash, w'.lookups[q].record)
    {
      if q in w.lookups {
        assert SoundRecord(w, w.lookups[q].keyHash, w.lookups[q].record);
      }
    }
  }

  lemma InitInv(delay: nat, w: World)
    requires Initial(w)
    ensures Inv(delay, w)
  {
  }

  lemma {:induction false} ReachInv(delay: nat, w: World, es: seq<Event>)
    requires Inv(delay, w) && Legal(delay, w, es)
    ensures Inv(delay, After(w, es)) && Forward(w, After(w, es))
    decreases |es|
  {
    if es == [] {
    } else {
      KeepsInv(delay, w, es[0]);
      MovesForward(delay, w, es[0]);
      ReachInv(delay, Next(w, es[0]), es[1..]);
    }
  }

  lemma {:induction false} LegalSplit(delay: nat, w: World, xs: seq<Event>, ys: seq<Event>)
    ensures Legal(delay, w, xs + ys) <==> Legal(delay, w, xs) && Legal(delay, After(w, xs), ys)
    ensures After(w, xs + ys) == After(After(w, xs), ys)
    decreases |xs|
  {
    if xs == [] {
      assert xs + ys == ys;
    } else {
      assert (xs + ys)[1..] == xs[1..] + ys;
      LegalSplit(delay, Next(w, xs[0]), xs[1..], ys);
    }
  }

  // ---------- Bounded enforcement lag

  lemma ReturnedIsObtained(s: Nodes<Cached>, step: Step<Cached>, node: nat, key: string)
    requires Returned(s, step, node, key).Some?
    ensures Obtained(s, step, key) == Returned(s, step, node, key)
  {
  }

  /** The value an operation ends with is held under its key, and not too old. */
  lemma ObtainedIsYoung(delay: nat, s: Nodes<Cached>, step: Step<Cached>, key: string)
    requires Good(delay, s) && Staleness.Enabled(delay, s, step) && Obtained(s, step, key).Some?
    ensures var v := Obtained(s, step, key).value;
            Holds(s, key, v) && (v.ttl > 0 ==> s.now <= LastMoment(delay, v))
  {
    match step
    case Look(_, node, _) =>
      ReturnedIsYoung(delay, s, step, node, key);
      ReturnedIsHeld(s, step, node, key);
    case Backfill(get, _) =>
      ReturnedIsYoung(delay, s, step, s.gets[get].node, key);
      ReturnedIsHeld(s, step, s.gets[get].node, key);
    case Publish(id, _) =>
      assert s.sets[id] == Setting(key, Obtained(s, step, key).value);
      assert InSets(s, key, Obtained(s, step, key).value);
  }

  lemma RecordIsRecent(delay: nat, w: World, e: Event, keyHash: string)
    requires Inv(delay, w) && Enabled(delay, w, e) && Decision(w, e, keyHash).Some?
    ensures var r := Decision(w, e, keyHash).value;
            SoundRecord(w, keyHash, r) && w.cache.now <= r.readAt + MaxLag(delay)
  {
    var v := Obtained(w.cache, e.step, TenantKey(keyHash)).value;
    ObtainedIsYoung(delay, w.cache, e.step, TenantKey(keyHash));
    assert Sound(delay, w, keyHash, v);
  }

  /** In every run over any number of nodes, every record the gate decides on comes from a row of the key's tenant that
      was read at most 15 minutes, three delays, less two nanoseconds, ago, and has only been charged more since. */
  lemma DecisionIsRecent(delay: nat, w: World, es: seq<Event>, e: Event, keyHash: string)
    requires Initial(w) && Legal(delay, w, es + [e]) && Decision(After(w, es), e, keyHash).Some?
    ensures var now, r := After(w, es), Decision(After(w, es), e, keyHash).value;
            SoundRecord(now, keyHash, r) && now.cache.now <= r.readAt + MaxLag(delay)
  {
    LegalSplit(delay, w, es, [e]);
    InitInv(delay, w);
    ReachInv(delay, w, es);
    RecordIsRecent(delay, After(w, es), e, keyHash);
  }

  /** The tenant's spend has reached the budget, and every record read after time t says so. */
  ghost predicate Informed(w: World, keyHash: string, t: int) {
    && keyHash in w.accounts && w.accounts[keyHash].id in w.ledger.spent
    && w.ledger.spent[w.accounts[keyHash].id] >= w.accounts[keyHash].budgetCents
    && (forall v :: Holds(w.cache, TenantKey(keyHash), v) && v.body.TenantData? ==>
          Tells(w, keyHash, t, v.body.tenant))
    && (forall q :: q in w.lookups && w.lookups[q].keyHash == keyHash ==> Tells(w, keyHash, t, w.lookups[q].record))
  }

  predicate Tells(w: World, keyHash: string, t: int, r: Record)
    requires keyHash in w.accounts
  {
    r.readAt > t ==> r.tenant.spentCents >= w.accounts[keyHash].budgetCents
  }

  lemma StaysInformed(delay: nat, w: World, e: Event, keyHash: string, t: int)
    requires Inv(delay, w) && Enabled(delay, w, e) && Informed(w, keyHash, t)
    ensures Informed(Next(w, e), keyHash, t)
  {
    var w' := Next(w, e);
    MovesForward(delay, w, e);
    forall v | Holds(w'.cache, TenantKey(keyHash), v) && v.body.TenantData?
      ensures Tells(w', keyHash, t, v.body.tenant)
    {
      if !Holds(w.cache, TenantKey(keyHash), v) {
        Provenance(w.cache, CacheStep(w, e).value, TenantKey(keyHash), v);
        if e.StoreRow? {
          TenantKeyIsInjective(keyHash, w.lookups[e.request].keyHash);
        }
      }
    }
  }

  lemma {:induction false} RunStaysInformed(delay: nat, w: World, es: seq<Event>, keyHash: string, t: int)
    requires Inv(delay, w) && Legal(delay, w, es) && Informed(w, keyHash, t)
    ensures Informed(After(w, es), keyHash, t)
    decreases |es|
  {
    if es == [] {
    } else {
      StaysInformed(delay, w, es[0], keyHash, t);
      KeepsInv(delay, w, es[0]);
      RunStaysInformed(delay, Next(w, es[0]), es[1..], keyHash, t);
    }
  }

  lemma DecisionIsInformed(delay: nat, w: World, e: Event, keyHash: string, t: int)
    requires Inv(delay, w) && Enabled(delay, w, e) && Informed(w, keyHash, t) && Decision(w, e, keyHash).Some?
    ensures Tells(w, keyHash, t, Decision(w, e, keyHash).value)
  {
    ObtainedIsYoung(delay, w.cache, e.step, TenantKey(keyHash));
  }

  /** Bounded enforcement lag: in every run over any number of nodes and processors, once a tenant's spend in the
      database has reached its positive budget, every decision of the gate on it more than 15 minutes and three delays,
      less two nanoseconds, later is a 402, whatever Redis writes fail and whatever the caches lose. */
  lemma BoundedLag(delay: nat, w: World, before: seq<Event>, after: seq<Event>, e: Event, keyHash: string)
    requires Initial(w) && Legal(delay, w, before + after + [e])
    requires var reached := After(w, before);
             && Row(reached, keyHash).Some?
             && 0 < Row(reached, keyHash).value.budgetCents <= Row(reached, keyHash).value.spentCents
             && After(reached, after).cache.now > reached.cache.now + MaxLag(delay)
             && Decision(After(reached, after), e, keyHash).Some?
    ensures var tenant := Decision(After(After(w, before), after), e, keyHash).value.tenant;
            Exhausted(tenant) && 0 < tenant.budgetCents <= tenant.spentCents
  {
    LegalSplit(delay, w, before + after, [e]);
    LegalSplit(delay, w, before, after);
    InitInv(delay, w);
    ReachInv(delay, w, before);
    var reached := After(w, before);
    var t := reached.cache.now;
    assert Informed(reached, keyHash, t) by {
      forall v | Holds(reached.cache, TenantKey(keyHash), v)
        ensures v.body.TenantData? ==> Tells(reached, keyHash, t, v.body.tenant)
      {
        assert Sound(delay, reached, keyHash, v);
      }
    }
    ReachInv(delay, reached, after);
    RunStaysInformed(delay, reached, after, keyHash, t);
    RecordIsRecent(delay, After(reached, after), e, keyHash);
    DecisionIsInformed(delay, After(reached, after), e, keyHash, t);
  }

  // ---------- While the database cannot be reached

  /** No record, cached or about to be, was read after time t. */
  ghost predicate ReadBefore(w: World, t: int) {
    && (forall k, v :: Holds(w.cache, TenantKey(k), v) && v.body.TenantData? ==> v.body.tenant.readAt <= t)
    && (forall q :: q in w.lookups ==> w.lookups[q].record.readAt <= t)
  }

  lemma StaysReadBefore(w: World, e: Event, t: int)
    requires ReadBefore(w, t) && !e.ReadRow? && (e.Cache? ==> !e.step.Write?)
    ensures ReadBefore(Next(w, e), t)
  {
    forall k, v | Holds(Next(w, e).cache, TenantKey(k), v) && v.body.TenantData?
      ensures v.body.tenant.readAt <= t
    {
      if !Holds(w.cache, TenantKey(k), v) {
        Provenance(w.cache, CacheStep(w, e).value, TenantKey(k), v);
      }
    }
  }

  lemma {:induction false} RunStaysReadBefore(delay: nat, w: World, es: seq<Event>, t: int)
    requires ReadBefore(w, t) && Legal(delay, w, es) && forall e :: e in es ==> !e.ReadRow?
    ensures ReadBefore(After(w, es), t)
    decreases |es|
  {
    if es == [] {
    } else {
      assert es[0] in es;
      StaysReadBefore(w, es[0], t);
      RunStaysReadBefore(delay, Next(w, es[0]), es[1..], t);
    }
  }

  /** How long cached records outlast the database: in every run over any number of nodes, more than 15 minutes and
      three delays, less two nanoseconds, after rows can no longer be read, the gate decides on no record any more,
      whatever tenant it is. */
  lemma RecordsRunOut(delay: nat, w: World, before: seq<Event>, after: seq<Event>, e: Event, keyHash: string)
    requires Initial(w) && Legal(delay, w, before + after + [e]) && forall d :: d in after ==> !d.ReadRow?
    requires After(After(w, before), after).cache.now > After(w, before).cache.now + MaxLag(delay)
    ensures Decision(After(After(w, before), after), e, keyHash).None?
  {
    LegalSplit(delay, w, before + after, [e]);
    LegalSplit(delay, w, before, after);
    InitInv(delay, w);
    ReachInv(delay, w, before);
    var cut := After(w, before);
    assert ReadBefore(cut, cut.cache.now) by {
      forall k, v | Holds(cut.cache, TenantKey(k), v)
        ensures v.body.TenantData? ==> v.body.tenant.readAt <= cut.cache.now
      {
        assert Sound(delay, cut, k, v);
      }
    }
    ReachInv(delay, cut, after);
    RunStaysReadBefore(delay, cut, after, cut.cache.now);
    if Decision(After(cut, after), e, keyHash).Some? {
      RecordIsRecent(delay, After(cut, after), e, keyHash);
      ObtainedIsYoung(delay, After(cut, after).cache, e.step, TenantKey(keyHash));
    }
  }

  // ---------- No premature 402

  /** What a run does to the ledger. */
  function Charges(es: seq<Event>): seq<P.Act> {
    if es == [] then []
    else if es[0].Charge? then [es[0].act] + Charges(es[1..])
    else Charges(es[1..])
  }

  lemma {:induction false} LedgerRun(delay: nat, w: World, es: seq<Event>)
    requires Legal(delay, w, es)
    ensures P.Legal(w.ledger, Charges(es)) && After(w, es).ledger == P.Run(w.ledger, Charges(es))
    ensures forall a :: a in Charges(es) && a.Consume? ==> a.event.cost >= 0.0
    decreases |es|
  {
    if es == [] {
    } else {
      LedgerRun(delay, Next(w, es[0]), es[1..]);
      if es[0].Charge? {
        assert Charges(es)[1..] == Charges(es[1..]);
      }
    }
  }

  /** No premature 402: in every run, when the gate rejects a tenant, it has a budget, which is positive, and what it
      had spent at the start and the cost of its events consumed since, by any number of processors, come to at least
      its budget. Truncation, failed updates and stale records only ever let it spend more. */
  lemma NoPremature402(delay: nat, w: World, es: seq<Event>, e: Event, keyHash: string)
    requires Initial(w) && Legal(delay, w, es + [e]) && Decision(After(w, es), e, keyHash).Some?
    requires Exhausted(Decision(After(w, es), e, keyHash).value.tenant)
    ensures keyHash in w.accounts && w.accounts[keyHash].id in w.ledger.spent
    ensures var a := w.accounts[keyHash];
            a.budgetCents > 0 && w.ledger.spent[a.id] as real + P.Cost(Charges(es), a.id) >= a.budgetCents as real
  {
    LegalSplit(delay, w, es, [e]);
    InitInv(delay, w);
    ReachInv(delay, w, es);
    RecordIsRecent(delay, After(w, es), e, keyHash);
    LedgerRun(delay, w, es);
    P.NeverOvercharged(w.ledger, Charges(es), w.accounts[keyHash].id);
  }

  // ---------- Responses do not mix

  /** Some node cached this response for the tenant, the model and the digest. */
  predicate WasCached(e: Event, id: string, model: string, digest: string, response: ChatResponse) {
    e.CacheResponse? && e.tenantId == id && e.model == model && e.digest == digest && e.response == response
  }

  /** Tenant ids and digests have no colon in them. */
  predicate Plain(e: Event) {
    e.CacheResponse? ==> ':' !in e.tenantId && ':' !in e.digest
  }

  /** This event cached the value, at the time the value says. */
  predicate CachedAt(w: World, es: seq<Event>, i: int, id: string, model: string, digest: string, v: Stamped<Cached>) {
    && 0 <= i < |es| && v.body.ResponseData? && WasCached(es[i], id, model, digest, v.body.response)
    && v.setAt == After(w, es[..i]).cache.now && v.ttl == es[i].ttl
  }

  lemma {:induction false} HeldWasCached(delay: nat, w: World, es: seq<Event>, id: string, model: string,
                                         digest: string, v: Stamped<Cached>)
    requires Initial(w) && Legal(delay, w, es)
    requires ':' !in id && ':' !in digest && forall e :: e in es ==> Plain(e)
    requires Holds(After(w, es).cache, ResponseKey(id, model, digest), v)
    ensures exists i :: CachedAt(w, es, i, id, model, digest, v)
    decreases |es|
  {
    if es == [] {
    } else {
      var n := |es| - 1;
      var last, before := es[n], After(w, es[..n]);
      assert es == es[..n] + [last] && last in es;
      LegalSplit(delay, w, es[..n], [last]);
      assert [last][1..] == [] && After(w, es) == Next(before, last);
      if Holds(before.cache, ResponseKey(id, model, digest), v) {
        HeldWasCached(delay, w, es[..n], id, model, digest, v);
        var i :| CachedAt(w, es[..n], i, id, model, digest, v);
        assert es[..n][..i] == es[..i];
        assert CachedAt(w, es, i, id, model, digest, v);
      } else {
        JustCached(delay, before, last, id, model, digest, v);
        assert CachedAt(w, es, n, id, model, digest, v);
      }
    }
  }

  lemma JustCached(delay: nat, w: World, e: Event, id: string, model: string, digest: string, v: Stamped<Cached>)
    requires Enabled(delay, w, e)
    requires ':' !in id && ':' !in digest && Plain(e) && !Holds(w.cache, ResponseKey(id, model, digest), v)
    requires Holds(Next(w, e).cache, ResponseKey(id, model, digest), v)
    ensures v.body.ResponseData? && WasCached(e, id, model, digest, v.body.response)
    ensures v.setAt == w.cache.now && v.ttl == e.ttl
  {
    Provenance(w.cache, CacheStep(w, e).value, ResponseKey(id, model, digest), v);
    if e.StoreRow? {
      KeysDiffer(w.lookups[e.request].keyHash, id, model, digest);
    } else {
      ResponseKeyIsInjective(id, model, digest, e.tenantId, e.model, e.digest);
    }
  }

  /** Cache integrity over any number of nodes: in every interleaving of their operations, a response that a Get
      returns is one that some node cached before for the same tenant, model and digest, and not longer ago than its
      time-to-live and the ten minutes of a backfill (and the delays) allow. */
  lemma ResponsesAreOwn(delay: nat, w: World, es: seq<Event>, step: Step<Cached>, node: nat, id: string,
                        model: string, digest: string)
    requires Initial(w) && Legal(delay, w, es + [Cache(step)])
    requires ':' !in id && ':' !in digest && forall e :: e in es ==> Plain(e)
    requires Returned(After(w, es).cache, step, node, ResponseKey(id, model, digest)).Some?
    ensures var s := After(w, es).cache;
            var found := Returned(s, step, node, ResponseKey(id, model, digest)).value;
            exists i :: CachedAt(w, es, i, id, model, digest, found)
                        && (es[i].ttl > 0 ==>
                              s.now <= After(w, es[..i]).cache.now + es[i].ttl + 600_000_000_000 + 2 * delay - 2)
  {
    var s, key := After(w, es).cache, ResponseKey(id, model, digest);
    var v := Returned(s, step, node, key).value;
    LegalSplit(delay, w, es, [Cache(step)]);
    InitInv(delay, w);
    ReachInv(delay, w, es);
    ReturnedIsYoung(delay, s, step, node, key);
    ReturnedIsHeld(s, step, node, key);
    HeldWasCached(delay, w, es, id, model, digest, v);
    var i :| CachedAt(w, es, i, id, model, digest, v);
  }

  // ---------- The lag is attained

  lemma Cons(delay: nat, w: World, e: Event, es: seq<Event>)
    ensures Legal(delay, w, [e] + es) <==> Enabled(delay, w, e) && Legal(delay, Next(w, e), es)
    ensures After(w, [e] + es) == After(Next(w, e), es)
  {
    assert ([e] + es)[1..] == es;
  }

  /** Steps of the caches, as events. */
  function Lift(steps: seq<Step<Cached>>): seq<Event> {
    if steps == [] then [] else [Cache(steps[0])] + Lift(steps[1..])
  }

  lemma {:induction false} LiftRun(delay: nat, w: World, steps: seq<Step<Cached>>)
    requires Staleness.Legal(delay, w.cache, steps) && forall step :: step in steps ==> !step.Write?
    ensures Legal(delay, w, Lift(steps)) && After(w, Lift(steps)) == w.(cache := Run(w.cache, steps))
    ensures forall e :: e in Lift(steps) ==> e.Cache?
    decreases |steps|
  {
    if steps == [] {
    } else {
      assert steps[0] in steps;
      LiftRun(delay, Next(w, Cache(steps[0])), steps[1..]);
      Cons(delay, w, Cache(steps[0]), Lift(steps[1..]));
    }
  }

  /** A row is read at time 0, when nothing is spent; the budget is used up at once. */
  lemma UsedUp(delay: nat, w: World) returns (w': World, es: seq<Event>)
    requires w == World(map["h" := Tenant("t", 60, 1, 0, [])], P.State(map[], map[], map["t" := 0]), Start(0), map[])
    ensures Legal(delay, w, es) && w' == After(w, es)
    ensures Row(w', "h") == Some(Tenant("t", 60, 1, 1, [])) && w'.cache == Start(0)
    ensures w'.lookups == map[0 := Lookup(0, "h", Record(Tenant("t", 60, 1, 0, []), 0))]
  {
    var read, cost, swap, pay := ReadRow(0, 0, "h"), Charge(P.Consume(0, P.B.Event("t", 1.0))), Charge(P.Swap(0)),
      Charge(P.Pay(0, "t", false));
    var w1 := Next(w, read);
    var w2 := Next(w1, cost);
    assert P.Of(w2.ledger.pending, 0) == map["t" := 1.0];
    var w3 := Next(w2, swap);
    assert P.Of(w3.ledger.updates, 0) == map["t" := 1.0];
    w' := Next(w3, pay);
    assert w'.ledger.spent["t"] == 1;
    es := [read] + ([cost] + ([swap] + ([pay] + [])));
    Cons(delay, w3, pay, []);
    Cons(delay, w2, swap, [pay] + []);
    Cons(delay, w1, cost, [swap] + ([pay] + []));
    Cons(delay, w, read, [cost] + ([swap] + ([pay] + [])));
  }

  /** The record is stored late: in memory and, later still, in Redis. */
  lemma StoredLate(delay: nat, w: World, r: Record) returns (w': World, es: seq<Event>)
    requires w.cache == Start(0) && w.lookups == map[0 := Lookup(0, "h", r)] && r.readAt == 0
    ensures Legal(delay, w, es) && w' == After(w, es) && forall e :: e in es ==> !e.ReadRow?
    ensures var v := Stamped(TenantData(r), delay, TENANT_TTL, 0);
            && w'.cache.now == 2 * delay && w'.cache.gets == map[] && L1(w'.cache, 1) == map[]
            && w'.cache.l2 == map[TenantKey("h") := Entry(v, Some(2 * delay + TENANT_TTL))]
  {
    var wait, store, publish := Cache(Step.Wait(delay)), StoreRow(0, true), Cache(Step.Publish(0, true));
    var w1 := Next(w, wait);
    var w2 := Next(w1, store);
    var v := Stamped(TenantData(r), delay, TENANT_TTL, 0);
    assert w2.cache.sets == map[0 := Setting(TenantKey("h"), v)];
    var w3 := Next(w2, wait);
    w' := Next(w3, publish);
    es := [wait] + ([store] + ([wait] + ([publish] + [])));
    Cons(delay, w3, publish, []);
    Cons(delay, w2, wait, [publish] + []);
    Cons(delay, w1, store, [wait] + ([publish] + []));
    Cons(delay, w, wait, [store] + ([wait] + ([publish] + [])));
  }

  /** The bounds of BoundedLag and RecordsRunOut are exact: at just that time, with no row read in between, a second
      node that has backfilled late from a record that was stored late still lets the tenant through. */
  lemma LagIsAttained(delay: nat)
    returns (w: World, before: seq<Event>, after: seq<Event>, e: Event)
    ensures Initial(w) && Legal(delay, w, before + after + [e])
    ensures var reached := After(w, before);
            && Row(reached, "h").Some?
            && 0 < Row(reached, "h").value.budgetCents <= Row(reached, "h").value.spentCents
            && After(reached, after).cache.now == reached.cache.now + MaxLag(delay)
            && Decision(After(reached, after), e, "h").Some?
            && Decision(After(reached, after), e, "h").value.tenant.spentCents == 0
            && !Exhausted(Decision(After(reached, after), e, "h").value.tenant)
    ensures forall d :: d in after ==> !d.ReadRow?
  {
    w := World(map["h" := Tenant("t", 60, 1, 0, [])], P.State(map[], map[], map["t" := 0]), Start(0), map[]);
    var r := Record(Tenant("t", 60, 1, 0, []), 0);
    var w1, w2, late;
    w1, before := UsedUp(delay, w);
    w2, late := StoredLate(delay, w1, r);
    var steps, last := ReturnedLate(delay, w2.cache, TenantKey("h"), Stamped(TenantData(r), delay, TENANT_TTL, 0));
    Staleness.RunSplit(delay, w2.cache, steps, [last]);
    LiftRun(delay, w2, steps);
    after, e := late + Lift(steps), Cache(last);
    LegalSplit(delay, w1, late, Lift(steps));
    LegalSplit(delay, w, before, after);
    LegalSplit(delay, w, before + after, [e]);
    var w3 := After(w2, Lift(steps));
    Cons(delay, w3, e, []);
    assert [e] + [] == [e];
  }
}
