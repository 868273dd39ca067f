/**
 From served requests to charges: which requests are logged with a cost, and what the budget processors of any number of
 nodes make of the log.

 Log events reach the processors through a queue that may lose, repeat, delay and reorder them.
 */
module Charges {
  import opened Wrappers
  import opened Tenants
  import opened Gateway
  import opened Selector
  import opened Upstream
  import B = Budget
  import E = Enforcement
  import GT = GatewayTheorems
  import P = Processors
  import R = Retry
  import opened Streaming

  /** A request served by some node, in the state it found that node in. */
  datatype Serving = Serving(g: Node, x: Exchange)

  function ServedBy(providers: seq<Provider>, s: Serving): Served {
    Step(s.g, providers, s.x).1
  }

  /** Served by possible choices, with base providers that count tokens in natural numbers. */
  ghost predicate Regular(providers: seq<Provider>, s: Serving) {
    && Lawful(s.g, providers, s.x.req, s.x.env, s.x.choice, ServedBy(providers, s))
    && forall k: nat :: s.x.env.chat(k).answer.Ok? ==>
         var r := s.x.env.chat(k).answer.response; r.promptTokens >= 0 && r.completionTokens >= 0
  }

  /** The event on the budget processor's queue, if the request was logged. */
  function Event(providers: seq<Provider>, s: Serving): Option<B.Event> {
    if ServedBy(providers, s).log.Some? && Who(s.g, s.x).Some? then
      Some(B.Event(Who(s.g, s.x).value.id, ServedBy(providers, s).log.value.costCents))
    else None
  }

  // ---------- Which requests cost something

  /** The price list, in ten-thousandths of a cent. */
  function Price(r: ChatResponse): int {
    if r.model == "gpt-4o" then 5 * r.promptTokens + 15 * r.completionTokens
    else if r.model == "claude-3-sonnet" then 3 * r.promptTokens + 15 * r.completionTokens
    else r.promptTokens + 2 * r.completionTokens
  }

  lemma EstimateIsPrice(r: ChatResponse)
    ensures 10_000.0 * EstimateCost(r.model, r.promptTokens, r.completionTokens) == Price(r) as real
  {
  }

  /** Tokens cost something, whatever the model. */
  lemma CostOfTokens(model: string, promptTokens: nat, completionTokens: nat)
    ensures EstimateCost(model, promptTokens, completionTokens) > 0.0 <==> promptTokens > 0 || completionTokens > 0
  {
    CostIsNotNegative(model, promptTokens, completionTokens);
  }

  /** A response comes from the base provider. */
  lemma AnswersAreCounted(providers: seq<Provider>, s: Serving)
    requires Regular(providers, s) && ServedBy(providers, s).status.Answered?
    ensures var r := ServedBy(providers, s).status.response; r.promptTokens >= 0 && r.completionTokens >= 0
    ensures s.x.req.body.Some? && !s.x.req.body.value.stream && Who(s.g, s.x).Some?
    ensures var r := ServedBy(providers, s).status.response;
            var cost := EstimateCost(r.model, r.promptTokens, r.completionTokens);
            ServedBy(providers, s).log == Some(LogEvent(r.promptTokens, r.completionTokens, cost, 200))
  {
    var o := s.x.choice.outcome;
    R.FirstSuccess(s.x.choice.chosen.value.maxRetries, s.x.env.chat, o);
    assert s.x.env.chat(o.attempts - 1).answer == R.Ok(o.reply.response);
  }

  /** What is logged of a request that is not streamed: the tokens of its response, at the prices of the model that
      answered. */
  lemma LogIsResponse(providers: seq<Provider>, s: Serving)
    requires Regular(providers, s) && ServedBy(providers, s).status.Answered?
    ensures var r, log := ServedBy(providers, s).status.response, ServedBy(providers, s).log;
            && log.Some? && log.value.promptTokens == r.promptTokens && log.value.completionTokens == r.completionTokens
            && 10_000.0 * log.value.costCents == Price(r) as real && log.value.status == 200
  {
    AnswersAreCounted(providers, s);
    EstimateIsPrice(ServedBy(providers, s).status.response);
  }

  /** The prices of the tenant's answered requests. */
  function Bill(providers: seq<Provider>, ss: seq<Serving>, id: string): int {
    if ss == [] then 0
    else
      var status := ServedBy(providers, ss[0]).status;
      (if IsFrom(ss[0].g, ss[0].x, id) && status.Answered? then Price(status.response) else 0)
      + Bill(providers, ss[1..], id)
  }

  /** Every logged event is consumed once, by some processor. */
  function ConsumedOnce(providers: seq<Provider>, ss: seq<Serving>, nodes: seq<nat>): seq<P.Act>
    requires |nodes| == |ss|
  {
    if ss == [] then []
    else
      var rest := ConsumedOnce(providers, ss[1..], nodes[1..]);
      var e := Event(providers, ss[0]);
      if e.Some? then [P.Consume(nodes[0], e.value)] + rest else rest
  }

  /** If every event is consumed once, the processors take in just what the tenant's answered requests cost by the
      price list; nothing else is charged. */
  lemma {:induction false} BillIsCharged(providers: seq<Provider>, ss: seq<Serving>, nodes: seq<nat>, id: string)
    requires |nodes| == |ss| && forall s :: s in ss ==> Regular(providers, s)
    ensures 10_000.0 * P.Cost(ConsumedOnce(providers, ss, nodes), id) == Bill(providers, ss, id) as real
    decreases |ss|
  {
    if ss == [] {
    } else {
      var s, rest := ss[0], ConsumedOnce(providers, ss[1..], nodes[1..]);
      assert s in ss && forall t :: t in ss[1..] ==> t in ss;
      BillIsCharged(providers, ss[1..], nodes[1..], id);
      OneIsCharged(providers, s, id);
      if Event(providers, s).Some? {
        var act := P.Consume(nodes[0], Event(providers, s).value);
        assert ([act] + rest)[1..] == rest;
      }
    }
  }

  lemma OneIsCharged(providers: seq<Provider>, s: Serving, id: string)
    requires Regular(providers, s)
    ensures var e, status := Event(providers, s), ServedBy(providers, s).status;
            (if e.Some? && e.value.tenant == id then 10_000.0 * e.value.cost else 0.0)
            == (if IsFrom(s.g, s.x, id) && status.Answered? then Price(status.response) as real else 0.0)
  {
    WhoIsCharged(providers, s);
    if ServedBy(providers, s).status.Answered? {
      LogIsResponse(providers, s);
    }
  }

  /** Which requests are logged, and which of these with a cost: those answered synchronously by a provider, with at
      least one token, and no others. No cost is negative. */
  lemma WhoIsCharged(providers: seq<Provider>, s: Serving)
    requires Regular(providers, s)
    ensures var served := ServedBy(providers, s);
            && (Event(providers, s).Some? <==>
                  served.status.Answered? || (served.status.Streamed? && served.status.session.end.Logged?))
            && (Event(providers, s).Some? ==> Event(providers, s).value.cost >= 0.0)
            && (Event(providers, s).Some? && Event(providers, s).value.cost > 0.0 <==>
                  served.status.Answered?
                  && (served.status.response.promptTokens > 0 || served.status.response.completionTokens > 0))
  {
    LoggedIff(providers, s);
    var served := ServedBy(providers, s);
    if served.status.Answered? {
      AnswersAreCounted(providers, s);
      var r := served.status.response;
      CostOfTokens(r.model, r.promptTokens, r.completionTokens);
      CostIsNotNegative(r.model, r.promptTokens, r.completionTokens);
    } else if served.log.Some? {
      GT.StreamsAreNeverCharged(s.g, providers, s.x);
    }
  }

  lemma LoggedIff(providers: seq<Provider>, s: Serving)
    ensures var served := ServedBy(providers, s);
            && (served.log.Some? <==>
                  served.status.Answered? || (served.status.Streamed? && served.status.session.end.Logged?))
            && (served.log.Some? ==> Who(s.g, s.x).Some?)
            && (served.status.Streamed? ==> s.x.req.body.Some? && s.x.req.body.value.stream)
  {
    if Who(s.g, s.x).Some? {
      var (found, tenant) := LookUpTenant(s.g, s.x.req.keyHash.value, s.x.env);
      if !Exhausted(tenant.value) {
        var (buckets, verdict) := GT.AllowedBuckets(found, tenant.value, s.x.env);
        AdmittedLog(found.(buckets := buckets), providers, tenant.value, s.x.req, s.x.env, s.x.choice);
      }
    }
  }

  lemma AdmittedLog(g: Node, providers: seq<Provider>, tenant: Tenant, req: Request, env: Env, c: Choice)
    ensures var served := Admitted(g, providers, tenant, req, env, c).1;
            && (served.log.Some? <==>
                  served.status.Answered? || (served.status.Streamed? && served.status.session.end.Logged?))
            && (served.status.Streamed? ==> req.body.Some? && req.body.value.stream)
  {
  }

  // ---------- The log as charges

  ghost predicate Logged(providers: seq<Provider>, ss: seq<Serving>, e: B.Event) {
    exists s :: s in ss && Event(providers, s) == Some(e)
  }

  /** What the processors consume has been logged: in whatever order, any number of times, or not at all. */
  ghost predicate FromLog(providers: seq<Provider>, ss: seq<Serving>, acts: seq<P.Act>) {
    && (forall s :: s in ss ==> Regular(providers, s))
    && (forall a :: a in acts && a.Consume? ==> Logged(providers, ss, a.event))
  }

  /** The gateway only ever charges costs that the enforcement theorems allow, whatever it has served, on any nodes:
      what a processor can do is an event that can happen. */
  lemma LogIsChargeable(providers: seq<Provider>, ss: seq<Serving>, acts: seq<P.Act>, delay: nat, w: E.World)
    requires FromLog(providers, ss, acts)
    ensures forall a :: a in acts && P.Enabled(w.ledger, a) ==> E.Enabled(delay, w, E.Charge(a))
    ensures P.NonNegative(w.ledger) ==> P.Charging(w.ledger, acts)
  {
    forall a | a in acts && a.Consume?
      ensures a.event.cost >= 0.0
    {
      var s :| s in ss && Event(providers, s) == Some(a.event);
      WhoIsCharged(providers, s);
    }
  }

  // ---------- Streaming is free

  /** All the tenant's requests are streamed. */
  ghost predicate OnlyStreams(ss: seq<Serving>, id: string) {
    forall s :: s in ss && IsFrom(s.g, s.x, id) && s.x.req.body.Some? ==> s.x.req.body.value.stream
  }

  /** Its events cost nothing. */
  predicate Free(acts: seq<P.Act>, id: string) {
    forall a :: a in acts && a.Consume? && a.event.tenant == id ==> a.event.cost == 0.0
  }

  lemma StreamsAreFree(providers: seq<Provider>, ss: seq<Serving>, acts: seq<P.Act>, id: string)
    requires FromLog(providers, ss, acts) && OnlyStreams(ss, id)
    ensures Free(acts, id)
  {
    forall a | a in acts && a.Consume? && a.event.tenant == id
      ensures a.event.cost == 0.0
    {
      var s :| s in ss && Event(providers, s) == Some(a.event);
      WhoIsCharged(providers, s);
      if ServedBy(providers, s).status.Answered? {
        AnswersAreCounted(providers, s);
      }
    }
  }

  /** No processor holds anything of the tenant's. */
  ghost predicate NothingDue(l: P.State, id: string) {
    forall node :: HoldsNothing(l, node, id)
  }

  predicate HoldsNothing(l: P.State, node: nat, id: string) {
    B.Pending(P.Of(l.pending, node), id) == 0.0 && B.Pending(P.Of(l.updates, node), id) == 0.0
  }

  lemma FreeStep(l: P.State, a: P.Act, id: string)
    requires Free([a], id) && id in l.spent && NothingDue(l, id)
    ensures var l' := P.Apply(l, a); id in l'.spent && l'.spent[id] == l.spent[id] && NothingDue(l', id)
  {
    assert a in [a];
    assert HoldsNothing(l, a.node, id);
    forall node
      ensures HoldsNothing(P.Apply(l, a), node, id)
    {
      assert HoldsNothing(l, node, id);
    }
  }

  lemma {:induction false} FreeStaysEven(l: P.State, acts: seq<P.Act>, id: string)
    requires Free(acts, id) && id in l.spent && NothingDue(l, id)
    ensures id in P.Run(l, acts).spent && P.Run(l, acts).spent[id] == l.spent[id]
    ensures P.Cost(acts, id) == 0.0
    decreases |acts|
  {
    if acts == [] {
    } else {
      assert acts[0] in acts && forall a :: a in acts[1..] ==> a in acts;
      FreeStep(l, acts[0], id);
      FreeStaysEven(P.Apply(l, acts[0]), acts[1..], id);
    }
  }

  /** A tenant that only streams is never charged a cent: whatever any processors consume of the log of everything that
      any nodes have served, and however they flush, the tenant's row stays as it is. */
  lemma StreamersPayNothing(providers: seq<Provider>, ss: seq<Serving>, l: P.State, acts: seq<P.Act>, id: string)
    requires FromLog(providers, ss, acts) && OnlyStreams(ss, id) && id in l.spent && NothingDue(l, id)
    ensures id in P.Run(l, acts).spent && P.Run(l, acts).spent[id] == l.spent[id]
  {
    StreamsAreFree(providers, ss, acts, id);
    FreeStaysEven(l, acts, id);
  }

  /** So its budget never stops it: in every run of the world whose charges come from the log, the gate rejects such a
      tenant only if it was exhausted at the start. */
  lemma StreamersAreNotStopped(providers: seq<Provider>, ss: seq<Serving>, delay: nat, w: E.World, es: seq<E.Event>,
                               e: E.Event, keyHash: string)
    requires E.Initial(w) && E.Legal(delay, w, es + [e]) && E.Row(w, keyHash).Some?
    requires FromLog(providers, ss, E.Charges(es)) && OnlyStreams(ss, w.accounts[keyHash].id)
    requires E.Decision(E.After(w, es), e, keyHash).Some?
    ensures Exhausted(E.Decision(E.After(w, es), e, keyHash).value.tenant)
            ==> 0 < E.Row(w, keyHash).value.budgetCents <= E.Row(w, keyHash).value.spentCents
  {
    var id := w.accounts[keyHash].id;
    StreamsAreFree(providers, ss, E.Charges(es), id);
    FreeStaysEven(w.ledger, E.Charges(es), id);
    if Exhausted(E.Decision(E.After(w, es), e, keyHash).value.tenant) {
      E.NoPremature402(delay, w, es, e, keyHash);
      E.DecisionIsRecent(delay, w, es, e, keyHash);
      E.LegalSplit(delay, w, es, [e]);
      E.InitInv(delay, w);
      E.ReachInv(delay, w, es);
    }
  }
}
