/**
 Several gateway nodes, each with its own limiter, and the Redis their background syncs write to: whether a tenant's
 limit holds of the nodes together.
 */
module Fleet {
  import opened Wrappers
  import opened RateLimit
  import LT = LimiterTheorems

  /** Each node's buckets, and the usage counters in Redis. */
  datatype Nodes = Nodes(buckets: map<nat, map<string, Bucket>>, usage: map<string, nat>)

  datatype Step =
    | Visit(node: nat, tenant: string, call: Call)
    | Sync(node: nat)         // the node's tenants have their counters raised in Redis; the script's result is dropped
    | Expire(tenant: string)  // a counter expires

  const START := Nodes(map[], map[])

  function On(s: Nodes, node: nat): map<string, Bucket> {
    if node in s.buckets then s.buckets[node] else map[]
  }

  function Raised(usage: map<string, nat>, tenants: set<string>): map<string, nat> {
    map t | t in usage.Keys + tenants :: (if t in usage then usage[t] else 0) + if t in tenants then 1 else 0
  }

  function Apply(s: Nodes, step: Step): Nodes {
    match step
    case Visit(node, tenant, call) => s.(buckets := s.buckets[node := AllowIn(On(s, node), tenant, call).0])
    case Sync(node) => s.(usage := Raised(s.usage, On(s, node).Keys))
    case Expire(tenant) => s.(usage := s.usage - {tenant})
  }

  function Run(s: Nodes, steps: seq<Step>): Nodes
    decreases |steps|
  {
    if steps == [] then s else Run(Apply(s, steps[0]), steps[1..])
  }

  predicate Grants(s: Nodes, step: Step, tenant: string) {
    step.Visit? && step.tenant == tenant && AllowIn(On(s, step.node), tenant, step.call).1.allowed
  }

  /** How many of the tenant's calls are admitted, on all nodes together. */
  function Granted(s: Nodes, steps: seq<Step>, tenant: string): nat
    decreases |steps|
  {
    if steps == [] then 0
    else (if Grants(s, steps[0], tenant) then 1 else 0) + Granted(Apply(s, steps[0]), steps[1..], tenant)
  }

  /** The tenant's calls, on all nodes, in their order. */
  function CallsOf(steps: seq<Step>, tenant: string): seq<Call> {
    if steps == [] then []
    else if steps[0].Visit? && steps[0].tenant == tenant then [steps[0].call] + CallsOf(steps[1..], tenant)
    else CallsOf(steps[1..], tenant)
  }

  /** Its calls on one node. */
  function CallsOn(steps: seq<Step>, tenant: string, node: nat): seq<Call> {
    if steps == [] then []
    else if steps[0].Visit? && steps[0].tenant == tenant && steps[0].node == node then
      [steps[0].call] + CallsOn(steps[1..], tenant, node)
    else CallsOn(steps[1..], tenant, node)
  }

  /** The verdicts on its calls on one node. */
  function VerdictsOn(s: Nodes, steps: seq<Step>, tenant: string, node: nat): seq<Verdict>
    decreases |steps|
  {
    if steps == [] then []
    else
      var rest := VerdictsOn(Apply(s, steps[0]), steps[1..], tenant, node);
      if steps[0].Visit? && steps[0].tenant == tenant && steps[0].node == node then
        [AllowIn(On(s, node), tenant, steps[0].call).1] + rest
      else rest
  }

  /** A run of n nodes in which the tenant's limit is fixed and the clock, which the nodes share, does not run
      backwards. */
  predicate Legal(n: nat, steps: seq<Step>, tenant: string, limit: int) {
    && (forall step :: step in steps && step.Visit? ==> step.node < n)
    && LT.Fixed(limit, CallsOf(steps, tenant))
    && LT.Timed(None, CallsOf(steps, tenant))
  }

  // ---------- The counters

  /** How often the tenant has been in the snapshot of a sync. */
  function Synced(s: Nodes, steps: seq<Step>, tenant: string): nat
    decreases |steps|
  {
    if steps == [] then 0
    else (if steps[0].Sync? && Get(On(s, steps[0].node), tenant).Some? then 1 else 0)
         + Synced(Apply(s, steps[0]), steps[1..], tenant)
  }

  /** Until it expires, a tenant's counter in Redis counts the syncs that included it, and not what it has used. */
  lemma {:induction false} CounterCountsSyncs(s: Nodes, steps: seq<Step>, tenant: string)
    requires forall step :: step in steps ==> step != Expire(tenant)
    ensures var before, after := Get(s.usage, tenant), Get(Run(s, steps).usage, tenant);
            (if after.Some? then after.value else 0)
            == (if before.Some? then before.value else 0) + Synced(s, steps, tenant)
    decreases |steps|
  {
    if steps == [] {
    } else {
      assert steps[0] in steps && forall step :: step in steps[1..] ==> step in steps;
      CounterCountsSyncs(Apply(s, steps[0]), steps[1..], tenant);
    }
  }

  // ---------- Each node on its own

  lemma {:induction false} RunSplit(s: Nodes, xs: seq<Step>, ys: seq<Step>, tenant: string)
    ensures Run(s, xs + ys) == Run(Run(s, xs), ys)
    ensures Granted(s, xs + ys, tenant) == Granted(s, xs, tenant) + Granted(Run(s, xs), ys, tenant)
    decreases |xs|
  {
    if xs == [] {
      assert xs + ys == ys;
    } else {
      assert (xs + ys)[1..] == xs[1..] + ys;
      RunSplit(Apply(s, xs[0]), xs[1..], ys, tenant);
    }
  }

  lemma {:induction false} CallsSplit(xs: seq<Step>, ys: seq<Step>, tenant: string, node: nat)
    ensures CallsOf(xs + ys, tenant) == CallsOf(xs, tenant) + CallsOf(ys, tenant)
    ensures CallsOn(xs + ys, tenant, node) == CallsOn(xs, tenant, node) + CallsOn(ys, tenant, node)
    decreases |xs|
  {
    if xs == [] {
      assert xs + ys == ys;
    } else {
      assert (xs + ys)[1..] == xs[1..] + ys;
      CallsSplit(xs[1..], ys, tenant, node);
    }
  }

  /** A node's limiter gives a tenant the verdicts, and leaves it the bucket, that it would for its calls on that node
      alone, whatever the other nodes, the syncs and Redis do. */
  lemma {:induction false} NodesAreIndependent(s: Nodes, steps: seq<Step>, tenant: string, node: nat)
    ensures VerdictsOn(s, steps, tenant, node) == LT.Run(Get(On(s, node), tenant), CallsOn(steps, tenant, node))
    ensures Get(On(Run(s, steps), node), tenant) == LT.After(Get(On(s, node), tenant), CallsOn(steps, tenant, node))
    decreases |steps|
  {
    if steps == [] {
    } else {
      var s' := Apply(s, steps[0]);
      NodesAreIndependent(s', steps[1..], tenant, node);
      var rest := CallsOn(steps[1..], tenant, node);
      if steps[0].Visit? && steps[0].tenant == tenant && steps[0].node == node {
        assert ([steps[0].call] + rest)[1..] == rest;
        assert Get(On(s', node), tenant) == Some(Allow(Get(On(s, node), tenant), steps[0].call).0);
      } else {
        assert Get(On(s', node), tenant) == Get(On(s, node), tenant);
      }
    }
  }

  /** What one node admits of a tenant. */
  function Share(s: Nodes, steps: seq<Step>, tenant: string, node: nat): nat {
    LT.Admitted(LT.Run(Get(On(s, node), tenant), CallsOn(steps, tenant, node)))
  }

  /** What the first n nodes admit of a tenant. */
  function Sum(s: Nodes, steps: seq<Step>, tenant: string, n: nat): nat {
    if n == 0 then 0
    else Sum(s, steps, tenant, n - 1) + Share(s, steps, tenant, n - 1)
  }

  /** One step changes the share of one node, by what it admits. */
  lemma ShareStep(s: Nodes, steps: seq<Step>, tenant: string, node: nat)
    requires steps != []
    ensures Share(s, steps, tenant, node)
            == (if steps[0].Visit? && steps[0].node == node && Grants(s, steps[0], tenant) then 1 else 0)
               + Share(Apply(s, steps[0]), steps[1..], tenant, node)
  {
    var s', rest := Apply(s, steps[0]), CallsOn(steps[1..], tenant, node);
    if steps[0].Visit? && steps[0].tenant == tenant && steps[0].node == node {
      LT.FirstCall(Get(On(s, node), tenant), steps[0].call, rest);
      assert Get(On(s', node), tenant) == Some(Allow(Get(On(s, node), tenant), steps[0].call).0);
    } else {
      assert Get(On(s', node), tenant) == Get(On(s, node), tenant);
    }
  }

  lemma {:induction false} SumStep(s: Nodes, steps: seq<Step>, tenant: string, n: nat)
    requires steps != []
    ensures Sum(s, steps, tenant, n)
            == (if steps[0].Visit? && steps[0].node < n && Grants(s, steps[0], tenant) then 1 else 0)
               + Sum(Apply(s, steps[0]), steps[1..], tenant, n)
  {
    if n == 0 {
    } else {
      SumStep(s, steps, tenant, n - 1);
      ShareStep(s, steps, tenant, n - 1);
    }
  }

  lemma {:induction false} SumOfNone(s: Nodes, tenant: string, n: nat)
    ensures Sum(s, [], tenant, n) == 0
  {
    if n == 0 {
    } else {
      SumOfNone(s, tenant, n - 1);
    }
  }

  /** What n nodes admit together is what each would admit of its own calls. */
  lemma {:induction false} GrantedIsSum(s: Nodes, steps: seq<Step>, tenant: string, n: nat)
    requires forall step :: step in steps && step.Visit? ==> step.node < n
    ensures Granted(s, steps, tenant) == Sum(s, steps, tenant, n)
    decreases |steps|
  {
    if steps == [] {
      SumOfNone(s, tenant, n);
    } else {
      assert steps[0] in steps;
      SumStep(s, steps, tenant, n);
      GrantedIsSum(Apply(s, steps[0]), steps[1..], tenant, n);
    }
  }

  // ---------- The bound for n nodes

  /** What a limit allows in a window that is `time` nanoseconds long. */
  function Window(limit: int, time: int): int {
    limit * TOKEN + limit * time
  }

  function Span(calls: seq<Call>): int
    requires calls != []
  {
    calls[|calls| - 1].now - calls[0].now
  }

  /** A node's calls are some of all the calls: as well timed, and within their span. */
  predicate IsPart(part: seq<Call>, all: seq<Call>, t: int, limit: int) {
    && LT.Fixed(limit, part) && LT.Ordered(t, part)
    && (part != [] ==> all != [] && all[0].now <= part[0].now && part[|part| - 1].now <= all[|all| - 1].now)
  }

  lemma {:induction false} PartIsTimed(t: int, steps: seq<Step>, tenant: string, node: nat, limit: int)
    requires LT.Fixed(limit, CallsOf(steps, tenant)) && LT.Ordered(t, CallsOf(steps, tenant))
    ensures IsPart(CallsOn(steps, tenant, node), CallsOf(steps, tenant), t, limit)
    decreases |steps|
  {
    if steps == [] {
    } else if steps[0].Visit? && steps[0].tenant == tenant {
      var c, all, part := steps[0].call, CallsOf(steps[1..], tenant), CallsOn(steps[1..], tenant, node);
      assert CallsOf(steps, tenant) == [c] + all;
      OneOn(t, c, all, limit);
      PartIsTimed(c.now, steps[1..], tenant, node, limit);
      if steps[0].node == node {
        PartWith(t, c, part, all, limit);
      } else {
        PartWithout(t, c, part, all, limit);
      }
    } else {
      PartIsTimed(t, steps[1..], tenant, node, limit);
    }
  }

  lemma OneOn(t: int, c: Call, rest: seq<Call>, limit: int)
    requires LT.Fixed(limit, [c] + rest) && LT.Ordered(t, [c] + rest)
    ensures LT.Fixed(limit, rest) && LT.Ordered(c.now, rest) && c.limit == limit && t <= c.start <= c.now
  {
    assert ([c] + rest)[1..] == rest && c in [c] + rest;
    assert forall d :: d in rest ==> d in [c] + rest;
  }

  lemma PartWith(t: int, c: Call, part: seq<Call>, all: seq<Call>, limit: int)
    requires t <= c.start <= c.now && c.limit == limit && LT.Ordered(c.now, all) && IsPart(part, all, c.now, limit)
    ensures IsPart([c] + part, [c] + all, t, limit)
  {
    assert ([c] + part)[1..] == part;
    if all != [] {
      EndsLater(c.now, all);
    }
  }

  lemma PartWithout(t: int, c: Call, part: seq<Call>, all: seq<Call>, limit: int)
    requires t <= c.start <= c.now && LT.Ordered(c.now, all) && IsPart(part, all, c.now, limit)
    ensures IsPart(part, [c] + all, t, limit)
  {
    LT.OrderedLater(t, c.now, part);
    if all != [] {
      EndsLater(c.now, all);
    }
  }

  lemma {:induction false} EndsLater(t: int, calls: seq<Call>)
    requires LT.Ordered(t, calls) && calls != []
    ensures t <= calls[0].now <= calls[|calls| - 1].now
    decreases |calls|
  {
    if |calls| == 1 {
    } else {
      EndsLater(calls[0].now, calls[1..]);
    }
  }

  /** A node's bucket at the start of a window, and its calls in there. */
  lemma NodeTrace(before: seq<Step>, window: seq<Step>, tenant: string, node: nat, limit: int)
    returns (b: Option<Bucket>)
    requires LT.Fixed(limit, CallsOf(before + window, tenant)) && LT.Timed(None, CallsOf(before + window, tenant))
    requires CallsOf(window, tenant) != []
    ensures b == Get(On(Run(START, before), node), tenant)
    ensures LT.Timed(b, CallsOn(window, tenant, node))
  {
    var xs, ys := CallsOn(before, tenant, node), CallsOn(window, tenant, node);
    CallsSplit(before, window, tenant, node);
    var t := CallsOf(before + window, tenant)[0].start;
    PartIsTimed(t, before + window, tenant, node, limit);
    NodesAreIndependent(START, before, tenant, node);
    b := LT.After(None, xs);
    LT.OrderedSplit(None, xs, ys);
  }

  /** No node admits more in the window than the limit allows there. */
  lemma NodeBound(before: seq<Step>, window: seq<Step>, tenant: string, node: nat, limit: int)
    requires limit >= 1
    requires LT.Fixed(limit, CallsOf(before + window, tenant)) && LT.Timed(None, CallsOf(before + window, tenant))
    requires CallsOf(window, tenant) != []
    ensures TOKEN * Share(Run(START, before), window, tenant, node)
            <= Window(limit, Span(CallsOf(window, tenant)))
  {
    var part, all := CallsOn(window, tenant, node), CallsOf(window, tenant);
    CallsSplit(before, window, tenant, node);
    WindowIsTimed(CallsOf(before + window, tenant)[0].start, before, window, tenant, limit);
    PartIsTimed(all[0].start, window, tenant, node, limit);
    EndsLater(all[0].start, all);
    var b := NodeTrace(before, window, tenant, node, limit);
    ShareBound(b, part, Span(all), limit);
  }

  lemma ShareBound(b: Option<Bucket>, part: seq<Call>, time: int, limit: int)
    requires limit >= 1 && time >= 0 && LT.Fixed(limit, part) && LT.Timed(b, part)
    requires part != [] ==> Span(part) <= time
    ensures TOKEN * LT.Admitted(LT.Run(b, part)) <= Window(limit, time)
  {
    if part == [] {
      LT.Earns(limit, 0, time);
    } else {
      LT.TraceBound(b, part, limit);
      MoreTime(limit, Span(part), time);
    }
  }

  lemma MoreTime(limit: int, short: int, long: int)
    requires limit >= 0 && short <= long
    ensures Window(limit, short) <= Window(limit, long)
  {
    LT.Earns(limit, short, long);
    assert limit * (long - short) == limit * long - limit * short;
  }

  lemma {:induction false} WindowIsTimed(t: int, before: seq<Step>, window: seq<Step>, tenant: string, limit: int)
    requires LT.Fixed(limit, CallsOf(before + window, tenant)) && LT.Ordered(t, CallsOf(before + window, tenant))
    requires CallsOf(window, tenant) != []
    ensures LT.Fixed(limit, CallsOf(window, tenant))
    ensures LT.Ordered(CallsOf(window, tenant)[0].start, CallsOf(window, tenant))
    decreases |before|
  {
    if before == [] {
      assert before + window == window;
    } else {
      assert (before + window)[1..] == before[1..] + window;
      var all, rest := CallsOf(before + window, tenant), CallsOf(before[1..] + window, tenant);
      if before[0].Visit? && before[0].tenant == tenant {
        assert all == [before[0].call] + rest && all[1..] == rest;
        assert forall c :: c in rest ==> c in all;
        WindowIsTimed(before[0].call.now, before[1..], window, tenant, limit);
      } else {
        WindowIsTimed(t, before[1..], window, tenant, limit);
      }
    }
  }

  lemma {:induction false} SumBound(before: seq<Step>, window: seq<Step>, tenant: string, n: nat, limit: int)
    requires limit >= 1
    requires LT.Fixed(limit, CallsOf(before + window, tenant)) && LT.Timed(None, CallsOf(before + window, tenant))
    requires CallsOf(window, tenant) != []
    ensures TOKEN * Sum(Run(START, before), window, tenant, n) <= n * Window(limit, Span(CallsOf(window, tenant)))
  {
    if n == 0 {
    } else {
      SumBound(before, window, tenant, n - 1, limit);
      NodeBound(before, window, tenant, n - 1, limit);
      OneMore(n, Window(limit, Span(CallsOf(window, tenant))));
    }
  }

  lemma OneMore(n: int, x: int)
    ensures n * x == (n - 1) * x + x
  {
  }

  /** On n nodes a tenant is admitted at most n times what its limit allows: in any window of any run, however the
      nodes sync. */
  lemma NFoldBound(n: nat, before: seq<Step>, window: seq<Step>, tenant: string, limit: int)
    requires limit >= 1 && Legal(n, before + window, tenant, limit) && CallsOf(window, tenant) != []
    ensures TOKEN * Granted(Run(START, before), window, tenant) <= n * Window(limit, Span(CallsOf(window, tenant)))
  {
    forall step | step in window && step.Visit?
      ensures step.node < n
    {
      assert step in before + window;
    }
    GrantedIsSum(Run(START, before), window, tenant, n);
    SumBound(before, window, tenant, n, limit);
  }

  // ---------- The bound is attained

  /** k calls, one after the other, on one node. */
  function Calls(node: nat, tenant: string, c: Call, k: nat): seq<Step> {
    if k == 0 then [] else [Visit(node, tenant, c)] + Calls(node, tenant, c, k - 1)
  }

  /** On each of the first n nodes, k calls. */
  function Burst(n: nat, tenant: string, c: Call, k: nat): seq<Step> {
    if n == 0 then [] else Burst(n - 1, tenant, c, k) + Calls(n - 1, tenant, c, k)
  }

  function At(limit: int, minute: nat): Call {
    Call(limit, minute * MINUTE, minute * MINUTE)
  }

  /** At each of the minutes 1 to m + 1, as many calls on each node as its limit has tokens. */
  function Bursts(n: nat, tenant: string, limit: nat, m: nat): seq<Step> {
    (if m == 0 then [] else Bursts(n, tenant, limit, m - 1)) + Burst(n, tenant, At(limit, m + 1), limit)
  }

  function Times(k: nat, x: nat): nat {
    if k == 0 then 0 else Times(k - 1, x) + x
  }

  lemma {:induction false} TimesIsProduct(k: nat, x: nat)
    ensures Times(k, x) == k * x
  {
    if k == 0 {
    } else {
      TimesIsProduct(k - 1, x);
    }
  }

  /** At this time the tenant's bucket on the node will hold k tokens. */
  predicate Holds(s: Nodes, tenant: string, node: nat, limit: int, now: int, k: nat) {
    tenant in On(s, node) && Refill(On(s, node)[tenant], limit, now) == Bucket(k * TOKEN, now)
  }

  lemma RefilledTwice(limit: int, now: int, tokens: int)
    requires 0 <= tokens <= limit * TOKEN
    ensures Refill(Bucket(tokens, now), limit, now) == Bucket(tokens, now)
  {
    assert limit * (now - now) == 0;
  }

  lemma {:induction false} CallsTakeAll(s: Nodes, tenant: string, node: nat, limit: nat, now: int, k: nat)
    requires k <= limit && Holds(s, tenant, node, limit, now, k)
    ensures var steps := Calls(node, tenant, Call(limit, now, now), k); var s' := Run(s, steps);
            && Granted(s, steps, tenant) == k && Holds(s', tenant, node, limit, now, 0)
            && forall other: nat :: other != node ==> On(s', other) == On(s, other)
    decreases k
  {
    var c := Call(limit, now, now);
    var steps := Calls(node, tenant, c, k);
    if k == 0 {
    } else {
      var s' := Apply(s, steps[0]);
      assert steps[1..] == Calls(node, tenant, c, k - 1);
      assert Allow(Some(On(s, node)[tenant]), c) == Spend(Bucket(k * TOKEN, now), limit);
      assert On(s', node)[tenant] == Bucket((k - 1) * TOKEN, now);
      RefilledTwice(limit, now, (k - 1) * TOKEN);
      CallsTakeAll(s', tenant, node, limit, now, k - 1);
    }
  }

  /** On the first n nodes the tenant's bucket will hold k tokens. */
  predicate AllHold(s: Nodes, tenant: string, n: nat, limit: int, now: int, k: nat) {
    forall node: nat :: node < n ==> Holds(s, tenant, node, limit, now, k)
  }

  lemma {:induction false} BurstTakesAll(s: Nodes, tenant: string, n: nat, limit: nat, now: int)
    requires AllHold(s, tenant, n, limit, now, limit)
    ensures var steps := Burst(n, tenant, Call(limit, now, now), limit); var s' := Run(s, steps);
            && Granted(s, steps, tenant) == Times(n, limit) && AllHold(s', tenant, n, limit, now, 0)
            && forall other: nat :: other >= n ==> On(s', other) == On(s, other)
  {
    if n == 0 {
    } else {
      var c := Call(limit, now, now);
      var before, last := Burst(n - 1, tenant, c, limit), Calls(n - 1, tenant, c, limit);
      BurstTakesAll(s, tenant, n - 1, limit, now);
      var s1 := Run(s, before);
      assert Holds(s, tenant, n - 1, limit, now, limit) && On(s1, n - 1) == On(s, n - 1);
      CallsTakeAll(s1, tenant, n - 1, limit, now, limit);
      RunSplit(s, before, last, tenant);
      forall node: nat | node < n - 1
        ensures Holds(Run(s1, last), tenant, node, limit, now, 0)
      {
        assert Holds(s1, tenant, node, limit, now, 0);
      }
    }
  }

  /** In a minute an empty bucket is full again. */
  lemma RefillsInAMinute(s: Nodes, tenant: string, n: nat, limit: nat, minute: nat)
    requires AllHold(s, tenant, n, limit, minute * MINUTE, 0)
    ensures AllHold(s, tenant, n, limit, (minute + 1) * MINUTE, limit)
  {
    var now := (minute + 1) * MINUTE;
    forall node: nat | node < n
      ensures Holds(s, tenant, node, limit, now, limit)
    {
      assert Holds(s, tenant, node, limit, minute * MINUTE, 0);
      FullAMinuteAfter(On(s, node)[tenant], limit, minute * MINUTE);
    }
  }

  /** A bucket that is empty at some time is full a minute later. */
  lemma FullAMinuteAfter(b: Bucket, limit: nat, now: int)
    requires Refill(b, limit, now) == Bucket(0, now)
    ensures Refill(b, limit, now + MINUTE) == Bucket(limit * TOKEN, now + MINUTE)
  {
    assert limit * (now + MINUTE - b.last) == limit * (now - b.last) + limit * MINUTE;
    if limit == 0 {
    } else {
      assert limit * TOKEN > 0;
    }
  }

  /** One more minute, one more burst. */
  lemma NextBurst(s: Nodes, tenant: string, n: nat, limit: nat, minute: nat, granted: nat, before: seq<Step>)
    requires Granted(s, before, tenant) == granted
    requires AllHold(Run(s, before), tenant, n, limit, minute * MINUTE, 0)
    ensures var steps := before + Burst(n, tenant, At(limit, minute + 1), limit);
            && Granted(s, steps, tenant) == granted + Times(n, limit)
            && AllHold(Run(s, steps), tenant, n, limit, (minute + 1) * MINUTE, 0)
  {
    RefillsInAMinute(Run(s, before), tenant, n, limit, minute);
    BurstTakesAll(Run(s, before), tenant, n, limit, (minute + 1) * MINUTE);
    RunSplit(s, before, Burst(n, tenant, At(limit, minute + 1), limit), tenant);
  }

  lemma {:induction false} BurstsTakeAll(s: Nodes, tenant: string, n: nat, limit: nat, m: nat)
    requires AllHold(s, tenant, n, limit, MINUTE, limit)
    ensures var steps := Bursts(n, tenant, limit, m);
            && Granted(s, steps, tenant) == Times(m + 1, Times(n, limit))
            && AllHold(Run(s, steps), tenant, n, limit, (m + 1) * MINUTE, 0)
    decreases m
  {
    if m == 0 {
      assert Bursts(n, tenant, limit, 0) == Burst(n, tenant, At(limit, 1), limit);
      BurstTakesAll(s, tenant, n, limit, MINUTE);
      assert Times(1, Times(n, limit)) == Times(n, limit);
    } else {
      BurstsTakeAll(s, tenant, n, limit, m - 1);
      NextBurst(s, tenant, n, limit, m, Times(m, Times(n, limit)), Bursts(n, tenant, limit, m - 1));
    }
  }

  /** All the tenant's calls are this one. */
  predicate Only(steps: seq<Step>, tenant: string, n: nat, c: Call) {
    && (forall step :: step in steps ==> step.Visit? && step.node < n)
    && (forall d :: d in CallsOf(steps, tenant) ==> d == c)
  }

  lemma {:induction false} CallsAreOnly(node: nat, tenant: string, c: Call, k: nat, n: nat)
    requires node < n
    ensures Only(Calls(node, tenant, c, k), tenant, n, c) && |CallsOf(Calls(node, tenant, c, k), tenant)| == k
  {
    if k == 0 {
    } else {
      CallsAreOnly(node, tenant, c, k - 1, n);
      assert Calls(node, tenant, c, k)[1..] == Calls(node, tenant, c, k - 1);
    }
  }

  lemma {:induction false} BurstIsOnly(n: nat, tenant: string, c: Call, k: nat)
    ensures Only(Burst(n, tenant, c, k), tenant, n, c)
    ensures n > 0 ==> |CallsOf(Burst(n, tenant, c, k), tenant)| >= k
  {
    if n == 0 {
      assert CallsOf([], tenant) == [];
    } else {
      var before, last := Burst(n - 1, tenant, c, k), Calls(n - 1, tenant, c, k);
      assert Burst(n, tenant, c, k) == before + last;
      assert Only(before, tenant, n - 1, c) by {
        BurstIsOnly(n - 1, tenant, c, k);
      }
      assert Only(last, tenant, n, c) && |CallsOf(last, tenant)| == k by {
        CallsAreOnly(n - 1, tenant, c, k, n);
      }
      OnlyJoins(before, last, tenant, n - 1, n, c);
    }
  }

  lemma OnlyJoins(xs: seq<Step>, ys: seq<Step>, tenant: string, m: nat, n: nat, c: Call)
    requires m <= n && Only(xs, tenant, m, c) && Only(ys, tenant, n, c)
    ensures Only(xs + ys, tenant, n, c) && |CallsOf(xs + ys, tenant)| >= |CallsOf(ys, tenant)|
  {
    CallsSplit(xs, ys, tenant, 0);
  }

  /** The shape of a run of bursts, up to this minute. */
  predicate IsTimed(steps: seq<Step>, tenant: string, n: nat, limit: nat, last: nat) {
    var calls := CallsOf(steps, tenant);
    && (forall step :: step in steps ==> step.Visit? && step.node < n)
    && calls != [] && calls[0] == At(limit, 1) && calls[|calls| - 1] == At(limit, last)
    && LT.Fixed(limit, calls) && LT.Ordered(MINUTE, calls)
  }

  lemma {:induction false} BurstsAreTimed(n: nat, tenant: string, limit: nat, m: nat)
    requires n > 0 && limit > 0
    ensures IsTimed(Bursts(n, tenant, limit, m), tenant, n, limit, m + 1)
    decreases m
  {
    var c := At(limit, m + 1);
    BurstIsOnly(n, tenant, c, limit);
    if m == 0 {
      assert Bursts(n, tenant, limit, 0) == Burst(n, tenant, c, limit);
      LT.SameTimeIsOrdered(MINUTE, CallsOf(Burst(n, tenant, c, limit), tenant), c);
    } else {
      BurstsAreTimed(n, tenant, limit, m - 1);
      BurstJoins(Bursts(n, tenant, limit, m - 1), Burst(n, tenant, c, limit), tenant, n, limit, m);
    }
  }

  lemma BurstJoins(before: seq<Step>, burst: seq<Step>, tenant: string, n: nat, limit: nat, minute: nat)
    requires IsTimed(before, tenant, n, limit, minute)
    requires Only(burst, tenant, n, At(limit, minute + 1)) && CallsOf(burst, tenant) != []
    ensures IsTimed(before + burst, tenant, n, limit, minute + 1)
  {
    var xs, ys := CallsOf(before, tenant), CallsOf(burst, tenant);
    CallsSplit(before, burst, tenant, 0);
    LT.SameTimeIsOrdered(xs[|xs| - 1].now, ys, At(limit, minute + 1));
    LT.OrderedJoin(MINUTE, xs, ys);
  }

  /** One call on each node creates the buckets, which are full a minute later. */
  lemma {:induction false} Created(n: nat, tenant: string, limit: nat)
    requires limit > 0
    ensures var s := Run(START, Burst(n, tenant, At(limit, 0), 1));
            AllHold(s, tenant, n, limit, MINUTE, limit) && forall other: nat :: other >= n ==> On(s, other) == map[]
  {
    var c := At(limit, 0);
    if n == 0 {
    } else {
      var before, last := Burst(n - 1, tenant, c, 1), Calls(n - 1, tenant, c, 1);
      Created(n - 1, tenant, limit);
      var s := Run(START, before);
      RunSplit(START, before, last, tenant);
      assert Calls(n - 1, tenant, c, 0) == [];
      assert last == [Visit(n - 1, tenant, c)] && last[1..] == [];
      var b := Allow(None, c).0;
      FirstMinute(limit);
      var s' := Apply(s, Visit(n - 1, tenant, c));
      assert Run(s, last) == s' && On(s, n - 1) == map[];
      assert On(s', n - 1)[tenant] == b;
      forall node: nat | node < n
        ensures Holds(s', tenant, node, limit, MINUTE, limit)
      {
        if node < n - 1 {
          assert Holds(s, tenant, node, limit, MINUTE, limit);
        }
      }
      forall other: nat | other >= n
        ensures On(s', other) == map[]
      {
        assert On(s, other) == map[];
      }
    }
  }

  lemma FirstMinute(limit: nat)
    requires limit > 0
    ensures Refill(Allow(None, At(limit, 0)).0, limit, MINUTE) == Bucket(limit * TOKEN, MINUTE)
  {
    assert limit * TOKEN >= TOKEN;
    assert limit * (MINUTE - 0) == limit * TOKEN;
  }

  /** The bound for n nodes is attained, for every limit and every whole number of minutes. */
  lemma NFoldIsAttained(n: nat, tenant: string, limit: nat, m: nat)
    returns (before: seq<Step>, window: seq<Step>)
    requires n >= 1 && limit >= 1
    ensures Legal(n, before + window, tenant, limit)
    ensures CallsOf(window, tenant) != [] && Span(CallsOf(window, tenant)) == m * MINUTE
    ensures TOKEN * Granted(Run(START, before), window, tenant) == n * Window(limit, m * MINUTE)
  {
    before, window := Burst(n, tenant, At(limit, 0), 1), Bursts(n, tenant, limit, m);
    BurstIsOnly(n, tenant, At(limit, 0), 1);
    BurstsAreTimed(n, tenant, limit, m);
    AfterCreation(n, before, window, tenant, limit, m + 1);
    Created(n, tenant, limit);
    BurstsTakeAll(Run(START, before), tenant, n, limit, m);
    Products(n, limit, m);
  }

  lemma AfterCreation(n: nat, before: seq<Step>, window: seq<Step>, tenant: string, limit: nat, last: nat)
    requires Only(before, tenant, n, At(limit, 0)) && IsTimed(window, tenant, n, limit, last)
    ensures Legal(n, before + window, tenant, limit)
  {
    var xs, ys := CallsOf(before, tenant), CallsOf(window, tenant);
    LT.SameTimeIsOrdered(0, xs, At(limit, 0));
    CallsSplit(before, window, tenant, 0);
    LT.OrderedLater(0, MINUTE, ys);
    LT.OrderedJoin(0, xs, ys);
    OrderedIsTimed(0, xs + ys);
  }

  lemma OrderedIsTimed(t: int, calls: seq<Call>)
    requires LT.Ordered(t, calls)
    ensures LT.Timed(None, calls)
  {
  }

  lemma Products(n: nat, limit: nat, m: nat)
    ensures TOKEN * Times(m + 1, Times(n, limit)) == n * Window(limit, m * MINUTE)
  {
    TimesIsProduct(n, limit);
    TimesIsProduct(m + 1, n * limit);
    assert Window(limit, m * MINUTE) == (m + 1) * limit * TOKEN;
    assert n * ((m + 1) * limit * TOKEN) == (m + 1) * (n * limit) * TOKEN;
  }

  // ---------- When the limit is global

  /** In every window of every run on n nodes, they admit together no more than the tenant's limit allows. */
  ghost predicate LimitIsGlobal(n: nat, tenant: string, limit: int) {
    forall before, window ::
      Legal(n, before + window, tenant, limit) && CallsOf(window, tenant) != []
      ==> TOKEN * Granted(Run(START, before), window, tenant) <= Window(limit, Span(CallsOf(window, tenant)))
  }

  /** The syncs do not make a limit global: it is one exactly for a gateway of a single node. */
  lemma LimitIsGlobalIff(n: nat, tenant: string, limit: int)
    requires limit >= 1
    ensures LimitIsGlobal(n, tenant, limit) <==> n <= 1
  {
    if n <= 1 {
      forall before, window | Legal(n, before + window, tenant, limit) && CallsOf(window, tenant) != []
        ensures TOKEN * Granted(Run(START, before), window, tenant) <= Window(limit, Span(CallsOf(window, tenant)))
      {
        NFoldBound(n, before, window, tenant, limit);
        if n == 0 {
          NoVisits(before + window, tenant);
          CallsSplit(before, window, tenant, 0);
        }
      }
    } else {
      var before, window := NFoldIsAttained(n, tenant, limit, 0);
      assert Window(limit, 0) == limit * TOKEN;
      Multiple(n, limit * TOKEN);
      assert TOKEN * Granted(Run(START, before), window, tenant) > Window(limit, Span(CallsOf(window, tenant)));
    }
  }

  lemma Multiple(n: int, x: int)
    requires n >= 2 && x >= 1
    ensures n * x > x
  {
  }

  lemma {:induction false} NoVisits(steps: seq<Step>, tenant: string)
    requires forall step :: step in steps ==> !step.Visit?
    ensures CallsOf(steps, tenant) == []
  {
    if steps == [] {
    } else {
      assert steps[0] in steps;
      NoVisits(steps[1..], tenant);
    }
  }

  /** With a limit of one call a minute, two nodes admit two calls of a tenant at one instant, with a sync of both
      nodes in between. */
  lemma TwoNodes() returns (steps: seq<Step>)
    ensures steps == [Visit(0, "t", Call(1, 0, 0)), Sync(0), Sync(1), Visit(1, "t", Call(1, 0, 0))]
    ensures Legal(2, steps, "t", 1) && Granted(START, steps, "t") == 2
    ensures Window(1, Span(CallsOf(steps, "t"))) == TOKEN
  {
    var c := Call(1, 0, 0);
    steps := [Visit(0, "t", c), Sync(0), Sync(1), Visit(1, "t", c)];
    assert steps[1..] == [Sync(0), Sync(1), Visit(1, "t", c)];
    assert [Sync(0), Sync(1), Visit(1, "t", c)][1..] == [Sync(1), Visit(1, "t", c)];
    assert [Sync(1), Visit(1, "t", c)][1..] == [Visit(1, "t", c)] && [Visit(1, "t", c)][1..] == [];
    assert CallsOf([Visit(1, "t", c)], "t") == [c];
    assert CallsOf([Sync(0), Sync(1), Visit(1, "t", c)], "t") == CallsOf([Sync(1), Visit(1, "t", c)], "t") == [c];
    assert CallsOf(steps, "t") == [c, c] && [c, c][1..] == [c] && [c][1..] == [];
    var s1 := Apply(START, steps[0]);
    var s2 := Apply(Apply(s1, Sync(0)), Sync(1));
    assert LT.Ordered(0, [c, c]) && LT.Fixed(1, [c, c]);
    assert Granted(s2, [Visit(1, "t", c)], "t") == 1;
    assert Granted(Apply(s1, Sync(0)), [Sync(1), Visit(1, "t", c)], "t") == 1;
    assert Granted(s1, [Sync(0), Sync(1), Visit(1, "t", c)], "t") == 1;
  }
}
