/**
 Several gateway nodes over one Redis: how long after its time a cached value can still be returned, and when an
 overwrite has taken over.

 The operations are those of TwoTierCache, taken apart: a Get looks into the node's memory, asks Redis, and backfills;
 a Set writes to memory and then to Redis. Operations of any nodes come in between. At most `delay` nanoseconds pass
 between the answer of Redis and the backfill, and between the two writes of a Set.
 */
module Staleness {
  import opened Wrappers
  import opened TwoTierCache

  /** A value, with its write: the time, the time-to-live, and how many writes came before. */
  datatype Stamped<+V> = Stamped(body: V, setAt: int, ttl: nat, id: nat)

  /** A Get under way: it has missed in memory, or Redis has answered. */
  datatype Getting<+V> = Missed(node: nat, key: string) | Found(node: nat, key: string, value: Stamped<V>, at: int)

  /** A Set under way: it has written to memory. */
  datatype Setting<+V> = Setting(key: string, value: Stamped<V>)

  datatype Nodes<+V> = Nodes(
    now: int,
    l1: map<nat, Tier<Stamped<V>>>,
    l2: Tier<Stamped<V>>,
    writes: nat,
    gets: map<nat, Getting<V>>,
    sets: map<nat, Setting<V>>)   // by the number of the write

  datatype Step<+V> =
    | Wait(time: nat)
    | Look(get: nat, node: nat, key: string)
    | Ask(get: nat, up: bool)
    | Backfill(get: nat, kept: bool)
    | Write(node: nat, key: string, body: V, ttl: nat, kept: bool)
    | Publish(id: nat, up: bool)
    | Lose(node: nat, key: string)   // the in-memory tier of a node loses an entry
    | Evict(key: string)             // Redis loses an entry

  function L1<V>(s: Nodes<V>, node: nat): Tier<Stamped<V>> {
    if node in s.l1 then s.l1[node] else map[]
  }

  function Stamp<V>(s: Nodes<V>, body: V, ttl: nat): Stamped<V> {
    Stamped(body, s.now, ttl, s.writes)
  }

  /** The Get can still backfill this value. */
  predicate CanBackfill<V>(delay: nat, s: Nodes<V>, get: nat) {
    get in s.gets && s.gets[get].Found? && s.now <= s.gets[get].at + delay
  }

  /** The Set can still reach Redis. */
  predicate CanPublish<V>(delay: nat, s: Nodes<V>, id: nat) {
    id in s.sets && s.now <= s.sets[id].value.setAt + delay
  }

  predicate Enabled<V>(delay: nat, s: Nodes<V>, step: Step<V>) {
    match step
    case Look(get, _, _) => get !in s.gets
    case Ask(get, _) => get in s.gets && s.gets[get].Missed?
    case Backfill(get, _) => CanBackfill(delay, s, get)
    case Publish(id, _) => CanPublish(delay, s, id)
    case _ => true
  }

  function Apply<V>(s: Nodes<V>, step: Step<V>): Nodes<V> {
    match step
    case Wait(time) => s.(now := s.now + time)
    case Look(get, node, key) =>
      if Lookup(L1(s, node), key, s.now).Some? then s else s.(gets := s.gets[get := Missed(node, key)])
    case Ask(get, up) =>
      if get !in s.gets then s
      else
        var g := s.gets[get];
        var answer := Lookup(s.l2, g.key, s.now);
        if up && answer.Some? then s.(gets := s.gets[get := Found(g.node, g.key, answer.value, s.now)])
        else s.(gets := s.gets - {get})
    case Backfill(get, kept) =>
      if get !in s.gets || s.gets[get].Missed? then s
      else
        var g := s.gets[get];
        var e := Entry(g.value, Expiry(s.now, BACKFILL));
        s.(l1 := s.l1[g.node := WriteL1(L1(s, g.node), g.key, e, kept)], gets := s.gets - {get})
    case Write(node, key, body, ttl, kept) =>
      var v := Stamp(s, body, ttl);
      s.(l1 := s.l1[node := WriteL1(L1(s, node), key, Entry(v, Expiry(s.now, ttl)), kept)],
         sets := s.sets[s.writes := Setting(key, v)], writes := s.writes + 1)
    case Publish(id, up) =>
      if id !in s.sets then s
      else
        var v := s.sets[id].value;
        s.(l2 := SetL2(s.l2, s.sets[id].key, Entry(v, Expiry(s.now, v.ttl)), up), sets := s.sets - {id})
    case Lose(node, key) => s.(l1 := s.l1[node := L1(s, node) - {key}])
    case Evict(key) => s.(l2 := s.l2 - {key})
  }

  /** What a Get on this node for this key returns in this step: at once, or when it has backfilled. */
  function Returned<V>(s: Nodes<V>, step: Step<V>, node: nat, key: string): Option<Stamped<V>> {
    match step
    case Look(_, n, k) => if n == node && k == key then Lookup(L1(s, node), key, s.now) else None
    case Backfill(get, _) =>
      if get in s.gets && s.gets[get].Found? && s.gets[get].node == node && s.gets[get].key == key then
        Some(s.gets[get].value)
      else None
    case _ => None
  }

  predicate Legal<V>(delay: nat, s: Nodes<V>, steps: seq<Step<V>>)
    decreases |steps|
  {
    steps == [] || (Enabled(delay, s, steps[0]) && Legal(delay, Apply(s, steps[0]), steps[1..]))
  }

  function Run<V>(s: Nodes<V>, steps: seq<Step<V>>): Nodes<V>
    decreases |steps|
  {
    if steps == [] then s else Run(Apply(s, steps[0]), steps[1..])
  }

  function Start<V>(now: int): Nodes<V> {
    Nodes(now, map[], map[], 0, map[], map[])
  }

  lemma {:induction false} RunSplit<V>(delay: nat, s: Nodes<V>, xs: seq<Step<V>>, ys: seq<Step<V>>)
    ensures Run(s, xs + ys) == Run(Run(s, xs), ys)
    ensures Legal(delay, s, xs + ys) <==> Legal(delay, s, xs) && Legal(delay, Run(s, xs), ys)
    decreases |xs|
  {
    if xs == [] {
      assert xs + ys == ys;
    } else {
      assert (xs + ys)[1..] == xs[1..] + ys;
      RunSplit(delay, Apply(s, xs[0]), xs[1..], ys);
    }
  }

  lemma Cons<V>(delay: nat, s: Nodes<V>, step: Step<V>, steps: seq<Step<V>>)
    ensures Run(s, [step] + steps) == Run(Apply(s, step), steps)
    ensures Legal(delay, s, [step] + steps) <==> Enabled(delay, s, step) && Legal(delay, Apply(s, step), steps)
  {
    assert ([step] + steps)[1..] == steps;
  }

  // ---------- Without interference these are the operations of TwoTierCache

  /** A Get that nothing comes between: it has changed this node's memory only, to this, and its last step has returned
      this. */
  ghost predicate Gets<V>(delay: nat, s: Nodes<V>, steps: seq<Step<V>>, node: nat, key: string,
                          tier: Tier<Stamped<V>>, reply: Fetch<Stamped<V>>)
  {
    && Legal(delay, s, steps) && steps != []
    && Run(s, steps) == s.(l1 := Run(s, steps).l1)
    && (forall n :: L1(Run(s, steps), n) == if n == node then tier else L1(s, n))
    && Returned(Run(s, steps[..|steps| - 1]), steps[|steps| - 1], node, key)
       == (if reply.Hit? then Some(reply.value) else None)
  }

  /** Its steps. */
  function GetSteps<V>(s: Nodes<V>, get: nat, node: nat, key: string, up: bool, kept: bool): seq<Step<V>> {
    if Lookup(L1(s, node), key, s.now).Some? then [Look(get, node, key)]
    else if !up || Lookup(s.l2, key, s.now).None? then [Look(get, node, key)] + [Ask(get, up)]
    else [Look(get, node, key)] + ([Ask(get, up)] + [Backfill(get, kept)])
  }

  lemma GetIsSteps<V>(delay: nat, s: Nodes<V>, get: nat, node: nat, key: string, up: bool, kept: bool)
    requires get !in s.gets
    ensures var (tier, reply) := GetL1(L1(s, node), s.l2, key, s.now, up, kept);
            Gets(delay, s, GetSteps(s, get, node, key, up, kept), node, key, tier, reply)
  {
    var look: Step<V>, ask: Step<V> := Look(get, node, key), Ask(get, up);
    if Lookup(L1(s, node), key, s.now).Some? {
      assert [look][1..] == [] && [look][..0] == [];
    } else if !up || Lookup(s.l2, key, s.now).None? {
      Misses(delay, s, get, node, key, up);
      assert ([look] + [ask])[..1] == [look];
    } else {
      AsksRedis(delay, s, get, node, key, kept);
    }
  }

  lemma AsksRedis<V>(delay: nat, s: Nodes<V>, get: nat, node: nat, key: string, kept: bool)
    requires get !in s.gets && Lookup(L1(s, node), key, s.now).None? && Lookup(s.l2, key, s.now).Some?
    ensures var (tier, reply) := GetL1(L1(s, node), s.l2, key, s.now, true, kept);
            Gets(delay, s, GetSteps(s, get, node, key, true, kept), node, key, tier, reply)
  {
    var look: Step<V>, ask: Step<V>, backfill: Step<V> := Look(get, node, key), Ask(get, true), Backfill(get, kept);
    var s1 := Apply(s, look);
    var v := Lookup(s.l2, key, s.now).value;
    Cons(delay, s, look, [ask] + [backfill]);
    Backfills(delay, s1, get, kept);
    assert s1.gets - {get} == s.gets;
    var steps := [look] + ([ask] + [backfill]);
    assert steps[..2] == [look] + [ask] && steps[2] == backfill;
    assert Run(s, [look] + [ask]) == Apply(s1, ask) by {
      Cons(delay, s, look, [ask]);
      assert [ask][1..] == [];
    }
    var tier := WriteL1(L1(s, node), key, Entry(v, Expiry(s.now, BACKFILL)), kept);
    assert Run(s, steps) == s.(l1 := s.l1[node := tier]);
  }

  lemma Misses<V>(delay: nat, s: Nodes<V>, get: nat, node: nat, key: string, up: bool)
    requires get !in s.gets && Lookup(L1(s, node), key, s.now).None? && (!up || Lookup(s.l2, key, s.now).None?)
    ensures var look: Step<V>, ask: Step<V> := Look(get, node, key), Ask(get, up);
            Legal(delay, s, [look] + [ask]) && Run(s, [look] + [ask]) == s
  {
    var look: Step<V>, ask: Step<V> := Look(get, node, key), Ask(get, up);
    Cons(delay, s, look, [ask]);
    assert [ask][1..] == [];
    assert Apply(Apply(s, look), ask).gets == s.gets;
  }

  lemma Backfills<V>(delay: nat, s: Nodes<V>, get: nat, kept: bool)
    requires get in s.gets && s.gets[get].Missed? && Lookup(s.l2, s.gets[get].key, s.now).Some?
    ensures var g, v := s.gets[get], Lookup(s.l2, s.gets[get].key, s.now).value;
            var ask: Step<V>, backfill: Step<V> := Ask(get, true), Backfill(get, kept);
            && Legal(delay, s, [ask] + [backfill])
            && Run(s, [ask] + [backfill])
               == s.(l1 := s.l1[g.node := WriteL1(L1(s, g.node), g.key, Entry(v, Expiry(s.now, BACKFILL)), kept)],
                     gets := s.gets - {get})
            && Returned(Apply(s, ask), backfill, g.node, g.key) == Some(v)
  {
    var ask: Step<V>, backfill: Step<V> := Ask(get, true), Backfill(get, kept);
    var s1 := Apply(s, ask);
    Cons(delay, s, ask, [backfill]);
    assert [backfill][1..] == [];
    assert s1.gets - {get} == s.gets - {get};
  }

  /** The steps of a Set that nothing comes between. */
  function SetSteps<V>(s: Nodes<V>, node: nat, key: string, body: V, ttl: nat, ok: bool, kept: bool): seq<Step<V>> {
    [Write(node, key, body, ttl, kept)] + [Publish(s.writes, ok)]
  }

  lemma SetIsSteps<V>(delay: nat, s: Nodes<V>, node: nat, key: string, body: V, ttl: nat, ok: bool, kept: bool)
    requires s.writes !in s.sets
    ensures var steps := SetSteps(s, node, key, body, ttl, ok, kept);
            var e := Entry(Stamp(s, body, ttl), Expiry(s.now, ttl));
            && Legal(delay, s, steps)
            && Run(s, steps) == s.(l1 := s.l1[node := WriteL1(L1(s, node), key, e, kept)],
                                   l2 := SetL2(s.l2, key, e, ok), writes := s.writes + 1)
  {
    var write: Step<V>, publish: Step<V> := Write(node, key, body, ttl, kept), Publish(s.writes, ok);
    Cons(delay, s, write, [publish]);
    assert [publish][1..] == [];
    assert Apply(Apply(s, write), publish).sets == s.sets;
  }

  // ---------- What a step can change

  predicate IsWrite<V>(step: Step<V>, node: nat, key: string) {
    step.Write? && step.node == node && step.key == key
  }

  predicate IsBackfill<V>(s: Nodes<V>, step: Step<V>, node: nat, key: string) {
    && step.Backfill? && step.get in s.gets && s.gets[step.get].Found?
    && s.gets[step.get].node == node && s.gets[step.get].key == key
  }

  predicate IsPublish<V>(s: Nodes<V>, step: Step<V>, key: string) {
    step.Publish? && step.id in s.sets && s.sets[step.id].key == key
  }

  /** An entry in memory was there before, or has been written or backfilled by this step. */
  lemma L1Change<V>(s: Nodes<V>, step: Step<V>, node: nat, key: string)
    requires key in L1(Apply(s, step), node)
    ensures var e := L1(Apply(s, step), node)[key];
            || (key in L1(s, node) && e == L1(s, node)[key])
            || (IsWrite(step, node, key) && e == Entry(Stamp(s, step.body, step.ttl), Expiry(s.now, step.ttl)))
            || (IsBackfill(s, step, node, key) && e == Entry(s.gets[step.get].value, Expiry(s.now, BACKFILL)))
  {
  }

  /** An entry of Redis was there before, or has been published by this step. */
  lemma L2Change<V>(s: Nodes<V>, step: Step<V>, key: string)
    requires key in Apply(s, step).l2
    ensures var e := Apply(s, step).l2[key];
            || (key in s.l2 && e == s.l2[key])
            || (IsPublish(s, step, key)
                && e == Entry(s.sets[step.id].value, Expiry(s.now, s.sets[step.id].value.ttl)))
  {
  }

  /** What a Get has found was found before, or is found in Redis by this step. */
  lemma GetsChange<V>(s: Nodes<V>, step: Step<V>, get: nat)
    requires get in Apply(s, step).gets && Apply(s, step).gets[get].Found?
    ensures var g := Apply(s, step).gets[get];
            || (get in s.gets && g == s.gets[get])
            || (step == Ask(get, true) && Lookup(s.l2, g.key, s.now) == Some(g.value) && g.at == s.now)
  {
  }

  /** A Set under way was so before, or is begun by this step. */
  lemma SetsChange<V>(s: Nodes<V>, step: Step<V>, id: nat)
    requires id in Apply(s, step).sets
    ensures || (id in s.sets && Apply(s, step).sets[id] == s.sets[id])
            || (step.Write? && id == s.writes
                && Apply(s, step).sets[id] == Setting(step.key, Stamp(s, step.body, step.ttl)))
  {
  }

  // ---------- Where values come from

  ghost predicate InL2<V>(s: Nodes<V>, key: string, v: Stamped<V>) {
    key in s.l2 && s.l2[key].value == v
  }

  ghost predicate InL1<V>(s: Nodes<V>, key: string, v: Stamped<V>) {
    exists node :: key in L1(s, node) && L1(s, node)[key].value == v
  }

  ghost predicate InGets<V>(s: Nodes<V>, key: string, v: Stamped<V>) {
    exists get :: get in s.gets && s.gets[get].Found? && s.gets[get].key == key && s.gets[get].value == v
  }

  ghost predicate InSets<V>(s: Nodes<V>, key: string, v: Stamped<V>) {
    exists id :: id in s.sets && s.sets[id] == Setting(key, v)
  }

  /** The value is held under this key: in a tier, or by an operation under way. */
  ghost predicate Holds<V>(s: Nodes<V>, key: string, v: Stamped<V>) {
    InL2(s, key, v) || InL1(s, key, v) || InGets(s, key, v) || InSets(s, key, v)
  }

  lemma L1Provenance<V>(s: Nodes<V>, step: Step<V>, key: string, v: Stamped<V>)
    requires InL1(Apply(s, step), key, v)
    ensures || InL1(s, key, v) || InGets(s, key, v)
            || (step.Write? && step.key == key && v == Stamp(s, step.body, step.ttl))
  {
    var s' := Apply(s, step);
    var node :| key in L1(s', node) && L1(s', node)[key].value == v;
    L1Change(s, step, node, key);
  }

  lemma GetsProvenance<V>(s: Nodes<V>, step: Step<V>, key: string, v: Stamped<V>)
    requires InGets(Apply(s, step), key, v)
    ensures InGets(s, key, v) || InL2(s, key, v)
  {
    var s' := Apply(s, step);
    var get :| get in s'.gets && s'.gets[get].Found? && s'.gets[get].key == key && s'.gets[get].value == v;
    GetsChange(s, step, get);
  }

  lemma SetsProvenance<V>(s: Nodes<V>, step: Step<V>, key: string, v: Stamped<V>)
    requires InSets(Apply(s, step), key, v)
    ensures InSets(s, key, v) || (step.Write? && step.key == key && v == Stamp(s, step.body, step.ttl))
  {
    var s' := Apply(s, step);
    var id :| id in s'.sets && s'.sets[id] == Setting(key, v);
    SetsChange(s, step, id);
  }

  /** A value is held only under the key it was written to. */
  lemma Provenance<V>(s: Nodes<V>, step: Step<V>, key: string, v: Stamped<V>)
    requires Holds(Apply(s, step), key, v)
    ensures Holds(s, key, v) || (step.Write? && step.key == key && v == Stamp(s, step.body, step.ttl))
  {
    if InL1(Apply(s, step), key, v) {
      L1Provenance(s, step, key, v);
    } else if InGets(Apply(s, step), key, v) {
      GetsProvenance(s, step, key, v);
    } else if InSets(Apply(s, step), key, v) {
      SetsProvenance(s, step, key, v);
    }
  }

  lemma ReturnedIsHeld<V>(s: Nodes<V>, step: Step<V>, node: nat, key: string)
    requires Returned(s, step, node, key).Some?
    ensures Holds(s, key, Returned(s, step, node, key).value)
  {
    var v := Returned(s, step, node, key).value;
    if step.Look? {
      assert InL1(s, key, v);
    } else {
      assert InGets(s, key, v);
    }
  }

  // ---------- What every step keeps

  predicate Known<V>(s: Nodes<V>, v: Stamped<V>) {
    v.setAt <= s.now && v.id < s.writes
  }

  /** An entry of Redis expires with its value, counted from its arrival there. */
  predicate GoodL2<V>(delay: nat, s: Nodes<V>, e: Entry<Stamped<V>>) {
    && Known(s, e.value)
    && (e.value.ttl > 0 ==> e.expires.Some? && e.expires.value <= e.value.setAt + delay + e.value.ttl)
  }

  /** What a Get has found in Redis had not expired there. */
  predicate GoodGet<V>(delay: nat, s: Nodes<V>, g: Getting<V>) {
    g.Found? ==>
      && Known(s, g.value) && g.at <= s.now
      && (g.value.ttl > 0 ==> g.at < g.value.setAt + delay + g.value.ttl)
  }

  /** An entry in memory expires with its value, or was backfilled, in the past, from an entry of Redis. */
  predicate GoodL1<V>(delay: nat, s: Nodes<V>, e: Entry<Stamped<V>>) {
    && Known(s, e.value)
    && (e.expires == Expiry(e.value.setAt, e.value.ttl)
        || (&& e.expires.Some? && e.expires.value <= s.now + BACKFILL
            && (e.value.ttl > 0 ==> e.expires.value <= LastMoment(delay, e.value) + 1)))
  }

  /** The last moment at which a value with a time-to-live may be returned: ten minutes, and two delays less two
      nanoseconds, after it has expired. */
  function LastMoment<V>(delay: nat, v: Stamped<V>): (last: int)
    ensures last == v.setAt + v.ttl + 600_000_000_000 + 2 * delay - 2
  {
    v.setAt + v.ttl + BACKFILL + 2 * delay - 2
  }

  ghost predicate Good<V>(delay: nat, s: Nodes<V>) {
    && (forall key :: key in s.l2 ==> GoodL2(delay, s, s.l2[key]))
    && (forall node, key :: key in L1(s, node) ==> GoodL1(delay, s, L1(s, node)[key]))
    && (forall get :: get in s.gets ==> GoodGet(delay, s, s.gets[get]))
    && (forall id :: id in s.sets ==> Known(s, s.sets[id].value) && s.sets[id].value.id == id)
  }

  lemma StaysGoodL1<V>(delay: nat, s: Nodes<V>, step: Step<V>, node: nat, key: string)
    requires Good(delay, s) && Enabled(delay, s, step) && key in L1(Apply(s, step), node)
    ensures GoodL1(delay, Apply(s, step), L1(Apply(s, step), node)[key])
  {
    L1Change(s, step, node, key);
    if IsBackfill(s, step, node, key) {
      assert GoodGet(delay, s, s.gets[step.get]);
    } else if key in L1(s, node) {
      assert GoodL1(delay, s, L1(s, node)[key]);
    }
  }

  lemma StaysGoodL2<V>(delay: nat, s: Nodes<V>, step: Step<V>, key: string)
    requires Good(delay, s) && Enabled(delay, s, step) && key in Apply(s, step).l2
    ensures GoodL2(delay, Apply(s, step), Apply(s, step).l2[key])
  {
    L2Change(s, step, key);
    if key in s.l2 {
      assert GoodL2(delay, s, s.l2[key]);
    }
  }

  lemma StaysGoodGet<V>(delay: nat, s: Nodes<V>, step: Step<V>, get: nat)
    requires Good(delay, s) && Enabled(delay, s, step) && get in Apply(s, step).gets
    ensures GoodGet(delay, Apply(s, step), Apply(s, step).gets[get])
  {
    var g := Apply(s, step).gets[get];
    if g.Found? {
      GetsChange(s, step, get);
      if get in s.gets && g == s.gets[get] {
        assert GoodGet(delay, s, g);
      } else {
        assert GoodL2(delay, s, s.l2[g.key]);
      }
    }
  }

  lemma StaysGood<V>(delay: nat, s: Nodes<V>, step: Step<V>)
    requires Good(delay, s) && Enabled(delay, s, step)
    ensures Good(delay, Apply(s, step))
  {
    var s' := Apply(s, step);
    forall node, key | key in L1(s', node)
      ensures GoodL1(delay, s', L1(s', node)[key])
    {
      StaysGoodL1(delay, s, step, node, key);
    }
    forall key | key in s'.l2
      ensures GoodL2(delay, s', s'.l2[key])
    {
      StaysGoodL2(delay, s, step, key);
    }
    forall get | get in s'.gets
      ensures GoodGet(delay, s', s'.gets[get])
    {
      StaysGoodGet(delay, s, step, get);
    }
  }

  lemma {:induction false} RunIsGood<V>(delay: nat, s: Nodes<V>, steps: seq<Step<V>>)
    requires Good(delay, s) && Legal(delay, s, steps)
    ensures Good(delay, Run(s, steps)) && s.now <= Run(s, steps).now && s.writes <= Run(s, steps).writes
    decreases |steps|
  {
    if steps == [] {
    } else {
      StaysGood(delay, s, steps[0]);
      RunIsGood(delay, Apply(s, steps[0]), steps[1..]);
    }
  }

  /** What a Get returns in a good state has come before, and is not older than it may be. */
  lemma ReturnedIsYoung<V>(delay: nat, s: Nodes<V>, step: Step<V>, node: nat, key: string)
    requires Good(delay, s) && Enabled(delay, s, step) && Returned(s, step, node, key).Some?
    ensures var v := Returned(s, step, node, key).value;
            Known(s, v) && (v.ttl > 0 ==> s.now <= LastMoment(delay, v))
  {
    if step.Look? {
      assert GoodL1(delay, s, L1(s, node)[key]);
    } else {
      assert GoodGet(delay, s, s.gets[step.get]);
    }
  }

  /** Staleness: in every run, no Get on any node returns a value that was set at time t for a time-to-live d later
      than t + d + 10 minutes + 2 delays - 2 nanoseconds, whatever writes fail, whatever is lost, and whatever comes
      between the accesses of any operation. */
  lemma NeverTooStale<V>(delay: nat, start: int, steps: seq<Step<V>>, step: Step<V>, node: nat, key: string)
    requires Legal(delay, Start(start), steps + [step])
    requires Returned(Run(Start(start), steps), step, node, key).Some?
    ensures var s := Run(Start(start), steps); var v := Returned(s, step, node, key).value;
            v.ttl > 0 ==> s.now <= LastMoment(delay, v)
  {
    RunSplit(delay, Start(start), steps, [step]);
    RunIsGood(delay, Start<V>(start), steps);
    ReturnedIsYoung(delay, Run(Start(start), steps), step, node, key);
  }

  /** The bound is exact: a value that reaches Redis late, is read there at its last moment, backfilled late, and asked
      for at the last moment of that entry, is returned at just that time. */
  lemma StalenessIsAttained<V>(delay: nat, key: string, body: V, ttl: nat) returns (steps: seq<Step<V>>, last: Step<V>)
    requires ttl > 0
    ensures Legal(delay, Start(0), steps + [last])
    ensures var s, v := Run(Start(0), steps), Stamped(body, 0, ttl, 0);
            Returned(s, last, 1, key) == Some(v) && s.now == LastMoment(delay, v)
  {
    var v := Stamped(body, 0, ttl, 0);
    var write: Step<V>, wait1: Step<V>, publish: Step<V> :=
      Write(0, key, body, ttl, true), Wait(delay), Publish(0, true);
    var s1 := Apply(Start(0), write);
    var s2 := Apply(s1, wait1);
    var s3 := Apply(s2, publish);
    assert s3.l2 == map[key := Entry(v, Some(delay + ttl))] && L1(s3, 1) == map[] && s3.gets == map[];
    var rest;
    rest, last := ReturnedLate(delay, s3, key, v);
    steps := [write] + ([wait1] + ([publish] + rest));
    Cons(delay, s2, publish, rest);
    Cons(delay, s1, wait1, [publish] + rest);
    Cons(delay, Start(0), write, [wait1] + ([publish] + rest));
    RunSplit(delay, Start(0), steps, [last]);
    RunSplit(delay, s3, rest, [last]);
  }

  /** From what Redis holds, a node that has nothing can serve a value as late as this. */
  lemma ReturnedLate<V>(delay: nat, s: Nodes<V>, key: string, v: Stamped<V>)
    returns (steps: seq<Step<V>>, last: Step<V>)
    requires v.ttl > 0 && key in s.l2 && s.l2[key] == Entry(v, Some(s.now + v.ttl))
    requires L1(s, 1) == map[] && s.gets == map[]
    ensures Legal(delay, s, steps + [last]) && last == Look(1, 1, key) && forall step :: step in steps ==> !step.Write?
    ensures var s' := Run(s, steps);
            Returned(s', last, 1, key) == Some(v) && s'.now == s.now + v.ttl + BACKFILL + delay - 2
  {
    var s1, first := FoundLate(delay, s, key, v);
    var s2, then' := BackfilledLate(delay, s1, key, v);
    steps, last := first + then', Look(1, 1, key);
    RunSplit(delay, s, first, then');
    RunSplit(delay, s, steps, [last]);
    assert [last][1..] == [];
  }

  lemma FoundLate<V>(delay: nat, s: Nodes<V>, key: string, v: Stamped<V>) returns (s': Nodes<V>, steps: seq<Step<V>>)
    requires v.ttl > 0 && key in s.l2 && s.l2[key] == Entry(v, Some(s.now + v.ttl))
    requires L1(s, 1) == map[] && s.gets == map[]
    ensures Legal(delay, s, steps) && Run(s, steps) == s' && forall step :: step in steps ==> !step.Write?
    ensures s'.now == s.now + v.ttl - 1 && s'.gets == map[0 := Found(1, key, v, s'.now)]
  {
    var wait: Step<V> := Wait(v.ttl - 1);
    var asks;
    s', asks := Finds(delay, Apply(s, wait), key, v);
    steps := [wait] + asks;
    Cons(delay, s, wait, asks);
  }

  /** Node 1 asks Redis for the value. */
  lemma Finds<V>(delay: nat, s: Nodes<V>, key: string, v: Stamped<V>) returns (s': Nodes<V>, steps: seq<Step<V>>)
    requires key in s.l2 && s.l2[key].value == v && Live(s.l2[key], s.now) && key !in L1(s, 1) && s.gets == map[]
    ensures Legal(delay, s, steps) && Run(s, steps) == s' && forall step :: step in steps ==> !step.Write?
    ensures s' == s.(gets := map[0 := Found(1, key, v, s.now)])
  {
    var look: Step<V>, ask: Step<V> := Look(0, 1, key), Ask(0, true);
    var s1 := Apply(s, look);
    assert s1.gets == map[0 := Missed(1, key)];
    s' := Apply(s1, ask);
    steps := [look] + ([ask] + []);
    Cons(delay, s1, ask, []);
    Cons(delay, s, look, [ask] + []);
  }

  lemma BackfilledLate<V>(delay: nat, s: Nodes<V>, key: string, v: Stamped<V>)
    returns (s': Nodes<V>, steps: seq<Step<V>>)
    requires s.gets == map[0 := Found(1, key, v, s.now)]
    ensures Legal(delay, s, steps) && Run(s, steps) == s' && forall step :: step in steps ==> !step.Write?
    ensures s'.now == s.now + delay + BACKFILL - 1 && s'.gets == map[] && Lookup(L1(s', 1), key, s'.now) == Some(v)
  {
    var wait1: Step<V>, backfill: Step<V>, wait2: Step<V> := Wait(delay), Backfill(0, true), Wait(BACKFILL - 1);
    var s1 := Apply(s, wait1);
    var s2 := Apply(s1, backfill);
    assert s2.gets == map[] && L1(s2, 1)[key] == Entry(v, Some(s1.now + BACKFILL));
    s' := Apply(s2, wait2);
    steps := [wait1] + ([backfill] + ([wait2] + []));
    Cons(delay, s2, wait2, []);
    Cons(delay, s1, backfill, [wait2] + []);
    Cons(delay, s, wait1, [backfill] + ([wait2] + []));
  }

  // ---------- When a node is up to date

  /** However the run goes on, no Get of the key on this node returns a value written before the write `id`. */
  ghost predicate UpToDate<V(!new)>(delay: nat, s: Nodes<V>, node: nat, key: string, id: nat) {
    forall steps, step ::
      Legal(delay, s, steps + [step]) && Returned(Run(s, steps), step, node, key).Some?
      ==> id <= Returned(Run(s, steps), step, node, key).value.id
  }

  /** Nothing that was written before is still to be had in Redis or in the node's memory. */
  predicate NoOldEntry<V>(s: Nodes<V>, node: nat, key: string, id: nat) {
    && (Lookup(s.l2, key, s.now).Some? ==> id <= s.l2[key].value.id)
    && (Lookup(L1(s, node), key, s.now).Some? ==> id <= L1(s, node)[key].value.id)
  }

  /** No Get on the node is about to backfill it. */
  ghost predicate NoOldGet<V>(delay: nat, s: Nodes<V>, node: nat, key: string, id: nat) {
    forall get :: CanBackfill(delay, s, get) && s.gets[get].node == node && s.gets[get].key == key
      ==> id <= s.gets[get].value.id
  }

  /** No Set on any node is about to publish it. */
  ghost predicate NoOldSet<V>(delay: nat, s: Nodes<V>, key: string, id: nat) {
    forall i :: CanPublish(delay, s, i) && s.sets[i].key == key ==> id <= i
  }

  ghost predicate Settled<V>(delay: nat, s: Nodes<V>, node: nat, key: string, id: nat) {
    NoOldEntry(s, node, key, id) && NoOldGet(delay, s, node, key, id) && NoOldSet(delay, s, key, id)
  }

  lemma StaysNoOldSet<V>(delay: nat, s: Nodes<V>, step: Step<V>, key: string, id: nat)
    requires Enabled(delay, s, step) && NoOldSet(delay, s, key, id) && id <= s.writes
    ensures NoOldSet(delay, Apply(s, step), key, id)
  {
    var s' := Apply(s, step);
    forall i | CanPublish(delay, s', i) && s'.sets[i].key == key
      ensures id <= i
    {
      SetsChange(s, step, i);
    }
  }

  lemma StaysNoOldEntry<V>(delay: nat, s: Nodes<V>, step: Step<V>, node: nat, key: string, id: nat)
    requires Good(delay, s) && Enabled(delay, s, step) && Settled(delay, s, node, key, id) && id <= s.writes
    ensures NoOldEntry(Apply(s, step), node, key, id)
  {
    var s' := Apply(s, step);
    if Lookup(s'.l2, key, s'.now).Some? {
      L2Change(s, step, key);
      assert IsPublish(s, step, key) ==> id <= step.id;
    }
    if Lookup(L1(s', node), key, s'.now).Some? {
      L1Change(s, step, node, key);
      assert IsBackfill(s, step, node, key) ==> id <= s.gets[step.get].value.id;
    }
  }

  lemma StaysSettled<V>(delay: nat, s: Nodes<V>, step: Step<V>, node: nat, key: string, id: nat)
    requires Good(delay, s) && Enabled(delay, s, step) && Settled(delay, s, node, key, id) && id <= s.writes
    ensures Settled(delay, Apply(s, step), node, key, id)
  {
    var s' := Apply(s, step);
    StaysNoOldEntry(delay, s, step, node, key, id);
    forall get | CanBackfill(delay, s', get) && s'.gets[get].node == node && s'.gets[get].key == key
      ensures id <= s'.gets[get].value.id
    {
      GetsChange(s, step, get);
    }
    StaysNoOldSet(delay, s, step, key, id);
  }

  lemma {:induction false} RunStaysSettled<V>(delay: nat, s: Nodes<V>, steps: seq<Step<V>>, node: nat, key: string,
                                              id: nat)
    requires Good(delay, s) && Legal(delay, s, steps) && Settled(delay, s, node, key, id) && id <= s.writes
    ensures Settled(delay, Run(s, steps), node, key, id)
    decreases |steps|
  {
    if steps == [] {
    } else {
      StaysGood(delay, s, steps[0]);
      StaysSettled(delay, s, steps[0], node, key, id);
      RunStaysSettled(delay, Apply(s, steps[0]), steps[1..], node, key, id);
    }
  }

  lemma SettledIsUpToDate<V(!new)>(delay: nat, s: Nodes<V>, node: nat, key: string, id: nat)
    requires Good(delay, s) && Settled(delay, s, node, key, id) && id <= s.writes
    ensures UpToDate(delay, s, node, key, id)
  {
    forall steps, step
      | Legal(delay, s, steps + [step]) && Returned(Run(s, steps), step, node, key).Some?
      ensures id <= Returned(Run(s, steps), step, node, key).value.id
    {
      RunSplit(delay, s, steps, [step]);
      RunStaysSettled(delay, s, steps, node, key, id);
      if step.Backfill? {
        assert CanBackfill(delay, Run(s, steps), step.get);
      }
    }
  }

  lemma NotAfter<V(!new)>(delay: nat, s: Nodes<V>, first: Step<V>, node: nat, key: string, id: nat)
    requires Enabled(delay, s, first) && !UpToDate(delay, Apply(s, first), node, key, id)
    ensures !UpToDate(delay, s, node, key, id)
  {
    var s' := Apply(s, first);
    var steps, step :|
      && Legal(delay, s', steps + [step]) && Returned(Run(s', steps), step, node, key).Some?
      && Returned(Run(s', steps), step, node, key).value.id < id;
    Cons(delay, s, first, steps);
    Cons(delay, s, first, steps + [step]);
    assert ([first] + steps) + [step] == [first] + (steps + [step]);
    assert Legal(delay, s, ([first] + steps) + [step]);
  }

  lemma NotNow<V(!new)>(delay: nat, s: Nodes<V>, step: Step<V>, node: nat, key: string, id: nat)
    requires Enabled(delay, s, step) && Returned(s, step, node, key).Some? && Returned(s, step, node, key).value.id < id
    ensures !UpToDate(delay, s, node, key, id)
  {
    var none: seq<Step<V>> := [];
    Cons(delay, s, step, none);
    assert none + [step] == [step] + none && Run(s, none) == s;
  }

  lemma OldInMemory<V(!new)>(delay: nat, s: Nodes<V>, node: nat, key: string, id: nat)
    requires Lookup(L1(s, node), key, s.now).Some? && L1(s, node)[key].value.id < id
    ensures !UpToDate(delay, s, node, key, id)
  {
    var get := Unused(s.gets.Keys);
    NotNow(delay, s, Look(get, node, key), node, key, id);
  }

  /** The node loses its own entry and asks Redis. */
  lemma OldInRedis<V(!new)>(delay: nat, s: Nodes<V>, node: nat, key: string, id: nat)
    requires Lookup(s.l2, key, s.now).Some? && s.l2[key].value.id < id
    ensures !UpToDate(delay, s, node, key, id)
  {
    var get := Unused(s.gets.Keys);
    var lose: Step<V>, look: Step<V>, ask: Step<V> := Lose(node, key), Look(get, node, key), Ask(get, true);
    var s1 := Apply(s, lose);
    var s2 := Apply(s1, look);
    var s3 := Apply(s2, ask);
    NotNow(delay, s3, Backfill(get, true), node, key, id);
    NotAfter(delay, s2, ask, node, key, id);
    NotAfter(delay, s1, look, node, key, id);
    NotAfter(delay, s, lose, node, key, id);
  }

  lemma OldInSet<V(!new)>(delay: nat, s: Nodes<V>, i: nat, node: nat, id: nat)
    requires Good(delay, s) && CanPublish(delay, s, i) && i < id
    ensures !UpToDate(delay, s, node, s.sets[i].key, id)
  {
    OldInRedis(delay, Apply(s, Publish(i, true)), node, s.sets[i].key, id);
    NotAfter(delay, s, Publish(i, true), node, s.sets[i].key, id);
  }

  /** Exactly when a node is up to date: nothing older is to be had in its memory or in Redis, no Get of the key on
      this node is about to backfill anything older, and no Set of the key on any node is about to publish it. */
  lemma UpToDateIff<V(!new)>(delay: nat, s: Nodes<V>, node: nat, key: string, id: nat)
    requires Good(delay, s) && id <= s.writes
    ensures UpToDate(delay, s, node, key, id) <==> Settled(delay, s, node, key, id)
  {
    if Settled(delay, s, node, key, id) {
      SettledIsUpToDate(delay, s, node, key, id);
    } else if !NoOldGet(delay, s, node, key, id) {
      var get :| CanBackfill(delay, s, get) && s.gets[get].node == node && s.gets[get].key == key
                 && s.gets[get].value.id < id;
      NotNow(delay, s, Backfill(get, true), node, key, id);
    } else if !NoOldSet(delay, s, key, id) {
      var i: nat :| CanPublish(delay, s, i) && s.sets[i].key == key && i < id;
      OldInSet(delay, s, i, node, id);
    } else if Lookup(L1(s, node), key, s.now).Some? && L1(s, node)[key].value.id < id {
      OldInMemory(delay, s, node, key, id);
    } else {
      OldInRedis(delay, s, node, key, id);
    }
  }

  /** The writer of a value that reaches Redis, with nothing between the two writes, is up to date at once exactly if
      no Get of the key on its node is between the answer of Redis and its backfill, and no Set of the key on any node
      is between its two writes. */
  lemma WriterIsUpToDateIff<V(!new)>(delay: nat, s: Nodes<V>, node: nat, key: string, body: V, ttl: nat, kept: bool)
    requires Good(delay, s)
    ensures UpToDate(delay, Run(s, SetSteps(s, node, key, body, ttl, true, kept)), node, key, s.writes)
            <==> (forall get :: CanBackfill(delay, s, get) ==> s.gets[get].node != node || s.gets[get].key != key)
                 && (forall i :: CanPublish(delay, s, i) ==> s.sets[i].key != key)
  {
    var steps := SetSteps(s, node, key, body, ttl, true, kept);
    var s' := Run(s, steps);
    SetIsSteps(delay, s, node, key, body, ttl, true, kept);
    RunIsGood(delay, s, steps);
    UpToDateIff(delay, s', node, key, s.writes);
    assert NoOldEntry(s', node, key, s.writes);
    forall get
      ensures CanBackfill(delay, s', get) == CanBackfill(delay, s, get)
      ensures get in s.gets && s.gets[get].Found? ==> s.gets[get].value.id < s.writes
    {
      assert get in s.gets ==> GoodGet(delay, s, s.gets[get]);
    }
    assert forall i :: CanPublish(delay, s', i) == CanPublish(delay, s, i);
  }

  // ---------- Overwrites

  /** An entry that is still about after its key was overwritten at time w by the write `id`. */
  predicate Superseded<V>(delay: nat, e: Entry<Stamped<V>>, w: int, id: nat) {
    && e.value.id < id
    && (e.value.ttl > 0 ==> e.expires.Some? && e.expires.value <= w + Relic(delay, e.value.ttl))
  }

  /** How long a value with this time-to-live can be had after it has been overwritten: until it expires, or for ten
      minutes and a delay. */
  function Relic(delay: nat, ttl: nat): (time: nat)
    ensures time >= ttl && time >= 600_000_000_000 + delay && (time == ttl || time == 600_000_000_000 + delay)
  {
    if ttl > BACKFILL + delay then ttl else BACKFILL + delay
  }

  /** Since the overwrite: Redis holds nothing older, and what nodes hold or have found of older writes is on its way
      out. */
  ghost predicate Overwritten<V>(delay: nat, s: Nodes<V>, key: string, w: int, id: nat) {
    && id < s.writes && w <= s.now
    && (key in s.l2 ==> id <= s.l2[key].value.id)
    && NoOldSet(delay, s, key, id)
    && (forall node :: key in L1(s, node) ==>
          id <= L1(s, node)[key].value.id || Superseded(delay, L1(s, node)[key], w, id))
    && (forall get :: get in s.gets && s.gets[get].Found? && s.gets[get].key == key ==>
          id <= s.gets[get].value.id || s.gets[get].at <= w)
  }

  lemma StaysSuperseded<V>(delay: nat, s: Nodes<V>, step: Step<V>, node: nat, key: string, w: int, id: nat)
    requires Good(delay, s) && Enabled(delay, s, step) && Overwritten(delay, s, key, w, id)
    requires key in L1(Apply(s, step), node)
    ensures var e := L1(Apply(s, step), node)[key]; id <= e.value.id || Superseded(delay, e, w, id)
  {
    L1Change(s, step, node, key);
  }

  lemma StaysOverwritten<V>(delay: nat, s: Nodes<V>, step: Step<V>, key: string, w: int, id: nat)
    requires Good(delay, s) && Enabled(delay, s, step) && Overwritten(delay, s, key, w, id)
    ensures Overwritten(delay, Apply(s, step), key, w, id)
  {
    var s' := Apply(s, step);
    if key in s'.l2 {
      L2Change(s, step, key);
    }
    forall node | key in L1(s', node)
      ensures id <= L1(s', node)[key].value.id || Superseded(delay, L1(s', node)[key], w, id)
    {
      StaysSuperseded(delay, s, step, node, key, w, id);
    }
    forall get | get in s'.gets && s'.gets[get].Found? && s'.gets[get].key == key
      ensures id <= s'.gets[get].value.id || s'.gets[get].at <= w
    {
      GetsChange(s, step, get);
    }
    StaysNoOldSet(delay, s, step, key, id);
  }

  lemma {:induction false} RunStaysOverwritten<V>(delay: nat, s: Nodes<V>, steps: seq<Step<V>>, key: string, w: int,
                                                  id: nat)
    requires Good(delay, s) && Legal(delay, s, steps) && Overwritten(delay, s, key, w, id)
    ensures Overwritten(delay, Run(s, steps), key, w, id)
    decreases |steps|
  {
    if steps == [] {
    } else {
      StaysGood(delay, s, steps[0]);
      StaysOverwritten(delay, s, steps[0], key, w, id);
      RunStaysOverwritten(delay, Apply(s, steps[0]), steps[1..], key, w, id);
    }
  }

  lemma PublishOverwrites<V>(delay: nat, s: Nodes<V>, id: nat)
    requires Good(delay, s) && CanPublish(delay, s, id) && NoOldSet(delay, s, s.sets[id].key, id)
    ensures Overwritten(delay, Apply(s, Publish(id, true)), s.sets[id].key, s.now, id)
  {
    var s', key := Apply(s, Publish(id, true)), s.sets[id].key;
    forall node | key in L1(s', node)
      ensures id <= L1(s', node)[key].value.id || Superseded(delay, L1(s', node)[key], s.now, id)
    {
      assert GoodL1(delay, s, L1(s, node)[key]);
    }
    forall get | get in s'.gets && s'.gets[get].Found?
      ensures s'.gets[get].at <= s.now
    {
      assert GoodGet(delay, s, s.gets[get]);
    }
  }

  /** After a write has reached Redis at time w, with no earlier Set of its key under way, no Get on any node returns a
      value of an earlier write with time-to-live d at or after w + max(d, 10 minutes + delay). */
  lemma OverwriteTakesOver<V>(delay: nat, start: int, before: seq<Step<V>>, id: nat, after: seq<Step<V>>, step: Step<V>,
                              node: nat)
    requires Legal(delay, Start(start), before)
    requires var s := Run(Start(start), before);
             && CanPublish(delay, s, id) && NoOldSet(delay, s, s.sets[id].key, id)
             && Legal(delay, Apply(s, Publish(id, true)), after + [step])
             && Returned(Run(Apply(s, Publish(id, true)), after), step, node, s.sets[id].key).Some?
    ensures var s := Run(Start(start), before);
            var s' := Run(Apply(s, Publish(id, true)), after);
            var v := Returned(s', step, node, s.sets[id].key).value;
            v.id < id && v.ttl > 0 ==> s'.now < s.now + Relic(delay, v.ttl)
  {
    var s := Run(Start(start), before);
    var key, s1 := s.sets[id].key, Apply(s, Publish(id, true));
    RunIsGood(delay, Start<V>(start), before);
    PublishOverwrites(delay, s, id);
    StaysGood(delay, s, Publish(id, true));
    RunSplit(delay, s1, after, [step]);
    RunStaysOverwritten(delay, s1, after, key, s.now, id);
    assert step.Backfill? ==> CanBackfill(delay, Run(s1, after), step.get);
  }

  /** A run in which a value is overwritten at time 0, in the last of these steps but for the arrival in Redis. */
  ghost predicate IsOverwritten<V>(delay: nat, s: Nodes<V>, before: seq<Step<V>>, key: string, v: Stamped<V>) {
    && Legal(delay, Start(0), before) && s == Run(Start(0), before) && s.now == 0
    && v.id == 0 && v.ttl > 0 && CanPublish(delay, s, 1) && s.sets[1].key == key && NoOldSet(delay, s, key, 1)
  }

  lemma OverwrittenBefore<V>(delay: nat, key: string, first: V, second: V, ttl: nat, asked: bool)
    returns (s: Nodes<V>, before: seq<Step<V>>)
    requires ttl > 0
    ensures IsOverwritten(delay, s, before, key, Stamped(first, 0, ttl, 0))
    ensures if asked then s.gets == map[0 := Found(1, key, Stamped(first, 0, ttl, 0), 0)]
            else s.gets == map[] && key in L1(s, 1) && L1(s, 1)[key] == Entry(Stamped(first, 0, ttl, 0), Some(ttl))
  {
    var set1 := SetSteps(Start(0), 1, key, first, ttl, true, !asked);
    SetIsSteps(delay, Start(0), 1, key, first, ttl, true, !asked);
    var s1 := Run(Start(0), set1);
    var s2, asks := s1, [];
    if asked {
      s2, asks := Finds(delay, s1, key, Stamped(first, 0, ttl, 0));
    }
    var write2: Step<V> := Write(0, key, second, ttl, true);
    s, before := Apply(s2, write2), set1 + (asks + [write2]);
    assert [write2][1..] == [];
    RunSplit(delay, s1, asks, [write2]);
    RunSplit(delay, Start(0), set1, asks + [write2]);
  }

  /** The bound of OverwriteTakesOver is exact: just before it, a node that had found the old value in Redis, or that
      holds it itself because it has written it, still returns it. */
  lemma TakeoverIsAttained<V>(delay: nat, key: string, first: V, second: V, ttl: nat)
    returns (before: seq<Step<V>>, after: seq<Step<V>>, step: Step<V>)
    requires ttl > 0
    ensures var s, v := Run(Start(0), before), Stamped(first, 0, ttl, 0);
            && IsOverwritten(delay, s, before, key, v) && Legal(delay, Apply(s, Publish(1, true)), after + [step])
            && var s' := Run(Apply(s, Publish(1, true)), after);
               Returned(s', step, 1, key) == Some(v) && s'.now == s.now + Relic(delay, ttl) - 1
  {
    var v := Stamped(first, 0, ttl, 0);
    var s, s';
    step := Look(0, 1, key);
    if ttl > BACKFILL + delay {
      s, before := OverwrittenBefore(delay, key, first, second, ttl, false);
      var wait: Step<V> := Wait(ttl - 1);
      after := [wait];
      s' := Apply(Apply(s, Publish(1, true)), wait);
      assert [wait][1..] == [];
    } else {
      s, before := OverwrittenBefore(delay, key, first, second, ttl, true);
      s', after := BackfilledLate(delay, Apply(s, Publish(1, true)), key, v);
    }
    RunSplit(delay, Apply(s, Publish(1, true)), after, [step]);
    assert [step][1..] == [];
  }

  // ---------- Availability

  /** The entry is what Redis holds for the key, no Set is about to replace it, and whatever else is held of the key is
      older. */
  ghost predicate Current<V(!new)>(delay: nat, s: Nodes<V>, key: string, e: Entry<Stamped<V>>) {
    && key in s.l2 && s.l2[key] == e && e.value.id < s.writes
    && (forall i :: CanPublish(delay, s, i) ==> s.sets[i].key != key)
    && (forall v :: Holds(s, key, v) ==> v == e.value || v.id < e.value.id)
  }

  /** The key is left alone: it is neither written nor lost by Redis. */
  predicate Spares<V>(step: Step<V>, key: string) {
    (step.Write? || step.Evict?) ==> step.key != key
  }

  lemma StaysCurrent<V(!new)>(delay: nat, s: Nodes<V>, step: Step<V>, key: string, e: Entry<Stamped<V>>)
    requires Current(delay, s, key, e) && Enabled(delay, s, step) && Spares(step, key)
    ensures Current(delay, Apply(s, step), key, e)
  {
    var s' := Apply(s, step);
    forall v | Holds(s', key, v)
      ensures v == e.value || v.id < e.value.id
    {
      Provenance(s, step, key, v);
    }
    forall i | CanPublish(delay, s', i)
      ensures s'.sets[i].key != key
    {
      SetsChange(s, step, i);
    }
  }

  lemma {:induction false} RunStaysCurrent<V(!new)>(delay: nat, s: Nodes<V>, steps: seq<Step<V>>, key: string,
                                                    e: Entry<Stamped<V>>)
    requires Current(delay, s, key, e) && Legal(delay, s, steps) && forall step :: step in steps ==> Spares(step, key)
    ensures Current(delay, Run(s, steps), key, e)
    decreases |steps|
  {
    if steps == [] {
    } else {
      assert steps[0] in steps;
      StaysCurrent(delay, s, steps[0], key, e);
      RunStaysCurrent(delay, Apply(s, steps[0]), steps[1..], key, e);
    }
  }

  /** Until it expires, the last value written for a key, once it has reached Redis, is found there by every Get that
      asks; a node returns this value or one that is older, and only this value if it is settled (as
      WriterIsUpToDateIff says of the writer). */
  lemma WrittenIsServed<V(!new)>(delay: nat, start: int, before: seq<Step<V>>, key: string, after: seq<Step<V>>,
                                 step: Step<V>, node: nat)
    requires Legal(delay, Start(start), before)
    requires var s := Run(Start(start), before);
             && key in s.l2 && Current(delay, s, key, s.l2[key])
             && Legal(delay, s, after + [step]) && (forall step :: step in after ==> Spares(step, key))
             && Live(s.l2[key], Run(s, after).now)
    ensures var s := Run(Start(start), before);
            var s' := Run(s, after);
            var v, returned := s.l2[key].value, Returned(s', step, node, key);
            && Lookup(s'.l2, key, s'.now) == Some(v)
            && (returned.Some? ==> returned.value == v || returned.value.id < v.id)
            && (returned.Some? && Settled(delay, s, node, key, v.id) ==> returned.value == v)
  {
    var s := Run(Start(start), before);
    var s', e := Run(s, after), s.l2[key];
    RunIsGood(delay, Start<V>(start), before);
    RunSplit(delay, s, after, [step]);
    RunStaysCurrent(delay, s, after, key, e);
    if Returned(s', step, node, key).Some? {
      ReturnedIsHeld(s', step, node, key);
      if Settled(delay, s, node, key, e.value.id) {
        SettledIsUpToDate(delay, s, node, key, e.value.id);
      }
    }
  }
}
