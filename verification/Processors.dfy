/**
 The budget processors of several nodes over one table of tenant rows (cmd/gateway/main.go starts one on every node).

 A processor is that of Budget, with its flushes taken apart: the pending costs are taken out, and then written to the
 rows one by one, while the other processors do the same. A processor does one thing at a time.
 */
module Processors {
  import opened Wrappers
  import B = Budget

  type Costs = map<string, real>

  datatype State = State(
    pending: map<nat, Costs>,
    updates: map<nat, Costs>,   // what a flush under way has not written yet
    spent: map<string, int>)

  datatype Act =
    | Consume(node: nat, event: B.Event)
    | Swap(node: nat)                              // a flush begins
    | Pay(node: nat, tenant: string, fails: bool)  // and updates one row

  function Of(costs: map<nat, Costs>, node: nat): Costs {
    if node in costs then costs[node] else map[]
  }

  predicate Enabled(s: State, a: Act) {
    match a
    case Consume(node, _) => Of(s.updates, node) == map[]
    case Swap(node) => Of(s.updates, node) == map[]
    case Pay(node, tenant, _) => tenant in Of(s.updates, node)
  }

  function Apply(s: State, a: Act): State {
    match a
    case Consume(node, e) =>
      var own := Of(s.pending, node);
      s.(pending := s.pending[node := own[e.tenant := B.Pending(own, e.tenant) + e.cost]])
    case Swap(node) => s.(pending := s.pending[node := map[]], updates := s.updates[node := Of(s.pending, node)])
    case Pay(node, tenant, fails) =>
      var own := Of(s.updates, node);
      s.(updates := s.updates[node := own - {tenant}],
         spent := if !fails && tenant in s.spent then
                    s.spent[tenant := s.spent[tenant] + B.Trunc(B.Pending(own, tenant))]
                  else s.spent)
  }

  predicate Legal(s: State, acts: seq<Act>)
    decreases |acts|
  {
    acts == [] || (Enabled(s, acts[0]) && Legal(Apply(s, acts[0]), acts[1..]))
  }

  function Run(s: State, acts: seq<Act>): State
    decreases |acts|
  {
    if acts == [] then s else Run(Apply(s, acts[0]), acts[1..])
  }

  // ---------- Without interference it is the processor of Budget

  /** What one processor sees: its own pending costs, and the rows. */
  function Ledger(s: State, node: nat): B.Ledger {
    B.Ledger(Of(s.pending, node), s.spent)
  }

  function Pays(node: nat, order: seq<string>, failed: set<string>): seq<Act> {
    if order == [] then [] else [Pay(node, order[0], order[0] in failed)] + Pays(node, order[1..], failed)
  }

  function Tenants(order: seq<string>): (tenants: set<string>)
    ensures forall t :: t in tenants <==> t in order
  {
    if order == [] then {} else {order[0]} + Tenants(order[1..])
  }

  predicate NoRepeats(order: seq<string>) {
    order == [] || (order[0] !in order[1..] && NoRepeats(order[1..]))
  }

  lemma UpdatedOnce(spent: map<string, int>, updates: Costs, t: string, rest: set<string>, failed: set<string>)
    requires t in updates && t !in rest
    ensures var paid := if t !in failed && t in spent then spent[t := spent[t] + B.Trunc(updates[t])] else spent;
            B.Updated(paid, updates - {t}, rest, failed) == B.Updated(spent, updates, {t} + rest, failed)
  {
  }

  /** These rows have been updated by the node's flush, and nothing else has changed. */
  ghost predicate Paid(s: State, s': State, node: nat, done: set<string>, failed: set<string>) {
    && s'.pending == s.pending && s'.spent == B.Updated(s.spent, Of(s.updates, node), done, failed)
    && Of(s'.updates, node) == Of(s.updates, node) - done
    && forall n :: n != node ==> Of(s'.updates, n) == Of(s.updates, n)
  }

  lemma PaidOneMore(s: State, s': State, node: nat, t: string, rest: set<string>, failed: set<string>)
    requires t in Of(s.updates, node) && t !in rest && Paid(Apply(s, Pay(node, t, t in failed)), s', node, rest, failed)
    ensures Paid(s, s', node, {t} + rest, failed)
  {
    var updates := Of(s.updates, node);
    UpdatedOnce(s.spent, updates, t, rest, failed);
    assert updates - {t} - rest == updates - ({t} + rest);
  }

  lemma {:induction false} PaysAreUpdates(s: State, node: nat, order: seq<string>, failed: set<string>)
    requires NoRepeats(order) && Tenants(order) <= Of(s.updates, node).Keys
    ensures var acts := Pays(node, order, failed);
            Legal(s, acts) && Paid(s, Run(s, acts), node, Tenants(order), failed)
    decreases |order|
  {
    if order == [] {
      assert B.Updated(s.spent, Of(s.updates, node), {}, failed) == s.spent;
    } else {
      var t, rest := order[0], order[1..];
      var s' := Apply(s, Pay(node, t, t in failed));
      assert t in Tenants(order) && Of(s'.updates, node).Keys == Of(s.updates, node).Keys - {t};
      PaysAreUpdates(s', node, rest, failed);
      PaidOneMore(s, Run(s', Pays(node, rest, failed)), node, t, Tenants(rest), failed);
      PayFirst(s, node, order, failed);
    }
  }

  lemma PayFirst(s: State, node: nat, order: seq<string>, failed: set<string>)
    requires order != [] && order[0] in Of(s.updates, node)
    requires var pay := Pay(node, order[0], order[0] in failed); Legal(Apply(s, pay), Pays(node, order[1..], failed))
    ensures var pay := Pay(node, order[0], order[0] in failed);
            && Legal(s, Pays(node, order, failed))
            && Run(s, Pays(node, order, failed)) == Run(Apply(s, pay), Pays(node, order[1..], failed))
  {
    assert Pays(node, order, failed)[1..] == Pays(node, order[1..], failed);
  }

  /** A flush that nothing comes between does what Flush of one processor does, in whatever order it updates the rows.
      */
  lemma FlushIsSteps(s: State, node: nat, order: seq<string>, failed: set<string>)
    requires Of(s.updates, node) == map[] && NoRepeats(order) && Tenants(order) == Of(s.pending, node).Keys
    ensures var acts := [Swap(node)] + Pays(node, order, failed);
            && Legal(s, acts) && Ledger(Run(s, acts), node) == B.FlushLedger(Ledger(s, node), failed)
            && Of(Run(s, acts).updates, node) == map[]
            && forall n :: n != node ==>
                 Of(Run(s, acts).pending, n) == Of(s.pending, n) && Of(Run(s, acts).updates, n) == Of(s.updates, n)
  {
    var s' := Apply(s, Swap(node));
    PaysAreUpdates(s', node, order, failed);
    assert ([Swap(node)] + Pays(node, order, failed))[1..] == Pays(node, order, failed);
  }

  // ---------- Conservation

  /** What a processor holds of a tenant's costs. */
  function Held(s: State, node: nat, tenant: string): real {
    B.Pending(Of(s.pending, node), tenant) + B.Pending(Of(s.updates, node), tenant)
  }

  /** What the first n processors hold. */
  function AllHeld(s: State, n: nat, tenant: string): real {
    if n == 0 then 0.0 else AllHeld(s, n - 1, tenant) + Held(s, n - 1, tenant)
  }

  function Due(a: Act, tenant: string): real {
    if a.Consume? && a.event.tenant == tenant then a.event.cost else 0.0
  }

  predicate Writes(a: Act, tenant: string) {
    a.Pay? && a.tenant == tenant && !a.fails
  }

  function Drop(s: State, a: Act, tenant: string): real {
    if a.Pay? && a.tenant == tenant && a.fails then B.Pending(Of(s.updates, a.node), tenant) else 0.0
  }

  /** The cost of a tenant's events that have been consumed. */
  function Cost(acts: seq<Act>, tenant: string): real {
    if acts == [] then 0.0
    else Due(acts[0], tenant) + Cost(acts[1..], tenant)
  }

  /** The number of successful updates of the tenant's row. */
  function Updates(acts: seq<Act>, tenant: string): nat {
    if acts == [] then 0
    else (if Writes(acts[0], tenant) then 1 else 0) + Updates(acts[1..], tenant)
  }

  /** The costs whose update failed: they are not retried. */
  function Dropped(s: State, acts: seq<Act>, tenant: string): real
    decreases |acts|
  {
    if acts == [] then 0.0
    else Drop(s, acts[0], tenant) + Dropped(Apply(s, acts[0]), acts[1..], tenant)
  }

  /** What has been lost of a tenant's costs to truncation: everything that came in and is neither held by a processor,
      nor in the tenant's row, nor dropped. */
  function Truncated(n: nat, s: State, acts: seq<Act>, tenant: string): real
    requires tenant in s.spent
  {
    RowSurvives(s, acts, tenant);
    var s' := Run(s, acts);
    AllHeld(s, n, tenant) + Cost(acts, tenant) - AllHeld(s', n, tenant)
    - (s'.spent[tenant] - s.spent[tenant]) as real - Dropped(s, acts, tenant)
  }

  lemma {:induction false} RowSurvives(s: State, acts: seq<Act>, tenant: string)
    requires tenant in s.spent
    ensures tenant in Run(s, acts).spent
    decreases |acts|
  {
    if acts == [] {
    } else {
      RowSurvives(Apply(s, acts[0]), acts[1..], tenant);
    }
  }

  /** Nothing negative is held, and no cost is negative. */
  ghost predicate NonNegative(s: State) {
    forall node :: NoneNegative(Of(s.pending, node)) && NoneNegative(Of(s.updates, node))
  }

  predicate NoneNegative(costs: Costs) {
    forall t :: t in costs ==> costs[t] >= 0.0
  }

  ghost predicate Charging(s: State, acts: seq<Act>) {
    NonNegative(s) && forall a :: a in acts && a.Consume? ==> a.event.cost >= 0.0
  }

  lemma StaysNonNegative(s: State, a: Act)
    requires NonNegative(s) && (a.Consume? ==> a.event.cost >= 0.0)
    ensures NonNegative(Apply(s, a))
    ensures Apply(s, a).spent.Keys == s.spent.Keys && forall t :: t in s.spent ==> s.spent[t] <= Apply(s, a).spent[t]
  {
    var s' := Apply(s, a);
    forall node
      ensures NoneNegative(Of(s'.pending, node)) && NoneNegative(Of(s'.updates, node))
    {
      assert NoneNegative(Of(s.pending, node)) && NoneNegative(Of(s.updates, node));
    }
    assert NoneNegative(Of(s.updates, a.node));
  }

  lemma {:induction false} OneHolder(s: State, s': State, n: nat, node: nat, tenant: string)
    requires forall m :: m != node ==> Held(s', m, tenant) == Held(s, m, tenant)
    ensures AllHeld(s', n, tenant) - AllHeld(s, n, tenant)
            == if node < n then Held(s', node, tenant) - Held(s, node, tenant) else 0.0
  {
    if n == 0 {
    } else {
      OneHolder(s, s', n - 1, node, tenant);
    }
  }

  /** The part of Truncated that one act accounts for. */
  function Loss(s: State, a: Act, tenant: string): real
    requires tenant in s.spent
  {
    var s' := Apply(s, a);
    Held(s, a.node, tenant) + Due(a, tenant) - Held(s', a.node, tenant)
    - (s'.spent[tenant] - s.spent[tenant]) as real - Drop(s, a, tenant)
  }

  lemma LossOfAnUpdate(s: State, a: Act, tenant: string)
    requires Enabled(s, a) && tenant in s.spent
    ensures !Writes(a, tenant) ==> Loss(s, a, tenant) == 0.0
    ensures -1.0 < Loss(s, a, tenant) < 1.0
    ensures NonNegative(s) ==> Loss(s, a, tenant) >= 0.0
  {
    if NonNegative(s) {
      assert NoneNegative(Of(s.updates, a.node));
    }
  }

  /** Conservation: over any run of n processors, a tenant's costs are held by a processor, in its row, dropped by
      failed updates, or less than one cent a successful update. With costs that are never negative, only ever too
      little is charged. */
  lemma {:induction false} Conservation(n: nat, s: State, acts: seq<Act>, tenant: string)
    requires tenant in s.spent && Legal(s, acts) && forall a :: a in acts ==> a.node < n
    ensures var k := Updates(acts, tenant) as real; var lost := Truncated(n, s, acts, tenant);
            (k == 0.0 ==> lost == 0.0) && (k > 0.0 ==> -k < lost < k) && (Charging(s, acts) ==> lost >= 0.0)
    decreases |acts|
  {
    if acts == [] {
    } else {
      var a := acts[0];
      var s' := Apply(s, a);
      assert a in acts;
      RowSurvives(s, acts, tenant);
      Conservation(n, s', acts[1..], tenant);
      if Charging(s, acts) {
        StaysNonNegative(s, a);
      }
      LossOfAnUpdate(s, a, tenant);
      OneHolder(s, s', n, a.node, tenant);
      assert Truncated(n, s, acts, tenant) == Loss(s, a, tenant) + Truncated(n, s', acts[1..], tenant);
    }
  }

  // ---------- Never too much

  lemma {:induction false} NothingNegative(s: State, acts: seq<Act>, tenant: string, n: nat)
    requires Charging(s, acts)
    ensures AllHeld(Run(s, acts), n, tenant) >= 0.0 && Dropped(s, acts, tenant) >= 0.0
    decreases |acts|, n
  {
    if acts != [] {
      assert acts[0] in acts;
      StaysNonNegative(s, acts[0]);
      NothingNegative(Apply(s, acts[0]), acts[1..], tenant, n);
    } else if n > 0 {
      NothingNegative(s, acts, tenant, n - 1);
    } else {
    }
  }

  /** Processors that have not begun. */
  predicate Idle(s: State) {
    s.pending == map[] && s.updates == map[]
  }

  lemma {:induction false} IdleHoldsNothing(s: State, n: nat, tenant: string)
    requires Idle(s)
    ensures AllHeld(s, n, tenant) == 0.0
  {
    if n == 0 {
    } else {
      IdleHoldsNothing(s, n - 1, tenant);
    }
  }

  /** However many processors there are, a row never shows more than it did at the start and the cost of the events
      they have consumed. */
  lemma NeverOvercharged(s: State, acts: seq<Act>, tenant: string)
    requires Idle(s) && Legal(s, acts) && Charging(s, acts) && tenant in s.spent
    ensures tenant in Run(s, acts).spent
    ensures Run(s, acts).spent[tenant] as real <= s.spent[tenant] as real + Cost(acts, tenant)
  {
    var nodes := set a | a in acts :: a.node;
    var n := Unused(nodes);
    assert forall a :: a in acts ==> a.node in nodes;
    RowSurvives(s, acts, tenant);
    IdleHoldsNothing(s, n, tenant);
    Conservation(n, s, acts, tenant);
    NothingNegative(s, acts, tenant, n);
  }
}
