/**
 Where a tenant's costs go over any run of the budget processor, and what the flushing schedule can change.
 */
module BudgetTheorems {
  import opened Wrappers
  import opened Budget

  /** The cost of a tenant's events that have been consumed. */
  function Cost(acts: seq<Action>, tenant: string): real {
    if acts == [] then 0.0
    else (if acts[0].Consumed? && acts[0].event.tenant == tenant then acts[0].event.cost else 0.0)
         + Cost(acts[1..], tenant)
  }

  /** Does this action write the tenant's row? */
  predicate Writes(l: Ledger, a: Action, tenant: string) {
    a.Flushed? && tenant in l.pending && tenant !in a.failed
  }

  /** The number of successful updates of the tenant's row. */
  function Updates(l: Ledger, acts: seq<Action>, tenant: string): nat
    decreases |acts|
  {
    if acts == [] then 0
    else (if Writes(l, acts[0], tenant) then 1 else 0) + Updates(Apply(l, acts[0]), acts[1..], tenant)
  }

  /** The cost that was pending when an update of the tenant's row failed: it is not retried. */
  function Dropped(l: Ledger, acts: seq<Action>, tenant: string): real
    decreases |acts|
  {
    if acts == [] then 0.0
    else (if acts[0].Flushed? && tenant in acts[0].failed then Pending(l.pending, tenant) else 0.0)
         + Dropped(Apply(l, acts[0]), acts[1..], tenant)
  }

  /** What has been lost of a tenant's costs to truncation: everything that came in and is neither pending, nor in
      the tenant's row, nor dropped. */
  function Truncated(l: Ledger, acts: seq<Action>, tenant: string): real
    requires tenant in l.spent
  {
    RowSurvives(l, acts, tenant);
    var l' := Run(l, acts);
    Pending(l.pending, tenant) + Cost(acts, tenant) - Pending(l'.pending, tenant)
    - (l'.spent[tenant] - l.spent[tenant]) as real - Dropped(l, acts, tenant)
  }

  lemma {:induction false} RowSurvives(l: Ledger, acts: seq<Action>, tenant: string)
    requires tenant in l.spent
    ensures tenant in Run(l, acts).spent
    decreases |acts|
  {
    if acts == [] {
    } else {
      RowSurvives(Apply(l, acts[0]), acts[1..], tenant);
    }
  }

  /** No cost is negative. */
  predicate Charging(l: Ledger, acts: seq<Action>) {
    && (forall t :: t in l.pending ==> l.pending[t] >= 0.0)
    && (forall a :: a in acts && a.Consumed? ==> a.event.cost >= 0.0)
  }

  lemma ChargingStep(l: Ledger, acts: seq<Action>)
    requires acts != [] && Charging(l, acts)
    ensures Charging(Apply(l, acts[0]), acts[1..])
  {
    assert acts[0] in acts;
  }

  /** No cost is positive. */
  predicate Refunding(l: Ledger, acts: seq<Action>) {
    && (forall t :: t in l.pending ==> l.pending[t] <= 0.0)
    && (forall a :: a in acts && a.Consumed? ==> a.event.cost <= 0.0)
  }

  lemma RefundingStep(l: Ledger, acts: seq<Action>)
    requires acts != [] && Refunding(l, acts)
    ensures Refunding(Apply(l, acts[0]), acts[1..])
  {
    assert acts[0] in acts;
  }

  /** The part of Truncated that one action accounts for. */
  function Loss(l: Ledger, a: Action, tenant: string): real
    requires tenant in l.spent
  {
    var l' := Apply(l, a);
    Pending(l.pending, tenant) + (if a.Consumed? && a.event.tenant == tenant then a.event.cost else 0.0)
    - Pending(l'.pending, tenant) - (l'.spent[tenant] - l.spent[tenant]) as real
    - (if a.Flushed? && tenant in a.failed then Pending(l.pending, tenant) else 0.0)
  }

  lemma LossOfAWrite(l: Ledger, a: Action, tenant: string)
    requires tenant in l.spent
    ensures !Writes(l, a, tenant) ==> Loss(l, a, tenant) == 0.0
    ensures Writes(l, a, tenant) ==> -1.0 < Loss(l, a, tenant) < 1.0
    ensures Pending(l.pending, tenant) >= 0.0 ==> Loss(l, a, tenant) >= 0.0
    ensures Pending(l.pending, tenant) <= 0.0 ==> Loss(l, a, tenant) <= 0.0
  {
  }

  /** Conservation: a tenant's costs are pending, in its row, dropped by failed updates, or less than one cent a
      successful update. With costs that are never negative, only ever too little is charged; with refunds alone, too
      little is given back. */
  lemma {:induction false} Conservation(l: Ledger, acts: seq<Action>, tenant: string)
    requires tenant in l.spent
    ensures var k := Updates(l, acts, tenant) as real; var lost := Truncated(l, acts, tenant);
            && (k == 0.0 ==> lost == 0.0) && (k > 0.0 ==> -k < lost < k)
            && (Charging(l, acts) ==> lost >= 0.0) && (Refunding(l, acts) ==> lost <= 0.0)
    decreases |acts|
  {
    if acts == [] {
    } else {
      var l' := Apply(l, acts[0]);
      RowSurvives(l, acts, tenant);
      Conservation(l', acts[1..], tenant);
      if Charging(l, acts) {
        ChargingStep(l, acts);
      }
      if Refunding(l, acts) {
        RefundingStep(l, acts);
      }
      LossOfAWrite(l, acts[0], tenant);
      assert Truncated(l, acts, tenant) == Loss(l, acts[0], tenant) + Truncated(l', acts[1..], tenant);
    }
  }

  // ---------- The event loop

  predicate Bounded(l: Ledger, batchSize: nat) {
    l.pending == map[] || |l.pending| < batchSize
  }

  /** At the head of the loop, after any number of turns, fewer than a batch of tenants are pending, and after
      shutdown none is. */
  lemma {:induction false} PendingIsBounded(l: Ledger, batchSize: nat, ws: seq<Wakeup>)
    requires Bounded(l, batchSize)
    ensures Bounded(Run(l, Loop(l, batchSize, ws)), batchSize)
    ensures (exists w :: w in ws && w.Done?) ==> Run(l, Loop(l, batchSize, ws)).pending == map[]
    decreases |ws|
  {
    if ws == [] {
    } else {
      LoopStep(l, batchSize, ws);
      RunShort(l);
      if !ws[0].Done? {
        PendingIsBounded(Run(l, Turn(l, batchSize, ws[0])), batchSize, ws[1..]);
      }
    }
  }

  /** What a message costs the tenant. */
  function CostOf(w: Wakeup, tenant: string): real {
    if w.Message? && w.event.Some? && w.event.value.tenant == tenant then w.event.value.cost else 0.0
  }

  /** What the tenant's messages cost, up to the shutdown. */
  function Billed(ws: seq<Wakeup>, tenant: string): real {
    if ws == [] || ws[0].Done? then 0.0 else CostOf(ws[0], tenant) + Billed(ws[1..], tenant)
  }

  lemma {:induction false} CostSplit(xs: seq<Action>, ys: seq<Action>, tenant: string)
    ensures Cost(xs + ys, tenant) == Cost(xs, tenant) + Cost(ys, tenant)
  {
    if xs == [] {
      assert xs + ys == ys;
    } else {
      assert (xs + ys)[1..] == xs[1..] + ys;
      CostSplit(xs[1..], ys, tenant);
    }
  }

  lemma TurnIsBilled(l: Ledger, batchSize: nat, w: Wakeup, tenant: string)
    ensures Cost(Turn(l, batchSize, w), tenant) == CostOf(w, tenant)
  {
    var acts := Turn(l, batchSize, w);
    if |acts| == 2 {
      CostSplit([acts[0]], [acts[1]], tenant);
      assert acts == [acts[0]] + [acts[1]] && [acts[0]][1..] == [] && [acts[1]][1..] == [];
    } else if |acts| == 1 {
      assert acts[1..] == [];
    }
  }

  /** The loop consumes every message once. */
  lemma {:induction false} CostIsBilled(l: Ledger, batchSize: nat, ws: seq<Wakeup>, tenant: string)
    ensures Cost(Loop(l, batchSize, ws), tenant) == Billed(ws, tenant)
    decreases |ws|
  {
    if ws == [] {
    } else {
      var acts := Turn(l, batchSize, ws[0]);
      TurnIsBilled(l, batchSize, ws[0], tenant);
      CostIsBilled(Run(l, acts), batchSize, ws[1..], tenant);
      CostSplit(acts, Loop(Run(l, acts), batchSize, ws[1..]), tenant);
    }
  }

  /** All that the tenant has cost is in its row, up to less than a cent a successful update. */
  predicate Settled(l: Ledger, batchSize: nat, ws: seq<Wakeup>, tenant: string)
    requires tenant in l.spent
  {
    var acts := Loop(l, batchSize, ws);
    var k := Updates(l, acts, tenant) as real;
    && tenant in Run(l, acts).spent
    && var due := Pending(l.pending, tenant) + Billed(ws, tenant);
       var paid := (Run(l, acts).spent[tenant] - l.spent[tenant]) as real;
       due - paid == 0.0 || -k < due - paid < k
  }

  /** Once nothing is pending, and if no update has failed, it is. */
  lemma FlushSettles(l: Ledger, batchSize: nat, ws: seq<Wakeup>, tenant: string)
    requires tenant in l.spent && Run(l, Loop(l, batchSize, ws)).pending == map[]
    requires forall w :: w in ws ==> tenant !in w.failed
    ensures Settled(l, batchSize, ws, tenant)
  {
    var acts := Loop(l, batchSize, ws);
    Conservation(l, acts, tenant);
    RowSurvives(l, acts, tenant);
    LoopFails(l, batchSize, ws, tenant);
    NothingDropped(l, acts, tenant);
    CostIsBilled(l, batchSize, ws, tenant);
  }

  /** Hence after a shutdown with no failed update every event of the tenant is in its row, up to less than a cent
      a successful update. */
  lemma ShutdownSettles(l: Ledger, batchSize: nat, ws: seq<Wakeup>, tenant: string)
    requires tenant in l.spent && Bounded(l, batchSize) && (exists w :: w in ws && w.Done?)
    requires forall w :: w in ws ==> tenant !in w.failed
    ensures Settled(l, batchSize, ws, tenant)
  {
    PendingIsBounded(l, batchSize, ws);
    FlushSettles(l, batchSize, ws, tenant);
  }

  lemma {:induction false} LoopSnoc(l: Ledger, batchSize: nat, ws: seq<Wakeup>, w: Wakeup)
    requires forall v :: v in ws ==> !v.Done?
    ensures var l' := Run(l, Loop(l, batchSize, ws));
            Run(l, Loop(l, batchSize, ws + [w])) == Run(l', Turn(l', batchSize, w))
    decreases |ws|
  {
    if ws == [] {
      LoopStep(l, batchSize, [w]);
      assert ws + [w] == [w] && [w][1..] == [];
    } else {
      assert ws[0] in ws && (ws + [w])[1..] == ws[1..] + [w];
      LoopStep(l, batchSize, ws);
      LoopStep(l, batchSize, ws + [w]);
      LoopSnoc(Run(l, Turn(l, batchSize, ws[0])), batchSize, ws[1..], w);
    }
  }

  /** Right after any tick of a running loop nothing is pending; so if no update has failed, every row shows all that
      its tenant has cost so far, up to less than a cent a successful update. */
  lemma TickSettles(l: Ledger, batchSize: nat, ws: seq<Wakeup>, failed: set<string>)
    requires forall w :: w in ws ==> !w.Done?
    ensures Run(l, Loop(l, batchSize, ws + [Tick(failed)])).pending == map[]
    ensures forall tenant :: tenant in l.spent && (forall w :: w in ws + [Tick(failed)] ==> tenant !in w.failed)
              ==> Settled(l, batchSize, ws + [Tick(failed)], tenant)
  {
    LoopSnoc(l, batchSize, ws, Tick(failed));
    RunShort(Run(l, Loop(l, batchSize, ws)));
    forall tenant | tenant in l.spent && forall w :: w in ws + [Tick(failed)] ==> tenant !in w.failed
      ensures Settled(l, batchSize, ws + [Tick(failed)], tenant)
    {
      FlushSettles(l, batchSize, ws + [Tick(failed)], tenant);
    }
  }

  /** A message that cannot be read leaves everything as it was. */
  lemma UnreadableIsSkipped(l: Ledger, batchSize: nat, ws: seq<Wakeup>, failed: set<string>)
    requires forall w :: w in ws ==> !w.Done?
    ensures Run(l, Loop(l, batchSize, ws + [Message(None, failed)])) == Run(l, Loop(l, batchSize, ws))
  {
    LoopSnoc(l, batchSize, ws, Message(None, failed));
  }

  function TenantOf(w: Wakeup): set<string> {
    if w.Message? && w.event.Some? then {w.event.value.tenant} else {}
  }

  /** The tenants of these messages. */
  function Tenants(ws: seq<Wakeup>): set<string> {
    if ws == [] then {} else TenantOf(ws[0]) + Tenants(ws[1..])
  }

  /** Between ticks the rows are left alone until a batch is full: as long as messages of fewer tenants than that come
      in, their costs add up. */
  lemma BatchesWait(l: Ledger, batchSize: nat, ws: seq<Wakeup>, tenant: string)
    requires (forall w :: w in ws ==> w.Message?) && |l.pending.Keys + Tenants(ws)| < batchSize
    ensures var l' := Run(l, Loop(l, batchSize, ws));
            l'.spent == l.spent && Pending(l'.pending, tenant) == Pending(l.pending, tenant) + Billed(ws, tenant)
  {
    BatchesWaitIn(l, batchSize, ws, l.pending.Keys + Tenants(ws), tenant);
  }

  lemma {:induction false} BatchesWaitIn(l: Ledger, batchSize: nat, ws: seq<Wakeup>, tenants: set<string>,
                                         tenant: string)
    requires forall w :: w in ws ==> w.Message?
    requires l.pending.Keys <= tenants && Tenants(ws) <= tenants && |tenants| < batchSize
    ensures var l' := Run(l, Loop(l, batchSize, ws));
            l'.spent == l.spent && Pending(l'.pending, tenant) == Pending(l.pending, tenant) + Billed(ws, tenant)
    decreases |ws|
  {
    if ws == [] {
    } else {
      var l' := Run(l, Turn(l, batchSize, ws[0]));
      assert ws[0] in ws && forall w :: w in ws[1..] ==> w in ws;
      LoopStep(l, batchSize, ws);
      OneWaits(l, batchSize, ws[0], tenants, tenant);
      BatchesWaitIn(l', batchSize, ws[1..], tenants, tenant);
    }
  }

  lemma OneWaits(l: Ledger, batchSize: nat, w: Wakeup, tenants: set<string>, tenant: string)
    requires w.Message? && l.pending.Keys + TenantOf(w) <= tenants && |tenants| < batchSize
    ensures var l' := Run(l, Turn(l, batchSize, w));
            && l'.spent == l.spent && l'.pending.Keys == l.pending.Keys + TenantOf(w)
            && Pending(l'.pending, tenant) == Pending(l.pending, tenant) + CostOf(w, tenant)
  {
    if w.event.Some? {
      NotFull(l, w.event.value, tenants);
      RunOne(l, Consumed(w.event.value));
    }
  }

  lemma NotFull(l: Ledger, e: Event, tenants: set<string>)
    requires l.pending.Keys + {e.tenant} <= tenants
    ensures Consume(l, e).pending.Keys == l.pending.Keys + {e.tenant} && |Consume(l, e).pending| <= |tenants|
  {
    var keys := Consume(l, e).pending.Keys;
    assert keys == l.pending.Keys + {e.tenant};
    assert tenants == keys + (tenants - keys);
    assert |Consume(l, e).pending| == |keys|;
  }

  lemma RunOne(l: Ledger, a: Action)
    ensures Run(l, [a]) == Apply(l, a)
  {
    RunShort(l);
  }

  lemma {:induction false} LoopFails(l: Ledger, batchSize: nat, ws: seq<Wakeup>, tenant: string)
    requires forall w :: w in ws ==> tenant !in w.failed
    ensures forall a :: a in Loop(l, batchSize, ws) && a.Flushed? ==> tenant !in a.failed
    decreases |ws|
  {
    if ws == [] {
    } else {
      assert ws[0] in ws;
      LoopFails(Run(l, Turn(l, batchSize, ws[0])), batchSize, ws[1..], tenant);
    }
  }

  lemma {:induction false} NothingDropped(l: Ledger, acts: seq<Action>, tenant: string)
    requires forall a :: a in acts && a.Flushed? ==> tenant !in a.failed
    ensures Dropped(l, acts, tenant) == 0.0
    decreases |acts|
  {
    if acts == [] {
    } else {
      assert acts[0] in acts;
      NothingDropped(Apply(l, acts[0]), acts[1..], tenant);
    }
  }

  // ---------- Schedules

  /** `coarse` is `fine` with some flushes left out. */
  predicate Coarser(fine: seq<Action>, coarse: seq<Action>) {
    if fine == [] then coarse == []
    else
      || (coarse != [] && fine[0] == coarse[0] && Coarser(fine[1..], coarse[1..]))
      || (fine[0].Flushed? && Coarser(fine[1..], coarse))
  }

  predicate NoFailures(acts: seq<Action>) {
    forall a :: a in acts && a.Flushed? ==> a.failed == {}
  }

  /** What a ledger is worth to a tenant's account. */
  function Worth(l: Ledger, tenant: string): real
    requires tenant in l.spent
  {
    l.spent[tenant] as real + Pending(l.pending, tenant)
  }

  lemma FlushIsLossy(l: Ledger, tenant: string)
    requires tenant in l.spent && Pending(l.pending, tenant) >= 0.0
    ensures var l' := FlushLedger(l, {});
            Worth(l', tenant) <= Worth(l, tenant) && l'.spent[tenant] == Worth(l, tenant).Floor
  {
  }

  lemma SameAction(f: Ledger, c: Ledger, a: Action, tenant: string)
    requires tenant in f.spent && tenant in c.spent && Worth(f, tenant) <= Worth(c, tenant)
    requires Pending(f.pending, tenant) >= 0.0 && Pending(c.pending, tenant) >= 0.0 && (a.Flushed? ==> a.failed == {})
    ensures Worth(Apply(f, a), tenant) <= Worth(Apply(c, a), tenant)
  {
    if a.Flushed? {
      FlushIsLossy(f, tenant);
      FlushIsLossy(c, tenant);
    }
  }

  /** The induction: the coarser schedule is worth at least as much, so that a flush of both leaves it no less. */
  lemma {:induction false} CoarserIsWorthMore(f: Ledger, c: Ledger, fine: seq<Action>, coarse: seq<Action>,
                                              tenant: string)
    requires Coarser(fine, coarse) && NoFailures(fine) && Charging(f, fine) && Charging(c, coarse)
    requires tenant in f.spent && tenant in c.spent && Worth(f, tenant) <= Worth(c, tenant)
    ensures tenant in Run(f, fine).spent && tenant in Run(c, coarse).spent
    ensures Worth(Run(f, fine), tenant) <= Worth(Run(c, coarse), tenant)
    decreases |fine|
  {
    if fine == [] {
    } else {
      assert fine[0] in fine;
      ChargingStep(f, fine);
      if coarse != [] && fine[0] == coarse[0] && Coarser(fine[1..], coarse[1..]) {
        ChargingStep(c, coarse);
        SameAction(f, c, fine[0], tenant);
        CoarserIsWorthMore(Apply(f, fine[0]), Apply(c, coarse[0]), fine[1..], coarse[1..], tenant);
      } else {
        FlushIsLossy(f, tenant);
        CoarserIsWorthMore(Apply(f, fine[0]), c, fine[1..], coarse, tenant);
      }
    }
  }

  /** A schedule that ends in a flush leaves nothing pending. */
  lemma {:induction false} EndsFlushed(l: Ledger, acts: seq<Action>)
    requires acts != [] && acts[|acts| - 1].Flushed?
    ensures Run(l, acts).pending == map[]
    decreases |acts|
  {
    if |acts| > 1 {
      EndsFlushed(Apply(l, acts[0]), acts[1..]);
    }
  }

  lemma {:induction false} CoarserEnds(fine: seq<Action>, coarse: seq<Action>)
    requires Coarser(fine, coarse) && coarse != [] && coarse[|coarse| - 1].Flushed?
    ensures fine != [] && fine[|fine| - 1].Flushed?
    decreases |fine|
  {
    if coarse != [] && fine[0] == coarse[0] && Coarser(fine[1..], coarse[1..]) {
      if |coarse| > 1 {
        CoarserEnds(fine[1..], coarse[1..]);
      } else {
        OnlyFlushes(fine[1..]);
      }
    } else {
      CoarserEnds(fine[1..], coarse);
    }
  }

  lemma {:induction false} OnlyFlushes(fine: seq<Action>)
    requires Coarser(fine, [])
    ensures forall a :: a in fine ==> a.Flushed?
    decreases |fine|
  {
    if fine == [] {
    } else {
      OnlyFlushes(fine[1..]);
    }
  }

  /** Flushing less often never charges a tenant less: leaving out any flushes but the last of a schedule cannot
      lower what ends up in its row. */
  lemma CoarserChargesMore(l: Ledger, fine: seq<Action>, coarse: seq<Action>, tenant: string)
    requires Coarser(fine, coarse) && NoFailures(fine) && Charging(l, fine) && Charging(l, coarse)
    requires tenant in l.spent && coarse != [] && coarse[|coarse| - 1].Flushed?
    ensures tenant in Run(l, fine).spent && tenant in Run(l, coarse).spent
    ensures Run(l, fine).spent[tenant] <= Run(l, coarse).spent[tenant]
  {
    CoarserIsWorthMore(l, l, fine, coarse, tenant);
    CoarserEnds(fine, coarse);
    EndsFlushed(l, fine);
    EndsFlushed(l, coarse);
  }

  /** Two schedules of the same costs, both ending in a flush and with no failures, charge a tenant amounts that
      differ by less than the larger number of updates. */
  lemma SchedulesAgree(l: Ledger, a: seq<Action>, b: seq<Action>, tenant: string)
    requires tenant in l.spent && Cost(a, tenant) == Cost(b, tenant)
    requires Charging(l, a) && Charging(l, b) && NoFailures(a) && NoFailures(b)
    requires a != [] && a[|a| - 1].Flushed? && b != [] && b[|b| - 1].Flushed?
    ensures tenant in Run(l, a).spent && tenant in Run(l, b).spent
    ensures var x, y := Run(l, a).spent[tenant], Run(l, b).spent[tenant];
            var j, k := Updates(l, a, tenant), Updates(l, b, tenant);
            x == y || (if x > y then x - y < k else y - x < j)
  {
    EndsFlushed(l, a);
    EndsFlushed(l, b);
    Conservation(l, a, tenant);
    Conservation(l, b, tenant);
    RowSurvives(l, a, tenant);
    RowSurvives(l, b, tenant);
    NothingDropped(l, a, tenant);
    NothingDropped(l, b, tenant);
  }
}
