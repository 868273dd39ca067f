/**
 The budget processor of internal/db/processor.go and the tenant rows it updates.

 Costs are float64 in the source and exact reals here. An update that fails is not applied; which ones fail is
 up to the environment.
 */
module Budget {
  import opened Wrappers

  datatype Event = Event(tenant: string, cost: real)

  /** The conversion of a float64 to an int: towards zero. */
  function Trunc(x: real): int {
    if x >= 0.0 then x.Floor else -((-x).Floor)
  }

  /** The processor's pending costs, and the spent_cents column of every tenant row. */
  datatype Ledger = Ledger(pending: map<string, real>, spent: map<string, int>)

  function Pending(pending: map<string, real>, tenant: string): real {
    if tenant in pending then pending[tenant] else 0.0
  }

  function Consume(l: Ledger, e: Event): Ledger {
    l.(pending := l.pending[e.tenant := Pending(l.pending, e.tenant) + e.cost])
  }

  /** The rows after the updates of the tenants in `done`: the rows that exist and whose update does not fail gain
      the whole cents of the pending cost. */
  function Updated(spent: map<string, int>, updates: map<string, real>, done: set<string>, failed: set<string>)
    : map<string, int>
  {
    map t | t in spent ::
      if t in done && t in updates && t !in failed then spent[t] + Trunc(updates[t]) else spent[t]
  }

  function FlushLedger(l: Ledger, failed: set<string>): Ledger {
    Ledger(map[], Updated(l.spent, l.pending, l.pending.Keys, failed))
  }

  /** What one turn of the event loop selects. `failed` says which updates fail if the turn flushes. A message is
      None when it cannot be read or decoded. */
  datatype Wakeup =
    | Done(failed: set<string>)
    | Tick(failed: set<string>)
    | Message(event: Option<Event>, failed: set<string>)

  /** What turns do to the ledger. */
  datatype Action = Consumed(event: Event) | Flushed(failed: set<string>)

  function Apply(l: Ledger, a: Action): Ledger {
    match a
    case Consumed(e) => Consume(l, e)
    case Flushed(failed) => FlushLedger(l, failed)
  }

  function Run(l: Ledger, acts: seq<Action>): Ledger
    decreases |acts|
  {
    if acts == [] then l else Run(Apply(l, acts[0]), acts[1..])
  }

  function Turn(l: Ledger, batchSize: nat, w: Wakeup): seq<Action> {
    match w
    case Done(failed) => [Flushed(failed)]
    case Tick(failed) => [Flushed(failed)]
    case Message(None, _) => []
    case Message(Some(e), failed) =>
      if |Consume(l, e).pending| >= batchSize then [Consumed(e), Flushed(failed)] else [Consumed(e)]
  }

  /** What the event loop does to the ledger; it ends with the turn that selects Done. */
  function Loop(l: Ledger, batchSize: nat, ws: seq<Wakeup>): seq<Action>
    decreases |ws|
  {
    if ws == [] then []
    else
      var acts := Turn(l, batchSize, ws[0]);
      if ws[0].Done? then acts else acts + Loop(Run(l, acts), batchSize, ws[1..])
  }

  class TenantRepository {
    var spent: map<string, int>

    constructor (spent: map<string, int>)
      ensures this.spent == spent
    {
      this.spent := spent;
    }

    /** One UPDATE of spent_cents: no error and no effect when there is no such row. */
    method UpdateTenantSpend(tenant: string, cents: int, fails: bool) returns (err: bool)
      modifies this
      ensures err == fails
      ensures spent == if !fails && tenant in old(spent) then old(spent)[tenant := old(spent)[tenant] + cents]
                       else old(spent)
    {
      if !fails && tenant in spent {
        spent := spent[tenant := spent[tenant] + cents];
      }
      return fails;
    }
  }

  class BudgetProcessor {
    const db: TenantRepository
    const batchSize: nat
    var pending: map<string, real>

    ghost function View(): Ledger
      reads this, db
    {
      Ledger(pending, db.spent)
    }

    constructor (db: TenantRepository)
      ensures this.db == db && pending == map[] && batchSize == 1000
    {
      this.db, pending, batchSize := db, map[], 1000;
    }

    /** The event loop, over the turns the environment lets it take; `stopped` when it has been shut down. */
    method Start(ws: seq<Wakeup>) returns (stopped: bool)
      modifies this, db
      ensures View() == Run(old(View()), Loop(old(View()), batchSize, ws))
      ensures stopped <==> exists w :: w in ws && w.Done?
    {
      ghost var was := View();
      for i := 0 to |ws|
        invariant forall w :: w in ws[..i] ==> !w.Done?
        invariant Run(was, Loop(was, batchSize, ws)) == Run(View(), Loop(View(), batchSize, ws[i..]))
      {
        LoopStep(View(), batchSize, ws[i..]);
        assert ws[i..][1..] == ws[i + 1..] && ws[..i + 1] == ws[..i] + [ws[i]];
        Wake(ws[i]);
        if ws[i].Done? {
          return true;
        }
      }
      assert ws[..|ws|] == ws;
      return false;
    }

    /** One turn of the loop. */
    method Wake(w: Wakeup)
      modifies this, db
      ensures View() == Run(old(View()), Turn(old(View()), batchSize, w))
    {
      RunShort(View());
      match w {
        case Done(failed) =>
          Flush(failed);
        case Tick(failed) =>
          Flush(failed);
        case Message(None, _) =>
        case Message(Some(e), failed) =>
          Collect(e, failed);
      }
    }

    /** An event's cost is added, and a full batch flushed. */
    method Collect(e: Event, failed: set<string>)
      modifies this, db
      ensures View() == var l := Consume(old(View()), e); if |l.pending| >= batchSize then FlushLedger(l, failed) else l
    {
      pending := pending[e.tenant := Pending(pending, e.tenant) + e.cost];
      var shouldFlush := |pending| >= batchSize;
      if shouldFlush {
        Flush(failed);
      }
    }

    method Flush(failed: set<string>)
      modifies this, db
      ensures View() == FlushLedger(old(View()), failed)
    {
      if |pending| == 0 {
        assert Updated(db.spent, pending, pending.Keys, failed) == db.spent;
        return;
      }
      var updates := pending;
      pending := map[];
      ghost var spent := db.spent;
      var rest := updates.Keys;
      assert Updated(spent, updates, {}, failed) == spent;
      while rest != {}
        invariant rest <= updates.Keys && pending == map[]
        invariant db.spent == Updated(spent, updates, updates.Keys - rest, failed)
        decreases rest
      {
        var tenant :| tenant in rest;
        var err := db.UpdateTenantSpend(tenant, Trunc(updates[tenant]), tenant in failed);
        rest := rest - {tenant};
      }
    }
  }

  lemma {:induction false} RunSplit(l: Ledger, xs: seq<Action>, ys: seq<Action>)
    ensures Run(l, xs + ys) == Run(Run(l, xs), ys)
    decreases |xs|
  {
    if xs == [] {
      assert xs + ys == ys;
    } else {
      assert (xs + ys)[1..] == xs[1..] + ys;
      RunSplit(Apply(l, xs[0]), xs[1..], ys);
    }
  }

  lemma LoopStep(l: Ledger, batchSize: nat, ws: seq<Wakeup>)
    requires ws != []
    ensures var l' := Run(l, Turn(l, batchSize, ws[0]));
            Run(l, Loop(l, batchSize, ws)) == if ws[0].Done? then l' else Run(l', Loop(l', batchSize, ws[1..]))
  {
    var acts := Turn(l, batchSize, ws[0]);
    RunSplit(l, acts, Loop(Run(l, acts), batchSize, ws[1..]));
  }

  lemma RunShort(l: Ledger)
    ensures forall a :: Run(l, [a]) == Apply(l, a)
    ensures forall a, b :: Run(l, [a, b]) == Apply(Apply(l, a), b)
  {
    forall a
      ensures Run(l, [a]) == Apply(l, a)
    {
      assert [a][1..] == [];
    }
    forall a, b
      ensures Run(l, [a, b]) == Apply(Apply(l, a), b)
    {
      assert [a, b][1..] == [b] && [b][1..] == [];
      assert Run(Apply(l, a), [b]) == Apply(Apply(l, a), b);
    }
  }
}
