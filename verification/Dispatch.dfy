/**
 The loop between the monitor, the selector and the request handlers of internal/router: requests are selected,
 dispatched, and report back when they complete, in any interleaving.
 */
module Dispatch {
  import opened Wrappers
  import opened Health
  import opened Selector
  import T = HealthTheorems

  /** How a dispatched request ends: handler.go records a success or an error, or (a stream that ended or whose
      client left) nothing at all. */
  datatype Ending = Succeeded(latency: int) | Failed | Unrecorded

  datatype Step =
    | Request(allowlist: seq<string>, chosen: Option<Provider>)
    | Complete(name: string, ending: Ending)
    | ForceFailure(name: string)

  /** The monitor, and how many dispatched requests to each provider have not completed. */
  datatype Loop = Loop(metrics: map<string, Metrics>, inFlight: map<string, nat>)

  const START := Loop(map[], map[])

  function InFlight(s: Loop, name: string): nat {
    if name in s.inFlight then s.inFlight[name] else 0
  }

  /** Durations are int64 nanoseconds on a monotonic clock. */
  predicate IsDuration(latency: int) {
    0 <= latency < 0x8000_0000_0000_0000
  }

  ghost predicate Enabled(providers: seq<Provider>, s: Loop, step: Step) {
    match step
    case Request(allowlist, chosen) => Selects(s.metrics, providers, allowlist, chosen)
    case Complete(name, ending) => InFlight(s, name) > 0 && (ending.Succeeded? ==> IsDuration(ending.latency))
    case ForceFailure(_) => true
  }

  function Ended(metrics: map<string, Metrics>, name: string, ending: Ending): map<string, Metrics> {
    match ending
    case Succeeded(latency) => metrics[name := Success(Of(metrics, name), latency)]
    case Failed => metrics[name := Error(Of(metrics, name))]
    case Unrecorded => metrics
  }

  function Apply(providers: seq<Provider>, s: Loop, step: Step): Loop {
    match step
    case Request(allowlist, chosen) =>
      Loop(Seen(s.metrics, providers, allowlist),
           if chosen.Some? then s.inFlight[chosen.value.name := InFlight(s, chosen.value.name) + 1] else s.inFlight)
    case Complete(name, ending) =>
      Loop(Ended(s.metrics, name, ending),
           if InFlight(s, name) > 0 then s.inFlight[name := InFlight(s, name) - 1] else s.inFlight)
    case ForceFailure(name) => s.(metrics := s.metrics[name := Force(Of(s.metrics, name))])
  }

  ghost predicate Legal(providers: seq<Provider>, s: Loop, steps: seq<Step>)
    decreases |steps|
  {
    steps == [] || (Enabled(providers, s, steps[0]) && Legal(providers, Apply(providers, s, steps[0]), steps[1..]))
  }

  function Run(providers: seq<Provider>, s: Loop, steps: seq<Step>): Loop
    decreases |steps|
  {
    if steps == [] then s else Run(providers, Apply(providers, s, steps[0]), steps[1..])
  }

  predicate Dispatches(step: Step, name: string) {
    step.Request? && step.chosen.Some? && step.chosen.value.name == name
  }

  // ---------- What the monitor knows

  /** What a provider's handlers have reported, and the failures forced on it. */
  function Outcomes(steps: seq<Step>, name: string): seq<T.Outcome> {
    if steps == [] then [] else Reported(steps[0], name) + Outcomes(steps[1..], name)
  }

  function Reported(step: Step, name: string): seq<T.Outcome> {
    match step
    case Complete(who, Succeeded(latency)) => if who == name then [T.Succeeded(latency)] else []
    case Complete(who, Failed) => if who == name then [T.Failed] else []
    case ForceFailure(who) => if who == name then [T.Forced] else []
    case _ => []
  }

  /** What a step does to a provider's metrics. */
  lemma OneReport(providers: seq<Provider>, s: Loop, step: Step, name: string)
    ensures Of(Apply(providers, s, step).metrics, name) == T.After(Of(s.metrics, name), Reported(step, name))
  {
    if step.Request? {
      SeenIsInvisible(s.metrics, providers, step.allowlist);
    }
    forall o
      ensures T.After(Of(s.metrics, name), [o]) == T.Record(Of(s.metrics, name), o)
    {
      assert [o][..0] == [];
    }
  }

  lemma {:induction false} MetricsSince(providers: seq<Provider>, s: Loop, steps: seq<Step>, name: string)
    ensures Of(Run(providers, s, steps).metrics, name) == T.After(Of(s.metrics, name), Outcomes(steps, name))
    decreases |steps|
  {
    if steps == [] {
    } else {
      MetricsSince(providers, Apply(providers, s, steps[0]), steps[1..], name);
      OneReport(providers, s, steps[0], name);
      T.AfterSplit(Of(s.metrics, name), Reported(steps[0], name), Outcomes(steps[1..], name));
    }
  }

  /** In every interleaving, a provider's metrics are those of its own history: the latencies of its successes, its
      errors and the failures forced on it, in their order. So the closed forms of rate and latency hold in every run.
      */
  lemma MetricsAreHistory(providers: seq<Provider>, steps: seq<Step>, name: string)
    ensures Of(Run(providers, START, steps).metrics, name) == T.After(FRESH, Outcomes(steps, name))
  {
    MetricsSince(providers, START, steps, name);
  }

  // ---------- Who is dispatched to

  lemma {:induction false} EnabledAt(providers: seq<Provider>, s: Loop, steps: seq<Step>, i: nat)
    requires Legal(providers, s, steps) && i < |steps|
    ensures Enabled(providers, Run(providers, s, steps[..i]), steps[i])
    decreases i
  {
    if i == 0 {
    } else {
      assert steps[..i][1..] == steps[1..][..i - 1];
      EnabledAt(providers, Apply(providers, s, steps[0]), steps[1..], i - 1);
    }
  }

  /** In every run a request is dispatched exactly if some provider is not Unhealthy and on the request's allowlist, or
      the allowlist is empty; and it is dispatched to such a provider. */
  lemma DispatchedIff(providers: seq<Provider>, steps: seq<Step>, i: nat)
    requires Legal(providers, START, steps) && i < |steps| && steps[i].Request?
    ensures var metrics, allowlist := Run(providers, START, steps[..i]).metrics, steps[i].allowlist;
            steps[i].chosen.Some?
            <==> exists p :: p in providers && !StateOf(Of(metrics, p.name)).Unhealthy?
                             && (allowlist == [] || p.name in allowlist)
    ensures var metrics, allowlist := Run(providers, START, steps[..i]).metrics, steps[i].allowlist;
            steps[i].chosen.Some? ==>
              var p := steps[i].chosen.value;
              && p in providers && !StateOf(Of(metrics, p.name)).Unhealthy?
              && (allowlist == [] || p.name in allowlist)
  {
    EnabledAt(providers, START, steps, i);
    SelectionIsArgMin(Run(providers, START, steps[..i]).metrics, providers, steps[i].allowlist, steps[i].chosen);
  }

  // ---------- Quarantine

  /** In every interleaving an Unhealthy provider gets no new request. */
  lemma {:induction false} UnhealthyIsNotDispatched(providers: seq<Provider>, s: Loop, steps: seq<Step>, i: nat,
                                                    name: string)
    requires Legal(providers, s, steps) && i < |steps|
    requires StateOf(Of(Run(providers, s, steps[..i]).metrics, name)).Unhealthy?
    ensures !Dispatches(steps[i], name)
    decreases i
  {
    if i == 0 {
      if steps[0].Request? {
        SelectionIsArgMin(s.metrics, providers, steps[0].allowlist, steps[0].chosen);
      }
    } else {
      assert steps[..i][1..] == steps[1..][..i - 1];
      UnhealthyIsNotDispatched(providers, Apply(providers, s, steps[0]), steps[1..], i - 1, name);
    }
  }

  /** Even if all requests to the provider in flight succeed, it stays Unhealthy. */
  predicate Held(s: Loop, name: string) {
    0.5 < T.Faded(InFlight(s, name), Of(s.metrics, name).errorRate) && Of(s.metrics, name).errorRate <= 1.0
  }

  lemma {:induction false} FadedIsMonotone(n: nat, rate: real, higher: real)
    requires rate <= higher
    ensures T.Faded(n, rate) <= T.Faded(n, higher)
  {
    if n == 0 {
    } else {
      FadedIsMonotone(n - 1, rate, higher);
    }
  }

  lemma {:induction false} FadedFalls(n: nat, rate: real)
    requires T.Faded(n, rate) > 0.5
    ensures rate > 0.5 && T.Faded(n, rate) <= rate
  {
    if n == 0 {
    } else {
      FadedFalls(n - 1, rate);
    }
  }

  lemma HeldIsUnhealthy(s: Loop, name: string)
    requires Held(s, name)
    ensures StateOf(Of(s.metrics, name)).Unhealthy?
  {
    FadedFalls(InFlight(s, name), Of(s.metrics, name).errorRate);
  }

  /** A completion, of any kind, costs the provider no more than a success would. */
  lemma CompletionKeepsHeld(s: Loop, name: string, ending: Ending)
    requires Held(s, name) && InFlight(s, name) > 0
    ensures 0.5 < T.Faded(InFlight(s, name) - 1, Of(Ended(s.metrics, name, ending), name).errorRate)
    ensures Of(Ended(s.metrics, name, ending), name).errorRate <= 1.0
  {
    var n, rate := InFlight(s, name), Of(s.metrics, name).errorRate;
    FadedFalls(n, rate);
    FadedTwice(n - 1, rate);
    FadedIsMonotone(n - 1, 0.9 * rate, Of(Ended(s.metrics, name, ending), name).errorRate);
  }

  /** Every step keeps a held provider held: a completion costs at most a tenth of the rate and one request. */
  lemma StaysHeld(providers: seq<Provider>, s: Loop, step: Step, name: string)
    requires Held(s, name) && Enabled(providers, s, step)
    ensures !Dispatches(step, name) && Held(Apply(providers, s, step), name)
  {
    HeldIsUnhealthy(s, name);
    match step
    case Request(allowlist, chosen) =>
      SelectionIsArgMin(s.metrics, providers, allowlist, chosen);
      SeenIsInvisible(s.metrics, providers, allowlist);
    case Complete(who, ending) =>
      if who == name {
        CompletionKeepsHeld(s, name, ending);
      }
    case ForceFailure(who) =>
      FadedIsMonotone(InFlight(s, name), Of(s.metrics, name).errorRate, 1.0);
  }

  lemma {:induction false} HeldForever(providers: seq<Provider>, s: Loop, steps: seq<Step>, name: string)
    requires Held(s, name) && Legal(providers, s, steps)
    ensures forall step :: step in steps ==> !Dispatches(step, name)
    decreases |steps|
  {
    if steps == [] {
    } else {
      StaysHeld(providers, s, steps[0], name);
      HeldForever(providers, Apply(providers, s, steps[0]), steps[1..], name);
    }
  }

  /** Completions that succeed, one by one. */
  function Recovery(name: string, n: nat): seq<Step> {
    if n == 0 then [] else [Complete(name, Succeeded(0))] + Recovery(name, n - 1)
  }

  lemma {:induction false} Recovers(providers: seq<Provider>, s: Loop, name: string, n: nat, rest: seq<Step>)
    requires InFlight(s, name) >= n
    ensures Of(Run(providers, s, Recovery(name, n)).metrics, name).errorRate
            == T.Faded(n, Of(s.metrics, name).errorRate)
    ensures Legal(providers, Run(providers, s, Recovery(name, n)), rest)
            ==> Legal(providers, s, Recovery(name, n) + rest)
    decreases n
  {
    if n == 0 {
      assert Recovery(name, 0) + rest == rest;
    } else {
      var step := Complete(name, Succeeded(0));
      var s' := Apply(providers, s, step);
      Recovers(providers, s', name, n - 1, rest);
      assert Recovery(name, n)[1..] == Recovery(name, n - 1);
      assert (Recovery(name, n) + rest)[1..] == Recovery(name, n - 1) + rest;
      FadedTwice(n - 1, Of(s.metrics, name).errorRate);
    }
  }

  lemma {:induction false} FadedTwice(n: nat, rate: real)
    ensures T.Faded(n, 0.9 * rate) == T.Faded(n + 1, rate)
  {
    if n == 0 {
    } else {
      FadedTwice(n - 1, rate);
    }
  }

  /** A provider is in quarantine when no continuation dispatches to it again. */
  ghost predicate Quarantined(providers: seq<Provider>, s: Loop, name: string) {
    forall steps: seq<Step> ::
      Legal(providers, s, steps) ==> forall step :: step in steps ==> !Dispatches(step, name)
  }

  /** Enough successful completions talk a provider out of Unhealthy, and then it can be dispatched to. */
  lemma Escapes(providers: seq<Provider>, s: Loop, p: Provider)
    requires p in providers && T.Faded(InFlight(s, p.name), Of(s.metrics, p.name).errorRate) <= 0.5
    ensures !Quarantined(providers, s, p.name)
  {
    var n := InFlight(s, p.name);
    var recovered := Run(providers, s, Recovery(p.name, n));
    Recovers(providers, s, p.name, n, []);
    var again := CanBeChosen(providers, recovered, p);
    Recovers(providers, s, p.name, n, [again]);
    var steps := Recovery(p.name, n) + [again];
    assert steps[|steps| - 1] == again;
    assert again in steps && Dispatches(again, p.name);
  }

  lemma CanBeChosen(providers: seq<Provider>, s: Loop, p: Provider) returns (again: Step)
    requires p in providers && !StateOf(Of(s.metrics, p.name)).Unhealthy?
    ensures Dispatches(again, p.name) && Legal(providers, s, [again])
  {
    again := Request([p.name], Some(p));
    SelectionIsArgMin(s.metrics, providers, [p.name], Some(p));
    assert [again][1..] == [];
  }

  /** The law of quarantine: a provider is out for good exactly when its error rate is so high that it would still be
      Unhealthy if every request to it in flight succeeded. */
  lemma QuarantinedIff(providers: seq<Provider>, s: Loop, p: Provider)
    requires p in providers && Of(s.metrics, p.name).errorRate <= 1.0
    ensures Quarantined(providers, s, p.name)
            <==> T.Faded(InFlight(s, p.name), Of(s.metrics, p.name).errorRate) > 0.5
  {
    if Held(s, p.name) {
      forall steps | Legal(providers, s, steps)
        ensures forall step :: step in steps ==> !Dispatches(step, p.name)
      {
        HeldForever(providers, s, steps, p.name);
      }
    } else {
      Escapes(providers, s, p);
    }
  }

  lemma {:induction false} RatesAreRates(providers: seq<Provider>, s: Loop, steps: seq<Step>, name: string)
    requires 0.0 <= Of(s.metrics, name).errorRate <= 1.0
    ensures 0.0 <= Of(Run(providers, s, steps).metrics, name).errorRate <= 1.0
    decreases |steps|
  {
    if steps == [] {
    } else {
      if steps[0].Request? {
        SeenIsInvisible(s.metrics, providers, steps[0].allowlist);
      }
      RatesAreRates(providers, Apply(providers, s, steps[0]), steps[1..], name);
    }
  }

  /** In particular it holds at every point of every run. */
  lemma QuarantineInRuns(providers: seq<Provider>, steps: seq<Step>, p: Provider)
    requires p in providers && Legal(providers, START, steps)
    ensures var s := Run(providers, START, steps);
            Quarantined(providers, s, p.name)
            <==> T.Faded(InFlight(s, p.name), Of(s.metrics, p.name).errorRate) > 0.5
  {
    RatesAreRates(providers, START, steps, p.name);
    QuarantinedIff(providers, Run(providers, START, steps), p);
  }

  /** A forced failure is for good exactly when at most 6 requests to the provider are in flight: the completions
      of 7 can talk it out of Unhealthy, and nothing else ever can. */
  lemma ForcedFailureIsForGood(providers: seq<Provider>, s: Loop, p: Provider)
    requires p in providers
    ensures Quarantined(providers, Apply(providers, s, ForceFailure(p.name)), p.name) <==> InFlight(s, p.name) <= 6
  {
    var n := InFlight(s, p.name);
    QuarantinedIff(providers, Apply(providers, s, ForceFailure(p.name)), p);
    T.FadedIsFade(n, 1.0);
    T.FadeValues();
    if n <= 6 {
      T.FadeFalls(n, 6);
    } else {
      T.FadeFalls(7, n);
    }
  }

  // ---------- Providers that only stream

  /** The provider's completions do not record a success: of streams none does. */
  predicate NoSuccess(step: Step, name: string) {
    step.Complete? && step.name == name ==> !step.ending.Succeeded?
  }

  /** The provider's recorded errors. */
  function Errors(steps: seq<Step>, name: string): nat {
    if steps == [] then 0
    else (if steps[0] == Complete(name, Failed) then 1 else 0) + Errors(steps[1..], name)
  }

  lemma {:induction false} ErrorsAddUp(providers: seq<Provider>, s: Loop, steps: seq<Step>, name: string)
    requires forall step :: step in steps ==> NoSuccess(step, name) && step != ForceFailure(name)
    ensures 1.0 - Of(Run(providers, s, steps).metrics, name).errorRate
            == T.Faded(Errors(steps, name), 1.0 - Of(s.metrics, name).errorRate)
    decreases |steps|
  {
    if steps == [] {
    } else {
      var s' := Apply(providers, s, steps[0]);
      assert steps[0] in steps && forall step :: step in steps[1..] ==> step in steps;
      ErrorsAddUp(providers, s', steps[1..], name);
      if steps[0].Request? {
        SeenIsInvisible(s.metrics, providers, steps[0].allowlist);
      }
      if steps[0] == Complete(name, Failed) {
        assert 1.0 - Of(s'.metrics, name).errorRate == 0.9 * (1.0 - Of(s.metrics, name).errorRate);
        FadedTwice(Errors(steps[1..], name), 1.0 - Of(s.metrics, name).errorRate);
      }
    }
  }

  /** A provider all of whose requests are streamed, or fail, never has its error rate fade: without a forced failure
      it is Unhealthy exactly from its seventh error on, however many streams end well between, and then for good. */
  lemma StreamErrorsAreForGood(providers: seq<Provider>, before: seq<Step>, after: seq<Step>, name: string)
    requires Legal(providers, START, before + after)
    requires forall step :: step in before + after ==> NoSuccess(step, name) && step != ForceFailure(name)
    ensures StateOf(Of(Run(providers, START, before).metrics, name)).Unhealthy? <==> Errors(before, name) >= 7
    ensures Errors(before, name) >= 7 ==> forall step :: step in after ==> !Dispatches(step, name)
  {
    assert forall step :: step in before ==> step in before + after;
    SevenErrors(providers, before, name);
    if Errors(before, name) >= 7 {
      forall i | 0 <= i < |after|
        ensures !Dispatches(after[i], name)
      {
        var upTo := before + after[..i];
        assert (before + after)[..|before| + i] == upTo && (before + after)[|before| + i] == after[i];
        assert forall step :: step in upTo ==> step in before + after;
        ErrorsSplit(before, after[..i], name);
        SevenErrors(providers, upTo, name);
        UnhealthyIsNotDispatched(providers, START, before + after, |before| + i, name);
      }
    }
  }

  lemma SevenErrors(providers: seq<Provider>, steps: seq<Step>, name: string)
    requires forall step :: step in steps ==> NoSuccess(step, name) && step != ForceFailure(name)
    ensures StateOf(Of(Run(providers, START, steps).metrics, name)).Unhealthy? <==> Errors(steps, name) >= 7
  {
    var n := Errors(steps, name);
    ErrorsAddUp(providers, START, steps, name);
    T.FadedIsFade(n, 1.0);
    T.FadeValues();
    if n >= 7 {
      T.FadeFalls(7, n);
    } else {
      T.FadeFalls(n, 6);
    }
  }

  lemma {:induction false} ErrorsSplit(xs: seq<Step>, ys: seq<Step>, name: string)
    ensures Errors(xs + ys, name) == Errors(xs, name) + Errors(ys, name)
  {
    if xs == [] {
      assert xs + ys == ys;
    } else {
      assert (xs + ys)[1..] == xs[1..] + ys;
      ErrorsSplit(xs[1..], ys, name);
    }
  }

  // ---------- Unexplored providers

  const LONGEST: real := 10_000_000_000_000.0

  /** Measured latencies are whole milliseconds of int64 nanoseconds, or averages of them. */
  ghost predicate Plausible(s: Loop) {
    forall name :: 0.0 <= Of(s.metrics, name).latency < LONGEST
  }

  lemma StaysPlausible(providers: seq<Provider>, s: Loop, step: Step)
    requires Plausible(s) && Enabled(providers, s, step)
    ensures Plausible(Apply(providers, s, step))
  {
    var s' := Apply(providers, s, step);
    forall name
      ensures 0.0 <= Of(s'.metrics, name).latency < LONGEST
    {
      var before := Of(s.metrics, name);
      assert 0.0 <= before.latency < LONGEST;
      match step
      case Request(allowlist, _) =>
        SeenIsInvisible(s.metrics, providers, allowlist);
      case Complete(who, ending) =>
        if who == name && ending.Succeeded? {
          AverageIsPlausible(before, ending.latency);
        }
      case ForceFailure(who) =>
        assert Of(s'.metrics, name).latency == before.latency;
    }
  }

  lemma AverageIsPlausible(m: Metrics, latency: int)
    requires 0.0 <= m.latency < LONGEST && IsDuration(latency)
    ensures 0.0 <= Success(m, latency).latency < LONGEST
  {
    assert 0 <= Milliseconds(latency) < 10_000_000_000_000;
  }

  lemma {:induction false} PlausibleRun(providers: seq<Provider>, s: Loop, steps: seq<Step>, i: nat)
    requires Plausible(s) && Legal(providers, s, steps) && i < |steps|
    ensures Plausible(Run(providers, s, steps[..i])) && Enabled(providers, Run(providers, s, steps[..i]), steps[i])
    decreases i
  {
    if i == 0 {
    } else {
      StaysPlausible(providers, s, steps[0]);
      assert steps[..i][1..] == steps[1..][..i - 1];
      PlausibleRun(providers, Apply(providers, s, steps[0]), steps[1..], i - 1);
    }
  }

  /** In every run of the gateway: explored paths come first. A provider without a latency (never measured, or
      always below a millisecond) is chosen only when no candidate has one, and otherwise the chosen provider's
      latency is the least there is. */
  lemma ExploredFirst(providers: seq<Provider>, steps: seq<Step>, i: nat, q: Provider)
    requires Legal(providers, START, steps) && i < |steps| && steps[i].Request? && steps[i].chosen.Some?
    requires q in providers && (steps[i].allowlist == [] || q.name in steps[i].allowlist)
    requires !StateOf(Of(Run(providers, START, steps[..i]).metrics, q.name)).Unhealthy?
    ensures var metrics := Run(providers, START, steps[..i]).metrics;
            var chosen, other := Of(metrics, steps[i].chosen.value.name).latency, Of(metrics, q.name).latency;
            if chosen == 0.0 then other == 0.0 else other == 0.0 || chosen <= other
  {
    PlausibleRun(providers, START, steps, i);
    var s := Run(providers, START, steps[..i]);
    SelectionIsArgMin(s.metrics, providers, steps[i].allowlist, steps[i].chosen);
    assert LONGEST < MAX_FLOAT;
  }
}
