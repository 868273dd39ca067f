/**
 Selection that is not atomic: Select of internal/router/selector.go reads the providers' states one by one and then
 sorts by latencies that it reads anew, while other requests complete. What is left of quarantine then.
 */
module Races {
  import opened Wrappers
  import opened Health
  import opened Selector
  import T = HealthTheorems
  import D = Dispatch

  /** A call of Select that is under way: the candidates it has found so far. */
  datatype Selection = Selection(allowlist: seq<string>, candidates: set<string>)

  datatype Loop = Loop(metrics: map<string, Metrics>, inFlight: map<string, nat>, open: map<nat, Selection>)

  datatype Step =
    | Open(id: nat, allowlist: seq<string>)
    | See(id: nat, name: string)               // the state of one provider is read
    | Choose(id: nat, chosen: Option<string>)  // the sort is over; the latencies it read may have been anything
    | Complete(name: string, ending: D.Ending)
    | ForceFailure(name: string)

  const START := Loop(map[], map[], map[])

  function InFlight(s: Loop, name: string): nat {
    if name in s.inFlight then s.inFlight[name] else 0
  }

  predicate Enabled(s: Loop, step: Step) {
    match step
    case Open(id, _) => id !in s.open
    case See(id, name) => id in s.open && Allowed(s.open[id].allowlist, name)
    case Choose(id, chosen) =>
      id in s.open && if chosen.Some? then chosen.value in s.open[id].candidates else s.open[id].candidates == {}
    case Complete(name, _) => InFlight(s, name) > 0
    case ForceFailure(_) => true
  }

  function Noted(s: Loop, sel: Selection, name: string): Selection {
    if StateOf(Of(s.metrics, name)).Unhealthy? then sel else sel.(candidates := sel.candidates + {name})
  }

  function Apply(s: Loop, step: Step): Loop {
    match step
    case Open(id, allowlist) => s.(open := s.open[id := Selection(allowlist, {})])
    case See(id, name) =>
      if id !in s.open then s
      else s.(metrics := s.metrics[name := Of(s.metrics, name)], open := s.open[id := Noted(s, s.open[id], name)])
    case Choose(id, chosen) =>
      var closed := s.(open := s.open - {id});
      if chosen.None? then closed
      else closed.(inFlight := s.inFlight[chosen.value := InFlight(s, chosen.value) + 1])
    case Complete(name, ending) =>
      s.(metrics := D.Ended(s.metrics, name, ending),
         inFlight := if InFlight(s, name) > 0 then s.inFlight[name := InFlight(s, name) - 1] else s.inFlight)
    case ForceFailure(name) => s.(metrics := s.metrics[name := Force(Of(s.metrics, name))])
  }

  predicate Legal(s: Loop, steps: seq<Step>)
    decreases |steps|
  {
    steps == [] || (Enabled(s, steps[0]) && Legal(Apply(s, steps[0]), steps[1..]))
  }

  function Run(s: Loop, steps: seq<Step>): Loop
    decreases |steps|
  {
    if steps == [] then s else Run(Apply(s, steps[0]), steps[1..])
  }

  predicate Dispatches(step: Step, name: string) {
    step.Choose? && step.chosen == Some(name)
  }

  function Dispatched(steps: seq<Step>, name: string): nat {
    if steps == [] then 0 else (if Dispatches(steps[0], name) then 1 else 0) + Dispatched(steps[1..], name)
  }

  // ---------- Without interference it is the selection of Dispatch

  function Sees(id: nat, providers: seq<Provider>, allowlist: seq<string>): seq<Step> {
    if providers == [] then []
    else
      var n := |providers| - 1;
      Sees(id, providers[..n], allowlist)
      + if Allowed(allowlist, providers[n].name) then [See(id, providers[n].name)] else []
  }

  function Names(ps: seq<Provider>): set<string> {
    set p | p in ps :: p.name
  }

  lemma {:induction false} RunSplit(s: Loop, xs: seq<Step>, ys: seq<Step>)
    ensures Run(s, xs + ys) == Run(Run(s, xs), ys)
    ensures Legal(s, xs + ys) <==> Legal(s, xs) && Legal(Run(s, xs), ys)
    decreases |xs|
  {
    if xs == [] {
      assert xs + ys == ys;
    } else {
      assert (xs + ys)[1..] == xs[1..] + ys;
      RunSplit(Apply(s, xs[0]), xs[1..], ys);
    }
  }

  /** The filter has seen these providers, and nothing else has happened. */
  predicate Filtered(s: Loop, s': Loop, id: nat, providers: seq<Provider>, allowlist: seq<string>) {
    && s'.inFlight == s.inFlight && s'.metrics == Seen(s.metrics, providers, allowlist)
    && s'.open == s.open[id := Selection(allowlist, Names(Candidates(s.metrics, providers, allowlist)))]
  }

  /** If nothing happens in between, the filter inserts the metrics and finds the candidates of the atomic selection.
      */
  lemma {:induction false} FilterIsCandidates(s: Loop, id: nat, providers: seq<Provider>, allowlist: seq<string>)
    requires id in s.open && s.open[id] == Selection(allowlist, {})
    ensures var steps := Sees(id, providers, allowlist);
            Legal(s, steps) && Filtered(s, Run(s, steps), id, providers, allowlist)
    decreases |providers|
  {
    if providers == [] {
      assert Names([]) == {};
    } else {
      var n := |providers| - 1;
      var before, p := Sees(id, providers[..n], allowlist), providers[n];
      FilterIsCandidates(s, id, providers[..n], allowlist);
      if Allowed(allowlist, p.name) {
        LastStep(s, before, See(id, p.name));
        OneMoreSeen(s, Run(s, before), id, providers, allowlist);
      } else {
        assert before + [] == before;
        assert Candidates(s.metrics, providers, allowlist) == Candidates(s.metrics, providers[..n], allowlist);
      }
    }
  }

  /** These are the providers that are not Unhealthy and on the allowlist, or any such, if that is empty. */
  lemma FilterFinds(s: Loop, id: nat, providers: seq<Provider>, allowlist: seq<string>, name: string)
    requires id in s.open && s.open[id] == Selection(allowlist, {})
    ensures var s' := Run(s, Sees(id, providers, allowlist));
            && id in s'.open
            && (name in s'.open[id].candidates
                <==> && !StateOf(Of(s.metrics, name)).Unhealthy? && (allowlist == [] || name in allowlist)
                     && exists p :: p in providers && p.name == name)
  {
    FilterIsCandidates(s, id, providers, allowlist);
    CandidatesAre(s.metrics, providers, allowlist);
  }

  lemma OneMoreSeen(s: Loop, s1: Loop, id: nat, providers: seq<Provider>, allowlist: seq<string>)
    requires providers != [] && Filtered(s, s1, id, providers[..|providers| - 1], allowlist)
    requires Allowed(allowlist, providers[|providers| - 1].name)
    ensures Filtered(s, Apply(s1, See(id, providers[|providers| - 1].name)), id, providers, allowlist)
  {
    var n := |providers| - 1;
    var found, p := Candidates(s.metrics, providers[..n], allowlist), providers[n];
    SeenIsInvisible(s.metrics, providers[..n], allowlist);
    assert Names(found + [p]) == Names(found) + {p.name};
    assert found + [] == found;
  }

  // ---------- What was chosen had been seen

  /** At this point of the run the selection read the provider's state, and it was not Unhealthy. */
  predicate SeenAt(steps: seq<Step>, j: int, id: nat, name: string) {
    0 <= j < |steps| && steps[j] == See(id, name) && !StateOf(Of(Run(START, steps[..j]).metrics, name)).Unhealthy?
  }

  lemma SeenBefore(before: seq<Step>, after: seq<Step>, j: int, id: nat, name: string)
    requires SeenAt(before, j, id, name)
    ensures SeenAt(before + after, j, id, name)
  {
    assert (before + after)[..j] == before[..j];
  }

  lemma JustSeen(before: seq<Step>, last: Step, id: nat, name: string)
    requires var s := Run(START, before); !(id in s.open && name in s.open[id].candidates)
    requires var s := Apply(Run(START, before), last); id in s.open && name in s.open[id].candidates
    ensures SeenAt(before + [last], |before|, id, name)
  {
    assert (before + [last])[..|before|] == before;
  }

  /** Every candidate of a selection under way was read as not Unhealthy at an earlier point of the run. */
  lemma {:induction false} CandidatesWereSeen(steps: seq<Step>, id: nat, name: string)
    requires var s := Run(START, steps); id in s.open && name in s.open[id].candidates
    ensures exists j :: SeenAt(steps, j, id, name)
    decreases |steps|
  {
    if steps == [] {
    } else {
      var n := |steps| - 1;
      var before, last := steps[..n], steps[n];
      assert steps == before + [last];
      LastStep(START, before, last);
      var s := Run(START, before);
      if id in s.open && name in s.open[id].candidates {
        CandidatesWereSeen(before, id, name);
        var j :| SeenAt(before, j, id, name);
        SeenBefore(before, [last], j, id, name);
      } else {
        JustSeen(before, last, id, name);
      }
    }
  }

  lemma LastStep(s: Loop, before: seq<Step>, last: Step)
    ensures Run(s, before + [last]) == Apply(Run(s, before), last)
    ensures Legal(s, before + [last]) <==> Legal(s, before) && Enabled(Run(s, before), last)
  {
    RunSplit(s, before, [last]);
    assert [last][1..] == [];
  }

  /** At this point of the run the selection was opened with this allowlist, and it has not been opened again since. */
  predicate OpenedAt(steps: seq<Step>, k: int, n: int, id: nat, allowlist: seq<string>) {
    && 0 <= k < n <= |steps| && steps[k] == Open(id, allowlist)
    && forall m :: k < m < n ==> !(steps[m].Open? && steps[m].id == id)
  }

  lemma {:induction false} OpenWasOpened(steps: seq<Step>, id: nat)
    requires Legal(START, steps) && id in Run(START, steps).open
    ensures exists k :: OpenedAt(steps, k, |steps|, id, Run(START, steps).open[id].allowlist)
    ensures var own := Run(START, steps).open[id];
            forall name :: name in own.candidates ==> own.allowlist == [] || name in own.allowlist
    decreases |steps|
  {
    if steps == [] {
    } else {
      var n := |steps| - 1;
      var before, last := steps[..n], steps[n];
      assert steps == before + [last];
      LastStep(START, before, last);
      if last.Open? && last.id == id {
        assert OpenedAt(steps, n, |steps|, id, last.allowlist);
      } else {
        OpenWasOpened(before, id);
        var k :| OpenedAt(before, k, n, id, Run(START, before).open[id].allowlist);
        assert OpenedAt(steps, k, |steps|, id, Run(START, before).open[id].allowlist);
      }
    }
  }

  /** In every run, a provider that is dispatched to is on the allowlist of its selection, unless that is empty. */
  lemma DispatchedIsAllowed(steps: seq<Step>, i: nat, name: string)
    requires Legal(START, steps) && i < |steps| && Dispatches(steps[i], name)
    ensures exists k, allowlist ::
              OpenedAt(steps, k, i, steps[i].id, allowlist) && (allowlist == [] || name in allowlist)
  {
    var before, after := steps[..i], steps[i..];
    assert steps == before + after;
    RunSplit(START, before, after);
    OpenWasOpened(before, steps[i].id);
    var allowlist := Run(START, before).open[steps[i].id].allowlist;
    var k :| OpenedAt(before, k, i, steps[i].id, allowlist);
    assert OpenedAt(steps, k, i, steps[i].id, allowlist);
  }

  /** In every run, a provider that is dispatched to was not Unhealthy when its selection read its state. */
  lemma DispatchedWasHealthy(steps: seq<Step>, i: nat, name: string)
    requires Legal(START, steps) && i < |steps| && Dispatches(steps[i], name)
    ensures exists j :: j < i && SeenAt(steps, j, steps[i].id, name)
  {
    var before, after := steps[..i], steps[i..];
    assert steps == before + after;
    assert Enabled(Run(START, before), steps[i]) by {
      RunSplit(START, before, after);
    }
    CandidatesWereSeen(before, steps[i].id, name);
    var j :| SeenAt(before, j, steps[i].id, name);
    SeenBefore(before, after, j, steps[i].id, name);
  }

  /** It may be Unhealthy by the time it is dispatched to: a failure is forced after the filter. */
  lemma TooLate() returns (steps: seq<Step>)
    ensures Legal(START, steps) && |steps| == 4 && Dispatches(steps[3], "p")
    ensures StateOf(Of(Run(START, steps[..3]).metrics, "p")).Unhealthy?
  {
    var open, see, force, choose := Open(0, []), See(0, "p"), ForceFailure("p"), Choose(0, Some("p"));
    steps := [open, see, force, choose];
    var s1 := Apply(START, open);
    var s2 := Apply(s1, see);
    var s3 := Apply(s2, force);
    assert s2.open[0].candidates == {"p"} && Of(s3.metrics, "p").errorRate == 1.0;
    assert steps[1..] == [see, force, choose] && [see, force, choose][1..] == [force, choose];
    assert [force, choose][1..] == [choose] && [choose][1..] == [];
    assert steps[..3] == [open, see, force] && [open, see, force][1..] == [see, force];
    assert [see, force][1..] == [force] && [force][1..] == [];
    assert Legal(s3, [choose]) && Legal(s2, [force, choose]) && Legal(s1, [see, force, choose]);
    assert Run(s2, [force]) == s3 && Run(s1, [see, force]) == s3;
  }

  // ---------- Quarantine

  /** The selections under way that have the provider among their candidates. */
  function Considering(s: Loop, name: string): set<nat> {
    set id | id in s.open && name in s.open[id].candidates
  }

  /** Requests to the provider in flight, and those that selections under way may still send it. */
  function AtRisk(s: Loop, name: string): nat {
    InFlight(s, name) + |Considering(s, name)|
  }

  /** Even if every request that is in flight, or may yet be sent by a selection under way, succeeds, the provider
      stays Unhealthy. */
  predicate Held(s: Loop, name: string) {
    && Of(s.metrics, name).errorRate <= 1.0
    && T.Faded(AtRisk(s, name), Of(s.metrics, name).errorRate) > 0.5
  }

  lemma HeldIsUnhealthy(s: Loop, name: string)
    requires Held(s, name)
    ensures StateOf(Of(s.metrics, name)).Unhealthy?
  {
    D.FadedFalls(AtRisk(s, name), Of(s.metrics, name).errorRate);
  }

  /** Fewer requests at risk, and no lower rate. */
  lemma {:induction false} SaferStill(m: nat, n: nat, rate: real, higher: real)
    requires m <= n && rate <= higher && T.Faded(n, rate) > 0.5
    ensures T.Faded(m, higher) > 0.5
    decreases n
  {
    if m == n {
      D.FadedIsMonotone(n, rate, higher);
    } else {
      D.FadedFalls(n, rate);
      SaferStill(m, n - 1, rate, higher);
    }
  }

  /** What a step does to the selections that consider the provider, if that is Unhealthy. */
  lemma StillConsidering(s: Loop, step: Step, name: string)
    requires Enabled(s, step) && StateOf(Of(s.metrics, name)).Unhealthy?
    ensures Considering(Apply(s, step), name) == Considering(s, name) - if step.Choose? then {step.id} else {}
  {
    var s' := Apply(s, step);
    forall id
      ensures id in Considering(s', name) <==> id in Considering(s, name) && !(step.Choose? && step.id == id)
    {
    }
  }

  /** A dispatch takes one from the selections, and no step adds to what is at risk. */
  lemma RiskDoesNotGrow(s: Loop, step: Step, name: string)
    requires Enabled(s, step) && StateOf(Of(s.metrics, name)).Unhealthy?
    ensures var s' := Apply(s, step);
            && |Considering(s', name)| + (if Dispatches(step, name) then 1 else 0) <= |Considering(s, name)|
            && AtRisk(s', name) + (if step.Complete? && step.name == name then 1 else 0) <= AtRisk(s, name)
  {
    var s' := Apply(s, step);
    StillConsidering(s, step, name);
    if step.Choose? && step.id in Considering(s, name) {
      assert |Considering(s', name)| == |Considering(s, name)| - 1;
    } else {
      assert Considering(s', name) == Considering(s, name);
    }
  }

  /** What a step does to the rate, at worst. */
  lemma RateFadesAtMost(s: Loop, step: Step, name: string)
    requires 0.0 <= Of(s.metrics, name).errorRate <= 1.0
    ensures var rate, rate' := Of(s.metrics, name).errorRate, Of(Apply(s, step).metrics, name).errorRate;
            (if step.Complete? && step.name == name then 0.9 * rate else rate) <= rate' <= 1.0
  {
  }

  lemma StaysHeld(s: Loop, step: Step, name: string)
    requires Held(s, name) && Enabled(s, step)
    ensures Held(Apply(s, step), name)
  {
    var rate, rate' := Of(s.metrics, name).errorRate, Of(Apply(s, step).metrics, name).errorRate;
    var n, m := AtRisk(s, name), AtRisk(Apply(s, step), name);
    HeldIsUnhealthy(s, name);
    RiskDoesNotGrow(s, step, name);
    RateFadesAtMost(s, step, name);
    if step.Complete? && step.name == name {
      D.FadedTwice(n - 1, rate);
      SaferStill(m, n - 1, 0.9 * rate, rate');
    } else {
      SaferStill(m, n, rate, rate');
    }
  }

  /** A held provider is considered by no new selection: however the run goes on, it gets at most the requests of the
      selections that are considering it now. */
  lemma {:induction false} HeldIsQuarantined(s: Loop, steps: seq<Step>, name: string)
    requires Held(s, name) && Legal(s, steps)
    ensures Dispatched(steps, name) <= |Considering(s, name)|
    decreases |steps|
  {
    if steps == [] {
    } else {
      HeldIsUnhealthy(s, name);
      RiskDoesNotGrow(s, steps[0], name);
      StaysHeld(s, steps[0], name);
      HeldIsQuarantined(Apply(s, steps[0]), steps[1..], name);
    }
  }

  // ---------- The exact condition

  /** However the run goes on, the provider gets at most the requests of the selections that are considering it now. */
  ghost predicate Quarantined(s: Loop, name: string) {
    forall steps :: Legal(s, steps) ==> Dispatched(steps, name) <= |Considering(s, name)|
  }

  /** It gets no request at all. */
  ghost predicate Isolated(s: Loop, name: string) {
    forall steps :: Legal(s, steps) ==> Dispatched(steps, name) == 0
  }

  lemma {:induction false} DispatchedSplit(xs: seq<Step>, ys: seq<Step>, name: string)
    ensures Dispatched(xs + ys, name) == Dispatched(xs, name) + Dispatched(ys, name)
  {
    if xs == [] {
      assert xs + ys == ys;
    } else {
      assert (xs + ys)[1..] == xs[1..] + ys;
      DispatchedSplit(xs[1..], ys, name);
    }
  }

  /** Every selection that is considering the provider chooses it. */
  lemma {:induction false} AllChoose(s: Loop, name: string) returns (steps: seq<Step>)
    ensures Legal(s, steps) && Dispatched(steps, name) == |Considering(s, name)|
    ensures var s' := Run(s, steps);
            s'.metrics == s.metrics && InFlight(s', name) == AtRisk(s, name)
    decreases |Considering(s, name)|
  {
    if Considering(s, name) == {} {
      steps := [];
    } else {
      var id :| id in Considering(s, name);
      var choose := Choose(id, Some(name));
      var s' := Apply(s, choose);
      assert Considering(s', name) == Considering(s, name) - {id};
      var rest := AllChoose(s', name);
      steps := [choose] + rest;
      assert steps[1..] == rest;
    }
  }

  /** Every request in flight succeeds. */
  lemma {:induction false} AllSucceed(s: Loop, name: string, n: nat) returns (steps: seq<Step>)
    requires InFlight(s, name) >= n
    ensures Legal(s, steps) && Dispatched(steps, name) == 0
    ensures var s' := Run(s, steps);
            s'.open == s.open && Of(s'.metrics, name).errorRate == T.Faded(n, Of(s.metrics, name).errorRate)
    decreases n
  {
    if n == 0 {
      steps := [];
    } else {
      var complete := Complete(name, D.Succeeded(0));
      var s' := Apply(s, complete);
      var rest := AllSucceed(s', name, n - 1);
      steps := [complete] + rest;
      assert steps[1..] == rest;
      D.FadedTwice(n - 1, Of(s.metrics, name).errorRate);
    }
  }

  /** A new selection finds a provider that is not Unhealthy, and chooses it. */
  lemma ChosenAnew(s: Loop, name: string) returns (steps: seq<Step>)
    requires !StateOf(Of(s.metrics, name)).Unhealthy?
    ensures Legal(s, steps) && Dispatched(steps, name) == 1
  {
    var id := Unused(s.open.Keys);
    var open, see, choose := Open(id, [name]), See(id, name), Choose(id, Some(name));
    steps := [open, see, choose];
    var s1 := Apply(s, open);
    var s2 := Apply(s1, see);
    assert name in s2.open[id].candidates;
    assert steps[1..] == [see, choose] && [see, choose][1..] == [choose] && [choose][1..] == [];
    assert Legal(s2, [choose]) && Legal(s1, [see, choose]);
    assert Dispatched([choose], name) == 1 && Dispatched([see, choose], name) == 1;
  }

  /** If successes can talk a provider that is not held out of Unhealthy, it gets one request more. */
  lemma OneTooMany(s: Loop, name: string) returns (steps: seq<Step>)
    requires T.Faded(AtRisk(s, name), Of(s.metrics, name).errorRate) <= 0.5
    ensures Legal(s, steps) && Dispatched(steps, name) == |Considering(s, name)| + 1
  {
    var chosen := AllChoose(s, name);
    var s1 := Run(s, chosen);
    var over := AllSucceed(s1, name, AtRisk(s, name));
    var s2 := Run(s1, over);
    var again := ChosenAnew(s2, name);
    steps := chosen + (over + again);
    RunSplit(s1, over, again);
    RunSplit(s, chosen, over + again);
    DispatchedSplit(over, again, name);
    DispatchedSplit(chosen, over + again, name);
  }

  /** The law of quarantine under interleaved selections: a provider gets no more requests than there are selections
      considering it exactly if it would stay Unhealthy even if all of these chose it and all its requests succeeded;
      and it gets none at all exactly if, moreover, no selection is considering it. */
  lemma QuarantinedIff(s: Loop, name: string)
    requires Of(s.metrics, name).errorRate <= 1.0
    ensures Quarantined(s, name) <==> Held(s, name)
    ensures Isolated(s, name) <==> Held(s, name) && Considering(s, name) == {}
  {
    var n := |Considering(s, name)|;
    if Held(s, name) {
      forall steps | Legal(s, steps)
        ensures Dispatched(steps, name) <= n
      {
        HeldIsQuarantined(s, steps, name);
      }
    } else {
      var steps := OneTooMany(s, name);
      assert !Quarantined(s, name) && !Isolated(s, name);
    }
    if Considering(s, name) != {} {
      var steps := AllChoose(s, name);
      assert !Isolated(s, name);
    }
  }

  lemma {:induction false} RatesAreRates(s: Loop, steps: seq<Step>, name: string)
    requires 0.0 <= Of(s.metrics, name).errorRate <= 1.0
    ensures 0.0 <= Of(Run(s, steps).metrics, name).errorRate <= 1.0
    decreases |steps|
  {
    if steps == [] {
    } else {
      RateFadesAtMost(s, steps[0], name);
      RatesAreRates(Apply(s, steps[0]), steps[1..], name);
    }
  }

  /** So it is at every point of every run of the gateway. */
  lemma QuarantineInRuns(steps: seq<Step>, name: string)
    requires Legal(START, steps)
    ensures var s := Run(START, steps);
            && (Quarantined(s, name) <==> Held(s, name))
            && (Isolated(s, name) <==> Held(s, name) && Considering(s, name) == {})
  {
    RatesAreRates(START, steps, name);
    QuarantinedIff(Run(START, steps), name);
  }

  /** After a forced failure a provider is in quarantine exactly if at most 6 requests to it were in flight or under
      selection, and isolated exactly if, moreover, all of these were in flight. */
  lemma ForcedFailureUnderRaces(s: Loop, name: string)
    ensures var forced := Apply(s, ForceFailure(name));
            && (Quarantined(forced, name) <==> AtRisk(s, name) <= 6)
            && (Isolated(forced, name) <==> InFlight(s, name) <= 6 && Considering(s, name) == {})
  {
    var n := AtRisk(s, name);
    var forced := Apply(s, ForceFailure(name));
    assert Considering(forced, name) == Considering(s, name);
    QuarantinedIff(forced, name);
    T.FadedIsFade(n, 1.0);
    T.FadeValues();
    if n <= 6 {
      T.FadeFalls(n, 6);
    } else {
      T.FadeFalls(7, n);
    }
  }
}
