/**
 The latency-aware selection of internal/router/selector.go: filter, sort by latency with an unstable sort, take
 the head.
 */
module Selector {
  import opened Wrappers
  import opened Health

  /** An upstream provider behind its retry decorator. */
  datatype Provider = Provider(name: string, maxRetries: int)

  /** math.MaxFloat64 = 2^1024 - 2^971, the score of a provider with no latency yet. */
  const MAX_FLOAT: real := 179769313486231570814527423731704356798070567525844996598917476803157260780028538760589558632766878171540458953514382464234321326889464182768467546703537516986049910576551282076245490090389328944075868508455133942304583236903222948165808559332123348274797826204144723168738177180919299881250404026184124858368.0

  function Score(metrics: map<string, Metrics>, name: string): real {
    if Of(metrics, name).latency == 0.0 then MAX_FLOAT else Of(metrics, name).latency
  }

  predicate Allowed(allowlist: seq<string>, name: string) {
    allowlist == [] || name in allowlist
  }

  predicate IsCandidate(metrics: map<string, Metrics>, allowlist: seq<string>, p: Provider) {
    Allowed(allowlist, p.name) && !StateOf(Of(metrics, p.name)).Unhealthy?
  }

  function Candidates(metrics: map<string, Metrics>, providers: seq<Provider>, allowlist: seq<string>): seq<Provider> {
    if providers == [] then []
    else
      var n := |providers| - 1;
      Candidates(metrics, providers[..n], allowlist)
      + if IsCandidate(metrics, allowlist, providers[n]) then [providers[n]] else []
  }

  function Scores(metrics: map<string, Metrics>, ps: seq<Provider>): seq<real> {
    seq(|ps|, i requires 0 <= i < |ps| => Score(metrics, ps[i].name))
  }

  predicate NoInversion(scores: seq<real>) {
    forall i, j :: 0 <= i < j < |scores| ==> !(scores[j] < scores[i])
  }

  /** What an unstable sort may return: the same elements, no pair against the comparator. */
  predicate IsSortOf(metrics: map<string, Metrics>, ps: seq<Provider>, sorted: seq<Provider>) {
    multiset(sorted) == multiset(ps) && NoInversion(Scores(metrics, sorted))
  }

  /** What Select may return. */
  ghost predicate Selects(metrics: map<string, Metrics>, providers: seq<Provider>, allowlist: seq<string>,
                          chosen: Option<Provider>)
  {
    var candidates := Candidates(metrics, providers, allowlist);
    if candidates == [] then chosen.None?
    else chosen.Some? && exists sorted :: IsSortOf(metrics, candidates, sorted) && sorted != [] && sorted[0] == chosen.value
  }

  /** The metrics after a selection: fresh ones have been inserted for the allowed providers that had none. */
  function Seen(metrics: map<string, Metrics>, providers: seq<Provider>, allowlist: seq<string>): map<string, Metrics> {
    if providers == [] then metrics
    else
      var before := Seen(metrics, providers[..|providers| - 1], allowlist);
      var name := providers[|providers| - 1].name;
      if Allowed(allowlist, name) then before[name := Of(before, name)] else before
  }

  /** No reader can tell: every provider's metrics are what they were. */
  lemma {:induction false} SeenIsInvisible(metrics: map<string, Metrics>, providers: seq<Provider>,
                                           allowlist: seq<string>)
    ensures forall name :: Of(Seen(metrics, providers, allowlist), name) == Of(metrics, name)
    decreases |providers|
  {
    if providers == [] {
    } else {
      SeenIsInvisible(metrics, providers[..|providers| - 1], allowlist);
    }
  }

  /** Which providers the monitor knows afterwards: those it knew, and those on the allowlist, or all if that is empty.
      */
  lemma {:induction false} SeenAreAllowed(metrics: map<string, Metrics>, providers: seq<Provider>,
                                          allowlist: seq<string>, name: string)
    ensures name in Seen(metrics, providers, allowlist)
            <==> name in metrics
                 || ((exists p :: p in providers && p.name == name) && (|allowlist| > 0 ==> name in allowlist))
    decreases |providers|
  {
    if providers == [] {
    } else {
      var n := |providers| - 1;
      SeenAreAllowed(metrics, providers[..n], allowlist, name);
      assert providers == providers[..n] + [providers[n]] && providers[n] in providers;
      assert forall p :: p in providers <==> p in providers[..n] || p == providers[n];
    }
  }

  class LatencyAwareSelector {
    const monitor: EWMAMonitor

    constructor (monitor: EWMAMonitor)
      ensures this.monitor == monitor
    {
      this.monitor := monitor;
    }

    method Select(providers: seq<Provider>, allowlist: seq<string>) returns (chosen: Option<Provider>)
      requires monitor.Valid()
      modifies monitor
      ensures monitor.Valid() && fresh(monitor.metrics.Values - old(monitor.metrics.Values))
      ensures monitor.View() == Seen(old(monitor.View()), providers, allowlist)
      ensures Selects(old(monitor.View()), providers, allowlist, chosen)
    {
      ghost var was := monitor.View();
      var candidates: seq<Provider> := [];
      for i := 0 to |providers|
        invariant monitor.Valid() && fresh(monitor.metrics.Values - old(monitor.metrics.Values))
        invariant monitor.View() == Seen(was, providers[..i], allowlist)
        invariant candidates == Candidates(was, providers[..i], allowlist)
        invariant forall p :: p in candidates ==> p.name in monitor.View()
      {
        var p := providers[i];
        assert providers[..i + 1][..i] == providers[..i] && providers[..i + 1][i] == p;
        SeenIsInvisible(was, providers[..i], allowlist);
        var allowed := false;
        if |allowlist| == 0 {
          allowed := true;
        } else {
          for k := 0 to |allowlist|
            invariant p.name !in allowlist[..k] && !allowed
          {
            if allowlist[k] == p.name {
              allowed := true;
              break;
            }
          }
        }
        assert allowed == Allowed(allowlist, p.name);
        if allowed {
          var state := monitor.GetState(p.name);
          if state != Unhealthy {
            candidates := candidates + [p];
          }
        }
      }
      assert providers[..|providers|] == providers;
      SeenIsInvisible(was, providers, allowlist);
      if |candidates| == 0 {
        return None;
      }
      var sorted := Sort(candidates);
      SameScores(was, monitor.View(), sorted);
      assert IsSortOf(was, candidates, sorted);
      assert |multiset(sorted)| == |multiset(candidates)| == |candidates|;
      return Some(sorted[0]);
    }

    /** sort.Slice: callers may rely on no more than this contract. */
    method Sort(ps: seq<Provider>) returns (sorted: seq<Provider>)
      requires monitor.Valid() && forall p :: p in ps ==> p.name in monitor.View()
      modifies monitor
      ensures monitor.Valid() && monitor.metrics == old(monitor.metrics) && monitor.View() == old(monitor.View())
      ensures IsSortOf(monitor.View(), ps, sorted)
    {
      sorted := [];
      ghost var metrics := monitor.View();
      for i := 0 to |ps|
        invariant monitor.metrics == old(monitor.metrics) && monitor.View() == metrics
        invariant IsSortOf(metrics, ps[..i], sorted)
        invariant forall p :: p in sorted ==> p in ps
      {
        assert ps[i] in ps;
        var k := Position(ps[i], sorted);
        assert ps[..i + 1] == ps[..i] + [ps[i]];
        Insert(metrics, sorted[..k], sorted[k..], ps[i]) by {
          assert sorted == sorted[..k] + sorted[k..];
        }
        SplitMultiset(sorted, k, ps[i]);
        sorted := sorted[..k] + [ps[i]] + sorted[k..];
      }
      assert ps[..|ps|] == ps;
    }

    /** Where an element goes, behind all that are not greater at the end. */
    method Position(p: Provider, sorted: seq<Provider>) returns (k: nat)
      requires monitor.Valid() && p.name in monitor.View() && forall q :: q in sorted ==> q.name in monitor.View()
      modifies monitor
      ensures monitor.Valid() && monitor.metrics == old(monitor.metrics) && monitor.View() == old(monitor.View())
      ensures k <= |sorted| && (k > 0 ==> Score(monitor.View(), sorted[k - 1].name) <= Score(monitor.View(), p.name))
      ensures forall j :: k <= j < |sorted| ==> Score(monitor.View(), p.name) < Score(monitor.View(), sorted[j].name)
    {
      k := |sorted|;
      while k > 0
        invariant k <= |sorted|
        invariant monitor.metrics == old(monitor.metrics) && monitor.View() == old(monitor.View())
        invariant forall j :: k <= j < |sorted| ==> Score(monitor.View(), p.name) < Score(monitor.View(), sorted[j].name)
      {
        assert sorted[k - 1] in sorted;
        var less := Less(p, sorted[k - 1]);
        if !less {
          break;
        }
        k := k - 1;
      }
    }

    /** The comparator, on candidates: their metrics are there since their state was read. */
    method Less(p: Provider, q: Provider) returns (less: bool)
      requires monitor.Valid() && p.name in monitor.metrics && q.name in monitor.metrics
      modifies monitor
      ensures monitor.Valid() && monitor.metrics == old(monitor.metrics) && monitor.View() == old(monitor.View())
      ensures less <==> Score(monitor.View(), p.name) < Score(monitor.View(), q.name)
    {
      var li := GetLatency(p.name);
      var lj := GetLatency(q.name);
      less := li < lj;
    }

    /** Reading a latency may insert fresh metrics, too. */
    method GetLatency(name: string) returns (score: real)
      requires monitor.Valid()
      modifies monitor
      ensures monitor.Valid() && fresh(monitor.metrics.Values - old(monitor.metrics.Values))
      ensures monitor.View() == old(monitor.View())[name := Of(old(monitor.View()), name)]
      ensures name in old(monitor.metrics) ==> monitor.metrics == old(monitor.metrics)
      ensures score == Score(old(monitor.View()), name)
    {
      ghost var was := monitor.View();
      var pm := monitor.GetMetrics(name);
      assert pm.View() == monitor.View()[name] == Of(was, name);
      if pm.latencyEWMA == 0.0 {
        return MAX_FLOAT;
      }
      return pm.latencyEWMA;
    }
  }

  lemma Insert(metrics: map<string, Metrics>, before: seq<Provider>, after: seq<Provider>,
               p: Provider)
    requires NoInversion(Scores(metrics, before + after))
    requires before != [] ==> Score(metrics, before[|before| - 1].name) <= Score(metrics, p.name)
    requires forall j :: 0 <= j < |after| ==> Score(metrics, p.name) < Score(metrics, after[j].name)
    ensures NoInversion(Scores(metrics, before + [p] + after))
  {
    JoinScores(metrics, before, after, p);
    InsertScore(Scores(metrics, before), Scores(metrics, after), Score(metrics, p.name));
  }

  lemma JoinScores(metrics: map<string, Metrics>, before: seq<Provider>, after: seq<Provider>,
                   p: Provider)
    ensures Scores(metrics, before + after) == Scores(metrics, before) + Scores(metrics, after)
    ensures Scores(metrics, before + [p] + after)
            == Scores(metrics, before) + [Score(metrics, p.name)] + Scores(metrics, after)
  {
    ScoresSplit(metrics, before, after);
    ScoresSplit(metrics, before + [p], after);
    ScoresSplit(metrics, before, [p]);
    assert Scores(metrics, [p]) == [Score(metrics, p.name)];
  }

  lemma SplitMultiset<X>(xs: seq<X>, k: nat, x: X)
    requires k <= |xs|
    ensures multiset(xs[..k] + [x] + xs[k..]) == multiset(xs) + multiset{x}
  {
    assert xs == xs[..k] + xs[k..];
  }

  lemma ScoresSplit(metrics: map<string, Metrics>, xs: seq<Provider>, ys: seq<Provider>)
    ensures Scores(metrics, xs + ys) == Scores(metrics, xs) + Scores(metrics, ys)
  {
  }

  lemma InsertScore(before: seq<real>, after: seq<real>, x: real)
    requires NoInversion(before + after)
    requires before != [] ==> before[|before| - 1] <= x
    requires forall j :: 0 <= j < |after| ==> x < after[j]
    ensures NoInversion(before + [x] + after)
  {
    var all, result, k := before + after, before + [x] + after, |before|;
    forall i, j | 0 <= i < j < |result|
      ensures !(result[j] < result[i])
    {
      if j < k {
        assert all[i] == before[i] == result[i] && all[j] == before[j] == result[j];
      } else if i < k && j == k {
        assert all[i] == before[i] && all[k - 1] == before[k - 1];
      } else if i < k {
        assert all[i] == before[i] == result[i] && all[j - 1] == after[j - k - 1] == result[j];
      } else if i == k {
        assert result[j] == after[j - k - 1];
      } else {
        assert all[i - 1] == after[i - k - 1] == result[i] && all[j - 1] == after[j - k - 1] == result[j];
      }
    }
  }

  lemma SameScores(m: map<string, Metrics>, m': map<string, Metrics>, ps: seq<Provider>)
    requires forall name :: Of(m', name) == Of(m, name)
    ensures Scores(m, ps) == Scores(m', ps)
  {
  }

  // ---------- Selection is argmin

  lemma {:induction false} CandidatesAre(metrics: map<string, Metrics>, providers: seq<Provider>,
                                         allowlist: seq<string>)
    ensures forall p :: p in Candidates(metrics, providers, allowlist)
                        <==> p in providers && IsCandidate(metrics, allowlist, p)
    decreases |providers|
  {
    if providers == [] {
    } else {
      var n := |providers| - 1;
      CandidatesAre(metrics, providers[..n], allowlist);
      assert providers == providers[..n] + [providers[n]];
    }
  }

  /** A sort that puts one minimal element first. */
  lemma SortWithHead(metrics: map<string, Metrics>, ps: seq<Provider>,
                     p: Provider) returns (sorted: seq<Provider>)
    requires p in ps && forall q :: q in ps ==> Score(metrics, p.name) <= Score(metrics, q.name)
    ensures IsSortOf(metrics, ps, sorted) && sorted != [] && sorted[0] == p
  {
    var i :| 0 <= i < |ps| && ps[i] == p;
    assert ps == ps[..i] + [p] + ps[i + 1..];
    var others := ps[..i] + ps[i + 1..];
    var rest := SortExists(metrics, others);
    sorted := [p] + rest;
    PrependLeast(metrics, others, rest, p);
    SplitMultiset(others, i, p);
    assert others[..i] == ps[..i] && others[i..] == ps[i + 1..];
  }

  lemma PrependLeast(metrics: map<string, Metrics>, ps: seq<Provider>, rest: seq<Provider>,
                     p: Provider)
    requires IsSortOf(metrics, ps, rest)
    requires forall q :: q in ps ==> Score(metrics, p.name) <= Score(metrics, q.name)
    ensures IsSortOf(metrics, [p] + ps, [p] + rest)
  {
    ScoresSplit(metrics, [p], rest);
    var scores := Scores(metrics, rest);
    forall j | 0 <= j < |scores|
      ensures Score(metrics, p.name) <= scores[j]
    {
      assert rest[j] in multiset(rest) && rest[j] in multiset(ps);
    }
  }

  lemma {:induction false} SortExists(metrics: map<string, Metrics>, ps: seq<Provider>) returns (sorted: seq<Provider>)
    ensures IsSortOf(metrics, ps, sorted)
    decreases |ps|
  {
    if ps == [] {
      sorted := [];
    } else {
      var rest := SortExists(metrics, ps[1..]);
      var before, after := Place(metrics, rest, ps[0]);
      Insert(metrics, before, after, ps[0]);
      sorted := before + [ps[0]] + after;
      SameElements(ps, before, after);
    }
  }

  lemma SameElements<X>(xs: seq<X>, before: seq<X>, after: seq<X>)
    requires xs != [] && multiset(before + after) == multiset(xs[1..])
    ensures multiset(before + [xs[0]] + after) == multiset(xs)
  {
    assert xs == [xs[0]] + xs[1..];
  }

  lemma {:induction false} Place(metrics: map<string, Metrics>, sorted: seq<Provider>, p: Provider)
    returns (before: seq<Provider>, after: seq<Provider>)
    ensures sorted == before + after
    ensures before != [] ==> Score(metrics, before[|before| - 1].name) <= Score(metrics, p.name)
    ensures forall j :: 0 <= j < |after| ==> Score(metrics, p.name) < Score(metrics, after[j].name)
    decreases |sorted|
  {
    var n := |sorted| - 1;
    if sorted == [] || Score(metrics, sorted[n].name) <= Score(metrics, p.name) {
      before, after := sorted, [];
    } else {
      before, after := Place(metrics, sorted[..n], p);
      after := after + [sorted[n]];
    }
  }

  /** The head of any sort is a candidate of least score. */
  lemma HeadIsLeast(metrics: map<string, Metrics>, ps: seq<Provider>, sorted: seq<Provider>)
    requires IsSortOf(metrics, ps, sorted) && sorted != []
    ensures sorted[0] in ps
    ensures forall q :: q in ps ==> Score(metrics, sorted[0].name) <= Score(metrics, q.name)
  {
    assert sorted[0] in multiset(sorted);
    forall q | q in ps
      ensures Score(metrics, sorted[0].name) <= Score(metrics, q.name)
    {
      assert q in multiset(ps) && q in multiset(sorted);
      var j :| 0 <= j < |sorted| && sorted[j] == q;
      var scores := Scores(metrics, sorted);
      assert scores[0] == Score(metrics, sorted[0].name) && scores[j] == Score(metrics, q.name);
    }
  }

  /** One of the providers that can serve the request, of least score. An empty allowlist allows every provider. */
  ghost predicate IsLeast(metrics: map<string, Metrics>, providers: seq<Provider>, allowlist: seq<string>,
                          p: Provider)
  {
    && p in providers && CanServe(metrics, allowlist, p.name)
    && forall q :: q in providers && CanServe(metrics, allowlist, q.name)
                   ==> Score(metrics, p.name) <= Score(metrics, q.name)
  }

  predicate CanServe(metrics: map<string, Metrics>, allowlist: seq<string>, name: string) {
    !StateOf(Of(metrics, name)).Unhealthy? && (|allowlist| > 0 ==> name in allowlist)
  }

  /** Whatever unstable sort is used: Select returns nothing exactly when every provider is Unhealthy or not on an
      allowlist that is not empty, and what it can return otherwise is exactly the others of least score. */
  lemma SelectionIsArgMin(metrics: map<string, Metrics>, providers: seq<Provider>,
                          allowlist: seq<string>, chosen: Option<Provider>)
    ensures Selects(metrics, providers, allowlist, chosen) <==>
            match chosen
            case None =>
              forall q :: q in providers ==>
                (StateOf(Of(metrics, q.name)).Unhealthy? || (|allowlist| > 0 && q.name !in allowlist))
            case Some(p) => IsLeast(metrics, providers, allowlist, p)
  {
    var candidates := Candidates(metrics, providers, allowlist);
    CandidatesAre(metrics, providers, allowlist);
    match chosen
    case None =>
      if candidates != [] {
        assert candidates[0] in candidates;
      }
    case Some(p) =>
      if Selects(metrics, providers, allowlist, chosen) {
        var sorted :| IsSortOf(metrics, candidates, sorted) && sorted != [] && sorted[0] == p;
        HeadIsLeast(metrics, candidates, sorted);
      }
      if IsLeast(metrics, providers, allowlist, p) {
        var sorted := SortWithHead(metrics, candidates, p);
      }
  }
}
