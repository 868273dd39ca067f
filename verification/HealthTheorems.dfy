/**
 How fast the error rate moves: exact counts of consecutive outcomes, and what spaced-out errors can do.
 */
module HealthTheorems {
  import opened Health

  datatype Outcome = Succeeded(latency: int) | Failed | Forced

  function Record(m: Metrics, o: Outcome): Metrics {
    match o
    case Succeeded(latency) => Success(m, latency)
    case Failed => Error(m)
    case Forced => Force(m)
  }

  function After(m: Metrics, trace: seq<Outcome>): Metrics {
    if trace == [] then m else Record(After(m, trace[..|trace| - 1]), trace[|trace| - 1])
  }

  /** (1 - ALPHA)^n */
  function Fade(n: nat): real {
    if n == 0 then 1.0 else 0.9 * Fade(n - 1)
  }

  predicate AllSucceeded(trace: seq<Outcome>) {
    forall o :: o in trace ==> o.Succeeded?
  }

  predicate AllFailed(trace: seq<Outcome>) {
    forall o :: o in trace ==> o.Failed?
  }

  /** What an outcome adds to the rate `age` outcomes later. */
  function Weight(o: Outcome, age: nat): real {
    if o.Succeeded? then 0.0 else 0.1 * Fade(age)
  }

  function Weighted(trace: seq<Outcome>): real {
    if trace == [] then 0.0 else Weight(trace[0], |trace| - 1) + Weighted(trace[1..])
  }

  lemma {:induction false} WeightedSnoc(trace: seq<Outcome>, o: Outcome)
    ensures Weighted(trace + [o]) == 0.9 * Weighted(trace) + Weight(o, 0)
    decreases |trace|
  {
    if trace == [] {
      assert [o][1..] == [];
    } else {
      assert (trace + [o])[1..] == trace[1..] + [o];
      WeightedSnoc(trace[1..], o);
    }
  }

  lemma FadeProduct(n: nat, r: real)
    requires n > 0
    ensures Fade(n) * r == 0.9 * (Fade(n - 1) * r)
  {
  }

  lemma RecordedRate(m: Metrics, o: Outcome)
    requires !o.Forced?
    ensures Record(m, o).errorRate == 0.9 * m.errorRate + Weight(o, 0)
  {
    assert Fade(0) == 1.0;
  }

  /** What is left of a rate n outcomes later. */
  function Faded(n: nat, rate: real): real {
    if n == 0 then rate else 0.9 * Faded(n - 1, rate)
  }

  lemma {:induction false} FadedIsFade(n: nat, rate: real)
    ensures Faded(n, rate) == Fade(n) * rate
  {
    if n == 0 {
    } else {
      FadedIsFade(n - 1, rate);
      FadeProduct(n, rate);
    }
  }

  lemma {:induction false} WeightedAndFaded(m: Metrics, trace: seq<Outcome>)
    requires Forced !in trace
    ensures After(m, trace).errorRate == Weighted(trace) + Faded(|trace|, m.errorRate)
    decreases |trace|
  {
    if trace == [] {
    } else {
      var n := |trace| - 1;
      var before, last := trace[..n], trace[n];
      assert trace == before + [last] && last in trace;
      WeightedAndFaded(m, before);
      WeightedSnoc(before, last);
      RecordedRate(After(m, before), last);
    }
  }

  /** Closed form: the rate is the sum of the errors weighted by their age, plus what is left of the rate before. */
  lemma ClosedForm(m: Metrics, trace: seq<Outcome>)
    requires Forced !in trace
    ensures After(m, trace).errorRate == Weighted(trace) + Fade(|trace|) * m.errorRate
  {
    WeightedAndFaded(m, trace);
    FadedIsFade(|trace|, m.errorRate);
  }

  lemma {:induction false} AfterSplit(m: Metrics, xs: seq<Outcome>, ys: seq<Outcome>)
    ensures After(m, xs + ys) == After(After(m, xs), ys)
    decreases |ys|
  {
    if ys == [] {
      assert xs + ys == xs;
    } else {
      var n := |ys| - 1;
      assert (xs + ys)[..|xs| + n] == xs + ys[..n];
      AfterSplit(m, xs, ys[..n]);
    }
  }

  /** A forced failure makes what came before it irrelevant: the closed form starts over from a rate of 1. */
  lemma ForcedStartsOver(m: Metrics, before: seq<Outcome>, trace: seq<Outcome>)
    requires Forced !in trace
    ensures After(m, before + [Forced] + trace).errorRate == Weighted(trace) + Fade(|trace|)
  {
    AfterSplit(m, before + [Forced], trace);
    assert (before + [Forced])[..|before|] == before;
    ClosedForm(After(m, before + [Forced]), trace);
  }

  /** The rate is a rate. */
  lemma {:induction false} RateIsARate(m: Metrics, trace: seq<Outcome>)
    requires 0.0 <= m.errorRate <= 1.0
    ensures 0.0 <= After(m, trace).errorRate <= 1.0
    decreases |trace|
  {
    if trace == [] {
    } else {
      RateIsARate(m, trace[..|trace| - 1]);
    }
  }

  lemma {:induction false} Successes(m: Metrics, trace: seq<Outcome>)
    requires AllSucceeded(trace)
    ensures After(m, trace).errorRate == Fade(|trace|) * m.errorRate
    decreases |trace|
  {
    if trace == [] {
    } else {
      Successes(m, trace[..|trace| - 1]);
      FadeProduct(|trace|, m.errorRate);
      assert trace[|trace| - 1] in trace;
    }
  }

  lemma {:induction false} Failures(m: Metrics, trace: seq<Outcome>)
    requires AllFailed(trace)
    ensures After(m, trace).errorRate == 1.0 - Fade(|trace|) * (1.0 - m.errorRate)
    decreases |trace|
  {
    if trace == [] {
    } else {
      Failures(m, trace[..|trace| - 1]);
      FadeProduct(|trace|, 1.0 - m.errorRate);
      assert trace[|trace| - 1] in trace;
    }
  }

  lemma {:induction false} FadeFalls(m: nat, n: nat)
    requires m <= n
    ensures 0.0 < Fade(n) <= Fade(m) <= 1.0
    decreases n
  {
    if m < n {
      FadeFalls(m, n - 1);
    } else if n > 0 {
      FadeFalls(n - 1, n - 1);
    }
  }

  lemma FadeValues()
    ensures Fade(6) == 0.531441 && Fade(7) == 0.4782969
    ensures 0.2 < Fade(15) && Fade(16) <= 0.2
  {
    assert Fade(3) == 0.729;
    assert Fade(6) == 0.531441;
    assert Fade(9) == 0.387420489;
    assert Fade(12) == 0.282429536481;
    assert Fade(15) == 0.205891132094649;
  }

  /** n consecutive errors make every provider Unhealthy, whatever happened before, iff n is at least 7. */
  lemma ErrorsToUnhealthy(n: nat)
    ensures (forall m: Metrics, trace: seq<Outcome> ::
               0.0 <= m.errorRate <= 1.0 && AllFailed(trace) && |trace| == n ==> StateOf(After(m, trace)).Unhealthy?)
            <==> n >= 7
  {
    FadeValues();
    if n >= 7 {
      FadeFalls(7, n);
      forall m: Metrics, trace: seq<Outcome> | 0.0 <= m.errorRate <= 1.0 && AllFailed(trace) && |trace| == n
        ensures StateOf(After(m, trace)).Unhealthy?
      {
        Failures(m, trace);
        Scale(Fade(n), 1.0 - m.errorRate);
      }
    } else {
      FadeFalls(n, 6);
      var trace := seq(n, _ => Failed);
      Failures(FRESH, trace);
      assert !StateOf(After(FRESH, trace)).Unhealthy?;
    }
  }

  /** n consecutive successes make every provider leave Unhealthy iff n is at least 7. */
  lemma SuccessesToLeave(n: nat)
    ensures (forall m: Metrics, trace: seq<Outcome> ::
               0.0 <= m.errorRate <= 1.0 && AllSucceeded(trace) && |trace| == n ==> !StateOf(After(m, trace)).Unhealthy?)
            <==> n >= 7
  {
    FadeValues();
    if n >= 7 {
      FadeFalls(7, n);
      forall m: Metrics, trace: seq<Outcome> | 0.0 <= m.errorRate <= 1.0 && AllSucceeded(trace) && |trace| == n
        ensures !StateOf(After(m, trace)).Unhealthy?
      {
        Successes(m, trace);
        Scale(Fade(n), m.errorRate);
      }
    } else {
      FadeFalls(n, 6);
      var trace := seq(n, _ => Succeeded(0));
      Successes(Force(FRESH), trace);
      assert StateOf(After(Force(FRESH), trace)).Unhealthy?;
    }
  }

  /** n consecutive successes bring every error rate down to where only the latency can degrade a provider iff n
      is at least 16. */
  lemma SuccessesToHealthy(n: nat)
    ensures (forall m: Metrics, trace: seq<Outcome> ::
               0.0 <= m.errorRate <= 1.0 && AllSucceeded(trace) && |trace| == n ==> After(m, trace).errorRate <= 0.2)
            <==> n >= 16
  {
    FadeValues();
    if n >= 16 {
      FadeFalls(16, n);
      forall m: Metrics, trace: seq<Outcome> | 0.0 <= m.errorRate <= 1.0 && AllSucceeded(trace) && |trace| == n
        ensures After(m, trace).errorRate <= 0.2
      {
        Successes(m, trace);
        Scale(Fade(n), m.errorRate);
      }
    } else {
      FadeFalls(n, 15);
      var trace := seq(n, _ => Succeeded(0));
      Successes(Force(FRESH), trace);
      assert After(Force(FRESH), trace).errorRate > 0.2;
    }
  }

  lemma Scale(x: real, y: real)
    requires 0.0 <= x && 0.0 <= y <= 1.0
    ensures 0.0 <= x * y <= x
  {
  }

  // ---------- Latency

  /** The samples are successes of between lo and hi milliseconds, and errors. */
  predicate Within(lo: int, hi: int, trace: seq<Outcome>) {
    forall o :: o in trace && o.Succeeded? ==> AtLeast(lo, o.latency) && AtMost(hi, o.latency)
  }

  /** The whole milliseconds of the latency, which is in nanoseconds, are at least these; fractions count towards zero.
      */
  predicate AtLeast(lo: int, latency: int) {
    if lo > 0 then lo * 1_000_000 <= latency else (lo - 1) * 1_000_000 < latency
  }

  predicate AtMost(hi: int, latency: int) {
    if hi < 0 then latency <= hi * 1_000_000 else latency < (hi + 1) * 1_000_000
  }

  lemma WholeMilliseconds(lo: int, hi: int, latency: int)
    ensures AtLeast(lo, latency) <==> lo <= Milliseconds(latency)
    ensures AtMost(hi, latency) <==> Milliseconds(latency) <= hi
  {
  }

  /** From the first success on the latency is an average of the samples: never below the least nor above the
      greatest, and errors do not move it. Samples below a millisecond are no exception, although after them the next
      one counts as the first. */
  lemma {:induction false} LatencyIsAnAverage(trace: seq<Outcome>, lo: int, hi: int)
    requires Within(lo, hi, trace)
    ensures var latency := After(FRESH, trace).latency;
            if exists o :: o in trace && o.Succeeded? then lo as real <= latency <= hi as real else latency == 0.0
    decreases |trace|
  {
    if trace == [] {
    } else {
      var n := |trace| - 1;
      var before, last := trace[..n], trace[n];
      assert trace == before + [last] && last in trace;
      LatencyIsAnAverage(before, lo, hi);
      if last.Succeeded? {
        WholeMilliseconds(lo, hi, last.latency);
      }
      assert forall o :: o in trace <==> o in before || o == last;
    }
  }

  /** No latency is negative. */
  predicate Measurable(trace: seq<Outcome>) {
    forall o :: o in trace && o.Succeeded? ==> o.latency >= 0
  }

  /** The samples: the whole milliseconds of each success. */
  function Samples(trace: seq<Outcome>): seq<int> {
    if trace == [] then []
    else
      var last := trace[|trace| - 1];
      Samples(trace[..|trace| - 1]) + if last.Succeeded? then [last.latency / 1_000_000] else []
  }

  /** The samples from the first positive one on. */
  function Measured(samples: seq<int>): seq<int> {
    if samples == [] || samples[0] > 0 then samples else Measured(samples[1..])
  }

  /** Each sample with a tenth of its value, faded by those after it. */
  function Blend(samples: seq<int>): real {
    if samples == [] then 0.0 else 0.1 * Fade(|samples| - 1) * samples[0] as real + Blend(samples[1..])
  }

  lemma {:induction false} BlendSnoc(samples: seq<int>, x: int)
    ensures Blend(samples + [x]) == 0.9 * Blend(samples) + 0.1 * x as real
    decreases |samples|
  {
    if samples == [] {
      assert [x][1..] == [] && Fade(0) == 1.0;
    } else {
      assert (samples + [x])[1..] == samples[1..] + [x];
      BlendSnoc(samples[1..], x);
      FadeProduct(|samples|, 0.1 * samples[0] as real);
    }
  }

  lemma {:induction false} MeasuredSnoc(samples: seq<int>, x: int)
    ensures Measured(samples + [x])
            == if Measured(samples) != [] then Measured(samples) + [x] else if x > 0 then [x] else []
    decreases |samples|
  {
    if samples == [] {
      assert [x][1..] == [];
    } else {
      assert (samples + [x])[1..] == samples[1..] + [x];
      MeasuredSnoc(samples[1..], x);
    }
  }

  lemma {:induction false} FirstIsPositive(samples: seq<int>)
    ensures Measured(samples) != [] ==> Measured(samples)[0] > 0
    decreases |samples|
  {
    if samples != [] {
      FirstIsPositive(samples[1..]);
    } else {
    }
  }

  /** The latency that a first sample and those after it leave. */
  function Latency(first: real, later: seq<int>): real {
    Fade(|later|) * first + Blend(later)
  }

  lemma LatencySnoc(first: real, later: seq<int>, x: int)
    ensures Latency(first, later + [x]) == 0.9 * Latency(first, later) + 0.1 * x as real
  {
    BlendSnoc(later, x);
    FadeProduct(|later| + 1, first);
  }

  lemma {:induction false} LatencyIsPositive(first: real, later: seq<int>)
    requires first > 0.0 && forall x :: x in later ==> x >= 0
    ensures Latency(first, later) > 0.0
    decreases |later|
  {
    if later == [] {
      assert Fade(0) == 1.0;
    } else {
      var n := |later| - 1;
      var before, last := later[..n], later[n];
      assert later == before + [last] && last in later && forall x :: x in before ==> x in later;
      LatencyIsPositive(first, before);
      LatencySnoc(first, before, last);
    }
  }

  lemma {:induction false} SamplesAreNotNegative(trace: seq<Outcome>)
    requires Measurable(trace)
    ensures forall x :: x in Samples(trace) ==> x >= 0
    decreases |trace|
  {
    if trace == [] {
    } else {
      assert trace[|trace| - 1] in trace;
      SamplesAreNotNegative(trace[..|trace| - 1]);
    }
  }

  lemma {:induction false} MeasuredAreSamples(samples: seq<int>)
    ensures forall x :: x in Measured(samples) ==> x in samples
    decreases |samples|
  {
    if samples != [] {
      MeasuredAreSamples(samples[1..]);
    } else {
    }
  }

  /** What a success does to a latency. */
  lemma SampleBlends(m: Metrics, o: Outcome)
    requires o.Succeeded? ==> o.latency >= 0
    ensures Record(m, o).latency
            == if !o.Succeeded? then m.latency
               else if m.latency == 0.0 then (o.latency / 1_000_000) as real
               else 0.9 * m.latency + 0.1 * (o.latency / 1_000_000) as real
  {
  }

  /** Closed form of the latency: with n samples after the first positive one, that one fades by 0.9 to the n, and each
      later one comes in with a tenth of its value, faded by 0.9 for every sample after it. Errors and forced failures
      leave no mark. */
  lemma {:induction false} LatencyClosedForm(m: Metrics, trace: seq<Outcome>)
    requires m.latency == 0.0 && Measurable(trace)
    ensures var samples := Measured(Samples(trace));
            After(m, trace).latency == if samples == [] then 0.0 else Latency(samples[0] as real, samples[1..])
    decreases |trace|
  {
    if trace == [] {
    } else {
      var n := |trace| - 1;
      var before, last := trace[..n], trace[n];
      var samples := Measured(Samples(before));
      assert last in trace && forall o :: o in before ==> o in trace;
      LatencyClosedForm(m, before);
      SampleBlends(After(m, before), last);
      if last.Succeeded? {
        var x := last.latency / 1_000_000;
        MeasuredSnoc(Samples(before), x);
        assert Samples(trace) == Samples(before) + [x] && x >= 0;
        if samples == [] {
          assert [x][1..] == [] && Fade(0) == 1.0;
        } else {
          SamplesAreNotNegative(before);
          MeasuredAreSamples(Samples(before));
          assert forall y :: y in samples[1..] ==> y in samples;
          FirstIsPositive(Samples(before));
          LatencyIsPositive(samples[0] as real, samples[1..]);
          LatencySnoc(samples[0] as real, samples[1..], x);
          assert (samples + [x])[1..] == samples[1..] + [x];
        }
      } else {
        assert Samples(trace) == Samples(before);
      }
    }
  }

  lemma {:induction false} SlowSamples(m: Metrics, trace: seq<Outcome>)
    requires m.latency > 0.0 && forall o :: o in trace ==> o == Succeeded(10_000_000_000)
    ensures After(m, trace).latency == 10_000.0 - Faded(|trace|, 10_000.0 - m.latency)
    ensures After(m, trace).latency > 0.0
    decreases |trace|
  {
    if trace == [] {
    } else {
      var n := |trace| - 1;
      assert trace[n] in trace && forall o :: o in trace[..n] ==> o in trace;
      SlowSamples(m, trace[..n]);
      SampleBlends(After(m, trace[..n]), trace[n]);
    }
  }

  /** A provider with a latency of 100 milliseconds and no errors is Degraded by n samples of ten seconds iff n is at
      least 7, and Healthy before. */
  lemma SlowdownShows(n: nat)
    ensures var m := After(Metrics(100.0, 0.0), seq(n, _ => Succeeded(10_000_000_000)));
            StateOf(m) == if n >= 7 then Degraded else Healthy
  {
    var trace := seq(n, _ => Succeeded(10_000_000_000));
    SlowSamples(Metrics(100.0, 0.0), trace);
    FadedIsFade(n, 9_900.0);
    Successes(Metrics(100.0, 0.0), trace);
    FadeValues();
    if n >= 7 {
      FadeFalls(7, n);
    } else {
      FadeFalls(n, 6);
    }
  }

  // ---------- The thresholds

  /** Successes with samples up to `most` milliseconds. */
  predicate Quick(trace: seq<Outcome>, most: real) {
    forall o :: o in trace ==> o.Succeeded? && o.latency >= 0 && (o.latency / 1_000_000) as real <= most
  }

  lemma {:induction false} StaysQuick(m: Metrics, trace: seq<Outcome>, most: real)
    requires m.latency <= most && Quick(trace, most)
    ensures After(m, trace).latency <= most
    decreases |trace|
  {
    if trace == [] {
    } else {
      var n := |trace| - 1;
      assert trace[n] in trace && forall o :: o in trace[..n] ==> o in trace;
      StaysQuick(m, trace[..n], most);
      SampleBlends(After(m, trace[..n]), trace[n]);
    }
  }

  lemma SuccessesLower(m: Metrics, trace: seq<Outcome>)
    requires m.errorRate >= 0.0 && AllSucceeded(trace)
    ensures 0.0 <= After(m, trace).errorRate <= m.errorRate
  {
    Successes(m, trace);
    FadeFalls(0, |trace|);
    Scale(m.errorRate, Fade(|trace|));
  }

  /** The bounds on rate and latency within which a provider is Healthy, and stays so as long as it succeeds within
      them, are a rate of 0.2 and a latency of five seconds. */
  lemma HealthyIsKeptIff(rate: real, latency: real)
    requires rate >= 0.0 && latency >= 0.0
    ensures (forall m: Metrics, trace ::
               0.0 <= m.errorRate <= rate && m.latency <= latency && Quick(trace, latency)
               ==> StateOf(After(m, trace)) == Healthy)
            <==> rate <= 0.2 && latency <= 5000.0
  {
    if rate <= 0.2 && latency <= 5000.0 {
      forall m: Metrics, trace | 0.0 <= m.errorRate <= rate && m.latency <= latency && Quick(trace, latency)
        ensures StateOf(After(m, trace)) == Healthy
      {
        StaysQuick(m, trace, latency);
        SuccessesLower(m, trace);
      }
    } else {
      var m := Metrics(latency, rate);
      assert After(m, []) == m && StateOf(m) != Healthy && Quick([], latency);
    }
  }

  /** The greatest rate at which a provider is not Unhealthy, and does not become so as long as it succeeds, is 0.5. */
  lemma UnhealthyIsAvoidedIff(rate: real)
    requires rate >= 0.0
    ensures (forall m: Metrics, trace ::
               0.0 <= m.errorRate <= rate && AllSucceeded(trace) ==> StateOf(After(m, trace)) != Unhealthy)
            <==> rate <= 0.5
  {
    if rate <= 0.5 {
      forall m: Metrics, trace | 0.0 <= m.errorRate <= rate && AllSucceeded(trace)
        ensures StateOf(After(m, trace)) != Unhealthy
      {
        SuccessesLower(m, trace);
      }
    } else {
      var m := Metrics(0.0, rate);
      assert After(m, []) == m && StateOf(m) == Unhealthy && AllSucceeded([]);
    }
  }

  // ---------- Spaced-out errors

  /** How many successes there have been since the last error, counting no further than two. */
  function Gap(trace: seq<Outcome>): nat {
    if trace == [] then 2
    else if trace[|trace| - 1].Failed? then 0
    else if Gap(trace[..|trace| - 1]) == 2 then 2
    else Gap(trace[..|trace| - 1]) + 1
  }

  /** Every error but the first comes after at least two successes. */
  predicate Spaced(trace: seq<Outcome>) {
    trace == [] ||
    var before := trace[..|trace| - 1];
    Spaced(before) && !trace[|trace| - 1].Forced? && (trace[|trace| - 1].Failed? ==> Gap(before) == 2)
  }

  const CEILING: real := 100.0 / 271.0

  lemma {:induction false} SpacedErrors(trace: seq<Outcome>)
    requires Spaced(trace)
    ensures 0.0 <= After(FRESH, trace).errorRate <= Fade(Gap(trace)) * CEILING
    ensures Gap(trace) <= 2
    decreases |trace|
  {
    assert Fade(1) == 0.9 && Fade(2) == 0.81;
    if trace == [] {
    } else {
      SpacedErrors(trace[..|trace| - 1]);
    }
  }

  /** With at least two successes between any two errors a provider never becomes Unhealthy, however long the
      trace: the rate stays at or below 100/271. */
  lemma SpacedErrorsNeverQuarantine(trace: seq<Outcome>)
    requires Spaced(trace)
    ensures After(FRESH, trace).errorRate <= CEILING && !StateOf(After(FRESH, trace)).Unhealthy?
  {
    SpacedErrors(trace);
    FadeFalls(0, Gap(trace));
  }

  /** n errors, each but the last followed by one success. */
  function Alternating(n: nat): seq<Outcome>
    requires n >= 1
  {
    if n == 1 then [Failed] else Alternating(n - 1) + [Succeeded(0), Failed]
  }

  /** 0.81^n */
  function Fade2(n: nat): real {
    if n == 0 then 1.0 else 0.81 * Fade2(n - 1)
  }

  lemma {:induction false} AlternatingRate(n: nat)
    requires n >= 1
    ensures After(FRESH, Alternating(n)).errorRate == (1.0 - Fade2(n)) / 1.9
  {
    if n == 1 {
      assert [Failed][..0] == [];
      assert After(FRESH, [Failed]) == Error(FRESH);
      assert Fade2(1) == 0.81;
    } else {
      var before := Alternating(n - 1);
      AlternatingRate(n - 1);
      assert (before + [Succeeded(0), Failed])[..|before| + 1] == before + [Succeeded(0)];
      assert (before + [Succeeded(0)])[..|before|] == before;
    }
  }

  lemma {:induction false} Fade2Falls(m: nat, n: nat)
    requires m <= n
    ensures 0.0 < Fade2(n) <= Fade2(m)
    decreases n
  {
    if m < n {
      Fade2Falls(m, n - 1);
    } else if n > 0 {
      Fade2Falls(n - 1, n - 1);
    }
  }

  lemma Fade2Values()
    ensures Fade2(15) < 0.05 < Fade2(14)
  {
    assert Fade2(2) == 0.6561;
    assert Fade2(4) == 0.43046721;
    assert Fade2(6) == 0.282429536481;
    assert Fade2(8) == 0.1853020188851841;
    assert 0.1215 < Fade2(10) < 0.1216;
    assert 0.0797 < Fade2(12) < 0.0798;
    assert 0.0522 < Fade2(14) < 0.0524;
  }

  /** With only one success between errors the provider becomes Unhealthy at the 15th error, and not before. */
  lemma AlternationQuarantines(n: nat)
    requires n >= 1
    ensures StateOf(After(FRESH, Alternating(n))).Unhealthy? <==> n >= 15
  {
    AlternatingRate(n);
    Fade2Values();
    if n >= 15 {
      Fade2Falls(15, n);
    } else {
      Fade2Falls(n, 14);
    }
  }
}
