/**
 The health monitor of internal/router/router.go: per provider an exponentially weighted error rate and latency.
 The source's float64 values are exact reals here.
 */
module Health {
  import opened Wrappers

  const ALPHA: real := 0.1
  const MILLISECOND: int := 1_000_000

  datatype State = Healthy | Degraded | Unhealthy

  datatype Metrics = Metrics(latency: real, errorRate: real)

  const FRESH := Metrics(0.0, 0.0)

  /** The metrics of a provider: unknown providers have fresh ones. */
  function Of(metrics: map<string, Metrics>, provider: string): Metrics {
    if provider in metrics then metrics[provider] else FRESH
  }

  /** Whole milliseconds of a duration in nanoseconds, truncated towards zero. */
  function Milliseconds(latency: int): int {
    if latency >= 0 then latency / MILLISECOND else -(-latency / MILLISECOND)
  }

  function Success(m: Metrics, latency: int): Metrics {
    var ms := Milliseconds(latency) as real;
    Metrics(if m.latency == 0.0 then ms else ALPHA * ms + (1.0 - ALPHA) * m.latency, (1.0 - ALPHA) * m.errorRate)
  }

  function Error(m: Metrics): Metrics {
    m.(errorRate := ALPHA * 1.0 + (1.0 - ALPHA) * m.errorRate)
  }

  function Force(m: Metrics): Metrics {
    m.(errorRate := 1.0)
  }

  function StateOf(m: Metrics): State {
    if m.errorRate > 0.5 then Unhealthy
    else if m.errorRate > 0.2 || m.latency > 5000.0 then Degraded
    else Healthy
  }

  class ProviderMetrics {
    var latencyEWMA: real
    var errorRate: real

    ghost function View(): Metrics
      reads this
    {
      Metrics(latencyEWMA, errorRate)
    }

    constructor ()
      ensures View() == FRESH
    {
      latencyEWMA, errorRate := 0.0, 0.0;
    }

    /** The update of RecordSuccess, done in place. */
    method Average(latency: int)
      modifies this
      ensures View() == Success(old(View()), latency)
    {
      var ms := Milliseconds(latency) as real;
      if latencyEWMA == 0.0 {
        latencyEWMA := ms;
      } else {
        latencyEWMA := ALPHA * ms + (1.0 - ALPHA) * latencyEWMA;
      }
      errorRate := (1.0 - ALPHA) * errorRate;
    }
  }

  class EWMAMonitor {
    var metrics: map<string, ProviderMetrics>

    /** No two providers share their metrics. */
    ghost predicate Valid()
      reads this
    {
      forall i, j :: i in metrics && j in metrics && i != j ==> metrics[i] != metrics[j]
    }

    ghost function View(): map<string, Metrics>
      reads this, metrics.Values
    {
      map i | i in metrics :: metrics[i].View()
    }

    constructor ()
      ensures Valid() && View() == map[] && metrics == map[]
    {
      metrics := map[];
    }

    /** The provider's metrics, inserted if there are none yet. */
    method GetMetrics(provider: string) returns (pm: ProviderMetrics)
      requires Valid()
      modifies this
      ensures Valid() && fresh(metrics.Values - old(metrics.Values))
      ensures provider in metrics && metrics[provider] == pm
      ensures provider in old(metrics) ==> metrics == old(metrics)
      ensures View() == old(View())[provider := Of(old(View()), provider)]
    {
      ghost var was := View();
      if provider !in metrics {
        var created := new ProviderMetrics();
        metrics := metrics[provider := created];
      }
      pm := metrics[provider];
      assert View() == was[provider := pm.View()];
    }

    method RecordSuccess(provider: string, latency: int)
      requires Valid()
      modifies this, metrics.Values
      ensures Valid() && fresh(metrics.Values - old(metrics.Values))
      ensures View() == old(View())[provider := Success(Of(old(View()), provider), latency)]
    {
      ghost var was := View();
      var pm := GetMetrics(provider);
      assert pm.View() == View()[provider] == Of(was, provider);
      pm.Average(latency);
      assert View() == was[provider := pm.View()];
    }

    method RecordError(provider: string)
      requires Valid()
      modifies this, metrics.Values
      ensures Valid() && fresh(metrics.Values - old(metrics.Values))
      ensures View() == old(View())[provider := Error(Of(old(View()), provider))]
    {
      ghost var was := View();
      var pm := GetMetrics(provider);
      assert pm.View() == View()[provider] == Of(was, provider);
      pm.errorRate := ALPHA * 1.0 + (1.0 - ALPHA) * pm.errorRate;
      assert View() == was[provider := pm.View()];
    }

    method ForceFailure(provider: string)
      requires Valid()
      modifies this, metrics.Values
      ensures Valid() && fresh(metrics.Values - old(metrics.Values))
      ensures View() == old(View())[provider := Force(Of(old(View()), provider))]
    {
      ghost var was := View();
      var pm := GetMetrics(provider);
      assert pm.View() == View()[provider] == Of(was, provider);
      pm.errorRate := 1.0;
      assert View() == was[provider := pm.View()];
    }

    /** Reading a state may insert fresh metrics, which no reader can tell from none. */
    method GetState(provider: string) returns (s: State)
      requires Valid()
      modifies this
      ensures Valid() && fresh(metrics.Values - old(metrics.Values))
      ensures View() == old(View())[provider := Of(old(View()), provider)]
      ensures s == StateOf(Of(View(), provider))
    {
      var pm := GetMetrics(provider);
      assert pm.View() == View()[provider];
      if pm.errorRate > 0.5 {
        return Unhealthy;
      }
      if pm.errorRate > 0.2 || pm.latencyEWMA > 5000.0 {
        return Degraded;
      }
      return Healthy;
    }
  }
}
