/**
 What the limiter promises over whole traces of calls: how much it admits in a window, that no other policy
 admits more, that denied polls leave no trace, and that tenants do not influence one another.
 */
module LimiterTheorems {
  import opened Wrappers
  import opened RateLimit

  /** The verdicts of a tenant's calls, starting from its bucket (None: the tenant is new). */
  function Run(b: Option<Bucket>, calls: seq<Call>): (vs: seq<Verdict>)
    ensures |vs| == |calls|
    decreases |calls|
  {
    if calls == [] then []
    else
      var (b', v) := Allow(b, calls[0]);
      [v] + Run(Some(b'), calls[1..])
  }

  /** The tenant's bucket after those calls. */
  function After(b: Option<Bucket>, calls: seq<Call>): Option<Bucket>
    decreases |calls|
  {
    if calls == [] then b else After(Some(Allow(b, calls[0]).0), calls[1..])
  }

  function Admitted(vs: seq<Verdict>): nat {
    if vs == [] then 0 else (if vs[0].allowed then 1 else 0) + Admitted(vs[1..])
  }

  /** The clock never runs backwards from `t` on. */
  predicate Ordered(t: int, calls: seq<Call>)
    decreases |calls|
  {
    calls == [] || (t <= calls[0].start <= calls[0].now && Ordered(calls[0].now, calls[1..]))
  }

  /** The clock never runs backwards, and a bucket that exists was last refilled before the first call. */
  predicate Timed(b: Option<Bucket>, calls: seq<Call>) {
    calls == [] || Ordered(Opened(b, calls[0].limit, calls[0].start).last, calls)
  }

  /** All calls pass the same limit. */
  predicate Fixed(limit: int, calls: seq<Call>) {
    forall c :: c in calls ==> c.limit == limit
  }

  function EndTime(t: int, calls: seq<Call>): int {
    if calls == [] then t else calls[|calls| - 1].now
  }

  // ---------- Splitting traces

  lemma {:induction false} RunSplit(b: Option<Bucket>, xs: seq<Call>, ys: seq<Call>)
    ensures Run(b, xs + ys) == Run(b, xs) + Run(After(b, xs), ys)
    ensures After(b, xs + ys) == After(After(b, xs), ys)
    decreases |xs|
  {
    if xs == [] {
      assert xs + ys == ys;
    } else {
      assert (xs + ys)[1..] == xs[1..] + ys;
      RunSplit(Some(Allow(b, xs[0]).0), xs[1..], ys);
    }
  }

  lemma {:induction false} OrderedSplit(b: Option<Bucket>, xs: seq<Call>, ys: seq<Call>)
    requires Timed(b, xs + ys)
    ensures Timed(b, xs)
    ensures xs != [] ==> After(b, xs).Some? && After(b, xs).value.last == EndTime(0, xs)
    ensures Timed(After(b, xs), ys)
    decreases |xs|
  {
    if xs == [] {
      assert xs + ys == ys;
    } else {
      assert (xs + ys)[1..] == xs[1..] + ys;
      OrderedSplit(Some(Allow(b, xs[0]).0), xs[1..], ys);
    }
  }

  // ---------- Lazy refill is continuous refill

  /** Earnings never turn negative while the clock moves forwards. */
  lemma Earns(limit: int, from: int, to: int)
    requires limit >= 0 && from <= to
    ensures limit * (to - from) >= 0
  {
  }

  lemma RefillTwice(b: Bucket, limit: int, mid: int, now: int)
    requires limit >= 0 && b.last <= mid <= now
    ensures Refill(Refill(b, limit, mid), limit, now) == Refill(b, limit, now)
  {
    Earns(limit, b.last, mid);
    Earns(limit, mid, now);
    assert limit * (now - b.last) == limit * (mid - b.last) + limit * (now - mid);
  }

  /** A bucket that is refilled, and capped, at each of these times. */
  function Refilled(b: Bucket, limit: int, times: seq<int>): Bucket
    decreases |times|
  {
    if times == [] then b else Refilled(Refill(b, limit, times[0]), limit, times[1..])
  }

  predicate Ascending(from: int, times: seq<int>, to: int)
    decreases |times|
  {
    if times == [] then from <= to else from <= times[0] && Ascending(times[0], times[1..], to)
  }

  /** Refilling at any moments in between changes nothing: a bucket refilled only when it is used holds what a
      bucket refilled and capped as often as one likes holds. */
  lemma {:induction false} RefillIsContinuous(b: Bucket, limit: int, times: seq<int>, now: int)
    requires limit >= 0 && Ascending(b.last, times, now)
    ensures Refill(Refilled(b, limit, times), limit, now) == Refill(b, limit, now) && b.last <= now
    decreases |times|
  {
    if times == [] {
    } else {
      RefillIsContinuous(Refill(b, limit, times[0]), limit, times[1..], now);
      RefillTwice(b, limit, times[0], now);
    }
  }

  // ---------- Window bounds

  /** What the cap has thrown away over a trace. */
  function Overflow(b: Option<Bucket>, calls: seq<Call>): int
    decreases |calls|
  {
    if calls == [] then 0
    else
      var own := Opened(b, calls[0].limit, calls[0].start);
      own.tokens + calls[0].limit * (calls[0].now - own.last) - Refill(own, calls[0].limit, calls[0].now).tokens
      + Overflow(Some(Allow(b, calls[0]).0), calls[1..])
  }

  /** Nothing is created or lost: admissions, the level left and the overflow add up to the level at the start
      and what was earned since. */
  lemma {:induction false} Conservation(b: Bucket, calls: seq<Call>, limit: int)
    requires Fixed(limit, calls)
    ensures After(Some(b), calls).Some? && After(Some(b), calls).value.last == EndTime(b.last, calls)
    ensures TOKEN * Admitted(Run(Some(b), calls)) + After(Some(b), calls).value.tokens + Overflow(Some(b), calls)
            == b.tokens + limit * (EndTime(b.last, calls) - b.last)
    decreases |calls|
  {
    if calls == [] {
    } else {
      var c := calls[0];
      var (b', v) := Allow(Some(b), c);
      var end := EndTime(b'.last, calls[1..]);
      Conservation(b', calls[1..], limit);
      assert c.limit == limit;
      assert limit * (end - b.last) == limit * (c.now - b.last) + limit * (end - c.now);
      assert Run(Some(b), calls)[1..] == Run(Some(b'), calls[1..]);
    }
  }

  /** Admissions are paid for by the level at the start and what was earned since. */
  lemma {:induction false} PaidFor(b: Bucket, calls: seq<Call>, limit: int)
    requires limit >= 0 && Fixed(limit, calls) && Ordered(b.last, calls)
    ensures TOKEN * Admitted(Run(Some(b), calls))
            <= (if b.tokens > 0 then b.tokens else 0) + limit * (EndTime(b.last, calls) - b.last)
    decreases |calls|
  {
    if calls == [] {
    } else {
      var c := calls[0];
      var (b', v) := Allow(Some(b), c);
      var end := EndTime(b'.last, calls[1..]);
      PaidFor(b', calls[1..], limit);
      assert c.limit == limit;
      Earns(limit, b.last, c.now);
      assert limit * (end - b.last) == limit * (c.now - b.last) + limit * (end - c.now);
      assert Run(Some(b), calls)[1..] == Run(Some(b'), calls[1..]);
    }
  }

  /** A new tenant is its first bucket. */
  lemma Creation(calls: seq<Call>, limit: int) returns (b: Bucket)
    requires calls != [] && Fixed(limit, calls)
    ensures b == Bucket(Initial(limit), calls[0].start)
    ensures Run(None, calls) == Run(Some(b), calls) && After(None, calls) == After(Some(b), calls)
    ensures Overflow(None, calls) == Overflow(Some(b), calls)
  {
    b := Bucket(Initial(limit), calls[0].start);
    assert calls[0] in calls;
  }

  /** Ten times the units a new tenant may have spent `time` nanoseconds after its first call: a tenth of its limit
      (or one token, if that is more) and what it has earned since. */
  function TenfoldGrant(limit: int, time: int): int {
    TOKEN * (if limit > 10 then limit else 10) + 10 * (limit * time)
  }

  /** From the creation of its bucket a tenant is admitted at most what it was granted and has earned since. */
  lemma CreationBound(calls: seq<Call>, limit: int)
    requires limit >= 1 && calls != [] && Fixed(limit, calls) && Timed(None, calls)
    ensures 10 * TOKEN * Admitted(Run(None, calls)) <= TenfoldGrant(limit, calls[|calls| - 1].now - calls[0].start)
  {
    var b := Creation(calls, limit);
    PaidFor(b, calls, limit);
    Tenfold(Admitted(Run(None, calls)), limit, limit * (calls[|calls| - 1].now - calls[0].start));
  }

  lemma Tenfold(admitted: nat, limit: int, earned: int)
    requires limit >= 1 && TOKEN * admitted <= Initial(limit) + earned
    ensures 10 * TOKEN * admitted <= TOKEN * (if limit > 10 then limit else 10) + 10 * earned
  {
  }

  /** From any bucket whatever, a trace admits at most L calls and what is earned between its first and its
      last call. */
  lemma TraceBound(b: Option<Bucket>, calls: seq<Call>, limit: int)
    requires limit >= 1 && calls != [] && Fixed(limit, calls) && Timed(b, calls)
    ensures TOKEN * Admitted(Run(b, calls)) <= limit * TOKEN + limit * (calls[|calls| - 1].now - calls[0].now)
  {
    var c := calls[0];
    assert c in calls;
    var (b', v) := Allow(b, c);
    assert Run(b, calls)[1..] == Run(Some(b'), calls[1..]);
    PaidFor(b', calls[1..], limit);
  }

  /** Any contiguous segment of a tenant's trace obeys that bound, whatever came before. */
  lemma SegmentBound(b: Option<Bucket>, calls: seq<Call>, limit: int, i: nat, j: nat)
    requires limit >= 1 && Fixed(limit, calls) && Timed(b, calls) && i < j <= |calls|
    ensures TOKEN * Admitted(Run(b, calls)[i..j]) <= limit * TOKEN + limit * (calls[j - 1].now - calls[i].now)
  {
    var b0 := Segment(b, calls, i, j);
    TraceBound(b0, calls[i..j], limit);
  }

  /** A segment of a trace is itself a trace, from the bucket its prefix leaves. */
  lemma Segment(b: Option<Bucket>, calls: seq<Call>, i: nat, j: nat) returns (b0: Option<Bucket>)
    requires Timed(b, calls) && i <= j <= |calls|
    ensures b0 == After(b, calls[..i]) && Timed(b0, calls[i..j])
    ensures Run(b, calls)[i..j] == Run(b0, calls[i..j])
  {
    var before, segment, after := calls[..i], calls[i..j], calls[j..];
    assert calls == before + (segment + after);
    b0 := After(b, before);
    RunSplit(b, before, segment + after);
    RunSplit(b0, segment, after);
    OrderedSplit(b, before, segment + after);
    OrderedSplit(b0, segment, after);
  }

  lemma {:induction false} DeniedIsShort(b: Option<Bucket>, calls: seq<Call>)
    requires calls != [] && !Run(b, calls)[|calls| - 1].allowed
    ensures After(b, calls).Some? && After(b, calls).value.tokens < TOKEN
    decreases |calls|
  {
    var (b', v) := Allow(b, calls[0]);
    if |calls| > 1 {
      assert Run(b, calls)[|calls| - 1] == Run(Some(b'), calls[1..])[|calls| - 2];
      DeniedIsShort(Some(b'), calls[1..]);
    }
  }

  /** A tenant that is denied now has used all it was given, up to less than a token and what the cap has thrown
      away (nothing, for a tenant that was never idle long enough to be capped). */
  lemma {:induction false} DeniedHasSpentAll(calls: seq<Call>, limit: int)
    requires calls != [] && Fixed(limit, calls)
    requires !Run(None, calls)[|calls| - 1].allowed
    ensures Initial(limit) + limit * (calls[|calls| - 1].now - calls[0].start)
            < TOKEN * (Admitted(Run(None, calls)) + 1) + Overflow(None, calls)
    ensures limit >= 1 ==>
              TenfoldGrant(limit, calls[|calls| - 1].now - calls[0].start)
              < 10 * (TOKEN * (Admitted(Run(None, calls)) + 1) + Overflow(None, calls))
  {
    var b := Creation(calls, limit);
    Conservation(b, calls, limit);
    DeniedIsShort(Some(b), calls);
    if limit >= 1 {
      TenfoldInitial(limit);
    }
  }

  lemma TenfoldInitial(limit: int)
    requires limit >= 1
    ensures 10 * Initial(limit) == TenfoldGrant(limit, 0)
  {
  }

  // ---------- Exactly when a call is admitted

  /** The tenant's bucket at its call at position n, refilled. */
  function Full(b: Bucket, calls: seq<Call>, n: nat): Bucket
    requires n < |calls|
  {
    Refill(Opened(After(Some(b), calls[..n]), calls[n].limit, calls[n].start), calls[n].limit, calls[n].now)
  }

  /** How many of the calls from position i up to n are admitted. */
  function AdmittedIn(b: Option<Bucket>, calls: seq<Call>, i: nat, n: nat): nat
    requires i <= n <= |calls|
  {
    Admitted(Run(b, calls)[i..n])
  }

  lemma {:induction false} AdmittedSnoc(vs: seq<Verdict>, v: Verdict)
    ensures Admitted(vs + [v]) == Admitted(vs) + if v.allowed then 1 else 0
  {
    if vs == [] {
      assert [v][1..] == [];
    } else {
      assert (vs + [v])[1..] == vs[1..] + [v];
      AdmittedSnoc(vs[1..], v);
    }
  }

  lemma OneMore(b: Option<Bucket>, calls: seq<Call>, i: nat, n: nat)
    requires i < n <= |calls|
    ensures AdmittedIn(b, calls, i, n)
            == AdmittedIn(b, calls, i, n - 1) + if Run(b, calls)[n - 1].allowed then 1 else 0
  {
    var vs := Run(b, calls);
    assert vs[i..n] == vs[i..n - 1] + [vs[n - 1]];
    AdmittedSnoc(vs[i..n - 1], vs[n - 1]);
  }

  /** What the call at position n - 1 does. */
  lemma CallBefore(b: Bucket, calls: seq<Call>, n: nat)
    requires 0 < n <= |calls|
    ensures var (left, v) := Spend(Full(b, calls, n - 1), calls[n - 1].limit);
            After(Some(b), calls[..n]) == Some(left) && Run(Some(b), calls)[n - 1] == v
  {
    RunAt(Some(b), calls, n - 1);
  }

  lemma {:induction false} RunAt(b: Option<Bucket>, calls: seq<Call>, i: nat)
    requires i < |calls|
    ensures var (left, v) := Allow(After(b, calls[..i]), calls[i]);
            After(b, calls[..i + 1]) == Some(left) && Run(b, calls)[i] == v
    decreases i
  {
    var own := Some(Allow(b, calls[0]).0);
    assert calls[..i + 1][1..] == calls[1..][..i];
    if i == 0 {
      assert calls[..0] == [] && After(own, []) == own;
    } else {
      assert calls[..i][1..] == calls[1..][..i - 1];
      RunAt(own, calls[1..], i - 1);
    }
  }

  /** With what it has been given and has earned since, the tenant can have this much left at its call at position n.
      */
  predicate Affords(b: Bucket, calls: seq<Call>, limit: int, n: nat, level: int)
    requires n < |calls|
  {
    level + TOKEN * AdmittedIn(Some(b), calls, 0, n) <= b.tokens + limit * (calls[n].now - b.last)
  }

  /** It can, with what the window from its call at position i on allows. */
  predicate WindowAffords(b: Bucket, calls: seq<Call>, limit: int, i: nat, n: nat, level: int)
    requires i <= n < |calls|
  {
    level + TOKEN * AdmittedIn(Some(b), calls, i, n) <= limit * TOKEN + limit * (calls[n].now - calls[i].now)
  }

  /** The level that the call before must have found, if this one is to find `level`. */
  function Before(b: Bucket, calls: seq<Call>, limit: int, n: nat, level: int): int
    requires 0 < n < |calls|
  {
    level + (if Run(Some(b), calls)[n - 1].allowed then TOKEN else 0) - limit * (calls[n].now - calls[n - 1].now)
  }

  lemma AffordsBefore(b: Bucket, calls: seq<Call>, limit: int, n: nat, level: int)
    requires 0 < n < |calls|
    ensures Affords(b, calls, limit, n, level)
            <==> Affords(b, calls, limit, n - 1, Before(b, calls, limit, n, level))
  {
    OneMore(Some(b), calls, 0, n);
    Later(limit, calls[n - 1].now - b.last, calls[n].now - calls[n - 1].now);
  }

  lemma WindowBefore(b: Bucket, calls: seq<Call>, limit: int, i: nat, n: nat, level: int)
    requires i < n < |calls|
    ensures WindowAffords(b, calls, limit, i, n, level)
            <==> WindowAffords(b, calls, limit, i, n - 1, Before(b, calls, limit, n, level))
  {
    OneMore(Some(b), calls, i, n);
    Later(limit, calls[n - 1].now - calls[i].now, calls[n].now - calls[n - 1].now);
  }

  lemma Later(limit: int, x: int, y: int)
    ensures limit * (x + y) == limit * x + limit * y
  {
  }

  lemma ThisWindow(b: Bucket, calls: seq<Call>, limit: int, n: nat, level: int)
    requires n < |calls|
    ensures WindowAffords(b, calls, limit, n, n, level) <==> level <= limit * TOKEN
  {
    assert Run(Some(b), calls)[n..n] == [];
  }

  lemma FirstLevel(b: Bucket, calls: seq<Call>, limit: int, level: int)
    requires Fixed(limit, calls) && calls != []
    ensures Full(b, calls, 0).tokens >= level <==> Affords(b, calls, limit, 0, level) && level <= limit * TOKEN
  {
    assert calls[0] in calls && calls[..0] == [] && Run(Some(b), calls)[0..0] == [];
  }

  lemma LastLevel(b: Bucket, calls: seq<Call>, limit: int, n: nat, level: int)
    requires Fixed(limit, calls) && 0 < n < |calls|
    ensures Full(b, calls, n).tokens >= level
            <==> level <= limit * TOKEN && Full(b, calls, n - 1).tokens >= Before(b, calls, limit, n, level)
  {
    CallBefore(b, calls, n);
    assert calls[n] in calls && calls[n - 1] in calls;
  }

  /** No window up to the call at position n leaves less. */
  predicate AllAfford(b: Bucket, calls: seq<Call>, limit: int, n: nat, level: int)
    requires n < |calls|
  {
    forall i :: 0 <= i <= n ==> WindowAffords(b, calls, limit, i, n, level)
  }

  lemma AllBefore(b: Bucket, calls: seq<Call>, limit: int, n: nat, level: int)
    requires 0 < n < |calls|
    ensures AllAfford(b, calls, limit, n, level)
            <==> level <= limit * TOKEN && AllAfford(b, calls, limit, n - 1, Before(b, calls, limit, n, level))
  {
    var m, before := n - 1, Before(b, calls, limit, n, level);
    ThisWindow(b, calls, limit, n, level);
    if AllAfford(b, calls, limit, n, level) {
      forall i | 0 <= i <= m
        ensures WindowAffords(b, calls, limit, i, m, before)
      {
        WindowBefore(b, calls, limit, i, n, level);
      }
    }
    if level <= limit * TOKEN && AllAfford(b, calls, limit, m, before) {
      forall i | 0 <= i < n
        ensures WindowAffords(b, calls, limit, i, n, level)
      {
        WindowBefore(b, calls, limit, i, n, level);
      }
    }
  }

  /** The level at a call is the least that the grant and the windows up to now leave. */
  lemma {:induction false} LevelIff(b: Bucket, calls: seq<Call>, limit: int, n: nat, level: int)
    requires Fixed(limit, calls) && n < |calls|
    ensures Full(b, calls, n).tokens >= level
            <==> Affords(b, calls, limit, n, level) && AllAfford(b, calls, limit, n, level)
    decreases n
  {
    if n == 0 {
      FirstLevel(b, calls, limit, level);
      ThisWindow(b, calls, limit, 0, level);
    } else {
      LevelIff(b, calls, limit, n - 1, Before(b, calls, limit, n, level));
      LastLevel(b, calls, limit, n, level);
      AffordsBefore(b, calls, limit, n, level);
      AllBefore(b, calls, limit, n, level);
    }
  }

  /** No more than this may be admitted since the first call: a tenth of the limit (or one), and what is earned since.
      */
  predicate GrantAllows(calls: seq<Call>, limit: int, n: nat)
    requires n < |calls|
  {
    10 * TOKEN * (Admitted(Run(None, calls)[0..n]) + 1) <= TenfoldGrant(limit, calls[n].now - calls[0].start)
  }

  /** No more than this may be admitted from the call at position i on: the limit, and what is earned since. */
  predicate WindowAllows(calls: seq<Call>, limit: int, i: nat, n: nat)
    requires i <= n < |calls|
  {
    TOKEN * (Admitted(Run(None, calls)[i..n]) + 1) <= limit * TOKEN + limit * (calls[n].now - calls[i].now)
  }

  /** Exactly when a call is admitted: with it, the tenant will have been admitted no more since its creation than a
      tenth of its limit (or one) and L a minute, and in no window up to now more than L and L a minute. */
  lemma AdmittedIff(calls: seq<Call>, limit: int, n: nat)
    requires limit >= 1 && Fixed(limit, calls) && n < |calls|
    ensures Run(None, calls)[n].allowed
            <==> GrantAllows(calls, limit, n) && forall i :: 0 <= i <= n ==> WindowAllows(calls, limit, i, n)
  {
    var b := Creation(calls, limit);
    LevelIff(b, calls, limit, n, TOKEN);
    AllowedIfFull(b, calls, n);
    AffordsGrant(b, calls, limit, n);
    WindowsAllow(b, calls, limit, n);
  }

  lemma AllowedIfFull(b: Bucket, calls: seq<Call>, n: nat)
    requires n < |calls|
    ensures Run(Some(b), calls)[n].allowed <==> Full(b, calls, n).tokens >= TOKEN
  {
    CallBefore(b, calls, n + 1);
  }

  lemma {:induction false} WindowsAllow(b: Bucket, calls: seq<Call>, limit: int, n: nat)
    requires n < |calls| && Run(None, calls) == Run(Some(b), calls)
    ensures AllAfford(b, calls, limit, n, TOKEN) <==> forall i :: 0 <= i <= n ==> WindowAllows(calls, limit, i, n)
  {
    if AllAfford(b, calls, limit, n, TOKEN) {
      forall i | 0 <= i <= n
        ensures WindowAllows(calls, limit, i, n)
      {
        assert WindowAffords(b, calls, limit, i, n, TOKEN);
      }
    }
    if forall i :: 0 <= i <= n ==> WindowAllows(calls, limit, i, n) {
      forall i | 0 <= i <= n
        ensures WindowAffords(b, calls, limit, i, n, TOKEN)
      {
        assert WindowAllows(calls, limit, i, n);
      }
    }
  }

  lemma {:induction false} AffordsGrant(b: Bucket, calls: seq<Call>, limit: int, n: nat)
    requires limit >= 1 && n < |calls| && b == Bucket(Initial(limit), calls[0].start)
    requires Run(None, calls) == Run(Some(b), calls)
    ensures Affords(b, calls, limit, n, TOKEN) <==> GrantAllows(calls, limit, n)
  {
    TenfoldInitial(limit);
  }

  // ---------- No policy admits more

  /** The bucket of another policy, which spends a token at just the calls it chooses. */
  function Paying(b: Option<Bucket>, calls: seq<Call>, choose: seq<bool>): Option<Bucket>
    requires |choose| == |calls|
    decreases |calls|
  {
    if calls == [] then b
    else
      var full := Refill(Opened(b, calls[0].limit, calls[0].start), calls[0].limit, calls[0].now);
      Paying(Some(if choose[0] then full.(tokens := full.tokens - TOKEN) else full), calls[1..], choose[1..])
  }

  /** It never spends a token it does not have. */
  predicate Solvent(b: Option<Bucket>, calls: seq<Call>, choose: seq<bool>)
    requires |choose| == |calls|
    decreases |calls|
  {
    calls == [] ||
    var full := Refill(Opened(b, calls[0].limit, calls[0].start), calls[0].limit, calls[0].now);
    && (choose[0] ==> full.tokens >= TOKEN)
    && Solvent(Some(if choose[0] then full.(tokens := full.tokens - TOKEN) else full), calls[1..], choose[1..])
  }

  function Chosen(choose: seq<bool>): nat {
    if choose == [] then 0 else (if choose[0] then 1 else 0) + Chosen(choose[1..])
  }

  /** The induction: `lead` admissions ahead, and worth at least as much with the lead cashed in. */
  lemma {:induction false} KeepsTheLead(b: Bucket, o: Bucket, lead: nat, calls: seq<Call>, choose: seq<bool>)
    requires |choose| == |calls| && Solvent(Some(o), calls, choose)
    requires b.last == o.last && b.tokens + TOKEN * lead >= o.tokens
    ensures lead + Admitted(Run(Some(b), calls)) >= Chosen(choose)
    decreases |calls|
  {
    if calls == [] {
    } else {
      var c := calls[0];
      var fullB, fullO := Refill(b, c.limit, c.now), Refill(o, c.limit, c.now);
      var (b', v) := Allow(Some(b), c);
      var o' := if choose[0] then fullO.(tokens := fullO.tokens - TOKEN) else fullO;
      assert fullB.tokens + TOKEN * lead >= fullO.tokens;
      var ahead := lead + (if v.allowed then 1 else 0) - (if choose[0] then 1 else 0);
      KeepsTheLead(b', o', ahead, calls[1..], choose[1..]);
      assert Run(Some(b), calls)[1..] == Run(Some(b'), calls[1..]);
    }
  }

  lemma {:induction false} SolventPrefix(b: Option<Bucket>, calls: seq<Call>, choose: seq<bool>, n: nat)
    requires |choose| == |calls| && Solvent(b, calls, choose) && n <= |calls|
    ensures Solvent(b, calls[..n], choose[..n])
    decreases |calls|
  {
    if n == 0 {
    } else {
      var full := Refill(Opened(b, calls[0].limit, calls[0].start), calls[0].limit, calls[0].now);
      var b' := if choose[0] then full.(tokens := full.tokens - TOKEN) else full;
      SolventPrefix(Some(b'), calls[1..], choose[1..], n - 1);
      assert calls[..n][1..] == calls[1..][..n - 1] && choose[..n][1..] == choose[1..][..n - 1];
    }
  }

  /** Greedy is optimal: on every prefix of every trace, whatever its limits and times, Allow has admitted at
      least as many calls as any policy that spends from the same bucket without overdrawing it. */
  lemma GreedyIsOptimal(b: Option<Bucket>, calls: seq<Call>, choose: seq<bool>, n: nat)
    requires |choose| == |calls| && Solvent(b, calls, choose) && n <= |calls|
    ensures Admitted(Run(b, calls)[..n]) >= Chosen(choose[..n])
  {
    SolventPrefix(b, calls, choose, n);
    assert calls == calls[..n] + calls[n..];
    RunSplit(b, calls[..n], calls[n..]);
    assert Run(b, calls)[..n] == Run(b, calls[..n]);
    if n > 0 {
      var own := Opened(b, calls[0].limit, calls[0].start);
      assert Run(b, calls[..n]) == Run(Some(own), calls[..n]);
      KeepsTheLead(own, own, 0, calls[..n], choose[..n]);
    }
  }

  /** Allow itself is such a policy, so the bound is attained. */
  lemma {:induction false} GreedyIsSolvent(b: Option<Bucket>, calls: seq<Call>) returns (choose: seq<bool>)
    ensures |choose| == |calls| && Solvent(b, calls, choose)
    ensures Chosen(choose) == Admitted(Run(b, calls)) && Paying(b, calls, choose) == After(b, calls)
    decreases |calls|
  {
    if calls == [] {
      choose := [];
    } else {
      var (b', v) := Allow(b, calls[0]);
      var rest := GreedyIsSolvent(Some(b'), calls[1..]);
      choose := [v.allowed] + rest;
      assert choose[1..] == rest && Run(b, calls)[1..] == Run(Some(b'), calls[1..]);
    }
  }

  // ---------- Denied polls are invisible

  /** The elements of `xs` marked in `keep`. */
  function Pick<X>(xs: seq<X>, keep: seq<bool>): seq<X>
    requires |keep| == |xs|
  {
    if xs == [] then [] else if keep[0] then [xs[0]] + Pick(xs[1..], keep[1..]) else Pick(xs[1..], keep[1..])
  }

  /** An extra refill before a trace does not show in it. */
  lemma RefillDoesNotShow(b: Bucket, calls: seq<Call>, limit: int, now: int)
    requires limit >= 0 && Fixed(limit, calls) && b.last <= now && Ordered(now, calls)
    ensures Run(Some(Refill(b, limit, now)), calls) == Run(Some(b), calls)
  {
    if calls != [] {
      assert calls[0] in calls;
      RefillTwice(b, limit, now, calls[0].now);
    }
  }

  lemma {:induction false} NonPositiveLimitDenies(b: Option<Bucket>, calls: seq<Call>, limit: int)
    requires limit <= 0 && Fixed(limit, calls)
    ensures forall v :: v in Run(b, calls) ==> v == Verdict(false, limit, 0, SECOND)
    decreases |calls|
  {
    if calls == [] {
    } else {
      assert calls[0] in calls;
      NonPositiveLimitDenies(Some(Allow(b, calls[0]).0), calls[1..], limit);
    }
  }

  /** What is picked comes from the sequence, and how much is picked depends on `keep` alone. */
  lemma {:induction false} PickIn<X, Y>(xs: seq<X>, ys: seq<Y>, keep: seq<bool>)
    requires |keep| == |xs| == |ys|
    ensures forall x :: x in Pick(xs, keep) ==> x in xs
    ensures |Pick(xs, keep)| == |Pick(ys, keep)|
  {
    if xs == [] {
    } else {
      PickIn(xs[1..], ys[1..], keep[1..]);
    }
  }

  lemma {:induction false} PickOrdered(t: int, calls: seq<Call>, keep: seq<bool>)
    requires |keep| == |calls| && Ordered(t, calls)
    ensures Ordered(t, Pick(calls, keep))
    decreases |calls|
  {
    if calls == [] {
    } else {
      PickOrdered(calls[0].now, calls[1..], keep[1..]);
      var rest := Pick(calls[1..], keep[1..]);
      if keep[0] {
        assert Pick(calls, keep) == [calls[0]] + rest && ([calls[0]] + rest)[1..] == rest;
      } else {
        OrderedLater(t, calls[0].now, rest);
      }
    }
  }

  lemma OrderedLater(t: int, now: int, calls: seq<Call>)
    requires t <= now && Ordered(now, calls)
    ensures Ordered(t, calls)
  {
  }

  lemma {:induction false} DeniedPollsAreInvisibleIn(b: Bucket, calls: seq<Call>, keep: seq<bool>, limit: int)
    requires |keep| == |calls| && limit >= 1 && Fixed(limit, calls) && Ordered(b.last, calls)
    requires forall i :: 0 <= i < |calls| && !keep[i] ==> !Run(Some(b), calls)[i].allowed
    ensures Run(Some(b), Pick(calls, keep)) == Pick(Run(Some(b), calls), keep)
    decreases |calls|
  {
    if calls == [] {
    } else {
      var c := calls[0];
      var b', v, vs := Step(b, calls, limit);
      forall i | 0 <= i < |vs| && !keep[1..][i]
        ensures !vs[i].allowed
      {
        assert vs[i] == Run(Some(b), calls)[i + 1];
      }
      DeniedPollsAreInvisibleIn(b', calls[1..], keep[1..], limit);
      var rest := Pick(calls[1..], keep[1..]);
      if keep[0] {
        StepOn(b, c, rest);
      } else {
        PickIn(calls[1..], calls[1..], keep[1..]);
        PickOrdered(c.now, calls[1..], keep[1..]);
        RefillDoesNotShow(b, rest, limit, c.now);
      }
    }
  }

  /** A trace, one call on; a denied call has only refilled the bucket. */
  lemma Step(b: Bucket, calls: seq<Call>, limit: int) returns (b': Bucket, v: Verdict,
             vs: seq<Verdict>)
    requires calls != [] && Fixed(limit, calls)
    ensures (b', v) == Allow(Some(b), calls[0]) && vs == Run(Some(b'), calls[1..])
    ensures Run(Some(b), calls) == [v] + vs && b'.last == calls[0].now
    ensures !v.allowed ==> b' == Refill(b, limit, calls[0].now)
  {
    assert calls[0] in calls;
    b', v := Allow(Some(b), calls[0]).0, Allow(Some(b), calls[0]).1;
    vs := Run(Some(b'), calls[1..]);
  }

  lemma StepOn(b: Bucket, c: Call, rest: seq<Call>)
    ensures Run(Some(b), [c] + rest) == [Allow(Some(b), c).1] + Run(Some(Allow(Some(b), c).0), rest)
  {
    assert ([c] + rest)[1..] == rest;
  }

  /** Deleting any set of denied calls leaves every other verdict, with its `Remaining`, as it was. */
  lemma DeniedPollsAreInvisible(b: Option<Bucket>, calls: seq<Call>, keep: seq<bool>, limit: int)
    requires |keep| == |calls| && Fixed(limit, calls) && Timed(b, calls)
    requires forall i :: 0 <= i < |calls| && !keep[i] ==> !Run(b, calls)[i].allowed
    ensures Run(b, Pick(calls, keep)) == Pick(Run(b, calls), keep)
  {
    if limit <= 0 {
      AllDenied(b, calls, keep, limit);
    } else if calls != [] {
      var own := FirstIsKept(b, calls, keep, limit);
      DeniedPollsAreInvisibleIn(own, calls, keep, limit);
    }
  }

  lemma AllDenied(b: Option<Bucket>, calls: seq<Call>, keep: seq<bool>, limit: int)
    requires |keep| == |calls| && Fixed(limit, calls) && limit <= 0
    ensures Run(b, Pick(calls, keep)) == Pick(Run(b, calls), keep)
  {
    PickIn(calls, Run(b, calls), keep);
    PickIn(Run(b, calls), calls, keep);
    NonPositiveLimitDenies(b, calls, limit);
    NonPositiveLimitDenies(b, Pick(calls, keep), limit);
    var us, vs := Run(b, Pick(calls, keep)), Pick(Run(b, calls), keep);
    assert forall i :: 0 <= i < |us| ==> us[i] in us && vs[i] in vs;
  }

  /** The call that creates a bucket is admitted, so it is never among the deleted ones. */
  lemma FirstIsKept(b: Option<Bucket>, calls: seq<Call>, keep: seq<bool>,
                    limit: int) returns (own: Bucket)
    requires calls != [] && |keep| == |calls| && limit >= 1 && Fixed(limit, calls) && Timed(b, calls)
    requires keep[0] || !Run(b, calls)[0].allowed
    ensures Run(b, calls) == Run(Some(own), calls) && Ordered(own.last, calls)
    ensures Run(b, Pick(calls, keep)) == Run(Some(own), Pick(calls, keep))
  {
    var c := calls[0];
    assert c in calls;
    own := Opened(b, limit, c.start);
    if b.None? {
      assert Refill(own, limit, c.now).tokens >= TOKEN by {
        Earns(limit, c.start, c.now);
        assert limit * TOKEN >= TOKEN;
      }
      assert keep[0] && Pick(calls, keep)[0] == c;
    }
  }

  /** A trace that starts with this call. */
  lemma FirstCall(b: Option<Bucket>, c: Call, rest: seq<Call>)
    ensures var (b', v) := Allow(b, c);
            Admitted(Run(b, [c] + rest)) == (if v.allowed then 1 else 0) + Admitted(Run(Some(b'), rest))
  {
    var (b', v) := Allow(b, c);
    assert ([c] + rest)[1..] == rest;
    assert ([v] + Run(Some(b'), rest))[1..] == Run(Some(b'), rest);
  }

  // ---------- The retry hint

  /** A bucket holds a non-negative level from its creation on, at any limit of at least 1. */
  lemma {:induction false} LevelStaysNonNegative(b: Bucket, calls: seq<Call>, limit: int)
    requires limit >= 1 && b.tokens >= 0 && Fixed(limit, calls) && Ordered(b.last, calls)
    ensures After(Some(b), calls).Some? && After(Some(b), calls).value.tokens >= 0
    decreases |calls|
  {
    if calls == [] {
    } else {
      var b', v, vs := Step(b, calls, limit);
      Earns(limit, b.last, calls[0].now);
      LevelStaysNonNegative(b', calls[1..], limit);
    }
  }

  /** However often it polls, a tenant is admitted again by the time it has earned a token. */
  lemma {:induction false} AdmittedAfterEarning(b: Bucket, calls: seq<Call>, limit: int)
    requires limit >= 1 && b.tokens >= 0 && Fixed(limit, calls) && Ordered(b.last, calls) && calls != []
    requires limit * (calls[|calls| - 1].now - b.last) >= TOKEN
    ensures Admitted(Run(Some(b), calls)) > 0
    decreases |calls|
  {
    var c := calls[0];
    var b', v, vs := Step(b, calls, limit);
    Earns(limit, b.last, c.now);
    if v.allowed {
      assert Run(Some(b), calls)[0].allowed;
    } else {
      assert |calls| > 1 by {
        assert limit * TOKEN >= TOKEN;
      }
      // nothing was spent, so the whole earning since b.last is still to come
      var polls := calls[1..];
      assert polls[|polls| - 1] == calls[|calls| - 1];
      RefillDoesNotShow(b, polls, limit, c.now);
      OrderedLater(b.last, c.now, polls);
      AdmittedAfterEarning(b, polls, limit);
      assert Run(Some(b), calls)[1..] == Run(Some(b), polls);
    }
  }

  /** How many of the calls after call i, up to call j, are admitted. */
  function AdmittedBetween(b: Option<Bucket>, calls: seq<Call>, i: nat, j: nat): nat
    requires i < j < |calls|
  {
    Admitted(Run(b, calls)[i + 1..j + 1])
  }

  lemma RetrySucceeds(calls: seq<Call>, limit: int, i: nat, j: nat)
    requires limit >= 1 && Fixed(limit, calls) && Timed(None, calls) && i < j < |calls|
    requires limit * (calls[j].now - calls[i].now) >= TOKEN
    ensures AdmittedBetween(None, calls, i, j) > 0
  {
    var b := Creation(calls, limit);
    var seen := calls[..i + 1];
    var b0 := Segment(Some(b), calls, i + 1, j + 1);
    OrderedSplit(Some(b), seen, calls[i + 1..j + 1]) by {
      assert calls == calls[..j + 1] + calls[j + 1..] && calls[..j + 1] == seen + calls[i + 1..j + 1];
      OrderedSplit(Some(b), calls[..j + 1], calls[j + 1..]);
    }
    LevelStaysNonNegative(b, seen, limit);
    AdmittedAfterEarning(b0.value, calls[i + 1..j + 1], limit);
  }

  /** What every verdict says besides: the limit that was passed in, and, if the call is denied, to retry in a second,
      with nothing remaining. */
  lemma {:induction false} VerdictSays(b: Option<Bucket>, calls: seq<Call>, i: nat)
    requires i < |calls|
    ensures var v := Run(b, calls)[i];
            && v.limit == calls[i].limit && v.remaining >= 0 && (!v.allowed ==> v.remaining == 0)
            && v.retryAfter == if v.allowed then 0 else 1_000_000_000
    decreases i
  {
    var (b', v) := Allow(b, calls[0]);
    if i == 0 {
    } else {
      VerdictSays(Some(b'), calls[1..], i - 1);
    }
  }

  /** The hint is good for a limit: from the creation of any tenant's bucket, after a denial some poll up to the
      first one that is as much later as the denial has said is admitted. */
  ghost predicate HintSuffices(limit: int) {
    forall calls: seq<Call>, i: nat, j: nat ::
      Fixed(limit, calls) && Timed(None, calls) && i < j < |calls|
      && !Run(None, calls)[i].allowed && calls[j].now - calls[i].now >= Run(None, calls)[i].retryAfter
      ==> AdmittedBetween(None, calls, i, j) > 0
  }

  function Repeat(c: Call, n: nat): seq<Call> {
    if n == 0 then [] else [c] + Repeat(c, n - 1)
  }

  lemma TakeOne(b: Bucket, c: Call)
    requires c.now == b.last && TOKEN <= b.tokens <= c.limit * TOKEN
    ensures Allow(Some(b), c).0 == b.(tokens := b.tokens - TOKEN)
  {
    assert c.limit * (c.now - b.last) == 0;
  }

  /** k calls at one instant take k tokens. */
  lemma {:induction false} DrainedAtOnce(b: Bucket, calls: seq<Call>, limit: int)
    requires |calls| * TOKEN <= b.tokens <= limit * TOKEN && Fixed(limit, calls)
    requires forall d :: d in calls ==> d.now == b.last
    ensures After(Some(b), calls) == Some(b.(tokens := b.tokens - |calls| * TOKEN))
    decreases |calls|
  {
    if calls == [] {
    } else {
      assert calls[0] in calls;
      TakeOne(b, calls[0]);
      DrainedAtOnce(b.(tokens := b.tokens - TOKEN), calls[1..], limit);
    }
  }

  lemma {:induction false} RepeatShape(c: Call, n: nat)
    requires c.start == c.now
    ensures |Repeat(c, n)| == n && Fixed(c.limit, Repeat(c, n)) && Ordered(c.now, Repeat(c, n))
    ensures forall i :: 0 <= i < n ==> Repeat(c, n)[i] == c
  {
    if n == 0 {
    } else {
      RepeatShape(c, n - 1);
      assert Repeat(c, n)[1..] == Repeat(c, n - 1);
    }
  }

  lemma {:induction false} OrderedJoin(t: int, xs: seq<Call>, ys: seq<Call>)
    requires Ordered(t, xs) && Ordered(EndTime(t, xs), ys)
    ensures Ordered(t, xs + ys)
    decreases |xs|
  {
    if xs == [] {
      assert xs + ys == ys;
    } else {
      assert (xs + ys)[1..] == xs[1..] + ys;
      OrderedJoin(xs[0].now, xs[1..], ys);
    }
  }

  /** A reachable empty bucket: created at 0, filled up to the cap within a minute, and drained at once. */
  lemma Drained(limit: int) returns (calls: seq<Call>)
    requires limit >= 1
    ensures Fixed(limit, calls) && Ordered(0, calls) && |calls| == limit + 1
    ensures calls[0].start == 0 && calls[limit].now == 60 * SECOND
    ensures After(None, calls) == Some(Bucket(0, 60 * SECOND))
  {
    var first, c := Call(limit, 0, 0), Call(limit, 60 * SECOND, 60 * SECOND);
    var b := Allow(None, first).0;
    var full := Bucket(limit * TOKEN, 60 * SECOND);
    assert limit * TOKEN >= TOKEN;
    assert limit * (60 * SECOND) == limit * TOKEN;
    assert Refill(b, limit, 60 * SECOND) == full;
    RepeatShape(c, limit);
    DrainedAtOnce(full, Repeat(c, limit), limit);
    calls := [first] + Repeat(c, limit);
    assert calls[1..] == Repeat(c, limit);
    assert Allow(Some(b), c) == Allow(Some(full), c);
  }

  /** An empty bucket denies a call, and denies the retry a second later. */
  lemma DeniedTwice(limit: int) returns (polls: seq<Call>)
    requires 1 <= limit < 60
    ensures polls == [Call(limit, 60 * SECOND, 60 * SECOND), Call(limit, 61 * SECOND, 61 * SECOND)]
    ensures Ordered(60 * SECOND, polls)
    ensures var denied := Verdict(false, limit, 0, SECOND);
            Run(Some(Bucket(0, 60 * SECOND)), polls) == [denied, denied]
  {
    var first, retry := Call(limit, 60 * SECOND, 60 * SECOND), Call(limit, 61 * SECOND, 61 * SECOND);
    polls := [first, retry];
    var b := Bucket(0, 60 * SECOND);
    Short(b, first);
    assert Refill(b, limit, 61 * SECOND).tokens == limit * SECOND < TOKEN;
    assert polls[1..] == [retry] && [retry][1..] == [];
    assert Run(Some(b), [retry]) == [Verdict(false, limit, 0, SECOND)];
  }

  lemma HintFails(limit: int)
    requires 1 <= limit < 60
    ensures !HintSuffices(limit)
  {
    var before := Drained(limit);
    var polls := DeniedTwice(limit);
    var calls := before + polls;
    OrderedJoin(0, before, polls);
    RunSplit(None, before, polls);
    var i := limit + 1;
    var denied := Verdict(false, limit, 0, SECOND);
    var vs := Run(None, calls);
    assert vs[i] == denied && vs[i + 1..(i + 1) + 1] == [denied];
    assert Admitted([denied]) == 0 by {
      assert [denied][1..] == [];
    }
    assert AdmittedBetween(None, calls, i, i + 1) == 0;
    assert calls[i + 1].now - calls[i].now >= vs[i].retryAfter;
  }

  /** The fixed one-second hint is good for exactly the limits of at least 60 calls a minute. */
  lemma HintSufficesIff(limit: int)
    requires limit >= 1
    ensures HintSuffices(limit) <==> limit >= 60
  {
    if limit >= 60 {
      forall calls: seq<Call>, i: nat, j: nat |
        Fixed(limit, calls) && Timed(None, calls) && i < j < |calls|
        && !Run(None, calls)[i].allowed && calls[j].now - calls[i].now >= Run(None, calls)[i].retryAfter
        ensures AdmittedBetween(None, calls, i, j) > 0
      {
        VerdictSays(None, calls, i);
        Scale(limit, calls[j].now - calls[i].now);
        RetrySucceeds(calls, limit, i, j);
      }
    } else {
      HintFails(limit);
    }
  }

  lemma Scale(limit: int, wait: int)
    requires limit >= 60 && wait >= SECOND
    ensures limit * wait >= TOKEN
  {
    assert limit * wait >= 60 * wait;
  }

  // ---------- Remaining as a promise

  /** A level of k tokens admits the next k calls at the same limit, at any later times. */
  lemma {:induction false} LevelIsAPromise(b: Bucket, calls: seq<Call>, limit: int)
    requires limit >= 1 && |calls| * TOKEN <= b.tokens <= limit * TOKEN
    requires Fixed(limit, calls) && Ordered(b.last, calls)
    ensures forall v :: v in Run(Some(b), calls) ==> v.allowed
    decreases |calls|
  {
    if calls == [] {
    } else {
      var b', v, vs := Step(b, calls, limit);
      Earns(limit, b.last, calls[0].now);
      LevelIsAPromise(b', calls[1..], limit);
    }
  }

  /** A returned `Remaining` of k promises the tenant its next k calls at the same limit, at any later times. */
  lemma RemainingIsAPromise(b: Option<Bucket>, c: Call, calls: seq<Call>)
    requires Allow(b, c).1.allowed && |calls| == Allow(b, c).1.remaining
    requires Fixed(c.limit, calls) && Ordered(c.now, calls)
    ensures forall v :: v in Run(Some(Allow(b, c).0), calls) ==> v.allowed
  {
    assert c.limit * TOKEN >= TOKEN;
    LevelIsAPromise(Allow(b, c).0, calls, c.limit);
  }

  /** It promises no more: at the same instant the call after those is denied. */
  lemma RemainingIsExact(b: Option<Bucket>, c: Call, calls: seq<Call>)
    requires Allow(b, c).1.allowed && |calls| == Allow(b, c).1.remaining
    requires Fixed(c.limit, calls) && forall d :: d in calls ==> d.now == c.now
    ensures !Allow(After(Some(Allow(b, c).0), calls), Call(c.limit, c.now, c.now)).1.allowed
  {
    var left := Allow(b, c).0;
    DrainedAtOnce(left, calls, c.limit);
    Short(left.(tokens := left.tokens - |calls| * TOKEN), Call(c.limit, c.now, c.now));
  }

  lemma Short(b: Bucket, c: Call)
    requires b.last == c.now && b.tokens < TOKEN
    ensures !Allow(Some(b), c).1.allowed && Allow(Some(b), c).1 == Verdict(false, c.limit, 0, SECOND)
    ensures b.tokens <= c.limit * TOKEN ==> Allow(Some(b), c).0 == b
  {
    assert c.limit * (c.now - b.last) == 0;
  }

  /** The initial quota, as a tenant sees it: of its calls at the instant its bucket is created a tenth of the limit is
      admitted, or one; so ten are only with a limit of at least 100. */
  lemma InitialQuota(limit: int, t: int, calls: seq<Call>)
    requires limit >= 1 && forall c :: c in calls ==> c == Call(limit, t, t)
    ensures (forall v :: v in Run(None, calls) ==> v.allowed) <==> |calls| <= if limit >= 20 then limit / 10 else 1
    ensures |calls| == 10 ==> ((forall v :: v in Run(None, calls) ==> v.allowed) <==> limit >= 100)
  {
    if calls != [] {
      assert calls[0] in calls;
      CreatedAndUsed(limit, t);
      Burst(None, calls, limit, t);
    }
  }

  /** What a new tenant has left after its first call. */
  lemma CreatedAndUsed(limit: int, t: int)
    requires limit >= 1
    ensures var (b, v) := Allow(None, Call(limit, t, t));
            v.allowed && v.remaining + 1 == if limit >= 20 then limit / 10 else 1
  {
    assert limit * TOKEN >= TOKEN && limit * (t - t) == 0;
  }

  /** Of calls at one instant that follow an admitted one, as many are admitted as it has promised. */
  lemma Burst(b: Option<Bucket>, calls: seq<Call>, limit: int, t: int)
    requires calls != [] && limit >= 1 && (forall c :: c in calls ==> c == Call(limit, t, t))
    requires Allow(b, calls[0]).1.allowed
    ensures (forall v :: v in Run(b, calls) ==> v.allowed) <==> |calls| <= Allow(b, calls[0]).1.remaining + 1
  {
    var c, rest := calls[0], calls[1..];
    var (b', v) := Allow(b, c);
    assert c in calls && forall d :: d in rest ==> d in calls;
    assert Run(b, calls) == [v] + Run(Some(b'), rest);
    RemainingIsLevel(b, c);
    if |rest| <= v.remaining {
      AdmittedInBurst(b, c, rest, t);
    } else {
      DeniedInBurst(b, c, rest, t);
      assert Run(b, calls)[v.remaining + 1] == Run(Some(b'), rest)[v.remaining];
    }
  }

  lemma RemainingIsLevel(b: Option<Bucket>, c: Call)
    requires Allow(b, c).1.allowed
    ensures var (b', v) := Allow(b, c);
            v.remaining >= 0 && v.remaining * TOKEN <= b'.tokens <= c.limit * TOKEN && b'.last == c.now
  {
  }

  lemma AdmittedInBurst(b: Option<Bucket>, c: Call, rest: seq<Call>, t: int)
    requires c.limit >= 1 && Allow(b, c).1.allowed && |rest| <= Allow(b, c).1.remaining
    requires c.start == t == c.now && forall d :: d in rest ==> d == c
    ensures forall v :: v in Run(Some(Allow(b, c).0), rest) ==> v.allowed
  {
    RemainingIsLevel(b, c);
    SameTimeIsOrdered(t, rest, c);
    assert |rest| * TOKEN <= Allow(b, c).1.remaining * TOKEN;
    LevelIsAPromise(Allow(b, c).0, rest, c.limit);
  }

  lemma DeniedInBurst(b: Option<Bucket>, c: Call, rest: seq<Call>, t: int)
    requires Allow(b, c).1.allowed && |rest| > Allow(b, c).1.remaining >= 0
    requires c.start == t == c.now && forall d :: d in rest ==> d == c
    ensures !Run(Some(Allow(b, c).0), rest)[Allow(b, c).1.remaining].allowed
  {
    var k := Allow(b, c).1.remaining;
    var first, last := rest[..k], rest[k..];
    assert rest == first + last;
    assert forall d :: d in first ==> d in rest;
    RunSplit(Some(Allow(b, c).0), first, last);
    RemainingIsExact(b, c, first);
    assert last[0] == c by {
      assert last[0] in rest;
    }
  }

  lemma {:induction false} SameTimeIsOrdered(t: int, calls: seq<Call>, c: Call)
    requires t <= c.start <= c.now == c.start && forall d :: d in calls ==> d == c
    ensures Ordered(t, calls) && (calls != [] ==> calls[0] == c && calls[|calls| - 1] == c)
    decreases |calls|
  {
    if calls == [] {
    } else {
      assert calls[0] in calls && calls[|calls| - 1] in calls;
      assert forall d :: d in calls[1..] ==> d in calls;
      SameTimeIsOrdered(c.now, calls[1..], c);
    }
  }

  // ---------- Tenants do not influence one another

  /** What happens to a limiter: calls of any tenants, and background syncs in between. */
  datatype Op = Request(tenant: string, call: Call) | Sync

  datatype Reply = Reply(tenant: string, verdict: Verdict)

  function Replies(buckets: map<string, Bucket>, ops: seq<Op>): seq<Reply>
    decreases |ops|
  {
    if ops == [] then []
    else match ops[0]
      case Request(tenant, call) =>
        var (next, v) := AllowIn(buckets, tenant, call);
        [Reply(tenant, v)] + Replies(next, ops[1..])
      case Sync => Replies(buckets, ops[1..])
  }

  function BucketsAfter(buckets: map<string, Bucket>, ops: seq<Op>): map<string, Bucket>
    decreases |ops|
  {
    if ops == [] then buckets
    else match ops[0]
      case Request(tenant, call) => BucketsAfter(AllowIn(buckets, tenant, call).0, ops[1..])
      case Sync => BucketsAfter(buckets, ops[1..])
  }

  /** A tenant's own calls. */
  function CallsOf(tenant: string, ops: seq<Op>): seq<Call> {
    if ops == [] then []
    else if ops[0].Request? && ops[0].tenant == tenant then [ops[0].call] + CallsOf(tenant, ops[1..])
    else CallsOf(tenant, ops[1..])
  }

  function VerdictsOf(tenant: string, replies: seq<Reply>): seq<Verdict> {
    if replies == [] then []
    else if replies[0].tenant == tenant then [replies[0].verdict] + VerdictsOf(tenant, replies[1..])
    else VerdictsOf(tenant, replies[1..])
  }

  /** Projection: in any interleaving each tenant gets the verdicts, and is left the bucket, that it would get
      from its own calls alone. */
  lemma {:induction false} Projection(buckets: map<string, Bucket>, ops: seq<Op>, tenant: string)
    ensures VerdictsOf(tenant, Replies(buckets, ops)) == Run(Get(buckets, tenant), CallsOf(tenant, ops))
    ensures Get(BucketsAfter(buckets, ops), tenant) == After(Get(buckets, tenant), CallsOf(tenant, ops))
    decreases |ops|
  {
    if ops == [] {
    } else {
      match ops[0]
      case Sync => Projection(buckets, ops[1..], tenant);
      case Request(who, call) =>
        var (next, v) := AllowIn(buckets, who, call);
        Projection(next, ops[1..], tenant);
        var rest, own := Replies(next, ops[1..]), CallsOf(tenant, ops[1..]);
        assert ([Reply(who, v)] + rest)[1..] == rest;
        if who == tenant {
          assert ([call] + own)[1..] == own;
          assert Get(next, tenant) == Some(Allow(Get(buckets, tenant), call).0);
        } else {
          assert Get(next, tenant) == Get(buckets, tenant);
        }
    }
  }
}
