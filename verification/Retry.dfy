/**
 The retry decorator of internal/provider/resilient.go, for requests that are not streamed.
 */
module Retry {
  import opened Wrappers

  const RETRY_DELAY: int := 100_000_000   // nanoseconds

  datatype Answer<+R> = Ok(response: R) | Err(error: string)

  /** What the environment does in round i of the loop: how the base provider answers, whether the context is done
      right after that, whether the backoff after it ends with the timer (or else with the context), and what the
      machine makes of 2^i as an int64 if it does not fit (Go leaves that to the implementation). */
  datatype Round<+R> = Round(answer: Answer<R>, done: bool, timer: bool, overflow: int)

  datatype Reply<+R> =
    | Response(response: R)
    | Cancelled(error: string)             // the context was done after a failed attempt: its error
    | ContextDone                          // the context was done during a backoff
    | Exhausted(lastError: Option<string>)

  /** What a call returned, how often it called the base provider, and how long its completed backoffs were. */
  datatype Outcome<+R> = Outcome(reply: Reply<R>, attempts: nat, slept: int)

  function Pow2(n: nat): int {
    if n == 0 then 1 else 2 * Pow2(n - 1)
  }

  /** Two's complement int64. */
  function Int64(x: int): int {
    var m := x % 0x1_0000_0000_0000_0000;
    if m >= 0x8000_0000_0000_0000 then m - 0x1_0000_0000_0000_0000 else m
  }

  /** The int64 product that is passed to the timer: powers up to 2^62 fit, and the product may wrap. */
  function Backoff(i: nat, overflow: int): int {
    Int64((if i < 63 then Pow2(i) else overflow) * RETRY_DELAY)
  }

  /** How long a timer takes: one that is not positive fires at once. */
  function Pause(backoff: int): int {
    if backoff > 0 then backoff else 0
  }

  /** What the backoffs of the first n rounds take, given what the machine makes of the powers that do not fit. */
  function Sleep(overflow: nat -> int, n: nat): int {
    if n == 0 then 0 else Sleep(overflow, n - 1) + Pause(Backoff(n - 1, overflow(n - 1)))
  }

  function Overflows<R>(rounds: nat -> Round<R>): nat -> int {
    (i: nat) => rounds(i).overflow
  }

  /** Every round before k failed, found the context still alive, and waited for the timer. */
  ghost predicate Reaches<R>(rounds: nat -> Round<R>, k: nat) {
    forall j: nat :: j < k ==> rounds(j).answer.Err? && !rounds(j).done && rounds(j).timer
  }

  method Chat<R>(maxRetries: int, rounds: nat -> Round<R>) returns (o: Outcome<R>)
    ensures IsOutcome(maxRetries, rounds, o)
  {
    var lastErr: Option<string> := None;
    var slept := 0;
    var i: nat := 0;
    while i <= maxRetries
      invariant i == 0 || i <= maxRetries + 1
      invariant Reaches(rounds, if i <= maxRetries || i == 0 then i else i - 1)
      invariant i == maxRetries + 1 && i > 0 ==> rounds(i - 1).answer.Err? && !rounds(i - 1).done
      invariant lastErr == if i == 0 then None else Some(rounds(i - 1).answer.error)
      invariant slept == Sleep(Overflows(rounds), if i <= maxRetries || i == 0 then i else i - 1)
      decreases maxRetries - i
    {
      var round := rounds(i);
      if round.answer.Ok? {
        return Outcome(Response(round.answer.response), i + 1, slept);
      }
      lastErr := Some(round.answer.error);
      if round.done {
        return Outcome(Cancelled(round.answer.error), i + 1, slept);
      }
      if i < maxRetries {
        if round.timer {
          slept := slept + Pause(Backoff(i, round.overflow));
        } else {
          return Outcome(ContextDone, i + 1, slept);
        }
      }
      i := i + 1;
    }
    return Outcome(Exhausted(lastErr), i, slept);
  }

  /** The reply of a call that stops in round k. */
  function Final<R>(maxRetries: int, round: Round<R>, k: nat): Reply<R> {
    match round.answer
    case Ok(response) => Response(response)
    case Err(error) =>
      if round.done then Cancelled(error) else if k == maxRetries then Exhausted(Some(error)) else ContextDone
  }

  /** What Chat promises: the round it stops in decides, every round before that ended with one completed backoff,
      and that round with none. */
  ghost predicate IsOutcome<R>(maxRetries: int, rounds: nat -> Round<R>, o: Outcome<R>) {
    if o.attempts == 0 then maxRetries < 0 && o == Outcome(Exhausted(None), 0, 0)
    else
      var k := o.attempts - 1;
      && k <= maxRetries && Reaches(rounds, k)
      && o.reply == Final(maxRetries, rounds(k), k)
      && (o.reply.ContextDone? ==> !rounds(k).timer)
      && o.slept == Sleep(Overflows(rounds), k)
  }

  // ---------- First success

  /** The round a call stops in is one that no longer call would have got past. */
  lemma StopsFirst<R>(maxRetries: int, rounds: nat -> Round<R>, o: Outcome<R>, p: Outcome<R>)
    requires IsOutcome(maxRetries, rounds, o) && IsOutcome(maxRetries, rounds, p)
    ensures o.attempts >= p.attempts
  {
  }

  /** The contract determines the outcome. */
  lemma OutcomeIsUnique<R>(maxRetries: int, rounds: nat -> Round<R>, o: Outcome<R>, p: Outcome<R>)
    requires IsOutcome(maxRetries, rounds, o) && IsOutcome(maxRetries, rounds, p)
    ensures o == p
  {
    StopsFirst(maxRetries, rounds, o, p);
    StopsFirst(maxRetries, rounds, p, o);
  }

  /** Chat makes at most maxRetries + 1 attempts, and returns a response exactly when one of these succeeds before
      the context is found done: the first one that does. */
  lemma FirstSuccess<R>(maxRetries: int, rounds: nat -> Round<R>, o: Outcome<R>)
    requires IsOutcome(maxRetries, rounds, o)
    ensures o.attempts <= (if maxRetries < 0 then 0 else maxRetries + 1)
    ensures forall k: nat ::
              o.reply.Response? && o.attempts == k + 1
              <==> k <= maxRetries && rounds(k).answer.Ok? && Reaches(rounds, k)
    ensures o.reply.Response? ==> rounds(o.attempts - 1).answer == Ok(o.reply.response)
  {
    forall k: nat | k <= maxRetries && rounds(k).answer.Ok? && Reaches(rounds, k)
      ensures o.reply.Response? && o.attempts == k + 1
    {
      OutcomeIsUnique(maxRetries, rounds, o, Outcome(Final(maxRetries, rounds(k), k), k + 1, Sleep(Overflows(rounds), k)));
    }
  }

  /** How every other call ends, and after which attempt: with the error of the attempt after which its context was
      found done; with the context's own, if that was done during the backoff; or, after maxRetries + 1 attempts, with
      the last error, of which there is none if maxRetries is negative. */
  lemma EndsIff<R>(maxRetries: int, rounds: nat -> Round<R>, o: Outcome<R>, k: nat)
    requires IsOutcome(maxRetries, rounds, o)
    ensures o.attempts == 0 <==> maxRetries < 0
    ensures maxRetries < 0 ==> o == Outcome(Exhausted(None), 0, 0)
    ensures var stopped := k <= maxRetries && Reaches(rounds, k) && rounds(k).answer.Err?;
            && (o.attempts == k + 1 && o.reply.Cancelled? <==> stopped && rounds(k).done)
            && (o.attempts == k + 1 && o.reply.ContextDone? <==>
                  stopped && !rounds(k).done && k < maxRetries && !rounds(k).timer)
            && (o.attempts == k + 1 && o.reply.Exhausted? <==> stopped && !rounds(k).done && k == maxRetries)
            && (o.attempts == k + 1 && stopped && rounds(k).done ==> o.reply.error == rounds(k).answer.error)
            && (o.attempts == k + 1 && o.reply.Exhausted? ==> o.reply.lastError == Some(rounds(k).answer.error))
  {
    if k <= maxRetries && Reaches(rounds, k) && (rounds(k).done || k == maxRetries || !rounds(k).timer) {
      var p := Outcome(Final(maxRetries, rounds(k), k), k + 1, Sleep(Overflows(rounds), k));
      OutcomeIsUnique(maxRetries, rounds, o, p);
    }
  }

  /** The first success among the next n answers. */
  function FirstOk<R>(rounds: nat -> Round<R>, i: nat, n: nat): Option<R>
    decreases n
  {
    if n == 0 then None
    else match rounds(i).answer
      case Ok(response) => Some(response)
      case Err(_) => FirstOk(rounds, i + 1, n - 1)
  }

  /** Without cancellation the call is just that search: it finds the first success among maxRetries + 1 answers,
      or fails with the last error. */
  lemma UncancelledIsSearch<R>(maxRetries: nat, rounds: nat -> Round<R>, o: Outcome<R>)
    requires IsOutcome(maxRetries, rounds, o) && forall i: nat :: !rounds(i).done && rounds(i).timer
    ensures match FirstOk(rounds, 0, maxRetries + 1)
            case Some(response) => o.reply == Response(response)
            case None => rounds(maxRetries).answer.Err? && o.reply == Exhausted(Some(rounds(maxRetries).answer.error))
  {
    var k := o.attempts - 1;
    assert k < maxRetries ==> !rounds(k).done && rounds(k).timer;
    SearchSkips(rounds, 0, k, maxRetries + 1);
    assert FirstOk(rounds, k + 1, 0) == None;
  }

  lemma {:induction false} SearchSkips<R>(rounds: nat -> Round<R>, i: nat, k: nat, n: nat)
    requires i <= k && k - i <= n && Reaches(rounds, k)
    ensures FirstOk(rounds, i, n) == FirstOk(rounds, k, n - (k - i))
    decreases k - i
  {
    if i < k {
      assert rounds(i).answer.Err?;
      SearchSkips(rounds, i + 1, k, n - 1);
    }
  }

  // ---------- Backoffs

  lemma {:induction false} Pow2Grows(m: nat, n: nat)
    requires m <= n
    ensures 0 < Pow2(m) <= Pow2(n)
    decreases n
  {
    if m < n {
      Pow2Grows(m, n - 1);
    } else if n > 0 {
      Pow2Grows(n - 1, n - 1);
    }
  }

  lemma Pow2Values()
    ensures Pow2(36) == 68_719_476_736 && Pow2(37) == 137_438_953_472
  {
    assert Pow2(4) == 16;
    assert Pow2(8) == 256;
    assert Pow2(12) == 4096;
    assert Pow2(16) == 65_536;
    assert Pow2(20) == 1_048_576;
    assert Pow2(24) == 16_777_216;
    assert Pow2(28) == 268_435_456;
    assert Pow2(32) == 4_294_967_296;
    assert Pow2(36) == 68_719_476_736;
  }

  /** Every backoff of a call is the exact power of two times the delay, and positive, exactly up to 37 retries: in
      the 38th the product leaves int64. */
  lemma BackoffsAreExact(maxRetries: nat)
    ensures (forall i: nat, overflow: int :: i < maxRetries ==>
               Backoff(i, overflow) == Pow2(i) * 100_000_000 && Backoff(i, overflow) > 0)
            <==> maxRetries <= 37
  {
    Pow2Values();
    if maxRetries <= 37 {
      forall i: nat, overflow: int | i < maxRetries
        ensures Backoff(i, overflow) == Pow2(i) * RETRY_DELAY && Backoff(i, overflow) > 0
      {
        Pow2Grows(i, 36);
      }
    } else {
      assert Backoff(37, 0) < 0;
    }
  }

  /** The k = attempts - 1 completed backoffs of a call have taken 2^k - 1 tenths of a second, exactly if they are at
      most 37: from the 38th on the call sleeps less than that, on every machine. */
  lemma SleptInTotal<R>(maxRetries: int, rounds: nat -> Round<R>, o: Outcome<R>)
    requires IsOutcome(maxRetries, rounds, o)
    ensures o.attempts == 0 ==> o.slept == 0
    ensures o.attempts > 0 ==> o.slept <= (Pow2(o.attempts - 1) - 1) * 100_000_000
    ensures o.attempts > 0 ==> (o.slept == (Pow2(o.attempts - 1) - 1) * 100_000_000 <==> o.attempts - 1 <= 37)
  {
    if o.attempts > 0 {
      SleepSum(Overflows(rounds), o.attempts - 1);
    }
  }

  lemma {:induction false} SleepSum(overflow: nat -> int, k: nat)
    ensures Sleep(overflow, k) <= (Pow2(k) - 1) * RETRY_DELAY
    ensures Sleep(overflow, k) == (Pow2(k) - 1) * RETRY_DELAY <==> k <= 37
  {
    if k == 0 {
    } else {
      SleepSum(overflow, k - 1);
      PauseIsShort(k - 1, overflow(k - 1));
    }
  }

  /** One backoff takes no longer than it should, and as long up to the 37th. */
  lemma PauseIsShort(i: nat, overflow: int)
    ensures Pause(Backoff(i, overflow)) <= Pow2(i) * RETRY_DELAY
    ensures i < 37 ==> Pause(Backoff(i, overflow)) == Pow2(i) * RETRY_DELAY
    ensures i == 37 ==> Pause(Backoff(i, overflow)) < Pow2(i) * RETRY_DELAY
  {
    Pow2Values();
    if i < 37 {
      BackoffsAreExact(37);
    } else {
      Pow2Grows(37, i);
      if i < 63 {
        WrappedIsLess(Pow2(i) * RETRY_DELAY);
      } else {
        Pow2Grows(63, i);
        Pow2Is63();
        WrappedIsSmall(overflow * RETRY_DELAY);
      }
    }
  }

  lemma WrappedIsSmall(x: int)
    ensures Int64(x) < 0x8000_0000_0000_0000
  {
  }

  lemma WrappedIsLess(x: int)
    requires x >= 0x8000_0000_0000_0000
    ensures Int64(x) < x
  {
  }

  lemma Pow2Is63()
    ensures Pow2(63) == 0x8000_0000_0000_0000
  {
    Pow2Values();
    assert Pow2(40) == 1_099_511_627_776;
    assert Pow2(44) == 17_592_186_044_416;
    assert Pow2(48) == 281_474_976_710_656;
    assert Pow2(52) == 4_503_599_627_370_496;
    assert Pow2(56) == 72_057_594_037_927_936;
    assert Pow2(60) == 1_152_921_504_606_846_976;
  }
}
