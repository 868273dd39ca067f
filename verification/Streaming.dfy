/**
 Streamed requests through two layers: the retry decorator of internal/provider/resilient.go, which sends on a
 channel of chunks and a channel of errors, and handleStream of internal/router/handler.go, which reads from both.
 */
module Streaming {
  import opened Wrappers
  import R = Retry

  datatype Chunk = Chunk(content: string, promptTokens: int, completionTokens: int)

  // ---------- The decorator

  /** What the decorator's select sees of an attempt: a first chunk, a channel closed without one, an error, the nil of
      a closed error channel, or the attempt's deadline. After a first chunk the base provider has got `rest` to send
      and then, if it breaks off, an error; once its context is cancelled it sends only `late` more of the rest. */
  datatype Opening =
    | First(chunk: Chunk, rest: seq<Chunk>, late: nat, breakage: Option<string>)
    | Closed
    | Error(error: string)
    | NoError
    | Deadline(error: string)

  /** One round of its loop; `cancelled` is the error of the request's context, if that is done after the attempt, and
      `overflow` is what the machine makes of a power of two that does not fit. */
  datatype Round = Round(opening: Opening, cancelled: Option<string>, overflow: int)

  /** What is done to a channel of chunks and one of errors. An error that is sent may be nil. */
  datatype Send = SendChunk(chunk: Chunk) | SendError(error: Option<string>) | CloseErrors | CloseChunks

  function Chunks(chunks: seq<Chunk>): seq<Send> {
    seq(|chunks|, i requires 0 <= i < |chunks| => SendChunk(chunks[i]))
  }

  function Delivers(chunks: seq<Chunk>): seq<Send> {
    Chunks(chunks) + [CloseErrors, CloseChunks]
  }

  function Fails(error: Option<string>): seq<Send> {
    [SendError(error), CloseErrors, CloseChunks]
  }

  /** All chunks of an attempt that opens. */
  function Whole(o: Opening): seq<Chunk>
    requires o.First?
  {
    [o.chunk] + o.rest
  }

  /** What the base provider sends of the rest. */
  function Remaining(o: Opening, cancelled: bool): seq<Chunk>
    requires o.First?
  {
    if cancelled && o.late < |o.rest| then o.rest[..o.late] else o.rest
  }

  /** What it does to its own two channels after the first chunk. */
  function Moves(o: Opening, cancelled: bool): seq<Send>
    requires o.First?
  {
    Chunks(Remaining(o, cancelled)) + (if o.breakage.Some? then Fails(o.breakage) else [CloseErrors, CloseChunks])
  }

  /** What comes through of an attempt whose context is cancelled with its first chunk. */
  function Opened(o: Opening): seq<Chunk>
    requires o.First?
  {
    [o.chunk] + Remaining(o, true)
  }

  ghost predicate NoneOpens(rounds: nat -> Round, k: int) {
    forall j: nat :: j < k ==> !rounds(j).opening.First? && rounds(j).cancelled.None?
  }

  /** The last error of the first k rounds. */
  function LastError(rounds: nat -> Round, k: nat): Option<string> {
    if k == 0 then None
    else match rounds(k - 1).opening
      case Error(e) => Some(e)
      case Deadline(e) => Some(e)
      case _ => LastError(rounds, k - 1)
  }

  /** Single attempt: the decorator passes on what exactly one attempt sends, in order, the first that opens within
      maxRetries + 1, with its context cancelled from the first chunk on; or no chunk and one error value; never
      both. */
  ghost predicate IsPiped(maxRetries: int, rounds: nat -> Round, sent: seq<Send>, attempts: nat) {
    if attempts > 0 && NoneOpens(rounds, attempts - 1) && rounds(attempts - 1).opening.First? then
      attempts <= Rounds(maxRetries) && sent == Delivers(Opened(rounds(attempts - 1).opening))
    else if attempts > 0 && NoneOpens(rounds, attempts - 1) && rounds(attempts - 1).cancelled.Some? then
      attempts <= Rounds(maxRetries) && sent == Fails(rounds(attempts - 1).cancelled)
    else
      attempts == Rounds(maxRetries) && NoneOpens(rounds, attempts) && sent == Fails(LastError(rounds, attempts))
  }

  function Rounds(maxRetries: int): nat {
    if maxRetries < 0 then 0 else maxRetries + 1
  }

  function Overflows(rounds: nat -> Round): nat -> int {
    (i: nat) => rounds(i).overflow
  }

  /** The time slept between the attempts: one backoff for each but the last. */
  function Slept(rounds: nat -> Round, attempts: nat): int {
    R.Sleep(Overflows(rounds), if attempts == 0 then 0 else attempts - 1)
  }

  method ChatStream(maxRetries: int, rounds: nat -> Round) returns (sent: seq<Send>, attempts: nat, slept: int)
    ensures IsPiped(maxRetries, rounds, sent, attempts)
    ensures slept == Slept(rounds, attempts)
  {
    sent, attempts, slept := [], 0, 0;
    var lastErr: Option<string> := None;
    var i: nat := 0;
    while i <= maxRetries
      invariant i == 0 || i <= maxRetries + 1
      invariant sent == [] && attempts == i && NoneOpens(rounds, i) && lastErr == LastError(rounds, i)
      invariant slept == R.Sleep(Overflows(rounds), if i <= maxRetries || i == 0 then i else i - 1)
      decreases maxRetries - i
    {
      attempts := attempts + 1;
      match rounds(i).opening {
        case First(chunk, _, _, _) =>
          var cancelled := true;
          sent := sent + [SendChunk(chunk)];
          sent := Pipe(rounds(i).opening, sent, cancelled);
          sent := sent + [CloseErrors, CloseChunks];
          assert sent == Delivers(Opened(rounds(i).opening));
          return;
        case Closed =>
        case Error(e) => lastErr := Some(e);
        case NoError =>
        case Deadline(e) => lastErr := Some(e);
      }
      if rounds(i).cancelled.Some? {
        sent := sent + [SendError(rounds(i).cancelled)];
        sent := sent + [CloseErrors, CloseChunks];
        assert sent == Fails(rounds(i).cancelled);
        return;
      }
      if i < maxRetries {
        slept := slept + R.Pause(R.Backoff(i, rounds(i).overflow));
      }
      i := i + 1;
    }
    sent := sent + [SendError(lastErr)];
    sent := sent + [CloseErrors, CloseChunks];
  }

  /** The loop over the base provider's chunk channel. What the provider puts into its error channel is not read. */
  method Pipe(o: Opening, before: seq<Send>, cancelled: bool) returns (sent: seq<Send>)
    requires o.First?
    ensures sent == before + Chunks(Remaining(o, cancelled))
  {
    sent := before;
    var moves, chunks := Moves(o, cancelled), Remaining(o, cancelled);
    var n := 0;
    while !moves[n].CloseChunks?
      invariant n < |moves|
      invariant sent == before + Chunks(chunks)[..if n < |chunks| then n else |chunks|]
      decreases |moves| - n
    {
      if moves[n].SendChunk? {
        sent := sent + [moves[n]];
      }
      n := n + 1;
    }
  }

  // ---------- The handler

  /** The channels between the two: what the decorator has still to do, and what the error channel holds. */
  datatype Pipes = Pipes(todo: seq<Send>, buffer: Option<Option<string>>, errorsClosed: bool, chunksClosed: bool)

  function Fresh(sent: seq<Send>): Pipes {
    Pipes(sent, None, false, false)
  }

  /** What happens next: the decorator makes a move that does not need the handler, or the handler's select takes
      one of its cases. A move that is not ready is not taken. */
  datatype Turn = Produce | TakeChunk | TakeError | ContextDone

  predicate Ready(p: Pipes, t: Turn) {
    match t
    case Produce => p.todo != [] && !p.todo[0].SendChunk?
    case TakeChunk => p.chunksClosed || (p.todo != [] && p.todo[0].SendChunk?)
    case TakeError => p.errorsClosed || p.buffer.Some?
    case ContextDone => true
  }

  datatype LogEvent = LogEvent(promptTokens: int, completionTokens: int, costCents: real, status: int)

  /** How the handler ended, if it has: it logged the request, recorded a provider error, or the client left. */
  datatype End = Running | Logged(event: LogEvent) | Recorded(error: string) | Left

  datatype Session = Session(frames: seq<Chunk>, end: End)

  function PromptTokens(frames: seq<Chunk>): int {
    if frames == [] then 0 else PromptTokens(frames[..|frames| - 1]) + frames[|frames| - 1].promptTokens
  }

  function CompletionTokens(frames: seq<Chunk>): int {
    if frames == [] then 0 else CompletionTokens(frames[..|frames| - 1]) + frames[|frames| - 1].completionTokens
  }

  /** One turn; the frames are the chunks that have been written to the client. */
  function Take(p: Pipes, frames: seq<Chunk>, t: Turn): (Pipes, Session)
    requires Ready(p, t)
  {
    match t
    case Produce =>
      var rest := p.(todo := p.todo[1..]);
      (match p.todo[0]
       case SendError(e) => rest.(buffer := Some(e))
       case CloseErrors => rest.(errorsClosed := true)
       case _ => rest.(chunksClosed := true), Session(frames, Running))
    case TakeChunk =>
      if p.todo != [] && p.todo[0].SendChunk? then
        (p.(todo := p.todo[1..]), Session(frames + [p.todo[0].chunk], Running))
      else
        (p, Session(frames, Logged(LogEvent(PromptTokens(frames), CompletionTokens(frames), 0.0, 200))))
    case TakeError =>
      (match p.buffer
       case Some(Some(e)) => (p.(buffer := None), Session(frames, Recorded(e)))
       case _ => (p.(buffer := None), Session(frames, Running)))
    case ContextDone => (p, Session(frames, Left))
  }

  function Serve(p: Pipes, frames: seq<Chunk>, turns: seq<Turn>): Session
    decreases |turns|
  {
    if turns == [] then Session(frames, Running)
    else if !Ready(p, turns[0]) then Serve(p, frames, turns[1..])
    else
      var (p', s) := Take(p, frames, turns[0]);
      if s.end.Running? then Serve(p', s.frames, turns[1..]) else s
  }

  /** handleStream, over the turns the scheduler gives it. */
  method HandleStream(start: Pipes, turns: seq<Turn>) returns (s: Session)
    ensures s == Serve(start, [], turns)
  {
    var p := start;
    var frames: seq<Chunk> := [];
    var totalPromptTokens, totalCompletionTokens := 0, 0;
    for i := 0 to |turns|
      invariant Serve(start, [], turns) == Serve(p, frames, turns[i..])
      invariant totalPromptTokens == PromptTokens(frames) && totalCompletionTokens == CompletionTokens(frames)
    {
      assert turns[i..][0] == turns[i] && turns[i..][1..] == turns[i + 1..];
      if Ready(p, turns[i]) {
        match turns[i] {
          case Produce =>
            p := Take(p, frames, Produce).0;
          case TakeChunk =>
            if p.todo != [] && p.todo[0].SendChunk? {
              var chunk := p.todo[0].chunk;
              totalPromptTokens := totalPromptTokens + chunk.promptTokens;
              totalCompletionTokens := totalCompletionTokens + chunk.completionTokens;
              assert (frames + [chunk])[..|frames|] == frames;
              frames := frames + [chunk];
              p := p.(todo := p.todo[1..]);
            } else {
              return Session(frames, Logged(LogEvent(totalPromptTokens, totalCompletionTokens, 0.0, 200)));
            }
          case TakeError =>
            var err := p.buffer;
            p := p.(buffer := None);
            if err.Some? && err.value.Some? {
              return Session(frames, Recorded(err.value.value));
            }
          case ContextDone =>
            return Session(frames, Left);
        }
      }
    }
    return Session(frames, Running);
  }

  // ---------- A stream that opens

  /** The first n chunks have been written; the rest are to come, and then both channels close. */
  predicate Delivering(p: Pipes, frames: seq<Chunk>, chunks: seq<Chunk>) {
    && p.buffer.None? && frames <= chunks
    && (|| p == Fresh(Delivers(chunks)[|frames|..])
        || (frames == chunks && p == Pipes([CloseChunks], None, true, false))
        || (frames == chunks && p == Pipes([], None, true, true)))
  }

  lemma KeepsDelivering(p: Pipes, frames: seq<Chunk>, chunks: seq<Chunk>, t: Turn)
    requires Delivering(p, frames, chunks) && Ready(p, t)
    ensures var (p', s) := Take(p, frames, t);
            && (s.end.Running? ==> Delivering(p', s.frames, chunks))
            && s.frames <= chunks && !s.end.Recorded?
            && (s.end.Logged? ==> s.frames == frames == chunks)
  {
    var sends := Delivers(chunks);
    var n := |frames|;
    if p == Fresh(sends[n..]) {
      assert sends[n..][1..] == sends[n + 1..];
      if n < |chunks| {
        assert sends[n..][0] == SendChunk(chunks[n]);
        assert frames + [chunks[n]] <= chunks;
      } else {
        assert sends[n..] == [CloseErrors, CloseChunks];
        assert frames == chunks;
      }
    }
  }

  lemma {:induction false} ServesDelivery(p: Pipes, frames: seq<Chunk>, chunks: seq<Chunk>, turns: seq<Turn>)
    requires Delivering(p, frames, chunks)
    ensures var s := Serve(p, frames, turns);
            s.frames <= chunks && !s.end.Recorded? && (s.end.Logged? ==> s.frames == chunks)
    decreases |turns|
  {
    if turns == [] {
    } else {
      if Ready(p, turns[0]) {
        KeepsDelivering(p, frames, chunks, turns[0]);
        var (p', s) := Take(p, frames, turns[0]);
        if s.end.Running? {
          ServesDelivery(p', s.frames, chunks, turns[1..]);
        }
      } else {
        ServesDelivery(p, frames, chunks, turns[1..]);
      }
    }
  }

  // ---------- A stream that fails

  predicate Failing(p: Pipes, error: Option<string>) {
    || p == Fresh(Fails(error))
    || (p.buffer in {None, Some(error)}
        && (|| p == Pipes([CloseErrors, CloseChunks], p.buffer, false, false)
            || p == Pipes([CloseChunks], p.buffer, true, false)
            || p == Pipes([], p.buffer, true, true)))
  }

  lemma {:induction false} ServesFailure(p: Pipes, error: Option<string>, turns: seq<Turn>)
    requires Failing(p, error)
    ensures var s := Serve(p, [], turns);
            s.frames == [] && (s.end.Recorded? ==> error == Some(s.end.error))
    decreases |turns|
  {
    if turns == [] {
    } else {
      if Ready(p, turns[0]) {
        var (p', s) := Take(p, [], turns[0]);
        assert Fails(error)[1..] == [CloseErrors, CloseChunks];
        assert [CloseErrors, CloseChunks][1..] == [CloseChunks] && [CloseChunks][1..] == [];
        if s.end.Running? {
          ServesFailure(p', error, turns[1..]);
        }
      } else {
        ServesFailure(p, error, turns[1..]);
      }
    }
  }

  // ---------- Both layers

  /** What is logged adds up over the frames written, and a streamed request is logged as costing nothing. */
  lemma {:induction false} LogAddsUp(p: Pipes, frames: seq<Chunk>, turns: seq<Turn>)
    ensures var s := Serve(p, frames, turns);
            s.end.Logged? ==>
              s.end.event == LogEvent(PromptTokens(s.frames), CompletionTokens(s.frames), 0.0, 200)
    decreases |turns|
  {
    if turns == [] {
    } else if Ready(p, turns[0]) {
      var (p', s) := Take(p, frames, turns[0]);
      if s.end.Running? {
        LogAddsUp(p', s.frames, turns[1..]);
      }
    } else {
      LogAddsUp(p, frames, turns[1..]);
    }
  }

  /** The handler goes on until something ends it: it leaves without a trace exactly if the client goes away before the
      stream has ended or an error has been recorded. In particular the nil of a closed error channel ends nothing. */
  lemma {:induction false} LeavesIff(p: Pipes, frames: seq<Chunk>, turns: seq<Turn>)
    ensures Serve(p, frames, turns).end.Left? <==> exists i :: LeavesAt(p, frames, turns, i)
    decreases |turns|
  {
    if turns == [] {
    } else if turns[0] == ContextDone {
      assert turns[..0] == [] && LeavesAt(p, frames, turns, 0);
    } else if Ready(p, turns[0]) && !Take(p, frames, turns[0]).1.end.Running? {
      forall i
        ensures !LeavesAt(p, frames, turns, i)
      {
        assert 0 < i <= |turns| ==> turns[..i][0] == turns[0];
      }
    } else {
      var p', frames' := if Ready(p, turns[0]) then Take(p, frames, turns[0]).0 else p,
        if Ready(p, turns[0]) then Take(p, frames, turns[0]).1.frames else frames;
      LeavesIff(p', frames', turns[1..]);
      forall i
        ensures LeavesAt(p, frames, turns, i) <==> LeavesAt(p', frames', turns[1..], i - 1)
      {
        assert 0 < i < |turns| ==> turns[..i][0] == turns[0] && turns[..i][1..] == turns[1..][..i - 1];
      }
      if j :| LeavesAt(p', frames', turns[1..], j) {
        assert LeavesAt(p, frames, turns, j + 1);
      }
    }
  }

  /** The client goes away at this point, and nothing has ended before. */
  predicate LeavesAt(p: Pipes, frames: seq<Chunk>, turns: seq<Turn>, i: int) {
    0 <= i < |turns| && turns[i] == ContextDone && Serve(p, frames, turns[..i]).end.Running?
  }

  predicate Opens(rounds: nat -> Round, attempts: nat) {
    attempts > 0 && rounds(attempts - 1).opening.First?
  }

  /** Stream integrity through both layers, for every behaviour of the attempts and every schedule. The client gets
      a prefix of the chunks of the one attempt that opened, or nothing if none did. The handler ends at most once:
      it records an error only if nothing was written and no attempt opened; and it logs a stream only when all
      that came through of it was written, with exactly the tokens written. */
  lemma StreamIntegrity(maxRetries: int, rounds: nat -> Round, sent: seq<Send>, attempts: nat, turns: seq<Turn>)
    requires IsPiped(maxRetries, rounds, sent, attempts)
    ensures var s := Serve(Fresh(sent), [], turns);
            && (s.end.Logged? ==>
                  s.end.event == LogEvent(PromptTokens(s.frames), CompletionTokens(s.frames), 0.0, 200))
            && if Opens(rounds, attempts) then
                 && s.frames <= Whole(rounds(attempts - 1).opening) && !s.end.Recorded?
                 && (s.end.Logged? ==> s.frames == Opened(rounds(attempts - 1).opening))
               else
                 s.frames == [] && NoneOpens(rounds, attempts - 1)
                 && (s.end.Recorded? ==> sent == Fails(Some(s.end.error)))
  {
    LogAddsUp(Fresh(sent), [], turns);
    if Opens(rounds, attempts) {
      var chunks := Opened(rounds(attempts - 1).opening);
      assert sent[0..] == sent;
      ServesDelivery(Fresh(sent), [], chunks, turns);
      assert chunks <= Whole(rounds(attempts - 1).opening);
    } else {
      var error :| sent == Fails(error);
      ServesFailure(Fresh(sent), error, turns);
    }
  }

  // ---------- How the decorator ends

  /** The round it stops in is one that no longer run would have got past. */
  lemma StopsFirst(maxRetries: int, rounds: nat -> Round, sent: seq<Send>, attempts: nat, sent': seq<Send>,
                   attempts': nat)
    requires IsPiped(maxRetries, rounds, sent, attempts) && IsPiped(maxRetries, rounds, sent', attempts')
    ensures attempts >= attempts'
  {
  }

  /** Which attempt is passed on: the first that opens, if the context has not been done after any before it and it is
      among the first maxRetries + 1. If none is, the error that is sent is that of the context, if it was done, and
      else the last error. */
  lemma EndsIff(maxRetries: int, rounds: nat -> Round, sent: seq<Send>, attempts: nat, k: nat)
    requires IsPiped(maxRetries, rounds, sent, attempts)
    ensures attempts <= if maxRetries < 0 then 0 else maxRetries + 1
    ensures var reached := k <= maxRetries && NoneOpens(rounds, k);
            && (attempts == k + 1 && Opens(rounds, attempts) <==> reached && rounds(k).opening.First?)
            && (reached && rounds(k).opening.First? ==> sent == Delivers(Opened(rounds(k).opening)))
            && (reached && !rounds(k).opening.First? && rounds(k).cancelled.Some? ==>
                  attempts == k + 1 && sent == [SendError(rounds(k).cancelled), CloseErrors, CloseChunks])
    ensures NoneOpens(rounds, Rounds(maxRetries)) ==>
              && attempts == Rounds(maxRetries)
              && sent == [SendError(LastError(rounds, attempts)), CloseErrors, CloseChunks]
  {
    if k <= maxRetries && NoneOpens(rounds, k) {
      if rounds(k).opening.First? {
        StopsOnce(maxRetries, rounds, sent, attempts, Delivers(Opened(rounds(k).opening)), k + 1);
      } else if rounds(k).cancelled.Some? {
        StopsOnce(maxRetries, rounds, sent, attempts, Fails(rounds(k).cancelled), k + 1);
      }
    }
    if NoneOpens(rounds, Rounds(maxRetries)) {
      var n := Rounds(maxRetries);
      StopsOnce(maxRetries, rounds, sent, attempts, Fails(LastError(rounds, n)), n);
    }
  }

  lemma StopsOnce(maxRetries: int, rounds: nat -> Round, sent: seq<Send>, attempts: nat, sent': seq<Send>,
                  attempts': nat)
    requires IsPiped(maxRetries, rounds, sent, attempts) && IsPiped(maxRetries, rounds, sent', attempts')
    ensures attempts == attempts' && sent == sent'
  {
    StopsFirst(maxRetries, rounds, sent, attempts, sent', attempts');
    StopsFirst(maxRetries, rounds, sent', attempts', sent, attempts);
  }

  /** The error of the attempt at position j, if it ended in one or at its deadline. */
  function ErrorOf(o: Opening): Option<string> {
    match o
    case Error(e) => Some(e)
    case Deadline(e) => Some(e)
    case _ => None
  }

  /** The last error of the first k attempts is that of the last attempt among them that had one. */
  lemma {:induction false} LastErrorIsLast(rounds: nat -> Round, k: nat, j: nat)
    requires j < k && ErrorOf(rounds(j).opening).Some?
    requires forall i: nat :: j < i < k ==> ErrorOf(rounds(i).opening).None?
    ensures LastError(rounds, k) == ErrorOf(rounds(j).opening)
    decreases k
  {
    if j == k - 1 {
    } else {
      LastErrorIsLast(rounds, k - 1, j);
    }
  }

  /** The time slept between the attempts: like that of the calls that are not streamed. */
  lemma SleptInTotal(rounds: nat -> Round, attempts: nat)
    ensures attempts > 0 ==> Slept(rounds, attempts) <= (R.Pow2(attempts - 1) - 1) * 100_000_000
    ensures attempts > 0 ==> (Slept(rounds, attempts) == (R.Pow2(attempts - 1) - 1) * 100_000_000 <==> attempts <= 38)
  {
    if attempts > 0 {
      R.SleepSum(Overflows(rounds), attempts - 1);
    }
  }

  // ---------- What the cancelled context cuts off

  /** A schedule under which everything that was sent is written, and then logged. */
  function Undisturbed(n: nat): seq<Turn> {
    if n == 0 then [Produce, Produce, TakeChunk] else [TakeChunk] + Undisturbed(n - 1)
  }

  lemma {:induction false} DeliversAll(chunks: seq<Chunk>, n: nat)
    requires n <= |chunks|
    ensures Serve(Fresh(Delivers(chunks)[n..]), chunks[..n], Undisturbed(|chunks| - n))
            == Session(chunks, Logged(LogEvent(PromptTokens(chunks), CompletionTokens(chunks), 0.0, 200)))
    decreases |chunks| - n
  {
    var p, turns := Fresh(Delivers(chunks)[n..]), Undisturbed(|chunks| - n);
    if n == |chunks| {
      assert chunks[..n] == chunks && p.todo == [CloseErrors, CloseChunks];
      var closing := Pipes([CloseChunks], None, true, false);
      assert Take(p, chunks, Produce).0 == closing by {
        assert p.todo[1..] == [CloseChunks];
      }
      assert Take(closing, chunks, Produce).0 == Pipes([], None, true, true) by {
        assert closing.todo[1..] == [];
      }
      assert turns[1..] == [Produce, TakeChunk] && [Produce, TakeChunk][1..] == [TakeChunk];
    } else {
      assert p.todo[0] == SendChunk(chunks[n]) && p.todo[1..] == Delivers(chunks)[n + 1..];
      assert chunks[..n] + [chunks[n]] == chunks[..n + 1];
      assert turns[1..] == Undisturbed(|chunks| - (n + 1));
      DeliversAll(chunks, n + 1);
    }
  }

  lemma DeliveryIsPossible(chunks: seq<Chunk>)
    ensures Serve(Fresh(Delivers(chunks)), [], Undisturbed(|chunks|))
            == Session(chunks, Logged(LogEvent(PromptTokens(chunks), CompletionTokens(chunks), 0.0, 200)))
  {
    assert Delivers(chunks)[0..] == Delivers(chunks) && chunks[..0] == [];
    DeliversAll(chunks, 0);
  }

  /** Every schedule that gets as far as the log has written the whole attempt. */
  ghost predicate DeliversWhole(sent: seq<Send>, o: Opening)
    requires o.First?
  {
    forall turns :: Serve(Fresh(sent), [], turns).end.Logged? ==> Serve(Fresh(sent), [], turns).frames == Whole(o)
  }

  /** The base provider stops at once when its context is cancelled. */
  predicate Heeds(o: Opening)
    requires o.First?
  {
    o.late == 0
  }

  /** The base provider does not look at its context. */
  predicate Ignores(o: Opening)
    requires o.First?
  {
    o.late >= |o.rest|
  }

  /** A stream that is logged as delivered has been delivered whole exactly if the base provider still sends all of
      it after the decorator has cancelled its context: always with a provider that ignores its context, and only for
      an attempt of a single chunk with one that heeds it. */
  lemma DeliveryIsWholeIff(maxRetries: int, rounds: nat -> Round, sent: seq<Send>, attempts: nat)
    requires IsPiped(maxRetries, rounds, sent, attempts) && Opens(rounds, attempts)
    ensures var o := rounds(attempts - 1).opening;
            && (DeliversWhole(sent, o) <==> |o.rest| <= o.late)
            && (Heeds(o) ==> (DeliversWhole(sent, o) <==> |Whole(o)| == 1))
            && (Ignores(o) ==> DeliversWhole(sent, o))
  {
    var o := rounds(attempts - 1).opening;
    DeliveryIsPossible(Opened(o));
    forall turns | Serve(Fresh(sent), [], turns).end.Logged?
      ensures Serve(Fresh(sent), [], turns).frames == Opened(o)
    {
      StreamIntegrity(maxRetries, rounds, sent, attempts, turns);
    }
  }

  /** Whatever a base provider does after its first chunk is logged as a success, if the client stays: an error that it
      reports then, because it broke off or because its context was cancelled, is recorded under no schedule, and
      does not even show in what the decorator sends. */
  lemma LateErrorsAreLost(maxRetries: int, rounds: nat -> Round, sent: seq<Send>, attempts: nat, error: Option<string>)
    requires IsPiped(maxRetries, rounds, sent, attempts) && Opens(rounds, attempts)
    ensures forall turns :: !Serve(Fresh(sent), [], turns).end.Recorded?
    ensures exists turns :: Serve(Fresh(sent), [], turns).end.Logged?
    ensures sent == Delivers(Opened(rounds(attempts - 1).opening.(breakage := error)))
  {
    var chunks := Opened(rounds(attempts - 1).opening);
    forall turns
      ensures !Serve(Fresh(sent), [], turns).end.Recorded?
    {
      StreamIntegrity(maxRetries, rounds, sent, attempts, turns);
    }
    DeliveryIsPossible(chunks);
    assert Serve(Fresh(sent), [], Undisturbed(|chunks|)).end.Logged?;
    assert Opened(rounds(attempts - 1).opening.(breakage := error)) == chunks;
  }

  /** Two chunks from a provider that heeds its context, and reports that it was cancelled: one frame is written, and
      the request is logged with status 200 and the tokens of that frame alone. */
  lemma CutShort() returns (rounds: nat -> Round, sent: seq<Send>, turns: seq<Turn>)
    ensures rounds(0).opening == First(Chunk("a", 10, 0), [Chunk("b", 0, 20)], 0, Some("context canceled"))
    ensures IsPiped(2, rounds, sent, 1)
    ensures Serve(Fresh(sent), [], turns) == Session([Chunk("a", 10, 0)], Logged(LogEvent(10, 0, 0.0, 200)))
  {
    var a := Chunk("a", 10, 0);
    var o := First(a, [Chunk("b", 0, 20)], 0, Some("context canceled"));
    rounds := _ => Round(o, None, 0);
    sent, turns := Delivers([a]), Undisturbed(1);
    assert Opened(o) == [a];
    DeliveryIsPossible([a]);
    assert PromptTokens([a]) == 10 && CompletionTokens([a]) == 0 by {
      assert [a][..0] == [];
    }
  }

  /** The mock provider: its prompt tokens first, the response character by character, its completion tokens last. It
      looks at its context before each character. */
  function MockRest(response: string): seq<Chunk> {
    seq(|response|, i requires 0 <= i < |response| => Chunk([response[i]], 0, 0)) + [Chunk("", 0, 20)]
  }

  /** A stream of the mock provider is logged with its completion tokens exactly if the provider sends all of its
      response, and the chunk after it, in spite of the cancelled context, which it looks at before each character. */
  lemma MockIsCutShort(maxRetries: int, rounds: nat -> Round, sent: seq<Send>, attempts: nat, turns: seq<Turn>,
                       response: string, late: nat)
    requires IsPiped(maxRetries, rounds, sent, attempts) && Opens(rounds, attempts)
    requires rounds(attempts - 1).opening == First(Chunk("", 10, 0), MockRest(response), late, None)
    ensures var s := Serve(Fresh(sent), [], turns);
            s.end.Logged? ==> s.end.event == LogEvent(10, if late <= |response| then 0 else 20, 0.0, 200)
  {
    StreamIntegrity(maxRetries, rounds, sent, attempts, turns);
    var frames := Opened(rounds(attempts - 1).opening);
    if late <= |response| {
      assert frames == MockFrames(response, late);
      MockTokens(response, late);
    } else {
      assert frames == MockFrames(response, |response| + 1);
      MockTokens(response, |response| + 1);
    }
  }

  /** Its first chunk, and n more. */
  function MockFrames(response: string, n: nat): seq<Chunk>
    requires n <= |response| + 1
  {
    [Chunk("", 10, 0)] + MockRest(response)[..n]
  }

  lemma {:induction false} MockTokens(response: string, n: nat)
    requires n <= |response| + 1
    ensures PromptTokens(MockFrames(response, n)) == 10
    ensures CompletionTokens(MockFrames(response, n)) == if n <= |response| then 0 else 20
  {
    var frames := MockFrames(response, n);
    if n == 0 {
      assert frames[..0] == [];
    } else {
      MockTokens(response, n - 1);
      assert frames[..n] == MockFrames(response, n - 1);
    }
  }

  // ---------- Failures that pass for successes

  lemma {:induction false} LastErrorIff(rounds: nat -> Round, k: nat)
    ensures LastError(rounds, k).Some?
            <==> exists j: nat :: j < k && (rounds(j).opening.Error? || rounds(j).opening.Deadline?)
  {
    if k == 0 {
    } else {
      LastErrorIff(rounds, k - 1);
      assert rounds(k - 1).opening.Error? || rounds(k - 1).opening.Deadline? ==> LastError(rounds, k).Some?;
    }
  }

  /** Some attempt ended in an error or at its deadline, or the request's context was done after the last. */
  ghost predicate HasError(rounds: nat -> Round, attempts: nat) {
    || (attempts > 0 && rounds(attempts - 1).cancelled.Some?)
    || exists j: nat :: j < attempts && (rounds(j).opening.Error? || rounds(j).opening.Deadline?)
  }

  /** What becomes of a stream none of whose attempts opens depends on the schedule: in any case the select may find
      both channels closed and take the chunk channel first, so that the failure is logged as an empty success; it can
      be recorded as an error exactly when there was an error, which attempts that only close their channels do not
      leave. */
  lemma FailureMayPassForSuccess(maxRetries: int, rounds: nat -> Round, sent: seq<Send>, attempts: nat)
    requires IsPiped(maxRetries, rounds, sent, attempts)
    ensures (exists turns :: Serve(Fresh(sent), [], turns) == Session([], Logged(LogEvent(0, 0, 0.0, 200))))
            <==> !Opens(rounds, attempts)
    ensures (exists turns :: Serve(Fresh(sent), [], turns).end.Recorded?)
            <==> !Opens(rounds, attempts) && HasError(rounds, attempts)
  {
    if Opens(rounds, attempts) {
      forall turns
        ensures var s := Serve(Fresh(sent), [], turns); !s.end.Recorded? && !(s.end.Logged? && s.frames == [])
      {
        StreamIntegrity(maxRetries, rounds, sent, attempts, turns);
      }
    } else {
      var error := if attempts > 0 && rounds(attempts - 1).cancelled.Some? then rounds(attempts - 1).cancelled
                   else LastError(rounds, attempts);
      LastErrorIff(rounds, attempts);
      assert sent == Fails(error);
      FailsAnyWay(error);
    }
  }

  lemma FailsAnyWay(error: Option<string>)
    ensures exists turns :: Serve(Fresh(Fails(error)), [], turns) == Session([], Logged(LogEvent(0, 0, 0.0, 200)))
    ensures (exists turns :: Serve(Fresh(Fails(error)), [], turns).end.Recorded?) <==> error.Some?
  {
    var p0 := Fresh(Fails(error));
    assert p0.todo[1..] == [CloseErrors, CloseChunks];
    var p1 := Pipes([CloseErrors, CloseChunks], Some(error), false, false);
    var p2 := Pipes([CloseChunks], Some(error), true, false);
    var p3 := Pipes([], Some(error), true, true);
    assert Take(p0, [], Produce).0 == p1;
    assert Take(p1, [], Produce).0 == p2 by {
      assert p1.todo[1..] == [CloseChunks];
    }
    assert Take(p2, [], Produce).0 == p3 by {
      assert p2.todo[1..] == [];
    }
    assert Serve(p3, [], [TakeChunk]) == Session([], Logged(LogEvent(0, 0, 0.0, 200)));
    Turned(p2, [TakeChunk]);
    Turned(p1, [Produce, TakeChunk]);
    Turned(p0, [Produce, Produce, TakeChunk]);
    assert Serve(p0, [], [Produce] + [Produce, Produce, TakeChunk]) == Session([], Logged(LogEvent(0, 0, 0.0, 200)));
    if error.Some? {
      assert Serve(p1, [], [TakeError]).end.Recorded?;
      Turned(p0, [TakeError]);
      assert Serve(p0, [], [Produce] + [TakeError]).end.Recorded?;
    }
    forall turns | Serve(p0, [], turns).end.Recorded?
      ensures error.Some?
    {
      ServesFailure(p0, error, turns);
    }
  }

  lemma Turned(p: Pipes, turns: seq<Turn>)
    requires Ready(p, Produce)
    ensures Serve(p, [], [Produce] + turns) == Serve(Take(p, [], Produce).0, [], turns)
  {
    assert ([Produce] + turns)[1..] == turns;
  }

  /** Three attempts that all end in an error, and one schedule that logs this as an empty success, another that
      records the error. */
  lemma FailedAndLogged() returns (rounds: nat -> Round, sent: seq<Send>)
    ensures forall j: nat :: rounds(j).opening == Error("refused") && rounds(j).cancelled.None?
    ensures IsPiped(2, rounds, sent, 3)
    ensures exists turns :: Serve(Fresh(sent), [], turns) == Session([], Logged(LogEvent(0, 0, 0.0, 200)))
    ensures exists turns :: Serve(Fresh(sent), [], turns) == Session([], Recorded("refused"))
  {
    rounds := _ => Round(Error("refused"), None, 0);
    sent := Fails(Some("refused"));
    assert LastError(rounds, 3) == Some("refused");
    FailureMayPassForSuccess(2, rounds, sent, 3);
    assert rounds(0).opening.Error?;
    var turns :| Serve(Fresh(sent), [], turns).end.Recorded?;
    StreamIntegrity(2, rounds, sent, 3, turns);
    assert Serve(Fresh(sent), [], turns) == Session([], Recorded("refused"));
  }
}
