/** `PerfRun` of rust/src/handler.rs: one measurement over one negotiated stream.

    A sender writes a constant block for a ten-second window, then flushes and closes its
    write half; a receiver drains the stream into a discard buffer until end-of-stream.
    Either way the run yields `(duration, transfered)` once. */
module Run {
  import opened Futures

  /** Size of the block the sender writes and of the receiver's discard buffer. */
  const BUFFER_SIZE: nat := 128_000

  /** The sender's measurement window, `Duration::from_secs(10)`. */
  const WINDOW: Tick := 10 * NANOS_PER_SEC

  /** `PerfRunStream`: which end of the stream the run owns.  Of the receiver's discard
      buffer only the length matters, since what is read into it is thrown away. */
  datatype Stream = Receiver(voidBufLen: nat) | Sender

  /** The states of the `PerfRun` enum. The substream itself is owned by the state and is
      represented by the answers the environment gives to its polls (see `Env`). */
  datatype RunState =
    | Running(start: Option<Tick>, transfered: nat, substream: Stream)
    | ClosingWriter(duration: nat, transfered: nat)
    | Done(duration: nat, transfered: nat)
    | Poisoned

  /** The environment's answers during one pass of the poll loop: the clock, and what the
      substream answers to `poll_write` (sender) or `poll_read` (receiver), to `poll_flush`
      and to `poll_close`.  Each pass consults only the answers its state asks for. */
  datatype Env = Env(
    now: Tick,
    transfer: Poll<IoResult<nat>>,
    flush: Poll<IoResult<()>>,
    close: Poll<IoResult<()>>)

  /** Every state but the placeholder carries a byte counter. */
  predicate Live(s: RunState) {
    !s.Poisoned?
  }

  function Transfered(s: RunState): nat
    requires Live(s)
  {
    s.transfered
  }

  /** One pass of the `loop` in `poll`: the state taken out of `self`, the state written
      back (`Poisoned` when the pass panics or returns the result) and what the pass does. */
  function Next(s: RunState, e: Env): (r: (RunState, Iteration))
    // a panic leaves the placeholder that `mem::replace` put in
    ensures r.1.Panic? ==> r.0 == Poisoned
    // the byte counter never goes down, and nothing comes back to life
    ensures Live(r.0) ==> Live(s) && Transfered(s) <= Transfered(r.0)
    // once taken, the start time is kept
    ensures s.Running? && s.start.Some? && r.0.Running? ==> r.0.start == s.start
    // the result is returned exactly from `Done`, with its figures, and only once
    ensures (r.1.Return? && r.1.poll.Ready?) <==> s.Done?
    ensures s.Done? ==> r.0 == Poisoned && r.1 == Return(Ready((s.duration, s.transfered)))
    // suspending moves no bytes
    ensures r.1 == Return(Pending) ==> Live(r.0) && Transfered(r.0) == Transfered(s)
  {
    match s
    case Running(start, transfered, Sender) =>
      if start.Some? && Elapsed(start.value, e.now) >= WINDOW then
        (ClosingWriter(Elapsed(start.value, e.now), transfered), Continue)
      else
        var start' := if start.Some? then start else Some(e.now);
        (match e.transfer
         case Ready(Ok(n)) => (Running(start', transfered + n, Sender), Continue)
         case Ready(Err) => (Poisoned, Panic(UnexpectedError))
         case Pending => (Running(start', transfered, Sender), Return(Pending)))
    case Running(start, transfered, Receiver(buf)) =>
      (match e.transfer
       case Ready(Ok(n)) =>
         var begun := if start.Some? then start.value else e.now;
         if n == 0 then (Done(Elapsed(begun, e.now), transfered), Continue)
         else (Running(Some(begun), transfered + n, Receiver(buf)), Continue)
       case Ready(Err) => (Poisoned, Panic(UnexpectedError))
       case Pending => (s, Return(Pending)))
    case ClosingWriter(duration, transfered) =>
      (match e.flush
       case Ready(Ok(_)) =>
         (match e.close
          case Ready(Ok(_)) => (Done(duration, transfered), Continue)
          case Ready(Err) => (Poisoned, Panic(CloseFailed))
          case Pending => (s, Return(Pending)))
       case Ready(Err) => (Poisoned, Panic(FlushFailed))
       case Pending => (s, Return(Pending)))
    case Done(duration, transfered) => (Poisoned, Return(Ready((duration, transfered))))
    case Poisoned => (Poisoned, Panic(PolledPoisoned))
  }

  /** A run future, updated in place by `poll`. */
  class PerfRun {
    var state: RunState

    /** `PerfRun::new`: running, no start time yet, nothing transferred. */
    constructor (substream: Stream)
      ensures state == Running(None, 0, substream)
    {
      state := Running(None, 0, substream);
    }

    /** One pass of the poll loop, replacing `self` with `Poisoned` first. */
    method Step(e: Env) returns (it: Iteration)
      modifies this
      ensures (state, it) == Next(old(state), e)
    {
      var s := state;
      state := Poisoned;
      match s {
        case Running(start0, transfered, Sender) =>
          var start := start0;
          if start.Some? {
            if Elapsed(start.value, e.now) >= WINDOW {
              state := ClosingWriter(Elapsed(start.value, e.now), transfered);
              return Continue;
            }
          } else {
            start := Some(e.now);
          }
          match e.transfer {
            case Ready(Ok(n)) =>
              state := Running(start, transfered + n, Sender);
              it := Continue;
            case Ready(Err) =>
              it := Panic(UnexpectedError);
            case Pending =>
              state := Running(start, transfered, Sender);
              it := Return(Pending);
          }
        case Running(start0, transfered, Receiver(buf)) =>
          match e.transfer {
            case Ready(Ok(n)) =>
              var begun := if start0.Some? then start0.value else e.now;
              if n == 0 {
                state := Done(Elapsed(begun, e.now), transfered);
              } else {
                state := Running(Some(begun), transfered + n, Receiver(buf));
              }
              it := Continue;
            case Ready(Err) =>
              it := Panic(UnexpectedError);
            case Pending =>
              state := s;
              it := Return(Pending);
          }
        case ClosingWriter(duration, transfered) =>
          match e.flush {
            case Ready(Ok(_)) =>
              match e.close {
                case Ready(Ok(_)) =>
                  // the one-second `thread::sleep` after the close is a no-op here
                  state := Done(duration, transfered);
                  it := Continue;
                case Ready(Err) =>
                  it := Panic(CloseFailed);
                case Pending =>
                  state := s;
                  it := Return(Pending);
              }
            case Ready(Err) =>
              it := Panic(FlushFailed);
            case Pending =>
              state := s;
              it := Return(Pending);
          }
        case Done(duration, transfered) =>
          it := Return(Ready((duration, transfered)));
        case Poisoned =>
          it := Panic(PolledPoisoned);
      }
    }

    /** `Future::poll`: passes run until one suspends, returns or panics.  `envs` holds the
        environment's answers for as many passes as it is willing to give. */
    method Poll(envs: seq<Env>) returns (r: Iteration, used: nat)
      modifies this
      ensures (r, used) == PollLoop(Next, old(state), envs)
      ensures used <= |envs| && state == After(Next, old(state), envs[..used])
    {
      r, used := Continue, 0;
      while used < |envs| && r.Continue?
        invariant used <= |envs|
        invariant state == After(Next, old(state), envs[..used])
        invariant r.Continue? ==>
          PollLoop(Next, old(state), envs) ==
            (PollLoop(Next, state, envs[used..]).0, PollLoop(Next, state, envs[used..]).1 + used)
        invariant !r.Continue? ==> PollLoop(Next, old(state), envs) == (r, used)
        decreases |envs| - used
      {
        assert envs[used..][0] == envs[used] && envs[used..][1..] == envs[used + 1..];
        r := Step(envs[used]);
        AfterSnoc(Next, old(state), envs[..used], envs[used]);
        assert envs[..used + 1] == envs[..used] + [envs[used]];
        used := used + 1;
      }
    }
  }

  // ---- one pass, case by case ----

  /** Inside the window (or before any start time was taken) a write is issued, after the
      start time is taken if absent: `Ready(Ok(n))` adds exactly `n` and goes on, `Pending`
      suspends with the counter and the (possibly new) start time kept, an error panics. */
  lemma SenderWrite(start: Option<Tick>, transfered: nat, e: Env)
    requires start.None? || Elapsed(start.value, e.now) < WINDOW
    ensures var start' := if start.Some? then start else Some(e.now);
      var (s', it) := Next(Running(start, transfered, Sender), e);
      match e.transfer
      case Ready(Ok(n)) => s' == Running(start', transfered + n, Sender) && it == Continue
      case Pending => s' == Running(start', transfered, Sender) && it == Return(Pending)
      case Ready(Err) => s' == Poisoned && it == Panic(UnexpectedError)
  {
  }

  /** Once the window has elapsed no write is issued: the run moves to `ClosingWriter`
      carrying the elapsed time (at least the window) and the same counter, whatever the
      stream would have answered. */
  lemma SenderCutoff(start: Tick, transfered: nat, e: Env, write: Poll<IoResult<nat>>)
    requires Elapsed(start, e.now) >= WINDOW
    ensures Next(Running(Some(start), transfered, Sender), e) ==
            (ClosingWriter(Elapsed(start, e.now), transfered), Continue)
    ensures Next(Running(Some(start), transfered, Sender), e) ==
            Next(Running(Some(start), transfered, Sender), e.(transfer := write))
  {
  }

  /** `ClosingWriter` flushes, then closes; a `Pending` at either step keeps the state, both
      succeeding gives `Done` with the same figures, and a failure at either step panics. */
  lemma ClosingWriterFlushThenClose(duration: nat, transfered: nat, e: Env)
    ensures var (s', it) := Next(ClosingWriter(duration, transfered), e);
      match e.flush
      case Pending => s' == ClosingWriter(duration, transfered) && it == Return(Pending)
      case Ready(Err) => s' == Poisoned && it == Panic(FlushFailed)
      case Ready(Ok(_)) =>
        (match e.close
         case Pending => s' == ClosingWriter(duration, transfered) && it == Return(Pending)
         case Ready(Err) => s' == Poisoned && it == Panic(CloseFailed)
         case Ready(Ok(_)) => s' == Done(duration, transfered) && it == Continue)
  {
  }

  /** A receiver read of `n > 0` bytes adds `n` and keeps reading, a read of zero bytes ends
      the run with the counter unchanged, and the start time is taken on the first `Ready`
      read of either kind. */
  lemma ReceiverRead(start: Option<Tick>, transfered: nat, buf: nat, e: Env)
    ensures var begun := if start.Some? then start.value else e.now;
      var (s', it) := Next(Running(start, transfered, Receiver(buf)), e);
      match e.transfer
      case Ready(Ok(n)) =>
        it == Continue &&
        (n > 0 ==> s' == Running(Some(begun), transfered + n, Receiver(buf))) &&
        (n == 0 ==> s' == Done(Elapsed(begun, e.now), transfered))
      case Pending => s' == Running(start, transfered, Receiver(buf)) && it == Return(Pending)
      case Ready(Err) => s' == Poisoned && it == Panic(UnexpectedError)
  {
  }

  /** A stream that ends before any byte arrived gives `Done` with nothing transferred
      rather than a panic. */
  lemma ReceiverImmediateEnd(buf: nat, e: Env)
    requires e.transfer == Ready(Ok(0))
    ensures Next(Running(None, 0, Receiver(buf)), e) == (Done(0, 0), Continue)
  {
  }

  /** Polling a run that has already returned its result panics. */
  lemma PoisonedPanics(e: Env)
    ensures Next(Poisoned, e) == (Poisoned, Panic(PolledPoisoned))
  {
  }

  // ---- whole runs ----

  lemma {:induction false} PoisonedStays(envs: seq<Env>)
    ensures After(Next, Poisoned, envs) == Poisoned
    decreases |envs|
  {
    if envs != [] {
      PoisonedStays(envs[1..]);
    }
  }

  /** Across any number of passes the counter never decreases. */
  lemma {:induction false} TransferNeverDecreases(s: RunState, envs: seq<Env>)
    requires Live(After(Next, s, envs))
    ensures Live(s) && Transfered(s) <= Transfered(After(Next, s, envs))
    decreases |envs|
  {
    if envs != [] {
      TransferNeverDecreases(Next(s, envs[0]).0, envs[1..]);
    }
  }

  /** The figures a run reports are those of the state it was in when it returned them, so
      the reported total is at least the counter of any earlier state. */
  lemma ReportedTotalCoversCounter(s: RunState, envs: seq<Env>, j: nat)
    requires j < |envs| && Live(s)
    requires ResultAt(Next, s, envs, j).Return? && ResultAt(Next, s, envs, j).poll.Ready?
    ensures Transfered(s) <= ResultAt(Next, s, envs, j).poll.value.1
  {
    TransferNeverDecreases(s, envs[..j]);
  }

  /** A run returns its result at most once: every later pass panics. */
  lemma CompletesAtMostOnce(s: RunState, envs: seq<Env>, i: nat, j: nat)
    requires i < j < |envs|
    requires ResultAt(Next, s, envs, i).Return? && ResultAt(Next, s, envs, i).poll.Ready?
    ensures ResultAt(Next, s, envs, j) == Panic(PolledPoisoned)
  {
    AfterSnoc(Next, s, envs[..i], envs[i]);
    assert envs[..i + 1] == envs[..i] + [envs[i]];
    assert envs[..j] == envs[..i + 1] + envs[i + 1..j];
    AfterAppend(Next, s, envs[..i + 1], envs[i + 1..j]);
    PoisonedStays(envs[i + 1..j]);
  }

  /** The states a sender can be in: running as a sender, or past the cutoff with a
      duration of at least the window. */
  predicate SenderPhase(s: RunState) {
    match s
    case Running(_, _, substream) => substream.Sender?
    case ClosingWriter(duration, _) => duration >= WINDOW
    case Done(duration, _) => duration >= WINDOW
    case Poisoned => true
  }

  lemma {:induction false} SenderPhaseKept(s: RunState, envs: seq<Env>)
    requires SenderPhase(s)
    ensures SenderPhase(After(Next, s, envs))
    decreases |envs|
  {
    if envs != [] {
      SenderPhaseKept(Next(s, envs[0]).0, envs[1..]);
    }
  }

  /** Whatever the stream and the clock answer, a sender reports a duration of at least the
      ten-second window. */
  lemma SenderReportsFullWindow(envs: seq<Env>, j: nat)
    requires j < |envs|
    requires ResultAt(Next, Running(None, 0, Sender), envs, j).Return?
    requires ResultAt(Next, Running(None, 0, Sender), envs, j).poll.Ready?
    ensures ResultAt(Next, Running(None, 0, Sender), envs, j).poll.value.0 >= WINDOW
  {
    SenderPhaseKept(Running(None, 0, Sender), envs[..j]);
  }

  /** The states a receiver can be in: it never enters the sender's closing state and keeps
      its discard buffer. */
  predicate ReceiverPhase(buf: nat, s: RunState) {
    match s
    case Running(_, _, substream) => substream == Receiver(buf)
    case ClosingWriter(_, _) => false
    case Done(_, _) => true
    case Poisoned => true
  }

  lemma {:induction false} ReceiverNeverClosesWriter(buf: nat, s: RunState, envs: seq<Env>)
    requires ReceiverPhase(buf, s)
    ensures ReceiverPhase(buf, After(Next, s, envs))
    decreases |envs|
  {
    if envs != [] {
      ReceiverNeverClosesWriter(buf, Next(s, envs[0]).0, envs[1..]);
    }
  }
}
