/** `PerfRun` of src/handler.rs, the older revision of the run state machine.

    Here the substream is a framed `Sink`/`Stream` of messages rather than a byte stream:
    the sender counts one whole block per accepted send, whatever the transport later does
    with it, the receiver counts message lengths, and the closing state is `Closing`. */
module LegacyRun {
  import opened Futures

  /** Size of the block the sender sends. */
  const BUFFER_SIZE: nat := 128_000

  /** The sender's measurement window, `Duration::from_secs(10)`. */
  const WINDOW: Tick := 10 * NANOS_PER_SEC

  /** `PerfRunStream`: which end of the stream the run owns. */
  datatype Stream = Receiver | Sender

  /** The states of the `PerfRun` enum of this revision. */
  datatype RunState =
    | Running(start: Option<Tick>, transfered: nat, substream: Stream)
    | Closing(duration: nat, transfered: nat)
    | Done(duration: nat, transfered: nat)
    | Poisoned

  /** The environment's answers during one pass of the poll loop: the clock, the sink's
      answers to `poll_ready` and `start_send`, the stream's answer to `poll_next` (a message
      of bytes, an error, or the end), and the sink's answers to `poll_flush` and
      `poll_close`.  Each pass consults only the answers its state asks for. */
  datatype Env = Env(
    now: Tick,
    ready: Poll<IoResult<()>>,
    send: IoResult<()>,
    next: Poll<Option<IoResult<seq<bv8>>>>,
    flush: Poll<IoResult<()>>,
    close: Poll<IoResult<()>>)

  /** Every state but the placeholder carries a byte counter. */
  predicate Live(s: RunState) {
    !s.Poisoned?
  }

  function Transfered(s: RunState): nat
    requires Live(s)
  {
    s.transfered
  }

  /** One pass of the `loop` in `poll`: the state taken out of `self`, the state written
      back and what the pass does. */
  function Next(s: RunState, e: Env): (r: (RunState, Iteration))
    // a panic leaves the placeholder that `mem::replace` put in
    ensures r.1.Panic? ==> r.0 == Poisoned
    // the byte counter never goes down, and nothing comes back to life
    ensures Live(r.0) ==> Live(s) && Transfered(s) <= Transfered(r.0)
    // once taken, the start time is kept
    ensures s.Running? && s.start.Some? && r.0.Running? ==> r.0.start == s.start
    // the result is returned exactly from `Done`, with its figures, and only once
    ensures (r.1.Return? && r.1.poll.Ready?) <==> s.Done?
    ensures s.Done? ==> r.0 == Poisoned && r.1 == Return(Ready((s.duration, s.transfered)))
    // suspending leaves the state exactly as it was
    ensures r.1 == Return(Pending) ==> r.0 == s
  {
    match s
    case Running(start, transfered, Sender) =>
      if start.Some? && Elapsed(start.value, e.now) >= WINDOW then
        (Closing(Elapsed(start.value, e.now), transfered), Continue)
      else if e.ready.Pending? then
        (s, Return(Pending))
      else
        var start' := if start.Some? then start else Some(e.now);
        if e.send.Err? then (Poisoned, Panic(SendFailed))
        else (Running(start', transfered + BUFFER_SIZE, Sender), Continue)
    case Running(start, transfered, Receiver) =>
      (match e.next
       case Ready(Some(Ok(msg))) =>
         var start' := if start.Some? then start else Some(e.now);
         (Running(start', transfered + |msg|, Receiver), Continue)
       case Ready(Some(Err)) => (Poisoned, Panic(ReadFailed))
       case Ready(None) =>
         if start.None? then (Poisoned, Panic(EndBeforeStart))
         else (Done(Elapsed(start.value, e.now), transfered), Continue)
       case Pending => (s, Return(Pending)))
    case Closing(duration, transfered) =>
      (match e.flush
       case Ready(Ok(_)) =>
         if e.close.Ready? && e.close.value.Ok? then (Done(duration, transfered), Continue)
         else (Poisoned, Panic(CloseNotReady))
       case Ready(Err) => (Poisoned, Panic(FlushFailed))
       case Pending => (s, Return(Pending)))
    case Done(duration, transfered) => (Poisoned, Return(Ready((duration, transfered))))
    case Poisoned => (Poisoned, Panic(PolledPoisoned))
  }

  /** A run future of this revision, updated in place by `poll`. */
  class PerfRun {
    var state: RunState

    /** `PerfRun::new`: running, no start time yet, nothing transferred. */
    constructor (substream: Stream)
      ensures state == Running(None, 0, substream)
    {
      state := Running(None, 0, substream);
    }

    /** One pass of the poll loop, replacing `self` with `Poisoned` first. */
    method Step(e: Env) returns (it: Iteration)
      modifies this
      ensures (state, it) == Next(old(state), e)
    {
      var s := state;
      state := Poisoned;
      match s {
        case Running(start0, transfered, Sender) =>
          if start0.Some? && Elapsed(start0.value, e.now) >= WINDOW {
            state := Closing(Elapsed(start0.value, e.now), transfered);
            return Continue;
          }
          if e.ready.Pending? {
            state := s;
            return Return(Pending);
          }
          var start := if start0.Some? then start0 else Some(e.now);
          if e.send.Err? {
            return Panic(SendFailed);
          }
          state := Running(start, transfered + BUFFER_SIZE, Sender);
          it := Continue;
        case Running(start0, transfered, Receiver) =>
          match e.next {
            case Ready(Some(msg)) =>
              var start := if start0.Some? then start0 else Some(e.now);
              if msg.Err? {
                return Panic(ReadFailed);
              }
              state := Running(start, transfered + |msg.value|, Receiver);
              it := Continue;
            case Ready(None) =>
              if start0.None? {
                return Panic(EndBeforeStart);
              }
              state := Done(Elapsed(start0.value, e.now), transfered);
              it := Continue;
            case Pending =>
              state := s;
              it := Return(Pending);
          }
        case Closing(duration, transfered) =>
          match e.flush {
            case Ready(Ok(_)) =>
              if !(e.close.Ready? && e.close.value.Ok?) {
                return Panic(CloseNotReady);
              }
              // the one-second `thread::sleep` after the close is a no-op here
              state := Done(duration, transfered);
              it := Continue;
            case Ready(Err) =>
              it := Panic(FlushFailed);
            case Pending =>
              state := s;
              it := Return(Pending);
          }
        case Done(duration, transfered) =>
          it := Return(Ready((duration, transfered)));
        case Poisoned =>
          it := Panic(PolledPoisoned);
      }
    }

    /** `Future::poll`: passes run until one suspends, returns or panics.  `envs` holds the
        environment's answers for as many passes as it is willing to give. */
    method Poll(envs: seq<Env>) returns (r: Iteration, used: nat)
      modifies this
      ensures (r, used) == PollLoop(Next, old(state), envs)
      ensures used <= |envs| && state == After(Next, old(state), envs[..used])
    {
      r, used := Continue, 0;
      while used < |envs| && r.Continue?
        invariant used <= |envs|
        invariant state == After(Next, old(state), envs[..used])
        invariant r.Continue? ==>
          PollLoop(Next, old(state), envs) ==
            (PollLoop(Next, state, envs[used..]).0, PollLoop(Next, state, envs[used..]).1 + used)
        invariant !r.Continue? ==> PollLoop(Next, old(state), envs) == (r, used)
        decreases |envs| - used
      {
        assert envs[used..][0] == envs[used] && envs[used..][1..] == envs[used + 1..];
        r := Step(envs[used]);
        AfterSnoc(Next, old(state), envs[..used], envs[used]);
        assert envs[..used + 1] == envs[..used] + [envs[used]];
        used := used + 1;
      }
    }
  }

  // ---- one pass, case by case ----

  /** While the sink is not ready the sender suspends with its state untouched; in
      particular no start time is taken yet. */
  lemma SenderNotReady(start: Option<Tick>, transfered: nat, e: Env)
    requires start.None? || Elapsed(start.value, e.now) < WINDOW
    requires e.ready.Pending?
    ensures Next(Running(start, transfered, Sender), e) ==
            (Running(start, transfered, Sender), Return(Pending))
  {
  }

  /** When the sink is ready the start time is taken if absent and one block is sent; the
      counter grows by exactly `BUFFER_SIZE`, and a failed send panics. */
  lemma SenderSendsBlock(start: Option<Tick>, transfered: nat, e: Env)
    requires start.None? || Elapsed(start.value, e.now) < WINDOW
    requires e.ready.Ready?
    ensures var start' := if start.Some? then start else Some(e.now);
      Next(Running(start, transfered, Sender), e) ==
        if e.send.Ok? then (Running(start', transfered + BUFFER_SIZE, Sender), Continue)
        else (Poisoned, Panic(SendFailed))
  {
  }

  /** Once the window has elapsed the sender moves to `Closing` with the elapsed time and
      the same counter, without consulting the sink. */
  lemma SenderCutoff(start: Tick, transfered: nat, e: Env)
    requires Elapsed(start, e.now) >= WINDOW
    ensures Next(Running(Some(start), transfered, Sender), e) ==
            (Closing(Elapsed(start, e.now), transfered), Continue)
  {
  }

  /** A message adds its length and takes the start time if absent; an error item panics;
      the end of the stream gives `Done` with the counter unchanged, or panics when no
      message ever arrived. */
  lemma ReceiverMessage(start: Option<Tick>, transfered: nat, e: Env)
    ensures var (s', it) := Next(Running(start, transfered, Receiver), e);
      match e.next
      case Ready(Some(Ok(msg))) =>
        s' == Running(if start.Some? then start else Some(e.now), transfered + |msg|, Receiver) &&
        it == Continue
      case Ready(Some(Err)) => s' == Poisoned && it == Panic(ReadFailed)
      case Ready(None) =>
        (start.None? ==> s' == Poisoned && it == Panic(EndBeforeStart)) &&
        (start.Some? ==> s' == Done(Elapsed(start.value, e.now), transfered) && it == Continue)
      case Pending => s' == Running(start, transfered, Receiver) && it == Return(Pending)
  {
  }

  /** `Closing`: a pending flush keeps the state; after a successful flush anything but an
      immediate successful close panics; on success the run becomes `Done` with the same
      figures. */
  lemma ClosingFlushThenClose(duration: nat, transfered: nat, e: Env)
    ensures var (s', it) := Next(Closing(duration, transfered), e);
      match e.flush
      case Pending => s' == Closing(duration, transfered) && it == Return(Pending)
      case Ready(Err) => s' == Poisoned && it == Panic(FlushFailed)
      case Ready(Ok(_)) =>
        if e.close.Ready? && e.close.value.Ok? then s' == Done(duration, transfered) && it == Continue
        else s' == Poisoned && it == Panic(CloseNotReady)
  {
  }

  // ---- whole runs ----

  lemma {:induction false} PoisonedStays(envs: seq<Env>)
    ensures After(Next, Poisoned, envs) == Poisoned
    decreases |envs|
  {
    if envs != [] {
      PoisonedStays(envs[1..]);
    }
  }

  /** Across any number of passes the counter never decreases. */
  lemma {:induction false} TransferNeverDecreases(s: RunState, envs: seq<Env>)
    requires Live(After(Next, s, envs))
    ensures Live(s) && Transfered(s) <= Transfered(After(Next, s, envs))
    decreases |envs|
  {
    if envs != [] {
      TransferNeverDecreases(Next(s, envs[0]).0, envs[1..]);
    }
  }

  /** A run returns its result at most once: every later pass panics. */
  lemma CompletesAtMostOnce(s: RunState, envs: seq<Env>, i: nat, j: nat)
    requires i < j < |envs|
    requires ResultAt(Next, s, envs, i).Return? && ResultAt(Next, s, envs, i).poll.Ready?
    ensures ResultAt(Next, s, envs, j) == Panic(PolledPoisoned)
  {
    AfterSnoc(Next, s, envs[..i], envs[i]);
    assert envs[..i + 1] == envs[..i] + [envs[i]];
    assert envs[..j] == envs[..i + 1] + envs[i + 1..j];
    AfterAppend(Next, s, envs[..i + 1], envs[i + 1..j]);
    PoisonedStays(envs[i + 1..j]);
  }

  /** The states a sender of this revision can be in: its counter is a whole number of
      blocks, and past the cutoff its duration is at least the window. */
  predicate SenderPhase(s: RunState) {
    match s
    case Running(_, transfered, substream) => substream.Sender? && transfered % BUFFER_SIZE == 0
    case Closing(duration, transfered) => duration >= WINDOW && transfered % BUFFER_SIZE == 0
    case Done(duration, transfered) => duration >= WINDOW && transfered % BUFFER_SIZE == 0
    case Poisoned => true
  }

  lemma {:induction false} SenderPhaseKept(s: RunState, envs: seq<Env>)
    requires SenderPhase(s)
    ensures SenderPhase(After(Next, s, envs))
    decreases |envs|
  {
    if envs != [] {
      var s1 := Next(s, envs[0]).0;
      if s.Running? && s1.Running? && s1.transfered != s.transfered {
        assert s1.transfered == s.transfered + BUFFER_SIZE;
      }
      SenderPhaseKept(s1, envs[1..]);
    }
  }

  /** Whatever the sink and the clock answer, a sender of this revision reports at least
      the ten-second window and a whole number of blocks. */
  lemma SenderReport(envs: seq<Env>, j: nat)
    requires j < |envs|
    requires ResultAt(Next, Running(None, 0, Sender), envs, j).Return?
    requires ResultAt(Next, Running(None, 0, Sender), envs, j).poll.Ready?
    ensures ResultAt(Next, Running(None, 0, Sender), envs, j).poll.value.0 >= WINDOW
    ensures ResultAt(Next, Running(None, 0, Sender), envs, j).poll.value.1 % BUFFER_SIZE == 0
  {
    SenderPhaseKept(Running(None, 0, Sender), envs[..j]);
  }

  /** An end of stream before any message panics instead of reporting an empty run. */
  lemma ReceiverImmediateEndPanics(e: Env)
    requires e.next == Ready(None)
    ensures Next(Running(None, 0, Receiver), e) == (Poisoned, Panic(EndBeforeStart))
  {
  }
}
