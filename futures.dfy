/** Rust's asynchronous vocabulary as values, and the meaning of a hand-written poll loop.

    Every `poll` in this crate is a `loop` whose body reads the whole state out of `self`
    (leaving `Poisoned` behind), performs at most a few I/O polls, and either writes the
    next state back and goes round again, or writes it back and returns, or panics.  The
    functions below give that loop a meaning for any step function `next`, so that each
    revision of the run state machine only has to define its single iteration. */
module Futures {

  datatype Option<T> = None | Some(value: T)

  /** `std::task::Poll` */
  datatype Poll<T> = Pending | Ready(value: T)

  /** `std::io::Result`; the error value itself is never inspected by the core */
  datatype IoResult<T> = Ok(value: T) | Err

  /** What a call into the core does: it returns, or it panics, which aborts the process. */
  datatype Call<T> = Returns(value: T) | Panics

  /** Clock readings (`Instant`) and durations (`Duration`), in nanoseconds. */
  type Tick = nat

  const NANOS_PER_SEC: nat := 1_000_000_000

  /** `start.elapsed()` read at `now`: `Instant` subtraction saturates at zero. */
  function Elapsed(start: Tick, now: Tick): (d: nat)
    ensures now >= start ==> start + d == now
    ensures now < start ==> d == 0
  {
    if now >= start then now - start else 0
  }

  /** The panic a run aborts with, one per `panic!`/`unwrap` in the two revisions. */
  datatype Fault =
    | UnexpectedError   // a read or a write answered `Ready(Err(_))`
    | FlushFailed       // "Got error while closing substream"
    | CloseFailed       // "Failed to close connection"
    | SendFailed        // "sending failed"
    | ReadFailed        // `msg.unwrap()` on an item that is an error
    | EndBeforeStart    // `start.unwrap()` when the stream ended before any message
    | CloseNotReady     // the close after a flush did not answer `Ready(Ok(()))`
    | PolledPoisoned    // "PerfRun::Poisoned": polled again after completing or panicking

  /** What one pass through a poll loop's body does: go round again, return from `poll`
      with `Pending` or `Ready((duration, transfered))`, or panic. */
  datatype Iteration = Continue | Return(poll: Poll<(nat, nat)>) | Panic(fault: Fault)

  /** The state after running the loop body once per environment answer in `envs`. */
  function After<S, E>(next: (S, E) -> (S, Iteration), s: S, envs: seq<E>): S
    decreases |envs|
  {
    if envs == [] then s else After(next, next(s, envs[0]).0, envs[1..])
  }

  /** What the `j`-th pass of the loop body does when started from `s`. */
  function ResultAt<S, E>(next: (S, E) -> (S, Iteration), s: S, envs: seq<E>, j: nat): Iteration
    requires j < |envs|
  {
    next(After(next, s, envs[..j]), envs[j]).1
  }

  /** One call of `poll`: the loop body runs until a pass does not `Continue`.  The result is
      what that pass did and how many passes ran; when the answers run out first the result is
      `Continue`, i.e. the loop was cut at a pass boundary and a later poll resumes it. */
  function PollLoop<S, E>(next: (S, E) -> (S, Iteration), s: S, envs: seq<E>): (Iteration, nat)
    decreases |envs|
  {
    if envs == [] then (Continue, 0)
    else
      var (s1, it) := next(s, envs[0]);
      if it.Continue? then
        var (r, k) := PollLoop(next, s1, envs[1..]);
        (r, k + 1)
      else (it, 1)
  }

  lemma {:induction false} AfterAppend<S, E>(next: (S, E) -> (S, Iteration), s: S, a: seq<E>, b: seq<E>)
    ensures After(next, s, a + b) == After(next, After(next, s, a), b)
    decreases |a|
  {
    if a == [] {
      assert a + b == b;
    } else {
      assert (a + b)[0] == a[0];
      assert (a + b)[1..] == a[1..] + b;
      AfterAppend(next, next(s, a[0]).0, a[1..], b);
    }
  }

  lemma AfterSnoc<S, E>(next: (S, E) -> (S, Iteration), s: S, a: seq<E>, e: E)
    ensures After(next, s, a + [e]) == next(After(next, s, a), e).0
  {
    AfterAppend(next, s, a, [e]);
    assert [e][1..] == [];
  }

  /** Dropping the first answer shifts the passes by one. */
  lemma ResultAtTail<S, E>(next: (S, E) -> (S, Iteration), s: S, envs: seq<E>, j: nat)
    requires j + 1 < |envs|
    ensures ResultAt(next, s, envs, j + 1) == ResultAt(next, next(s, envs[0]).0, envs[1..], j)
  {
    assert envs[..j + 1][0] == envs[0];
    assert envs[..j + 1][1..] == envs[1..][..j];
    assert envs[j + 1] == envs[1..][j];
  }

  /** A poll returns the first pass that leaves the loop, after passes that all continued. */
  lemma {:induction false} PollLoopMeaning<S, E>(next: (S, E) -> (S, Iteration), s: S, envs: seq<E>)
    ensures PollLoop(next, s, envs).1 <= |envs|
    ensures PollLoop(next, s, envs).1 == 0 <==> envs == []
    ensures forall j :: 0 <= j < PollLoop(next, s, envs).1 - 1 ==> ResultAt(next, s, envs, j).Continue?
    ensures PollLoop(next, s, envs).1 > 0 ==>
              PollLoop(next, s, envs).0 == ResultAt(next, s, envs, PollLoop(next, s, envs).1 - 1)
    ensures PollLoop(next, s, envs).0.Continue? ==> PollLoop(next, s, envs).1 == |envs|
    decreases |envs|
  {
    if envs != [] {
      var (s1, it) := next(s, envs[0]);
      assert envs[..0] == [];
      assert ResultAt(next, s, envs, 0) == it;
      if it.Continue? {
        PollLoopMeaning(next, s1, envs[1..]);
        var (r, k) := PollLoop(next, s1, envs[1..]);
        forall j | 1 <= j <= k
          ensures ResultAt(next, s, envs, j) == ResultAt(next, s1, envs[1..], j - 1)
        {
          ResultAtTail(next, s, envs, j - 1);
        }
      }
    }
  }
}
