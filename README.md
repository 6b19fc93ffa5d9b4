# libp2p-perf measurement engine, in Dafny

This project models the core of `libp2p-perf`, an "iperf for libp2p". It covers three cooperating
state machines and proves properties about them:

- **`PerfRun`** owns one negotiated stream.
  - A *sender* writes a 128 000-byte block over and over until a 10-second window has elapsed. It then flushes and closes its write half.
  - A *receiver* reads into a discard buffer until end-of-stream.
  - Both yield `(duration, transfered)` exactly once.
- **`PerfHandler`** exists once per connection. A start command becomes a request for an outbound stream. A newly negotiated stream becomes a run: a sender for a stream the handler asked for, a receiver for one the remote opened. Finished runs are reported upwards.
- **`Perf`** is the session behaviour, once per node. It records the direction of every established connection, tells the handler of a connection this node dialed to start a run, and passes finished runs on to the application.

The crate has two revisions of the run and the handler. Both are modelled:

- `Run` and `Handler` are the current revision (`rust/src/handler.rs`). It uses byte streams: the counter adds what `poll_write`/`poll_read` accepted, and the closing state is `ClosingWriter`.
- `LegacyRun` and `LegacyHandler` are the older revision (`src/handler.rs`). It uses framed message sinks and streams: the counter adds one whole `BUFFER_SIZE` block per accepted send, and the closing state is `Closing`.
- `Behaviour` models `rust/src/behaviour.rs`.
- `Futures` holds Rust's `Poll`/`io::Result` vocabulary and gives a meaning to the hand-written poll loop.

## How the model is built

- **Poll loops.** Each `poll` is a `loop`. A pass of the loop takes the whole state out of `self`, leaving `Poisoned` behind (`mem::replace`). It then either writes the next state back and loops again, writes it back and returns, or panics.
  - `Next` is one pass, written as a pure function. `PerfRun.Step` is the same pass done in place on the object: it assigns `Poisoned` first.
  - `PerfRun.Poll` runs the loop with a `while` loop. It is proved equal to `PollLoop` (module `Futures`), and `After` gives the resulting state.
- **The outside world** is an input:
  - Each pass receives an `Env` record. It holds the clock reading and the answers the substream gives to whichever polls that pass makes: `Pending`, `Ready(Ok(n))` or `Ready(Err)`.
  - A poll receives a finite sequence of these answers. If the sequence runs out before the loop leaves, the result is `Continue`. That stops the loop at a pass boundary. A later poll resumes it with the same state, because all of the state lives in `self` between passes (`Futures.AfterAppend`).
- **Time** is a natural number of nanoseconds, and the window is `10 * NANOS_PER_SEC`. `start.elapsed()` is `now - start`, which saturates at zero as `Instant` subtraction does. The one-second `thread::sleep` after a sender's close is a no-op.
- **Panics.** A `panic!` becomes `Panic(fault)` for a pass, or `Panics` for a callback. After a panicking pass the run's state is `Poisoned`, since `mem::replace` has already happened. Polling that state again panics with `PolledPoisoned`.
- **`FuturesUnordered`** becomes a sequence of `PerfRun` objects that `Valid()` keeps distinct. A handler poll drives the one run the scheduler woke, given as an input index. An index out of range means no run was woken.
- **Outboxes** are `Vec`s used through `push` and `pop`. Both the handler's and the behaviour's outbox therefore hand out the **most recently queued** item first.

## Behaviour of the code worth knowing

- The outboxes are last-in-first-out: the handler's and the behaviour's `poll` both use `Vec::pop` (rust/src/handler.rs:329, src/handler.rs:323, rust/src/behaviour.rs:120).
- Connection entries are never removed: `inject_disconnected` and `inject_connection_closed` change nothing (rust/src/behaviour.rs:59, 75-82).
- In the current revision a receiver takes its start time on the first `Ready(Ok(_))` read, including an empty one (rust/src/handler.rs:143). An end-of-stream before any byte therefore reports `Done` with nothing transferred rather than panicking. The reported duration is the gap between the two clock readings at rust/src/handler.rs:143 and 146; with the model's single reading per pass that gap is exactly 0 (`Run.ReceiverImmediateEnd`). The older revision panics in that case, at `start.unwrap()` (src/handler.rs:154, `LegacyRun.ReceiverImmediateEndPanics`).
- In the current revision a sender takes its start time just before its first write attempt, even when that write is `Pending` (rust/src/handler.rs:115, `Run.SenderWrite`). The older revision takes it only once the sink is ready (src/handler.rs:110-119, `LegacyRun.SenderNotReady`).
- A handler `poll` asks `FuturesUnordered` for one finished run, and only when its outbox is empty (rust/src/handler.rs:329-342, src/handler.rs:323-336).
- In the older revision `poll_ready` answering `Ready(Err)` is not treated as an error: the code goes on to `start_send` (src/handler.rs:110-126), and the model does the same.

## Model

| member | source | states |
|---|---|---|
| `Futures.PollLoopMeaning` | rust/src/handler.rs:95-210 | A poll returns what the first pass that does not continue does, and every pass before it continued. When the answers run out first, the result is `Continue` and every answer was used. |
| `Futures.AfterAppend` | rust/src/handler.rs:96-97 | Running passes over `a + b` equals running `a` and then `b`. The state written back between passes is all there is, so a poll loop can be resumed at any pass boundary. |
| `Run.Next` | rust/src/handler.rs:95-210 | For every pass: a panic leaves `Poisoned`; the byte counter never decreases and a poisoned run never comes back; a start time once taken is kept; a result is returned exactly when the state was `Done`, with its duration and count, leaving `Poisoned`; a `Pending` pass moves no bytes. |
| `Run.PerfRun.constructor` | rust/src/handler.rs:71-77 | A new run is `Running` with no start time, nothing transferred, and the role it was given. |
| `Run.PerfRun.Step` | rust/src/handler.rs:96-208 | One pass done in place: the new state and the pass's result are those of `Next` on the old state. |
| `Run.PerfRun.Poll` | rust/src/handler.rs:95-210 | The result and the number of passes are `PollLoop` of the old state. The new state is the old state advanced by exactly those passes. |
| `Run.SenderWrite` | rust/src/handler.rs:103-135 | Inside the window, or before any start time was taken, the start time is taken if absent and a write is issued. `Ready(Ok(n))` adds exactly `n` and stays a running sender. `Pending` keeps the start time and the counter and returns `Pending`. An error panics. |
| `Run.SenderCutoff` | rust/src/handler.rs:105-112 | Once at least 10 s have elapsed, the sender becomes `ClosingWriter` with the elapsed time and the same counter. The next state does not depend on the write answer, because no write is issued. |
| `Run.ClosingWriterFlushThenClose` | rust/src/handler.rs:167-200 | The run flushes, then closes. `Pending` at either step keeps `ClosingWriter` unchanged. Both succeeding gives `Done` with the same duration and counter. A failure at either step panics. |
| `Run.ReceiverRead` | rust/src/handler.rs:137-166 | A read of `n > 0` adds `n` and keeps running. A read of 0 gives `Done` with the counter unchanged. The start time is taken on the first `Ready(Ok(_))` read. `Pending` changes nothing. An error panics. |
| `Run.ReceiverImmediateEnd` | rust/src/handler.rs:141-148 | An end-of-stream before any byte gives `Done` with count 0, not a panic; its duration is 0 because the model reads the clock once per pass (the code reports the gap between its readings at lines 143 and 146). |
| `Run.PoisonedPanics` | rust/src/handler.rs:207 | Polling a run that has already returned its result panics with `PerfRun::Poisoned`. |
| `Run.PoisonedStays` | rust/src/handler.rs:201-207 | Once `Poisoned`, a run stays `Poisoned` through any further passes. |
| `Run.TransferNeverDecreases` | rust/src/handler.rs:97-206 | Over any sequence of passes that ends in a live state, the start state was live and its counter is at most the final counter. |
| `Run.ReportedTotalCoversCounter` | rust/src/handler.rs:201-206 | The total a run reports is at least the counter of the state it started from. |
| `Run.CompletesAtMostOnce` | rust/src/handler.rs:201-207 | After the pass that returns the result, every later pass panics, so a run yields `Ready` at most once. |
| `Run.SenderPhaseKept` | rust/src/handler.rs:98-136 | A sender only ever is a running sender, or has a duration of at least the window in `ClosingWriter` and `Done`. |
| `Run.SenderReportsFullWindow` | rust/src/handler.rs:105-112 | Whatever the stream and the clock answer, a new sender run reports a duration of at least 10 s. |
| `Run.ReceiverNeverClosesWriter` | rust/src/handler.rs:137-166 | A receiver never enters `ClosingWriter` and keeps its discard buffer. |
| `LegacyRun.Next` | src/handler.rs:89-206 | For every pass: a panic leaves `Poisoned`; the counter never decreases; a start time once taken is kept; a result is returned exactly when the state was `Done`, with its figures, leaving `Poisoned`; a `Pending` pass leaves the state exactly as it was. |
| `LegacyRun.PerfRun.constructor` | src/handler.rs:66-72 | A new run is `Running` with no start time, nothing transferred, and the given role. |
| `LegacyRun.PerfRun.Step` | src/handler.rs:90-204 | One pass done in place, as `Next`. |
| `LegacyRun.PerfRun.Poll` | src/handler.rs:89-206 | The result and the number of passes are `PollLoop` of the old state, and the new state is advanced by exactly those passes. |
| `LegacyRun.SenderNotReady` | src/handler.rs:110-117 | While the sink is not ready, the sender returns `Pending` with its state untouched, and no start time is taken. |
| `LegacyRun.SenderSendsBlock` | src/handler.rs:119-134 | Once the sink is ready, the start time is taken if absent and the counter grows by exactly `BUFFER_SIZE` = 128000. A failed send panics. |
| `LegacyRun.SenderCutoff` | src/handler.rs:97-107 | Once at least 10 s have elapsed, the sender becomes `Closing` with the elapsed time and the same counter. |
| `LegacyRun.ReceiverMessage` | src/handler.rs:136-168 | A message adds its length and takes the start time if absent. An error item panics. End of stream gives `Done` with the counter unchanged, or panics if no start time was ever taken. `Pending` changes nothing. |
| `LegacyRun.ClosingFlushThenClose` | src/handler.rs:169-196 | `Pending` on the flush keeps `Closing`. A failed flush panics. After a successful flush, anything but an immediate `Ready(Ok)` close panics. Success gives `Done` with the same figures. |
| `LegacyRun.ReceiverImmediateEndPanics` | src/handler.rs:152-156 | An end-of-stream before any message panics. |
| `LegacyRun.PoisonedStays` | src/handler.rs:197-203 | Once `Poisoned`, a run stays `Poisoned`. |
| `LegacyRun.TransferNeverDecreases` | src/handler.rs:91-196 | Over any sequence of passes that ends in a live state, the counter of the start state is at most the final counter. |
| `LegacyRun.CompletesAtMostOnce` | src/handler.rs:197-203 | After the pass that returns the result, every later pass panics. |
| `LegacyRun.SenderPhaseKept` | src/handler.rs:92-135 | A sender's counter is always a whole number of blocks, and past the cutoff its duration is at least the window. |
| `LegacyRun.SenderReport` | src/handler.rs:97-128 | A new sender run reports at least 10 s, and a multiple of 128000 bytes whatever the transport accepted. |
| `Handler.PerfHandler.constructor` | rust/src/handler.rs:29-50 | A new handler has an empty outbox and no runs. |
| `Handler.PerfHandler.OnBehaviourEvent` | rust/src/handler.rs:249-258 | `StartPerf` queues exactly one `OutboundSubstreamRequest` and touches no run. |
| `Handler.PerfHandler.OnConnectionEvent` | rust/src/handler.rs:260-292 | An inbound negotiation adds one fresh `Receiver` run with a `BUFFER_SIZE`-byte buffer. An outbound negotiation adds one fresh `Sender` run. Existing runs are untouched. `DialUpgradeError` and `ListenUpgradeError` panic. `AddressChange` changes nothing. |
| `Handler.PerfHandler.ConnectionKeepAlive` | rust/src/handler.rs:314-316 | The connection is always kept alive (`KeepAlive::Yes`). |
| `Handler.PerfHandler.Poll` | rust/src/handler.rs:318-345 | With a non-empty outbox, the last-queued event is returned and removed, and no run is touched. Otherwise, no woken run means `Pending`. Otherwise the woken run is polled as `PollLoop` says and no other run changes. A returned result is reported as `PerfRunDone(d, t)` and that run is removed. A panic aborts. Anything else is `Pending`. |
| `LegacyHandler.PerfHandler.constructor` | src/handler.rs:24-45 | A new handler has an empty outbox and no runs. |
| `LegacyHandler.PerfHandler.InjectFullyNegotiatedInbound` | src/handler.rs:243-249 | One fresh `Receiver` run is added, and existing runs are untouched. |
| `LegacyHandler.PerfHandler.InjectFullyNegotiatedOutbound` | src/handler.rs:255-262 | One fresh `Sender` run is added, and existing runs are untouched. |
| `LegacyHandler.PerfHandler.InjectEvent` | src/handler.rs:265-275 | `StartPerf` queues exactly one outbound-stream request. |
| `LegacyHandler.PerfHandler.InjectDialUpgradeError` | src/handler.rs:278-286 | A dial upgrade error always panics. |
| `LegacyHandler.PerfHandler.ConnectionKeepAlive` | src/handler.rs:308-310 | The connection is always kept alive. |
| `LegacyHandler.PerfHandler.Poll` | src/handler.rs:312-339 | The last-queued event comes before any finished run. The woken run is polled as `PollLoop` says, and a returned result is reported as `PerfRunDone(d, t)` and that run removed. |
| `Behaviour.StartActionsPerOutgoingEntry` | rust/src/behaviour.rs:47-57 | `inject_connected(p)` queues exactly as many actions as there are `(p, Outgoing)` entries. Every one is `NotifyHandler{p, StartPerf, Any}`. Nothing is queued exactly when there is no such entry, so `Incoming` entries contribute nothing. |
| `Behaviour.TransferMegabytes` | rust/src/behaviour.rs:141 | The displayed transfer `transfered / 1000 / 1000` is the largest whole number of megabytes not above `transfered`. |
| `Behaviour.TransferMegabits` | rust/src/behaviour.rs:142 | The integer numerator of the displayed bandwidth, `transfered / 1000 / 1000 * 8`, is a multiple of 8. It falls short of the exact megabit count of `transfered` by less than 8. |
| `Behaviour.Perf.constructor` | rust/src/behaviour.rs:18-27 | A new behaviour has no connection entries and an empty outbox. |
| `Behaviour.Perf.NewHandler` | rust/src/behaviour.rs:39-41 | Each connection gets a fresh, empty handler. |
| `Behaviour.Perf.AddressesOfPeer` | rust/src/behaviour.rs:43-45 | The behaviour knows no addresses for any peer. |
| `Behaviour.Perf.InjectConnected` | rust/src/behaviour.rs:47-57 | The outbox grows by exactly `StartActions` of the recorded entries, in entry order, and the entries are unchanged. |
| `Behaviour.Perf.InjectDisconnected` | rust/src/behaviour.rs:59 | Nothing changes: entries are never removed. |
| `Behaviour.Perf.InjectConnectionEstablished` | rust/src/behaviour.rs:61-73 | Exactly one entry is appended: `(peer, Outgoing)` for `Dialer`, `(peer, Incoming)` for `Listener`. |
| `Behaviour.Perf.InjectConnectionClosed` | rust/src/behaviour.rs:75-82 | Nothing changes: the entry is kept. |
| `Behaviour.Perf.InjectEvent` | rust/src/behaviour.rs:84-95 | `PerfRunDone(d, t)` queues exactly one `GenerateEvent(PerfRunDone(d, t))` with the same figures. |
| `Behaviour.Perf.InjectDialFailure` | rust/src/behaviour.rs:97-99 | A dial failure always panics. |
| `Behaviour.Perf.InjectNewListenAddr` | rust/src/behaviour.rs:101 | Nothing changes. |
| `Behaviour.Perf.InjectExpiredListenAddr` | rust/src/behaviour.rs:103 | Nothing changes. |
| `Behaviour.Perf.InjectNewExternalAddr` | rust/src/behaviour.rs:105 | Nothing changes. |
| `Behaviour.Perf.InjectListenerError` | rust/src/behaviour.rs:107-109 | A listener error always panics. |
| `Behaviour.Perf.InjectListenerClosed` | rust/src/behaviour.rs:111-113 | A closed listener always panics, whatever the reason. |
| `Behaviour.Perf.Poll` | rust/src/behaviour.rs:115-125 | The last-queued action is returned and removed. With an empty outbox the result is `Pending` and nothing changes. |

## Left out

- Stream protocol negotiation (rust/src/protocol.rs, src/protocol.rs, and `listen_protocol` in both handlers) is not part of this model. It only names the protocol (`/perf/0.1.0`, `/backpressure`) and hands back the stream unchanged or framed. The negotiated streams are represented by the answers their polls give.
- Transport construction, the end-to-end tests and the binaries (rust/src/lib.rs, src/lib.rs, rust/src/bin, src/bin) are not part of this model. They are library wiring, real network runs and command-line parsing.
- golang/main.go is not part of this model. It is a separate program driven by blocking network I/O.
- src/behaviour.rs is not part of this model. It is a stub whose callbacks panic or return `Pending`.
- Real time: the clock is an input, and the one-second sleep after a sender's close is a no-op. The code reads the clock twice in one pass in three places: at the current sender's cutoff (rust/src/handler.rs:105 and 107), at the current receiver's end of stream on an immediate end (rust/src/handler.rs:143 and 146), and at the older sender's cutoff (src/handler.rs:98 and 101). The model uses a single reading per pass, so a recorded cutoff duration is the very elapsed time that was compared against the window (the code may record a slightly later one), and an immediate end-of-stream records exactly 0 where the code records the small gap between its two readings.
- `Context` and wakers are not modelled. A poll receives the answers for its passes as a finite sequence. When the sequence runs out, the loop stops at a pass boundary and the handler reports `Pending`.
- Scheduling by `FuturesUnordered`: a handler poll drives one run, the one the scheduler woke. A real `poll_next` may drive several woken runs in a single call before one of them finishes.
- Counter overflow: counters are unbounded naturals, so the `usize` additions (rust/src/handler.rs:122 and 152, src/handler.rs:128 and 144) never overflow in the model. In the code they panic on overflow in a debug build and wrap in a release build. On a 64-bit target that needs more than 2^64 bytes in one run; on a 32-bit target 2^32 bytes (about 4.3 GB) is within reach of a 10-second loopback run, and the model then does not capture the panic or the wrapped total.
- The `AsyncRead`/`AsyncWrite` bound is not assumed: a read or write answer may exceed the buffer length. Payload bytes are not modelled; the sender's are zeros and the receiver throws its away.
- The floating-point bandwidth and the text formatting of `PerfEvent`'s display (rust/src/behaviour.rs:136-143) are left out. Only the integer parts are modelled.
- Parameters the callbacks ignore are dropped: the handler passed to `inject_dial_failure` and `inject_connection_closed`, and the error values carried by failures.
- Whole-system properties need a model of the network and the scheduler, so they are not stated. These are conservation (the receiver's total against the sender's) and the upper bound of about 11 s on a loopback run's duration.
