/** `PerfHandler` of rust/src/handler.rs: one per connection.  It turns a start command into
    a request for an outbound stream, turns every negotiated stream into a run (a sender for
    a stream it asked for, a receiver for one the remote opened), and reports finished runs. */
module Handler {
  import opened Futures
  import opened Run

  /** `PerfHandlerIn`, the commands the session behaviour sends down. */
  datatype HandlerIn = StartPerf

  /** `PerfHandlerOut`, the events the handler sends up. */
  datatype HandlerOut = PerfRunDone(duration: nat, transfered: nat)

  /** `ConnectionHandlerEvent` as this handler emits it; the protocol it asks for is always
      the perf protocol, so the request carries nothing. */
  datatype HandlerEvent = OutboundSubstreamRequest | Custom(out: HandlerOut)

  /** `ConnectionEvent`.  The negotiated streams themselves are not values here: a run's
      stream is represented by the answers the environment gives to the run's polls. */
  datatype ConnectionEvent =
    | FullyNegotiatedInbound
    | FullyNegotiatedOutbound
    | DialUpgradeError
    | ListenUpgradeError
    | AddressChange

  /** `KeepAlive` */
  datatype KeepAlive = Until(deadline: Tick) | Yes | No

  class PerfHandler {
    /** Events not yet handed to the connection, a `Vec` used as a stack. */
    var outbox: seq<HandlerEvent>
    /** The active runs, a `FuturesUnordered`; no run is held twice. */
    var runs: seq<PerfRun>

    ghost predicate Valid()
      reads this
    {
      forall i, j :: 0 <= i < j < |runs| ==> runs[i] != runs[j]
    }

    /** `PerfHandler::default()` */
    constructor ()
      ensures Valid() && outbox == [] && runs == []
    {
      outbox, runs := [], [];
    }

    /** `on_behaviour_event`: a start command queues exactly one outbound-stream request. */
    method OnBehaviourEvent(event: HandlerIn)
      modifies this`outbox
      ensures outbox == old(outbox) + [OutboundSubstreamRequest]
      ensures runs == old(runs)
    {
      match event {
        case StartPerf =>
          outbox := outbox + [OutboundSubstreamRequest];
      }
    }

    /** `on_connection_event`: a stream negotiated inbound becomes one new receiver run with
        a `BUFFER_SIZE` discard buffer, one negotiated outbound one new sender run; an upgrade
        error in either direction panics, and an address change does nothing. */
    method OnConnectionEvent(event: ConnectionEvent) returns (c: Call<()>)
      requires Valid()
      modifies this`runs
      ensures Valid() && outbox == old(outbox)
      ensures forall i :: 0 <= i < |old(runs)| ==> old(runs)[i].state == old(runs[i].state)
      ensures (event.FullyNegotiatedInbound? || event.FullyNegotiatedOutbound?) ==>
        c == Returns(()) &&
        |runs| == |old(runs)| + 1 && runs[..|old(runs)|] == old(runs) &&
        fresh(runs[|old(runs)|]) &&
        runs[|old(runs)|].state ==
          Running(None, 0, if event.FullyNegotiatedInbound? then Receiver(BUFFER_SIZE) else Sender)
      ensures (event.DialUpgradeError? || event.ListenUpgradeError?) ==> c == Panics && runs == old(runs)
      ensures event.AddressChange? ==> c == Returns(()) && runs == old(runs)
    {
      match event {
        case FullyNegotiatedInbound =>
          var run := new PerfRun(Receiver(BUFFER_SIZE));
          runs := runs + [run];
          c := Returns(());
        case FullyNegotiatedOutbound =>
          var run := new PerfRun(Sender);
          runs := runs + [run];
          c := Returns(());
        case DialUpgradeError =>
          c := Panics;
        case ListenUpgradeError =>
          c := Panics;
        case AddressChange =>
          c := Returns(());
      }
    }

    /** `connection_keep_alive`: the connection is kept open, whatever the handler holds. */
    function ConnectionKeepAlive(): (k: KeepAlive)
      ensures k == Yes
    {
      Yes
    }

    /** `poll`: the most recently queued event is handed out first (`Vec::pop`).  Only with
        an empty outbox is a run driven: `pick` is the run the scheduler woke (none when it
        is out of range) and `envs` the answers its stream and the clock give.  A run that
        returns its result is removed and reported; a panicking run aborts the process. */
    method Poll(pick: nat, envs: seq<Env>) returns (c: Call<Poll<HandlerEvent>>)
      requires Valid()
      modifies this, runs
      ensures Valid()
      ensures |old(outbox)| > 0 ==>
        c == Returns(Ready(old(outbox)[|old(outbox)| - 1])) &&
        outbox == old(outbox)[..|old(outbox)| - 1] &&
        runs == old(runs) &&
        forall i :: 0 <= i < |runs| ==> runs[i].state == old(runs[i].state)
      ensures |old(outbox)| == 0 && pick >= |old(runs)| ==>
        c == Returns(Pending) && outbox == [] && runs == old(runs) &&
        forall i :: 0 <= i < |runs| ==> runs[i].state == old(runs[i].state)
      ensures |old(outbox)| == 0 && pick < |old(runs)| ==>
        outbox == [] &&
        (forall i :: 0 <= i < |old(runs)| && i != pick ==> old(runs)[i].state == old(runs[i].state)) &&
        var (it, used) := PollLoop(Next, old(runs[pick].state), envs);
        used <= |envs| &&
        old(runs)[pick].state == After(Next, old(runs[pick].state), envs[..used]) &&
        if it.Return? && it.poll.Ready? then
          c == Returns(Ready(Custom(PerfRunDone(it.poll.value.0, it.poll.value.1)))) &&
          runs == old(runs)[..pick] + old(runs)[pick + 1..]
        else if it.Panic? then
          c == Panics && runs == old(runs)
        else
          c == Returns(Pending) && runs == old(runs)
    {
      if |outbox| > 0 {
        var event := outbox[|outbox| - 1];
        outbox := outbox[..|outbox| - 1];
        return Returns(Ready(event));
      }
      if pick >= |runs| {
        return Returns(Pending);
      }
      var run := runs[pick];
      var r, used := run.Poll(envs);
      match r {
        case Return(Ready((duration, transfered))) =>
          runs := runs[..pick] + runs[pick + 1..];
          c := Returns(Ready(Custom(PerfRunDone(duration, transfered))));
        case Panic(_) =>
          c := Panics;
        case _ =>
          c := Returns(Pending);
      }
    }
  }
}
