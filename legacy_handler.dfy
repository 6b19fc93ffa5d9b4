/** `PerfHandler` of src/handler.rs, the older revision of the per-connection handler, written
    against the `ProtocolsHandler` callbacks (`inject_*`) instead of connection events. */
module LegacyHandler {
  import opened Futures
  import opened LegacyRun

  /** `PerfHandlerIn`, the commands sent down to the handler. */
  datatype HandlerIn = StartPerf

  /** `PerfHandlerOut`, the events the handler sends up. */
  datatype HandlerOut = PerfRunDone(duration: nat, transfered: nat)

  /** `ProtocolsHandlerEvent` as this handler emits it; the request's protocol is always the
      perf protocol and its open info is `()`, so the request carries nothing. */
  datatype HandlerEvent = OutboundSubstreamRequest | Custom(out: HandlerOut)

  /** `KeepAlive` */
  datatype KeepAlive = Until(deadline: Tick) | Yes | No

  class PerfHandler {
    /** Events not yet handed to the connection, a `Vec` used as a stack. */
    var outbox: seq<HandlerEvent>
    /** The active runs, a `FuturesUnordered`; no run is held twice. */
    var runs: seq<PerfRun>

    ghost predicate Valid()
      reads this
    {
      forall i, j :: 0 <= i < j < |runs| ==> runs[i] != runs[j]
    }

    /** `PerfHandler::default()` */
    constructor ()
      ensures Valid() && outbox == [] && runs == []
    {
      outbox, runs := [], [];
    }

    /** `inject_fully_negotiated_inbound`: the stream becomes one new receiver run. */
    method InjectFullyNegotiatedInbound()
      requires Valid()
      modifies this`runs
      ensures Valid() && outbox == old(outbox)
      ensures |runs| == |old(runs)| + 1 && runs[..|old(runs)|] == old(runs)
      ensures fresh(runs[|old(runs)|]) && runs[|old(runs)|].state == Running(None, 0, Receiver)
      ensures forall i :: 0 <= i < |old(runs)| ==> old(runs)[i].state == old(runs[i].state)
    {
      var run := new PerfRun(Receiver);
      runs := runs + [run];
    }

    /** `inject_fully_negotiated_outbound`: the stream becomes one new sender run. */
    method InjectFullyNegotiatedOutbound()
      requires Valid()
      modifies this`runs
      ensures Valid() && outbox == old(outbox)
      ensures |runs| == |old(runs)| + 1 && runs[..|old(runs)|] == old(runs)
      ensures fresh(runs[|old(runs)|]) && runs[|old(runs)|].state == Running(None, 0, Sender)
      ensures forall i :: 0 <= i < |old(runs)| ==> old(runs)[i].state == old(runs[i].state)
    {
      var run := new PerfRun(Sender);
      runs := runs + [run];
    }

    /** `inject_event`: a start command queues exactly one outbound-stream request. */
    method InjectEvent(event: HandlerIn)
      modifies this`outbox
      ensures outbox == old(outbox) + [OutboundSubstreamRequest]
      ensures runs == old(runs)
    {
      match event {
        case StartPerf =>
          outbox := outbox + [OutboundSubstreamRequest];
      }
    }

    /** `inject_dial_upgrade_error`: always panics. */
    method InjectDialUpgradeError() returns (c: Call<()>)
      ensures c == Panics
    {
      c := Panics;
    }

    /** `connection_keep_alive`: the connection is kept open, whatever the handler holds. */
    function ConnectionKeepAlive(): (k: KeepAlive)
      ensures k == Yes
    {
      Yes
    }

    /** `poll`: the most recently queued event is handed out first (`Vec::pop`).  Only with
        an empty outbox is a run driven: `pick` is the run the scheduler woke (none when it
        is out of range) and `envs` the answers its stream and the clock give.  A run that
        returns its result is removed and reported; a panicking run aborts the process. */
    method Poll(pick: nat, envs: seq<Env>) returns (c: Call<Poll<HandlerEvent>>)
      requires Valid()
      modifies this, runs
      ensures Valid()
      ensures |old(outbox)| > 0 ==>
        c == Returns(Ready(old(outbox)[|old(outbox)| - 1])) &&
        outbox == old(outbox)[..|old(outbox)| - 1] &&
        runs == old(runs) &&
        forall i :: 0 <= i < |runs| ==> runs[i].state == old(runs[i].state)
      ensures |old(outbox)| == 0 && pick >= |old(runs)| ==>
        c == Returns(Pending) && outbox == [] && runs == old(runs) &&
        forall i :: 0 <= i < |runs| ==> runs[i].state == old(runs[i].state)
      ensures |old(outbox)| == 0 && pick < |old(runs)| ==>
        outbox == [] &&
        (forall i :: 0 <= i < |old(runs)| && i != pick ==> old(runs)[i].state == old(runs[i].state)) &&
        var (it, used) := PollLoop(Next, old(runs[pick].state), envs);
        used <= |envs| &&
        old(runs)[pick].state == After(Next, old(runs[pick].state), envs[..used]) &&
        if it.Return? && it.poll.Ready? then
          c == Returns(Ready(Custom(PerfRunDone(it.poll.value.0, it.poll.value.1)))) &&
          runs == old(runs)[..pick] + old(runs)[pick + 1..]
        else if it.Panic? then
          c == Panics && runs == old(runs)
        else
          c == Returns(Pending) && runs == old(runs)
    {
      if |outbox| > 0 {
        var event := outbox[|outbox| - 1];
        outbox := outbox[..|outbox| - 1];
        return Returns(Ready(event));
      }
      if pick >= |runs| {
        return Returns(Pending);
      }
      var run := runs[pick];
      var r, used := run.Poll(envs);
      match r {
        case Return(Ready((duration, transfered))) =>
          runs := runs[..pick] + runs[pick + 1..];
          c := Returns(Ready(Custom(PerfRunDone(duration, transfered))));
        case Panic(_) =>
          c := Panics;
        case _ =>
          c := Returns(Pending);
      }
    }
  }
}
