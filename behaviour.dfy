/** `Perf` of rust/src/behaviour.rs, the session behaviour: one per node.  It records the
    direction of every established connection, asks the handler of a connection this node
    dialed to start a run, and relays finished runs to the application. */
module Behaviour {
  import opened Futures
  import Handler

  /** Peer identities and addresses are compared, never interpreted. */
  type PeerId = seq<bv8>
  type Multiaddr = seq<bv8>
  type ConnectionId = nat
  type ListenerId = nat

  datatype Direction = Incoming | Outgoing

  /** `ConnectedPoint`: whether this node dialed the connection or accepted it. */
  datatype ConnectedPoint = Dialer | Listener

  /** `NotifyHandler`: which of the peer's connection handlers gets a command. */
  datatype HandlerChoice = Any

  /** `PerfEvent`, the event the application sees. */
  datatype PerfEvent = PerfRunDone(duration: nat, transfered: nat)

  /** `NetworkBehaviourAction` as this behaviour emits it. */
  datatype Action =
    | NotifyHandler(peerId: PeerId, event: Handler.HandlerIn, handler: HandlerChoice)
    | GenerateEvent(outEvent: PerfEvent)

  /** The command that asks a peer's handler to start a run. */
  function StartPerfFor(peerId: PeerId): Action
  {
    NotifyHandler(peerId, Handler.StartPerf, Any)
  }

  /** What the loop of `inject_connected` queues for `peerId`, entry by entry. */
  function StartActions(peers: seq<(PeerId, Direction)>, peerId: PeerId): seq<Action>
    decreases |peers|
  {
    if peers == [] then []
    else
      StartActions(peers[..|peers| - 1], peerId) +
        (if peers[|peers| - 1] == (peerId, Outgoing) then [StartPerfFor(peerId)] else [])
  }

  /** One start command per connection to `peerId` that this node dialed, and none for the
      connections it accepted. */
  lemma {:induction false} StartActionsPerOutgoingEntry(peers: seq<(PeerId, Direction)>, peerId: PeerId)
    ensures |StartActions(peers, peerId)| == multiset(peers)[(peerId, Outgoing)]
    ensures forall k :: 0 <= k < |StartActions(peers, peerId)| ==>
              StartActions(peers, peerId)[k] == StartPerfFor(peerId)
    ensures StartActions(peers, peerId) == [] <==> (peerId, Outgoing) !in peers
    decreases |peers|
  {
    if peers != [] {
      var init, last := peers[..|peers| - 1], peers[|peers| - 1];
      assert peers == init + [last];
      assert multiset(peers) == multiset(init) + multiset{last};
      StartActionsPerOutgoingEntry(init, peerId);
    }
  }

  /** `PerfEvent`'s display: the transferred figure in whole megabytes (`/ 1000 / 1000`). */
  function TransferMegabytes(transfered: nat): (mb: nat)
    ensures mb * 1_000_000 <= transfered < (mb + 1) * 1_000_000
  {
    var kb := transfered / 1000;
    assert kb * 1000 <= transfered < kb * 1000 + 1000;
    var mb := kb / 1000;
    assert mb * 1000 <= kb < mb * 1000 + 1000;
    assert mb * 1_000_000 <= kb * 1000 by {
      assert mb * 1_000_000 == (mb * 1000) * 1000;
    }
    assert kb * 1000 + 1000 <= (mb + 1) * 1_000_000 by {
      assert kb + 1 <= mb * 1000 + 1000;
      assert (kb + 1) * 1000 <= (mb * 1000 + 1000) * 1000;
    }
    mb
  }

  /** The integer numerator of the displayed bandwidth, `transfered / 1000 / 1000 * 8`: the
      megabits moved, truncated to whole megabytes before scaling, so it falls short of the
      exact figure by less than 8. */
  function TransferMegabits(transfered: nat): (mbit: nat)
    ensures mbit % 8 == 0
    ensures mbit <= transfered * 8 / 1_000_000 < mbit + 8
  {
    var mb := TransferMegabytes(transfered);
    assert mb * 8_000_000 <= transfered * 8 < (mb + 1) * 8_000_000;
    assert mb * 8 * 1_000_000 <= transfered * 8;
    mb * 8
  }

  class Perf {
    /** One entry per established connection, in the order they were reported. */
    var connectedPeers: seq<(PeerId, Direction)>
    /** Actions not yet handed to the swarm, a `Vec` used as a stack. */
    var outbox: seq<Action>

    /** `Perf::default()` */
    constructor ()
      ensures connectedPeers == [] && outbox == []
    {
      connectedPeers, outbox := [], [];
    }

    /** `new_handler`: a fresh, empty connection handler. */
    method NewHandler() returns (h: Handler.PerfHandler)
      ensures fresh(h) && h.Valid() && h.outbox == [] && h.runs == []
    {
      h := new Handler.PerfHandler();
    }

    /** `addresses_of_peer`: the behaviour knows no addresses. */
    function AddressesOfPeer(peerId: PeerId): (addresses: seq<Multiaddr>)
      ensures addresses == []
    {
      []
    }

    /** `inject_connected`: for every recorded connection to `peerId` that this node dialed,
        queue one start command for that peer. */
    method InjectConnected(peerId: PeerId)
      modifies this`outbox
      ensures outbox == old(outbox) + StartActions(connectedPeers, peerId)
      ensures connectedPeers == old(connectedPeers)
    {
      var i := 0;
      while i < |connectedPeers|
        invariant 0 <= i <= |connectedPeers|
        invariant outbox == old(outbox) + StartActions(connectedPeers[..i], peerId)
      {
        var (peer, direction) := connectedPeers[i];
        assert connectedPeers[..i + 1][..i] == connectedPeers[..i];
        if peer == peerId && direction.Outgoing? {
          outbox := outbox + [StartPerfFor(peerId)];
        }
        i := i + 1;
      }
      assert connectedPeers[..i] == connectedPeers;
    }

    /** `inject_disconnected`: nothing is forgotten. */
    method InjectDisconnected(peerId: PeerId)
      ensures connectedPeers == old(connectedPeers) && outbox == old(outbox)
    {
    }

    /** `inject_connection_established`: exactly one entry is appended, `Outgoing` for a
        connection this node dialed and `Incoming` for one it accepted. */
    method InjectConnectionEstablished(peerId: PeerId, connection: ConnectionId, point: ConnectedPoint)
      modifies this`connectedPeers
      ensures connectedPeers ==
        old(connectedPeers) + [(peerId, if point.Dialer? then Outgoing else Incoming)]
      ensures outbox == old(outbox)
    {
      var direction := match point
        case Dialer => Outgoing
        case Listener => Incoming;
      connectedPeers := connectedPeers + [(peerId, direction)];
    }

    /** `inject_connection_closed`: the entry for the connection is kept. */
    method InjectConnectionClosed(peerId: PeerId, connection: ConnectionId, point: ConnectedPoint)
      ensures connectedPeers == old(connectedPeers) && outbox == old(outbox)
    {
    }

    /** `inject_event`: a finished run is queued for the application with the same figures. */
    method InjectEvent(peerId: PeerId, connection: ConnectionId, event: Handler.HandlerOut)
      modifies this`outbox
      ensures outbox == old(outbox) + [GenerateEvent(PerfRunDone(event.duration, event.transfered))]
      ensures connectedPeers == old(connectedPeers)
    {
      match event {
        case PerfRunDone(duration, transfered) =>
          outbox := outbox + [GenerateEvent(PerfRunDone(duration, transfered))];
      }
    }

    /** `inject_dial_failure`: always panics. */
    method InjectDialFailure(peerId: PeerId) returns (c: Call<()>)
      ensures c == Panics
    {
      c := Panics;
    }

    /** `inject_new_listen_addr`: nothing changes. */
    method InjectNewListenAddr(listener: ListenerId, address: Multiaddr)
      ensures connectedPeers == old(connectedPeers) && outbox == old(outbox)
    {
    }

    /** `inject_expired_listen_addr`: nothing changes. */
    method InjectExpiredListenAddr(listener: ListenerId, address: Multiaddr)
      ensures connectedPeers == old(connectedPeers) && outbox == old(outbox)
    {
    }

    /** `inject_new_external_addr`: nothing changes. */
    method InjectNewExternalAddr(address: Multiaddr)
      ensures connectedPeers == old(connectedPeers) && outbox == old(outbox)
    {
    }

    /** `inject_listener_error`: always panics. */
    method InjectListenerError(listener: ListenerId) returns (c: Call<()>)
      ensures c == Panics
    {
      c := Panics;
    }

    /** `inject_listener_closed`: always panics, whatever the reason. */
    method InjectListenerClosed(listener: ListenerId, reason: IoResult<()>) returns (c: Call<()>)
      ensures c == Panics
    {
      c := Panics;
    }

    /** `poll`: hands out the most recently queued action (`Vec::pop`), or `Pending` with
        nothing changed when there is none. */
    method Poll() returns (r: Poll<Action>)
      modifies this`outbox
      ensures |old(outbox)| > 0 ==>
        r == Ready(old(outbox)[|old(outbox)| - 1]) && outbox == old(outbox)[..|old(outbox)| - 1]
      ensures |old(outbox)| == 0 ==> r == Pending && outbox == old(outbox)
      ensures connectedPeers == old(connectedPeers)
    {
      if |outbox| > 0 {
        r := Ready(outbox[|outbox| - 1]);
        outbox := outbox[..|outbox| - 1];
      } else {
        r := Pending;
      }
    }
  }
}
