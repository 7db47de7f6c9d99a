/** UdpAcceptor and UdpPassiveConnection as objects updated in place. Every handler is proved to do what
    the acceptor machine says and to keep its invariant. */
module UdpAcceptors {
  import opened Octets
  import opened AcceptorMachine
  import I = AcceptorInvariant
  import Q = SendQueue

  class UdpPassiveConnection {
    const acceptor: UdpAcceptor
    const endpoint: Endpoint
    ghost const id: nat
    var running: bool
    var recvBuffer: seq<Bytes>
    ghost var given: seq<Bytes>
    ghost var dropped: seq<Bytes>
    ghost var trace: seq<Event>

    constructor (acceptor: UdpAcceptor, endpoint: Endpoint, ghost id: nat)
      ensures this.acceptor == acceptor && this.endpoint == endpoint && this.id == id
      ensures Value() == NewPeer(endpoint).(running := false)
    {
      this.acceptor, this.endpoint, this.id := acceptor, endpoint, id;
      running, recvBuffer, given, dropped, trace := false, [], [], [], [];
    }

    ghost function Value(): Peer
      reads this
    {
      Peer(endpoint, running, recvBuffer, given, dropped, trace)
    }

    /** The acceptor knows this connection under its number. */
    ghost predicate Known()
      reads this, acceptor, acceptor.handed
    {
      acceptor.Linked() && id < |acceptor.handed| && acceptor.handed[id] == this
    }

    method RecvBufferDrop() returns (ok: bool)
      requires Known()
      modifies this
      ensures Known() && (ok <==> old(recvBuffer) != [])
      ensures acceptor.State() == Apply(old(acceptor.State()), Drop(id))
    {
      ghost var before := acceptor.State();
      if recvBuffer == [] {
        return false;
      }
      dropped := dropped + [recvBuffer[0]];
      recvBuffer := recvBuffer[1..];
      assert Values(acceptor.handed) == before.peers[id := Value()];
      ok := true;
    }

    /** `isNull` says that the data pointer is null. */
    method SendBufferFill(isNull: bool, data: Bytes, len: nat) returns (ok: bool)
      requires Known()
      requires if isNull then data == [] else len == |data|
      modifies acceptor`posted, acceptor`accepted
      ensures Known() && (ok <==> !isNull || len == 0)
      ensures acceptor.State() == Apply(old(acceptor.State()), if isNull then FillNull(id, len) else Fill(id, data))
    {
      if isNull && len != 0 {
        return false;
      }
      acceptor.Send(endpoint, data);
      ok := true;
    }

    method Close()
      requires Known()
      modifies acceptor`posted
      ensures Known() && acceptor.State() == Apply(old(acceptor.State()), Shut(id))
    {
      acceptor.Close(endpoint);
    }
  }

  ghost function Values(connections: seq<UdpPassiveConnection>): (peers: seq<Peer>)
    reads connections
    ensures |peers| == |connections|
    ensures forall i | 0 <= i < |connections| :: peers[i] == connections[i].Value()
  {
    seq(|connections|, i requires 0 <= i < |connections| reads connections => connections[i].Value())
  }

  lemma Appended(connections: seq<UdpPassiveConnection>, connection: UdpPassiveConnection)
    ensures Values(connections + [connection]) == Values(connections) + [connection.Value()]
  {
  }

  ghost function Numbers(connections: map<Endpoint, UdpPassiveConnection>): (table: map<Endpoint, nat>)
    ensures table.Keys == connections.Keys
    ensures forall e | e in connections :: table[e] == connections[e].id
  {
    map e | e in connections :: connections[e].id
  }

  class UdpAcceptor {
    const good: bool
    var running: bool
    var connectionMap: map<Endpoint, UdpPassiveConnection>
    var sendBuffer: seq<Packet>
    var peerEndpoint: Endpoint
    // the handlers of this acceptor in its io_context's queue
    var posted: seq<Task>
    // the connections whose pointers user code has been handed, in order of creation
    var handed: seq<UdpPassiveConnection>
    // operations in flight, and history
    ghost var reading: nat
    ghost var outstanding: seq<Packet>
    ghost var sent: seq<Packet>
    ghost var arrivals: seq<Packet>
    ghost var accepted: seq<Packet>

    /** The objects hang together: numbers are positions, and only known connections are mapped. */
    ghost predicate Linked()
      reads this, handed
    {
      && (forall i | 0 <= i < |handed| :: handed[i].id == i && handed[i].acceptor == this)
      && (forall e | e in connectionMap ::
            connectionMap[e].id < |handed| && handed[connectionMap[e].id] == connectionMap[e])
    }

    ghost function State(): Acceptor
      reads this, handed
    {
      Acceptor(running, posted, Q.Queue(sendBuffer, outstanding, false, sent),
               Values(handed), Numbers(connectionMap),
               peerEndpoint, reading, arrivals, accepted)
    }

    ghost predicate Valid()
      reads this, handed
    {
      Linked() && I.Inv(State())
    }

    /** Says which of opening the socket, making its address reusable and binding it worked. */
    constructor (isOpen: bool, reusable: bool, bound: bool)
      ensures good <==> isOpen && reusable && bound
      ensures Linked() && State() == Idle()
    {
      running, connectionMap, sendBuffer, peerEndpoint, posted, handed := false, map[], [], 0, [], [];
      reading, outstanding, sent, arrivals, accepted := 0, [], [], [], [];
      good := isOpen && reusable && bound;
    }

    /** Starts receiving, if the socket could be bound. */
    method Start() returns (ok: bool)
      requires Linked() && State() == Idle()
      modifies this`running, this`reading
      ensures ok == good
      ensures State() == if ok then Started() else Idle()
      ensures ok ==> Valid()
    {
      if good {
        running := true;
        Recv();
      }
      ok := good;
    }

    // ---------------------------------------------------------------- sending

    method Send(endpoint: Endpoint, data: Bytes)
      requires Linked()
      modifies this`posted, this`accepted
      ensures Linked() && State() == PostPacket(old(State()), Packet(endpoint, data))
    {
      accepted := accepted + [Packet(endpoint, data)];
      posted := posted + [Task.Push(Packet(endpoint, data))];
    }

    method SendFront()
      requires Linked() && sendBuffer != []
      modifies this`outstanding
      ensures Linked() && State() == old(State()).(queue := Q.Start(old(State()).queue))
    {
      outstanding := outstanding + [sendBuffer[0]];
    }

    method PushSendData(packet: Packet)
      requires Linked()
      modifies this`sendBuffer, this`outstanding
      ensures Linked() && State() == old(State()).(queue := Q.Push(old(State()).queue, packet))
    {
      var needSend := sendBuffer == [];
      sendBuffer := sendBuffer + [packet];
      if needSend {
        SendFront();
      }
    }

    /** The assertion that the buffer is not empty holds; the error is ignored. */
    method HandleSend(error: bool)
      requires Valid() && outstanding != []
      modifies this`sendBuffer, this`outstanding, this`sent
      ensures State() == AcceptorMachine.HandleSend(old(State()))
      ensures Valid()
    {
      I.SendKeeps(State());
      assert sendBuffer != [];
      sent := sent + [outstanding[0]];
      outstanding := outstanding[1..];
      sendBuffer := sendBuffer[1..];
      if sendBuffer != [] {
        SendFront();
      }
    }

    // ---------------------------------------------------------------- calling back

    /** One call of user code on one of the connections it was handed. */
    method Perform(c: Call)
      requires Linked() && c.id < |handed|
      modifies this`posted, this`accepted, handed
      ensures handed == old(handed) && connectionMap == old(connectionMap)
      ensures Linked() && State() == Apply(old(State()), c)
    {
      var connection := handed[c.id];
      match c {
        case Fill(_, data) => var _ := connection.SendBufferFill(false, data, |data|);
        case FillNull(_, len) => var _ := connection.SendBufferFill(true, [], len);
        case Drop(_) => var _ := connection.RecvBufferDrop();
        case Shut(_) => connection.Close();
      }
    }

    /** Calls back about `connection`; user code can only act on connections it was handed. */
    method Notify(connection: UdpPassiveConnection, e: Event, cb: Callback) returns (ok: bool)
      requires Linked() && connection.acceptor == this && connection.Known()
      modifies this`posted, this`accepted, handed
      ensures handed == old(handed) && connectionMap == old(connectionMap)
      ensures Linked() && State() == Invoke(old(State()), connection.id, e, cb)
      ensures ok == cb.ok
    {
      ghost var before := State();
      connection.trace := connection.trace + [e];
      assert Values(handed) == before.peers[connection.id := connection.Value()];
      ghost var start := State();
      var i := 0;
      while i < |cb.calls|
        invariant i <= |cb.calls| && Linked()
        invariant handed == old(handed) && connectionMap == old(connectionMap)
        invariant ApplyAll(State(), cb.calls[i..]) == ApplyAll(start, cb.calls)
      {
        assert cb.calls[i..][0] == cb.calls[i] && cb.calls[i..][1..] == cb.calls[i + 1..];
        if cb.calls[i].id < |handed| {
          Perform(cb.calls[i]);
        }
        i := i + 1;
      }
      ok := cb.ok;
    }

    // ---------------------------------------------------------------- receiving

    method Close(endpoint: Endpoint)
      requires Linked()
      modifies this`posted
      ensures Linked() && State() == Post(old(State()), Task.Close(endpoint))
    {
      posted := posted + [Task.Close(endpoint)];
    }

    /** UdpPassiveConnection::recv */
    method Deliver(connection: UdpPassiveConnection, data: Bytes, cb: Callback)
      requires Linked() && connection.acceptor == this && connection.Known()
      modifies this`posted, this`accepted, handed
      ensures handed == old(handed) && connectionMap == old(connectionMap)
      ensures Linked() && State() == Give(old(State()), connection.id, data, cb)
    {
      ghost var before := State();
      connection.recvBuffer := connection.recvBuffer + [data];
      connection.given := connection.given + [data];
      assert Values(handed) == before.peers[connection.id := connection.Value()];
      var ok := Notify(connection, OnRecv, cb);
      if !ok {
        Close(connection.endpoint);
      }
    }

    /** Creates, maps and hands out a connection for an endpoint that has none. */
    method Create(from: Endpoint) returns (connection: UdpPassiveConnection)
      requires Linked() && from !in connectionMap
      modifies this`connectionMap, this`handed
      ensures fresh(connection) && handed == old(handed) + [connection]
      ensures connectionMap == old(connectionMap)[from := connection]
      ensures connection.acceptor == this && connection.Known() && connection.id == old(|handed|)
      ensures Linked()
      ensures State() == old(State()).(peers := old(State()).peers + [NewPeer(from)],
                                       table := old(State()).table[from := |old(State()).peers|])
    {
      connection := new UdpPassiveConnection(this, from, |handed|);
      connection.running := true;
      Enter(from, connection);
    }

    /** Maps a connection that is not known yet. */
    method Enter(from: Endpoint, connection: UdpPassiveConnection)
      requires Linked() && connection !in handed && connection.acceptor == this && connection.id == |handed|
      modifies this`connectionMap, this`handed
      ensures handed == old(handed) + [connection] && connectionMap == old(connectionMap)[from := connection]
      ensures Linked()
      ensures State() == old(State()).(peers := old(State()).peers + [connection.Value()],
                                       table := old(State()).table[from := |old(State()).peers|])
    {
      ghost var before := State();
      Appended(handed, connection);
      connectionMap := connectionMap[from := connection];
      handed := handed + [connection];
      assert Numbers(connectionMap) == before.table[from := |before.peers|];
    }

    /** The connection for `from`, created and started if there is none. */
    method Accept(from: Endpoint, cb: Callback) returns (connection: UdpPassiveConnection)
      requires Linked()
      modifies this`posted, this`accepted, this`connectionMap, this`handed, handed
      ensures Linked() && State() == Admit(old(State()), from, cb)
      ensures from in connectionMap && connectionMap[from] == connection
      ensures connection.acceptor == this && connection.Known()
      ensures handed == old(handed) || (fresh(connection) && handed == old(handed) + [connection])
    {
      if from in connectionMap {
        connection := connectionMap[from];
      } else {
        connection := Create(from);
        var ok := Notify(connection, OnAccept, cb);
        if !ok {
          Close(from);
        }
      }
    }

    method Route(from: Endpoint, data: Bytes, accept: Callback, recv: Callback)
      requires Linked()
      modifies this`posted, this`accepted, this`connectionMap, this`handed, handed
      ensures Linked() && State() == AcceptorMachine.Route(old(State()), from, data, accept, recv)
    {
      var connection := Accept(from, accept);
      ghost var admitted := State();
      assert admitted.table[from] == connection.id;
      Deliver(connection, data, recv);
      assert State() == Give(admitted, admitted.table[from], data, recv);
    }

    /** What the receive leaves in the buffers before its handler looks at it. */
    method Arrive(from: Endpoint, data: Bytes)
      requires Linked() && reading > 0
      modifies this`reading, this`peerEndpoint, this`arrivals
      ensures Linked()
      ensures State() == old(State()).(reading := old(reading) - 1, lastEndpoint := from,
                                       arrivals := old(arrivals) + [Packet(from, data)])
    {
      reading := reading - 1;
      peerEndpoint := from;
      arrivals := arrivals + [Packet(from, data)];
    }

    method Recv()
      requires Linked()
      modifies this`reading
      ensures Linked() && State() == old(State()).(reading := old(reading) + 1)
    {
      reading := reading + 1;
    }

    /** The error is ignored: nothing here looks at it. */
    method HandleRecv(from: Endpoint, data: Bytes, accept: Callback, recv: Callback)
      requires Linked() && reading > 0
      modifies this`reading, this`peerEndpoint, this`arrivals
      modifies this`posted, this`accepted, this`connectionMap, this`handed, handed
      ensures Linked() && State() == AcceptorMachine.HandleRecv(old(State()), from, data, accept, recv)
    {
      Arrive(from, data);
      ghost var arrived := State();
      Route(from, data, accept, recv);
      assert State() == AcceptorMachine.Route(arrived, from, data, accept, recv);
      Recv();
    }

    /** The completion of a receive, with whatever it left in the endpoint and the buffer. */
    method ReceiveCompleted(error: bool, from: Endpoint, data: Bytes, accept: Callback, recv: Callback)
      requires Valid() && reading > 0
      modifies this, handed
      ensures State() == AcceptorMachine.HandleRecv(old(State()), from, data, accept, recv)
      ensures Valid()
    {
      I.RecvKeeps(State(), from, data, accept, recv);
      HandleRecv(from, data, accept, recv);
    }

    // ---------------------------------------------------------------- closing and stopping

    /** UdpPassiveConnection::stop */
    method StopConnection(connection: UdpPassiveConnection, cb: Callback)
      requires Linked() && connection.acceptor == this && connection.Known()
      modifies this`posted, this`accepted, handed
      ensures handed == old(handed) && connectionMap == old(connectionMap)
      ensures Linked() && State() == StopPeer(old(State()), connection.id, cb)
    {
      if connection.running {
        var _ := Notify(connection, OnClose, cb);
        ghost var called := State();
        connection.running := false;
        assert Values(handed) == called.peers[connection.id := connection.Value()];
      }
    }

    method HandleClose(endpoint: Endpoint, cb: Callback)
      requires Linked()
      modifies this`posted, this`accepted, this`connectionMap, handed
      ensures handed == old(handed)
      ensures Linked() && State() == AcceptorMachine.HandleClose(old(State()), endpoint, cb)
    {
      if endpoint in connectionMap {
        StopConnection(connectionMap[endpoint], cb);
        ghost var stopped := State();
        connectionMap := connectionMap - {endpoint};
        assert Numbers(connectionMap) == stopped.table - {endpoint};
      }
    }

    /** The loop over the map, in the order `order` in which it is iterated. */
    method StopAll(order: seq<(Endpoint, Callback)>)
      requires Linked()
      modifies this`posted, this`accepted, handed
      ensures handed == old(handed) && connectionMap == old(connectionMap)
      ensures Linked() && State() == StopPeers(old(State()), order)
    {
      ghost var start := State();
      var i := 0;
      while i < |order|
        invariant i <= |order| && Linked()
        invariant handed == old(handed) && connectionMap == old(connectionMap)
        invariant StopPeers(State(), order[i..]) == StopPeers(start, order)
      {
        assert order[i..][0] == order[i] && order[i..][1..] == order[i + 1..];
        if order[i].0 in connectionMap {
          StopConnection(connectionMap[order[i].0], order[i].1);
        }
        i := i + 1;
      }
    }

    method HandleStop(order: seq<(Endpoint, Callback)>)
      requires Linked()
      modifies this`posted, this`accepted, this`connectionMap, handed
      ensures handed == old(handed)
      ensures Linked() && State() == AcceptorMachine.HandleStop(old(State()), order)
    {
      StopAll(order);
      connectionMap := map[];
      assert Numbers(connectionMap) == map[];
    }

    method HandlePosted(cb: Callback, order: seq<(Endpoint, Callback)>)
      requires Linked() && posted != []
      modifies this, handed
      ensures Linked() && State() == RunTask(old(State()), cb, order)
    {
      var task := posted[0];
      posted := posted[1..];
      assert State() == old(State()).(posted := old(posted)[1..]);
      match task {
        case Close(endpoint) => HandleClose(endpoint, cb);
        case Stop => HandleStop(order);
        case Push(packet) => PushSendData(packet);
      }
    }

    /** The worker runs the front of the posted queue. */
    method RunPosted(cb: Callback, order: seq<(Endpoint, Callback)>)
      requires Valid() && posted != []
      requires posted[0].Stop? ==> forall e | e in connectionMap :: exists i | 0 <= i < |order| :: order[i].0 == e
      modifies this, handed
      ensures Valid() && State() == RunTask(old(State()), cb, order)
    {
      I.TaskKeeps(State(), cb, order);
      HandlePosted(cb, order);
    }

    method StopListening()
      requires Linked()
      modifies this`running, this`posted
      ensures Linked() && State() == StopAcceptor(old(State()))
      ensures old(Valid()) ==> Valid()
    {
      if I.Inv(State()) {
        I.StopCallKeeps(State());
      }
      if running {
        posted := posted + [Stop];
        running := false;
      }
    }
  }
}
