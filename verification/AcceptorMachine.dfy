/** UdpAcceptor and the UdpPassiveConnections behind it as a step machine: one socket, one worker, one
    send queue, and a table from endpoints to the connections that are open. Connections are numbered in
    the order in which they were created, and stay in the list after they are closed. */
module AcceptorMachine {
  import opened Octets
  import Q = SendQueue

  /** An address and a port. */
  type Endpoint = nat

  datatype Packet = Packet(endpoint: Endpoint, data: Bytes)

  datatype Event = OnAccept | OnRecv | OnClose

  /** A passive connection; `given` and `dropped` are history, like `trace`. */
  datatype Peer = Peer(endpoint: Endpoint, running: bool, queue: seq<Bytes>,
                       given: seq<Bytes>, dropped: seq<Bytes>, trace: seq<Event>)

  datatype Task = Close(endpoint: Endpoint) | Stop | Push(packet: Packet)

  /** What user code may do to the connections it was handed. */
  datatype Call = Fill(id: nat, data: Bytes) | FillNull(id: nat, len: nat) | Drop(id: nat) | Shut(id: nat)

  datatype Callback = Callback(calls: seq<Call>, ok: bool)

  datatype Acceptor = Acceptor(
    running: bool, posted: seq<Task>, queue: Q.Queue<Packet>,
    peers: seq<Peer>, table: map<Endpoint, nat>,
    lastEndpoint: Endpoint, reading: nat,
    // history
    arrivals: seq<Packet>, accepted: seq<Packet>)

  /** Made, but not started. */
  function Idle(): Acceptor {
    Started().(running := false, reading := 0)
  }

  /** A started acceptor: the socket is bound and the first receive is in flight. */
  function Started(): Acceptor {
    Acceptor(true, [], Q.Empty(), [], map[], 0, 1, [], [])
  }

  // ---------------------------------------------------------------- user calls

  function Post(s: Acceptor, t: Task): Acceptor {
    s.(posted := s.posted + [t])
  }

  function PostPacket(s: Acceptor, p: Packet): Acceptor {
    Post(s.(accepted := s.accepted + [p]), Push(p))
  }

  function Apply(s: Acceptor, c: Call): Acceptor {
    if c.id >= |s.peers| then s else
    var peer := s.peers[c.id];
    match c
    case Fill(_, data) => PostPacket(s, Packet(peer.endpoint, data))
    case FillNull(_, len) => if len != 0 then s else PostPacket(s, Packet(peer.endpoint, []))
    case Drop(id) =>
      if peer.queue == [] then s
      else s.(peers := s.peers[id := peer.(queue := peer.queue[1..], dropped := peer.dropped + [peer.queue[0]])])
    case Shut(_) => Post(s, Close(peer.endpoint))
  }

  function ApplyAll(s: Acceptor, calls: seq<Call>): Acceptor
    decreases |calls|
  {
    if calls == [] then s else ApplyAll(Apply(s, calls[0]), calls[1..])
  }

  function Invoke(s: Acceptor, id: nat, e: Event, cb: Callback): Acceptor
    requires id < |s.peers|
  {
    ApplyAll(s.(peers := s.peers[id := s.peers[id].(trace := s.peers[id].trace + [e])]), cb.calls)
  }

  // ---------------------------------------------------------------- handlers

  /** A callback that returned false closes by endpoint. */
  function CloseUnless(ok: bool, s: Acceptor, e: Endpoint): Acceptor {
    if ok then s else Post(s, Close(e))
  }

  function NewPeer(e: Endpoint): Peer {
    Peer(e, true, [], [], [], [])
  }

  /** Makes sure that `from` has a connection, creating and starting one if it has none. */
  function Admit(s: Acceptor, from: Endpoint, cb: Callback): Acceptor {
    if from in s.table then s
    else
      var id := |s.peers|;
      CloseUnless(cb.ok,
        Invoke(s.(peers := s.peers + [NewPeer(from)], table := s.table[from := id]), id, OnAccept, cb), from)
  }

  function Give(s: Acceptor, id: nat, data: Bytes, cb: Callback): Acceptor
    requires id < |s.peers|
  {
    var peer := s.peers[id];
    CloseUnless(cb.ok,
      Invoke(s.(peers := s.peers[id := peer.(queue := peer.queue + [data], given := peer.given + [data])]),
             id, OnRecv, cb), peer.endpoint)
  }

  /** Hands a datagram to the connection of its sender. */
  function Route(s: Acceptor, from: Endpoint, data: Bytes, accept: Callback, recv: Callback): Acceptor {
    var t := Admit(s, from, accept);
    if from in t.table && t.table[from] < |t.peers| then Give(t, t.table[from], data, recv) else t
  }

  /** A receive completed. The error is ignored: whatever a failed receive leaves in the endpoint and the
      buffer, usually the endpoint of the previous one and no bytes, is handled as a datagram. */
  function HandleRecv(s: Acceptor, from: Endpoint, data: Bytes, accept: Callback, recv: Callback): Acceptor
    requires s.reading > 0
  {
    var s1 := s.(reading := s.reading - 1, lastEndpoint := from, arrivals := s.arrivals + [Packet(from, data)]);
    var s2 := Route(s1, from, data, accept, recv);
    s2.(reading := s2.reading + 1)
  }

  function StopPeer(s: Acceptor, id: nat, cb: Callback): Acceptor {
    if id < |s.peers| && s.peers[id].running then
      var t := Invoke(s, id, OnClose, cb);
      if id < |t.peers| then t.(peers := t.peers[id := t.peers[id].(running := false)]) else t
    else s
  }

  function HandleClose(s: Acceptor, e: Endpoint, cb: Callback): Acceptor {
    if e in s.table then
      var t := StopPeer(s, s.table[e], cb);
      t.(table := t.table - {e})
    else s
  }

  /** The loop of handle_stop over the table, in the order it is iterated. */
  function StopPeers(s: Acceptor, order: seq<(Endpoint, Callback)>): Acceptor
    decreases |order|
  {
    if order == [] then s
    else StopPeers(if order[0].0 in s.table then StopPeer(s, s.table[order[0].0], order[0].1) else s, order[1..])
  }

  function HandleStop(s: Acceptor, order: seq<(Endpoint, Callback)>): Acceptor {
    StopPeers(s, order).(table := map[])
  }

  /** The order visits every mapped endpoint. */
  ghost predicate Visits(order: seq<(Endpoint, Callback)>, table: map<Endpoint, nat>) {
    forall e | e in table :: exists i | 0 <= i < |order| :: order[i].0 == e
  }

  /** Runs the front of the posted queue. */
  function RunTask(s: Acceptor, cb: Callback, order: seq<(Endpoint, Callback)>): Acceptor
    requires s.posted != []
  {
    var t := s.posted[0];
    var s := s.(posted := s.posted[1..]);
    match t
    case Close(e) => HandleClose(s, e, cb)
    case Stop => HandleStop(s, order)
    case Push(p) => s.(queue := Q.Push(s.queue, p))
  }

  /** A send completed, with or without error: the front is popped either way. */
  function HandleSend(s: Acceptor): Acceptor
    requires s.queue.outstanding != []
  {
    s.(queue := Q.Finish(s.queue))
  }

  function StopAcceptor(s: Acceptor): Acceptor {
    if s.running then Post(s, Stop).(running := false) else s
  }

  // ---------------------------------------------------------------- steps and runs

  datatype Step =
    | Received(ok: bool, from: Endpoint, data: Bytes, accept: Callback, recv: Callback)
    | SendDone(ok: bool)
    | Posted(cb: Callback, order: seq<(Endpoint, Callback)>)
    | Api(call: Call)
    | StopCall

  ghost predicate Enabled(s: Acceptor, step: Step) {
    match step
    case Received(_, _, _, _, _) => s.reading > 0
    case SendDone(_) => s.queue.outstanding != []
    case Posted(_, order) => s.posted != [] && (s.posted[0].Stop? ==> Visits(order, s.table))
    case Api(c) => !c.Drop?
    case StopCall => true
  }

  ghost function Next(s: Acceptor, step: Step): Acceptor
    requires Enabled(s, step)
  {
    match step
    case Received(_, from, data, accept, recv) => HandleRecv(s, from, data, accept, recv)
    case SendDone(_) => HandleSend(s)
    case Posted(cb, order) => RunTask(s, cb, order)
    case Api(c) => Apply(s, c)
    case StopCall => StopAcceptor(s)
  }

  ghost predicate Legal(s: Acceptor, steps: seq<Step>)
    decreases |steps|
  {
    steps != [] ==> Enabled(s, steps[0]) && Legal(Next(s, steps[0]), steps[1..])
  }

  ghost function Run(s: Acceptor, steps: seq<Step>): Acceptor
    requires Legal(s, steps)
    decreases |steps|
  {
    if steps == [] then s else Run(Next(s, steps[0]), steps[1..])
  }
}
