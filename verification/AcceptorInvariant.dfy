/** What every step of the acceptor keeps. */
module AcceptorInvariant {
  import opened Octets
  import opened AcceptorMachine
  import Q = SendQueue

  /** The packets still waiting in the posted queue. */
  function Packets(posted: seq<Task>): seq<Packet> {
    if posted == [] then []
    else (if posted[0].Push? then [posted[0].packet] else []) + Packets(posted[1..])
  }

  lemma {:induction false} PacketsConcat(a: seq<Task>, b: seq<Task>)
    ensures Packets(a + b) == Packets(a) + Packets(b)
  {
    if a == [] {
      assert a + b == b;
    } else {
      assert (a + b)[0] == a[0] && (a + b)[1..] == a[1..] + b;
      PacketsConcat(a[1..], b);
    }
  }

  lemma PacketsPost(a: seq<Task>, t: Task)
    ensures Packets(a + [t]) == Packets(a) + (if t.Push? then [t.packet] else [])
  {
    PacketsConcat(a, [t]);
    assert [t][1..] == [];
  }

  /** The callbacks of a passive connection: on_accept, then on_recv any number of times, then on_close
      exactly if it is no longer running, and nothing after it. */
  ghost predicate Shape(p: Peer) {
    && p.trace != [] && p.trace[0] == OnAccept
    && (forall i | 0 < i < |p.trace| - (if p.running then 0 else 1) :: p.trace[i] == OnRecv)
    && (!p.running ==> |p.trace| >= 2 && p.trace[|p.trace| - 1] == OnClose)
  }

  ghost predicate PeerInv(p: Peer) {
    Shape(p) && p.given == p.dropped + p.queue
  }

  /** Each key is its connection's endpoint, and a connection is running exactly if it is mapped. */
  ghost predicate TableInv(peers: seq<Peer>, table: map<Endpoint, nat>) {
    && (forall e | e in table :: table[e] < |peers| && peers[table[e]].endpoint == e && peers[table[e]].running)
    && (forall i | 0 <= i < |peers| && peers[i].running :: Mapped(peers, table, i))
  }

  ghost predicate Mapped(peers: seq<Peer>, table: map<Endpoint, nat>, i: nat)
    requires i < |peers|
  {
    peers[i].endpoint in table && table[peers[i].endpoint] == i
  }

  /** Only the latest connection of an endpoint can be running. */
  ghost predicate Succession(peers: seq<Peer>) {
    forall i, j | 0 <= i < j < |peers| && peers[i].endpoint == peers[j].endpoint :: !peers[i].running
  }

  ghost predicate SendInv(s: Acceptor) {
    && Q.Valid(s.queue) && !s.queue.failed
    && s.accepted == Q.Pushed(s.queue) + Packets(s.posted)
  }

  /** The data of the packets from one endpoint. */
  function Project(packets: seq<Packet>, e: Endpoint): seq<Bytes> {
    if packets == [] then []
    else
      var last := packets[|packets| - 1];
      Project(packets[..|packets| - 1], e) + (if last.endpoint == e then [last.data] else [])
  }

  /** What the successive connections of one endpoint were given, concatenated. */
  function GivenTo(peers: seq<Peer>, e: Endpoint): seq<Bytes> {
    if peers == [] then []
    else
      var last := peers[|peers| - 1];
      GivenTo(peers[..|peers| - 1], e) + (if last.endpoint == e then last.given else [])
  }

  ghost predicate Inv(s: Acceptor) {
    && s.reading == 1
    && SendInv(s)
    && (forall i | 0 <= i < |s.peers| :: PeerInv(s.peers[i]))
    && TableInv(s.peers, s.table)
    && Succession(s.peers)
    && (forall e :: Project(s.arrivals, e) == GivenTo(s.peers, e))
  }

  // ---------------------------------------------------------------- what user calls can change

  /** User calls can only take datagrams from the front of a queue. */
  ghost predicate Dropping(p: Peer, q: Peer) {
    && q == p.(queue := q.queue, dropped := q.dropped)
    && q.dropped + q.queue == p.dropped + p.queue
  }

  ghost predicate Calls(s: Acceptor, t: Acceptor, added: seq<Task>) {
    && t == s.(posted := s.posted + added, accepted := s.accepted + Packets(added), peers := t.peers)
    && |t.peers| == |s.peers|
    && (forall i | 0 <= i < |s.peers| :: Dropping(s.peers[i], t.peers[i]))
  }

  lemma ApplyCalls(s: Acceptor, c: Call) returns (added: seq<Task>)
    ensures Calls(s, Apply(s, c), added)
  {
    assert s.posted + [] == s.posted && s.accepted + [] == s.accepted;
    added := [];
    if c.id < |s.peers| {
      var e := s.peers[c.id].endpoint;
      match c {
        case Fill(_, data) => added := [Push(Packet(e, data))];
        case FillNull(_, len) => added := if len != 0 then [] else [Push(Packet(e, []))];
        case Shut(_) => added := [Close(e)];
        case Drop(id) => DropCalls(s, id);
      }
      if added != [] {
        PacketsPost([], added[0]);
        assert [] + [added[0]] == added;
      }
    }
  }

  lemma DropCalls(s: Acceptor, id: nat)
    requires id < |s.peers|
    ensures Calls(s, Apply(s, Drop(id)), [])
  {
    var p := s.peers[id];
    assert s.posted + [] == s.posted && s.accepted + [] == s.accepted;
    if p.queue != [] {
      assert p.dropped + [p.queue[0]] + p.queue[1..] == p.dropped + p.queue;
    }
  }

  lemma CallsTransitive(s: Acceptor, t: Acceptor, u: Acceptor, a: seq<Task>, b: seq<Task>)
    requires Calls(s, t, a) && Calls(t, u, b)
    ensures Calls(s, u, a + b)
  {
    PacketsConcat(a, b);
    Assoc(s.posted, a, b);
    Assoc(s.accepted, Packets(a), Packets(b));
    forall i | 0 <= i < |s.peers| ensures Dropping(s.peers[i], u.peers[i]) {
      assert Dropping(s.peers[i], t.peers[i]) && Dropping(t.peers[i], u.peers[i]);
    }
  }

  lemma {:induction false} AllCalls(s: Acceptor, calls: seq<Call>) returns (added: seq<Task>)
    ensures Calls(s, ApplyAll(s, calls), added)
    decreases |calls|
  {
    if calls == [] {
      added := [];
      assert s.posted + [] == s.posted && s.accepted + [] == s.accepted;
    } else {
      var a := ApplyCalls(s, calls[0]);
      var b := AllCalls(Apply(s, calls[0]), calls[1..]);
      CallsTransitive(s, Apply(s, calls[0]), ApplyAll(s, calls), a, b);
      added := a + b;
    }
  }

  lemma SendPost(s: Acceptor, t: Acceptor, added: seq<Task>)
    requires Calls(s, t, added) && SendInv(s)
    ensures SendInv(t)
  {
    PacketsConcat(s.posted, added);
    Assoc(Q.Pushed(s.queue), Packets(s.posted), Packets(added));
  }

  // ---------------------------------------------------------------- the demultiplexer's history

  lemma ProjectSnoc(packets: seq<Packet>, p: Packet, e: Endpoint)
    ensures Project(packets + [p], e) == Project(packets, e) + (if p.endpoint == e then [p.data] else [])
  {
    assert (packets + [p])[..|packets|] == packets;
  }

  lemma GivenSnoc(peers: seq<Peer>, p: Peer, e: Endpoint)
    ensures GivenTo(peers + [p], e) == GivenTo(peers, e) + (if p.endpoint == e then p.given else [])
  {
    assert (peers + [p])[..|peers|] == peers;
  }

  /** Only the endpoints and what was given matter. */
  lemma {:induction false} GivenSame(a: seq<Peer>, b: seq<Peer>, e: Endpoint)
    requires |a| == |b|
    requires forall i | 0 <= i < |a| :: a[i].endpoint == b[i].endpoint && a[i].given == b[i].given
    ensures GivenTo(a, e) == GivenTo(b, e)
  {
    if a != [] {
      GivenSame(a[..|a| - 1], b[..|a| - 1], e);
    }
  }

  /** Giving to the latest connection of its endpoint appends to what the endpoint was given. */
  lemma {:induction false} GivenAppend(a: seq<Peer>, b: seq<Peer>, id: nat, data: Bytes, e: Endpoint)
    requires |a| == |b| && id < |a| && b[id].given == a[id].given + [data]
    requires forall i | 0 <= i < |a| :: b[i].endpoint == a[i].endpoint && (i != id ==> b[i].given == a[i].given)
    requires forall j | id < j < |a| :: a[j].endpoint != a[id].endpoint
    ensures GivenTo(b, e) == GivenTo(a, e) + (if a[id].endpoint == e then [data] else [])
  {
    var n := |a| - 1;
    if id == n {
      GivenSame(a[..n], b[..n], e);
      Assoc(GivenTo(a[..n], e), a[n].given, [data]);
    } else {
      GivenAppend(a[..n], b[..n], id, data, e);
    }
  }

  // ---------------------------------------------------------------- preservation

  /** What holds between the parts of a handler. */
  ghost predicate Mid(s: Acceptor) {
    && SendInv(s)
    && (forall i | 0 <= i < |s.peers| :: PeerInv(s.peers[i]))
    && Succession(s.peers)
  }

  /** Each endpoint's connections have been given what arrived, but for `owed`. */
  ghost predicate Owing(s: Acceptor, owed: seq<Packet>) {
    forall e :: Project(s.arrivals, e) == GivenTo(s.peers, e) + Project(owed, e)
  }

  lemma CallsKeep(s: Acceptor, t: Acceptor, added: seq<Task>, owed: seq<Packet>)
    requires Calls(s, t, added)
    ensures SendInv(s) ==> SendInv(t)
    ensures Mid(s) ==> Mid(t)
    ensures TableInv(s.peers, s.table) ==> TableInv(t.peers, t.table)
    ensures Owing(s, owed) ==> Owing(t, owed)
  {
    if SendInv(s) {
      SendPost(s, t, added);
    }
    forall i | 0 <= i < |s.peers|
      ensures t.peers[i].endpoint == s.peers[i].endpoint && t.peers[i].running == s.peers[i].running
      ensures t.peers[i].given == s.peers[i].given && (PeerInv(s.peers[i]) ==> PeerInv(t.peers[i]))
    {
      assert Dropping(s.peers[i], t.peers[i]);
    }
    if TableInv(s.peers, s.table) {
      forall i | 0 <= i < |t.peers| && t.peers[i].running ensures Mapped(t.peers, t.table, i) {
        assert Mapped(s.peers, s.table, i);
      }
    }
    forall e ensures GivenTo(t.peers, e) == GivenTo(s.peers, e) {
      GivenSame(s.peers, t.peers, e);
    }
  }

  lemma PostKeeps(s: Acceptor, t: Task, owed: seq<Packet>)
    requires Mid(s) && TableInv(s.peers, s.table) && Owing(s, owed) && !t.Push?
    ensures Mid(Post(s, t)) && TableInv(Post(s, t).peers, Post(s, t).table) && Owing(Post(s, t), owed)
  {
    PacketsPost(s.posted, t);
  }

  lemma AdmitKeeps(s: Acceptor, from: Endpoint, cb: Callback, owed: seq<Packet>)
    requires Mid(s) && TableInv(s.peers, s.table) && Owing(s, owed)
    ensures var t := Admit(s, from, cb);
            && Mid(t) && TableInv(t.peers, t.table) && Owing(t, owed) && from in t.table
            && t.reading == s.reading && t.arrivals == s.arrivals
  {
    if from !in s.table {
      var id := |s.peers|;
      var p := NewPeer(from).(trace := [OnAccept]);
      var s1 := s.(peers := s.peers + [p], table := s.table[from := id]);
      Newcomer(s, s1, p, owed);
      var s0 := s.(peers := s.peers + [NewPeer(from)], table := s.table[from := id]);
      assert [] + [OnAccept] == [OnAccept];
      assert s0.peers[id := p] == s1.peers;
      var added := AllCalls(s1, cb.calls);
      var t := ApplyAll(s1, cb.calls);
      CallsKeep(s1, t, added, owed);
      PostKeeps(t, Close(from), owed);
    }
  }

  lemma NewcomerMapped(s: Acceptor, t: Acceptor, p: Peer)
    requires TableInv(s.peers, s.table) && Succession(s.peers) && p.running && p.endpoint !in s.table
    requires t.peers == s.peers + [p] && t.table == s.table[p.endpoint := |s.peers|]
    ensures forall i | 0 <= i < |t.peers| && t.peers[i].running :: Mapped(t.peers, t.table, i)
    ensures forall i, j | 0 <= i < j < |t.peers| && t.peers[i].endpoint == t.peers[j].endpoint :: !t.peers[i].running
  {
    forall i | 0 <= i < |t.peers| && t.peers[i].running ensures Mapped(t.peers, t.table, i) {
      assert i < |s.peers| ==> Mapped(s.peers, s.table, i);
    }
    forall i | 0 <= i < |s.peers| && s.peers[i].running ensures s.peers[i].endpoint != p.endpoint {
      assert Mapped(s.peers, s.table, i);
    }
  }

  lemma Newcomer(s: Acceptor, t: Acceptor, p: Peer, owed: seq<Packet>)
    requires Mid(s) && TableInv(s.peers, s.table) && Owing(s, owed) && p == NewPeer(p.endpoint).(trace := [OnAccept])
    requires p.endpoint !in s.table
    requires t == s.(peers := s.peers + [p], table := s.table[p.endpoint := |s.peers|])
    ensures Mid(t) && TableInv(t.peers, t.table) && Owing(t, owed)
  {
    NewcomerMapped(s, t, p);
    forall e ensures GivenTo(t.peers, e) == GivenTo(s.peers, e) {
      GivenSnoc(s.peers, p, e);
    }
  }

  /** The connection that a key maps to is the latest of its endpoint. */
  lemma MappedIsLatest(s: Acceptor, e: Endpoint)
    requires TableInv(s.peers, s.table) && Succession(s.peers) && e in s.table
    ensures forall j | s.table[e] < j < |s.peers| :: s.peers[j].endpoint != e
  {
  }

  /** The connection of `e` after a datagram has been put into its queue and announced. */
  function Announced(p: Peer, data: Bytes): Peer {
    p.(queue := p.queue + [data], given := p.given + [data], trace := p.trace + [OnRecv])
  }

  lemma ProjectOne(p: Packet, e: Endpoint)
    ensures Project([p], e) == if p.endpoint == e then [p.data] else []
  {
    ProjectSnoc([], p, e);
    assert [] + [p] == [p];
  }

  lemma AnnounceKeeps(s: Acceptor, e: Endpoint, data: Bytes)
    requires Mid(s) && TableInv(s.peers, s.table) && Owing(s, [Packet(e, data)]) && e in s.table
    ensures var t := s.(peers := s.peers[s.table[e] := Announced(s.peers[s.table[e]], data)]);
            Mid(t) && TableInv(t.peers, t.table) && Owing(t, [])
  {
    var id := s.table[e];
    var p := s.peers[id];
    var t := s.(peers := s.peers[id := Announced(p, data)]);
    Assoc(p.dropped, p.queue, [data]);
    assert PeerInv(Announced(p, data));
    forall i | 0 <= i < |t.peers| && t.peers[i].running ensures Mapped(t.peers, t.table, i) {
      assert Mapped(s.peers, s.table, i);
    }
    MappedIsLatest(s, e);
    AnnounceSettles(s, e, data);
  }

  lemma AnnounceSettles(s: Acceptor, e: Endpoint, data: Bytes)
    requires Owing(s, [Packet(e, data)]) && e in s.table && s.table[e] < |s.peers|
    requires s.peers[s.table[e]].endpoint == e
    requires forall j | s.table[e] < j < |s.peers| :: s.peers[j].endpoint != e
    ensures Owing(s.(peers := s.peers[s.table[e] := Announced(s.peers[s.table[e]], data)]), [])
  {
    var id := s.table[e];
    var t := s.(peers := s.peers[id := Announced(s.peers[id], data)]);
    forall x ensures Project(t.arrivals, x) == GivenTo(t.peers, x) + Project([], x) {
      GivenAppend(s.peers, t.peers, id, data, x);
      ProjectOne(Packet(e, data), x);
      assert Project(s.arrivals, x) == GivenTo(s.peers, x) + Project([Packet(e, data)], x);
    }
  }

  lemma GiveKeeps(s: Acceptor, e: Endpoint, data: Bytes, cb: Callback)
    requires Mid(s) && TableInv(s.peers, s.table) && Owing(s, [Packet(e, data)]) && e in s.table
    ensures var t := Give(s, s.table[e], data, cb);
            && Mid(t) && TableInv(t.peers, t.table) && Owing(t, []) && t.reading == s.reading
  {
    var id := s.table[e];
    var p := s.peers[id];
    var s1 := s.(peers := s.peers[id := Announced(p, data)]);
    AnnounceKeeps(s, e, data);
    assert s.peers[id := p.(queue := p.queue + [data], given := p.given + [data])][id := Announced(p, data)] ==
           s1.peers;
    var added := AllCalls(s1, cb.calls);
    var t := ApplyAll(s1, cb.calls);
    CallsKeep(s1, t, added, []);
    PostKeeps(t, Close(e), []);
  }

  lemma RecvKeeps(s: Acceptor, from: Endpoint, data: Bytes, accept: Callback, recv: Callback)
    requires Inv(s)
    ensures Inv(HandleRecv(s, from, data, accept, recv))
  {
    var s1 := s.(reading := 0, lastEndpoint := from, arrivals := s.arrivals + [Packet(from, data)]);
    forall e ensures Project(s1.arrivals, e) == GivenTo(s1.peers, e) + Project([Packet(from, data)], e) {
      ProjectSnoc(s.arrivals, Packet(from, data), e);
      ProjectOne(Packet(from, data), e);
    }
    AdmitKeeps(s1, from, accept, [Packet(from, data)]);
    var s2 := Admit(s1, from, accept);
    GiveKeeps(s2, from, data, recv);
    var t := HandleRecv(s, from, data, accept, recv);
    var s3 := Give(s2, s2.table[from], data, recv);
    assert t == s3.(reading := 1);
    forall e ensures Project(t.arrivals, e) == GivenTo(t.peers, e) {
      assert Project(s3.arrivals, e) == GivenTo(s3.peers, e) + Project([], e);
    }
  }

  /** The last callback of a connection completes its shape. */
  lemma ClosedShape(p: Peer, q: Peer)
    requires PeerInv(p) && p.running
    requires q == p.(running := false, trace := p.trace + [OnClose], queue := q.queue, dropped := q.dropped)
    requires q.dropped + q.queue == p.dropped + p.queue
    ensures PeerInv(q)
  {
    assert forall i | 0 < i < |q.trace| - 1 :: q.trace[i] == p.trace[i];
  }

  /** Stopping one connection: its last callback, and nothing changes for the others. */
  lemma StopPeerKeeps(s: Acceptor, id: nat, cb: Callback)
    requires Mid(s) && Owing(s, []) && id < |s.peers|
    ensures var t := StopPeer(s, id, cb);
            && Mid(t) && Owing(t, []) && t.table == s.table && t.reading == s.reading
            && |t.peers| == |s.peers| && !t.peers[id].running
            && (forall i | 0 <= i < |s.peers| ::
                  t.peers[i].endpoint == s.peers[i].endpoint && (i != id ==> t.peers[i].running == s.peers[i].running))
  {
    if s.peers[id].running {
      var p := s.peers[id];
      var s1 := s.(peers := s.peers[id := p.(trace := p.trace + [OnClose])]);
      var added := AllCalls(s1, cb.calls);
      var u := ApplyAll(s1, cb.calls);
      SendPost(s1, u, added);
      var t := u.(peers := u.peers[id := u.peers[id].(running := false)]);
      assert t == StopPeer(s, id, cb);
      forall i | 0 <= i < |s.peers|
        ensures t.peers[i].endpoint == s.peers[i].endpoint && t.peers[i].given == s.peers[i].given
        ensures PeerInv(t.peers[i]) && (i != id ==> t.peers[i].running == s.peers[i].running)
      {
        assert Dropping(s1.peers[i], u.peers[i]);
        assert PeerInv(s.peers[i]);
        if i == id {
          ClosedShape(p, t.peers[id]);
        }
      }
      forall e ensures GivenTo(t.peers, e) == GivenTo(s.peers, e) {
        GivenSame(s.peers, t.peers, e);
      }
    }
  }

  lemma CloseKeeps(s: Acceptor, e: Endpoint, cb: Callback)
    requires Mid(s) && TableInv(s.peers, s.table) && Owing(s, [])
    ensures var t := HandleClose(s, e, cb);
            && Mid(t) && TableInv(t.peers, t.table) && Owing(t, []) && e !in t.table && t.reading == s.reading
  {
    if e in s.table {
      var id := s.table[e];
      StopPeerKeeps(s, id, cb);
      var t := HandleClose(s, e, cb);
      forall i | 0 <= i < |t.peers| && t.peers[i].running ensures Mapped(t.peers, t.table, i) {
        assert Mapped(s.peers, s.table, i) && i != id;
      }
      forall k | k in t.table
        ensures t.table[k] < |t.peers| && t.peers[t.table[k]].endpoint == k && t.peers[t.table[k]].running
      {
        assert k in s.table && s.table[k] != id;
      }
    }
  }

  /** What holds inside the loop of handle_stop: whatever still runs is mapped and still to be visited. */
  ghost predicate Stopping(s: Acceptor, order: seq<(Endpoint, Callback)>) {
    && Mid(s) && Owing(s, [])
    && (forall i | 0 <= i < |s.peers| && s.peers[i].running ::
          Mapped(s.peers, s.table, i) && Visited(order, s.peers[i].endpoint))
    && (forall e | e in s.table :: s.table[e] < |s.peers|)
  }

  ghost predicate Visited(order: seq<(Endpoint, Callback)>, e: Endpoint) {
    exists k | 0 <= k < |order| :: order[k].0 == e
  }

  lemma {:induction false} StopPeersKeeps(s: Acceptor, order: seq<(Endpoint, Callback)>)
    requires Stopping(s, order)
    ensures var t := StopPeers(s, order);
            && Mid(t) && Owing(t, []) && t.reading == s.reading
            && forall i | 0 <= i < |t.peers| :: !t.peers[i].running
    decreases |order|
  {
    if order == [] {
      assert forall e :: !Visited(order, e);
    } else {
      var e := order[0].0;
      var t := if e in s.table then StopPeer(s, s.table[e], order[0].1) else s;
      if e in s.table {
        StopPeerKeeps(s, s.table[e], order[0].1);
      }
      forall i | 0 <= i < |t.peers| && t.peers[i].running
        ensures Mapped(t.peers, t.table, i) && Visited(order[1..], t.peers[i].endpoint)
      {
        assert s.peers[i].running && Mapped(s.peers, s.table, i) && Visited(order, s.peers[i].endpoint);
        var k :| 0 <= k < |order| && order[k].0 == s.peers[i].endpoint;
        assert k != 0;
        assert order[1..][k - 1].0 == t.peers[i].endpoint;
      }
      StopPeersKeeps(t, order[1..]);
    }
  }

  lemma StopKeeps(s: Acceptor, order: seq<(Endpoint, Callback)>)
    requires Mid(s) && TableInv(s.peers, s.table) && Owing(s, []) && Visits(order, s.table)
    ensures var t := HandleStop(s, order);
            && Mid(t) && TableInv(t.peers, t.table) && Owing(t, []) && t.reading == s.reading
            && t.table == map[] && forall i | 0 <= i < |t.peers| :: !t.peers[i].running
  {
    forall i | 0 <= i < |s.peers| && s.peers[i].running
      ensures Mapped(s.peers, s.table, i) && Visited(order, s.peers[i].endpoint)
    {
      assert Mapped(s.peers, s.table, i);
    }
    StopPeersKeeps(s, order);
  }

  /** The invariant, in the form the handlers use. */
  lemma InvParts(s: Acceptor)
    ensures Inv(s) <==> s.reading == 1 && Mid(s) && TableInv(s.peers, s.table) && Owing(s, [])
  {
    forall e ensures GivenTo(s.peers, e) + Project([], e) == GivenTo(s.peers, e) {}
    if Owing(s, []) {
      forall e ensures Project(s.arrivals, e) == GivenTo(s.peers, e) {
        assert Project(s.arrivals, e) == GivenTo(s.peers, e) + Project([], e);
      }
    }
  }

  lemma PushTaskKeeps(s: Acceptor, p: Packet, rest: seq<Task>)
    requires Inv(s) && s.posted == [Push(p)] + rest
    ensures Inv(s.(posted := rest, queue := Q.Push(s.queue, p)))
  {
    Q.PushKeeps(s.queue, p);
    assert s.posted[0] == Push(p) && s.posted[1..] == rest;
    Assoc(Q.Pushed(s.queue), [p], Packets(rest));
  }

  /** Removing a handler that is not a push from the queue. */
  lemma Popped(s: Acceptor)
    requires Inv(s) && s.posted != [] && !s.posted[0].Push?
    ensures Inv(s.(posted := s.posted[1..]))
  {
    assert Packets(s.posted) == Packets(s.posted[1..]);
  }

  lemma TaskKeeps(s: Acceptor, cb: Callback, order: seq<(Endpoint, Callback)>)
    requires Inv(s) && s.posted != [] && (s.posted[0].Stop? ==> Visits(order, s.table))
    ensures Inv(RunTask(s, cb, order))
  {
    var task, rest := s.posted[0], s.posted[1..];
    if task.Push? {
      assert s.posted == [task] + rest;
      PushTaskKeeps(s, task.packet, rest);
    } else {
      var s1 := s.(posted := rest);
      Popped(s);
      InvParts(s1);
      if task.Close? {
        CloseKeeps(s1, task.endpoint, cb);
        InvParts(HandleClose(s1, task.endpoint, cb));
      } else {
        StopKeeps(s1, order);
        InvParts(HandleStop(s1, order));
      }
    }
  }

  lemma SendKeeps(s: Acceptor)
    requires Inv(s) && s.queue.outstanding != []
    ensures Inv(HandleSend(s))
  {
    Q.FinishKeeps(s.queue);
  }

  lemma ApiKeeps(s: Acceptor, c: Call)
    requires Inv(s)
    ensures Inv(Apply(s, c))
  {
    InvParts(s);
    InvParts(Apply(s, c));
    var added := ApplyCalls(s, c);
    CallsKeep(s, Apply(s, c), added, []);
  }

  lemma StopCallKeeps(s: Acceptor)
    requires Inv(s)
    ensures Inv(StopAcceptor(s))
  {
    if s.running {
      InvParts(s);
      InvParts(StopAcceptor(s));
      PostKeeps(s, Stop, []);
    }
  }

  /** Every step keeps the invariant: arrivals, failed receives, completions of sends, stale and duplicate
      closes, the stop loop, and calls from other threads. */
  lemma StepKeeps(s: Acceptor, step: Step)
    requires Inv(s) && Enabled(s, step)
    ensures Inv(Next(s, step))
  {
    match step
    case Received(_, from, data, accept, recv) => RecvKeeps(s, from, data, accept, recv);
    case SendDone(_) => SendKeeps(s);
    case Posted(cb, order) => TaskKeeps(s, cb, order);
    case Api(c) => ApiKeeps(s, c);
    case StopCall => StopCallKeeps(s);
  }

  lemma {:induction false} RunKeeps(s: Acceptor, steps: seq<Step>)
    requires Inv(s) && Legal(s, steps)
    ensures Inv(Run(s, steps))
    decreases |steps|
  {
    if steps != [] {
      StepKeeps(s, steps[0]);
      RunKeeps(Next(s, steps[0]), steps[1..]);
    }
  }
}
