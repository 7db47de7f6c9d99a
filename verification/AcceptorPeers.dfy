/** What drops and datagrams mean for each connection of an acceptor, over whole runs. */
module AcceptorPeers {
  import opened Octets
  import opened AcceptorMachine
  import opened AcceptorInvariant
  import opened AcceptorMeaning
  import L = AcceptorLaws

  // ---------------------------------------------------------------- drops

  /** How many of `available` datagrams the drops on connection `id` take: one each, while there is one. */
  function Taken(available: nat, calls: seq<Call>, id: nat): (n: nat)
    ensures n <= available
    decreases |calls|
  {
    if calls == [] then 0
    else if calls[0] == Drop(id) && available > 0 then 1 + Taken(available - 1, calls[1..], id)
    else Taken(available, calls[1..], id)
  }

  /** The same for the on_close callbacks of the connections of `open`, in the order they are visited. */
  function StopTaken(available: nat, order: seq<(Endpoint, Callback)>, open: set<Endpoint>, id: nat): (n: nat)
    ensures n <= available
    decreases |order|
  {
    if order == [] then 0
    else if order[0].0 in open then
      var n := Taken(available, order[0].1.calls, id);
      n + StopTaken(available - n, order[1..], open - {order[0].0}, id)
    else StopTaken(available, order[1..], open, id)
  }

  function Waiting(s: Acceptor, id: nat): nat {
    if id < |s.peers| then |s.peers[id].queue| else 0
  }

  /** How many datagrams of connection `id` a step takes. A datagram that it receives for the connection is there for
      on_recv, but not for on_accept. */
  ghost function TakenBy(s: Acceptor, step: Step, id: nat): nat
    requires Enabled(s, step)
  {
    match step
    case Received(_, from, _, accept, recv) =>
      var early := if from in s.table then 0 else Taken(Waiting(s, id), accept.calls, id);
      var target := if from in s.table then s.table[from] else |s.peers|;
      early + Taken(Waiting(s, id) - early + (if id == target then 1 else 0), recv.calls, id)
    case Posted(cb, order) =>
      (match s.posted[0]
       case Close(e) => if e in s.table then Taken(Waiting(s, id), cb.calls, id) else 0
       case Stop => StopTaken(Waiting(s, id), order, s.table.Keys, id)
       case Push(_) => 0)
    case Api(_) => 0
    case SendDone(_) => 0
    case StopCall => 0
  }

  /** `q` is `p` with `n` datagrams taken from the front. */
  predicate Took(p: Peer, q: Peer, n: nat) {
    && n <= |p.queue|
    && q.queue == p.queue[n..] && q.dropped == p.dropped + p.queue[..n]
    && q.given == p.given && q.endpoint == p.endpoint
  }

  lemma TookMore(p: Peer, q: Peer, r: Peer, m: nat, n: nat)
    requires Took(p, q, m) && Took(q, r, n)
    ensures Took(p, r, m + n)
  {
    assert p.queue[m..][..n] == p.queue[m..m + n] && p.queue[m..][n..] == p.queue[m + n..];
    assert p.queue[..m] + p.queue[m..m + n] == p.queue[..m + n];
  }

  lemma {:induction false} CallsTake(s: Acceptor, calls: seq<Call>, id: nat)
    requires id < |s.peers|
    ensures var t := ApplyAll(s, calls);
            |t.peers| == |s.peers| && Took(s.peers[id], t.peers[id], Taken(|s.peers[id].queue|, calls, id))
    decreases |calls|
  {
    if calls == [] {
      assert s.peers[id].dropped + [] == s.peers[id].dropped;
    } else {
      var t := Apply(s, calls[0]);
      var n := if calls[0] == Drop(id) && s.peers[id].queue != [] then 1 else 0;
      assert s.peers[id].dropped + [] == s.peers[id].dropped;
      assert Took(s.peers[id], t.peers[id], n);
      CallsTake(t, calls[1..], id);
      TookMore(s.peers[id], t.peers[id], ApplyAll(s, calls).peers[id], n, Taken(|t.peers[id].queue|, calls[1..], id));
    }
  }

  lemma InvokeTakes(s: Acceptor, who: nat, e: Event, cb: Callback, id: nat)
    requires who < |s.peers| && id < |s.peers|
    ensures var t := Invoke(s, who, e, cb);
            && |t.peers| == |s.peers| && t.table == s.table
            && Took(s.peers[id], t.peers[id], Taken(|s.peers[id].queue|, cb.calls, id))
  {
    var u := s.(peers := s.peers[who := s.peers[who].(trace := s.peers[who].trace + [e])]);
    CallsTake(u, cb.calls, id);
    L.CallsLater(u, cb.calls);
  }

  lemma StopPeerTakes(s: Acceptor, who: nat, cb: Callback, id: nat)
    requires who < |s.peers| && s.peers[who].running && id < |s.peers|
    ensures var t := StopPeer(s, who, cb);
            |t.peers| == |s.peers| && Took(s.peers[id], t.peers[id], Taken(|s.peers[id].queue|, cb.calls, id))
  {
    InvokeTakes(s, who, OnClose, cb, id);
  }

  lemma OneStopTakes(s: Acceptor, open: set<Endpoint>, e: Endpoint, cb: Callback, id: nat)
    requires OpenOnes(s, open) && e in open && id < |s.peers|
    ensures var t := StopPeer(s, s.table[e], cb);
            |t.peers| == |s.peers| && Took(s.peers[id], t.peers[id], Taken(|s.peers[id].queue|, cb.calls, id))
  {
    StopPeerTakes(s, s.table[e], cb, id);
  }

  /** A visit of a connection that is still open, and then of the rest. */
  lemma ThenTheRest(p: Peer, q: Peer, r: Peer, order: seq<(Endpoint, Callback)>, open: set<Endpoint>, id: nat)
    requires order != [] && order[0].0 in open
    requires Took(p, q, Taken(|p.queue|, order[0].1.calls, id))
    requires Took(q, r, StopTaken(|q.queue|, order[1..], open - {order[0].0}, id))
    ensures Took(p, r, StopTaken(|p.queue|, order, open, id))
  {
    TookMore(p, q, r, Taken(|p.queue|, order[0].1.calls, id),
             StopTaken(|q.queue|, order[1..], open - {order[0].0}, id));
  }

  lemma {:induction false} StopPeersTake(s: Acceptor, order: seq<(Endpoint, Callback)>, open: set<Endpoint>, id: nat)
    requires OpenOnes(s, open) && id < |s.peers|
    ensures var t := StopPeers(s, order);
            |t.peers| == |s.peers| && Took(s.peers[id], t.peers[id], StopTaken(|s.peers[id].queue|, order, open, id))
    decreases |order|
  {
    if order == [] {
      assert s.peers[id].dropped + [] == s.peers[id].dropped;
    } else {
      var e, cb := order[0].0, order[0].1;
      if e in open {
        var t := StopPeer(s, s.table[e], cb);
        StopsOne(s, open, e, cb);
        OneStopTakes(s, open, e, cb, id);
        StopPeersTake(t, order[1..], open - {e}, id);
        assert StopPeers(s, order) == StopPeers(t, order[1..]);
        ThenTheRest(s.peers[id], t.peers[id], StopPeers(s, order).peers[id], order, open, id);
      } else {
        StopPeersTake(s, order[1..], open, id);
      }
    }
  }

  lemma GiveTakes(s: Acceptor, to: nat, data: Bytes, cb: Callback, id: nat)
    requires to < |s.peers| && id < |s.peers|
    ensures var t := Give(s, to, data, cb);
            var extra := if id == to then 1 else 0;
            && |t.peers| == |s.peers|
            && |t.peers[id].dropped| == |s.peers[id].dropped| + Taken(|s.peers[id].queue| + extra, cb.calls, id)
            && |t.peers[id].queue| ==
               |s.peers[id].queue| + extra - Taken(|s.peers[id].queue| + extra, cb.calls, id)
  {
    var p := s.peers[to];
    var filled := p.(queue := p.queue + [data], given := p.given + [data]);
    InvokeTakes(s.(peers := s.peers[to := filled]), to, OnRecv, cb, id);
  }

  lemma AdmitTakes(s: Acceptor, from: Endpoint, cb: Callback, id: nat)
    requires from !in s.table && id <= |s.peers|
    ensures var t := Admit(s, from, cb);
            && |t.peers| == |s.peers| + 1 && t.table == s.table[from := |s.peers|]
            && |t.peers[id].dropped| ==
               (if id < |s.peers| then |s.peers[id].dropped| else 0) + Taken(Waiting(s, id), cb.calls, id)
            && |t.peers[id].queue| == Waiting(s, id) - Taken(Waiting(s, id), cb.calls, id)
  {
    var added := s.(peers := s.peers + [NewPeer(from)], table := s.table[from := |s.peers|]);
    InvokeTakes(added, |s.peers|, OnAccept, cb, id);
  }

  lemma RecvTakes(s: Acceptor, ok: bool, from: Endpoint, data: Bytes, accept: Callback, recv: Callback, id: nat)
    requires Inv(s)
    ensures var t := HandleRecv(s, from, data, accept, recv);
            && |s.peers| <= |t.peers|
            && (id < |t.peers| ==>
                  |t.peers[id].dropped| == (if id < |s.peers| then |s.peers[id].dropped| else 0) +
                                           TakenBy(s, Received(ok, from, data, accept, recv), id))
  {
    var s1 := s.(reading := s.reading - 1, lastEndpoint := from, arrivals := s.arrivals + [Packet(from, data)]);
    if from in s1.table {
      KnownTakes(s1, from, data, accept, recv, id);
    } else {
      NewTakes(s1, from, data, accept, recv, if id <= |s.peers| then id else |s.peers|);
    }
  }

  /** A datagram from an endpoint with a connection. */
  lemma KnownTakes(s: Acceptor, from: Endpoint, data: Bytes, accept: Callback, recv: Callback, id: nat)
    requires from in s.table && s.table[from] < |s.peers|
    ensures var t, extra := Route(s, from, data, accept, recv), if id == s.table[from] then 1 else 0;
            && |t.peers| == |s.peers|
            && (id < |s.peers| ==>
                  |t.peers[id].dropped| == |s.peers[id].dropped| + Taken(Waiting(s, id) + extra, recv.calls, id))
  {
    var to := s.table[from];
    GiveTakes(s, to, data, recv, if id < |s.peers| then id else to);
  }

  /** A datagram from an endpoint without a connection. */
  lemma NewTakes(s: Acceptor, from: Endpoint, data: Bytes, accept: Callback, recv: Callback, id: nat)
    requires from !in s.table && id <= |s.peers|
    ensures var t := Route(s, from, data, accept, recv);
            var early := Taken(Waiting(s, id), accept.calls, id);
            && |t.peers| == |s.peers| + 1
            && |t.peers[id].dropped| ==
               (if id < |s.peers| then |s.peers[id].dropped| else 0) + early +
               Taken(Waiting(s, id) - early + (if id == |s.peers| then 1 else 0), recv.calls, id)
  {
    AdmitTakes(s, from, accept, id);
    GiveTakes(Admit(s, from, accept), |s.peers|, data, recv, id);
  }

  lemma TaskTakes(s: Acceptor, cb: Callback, order: seq<(Endpoint, Callback)>, id: nat)
    requires Inv(s) && Enabled(s, Posted(cb, order)) && id < |s.peers|
    ensures var t := RunTask(s, cb, order);
            |t.peers| == |s.peers| && |t.peers[id].dropped| == |s.peers[id].dropped| + TakenBy(s, Posted(cb, order), id)
  {
    var s1 := s.(posted := s.posted[1..]);
    match s.posted[0]
    case Close(e) => if e in s.table { StopPeerTakes(s1, s.table[e], cb, id); }
    case Stop =>
      Popped(s);
      InvParts(s1);
      StopPeersTake(s1, order, s.table.Keys, id);
    case Push(_) =>
  }

  lemma TaskPeers(s: Acceptor, cb: Callback, order: seq<(Endpoint, Callback)>)
    requires Inv(s) && Enabled(s, Posted(cb, order))
    ensures |RunTask(s, cb, order).peers| == |s.peers|
  {
    if s.peers != [] {
      TaskTakes(s, cb, order, 0);
    } else if s.posted[0].Stop? {
      NobodyStops(s.(posted := s.posted[1..]), order);
    }
  }

  lemma {:induction false} NobodyStops(s: Acceptor, order: seq<(Endpoint, Callback)>)
    requires s.peers == []
    ensures StopPeers(s, order).peers == []
    decreases |order|
  {
    if order != [] {
      NobodyStops(s, order[1..]);
    }
  }

  lemma StepTakes(s: Acceptor, step: Step, id: nat)
    requires Inv(s) && Enabled(s, step)
    ensures var t := Next(s, step);
            && |s.peers| <= |t.peers|
            && (id < |t.peers| ==>
                  |t.peers[id].dropped| == (if id < |s.peers| then |s.peers[id].dropped| else 0) + TakenBy(s, step, id))
  {
    match step
    case Received(ok, from, data, accept, recv) => RecvTakes(s, ok, from, data, accept, recv, id);
    case Posted(cb, order) =>
      TaskPeers(s, cb, order);
      if id < |s.peers| {
        TaskTakes(s, cb, order, id);
      }
    case Api(c) =>
    case SendDone(_) =>
    case StopCall =>
  }

  ghost function TakenOver(s: Acceptor, steps: seq<Step>, id: nat): nat
    requires Legal(s, steps)
    decreases |steps|
  {
    if steps == [] then 0 else TakenBy(s, steps[0], id) + TakenOver(Next(s, steps[0]), steps[1..], id)
  }

  /** A step takes nothing of a connection that does not exist after it. */
  lemma NothingTaken(s: Acceptor, step: Step, id: nat)
    requires Inv(s) && Enabled(s, step) && id >= |Next(s, step).peers|
    ensures TakenBy(s, step, id) == 0
  {
    StepTakes(s, step, id);
    match step
    case Received(ok, from, data, accept, recv) =>
      if from !in s.table {
        var s1 := s.(reading := s.reading - 1, lastEndpoint := from, arrivals := s.arrivals + [Packet(from, data)]);
        AdmitTakes(s1, from, accept, |s.peers|);
        GiveTakes(Admit(s1, from, accept), |s.peers|, data, recv, |s.peers|);
      }
    case Posted(_, _) =>
    case Api(_) =>
    case SendDone(_) =>
    case StopCall =>
  }

  lemma {:induction false} RunTakes(s: Acceptor, steps: seq<Step>, id: nat)
    requires Inv(s) && Legal(s, steps) && id < |Run(s, steps).peers|
    ensures |Run(s, steps).peers[id].dropped| ==
            (if id < |s.peers| then |s.peers[id].dropped| else 0) + TakenOver(s, steps, id)
    decreases |steps|
  {
    if steps != [] {
      var t := Next(s, steps[0]);
      StepKeeps(s, steps[0]);
      StepTakes(s, steps[0], id);
      RunTakes(t, steps[1..], id);
      if id >= |t.peers| {
        NothingTaken(s, steps[0], id);
      }
    }
  }

  /** Over every run each connection has been relieved of exactly as many of its datagrams, from the front, as user code
      has dropped; the rest still wait in order. */
  lemma DropsWhatIsDropped(steps: seq<Step>, id: nat)
    requires Legal(Started(), steps) && id < |Run(Started(), steps).peers|
    ensures var p, n := Run(Started(), steps).peers[id], TakenOver(Started(), steps, id);
            n <= |p.given| && p.dropped == p.given[..n] && p.queue == p.given[n..]
  {
    var s := L.Reachable(steps);
    RunTakes(Started(), steps, id);
    assert PeerInv(s.peers[id]);
  }

  // ---------------------------------------------------------------- one on_recv for each datagram

  /** on_accept, one on_recv for each datagram given, and on_close if it is closed. */
  predicate Told(p: Peer) {
    |p.trace| == 1 + |p.given| + (if p.running then 0 else 1)
  }

  ghost predicate AllTold(s: Acceptor) {
    forall i | 0 <= i < |s.peers| :: Told(s.peers[i])
  }

  lemma CallsTell(s: Acceptor, calls: seq<Call>)
    ensures var t := ApplyAll(s, calls);
            && |t.peers| == |s.peers| && t.table == s.table
            && forall i | 0 <= i < |s.peers| ::
                 t.peers[i] == s.peers[i].(queue := t.peers[i].queue, dropped := t.peers[i].dropped)
  {
    var _ := AllCalls(s, calls);
    L.CallsLater(s, calls);
    forall i | 0 <= i < |s.peers|
      ensures var t := ApplyAll(s, calls);
              t.peers[i] == s.peers[i].(queue := t.peers[i].queue, dropped := t.peers[i].dropped)
    {
      assert Dropping(s.peers[i], ApplyAll(s, calls).peers[i]);
    }
  }

  /** A callback adds one event to its own connection. */
  lemma InvokeTells(s: Acceptor, id: nat, e: Event, cb: Callback)
    requires id < |s.peers|
    ensures var t := Invoke(s, id, e, cb);
            && |t.peers| == |s.peers| && t.table == s.table
            && forall i | 0 <= i < |s.peers| ::
                 && t.peers[i].given == s.peers[i].given && t.peers[i].running == s.peers[i].running
                 && |t.peers[i].trace| == |s.peers[i].trace| + (if i == id then 1 else 0)
  {
    CallsTell(s.(peers := s.peers[id := s.peers[id].(trace := s.peers[id].trace + [e])]), cb.calls);
  }

  lemma StopPeerTells(s: Acceptor, id: nat, cb: Callback)
    requires AllTold(s)
    ensures AllTold(StopPeer(s, id, cb))
  {
    if id < |s.peers| && s.peers[id].running {
      InvokeTells(s, id, OnClose, cb);
      assert Told(s.peers[id]);
      forall i | 0 <= i < |s.peers| ensures Told(StopPeer(s, id, cb).peers[i]) {
        assert Told(s.peers[i]);
      }
    }
  }

  lemma {:induction false} StopPeersTell(s: Acceptor, order: seq<(Endpoint, Callback)>)
    requires AllTold(s)
    ensures AllTold(StopPeers(s, order))
    decreases |order|
  {
    if order != [] {
      if order[0].0 in s.table {
        StopPeerTells(s, s.table[order[0].0], order[0].1);
      }
      StopPeersTell(if order[0].0 in s.table then StopPeer(s, s.table[order[0].0], order[0].1) else s, order[1..]);
    }
  }

  lemma AdmitTells(s: Acceptor, from: Endpoint, cb: Callback)
    requires AllTold(s) && from !in s.table
    ensures var t := Admit(s, from, cb);
            && AllTold(t) && t.table == s.table[from := |s.peers|]
            && |t.peers| == |s.peers| + 1 && t.peers[|s.peers|].running
  {
    var u := s.(peers := s.peers + [NewPeer(from)], table := s.table[from := |s.peers|]);
    InvokeTells(u, |s.peers|, OnAccept, cb);
    forall i | 0 <= i < |u.peers| ensures Told(Admit(s, from, cb).peers[i]) {
      assert i < |s.peers| ==> Told(s.peers[i]);
    }
  }

  lemma GiveTells(s: Acceptor, id: nat, data: Bytes, cb: Callback)
    requires AllTold(s) && id < |s.peers|
    ensures AllTold(Give(s, id, data, cb))
  {
    var p := s.peers[id];
    var u := s.(peers := s.peers[id := p.(queue := p.queue + [data], given := p.given + [data])]);
    InvokeTells(u, id, OnRecv, cb);
    forall i | 0 <= i < |s.peers| ensures Told(Give(s, id, data, cb).peers[i]) {
      assert Told(s.peers[i]);
    }
  }

  lemma StepTells(s: Acceptor, step: Step)
    requires Inv(s) && AllTold(s) && Enabled(s, step)
    ensures AllTold(Next(s, step))
  {
    match step
    case Received(_, from, data, accept, recv) =>
      var s1 := s.(reading := s.reading - 1, lastEndpoint := from, arrivals := s.arrivals + [Packet(from, data)]);
      if from !in s1.table {
        AdmitTells(s1, from, accept);
      }
      var s2 := Admit(s1, from, accept);
      GiveTells(s2, s2.table[from], data, recv);
    case Posted(cb, order) =>
      var s1 := s.(posted := s.posted[1..]);
      match s.posted[0] {
        case Close(e) => if e in s.table { StopPeerTells(s1, s.table[e], cb); }
        case Stop => StopPeersTell(s1, order);
        case Push(_) =>
      }
    case Api(c) =>
      CallsTell(s, [c]);
      assert ApplyAll(s, [c]) == Apply(s, c) by { assert [c][1..] == []; }
      forall i | 0 <= i < |s.peers| ensures Told(Apply(s, c).peers[i]) {
        assert Told(s.peers[i]);
      }
    case SendDone(_) =>
    case StopCall =>
  }

  lemma {:induction false} RunTells(s: Acceptor, steps: seq<Step>)
    requires Inv(s) && AllTold(s) && Legal(s, steps)
    ensures AllTold(Run(s, steps))
    decreases |steps|
  {
    if steps != [] {
      StepKeeps(s, steps[0]);
      StepTells(s, steps[0]);
      RunTells(Next(s, steps[0]), steps[1..]);
    }
  }

  /** Over every run each connection has been told of each of its datagrams by one on_recv. */
  lemma TellsOfEach(steps: seq<Step>, id: nat)
    requires Legal(Started(), steps) && id < |Run(Started(), steps).peers|
    ensures var p := Run(Started(), steps).peers[id];
            p.trace == [OnAccept] + L.Recvs(|p.given|) + if p.running then [] else [OnClose]
  {
    L.StartedInv();
    RunTells(Started(), steps);
    L.PassiveTrace(steps, id);
    var p := Run(Started(), steps).peers[id];
    assert Told(p);
    assert [OnAccept] + L.Recvs(|p.given|) + [] == [OnAccept] + L.Recvs(|p.given|);
  }
}
