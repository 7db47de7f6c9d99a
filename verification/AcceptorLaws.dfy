/** What holds of every run of an acceptor and its connections. */
module AcceptorLaws {
  import opened Octets
  import opened AcceptorMachine
  import opened AcceptorInvariant
  import Q = SendQueue

  lemma StartedInv()
    ensures Inv(Started())
  {
  }

  lemma Reachable(steps: seq<Step>) returns (s: Acceptor)
    requires Legal(Started(), steps)
    ensures s == Run(Started(), steps) && Inv(s)
  {
    StartedInv();
    RunKeeps(Started(), steps);
    s := Run(Started(), steps);
  }

  // ---------------------------------------------------------------- callbacks of one connection

  function Recvs(n: nat): seq<Event> {
    seq(n, _ => OnRecv)
  }

  /** Over every run, the callbacks of every connection are on_accept, then on_recv some number of times,
      then on_close exactly if it has been closed. */
  lemma PassiveTrace(steps: seq<Step>, i: nat)
    requires Legal(Started(), steps) && i < |Run(Started(), steps).peers|
    ensures var p := Run(Started(), steps).peers[i];
            if p.running then |p.trace| >= 1 && p.trace == [OnAccept] + Recvs(|p.trace| - 1)
            else |p.trace| >= 2 && p.trace == [OnAccept] + Recvs(|p.trace| - 2) + [OnClose]
  {
    var s := Reachable(steps);
    assert PeerInv(s.peers[i]);
  }

  /** `b` is a later state of the connections `a`: histories only get longer, and no connection is ever
      started again. */
  ghost predicate Later(a: seq<Peer>, b: seq<Peer>) {
    && |a| <= |b|
    && forall i | 0 <= i < |a| :: LaterPeer(a[i], b[i])
  }

  ghost predicate LaterPeer(p: Peer, q: Peer) {
    && p.endpoint == q.endpoint && p.trace <= q.trace && p.given <= q.given && p.dropped <= q.dropped
    && (q.running ==> p.running)
  }

  lemma LaterTransitive(a: seq<Peer>, b: seq<Peer>, c: seq<Peer>)
    requires Later(a, b) && Later(b, c)
    ensures Later(a, c)
  {
    forall i | 0 <= i < |a| ensures LaterPeer(a[i], c[i]) {
      assert LaterPeer(a[i], b[i]) && LaterPeer(b[i], c[i]);
    }
  }

  lemma ApplyLater(s: Acceptor, c: Call)
    ensures Later(s.peers, Apply(s, c).peers)
  {
  }

  lemma {:induction false} CallsLater(s: Acceptor, calls: seq<Call>)
    ensures Later(s.peers, ApplyAll(s, calls).peers)
    ensures ApplyAll(s, calls).table == s.table
    decreases |calls|
  {
    if calls != [] {
      var t := Apply(s, calls[0]);
      ApplyLater(s, calls[0]);
      CallsLater(t, calls[1..]);
      LaterTransitive(s.peers, t.peers, ApplyAll(t, calls[1..]).peers);
    }
  }

  lemma InvokeLater(s: Acceptor, id: nat, e: Event, cb: Callback)
    requires id < |s.peers|
    ensures Later(s.peers, Invoke(s, id, e, cb).peers)
    ensures Invoke(s, id, e, cb).table == s.table
  {
    var s1 := s.(peers := s.peers[id := s.peers[id].(trace := s.peers[id].trace + [e])]);
    assert Later(s.peers, s1.peers);
    CallsLater(s1, cb.calls);
    LaterTransitive(s.peers, s1.peers, Invoke(s, id, e, cb).peers);
  }

  lemma StopPeerLater(s: Acceptor, id: nat, cb: Callback)
    ensures Later(s.peers, StopPeer(s, id, cb).peers) && StopPeer(s, id, cb).table == s.table
  {
    if id < |s.peers| && s.peers[id].running {
      InvokeLater(s, id, OnClose, cb);
      var t := Invoke(s, id, OnClose, cb);
      assert Later(t.peers, StopPeer(s, id, cb).peers);
      LaterTransitive(s.peers, t.peers, StopPeer(s, id, cb).peers);
    }
  }

  lemma {:induction false} StopPeersLater(s: Acceptor, order: seq<(Endpoint, Callback)>)
    ensures Later(s.peers, StopPeers(s, order).peers)
    decreases |order|
  {
    if order != [] {
      var t := if order[0].0 in s.table then StopPeer(s, s.table[order[0].0], order[0].1) else s;
      if order[0].0 in s.table {
        StopPeerLater(s, s.table[order[0].0], order[0].1);
      }
      StopPeersLater(t, order[1..]);
      LaterTransitive(s.peers, t.peers, StopPeers(s, order).peers);
    }
  }

  lemma AdmitLater(s: Acceptor, from: Endpoint, cb: Callback)
    ensures Later(s.peers, Admit(s, from, cb).peers)
  {
    if from !in s.table {
      var s1 := s.(peers := s.peers + [NewPeer(from)], table := s.table[from := |s.peers|]);
      assert Later(s.peers, s1.peers);
      InvokeLater(s1, |s.peers|, OnAccept, cb);
      LaterTransitive(s.peers, s1.peers, Admit(s, from, cb).peers);
    }
  }

  lemma GiveLater(s: Acceptor, id: nat, data: Bytes, cb: Callback)
    requires id < |s.peers|
    ensures Later(s.peers, Give(s, id, data, cb).peers)
  {
    var p := s.peers[id];
    var s1 := s.(peers := s.peers[id := p.(queue := p.queue + [data], given := p.given + [data])]);
    assert Later(s.peers, s1.peers);
    InvokeLater(s1, id, OnRecv, cb);
    LaterTransitive(s.peers, s1.peers, Give(s, id, data, cb).peers);
  }

  lemma RecvLater(s: Acceptor, from: Endpoint, data: Bytes, accept: Callback, recv: Callback)
    requires s.reading > 0
    ensures Later(s.peers, HandleRecv(s, from, data, accept, recv).peers)
  {
    var s1 := s.(reading := s.reading - 1, lastEndpoint := from, arrivals := s.arrivals + [Packet(from, data)]);
    var s2 := Admit(s1, from, accept);
    AdmitLater(s1, from, accept);
    if from in s2.table && s2.table[from] < |s2.peers| {
      GiveLater(s2, s2.table[from], data, recv);
      LaterTransitive(s1.peers, s2.peers, Give(s2, s2.table[from], data, recv).peers);
    }
  }

  lemma StepLater(s: Acceptor, step: Step)
    requires Enabled(s, step)
    ensures Later(s.peers, Next(s, step).peers)
  {
    match step
    case Received(_, from, data, accept, recv) => RecvLater(s, from, data, accept, recv);
    case Posted(cb, order) =>
      var s1 := s.(posted := s.posted[1..]);
      if s.posted[0].Close? {
        if s.posted[0].endpoint in s.table {
          StopPeerLater(s1, s.table[s.posted[0].endpoint], cb);
        }
      } else if s.posted[0].Stop? {
        StopPeersLater(s1, order);
      }
    case Api(c) => ApplyLater(s, c);
    case SendDone(_) =>
    case StopCall =>
  }

  lemma {:induction false} RunLater(s: Acceptor, steps: seq<Step>)
    requires Legal(s, steps)
    ensures Later(s.peers, Run(s, steps).peers)
    decreases |steps|
  {
    if steps != [] {
      var t := Next(s, steps[0]);
      StepLater(s, steps[0]);
      RunLater(t, steps[1..]);
      LaterTransitive(s.peers, t.peers, Run(t, steps[1..]).peers);
    }
  }

  /** on_close is the last callback of a passive connection: whatever happens afterwards, it is neither
      called back nor given anything again. */
  lemma ClosedIsFinal(s: Acceptor, steps: seq<Step>, i: nat)
    requires Inv(s) && Legal(s, steps) && i < |s.peers| && !s.peers[i].running
    ensures var t := Run(s, steps);
            i < |t.peers| && !t.peers[i].running && t.peers[i].trace == s.peers[i].trace
  {
    RunKeeps(s, steps);
    RunLater(s, steps);
    var t := Run(s, steps);
    var p, q := s.peers[i], t.peers[i];
    assert LaterPeer(p, q) && PeerInv(p) && PeerInv(q);
  }

  // ---------------------------------------------------------------- the table

  /** on_accept callbacks minus on_close callbacks over all connections of an endpoint. */
  function Balance(peers: seq<Peer>, e: Endpoint): int {
    if peers == [] then 0
    else
      var last := peers[|peers| - 1];
      Balance(peers[..|peers| - 1], e) +
      (if last.endpoint == e then multiset(last.trace)[OnAccept] as int - multiset(last.trace)[OnClose] as int else 0)
  }

  lemma OnlyReceives(middle: seq<Event>)
    requires forall i | 0 <= i < |middle| :: middle[i] == OnRecv
    ensures multiset(middle)[OnAccept] == 0 && multiset(middle)[OnClose] == 0
  {
    assert forall x | x in middle :: x == OnRecv;
  }

  lemma ShapeCounts(p: Peer)
    requires Shape(p)
    ensures multiset(p.trace)[OnAccept] == 1
    ensures multiset(p.trace)[OnClose] == if p.running then 0 else 1
  {
    var middle := if p.running then p.trace[1..] else p.trace[1..|p.trace| - 1];
    OnlyReceives(middle);
    if p.running {
      AroundMiddle([OnAccept], middle, []);
      assert p.trace == [OnAccept] + middle + [];
    } else {
      AroundMiddle([OnAccept], middle, [OnClose]);
      assert p.trace == [OnAccept] + middle + [OnClose];
    }
  }

  lemma AroundMiddle(a: seq<Event>, b: seq<Event>, c: seq<Event>)
    ensures multiset(a + b + c) == multiset(a) + multiset(b) + multiset(c)
  {
    assert multiset(a + b) == multiset(a) + multiset(b);
  }

  lemma {:induction false} BalanceIsRunning(peers: seq<Peer>, e: Endpoint)
    requires forall i | 0 <= i < |peers| :: PeerInv(peers[i])
    requires Succession(peers)
    ensures Balance(peers, e) ==
            if exists i | 0 <= i < |peers| :: peers[i].endpoint == e && peers[i].running then 1 else 0
  {
    if peers != [] {
      var n := |peers| - 1;
      BalanceIsRunning(peers[..n], e);
      assert PeerInv(peers[n]);
      ShapeCounts(peers[n]);
      if exists i | 0 <= i < n :: peers[..n][i].endpoint == e && peers[..n][i].running {
        var i :| 0 <= i < n && peers[..n][i].endpoint == e && peers[..n][i].running;
        assert peers[i].endpoint == e && peers[i].running;
        assert peers[n].endpoint != e;
      } else if peers[n].endpoint == e && peers[n].running {
        assert exists i | 0 <= i < |peers| :: peers[i].endpoint == e && peers[i].running;
      } else {
        forall i | 0 <= i < |peers| ensures !(peers[i].endpoint == e && peers[i].running) {
          assert i < n ==> peers[..n][i] == peers[i];
        }
      }
    }
  }

  /** Over every run: keys are the endpoints of their connections, running means mapped, and the accepts
      of an endpoint exceed its closes by one if it is mapped and balance them otherwise. */
  lemma TableConsistent(steps: seq<Step>, e: Endpoint)
    requires Legal(Started(), steps)
    ensures var s := Run(Started(), steps);
            && TableInv(s.peers, s.table)
            && Balance(s.peers, e) == if e in s.table then 1 else 0
  {
    var s := Reachable(steps);
    BalanceIsRunning(s.peers, e);
    if e in s.table {
      assert s.peers[s.table[e]].endpoint == e && s.peers[s.table[e]].running;
    } else {
      forall i | 0 <= i < |s.peers| ensures !(s.peers[i].endpoint == e && s.peers[i].running) {
        assert s.peers[i].running ==> Mapped(s.peers, s.table, i);
      }
    }
  }

  // ---------------------------------------------------------------- receiving

  /** Demultiplexing is a filter: for each endpoint, what its successive connections were given is what
      arrived from it, in order; and each connection has what it was given, minus what was dropped from
      the front. */
  lemma DemultiplexingFilters(steps: seq<Step>, e: Endpoint)
    requires Legal(Started(), steps)
    ensures var s := Run(Started(), steps);
            && GivenTo(s.peers, e) == Project(s.arrivals, e)
            && forall i | 0 <= i < |s.peers| :: s.peers[i].given == s.peers[i].dropped + s.peers[i].queue
  {
    var s := Reachable(steps);
    forall i | 0 <= i < |s.peers| ensures s.peers[i].given == s.peers[i].dropped + s.peers[i].queue {
      assert PeerInv(s.peers[i]);
    }
  }

  // ---------------------------------------------------------------- sending

  lemma {:induction false} ProjectConcat(a: seq<Packet>, b: seq<Packet>, e: Endpoint)
    ensures Project(a + b, e) == Project(a, e) + Project(b, e)
  {
    if b == [] {
      assert a + b == a;
    } else {
      var n := |b| - 1;
      assert a + b == (a + b[..n]) + [b[n]] && b == b[..n] + [b[n]];
      ProjectConcat(a, b[..n], e);
      ProjectSnoc(a + b[..n], b[n], e);
      ProjectSnoc(b[..n], b[n], e);
    }
  }

  /** Over every run, errors included: a send is in flight exactly when the queue is not empty, the sends
      started are a prefix of what was accepted across all connections, and so every endpoint is sent its
      own data in the order it was filled. */
  lemma SendsInOrder(steps: seq<Step>, e: Endpoint)
    requires Legal(Started(), steps)
    ensures var s := Run(Started(), steps);
            && (s.queue.outstanding != [] <==> s.queue.deque != []) && |s.queue.outstanding| <= 1
            && s.accepted == s.queue.sent + s.queue.deque + Packets(s.posted)
            && s.queue.sent + s.queue.outstanding <= s.accepted
            && Project(s.queue.sent + s.queue.outstanding, e) <= Project(s.accepted, e)
  {
    var s := Reachable(steps);
    var started := s.queue.sent + s.queue.outstanding;
    assert started <= s.accepted by {
      if s.queue.deque != [] {
        assert s.queue.deque == s.queue.outstanding + s.queue.deque[1..];
      }
    }
    assert s.accepted == started + s.accepted[|started|..];
    ProjectConcat(started, s.accepted[|started|..], e);
  }

  /** Completions of sends in a row, with these outcomes. */
  function Completions(outcomes: seq<bool>): seq<Step> {
    if outcomes == [] then [] else [SendDone(outcomes[0])] + Completions(outcomes[1..])
  }

  lemma {:induction false} CompletionsDrain(s: Acceptor, outcomes: seq<bool>)
    requires Inv(s) && |outcomes| == |s.queue.deque|
    ensures Legal(s, Completions(outcomes))
    ensures Run(s, Completions(outcomes)) == s.(queue := Q.Queue([], [], false, s.queue.sent + s.queue.deque))
    decreases |outcomes|
  {
    if outcomes == [] {
      assert s.queue.sent + [] == s.queue.sent;
    } else {
      var t := HandleSend(s);
      SendKeeps(s);
      Q.FinishKeeps(s.queue);
      CompletionsDrain(t, outcomes[1..]);
      assert Completions(outcomes)[1..] == Completions(outcomes[1..]);
    }
  }

  /** From every reachable state, as many completions as there are packets, with or without errors, can follow
      one another; they send what is queued, in order, and change nothing else. */
  lemma SendsDrain(steps: seq<Step>, outcomes: seq<bool>)
    requires Legal(Started(), steps) && |outcomes| == |Run(Started(), steps).queue.deque|
    ensures var s := Run(Started(), steps);
            && Legal(s, Completions(outcomes))
            && Run(s, Completions(outcomes)) == s.(queue := Q.Queue([], [], false, s.queue.sent + s.queue.deque))
  {
    var s := Reachable(steps);
    CompletionsDrain(s, outcomes);
  }
}
