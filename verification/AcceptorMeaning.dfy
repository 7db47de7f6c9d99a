/** What the calls of user code, its answers and the datagrams mean for an acceptor, over whole runs. Everything here is
    counted from the steps, the calls in their callbacks and the endpoints of the connections, and not from the
    histories that the machine keeps. */
module AcceptorMeaning {
  import opened Octets
  import opened AcceptorMachine
  import opened AcceptorInvariant
  import L = AcceptorLaws
  import Q = SendQueue

  // ---------------------------------------------------------------- what calls post

  /** The endpoints of the connections, in the order of their numbers. */
  function Ends(s: Acceptor): seq<Endpoint> {
    seq(|s.peers|, i requires 0 <= i < |s.peers| => s.peers[i].endpoint)
  }

  /** What one call posts, when connection i has endpoint ends[i]: a fill sends to the endpoint of its connection, a
      null pointer standing for an empty datagram if no length goes with it, and a close closes its endpoint. */
  function CallPosts(ends: seq<Endpoint>, c: Call): seq<Task> {
    if c.id >= |ends| then [] else
    match c
    case Fill(id, data) => [Push(Packet(ends[id], data))]
    case FillNull(id, len) => if len == 0 then [Push(Packet(ends[id], []))] else []
    case Drop(_) => []
    case Shut(id) => [Close(ends[id])]
  }

  function CallsPost(ends: seq<Endpoint>, calls: seq<Call>): seq<Task> {
    if calls == [] then [] else CallPosts(ends, calls[0]) + CallsPost(ends, calls[1..])
  }

  /** A callback about the connection of `e`, and a close of `e` if it is one that was refused. */
  function AnswerPosts(ends: seq<Endpoint>, e: Endpoint, cb: Callback): seq<Task> {
    CallsPost(ends, cb.calls) + if cb.ok then [] else [Close(e)]
  }

  /** What the callbacks of on_close post, for the connections of `open` in the order they are visited. */
  function StopPosts(ends: seq<Endpoint>, order: seq<(Endpoint, Callback)>, open: set<Endpoint>): seq<Task> {
    if order == [] then []
    else if order[0].0 in open then
      CallsPost(ends, order[0].1.calls) + StopPosts(ends, order[1..], open - {order[0].0})
    else StopPosts(ends, order[1..], open)
  }

  /** What a step posts. */
  ghost function Posts(s: Acceptor, step: Step): seq<Task>
    requires Enabled(s, step)
  {
    match step
    case Received(_, from, _, accept, recv) =>
      if from in s.table then AnswerPosts(Ends(s), from, recv)
      else AnswerPosts(Ends(s) + [from], from, accept) + AnswerPosts(Ends(s) + [from], from, recv)
    case Posted(cb, order) =>
      (match s.posted[0]
       case Close(e) => if e in s.table then CallsPost(Ends(s), cb.calls) else []
       case Stop => StopPosts(Ends(s), order, s.table.Keys)
       case Push(_) => [])
    case Api(c) => CallPosts(Ends(s), c)
    case StopCall => if s.running then [Stop] else []
    case SendDone(_) => []
  }

  lemma CallMeans(s: Acceptor, c: Call)
    ensures Apply(s, c).posted == s.posted + CallPosts(Ends(s), c) && Ends(Apply(s, c)) == Ends(s)
    ensures Apply(s, c).accepted == s.accepted + Packets(CallPosts(Ends(s), c))
    ensures Apply(s, c).table == s.table
  {
    var posts := CallPosts(Ends(s), c);
    assert s.posted + [] == s.posted && s.accepted + [] == s.accepted;
    if posts != [] {
      PacketsPost([], posts[0]);
      assert [] + [posts[0]] == posts;
    }
  }

  lemma {:induction false} CallsMean(s: Acceptor, calls: seq<Call>)
    ensures ApplyAll(s, calls).posted == s.posted + CallsPost(Ends(s), calls) && Ends(ApplyAll(s, calls)) == Ends(s)
    ensures ApplyAll(s, calls).accepted == s.accepted + Packets(CallsPost(Ends(s), calls))
    ensures ApplyAll(s, calls).table == s.table
    decreases |calls|
  {
    if calls == [] {
      assert s.posted + [] == s.posted && s.accepted + [] == s.accepted;
    } else {
      var t := Apply(s, calls[0]);
      CallMeans(s, calls[0]);
      CallsMean(t, calls[1..]);
      var a, b := CallPosts(Ends(s), calls[0]), CallsPost(Ends(s), calls[1..]);
      Assoc(s.posted, a, b);
      PacketsConcat(a, b);
      Assoc(s.accepted, Packets(a), Packets(b));
    }
  }

  /** What one callback posts, and that it changes nobody's endpoint. */
  lemma InvokeMeans(s: Acceptor, id: nat, e: Event, cb: Callback)
    requires id < |s.peers|
    ensures var t := Invoke(s, id, e, cb);
            && t.posted == s.posted + CallsPost(Ends(s), cb.calls) && Ends(t) == Ends(s)
            && t.accepted == s.accepted + Packets(CallsPost(Ends(s), cb.calls)) && t.table == s.table
  {
    var u := s.(peers := s.peers[id := s.peers[id].(trace := s.peers[id].trace + [e])]);
    assert Ends(u) == Ends(s);
    CallsMean(u, cb.calls);
  }

  lemma AnswerMeans(s: Acceptor, t: Acceptor, ends: seq<Endpoint>, e: Endpoint, cb: Callback)
    requires t.posted == s.posted + CallsPost(ends, cb.calls)
    requires t.accepted == s.accepted + Packets(CallsPost(ends, cb.calls))
    ensures CloseUnless(cb.ok, t, e).posted == s.posted + AnswerPosts(ends, e, cb)
    ensures CloseUnless(cb.ok, t, e).accepted == s.accepted + Packets(AnswerPosts(ends, e, cb))
  {
    var a := CallsPost(ends, cb.calls);
    var b: seq<Task> := if cb.ok then [] else [Close(e)];
    Assoc(s.posted, a, b);
    PacketsConcat(a, b);
    assert a + [] == a && Packets(a) + [] == Packets(a);
    if !cb.ok {
      PacketsPost([], Close(e));
      assert [] + [Task.Close(e)] == [Task.Close(e)];
    }
  }

  // ---------------------------------------------------------------- steps

  lemma AdmitMeans(s: Acceptor, from: Endpoint, cb: Callback)
    requires from !in s.table
    ensures var t := Admit(s, from, cb);
            && t.posted == s.posted + AnswerPosts(Ends(s) + [from], from, cb) && Ends(t) == Ends(s) + [from]
            && t.accepted == s.accepted + Packets(AnswerPosts(Ends(s) + [from], from, cb))
            && t.table == s.table[from := |s.peers|]
  {
    var u := s.(peers := s.peers + [NewPeer(from)], table := s.table[from := |s.peers|]);
    assert Ends(u) == Ends(s) + [from];
    InvokeMeans(u, |s.peers|, OnAccept, cb);
    AnswerMeans(s, Invoke(u, |s.peers|, OnAccept, cb), Ends(u), from, cb);
  }

  lemma GiveMeans(s: Acceptor, id: nat, data: Bytes, cb: Callback)
    requires id < |s.peers|
    ensures var t, e := Give(s, id, data, cb), s.peers[id].endpoint;
            && t.posted == s.posted + AnswerPosts(Ends(s), e, cb) && Ends(t) == Ends(s)
            && t.accepted == s.accepted + Packets(AnswerPosts(Ends(s), e, cb))
  {
    var p := s.peers[id];
    var u := s.(peers := s.peers[id := p.(queue := p.queue + [data], given := p.given + [data])]);
    assert Ends(u) == Ends(s);
    InvokeMeans(u, id, OnRecv, cb);
    AnswerMeans(s, Invoke(u, id, OnRecv, cb), Ends(s), p.endpoint, cb);
  }

  lemma RecvMeans(s: Acceptor, ok: bool, from: Endpoint, data: Bytes, accept: Callback, recv: Callback)
    requires Inv(s)
    ensures var t, posts := HandleRecv(s, from, data, accept, recv), Posts(s, Received(ok, from, data, accept, recv));
            t.posted == s.posted + posts && t.accepted == s.accepted + Packets(posts)
  {
    var s1 := s.(reading := s.reading - 1, lastEndpoint := from, arrivals := s.arrivals + [Packet(from, data)]);
    assert Ends(s1) == Ends(s);
    if from in s.table {
      GiveMeans(s1, s.table[from], data, recv);
    } else {
      var s2 := Admit(s1, from, accept);
      AdmitMeans(s1, from, accept);
      assert |s2.peers| == |Ends(s2)| && s2.peers[|s.peers|].endpoint == Ends(s2)[|s.peers|];
      GiveMeans(s2, |s.peers|, data, recv);
      var a, b := AnswerPosts(Ends(s) + [from], from, accept), AnswerPosts(Ends(s) + [from], from, recv);
      Assoc(s.posted, a, b);
      PacketsConcat(a, b);
      Assoc(s.accepted, Packets(a), Packets(b));
    }
  }

  lemma StopPeerMeans(s: Acceptor, id: nat, cb: Callback)
    requires id < |s.peers| && s.peers[id].running
    ensures var t := StopPeer(s, id, cb);
            && t.posted == s.posted + CallsPost(Ends(s), cb.calls) && Ends(t) == Ends(s) && t.table == s.table
            && t.accepted == s.accepted + Packets(CallsPost(Ends(s), cb.calls))
  {
    InvokeMeans(s, id, OnClose, cb);
    var t := Invoke(s, id, OnClose, cb);
    assert |t.peers| == |Ends(t)| == |s.peers|;
    assert Ends(StopPeer(s, id, cb)) == Ends(t);
  }

  /** The connections of `open` run, and no other mapped one does. */
  ghost predicate OpenOnes(s: Acceptor, open: set<Endpoint>) {
    && Mid(s) && Owing(s, []) && (forall e | e in open :: e in s.table)
    && (forall e | e in s.table :: s.table[e] < |s.peers| && s.peers[s.table[e]].endpoint == e)
    && (forall e | e in s.table :: s.peers[s.table[e]].running <==> e in open)
  }

  lemma StopsOne(s: Acceptor, open: set<Endpoint>, e: Endpoint, cb: Callback)
    requires OpenOnes(s, open) && e in open
    ensures OpenOnes(StopPeer(s, s.table[e], cb), open - {e})
  {
    StopPeerKeeps(s, s.table[e], cb);
  }

  lemma {:induction false} StopPeersMeans(s: Acceptor, order: seq<(Endpoint, Callback)>, open: set<Endpoint>)
    requires OpenOnes(s, open)
    ensures var t, posts := StopPeers(s, order), StopPosts(Ends(s), order, open);
            t.posted == s.posted + posts && t.accepted == s.accepted + Packets(posts)
    decreases |order|
  {
    if order == [] {
      assert s.posted + [] == s.posted && s.accepted + [] == s.accepted;
    } else {
      var e, cb := order[0].0, order[0].1;
      if e in open {
        var t := StopPeer(s, s.table[e], cb);
        StopsOne(s, open, e, cb);
        StopPeerMeans(s, s.table[e], cb);
        StopPeersMeans(t, order[1..], open - {e});
        var a, b := CallsPost(Ends(s), cb.calls), StopPosts(Ends(s), order[1..], open - {e});
        Assoc(s.posted, a, b);
        PacketsConcat(a, b);
        Assoc(s.accepted, Packets(a), Packets(b));
      } else {
        StopPeersMeans(s, order[1..], open);
      }
    }
  }

  lemma TaskMeans(s: Acceptor, cb: Callback, order: seq<(Endpoint, Callback)>)
    requires Inv(s) && Enabled(s, Posted(cb, order))
    ensures var t, posts := RunTask(s, cb, order), Posts(s, Posted(cb, order));
            t.posted == s.posted[1..] + posts && t.accepted == s.accepted + Packets(posts)
  {
    var s1 := s.(posted := s.posted[1..]);
    assert Ends(s1) == Ends(s) && s1.posted + [] == s1.posted && s.accepted + [] == s.accepted;
    match s.posted[0]
    case Close(e) => if e in s.table { StopPeerMeans(s1, s.table[e], cb); }
    case Stop =>
      Popped(s);
      InvParts(s1);
      StopPeersMeans(s1, order, s.table.Keys);
    case Push(_) =>
  }

  /** A step posts exactly what its calls and answers say, behind what was posted before. */
  lemma StepPosts(s: Acceptor, step: Step)
    requires Inv(s) && Enabled(s, step)
    ensures Next(s, step).posted == (if step.Posted? then s.posted[1..] else s.posted) + Posts(s, step)
    ensures Next(s, step).accepted == s.accepted + Packets(Posts(s, step))
  {
    assert s.posted + [] == s.posted && s.accepted + [] == s.accepted;
    match step
    case Received(ok, from, data, accept, recv) => RecvMeans(s, ok, from, data, accept, recv);
    case Posted(cb, order) => TaskMeans(s, cb, order);
    case Api(c) => CallMeans(s, c);
    case SendDone(_) =>
    case StopCall =>
      PacketsPost([], Stop);
      assert [] + [Task.Stop] == [Task.Stop];
  }

  // ---------------------------------------------------------------- whole runs

  /** The packets that user code has filled, on whatever connection, each with the endpoint of its connection. */
  ghost function FilledBy(s: Acceptor, steps: seq<Step>): seq<Packet>
    requires Legal(s, steps)
    decreases |steps|
  {
    if steps == [] then [] else Packets(Posts(s, steps[0])) + FilledBy(Next(s, steps[0]), steps[1..])
  }

  /** The datagrams received, with whatever failed receives left behind. */
  function ArrivedBy(steps: seq<Step>): seq<Packet> {
    if steps == [] then []
    else (if steps[0].Received? then [Packet(steps[0].from, steps[0].data)] else []) + ArrivedBy(steps[1..])
  }

  function SendsBy(steps: seq<Step>): nat {
    if steps == [] then 0 else (if steps[0].SendDone? then 1 else 0) + SendsBy(steps[1..])
  }

  lemma {:induction false} RunFills(s: Acceptor, steps: seq<Step>)
    requires Inv(s) && Legal(s, steps)
    ensures Run(s, steps).accepted == s.accepted + FilledBy(s, steps)
    decreases |steps|
  {
    if steps == [] {
      assert s.accepted + [] == s.accepted;
    } else {
      StepKeeps(s, steps[0]);
      StepPosts(s, steps[0]);
      RunFills(Next(s, steps[0]), steps[1..]);
      Assoc(s.accepted, Packets(Posts(s, steps[0])), FilledBy(Next(s, steps[0]), steps[1..]));
    }
  }

  /** Over every run the packets sent, queued and posted are, in order, those that user code filled, each to the
      endpoint of the connection it was filled on; as many have been sent as sends have completed. */
  lemma SendsWhatIsFilled(steps: seq<Step>, e: Endpoint)
    requires Legal(Started(), steps)
    ensures var s := Run(Started(), steps);
            && s.queue.sent + s.queue.deque + Packets(s.posted) == FilledBy(Started(), steps)
            && |s.queue.sent| == SendsBy(steps)
            && Project(s.queue.sent + s.queue.deque + Packets(s.posted), e) == Project(FilledBy(Started(), steps), e)
  {
    var s := L.Reachable(steps);
    RunFills(Started(), steps);
    assert [] + FilledBy(Started(), steps) == FilledBy(Started(), steps);
    RunSends(Started(), steps);
  }

  lemma CallsQueue(s: Acceptor, calls: seq<Call>)
    ensures ApplyAll(s, calls).queue == s.queue && ApplyAll(s, calls).arrivals == s.arrivals
    ensures ApplyAll(s, calls).running == s.running
  {
    var _ := AllCalls(s, calls);
  }

  lemma InvokeQueue(s: Acceptor, id: nat, e: Event, cb: Callback)
    requires id < |s.peers|
    ensures Invoke(s, id, e, cb).queue == s.queue && Invoke(s, id, e, cb).arrivals == s.arrivals
    ensures Invoke(s, id, e, cb).running == s.running
  {
    CallsQueue(s.(peers := s.peers[id := s.peers[id].(trace := s.peers[id].trace + [e])]), cb.calls);
  }

  lemma RecvQueue(s: Acceptor, from: Endpoint, data: Bytes, accept: Callback, recv: Callback)
    requires s.reading > 0
    ensures var t := HandleRecv(s, from, data, accept, recv);
            t.queue == s.queue && t.running == s.running && t.arrivals == s.arrivals + [Packet(from, data)]
  {
    var s1 := s.(reading := s.reading - 1, lastEndpoint := from, arrivals := s.arrivals + [Packet(from, data)]);
    if from !in s1.table {
      InvokeQueue(s1.(peers := s1.peers + [NewPeer(from)], table := s1.table[from := |s1.peers|]), |s1.peers|,
                  OnAccept, accept);
    }
    var s2 := Admit(s1, from, accept);
    if from in s2.table && s2.table[from] < |s2.peers| {
      var id, p := s2.table[from], s2.peers[s2.table[from]];
      InvokeQueue(s2.(peers := s2.peers[id := p.(queue := p.queue + [data], given := p.given + [data])]), id,
                  OnRecv, recv);
    }
  }

  lemma StopPeerQueue(s: Acceptor, id: nat, cb: Callback)
    ensures StopPeer(s, id, cb).queue == s.queue && StopPeer(s, id, cb).arrivals == s.arrivals
    ensures StopPeer(s, id, cb).running == s.running
  {
    if id < |s.peers| && s.peers[id].running {
      InvokeQueue(s, id, OnClose, cb);
    }
  }

  lemma {:induction false} StopPeersQueue(s: Acceptor, order: seq<(Endpoint, Callback)>)
    ensures StopPeers(s, order).queue == s.queue && StopPeers(s, order).arrivals == s.arrivals
    ensures StopPeers(s, order).running == s.running
    decreases |order|
  {
    if order != [] {
      if order[0].0 in s.table {
        StopPeerQueue(s, s.table[order[0].0], order[0].1);
      }
      StopPeersQueue(if order[0].0 in s.table then StopPeer(s, s.table[order[0].0], order[0].1) else s, order[1..]);
    }
  }

  /** Only completions send, and only receives arrive. */
  lemma StepQueue(s: Acceptor, step: Step)
    requires Inv(s) && Enabled(s, step)
    ensures |Next(s, step).queue.sent| == |s.queue.sent| + (if step.SendDone? then 1 else 0)
    ensures Next(s, step).arrivals == s.arrivals + (if step.Received? then [Packet(step.from, step.data)] else [])
    ensures Next(s, step).running == (s.running && !step.StopCall?)
  {
    assert s.arrivals + [] == s.arrivals;
    match step
    case Received(_, from, data, accept, recv) => RecvQueue(s, from, data, accept, recv);
    case Posted(cb, order) =>
      var s1 := s.(posted := s.posted[1..]);
      match s.posted[0] {
        case Close(e) => if e in s.table { StopPeerQueue(s1, s.table[e], cb); }
        case Stop => StopPeersQueue(s1, order);
        case Push(p) => Q.PushKeeps(s.queue, p);
      }
    case Api(c) =>
    case SendDone(_) => Q.FinishKeeps(s.queue);
    case StopCall =>
  }

  lemma {:induction false} RunSends(s: Acceptor, steps: seq<Step>)
    requires Inv(s) && Legal(s, steps)
    ensures |Run(s, steps).queue.sent| == |s.queue.sent| + SendsBy(steps)
    ensures Run(s, steps).arrivals == s.arrivals + ArrivedBy(steps)
    ensures Run(s, steps).running <==> s.running && StopCall !in steps
    decreases |steps|
  {
    if steps == [] {
      assert s.arrivals + [] == s.arrivals;
    } else {
      StepKeeps(s, steps[0]);
      StepQueue(s, steps[0]);
      RunSends(Next(s, steps[0]), steps[1..]);
      assert steps == [steps[0]] + steps[1..];
      var first := if steps[0].Received? then [Packet(steps[0].from, steps[0].data)] else [];
      Assoc(s.arrivals, first, ArrivedBy(steps[1..]));
    }
  }

  /** Demultiplexing, said of the steps: what the successive connections of an endpoint were given is what the receives
      brought from it, in order. */
  lemma GivesWhatArrives(steps: seq<Step>, e: Endpoint)
    requires Legal(Started(), steps)
    ensures GivenTo(Run(Started(), steps).peers, e) == Project(ArrivedBy(steps), e)
  {
    var s := L.Reachable(steps);
    RunSends(Started(), steps);
    assert [] + ArrivedBy(steps) == ArrivedBy(steps);
  }

  // ---------------------------------------------------------------- the posted queue

  ghost function PostsBy(s: Acceptor, steps: seq<Step>): seq<Task>
    requires Legal(s, steps)
    decreases |steps|
  {
    if steps == [] then [] else Posts(s, steps[0]) + PostsBy(Next(s, steps[0]), steps[1..])
  }

  /** The handlers that the worker has run. */
  ghost function RunBy(s: Acceptor, steps: seq<Step>): seq<Task>
    requires Legal(s, steps)
    decreases |steps|
  {
    if steps == [] then []
    else (if steps[0].Posted? then [s.posted[0]] else []) + RunBy(Next(s, steps[0]), steps[1..])
  }

  lemma {:induction false} RunPosts(s: Acceptor, steps: seq<Step>)
    requires Inv(s) && Legal(s, steps)
    ensures RunBy(s, steps) + Run(s, steps).posted == s.posted + PostsBy(s, steps)
    decreases |steps|
  {
    if steps == [] {
      assert s.posted + [] == s.posted && [] + s.posted == s.posted;
    } else {
      var t := Next(s, steps[0]);
      StepKeeps(s, steps[0]);
      StepPosts(s, steps[0]);
      RunPosts(t, steps[1..]);
      var front: seq<Task> := if steps[0].Posted? then [s.posted[0]] else [];
      var rest := if steps[0].Posted? then s.posted[1..] else s.posted;
      assert s.posted == front + rest;
      Assoc(front, RunBy(t, steps[1..]), Run(s, steps).posted);
      Assoc(rest, Posts(s, steps[0]), PostsBy(t, steps[1..]));
      Assoc(front, rest, Posts(s, steps[0]) + PostsBy(t, steps[1..]));
    }
  }

  /** Over every run the handlers that have run and those still posted are, in order, exactly what the calls and the
      refusals of user code and the first call of stop ask for. */
  lemma PostsWhatIsAsked(steps: seq<Step>)
    requires Legal(Started(), steps)
    ensures var s := Run(Started(), steps);
            && RunBy(Started(), steps) + s.posted == PostsBy(Started(), steps)
            && (s.running <==> StopCall !in steps)
  {
    L.StartedInv();
    RunPosts(Started(), steps);
    RunSends(Started(), steps);
    assert [] + PostsBy(Started(), steps) == PostsBy(Started(), steps);
  }
}
