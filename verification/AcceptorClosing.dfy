/** Closing by endpoint, and stopping, over runs. */
module AcceptorClosing {
  import opened Octets
  import opened AcceptorMachine
  import opened AcceptorInvariant
  import opened AcceptorLaws

  // ---------------------------------------------------------------- one close handler

  /** Closing is by endpoint: the close that connection `id` asked for stops exactly the connection that
      is mapped when the handler runs. It spares every other connection if and only if `id` is still
      running or its endpoint has no connection any more. */
  lemma CloseTarget(s: Acceptor, id: nat, cb: Callback)
    requires Inv(s) && id < |s.peers|
    ensures var e := s.peers[id].endpoint;
            var t := HandleClose(s, e, cb);
            && |t.peers| == |s.peers|
            && (forall j | 0 <= j < |s.peers| ::
                  s.peers[j].running && !t.peers[j].running <==> e in s.table && j == s.table[e])
            && ((forall j | 0 <= j < |s.peers| && j != id :: t.peers[j].running == s.peers[j].running)
                <==> s.peers[id].running || e !in s.table)
  {
    InvParts(s);
    var e := s.peers[id].endpoint;
    if e in s.table {
      StopPeerKeeps(s, s.table[e], cb);
      if s.peers[id].running {
        assert Mapped(s.peers, s.table, id);
      } else {
        assert s.table[e] != id;
      }
    }
  }

  /** A connection that nobody asked to close is closed: its predecessor at the same endpoint asked twice. */
  lemma SecondCloseHitsSuccessor()
    ensures var yes := Callback([], true);
            var datagram := Received(true, 7, [1], yes, yes);
            var steps := [datagram, Api(Shut(0)), Api(Shut(0)), Posted(yes, []), datagram, Posted(yes, [])];
            && Legal(Started(), steps)
            && var s := Run(Started(), steps);
            && |s.peers| == 2 && s.peers[1].trace == [OnAccept, OnRecv, OnClose] && s.table == map[]
  {
    var yes := Callback([], true);
    var datagram := Received(true, 7, [1], yes, yes);
    var run := Posted(yes, []);
    var s0 := Started();
    var open := Peer(7, true, [[1]], [[1]], [], [OnAccept, OnRecv]);
    QuietReceive(s0, 7, [1]);
    var s1 := Next(s0, datagram);
    assert s1.peers == [open] && s1.table == map[7 := 0] && s1.posted == [] && s1.reading == 1;
    var s2 := Apply(s1, Shut(0));
    var s3 := Apply(s2, Shut(0));
    assert s3 == s1.(posted := [Close(7), Close(7)]);
    SecondCloseRuns(s3);
    LegalCons(s2, Api(Shut(0)), [run, datagram, run]);
    LegalCons(s1, Api(Shut(0)), [Api(Shut(0)), run, datagram, run]);
    LegalCons(s0, datagram, [Api(Shut(0)), Api(Shut(0)), run, datagram, run]);
  }

  lemma SecondCloseRuns(s3: Acceptor)
    requires s3.peers == [Peer(7, true, [[1]], [[1]], [], [OnAccept, OnRecv])] && s3.table == map[7 := 0]
    requires s3.posted == [Close(7), Close(7)] && s3.reading == 1
    ensures var yes := Callback([], true);
            var steps := [Posted(yes, []), Received(true, 7, [1], yes, yes), Posted(yes, [])];
            && Legal(s3, steps)
            && var s := Run(s3, steps);
            && |s.peers| == 2 && s.peers[1].trace == [OnAccept, OnRecv, OnClose] && s.table == map[]
  {
    var yes := Callback([], true);
    var datagram := Received(true, 7, [1], yes, yes);
    var run := Posted(yes, []);
    QuietClose(s3.(posted := [Close(7)]), 7);
    assert s3.posted[1..] == [Close(7)];
    var s4 := Next(s3, run);
    assert s4.table == map[] && s4.posted == [Close(7)] && s4.reading == 1 && |s4.peers| == 1;
    QuietReceive(s4, 7, [1]);
    var s5 := Next(s4, datagram);
    assert |s5.peers| == 2 && s5.peers[1] == Peer(7, true, [[1]], [[1]], [], [OnAccept, OnRecv]);
    assert s5.table == map[7 := 1] && s5.posted == [Close(7)];
    QuietClose(s5.(posted := []), 7);
    assert s5.posted[1..] == [];
    var s6 := Next(s5, run);
    assert |s6.peers| == 2 && s6.peers[1].trace == [OnAccept, OnRecv, OnClose] && s6.table == map[];
    LegalCons(s5, run, []);
    LegalCons(s4, datagram, [run]);
    LegalCons(s3, run, [datagram, run]);
  }

  /** A receive from a new endpoint with callbacks that do nothing. */
  lemma QuietReceive(s: Acceptor, e: Endpoint, data: Bytes)
    requires e !in s.table && s.reading == 1
    ensures HandleRecv(s, e, data, Callback([], true), Callback([], true)) ==
            s.(lastEndpoint := e, arrivals := s.arrivals + [Packet(e, data)],
               peers := s.peers + [Peer(e, true, [data], [data], [], [OnAccept, OnRecv])],
               table := s.table[e := |s.peers|])
  {
    var id := |s.peers|;
    var grown := s.peers + [NewPeer(e)];
    var accepted := grown[id := NewPeer(e).(trace := [OnAccept])];
    assert [] + [OnAccept] == [OnAccept] && [OnAccept] + [OnRecv] == [OnAccept, OnRecv];
    assert accepted == s.peers + [NewPeer(e).(trace := [OnAccept])];
    assert [] + [data] == [data];
    var given := accepted[id := Peer(e, true, [data], [data], [], [OnAccept])];
    assert given[id := Peer(e, true, [data], [data], [], [OnAccept, OnRecv])] ==
           s.peers + [Peer(e, true, [data], [data], [], [OnAccept, OnRecv])];
  }

  /** A close of a mapped endpoint with a callback that does nothing. */
  lemma QuietClose(s: Acceptor, e: Endpoint)
    requires e in s.table && s.table[e] < |s.peers| && s.peers[s.table[e]].running
    ensures var id, p := s.table[e], s.peers[s.table[e]];
            HandleClose(s, e, Callback([], true)) ==
            s.(peers := s.peers[id := p.(running := false, trace := p.trace + [OnClose])], table := s.table - {e})
  {
  }

  lemma LegalCons(s: Acceptor, step: Step, rest: seq<Step>)
    requires Enabled(s, step) && Legal(Next(s, step), rest)
    ensures Legal(s, [step] + rest) && Run(s, [step] + rest) == Run(Next(s, step), rest)
  {
    assert ([step] + rest)[1..] == rest;
  }

  // ---------------------------------------------------------------- stopping

  /** Running handle_stop closes every connection and empties the table. */
  lemma StopClosesAll(s: Acceptor, cb: Callback, order: seq<(Endpoint, Callback)>)
    requires Inv(s) && s.posted != [] && s.posted[0].Stop? && Visits(order, s.table)
    ensures var t := RunTask(s, cb, order);
            t.table == map[] && |t.peers| == |s.peers| && forall i | 0 <= i < |t.peers| :: !t.peers[i].running
  {
    var s1 := s.(posted := s.posted[1..]);
    Popped(s);
    InvParts(s1);
    StopKeeps(s1, order);
    StopPeersCount(s1, order);
  }

  lemma {:induction false} StopPeersCount(s: Acceptor, order: seq<(Endpoint, Callback)>)
    ensures |StopPeers(s, order).peers| == |s.peers|
    decreases |order|
  {
    if order != [] {
      var t := if order[0].0 in s.table then StopPeer(s, s.table[order[0].0], order[0].1) else s;
      if order[0].0 in s.table {
        StopPeerCount(s, s.table[order[0].0], order[0].1);
      }
      StopPeersCount(t, order[1..]);
    }
  }

  lemma StopPeerCount(s: Acceptor, id: nat, cb: Callback)
    ensures |StopPeer(s, id, cb).peers| == |s.peers|
  {
    if id < |s.peers| && s.peers[id].running {
      var _ := AllCalls(s.(peers := s.peers[id := s.peers[id].(trace := s.peers[id].trace + [OnClose])]), cb.calls);
    }
  }

  /** A stopped acceptor stays without connections exactly until a receive completes, with or without an
      error: the receive handler looks neither at the error nor at whether the acceptor was stopped. */
  lemma EmptyUntilReceive(s: Acceptor, step: Step)
    requires Inv(s) && s.table == map[] && Enabled(s, step)
    ensures Next(s, step).table == map[] <==> !step.Received?
  {
    match step
    case Received(_, from, data, accept, recv) => ReceiveMaps(s, from, data, accept, recv);
    case Posted(cb, order) =>
    case Api(c) =>
    case SendDone(_) =>
    case StopCall =>
  }

  lemma ReceiveMaps(s: Acceptor, from: Endpoint, data: Bytes, accept: Callback, recv: Callback)
    requires Inv(s)
    ensures from in HandleRecv(s, from, data, accept, recv).table
  {
    var s1 := s.(reading := s.reading - 1, lastEndpoint := from, arrivals := s.arrivals + [Packet(from, data)]);
    var s2 := Admit(s1, from, accept);
    if from !in s1.table {
      InvokeLater(s1.(peers := s1.peers + [NewPeer(from)], table := s1.table[from := |s1.peers|]), |s1.peers|,
                  OnAccept, accept);
    }
    if s2.table[from] < |s2.peers| {
      var id, p := s2.table[from], s2.peers[s2.table[from]];
      InvokeLater(s2.(peers := s2.peers[id := p.(queue := p.queue + [data], given := p.given + [data])]), id,
                  OnRecv, recv);
    }
  }

  /** No connection is mapped at any point of the run. */
  ghost predicate StaysEmpty(s: Acceptor, steps: seq<Step>)
    requires Legal(s, steps)
    decreases |steps|
  {
    s.table == map[] && (steps != [] ==> StaysEmpty(Next(s, steps[0]), steps[1..]))
  }

  lemma {:induction false} EmptyFrom(s: Acceptor, steps: seq<Step>)
    requires Inv(s) && s.table == map[] && Legal(s, steps)
    ensures StaysEmpty(s, steps) <==> forall step | step in steps :: !step.Received?
    decreases |steps|
  {
    if steps != [] {
      var t := Next(s, steps[0]);
      StepKeeps(s, steps[0]);
      EmptyUntilReceive(s, steps[0]);
      assert steps == [steps[0]] + steps[1..];
      if t.table == map[] {
        EmptyFrom(t, steps[1..]);
      }
    }
  }

  /** After handle_stop there are no connections for as long as, and only as long as, no receive completes:
      the completion of the receive that was in flight, with or without an error, opens a new one. */
  lemma StoppedStaysEmptyIff(s: Acceptor, cb: Callback, order: seq<(Endpoint, Callback)>, steps: seq<Step>)
    requires Inv(s) && s.posted != [] && s.posted[0].Stop? && Visits(order, s.table)
    requires Legal(RunTask(s, cb, order), steps)
    ensures StaysEmpty(RunTask(s, cb, order), steps) <==> forall step | step in steps :: !step.Received?
  {
    TaskKeeps(s, cb, order);
    StopClosesAll(s, cb, order);
    EmptyFrom(RunTask(s, cb, order), steps);
  }

  /** A stopped acceptor whose pending receive fails has an open connection. */
  lemma FailedReceiveAfterStop()
    ensures var yes := Callback([], true);
            var steps := [StopCall, Posted(yes, []), Received(false, 0, [], yes, yes)];
            && Legal(Started(), steps)
            && var s := Run(Started(), steps);
            && !s.running && s.table == map[0 := 0]
            && s.peers == [Peer(0, true, [[]], [[]], [], [OnAccept, OnRecv])]
  {
    var yes := Callback([], true);
    var s0 := Started();
    var s1 := StopAcceptor(s0);
    assert s1.posted == [Stop];
    var s2 := RunTask(s1, yes, []);
    assert s2 == s0.(running := false);
    QuietReceive(s2, 0, []);
    var failed := Received(false, 0, [], yes, yes);
    LegalCons(s2, failed, []);
    LegalCons(s1, Posted(yes, []), [failed]);
    LegalCons(s0, StopCall, [Posted(yes, []), failed]);
  }

  // ---------------------------------------------------------------- a close, from the moment it is asked for

  /** Of the connections that run in `s`, those other than `id` still run in `t`. */
  ghost predicate Spared(s: Acceptor, t: Acceptor, id: nat) {
    |s.peers| <= |t.peers| && forall j | 0 <= j < |s.peers| && j != id && s.peers[j].running :: t.peers[j].running
  }

  /** In this run the handler at position `i` of the posted queue, if it is reached, stops no connection but
      `id`. */
  ghost predicate Spares(s: Acceptor, steps: seq<Step>, i: nat, id: nat)
    requires Legal(s, steps)
    decreases |steps|
  {
    steps != [] ==>
      var t := Next(s, steps[0]);
      if !steps[0].Posted? then Spares(t, steps[1..], i, id)
      else if i > 0 then Spares(t, steps[1..], i - 1, id)
      else Spared(s, t, id)
  }

  /** Nothing is stopped from `s` to `t` but possibly `but`, and handlers are only added behind. */
  ghost predicate Onward(s: Acceptor, t: Acceptor, but: int) {
    && s.posted <= t.posted && |s.peers| <= |t.peers|
    && forall j | 0 <= j < |s.peers| ::
         t.peers[j].endpoint == s.peers[j].endpoint && (j != but && s.peers[j].running ==> t.peers[j].running)
  }

  lemma CallsOnward(s: Acceptor, calls: seq<Call>)
    ensures Onward(s, ApplyAll(s, calls), -1)
    ensures ApplyAll(s, calls).table == s.table && |ApplyAll(s, calls).peers| == |s.peers|
  {
    var _ := AllCalls(s, calls);
    var t := ApplyAll(s, calls);
    forall j | 0 <= j < |s.peers|
      ensures t.peers[j].endpoint == s.peers[j].endpoint && t.peers[j].running == s.peers[j].running
    {
      assert Dropping(s.peers[j], t.peers[j]);
    }
  }

  lemma InvokeOnward(s: Acceptor, id: nat, e: Event, cb: Callback)
    requires id < |s.peers|
    ensures Onward(s, Invoke(s, id, e, cb), -1) && |Invoke(s, id, e, cb).peers| == |s.peers|
    ensures Invoke(s, id, e, cb).table == s.table
  {
    CallsOnward(s.(peers := s.peers[id := s.peers[id].(trace := s.peers[id].trace + [e])]), cb.calls);
  }

  lemma StopPeerOnward(s: Acceptor, id: nat, cb: Callback)
    ensures Onward(s, StopPeer(s, id, cb), id)
  {
    if id < |s.peers| && s.peers[id].running {
      InvokeOnward(s, id, OnClose, cb);
    }
  }

  lemma RecvOnward(s: Acceptor, from: Endpoint, data: Bytes, accept: Callback, recv: Callback)
    requires s.reading > 0
    ensures Onward(s, HandleRecv(s, from, data, accept, recv), -1)
  {
    var s1 := s.(reading := s.reading - 1, lastEndpoint := from, arrivals := s.arrivals + [Packet(from, data)]);
    var s2 := Admit(s1, from, accept);
    if from !in s1.table {
      InvokeOnward(s1.(peers := s1.peers + [NewPeer(from)], table := s1.table[from := |s1.peers|]), |s1.peers|,
                   OnAccept, accept);
    }
    assert Onward(s, s2, -1);
    if from in s2.table && s2.table[from] < |s2.peers| {
      GiveOnward(s2, s2.table[from], data, recv);
    }
  }

  lemma GiveOnward(s: Acceptor, id: nat, data: Bytes, cb: Callback)
    requires id < |s.peers|
    ensures Onward(s, Give(s, id, data, cb), -1)
  {
    var p := s.peers[id];
    InvokeOnward(s.(peers := s.peers[id := p.(queue := p.queue + [data], given := p.given + [data])]), id, OnRecv, cb);
  }

  /** A step other than the worker's own tasks stops nothing. */
  lemma StepOnward(s: Acceptor, step: Step)
    requires Enabled(s, step) && !step.Posted?
    ensures Onward(s, Next(s, step), -1)
  {
    match step
    case Received(_, from, data, accept, recv) => RecvOnward(s, from, data, accept, recv);
    case Api(c) =>
      CallsOnward(s, [c]);
      assert ApplyAll(s, [c]) == Apply(s, c) by { assert [c][1..] == []; }
    case SendDone(_) =>
    case StopCall =>
  }

  /** The handlers posted behind the one that runs stay where they are. */
  lemma TaskPrefix(s: Acceptor, cb: Callback, order: seq<(Endpoint, Callback)>)
    requires s.posted != []
    ensures s.posted[1..] <= RunTask(s, cb, order).posted && |s.peers| <= |RunTask(s, cb, order).peers|
    ensures forall j | 0 <= j < |s.peers| :: RunTask(s, cb, order).peers[j].endpoint == s.peers[j].endpoint
  {
    var s1 := s.(posted := s.posted[1..]);
    match s.posted[0]
    case Close(e) => if e in s.table { StopPeerOnward(s1, s1.table[e], cb); }
    case Stop => StopPeersPrefix(s1, order);
    case Push(_) =>
  }

  lemma {:induction false} StopPeersPrefix(s: Acceptor, order: seq<(Endpoint, Callback)>)
    ensures var t := StopPeers(s, order);
            && s.posted <= t.posted && |s.peers| <= |t.peers|
            && forall j | 0 <= j < |s.peers| :: t.peers[j].endpoint == s.peers[j].endpoint
    decreases |order|
  {
    if order != [] {
      var t := if order[0].0 in s.table then StopPeer(s, s.table[order[0].0], order[0].1) else s;
      if order[0].0 in s.table {
        StopPeerOnward(s, s.table[order[0].0], order[0].1);
      }
      StopPeersPrefix(t, order[1..]);
    }
  }

  /** A task that neither stops everything nor closes the endpoint of `id` leaves `id` running. */
  lemma TaskSpares(s: Acceptor, cb: Callback, order: seq<(Endpoint, Callback)>, id: nat)
    requires Inv(s) && s.posted != [] && id < |s.peers| && s.peers[id].running
    requires !s.posted[0].Stop? && s.posted[0] != Close(s.peers[id].endpoint)
    ensures id < |RunTask(s, cb, order).peers| && RunTask(s, cb, order).peers[id].running
  {
    assert Mapped(s.peers, s.table, id);
    var s1 := s.(posted := s.posted[1..]);
    if s.posted[0].Close? && s.posted[0].endpoint in s.table {
      StopPeerOnward(s1, s1.table[s.posted[0].endpoint], cb);
    }
  }

  /** Closing the endpoint of a running connection stops only that one. */
  lemma OwnClose(s: Acceptor, cb: Callback, order: seq<(Endpoint, Callback)>, id: nat)
    requires Inv(s) && s.posted != [] && id < |s.peers| && s.peers[id].running
    requires s.posted[0] == Close(s.peers[id].endpoint)
    ensures Spared(s, RunTask(s, cb, order), id)
  {
    assert Mapped(s.peers, s.table, id);
    StopPeerOnward(s.(posted := s.posted[1..]), id, cb);
  }

  /** `id` is open, its close is at position `i`, and nothing in front will stop it. */
  ghost predicate Clear(s: Acceptor, i: nat, id: nat) {
    && id < |s.peers| && s.peers[id].running
    && i < |s.posted| && s.posted[i] == Close(s.peers[id].endpoint)
    && Close(s.peers[id].endpoint) !in s.posted[..i] && Stop !in s.posted[..i]
  }

  lemma OtherStepClear(s: Acceptor, step: Step, i: nat, id: nat)
    requires Clear(s, i, id) && Enabled(s, step) && !step.Posted?
    ensures Clear(Next(s, step), i, id)
  {
    StepOnward(s, step);
    assert Next(s, step).posted[..i] == s.posted[..i];
  }

  lemma TaskClear(s: Acceptor, cb: Callback, order: seq<(Endpoint, Callback)>, i: nat, id: nat)
    requires Inv(s) && Clear(s, i, id) && i > 0
    ensures Clear(RunTask(s, cb, order), i - 1, id)
  {
    assert s.posted[0] in s.posted[..i];
    TaskPrefix(s, cb, order);
    TaskSpares(s, cb, order, id);
    assert RunTask(s, cb, order).posted[..i - 1] == s.posted[1..i];
  }

  /** With nothing in front that could stop `id`, its close finds it and stops nothing else. */
  lemma {:induction false} FindsItsOwn(s: Acceptor, steps: seq<Step>, i: nat, id: nat)
    requires Inv(s) && Legal(s, steps) && Clear(s, i, id)
    ensures Spares(s, steps, i, id)
    decreases |steps|
  {
    if steps != [] {
      var t := Next(s, steps[0]);
      StepKeeps(s, steps[0]);
      if !steps[0].Posted? {
        OtherStepClear(s, steps[0], i, id);
        FindsItsOwn(t, steps[1..], i, id);
      } else if i == 0 {
        OwnClose(s, steps[0].cb, steps[0].order, id);
      } else {
        TaskClear(s, steps[0].cb, steps[0].order, i, id);
        FindsItsOwn(t, steps[1..], i - 1, id);
      }
    }
  }

  lemma {:induction false} SomeOrder(table: map<Endpoint, nat>) returns (order: seq<(Endpoint, Callback)>)
    ensures Visits(order, table)
    decreases |table|
  {
    order := [];
    if table != map[] {
      var e :| e in table;
      var rest := SomeOrder(table - {e});
      order := [(e, Callback([], true))] + rest;
      forall k | k in table ensures exists i | 0 <= i < |order| :: order[i].0 == k {
        if k == e {
          assert order[0].0 == k;
        } else {
          assert k in table - {e};
          var i :| 0 <= i < |rest| && rest[i].0 == k;
          assert order[i + 1].0 == k;
        }
      }
    }
  }

  /** A close that runs when its connection no longer does, after a datagram from the same endpoint. */
  lemma ClosesSuccessor(s: Acceptor, id: nat) returns (steps: seq<Step>)
    requires Inv(s) && id < |s.peers| && !s.peers[id].running
    requires s.posted != [] && s.posted[0] == Close(s.peers[id].endpoint)
    ensures Legal(s, steps) && !Spares(s, steps, 0, id)
  {
    var e, yes := s.peers[id].endpoint, Callback([], true);
    var datagram, run := Received(true, e, [], yes, yes), Posted(yes, []);
    var t := Next(s, datagram);
    StepKeeps(s, datagram);
    StepLater(s, datagram);
    assert LaterPeer(s.peers[id], t.peers[id]);
    StepOnward(s, datagram);
    ReceiveMaps(s, e, [], yes, yes);
    var u := Next(t, run);
    CloseHits(t, e, yes);
    LegalCons(t, run, []);
    LegalCons(s, datagram, [run]);
    steps := [datagram, run];
    assert steps == [datagram] + [run] && steps[1..] == [run];
    assert !Spared(t, u, id);
    assert !Spares(t, [run], 0, id);
  }

  lemma CloseHits(s: Acceptor, e: Endpoint, cb: Callback)
    requires Inv(s) && s.posted != [] && s.posted[0] == Close(e) && e in s.table
    ensures var t := RunTask(s, cb, []);
            |t.peers| == |s.peers| && s.peers[s.table[e]].running && !t.peers[s.table[e]].running
  {
    var s1 := s.(posted := s.posted[1..]);
    Popped(s);
    InvParts(s1);
    StopPeerKeeps(s1, s.table[e], cb);
  }

  /** A task that stops everything, or closes the endpoint of `id`, leaves `id` stopped. */
  lemma TaskStops(s: Acceptor, cb: Callback, order: seq<(Endpoint, Callback)>, id: nat)
    requires Inv(s) && s.posted != [] && id < |s.peers| && Visits(order, s.table)
    requires s.posted[0].Stop? || s.posted[0] == Close(s.peers[id].endpoint)
    ensures id < |RunTask(s, cb, order).peers| && !RunTask(s, cb, order).peers[id].running
  {
    TaskPrefix(s, cb, order);
    if s.posted[0].Stop? {
      StopClosesAll(s, cb, order);
    } else {
      var s1 := s.(posted := s.posted[1..]);
      Popped(s);
      InvParts(s1);
      if s.peers[id].running {
        assert Mapped(s.peers, s.table, id);
        StopPeerKeeps(s1, id, cb);
      } else {
        StepLater(s, Posted(cb, order));
        assert LaterPeer(s.peers[id], RunTask(s, cb, order).peers[id]);
      }
    }
  }

  /** Something in front stops `id`, or it does not run any more: then some run has its close stop another. */
  lemma {:induction false} Strays(s: Acceptor, i: nat, id: nat) returns (steps: seq<Step>)
    requires Inv(s) && id < |s.peers| && i < |s.posted| && s.posted[i] == Close(s.peers[id].endpoint)
    requires s.peers[id].running ==> Close(s.peers[id].endpoint) in s.posted[..i] || Stop in s.posted[..i]
    ensures Legal(s, steps) && !Spares(s, steps, i, id)
    decreases i
  {
    if i == 0 {
      steps := ClosesSuccessor(s, id);
    } else {
      var order := SomeOrder(s.table);
      var run := Posted(Callback([], true), order);
      var t := Next(s, run);
      StepKeeps(s, run);
      StepLater(s, run);
      TaskPrefix(s, run.cb, order);
      assert LaterPeer(s.peers[id], t.peers[id]);
      assert t.posted[..i - 1] == s.posted[1..i] && s.posted[..i] == [s.posted[0]] + s.posted[1..i];
      if s.posted[0].Stop? || s.posted[0] == Close(s.peers[id].endpoint) {
        TaskStops(s, run.cb, order, id);
      }
      var rest := Strays(t, i - 1, id);
      LegalCons(s, run, rest);
      steps := [run] + rest;
      assert steps[1..] == rest;
    }
  }

  /** What a close asked for by connection `id` can stop, from the moment it is asked for: in every run the
      handler it posts stops no other connection, if and only if `id` is still open and nothing posted
      before will close it. */
  lemma CloseSparesIff(s: Acceptor, id: nat)
    requires Inv(s) && id < |s.peers|
    ensures var t := Apply(s, Shut(id));
            (forall steps | Legal(t, steps) :: Spares(t, steps, |s.posted|, id)) <==>
            s.peers[id].running && Close(s.peers[id].endpoint) !in s.posted && Stop !in s.posted
  {
    var t, i := Apply(s, Shut(id)), |s.posted|;
    ApiKeeps(s, Shut(id));
    assert t.posted[..i] == s.posted && t.posted[i] == Close(s.peers[id].endpoint);
    if s.peers[id].running && Close(s.peers[id].endpoint) !in s.posted && Stop !in s.posted {
      forall steps | Legal(t, steps) ensures Spares(t, steps, i, id) {
        FindsItsOwn(t, steps, i, id);
      }
    } else {
      var steps := Strays(t, i, id);
    }
  }

  // ---------------------------------------------------------------- a close, once it has been asked for, comes

  function TasksRun(steps: seq<Step>): nat {
    if steps == [] then 0 else (if steps[0].Posted? then 1 else 0) + TasksRun(steps[1..])
  }

  /** Once a close of its endpoint is posted, whether asked for by a call or by an on_accept or on_recv that returned
      false, running the handlers up to it closes the connection. */
  lemma {:induction false} CloseReaches(s: Acceptor, steps: seq<Step>, i: nat, id: nat)
    requires Inv(s) && Legal(s, steps) && id < |s.peers|
    requires !s.peers[id].running ||
             (i < |s.posted| && s.posted[i] == Close(s.peers[id].endpoint) && i < TasksRun(steps))
    ensures var t := Run(s, steps); id < |t.peers| && !t.peers[id].running && OnClose in t.peers[id].trace
    decreases |steps|
  {
    if steps == [] {
      assert PeerInv(s.peers[id]);
    } else {
      var t := Next(s, steps[0]);
      StepKeeps(s, steps[0]);
      StepLater(s, steps[0]);
      assert LaterPeer(s.peers[id], t.peers[id]);
      if !steps[0].Posted? {
        StepOnward(s, steps[0]);
        CloseReaches(t, steps[1..], i, id);
      } else {
        TaskPrefix(s, steps[0].cb, steps[0].order);
        if i == 0 && s.peers[id].running {
          CloseStops(s, steps[0].cb, steps[0].order, id);
        }
        CloseReaches(t, steps[1..], if i == 0 then 0 else i - 1, id);
      }
    }
  }

  lemma CloseStops(s: Acceptor, cb: Callback, order: seq<(Endpoint, Callback)>, id: nat)
    requires Inv(s) && s.posted != [] && id < |s.peers| && s.peers[id].running
    requires s.posted[0] == Close(s.peers[id].endpoint)
    ensures id < |RunTask(s, cb, order).peers| && !RunTask(s, cb, order).peers[id].running
  {
    var s1 := s.(posted := s.posted[1..]);
    Popped(s);
    InvParts(s1);
    assert Mapped(s.peers, s.table, id);
    StopPeerKeeps(s1, id, cb);
  }
}
