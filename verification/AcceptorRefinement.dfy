/** The acceptor with callbacks that are not atomic. A handler of the acceptor may call back several times: on_accept
    and on_recv for one datagram, on_close for every connection when the acceptor stops. Here each callback is
    entered, makes its calls one by one and returns, while other threads call the API in between. Every such run is
    proved to be a run of the acceptor machine, in which each handler is one step. */
module AcceptorRefinement {
  import opened Octets
  import opened AcceptorMachine
  import opened AcceptorInvariant
  import L = AcceptorLaws

  const NONE := Callback([], true)

  /** Which callback the acceptor's worker is inside, with the calls made since it was entered. What the
      callbacks before it in the same handler did is remembered, too. */
  datatype At =
    | Outside
    | InAccept(ok: bool, from: Endpoint, data: Bytes, calls: seq<Call>)
    | InRecv(ok: bool, from: Endpoint, data: Bytes, accept: Callback, id: nat, calls: seq<Call>)
    | InClose(endpoint: Endpoint, id: nat, calls: seq<Call>)
    | InStop(done: seq<(Endpoint, Callback)>, endpoint: Endpoint, id: nat, rest: seq<Endpoint>, calls: seq<Call>)

  /** `log` is history: the steps of the handlers that have ended, and of the calls made outside them. */
  datatype Life = Life(s: Acceptor, at: At, log: seq<Step>)

  // ---------------------------------------------------------------- the parts of the handlers

  function Arrived(s: Acceptor, from: Endpoint, data: Bytes): Acceptor
    requires s.reading > 0
  {
    s.(reading := s.reading - 1, lastEndpoint := from, arrivals := s.arrivals + [Packet(from, data)])
  }

  function Popped(s: Acceptor): Acceptor
    requires s.posted != []
  {
    s.(posted := s.posted[1..])
  }

  /** Connection `id` is told `e`. */
  function Entered(s: Acceptor, id: nat, e: Event): Acceptor
    requires id < |s.peers|
  {
    s.(peers := s.peers[id := s.peers[id].(trace := s.peers[id].trace + [e])])
  }

  function Created(s: Acceptor, from: Endpoint): Acceptor {
    s.(peers := s.peers + [NewPeer(from)], table := s.table[from := |s.peers|])
  }

  function Queued(s: Acceptor, id: nat, data: Bytes): Acceptor
    requires id < |s.peers|
  {
    var peer := s.peers[id];
    s.(peers := s.peers[id := peer.(queue := peer.queue + [data], given := peer.given + [data])])
  }

  function Stopped(s: Acceptor, id: nat): Acceptor {
    if id < |s.peers| then s.(peers := s.peers[id := s.peers[id].(running := false)]) else s
  }

  predicate Runs(s: Acceptor, e: Endpoint) {
    e in s.table && s.table[e] < |s.peers| && s.peers[s.table[e]].running
  }

  function EnterRecv(l: Life, ok: bool, from: Endpoint, data: Bytes, accept: Callback): Life {
    if from in l.s.table && l.s.table[from] < |l.s.peers| then
      var id := l.s.table[from];
      l.(s := Entered(Queued(l.s, id, data), id, OnRecv), at := InRecv(ok, from, data, accept, id, []))
    else
      Life(l.s.(reading := l.s.reading + 1), Outside, l.log + [Received(ok, from, data, accept, NONE)])
  }

  /** The rest of the loop over the table, up to the next connection that runs. */
  function Advance(l: Life, done: seq<(Endpoint, Callback)>, rest: seq<Endpoint>): Life
    decreases |rest|
  {
    if rest == [] then
      Life(l.s.(table := map[]), Outside, l.log + [Posted(NONE, done)])
    else if Runs(l.s, rest[0]) then
      var id := l.s.table[rest[0]];
      l.(s := Entered(l.s, id, OnClose), at := InStop(done, rest[0], id, rest[1..], []))
    else
      Advance(l, done + [(rest[0], NONE)], rest[1..])
  }

  datatype Micro =
    | Receive(ok: bool, from: Endpoint, data: Bytes)
    | Task(order: seq<Endpoint>)   // the front of the posted queue; `order` is that of the table
    | Sent(ok: bool)
    | StopListening
    | Act(call: Call)              // the callback makes a call
    | Return(ok: bool)             // the callback returns
    | FromOutside(call: Call)      // a call from another thread

  /** The worker runs one handler at a time; nothing stops the acceptor in the middle of one. */
  ghost predicate CanMicro(l: Life, m: Micro) {
    match m
    case Receive(_, _, _) => l.at.Outside? && l.s.reading > 0
    case Task(order) =>
      l.at.Outside? && l.s.posted != [] && (l.s.posted[0].Stop? ==> forall e | e in l.s.table :: e in order)
    case Sent(_) => l.at.Outside? && l.s.queue.outstanding != []
    case StopListening => l.at.Outside?
    case Act(_) => !l.at.Outside?
    case Return(_) => !l.at.Outside?
    case FromOutside(call) => !call.Drop?
  }

  function BeginReceive(l: Life, ok: bool, from: Endpoint, data: Bytes): Life
    requires l.s.reading > 0
  {
    var s := Arrived(l.s, from, data);
    if from in s.table then EnterRecv(l.(s := s), ok, from, data, NONE)
    else l.(s := Entered(Created(s, from), |s.peers|, OnAccept), at := InAccept(ok, from, data, []))
  }

  function BeginTask(l: Life, order: seq<Endpoint>): Life
    requires l.s.posted != []
  {
    var s := Popped(l.s);
    match l.s.posted[0]
    case Close(e) =>
      if Runs(s, e) then l.(s := Entered(s, s.table[e], OnClose), at := InClose(e, s.table[e], []))
      else l.(s := HandleClose(s, e, NONE), log := l.log + [Posted(NONE, [])])
    case Stop => Advance(l.(s := s), [], order)
    case Push(_) => l.(s := RunTask(l.s, NONE, []), log := l.log + [Posted(NONE, [])])
  }

  function WithCall(at: At, call: Call): At
    requires !at.Outside?
  {
    match at
    case InAccept(ok, from, data, calls) => InAccept(ok, from, data, calls + [call])
    case InRecv(ok, from, data, accept, id, calls) => InRecv(ok, from, data, accept, id, calls + [call])
    case InClose(e, id, calls) => InClose(e, id, calls + [call])
    case InStop(done, e, id, rest, calls) => InStop(done, e, id, rest, calls + [call])
  }

  function ReturnFrom(l: Life, ok: bool): Life
    requires !l.at.Outside?
  {
    var cb := Callback(l.at.calls, ok);
    match l.at
    case InAccept(received, from, data, _) =>
      EnterRecv(l.(s := CloseUnless(ok, l.s, from)), received, from, data, cb)
    case InRecv(received, from, data, accept, id, _) =>
      var t := if id < |l.s.peers| then CloseUnless(ok, l.s, l.s.peers[id].endpoint) else l.s;
      Life(t.(reading := t.reading + 1), Outside, l.log + [Received(received, from, data, accept, cb)])
    case InClose(e, id, _) =>
      var t := Stopped(l.s, id);
      Life(t.(table := t.table - {e}), Outside, l.log + [Posted(cb, [])])
    case InStop(done, e, id, rest, _) =>
      Advance(l.(s := Stopped(l.s, id)), done + [(e, cb)], rest)
  }

  ghost function MicroNext(l: Life, m: Micro): Life
    requires CanMicro(l, m)
  {
    match m
    case Receive(ok, from, data) => BeginReceive(l, ok, from, data)
    case Task(order) => BeginTask(l, order)
    case Sent(ok) => l.(s := HandleSend(l.s), log := l.log + [SendDone(ok)])
    case StopListening => l.(s := StopAcceptor(l.s), log := l.log + [StopCall])
    case Act(call) => l.(s := Apply(l.s, call), at := WithCall(l.at, call))
    case Return(ok) => ReturnFrom(l, ok)
    case FromOutside(call) =>
      if l.at.Outside? then l.(s := Apply(l.s, call), log := l.log + [Api(call)])
      else l.(s := Apply(l.s, call), at := WithCall(l.at, call))
  }

  ghost predicate MicroLegal(l: Life, steps: seq<Micro>)
    decreases |steps|
  {
    steps != [] ==> CanMicro(l, steps[0]) && MicroLegal(MicroNext(l, steps[0]), steps[1..])
  }

  ghost function MicroRun(l: Life, steps: seq<Micro>): Life
    requires MicroLegal(l, steps)
    decreases |steps|
  {
    if steps == [] then l else MicroRun(MicroNext(l, steps[0]), steps[1..])
  }

  // ---------------------------------------------------------------- where a life stands in its run

  /** `done` and `rest` together visit the table. */
  ghost predicate Covers(done: seq<(Endpoint, Callback)>, rest: seq<Endpoint>, table: map<Endpoint, nat>) {
    forall e | e in table :: e in rest || Visited(done, e)
  }

  /** Outside callbacks a life is where the steps of its handlers have brought it; inside, it is where the
      handler's earlier callbacks and the calls made since this one was entered have. */
  ghost predicate Stands(at: At, s: Acceptor, past: Acceptor) {
    match at
    case Outside => s == past
    case InAccept(_, from, data, calls) =>
      && past.reading > 0 && from !in past.table
      && s == ApplyAll(Entered(Created(Arrived(past, from, data), from), |past.peers|, OnAccept), calls)
    case InRecv(_, from, data, accept, id, calls) =>
      && past.reading > 0
      && var t := Admit(Arrived(past, from, data), from, accept);
         && from in t.table && t.table[from] == id && id < |t.peers|
         && s == ApplyAll(Entered(Queued(t, id, data), id, OnRecv), calls)
    case InClose(e, id, calls) =>
      && past.posted != [] && past.posted[0] == Close(e) && Runs(past, e) && past.table[e] == id
      && s == ApplyAll(Entered(Popped(past), id, OnClose), calls)
    case InStop(done, e, id, rest, calls) =>
      && past.posted != [] && past.posted[0].Stop? && Covers(done, [e] + rest, past.table)
      && var t := StopPeers(Popped(past), done);
         && Runs(t, e) && t.table[e] == id
         && s == ApplyAll(Entered(t, id, OnClose), calls)
  }

  ghost predicate Lived(l: Life) {
    Legal(Started(), l.log) && Stands(l.at, l.s, Run(Started(), l.log))
  }

  lemma {:induction false} LogStep(s: Acceptor, log: seq<Step>, step: Step)
    requires Legal(s, log) && Enabled(Run(s, log), step)
    ensures Legal(s, log + [step]) && Run(s, log + [step]) == Next(Run(s, log), step)
    decreases |log|
  {
    if log == [] {
      assert [] + [step] == [step] && [step][1..] == [];
    } else {
      LogStep(Next(s, log[0]), log[1..], step);
      assert (log + [step])[0] == log[0] && (log + [step])[1..] == log[1..] + [step];
    }
  }

  lemma {:induction false} OneMoreCall(s: Acceptor, calls: seq<Call>, call: Call)
    ensures ApplyAll(s, calls + [call]) == Apply(ApplyAll(s, calls), call)
    decreases |calls|
  {
    if calls == [] {
      assert [] + [call] == [call] && [call][1..] == [];
    } else {
      assert (calls + [call])[0] == calls[0] && (calls + [call])[1..] == calls[1..] + [call];
      OneMoreCall(Apply(s, calls[0]), calls[1..], call);
    }
  }

  lemma {:induction false} OneMoreStop(s: Acceptor, done: seq<(Endpoint, Callback)>, e: Endpoint, cb: Callback)
    ensures var t := StopPeers(s, done);
            StopPeers(s, done + [(e, cb)]) == if e in t.table then StopPeer(t, t.table[e], cb) else t
    decreases |done|
  {
    if done == [] {
      assert [] + [(e, cb)] == [(e, cb)] && [(e, cb)][1..] == [];
    } else {
      assert (done + [(e, cb)])[0] == done[0] && (done + [(e, cb)])[1..] == done[1..] + [(e, cb)];
      OneMoreStop(if done[0].0 in s.table then StopPeer(s, s.table[done[0].0], done[0].1) else s, done[1..], e, cb);
    }
  }

  // ---------------------------------------------------------------- receiving

  lemma EnterRecvLives(l: Life, past: Acceptor, ok: bool, from: Endpoint, data: Bytes, accept: Callback)
    requires Legal(Started(), l.log) && past == Run(Started(), l.log) && past.reading > 0
    requires l.s == Admit(Arrived(past, from, data), from, accept)
    ensures Lived(EnterRecv(l, ok, from, data, accept))
  {
    if from in l.s.table && l.s.table[from] < |l.s.peers| {
      var id := l.s.table[from];
      assert ApplyAll(Entered(Queued(l.s, id, data), id, OnRecv), []) == Entered(Queued(l.s, id, data), id, OnRecv);
    } else {
      LogStep(Started(), l.log, Received(ok, from, data, accept, NONE));
    }
  }

  lemma ReceiveLives(l: Life, ok: bool, from: Endpoint, data: Bytes)
    requires Lived(l) && l.at.Outside? && l.s.reading > 0
    ensures Lived(BeginReceive(l, ok, from, data))
  {
    var s := Arrived(l.s, from, data);
    if from in s.table {
      EnterRecvLives(l.(s := s), l.s, ok, from, data, NONE);
    } else {
      var t := Entered(Created(s, from), |s.peers|, OnAccept);
      assert ApplyAll(t, []) == t;
    }
  }

  lemma AcceptReturns(l: Life, ok: bool)
    requires Lived(l) && l.at.InAccept?
    ensures Lived(ReturnFrom(l, ok))
  {
    var past := Run(Started(), l.log);
    var cb := Callback(l.at.calls, ok);
    var s := Arrived(past, l.at.from, l.at.data);
    assert Admit(s, l.at.from, cb) == CloseUnless(ok, l.s, l.at.from);
    EnterRecvLives(l.(s := CloseUnless(ok, l.s, l.at.from)), past, l.at.ok, l.at.from, l.at.data, cb);
  }

  lemma SameEndpoint(s: Acceptor, id: nat, e: Event, calls: seq<Call>)
    requires id < |s.peers|
    ensures var t := ApplyAll(Entered(s, id, e), calls); id < |t.peers| && t.peers[id].endpoint == s.peers[id].endpoint
  {
    var t := Entered(s, id, e);
    L.CallsLater(t, calls);
    assert L.LaterPeer(t.peers[id], ApplyAll(t, calls).peers[id]);
  }

  lemma RecvReturns(l: Life, ok: bool)
    requires Lived(l) && l.at.InRecv?
    ensures Lived(ReturnFrom(l, ok))
  {
    var past, at := Run(Started(), l.log), l.at;
    var cb := Callback(at.calls, ok);
    var t := Admit(Arrived(past, at.from, at.data), at.from, at.accept);
    var queued := Queued(t, at.id, at.data);
    SameEndpoint(queued, at.id, OnRecv, at.calls);
    assert Give(t, at.id, at.data, cb) == CloseUnless(ok, l.s, t.peers[at.id].endpoint);
    LogStep(Started(), l.log, Received(at.ok, at.from, at.data, at.accept, cb));
  }

  // ---------------------------------------------------------------- closing and stopping

  lemma CloseReturns(l: Life, ok: bool)
    requires Lived(l) && l.at.InClose?
    ensures Lived(ReturnFrom(l, ok))
  {
    var past, at := Run(Started(), l.log), l.at;
    var cb := Callback(at.calls, ok);
    assert StopPeer(Popped(past), at.id, cb) == Stopped(l.s, at.id);
    LogStep(Started(), l.log, Posted(cb, []));
  }

  lemma {:induction false} AdvanceLives(l: Life, past: Acceptor, done: seq<(Endpoint, Callback)>, rest: seq<Endpoint>)
    requires Legal(Started(), l.log) && past == Run(Started(), l.log)
    requires past.posted != [] && past.posted[0].Stop? && Covers(done, rest, past.table)
    requires l.s == StopPeers(Popped(past), done)
    ensures Lived(Advance(l, done, rest))
    decreases |rest|
  {
    if rest == [] {
      assert Visits(done, past.table) by {
        forall e | e in past.table ensures exists i | 0 <= i < |done| :: done[i].0 == e {
          assert Visited(done, e);
        }
      }
      LogStep(Started(), l.log, Posted(NONE, done));
    } else if Runs(l.s, rest[0]) {
      var t := Entered(l.s, l.s.table[rest[0]], OnClose);
      assert ApplyAll(t, []) == t && [rest[0]] + rest[1..] == rest;
    } else {
      OneMoreStop(Popped(past), done, rest[0], NONE);
      NextCovers(done, rest, past.table, NONE);
      AdvanceLives(l, past, done + [(rest[0], NONE)], rest[1..]);
    }
  }

  lemma NextCovers(done: seq<(Endpoint, Callback)>, rest: seq<Endpoint>, table: map<Endpoint, nat>, cb: Callback)
    requires rest != [] && Covers(done, rest, table)
    ensures Covers(done + [(rest[0], cb)], rest[1..], table)
  {
    var more := done + [(rest[0], cb)];
    forall e | e in table ensures e in rest[1..] || Visited(more, e) {
      if e == rest[0] {
        assert more[|done|].0 == e;
      } else if e !in rest {
        var k :| 0 <= k < |done| && done[k].0 == e;
        assert more[k].0 == e;
      }
    }
  }

  lemma StopReturns(l: Life, ok: bool)
    requires Lived(l) && l.at.InStop?
    ensures Lived(ReturnFrom(l, ok))
  {
    var past, at := Run(Started(), l.log), l.at;
    var cb := Callback(at.calls, ok);
    var t := StopPeers(Popped(past), at.done);
    assert StopPeer(t, at.id, cb) == Stopped(l.s, at.id);
    OneMoreStop(Popped(past), at.done, at.endpoint, cb);
    NextCovers(at.done, [at.endpoint] + at.rest, past.table, cb);
    assert ([at.endpoint] + at.rest)[1..] == at.rest;
    AdvanceLives(l.(s := Stopped(l.s, at.id)), past, at.done + [(at.endpoint, cb)], at.rest);
  }

  lemma TaskLives(l: Life, order: seq<Endpoint>)
    requires Lived(l) && CanMicro(l, Task(order))
    ensures Lived(BeginTask(l, order))
  {
    match l.s.posted[0]
    case Close(e) =>
      if Runs(l.s, e) {
        var t := Entered(Popped(l.s), l.s.table[e], OnClose);
        assert ApplyAll(t, []) == t;
      } else {
        LogStep(Started(), l.log, Posted(NONE, []));
      }
    case Stop => AdvanceLives(l.(s := Popped(l.s)), l.s, [], order);
    case Push(_) => LogStep(Started(), l.log, Posted(NONE, []));
  }

  /** A call in the middle of a callback, from whatever thread, is one more of its calls. */
  lemma CallLives(l: Life, call: Call)
    requires Lived(l) && !l.at.Outside?
    ensures Lived(l.(s := Apply(l.s, call), at := WithCall(l.at, call)))
  {
    var past := Run(Started(), l.log);
    match l.at
    case InAccept(_, from, data, calls) =>
      OneMoreCall(Entered(Created(Arrived(past, from, data), from), |past.peers|, OnAccept), calls, call);
    case InRecv(_, from, data, accept, id, calls) =>
      OneMoreCall(Entered(Queued(Admit(Arrived(past, from, data), from, accept), id, data), id, OnRecv), calls, call);
    case InClose(e, id, calls) => OneMoreCall(Entered(Popped(past), id, OnClose), calls, call);
    case InStop(done, e, id, rest, calls) =>
      OneMoreCall(Entered(StopPeers(Popped(past), done), id, OnClose), calls, call);
  }

  lemma MicroKeeps(l: Life, m: Micro)
    requires Lived(l) && CanMicro(l, m)
    ensures Lived(MicroNext(l, m))
  {
    match m
    case Receive(ok, from, data) => ReceiveLives(l, ok, from, data);
    case Task(order) => TaskLives(l, order);
    case Sent(ok) => LogStep(Started(), l.log, SendDone(ok));
    case StopListening => LogStep(Started(), l.log, StopCall);
    case Act(call) => CallLives(l, call);
    case Return(ok) =>
      match l.at {
        case InAccept(_, _, _, _) => AcceptReturns(l, ok);
        case InRecv(_, _, _, _, _, _) => RecvReturns(l, ok);
        case InClose(_, _, _) => CloseReturns(l, ok);
        case InStop(_, _, _, _, _) => StopReturns(l, ok);
      }
    case FromOutside(call) =>
      if l.at.Outside? { LogStep(Started(), l.log, Api(call)); } else { CallLives(l, call); }
  }

  lemma {:induction false} MicroRunKeeps(l: Life, steps: seq<Micro>)
    requires Lived(l) && MicroLegal(l, steps)
    ensures Lived(MicroRun(l, steps))
    decreases |steps|
  {
    if steps != [] {
      MicroKeeps(l, steps[0]);
      MicroRunKeeps(MicroNext(l, steps[0]), steps[1..]);
    }
  }

  /** Over every interleaving of its callbacks' calls with calls from outside, a started acceptor lives a legal run of
      the acceptor machine, one step for each handler that has ended and each call made outside handlers. */
  lemma AcceptorLivesRuns(steps: seq<Micro>)
    requires MicroLegal(Life(Started(), Outside, []), steps)
    ensures var l := MicroRun(Life(Started(), Outside, []), steps);
            Legal(Started(), l.log) && Stands(l.at, l.s, Run(Started(), l.log))
  {
    MicroRunKeeps(Life(Started(), Outside, []), steps);
  }

  // ---------------------------------------------------------------- the callbacks of each connection, inside too

  /** on_accept, then on_recv any number of times, then on_close exactly if the connection is closed or about to be. */
  predicate Shaped(p: Peer, closing: bool) {
    if p.running && !closing then |p.trace| >= 1 && p.trace == [OnAccept] + L.Recvs(|p.trace| - 1)
    else |p.trace| >= 2 && p.trace == [OnAccept] + L.Recvs(|p.trace| - 2) + [OnClose]
  }

  /** The worker is inside on_close of connection `i`. */
  predicate ClosingNow(at: At, i: nat) {
    (at.InClose? && at.id == i) || (at.InStop? && at.id == i)
  }

  ghost predicate AllShaped(s: Acceptor) {
    forall i | 0 <= i < |s.peers| :: Shaped(s.peers[i], false)
  }

  lemma ShapeIsShaped(p: Peer)
    requires Shape(p)
    ensures Shaped(p, false)
  {
  }

  lemma MidIsShaped(s: Acceptor)
    requires Mid(s)
    ensures AllShaped(s)
  {
    forall i | 0 <= i < |s.peers| ensures Shaped(s.peers[i], false) {
      assert PeerInv(s.peers[i]);
      ShapeIsShaped(s.peers[i]);
    }
  }

  /** One more callback of a running connection, and calls made in it. */
  lemma EnteredShaped(s: Acceptor, id: nat, e: Event, calls: seq<Call>, i: nat)
    requires AllShaped(s) && id < |s.peers| && s.peers[id].running && !e.OnAccept?
    requires i < |ApplyAll(Entered(s, id, e), calls).peers|
    ensures Shaped(ApplyAll(Entered(s, id, e), calls).peers[i], e.OnClose? && i == id)
  {
    var t := Entered(s, id, e);
    var _ := AllCalls(t, calls);
    assert Dropping(t.peers[i], ApplyAll(t, calls).peers[i]);
    assert Shaped(s.peers[i], false);
    if i == id {
      NextShape(s.peers[i].trace, e);
    }
  }

  lemma NextShape(trace: seq<Event>, e: Event)
    requires |trace| >= 1 && trace == [OnAccept] + L.Recvs(|trace| - 1)
    ensures e.OnRecv? ==> trace + [e] == [OnAccept] + L.Recvs(|trace|)
    ensures e.OnClose? ==> trace + [e] == [OnAccept] + L.Recvs(|trace| - 1) + [OnClose]
  {
  }

  lemma AcceptShaped(past: Acceptor, s: Acceptor, from: Endpoint, calls: seq<Call>, i: nat)
    requires AllShaped(past) && s.peers == past.peers
    requires i < |ApplyAll(Entered(Created(s, from), |s.peers|, OnAccept), calls).peers|
    ensures Shaped(ApplyAll(Entered(Created(s, from), |s.peers|, OnAccept), calls).peers[i], false)
  {
    var t := Entered(Created(s, from), |s.peers|, OnAccept);
    var _ := AllCalls(t, calls);
    assert Dropping(t.peers[i], ApplyAll(t, calls).peers[i]);
    if i < |past.peers| {
      assert Shaped(past.peers[i], false);
    } else {
      assert t.peers[i].trace == [] + [OnAccept] == [OnAccept] + L.Recvs(0);
    }
  }

  /** Once the handler has made sure of a connection, all are in shape and that one runs. */
  lemma AdmittedShaped(past: Acceptor, from: Endpoint, data: Bytes, accept: Callback)
    requires Inv(past)
    ensures var t := Admit(Arrived(past, from, data), from, accept); AllShaped(t) && Runs(t, from)
  {
    var s := Arrived(past, from, data);
    InvParts(past);
    forall e ensures Project(s.arrivals, e) == GivenTo(s.peers, e) + Project([Packet(from, data)], e) {
      ProjectSnoc(past.arrivals, Packet(from, data), e);
      ProjectOne(Packet(from, data), e);
    }
    AdmitKeeps(s, from, accept, [Packet(from, data)]);
    MidIsShaped(Admit(s, from, accept));
  }

  lemma {:induction false} StopPeersShaped(s: Acceptor, done: seq<(Endpoint, Callback)>)
    requires Mid(s) && Owing(s, []) && forall e | e in s.table :: s.table[e] < |s.peers|
    ensures AllShaped(StopPeers(s, done))
    decreases |done|
  {
    if done == [] {
      MidIsShaped(s);
    } else {
      var t := s;
      if done[0].0 in s.table {
        StopPeerKeeps(s, s.table[done[0].0], done[0].1);
        t := StopPeer(s, s.table[done[0].0], done[0].1);
      }
      StopPeersShaped(t, done[1..]);
    }
  }

  lemma StandsShaped(at: At, s: Acceptor, past: Acceptor, i: nat)
    requires Inv(past) && Stands(at, s, past) && i < |s.peers|
    ensures Shaped(s.peers[i], ClosingNow(at, i))
  {
    InvParts(past);
    MidIsShaped(past);
    match at
    case Outside =>
    case InAccept(_, from, data, calls) => AcceptShaped(past, Arrived(past, from, data), from, calls, i);
    case InRecv(_, from, data, accept, id, calls) =>
      AdmittedShaped(past, from, data, accept);
      EnteredShaped(Queued(Admit(Arrived(past, from, data), from, accept), id, data), id, OnRecv, calls, i);
    case InClose(e, id, calls) => EnteredShaped(Popped(past), id, OnClose, calls, i);
    case InStop(done, e, id, rest, calls) =>
      AcceptorInvariant.Popped(past);
      InvParts(Popped(past));
      StopPeersShaped(Popped(past), done);
      EnteredShaped(StopPeers(Popped(past), done), id, OnClose, calls, i);
  }

  /** So what is proved of all runs holds, inside callbacks too: every connection is called back with on_accept, then
      on_recv any number of times, then on_close exactly if it is closed or inside on_close. */
  lemma InterleavedPassiveTrace(steps: seq<Micro>, i: nat)
    requires MicroLegal(Life(Started(), Outside, []), steps)
    requires i < |MicroRun(Life(Started(), Outside, []), steps).s.peers|
    ensures var l := MicroRun(Life(Started(), Outside, []), steps); Shaped(l.s.peers[i], ClosingNow(l.at, i))
  {
    AcceptorLivesRuns(steps);
    var l := MicroRun(Life(Started(), Outside, []), steps);
    L.StartedInv();
    RunKeeps(Started(), l.log);
    StandsShaped(l.at, l.s, Run(Started(), l.log), i);
  }
}
