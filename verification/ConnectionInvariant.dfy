/** What every step of a connection keeps. */
module ConnectionInvariant {
  import opened Octets
  import opened ConnectionMachine
  import Q = SendQueue

  /** The packs still waiting in the posted queue. */
  function Packs(posted: seq<Task>): seq<Bytes> {
    if posted == [] then []
    else (if posted[0].Push? then [posted[0].pack] else []) + Packs(posted[1..])
  }

  lemma {:induction false} PacksConcat(a: seq<Task>, b: seq<Task>)
    ensures Packs(a + b) == Packs(a) + Packs(b)
  {
    if a == [] {
      assert a + b == b;
    } else {
      assert (a + b)[0] == a[0] && (a + b)[1..] == a[1..] + b;
      PacksConcat(a[1..], b);
    }
  }

  lemma PacksPost(a: seq<Task>, t: Task)
    ensures Packs(a + [t]) == Packs(a) + (if t.Push? then [t.pack] else [])
  {
    PacksConcat(a, [t]);
    assert [t][1..] == [];
  }

  predicate Opens(e: Event) {
    e.OnAccept? || e.OnConnect?
  }

  function Closes(trace: seq<Event>): nat {
    multiset(trace)[OnClose]
  }

  /** Nothing handed over is lost, duplicated or reordered, in either direction. */
  ghost predicate Conserved<T(!new)>(s: Conn<T>) {
    && Q.Valid(s.queue)
    && s.accepted == Q.Pushed(s.queue) + Packs(s.posted)
    && s.inbox.delivered == s.inbox.consumed + s.inbox.unread
  }

  /** Nothing has happened on the connection yet. */
  ghost predicate Blank<T(!new)>(s: Conn<T>) {
    && !s.running && s.inbox.reading == 0 && !s.inbox.ended && s.queue == Q.Empty()
    && s.inbox.unread == [] && s.inbox.delivered == [] && s.inbox.consumed == [] && s.accepted == []
  }

  ghost predicate StageInv<T(!new)>(s: Conn<T>) {
    if s.stage.Opened? then
      && Start !in s.posted
      && s.inbox.reading == (if s.inbox.ended then 0 else 1)
      && (s.inbox.ended || s.queue.failed ==> Stop in s.posted || !s.running)
      && (!s.setup.service ==> s.inbox.unread == [])
    else
      && Blank(s)
      && (s.stage.Scheduled? ==> s.posted == [Start])
      && (s.stage.Silent? ==> s.posted == [] || s.posted == [Stop])
      && (!s.stage.Scheduled? && !s.stage.Silent? ==> s.posted == [])
  }

  ghost predicate TraceInv<T(!new)>(s: Conn<T>) {
    if !s.setup.service then s.trace == []
    else if s.stage.Opened? then
      && s.trace != [] && s.trace[0] == OpenEvent(s)
      && (forall i | 0 < i < |s.trace| :: !Opens(s.trace[i]))
      && Closes(s.trace) == (if s.running then 0 else 1)
    else
      s.trace == if s.stage.Failed? then [OnConnect(false)] else []
  }

  ghost predicate Inv<T(!new)>(s: Conn<T>) {
    Conserved(s) && StageInv(s) && TraceInv(s)
  }

  // ---------------------------------------------------------------- what user calls can change

  /** `t` is `s` after some user calls that posted the handlers `added`, no start handler among them,
      and moved data from unread to consumed. Everything else is as it was. */
  ghost predicate Grows<T(!new)>(s: Conn<T>, t: Conn<T>, added: seq<Task>) {
    && t == s.(posted := s.posted + added, accepted := s.accepted + Packs(added), inbox := t.inbox)
    && Start !in added
    && t.inbox == s.inbox.(unread := t.inbox.unread, consumed := t.inbox.consumed, mark := t.inbox.mark)
    && t.inbox.consumed + t.inbox.unread == s.inbox.consumed + s.inbox.unread
  }

  /** A call posts the handler `t`, or nothing. */
  lemma PostedOne<T(!new)>(s: Conn<T>, t: Task, posts: bool) returns (added: seq<Task>)
    requires !t.Start?
    ensures added == if posts then [t] else []
    ensures Start !in added
    ensures Packs(added) == if posts && t.Push? then [t.pack] else []
    ensures !posts ==> s.posted + added == s.posted && s.accepted + Packs(added) == s.accepted
    ensures posts && !t.Push? ==> s.accepted + Packs(added) == s.accepted
  {
    added := if posts then [t] else [];
    PacksPost([], t);
  }

  lemma ApplyGrows<T(!new)>(s: Conn<T>, c: Call) returns (added: seq<Task>)
    ensures Grows(s, Apply(s, c), added)
  {
    match c
    case Fill(pack) => added := PostedOne(s, Push(pack), s.setup.kind.Udp? || pack != []);
    case FillNull(len) => added := PostedOne(s, Push([]), s.setup.kind.Udp? && len == 0);
    case Close => added := PostedOne(s, Stop, true);
    case Mark(_) => added := PostedOne(s, Stop, false);
    case Drop(n) =>
      added := PostedOne(s, Stop, false);
      if n <= |s.inbox.unread| {
        assert s.inbox.unread == s.inbox.unread[..n] + s.inbox.unread[n..];
      }
  }

  lemma GrowsTransitive<T(!new)>(s: Conn<T>, t: Conn<T>, u: Conn<T>, a: seq<Task>, b: seq<Task>)
    requires Grows(s, t, a) && Grows(t, u, b)
    ensures Grows(s, u, a + b)
  {
    assert s.posted + a + b == s.posted + (a + b);
    PacksConcat(a, b);
    assert s.accepted + Packs(a) + Packs(b) == s.accepted + (Packs(a) + Packs(b));
  }

  lemma {:induction false} CallsGrow<T(!new)>(s: Conn<T>, calls: seq<Call>) returns (added: seq<Task>)
    ensures Grows(s, ApplyAll(s, calls), added)
    decreases |calls|
  {
    if calls == [] {
      added := [];
      assert s.posted + [] == s.posted && s.accepted + [] == s.accepted;
    } else {
      var a := ApplyGrows(s, calls[0]);
      var b := CallsGrow(Apply(s, calls[0]), calls[1..]);
      GrowsTransitive(s, Apply(s, calls[0]), ApplyAll(s, calls), a, b);
      added := a + b;
    }
  }

  lemma GrowsConserves<T(!new)>(s: Conn<T>, t: Conn<T>, added: seq<Task>)
    requires Grows(s, t, added) && Conserved(s)
    ensures Conserved(t)
  {
    PacksConcat(s.posted, added);
  }

  /** Calling back with `e`: the event is recorded once, and the rest is what the calls change. */
  lemma InvokeKeeps<T(!new)>(s: Conn<T>, e: Event, cb: Callback) returns (added: seq<Task>)
    requires Conserved(s)
    ensures var t := Invoke(s, e, cb);
            && Conserved(t)
            && Grows(s.(trace := if s.setup.service then s.trace + [e] else s.trace), t, added)
  {
    if s.setup.service {
      var s1 := s.(trace := s.trace + [e]);
      added := CallsGrow(s1, cb.calls);
      GrowsConserves(s1, Invoke(s, e, cb), added);
    } else {
      added := [];
      assert s.posted + [] == s.posted && s.accepted + [] == s.accepted;
    }
  }

  lemma PostKeeps<T(!new)>(s: Conn<T>, t: Task)
    requires Conserved(s) && !t.Push?
    ensures Conserved(Post(s, t))
  {
    PacksPost(s.posted, t);
  }

  // ---------------------------------------------------------------- preservation, handler by handler

  lemma HandshakeKeeps<T(!new)>(s: Conn<T>, ok: bool, cb: Callback)
    requires Blank(s) && s.posted == [] && s.trace == []
    ensures Inv(HandleHandshake(s, ok, cb))
  {
    if ok {
      var s1 := s.(running := true, stage := Opened);
      var _ := InvokeKeeps(s1, OpenEvent(s), cb);
      AbandonConserves(Invoke(s1, OpenEvent(s), cb));
    }
  }

  lemma AbandonConserves<T(!new)>(s: Conn<T>)
    requires Conserved(s)
    ensures Conserved(Abandon(s))
  {
    PostKeeps(s.(inbox := s.inbox.(ended := true)), Stop);
  }

  /** Recording one more event on an open connection. */
  lemma TraceGrows<T(!new)>(s: Conn<T>, t: Conn<T>, e: Event)
    requires TraceInv(s) && s.stage.Opened? && t.stage.Opened? && !Opens(e)
    requires t.setup.service == s.setup.service && t.setup.passive == s.setup.passive
    requires t.trace == if s.setup.service then s.trace + [e] else s.trace
    requires e.OnClose? ==> s.running && !t.running
    requires !e.OnClose? ==> t.running == s.running
    ensures TraceInv(t)
  {
    if s.setup.service {
      assert multiset(s.trace + [e]) == multiset(s.trace) + multiset{e};
    }
  }

  lemma StopKeeps<T(!new)>(s: Conn<T>, cb: Callback)
    requires Inv(s) && s.posted != [] && s.posted[0] == Stop
    ensures Inv(RunTask(s, cb))
  {
    assert Packs(s.posted) == Packs(s.posted[1..]);
    if s.running {
      var s1 := s.(posted := s.posted[1..]);
      var _ := InvokeKeeps(s1, OnClose, cb);
      TraceGrows(s, RunTask(s, cb), OnClose);
    }
  }

  lemma PushKeeps<T(!new)>(s: Conn<T>, cb: Callback)
    requires Inv(s) && s.posted != [] && s.posted[0].Push?
    ensures Inv(RunTask(s, cb))
  {
    var pack, rest := s.posted[0].pack, s.posted[1..];
    Q.PushKeeps(s.queue, pack);
    var t := s.(posted := rest, queue := Q.Push(s.queue, pack));
    assert RunTask(s, cb) == t;
    assert s.accepted == Q.Pushed(t.queue) + Packs(rest);
    assert Stop in s.posted ==> Stop in rest;
    assert TraceInv(t) && Conserved(t);
  }

  lemma TaskKeeps<T(!new)>(s: Conn<T>, cb: Callback)
    requires Inv(s) && s.posted != []
    ensures Inv(RunTask(s, cb))
  {
    match s.posted[0]
    case Stop => StopKeeps(s, cb);
    case Push(_) => PushKeeps(s, cb);
    case Start =>
      var s1 := s.(posted := s.posted[1..]);
      if !s.setup.ssl {
        HandshakeKeeps(s1, true, cb);
      }
  }

  lemma AbandonKeeps<T(!new)>(s: Conn<T>)
    requires Conserved(s) && Start !in s.posted && s.stage.Opened? && s.inbox.reading == 0 && TraceInv(s)
    requires !s.setup.service ==> s.inbox.unread == []
    ensures Inv(Abandon(s))
  {
    AbandonConserves(s);
  }

  /** The state in which a receive is delivered: open, and no read in flight. */
  ghost predicate Receiving<T(!new)>(s: Conn<T>) {
    && Conserved(s) && TraceInv(s) && s.stage.Opened? && Start !in s.posted
    && s.inbox.reading == 0 && !s.inbox.ended
    && (s.queue.failed ==> Stop in s.posted || !s.running)
  }

  lemma DeliverKeeps<T(!new)>(s: Conn<T>, transferred: nat, cb: Callback)
    requires Receiving(s) && (!s.setup.service ==> transferred == |s.inbox.unread|)
    ensures Receiving(Deliver(s, transferred, cb))
    ensures Deliver(s, transferred, cb).setup == s.setup
    ensures !s.setup.service ==> Deliver(s, transferred, cb).inbox.unread == []
  {
    var t := Deliver(s, transferred, cb);
    if !s.setup.service {
      var added := ApplyGrows(s, Drop(transferred));
      GrowsConserves(s, t, added);
    } else if Announced(s) {
      var _ := InvokeKeeps(s, OnRecv, cb);
      TraceGrows(s, t, OnRecv);
    }
  }

  lemma RecvKeeps<T(!new)>(s: Conn<T>, ok: bool, data: seq<T>, cb: Callback)
    requires Inv(s) && s.inbox.reading > 0
    ensures Inv(HandleRecv(s, ok, data, cb))
  {
    var idle := Idle(s);
    assert Receiving(idle);
    if !ok {
      AbandonKeeps(idle);
    } else {
      var filled := Receive(idle, data);
      assert Receiving(filled);
      DeliverKeeps(filled, |data|, cb);
      if !Wanted(filled, cb) {
        AbandonKeeps(Deliver(filled, |data|, cb));
      }
    }
  }

  lemma OnSendKeeps<T(!new)>(s: Conn<T>, cb: Callback)
    requires Inv(s) && s.stage.Opened?
    ensures Inv(Invoke(s, OnSend, cb)) && Invoke(s, OnSend, cb).stage.Opened?
  {
    var _ := InvokeKeeps(s, OnSend, cb);
    TraceGrows(s, Invoke(s, OnSend, cb), OnSend);
  }

  lemma PostStopKeeps<T(!new)>(s: Conn<T>)
    requires Conserved(s) && StageInv(s.(queue := s.queue.(failed := false))) && TraceInv(s) && s.stage.Opened?
    ensures Inv(Post(s, Stop))
  {
    PostKeeps(s, Stop);
  }

  lemma SendKeeps<T(!new)>(s: Conn<T>, ok: bool, cb: Callback)
    requires Inv(s) && s.queue.outstanding != []
    ensures Inv(HandleSend(s, ok, cb))
  {
    if !ok {
      Q.BreakKeeps(s.queue);
      PostStopKeeps(s.(queue := Q.Break(s.queue)));
    } else {
      Q.FinishKeeps(s.queue);
      var s1 := s.(queue := Q.Finish(s.queue));
      assert Inv(s1);
      OnSendKeeps(s1, cb);
      PostStopKeeps(Invoke(s1, OnSend, cb));
    }
  }

  lemma ApiKeeps<T(!new)>(s: Conn<T>, c: Call)
    requires Inv(s) && s.stage.Opened?
    ensures Inv(Apply(s, c))
  {
    var added := ApplyGrows(s, c);
    GrowsConserves(s, Apply(s, c), added);
  }

  lemma ResolveKeeps<T(!new)>(s: Conn<T>, ok: bool, n: nat)
    requires Inv(s) && s.stage.Resolving?
    ensures Inv(HandleResolve(s, ok, n))
  {
  }

  lemma AcceptKeeps<T(!new)>(s: Conn<T>, ok: bool)
    requires Inv(s) && s.stage.Accepting?
    ensures Inv(HandleAccept(s, ok))
  {
    PacksPost(s.posted, if ok then Start else Stop);
    assert HandleAccept(s, ok).posted == [if ok then Start else Stop];
  }

  lemma ConnectKeeps<T(!new)>(s: Conn<T>, ok: bool)
    requires Inv(s) && s.stage.Connecting?
    ensures Inv(HandleConnect(s, ok))
  {
    var t := HandleConnect(s, ok);
    assert Blank(t);
    if ok {
      assert t.posted == [Start];
    }
  }

  /** Every step keeps the invariant, whatever its outcome and whatever the callback does. */
  lemma StepKeeps<T(!new)>(s: Conn<T>, step: Step<T>)
    requires Inv(s) && Enabled(s, step)
    ensures Inv(Next(s, step))
  {
    match step
    case Accepted(ok) => AcceptKeeps(s, ok);
    case Resolved(ok, n) => ResolveKeeps(s, ok, n);
    case Connected(ok) => ConnectKeeps(s, ok);
    case Handshook(ok, cb) => HandshakeKeeps(s, ok, cb);
    case Posted(cb) => TaskKeeps(s, cb);
    case ReadDone(ok, data, cb) => RecvKeeps(s, ok, data, cb);
    case WriteDone(ok, cb) => SendKeeps(s, ok, cb);
    case Api(c) => ApiKeeps(s, c);
  }

  lemma InitialInv<T(!new)>(s: Conn<T>)
    requires Initial(s)
    ensures Inv(s)
  {
  }

  lemma {:induction false} RunKeeps<T(!new)>(s: Conn<T>, steps: seq<Step<T>>)
    requires Inv(s) && Legal(s, steps)
    ensures Inv(Run(s, steps))
    decreases |steps|
  {
    if steps != [] {
      StepKeeps(s, steps[0]);
      RunKeeps(Next(s, steps[0]), steps[1..]);
    }
  }
}
