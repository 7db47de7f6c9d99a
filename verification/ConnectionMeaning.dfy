/** What the calls of user code and the outcomes of operations mean, over whole runs. Everything here is counted from
    the steps and the calls themselves, and not from the histories that the machine keeps. */
module ConnectionMeaning {
  import opened Octets
  import opened ConnectionMachine
  import opened ConnectionInvariant
  import opened ConnectionLaws
  import Q = SendQueue

  // ---------------------------------------------------------------- calls

  /** The calls that a step makes on the connection: those of its callback, if it makes one about a connection. */
  ghost function CallsOf<T(!new)>(s: Conn<T>, step: Step<T>): seq<Call>
    requires Enabled(s, step)
  {
    if step.Api? then [step.call]
    else if Announcement(s, step) == [] || Announcement(s, step) == [OnConnect(false)] then []
    else step.cb.calls
  }

  /** The packs that calls hand over for sending: an empty one is a datagram, but nothing on a stream, and a null
      pointer stands for no bytes. */
  function Filled(kind: Kind, calls: seq<Call>): seq<Bytes> {
    if calls == [] then []
    else
      (match calls[0]
       case Fill(pack) => if kind.Tcp? && pack == [] then [] else [pack]
       case FillNull(len) => if kind.Udp? && len == 0 then [[]] else []
       case _ => []) + Filled(kind, calls[1..])
  }

  /** How many of `available` received units the drops among the calls take; one that asks for too many takes none. */
  function Eaten(available: nat, calls: seq<Call>): (n: nat)
    ensures n <= available
    decreases |calls|
  {
    if calls == [] then 0
    else if calls[0].Drop? && calls[0].n <= available then
      calls[0].n + Eaten(available - calls[0].n, calls[1..])
    else Eaten(available, calls[1..])
  }

  /** The water mark that the calls leave. Datagrams have none. */
  function Marked(kind: Kind, mark: nat, calls: seq<Call>): nat
    decreases |calls|
  {
    if calls == [] then mark
    else Marked(kind, if calls[0].Mark? && kind.Tcp? then calls[0].n else mark, calls[1..])
  }

  /** What calls leave behind. */
  lemma {:induction false} CallsMean<T(!new)>(s: Conn<T>, calls: seq<Call>)
    ensures var t := ApplyAll(s, calls);
            var n := Eaten(|s.inbox.unread|, calls);
            && t.accepted == s.accepted + Filled(s.setup.kind, calls)
            && t.inbox.consumed == s.inbox.consumed + s.inbox.unread[..n] && t.inbox.unread == s.inbox.unread[n..]
            && t.inbox.mark == Marked(s.setup.kind, s.inbox.mark, calls)
            && (Stop in t.posted <==> Stop in s.posted || Close in calls)
    decreases |calls|
  {
    if calls == [] {
      NoData(s);
    } else {
      var c, rest := calls[0], calls[1..];
      var u := Apply(s, c);
      assert calls == [c] + rest;
      OneCallMeans(s, c);
      CallsMean(u, rest);
      Assoc(s.accepted, Filled(s.setup.kind, [c]), Filled(s.setup.kind, rest));
      FilledFirst(s.setup.kind, c, rest);
      if c.Drop? && c.n <= |s.inbox.unread| {
        TwoBites(s.inbox.consumed, s.inbox.unread, c.n, Eaten(|s.inbox.unread| - c.n, rest));
      }
    }
  }

  lemma FilledFirst(kind: Kind, c: Call, rest: seq<Call>)
    ensures Filled(kind, [c] + rest) == Filled(kind, [c]) + Filled(kind, rest)
  {
    assert ([c] + rest)[1..] == rest && [c][1..] == [];
  }

  lemma OneCallMeans<T(!new)>(s: Conn<T>, c: Call)
    ensures var t := Apply(s, c);
            && t.setup == s.setup
            && t.accepted == s.accepted + Filled(s.setup.kind, [c])
            && t.inbox.mark == (if c.Mark? && s.setup.kind.Tcp? then c.n else s.inbox.mark)
            && (Stop in t.posted <==> Stop in s.posted || c == Close)
            && (if c.Drop? && c.n <= |s.inbox.unread| then
                  && t.inbox.consumed == s.inbox.consumed + s.inbox.unread[..c.n]
                  && t.inbox.unread == s.inbox.unread[c.n..]
                else t.inbox.consumed == s.inbox.consumed && t.inbox.unread == s.inbox.unread)
  {
    assert [c][1..] == [] && s.accepted + [] == s.accepted;
  }

  lemma TwoBites<X>(a: seq<X>, b: seq<X>, m: nat, n: nat)
    requires m + n <= |b|
    ensures a + b[..m] + b[m..][..n] == a + b[..m + n] && b[m..][n..] == b[m + n..]
  {
    assert b[..m] + b[m..][..n] == b[..m + n];
  }

  // ---------------------------------------------------------------- one step

  /** The bytes, or the datagram, that a step receives. */
  function Arrived<T>(step: Step<T>): seq<T> {
    if step.ReadDone? && step.ok then step.data else []
  }

  /** How much of what is there the step consumes; without a service everything is dropped as it arrives. */
  ghost function Bite<T(!new)>(s: Conn<T>, step: Step<T>): (n: nat)
    requires Enabled(s, step)
    ensures n <= |s.inbox.unread| + |Arrived(step)|
  {
    if s.setup.service then Eaten(|s.inbox.unread| + |Arrived(step)|, CallsOf(s, step)) else |Arrived(step)|
  }

  /** After this step nothing more is read: a read error, or an opening or receive callback that returns false. */
  ghost predicate Quits<T(!new)>(s: Conn<T>, step: Step<T>)
    requires Enabled(s, step)
  {
    match step
    case ReadDone(ok, _, cb) => !ok || (Announcement(s, step) == [OnRecv] && !cb.ok)
    case Handshook(_, cb) => Announcement(s, step) == [OpenEvent(s)] && !cb.ok
    case Posted(cb) => Announcement(s, step) == [OpenEvent(s)] && !cb.ok
    case _ => false
  }

  /** The step asks for the connection to be closed: by a close call, an error, or a callback that returns false. */
  ghost predicate Asks<T(!new)>(s: Conn<T>, step: Step<T>)
    requires Enabled(s, step)
  {
    Fatal(s, step) || Close in CallsOf(s, step)
  }

  /** What one step means for the data. */
  ghost predicate DataMeans<T(!new)>(s: Conn<T>, step: Step<T>, t: Conn<T>)
    requires Enabled(s, step)
  {
    var all, n := s.inbox.unread + Arrived(step), Bite(s, step);
    && t.accepted == s.accepted + Filled(s.setup.kind, CallsOf(s, step))
    && t.inbox.delivered == s.inbox.delivered + Arrived(step)
    && t.inbox.consumed == s.inbox.consumed + all[..n] && t.inbox.unread == all[n..]
    && t.inbox.mark == Marked(s.setup.kind, s.inbox.mark, CallsOf(s, step))
  }

  /** What one step means for the end of the connection. */
  ghost predicate EndMeans<T(!new)>(s: Conn<T>, step: Step<T>, t: Conn<T>)
    requires Enabled(s, step)
  {
    && (t.inbox.ended <==> s.inbox.ended || Quits(s, step))
    && (t.stage.Opened? ==> (Doomed(t) <==> Doomed(s) || Asks(s, step)))
    && (Asks(s, step) ==> t.stage.Opened?)
  }

  lemma InvokeMeans<T(!new)>(s: Conn<T>, e: Event, cb: Callback)
    requires s.setup.service
    ensures var t := Invoke(s, e, cb);
            var n := Eaten(|s.inbox.unread|, cb.calls);
            && t.accepted == s.accepted + Filled(s.setup.kind, cb.calls)
            && t.inbox.consumed == s.inbox.consumed + s.inbox.unread[..n] && t.inbox.unread == s.inbox.unread[n..]
            && t.inbox.mark == Marked(s.setup.kind, s.inbox.mark, cb.calls)
            && (Stop in t.posted <==> Stop in s.posted || Close in cb.calls)
            && t.setup == s.setup && t.stage == s.stage && t.running == s.running
            && t.inbox.delivered == s.inbox.delivered && t.inbox.ended == s.inbox.ended
  {
    CallsMean(s.(trace := s.trace + [e]), cb.calls);
    InvokeFrame(s, e, cb);
  }

  /** Nothing has been received or filled yet, and no close is due. */
  predicate Untouched<T>(s: Conn<T>) {
    && s.inbox.unread == [] && s.inbox.consumed == [] && s.inbox.delivered == [] && s.accepted == []
    && !s.inbox.ended && !s.running && Stop !in s.posted && !s.stage.Opened?
  }

  lemma UntouchedBefore<T(!new)>(s: Conn<T>)
    requires Inv(s) && !s.stage.Opened? && !s.stage.Silent?
    ensures Untouched(s)
  {
  }

  lemma OpeningMeans<T(!new)>(s: Conn<T>, cb: Callback)
    requires Untouched(s) && s.setup.service
    ensures var t := HandleHandshake(s, true, cb);
            && t.accepted == Filled(s.setup.kind, cb.calls)
            && t.inbox.mark == Marked(s.setup.kind, s.inbox.mark, cb.calls)
            && t.inbox.consumed == [] && t.inbox.unread == [] && t.inbox.delivered == []
            && (t.inbox.ended <==> !cb.ok) && t.stage.Opened? && (Doomed(t) <==> !cb.ok || Close in cb.calls)
  {
    InvokeMeans(s.(running := true, stage := Opened), OpenEvent(s), cb);
  }

  lemma HandshakeMeans<T(!new)>(s: Conn<T>, ok: bool, cb: Callback)
    requires Enabled(s, Handshook(ok, cb)) && Untouched(s)
    ensures DataMeans(s, Handshook(ok, cb), HandleHandshake(s, ok, cb))
    ensures EndMeans(s, Handshook(ok, cb), HandleHandshake(s, ok, cb))
  {
    if ok && s.setup.service {
      OpeningMeans(s, cb);
    }
  }

  lemma StartMeans<T(!new)>(s: Conn<T>, cb: Callback)
    requires Untouched(s) && s.posted != [] && s.posted[0].Start?
    ensures DataMeans(s, Posted(cb), RunTask(s, cb)) && EndMeans(s, Posted(cb), RunTask(s, cb))
  {
    if !s.setup.ssl && s.setup.service {
      OpeningMeans(s.(posted := s.posted[1..]), cb);
    }
  }

  /** Nothing arrives, is filled or is dropped. */
  lemma NoData<T>(s: Conn<T>)
    ensures s.accepted + [] == s.accepted && s.inbox.consumed + [] == s.inbox.consumed
    ensures s.inbox.unread + [] == s.inbox.unread && s.inbox.delivered + [] == s.inbox.delivered
  {
  }

  lemma StopMeans<T(!new)>(s: Conn<T>, cb: Callback)
    requires s.posted != [] && s.posted[0].Stop? && (s.running ==> s.stage.Opened?)
    ensures DataMeans(s, Posted(cb), RunTask(s, cb)) && EndMeans(s, Posted(cb), RunTask(s, cb))
  {
    NoData(s);
    if s.running && s.setup.service {
      InvokeMeans(s.(posted := s.posted[1..]), OnClose, cb);
    }
  }

  lemma PushMeans<T(!new)>(s: Conn<T>, cb: Callback)
    requires s.posted != [] && s.posted[0].Push?
    ensures DataMeans(s, Posted(cb), RunTask(s, cb)) && EndMeans(s, Posted(cb), RunTask(s, cb))
  {
    NoData(s);
    assert s.posted == [s.posted[0]] + s.posted[1..];
  }

  lemma ReadMeans<T(!new)>(s: Conn<T>, ok: bool, data: seq<T>, cb: Callback)
    requires Enabled(s, ReadDone(ok, data, cb)) && s.stage.Opened? && (!s.setup.service ==> s.inbox.unread == [])
    ensures DataMeans(s, ReadDone(ok, data, cb), HandleRecv(s, ok, data, cb))
    ensures EndMeans(s, ReadDone(ok, data, cb), HandleRecv(s, ok, data, cb))
  {
    NoData(s);
    if ok && s.setup.service {
      InvokeMeans(Receive(Idle(s), data), OnRecv, cb);
    }
  }

  lemma WriteMeans<T(!new)>(s: Conn<T>, ok: bool, cb: Callback)
    requires s.queue.outstanding != [] && Q.Valid(s.queue) && s.stage.Opened?
    requires s.queue.sent + [s.queue.outstanding[0]] == Q.Pushed(s.queue) <==> |s.queue.deque| == 1
    ensures DataMeans(s, WriteDone(ok, cb), HandleSend(s, ok, cb))
    ensures EndMeans(s, WriteDone(ok, cb), HandleSend(s, ok, cb))
  {
    NoData(s);
    if ok && s.setup.service {
      Q.FinishKeeps(s.queue);
      InvokeMeans(s.(queue := Q.Finish(s.queue)), OnSend, cb);
    }
  }

  lemma CallMeans<T(!new)>(s: Conn<T>, c: Call)
    requires Enabled(s, Api(c))
    ensures DataMeans(s, Api(c), Apply(s, c)) && EndMeans(s, Api(c), Apply(s, c))
  {
    NoData(s);
    OneCallMeans(s, c);
    OneCallCounts(s.setup.kind, s.inbox.mark, |s.inbox.unread|, c);
  }

  lemma OneCallCounts(kind: Kind, mark: nat, available: nat, c: Call)
    requires !c.Drop? && !c.Mark?
    ensures Eaten(available, [c]) == 0 && Marked(kind, mark, [c]) == mark && (Close in [c] <==> c == Close)
  {
    assert [c][1..] == [];
  }

  /** Before a connection is open a step brings, fills and drops nothing, and asks for nothing. */
  lemma NothingYet<T(!new)>(s: Conn<T>, step: Step<T>, t: Conn<T>)
    requires Enabled(s, step) && (step.Accepted? || step.Resolved? || step.Connected?)
    requires t.inbox == s.inbox && t.accepted == s.accepted && !t.stage.Opened?
    ensures DataMeans(s, step, t) && EndMeans(s, step, t)
  {
    NoData(s);
    assert Arrived(step) == [] && CallsOf(s, step) == [] && Bite(s, step) == 0;
  }

  lemma ConnectMeans<T(!new)>(s: Conn<T>, step: Step<T>)
    requires Enabled(s, step) && (step.Accepted? || step.Resolved? || step.Connected?)
    ensures DataMeans(s, step, Next(s, step)) && EndMeans(s, step, Next(s, step))
  {
    NothingYet(s, step, Next(s, step));
  }

  lemma TaskMeans<T(!new)>(s: Conn<T>, cb: Callback)
    requires Inv(s) && s.posted != []
    ensures DataMeans(s, Posted(cb), RunTask(s, cb)) && EndMeans(s, Posted(cb), RunTask(s, cb))
  {
    match s.posted[0]
    case Start =>
      assert s.posted[0] in s.posted;
      UntouchedBefore(s);
      StartMeans(s, cb);
    case Stop => StopMeans(s, cb);
    case Push(_) => PushMeans(s, cb);
  }

  lemma StepMeans<T(!new)>(s: Conn<T>, step: Step<T>)
    requires Inv(s) && Enabled(s, step)
    ensures DataMeans(s, step, Next(s, step)) && EndMeans(s, step, Next(s, step))
  {
    match step
    case Posted(cb) => TaskMeans(s, cb);
    case ReadDone(ok, data, cb) => ReadMeans(s, ok, data, cb);
    case WriteDone(ok, cb) =>
      LastWrite(s);
      WriteMeans(s, ok, cb);
    case Handshook(ok, cb) =>
      UntouchedBefore(s);
      HandshakeMeans(s, ok, cb);
    case Api(c) => CallMeans(s, c);
    case _ => ConnectMeans(s, step);
  }

  // ---------------------------------------------------------------- whole runs

  ghost function FilledBy<T(!new)>(s: Conn<T>, steps: seq<Step<T>>): seq<Bytes>
    requires Legal(s, steps)
    decreases |steps|
  {
    if steps == [] then []
    else Filled(s.setup.kind, CallsOf(s, steps[0])) + FilledBy(Next(s, steps[0]), steps[1..])
  }

  function ArrivedBy<T>(steps: seq<Step<T>>): seq<T> {
    if steps == [] then [] else Arrived(steps[0]) + ArrivedBy(steps[1..])
  }

  ghost function EatenBy<T(!new)>(s: Conn<T>, steps: seq<Step<T>>): nat
    requires Legal(s, steps)
    decreases |steps|
  {
    if steps == [] then 0 else Bite(s, steps[0]) + EatenBy(Next(s, steps[0]), steps[1..])
  }

  ghost function MarkedBy<T(!new)>(s: Conn<T>, mark: nat, steps: seq<Step<T>>): nat
    requires Legal(s, steps)
    decreases |steps|
  {
    if steps == [] then mark
    else MarkedBy(Next(s, steps[0]), Marked(s.setup.kind, mark, CallsOf(s, steps[0])), steps[1..])
  }

  ghost predicate QuitBy<T(!new)>(s: Conn<T>, steps: seq<Step<T>>)
    requires Legal(s, steps)
    decreases |steps|
  {
    steps != [] && (Quits(s, steps[0]) || QuitBy(Next(s, steps[0]), steps[1..]))
  }

  ghost predicate AskedBy<T(!new)>(s: Conn<T>, steps: seq<Step<T>>)
    requires Legal(s, steps)
    decreases |steps|
  {
    steps != [] && (Asks(s, steps[0]) || AskedBy(Next(s, steps[0]), steps[1..]))
  }

  function Writes<T>(steps: seq<Step<T>>): nat {
    if steps == [] then 0 else (if steps[0].WriteDone? && steps[0].ok then 1 else 0) + Writes(steps[1..])
  }

  lemma {:induction false} RunFills<T(!new)>(s: Conn<T>, steps: seq<Step<T>>)
    requires Inv(s) && Legal(s, steps)
    ensures Run(s, steps).accepted == s.accepted + FilledBy(s, steps)
    decreases |steps|
  {
    if steps == [] {
      NoData(s);
    } else {
      StepKeeps(s, steps[0]);
      StepMeans(s, steps[0]);
      RunFills(Next(s, steps[0]), steps[1..]);
      Assoc(s.accepted, Filled(s.setup.kind, CallsOf(s, steps[0])), FilledBy(Next(s, steps[0]), steps[1..]));
    }
  }

  lemma {:induction false} RunArrives<T(!new)>(s: Conn<T>, steps: seq<Step<T>>)
    requires Inv(s) && Legal(s, steps)
    ensures Run(s, steps).inbox.delivered == s.inbox.delivered + ArrivedBy(steps)
    decreases |steps|
  {
    if steps == [] {
      NoData(s);
    } else {
      StepKeeps(s, steps[0]);
      StepMeans(s, steps[0]);
      RunArrives(Next(s, steps[0]), steps[1..]);
      Assoc(s.inbox.delivered, Arrived(steps[0]), ArrivedBy(steps[1..]));
    }
  }

  lemma {:induction false} RunEats<T(!new)>(s: Conn<T>, steps: seq<Step<T>>)
    requires Inv(s) && Legal(s, steps)
    ensures |Run(s, steps).inbox.consumed| == |s.inbox.consumed| + EatenBy(s, steps)
    decreases |steps|
  {
    if steps != [] {
      StepKeeps(s, steps[0]);
      StepMeans(s, steps[0]);
      RunEats(Next(s, steps[0]), steps[1..]);
    }
  }

  lemma {:induction false} RunMarks<T(!new)>(s: Conn<T>, steps: seq<Step<T>>)
    requires Inv(s) && Legal(s, steps)
    ensures Run(s, steps).inbox.mark == MarkedBy(s, s.inbox.mark, steps)
    decreases |steps|
  {
    if steps != [] {
      StepKeeps(s, steps[0]);
      StepMeans(s, steps[0]);
      RunMarks(Next(s, steps[0]), steps[1..]);
    }
  }

  lemma {:induction false} RunQuits<T(!new)>(s: Conn<T>, steps: seq<Step<T>>)
    requires Inv(s) && Legal(s, steps)
    ensures Run(s, steps).inbox.ended <==> s.inbox.ended || QuitBy(s, steps)
    decreases |steps|
  {
    if steps != [] {
      StepKeeps(s, steps[0]);
      StepMeans(s, steps[0]);
      RunQuits(Next(s, steps[0]), steps[1..]);
    }
  }

  lemma OpenStays<T(!new)>(s: Conn<T>, step: Step<T>)
    requires Inv(s) && Enabled(s, step) && !Next(s, step).stage.Opened?
    ensures !s.stage.Opened? && !Asks(s, step)
  {
    StepMeans(s, step);
    if s.stage.Opened? {
      RunningStep(s, step);
    }
  }

  lemma {:induction false} RunAsks<T(!new)>(s: Conn<T>, steps: seq<Step<T>>)
    requires Inv(s) && Legal(s, steps) && Run(s, steps).stage.Opened?
    ensures Doomed(Run(s, steps)) <==> Doomed(s) || AskedBy(s, steps)
    decreases |steps|
  {
    if steps != [] {
      var t := Next(s, steps[0]);
      StepKeeps(s, steps[0]);
      StepMeans(s, steps[0]);
      RunAsks(t, steps[1..]);
      if !t.stage.Opened? {
        OpenStays(s, steps[0]);
      }
    }
  }

  lemma {:induction false} RunWrites<T(!new)>(s: Conn<T>, steps: seq<Step<T>>)
    requires Inv(s) && Legal(s, steps)
    ensures |Run(s, steps).queue.sent| == |s.queue.sent| + Writes(steps)
    decreases |steps|
  {
    if steps != [] {
      StepKeeps(s, steps[0]);
      StepSends(s, steps[0]);
      RunWrites(Next(s, steps[0]), steps[1..]);
    }
  }

  lemma StepSends<T(!new)>(s: Conn<T>, step: Step<T>)
    requires Inv(s) && Enabled(s, step)
    ensures |Next(s, step).queue.sent| == |s.queue.sent| + (if step.WriteDone? && step.ok then 1 else 0)
  {
    if step.WriteDone? {
      SentByCompletion(s, step);
      if step.ok {
        Q.FinishKeeps(s.queue);
      } else {
        Q.BreakKeeps(s.queue);
      }
    } else {
      QueueUntouched(s, step);
      if step.Posted? && s.posted[0].Push? {
        Q.PushKeeps(s.queue, s.posted[0].pack);
      }
    }
  }

  /** What user code hands over for sending is, in order, what has been written, what is queued and what is still
      posted; as many packs have been written as writes have succeeded. */
  lemma SendsWhatIsFilled<T(!new)>(s0: Conn<T>, steps: seq<Step<T>>)
    requires Initial(s0) && Legal(s0, steps)
    ensures var s := Run(s0, steps);
            && s.queue.sent + s.queue.deque + Packs(s.posted) == FilledBy(s0, steps)
            && |s.queue.sent| == Writes(steps)
  {
    SetupKept(s0, steps);
    InitialInv(s0);
    RunFills(s0, steps);
    RunWrites(s0, steps);
  }

  /** What successful reads bring is, in order, what user code has dropped and what it can still see. */
  lemma KeepsWhatArrives<T(!new)>(s0: Conn<T>, steps: seq<Step<T>>)
    requires Initial(s0) && Legal(s0, steps)
    ensures var s, all, n := Run(s0, steps), ArrivedBy(steps), EatenBy(s0, steps);
            n <= |all| && s.inbox.unread == all[n..] && s.inbox.consumed == all[..n]
  {
    SetupKept(s0, steps);
    InitialInv(s0);
    RunArrives(s0, steps);
    RunEats(s0, steps);
    var s := Run(s0, steps);
    assert s.inbox.delivered == ArrivedBy(steps);
  }

  /** The water mark is the last one that was set, and 1 before any was. */
  lemma KeepsTheMark<T(!new)>(s0: Conn<T>, steps: seq<Step<T>>)
    requires Initial(s0) && Legal(s0, steps)
    ensures Run(s0, steps).inbox.mark == MarkedBy(s0, 1, steps)
  {
    InitialInv(s0);
    RunMarks(s0, steps);
  }

  /** An open connection goes on reading if and only if no read has failed and no opening or receive callback has
      returned false. */
  lemma ReadsUntilQuit<T(!new)>(s0: Conn<T>, steps: seq<Step<T>>)
    requires Initial(s0) && Legal(s0, steps) && Run(s0, steps).stage.Opened?
    ensures Run(s0, steps).inbox.reading == if QuitBy(s0, steps) then 0 else 1
  {
    SetupKept(s0, steps);
    InitialInv(s0);
    RunQuits(s0, steps);
  }

  /** A connection that has opened is closed, or has its close posted, if and only if a close was asked for: by a close
      call, a read or write error, or an opening, receive or send callback that returned false. */
  lemma ClosesIffAsked<T(!new)>(s0: Conn<T>, steps: seq<Step<T>>)
    requires Initial(s0) && Legal(s0, steps) && Run(s0, steps).stage.Opened?
    ensures var s := Run(s0, steps);
            && (!s.running || Stop in s.posted <==> AskedBy(s0, steps))
            && (s.posted == [] ==> (!s.running <==> AskedBy(s0, steps)))
  {
    InitialInv(s0);
    RunAsks(s0, steps);
  }
}
