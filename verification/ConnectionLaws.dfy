/** What holds of every run of a connection, after errors and close requests included. */
module ConnectionLaws {
  import opened Octets
  import opened ConnectionMachine
  import opened ConnectionInvariant
  import Q = SendQueue

  // ---------------------------------------------------------------- sending

  /** Written packs, packs in the deque and packs still posted are, in this order, exactly what
      send_buffer_fill accepted. One write is outstanding exactly when the deque is non-empty and no
      write has failed, and it is a write of the front pack. */
  lemma SendConservation<T(!new)>(s0: Conn<T>, steps: seq<Step<T>>)
    requires Initial(s0) && Legal(s0, steps)
    ensures var s := Run(s0, steps);
            && s.accepted == s.queue.sent + s.queue.deque + Packs(s.posted)
            && |s.queue.outstanding| <= 1
            && (s.queue.outstanding != [] <==> s.queue.deque != [] && !s.queue.failed)
            && (s.queue.outstanding != [] ==> s.queue.outstanding[0] == s.queue.deque[0])
  {
    InitialInv(s0);
    RunKeeps(s0, steps);
  }

  /** The only step that touches a write in flight, or the pack it reads from, is its completion. */
  lemma FrontStays<T(!new)>(s: Conn<T>, step: Step<T>)
    requires Inv(s) && Enabled(s, step) && !step.WriteDone? && s.queue.outstanding != []
    ensures var t := Next(s, step);
            t.queue.outstanding == s.queue.outstanding && t.queue.deque != [] && t.queue.deque[0] == s.queue.deque[0]
  {
    QueueUntouched(s, step);
    if step.Posted? && s.posted[0].Push? {
      Q.PushKeeps(s.queue, s.posted[0].pack);
    }
  }

  lemma QueueUntouched<T(!new)>(s: Conn<T>, step: Step<T>)
    requires Inv(s) && Enabled(s, step) && !step.WriteDone?
    ensures Next(s, step).queue ==
            if step.Posted? && s.posted[0].Push? then Q.Push(s.queue, s.posted[0].pack) else s.queue
  {
    StepEvents(s, step);
  }

  // ---------------------------------------------------------------- callbacks

  /** The callback a step makes, from what the library promises and not from the handlers: reads are
      announced at the water mark, on_send says that everything pushed has been written. */
  ghost function Announcement<T(!new)>(s: Conn<T>, step: Step<T>): seq<Event>
    requires Enabled(s, step)
  {
    if !s.setup.service then [] else
    match step
    case Accepted(_) => []
    case Resolved(ok, _) => if ok then [] else [OnConnect(false)]
    case Connected(ok) =>
      if !ok && s.stage.left <= 1 then [OnConnect(false)] else []
    case Handshook(ok, _) => if ok then [OpenEvent(s)] else []
    case Posted(_) =>
      if s.posted[0].Start? && !s.setup.ssl then [OpenEvent(s)]
      else if s.posted[0].Stop? && s.running then [OnClose] else []
    case ReadDone(ok, data, _) =>
      if ok && (s.setup.kind.Udp? || |s.inbox.unread| + |data| >= s.inbox.mark) then [OnRecv] else []
    case WriteDone(ok, _) =>
      if ok && s.queue.sent + [s.queue.outstanding[0]] == Q.Pushed(s.queue) then [OnSend] else []
    case Api(_) => []
  }

  lemma InvokeFrame<T(!new)>(s: Conn<T>, e: Event, cb: Callback)
    ensures var t := Invoke(s, e, cb);
            && t.trace == (if s.setup.service then s.trace + [e] else s.trace)
            && t.queue == s.queue && t.setup == s.setup && t.stage == s.stage
            && s.posted <= t.posted && t.inbox.delivered == s.inbox.delivered && t.inbox.reading == s.inbox.reading
            && t.running == s.running && t.inbox.ended == s.inbox.ended
  {
    if s.setup.service {
      var _ := CallsGrow(s.(trace := s.trace + [e]), cb.calls);
    }
  }

  lemma SendEvents<T(!new)>(s: Conn<T>, ok: bool, cb: Callback)
    requires Inv(s) && s.queue.outstanding != []
    ensures HandleSend(s, ok, cb).trace ==
            s.trace + if s.setup.service && ok && s.queue.sent + [s.queue.outstanding[0]] == Q.Pushed(s.queue)
                      then [OnSend] else []
    ensures var t := HandleSend(s, ok, cb);
            && t.setup == s.setup && s.posted <= t.posted && t.stage == s.stage && t.running == s.running
            && t.inbox.ended == s.inbox.ended && t.inbox.delivered == s.inbox.delivered
  {
    if ok {
      Q.FinishKeeps(s.queue);
      var q := Q.Finish(s.queue);
      assert Q.Pushed(s.queue) == s.queue.sent + [s.queue.outstanding[0]] + q.deque;
      InvokeFrame(s.(queue := q), OnSend, cb);
    }
  }

  lemma RecvEvents<T(!new)>(s: Conn<T>, ok: bool, data: seq<T>, cb: Callback)
    requires s.inbox.reading > 0
    ensures var t := HandleRecv(s, ok, data, cb);
            && t.trace == s.trace + (if s.setup.service && ok &&
                                        (s.setup.kind.Udp? || |s.inbox.unread| + |data| >= s.inbox.mark)
                                     then [OnRecv] else [])
            && t.queue == s.queue && s.posted <= t.posted
            && t.setup == s.setup && t.stage == s.stage && t.running == s.running
  {
    if ok {
      var s1 := Receive(Idle(s), data);
      InvokeFrame(s1, OnRecv, cb);
      var _ := ApplyGrows(s1, Drop(|data|));
    }
  }

  lemma TaskEvents<T(!new)>(s: Conn<T>, cb: Callback)
    requires s.posted != []
    ensures var t := RunTask(s, cb);
            && t.trace == s.trace + (if !s.setup.service then [] else
                                     if s.posted[0].Start? && !s.setup.ssl then [OpenEvent(s)] else
                                     if s.posted[0].Stop? && s.running then [OnClose] else [])
            && t.queue == (if s.posted[0].Push? then Q.Push(s.queue, s.posted[0].pack) else s.queue)
            && s.posted[1..] <= t.posted
            && (s.posted[0].Stop? ==> !t.running)
            && (s.posted[0].Push? ==> t.running == s.running)
            && t.setup == s.setup
            && (s.posted[0].Start? ==> t.stage == if s.setup.ssl then Handshaking else Opened)
            && (!s.posted[0].Start? ==>
                  t.stage == s.stage && t.inbox.ended == s.inbox.ended && t.inbox.delivered == s.inbox.delivered)
  {
    var s1 := s.(posted := s.posted[1..]);
    InvokeFrame(s1, OnClose, cb);
    InvokeFrame(s1.(running := true, stage := Opened), OpenEvent(s1), cb);
  }

  lemma HandshakeEvents<T(!new)>(s: Conn<T>, ok: bool, cb: Callback)
    ensures var t := HandleHandshake(s, ok, cb);
            && t.trace == s.trace + (if s.setup.service && ok then [OpenEvent(s)] else [])
            && t.queue == s.queue && s.posted <= t.posted && t.setup == s.setup
  {
    if ok {
      InvokeFrame(s.(running := true, stage := Opened), OpenEvent(s), cb);
    }
  }

  lemma ConnectEvents<T(!new)>(s: Conn<T>, ok: bool)
    requires s.stage.Connecting?
    ensures var t := HandleConnect(s, ok);
            && t.trace == s.trace + (if s.setup.service && !ok && s.stage.left <= 1 then [OnConnect(false)] else [])
            && t.queue == s.queue && s.posted <= t.posted && t.setup == s.setup
  {
  }

  /** `t` comes from `s` by exactly the announced callback; only the worker's own task has been removed
      from the posted queue, and only a push or a completed write has touched the send queue. */
  ghost predicate AsAnnounced<T(!new)>(s: Conn<T>, step: Step<T>, t: Conn<T>)
    requires Enabled(s, step)
  {
    && t.trace == s.trace + Announcement(s, step)
    && t.setup == s.setup
    && (if step.Posted? then s.posted[1..] <= t.posted else s.posted <= t.posted)
    && (step.WriteDone? ||
        t.queue == if step.Posted? && s.posted[0].Push? then Q.Push(s.queue, s.posted[0].pack) else s.queue)
  }

  lemma TaskTold<T(!new)>(s: Conn<T>, cb: Callback)
    requires s.posted != []
    ensures AsAnnounced(s, Posted(cb), RunTask(s, cb))
  {
    TaskEvents(s, cb);
  }

  lemma ReadTold<T(!new)>(s: Conn<T>, ok: bool, data: seq<T>, cb: Callback)
    requires Enabled(s, ReadDone(ok, data, cb))
    ensures AsAnnounced(s, ReadDone(ok, data, cb), HandleRecv(s, ok, data, cb))
  {
    RecvEvents(s, ok, data, cb);
  }

  lemma WriteTold<T(!new)>(s: Conn<T>, ok: bool, cb: Callback)
    requires Inv(s) && s.queue.outstanding != []
    ensures AsAnnounced(s, WriteDone(ok, cb), HandleSend(s, ok, cb))
  {
    SendEvents(s, ok, cb);
  }

  lemma ConnectTold<T(!new)>(s: Conn<T>, step: Step<T>)
    requires Enabled(s, step) && (step.Handshook? || step.Resolved? || step.Connected? || step.Accepted?)
    ensures AsAnnounced(s, step, Next(s, step))
  {
    match step
    case Handshook(ok, cb) => HandshakeEvents(s, ok, cb);
    case Connected(ok) => ConnectEvents(s, ok);
    case Resolved(_, _) =>
    case Accepted(_) =>
  }

  lemma CallTold<T(!new)>(s: Conn<T>, c: Call)
    requires Enabled(s, Api(c))
    ensures AsAnnounced(s, Api(c), Apply(s, c))
  {
    var _ := ApplyGrows(s, c);
  }

  /** Each step makes exactly the callback announced, and only the worker's own task removes a posted
      handler. */
  lemma StepEvents<T(!new)>(s: Conn<T>, step: Step<T>)
    requires Inv(s) && Enabled(s, step)
    ensures AsAnnounced(s, step, Next(s, step))
  {
    if step.Posted? || step.ReadDone? || step.WriteDone? {
      WorkTold(s, step);
    } else if step.Api? {
      CallTold(s, step.call);
    } else {
      ConnectTold(s, step);
    }
  }

  lemma WorkTold<T(!new)>(s: Conn<T>, step: Step<T>)
    requires Inv(s) && Enabled(s, step) && (step.Posted? || step.ReadDone? || step.WriteDone?)
    ensures AsAnnounced(s, step, Next(s, step))
  {
    match step
    case Posted(cb) => TaskTold(s, cb);
    case ReadDone(ok, data, cb) => ReadTold(s, ok, data, cb);
    case WriteDone(ok, cb) => WriteTold(s, ok, cb);
  }

  lemma TraceStep<T(!new)>(s: Conn<T>, step: Step<T>)
    requires Inv(s) && Enabled(s, step)
    ensures Next(s, step).trace == s.trace + Announcement(s, step)
  {
    StepEvents(s, step);
  }

  lemma OnlyWritesDrain<T(!new)>(s: Conn<T>, step: Step<T>)
    requires Enabled(s, step) && !step.WriteDone?
    ensures Announcement(s, step) != [OnSend]
  {
  }

  /** on_send fires exactly on the step that leaves nothing pushed and unwritten. */
  lemma OnSendMeansDrained<T(!new)>(s: Conn<T>, step: Step<T>)
    requires Inv(s) && Enabled(s, step) && s.setup.service
    ensures Next(s, step).trace == s.trace + [OnSend] <==>
            step.WriteDone? && step.ok && Next(s, step).queue.sent == Q.Pushed(s.queue)
    ensures Next(s, step).trace == s.trace + [OnSend] ==> Next(s, step).queue.deque == []
  {
    TraceStep(s, step);
    AppendedOne(s.trace, Announcement(s, step), OnSend);
    if step.WriteDone? {
      DrainingWrite(s, step.ok, step.cb);
    } else {
      OnlyWritesDrain(s, step);
    }
  }

  lemma DrainingWrite<T(!new)>(s: Conn<T>, ok: bool, cb: Callback)
    requires Inv(s) && s.queue.outstanding != [] && s.setup.service
    ensures var t := HandleSend(s, ok, cb);
            && (Announcement(s, WriteDone(ok, cb)) == [OnSend] <==> ok && t.queue.sent == Q.Pushed(s.queue))
            && (Announcement(s, WriteDone(ok, cb)) == [OnSend] ==> t.queue.deque == [])
  {
    SentByCompletion(s, WriteDone(ok, cb));
    if ok {
      Q.FinishKeeps(s.queue);
      assert Q.Pushed(s.queue) == s.queue.sent + [s.queue.outstanding[0]] + Q.Finish(s.queue).deque;
    }
  }

  lemma AppendedOne(trace: seq<Event>, more: seq<Event>, e: Event)
    ensures trace + more == trace + [e] <==> more == [e]
  {
    if trace + more == trace + [e] {
      assert (trace + more)[|trace|..] == more && (trace + [e])[|trace|..] == [e];
    }
  }

  lemma SentByCompletion<T(!new)>(s: Conn<T>, step: Step<T>)
    requires Inv(s) && Enabled(s, step) && step.WriteDone?
    ensures Next(s, step).queue == if step.ok then Q.Finish(s.queue) else Q.Break(s.queue)
    ensures Q.Pushed(Next(s, step).queue) == Q.Pushed(s.queue)
  {
    if step.ok {
      Q.FinishKeeps(s.queue);
      InvokeFrame(s.(queue := Q.Finish(s.queue)), OnSend, step.cb);
    } else {
      Q.BreakKeeps(s.queue);
    }
  }

  /** The opening callback comes first and is the only one of its kind, on_close comes at most once,
      never before it, and has come exactly when the connection is no longer running. */
  lemma CallbackOrder<T(!new)>(s0: Conn<T>, steps: seq<Step<T>>)
    requires Initial(s0) && Legal(s0, steps) && s0.setup.service
    ensures var s := Run(s0, steps);
            && (s.trace != [] ==> s.trace[0] == (if s.stage.Failed? then OnConnect(false) else OpenEvent(s)))
            && (forall i | 0 < i < |s.trace| :: !Opens(s.trace[i]))
            && Closes(s.trace) <= 1
            && (OnClose in s.trace <==> s.stage.Opened? && !s.running)
            && (s.stage.Failed? ==> s.trace == [OnConnect(false)])
  {
    InitialInv(s0);
    RunKeeps(s0, steps);
    SetupStays(s0, steps);
  }

  lemma {:induction false} SetupStays<T(!new)>(s: Conn<T>, steps: seq<Step<T>>)
    requires Inv(s) && Legal(s, steps)
    ensures Run(s, steps).setup == s.setup
    decreases |steps|
  {
    if steps != [] {
      StepKeeps(s, steps[0]);
      StepEvents(s, steps[0]);
      SetupStays(Next(s, steps[0]), steps[1..]);
    }
  }

  /** Every run from an initial state keeps the invariant and the setup. */
  lemma SetupKept<T(!new)>(s0: Conn<T>, steps: seq<Step<T>>)
    requires Initial(s0) && Legal(s0, steps)
    ensures Inv(Run(s0, steps)) && Run(s0, steps).setup == s0.setup
  {
    InitialInv(s0);
    RunKeeps(s0, steps);
    SetupStays(s0, steps);
  }

  // ---------------------------------------------------------------- closing

  function TasksRun<T>(steps: seq<Step<T>>): nat {
    if steps == [] then 0 else (if steps[0].Posted? then 1 else 0) + TasksRun(steps[1..])
  }

  /** Once a close is posted on a running connection, running the handlers posted up to it closes the
      connection, with exactly one on_close however many closes were posted. */
  lemma {:induction false} CloseDrains<T(!new)>(s: Conn<T>, steps: seq<Step<T>>, i: nat)
    requires Inv(s) && s.stage.Opened? && Legal(s, steps)
    requires !s.running || (i < |s.posted| && s.posted[i] == Stop && i < TasksRun(steps))
    ensures var t := Run(s, steps);
            !t.running && t.stage.Opened? && (t.setup.service ==> Closes(t.trace) == 1)
    decreases |steps|
  {
    if steps != [] {
      var t := Next(s, steps[0]);
      StepKeeps(s, steps[0]);
      StepEvents(s, steps[0]);
      RunningStep(s, steps[0]);
      if t.running {
        var j := if steps[0].Posted? then i - 1 else i;
        CloseDrains(t, steps[1..], j);
      } else {
        CloseDrains(t, steps[1..], 0);
      }
    }
  }

  /** An open connection stays open until a posted stop runs, and is never started again. */
  lemma RunningStep<T(!new)>(s: Conn<T>, step: Step<T>)
    requires Inv(s) && Enabled(s, step) && s.stage.Opened?
    ensures Next(s, step).stage.Opened?
    ensures Next(s, step).running == (s.running && !(step.Posted? && s.posted[0].Stop?))
  {
    match step
    case Posted(cb) => TaskEvents(s, cb);
    case ReadDone(ok, data, cb) => RecvEvents(s, ok, data, cb);
    case WriteDone(ok, cb) => SendEvents(s, ok, cb);
    case Api(c) =>
  }

  /** What ends a connection: a read or write error, or an opening, receive or send callback that returns
      false. */
  ghost predicate Fatal<T(!new)>(s: Conn<T>, step: Step<T>)
    requires Enabled(s, step)
  {
    match step
    case ReadDone(ok, _, cb) => !ok || (Announcement(s, step) != [] && !cb.ok)
    case WriteDone(ok, cb) => !ok || (Announcement(s, step) != [] && !cb.ok)
    case Handshook(_, cb) => Announcement(s, step) != [] && !cb.ok
    case Posted(cb) => Announcement(s, step) == [OpenEvent(s)] && !cb.ok
    case _ => false
  }

  ghost predicate AnyFatal<T(!new)>(s: Conn<T>, steps: seq<Step<T>>)
    requires Legal(s, steps)
    decreases |steps|
  {
    steps != [] && (Fatal(s, steps[0]) || AnyFatal(Next(s, steps[0]), steps[1..]))
  }

  /** Closed, or about to be. */
  predicate Doomed<T>(s: Conn<T>) {
    s.stage.Opened? && (Stop in s.posted || !s.running)
  }

  lemma FatalDooms<T(!new)>(s: Conn<T>, step: Step<T>)
    requires Inv(s) && Enabled(s, step) && Fatal(s, step)
    ensures Doomed(Next(s, step))
  {
    match step
    case Handshook(ok, cb) => RefusedOpening(s, cb);
    case Posted(cb) => RefusedOpening(s.(posted := s.posted[1..]), cb);
    case ReadDone(ok, data, cb) => RefusedRead(s, ok, data, cb);
    case WriteDone(ok, cb) => RefusedWrite(s, ok, cb);
  }

  lemma RefusedRead<T(!new)>(s: Conn<T>, ok: bool, data: seq<T>, cb: Callback)
    requires Inv(s) && Enabled(s, ReadDone(ok, data, cb)) && Fatal(s, ReadDone(ok, data, cb))
    ensures Doomed(HandleRecv(s, ok, data, cb))
  {
    assert s.stage.Opened?;
    RecvEvents(s, ok, data, cb);
  }

  lemma RefusedWrite<T(!new)>(s: Conn<T>, ok: bool, cb: Callback)
    requires Inv(s) && s.queue.outstanding != [] && Fatal(s, WriteDone(ok, cb))
    ensures Doomed(HandleSend(s, ok, cb))
  {
    assert s.stage.Opened?;
    SendEvents(s, ok, cb);
    SentByCompletion(s, WriteDone(ok, cb));
    if ok {
      DrainingWrite(s, ok, cb);
    }
  }

  lemma RefusedOpening<T(!new)>(s: Conn<T>, cb: Callback)
    requires s.setup.service && !cb.ok
    ensures Doomed(HandleHandshake(s, true, cb))
  {
    InvokeFrame(s.(running := true, stage := Opened), OpenEvent(s), cb);
  }

  lemma DoomedStays<T(!new)>(s: Conn<T>, step: Step<T>)
    requires Inv(s) && Enabled(s, step) && Doomed(s)
    ensures Doomed(Next(s, step))
  {
    RunningStep(s, step);
    StepEvents(s, step);
  }

  lemma {:induction false} EndsDoomed<T(!new)>(s: Conn<T>, steps: seq<Step<T>>)
    requires Inv(s) && Legal(s, steps) && (Doomed(s) || AnyFatal(s, steps))
    ensures Doomed(Run(s, steps))
    decreases |steps|
  {
    if steps != [] {
      StepKeeps(s, steps[0]);
      if Doomed(s) {
        DoomedStays(s, steps[0]);
      } else if Fatal(s, steps[0]) {
        FatalDooms(s, steps[0]);
      }
      EndsDoomed(Next(s, steps[0]), steps[1..]);
    }
  }

  /** A run that has emptied the posted queue after a read or write error, or after an opening, receive or
      send callback that returned false, has closed the connection, once. */
  lemma ErrorsClose<T(!new)>(s0: Conn<T>, steps: seq<Step<T>>)
    requires Initial(s0) && Legal(s0, steps) && s0.setup.service
    requires AnyFatal(s0, steps) && Run(s0, steps).posted == []
    ensures var s := Run(s0, steps); s.stage.Opened? && !s.running && Closes(s.trace) == 1
  {
    InitialInv(s0);
    EndsDoomed(s0, steps);
    RunKeeps(s0, steps);
    SetupStays(s0, steps);
  }

  // ---------------------------------------------------------------- is on_close the last callback?

  ghost predicate CloseIsLast(trace: seq<Event>) {
    forall i | 0 <= i < |trace| - 1 :: trace[i] != OnClose
  }

  /** A completion without error that runs after the connection was closed and finds bytes to
      announce or a queue to report as drained. */
  ghost predicate Late<T(!new)>(s: Conn<T>, step: Step<T>) {
    && s.setup.service && s.stage.Opened? && !s.running
    && match step
       case ReadDone(ok, data, _) => ok && (s.setup.kind.Udp? || |s.inbox.unread| + |data| >= s.inbox.mark)
       case WriteDone(ok, _) => ok && |s.queue.deque| == 1
       case _ => false
  }

  ghost predicate NoneLate<T(!new)>(s: Conn<T>, steps: seq<Step<T>>)
    requires Legal(s, steps)
    decreases |steps|
  {
    steps != [] ==> !Late(s, steps[0]) && NoneLate(Next(s, steps[0]), steps[1..])
  }

  /** The promise that on_close is the last callback is kept by exactly the runs in which no completion
      without error runs after the close: the handlers do not look at m_running. */
  lemma CloseIsLastIff<T(!new)>(s0: Conn<T>, steps: seq<Step<T>>)
    requires Initial(s0) && Legal(s0, steps)
    ensures CloseIsLast(Run(s0, steps).trace) <==> NoneLate(s0, steps)
  {
    InitialInv(s0);
    CloseIsLastFrom(s0, steps);
  }

  lemma {:induction false} CloseIsLastFrom<T(!new)>(s: Conn<T>, steps: seq<Step<T>>)
    requires Inv(s) && Legal(s, steps)
    ensures CloseIsLast(Run(s, steps).trace) <==> CloseIsLast(s.trace) && NoneLate(s, steps)
    decreases |steps|
  {
    if steps != [] {
      StepKeeps(s, steps[0]);
      LateStep(s, steps[0]);
      CloseIsLastFrom(Next(s, steps[0]), steps[1..]);
    }
  }

  lemma LateStep<T(!new)>(s: Conn<T>, step: Step<T>)
    requires Inv(s) && Enabled(s, step)
    ensures CloseIsLast(Next(s, step).trace) <==> CloseIsLast(s.trace) && !Late(s, step)
  {
    TraceStep(s, step);
    var more := Announcement(s, step);
    if more == [] {
      assert s.trace + [] == s.trace;
      NoAnnouncementNotLate(s, step);
    } else {
      OneAnnouncement(s, step);
      LastAfterAppend(s.trace, more[0]);
      LateIsAnnouncedAfterClose(s, step);
      CloseAtMostOnce(s);
    }
  }

  lemma OneAnnouncement<T(!new)>(s: Conn<T>, step: Step<T>)
    requires Enabled(s, step)
    ensures |Announcement(s, step)| <= 1
    ensures Announcement(s, step) != [] ==> Announcement(s, step) == [Announcement(s, step)[0]]
  {
  }

  lemma LastAfterAppend(trace: seq<Event>, e: Event)
    ensures CloseIsLast(trace + [e]) <==> OnClose !in trace
  {
    assert forall i | 0 <= i < |trace| :: (trace + [e])[i] == trace[i];
  }

  /** While on_close has not been called it is not followed by anything. */
  lemma CloseAtMostOnce<T(!new)>(s: Conn<T>)
    ensures OnClose !in s.trace ==> CloseIsLast(s.trace)
  {
  }

  lemma NoAnnouncementNotLate<T(!new)>(s: Conn<T>, step: Step<T>)
    requires Inv(s) && Enabled(s, step) && Announcement(s, step) == []
    ensures !Late(s, step)
  {
  }

  lemma LateIsAnnouncedAfterClose<T(!new)>(s: Conn<T>, step: Step<T>)
    requires Inv(s) && Enabled(s, step) && Announcement(s, step) != []
    ensures Late(s, step) <==> OnClose in s.trace
  {
    ClosedIffTold(s);
    if step.WriteDone? {
      LastWrite(s);
    }
  }

  lemma ClosedIffTold<T(!new)>(s: Conn<T>)
    requires Inv(s) && s.setup.service
    ensures OnClose in s.trace <==> s.stage.Opened? && !s.running
  {
  }

  /** The write in flight is the last when it is of the only pack. */
  lemma LastWrite<T(!new)>(s: Conn<T>)
    requires Inv(s) && s.queue.outstanding != []
    ensures s.queue.sent + [s.queue.outstanding[0]] == Q.Pushed(s.queue) <==> |s.queue.deque| == 1
    ensures s.stage.Opened?
  {
    Q.FinishKeeps(s.queue);
    assert Q.Pushed(s.queue) == s.queue.sent + [s.queue.outstanding[0]] + Q.Finish(s.queue).deque;
  }

  /** A run that breaks the promise: a byte that had already arrived when the close was posted. */
  lemma LateReadAfterClose()
    ensures var s0: Conn<byte> := Fresh(Setup(Tcp, true, false, true), Scheduled, [Start]);
            var yes := Callback([], true);
            var steps := [Posted(yes), Api(Close), Posted(yes), ReadDone(true, [7], yes)];
            && Initial(s0) && Legal(s0, steps)
            && Run(s0, steps).trace == [OnAccept, OnClose, OnRecv]
  {
    var s0: Conn<byte> := Fresh(Setup(Tcp, true, false, true), Scheduled, [Start]);
    var yes := Callback([], true);
    var read := ReadDone(true, [7], yes);
    var s1, s2 := OpenThenClose(s0, yes);
    var s3 := RunTask(s2, yes);
    assert Apply(s1, Close) == s2;
    assert ApplyAll(Receive(Idle(s3), [7]).(trace := s3.trace + [OnRecv]), []).trace == [OnAccept, OnClose, OnRecv];
    FourSteps(s0, s1, s2, s3, Next(s3, read), Posted(yes), Api(Close), Posted(yes), read);
  }

  lemma FourSteps<T(!new)>(s0: Conn<T>, s1: Conn<T>, s2: Conn<T>, s3: Conn<T>, s4: Conn<T>,
                           a: Step<T>, b: Step<T>, c: Step<T>, d: Step<T>)
    requires Enabled(s0, a) && s1 == Next(s0, a) && Enabled(s1, b) && s2 == Next(s1, b)
    requires Enabled(s2, c) && s3 == Next(s2, c) && Enabled(s3, d) && s4 == Next(s3, d)
    ensures Legal(s0, [a, b, c, d]) && Run(s0, [a, b, c, d]) == s4
  {
    LegalCons(s3, d, []);
    LegalCons(s2, c, [d] + []);
    LegalCons(s1, b, [c] + ([d] + []));
    LegalCons(s0, a, [b] + ([c] + ([d] + [])));
    assert [a] + ([b] + ([c] + ([d] + []))) == [a, b, c, d];
  }

  lemma OpenThenClose(s0: Conn<byte>, yes: Callback) returns (s1: Conn<byte>, s2: Conn<byte>)
    requires s0 == Fresh(Setup(Tcp, true, false, true), Scheduled, [Start]) && yes == Callback([], true)
    ensures s1 == RunTask(s0, yes) && s2 == Apply(s1, Close)
    ensures s1.stage.Opened? && s1.setup.service && s2.posted == [Stop]
    ensures var s3 := RunTask(s2, yes);
            && s3.inbox.reading == 1 && s3.setup.service && s3.inbox.unread == [] && s3.inbox.mark == 1
            && s3.setup.kind.Tcp? && s3.trace == [OnAccept, OnClose]
  {
    s1 := RunTask(s0, yes);
    assert ApplyAll(s1, yes.calls) == s1;
    s2 := Apply(s1, Close);
  }

  lemma LegalCons<T(!new)>(s: Conn<T>, step: Step<T>, rest: seq<Step<T>>)
    requires Enabled(s, step) && Legal(Next(s, step), rest)
    ensures Legal(s, [step] + rest) && Run(s, [step] + rest) == Run(Next(s, step), rest)
  {
    assert ([step] + rest)[1..] == rest;
  }

  // ---------------------------------------------------------------- receiving

  /** What successful reads delivered is what user code consumed followed by what is still unread, and
      one read is outstanding exactly while the connection reads on. */
  lemma ReceiveConservation<T(!new)>(s0: Conn<T>, steps: seq<Step<T>>)
    requires Initial(s0) && Legal(s0, steps)
    ensures var s := Run(s0, steps);
            && s.inbox.delivered == s.inbox.consumed + s.inbox.unread
            && s.inbox.reading == (if s.stage.Opened? && !s.inbox.ended then 1 else 0)
  {
    InitialInv(s0);
    RunKeeps(s0, steps);
  }

  /** After the first read error, or the first opening or receive callback that returned false, no
      byte is ever received again. */
  lemma {:induction false} EndedForGood<T(!new)>(s: Conn<T>, steps: seq<Step<T>>)
    requires Inv(s) && s.inbox.ended && Legal(s, steps)
    ensures var t := Run(s, steps); t.inbox.ended && t.inbox.reading == 0 && t.inbox.delivered == s.inbox.delivered
    decreases |steps|
  {
    if steps != [] {
      StepKeeps(s, steps[0]);
      EndedStep(s, steps[0]);
      EndedForGood(Next(s, steps[0]), steps[1..]);
    }
  }

  lemma EndedStep<T(!new)>(s: Conn<T>, step: Step<T>)
    requires Inv(s) && s.inbox.ended && Enabled(s, step)
    ensures Next(s, step).inbox.ended && Next(s, step).inbox.delivered == s.inbox.delivered
  {
    match step
    case Posted(cb) => TaskEvents(s, cb);
    case WriteDone(ok, cb) => SendEvents(s, ok, cb);
    case Api(c) =>
  }
}
