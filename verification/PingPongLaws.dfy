/** Safety, termination and outcome of the two-party protocol, over every run. */
module PingPongLaws {
  import opened Octets
  import opened Frames
  import opened ConnectionMachine
  import opened TestProtocol
  import opened PingPong
  import opened PingPongSteps
  import I = ConnectionInvariant
  import Q = SendQueue

  // ---------------------------------------------------------------- one move

  lemma PushAct(max: nat, me: Side, peer: Side)
    requires SideInv(me) && Can(me, peer, Run) && me.conn.posted[0].Push?
    ensures var (t, p, sound) := Act(max, me, peer, Run); p == peer && sound && Unmoved(me, t)
  {
    PushMove(me);
    assert RunReply(max, me) == Silence(me.count);
  }

  lemma TransmitAct(max: nat, me: Side, peer: Side, n: nat)
    requires SideInv(me) && Can(me, peer, Transmit(n))
    ensures var (t, p, sound) := Act(max, me, peer, Transmit(n)); p == peer && sound && Unmoved(me, t)
  {
    var front := me.conn.queue.outstanding[0];
    var t := me.(wire := me.wire + front[me.off..me.off + n], off := me.off + n);
    assert Act(max, me, peer, Transmit(n)) == (t, peer, true);
    assert Unmoved(me, t) by {
      TransmitMove(me, n);
    }
  }

  lemma WroteAct(max: nat, me: Side, peer: Side)
    requires SideInv(me) && Can(me, peer, Wrote(true))
    ensures var (t, p, sound) := Act(max, me, peer, Wrote(true)); p == peer && sound && Unmoved(me, t)
  {
    var t := me.(conn := HandleSend(me.conn, true, Callback([], true)), off := 0);
    assert Act(max, me, peer, Wrote(true)) == (t, peer, true);
    assert Unmoved(me, t) by {
      WroteMove(me);
    }
  }

  /** Whatever `me` does to push bytes along. */
  lemma PlainMove(max: nat, me: Side, peer: Side, m: Move)
    requires SideInv(me) && Can(me, peer, m)
    requires m.Transmit? || m == Wrote(true) || (m.Run? && me.conn.posted[0].Push?)
    ensures var (t, p, sound) := Act(max, me, peer, m); p == peer && sound && Unmoved(me, t)
  {
    match m
    case Transmit(n) => TransmitAct(max, me, peer, n);
    case Wrote(_) => WroteAct(max, me, peer);
    case Run => PushAct(max, me, peer);
    case Read(_, _) =>
  }

  lemma ClosingMove(max: nat, me: Side, peer: Side, m: Move)
    requires SideInv(me) && Can(me, peer, m) && me.count >= max
    requires m == Wrote(false) || (m.Read? && !m.ok) || (m.Run? && me.conn.posted[0].Stop?)
    ensures var (t, p, sound) := Act(max, me, peer, m); p == peer && sound && Closing(me, t)
  {
    match m
    case Wrote(_) => WriteFails(me);
    case Read(_, _) => ReadFails(me);
    case Run => StopMove(me);
  }

  /** A start handler is still to run only on a connection that has not opened. */
  lemma StartIsScheduled(s: Side)
    requires SideInv(s) && s.conn.posted != [] && s.conn.posted[0].Start?
    ensures s.conn.stage.Scheduled?
  {
  }

  lemma OverCounts(max: nat, a: Side, b: Side)
    requires Over(max, a, b)
    ensures a.count == max && b.count == max
  {
  }

  /** The two sides after a move, assertions included. */
  ghost predicate Kept(max: nat, client: Side, server: Side, client': Side, server': Side, sound: bool) {
    && sound && SideInv(client') && SideInv(server') && Phase(max, client', server')
    && client'.conn.setup == client.conn.setup && server'.conn.setup == server.conn.setup
  }

  ghost predicate Ready(max: nat, client: Side, server: Side) {
    && max <= MAX_COUNT && SideInv(client) && SideInv(server) && Phase(max, client, server)
    && !client.conn.setup.passive && server.conn.setup.passive
  }

  /** Bytes on a wire belong to the frame in flight. */
  lemma WireFlies(max: nat, client: Side, server: Side)
    requires Phase(max, client, server)
    ensures client.wire != [] ==> Flying(max, client, server)
    ensures server.wire != [] ==> Flying(max, server, client)
  {
    if client.wire != [] {
      assert Outgoing(client) != [];
    }
    if server.wire != [] {
      assert Outgoing(server) != [];
    }
  }

  /** A connection that has not opened is the client's while waiting, or the server's before it has
      received anything. */
  lemma ScheduledPhase(max: nat, client: Side, server: Side)
    requires Phase(max, client, server) && server.conn.setup.passive
    ensures client.conn.stage.Scheduled? ==> Waiting(max, client, server)
    ensures server.conn.stage.Scheduled? ==> Waiting(max, client, server) || Flying(max, client, server)
  {
    assert Flying(max, server, client) && client.conn.stage.Scheduled? ==> server.count == 1;
  }

  lemma ClientCloses(max: nat, client: Side, server: Side, m: Move)
    requires Ready(max, client, server) && Can(client, server, m)
    requires m == Wrote(false) || (m.Read? && !m.ok) || (m.Run? && client.conn.posted[0].Stop?)
    ensures var (me, peer, sound) := Act(max, client, server, m);
            Kept(max, client, server, me, peer, sound)
  {
    NoCloseBeforeTheEnd(max, client, server);
    OverCounts(max, client, server);
    ClosingMove(max, client, server, m);
    ClosingKeepsOver(max, client, server, Act(max, client, server, m).0);
  }

  lemma ServerCloses(max: nat, client: Side, server: Side, m: Move)
    requires Ready(max, client, server) && Can(server, client, m)
    requires m == Wrote(false) || (m.Read? && !m.ok) || (m.Run? && server.conn.posted[0].Stop?)
    ensures var (me, peer, sound) := Act(max, server, client, m);
            Kept(max, client, server, peer, me, sound)
  {
    NoCloseBeforeTheEnd(max, client, server);
    OverCounts(max, server, client);
    ClosingMove(max, server, client, m);
    ClosingKeepsOver(max, server, client, Act(max, server, client, m).0);
  }

  lemma ClientStarts(max: nat, client: Side, server: Side)
    requires Ready(max, client, server) && Can(client, server, Run) && client.conn.posted[0].Start?
    ensures var (me, peer, sound) := Act(max, client, server, Run);
            Kept(max, client, server, me, peer, sound)
  {
    StartIsScheduled(client);
    ScheduledPhase(max, client, server);
    ConnectStarts(max, client, server);
  }

  lemma ClientMoves(max: nat, client: Side, server: Side, m: Move)
    requires Ready(max, client, server) && Can(client, server, m)
    ensures var (me, peer, sound) := Act(max, client, server, m);
            Kept(max, client, server, me, peer, sound)
  {
    if m.Transmit? || m == Wrote(true) || (m.Run? && client.conn.posted[0].Push?) {
      PlainMove(max, client, server, m);
      UnmovedKeepsSender(max, client, server, Act(max, client, server, m).0);
    } else if m.Run? && client.conn.posted[0].Start? {
      ClientStarts(max, client, server);
    } else if m.Read? && m.ok {
      WireFlies(max, client, server);
      ReceiverReads(max, server, client, m.n);
    } else {
      ClientCloses(max, client, server, m);
    }
  }

  lemma ServerMoves(max: nat, client: Side, server: Side, m: Move)
    requires Ready(max, client, server) && Can(server, client, m)
    ensures var (me, peer, sound) := Act(max, server, client, m);
            Kept(max, client, server, peer, me, sound)
  {
    if m.Transmit? || m == Wrote(true) || (m.Run? && server.conn.posted[0].Push?) {
      PlainMove(max, server, client, m);
      UnmovedKeepsServer(max, client, server, Act(max, server, client, m).0);
    } else if m.Run? && server.conn.posted[0].Start? {
      StartIsScheduled(server);
      ScheduledPhase(max, client, server);
      AcceptStarts(max, client, server);
    } else if m.Read? && m.ok {
      WireFlies(max, client, server);
      ReceiverReads(max, client, server, m.n);
    } else {
      ServerCloses(max, client, server, m);
    }
  }

  /** Every move of either party keeps the invariant; in particular no assertion ever fails. */
  lemma MoveKeeps(s: Sys, byClient: bool, m: Move)
    requires SysInv(s) && SysCan(s, byClient, m)
    ensures SysInv(SysNext(s, byClient, m)) && SysNext(s, byClient, m).max == s.max
  {
    if byClient {
      ClientMoves(s.max, s.client, s.server, m);
    } else {
      ServerMoves(s.max, s.client, s.server, m);
    }
  }

  lemma {:induction false} RunKeeps(s: Sys, run: seq<(bool, Move)>)
    requires SysInv(s) && SysLegal(s, run)
    ensures SysInv(SysRun(s, run)) && SysRun(s, run).max == s.max
    decreases |run|
  {
    if run != [] {
      MoveKeeps(s, run[0].0, run[0].1);
      RunKeeps(SysNext(s, run[0].0, run[0].1), run[1..]);
    }
  }

  // ---------------------------------------------------------------- safety

  /** What `r` holds of the frame coming from `s`: nothing, or a strict prefix that its water mark will
      not let it wait beyond. */
  ghost predicate HoldsPart(r: Side, s: Side) {
    || r.conn.inbox.unread + Outgoing(s) == []
    || (&& s.count == r.count + 1 && r.conn.inbox.unread + Outgoing(s) == Frame(s.count)
        && |r.conn.inbox.unread| < |Frame(s.count)| && r.conn.inbox.mark <= |Frame(s.count)|
        && (|r.conn.inbox.unread| >= 2 ==> r.conn.inbox.mark == |Frame(s.count)|))
  }

  /** The parties are at most one frame apart, odd frames going to the server and even ones to the client;
      what a party holds or can still expect is nothing or exactly the frame its peer counted last, never
      the whole of it unconsumed; and a connection has closed only after both parties reached the bound. */
  ghost predicate Safe(max: nat, client: Side, server: Side) {
    && client.count <= max && server.count <= max
    && (client.count > server.count ==> client.count == server.count + 1 && client.count % 2 == 1)
    && (server.count > client.count ==> server.count == client.count + 1 && server.count % 2 == 0)
    && HoldsPart(client, server) && HoldsPart(server, client)
    && (client.conn.inbox.unread + Outgoing(server) == [] || server.conn.inbox.unread + Outgoing(client) == [])
    && (Closed(client) || Closed(server) ==> client.count == max && server.count == max)
  }

  /** In every reachable state no assertion has failed and the protocol is in order. */
  lemma PingPongSafe(sendTimes: nat, run: seq<(bool, Move)>)
    requires SysLegal(SysInit(sendTimes), run)
    ensures var s := SysRun(SysInit(sendTimes), run);
            s.sound && Safe(s.max, s.client, s.server) && Exchanged(sendTimes, s.max)
  {
    InitInv(sendTimes);
    RunKeeps(SysInit(sendTimes), run);
    MaxStays(SysInit(sendTimes), run);
    BoundIsExchanged(sendTimes);
    var s := SysRun(SysInit(sendTimes), run);
    PhaseSafe(s.max, s.client, s.server);
  }

  lemma PhaseSafe(max: nat, client: Side, server: Side)
    requires Phase(max, client, server) && !client.conn.setup.passive && server.conn.setup.passive
    ensures Safe(max, client, server)
  {
    if Flying(max, client, server) {
      FlyingSafe(max, client, server);
    } else if Flying(max, server, client) {
      FlyingSafe(max, server, client);
    } else {
      QuietSafe(max, client, server);
    }
  }

  lemma FlyingSafe(max: nat, s: Side, r: Side)
    requires Flying(max, s, r)
    ensures HoldsPart(r, s) && s.conn.inbox.unread + Outgoing(r) == [] && !Closed(s) && !Closed(r)
    ensures s.count == r.count + 1 && s.count <= max && ((s.count % 2 == 1) == !s.conn.setup.passive)
  {
    FrameShape(s.count);
  }

  lemma QuietSafe(max: nat, client: Side, server: Side)
    requires Waiting(max, client, server) || Over(max, client, server)
    ensures client.conn.inbox.unread + Outgoing(server) == [] && server.conn.inbox.unread + Outgoing(client) == []
    ensures client.count == server.count <= max
    ensures Closed(client) || Closed(server) ==> client.count == max
  {
  }

  // ---------------------------------------------------------------- termination

  function TaskWork(posted: seq<Task>): nat {
    if posted == [] then 0
    else (match posted[0] case Start => 4 case Stop => 1 case Push(_) => 4) + TaskWork(posted[1..])
  }

  lemma {:induction false} TaskWorkConcat(a: seq<Task>, b: seq<Task>)
    ensures TaskWork(a + b) == TaskWork(a) + TaskWork(b)
  {
    if a == [] {
      assert a + b == b;
    } else {
      assert (a + b)[0] == a[0] && (a + b)[1..] == a[1..] + b;
      TaskWorkConcat(a[1..], b);
    }
  }

  lemma {:induction false} TaskWorkPushes(packs: seq<Bytes>)
    ensures TaskWork(Pushes(packs)) == 4 * |packs|
  {
    if packs != [] {
      TaskWorkPushes(packs[1..]);
      assert Pushes(packs)[1..] == Pushes(packs[1..]);
    }
  }

  /** What a party still has to do with what it has already been given. */
  function Work(s: Side): nat {
    TaskWork(s.conn.posted) + |s.conn.queue.deque| + 2 * |s.conn.queue.outstanding|
    + 2 * s.conn.inbox.reading + 2 * |Backlog(s)| + |s.wire|
  }

  /** More work than one frame can bring. */
  const FRAME_WORK: nat := 200000

  /** Bounds the number of moves left. */
  function Budget(s: Sys): int {
    FRAME_WORK * (2 * s.max - s.client.count - s.server.count) + Work(s.client) + Work(s.server)
  }

  lemma SameBacklog(s: Side, t: Side)
    requires t.wire == s.wire && Outgoing(t) == Outgoing(s)
    ensures Backlog(t) == Backlog(s)
  {
    assert Outgoing(s)[|s.wire|..] == Backlog(s);
    assert Outgoing(t)[|s.wire|..] == Backlog(t);
  }

  lemma PushWork(max: nat, s: Side)
    requires SideInv(s) && s.conn.posted != [] && s.conn.posted[0].Push?
    ensures Work(s.(conn := RunTask(s.conn, Callback([], true)))) < Work(s)
  {
    var t := s.(conn := RunTask(s.conn, Callback([], true)));
    PushMove(s);
    SameBacklog(s, t);
  }

  lemma TransmitWork(s: Side, n: nat)
    requires SideInv(s) && s.conn.queue.outstanding != [] && 1 <= n && s.off + n <= |s.conn.queue.outstanding[0]|
    ensures Work(s.(wire := s.wire + s.conn.queue.outstanding[0][s.off..s.off + n], off := s.off + n)) < Work(s)
  {
    var t := s.(wire := s.wire + s.conn.queue.outstanding[0][s.off..s.off + n], off := s.off + n);
    TransmitMove(s, n);
    assert |Outgoing(s)| == |s.wire| + |Backlog(s)|;
    assert |Outgoing(t)| == |t.wire| + |Backlog(t)|;
  }

  lemma WroteWork(s: Side)
    requires SideInv(s) && s.conn.queue.outstanding != [] && s.off == |s.conn.queue.outstanding[0]|
    ensures Work(s.(conn := HandleSend(s.conn, true, Callback([], true)), off := 0)) < Work(s)
  {
    var t := s.(conn := HandleSend(s.conn, true, Callback([], true)), off := 0);
    WroteMove(s);
    SameBacklog(s, t);
    Q.FinishKeeps(s.conn.queue);
    assert t.conn.queue == Q.Finish(s.conn.queue) && t.conn.posted == s.conn.posted;
  }

  lemma StopWork(s: Side)
    requires SideInv(s) && s.conn.posted != [] && s.conn.posted[0] == Stop
    ensures Work(s.(conn := RunTask(s.conn, Callback([], true)))) < Work(s)
  {
    var t := s.(conn := RunTask(s.conn, Callback([], true)));
    StopMove(s);
    SameBacklog(s, t);
  }

  lemma WriteFailsWork(s: Side)
    requires SideInv(s) && s.conn.queue.outstanding != []
    ensures Work(s.(conn := HandleSend(s.conn, false, Callback([], true)))) < Work(s)
  {
    var t := s.(conn := HandleSend(s.conn, false, Callback([], true)));
    WriteFails(s);
    SameBacklog(s, t);
    TaskWorkConcat(s.conn.posted, [Stop]);
    assert TaskWork([Stop]) == 1;
  }

  lemma ReadFailsWork(s: Side)
    requires SideInv(s) && s.conn.inbox.reading > 0
    ensures Work(s.(conn := HandleRecv(s.conn, false, [], Callback([], true)))) < Work(s)
  {
    var t := s.(conn := HandleRecv(s.conn, false, [], Callback([], true)));
    ReadFails(s);
    SameBacklog(s, t);
    TaskWorkConcat(s.conn.posted, [Stop]);
    assert TaskWork([Stop]) == 1;
  }

  lemma StartWork(max: nat, me: Side, packs: seq<Bytes>)
    requires SideInv(me) && Lively(me) && me.conn.stage.Scheduled? && Outgoing(me) == [] && [] !in packs
    ensures me.conn.posted == [Start]
    ensures Work(me.(conn := RunTask(me.conn, Callback(Fills(packs), true)))) ==
            Work(me) - 2 + 4 * |packs| + 2 * |Flatten(packs)|
  {
    var t := me.(conn := RunTask(me.conn, Callback(Fills(packs), true)));
    StartMove(me, packs);
    OpenEffect(me.conn, packs);
    TaskWorkPushes(packs);
    NothingOutgoing(me);
    assert |Backlog(t)| == |Flatten(packs)| by {
      assert Outgoing(t) == [] + Backlog(t);
    }
    assert TaskWork(me.conn.posted) == 4 && TaskWork(t.conn.posted) == 4 * |packs|;
    assert t.conn.queue == Q.Empty() && t.wire == [] && t.conn.inbox.reading == 1 && me.conn.inbox.reading == 0;
  }

  lemma AcceptWork(max: nat, me: Side, peer: Side)
    requires SideInv(me) && Lively(me) && me.conn.stage.Scheduled? && Outgoing(me) == []
    requires me.conn.setup.passive && me.count == 0 && Can(me, peer, Run)
    ensures var (t, _, _) := Act(max, me, peer, Run); Work(t) < Work(me) && t.count == 0
  {
    StartWork(max, me, []);
    assert Fills([]) == [] && Flatten([]) == [];
    assert RunReply(max, me) == OnAcceptReply();
  }

  lemma ConnectWork(max: nat, me: Side, peer: Side)
    requires SideInv(me) && Lively(me) && me.conn.stage.Scheduled? && Outgoing(me) == []
    requires !me.conn.setup.passive && me.count == 0 && Can(me, peer, Run)
    ensures var (t, _, _) := Act(max, me, peer, Run);
            && t.count == (if max == 0 then 0 else 1)
            && Work(t) < Work(me) + FRAME_WORK * t.count
  {
    var packs := if max == 0 then [] else FramePacks(1);
    FramePacksNonEmpty(1);
    FrameShape(1);
    StartWork(max, me, packs);
    ConnectReply(max, me, packs);
    assert Flatten([]) == [] && |Flatten(packs)| <= FrameLen(1) && |packs| <= 3;
  }

  lemma ConnectReply(max: nat, me: Side, packs: seq<Bytes>)
    requires me.conn.posted != [] && me.conn.posted[0].Start? && !me.conn.setup.passive
    requires packs == if max == 0 then [] else FramePacks(1)
    ensures RunReply(max, me) == Reply(Callback(Fills(packs), true), if max == 0 then 0 else 1, true)
  {
    assert Fills([]) == [];
  }

  /** A read of the frame in flight: either bytes left the wire, or a frame was consumed and at most one
      more was sent. */
  lemma ReadWork(max: nat, s: Side, r: Side, n: nat)
    requires max <= MAX_COUNT && SideInv(s) && SideInv(r) && Flying(max, s, r) && Can(r, s, Read(true, n))
    ensures var (me, peer, _) := Act(max, r, s, Read(true, n));
            && r.count <= me.count && peer.count == s.count
            && Work(me) + Work(peer) < Work(r) + Work(s) + FRAME_WORK * (me.count - r.count)
  {
    var k, data := s.count, s.wire[..n];
    var peer := s.(wire := s.wire[n..]);
    PrefixOfFrame(k, r.conn.inbox.unread, s.wire, Backlog(s), n);
    assert Work(peer) == Work(s) - n;
    var u := r.conn.inbox.unread + data;
    if |u| < FrameLen(k) {
      PartialReadWork(max, r, data, k);
    } else {
      ConsumedWork(max, r, data, k);
    }
  }

  lemma PartialReadWork(max: nat, me: Side, data: Bytes, k: nat)
    requires SideInv(me) && Lively(me) && me.conn.inbox.reading > 0 && max >= 1
    requires var u := me.conn.inbox.unread + data;
             |u| < FrameLen(k) && (|u| >= 2 ==> NeedLen(u) == FrameLen(k))
    ensures var r := ReadReply(max, me, data);
            var t := me.(conn := HandleRecv(me.conn, true, data, r.cb), count := r.count);
            Work(t) == Work(me) && t.count == me.count
  {
    var r := ReadReply(max, me, data);
    PartialRead(max, me, data, k);
    SameBacklog(me, me.(conn := HandleRecv(me.conn, true, data, r.cb), count := r.count));
  }

  lemma ConsumedWork(max: nat, me: Side, data: Bytes, k: nat)
    requires SideInv(me) && Lively(me) && me.conn.inbox.reading > 0 && 1 <= k <= max <= MAX_COUNT
    requires me.count == k - 1 && me.conn.inbox.unread + data == Frame(k) && me.conn.inbox.mark <= FrameLen(k)
    requires Outgoing(me) == []
    ensures var r := ReadReply(max, me, data);
            var t := me.(conn := HandleRecv(me.conn, true, data, r.cb), count := r.count);
            me.count < t.count && Work(t) < Work(me) + FRAME_WORK
  {
    var r := ReadReply(max, me, data);
    var t := me.(conn := HandleRecv(me.conn, true, data, r.cb), count := r.count);
    FrameConsumed(max, me, data, k);
    ReadsOnce(t);
    ConsumedTasks(max, k, me, t);
  }

  lemma ConsumedTasks(max: nat, k: nat, me: Side, t: Side)
    requires 1 <= k <= max <= MAX_COUNT && t.conn.inbox.reading <= me.conn.inbox.reading
    requires Answered(max, k, me, t)
    ensures Work(t) < Work(me) + FRAME_WORK
  {
    if k < max {
      AnsweredTasks(k + 1, me, t);
    } else {
      EndedTasks(me, t);
    }
  }

  lemma AnsweredTasks(k: nat, s: Side, t: Side)
    requires 1 <= k <= MAX_COUNT && t.conn.posted == s.conn.posted + Pushes(FramePacks(k)) && Outgoing(t) == Frame(k)
    requires t.conn.queue == s.conn.queue && t.wire == s.wire == [] && t.conn.inbox.reading <= s.conn.inbox.reading
    ensures Work(t) < Work(s) + FRAME_WORK
  {
    assert |Outgoing(t)| == |Backlog(t)|;
    AnswerTasks(s.conn.posted, k);
    WorkGrows(s, t, FRAME_WORK - 3);
  }

  lemma EndedTasks(s: Side, t: Side)
    requires t.conn.posted == s.conn.posted + [Stop, Stop] && Outgoing(t) == []
    requires t.conn.queue == s.conn.queue && t.wire == s.wire == [] && t.conn.inbox.reading <= s.conn.inbox.reading
    ensures Work(t) < Work(s) + FRAME_WORK
  {
    assert |Outgoing(t)| == |Backlog(t)|;
    TaskWorkConcat(s.conn.posted, [Stop, Stop]);
    assert [Stop, Stop][1..] == [Stop] && TaskWork([Stop]) == 1;
    WorkGrows(s, t, 2);
  }

  lemma ReadsOnce(s: Side)
    requires SideInv(s)
    ensures s.conn.inbox.reading <= 1
  {
  }

  /** The work added is that of the handlers posted and the bytes filled. */
  lemma WorkGrows(s: Side, t: Side, more: nat)
    requires t.conn.queue == s.conn.queue && |t.wire| == |s.wire| && t.conn.inbox.reading <= s.conn.inbox.reading
    requires TaskWork(t.conn.posted) + 2 * |Backlog(t)| <= TaskWork(s.conn.posted) + more
    ensures Work(t) <= Work(s) + more
  {
  }

  lemma AnswerTasks(posted: seq<Task>, k: nat)
    requires 1 <= k <= MAX_COUNT
    ensures TaskWork(posted + Pushes(FramePacks(k))) == TaskWork(posted) + TaskWork(Pushes(FramePacks(k)))
    ensures TaskWork(Pushes(FramePacks(k))) + 2 * |Frame(k)| < FRAME_WORK - 2
  {
    TaskWorkConcat(posted, Pushes(FramePacks(k)));
    TaskWorkPushes(FramePacks(k));
    FramePacksNonEmpty(k);
    FrameShape(k);
  }

  /** Every move uses up budget. */
  lemma MoveSpends(s: Sys, byClient: bool, m: Move)
    requires SysInv(s) && SysCan(s, byClient, m)
    ensures Budget(SysNext(s, byClient, m)) < Budget(s)
  {
    if byClient {
      ClientSpends(s.max, s.client, s.server, m);
    } else {
      ServerSpends(s.max, s.client, s.server, m);
    }
    MoveKeeps(s, byClient, m);
  }

  ghost predicate Spent(me: Side, peer: Side, me': Side, peer': Side) {
    && me.count <= me'.count && peer'.count == peer.count
    && Work(me') + Work(peer') < Work(me) + Work(peer) + FRAME_WORK * (me'.count - me.count)
  }

  lemma PlainSpends(max: nat, me: Side, peer: Side, m: Move)
    requires SideInv(me) && Can(me, peer, m)
    requires m.Transmit? || m.Wrote? || (m.Read? && !m.ok) || (m.Run? && !me.conn.posted[0].Start?)
    ensures var (t, p, _) := Act(max, me, peer, m); Spent(me, peer, t, p)
  {
    match m
    case Transmit(n) => TransmitWork(me, n);
    case Wrote(ok) =>
      if ok {
        WroteWork(me);
      } else {
        WriteFailsWork(me);
      }
    case Read(_, _) => ReadFailsWork(me);
    case Run => RunSpends(max, me, peer);
  }

  lemma RunSpends(max: nat, me: Side, peer: Side)
    requires SideInv(me) && Can(me, peer, Run) && !me.conn.posted[0].Start?
    ensures var (t, p, _) := Act(max, me, peer, Run); Spent(me, peer, t, p)
  {
    if me.conn.posted[0].Push? {
      PushWork(max, me);
    } else {
      StopWork(me);
    }
  }

  lemma ClientStartSpends(max: nat, client: Side, server: Side)
    requires Ready(max, client, server) && Can(client, server, Run) && client.conn.posted[0].Start?
    ensures var (me, peer, _) := Act(max, client, server, Run); Spent(client, server, me, peer)
  {
    StartIsScheduled(client);
    ScheduledPhase(max, client, server);
    ConnectWork(max, client, server);
  }

  lemma ClientSpends(max: nat, client: Side, server: Side, m: Move)
    requires Ready(max, client, server) && Can(client, server, m)
    ensures var (me, peer, _) := Act(max, client, server, m); Spent(client, server, me, peer)
  {
    if m.Run? && client.conn.posted[0].Start? {
      ClientStartSpends(max, client, server);
    } else if m.Read? && m.ok {
      WireFlies(max, client, server);
      ReadWork(max, server, client, m.n);
    } else {
      PlainSpends(max, client, server, m);
    }
  }

  lemma ServerStartSpends(max: nat, client: Side, server: Side)
    requires Ready(max, client, server) && Can(server, client, Run) && server.conn.posted[0].Start?
    ensures var (me, peer, _) := Act(max, server, client, Run); Spent(server, client, me, peer)
  {
    StartIsScheduled(server);
    ScheduledPhase(max, client, server);
    AcceptWork(max, server, client);
  }

  lemma ServerSpends(max: nat, client: Side, server: Side, m: Move)
    requires Ready(max, client, server) && Can(server, client, m)
    ensures var (me, peer, _) := Act(max, server, client, m); Spent(server, client, me, peer)
  {
    if m.Run? && server.conn.posted[0].Start? {
      ServerStartSpends(max, client, server);
    } else if m.Read? && m.ok {
      WireFlies(max, client, server);
      ReadWork(max, client, server, m.n);
    } else {
      PlainSpends(max, server, client, m);
    }
  }

  lemma BudgetPositive(s: Sys)
    requires SysInv(s)
    ensures Budget(s) >= 0
  {
    PhaseSafe(s.max, s.client, s.server);
  }

  lemma {:induction false} RunIsBounded(s: Sys, run: seq<(bool, Move)>)
    requires SysInv(s) && SysLegal(s, run)
    ensures |run| <= Budget(s)
    decreases |run|
  {
    BudgetPositive(s);
    if run != [] {
      MoveKeeps(s, run[0].0, run[0].1);
      MoveSpends(s, run[0].0, run[0].1);
      RunIsBounded(SysNext(s, run[0].0, run[0].1), run[1..]);
    }
  }

  // ---------------------------------------------------------------- outcome

  /** No handler is posted, no operation can complete, no byte can be transmitted. */
  ghost predicate Stuck(s: Sys) {
    forall byClient, m :: !SysCan(s, byClient, m)
  }

  /** Every run ends within a bound that depends only on the number of messages asked for. A run that cannot go on
      has exchanged all of them, or as many as have a frame whose length fits two bytes, and each connection
      has had its one on_close. With nothing to send, both connections stay open. */
  lemma PingPongEnds(sendTimes: nat, run: seq<(bool, Move)>)
    requires SysLegal(SysInit(sendTimes), run)
    ensures |run| <= 2 * FRAME_WORK * sendTimes + 8
    ensures var s := SysRun(SysInit(sendTimes), run);
            Stuck(s) ==>
              && s.client.count == s.server.count && Exchanged(sendTimes, s.client.count)
              && (if sendTimes > 0 then
                    && Closed(s.client) && Closed(s.server)
                    && I.Closes(s.client.conn.trace) == 1 && I.Closes(s.server.conn.trace) == 1
                  else
                    s.client.conn.running && s.server.conn.running)
  {
    var s0 := SysInit(sendTimes);
    InitInv(sendTimes);
    RunIsBounded(s0, run);
    InitialBudget(sendTimes);
    RunKeeps(s0, run);
    MaxStays(s0, run);
    var s := SysRun(s0, run);
    if Stuck(s) {
      StuckIsExchanged(sendTimes, s);
    }
  }

  lemma StuckIsExchanged(sendTimes: nat, s: Sys)
    requires SysInv(s) && Stuck(s) && s.max == MaxMessageCount(sendTimes)
    ensures s.client.count == s.server.count && Exchanged(sendTimes, s.client.count)
    ensures if sendTimes > 0 then
              && Closed(s.client) && Closed(s.server)
              && I.Closes(s.client.conn.trace) == 1 && I.Closes(s.server.conn.trace) == 1
            else
              s.client.conn.running && s.server.conn.running
  {
    BoundIsExchanged(sendTimes);
    StuckIsOver(s);
  }

  lemma {:induction false} MaxStays(s: Sys, run: seq<(bool, Move)>)
    requires SysLegal(s, run)
    ensures SysRun(s, run).max == s.max
    decreases |run|
  {
    if run != [] {
      MaxStays(SysNext(s, run[0].0, run[0].1), run[1..]);
    }
  }

  lemma InitialBudget(sendTimes: nat)
    ensures Budget(SysInit(sendTimes)) <= 2 * FRAME_WORK * sendTimes + 8
  {
    assert Work(NewSide(false)) == 4 && Work(NewSide(true)) == 4;
    BoundIsExchanged(sendTimes);
  }

  lemma StuckIsOver(s: Sys)
    requires SysInv(s) && Stuck(s)
    ensures s.client.count == s.max && s.server.count == s.max
    ensures s.max > 0 ==>
              && Closed(s.client) && Closed(s.server)
              && I.Closes(s.client.conn.trace) == 1 && I.Closes(s.server.conn.trace) == 1
    ensures s.max == 0 ==> s.client.conn.running && s.server.conn.running
  {
    StuckCannot(s, true);
    StuckCannot(s, false);
    StuckSide(s.client, s.server);
    StuckSide(s.server, s.client);
    if Flying(s.max, s.client, s.server) {
      FlyingMovesOn(s.max, s.client, s.server);
    } else if Flying(s.max, s.server, s.client) {
      FlyingMovesOn(s.max, s.server, s.client);
    }
  }

  lemma StuckCannot(s: Sys, byClient: bool)
    requires Stuck(s)
    ensures var me, peer := if byClient then s.client else s.server, if byClient then s.server else s.client;
            forall m :: !Can(me, peer, m)
  {
    var me, peer := if byClient then s.client else s.server, if byClient then s.server else s.client;
    forall m ensures !Can(me, peer, m) {
      assert !SysCan(s, byClient, m);
    }
  }

  /** A write in flight transmits more, is complete, or has failed with a closed connection. */
  lemma WriteGoesOn(me: Side, peer: Side)
    requires SideInv(me) && me.conn.queue.outstanding != []
    ensures Can(me, peer, Transmit(1)) || Can(me, peer, Wrote(true)) || Can(me, peer, Wrote(false))
  {
  }

  /** A party that can do nothing has no handler posted and no write in flight, and it is not reading
      from a closed peer or a wire with bytes on it. */
  lemma StuckSide(me: Side, peer: Side)
    requires SideInv(me)
    requires !Can(me, peer, Run) && !Can(me, peer, Transmit(1))
    requires !Can(me, peer, Wrote(true)) && !Can(me, peer, Wrote(false))
    requires !Can(me, peer, Read(true, 1)) && !Can(me, peer, Read(false, 0))
    ensures me.conn.posted == [] && me.conn.queue.outstanding == [] && me.conn.stage.Opened?
    ensures me.conn.inbox.reading > 0 ==> !Closed(me) && !Closed(peer) && peer.wire == []
  {
    assert me.conn.posted == [];
    assert me.conn.stage.Opened?;
    if me.conn.queue.outstanding != [] {
      WriteGoesOn(me, peer);
    }
  }

  lemma SomeMove(s: Sys) returns (t: Sys, byClient: bool, m: Move)
    requires SysInv(s) && !Stuck(s)
    ensures SysCan(s, byClient, m) && t == SysNext(s, byClient, m)
    ensures SysInv(t) && 0 <= Budget(t) < Budget(s)
  {
    byClient, m :| SysCan(s, byClient, m);
    t := SysNext(s, byClient, m);
    MoveKeeps(s, byClient, m);
    MoveSpends(s, byClient, m);
    BudgetPositive(t);
  }

  /** Every state can be brought to its end. */
  lemma {:induction false} Completes(s: Sys) returns (run: seq<(bool, Move)>)
    requires SysInv(s)
    ensures SysLegal(s, run) && Stuck(SysRun(s, run))
    decreases Budget(s)
  {
    if Stuck(s) {
      run := [];
    } else {
      var t, byClient, m := SomeMove(s);
      var rest := Completes(t);
      run := [(byClient, m)] + rest;
      assert run[1..] == rest;
    }
  }

  /** A frame in flight can be moved on, as the receiver does not hold all of it. */
  lemma FlyingMovesOn(max: nat, s: Side, r: Side)
    requires SideInv(s) && SideInv(r) && Flying(max, s, r)
    ensures s.conn.posted != [] || s.conn.queue.outstanding != [] || s.wire != []
  {
    assert s.conn.posted == [] && s.conn.queue.outstanding == [] ==> Pending(s.conn) == [] && Backlog(s) == [];
    FrameShape(s.count);
  }
}
