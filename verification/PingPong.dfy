/** The two parties of the test: two TCP connections joined by a lossless wire in each direction, each
    served by a test service. A move is one handler of one party, or the transmission of some bytes of
    the pack it is writing. The network delivers any non-empty part of what is on the wire, and no
    operation fails before one of the parties has closed. */
module PingPong {
  import opened Octets
  import opened Frames
  import opened ConnectionMachine
  import opened TestProtocol
  import I = ConnectionInvariant
  import Q = SendQueue

  /** One party: its connection, the count kept in user_data, the bytes it has put on the wire that the
      peer has not received, and how much of its front pack has been transmitted. */
  datatype Side = Side(conn: Conn<byte>, count: nat, wire: Bytes, off: nat)

  datatype Move = Run | Transmit(n: nat) | Wrote(ok: bool) | Read(ok: bool, n: nat)

  /** `client` connects and speaks first. `sound` says that no assertion has failed so far. */
  datatype Sys = Sys(max: nat, client: Side, server: Side, sound: bool)

  predicate Closed(s: Side) {
    s.conn.stage.Opened? && !s.conn.running
  }

  ghost predicate Can(me: Side, peer: Side, m: Move) {
    match m
    case Run => me.conn.posted != []
    case Transmit(n) =>
      me.conn.queue.outstanding != [] && me.conn.running && 1 <= n && me.off + n <= |me.conn.queue.outstanding[0]|
    case Wrote(ok) =>
      me.conn.queue.outstanding != [] &&
      if ok then me.off == |me.conn.queue.outstanding[0]| else Closed(me) || Closed(peer)
    case Read(ok, n) =>
      me.conn.inbox.reading > 0 &&
      if ok then 1 <= n <= |peer.wire| && n <= 512 else Closed(me) || Closed(peer)
  }

  function Silence(count: nat): Reply {
    Reply(Callback([], true), count, true)
  }

  /** The reply to the callback that the front of the posted queue makes. */
  function RunReply(max: nat, me: Side): Reply
    requires me.conn.posted != []
  {
    match me.conn.posted[0]
    case Start => if me.conn.setup.passive then OnAcceptReply() else OnConnectReply(max)
    case Stop => if me.conn.running then OnCloseReply(max, me.count) else Silence(me.count)
    case Push(_) => Silence(me.count)
  }

  /** The reply to the callback that receiving `data` makes. */
  function ReadReply(max: nat, me: Side, data: Bytes): Reply
    requires me.conn.inbox.reading > 0
  {
    var filled := Receive(Idle(me.conn), data);
    if Announced(filled) then OnRecvReply(max, me.count, filled.inbox.unread) else Silence(me.count)
  }

  /** The two parties after a move of `me`, and whether its assertions hold. */
  ghost function Act(max: nat, me: Side, peer: Side, m: Move): (Side, Side, bool)
    requires Can(me, peer, m)
  {
    match m
    case Run =>
      var r := RunReply(max, me);
      (me.(conn := RunTask(me.conn, r.cb), count := r.count), peer, r.sound)
    case Transmit(n) =>
      (me.(wire := me.wire + me.conn.queue.outstanding[0][me.off..me.off + n], off := me.off + n), peer, true)
    case Wrote(ok) =>
      (me.(conn := HandleSend(me.conn, ok, Callback([], true)), off := if ok then 0 else me.off), peer, true)
    case Read(ok, n) =>
      if ok then
        var data := peer.wire[..n];
        var r := ReadReply(max, me, data);
        (me.(conn := HandleRecv(me.conn, true, data, r.cb), count := r.count),
         peer.(wire := peer.wire[n..]), r.sound)
      else
        (me.(conn := HandleRecv(me.conn, false, [], Callback([], true))), peer, true)
  }

  ghost predicate SysCan(s: Sys, byClient: bool, m: Move) {
    if byClient then Can(s.client, s.server, m) else Can(s.server, s.client, m)
  }

  ghost function SysNext(s: Sys, byClient: bool, m: Move): Sys
    requires SysCan(s, byClient, m)
  {
    if byClient then
      var (me, peer, sound) := Act(s.max, s.client, s.server, m);
      Sys(s.max, me, peer, s.sound && sound)
    else
      var (me, peer, sound) := Act(s.max, s.server, s.client, m);
      Sys(s.max, peer, me, s.sound && sound)
  }

  function NewSide(passive: bool): Side {
    Side(Fresh(Setup(Tcp, passive, false, true), Scheduled, [Start]), 0, [], 0)
  }

  /** Both connections are made and about to start. Both parties have the same bound. */
  function SysInit(sendTimes: nat): Sys {
    Sys(MaxMessageCount(sendTimes), NewSide(false), NewSide(true), true)
  }

  ghost predicate SysLegal(s: Sys, run: seq<(bool, Move)>)
    decreases |run|
  {
    run != [] ==> SysCan(s, run[0].0, run[0].1) && SysLegal(SysNext(s, run[0].0, run[0].1), run[1..])
  }

  ghost function SysRun(s: Sys, run: seq<(bool, Move)>): Sys
    requires SysLegal(s, run)
    decreases |run|
  {
    if run == [] then s else SysRun(SysNext(s, run[0].0, run[0].1), run[1..])
  }

  // ---------------------------------------------------------------- the invariant

  function Pending(c: Conn<byte>): seq<Bytes> {
    c.queue.deque + I.Packs(c.posted)
  }

  /** The bytes accepted for sending that are not yet on the wire. */
  function Backlog(s: Side): Bytes {
    var all := Flatten(Pending(s.conn));
    if s.off <= |all| then all[s.off..] else []
  }

  function Outgoing(s: Side): Bytes {
    s.wire + Backlog(s)
  }

  ghost predicate SideInv(s: Side) {
    && I.Inv(s.conn)
    && s.conn.setup == Setup(Tcp, s.conn.setup.passive, false, true)
    && (s.conn.stage.Scheduled? || s.conn.stage.Opened?)
    && (s.conn.queue.deque == [] ==> s.off == 0)
    && (s.conn.queue.deque != [] ==> s.off <= |s.conn.queue.deque[0]|)
  }

  /** No close is due. */
  predicate Lively(s: Side) {
    && Stop !in s.conn.posted && (s.conn.stage.Opened? ==> s.conn.running)
    && !s.conn.inbox.ended && !s.conn.queue.failed
  }

  predicate StopDue(s: Side) {
    Stop in s.conn.posted || Closed(s)
  }

  /** The frame numbered `s.count` is on its way from `s` to `r`, and nothing is on its way back. What
      `r` holds of it is a strict prefix, and its water mark is no higher than the frame is long, and the frame's
      length as soon as it is known. */
  ghost predicate Flying(max: nat, s: Side, r: Side) {
    && 1 <= s.count <= max && r.count == s.count - 1
    && Lively(s) && Lively(r) && s.conn.stage.Opened?
    && (r.conn.stage.Scheduled? ==> r.count == 0)
    && r.conn.inbox.unread + Outgoing(s) == Frame(s.count)
    && s.conn.inbox.unread == [] && Outgoing(r) == []
    && |r.conn.inbox.unread| < FrameLen(s.count)
    && r.conn.inbox.mark in {1, 2, FrameLen(s.count)} && s.conn.inbox.mark in {1, 2}
    && (|r.conn.inbox.unread| >= 2 ==> r.conn.inbox.mark == FrameLen(s.count))
    && (s.count % 2 == 1) == !s.conn.setup.passive
  }

  ghost predicate Quiet(s: Side, r: Side) {
    && s.conn.inbox.unread == [] && r.conn.inbox.unread == []
    && Outgoing(s) == [] && Outgoing(r) == []
  }

  /** Before the client has started, or with nothing to send. */
  ghost predicate Waiting(max: nat, client: Side, server: Side) {
    && client.count == 0 && server.count == 0 && Quiet(client, server)
    && Lively(client) && Lively(server)
    && client.conn.inbox.mark in {1, 2} && server.conn.inbox.mark in {1, 2}
    && (max == 0 || client.conn.stage.Scheduled?)
  }

  /** The last frame has been consumed by `r`, which is closing or closed. */
  ghost predicate Landed(max: nat, r: Side, s: Side) {
    && max >= 1 && r.count == max && s.count == max && Quiet(s, r)
    && r.conn.stage.Opened? && s.conn.stage.Opened? && StopDue(r)
  }

  ghost predicate Phase(max: nat, client: Side, server: Side) {
    || Waiting(max, client, server)
    || Flying(max, client, server) || Flying(max, server, client)
    || Landed(max, client, server) || Landed(max, server, client)
  }

  ghost predicate SysInv(s: Sys) {
    && s.sound && s.max <= MAX_COUNT
    && SideInv(s.client) && SideInv(s.server)
    && !s.client.conn.setup.passive && s.server.conn.setup.passive
    && Phase(s.max, s.client, s.server)
  }

  lemma InitInv(sendTimes: nat)
    ensures SysInv(SysInit(sendTimes))
  {
  }

  // ---------------------------------------------------------------- moves that only push bytes along

  /** `t` differs from `s` in where its outgoing bytes are, and in nothing the protocol looks at. */
  ghost predicate Unmoved(s: Side, t: Side) {
    && SideInv(t) && t.count == s.count && Outgoing(t) == Outgoing(s)
    && t.conn.setup == s.conn.setup && t.conn.stage == s.conn.stage && t.conn.running == s.conn.running
    && t.conn.inbox == s.conn.inbox && t.conn.queue.failed == s.conn.queue.failed
    && (Stop in t.conn.posted <==> Stop in s.conn.posted)
  }

  lemma FrontOfPending(s: Side)
    requires SideInv(s) && s.conn.queue.deque != []
    ensures var all := Flatten(Pending(s.conn));
            && Pending(s.conn) == [s.conn.queue.deque[0]] + (s.conn.queue.deque[1..] + I.Packs(s.conn.posted))
            && all == s.conn.queue.deque[0] + Flatten(s.conn.queue.deque[1..] + I.Packs(s.conn.posted))
            && s.off <= |all|
  {
    var front, rest := s.conn.queue.deque[0], s.conn.queue.deque[1..] + I.Packs(s.conn.posted);
    assert s.conn.queue.deque == [front] + s.conn.queue.deque[1..];
    Assoc([front], s.conn.queue.deque[1..], I.Packs(s.conn.posted));
    FlattenConcat([front], rest);
    FlattenOne(front);
  }

  lemma PushMove(s: Side)
    requires SideInv(s) && s.conn.posted != [] && s.conn.posted[0].Push?
    ensures Unmoved(s, s.(conn := RunTask(s.conn, Callback([], true))))
  {
    var pack, rest := s.conn.posted[0].pack, s.conn.posted[1..];
    var t := s.(conn := RunTask(s.conn, Callback([], true)));
    I.PushKeeps(s.conn, Callback([], true));
    Q.PushKeeps(s.conn.queue, pack);
    Assoc(s.conn.queue.deque, [pack], I.Packs(rest));
    assert Pending(t.conn) == Pending(s.conn);
  }

  lemma TransmitMove(s: Side, n: nat)
    requires SideInv(s) && s.conn.queue.outstanding != [] && s.off + n <= |s.conn.queue.outstanding[0]|
    ensures Unmoved(s, s.(wire := s.wire + s.conn.queue.outstanding[0][s.off..s.off + n], off := s.off + n))
  {
    var front := s.conn.queue.deque[0];
    var all := Flatten(Pending(s.conn));
    FrontOfPending(s);
    assert all[s.off..] == front[s.off..s.off + n] + all[s.off + n..];
    Assoc(s.wire, front[s.off..s.off + n], all[s.off + n..]);
  }

  lemma WroteMove(s: Side)
    requires SideInv(s) && s.conn.queue.outstanding != [] && s.off == |s.conn.queue.outstanding[0]|
    ensures Unmoved(s, s.(conn := HandleSend(s.conn, true, Callback([], true)), off := 0))
  {
    var t := s.(conn := HandleSend(s.conn, true, Callback([], true)), off := 0);
    I.SendKeeps(s.conn, true, Callback([], true));
    Q.FinishKeeps(s.conn.queue);
    FrontOfPending(s);
    assert Pending(t.conn) == s.conn.queue.deque[1..] + I.Packs(s.conn.posted);
  }
}
