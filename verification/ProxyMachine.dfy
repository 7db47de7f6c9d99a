/** The relay of the proxy sample: an accepted connection (src), the connection made for it (dst), and the
    pair of pointers that both carry as user data. A callback of the proxy is one atomic step. */
module ProxyMachine {
  import opened Octets
  import opened ConnectionMachine
  import opened ConnectionLaws
  import I = ConnectionInvariant

  /** Which pointers of the pair are set. */
  datatype Ends = Ends(src: bool, dst: bool)

  /** What one callback does: its calls on its own connection and its result, its calls on the other
      connection, and what becomes of the pair. */
  datatype Reaction = Reaction(own: Callback, other: seq<Call>, ends: Ends, release: bool)

  function Nothing(ends: Ends, ok: bool): Reaction {
    Reaction(Callback([], ok), [], ends, false)
  }

  function OnAcceptReaction(created: bool): Reaction {
    Nothing(Ends(created, false), created)
  }

  /** `waiting` is what src has received so far. */
  function OnConnectReaction(ends: Ends, ok: bool, waiting: Bytes): Reaction {
    if !ok then
      Reaction(Callback([], false), if ends.src then [Close] else [], ends, false)
    else if ends.src then
      Reaction(Callback([Fill(waiting)], true), [Drop(|waiting|)], ends.(dst := true), false)
    else
      Nothing(ends.(dst := true), false)
  }

  function OnRecvReaction(ends: Ends, bySrc: bool, unread: Bytes): Reaction {
    if !(if bySrc then ends.src else ends.dst) then Nothing(ends, false)
    else if !(if bySrc then ends.dst else ends.src) then Nothing(ends, true)
    else Reaction(Callback([Drop(|unread|)], true), [Fill(unread)], ends, false)
  }

  function OnCloseReaction(ends: Ends, bySrc: bool): Reaction {
    if !(if bySrc then ends.src else ends.dst) then
      Nothing(ends, true)
    else
      var left := if bySrc then ends.(src := false) else ends.(dst := false);
      if left.src || left.dst then Reaction(Callback([], true), [Close], left, false)
      else Reaction(Callback([], true), [], left, true)
  }

  /** The pair. `linked` says that src carries it, after dst has been asked for. `releases` counts its
      deletions, `touched` says that it was used after one, and `early` that src closed before the outcome
      of the connect was known. */
  datatype Pair = Pair(linked: bool, ends: Ends, releases: nat, touched: bool, early: bool)

  datatype Relay = Relay(src: Conn<byte>, dst: Conn<byte>, pair: Pair)

  /** A step of src or of dst; `created` is the result of asking for dst. */
  datatype Move = Move(bySrc: bool, step: Step<byte>, created: bool)

  function Own(r: Relay, bySrc: bool): Conn<byte> {
    if bySrc then r.src else r.dst
  }

  /** What the callback `e` of one connection does, when src holds `waiting` and that connection holds
      `unread`. */
  function React(ends: Ends, bySrc: bool, e: Event, waiting: Bytes, unread: Bytes, created: bool): Reaction {
    match e
    case OnAccept => OnAcceptReaction(created)
    case OnConnect(ok) => OnConnectReaction(ends, ok, waiting)
    case OnRecv => OnRecvReaction(ends, bySrc, unread)
    case OnSend => Nothing(ends, true)
    case OnClose => OnCloseReaction(ends, bySrc)
  }

  predicate Undecided(s: Stage) {
    !s.Opened? && !s.Failed? && !s.Silent?
  }

  /** The pair after the callback `e`. `undecided` says that the outcome of the connect is still to come. */
  function Noted(p: Pair, bySrc: bool, e: Event, x: Reaction, created: bool, undecided: bool): Pair {
    Pair(p.linked || (e.OnAccept? && created),
         x.ends,
         p.releases + (if x.release then 1 else 0),
         p.touched || (p.linked && !e.OnSend? && p.releases > 0),
         p.early || (bySrc && p.linked && e.OnClose? && undecided))
  }

  ghost function Events(r: Relay, m: Move): seq<Event>
    requires Enabled(Own(r, m.bySrc), m.step)
  {
    Announcement(Own(r, m.bySrc), m.step)
  }

  function Arrived(step: Step<byte>): Bytes {
    if step.ReadDone? then step.data else []
  }

  /** The reaction to the callback of the move, if it makes one. */
  ghost function Reply(r: Relay, m: Move): Reaction
    requires Enabled(Own(r, m.bySrc), m.step)
  {
    if Events(r, m) == [] then Nothing(r.pair.ends, true)
    else React(r.pair.ends, m.bySrc, Events(r, m)[0], r.src.inbox.unread,
               Own(r, m.bySrc).inbox.unread + Arrived(m.step), m.created)
  }

  /** dst exists once it has been asked for, and only the proxy's callbacks use the connections. */
  ghost predicate RelayCan(r: Relay, m: Move) {
    && (m.bySrc || r.pair.linked)
    && Enabled(Own(r, m.bySrc), m.step)
    && !m.step.Api?
    && (m.step.Handshook? || m.step.Posted? || m.step.ReadDone? || m.step.WriteDone? ==>
          m.step.cb == Reply(r, m).own)
  }

  ghost function RelayNext(r: Relay, m: Move): Relay
    requires RelayCan(r, m)
  {
    var x := Reply(r, m);
    var self := Next(Own(r, m.bySrc), m.step);
    var other := ApplyAll(Own(r, !m.bySrc), x.other);
    var pair := if Events(r, m) == [] then r.pair
                else Noted(r.pair, m.bySrc, Events(r, m)[0], x, m.created, Undecided(r.dst.stage));
    if m.bySrc then Relay(self, other, pair) else Relay(other, self, pair)
  }

  /** src has been accepted and is about to start. Either leg may use ssl. */
  ghost predicate RelayInit(r: Relay) {
    && r.src == Fresh(Setup(Tcp, true, r.src.setup.ssl, true), Scheduled, [Start])
    && r.dst == Fresh(Setup(Tcp, false, r.dst.setup.ssl, true), Resolving, [])
    && r.pair == Pair(false, Ends(false, false), 0, false, false)
  }

  ghost predicate RelayLegal(r: Relay, run: seq<Move>)
    decreases |run|
  {
    run != [] ==> RelayCan(r, run[0]) && RelayLegal(RelayNext(r, run[0]), run[1..])
  }

  ghost function RelayRun(r: Relay, run: seq<Move>): Relay
    requires RelayLegal(r, run)
    decreases |run|
  {
    if run == [] then r else RelayRun(RelayNext(r, run[0]), run[1..])
  }

  /** A read that had completed before its connection closed is announced after the pair was released. */
  ghost predicate LateUse(r: Relay, m: Move) {
    var self := Own(r, m.bySrc);
    && m.step.ReadDone? && m.step.ok && self.stage.Opened? && !self.running
    && |self.inbox.unread| + |m.step.data| >= self.inbox.mark && r.pair.releases > 0
  }

  /** There is one in the run. */
  ghost predicate UsedLate(r: Relay, run: seq<Move>)
    requires RelayLegal(r, run)
    decreases |run|
  {
    run != [] && (LateUse(r, run[0]) || UsedLate(RelayNext(r, run[0]), run[1..]))
  }

  // ---------------------------------------------------------------- one connection of the relay

  ghost predicate Plain(s: Conn<byte>) {
    I.Inv(s) && s.setup.kind.Tcp? && s.setup.service && s.inbox.mark == 1
  }

  predicate Unconnected(s: Stage) {
    s.Resolving? || s.Connecting?
  }

  /** `t` holds the same data as `s` and is as open as it. */
  predicate Same(s: Conn<byte>, t: Conn<byte>) {
    && t.setup == s.setup && t.inbox.mark == s.inbox.mark
    && t.accepted == s.accepted && t.inbox.consumed == s.inbox.consumed && t.inbox.unread == s.inbox.unread
    && t.running == s.running && t.stage.Opened? == s.stage.Opened? && t.stage.Failed? == s.stage.Failed?
    && (Undecided(t.stage) ==> Undecided(s.stage)) && (Unconnected(t.stage) ==> Unconnected(s.stage))
    && (s.running && Stop in s.posted ==> Stop in t.posted)
  }

  lemma UnannouncedStep(s: Conn<byte>, step: Step<byte>)
    requires Plain(s) && Enabled(s, step) && !step.Api? && Announcement(s, step) == []
    ensures Plain(Next(s, step)) && Same(s, Next(s, step))
  {
    I.StepKeeps(s, step);
    match step
    case Posted(cb) => UnannouncedPosted(s, cb);
    case WriteDone(ok, cb) => UnannouncedWrite(s, ok, cb);
    case ReadDone(ok, data, cb) => UnannouncedRead(s, ok, data, cb);
    case _ => UnannouncedConnect(s, step);
  }

  lemma UnannouncedConnect(s: Conn<byte>, step: Step<byte>)
    requires s.setup.service && Enabled(s, step) && Announcement(s, step) == []
    requires step.Handshook? || step.Resolved? || step.Accepted? || step.Connected?
    ensures Same(s, Next(s, step))
  {
  }

  lemma UnannouncedPosted(s: Conn<byte>, cb: Callback)
    requires Plain(s) && s.posted != [] && Announcement(s, Posted(cb)) == []
    ensures Same(s, RunTask(s, cb))
  {
    assert s.posted[0] in s.posted;
    UnannouncedTask(s, cb);
  }

  lemma UnannouncedTask(s: Conn<byte>, cb: Callback)
    requires s.setup.service && s.posted != [] && !s.stage.Failed?
    requires s.posted[0].Start? ==> s.setup.ssl && s.stage.Scheduled?
    requires s.posted[0].Stop? ==> !s.running
    ensures Same(s, RunTask(s, cb))
  {
  }

  lemma UnannouncedRead(s: Conn<byte>, ok: bool, data: Bytes, cb: Callback)
    requires Plain(s) && Enabled(s, ReadDone(ok, data, cb)) && Announcement(s, ReadDone(ok, data, cb)) == []
    ensures Same(s, HandleRecv(s, ok, data, cb))
  {
  }

  /** The write failed, or packs are left. */
  lemma UnannouncedWrite(s: Conn<byte>, ok: bool, cb: Callback)
    requires Plain(s) && s.queue.outstanding != []
    requires Announcement(s, WriteDone(ok, cb)) == []
    ensures Same(s, HandleSend(s, ok, cb))
  {
    if ok {
      I.Q.FinishKeeps(s.queue);
      assert I.Q.Pushed(s.queue) == s.queue.sent + [s.queue.outstanding[0]] + I.Q.Finish(s.queue).deque;
    }
  }

  lemma SentStep(s: Conn<byte>, step: Step<byte>)
    requires Plain(s) && Enabled(s, step) && Announcement(s, step) == [OnSend] && step.cb == Callback([], true)
    ensures Plain(Next(s, step)) && Same(s, Next(s, step))
  {
    I.StepKeeps(s, step);
    SentData(s, step.cb);
  }

  lemma SentData(s: Conn<byte>, cb: Callback)
    requires s.queue.outstanding != [] && cb == Callback([], true)
    ensures Same(s, HandleSend(s, true, cb))
  {
  }

  /** `t` is as open as `s`. */
  ghost predicate AsOpen(s: Conn<byte>, t: Conn<byte>) {
    && Plain(t) && t.setup == s.setup && t.running == s.running && t.stage == s.stage
    && (s.running && Stop in s.posted ==> Stop in t.posted)
  }

  lemma AnnouncedRead(s: Conn<byte>, step: Step<byte>)
    requires Enabled(s, step) && step.ReadDone? && Announcement(s, step) == [OnRecv]
    ensures step.data != [] && Next(s, step) == HandleRecv(s, true, step.data, step.cb)
    ensures |s.inbox.unread| + |step.data| >= s.inbox.mark || s.setup.kind.Udp?
  {
  }

  /** A read announced to a callback that drops everything, or nothing. */
  lemma ReceivedRead(s: Conn<byte>, data: Bytes, cb: Callback)
    requires Plain(s) && s.inbox.reading > 0 && data != []
    requires cb.calls == [] || cb.calls == [Drop(|s.inbox.unread + data|)]
    ensures var t, all := HandleRecv(s, true, data, cb), s.inbox.unread + data;
            && s.stage.Opened? && AsOpen(s, t) && t.accepted == s.accepted
            && t.inbox.consumed == s.inbox.consumed + (if cb.calls == [] then [] else all)
            && t.inbox.unread == (if cb.calls == [] then all else [])
  {
    ReceivedData(s, data, cb);
    PlainRead(s, data, cb);
  }

  lemma PlainRead(s: Conn<byte>, data: Bytes, cb: Callback)
    requires Plain(s) && s.inbox.reading > 0
    requires HandleRecv(s, true, data, cb).inbox.mark == 1
    ensures Plain(HandleRecv(s, true, data, cb)) && s.stage.Opened?
  {
    I.RecvKeeps(s, true, data, cb);
    assert HandleRecv(s, true, data, cb).setup == s.setup by {
      RecvEvents(s, true, data, cb);
    }
  }

  lemma ReceivedData(s: Conn<byte>, data: Bytes, cb: Callback)
    requires s.setup.kind.Tcp? && s.setup.service && s.inbox.reading > 0
    requires |s.inbox.unread + data| >= s.inbox.mark
    requires cb.calls == [] || cb.calls == [Drop(|s.inbox.unread + data|)]
    ensures var t, all := HandleRecv(s, true, data, cb), s.inbox.unread + data;
            && t.accepted == s.accepted && t.inbox.mark == s.inbox.mark
            && t.inbox.consumed == s.inbox.consumed + (if cb.calls == [] then [] else all)
            && t.inbox.unread == (if cb.calls == [] then all else [])
            && s.posted <= t.posted && t.setup == s.setup && t.running == s.running && t.stage == s.stage
  {
    var filled, all := Receive(Idle(s), data), s.inbox.unread + data;
    var told := filled.(trace := filled.trace + [OnRecv]);
    ApplyAllOne(told, Drop(|all|));
    assert all[..|all|] == all && all[|all|..] == [];
    assert s.inbox.consumed + [] == s.inbox.consumed;
  }

  /** The opening callback, which fills one pack or nothing. */
  lemma OpenedStep(s: Conn<byte>, step: Step<byte>, pack: Bytes)
    requires Plain(s) && Enabled(s, step) && Announcement(s, step) == [OpenEvent(s)]
    requires step.cb.calls == [] || step.cb.calls == [Fill(pack)]
    ensures var t := Next(s, step);
            && Plain(t) && t.setup == s.setup && !s.stage.Opened? && t.stage.Opened? && t.running
            && t.inbox.consumed == [] && t.inbox.unread == [] && s.accepted == [] && s.inbox.consumed == []
            && Undecided(s.stage)
            && Flatten(t.accepted) == (if step.cb.calls == [] then [] else pack)
            && (!step.cb.ok ==> Stop in t.posted)
  {
    I.StepKeeps(s, step);
    BlankBeforeOpening(s, step);
    OpenedHandshake(if step.Posted? then s.(posted := s.posted[1..]) else s, step.cb, pack);
    StepEvents(s, step);
  }

  lemma BlankBeforeOpening(s: Conn<byte>, step: Step<byte>)
    requires Plain(s) && Enabled(s, step) && Announcement(s, step) == [OpenEvent(s)]
    ensures I.Blank(s) && !s.stage.Opened? && Undecided(s.stage) && (step.Posted? || step.Handshook?)
    ensures Next(s, step) == HandleHandshake(if step.Posted? then s.(posted := s.posted[1..]) else s, true, step.cb)
  {
    OpeningStage(s, step);
    assert s.stage.Scheduled? ==> s.posted == [Start];
  }

  /** The opening callback is made by the start handler, or by the handshake. */
  lemma OpeningStage(s: Conn<byte>, step: Step<byte>)
    requires Plain(s) && Enabled(s, step) && Announcement(s, step) == [OpenEvent(s)]
    ensures (step.Posted? && s.posted[0].Start? && !s.setup.ssl && s.stage.Scheduled?) ||
            (step.Handshook? && step.ok && s.stage.Handshaking?)
  {
    if step.Posted? {
      assert s.posted[0] in s.posted;
    }
  }

  lemma OpenedHandshake(s: Conn<byte>, cb: Callback, pack: Bytes)
    requires s.setup.kind.Tcp? && s.setup.service && I.Blank(s) && s.inbox.mark == 1
    requires cb.calls == [] || cb.calls == [Fill(pack)]
    ensures var t := HandleHandshake(s, true, cb);
            && t.stage.Opened? && t.running && t.inbox.consumed == [] && t.inbox.unread == [] && t.inbox.mark == 1
            && Flatten(t.accepted) == (if cb.calls == [] then [] else pack)
            && (!cb.ok ==> Stop in t.posted)
  {
    var open := s.(running := true, stage := Opened, trace := s.trace + [OpenEvent(s)]);
    ApplyAllOne(open, Fill(pack));
    FlattenOne(pack);
  }

  lemma ClosedStep(s: Conn<byte>, step: Step<byte>)
    requires Plain(s) && Enabled(s, step) && Announcement(s, step) == [OnClose] && step.cb.calls == []
    ensures var t := Next(s, step);
            && s.running && !t.running && s.stage.Opened? && t.stage.Opened? && Plain(t) && t.setup == s.setup
            && t.accepted == s.accepted && t.inbox.consumed == s.inbox.consumed && t.inbox.unread == s.inbox.unread
  {
    match step
    case Posted(cb) => I.TaskKeeps(s, cb); ClosedTask(s, cb);
    case _ =>
  }

  lemma ClosedTask(s: Conn<byte>, cb: Callback)
    requires s.posted != [] && s.posted[0].Stop? && s.running && cb.calls == []
    ensures var t := RunTask(s, cb);
            && !t.running && t.setup == s.setup && t.stage == s.stage && t.accepted == s.accepted && t.inbox == s.inbox
  {
  }

  lemma RefusedStep(s: Conn<byte>, step: Step<byte>)
    requires Plain(s) && Enabled(s, step) && Announcement(s, step) == [OnConnect(false)]
    ensures var t := Next(s, step);
            && !s.stage.Opened? && t.stage.Failed? && Plain(t) && t.setup == s.setup
            && t.accepted == s.accepted && t.inbox.consumed == s.inbox.consumed && t.inbox.unread == s.inbox.unread
  {
    I.StepKeeps(s, step);
    RefusedConn(s, step);
  }

  lemma RefusedConn(s: Conn<byte>, step: Step<byte>)
    requires Enabled(s, step) && Announcement(s, step) == [OnConnect(false)]
    ensures var t := Next(s, step);
            && (s.stage.Resolving? || s.stage.Connecting?) && t.stage.Failed? && t.setup == s.setup
            && t.accepted == s.accepted && t.inbox == s.inbox
  {
  }

  /** One call made by the other connection's callback. */
  lemma CalledFromOther(s: Conn<byte>, c: Call)
    requires Plain(s) && s.stage.Opened? && !c.Mark?
    requires c.Drop? ==> c.n == |s.inbox.unread|
    ensures var t := ApplyAll(s, [c]);
            && AsOpen(s, t)
            && Flatten(t.accepted) == Flatten(s.accepted) + (if c.Fill? then c.pack else [])
            && t.inbox.consumed == s.inbox.consumed + (if c.Drop? then s.inbox.unread else [])
            && t.inbox.unread == (if c.Drop? then [] else s.inbox.unread)
            && (c.Close? ==> Stop in t.posted)
  {
    ApplyAllOne(s, c);
    var _ := I.ApplyGrows(s, c);
    I.ApiKeeps(s, c);
    assert s.inbox.consumed + [] == s.inbox.consumed;
    if c.Fill? {
      FlattenConcat(s.accepted, [c.pack]);
      FlattenOne(c.pack);
    }
  }
}
