/** What the relay keeps over every run: no byte lost in either direction, and when the pair is released. */
module ProxyLaws {
  import opened Octets
  import opened ConnectionMachine
  import opened ConnectionLaws
  import opened ProxyMachine
  import I = ConnectionInvariant
  import M = ConnectionMeaning

  /** What the relay's invariant looks at in a connection. */
  datatype End = End(stage: Stage, running: bool, accepted: Bytes, consumed: Bytes, unread: Bytes, closing: bool)

  function Look(s: Conn<byte>): End {
    End(s.stage, s.running, Flatten(s.accepted), s.inbox.consumed, s.inbox.unread, Stop in s.posted)
  }

  /** What one connection consumed is what the other was asked to send. */
  predicate Relayed(src: End, dst: End) {
    dst.accepted == src.consumed && src.accepted == dst.consumed
  }

  /** The pointers of the pair are set for as long as the connections run; with both set nothing is held
      back, and once one is reset a close of the other is due. */
  predicate Linked(src: End, dst: End, p: Pair) {
    && (src.running ==> src.stage.Opened?) && (dst.running ==> dst.stage.Opened?)
    && !Unconnected(src.stage) && !src.stage.Failed?
    && (p.linked ==> src.stage.Opened?)
    && (!p.linked ==> dst.stage.Resolving? && (src.running ==> src.closing))
    && p.ends == Ends(p.linked && src.running, dst.running)
    && (p.ends.src && p.ends.dst ==> src.unread == [] && dst.unread == [])
    && (p.ends.dst && !p.ends.src ==> dst.closing)
    && (p.ends.src && !p.ends.dst && (dst.stage.Opened? || dst.stage.Failed?) ==> src.closing)
  }

  /** How often the pair has been released. */
  predicate Counted(src: End, dst: End, p: Pair) {
    && (p.early ==> p.linked && !src.running)
    && (p.linked && !src.running && Undecided(dst.stage) ==> p.early)
    && p.releases ==
       if p.early then (if dst.stage.Opened? && !dst.running then 2 else 1)
       else if p.linked && !src.running && !dst.running then 1 else 0
  }

  predicate Facts(src: End, dst: End, p: Pair) {
    Relayed(src, dst) && Linked(src, dst, p) && Counted(src, dst, p)
  }

  /** The facts, seen from src or from dst according to `bySrc`. */
  predicate Sides(bySrc: bool, self: End, other: End, p: Pair) {
    if bySrc then Facts(self, other, p) else Facts(other, self, p)
  }

  ghost predicate PairInv(bySrc: bool, self: Conn<byte>, other: Conn<byte>, p: Pair) {
    && Plain(self) && Plain(other) && self.setup.passive == bySrc && other.setup.passive == !bySrc
    && Sides(bySrc, Look(self), Look(other), p)
  }

  ghost predicate RelayInv(r: Relay) {
    PairInv(true, r.src, r.dst, r.pair)
  }

  lemma InitKeeps(r: Relay)
    requires RelayInit(r)
    ensures RelayInv(r)
  {
  }

  // ---------------------------------------------------------------- the facts, callback by callback

  predicate Calm(s: End, t: End) {
    && t == s.(stage := t.stage, closing := t.closing)
    && t.stage.Opened? == s.stage.Opened? && t.stage.Failed? == s.stage.Failed?
    && (Undecided(t.stage) ==> Undecided(s.stage)) && (Unconnected(t.stage) ==> Unconnected(s.stage))
    && (s.running && s.closing ==> t.closing)
  }

  /** A connection that is called by the other one's callback. */
  predicate Called(s: End, t: End, other: seq<Call>) {
    if other == [] then t == s
    else match other[0]
      case Fill(pack) => |other| == 1 && Calm(s.(accepted := s.accepted + pack), t) && t.stage == s.stage
      case Drop(n) => |other| == 1 && n == |s.unread| && t.stage == s.stage &&
                      Calm(s.(consumed := s.consumed + s.unread, unread := []), t)
      case Close => |other| == 1 && Calm(s, t) && t.closing && t.stage == s.stage
      case _ => false
  }

  lemma AcceptFacts(src: End, dst: End, p: Pair, src': End, created: bool)
    requires Facts(src, dst, p) && !src.stage.Opened? && src'.stage.Opened? && src'.running
    requires src.accepted == [] && src.consumed == [] && src'.accepted == [] && src'.consumed == []
    requires !created ==> src'.closing
    ensures Facts(src', dst, Noted(p, true, OnAccept, OnAcceptReaction(created), created, Undecided(dst.stage)))
  {
  }

  lemma ConnectFacts(src: End, dst: End, p: Pair, src': End, dst': End, created: bool)
    requires Facts(src, dst, p) && p.linked && !dst.stage.Opened? && dst'.stage.Opened? && dst'.running
    requires Undecided(dst.stage) && dst.accepted == [] && dst.consumed == []
    requires dst'.consumed == [] && dst'.unread == []
    requires var x := OnConnectReaction(p.ends, true, src.unread);
             Called(src, src', x.other) && dst'.accepted == (if p.ends.src then src.unread else [])
             && (!x.own.ok ==> dst'.closing)
    ensures Facts(src', dst', Noted(p, false, OnConnect(true), OnConnectReaction(p.ends, true, src.unread), created,
                                     true))
  {
  }

  lemma RefuseFacts(src: End, dst: End, p: Pair, src': End, dst': End, created: bool, waiting: Bytes)
    requires Facts(src, dst, p) && p.linked && !dst.stage.Opened? && dst'.stage.Failed? && !dst'.running
    requires dst'.accepted == dst.accepted && dst'.consumed == dst.consumed
    requires Called(src, src', OnConnectReaction(p.ends, false, waiting).other)
    ensures Facts(src', dst', Noted(p, false, OnConnect(false), OnConnectReaction(p.ends, false, waiting), created,
                                     true))
  {
  }

  lemma RecvFacts(bySrc: bool, self: End, other: End, p: Pair, self': End, other': End, data: Bytes, created: bool,
                  undecided: bool)
    requires Sides(bySrc, self, other, p) && self.stage.Opened?
    requires var x := OnRecvReaction(p.ends, bySrc, self.unread + data);
             && Called(other, other', x.other)
             && Calm(if x.other == [] then self.(unread := self.unread + data)
                     else self.(unread := [], consumed := self.consumed + (self.unread + data)), self')
             && self'.stage == self.stage
    ensures Sides(bySrc, self', other',
                  Noted(p, bySrc, OnRecv, OnRecvReaction(p.ends, bySrc, self.unread + data), created, undecided))
  {
  }

  lemma CloseFacts(bySrc: bool, self: End, other: End, p: Pair, self': End, other': End, created: bool)
    requires Sides(bySrc, self, other, p) && self.running && self.stage.Opened? && self'.stage.Opened?
    requires self' == self.(running := false, closing := self'.closing)
    requires Called(other, other', OnCloseReaction(p.ends, bySrc).other)
    requires bySrc || p.linked
    ensures Sides(bySrc, self', other',
                  Noted(p, bySrc, OnClose, OnCloseReaction(p.ends, bySrc), created,
                        Undecided((if bySrc then other else self).stage)))
  {
  }

  lemma SendFacts(bySrc: bool, self: End, other: End, p: Pair, self': End, created: bool, undecided: bool)
    requires Sides(bySrc, self, other, p) && Calm(self, self') && self.stage.Opened?
    ensures Sides(bySrc, self', other, Noted(p, bySrc, OnSend, Nothing(p.ends, true), created, undecided))
  {
  }

  // ---------------------------------------------------------------- the moves of one side

  /** The calls a callback of the proxy makes on the other connection. */
  predicate Proper(s: Conn<byte>, other: seq<Call>) {
    other != [] ==>
      && |other| == 1 && s.stage.Opened? && !other[0].Mark? && !other[0].FillNull?
      && (other[0].Drop? ==> other[0].n == |s.inbox.unread|)
  }

  lemma OtherCalled(s: Conn<byte>, other: seq<Call>)
    requires Plain(s) && Proper(s, other)
    ensures var t := ApplyAll(s, other);
            Plain(t) && t.setup == s.setup && Called(Look(s), Look(t), other)
  {
    if other != [] {
      assert other == [other[0]];
      CalledFromOther(s, other[0]);
    }
  }

  lemma QuietStep(bySrc: bool, self: Conn<byte>, other: Conn<byte>, p: Pair, step: Step<byte>)
    requires PairInv(bySrc, self, other, p) && Enabled(self, step) && !step.Api? && Announcement(self, step) == []
    requires bySrc || p.linked
    ensures PairInv(bySrc, Next(self, step), other, p)
  {
    UnannouncedStep(self, step);
    var self' := Next(self, step);
    assert Calm(Look(self), Look(self'));
  }

  lemma SendStep(bySrc: bool, self: Conn<byte>, other: Conn<byte>, p: Pair, step: Step<byte>, created: bool,
                 undecided: bool)
    requires PairInv(bySrc, self, other, p) && Enabled(self, step) && Announcement(self, step) == [OnSend]
    requires step.WriteDone? && step.cb == Callback([], true)
    ensures PairInv(bySrc, Next(self, step), other, Noted(p, bySrc, OnSend, Nothing(p.ends, true), created, undecided))
  {
    SentStep(self, step);
    WritesOpen(self);
    SendFacts(bySrc, Look(self), Look(other), p, Look(Next(self, step)), created, undecided);
  }

  lemma WritesOpen(s: Conn<byte>)
    requires Plain(s) && s.queue.outstanding != []
    ensures s.stage.Opened?
  {
  }

  lemma RecvStep(bySrc: bool, self: Conn<byte>, other: Conn<byte>, p: Pair, step: Step<byte>, created: bool,
                 undecided: bool)
    requires PairInv(bySrc, self, other, p) && Enabled(self, step) && Announcement(self, step) == [OnRecv]
    requires step.ReadDone? && step.cb == OnRecvReaction(p.ends, bySrc, self.inbox.unread + step.data).own
    ensures var x := OnRecvReaction(p.ends, bySrc, self.inbox.unread + step.data);
            PairInv(bySrc, Next(self, step), ApplyAll(other, x.other), Noted(p, bySrc, OnRecv, x, created, undecided))
  {
    var x := OnRecvReaction(p.ends, bySrc, self.inbox.unread + step.data);
    AnnouncedRead(self, step);
    ReceivedRead(self, step.data, step.cb);
    OtherCalled(other, x.other);
    assert self.inbox.consumed + [] == self.inbox.consumed;
    RecvFacts(bySrc, Look(self), Look(other), p, Look(Next(self, step)), Look(ApplyAll(other, x.other)), step.data,
              created, undecided);
  }

  lemma CloseStep(bySrc: bool, self: Conn<byte>, other: Conn<byte>, p: Pair, step: Step<byte>, created: bool,
                  undecided: bool)
    requires PairInv(bySrc, self, other, p) && Enabled(self, step) && Announcement(self, step) == [OnClose]
    requires step.Posted? && step.cb == OnCloseReaction(p.ends, bySrc).own && (bySrc || p.linked)
    requires undecided == Undecided((if bySrc then other else self).stage)
    ensures var x := OnCloseReaction(p.ends, bySrc);
            PairInv(bySrc, Next(self, step), ApplyAll(other, x.other), Noted(p, bySrc, OnClose, x, created, undecided))
  {
    var x := OnCloseReaction(p.ends, bySrc);
    ClosedStep(self, step);
    OtherCalled(other, x.other);
    CloseFacts(bySrc, Look(self), Look(other), p, Look(Next(self, step)), Look(ApplyAll(other, x.other)), created);
  }

  lemma AcceptStep(src: Conn<byte>, dst: Conn<byte>, p: Pair, step: Step<byte>, created: bool)
    requires PairInv(true, src, dst, p) && Enabled(src, step) && Announcement(src, step) == [OnAccept]
    requires step.Posted? || step.Handshook?
    requires step.cb == OnAcceptReaction(created).own
    ensures PairInv(true, Next(src, step), dst,
                    Noted(p, true, OnAccept, OnAcceptReaction(created), created, Undecided(dst.stage)))
  {
    OpenedStep(src, step, []);
    AcceptFacts(Look(src), Look(dst), p, Look(Next(src, step)), created);
  }

  lemma ConnectStep(src: Conn<byte>, dst: Conn<byte>, p: Pair, step: Step<byte>, created: bool)
    requires PairInv(false, dst, src, p) && Enabled(dst, step) && Announcement(dst, step) == [OnConnect(true)]
    requires step.Posted? || step.Handshook?
    requires p.linked && step.cb == OnConnectReaction(p.ends, true, src.inbox.unread).own
    ensures var x := OnConnectReaction(p.ends, true, src.inbox.unread);
            PairInv(false, Next(dst, step), ApplyAll(src, x.other), Noted(p, false, OnConnect(true), x, created, true))
  {
    var x := OnConnectReaction(p.ends, true, src.inbox.unread);
    OpenedStep(dst, step, src.inbox.unread);
    OtherCalled(src, x.other);
    var src', dst' := ApplyAll(src, x.other), Next(dst, step);
    assert dst'.setup == dst.setup && src'.setup == src.setup && Plain(src') && Plain(dst');
    ConnectFacts(Look(src), Look(dst), p, Look(src'), Look(dst'), created);
  }

  lemma RefuseStep(src: Conn<byte>, dst: Conn<byte>, p: Pair, step: Step<byte>, created: bool)
    requires PairInv(false, dst, src, p) && Enabled(dst, step) && Announcement(dst, step) == [OnConnect(false)]
    requires p.linked
    ensures var x := OnConnectReaction(p.ends, false, src.inbox.unread);
            PairInv(false, Next(dst, step), ApplyAll(src, x.other), Noted(p, false, OnConnect(false), x, created, true))
  {
    var x := OnConnectReaction(p.ends, false, src.inbox.unread);
    RefusedStep(dst, step);
    OtherCalled(src, x.other);
    RefuseFacts(Look(src), Look(dst), p, Look(ApplyAll(src, x.other)), Look(Next(dst, step)), created,
                src.inbox.unread);
  }

  // ---------------------------------------------------------------- runs

  /** Which completion makes which callback. */
  lemma WhoCalls(s: Conn<byte>, step: Step<byte>)
    requires Enabled(s, step) && Announcement(s, step) != []
    ensures Announcement(s, step) == [Announcement(s, step)[0]]
    ensures match Announcement(s, step)[0]
            case OnAccept => s.setup.passive && (step.Posted? || step.Handshook?)
            case OnConnect(ok) =>
              if ok then !s.setup.passive && (step.Posted? || step.Handshook?) else Unconnected(s.stage)
            case OnRecv => step.ReadDone?
            case OnSend => step.WriteDone?
            case OnClose => step.Posted?
  {
  }

  /** The two connections and the pair after the callback `e`, answered by `x`. */
  function Joined(bySrc: bool, self': Conn<byte>, other': Conn<byte>, p: Pair): Relay {
    if bySrc then Relay(self', other', p) else Relay(other', self', p)
  }

  /** A callback of `self` in terms of the two sides. */
  lemma Told(r: Relay, m: Move, self: Conn<byte>, other: Conn<byte>, e: Event)
    requires RelayCan(r, m) && Events(r, m) == [e] && self == Own(r, m.bySrc) && other == Own(r, !m.bySrc)
    ensures var x := React(r.pair.ends, m.bySrc, e, r.src.inbox.unread, self.inbox.unread + Arrived(m.step), m.created);
            && RelayNext(r, m) == Joined(m.bySrc, Next(self, m.step), ApplyAll(other, x.other),
                                         Noted(r.pair, m.bySrc, e, x, m.created, Undecided(r.dst.stage)))
            && (m.step.Handshook? || m.step.Posted? || m.step.ReadDone? || m.step.WriteDone? ==> m.step.cb == x.own)
  {
  }

  lemma QuietMove(r: Relay, m: Move)
    requires RelayInv(r) && RelayCan(r, m) && Events(r, m) == []
    ensures RelayInv(RelayNext(r, m))
  {
    QuietStep(m.bySrc, Own(r, m.bySrc), Own(r, !m.bySrc), r.pair, m.step);
    if m.bySrc {
      assert RelayNext(r, m) == Relay(Next(r.src, m.step), r.dst, r.pair);
    } else {
      assert RelayNext(r, m) == Relay(r.src, Next(r.dst, m.step), r.pair);
    }
  }

  lemma SrcMove(r: Relay, m: Move, e: Event)
    requires RelayInv(r) && RelayCan(r, m) && m.bySrc && Events(r, m) == [e]
    ensures RelayInv(RelayNext(r, m))
  {
    WhoCalls(r.src, m.step);
    Told(r, m, r.src, r.dst, e);
    match e
    case OnAccept => AcceptStep(r.src, r.dst, r.pair, m.step, m.created);
    case OnConnect(_) => assert false;
    case OnRecv => RecvStep(true, r.src, r.dst, r.pair, m.step, m.created, Undecided(r.dst.stage));
    case OnSend => SendStep(true, r.src, r.dst, r.pair, m.step, m.created, Undecided(r.dst.stage));
    case OnClose => CloseStep(true, r.src, r.dst, r.pair, m.step, m.created, Undecided(r.dst.stage));
  }

  lemma DstMove(r: Relay, m: Move, e: Event)
    requires RelayInv(r) && RelayCan(r, m) && !m.bySrc && Events(r, m) == [e]
    ensures RelayInv(RelayNext(r, m))
  {
    WhoCalls(r.dst, m.step);
    Told(r, m, r.dst, r.src, e);
    match e
    case OnAccept => assert false;
    case OnConnect(ok) =>
      if ok { ConnectStep(r.src, r.dst, r.pair, m.step, m.created); }
      else { RefuseStep(r.src, r.dst, r.pair, m.step, m.created); }
    case OnRecv => RecvStep(false, r.dst, r.src, r.pair, m.step, m.created, Undecided(r.dst.stage));
    case OnSend => SendStep(false, r.dst, r.src, r.pair, m.step, m.created, Undecided(r.dst.stage));
    case OnClose => CloseStep(false, r.dst, r.src, r.pair, m.step, m.created, Undecided(r.dst.stage));
  }

  lemma MoveKeeps(r: Relay, m: Move)
    requires RelayInv(r) && RelayCan(r, m)
    ensures RelayInv(RelayNext(r, m))
  {
    if Events(r, m) == [] {
      QuietMove(r, m);
    } else {
      WhoCalls(Own(r, m.bySrc), m.step);
      if m.bySrc { SrcMove(r, m, Events(r, m)[0]); } else { DstMove(r, m, Events(r, m)[0]); }
    }
  }

  lemma {:induction false} RunKeeps(r: Relay, run: seq<Move>)
    requires RelayInv(r) && RelayLegal(r, run)
    ensures RelayInv(RelayRun(r, run))
    decreases |run|
  {
    if run != [] {
      MoveKeeps(r, run[0]);
      RunKeeps(RelayNext(r, run[0]), run[1..]);
    }
  }

  // ---------------------------------------------------------------- no byte is lost

  /** In each direction the bytes received are the bytes handed to the other connection, in order,
      followed by the bytes still unread; and while both ends of the pair are set nothing is unread. */
  lemma RelayConservation(r0: Relay, run: seq<Move>)
    requires RelayInit(r0) && RelayLegal(r0, run)
    ensures var r := RelayRun(r0, run);
            && r.src.inbox.delivered ==
               Flatten(r.dst.queue.sent + r.dst.queue.deque + I.Packs(r.dst.posted)) + r.src.inbox.unread
            && r.dst.inbox.delivered ==
               Flatten(r.src.queue.sent + r.src.queue.deque + I.Packs(r.src.posted)) + r.dst.inbox.unread
            && (r.pair.ends.src && r.pair.ends.dst ==> r.src.inbox.unread == [] && r.dst.inbox.unread == [])
  {
    InitKeeps(r0);
    RunKeeps(r0, run);
  }

  // ---------------------------------------------------------------- the release of the pair

  /** The pair is released once src has closed and dst does not run, and a second time exactly when src
      closed before the outcome of the connect and dst has opened and closed all the same. */
  lemma ReleaseCount(r0: Relay, run: seq<Move>)
    requires RelayInit(r0) && RelayLegal(r0, run)
    ensures var r := RelayRun(r0, run);
            && r.pair.releases <= 2
            && (r.pair.releases >= 1 <==> r.pair.linked && !r.src.running && (r.pair.early || !r.dst.running))
            && (r.pair.releases == 2 <==> r.pair.early && r.dst.stage.Opened? && !r.dst.running)
  {
    InitKeeps(r0);
    RunKeeps(r0, run);
  }

  /** src stops running while the outcome of the connect that was asked for is still to come. */
  ghost predicate LeavesEarly(r: Relay, t: Relay) {
    t.pair.linked && r.src.running && !t.src.running && Undecided(t.dst.stage)
  }

  ghost predicate LeftEarly(r: Relay, run: seq<Move>)
    requires RelayLegal(r, run)
    decreases |run|
  {
    run != [] && (LeavesEarly(r, RelayNext(r, run[0])) || LeftEarly(RelayNext(r, run[0]), run[1..]))
  }

  lemma EarlyMove(r: Relay, m: Move)
    requires RelayInv(r) && RelayCan(r, m)
    ensures RelayNext(r, m).pair.early <==> r.pair.early || LeavesEarly(r, RelayNext(r, m))
  {
    MoveKeeps(r, m);
    var t := RelayNext(r, m);
    assert Counted(Look(t.src), Look(t.dst), t.pair) && Counted(Look(r.src), Look(r.dst), r.pair);
    OtherStage(Own(r, !m.bySrc), Reply(r, m).other);
  }

  lemma {:induction false} EarlyFrom(r: Relay, run: seq<Move>)
    requires RelayInv(r) && RelayLegal(r, run)
    ensures RelayRun(r, run).pair.early <==> r.pair.early || LeftEarly(r, run)
    decreases |run|
  {
    if run != [] {
      MoveKeeps(r, run[0]);
      EarlyMove(r, run[0]);
      EarlyFrom(RelayNext(r, run[0]), run[1..]);
    }
  }

  /** The pair's note that src closed before the outcome of the connect is right, over every run. */
  lemma EarlyIff(r0: Relay, run: seq<Move>)
    requires RelayInit(r0) && RelayLegal(r0, run)
    ensures RelayRun(r0, run).pair.early <==> LeftEarly(r0, run)
  {
    InitKeeps(r0);
    EarlyFrom(r0, run);
  }

  /** When src outlived the connect, and one connection has closed or dst was refused, running the posted
      handlers to the end leaves both connections closed and the pair released exactly once. */
  lemma DrainedRelease(r0: Relay, run: seq<Move>)
    requires RelayInit(r0) && RelayLegal(r0, run)
    requires var r := RelayRun(r0, run);
             && r.pair.linked && !r.pair.early && r.src.posted == [] && r.dst.posted == []
             && (!r.src.running || r.dst.stage.Failed? || (r.dst.stage.Opened? && !r.dst.running))
    ensures var r := RelayRun(r0, run); !r.src.running && !r.dst.running && r.pair.releases == 1
  {
    InitKeeps(r0);
    RunKeeps(r0, run);
  }

  predicate Reported(s: Stage) {
    s.Opened? || s.Failed?
  }

  lemma OtherStage(s: Conn<byte>, calls: seq<Call>)
    ensures ApplyAll(s, calls).stage == s.stage
  {
    var _ := I.CallsGrow(s, calls);
  }

  /** How far a callback's own connection has come. */
  lemma ReportedAfter(s: Conn<byte>, step: Step<byte>, e: Event)
    requires Plain(s) && Enabled(s, step) && Announcement(s, step) == [e]
    ensures e.OnAccept? || e.OnConnect? <==> !Reported(s.stage)
    ensures Reported(Next(s, step).stage)
    ensures e.OnClose? ==> s.running
    ensures e.OnRecv? ==> step.ReadDone? && step.ok && |s.inbox.unread| + |step.data| >= s.inbox.mark
    ensures e.OnRecv? ==> s.stage.Opened?
  {
    WhoCalls(s, step);
    match e
    case OnAccept => BlankBeforeOpening(s, step); OpenedStage(s, step);
    case OnConnect(ok) => if ok { BlankBeforeOpening(s, step); OpenedStage(s, step); } else { RefusedStep(s, step); }
    case OnRecv => RunningStep(s, step);
    case OnSend => WritesOpen(s); RunningStep(s, step);
    case OnClose => RunningStep(s, step);
  }

  lemma OpenedStage(s: Conn<byte>, step: Step<byte>)
    requires Plain(s) && Enabled(s, step) && Announcement(s, step) == [OpenEvent(s)]
    ensures Next(s, step).stage.Opened?
  {
    BlankBeforeOpening(s, step);
    var u := if step.Posted? then s.(posted := s.posted[1..]) else s;
    InvokeFrame(u.(running := true, stage := Opened), OpenEvent(u), step.cb);
  }

  lemma TouchedMove(r: Relay, m: Move)
    requires RelayInv(r) && RelayCan(r, m)
    requires r.pair.early && Reported(r.dst.stage) ==> r.pair.touched
    ensures var t := RelayNext(r, m);
            && (t.pair.touched <==> r.pair.touched || (t.pair.early && Reported(t.dst.stage)) || LateUse(r, m))
            && (r.pair.early && Reported(r.dst.stage) ==> t.pair.early && Reported(t.dst.stage))
  {
    if Events(r, m) == [] {
      UnannouncedStep(Own(r, m.bySrc), m.step);
      QuietIsNoUse(r, m);
    } else {
      WhoCalls(Own(r, m.bySrc), m.step);
      TouchedCallback(r, m, Events(r, m)[0]);
    }
  }

  lemma TouchedCallback(r: Relay, m: Move, e: Event)
    requires RelayInv(r) && RelayCan(r, m) && Events(r, m) == [e]
    requires r.pair.early && Reported(r.dst.stage) ==> r.pair.touched
    ensures var t := RelayNext(r, m);
            && (t.pair.touched <==> r.pair.touched || (t.pair.early && Reported(t.dst.stage)) || LateUse(r, m))
            && (r.pair.early && Reported(r.dst.stage) ==> t.pair.early && Reported(t.dst.stage))
  {
    var self, other := Own(r, m.bySrc), Own(r, !m.bySrc);
    WhoCalls(self, m.step);
    Told(r, m, self, other, e);
    ReportedAfter(self, m.step, e);
    OtherStage(other, Reply(r, m).other);
  }

  lemma QuietIsNoUse(r: Relay, m: Move)
    requires RelayInv(r) && RelayCan(r, m) && Events(r, m) == []
    ensures !LateUse(r, m)
  {
  }

  lemma {:induction false} TouchedFrom(r: Relay, run: seq<Move>)
    requires RelayInv(r) && RelayLegal(r, run)
    requires r.pair.early && Reported(r.dst.stage) ==> r.pair.touched
    ensures var t := RelayRun(r, run);
            t.pair.touched <==> r.pair.touched || (t.pair.early && Reported(t.dst.stage)) || UsedLate(r, run)
    ensures var t := RelayRun(r, run);
            r.pair.early && Reported(r.dst.stage) ==> t.pair.early && Reported(t.dst.stage)
    decreases |run|
  {
    if run != [] {
      MoveKeeps(r, run[0]);
      TouchedMove(r, run[0]);
      TouchedFrom(RelayNext(r, run[0]), run[1..]);
    }
  }

  /** Over every run the pair is used after its release in exactly two ways: src closed before the outcome of
      the connect, which was then reported, or a read completed before its connection closed and is
      announced after the release. */
  lemma TouchedIff(r0: Relay, run: seq<Move>)
    requires RelayInit(r0) && RelayLegal(r0, run)
    ensures var r := RelayRun(r0, run);
            r.pair.touched <==> (r.pair.early && Reported(r.dst.stage)) || UsedLate(r0, run)
  {
    InitKeeps(r0);
    TouchedFrom(r0, run);
  }

  // ---------------------------------------------------------------- a refusal that is not reported

  /** Of the source's steps one is an error, or a callback that was answered false. */
  ghost predicate SrcFatal(r: Relay, run: seq<Move>)
    requires RelayLegal(r, run)
    decreases |run|
  {
    run != [] && ((run[0].bySrc && Fatal(r.src, run[0].step)) || SrcFatal(RelayNext(r, run[0]), run[1..]))
  }

  /** No close is due. */
  predicate Calmly(s: Conn<byte>) {
    Stop !in s.posted && (s.stage.Opened? ==> s.running)
  }

  lemma {:induction false} CallsStayCalm(s: Conn<byte>, calls: seq<Call>)
    requires Stop !in s.posted && Close !in calls
    ensures Stop !in ApplyAll(s, calls).posted
    decreases |calls|
  {
    if calls != [] {
      CallsStayCalm(Apply(s, calls[0]), calls[1..]);
    }
  }

  lemma OpeningStaysCalm(s: Conn<byte>, cb: Callback)
    requires Stop !in s.posted && Close !in cb.calls && s.setup.service && cb.ok
    ensures Calmly(HandleHandshake(s, true, cb))
  {
    var open := s.(running := true, stage := Opened, trace := s.trace + [OpenEvent(s)]);
    CallsStayCalm(open, cb.calls);
    InvokeFrame(s.(running := true, stage := Opened), OpenEvent(s), cb);
  }

  lemma TaskStaysCalm(s: Conn<byte>, cb: Callback)
    requires Plain(s) && Calmly(s) && s.posted != [] && !Fatal(s, Posted(cb)) && Close !in cb.calls
    ensures Calmly(RunTask(s, cb))
  {
    assert s.posted[0] in s.posted;
    if s.posted[0].Start? && !s.setup.ssl {
      assert Announcement(s, Posted(cb)) == [OpenEvent(s)];
      OpeningStaysCalm(s.(posted := s.posted[1..]), cb);
    }
  }

  lemma ReadStaysCalm(s: Conn<byte>, ok: bool, data: Bytes, cb: Callback)
    requires Plain(s) && Calmly(s) && s.inbox.reading > 0 && Enabled(s, ReadDone(ok, data, cb))
    requires !Fatal(s, ReadDone(ok, data, cb)) && Close !in cb.calls
    ensures Calmly(HandleRecv(s, ok, data, cb))
  {
    var filled := Receive(Idle(s), data);
    CallsStayCalm(filled.(trace := filled.trace + [OnRecv]), cb.calls);
    RecvEvents(s, ok, data, cb);
  }

  lemma WriteStaysCalm(s: Conn<byte>, ok: bool, cb: Callback)
    requires Plain(s) && Calmly(s) && s.queue.outstanding != [] && !Fatal(s, WriteDone(ok, cb)) && Close !in cb.calls
    ensures Calmly(HandleSend(s, ok, cb))
  {
    var t := s.(queue := I.Q.Finish(s.queue));
    CallsStayCalm(t.(trace := t.trace + [OnSend]), cb.calls);
    SendEvents(s, ok, cb);
    DrainingWrite(s, ok, cb);
    SentByCompletion(s, WriteDone(ok, cb));
  }

  /** Without an error, a false answer or a close call, no close becomes due. */
  lemma StaysCalm(s: Conn<byte>, step: Step<byte>)
    requires Plain(s) && Calmly(s) && Enabled(s, step) && !step.Api? && !step.Accepted? && !Fatal(s, step)
    requires step.Handshook? || step.Posted? || step.ReadDone? || step.WriteDone? ==> Close !in step.cb.calls
    ensures Calmly(Next(s, step))
  {
    match step
    case Posted(cb) => TaskStaysCalm(s, cb);
    case ReadDone(ok, data, cb) => ReadStaysCalm(s, ok, data, cb);
    case WriteDone(ok, cb) => WriteStaysCalm(s, ok, cb);
    case Handshook(ok, cb) => if ok { OpeningStaysCalm(s, cb); }
    case Resolved(_, _) =>
    case Connected(_) =>
  }

  lemma NoOwnClose(r: Relay, m: Move)
    requires RelayCan(r, m)
    ensures Close !in Reply(r, m).own.calls
  {
  }

  /** A reported outcome stays, and only dst's own report of one can call src's close. */
  lemma DstQuietOrReported(r: Relay, m: Move)
    requires RelayInv(r) && RelayCan(r, m)
    ensures Reported(r.dst.stage) ==> Reported(RelayNext(r, m).dst.stage)
    ensures !m.bySrc ==> Reported(RelayNext(r, m).dst.stage) || RelayNext(r, m).src == r.src
  {
    if Events(r, m) == [] {
      UnannouncedStep(Own(r, m.bySrc), m.step);
    } else {
      WhoCalls(Own(r, m.bySrc), m.step);
      var e := Events(r, m)[0];
      Told(r, m, Own(r, m.bySrc), Own(r, !m.bySrc), e);
      ReportedAfter(Own(r, m.bySrc), m.step, e);
      OtherStage(Own(r, !m.bySrc), Reply(r, m).other);
    }
  }

  lemma SrcStaysCalm(r: Relay, m: Move)
    requires RelayInv(r) && RelayCan(r, m) && m.bySrc && Calmly(r.src) && !r.src.stage.Accepting?
    requires !Fatal(r.src, m.step)
    ensures Calmly(RelayNext(r, m).src)
  {
    NoOwnClose(r, m);
    StaysCalm(r.src, m.step);
  }

  lemma {:induction false} UnreportedFrom(r: Relay, run: seq<Move>)
    requires RelayInv(r) && RelayLegal(r, run) && !SrcFatal(r, run)
    requires Reported(r.dst.stage) || Calmly(r.src)
    requires !r.src.stage.Accepting?
    ensures var t := RelayRun(r, run); Reported(t.dst.stage) || Calmly(t.src)
    decreases |run|
  {
    if run != [] {
      var t := RelayNext(r, run[0]);
      MoveKeeps(r, run[0]);
      DstQuietOrReported(r, run[0]);
      SrcNotAccepting(r, run[0]);
      if !Reported(r.dst.stage) && run[0].bySrc {
        SrcStaysCalm(r, run[0]);
      }
      UnreportedFrom(t, run[1..]);
    }
  }

  lemma SrcNotAccepting(r: Relay, m: Move)
    requires RelayInv(r) && RelayCan(r, m) && !r.src.stage.Accepting?
    ensures !RelayNext(r, m).src.stage.Accepting?
  {
    if m.bySrc {
      NeverAccepting(r.src, m.step);
    } else {
      OtherStage(r.src, Reply(r, m).other);
    }
  }

  lemma NeverAccepting(s: Conn<byte>, step: Step<byte>)
    requires Enabled(s, step) && !s.stage.Accepting?
    ensures !Next(s, step).stage.Accepting?
  {
    match step
    case Posted(cb) => if s.posted[0].Start? || s.posted[0].Stop? { TaskEvents(s, cb); }
    case ReadDone(ok, data, cb) => RecvEvents(s, ok, data, cb);
    case WriteDone(ok, cb) => OtherStage(s.(queue := I.Q.Finish(s.queue), trace := s.trace + [OnSend]), cb.calls);
    case Handshook(ok, cb) =>
      OtherStage(s.(running := true, stage := Opened, trace := s.trace + [OpenEvent(s)]), cb.calls);
    case Api(_) =>
    case Resolved(_, _) =>
    case Connected(_) =>
    case Accepted(_) =>
  }

  /** When dst could not be connected, nothing else has ended src and the handlers have all run: src has been closed
      and the pair released if the refusal was reported, and if it was not, src stays open for good. */
  lemma RefusalClosesIff(r0: Relay, run: seq<Move>)
    requires RelayInit(r0) && RelayLegal(r0, run) && !SrcFatal(r0, run)
    requires var r := RelayRun(r0, run);
             && r.pair.linked && !r.pair.early && r.src.posted == []
             && (r.dst.stage.Failed? || r.dst.stage.Silent?)
    ensures var r := RelayRun(r0, run);
            && (!r.src.running <==> r.dst.stage.Failed?)
            && r.pair.releases == if r.dst.stage.Failed? then 1 else 0
  {
    InitKeeps(r0);
    RunKeeps(r0, run);
    UnreportedFrom(r0, run);
  }

  // ---------------------------------------------------------------- nobody is hung up on

  /** A read, a write or a handshake has failed. */
  predicate Fails(step: Step<byte>) {
    (step.ReadDone? && !step.ok) || (step.WriteDone? && !step.ok) || (step.Handshook? && !step.ok)
  }

  predicate NothingFails(run: seq<Move>) {
    forall m | m in run :: !Fails(m.step)
  }

  /** Open, with no close due, and reading on. */
  predicate Fine(s: Conn<byte>) {
    s.stage.Opened? && s.running && Stop !in s.posted && !s.inbox.ended
  }

  /** Unless dst was refused: src is fine once dst has been asked for and keeps everything it receives until dst opens,
      and then dst is fine, too. */
  ghost predicate Served(r: Relay) {
    r.pair.linked && !r.dst.stage.Failed? ==>
      && Fine(r.src)
      && (if r.dst.stage.Opened? then Fine(r.dst) else r.src.inbox.consumed == [])
  }

  /** A step of a connection that is fine, answered true and without a close. */
  lemma StaysFine(s: Conn<byte>, step: Step<byte>)
    requires Plain(s) && Fine(s) && Enabled(s, step) && !step.Api? && !Fails(step)
    requires Announcement(s, step) != [] ==> step.cb.ok && Close !in step.cb.calls
    ensures Fine(Next(s, step))
  {
    M.StepMeans(s, step);
    RunningStep(s, step);
    FineAsksNothing(s, step);
  }

  lemma FineAsksNothing(s: Conn<byte>, step: Step<byte>)
    requires Plain(s) && Fine(s) && Enabled(s, step) && !step.Api? && !Fails(step)
    requires Announcement(s, step) != [] ==> step.cb.ok && Close !in step.cb.calls
    ensures !M.Asks(s, step) && !M.Quits(s, step) && !(step.Posted? && s.posted[0].Stop?)
  {
    if step.Posted? {
      assert s.posted[0] in s.posted;
    }
  }

  /** The opening callback, answered true and without a close. */
  lemma OpensFine(s: Conn<byte>, step: Step<byte>)
    requires Plain(s) && Enabled(s, step) && Announcement(s, step) == [OpenEvent(s)]
    requires step.cb.ok && Close !in step.cb.calls
    ensures Fine(Next(s, step)) && s.inbox.consumed == [] && s.inbox.unread == [] && !s.stage.Opened?
  {
    OpeningStage(s, step);
    BlankBeforeOpening(s, step);
    M.UntouchedBefore(s);
    var u := if step.Posted? then s.(posted := s.posted[1..]) else s;
    M.OpeningMeans(u, step.cb);
    InvokeFrame(u.(running := true, stage := Opened), OpenEvent(u), step.cb);
  }

  /** What the other connection's callback calls leaves it fine, unless it is a close. */
  lemma CalledStaysFine(s: Conn<byte>, calls: seq<Call>)
    requires Fine(s) && Close !in calls
    ensures Fine(ApplyAll(s, calls))
  {
    M.CallsMean(s, calls);
    var _ := I.CallsGrow(s, calls);
  }

  lemma LinkedSrcServed(r: Relay, m: Move)
    requires RelayInv(r) && RelayCan(r, m) && m.bySrc && Served(r) && !Fails(m.step)
    requires r.pair.linked && !r.dst.stage.Failed?
    ensures Served(RelayNext(r, m))
  {
    OtherStage(r.dst, Reply(r, m).other);
    SrcAnswered(r, m);
    StaysFine(r.src, m.step);
    if r.dst.stage.Opened? {
      CalledStaysFine(r.dst, Reply(r, m).other);
    } else {
      KeepsAll(r, m);
    }
  }

  lemma AcceptServed(r: Relay, m: Move)
    requires RelayInv(r) && RelayCan(r, m) && m.bySrc && !r.pair.linked
    ensures Served(RelayNext(r, m))
  {
    OtherStage(r.dst, Reply(r, m).other);
    if Events(r, m) == [OnAccept] && m.created {
      Told(r, m, r.src, r.dst, OnAccept);
      WhoCalls(r.src, m.step);
      OpensFine(r.src, m.step);
      OpensEmpty(r.src, m.step);
    } else {
      NotLinkedYet(r, m);
    }
  }

  lemma NotLinkedYet(r: Relay, m: Move)
    requires RelayCan(r, m) && m.bySrc && !r.pair.linked && !(Events(r, m) == [OnAccept] && m.created)
    ensures !RelayNext(r, m).pair.linked
  {
    if Events(r, m) != [] {
      WhoCalls(r.src, m.step);
    }
  }

  /** src does not decide whether dst has failed. */
  lemma SrcServed(r: Relay, m: Move)
    requires RelayInv(r) && RelayCan(r, m) && m.bySrc && Served(r) && !Fails(m.step)
    ensures Served(RelayNext(r, m))
  {
    if !r.pair.linked {
      AcceptServed(r, m);
    } else if r.dst.stage.Failed? {
      OtherStage(r.dst, Reply(r, m).other);
    } else {
      LinkedSrcServed(r, m);
    }
  }

  /** dst's callbacks are answered true while src is fine. */
  lemma DstAnswered(r: Relay, m: Move)
    requires RelayInv(r) && RelayCan(r, m) && !m.bySrc && !r.dst.stage.Failed? && Served(r)
    requires !RelayNext(r, m).dst.stage.Failed?
    ensures Events(r, m) != [] ==> m.step.cb == Reply(r, m).own && m.step.cb.ok && Close !in m.step.cb.calls
    ensures Close !in Reply(r, m).other
    ensures Events(r, m) == [] ==> RelayNext(r, m).src == r.src
  {
    if Events(r, m) != [] {
      var e := Events(r, m)[0];
      WhoCalls(r.dst, m.step);
      Told(r, m, r.dst, r.src, e);
      if e.OnConnect? {
        NotRefused(r.dst, m.step);
      } else if !r.dst.stage.Opened? {
        ReportedAfter(r.dst, m.step, e);
      } else {
        FineIsTold(r.dst, m.step);
      }
      AnsweredTrue(r.pair.ends, false, e, r.src.inbox.unread, r.dst.inbox.unread + Arrived(m.step), m.created);
    }
  }

  lemma NotRefused(s: Conn<byte>, step: Step<byte>)
    requires Plain(s) && Enabled(s, step) && !Next(s, step).stage.Failed?
    ensures Announcement(s, step) != [OnConnect(false)]
  {
    if Announcement(s, step) == [OnConnect(false)] {
      RefusedStep(s, step);
    }
  }

  lemma DstServed(r: Relay, m: Move)
    requires RelayInv(r) && RelayCan(r, m) && !m.bySrc && Served(r) && !Fails(m.step)
    ensures Served(RelayNext(r, m))
  {
    var t := RelayNext(r, m);
    if !r.dst.stage.Failed? && !t.dst.stage.Failed? {
      DstAnswered(r, m);
      CalledStaysFine(r.src, Reply(r, m).other);
      if r.dst.stage.Opened? {
        StaysFine(r.dst, m.step);
      } else {
        DstOpens(r, m);
      }
    } else if r.dst.stage.Failed? {
      FailedIsOver(r.dst, m.step);
    }
  }

  /** A refused connection has nothing more to do. */
  lemma FailedIsOver(s: Conn<byte>, step: Step<byte>)
    requires Plain(s) && s.stage.Failed? && !step.Api?
    ensures !Enabled(s, step)
  {
  }

  lemma DstOpens(r: Relay, m: Move)
    requires RelayInv(r) && RelayCan(r, m) && !m.bySrc && Served(r) && !r.dst.stage.Failed? && !r.dst.stage.Opened?
    requires !RelayNext(r, m).dst.stage.Failed?
    ensures var t := RelayNext(r, m); if t.dst.stage.Opened? then Fine(t.dst) else t.src.inbox.consumed == []
  {
    DstAnswered(r, m);
    if Events(r, m) == [] {
      UnannouncedStep(r.dst, m.step);
    } else {
      WhoCalls(r.dst, m.step);
      ReportedAfter(r.dst, m.step, Events(r, m)[0]);
      OpensFine(r.dst, m.step);
    }
  }

  lemma {:induction false} ServedFrom(r: Relay, run: seq<Move>)
    requires RelayInv(r) && Served(r) && RelayLegal(r, run) && NothingFails(run)
    ensures Served(RelayRun(r, run))
    decreases |run|
  {
    if run != [] {
      assert run[0] in run;
      MoveKeeps(r, run[0]);
      if run[0].bySrc {
        SrcServed(r, run[0]);
      } else {
        DstServed(r, run[0]);
      }
      ServedFrom(RelayNext(r, run[0]), run[1..]);
    }
  }

  /** Over every run in which no read, write or handshake fails: once dst has been asked for, and unless it was refused,
      src is open with no close due and reads on; until dst opens everything received is kept; and after dst has
      opened it is open, too, with no close due, and reads on. */
  lemma NobodyIsHungUpOn(r0: Relay, run: seq<Move>)
    requires RelayInit(r0) && RelayLegal(r0, run) && NothingFails(run)
    requires var r := RelayRun(r0, run); r.pair.linked && !r.dst.stage.Failed?
    ensures var r := RelayRun(r0, run);
            && Fine(r.src) && r.src.inbox.reading == 1
            && (!r.dst.stage.Opened? ==> r.src.inbox.unread == r.src.inbox.delivered)
            && (r.dst.stage.Opened? ==> Fine(r.dst) && r.dst.inbox.reading == 1)
  {
    InitKeeps(r0);
    ServedFrom(r0, run);
    RunKeeps(r0, run);
    var r := RelayRun(r0, run);
    if !r.dst.stage.Opened? {
      assert r.src.inbox.consumed + r.src.inbox.unread == r.src.inbox.unread;
    }
  }

  /** An accepted connection for which no dst could be asked for is closed, or its close is posted. */
  lemma UnservedIsClosed(r0: Relay, run: seq<Move>)
    requires RelayInit(r0) && RelayLegal(r0, run)
    requires var r := RelayRun(r0, run); r.src.stage.Opened? && !r.pair.linked
    ensures var r := RelayRun(r0, run); !r.src.running || Stop in r.src.posted
  {
    InitKeeps(r0);
    RunKeeps(r0, run);
    assert Linked(Look(RelayRun(r0, run).src), Look(RelayRun(r0, run).dst), RelayRun(r0, run).pair);
  }

  /** A connection of the relay that has closed reads no more after a late read is announced. */
  lemma LateReadIsLast(r: Relay, m: Move)
    requires RelayInv(r) && RelayCan(r, m) && Events(r, m) == [OnRecv] && !Own(r, m.bySrc).running
    ensures Own(RelayNext(r, m), m.bySrc).inbox.ended && Own(RelayNext(r, m), m.bySrc).inbox.reading == 0
  {
    var self := Own(r, m.bySrc);
    WhoCalls(self, m.step);
    Told(r, m, self, Own(r, !m.bySrc), OnRecv);
    RefusedReadEnds(self, m.step);
  }

  lemma RefusedReadEnds(s: Conn<byte>, step: Step<byte>)
    requires Plain(s) && Enabled(s, step) && step.ReadDone? && Announcement(s, step) == [OnRecv] && !step.cb.ok
    ensures Next(s, step).inbox.ended && Next(s, step).inbox.reading == 0
  {
    M.StepMeans(s, step);
    I.StepKeeps(s, step);
    RunningStep(s, step);
  }

  /** Answers to callbacks while both connections are set, or only src, which is being told. */
  lemma AnsweredTrue(ends: Ends, bySrc: bool, e: Event, waiting: Bytes, unread: Bytes, created: bool)
    requires ends.src && (bySrc || ends.dst || e == OnConnect(true)) && (e.OnRecv? || e.OnSend? || e == OnConnect(true))
    ensures var x := React(ends, bySrc, e, waiting, unread, created);
            x.own.ok && Close !in x.own.calls && Close !in x.other
  {
  }

  /** A connection that is fine is only told of data. */
  lemma FineIsTold(s: Conn<byte>, step: Step<byte>)
    requires Plain(s) && Fine(s) && Enabled(s, step) && Announcement(s, step) != []
    ensures Announcement(s, step)[0].OnRecv? || Announcement(s, step)[0].OnSend?
  {
    assert s.posted != [] ==> s.posted[0] in s.posted;
    WhoCalls(s, step);
  }

  /** src's callbacks are answered true while both are fine, or dst is still to come. */
  lemma SrcAnswered(r: Relay, m: Move)
    requires RelayInv(r) && RelayCan(r, m) && m.bySrc && r.pair.linked && !r.dst.stage.Failed? && Served(r)
    ensures Events(r, m) != [] ==> m.step.cb == Reply(r, m).own && m.step.cb.ok && Close !in m.step.cb.calls
    ensures Close !in Reply(r, m).other
    ensures RelayNext(r, m).pair.linked
  {
    if Events(r, m) != [] {
      var e := Events(r, m)[0];
      WhoCalls(r.src, m.step);
      FineIsTold(r.src, m.step);
      Told(r, m, r.src, r.dst, e);
      AnsweredTrue(r.pair.ends, true, e, r.src.inbox.unread, r.src.inbox.unread + Arrived(m.step), m.created);
    }
  }

  lemma KeepsAll(r: Relay, m: Move)
    requires RelayInv(r) && RelayCan(r, m) && m.bySrc && r.pair.linked && Served(r)
    requires !r.dst.stage.Failed? && !r.dst.stage.Opened?
    ensures Next(r.src, m.step).inbox.consumed == []
  {
    M.StepMeans(r.src, m.step);
  }

  lemma OpensEmpty(s: Conn<byte>, step: Step<byte>)
    requires Plain(s) && Enabled(s, step) && Announcement(s, step) == [OpenEvent(s)] && step.cb.calls == []
    ensures Next(s, step).inbox.consumed == []
  {
    OpenedStep(s, step, []);
  }
}
