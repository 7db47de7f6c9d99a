/** Runs of the relay that show each of its failures. The client's side of the sample uses ssl, and the runs are
    given for both. */
module ProxyWitnesses {
  import opened Octets
  import opened ConnectionMachine
  import opened ProxyMachine

  const YES := Callback([], true)
  const NO := Callback([], false)

  /** src runs the front of its posted queue, and dst of its own. */
  const SRC_TASK := Move(true, Posted(YES), true)
  const DST_TASK := Move(false, Posted(YES), true)
  /** src's peer goes away. */
  const SRC_GONE := Move(true, ReadDone(false, [], YES), true)
  const FOUND := Move(false, Resolved(true, 1), true)
  const MADE := Move(false, Connected(true), true)

  // ---------------------------------------------------------------- putting runs together

  lemma Cons(r: Relay, m: Move, t: Relay, rest: seq<Move>)
    requires RelayCan(r, m) && t == RelayNext(r, m) && RelayLegal(t, rest)
    ensures RelayLegal(r, [m] + rest) && RelayRun(r, [m] + rest) == RelayRun(t, rest)
  {
    assert ([m] + rest)[1..] == rest;
  }

  lemma TwoThen(r0: Relay, r1: Relay, r2: Relay, a: Move, b: Move, rest: seq<Move>)
    requires RelayCan(r0, a) && r1 == RelayNext(r0, a) && RelayCan(r1, b) && r2 == RelayNext(r1, b)
    requires RelayLegal(r2, rest)
    ensures RelayLegal(r0, [a, b] + rest) && RelayRun(r0, [a, b] + rest) == RelayRun(r2, rest)
  {
    Cons(r1, b, r2, rest);
    Cons(r0, a, r1, [b] + rest);
    assert [a] + ([b] + rest) == [a, b] + rest;
  }

  lemma ThreeThen(r0: Relay, r1: Relay, r2: Relay, r3: Relay, a: Move, b: Move, c: Move, rest: seq<Move>)
    requires RelayCan(r0, a) && r1 == RelayNext(r0, a) && RelayCan(r1, b) && r2 == RelayNext(r1, b)
    requires RelayCan(r2, c) && r3 == RelayNext(r2, c) && RelayLegal(r3, rest)
    ensures RelayLegal(r0, [a, b, c] + rest) && RelayRun(r0, [a, b, c] + rest) == RelayRun(r3, rest)
  {
    TwoThen(r1, r2, r3, b, c, rest);
    Cons(r0, a, r1, [b, c] + rest);
    assert [a] + ([b, c] + rest) == [a, b, c] + rest;
  }

  lemma Last(r: Relay, m: Move, t: Relay)
    requires RelayCan(r, m) && t == RelayNext(r, m)
    ensures RelayLegal(r, [m]) && RelayRun(r, [m]) == t
  {
    Cons(r, m, t, []);
    assert [m] + [] == [m];
  }

  // ---------------------------------------------------------------- dst, up to the opening callback

  function NewDst(ssl: bool): Conn<byte> {
    Fresh(Setup(Tcp, false, ssl, true), Resolving, [])
  }

  /** dst with its socket connected, about to start, or with ssl to finish the handshake. */
  function ReadyDst(ssl: bool): Conn<byte> {
    Fresh(Setup(Tcp, false, ssl, true), if ssl then Handshaking else Scheduled, if ssl then [] else [Start])
      .(attempts := [true])
  }

  /** The moves that bring it there. */
  function ToReady(ssl: bool): seq<Move> {
    if ssl then [FOUND, MADE, DST_TASK] else [FOUND, MADE]
  }

  /** The move of dst that ends in on_connect, answered by `cb`. */
  function Opening(ssl: bool, cb: Callback): Move {
    Move(false, if ssl then Handshook(true, cb) else Posted(cb), true)
  }

  lemma Connects(r: Relay) returns (r1: Relay, r2: Relay)
    requires r.pair.linked && r.dst == NewDst(r.dst.setup.ssl)
    ensures RelayCan(r, FOUND) && r1 == RelayNext(r, FOUND)
    ensures RelayCan(r1, MADE) && r2 == RelayNext(r1, MADE)
    ensures r2 == r.(dst := Fresh(r.dst.setup, Scheduled, [Start]).(attempts := [true]))
  {
    r1 := RelayNext(r, FOUND);
    assert r1 == r.(dst := r.dst.(stage := Connecting(1)));
    r2 := RelayNext(r1, MADE);
    assert [] + [Start] == [Start] && [] + [true] == [true];
  }

  lemma ShakesHands(r: Relay)
    requires r.pair.linked && r.dst == Fresh(Setup(Tcp, false, true, true), Scheduled, [Start]).(attempts := [true])
    ensures RelayCan(r, DST_TASK) && RelayNext(r, DST_TASK) == r.(dst := ReadyDst(true))
  {
    assert [Start][1..] == [];
  }

  lemma ReadyThen(r: Relay, rest: seq<Move>)
    requires r.pair.linked && r.dst == NewDst(r.dst.setup.ssl)
    requires RelayLegal(r.(dst := ReadyDst(r.dst.setup.ssl)), rest)
    ensures var run := ToReady(r.dst.setup.ssl) + rest;
            RelayLegal(r, run) && RelayRun(r, run) == RelayRun(r.(dst := ReadyDst(r.dst.setup.ssl)), rest)
  {
    var r1, r2 := Connects(r);
    if r.dst.setup.ssl {
      ShakesHands(r2);
      ThreeThen(r, r1, r2, r.(dst := ReadyDst(true)), FOUND, MADE, DST_TASK, rest);
    } else {
      TwoThen(r, r1, r2, FOUND, MADE, rest);
    }
  }

  // ---------------------------------------------------------------- src

  /** src has been accepted, and dst asked for. */
  lemma Accepts(r0: Relay) returns (r1: Relay)
    requires RelayInit(r0) && !r0.src.setup.ssl
    ensures RelayCan(r0, SRC_TASK) && r1 == RelayNext(r0, SRC_TASK)
    ensures r1.dst == r0.dst && r1.pair == Pair(true, Ends(true, false), 0, false, false) && Idling(r1.src)
  {
    r1 := RelayNext(r0, SRC_TASK);
  }

  /** Open, with a read in flight and nothing to do. */
  predicate Idling(s: Conn<byte>) {
    && s.setup.kind.Tcp? && s.setup.service && s.stage.Opened? && s.running && s.posted == []
    && s.inbox.reading == 1 && s.inbox.unread == [] && s.inbox.mark == 1
  }

  /** The same, but closed. */
  predicate ClosedReading(s: Conn<byte>) {
    && s.setup.kind.Tcp? && s.setup.service && s.stage.Opened? && !s.running
    && s.inbox.reading == 1 && s.inbox.unread == [] && s.inbox.mark == 1
  }

  lemma LosesPeer(r: Relay) returns (t: Relay)
    requires r.pair.linked && Idling(r.src)
    ensures RelayCan(r, SRC_GONE) && t == RelayNext(r, SRC_GONE)
    ensures t.dst == r.dst && t.pair == r.pair && t.src.setup == r.src.setup
    ensures t.src.posted == [Stop] && t.src.running && t.src.stage == r.src.stage
  {
    t := RelayNext(r, SRC_GONE);
    assert [] + [Stop] == [Stop];
  }

  /** src closes before anything is known of dst. */
  lemma ClosesEarly(r: Relay) returns (t: Relay)
    requires r.pair == Pair(true, Ends(true, false), 0, false, false) && Undecided(r.dst.stage)
    requires r.src.setup.service && r.src.posted == [Stop] && r.src.running && r.src.stage.Opened?
    ensures RelayCan(r, SRC_TASK) && t == RelayNext(r, SRC_TASK)
    ensures t.dst == r.dst && t.pair == Pair(true, Ends(false, false), 1, false, true)
  {
    t := RelayNext(r, SRC_TASK);
  }

  // ---------------------------------------------------------------- the pair is used, or deleted, again

  lemma RefusedAfterRelease(r: Relay) returns (t: Relay)
    requires r.pair == Pair(true, Ends(false, false), 1, false, true) && r.dst == NewDst(r.dst.setup.ssl)
    ensures var refused := Move(false, Resolved(false, 0), true); RelayCan(r, refused) && t == RelayNext(r, refused)
    ensures t.pair == r.pair.(touched := true)
  {
    t := RelayNext(r, Move(false, Resolved(false, 0), true));
  }

  /** A run that uses the pair after its release: src closes, and then the name of dst is not resolved. */
  lemma RefusedAfterEarlyClose(r0: Relay)
    requires RelayInit(r0) && !r0.src.setup.ssl
    ensures var run := [SRC_TASK, SRC_GONE, SRC_TASK] + [Move(false, Resolved(false, 0), true)];
            RelayLegal(r0, run) && RelayRun(r0, run).pair == Pair(true, Ends(false, false), 1, true, true)
  {
    var r1 := Accepts(r0);
    var r2 := LosesPeer(r1);
    var r3 := ClosesEarly(r2);
    var r4 := RefusedAfterRelease(r3);
    Last(r3, Move(false, Resolved(false, 0), true), r4);
    ThreeThen(r0, r1, r2, r3, SRC_TASK, SRC_GONE, SRC_TASK, [Move(false, Resolved(false, 0), true)]);
  }

  /** dst opens although src has closed, and is refused. */
  lemma OpensLate(r: Relay, ssl: bool) returns (t: Relay)
    requires r.pair == Pair(true, Ends(false, false), 1, false, true) && r.dst == ReadyDst(ssl)
    ensures RelayCan(r, Opening(ssl, NO)) && t == RelayNext(r, Opening(ssl, NO))
    ensures t.pair == Pair(true, Ends(false, true), 1, true, true)
    ensures t.dst.setup == r.dst.setup && t.dst.stage.Opened? && t.dst.running && t.dst.posted == [Stop]
  {
    t := RelayNext(r, Opening(ssl, NO));
    assert [] + [Stop] == [Stop];
  }

  lemma ReleasesAgain(r: Relay) returns (t: Relay)
    requires r.pair == Pair(true, Ends(false, true), 1, true, true)
    requires r.dst.setup.service && r.dst.stage.Opened? && r.dst.running && r.dst.posted == [Stop]
    ensures RelayCan(r, DST_TASK) && t == RelayNext(r, DST_TASK)
    ensures t.pair == Pair(true, Ends(false, false), 2, true, true)
  {
    t := RelayNext(r, DST_TASK);
  }

  /** A run that releases the pair twice: src closes early, and dst opens and closes all the same. */
  lemma ReleasedTwice(r0: Relay)
    requires RelayInit(r0) && !r0.src.setup.ssl
    ensures var ssl := r0.dst.setup.ssl;
            var run := [SRC_TASK, SRC_GONE, SRC_TASK] + (ToReady(ssl) + ([Opening(ssl, NO), DST_TASK] + []));
            RelayLegal(r0, run) && RelayRun(r0, run).pair == Pair(true, Ends(false, false), 2, true, true)
  {
    var ssl := r0.dst.setup.ssl;
    var r1 := Accepts(r0);
    var r2 := LosesPeer(r1);
    var r3 := ClosesEarly(r2);
    var r4 := r3.(dst := ReadyDst(ssl));
    var r5 := OpensLate(r4, ssl);
    var r6 := ReleasesAgain(r5);
    TwoThen(r4, r5, r6, Opening(ssl, NO), DST_TASK, []);
    ReadyThen(r3, [Opening(ssl, NO), DST_TASK] + []);
    ThreeThen(r0, r1, r2, r3, SRC_TASK, SRC_GONE, SRC_TASK, ToReady(ssl) + ([Opening(ssl, NO), DST_TASK] + []));
  }

  // ---------------------------------------------------------------- a late read after the release

  const RELAYED := Callback([Fill([])], true)

  /** dst opens while src runs, and there is nothing to relay yet. */
  lemma OpensBoth(r: Relay, ssl: bool) returns (t: Relay)
    requires r.pair == Pair(true, Ends(true, false), 0, false, false) && r.dst == ReadyDst(ssl) && Idling(r.src)
    ensures RelayCan(r, Opening(ssl, RELAYED)) && t == RelayNext(r, Opening(ssl, RELAYED))
    ensures t.pair == Pair(true, Ends(true, true), 0, false, false) && t.src == r.src && Idling(t.dst)
  {
    t := RelayNext(r, Opening(ssl, RELAYED));
    ApplyAllOne(r.src, Drop(0));
    assert r.src.inbox.consumed + r.src.inbox.unread[..0] == r.src.inbox.consumed;
    var ready := r.dst.(posted := []);
    var open := ready.(running := true, stage := Opened, trace := ready.trace + [OnConnect(true)]);
    ApplyAllOne(open, Fill([]));
  }

  lemma ClosesFirst(r: Relay) returns (t: Relay)
    requires r.pair == Pair(true, Ends(true, true), 0, false, false) && Idling(r.dst)
    requires r.src.setup.service && r.src.posted == [Stop] && r.src.running && r.src.stage.Opened?
    ensures RelayCan(r, SRC_TASK) && t == RelayNext(r, SRC_TASK)
    ensures t.pair == Pair(true, Ends(false, true), 0, false, false) && t.dst == Post(r.dst, Stop)
  {
    t := RelayNext(r, SRC_TASK);
    ApplyAllOne(r.dst, Close);
  }

  lemma ClosesLast(r: Relay) returns (t: Relay)
    requires r.pair == Pair(true, Ends(false, true), 0, false, false)
    requires Idling(r.dst.(posted := [])) && r.dst.posted == [Stop]
    ensures RelayCan(r, DST_TASK) && t == RelayNext(r, DST_TASK)
    ensures t.pair == Pair(true, Ends(false, false), 1, false, false) && ClosedReading(t.dst)
  {
    t := RelayNext(r, DST_TASK);
  }

  lemma LateByte(r: Relay) returns (t: Relay)
    requires r.pair == Pair(true, Ends(false, false), 1, false, false) && ClosedReading(r.dst)
    ensures var late := Move(false, ReadDone(true, [7], NO), true); RelayCan(r, late) && t == RelayNext(r, late)
    ensures t.pair == r.pair.(touched := true)
  {
    t := RelayNext(r, Move(false, ReadDone(true, [7], NO), true));
  }

  lemma EndsWithLateByte(r: Relay)
    requires r.pair == Pair(true, Ends(true, true), 0, false, false) && Idling(r.src) && Idling(r.dst)
    ensures var ending := [SRC_GONE, SRC_TASK, DST_TASK] + [Move(false, ReadDone(true, [7], NO), true)];
            RelayLegal(r, ending) && RelayRun(r, ending).pair == Pair(true, Ends(false, false), 1, true, false)
  {
    var r1 := LosesPeer(r);
    var r2 := ClosesFirst(r1);
    var r3 := ClosesLast(r2);
    var r4 := LateByte(r3);
    Last(r3, Move(false, ReadDone(true, [7], NO), true), r4);
    ThreeThen(r, r1, r2, r3, SRC_GONE, SRC_TASK, DST_TASK, [Move(false, ReadDone(true, [7], NO), true)]);
  }

  /** A run without an early close that uses the pair after its release: src's peer goes away, both connections
      close, and a byte that dst had already received is announced. */
  lemma ReadAfterRelease(r0: Relay)
    requires RelayInit(r0) && !r0.src.setup.ssl
    ensures var ssl := r0.dst.setup.ssl;
            var ending := [SRC_GONE, SRC_TASK, DST_TASK] + [Move(false, ReadDone(true, [7], NO), true)];
            var run := [SRC_TASK] + (ToReady(ssl) + ([Opening(ssl, RELAYED)] + ending));
            RelayLegal(r0, run) && RelayRun(r0, run).pair == Pair(true, Ends(false, false), 1, true, false)
  {
    var ssl := r0.dst.setup.ssl;
    var ending := [SRC_GONE, SRC_TASK, DST_TASK] + [Move(false, ReadDone(true, [7], NO), true)];
    var r1 := Accepts(r0);
    var r2 := r1.(dst := ReadyDst(ssl));
    var r3 := OpensBoth(r2, ssl);
    EndsWithLateByte(r3);
    Cons(r2, Opening(ssl, RELAYED), r3, ending);
    ReadyThen(r1, [Opening(ssl, RELAYED)] + ending);
    Cons(r0, SRC_TASK, r1, ToReady(ssl) + ([Opening(ssl, RELAYED)] + ending));
  }

  // ---------------------------------------------------------------- src left open

  lemma HandshakeFails(r: Relay) returns (t: Relay)
    requires r.pair.linked && r.dst == ReadyDst(true)
    ensures var failed := Move(false, Handshook(false, YES), true); RelayCan(r, failed) && t == RelayNext(r, failed)
    ensures t == r.(dst := r.dst.(stage := Silent))
  {
    t := RelayNext(r, Move(false, Handshook(false, YES), true));
  }

  /** A run that leaves src open with nothing left to do: the handshake of dst fails, and nobody is told. */
  lemma RefusalLeavesSrcOpen(r0: Relay)
    requires RelayInit(r0) && !r0.src.setup.ssl && r0.dst.setup.ssl
    ensures var run := [SRC_TASK] + (ToReady(true) + [Move(false, Handshook(false, YES), true)]);
            && RelayLegal(r0, run)
            && var r := RelayRun(r0, run);
            && r.src.running && r.src.posted == [] && r.dst.stage.Silent? && r.dst.posted == []
            && r.pair == Pair(true, Ends(true, false), 0, false, false)
  {
    var r1 := Accepts(r0);
    var r2 := r1.(dst := ReadyDst(true));
    var r3 := HandshakeFails(r2);
    Last(r2, Move(false, Handshook(false, YES), true), r3);
    ReadyThen(r1, [Move(false, Handshook(false, YES), true)]);
    Cons(r0, SRC_TASK, r1, ToReady(true) + [Move(false, Handshook(false, YES), true)]);
  }
}
