/** How a connection comes to be, over whole runs: what becomes of a resolved name, and of an accept. Everything is said
    of the outcomes in the steps. */
module ConnectOutcomes {
  import opened ConnectionMachine
  import opened ConnectionInvariant
  import opened ConnectionLaws
  import opened Connecting
  import Octets
  import Q = SendQueue

  /** The number of endpoints that the name was resolved to, 0 if it has not been. */
  function Endpoints<T>(steps: seq<Step<T>>): nat {
    if steps == [] then 0
    else if steps[0].Resolved? && steps[0].ok then steps[0].endpoints
    else Endpoints(steps[1..])
  }

  /** The answers of the endpoints that were tried. */
  function Tried<T>(steps: seq<Step<T>>): seq<bool> {
    if steps == [] then [] else (if steps[0].Connected? then [steps[0].ok] else []) + Tried(steps[1..])
  }

  predicate NameFound<T>(steps: seq<Step<T>>) {
    exists i | 0 <= i < |steps| :: steps[i].Resolved? && steps[i].ok
  }

  predicate HandshakeFailed<T>(steps: seq<Step<T>>) {
    exists i | 0 <= i < |steps| :: steps[i].Handshook? && !steps[i].ok
  }

  function Refusals(n: nat): seq<bool> {
    seq(n, _ => false)
  }

  // ---------------------------------------------------------------- attempts

  lemma StepTries<T(!new)>(s: Conn<T>, step: Step<T>)
    requires Enabled(s, step)
    ensures Next(s, step).attempts == s.attempts + (if step.Connected? then [step.ok] else [])
  {
    assert s.attempts + [] == s.attempts;
    match step
    case Posted(cb) => TaskTries(s, cb);
    case ReadDone(ok, data, cb) => ReadTries(s, ok, data, cb);
    case WriteDone(ok, cb) => WriteTries(s, ok, cb);
    case Handshook(ok, cb) => InvokeTries(s.(running := true, stage := Opened), OpenEvent(s), cb);
    case Api(c) =>
    case Resolved(_, _) =>
    case Accepted(_) =>
    case Connected(_) =>
  }

  lemma InvokeTries<T(!new)>(s: Conn<T>, e: Event, cb: Callback)
    ensures Invoke(s, e, cb).attempts == s.attempts
  {
    if s.setup.service {
      var _ := CallsGrow(s.(trace := s.trace + [e]), cb.calls);
    }
  }

  lemma ReadTries<T(!new)>(s: Conn<T>, ok: bool, data: seq<T>, cb: Callback)
    requires s.inbox.reading > 0
    ensures HandleRecv(s, ok, data, cb).attempts == s.attempts
  {
    InvokeTries(Receive(Idle(s), data), OnRecv, cb);
  }

  lemma WriteTries<T(!new)>(s: Conn<T>, ok: bool, cb: Callback)
    requires s.queue.outstanding != []
    ensures HandleSend(s, ok, cb).attempts == s.attempts
  {
    InvokeTries(s.(queue := Q.Finish(s.queue)), OnSend, cb);
  }

  lemma TaskTries<T(!new)>(s: Conn<T>, cb: Callback)
    requires s.posted != []
    ensures RunTask(s, cb).attempts == s.attempts
  {
    var u := s.(posted := s.posted[1..]);
    InvokeTries(u, OnClose, cb);
    InvokeTries(u.(running := true, stage := Opened), OpenEvent(u), cb);
  }

  // ---------------------------------------------------------------- a UDP connect

  /** Of `n` endpoints those before the one being tried have refused, and nothing after one that accepts is tried. */
  ghost predicate InTurn<T(!new)>(s: Conn<T>, n: nat) {
    match s.stage
    case Connecting(left) => 0 < left <= n && s.attempts == Refusals(n - left)
    case Failed => s.attempts == Refusals(n)
    case Scheduled => 0 < |s.attempts| <= n && s.attempts == Refusals(|s.attempts| - 1) + [true]
    case Opened => 0 < |s.attempts| <= n && s.attempts == Refusals(|s.attempts| - 1) + [true]
    case _ => false
  }

  lemma InTurnStep<T(!new)>(s: Conn<T>, step: Step<T>, n: nat)
    requires Inv(s) && Enabled(s, step) && UdpStage(s) && InTurn(s, n)
    ensures InTurn(Next(s, step), n)
  {
    StepTries(s, step);
    if s.stage.Opened? {
      RunningStep(s, step);
    } else if step.Connected? {
      UdpAnswer(s, step.ok);
    } else {
      NotYetOpened(s, step);
    }
  }

  lemma NotYetOpened<T(!new)>(s: Conn<T>, step: Step<T>)
    requires Inv(s) && Enabled(s, step) && UdpStage(s)
    requires s.stage.Connecting? || s.stage.Failed? || s.stage.Scheduled?
    requires !step.Connected?
    ensures Next(s, step).stage == if s.stage.Scheduled? && step.Posted? && s.posted[0].Start? then Opened else s.stage
  {
    match step
    case Posted(cb) => TaskEvents(s, cb);
    case Api(_) =>
  }

  lemma {:induction false} StaysInTurn<T(!new)>(s: Conn<T>, steps: seq<Step<T>>, n: nat)
    requires Inv(s) && Legal(s, steps) && UdpStage(s) && InTurn(s, n)
    ensures InTurn(Run(s, steps), n) && Run(s, steps).attempts == s.attempts + Tried(steps)
    decreases |steps|
  {
    if steps == [] {
      assert s.attempts + [] == s.attempts;
    } else {
      StepKeeps(s, steps[0]);
      StepTries(s, steps[0]);
      UdpStageStep(s, steps[0]);
      InTurnStep(s, steps[0], n);
      StaysInTurn(Next(s, steps[0]), steps[1..], n);
      Octets.Assoc(s.attempts, if steps[0].Connected? then [steps[0].ok] else [], Tried(steps[1..]));
    }
  }

  /** A new active connection can only have its name resolved. */
  lemma FirstStepResolves<T(!new)>(s: Conn<T>, step: Step<T>)
    requires Inv(s) && s.stage.Resolving? && Enabled(s, step)
    ensures step.Resolved?
  {
  }

  /** Over every run of an active UDP connection whose name was resolved to n endpoints: it has failed if and only if
      all n have refused, in order; it has been scheduled or has opened if and only if k of them, fewer than n, have
      refused and the next one has accepted; and otherwise the first k have refused and the next is being tried. */
  lemma UdpTriesInOrder<T(!new)>(s0: Conn<T>, steps: seq<Step<T>>)
    requires Initial(s0) && Legal(s0, steps) && s0.setup.kind.Udp? && s0.stage.Resolving? && NameFound(steps)
    ensures var s, n, tried := Run(s0, steps), Endpoints(steps), Tried(steps);
            && (s.stage.Failed? <==> tried == Refusals(n))
            && (s.stage.Scheduled? || s.stage.Opened? <==>
                0 < |tried| <= n && tried == Refusals(|tried| - 1) + [true])
            && (s.stage.Connecting? <==> |tried| < n && tried == Refusals(|tried|))
            && (s.stage.Connecting? ==> s.stage.left == n - |tried|)
  {
    InitialInv(s0);
    FirstStepResolves(s0, steps[0]);
    var t := Next(s0, steps[0]);
    StepKeeps(s0, steps[0]);
    if steps[0].ok {
      var n := steps[0].endpoints;
      assert Refusals(0) == [];
      StaysInTurn(t, steps[1..], n);
      assert Tried(steps) == [] + Tried(steps[1..]) == Tried(steps[1..]);
      assert [] + Tried(steps[1..]) == Tried(steps[1..]);
      WhichTurn(Run(s0, steps), n);
    } else {
      NothingAfterFailure(t, steps[1..]);
    }
  }

  lemma WhichTurn<T(!new)>(s: Conn<T>, n: nat)
    requires InTurn(s, n)
    ensures s.stage.Failed? <==> s.attempts == Refusals(n)
    ensures s.stage.Scheduled? || s.stage.Opened? <==>
            0 < |s.attempts| <= n && s.attempts == Refusals(|s.attempts| - 1) + [true]
    ensures s.stage.Connecting? <==> |s.attempts| < n && s.attempts == Refusals(|s.attempts|)
    ensures s.stage.Connecting? ==> s.stage.left == n - |s.attempts|
  {
    if s.stage.Scheduled? || s.stage.Opened? {
      assert s.attempts[|s.attempts| - 1];
    } else if s.attempts != [] {
      assert !s.attempts[|s.attempts| - 1];
    }
  }

  /** A connection that has failed does nothing any more. */
  lemma NothingAfterFailure<T(!new)>(s: Conn<T>, steps: seq<Step<T>>)
    requires Inv(s) && s.stage.Failed? && Legal(s, steps)
    ensures steps == []
  {
  }

  // ---------------------------------------------------------------- a TCP connect

  /** No connect is, or ever will be, in flight. */
  predicate PastConnect<T>(s: Conn<T>) {
    !s.stage.Resolving? && !s.stage.Connecting? && !s.stage.Accepting?
  }

  lemma PastConnectStep<T(!new)>(s: Conn<T>, step: Step<T>)
    requires Inv(s) && Enabled(s, step) && PastConnect(s)
    ensures PastConnect(Next(s, step)) && !step.Connected? && !step.Resolved? && !step.Accepted?
  {
    if s.stage.Opened? {
      RunningStep(s, step);
    } else {
      OpeningStep(s, step);
    }
  }

  lemma OpeningStep<T(!new)>(s: Conn<T>, step: Step<T>)
    requires Inv(s) && Enabled(s, step) && PastConnect(s) && !s.stage.Opened?
    ensures step.Posted? || step.Handshook?
    ensures var t := Next(s, step); PastConnect(t) && (t.stage.Failed? ==> s.stage.Failed?)
  {
    match step
    case Posted(cb) => TaskEvents(s, cb);
    case Handshook(ok, cb) => if ok { InvokeFrame(s.(running := true, stage := Opened), OpenEvent(s), cb); }
    case _ =>
  }

  lemma SomeStep<T>(steps: seq<Step<T>>)
    requires steps != []
    ensures HandshakeFailed(steps) <==> (steps[0].Handshook? && !steps[0].ok) || HandshakeFailed(steps[1..])
    ensures NameFound(steps) <==> (steps[0].Resolved? && steps[0].ok) || NameFound(steps[1..])
  {
    if HandshakeFailed(steps[1..]) {
      var i :| 0 <= i < |steps| - 1 && steps[1..][i].Handshook? && !steps[1..][i].ok;
      assert steps[i + 1] == steps[1..][i];
    }
    if NameFound(steps[1..]) {
      var i :| 0 <= i < |steps| - 1 && steps[1..][i].Resolved? && steps[1..][i].ok;
      assert steps[i + 1] == steps[1..][i];
    }
    if HandshakeFailed(steps) {
      var i :| 0 <= i < |steps| && steps[i].Handshook? && !steps[i].ok;
      assert i > 0 ==> steps[1..][i - 1] == steps[i];
    }
    if NameFound(steps) {
      var i :| 0 <= i < |steps| && steps[i].Resolved? && steps[i].ok;
      assert i > 0 ==> steps[1..][i - 1] == steps[i];
    }
  }

  lemma {:induction false} PastConnectGivesUp<T(!new)>(s: Conn<T>, steps: seq<Step<T>>)
    requires Inv(s) && Legal(s, steps) && PastConnect(s)
    ensures GaveUp(s, steps) <==> HandshakeFailed(steps)
    ensures Tried(steps) == [] && PastConnect(Run(s, steps))
    decreases |steps|
  {
    if steps != [] {
      StepKeeps(s, steps[0]);
      PastConnectStep(s, steps[0]);
      SomeStep(steps);
      PastConnectGivesUp(Next(s, steps[0]), steps[1..]);
    }
  }

  lemma ConnectingGivesUp<T(!new)>(s: Conn<T>, steps: seq<Step<T>>)
    requires Inv(s) && Legal(s, steps) && s.setup.kind.Tcp? && s.stage.Connecting?
    ensures GaveUp(s, steps) <==> (s.stage.left > 1 && Tried(steps) == [false]) || HandshakeFailed(steps)
  {
    if steps != [] {
      assert steps[0].Connected?;
      StepKeeps(s, steps[0]);
      SomeStep(steps);
      PastConnectGivesUp(Next(s, steps[0]), steps[1..]);
    }
  }

  /** Over every run of an active TCP connection, once it has opened, failed or been given up: user code has been
      told nothing if and only if the name was resolved to several endpoints and the connect failed, or the
      handshake failed; otherwise on_connect came first, with the outcome. */
  lemma TcpReportsIff<T(!new)>(s0: Conn<T>, steps: seq<Step<T>>)
    requires Initial(s0) && Legal(s0, steps) && s0.setup.kind.Tcp? && !s0.setup.passive && s0.setup.service
    requires var s := Run(s0, steps); s.stage.Opened? || s.stage.Failed? || s.stage.Silent?
    ensures var s := Run(s0, steps);
            && (s.trace == [] <==> (Endpoints(steps) > 1 && Tried(steps) == [false]) || HandshakeFailed(steps))
            && (s.trace != [] ==> s.trace[0] == OnConnect(s.stage.Opened?))
  {
    SetupKept(s0, steps);
    InitialInv(s0);
    SilentIffGaveUp(s0, steps);
    if s0.stage.Scheduled? {
      PastConnectGivesUp(s0, steps);
    } else {
      FirstStepResolves(s0, steps[0]);
      var t := Next(s0, steps[0]);
      StepKeeps(s0, steps[0]);
      SomeStep(steps);
      if steps[0].ok {
        ConnectingGivesUp(t, steps[1..]);
        assert Tried(steps) == [] + Tried(steps[1..]) == Tried(steps[1..]);
      } else {
        NothingAfterFailure(t, steps[1..]);
      }
    }
  }

  // ---------------------------------------------------------------- an accept

  /** A session that waits for an accept can only have it completed. */
  lemma FirstStepAccepts<T(!new)>(s: Conn<T>, step: Step<T>)
    requires Inv(s) && s.stage.Accepting? && Enabled(s, step)
    ensures step.Accepted?
  {
  }

  /** Over every run of a passive TCP session that was accepted: when nothing is posted and no handshake is in flight,
      it has opened, and on_accept was the first callback, if and only if its handshake did not fail; otherwise
      nothing was called back. */
  lemma AcceptedOpens<T(!new)>(s0: Conn<T>, steps: seq<Step<T>>)
    requires Initial(s0) && Legal(s0, steps) && s0.stage.Accepting? && s0.setup.kind.Tcp? && s0.setup.service
    requires steps != [] && steps[0] == Accepted(true)
    requires var s := Run(s0, steps); s.posted == [] && !s.stage.Handshaking?
    ensures var s := Run(s0, steps);
            && (s.stage.Opened? <==> !HandshakeFailed(steps))
            && (s.stage.Opened? ==> s.trace != [] && s.trace[0] == OnAccept)
            && (!s.stage.Opened? ==> s.trace == [])
  {
    SetupKept(s0, steps);
    InitialInv(s0);
    StepKeeps(s0, steps[0]);
    var t := Next(s0, steps[0]);
    SomeStep(steps);
    SilentIffGaveUp(t, steps[1..]);
    PastConnectGivesUp(t, steps[1..]);
    PassiveNeverFails(t, steps[1..]);
  }

  lemma {:induction false} PassiveNeverFails<T(!new)>(s: Conn<T>, steps: seq<Step<T>>)
    requires Inv(s) && Legal(s, steps) && PastConnect(s) && !s.stage.Failed?
    ensures !Run(s, steps).stage.Failed?
    decreases |steps|
  {
    if steps != [] {
      StepKeeps(s, steps[0]);
      PastConnectStep(s, steps[0]);
      NeverFails(s, steps[0]);
      PassiveNeverFails(Next(s, steps[0]), steps[1..]);
    }
  }

  lemma NeverFails<T(!new)>(s: Conn<T>, step: Step<T>)
    requires Inv(s) && Enabled(s, step) && PastConnect(s) && !s.stage.Failed?
    ensures !Next(s, step).stage.Failed?
  {
    if s.stage.Opened? {
      RunningStep(s, step);
    } else {
      OpeningStep(s, step);
    }
  }

  /** A session whose accept failed never makes a callback; the close posted for it is the only handler it ever has. */
  lemma RefusedStaysSilent<T(!new)>(s0: Conn<T>, steps: seq<Step<T>>)
    requires Initial(s0) && Legal(s0, steps) && s0.stage.Accepting?
    requires steps != [] && steps[0] == Accepted(false)
    ensures Run(s0, steps).trace == [] && Run(s0, steps).stage.Silent?
    ensures |steps| <= 2 && (|steps| == 2 ==> steps[1].Posted?)
    ensures Run(s0, steps).posted == if |steps| == 1 then [Stop] else []
  {
    InitialInv(s0);
    StepKeeps(s0, steps[0]);
    var t := Next(s0, steps[0]);
    SilentForGood(t, steps[1..]);
    assert t.posted == [Stop];
    if |steps| > 1 {
      RefusedStep(t, steps[1]);
      var u := Next(t, steps[1]);
      var rest := steps[1..][1..];
      assert steps[1] == steps[1..][0] && |rest| == |steps| - 2;
      StepKeeps(t, steps[1]);
      assert Legal(u, rest) && Run(s0, steps) == Run(u, rest);
      if rest != [] {
        assert Enabled(u, rest[0]);
        SilentEnd(u, rest[0]);
      }
    }
  }

  lemma RefusedStep<T(!new)>(t: Conn<T>, step: Step<T>)
    requires Inv(t) && t.stage.Silent? && t.posted == [Stop] && Enabled(t, step)
    ensures step.Posted? && Next(t, step).posted == [] && Next(t, step).stage.Silent?
  {
  }

  lemma SilentEnd<T(!new)>(u: Conn<T>, step: Step<T>)
    requires Inv(u) && u.stage.Silent? && u.posted == []
    ensures !Enabled(u, step)
  {
  }
}
