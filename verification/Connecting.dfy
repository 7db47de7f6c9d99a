/** Which endpoint a connect attempt ends up with, and whether it is reported. */
module Connecting {
  import opened ConnectionMachine
  import opened ConnectionInvariant
  import opened ConnectionLaws

  /** The first endpoint that accepts, or the number of endpoints when all refuse. */
  function FirstAccepted(answers: seq<bool>): nat {
    if answers == [] || answers[0] then 0 else 1 + FirstAccepted(answers[1..])
  }

  lemma {:induction false} FirstAcceptedIsFirst(answers: seq<bool>)
    ensures var f := FirstAccepted(answers);
            && f <= |answers|
            && (f < |answers| ==> answers[f])
            && (forall i | 0 <= i < f :: !answers[i])
  {
    if answers != [] && !answers[0] {
      FirstAcceptedIsFirst(answers[1..]);
      var f := FirstAccepted(answers);
      forall i | 0 <= i < f ensures !answers[i] {
        assert i > 0 ==> answers[i] == answers[1..][i - 1];
      }
    }
  }

  // ---------------------------------------------------------------- the synchronous loop

  /** The loop of sync_create_connection. `answers` says which endpoints accept; when a local address
      was asked for (`bound`), `binds` says whether opening and binding the socket works before each
      attempt. */
  method SyncConnect(answers: seq<bool>, bound: bool, binds: seq<bool>) returns (ok: bool, chosen: nat)
    requires |binds| == |answers|
    ensures var f := FirstAccepted(answers);
            ok <==> f < |answers| && (bound ==> forall i | 0 <= i <= f :: binds[i])
    ensures ok ==> chosen == FirstAccepted(answers)
  {
    FirstAcceptedIsFirst(answers);
    var error := true;
    var iter := 0;
    chosen := 0;
    while error && iter < |answers|
      invariant iter <= |answers|
      invariant error <==> forall i | 0 <= i < iter :: !answers[i]
      invariant !error ==> iter > 0 && chosen == iter - 1 && answers[chosen]
      invariant !error ==> forall i | 0 <= i < chosen :: !answers[i]
      invariant bound ==> forall i | 0 <= i < iter :: binds[i]
      decreases |answers| - iter
    {
      if bound && !binds[iter] {
        assert FirstAccepted(answers) >= iter;
        return false, 0;
      }
      error := !answers[iter];
      chosen := iter;
      iter := iter + 1;
    }
    if !error {
      assert FirstAccepted(answers) == chosen;
    }
    ok := !error;
  }

  // ---------------------------------------------------------------- the asynchronous chain

  /** The chain of handle_connect completions against the endpoints' answers. */
  function Chain<T>(s: Conn<T>, answers: seq<bool>): Conn<T>
    decreases |answers|
  {
    if answers == [] || !s.stage.Connecting? then s
    else Chain(HandleConnect(s, answers[0]), answers[1..])
  }

  lemma UdpAnswer<T(!new)>(s: Conn<T>, ok: bool)
    requires s.setup.kind.Udp? && s.stage.Connecting?
    ensures var t := HandleConnect(s, ok);
            && t.setup.kind.Udp? && t.setup.service == s.setup.service && t.attempts == s.attempts + [ok]
            && t.stage == (if ok then Scheduled else if s.stage.left <= 1 then Failed
                           else Connecting(s.stage.left - 1))
            && t.posted == (if ok then s.posted + [Start] else s.posted)
            && t.trace == (if t.stage.Failed? && s.setup.service then s.trace + [OnConnect(false)] else s.trace)
  {
  }

  /** The answers that are asked for when the endpoints are tried in order up to the first that accepts. */
  function Asked(answers: seq<bool>): seq<bool> {
    if answers == [] then [] else [answers[0]] + if answers[0] then [] else Asked(answers[1..])
  }

  lemma {:induction false} AskedUpToFirst(answers: seq<bool>)
    ensures var f := FirstAccepted(answers);
            f <= |answers| && Asked(answers) == if f < |answers| then answers[..f + 1] else answers
  {
    if answers != [] {
      assert answers == [answers[0]] + answers[1..];
      if !answers[0] {
        AskedUpToFirst(answers[1..]);
      }
    }
  }

  /** The UDP chain tries the endpoints in order up to the first that accepts, then schedules the
      start; it reports a null connection, once, exactly when all refuse. */
  lemma {:induction false} UdpChain<T(!new)>(s: Conn<T>, answers: seq<bool>)
    requires s.setup.kind.Udp? && s.stage == Connecting(|answers|) && answers != [] && s.posted == [] && s.trace == []
    ensures var t := Chain(s, answers);
            && t.attempts == s.attempts + Asked(answers)
            && (if FirstAccepted(answers) < |answers| then
                  t.stage == Scheduled && t.posted == [Start] && t.trace == []
                else
                  t.stage == Failed && t.posted == [] && (s.setup.service ==> t.trace == [OnConnect(false)]))
    decreases |answers|
  {
    var a, rest := answers[0], answers[1..];
    var t := HandleConnect(s, a);
    UdpAnswer(s, a);
    if t.stage.Connecting? {
      UdpChain(t, rest);
      assert s.attempts + [a] + Asked(rest) == s.attempts + ([a] + Asked(rest));
    } else {
      assert Chain(t, rest) == t;
      if !a {
        assert rest == [];
      }
    }
  }

  /** From a name that has just been resolved, without bind failures both ways of connecting settle on the same
      endpoint; in general they differ exactly when binding fails at or before the one that would have
      accepted. */
  method SyncAgainstAsync(s: Conn<seq<int>>, answers: seq<bool>, bound: bool, binds: seq<bool>)
    returns (ok: bool, chosen: nat)
    requires |binds| == |answers| && answers != []
    requires s == Fresh(Setup(Udp, false, false, true), Resolving, [])
    ensures var t := Chain(HandleResolve(s, true, |answers|), answers);
            && (ok ==> t.stage == Scheduled && |t.attempts| == chosen + 1)
            && (ok == t.stage.Scheduled? <==>
                !(bound && FirstAccepted(answers) < |answers| &&
                  exists i | 0 <= i <= FirstAccepted(answers) :: !binds[i]))
  {
    UdpChain(HandleResolve(s, true, |answers|), answers);
    AskedUpToFirst(answers);
    FirstAcceptedIsFirst(answers);
    ok, chosen := SyncConnect(answers, bound, binds);
  }

  /** Each refusal leaves fewer endpoints, so the chain ends. */
  lemma ChainProgress<T(!new)>(s: Conn<T>, ok: bool)
    requires s.stage.Connecting? && s.stage.left > 0
    ensures var t := HandleConnect(s, ok);
            t.stage.Connecting? ==> t.stage.left < s.stage.left && t.stage.left > 0
  {
  }

  /** A UDP connection has made its one on_connect call exactly when it has either opened or failed. */
  lemma UdpReportsOnce<T(!new)>(s0: Conn<T>, steps: seq<Step<T>>)
    requires Initial(s0) && Legal(s0, steps) && s0.setup.kind.Udp? && s0.setup.service
    ensures var s := Run(s0, steps);
            && (s.stage.Opened? || s.stage.Failed? ==>
                  s.trace != [] && s.trace[0] == OnConnect(s.stage.Opened?)
                  && forall i | 0 < i < |s.trace| :: !s.trace[i].OnConnect?)
            && (!s.stage.Opened? && !s.stage.Failed? ==> s.trace == [])
            && !s.stage.Silent?
  {
    InitialInv(s0);
    RunKeeps(s0, steps);
    UdpNeverSilent(s0, steps);
  }

  ghost predicate UdpStage<T(!new)>(s: Conn<T>) {
    && s.setup.kind.Udp? && !s.setup.passive && !s.setup.ssl && !s.stage.Silent?
    && !s.stage.Handshaking? && !s.stage.Accepting?
  }

  lemma UdpStageStep<T(!new)>(s: Conn<T>, step: Step<T>)
    requires Inv(s) && Enabled(s, step) && UdpStage(s)
    ensures UdpStage(Next(s, step))
  {
    match step
    case Posted(cb) => TaskEvents(s, cb);
    case ReadDone(ok, data, cb) => RecvEvents(s, ok, data, cb);
    case WriteDone(ok, cb) => SendEvents(s, ok, cb);
    case Connected(ok) => UdpAnswer(s, ok);
    case Resolved(_, _) =>
    case Accepted(_) =>
    case Api(c) =>
  }

  lemma {:induction false} UdpNeverSilent<T(!new)>(s: Conn<T>, steps: seq<Step<T>>)
    requires Inv(s) && Legal(s, steps) && UdpStage(s)
    ensures UdpStage(Run(s, steps)) && Run(s, steps).setup == s.setup
    decreases |steps|
  {
    if steps != [] {
      StepKeeps(s, steps[0]);
      StepEvents(s, steps[0]);
      UdpStageStep(s, steps[0]);
      UdpNeverSilent(Next(s, steps[0]), steps[1..]);
    }
  }

  // ---------------------------------------------------------------- TCP: is every attempt answered?

  /** A session whose start is posted: with SSL the handshake succeeds or not. */
  function StartRun(ssl: bool, shaken: bool, cb: Callback): seq<Step<int>> {
    [Posted(cb)] + if !ssl then [] else [Handshook(shaken, cb)]
  }

  /** One TCP connect. An asynchronous one resolves the name or not, and the composed connect over all
      endpoints succeeds or not; a synchronous one that fails makes no session. */
  function ConnectRun(sync: bool, ssl: bool, resolved: bool, endpoints: nat, connected: bool, shaken: bool,
                      cb: Callback)
    : seq<Step<int>>
  {
    if sync then StartRun(ssl, shaken, cb)
    else
      [Resolved(resolved, endpoints)] +
      if !resolved then [] else
      [Connected(connected)] +
      if !connected then [] else StartRun(ssl, shaken, cb)
  }

  /** on_connect answers every attempt except two kinds: an asynchronous one refused by more than one
      endpoint, and one whose handshake failed. Those are never reported, neither then nor later. */
  lemma TcpAnsweredIff(sync: bool, ssl: bool, resolved: bool, endpoints: nat, connected: bool, shaken: bool,
                       cb: Callback)
    ensures var setup := Setup(Tcp, false, ssl, true);
            var s0 := if sync then Fresh(setup, Scheduled, [Start]) else Fresh(setup, Resolving, []);
            var run := ConnectRun(sync, ssl, resolved, endpoints, connected, shaken, cb);
            var up := sync || (resolved && connected);
            && Legal(s0, run)
            && (Run(s0, run).trace == [] <==>
                (!sync && resolved && !connected && endpoints > 1) || (up && ssl && !shaken))
            && (Run(s0, run).trace != [] ==> Run(s0, run).trace[0] == OnConnect(up))
            && (Run(s0, run).trace == [] ==> Run(s0, run).stage.Silent?)
  {
    var setup := Setup(Tcp, false, ssl, true);
    if sync {
      AfterStart(Fresh(setup, Scheduled, [Start]), ssl, shaken, cb);
    } else {
      var s0: Conn<int> := Fresh(setup, Resolving, []);
      var s1 := HandleResolve(s0, resolved, endpoints);
      var first: Step<int> := Resolved(resolved, endpoints);
      if !resolved {
        LegalCons(s0, first, []);
      } else {
        var second: Step<int> := Connected(connected);
        var rest := if connected then StartRun(ssl, shaken, cb) else [];
        ConnectEvents(s1, connected);
        if connected {
          AfterStart(HandleConnect(s1, true), ssl, shaken, cb);
        }
        LegalCons(s1, second, rest);
        LegalCons(s0, first, [second] + rest);
      }
    }
  }

  lemma AfterStart(s: Conn<int>, ssl: bool, shaken: bool, cb: Callback)
    requires s.setup == Setup(Tcp, false, ssl, true) && s.stage.Scheduled? && s.posted == [Start] && s.trace == []
    ensures var run := StartRun(ssl, shaken, cb);
            && Legal(s, run)
            && var t := Run(s, run);
            && (t.trace == [] <==> ssl && !shaken)
            && (t.trace != [] ==> t.trace[0] == OnConnect(true))
            && (t.trace == [] ==> t.stage.Silent?)
  {
    var rest: seq<Step<int>> := [];
    var t := RunTask(s, cb);
    TaskEvents(s, cb);
    if ssl {
      var shake: Step<int> := Handshook(shaken, cb);
      HandshakeEvents(t, shaken, cb);
      LegalCons(t, shake, []);
      assert [shake] + [] == [shake];
      rest := [shake];
    }
    LegalCons(s, Posted(cb), rest);
  }

  /** The ways of giving up a TCP connect without a report. */
  predicate GivesUp<T>(s: Conn<T>, step: Step<T>) {
    (step.Connected? && !step.ok && s.stage.Connecting? && s.stage.left > 1) || (step.Handshook? && !step.ok)
  }

  ghost predicate GaveUp<T(!new)>(s: Conn<T>, steps: seq<Step<T>>)
    requires Legal(s, steps)
    decreases |steps|
  {
    steps != [] && (GivesUp(s, steps[0]) || GaveUp(Next(s, steps[0]), steps[1..]))
  }

  lemma GivingUpStep<T(!new)>(s: Conn<T>, step: Step<T>)
    requires Inv(s) && Enabled(s, step) && s.setup.kind.Tcp? && !s.stage.Accepting?
    ensures var t := Next(s, step);
            !t.stage.Accepting? && (t.stage.Silent? <==> s.stage.Silent? || GivesUp(s, step))
  {
    match step
    case Posted(cb) => TaskEvents(s, cb);
    case Handshook(ok, cb) => if ok { InvokeFrame(s.(running := true, stage := Opened), OpenEvent(s), cb); }
    case ReadDone(ok, data, cb) => RecvEvents(s, ok, data, cb);
    case WriteDone(ok, cb) => SendEvents(s, ok, cb);
    case Connected(_) =>
    case Resolved(_, _) =>
    case Accepted(_) =>
    case Api(_) =>
  }

  lemma {:induction false} SilentIffGaveUp<T(!new)>(s: Conn<T>, steps: seq<Step<T>>)
    requires Inv(s) && Legal(s, steps) && s.setup.kind.Tcp? && !s.stage.Accepting?
    ensures Run(s, steps).stage.Silent? <==> s.stage.Silent? || GaveUp(s, steps)
    decreases |steps|
  {
    if steps != [] {
      StepKeeps(s, steps[0]);
      StepEvents(s, steps[0]);
      GivingUpStep(s, steps[0]);
      SilentIffGaveUp(Next(s, steps[0]), steps[1..]);
    }
  }

  /** What was given up silently stays silent. */
  lemma {:induction false} SilentForGood<T(!new)>(s: Conn<T>, steps: seq<Step<T>>)
    requires Inv(s) && s.stage.Silent? && Legal(s, steps)
    ensures Run(s, steps).trace == [] && Run(s, steps).stage.Silent?
    decreases |steps|
  {
    if steps != [] {
      StepKeeps(s, steps[0]);
      SilentForGood(Next(s, steps[0]), steps[1..]);
    }
  }
}
