/** What a connect flow that nobody stops gets done: it connects, it survives failed attempts, it
  * recovers from a lost path, and it takes up every wake. */
module FlowTheorems {
  import opened Engine
  import opened EngineTheorems
  import opened Prelude

  /** The flow's next step when its attempts succeed, on transport `t`. */
  function GoodMove(pc: Pc, t: Transport): FlowEvent {
    match pc
    case Starting => Prepared
    case Rung(_) => Capture(t)
    case Attempting(_, _, _) => Promote
    case Woken(_) => ReadEpoch
    case Triggered => Recover
    case _ => NextRung
  }

  function ToWatching(pc: Pc): nat {
    match pc
    case Watching(_) => 0
    case Attempting(_, _, _) => 1
    case Rung(_) => 2
    case Laddering(_) => 3
    case Starting => 4
    case Triggered => 4
    case _ => 5
  }

  /** `k` such steps, with the network where it is. */
  function Drive(conn: Conn, epoch: nat, t: Transport, k: nat): Conn
    decreases k
  {
    if k == 0 then conn else Drive(ConnStep(conn, epoch, GoodMove(conn.pc, t)), epoch, t, k - 1)
  }

  /** The flow runs, and nobody has told it to stop. */
  predicate Unstopped(conn: Conn) { Running(conn.pc) && !conn.disconnecting && !conn.cancelled }

  /** What it publishes on the way to watching a session. */
  function Publishes(conn: Conn, epoch: nat): seq<Status> {
    match conn.pc
    case Watching(_) => []
    case Starting => [Connecting, Connected]
    case Triggered => [Connecting, Connected]
    case Woken(t) => if t.Wss? && epoch != conn.handled then [Connecting, Connected] else []
    case _ => [Connected]
  }

  lemma GoodMoveIsCloser(conn: Conn, epoch: nat, t: Transport)
    requires Unstopped(conn) && !conn.pc.Watching?
    ensures var next := ConnStep(conn, epoch, GoodMove(conn.pc, t));
      && Unstopped(next) && ToWatching(next.pc) < ToWatching(conn.pc)
      && next.log + Publishes(next, epoch) == conn.log + Publishes(conn, epoch)
  {
  }

  lemma {:induction false} DriveConnects(conn: Conn, epoch: nat, t: Transport, k: nat)
    requires Unstopped(conn) && k >= ToWatching(conn.pc)
    ensures var r := Drive(conn, epoch, t, k);
      Unstopped(r) && r.pc.Watching? && r.log == conn.log + Publishes(conn, epoch)
    decreases k
  {
    if conn.pc.Watching? {
      StaysWatching(conn, epoch, t, k);
      assert conn.log + [] == conn.log;
    } else {
      GoodMoveIsCloser(conn, epoch, t);
      DriveConnects(ConnStep(conn, epoch, GoodMove(conn.pc, t)), epoch, t, k - 1);
    }
  }

  lemma {:induction false} StaysWatching(conn: Conn, epoch: nat, t: Transport, k: nat)
    requires conn.pc.Watching?
    ensures Drive(conn, epoch, t, k) == conn
    decreases k
  {
    if k > 0 { StaysWatching(conn, epoch, t, k - 1); }
  }

  /** In every run a flow that runs and was not told to stop comes to watch a session within five steps of its
    * own if its attempts succeed, and publishes just CONNECTING, if it has not, and CONNECTED on the way. */
  lemma UnstoppedFlowConnects(last: NetworkState, es: seq<Event>, c: nat, t: Transport)
    requires c < |Exec(last, es).conns| && Running(Exec(last, es).conns[c].pc)
    requires !Exec(last, es).conns[c].disconnecting
    ensures var s := Exec(last, es); var r := Drive(s.conns[c], s.epoch, t, 5);
      && r.pc.Watching? && !r.disconnecting && !r.cancelled
      && r.log == s.conns[c].log + Publishes(s.conns[c], s.epoch)
  {
    Reachable(last, es);
    assert ConnOk(Exec(last, es).conns[c]);
    DriveConnects(Exec(last, es).conns[c], Exec(last, es).epoch, t, 5);
  }

  /** An attempt that fails leaves the flow as it was before its rung, so that any number of them may fail
    * first, whatever the network does meanwhile. */
  lemma FailedAttemptLeavesNoTrace(conn: Conn, e1: nat, e2: nat, e3: nat, t: Transport)
    requires Unstopped(conn) && conn.pc.Laddering?
    ensures ConnStep(ConnStep(ConnStep(conn, e1, NextRung), e2, Capture(t)), e3, AttemptFailed) == conn
  {
  }

  /** A lost path is recovered from on the same connection: CONNECTING is published and the ladder walked
    * again, as a recovery. */
  lemma LossIsRecoveredFrom(conn: Conn, e1: nat, e2: nat)
    requires conn.pc.Watching?
    ensures ConnStep(ConnStep(conn, e1, Lose), e2, Recover) ==
      conn.(pc := Laddering(true), log := conn.log + [Connecting])
  {
  }

  /** A wake is taken up: by a recovery it is dropped, since the next attempt reads the epoch anyway; by a
    * supervisor that is not to stop, the epoch is accounted for, and of the sessions just a WSS one that
    * the epoch left behind is given up. */
  lemma WakeIsTakenUp(conn: Conn, epoch: nat)
    requires conn.wake && !conn.disconnecting && !conn.cancelled
    ensures conn.pc == Laddering(true) ==> ConnStep(conn, epoch, GapReceive) == conn.(wake := false)
    ensures conn.pc.Watching? ==>
      var retired := conn.pc.transport.Wss? && epoch != conn.handled;
      ConnStep(ConnStep(conn, epoch, Receive), epoch, ReadEpoch) ==
      conn.(wake := false, handled := epoch, pc := if retired then Triggered else conn.pc)
  {
  }

  /** Nothing but a wake is taken up, a first ladder takes none, and a supervisor that is to stop leaves at
    * one. */
  lemma OnlyAWakeIsTakenUp(conn: Conn, epoch: nat)
    ensures !conn.wake ==> ConnStep(conn, epoch, Receive) == conn == ConnStep(conn, epoch, GapReceive)
    ensures conn.pc == Laddering(false) ==> ConnStep(conn, epoch, GapReceive) == conn
    ensures conn.wake && conn.pc.Watching? ==>
      (ConnStep(conn, epoch, Receive).pc == Exiting(true) <==> conn.disconnecting || conn.cancelled)
  {
  }

  /** An exiting flow may cancel its own context first, which is all that this does. */
  lemma ExitMayCancel(conn: Conn, epoch: nat)
    requires conn.pc.Exiting?
    ensures ConnStep(conn, epoch, CancelOwn) == conn.(cancelled := true)
  {
  }

  /** A flow that is prepared announces its first ladder, which is no recovery. */
  lemma FirstLadderIsAnnounced(conn: Conn, epoch: nat)
    requires conn.pc.Starting?
    ensures ConnStep(conn, epoch, Prepared) == conn.(pc := Laddering(false), log := conn.log + [Connecting])
  {
  }

  /** The way out of a flow that fails, up to its end. */
  function Ends(conn: Conn, epoch: nat): Conn {
    var final := ConnStep(ConnStep(ConnStep(conn, epoch, Fail), epoch, Finalize), epoch, Resample);
    ConnStep(ConnStep(ConnStep(final, epoch, EmitTerminal), epoch, Clear), epoch, Close)
  }

  /** A flow that cannot be prepared, runs out of candidates or cannot go on supervising ends: it publishes
    * just FAILED, or DISCONNECTED if the user asked for that meanwhile, and closes `done`. */
  lemma FailureEndsTheFlow(conn: Conn, epoch: nat)
    requires conn.pc.Starting? || conn.pc.Laddering? || conn.pc.Watching?
    ensures Ends(conn, epoch) == conn.(
      pc := Done, finalized := true, cancelled := true,
      log := conn.log + [if conn.disconnecting then Disconnected else Failed])
  {
  }

  /** A flow that is told to stop leaves where it next looks, and ends as DISCONNECTED. */
  lemma StopEndsTheFlow(conn: Conn, epoch: nat)
    requires Stoppable(conn.pc) && conn.disconnecting
    ensures var left := ConnStep(conn, epoch, Stop);
      var final := ConnStep(ConnStep(left, epoch, Finalize), epoch, Resample);
      ConnStep(final, epoch, EmitTerminal) ==
      conn.(pc := Terminated, finalized := true, log := conn.log + [Disconnected])
  {
  }

  predicate DoneCancelled(s: State) {
    forall c :: 0 <= c < |s.conns| && s.conns[c].pc.Done? ==> s.conns[c].cancelled
  }

  lemma DoneOnlyByClose(conn: Conn, epoch: nat, f: FlowEvent)
    requires ConnStep(conn, epoch, f).pc.Done?
    ensures conn.pc.Done? || ConnStep(conn, epoch, f).cancelled
  {
  }

  lemma UserFinishesNobody(s: State, u: UserEvent, c: nat)
    requires c < |UserStep(s, u).conns| && UserStep(s, u).conns[c].pc.Done?
    ensures c < |s.conns| && s.conns[c].pc.Done? && (s.conns[c].cancelled ==> UserStep(s, u).conns[c].cancelled)
  {
  }

  lemma FlowFinishesItself(s: State, d: nat, f: FlowEvent, c: nat)
    requires DoneCancelled(s) && c < |FlowStep(s, d, f).conns| && FlowStep(s, d, f).conns[c].pc.Done?
    ensures FlowStep(s, d, f).conns[c].cancelled
  {
    if d < |s.conns| { FlowKeepsOp(s, d, f); }
    if d == c {
      ConnStepPc(s.conns[c], s.epoch, f);
      DoneOnlyByClose(s.conns[c], s.epoch, f);
    } else {
      OtherFlowKeeps(s, d, f, c);
    }
  }

  lemma StepDoneCancelled(s: State, e: Event)
    requires DoneCancelled(s)
    ensures DoneCancelled(Step(s, e))
  {
    forall c: nat | c < |Step(s, e).conns| && Step(s, e).conns[c].pc.Done? ensures Step(s, e).conns[c].cancelled {
      match e {
        case User(u) => UserFinishesNobody(s, u, c);
        case Net(t, n) =>
          NetStepFrame(s, t, n);
          NetKeepsPc(s, t, n, c);
        case Flow(d, f) => FlowFinishesItself(s, d, f, c);
      }
    }
  }

  /** In every run the context of a flow that has closed `done` is cancelled: nothing of it goes on. */
  lemma {:induction false} DoneFlowIsCancelled(last: NetworkState, es: seq<Event>)
    ensures DoneCancelled(Exec(last, es))
    decreases |es|
  {
    if es != [] {
      DoneFlowIsCancelled(last, es[..|es| - 1]);
      StepDoneCancelled(Exec(last, es[..|es| - 1]), es[|es| - 1]);
    }
  }
}
