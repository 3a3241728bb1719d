/** What every interleaving of user calls, flow goroutines and network callbacks keeps. */
module EngineTheorems {
  import opened Engine
  import opened Prelude

  lemma {:induction false} ExecFromInv(s: State, es: seq<Event>)
    requires Inv(s)
    ensures Inv(ExecFrom(s, es))
    decreases |es|
  {
    if es != [] {
      var before := ExecFrom(s, es[..|es| - 1]);
      ExecFromInv(s, es[..|es| - 1]);
      match es[|es| - 1] {
        case User(u) => UserStepInv(before, u);
        case Net(t, n) => NetStepInv(before, t, n);
        case Flow(c, f) => FlowStepInv(before, c, f);
      }
    }
  }

  lemma Reachable(last: NetworkState, es: seq<Event>)
    ensures Inv(Exec(last, es))
  {
    ExecFromInv(Init(last), es);
  }

  // ---- Network epochs ----

  /** A watching supervisor that has not accounted for the current epoch has a wake in its
    * channel, or some updater that advanced the epoch past its baseline has still to send it one. */
  lemma NoLostEpoch(last: NetworkState, es: seq<Event>, c: nat)
    requires c < |Exec(last, es).conns| && Exec(last, es).conns[c].pc.Watching?
    ensures var s := Exec(last, es);
      && s.conns[c].handled <= s.epoch
      && (s.conns[c].handled < s.epoch ==> s.conns[c].wake || Coming(s, c, s.conns[c].handled))
  {
    Reachable(last, es);
    assert Noticed(Exec(last, es), c) && SessionOk(Exec(last, es).conns[c], Exec(last, es).epoch);
  }

  /** Once no callback is in flight and no wake is pending, the supervisor is up to date, and a
    * live WSS session was dialled in the current epoch. */
  lemma QuietSessionIsCurrent(last: NetworkState, es: seq<Event>, c: nat)
    requires c < |Exec(last, es).conns| && Exec(last, es).conns[c].pc.Watching?
    requires Exec(last, es).updaters == map[] && !Exec(last, es).conns[c].wake
    ensures var s := Exec(last, es);
      && s.conns[c].handled == s.epoch
      && (s.conns[c].pc.transport.Wss? ==> s.conns[c].sessionEpoch == s.epoch)
  {
    NoLostEpoch(last, es, c);
    Reachable(last, es);
    assert SessionOk(Exec(last, es).conns[c], Exec(last, es).epoch);
  }

  /** A wake retires a WSS session exactly when the epoch advanced after its attempt began. */
  lemma WssRetiredIffEpochAdvanced(last: NetworkState, es: seq<Event>, c: nat)
    requires c < |Exec(last, es).conns| && Exec(last, es).conns[c].pc == Woken(Wss)
    ensures var s := Exec(last, es);
      var after := Exec(last, es + [Flow(c, ReadEpoch)]).conns[c];
      && (after.pc.Triggered? <==> s.epoch > s.conns[c].sessionEpoch)
      && (!after.pc.Triggered? ==> after == s.conns[c].(pc := Watching(Wss)))
  {
    Reachable(last, es);
    var s := Exec(last, es);
    assert (es + [Flow(c, ReadEpoch)])[..|es|] == es;
    assert SessionOk(s.conns[c], s.epoch);
  }

  // ---- Status history ----

  /** Two connections are never both attached to the engine: all but the newest have passed clearConn. */
  lemma AtMostOneFlow(last: NetworkState, es: seq<Event>, i: nat, j: nat)
    requires i < j < |Exec(last, es).conns|
    ensures Detached(Exec(last, es).conns[i].pc)
  {
    Reachable(last, es);
  }

  /** A connection's emissions begin with PREPARING and hold at most one terminal status, which
    * is last; a flow that has detached has emitted exactly that one. */
  lemma StatusHistory(last: NetworkState, es: seq<Event>, c: nat)
    requires c < |Exec(last, es).conns|
    ensures var conn := Exec(last, es).conns[c];
      && (conn.log != [] ==> conn.log[0] == Preparing)
      && (forall j :: 0 <= j < |conn.log| - 1 ==> !IsTerminal(conn.log[j]))
      && (Detached(conn.pc) ==> conn.log != [] && IsTerminal(conn.log[|conn.log| - 1]))
  {
    Reachable(last, es);
    assert ConnOk(Exec(last, es).conns[c]);
  }

  /** The finaliser's verdict is DISCONNECTED exactly when the flag was set by its re-sample. */
  lemma VerdictIffFlagged(last: NetworkState, es: seq<Event>, c: nat)
    requires c < |Exec(last, es).conns| && Exec(last, es).conns[c].pc.Finalizing?
    ensures Exec(last, es + [Flow(c, Resample)]).conns[c].pc
         == Sampled(if Exec(last, es).conns[c].disconnecting then Disconnected else Failed)
  {
    Reachable(last, es);
    assert ConnOk(Exec(last, es).conns[c]);
    assert (es + [Flow(c, Resample)])[..|es|] == es;
  }

  /** With no connection installed the sink last saw a terminal status: it is never left on a transient one. */
  lemma NeverStuckOnTransient(last: NetworkState, es: seq<Event>)
    requires Exec(last, es).conn == None
    ensures IsTerminal(Exec(last, es).status)
  {
    Reachable(last, es);
    var s := Exec(last, es);
    if s.conns != [] {
      assert ConnOk(Newest(s));
    }
  }

  /** A flagged connection on its way to DISCONNECTED. */
  predicate Doomed(conn: Conn) {
    && conn.disconnecting
    && (conn.pc.Sampled? ==> conn.pc.terminal == Disconnected)
    && (Ended(conn.pc) ==> EndsTerminal(conn.log) && conn.log[|conn.log| - 1] == Disconnected)
  }

  /** `log` grew from `past` without a CONNECTED. */
  predicate NoFurtherConnected(past: seq<Status>, log: seq<Status>) {
    && |past| <= |log| && log[..|past|] == past
    && (forall j :: |past| <= j < |log| ==> log[j] != Connected)
  }

  lemma ConnStepSays(conn: Conn, epoch: nat, e: FlowEvent)
    requires conn.disconnecting && (conn.pc.Sampled? ==> IsTerminal(conn.pc.terminal))
    ensures var next := ConnStep(conn, epoch, e);
      next.log == conn.log || (exists st :: st != Connected && next.log == conn.log + [st])
  {
  }

  lemma ConnStepDoomed(conn: Conn, epoch: nat, e: FlowEvent)
    requires Doomed(conn)
    ensures Doomed(ConnStep(conn, epoch, e))
  {
  }

  lemma GrowsWithoutConnected(past: seq<Status>, log: seq<Status>, st: Status)
    requires NoFurtherConnected(past, log) && st != Connected
    ensures NoFurtherConnected(past, log + [st])
  {
    assert (log + [st])[..|past|] == log[..|past|];
  }

  lemma StepDoomed(s: State, e: Event, c: nat, past: seq<Status>)
    requires OpOk(s) && c < |s.conns| && ConnOk(s.conns[c])
    requires s.conns[c].disconnecting && NoFurtherConnected(past, s.conns[c].log)
    ensures var r := Step(s, e);
      && c < |r.conns| && r.conns[c].disconnecting && NoFurtherConnected(past, r.conns[c].log)
      && (Doomed(s.conns[c]) ==> Doomed(r.conns[c]))
  {
    var conn := s.conns[c];
    match e {
      case User(u) =>
        UserKeepsDoom(s, u, c);
        GrowsWithoutConnected(past, conn.log, Disconnecting);
        GrowsWithoutConnected(past, conn.log, Preparing);
      case Net(t, n) =>
        NetStepFrame(s, t, n);
      case Flow(d, f) =>
        if d == c {
          FlowKeepsOp(s, c, f);
          FlowKeepsDoom(conn, s.epoch, f, past);
        } else {
          assert Step(s, e).conns[c] == conn;
        }
    }
  }

  lemma FlowKeepsDoom(conn: Conn, epoch: nat, e: FlowEvent, past: seq<Status>)
    requires conn.disconnecting && NoFurtherConnected(past, conn.log) && ConnOk(conn)
    ensures var next := ConnStep(conn, epoch, e);
      && next.disconnecting && NoFurtherConnected(past, next.log)
      && (Doomed(conn) ==> Doomed(next))
  {
    ConnStepPc(conn, epoch, e);
    ConnStepSays(conn, epoch, e);
    var next := ConnStep(conn, epoch, e);
    if next.log != conn.log {
      var st :| st != Connected && next.log == conn.log + [st];
      GrowsWithoutConnected(past, conn.log, st);
    }
    if Doomed(conn) { ConnStepDoomed(conn, epoch, e); }
  }

  /** A user call adds at most a DISCONNECTING to a flagged connection, and only before the finaliser. */
  lemma UserKeepsDoom(s: State, u: UserEvent, c: nat)
    requires OpOk(s) && c < |s.conns| && s.conns[c].disconnecting
    ensures var r := UserStep(s, u);
      && c < |r.conns| && r.conns[c].disconnecting && r.conns[c].finalized == s.conns[c].finalized
      && (r.conns[c].log == s.conns[c].log
          || (!s.conns[c].finalized && r.conns[c].log == s.conns[c].log + [Disconnecting])
          || (s.conns[c].pc.Unstarted? && r.conns[c].log == s.conns[c].log + [Preparing]))
      && (r.conns[c].pc == s.conns[c].pc || (s.conns[c].pc.Unstarted? && r.conns[c].pc.Starting?))
  {
  }

  /** Once the disconnect flag is set, no later step of any run emits CONNECTED, and unless the
    * finaliser had already sampled, the connection can only end in DISCONNECTED. */
  lemma DisconnectWins(last: NetworkState, es: seq<Event>, more: seq<Event>, c: nat)
    requires c < |Exec(last, es).conns| && Exec(last, es).conns[c].disconnecting
    ensures var before := Exec(last, es).conns[c];
      var s := ExecFrom(Exec(last, es), more);
      && c < |s.conns| && s.conns[c].disconnecting
      && NoFurtherConnected(before.log, s.conns[c].log)
      && (!before.pc.Sampled? && !Ended(before.pc) && EndsTerminal(s.conns[c].log) ==>
            s.conns[c].log[|s.conns[c].log| - 1] == Disconnected)
  {
    var s0 := Exec(last, es);
    Reachable(last, es);
    DoomRun(s0, more, c);
    ExecFromInv(s0, more);
    assert ConnOk(ExecFrom(s0, more).conns[c]);
  }

  lemma {:induction false} DoomRun(s: State, es: seq<Event>, c: nat)
    requires Inv(s) && c < |s.conns| && s.conns[c].disconnecting
    ensures var r := ExecFrom(s, es);
      && c < |r.conns| && r.conns[c].disconnecting && NoFurtherConnected(s.conns[c].log, r.conns[c].log)
      && (Doomed(s.conns[c]) ==> Doomed(r.conns[c]))
    decreases |es|
  {
    if es != [] {
      DoomRun(s, es[..|es| - 1], c);
      ExecFromInv(s, es[..|es| - 1]);
      StepDoomed(ExecFrom(s, es[..|es| - 1]), es[|es| - 1], c, s.conns[c].log);
    }
  }

  /** A promotion publishes CONNECTED exactly when the connection is not flagged, and else leaves. */
  lemma PromotesUnlessFlagged(last: NetworkState, es: seq<Event>, c: nat)
    requires c < |Exec(last, es).conns| && Exec(last, es).conns[c].pc.Attempting?
    ensures var before := Exec(last, es).conns[c];
      var r := Exec(last, es + [Flow(c, Promote)]);
      if before.disconnecting then r.conns[c] == before.(pc := Exiting(true))
      else
        && r.conns[c].log == before.log + [Connected] && r.status == Connected
        && r.conns[c].pc == Watching(before.pc.attemptTransport)
        && r.conns[c].sessionEpoch == r.conns[c].handled == before.pc.attemptEpoch
  {
    Reachable(last, es);
    assert ConnOk(Exec(last, es).conns[c]);
    assert (es + [Flow(c, Promote)])[..|es|] == es;
  }

  /** The call that flagged connection `c` has still to cancel it, or has. */
  predicate CancelDue(s: State, c: nat) {
    && c < |s.conns| && s.conns[c].disconnecting
    && (s.conns[c].cancelled || s.op == DisconnectFlagged(c) || (s.op.Tearing? && s.op.victim == c))
  }

  lemma UserCancelDue(s: State, u: UserEvent, c: nat)
    requires CancelDue(s, c)
    ensures CancelDue(UserStep(s, u), c)
  {
  }

  lemma StepCancelDue(s: State, e: Event, c: nat)
    requires CancelDue(s, c)
    ensures CancelDue(Step(s, e), c)
  {
    match e {
      case User(u) => UserCancelDue(s, u, c);
      case Net(t, n) =>
        NetStepFrame(s, t, n);
        NetKeepsPc(s, t, n, c);
      case Flow(d, f) =>
        if d == c {
          ConnStepPc(s.conns[c], s.epoch, f);
          FlowKeepsOp(s, c, f);
        } else if d < |s.conns| {
          OtherFlowKeeps(s, d, f, c);
          FlowKeepsOp(s, d, f);
        }
    }
  }

  lemma {:induction false} CancelStaysDue(s: State, es: seq<Event>, c: nat)
    requires CancelDue(s, c)
    ensures CancelDue(ExecFrom(s, es), c)
    decreases |es|
  {
    if es != [] {
      CancelStaysDue(s, es[..|es| - 1], c);
      StepCancelDue(ExecFrom(s, es[..|es| - 1]), es[|es| - 1], c);
    }
  }

  /** A Disconnect, Connect or Shutdown that finds a connection flags it at once, and by the end of the
    * call has cancelled it: the next call begins only then. A Disconnect also publishes DISCONNECTING,
    * unless the flow has claimed the terminal status. */
  lemma CallCancelsItsFlow(last: NetworkState, es: seq<Event>, call: UserEvent, more: seq<Event>, c: nat)
    requires Exec(last, es).op.Free? && Exec(last, es).conn == Some(c)
    requires call in {DisconnectBegin, ConnectBegin, ShutdownBegin}
    ensures c < |Exec(last, es).conns|
    ensures var before, s := Exec(last, es).conns[c], Exec(last, es + [User(call)]);
      var r := ExecFrom(s, more);
      && c < |s.conns| && c < |r.conns| && r.conns[c].disconnecting
      && (r.op.Free? || r.op.Installing? || r.op.Awaiting? ==> r.conns[c].cancelled)
      && (call.DisconnectBegin? && !before.finalized ==>
            s.conns[c].log == before.log + [Disconnecting] && s.status == Disconnecting)
  {
    Reachable(last, es);
    assert (es + [User(call)])[..|es|] == es;
    CancelStaysDue(Exec(last, es + [User(call)]), more, c);
  }

  // ---- A cancelled flow ends ----

  /** How far a cancelled flow is from closing `done`, at most. */
  function Distance(pc: Pc): nat {
    match pc
    case Unstarted => 9
    case Woken(_) => 9
    case Watching(_) => 8
    case Rung(_) => 8
    case Triggered => 7
    case Attempting(_, _, _) => 7
    case Starting => 7
    case Laddering(_) => 6
    case Exiting(_) => 5
    case Finalizing(_) => 4
    case Sampled(_) => 3
    case Terminated => 2
    case Cleared => 1
    case Done => 0
  }

  /** A wake that is pending may cost one more step: a recovery waiting for the network takes it. */
  function Remaining(conn: Conn): nat {
    Distance(conn.pc) + if conn.wake then 1 else 0
  }

  /** The event is a step of flow `c` that changes something. */
  predicate OwnMove(s: State, e: Event, c: nat) {
    e.Flow? && e.c == c && c < |s.conns| && ConnStep(s.conns[c], s.epoch, e.flow) != s.conns[c]
  }

  /** The event puts a wake into the empty channel of connection `c`. */
  predicate Wakes(s: State, e: Event, c: nat) {
    e.Net? && c < |s.conns| && !s.conns[c].wake && c < |Step(s, e).conns| && Step(s, e).conns[c].wake
  }

  function OwnMoves(s: State, es: seq<Event>, c: nat): nat
    decreases |es|
  {
    if es == [] then 0
    else
      var past := es[..|es| - 1];
      OwnMoves(s, past, c) + if OwnMove(ExecFrom(s, past), es[|es| - 1], c) then 1 else 0
  }

  function WakesSent(s: State, es: seq<Event>, c: nat): nat
    decreases |es|
  {
    if es == [] then 0
    else
      var past := es[..|es| - 1];
      WakesSent(s, past, c) + if Wakes(ExecFrom(s, past), es[|es| - 1], c) then 1 else 0
  }

  /** Every step a cancelled flow makes brings it closer to its end. */
  lemma MoveIsCloser(conn: Conn, epoch: nat, f: FlowEvent)
    requires ConnOk(conn) && conn.cancelled && !conn.pc.Unstarted?
    ensures var next := ConnStep(conn, epoch, f);
      && next.cancelled && !next.pc.Unstarted?
      && (next != conn ==> Remaining(next) < Remaining(conn))
  {
  }

  /** A cancelled flow that has not closed `done` has a step to make. */
  function NextMove(pc: Pc): FlowEvent {
    match pc
    case Starting => Fail
    case Rung(_) => Capture(Direct)
    case Woken(_) => ReadEpoch
    case Exiting(_) => Finalize
    case Finalizing(_) => Resample
    case Sampled(_) => EmitTerminal
    case Terminated => Clear
    case Cleared => Close
    case _ => Stop
  }

  lemma HasNextMove(conn: Conn, epoch: nat)
    requires ConnOk(conn) && conn.cancelled && !conn.pc.Unstarted?
    ensures conn.pc.Done? <==> forall f :: ConnStep(conn, epoch, f) == conn
  {
    if !conn.pc.Done? {
      assert ConnStep(conn, epoch, NextMove(conn.pc)) != conn;
    }
  }

  lemma FlowKeepsOp(s: State, c: nat, f: FlowEvent)
    requires c < |s.conns|
    ensures var r := FlowStep(s, c, f);
      r.op == s.op && |r.conns| == |s.conns| && r.conns[c] == ConnStep(s.conns[c], s.epoch, f)
  {
  }

  /** What other threads do to a started connection: they set its flags, its log and its wake. */
  predicate KeepsPc(conn: Conn, next: Conn) {
    next.pc == conn.pc && (conn.cancelled ==> next.cancelled)
  }

  lemma UserKeepsPc(s: State, u: UserEvent, c: nat)
    requires OpOk(s) && c < |s.conns| && !s.conns[c].pc.Unstarted?
    ensures var r := UserStep(s, u);
      c < |r.conns| && KeepsPc(s.conns[c], r.conns[c]) && r.conns[c].wake == s.conns[c].wake
  {
  }

  lemma NetKeepsPc(s: State, t: nat, n: NetEvent, c: nat)
    requires c < |s.conns|
    ensures var r := NetStep(s, t, n);
      c < |r.conns| && KeepsPc(s.conns[c], r.conns[c]) && (s.conns[c].wake ==> r.conns[c].wake)
  {
  }

  lemma OtherFlowKeeps(s: State, d: nat, f: FlowEvent, c: nat)
    requires c < |s.conns| && d != c
    ensures c < |FlowStep(s, d, f).conns| && FlowStep(s, d, f).conns[c] == s.conns[c]
  {
  }

  lemma StepBudget(s: State, e: Event, c: nat)
    requires Inv(s) && c < |s.conns| && s.conns[c].cancelled && !s.conns[c].pc.Unstarted?
    ensures var r := Step(s, e);
      && c < |r.conns| && r.conns[c].cancelled && !r.conns[c].pc.Unstarted?
      && Remaining(r.conns[c]) + (if OwnMove(s, e, c) then 1 else 0)
           <= Remaining(s.conns[c]) + if Wakes(s, e, c) then 1 else 0
  {
    match e {
      case User(u) => UserKeepsPc(s, u, c);
      case Net(t, n) => NetKeepsPc(s, t, n, c);
      case Flow(d, f) =>
        if d == c {
          FlowKeepsOp(s, c, f);
          MoveIsCloser(s.conns[c], s.epoch, f);
        } else {
          OtherFlowKeeps(s, d, f, c);
        }
    }
  }

  /** In every run from a state in which a started flow is cancelled, that flow makes at most ten
    * moves, and one more for each wake sent to it meanwhile; and it is only out of moves once it has
    * closed `done`. So whoever waits for it is released. */
  lemma {:induction false} CancelledFlowEnds(s: State, es: seq<Event>, c: nat)
    requires Inv(s) && c < |s.conns| && s.conns[c].cancelled && !s.conns[c].pc.Unstarted?
    ensures var r := ExecFrom(s, es);
      && c < |r.conns| && r.conns[c].cancelled && !r.conns[c].pc.Unstarted?
      && OwnMoves(s, es, c) + Remaining(r.conns[c]) <= Remaining(s.conns[c]) + WakesSent(s, es, c)
      && Remaining(s.conns[c]) <= 10
      && (r.conns[c].pc.Done? <==> forall f :: ConnStep(r.conns[c], r.epoch, f) == r.conns[c])
    decreases |es|
  {
    ExecFromInv(s, es);
    if es != [] {
      var past := es[..|es| - 1];
      CancelledFlowEnds(s, past, c);
      ExecFromInv(s, past);
      StepBudget(ExecFrom(s, past), es[|es| - 1], c);
    }
    HasNextMove(ExecFrom(s, es).conns[c], ExecFrom(s, es).epoch);
  }

  /** A Connect or Shutdown waits only for a flow of that kind. */
  lemma AwaitedIsCancelled(last: NetworkState, es: seq<Event>)
    requires Exec(last, es).op.Awaiting?
    ensures var s := Exec(last, es);
      && Inv(s) && s.op.victim < |s.conns|
      && s.conns[s.op.victim].cancelled && !s.conns[s.op.victim].pc.Unstarted?
  {
    Reachable(last, es);
  }

  // ---- Whole user calls ----

  predicate NoUser(es: seq<Event>) { forall i :: 0 <= i < |es| ==> !es[i].User? }

  /** Flows and callbacks leave the call under way alone. */
  lemma {:induction false} OthersKeepOp(s: State, es: seq<Event>)
    requires NoUser(es)
    ensures ExecFrom(s, es).op == s.op && |ExecFrom(s, es).conns| == |s.conns|
    decreases |es|
  {
    if es != [] {
      var past, e := es[..|es| - 1], es[|es| - 1];
      OthersKeepOp(s, past);
      var r := ExecFrom(s, past);
      if e.Net? {
        NetStepFrame(r, e.thread, e.net);
      } else if e.c < |r.conns| {
        FlowKeepsOp(r, e.c, e.flow);
      }
    }
  }

  /** A call that finds connection `c`, up to where it waits for that connection's flow, with anything else
    * happening in between. */
  function Waits(s: State, connecting: bool, mid: seq<Event>, more: seq<Event>): State {
    var begun := Step(s, User(if connecting then ConnectBegin else ShutdownBegin));
    ExecFrom(Step(ExecFrom(begun, mid), User(Cancel)), more)
  }

  lemma CallWaits(s: State, connecting: bool, mid: seq<Event>, more: seq<Event>, c: nat)
    requires Inv(s) && s.op.Free? && s.conn == Some(c) && NoUser(mid) && NoUser(more)
    ensures var r := Waits(s, connecting, mid, more);
      && Inv(r) && r.op == Awaiting(c, connecting) && c < |r.conns| == |s.conns|
  {
    var begun := Step(s, User(if connecting then ConnectBegin else ShutdownBegin));
    TearInv(s, connecting);
    assert begun.op == Tearing(c, connecting) && |begun.conns| == |s.conns|;
    OthersKeepOp(begun, mid);
    ExecFromInv(begun, mid);
    var ready := ExecFrom(begun, mid);
    CancelInv(ready);
    OthersKeepOp(Step(ready, User(Cancel)), more);
    ExecFromInv(Step(ready, User(Cancel)), more);
  }

  /** The new connection of a Connect that need not wait any longer. */
  function Installs(s: State): State {
    UserStep(UserStep(UserStep(s, Install), Announce), Spawn)
  }

  lemma InstallStarts(s: State)
    requires s.op.Installing?
    ensures var r := Installs(s);
      && r.op.Free? && r.conn == Some(|s.conns|) && r.status == Preparing
      && r.conns == s.conns + [FreshConn().(pc := Starting, log := [Preparing])]
  {
    var s1 := UserStep(s, Install);
    var s2 := UserStep(s1, Announce);
    assert s1.conns[|s.conns|] == FreshConn();
    assert s2.conns[|s.conns|] == FreshConn().(log := [Preparing]);
  }

  /** In every interleaving a Connect or Shutdown that finds a connection waits, cancelled as it is, for just
    * that flow to close `done`: before, its Await does nothing; after, a Connect starts one new flow and a
    * Shutdown ends with none. */
  lemma CallCompletesIffFlowDone(
    last: NetworkState, es: seq<Event>, connecting: bool, mid: seq<Event>, more: seq<Event>, c: nat)
    requires Exec(last, es).op.Free? && Exec(last, es).conn == Some(c) && NoUser(mid) && NoUser(more)
    ensures var w := Waits(Exec(last, es), connecting, mid, more);
      var r := Step(w, User(Await));
      && c < |w.conns| && w.conns[c].cancelled
      && (if !w.conns[c].pc.Done? then r == w
          else if connecting then
            Installs(r).op.Free? && Installs(r).conns == w.conns + [FreshConn().(pc := Starting, log := [Preparing])]
          else r == w.(op := Free) && r.conn.None?)
  {
    Reachable(last, es);
    var w := Waits(Exec(last, es), connecting, mid, more);
    CallWaits(Exec(last, es), connecting, mid, more, c);
    if w.conns[c].pc.Done? && connecting { InstallStarts(Step(w, User(Await))); }
  }

  /** A Disconnect that finds a connection waits for nothing: in every interleaving its next region cancels
    * that connection and ends the call. */
  lemma DisconnectCompletes(last: NetworkState, es: seq<Event>, mid: seq<Event>, c: nat)
    requires Exec(last, es).op.Free? && Exec(last, es).conn == Some(c) && NoUser(mid)
    ensures var r := Step(ExecFrom(Step(Exec(last, es), User(DisconnectBegin)), mid), User(Cancel));
      r.op.Free? && c < |r.conns| && r.conns[c].cancelled
  {
    Reachable(last, es);
    var begun := Step(Exec(last, es), User(DisconnectBegin));
    assert begun.op == DisconnectFlagged(c) && c < |begun.conns|;
    OthersKeepOp(begun, mid);
  }

  /** With no connection a Connect starts one at once, and Shutdown and Disconnect do nothing. */
  lemma CallWithoutConnection(last: NetworkState, es: seq<Event>)
    requires Exec(last, es).op.Free? && Exec(last, es).conn.None?
    ensures var s := Exec(last, es);
      && Step(s, User(ShutdownBegin)) == s && Step(s, User(DisconnectBegin)) == s
      && Installs(Step(s, User(ConnectBegin))).op.Free?
      && Installs(Step(s, User(ConnectBegin))).conns == s.conns + [FreshConn().(pc := Starting, log := [Preparing])]
  {
    InstallStarts(Step(Exec(last, es), User(ConnectBegin)));
  }

  // ---- Two flows, neither of them done ----

  ghost predicate Reached(last: NetworkState, s: State) {
    exists es :: Exec(last, es) == s
  }

  lemma ReachStep(last: NetworkState, s: State, e: Event) returns (r: State)
    requires Reached(last, s)
    ensures r == Step(s, e) && Reached(last, r)
  {
    var es :| Exec(last, es) == s;
    assert (es + [e])[..|es|] == es;
    r := Step(s, e);
    assert Exec(last, es + [e]) == r;
  }

  /** A call of Connect with no connection installed starts a flow beside those there are. */
  lemma ConnectStarts(last: NetworkState, s: State) returns (r: State)
    requires Reached(last, s) && s.op == Free && s.conn == None
    ensures Reached(last, r) && r.op == Free && r.conn == Some(|s.conns|)
    ensures |r.conns| == |s.conns| + 1 && r.conns[..|s.conns|] == s.conns && r.conns[|s.conns|].pc == Starting
  {
    r := ReachStep(last, s, User(ConnectBegin));
    r := ReachStep(last, r, User(Install));
    r := ReachStep(last, r, User(Announce));
    r := ReachStep(last, r, User(Spawn));
  }

  /** The way of a flow that fails while starting, up to its clearConn. */
  function FailingMove(pc: Pc): FlowEvent {
    match pc
    case Starting => Fail
    case Exiting(_) => Finalize
    case Finalizing(_) => Resample
    case _ => EmitTerminal
  }

  predicate OnTheWay(pc: Pc) { pc.Starting? || pc.Exiting? || pc.Finalizing? || pc.Sampled? }

  lemma FailingMoves(conn: Conn, epoch: nat)
    requires OnTheWay(conn.pc)
    ensures var next := ConnStep(conn, epoch, FailingMove(conn.pc)).pc;
      (OnTheWay(next) || next.Terminated?) && Distance(next) < Distance(conn.pc)
  {
  }

  /** The only flow of the engine, which has not left it. */
  ghost predicate OneFlow(last: NetworkState, s: State) {
    Reached(last, s) && s.op == Free && s.conn == Some(0) && |s.conns| == 1
  }

  lemma FlowStepKeepsOne(last: NetworkState, s: State, f: FlowEvent) returns (r: State)
    requires OneFlow(last, s) && !ConnStep(s.conns[0], s.epoch, f).pc.Cleared?
    ensures OneFlow(last, r) && r.conns[0] == ConnStep(s.conns[0], s.epoch, f)
  {
    FlowKeepsOp(s, 0, f);
    r := ReachStep(last, s, Flow(0, f));
  }

  lemma {:induction false} FailsUpToClear(last: NetworkState, s: State) returns (r: State)
    requires OneFlow(last, s) && (OnTheWay(s.conns[0].pc) || s.conns[0].pc.Terminated?)
    ensures OneFlow(last, r) && r.conns[0].pc.Terminated?
    decreases Distance(s.conns[0].pc)
  {
    r := s;
    if OnTheWay(s.conns[0].pc) {
      FailingMoves(s.conns[0], s.epoch);
      var next := FlowStepKeepsOne(last, s, FailingMove(s.conns[0].pc));
      r := FailsUpToClear(last, next);
    }
  }

  lemma OneFlowClears(last: NetworkState, s: State) returns (r: State)
    requires OneFlow(last, s) && s.conns[0].pc.Terminated?
    ensures Reached(last, r) && r.op == Free && r.conn == None && |r.conns| == 1 && r.conns[0].pc == Cleared
  {
    FlowKeepsOp(s, 0, Clear);
    r := ReachStep(last, s, Flow(0, Clear));
  }

  lemma OneFlowStarts(last: NetworkState) returns (s: State)
    ensures OneFlow(last, s) && s.conns[0].pc.Starting?
  {
    assert Exec(last, []) == Init(last);
    s := ConnectStarts(last, Init(last));
  }

  lemma FirstFlowCleared(last: NetworkState) returns (s: State)
    ensures Reached(last, s) && s.op == Free && s.conn == None && |s.conns| == 1 && s.conns[0].pc == Cleared
  {
    s := OneFlowStarts(last);
    s := FailsUpToClear(last, s);
    s := OneFlowClears(last, s);
  }

  /** A Connect after the old flow's clearConn starts its own flow although the old one has still to
    * close `done`. */
  lemma NewFlowBesideOld(last: NetworkState)
    ensures exists es :: var s := Exec(last, es);
      |s.conns| == 2 && s.conns[0].pc == Cleared && s.conns[1].pc == Starting && s.conn == Some(1)
  {
    var s := FirstFlowCleared(last);
    var r := ConnectStarts(last, s);
    assert r.conns[0] == r.conns[..1][0];
    var es :| Exec(last, es) == r;
    assert |Exec(last, es).conns| == 2;
  }
}
