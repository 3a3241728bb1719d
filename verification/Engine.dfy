/** The connection engine as a step machine.
  *
  * User calls (ConnectTarget, Disconnect, Shutdown), the connect-flow goroutine
  * of each connection and the platform network callback interleave. One event is
  * one region executed under `mu` or `netMu`, or one channel or context
  * operation. `connectMu` serialises the user calls, so at most one of them is
  * past its first line; the calls waiting for the lock have no state yet.
  *
  * A disabled event leaves the state alone, so `Exec` over every event sequence
  * covers every interleaving.
  */
module Engine {
  import opened Prelude

  datatype Status = Disconnected | Preparing | Connecting | Connected | Disconnecting | Failed

  datatype Transport = Direct | Punch | Wss

  /** One platform observation. Equality is the only operation on it. */
  datatype NetworkState = NetworkState(up: bool, fingerprint: string, ipv6Known: bool, hasIpv6: bool)

  /** A call of UpdateNetworkState that has advanced the epoch counter and not
    * yet tried to send its wake; `Holding` has also read the engine's connection. */
  datatype Updater = Bumped(epoch: nat) | Holding(epoch: nat, target: Option<nat>)

  /** Where a connection's flow goroutine is. */
  datatype Pc =
    | Unstarted
    | Starting
    | Laddering(recovering: bool)
    | Rung(reconnecting: bool)
    | Attempting(attemptEpoch: nat, attemptTransport: Transport, again: bool)
    | Watching(transport: Transport)
    | Woken(transport: Transport)
    | Triggered
    | Exiting(clean: bool)
    | Finalizing(clean: bool)
    | Sampled(terminal: Status)
    | Terminated
    | Cleared
    | Done

  /** One connection. `wake` is the capacity-one channel, `sessionEpoch` the epoch
    * captured before the promoted candidate dialled, `log` what the sink received. */
  datatype Conn = Conn(
    disconnecting: bool,
    finalized: bool,
    cancelled: bool,
    wake: bool,
    handled: nat,
    sessionEpoch: nat,
    pc: Pc,
    log: seq<Status>)

  /** The user call that holds `connectMu`. */
  datatype Op =
    | Free
    | Tearing(victim: nat, connecting: bool)
    | Awaiting(victim: nat, connecting: bool)
    | Installing
    | Installed
    | Announced
    | DisconnectFlagged(victim: nat)

  datatype State = State(
    op: Op,
    conn: Option<nat>,
    conns: seq<Conn>,
    status: Status,
    baselined: bool,
    last: NetworkState,
    epoch: nat,
    updaters: map<nat, Updater>)

  datatype UserEvent =
    | ConnectBegin | ShutdownBegin | DisconnectBegin
    | Cancel | Await | Install | Announce | Spawn

  datatype NetEvent = Observe(state: NetworkState) | ReadConn | Send

  datatype FlowEvent =
    | Prepared
    | NextRung
    | Capture(via: Transport)
    | AttemptFailed
    | Promote
    | Lose
    | Receive
    | ReadEpoch
    | Recover
    | GapReceive
    | Stop
    | Fail
    | CancelOwn
    | Finalize
    | Resample
    | EmitTerminal
    | Clear
    | Close

  datatype Event =
    | User(user: UserEvent)
    | Net(thread: nat, net: NetEvent)
    | Flow(c: nat, flow: FlowEvent)

  function Init(last: NetworkState): State {
    State(Free, None, [], Disconnected, false, last, 0, map[])
  }

  function FreshConn(): Conn {
    Conn(false, false, false, false, 0, 0, Unstarted, [])
  }

  /** emitStatusLocked, as one connection's sink sees it. */
  function Say(conn: Conn, status: Status): Conn {
    conn.(log := conn.log + [status])
  }

  /** Store a connection's new value; what it emitted is the published status. */
  function SetConn(s: State, c: nat, conn: Conn): State
    requires c < |s.conns|
  {
    s.(conns := s.conns[c := conn],
       status := if |conn.log| > |s.conns[c].log| then conn.log[|conn.log| - 1] else s.status)
  }

  /** The first `mu` region of Connect and Shutdown: teardownExisting flags the live connection. */
  function TearStep(s: State, connecting: bool): State {
    match s.conn
    case None => s.(op := if connecting then Installing else Free)
    case Some(c) =>
      if c < |s.conns| then
        SetConn(s, c, s.conns[c].(disconnecting := true)).(op := Tearing(c, connecting))
      else s
  }

  /** Disconnect: flag the connection and write DISCONNECTING in one region, unless
    * the flow already claimed the terminal status. */
  function DisconnectStep(s: State): State {
    match s.conn
    case None => s
    case Some(c) =>
      if c < |s.conns| then
        var flagged := s.conns[c].(disconnecting := true);
        SetConn(s, c, if flagged.finalized then flagged else Say(flagged, Disconnecting)).(op := DisconnectFlagged(c))
      else s
  }

  function UserStep(s: State, e: UserEvent): State {
    match (s.op, e)
    case (Free, ConnectBegin) => TearStep(s, true)
    case (Free, ShutdownBegin) => TearStep(s, false)
    case (Free, DisconnectBegin) => DisconnectStep(s)
    case (Tearing(c, connecting), Cancel) =>
      if c < |s.conns| then SetConn(s, c, s.conns[c].(cancelled := true)).(op := Awaiting(c, connecting)) else s
    case (DisconnectFlagged(c), Cancel) =>
      if c < |s.conns| then SetConn(s, c, s.conns[c].(cancelled := true)).(op := Free) else s
    case (Awaiting(c, connecting), Await) =>
      if c < |s.conns| && s.conns[c].pc.Done? then s.(op := if connecting then Installing else Free) else s
    case (Installing, Install) =>
      s.(conn := Some(|s.conns|), conns := s.conns + [FreshConn()], op := Installed)
    case (Installed, Announce) =>
      if |s.conns| > 0 then SetConn(s, |s.conns| - 1, Say(s.conns[|s.conns| - 1], Preparing)).(op := Announced) else s
    case (Announced, Spawn) =>
      if |s.conns| > 0 then
        SetConn(s, |s.conns| - 1, s.conns[|s.conns| - 1].(pc := Starting)).(op := Free)
      else s
    case _ => s
  }

  /** UpdateNetworkState, split at its lock boundaries. */
  function NetStep(s: State, t: nat, e: NetEvent): State {
    match e
    case Observe(state) =>
      if t in s.updaters then s
      else if !s.baselined then s.(baselined := true, last := state)
      else if state == s.last then s
      else s.(last := state, epoch := s.epoch + 1, updaters := s.updaters[t := Bumped(s.epoch + 1)])
    case ReadConn =>
      if t in s.updaters && s.updaters[t].Bumped? then
        s.(updaters := s.updaters[t := Holding(s.updaters[t].epoch, s.conn)])
      else s
    case Send =>
      if t in s.updaters && s.updaters[t].Holding? then
        var target := s.updaters[t].target;
        var sent := s.(updaters := s.updaters - {t});
        if target.Some? && target.value < |s.conns| then
          SetConn(sent, target.value, s.conns[target.value].(wake := true))
        else sent
      else s
  }

  /** promote: the disconnect guard and the CONNECTED publish share one region. */
  function PromoteStep(conn: Conn): Conn
    requires conn.pc.Attempting?
  {
    if conn.disconnecting || conn.cancelled then conn.(pc := Exiting(true))
    else
      var e := conn.pc.attemptEpoch;
      Say(conn.(pc := Watching(conn.pc.attemptTransport), handled := e, sessionEpoch := e), Connected)
  }

  /** supervise after a wake: re-read the epoch, retire a WSS session it left behind
    * and have any other path health-checked. */
  function ReadEpochStep(conn: Conn, epoch: nat): Conn
    requires conn.pc.Woken?
  {
    var t := conn.pc.transport;
    if epoch == conn.handled then conn.(pc := Watching(t))
    else conn.(handled := epoch, pc := if t.Wss? then Triggered else Watching(t))
  }

  /** The phases in which the flow still runs connectFlow. */
  predicate Running(pc: Pc) {
    pc.Starting? || pc.Laddering? || pc.Rung? || pc.Attempting? || pc.Watching? || pc.Woken? || pc.Triggered?
  }

  /** Where the flow next looks at its context or its disconnect flag and may leave. A rung whose
    * check has passed goes on to capture its epoch, and a wake whose check has passed to read it. */
  predicate Stoppable(pc: Pc) {
    pc.Laddering? || pc.Attempting? || pc.Watching? || pc.Triggered?
  }

  /** One step of a flow goroutine, on its own connection. */
  function ConnStep(conn: Conn, epoch: nat, e: FlowEvent): Conn {
    match e
    case Prepared =>
      if conn.pc.Starting? then Say(conn.(pc := Laddering(false)), Connecting) else conn
    case NextRung =>
      if conn.pc.Laddering? && !conn.cancelled then conn.(pc := Rung(conn.pc.recovering)) else conn
    case Capture(t) =>
      if conn.pc.Rung? then conn.(pc := Attempting(epoch, t, conn.pc.reconnecting)) else conn
    case AttemptFailed =>
      if conn.pc.Attempting? then conn.(pc := Laddering(conn.pc.again)) else conn
    case Promote =>
      if conn.pc.Attempting? then PromoteStep(conn) else conn
    case Lose =>
      if conn.pc.Watching? then conn.(pc := Triggered) else conn
    case Receive =>
      if conn.pc.Watching? && conn.wake then
        conn.(wake := false,
              pc := if conn.cancelled || conn.disconnecting then Exiting(true) else Woken(conn.pc.transport))
      else conn
    case ReadEpoch =>
      if conn.pc.Woken? then ReadEpochStep(conn, epoch) else conn
    case Recover =>
      if conn.pc.Triggered? then Say(conn.(pc := Laddering(true)), Connecting) else conn
    case GapReceive =>
      if conn.pc.Laddering? && conn.pc.recovering && conn.wake then conn.(wake := false) else conn
    case Stop =>
      if Stoppable(conn.pc) && (conn.cancelled || conn.disconnecting) then
        conn.(pc := Exiting(true))
      else conn
    case Fail =>
      if conn.pc.Starting? || conn.pc.Laddering? || conn.pc.Watching? then conn.(pc := Exiting(false)) else conn
    case CancelOwn =>
      if conn.pc.Exiting? then conn.(cancelled := true) else conn
    case Finalize =>
      if conn.pc.Exiting? then conn.(finalized := true, pc := Finalizing(conn.pc.clean)) else conn
    case Resample =>
      if conn.pc.Finalizing? then
        conn.(pc := Sampled(if conn.disconnecting || conn.pc.clean then Disconnected else Failed))
      else conn
    case EmitTerminal =>
      if conn.pc.Sampled? then Say(conn.(pc := Terminated), conn.pc.terminal) else conn
    case Clear =>
      if conn.pc.Terminated? then conn.(pc := Cleared) else conn
    case Close =>
      if conn.pc.Cleared? then conn.(cancelled := true, pc := Done) else conn
  }

  /** Store a flow step's result; clearConn also drops the engine's reference to this connection. */
  function StoreFlow(s: State, c: nat, next: Conn): State
    requires c < |s.conns|
  {
    var moved := SetConn(s, c, next);
    if next.pc.Cleared? && !s.conns[c].pc.Cleared? && s.conn == Some(c) then moved.(conn := None) else moved
  }

  function FlowStep(s: State, c: nat, e: FlowEvent): State {
    if c < |s.conns| then StoreFlow(s, c, ConnStep(s.conns[c], s.epoch, e)) else s
  }

  function Step(s: State, e: Event): State {
    match e
    case User(u) => UserStep(s, u)
    case Net(t, n) => NetStep(s, t, n)
    case Flow(c, f) => FlowStep(s, c, f)
  }

  /** The state after `es` from `s`. */
  function ExecFrom(s: State, es: seq<Event>): State
    decreases |es|
  {
    if es == [] then s else Step(ExecFrom(s, es[..|es| - 1]), es[|es| - 1])
  }

  function Exec(last: NetworkState, es: seq<Event>): State {
    ExecFrom(Init(last), es)
  }

  // ---- Invariant ----

  predicate IsTerminal(st: Status) {
    st.Disconnected? || st.Failed?
  }

  /** The flow owns the terminal write and has made it. */
  predicate Ended(pc: Pc) {
    pc.Terminated? || pc.Cleared? || pc.Done?
  }

  /** PREPARING first, at most one terminal status, and that one last. */
  predicate LogShape(log: seq<Status>) {
    && (log != [] ==> log[0] == Preparing)
    && (forall j :: 0 <= j < |log| && IsTerminal(log[j]) ==> j == |log| - 1)
  }

  predicate EndsTerminal(log: seq<Status>) {
    log != [] && IsTerminal(log[|log| - 1])
  }

  /** What holds of one connection whatever the others do. */
  predicate ConnOk(conn: Conn) {
    && LogShape(conn.log)
    && (Ended(conn.pc) <==> EndsTerminal(conn.log))
    && (!conn.pc.Unstarted? ==> conn.log != [])
    && (conn.finalized <==> (conn.pc.Finalizing? || conn.pc.Sampled? || Ended(conn.pc)))
    && (conn.cancelled && (Running(conn.pc) || conn.pc.Unstarted?) ==> conn.disconnecting)
    && ((conn.pc.Exiting? || conn.pc.Finalizing?) && conn.pc.clean ==> conn.disconnecting)
    && (conn.pc.Sampled? ==> IsTerminal(conn.pc.terminal))
    && (conn.pc.Sampled? && conn.pc.terminal == Disconnected ==> conn.disconnecting)
    && (Ended(conn.pc) && conn.log[|conn.log| - 1] == Disconnected ==> conn.disconnecting)
  }

  /** The flow has given up the engine: clearConn ran, and only its deferred cancel and close are left. */
  predicate Detached(pc: Pc) {
    pc.Cleared? || pc.Done?
  }

  /** Only the newest connection can be attached; the engine's reference names it until it is cleared. */
  predicate ConnsOk(s: State) {
    && (forall i :: 0 <= i < |s.conns| ==> ConnOk(s.conns[i]))
    && (forall i :: 0 <= i < |s.conns| - 1 ==> Detached(s.conns[i].pc))
    && s.conn == (if s.conns != [] && !Detached(Newest(s).pc) then Some(|s.conns| - 1) else None)
  }

  function Newest(s: State): Conn
    requires s.conns != []
  {
    s.conns[|s.conns| - 1]
  }

  predicate OpOk(s: State) {
    && (s.conns != [] ==>
          && (Newest(s).pc.Unstarted? <==> s.op.Installed? || s.op.Announced?)
          && (s.op.Installed? ==> Newest(s).log == [])
          && (s.op.Announced? ==> Newest(s).log == [Preparing]))
    && (s.op.Installed? || s.op.Announced? ==> s.conns != [])
    && (s.op.Tearing? || s.op.Awaiting? || s.op.DisconnectFlagged? ==>
          s.op.victim < |s.conns| && s.conns[s.op.victim].disconnecting)
    && (s.op.Installing? ==> s.conns == [] || Detached(Newest(s).pc))
    && (s.op.Tearing? || s.op.Awaiting? ==> s.op.victim == |s.conns| - 1)
    && (s.op.Awaiting? ==> s.conns[s.op.victim].cancelled)
  }

  /** The published status is the newest connection's last emission. */
  predicate StatusOk(s: State) {
    if s.conns == [] then s.status == Disconnected
    else if Newest(s).log == [] then IsTerminal(s.status)
    else s.status == Newest(s).log[|Newest(s).log| - 1]
  }

  /** The epoch a connection's sockets are known to be newer than, in the phases where
    * a later epoch still has to reach it. */
  function Baseline(conn: Conn): Option<nat> {
    if conn.pc.Attempting? then Some(conn.pc.attemptEpoch)
    else if conn.pc.Watching? then Some(conn.handled)
    else None
  }

  /** An updater past `b` that has yet to wake connection `c`. */
  predicate Coming(s: State, c: nat, b: nat) {
    exists t :: t in s.updaters && s.updaters[t].epoch > b
             && (s.updaters[t].Bumped? || s.updaters[t].target == Some(c))
  }

  /** A promoted session accounts for no epoch before its own; a WSS one for exactly its own. */
  predicate SessionOk(conn: Conn, epoch: nat) {
    && (Baseline(conn).Some? ==> Baseline(conn).value <= epoch)
    && (conn.pc.Watching? || conn.pc.Woken? ==>
          && conn.sessionEpoch <= conn.handled <= epoch
          && (conn.pc.transport.Wss? ==> conn.sessionEpoch == conn.handled))
  }

  /** No epoch past the baseline is lost. */
  predicate Noticed(s: State, c: nat)
    requires c < |s.conns|
  {
    var b := Baseline(s.conns[c]);
    b.Some? && s.epoch > b.value ==> s.conns[c].wake || Coming(s, c, b.value)
  }

  predicate EpochOk(s: State) {
    && (forall t :: t in s.updaters ==> s.updaters[t].epoch <= s.epoch)
    && (forall c :: 0 <= c < |s.conns| ==> SessionOk(s.conns[c], s.epoch))
    && (forall c :: 0 <= c < |s.conns| ==> Noticed(s, c))
  }

  predicate Inv(s: State) {
    ConnsOk(s) && OpOk(s) && StatusOk(s) && EpochOk(s)
  }

  // ---- Preservation ----

  lemma SayShape(conn: Conn, st: Status)
    requires LogShape(conn.log) && !EndsTerminal(conn.log)
    requires conn.log == [] ==> st == Preparing
    ensures LogShape(Say(conn, st).log)
    ensures EndsTerminal(Say(conn, st).log) <==> IsTerminal(st)
  {
  }

  lemma RunningStepOk(conn: Conn, epoch: nat, e: FlowEvent)
    requires ConnOk(conn) && Running(conn.pc)
    ensures ConnOk(ConnStep(conn, epoch, e))
  {
    SayShape(conn, Connecting);
    SayShape(conn, Connected);
  }

  lemma FinalStepOk(conn: Conn, epoch: nat, e: FlowEvent)
    requires ConnOk(conn) && !Running(conn.pc)
    ensures ConnOk(ConnStep(conn, epoch, e))
  {
    if conn.pc.Sampled? { SayShape(conn, conn.pc.terminal); }
  }

  lemma ConnStepSession(conn: Conn, epoch: nat, e: FlowEvent)
    requires SessionOk(conn, epoch)
    ensures SessionOk(ConnStep(conn, epoch, e), epoch)
  {
  }

  /** What every flow step keeps of its connection: it never clears the disconnect flag, never
    * starts an unstarted flow, detaches only in clearConn, and moves its baseline either to the
    * current epoch or not at all. */
  predicate FlowMove(conn: Conn, epoch: nat, next: Conn) {
    FlagMove(conn, next) && PcMove(conn, next) && BaselineMove(conn, epoch, next)
  }

  predicate FlagMove(conn: Conn, next: Conn) {
    && next.disconnecting == conn.disconnecting
    && (conn.cancelled ==> next.cancelled)
    && (next.log == conn.log || |next.log| == |conn.log| + 1)
  }

  predicate PcMove(conn: Conn, next: Conn) {
    && (next.pc.Unstarted? <==> conn.pc.Unstarted?)
    && (conn.pc.Unstarted? ==> next == conn)
    && (Detached(conn.pc) ==> Detached(next.pc) && next.log == conn.log)
    && (conn.pc.Cleared? || !next.pc.Cleared? ==> Detached(conn.pc) == Detached(next.pc))
  }

  predicate BaselineMove(conn: Conn, epoch: nat, next: Conn) {
    || Baseline(next).None?
    || Baseline(next) == Some(epoch)
    || (Baseline(next) == Baseline(conn) && next.wake == conn.wake)
  }

  lemma ConnStepPc(conn: Conn, epoch: nat, e: FlowEvent)
    ensures FlagMove(conn, ConnStep(conn, epoch, e)) && PcMove(conn, ConnStep(conn, epoch, e))
  {
  }

  lemma ConnStepBaseline(conn: Conn, epoch: nat, e: FlowEvent)
    requires SessionOk(conn, epoch)
    ensures BaselineMove(conn, epoch, ConnStep(conn, epoch, e))
  {
  }

  lemma StoreFlowConns(s: State, c: nat, next: Conn)
    requires ConnsOk(s) && c < |s.conns| && ConnOk(next) && FlowMove(s.conns[c], s.epoch, next)
    ensures ConnsOk(StoreFlow(s, c, next))
  {
  }

  lemma StoreFlowOp(s: State, c: nat, next: Conn)
    requires ConnsOk(s) && OpOk(s) && StatusOk(s) && c < |s.conns| && FlowMove(s.conns[c], s.epoch, next)
    ensures OpOk(StoreFlow(s, c, next)) && StatusOk(StoreFlow(s, c, next))
  {
  }

  lemma StoreFlowEpoch(s: State, c: nat, next: Conn)
    requires EpochOk(s) && c < |s.conns| && SessionOk(next, s.epoch) && FlowMove(s.conns[c], s.epoch, next)
    ensures EpochOk(StoreFlow(s, c, next))
  {
    var r := StoreFlow(s, c, next);
    forall i: nat | i < |r.conns| ensures Noticed(r, i) {
      assert Noticed(s, i);
      assert forall b: nat :: Coming(r, i, b) == Coming(s, i, b);
    }
  }

  lemma FlowStepInv(s: State, c: nat, e: FlowEvent)
    requires Inv(s)
    ensures Inv(FlowStep(s, c, e))
  {
    if c < |s.conns| {
      if Running(s.conns[c].pc) { RunningStepOk(s.conns[c], s.epoch, e); } else { FinalStepOk(s.conns[c], s.epoch, e); }
      ConnStepSession(s.conns[c], s.epoch, e);
      ConnStepPc(s.conns[c], s.epoch, e);
      ConnStepBaseline(s.conns[c], s.epoch, e);
      var next := ConnStep(s.conns[c], s.epoch, e);
      StoreFlowConns(s, c, next);
      StoreFlowOp(s, c, next);
      StoreFlowEpoch(s, c, next);
    }
  }

  /** A user call writes only a connection's flags and log. */
  lemma TouchInv(s: State, c: nat, next: Conn, op: Op)
    requires ConnsOk(s) && StatusOk(s) && EpochOk(s) && c < |s.conns|
    requires ConnOk(next)
    requires next == s.conns[c].(disconnecting := next.disconnecting, cancelled := next.cancelled, log := next.log)
    requires next.log == s.conns[c].log || (c == |s.conns| - 1 && |next.log| == |s.conns[c].log| + 1)
    ensures var r := SetConn(s, c, next).(op := op); ConnsOk(r) && StatusOk(r) && EpochOk(r)
  {
    var r := SetConn(s, c, next).(op := op);
    forall i: nat | i < |r.conns| ensures Noticed(r, i) && SessionOk(r.conns[i], r.epoch) {
      assert Noticed(s, i) && SessionOk(s.conns[i], s.epoch);
      assert forall b: nat :: Coming(r, i, b) == Coming(s, i, b);
    }
  }

  lemma TearInv(s: State, connecting: bool)
    requires Inv(s) && s.op.Free?
    ensures Inv(TearStep(s, connecting))
  {
    if s.conn.Some? {
      TouchInv(s, s.conn.value, s.conns[s.conn.value].(disconnecting := true), Tearing(s.conn.value, connecting));
    } else {
      OpOnlyInv(s, if connecting then Installing else Free);
    }
  }

  lemma OpOnlyInv(s: State, op: Op)
    requires ConnsOk(s) && StatusOk(s) && EpochOk(s)
    ensures var r := s.(op := op); ConnsOk(r) && StatusOk(r) && EpochOk(r)
  {
    var r := s.(op := op);
    forall i: nat | i < |r.conns| ensures Noticed(r, i) {
      assert Noticed(s, i);
      assert forall b: nat :: Coming(r, i, b) == Coming(s, i, b);
    }
  }

  lemma DisconnectInv(s: State)
    requires Inv(s) && s.op.Free?
    ensures Inv(DisconnectStep(s))
  {
    if s.conn.Some? {
      var c := s.conn.value;
      var flagged := s.conns[c].(disconnecting := true);
      if !flagged.finalized {
        SayShape(flagged, Disconnecting);
      }
      TouchInv(s, c, if flagged.finalized then flagged else Say(flagged, Disconnecting), DisconnectFlagged(c));
    }
  }

  lemma InstallInv(s: State)
    requires Inv(s) && s.op.Installing?
    ensures Inv(UserStep(s, Install))
  {
    var r := UserStep(s, Install);
    assert r.conns[|s.conns|] == FreshConn() && r.conns[..|s.conns|] == s.conns;
    InstallEpoch(s);
  }

  lemma InstallEpoch(s: State)
    requires EpochOk(s) && s.op.Installing?
    ensures EpochOk(UserStep(s, Install))
  {
    var r := UserStep(s, Install);
    forall i: nat | i < |s.conns| ensures Noticed(r, i) {
      assert Noticed(s, i);
      assert forall b: nat :: Coming(r, i, b) == Coming(s, i, b);
    }
  }

  lemma AnnouncedOk(conn: Conn)
    requires ConnOk(conn) && conn.pc.Unstarted? && conn.log == []
    ensures ConnOk(Say(conn, Preparing))
  {
    assert Say(conn, Preparing).log == [Preparing];
  }

  lemma AnnounceInv(s: State)
    requires Inv(s) && s.op.Installed?
    ensures Inv(UserStep(s, Announce))
  {
    var c := |s.conns| - 1;
    var next := Say(s.conns[c], Preparing);
    AnnouncedOk(s.conns[c]);
    TouchInv(s, c, next, Announced);
    assert UserStep(s, Announce) == SetConn(s, c, next).(op := Announced);
  }

  lemma SpawnInv(s: State)
    requires Inv(s) && s.op.Announced?
    ensures Inv(UserStep(s, Spawn))
  {
    var r := UserStep(s, Spawn);
    forall i: nat | i < |r.conns| ensures Noticed(r, i) && SessionOk(r.conns[i], r.epoch) {
      assert Noticed(s, i) && SessionOk(s.conns[i], s.epoch);
      assert forall b: nat :: Coming(r, i, b) == Coming(s, i, b);
    }
  }

  lemma CancelInv(s: State)
    requires Inv(s) && (s.op.Tearing? || s.op.DisconnectFlagged?)
    ensures Inv(UserStep(s, Cancel))
  {
    var c := s.op.victim;
    TouchInv(s, c, s.conns[c].(cancelled := true), if s.op.Tearing? then Awaiting(c, s.op.connecting) else Free);
  }

  lemma UserStepInv(s: State, e: UserEvent)
    requires Inv(s)
    ensures Inv(UserStep(s, e))
  {
    match (s.op, e) {
      case (Free, ConnectBegin) => TearInv(s, true);
      case (Free, ShutdownBegin) => TearInv(s, false);
      case (Free, DisconnectBegin) => DisconnectInv(s);
      case (Tearing(c, connecting), Cancel) => CancelInv(s);
      case (DisconnectFlagged(c), Cancel) => CancelInv(s);
      case (Awaiting(c, connecting), Await) =>
        OpOnlyInv(s, if connecting then Installing else Free);
      case (Installing, Install) => InstallInv(s);
      case (Installed, Announce) => AnnounceInv(s);
      case (Announced, Spawn) => SpawnInv(s);
      case _ =>
    }
  }

  /** Whatever thread `t` does, an epoch past a baseline stays noticed. */
  lemma NetNoticed(s: State, t: nat, e: NetEvent, c: nat)
    requires c < |s.conns| && Noticed(s, c) && (Baseline(s.conns[c]).Some? ==> s.conn == Some(c))
    requires Baseline(s.conns[c]).Some? ==> Baseline(s.conns[c]).value <= s.epoch
    ensures c < |NetStep(s, t, e).conns| && Noticed(NetStep(s, t, e), c)
  {
    var r := NetStep(s, t, e);
    var b := Baseline(s.conns[c]);
    assert Baseline(r.conns[c]) == b;
    if b.Some? && r.epoch > b.value && !r.conns[c].wake {
      if s.epoch > b.value {
        var u :| u in s.updaters && s.updaters[u].epoch > b.value
              && (s.updaters[u].Bumped? || s.updaters[u].target == Some(c));
        assert u in r.updaters && r.updaters[u].epoch > b.value
            && (r.updaters[u].Bumped? || r.updaters[u].target == Some(c));
      } else {
        assert t in r.updaters && r.updaters[t] == Bumped(r.epoch);
      }
    }
  }

  /** Waking connections disturbs nothing but the wakes. */
  lemma WakesOnly(s: State, r: State)
    requires ConnsOk(s) && OpOk(s) && StatusOk(s)
    requires r.op == s.op && r.conn == s.conn && r.status == s.status && |r.conns| == |s.conns|
    requires forall c :: 0 <= c < |r.conns| ==> r.conns[c] == s.conns[c].(wake := r.conns[c].wake)
    ensures ConnsOk(r) && OpOk(r) && StatusOk(r)
  {
    assert forall c :: 0 <= c < |r.conns| ==> ConnOk(s.conns[c]) && ConnOk(r.conns[c]);
  }

  lemma NetStepInv(s: State, t: nat, e: NetEvent)
    requires Inv(s)
    ensures Inv(NetStep(s, t, e))
  {
    NetStepFrame(s, t, e);
    WakesOnly(s, NetStep(s, t, e));
    NetEpochOk(s, t, e);
  }

  lemma NetStepFrame(s: State, t: nat, e: NetEvent)
    ensures var r := NetStep(s, t, e);
      && r.op == s.op && r.conn == s.conn && r.status == s.status && |r.conns| == |s.conns|
      && (forall c :: 0 <= c < |r.conns| ==> r.conns[c] == s.conns[c].(wake := r.conns[c].wake))
  {
  }

  lemma NetEpochOk(s: State, t: nat, e: NetEvent)
    requires Inv(s)
    ensures EpochOk(NetStep(s, t, e))
  {
    var r := NetStep(s, t, e);
    forall c: nat | c < |r.conns| ensures Noticed(r, c) && SessionOk(r.conns[c], r.epoch) {
      assert Noticed(s, c) && SessionOk(s.conns[c], s.epoch);
      NetNoticed(s, t, e, c);
      assert SessionOk(s.conns[c], s.epoch);
    }
  }
}
