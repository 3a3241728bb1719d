/** The network epoch counts the changes the platform reported.
  *
  * The reference is on the list of events alone: what was observed, by which thread, and what that
  * thread has done since.
  */
module NetworkEpochs {
  import opened Engine
  import opened EngineTheorems
  import opened Prelude

  /** How far the last call of a thread has come, and the number of the change it reported. */
  datatype Call = Idle | Reported(change: nat) | Read(change: nat)

  predicate Observes(e: Event) { e.Net? && e.net.Observe? }

  /** The last observation of any thread. */
  function LastSeen(es: seq<Event>): Option<NetworkState>
    decreases |es|
  {
    if es == [] then None
    else if Observes(es[|es| - 1]) then Some(es[|es| - 1].net.state)
    else LastSeen(es[..|es| - 1])
  }

  /** The event observes something other than the observation before it. */
  predicate IsChange(past: seq<Event>, e: Event) {
    Observes(e) && LastSeen(past).Some? && LastSeen(past).value != e.net.state
  }

  /** The observations after the first that differ from the one before. */
  function Changes(es: seq<Event>): nat
    decreases |es|
  {
    if es == [] then 0
    else Changes(es[..|es| - 1]) + if IsChange(es[..|es| - 1], es[|es| - 1]) then 1 else 0
  }

  /** Where thread `t` is: a call that reports a change still has to read the connection and to wake it. */
  function CallOf(es: seq<Event>, t: nat): Call
    decreases |es|
  {
    if es == [] then Idle
    else
      var past, e := es[..|es| - 1], es[|es| - 1];
      var call := CallOf(past, t);
      if !e.Net? || e.thread != t then call
      else match e.net
        case Observe(_) => if IsChange(past, e) then Reported(Changes(es)) else call
        case ReadConn => if call.Reported? then Read(call.change) else call
        case Send => if call.Read? then Idle else call
  }

  /** No thread begins a call before its last one is over. */
  predicate Orderly(es: seq<Event>)
    decreases |es|
  {
    es == [] ||
    (&& Orderly(es[..|es| - 1])
     && (Observes(es[|es| - 1]) ==> CallOf(es[..|es| - 1], es[|es| - 1].thread).Idle?))
  }

  /** The engine's record of a thread's call. */
  predicate Records(s: State, t: nat, call: Call) {
    match call
    case Idle => t !in s.updaters
    case Reported(n) => t in s.updaters && s.updaters[t] == Bumped(n)
    case Read(n) => t in s.updaters && s.updaters[t].Holding? && s.updaters[t].epoch == n
  }

  /** The engine has counted these changes, remembers this observation, and knows of these calls. */
  ghost predicate Tracks(s: State, es: seq<Event>) {
    && s.epoch == Changes(es)
    && s.baselined == LastSeen(es).Some?
    && (s.baselined ==> s.last == LastSeen(es).value)
    && (forall t: nat :: Records(s, t, CallOf(es, t)))
  }

  predicate SameTracker(s: State, r: State) {
    r.epoch == s.epoch && r.baselined == s.baselined && r.last == s.last && r.updaters == s.updaters
  }

  lemma UserKeepsTracker(s: State, u: UserEvent)
    ensures SameTracker(s, UserStep(s, u))
  {
  }

  lemma FlowKeepsTracker(s: State, c: nat, f: FlowEvent)
    ensures SameTracker(s, FlowStep(s, c, f))
  {
    if c < |s.conns| {
      var next := ConnStep(s.conns[c], s.epoch, f);
      assert SameTracker(s, StoreFlow(s, c, next));
    }
  }

  lemma NetTracks(s: State, past: seq<Event>, e: Event, u: nat)
    requires e.Net? && Tracks(s, past) && (Observes(e) ==> CallOf(past, e.thread).Idle?)
    ensures var es := past + [e]; Records(Step(s, e), u, CallOf(es, u))
  {
    assert (past + [e])[..|past|] == past;
    assert Records(s, u, CallOf(past, u)) && Records(s, e.thread, CallOf(past, e.thread));
  }

  lemma StepTracks(s: State, past: seq<Event>, e: Event)
    requires Tracks(s, past) && (Observes(e) ==> CallOf(past, e.thread).Idle?)
    ensures Tracks(Step(s, e), past + [e])
  {
    var es, r := past + [e], Step(s, e);
    assert es[..|past|] == past;
    if e.Net? {
      assert Records(s, e.thread, CallOf(past, e.thread));
      forall u: nat ensures Records(r, u, CallOf(es, u)) { NetTracks(s, past, e, u); }
    } else {
      if e.User? { UserKeepsTracker(s, e.user); } else { FlowKeepsTracker(s, e.c, e.flow); }
      forall u: nat ensures Records(r, u, CallOf(es, u)) { assert Records(s, u, CallOf(past, u)); }
    }
  }

  /** In every run the epoch is the number of changes observed, and each thread that reported one and has
    * not tried to wake the connection yet is known to owe it, with the number of that change. */
  lemma {:induction false} EpochCountsChanges(last: NetworkState, es: seq<Event>)
    requires Orderly(es)
    ensures Tracks(Exec(last, es), es)
    decreases |es|
  {
    if es != [] {
      var past, e := es[..|es| - 1], es[|es| - 1];
      EpochCountsChanges(last, past);
      StepTracks(Exec(last, past), past, e);
      assert past + [e] == es;
    }
  }

  /** So an observation advances the epoch exactly when it differs from the last one, and its caller then
    * owes a wake for that epoch. */
  lemma AdvancesIffChanged(last: NetworkState, es: seq<Event>, t: nat, state: NetworkState)
    requires Orderly(es) && CallOf(es, t).Idle?
    ensures var s, r := Exec(last, es), Exec(last, es + [Net(t, Observe(state))]);
      && (r.epoch == s.epoch + 1 <==> LastSeen(es).Some? && LastSeen(es).value != state)
      && (r.epoch == s.epoch || r.epoch == s.epoch + 1)
      && (r.epoch == s.epoch + 1 ==> t in r.updaters && r.updaters[t] == Bumped(r.epoch))
      && r.baselined && r.last == state
  {
    var all := es + [Net(t, Observe(state))];
    assert all[..|es|] == es;
    EpochCountsChanges(last, es);
    EpochCountsChanges(last, all);
    assert Records(Exec(last, all), t, CallOf(all, t));
  }

  lemma WakeArrives(s: State, t: nat, c: nat)
    requires t in s.updaters && s.updaters[t].Bumped? && s.conn == Some(c) && c < |s.conns|
    ensures var r := Step(Step(s, Net(t, ReadConn)), Net(t, Send));
      c < |r.conns| && r.conns[c] == s.conns[c].(wake := true) && r.updaters == s.updaters - {t}
  {
    var held := NetStep(s, t, ReadConn);
    assert held.updaters[t].target == Some(c) && held.conns == s.conns;
    assert held.updaters - {t} == s.updaters - {t};
  }

  /** A caller that owes a wake gives it to the connection installed when it looks, if there is one. */
  lemma OwedWakeArrives(last: NetworkState, es: seq<Event>, t: nat, c: nat)
    requires Orderly(es) && CallOf(es, t).Reported? && Exec(last, es).conn == Some(c)
    ensures var r := Exec(last, es + [Net(t, ReadConn)] + [Net(t, Send)]);
      c < |r.conns| && r.conns[c].wake && t !in r.updaters
  {
    EpochCountsChanges(last, es);
    assert Records(Exec(last, es), t, CallOf(es, t));
    assert c < |Exec(last, es).conns| by { Reachable(last, es); }
    WakeArrives(Exec(last, es), t, c);
    var read := es + [Net(t, ReadConn)];
    assert read[..|es|] == es && (read + [Net(t, Send)])[..|read|] == read;
    assert Exec(last, read) == Step(Exec(last, es), Net(t, ReadConn));
    assert Exec(last, read + [Net(t, Send)]) == Step(Exec(last, read), Net(t, Send));
  }
}
