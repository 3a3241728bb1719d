/** Every discovery ends: a schedule has only so many events that change anything, and one that can
  * go no further has its result. */
module BrokerProgress {
  import opened BrokerDiscovery
  import opened BrokerRace
  import opened Prelude

  // ---- The work left in a phase ----

  function Left(w: Worker): nat {
    match w
    case Idle => 3
    case Running => 2
    case Sent(_) => 1
    case Received(_) => 0
  }

  function Load(ws: seq<Worker>): nat {
    if ws == [] then 0 else Left(ws[0]) + Load(ws[1..])
  }

  lemma {:induction false} LoadUpdate(ws: seq<Worker>, i: nat, w: Worker)
    requires i < |ws|
    ensures Load(ws[i := w]) + Left(ws[i]) == Load(ws) + Left(w)
  {
    if i == 0 {
      assert ws[i := w][1..] == ws[1..];
    } else {
      assert ws[i := w][1..] == ws[1..][i - 1 := w];
      LoadUpdate(ws[1..], i - 1, w);
    }
  }

  lemma {:induction false} IdleLoad(n: nat)
    ensures Load(seq(n, i => Idle)) == 3 * n
  {
    if n > 0 {
      assert seq(n, i => Idle)[1..] == seq(n - 1, i => Idle);
      IdleLoad(n - 1);
    }
  }

  function PhaseLeft(p: Phase): nat {
    Load(p.workers) + if p.end.None? then 1 else 0
  }

  lemma OpenPhaseLeft(n: nat)
    requires n > 0
    ensures PhaseLeft(OpenPhase(n)) == 3 * n
  {
    assert OpenPhase(n).workers[1..] == seq(n - 1, i => Idle);
    IdleLoad(n - 1);
  }

  /** Every event that changes a phase uses up some of its work. */
  lemma PhaseStepUses(p: Phase, cancelled: bool, e: PhaseEvent)
    requires PhaseInv(p)
    ensures var q := PhaseStep(p, cancelled, e); q == p || PhaseLeft(q) < PhaseLeft(p)
  {
    match e {
      case Tick =>
        if p.started < |p.workers| { LoadUpdate(p.workers, p.started, Running); }
      case Reply(i, a) =>
        if i < |p.workers| { LoadUpdate(p.workers, i, Sent(a)); }
      case Take =>
        if p.channel != [] { LoadUpdate(p.workers, p.channel[0].index, Received(p.channel[0].answer)); }
      case SeeCancel =>
    }
  }

  // ---- The work left in a discovery ----

  /** A phase still to be opened costs one event more than the opened one. */
  function LegLeft(p: Option<Phase>, n: nat): nat {
    if p.Some? then PhaseLeft(p.value) else 3 * n + 1
  }

  function WorkLeft(c: Config, s: State): nat {
    (if s.cancelled then 0 else 1)
    + (if s.overrideAnswer.None? then 1 else 0)
    + (if s.result.None? then 1 else 0)
    + LegLeft(s.bound, |BoundList(c)|)
    + LegLeft(s.unbound, |UnboundList(c)|)
  }

  lemma OpenUnboundUses(c: Config, s: State)
    requires UnboundList(c) != [] && s.result.None? && s.unbound.None?
    ensures WorkLeft(c, OpenUnbound(c, s)) < WorkLeft(c, s)
  {
    OpenPhaseLeft(|UnboundList(c)|);
  }

  lemma OpenRaceUses(c: Config, s: State)
    requires s.result.None? && s.bound.None? && s.unbound.None?
    ensures WorkLeft(c, OpenRace(c, s)) < WorkLeft(c, s)
  {
    if BoundList(c) != [] {
      OpenPhaseLeft(|BoundList(c)|);
    } else if UnboundList(c) != [] {
      OpenUnboundUses(c, s);
    }
  }

  lemma AdvanceOverrideUses(c: Config, s: State)
    requires s.result.None? && s.bound.None? && s.unbound.None?
    ensures var r := AdvanceOverride(c, s); r == s || WorkLeft(c, r) < WorkLeft(c, s)
  {
    OpenRaceUses(c, s);
  }

  lemma AdvanceBoundUses(c: Config, s: State)
    requires s.result.None? && s.unbound.None?
    ensures var r := AdvanceBound(c, s); r == s || WorkLeft(c, r) < WorkLeft(c, s)
  {
    if UnboundList(c) != [] { OpenUnboundUses(c, s); }
  }

  lemma AdvanceUnboundUses(c: Config, s: State)
    requires s.result.None?
    ensures var r := AdvanceUnbound(c, s); r == s || WorkLeft(c, r) < WorkLeft(c, s)
  {
  }

  /** The phases that a leg has not come to are not open. */
  lemma LaterLegsAreClosed(c: Config, s: State)
    requires LegsOk(c, s)
    ensures s.leg.OverrideLeg? ==> s.bound.None? && s.unbound.None?
    ensures s.leg.BoundLeg? ==> s.unbound.None?
  {
  }

  /** Every event that changes anything uses up some of the work. */
  lemma StepUses(c: Config, s: State, e: Event)
    requires Inv(c, s)
    ensures var r := Step(c, s, e); r == s || WorkLeft(c, r) < WorkLeft(c, s)
  {
    match e {
      case Cancel =>
      case OverrideReply(_) =>
      case InBound(pe) => if s.bound.Some? { PhaseStepUses(s.bound.value, s.cancelled, pe); }
      case InUnbound(pe) => if s.unbound.Some? { PhaseStepUses(s.unbound.value, s.cancelled, pe); }
      case Advance =>
        if s.result.None? {
          LaterLegsAreClosed(c, s);
          match s.leg {
            case OverrideLeg => AdvanceOverrideUses(c, s);
            case BoundLeg => AdvanceBoundUses(c, s);
            case UnboundLeg => AdvanceUnboundUses(c, s);
          }
        }
    }
  }

  /** How many events of a schedule change anything. */
  function Effective(c: Config, cancelled: bool, es: seq<Event>): nat
    decreases |es|
  {
    if es == [] then 0
    else
      var past := es[..|es| - 1];
      Effective(c, cancelled, past) + if Exec(c, cancelled, es) != Exec(c, cancelled, past) then 1 else 0
  }

  lemma {:induction false} EffectiveBound(c: Config, cancelled: bool, es: seq<Event>)
    ensures Effective(c, cancelled, es) + WorkLeft(c, Exec(c, cancelled, es)) <= WorkLeft(c, Init(c, cancelled))
    decreases |es|
  {
    if es != [] {
      var past := es[..|es| - 1];
      EffectiveBound(c, cancelled, past);
      ExecInv(c, cancelled, past);
      StepUses(c, Exec(c, cancelled, past), es[|es| - 1]);
    }
  }

  lemma InitialWork(c: Config, cancelled: bool)
    ensures WorkLeft(c, Init(c, cancelled)) <= 3 * (|BoundList(c)| + |UnboundList(c)|) + 5
  {
    if BoundList(c) != [] { OpenPhaseLeft(|BoundList(c)|); }
    if UnboundList(c) != [] { OpenPhaseLeft(|UnboundList(c)|); }
  }

  /** Something can still happen without the caller cancelling. */
  ghost predicate CanMove(c: Config, s: State) {
    exists e: Event :: !e.Cancel? && Step(c, s, e) != s
  }

  lemma LivePhaseMoves(p: Phase) returns (e: PhaseEvent)
    requires PhaseInv(p) && Live(p)
    ensures PhaseStep(p, false, e) != p && PhaseStep(p, true, e) != p && !e.SeeCancel?
  {
    if p.started < |p.workers| {
      e := Tick;
    } else if p.channel != [] {
      e := Take;
      assert p.workers[p.channel[0].index].Sent?;
    } else {
      var i: nat :| i < |p.workers| && p.workers[i].Running?;
      e := Reply(i, Refused(""));
      assert PhaseStep(p, false, e).workers[i].Sent? && PhaseStep(p, true, e).workers[i].Sent?;
    }
  }

  lemma UnfinishedMoves(c: Config, cancelled: bool, es: seq<Event>)
    requires Exec(c, cancelled, es).result.None?
    ensures CanMove(c, Exec(c, cancelled, es))
  {
    var s := Exec(c, cancelled, es);
    NeverStuck(c, cancelled, es);
    ExecInv(c, cancelled, es);
    if s.leg.OverrideLeg? && s.overrideAnswer.None? {
      assert Step(c, s, OverrideReply(Refused(""))) != s;
    } else if Step(c, s, Advance) == s {
      if s.leg.BoundLeg? {
        var e := LivePhaseMoves(s.bound.value);
        assert Step(c, s, InBound(e)).bound != s.bound;
      } else {
        var e := LivePhaseMoves(s.unbound.value);
        assert Step(c, s, InUnbound(e)).unbound != s.unbound;
      }
    }
  }

  /** In every schedule at most three events for each candidate of each phase, and five more, change
    * anything; and where nothing can change any more the caller has its result. */
  lemma EveryDiscoveryEnds(c: Config, cancelled: bool, es: seq<Event>)
    ensures Effective(c, cancelled, es) <= 3 * (|BoundList(c)| + |UnboundList(c)|) + 5
    ensures !CanMove(c, Exec(c, cancelled, es)) ==> Exec(c, cancelled, es).result.Some?
  {
    EffectiveBound(c, cancelled, es);
    InitialWork(c, cancelled);
    if Exec(c, cancelled, es).result.None? { UnfinishedMoves(c, cancelled, es); }
  }
}
