/** A discovery that nobody cancels fails exactly when every candidate was asked and refused, and one that
  * is cancelled is left at once. */
module BrokerExhaustion {
  import opened BrokerRace
  import opened BrokerDiscovery
  import opened Prelude

  predicate PhaseRefused(p: Option<Phase>) { p.Some? && AllRefused(p.value) }

  /** The override was refused if there is one, and so was every attempt of each phase with candidates. */
  predicate Exhausted(c: Config, s: State) {
    && (c.overrideFirst ==> s.overrideAnswer.Some? && s.overrideAnswer.value.Refused?)
    && (BoundList(c) != [] ==> PhaseRefused(s.bound))
    && (UnboundList(c) != [] ==> PhaseRefused(s.unbound))
  }

  predicate Asked(s: State, url: string) {
    exists j :: 0 <= j < |s.log| && s.log[j].url == url
  }

  /** An error that is not the caller's own cancelling is backed by refusals throughout. */
  predicate ErrorBacked(c: Config, s: State) {
    !s.cancelled && s.result.Some? && s.result.value.Error? ==> Exhausted(c, s)
  }

  lemma InitBacked(c: Config, cancelled: bool)
    ensures ErrorBacked(c, Init(c, cancelled))
  {
  }

  lemma AdvanceOverrideBacked(c: Config, s: State)
    requires LegsOk(c, s) && s.result.None? && s.leg.OverrideLeg?
    ensures ErrorBacked(c, AdvanceOverride(c, s))
  {
    if |c.urls| == 1 { assert RaceUrls(c) == []; }
  }

  lemma AdvanceBoundBacked(c: Config, s: State)
    requires LegsOk(c, s) && s.result.None? && s.leg.BoundLeg?
    ensures ErrorBacked(c, AdvanceBound(c, s))
  {
  }

  lemma AdvanceUnboundBacked(c: Config, s: State)
    requires LegsOk(c, s) && s.result.None? && s.leg.UnboundLeg?
    ensures ErrorBacked(c, AdvanceUnbound(c, s))
  {
  }

  lemma StaysRefused(p: Phase, q: Phase)
    requires AllRefused(p) && KeepsReceived(p, q)
    ensures AllRefused(q)
  {
  }

  /** Late answers of a phase change nothing that was received. */
  lemma PhasesBacked(c: Config, s: State, e: Event)
    requires LegsOk(c, s) && ErrorBacked(c, s) && (e.InBound? || e.InUnbound?)
    ensures ErrorBacked(c, Step(c, s, e))
  {
    if e.InBound? && s.bound.Some? { StepMoves(s.bound.value, s.cancelled, e.e); }
    if e.InUnbound? && s.unbound.Some? { StepMoves(s.unbound.value, s.cancelled, e.e); }
    if PhaseRefused(s.bound) && e.InBound? { StaysRefused(s.bound.value, PhaseStep(s.bound.value, s.cancelled, e.e)); }
    if PhaseRefused(s.unbound) && e.InUnbound? {
      StaysRefused(s.unbound.value, PhaseStep(s.unbound.value, s.cancelled, e.e));
    }
  }

  lemma StepBacked(c: Config, s: State, e: Event)
    requires LegsOk(c, s) && ErrorBacked(c, s)
    ensures ErrorBacked(c, Step(c, s, e))
  {
    match e {
      case Cancel =>
      case OverrideReply(_) =>
      case InBound(_) => PhasesBacked(c, s, e);
      case InUnbound(_) => PhasesBacked(c, s, e);
      case Advance =>
        if s.result.None? {
          match s.leg {
            case OverrideLeg => AdvanceOverrideBacked(c, s);
            case BoundLeg => AdvanceBoundBacked(c, s);
            case UnboundLeg => AdvanceUnboundBacked(c, s);
          }
        }
    }
  }

  lemma {:induction false} ExecBacked(c: Config, cancelled: bool, es: seq<Event>)
    ensures ErrorBacked(c, Exec(c, cancelled, es))
    decreases |es|
  {
    if es == [] {
      InitBacked(c, cancelled);
    } else {
      ExecBacked(c, cancelled, es[..|es| - 1]);
      ExecInv(c, cancelled, es[..|es| - 1]);
      StepBacked(c, Exec(c, cancelled, es[..|es| - 1]), es[|es| - 1]);
    }
  }

  // ---- Everyone was asked ----

  lemma RefusedIsStarted(p: Phase, leg: Leg, urls: seq<string>, sni: bool, url: string)
    requires PhaseInv(p) && AllRefused(p) && |p.workers| == |urls| && url in urls
    ensures var starts := PhaseStarts(Some(p), leg, urls, sni); exists j :: 0 <= j < |starts| && starts[j].url == url
  {
    assert !p.workers[|urls| - 1].Idle?;
    assert p.started == |urls|;
    var k :| 0 <= k < |urls| && urls[k] == url;
    assert PhaseStarts(Some(p), leg, urls, sni)[k].url == url;
  }

  lemma ListsCover(c: Config, url: string)
    requires url in RaceUrls(c)
    ensures url in BoundList(c) || url in UnboundList(c)
  {
    SelectMember(RaceUrls(c), c.unbound);
    SelectMember(RaceUrls(c), UrlSet(RaceUrls(c)) - c.unbound);
  }

  lemma ExhaustedAsked(c: Config, s: State, url: string)
    requires LogOk(c, s) && LegsOk(c, s) && Exhausted(c, s) && url in c.urls
    ensures Asked(s, url)
  {
    var first := OverrideStarts(c);
    var bound := PhaseStarts(s.bound, BoundLeg, BoundList(c), c.azureSniFirst);
    var unbound := PhaseStarts(s.unbound, UnboundLeg, UnboundList(c), false);
    assert s.log == first + bound + unbound;
    if c.overrideFirst && url == c.urls[0] {
      assert s.log[0].url == url;
    } else {
      assert url in RaceUrls(c);
      ListsCover(c, url);
      if url in BoundList(c) {
        RefusedIsStarted(s.bound.value, BoundLeg, BoundList(c), c.azureSniFirst, url);
        var j :| 0 <= j < |bound| && bound[j].url == url;
        assert s.log[|first| + j].url == url;
      } else {
        RefusedIsStarted(s.unbound.value, UnboundLeg, UnboundList(c), false, url);
        var j :| 0 <= j < |unbound| && unbound[j].url == url;
        assert s.log[|first| + |bound| + j].url == url;
      }
    }
  }

  /** A list someone served is not a refusal. */
  lemma ServedIsNotExhausted(c: Config, s: State, u: string, sni: bool, list: string)
    requires LegsOk(c, s) && ServedBy(c, s, u, sni, list)
    ensures !Exhausted(c, s)
  {
    if s.bound.Some? && ServedIn(s.bound.value, BoundList(c), u, list) {
      assert !AllRefused(s.bound.value);
    }
    if s.unbound.Some? && ServedIn(s.unbound.value, UnboundList(c), u, list) {
      assert !AllRefused(s.unbound.value);
    }
  }

  /** In every schedule that nobody cancels, the result is an error if and only if the override, if there
    * is one, and every attempt of every phase with candidates was refused; every URL of the caller's list
    * was asked then. */
  lemma ErrorIffAllRefused(c: Config, cancelled: bool, es: seq<Event>)
    requires var s := Exec(c, cancelled, es); c.urls != [] && !s.cancelled && s.result.Some?
    ensures var s := Exec(c, cancelled, es);
      && (s.result.value.Error? <==> Exhausted(c, s))
      && (s.result.value.Error? ==> forall u :: u in c.urls ==> Asked(s, u))
  {
    var s := Exec(c, cancelled, es);
    ExecInv(c, cancelled, es);
    ExecBacked(c, cancelled, es);
    match s.result.value {
      case Fetched(u, sni, list) => ServedIsNotExhausted(c, s, u, sni, list);
      case Error(_) => forall u | u in c.urls ensures Asked(s, u) { ExhaustedAsked(c, s, u); }
      case _ =>
    }
  }

  // ---- Cancelling ----

  /** Only the caller cancels. */
  lemma {:induction false} CancelledIff(c: Config, cancelled: bool, es: seq<Event>)
    ensures Exec(c, cancelled, es).cancelled <==> cancelled || Cancel in es
    decreases |es|
  {
    if es != [] {
      CancelledIff(c, cancelled, es[..|es| - 1]);
      assert es == es[..|es| - 1] + [es[|es| - 1]];
    }
  }

  /** What a cancelled discovery ends with at the end of its leg: a list that was served counts; a refusal is
    * the caller's own cancelling, but for the one phase of a race with no other. */
  function CancelledResult(c: Config, s: State): Option<Result> {
    match s.leg
    case OverrideLeg =>
      if s.overrideAnswer.None? || c.urls == [] then None
      else if s.overrideAnswer.value.Refused? then Some(CtxError)
      else Some(Fetched(c.urls[0], c.azureSni && c.urls[0] in c.unbound, s.overrideAnswer.value.list))
    case BoundLeg => PhaseResult(s.bound, BoundList(c), c.azureSniFirst, c.unbound, UnboundList(c) == [])
    case UnboundLeg => PhaseResult(s.unbound, UnboundList(c), false, c.unbound, BoundList(c) == [])
  }

  function PhaseResult(p: Option<Phase>, urls: seq<string>, sni: bool, unbound: set<string>, alone: bool)
    : Option<Result>
  {
    if p.None? || p.value.end.None? then None
    else match p.value.end.value
      case Won(i, list) => if i < |urls| then Some(Fetched(urls[i], sni && urls[i] in unbound, list)) else None
      case Cut => Some(CtxError)
      case Lost(error) => Some(if alone then Error(error) else CtxError)
  }

  lemma CancelledStep(c: Config, s: State)
    requires LegsOk(c, s) && s.cancelled && s.result.None?
    ensures Step(c, s, Advance) == s.(result := CancelledResult(c, s))
  {
    assert s.leg.UnboundLeg? ==> s.unbound.Some? && (s.bound.None? <==> BoundList(c) == []);
  }

  /** In every schedule, once the caller has cancelled no further leg is begun: the discovery ends with the
    * leg it is in, as above. */
  lemma CancelledOpensNothing(c: Config, cancelled: bool, es: seq<Event>)
    requires var s := Exec(c, cancelled, es); s.cancelled && s.result.None?
    ensures var s := Exec(c, cancelled, es); Step(c, s, Advance) == s.(result := CancelledResult(c, s))
  {
    ExecInv(c, cancelled, es);
    CancelledStep(c, Exec(c, cancelled, es));
  }

  /** And a phase that is still running need not be waited for. */
  lemma CancelledIsLeftAtOnce(c: Config, cancelled: bool, es: seq<Event>)
    requires var s := Exec(c, cancelled, es);
      s.cancelled && s.result.None? && !s.leg.OverrideLeg? && CancelledResult(c, s).None?
    ensures var s := Exec(c, cancelled, es);
      var seen := Step(c, s, if s.leg.BoundLeg? then InBound(SeeCancel) else InUnbound(SeeCancel));
      Step(c, seen, Advance).result == Some(CtxError)
  {
    var s := Exec(c, cancelled, es);
    ExecInv(c, cancelled, es);
    var e := if s.leg.BoundLeg? then InBound(SeeCancel) else InUnbound(SeeCancel);
    StepInv(c, s, e);
    CancelledStep(c, Step(c, s, e));
  }

  /** A race that is cancelled before it begins asks nobody. */
  lemma CancelledBeforeAsksNobody(c: Config)
    requires c.urls != [] && !c.overrideFirst
    ensures Init(c, true).result == Some(CtxError) && Init(c, true).log == []
  {
  }
}
