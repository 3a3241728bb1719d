/** FirstReachable over its legs: the override alone, then the endpoint-bound phase, then the
  * endpoint-unbound one. */
module BrokerDiscovery {
  import opened BrokerRace
  import opened Prelude

  datatype Leg = OverrideLeg | BoundLeg | UnboundLeg

  /** A started request: which leg, to whom, and with which TLS mode. */
  datatype Start = Start(leg: Leg, url: string, sni: bool)

  datatype Result =
    | Fetched(url: string, sni: bool, list: string) | Error(error: Option<string>) | NoEndpoints | CtxError

  /** The candidate set; `unbound` are the fronts whose no-SNI mode authenticates no exact endpoint. */
  datatype Config = Config(
    urls: seq<string>,
    unbound: set<string>,
    azureSniFirst: bool,
    overrideFirst: bool,
    azureSni: bool)

  datatype State = State(
    cancelled: bool,
    log: seq<Start>,
    leg: Leg,
    overrideAnswer: Option<Answer>,
    bound: Option<Phase>,
    unbound: Option<Phase>,
    result: Option<Result>)

  datatype Event = Cancel | OverrideReply(answer: Answer) | InBound(e: PhaseEvent) | InUnbound(e: PhaseEvent) | Advance

  // ---- The two lists ----

  /** The candidates of a phase, in the order of `urls`. */
  function Select(urls: seq<string>, keep: set<string>): seq<string> {
    if urls == [] then []
    else if urls[0] in keep then [urls[0]] + Select(urls[1..], keep)
    else Select(urls[1..], keep)
  }

  function UrlSet(urls: seq<string>): set<string> {
    set u | u in urls
  }

  function UnboundList(c: Config): seq<string> {
    Select(RaceUrls(c), c.unbound)
  }

  function BoundList(c: Config): seq<string> {
    if c.azureSniFirst then RaceUrls(c) else Select(RaceUrls(c), UrlSet(RaceUrls(c)) - c.unbound)
  }

  function RaceUrls(c: Config): seq<string> {
    if c.overrideFirst && c.urls != [] then c.urls[1..] else c.urls
  }

  lemma {:induction false} SelectMember(urls: seq<string>, keep: set<string>)
    ensures forall u :: u in Select(urls, keep) <==> u in urls && u in keep
  {
    if urls != [] {
      SelectMember(urls[1..], keep);
      assert urls == [urls[0]] + urls[1..];
    }
  }

  lemma {:induction false} SelectAppend(a: seq<string>, u: string, keep: set<string>)
    ensures Select(a + [u], keep) == Select(a, keep) + if u in keep then [u] else []
  {
    if a != [] {
      assert (a + [u])[1..] == a[1..] + [u];
      SelectAppend(a[1..], u, keep);
    }
  }

  /** Whatever a candidate is, it is in one of the two lists, and the first candidate leads its list. */
  lemma FirstLeads(c: Config)
    requires RaceUrls(c) != []
    ensures if !c.azureSniFirst && RaceUrls(c)[0] in c.unbound
            then UnboundList(c) != [] && UnboundList(c)[0] == RaceUrls(c)[0]
            else BoundList(c) != [] && BoundList(c)[0] == RaceUrls(c)[0]
  {
  }

  /** race's loop builds exactly these two lists, by appending. */
  method SplitFronts(c: Config) returns (endpointBound: seq<string>, endpointUnbound: seq<string>)
    ensures endpointBound == BoundList(c) && endpointUnbound == UnboundList(c)
  {
    var urls := RaceUrls(c);
    ghost var boundKeep := if c.azureSniFirst then UrlSet(urls) else UrlSet(urls) - c.unbound;
    endpointBound, endpointUnbound := [], [];
    for i := 0 to |urls|
      invariant endpointBound == Select(urls[..i], boundKeep)
      invariant endpointUnbound == Select(urls[..i], c.unbound)
    {
      SelectAppend(urls[..i], urls[i], boundKeep);
      SelectAppend(urls[..i], urls[i], c.unbound);
      assert urls[..i + 1] == urls[..i] + [urls[i]];
      if urls[i] in c.unbound {
        endpointUnbound := endpointUnbound + [urls[i]];
        if c.azureSniFirst {
          endpointBound := endpointBound + [urls[i]];
        }
      } else {
        endpointBound := endpointBound + [urls[i]];
      }
    }
    assert urls[..|urls|] == urls;
    SelectAll(urls, UrlSet(urls));
  }

  lemma {:induction false} SelectAll(urls: seq<string>, keep: set<string>)
    requires forall u :: u in urls ==> u in keep
    ensures Select(urls, keep) == urls
  {
    if urls != [] {
      SelectAll(urls[1..], keep);
    }
  }

  // ---- Steps ----

  function Finish(s: State, r: Result): State {
    s.(result := Some(r))
  }

  /** FirstReachable after a failed race: an override's own error wins unless the caller cancelled. */
  function RaceFailed(s: State, r: Result): State {
    if s.overrideAnswer.Some? && s.overrideAnswer.value.Refused? && !s.cancelled
    then Finish(s, Error(Some(s.overrideAnswer.value.error)))
    else Finish(s, r)
  }

  function OpenUnbound(c: Config, s: State): State
    requires UnboundList(c) != []
  {
    if s.cancelled then Finish(s, CtxError)
    else s.(leg := UnboundLeg, unbound := Some(OpenPhase(|UnboundList(c)|)),
            log := s.log + [Start(UnboundLeg, UnboundList(c)[0], false)])
  }

  function OpenRace(c: Config, s: State): State {
    if RaceUrls(c) == [] then Finish(s, NoEndpoints)
    else if s.cancelled then Finish(s, CtxError)
    else if BoundList(c) == [] then
      if UnboundList(c) == [] then Finish(s, NoEndpoints) else OpenUnbound(c, s)
    else s.(leg := BoundLeg, bound := Some(OpenPhase(|BoundList(c)|)),
            log := s.log + [Start(BoundLeg, BoundList(c)[0], c.azureSniFirst)])
  }

  function Init(c: Config, cancelled: bool): State {
    var s := State(cancelled, [], OverrideLeg, None, None, None, None);
    if c.urls == [] then Finish(s, NoEndpoints)
    else if c.overrideFirst then s.(log := [Start(OverrideLeg, c.urls[0], c.azureSni)])
    else OpenRace(c, s)
  }

  function AdvanceOverride(c: Config, s: State): State {
    if c.urls == [] || s.overrideAnswer.None? then s else
      match s.overrideAnswer.value
      case Verified(list) => Finish(s, Fetched(c.urls[0], c.azureSni && c.urls[0] in c.unbound, list))
      case Refused(error) =>
        if s.cancelled then Finish(s, CtxError)
        else if |c.urls| == 1 then Finish(s, Error(Some(error)))
        else OpenRace(c, s)
  }

  function AdvanceBound(c: Config, s: State): State {
    if s.bound.None? || s.bound.value.end.None? then s else
      match s.bound.value.end.value
      case Won(i, list) =>
        if i < |BoundList(c)| then
          Finish(s, Fetched(BoundList(c)[i], c.azureSniFirst && BoundList(c)[i] in c.unbound, list))
        else s
      case Cut => Finish(s, CtxError)
      case Lost(error) =>
        if UnboundList(c) == [] then RaceFailed(s, Error(error))
        else if s.cancelled then Finish(s, CtxError)
        else OpenUnbound(c, s)
  }

  function AdvanceUnbound(c: Config, s: State): State {
    if s.unbound.None? || s.unbound.value.end.None? then s else
      match s.unbound.value.end.value
      case Won(i, list) => if i < |UnboundList(c)| then Finish(s, Fetched(UnboundList(c)[i], false, list)) else s
      case Cut => Finish(s, CtxError)
      case Lost(error) =>
        if s.bound.None? then RaceFailed(s, Error(error))
        else if s.cancelled then Finish(s, CtxError)
        else if !c.azureSniFirst && RaceUrls(c) != [] && RaceUrls(c)[0] in c.unbound then RaceFailed(s, Error(error))
        else if s.bound.value.end.Some? && s.bound.value.end.value.Lost? then
          RaceFailed(s, Error(s.bound.value.end.value.error))
        else s
  }

  /** A tick of a running phase starts the next candidate of its list. */
  function Started(p: Phase, q: Phase, leg: Leg, urls: seq<string>, sni: bool): seq<Start> {
    if p.started < q.started && p.started < |urls| then [Start(leg, urls[p.started], sni)] else []
  }

  function StoreBound(c: Config, s: State, q: Phase): State
    requires s.bound.Some?
  {
    s.(bound := Some(q), log := s.log + Started(s.bound.value, q, BoundLeg, BoundList(c), c.azureSniFirst))
  }

  function StoreUnbound(c: Config, s: State, q: Phase): State
    requires s.unbound.Some?
  {
    s.(unbound := Some(q), log := s.log + Started(s.unbound.value, q, UnboundLeg, UnboundList(c), false))
  }

  function Step(c: Config, s: State, e: Event): State {
    match e
    case Cancel => s.(cancelled := true)
    case OverrideReply(a) =>
      if s.result.None? && s.leg.OverrideLeg? && s.overrideAnswer.None? then s.(overrideAnswer := Some(a)) else s
    case InBound(pe) =>
      if s.bound.Some? && (s.leg.BoundLeg? || pe.Reply?) then
        StoreBound(c, s, PhaseStep(s.bound.value, s.cancelled, pe))
      else s
    case InUnbound(pe) =>
      if s.unbound.Some? then StoreUnbound(c, s, PhaseStep(s.unbound.value, s.cancelled, pe)) else s
    case Advance =>
      if s.result.Some? then s
      else match s.leg
        case OverrideLeg => AdvanceOverride(c, s)
        case BoundLeg => AdvanceBound(c, s)
        case UnboundLeg => AdvanceUnbound(c, s)
  }

  function Exec(c: Config, cancelled: bool, es: seq<Event>): State
    decreases |es|
  {
    if es == [] then Init(c, cancelled) else Step(c, Exec(c, cancelled, es[..|es| - 1]), es[|es| - 1])
  }

  // ---- Invariant ----

  function Starts(leg: Leg, urls: seq<string>, sni: bool): seq<Start> {
    seq(|urls|, i requires 0 <= i < |urls| => Start(leg, urls[i], sni))
  }

  function PhaseStarts(p: Option<Phase>, leg: Leg, urls: seq<string>, sni: bool): seq<Start> {
    if p.Some? && p.value.started <= |urls| then Starts(leg, urls[..p.value.started], sni) else []
  }

  function OverrideStarts(c: Config): seq<Start> {
    if c.overrideFirst && c.urls != [] then [Start(OverrideLeg, c.urls[0], c.azureSni)] else []
  }

  /** Everything started so far, in order: the override, a prefix of the bound list, a prefix of the unbound one. */
  predicate LogOk(c: Config, s: State) {
    s.log == OverrideStarts(c)
             + PhaseStarts(s.bound, BoundLeg, BoundList(c), c.azureSniFirst)
             + PhaseStarts(s.unbound, UnboundLeg, UnboundList(c), false)
  }

  /** Every bound attempt was refused, if there were any. */
  predicate BoundExhausted(c: Config, s: State) {
    if s.bound.None? then BoundList(c) == []
    else s.bound.value.end.Some? && s.bound.value.end.value.Lost? && AllRefused(s.bound.value)
  }

  predicate LegsOk(c: Config, s: State) {
    && (s.bound.Some? ==> PhaseInv(s.bound.value) && |s.bound.value.workers| == |BoundList(c)|)
    && (s.unbound.Some? ==> PhaseInv(s.unbound.value) && |s.unbound.value.workers| == |UnboundList(c)|)
    && (s.unbound.Some? ==> BoundExhausted(c, s) && s.leg.UnboundLeg?)
    && (s.bound.Some? && s.unbound.None? ==> s.leg.BoundLeg?)
    && (s.bound.None? && s.unbound.None? ==> s.leg.OverrideLeg?)
    && (c.overrideFirst && (s.bound.Some? || s.unbound.Some?) ==>
          s.overrideAnswer.Some? && s.overrideAnswer.value.Refused?)
    && (s.overrideAnswer.Some? ==> c.overrideFirst && c.urls != [])
    && (s.leg.OverrideLeg? && s.result.None? ==> c.overrideFirst && c.urls != [])
    && (s.bound.Some? && s.bound.value.end == Some(Cut) ==> s.cancelled)
    && (s.unbound.Some? && s.unbound.value.end == Some(Cut) ==> s.cancelled)
  }

  /** What the first candidate of the caller's list answered, wherever it was asked first. */
  function FirstAnswer(c: Config, s: State): Option<Answer> {
    if c.overrideFirst then s.overrideAnswer
    else if !c.azureSniFirst && RaceUrls(c) != [] && RaceUrls(c)[0] in c.unbound then AnswerAt0(s.unbound)
    else AnswerAt0(s.bound)
  }

  function AnswerAt0(p: Option<Phase>): Option<Answer> {
    if p.Some? && p.value.workers != [] && p.value.workers[0].Received? then Some(p.value.workers[0].answer) else None
  }

  predicate ResultOk(c: Config, s: State) {
    match s.result
    case None => true
    case Some(NoEndpoints) => c.urls == []
    case Some(CtxError) => s.cancelled
    case Some(Error(e)) => s.cancelled || (e.Some? && FirstAnswer(c, s) == Some(Refused(e.value)))
    case Some(Fetched(u, sni, list)) => ServedBy(c, s, u, sni, list)
  }

  /** Some attempt on that candidate, in that mode, delivered that list. */
  predicate ServedBy(c: Config, s: State, u: string, sni: bool, list: string) {
    || (c.overrideFirst && c.urls != [] && u == c.urls[0] && s.overrideAnswer == Some(Verified(list))
        && sni == (c.azureSni && u in c.unbound))
    || (s.bound.Some? && ServedIn(s.bound.value, BoundList(c), u, list) && sni == (c.azureSniFirst && u in c.unbound))
    || (s.unbound.Some? && ServedIn(s.unbound.value, UnboundList(c), u, list) && !sni)
  }

  predicate ServedIn(p: Phase, urls: seq<string>, u: string, list: string) {
    exists i :: 0 <= i < |urls| && i < |p.workers| && urls[i] == u && p.workers[i] == Received(Verified(list))
  }

  predicate Inv(c: Config, s: State) {
    LogOk(c, s) && LegsOk(c, s) && ResultOk(c, s)
  }

  // ---- Preservation ----

  lemma StartsSnoc(leg: Leg, urls: seq<string>, sni: bool, n: nat)
    requires n < |urls|
    ensures Starts(leg, urls[..n + 1], sni) == Starts(leg, urls[..n], sni) + [Start(leg, urls[n], sni)]
  {
  }

  lemma OpenUnboundInv(c: Config, s: State)
    requires LogOk(c, s) && LegsOk(c, s) && s.result.None? && s.unbound.None? && UnboundList(c) != []
    requires BoundExhausted(c, s)
    requires c.overrideFirst ==> s.overrideAnswer.Some? && s.overrideAnswer.value.Refused?
    ensures Inv(c, OpenUnbound(c, s))
  {
    var r := OpenUnbound(c, s);
    if !s.cancelled {
      OpenPhaseInv(|UnboundList(c)|);
      assert r.log == s.log + Starts(UnboundLeg, UnboundList(c)[..1], false);
    }
  }

  lemma OpenRaceInv(c: Config, s: State)
    requires LogOk(c, s) && LegsOk(c, s) && s.result.None? && s.unbound.None? && s.bound.None?
    requires RaceUrls(c) != []
    requires c.overrideFirst ==> s.overrideAnswer.Some? && s.overrideAnswer.value.Refused?
    ensures Inv(c, OpenRace(c, s))
  {
    FirstLeads(c);
    var r := OpenRace(c, s);
    if !s.cancelled {
      if BoundList(c) == [] {
        OpenUnboundInv(c, s);
      } else {
        OpenPhaseInv(|BoundList(c)|);
        assert r.log == s.log + Starts(BoundLeg, BoundList(c)[..1], c.azureSniFirst);
      }
    }
  }

  lemma InitInv(c: Config, cancelled: bool)
    ensures Inv(c, Init(c, cancelled))
  {
    var s := State(cancelled, [], OverrideLeg, None, None, None, None);
    if c.urls != [] && !c.overrideFirst {
      OpenRaceFresh(c, s);
    }
  }

  lemma OpenRaceFresh(c: Config, s: State)
    requires c.urls != [] && !c.overrideFirst && s == State(s.cancelled, [], OverrideLeg, None, None, None, None)
    ensures Inv(c, OpenRace(c, s))
  {
    FirstLeads(c);
    if !s.cancelled {
      if BoundList(c) == [] {
        OpenPhaseInv(|UnboundList(c)|);
        assert OpenRace(c, s).log == Starts(UnboundLeg, UnboundList(c)[..1], false);
      } else {
        OpenPhaseInv(|BoundList(c)|);
        assert OpenRace(c, s).log == Starts(BoundLeg, BoundList(c)[..1], c.azureSniFirst);
      }
    }
  }

  /** What a phase event may do to its phase, as PhaseStepKeeps has it. */
  predicate Moves(p: Phase, cancelled: bool, q: Phase) {
    && PhaseInv(q) && |q.workers| == |p.workers|
    && (q.started == p.started || (q.started == p.started + 1 && p.end.None?))
    && (p.end.Some? ==> q.end == p.end)
    && (forall i :: 0 <= i < |p.workers| && p.workers[i].Received? ==> q.workers[i] == p.workers[i])
    && (AllRefused(p) ==> q.workers == p.workers)
    && (q.end == Some(Cut) ==> p.end == Some(Cut) || cancelled)
  }

  lemma StepMoves(p: Phase, cancelled: bool, e: PhaseEvent)
    requires PhaseInv(p)
    ensures Moves(p, cancelled, PhaseStep(p, cancelled, e))
  {
    PhaseStepInv(p, cancelled, e);
    PhaseStepKeeps(p, cancelled, e);
  }

  lemma StoreBoundLog(c: Config, s: State, q: Phase)
    requires LogOk(c, s) && LegsOk(c, s) && s.bound.Some? && Moves(s.bound.value, s.cancelled, q)
    ensures LogOk(c, StoreBound(c, s, q))
  {
    if q.started > s.bound.value.started {
      StartsSnoc(BoundLeg, BoundList(c), c.azureSniFirst, s.bound.value.started);
    }
  }

  lemma StoreUnboundLog(c: Config, s: State, q: Phase)
    requires LogOk(c, s) && LegsOk(c, s) && s.unbound.Some? && Moves(s.unbound.value, s.cancelled, q)
    ensures LogOk(c, StoreUnbound(c, s, q))
  {
    if q.started > s.unbound.value.started {
      StartsSnoc(UnboundLeg, UnboundList(c), false, s.unbound.value.started);
    }
  }

  lemma StoreBoundLegs(c: Config, s: State, q: Phase)
    requires LegsOk(c, s) && s.bound.Some? && Moves(s.bound.value, s.cancelled, q)
    ensures LegsOk(c, StoreBound(c, s, q))
  {
  }

  lemma StoreUnboundLegs(c: Config, s: State, q: Phase)
    requires LegsOk(c, s) && s.unbound.Some? && Moves(s.unbound.value, s.cancelled, q)
    ensures LegsOk(c, StoreUnbound(c, s, q))
  {
  }

  lemma InBoundInv(c: Config, s: State, pe: PhaseEvent)
    requires Inv(c, s)
    ensures Inv(c, Step(c, s, InBound(pe)))
  {
    if s.bound.Some? && (s.leg.BoundLeg? || pe.Reply?) {
      var q := PhaseStep(s.bound.value, s.cancelled, pe);
      StepMoves(s.bound.value, s.cancelled, pe);
      StoreBoundLog(c, s, q);
      StoreBoundLegs(c, s, q);
      ServedKeeps(c, s, StoreBound(c, s, q));
    }
  }

  lemma InUnboundInv(c: Config, s: State, pe: PhaseEvent)
    requires Inv(c, s)
    ensures Inv(c, Step(c, s, InUnbound(pe)))
  {
    if s.unbound.Some? {
      var q := PhaseStep(s.unbound.value, s.cancelled, pe);
      StepMoves(s.unbound.value, s.cancelled, pe);
      StoreUnboundLog(c, s, q);
      StoreUnboundLegs(c, s, q);
      ServedKeeps(c, s, StoreUnbound(c, s, q));
    }
  }

  predicate KeepsReceived(p: Phase, q: Phase) {
    && |q.workers| == |p.workers|
    && forall i :: 0 <= i < |p.workers| && p.workers[i].Received? ==> q.workers[i] == p.workers[i]
  }

  predicate Keeps(p: Option<Phase>, q: Option<Phase>) {
    p.None? || (q.Some? && KeepsReceived(p.value, q.value))
  }

  /** A result stays justified while phases only add answers. */
  lemma ServedKeeps(c: Config, s: State, r: State)
    requires ResultOk(c, s)
    requires r.result == s.result && r.cancelled == s.cancelled && r.overrideAnswer == s.overrideAnswer
    requires Keeps(s.bound, r.bound) && Keeps(s.unbound, r.unbound)
    ensures ResultOk(c, r)
  {
    if s.result.Some? && s.result.value.Fetched? {
      var Fetched(u, sni, list) := s.result.value;
      assert ServedBy(c, s, u, sni, list);
      if s.bound.Some? && ServedIn(s.bound.value, BoundList(c), u, list) {
        var i :| 0 <= i < |BoundList(c)| && i < |s.bound.value.workers| && BoundList(c)[i] == u
              && s.bound.value.workers[i] == Received(Verified(list));
        assert r.bound.value.workers[i] == Received(Verified(list));
      }
      if s.unbound.Some? && ServedIn(s.unbound.value, UnboundList(c), u, list) {
        var i :| 0 <= i < |UnboundList(c)| && i < |s.unbound.value.workers| && UnboundList(c)[i] == u
              && s.unbound.value.workers[i] == Received(Verified(list));
        assert r.unbound.value.workers[i] == Received(Verified(list));
      }
    }
  }

  lemma AdvanceOverrideInv(c: Config, s: State)
    requires Inv(c, s) && s.result.None? && s.leg.OverrideLeg?
    ensures Inv(c, AdvanceOverride(c, s))
  {
    if s.overrideAnswer.Some? && s.overrideAnswer.value.Refused? && !s.cancelled && |c.urls| > 1 {
      OpenRaceInv(c, s);
    }
  }

  lemma AdvanceBoundInv(c: Config, s: State)
    requires Inv(c, s) && s.result.None? && s.leg.BoundLeg?
    ensures Inv(c, AdvanceBound(c, s))
  {
    if s.bound.value.end.Some? {
      match s.bound.value.end.value {
        case Won(i, list) =>
          assert ServedIn(s.bound.value, BoundList(c), BoundList(c)[i], list);
        case Cut =>
        case Lost(error) =>
          BoundPhaseUrls(c, s);
          FirstLeads(c);
          if UnboundList(c) != [] && !s.cancelled { OpenUnboundInv(c, s); }
      }
    }
  }

  /** An open phase has candidates, so the race had some. */
  lemma BoundPhaseUrls(c: Config, s: State)
    requires LegsOk(c, s) && (s.bound.Some? || s.unbound.Some?)
    ensures RaceUrls(c) != []
  {
  }

  lemma AdvanceUnboundInv(c: Config, s: State)
    requires Inv(c, s) && s.result.None? && s.leg.UnboundLeg?
    ensures Inv(c, AdvanceUnbound(c, s))
  {
    if s.unbound.Some? && s.unbound.value.end.Some? {
      BoundPhaseUrls(c, s);
      FirstLeads(c);
      if s.unbound.value.end.value.Won? {
        var i := s.unbound.value.end.value.index;
        assert ServedIn(s.unbound.value, UnboundList(c), UnboundList(c)[i], s.unbound.value.end.value.list);
      }
    }
  }

  lemma StepInv(c: Config, s: State, e: Event)
    requires Inv(c, s)
    ensures Inv(c, Step(c, s, e))
  {
    match e {
      case Cancel =>
        assert Step(c, s, e).log == s.log;
      case OverrideReply(_) =>
      case InBound(pe) => InBoundInv(c, s, pe);
      case InUnbound(pe) => InUnboundInv(c, s, pe);
      case Advance =>
        if s.result.None? {
          match s.leg {
            case OverrideLeg => AdvanceOverrideInv(c, s);
            case BoundLeg => AdvanceBoundInv(c, s);
            case UnboundLeg => AdvanceUnboundInv(c, s);
          }
        }
    }
  }

  lemma {:induction false} ExecInv(c: Config, cancelled: bool, es: seq<Event>)
    ensures Inv(c, Exec(c, cancelled, es))
    decreases |es|
  {
    if es == [] {
      InitInv(c, cancelled);
    } else {
      ExecInv(c, cancelled, es[..|es| - 1]);
      StepInv(c, Exec(c, cancelled, es[..|es| - 1]), es[|es| - 1]);
    }
  }

  // ---- Theorems over every schedule ----

  /** In every schedule the requests started are the override, then a prefix of the bound list, then a
    * prefix of the unbound list: in order, each candidate of a phase at most once. */
  lemma StartsInOrder(c: Config, cancelled: bool, es: seq<Event>)
    ensures LogOk(c, Exec(c, cancelled, es))
  {
    ExecInv(c, cancelled, es);
  }

  /** A race attempt that authenticates no exact endpoint starts only once every endpoint-bound
    * attempt has been made and refused, or there were none to make. */
  lemma UnboundOnlyAfterBound(c: Config, cancelled: bool, es: seq<Event>, j: nat)
    requires j < |Exec(c, cancelled, es).log|
    requires var start := Exec(c, cancelled, es).log[j];
      !start.leg.OverrideLeg? && start.url in c.unbound && !start.sni
    ensures BoundExhausted(c, Exec(c, cancelled, es))
  {
    ExecInv(c, cancelled, es);
    var s := Exec(c, cancelled, es);
    if s.unbound.None? {
      assert s.log == OverrideStarts(c) + PhaseStarts(s.bound, BoundLeg, BoundList(c), c.azureSniFirst);
      BoundStartsAuthenticate(c, s.bound);
    }
  }

  lemma BoundStartsAuthenticate(c: Config, p: Option<Phase>)
    ensures forall k :: 0 <= k < |PhaseStarts(p, BoundLeg, BoundList(c), c.azureSniFirst)| ==>
      var start := PhaseStarts(p, BoundLeg, BoundList(c), c.azureSniFirst)[k]; start.sni || start.url !in c.unbound
  {
    SelectMember(RaceUrls(c), UrlSet(RaceUrls(c)) - c.unbound);
    assert forall k :: 0 <= k < |BoundList(c)| ==> BoundList(c)[k] in BoundList(c);
  }

  /** If everything failed and nobody cancelled, the caller gets what the first candidate of its list
    * answered: the override's own error, or the error of the first attempt on the first URL. */
  lemma ErrorOfFirstCandidate(c: Config, cancelled: bool, es: seq<Event>)
    requires var s := Exec(c, cancelled, es); !s.cancelled && s.result.Some? && s.result.value.Error?
    ensures var s := Exec(c, cancelled, es);
      s.result.value.error.Some? && FirstAnswer(c, s) == Some(Refused(s.result.value.error.value))
  {
    ExecInv(c, cancelled, es);
  }

  /** Without a cancel there is always a result to come: the override is under way, the leg can
    * advance, or its phase has a tick, a running attempt or an answer. */
  lemma NeverStuck(c: Config, cancelled: bool, es: seq<Event>)
    requires Exec(c, cancelled, es).result.None?
    ensures var s := Exec(c, cancelled, es);
      || (s.leg.OverrideLeg? && s.overrideAnswer.None?)
      || Step(c, s, Advance) != s
      || (s.leg.BoundLeg? && s.bound.Some? && Live(s.bound.value))
      || (s.leg.UnboundLeg? && s.unbound.Some? && Live(s.unbound.value))
  {
    ExecInv(c, cancelled, es);
    var s := Exec(c, cancelled, es);
    match s.leg {
      case OverrideLeg =>
        if s.overrideAnswer.Some? && s.overrideAnswer.value.Refused? && !s.cancelled && |c.urls| > 1 {
          OpenRaceMoves(c, s);
        }
      case BoundLeg =>
        if s.bound.value.end.None? { PhaseNotStuck(s.bound.value); }
      case UnboundLeg =>
        if s.unbound.Some? && s.unbound.value.end.None? { PhaseNotStuck(s.unbound.value); }
    }
  }

  predicate Live(p: Phase) {
    && p.end.None?
    && (p.started < |p.workers| || p.channel != [] || exists i: nat :: i < |p.workers| && p.workers[i].Running?)
  }

  lemma OpenRaceMoves(c: Config, s: State)
    requires LegsOk(c, s) && s.result.None? && s.leg.OverrideLeg?
    ensures OpenRace(c, s) != s
  {
  }

  /** No worker ever blocks on its phase's channel, even one answering after the caller has left. */
  lemma WorkersNeverBlock(c: Config, cancelled: bool, es: seq<Event>, i: nat)
    ensures var s := Exec(c, cancelled, es);
      && (s.bound.Some? && i < |s.bound.value.workers| && s.bound.value.workers[i].Running? ==>
            |s.bound.value.channel| < |s.bound.value.workers|)
      && (s.unbound.Some? && i < |s.unbound.value.workers| && s.unbound.value.workers[i].Running? ==>
            |s.unbound.value.channel| < |s.unbound.value.workers|)
  {
    ExecInv(c, cancelled, es);
    var s := Exec(c, cancelled, es);
    if s.bound.Some? { ChannelFits(s.bound.value); }
    if s.unbound.Some? { ChannelFits(s.unbound.value); }
  }

  /** A reported success names a candidate whose own attempt, in that TLS mode, delivered that list. */
  lemma SuccessIsServed(c: Config, cancelled: bool, es: seq<Event>, u: string, sni: bool, list: string)
    requires Exec(c, cancelled, es).result == Some(Fetched(u, sni, list))
    ensures ServedBy(c, Exec(c, cancelled, es), u, sni, list)
  {
    ExecInv(c, cancelled, es);
  }
}
