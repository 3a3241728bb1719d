/** The punch recovery circuit breaker of one connection.
  *
  * Times and delays are nanoseconds. Which delay the jitter picks is an argument.
  */
module PunchBreaker {
  import opened Prelude

  const MINUTE := 60_000_000_000
  const PUNCH_STABLE_PATH := 5 * MINUTE
  const PUNCH_MAX_RAPID_FAILURES := 3
  const PUNCH_INITIAL_BACKOFF := 2_000_000_000
  const PUNCH_MAX_BACKOFF := 30_000_000_000
  const PUNCH_JITTER_DIVISOR := 5

  datatype Config = Config(stablePath: int, maxRapid: int, initialBackoff: int, maxBackoff: int)

  function WithDefaults(c: Config): Config {
    var initial := if c.initialBackoff <= 0 then PUNCH_INITIAL_BACKOFF else c.initialBackoff;
    Config(
      if c.stablePath <= 0 then PUNCH_STABLE_PATH else c.stablePath,
      if c.maxRapid <= 0 then PUNCH_MAX_RAPID_FAILURES else c.maxRapid,
      initial,
      if c.maxBackoff < initial then PUNCH_MAX_BACKOFF else c.maxBackoff)
  }

  /** A configuration the breaker can run on. */
  predicate Usable(c: Config) {
    c.stablePath > 0 && c.maxRapid > 0 && c.initialBackoff > 0
  }

  /** The defaults repair every tunable but one: an initial backoff above the default cap keeps it
    * below itself, unless the caller gave a cap that fits. */
  lemma DefaultsOrderBackoffsIff(c: Config)
    ensures Usable(WithDefaults(c))
    ensures WithDefaults(c).initialBackoff <= WithDefaults(c).maxBackoff
       <==> c.initialBackoff <= c.maxBackoff || c.initialBackoff <= PUNCH_MAX_BACKOFF
  {
  }

  /** A usable configuration whose cap fits is taken as it is, and no other is. */
  lemma DefaultsKeepIff(c: Config)
    ensures WithDefaults(c) == c <==>
      Usable(c) && (c.initialBackoff <= c.maxBackoff || c.maxBackoff == PUNCH_MAX_BACKOFF)
    ensures c.stablePath > 0 ==> WithDefaults(c).stablePath == c.stablePath
    ensures c.maxRapid > 0 ==> WithDefaults(c).maxRapid == c.maxRapid
    ensures c.initialBackoff > 0 ==> WithDefaults(c).initialBackoff == c.initialBackoff
  {
  }

  /** Such a configuration: a minute's initial backoff and no cap of its own. */
  lemma InitialAboveCap()
    ensures var c := WithDefaults(Config(0, 0, MINUTE, 0));
      c.initialBackoff > c.maxBackoff && Nominal(c, 1) > c.maxBackoff
  {
  }

  // ---- Backoff ----

  function Pow2(k: nat): (r: nat)
    ensures r >= 1
  {
    if k == 0 then 1 else 2 * Pow2(k - 1)
  }

  function Min(a: int, b: int): int {
    if a < b then a else b
  }

  /** The backoff without jitter: doubling, saturating at the cap. */
  function Saturated(c: Config, failures: nat): int
    requires failures >= 1
  {
    Min(c.initialBackoff * Pow2(failures - 1), c.maxBackoff)
  }

  /** One round of the loop: jump to the cap once past half of it. */
  function Escalate(c: Config, nominal: int): int {
    if nominal >= c.maxBackoff / 2 then c.maxBackoff
    else if nominal * 2 > c.maxBackoff then c.maxBackoff
    else nominal * 2
  }

  function Nominal(c: Config, failures: nat): int
    requires failures >= 1
  {
    if failures == 1 then c.initialBackoff else Escalate(c, Nominal(c, failures - 1))
  }

  /** The inner cap of the doubling is dead: below half the cap, twice the nominal is below the cap. */
  lemma InnerCapIsDead(c: Config, nominal: int)
    requires nominal < c.maxBackoff / 2
    ensures nominal * 2 < c.maxBackoff
  {
  }

  /** The nominal delay is the saturated doubling for an even cap. For an odd cap it is one unit more,
    * the cap itself, exactly when doubling would land one short of the cap. */
  lemma {:induction false} NominalIsSaturatedDoubling(c: Config, failures: nat)
    requires Usable(c) && c.initialBackoff <= c.maxBackoff && failures >= 1
    ensures c.maxBackoff % 2 == 0 ==> Nominal(c, failures) == Saturated(c, failures)
    ensures Nominal(c, failures) == Saturated(c, failures)
         || (Nominal(c, failures) == c.maxBackoff == Saturated(c, failures) + 1)
    ensures Nominal(c, failures) != Saturated(c, failures)
       <==> failures >= 2 && c.initialBackoff * Pow2(failures - 1) == c.maxBackoff - 1
    decreases failures
  {
    if failures > 1 {
      NominalIsSaturatedDoubling(c, failures - 1);
      Doubles(c, failures);
      DoubledMin(c.initialBackoff * Pow2(failures - 2), c.maxBackoff);
    }
  }

  /** An odd cap that doubling would stop one short of. */
  lemma OddCapOvershoots()
    ensures var c := Config(1, 1, 3, 7); Saturated(c, 2) == 6 && Nominal(c, 2) == 7
  {
    assert Pow2(1) == 2 * Pow2(0);
  }

  lemma Doubles(c: Config, failures: nat)
    requires failures >= 2
    ensures c.initialBackoff * Pow2(failures - 1) == 2 * (c.initialBackoff * Pow2(failures - 2))
  {
    assert Pow2(failures - 1) == 2 * Pow2(failures - 2);
  }

  lemma DoubledMin(x: int, cap: int)
    requires x >= 0 && cap > 0
    ensures Min(2 * x, cap) == Min(2 * Min(x, cap), cap)
  {
  }

  lemma {:induction false} NominalInRange(c: Config, failures: nat)
    requires Usable(c) && c.initialBackoff <= c.maxBackoff && failures >= 1
    ensures c.initialBackoff <= Nominal(c, failures) <= c.maxBackoff
    decreases failures
  {
    if failures > 1 { NominalInRange(c, failures - 1); }
  }

  lemma {:induction false} NominalIsPositive(c: Config, failures: nat)
    requires Usable(c) && c.maxBackoff > 0 && failures >= 1
    ensures Nominal(c, failures) > 0
    decreases failures
  {
    if failures > 1 { NominalIsPositive(c, failures - 1); }
  }

  function Low(nominal: int): int {
    nominal - nominal / PUNCH_JITTER_DIVISOR
  }

  function High(c: Config, nominal: int): int {
    Min(nominal + nominal / PUNCH_JITTER_DIVISOR, c.maxBackoff)
  }

  /** backoffDelay: for any picker the delay is under the cap and, with the backoffs in order, within a
    * fifth of the nominal; a pick already in that range is kept. */
  method BackoffDelay(c: Config, failureCount: nat, picked: int) returns (delay: int)
    requires Usable(c) && c.maxBackoff > 0 && failureCount >= 1
    ensures 0 < delay <= c.maxBackoff
    ensures c.initialBackoff <= c.maxBackoff ==>
              Low(Nominal(c, failureCount)) <= delay <= High(c, Nominal(c, failureCount))
    ensures Low(Nominal(c, failureCount)) <= picked <= High(c, Nominal(c, failureCount)) ==> delay == picked
  {
    var nominal := c.initialBackoff;
    for i := 1 to failureCount
      invariant nominal == Nominal(c, i)
    {
      if nominal >= c.maxBackoff / 2 {
        nominal := c.maxBackoff;
      } else {
        nominal := nominal * 2;
        if nominal > c.maxBackoff {
          nominal := c.maxBackoff;
        }
      }
    }
    NominalIsPositive(c, failureCount);
    if c.initialBackoff <= c.maxBackoff { NominalInRange(c, failureCount); }
    var jitter := nominal / PUNCH_JITTER_DIVISOR;
    var min := nominal - jitter;
    if min < 1 {
      min := 1;
    }
    var max := nominal + jitter;
    if max > c.maxBackoff {
      max := c.maxBackoff;
    }
    delay := picked;
    if delay < min {
      delay := min;
    }
    if delay > max {
      delay := max;
    }
  }

  // ---- The breaker ----

  datatype RelayState = RelayState(rapidFailures: nat, connectedAt: int, hasConnectedAt: bool, open: bool)

  /** A promotion of a punched path, or its loss. */
  datatype Event = Connected(id: string, now: int) | Lost(id: string, now: int, counted: bool)

  function Fresh(): RelayState {
    RelayState(0, 0, false, false)
  }

  function StateOf(relays: map<string, RelayState>, id: string): RelayState {
    if id in relays then relays[id] else Fresh()
  }

  /** A clock that went back reads as no uptime. */
  function Uptime(s: RelayState, now: int): (up: int)
    ensures up >= 0
    ensures s.hasConnectedAt && now >= s.connectedAt ==> s.connectedAt + up == now
  {
    if s.hasConnectedAt && now > s.connectedAt then now - s.connectedAt else 0
  }

  /** What a loss does to its relay's state. */
  function Lose(c: Config, s: RelayState, now: int, counted: bool): RelayState {
    var d := WithDefaults(c);
    var stable := Uptime(s, now) >= d.stablePath;
    var streak := (if stable then 0 else s.rapidFailures) + if counted then 1 else 0;
    RelayState(streak, s.connectedAt, false,
               if counted && streak >= d.maxRapid then true else if stable then false else s.open)
  }

  function Apply(c: Config, relays: map<string, RelayState>, e: Event): map<string, RelayState> {
    match e
    case Connected(id, now) =>
      if id == "" then relays
      else relays[id := StateOf(relays, id).(connectedAt := now, hasConnectedAt := true)]
    case Lost(id, now, counted) => relays[id := Lose(c, StateOf(relays, id), now, counted)]
  }

  datatype Decision = Decision(useRelayHub: bool, delay: int, rapidFailures: nat, directUptime: int, counted: bool)

  class PunchRecoveryBreaker {
    const config: Config
    var relays: map<string, RelayState>

    constructor (config: Config)
      ensures this.config == config && relays == map[]
    {
      this.config := config;
      relays := map[];
    }

    method MarkDirectConnected(id: string, now: int)
      modifies this
      ensures relays == Apply(config, old(relays), Connected(id, now))
    {
      if id == "" {
        return;
      }
      var state := StateOf(relays, id);
      relays := relays[id := state.(connectedAt := now, hasConnectedAt := true)];
    }

    method AllowsDirectPunch(id: string) returns (ok: bool)
      ensures ok <==> !StateOf(relays, id).open
    {
      ok := id !in relays || !relays[id].open;
    }

    method OnDirectPathLost(id: string, now: int, countTowardBreaker: bool, picked: int) returns (d: Decision)
      modifies this
      ensures relays == Apply(config, old(relays), Lost(id, now, countTowardBreaker))
      ensures d.rapidFailures == relays[id].rapidFailures
      ensures d.directUptime == Uptime(StateOf(old(relays), id), now)
      ensures d.counted == countTowardBreaker
      ensures d.useRelayHub <==> countTowardBreaker && relays[id].rapidFailures >= WithDefaults(config).maxRapid
      ensures !countTowardBreaker ==> d.delay == 0
      ensures countTowardBreaker ==> d.rapidFailures >= 1 && 0 < d.delay <= WithDefaults(config).maxBackoff
      ensures var c := WithDefaults(config);
        countTowardBreaker && c.initialBackoff <= c.maxBackoff ==>
        Low(Nominal(c, d.rapidFailures)) <= d.delay <= High(c, Nominal(c, d.rapidFailures))
      ensures var c := WithDefaults(config);
        countTowardBreaker && Low(Nominal(c, d.rapidFailures)) <= picked <= High(c, Nominal(c, d.rapidFailures)) ==>
        d.delay == picked
    {
      var c := WithDefaults(config);
      var state := StateOf(relays, id);
      var uptime := 0;
      if state.hasConnectedAt && now > state.connectedAt {
        uptime := now - state.connectedAt;
      }
      state := state.(hasConnectedAt := false);
      if uptime >= c.stablePath {
        state := state.(rapidFailures := 0, open := false);
      }
      if !countTowardBreaker {
        relays := relays[id := state];
        return Decision(false, 0, state.rapidFailures, uptime, false);
      }
      state := state.(rapidFailures := state.rapidFailures + 1);
      var delay := BackoffDelay(c, state.rapidFailures, picked);
      if state.rapidFailures >= c.maxRapid {
        state := state.(open := true);
        relays := relays[id := state];
        return Decision(true, delay, state.rapidFailures, uptime, true);
      }
      relays := relays[id := state];
      return Decision(false, delay, state.rapidFailures, uptime, true);
    }
  }

  // ---- The state is a function of the history ----

  function Run(c: Config, h: seq<Event>): map<string, RelayState>
    decreases |h|
  {
    if h == [] then map[] else Apply(c, Run(c, h[..|h| - 1]), h[|h| - 1])
  }

  /** When the relay's punched path came up, if none of its paths was lost since. */
  function UpSince(h: seq<Event>, id: string): Option<int>
    decreases |h|
  {
    if h == [] then None
    else match h[|h| - 1]
      case Connected(x, now) => if x == id && id != "" then Some(now) else UpSince(h[..|h| - 1], id)
      case Lost(x, _, _) => if x == id then None else UpSince(h[..|h| - 1], id)
  }

  /** Event `k` is a loss of a path to `id` that had lived at least the stable-path threshold. */
  predicate StableLoss(c: Config, h: seq<Event>, id: string, k: nat)
    requires k < |h|
  {
    && h[k].Lost? && h[k].id == id
    && var up := UpSince(h[..k], id);
       up.Some? && h[k].now - up.value >= WithDefaults(c).stablePath
  }

  /** The counted losses of `id` at or after position `k`. */
  function CountedFrom(h: seq<Event>, id: string, k: int): nat
    decreases |h|
  {
    if h == [] || |h| - 1 < k then 0
    else
      var e := h[|h| - 1];
      CountedFrom(h[..|h| - 1], id, k) + if e.Lost? && e.id == id && e.counted then 1 else 0
  }

  /** `k` is the last stable loss of `id`, or -1 if there was none. */
  predicate LastStable(c: Config, h: seq<Event>, id: string, k: int) {
    && -1 <= k < |h|
    && (k >= 0 ==> StableLoss(c, h, id, k))
    && (forall m :: k < m < |h| ==> !StableLoss(c, h, id, m))
  }

  lemma {:induction false} TracksUpSince(c: Config, h: seq<Event>, id: string)
    ensures var s := StateOf(Run(c, h), id);
      && s.hasConnectedAt == UpSince(h, id).Some?
      && (s.hasConnectedAt ==> s.connectedAt == UpSince(h, id).value)
    decreases |h|
  {
    if h != [] { TracksUpSince(c, h[..|h| - 1], id); }
  }

  /** The breaker's stability test at a loss is the history's. */
  lemma StableTest(c: Config, h: seq<Event>, id: string, now: int, counted: bool)
    ensures Uptime(StateOf(Run(c, h), id), now) >= WithDefaults(c).stablePath
       <==> StableLoss(c, h + [Lost(id, now, counted)], id, |h|)
  {
    TracksUpSince(c, h, id);
    assert (h + [Lost(id, now, counted)])[..|h|] == h;
  }

  lemma StableLossPrefix(c: Config, h: seq<Event>, e: Event, id: string, m: nat)
    requires m < |h|
    ensures StableLoss(c, h + [e], id, m) == StableLoss(c, h, id, m)
  {
    assert (h + [e])[..m] == h[..m];
  }

  /** A relay's streak is the number of counted losses since, and including, its last stable one, and
    * the circuit is open exactly when that reaches the threshold. */
  lemma {:induction false} StreakIsCountedSinceStable(c: Config, h: seq<Event>, id: string) returns (k: int)
    ensures LastStable(c, h, id, k)
    ensures StateOf(Run(c, h), id).rapidFailures == CountedFrom(h, id, k)
    ensures StateOf(Run(c, h), id).open <==> CountedFrom(h, id, k) >= WithDefaults(c).maxRapid
    decreases |h|
  {
    if h == [] {
      k := -1;
    } else {
      var past, e := h[..|h| - 1], h[|h| - 1];
      assert h == past + [e];
      k := StreakIsCountedSinceStable(c, past, id);
      forall m: nat | m < |past| ensures StableLoss(c, h, id, m) == StableLoss(c, past, id, m) {
        StableLossPrefix(c, past, e, id, m);
      }
      if e.Lost? && e.id == id {
        StableTest(c, past, id, e.now, e.counted);
        if StableLoss(c, h, id, |h| - 1) {
          k := |h| - 1;
          assert CountedFrom(past, id, k) == 0;
        }
      }
    }
  }

  /** The events of one relay. */
  function Only(h: seq<Event>, id: string): seq<Event>
    decreases |h|
  {
    if h == [] then [] else Only(h[..|h| - 1], id) + if h[|h| - 1].id == id then [h[|h| - 1]] else []
  }

  /** No relay's state depends on another relay's events. */
  lemma {:induction false} RelaysAreIndependent(c: Config, h: seq<Event>, id: string)
    ensures StateOf(Run(c, h), id) == StateOf(Run(c, Only(h, id)), id)
    decreases |h|
  {
    if h != [] {
      var past, e := h[..|h| - 1], h[|h| - 1];
      RelaysAreIndependent(c, past, id);
      if e.id == id {
        assert Only(h, id)[..|Only(h, id)| - 1] == Only(past, id);
      } else {
        assert Only(h, id) == Only(past, id);
      }
    }
  }

  // ---- The breaker in its connection ----

  /** The connection's breaker and its live candidate: relay, and whether the path is punched. */
  datatype Session = Session(relays: map<string, RelayState>, live: Option<string>, punched: bool)

  /** A candidate is promoted (whose punch attempt would succeed iff `reachable`), or the live one is lost. */
  datatype Move = PromoteMove(relay: string, reachable: bool, at: int) | LoseMove(when: int, counts: bool)

  /** maybePunch gates the attempt on the breaker; promote stamps a punched path; supervise reports its loss. */
  function Act(c: Config, s: Session, m: Move): Session {
    match m
    case PromoteMove(relay, reachable, at) =>
      if s.live.Some? then s
      else if reachable && !StateOf(s.relays, relay).open then
        Session(Apply(c, s.relays, Connected(relay, at)), Some(relay), true)
      else Session(s.relays, Some(relay), false)
    case LoseMove(now, counted) =>
      if s.live.None? then s
      else if s.punched then Session(Apply(c, s.relays, Lost(s.live.value, now, counted)), None, false)
      else Session(s.relays, None, false)
  }

  function Play(c: Config, s: Session, ms: seq<Move>): Session
    decreases |ms|
  {
    if ms == [] then s else Act(c, Play(c, s, ms[..|ms| - 1]), ms[|ms| - 1])
  }

  /** What the breaker is told in a session: each punched path when it comes up and when it is lost. */
  function Reported(c: Config, ms: seq<Move>): seq<Event>
    decreases |ms|
  {
    if ms == [] then []
    else
      var past, m := ms[..|ms| - 1], ms[|ms| - 1];
      var before, after := Play(c, Session(map[], None, false), past), Play(c, Session(map[], None, false), ms);
      Reported(c, past) +
      if m.PromoteMove? && before.live.None? && after.punched then [Connected(m.relay, m.at)]
      else if m.LoseMove? && before.live.Some? && before.punched then [Lost(before.live.value, m.when, m.counts)]
      else []
  }

  /** So the breaker's state is the fold of the session's punched paths. */
  lemma {:induction false} BreakerFollowsSession(c: Config, ms: seq<Move>)
    ensures Play(c, Session(map[], None, false), ms).relays == Run(c, Reported(c, ms))
    decreases |ms|
  {
    if ms != [] {
      var past := ms[..|ms| - 1];
      BreakerFollowsSession(c, past);
      var h, now := Reported(c, past), Reported(c, ms);
      if now != h { assert now[..|now| - 1] == h; }
    }
  }

  /** In every session a candidate is promoted on a punched path exactly when it can be reached and its
    * circuit is closed, after what the breaker was told of it before. */
  lemma PunchedIffReachableAndClosed(c: Config, ms: seq<Move>, relay: string, reachable: bool, at: int)
    requires Play(c, Session(map[], None, false), ms).live.None?
    ensures var r := Play(c, Session(map[], None, false), ms + [PromoteMove(relay, reachable, at)]);
      r.live == Some(relay) && (r.punched <==> reachable && !StateOf(Run(c, Reported(c, ms)), relay).open)
  {
    assert (ms + [PromoteMove(relay, reachable, at)])[..|ms|] == ms;
    BreakerFollowsSession(c, ms);
  }

  ghost predicate OpenIsNotPunched(s: Session) {
    forall id :: StateOf(s.relays, id).open ==> !(s.live == Some(id) && s.punched)
  }

  lemma {:induction false} OpenNeverPunched(c: Config, ms: seq<Move>)
    ensures OpenIsNotPunched(Play(c, Session(map[], None, false), ms))
    decreases |ms|
  {
    if ms != [] { OpenNeverPunched(c, ms[..|ms| - 1]); }
  }

  /** Once a relay's circuit is open it stays open for the rest of the connection, and that relay is
    * never on a punched path again. */
  lemma {:induction false} OpenStaysOpen(c: Config, ms: seq<Move>, more: seq<Move>, id: string)
    requires StateOf(Play(c, Session(map[], None, false), ms).relays, id).open
    ensures var s := Play(c, Play(c, Session(map[], None, false), ms), more);
      && StateOf(s.relays, id) == StateOf(Play(c, Session(map[], None, false), ms).relays, id)
      && !(s.live == Some(id) && s.punched)
    decreases |more|
  {
    OpenNeverPunched(c, ms);
    if more != [] {
      OpenStaysOpen(c, ms, more[..|more| - 1], id);
    }
  }
}
