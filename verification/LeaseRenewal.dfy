/** The renewer of a connected relay's lease, step by step: when it asks, what it reports, and what
  * moves the expiry. Times are nanoseconds of the wall clock. */
module LeaseRenewal {
  const SECOND: int := 1_000_000_000
  const RENEWAL_POLL: int := 30 * SECOND
  const MAX_BACKOFF: int := 60 * SECOND

  /** A relay as a list names it, with the credential for it. */
  datatype Relay = Relay(id: string, clientId: string)

  /** What a renewal request comes back with: a list and the lifetime of its credentials, received at some
    * time; or an error, which may be that the user is disabled. A list with relays has a positive
    * lifetime: the answer does not verify otherwise, and is an error. */
  datatype Answer = Listed(relays: seq<Relay>, lifetime: int, received: int) | Failed(disabled: bool)

  predicate Verified(a: Answer) { a.Listed? && a.relays != [] ==> a.lifetime > 0 }

  /** The answer renews the lease of this relay: it lists just that one, with the same credential. */
  predicate Renews(relay: Relay, a: Answer) { Verified(a) && a.Listed? && a.relays == [relay] }

  datatype Report = Expired | Replaced | RelayGone | AccessDisabled

  datatype Pc = Top | Sleeping(wait: int) | Resuming | Checking | Requesting | Ended

  /** A request: when it was begun, and the expiry known then. */
  datatype Asked = Asked(at: int, expiresAt: int)

  datatype Renewer = Renewer(
    expiresAt: int,
    renewAt: int,
    failures: nat,
    pc: Pc,
    asked: seq<Asked>,
    renewals: seq<Answer>,
    reports: seq<Report>)

  /** `now` is what the clock says at that step, `spread` the random part of a jitter, and `Stop` the end
    * of the candidate's context. */
  datatype Event =
    | Look(now: int) | Wake | Resume | Check(now: int) | Reply(answer: Answer, now: int, spread: int) | Stop

  function Min(a: int, b: int): int { if a < b then a else b }

  function Pow2(k: nat): nat { if k == 0 then 1 else 2 * Pow2(k - 1) }

  /** The wait after so many failures in a row. */
  function Delay(failures: nat): int {
    Min(Pow2(if failures < 6 then failures else 6) * SECOND, MAX_BACKOFF)
  }

  /** `spread` is between 0 and half the base. */
  function Jitter(base: int, spread: int): int {
    if base <= 0 then base else base + spread - base / 4
  }

  function Start(issued: int, lifetime: int, spread: int): Renewer {
    Renewer(issued + lifetime, issued + Jitter(lifetime / 2, spread), 0, Top, [], [], [])
  }

  function Say(r: Renewer, report: Report): Renewer {
    r.(pc := Ended, reports := r.reports + [report])
  }

  function ReplyStep(relay: Relay, r: Renewer, a: Answer, now: int, spread: int): Renewer {
    if a == Failed(true) then Say(r, AccessDisabled)
    else if Verified(a) && a.Listed? && |a.relays| == 1 && a.relays[0].id == relay.id then
      if a.relays[0].clientId != relay.clientId then Say(r, Replaced)
      else
        r.(expiresAt := a.received + a.lifetime, renewAt := a.received + Jitter(a.lifetime / 2, spread), failures := 0,
           pc := Top, renewals := r.renewals + [a])
    else if a.Listed? && a.relays == [] then Say(r, RelayGone)
    else r.(failures := r.failures + 1, renewAt := now + Delay(r.failures + 1), pc := Top)
  }

  function Step(relay: Relay, r: Renewer, e: Event): Renewer {
    match (r.pc, e)
    case (Top, Look(now)) =>
      if now >= r.expiresAt then Say(r, Expired)
      else if now < r.renewAt then r.(pc := Sleeping(Min(r.renewAt - now, RENEWAL_POLL)))
      else r.(pc := Resuming)
    case (Sleeping(_), Wake) => r.(pc := Top)
    case (Resuming, Resume) => r.(pc := Checking)
    case (Checking, Check(now)) =>
      if now >= r.expiresAt then r.(pc := Top)
      else r.(pc := Requesting, asked := r.asked + [Asked(now, r.expiresAt)])
    case (Requesting, Reply(a, now, spread)) => ReplyStep(relay, r, a, now, spread)
    case (Sleeping(_), Stop) => r.(pc := Ended)
    case (Resuming, Stop) => r.(pc := Ended)
    case (Requesting, Stop) => r.(pc := Ended)
    case _ => r
  }

  function Run(relay: Relay, r: Renewer, es: seq<Event>): Renewer
    decreases |es|
  {
    if es == [] then r else Step(relay, Run(relay, r, es[..|es| - 1]), es[|es| - 1])
  }

  // ---- What every run keeps ----

  /** The expiry in force is that of the last renewal, and of the first grant before any. */
  function Promised(first: int, renewals: seq<Answer>): int
    requires forall a <- renewals :: a.Listed?
  {
    if renewals == [] then first
    else renewals[|renewals| - 1].received + renewals[|renewals| - 1].lifetime
  }

  predicate Inv(relay: Relay, first: int, r: Renewer) {
    && |r.reports| <= 1 && (r.reports != [] ==> r.pc.Ended?)
    && (forall k :: 0 <= k < |r.asked| ==> r.asked[k].at < r.asked[k].expiresAt)
    && (r.pc.Requesting? ==> r.asked != [] && r.asked[|r.asked| - 1].expiresAt == r.expiresAt)
    && (r.pc.Sleeping? ==> 0 < r.pc.wait <= RENEWAL_POLL)
    && (forall k :: 0 <= k < |r.renewals| ==> Renews(relay, r.renewals[k]))
    && |r.renewals| <= |r.asked|
    && (r.pc.Requesting? ==> |r.renewals| < |r.asked|)
    && r.expiresAt == Promised(first, r.renewals)
  }

  lemma ReplyInv(relay: Relay, first: int, r: Renewer, a: Answer, now: int, spread: int)
    requires Inv(relay, first, r) && r.pc.Requesting?
    ensures Inv(relay, first, ReplyStep(relay, r, a, now, spread))
  {
    if Verified(a) && a.Listed? && |a.relays| == 1 && a.relays[0] == relay {
      assert a.relays == [relay];
    }
  }

  lemma StepInv(relay: Relay, first: int, r: Renewer, e: Event)
    requires Inv(relay, first, r)
    ensures Inv(relay, first, Step(relay, r, e))
  {
    if r.pc.Requesting? && e.Reply? { ReplyInv(relay, first, r, e.answer, e.now, e.spread); }
  }

  /** In every run: at most one report, after which the renewer is over, so that its send never blocks;
    * every request begun before the expiry; the expiry moved only by answers that list just the connected
    * relay with its own credential, each to a request of its own; and no sleep longer than the poll. */
  lemma {:induction false} RunInv(relay: Relay, issued: int, lifetime: int, spread: int, es: seq<Event>)
    ensures Inv(relay, issued + lifetime, Run(relay, Start(issued, lifetime, spread), es))
    decreases |es|
  {
    if es != [] {
      RunInv(relay, issued, lifetime, spread, es[..|es| - 1]);
      StepInv(relay, issued + lifetime, Run(relay, Start(issued, lifetime, spread), es[..|es| - 1]), es[|es| - 1]);
    }
  }

  /** This step ends the renewer, with just the report it calls for: none when its context ends, and else
    * that the clock has reached the expiry, or what the answer says. */
  predicate EndsBy(relay: Relay, r: Renewer, e: Event, reports: seq<Report>) {
    match e
    case Stop => reports == [] && !r.pc.Ended?
    case Look(now) => reports == [Expired] && now >= r.expiresAt
    case Reply(Failed(disabled), _, _) => reports == [AccessDisabled] && disabled
    case Reply(Listed(relays, _, _), _, _) =>
      || (reports == [RelayGone] && relays == [])
      || (reports == [Replaced] && |relays| == 1 && relays[0].id == relay.id && relays[0] != relay)
    case _ => false
  }

  lemma StepEndsBy(relay: Relay, first: int, r: Renewer, e: Event)
    requires Inv(relay, first, r) && !r.pc.Ended? && Step(relay, r, e).pc.Ended?
    ensures EndsBy(relay, r, e, Step(relay, r, e).reports)
  {
  }

  /** A renewer gives up for no other reason: not for a failure, however many there were. */
  lemma {:induction false} EndsForAReason(relay: Relay, issued: int, lifetime: int, spread: int, es: seq<Event>)
    returns (k: nat)
    requires Run(relay, Start(issued, lifetime, spread), es).pc.Ended?
    ensures k < |es|
    ensures EndsBy(relay, Run(relay, Start(issued, lifetime, spread), es[..k]), es[k],
                   Run(relay, Start(issued, lifetime, spread), es).reports)
    decreases |es|
  {
    var n := |es| - 1;
    RunInv(relay, issued, lifetime, spread, es[..n]);
    if Run(relay, Start(issued, lifetime, spread), es[..n]).pc.Ended? {
      k := EndsForAReason(relay, issued, lifetime, spread, es[..n]);
      assert es[..n][..k] == es[..k];
    } else {
      k := n;
      StepEndsBy(relay, issued + lifetime, Run(relay, Start(issued, lifetime, spread), es[..n]), es[n]);
    }
  }

  // ---- When it asks ----

  /** The reply of this event is taken. */
  predicate Takes(r: Renewer, e: Event) { r.pc.Requesting? && e.Reply? }

  /** The renewer goes on after this answer, which renews nothing. */
  predicate FailsWith(relay: Relay, a: Answer) {
    match a
    case Failed(disabled) => !disabled
    case Listed(relays, _, _) =>
      relays != [] && !(Verified(a) && |relays| == 1 && relays[0].id == relay.id)
  }

  /** The failures in a row since the last renewal. */
  function Streak(relay: Relay, start: Renewer, es: seq<Event>): nat
    decreases |es|
  {
    if es == [] then 0
    else
      var past, e := es[..|es| - 1], es[|es| - 1];
      if !Takes(Run(relay, start, past), e) then Streak(relay, start, past)
      else if Renews(relay, e.answer) then 0
      else Streak(relay, start, past) + if FailsWith(relay, e.answer) then 1 else 0
  }

  /** When the next request is due: at the jittered half of the lifetime after a grant, and after failures
    * in a row at their doubled seconds, cut at a minute. */
  function DueAt(relay: Relay, issued: int, lifetime: int, spread: int, es: seq<Event>): int
    decreases |es|
  {
    var start := Start(issued, lifetime, spread);
    if es == [] then issued + Jitter(lifetime / 2, spread)
    else
      var past, e := es[..|es| - 1], es[|es| - 1];
      if Takes(Run(relay, start, past), e) && Renews(relay, e.answer) then
        e.answer.received + Jitter(e.answer.lifetime / 2, e.spread)
      else if Takes(Run(relay, start, past), e) && FailsWith(relay, e.answer) then
        e.now + Min(Pow2(Streak(relay, start, es)) * SECOND, MAX_BACKOFF)
      else DueAt(relay, issued, lifetime, spread, past)
  }

  /** What a taken answer does to the schedule. */
  lemma ReplySchedules(relay: Relay, r: Renewer, a: Answer, now: int, spread: int)
    ensures var s := ReplyStep(relay, r, a, now, spread);
      if Renews(relay, a) then s.failures == 0 && s.renewAt == a.received + Jitter(a.lifetime / 2, spread)
      else if FailsWith(relay, a) then
        s.failures == r.failures + 1 && s.renewAt == now + Min(Pow2(r.failures + 1) * SECOND, MAX_BACKOFF)
      else s.failures == r.failures && s.renewAt == r.renewAt
  {
    DelayIsSaturatedDoubling(r.failures + 1);
    if a.Listed? && |a.relays| == 1 && a.relays[0] == relay { assert a.relays == [relay]; }
  }

  lemma {:induction false} RenewAtIsDue(relay: Relay, issued: int, lifetime: int, spread: int, es: seq<Event>)
    ensures var start := Start(issued, lifetime, spread); var r := Run(relay, start, es);
      r.failures == Streak(relay, start, es) && r.renewAt == DueAt(relay, issued, lifetime, spread, es)
    decreases |es|
  {
    if es != [] {
      var past, e := es[..|es| - 1], es[|es| - 1];
      var r := Run(relay, Start(issued, lifetime, spread), past);
      RenewAtIsDue(relay, issued, lifetime, spread, past);
      if Takes(r, e) { ReplySchedules(relay, r, e.answer, e.now, e.spread); }
    }
  }

  /** In every run a renewer that looks at the clock before the expiry goes on to ask exactly when a request
    * is due, and else sleeps until then, or for one poll. */
  lemma AsksIffDue(relay: Relay, issued: int, lifetime: int, spread: int, es: seq<Event>, now: int)
    requires var r := Run(relay, Start(issued, lifetime, spread), es); r.pc.Top? && now < r.expiresAt
    ensures var r, due := Run(relay, Start(issued, lifetime, spread), es), DueAt(relay, issued, lifetime, spread, es);
      Step(relay, r, Look(now)).pc == if now >= due then Resuming else Sleeping(Min(due - now, RENEWAL_POLL))
  {
    RenewAtIsDue(relay, issued, lifetime, spread, es);
  }

  // ---- It goes on ----

  /** What a renewer that is not stopped waits for next, when its clock says `now` and nobody answers well. */
  function NextEvent(pc: Pc, now: int): Event {
    match pc
    case Top => Look(now)
    case Sleeping(_) => Wake
    case Resuming => Resume
    case Checking => Check(now)
    case Requesting => Reply(Failed(false), now, 0)
    case Ended => Stop
  }

  function Drive(relay: Relay, r: Renewer, now: int, k: nat): Renewer
    decreases k
  {
    if k == 0 then r else Drive(relay, Step(relay, r, NextEvent(r.pc, now)), now, k - 1)
  }

  function StepsLeft(pc: Pc): nat {
    match pc
    case Ended => 0
    case Top => 1
    case Resuming => 3
    case _ => 2
  }

  predicate SaysExpiryOnly(r: Renewer) { r.reports == if r.pc.Ended? then [Expired] else [] }

  lemma {:induction false} DriveEnds(relay: Relay, r: Renewer, now: int, k: nat)
    requires k >= StepsLeft(r.pc) && now >= r.expiresAt && SaysExpiryOnly(r)
    ensures var s := Drive(relay, r, now, k); s.pc.Ended? && SaysExpiryOnly(s)
    decreases k
  {
    if k > 0 {
      var next := Step(relay, r, NextEvent(r.pc, now));
      assert next.expiresAt == r.expiresAt && SaysExpiryOnly(next) && StepsLeft(next.pc) <= k - 1;
      DriveEnds(relay, next, now, k - 1);
    }
  }

  /** Wherever it is, a renewer that is left running reports an expiry the clock has reached within three
    * steps of its own, and nothing else. */
  lemma ExpiryIsReported(relay: Relay, issued: int, lifetime: int, spread: int, es: seq<Event>, now: int)
    requires var r := Run(relay, Start(issued, lifetime, spread), es); !r.pc.Ended? && now >= r.expiresAt
    ensures var s := Drive(relay, Run(relay, Start(issued, lifetime, spread), es), now, 3);
      s.pc.Ended? && s.reports == [Expired]
  {
    RunInv(relay, issued, lifetime, spread, es);
    DriveEnds(relay, Run(relay, Start(issued, lifetime, spread), es), now, 3);
  }

  /** Stopped while it waits, it ends, silently. */
  lemma StopIsSilent(relay: Relay, r: Renewer)
    requires r.pc.Sleeping? || r.pc.Resuming? || r.pc.Requesting?
    ensures Step(relay, r, Stop) == r.(pc := Ended)
  {
  }

  // ---- Renewing past the expiry ----

  /** The answer renews a lease that has not expired when it arrives. */
  predicate InTime(r: Renewer, a: Answer) { a.Listed? ==> a.received < r.expiresAt }

  /** A request under way, if every answer takes at most `d`, renews in time whatever comes exactly when it
    * was begun more than `d` before the expiry: the answer is not held against the clock again. */
  lemma RenewsInTimeIff(relay: Relay, first: int, r: Renewer, d: nat)
    requires Inv(relay, first, r) && r.pc.Requesting?
    ensures var at := r.asked[|r.asked| - 1].at;
      (forall a: Answer | Renews(relay, a) && at <= a.received <= at + d :: InTime(r, a)) <==> at + d < r.expiresAt
  {
    var at := r.asked[|r.asked| - 1].at;
    var slow := Listed([relay], 1, at + d);
    assert Renews(relay, slow);
    assert InTime(r, slow) <==> at + d < r.expiresAt;
  }

  /** Begun a second before the expiry and answered a second after it, a request moves the expiry, and the
    * renewer goes on. */
  lemma RenewalCanLandLate(relay: Relay, issued: int)
    ensures var asks := [Look(issued + 7 * SECOND), Resume, Check(issued + 7 * SECOND)];
      var late := Reply(Listed([relay], 8 * SECOND, issued + 9 * SECOND), issued + 9 * SECOND, 0);
      var r, after := Run(relay, Start(issued, 8 * SECOND, SECOND), asks),
                      Run(relay, Start(issued, 8 * SECOND, SECOND), asks + [late]);
      && r.pc.Requesting? && r.expiresAt == issued + 8 * SECOND && !InTime(r, late.answer)
      && after.reports == [] && after.expiresAt == issued + 17 * SECOND
  {
    var asks := [Look(issued + 7 * SECOND), Resume, Check(issued + 7 * SECOND)];
    var late := Reply(Listed([relay], 8 * SECOND, issued + 9 * SECOND), issued + 9 * SECOND, 0);
    var start := Start(issued, 8 * SECOND, SECOND);
    assert asks[..2][..1] == asks[..1] && asks[..1][..0] == [];
    assert Run(relay, start, asks[..1]) == start.(pc := Resuming);
    assert Run(relay, start, asks[..2]) == start.(pc := Checking);
    assert (asks + [late])[..3] == asks;
  }

  // ---- Its times ----

  /** The renewal after a grant falls between three and five eighths of the lifetime, and so before the
    * expiry. */
  lemma RenewalComesInTime(lifetime: int, spread: int)
    requires lifetime > 0 && 0 <= spread <= lifetime / 2 / 2
    ensures 0 <= Jitter(lifetime / 2, spread) < lifetime
    ensures 3 * (lifetime / 2) <= 4 * Jitter(lifetime / 2, spread) <= 5 * (lifetime / 2) + 3
  {
  }

  /** The jitter takes every value in that range: a quarter below the base to a quarter above it. */
  lemma JitterSpreads(base: int, value: int) returns (spread: int)
    requires base > 0 && base - base / 4 <= value <= base - base / 4 + base / 2
    ensures 0 <= spread <= base / 2 && Jitter(base, spread) == value
  {
    spread := value - base + base / 4;
  }

  lemma {:induction false} Pow2Grows(a: nat, b: nat)
    requires a <= b
    ensures Pow2(a) <= Pow2(b)
    decreases b
  {
    if a < b { Pow2Grows(a, b - 1); }
  }

  /** The exponent's own cap is never felt: the backoff is the doubling cut at a minute, for any number
    * of failures. */
  lemma DelayIsSaturatedDoubling(failures: nat)
    ensures Delay(failures) == Min(Pow2(failures) * SECOND, MAX_BACKOFF)
  {
    assert Pow2(6) == 64 by { assert Pow2(3) == 8; }
    if failures >= 6 { Pow2Grows(6, failures); }
  }
}
