/** The no-stream idle guard of a WSS session: a timer that only a generation check keeps honest.
  *
  * Stopping a Go timer does not stop a callback already on its way, so every timer ever scheduled
  * may run its callback at any time after its timeout. The callback commits under the lock and
  * calls onExpire after releasing it.
  */
module IdleGuard {

  /** `timers` are the runtime timers ever scheduled, by generation; `owed` counts commits whose
    * onExpire call is still to come, `calls` the calls made. */
  datatype Guard = Guard(
    timeout: int,
    active: nat,
    expired: bool,
    closed: bool,
    disarmed: bool,
    generation: nat,
    timers: map<nat, int>,
    owed: nat,
    calls: nat)

  datatype Event = Start | Done | Disarm | Close | Fire(generation: nat) | CallOnExpire

  /** An event and the time it takes the lock. */
  datatype Timed = At(time: int, event: Event)

  function Schedule(g: Guard, now: int): Guard {
    g.(generation := g.generation + 1, timers := g.timers[g.generation + 1 := now])
  }

  function NewGuard(timeout: int, now: int): Guard {
    Schedule(Guard(timeout, 0, false, false, false, 0, map[], 0, 0), now)
  }

  function StartStep(g: Guard): (Guard, bool) {
    if g.closed || g.expired then (g, false)
    else (g.(active := g.active + 1, generation := if g.active == 0 then g.generation + 1 else g.generation), true)
  }

  function DoneStep(g: Guard, now: int): Guard {
    if g.closed || g.active == 0 then g
    else
      var less := g.(active := g.active - 1);
      if less.active == 0 && !g.disarmed then Schedule(less, now) else less
  }

  function DisarmStep(g: Guard): Guard {
    if g.disarmed then g else g.(disarmed := true, generation := g.generation + 1)
  }

  function CloseStep(g: Guard): Guard {
    g.(closed := true, generation := g.generation + 1)
  }

  /** expire, up to its unlock. */
  function ExpireStep(g: Guard, generation: nat): Guard {
    if g.closed || g.expired || g.active != 0 || generation != g.generation then g
    else g.(expired := true, owed := g.owed + 1)
  }

  function Step(g: Guard, e: Timed): Guard {
    match e.event
    case Start => StartStep(g).0
    case Done => DoneStep(g, e.time)
    case Disarm => DisarmStep(g)
    case Close => CloseStep(g)
    case Fire(k) => if k in g.timers && e.time >= g.timers[k] + g.timeout then ExpireStep(g, k) else g
    case CallOnExpire => if g.owed > 0 then g.(owed := g.owed - 1, calls := g.calls + 1) else g
  }

  /** The guard as the source keeps it. */
  class IdleGuard {
    const timeout: int
    var active: nat
    var expired: bool
    var closed: bool
    var disarmed: bool
    var generation: nat
    var timers: map<nat, int>
    var owed: nat
    var calls: nat

    ghost function View(): Guard
      reads this
    {
      Guard(timeout, active, expired, closed, disarmed, generation, timers, owed, calls)
    }

    constructor (timeout: int, now: int)
      ensures View() == NewGuard(timeout, now)
    {
      this.timeout := timeout;
      active, expired, closed, disarmed, owed, calls := 0, false, false, false, 0, 0;
      generation := 1;
      timers := map[1 := now];
    }

    method StartStream() returns (ok: bool)
      modifies this
      ensures (View(), ok) == StartStep(old(View()))
    {
      if closed || expired {
        return false;
      }
      if active == 0 {
        generation := generation + 1;
      }
      active := active + 1;
      return true;
    }

    method DoneStream(now: int)
      modifies this
      ensures View() == DoneStep(old(View()), now)
    {
      if closed || active == 0 {
        return;
      }
      active := active - 1;
      if active == 0 && !disarmed {
        ScheduleLocked(now);
      }
    }

    method DisarmTimer()
      modifies this
      ensures View() == DisarmStep(old(View()))
    {
      if disarmed {
        return;
      }
      disarmed := true;
      generation := generation + 1;
    }

    method CloseGuard()
      modifies this
      ensures View() == CloseStep(old(View()))
    {
      closed := true;
      generation := generation + 1;
    }

    method ScheduleLocked(now: int)
      modifies this
      ensures View() == Schedule(old(View()), now)
    {
      generation := generation + 1;
      timers := timers[generation := now];
    }

    method Expire(generation: nat)
      modifies this
      ensures View() == ExpireStep(old(View()), generation)
    {
      if closed || expired || active != 0 || generation != this.generation {
        return;
      }
      expired := true;
      owed := owed + 1;
    }
  }

  // ---- Runs ----

  function Run(timeout: int, start: int, es: seq<Timed>): Guard
    decreases |es|
  {
    if es == [] then NewGuard(timeout, start) else Step(Run(timeout, start, es[..|es| - 1]), es[|es| - 1])
  }

  function RunFrom(g: Guard, es: seq<Timed>): Guard
    decreases |es|
  {
    if es == [] then g else Step(RunFrom(g, es[..|es| - 1]), es[|es| - 1])
  }

  /** A timer of the current generation is there exactly on an idle, open, armed guard. */
  predicate Inv(g: Guard) {
    && (g.generation in g.timers <==> g.active == 0 && !g.closed && !g.disarmed)
    && (forall k :: k in g.timers ==> k <= g.generation)
    && g.owed + g.calls == (if g.expired then 1 else 0)
    && (g.expired ==> g.active == 0)
  }

  lemma StepInv(g: Guard, e: Timed)
    requires Inv(g)
    ensures Inv(Step(g, e))
  {
  }

  lemma {:induction false} RunInv(timeout: int, start: int, es: seq<Timed>)
    ensures Inv(Run(timeout, start, es))
    decreases |es|
  {
    if es != [] {
      RunInv(timeout, start, es[..|es| - 1]);
      StepInv(Run(timeout, start, es[..|es| - 1]), es[|es| - 1]);
    }
  }

  lemma {:induction false} RunFromInv(g: Guard, es: seq<Timed>)
    requires Inv(g)
    ensures Inv(RunFrom(g, es))
    decreases |es|
  {
    if es != [] {
      RunFromInv(g, es[..|es| - 1]);
      StepInv(RunFrom(g, es[..|es| - 1]), es[|es| - 1]);
    }
  }

  // ---- Theorems over every interleaving ----

  /** onExpire runs at most once, and only for a guard that has expired. */
  lemma ExpiresAtMostOnce(timeout: int, start: int, es: seq<Timed>)
    ensures var g := Run(timeout, start, es); g.calls <= 1 && (g.calls == 1 ==> g.expired)
  {
    RunInv(timeout, start, es);
  }

  /** The time of the event that produced state `k` of a run; state 0 is NewIdleGuard's. */
  function TimeOf(start: int, es: seq<Timed>, k: nat): int
    requires k <= |es|
  {
    if k == 0 then start else es[k - 1].time
  }

  /** A step that leaves the current timer armed either kept it or scheduled it just now. */
  lemma StepTimers(g: Guard, e: Timed)
    requires Inv(g)
    ensures var r := Step(g, e); r.generation in r.timers ==>
      if r.generation == g.generation then r.timers == g.timers else r.timers[r.generation] == e.time
  {
  }

  /** If the timer of the current generation is armed, some state `k` scheduled it and no stream has
    * been active in any state since. */
  lemma {:induction false} ArmedSince(timeout: int, start: int, es: seq<Timed>) returns (k: nat)
    requires var g := Run(timeout, start, es); g.generation in g.timers
    ensures k <= |es|
    ensures var g := Run(timeout, start, es); g.timers[g.generation] == TimeOf(start, es, k)
    ensures forall j :: k <= j <= |es| ==> Run(timeout, start, es[..j]).active == 0
    decreases |es|
  {
    var g := Run(timeout, start, es);
    RunInv(timeout, start, es);
    assert es[..|es|] == es;
    if es == [] {
      k := 0;
    } else {
      var past := es[..|es| - 1];
      var before := Run(timeout, start, past);
      RunInv(timeout, start, past);
      StepTimers(before, es[|es| - 1]);
      if before.generation == g.generation {
        k := ArmedSince(timeout, start, past);
        forall j | k <= j <= |es| ensures Run(timeout, start, es[..j]).active == 0 {
          if j < |es| { assert past[..j] == es[..j]; }
        }
      } else {
        k := |es|;
      }
    }
  }

  /** Only a callback commits. */
  lemma OnlyFireCommits(g: Guard, e: Timed)
    requires !g.expired && Step(g, e).expired
    ensures e.event.Fire?
  {
  }

  /** Whatever commits is a callback, and it found a guard neither closed nor disarmed, on which no
    * stream was active in any state since its timer was scheduled, at least one timeout ago. */
  lemma CommitOnlyAfterIdleTimeout(timeout: int, start: int, es: seq<Timed>, e: Timed) returns (k: nat)
    requires !Run(timeout, start, es).expired && Step(Run(timeout, start, es), e).expired
    ensures e.event.Fire?
    ensures var g := Run(timeout, start, es); !g.closed && !g.disarmed
    ensures k <= |es| && e.time - TimeOf(start, es, k) >= timeout
    ensures forall j :: k <= j <= |es| ==> Run(timeout, start, es[..j]).active == 0
  {
    RunInv(timeout, start, es);
    KeepsTimeout(timeout, start, es);
    OnlyFireCommits(Run(timeout, start, es), e);
    k := ArmedSince(timeout, start, es);
  }

  lemma {:induction false} KeepsTimeout(timeout: int, start: int, es: seq<Timed>)
    ensures Run(timeout, start, es).timeout == timeout
    decreases |es|
  {
    if es != [] { KeepsTimeout(timeout, start, es[..|es| - 1]); }
  }

  predicate Happened(es: seq<Timed>, what: Event) {
    exists i :: 0 <= i < |es| && es[i].event == what
  }

  /** The streams under way: those admitted and not done, where a Done without one, or after Close, is void. */
  function Streams(timeout: int, start: int, es: seq<Timed>): nat
    decreases |es|
  {
    if es == [] then 0
    else
      var past, e := es[..|es| - 1], es[|es| - 1].event;
      var n := Streams(timeout, start, past);
      if e.Start? && !Happened(past, Close) && !Run(timeout, start, past).expired then n + 1
      else if e.Done? && !Happened(past, Close) && n > 0 then n - 1
      else n
  }

  lemma HappenedSnoc(es: seq<Timed>, what: Event)
    requires es != []
    ensures Happened(es, what) <==> Happened(es[..|es| - 1], what) || es[|es| - 1].event == what
  {
    var past := es[..|es| - 1];
    if Happened(past, what) {
      var i :| 0 <= i < |past| && past[i].event == what;
      assert es[i].event == what;
    }
  }

  /** What a guard holds is what was asked of it: closed and disarmed if it ever was told to be, and as many
    * streams as are under way. */
  lemma {:induction false} GuardFollowsCalls(timeout: int, start: int, es: seq<Timed>)
    ensures var g := Run(timeout, start, es);
      && (g.closed <==> Happened(es, Close)) && (g.disarmed <==> Happened(es, Disarm))
      && g.active == Streams(timeout, start, es)
    decreases |es|
  {
    if es != [] {
      GuardFollowsCalls(timeout, start, es[..|es| - 1]);
      HappenedSnoc(es, Close);
      HappenedSnoc(es, Disarm);
    }
  }

  /** A stream is admitted exactly while the guard is neither closed nor expired, disarmed or not. */
  lemma AdmitsIffOpen(timeout: int, start: int, es: seq<Timed>)
    ensures var g := Run(timeout, start, es);
      StartStep(g).1 <==> !Happened(es, Close) && !g.expired
  {
    GuardFollowsCalls(timeout, start, es);
  }

  /** When the guard last became idle. */
  function IdleSince(timeout: int, start: int, es: seq<Timed>): int
    decreases |es|
  {
    if es == [] then start
    else
      var past := es[..|es| - 1];
      if Run(timeout, start, es).active == 0 && Run(timeout, start, past).active != 0 then es[|es| - 1].time
      else IdleSince(timeout, start, past)
  }

  /** A step that leaves the guard idle, open and armed schedules a timer exactly if it made it idle. */
  lemma StepArms(g: Guard, e: Timed)
    requires Inv(g) && Step(g, e).generation in Step(g, e).timers
    ensures var r := Step(g, e);
      if g.active == 0 then g.generation in g.timers && r.timers[r.generation] == g.timers[g.generation]
      else r.timers[r.generation] == e.time
  {
  }

  lemma {:induction false} ArmedWhenIdle(timeout: int, start: int, es: seq<Timed>)
    requires var g := Run(timeout, start, es); g.active == 0 && !g.closed && !g.disarmed
    ensures var g := Run(timeout, start, es);
      g.generation in g.timers && g.timers[g.generation] == IdleSince(timeout, start, es)
    decreases |es|
  {
    RunInv(timeout, start, es);
    if es != [] {
      var past := es[..|es| - 1];
      RunInv(timeout, start, past);
      StepArms(Run(timeout, start, past), es[|es| - 1]);
      if Run(timeout, start, past).active == 0 { ArmedWhenIdle(timeout, start, past); }
    }
  }

  /** The last Done re-arms the guard: whenever it is idle, open and armed, the callback of its timer is
    * there, and expires it exactly from one timeout after the guard last became idle. */
  lemma ExpiresIffIdleForTimeout(timeout: int, start: int, es: seq<Timed>, time: int)
    requires var g := Run(timeout, start, es); g.active == 0 && !g.closed && !g.disarmed && !g.expired
    ensures var g := Run(timeout, start, es); var r := Step(g, At(time, Fire(g.generation)));
      && (r.expired <==> time - IdleSince(timeout, start, es) >= timeout)
      && (r.expired ==> r.owed == 1)
  {
    RunInv(timeout, start, es);
    KeepsTimeout(timeout, start, es);
    ArmedWhenIdle(timeout, start, es);
  }

  /** Once Close or Disarm has taken the lock, no callback commits any more; onExpire can still run
    * exactly as often as commits made before were owed. */
  lemma {:induction false} NoCommitAfterCloseOrDisarm(g: Guard, es: seq<Timed>)
    requires Inv(g) && (g.closed || g.disarmed)
    ensures var r := RunFrom(g, es);
      && (r.closed || r.disarmed) && r.expired == g.expired
      && r.calls + r.owed == g.calls + g.owed
    decreases |es|
  {
    if es != [] {
      var past := es[..|es| - 1];
      NoCommitAfterCloseOrDisarm(g, past);
      RunFromInv(g, past);
    }
  }

  /** So an onExpire call after Close or Disarm happens exactly when one was already owed then. */
  lemma CallAfterCloseIffOwed(g: Guard)
    requires Inv(g) && (g.closed || g.disarmed)
    ensures (exists es :: RunFrom(g, es).calls > g.calls) <==> g.owed > 0
  {
    forall es ensures RunFrom(g, es).calls <= g.calls + g.owed {
      NoCommitAfterCloseOrDisarm(g, es);
    }
    if g.owed > 0 {
      var one := [At(0, CallOnExpire)];
      assert one[..0] == [];
      assert RunFrom(g, one).calls == g.calls + 1;
    }
  }

  /** Such a call is possible: the callback commits, Close takes the lock, and only then is onExpire called. */
  lemma CloseCanOvertakeTheCall(start: int)
    ensures var g := Step(Step(NewGuard(1, start), At(start + 1, Fire(1))), At(start + 1, Close));
      g.closed && g.calls == 0 && Step(g, At(start + 1, CallOnExpire)).calls == 1
  {
  }

  /** After expiry every Start is refused and no stream is ever active again. */
  lemma {:induction false} ExpiredRefusesForever(g: Guard, es: seq<Timed>)
    requires Inv(g) && g.expired
    ensures var r := RunFrom(g, es); r.expired && r.active == 0 && !StartStep(r).1
    decreases |es|
  {
    if es != [] {
      ExpiredRefusesForever(g, es[..|es| - 1]);
      RunFromInv(g, es[..|es| - 1]);
    }
  }
}
