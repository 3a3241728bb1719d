/** The staggered two-phase broker race, as a scheduler over ticks, answers and cancellation.
  *
  * A phase starts its first attempt at once and one more on every tick; each attempt is a worker
  * that sends its one answer into a channel buffered for every attempt. FirstReachable runs a
  * genuine override alone, then the endpoint-bound phase, then the endpoint-unbound phase.
  * A disabled event leaves the state alone, so `Exec` covers every schedule.
  */
module BrokerRace {
  import opened Prelude

  /** What one relay-list request came back with. */
  datatype Answer = Verified(list: string) | Refused(error: string)

  datatype Worker = Idle | Running | Sent(answer: Answer) | Received(answer: Answer)

  datatype Report = Report(index: nat, answer: Answer)

  datatype PhaseEnd = Won(index: nat, list: string) | Lost(error: Option<string>) | Cut

  /** One racePhase call; a missing entry of `errs` is a nil error. The phase outlives its own end:
    * the workers it leaves behind still answer. */
  datatype Phase = Phase(
    workers: seq<Worker>,
    started: nat,
    channel: seq<Report>,
    failed: nat,
    errs: seq<Option<string>>,
    end: Option<PhaseEnd>)

  datatype PhaseEvent = Tick | Reply(index: nat, answer: Answer) | Take | SeeCancel

  /** racePhase up to its loop: the first attempt is started, the others wait for ticks. */
  function OpenPhase(n: nat): Phase
    requires n > 0
  {
    Phase([Running] + seq(n - 1, i => Idle), 1, [], 0, seq(n, i => None), None)
  }

  function Receive(p: Phase): Phase
    requires p.channel != [] && p.channel[0].index < |p.workers|
  {
    p.(workers := p.workers[p.channel[0].index := Received(p.channel[0].answer)], channel := p.channel[1..])
  }

  function CountRefusal(p: Phase, i: nat, error: string): Phase
    requires i < |p.errs|
  {
    var counted := p.(failed := p.failed + 1, errs := p.errs[i := Some(error)]);
    if counted.failed == |p.workers| then counted.(end := Some(Lost(counted.errs[0]))) else counted
  }

  function PhaseStep(p: Phase, cancelled: bool, e: PhaseEvent): Phase {
    match e
    case Tick =>
      if p.end.None? && p.started < |p.workers| then
        p.(workers := p.workers[p.started := Running], started := p.started + 1)
      else p
    case Reply(i, a) =>
      if i < |p.workers| && p.workers[i].Running? then
        p.(workers := p.workers[i := Sent(a)], channel := p.channel + [Report(i, a)])
      else p
    case Take =>
      if p.end.None? && p.channel != [] && p.channel[0].index < |p.workers| == |p.errs| then
        match p.channel[0].answer
        case Verified(list) => Receive(p).(end := Some(Won(p.channel[0].index, list)))
        case Refused(error) => CountRefusal(Receive(p), p.channel[0].index, error)
      else p
    case SeeCancel =>
      if p.end.None? && cancelled then p.(end := Some(Cut)) else p
  }

  // ---- Phase invariant ----

  /** The workers whose answer is waiting in the channel. */
  function Waiting(p: Phase): set<nat> {
    set i: nat | i < |p.workers| && p.workers[i].Sent?
  }

  function Taken(p: Phase): set<nat> {
    set i: nat | i < |p.workers| && p.workers[i].Received?
  }

  function Indices(channel: seq<Report>): set<nat> {
    set k | 0 <= k < |channel| :: channel[k].index
  }

  /** Every worker past `started` is idle and no other is, and the channel holds each sent answer once. */
  predicate WorkersOk(p: Phase) {
    && 1 <= p.started <= |p.workers|
    && (forall i :: 0 <= i < |p.workers| ==> (p.workers[i].Idle? <==> p.started <= i))
    && (forall k :: 0 <= k < |p.channel| ==>
          p.channel[k].index < |p.workers| && p.workers[p.channel[k].index] == Sent(p.channel[k].answer))
    && (forall j, k :: 0 <= j < k < |p.channel| ==> p.channel[j].index != p.channel[k].index)
    && Indices(p.channel) == Waiting(p)
  }

  predicate AllRefused(p: Phase) {
    forall i :: 0 <= i < |p.workers| ==> p.workers[i].Received? && p.workers[i].answer.Refused?
  }

  /** The bookkeeping agrees with what was received, and an end is backed by it. */
  predicate TallyOk(p: Phase) {
    && |p.errs| == |p.workers|
    && (forall i :: 0 <= i < |p.workers| && p.workers[i].Received? && p.workers[i].answer.Refused? ==>
          p.errs[i] == Some(p.workers[i].answer.error))
    && (p.end.None? ==>
          && p.failed == |Taken(p)| && p.failed < |p.workers|
          && (forall i :: 0 <= i < |p.workers| && p.workers[i].Received? ==> p.workers[i].answer.Refused?))
    && (p.end.Some? && p.end.value.Lost? ==> AllRefused(p) && 0 < |p.workers| && p.end.value.error == p.errs[0])
    && (p.end.Some? && p.end.value.Won? ==>
          p.end.value.index < |p.workers| && p.workers[p.end.value.index] == Received(Verified(p.end.value.list)))
  }

  predicate PhaseInv(p: Phase) {
    WorkersOk(p) && TallyOk(p)
  }

  lemma OpenPhaseInv(n: nat)
    requires n > 0
    ensures PhaseInv(OpenPhase(n))
  {
    assert Taken(OpenPhase(n)) == {};
  }

  lemma TickInv(p: Phase, cancelled: bool)
    requires PhaseInv(p)
    ensures PhaseInv(PhaseStep(p, cancelled, Tick))
  {
    var r := PhaseStep(p, cancelled, Tick);
    assert Waiting(r) == Waiting(p) && Taken(r) == Taken(p);
  }

  lemma ReplyInv(p: Phase, cancelled: bool, i: nat, a: Answer)
    requires PhaseInv(p)
    ensures PhaseInv(PhaseStep(p, cancelled, Reply(i, a)))
  {
    var r := PhaseStep(p, cancelled, Reply(i, a));
    if r != p {
      assert Taken(r) == Taken(p);
      assert Waiting(r) == Waiting(p) + {i};
      assert r.channel[..|p.channel|] == p.channel && r.channel[|p.channel|] == Report(i, a);
      IndicesAppend(p.channel, Report(i, a));
    }
  }

  lemma IndicesAppend(channel: seq<Report>, r: Report)
    ensures Indices(channel + [r]) == Indices(channel) + {r.index}
  {
    var all := channel + [r];
    forall x | x in Indices(channel) + {r.index} ensures x in Indices(all) {
      if x in Indices(channel) {
        var k :| 0 <= k < |channel| && channel[k].index == x;
        assert all[k].index == x;
      } else {
        assert all[|channel|].index == x;
      }
    }
  }

  lemma IndicesTail(channel: seq<Report>)
    requires channel != []
    requires forall j, k :: 0 <= j < k < |channel| ==> channel[j].index != channel[k].index
    ensures Indices(channel[1..]) == Indices(channel) - {channel[0].index}
  {
    forall x | x in Indices(channel) - {channel[0].index} ensures x in Indices(channel[1..]) {
      var k :| 0 <= k < |channel| && channel[k].index == x;
      assert channel[1..][k - 1].index == x;
    }
  }

  /** As many distinct indices below `n` as `n` are all of them. */
  lemma {:induction false} AllOfThem(s: set<nat>, n: nat)
    requires forall x :: x in s ==> x < n
    ensures |s| <= n
    ensures |s| == n ==> forall x :: 0 <= x < n ==> x in s
  {
    if n > 0 {
      AllOfThem(s - {n - 1}, n - 1);
    } else {
      assert s == {};
    }
  }

  lemma ReceiveWorkers(p: Phase)
    requires WorkersOk(p) && p.channel != []
    ensures WorkersOk(Receive(p))
  {
    IndicesTail(p.channel);
    assert Waiting(Receive(p)) == Waiting(p) - {p.channel[0].index};
  }

  lemma TakeWorkers(p: Phase, cancelled: bool)
    requires PhaseInv(p)
    ensures WorkersOk(PhaseStep(p, cancelled, Take))
  {
    if p.channel != [] {
      ReceiveWorkers(p);
      var r := PhaseStep(p, cancelled, Take);
      assert r.channel == p.channel || r.channel == Receive(p).channel;
      assert Waiting(r) == Waiting(p) || Waiting(r) == Waiting(Receive(p));
    }
  }

  lemma ReceiveTaken(p: Phase)
    requires WorkersOk(p) && p.channel != []
    ensures Taken(Receive(p)) == Taken(p) + {p.channel[0].index} && p.channel[0].index !in Taken(p)
  {
  }

  lemma TakeTally(p: Phase, cancelled: bool)
    requires PhaseInv(p)
    ensures TallyOk(PhaseStep(p, cancelled, Take))
  {
    if p.end.None? && p.channel != [] && p.channel[0].answer.Refused? {
      TakeRefusal(p);
    }
  }

  lemma TakeRefusal(p: Phase)
    requires PhaseInv(p) && p.end.None? && p.channel != [] && p.channel[0].answer.Refused?
    ensures TallyOk(CountRefusal(Receive(p), p.channel[0].index, p.channel[0].answer.error))
  {
    var q := Receive(p);
    ReceiveTaken(p);
    AllOfThem(Taken(q), |q.workers|);
    forall j | 0 <= j < |q.workers| && q.workers[j].Received? ensures q.workers[j].answer.Refused? {
      assert j == p.channel[0].index || p.workers[j].Received?;
    }
    if |Taken(q)| == |q.workers| {
      forall j | 0 <= j < |q.workers| ensures q.workers[j].Received? { assert j in Taken(q); }
    }
    var r := CountRefusal(q, p.channel[0].index, p.channel[0].answer.error);
    assert Taken(r) == Taken(q);
  }

  lemma PhaseStepInv(p: Phase, cancelled: bool, e: PhaseEvent)
    requires PhaseInv(p)
    ensures PhaseInv(PhaseStep(p, cancelled, e))
  {
    match e {
      case Tick => TickInv(p, cancelled);
      case Reply(i, a) => ReplyInv(p, cancelled, i, a);
      case Take => TakeWorkers(p, cancelled); TakeTally(p, cancelled);
      case SeeCancel =>
        assert Waiting(PhaseStep(p, cancelled, e)) == Waiting(p);
    }
  }

  /** The channel never needs more room than it has, however late the workers answer. */
  lemma ChannelFits(p: Phase)
    requires PhaseInv(p)
    ensures |p.channel| <= |p.workers|
    ensures forall i: nat :: i < |p.workers| && p.workers[i].Running? ==> |p.channel| < |p.workers|
  {
    IndexCount(p.channel);
    AllOfThem(Waiting(p), |p.workers|);
    forall i: nat | i < |p.workers| && p.workers[i].Running? ensures |p.channel| < |p.workers| {
      assert i !in Waiting(p);
    }
  }

  lemma {:induction false} IndexCount(channel: seq<Report>)
    requires forall j, k :: 0 <= j < k < |channel| ==> channel[j].index != channel[k].index
    ensures |Indices(channel)| == |channel|
  {
    if channel == [] {
      assert Indices(channel) == {};
    } else {
      IndexCount(channel[1..]);
      IndicesTail(channel);
      assert channel[0].index in Indices(channel);
    }
  }

  /** A phase that has not ended is never stuck: a tick is armed, an attempt is under way or an answer waits. */
  lemma PhaseNotStuck(p: Phase)
    requires PhaseInv(p) && p.end.None?
    ensures p.started < |p.workers| || p.channel != [] || exists i: nat :: i < |p.workers| && p.workers[i].Running?
  {
    if p.started == |p.workers| && p.channel == [] && forall i: nat :: i < |p.workers| ==> !p.workers[i].Running? {
      assert Indices(p.channel) == {};
      forall i: nat | i < |p.workers| ensures p.workers[i].Received? {
        assert i !in Waiting(p);
      }
      FullCount(Taken(p), |p.workers|);
    }
  }

  lemma {:induction false} FullCount(s: set<nat>, n: nat)
    requires forall x :: x in s <==> 0 <= x < n
    ensures |s| == n
  {
    if n > 0 {
      FullCount(s - {n - 1}, n - 1);
    } else {
      assert s == {};
    }
  }

  /** What no later event takes back: an end, an answer received, an exhausted phase. */
  lemma PhaseStepKeeps(p: Phase, cancelled: bool, e: PhaseEvent)
    requires PhaseInv(p)
    ensures var q := PhaseStep(p, cancelled, e);
      && |q.workers| == |p.workers|
      && (q.started == p.started || (q.started == p.started + 1 && p.end.None?))
      && (p.end.Some? ==> q.end == p.end)
      && (forall i :: 0 <= i < |p.workers| && p.workers[i].Received? ==> q.workers[i] == p.workers[i])
      && (AllRefused(p) ==> q.workers == p.workers)
      && (q.end == Some(Cut) ==> p.end == Some(Cut) || cancelled)
  {
  }
}
