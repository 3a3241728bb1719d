/** The WSS session ticket: which broker fronts may be asked for one, and the deadline-bounded
  * ladder of requests with its single Retry-After wait. */
module TicketLadder {
  import opened Prelude
  import opened Text

  // Durations are in nanoseconds.
  const SECOND: int := 1_000_000_000
  const ATTEMPT_LIMIT: int := 5 * SECOND
  const DEFAULT_RETRY: int := 10 * SECOND
  const MAX_RETRY: int := 30 * SECOND
  const TOTAL_DEADLINE: int := 15 * SECOND

  datatype Error =
    | Status(code: int, retryAfter: int) | Other(what: string)
    | Protection | NoFronts | DeadlineExceeded | Cancelled

  datatype Reply = Ticket | Failed(error: Error, cancelled: bool)

  datatype Wait = Elapsed | Interrupted(after: nat)

  datatype Result = Got(front: string) | Err(error: Error)

  /** A request that was made: of which front, when, with what limit, and its reply. */
  datatype Ask = Ask(front: string, at: int, limit: int, reply: Reply)

  /** A wait that was begun. */
  datatype Pause = Pause(at: int, delay: int)

  // ---- The fronts ----

  predicate Eligible(unbound: string -> bool, front: string) {
    front != "" && !unbound(front)
  }

  /** The eligible values, each once, where it first occurs. */
  function Firsts(unbound: string -> bool, values: seq<string>): seq<string>
    decreases |values|
  {
    if values == [] then []
    else
      var past, v := Firsts(unbound, values[..|values| - 1]), values[|values| - 1];
      if Eligible(unbound, v) && v !in past then past + [v] else past
  }

  function Trims(urls: seq<string>): (r: seq<string>)
    ensures |r| == |urls| && forall i :: 0 <= i < |urls| ==> r[i] == TrimSpace(urls[i])
  {
    seq(|urls|, i requires 0 <= i < |urls| => TrimSpace(urls[i]))
  }

  method TicketBrokerFronts(primary: string, defaults: seq<string>, unbound: string -> bool)
    returns (fronts: seq<string>)
    ensures fronts == Firsts(unbound, Trims([primary] + defaults))
  {
    var urls := [primary] + defaults;
    ghost var values := Trims(urls);
    fronts := [];
    var seen: set<string> := {};
    for i := 0 to |urls|
      invariant forall s :: s in seen <==> s in fronts
      invariant fronts == Firsts(unbound, values[..i])
    {
      var value := TrimSpace(urls[i]);
      assert values[..i + 1][..i] == values[..i];
      if value == "" || unbound(value) || value in seen {
        continue;
      }
      seen := seen + {value};
      fronts := fronts + [value];
    }
    assert values[..|urls|] == values;
  }

  lemma {:induction false} FirstsMembers(unbound: string -> bool, values: seq<string>)
    ensures forall x :: x in Firsts(unbound, values) <==> x in values && Eligible(unbound, x)
    ensures forall j, k :: 0 <= j < k < |Firsts(unbound, values)| ==>
      Firsts(unbound, values)[j] != Firsts(unbound, values)[k]
    decreases |values|
  {
    if values != [] {
      FirstsMembers(unbound, values[..|values| - 1]);
      assert values == values[..|values| - 1] + [values[|values| - 1]];
    }
  }

  lemma {:induction false} FirstsPrefix(unbound: string -> bool, values: seq<string>, i: nat)
    requires i <= |values|
    ensures Firsts(unbound, values[..i]) <= Firsts(unbound, values)
    decreases |values|
  {
    if i == |values| {
      assert values[..i] == values;
    } else {
      FirstsPrefix(unbound, values[..|values| - 1], i);
      assert values[..|values| - 1][..i] == values[..i];
    }
  }

  /** Exactly the eligible fronts are asked, each in the order of its first mention, so none that
    * does not authenticate its endpoint, and the front that served the directory first whenever it
    * may be asked. */
  lemma FrontsAuthenticate(unbound: string -> bool, primary: string, defaults: seq<string>)
    ensures var values := Trims([primary] + defaults); var fronts := Firsts(unbound, values);
      && (forall x :: x in fronts <==> x in values && Eligible(unbound, x))
      && (forall x :: x in fronts ==> !unbound(x))
      && (forall j, k :: 0 <= j < k < |fronts| ==> fronts[j] != fronts[k])
      && (forall i :: 0 <= i <= |values| ==> Firsts(unbound, values[..i]) <= fronts)
      && (Eligible(unbound, TrimSpace(primary)) ==> fronts != [] && fronts[0] == TrimSpace(primary))
  {
    var values := Trims([primary] + defaults);
    FirstsMembers(unbound, values);
    forall i | 0 <= i <= |values| ensures Firsts(unbound, values[..i]) <= Firsts(unbound, values) {
      FirstsPrefix(unbound, values, i);
    }
    assert values[..1] == [TrimSpace(primary)];
    assert Firsts(unbound, values[..1]) <= Firsts(unbound, values);
  }

  // ---- The ladder ----

  function RetryAfter(e: Error): int {
    if e.Status? && (e.code == 429 || e.code == 503) then
      if e.retryAfter > 0 then e.retryAfter else DEFAULT_RETRY
    else 0
  }

  /** The longest wait any of the replies hints at. */
  function Hint(asks: seq<Ask>): int {
    if asks == [] then 0
    else
      var rest, reply := Hint(asks[..|asks| - 1]), asks[|asks| - 1].reply;
      if reply.Failed? && RetryAfter(reply.error) > rest then RetryAfter(reply.error) else rest
  }

  lemma HintSnoc(asks: seq<Ask>, n: nat, a: Ask)
    requires n <= |asks|
    ensures var hint := Hint(asks[n..]);
      Hint((asks + [a])[n..]) ==
      if a.reply.Failed? && RetryAfter(a.reply.error) > hint then RetryAfter(a.reply.error) else hint
  {
    assert (asks + [a])[n..] == asks[n..] + [a];
    assert (asks[n..] + [a])[..|asks| - n] == asks[n..];
  }

  /** A reply after which the next front is asked. */
  predicate Refuses(r: Reply) {
    r.Failed? && !r.cancelled && !r.error.Protection?
  }

  predicate Failures(asks: seq<Ask>) {
    asks == [] || (Failures(asks[..|asks| - 1]) && Refuses(asks[|asks| - 1].reply))
  }

  /** A request may take five seconds, or what is left of the budget if that is less. */
  function AttemptLimit(left: int): int { if left < ATTEMPT_LIMIT then left else ATTEMPT_LIMIT }

  /** The k-th request went to the next front in turn, within its limits, before the deadline. */
  predicate InTurn(fronts: seq<string>, deadline: int, replies: nat -> Reply, k: nat, a: Ask) {
    && k < 2 * |fronts|
    && a.front == fronts[if k < |fronts| then k else k - |fronts|]
    && 0 < a.limit == AttemptLimit(deadline - a.at)
    && a.reply == replies(k)
  }

  predicate AllInTurn(fronts: seq<string>, deadline: int, replies: nat -> Reply, asks: seq<Ask>) {
    asks == [] ||
    (&& AllInTurn(fronts, deadline, replies, asks[..|asks| - 1])
     && InTurn(fronts, deadline, replies, |asks| - 1, asks[|asks| - 1]))
  }

  /** What the two predicates say of each request. */
  lemma {:induction false} EachRequest(fronts: seq<string>, deadline: int, replies: nat -> Reply, asks: seq<Ask>)
    ensures AllInTurn(fronts, deadline, replies, asks) <==>
      forall k :: 0 <= k < |asks| ==> InTurn(fronts, deadline, replies, k, asks[k])
    ensures Failures(asks) <==> forall k :: 0 <= k < |asks| ==> Refuses(asks[k].reply)
    ensures AllInTurn(fronts, deadline, replies, asks) ==> |asks| <= 2 * |fronts|
  {
    if asks != [] { EachRequest(fronts, deadline, replies, asks[..|asks| - 1]); }
  }

  /** What a call may return after these requests: the ticket of the last one, the last one's
    * refused protection, the cancellation, or the first error of all. */
  predicate Answers(fronts: seq<string>, asks: seq<Ask>, waitCut: bool, r: Result) {
    if fronts == [] then asks == [] && r == Err(NoFronts)
    else if waitCut then Failures(asks) && r == Err(Cancelled)
    else if asks == [] then r == Err(DeadlineExceeded)
    else
      var last := asks[|asks| - 1];
      && Failures(asks[..|asks| - 1])
      && match last.reply
         case Ticket => r == Got(last.front)
         case Failed(e, cancelled) =>
           if e.Protection? then r == Err(Protection)
           else if cancelled then r == Err(Cancelled)
           else FirstError(asks).Some? && r == Err(FirstError(asks).value)
  }

  lemma InTurnSnoc(fronts: seq<string>, deadline: int, replies: nat -> Reply, asks: seq<Ask>, a: Ask)
    requires AllInTurn(fronts, deadline, replies, asks) && InTurn(fronts, deadline, replies, |asks|, a)
    ensures AllInTurn(fronts, deadline, replies, asks + [a])
  {
    assert (asks + [a])[..|asks|] == asks;
  }

  /** What the reply to one more request makes of the answer. */
  function Verdict(asks: seq<Ask>, a: Ask): Result
    requires Failures(asks) && (a.reply.Ticket? || !Refuses(a.reply))
  {
    if a.reply.Ticket? then Got(a.front)
    else if a.reply.error.Protection? then Err(Protection)
    else Err(Cancelled)
  }

  lemma AnswersSnoc(fronts: seq<string>, asks: seq<Ask>, a: Ask)
    requires fronts != [] && Failures(asks)
    ensures Failures(asks + [a]) <==> Refuses(a.reply)
    ensures !Refuses(a.reply) ==> Answers(fronts, asks + [a], false, Verdict(asks, a))
  {
    assert (asks + [a])[..|asks|] == asks;
  }

  lemma {:induction false} FirstRefused(asks: seq<Ask>)
    requires Failures(asks) && asks != []
    ensures Refuses(asks[0].reply) && FirstError(asks) == Some(asks[0].reply.error)
  {
    if |asks| > 1 { FirstRefused(asks[..|asks| - 1]); }
  }

  /** After failures only, the first error is the answer. */
  lemma FirstErrorAnswers(fronts: seq<string>, asks: seq<Ask>)
    requires fronts != [] && Failures(asks)
    ensures FirstError(asks).Some? <==> asks != []
    ensures Answers(fronts, asks, false, Err(if asks != [] then FirstError(asks).value else DeadlineExceeded))
  {
    if asks != [] { FirstRefused(asks); }
  }

  datatype Step = Done(result: Result) | Exhausted

  /** The error the ladder reports: the first ever seen. */
  function FirstError(asks: seq<Ask>): Option<Error> {
    if asks != [] && asks[0].reply.Failed? then Some(asks[0].reply.error) else None
  }

  lemma FirstErrorSnoc(asks: seq<Ask>, a: Ask)
    requires Failures(asks)
    ensures FirstError(asks).Some? <==> asks != []
    ensures FirstError(asks + [a]) == if asks == [] && a.reply.Failed? then Some(a.reply.error) else FirstError(asks)
  {
    if asks != [] { FirstRefused(asks); }
  }

  /** One request, cut to what is left of the shared budget. */
  method Attempt(front: string, deadline: int, start: int, reply: Reply, took: nat) returns (a: Ask, now: int)
    requires start < deadline
    ensures a.front == front && a.at == start && a.reply == reply
    ensures 0 < a.limit == AttemptLimit(deadline - start) <= deadline - start
    ensures start <= now <= start + a.limit
  {
    var limit := ATTEMPT_LIMIT;
    if deadline - start < limit {
      limit := deadline - start;
    }
    a := Ask(front, start, limit, reply);
    now := start + if took < limit then took else limit;
  }

  /** No request from the `k`-th on was made before that time. */
  predicate NoneBefore(asks: seq<Ask>, k: nat, time: int) {
    forall i :: k <= i < |asks| ==> time <= asks[i].at
  }

  /** One round over the fronts. `asked` holds the requests already made, `first` their first error. */
  method AskFronts(fronts: seq<string>, deadline: int, start: int, asked: seq<Ask>, first: Option<Error>,
                   replies: nat -> Reply, took: nat -> nat)
    returns (step: Step, now: int, asks: seq<Ask>, firstErr: Option<Error>, retryAfter: int)
    requires |asked| == 0 || |asked| == |fronts|
    requires fronts != [] && start <= deadline
    requires AllInTurn(fronts, deadline, replies, asked) && Failures(asked) && first == FirstError(asked)
    ensures |asked| <= |asks| <= |asked| + |fronts| && asks[..|asked|] == asked && start <= now <= deadline
    ensures AllInTurn(fronts, deadline, replies, asks)
    ensures step.Done? ==> Answers(fronts, asks, false, step.result)
    ensures step.Done? && Failures(asks) ==> now == deadline
    ensures step.Exhausted? ==> Failures(asks) && |asks| == |asked| + |fronts|
    ensures step.Exhausted? ==> firstErr == FirstError(asks) && retryAfter == Hint(asks[|asked|..])
    ensures NoneBefore(asks, |asked|, start)
  {
    now, asks, firstErr, retryAfter := start, asked, first, 0;
    for index := 0 to |fronts|
      invariant |asks| == |asked| + index && asks[..|asked|] == asked && start <= now <= deadline
      invariant AllInTurn(fronts, deadline, replies, asks) && Failures(asks)
      invariant firstErr == FirstError(asks) && retryAfter == Hint(asks[|asked|..])
      invariant NoneBefore(asks, |asked|, start)
    {
      var remaining := deadline - now;
      if remaining <= 0 {
        FirstErrorAnswers(fronts, asks);
        step := Done(Err(if firstErr.Some? then firstErr.value else DeadlineExceeded));
        return;
      }
      var a;
      a, now := Attempt(fronts[index], deadline, now, replies(|asks|), took(|asks|));
      InTurnSnoc(fronts, deadline, replies, asks, a);
      AnswersSnoc(fronts, asks, a);
      HintSnoc(asks, |asked|, a);
      FirstErrorSnoc(asks, a);
      asks := asks + [a];
      var reply := a.reply;
      if reply.Ticket? {
        step := Done(Got(fronts[index]));
        return;
      }
      if reply.error.Protection? {
        step := Done(Err(Protection));
        return;
      }
      if firstErr.None? {
        firstErr := Some(reply.error);
      }
      var delay := RetryAfter(reply.error);
      if delay > retryAfter {
        retryAfter := delay;
      }
      if reply.cancelled {
        step := Done(Err(Cancelled));
        return;
      }
    }
    step := Exhausted;
  }

  /** The wait a refused round asks for, up to the cap. */
  function Capped(hint: int): int {
    if hint > MAX_RETRY then MAX_RETRY else hint
  }

  /** When a call may end with every request refused: out of time, after both rounds, or after one
    * round if no wait is hinted at, the pass's wait is spent, or the wait does not fit. */
  predicate MayGiveUp(fronts: seq<string>, deadline: int, now: int, asks: seq<Ask>, used: bool) {
    || now == deadline
    || |asks| == 2 * |fronts|
    || (|asks| == |fronts| && (used || Hint(asks) <= 0 || Capped(Hint(asks)) >= deadline - now))
  }

  /** The waits of a call: at most one, begun after a whole failed round that hinted at one, never
    * longer than the cap, and strictly inside the budget. */
  predicate PausesOk(fronts: seq<string>, deadline: int, asks: seq<Ask>, pauses: seq<Pause>) {
    && |pauses| <= 1
    && (|asks| > |fronts| ==> |pauses| == 1)
    && (|pauses| == 1 ==>
          && |asks| >= |fronts| && Failures(asks[..|fronts|])
          && 0 < pauses[0].delay < deadline - pauses[0].at
          && pauses[0].delay == Capped(Hint(asks[..|fronts|])))
  }

  /** What one call of the ticket ladder meets. */
  datatype Call = Call(
    fronts: seq<string>,
    budget: int,
    start: int,
    replies: nat -> Reply,
    took: nat -> nat,
    wait: Wait)

  /** The connection's share of the ladder's state. */
  class Connection {
    var ticketRetryUsed: bool

    constructor ()
      ensures !ticketRetryUsed
    {
      ticketRetryUsed := false;
    }

    /** `replies(k)` and `took(k)` are the k-th request's reply and duration; a request never outlasts
      * its limit. `budget` not positive means the default. */
    method RequestSessionTicket(fronts: seq<string>, budget: int, start: int,
                                replies: nat -> Reply, took: nat -> nat, wait: Wait)
      returns (result: Result, now: int, asks: seq<Ask>, pauses: seq<Pause>)
      modifies this
      ensures var deadline := start + if budget <= 0 then TOTAL_DEADLINE else budget;
        && start <= now <= deadline
        && AllInTurn(fronts, deadline, replies, asks)
        && PausesOk(fronts, deadline, asks, pauses)
        && (|pauses| == 1 ==> NoneBefore(asks, |fronts|, pauses[0].at + pauses[0].delay))
        && (|pauses| == 1 <==> ticketRetryUsed != old(ticketRetryUsed))
        && (Failures(asks) && (|pauses| == 0 || wait.Elapsed?) && fronts != [] ==>
              MayGiveUp(fronts, deadline, now, asks, old(ticketRetryUsed)))
      ensures old(ticketRetryUsed) ==> ticketRetryUsed
      ensures |asks| <= 2 * |fronts|
      ensures Answers(fronts, asks, |pauses| == 1 && |asks| == |fronts| && wait.Interrupted?, result)
    {
      now, asks, pauses := start, [], [];
      if fronts == [] {
        return Err(NoFronts), now, asks, pauses;
      }
      var deadline := start + if budget <= 0 then TOTAL_DEADLINE else budget;
      var firstErr: Option<Error> := None;
      var round := 0;
      while round < 2
        invariant 0 <= round < 2
        invariant |asks| == round * |fronts| && |pauses| == round
        invariant start <= now <= deadline
        invariant AllInTurn(fronts, deadline, replies, asks) && Failures(asks) && firstErr == FirstError(asks)
        invariant PausesOk(fronts, deadline, asks, pauses)
        invariant ticketRetryUsed == (round == 1 || old(ticketRetryUsed))
        invariant round == 1 ==> !old(ticketRetryUsed) && wait.Elapsed? && now == pauses[0].at + pauses[0].delay
      {
        ghost var asked := asks;
        var step, retryAfter;
        step, now, asks, firstErr, retryAfter := AskFronts(fronts, deadline, now, asks, firstErr, replies, took);
        assert round == 1 ==> asked[..|fronts|] == asked;
        if step.Done? {
          return step.result, now, asks, pauses;
        }
        FirstErrorAnswers(fronts, asks);
        assert round == 0 ==> asks[0..] == asks;
        if round > 0 || retryAfter <= 0 || ticketRetryUsed {
          return Err(firstErr.value), now, asks, pauses;
        }
        if retryAfter > MAX_RETRY {
          retryAfter := MAX_RETRY;
        }
        if retryAfter >= deadline - now {
          return Err(firstErr.value), now, asks, pauses;
        }
        ticketRetryUsed := true;
        assert asks[0..] == asks[..|fronts|] == asks;
        pauses := pauses + [Pause(now, retryAfter)];
        if wait.Interrupted? {
          now := now + if wait.after < retryAfter then wait.after else retryAfter;
          return Err(Cancelled), now, asks, pauses;
        }
        now := now + retryAfter;
        round := round + 1;
      }
      assert false;
    }

    /** One pass over the relay ladder, with the ticket calls of all its rungs: at most one of them
      * waits. */
    method RunLadder(calls: seq<Call>) returns (results: seq<Result>, pauses: seq<Pause>)
      modifies this
      ensures |results| == |calls|
      ensures |pauses| <= 1
      ensures ticketRetryUsed <==> |pauses| == 1
    {
      ticketRetryUsed := false;
      results, pauses := [], [];
      for i := 0 to |calls|
        invariant |results| == i
        invariant |pauses| == if ticketRetryUsed then 1 else 0
      {
        var c := calls[i];
        var result, now, asks, waited := RequestSessionTicket(c.fronts, c.budget, c.start, c.replies, c.took, c.wait);
        results, pauses := results + [result], pauses + waited;
      }
    }
  }
}
