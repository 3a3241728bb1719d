/** Per-user relay access: which credential a promoted relay carries, and whether a lease renewer
  * runs for it, over first connects, recoveries and public fallbacks. */
module Lease {
  import opened Ladder
  import opened Prelude
  import opened Ranker

  const MAX_ACCESS_RELAYS: nat := 5

  datatype Outcome =
    | Unset | Granted | NoKey | NotRequested | Unsupported | FrontUnbound | Denied
    | Unapplied | RateLimited | Empty | Failure | FallbackPublic | EnrollmentRefused

  datatype AccessLease = AccessLease(expiresAt: int, lifetime: int, front: string) {
    predicate Valid() { expiresAt != 0 && lifetime > 0 }
  }

  const NO_LEASE := AccessLease(0, 0, "")

  /** What a broker does with an access request. `received` is when its answer arrived. */
  datatype Answer =
    | Relays(relays: seq<Relay>, lifetime: int, received: nat)
    | Cancelled | Disabled | NotEnrolled | NoEndpoint | NotApplied | Limited | Broken

  /** The client refuses an answer with too many relays, or with relays but no live lease. */
  function Decoded(a: Answer): Answer {
    if a.Relays? && (|a.relays| > MAX_ACCESS_RELAYS || (a.relays != [] && a.lifetime <= 0)) then Broken else a
  }

  /** The answers that end a fetch. */
  predicate Stops(a: Answer) { a.Cancelled? || a.Disabled? }

  datatype AccessResult = Use(relays: seq<Relay>) | UsePublic | Stop

  datatype PublicList = PublicList(front: string, relays: seq<Relay>)

  datatype Fetched = Fetched(relays: seq<Relay>) | FetchFailed(rateLimited: bool)

  /** What one fetch meets: the installation, the pinned front, and the discovery race. */
  datatype FetchWorld = FetchWorld(
    hasKey: bool, expressible: bool,
    pinnedUnbound: bool, pinned: Answer,
    race: Option<PublicList>, raceLimited: bool,
    racedUnbound: bool, raced: Answer)

  datatype Attempt = Up | Down | LocalFault | Stopped

  datatype Run = Won(relay: Relay) | Lost(local: bool, cancelled: bool)

  /** The outcomes after which the public list is used and a fetch may still ask another front. */
  const REFUSALS: set<Outcome> := {FrontUnbound, EnrollmentRefused, Unapplied, RateLimited, Empty, Failure}

  /** The token each way an access request can go is reported by. */
  function OutcomeOf(unbound: bool, a: Answer, issue: Credential, wants: Relay -> bool, before: Outcome): Outcome {
    if unbound then FrontUnbound
    else match a
      case Relays(relays, _, _) => if Filter(Map(relays, Give(issue)), wants, true) == [] then Empty else Granted
      case Cancelled => before
      case Disabled => Denied
      case NotEnrolled => EnrollmentRefused
      case NoEndpoint => Unsupported
      case NotApplied => Unapplied
      case Limited => RateLimited
      case Broken => Failure
  }

  /** The front issues credentials for a relay the connect wants. */
  predicate Grants(unbound: bool, raw: Answer, issue: Credential, wants: Relay -> bool) {
    !unbound && Decoded(raw).Relays? && Filter(Map(raw.relays, Give(issue)), wants, true) != []
  }

  // ---- Credentials ----

  predicate AllCarry(list: seq<Relay>, c: Credential) {
    forall i :: 0 <= i < |list| ==> list[i].credential == c
  }

  function Give(c: Credential): Relay -> Relay { (r: Relay) => r.(credential := c) }

  lemma PermutedCarry(a: seq<Relay>, b: seq<Relay>, c: Credential)
    requires multiset(a) == multiset(b) && AllCarry(a, c)
    ensures AllCarry(b, c)
  {
    forall i | 0 <= i < |b| ensures b[i].credential == c {
      assert b[i] in multiset(b);
      assert b[i] in a;
    }
  }

  lemma FilteredCarry(a: seq<Relay>, p: Relay -> bool, want: bool, c: Credential)
    requires AllCarry(a, c)
    ensures AllCarry(Filter(a, p, want), c)
  {
    FilterMembers(a, p, want);
    forall i | 0 <= i < |Filter(a, p, want)| ensures Filter(a, p, want)[i].credential == c {
      assert Filter(a, p, want)[i] in Filter(a, p, want);
    }
  }

  lemma AdaptedCarry(known: map<string, Endpoint>, cands: seq<Relay>, lacksV6: bool, c: Credential)
    requires Remembered(known) && AllCarry(cands, c)
    ensures AllCarry(Adapt(known, cands, lacksV6), c)
  {
    if lacksV6 {
      AdaptKeepsRelays(known, cands, lacksV6);
      PermutedCarry(Map(cands, Rewrite(known)), Adapt(known, cands, lacksV6), c);
    }
  }

  lemma AdaptKeepsCount(known: map<string, Endpoint>, cands: seq<Relay>, lacksV6: bool)
    ensures |Adapt(known, cands, lacksV6)| == |cands|
  {
    if lacksV6 {
      var rewritten := Map(cands, Rewrite(known));
      PartitionPermutes(rewritten, IsV6());
      assert |multiset(Partition(rewritten, IsV6()))| == |Partition(rewritten, IsV6())|;
      assert |multiset(rewritten)| == |rewritten|;
    }
  }

  // ---- The ladder ----

  ghost predicate FirstUp(attempts: nat -> Attempt, k: nat) {
    attempts(k).Up? && forall j: nat :: j < k ==> attempts(j).Down?
  }

  /** The walk from candidate `i` on: the first that does not just fail decides it. */
  function Climbed(cands: seq<Relay>, attempts: nat -> Attempt, i: nat): Run
    decreases |cands| - i
  {
    if i >= |cands| then Lost(false, false)
    else match attempts(i)
      case Up => Won(cands[i])
      case Stopped => Lost(false, true)
      case LocalFault => Lost(true, false)
      case Down => Climbed(cands, attempts, i + 1)
  }

  /** Walks the candidates in order: the first that comes up wins, and a local fault or a
    * cancellation ends the walk. */
  method RunLadder(cands: seq<Relay>, attempts: nat -> Attempt) returns (run: Run)
    ensures run == Climbed(cands, attempts, 0)
    ensures run.Won? <==> exists k: nat :: k < |cands| && FirstUp(attempts, k)
    ensures run.Won? ==> exists k: nat :: k < |cands| && FirstUp(attempts, k) && run.relay == cands[k]
  {
    var i := 0;
    while i < |cands|
      invariant 0 <= i <= |cands| && Climbed(cands, attempts, 0) == Climbed(cands, attempts, i)
      invariant forall j: nat :: j < i ==> attempts(j).Down?
    {
      match attempts(i) {
        case Up =>
          assert FirstUp(attempts, i);
          return Won(cands[i]);
        case Stopped => return Lost(false, true);
        case LocalFault => return Lost(true, false);
        case Down =>
      }
      i := i + 1;
    }
    run := Lost(false, false);
  }

  /** Ranks a list and, on a recovery, demotes the relay that failed. */
  method Order(list: seq<Relay>, identity: bool, probe: nat -> Option<nat>, failed: Option<string>)
    returns (ladder: seq<Relay>)
    ensures multiset(ladder) == multiset(list)
    ensures var ranked := InRanking(list, LadderMeasured(identity, seq(|list|, probe)));
      ladder == if failed.Some? then Partition(ranked, Is(failed.value)) else ranked
  {
    var probes := seq(|list|, probe);
    var ranked := RankLadder(list, identity, probes);
    RankedPermutes(list, LadderMeasured(identity, probes));
    ladder := Candidates(ranked);
    assert ladder == InRanking(list, LadderMeasured(identity, probes));
    if failed.Some? {
      ladder := DemoteRelay(ladder, failed.value);
    }
  }

  /** That order, as a value. */
  function Ordered(list: seq<Relay>, w: LadderWorld, failed: Option<string>): seq<Relay> {
    var ranked := InRanking(list, LadderMeasured(w.identity, seq(|list|, w.probe)));
    if failed.Some? then Partition(ranked, Is(failed.value)) else ranked
  }

  function TriedIn(tried: seq<Relay>): Relay -> bool { (r: Relay) => r.id in Map(tried, IdOf()) }

  /** The candidates whose relays were not tried, in order. */
  method NotTried(cands: seq<Relay>, tried: seq<Relay>) returns (remaining: seq<Relay>)
    ensures remaining == Filter(cands, TriedIn(tried), false)
  {
    var skip := set i | 0 <= i < |tried| :: tried[i].id;
    assert forall id :: id in skip <==> id in Map(tried, IdOf());
    remaining := [];
    for i := 0 to |cands|
      invariant remaining == Filter(cands[..i], TriedIn(tried), false)
    {
      assert cands[..i + 1][..i] == cands[..i];
      if cands[i].id !in skip {
        remaining := remaining + [cands[i]];
      }
    }
    assert cands[..|cands|] == cands;
  }

  /** Untried public candidates, ranked, with the failed relay last. */
  method Walk(remaining: seq<Relay>, w: LadderWorld, failedId: string) returns (run: Run)
    requires remaining != []
    ensures run.Won? ==> run.relay in remaining
    ensures w.publicAttempts(0).Up? ==> run.Won?
    ensures run == Climbed(Ordered(remaining, w, Some(failedId)), w.publicAttempts, 0)
  {
    var ladder := Order(remaining, w.identity, w.probe, Some(failedId));
    assert |multiset(ladder)| == |ladder| && |multiset(remaining)| == |remaining|;
    assert w.publicAttempts(0).Up? ==> FirstUp(w.publicAttempts, 0);
    run := RunLadder(ladder, w.publicAttempts);
    if run.Won? {
      assert run.relay in multiset(ladder);
    }
  }

  /** What one recovery or first connect meets after its fetch. */
  datatype LadderWorld = LadderWorld(
    wants: Relay -> bool, lacksV6: bool, identity: bool, probe: nat -> Option<nat>,
    attempts: nat -> Attempt, refetch: Option<PublicList>,
    retries: nat -> Attempt, publicAttempts: nat -> Attempt)

  /** The public list a fallback walks: the one the race returned, else a fresh one. */
  function PublicOf(kept: Option<seq<Relay>>, w: LadderWorld): Option<seq<Relay>> {
    if kept.Some? then kept else if w.refetch.Some? then Some(Map(w.refetch.value.relays, Give(Shared))) else None
  }

  /** Access is asked for: there is a key, the broker is not known to lack access, and the target can be
    * expressed to it. */
  predicate Wanted(w: FetchWorld, unsupported: bool) { w.hasKey && !unsupported && w.expressible }

  /** Why it is not. */
  function Unasked(w: FetchWorld, unsupported: bool): Outcome {
    if !w.hasKey then NoKey else if unsupported then Unsupported else NotRequested
  }

  /** The race is won by a front that has not been asked yet, and that front grants access. */
  predicate RacedGrants(w: FetchWorld, asked: string, wants: Relay -> bool, fetch: nat) {
    w.race.Some? && w.race.value.front != asked && Grants(w.racedUnbound, w.raced, Leased(fetch), wants)
  }

  /** The pinned front's answer ends the fetch, or says that the broker has no access endpoint. */
  predicate PinnedEnds(w: FetchWorld) {
    !w.pinnedUnbound && (Stops(w.pinned) || w.pinned.NoEndpoint?)
  }

  /** The relays a fetch has leases for: those of the pinned front if it grants access, else those of the
    * winner of the race if that front does. */
  function AccessDue(w: FetchWorld, front: string, unsupported: bool, wants: Relay -> bool, fetch: nat)
    : Option<seq<Relay>>
  {
    if !Wanted(w, unsupported) then None
    else if front != "" && Grants(w.pinnedUnbound, w.pinned, Leased(fetch), wants) then Some(w.pinned.relays)
    else if front != "" && PinnedEnds(w) then None
    else if RacedGrants(w, front, wants, fetch) then Some(w.raced.relays)
    else None
  }

  /** The public list has a candidate that was not tried. */
  predicate Untried(known: map<string, Endpoint>, public: seq<Relay>, tried: seq<Relay>, w: LadderWorld) {
    exists r :: r in Adapt(known, Filter(public, w.wants, true), w.lacksV6) && r.id !in Map(tried, IdOf())
  }

  /** The leased relays that a newly learned endpoint is worth one more attempt, the failed one last. */
  function Retries(tried: seq<Relay>, before: map<string, Endpoint>, known: map<string, Endpoint>, failedId: string)
    : seq<Relay>
  {
    Partition(Map(Filter(tried, RetriedIn(before, known), true), Moved(known)), Is(failedId))
  }

  /** The candidates of the public list that were not tried. */
  function Remaining(known: map<string, Endpoint>, public: seq<Relay>, tried: seq<Relay>, w: LadderWorld): seq<Relay> {
    Filter(Adapt(known, Filter(public, w.wants, true), w.lacksV6), TriedIn(tried), false)
  }

  /** How a fallback went, and whether it was still on the leased credential. */
  datatype Fallback = Fallback(run: Run, leased: bool)

  /** What follows the walk of a leased ladder that was lost remotely, if there is a public list: the leased
    * relays at their new endpoints, unless those too are lost remotely; then the public candidates not
    * tried yet, if there are any. */
  function FallbackOf(
    public: seq<Relay>, tried: seq<Relay>, before: map<string, Endpoint>, known: map<string, Endpoint>,
    w: LadderWorld, failedId: string)
    : Option<Fallback>
  {
    var again := Climbed(Retries(tried, before, known, failedId), w.retries, 0);
    var rest := Remaining(known, public, tried, w);
    if again != Lost(false, false) then Some(Fallback(again, true))
    else if rest == [] then None
    else Some(Fallback(Climbed(Ordered(rest, w, Some(failedId)), w.publicAttempts, 0), false))
  }

  /** The walk of a ladder, and what follows it. */
  function ClimbOf(
    ladder: seq<Relay>, leased: bool, public: Option<seq<Relay>>, before: map<string, Endpoint>,
    known: map<string, Endpoint>, w: LadderWorld, failed: Option<string>)
    : Run
  {
    var first := Climbed(ladder, w.attempts, 0);
    if first != Lost(false, false) || ladder == [] || !leased || public.None? then first
    else
      var due := FallbackOf(public.value, ladder, before, known, w, if failed.Some? then failed.value else "");
      if due.Some? then due.value.run else first
  }

  /** A wanted candidate of the list comes up before the walk is ended. */
  ghost predicate SomeUp(list: seq<Relay>, w: LadderWorld) {
    exists k: nat :: k < |Filter(list, w.wants, true)| && FirstUp(w.attempts, k)
  }

  /** The ladder of a fetched list. */
  function LadderOf(known: map<string, Endpoint>, list: seq<Relay>, w: LadderWorld, failed: Option<string>)
    : seq<Relay>
  {
    Ordered(Adapt(known, Filter(list, w.wants, true), w.lacksV6), w, failed)
  }

  /** The list the race brings: its winner's leased relays if that front is asked and grants access, else its
    * public ones. */
  function RacedFetch(w: FetchWorld, asks: bool, tried: string, wants: Relay -> bool, fetch: nat): Fetched {
    if w.race.None? then FetchFailed(w.raceLimited)
    else if asks && RacedGrants(w, tried, wants, fetch) then Fetched(Map(w.raced.relays, Give(Leased(fetch))))
    else if asks && w.race.value.front != tried && !w.racedUnbound && Stops(w.raced) then FetchFailed(false)
    else Fetched(Map(w.race.value.relays, Give(Shared)))
  }

  /** The list a fetch comes back with: the pinned front's if that is asked and grants access, else the
    * race's. */
  function FetchOf(w: FetchWorld, front: string, unsupported: bool, wants: Relay -> bool, fetch: nat): Fetched {
    if !Wanted(w, unsupported) then RacedFetch(w, false, "", wants, fetch)
    else if front == "" then RacedFetch(w, true, "", wants, fetch)
    else if Grants(w.pinnedUnbound, w.pinned, Leased(fetch), wants) then
      Fetched(Map(w.pinned.relays, Give(Leased(fetch))))
    else if !w.pinnedUnbound && Stops(w.pinned) then FetchFailed(false)
    else RacedFetch(w, !PinnedEnds(w), front, wants, fetch)
  }

  /** A connection's access bookkeeping. */
  class Session {
    const endpoints: Connection
    var lease: AccessLease
    var publicFallback: Option<seq<Relay>>
    var outcome: Outcome
    var accessFront: string
    var accessUnsupported: bool
    // Numbers the fetches, to name the answer a credential came from.
    var fetches: nat

    constructor ()
      ensures fetches == 0 && !lease.Valid() && outcome == Unset && publicFallback == None
      ensures fresh(endpoints) && Remembered(endpoints.publicEndpoints)
    {
      endpoints := new Connection();
      lease, publicFallback, outcome, accessFront, accessUnsupported, fetches := NO_LEASE, None, Unset, "", false, 0;
    }

    /** The lease is live exactly when access was granted, and the relays carry exactly the
      * credential that says: that of this fetch's access answer, or the shared one. */
    predicate Accounts(list: seq<Relay>)
      reads this
    {
      && (lease.Valid() <==> outcome == Granted)
      && AllCarry(list, if lease.Valid() then Leased(fetches) else Shared)
      && (publicFallback.Some? ==> AllCarry(publicFallback.value, Shared))
    }

    /** The list is an access answer's if the lease is live, and the public one of the race if not. */
    predicate Delivered(w: FetchWorld, list: seq<Relay>)
      reads this
    {
      if lease.Valid() then
        || (w.pinned.Relays? && list == Map(w.pinned.relays, Give(Leased(fetches))))
        || (w.raced.Relays? && list == Map(w.raced.relays, Give(Leased(fetches))))
      else w.race.Some? && list == Map(w.race.value.relays, Give(Shared))
    }

    /** The lease is of the race's winner, which is pinned now, and the public list is kept to fall back to. */
    predicate HeldFor(w: FetchWorld)
      reads this
    {
      && w.race.Some? && lease.front == accessFront == w.race.value.front
      && publicFallback == Some(Map(w.race.value.relays, Give(Shared)))
    }

    method FetchAccess(front: string, unbound: bool, raw: Answer, wants: Relay -> bool) returns (r: AccessResult)
      requires !lease.Valid() && outcome in {Unset} + REFUSALS
      requires raw.Relays? ==> raw.received > 0
      modifies this`lease, this`outcome, this`accessFront, this`accessUnsupported
      ensures r.Use? <==> lease.Valid()
      ensures r.Use? <==> outcome == Granted
      ensures r.Use? <==> Grants(unbound, raw, Leased(fetches), wants)
      ensures r.Use? ==> raw.Relays? && r.relays == Map(raw.relays, Give(Leased(fetches)))
      ensures r.Use? ==> lease == AccessLease(raw.received + raw.lifetime, raw.lifetime, front)
      ensures r.Use? ==> Filter(r.relays, wants, true) != []
      ensures r.Stop? <==> !unbound && Stops(raw)
      ensures outcome == OutcomeOf(unbound, Decoded(raw), Leased(fetches), wants, old(outcome))
      ensures accessUnsupported == (old(accessUnsupported) || outcome == Unsupported)
      ensures accessFront == if !r.Stop? && outcome in {Unapplied, RateLimited, Failure} then "" else old(accessFront)
    {
      if unbound {
        outcome := FrontUnbound;
        return UsePublic;
      }
      var answer := Decoded(raw);
      match answer {
        case Cancelled => return Stop;
        case Disabled => outcome := Denied; return Stop;
        case NotEnrolled => outcome := EnrollmentRefused; return UsePublic;
        case NoEndpoint => accessUnsupported := true; outcome := Unsupported; return UsePublic;
        case NotApplied => accessFront := ""; outcome := Unapplied; return UsePublic;
        case Limited => accessFront := ""; outcome := RateLimited; return UsePublic;
        case Broken => accessFront := ""; outcome := Failure; return UsePublic;
        case Relays(relays, lifetime, received) =>
          var issued := Map(relays, Give(Leased(fetches)));
          if Filter(issued, wants, true) == [] {
            outcome := Empty;
            return UsePublic;
          }
          lease := AccessLease(received + lifetime, lifetime, front);
          outcome := Granted;
          return Use(issued);
      }
    }

    /** Access at the pinned front, which a fetch asks before it races. */
    method AskPinned(w: FetchWorld, wants: Relay -> bool) returns (access: AccessResult)
      requires !lease.Valid() && outcome.Unset? && publicFallback.None? && !accessUnsupported
      requires w.pinned.Relays? ==> w.pinned.received > 0
      modifies this`lease, this`outcome, this`accessFront, this`accessUnsupported
      ensures access.Use? <==> Grants(w.pinnedUnbound, w.pinned, Leased(fetches), wants)
      ensures access.Use? ==> access.relays == Map(w.pinned.relays, Give(Leased(fetches))) && w.pinned.Relays?
      ensures access.Use? ==> lease.Valid() && outcome == Granted
      ensures !access.Use? ==> !lease.Valid()
      ensures access.Stop? <==> !w.pinnedUnbound && Stops(w.pinned)
      ensures access.Use? ==> lease.front == accessFront == old(accessFront)
      ensures access.UsePublic? ==> outcome in {Unsupported} + REFUSALS
      ensures access.UsePublic? ==> (accessUnsupported <==> outcome == Unsupported)
      ensures access.UsePublic? ==> (accessUnsupported <==> PinnedEnds(w))
    {
      access := FetchAccess(accessFront, w.pinnedUnbound, w.pinned, wants);
    }

    method FetchCandidates(w: FetchWorld, wants: Relay -> bool) returns (r: Fetched)
      requires Remembered(endpoints.publicEndpoints)
      requires w.pinned.Relays? ==> w.pinned.received > 0
      requires w.raced.Relays? ==> w.raced.received > 0
      modifies this, endpoints
      ensures fetches == old(fetches) + 1
      ensures Remembered(endpoints.publicEndpoints)
      ensures r.Fetched? ==> Accounts(r.relays)
      ensures r.Fetched? ==> outcome != FallbackPublic && outcome != Denied
      ensures r.Fetched? ==> Delivered(w, r.relays)
      ensures r.FetchFailed? ==> w.race.None? || Stops(w.pinned) || Stops(w.raced)
      ensures lease.Valid() <==> AccessDue(w, old(accessFront), old(accessUnsupported), wants, fetches).Some?
      ensures r == FetchOf(w, old(accessFront), old(accessUnsupported), wants, fetches)
      ensures lease.Valid() ==> HeldFor(w) || (lease.front == accessFront == old(accessFront) && publicFallback.None?)
      ensures !Wanted(w, old(accessUnsupported)) && r.Fetched? ==> outcome == Unasked(w, old(accessUnsupported))
    {
      lease, publicFallback, outcome := NO_LEASE, None, Unset;
      fetches := fetches + 1;
      var wantAccess := w.hasKey && !accessUnsupported && w.expressible;
      if !wantAccess {
        outcome := Unasked(w, accessUnsupported);
      }
      var triedFront := "";
      if wantAccess && accessFront != "" {
        triedFront := accessFront;
        var access := AskPinned(w, wants);
        if access.Stop? {
          return FetchFailed(false);
        }
        if access.Use? {
          return Fetched(access.relays);
        }
      }
      r := FetchPublic(w, wants, wantAccess, triedFront);
    }

    /** The discovery race, then access at the front that won it. */
    method FetchPublic(w: FetchWorld, wants: Relay -> bool, wantAccess: bool, triedFront: string) returns (r: Fetched)
      requires Remembered(endpoints.publicEndpoints)
      requires w.raced.Relays? ==> w.raced.received > 0
      requires !lease.Valid() && publicFallback.None?
      requires outcome !in {Granted, Denied, FallbackPublic}
      requires wantAccess && !accessUnsupported ==> outcome in {Unset} + REFUSALS
      modifies this, endpoints
      ensures fetches == old(fetches)
      ensures Remembered(endpoints.publicEndpoints)
      ensures r.Fetched? ==> Accounts(r.relays)
      ensures r.Fetched? ==> outcome != FallbackPublic && outcome != Denied
      ensures r.Fetched? ==> Delivered(w, r.relays)
      ensures r.FetchFailed? ==> w.race.None? || Stops(w.raced)
      ensures r == RacedFetch(w, wantAccess && !old(accessUnsupported), triedFront, wants, fetches)
      ensures lease.Valid() <==> wantAccess && !old(accessUnsupported) && RacedGrants(w, triedFront, wants, fetches)
      ensures lease.Valid() ==> HeldFor(w)
      ensures !wantAccess && r.Fetched? ==> outcome == old(outcome)
    {
      if w.race.None? {
        return FetchFailed(w.raceLimited);
      }
      var public := Map(w.race.value.relays, Give(Shared));
      endpoints.RememberPublicEndpoints(public);
      if wantAccess && !accessUnsupported && w.race.value.front != triedFront {
        accessFront := w.race.value.front;
        var access := FetchAccess(accessFront, w.racedUnbound, w.raced, wants);
        if access.Stop? {
          return FetchFailed(false);
        }
        if access.Use? {
          publicFallback := Some(public);
          return Fetched(access.relays);
        }
      }
      return Fetched(public);
    }

    /** The public list after every leased candidate failed. */
    method RunPublicFallback(tried: seq<Relay>, w: LadderWorld, failedId: string, first: Run)
      returns (ok: bool, run: Run)
      requires Remembered(endpoints.publicEndpoints) && Accounts(tried)
      modifies this, endpoints
      ensures fetches == old(fetches)
      ensures Remembered(endpoints.publicEndpoints)
      ensures ok ==> old(lease.Valid()) && first == Lost(false, false)
      ensures ok && run.Won? ==> Accounts([run.relay])
      ensures ok && run.Won? && !lease.Valid() ==> outcome == FallbackPublic && run.relay.id !in Map(tried, IdOf())
      ensures !ok && first == Lost(false, false) && old(lease.Valid()) && PublicOf(old(publicFallback), w).Some? ==>
        !Untried(endpoints.publicEndpoints, PublicOf(old(publicFallback), w).value, tried, w)
      ensures ok ==> PublicOf(old(publicFallback), w).Some?
      ensures old(lease.Valid()) && first == Lost(false, false) && PublicOf(old(publicFallback), w).Some? ==>
        var due := FallbackOf(PublicOf(old(publicFallback), w).value, tried, old(endpoints.publicEndpoints),
                              endpoints.publicEndpoints, w, failedId);
        && (ok <==> due.Some?)
        && (ok ==> run == due.value.run && lease == if due.value.leased then old(lease) else NO_LEASE)
    {
      run := Lost(false, false);
      if first.Won? || !lease.Valid() || first.cancelled || first.local {
        return false, run;
      }
      var was, public, known := lease, publicFallback, endpoints.publicEndpoints;
      lease, publicFallback := NO_LEASE, None;
      if public.None? {
        public := Refetch(w.refetch);
        if public.None? {
          return false, run;
        }
      }
      run := RunRetries(tried, known, was, w, failedId);
      if run.Won? || run.local || run.cancelled {
        return true, run;
      }
      ok, run := RunShared(public.value, tried, w, failedId);
    }

    /** A fresh public list, and what it teaches of endpoints. */
    method Refetch(list: Option<PublicList>) returns (public: Option<seq<Relay>>)
      requires Remembered(endpoints.publicEndpoints)
      modifies endpoints
      ensures Remembered(endpoints.publicEndpoints)
      ensures public == if list.None? then None else Some(Map(list.value.relays, Give(Shared)))
    {
      if list.None? {
        return None;
      }
      public := Some(Map(list.value.relays, Give(Shared)));
      endpoints.RememberPublicEndpoints(public.value);
    }

    /** The leased relays to try once more, at a newly learned endpoint, the failed one last. */
    method LeasedRetries(tried: seq<Relay>, known: map<string, Endpoint>, failedId: string)
      returns (retry: seq<Relay>)
      requires AllCarry(tried, Leased(fetches))
      ensures AllCarry(retry, Leased(fetches))
      ensures retry == Retries(tried, known, endpoints.publicEndpoints, failedId)
    {
      var found := endpoints.LeasedEndpointRetries(tried, known);
      FilteredCarry(tried, RetriedIn(known, endpoints.publicEndpoints), true, Leased(fetches));
      if found == [] {
        return found;
      }
      retry := DemoteRelay(found, failedId);
      PermutedCarry(found, retry, Leased(fetches));
    }

    /** One more walk over leased relays at newly learned endpoints, with the lease back for its length. */
    method RunRetries(
      tried: seq<Relay>, known: map<string, Endpoint>, was: AccessLease, w: LadderWorld, failedId: string)
      returns (run: Run)
      requires AllCarry(tried, Leased(fetches)) && lease == NO_LEASE
      modifies this`lease
      ensures run == Climbed(Retries(tried, known, endpoints.publicEndpoints, failedId), w.retries, 0)
      ensures lease == if run == Lost(false, false) then NO_LEASE else was
      ensures run.Won? ==> run.relay.credential == Leased(fetches)
    {
      run := Lost(false, false);
      var retry := LeasedRetries(tried, known, failedId);
      if retry != [] {
        lease := was;
        run := RunLadder(retry, w.retries);
        if run.Won? || run.local || run.cancelled {
          return;
        }
        lease := NO_LEASE;
      }
    }

    /** Walks the relays of the public list that were not tried, on the shared credential. */
    method RunShared(public: seq<Relay>, tried: seq<Relay>, w: LadderWorld, failedId: string)
      returns (ok: bool, run: Run)
      requires Remembered(endpoints.publicEndpoints)
      requires !lease.Valid() && publicFallback.None? && AllCarry(public, Shared)
      modifies this`outcome
      ensures ok && run.Won? ==> run.relay.credential == Shared && outcome == FallbackPublic
      ensures ok && run.Won? ==> run.relay.id !in Map(tried, IdOf())
      ensures ok <==> Untried(endpoints.publicEndpoints, public, tried, w)
      ensures ok <==> Remaining(endpoints.publicEndpoints, public, tried, w) != []
      ensures ok ==> run == Climbed(Ordered(Remaining(endpoints.publicEndpoints, public, tried, w), w, Some(failedId)),
                                    w.publicAttempts, 0)
      ensures ok && w.publicAttempts(0).Up? ==> run.Won?
    {
      var cands := Filter(public, w.wants, true);
      FilteredCarry(public, w.wants, true, Shared);
      AdaptedCarry(endpoints.publicEndpoints, cands, w.lacksV6, Shared);
      cands := endpoints.AdaptToAddressFamily(cands, w.lacksV6);
      var remaining := NotTried(cands, tried);
      FilteredCarry(cands, TriedIn(tried), false, Shared);
      FilterMembers(cands, TriedIn(tried), false);
      assert Untried(endpoints.publicEndpoints, public, tried, w) <==> exists r :: r in remaining;
      if remaining == [] {
        return false, Lost(false, false);
      }
      assert remaining[0] in remaining;
      outcome := FallbackPublic;
      run := Walk(remaining, w, failedId);
      ok := true;
    }

    /** A first connect or one recovery pass, up to the relay it promotes: that relay's lease is live
      * exactly when its credential came from the access answer of the latest fetch, exactly when the
      * outcome is `granted`; otherwise it carries the shared credential. */
    method Connect(fetch: FetchWorld, again: FetchWorld, w: LadderWorld, failed: Option<string>) returns (run: Run)
      requires Remembered(endpoints.publicEndpoints)
      requires forall x :: x in {fetch.pinned, fetch.raced, again.pinned, again.raced} && x.Relays? ==> x.received > 0
      modifies this, endpoints
      ensures Remembered(endpoints.publicEndpoints)
      ensures old(fetches) < fetches <= old(fetches) + 2
      ensures run.Won? ==> (lease.Valid() <==> run.relay.credential == Leased(fetches))
      ensures run.Won? ==> (lease.Valid() <==> outcome == Granted)
      ensures run.Won? ==> (lease.Valid() <==> run.relay.credential != Shared)
      ensures var list := FetchOf(fetch, old(accessFront), old(accessUnsupported), w.wants, old(fetches) + 1);
        var again := failed.Some? && list == FetchFailed(true);
        && fetches == old(fetches) + (if again then 2 else 1)
        && (!again && list.FetchFailed? ==> run == Lost(false, false))
        && (!again && list.Fetched? && SomeUp(list.relays, w) ==> run.Won?)
    {
      run := Lost(false, false);
      var list := FetchCandidates(fetch, w.wants);
      if failed.Some? && list.FetchFailed? && list.rateLimited {
        list := FetchCandidates(again, w.wants);
      }
      if list.FetchFailed? {
        return;
      }
      run := Climb(list.relays, w, failed);
      assert run.Won? ==> run.relay.credential == [run.relay][0].credential;
    }

    /** The wanted candidates of a list, adapted, ranked, and on a recovery with the failed one last. */
    method BuildLadder(list: seq<Relay>, w: LadderWorld, failed: Option<string>) returns (ladder: seq<Relay>)
      requires Remembered(endpoints.publicEndpoints) && Accounts(list)
      ensures ladder == LadderOf(endpoints.publicEndpoints, list, w, failed)
      ensures Accounts(ladder) && |ladder| == |Filter(list, w.wants, true)|
    {
      var cands := Filter(list, w.wants, true);
      ghost var count := |cands|;
      ghost var c := if lease.Valid() then Leased(fetches) else Shared;
      FilteredCarry(list, w.wants, true, c);
      AdaptedCarry(endpoints.publicEndpoints, cands, w.lacksV6, c);
      AdaptKeepsCount(endpoints.publicEndpoints, cands, w.lacksV6);
      cands := endpoints.AdaptToAddressFamily(cands, w.lacksV6);
      ladder := Order(cands, w.identity, w.probe, failed);
      PermutedCarry(cands, ladder, c);
      assert |multiset(ladder)| == |ladder| && |multiset(cands)| == |cands|;
    }

    /** The ladder over a fetched list, then the public fallback. */
    method Climb(list: seq<Relay>, w: LadderWorld, failed: Option<string>) returns (run: Run)
      requires Remembered(endpoints.publicEndpoints) && Accounts(list)
      modifies this, endpoints
      ensures Remembered(endpoints.publicEndpoints)
      ensures fetches == old(fetches)
      ensures run.Won? ==> Accounts([run.relay])
      ensures SomeUp(list, w) ==> run.Won?
      ensures run == ClimbOf(LadderOf(old(endpoints.publicEndpoints), list, w, failed), old(lease.Valid()),
                             PublicOf(old(publicFallback), w), old(endpoints.publicEndpoints),
                             endpoints.publicEndpoints, w, failed)
    {
      var ladder := BuildLadder(list, w, failed);
      if ladder == [] {
        return Lost(false, false);
      }
      run := RunLadder(ladder, w.attempts);
      if run.Lost? {
        var ok, fallback := RunPublicFallback(ladder, w, if failed.Some? then failed.value else "", run);
        if ok {
          run := fallback;
        }
      }
    }
  }
}
