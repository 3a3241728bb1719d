/** The candidate ladder: adaptation to the device's address families and demotion of the relay
  * that just failed. Both are stable partitions, and no step drops a relay. */
module Ladder {
  import opened Prelude

  /** A host name or address, with what IsIPv6Host says of it. */
  datatype Host = Host(name: string, v6: bool)

  datatype Endpoint = Endpoint(host: Host, port: int)

  /** The shared credential of the public list, or one issued by the access answer of a numbered
    * fetch. */
  datatype Credential = Shared | Leased(fetch: nat)

  /** A relay descriptor: its ID, its endpoint, its WSS fronts, its credential, and the rest. */
  datatype Relay = Relay(id: string, endpoint: Endpoint, fronts: seq<string>, credential: Credential, rest: string)

  // ---- Stable partitions ----

  function Filter<T>(s: seq<T>, p: T -> bool, want: bool): seq<T>
    decreases |s|
  {
    if s == [] then []
    else
      var x := s[|s| - 1];
      Filter(s[..|s| - 1], p, want) + if p(x) == want then [x] else []
  }

  /** Those without the property, then those with it, each in their order. */
  function Partition<T>(s: seq<T>, p: T -> bool): seq<T> {
    Filter(s, p, false) + Filter(s, p, true)
  }

  lemma {:induction false} FilterMembers<T(!new)>(s: seq<T>, p: T -> bool, want: bool)
    ensures forall x :: x in Filter(s, p, want) <==> x in s && p(x) == want
    decreases |s|
  {
    if s != [] {
      FilterMembers(s[..|s| - 1], p, want);
      assert s == s[..|s| - 1] + [s[|s| - 1]];
    }
  }

  lemma {:induction false} PartitionPermutes<T(!new)>(s: seq<T>, p: T -> bool)
    ensures multiset(Partition(s, p)) == multiset(s)
    decreases |s|
  {
    if s != [] {
      PartitionPermutes(s[..|s| - 1], p);
      assert s == s[..|s| - 1] + [s[|s| - 1]];
    }
  }

  lemma {:induction false} FilterAppend<T(!new)>(a: seq<T>, b: seq<T>, p: T -> bool, want: bool)
    ensures Filter(a + b, p, want) == Filter(a, p, want) + Filter(b, p, want)
    decreases |b|
  {
    if b == [] {
      assert a + b == a;
    } else {
      assert (a + b)[..|a + b| - 1] == a + b[..|b| - 1];
      FilterAppend(a, b[..|b| - 1], p, want);
    }
  }

  lemma {:induction false} FilterUniform<T(!new)>(s: seq<T>, p: T -> bool, has: bool)
    requires forall i :: 0 <= i < |s| ==> p(s[i]) == has
    ensures Filter(s, p, has) == s && Filter(s, p, !has) == []
    decreases |s|
  {
    if s != [] {
      FilterUniform(s[..|s| - 1], p, has);
    }
  }

  /** Filtering two runs, one without the property and one with it, gives the runs back. */
  lemma FilterOfRuns<T(!new)>(a: seq<T>, b: seq<T>, p: T -> bool)
    requires forall x :: x in a ==> !p(x)
    requires forall x :: x in b ==> p(x)
    ensures Filter(a + b, p, false) == a && Filter(a + b, p, true) == b
  {
    FilterAppend(a, b, p, false);
    FilterAppend(a, b, p, true);
    FilterUniform(a, p, false);
    FilterUniform(b, p, true);
  }

  /** A partition keeps both runs in order, puts the second behind the first, and is stable. */
  lemma PartitionIsStable<T(!new)>(s: seq<T>, p: T -> bool)
    ensures forall want :: Filter(Partition(s, p), p, want) == Filter(s, p, want)
    ensures forall i, j :: 0 <= i < j < |Partition(s, p)| && p(Partition(s, p)[i]) ==> p(Partition(s, p)[j])
    ensures Partition(Partition(s, p), p) == Partition(s, p)
  {
    var a, b := Filter(s, p, false), Filter(s, p, true);
    FilterMembers(s, p, false);
    assert forall x :: x in a ==> !p(x);
    FilterMembers(s, p, true);
    assert forall x :: x in b ==> p(x);
    FilterOfRuns(a, b, p);
    forall i | 0 <= i < |a + b| ensures p((a + b)[i]) <==> |a| <= i {
      assert i < |a| ==> (a + b)[i] in a;
      assert |a| <= i ==> (a + b)[i] in b;
    }
  }

  // ---- Pointwise maps ----

  function Map<T, U>(s: seq<T>, f: T -> U): (r: seq<U>)
    ensures |r| == |s| && forall i :: 0 <= i < |s| ==> r[i] == f(s[i])
  {
    seq(|s|, i requires 0 <= i < |s| => f(s[i]))
  }

  /** Taking one element out of a sequence takes it out of its multiset, and its image out of the
    * image's. */
  lemma Without<T(!new)>(s: seq<T>, j: nat, rest: seq<T>)
    requires j < |s| && rest == s[..j] + s[j + 1..]
    ensures multiset(rest) == multiset(s) - multiset{s[j]}
  {
    assert s == s[..j] + [s[j]] + s[j + 1..];
  }

  lemma MapWithout<T(!new), U(!new)>(s: seq<T>, j: nat, rest: seq<T>, f: T -> U)
    requires j < |s| && rest == s[..j] + s[j + 1..]
    ensures multiset(Map(s, f)) == multiset(Map(rest, f)) + multiset{f(s[j])}
  {
    assert Map(s, f) == Map(s[..j], f) + [f(s[j])] + Map(s[j + 1..], f);
    assert Map(rest, f) == Map(s[..j], f) + Map(s[j + 1..], f);
  }

  /** Mapping a permutation gives a permutation. */
  lemma {:induction false} MapPermutes<T(!new), U(!new)>(a: seq<T>, b: seq<T>, f: T -> U)
    requires multiset(a) == multiset(b)
    ensures multiset(Map(a, f)) == multiset(Map(b, f))
    decreases |a|
  {
    if a == [] {
      assert |multiset(b)| == 0;
    } else {
      var j := Where(b, a[0], a);
      var a', b' := a[1..], b[..j] + b[j + 1..];
      assert a' == a[..0] + a[1..];
      Without(a, 0, a');
      Without(b, j, b');
      MapPermutes(a', b', f);
      MapWithout(a, 0, a', f);
      MapWithout(b, j, b', f);
    }
  }

  lemma Where<T(!new)>(b: seq<T>, x: T, a: seq<T>) returns (j: nat)
    requires multiset(a) == multiset(b) && x in a
    ensures j < |b| && b[j] == x
  {
    assert x in multiset(b);
    j :| 0 <= j < |b| && b[j] == x;
  }

  function IdOf(): Relay -> string { (r: Relay) => r.id }

  // ---- Public endpoints ----

  /** The endpoints a connection remembers are never IPv6 ones. */
  predicate Remembered(known: map<string, Endpoint>) {
    forall id :: id in known ==> !known[id].host.v6
  }

  /** The last relay of a list that a connection learns an endpoint for `id` from. */
  function Learned(list: seq<Relay>, id: string): Option<Endpoint> {
    if list == [] then None
    else
      var r := list[|list| - 1];
      if r.id == id && id != "" && r.endpoint.host.name != "" && !r.endpoint.host.v6 then Some(r.endpoint)
      else Learned(list[..|list| - 1], id)
  }

  function Lookup(known: map<string, Endpoint>, id: string): Option<Endpoint> {
    if id in known then Some(known[id]) else None
  }

  ghost predicate LearnedFrom(before: map<string, Endpoint>, list: seq<Relay>, after: map<string, Endpoint>) {
    forall id :: Lookup(after, id) == if Learned(list, id).Some? then Learned(list, id) else Lookup(before, id)
  }

  function PublicEndpointFor(known: map<string, Endpoint>, r: Relay): Option<Endpoint> {
    if !r.endpoint.host.v6 then None
    else if r.id !in known || known[r.id].host == r.endpoint.host then None
    else Some(known[r.id])
  }

  function Rewrite(known: map<string, Endpoint>): Relay -> Relay {
    (r: Relay) =>
      match PublicEndpointFor(known, r)
      case Some(endpoint) => r.(endpoint := endpoint)
      case None => r
  }

  function IsV6(): Relay -> bool { (r: Relay) => r.endpoint.host.v6 }

  predicate HasV6(cands: seq<Relay>) {
    exists j :: 0 <= j < |cands| && cands[j].endpoint.host.v6
  }

  /** On a device known to lack IPv6: known IPv4 endpoints are substituted, and what is then still
    * IPv6 comes last. */
  function Adapt(known: map<string, Endpoint>, cands: seq<Relay>, lacksV6: bool): seq<Relay> {
    if lacksV6 then Partition(Map(cands, Rewrite(known)), IsV6()) else cands
  }

  /** A tried candidate that a refresh gave an endpoint it has not been tried on. */
  predicate Retried(before: map<string, Endpoint>, known: map<string, Endpoint>, r: Relay) {
    && r.id in known
    && (r.id in before ==> before[r.id] != known[r.id])
    && (r.endpoint.host.v6 || (r.id in before && r.endpoint == before[r.id]))
    && r.endpoint != known[r.id]
  }

  function RetriedIn(before: map<string, Endpoint>, known: map<string, Endpoint>): Relay -> bool {
    (r: Relay) => Retried(before, known, r)
  }

  function Moved(known: map<string, Endpoint>): Relay -> Relay {
    (r: Relay) => if r.id in known then r.(endpoint := known[r.id], fronts := []) else r
  }

  method FindIPv6(cands: seq<Relay>) returns (found: bool)
    ensures found <==> HasV6(cands)
  {
    for i := 0 to |cands|
      invariant forall j :: 0 <= j < i ==> !cands[j].endpoint.host.v6
    {
      if cands[i].endpoint.host.v6 {
        return true;
      }
    }
    found := false;
  }

  /** The part of a connection that the address-family fallback reads and writes. */
  class Connection {
    var publicEndpoints: map<string, Endpoint>

    constructor ()
      ensures publicEndpoints == map[]
    {
      publicEndpoints := map[];
    }

    /** The latest non-IPv6 endpoint of every listed relay is remembered; the others stay. */
    method RememberPublicEndpoints(list: seq<Relay>)
      requires Remembered(publicEndpoints)
      modifies this
      ensures LearnedFrom(old(publicEndpoints), list, publicEndpoints)
      ensures Remembered(publicEndpoints)
    {
      for i := 0 to |list|
        invariant Remembered(publicEndpoints)
        invariant LearnedFrom(old(publicEndpoints), list[..i], publicEndpoints)
      {
        var r := list[i];
        assert list[..i + 1][..i] == list[..i];
        if r.id == "" || r.endpoint.host.name == "" || r.endpoint.host.v6 {
          continue;
        }
        publicEndpoints := publicEndpoints[r.id := r.endpoint];
      }
      assert list[..|list|] == list;
    }

    method AdaptToAddressFamily(cands: seq<Relay>, lacksV6: bool) returns (out: seq<Relay>)
      requires Remembered(publicEndpoints)
      ensures out == Adapt(publicEndpoints, cands, lacksV6)
    {
      var hasIPv6Candidate := FindIPv6(cands);
      if !hasIPv6Candidate || !lacksV6 {
        NothingToAdapt(publicEndpoints, cands, lacksV6);
        return cands;
      }
      out := [];
      var deferred := [];
      ghost var rewritten := Map(cands, Rewrite(publicEndpoints));
      for i := 0 to |cands|
        invariant out == Filter(rewritten[..i], IsV6(), false)
        invariant deferred == Filter(rewritten[..i], IsV6(), true)
      {
        var cand := cands[i];
        assert rewritten[..i + 1][..i] == rewritten[..i];
        assert rewritten[i] == Rewrite(publicEndpoints)(cand);
        var endpoint := PublicEndpointFor(publicEndpoints, cand);
        if endpoint.Some? {
          out := out + [cand.(endpoint := endpoint.value)];
        } else if cand.endpoint.host.v6 {
          deferred := deferred + [cand];
        } else {
          out := out + [cand];
        }
      }
      assert rewritten[..|cands|] == rewritten;
      out := out + deferred;
    }

    method LeasedEndpointRetries(tried: seq<Relay>, before: map<string, Endpoint>) returns (retry: seq<Relay>)
      ensures retry == Map(Filter(tried, RetriedIn(before, publicEndpoints), true), Moved(publicEndpoints))
    {
      retry := [];
      for i := 0 to |tried|
        invariant retry == Map(Filter(tried[..i], RetriedIn(before, publicEndpoints), true), Moved(publicEndpoints))
      {
        var cand := tried[i];
        assert tried[..i + 1][..i] == tried[..i];
        if cand.id !in publicEndpoints {
          continue;
        }
        var current := publicEndpoints[cand.id];
        if cand.id in before && before[cand.id] == current {
          continue;
        }
        var fromPrevious := cand.id in before && cand.endpoint == before[cand.id];
        if !cand.endpoint.host.v6 && !fromPrevious {
          continue;
        }
        if cand.endpoint == current {
          continue;
        }
        retry := retry + [cand.(endpoint := current, fronts := [])];
      }
      assert tried[..|tried|] == tried;
    }
  }

  lemma NothingToAdapt(known: map<string, Endpoint>, cands: seq<Relay>, lacksV6: bool)
    requires !HasV6(cands) || !lacksV6
    ensures Adapt(known, cands, lacksV6) == cands
  {
    if !HasV6(cands) {
      assert Map(cands, Rewrite(known)) == cands;
      assert forall r :: r in cands ==> !IsV6()(r);
      assert cands + [] == cands;
      FilterOfRuns(cands, [], IsV6());
    }
  }

  /** Adaptation is a permutation of the candidates with their endpoints rewritten; rewriting moves
    * only IPv6 candidates, only to an IPv4 endpoint remembered for that relay, and changes nothing
    * but the endpoint. */
  lemma AdaptKeepsRelays(known: map<string, Endpoint>, cands: seq<Relay>, lacksV6: bool)
    requires Remembered(known)
    ensures multiset(Map(Adapt(known, cands, lacksV6), IdOf())) == multiset(Map(cands, IdOf()))
    ensures lacksV6 ==> multiset(Adapt(known, cands, lacksV6)) == multiset(Map(cands, Rewrite(known)))
    ensures forall r :: Rewrite(known)(r) != r ==>
      r.endpoint.host.v6 && r.id in known && Rewrite(known)(r) == r.(endpoint := known[r.id]) && !known[r.id].host.v6
  {
    if lacksV6 {
      var rewritten := Map(cands, Rewrite(known));
      PartitionPermutes(rewritten, IsV6());
      MapPermutes(Adapt(known, cands, lacksV6), rewritten, IdOf());
      assert Map(rewritten, IdOf()) == Map(cands, IdOf());
    }
  }

  /** The relay has an IPv4 endpoint: its own, or one that is remembered. */
  function HasV4(known: map<string, Endpoint>): Relay -> bool {
    (r: Relay) => !r.endpoint.host.v6 || r.id in known
  }

  /** The relay at that endpoint. */
  function AtV4(known: map<string, Endpoint>): Relay -> Relay {
    (r: Relay) => if r.endpoint.host.v6 && r.id in known then r.(endpoint := known[r.id]) else r
  }

  lemma {:induction false} FilterRewritten(known: map<string, Endpoint>, cands: seq<Relay>, want: bool)
    requires Remembered(known)
    ensures Filter(Map(cands, Rewrite(known)), IsV6(), want) == Map(Filter(cands, HasV4(known), !want), AtV4(known))
    decreases |cands|
  {
    if cands != [] {
      var past, r := cands[..|cands| - 1], cands[|cands| - 1];
      FilterRewritten(known, past, want);
      var rewritten := Map(cands, Rewrite(known));
      assert rewritten[..|cands| - 1] == Map(past, Rewrite(known));
      assert Rewrite(known)(r) == AtV4(known)(r);
      assert IsV6()(Rewrite(known)(r)) == !HasV4(known)(r);
      MapAppends(Filter(past, HasV4(known), !want), if HasV4(known)(r) == !want then [r] else [], AtV4(known));
    }
  }

  lemma MapAppends<T, U>(a: seq<T>, b: seq<T>, f: T -> U)
    ensures Map(a + b, f) == Map(a, f) + Map(b, f)
  {
  }

  /** On a device without IPv6 every relay with an IPv4 endpoint, given or remembered, wherever it comes from,
    * is tried there, and those relays come first, in their order; the others follow in theirs. */
  lemma AdaptPrefersV4(known: map<string, Endpoint>, cands: seq<Relay>)
    requires Remembered(known)
    ensures Adapt(known, cands, true) ==
      Map(Filter(cands, HasV4(known), true), AtV4(known)) + Filter(cands, HasV4(known), false)
    ensures forall r :: r in Adapt(known, cands, true) && r.endpoint.host.v6 ==> r.id !in known
  {
    FilterRewritten(known, cands, false);
    FilterRewritten(known, cands, true);
    var with4, without := Filter(cands, HasV4(known), true), Filter(cands, HasV4(known), false);
    FilterMembers(cands, HasV4(known), false);
    assert Map(without, AtV4(known)) == without by {
      forall i | 0 <= i < |without| ensures AtV4(known)(without[i]) == without[i] { assert without[i] in without; }
    }
    forall r | r in Map(with4, AtV4(known)) ensures !r.endpoint.host.v6 {
      FilterMembers(cands, HasV4(known), true);
      var i :| 0 <= i < |with4| && Map(with4, AtV4(known))[i] == r;
      assert with4[i] in with4;
    }
    forall r | r in without ensures r.id !in known {
      assert !HasV4(known)(r);
    }
  }

  lemma RewriteTwice(known: map<string, Endpoint>, r: Relay)
    requires Remembered(known)
    ensures Rewrite(known)(Rewrite(known)(r)) == Rewrite(known)(r)
  {
  }

  lemma RewriteFixes(known: map<string, Endpoint>, cands: seq<Relay>)
    requires Remembered(known)
    ensures Map(Adapt(known, cands, true), Rewrite(known)) == Adapt(known, cands, true)
  {
    var rewritten, out := Map(cands, Rewrite(known)), Adapt(known, cands, true);
    PartitionPermutes(rewritten, IsV6());
    forall i | 0 <= i < |out| ensures Rewrite(known)(out[i]) == out[i] {
      assert out[i] in multiset(out);
      assert out[i] in rewritten;
      var j :| 0 <= j < |rewritten| && rewritten[j] == out[i];
      RewriteTwice(known, cands[j]);
    }
  }

  /** Adapting twice is adapting once. */
  lemma AdaptIsIdempotent(known: map<string, Endpoint>, cands: seq<Relay>, lacksV6: bool)
    requires Remembered(known)
    ensures Adapt(known, Adapt(known, cands, lacksV6), lacksV6) == Adapt(known, cands, lacksV6)
  {
    if lacksV6 {
      RewriteFixes(known, cands);
      PartitionIsStable(Map(cands, Rewrite(known)), IsV6());
    }
  }

  /** A retry is made with the candidate's own credential, at the endpoint remembered now, which is
    * neither the one just tried nor the one remembered before; without a new endpoint there is
    * none. */
  lemma RetriesAreNew(before: map<string, Endpoint>, known: map<string, Endpoint>, tried: seq<Relay>)
    ensures forall r :: r in Map(Filter(tried, RetriedIn(before, known), true), Moved(known)) ==>
      exists c :: c in tried && NewEndpoint(before, known, c, r)
    ensures known == before ==> Map(Filter(tried, RetriedIn(before, known), true), Moved(known)) == []
  {
    var kept := Filter(tried, RetriedIn(before, known), true);
    FilterMembers(tried, RetriedIn(before, known), true);
    forall r | r in Map(kept, Moved(known)) ensures exists c :: c in tried && NewEndpoint(before, known, c, r) {
      var i :| 0 <= i < |kept| && Map(kept, Moved(known))[i] == r;
      assert kept[i] in kept;
      assert NewEndpoint(before, known, kept[i], r);
    }
    assert kept != [] ==> kept[0] in kept;
  }

  predicate NewEndpoint(before: map<string, Endpoint>, known: map<string, Endpoint>, c: Relay, r: Relay) {
    && r == c.(endpoint := r.endpoint, fronts := [])
    && r.id in known && r.endpoint == known[r.id]
    && r.endpoint != c.endpoint
    && (r.id in before ==> r.endpoint != before[r.id])
  }

  // ---- Demotion ----

  function Is(id: string): Relay -> bool { (r: Relay) => r.id == id }

  /** The failed relay goes last: a permutation, with the others' order untouched. */
  method DemoteRelay(cands: seq<Relay>, id: string) returns (out: seq<Relay>)
    ensures out == Partition(cands, Is(id))
    ensures multiset(out) == multiset(cands)
    ensures Filter(out, Is(id), false) == Filter(cands, Is(id), false)
    ensures forall i, j :: 0 <= i < j < |out| && out[i].id == id ==> out[j].id == id
  {
    var reordered, demoted := [], [];
    for i := 0 to |cands|
      invariant reordered == Filter(cands[..i], Is(id), false)
      invariant demoted == Filter(cands[..i], Is(id), true)
    {
      assert cands[..i + 1][..i] == cands[..i];
      if cands[i].id == id {
        demoted := demoted + [cands[i]];
        continue;
      }
      reordered := reordered + [cands[i]];
    }
    assert cands[..|cands|] == cands;
    out := reordered + demoted;
    PartitionPermutes(cands, Is(id));
    PartitionIsStable(cands, Is(id));
    assert forall i :: 0 <= i < |out| ==> (Is(id)(out[i]) <==> out[i].id == id);
  }
}
