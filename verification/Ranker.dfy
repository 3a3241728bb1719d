/** Ranking the ladder by measured TCP latency, and the whole order a recovery walks: adapted,
  * ranked, then with the failed relay demoted. */
module Ranker {
  import opened Ladder
  import opened Prelude

  /** A candidate and what the ranker measured for it. */
  datatype Ranked = Ranked(relay: Relay, probeMs: Option<nat>)

  const RELAY_RANK_MAX_PROBES: nat := 8
  const RELAY_RANK_BUCKET_MS: int := 30

  // ---- The order promised ----

  /** Reachable candidates come first, then the failed ones, then the unprobed. */
  function Class(measured: seq<Option<nat>>, i: nat): nat {
    if i >= |measured| then 2 else if measured[i].Some? then 0 else 1
  }

  function Bucket(measured: seq<Option<nat>>, bucketMs: int, i: nat): nat {
    if Class(measured, i) == 0 then measured[i].value / (if bucketMs < 1 then 1 else bucketMs) else 0
  }

  /** Class, then latency bucket, then the broker's order. */
  predicate Before(measured: seq<Option<nat>>, bucketMs: int, i: nat, j: nat) {
    var ci, cj := Class(measured, i), Class(measured, j);
    var bi, bj := Bucket(measured, bucketMs, i), Bucket(measured, bucketMs, j);
    ci < cj || (ci == cj && (bi < bj || (bi == bj && i < j)))
  }

  predicate SortedBy(measured: seq<Option<nat>>, bucketMs: int, order: seq<nat>) {
    forall j, k :: 0 <= j < k < |order| ==> Before(measured, bucketMs, order[j], order[k])
  }

  /** `order` names each of `n` candidates, sorted. */
  ghost predicate IsRanking(measured: seq<Option<nat>>, bucketMs: int, n: nat, order: seq<nat>) {
    && (forall i: nat :: i in order <==> i < n)
    && SortedBy(measured, bucketMs, order)
  }

  function Pick(cands: seq<Relay>, order: seq<nat>): seq<Relay>
    requires forall k :: 0 <= k < |order| ==> order[k] < |cands|
  {
    seq(|order|, k requires 0 <= k < |order| => cands[order[k]])
  }

  /** What the probes reported: none is made for fewer than two candidates or past the head. */
  function Measured(probes: seq<Option<nat>>, maxProbes: nat): seq<Option<nat>> {
    if |probes| < 2 then [] else if |probes| > maxProbes then probes[..maxProbes] else probes
  }

  predicate Lists(out: seq<Ranked>, cands: seq<Relay>, measured: seq<Option<nat>>, order: seq<nat>) {
    && |out| == |order|
    && forall k :: 0 <= k < |order| ==> order[k] < |cands| && out[k] == Entry(cands, measured, order[k])
  }

  function Entry(cands: seq<Relay>, measured: seq<Option<nat>>, i: nat): Ranked
    requires i < |cands|
  {
    Ranked(cands[i], if i < |measured| then measured[i] else None)
  }

  // ---- Sorting ----

  function Insert(measured: seq<Option<nat>>, bucketMs: int, x: nat, s: seq<nat>): seq<nat> {
    if s == [] then [x]
    else if Before(measured, bucketMs, x, s[0]) then [x] + s
    else [s[0]] + Insert(measured, bucketMs, x, s[1..])
  }

  function Sort(measured: seq<Option<nat>>, bucketMs: int, s: seq<nat>): seq<nat>
    decreases |s|
  {
    if s == [] then [] else Insert(measured, bucketMs, s[|s| - 1], Sort(measured, bucketMs, s[..|s| - 1]))
  }

  lemma {:induction false} InsertMembers(measured: seq<Option<nat>>, bucketMs: int, x: nat, s: seq<nat>)
    ensures forall y :: y in Insert(measured, bucketMs, x, s) <==> y == x || y in s
  {
    if s != [] { InsertMembers(measured, bucketMs, x, s[1..]); }
  }

  lemma {:induction false} InsertSorts(measured: seq<Option<nat>>, bucketMs: int, x: nat, s: seq<nat>)
    requires SortedBy(measured, bucketMs, s) && x !in s
    ensures SortedBy(measured, bucketMs, Insert(measured, bucketMs, x, s))
  {
    if s != [] && !Before(measured, bucketMs, x, s[0]) {
      InsertSorts(measured, bucketMs, x, s[1..]);
      InsertMembers(measured, bucketMs, x, s[1..]);
      var rest := Insert(measured, bucketMs, x, s[1..]);
      forall k | 0 <= k < |rest| ensures Before(measured, bucketMs, s[0], rest[k]) {
        assert rest[k] in rest;
      }
    }
  }

  lemma {:induction false} SortSorts(measured: seq<Option<nat>>, bucketMs: int, s: seq<nat>)
    requires forall j, k :: 0 <= j < k < |s| ==> s[j] < s[k]
    ensures SortedBy(measured, bucketMs, Sort(measured, bucketMs, s))
    ensures forall y :: y in Sort(measured, bucketMs, s) <==> y in s
    decreases |s|
  {
    if s != [] {
      var past, x := s[..|s| - 1], s[|s| - 1];
      SortSorts(measured, bucketMs, past);
      assert s == past + [x];
      assert x !in past;
      InsertSorts(measured, bucketMs, x, Sort(measured, bucketMs, past));
      InsertMembers(measured, bucketMs, x, Sort(measured, bucketMs, past));
    }
  }

  // ---- The ranker ----

  method Unranked(cands: seq<Relay>) returns (out: seq<Ranked>)
    ensures |out| == |cands| && forall i :: 0 <= i < |cands| ==> out[i] == Ranked(cands[i], None)
  {
    out := [];
    for i := 0 to |cands|
      invariant |out| == i && forall j :: 0 <= j < i ==> out[j] == Ranked(cands[j], None)
    {
      out := out + [Ranked(cands[i], None)];
    }
  }

  function Iota(lo: nat, hi: nat): (r: seq<nat>)
    requires lo <= hi
    ensures |r| == hi - lo && forall k :: 0 <= k < |r| ==> r[k] == lo + k
  {
    seq(hi - lo, k requires 0 <= k < hi - lo => lo + k)
  }

  lemma IotaMembers(lo: nat, hi: nat)
    requires lo <= hi
    ensures forall i: nat :: i in Iota(lo, hi) <==> lo <= i < hi
  {
    forall i: nat | lo <= i < hi ensures i in Iota(lo, hi) {
      assert Iota(lo, hi)[i - lo] == i;
    }
  }

  /** The indices of the head whose probe succeeded, or failed, in order. */
  predicate Chosen(measured: seq<Option<nat>>, upto: nat, hit: bool, s: seq<nat>)
    requires upto <= |measured|
  {
    && (forall k :: 0 <= k < |s| ==> s[k] < upto && measured[s[k]].Some? == hit)
    && (forall i :: 0 <= i < upto && measured[i].Some? == hit ==> i in s)
    && (forall j, k :: 0 <= j < k < |s| ==> s[j] < s[k])
  }

  /** The loops that split the probed head into an index list and the failed candidates. */
  method Split(probed: seq<Ranked>, ghost measured: seq<Option<nat>>)
    returns (order: seq<nat>, failed: seq<Ranked>, ghost misses: seq<nat>)
    requires |probed| == |measured| && forall i :: 0 <= i < |probed| ==> probed[i].probeMs == measured[i]
    ensures Chosen(measured, |measured|, true, order) && Chosen(measured, |measured|, false, misses)
    ensures |failed| == |misses| && forall k :: 0 <= k < |misses| ==> failed[k] == probed[misses[k]]
  {
    order, failed, misses := [], [], [];
    for i := 0 to |probed|
      invariant Chosen(measured, i, true, order) && Chosen(measured, i, false, misses)
      invariant |failed| == |misses| && forall k :: 0 <= k < |misses| ==> failed[k] == probed[misses[k]]
    {
      if probed[i].probeMs.None? {
        failed := failed + [probed[i]];
        misses := misses + [i];
        continue;
      }
      order := order + [i];
    }
  }

  method Probe(head: seq<Relay>, probes: seq<Option<nat>>) returns (probed: seq<Ranked>)
    requires |head| <= |probes|
    ensures |probed| == |head| && forall j :: 0 <= j < |head| ==> probed[j] == Ranked(head[j], probes[j])
  {
    probed := [];
    for i := 0 to |head|
      invariant |probed| == i && forall j :: 0 <= j < i ==> probed[j] == Ranked(head[j], probes[j])
    {
      probed := probed + [Ranked(head[i], probes[i])];
    }
  }

  method Collect(probed: seq<Ranked>, order: seq<nat>) returns (out: seq<Ranked>)
    requires forall k :: 0 <= k < |order| ==> order[k] < |probed|
    ensures |out| == |order| && forall k :: 0 <= k < |order| ==> out[k] == probed[order[k]]
  {
    out := [];
    for k := 0 to |order|
      invariant |out| == k && forall j :: 0 <= j < k ==> out[j] == probed[order[j]]
    {
      out := out + [probed[order[k]]];
    }
  }

  /** The ranking: every candidate's index, sorted in one go. */
  function RankingOf(measured: seq<Option<nat>>, bucketMs: int, n: nat): seq<nat> {
    Sort(measured, bucketMs, Iota(0, n))
  }

  /** It is the only one. */
  lemma TheRanking(measured: seq<Option<nat>>, bucketMs: int, n: nat)
    ensures IsRanking(measured, bucketMs, n, RankingOf(measured, bucketMs, n))
    ensures forall order :: IsRanking(measured, bucketMs, n, order) ==> order == RankingOf(measured, bucketMs, n)
  {
    SortSorts(measured, bucketMs, Iota(0, n));
    IotaMembers(0, n);
    forall order | IsRanking(measured, bucketMs, n, order) ensures order == RankingOf(measured, bucketMs, n) {
      RankingIsUnique(measured, bucketMs, order, RankingOf(measured, bucketMs, n));
    }
  }

  /** Hits, misses and the unprobed tail, each sorted, are a ranking. */
  lemma JoinIsRanking(measured: seq<Option<nat>>, bucketMs: int, n: nat,
                      hits: seq<nat>, sorted: seq<nat>, misses: seq<nat>)
    requires |measured| <= n
    requires Chosen(measured, |measured|, true, hits) && Chosen(measured, |measured|, false, misses)
    requires SortedBy(measured, bucketMs, sorted) && forall y :: y in sorted <==> y in hits
    ensures IsRanking(measured, bucketMs, n, sorted + misses + Iota(|measured|, n))
  {
    var tail := Iota(|measured|, n);
    var order := sorted + misses + tail;
    IotaMembers(|measured|, n);
    assert forall k :: 0 <= k < |sorted| ==> sorted[k] in hits && Class(measured, sorted[k]) == 0;
    assert forall k :: 0 <= k < |misses| ==> Class(measured, misses[k]) == 1;
    assert forall k :: 0 <= k < |tail| ==> Class(measured, tail[k]) == 2;
    forall j, k | 0 <= j < k < |order| ensures Before(measured, bucketMs, order[j], order[k]) {
      if k < |sorted| {
        assert Before(measured, bucketMs, sorted[j], sorted[k]);
      }
    }
  }

  lemma UnprobedRanking(bucketMs: int, n: nat)
    ensures RankingOf([], bucketMs, n) == Iota(0, n)
  {
    TheRanking([], bucketMs, n);
    IotaMembers(0, n);
    assert IsRanking([], bucketMs, n, Iota(0, n));
  }

  lemma ListsAppend(a: seq<Ranked>, b: seq<Ranked>, cands: seq<Relay>, measured: seq<Option<nat>>,
                    s: seq<nat>, t: seq<nat>)
    requires Lists(a, cands, measured, s) && Lists(b, cands, measured, t)
    ensures Lists(a + b, cands, measured, s + t)
  {
  }

  /** rankByTCPLatency; `probes[i]` is what a probe of candidate i reports. Its result lists every
    * candidate with its measurement, in the ranking order. */
  method RankByTcpLatency(cands: seq<Relay>, maxProbes: nat, bucketMs: int, probes: seq<Option<nat>>)
    returns (out: seq<Ranked>)
    requires |probes| == |cands|
    ensures var measured := Measured(probes, maxProbes);
      Lists(out, cands, measured, RankingOf(measured, bucketMs, |cands|))
  {
    ghost var measured := Measured(probes, maxProbes);
    if |cands| < 2 {
      out := Unranked(cands);
      UnprobedRanking(bucketMs, |cands|);
      return;
    }
    var head, tail := cands, [];
    if |cands| > maxProbes {
      head, tail := cands[..maxProbes], cands[maxProbes..];
    }
    var probed := Probe(head, probes);
    var hits, failed;
    ghost var misses;
    hits, failed, misses := Split(probed, measured);
    var sorted := Sort(seq(|probed|, i requires 0 <= i < |probed| => probed[i].probeMs), bucketMs, hits);
    assert seq(|probed|, i requires 0 <= i < |probed| => probed[i].probeMs) == measured;
    SortSorts(measured, bucketMs, hits);
    assert forall k :: 0 <= k < |sorted| ==> sorted[k] in hits;
    out := Collect(probed, sorted);
    assert Lists(out, cands, measured, sorted);
    assert Lists(failed, cands, measured, misses);
    var rest := Unranked(tail);
    assert Lists(rest, cands, measured, Iota(|measured|, |cands|));
    JoinListsRanking(cands, measured, bucketMs, hits, sorted, misses, out, failed, rest);
    out := out + failed + rest;
  }

  /** The three parts, listed one behind the other, are the ranking. */
  lemma JoinListsRanking(cands: seq<Relay>, measured: seq<Option<nat>>, bucketMs: int,
                         hits: seq<nat>, sorted: seq<nat>, misses: seq<nat>,
                         front: seq<Ranked>, failed: seq<Ranked>, rest: seq<Ranked>)
    requires |measured| <= |cands|
    requires Chosen(measured, |measured|, true, hits) && Chosen(measured, |measured|, false, misses)
    requires SortedBy(measured, bucketMs, sorted) && forall y :: y in sorted <==> y in hits
    requires Lists(front, cands, measured, sorted) && Lists(failed, cands, measured, misses)
    requires Lists(rest, cands, measured, Iota(|measured|, |cands|))
    ensures Lists(front + failed + rest, cands, measured, RankingOf(measured, bucketMs, |cands|))
  {
    var tail := Iota(|measured|, |cands|);
    ListsAppend(front, failed, cands, measured, sorted, misses);
    ListsAppend(front + failed, rest, cands, measured, sorted + misses, tail);
    JoinIsRanking(measured, bucketMs, |cands|, hits, sorted, misses);
    TheRanking(measured, bucketMs, |cands|);
  }

  // ---- What a ranking is ----

  lemma HeadIsMember(s: seq<nat>)
    ensures s != [] ==> s[0] in s
  {
  }

  /** The greatest element comes last in every sorted listing. */
  lemma SameLast(measured: seq<Option<nat>>, bucketMs: int, a: seq<nat>, b: seq<nat>)
    requires SortedBy(measured, bucketMs, a) && SortedBy(measured, bucketMs, b)
    requires forall i: nat :: i in a <==> i in b
    requires a != []
    ensures b != [] && a[|a| - 1] == b[|b| - 1]
  {
    assert a[|a| - 1] in b;
    var x, y := a[|a| - 1], b[|b| - 1];
    assert x in b && y in a;
    assert !(Before(measured, bucketMs, x, y) && Before(measured, bucketMs, y, x));
  }

  lemma WithoutLast(measured: seq<Option<nat>>, bucketMs: int, a: seq<nat>, init: seq<nat>, x: nat)
    requires SortedBy(measured, bucketMs, a) && a == init + [x]
    ensures forall i: nat :: i in init <==> i in a && i != x
  {
    forall k | 0 <= k < |init| ensures init[k] != x {
      assert Before(measured, bucketMs, a[k], a[|init|]);
    }
  }

  /** There is only one ranking, whatever sort is used. */
  lemma {:induction false} RankingIsUnique(measured: seq<Option<nat>>, bucketMs: int, a: seq<nat>, b: seq<nat>)
    requires SortedBy(measured, bucketMs, a) && SortedBy(measured, bucketMs, b)
    requires forall i: nat :: i in a <==> i in b
    ensures a == b
    decreases |a|
  {
    if a == [] {
      HeadIsMember(b);
    } else {
      SameLast(measured, bucketMs, a, b);
      var x, a', b' := a[|a| - 1], a[..|a| - 1], b[..|b| - 1];
      assert a == a' + [x] && b == b' + [x];
      WithoutLast(measured, bucketMs, a, a', x);
      WithoutLast(measured, bucketMs, b, b', x);
      RankingIsUnique(measured, bucketMs, a', b');
    }
  }

  lemma {:induction false} EachOnce(s: seq<nat>)
    requires forall j, k :: 0 <= j < k < |s| ==> s[j] != s[k]
    ensures forall x :: multiset(s)[x] == if x in s then 1 else 0
  {
    if s != [] {
      EachOnce(s[..|s| - 1]);
      assert s == s[..|s| - 1] + [s[|s| - 1]];
    }
  }

  function At(cands: seq<Relay>): nat -> Relay
    requires |cands| > 0
  {
    (i: nat) => if i < |cands| then cands[i] else cands[0]
  }

  /** Ranking never drops, repeats or changes a relay. */
  lemma RankingPermutes(measured: seq<Option<nat>>, bucketMs: int, cands: seq<Relay>, order: seq<nat>)
    requires IsRanking(measured, bucketMs, |cands|, order)
    ensures forall k :: 0 <= k < |order| ==> order[k] < |cands|
    ensures multiset(Pick(cands, order)) == multiset(cands)
  {
    forall k | 0 <= k < |order| ensures order[k] < |cands| { assert order[k] in order; }
    if cands == [] {
      assert order == [];
    } else {
      var all := Iota(0, |cands|);
      IotaMembers(0, |cands|);
      forall j, k | 0 <= j < k < |order| ensures order[j] != order[k] {
        assert Before(measured, bucketMs, order[j], order[k]);
      }
      EachOnce(order);
      EachOnce(all);
      assert multiset(order) == multiset(all);
      MapPermutes(order, all, At(cands));
      assert Map(order, At(cands)) == Pick(cands, order);
      assert Map(all, At(cands)) == cands;
    }
  }

  /** The broker's order survives exactly when no candidate is probed faster, bucket-wise, than one
    * the broker listed before it; in particular when every probe fails. */
  lemma RankingIsBrokerOrderIff(measured: seq<Option<nat>>, bucketMs: int, n: nat)
    requires |measured| <= n
    ensures RankingOf(measured, bucketMs, n) == Iota(0, n) <==>
      forall i, j :: 0 <= i < j < |measured| && measured[j].Some? ==>
        measured[i].Some? && Bucket(measured, bucketMs, i) <= Bucket(measured, bucketMs, j)
    ensures (forall i :: 0 <= i < |measured| ==> measured[i].None?) ==> RankingOf(measured, bucketMs, n) == Iota(0, n)
  {
    var order, all := RankingOf(measured, bucketMs, n), Iota(0, n);
    TheRanking(measured, bucketMs, n);
    IotaMembers(0, n);
    if order == all {
      forall i, j | 0 <= i < j < |measured| && measured[j].Some?
        ensures measured[i].Some? && Bucket(measured, bucketMs, i) <= Bucket(measured, bucketMs, j)
      {
        assert Before(measured, bucketMs, order[i], order[j]);
      }
    }
    if SortedBy(measured, bucketMs, all) {
      assert IsRanking(measured, bucketMs, n, all);
    }
  }

  // ---- The order of a recovery ----

  /** What a ladder's ranking goes by: nothing for a pinned relay. */
  function LadderMeasured(identity: bool, probes: seq<Option<nat>>): seq<Option<nat>> {
    if identity then [] else Measured(probes, RELAY_RANK_MAX_PROBES)
  }

  /** rankLadder: a pinned relay is never reordered. */
  method RankLadder(cands: seq<Relay>, identity: bool, probes: seq<Option<nat>>) returns (out: seq<Ranked>)
    requires |probes| == |cands|
    ensures var measured := LadderMeasured(identity, probes);
      Lists(out, cands, measured, RankingOf(measured, RELAY_RANK_BUCKET_MS, |cands|))
    ensures identity ==> forall i :: 0 <= i < |cands| ==> i < |out| && out[i].relay == cands[i]
  {
    if identity || |cands| < 2 {
      out := Unranked(cands);
      UnprobedRanking(RELAY_RANK_BUCKET_MS, |cands|);
      return;
    }
    out := RankByTcpLatency(cands, RELAY_RANK_MAX_PROBES, RELAY_RANK_BUCKET_MS, probes);
  }

  method Candidates(ranked: seq<Ranked>) returns (out: seq<Relay>)
    ensures |out| == |ranked| && forall i :: 0 <= i < |ranked| ==> out[i] == ranked[i].relay
  {
    out := [];
    for i := 0 to |ranked|
      invariant |out| == i && forall j :: 0 <= j < i ==> out[j] == ranked[j].relay
    {
      out := out + [ranked[i].relay];
    }
  }

  /** The ladder a recovery walks: no relay is dropped or repeated, only IPv6 endpoints may have been
    * replaced, the relay that failed comes last, and the others keep the ranking order. */
  method RecoveryOrder(conn: Connection, cands: seq<Relay>, lacksV6: bool, identity: bool,
                       probes: seq<Option<nat>>, failedRelayId: string)
    returns (out: seq<Relay>)
    requires Remembered(conn.publicEndpoints) && |probes| == |cands|
    ensures multiset(Map(out, IdOf())) == multiset(Map(cands, IdOf()))
    ensures multiset(out) == multiset(if lacksV6 then Map(cands, Rewrite(conn.publicEndpoints)) else cands)
    ensures forall i, j :: 0 <= i < j < |out| && out[i].id == failedRelayId ==> out[j].id == failedRelayId
    ensures var ranked := InRanking(Adapt(conn.publicEndpoints, cands, lacksV6), LadderMeasured(identity, probes));
      Filter(out, Is(failedRelayId), false) == Filter(ranked, Is(failedRelayId), false)
  {
    var adapted := conn.AdaptToAddressFamily(cands, lacksV6);
    AdaptKeepsRelays(conn.publicEndpoints, cands, lacksV6);
    assert |adapted| == |cands| by {
      assert |multiset(Map(adapted, IdOf()))| == |adapted|;
      assert |multiset(Map(cands, IdOf()))| == |cands|;
    }
    var ranked := RankLadder(adapted, identity, probes);
    RankedPermutes(adapted, LadderMeasured(identity, probes));
    var ladder := Candidates(ranked);
    assert ladder == InRanking(adapted, LadderMeasured(identity, probes));
    out := DemoteRelay(ladder, failedRelayId);
    MapPermutes(out, adapted, IdOf());
  }

  /** The candidates in the order of their ranking. */
  function InRanking(cands: seq<Relay>, measured: seq<Option<nat>>): seq<Relay> {
    TheRanking(measured, RELAY_RANK_BUCKET_MS, |cands|);
    var order := RankingOf(measured, RELAY_RANK_BUCKET_MS, |cands|);
    assert forall k :: 0 <= k < |order| ==> order[k] in order;
    Pick(cands, order)
  }

  lemma RankedPermutes(cands: seq<Relay>, measured: seq<Option<nat>>)
    ensures multiset(InRanking(cands, measured)) == multiset(cands)
  {
    TheRanking(measured, RELAY_RANK_BUCKET_MS, |cands|);
    RankingPermutes(measured, RELAY_RANK_BUCKET_MS, cands, RankingOf(measured, RELAY_RANK_BUCKET_MS, |cands|));
  }
}
