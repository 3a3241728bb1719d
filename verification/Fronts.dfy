/** The set of WSS fronts a relay advertises: its normal form, and which sets a client uses. */
module Fronts {
  import opened FrontUrl
  import L = Ladder
  import opened Prelude
  import opened Text

  const MAX_FRONTS: nat := 4
  const PROTOCOL_VERSION: int := 1

  datatype Front = Front(id: string, url: string, version: int)

  // ---- The order of IDs ----

  predicate Less(a: string, b: string) {
    b != "" && (a == "" || a[0] < b[0] || (a[0] == b[0] && Less(a[1..], b[1..])))
  }

  lemma {:induction false} LessIsStrict(a: string, b: string)
    ensures !(Less(a, b) && Less(b, a)) && !Less(a, a)
    ensures a == b || Less(a, b) || Less(b, a)
  {
    if a != "" && b != "" {
      LessIsStrict(a[1..], b[1..]);
      assert a == [a[0]] + a[1..] && b == [b[0]] + b[1..];
    } else if a != "" {
      LessIsStrict(a[1..], b);
    }
  }

  lemma {:induction false} LessIsTransitive(a: string, b: string, c: string)
    requires Less(a, b) && Less(b, c)
    ensures Less(a, c)
  {
    if a != "" && a[0] == b[0] == c[0] { LessIsTransitive(a[1..], b[1..], c[1..]); }
  }

  predicate Increasing(s: seq<Front>) {
    forall i, j :: 0 <= i < j < |s| ==> Less(s[i].id, s[j].id)
  }

  predicate NonDecreasing(s: seq<Front>) {
    forall i, j :: 0 <= i < j < |s| ==> !Less(s[j].id, s[i].id)
  }

  // ---- Normal forms ----

  function NormalizeFront(f: Front): Option<Front> {
    if NormalizeFrontId(f.id).None? || f.version != PROTOCOL_VERSION || NormalizeFrontUrl(f.url).None? then None
    else Some(Front(NormalizeFrontId(f.id).value, NormalizeFrontUrl(f.url).value, PROTOCOL_VERSION))
  }

  /** The normal form of a front that has one. */
  function Norm(): Front -> Front {
    (f: Front) => if NormalizeFront(f).Some? then NormalizeFront(f).value else f
  }

  function IdOf(): Front -> string { (f: Front) => f.id }

  function UrlOf(): Front -> string { (f: Front) => f.url }

  predicate Distinct(s: seq<string>) { forall i, j :: 0 <= i < j < |s| ==> s[i] != s[j] }

  predicate DistinctFronts(s: seq<Front>) { Distinct(L.Map(s, IdOf())) && Distinct(L.Map(s, UrlOf())) }

  predicate AllNormalize(s: seq<Front>) { forall i :: 0 <= i < |s| ==> NormalizeFront(s[i]).Some? }

  predicate Acceptable(fronts: seq<Front>) {
    |fronts| <= MAX_FRONTS && AllNormalize(fronts) && DistinctFronts(L.Map(fronts, Norm()))
  }

  /** The fronts' normal forms, in strictly increasing order of their IDs. */
  predicate IsNormalForm(fronts: seq<Front>, out: seq<Front>) {
    multiset(out) == multiset(L.Map(fronts, Norm())) && Increasing(out)
  }

  // ---- Distinctness ----

  lemma {:induction false} DistinctIsOnce(s: seq<string>)
    requires Distinct(s)
    ensures forall x :: multiset(s)[x] <= 1
  {
    if s != [] {
      DistinctIsOnce(s[..|s| - 1]);
      assert s == s[..|s| - 1] + [s[|s| - 1]];
      assert s[|s| - 1] !in s[..|s| - 1];
    }
  }

  lemma TwiceIsTwo(s: seq<string>, i: nat, j: nat)
    requires i < j < |s| && s[i] == s[j]
    ensures multiset(s)[s[i]] >= 2
  {
    assert s == s[..j] + [s[j]] + s[j + 1..];
    assert s[..j][i] == s[i];
    assert multiset(s[..j])[s[i]] >= 1;
  }

  lemma DistinctPermutes(s: seq<string>, t: seq<string>)
    requires multiset(s) == multiset(t) && Distinct(s)
    ensures Distinct(t)
  {
    DistinctIsOnce(s);
    forall i, j | 0 <= i < j < |t| ensures t[i] != t[j] {
      if t[i] == t[j] { TwiceIsTwo(t, i, j); }
    }
  }

  lemma DistinctFrontsPermute(s: seq<Front>, t: seq<Front>)
    requires multiset(s) == multiset(t)
    ensures DistinctFronts(s) <==> DistinctFronts(t)
  {
    L.MapPermutes(s, t, IdOf());
    L.MapPermutes(s, t, UrlOf());
    if DistinctFronts(s) {
      DistinctPermutes(L.Map(s, IdOf()), L.Map(t, IdOf()));
      DistinctPermutes(L.Map(s, UrlOf()), L.Map(t, UrlOf()));
    }
    if DistinctFronts(t) {
      DistinctPermutes(L.Map(t, IdOf()), L.Map(s, IdOf()));
      DistinctPermutes(L.Map(t, UrlOf()), L.Map(s, UrlOf()));
    }
  }

  // ---- Sorting ----

  function Insert(f: Front, s: seq<Front>): seq<Front> {
    if s == [] || Less(f.id, s[0].id) then [f] + s else [s[0]] + Insert(f, s[1..])
  }

  lemma {:induction false} InsertKeeps(f: Front, s: seq<Front>)
    ensures multiset(Insert(f, s)) == multiset(s) + multiset{f}
  {
    if s != [] && !Less(f.id, s[0].id) {
      InsertKeeps(f, s[1..]);
      assert s == [s[0]] + s[1..];
    }
  }

  lemma BeforeAll(f: Front, s: seq<Front>)
    requires NonDecreasing(s) && s != [] && Less(f.id, s[0].id)
    ensures forall k :: 0 <= k < |s| ==> !Less(s[k].id, f.id)
  {
    forall k | 0 <= k < |s| ensures !Less(s[k].id, f.id) {
      if Less(s[k].id, f.id) {
        LessIsTransitive(s[k].id, f.id, s[0].id);
        LessIsStrict(s[0].id, s[k].id);
      }
    }
  }

  lemma {:induction false} InsertSorts(f: Front, s: seq<Front>)
    requires NonDecreasing(s)
    ensures NonDecreasing(Insert(f, s))
  {
    if s != [] && !Less(f.id, s[0].id) {
      InsertSorts(f, s[1..]);
      InsertKeeps(f, s[1..]);
      var rest := Insert(f, s[1..]);
      forall k | 0 <= k < |rest| ensures !Less(rest[k].id, s[0].id) {
        assert rest[k] in multiset(rest);
        assert rest[k] == f || rest[k] in s[1..];
      }
    } else if s != [] {
      BeforeAll(f, s);
    }
  }

  /** Sorting by ID; of equal IDs nothing is promised, as for any unstable sort. */
  method SortById(s: seq<Front>) returns (t: seq<Front>)
    ensures multiset(t) == multiset(s) && NonDecreasing(t)
  {
    t := [];
    for i := 0 to |s|
      invariant multiset(t) == multiset(s[..i]) && NonDecreasing(t)
    {
      InsertSorts(s[i], t);
      InsertKeeps(s[i], t);
      t := Insert(s[i], t);
      assert s[..i + 1] == s[..i] + [s[i]];
    }
    assert s[..|s|] == s;
  }

  // ---- Normalising ----

  /** The duplicate checks after sorting: they pass exactly when all IDs and URLs differ. */
  method CheckDuplicates(sorted: seq<Front>) returns (ok: bool)
    requires NonDecreasing(sorted)
    ensures ok <==> DistinctFronts(sorted)
    ensures ok ==> Increasing(sorted)
  {
    var seen: set<string> := {};
    ghost var ids, urls := L.Map(sorted, IdOf()), L.Map(sorted, UrlOf());
    for i := 0 to |sorted|
      invariant forall u :: u in seen <==> exists j :: 0 <= j < i && urls[j] == u
      invariant Distinct(urls[..i])
      invariant forall j :: 0 < j < i ==> ids[j - 1] != ids[j]
    {
      if i > 0 && sorted[i - 1].id == sorted[i].id {
        assert ids[i - 1] == ids[i];
        return false;
      }
      if sorted[i].url in seen {
        ghost var j :| 0 <= j < i && urls[j] == sorted[i].url;
        assert urls[j] == urls[i];
        return false;
      }
      seen := seen + {sorted[i].url};
    }
    AdjacentIncreasing(sorted);
    assert urls[..|sorted|] == urls;
    forall i, j | 0 <= i < j < |ids| ensures ids[i] != ids[j] {
      LessIsStrict(sorted[i].id, sorted[j].id);
    }
    ok := true;
  }

  lemma {:induction false} AdjacentIncreasing(s: seq<Front>)
    requires NonDecreasing(s) && forall j :: 0 < j < |s| ==> s[j - 1].id != s[j].id
    ensures Increasing(s)
  {
    if |s| > 1 {
      var past, n := s[..|s| - 1], |s|;
      AdjacentIncreasing(past);
      LessIsStrict(s[n - 2].id, s[n - 1].id);
      forall i | 0 <= i < n - 1 ensures Less(s[i].id, s[n - 1].id) {
        if i < n - 2 {
          assert Less(past[i].id, past[n - 2].id);
          LessIsTransitive(s[i].id, s[n - 2].id, s[n - 1].id);
        }
      }
      assert forall i, j :: 0 <= i < j < n - 1 ==> Less(past[i].id, past[j].id);
    }
  }

  /** Succeeds exactly on acceptable sets, with their normal form. */
  method NormalizeFronts(fronts: seq<Front>) returns (r: Option<seq<Front>>)
    ensures r.Some? <==> Acceptable(fronts)
    ensures r.Some? ==> IsNormalForm(fronts, r.value)
  {
    if |fronts| == 0 {
      return Some([]);
    }
    if |fronts| > MAX_FRONTS {
      return None;
    }
    var normalized: seq<Front> := [];
    for i := 0 to |fronts|
      invariant |normalized| == i
      invariant forall j :: 0 <= j < i ==> NormalizeFront(fronts[j]) == Some(normalized[j])
    {
      var id := NormalizeFrontId(fronts[i].id);
      if id.None? {
        return None;
      }
      if fronts[i].version != PROTOCOL_VERSION {
        return None;
      }
      var url := NormalizeFrontUrl(fronts[i].url);
      if url.None? {
        return None;
      }
      normalized := normalized + [Front(id.value, url.value, PROTOCOL_VERSION)];
    }
    assert normalized == L.Map(fronts, Norm());
    var sorted := SortById(normalized);
    DistinctFrontsPermute(sorted, normalized);
    var ok := CheckDuplicates(sorted);
    r := if ok then Some(sorted) else None;
  }

  // ---- What a normal form is ----

  lemma SameLastFront(a: seq<Front>, b: seq<Front>)
    requires Increasing(a) && Increasing(b) && multiset(a) == multiset(b) && a != []
    ensures b != [] && a[|a| - 1] == b[|b| - 1]
  {
    var x := a[|a| - 1];
    assert x in multiset(a);
    assert x in b;
    var y := b[|b| - 1];
    assert y in multiset(b);
    assert y in a;
    LessIsStrict(x.id, y.id);
  }

  lemma DropLast(s: seq<Front>)
    requires s != []
    ensures multiset(s[..|s| - 1]) == multiset(s) - multiset{s[|s| - 1]}
  {
    assert s == s[..|s| - 1] + [s[|s| - 1]];
  }

  /** There is only one strictly increasing listing of the same fronts. */
  lemma {:induction false} IncreasingIsUnique(a: seq<Front>, b: seq<Front>)
    requires Increasing(a) && Increasing(b) && multiset(a) == multiset(b)
    ensures a == b
    decreases |a|
  {
    if a == [] {
      assert |multiset(b)| == 0;
    } else {
      SameLastFront(a, b);
      DropLast(a);
      DropLast(b);
      IncreasingIsUnique(a[..|a| - 1], b[..|b| - 1]);
      assert a == a[..|a| - 1] + [a[|a| - 1]];
    }
  }

  lemma AllNormalizePermutes(a: seq<Front>, b: seq<Front>)
    requires multiset(a) == multiset(b) && AllNormalize(a)
    ensures AllNormalize(b)
  {
    forall i | 0 <= i < |b| ensures NormalizeFront(b[i]).Some? {
      assert b[i] in multiset(b);
      assert b[i] in a;
    }
  }

  /** Neither success nor the result depends on the order of the input. */
  lemma NormalFormIgnoresOrder(a: seq<Front>, b: seq<Front>, x: seq<Front>, y: seq<Front>)
    requires multiset(a) == multiset(b)
    ensures Acceptable(a) <==> Acceptable(b)
    ensures IsNormalForm(a, x) && IsNormalForm(b, y) ==> x == y
  {
    assert |multiset(a)| == |a| && |multiset(b)| == |b|;
    L.MapPermutes(a, b, Norm());
    DistinctFrontsPermute(L.Map(a, Norm()), L.Map(b, Norm()));
    if AllNormalize(a) { AllNormalizePermutes(a, b); }
    if AllNormalize(b) { AllNormalizePermutes(b, a); }
    if IsNormalForm(a, x) && IsNormalForm(b, y) { IncreasingIsUnique(x, y); }
  }

  predicate CanonicalFront(f: Front) {
    ValidFrontId(f.id) && CanonicalUrl(f.url) && f.version == PROTOCOL_VERSION
  }

  /** A set in canonical form, said without normalising. */
  predicate CanonicalFronts(s: seq<Front>) {
    && |s| <= MAX_FRONTS
    && (forall i :: 0 <= i < |s| ==> CanonicalFront(s[i]))
    && Increasing(s)
    && Distinct(L.Map(s, UrlOf()))
  }

  lemma NormalFrontIsCanonical(f: Front)
    requires NormalizeFront(f).Some?
    ensures CanonicalFront(NormalizeFront(f).value)
  {
    FrontIdFixpoints(f.id);
    FrontUrlFixpoints(f.url);
  }

  lemma CanonicalFrontIsNormal(f: Front)
    requires CanonicalFront(f)
    ensures NormalizeFront(f) == Some(f)
  {
    FrontIdFixpoints(f.id);
    FrontUrlFixpoints(f.url);
  }

  lemma IncreasingIsDistinct(s: seq<Front>)
    requires Increasing(s)
    ensures Distinct(L.Map(s, IdOf()))
  {
    forall i, j | 0 <= i < j < |s| ensures s[i].id != s[j].id {
      LessIsStrict(s[i].id, s[j].id);
    }
  }

  /** Every normal form is canonical, with strictly increasing IDs and distinct URLs, and the canonical
    * sets are exactly those that are their own normal form: normalising is idempotent. */
  lemma FrontSetFixpoints(fronts: seq<Front>, out: seq<Front>)
    ensures Acceptable(fronts) && IsNormalForm(fronts, out) ==> CanonicalFronts(out)
    ensures CanonicalFronts(fronts) <==> Acceptable(fronts) && IsNormalForm(fronts, fronts)
  {
    if Acceptable(fronts) && IsNormalForm(fronts, out) { NormalFormIsCanonical(fronts, out); }
    if Acceptable(fronts) && IsNormalForm(fronts, fronts) { NormalFormIsCanonical(fronts, fronts); }
    if CanonicalFronts(fronts) {
      forall i | 0 <= i < |fronts| ensures NormalizeFront(fronts[i]) == Some(fronts[i]) {
        CanonicalFrontIsNormal(fronts[i]);
      }
      assert L.Map(fronts, Norm()) == fronts;
      IncreasingIsDistinct(fronts);
    }
  }

  lemma NormalFormIsCanonical(fronts: seq<Front>, out: seq<Front>)
    requires Acceptable(fronts) && IsNormalForm(fronts, out)
    ensures CanonicalFronts(out)
  {
    var normal := L.Map(fronts, Norm());
    DistinctFrontsPermute(normal, out);
    assert |multiset(out)| == |out| && |multiset(normal)| == |normal|;
    forall i | 0 <= i < |out| ensures CanonicalFront(out[i]) {
      assert out[i] in multiset(out);
      assert out[i] in normal;
      var j :| 0 <= j < |normal| && normal[j] == out[i];
      NormalFrontIsCanonical(fronts[j]);
    }
  }

  // ---- What a client uses ----

  /** The fields of a relay descriptor that decide on its fronts. */
  datatype Candidate = Candidate(
    transport: string,
    nodeClass: string,
    exitMode: string,
    publicPort: int,
    fronts: seq<Front>)

  /** A direct-mode Foundation relay, reached directly at port 443. */
  predicate EligibleRelay(c: Candidate) {
    && Lower(TrimSpace(c.transport)) in {"", "direct"}
    && c.nodeClass == "foundation" && c.exitMode == "direct" && c.publicPort == 443
  }

  /** The advertised fronts as they are, if the relay is eligible and they are canonical; else none. */
  method SupportedFronts(c: Candidate) returns (fronts: seq<Front>)
    ensures fronts == if EligibleRelay(c) && CanonicalFronts(c.fronts) then c.fronts else []
  {
    var transport := Lower(TrimSpace(c.transport));
    if transport == "" {
      transport := "direct";
    }
    if transport != "direct" || c.nodeClass != "foundation" || c.exitMode != "direct" || c.publicPort != 443 {
      return [];
    }
    var normalized := NormalizeFronts(c.fronts);
    FrontSetFixpoints(c.fronts, c.fronts);
    if normalized.Some? {
      NormalFormIgnoresOrder(c.fronts, c.fronts, normalized.value, c.fronts);
    }
    if normalized.None? || normalized.value != c.fronts {
      return [];
    }
    return c.fronts;
  }
}
