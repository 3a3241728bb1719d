/** Canonical IDs and URLs of WSS fronts. Text is a sequence of Unicode characters. */
module FrontUrl {
  import opened Prelude
  import opened Text

  const MAX_FRONT_ID_BYTES: nat := 64
  const MAX_FRONT_URL_BYTES: nat := 512
  const BRIDGE_PATH: string := "/api/v1/wss-bridge"
  const SCHEME: string := "wss://"

  // The two letters outside ASCII whose lower case is an ASCII letter.
  const KELVIN_SIGN: char := '\U{212A}'
  const DOTTED_I: char := '\U{130}'

  // ---- Characters ----

  predicate IsLetter(c: char) { 'a' <= c <= 'z' }

  predicate IsAlphaNumeric(c: char) { IsLetter(c) || '0' <= c <= '9' }

  function AsciiLowerChar(c: char): char {
    if 'A' <= c <= 'Z' then (c as int + 32) as char else c
  }

  /** Lower case where it yields ASCII; what stays outside ASCII is refused by every caller. */
  function LowerChar(c: char): char {
    if c == KELVIN_SIGN then 'k' else if c == DOTTED_I then 'i' else AsciiLowerChar(c)
  }

  function Lower(s: string): (r: string)
    ensures |r| == |s| && forall i :: 0 <= i < |s| ==> r[i] == LowerChar(s[i])
  {
    seq(|s|, i requires 0 <= i < |s| => LowerChar(s[i]))
  }

  function AsciiLower(s: string): (r: string)
    ensures |r| == |s| && forall i :: 0 <= i < |s| ==> r[i] == AsciiLowerChar(s[i])
  {
    seq(|s|, i requires 0 <= i < |s| => AsciiLowerChar(s[i]))
  }

  function Utf8Len(c: char): nat {
    if c as int < 0x80 then 1 else if c as int < 0x800 then 2 else if c as int < 0x10000 then 3 else 4
  }

  function ByteLen(s: string): nat {
    if s == "" then 0 else Utf8Len(s[0]) + ByteLen(s[1..])
  }

  lemma {:induction false} AsciiByteLen(s: string)
    requires forall i :: 0 <= i < |s| ==> s[i] as int < 0x80
    ensures ByteLen(s) == |s|
  {
    if s != "" { AsciiByteLen(s[1..]); }
  }

  lemma {:induction false} ByteLenBound(s: string)
    ensures ByteLen(s) <= 4 * |s|
  {
    if s != "" { ByteLenBound(s[1..]); }
  }

  function IndexOf(s: string, c: char): (i: nat)
    ensures i <= |s| && c !in s[..i] && (i < |s| ==> s[i] == c)
  {
    if s == "" || s[0] == c then 0
    else
      assert s[..IndexOf(s[1..], c) + 1] == [s[0]] + s[1..][..IndexOf(s[1..], c)];
      IndexOf(s[1..], c) + 1
  }

  lemma SliceMember(s: string, i: nat, k: nat)
    requires k < i <= |s|
    ensures s[k] in s[..i] && s[k] in s
  {
    assert s[..i][k] == s[k];
  }

  lemma IndexOfFirst(a: string, b: string, c: char)
    requires c !in a && (b == "" || b[0] == c)
    ensures IndexOf(a + b, c) == |a|
  {
    var i := IndexOf(a + b, c);
    if i > |a| {
      SliceMember(a + b, i, |a|);
    }
  }

  predicate HasControlSpace(s: string) { '\r' in s || '\n' in s || '\t' in s }

  // ---- IDs ----

  predicate ValidFrontId(v: string) {
    && 0 < |v| <= MAX_FRONT_ID_BYTES
    && IsAlphaNumeric(v[0]) && IsAlphaNumeric(v[|v| - 1])
    && forall i :: 0 <= i < |v| ==> IsAlphaNumeric(v[i]) || v[i] in {'.', '_', '-'}
  }

  function NormalizeFrontId(value: string): Option<string> {
    if HasControlSpace(value) then None
    else
      var normalized := Lower(TrimSpace(value));
      if ValidFrontId(normalized) then Some(normalized) else None
  }

  predicate ValidateFrontId(value: string) {
    NormalizeFrontId(value).Some? && NormalizeFrontId(value).value == value
  }

  /** Normal IDs are exactly the valid ones: normalising is idempotent, and validation accepts its
    * fixpoints and nothing else. */
  lemma FrontIdFixpoints(value: string)
    ensures NormalizeFrontId(value).Some? ==> ValidFrontId(NormalizeFrontId(value).value)
    ensures ValidFrontId(value) <==> NormalizeFrontId(value) == Some(value)
    ensures ValidateFrontId(value) <==> ValidFrontId(value)
  {
    if ValidFrontId(value) {
      TrimSpaceTrims(value);
      assert Lower(value) == value;
    }
  }

  // ---- Host names ----

  function Split(s: string): seq<string>
    decreases |s|
  {
    var i := IndexOf(s, '.');
    if i == |s| then [s] else [s[..i]] + Split(s[i + 1..])
  }

  predicate IsLabelChar(c: char) { IsAlphaNumeric(c) || c == '-' }

  predicate ValidLabel(l: string) {
    && 0 < |l| <= 63 && l[0] != '-' && l[|l| - 1] != '-'
    && forall i :: 0 <= i < |l| ==> IsLabelChar(l[i])
  }

  /** A lower-case DNS name of two labels or more whose last one starts with a letter. No IPv4 or
    * IPv6 literal is one. */
  predicate ValidDnsName(host: string) {
    && 0 < |host| <= 253 && host[|host| - 1] != '.'
    && var labels := Split(host);
       && |labels| >= 2
       && (forall i :: 0 <= i < |labels| ==> ValidLabel(labels[i]))
       && IsLetter(labels[|labels| - 1][0])
  }

  lemma {:induction false} SplitChars(s: string)
    requires forall i :: 0 <= i < |Split(s)| ==> ValidLabel(Split(s)[i])
    ensures forall i :: 0 <= i < |s| ==> IsLabelChar(s[i]) || s[i] == '.'
    decreases |s|
  {
    var k := IndexOf(s, '.');
    assert ValidLabel(Split(s)[0]);
    if k == |s| {
      assert Split(s)[0] == s;
    } else {
      var rest := Split(s[k + 1..]);
      assert forall i :: 0 <= i < |rest| ==> rest[i] == Split(s)[i + 1];
      SplitChars(s[k + 1..]);
      forall i | 0 <= i < |s| ensures IsLabelChar(s[i]) || s[i] == '.' {
        if i < k { assert s[i] == Split(s)[0][i]; }
        else if i > k { assert s[i] == s[k + 1..][i - k - 1]; }
      }
    }
  }

  /** Percent escapes in a host: those of the two special letters; any other leaves a character that
    * no DNS name has, or is malformed. */
  function UnescapeHost(s: string): string
    decreases |s|
  {
    if s == "" then ""
    else
      var n := EscapeLength(s);
      [if n == 9 then KELVIN_SIGN else if n == 6 then DOTTED_I else s[0]] + UnescapeHost(s[n..])
  }

  /** The length of the escape a host starts with, or one. */
  function EscapeLength(s: string): (n: nat)
    requires s != ""
    ensures 1 <= n <= |s|
  {
    if s[0] != '%' then 1
    else if |s| >= 9 && AsciiLower(s[..9]) == "%e2%84%aa" then 9
    else if |s| >= 6 && AsciiLower(s[..6]) == "%c4%b0" then 6
    else 1
  }

  lemma {:induction false} UnescapePlain(a: string, b: string)
    requires '%' !in a
    ensures UnescapeHost(a + b) == a + UnescapeHost(b)
    decreases |a|
  {
    if a == "" {
      assert a + b == b;
    } else {
      assert (a + b)[1..] == a[1..] + b;
      UnescapePlain(a[1..], b);
    }
  }

  lemma NothingToUnescape(s: string)
    requires '%' !in s
    ensures UnescapeHost(s) == s
  {
    UnescapePlain(s, "");
    assert s + "" == s;
  }

  // ---- URLs ----

  /** The parts of a URL that normalising looks at. */
  datatype Parts = Parts(authority: string, path: string)

  predicate HasControl(s: string) {
    exists i :: 0 <= i < |s| && (s[i] < ' ' || s[i] as int == 0x7F)
  }

  /** The text before the fragment, which must be empty; a bare '#' is an empty fragment. */
  function CutFragment(t: string): Option<string> {
    var i := IndexOf(t, '#');
    if i + 1 < |t| then None else Some(t[..i])
  }

  /** What follows "wss://", in either case, if there is no query. */
  function CutScheme(u: string): Option<string> {
    if |u| < 6 || AsciiLower(u[..3]) != "wss" || u[3] != ':' || '?' in u[4..] || u[4..6] != "//" then None
    else Some(u[6..])
  }

  /** The authority, without user information or port, and the path. */
  function CutPath(rest: string): Option<Parts> {
    var i := IndexOf(rest, '/');
    if '@' in rest[..i] || ':' in rest[..i] then None else Some(Parts(rest[..i], rest[i..]))
  }

  function ParseFront(t: string): Option<Parts> {
    if HasControl(t) || CutFragment(t).None? || CutScheme(CutFragment(t).value).None? then None
    else CutPath(CutScheme(CutFragment(t).value).value)
  }

  function NormalizeFrontUrl(raw: string): Option<string> {
    if HasControlSpace(raw) then None
    else
      var t := TrimSpace(raw);
      if t == "" || ByteLen(t) > MAX_FRONT_URL_BYTES || ParseFront(t).None? then None
      else
        var parts := ParseFront(t).value;
        var host := Lower(UnescapeHost(parts.authority));
        if !ValidDnsName(host) || parts.path != BRIDGE_PATH then None
        else Some(SCHEME + host + BRIDGE_PATH)
  }

  predicate ValidateFrontUrl(raw: string) {
    NormalizeFrontUrl(raw).Some? && NormalizeFrontUrl(raw).value == raw
  }

  /** The scheme, a DNS name and the bridge path, and nothing else. */
  predicate CanonicalUrl(v: string) {
    && |v| > |SCHEME| + |BRIDGE_PATH|
    && v[..|SCHEME|] == SCHEME && v[|v| - |BRIDGE_PATH|..] == BRIDGE_PATH
    && ValidDnsName(v[|SCHEME|..|v| - |BRIDGE_PATH|])
  }

  // ---- The grammar ----

  /** How a host may be spelled: DNS characters in either case, the two special letters, escapes. */
  predicate IsAuthorityChar(c: char) {
    IsLabelChar(AsciiLowerChar(c)) || c in {'.', '%', KELVIN_SIGN, DOTTED_I}
  }

  predicate IsUrlChar(c: char) { IsAuthorityChar(c) || c in {'/', ':'} }

  predicate AllUrlChars(s: string) { forall i :: 0 <= i < |s| ==> IsUrlChar(s[i]) }

  predicate AllAuthorityChars(s: string) { forall i :: 0 <= i < |s| ==> IsAuthorityChar(s[i]) }

  lemma NotUrlChar(s: string, c: char)
    requires AllUrlChars(s) && !IsUrlChar(c)
    ensures c !in s
  {
  }

  lemma NotAuthorityChar(s: string, c: char)
    requires AllAuthorityChars(s) && !IsAuthorityChar(c)
    ensures c !in s
  {
  }

  /** What an escape is spelled with. */
  lemma EscapeChars(s: string)
    requires AsciiLower(s) == "%e2%84%aa" || AsciiLower(s) == "%c4%b0"
    ensures AllAuthorityChars(s)
  {
    forall i | 0 <= i < |s| ensures IsAuthorityChar(s[i]) {
      assert AsciiLower(s)[i] == AsciiLowerChar(s[i]);
    }
  }

  /** Characters that lower case turns into those of a DNS name. */
  predicate ReadsAsDns(u: string) {
    forall i :: 0 <= i < |u| ==> IsLabelChar(LowerChar(u[i])) || LowerChar(u[i]) == '.'
  }

  lemma UnescapeFirst(s: string)
    requires s != "" && ReadsAsDns(UnescapeHost(s))
    ensures ReadsAsDns(UnescapeHost(s[EscapeLength(s)..]))
    ensures EscapeLength(s) == 1 ==> IsAuthorityChar(s[0])
  {
    var u, rest := UnescapeHost(s), UnescapeHost(s[EscapeLength(s)..]);
    assert u == [u[0]] + rest;
    assert forall i :: 0 <= i < |rest| ==> rest[i] == u[i + 1];
  }

  lemma AuthorityAppend(a: string, b: string)
    requires AllAuthorityChars(a) && AllAuthorityChars(b)
    ensures AllAuthorityChars(a + b)
  {
  }

  /** A host that reads as DNS characters is spelled with authority characters. */
  lemma {:induction false} SpelledChars(s: string)
    requires ReadsAsDns(UnescapeHost(s))
    ensures AllAuthorityChars(s)
    decreases |s|
  {
    if s != "" {
      var n := EscapeLength(s);
      UnescapeFirst(s);
      SpelledChars(s[n..]);
      if n > 1 { EscapeChars(s[..n]); }
      AuthorityAppend(s[..n], s[n..]);
      assert s == s[..n] + s[n..];
    }
  }

  lemma DnsChars(host: string)
    requires ValidDnsName(host)
    ensures forall i :: 0 <= i < |host| ==> IsLabelChar(host[i]) || host[i] == '.'
  {
    SplitChars(host);
  }

  /** One way to spell a front URL: the scheme in any case, the host in any spelling, the path as it
    * is, and perhaps a bare '#'. */
  predicate SpelledBy(t: string, scheme: string, authority: string, hash: string, host: string) {
    && t == scheme + "://" + authority + BRIDGE_PATH + hash
    && AsciiLower(scheme) == "wss" && hash in {"", "#"}
    && Lower(UnescapeHost(authority)) == host && ValidDnsName(host)
  }

  ghost predicate Spells(t: string, host: string) {
    exists scheme, authority, hash :: SpelledBy(t, scheme, authority, hash, host)
  }

  lemma AuthorityChars(authority: string, host: string)
    requires Lower(UnescapeHost(authority)) == host && ValidDnsName(host)
    ensures AllAuthorityChars(authority)
  {
    DnsChars(host);
    var u := UnescapeHost(authority);
    forall i | 0 <= i < |u| ensures IsLabelChar(LowerChar(u[i])) || LowerChar(u[i]) == '.' {
      assert host[i] == LowerChar(u[i]);
    }
    SpelledChars(authority);
  }

  lemma SchemeChars(scheme: string)
    requires AsciiLower(scheme) == "wss"
    ensures |scheme| == 3 && AllUrlChars(scheme + "://")
  {
    forall i | 0 <= i < |scheme| ensures IsUrlChar(scheme[i]) {
      assert AsciiLower(scheme)[i] == AsciiLowerChar(scheme[i]);
    }
  }

  lemma FragmentCut(v: string, hash: string)
    requires AllUrlChars(v) && hash in {"", "#"}
    ensures CutFragment(v + hash) == Some(v) && !HasControl(v + hash)
  {
    NotUrlChar(v, '#');
    IndexOfFirst(v, hash, '#');
    assert (v + hash)[..|v|] == v;
  }

  lemma SchemeCut(scheme: string, rest: string)
    requires AsciiLower(scheme) == "wss" && AllUrlChars(scheme + "://" + rest)
    ensures CutScheme(scheme + "://" + rest) == Some(rest)
  {
    var v := scheme + "://" + rest;
    assert |scheme| == 3 && v[..3] == scheme;
    assert v[4..6] == "//";
    NotUrlChar(v[4..], '?');
    assert v[6..] == rest;
  }

  lemma PathCut(authority: string, path: string)
    requires path != "" && path[0] == '/' && AllAuthorityChars(authority)
    ensures CutPath(authority + path) == Some(Parts(authority, path))
  {
    NotAuthorityChar(authority, '/');
    NotAuthorityChar(authority, '@');
    NotAuthorityChar(authority, ':');
    IndexOfFirst(authority, path, '/');
    assert (authority + path)[..|authority|] == authority && (authority + path)[|authority|..] == path;
  }

  lemma SpelledParses(t: string, scheme: string, authority: string, hash: string, host: string)
    requires SpelledBy(t, scheme, authority, hash, host)
    ensures ParseFront(t) == Some(Parts(authority, BRIDGE_PATH))
  {
    AuthorityChars(authority, host);
    SchemeChars(scheme);
    var rest := authority + BRIDGE_PATH;
    var v := scheme + "://" + rest;
    assert AllUrlChars(BRIDGE_PATH);
    assert AllUrlChars(v);
    assert t == v + hash;
    FragmentCut(v, hash);
    SchemeCut(scheme, rest);
    PathCut(authority, BRIDGE_PATH);
  }

  lemma FragmentSplit(t: string)
    requires CutFragment(t).Some?
    ensures var u := CutFragment(t).value; |u| <= |t| && t == u + t[|u|..] && t[|u|..] in {"", "#"}
  {
    var u := CutFragment(t).value;
    assert t[|u|..] == if |u| == |t| then "" else "#";
  }

  lemma SchemeSplit(u: string)
    requires CutScheme(u).Some?
    ensures |u| >= 6 && AsciiLower(u[..3]) == "wss" && u == u[..3] + "://" + CutScheme(u).value
  {
    assert u[3..6] == [u[3]] + u[4..6] == "://";
  }

  lemma PathSplit(rest: string)
    requires CutPath(rest).Some?
    ensures rest == CutPath(rest).value.authority + CutPath(rest).value.path
  {
  }

  lemma Joined(head: string, authority: string, path: string, hash: string)
    ensures head + (authority + path) + hash == head + authority + path + hash
  {
  }

  lemma ParsedIsSpelled(t: string)
    requires ParseFront(t).Some?
    ensures var p := ParseFront(t).value; var u := CutFragment(t).value;
      && 6 <= |u| <= |t| && AsciiLower(u[..3]) == "wss" && t[|u|..] in {"", "#"}
      && t == u[..3] + "://" + p.authority + p.path + t[|u|..]
  {
    var u := CutFragment(t).value;
    var rest := CutScheme(u).value;
    FragmentSplit(t);
    SchemeSplit(u);
    PathSplit(rest);
    Joined(u[..3] + "://", CutPath(rest).value.authority, CutPath(rest).value.path, t[|u|..]);
  }

  /** Exactly the spellings of a DNS name as a front URL are accepted, if they fit and hold no line
    * break or tab, and each becomes that name's canonical URL. */
  lemma FrontUrlGrammar(raw: string, host: string)
    ensures NormalizeFrontUrl(raw) == Some(SCHEME + host + BRIDGE_PATH) <==>
      !HasControlSpace(raw) && ByteLen(TrimSpace(raw)) <= MAX_FRONT_URL_BYTES && Spells(TrimSpace(raw), host)
  {
    var t := TrimSpace(raw);
    if NormalizeFrontUrl(raw) == Some(SCHEME + host + BRIDGE_PATH) {
      var p := ParseFront(t).value;
      var found := Lower(UnescapeHost(p.authority));
      SameHost(found, host);
      ParsedIsSpelled(t);
      var u := CutFragment(t).value;
      assert SpelledBy(t, u[..3], p.authority, t[|u|..], host);
    }
    if Spells(t, host) {
      var scheme, authority, hash :| SpelledBy(t, scheme, authority, hash, host);
      SpelledParses(t, scheme, authority, hash, host);
    }
  }

  lemma SameHost(a: string, b: string)
    requires SCHEME + a + BRIDGE_PATH == SCHEME + b + BRIDGE_PATH
    ensures a == b
  {
    assert a == (SCHEME + a + BRIDGE_PATH)[6..6 + |a|];
    assert b == (SCHEME + b + BRIDGE_PATH)[6..6 + |b|];
  }

  lemma PlainHost(host: string)
    requires ValidDnsName(host)
    ensures Lower(host) == host && '%' !in host && AllUrlChars(host)
    ensures forall i :: 0 <= i < |host| ==> host[i] as int < 0x80 && host[i] !in {'\r', '\n', '\t'}
  {
    DnsChars(host);
  }

  lemma CanonicalText(host: string)
    requires ValidDnsName(host)
    ensures var v := SCHEME + host + BRIDGE_PATH; TrimSpace(v) == v && ByteLen(v) == |v| && !HasControlSpace(v)
  {
    var v := SCHEME + host + BRIDGE_PATH;
    PlainHost(host);
    assert v[0] == 'w' && v[|v| - 1] == 'e';
    TrimSpaceTrims(v);
    AsciiByteLen(v);
  }

  lemma HostReadsItself(host: string)
    requires ValidDnsName(host)
    ensures Lower(UnescapeHost(host)) == host
  {
    PlainHost(host);
    NothingToUnescape(host);
  }

  lemma CanonicalScheme(host: string, path: string)
    ensures SCHEME + host + path == "wss" + "://" + host + path + ""
    ensures AsciiLower("wss") == "wss"
  {
    assert SCHEME == "wss" + "://";
  }

  lemma CanonicalIsSpelled(host: string)
    requires ValidDnsName(host)
    ensures SpelledBy(SCHEME + host + BRIDGE_PATH, "wss", host, "", host)
  {
    HostReadsItself(host);
    CanonicalScheme(host, BRIDGE_PATH);
  }

  lemma CanonicalIsNormal(host: string)
    requires ValidDnsName(host)
    ensures NormalizeFrontUrl(SCHEME + host + BRIDGE_PATH) == Some(SCHEME + host + BRIDGE_PATH)
  {
    CanonicalText(host);
    CanonicalIsSpelled(host);
    FrontUrlGrammar(SCHEME + host + BRIDGE_PATH, host);
  }

  /** Normal URLs are exactly the canonical ones: normalising is idempotent, and validation accepts
    * its fixpoints and nothing else. */
  lemma FrontUrlFixpoints(raw: string)
    ensures NormalizeFrontUrl(raw).Some? ==> CanonicalUrl(NormalizeFrontUrl(raw).value)
    ensures CanonicalUrl(raw) <==> NormalizeFrontUrl(raw) == Some(raw)
    ensures ValidateFrontUrl(raw) <==> CanonicalUrl(raw)
  {
    if NormalizeFrontUrl(raw).Some? {
      var v := NormalizeFrontUrl(raw).value;
      var host := Lower(UnescapeHost(ParseFront(TrimSpace(raw)).value.authority));
      assert v == SCHEME + host + BRIDGE_PATH;
      assert v[|SCHEME|..|v| - |BRIDGE_PATH|] == host;
      assert v[..|SCHEME|] == SCHEME && v[|v| - |BRIDGE_PATH|..] == BRIDGE_PATH;
    }
    if CanonicalUrl(raw) {
      var host := raw[|SCHEME|..|raw| - |BRIDGE_PATH|];
      assert raw == SCHEME + host + BRIDGE_PATH;
      CanonicalIsNormal(host);
    }
  }

  // ---- Spellings that normalising accepts ----

  lemma UrlAppend(a: string, b: string)
    requires AllUrlChars(a) && AllUrlChars(b)
    ensures AllUrlChars(a + b)
  {
  }

  lemma BridgeChars()
    ensures AllUrlChars(BRIDGE_PATH) && BRIDGE_PATH[|BRIDGE_PATH| - 1] == 'e'
  {
  }

  lemma SpellingChars(scheme: string, authority: string, host: string)
    requires AsciiLower(scheme) == "wss" && Lower(UnescapeHost(authority)) == host && ValidDnsName(host)
    ensures AllUrlChars(scheme + "://" + authority + BRIDGE_PATH)
  {
    AuthorityChars(authority, host);
    SchemeChars(scheme);
    BridgeChars();
    UrlAppend(scheme + "://", authority);
    UrlAppend(scheme + "://" + authority, BRIDGE_PATH);
  }

  lemma PlainText(v: string, hash: string)
    requires AllUrlChars(v) && hash in {"", "#"} && v != "" && !IsSpace(v[0]) && !IsSpace(v[|v| - 1])
    ensures TrimSpace(v + hash) == v + hash && !HasControlSpace(v + hash)
  {
    TrimSpaceTrims(v + hash);
    NotUrlChar(v, '\r');
    NotUrlChar(v, '\n');
    NotUrlChar(v, '\t');
  }

  lemma SpellingEnds(scheme: string, authority: string)
    requires AsciiLower(scheme) == "wss"
    ensures var v := scheme + "://" + authority + BRIDGE_PATH;
      |v| == 24 + |authority| && !IsSpace(v[0]) && !IsSpace(v[|v| - 1])
  {
    BridgeChars();
    assert AsciiLower(scheme)[0] == AsciiLowerChar(scheme[0]) == 'w';
  }

  /** Every spelling of a host in up to ninety characters fits, and becomes its canonical URL. */
  lemma SpellingIsAccepted(scheme: string, authority: string, hash: string, host: string)
    requires AsciiLower(scheme) == "wss" && hash in {"", "#"} && |authority| <= 90
    requires Lower(UnescapeHost(authority)) == host && ValidDnsName(host)
    ensures NormalizeFrontUrl(scheme + "://" + authority + BRIDGE_PATH + hash) == Some(SCHEME + host + BRIDGE_PATH)
  {
    var v := scheme + "://" + authority + BRIDGE_PATH;
    assert SpelledBy(v + hash, scheme, authority, hash, host);
    SpellingChars(scheme, authority, host);
    SpellingEnds(scheme, authority);
    PlainText(v, hash);
    ByteLenBound(v + hash);
    FrontUrlGrammar(v + hash, host);
  }

  /** One of the two special letters, and its escape. */
  predicate Special(c: char, escape: string) {
    || (c == KELVIN_SIGN && AsciiLower(escape) == "%e2%84%aa")
    || (c == DOTTED_I && AsciiLower(escape) == "%c4%b0")
  }

  lemma UnescapeSpecial(c: char, escape: string, b: string)
    requires Special(c, escape) && '%' !in b
    ensures UnescapeHost(escape + b) == [c] + b
  {
    var s := escape + b;
    assert s[..|escape|] == escape && s[|escape|..] == b;
    assert |s| >= 9 && |escape| == 6 ==> AsciiLower(s[..9])[1] == AsciiLower(escape)[1];
    NothingToUnescape(b);
  }

  lemma LowerSpecial(a: string, c: char, b: string)
    requires Lower(a + [LowerChar(c)] + b) == a + [LowerChar(c)] + b
    ensures Lower(a + [c] + b) == a + [LowerChar(c)] + b
  {
    var host := a + [LowerChar(c)] + b;
    forall i | 0 <= i < |host| ensures Lower(a + [c] + b)[i] == host[i] {
      assert Lower(host)[i] == LowerChar(host[i]);
    }
  }

  lemma PartsHaveNoEscape(a: string, c: char, b: string)
    requires '%' !in a + [c] + b
    ensures '%' !in a && '%' !in b
  {
    var s := a + [c] + b;
    assert forall i :: 0 <= i < |a| ==> a[i] == s[i];
    assert forall i :: 0 <= i < |b| ==> b[i] == s[|a| + 1 + i];
  }

  lemma SpecialReads(a: string, c: char, escape: string, b: string)
    requires Special(c, escape) && ValidDnsName(a + [LowerChar(c)] + b)
    ensures Lower(UnescapeHost(a + [c] + b)) == a + [LowerChar(c)] + b
    ensures Lower(UnescapeHost(a + (escape + b))) == a + [LowerChar(c)] + b
  {
    PlainHost(a + [LowerChar(c)] + b);
    PartsHaveNoEscape(a, LowerChar(c), b);
    LowerSpecial(a, c, b);
    assert a + [c] + b == a + ([c] + b);
    UnescapePlain(a, [c] + b);
    NothingToUnescape([c] + b);
    UnescapePlain(a, escape + b);
    UnescapeSpecial(c, escape, b);
  }

  /** In any short host, the Kelvin sign may stand for a 'k' and the dotted capital I for an 'i', plainly
    * or percent-encoded, and a bare '#' may follow the path. */
  lemma SpecialLettersAccepted(scheme: string, a: string, c: char, escape: string, b: string)
    requires AsciiLower(scheme) == "wss" && Special(c, escape)
    requires ValidDnsName(a + [LowerChar(c)] + b) && |a| + |b| <= 80
    ensures NormalizeFrontUrl(scheme + "://" + (a + [c] + b) + BRIDGE_PATH + "#")
         == Some(SCHEME + (a + [LowerChar(c)] + b) + BRIDGE_PATH)
    ensures NormalizeFrontUrl(scheme + "://" + (a + (escape + b)) + BRIDGE_PATH + "#")
         == Some(SCHEME + (a + [LowerChar(c)] + b) + BRIDGE_PATH)
  {
    SpecialReads(a, c, escape, b);
    assert |escape| <= 9;
    SpellingIsAccepted(scheme, a + [c] + b, "#", a + [LowerChar(c)] + b);
    SpellingIsAccepted(scheme, a + (escape + b), "#", a + [LowerChar(c)] + b);
  }

  /** There are such hosts. */
  lemma KilnIsDns()
    ensures ValidDnsName("" + [LowerChar(KELVIN_SIGN)] + "iln.io") && Special(KELVIN_SIGN, "%E2%84%AA")
  {
    var host := "" + [LowerChar(KELVIN_SIGN)] + "iln.io";
    assert host == "kiln" + ".io";
    IndexOfFirst("kiln", ".io", '.');
    assert host[..4] == "kiln" && host[5..] == "io";
    IndexOfFirst("io", "", '.');
    assert "io" + "" == "io";
    assert Split(host) == ["kiln", "io"];
    assert AsciiLower("%E2%84%AA") == "%e2%84%aa";
  }
}
