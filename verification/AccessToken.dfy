/** The bearer token of per-user access: which broker a cached token may be presented to, and the
  * bounded retries of one access request. */
module AccessToken {
  import opened Prelude
  import opened Text

  // Times and durations are in nanoseconds.
  const SECOND: int := 1_000_000_000
  const REFRESH_MARGIN: int := 300 * SECOND
  const UNAPPLIED_RETRIES: nat := 2
  const UNAPPLIED_MAX_WAIT: int := 5 * SECOND
  const UNAPPLIED_DEFAULT: int := 2 * SECOND
  const MAX_TOKEN: nat := 4096

  // ---- Scopes ----

  predicate IsDefault(front: string, defaults: seq<string>) {
    exists i :: 0 <= i < |defaults| && TrimSpace(defaults[i]) == TrimSpace(front)
  }

  /** The broker behind a front: one for all the built-in fronts, one for each other URL. */
  function ScopeOf(front: string, defaults: seq<string>): string {
    if IsDefault(front, defaults) then "default" else "url:" + TrimSpace(front)
  }

  method AccessTokenScopeFor(front: string, defaults: seq<string>) returns (scope: string)
    ensures scope == ScopeOf(front, defaults)
  {
    var trimmed := TrimSpace(front);
    for i := 0 to |defaults|
      invariant forall j :: 0 <= j < i ==> TrimSpace(defaults[j]) != trimmed
    {
      if trimmed == TrimSpace(defaults[i]) {
        return "default";
      }
    }
    return "url:" + trimmed;
  }

  /** Two fronts share a token exactly when both are built in or they are the same URL. */
  lemma SameScopeIff(a: string, b: string, defaults: seq<string>)
    ensures ScopeOf(a, defaults) == ScopeOf(b, defaults) <==>
      (IsDefault(a, defaults) && IsDefault(b, defaults)) || TrimSpace(a) == TrimSpace(b)
  {
    var x, y := "url:" + TrimSpace(a), "url:" + TrimSpace(b);
    assert x[4..] == TrimSpace(a) && y[4..] == TrimSpace(b);
    assert x[0] == 'u' && y[0] == 'u' && "default"[0] == 'd';
  }

  // ---- The cached token ----

  /** A token's text, and the scope of the broker that issued it. */
  datatype Token = Token(text: string, issuer: string)

  datatype Error =
    | Disabled | EnrollmentRefused | Unsupported | Unauthorized | Unapplied | Cancelled | Other(what: string)

  datatype Result<T> = Ok(value: T) | Err(error: Error)

  /** How an authentication goes: the broker answers with a token, empty for a disabled user, and its
    * expiry; or one of the user endpoints refuses with a status; or it fails otherwise, for want of a key
    * or of a connection. */
  datatype Auth = Issued(text: string, expiry: int) | Refused(code: int, datacenter: bool) | AuthFailed(what: string)

  /** A disable, a network that may not enrol and a broker without the endpoints are told apart, and from
    * every other failure. */
  function UserAuthError(auth: Auth): (error: Error)
    requires !auth.Issued?
    ensures error == Disabled <==> auth == Refused(403, false)
    ensures error == EnrollmentRefused <==> auth == Refused(403, true)
    ensures error == Unsupported <==> auth.Refused? && auth.code == 404
    ensures error in {Disabled, EnrollmentRefused, Unsupported} || error.Other?
  {
    match auth
    case Refused(code, datacenter) =>
      if code == 403 then if datacenter then EnrollmentRefused else Disabled
      else if code == 404 then Unsupported
      else Other("authentication status")
    case AuthFailed(what) => Other(what)
  }

  /** What the broker does with an access request. */
  datatype Reply = Granted(answer: string) | Status(code: int, retryAfter: int) | Broken

  /** A request that was sent. */
  datatype Sent = Sent(token: Token, reply: Reply)

  /** A token that can go into a request's header. */
  predicate Presentable(text: string) {
    var t := TrimSpace(text);
    t != "" && |t| <= MAX_TOKEN && ' ' !in t && '\r' !in t && '\n' !in t
  }

  lemma EmptyIsNotPresentable()
    ensures !Presentable("")
  {
  }

  /** What may stand in a header line: some characters, not too many, none of which ends the word or the
    * line. */
  predicate HeaderSafe(t: string) {
    1 <= |t| <= MAX_TOKEN && forall i :: 0 <= i < |t| ==> t[i] != ' ' && t[i] != '\r' && t[i] != '\n'
  }

  lemma PresentableIffHeaderSafe(text: string)
    ensures Presentable(text) <==> HeaderSafe(TrimSpace(text))
  {
    var t := TrimSpace(text);
    if HeaderSafe(t) {
      assert ' ' !in t && '\r' !in t && '\n' !in t;
    }
  }

  /** The wait a 503 asks for, with its default and its cap: a wait that was asked for and is within the cap
    * is kept. */
  function WaitFor(retryAfter: int): (wait: int)
    ensures 0 < wait <= UNAPPLIED_MAX_WAIT
    ensures 0 < retryAfter ==> wait <= retryAfter && (wait == retryAfter <==> retryAfter <= UNAPPLIED_MAX_WAIT)
    ensures retryAfter <= 0 ==> wait == UNAPPLIED_DEFAULT
  {
    var wait := if retryAfter <= 0 then UNAPPLIED_DEFAULT else retryAfter;
    if wait < UNAPPLIED_MAX_WAIT then wait else UNAPPLIED_MAX_WAIT
  }

  /** Requests that were all answered with a status worth another try: one 401 if `refused`, and as many
    * 503s as there are `waits`, each waited out for as long as it asked. */
  predicate Retried(sent: seq<Sent>, refused: bool, waits: seq<int>)
    decreases |sent|
  {
    if sent == [] then !refused && waits == []
    else
      var n, reply := |sent| - 1, sent[|sent| - 1].reply;
      && reply.Status?
      && (|| (reply.code == 401 && refused && Retried(sent[..n], false, waits))
          || (&& reply.code == 503 && waits != [] && waits[|waits| - 1] == WaitFor(reply.retryAfter)
              && Retried(sent[..n], refused, waits[..|waits| - 1])))
  }

  lemma RetriedAgain(sent: seq<Sent>, waits: seq<int>, token: Token, code: int, retryAfter: int, refused: bool)
    requires Retried(sent, refused, waits)
    ensures code == 401 && !refused ==> Retried(sent + [Sent(token, Status(code, retryAfter))], true, waits)
    ensures code == 503 ==>
              Retried(sent + [Sent(token, Status(code, retryAfter))], refused, waits + [WaitFor(retryAfter)])
  {
    assert (sent + [Sent(token, Status(code, retryAfter))])[..|sent|] == sent;
    assert (waits + [WaitFor(retryAfter)])[..|waits|] == waits;
  }

  /** The outcome of a last reply, once the retries before it are spent as given: a 401 or a 503 is an
    * error only when its retries are used up. */
  predicate Settles(reply: Reply, refused: bool, unapplied: nat, r: Result<string>) {
    match reply
    case Granted(answer) => r == Ok(answer)
    case Broken => r.Err? && r.error.Other?
    case Status(code, _) =>
      if code == 401 then refused && r == Err(Unauthorized)
      else if code == 403 then r == Err(Disabled)
      else if code == 404 then r == Err(Unsupported)
      else if code == 503 then unapplied == UNAPPLIED_RETRIES && r == Err(Unapplied)
      else r.Err? && r.error.Other?
  }

  /** The result `r` of a call that sent these requests and waited these times: the last reply's, or that of
    * a failed authentication, of a `held` token that cannot be sent, or of a wait that was cut short. */
  predicate Ends(
    sent: seq<Sent>, refused: bool, waits: seq<int>, auth: Auth, held: string, cut: bool, r: Result<string>)
  {
    || (&& sent != [] && Retried(sent[..|sent| - 1], refused, waits)
        && Settles(sent[|sent| - 1].reply, refused, |waits|, r))
    || (Retried(sent, refused, waits) && !auth.Issued? && r == Err(UserAuthError(auth)))
    || (Retried(sent, refused, waits) && !Presentable(held) && r == Err(Other("token")))
    || (Retried(sent, refused, waits) && waits != [] && cut && r == Err(Cancelled))
  }

  /** Every request carried a token that was issued by the broker of that scope, and got the reply it did. */
  predicate StayIn(sent: seq<Sent>, scope: string, replies: nat -> Reply) {
    forall k :: 0 <= k < |sent| ==>
      sent[k].token.issuer == scope && HeaderSafe(TrimSpace(sent[k].token.text)) && sent[k].reply == replies(k)
  }

  predicate Short(waits: seq<int>) {
    |waits| <= UNAPPLIED_RETRIES && forall k :: 0 <= k < |waits| ==> 0 < waits[k] <= UNAPPLIED_MAX_WAIT
  }

  /** None of the first `n` rounds was cut short in its wait. */
  predicate Uncut(sent: seq<Sent>, n: nat, cuts: nat -> bool) {
    forall k :: 0 <= k < |sent| && k < n && sent[k].reply.Status? && sent[k].reply.code == 503 ==> !cuts(k)
  }

  /** The loop goes on: all requests so far were retried. */
  predicate Going(
    sent: seq<Sent>, refused: bool, waits: seq<int>, scope: string, replies: nat -> Reply, cuts: nat -> bool)
  {
    && Retried(sent, refused, waits) && Short(waits) && StayIn(sent, scope, replies)
    && Uncut(sent, |sent|, cuts) && |sent| == |waits| + if refused then 1 else 0
  }

  /** One more request keeps the bounds, and settles the call if its reply does. */
  lemma SendOne(
    sent: seq<Sent>, refused: bool, waits: seq<int>, scope: string, replies: nat -> Reply, cuts: nat -> bool,
    token: Token)
    requires Going(sent, refused, waits, scope, replies, cuts) && token.issuer == scope && Presentable(token.text)
    ensures var more := sent + [Sent(token, replies(|sent|))];
      && more[..|sent|] == sent && |more| <= 4 && StayIn(more, scope, replies) && Uncut(more, |sent|, cuts)
  {
    PresentableIffHeaderSafe(token.text);
  }

  /** A reply worth another try keeps the loop going. */
  lemma GoOn(
    sent: seq<Sent>, refused: bool, waits: seq<int>, scope: string, replies: nat -> Reply, cuts: nat -> bool,
    token: Token)
    requires Going(sent, refused, waits, scope, replies, cuts) && token.issuer == scope && Presentable(token.text)
    requires replies(|sent|).Status?
    ensures var reply, more := replies(|sent|), sent + [Sent(token, replies(|sent|))];
      && (reply.code == 401 && !refused ==> Going(more, true, waits, scope, replies, cuts))
      && (reply.code == 503 && |waits| < UNAPPLIED_RETRIES && !cuts(|sent|) ==>
            Going(more, refused, waits + [WaitFor(reply.retryAfter)], scope, replies, cuts))
  {
    var reply := replies(|sent|);
    SendOne(sent, refused, waits, scope, replies, cuts, token);
    RetriedAgain(sent, waits, token, reply.code, reply.retryAfter, refused);
  }

  /** What follows a reply: authenticate again, wait and try again, or stop, perhaps in a wait. */
  datatype Next = Again | Wait(time: int) | Stop(result: Result<string>, cut: seq<int>)

  function After(reply: Reply, refused: bool, unapplied: nat, cut: bool): Next {
    match reply
    case Granted(answer) => Stop(Ok(answer), [])
    case Broken => Stop(Err(Other("request")), [])
    case Status(code, retryAfter) =>
      if code == 401 then if refused then Stop(Err(Unauthorized), []) else Again
      else if code == 403 then Stop(Err(Disabled), [])
      else if code == 404 then Stop(Err(Unsupported), [])
      else if code != 503 then Stop(Err(Other("status")), [])
      else if unapplied >= UNAPPLIED_RETRIES then Stop(Err(Unapplied), [])
      else if cut then Stop(Err(Cancelled), [WaitFor(retryAfter)])
      else Wait(WaitFor(retryAfter))
  }

  lemma StopSettles(reply: Reply, refused: bool, unapplied: nat, cut: bool)
    requires unapplied <= UNAPPLIED_RETRIES
    requires var next := After(reply, refused, unapplied, cut); next.Stop? && next.cut == []
    ensures Settles(reply, refused, unapplied, After(reply, refused, unapplied, cut).result)
  {
  }

  lemma SettledEnds(
    sent: seq<Sent>, refused: bool, waits: seq<int>, last: Sent, auth: Auth, held: string, cut: bool, r: Result<string>)
    requires Retried(sent, refused, waits) && Settles(last.reply, refused, |waits|, r)
    ensures Ends(sent + [last], refused, waits, auth, held, cut, r)
  {
    assert (sent + [last])[..|sent|] == sent;
  }

  lemma CutEnds(
    sent: seq<Sent>, refused: bool, waits: seq<int>, token: Token, retryAfter: int, auth: Auth, held: string)
    requires Retried(sent, refused, waits) && Short(waits) && |waits| < UNAPPLIED_RETRIES
    ensures var more, after := sent + [Sent(token, Status(503, retryAfter))], waits + [WaitFor(retryAfter)];
      Short(after) && Ends(more, refused, after, auth, held, true, Err(Cancelled))
  {
    RetriedAgain(sent, waits, token, 503, retryAfter, refused);
  }

  /** A reply after which the call stops has the result it calls for. */
  lemma StopEnds(
    sent: seq<Sent>, refused: bool, waits: seq<int>, token: Token, reply: Reply, auth: Auth, held: string, cut: bool)
    requires Retried(sent, refused, waits) && Short(waits) && After(reply, refused, |waits|, cut).Stop?
    ensures var stop, more := After(reply, refused, |waits|, cut), sent + [Sent(token, reply)];
      Short(waits + stop.cut) && Ends(more, refused, waits + stop.cut, auth, held, cut, stop.result)
  {
    var stop := After(reply, refused, |waits|, cut);
    if stop.cut == [] {
      StopSettles(reply, refused, |waits|, cut);
      SettledEnds(sent, refused, waits, Sent(token, reply), auth, held, cut, stop.result);
      assert waits + [] == waits;
    } else {
      CutEnds(sent, refused, waits, token, reply.retryAfter, auth, held);
    }
  }

  /** It keeps the loop going or ends the call. */
  lemma AfterGoes(
    sent: seq<Sent>, refused: bool, waits: seq<int>, scope: string, replies: nat -> Reply, cuts: nat -> bool,
    token: Token, auth: Auth, held: string)
    requires Going(sent, refused, waits, scope, replies, cuts) && token.issuer == scope && Presentable(token.text)
    ensures var reply := replies(|sent|);
      var next, more := After(reply, refused, |waits|, cuts(|sent|)), sent + [Sent(token, reply)];
      match next
      case Again => !refused && Going(more, true, waits, scope, replies, cuts)
      case Wait(time) => |waits| < UNAPPLIED_RETRIES && Going(more, refused, waits + [time], scope, replies, cuts)
      case Stop(r, wait) => Short(waits + wait) && Ends(more, refused, waits + wait, auth, held, cuts(|sent|), r)
  {
    if After(replies(|sent|), refused, |waits|, cuts(|sent|)).Stop? {
      StopEnds(sent, refused, waits, token, replies(|sent|), auth, held, cuts(|sent|));
    } else {
      GoOn(sent, refused, waits, scope, replies, cuts, token);
    }
  }

  class TokenCache {
    const defaults: seq<string>
    var token: Token
    var expiry: int
    var scope: string

    constructor (defaults: seq<string>)
      ensures this.defaults == defaults && Valid()
    {
      this.defaults := defaults;
      token, expiry, scope := Token("", ""), 0, "";
    }

    /** A cached token is filed under the broker that issued it. Each of the two regions under the lock
      * keeps this, so it holds at every one of them, whoever else runs between the two of one caller. */
    predicate Valid()
      reads this
    {
      token.text != "" ==> token.issuer == scope
    }

    /** The cached token can be presented to the broker behind `front`. */
    predicate Usable(front: string, stale: string, now: int)
      reads this
    {
      && token.text != "" && scope == ScopeOf(front, defaults)
      && token.text != stale && now + REFRESH_MARGIN < expiry
    }

    /** The cache in the machine of its regions, after these tokens were handed out. */
    function View(handed: seq<(string, Token)>): State
      reads this
    {
      State(token, expiry, scope, handed)
    }

    /** The first region under the lock: a token of this broker that is neither refused nor about to
      * expire. */
    method LookUp(front: string, stale: string, now: int) returns (found: Option<Token>)
      requires Valid()
      ensures found.Some? ==> found.value == token
      ensures found.Some? ==> found.value.text != "" && found.value.issuer == ScopeOf(front, defaults)
      ensures found.Some? ==> found.value.text != stale && now + REFRESH_MARGIN < expiry
      ensures found.Some? <==> Usable(front, stale, now)
      ensures forall handed ::
        Step(defaults, View(handed), Looks(front, stale, now)) ==
        View(if found.Some? then handed + [(front, found.value)] else handed)
    {
      var wanted := AccessTokenScopeFor(front, defaults);
      if token.text != "" && scope == wanted && token.text != stale && now + REFRESH_MARGIN < expiry {
        return Some(token);
      }
      return None;
    }

    /** The second region: what the broker behind `front` has just issued. */
    method Store(front: string, text: string, until: int) returns (issued: Token)
      modifies this
      ensures Valid() && token == issued == Token(text, ScopeOf(front, defaults)) && expiry == until
      ensures forall handed ::
        Step(defaults, State(old(token), old(expiry), old(scope), handed), Stores(front, text, until)) ==
        View(handed + [(front, issued)])
    {
      var wanted := AccessTokenScopeFor(front, defaults);
      issued := Token(text, wanted);
      token, expiry, scope := issued, until, wanted;
    }

    /** A usable cached token is returned without authenticating, and otherwise what the broker issues is.
      * Whatever the history of fronts, the token returned was issued by the broker behind this one; a
      * refused one is only returned if that broker issues it again; and a failure is the
      * authentication's and leaves the cache alone. */
    method UserAccessToken(front: string, stale: string, now: int, auth: Auth) returns (r: Result<Token>)
      requires Valid()
      modifies this
      ensures Valid()
      ensures old(Usable(front, stale, now)) ==>
        r == Ok(old(token)) && token == old(token) && expiry == old(expiry) && scope == old(scope)
      ensures !old(Usable(front, stale, now)) && auth.Issued? ==>
        r == Ok(Token(auth.text, ScopeOf(front, defaults))) && expiry == auth.expiry
      ensures r.Ok? ==> r.value.issuer == ScopeOf(front, defaults)
      ensures r.Ok? && r.value.text in {stale, ""} ==> auth.Issued? && auth.text == r.value.text
      ensures r.Ok? ==> r.value == token
      ensures r.Err? ==> !auth.Issued? && r.error == UserAuthError(auth)
      ensures r.Err? ==> token == old(token) && expiry == old(expiry) && scope == old(scope)
    {
      var found := LookUp(front, stale, now);
      if found.Some? {
        return Ok(found.value);
      }
      if !auth.Issued? {
        return Err(UserAuthError(auth));
      }
      var issued := Store(front, auth.text, auth.expiry);
      return Ok(issued);
    }

    /** One access request: at most four are sent, each with a token of the broker behind `front`, and
      * at most two waits are made, of at most five seconds each. It ends as the replies, the
      * authentications and the cuts in the waits say, for the k-th round of the loop each. */
    method RequestAccess(front: string, times: nat -> int, auths: nat -> Auth, replies: nat -> Reply, cuts: nat -> bool)
      returns (r: Result<string>, sent: seq<Sent>, waits: seq<int>, refused: bool, last: nat)
      requires Valid()
      modifies this
      ensures Valid()
      ensures |sent| <= 4 && Short(waits)
      ensures StayIn(sent, ScopeOf(front, defaults), replies)
      ensures last <= |sent| && Uncut(sent, last, cuts)
      ensures Ends(sent, refused, waits, auths(last), token.text, cuts(last), r)
    {
      sent, waits, refused, last := [], [], false, 0;
      ghost var wanted := ScopeOf(front, defaults);
      var stale := "";
      while true
        invariant Valid() && last == |sent| && refused == (stale != "")
        invariant Going(sent, refused, waits, wanted, replies, cuts)
        decreases (if refused then 0 else 1) + UNAPPLIED_RETRIES - |waits|
      {
        var issued := UserAccessToken(front, stale, times(last), auths(last));
        if issued.Err? {
          return Err(issued.error), sent, waits, refused, last;
        }
        if !Presentable(issued.value.text) {
          return Err(Other("token")), sent, waits, refused, last;
        }
        EmptyIsNotPresentable();
        SendOne(sent, refused, waits, wanted, replies, cuts, issued.value);
        var next := After(replies(last), refused, |waits|, cuts(last));
        AfterGoes(sent, refused, waits, wanted, replies, cuts, issued.value, auths(last), token.text);
        sent := sent + [Sent(issued.value, replies(last))];
        match next {
          case Again =>
            stale, refused := issued.value.text, true;
          case Wait(time) =>
            waits := waits + [time];
          case Stop(result, cut) =>
            waits := waits + cut;
            return result, sent, waits, refused, last;
        }
        last := last + 1;
      }
    }
  }

  // ---- Any history ----

  /** Callers on any goroutines, region by region. */
  datatype Event = Looks(front: string, stale: string, now: int) | Stores(front: string, text: string, until: int)

  /** The cache, and every token handed out, with the front it is for. */
  datatype State = State(token: Token, expiry: int, scope: string, handed: seq<(string, Token)>)

  function Step(defaults: seq<string>, s: State, e: Event): State {
    match e
    case Looks(front, stale, now) =>
      if && s.token.text != "" && s.scope == ScopeOf(front, defaults)
         && s.token.text != stale && now + REFRESH_MARGIN < s.expiry
      then s.(handed := s.handed + [(front, s.token)]) else s
    case Stores(front, text, until) =>
      var issued := Token(text, ScopeOf(front, defaults));
      State(issued, until, issued.issuer, s.handed + [(front, issued)])
  }

  function Exec(defaults: seq<string>, es: seq<Event>): State
    decreases |es|
  {
    if es == [] then State(Token("", ""), 0, "", []) else Step(defaults, Exec(defaults, es[..|es| - 1]), es[|es| - 1])
  }

  lemma {:induction false} CacheIsFiled(defaults: seq<string>, es: seq<Event>)
    ensures var s := Exec(defaults, es); s.token.text != "" ==> s.token.issuer == s.scope
    decreases |es|
  {
    if es != [] { CacheIsFiled(defaults, es[..|es| - 1]); }
  }

  /** Over any interleaving of any callers, every token handed out for a front was issued by the broker
    * behind that front: by the same URL, or by a built-in one if both are built in. */
  lemma {:induction false} TokenStaysWithItsBroker(defaults: seq<string>, es: seq<Event>, k: nat)
    requires k < |Exec(defaults, es).handed|
    ensures var (front, token) := Exec(defaults, es).handed[k]; token.issuer == ScopeOf(front, defaults)
    decreases |es|
  {
    if es != [] {
      var past := es[..|es| - 1];
      CacheIsFiled(defaults, past);
      if k < |Exec(defaults, past).handed| { TokenStaysWithItsBroker(defaults, past, k); }
    }
  }
}
