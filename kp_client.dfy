/** The KP pension-records client: a session cookie obtained through a Browserless
    login script, a one-shot reauthentication gate, and a request executor that
    retries redirects and reauthenticates once before giving up.

    The network is scripted: the KP server's replies and Browserless's replies are
    consumed in order, and an exhausted script reads as a request that raised. */
module KpClient {
  import opened Text
  import opened PyJson

  /** The KP server's answer to one request, or the exception the request raised. */
  datatype Reply =
    | Unreachable
    | Answer(status: int, contentType: string, content: seq<byte>, json: Option<Json>)
      // contentType is the Content-Type header ("" when absent); json is None when the
      // body does not parse as JSON

  /** Browserless's answer to the login script. */
  datatype FetchReply =
    | FetchFailed        // requests.post raised
    | NotJson            // response.json() raised
    | Parsed(data: Json)

  /** A decoded response body: parsed JSON, the raw bytes, or the single-space string
      that stands for an empty body. */
  datatype Body = JsonBody(value: Json) | Raw(bytes: seq<byte>) | Blank

  /** The headers `get_auth_headers` builds: `Cookie: JSESSIONID=<str(session)>`. */
  datatype Headers = CookieHeader(session: Json)

  /** What a scan of the Browserless cookie list finds. */
  datatype CookieScan = Found(value: Json) | Absent | Malformed

  /** The client's session fields together with the scripted network and the
      bookkeeping the proofs talk about (requests issued, logins, reauthentications). */
  datatype KpState = KpState(
    baseUrl: string,
    cookie: Json, fetching: bool, attempted: bool,
    server: seq<Reply>, browserless: seq<FetchReply>,
    issued: seq<(string, Headers)>, fetches: nat, reauths: nat)

  const SessionCookieName := "JSESSIONID"
  const MaxRedirectRetries := 5

  predicate Suffix<T(==)>(a: seq<T>, b: seq<T>) {
    |a| <= |b| && a == b[|b| - |a|..]
  }

  lemma SuffixTrans<T>(a: seq<T>, b: seq<T>, c: seq<T>)
    requires Suffix(a, b) && Suffix(b, c)
    ensures Suffix(a, c)
  {
    assert c[|c| - |b|..][|b| - |a|..] == c[|c| - |a|..];
  }

  lemma PrefixTrans<T>(a: seq<T>, b: seq<T>, c: seq<T>)
    requires StartsWith(b, a) && StartsWith(c, b)
    ensures StartsWith(c, a)
  {
    assert c[..|a|] == c[..|b|][..|a|];
  }

  /** Everything but the server script and the request log is equal. */
  predicate SameSession(a: KpState, b: KpState) {
    a.baseUrl == b.baseUrl && a.cookie == b.cookie && a.fetching == b.fetching &&
    a.attempted == b.attempted && a.browserless == b.browserless &&
    a.fetches == b.fetches && a.reauths == b.reauths
  }

  /** raise_for_status raises for the 4xx and 5xx codes. */
  predicate IsHttpError(status: int) {
    400 <= status < 600
  }

  // ---------------------------------------------------------------------------
  // Cookie extraction

  predicate NamedSession(c: Json) {
    Sub(c, "name") == Some(Str(SessionCookieName))
  }

  /** The loop over `data['cookies']`: the value of the first cookie named JSESSIONID.
      A cookie without `name`, or the matching one without `value`, raises. */
  function FirstSessionCookie(cookies: seq<Json>): CookieScan
    decreases |cookies|
  {
    if cookies == [] then Absent
    else if Sub(cookies[0], "name").None? then Malformed
    else if NamedSession(cookies[0]) then
      (if Sub(cookies[0], "value").Some? then Found(Sub(cookies[0], "value").value) else Malformed)
    else FirstSessionCookie(cookies[1..])
  }

  /** Every cookie before index `i` has a name, and it is not JSESSIONID. */
  predicate OtherNamesBefore(cookies: seq<Json>, i: int)
    requires 0 <= i <= |cookies|
  {
    forall j :: 0 <= j < i ==> Sub(cookies[j], "name").Some? && !NamedSession(cookies[j])
  }

  /** Index `i` is past a first cookie that is named, and named otherwise, exactly
      when the rest of the list is such up to `i - 1`. */
  lemma OtherNamesStep(cookies: seq<Json>, i: int)
    requires 0 < i <= |cookies|
    ensures OtherNamesBefore(cookies, i) <==>
      Sub(cookies[0], "name").Some? && !NamedSession(cookies[0]) && OtherNamesBefore(cookies[1..], i - 1)
  {
    assert forall j :: 0 <= j < i - 1 ==> cookies[1..][j] == cookies[j + 1];
  }

  /** `v` is found exactly at the first cookie named JSESSIONID, when it carries `v`. */
  predicate FoundAt(cookies: seq<Json>, v: Json, i: int) {
    0 <= i < |cookies| && OtherNamesBefore(cookies, i) &&
      NamedSession(cookies[i]) && Sub(cookies[i], "value") == Some(v)
  }

  /** The scan finds `v` exactly when some cookie is the first named JSESSIONID and
      carries `v`. */
  lemma {:induction false} FirstSessionCookieFound(cookies: seq<Json>, v: Json)
    ensures FirstSessionCookie(cookies) == Found(v) <==> exists i :: FoundAt(cookies, v, i)
    decreases |cookies|
  {
    if cookies != [] {
      var tl := cookies[1..];
      if Sub(cookies[0], "name").Some? && !NamedSession(cookies[0]) {
        FirstSessionCookieFound(tl, v);
        if exists i :: FoundAt(tl, v, i) {
          var i :| FoundAt(tl, v, i);
          OtherNamesStep(cookies, i + 1);
          assert FoundAt(cookies, v, i + 1);
        }
        if exists i :: FoundAt(cookies, v, i) {
          var i :| FoundAt(cookies, v, i);
          assert i != 0;
          OtherNamesStep(cookies, i);
          assert FoundAt(tl, v, i - 1);
        }
      } else {
        assert forall i :: 0 < i <= |cookies| ==> !OtherNamesBefore(cookies, i) by {
          forall i | 0 < i <= |cookies| {
            OtherNamesStep(cookies, i);
          }
        }
        if Sub(cookies[0], "name").Some? && Sub(cookies[0], "value") == Some(v) {
          assert FoundAt(cookies, v, 0);
        }
      }
    }
  }

  /** The scan finds nothing exactly when every cookie is named, and named otherwise. */
  lemma {:induction false} FirstSessionCookieAbsent(cookies: seq<Json>)
    ensures FirstSessionCookie(cookies) == Absent <==> OtherNamesBefore(cookies, |cookies|)
    decreases |cookies|
  {
    if cookies != [] {
      FirstSessionCookieAbsent(cookies[1..]);
      OtherNamesStep(cookies, |cookies|);
    }
  }

  /** The cookie loop of `request_session_token`, run over a parsed list. */
  method FindSessionCookie(cookies: seq<Json>) returns (r: CookieScan)
    ensures r == FirstSessionCookie(cookies)
  {
    var i := 0;
    while i < |cookies|
      invariant 0 <= i <= |cookies|
      invariant FirstSessionCookie(cookies) == FirstSessionCookie(cookies[i..])
    {
      var name := Sub(cookies[i], "name");
      if name.None? {
        return Malformed;
      }
      if name.value == Str(SessionCookieName) {
        var value := Sub(cookies[i], "value");
        if value.None? {
          return Malformed;
        }
        return Found(value.value);
      }
      assert cookies[i..][1..] == cookies[i + 1..];
      i := i + 1;
    }
    return Absent;
  }

  /** What `request_session_token` makes of Browserless's reply: `Some` of the new
      cookie (Python's None, `Null`, when no cookie is named JSESSIONID), or `None`
      when the outer `except` catches an exception; on that branch `session_cookie` is
      not assigned and keeps its old value. */
  function SessionCookieOf(reply: FetchReply): Option<Json> {
    match reply
    case FetchFailed => None
    case NotJson => None
    case Parsed(d) =>
      if Sub(d, "cookies").None? || Elements(Sub(d, "cookies").value).None? then None
      else
        match FirstSessionCookie(Elements(Sub(d, "cookies").value).value)
        case Found(v) => Some(v)
        case Absent => Some(Null)
        case Malformed => None
  }

  // ---------------------------------------------------------------------------
  // Session state machine

  /** `request_session_token` */
  function RequestSessionTokenSpec(st: KpState): (r: (KpState, Json))
    ensures !r.0.fetching && r.0.attempted == st.attempted
    ensures r.0.fetches == st.fetches + 1
    ensures r.1 == r.0.cookie || (r.1 == Null && r.0.cookie == st.cookie)
  {
    var reply := if st.browserless == [] then FetchFailed else st.browserless[0];
    var st1 := st.(browserless := if st.browserless == [] then [] else st.browserless[1..],
                   fetching := false, fetches := st.fetches + 1);
    match SessionCookieOf(reply)
    case None => (st1, Null)
    case Some(c) => (st1.(cookie := c), c)
  }

  /** `authenticate`. Waiting for a fetch in progress cannot change anything in a
      sequential run, so only the cookie decides. */
  function AuthenticateSpec(st: KpState): (KpState, Json) {
    if Truthy(st.cookie) then (st, st.cookie) else RequestSessionTokenSpec(st)
  }

  /** `reauthenticate`: with a fetch in progress it returns the current cookie; otherwise
      the one-shot gate allows a single fresh login, and a falsy outcome becomes False. */
  function ReauthenticateSpec(st: KpState): (r: (KpState, Json))
    ensures r.0.reauths == st.reauths + 1
    ensures !st.fetching ==> !r.0.fetching && r.0.attempted
    ensures !st.fetching && Truthy(r.1) ==> !st.attempted && r.1 == r.0.cookie
    ensures !st.fetching && st.attempted ==> r == (st.(reauths := st.reauths + 1), Bool(false))
    ensures r.0.fetches <= st.fetches + 1
  {
    var st1 := st.(reauths := st.reauths + 1);
    if st.fetching then (st1, st.cookie)
    else if !st.attempted then
      var (st2, auth) := RequestSessionTokenSpec(st1.(attempted := true));
      if Truthy(auth) then (st2, auth) else (st2, Bool(false))
    else (st1, Bool(false))
  }

  /** `get_auth_headers` */
  function GetAuthHeadersSpec(st: KpState): (KpState, Headers) {
    var (st1, c) := AuthenticateSpec(st);
    (st1, CookieHeader(c))
  }

  // ---------------------------------------------------------------------------
  // Request executor

  /** The URL `_make_request` calls: an absolute `path` as it is, else under `base`. */
  function ResolveUrl(base: string, path: string): string {
    if StartsWith(path, "http://") || StartsWith(path, "https://") then path
    else base + "/" + path
  }

  /** Resolving a URL that is already resolved against an absolute base changes nothing,
      and every resolved URL is absolute when the base is. */
  lemma ResolveUrlAbsolute(base: string, path: string)
    requires StartsWith(base, "http://") || StartsWith(base, "https://")
    ensures StartsWith(ResolveUrl(base, path), "http://") || StartsWith(ResolveUrl(base, path), "https://")
    ensures ResolveUrl(base, ResolveUrl(base, path)) == ResolveUrl(base, path)
  {
    var u := ResolveUrl(base, path);
    if u != path {
      assert u[..|base|] == base;
      if StartsWith(base, "http://") {
        assert u[..7] == base[..7];
      } else {
        assert u[..8] == base[..8];
      }
    }
  }

  /** The 401 / AccessDeniedException test of the HTTPError handler. */
  predicate IsAuthFailure(reply: Reply)
    requires reply.Answer?
  {
    reply.status == 401 ||
    (reply.status == 500 && Contains(reply.content, Bytes("AccessDeniedException")))
  }

  /** After the redirect retries: anything but a 200, or an HTML page, means the
      session is stale. */
  predicate NeedsReauth(reply: Reply)
    requires reply.Answer?
  {
    reply.status != 200 || Contains(Lower(reply.contentType), "text/html")
  }

  /** A reply `_make_request` decodes and returns. */
  predicate Accepted(reply: Reply) {
    reply.Answer? && !IsHttpError(reply.status) && !NeedsReauth(reply)
  }

  /** JSON when the body parses, else the bytes, else a single space for no content. */
  function DecodeBody(reply: Reply): Body
    requires reply.Answer?
  {
    if reply.json.Some? then JsonBody(reply.json.value)
    else if |reply.content| == 0 then Blank
    else Raw(reply.content)
  }

  /** One request: the next scripted reply is consumed and the request is logged. */
  function IssueSpec(st: KpState, url: string, h: Headers): (KpState, Reply) {
    if st.server == [] then (st.(issued := st.issued + [(url, h)]), Unreachable)
    else (st.(server := st.server[1..], issued := st.issued + [(url, h)]), st.server[0])
  }

  /** The `while response.status_code == 302 and retry_count < max_retries` loop. */
  function Redirects(st: KpState, url: string, h: Headers, reply: Reply, count: nat): (r: (KpState, Reply))
    requires count <= MaxRedirectRetries
    ensures r.0.fetching == st.fetching && r.0.attempted == st.attempted
    decreases MaxRedirectRetries - count
  {
    if reply.Answer? && reply.status == 302 && count < MaxRedirectRetries then
      var (st1, next) := IssueSpec(st, url, h);
      Redirects(st1, url, h, next, count + 1)
    else (st, reply)
  }

  /** How one level of `_make_request` ends: with a result, or with a successful
      reauthentication after which the request is made again from `st`. */
  datatype Step = Done(st: KpState, result: Option<Body>) | Retry(st: KpState)

  /** The `except HTTPError` handler: a 401, or a 500 naming AccessDeniedException,
      reauthenticates and asks for a retry when that yields a session; any other HTTP
      error gives None. */
  function OnHttpError(st: KpState, reply: Reply): (s: Step)
    requires !st.fetching && reply.Answer?
    ensures !s.st.fetching
    ensures s.Retry? ==> !st.attempted && s.st.attempted
  {
    if IsAuthFailure(reply) then
      var re := ReauthenticateSpec(st);
      if Truthy(re.1) then Retry(re.0) else Done(re.0, None)
    else Done(st, None)
  }

  /** After the redirect loop: a request that raised gives None; a non-200 or an HTML
      page reauthenticates, closing the gate for the retry on success and reopening it on
      failure; anything else is decoded. */
  function AfterRedirects(st: KpState, last: Reply): (s: Step)
    requires !st.fetching
    ensures !s.st.fetching
    ensures s.Retry? ==> !st.attempted && s.st.attempted
  {
    if last.Unreachable? then Done(st, None)
    else if NeedsReauth(last) then
      var re := ReauthenticateSpec(st);
      if Truthy(re.1) then Retry(re.0.(attempted := true))
      else Done(re.0.(attempted := false), None)
    else Done(st, Some(DecodeBody(last)))
  }

  /** One level of `_make_request`, up to (not including) the recursive retry. */
  function Attempt(st: KpState, path: string): (s: Step)
    requires !st.fetching
    ensures !s.st.fetching
    ensures s.Retry? ==> !st.attempted && s.st.attempted
  {
    var auth := GetAuthHeadersSpec(st);
    var url := ResolveUrl(st.baseUrl, path);
    var sent := IssueSpec(auth.0, url, auth.1);
    if sent.1.Unreachable? then Done(sent.0, None)
    else Proceed(sent.0, url, auth.1, sent.1)
  }

  /** What follows a first request that was answered: the HTTPError handler, or the
      redirect loop and what comes after it. */
  function Proceed(st: KpState, url: string, h: Headers, reply: Reply): (s: Step)
    requires !st.fetching && reply.Answer?
    ensures !s.st.fetching
    ensures s.Retry? ==> !st.attempted && s.st.attempted
  {
    if IsHttpError(reply.status) then OnHttpError(st, reply)
    else
      var red := Redirects(st, url, h, reply, 0);
      RedirectsSession(st, url, h, reply, 0);
      AfterRedirects(red.0, red.1)
  }

  /** `_make_request`, from a state with no fetch in progress: one level, and the retry
      that a successful reauthentication asks for. */
  function MakeRequestSpec(st: KpState, path: string): (KpState, Option<Body>)
    requires !st.fetching
    decreases if st.attempted then 0 else 1
  {
    match Attempt(st, path)
    case Done(s, r) => (s, r)
    case Retry(s) => MakeRequestSpec(s, path)
  }

  // ---------------------------------------------------------------------------
  // Properties of the executor

  /** The redirect loop leaves the session alone. */
  lemma {:induction false} RedirectsSession(st: KpState, url: string, h: Headers, reply: Reply, count: nat)
    requires count <= MaxRedirectRetries
    ensures SameSession(Redirects(st, url, h, reply, count).0, st)
    decreases MaxRedirectRetries - count
  {
    if reply.Answer? && reply.status == 302 && count < MaxRedirectRetries {
      RedirectsSession(IssueSpec(st, url, h).0, url, h, IssueSpec(st, url, h).1, count + 1);
    }
  }

  /** The redirect loop consumes the server script from the front. */
  lemma {:induction false} RedirectsScript(st: KpState, url: string, h: Headers, reply: Reply, count: nat)
    requires count <= MaxRedirectRetries
    ensures Suffix(Redirects(st, url, h, reply, count).0.server, st.server)
    decreases MaxRedirectRetries - count
  {
    if reply.Answer? && reply.status == 302 && count < MaxRedirectRetries {
      var st1 := IssueSpec(st, url, h).0;
      var next := IssueSpec(st, url, h).1;
      RedirectsScript(st1, url, h, next, count + 1);
      var last := Redirects(st1, url, h, next, count + 1).0;
      assert Redirects(st, url, h, reply, count).0 == last;
      if st.server == [] {
        assert st1.server == st.server;
      } else {
        assert st1.server == st.server[1..];
        SuffixTrans(last.server, st1.server, st.server);
      }
    }
  }

  /** What the redirect loop ends with, when it is an answer, is the reply it started
      from or one the server sent. */
  lemma {:induction false} RedirectsReply(st: KpState, url: string, h: Headers, reply: Reply, count: nat)
    requires count <= MaxRedirectRetries
    ensures var last := Redirects(st, url, h, reply, count).1;
      last.Answer? ==> last == reply || last in st.server
    decreases MaxRedirectRetries - count
  {
    if reply.Answer? && reply.status == 302 && count < MaxRedirectRetries {
      var (st1, next) := IssueSpec(st, url, h);
      RedirectsReply(st1, url, h, next, count + 1);
      if st.server != [] {
        assert st1.server == st.server[1..] && next == st.server[0];
      }
    }
  }

  /** The redirect loop re-issues the same request, with the same headers, at most five
      times. */
  lemma {:induction false} RedirectsIssued(st: KpState, url: string, h: Headers, reply: Reply, count: nat)
    requires count <= MaxRedirectRetries
    ensures var issued := Redirects(st, url, h, reply, count).0.issued;
      && |issued| <= |st.issued| + MaxRedirectRetries - count
      && StartsWith(issued, st.issued)
      && (forall i :: |st.issued| <= i < |issued| ==> issued[i] == (url, h))
    decreases MaxRedirectRetries - count
  {
    if reply.Answer? && reply.status == 302 && count < MaxRedirectRetries {
      var st1 := IssueSpec(st, url, h).0;
      var next := IssueSpec(st, url, h).1;
      assert st1.issued == st.issued + [(url, h)];
      RedirectsIssued(st1, url, h, next, count + 1);
      PrefixTrans(st.issued, st1.issued, Redirects(st1, url, h, next, count + 1).0.issued);
    }
  }

  /** What a reauthenticating handler may change: one reauthentication, at most one
      login (only through an open gate), nothing sent to the server. A retry starts with
      a cookie set, and a handler that reopens a closed gate returns None. */
  predicate HandlerBounds(st: KpState, s: Step) {
    && s.st.reauths <= st.reauths + 1
    && s.st.fetches <= st.fetches + (if st.attempted then 0 else 1)
    && s.st.issued == st.issued && s.st.server == st.server && s.st.baseUrl == st.baseUrl
    && (s.Retry? ==> Truthy(s.st.cookie))
    && (st.attempted && !s.st.attempted ==> s == Done(s.st, None))
  }

  lemma OnHttpErrorBounds(st: KpState, reply: Reply)
    requires !st.fetching && reply.Answer?
    ensures HandlerBounds(st, OnHttpError(st, reply))
  {
  }

  lemma AfterRedirectsBounds(st: KpState, last: Reply)
    requires !st.fetching
    ensures HandlerBounds(st, AfterRedirects(st, last))
  {
  }

  /** Getting the headers touches neither the server nor the gate, and logs in only
      when no cookie is set. */
  lemma GetAuthHeadersFrame(st: KpState)
    requires !st.fetching
    ensures var a := GetAuthHeadersSpec(st).0;
      && a.server == st.server && a.issued == st.issued && a.baseUrl == st.baseUrl
      && a.attempted == st.attempted && a.reauths == st.reauths && !a.fetching
      && a.fetches <= st.fetches + (if Truthy(st.cookie) then 0 else 1)
  {
  }

  /** After an answered first request: at most one reauthentication, at most one login
      through an open gate, at most five more requests, all repeating the first. */
  lemma ProceedBounds(st: KpState, url: string, h: Headers, reply: Reply)
    requires !st.fetching && reply.Answer?
    ensures var s := Proceed(st, url, h, reply);
      && s.st.reauths <= st.reauths + 1
      && s.st.fetches <= st.fetches + (if st.attempted then 0 else 1)
      && |s.st.issued| <= |st.issued| + MaxRedirectRetries
      && StartsWith(s.st.issued, st.issued)
      && (forall i :: |st.issued| <= i < |s.st.issued| ==> s.st.issued[i] == (url, h))
      && s.st.baseUrl == st.baseUrl
      && (s.Retry? ==> Truthy(s.st.cookie))
      && (st.attempted && !s.st.attempted ==> s == Done(s.st, None))
  {
    if IsHttpError(reply.status) {
      OnHttpErrorBounds(st, reply);
    } else {
      var red := Redirects(st, url, h, reply, 0);
      RedirectsSession(st, url, h, reply, 0);
      RedirectsIssued(st, url, h, reply, 0);
      AfterRedirectsBounds(red.0, red.1);
    }
  }

  /** One level reauthenticates at most once, logs in at most once per missing cookie
      and once through the gate, and issues at most six requests, all to the resolved
      URL. A retry starts with a cookie set, and only a failed level reopens the gate. */
  lemma AttemptBounds(st: KpState, path: string)
    requires !st.fetching
    ensures var s := Attempt(st, path);
      && s.st.reauths <= st.reauths + 1
      && s.st.fetches <= st.fetches + (if Truthy(st.cookie) then 0 else 1) + (if st.attempted then 0 else 1)
      && |s.st.issued| <= |st.issued| + 6
      && StartsWith(s.st.issued, st.issued)
      && (forall i :: |st.issued| <= i < |s.st.issued| ==> s.st.issued[i].0 == ResolveUrl(st.baseUrl, path))
      && s.st.baseUrl == st.baseUrl
      && (s.Retry? ==> Truthy(s.st.cookie))
      && (st.attempted && !s.st.attempted ==> s == Done(s.st, None))
  {
    var auth := GetAuthHeadersSpec(st);
    var url := ResolveUrl(st.baseUrl, path);
    var sent := IssueSpec(auth.0, url, auth.1);
    GetAuthHeadersFrame(st);
    assert sent.0.issued == st.issued + [(url, auth.1)];
    if sent.1.Answer? {
      ProceedBounds(sent.0, url, auth.1, sent.1);
      PrefixTrans(st.issued, sent.0.issued, Proceed(sent.0, url, auth.1, sent.1).st.issued);
    }
  }

  /** Bounds on one top-level `_make_request` with no fetch in progress: it recurses at
      most once, so it reauthenticates at most twice and runs the login script at most
      twice (never when the cookie is set and the gate closed); every request goes to
      the resolved URL, at most six per level. The gate is reopened only by a call that
      returns None. */
  lemma {:induction false} MakeRequestBounds(st: KpState, path: string)
    requires !st.fetching
    ensures var r := MakeRequestSpec(st, path);
      && r.0.reauths <= st.reauths + (if st.attempted then 1 else 2)
      && r.0.fetches <= st.fetches + (if Truthy(st.cookie) then 0 else 1) + (if st.attempted then 0 else 1)
      && |r.0.issued| <= |st.issued| + (if st.attempted then 6 else 12)
      && StartsWith(r.0.issued, st.issued)
      && (forall i :: |st.issued| <= i < |r.0.issued| ==> r.0.issued[i].0 == ResolveUrl(st.baseUrl, path))
      && r.0.baseUrl == st.baseUrl
      && (st.attempted && !r.0.attempted ==> r.1.None?)
    decreases if st.attempted then 0 else 1
  {
    AttemptBounds(st, path);
    var s := Attempt(st, path);
    if s.Retry? {
      var r := MakeRequestSpec(s.st, path);
      assert MakeRequestSpec(st, path) == r;
      MakeRequestBounds(s.st, path);
      assert r.0.fetches <= s.st.fetches;
      PrefixTrans(st.issued, s.st.issued, r.0.issued);
      forall i | |st.issued| <= i < |r.0.issued|
        ensures r.0.issued[i].0 == ResolveUrl(st.baseUrl, path)
      {
        if i >= |s.st.issued| {
          assert r.0.issued[i].0 == ResolveUrl(s.st.baseUrl, path);
        } else {
          assert r.0.issued[i] == s.st.issued[i];
        }
      }
    } else {
      assert MakeRequestSpec(st, path) == (s.st, s.result);
    }
  }

  /** `b` is the decoded body of an accepted reply among `replies`. */
  predicate DecodedFrom(b: Body, replies: seq<Reply>) {
    exists k :: 0 <= k < |replies| && Accepted(replies[k]) && b == DecodeBody(replies[k])
  }

  lemma DecodedFromSuffix(b: Body, a: seq<Reply>, c: seq<Reply>)
    requires Suffix(a, c) && DecodedFrom(b, a)
    ensures DecodedFrom(b, c)
  {
    var k :| 0 <= k < |a| && Accepted(a[k]) && b == DecodeBody(a[k]);
    assert a[k] == c[k + |c| - |a|];
  }

  /** A result after the redirect loop is the decoded body of the reply it ended with. */
  lemma AfterRedirectsResult(st: KpState, last: Reply, first: Reply, replies: seq<Reply>)
    requires !st.fetching
    requires last.Answer? ==> last == first || last in replies
    requires first.Answer? && !IsHttpError(first.status)
    ensures var s := AfterRedirects(st, last);
      s.Done? && s.result.Some? ==> Accepted(last) && s.result.value == DecodeBody(last)
    ensures var s := AfterRedirects(st, last);
      s.Done? && s.result.Some? ==> DecodedFrom(s.result.value, [first] + replies)
  {
    if last.Answer? && !NeedsReauth(last) {
      if last == first {
        assert ([first] + replies)[0] == last;
      } else {
        var j :| 0 <= j < |replies| && replies[j] == last;
        assert ([first] + replies)[j + 1] == last;
      }
    }
  }

  /** After an answered first request: the script is consumed from the front, and a
      result is the decoded body of that reply or of a later one the server sent. */
  lemma ProceedResult(st: KpState, url: string, h: Headers, reply: Reply)
    requires !st.fetching && reply.Answer?
    ensures var s := Proceed(st, url, h, reply);
      && Suffix(s.st.server, st.server)
      && (s.Done? && s.result.Some? ==> DecodedFrom(s.result.value, [reply] + st.server))
  {
    if IsHttpError(reply.status) {
      OnHttpErrorBounds(st, reply);
    } else {
      var red := Redirects(st, url, h, reply, 0);
      RedirectsScript(st, url, h, reply, 0);
      RedirectsReply(st, url, h, reply, 0);
      AfterRedirectsBounds(red.0, red.1);
      AfterRedirectsResult(red.0, red.1, reply, st.server);
    }
  }

  /** One level consumes a prefix of the server script; a result it returns is the decoded
      body of a reply the server sent that was neither an HTTP error nor a stale-session
      sign. */
  lemma AttemptResult(st: KpState, path: string)
    requires !st.fetching
    ensures var s := Attempt(st, path);
      && Suffix(s.st.server, st.server)
      && (s.Done? && s.result.Some? ==> DecodedFrom(s.result.value, st.server))
  {
    var auth := GetAuthHeadersSpec(st);
    var url := ResolveUrl(st.baseUrl, path);
    var sent := IssueSpec(auth.0, url, auth.1);
    GetAuthHeadersFrame(st);
    if sent.1.Answer? {
      ProceedResult(sent.0, url, auth.1, sent.1);
      assert [sent.1] + sent.0.server == st.server;
    }
  }

  /** Over the whole call: the script is consumed from the front, and a result is always
      the decoded body of an accepted reply the server sent. */
  lemma {:induction false} MakeRequestResult(st: KpState, path: string)
    requires !st.fetching
    ensures var r := MakeRequestSpec(st, path);
      && Suffix(r.0.server, st.server)
      && (r.1.Some? ==> DecodedFrom(r.1.value, st.server))
    decreases if st.attempted then 0 else 1
  {
    AttemptResult(st, path);
    var s := Attempt(st, path);
    if s.Retry? {
      MakeRequestResult(s.st, path);
      var r := MakeRequestSpec(s.st, path);
      SuffixTrans(r.0.server, s.st.server, st.server);
      if r.1.Some? {
        DecodedFromSuffix(r.1.value, s.st.server, st.server);
      }
    }
  }

  /** Two redirects and then a good reply: the body of the third reply comes back after
      exactly three requests, without reauthentication or login. */
  lemma RedirectsThenSuccess(st: KpState, path: string)
    requires !st.fetching && Truthy(st.cookie)
    requires |st.server| >= 3
    requires st.server[0].Answer? && st.server[0].status == 302
    requires st.server[1].Answer? && st.server[1].status == 302
    requires Accepted(st.server[2])
    ensures var r := MakeRequestSpec(st, path);
      && r.1 == Some(DecodeBody(st.server[2]))
      && r.0.reauths == st.reauths && r.0.fetches == st.fetches
      && |r.0.issued| == |st.issued| + 3
  {
    var url := ResolveUrl(st.baseUrl, path);
    var h := CookieHeader(st.cookie);
    var (st2, reply) := IssueSpec(st, url, h);
    var (st3, reply3) := IssueSpec(st2, url, h);
    var (st4, reply4) := IssueSpec(st3, url, h);
    assert Redirects(st4, url, h, reply4, 2) == (st4, reply4);
    assert Redirects(st3, url, h, reply3, 1) == (st4, reply4);
    assert Redirects(st2, url, h, reply, 0) == (st4, reply4);
  }

  /** A server that answers 401 every time: the first reauthentication logs in again and
      the request is retried; the retry's reauthentication finds the gate closed. The
      result is None after exactly two reauthentications, and the gate stays closed. */
  lemma PersistentUnauthorized(st: KpState, path: string, c: Json)
    requires !st.fetching && !st.attempted && Truthy(st.cookie)
    requires |st.server| >= 2 && |st.browserless| >= 1
    requires st.server[0].Answer? && st.server[0].status == 401
    requires st.server[1].Answer? && st.server[1].status == 401
    requires SessionCookieOf(st.browserless[0]) == Some(c) && Truthy(c)
    ensures var r := MakeRequestSpec(st, path);
      && r.1.None? && r.0.reauths == st.reauths + 2 && r.0.attempted
      && r.0.fetches == st.fetches + 1 && |r.0.issued| == |st.issued| + 2
  {
    var url := ResolveUrl(st.baseUrl, path);
    var (st2, reply) := IssueSpec(st, url, CookieHeader(st.cookie));
    var (st3, ok) := ReauthenticateSpec(st2);
    assert ok == c && st3.cookie == c && st3.attempted;
    var (st4, reply4) := IssueSpec(st3, url, CookieHeader(c));
    assert reply4 == st.server[1];
  }

  /** A server that answers with an HTML page every time: as with 401, two
      reauthentications and None, but this branch reopens the gate. */
  lemma PersistentHtml(st: KpState, path: string, c: Json)
    requires !st.fetching && !st.attempted && Truthy(st.cookie)
    requires |st.server| >= 2 && |st.browserless| >= 1
    requires st.server[0].Answer? && st.server[0].status == 200 && Contains(Lower(st.server[0].contentType), "text/html")
    requires st.server[1].Answer? && st.server[1].status == 200 && Contains(Lower(st.server[1].contentType), "text/html")
    requires SessionCookieOf(st.browserless[0]) == Some(c) && Truthy(c)
    ensures var r := MakeRequestSpec(st, path);
      && r.1.None? && r.0.reauths == st.reauths + 2 && !r.0.attempted
      && r.0.fetches == st.fetches + 1 && |r.0.issued| == |st.issued| + 2
  {
    var url := ResolveUrl(st.baseUrl, path);
    var (st2, reply) := IssueSpec(st, url, CookieHeader(st.cookie));
    assert Redirects(st2, url, CookieHeader(st.cookie), reply, 0) == (st2, reply);
    var (st3, ok) := ReauthenticateSpec(st2);
    assert ok == c && st3.cookie == c && st3.attempted;
    var st3' := st3.(attempted := true);
    var (st4, reply4) := IssueSpec(st3', url, CookieHeader(c));
    assert reply4 == st.server[1];
    assert Redirects(st4, url, CookieHeader(c), reply4, 0) == (st4, reply4);
  }

  /** What one login run leaves: a reply that failed, is not JSON, or has no `cookies`
      returns None and keeps the cookie; a list with no JSESSIONID cookie sets the
      cookie to None; the first JSESSIONID value becomes the cookie and is returned.
      One Browserless reply is consumed either way. */
  lemma RequestSessionTokenCases(st: KpState)
    ensures var reply := if st.browserless == [] then FetchFailed else st.browserless[0];
      var r := RequestSessionTokenSpec(st);
      && r.0.browserless == (if st.browserless == [] then [] else st.browserless[1..])
      && ((reply.FetchFailed? || reply.NotJson? || (reply.Parsed? && Sub(reply.data, "cookies").None?)) ==>
            r.1 == Null && r.0.cookie == st.cookie)
      && (reply.Parsed? && Sub(reply.data, "cookies").Some? && Elements(Sub(reply.data, "cookies").value).Some? ==>
            var scan := FirstSessionCookie(Elements(Sub(reply.data, "cookies").value).value);
            && (scan == Absent ==> r.1 == Null && r.0.cookie == Null)
            && (scan.Found? ==> r.1 == scan.value && r.0.cookie == scan.value))
  {
  }

  /** `authenticate` returns a truthy cookie as it is, touching nothing; without one it
      runs the login exactly once. The headers always carry what `authenticate`
      returned, even None. */
  lemma AuthenticateCases(st: KpState)
    ensures Truthy(st.cookie) ==> AuthenticateSpec(st) == (st, st.cookie)
    ensures !Truthy(st.cookie) ==>
      (AuthenticateSpec(st) == RequestSessionTokenSpec(st) && AuthenticateSpec(st).0.fetches == st.fetches + 1)
    ensures GetAuthHeadersSpec(st).1 == CookieHeader(AuthenticateSpec(st).1)
  {
  }

  /** An HTTP error other than 401 or a 500 naming AccessDeniedException gives None at
      once: no reauthentication, no further request. */
  lemma OtherHttpErrorGivesNone(st: KpState, url: string, h: Headers, reply: Reply)
    requires !st.fetching && reply.Answer? && IsHttpError(reply.status) && !IsAuthFailure(reply)
    ensures Proceed(st, url, h, reply) == Done(st, None)
  {
  }

  /** Nothing but a failed reauthentication on the HTML branch reopens the gate, so
      once a recovery has closed it, an authentication failure gives None at once: the
      reauthentication it calls runs no login and asks for no retry. */
  lemma ClosedGateGivesNone(st: KpState, url: string, h: Headers, reply: Reply)
    requires !st.fetching && st.attempted && reply.Answer? && IsAuthFailure(reply)
    ensures Proceed(st, url, h, reply) == Done(st.(reauths := st.reauths + 1), None)
  {
  }

  // ---------------------------------------------------------------------------
  // The client object

  /** The network the client talks to: the KP server's and Browserless's scripted
      replies, and a log of what was asked of them. */
  class KpTransport {
    var server: seq<Reply>
    var browserless: seq<FetchReply>
    ghost var issued: seq<(string, Headers)>
    ghost var fetches: nat

    constructor (server: seq<Reply>, browserless: seq<FetchReply>)
      ensures this.server == server && this.browserless == browserless
      ensures issued == [] && fetches == 0
    {
      this.server := server;
      this.browserless := browserless;
      issued := [];
      fetches := 0;
    }

    /** `method(url, headers=headers, allow_redirects=False)` against the KP server. */
    method Send(url: string, h: Headers) returns (reply: Reply)
      modifies this
      ensures reply == (if old(server) == [] then Unreachable else old(server)[0])
      ensures server == (if old(server) == [] then [] else old(server)[1..])
      ensures issued == old(issued) + [(url, h)]
      ensures browserless == old(browserless) && fetches == old(fetches)
    {
      if server == [] {
        reply := Unreachable;
      } else {
        reply := server[0];
        server := server[1..];
      }
      issued := issued + [(url, h)];
    }

    /** The POST of the login script to Browserless's `/function` endpoint. */
    method PostLogin() returns (reply: FetchReply)
      modifies this
      ensures reply == (if old(browserless) == [] then FetchFailed else old(browserless)[0])
      ensures browserless == (if old(browserless) == [] then [] else old(browserless)[1..])
      ensures fetches == old(fetches) + 1
      ensures server == old(server) && issued == old(issued)
    {
      if browserless == [] {
        reply := FetchFailed;
      } else {
        reply := browserless[0];
        browserless := browserless[1..];
      }
      fetches := fetches + 1;
    }
  }

  /** `KPAPIClient`: its session fields, updated in place by the methods below, each of
      which is proved to make the move its specification function describes. */
  class KPAPIClient {
    const baseUrl: string
    const username: string
    const password: string
    const net: KpTransport
    var sessionCookie: Json
    var authAttempted: bool
    var isFetchingToken: bool
    ghost var reauths: nat

    ghost function State(): KpState
      reads this, net
    {
      KpState(baseUrl, sessionCookie, isFetchingToken, authAttempted,
              net.server, net.browserless, net.issued, net.fetches, reauths)
    }

    /** `__init__`: no cookie, gate open, no fetch in progress. */
    constructor (baseUrl: string, username: string, password: string, net: KpTransport)
      ensures this.baseUrl == baseUrl && this.username == username && this.password == password
      ensures this.net == net
      ensures sessionCookie == Null && !authAttempted && !isFetchingToken && reauths == 0
    {
      this.baseUrl := baseUrl;
      this.username := username;
      this.password := password;
      this.net := net;
      sessionCookie := Null;
      authAttempted := false;
      isFetchingToken := false;
      reauths := 0;
    }

    /** `request_session_token` */
    method RequestSessionToken() returns (r: Json)
      modifies this, net
      ensures (State(), r) == RequestSessionTokenSpec(old(State()))
    {
      isFetchingToken := true;
      var reply := net.PostLogin();
      var cookie := Null;
      var gotCookie := false;
      if reply.Parsed? {
        var cookies := Sub(reply.data, "cookies");
        if cookies.Some? {
          var items := Elements(cookies.value);
          if items.Some? {
            var scan := FindSessionCookie(items.value);
            match scan
            case Found(v) =>
              cookie, gotCookie := v, true;
            case Absent =>
              gotCookie := true;
            case Malformed =>
          }
        }
      }
      if gotCookie {
        sessionCookie := cookie;
        isFetchingToken := false;
        return sessionCookie;
      }
      isFetchingToken := false;
      return Null;
    }

    /** `authenticate` */
    method Authenticate() returns (r: Json)
      modifies this, net
      ensures (State(), r) == AuthenticateSpec(old(State()))
    {
      if Truthy(sessionCookie) {
        return sessionCookie;
      }
      r := RequestSessionToken();
    }

    /** `reauthenticate` */
    method Reauthenticate() returns (r: Json)
      modifies this, net
      ensures (State(), r) == ReauthenticateSpec(old(State()))
    {
      reauths := reauths + 1;
      if isFetchingToken {
        return sessionCookie;
      }
      if !authAttempted {
        authAttempted := true;
        var auth := RequestSessionToken();
        if Truthy(auth) {
          return auth;
        }
      }
      return Bool(false);
    }

    /** `get_auth_headers` */
    method GetAuthHeaders() returns (h: Headers)
      modifies this, net
      ensures (State(), h) == GetAuthHeadersSpec(old(State()))
    {
      var c := Authenticate();
      h := CookieHeader(c);
    }

    /** `_retry_request`: close the gate, then make the request again. */
    method RetryRequest(path: string) returns (r: Option<Body>)
      requires !isFetchingToken
      modifies this, net
      ensures (State(), r) == MakeRequestSpec(old(State()).(attempted := true), path)
      decreases 1, 0
    {
      authAttempted := true;
      r := MakeRequest(path);
    }

    /** `_make_request` */
    method MakeRequest(path: string) returns (r: Option<Body>)
      requires !isFetchingToken
      modifies this, net
      ensures (State(), r) == MakeRequestSpec(old(State()), path)
      decreases if authAttempted then 0 else 1, 1
    {
      ghost var s0 := State();
      var h := GetAuthHeaders();
      var url := ResolveUrl(baseUrl, path);
      var reply := net.Send(url, h);
      ghost var s2 := State();
      assert (s2, reply) == IssueSpec(GetAuthHeadersSpec(s0).0, url, h);
      if reply.Unreachable? {
        return None;
      }
      if IsHttpError(reply.status) {
        if IsAuthFailure(reply) {
          var ok := Reauthenticate();
          if Truthy(ok) {
            r := MakeRequest(path);
            return;
          }
        }
        return None;
      }
      var count := 0;
      ghost var reply2 := reply;
      while reply.Answer? && reply.status == 302 && count < MaxRedirectRetries
        invariant 0 <= count <= MaxRedirectRetries
        invariant Redirects(s2, url, h, reply2, 0) == Redirects(State(), url, h, reply, count)
        decreases MaxRedirectRetries - count
      {
        count := count + 1;
        reply := net.Send(url, h);
      }
      if reply.Unreachable? {
        return None;
      }
      if NeedsReauth(reply) {
        var ok := Reauthenticate();
        if Truthy(ok) {
          r := RetryRequest(path);
          return;
        }
        authAttempted := false;
        return None;
      }
      return Some(DecodeBody(reply));
    }
  }

  /** `KPAPIClient._client_cache` and `get_client`: one client per (username, password),
      all of them talking to the same KP server through the same network. */
  class KpRegistry {
    const baseUrl: string
    const net: KpTransport
    var cache: map<(string, string), KPAPIClient>

    /** Every cached client was built for the key it is cached under. */
    ghost predicate Valid()
      reads this
    {
      forall k :: k in cache ==>
        cache[k].username == k.0 && cache[k].password == k.1 &&
        cache[k].baseUrl == baseUrl && cache[k].net == net
    }

    constructor (baseUrl: string, net: KpTransport)
      ensures Valid() && cache == map[]
      ensures this.baseUrl == baseUrl && this.net == net
    {
      this.baseUrl := baseUrl;
      this.net := net;
      cache := map[];
    }

    /** `get_client`: the cached client for the key, or a new one that is cached. */
    method GetClient(username: string, password: string) returns (c: KPAPIClient)
      requires Valid()
      modifies this
      ensures Valid()
      ensures c.username == username && c.password == password && c.net == net
      ensures (username, password) in old(cache) ==> c == old(cache)[(username, password)] && cache == old(cache)
      ensures (username, password) !in old(cache) ==>
        fresh(c) && cache == old(cache)[(username, password) := c] &&
        c.sessionCookie == Null && !c.authAttempted && !c.isFetchingToken
    {
      var key := (username, password);
      if key in cache {
        return cache[key];
      }
      c := new KPAPIClient(baseUrl, username, password, net);
      cache := cache[key := c];
    }
  }

}
