/** The bearer-token cache that the SBSYS and Azure API clients share, line for line:
    a token is reused while the clock is before its expiry and requested again
    otherwise; a grant stores the token and `now + expires_in`.

    The clock is an integer number of seconds passed in by the caller, and the token
    endpoint is a script of grants consumed in order. */
module BearerToken {
  import opened Text
  import opened PyJson

  /** What the token POST yields. Every failure of `requests.post`, of
      `raise_for_status` and of `response.json()` is a `RequestException`, which
      `request_access_token` catches; they all read as `Refused`. */
  datatype Grant = Refused | Granted(data: Json)

  /** `access_token` and `access_token_expiry`; Python's None expiry is `None`. */
  datatype TokenState = TokenState(token: Json, expiry: Option<int>)

  /** A client as `__init__` leaves it. */
  const NoToken := TokenState(Null, None)

  /** The header `get_auth_headers` builds: `Authorization: Bearer <str(token)>`. */
  datatype AuthHeader = Bearer(token: Json)

  /** `if not url.startswith("https://"): url = "https://" + url` */
  function EnsureHttps(url: string): (r: string)
    ensures StartsWith(r, "https://")
    ensures r == url <==> StartsWith(url, "https://")
    ensures r == url || r == "https://" + url
  {
    if StartsWith(url, "https://") then url
    else
      assert ("https://" + url)[..8] == "https://";
      "https://" + url
  }

  /** Prepending the scheme once is enough: a second pass changes nothing. */
  lemma EnsureHttpsIdempotent(url: string)
    ensures EnsureHttps(EnsureHttps(url)) == EnsureHttps(url)
  {
  }

  /** The number `time.time() + data['expires_in']` adds: an integer, or a boolean as
      0 or 1; anything else raises `TypeError`. */
  function ExpiresIn(j: Json): Option<int> {
    match j
    case Num(n) => Some(n)
    case Bool(b) => Some(if b then 1 else 0)
    case _ => None
  }

  /** `request_access_token`. A refused grant returns None and leaves both fields alone.
      A grant without `access_token` raises before any assignment; one whose
      `expires_in` is missing or not a number raises after the token is stored. */
  function RequestAccessTokenSpec(st: TokenState, g: Grant, now: int): (r: (TokenState, Outcome<Json>))
    ensures g.Refused? ==> r == (st, Returned(Null))
    ensures r.1.Returned? && g.Granted? ==>
      && Sub(g.data, "access_token") == Some(r.1.value)
      && Sub(g.data, "expires_in").Some? && ExpiresIn(Sub(g.data, "expires_in").value).Some?
      && r.0 == TokenState(r.1.value, Some(now + ExpiresIn(Sub(g.data, "expires_in").value).value))
    ensures r.1.Raised? ==>
      && g.Granted? && r.0.expiry == st.expiry
      && (Sub(g.data, "access_token").None? ==> r.0 == st)
  {
    match g
    case Refused => (st, Returned(Null))
    case Granted(d) =>
      match Sub(d, "access_token")
      case None => (st, Raised)
      case Some(t) =>
        var expiresIn := Sub(d, "expires_in");
        if expiresIn.None? || ExpiresIn(expiresIn.value).None? then (st.(token := t), Raised)
        else (TokenState(t, Some(now + ExpiresIn(expiresIn.value).value)), Returned(t))
  }

  /** The cached token may be used: it is truthy, its expiry is truthy, and the clock has
      not reached the expiry. */
  predicate Reusable(st: TokenState, now: int) {
    Truthy(st.token) && st.expiry.Some? && st.expiry.value != 0 && now < st.expiry.value
  }

  /** `get_access_token` */
  function GetAccessTokenSpec(st: TokenState, g: Grant, now: int): (r: (TokenState, Outcome<Json>))
    ensures Reusable(st, now) ==> r == (st, Returned(st.token))
  {
    if Reusable(st, now) then (st, Returned(st.token)) else RequestAccessTokenSpec(st, g, now)
  }

  /** `get_auth_headers`: a Bearer header when a truthy token is obtained, else None. */
  function GetAuthHeadersSpec(st: TokenState, g: Grant, now: int): (r: (TokenState, Outcome<Option<AuthHeader>>))
  {
    var (st1, t) := GetAccessTokenSpec(st, g, now);
    match t
    case Raised => (st1, Raised)
    case Returned(token) => (st1, Returned(if Truthy(token) then Some(Bearer(token)) else None))
  }

  /** The header carries exactly the token `get_access_token` obtained, and is None
      exactly when that token is falsy; the fields move as `get_access_token` moves them. */
  lemma AuthHeadersOfToken(st: TokenState, g: Grant, now: int)
    ensures var (s, h) := GetAuthHeadersSpec(st, g, now);
      var (s', t) := GetAccessTokenSpec(st, g, now);
      && s == s'
      && (h.Raised? <==> t.Raised?)
      && (h.Returned? ==> (h.value.Some? <==> Truthy(t.value)))
      && (h.Returned? && h.value.Some? ==> h.value.value == Bearer(t.value))
  {
  }

  /** A successful grant at `t0` for `n` seconds is reused, without a request, at every
      later instant before `t0 + n`, whatever the endpoint would have answered. */
  lemma RefreshThenReuse(st: TokenState, d: Json, t0: int, t1: int, n: int, g: Grant)
    requires 0 <= t0 <= t1 < t0 + n
    requires Sub(d, "access_token").Some? && Truthy(Sub(d, "access_token").value)
    requires Sub(d, "expires_in").Some? && ExpiresIn(Sub(d, "expires_in").value) == Some(n)
    ensures var s1 := RequestAccessTokenSpec(st, Granted(d), t0).0;
      GetAccessTokenSpec(s1, g, t1) == (s1, Returned(Sub(d, "access_token").value))
  {
    var s1 := RequestAccessTokenSpec(st, Granted(d), t0).0;
    assert s1.expiry == Some(t0 + n);
  }

  /** At or after the expiry, or with no truthy token or expiry, the token is requested
      again. */
  lemma ExpiredRefreshes(st: TokenState, g: Grant, now: int)
    requires !Truthy(st.token) || st.expiry.None? || st.expiry == Some(0) || now >= st.expiry.value
    ensures GetAccessTokenSpec(st, g, now) == RequestAccessTokenSpec(st, g, now)
  {
  }

  /** A fresh client has nothing to reuse: its first call always asks the endpoint. */
  lemma FreshClientRequests(g: Grant, now: int)
    ensures GetAccessTokenSpec(NoToken, g, now) == RequestAccessTokenSpec(NoToken, g, now)
    ensures g.Refused? ==> GetAuthHeadersSpec(NoToken, g, now) == (NoToken, Returned(None))
  {
  }

  /** The head of the grant script, or `Refused` once it is exhausted. */
  function NextGrant(gs: seq<Grant>): Grant {
    if gs == [] then Refused else gs[0]
  }

  function RestGrants(gs: seq<Grant>): seq<Grant> {
    if gs == [] then [] else gs[1..]
  }

  /** The token endpoint: its scripted grants, and a log of the (URL, form) pairs posted. */
  class TokenEndpoint {
    var grants: seq<Grant>
    ghost var posted: seq<(string, seq<(string, string)>)>

    constructor (grants: seq<Grant>)
      ensures this.grants == grants && posted == []
    {
      this.grants := grants;
      posted := [];
    }

    /** `requests.post(token_url, data=payload, ...)` */
    method Post(url: string, form: seq<(string, string)>) returns (g: Grant)
      modifies this
      ensures g == NextGrant(old(grants)) && grants == RestGrants(old(grants))
      ensures posted == old(posted) + [(url, form)]
    {
      if grants == [] {
        g := Refused;
      } else {
        g := grants[0];
        grants := grants[1..];
      }
      posted := posted + [(url, form)];
    }
  }

  /** The body of `request_access_token` after the POST: the fields a client assigns,
      computed from the grant; shared by both clients' methods. */
  method TakeGrant(st: TokenState, g: Grant, now: int) returns (s: TokenState, r: Outcome<Json>)
    ensures (s, r) == RequestAccessTokenSpec(st, g, now)
  {
    s := st;
    if g.Refused? {
      return s, Returned(Null);
    }
    var t := Sub(g.data, "access_token");
    if t.None? {
      return s, Raised;
    }
    s := s.(token := t.value);
    var e := Sub(g.data, "expires_in");
    if e.None? || ExpiresIn(e.value).None? {
      return s, Raised;
    }
    s := s.(expiry := Some(now + ExpiresIn(e.value).value));
    return s, Returned(t.value);
  }
}
