/** The SBSYS case-management client: an OpenID password-grant token cache against the
    SBSIP identity server, a registry of API clients keyed by credentials, and the
    personnel-case lookup by CPR number. */
module SbsysClient {
  import opened Text
  import opened PyJson
  import opened BearerToken

  /** The token endpoint under the SBSIP base URL. */
  function SbsysTokenUrl(sbsipUrl: string): string {
    sbsipUrl + "/auth/realms/sbsip/protocol/openid-connect/token"
  }

  /** `SbsysAPIClient`: credentials fixed at construction, and the two token fields
      that `request_access_token` assigns. */
  class SbsysAPIClient {
    const clientId: string
    const clientSecret: string
    const username: string
    const password: string
    const url: string
    const sbsipUrl: string
    const endpoint: TokenEndpoint
    var accessToken: Json
    var accessTokenExpiry: Option<int>

    function Token(): TokenState
      reads this
    {
      TokenState(accessToken, accessTokenExpiry)
    }

    /** The form-encoded password grant. */
    function Form(): seq<(string, string)> {
      [("grant_type", "password"), ("client_id", clientId), ("client_secret", clientSecret),
       ("username", username), ("password", password)]
    }

    constructor (clientId: string, clientSecret: string, username: string, password: string,
                 url: string, sbsipUrl: string, endpoint: TokenEndpoint)
      ensures this.clientId == clientId && this.clientSecret == clientSecret
      ensures this.username == username && this.password == password
      ensures this.url == url && this.sbsipUrl == sbsipUrl && this.endpoint == endpoint
      ensures Token() == NoToken
    {
      this.clientId := clientId;
      this.clientSecret := clientSecret;
      this.username := username;
      this.password := password;
      this.url := url;
      this.sbsipUrl := sbsipUrl;
      this.endpoint := endpoint;
      accessToken := Null;
      accessTokenExpiry := None;
    }

    /** `request_access_token`: one POST to the https token URL, then the fields as the
        grant dictates. */
    method RequestAccessToken(now: int) returns (r: Outcome<Json>)
      modifies this, endpoint
      ensures (Token(), r) == RequestAccessTokenSpec(old(Token()), NextGrant(old(endpoint.grants)), now)
      ensures endpoint.grants == RestGrants(old(endpoint.grants))
      ensures endpoint.posted == old(endpoint.posted) + [(EnsureHttps(SbsysTokenUrl(sbsipUrl)), Form())]
    {
      var tokenUrl := SbsysTokenUrl(sbsipUrl);
      if !StartsWith(tokenUrl, "https://") {
        tokenUrl := "https://" + tokenUrl;
      }
      var g := endpoint.Post(tokenUrl, Form());
      var s;
      s, r := TakeGrant(Token(), g, now);
      accessToken, accessTokenExpiry := s.token, s.expiry;
    }

    /** `get_access_token`: no request while the cached token is reusable. */
    method GetAccessToken(now: int) returns (r: Outcome<Json>)
      modifies this, endpoint
      ensures (Token(), r) == GetAccessTokenSpec(old(Token()), NextGrant(old(endpoint.grants)), now)
      ensures Reusable(old(Token()), now) ==>
        endpoint.grants == old(endpoint.grants) && endpoint.posted == old(endpoint.posted)
      ensures !Reusable(old(Token()), now) ==>
        endpoint.grants == RestGrants(old(endpoint.grants)) &&
        endpoint.posted == old(endpoint.posted) + [(EnsureHttps(SbsysTokenUrl(sbsipUrl)), Form())]
    {
      if Truthy(accessToken) && accessTokenExpiry.Some? && accessTokenExpiry.value != 0 {
        if now < accessTokenExpiry.value {
          return Returned(accessToken);
        }
      }
      r := RequestAccessToken(now);
    }

    /** `get_auth_headers` */
    method GetAuthHeaders(now: int) returns (h: Outcome<Option<AuthHeader>>)
      modifies this, endpoint
      ensures (Token(), h) == GetAuthHeadersSpec(old(Token()), NextGrant(old(endpoint.grants)), now)
    {
      var token := GetAccessToken(now);
      if token.Raised? {
        return Raised;
      }
      if Truthy(token.value) {
        return Returned(Some(Bearer(token.value)));
      }
      return Returned(None);
    }
  }

  /** `SbsysAPIClient._client_cache` and `get_client`, keyed on (client id, client
      secret, username, password); the URL is not part of the key. */
  class SbsysRegistry {
    const sbsipUrl: string
    const endpoint: TokenEndpoint
    var cache: map<(string, string, string, string), SbsysAPIClient>

    ghost predicate Valid()
      reads this
    {
      forall k :: k in cache ==>
        cache[k].clientId == k.0 && cache[k].clientSecret == k.1 &&
        cache[k].username == k.2 && cache[k].password == k.3 &&
        cache[k].sbsipUrl == sbsipUrl && cache[k].endpoint == endpoint
    }

    constructor (sbsipUrl: string, endpoint: TokenEndpoint)
      ensures Valid() && cache == map[]
      ensures this.sbsipUrl == sbsipUrl && this.endpoint == endpoint
    {
      this.sbsipUrl := sbsipUrl;
      this.endpoint := endpoint;
      cache := map[];
    }

    /** `get_client`: a repeated key returns the cached client, whatever `url` is given;
        a new key builds, caches and returns a client for that URL. */
    method GetClient(clientId: string, clientSecret: string, username: string, password: string, url: string)
      returns (c: SbsysAPIClient)
      requires Valid()
      modifies this
      ensures Valid()
      ensures c.clientId == clientId && c.clientSecret == clientSecret
      ensures c.username == username && c.password == password
      ensures var key := (clientId, clientSecret, username, password);
        && (key in old(cache) ==> c == old(cache)[key] && cache == old(cache))
        && (key !in old(cache) ==> fresh(c) && c.url == url && c.Token() == NoToken &&
                                   cache == old(cache)[key := c])
    {
      var key := (clientId, clientSecret, username, password);
      if key in cache {
        return cache[key];
      }
      c := new SbsysAPIClient(clientId, clientSecret, username, password, url, sbsipUrl, endpoint);
      cache := cache[key := c];
    }
  }


  // ---------------------------------------------------------------------------
  // get_personalesag

  /** Where `cpr[:6] + "-" + cpr[6:]` splits: at 6, or at the end of a shorter string. */
  function CprSplit(cpr: string): nat {
    if |cpr| < 6 then |cpr| else 6
  }

  /** The CPR rewrite of `get_personalesag`: a number without a hyphen gets one after
      the sixth character (Python slicing: at the end when shorter). */
  function NormalizeCpr(cpr: string): string {
    if Contains(cpr, "-") then cpr
    else cpr[..CprSplit(cpr)] + "-" + cpr[CprSplit(cpr)..]
  }

  /** A CPR with a hyphen is kept; one without gets exactly one hyphen, at the split
      point, and dropping it gives the input back. The result always has a hyphen, so
      the rewrite is idempotent. */
  lemma NormalizeCprSpec(cpr: string)
    ensures Contains(cpr, "-") ==> NormalizeCpr(cpr) == cpr
    ensures !Contains(cpr, "-") ==>
      var r := NormalizeCpr(cpr);
      var k := CprSplit(cpr);
      && |r| == |cpr| + 1 && r[k] == '-'
      && r[..k] + r[k + 1..] == cpr
    ensures Contains(NormalizeCpr(cpr), "-")
    ensures NormalizeCpr(NormalizeCpr(cpr)) == NormalizeCpr(cpr)
  {
    if !Contains(cpr, "-") {
      var k := CprSplit(cpr);
      var r := NormalizeCpr(cpr);
      assert r[..k] == cpr[..k] && r[k + 1..] == cpr[k..];
      assert cpr[..k] + cpr[k..] == cpr;
      assert OccursAt(r, "-", k);
      ContainsAt(r, "-");
    }
  }

  /** The search payload: the (normalised) CPR as primary person, case type
      PersonaleSag. */
  function PersonalesagPayload(cpr: string): Json {
    Obj([("PrimaerPerson", Obj([("CprNummer", Str(NormalizeCpr(cpr)))])),
         ("SagsTyper", Arr([Obj([("Navn", Str("PersonaleSag"))])]))])
  }

  const PersonalesagPath := "api/sag/search"

  /** What `get_personalesag` makes of the POST's outcome: `Results` when the response
      and `Results` are both truthy, else None; an exception gives None. */
  function PersonalesagResult(response: Outcome<Json>): (r: Json)
    ensures r != Null <==>
      response.Returned? && Truthy(response.value) &&
      Sub(response.value, "Results").Some? && Truthy(Sub(response.value, "Results").value)
    ensures r != Null ==> r == Sub(response.value, "Results").value
  {
    match response
    case Raised => Null
    case Returned(j) =>
      if !Truthy(j) then Null
      else match Sub(j, "Results")
        case None => Null
        case Some(results) => if Truthy(results) then results else Null
  }

  /** `SbsysClient.get_personalesag`, with the API client's POST as a parameter. */
  function GetPersonalesag(cpr: string, post: (string, Json) -> Outcome<Json>): Json {
    PersonalesagResult(post(PersonalesagPath, PersonalesagPayload(cpr)))
  }

  /** The search always carries a hyphenated CPR, the one `NormalizeCpr` gives, and
      asks for personnel cases only. */
  lemma PersonalesagSearchesHyphenated(cpr: string)
    ensures var p := PersonalesagPayload(cpr);
      && Sub(p, "PrimaerPerson").Some?
      && Sub(Sub(p, "PrimaerPerson").value, "CprNummer") == Some(Str(NormalizeCpr(cpr)))
      && Contains(NormalizeCpr(cpr), "-")
      && Sub(p, "SagsTyper") == Some(Arr([Obj([("Navn", Str("PersonaleSag"))])]))
  {
    NormalizeCprSpec(cpr);
    var f := PersonalesagPayload(cpr).fields;
    assert f[..|f| - 1] == [f[0]];
    assert Lookup(f, "PrimaerPerson") == Lookup([f[0]], "PrimaerPerson");
  }
}
