/** The Azure (Microsoft Graph) client: a client-credentials token cache per tenant,
    a registry of API clients keyed by credentials, and the user listing that follows
    `@odata.nextLink` from page to page. */
module AzureClient {
  import opened Text
  import opened PyJson
  import opened BearerToken

  /** The tenant's v2.0 token endpoint under the configured token URL. */
  function AzureTokenUrl(tokenUrl: string, tenantId: string): string {
    tokenUrl + "/" + tenantId + "/oauth2/v2.0/token"
  }

  /** The token URL always ends in the tenant's token path and starts with https. */
  lemma AzureTokenUrlShape(tokenUrl: string, tenantId: string)
    ensures var u := EnsureHttps(AzureTokenUrl(tokenUrl, tenantId));
      var tail := "/" + tenantId + "/oauth2/v2.0/token";
      && StartsWith(u, "https://")
      && |u| >= |tail| && u[|u| - |tail|..] == tail
  {
    var tail := "/" + tenantId + "/oauth2/v2.0/token";
    var raw := AzureTokenUrl(tokenUrl, tenantId);
    assert raw == tokenUrl + tail;
    var u := EnsureHttps(raw);
    assert u[|u| - |raw|..] == raw;
    assert raw[|raw| - |tail|..] == tail;
    assert u[|u| - |tail|..] == raw[|raw| - |tail|..];
  }

  /** `AzureAPIClient`: credentials and URLs fixed at construction, and the two token
      fields that `request_access_token` assigns. */
  class AzureAPIClient {
    const clientId: string
    const clientSecret: string
    const tenantId: string
    const url: string
    const tokenUrl: string
    const endpoint: TokenEndpoint
    var accessToken: Json
    var accessTokenExpiry: Option<int>

    function Token(): TokenState
      reads this
    {
      TokenState(accessToken, accessTokenExpiry)
    }

    /** The form-encoded client-credentials grant for Microsoft Graph. */
    function Form(): seq<(string, string)> {
      [("grant_type", "client_credentials"), ("scope", "https://graph.microsoft.com/.default"),
       ("client_id", clientId), ("client_secret", clientSecret)]
    }

    constructor (clientId: string, clientSecret: string, tenantId: string, url: string,
                 tokenUrl: string, endpoint: TokenEndpoint)
      ensures this.clientId == clientId && this.clientSecret == clientSecret && this.tenantId == tenantId
      ensures this.url == url && this.tokenUrl == tokenUrl && this.endpoint == endpoint
      ensures Token() == NoToken
    {
      this.clientId := clientId;
      this.clientSecret := clientSecret;
      this.tenantId := tenantId;
      this.url := url;
      this.tokenUrl := tokenUrl;
      this.endpoint := endpoint;
      accessToken := Null;
      accessTokenExpiry := None;
    }

    /** `request_access_token`: one POST to the https token URL of the tenant, then the
        fields as the grant dictates. */
    method RequestAccessToken(now: int) returns (r: Outcome<Json>)
      modifies this, endpoint
      ensures (Token(), r) == RequestAccessTokenSpec(old(Token()), NextGrant(old(endpoint.grants)), now)
      ensures endpoint.grants == RestGrants(old(endpoint.grants))
      ensures endpoint.posted == old(endpoint.posted) + [(EnsureHttps(AzureTokenUrl(tokenUrl, tenantId)), Form())]
    {
      var u := AzureTokenUrl(tokenUrl, tenantId);
      if !StartsWith(u, "https://") {
        u := "https://" + u;
      }
      var g := endpoint.Post(u, Form());
      var s;
      s, r := TakeGrant(Token(), g, now);
      accessToken, accessTokenExpiry := s.token, s.expiry;
    }

    /** `get_access_token`: no request while the cached token is reusable. */
    method GetAccessToken(now: int) returns (r: Outcome<Json>)
      modifies this, endpoint
      ensures (Token(), r) == GetAccessTokenSpec(old(Token()), NextGrant(old(endpoint.grants)), now)
      ensures Reusable(old(Token()), now) ==>
        endpoint.grants == old(endpoint.grants) && endpoint.posted == old(endpoint.posted)
      ensures !Reusable(old(Token()), now) ==>
        endpoint.grants == RestGrants(old(endpoint.grants)) &&
        endpoint.posted == old(endpoint.posted) + [(EnsureHttps(AzureTokenUrl(tokenUrl, tenantId)), Form())]
    {
      if Truthy(accessToken) && accessTokenExpiry.Some? && accessTokenExpiry.value != 0 {
        if now < accessTokenExpiry.value {
          return Returned(accessToken);
        }
      }
      r := RequestAccessToken(now);
    }

    /** `get_auth_headers` */
    method GetAuthHeaders(now: int) returns (h: Outcome<Option<AuthHeader>>)
      modifies this, endpoint
      ensures (Token(), h) == GetAuthHeadersSpec(old(Token()), NextGrant(old(endpoint.grants)), now)
    {
      var token := GetAccessToken(now);
      if token.Raised? {
        return Raised;
      }
      if Truthy(token.value) {
        return Returned(Some(Bearer(token.value)));
      }
      return Returned(None);
    }
  }

  /** `AzureAPIClient._client_cache` and `get_client`, keyed on (client id, client
      secret, tenant id); neither URL is part of the key. */
  class AzureRegistry {
    const endpoint: TokenEndpoint
    var cache: map<(string, string, string), AzureAPIClient>

    ghost predicate Valid()
      reads this
    {
      forall k :: k in cache ==>
        cache[k].clientId == k.0 && cache[k].clientSecret == k.1 && cache[k].tenantId == k.2 &&
        cache[k].endpoint == endpoint
    }

    constructor (endpoint: TokenEndpoint)
      ensures Valid() && cache == map[] && this.endpoint == endpoint
    {
      this.endpoint := endpoint;
      cache := map[];
    }

    /** `get_client`: a repeated key returns the cached client whatever URLs are given;
        a new key builds, caches and returns a client for those URLs. */
    method GetClient(clientId: string, clientSecret: string, tenantId: string, url: string, tokenUrl: string)
      returns (c: AzureAPIClient)
      requires Valid()
      modifies this
      ensures Valid()
      ensures c.clientId == clientId && c.clientSecret == clientSecret && c.tenantId == tenantId
      ensures var key := (clientId, clientSecret, tenantId);
        && (key in old(cache) ==> c == old(cache)[key] && cache == old(cache))
        && (key !in old(cache) ==> fresh(c) && c.url == url && c.tokenUrl == tokenUrl &&
                                   c.Token() == NoToken && cache == old(cache)[key := c])
    {
      var key := (clientId, clientSecret, tenantId);
      if key in cache {
        return cache[key];
      }
      c := new AzureAPIClient(clientId, clientSecret, tenantId, url, tokenUrl, endpoint);
      cache := cache[key := c];
    }
  }


  // ---------------------------------------------------------------------------
  // get_all_users

  /** The first page of the user listing. */
  function UsersUrl(url: string): string {
    url + "/v1.0/users?$select=displayName,onPremisesSamAccountName,mail"
  }

  /** What one truthy page adds and where it points next: `response.get('value', [])`
      as `extend` iterates it, and `response.get('@odata.nextLink')`. A page that is not
      a dict, or whose `value` cannot be iterated, raises. */
  function PageStep(resp: Json): Option<(seq<Json>, Json)> {
    match Get(resp, "value", Arr([]))
    case None => None
    case Some(v) =>
      match Elements(v)
      case None => None
      case Some(items) => Some((items, Get(resp, "@odata.nextLink", Null).value))
  }

  /** Only a dict page can be read; a missing `value` adds nothing and a missing
      `@odata.nextLink` ends the listing; a listed `value` contributes its elements. */
  lemma PageStepSpec(resp: Json)
    ensures PageStep(resp).Some? ==> resp.Obj?
    ensures resp.Obj? && Lookup(resp.fields, "value").None? ==>
      PageStep(resp).Some? && PageStep(resp).value.0 == []
    ensures resp.Obj? && Lookup(resp.fields, "@odata.nextLink").None? && PageStep(resp).Some? ==>
      PageStep(resp).value.1 == Null
    ensures resp.Obj? && Lookup(resp.fields, "value").Some? && Lookup(resp.fields, "value").value.Arr? ==>
      PageStep(resp).Some? && PageStep(resp).value.0 == Lookup(resp.fields, "value").value.items
  {
  }

  /** The reply to the next GET, or None once the script is exhausted. */
  function NextPage(pages: seq<Outcome<Json>>): Outcome<Json> {
    if pages == [] then Returned(Null) else pages[0]
  }

  function RestPages(pages: seq<Outcome<Json>>): seq<Outcome<Json>> {
    if pages == [] then [] else pages[1..]
  }

  /** `xs` in front of a list result; an exception stays an exception. */
  function Prepend(xs: seq<Json>, o: Outcome<seq<Json>>): Outcome<seq<Json>> {
    match o
    case Raised => Raised
    case Returned(ys) => Returned(xs + ys)
  }

  /** The users `get_all_users` collects from the pages still to come, given that the
      URL it is about to request is truthy. */
  function Paging(pages: seq<Outcome<Json>>): Outcome<seq<Json>>
    decreases |pages|
  {
    match NextPage(pages)
    case Raised => Raised
    case Returned(resp) =>
      if !Truthy(resp) then Returned([])
      else match PageStep(resp)
        case None => Raised
        case Some((items, next)) =>
          if !Truthy(next) || pages == [] then Returned(items)
          else Prepend(items, Paging(pages[1..]))
  }

  /** The URLs requested from `url` on: it, then each truthy next link, until a page
      is falsy, raises or has no next link. */
  function Requested(url: Json, pages: seq<Outcome<Json>>): seq<Json>
    decreases |pages|
  {
    [url] +
      (match NextPage(pages)
       case Raised => []
       case Returned(resp) =>
         if !Truthy(resp) || PageStep(resp).None? || !Truthy(PageStep(resp).value.1) || pages == [] then []
         else Requested(PageStep(resp).value.1, pages[1..]))
  }

  /** Microsoft Graph as the API client's `get` sees it: scripted replies in order and
      a log of the URLs requested. */
  class GraphApi {
    var pages: seq<Outcome<Json>>
    ghost var requested: seq<Json>

    constructor (pages: seq<Outcome<Json>>)
      ensures this.pages == pages && requested == []
    {
      this.pages := pages;
      requested := [];
    }

    /** `api_client.get(url)` */
    method Get(url: Json) returns (r: Outcome<Json>)
      modifies this
      ensures r == NextPage(old(pages)) && pages == RestPages(old(pages))
      ensures requested == old(requested) + [url]
    {
      if pages == [] {
        r := Returned(Null);
      } else {
        r := pages[0];
        pages := pages[1..];
      }
      requested := requested + [url];
    }
  }

  /** `AzureClient`: the cached API client and the Graph API it reads. */
  class AzureClient {
    const api: AzureAPIClient
    const graph: GraphApi

    constructor (api: AzureAPIClient, graph: GraphApi)
      ensures this.api == api && this.graph == graph
    {
      this.api := api;
      this.graph := graph;
    }

    /** `get_all_users`: extend with each page's `value`, follow `@odata.nextLink`
        while it is truthy, stop at a falsy page. */
    method GetAllUsers() returns (r: Outcome<seq<Json>>)
      modifies graph
      ensures r == Paging(old(graph.pages))
      ensures graph.requested == old(graph.requested) + Requested(Str(UsersUrl(api.url)), old(graph.pages))
    {
      var users: seq<Json> := [];
      var url := Str(UsersUrl(api.url));
      ghost var pages0 := graph.pages;
      ghost var requested0 := graph.requested;
      ghost var asked: seq<Json> := [];
      ghost var start := url;
      ProgressStart(pages0, url);
      while Truthy(url)
        invariant Progress(pages0, start, users, url, graph.pages, asked)
        invariant graph.requested == requested0 + asked
        decreases |graph.pages|
      {
        ghost var before := graph.pages;
        var response := graph.Get(url);
        if response.Raised? || !Truthy(response.value) || PageStep(response.value).None? {
          PagingStop(pages0, start, users, url, before, asked);
          asked := asked + [url];
          if response.Returned? && !Truthy(response.value) {
            return Returned(users);
          }
          return Raised;
        }
        PagingNext(pages0, start, users, url, before, asked);
        asked := asked + [url];
        var step := PageStep(response.value);
        users := users + step.value.0;
        url := step.value.1;
      }
      return Returned(users);
    }
  }

  /** The invariant of the loop of `get_all_users`: the users collected so far, then
      what the rest of the script yields from `url`, make the whole listing, and the
      URLs asked for so far, then those still to be asked, make the whole request log. */
  ghost predicate Progress(pages0: seq<Outcome<Json>>, start: Json, users: seq<Json>, url: Json,
                           pages: seq<Outcome<Json>>, asked: seq<Json>) {
    if Truthy(url) then
      Paging(pages0) == Prepend(users, Paging(pages)) && Requested(start, pages0) == asked + Requested(url, pages)
    else
      Paging(pages0) == Returned(users) && Requested(start, pages0) == asked
  }

  lemma ProgressStart(pages: seq<Outcome<Json>>, start: Json)
    requires Truthy(start)
    ensures Progress(pages, start, [], start, pages, [])
  {
    match Paging(pages) {
      case Raised =>
      case Returned(ys) => assert [] + ys == ys;
    }
    assert [] + Requested(start, pages) == Requested(start, pages);
  }

  /** A turn of the loop that ends the listing: a request that raises or a page that
      cannot be read ends it with an exception, a falsy page with the users so far. */
  lemma PagingStop(pages0: seq<Outcome<Json>>, start: Json, users: seq<Json>, url: Json,
                   pages: seq<Outcome<Json>>, asked: seq<Json>)
    requires Truthy(url) && Progress(pages0, start, users, url, pages, asked)
    requires NextPage(pages).Returned? ==>
      Truthy(NextPage(pages).value) ==> PageStep(NextPage(pages).value).None?
    ensures Requested(start, pages0) == asked + [url]
    ensures Paging(pages0) ==
      (if NextPage(pages).Returned? && !Truthy(NextPage(pages).value) then Returned(users) else Raised)
  {
    assert Requested(url, pages) == [url];
    if NextPage(pages).Returned? && !Truthy(NextPage(pages).value) {
      FalsyPage(url, pages);
      assert users + [] == users;
    }
  }

  /** A turn of the loop that reads a page: its items join the users and the loop goes
      on from its next link. */
  lemma PagingNext(pages0: seq<Outcome<Json>>, start: Json, users: seq<Json>, url: Json,
                   pages: seq<Outcome<Json>>, asked: seq<Json>)
    requires Truthy(url) && Progress(pages0, start, users, url, pages, asked)
    requires NextPage(pages).Returned? && Truthy(NextPage(pages).value)
    requires PageStep(NextPage(pages).value).Some?
    ensures pages != []
    ensures var step := PageStep(NextPage(pages).value).value;
      Progress(pages0, start, users + step.0, step.1, RestPages(pages), asked + [url])
  {
    ReadPage(url, pages);
    var step := PageStep(pages[0].value).value;
    var tail := pages[1..];
    assert RestPages(pages) == tail;
    if Truthy(step.1) {
      assert Paging(pages) == Prepend(step.0, Paging(tail));
      PrependTwice(users, step.0, Paging(tail));
      assert Requested(url, pages) == [url] + Requested(step.1, tail);
      assert asked + ([url] + Requested(step.1, tail)) == asked + [url] + Requested(step.1, tail);
    } else {
      assert Paging(pages) == Returned(step.0);
      assert Requested(url, pages) == [url];
    }
  }

  /** A falsy reply (or an exhausted script) ends the listing after this request. */
  lemma FalsyPage(url: Json, pages: seq<Outcome<Json>>)
    requires NextPage(pages).Returned? && !Truthy(NextPage(pages).value)
    ensures Paging(pages) == Returned([]) && Requested(url, pages) == [url]
  {
  }

  /** A readable page adds its items and, when its next link is truthy, the listing
      goes on from the rest of the script. */
  lemma ReadPage(url: Json, pages: seq<Outcome<Json>>)
    requires NextPage(pages).Returned? && Truthy(NextPage(pages).value)
    requires PageStep(NextPage(pages).value).Some?
    ensures pages != []
    ensures var step := PageStep(pages[0].value).value;
      && Paging(pages) == (if !Truthy(step.1) then Returned(step.0) else Prepend(step.0, Paging(pages[1..])))
      && Requested(url, pages) == [url] + (if !Truthy(step.1) then [] else Requested(step.1, pages[1..]))
  {
  }

  lemma PrependTwice(xs: seq<Json>, ys: seq<Json>, o: Outcome<seq<Json>>)
    ensures Prepend(xs, Prepend(ys, o)) == Prepend(xs + ys, o)
  {
    if o.Returned? {
      assert xs + (ys + o.value) == (xs + ys) + o.value;
    }
  }

  /** Every element of the list of pages, first page first. */
  function Flatten(vs: seq<seq<Json>>): seq<Json>
    decreases |vs|
  {
    if vs == [] then [] else vs[0] + Flatten(vs[1..])
  }

  /** A truthy dict page contributing `items`, whose next link is truthy unless it is the
      last page. */
  predicate Page(p: Outcome<Json>, items: seq<Json>, last: bool) {
    Linked(p, last) && PageStep(p.value).value.0 == items
  }

  /** A truthy page that can be read, with a truthy next link unless it is the last. */
  predicate Linked(p: Outcome<Json>, last: bool) {
    p.Returned? && Truthy(p.value) && PageStep(p.value).Some? &&
    (Truthy(PageStep(p.value).value.1) <==> !last)
  }

  /** Over well-formed pages the listing is the in-order concatenation of the pages'
      `value` lists, up to the page without a next link; later replies are not read. */
  lemma {:induction false} PagingFlattens(pages: seq<Outcome<Json>>, vs: seq<seq<Json>>, url: Json)
    requires 0 < |vs| <= |pages|
    requires forall i :: 0 <= i < |vs| ==> Page(pages[i], vs[i], i == |vs| - 1)
    ensures Paging(pages) == Returned(Flatten(vs))
    ensures Requested(url, pages) == Requested(url, pages[..|vs|])
    decreases |vs|
  {
    assert Page(pages[0], vs[0], 0 == |vs| - 1);
    if |vs| == 1 {
      assert vs[1..] == [];
      assert Flatten(vs) == vs[0] + [] == vs[0];
      assert Paging(pages) == Returned(vs[0]);
      assert pages[..1][0] == pages[0];
      assert Requested(url, pages) == [url];
    } else {
      forall i | 0 <= i < |vs|
        ensures Linked(pages[i], i == |vs| - 1)
      {
        assert Page(pages[i], vs[i], i == |vs| - 1);
      }
      forall i | 0 <= i < |vs[1..]|
        ensures Page(pages[1..][i], vs[1..][i], i == |vs[1..]| - 1)
      {
        assert Page(pages[i + 1], vs[i + 1], i + 1 == |vs| - 1);
      }
      PagingFlattens(pages[1..], vs[1..], url);
      RequestedPrefix(url, pages, |vs|);
    }
  }

  /** The URLs requested depend only on the pages read. */
  lemma {:induction false} RequestedPrefix(url: Json, pages: seq<Outcome<Json>>, n: nat)
    requires 0 < n <= |pages|
    requires forall i :: 0 <= i < n ==> Linked(pages[i], i == n - 1)
    ensures Requested(url, pages) == Requested(url, pages[..n])
    decreases n
  {
    assert Linked(pages[0], 0 == n - 1);
    assert pages[..n][0] == pages[0];
    if n > 1 {
      forall i | 0 <= i < n - 1
        ensures Linked(pages[1..][i], i == n - 2)
      {
        assert Linked(pages[i + 1], i + 1 == n - 1);
      }
      RequestedPrefix(PageStep(pages[0].value).value.1, pages[1..], n - 1);
      assert pages[..n][1..] == pages[1..][..n - 1];
    }
  }

  /** A falsy first reply ends the listing empty after one request; a page without
      `value` adds nothing and the listing goes on from its next link. */
  lemma PagingEdges(pages: seq<Outcome<Json>>, url: Json)
    requires pages != [] && pages[0].Returned?
    ensures !Truthy(pages[0].value) ==> Paging(pages) == Returned([]) && Requested(url, pages) == [url]
    ensures var p := pages[0].value;
      p.Obj? && Lookup(p.fields, "value").None? ==> PageStep(p).Some?
    ensures var p := pages[0].value;
      p.Obj? && p != Obj([]) && Lookup(p.fields, "value").None? &&
      Truthy(PageStep(p).value.1) ==>
        Paging(pages) == Paging(pages[1..]) &&
        Requested(url, pages) == [url] + Requested(PageStep(p).value.1, pages[1..])
  {
    var p := pages[0].value;
    PageStepSpec(p);
    if p.Obj? && p != Obj([]) && Lookup(p.fields, "value").None? && Truthy(PageStep(p).value.1) {
      match Paging(pages[1..])
      case Raised =>
      case Returned(ys) => assert [] + ys == ys;
    }
  }
}
