# Nexus integration backend: a Dafny model of its clients and filters

Nexus is a Flask service for a Danish municipality. It connects five outside systems and exposes small JSON routes over them:

- **KP**: pension records, reached with a session cookie from a headless-browser login.
- **SBSYS**: case management, reached with an OpenID password grant.
- **Azure**: Microsoft Graph, reached with a client-credentials grant.
- **SD**: payroll, an XML API reached with a fixed Basic header.
- **Delta**: the organisation's admin-unit tree, reached with a PKCS#12 certificate.

This project models the logic the service runs around those calls:

- the KP session state machine and its resilient request executor;
- the bearer-token caches and the per-credential client registries;
- Azure paging, the SBSYS personnel-case lookup and the SD response lookups;
- the Delta admin-unit walk, team enrichment and list cache;
- two routes: the SBSYS keyword file selection and the three Azure user lists.

The model then proves what the code promises about each of them.

## How the model is built

Each outside system is scripted.
- A scripted system is a sequence of replies consumed in order.
- Classes hold the scripts and log what was asked of them in ghost fields.
- KP: the server's replies and Browserless's login replies.
- Delta: the PKCS#12 POST replies.
- Azure: Graph pages.
- SBSYS and Azure: the token endpoint's grants.
- An exhausted script reads as a call that failed.

Code that updates fields becomes a `class`:
- `KPAPIClient`, `SbsysAPIClient`, `AzureAPIClient` and `DeltaClient`;
- the registries that stand for each class-level `_client_cache` dict.

Each method is proved equal to a specification function over a plain record of the same fields. Lemmas about those functions carry the properties.

The loops of the source are `while` loops with invariants:
- the cookie scan;
- Azure paging;
- the Delta enrichment;
- the nested loops of `fil_by_keyword`.

Pure code stays functions: the Azure list comprehensions and the SD lookups.

Python values are one `Json` datatype (`PyJson`):
- `Null` is None.
- A dict is an ordered list of pairs whose last binding wins.
- Truthiness follows Python.
- Every operation that can raise (`d[k]`, `x[0]`, `len`, `in`, iteration, `.get`) returns `Option`, with None meaning the exception.
- `Outcome` is a value returned, or an exception raised past the code modelled.

Files:

| file | module | what it holds |
|---|---|---|
| text.dfy | Text | `startswith`, `in`, `lower`, `rstrip` and `replace` |
| pyjson.dfy | PyJson | Python values and the operations that can raise |
| kp_client.dfy | KpClient | `src/kp/kp_client.py` |
| bearer_token.dfy | BearerToken | the token cache shared by the SBSYS and Azure clients |
| sbsys_client.dfy | SbsysClient | `src/sbsys/sbsys_client.py` |
| azure_client.dfy | AzureClient | `src/azure/azure_client.py` |
| sd_client.dfy | SdClient | `src/sd/sd_client.py` |
| delta.dfy | Delta | `src/delta.py` |
| sbsys_endpoints.dfy | SbsysEndpoints | `fil_by_keyword` of `src/endpoints/sbsys_endpoints.py` |
| azure_endpoints.dfy | AzureEndpoints | `src/endpoints/azure_endpoints.py` |

## Behaviour worth knowing

The model follows the code as written, including these consequences of it.

- **Reauthentication count.** A server that answers 401 (or an HTML page) every time makes `reauthenticate` run twice:
  - once by the first level;
  - once by the retry, which finds the `auth_attempted` gate closed and returns False.

  Only the first call runs the login. `PersistentUnauthorized` and `PersistentHtml` prove exactly two `reauthenticate` calls and one login.
- **The gate is not reset by a recovery.** `auth_attempted` is set when a reauthentication runs a login (`src/kp/kp_client.py:164-168`) and again before the retry (`src/kp/kp_client.py:179-181`). Nothing clears it after a successful recovery. Only a failed reauthentication on the HTML branch reopens it (`src/kp/kp_client.py:216-218`). Until then, every later 401 gives None with no new login. `ClosedGateGivesNone` proves this; `PersistentUnauthorized` ends with the gate closed.
- **A missing cookie is still sent.** When no session cookie can be obtained, the request still goes out, with the header `JSESSIONID=None` (`src/kp/kp_client.py:174-177`). `AuthenticateCases` states that the header carries whatever `authenticate` returned, even None.
- **The Delta cache is refreshed only after two days.** `timedelta.days` is a floor, and the test is `.days > 1`. So the list is refetched only when at least 48 hours have passed (`src/delta.py:132-134`). `StaleAfterTwoDays` proves this.
- **A fresh Delta client never fills its cache.** `get_adm_unit_list` refreshes only when a timestamp already exists, and `__init__` sets none. `FreshClientNeverPopulates` proves this.

## Model

| member | source | states |
|---|---|---|
| KpClient.FirstSessionCookieFound | src/kp/kp_client.py:126-132 | the cookie scan yields `v` exactly when some cookie is the first one named JSESSIONID, every cookie before it has a name, and it carries value `v` |
| KpClient.FirstSessionCookieAbsent | src/kp/kp_client.py:126-132 | the scan finds no session cookie exactly when every cookie is named and none is named JSESSIONID |
| KpClient.FindSessionCookie | src/kp/kp_client.py:128-132 | the `for cookie in data['cookies']` loop returns what the scan specifies: the first JSESSIONID value, Absent, or Malformed when a name or the value is missing |
| KpClient.RequestSessionTokenSpec | src/kp/kp_client.py:33-141 | the fetching flag is cleared on every path; exactly one Browserless call; the gate is untouched; the result is the new cookie, or None with the cookie unchanged |
| KpClient.RequestSessionTokenCases | src/kp/kp_client.py:113-136 | a failed POST, a non-JSON body or a missing `cookies` gives None and keeps the cookie; no JSESSIONID sets the cookie to None; a found value becomes the cookie and is returned; one Browserless reply is consumed |
| KpClient.AuthenticateCases | src/kp/kp_client.py:143-177 | a truthy cookie is returned with nothing changed; with no cookie, exactly one login runs; the Cookie header always carries what `authenticate` returned, even None |
| KpClient.ClosedGateGivesNone | src/kp/kp_client.py:230-236 | once the gate is closed, a 401 or an AccessDeniedException 500 gives None at once: the reauthentication runs no login and nothing is retried |
| KpClient.ReauthenticateSpec | src/kp/kp_client.py:155-172 | every call is counted; with no fetch in progress the gate ends closed; a truthy result means the gate was open and the result is the new cookie; a closed gate returns False and changes nothing else; at most one login |
| KpClient.ResolveUrlAbsolute | src/kp/kp_client.py:190-193 | against an http(s) base every resolved URL is absolute, and resolving a resolved URL again leaves it unchanged |
| KpClient.RedirectsSession | src/kp/kp_client.py:202-207 | the 302 loop changes nothing in the session: cookie, flags, Browserless script and counters |
| KpClient.RedirectsScript | src/kp/kp_client.py:202-207 | the 302 loop consumes server replies from the front only |
| KpClient.RedirectsReply | src/kp/kp_client.py:202-207 | an answered reply the 302 loop ends with is the first reply or one the server sent |
| KpClient.RedirectsIssued | src/kp/kp_client.py:202-207 | the 302 loop re-issues at most 5 requests, each to the same URL with the same headers |
| KpClient.OnHttpError | src/kp/kp_client.py:230-240 | the HTTPError handler leaves no fetch in progress, and asks for a retry only after closing a gate that was open |
| KpClient.OtherHttpErrorGivesNone | src/kp/kp_client.py:238-240 | any HTTP error other than 401 or a 500 naming AccessDeniedException gives None at once, with no reauthentication |
| KpClient.AfterRedirects | src/kp/kp_client.py:209-228 | after the 302 loop: no fetch in progress, and a retry only after closing a gate that was open |
| KpClient.Attempt | src/kp/kp_client.py:186-244 | one level of `_make_request` leaves no fetch in progress, and retries only after closing a gate that was open |
| KpClient.Proceed | src/kp/kp_client.py:198-240 | after an answered first request: no fetch in progress, and a retry only after closing a gate that was open |
| KpClient.OnHttpErrorBounds | src/kp/kp_client.py:230-240 | the handler reauthenticates at most once and logs in at most once, only through an open gate; it sends nothing; a retry has a cookie set; reopening the gate returns None |
| KpClient.AfterRedirectsBounds | src/kp/kp_client.py:209-219 | the same bounds for the HTML/non-200 branch; this branch is the only one that clears `auth_attempted`, and only when it returns None |
| KpClient.GetAuthHeadersFrame | src/kp/kp_client.py:174-177 | building headers touches neither the server nor the gate, and logs in only when no cookie is set |
| KpClient.ProceedBounds | src/kp/kp_client.py:198-240 | after the first reply: at most one reauthentication and one login, at most 5 more requests, all repeating the first, and a retry has a cookie |
| KpClient.AttemptBounds | src/kp/kp_client.py:186-244 | one level sends at most 6 requests, all to the resolved URL; at most one reauthentication; logins only for a missing cookie and through an open gate |
| KpClient.MakeRequestBounds | src/kp/kp_client.py:184-244 | one top-level call makes at most 2 `reauthenticate` calls and 2 logins (none with a cookie and a closed gate), and at most 12 requests, all to the resolved URL; a call that reopens the gate returns None |
| KpClient.AfterRedirectsResult | src/kp/kp_client.py:209-228 | a result after the 302 loop is the decoded body of the reply the loop ended with, and that reply was accepted (no HTTP error, status 200, not HTML); it is therefore one of the replies seen so far |
| KpClient.ProceedResult | src/kp/kp_client.py:198-228 | server replies are consumed from the front; a result is the decoded body of the first reply or of a later one |
| KpClient.AttemptResult | src/kp/kp_client.py:186-228 | one level consumes a prefix of the server script; a result is the decoded body (JSON, else the bytes, else `' '`) of an accepted reply the server sent |
| KpClient.MakeRequestResult | src/kp/kp_client.py:184-244 | the same over the whole call, retry included: a result is always the decoded body of a reply that was neither an HTTP error, a non-200 nor HTML |
| KpClient.RedirectsThenSuccess | src/kp/kp_client.py:198-223 | replies 302, 302, good: the third body is returned after exactly 3 requests, with no reauthentication and no login |
| KpClient.PersistentUnauthorized | src/kp/kp_client.py:230-237 | 401 on every attempt: None after exactly two `reauthenticate` calls, one login and two requests; the gate stays closed |
| KpClient.PersistentHtml | src/kp/kp_client.py:209-219 | an HTML page on every attempt: None after exactly two `reauthenticate` calls, one login and two requests; the gate is reopened |
| KpClient.KpTransport.Send | src/kp/kp_client.py:199 | one request consumes the next server reply (failed once the script is exhausted) and logs the URL and headers |
| KpClient.KpTransport.PostLogin | src/kp/kp_client.py:113-117 | one Browserless POST consumes the next login reply and counts one login |
| KpClient.KPAPIClient.constructor | src/kp/kp_client.py:16-22 | a new client has no cookie, no fetch in progress and an open gate |
| KpClient.KPAPIClient.RequestSessionToken | src/kp/kp_client.py:33-141 | fields and result are as `RequestSessionTokenSpec` gives from the old fields and scripts |
| KpClient.KPAPIClient.Authenticate | src/kp/kp_client.py:143-153 | fields and result are as `AuthenticateSpec` gives |
| KpClient.KPAPIClient.Reauthenticate | src/kp/kp_client.py:155-172 | fields and result are as `ReauthenticateSpec` gives |
| KpClient.KPAPIClient.GetAuthHeaders | src/kp/kp_client.py:174-177 | fields and headers are as `GetAuthHeadersSpec` gives |
| KpClient.KPAPIClient.RetryRequest | src/kp/kp_client.py:179-182 | closes the gate, then is `_make_request` |
| KpClient.KPAPIClient.MakeRequest | src/kp/kp_client.py:184-244 | the new fields, logs and result are as `MakeRequestSpec` gives |
| KpClient.KpRegistry.GetClient | src/kp/kp_client.py:24-31 | a repeated (username, password) returns the identical cached client; a new key builds a fresh client, stores it and returns it |
| BearerToken.EnsureHttps | src/sbsys/sbsys_client.py:48-49 | the URL starts with `https://`; it is unchanged exactly when it already did, else `https://` is prepended |
| BearerToken.EnsureHttpsIdempotent | src/azure/azure_client.py:46-47 | prepending the scheme is idempotent |
| BearerToken.RequestAccessTokenSpec | src/sbsys/sbsys_client.py:35-58 | a refused request returns None with both fields unchanged; a grant stores the token and `now + expires_in` and returns the token; a grant that raises leaves the expiry as it was, and changes nothing when `access_token` is missing |
| BearerToken.GetAccessTokenSpec | src/sbsys/sbsys_client.py:60-64 | a truthy token with a truthy expiry the clock has not reached is returned as it is |
| BearerToken.AuthHeadersOfToken | src/sbsys/sbsys_client.py:66-70 | the header is `Bearer` with exactly the obtained token, and is None exactly when that token is falsy |
| BearerToken.RefreshThenReuse | src/azure/azure_client.py:48-62 | after a grant at t0 for n seconds, every call before t0 + n returns that token without a request, whatever the endpoint would answer |
| BearerToken.ExpiredRefreshes | src/azure/azure_client.py:58-62 | at or after the expiry, or with no truthy token or expiry, the token is requested again |
| BearerToken.FreshClientRequests | src/sbsys/sbsys_client.py:60-70 | a fresh client always asks the endpoint; a refused first request gives no header |
| BearerToken.TokenEndpoint.Post | src/sbsys/sbsys_client.py:50 | one token POST consumes the next grant (refused once the script is exhausted) and logs the URL and form |
| BearerToken.TakeGrant | src/sbsys/sbsys_client.py:51-58 | the fields and result after the POST are as `RequestAccessTokenSpec` gives |
| SbsysClient.SbsysAPIClient.constructor | src/sbsys/sbsys_client.py:15-24 | credentials are stored; no token and no expiry |
| SbsysClient.SbsysAPIClient.RequestAccessToken | src/sbsys/sbsys_client.py:35-58 | one POST of the five-field password grant to the https token URL; the fields are as `RequestAccessTokenSpec` gives |
| SbsysClient.SbsysAPIClient.GetAccessToken | src/sbsys/sbsys_client.py:60-64 | a reusable token is returned with no POST; otherwise exactly one POST |
| SbsysClient.SbsysAPIClient.GetAuthHeaders | src/sbsys/sbsys_client.py:66-70 | fields and header are as `GetAuthHeadersSpec` gives |
| SbsysClient.SbsysRegistry.GetClient | src/sbsys/sbsys_client.py:26-33 | memoised on (client id, secret, username, password): a repeated key returns the first client whatever URL is given |
| SbsysClient.NormalizeCprSpec | src/sbsys/sbsys_client.py:83-84 | a CPR with `-` is kept; one without gets exactly one `-` at `min(6, len)`, and dropping it gives the input back; the rewrite is idempotent |
| SbsysClient.PersonalesagSearchesHyphenated | src/sbsys/sbsys_client.py:86-95 | the search always carries the hyphenated CPR as primary person, and case type PersonaleSag |
| SbsysClient.PersonalesagResult | src/sbsys/sbsys_client.py:97-109 | `Results` is returned exactly when the response and `Results` are both truthy; an exception, a falsy response or empty `Results` gives None |
| AzureClient.AzureTokenUrlShape | src/azure/azure_client.py:35-47 | the token URL starts with `https://` and ends with `/<tenant>/oauth2/v2.0/token` |
| AzureClient.AzureAPIClient.constructor | src/azure/azure_client.py:13-23 | credentials and URLs are stored; no token and no expiry |
| AzureClient.AzureAPIClient.RequestAccessToken | src/azure/azure_client.py:34-56 | one POST of the client-credentials form for Graph to the tenant's https token URL; the fields are as `RequestAccessTokenSpec` gives |
| AzureClient.AzureAPIClient.GetAccessToken | src/azure/azure_client.py:58-62 | a reusable token is returned with no POST; otherwise exactly one POST |
| AzureClient.AzureAPIClient.GetAuthHeaders | src/azure/azure_client.py:64-68 | fields and header are as `GetAuthHeadersSpec` gives |
| AzureClient.AzureRegistry.GetClient | src/azure/azure_client.py:25-32 | memoised on (client id, secret, tenant id); `url` and `token_url` play no part in the lookup |
| AzureClient.PageStepSpec | src/azure/azure_client.py:81-82 | only a dict page can be read; a missing `value` adds nothing; a missing next link ends the listing; a list `value` contributes its items |
| AzureClient.GraphApi.Get | src/azure/azure_client.py:79 | one GET consumes the next scripted reply and logs the URL |
| AzureClient.AzureClient.GetAllUsers | src/azure/azure_client.py:75-85 | the result is `Paging` of the pages, and the URLs requested are the first users URL followed by each next link followed |
| AzureClient.FalsyPage | src/azure/azure_client.py:80-84 | a falsy reply ends the listing with nothing more, after that one request |
| AzureClient.ReadPage | src/azure/azure_client.py:80-82 | a readable page's items come first, followed by what its next link yields |
| AzureClient.PagingFlattens | src/azure/azure_client.py:76-85 | over well-formed pages the result is the in-order concatenation of their `value` lists, ending at the page with no next link; later replies are never read |
| AzureClient.RequestedPrefix | src/azure/azure_client.py:78-82 | the URLs requested depend only on the pages actually read |
| AzureClient.PagingEdges | src/azure/azure_client.py:78-84 | a falsy first reply gives the empty list after one request; a page without `value` adds nothing and paging goes on from its next link |
| SdClient.SDAPIClient.constructor | src/sd/sd_client.py:21-24 | the credentials and URL are stored |
| SdClient.SdRegistry.GetClient | src/sd/sd_client.py:26-33 | memoised on (username, password); a repeated key returns the first client whatever URL is given |
| SdClient.SdAuthHeaders | src/sd/sd_client.py:38-42 | exactly two headers: `authorization: Basic <configured>` and `content-type: application/xml` |
| SdClient.SdMakeRequest | src/sd/sd_client.py:44-64 | a falsy response is None without parsing; a truthy one is parsed; it raises exactly when the inherited call raises something other than a RequestException |
| SdClient.FalsyResponseNotParsed | src/sd/sd_client.py:49-51 | for a falsy response the parser is never consulted: any two parsers give None |
| SdClient.EffectiveDate | src/sd/sd_client.py:102-104 | a falsy effective date becomes `01.01.5000`; a truthy one is kept |
| SdClient.EffectiveDateDefault | src/sd/sd_client.py:102-164 | both queries carry `EffectiveDate` as defaulted |
| SdClient.PersonOfSpec | src/sd/sd_client.py:119-135 | `get_person` returns `response["GetPerson"]["Person"]` exactly when every level is present and truthy, else None |
| SdClient.EmploymentOfSpec | src/sd/sd_client.py:166-187 | `get_employment` returns `...["Person"]["Employment"]` exactly when every level is present and truthy, else None |
| SdClient.EmploymentChangedOfSpec | src/sd/sd_client.py:214-230 | None exactly when the response is falsy, or its top object is missing, falsy or not a dict; `[]` when the top object has no truthy `Person`; else `Person` |
| SdClient.FailedGetIsNone | src/sd/sd_client.py:137-190 | a GET that raises gives None from both lookups, never an exception |
| Delta.SetParamsSpec | src/delta.py:55-67 | None unless the payload is a string and the params a dict; empty params return the payload unchanged; a result is None or a string |
| Delta.SetParamsOneKey | src/delta.py:57-60 | with one key, `_set_params` is one `str.replace` of that key's placeholder |
| Delta.SetUuid | src/delta.py:88 | substituting a string uuid replaces every `<uuid>` |
| Delta.SetUuidStr | src/delta.py:88-91 | a truthy substituted payload came from a string template and a string uuid |
| Delta.StripWrapped | src/delta.py:59 | a bracket-free key written `<k>` strips back to `k` |
| Delta.BracketedKeyAlias | src/delta.py:59-60 | a key written `<k>` substitutes exactly like `k` |
| Delta.UuidSubstitution | src/delta.py:60 | a template holding `<uuid>` once becomes the text around it with the uuid in between |
| Delta.PostPath | src/delta.py:73 | `/query` exactly when the payload contains `queries`; `/graph-query` exactly when it has `graphQueries` but not `queries`; some path exactly when one of the three words occurs |
| Delta.MakePostRequestSpec | src/delta.py:69-84 | no request and None without a usable certificate or a known path; otherwise one POST to `base_url.rstrip('/') + path`; a response returned is the next scripted one |
| Delta.PostUrlShape | src/delta.py:77 | every request URL is the slash-stripped base followed by `/query`, `/graph-query` or `/history` |
| Delta.PostUnit | src/delta.py:88-93 | a unit that gets a reply consumed one and had a string template and uuid |
| Delta.PostUnitSends | src/delta.py:88-93 | one unit sends at most one request |
| Delta.PreOrderAllAppend | src/delta.py:86-101 | the pre-order listing of a forest extended by a tree is the listing followed by the tree's |
| Delta.Visit | src/delta.py:86-104 | the walk's subtree is rooted at the visited uuid, consumes replies, and is a leaf when it raises |
| Delta.VisitChildren | src/delta.py:100-101 | the children loop consumes replies |
| Delta.ChildrenInResponseOrder | src/delta.py:97-101 | the i-th subtree is rooted at the i-th listed child's uuid; there are no more subtrees than listed children |
| Delta.ChildrenLoopExact | src/delta.py:94-104 | subtree i is the walk of child i, started where the earlier children left the replies; every walk but the last returned normally; the loop stops before the end only at a child without `uuid` or right after a child whose walk raised (both caught by the node's `try`) |
| Delta.AllChildrenVisited | src/delta.py:99-101 | when every child has a `uuid` and no child's walk raises, every listed child gets a subtree |
| Delta.WalkExample | src/delta.py:86-104 | a root with children A and B, where A has the child C, is listed root, A, C, B: depth first, children in the order the response lists them |
| Delta.OneRequestPerUnit | src/delta.py:86-101 | the walk sends no more requests than it lists units |
| Delta.LeafOnUnreadableChildren | src/delta.py:94-104 | a node whose response is not ok, or whose children cannot be read, contributes only itself, consumes one reply and does not raise |
| Delta.IdentityUuidsSpec | src/delta.py:122-123 | the team list holds each child's `identity.uuid`, position by position; it is None exactly when some child lacks one |
| Delta.TeamsOfShape | src/delta.py:117-124 | no instance, or no `childrenObjects`, gives an empty team list; otherwise the identity uuids of `childrenObjects` in order |
| Delta.EnrichKeepsOrder | src/delta.py:106-128 | the enriched list names a subsequence of the input units, in input order, with at most one entry per unit |
| Delta.EnrichFromExact | src/delta.py:106-128 | from any point of the loop: it returns its list exactly when it gets past every unit, and then the list is the entries so far followed by one `{unit: teams}` per later unit whose reply was ok; it raises exactly when the last unit reached raised (`None.ok`, a non-string payload), and returns None exactly when that unit gave a falsy payload or unreadable teams |
| Delta.EnrichExact | src/delta.py:106-128 | a returned list is exactly one `{unit: teams}` per unit whose reply was ok, with the teams read from that reply, in the order of the units; a unit whose ok reply has unreadable teams makes the call return None |
| Delta.StaleAfterTwoDays | src/delta.py:132-134 | the refresh condition (`.days > 1`) holds exactly for an empty list, an existing timestamp, and at least two whole days of seconds |
| Delta.GetAdmUnitListSpec | src/delta.py:131-148 | a call that is not stale returns the cached list with no request; fields change only on a stale call, and then to the new list and the finish time, which is also returned |
| Delta.CachedListKept | src/delta.py:131-148 | a non-empty cached list is returned unchanged however old, with no request |
| Delta.FailedRefreshKeepsFields | src/delta.py:145-147 | a refresh that raises returns None and leaves both fields as they were |
| Delta.FreshClientNeverPopulates | src/delta.py:131-148 | from the state `__init__` leaves, every call in any sequence returns None, sends nothing and changes nothing |
| Delta.DeltaServer.Post | src/delta.py:78 | one POST consumes the next scripted reply and logs URL and body |
| Delta.DeltaClient.constructor | src/delta.py:13-20 | no list and no timestamp |
| Delta.DeltaClient.SetParams | src/delta.py:55-67 | the substitution loop returns what `SetParamsSpec` gives |
| Delta.DeltaClient.MakePostRequest | src/delta.py:69-84 | the response, replies left and requests sent are as `MakePostRequestSpec` gives |
| Delta.DeltaClient.RecursiveGetAdmUnits | src/delta.py:86-104 | the accumulator gains the walk's pre-order listing, root first; replies and requests are as `Visit` gives |
| Delta.DeltaClient.CheckHasEmployeesAndAddTeams | src/delta.py:106-128 | the result, replies left and requests sent are as `Enrich` gives |
| Delta.DeltaClient.GetAdmUnitList | src/delta.py:131-148 | fields, result and traffic are as `GetAdmUnitListSpec` gives |
| SbsysEndpoints.Admitted | src/endpoints/sbsys_endpoints.py:89-90 | with no allowed types every file is admitted; otherwise an admitted file has a string `Filendelse` whose lower case is in the list |
| SbsysEndpoints.AppendDocFiles | src/endpoints/sbsys_endpoints.py:84-98 | the `for fil in document['Filer']` loop appends exactly the entries `DocFiles` specifies, or raises as it does |
| SbsysEndpoints.AppendDocsFiles | src/endpoints/sbsys_endpoints.py:100-115 | the fallback loop over all documents appends exactly what `DocsFiles` specifies |
| SbsysEndpoints.AppendKeywordPass | src/endpoints/sbsys_endpoints.py:79-98 | the keyword loop builds exactly what `KeywordPass` specifies |
| SbsysEndpoints.Select | src/endpoints/sbsys_endpoints.py:79-115 | the keyword pass, then the fallback when it found nothing, gives `Selection` |
| SbsysEndpoints.FilByKeyword | src/endpoints/sbsys_endpoints.py:61-119 | the route answers what `FilByKeywordSpec` specifies |
| SbsysEndpoints.Validation | src/endpoints/sbsys_endpoints.py:64-77 | 400 with the combined message exactly for a falsy body or a present but falsy `keywords` or `sagID`; 400 "keywords has to be a list" exactly for a non-list `keywords`; the filetypes 400 only for a truthy non-list; 404 only for a falsy documents reply, naming the sagID |
| SbsysEndpoints.FileEntryFrom | src/endpoints/sbsys_endpoints.py:85-98 | an entry is made only for a file with non-empty content and an admitted extension; it carries `Filnavn`, the document's `Navn`, `MimeType` and the encoded content |
| SbsysEndpoints.DocFilesFrom | src/endpoints/sbsys_endpoints.py:84-98 | every entry of a document's files comes from one of those files |
| SbsysEndpoints.FileEntryIff | src/endpoints/sbsys_endpoints.py:84-98 | a file yields entry e exactly when its content is non-empty, its extension is admitted and e carries its `Filnavn`, `MimeType`, encoded content and the document's `Navn`; it is skipped exactly when its content is empty or its extension not admitted |
| SbsysEndpoints.DocFilesExact | src/endpoints/sbsys_endpoints.py:84-98 | the loop over one document's files raises exactly when one file raises; otherwise it is the entries of the files that yield one, in the order of `Filer` |
| SbsysEndpoints.DocFileListed | src/endpoints/sbsys_endpoints.py:84-98 | every file of the document that qualifies is in its entries |
| SbsysEndpoints.FilesOfExact | src/endpoints/sbsys_endpoints.py:83-98 | one document raises exactly when `Filer` is missing, not iterable, or one of its files raises; otherwise its entries are its qualifying files in order |
| SbsysEndpoints.FilesOfFrom | src/endpoints/sbsys_endpoints.py:84 | every entry collected from a document's `Filer` comes from a file it lists |
| SbsysEndpoints.DocsFilesFrom | src/endpoints/sbsys_endpoints.py:100-115 | every fallback entry comes from a file of one of the documents |
| SbsysEndpoints.DocsFilesExact | src/endpoints/sbsys_endpoints.py:100-115 | the fallback loop raises exactly when one document does; otherwise it is each document's entries, in document order |
| SbsysEndpoints.DocsFileListed | src/endpoints/sbsys_endpoints.py:100-115 | every qualifying file of every document is in the fallback list |
| SbsysEndpoints.FilteredSpec | src/endpoints/sbsys_endpoints.py:82 | the documents a keyword selects are exactly those with a `Navn` whose lower case contains it |
| SbsysEndpoints.FilteredDefined | src/endpoints/sbsys_endpoints.py:82 | a filter that succeeded found every document's name test defined |
| SbsysEndpoints.KeywordPassAppend | src/endpoints/sbsys_endpoints.py:80-98 | the pass over a keyword list is the pass over its first part followed by the pass over the rest |
| SbsysEndpoints.RepeatedKeyword | src/endpoints/sbsys_endpoints.py:80-98 | a keyword given twice emits its files twice |
| SbsysEndpoints.KeywordCaseInsensitive | src/endpoints/sbsys_endpoints.py:81-82 | a keyword and its lower-case form select the same files |
| SbsysEndpoints.NoMatchFallsBack | src/endpoints/sbsys_endpoints.py:99-115 | when no keyword selects a document, the answer is every file of every document under the same filters |
| SbsysEndpoints.KeywordHitWins | src/endpoints/sbsys_endpoints.py:99 | a keyword pass that selected something is the answer, and the fallback is not run |
| SbsysEndpoints.KeywordFilesFrom | src/endpoints/sbsys_endpoints.py:80-98 | every entry a keyword yields comes from a file of a document whose name contains the lowered keyword |
| SbsysEndpoints.FilteredInOrder | src/endpoints/sbsys_endpoints.py:82 | `filtered_documents` is exactly the documents whose name contains the keyword, in response order |
| SbsysEndpoints.KeywordFilesExact | src/endpoints/sbsys_endpoints.py:80-98 | one keyword's files are the entries of exactly the documents it selects, in response order |
| SbsysEndpoints.KeywordPassExact | src/endpoints/sbsys_endpoints.py:79-98 | the keyword pass raises exactly when one keyword does; otherwise it is each keyword's files, in keyword order |
| SbsysEndpoints.KeywordFileListed | src/endpoints/sbsys_endpoints.py:79-98 | every qualifying file of a document a keyword selects is in the keyword pass |
| SbsysEndpoints.KeywordPassFrom | src/endpoints/sbsys_endpoints.py:80-98 | every entry of the keyword pass comes from a file of one of the documents |
| SbsysEndpoints.AnswerEntries | src/endpoints/sbsys_endpoints.py:79-117 | every file the selection returns comes from a file of one of the case's documents, with non-empty content and an admitted extension, and carries that file's and document's fields |
| SbsysEndpoints.AnswerExact | src/endpoints/sbsys_endpoints.py:79-117 | the answer is the keyword files in keyword order when there are any, else every document's entries in document order; it contains every qualifying file of every document a keyword selects, and on the fallback every qualifying file of every document |
| AzureEndpoints.KeptSpec | src/endpoints/azure_endpoints.py:14-47 | the kept positions are strictly increasing, at most one per user, and include every user the filter keeps |
| AzureEndpoints.ComprehendDefined | src/endpoints/azure_endpoints.py:14-47 | a comprehension raises exactly when some user's condition, or a kept user's field access, raises |
| AzureEndpoints.ComprehendPicks | src/endpoints/azure_endpoints.py:14-47 | the output holds the field of each kept user, one entry per kept user, in order |
| AzureEndpoints.ComprehendAppend | src/endpoints/azure_endpoints.py:14-47 | comprehending two listings one after the other is comprehending their concatenation |
| AzureEndpoints.ComprehendPages | src/endpoints/azure_endpoints.py:15-16 | over the users of several pages, the comprehension raises exactly when some page's does, and otherwise is the pages' results in page order |
| AzureEndpoints.RouteOverPages | src/endpoints/azure_endpoints.py:14-20 | a route over the listing `get_all_users` collects from well-formed pages answers 200 exactly when no page's comprehension raises, with the pages' results in page order, and 500 otherwise |
| AzureEndpoints.PrefixOk | src/endpoints/azure_endpoints.py:16 | the prefix test holds exactly for a dict user whose account name is a string starting with `DQ` or `AP`; it raises exactly for a non-dict, or a truthy account name that is not a string |
| AzureEndpoints.AnyIn | src/endpoints/azure_endpoints.py:31 | `any(...)` raises exactly when its first `in` does; it holds exactly when some removed value occurs in the name |
| AzureEndpoints.DqNumbersSpec | src/endpoints/azure_endpoints.py:14-20 | 200 exactly when the listing succeeded and no user's test raised; the output is the in-order list of the account names of exactly the DQ/AP users |
| AzureEndpoints.NameOkMeans | src/endpoints/azure_endpoints.py:30-31 | the name test holds only for a DQ/AP user with a truthy name containing none of the six values, and holds for every such user whose name is a non-empty string |
| AzureEndpoints.FullNamesSpec | src/endpoints/azure_endpoints.py:25-36 | 200 exactly when nothing raised; the output lists, in order, the names of DQ/AP users that are truthy and clean; every DQ/AP user with a non-empty clean string name is listed |
| AzureEndpoints.EmailsSpec | src/endpoints/azure_endpoints.py:41-47 | 200 exactly when nothing raised; the output lists, in order, the truthy `mail` of exactly the DQ/AP users that have one |
| AzureEndpoints.NamesAndMailsWithinDq | src/endpoints/azure_endpoints.py:14-47 | every user the names or emails route keeps is kept by the DQ route |
| Text.Lower | src/endpoints/sbsys_endpoints.py:81 | `lower()` keeps the length and lowers each character |
| Text.RStripSpec | src/delta.py:77 | `rstrip('/')` leaves a prefix of the input that does not end in `/`, having removed only `/` characters |
| Text.ReplaceFirst | src/delta.py:60 | `replace` on a template whose first occurrence closes the text before it puts the value there and continues after it |
| Text.ReplaceSingle | src/delta.py:60 | a template holding the pattern once becomes the text around it with the value in between |
| PyJson.LookupSpec | src/delta.py:97 | a dict key is present exactly when some pair carries it |
| PyJson.KeysSpec | src/delta.py:58 | a dict iterates exactly its keys, each of them bound, and none for an empty dict |
| PyJson.Elements | src/endpoints/sbsys_endpoints.py:84 | iteration visits a list's elements; only lists, dicts and strings can be iterated |

## Left out

- Transport is replaced by scripted replies. This covers `requests`, `requests_pkcs12`, the Browserless service and its JavaScript login script (`src/kp/kp_client.py:42-112`). Timeouts, TLS and the PKCS#12 exchange are not modelled.
- KpClient.KPAPIClient.MakeRequest: requires no login in progress on entry. With the flag stuck, `reauthenticate`'s wait branch bypasses the gate, so the recursion is unbounded; only concurrency can leave the flag set.
- KpClient.AuthenticateSpec: the 180-second busy-waits on `is_fetching_token` are not modelled (`src/kp/kp_client.py:145-148, 157-162`). In a sequential run the flag cannot change while waiting, so only the cookie decides.
- KpClient.ReauthenticateSpec: when a fetch is in progress, the current cookie is returned at once.
- Clocks are integers. The token caches take seconds as a parameter. Delta's `timedelta.days` is floor division of seconds by 86400. Float time is not modelled.
- Several library calls are left to the caller:
  - `xmltodict.parse` (the SD parser) is a function parameter;
  - JSON decoding is the `json` field of a reply;
  - `base64.b64encode(...).decode('utf-8')` is an `encode` parameter.
- Text.Lower: `str.lower()` is ASCII lowering only. Non-ASCII letters are not case-folded.
- The certificate decoding and file write are inputs to the model, not modelled I/O. So are `os.listdir` of the payload folder, `_get_payload` and `os.path.isfile` (`src/delta.py:21-53`). The certificate's usability is an input, and the two payload templates are configuration values.
- Delta.DeltaClient.RecursiveGetAdmUnits: the shared `adm_unit_list` is passed in and returned instead of appended through a reference. The resulting list is the same.
- The `refresh_token` and `refresh_token_expiry` fields are never read or written after `__init__`, so they are not modelled.
- The base classes `BaseAPIClient` and `APIClientWithAuthHeaders` are not part of this model. Their `get`/`post` are parameters:
  - `SdClient.SdMakeRequest` takes the inherited `_make_request`'s outcome;
  - `GetPersonalesag` takes the POST;
  - the SD lookups take the GET.
- AzureClient.AzureClient.GetAllUsers: the API client's `get` is a scripted sequence of replies, and an exhausted script reads as None. Errors the unseen base client would turn into None are scripted as such.
- SbsysEndpoints.FilByKeyword: `fetch_documents` is the parameter `documents`. `fetch_file` is the parameter `fetch`, and a None content is the empty content, since both are skipped alike.
- SbsysEndpoints.Reply: the 500 and 404 bodies carry `str(e)` and `str(sagID)`. Error text is not modelled: a 500 is `ServerError`, and a 404 carries the sagID value itself.
- AzureEndpoints.Route: a 500 carries `str(e)` in the source. The model answers `ServerError` without the text.
- AzureEndpoints.Comprehend: it builds the list from the last user backwards. The filters have no effects, so the outcome and the order of the list are the same as Python's front-to-back evaluation.
- `change_sag_status`, `sag_search` and `sag_get` (`src/endpoints/sbsys_endpoints.py:18-54`) are route plumbing and are not modelled. `sag_get` calls a method the client does not have.
- `src/main.py`, `src/endpoints/nexus_endpoints.py`, `src/endpoints/sd_endpoints.py` and `src/utils/config.py` are not part of this model. They are route registration, thin field extraction over a client whose source is absent, and environment loading.
- SdClient: the SD tests that expect `False` where the code returns None are not followed; the model follows the code.
- The other `SbsysClient` and `KPClient` helpers are not modelled. They are one-line path builders over the unseen base client.
- All `logger` calls are left out. They have no effect on state or results.
- Concurrency is not modelled: the class-level caches and flags are treated as single-threaded.
