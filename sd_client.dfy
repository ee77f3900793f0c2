/** The SD payroll client: a registry of API clients keyed by credentials, the constant
    Basic-auth headers, the guard in front of the XML parser, and the three lookups that
    dig a person or an employment out of a parsed response. */
module SdClient {
  import opened Text
  import opened PyJson

  /** `SDAPIClient`: credentials and URL, fixed at construction. */
  class SDAPIClient {
    const username: string
    const password: string
    const url: string

    constructor (username: string, password: string, url: string)
      ensures this.username == username && this.password == password && this.url == url
    {
      this.username := username;
      this.password := password;
      this.url := url;
    }
  }

  /** `SDAPIClient._client_cache` and `get_client`, keyed on (username, password); the
      URL is not part of the key. */
  class SdRegistry {
    var cache: map<(string, string), SDAPIClient>

    ghost predicate Valid()
      reads this
    {
      forall k :: k in cache ==> cache[k].username == k.0 && cache[k].password == k.1
    }

    constructor ()
      ensures Valid() && cache == map[]
    {
      cache := map[];
    }

    /** `get_client`: a repeated key returns the cached client whatever `url` is given;
        a new key builds, caches and returns a client for that URL. */
    method GetClient(username: string, password: string, url: string) returns (c: SDAPIClient)
      requires Valid()
      modifies this
      ensures Valid()
      ensures c.username == username && c.password == password
      ensures (username, password) in old(cache) ==> c == old(cache)[(username, password)] && cache == old(cache)
      ensures (username, password) !in old(cache) ==>
        fresh(c) && c.url == url && cache == old(cache)[(username, password) := c]
    {
      var key := (username, password);
      if key in cache {
        return cache[key];
      }
      c := new SDAPIClient(username, password, url);
      cache := cache[key := c];
    }
  }


  /** `get_auth_headers`: the same two headers on every call, built from the configured
      Basic credential. */
  function SdAuthHeaders(basicAuth: string): (h: Json)
    ensures h.Obj? && Keys(h.fields) == ["authorization", "content-type"]
    ensures Lookup(h.fields, "authorization") == Some(Str("Basic " + basicAuth))
    ensures Lookup(h.fields, "content-type") == Some(Str("application/xml"))
  {
    var f := [("authorization", Str("Basic " + basicAuth)), ("content-type", Str("application/xml"))];
    assert f[..1] == [f[0]] && f[..1][..0] == [];
    assert Keys(f[..1]) == ["authorization"];
    Obj(f)
  }

  /** What the inherited `_make_request` does: return a value, raise a
      `RequestException`, or raise anything else. */
  datatype RawReply = Got(raw: Json) | RequestFailed | OtherError

  /** `SDAPIClient._make_request`: a falsy response is None; anything else goes through
      `xml_to_json` (`parse`, which itself turns a parse failure into None); a
      `RequestException` is None and any other exception escapes. */
  function SdMakeRequest(reply: RawReply, parse: Json -> Json): (r: Outcome<Json>)
    ensures reply.Got? && !Truthy(reply.raw) ==> r == Returned(Null)
    ensures reply.Got? && Truthy(reply.raw) ==> r == Returned(parse(reply.raw))
    ensures r.Raised? <==> reply.OtherError?
  {
    match reply
    case RequestFailed => Returned(Null)
    case OtherError => Raised
    case Got(raw) => if !Truthy(raw) then Returned(Null) else Returned(parse(raw))
  }

  /** The parser is never consulted for a falsy response: any two parsers agree there. */
  lemma FalsyResponseNotParsed(raw: Json, p1: Json -> Json, p2: Json -> Json)
    requires !Truthy(raw)
    ensures SdMakeRequest(Got(raw), p1) == SdMakeRequest(Got(raw), p2) == Returned(Null)
  {
  }

  /** `SDClient.get_request` catches every exception and returns None. */
  function Caught(o: Outcome<Json>): Json {
    match o
    case Raised => Null
    case Returned(j) => j
  }

  /** `if not effective_date: effective_date = "01.01.5000"` */
  function EffectiveDate(d: Json): (r: Json)
    ensures Truthy(d) ==> r == d
    ensures !Truthy(d) ==> r == Str("01.01.5000")
  {
    if Truthy(d) then d else Str("01.01.5000")
  }

  /** The query of `get_person`, keys in source order. The dict literal names
      `StatusActiveIndicator` twice; the later binding wins and keeps the first slot. */
  function GetPersonParams(cpr: Json, employment: Json, inst: Json, effective: Json): Json {
    Obj([("EmploymentStatusIndicator", Str("true")), ("EmploymentIdentifier", employment),
         ("DepartmentIdentifier", Str("")), ("StatusActiveIndicator", Str("true")),
         ("StatusPassiveIndicator", Str("true")), ("InstitutionIdentifier", inst),
         ("PersonCivilRegistrationIdentifier", cpr), ("EffectiveDate", EffectiveDate(effective)),
         ("StatusActiveIndicator", Str("true")), ("submit", Str("OK"))])
  }

  /** The query of `get_employment`, keys in source order. */
  function GetEmploymentParams(cpr: Json, employment: Json, inst: Json, effective: Json): Json {
    Obj([("InstitutionIdentifier", inst), ("EmploymentStatusIndicator", Str("true")),
         ("PersonCivilRegistrationIdentifier", cpr), ("EmploymentIdentifier", employment),
         ("DepartmentIdentifier", Str("")), ("ProfessionIndicator", Str("false")),
         ("DepartmentIndicator", Str("true")), ("WorkingTimeIndicator", Str("false")),
         ("SalaryCodeGroupIndicator", Str("false")), ("SalaryAgreementIndicator", Str("false")),
         ("StatusActiveIndicator", Str("true")), ("StatusPassiveIndicator", Str("true")),
         ("submit", Str("OK")), ("EffectiveDate", EffectiveDate(effective))])
  }

  /** A request without an effective date asks as of 01.01.5000, one with a date asks as
      of that date, for both lookups. */
  lemma EffectiveDateDefault(cpr: Json, employment: Json, inst: Json, effective: Json)
    ensures Sub(GetPersonParams(cpr, employment, inst, effective), "EffectiveDate") ==
      Some(if Truthy(effective) then effective else Str("01.01.5000"))
    ensures Sub(GetEmploymentParams(cpr, employment, inst, effective), "EffectiveDate") ==
      Some(if Truthy(effective) then effective else Str("01.01.5000"))
  {
    var f := GetPersonParams(cpr, employment, inst, effective).fields;
    assert |f| == 10 && f[..9][..8] == f[..8];
    assert Lookup(f, "EffectiveDate") == Lookup(f[..9], "EffectiveDate") == Lookup(f[..8], "EffectiveDate");
    assert f[..8][7] == ("EffectiveDate", EffectiveDate(effective));
  }

  /** `response[key]`, then a falsy check, then `.get(inner, None)` and a falsy check:
      the value found, or None at the first falsy level or the first lookup that raises
      (the `except` turns it into None). */
  function Dig(response: Json, key: string, inner: string): Option<Json> {
    if !Truthy(response) then None
    else match Sub(response, key)
      case None => None
      case Some(top) =>
        if !Truthy(top) then None
        else match Get(top, inner, Null)
          case None => None
          case Some(v) => if Truthy(v) then Some(v) else None
  }

  /** `get_person` on the response `get_request` returned. */
  function PersonOf(response: Json): Json {
    match Dig(response, "GetPerson", "Person")
    case None => Null
    case Some(p) => p
  }

  /** `get_employment` on the response `get_request` returned. */
  function EmploymentOf(response: Json): Json {
    match Dig(response, "GetEmployment20070401", "Person")
    case None => Null
    case Some(p) =>
      match Get(p, "Employment", Null)
      case None => Null
      case Some(e) => if Truthy(e) then e else Null
  }

  /** `get_employment_changed` on the response `get_request` returned: an empty list when
      the top object is there but has no truthy `Person`. */
  function EmploymentChangedOf(response: Json): Json {
    if !Truthy(response) then Null
    else match Sub(response, "GetEmploymentChanged20070401")
      case None => Null
      case Some(top) =>
        if !Truthy(top) then Null
        else match Get(top, "Person", Null)
          case None => Null
          case Some(p) => if Truthy(p) then p else Arr([])
  }

  /** `get_person` returns `response["GetPerson"]["Person"]` exactly when every level is
      there and truthy, and None otherwise. */
  lemma PersonOfSpec(response: Json)
    ensures PersonOf(response) != Null <==>
      && Truthy(response) && Sub(response, "GetPerson").Some?
      && Truthy(Sub(response, "GetPerson").value)
      && Sub(Sub(response, "GetPerson").value, "Person").Some?
      && Truthy(Sub(Sub(response, "GetPerson").value, "Person").value)
    ensures PersonOf(response) != Null ==>
      PersonOf(response) == Sub(Sub(response, "GetPerson").value, "Person").value
  {
  }

  /** `get_employment` returns `...["Person"]["Employment"]` exactly when every level is
      there and truthy, and None otherwise. */
  lemma EmploymentOfSpec(response: Json)
    ensures EmploymentOf(response) != Null <==>
      && Truthy(response) && Sub(response, "GetEmployment20070401").Some?
      && var top := Sub(response, "GetEmployment20070401").value;
      && Truthy(top) && Sub(top, "Person").Some?
      && var person := Sub(top, "Person").value;
      && Truthy(person) && Sub(person, "Employment").Some? && Truthy(Sub(person, "Employment").value)
    ensures EmploymentOf(response) != Null ==>
      EmploymentOf(response) ==
        Sub(Sub(Sub(response, "GetEmployment20070401").value, "Person").value, "Employment").value
  {
  }

  /** `get_employment_changed` is None only when the response or its top object is
      missing or falsy; with the top object present it is the truthy `Person`, else `[]`. */
  lemma EmploymentChangedOfSpec(response: Json)
    ensures EmploymentChangedOf(response) == Null <==>
      !Truthy(response) || Sub(response, "GetEmploymentChanged20070401").None? ||
      !Truthy(Sub(response, "GetEmploymentChanged20070401").value) ||
      !Sub(response, "GetEmploymentChanged20070401").value.Obj?
    ensures var top := Sub(response, "GetEmploymentChanged20070401");
      Truthy(response) && top.Some? && Truthy(top.value) && top.value.Obj? ==>
        (Sub(top.value, "Person").Some? && Truthy(Sub(top.value, "Person").value) ==>
           EmploymentChangedOf(response) == Sub(top.value, "Person").value)
        && (Sub(top.value, "Person").None? || !Truthy(Sub(top.value, "Person").value) ==>
           EmploymentChangedOf(response) == Arr([]))
  {
  }

  /** `SDClient.get_person`, with the API client's GET as a parameter. */
  function GetPerson(cpr: Json, employment: Json, inst: Json, effective: Json,
                     get: (string, Json) -> Outcome<Json>): Json {
    PersonOf(Caught(get("GetPerson", GetPersonParams(cpr, employment, inst, effective))))
  }

  /** `SDClient.get_employment`, with the API client's GET as a parameter. */
  function GetEmployment(cpr: Json, employment: Json, inst: Json, effective: Json,
                         get: (string, Json) -> Outcome<Json>): Json {
    EmploymentOf(Caught(get("GetEmployment20070401", GetEmploymentParams(cpr, employment, inst, effective))))
  }

  /** A GET that raises yields None from both lookups, never an exception. */
  lemma FailedGetIsNone(cpr: Json, employment: Json, inst: Json, effective: Json,
                        get: (string, Json) -> Outcome<Json>)
    requires forall path, params :: get(path, params).Raised?
    ensures GetPerson(cpr, employment, inst, effective, get) == Null
    ensures GetEmployment(cpr, employment, inst, effective, get) == Null
  {
    assert get("GetPerson", GetPersonParams(cpr, employment, inst, effective)).Raised?;
    assert get("GetEmployment20070401", GetEmploymentParams(cpr, employment, inst, effective)).Raised?;
  }
}
