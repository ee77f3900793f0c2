/** The three Azure routes: each asks `get_all_users` for the whole listing and keeps,
    in listing order, one field of the users that pass a filter. A user is a parsed
    Graph object; the filters call `get`, `startswith` and `in` on it, and anything that
    raises turns the whole route into a 500. */
module AzureEndpoints {
  import opened Text
  import opened PyJson
  import AzureClient

  const SamAccountName := "onPremisesSamAccountName"
  const DisplayName := "displayName"
  const Mail := "mail"

  /** `remove_values` of `get_all_names`. */
  const RemoveValues: seq<string> :=
    ["Vikar", "Distrikt Bakkegården", "Afløser", "Langå", "Mobil", "Vorup Plejecenter"]

  /** What a route answers: 200 with one list under its key, or 500 with the error text,
      which is not modelled. */
  datatype Response = Ok(key: string, values: seq<Json>) | ServerError

  function Status(r: Response): int {
    if r.Ok? then 200 else 500
  }

  // ---------------------------------------------------------------------------
  // List comprehensions

  /** `[user[field] for user in users if keep(user)]`, where `keep` returns None when
      the condition raises. Nothing in a condition has an effect, so whether the list
      is built does not depend on the order the users are visited in; the list is built
      here from the last user backwards. */
  function Comprehend(users: seq<Json>, keep: Json -> Option<bool>, field: string): Option<seq<Json>>
    decreases |users|
  {
    if users == [] then Some([])
    else
      var u := users[|users| - 1];
      match Comprehend(users[..|users| - 1], keep, field)
      case None => None
      case Some(out) =>
        match keep(u)
        case None => None
        case Some(false) => Some(out)
        case Some(true) =>
          match Sub(u, field)
          case None => None
          case Some(v) => Some(out + [v])
  }

  /** The positions of the users the filter keeps, in order. */
  function Kept(users: seq<Json>, keep: Json -> Option<bool>): (ks: seq<int>)
    ensures forall j :: 0 <= j < |ks| ==> 0 <= ks[j] < |users| && keep(users[ks[j]]) == Some(true)
    decreases |users|
  {
    if users == [] then []
    else
      var n := |users| - 1;
      Kept(users[..n], keep) + (if keep(users[n]) == Some(true) then [n] else [])
  }

  /** The kept positions are strictly increasing, and every kept user is listed. */
  lemma {:induction false} KeptSpec(users: seq<Json>, keep: Json -> Option<bool>)
    ensures |Kept(users, keep)| <= |users|
    ensures forall j, k :: 0 <= j < k < |Kept(users, keep)| ==> Kept(users, keep)[j] < Kept(users, keep)[k]
    ensures forall i :: 0 <= i < |users| && keep(users[i]) == Some(true) ==> i in Kept(users, keep)
    decreases |users|
  {
    if users != [] {
      var n := |users| - 1;
      KeptSpec(users[..n], keep);
      assert forall i :: 0 <= i < n ==> users[..n][i] == users[i];
    }
  }

  /** The condition neither raises nor, when it holds, leaves the field missing. */
  predicate Defined(keep: Json -> Option<bool>, field: string, u: Json) {
    keep(u).Some? && (keep(u) == Some(true) ==> Sub(u, field).Some?)
  }

  /** The comprehension raises exactly when one user's condition or field access does. */
  lemma {:induction false} ComprehendDefined(users: seq<Json>, keep: Json -> Option<bool>, field: string)
    ensures Comprehend(users, keep, field).Some? <==> forall i :: 0 <= i < |users| ==> Defined(keep, field, users[i])
    decreases |users|
  {
    if users != [] {
      var n := |users| - 1;
      ComprehendDefined(users[..n], keep, field);
      assert forall i :: 0 <= i < n ==> users[..n][i] == users[i];
    }
  }

  /** The list holds the field of each kept user, one entry per kept user, in order. */
  lemma {:induction false} ComprehendPicks(users: seq<Json>, keep: Json -> Option<bool>, field: string)
    requires Comprehend(users, keep, field).Some?
    ensures var out := Comprehend(users, keep, field).value; var ks := Kept(users, keep);
      && |out| == |ks|
      && forall j :: 0 <= j < |out| ==> Sub(users[ks[j]], field) == Some(out[j])
    decreases |users|
  {
    if users != [] {
      var n := |users| - 1;
      ComprehendPicks(users[..n], keep, field);
      var ks := Kept(users[..n], keep);
      assert forall j :: 0 <= j < |ks| ==> users[..n][ks[j]] == users[ks[j]];
    }
  }

  /** Comprehending two listings one after the other is comprehending their
      concatenation. */
  lemma {:induction false} ComprehendAppend(a: seq<Json>, b: seq<Json>, keep: Json -> Option<bool>, field: string)
    ensures Comprehend(a + b, keep, field) ==
      (if Comprehend(a, keep, field).Some? && Comprehend(b, keep, field).Some?
       then Some(Comprehend(a, keep, field).value + Comprehend(b, keep, field).value)
       else None)
    decreases |b|
  {
    if b == [] {
      assert a + b == a;
      if Comprehend(a, keep, field).Some? {
        assert Comprehend(a, keep, field).value + [] == Comprehend(a, keep, field).value;
      }
    } else {
      var n := |b| - 1;
      assert (a + b)[..|a + b| - 1] == a + b[..n];
      assert (a + b)[|a + b| - 1] == b[n];
      ComprehendAppend(a, b[..n], keep, field);
      var ca := Comprehend(a, keep, field);
      var cb := Comprehend(b[..n], keep, field);
      if ca.Some? && cb.Some? && keep(b[n]) == Some(true) && Sub(b[n], field).Some? {
        assert ca.value + cb.value + [Sub(b[n], field).value] == ca.value + (cb.value + [Sub(b[n], field).value]);
      }
    }
  }

  // ---------------------------------------------------------------------------
  // The filters

  /** `user.get('onPremisesSamAccountName') and
      user['onPremisesSamAccountName'].startswith(('DQ', 'AP'))`: `get` raises on a
      user that is not a dict, `startswith` on a truthy value that is not a string. */
  function PrefixOk(u: Json): (r: Option<bool>)
    ensures r == Some(true) <==>
      u.Obj? && Sub(u, SamAccountName).Some? && Sub(u, SamAccountName).value.Str? &&
      (StartsWith(Sub(u, SamAccountName).value.s, "DQ") || StartsWith(Sub(u, SamAccountName).value.s, "AP"))
    ensures r.None? <==>
      !u.Obj? || (Sub(u, SamAccountName).Some? && Truthy(Sub(u, SamAccountName).value) &&
                  !Sub(u, SamAccountName).value.Str?)
  {
    match Get(u, SamAccountName, Null)
    case None => None
    case Some(v) =>
      if !Truthy(v) then Some(false)
      else if v.Str? then Some(StartsWith(v.s, "DQ") || StartsWith(v.s, "AP"))
      else None
  }

  /** `any(value in name for value in values)`: `in` raises on a name that is neither a
      string, a list nor a dict; `any` stops at the first hit. */
  function AnyIn(values: seq<string>, name: Json): (r: Option<bool>)
    ensures r.None? <==> |values| > 0 && In(values[0], name).None?
    ensures r == Some(true) <==> exists i :: 0 <= i < |values| && In(values[i], name) == Some(true)
    decreases |values|
  {
    if values == [] then Some(false)
    else match In(values[0], name)
      case None => None
      case Some(true) => Some(true)
      case Some(false) =>
        var rest := AnyIn(values[1..], name);
        assert forall i :: 1 <= i < |values| ==> values[1..][i - 1] == values[i];
        rest
  }

  /** The condition of `get_all_names`. */
  function NameOk(u: Json): Option<bool> {
    match PrefixOk(u)
    case None => None
    case Some(false) => Some(false)
    case Some(true) =>
      var name := Sub(u, DisplayName);
      if name.None? || !Truthy(name.value) then Some(false)
      else match AnyIn(RemoveValues, name.value)
        case None => None
        case Some(b) => Some(!b)
  }

  /** The condition of `get_all_emails`. */
  function MailOk(u: Json): Option<bool> {
    match PrefixOk(u)
    case None => None
    case Some(false) => Some(false)
    case Some(true) => Some(Sub(u, Mail).Some? && Truthy(Sub(u, Mail).value))
  }

  // ---------------------------------------------------------------------------
  // The routes

  /** The common shape of the three routes: a listing that raised, or a comprehension
      that raised, is a 500. */
  function Route(users: Outcome<seq<Json>>, key: string, keep: Json -> Option<bool>, field: string): Response {
    match users
    case Raised => ServerError
    case Returned(us) =>
      match Comprehend(us, keep, field)
      case None => ServerError
      case Some(out) => Ok(key, out)
  }

  /** `get_all_dq_numbers` */
  function DqNumbers(users: Outcome<seq<Json>>): Response {
    Route(users, "dq_numbers", PrefixOk, SamAccountName)
  }

  /** `get_all_names` */
  function FullNames(users: Outcome<seq<Json>>): Response {
    Route(users, "fullnames", NameOk, DisplayName)
  }

  /** `get_all_emails` */
  function Emails(users: Outcome<seq<Json>>): Response {
    Route(users, "emails", MailOk, Mail)
  }

  /** The account name a DQ user lists, when it has one. */
  predicate DqAccount(u: Json) {
    u.Obj? && Sub(u, SamAccountName).Some? && Sub(u, SamAccountName).value.Str? &&
    (StartsWith(Sub(u, SamAccountName).value.s, "DQ") || StartsWith(Sub(u, SamAccountName).value.s, "AP"))
  }

  /** The DQ route answers 200 exactly when the listing succeeded and no user's test
      raised; it then lists, in order and once per user, the account name of every user
      whose account name is a string starting with DQ or AP, and nothing else. */
  lemma DqNumbersSpec(users: Outcome<seq<Json>>)
    ensures DqNumbers(users).Ok? <==>
      users.Returned? && forall i :: 0 <= i < |users.value| ==> PrefixOk(users.value[i]).Some?
    ensures DqNumbers(users).Ok? ==>
      var out := DqNumbers(users).values; var ks := Kept(users.value, PrefixOk);
      && DqNumbers(users).key == "dq_numbers"
      && |out| == |ks| <= |users.value|
      && (forall j :: 0 <= j < |out| ==>
            DqAccount(users.value[ks[j]]) && out[j] == Sub(users.value[ks[j]], SamAccountName).value)
      && (forall i :: 0 <= i < |users.value| && DqAccount(users.value[i]) ==> i in ks)
  {
    if users.Returned? {
      var us := users.value;
      ComprehendDefined(us, PrefixOk, SamAccountName);
      assert (forall i :: 0 <= i < |us| ==> Defined(PrefixOk, SamAccountName, us[i])) <==>
             (forall i :: 0 <= i < |us| ==> PrefixOk(us[i]).Some?);
      KeptSpec(us, PrefixOk);
      if Comprehend(us, PrefixOk, SamAccountName).Some? {
        ComprehendPicks(us, PrefixOk, SamAccountName);
      }
    }
  }

  /** A display name that no removed string occurs in. */
  predicate Clean(name: Json) {
    name.Str? ==> forall v :: v in RemoveValues ==> !Contains(name.s, v)
  }

  /** The name test holds only for a DQ user with a truthy, clean display name, and it
      holds for every DQ user whose display name is a non-empty string that is clean. */
  lemma NameOkMeans(u: Json)
    ensures NameOk(u) == Some(true) ==>
      DqAccount(u) && Sub(u, DisplayName).Some? && Truthy(Sub(u, DisplayName).value) &&
      Clean(Sub(u, DisplayName).value)
    ensures (DqAccount(u) && Sub(u, DisplayName).Some? && Sub(u, DisplayName).value.Str? &&
             Sub(u, DisplayName).value.s != "" && Clean(Sub(u, DisplayName).value))
      ==> NameOk(u) == Some(true)
  {
    var name := Sub(u, DisplayName);
    if PrefixOk(u) == Some(true) && name.Some? && Truthy(name.value) {
      if name.value.Str? && Clean(name.value) {
        assert forall k :: 0 <= k < |RemoveValues| ==> In(RemoveValues[k], name.value) == Some(false);
      }
      if NameOk(u) == Some(true) && name.value.Str? {
        forall v | v in RemoveValues
          ensures !Contains(name.value.s, v)
        {
          var k :| 0 <= k < |RemoveValues| && RemoveValues[k] == v;
          assert In(RemoveValues[k], name.value) != Some(true);
        }
      }
    }
  }

  /** A name is listed only for a DQ user, and it is a non-empty value that contains
      none of the removed strings; every DQ user whose display name is such a string is
      listed. */
  lemma FullNamesSpec(users: Outcome<seq<Json>>)
    ensures FullNames(users).Ok? <==>
      users.Returned? && forall i :: 0 <= i < |users.value| ==> NameOk(users.value[i]).Some?
    ensures FullNames(users).Ok? ==>
      var out := FullNames(users).values; var ks := Kept(users.value, NameOk);
      && FullNames(users).key == "fullnames"
      && |out| == |ks| <= |users.value|
      && (forall j :: 0 <= j < |out| ==>
            && DqAccount(users.value[ks[j]])
            && out[j] == Sub(users.value[ks[j]], DisplayName).value
            && Truthy(out[j])
            && Clean(out[j]))
      && (forall i :: 0 <= i < |users.value| ==>
            (DqAccount(users.value[i]) && Sub(users.value[i], DisplayName).Some? &&
             Sub(users.value[i], DisplayName).value.Str? && Sub(users.value[i], DisplayName).value.s != "" &&
             Clean(Sub(users.value[i], DisplayName).value))
            ==> i in ks)
  {
    if users.Returned? {
      var us := users.value;
      ComprehendDefined(us, NameOk, DisplayName);
      assert (forall i :: 0 <= i < |us| ==> Defined(NameOk, DisplayName, us[i])) <==>
             (forall i :: 0 <= i < |us| ==> NameOk(us[i]).Some?);
      KeptSpec(us, NameOk);
      forall i | 0 <= i < |us| {
        NameOkMeans(us[i]);
      }
      if Comprehend(us, NameOk, DisplayName).Some? {
        ComprehendPicks(us, NameOk, DisplayName);
      }
    }
  }

  /** An address is listed only for a DQ user, and it is non-empty; every DQ user with
      a non-empty `mail` is listed. */
  lemma EmailsSpec(users: Outcome<seq<Json>>)
    ensures Emails(users).Ok? <==>
      users.Returned? && forall i :: 0 <= i < |users.value| ==> PrefixOk(users.value[i]).Some?
    ensures Emails(users).Ok? ==>
      var out := Emails(users).values; var ks := Kept(users.value, MailOk);
      && Emails(users).key == "emails"
      && |out| == |ks| <= |users.value|
      && (forall j :: 0 <= j < |out| ==>
            DqAccount(users.value[ks[j]]) && out[j] == Sub(users.value[ks[j]], Mail).value && Truthy(out[j]))
      && (forall i :: 0 <= i < |users.value| ==>
            (DqAccount(users.value[i]) && Sub(users.value[i], Mail).Some? && Truthy(Sub(users.value[i], Mail).value))
            ==> i in ks)
  {
    if users.Returned? {
      var us := users.value;
      ComprehendDefined(us, MailOk, Mail);
      assert (forall i :: 0 <= i < |us| ==> Defined(MailOk, Mail, us[i])) <==>
             (forall i :: 0 <= i < |us| ==> PrefixOk(us[i]).Some?);
      KeptSpec(us, MailOk);
      if Comprehend(us, MailOk, Mail).Some? {
        ComprehendPicks(us, MailOk, Mail);
      }
    }
  }

  /** The names and the addresses are each drawn from the DQ users: no user is kept by
      either route that the DQ route does not keep. */
  lemma NamesAndMailsWithinDq(users: seq<Json>)
    ensures forall i :: i in Kept(users, NameOk) ==> i in Kept(users, PrefixOk)
    ensures forall i :: i in Kept(users, MailOk) ==> i in Kept(users, PrefixOk)
  {
    KeptSpec(users, PrefixOk);
  }

  // ---------------------------------------------------------------------------
  // A route over a paged listing

  /** The comprehension of each page's users, one list per page; a page whose
      comprehension raises contributes nothing here. */
  function PageOuts(vs: seq<seq<Json>>, keep: Json -> Option<bool>, field: string): (r: seq<seq<Json>>)
    ensures |r| == |vs|
    decreases |vs|
  {
    if vs == [] then []
    else
      var c := Comprehend(vs[0], keep, field);
      [if c.Some? then c.value else []] + PageOuts(vs[1..], keep, field)
  }

  /** Comprehending the users of all pages is comprehending page by page: it raises
      exactly when some page's does, and otherwise lists the pages' results in page
      order. */
  lemma {:induction false} ComprehendPages(vs: seq<seq<Json>>, keep: Json -> Option<bool>, field: string)
    ensures Comprehend(AzureClient.Flatten(vs), keep, field).Some? <==>
      forall i :: 0 <= i < |vs| ==> Comprehend(vs[i], keep, field).Some?
    ensures Comprehend(AzureClient.Flatten(vs), keep, field).Some? ==>
      Comprehend(AzureClient.Flatten(vs), keep, field).value == AzureClient.Flatten(PageOuts(vs, keep, field))
    decreases |vs|
  {
    if vs != [] {
      var rest := AzureClient.Flatten(vs[1..]);
      assert AzureClient.Flatten(vs) == vs[0] + rest;
      ComprehendAppend(vs[0], rest, keep, field);
      ComprehendPages(vs[1..], keep, field);
      assert forall i :: 0 < i < |vs| ==> vs[1..][i - 1] == vs[i];
      assert PageOuts(vs, keep, field)[1..] == PageOuts(vs[1..], keep, field);
    }
  }

  /** A route over the listing `get_all_users` collects from well-formed pages answers
      200 exactly when no page's comprehension raises, with the pages' results in page
      order. */
  lemma RouteOverPages(pages: seq<Outcome<Json>>, vs: seq<seq<Json>>, key: string,
                       keep: Json -> Option<bool>, field: string)
    requires 0 < |vs| <= |pages|
    requires forall i :: 0 <= i < |vs| ==> AzureClient.Page(pages[i], vs[i], i == |vs| - 1)
    ensures Route(AzureClient.Paging(pages), key, keep, field) ==
      if forall i :: 0 <= i < |vs| ==> Comprehend(vs[i], keep, field).Some?
      then Ok(key, AzureClient.Flatten(PageOuts(vs, keep, field)))
      else ServerError
  {
    AzureClient.PagingFlattens(pages, vs, Null);
    ComprehendPages(vs, keep, field);
  }
}
