/** The Delta admin-unit resolver: template substitution, the choice of query endpoint,
    a pre-order walk of the admin-unit tree, the team enrichment of every unit, and the
    list cache with its refresh condition.

    The Delta server is a script of replies to the PKCS#12-authenticated POSTs,
    consumed in order; the certificate, the payload templates and the clock are
    inputs. */
module Delta {
  import opened Text
  import opened PyJson

  lemma AppendAssoc<T>(a: seq<T>, b: seq<T>, c: seq<T>)
    ensures a + (b + c) == a + b + c
  {
  }

  // ---------------------------------------------------------------------------
  // _set_params

  /** A key written `<k>` is used as `k`: both brackets present means every bracket
      is removed. */
  function StripBrackets(key: string): string {
    if key != "" && Contains(key, "<") && Contains(key, ">") then
      ReplaceAll(ReplaceAll(key, "<", ""), ">", "")
    else key
  }

  /** The placeholder a key stands for in a template. */
  function Placeholder(key: string): string {
    "<" + StripBrackets(key) + ">"
  }

  /** The substitution loop over the dict's keys, in order; a value that is not a string
      makes `str.replace` raise `TypeError`. */
  function Substitute(payload: string, keys: seq<string>, fields: seq<(string, Json)>): Outcome<string>
    requires forall k :: k in keys ==> Lookup(fields, k).Some?
    decreases |keys|
  {
    if keys == [] then Returned(payload)
    else
      var v := Lookup(fields, keys[0]).value;
      if !v.Str? then Raised
      else Substitute(ReplaceAll(payload, Placeholder(keys[0]), v.s), keys[1..], fields)
  }

  /** `_set_params`: None unless the payload is a string and the params a dict; else
      every placeholder replaced, or the `TypeError` of a non-string value. */
  function SetParamsSpec(payload: Json, params: Json): (r: Outcome<Json>)
    ensures !payload.Str? || !params.Obj? ==> r == Returned(Null)
    ensures payload.Str? && params == Obj([]) ==> r == Returned(payload)
    ensures r.Returned? ==> r.value == Null || r.value.Str?
  {
    if !payload.Str? || !params.Obj? then Returned(Null)
    else
      KeysSpec(params.fields);
      match Substitute(payload.s, Keys(params.fields), params.fields)
      case Raised => Raised
      case Returned(s) => Returned(Str(s))
  }

  /** The params the walk and the enrichment pass: `{'uuid': uuid}`. */
  function UuidParams(uuid: Json): Json {
    Obj([("uuid", uuid)])
  }

  /** With one key, `_set_params` is one `str.replace` of that key's placeholder. */
  lemma SetParamsOneKey(t: string, k: string, v: Json)
    ensures SetParamsSpec(Str(t), Obj([(k, v)])) ==
      (if v.Str? then Returned(Str(ReplaceAll(t, Placeholder(k), v.s))) else Raised)
  {
    var f := [(k, v)];
    assert f[..|f| - 1] == [];
    assert Keys(f) == [k];
    assert Lookup(f, k) == Some(v);
    assert [k][1..] == [];
    if v.Str? {
      var once := ReplaceAll(t, Placeholder(k), v.s);
      assert Substitute(once, [], f) == Returned(once);
      assert Substitute(t, [k], f) == Returned(once);
    } else {
      assert Substitute(t, [k], f) == Raised;
    }
  }

  /** A string none of whose characters is `c` does not contain `c`. */
  lemma {:induction false} WithoutChar(s: string, c: char)
    requires forall i :: 0 <= i < |s| ==> s[i] != c
    ensures !Contains(s, [c])
    decreases |s|
  {
    if |s| > 0 {
      assert s[..1] == [s[0]];
      WithoutChar(s[1..], c);
    }
  }

  /** `Placeholder("uuid")` is the literal `<uuid>`. */
  lemma UuidPlaceholder()
    ensures Placeholder("uuid") == "<uuid>"
  {
    assert "uuid" == ['u', 'u', 'i', 'd'];
    WithoutChar("uuid", '<');
    assert "<" == ['<'];
  }

  /** Substituting a string uuid is one `str.replace` of `<uuid>`. */
  lemma SetUuid(t: string, u: string)
    ensures SetParamsSpec(Str(t), UuidParams(Str(u))) == Returned(Str(ReplaceAll(t, "<uuid>", u)))
  {
    SetParamsOneKey(t, "uuid", Str(u));
    UuidPlaceholder();
  }

  /** A substituted uuid payload that is truthy came from a string uuid. */
  lemma SetUuidStr(payload: Json, uuid: Json)
    requires SetParamsSpec(payload, UuidParams(uuid)).Returned?
    requires Truthy(SetParamsSpec(payload, UuidParams(uuid)).value)
    ensures payload.Str? && uuid.Str?
    ensures SetParamsSpec(payload, UuidParams(uuid)) == Returned(Str(ReplaceAll(payload.s, "<uuid>", uuid.s)))
  {
    SetParamsOneKey(payload.s, "uuid", uuid);
    UuidPlaceholder();
  }

  /** Removing '<' from `<k>` leaves `k>` when `k` has no '<'. */
  lemma DropOpening(k: string)
    requires !Contains(k, "<")
    ensures ReplaceAll("<" + k + ">", "<", "") == k + ">"
  {
    assert "<" + k + ">" == "" + "<" + (k + ">");
    ReplaceFirst("", "<", k + ">", "");
    assert !Contains(k + ">", "<") by {
      ContainsAt(k, "<");
      forall i | 0 <= i < |k|
        ensures !OccursAt(k + ">", "<", i)
      {
        assert !OccursAt(k, "<", i);
        assert k[i..i + 1] == [k[i]];
      }
      assert !OccursAt(k + ">", "<", |k|);
      ContainsAt(k + ">", "<");
    }
    ReplaceAbsent(k + ">", "<", "");
  }

  /** Removing '>' from `k>` leaves `k` when `k` has no '>'. */
  lemma DropClosing(k: string)
    requires !Contains(k, ">")
    ensures ReplaceAll(k + ">", ">", "") == k
  {
    ContainsAt(k, ">");
    forall i | 0 <= i < |k|
      ensures !StartsWith((k + ">" + "")[i..], ">")
    {
      assert !OccursAt(k, ">", i);
      assert k[i..i + 1] == [k[i]];
      assert (k + ">" + "")[i] == k[i];
    }
    assert !Contains("", ">");
    ReplaceSingle(k, ">", "", "");
    assert k + ">" + "" == k + ">" && k + "" + "" == k;
  }

  /** A bracket-free key written with its brackets strips back to itself. */
  lemma StripWrapped(k: string)
    requires !Contains(k, "<") && !Contains(k, ">")
    ensures StripBrackets("<" + k + ">") == k
  {
    var b := "<" + k + ">";
    assert OccursAt(b, "<", 0);
    assert OccursAt(b, ">", |k| + 1);
    ContainsAt(b, "<");
    ContainsAt(b, ">");
    DropOpening(k);
    DropClosing(k);
  }

  /** A key written with its brackets, `<k>`, substitutes exactly like `k`. */
  lemma BracketedKeyAlias(t: string, k: string, v: Json)
    requires !Contains(k, "<") && !Contains(k, ">")
    ensures SetParamsSpec(Str(t), Obj([("<" + k + ">", v)])) == SetParamsSpec(Str(t), Obj([(k, v)]))
  {
    SetParamsOneKey(t, k, v);
    SetParamsOneKey(t, "<" + k + ">", v);
    StripWrapped(k);
  }

  /** A template holding `<uuid>` exactly once becomes the text around it with the uuid
      in its place. */
  lemma UuidSubstitution(a: string, b: string, u: string)
    requires forall i :: 0 <= i < |a| ==> !StartsWith((a + "<uuid>" + b)[i..], "<uuid>")
    requires !Contains(b, "<uuid>")
    ensures SetParamsSpec(Str(a + "<uuid>" + b), UuidParams(Str(u))) == Returned(Str(a + u + b))
  {
    SetUuid(a + "<uuid>" + b, u);
    ReplaceSingle(a, "<uuid>", b, u);
  }

  // ---------------------------------------------------------------------------
  // _make_post_request

  /** The certificate the client was built with and the server's base URL. The
      certificate is usable when its path and password were set, the file exists, and
      both are truthy. */
  datatype Env = Env(certPath: Option<string>, certPass: Json, certFileExists: bool, baseUrl: string)

  predicate CertUsable(env: Env) {
    env.certPath.Some? && env.certPath.value != "" && env.certFileExists && Truthy(env.certPass)
  }

  /** The parts of a Delta reply the client reads: `r.ok` and `r.json()` (None when it
      raises). */
  datatype Response = Response(ok: bool, json: Option<Json>)

  /** One scripted reply: the POST raised, or a response. */
  datatype PostReply = PostFailed | Answered(response: Response)

  /** A request sent: URL and body. */
  datatype Sent = Sent(url: string, payload: string)

  /** The endpoint for a payload: `/query` for `queries`, else `/graph-query` for
      `graphQueries`, else `/history` for `queryList`, else none. */
  function PostPath(payload: string): (r: Option<string>)
    ensures r.Some? <==> Contains(payload, "queries") || Contains(payload, "graphQueries") || Contains(payload, "queryList")
    ensures r == Some("/query") <==> Contains(payload, "queries")
    ensures r == Some("/graph-query") <==> !Contains(payload, "queries") && Contains(payload, "graphQueries")
  {
    if Contains(payload, "queries") then Some("/query")
    else if Contains(payload, "graphQueries") then Some("/graph-query")
    else if Contains(payload, "queryList") then Some("/history")
    else None
  }

  /** `_make_post_request`: no request without a usable certificate or a known
      endpoint; otherwise one POST to the base URL (trailing slashes dropped) plus the
      endpoint, None when it raises. */
  function MakePostRequestSpec(env: Env, payload: string, replies: seq<PostReply>)
    : (r: (Option<Response>, seq<PostReply>, seq<Sent>))
    ensures !CertUsable(env) || PostPath(payload).None? ==> r == (None, replies, [])
    ensures CertUsable(env) && PostPath(payload).Some? ==>
      && r.2 == [Sent(RStrip(env.baseUrl, '/') + PostPath(payload).value, payload)]
      && r.1 == (if replies == [] then [] else replies[1..])
    ensures r.0.Some? ==> replies != [] && r.1 == replies[1..] && replies[0] == Answered(r.0.value)
  {
    if !CertUsable(env) || PostPath(payload).None? then (None, replies, [])
    else
      var sent := [Sent(RStrip(env.baseUrl, '/') + PostPath(payload).value, payload)];
      if replies == [] then (None, [], sent)
      else match replies[0]
        case PostFailed => (None, replies[1..], sent)
        case Answered(resp) => (Some(resp), replies[1..], sent)
  }

  /** The URL of every request starts with the base URL without its trailing slashes
      and ends with one of the three endpoints. */
  lemma PostUrlShape(env: Env, payload: string, replies: seq<PostReply>)
    requires MakePostRequestSpec(env, payload, replies).2 != []
    ensures var s := MakePostRequestSpec(env, payload, replies).2[0];
      && StartsWith(s.url, RStrip(env.baseUrl, '/'))
      && var tail := s.url[|RStrip(env.baseUrl, '/')|..];
         tail == "/query" || tail == "/graph-query" || tail == "/history"
  {
    var u := RStrip(env.baseUrl, '/');
    var s := MakePostRequestSpec(env, payload, replies).2[0];
    assert s.url == u + PostPath(payload).value;
    assert s.url[..|u|] == u;
  }

  // ---------------------------------------------------------------------------
  // _recursive_get_adm_units

  /** What the two loops do for one unit before reading the reply: substitute its uuid
      into the template, then POST. The substitution can raise, give a falsy payload, or
      lead to the POST, which returns None (and the `.ok` that follows raises) or a
      response. */
  datatype Posting = RaisedAt(rest: seq<PostReply>, sent: seq<Sent>) | Blank | Replied(resp: Response, rest: seq<PostReply>, sent: seq<Sent>)

  function PostUnit(env: Env, payload: Json, uuid: Json, replies: seq<PostReply>): (r: Posting)
    ensures r.RaisedAt? ==> |r.rest| <= |replies|
    ensures r.Replied? ==> |r.rest| < |replies| && payload.Str? && uuid.Str?
  {
    match SetParamsSpec(payload, UuidParams(uuid))
    case Raised => RaisedAt(replies, [])
    case Returned(p) =>
      if !Truthy(p) then Blank
      else
        SetUuidStr(payload, uuid);
        var post := MakePostRequestSpec(env, p.s, replies);
        if post.0.None? then RaisedAt(post.1, post.2) else Replied(post.0.value, post.1, post.2)
  }

  /** The POST of a unit goes to the endpoint its substituted payload names, and a
      unit sends at most one request. */
  lemma PostUnitSends(env: Env, payload: Json, uuid: Json, replies: seq<PostReply>)
    ensures var r := PostUnit(env, payload, uuid, replies);
      (r.RaisedAt? || r.Replied?) ==> |r.sent| <= 1
  {
  }

  /** The admin units a walk discovered: each node with the subtrees of the children it
      visited, in the order it visited them. */
  datatype Tree = Node(uuid: Json, children: seq<Tree>)

  function PreOrder(t: Tree): seq<Json>
    decreases t
  {
    [t.uuid] + PreOrderAll(t.children)
  }

  function PreOrderAll(ts: seq<Tree>): seq<Json>
    decreases ts
  {
    if ts == [] then [] else PreOrder(ts[0]) + PreOrderAll(ts[1..])
  }

  lemma {:induction false} PreOrderAllAppend(ts: seq<Tree>, t: Tree)
    ensures PreOrderAll(ts + [t]) == PreOrderAll(ts) + PreOrder(t)
    decreases |ts|
  {
    if ts == [] {
      assert [] + [t] == [t];
      assert PreOrderAll([t]) == PreOrder(t) + PreOrderAll([]);
    } else {
      assert (ts + [t])[1..] == ts[1..] + [t];
      PreOrderAllAppend(ts[1..], t);
    }
  }

  /** `json_res[results][0]['instances'][0]`, None where a step raises. */
  function FirstInstance(j: Json, results: string): Option<Json> {
    match Sub(j, results)
    case None => None
    case Some(a) =>
      match First(a)
      case None => None
      case Some(b) =>
        match Sub(b, "instances")
        case None => None
        case Some(c) => First(c)
  }

  /** The children the node's `try` block iterates: None when the JSON does not parse,
      a lookup raises, `children` is absent or empty, or cannot be iterated. */
  function ChildrenOf(resp: Response): Option<seq<Json>> {
    if resp.json.None? then None
    else match FirstInstance(resp.json.value, "queryResults")
      case None => None
      case Some(inst) =>
        match In("children", inst)
        case None => None
        case Some(has) =>
          if !has then None
          else match Sub(inst, "children")
            case None => None
            case Some(ch) =>
              match NonEmpty(ch)
              case None => None
              case Some(ne) => if !ne then None else Elements(ch)
  }

  /** A walk from one node: the subtree it discovered, the replies left, the requests
      sent, and whether it raised out of the node (a `TypeError` from `_set_params` or
      the `AttributeError` of `None.ok`, both outside the node's `try`). */
  datatype Walk = Walk(tree: Tree, rest: seq<PostReply>, sent: seq<Sent>, raised: bool)

  /** A walk over a node's children: the subtrees, the replies left, the requests. A
      failure among the children is caught by the parent's `try`, which stops there. */
  datatype Forest = Forest(trees: seq<Tree>, rest: seq<PostReply>, sent: seq<Sent>)

  /** `_recursive_get_adm_units(acc, payload, uuid)`, as the subtree it appends. */
  function Visit(env: Env, payload: Json, uuid: Json, replies: seq<PostReply>): (w: Walk)
    ensures |w.rest| <= |replies| && w.tree.uuid == uuid
    ensures w.raised ==> w.tree.children == []
    decreases |replies|, 1
  {
    match PostUnit(env, payload, uuid, replies)
    case RaisedAt(rest, sent) => Walk(Node(uuid, []), rest, sent, true)
    case Blank => Walk(Node(uuid, []), replies, [], false)
    case Replied(resp, rest, sent) =>
      if !resp.ok then Walk(Node(uuid, []), rest, sent, false)
      else match ChildrenOf(resp)
        case None => Walk(Node(uuid, []), rest, sent, false)
        case Some(cs) =>
          var f := VisitChildren(env, payload, cs, rest);
          Walk(Node(uuid, f.trees), f.rest, sent + f.sent, false)
  }

  /** The `for child in children` loop of one node. */
  function VisitChildren(env: Env, payload: Json, cs: seq<Json>, replies: seq<PostReply>): (f: Forest)
    ensures |f.rest| <= |replies|
    decreases |replies|, 2, |cs|
  {
    if cs == [] then Forest([], replies, [])
    else match Sub(cs[0], "uuid")
      case None => Forest([], replies, [])
      case Some(u) =>
        var w := Visit(env, payload, u, replies);
        if w.raised then Forest([w.tree], w.rest, w.sent)
        else
          var f := VisitChildren(env, payload, cs[1..], w.rest);
          Forest([w.tree] + f.trees, f.rest, w.sent + f.sent)
  }

  /** One unfolding of `Visit` for a node whose children are read. */
  lemma VisitExpands(env: Env, payload: Json, uuid: Json, replies: seq<PostReply>, cs: seq<Json>)
    requires PostUnit(env, payload, uuid, replies).Replied?
    requires PostUnit(env, payload, uuid, replies).resp.ok
    requires ChildrenOf(PostUnit(env, payload, uuid, replies).resp) == Some(cs)
    ensures var pu := PostUnit(env, payload, uuid, replies);
      var f := VisitChildren(env, payload, cs, pu.rest);
      Visit(env, payload, uuid, replies) == Walk(Node(uuid, f.trees), f.rest, pu.sent + f.sent, false)
  {
  }

  /** One unfolding of the children loop at child `i`. */
  lemma ChildStep(env: Env, payload: Json, cs: seq<Json>, i: nat, replies: seq<PostReply>)
    requires i < |cs| && Sub(cs[i], "uuid").Some?
    ensures var w := Visit(env, payload, Sub(cs[i], "uuid").value, replies);
      var f := VisitChildren(env, payload, cs[i..], replies);
      var g := VisitChildren(env, payload, cs[i + 1..], w.rest);
      f == if w.raised then Forest([w.tree], w.rest, w.sent)
           else Forest([w.tree] + g.trees, g.rest, w.sent + g.sent)
  {
    assert cs[i..][0] == cs[i];
    assert cs[i..][1..] == cs[i + 1..];
  }

  /** A child without a `uuid` ends the loop. */
  lemma ChildMissing(env: Env, payload: Json, cs: seq<Json>, i: nat, replies: seq<PostReply>)
    requires i < |cs| && Sub(cs[i], "uuid").None?
    ensures VisitChildren(env, payload, cs[i..], replies) == Forest([], replies, [])
  {
    assert cs[i..][0] == cs[i];
  }

  lemma ChildrenDone(env: Env, payload: Json, cs: seq<Json>, replies: seq<PostReply>)
    ensures VisitChildren(env, payload, cs[|cs|..], replies) == Forest([], replies, [])
  {
    assert cs[|cs|..] == [];
  }

  /** Children are visited in the order the response lists them: the i-th subtree is
      rooted at the i-th listed child's uuid, and no more subtrees than listed children. */
  lemma {:induction false} ChildrenInResponseOrder(env: Env, payload: Json, cs: seq<Json>, replies: seq<PostReply>)
    ensures var f := VisitChildren(env, payload, cs, replies);
      && |f.trees| <= |cs|
      && forall i :: 0 <= i < |f.trees| ==> Sub(cs[i], "uuid") == Some(f.trees[i].uuid)
    decreases |cs|
  {
    if cs != [] && Sub(cs[0], "uuid").Some? {
      var w := Visit(env, payload, Sub(cs[0], "uuid").value, replies);
      if !w.raised {
        ChildrenInResponseOrder(env, payload, cs[1..], w.rest);
        var f := VisitChildren(env, payload, cs[1..], w.rest);
        forall i | 1 <= i < 1 + |f.trees|
          ensures Sub(cs[i], "uuid") == Some(([w.tree] + f.trees)[i].uuid)
        {
          assert cs[1..][i - 1] == cs[i];
        }
      }
    }
  }

  /** The replies left when the children loop reaches child `i`: each earlier child with
      a `uuid` has had its walk. */
  function Before(env: Env, payload: Json, cs: seq<Json>, replies: seq<PostReply>, i: nat): seq<PostReply>
    requires i <= |cs|
    decreases i
  {
    if i == 0 then replies
    else match Sub(cs[i - 1], "uuid")
      case None => Before(env, payload, cs, replies, i - 1)
      case Some(u) => Visit(env, payload, u, Before(env, payload, cs, replies, i - 1)).rest
  }

  /** The walk of child `i`, started where the loop reaches it. */
  function ChildWalk(env: Env, payload: Json, cs: seq<Json>, replies: seq<PostReply>, i: nat): Walk
    requires i < |cs| && Sub(cs[i], "uuid").Some?
  {
    Visit(env, payload, Sub(cs[i], "uuid").value, Before(env, payload, cs, replies, i))
  }

  /** After a first child with a `uuid`, the loop over the rest starts where that
      child's walk left the replies. */
  lemma {:induction false} BeforeShift(env: Env, payload: Json, cs: seq<Json>, replies: seq<PostReply>, i: nat)
    requires 0 < |cs| && Sub(cs[0], "uuid").Some? && i < |cs|
    ensures Before(env, payload, cs[1..], Visit(env, payload, Sub(cs[0], "uuid").value, replies).rest, i) ==
      Before(env, payload, cs, replies, i + 1)
    decreases i
  {
    if i > 0 {
      BeforeShift(env, payload, cs, replies, i - 1);
      BeforeSame(env, payload, cs[1..], cs, Visit(env, payload, Sub(cs[0], "uuid").value, replies).rest,
                 replies, i, i + 1);
    }
  }

  /** Two loops whose last children agree and that reached them with the same replies
      leave them with the same replies. */
  lemma BeforeSame(env: Env, payload: Json, xs: seq<Json>, ys: seq<Json>,
                   rx: seq<PostReply>, ry: seq<PostReply>, i: nat, j: nat)
    requires 0 < i <= |xs| && 0 < j <= |ys| && xs[i - 1] == ys[j - 1]
    requires Before(env, payload, xs, rx, i - 1) == Before(env, payload, ys, ry, j - 1)
    ensures Before(env, payload, xs, rx, i) == Before(env, payload, ys, ry, j)
  {
  }

  /** The children loop exactly, in three parts. Subtree `i` is the walk of child `i`: */
  predicate TreesAreWalks(env: Env, payload: Json, cs: seq<Json>, replies: seq<PostReply>) {
    var f := VisitChildren(env, payload, cs, replies);
    && |f.trees| <= |cs|
    && forall i :: 0 <= i < |f.trees| ==>
         Sub(cs[i], "uuid").Some? && f.trees[i] == ChildWalk(env, payload, cs, replies, i).tree
  }

  /** every walk but the last returned normally: */
  predicate WalksReturned(env: Env, payload: Json, cs: seq<Json>, replies: seq<PostReply>) {
    var n := |VisitChildren(env, payload, cs, replies).trees|;
    forall i :: 0 <= i < n - 1 && i < |cs| && Sub(cs[i], "uuid").Some? ==>
      !ChildWalk(env, payload, cs, replies, i).raised
  }

  /** and the loop stops early only at a child without a `uuid` or after a walk that
      raised. */
  predicate StopsAtFailure(env: Env, payload: Json, cs: seq<Json>, replies: seq<PostReply>) {
    var n := |VisitChildren(env, payload, cs, replies).trees|;
    n < |cs| ==>
      || Sub(cs[n], "uuid").None?
      || (0 < n && Sub(cs[n - 1], "uuid").Some? && ChildWalk(env, payload, cs, replies, n - 1).raised)
  }

  lemma {:induction false} ChildrenLoopExact(env: Env, payload: Json, cs: seq<Json>, replies: seq<PostReply>)
    ensures TreesAreWalks(env, payload, cs, replies)
    ensures WalksReturned(env, payload, cs, replies)
    ensures StopsAtFailure(env, payload, cs, replies)
    decreases |cs|
  {
    if cs != [] && Sub(cs[0], "uuid").Some? {
      var w := Visit(env, payload, Sub(cs[0], "uuid").value, replies);
      ChildStep(env, payload, cs, 0, replies);
      assert cs[0..] == cs && cs[1..] == cs[0 + 1..];
      FirstChild(env, payload, cs, replies);
      if !w.raised {
        ChildrenLoopExact(env, payload, cs[1..], w.rest);
        StepTrees(env, payload, cs, replies);
        StepReturned(env, payload, cs, replies);
        StepStops(env, payload, cs, replies);
      }
    }
  }

  lemma StepTrees(env: Env, payload: Json, cs: seq<Json>, replies: seq<PostReply>)
    requires cs != [] && Sub(cs[0], "uuid").Some?
    requires var w := Visit(env, payload, Sub(cs[0], "uuid").value, replies);
      && VisitChildren(env, payload, cs, replies).trees == [w.tree] + VisitChildren(env, payload, cs[1..], w.rest).trees
      && TreesAreWalks(env, payload, cs[1..], w.rest)
    ensures TreesAreWalks(env, payload, cs, replies)
  {
    var w := Visit(env, payload, Sub(cs[0], "uuid").value, replies);
    var f := VisitChildren(env, payload, cs, replies);
    var g := VisitChildren(env, payload, cs[1..], w.rest);
    FirstChild(env, payload, cs, replies);
    forall i | 0 <= i < |g.trees|
      ensures Sub(cs[1..][i], "uuid").Some? && g.trees[i] == ChildWalk(env, payload, cs[1..], w.rest, i).tree
    {
    }
    TreesTail(env, payload, cs, replies, f.trees, g.trees, w.rest);
  }

  /** The subtrees after the first, from the loop over the rest. */
  lemma TreesTail(env: Env, payload: Json, cs: seq<Json>, replies: seq<PostReply>,
                  ft: seq<Tree>, gt: seq<Tree>, rest: seq<PostReply>)
    requires cs != [] && Sub(cs[0], "uuid").Some?
    requires rest == Visit(env, payload, Sub(cs[0], "uuid").value, replies).rest
    requires |ft| == 1 + |gt| && ft[1..] == gt && |gt| <= |cs| - 1
    requires forall i {:trigger gt[i]} :: 0 <= i < |gt| ==>
      Sub(cs[1..][i], "uuid").Some? && gt[i] == ChildWalk(env, payload, cs[1..], rest, i).tree
    ensures forall i {:trigger ft[i]} :: 0 < i < |ft| ==>
      Sub(cs[i], "uuid").Some? && ft[i] == ChildWalk(env, payload, cs, replies, i).tree
  {
    forall i | 0 < i < |ft|
      ensures Sub(cs[i], "uuid").Some? && ft[i] == ChildWalk(env, payload, cs, replies, i).tree
    {
      assert gt[i - 1] == ft[i];
      TreeShift(env, payload, cs, replies, i - 1);
    }
  }

  lemma StepReturned(env: Env, payload: Json, cs: seq<Json>, replies: seq<PostReply>)
    requires cs != [] && Sub(cs[0], "uuid").Some?
    requires var w := Visit(env, payload, Sub(cs[0], "uuid").value, replies);
      && !w.raised
      && |VisitChildren(env, payload, cs, replies).trees| == 1 + |VisitChildren(env, payload, cs[1..], w.rest).trees|
      && WalksReturned(env, payload, cs[1..], w.rest)
    ensures WalksReturned(env, payload, cs, replies)
  {
    var n := |VisitChildren(env, payload, cs, replies).trees|;
    FirstChild(env, payload, cs, replies);
    forall i | 0 < i < n - 1 && i < |cs| && Sub(cs[i], "uuid").Some?
      ensures !ChildWalk(env, payload, cs, replies, i).raised
    {
      assert cs[1..][i - 1] == cs[i];
      RaisedShift(env, payload, cs, replies, i - 1);
    }
  }

  /** The first child's walk starts from the replies the loop was given. */
  lemma FirstChild(env: Env, payload: Json, cs: seq<Json>, replies: seq<PostReply>)
    requires cs != [] && Sub(cs[0], "uuid").Some?
    ensures ChildWalk(env, payload, cs, replies, 0) == Visit(env, payload, Sub(cs[0], "uuid").value, replies)
  {
  }

  /** The subtree of child `i + 1`, read off the loop after the first child. */
  lemma TreeShift(env: Env, payload: Json, cs: seq<Json>, replies: seq<PostReply>, i: nat)
    requires i + 1 < |cs| && Sub(cs[0], "uuid").Some? && Sub(cs[1..][i], "uuid").Some?
    ensures Sub(cs[i + 1], "uuid").Some?
    ensures ChildWalk(env, payload, cs[1..], Visit(env, payload, Sub(cs[0], "uuid").value, replies).rest, i).tree ==
      ChildWalk(env, payload, cs, replies, i + 1).tree
  {
    ChildWalkShift(env, payload, cs, replies, i);
  }

  lemma StepStops(env: Env, payload: Json, cs: seq<Json>, replies: seq<PostReply>)
    requires cs != [] && Sub(cs[0], "uuid").Some?
    requires var w := Visit(env, payload, Sub(cs[0], "uuid").value, replies);
      && !w.raised
      && |VisitChildren(env, payload, cs, replies).trees| == 1 + |VisitChildren(env, payload, cs[1..], w.rest).trees|
      && StopsAtFailure(env, payload, cs[1..], w.rest)
    ensures StopsAtFailure(env, payload, cs, replies)
  {
    var w := Visit(env, payload, Sub(cs[0], "uuid").value, replies);
    var m := |VisitChildren(env, payload, cs[1..], w.rest).trees|;
    if m + 1 < |cs| {
      var tail := 0 < m && Sub(cs[1..][m - 1], "uuid").Some? && ChildWalk(env, payload, cs[1..], w.rest, m - 1).raised;
      var head := Sub(cs[m], "uuid").Some? && ChildWalk(env, payload, cs, replies, m).raised;
      if 0 < m && Sub(cs[1..][m - 1], "uuid").Some? {
        RaisedShift(env, payload, cs, replies, m - 1);
      }
      StopsAfter(cs, m, tail, head);
    }
  }

  /** The stopping condition after child `m + 1`, from the one after child `m` of the
      loop over the rest. */
  lemma StopsAfter(cs: seq<Json>, m: nat, tail: bool, head: bool)
    requires m + 1 < |cs|
    requires Sub(cs[1..][m], "uuid").None? || (0 < m && Sub(cs[1..][m - 1], "uuid").Some? && tail)
    requires 0 < m && Sub(cs[1..][m - 1], "uuid").Some? ==> (tail <==> head)
    ensures Sub(cs[m + 1], "uuid").None? || (Sub(cs[m], "uuid").Some? && head)
  {
    assert cs[1..][m] == cs[m + 1];
    assert 0 < m ==> cs[1..][m - 1] == cs[m];
  }

  /** Whether child `i + 1` raised, read off the loop after the first child. */
  lemma RaisedShift(env: Env, payload: Json, cs: seq<Json>, replies: seq<PostReply>, i: nat)
    requires i + 1 < |cs| && Sub(cs[0], "uuid").Some? && Sub(cs[1..][i], "uuid").Some?
    ensures Sub(cs[i + 1], "uuid").Some?
    ensures ChildWalk(env, payload, cs[1..], Visit(env, payload, Sub(cs[0], "uuid").value, replies).rest, i).raised ==
      ChildWalk(env, payload, cs, replies, i + 1).raised
  {
    ChildWalkShift(env, payload, cs, replies, i);
  }

  /** Child `i + 1` of the loop is child `i` of the loop after the first child. */
  lemma ChildWalkShift(env: Env, payload: Json, cs: seq<Json>, replies: seq<PostReply>, i: nat)
    requires i + 1 < |cs| && Sub(cs[0], "uuid").Some?
    ensures cs[1..][i] == cs[i + 1]
    ensures Sub(cs[i + 1], "uuid").Some? ==>
      ChildWalk(env, payload, cs[1..], Visit(env, payload, Sub(cs[0], "uuid").value, replies).rest, i) ==
      ChildWalk(env, payload, cs, replies, i + 1)
  {
    BeforeShift(env, payload, cs, replies, i);
  }

  /** With every child carrying a `uuid` and no walk raising, the loop visits them all. */
  lemma AllChildrenVisited(env: Env, payload: Json, cs: seq<Json>, replies: seq<PostReply>)
    requires forall i :: 0 <= i < |cs| ==>
      Sub(cs[i], "uuid").Some? && !ChildWalk(env, payload, cs, replies, i).raised
    ensures |VisitChildren(env, payload, cs, replies).trees| == |cs|
  {
    ChildrenLoopExact(env, payload, cs, replies);
    var n := |VisitChildren(env, payload, cs, replies).trees|;
    if n < |cs| {
      assert false;
    }
  }

  /** A template that, with uuid `x` in place of `<uuid>`, is a nonempty payload for a
      known endpoint, under a usable certificate. */
  predicate Postable(env: Env, t: string, x: string) {
    CertUsable(env) && ReplaceAll(t, "<uuid>", x) != "" && PostPath(ReplaceAll(t, "<uuid>", x)).Some?
  }

  /** A postable unit consumes one answered reply and reads that response. */
  lemma PostUnitAnswered(env: Env, t: string, x: string, resp: Response, rest: seq<PostReply>)
    requires Postable(env, t, x)
    ensures var pu := PostUnit(env, Str(t), Str(x), [Answered(resp)] + rest);
      pu.Replied? && pu.resp == resp && pu.rest == rest
  {
    SetUuid(t, x);
    assert ([Answered(resp)] + rest)[1..] == rest;
  }

  /** The children objects `{'uuid': x}` for the given uuids. */
  function Kids(xs: seq<string>): (ks: seq<Json>)
    ensures |ks| == |xs|
    ensures forall i :: 0 <= i < |xs| ==> ks[i] == Obj([("uuid", Str(xs[i]))])
  {
    seq(|xs|, i requires 0 <= i < |xs| => Obj([("uuid", Str(xs[i]))]))
  }

  /** A reply listing children with the given uuids (none: an empty `children`). */
  function ChildrenReply(xs: seq<string>): Response {
    Response(true, Some(Obj([("queryResults", Arr([Obj([("instances", Arr([Obj([("children", Arr(Kids(xs)))])]))])]))])))
  }

  lemma ChildrenOfReply(xs: seq<string>)
    ensures ChildrenOf(ChildrenReply(xs)) == if xs == [] then None else Some(Kids(xs))
  {
    var inst := Obj([("children", Arr(Kids(xs)))]);
    assert FirstInstance(ChildrenReply(xs).json.value, "queryResults") == Some(inst);
  }

  /** A unit whose reply lists no children is a leaf. */
  lemma LeafWalk(env: Env, t: string, x: string, rest: seq<PostReply>)
    requires Postable(env, t, x)
    ensures var w := Visit(env, Str(t), Str(x), [Answered(ChildrenReply([]))] + rest);
      w.tree == Node(Str(x), []) && w.rest == rest && !w.raised
  {
    PostUnitAnswered(env, t, x, ChildrenReply([]), rest);
    ChildrenOfReply([]);
  }

  /** A unit whose reply lists children walks them next. */
  lemma ParentWalk(env: Env, t: string, x: string, xs: seq<string>, rest: seq<PostReply>)
    requires Postable(env, t, x) && xs != []
    ensures var w := Visit(env, Str(t), Str(x), [Answered(ChildrenReply(xs))] + rest);
      var f := VisitChildren(env, Str(t), Kids(xs), rest);
      w.tree == Node(Str(x), f.trees) && w.rest == f.rest && !w.raised
  {
    PostUnitAnswered(env, t, x, ChildrenReply(xs), rest);
    ChildrenOfReply(xs);
    VisitExpands(env, Str(t), Str(x), [Answered(ChildrenReply(xs))] + rest, Kids(xs));
  }

  /** One step of the children loop over `Kids(xs)`. */
  lemma KidsStep(env: Env, p: Json, xs: seq<string>, replies: seq<PostReply>)
    requires xs != []
    ensures var w := Visit(env, p, Str(xs[0]), replies);
      var g := VisitChildren(env, p, Kids(xs[1..]), w.rest);
      !w.raised ==> VisitChildren(env, p, Kids(xs), replies) == Forest([w.tree] + g.trees, g.rest, w.sent + g.sent)
  {
    assert Kids(xs)[1..] == Kids(xs[1..]);
    assert Sub(Kids(xs)[0], "uuid") == Some(Str(xs[0]));
  }

  /** A unit with one child, itself a leaf, takes two replies. */
  lemma OneChildWalk(env: Env, t: string, a: string, c: string, rest: seq<PostReply>)
    requires Postable(env, t, a) && Postable(env, t, c)
    ensures var w := Visit(env, Str(t), Str(a), [Answered(ChildrenReply([c])), Answered(ChildrenReply([]))] + rest);
      w.tree == Node(Str(a), [Node(Str(c), [])]) && w.rest == rest && !w.raised
  {
    var r2 := [Answered(ChildrenReply([]))] + rest;
    assert [Answered(ChildrenReply([c])), Answered(ChildrenReply([]))] + rest == [Answered(ChildrenReply([c]))] + r2;
    LeafWalk(env, t, c, rest);
    KidsStep(env, Str(t), [c], r2);
    assert [c][1..] == [];
    ParentWalk(env, t, a, [c], r2);
  }

  /** A root whose children are A and B, with A's child C, is listed root, A, C, B. */
  lemma WalkExample(env: Env, t: string, root: string, a: string, b: string, c: string)
    requires Postable(env, t, root) && Postable(env, t, a) && Postable(env, t, b) && Postable(env, t, c)
    ensures var replies := [Answered(ChildrenReply([a, b])), Answered(ChildrenReply([c])),
                            Answered(ChildrenReply([])), Answered(ChildrenReply([]))];
      PreOrder(Visit(env, Str(t), Str(root), replies).tree) == [Str(root), Str(a), Str(c), Str(b)]
  {
    var p := Str(t);
    var r3: seq<PostReply> := [Answered(ChildrenReply([]))];
    var r1 := [Answered(ChildrenReply([c])), Answered(ChildrenReply([]))] + r3;
    var ta := Node(Str(a), [Node(Str(c), [])]);
    var tb := Node(Str(b), []);
    ReplyList(Answered(ChildrenReply([a, b])), Answered(ChildrenReply([c])), Answered(ChildrenReply([])), r3[0]);
    OneChildWalk(env, t, a, c, r3);
    LeafWalk(env, t, b, []);
    TwoChildren(env, p, a, b, r1, r3);
    ParentWalk(env, t, root, [a, b], r1);
    PreOrderExample(root, ta, tb, a, b, c);
  }

  lemma ReplyList(x0: PostReply, x1: PostReply, x2: PostReply, x3: PostReply)
    ensures [x0] + ([x1, x2] + [x3]) == [x0, x1, x2, x3]
    ensures [x3] == [x3] + []
  {
  }

  /** The loop over two children whose walks both return normally. */
  lemma TwoChildren(env: Env, p: Json, a: string, b: string, r1: seq<PostReply>, r3: seq<PostReply>)
    requires !Visit(env, p, Str(a), r1).raised && Visit(env, p, Str(a), r1).rest == r3
    requires !Visit(env, p, Str(b), r3).raised
    ensures VisitChildren(env, p, Kids([a, b]), r1).trees == [Visit(env, p, Str(a), r1).tree, Visit(env, p, Str(b), r3).tree]
  {
    KidsStep(env, p, [a, b], r1);
    assert [a, b][1..] == [b] && [b][1..] == [];
    KidsStep(env, p, [b], r3);
    assert Kids([]) == [];
  }

  lemma PreOrderExample(root: string, ta: Tree, tb: Tree, a: string, b: string, c: string)
    requires ta == Node(Str(a), [Node(Str(c), [])]) && tb == Node(Str(b), [])
    ensures PreOrder(Node(Str(root), [ta, tb])) == [Str(root), Str(a), Str(c), Str(b)]
  {
    assert PreOrder(ta) == [Str(a), Str(c)] by {
      assert PreOrderAll([Node(Str(c), [])]) == [Str(c)] + PreOrderAll([]);
    }
    assert PreOrderAll([ta, tb]) == PreOrder(ta) + PreOrderAll([tb]);
    assert PreOrderAll([tb]) == [Str(b)] + PreOrderAll([]);
  }

  /** Each visited unit sends at most one request, so the walk sends no more requests
      than it lists units. */
  lemma {:induction false} OneRequestPerUnit(env: Env, payload: Json, uuid: Json, replies: seq<PostReply>)
    ensures var w := Visit(env, payload, uuid, replies);
      |w.sent| <= |PreOrder(w.tree)|
    decreases |replies|, 1
  {
    var pu := PostUnit(env, payload, uuid, replies);
    PostUnitSends(env, payload, uuid, replies);
    if pu.Replied? && pu.resp.ok && ChildrenOf(pu.resp).Some? {
      OneRequestPerChild(env, payload, ChildrenOf(pu.resp).value, pu.rest);
    }
  }

  lemma {:induction false} OneRequestPerChild(env: Env, payload: Json, cs: seq<Json>, replies: seq<PostReply>)
    ensures var f := VisitChildren(env, payload, cs, replies);
      |f.sent| <= |PreOrderAll(f.trees)|
    decreases |replies|, 2, |cs|
  {
    if cs != [] && Sub(cs[0], "uuid").Some? {
      var u := Sub(cs[0], "uuid").value;
      var w := Visit(env, payload, u, replies);
      OneRequestPerUnit(env, payload, u, replies);
      if !w.raised {
        var f := VisitChildren(env, payload, cs[1..], w.rest);
        OneRequestPerChild(env, payload, cs[1..], w.rest);
        assert ([w.tree] + f.trees)[1..] == f.trees;
      } else {
        assert [w.tree][1..] == [];
      }
    }
  }

  /** A node whose response is not ok, or whose children cannot be read, contributes only
      itself, consumes one reply, and does not raise. */
  lemma LeafOnUnreadableChildren(env: Env, t: string, uuid: string, replies: seq<PostReply>)
    requires CertUsable(env)
    requires replies != [] && replies[0].Answered?
    requires !replies[0].response.ok || ChildrenOf(replies[0].response).None?
    requires ReplaceAll(t, "<uuid>", uuid) != ""
    requires PostPath(ReplaceAll(t, "<uuid>", uuid)).Some?
    ensures var w := Visit(env, Str(t), Str(uuid), replies);
      w.tree == Node(Str(uuid), []) && !w.raised && w.rest == replies[1..] && |w.sent| == 1
  {
    var p := ReplaceAll(t, "<uuid>", uuid);
    SetUuid(t, uuid);
    var post := MakePostRequestSpec(env, p, replies);
    assert post.0 == Some(replies[0].response) && post.1 == replies[1..] && |post.2| == 1;
    assert PostUnit(env, Str(t), Str(uuid), replies) == Replied(replies[0].response, replies[1..], post.2);
  }

  // ---------------------------------------------------------------------------
  // _check_has_employees_and_add_teams

  /** `child['identity']['uuid']` for every child, in order; None when one raises. */
  function IdentityUuids(cs: seq<Json>): Option<seq<Json>>
    decreases |cs|
  {
    if cs == [] then Some([])
    else match Sub(cs[0], "identity")
      case None => None
      case Some(id) =>
        match Sub(id, "uuid")
        case None => None
        case Some(u) =>
          match IdentityUuids(cs[1..])
          case None => None
          case Some(rest) => Some([u] + rest)
  }

  /** The team list is the children's identity uuids position by position, and it is
      missing exactly when some child lacks an identity or its uuid. */
  lemma {:induction false} IdentityUuidsSpec(cs: seq<Json>)
    ensures var r := IdentityUuids(cs);
      && (r.Some? ==>
            && |r.value| == |cs|
            && forall i :: 0 <= i < |cs| ==>
                 Sub(cs[i], "identity").Some? && Sub(Sub(cs[i], "identity").value, "uuid") == Some(r.value[i]))
      && (r.None? ==>
            exists i :: 0 <= i < |cs| &&
              (Sub(cs[i], "identity").None? || Sub(Sub(cs[i], "identity").value, "uuid").None?))
    decreases |cs|
  {
    if cs != [] && Sub(cs[0], "identity").Some? && Sub(Sub(cs[0], "identity").value, "uuid").Some? {
      IdentityUuidsSpec(cs[1..]);
      match IdentityUuids(cs[1..])
      case None =>
        var i :| 0 <= i < |cs[1..]| &&
          (Sub(cs[1..][i], "identity").None? || Sub(Sub(cs[1..][i], "identity").value, "uuid").None?);
        assert cs[1..][i] == cs[i + 1];
      case Some(rest) =>
        assert forall i :: 1 <= i < |cs| ==> cs[i] == cs[1..][i - 1];
    }
  }

  /** The teams of one unit from its response: the identity uuids of the first
      instance's `childrenObjects`, empty when there is no instance or no children;
      None when the `try` block raises. */
  function TeamsOf(resp: Response): Option<seq<Json>> {
    if resp.json.None? then None
    else match Sub(resp.json.value, "graphQueryResult")
      case None => None
      case Some(a) =>
        match First(a)
        case None => None
        case Some(b) =>
          match Sub(b, "instances")
          case None => None
          case Some(insts) =>
            match NonEmpty(insts)
            case None => None
            case Some(ne) =>
              if !ne then Some([])
              else match First(insts)
                case None => None
                case Some(inst) =>
                  match In("childrenObjects", inst)
                  case None => None
                  case Some(has) =>
                    if !has then Some([])
                    else match Sub(inst, "childrenObjects")
                      case None => None
                      case Some(ch) =>
                        match NonEmpty(ch)
                        case None => None
                        case Some(ne2) =>
                          if !ne2 then Some([])
                          else match Elements(ch)
                            case None => None
                            case Some(cs) => IdentityUuids(cs)
  }

  /** A reply shaped `{"graphQueryResult": [{"instances": insts}]}`. */
  function InstancesReply(insts: seq<Json>): Json {
    Obj([("graphQueryResult", Arr([Obj([("instances", Arr(insts))])]))])
  }

  /** On a reply of that shape: no instance, or a first instance without
      `childrenObjects`, gives no teams; a first instance listing `childrenObjects`
      gives their identity uuids, in order. */
  lemma TeamsOfShape(ok: bool, insts: seq<Json>, cs: seq<Json>)
    ensures insts == [] ==> TeamsOf(Response(ok, Some(InstancesReply(insts)))) == Some([])
    ensures (insts != [] && insts[0].Obj? && Lookup(insts[0].fields, "childrenObjects").None?) ==>
      TeamsOf(Response(ok, Some(InstancesReply(insts)))) == Some([])
    ensures (insts != [] && insts[0].Obj? && Lookup(insts[0].fields, "childrenObjects") == Some(Arr(cs))) ==>
      TeamsOf(Response(ok, Some(InstancesReply(insts)))) == IdentityUuids(cs)
  {
  }

  /** How the enrichment loop ends: with its list, by returning None, or by raising. */
  datatype Enrichment = Enriched(entries: seq<Json>) | Abandoned | Crashed

  /** The enrichment loop from some unit on, given the entries kept and the requests
      sent before it: the outcome, the replies left, and all requests sent. */
  function EnrichFrom(env: Env, payload: Json, kept: seq<Json>, done: seq<Sent>, units: seq<Json>, replies: seq<PostReply>)
    : (Enrichment, seq<PostReply>, seq<Sent>)
    decreases |units|
  {
    if units == [] then (Enriched(kept), replies, done)
    else match PostUnit(env, payload, units[0], replies)
      case RaisedAt(rest, sent) => (Crashed, rest, done + sent)
      case Blank => (Abandoned, replies, done)
      case Replied(resp, rest, sent) =>
        if !resp.ok then EnrichFrom(env, payload, kept, done + sent, units[1..], rest)
        else match TeamsOf(resp)
          case None => (Abandoned, rest, done + sent)
          case Some(teams) =>
            EnrichFrom(env, payload, kept + [Obj([(units[0].s, Arr(teams))])], done + sent, units[1..], rest)
  }

  /** `_check_has_employees_and_add_teams(units, payload)`, as the outcome, the replies
      left and the requests sent. */
  function Enrich(env: Env, payload: Json, units: seq<Json>, replies: seq<PostReply>)
    : (Enrichment, seq<PostReply>, seq<Sent>)
  {
    EnrichFrom(env, payload, [], [], units, replies)
  }

  /** One unfolding of the enrichment loop at unit `i`. */
  lemma EnrichFromStep(env: Env, payload: Json, kept: seq<Json>, done: seq<Sent>, units: seq<Json>, i: nat, replies: seq<PostReply>)
    requires i < |units|
    ensures EnrichFrom(env, payload, kept, done, units[i..], replies) ==
      match PostUnit(env, payload, units[i], replies)
      case RaisedAt(rest, sent) => (Crashed, rest, done + sent)
      case Blank => (Abandoned, replies, done)
      case Replied(resp, rest, sent) =>
        if !resp.ok then EnrichFrom(env, payload, kept, done + sent, units[i + 1..], rest)
        else match TeamsOf(resp)
          case None => (Abandoned, rest, done + sent)
          case Some(teams) =>
            EnrichFrom(env, payload, kept + [Obj([(units[i].s, Arr(teams))])], done + sent, units[i + 1..], rest)
  {
    assert units[i..][0] == units[i];
    assert units[i..][1..] == units[i + 1..];
  }

  /** What the enrichment call returns. */
  function EnrichResult(e: Enrichment): Outcome<Json> {
    match e
    case Enriched(xs) => Returned(Arr(xs))
    case Abandoned => Returned(Null)
    case Crashed => Raised
  }

  /** The unit an entry `{unit: teams}` is for. */
  function EntryUnit(entry: Json): Json {
    if entry.Obj? && |entry.fields| > 0 then Str(entry.fields[0].0) else Null
  }

  function EntryUnits(entries: seq<Json>): (r: seq<Json>)
    ensures |r| == |entries|
    decreases |entries|
  {
    if entries == [] then [] else [EntryUnit(entries[0])] + EntryUnits(entries[1..])
  }

  /** `xs` is `ys` with some elements left out, order kept. */
  predicate Subsequence(xs: seq<Json>, ys: seq<Json>)
    decreases |ys|
  {
    if xs == [] then true
    else if ys == [] then false
    else (xs[0] == ys[0] && Subsequence(xs[1..], ys[1..])) || Subsequence(xs, ys[1..])
  }

  lemma {:induction false} SubsequenceSkip(xs: seq<Json>, ys: seq<Json>, y: Json)
    requires Subsequence(xs, ys)
    ensures Subsequence(xs, [y] + ys)
  {
    assert ([y] + ys)[1..] == ys;
  }

  /** A unit skipped without an entry leaves the later entries a subsequence of the
      units from it on. */
  lemma SkippedUnitKeepsOrder(kept: seq<Json>, es: seq<Json>, units: seq<Json>)
    requires units != [] && |kept| <= |es| && es[..|kept|] == kept
    requires Subsequence(EntryUnits(es[|kept|..]), units[1..])
    requires |es| - |kept| <= |units[1..]|
    ensures Subsequence(EntryUnits(es[|kept|..]), units)
    ensures |es| - |kept| <= |units|
  {
    assert [units[0]] + units[1..] == units;
    SubsequenceSkip(EntryUnits(es[|kept|..]), units[1..], units[0]);
  }

  /** A unit whose entry is appended is the next unit of the subsequence. */
  lemma KeptUnitLeads(kept: seq<Json>, entry: Json, es: seq<Json>, units: seq<Json>)
    requires units != [] && EntryUnit(entry) == units[0]
    requires |kept| + 1 <= |es| && es[..|kept| + 1] == kept + [entry]
    requires Subsequence(EntryUnits(es[|kept| + 1..]), units[1..])
    ensures es[..|kept|] == kept
    ensures Subsequence(EntryUnits(es[|kept|..]), units)
  {
    assert es[..|kept|] == (kept + [entry])[..|kept|];
    var xs := es[|kept|..];
    assert xs[0] == (kept + [entry])[|kept|];
    assert xs[1..] == es[|kept| + 1..];
    assert EntryUnits(xs) == [units[0]] + EntryUnits(xs[1..]);
  }

  /** The loop only appends: the entries kept so far stay in front, and the units the
      later entries name are a subsequence of the units still to visit. */
  lemma {:induction false} EnrichFromKeepsOrder(env: Env, payload: Json, kept: seq<Json>, done: seq<Sent>,
                                                 units: seq<Json>, replies: seq<PostReply>)
    ensures var e := EnrichFrom(env, payload, kept, done, units, replies).0;
      e.Enriched? ==>
        && |kept| <= |e.entries| && e.entries[..|kept|] == kept
        && Subsequence(EntryUnits(e.entries[|kept|..]), units)
        && |e.entries| - |kept| <= |units|
    decreases |units|
  {
    var e := EnrichFrom(env, payload, kept, done, units, replies).0;
    if units == [] {
      assert e.entries[|kept|..] == [];
    } else {
      var pu := PostUnit(env, payload, units[0], replies);
      if pu.Replied? && e.Enriched? {
        assert [units[0]] + units[1..] == units;
        if !pu.resp.ok {
          EnrichFromKeepsOrder(env, payload, kept, done + pu.sent, units[1..], pu.rest);
          SkippedUnitKeepsOrder(kept, e.entries, units);
        } else {
          var entry := Obj([(units[0].s, Arr(TeamsOf(pu.resp).value))]);
          EnrichFromKeepsOrder(env, payload, kept + [entry], done + pu.sent, units[1..], pu.rest);
          KeptUnitLeads(kept, entry, e.entries, units);
        }
      }
    }
  }

  /** The enriched list keeps the units' order and has one entry per kept unit: the
      units it names are a subsequence of the input, so there are no more entries than
      units. */
  lemma EnrichKeepsOrder(env: Env, payload: Json, units: seq<Json>, replies: seq<PostReply>)
    ensures var e := Enrich(env, payload, units, replies).0;
      e.Enriched? ==> Subsequence(EntryUnits(e.entries), units) && |e.entries| <= |units|
  {
    EnrichFromKeepsOrder(env, payload, [], [], units, replies);
    var e := Enrich(env, payload, units, replies).0;
    if e.Enriched? {
      assert e.entries[0..] == e.entries;
    }
  }

  /** Whether the loop goes past a unit: its reply came back and was either not ok
      (the unit is skipped) or had teams that could be read. */
  predicate Continues(pu: Posting) {
    pu.Replied? && (!pu.resp.ok || TeamsOf(pu.resp).Some?)
  }

  /** The postings of the units the loop reaches, in order: every one but the last
      continues, and the loop stops early only after one that does not. */
  function UnitPostings(env: Env, payload: Json, units: seq<Json>, replies: seq<PostReply>): (ps: seq<Posting>)
    ensures |ps| <= |units| && (ps == [] <==> units == [])
    ensures forall i :: 0 <= i < |ps| - 1 ==> Continues(ps[i])
    ensures |ps| < |units| ==> !Continues(ps[|ps| - 1])
    decreases |units|
  {
    if units == [] then []
    else
      var pu := PostUnit(env, payload, units[0], replies);
      [pu] + (if Continues(pu) then UnitPostings(env, payload, units[1..], pu.rest) else [])
  }

  /** The entries `{unit: teams}` of the units whose reply was ok, with the teams read
      from that reply, in the order of the units. */
  function OkEntries(units: seq<Json>, ps: seq<Posting>): seq<Json>
    requires |ps| <= |units|
    decreases |ps|
  {
    if ps == [] then []
    else
      var pu := ps[0];
      (if pu.Replied? && pu.resp.ok && TeamsOf(pu.resp).Some? && units[0].Str?
       then [Obj([(units[0].s, Arr(TeamsOf(pu.resp).value))])] else [])
      + OkEntries(units[1..], ps[1..])
  }

  /** How an enrichment outcome `e` relates to the postings `ps` of the units reached:
      the loop returns its list exactly when it reaches the end, and then the list is
      the kept entries followed by one entry per unit whose reply was ok; it raises
      exactly when the last unit reached raised, and returns None exactly when that
      unit gave a falsy payload or teams that could not be read. */
  predicate ExactEnrichment(kept: seq<Json>, units: seq<Json>, ps: seq<Posting>, e: Enrichment)
    requires |ps| <= |units|
  {
    && (e.Enriched? <==> ps == [] || Continues(ps[|ps| - 1]))
    && (e.Enriched? ==> |ps| == |units| && e.entries == kept + OkEntries(units, ps))
    && (e == Crashed <==> ps != [] && ps[|ps| - 1].RaisedAt?)
    && (e == Abandoned <==> ps != [] && !ps[|ps| - 1].RaisedAt? && !Continues(ps[|ps| - 1]))
  }

  lemma {:induction false} EnrichFromExact(env: Env, payload: Json, kept: seq<Json>, done: seq<Sent>,
                                           units: seq<Json>, replies: seq<PostReply>)
    ensures ExactEnrichment(kept, units, UnitPostings(env, payload, units, replies),
                            EnrichFrom(env, payload, kept, done, units, replies).0)
    decreases |units|
  {
    if units != [] {
      var pu := PostUnit(env, payload, units[0], replies);
      var ps := UnitPostings(env, payload, units, replies);
      if Continues(pu) {
        var kept' := if pu.resp.ok then kept + [Obj([(units[0].s, Arr(TeamsOf(pu.resp).value))])] else kept;
        var qs := UnitPostings(env, payload, units[1..], pu.rest);
        assert ps == [pu] + qs;
        assert EnrichFrom(env, payload, kept, done, units, replies) ==
          EnrichFrom(env, payload, kept', done + pu.sent, units[1..], pu.rest);
        EnrichFromExact(env, payload, kept', done + pu.sent, units[1..], pu.rest);
        ExactStep(kept, kept', units, pu, qs, EnrichFrom(env, payload, kept, done, units, replies).0);
      } else {
        assert ps == [pu];
      }
    }
  }

  /** A unit the loop goes past, followed by the loop over the rest. */
  lemma ExactStep(kept: seq<Json>, kept': seq<Json>, units: seq<Json>, pu: Posting, qs: seq<Posting>, e: Enrichment)
    requires units != [] && Continues(pu) && |qs| <= |units| - 1 && (qs == [] <==> |units| == 1)
    requires pu.resp.ok ==> units[0].Str?
    requires kept' == if pu.resp.ok then kept + [Obj([(units[0].s, Arr(TeamsOf(pu.resp).value))])] else kept
    requires ExactEnrichment(kept', units[1..], qs, e)
    ensures ExactEnrichment(kept, units, [pu] + qs, e)
  {
    var ps := [pu] + qs;
    assert ps[1..] == qs;
    assert qs != [] ==> ps[|ps| - 1] == qs[|qs| - 1];
    assert OkEntries(units, ps) == (if pu.resp.ok then [Obj([(units[0].s, Arr(TeamsOf(pu.resp).value))])] else [])
      + OkEntries(units[1..], qs);
  }

  /** The enriched list, exactly: one entry per unit whose reply was ok, with that
      reply's teams, in the order of the units; a unit whose teams cannot be read ends
      the call with None. */
  lemma EnrichExact(env: Env, payload: Json, units: seq<Json>, replies: seq<PostReply>)
    ensures var ps := UnitPostings(env, payload, units, replies);
      var e := Enrich(env, payload, units, replies).0;
      && (e.Enriched? ==> |ps| == |units| && e.entries == OkEntries(units, ps))
      && (forall i :: 0 <= i < |ps| && ps[i].Replied? && ps[i].resp.ok && TeamsOf(ps[i].resp).None? ==>
            e == Abandoned)
  {
    var ps := UnitPostings(env, payload, units, replies);
    EnrichFromExact(env, payload, [], [], units, replies);
    assert [] + OkEntries(units, ps) == OkEntries(units, ps);
    forall i | 0 <= i < |ps| && ps[i].Replied? && ps[i].resp.ok && TeamsOf(ps[i].resp).None?
      ensures Enrich(env, payload, units, replies).0 == Abandoned
    {
      assert !Continues(ps[i]);
      assert i == |ps| - 1;
    }
  }

  // ---------------------------------------------------------------------------
  // get_adm_unit_list

  /** `adm_unit_list` and `last_adm_unit_list_updated` (seconds; None before any
      refresh). */
  datatype CacheState = CacheState(list: Json, updated: Option<int>)

  /** A client as `__init__` leaves it. */
  const FreshCache := CacheState(Null, None)

  /** What the client was built with: certificate, top unit and the two templates. */
  datatype Config = Config(env: Env, top: Json, childrenPayload: Json, employeesPayload: Json)

  const SecondsPerDay := 86400

  /** The refresh condition as written: the list is falsy, a timestamp exists, and more
      than one whole day (`timedelta.days`, a floor) has passed since it. */
  predicate Stale(st: CacheState, now: int) {
    !Truthy(st.list) && st.updated.Some? && (now - st.updated.value) / SecondsPerDay > 1
  }

  /** "More than one whole day" means at least two days of seconds. */
  lemma StaleAfterTwoDays(st: CacheState, now: int)
    ensures Stale(st, now) <==>
      !Truthy(st.list) && st.updated.Some? && now - st.updated.value >= 2 * SecondsPerDay
  {
  }

  /** The `try` block of `get_adm_unit_list`: the walk from the top unit, then the
      enrichment of its listing. */
  function RefreshSpec(cfg: Config, replies: seq<PostReply>): (Outcome<Json>, seq<PostReply>, seq<Sent>) {
    var w := Visit(cfg.env, cfg.childrenPayload, cfg.top, replies);
    if w.raised then (Raised, w.rest, w.sent)
    else
      var e := Enrich(cfg.env, cfg.employeesPayload, PreOrder(w.tree), w.rest);
      (EnrichResult(e.0), e.1, w.sent + e.2)
  }

  /** `get_adm_unit_list` at clock `now`, the refresh finishing at `doneAt`: the new
      fields, the result, the replies left and the requests sent. */
  function GetAdmUnitListSpec(cfg: Config, st: CacheState, replies: seq<PostReply>, now: int, doneAt: int)
    : (r: (CacheState, Json, seq<PostReply>, seq<Sent>))
    ensures !Stale(st, now) ==> r == (st, st.list, replies, [])
    ensures r.0 != st ==> Stale(st, now) && r.0.updated == Some(doneAt) && r.1 == r.0.list
  {
    if !Stale(st, now) then (st, st.list, replies, [])
    else
      var rf := RefreshSpec(cfg, replies);
      match rf.0
      case Raised => (st, Null, rf.1, rf.2)
      case Returned(v) => (CacheState(v, Some(doneAt)), v, rf.1, rf.2)
  }

  /** A non-empty cached list is returned as it is, however old, without a request. */
  lemma CachedListKept(cfg: Config, st: CacheState, replies: seq<PostReply>, now: int, doneAt: int)
    requires Truthy(st.list)
    ensures GetAdmUnitListSpec(cfg, st, replies, now, doneAt) == (st, st.list, replies, [])
  {
  }

  /** A refresh that raises returns None and leaves both fields as they were. */
  lemma FailedRefreshKeepsFields(cfg: Config, st: CacheState, replies: seq<PostReply>, now: int, doneAt: int)
    requires Stale(st, now) && RefreshSpec(cfg, replies).0.Raised?
    ensures var r := GetAdmUnitListSpec(cfg, st, replies, now, doneAt);
      r.0 == st && r.1 == Null
  {
  }

  /** Successive calls at the given (now, doneAt) instants: the final fields, the
      results, the replies left. */
  function Calls(cfg: Config, st: CacheState, replies: seq<PostReply>, times: seq<(int, int)>)
    : (CacheState, seq<Json>, seq<PostReply>)
    decreases |times|
  {
    if times == [] then (st, [], replies)
    else
      var r := GetAdmUnitListSpec(cfg, st, replies, times[0].0, times[0].1);
      var more := Calls(cfg, r.0, r.2, times[1..]);
      (more.0, [r.1] + more.1, more.2)
  }

  /** As written, a client that has never refreshed never will: from the state
      `__init__` leaves, every call returns None, sends nothing and changes nothing. */
  lemma {:induction false} FreshClientNeverPopulates(cfg: Config, replies: seq<PostReply>, times: seq<(int, int)>)
    ensures var c := Calls(cfg, FreshCache, replies, times);
      c.0 == FreshCache && c.2 == replies && |c.1| == |times| &&
      forall i :: 0 <= i < |c.1| ==> c.1[i] == Null
    decreases |times|
  {
    if times != [] {
      FreshClientNeverPopulates(cfg, replies, times[1..]);
      var more := Calls(cfg, FreshCache, replies, times[1..]);
      assert forall i :: 1 <= i < 1 + |more.1| ==> ([Null] + more.1)[i] == more.1[i - 1];
    }
  }

  // ---------------------------------------------------------------------------
  // The client object

  /** The Delta server behind `requests_pkcs12.post`: scripted replies and a log of the
      requests sent. */
  class DeltaServer {
    var replies: seq<PostReply>
    ghost var sent: seq<Sent>

    constructor (replies: seq<PostReply>)
      ensures this.replies == replies && sent == []
    {
      this.replies := replies;
      sent := [];
    }

    method Post(url: string, payload: string) returns (r: Option<Response>)
      modifies this
      ensures r == (if old(replies) == [] || old(replies)[0].PostFailed? then None else Some(old(replies)[0].response))
      ensures replies == (if old(replies) == [] then [] else old(replies)[1..])
      ensures sent == old(sent) + [Sent(url, payload)]
    {
      if replies == [] {
        r := None;
      } else {
        r := if replies[0].PostFailed? then None else Some(replies[0].response);
        replies := replies[1..];
      }
      sent := sent + [Sent(url, payload)];
    }
  }

  /** `DeltaClient`: the configuration it was built with and the two cache fields. */
  class DeltaClient {
    const cfg: Config
    const server: DeltaServer
    var admUnitList: Json
    var lastAdmUnitListUpdated: Option<int>

    function Cache(): CacheState
      reads this
    {
      CacheState(admUnitList, lastAdmUnitListUpdated)
    }

    constructor (cfg: Config, server: DeltaServer)
      ensures this.cfg == cfg && this.server == server && Cache() == FreshCache
    {
      this.cfg := cfg;
      this.server := server;
      admUnitList := Null;
      lastAdmUnitListUpdated := None;
    }

    /** `_set_params` */
    method SetParams(payload: Json, params: Json) returns (r: Outcome<Json>)
      ensures r == SetParamsSpec(payload, params)
    {
      if !payload.Str? || !params.Obj? {
        return Returned(Null);
      }
      var p := payload.s;
      var keys := Keys(params.fields);
      KeysSpec(params.fields);
      var i := 0;
      while i < |keys|
        invariant 0 <= i <= |keys|
        invariant forall k :: k in keys[i..] ==> k in keys
        invariant Substitute(payload.s, keys, params.fields) == Substitute(p, keys[i..], params.fields)
      {
        var key := keys[i];
        var value := Lookup(params.fields, key).value;
        key := if key != "" && Contains(key, "<") && Contains(key, ">") then
          ReplaceAll(ReplaceAll(key, "<", ""), ">", "") else key;
        if !value.Str? {
          return Raised;
        }
        assert keys[i..][1..] == keys[i + 1..];
        p := ReplaceAll(p, "<" + key + ">", value.s);
        i := i + 1;
      }
      return Returned(Str(p));
    }

    /** `_make_post_request` */
    method MakePostRequest(payload: string) returns (r: Option<Response>)
      modifies server
      ensures var m := MakePostRequestSpec(cfg.env, payload, old(server.replies));
        r == m.0 && server.replies == m.1 && server.sent == old(server.sent) + m.2
    {
      var env := cfg.env;
      if !(env.certPath.Some? && env.certPath.value != "" && env.certFileExists && Truthy(env.certPass)) {
        return None;
      }
      var path := if Contains(payload, "queries") then Some("/query")
        else if Contains(payload, "graphQueries") then Some("/graph-query")
        else if Contains(payload, "queryList") then Some("/history")
        else None;
      if path.None? {
        return None;
      }
      var url := RStrip(env.baseUrl, '/') + path.value;
      r := server.Post(url, payload);
    }

    /** `_recursive_get_adm_units`: appends the subtree's units, in pre-order, to `acc`.
        The accumulator is passed in and out instead of shared by reference. */
    method RecursiveGetAdmUnits(acc: seq<Json>, payload: Json, uuid: Json) returns (units: seq<Json>, raised: bool)
      modifies server
      ensures var w := Visit(cfg.env, payload, uuid, old(server.replies));
        && units == acc + PreOrder(w.tree) && raised == w.raised
        && server.replies == w.rest && server.sent == old(server.sent) + w.sent
      decreases |server.replies|
    {
      units := acc + [uuid];
      assert PreOrder(Node(uuid, [])) == [uuid];
      ghost var replies0 := server.replies;
      ghost var pu := PostUnit(cfg.env, payload, uuid, replies0);
      var p := SetParams(payload, UuidParams(uuid));
      if p.Raised? {
        return units, true;
      }
      if !Truthy(p.value) {
        return units, false;
      }
      SetUuidStr(payload, uuid);
      ghost var post := MakePostRequestSpec(cfg.env, p.value.s, server.replies);
      var r := MakePostRequest(p.value.s);
      if r.None? {
        assert pu == RaisedAt(server.replies, post.2);
        return units, true;
      }
      assert pu == Replied(r.value, server.replies, post.2);
      if !r.value.ok {
        return units, false;
      }
      var children := ChildrenOf(r.value);
      if children.None? {
        return units, false;
      }
      var cs := children.value;
      VisitExpands(cfg.env, payload, uuid, replies0, cs);
      ghost var forest := VisitChildren(cfg.env, payload, cs, server.replies);
      ghost var trees: seq<Tree> := [];
      ghost var kidsSent: seq<Sent> := [];
      ghost var sentHere := server.sent;
      assert cs[0..] == cs && [] + forest.trees == forest.trees && [] + forest.sent == forest.sent;
      var i := 0;
      while i < |cs|
        invariant 0 <= i <= |cs|
        invariant |server.replies| < |old(server.replies)|
        invariant server.sent == sentHere + kidsSent
        invariant var f := VisitChildren(cfg.env, payload, cs[i..], server.replies);
          forest == Forest(trees + f.trees, f.rest, kidsSent + f.sent)
        invariant units == acc + [uuid] + PreOrderAll(trees)
      {
        var child := Sub(cs[i], "uuid");
        if child.None? {
          ChildMissing(cfg.env, payload, cs, i, server.replies);
          break;
        }
        ChildStep(cfg.env, payload, cs, i, server.replies);
        ghost var childWalk := Visit(cfg.env, payload, child.value, server.replies);
        ghost var later := VisitChildren(cfg.env, payload, cs[i + 1..], childWalk.rest);
        ghost var units0, trees0, kids0 := units, trees, kidsSent;
        var childRaised;
        units, childRaised := RecursiveGetAdmUnits(units, payload, child.value);
        AppendAssoc(sentHere, kids0, childWalk.sent);
        AppendAssoc(acc + [uuid], PreOrderAll(trees0), PreOrder(childWalk.tree));
        PreOrderAllAppend(trees0, childWalk.tree);
        trees := trees + [childWalk.tree];
        kidsSent := kidsSent + childWalk.sent;
        if childRaised {
          assert trees0 + [childWalk.tree] == trees && kids0 + childWalk.sent == kidsSent;
          break;
        }
        AppendAssoc(trees0, [childWalk.tree], later.trees);
        AppendAssoc(kids0, childWalk.sent, later.sent);
        i := i + 1;
      }
      if i == |cs| {
        ChildrenDone(cfg.env, payload, cs, server.replies);
      }
      assert forest == Forest(trees, server.replies, kidsSent);
      AppendAssoc(old(server.sent), pu.sent, kidsSent);
      AppendAssoc(acc, [uuid], PreOrderAll(trees));
      return units, false;
    }

    /** `_check_has_employees_and_add_teams` */
    method CheckHasEmployeesAndAddTeams(units: seq<Json>, payload: Json) returns (r: Outcome<Json>)
      modifies server
      ensures var e := Enrich(cfg.env, payload, units, old(server.replies));
        r == EnrichResult(e.0) && server.replies == e.1 && server.sent == old(server.sent) + e.2
    {
      var entries: seq<Json> := [];
      ghost var whole := Enrich(cfg.env, payload, units, server.replies);
      ghost var sent0 := server.sent;
      ghost var mine: seq<Sent> := [];
      assert units[0..] == units && sent0 + [] == sent0;
      var i := 0;
      while i < |units|
        invariant 0 <= i <= |units|
        invariant server.sent == sent0 + mine
        invariant whole == EnrichFrom(cfg.env, payload, entries, mine, units[i..], server.replies)
      {
        EnrichFromStep(cfg.env, payload, entries, mine, units, i, server.replies);
        ghost var pu := PostUnit(cfg.env, payload, units[i], server.replies);
        var p := SetParams(payload, UuidParams(units[i]));
        if p.Raised? {
          assert mine + [] == mine;
          return Raised;
        }
        if !Truthy(p.value) {
          return Returned(Null);
        }
        SetUuidStr(payload, units[i]);
        ghost var post := MakePostRequestSpec(cfg.env, p.value.s, server.replies);
        var resp := MakePostRequest(p.value.s);
        AppendAssoc(sent0, mine, post.2);
        mine := mine + post.2;
        if resp.None? {
          assert pu == RaisedAt(server.replies, post.2);
          return Raised;
        }
        assert pu == Replied(resp.value, server.replies, post.2);
        if resp.value.ok {
          var teams := TeamsOf(resp.value);
          if teams.None? {
            return Returned(Null);
          }
          entries := entries + [Obj([(units[i].s, Arr(teams.value))])];
        }
        i := i + 1;
      }
      assert units[|units|..] == [];
      return Returned(Arr(entries));
    }

    /** `get_adm_unit_list` at clock `now`; a refresh records `doneAt`. */
    method GetAdmUnitList(now: int, doneAt: int) returns (r: Json)
      modifies this, server
      ensures var g := GetAdmUnitListSpec(cfg, old(Cache()), old(server.replies), now, doneAt);
        && Cache() == g.0 && r == g.1
        && server.replies == g.2 && server.sent == old(server.sent) + g.3
    {
      if !Truthy(admUnitList) {
        if lastAdmUnitListUpdated.Some? {
          if (now - lastAdmUnitListUpdated.value) / SecondsPerDay > 1 {
            ghost var w := Visit(cfg.env, cfg.childrenPayload, cfg.top, server.replies);
            ghost var sent0 := server.sent;
            var units, raised := RecursiveGetAdmUnits([], cfg.childrenPayload, cfg.top);
            assert units == PreOrder(w.tree);
            if raised {
              assert RefreshSpec(cfg, old(server.replies)).0 == Raised;
              return Null;
            }
            ghost var e := Enrich(cfg.env, cfg.employeesPayload, units, server.replies);
            var list := CheckHasEmployeesAndAddTeams(units, cfg.employeesPayload);
            AppendAssoc(sent0, w.sent, e.2);
            assert RefreshSpec(cfg, old(server.replies)) == (list, server.replies, w.sent + e.2);
            if list.Raised? {
              return Null;
            }
            admUnitList := list.value;
            lastAdmUnitListUpdated := Some(doneAt);
          }
        }
      }
      return admUnitList;
    }
  }
}
