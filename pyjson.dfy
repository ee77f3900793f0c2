/** Parsed JSON (and xmltodict) values as the Python code sees them, and the Python
    operations the clients apply to them. An operation that raises in Python
    (`KeyError`, `IndexError`, `TypeError`, `AttributeError`) returns `None` here;
    the caller decides which `except` clause catches it. */
module PyJson {
  import opened Text

  datatype Option<T> = None | Some(value: T)

  /** A call that returns a value, or raises an exception no handler of the modelled
      code catches. */
  datatype Outcome<T> = Returned(value: T) | Raised

  /** `Null` is Python's None. An object keeps its bindings in the order the parser
      met them; a later binding of the same key wins, as with `json.loads`. */
  datatype Json =
    | Null
    | Bool(b: bool)
    | Num(n: int)
    | Str(s: string)
    | Arr(items: seq<Json>)
    | Obj(fields: seq<(string, Json)>)

  /** Python truthiness: None, False, 0, "", [] and {} are false. */
  predicate Truthy(j: Json) {
    match j
    case Null => false
    case Bool(b) => b
    case Num(n) => n != 0
    case Str(s) => s != ""
    case Arr(a) => a != []
    case Obj(f) => f != []
  }

  /** The value bound to `k`, the last binding winning. */
  function Lookup(f: seq<(string, Json)>, k: string): Option<Json>
    decreases |f|
  {
    if f == [] then None
    else if f[|f| - 1].0 == k then Some(f[|f| - 1].1)
    else Lookup(f[..|f| - 1], k)
  }

  /** A key is bound exactly when some pair carries it. */
  lemma {:induction false} LookupSpec(f: seq<(string, Json)>, k: string)
    ensures Lookup(f, k).Some? <==> exists i :: 0 <= i < |f| && f[i].0 == k
    decreases |f|
  {
    if f != [] && f[|f| - 1].0 != k {
      LookupSpec(f[..|f| - 1], k);
      assert forall i :: 0 <= i < |f| - 1 ==> f[..|f| - 1][i] == f[i];
    }
  }

  /** The distinct keys of an object in first-insertion order, as a dict iterates them. */
  function Keys(f: seq<(string, Json)>): seq<string>
    decreases |f|
  {
    if f == [] then []
    else
      var ks := Keys(f[..|f| - 1]);
      if f[|f| - 1].0 in ks then ks else ks + [f[|f| - 1].0]
  }

  /** The keys listed are exactly the keys of the pairs, and every one is bound. */
  lemma {:induction false} KeysSpec(f: seq<(string, Json)>)
    ensures forall k :: k in Keys(f) <==> exists i :: 0 <= i < |f| && f[i].0 == k
    ensures forall k :: k in Keys(f) ==> Lookup(f, k).Some?
    ensures |Keys(f)| == 0 <==> |f| == 0
    decreases |f|
  {
    if f != [] {
      KeysSpec(f[..|f| - 1]);
      assert forall i :: 0 <= i < |f| - 1 ==> f[..|f| - 1][i] == f[i];
      forall k | k in Keys(f)
        ensures Lookup(f, k).Some?
      {
        if f[|f| - 1].0 != k {
          assert k in Keys(f[..|f| - 1]);
        }
      }
    }
  }

  /** `j[k]` with a string key: only an object can be indexed that way. */
  function Sub(j: Json, k: string): Option<Json> {
    if j.Obj? then Lookup(j.fields, k) else None
  }

  /** `j.get(k, d)`: only an object has `get`. */
  function Get(j: Json, k: string, d: Json): Option<Json> {
    if j.Obj? then (if Lookup(j.fields, k).Some? then Lookup(j.fields, k) else Some(d))
    else None
  }

  /** `j[0]`: the first element of a list or the first character of a string; a dict has
      no integer key, and an empty sequence raises `IndexError`. */
  function First(j: Json): Option<Json> {
    match j
    case Arr(a) => if |a| > 0 then Some(a[0]) else None
    case Str(s) => if |s| > 0 then Some(Str([s[0]])) else None
    case _ => None
  }

  /** `k in j`: key membership for a dict, element membership for a list, substring for a
      string; anything else raises `TypeError`. */
  function In(k: string, j: Json): Option<bool> {
    match j
    case Obj(f) => Some(Lookup(f, k).Some?)
    case Arr(a) => Some(Str(k) in a)
    case Str(s) => Some(Contains(s, k))
    case _ => None
  }

  /** `len(j) > 0` */
  function NonEmpty(j: Json): Option<bool> {
    match j
    case Obj(f) => Some(f != [])
    case Arr(a) => Some(a != [])
    case Str(s) => Some(s != "")
    case _ => None
  }

  /** What `for x in j` visits: list elements, dict keys, or one-character strings. */
  function Elements(j: Json): (r: Option<seq<Json>>)
    ensures j.Arr? ==> r == Some(j.items)
    ensures r.Some? <==> (j.Arr? || j.Obj? || j.Str?)
  {
    match j
    case Arr(a) => Some(a)
    case Obj(f) => Some(seq(|Keys(f)|, i requires 0 <= i < |Keys(f)| => Str(Keys(f)[i])))
    case Str(s) => Some(seq(|s|, i requires 0 <= i < |s| => Str([s[i]])))
    case _ => None
  }
}
