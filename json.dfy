/**
  Loosely typed values as the scripts read them from a vector-index payload or
  from a decoded HTTP body, with Python's truth test, `dict.get`, the
  `a or b or c` fallback chain and `str()`.
 */
module Json {
  import opened Wrappers
  import opened PyText

  /** The payload keys a vacancy's title is read from, first truthy one wins. */
  const TitleKeys: seq<string> := ["title", "name"]
  /** The payload keys a vacancy's employer is read from. */
  const CompanyKeys: seq<string> := ["company", "employer"]
  /** The payload keys a point's link is read from when it is stored or retrieved. */
  const UrlKeys: seq<string> := ["url", "alternate_url"]

  /** A Python value decoded from JSON. `Num` stands for an int or a float,
      seen only through its printed form and whether it is non-zero (a NaN
      float is non-zero). Lists and dicts carry their `str()` form, which the
      scripts print but never parse. */
  datatype Json =
    | Null
    | Bool(b: bool)
    | Num(printed: string, nonzero: bool)
    | Str(s: string)
    | List(items: seq<Json>, printed: string)
    | Object(fields: map<string, Json>, printed: string)

  /** A point's payload. A missing payload (`payload or {}`) is the empty map. */
  type Payload = map<string, Json>

  /** The exceptions the modelled code can raise. */
  datatype PyError =
    | AttributeError   // a method called on a value of the wrong type
    | HttpStatusError  // `raise_for_status()` on a non-2xx reply
    | DecodeError      // `r.json()` on a body that is not JSON
    | TransportError   // the HTTP request itself failed
    | TypeError        // iterating a scalar, or hashing a list or a dict

  /** `bool(v)`. */
  predicate Truthy(v: Json) {
    match v
    case Null => false
    case Bool(b) => b
    case Num(_, nonzero) => nonzero
    case Str(s) => s != ""
    case List(items, _) => items != []
    case Object(fields, _) => fields != map[]
  }

  /** `p.get(key)`: `None` when the key is absent. */
  function Get(p: Payload, key: string): Json {
    if key in p then p[key] else Null
  }

  /** `str(v)`. */
  function Show(v: Json): string {
    match v
    case Null => "None"
    case Bool(b) => if b then "True" else "False"
    case Num(printed, _) => printed
    case Str(s) => s
    case List(_, printed) => printed
    case Object(_, printed) => printed
  }

  /** `vs[0] or vs[1] or ... or vs[n-1]`: the first truthy operand, else the last one. */
  function Or(vs: seq<Json>): (r: Json)
    requires |vs| > 0
    ensures Truthy(r) <==> exists i :: 0 <= i < |vs| && Truthy(vs[i])
    ensures forall i :: 0 <= i < |vs| && Truthy(vs[i]) && (forall j :: 0 <= j < i ==> !Truthy(vs[j])) ==> r == vs[i]
    ensures (forall i :: 0 <= i < |vs| ==> !Truthy(vs[i])) ==> r == vs[|vs| - 1]
  {
    if |vs| == 1 || Truthy(vs[0]) then vs[0]
    else
      var r := Or(vs[1..]);
      assert forall i :: 1 <= i < |vs| ==> vs[i] == vs[1..][i - 1];
      r
  }

  /** The operands of `p.get(keys[0]) or ... or p.get(keys[n-1]) or last`. */
  function Chain(p: Payload, keys: seq<string>, last: Json): (vs: seq<Json>)
    ensures |vs| == |keys| + 1 && vs[|keys|] == last
    ensures forall i :: 0 <= i < |keys| ==> vs[i] == Get(p, keys[i])
  {
    seq(|keys|, i requires 0 <= i < |keys| => Get(p, keys[i])) + [last]
  }

  /** The first truthy value among `keys` in `p` is at index `i`. */
  predicate FirstTruthyAt(p: Payload, keys: seq<string>, i: int) {
    && 0 <= i < |keys|
    && Truthy(Get(p, keys[i]))
    && forall j :: 0 <= j < i ==> !Truthy(Get(p, keys[j]))
  }

  /** `(p.get(keys[0]) or ... or default).strip()`, which raises AttributeError when
      the chosen value is not a string. */
  function TextField(p: Payload, keys: seq<string>, default: string): Result<string, PyError> {
    var v := Or(Chain(p, keys, Str(default)));
    if v.Str? then Ok(Strip(v.s)) else Err(AttributeError)
  }

  /** The first truthy key decides the field: its string, stripped, or an
      AttributeError when it holds anything else. */
  lemma TextFieldFirst(p: Payload, keys: seq<string>, default: string, i: int)
    requires FirstTruthyAt(p, keys, i)
    ensures TextField(p, keys, default) ==
      if Get(p, keys[i]).Str? then Ok(Strip(Get(p, keys[i]).s)) else Err(AttributeError)
  {
    var vs := Chain(p, keys, Str(default));
    assert Or(vs) == vs[i];
  }

  /** With no truthy key the default is used, stripped. */
  lemma TextFieldDefault(p: Payload, keys: seq<string>, default: string)
    requires forall i :: 0 <= i < |keys| ==> !Truthy(Get(p, keys[i]))
    ensures TextField(p, keys, default) == Ok(Strip(default))
  {
    var vs := Chain(p, keys, Str(default));
    assert forall i :: 0 <= i < |keys| ==> !Truthy(vs[i]);
    if Truthy(Str(default)) {
      assert Or(vs) == vs[|keys|];
    }
  }
}
