/** JavaScript values as the backend sees them after `JSON.parse`, with the
    few parts of the language's semantics the core depends on: truthiness,
    `typeof ... === 'object'`, property reads and property writes. */
module JsValues {
  import opened Wrappers

  /** A JavaScript value reachable from parsed JSON. JSON spells no NaN, so
      every number is a real; a literal too large for a double (which
      `JSON.parse` reads as Infinity) is kept as its exact real value, which
      agrees with Infinity after clamping to 0..100 and after a comparison
      with a threshold. An array may carry named
      properties besides its elements (`props`): the normaliser in
      convex/ai_logic.ts assigns `status` and `score` on arrays too. */
  datatype Json =
    | JNull
    | JBool(b: bool)
    | JNum(n: real)
    | JStr(s: string)
    | JArr(items: seq<Json>, props: map<string, Json>)
    | JObj(fields: map<string, Json>)

  /** JavaScript truthiness: null, false, 0 and "" are falsy; every array
      and object is truthy. */
  predicate Truthy(v: Json) {
    match v
    case JNull => false
    case JBool(b) => b
    case JNum(n) => n != 0.0
    case JStr(s) => s != ""
    case _ => true
  }

  /** A possibly undefined value that is defined and truthy. */
  predicate IsTruthy(o: Option<Json>) {
    o.Some? && Truthy(o.value)
  }

  /** `typeof v === 'object' && v !== null`: arrays count as objects. */
  predicate IsObject(v: Json) {
    v.JArr? || v.JObj?
  }

  /** `v.k` for a named (non-index) property; `undefined` on primitives. */
  function Prop(v: Json, k: string): Option<Json> {
    match v
    case JObj(m) => if k in m then Some(m[k]) else None
    case JArr(_, p) => if k in p then Some(p[k]) else None
    case _ => None
  }

  /** Optional chaining `o?.k`. */
  function PropOf(o: Option<Json>, k: string): Option<Json> {
    if o.Some? then Prop(o.value, k) else None
  }

  /** `o?.[0]`: the first element of an array, property "0" of an object,
      the first character of a string. */
  function Elem0(o: Option<Json>): Option<Json> {
    if o.None? then None
    else match o.value
      case JArr(items, _) => if |items| > 0 then Some(items[0]) else None
      case JObj(m) => if "0" in m then Some(m["0"]) else None
      case JStr(s) => if |s| > 0 then Some(JStr([s[0]])) else None
      case _ => None
  }

  /** The assignment `v.k = x` on an object or an array. */
  function SetProp(v: Json, k: string, x: Json): (r: Json)
    requires IsObject(v)
    ensures IsObject(r) && r.JArr? == v.JArr?
    ensures r.JArr? ==> r.items == v.items
    ensures Prop(r, k) == Some(x)
    ensures forall k' :: k' != k ==> Prop(r, k') == Prop(v, k')
  {
    match v
    case JObj(m) => JObj(m[k := x])
    case JArr(items, p) => JArr(items, p[k := x])
  }

  /** Two objects (or two arrays with the same elements) that agree on every
      property are the same value. */
  lemma SamePropsSameValue(a: Json, b: Json)
    requires IsObject(a) && IsObject(b) && a.JArr? == b.JArr?
    requires a.JArr? ==> a.items == b.items
    requires forall k :: Prop(a, k) == Prop(b, k)
    ensures a == b
  {
    if a.JObj? {
      forall k ensures (k in a.fields) == (k in b.fields) && (k in a.fields ==> a.fields[k] == b.fields[k]) {
        assert Prop(a, k) == Prop(b, k);
      }
      assert a.fields == b.fields;
    } else {
      forall k ensures (k in a.props) == (k in b.props) && (k in a.props ==> a.props[k] == b.props[k]) {
        assert Prop(a, k) == Prop(b, k);
      }
      assert a.props == b.props;
    }
  }

  /** The value `{error: msg}` the backend returns on failure. */
  function ErrorObject(msg: string): Json {
    JObj(map["error" := JStr(msg)])
  }

  /** `parts.join(sep)`. */
  function Join(parts: seq<string>, sep: string): string {
    if |parts| == 0 then ""
    else if |parts| == 1 then parts[0]
    else parts[0] + sep + Join(parts[1..], sep)
  }

  /** `s.split(sep)` for a one-character separator. */
  function Split(s: string, sep: char): seq<string> {
    if |s| == 0 then [""]
    else if s[0] == sep then [""] + Split(s[1..], sep)
    else var rest := Split(s[1..], sep); [[s[0]] + rest[0]] + rest[1..]
  }

  lemma {:induction false} SplitPrefix(x: string, rest: string, sep: char)
    requires sep !in x
    ensures Split(x + [sep] + rest, sep) == [x] + Split(rest, sep)
  {
    if |x| == 0 {
      assert x + [sep] + rest == [sep] + rest;
      assert ([sep] + rest)[1..] == rest;
    } else {
      assert (x + [sep] + rest)[1..] == x[1..] + [sep] + rest;
      SplitPrefix(x[1..], rest, sep);
      assert [x[0]] + x[1..] == x;
    }
  }

  lemma {:induction false} SplitNoSep(x: string, sep: char)
    requires sep !in x
    ensures Split(x, sep) == [x]
  {
    if |x| > 0 {
      SplitNoSep(x[1..], sep);
      assert [x[0]] + x[1..] == x;
    }
  }

  /** Joining with a one-character separator is undone by splitting on it,
      as long as no part contains the separator. */
  lemma {:induction false} SplitJoin(parts: seq<string>, sep: char)
    requires |parts| > 0
    requires forall i :: 0 <= i < |parts| ==> sep !in parts[i]
    ensures Split(Join(parts, [sep]), sep) == parts
  {
    if |parts| == 1 {
      SplitNoSep(parts[0], sep);
    } else {
      SplitJoin(parts[1..], sep);
      SplitPrefix(parts[0], Join(parts[1..], [sep]), sep);
    }
  }
}
