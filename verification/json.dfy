/** JSON values as the application handles them after `JSON.parse`, and the
    few JavaScript operations it applies to them: truthiness (`Boolean(v)`,
    `v || d`), property reads, `Array.isArray`, string conversion (`String(v)`,
    template literals, `Array.prototype.join`) and object spread (`{...v}`). */
module Json {
  import opened Wrappers
  import opened Text

  /** Numbers are integers: every number the application stores or compares
      (timestamps, option indices) is one. */
  datatype Json =
    | JNull
    | JBool(b: bool)
    | JNum(n: int)
    | JStr(s: string)
    | JArr(items: seq<Json>)
    | JObj(fields: map<string, Json>)

  /** `Boolean(v)`. */
  predicate Truthy(v: Json)
  {
    match v
    case JNull => false
    case JBool(b) => b
    case JNum(n) => n != 0
    case JStr(s) => s != ""
    case JArr(_) => true
    case JObj(_) => true
  }

  /** `Boolean(v)` where `v` may be `undefined` (`None`). */
  predicate Present(v: Option<Json>)
  {
    v.Some? && Truthy(v.value)
  }

  /** `v || d`. */
  function Or(v: Option<Json>, d: Json): Json
  {
    if Present(v) then v.value else d
  }

  /** `v.key` (or `v?.key`): an own property of an object, `undefined` for
      every other value. The keys the application reads are never array
      indices nor `length`, so arrays and strings have none of them. Reading a
      property of `null` throws; the callers where that can happen test for
      `JNull` themselves. */
  function Member(v: Json, key: string): Option<Json>
  {
    if v.JObj? && key in v.fields then Some(v.fields[key]) else None
  }

  /** `Array.isArray(v) ? v : []`. */
  function ArrayOr(v: Option<Json>): seq<Json>
  {
    if v.Some? && v.value.JArr? then v.value.items else []
  }

  /** `String(v)`, also what a template literal `${v}` produces. */
  function Str(v: Json): string
    decreases v
  {
    match v
    case JNull => "null"
    case JBool(b) => if b then "true" else "false"
    case JNum(n) => IntToString(n)
    case JStr(s) => s
    case JArr(items) => JoinStrings(JoinParts(items), ",")
    case JObj(_) => "[object Object]"
  }

  /** The strings `Array.prototype.join` concatenates: `null` becomes empty. */
  function JoinParts(items: seq<Json>): (r: seq<string>)
    decreases items
    ensures |r| == |items|
  {
    seq(|items|, i requires 0 <= i < |items| => if items[i].JNull? then "" else Str(items[i]))
  }

  /** `${v}` where `v` may be `undefined`. */
  function Interp(v: Option<Json>): string
  {
    if v.None? then "undefined" else Str(v.value)
  }

  /** `parts.join(sep)`. */
  function JoinStrings(parts: seq<string>, sep: string): string
  {
    if parts == [] then ""
    else if |parts| == 1 then parts[0]
    else parts[0] + sep + JoinStrings(parts[1..], sep)
  }

  /** `p` appears in `s` starting at index `a`. */
  predicate OccursAt(p: string, s: string, a: int)
  {
    0 <= a && a + |p| <= |s| && s[a..a + |p|] == p
  }

  /** `s.includes(p)`. */
  predicate Occurs(p: string, s: string)
  {
    exists a :: 0 <= a <= |s| && OccursAt(p, s, a)
  }

  lemma OccursInSuffix(p: string, t: string, s: string)
    requires Occurs(p, s)
    ensures Occurs(p, t + s)
  {
    var a :| 0 <= a <= |s| && OccursAt(p, s, a);
    assert s[a..a + |p|] == p;
    assert (t + s)[|t| + a..|t| + a + |p|] == s[a..a + |p|];
    assert OccursAt(p, t + s, |t| + a);
  }

  /** `join` loses no element: the text of every part appears in the joined
      string. */
  lemma {:induction false} JoinMentionsEach(parts: seq<string>, sep: string, i: nat)
    requires i < |parts|
    ensures Occurs(parts[i], JoinStrings(parts, sep))
  {
    var j := JoinStrings(parts, sep);
    if i == 0 {
      assert j[0..|parts[0]|] == parts[0];
      assert OccursAt(parts[0], j, 0);
    } else {
      JoinMentionsEach(parts[1..], sep, i - 1);
      OccursInSuffix(parts[i], parts[0] + sep, JoinStrings(parts[1..], sep));
    }
  }

  /** The properties `{...v}` copies from an array or a string: one per
      index, keyed by the index written in decimal. */
  function IndexFields(items: seq<Json>): (m: map<string, Json>)
    ensures forall k :: k in m ==> k != "" && forall i :: 0 <= i < |k| ==> IsDigit(k[i])
  {
    if items == [] then map[]
    else IndexFields(items[..|items| - 1])[NatToString(|items| - 1) := items[|items| - 1]]
  }

  /** The characters of a string as one-character strings. */
  function Chars(s: string): (r: seq<Json>)
    ensures |r| == |s|
  {
    seq(|s|, i requires 0 <= i < |s| => JStr([s[i]]))
  }

  /** `{...v}`: the own enumerable properties of `v`. */
  function Spread(v: Json): map<string, Json>
  {
    match v
    case JObj(m) => m
    case JArr(items) => IndexFields(items)
    case JStr(s) => IndexFields(Chars(s))
    case _ => map[]
  }

  /** A key that is not written in decimal digits is never an index
      property, so spreading an array or string never supplies it. */
  lemma SpreadNamedKey(v: Json, key: string)
    requires |key| > 0 && !IsDigit(key[0])
    ensures key in Spread(v) <==> Member(v, key).Some?
    ensures key in Spread(v) ==> Spread(v)[key] == Member(v, key).value
  {
  }
}
