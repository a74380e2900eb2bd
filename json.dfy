/**
 * Configuration values and the opaque fields of the content tree, together with
 * the lodash path lookups `_.get` and `_.has` that the configuration accessor uses.
 */
module JsonValues {
  import opened Wrappers

  /** A parsed YAML/JSON value. */
  datatype Json =
    | JNull
    | JBool(b: bool)
    | JNum(n: real)
    | JStr(s: string)
    | JArr(items: seq<Json>)
    | JObj(members: map<string, Json>)

  /** Decimal rendering of a natural number, as `"" + i` does in JavaScript. */
  function NatToString(n: nat): (r: string)
    ensures |r| > 0 && IsDigits(r)
    ensures r[0] == '0' ==> n == 0 && r == "0"
    decreases n
  {
    if n < 10 then [Digit(n)] else NatToString(n / 10) + [Digit(n % 10)]
  }

  function Digit(d: nat): (c: char)
    requires d < 10
    ensures '0' <= c <= '9'
  {
    "0123456789"[d]
  }

  predicate IsDigits(s: string) {
    forall i :: 0 <= i < |s| ==> '0' <= s[i] <= '9'
  }

  function DigitsValue(s: string): nat
    requires IsDigits(s)
  {
    if s == [] then 0 else 10 * DigitsValue(s[..|s| - 1]) + (s[|s| - 1] - '0') as nat
  }

  /**
   * The array index a path segment denotes, if any: a JavaScript array only has
   * the canonical decimal names "0", "1", ... as own properties.
   */
  function ParseIndex(key: string): (r: Option<nat>)
  {
    if |key| > 0 && IsDigits(key) && (key[0] != '0' || key == "0") then Some(DigitsValue(key)) else None
  }

  lemma {:induction false} DigitsValueOfNatToString(n: nat)
    ensures DigitsValue(NatToString(n)) == n
    decreases n
  {
    var s := NatToString(n);
    if n >= 10 {
      DigitsValueOfNatToString(n / 10);
      assert s[..|s| - 1] == NatToString(n / 10);
    }
  }

  /** Indices rendered by `NatToString` are read back as the same array index. */
  lemma IndexRoundTrip(n: nat)
    ensures ParseIndex(NatToString(n)) == Some(n)
  {
    DigitsValueOfNatToString(n);
  }

  predicate IsSeparator(c: char) {
    c == '.' || c == '[' || c == ']'
  }

  /** No character that makes lodash treat the string as a deep path. */
  predicate IsPlainKey(s: string) {
    forall i :: 0 <= i < |s| ==> s[i] != '.' && s[i] != '['
  }

  predicate NoSeparator(s: string) {
    forall i :: 0 <= i < |s| ==> !IsSeparator(s[i])
  }

  /** Segments of `p`, with `segment` the part already read of the current one. */
  function Split(p: string, segment: string): (r: seq<string>)
    decreases |p|
  {
    if p == [] then (if segment == [] then [] else [segment])
    else if IsSeparator(p[0]) then (if segment == [] then [] else [segment]) + Split(p[1..], [])
    else Split(p[1..], segment + [p[0]])
  }

  /**
   * lodash's castPath: a string without '.' or '[' is one key; otherwise the
   * segments between '.', '[' and ']', after an empty first segment when the
   * string starts with '.'.
   */
  function ParsePath(p: string): (r: seq<string>)
    ensures |r| > 0
    ensures |p| > 0 && p[0] == '.' ==> r[0] == ""
  {
    if IsPlainKey(p) then [p]
    else if p[0] == '.' then [""] + Split(p, [])
    else var segments := Split(p, []); if segments == [] then [""] else segments
  }

  lemma {:induction false} SplitOverKey(a: string, segment: string, rest: string)
    requires NoSeparator(a) && segment + a != []
    requires |rest| > 0 && IsSeparator(rest[0])
    ensures Split(a + rest, segment) == [segment + a] + Split(rest[1..], [])
    decreases |a|
  {
    if a == [] {
      assert a + rest == rest;
      assert segment + a == segment;
    } else {
      assert (a + rest)[0] == a[0];
      assert (a + rest)[1..] == a[1..] + rest;
      assert (segment + [a[0]]) + a[1..] == segment + a;
      SplitOverKey(a[1..], segment + [a[0]], rest);
    }
  }

  lemma {:induction false} SplitKey(a: string, segment: string)
    requires NoSeparator(a) && segment + a != []
    ensures Split(a, segment) == [segment + a]
    decreases |a|
  {
    if a == [] {
      assert segment + a == segment;
    } else {
      assert (segment + [a[0]]) + a[1..] == segment + a;
      SplitKey(a[1..], segment + [a[0]]);
    }
  }

  /** A dotted path "a.b" descends from key a into key b. */
  lemma DottedPath(a: string, b: string)
    requires a != [] && b != [] && NoSeparator(a) && NoSeparator(b)
    ensures ParsePath(a + "." + b) == [a, b]
  {
    var p := a + "." + b;
    assert p[0] == a[0] && p[|a|] == '.';
    assert !IsPlainKey(p);
    assert p == a + ("." + b);
    SplitOverKey(a, [], "." + b);
    assert ("." + b)[1..] == b;
    SplitKey(b, []);
    assert [] + a == a && [] + b == b;
    assert Split(p, []) == [a, b];
  }

  /** One step of a property lookup; `None` is `undefined`. */
  function Member(j: Json, key: string): Option<Json>
  {
    match j
    case JObj(m) => if key in m then Some(m[key]) else None
    case JArr(xs) =>
      (match ParseIndex(key)
       case Some(i) => if i < |xs| then Some(xs[i]) else None
       case None => None)
    case _ => None
  }

  /** Follows `path` from `j`, as lodash's baseGet does. */
  function Resolve(j: Json, path: seq<string>): (r: Option<Json>)
    decreases |path|
  {
    if path == [] then Some(j)
    else match Member(j, path[0])
      case None => None
      case Some(child) => Resolve(child, path[1..])
  }

  /** `_.get(j, path)`, before the default is applied. */
  function Lookup(j: Json, path: string): Option<Json>
  {
    Resolve(j, ParsePath(path))
  }

  /** `_.has(j, path)`. */
  predicate HasPath(j: Json, path: string)
  {
    Lookup(j, path).Some?
  }

  /** `has("a.b")` holds iff key a holds an object or array that has key b. */
  lemma {:induction false} HasDottedPath(j: Json, a: string, b: string)
    requires a != [] && b != [] && NoSeparator(a) && NoSeparator(b)
    ensures HasPath(j, a + "." + b) <==> Member(j, a).Some? && Member(Member(j, a).value, b).Some?
    ensures HasPath(j, a + "." + b) ==> Lookup(j, a + "." + b) == Member(Member(j, a).value, b)
  {
    DottedPath(a, b);
    var path := [a, b];
    assert path[1..] == [b];
    assert [b][1..] == [];
    assert Lookup(j, a + "." + b) == Resolve(j, path);
    match Member(j, a)
    case None =>
    case Some(child) =>
      assert Resolve(j, path) == Resolve(child, [b]);
      match Member(child, b)
      case None =>
      case Some(v) =>
        assert Resolve(child, [b]) == Resolve(v, []);
  }
}
