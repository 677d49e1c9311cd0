/**
 * The JavaScript values that `JSON.parse` produces, and the handful of
 * object operations the handlers perform on them: property reads, the
 * `{ key, ...rest }` destructuring, the `{ ...obj, key: value }` override
 * and `String(v)`. Numbers are integers here (fractions and exponents
 * are outside the model).
 */
module Json {
  import opened Wrappers
  import opened Text

  datatype Json =
    | JNull
    | JBool(b: bool)
    | JNum(n: int)
    | JStr(s: string)
    | JArr(items: seq<Json>)
    | JObj(fields: seq<(string, Json)>)

  /** `JSON.parse`: the value, or the message of the `SyntaxError` it throws. */
  type JsonParser = string -> Result<Json, string>

  /** Whether some entry of an object has the given key. */
  predicate HasKey(fields: seq<(string, Json)>, key: string) {
    exists i :: 0 <= i < |fields| && fields[i].0 == key
  }

  /**
   * `obj[key]` on an object decoded by `JSON.parse`, where a key that is
   * repeated takes the last value written for it.
   */
  function Get(fields: seq<(string, Json)>, key: string): (r: Option<Json>)
    ensures r.None? <==> !HasKey(fields, key)
  {
    if fields == [] then None
    else if fields[|fields| - 1].0 == key then Some(fields[|fields| - 1].1)
    else Get(fields[..|fields| - 1], key)
  }

  /** What a property read finds is the last entry written for its key. */
  lemma {:induction false} GetFindsLast(fields: seq<(string, Json)>, key: string)
    requires HasKey(fields, key)
    ensures exists i :: 0 <= i < |fields| && fields[i] == (key, Get(fields, key).value)
                        && forall j :: i < j < |fields| ==> fields[j].0 != key
    decreases |fields|
  {
    var n := |fields| - 1;
    if fields[n].0 == key {
      assert fields[n] == (key, Get(fields, key).value);
    } else {
      var i :| 0 <= i < |fields| && fields[i].0 == key;
      assert fields[..n][i].0 == key;
      GetFindsLast(fields[..n], key);
      var k :| 0 <= k < n && fields[..n][k] == (key, Get(fields[..n], key).value)
               && forall j :: k < j < n ==> fields[..n][j].0 != key;
      assert fields[k] == (key, Get(fields, key).value);
    }
  }

  /** A property of a value that is an object; other values have none of the keys read here. */
  function Member(v: Json, key: string): (r: Option<Json>)
    ensures r.Some? ==> v.JObj? && HasKey(v.fields, key)
  {
    if v.JObj? then Get(v.fields, key) else None
  }

  /** The `rest` of `const { key, ...rest } = obj`: every entry but `key`. */
  function Without(fields: seq<(string, Json)>, key: string): (r: seq<(string, Json)>)
    ensures !HasKey(r, key)
    ensures forall e :: e in r <==> e in fields && e.0 != key
  {
    if fields == [] then []
    else (if fields[0].0 == key then [] else [fields[0]]) + Without(fields[1..], key)
  }

  /**
   * `{ ...obj, key: value }`: an existing `key` keeps its place and takes
   * the new value, otherwise the entry is added at the end.
   */
  function Set(fields: seq<(string, Json)>, key: string, value: Json): (r: seq<(string, Json)>)
    ensures |r| == if HasKey(fields, key) then |fields| else |fields| + 1
    ensures !HasKey(fields, key) ==> r == fields + [(key, value)]
    ensures HasKey(fields, key) ==>
      forall i :: 0 <= i < |fields| ==> r[i] == if fields[i].0 == key then (key, value) else fields[i]
  {
    if HasKey(fields, key) then Replace(fields, key, value) else fields + [(key, value)]
  }

  function Replace(fields: seq<(string, Json)>, key: string, value: Json): (r: seq<(string, Json)>)
    ensures |r| == |fields|
    ensures forall i :: 0 <= i < |fields| ==> r[i] == if fields[i].0 == key then (key, value) else fields[i]
  {
    seq(|fields|, i requires 0 <= i < |fields| => if fields[i].0 == key then (key, value) else fields[i])
  }

  /** After the override, reading `key` gives the new value and every other key reads as before. */
  lemma {:induction false} SetThenGet(fields: seq<(string, Json)>, key: string, value: Json, other: string)
    ensures Get(Set(fields, key, value), key) == Some(value)
    ensures other != key ==> Get(Set(fields, key, value), other) == Get(fields, other)
  {
    if HasKey(fields, key) {
      ReplaceThenGet(fields, key, value, other);
    } else {
      var r := fields + [(key, value)];
      assert r[..|r| - 1] == fields;
    }
  }

  lemma {:induction false} ReplaceThenGet(fields: seq<(string, Json)>, key: string, value: Json, other: string)
    requires HasKey(fields, key)
    ensures Get(Replace(fields, key, value), key) == Some(value)
    ensures other != key ==> Get(Replace(fields, key, value), other) == Get(fields, other)
    decreases |fields|
  {
    var r := Replace(fields, key, value);
    var n := |fields| - 1;
    var init := fields[..n];
    assert Replace(init, key, value) == r[..n];
    if fields[n].0 != key {
      assert HasKey(init, key) by {
        var i :| 0 <= i < |fields| && fields[i].0 == key;
        assert init[i].0 == key;
      }
      ReplaceThenGet(init, key, value, other);
    } else if other != key {
      GetUnchanged(fields[..n], r[..n], other);
    }
  }

  /** Two objects that agree on every entry with key `k` read the same at `k`. */
  lemma {:induction false} GetUnchanged(a: seq<(string, Json)>, b: seq<(string, Json)>, k: string)
    requires |a| == |b|
    requires forall i :: 0 <= i < |a| ==> (a[i].0 == k <==> b[i].0 == k)
    requires forall i :: 0 <= i < |a| && a[i].0 == k ==> a[i] == b[i]
    ensures Get(a, k) == Get(b, k)
    decreases |a|
  {
    if a != [] {
      var n := |a| - 1;
      if a[n].0 != k {
        GetUnchanged(a[..n], b[..n], k);
      }
    }
  }

  /** A concatenation has a key iff one of its parts has it. */
  lemma HasKeyAppend(a: seq<(string, Json)>, b: seq<(string, Json)>, k: string)
    ensures HasKey(a + b, k) <==> HasKey(a, k) || HasKey(b, k)
  {
    if HasKey(a + b, k) {
      var i :| 0 <= i < |a + b| && (a + b)[i].0 == k;
      if i < |a| {
        assert a[i].0 == k;
      } else {
        assert b[i - |a|].0 == k;
      }
    }
    if HasKey(b, k) {
      var i :| 0 <= i < |b| && b[i].0 == k;
      assert (a + b)[|a| + i].0 == k;
    }
    if HasKey(a, k) {
      var i :| 0 <= i < |a| && a[i].0 == k;
      assert (a + b)[i].0 == k;
    }
  }

  /** Reading a concatenation: the later part wins when it has the key. */
  lemma {:induction false} GetAppend(a: seq<(string, Json)>, b: seq<(string, Json)>, k: string)
    ensures Get(a + b, k) == if HasKey(b, k) then Get(b, k) else Get(a, k)
    decreases |b|
  {
    if b == [] {
      assert a + b == a;
    } else {
      var n := |b| - 1;
      assert (a + b)[..|a + b| - 1] == a + b[..n];
      if b[n].0 != k {
        GetAppend(a, b[..n], k);
        assert HasKey(b, k) ==> HasKey(b[..n], k) by {
          if HasKey(b, k) {
            var i :| 0 <= i < |b| && b[i].0 == k;
            assert b[..n][i].0 == k;
          }
        }
      }
    }
  }

  /** The type name zod reports for a value (`undefined` when it is absent). */
  function ParsedType(v: Option<Json>): string {
    match v
    case None => "undefined"
    case Some(JNull) => "null"
    case Some(JBool(_)) => "boolean"
    case Some(JNum(_)) => "number"
    case Some(JStr(_)) => "string"
    case Some(JArr(_)) => "array"
    case Some(JObj(_)) => "object"
  }

  /**
   * `String(v)`, which is also the property key `obj[v]` looks up: an
   * array joins its elements with commas (a `null` element is empty), an
   * object is `[object Object]`.
   */
  function StringOf(v: Json): (r: string)
    ensures v.JStr? ==> r == v.s
  {
    match v
    case JNull => "null"
    case JBool(b) => if b then "true" else "false"
    case JNum(n) => IntToString(n)
    case JStr(s) => s
    case JArr(items) => Join(ElementStrings(items), ",")
    case JObj(_) => "[object Object]"
  }

  function ElementStrings(items: seq<Json>): (r: seq<string>)
    ensures |r| == |items|
  {
    if items == [] then []
    else [if items[0].JNull? then "" else StringOf(items[0])] + ElementStrings(items[1..])
  }
}
