/**
 * JSON trees as the Newtonsoft `JToken` hierarchy holds them, with the
 * object and array operations the recoders use and the compact text form
 * that `JsonConvert.SerializeObject` writes. Parsing text into a tree is a
 * service of the environment (`Platform.Services.parseJson`).
 */
module Json {
  import opened Wrappers
  import Text

  datatype Json =
    | JNull
    | JBool(b: bool)
    | JNum(n: int)
    | JStr(s: string)
    | JArr(items: seq<Json>)
    | JObj(props: seq<(string, Json)>)

  /** `token?[key]` on an object: the value of the first property named `key`. */
  function Get(j: Json, key: string): (r: Option<Json>)
    ensures r.Some? ==> j.JObj? && exists i :: 0 <= i < |j.props| && j.props[i] == (key, r.value)
  {
    if j.JObj? then Lookup(j.props, key) else None
  }

  function Lookup(props: seq<(string, Json)>, key: string): (r: Option<Json>)
    ensures r.Some? ==> exists i :: 0 <= i < |props| && props[i] == (key, r.value)
    ensures r.None? ==> forall i :: 0 <= i < |props| ==> props[i].0 != key
  {
    if props == [] then None
    else if props[0].0 == key then Some(props[0].1)
    else
      var r := Lookup(props[1..], key);
      assert r.None? ==> forall i :: 1 <= i < |props| ==> props[i].0 == props[1..][i - 1].0;
      assert r.Some? ==> exists i :: 1 <= i < |props| && props[i] == (key, r.value) by {
        if r.Some? {
          var i :| 0 <= i < |props[1..]| && props[1..][i] == (key, r.value);
          assert props[i + 1] == (key, r.value);
        }
      }
      r
  }

  /** `obj[key] = v`: replaces the first property named `key`, or appends one. */
  function Put(props: seq<(string, Json)>, key: string, v: Json): (r: seq<(string, Json)>)
    ensures Lookup(r, key) == Some(v)
    ensures forall k :: k != key ==> Lookup(r, k) == Lookup(props, k)
  {
    if props == [] then [(key, v)]
    else if props[0].0 == key then [(key, v)] + props[1..]
    else [props[0]] + Put(props[1..], key, v)
  }

  /** `obj.Remove(key)`: drops every property named `key`. */
  function Remove(props: seq<(string, Json)>, key: string): (r: seq<(string, Json)>)
    ensures Lookup(r, key) == None
    ensures forall k :: k != key ==> Lookup(r, k) == Lookup(props, k)
  {
    if props == [] then []
    else if props[0].0 == key then Remove(props[1..], key)
    else [props[0]] + Remove(props[1..], key)
  }

  /** Removing a key the object does not have changes nothing. */
  lemma {:induction false} RemoveAbsent(props: seq<(string, Json)>, key: string)
    requires Lookup(props, key).None?
    ensures Remove(props, key) == props
  {
    if props != [] {
      assert props[0].0 != key;
      RemoveAbsent(props[1..], key);
    }
  }

  /** `JToken.ToString()` of a value: the raw text of a string, "True"/"False", "" for null. */
  function TokenText(j: Json): string
  {
    match j
    case JNull => ""
    case JBool(b) => if b then "True" else "False"
    case JNum(n) => Text.IntToString(n)
    case JStr(s) => s
    case _ => Serialize(j)
  }

  /** `str` as the indexer stores it: a null string becomes a null value. */
  function FromText(str: Option<string>): (r: Json)
    ensures TokenText(r) == str.GetOr("")
  {
    match str
    case None => JNull
    case Some(t) => JStr(t)
  }

  /** `token?.ToString()`. */
  function TextOf(j: Option<Json>): (r: Option<string>)
    ensures r.Some? <==> j.Some?
  {
    match j
    case None => None
    case Some(t) => Some(TokenText(t))
  }

  /** `j is JArray a`: the items of an array. */
  function AsArray(j: Option<Json>): (r: Option<seq<Json>>)
    ensures r.Some? <==> j.Some? && j.value.JArr?
    ensures r.Some? ==> j == Some(JArr(r.value))
  {
    if j.Some? && j.value.JArr? then Some(j.value.items) else None
  }

  // ---------------------------------------------------------------- enumerating and indexing

  /** The message of the exceptions `JToken` indexers throw. */
  const CannotAccessChild: string := "Cannot access child value"

  /**
   * What `foreach (var c in token)` meets: the items of an array, the
   * `JProperty` nodes of an object.
   */
  datatype Child = Item(item: Json) | Property(name: string, value: Json)

  /** The children of a token; a value has none. */
  function Children(j: Json): (r: seq<Child>)
    ensures j.JArr? ==> |r| == |j.items| && forall i :: 0 <= i < |r| ==> r[i] == Item(j.items[i])
    ensures j.JObj? ==> |r| == |j.props| && forall i :: 0 <= i < |r| ==> r[i] == Property(j.props[i].0, j.props[i].1)
    ensures !j.JArr? && !j.JObj? ==> r == []
  {
    match j
    case JArr(items) => seq(|items|, i requires 0 <= i < |items| => Item(items[i]))
    case JObj(props) => seq(|props|, i requires 0 <= i < |props| => Property(props[i].0, props[i].1))
    case _ => []
  }

  /**
   * `c?[key]` on a child: an object item gives the value of the property,
   * or null; an array item, a value and a `JProperty` throw.
   */
  function ChildIndex(c: Child, key: string): (r: Result<Option<Json>>)
    ensures r.Ok? <==> c.Item? && c.item.JObj?
  {
    match c
    case Item(JObj(props)) => Ok(Lookup(props, key))
    case _ => Err(CannotAccessChild)
  }

  /** `c[key]` on a child already known to be an object; nothing otherwise. */
  function Field(c: Child, key: string): Option<Json>
  {
    match c
    case Item(JObj(props)) => Lookup(props, key)
    case _ => None
  }

  // ---------------------------------------------------------------- paths

  /** The message of the exception an indexer throws for an index past the end. */
  const OutOfRange: string := "Index was out of range"

  /** One indexer of a `?.` chain: `[key]` or `[index]`. */
  datatype Step = Prop(name: string) | At(index: int)

  /**
   * One indexer: a property of an object (null when there is none) or an
   * item of an array (throwing outside the array); any other pairing of
   * token and indexer throws.
   */
  function Index(j: Json, step: Step): (r: Result<Option<Json>>)
    ensures r.Ok? && r.value.Some? ==> r.value.value < j
  {
    match step
    case Prop(k) =>
      if j.JObj? then
        var v := Lookup(j.props, k);
        assert v.Some? ==> v.value < j by {
          if v.Some? {
            var i :| 0 <= i < |j.props| && j.props[i] == (k, v.value);
            assert j.props[i].1 < j.props[i];
          }
        }
        Ok(v)
      else Err(CannotAccessChild)
    case At(i) =>
      if !j.JArr? then Err(CannotAccessChild)
      else if 0 <= i < |j.items| then Ok(Some(j.items[i]))
      else Err(OutOfRange)
  }

  /** `token?[s1]?[s2]...`: a null on the way ends the chain with null. */
  function Navigate(j: Json, path: seq<Step>): Result<Option<Json>>
    decreases |path|
  {
    if path == [] then Ok(Some(j))
    else
      match Index(j, path[0])
      case Err(e) => Err(e)
      case Ok(None) => Ok(None)
      case Ok(Some(c)) => Navigate(c, path[1..])
  }

  /** The path leads to a token. */
  predicate Present(j: Json, path: seq<Step>)
  {
    Navigate(j, path).Ok? && Navigate(j, path).value.Some?
  }

  /** The tree with the token at `path` replaced by `v`. */
  function Replace(j: Json, path: seq<Step>, v: Json): Json
    requires Present(j, path)
    decreases |path|
  {
    if path == [] then v
    else
      var c := Index(j, path[0]).value.value;
      match path[0]
      case Prop(k) => JObj(Put(j.props, k, Replace(c, path[1..], v)))
      case At(i) => JArr(j.items[i := Replace(c, path[1..], v)])
  }

  /** Following `p` and then `q` is following `p + q`. */
  lemma {:induction false} NavigateAppend(j: Json, p: seq<Step>, q: seq<Step>)
    ensures Navigate(j, p + q) ==
      match Navigate(j, p)
      case Err(e) => Err(e)
      case Ok(None) => Ok(None)
      case Ok(Some(x)) => Navigate(x, q)
    decreases |p|
  {
    if p == [] {
      assert p + q == q;
    } else {
      assert (p + q)[0] == p[0] && (p + q)[1..] == p[1..] + q;
      if Index(j, p[0]).Ok? && Index(j, p[0]).value.Some? {
        NavigateAppend(Index(j, p[0]).value.value, p[1..], q);
      }
    }
  }

  /** After the replacement the path leads to the new token. */
  lemma {:induction false} ReplaceReaches(j: Json, path: seq<Step>, v: Json)
    requires Present(j, path)
    ensures Navigate(Replace(j, path, v), path) == Ok(Some(v))
    decreases |path|
  {
    if path != [] {
      var c := Index(j, path[0]).value.value;
      ReplaceReaches(c, path[1..], v);
    }
  }

  /** Two paths that part at some step. */
  predicate Diverges(p: seq<Step>, q: seq<Step>)
    decreases |p|
  {
    p != [] && q != [] && (p[0] != q[0] || Diverges(p[1..], q[1..]))
  }

  /** A replacement leaves every path that parts from the replaced one as it was. */
  lemma {:induction false} ReplaceElsewhere(j: Json, p: seq<Step>, v: Json, q: seq<Step>)
    requires Present(j, p) && Diverges(p, q)
    ensures Navigate(Replace(j, p, v), q) == Navigate(j, q)
    decreases |p|
  {
    var c := Index(j, p[0]).value.value;
    var j' := Replace(j, p, v);
    if p[0] == q[0] {
      ReplaceElsewhere(c, p[1..], v, q[1..]);
      assert Index(j', q[0]) == Ok(Some(Replace(c, p[1..], v)));
    } else {
      assert Index(j', q[0]) == Index(j, q[0]);
    }
  }

  // ---------------------------------------------------------------- serialisation

  function HexDigit(d: nat): char requires d < 16
  {
    if d < 10 then ('0' as int + d) as char else ('a' as int + d - 10) as char
  }

  /** The escape Newtonsoft writes for one character of a string. */
  function EscapeChar(c: char): string
  {
    if c == '"' then "\\\""
    else if c == '\\' then "\\\\"
    else if c == '\n' then "\\n"
    else if c == '\r' then "\\r"
    else if c == '\t' then "\\t"
    else if c as int == 8 then "\\b"
    else if c as int == 12 then "\\f"
    else if c as int < 32 then "\\u00" + [HexDigit(c as int / 16), HexDigit(c as int % 16)]
    else if c as int == 0x85 then "\\u0085"
    else if c as int == 0x2028 then "\\u2028"
    else if c as int == 0x2029 then "\\u2029"
    else [c]
  }

  function Escape(s: string): string
  {
    if s == [] then "" else EscapeChar(s[0]) + Escape(s[1..])
  }

  function Quote(s: string): string { "\"" + Escape(s) + "\"" }

  /** The compact text of a tree (`Formatting.None`). */
  function Serialize(j: Json): string
  {
    match j
    case JNull => "null"
    case JBool(b) => if b then "true" else "false"
    case JNum(n) => Text.IntToString(n)
    case JStr(s) => Quote(s)
    case JArr(items) => "[" + SerializeItems(items) + "]"
    case JObj(props) => "{" + SerializeProps(props) + "}"
  }

  function SerializeItems(items: seq<Json>): string
    decreases items
  {
    if items == [] then ""
    else if |items| == 1 then Serialize(items[0])
    else Serialize(items[0]) + "," + SerializeItems(items[1..])
  }

  function SerializeProps(props: seq<(string, Json)>): string
    decreases props
  {
    if props == [] then ""
    else
      var p := props[0];
      assert p.1 < p;
      var one := Quote(p.0) + ":" + Serialize(p.1);
      if |props| == 1 then one else one + "," + SerializeProps(props[1..])
  }
}
