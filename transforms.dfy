/**
 * The transform vocabulary shared by every migration: what a transform can
 * see of a node (`IContentBase`), how it reads a field (`TryGet`), maps a
 * value (`Map`) and writes it back (`Set`), and the pair of transforms of a
 * property migration.
 */
module Transforms {
  import opened Wrappers
  import Text
  import opened Platform

  /**
   * The node a transform works on: a stored node with its property values,
   * or the one-property `VirtualContent` the JSON migrators wrap a nested
   * value in.
   */
  datatype ContentView = Stored(fields: map<string, Value>) | Virtual(value: Value)

  const ValuePropertyName: string := "Value"

  /** The message of the exception thrown when a null reference is used. */
  const NullReference: string := "Object reference not set to an instance of an object"

  /** `content.HasProperty(field)`; the virtual node has only "Value", in any case. */
  predicate HasProperty(c: ContentView, field: string)
  {
    match c
    case Stored(fields) => field in fields
    case Virtual(_) => Text.EqualsIgnoreCase(ValuePropertyName, field)
  }

  /** `content.GetValue(field)`; a stored node gives null for a missing property. */
  function GetValue(c: ContentView, field: string): (r: Result<Value>)
    ensures r.Err? <==> c.Virtual? && !HasProperty(c, field)
  {
    match c
    case Stored(fields) => Ok(if field in fields then fields[field] else VNull)
    case Virtual(v) =>
      if HasProperty(c, field) then Ok(v) else Err("not a valid property for this type")
  }

  /** `content.GetValue<string>(field)`: the value converted to text, null staying null. */
  function GetString(c: ContentView, field: string): (r: Result<Value>)
    ensures r.Ok? ==> r.value.VNull? || r.value.VStr?
  {
    match GetValue(c, field)
    case Err(e) => Err(e)
    case Ok(v) => Ok(match ValueText(v) case None => VNull case Some(s) => VStr(s))
  }

  /** How a transform's `TryGet` reads the field. */
  datatype GetKind =
    /** `HasProperty` guard, then `GetValue<string>`; null means "nothing to map". */
    | TextGet
    /** `GetValue(field)` as stored, always reporting success. */
    | RawGet

  /** `TryGet(content, field, out value)`: `Ok(None)` is a `false` return. */
  function TryGet(kind: GetKind, c: ContentView, field: string): (r: Result<Option<Value>>)
    ensures kind.TextGet? && !HasProperty(c, field) ==> r == Ok(None)
    ensures kind.TextGet? && r.Ok? && r.value.Some? ==> r.value.value.VStr?
  {
    match kind
    case TextGet =>
      if !HasProperty(c, field) then Ok(None)
      else (match GetString(c, field)
        case Err(e) => Err(e)
        case Ok(v) => Ok(if v.VNull? then None else Some(v)))
    case RawGet =>
      match GetValue(c, field)
      case Err(e) => Err(e)
      case Ok(v) => Ok(Some(v))
  }

  /**
   * `content.SetValue(field, value)`. The virtual node keeps the text of the
   * value and ignores a write whose text equals the current text.
   */
  function SetValue(c: ContentView, field: string, v: Value): (r: Result<ContentView>)
    ensures c.Stored? ==> r == Ok(Stored(c.fields[field := v]))
  {
    match c
    case Stored(fields) => Ok(Stored(fields[field := v]))
    case Virtual(cur) =>
      if !HasProperty(c, field) then Err("not a valid property for this type")
      else if ValueText(v) == ValueText(cur) then Ok(c)
      else Ok(Virtual(match ValueText(v) case None => VNull case Some(s) => VStr(s)))
  }

  /** `a != null && a.Equals(b)`: strings and numbers compare by value, never across kinds. */
  predicate ObjectEquals(a: Value, b: Value)
  {
    match (a, b)
    case (VStr(s), VStr(t)) => s == t
    case (VInt(i), VInt(j)) => i == j
    case _ => false
  }

  /** The "unchanged" test of `TryMap` and of the JSON transform. */
  predicate Unchanged(from: Value, to: Value)
  {
    (from.VNull? && to.VNull?) || ObjectEquals(from, to) || ObjectEquals(to, from)
  }

  /** The three-way "unchanged" test is plain equality of values. */
  lemma UnchangedIffEqual(from: Value, to: Value)
    ensures Unchanged(from, to) <==> from == to
  {
  }

  /** An `IPropertyTransform`: how it reads the field and what `Map(ctx, from)` does. */
  datatype PropertyTransform = PropertyTransform(get: GetKind, mapper: (Services, Value) -> Result<Value>)

  /**
   * The `Upgrader` or `Downgrader` of a migration: a transform, or `Missing`
   * when the property is null or its getter throws; using a missing one
   * throws.
   */
  datatype Slot = Present(transform: PropertyTransform) | Missing

  datatype PropertyMigration = PropertyMigration(upgrader: Slot, downgrader: Slot)

  function Direction(m: PropertyMigration, upgrading: bool): Slot
  {
    if upgrading then m.upgrader else m.downgrader
  }
}
