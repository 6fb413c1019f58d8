/**
 * The nuPickers migrators (`NuPickerMigrator` and its three editor-specific
 * subclasses): a value stored as a JSON list of `{ "key", "label" }` pairs
 * becomes the key of its one entry, or the keys joined by commas inside
 * brackets. The data type keeps its database type and pre-values; there is
 * no way back.
 */
module NuPicker {
  import opened Wrappers
  import opened Text
  import opened Json
  import opened Platform
  import opened Transforms
  import DataTypeMigration

  /** The aliases of `EnumNuPickerMigration`, `CheckboxNuPickerMigration` and `DropdownNuPickerMigration`; each keeps its own. */
  const EnumDropDownPicker: string := "nuPickers.EnumDropDownPicker"
  const DotNetCheckBoxPicker: string := "nuPickers.DotNetCheckBoxPicker"
  const DotNetDropDownPicker: string := "nuPickers.DotNetDropDownPicker"

  /** The messages of what the deserialiser and `Enumerable.Any` throw. */
  const CannotRead: string := "Cannot deserialize the current JSON into type NuPickerDto"
  const NullSource: string := "Value cannot be null. Parameter name: source"

  /** A string member of the DTO read from a token: scalars give their text, containers throw. */
  function StringMember(v: Option<Json>): Result<Option<string>>
  {
    match v
    case None => Ok(None)
    case Some(JNull) => Ok(None)
    case Some(JArr(_)) => Err(CannotRead)
    case Some(JObj(_)) => Err(CannotRead)
    case Some(t) => Ok(Some(TokenText(t)))
  }

  /**
   * The key of one element of the `List<NuPickerDto>`: an element that is
   * not an object fails to deserialise, and a null element throws where its
   * key is read.
   */
  function KeyOf(item: Json): Result<Option<string>>
  {
    match item
    case JNull => Err(NullReference)
    case JObj(props) =>
      (match StringMember(Lookup(props, "label"))
       case Err(e) => Err(e)
       case Ok(_) => StringMember(Lookup(props, "key")))
    case _ => Err(CannotRead)
  }

  /** The keys of the list, in order. */
  function Keys(items: seq<Json>): (r: Result<seq<Option<string>>>)
    ensures r.Ok? ==> |r.value| == |items| && forall i :: 0 <= i < |items| ==> KeyOf(items[i]) == Ok(r.value[i])
    ensures r.Err? <==> exists i :: 0 <= i < |items| && KeyOf(items[i]).Err?
  {
    if items == [] then Ok([])
    else
      match Keys(items[..|items| - 1])
      case Err(e) => Err(e)
      case Ok(front) =>
        match KeyOf(items[|items| - 1])
        case Err(e) => Err(e)
        case Ok(k) => Ok(front + [k])
  }

  /** `string.Join` writes a null as nothing. */
  function Texts(keys: seq<Option<string>>): (r: seq<string>)
    ensures |r| == |keys| && forall i :: 0 <= i < |keys| ==> r[i] == keys[i].GetOr("")
  {
    seq(|keys|, i requires 0 <= i < |keys| => keys[i].GetOr(""))
  }

  /** `NuPickerTransform.Map(ctx, from)`. */
  function MapSpec(svc: Services, from: Value): Result<Value>
  {
    if from.VNull? || IsBlank(ValueText(from).value) then Ok(from)
    else
      match svc.parseJson(ValueText(from).value)
      case Err(e) => Err(e)
      case Ok(None) => Err(NullSource)
      case Ok(Some(JArr(items))) =>
        (match Keys(items)
         case Err(e) => Err(e)
         case Ok(keys) =>
           if |keys| > 1 then Ok(VStr("[" + Join(Texts(keys), ',') + "]"))
           else if |keys| == 1 then Ok(if keys[0].None? then VNull else VStr(keys[0].value))
           else Ok(from))
      case Ok(Some(_)) => Err(CannotRead)
  }

  /** A null or blank value is returned as it is. */
  lemma MapBlank(svc: Services, from: Value)
    requires IsNullOrWhiteSpace(ValueText(from))
    ensures MapSpec(svc, from) == Ok(from)
  {
  }

  /**
   * A list that reads: an empty one leaves the value as it is, one entry
   * gives its key (null for a null key), more give the bracketed,
   * comma-joined keys, unquoted.
   */
  lemma MapList(svc: Services, from: Value, items: seq<Json>, keys: seq<Option<string>>)
    requires !IsNullOrWhiteSpace(ValueText(from))
    requires svc.parseJson(ValueText(from).value) == Ok(Some(JArr(items))) && Keys(items) == Ok(keys)
    ensures |keys| == 0 ==> MapSpec(svc, from) == Ok(from)
    ensures |keys| == 1 ==> MapSpec(svc, from) == Ok(if keys[0].None? then VNull else VStr(keys[0].value))
    ensures |keys| > 1 ==> MapSpec(svc, from) == Ok(VStr("[" + Join(Texts(keys), ',') + "]"))
  {
  }

  /** An element that cannot be read makes `Map` throw. */
  lemma MapThrows(svc: Services, from: Value, items: seq<Json>, i: int)
    requires !IsNullOrWhiteSpace(ValueText(from))
    requires svc.parseJson(ValueText(from).value) == Ok(Some(JArr(items)))
    requires 0 <= i < |items| && KeyOf(items[i]).Err?
    ensures MapSpec(svc, from).Err?
  {
  }

  /** With two or more keys free of commas, the keys can be read back from between the brackets. */
  lemma {:induction false} ManyKeysRoundTrip(svc: Services, from: Value, items: seq<Json>, keys: seq<Option<string>>)
    requires !IsNullOrWhiteSpace(ValueText(from))
    requires svc.parseJson(ValueText(from).value) == Ok(Some(JArr(items))) && Keys(items) == Ok(keys)
    requires |keys| > 1 && forall i :: 0 <= i < |keys| ==> keys[i].Some? && ',' !in keys[i].value
    ensures MapSpec(svc, from).Ok? && MapSpec(svc, from).value.VStr?
    ensures var t := MapSpec(svc, from).value.s;
      |t| >= 2 && t[0] == '[' && t[|t| - 1] == ']'
      && Split(t[1..|t| - 1], ',') == Texts(keys)
      && forall i :: 0 <= i < |keys| ==> Texts(keys)[i] == keys[i].value
  {
    var texts := Texts(keys);
    var inner := Join(texts, ',');
    var t := "[" + inner + "]";
    assert MapSpec(svc, from) == Ok(VStr(t));
    assert t[1..|t| - 1] == inner;
    forall i | 0 <= i < |texts|
      ensures ',' !in texts[i] && texts[i] == keys[i].value
    {
      assert keys[i].Some?;
    }
    SplitJoin(texts, ',');
  }

  /** `NupickerMigration`: the upgrader reads the raw value; the downgrader is null. */
  function Migration(): (m: PropertyMigration)
    ensures m.downgrader.Missing? && m.upgrader.Present? && m.upgrader.transform.get == RawGet
    ensures forall svc, v :: m.upgrader.transform.mapper(svc, v) == MapSpec(svc, v)
  {
    PropertyMigration(Present(PropertyTransform(RawGet, (svc: Services, v: Value) => MapSpec(svc, v))), Missing)
  }

  /**
   * A nuPickers migrator with the editor alias of its subclass: every data
   * type needs migrating; the database type and the pre-values stay.
   */
  function AsMigrator(editorAlias: string): (m: DataTypeMigration.Migrator)
    ensures forall d, p :: m.needsMigration(d, p)
    ensures forall d, p, retain :: m.propertyMigration(d, p, retain) == Ok(Some(Migration()))
    ensures forall d, p :: m.newEditorAlias(d, p) == Ok(editorAlias)
    ensures forall d: DataTypeMigration.DataTypeDefinition, p :: m.newDatabaseType(d, p) == Ok(d.databaseType) && m.newPreValues(d, p) == Ok(Some(p))
  {
    DataTypeMigration.Migrator(
      (d, p) => true,
      (d, p, retain: bool) => Ok(Some(Migration())),
      (d: DataTypeMigration.DataTypeDefinition, p) => Ok(d.databaseType),
      (d, p) => Ok(editorAlias),
      (d, p) => Ok(Some(p)))
  }
}
