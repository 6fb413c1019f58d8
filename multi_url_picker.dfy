/**
 * The RJP multi URL picker migrator (`RJPMultiUrlPickerMigrator`): the value
 * is a JSON array of link objects; each link is recoded on its own. A link
 * to a node by positive integer id gets the node's `umb://` reference in
 * "udi" (dropping "url"), a caption becomes "name", and the legacy keys
 * "caption", "id", "isMedia" and "icon" are dropped. The editor becomes
 * "Umbraco.MultiUrlPicker"; there is no way back.
 */
module MultiUrlPicker {
  import opened Wrappers
  import opened Text
  import opened Json
  import opened Platform
  import opened Transforms
  import IdToUdi
  import JsonContent
  import LegacyJsonContent
  import DataTypeMigration

  /** `GetNewPropertyEditorAlias`. */
  const EditorAlias: string := "Umbraco.MultiUrlPicker"

  /** The messages of the exceptions `JsonConvert.DeserializeObject<T>` throws for a token of another kind, or a null text. */
  const NotAnObject: string := "Unexpected JSON token while reading JObject"
  const NotAnArray: string := "Unexpected JSON token while reading JArray"
  const NullText: string := "Value cannot be null"

  /** `JsonConvert.DeserializeObject<JObject>` as a function of the text: the token, null, or an exception. */
  type Parse = string -> Result<Option<Json>>

  // ---------------------------------------------------------------- one link

  /** `Boolean.TryParse(s, out b)`, false when the text is not a boolean. */
  predicate ParseBool(s: Option<string>)
  {
    s.Some? && EqualsIgnoreCase(Trim(s.value), "true")
  }

  /** `int.TryParse(obj["id"]?.ToString(), out nodeId)`: 0 when it fails. */
  function NodeId(obj: seq<(string, Json)>): int
  {
    var idStr := TextOf(Lookup(obj, "id"));
    if idStr.Some? && ParseInt32(idStr.value).Some? then ParseInt32(idStr.value).value else 0
  }

  /** Media when "isMedia" reads as true, a document otherwise. */
  function KindOf(obj: seq<(string, Json)>): BaseType
  {
    if ParseBool(TextOf(Lookup(obj, "isMedia"))) then Media else Document
  }

  /** The reference `MapToUdi` gives the link's id (invalid ids retained), or "" without a positive id. */
  function UdiOf(svc: Services, obj: seq<(string, Json)>): Option<string>
  {
    if NodeId(obj) > 0 then IdToUdi.TokenUdi(svc, KindOf(obj), true, TextOf(Lookup(obj, "id")).value) else Some("")
  }

  /** A positive id maps to the reference of the media node when "isMedia" is true, else of the document node. */
  lemma UdiOfFacts(svc: Services, obj: seq<(string, Json)>)
    ensures NodeId(obj) <= 0 ==> UdiOf(svc, obj) == Some("")
    ensures NodeId(obj) > 0 ==>
      UdiOf(svc, obj) == IdToUdi.Resolve(svc.repo, if ParseBool(TextOf(Lookup(obj, "isMedia"))) then Media else Document, NodeId(obj))
  {
  }

  /** The keys `Map` always removes. */
  predicate Dropped(k: string)
  {
    k == "caption" || k == "id" || k == "isMedia" || k == "icon"
  }

  /** A non-blank reference is stored in "udi" and "url" goes. */
  function Linked(obj: seq<(string, Json)>, udi: Option<string>): (r: seq<(string, Json)>)
    ensures !IsNullOrWhiteSpace(udi) ==> Lookup(r, "udi") == Some(JStr(udi.value)) && Lookup(r, "url").None?
    ensures IsNullOrWhiteSpace(udi) ==> r == obj
    ensures forall k :: k != "udi" && k != "url" ==> Lookup(r, k) == Lookup(obj, k)
  {
    if IsNullOrWhiteSpace(udi) then obj else Remove(Put(obj, "udi", JStr(udi.value)), "url")
  }

  /** A non-blank caption is stored in "name". */
  function Named(obj: seq<(string, Json)>): (r: seq<(string, Json)>)
    ensures var caption := TextOf(Lookup(obj, "caption"));
      (!IsNullOrWhiteSpace(caption) ==> Lookup(r, "name") == Some(JStr(caption.value)))
      && (IsNullOrWhiteSpace(caption) ==> r == obj)
    ensures forall k :: k != "name" ==> Lookup(r, k) == Lookup(obj, k)
  {
    var caption := TextOf(Lookup(obj, "caption"));
    if IsNullOrWhiteSpace(caption) then obj else Put(obj, "name", JStr(caption.value))
  }

  /** The legacy keys go. */
  function Stripped(obj: seq<(string, Json)>): (r: seq<(string, Json)>)
    ensures forall k :: Dropped(k) ==> Lookup(r, k).None?
    ensures forall k :: !Dropped(k) ==> Lookup(r, k) == Lookup(obj, k)
  {
    Remove(Remove(Remove(Remove(obj, "caption"), "id"), "isMedia"), "icon")
  }

  /** The edits of `Map` once the reference is known. */
  function Recode(obj: seq<(string, Json)>, udi: Option<string>): seq<(string, Json)>
  {
    Stripped(Named(Linked(obj, udi)))
  }

  lemma LinkedKeeps(obj: seq<(string, Json)>, udi: Option<string>, k: string)
    requires k != "udi" && k != "url"
    ensures Lookup(Linked(obj, udi), k) == Lookup(obj, k)
  {
  }

  lemma NamedKeeps(obj: seq<(string, Json)>, k: string)
    requires k != "name"
    ensures Lookup(Named(obj), k) == Lookup(obj, k)
  {
  }

  lemma StrippedKeeps(obj: seq<(string, Json)>, k: string)
    requires !Dropped(k)
    ensures Lookup(Stripped(obj), k) == Lookup(obj, k)
  {
  }

  lemma RecodeLinks(obj: seq<(string, Json)>, udi: Option<string>)
    ensures var r := Recode(obj, udi);
      (!IsNullOrWhiteSpace(udi) ==> Lookup(r, "udi") == Some(JStr(udi.value)) && Lookup(r, "url").None?)
      && (IsNullOrWhiteSpace(udi) ==> Lookup(r, "udi") == Lookup(obj, "udi") && Lookup(r, "url") == Lookup(obj, "url"))
  {
    var linked := Linked(obj, udi);
    var named := Named(linked);
    NamedKeeps(linked, "udi");
    NamedKeeps(linked, "url");
    StrippedKeeps(named, "udi");
    StrippedKeeps(named, "url");
  }

  lemma RecodeNames(obj: seq<(string, Json)>, udi: Option<string>)
    ensures var caption := TextOf(Lookup(obj, "caption"));
      (!IsNullOrWhiteSpace(caption) ==> Lookup(Recode(obj, udi), "name") == Some(JStr(caption.value)))
      && (IsNullOrWhiteSpace(caption) ==> Lookup(Recode(obj, udi), "name") == Lookup(obj, "name"))
  {
    var linked := Linked(obj, udi);
    var named := Named(linked);
    LinkedKeeps(obj, udi, "caption");
    LinkedKeeps(obj, udi, "name");
    StrippedKeeps(named, "name");
  }

  lemma RecodeKeeps(obj: seq<(string, Json)>, udi: Option<string>, k: string)
    requires !Dropped(k) && k != "udi" && k != "url" && k != "name"
    ensures Lookup(Recode(obj, udi), k) == Lookup(obj, k)
  {
    LinkedKeeps(obj, udi, k);
    NamedKeeps(Linked(obj, udi), k);
    StrippedKeeps(Named(Linked(obj, udi)), k);
  }

  /**
   * A non-blank reference is stored in "udi" and "url" goes; a non-blank
   * caption is stored in "name"; the legacy keys go; nothing else changes.
   */
  lemma RecodeFacts(obj: seq<(string, Json)>, udi: Option<string>)
    ensures var r := Recode(obj, udi);
      (forall k :: Dropped(k) ==> Lookup(r, k).None?)
      && (!IsNullOrWhiteSpace(udi) ==> Lookup(r, "udi") == Some(JStr(udi.value)) && Lookup(r, "url").None?)
      && (IsNullOrWhiteSpace(udi) ==> Lookup(r, "udi") == Lookup(obj, "udi") && Lookup(r, "url") == Lookup(obj, "url"))
      && (!IsNullOrWhiteSpace(TextOf(Lookup(obj, "caption"))) ==> Lookup(r, "name") == Some(JStr(TextOf(Lookup(obj, "caption")).value)))
      && (IsNullOrWhiteSpace(TextOf(Lookup(obj, "caption"))) ==> Lookup(r, "name") == Lookup(obj, "name"))
      && (forall k :: !Dropped(k) && k != "udi" && k != "url" && k != "name" ==> Lookup(r, k) == Lookup(obj, k))
  {
    RecodeLinks(obj, udi);
    RecodeNames(obj, udi);
    forall k | !Dropped(k) && k != "udi" && k != "url" && k != "name"
      ensures Lookup(Recode(obj, udi), k) == Lookup(obj, k)
    {
      RecodeKeeps(obj, udi, k);
    }
  }

  /** `RJPMultiUrlPickerTransform.Map(ctx, from)` with the reference answered without a cache. */
  function MapSpec(svc: Services, from: Value): Result<Value>
  {
    if !from.VStr? then Ok(from)
    else
      match svc.parseJson(from.s)
      case Err(e) => Err(e)
      case Ok(None) => Ok(from)
      case Ok(Some(j)) =>
        if !j.JObj? then Err(NotAnObject)
        else Ok(VStr(Serialize(JObj(Recode(j.props, UdiOf(svc, j.props))))))
  }

  /** A recoded link has none of the keys that drive the recoding, so recoding it again changes nothing. */
  lemma RecodeAgain(obj: seq<(string, Json)>, udi: Option<string>, svc: Services)
    ensures var once := Recode(obj, udi);
      UdiOf(svc, once) == Some("") && Recode(once, Some("")) == once
  {
    var once := Recode(obj, udi);
    assert Dropped("caption") && Dropped("id") && Dropped("isMedia") && Dropped("icon");
    RemoveAbsent(once, "caption");
    RemoveAbsent(once, "id");
    RemoveAbsent(once, "isMedia");
    RemoveAbsent(once, "icon");
  }

  /** When the parser reads back what `Map` wrote, mapping the result again gives the same text. */
  lemma MapIdempotent(svc: Services, from: Value)
    requires from.VStr? && svc.parseJson(from.s).Ok? && svc.parseJson(from.s).value.Some?
    requires var j := svc.parseJson(from.s).value.value;
      j.JObj? && var once := JObj(Recode(j.props, UdiOf(svc, j.props)));
      svc.parseJson(Serialize(once)) == Ok(Some(once))
    ensures MapSpec(svc, from).Ok? && MapSpec(svc, MapSpec(svc, from).value) == MapSpec(svc, from)
  {
    var j := svc.parseJson(from.s).value.value;
    RecodeAgain(j.props, UdiOf(svc, j.props), svc);
  }

  /** One answer of a sound cache is the cache-free answer. */
  lemma StepTransparent(svc: Services, t: BaseType, known: IdToUdi.Entries, tok: string)
    requires IdToUdi.Sound(svc.repo, t, known)
    ensures IdToUdi.Step(svc, t, true, known, tok).0 == IdToUdi.TokenUdi(svc, t, true, tok)
  {
  }

  /** The kind and id text `Map` asks the reference cache about: only a link that parses to an object with a positive id asks. */
  function Asked(svc: Services, from: Value): Option<(BaseType, string)>
  {
    if !from.VStr? then None
    else
      match svc.parseJson(from.s)
      case Ok(Some(j)) =>
        if j.JObj? && NodeId(j.props) > 0 then Some((KindOf(j.props), TextOf(Lookup(j.props, "id")).value)) else None
      case _ => None
  }

  /**
   * The reference `Map` stores for the link `obj`: "" without a positive
   * id, else what the shared cache answers for the id, which changes only
   * the kind's own cache, by one cache step.
   */
  method LinkUdi(svc: Services, cache: IdToUdi.UdiCache, obj: seq<(string, Json)>) returns (udi: Option<string>)
    modifies cache, cache.kinds.Values
    ensures (forall t :: t in old(cache.kinds) ==> IdToUdi.Sound(svc.repo, t, old(cache.kinds[t].entries))) ==> udi == UdiOf(svc, obj)
    ensures NodeId(obj) <= 0 ==>
      udi == Some("") && cache.kinds == old(cache.kinds) && forall u :: u in cache.kinds ==> cache.kinds[u].entries == old(cache.kinds[u].entries)
    ensures NodeId(obj) > 0 ==>
      var t := KindOf(obj);
      var before := if t in old(cache.kinds) then old(cache.kinds[t].entries) else map[];
      t in cache.kinds && (t in old(cache.kinds) ==> cache.kinds == old(cache.kinds))
      && (t !in old(cache.kinds) ==> cache.kinds == old(cache.kinds)[t := cache.kinds[t]])
      && cache.kinds[t].entries == IdToUdi.Step(svc, t, true, before, TextOf(Lookup(obj, "id")).value).1
      && forall u :: u in old(cache.kinds) && old(cache.kinds[u]) != cache.kinds[t] ==> cache.kinds[u].entries == old(cache.kinds[u].entries)
    ensures old(IdToUdi.CacheSound(svc.repo, cache.kinds)) ==> IdToUdi.CacheSound(svc.repo, cache.kinds)
  {
    ghost var sound := forall t :: t in cache.kinds ==> IdToUdi.Sound(svc.repo, t, cache.kinds[t].entries);
    udi := Some("");
    var idStr := TextOf(Lookup(obj, "id"));
    var parsedId := if idStr.Some? then ParseInt32(idStr.value) else None;
    var nodeId := if parsedId.Some? then parsedId.value else 0;
    if nodeId > 0 {
      var isMedia := ParseBool(TextOf(Lookup(obj, "isMedia")));
      var t := if isMedia then Media else Document;
      ghost var before := if t in cache.kinds then cache.kinds[t].entries else map[];
      udi := IdToUdi.MapToUdi(svc, idStr.value, t, true, cache);
      if sound {
        StepTransparent(svc, t, before, idStr.value);
      }
    }
  }

  /**
   * `Map(ctx, from)`: edits the parsed object in place, asking the shared
   * reference cache for the id; with a cache that agrees with the services
   * it is the cache-free `MapSpec`. A link that asks nothing leaves the
   * cache as it was; one that asks changes only its kind's cache, by one
   * cache step; a sound shared cache stays sound.
   */
  method Map(svc: Services, cache: IdToUdi.UdiCache, from: Value) returns (r: Result<Value>)
    modifies cache, cache.kinds.Values
    ensures (forall t :: t in old(cache.kinds) ==> IdToUdi.Sound(svc.repo, t, old(cache.kinds[t].entries))) ==> r == MapSpec(svc, from)
    ensures Asked(svc, from).None? ==>
      cache.kinds == old(cache.kinds) && forall u :: u in cache.kinds ==> cache.kinds[u].entries == old(cache.kinds[u].entries)
    ensures Asked(svc, from).Some? ==>
      var t := Asked(svc, from).value.0;
      var before := if t in old(cache.kinds) then old(cache.kinds[t].entries) else map[];
      t in cache.kinds && (t in old(cache.kinds) ==> cache.kinds == old(cache.kinds))
      && (t !in old(cache.kinds) ==> cache.kinds == old(cache.kinds)[t := cache.kinds[t]])
      && cache.kinds[t].entries == IdToUdi.Step(svc, t, true, before, Asked(svc, from).value.1).1
      && forall u :: u in old(cache.kinds) && old(cache.kinds[u]) != cache.kinds[t] ==> cache.kinds[u].entries == old(cache.kinds[u].entries)
    ensures old(IdToUdi.CacheSound(svc.repo, cache.kinds)) ==> IdToUdi.CacheSound(svc.repo, cache.kinds)
  {
    if !from.VStr? {
      return Ok(from);
    }
    var parsed := svc.parseJson(from.s);
    if parsed.Err? {
      return Err(parsed.error);
    }
    if parsed.value.None? {
      return Ok(from);
    }
    if !parsed.value.value.JObj? {
      return Err(NotAnObject);
    }
    var obj := parsed.value.value.props;
    var udi := LinkUdi(svc, cache, obj);
    obj := Rewrite(obj, udi);
    r := Ok(VStr(Serialize(JObj(obj))));
  }

  /** The edits of `Map` once the reference is known, in the order it makes them. */
  method Rewrite(obj0: seq<(string, Json)>, udi: Option<string>) returns (obj: seq<(string, Json)>)
    ensures obj == Recode(obj0, udi)
  {
    obj := obj0;
    if !IsNullOrWhiteSpace(udi) {
      obj := Put(obj, "udi", JStr(udi.value));
      obj := Remove(obj, "url");
    }
    assert obj == Linked(obj0, udi);
    var caption := TextOf(Lookup(obj, "caption"));
    if !IsNullOrWhiteSpace(caption) {
      obj := Put(obj, "name", JStr(caption.value));
    }
    assert obj == Named(Linked(obj0, udi));
    obj := Remove(obj, "caption");
    obj := Remove(obj, "id");
    obj := Remove(obj, "isMedia");
    obj := Remove(obj, "icon");
  }

  // ---------------------------------------------------------------- the array

  /**
   * `PropertySetter(token, index, value)`: nothing for a null array or an
   * index past the end; otherwise the text is parsed as an object (a null
   * text, a malformed one or a non-object throws) and stored at the index.
   */
  function PropertySetter(parse: Parse, o: Json, index: int, value: Option<string>): (r: Result<Json>)
    ensures (o.JNull? || (o.JArr? && |o.items| <= index)) ==> r == Ok(o)
    ensures r.Ok? && r.value != o ==>
      (o.JArr? && r.value.JArr? && |r.value.items| == |o.items| && 0 <= index < |o.items|
       && value.Some? && parse(value.value).Ok?
       && r.value.items[index] == parse(value.value).value.GetOr(JNull)
       && (r.value.items[index].JObj? || r.value.items[index].JNull?)
       && forall i :: 0 <= i < |o.items| && i != index ==> r.value.items[i] == o.items[i])
    ensures (o.JArr? && 0 <= index < |o.items| && value.Some? && parse(value.value).Ok?
      && (parse(value.value).value.None? || parse(value.value).value.value.JObj?)) ==>
      r == Ok(JArr(o.items[index := parse(value.value).value.GetOr(JNull)]))
    ensures (o.JArr? && index < |o.items|
      && (value.None? || parse(value.value).Err? || (parse(value.value).value.Some? && !parse(value.value).value.value.JObj?))) ==>
      r.Err?
    ensures (o.JArr? && index < 0 && value.Some? && parse(value.value).Ok?
      && (parse(value.value).value.None? || parse(value.value).value.value.JObj?)) ==>
      r.Err?
    ensures !o.JNull? && !o.JArr? ==> r.Err?
  {
    if o.JNull? then Ok(o)
    else if !o.JArr? then Err(NotAnArray)
    else if |o.items| <= index then Ok(o)
    else if value.None? then Err(NullText)
    else
      match parse(value.value)
      case Err(e) => Err(e)
      case Ok(p) =>
        if p.Some? && !p.value.JObj? then Err(NotAnObject)
        else if index < 0 then Err(OutOfRange)
        else Ok(JArr(o.items[index := p.GetOr(JNull)]))
  }

  /** `GetValuesAndSetters(token)`: the text of every item, in order, with the setter of its index. */
  function ValuesAndSetters(parse: Parse, token: Json): (r: Result<Option<seq<JsonContent.ValueAndSetter>>>)
    ensures token.JNull? ==> r == Err(NullReference)
    ensures !token.JNull? && !token.JArr? ==> r == Err(NotAnArray)
    ensures token.JArr? ==>
      (r.Ok? && r.value.Some? && |r.value.value| == |token.items|
       && forall i :: 0 <= i < |token.items| ==>
         r.value.value[i].0 == Some(TokenText(token.items[i]))
         && forall o, v :: r.value.value[i].1(o, v) == PropertySetter(parse, o, i, v))
  {
    if token.JNull? then Err(NullReference)
    else if !token.JArr? then Err(NotAnArray)
    else
      Ok(Some(seq(|token.items|, i requires 0 <= i < |token.items| =>
        (Some(TokenText(token.items[i])), (o: Json, v: Option<string>) => PropertySetter(parse, o, i, v)))))
  }

  // ---------------------------------------------------------------- the migrator

  /** `RJPMultiUrlPickerMigration`: the upgrader recodes a link; asking for the downgrader throws. */
  function Migration(): (m: PropertyMigration)
    ensures m.downgrader.Missing? && m.upgrader.Present? && m.upgrader.transform.get == TextGet
    ensures forall svc, v :: m.upgrader.transform.mapper(svc, v) == MapSpec(svc, v)
  {
    PropertyMigration(Present(PropertyTransform(TextGet, (svc: Services, v: Value) => MapSpec(svc, v))), Missing)
  }

  /** Downgrading a link throws. */
  lemma DowngradeThrows(svc: Services, site: JsonContent.Site)
    requires site.migration == Migration() && site.value.Some?
    ensures JsonContent.SiteOutcome(svc, false, site).Err?
  {
  }

  /** The one transform `GetJsonPropertyTransforms` yields. */
  function Transform(parse: Parse): JsonContent.JsonPropertyTransform
  {
    JsonContent.JsonPropertyTransform((token: Json) => ValuesAndSetters(parse, token), Migration())
  }

  /** The extractor never yields null, so the legacy runner agrees with the current one. */
  lemma TransformExtracts(parse: Parse)
    ensures LegacyJsonContent.Extracts([Transform(parse)])
  {
  }

  /**
   * The data type migrator: every data type needs migrating, with the one
   * transform; the editor alias changes, the database type and the
   * pre-values stay.
   */
  function AsMigrator(parse: Parse): (m: DataTypeMigration.Migrator)
    ensures forall d, p :: m.needsMigration(d, p)
    ensures forall d, p, retain :: m.propertyMigration(d, p, retain).Ok? && m.propertyMigration(d, p, retain).value.Some?
    ensures forall d, p :: m.newEditorAlias(d, p) == Ok(EditorAlias)
    ensures forall d: DataTypeMigration.DataTypeDefinition, p :: m.newDatabaseType(d, p) == Ok(d.databaseType) && m.newPreValues(d, p) == Ok(Some(p))
  {
    var base := LegacyJsonContent.AsMigrator(LegacyJsonContent.JsonContentMigrator((d, p) => Some([Transform(parse)])));
    base.(newEditorAlias := (d, p) => Ok(EditorAlias))
  }
}
