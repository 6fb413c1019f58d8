/**
 * The JSON content migrator (`JsonContentMigrator`, `JsonMigration`,
 * `JsonTransform`): a property whose value is JSON text is parsed, each
 * JSON property transform picks out nested values together with a setter
 * that writes a value back into the tree, every nested value is run
 * through an inner property migration on a one-property virtual node, and
 * the tree is serialised again only when some nested value changed.
 */
module JsonContent {
  import opened Wrappers
  import opened Text
  import opened Guids
  import opened Json
  import opened Platform
  import opened Transforms

  /**
   * An `Action<T, string>`: writes a text (possibly null) into the tree in
   * place; here it returns the new tree, or `Err` when it throws.
   */
  type Setter = (Json, Option<string>) -> Result<Json>

  /** A nested value found in the tree and the setter that writes it back. */
  type ValueAndSetter = (Option<string>, Setter)

  /**
   * One element of `GetPropertyValuesMigrationsAndSetters`: a nested value,
   * the migration to run it through (a null migration has both transforms
   * `Missing`) and its setter.
   */
  datatype Site = Site(value: Option<string>, migration: PropertyMigration, setter: Setter)

  /**
   * An `IJsonPropertyTransform`: the nested values it finds in a tree;
   * `Ok(None)` when it yields null, `Err` when finding them throws.
   */
  datatype JsonTransformer = JsonTransformer(sitesOf: Json -> Result<Option<seq<Site>>>)

  /**
   * `JsonPropertyTransform`: the extractor `PropertyValuesAndSetters`
   * (`Ok(None)` when it is null or returns null) and the migration given to
   * every value it finds.
   */
  datatype JsonPropertyTransform = JsonPropertyTransform(
    valuesAndSetters: Json -> Result<Option<seq<ValueAndSetter>>>,
    migration: PropertyMigration)

  /** Each found value with the transform's migration. */
  function WithMigration(pairs: seq<ValueAndSetter>, m: PropertyMigration): (r: seq<Site>)
    ensures |r| == |pairs|
    ensures forall i :: 0 <= i < |pairs| ==> r[i] == Site(pairs[i].0, m, pairs[i].1)
  {
    seq(|pairs|, i requires 0 <= i < |pairs| => Site(pairs[i].0, m, pairs[i].1))
  }

  /** `JsonPropertyTransform.GetPropertyValuesMigrationsAndSetters`: nothing when there is no extractor or it yields null. */
  function AsTransformer(t: JsonPropertyTransform): JsonTransformer
  {
    JsonTransformer((token: Json) =>
      match t.valuesAndSetters(token)
      case Err(e) => Err(e)
      case Ok(None) => Ok(Some([]))
      case Ok(Some(pairs)) => Ok(Some(WithMigration(pairs, t.migration))))
  }

  /** The tree and the `changed` flag while `Map` runs. */
  type Run = (Json, bool)

  // ---------------------------------------------------------------- the virtual node

  /** The `VirtualContent` node that holds one nested value. */
  class VirtualContent {
    var value: Value
    var valueChanged: bool

    constructor (value: Value)
      ensures this.value == value && !valueChanged
    {
      this.value := value;
      valueChanged := false;
    }

    function View(): ContentView
      reads this
    {
      Virtual(value)
    }

    /**
     * `SetValue(alias, value)`: throws for any property but "Value"; stores
     * the text of the value unless it equals the current text, and marks
     * the node dirty when it stores.
     */
    method SetValue(field: string, v: Value) returns (r: Result<()>)
      modifies this
      ensures r.Ok? <==> HasProperty(Virtual(old(value)), field)
      ensures r.Ok? ==> Transforms.SetValue(Virtual(old(value)), field, v) == Ok(Virtual(value))
      ensures r.Err? ==> value == old(value)
      ensures valueChanged == (old(valueChanged) || (r.Ok? && ValueText(v) != ValueText(old(value))))
    {
      if !HasProperty(Virtual(value), field) {
        return Err("not a valid property for this type");
      }
      var val := ValueText(v);
      var cur := ValueText(value);
      if val == cur {
        return Ok(());
      }
      valueChanged := true;
      value := match val case None => VNull case Some(s) => VStr(s);
      r := Ok(());
    }
  }

  /** After a write to the virtual node, its value has the text of the value written. */
  lemma SetValueText(field: string, cur: Value, v: Value, w: Value)
    requires Transforms.SetValue(Virtual(cur), field, v) == Ok(Virtual(w))
    ensures ValueText(w) == ValueText(v)
    ensures GetString(Virtual(w), field) == Ok(match ValueText(v) case None => VNull case Some(s) => VStr(s))
  {
  }

  // ---------------------------------------------------------------- one nested value

  /** What happens to one nested value: nothing, or the setter is called with a text. */
  datatype Outcome = Keep | Write(text: Option<string>)

  /**
   * The body of the inner loop for one nested value: a null value is
   * skipped; the value is read through the inner transform's `TryGet` on a
   * virtual node, mapped, and, when the mapped value differs from the read
   * one, written to the node, whose text then goes to the setter.
   */
  function SiteOutcome(svc: Services, upgrading: bool, site: Site): Result<Outcome>
  {
    if site.value.None? then Ok(Keep)
    else
      match Direction(site.migration, upgrading)
      case Missing => Err(NullReference)
      case Present(tr) =>
        match TryGet(tr.get, Virtual(VStr(site.value.value)), ValuePropertyName)
        case Err(e) => Err(e)
        case Ok(None) => Ok(Keep)
        case Ok(Some(fr)) =>
          match tr.mapper(svc, fr)
          case Err(e) => Err(e)
          case Ok(to) => if Unchanged(fr, to) then Ok(Keep) else Ok(Write(ValueText(to)))
  }

  /**
   * A nested value is written exactly when the inner transform reads it
   * and maps it to a different value; what the setter receives is the text
   * of the mapped value, which for a string is that string.
   */
  lemma SiteOutcomeWrites(svc: Services, upgrading: bool, site: Site)
    ensures var o := SiteOutcome(svc, upgrading, site);
      Writes(o) <==>
        (site.value.Some? && Direction(site.migration, upgrading).Present?
         && var tr := Direction(site.migration, upgrading).transform;
            var g := TryGet(tr.get, Virtual(VStr(site.value.value)), ValuePropertyName);
            g.Ok? && g.value.Some? && tr.mapper(svc, g.value.value).Ok? && tr.mapper(svc, g.value.value).value != g.value.value)
    ensures var o := SiteOutcome(svc, upgrading, site);
      Writes(o) ==>
        var tr := Direction(site.migration, upgrading).transform;
        var g := TryGet(tr.get, Virtual(VStr(site.value.value)), ValuePropertyName);
        var to := tr.mapper(svc, g.value.value).value;
        o.value.text == ValueText(to) && (to.VStr? ==> o.value.text == Some(to.s))
  {
    if site.value.Some? && Direction(site.migration, upgrading).Present? {
      var tr := Direction(site.migration, upgrading).transform;
      var g := TryGet(tr.get, Virtual(VStr(site.value.value)), ValuePropertyName);
      if g.Ok? && g.value.Some? && tr.mapper(svc, g.value.value).Ok? {
        UnchangedIffEqual(g.value.value, tr.mapper(svc, g.value.value).value);
      }
    }
  }

  predicate Writes(o: Result<Outcome>)
  {
    o.Ok? && o.value.Write?
  }

  /** The effect of one outcome on the tree and the flag; a throwing setter throws. */
  function Apply(st: Run, o: Result<Outcome>, setter: Setter): Result<Run>
  {
    match o
    case Err(e) => Err(e)
    case Ok(Keep) => Ok(st)
    case Ok(Write(t)) =>
      match setter(st.0, t)
      case Err(e) => Err(e)
      case Ok(j) => Ok((j, true))
  }

  // ---------------------------------------------------------------- the loops

  /** The inner loop over the nested values one transform found. */
  function RunSites(svc: Services, upgrading: bool, sites: seq<Site>, st: Run): Result<Run>
  {
    if sites == [] then Ok(st)
    else
      match RunSites(svc, upgrading, sites[..|sites| - 1], st)
      case Err(e) => Err(e)
      case Ok(s) => Apply(s, SiteOutcome(svc, upgrading, sites[|sites| - 1]), sites[|sites| - 1].setter)
  }

  /** The nested values a transform finds in the tree; none when it yields null. */
  function SitesOf(t: JsonTransformer, token: Json): Result<seq<Site>>
  {
    match t.sitesOf(token)
    case Err(e) => Err(e)
    case Ok(found) => Ok(found.GetOr([]))
  }

  /** The outer loop over the transforms; each finds its nested values in the tree as the earlier ones left it. */
  function RunTransforms(svc: Services, upgrading: bool, ts: seq<JsonTransformer>, st: Run): Result<Run>
  {
    if ts == [] then Ok(st)
    else
      match RunTransforms(svc, upgrading, ts[..|ts| - 1], st)
      case Err(e) => Err(e)
      case Ok(s) =>
        match SitesOf(ts[|ts| - 1], s.0)
        case Err(e) => Err(e)
        case Ok(sites) => RunSites(svc, upgrading, sites, s)
  }

  /**
   * `JsonTransform.Map(ctx, from)`: a blank value is returned as it is;
   * the text is parsed (the text "null" gives a null tree) and the
   * transforms run; the result is the serialised tree when some nested
   * value changed, and `from` otherwise.
   */
  function MapSpec(svc: Services, upgrading: bool, ts: seq<JsonTransformer>, from: Value): Result<Value>
  {
    var val := ValueText(from);
    if IsNullOrWhiteSpace(val) then Ok(from)
    else
      match svc.parseJson(val.value)
      case Err(e) => Err(e)
      case Ok(tok) =>
        match RunTransforms(svc, upgrading, ts, (tok.GetOr(JNull), false))
        case Err(e) => Err(e)
        case Ok(s) => Ok(if s.1 then VStr(Serialize(s.0)) else from)
  }

  // ---------------------------------------------------------------- properties of the loops

  /** Once a prefix of the nested values throws, the whole loop throws the same. */
  lemma {:induction false} RunSitesErrSticky(svc: Services, upgrading: bool, sites: seq<Site>, st: Run, i: int)
    requires 0 <= i <= |sites| && RunSites(svc, upgrading, sites[..i], st).Err?
    ensures RunSites(svc, upgrading, sites, st) == RunSites(svc, upgrading, sites[..i], st)
    decreases |sites| - i
  {
    if i < |sites| {
      var front := sites[..|sites| - 1];
      assert front[..i] == sites[..i];
      RunSitesErrSticky(svc, upgrading, front, st, i);
    } else {
      assert sites[..i] == sites;
    }
  }

  lemma {:induction false} RunTransformsErrSticky(svc: Services, upgrading: bool, ts: seq<JsonTransformer>, st: Run, i: int)
    requires 0 <= i <= |ts| && RunTransforms(svc, upgrading, ts[..i], st).Err?
    ensures RunTransforms(svc, upgrading, ts, st) == RunTransforms(svc, upgrading, ts[..i], st)
    decreases |ts| - i
  {
    if i < |ts| {
      var front := ts[..|ts| - 1];
      assert front[..i] == ts[..i];
      RunTransformsErrSticky(svc, upgrading, front, st, i);
    } else {
      assert ts[..i] == ts;
    }
  }

  /**
   * The inner loop throws when some nested value's outcome throws; when it
   * does not throw, the flag ends up set exactly when it was set before or
   * some nested value was written, and a loop that writes nothing leaves
   * the tree as it was.
   */
  lemma {:induction false} RunSitesFacts(svc: Services, upgrading: bool, sites: seq<Site>, st: Run)
    ensures (exists i :: 0 <= i < |sites| && SiteOutcome(svc, upgrading, sites[i]).Err?) ==>
      RunSites(svc, upgrading, sites, st).Err?
    ensures var r := RunSites(svc, upgrading, sites, st);
      r.Ok? ==> (r.value.1 <==> st.1 || exists i :: 0 <= i < |sites| && Writes(SiteOutcome(svc, upgrading, sites[i])))
    ensures var r := RunSites(svc, upgrading, sites, st);
      (forall i :: 0 <= i < |sites| ==> SiteOutcome(svc, upgrading, sites[i]) == Ok(Keep)) ==> r == Ok(st)
  {
    if sites != [] {
      var front := sites[..|sites| - 1];
      RunSitesFacts(svc, upgrading, front, st);
      assert forall i :: 0 <= i < |front| ==> front[i] == sites[i];
    }
  }

  /** A blank value is returned as it is, whatever the transforms. */
  lemma MapBlank(svc: Services, upgrading: bool, ts: seq<JsonTransformer>, from: Value)
    requires IsNullOrWhiteSpace(ValueText(from))
    ensures MapSpec(svc, upgrading, ts, from) == Ok(from)
  {
  }

  /** A transform that, in any tree, finds nested values without throwing and keeps every one of them. */
  ghost predicate Inert(svc: Services, upgrading: bool, t: JsonTransformer)
  {
    forall tok: Json :: SitesOf(t, tok).Ok?
      && forall i :: 0 <= i < |SitesOf(t, tok).value| ==> SiteOutcome(svc, upgrading, SitesOf(t, tok).value[i]) == Ok(Keep)
  }

  lemma {:induction false} RunTransformsInert(svc: Services, upgrading: bool, ts: seq<JsonTransformer>, st: Run)
    requires forall t :: t in ts ==> Inert(svc, upgrading, t)
    ensures RunTransforms(svc, upgrading, ts, st) == Ok(st)
  {
    if ts != [] {
      var front := ts[..|ts| - 1];
      var last := ts[|ts| - 1];
      assert forall t :: t in front ==> t in ts;
      RunTransformsInert(svc, upgrading, front, st);
      assert last in ts;
      RunSitesFacts(svc, upgrading, SitesOf(last, st.0).value, st);
    }
  }

  /** When every transform is inert, `Map` returns its input unless the text does not parse. */
  lemma MapInert(svc: Services, upgrading: bool, ts: seq<JsonTransformer>, from: Value)
    requires forall t :: t in ts ==> Inert(svc, upgrading, t)
    ensures MapSpec(svc, upgrading, ts, from).Ok? ==> MapSpec(svc, upgrading, ts, from) == Ok(from)
    ensures !IsNullOrWhiteSpace(ValueText(from)) && svc.parseJson(ValueText(from).value).Ok? ==> MapSpec(svc, upgrading, ts, from) == Ok(from)
  {
    var val := ValueText(from);
    if !IsNullOrWhiteSpace(val) && svc.parseJson(val.value).Ok? {
      RunTransformsInert(svc, upgrading, ts, (svc.parseJson(val.value).value.GetOr(JNull), false));
    }
  }

  /** The outer loop over one more transform. */
  lemma RunTransformsSnoc(svc: Services, upgrading: bool, ts: seq<JsonTransformer>, st: Run, i: int, s: Run)
    requires 0 <= i < |ts| && RunTransforms(svc, upgrading, ts[..i], st) == Ok(s)
    ensures RunTransforms(svc, upgrading, ts[..i + 1], st) ==
      match SitesOf(ts[i], s.0)
      case Err(e) => Err(e)
      case Ok(sites) => RunSites(svc, upgrading, sites, s)
  {
    assert ts[..i + 1][..i] == ts[..i];
  }

  /** The inner loop over one more nested value. */
  lemma RunSitesSnoc(svc: Services, upgrading: bool, sites: seq<Site>, st: Run, i: int, s: Run)
    requires 0 <= i < |sites| && RunSites(svc, upgrading, sites[..i], st) == Ok(s)
    ensures RunSites(svc, upgrading, sites[..i + 1], st) == Apply(s, SiteOutcome(svc, upgrading, sites[i]), sites[i].setter)
  {
    assert sites[..i + 1][..i] == sites[..i];
  }

  // ---------------------------------------------------------------- the transform

  /** The body of the inner `foreach`, over one transform's nested values. */
  method ApplySites(svc: Services, upgrading: bool, sites: seq<Site>, token0: Json, changed0: bool)
    returns (r: Result<Run>)
    ensures r == RunSites(svc, upgrading, sites, (token0, changed0))
  {
    var token := token0;
    var changed := changed0;
    var i := 0;
    while i < |sites|
      invariant 0 <= i <= |sites|
      invariant RunSites(svc, upgrading, sites[..i], (token0, changed0)) == Ok((token, changed))
    {
      RunSitesSnoc(svc, upgrading, sites, (token0, changed0), i, (token, changed));
      var site := sites[i];
      if site.value.Some? {
        var slot := Direction(site.migration, upgrading);
        if slot.Missing? {
          RunSitesErrSticky(svc, upgrading, sites, (token0, changed0), i + 1);
          return Err(NullReference);
        }
        var tr := slot.transform;
        var vc := new VirtualContent(VStr(site.value.value));
        var got := TryGet(tr.get, vc.View(), ValuePropertyName);
        if got.Err? {
          RunSitesErrSticky(svc, upgrading, sites, (token0, changed0), i + 1);
          return Err(got.error);
        }
        if got.value.Some? {
          var fr := got.value.value;
          var mapped := tr.mapper(svc, fr);
          if mapped.Err? {
            RunSitesErrSticky(svc, upgrading, sites, (token0, changed0), i + 1);
            return Err(mapped.error);
          }
          var to := mapped.value;
          if !Unchanged(fr, to) {
            var written := vc.SetValue(ValuePropertyName, to);
            SetValueText(ValuePropertyName, VStr(site.value.value), to, vc.value);
            changed := true;
            var updated := site.setter(token, ValueText(vc.value));
            if updated.Err? {
              RunSitesErrSticky(svc, upgrading, sites, (token0, changed0), i + 1);
              return Err(updated.error);
            }
            token := updated.value;
          }
        }
      }
      i := i + 1;
    }
    assert sites[..i] == sites;
    r := Ok((token, changed));
  }

  /** `JsonTransform`: the transforms and the direction. */
  datatype JsonTransform = JsonTransform(upgrading: bool, transforms: seq<JsonTransformer>)

  /** `JsonTransform.Map(ctx, from)`. */
  method Map(jt: JsonTransform, svc: Services, from: Value) returns (r: Result<Value>)
    ensures r == MapSpec(svc, jt.upgrading, jt.transforms, from)
  {
    var val := ValueText(from);
    if IsNullOrWhiteSpace(val) {
      return Ok(from);
    }
    var parsed := svc.parseJson(val.value);
    if parsed.Err? {
      return Err(parsed.error);
    }
    var token0 := parsed.value.GetOr(JNull);
    var token := token0;
    var changed := false;
    var ts := jt.transforms;
    var i := 0;
    while i < |ts|
      invariant 0 <= i <= |ts|
      invariant RunTransforms(svc, jt.upgrading, ts[..i], (token0, false)) == Ok((token, changed))
    {
      RunTransformsSnoc(svc, jt.upgrading, ts, (token0, false), i, (token, changed));
      var found := ts[i].sitesOf(token);
      if found.Err? {
        RunTransformsErrSticky(svc, jt.upgrading, ts, (token0, false), i + 1);
        return Err(found.error);
      }
      if found.value.Some? {
        var res := ApplySites(svc, jt.upgrading, found.value.value, token, changed);
        if res.Err? {
          RunTransformsErrSticky(svc, jt.upgrading, ts, (token0, false), i + 1);
          return Err(res.error);
        }
        token := res.value.0;
        changed := res.value.1;
      }
      i := i + 1;
    }
    assert ts[..i] == ts;
    r := Ok(if changed then VStr(Serialize(token)) else from);
  }

  /** The transform `JsonTransform` is as a property transform: read as text, mapped by `Map`. */
  function AsPropertyTransform(jt: JsonTransform): PropertyTransform
  {
    PropertyTransform(TextGet, (svc: Services, v: Value) => MapSpec(svc, jt.upgrading, jt.transforms, v))
  }

  /** `new JsonMigration(transforms)`: both directions share the transforms. */
  function JsonMigration(ts: seq<JsonTransformer>): (m: PropertyMigration)
    ensures m.upgrader.Present? && m.downgrader.Present?
    ensures m.upgrader.transform.get == TextGet && m.downgrader.transform.get == TextGet
    ensures forall svc, v :: m.upgrader.transform.mapper(svc, v) == MapSpec(svc, true, ts, v)
    ensures forall svc, v :: m.downgrader.transform.mapper(svc, v) == MapSpec(svc, false, ts, v)
  {
    PropertyMigration(Present(AsPropertyTransform(JsonTransform(true, ts))), Present(AsPropertyTransform(JsonTransform(false, ts))))
  }

  // ---------------------------------------------------------------- the migrator

  /** What the migrator reads of a data type: its editor alias and its configuration. */
  datatype DataType = DataType(editorAlias: string, configuration: Json)

  /** A JSON content migrator: what its `GetJsonPropertyTransforms` returns (`None` for null). */
  datatype JsonContentMigrator = JsonContentMigrator(transformsOf: (DataType, bool) -> Option<seq<JsonTransformer>>)

  /** `NeedsMigration`: some transform is found, asking with invalid data dropped. */
  predicate NeedsMigration(jm: JsonContentMigrator, dt: DataType)
  {
    jm.transformsOf(dt, false).Some? && jm.transformsOf(dt, false).value != []
  }

  /** `GetPropertyMigration`: a JSON migration over the transforms found, or none when there are none. */
  function GetPropertyMigration(jm: JsonContentMigrator, dt: DataType, retainInvalidData: bool): (r: Option<PropertyMigration>)
    ensures r.Some? <==> jm.transformsOf(dt, retainInvalidData).Some? && jm.transformsOf(dt, retainInvalidData).value != []
  {
    var ts := jm.transformsOf(dt, retainInvalidData);
    if ts.Some? && ts.value != [] then Some(JsonMigration(ts.value)) else None
  }

  /** A data type needs migrating exactly when the migration built with invalid data dropped exists. */
  lemma NeedsMigrationIffMigration(jm: JsonContentMigrator, dt: DataType)
    ensures NeedsMigration(jm, dt) <==> GetPropertyMigration(jm, dt, false).Some?
  {
  }

  // ---------------------------------------------------------------- the memo of nested migrations

  /** A data type migrator as the memo uses it. */
  datatype TypeMigrator = TypeMigrator(
    needsMigration: DataType -> bool,
    propertyMigration: (DataType, bool) -> Option<PropertyMigration>)

  /** The data type service and the migrator factory. */
  datatype Environment = Environment(dataTypeOf: Guid -> Option<DataType>, create: string -> Option<TypeMigrator>)

  /**
   * The migration `GetValidPropertyMigration` computes for a data type key
   * it has not seen: none when the text is not a guid, no data type has
   * it, no migrator exists or the migrator says no migration is needed;
   * otherwise the migrator's property migration.
   */
  function Resolve(env: Environment, text: string, retainInvalidData: bool): Option<PropertyMigration>
  {
    match ParseGuid(text)
    case None => None
    case Some(g) =>
      match env.dataTypeOf(g)
      case None => None
      case Some(dt) =>
        match env.create(dt.editorAlias)
        case None => None
        case Some(m) => if !m.needsMigration(dt) then None else m.propertyMigration(dt, retainInvalidData)
  }

  /** The memo's key: the dictionary compares keys ignoring case. */
  function Key(text: string): string
  {
    Lower(text)
  }

  /** `GetValidPropertyMigration(guid, retain)` against a memo: the answer and the memo afterwards. */
  function ValidSpec(known: map<string, Option<PropertyMigration>>, env: Environment, dataTypeGuid: Option<string>,
                     retainInvalidData: bool): (Option<PropertyMigration>, map<string, Option<PropertyMigration>>)
  {
    if dataTypeGuid.None? then (None, known)
    else
      var key := Key(dataTypeGuid.value);
      if key in known then (known[key], known)
      else
        var m := Resolve(env, dataTypeGuid.value, retainInvalidData);
        (m, known[key := m])
  }

  /** Every remembered answer is what some spelling of its key resolved to, with some retain flag. */
  ghost predicate Sound(known: map<string, Option<PropertyMigration>>, env: Environment)
  {
    forall k :: k in known ==> exists text: string, retain: bool :: Key(text) == k && known[k] == Resolve(env, text, retain)
  }

  /**
   * A key is resolved once: asking again, in any spelling and with either
   * retain flag, returns the remembered answer and changes nothing; and
   * the memo stays sound.
   */
  lemma ValidMemoised(known: map<string, Option<PropertyMigration>>, env: Environment, g: string, again: string,
                      retain: bool, retainAgain: bool)
    requires Sound(known, env)
    requires Key(again) == Key(g)
    ensures var first := ValidSpec(known, env, Some(g), retain);
      Sound(first.1, env)
      && first.1.Keys == known.Keys + {Key(g)}
      && (Key(g) !in known ==> first.0 == Resolve(env, g, retain))
      && ValidSpec(first.1, env, Some(again), retainAgain) == first
  {
    var key := Key(g);
    if key in known {
      ValidSpecKnown(known, env, g, retain);
      ValidSpecKnown(known, env, again, retainAgain);
      assert known.Keys + {key} == known.Keys;
    } else {
      var m := Resolve(env, g, retain);
      var after := known[key := m];
      ValidSpecNew(known, env, g, retain);
      SoundRemember(known, env, g, retain, m);
      ValidSpecKnown(after, env, again, retainAgain);
    }
  }

  lemma ValidSpecKnown(known: map<string, Option<PropertyMigration>>, env: Environment, text: string, retain: bool)
    requires Key(text) in known
    ensures ValidSpec(known, env, Some(text), retain) == (known[Key(text)], known)
  {
  }

  lemma ValidSpecNew(known: map<string, Option<PropertyMigration>>, env: Environment, text: string, retain: bool)
    requires Key(text) !in known
    ensures ValidSpec(known, env, Some(text), retain) == (Resolve(env, text, retain), known[Key(text) := Resolve(env, text, retain)])
  {
  }

  /** Remembering what a spelling of a new key resolves to keeps the memo sound. */
  lemma SoundRemember(known: map<string, Option<PropertyMigration>>, env: Environment, g: string, retain: bool,
                      m: Option<PropertyMigration>)
    requires Sound(known, env) && m == Resolve(env, g, retain)
    ensures Sound(known[Key(g) := m], env)
  {
    var after := known[Key(g) := m];
    forall k | k in after
      ensures exists text: string, r: bool :: Key(text) == k && after[k] == Resolve(env, text, r)
    {
      if k == Key(g) {
        assert Key(g) == k && after[k] == Resolve(env, g, retain);
      } else {
        var text: string, r: bool :| Key(text) == k && known[k] == Resolve(env, text, r);
        assert after[k] == Resolve(env, text, r);
      }
    }
  }

  /** The lookups `GetValidPropertyMigration` makes for a key it has not seen. */
  method ResolveGuid(env: Environment, text: string, retainInvalidData: bool) returns (migration: Option<PropertyMigration>)
    ensures migration == Resolve(env, text, retainInvalidData)
  {
    var guid := ParseGuid(text);
    if guid.None? {
      return None;
    }
    var dt := env.dataTypeOf(guid.value);
    if dt.None? {
      return None;
    }
    var migrator := env.create(dt.value.editorAlias);
    if migrator.Some? && !migrator.value.needsMigration(dt.value) {
      return None;
    }
    migration := if migrator.Some? then migrator.value.propertyMigration(dt.value, retainInvalidData) else None;
  }

  /** The static `KnownValidMigrators` memo. */
  class KnownValidMigrators {
    var known: map<string, Option<PropertyMigration>>

    constructor ()
      ensures known == map[]
    {
      known := map[];
    }

    method GetValidPropertyMigration(env: Environment, dataTypeGuid: Option<string>, retainInvalidData: bool)
      returns (migration: Option<PropertyMigration>)
      modifies this
      ensures migration == ValidSpec(old(known), env, dataTypeGuid, retainInvalidData).0
      ensures known == ValidSpec(old(known), env, dataTypeGuid, retainInvalidData).1
    {
      if dataTypeGuid.None? {
        return None;
      }
      var key := Key(dataTypeGuid.value);
      if key in known {
        return known[key];
      }
      migration := ResolveGuid(env, dataTypeGuid.value, retainInvalidData);
      known := known[key := migration];
    }
  }
}
