/**
 * The legacy JSON content migrator. It runs nested values through their
 * inner migrations exactly as the current one does (the one-value step,
 * the virtual node and the inner loop are shared with `JsonContent`), but
 * it does not guard against a transform without an extractor, or one whose
 * extractor yields null: enumerating that throws.
 */
module LegacyJsonContent {
  import opened Wrappers
  import opened Text
  import opened Json
  import opened Platform
  import opened Transforms
  import JsonContent
  import DataTypeMigration

  type JsonPropertyTransform = JsonContent.JsonPropertyTransform
  type Run = JsonContent.Run

  /**
   * The nested values one transform finds: enumerating a missing extractor,
   * or the null it yields, throws.
   */
  function SitesOf(t: JsonPropertyTransform, token: Json): Result<seq<JsonContent.Site>>
  {
    match t.valuesAndSetters(token)
    case Err(e) => Err(e)
    case Ok(None) => Err(NullReference)
    case Ok(Some(pairs)) => Ok(JsonContent.WithMigration(pairs, t.migration))
  }

  /** The outer loop, running the shared inner loop for each transform. */
  function RunTransforms(svc: Services, upgrading: bool, ts: seq<JsonPropertyTransform>, st: Run): Result<Run>
  {
    if ts == [] then Ok(st)
    else
      match RunTransforms(svc, upgrading, ts[..|ts| - 1], st)
      case Err(e) => Err(e)
      case Ok(s) =>
        match SitesOf(ts[|ts| - 1], s.0)
        case Err(e) => Err(e)
        case Ok(sites) => JsonContent.RunSites(svc, upgrading, sites, s)
  }

  /** `JsonTransform.Map(ctx, from)` of the legacy migrator. */
  function MapSpec(svc: Services, upgrading: bool, ts: seq<JsonPropertyTransform>, from: Value): Result<Value>
  {
    var val := ValueText(from);
    if IsNullOrWhiteSpace(val) then Ok(from)
    else
      match svc.parseJson(val.value)
      case Err(e) => Err(e)
      case Ok(tok) =>
        match RunTransforms(svc, upgrading, ts, (tok.GetOr(JNull), false))
        case Err(e) => Err(e)
        case Ok(s) => Ok(if s.1 then VStr(Serialize(s.0)) else from)
  }

  /** The current migrator's transformers for the same transforms. */
  function Transformers(ts: seq<JsonPropertyTransform>): (r: seq<JsonContent.JsonTransformer>)
    ensures |r| == |ts| && forall i :: 0 <= i < |ts| ==> r[i] == JsonContent.AsTransformer(ts[i])
  {
    seq(|ts|, i requires 0 <= i < |ts| => JsonContent.AsTransformer(ts[i]))
  }

  /** No extractor is missing or yields null, whatever the tree. */
  ghost predicate Extracts(ts: seq<JsonPropertyTransform>)
  {
    forall t, tok: Json :: t in ts ==> !(t.valuesAndSetters(tok).Ok? && t.valuesAndSetters(tok).value.None?)
  }

  lemma {:induction false} RunTransformsAgree(svc: Services, upgrading: bool, ts: seq<JsonPropertyTransform>, st: Run)
    requires Extracts(ts)
    ensures RunTransforms(svc, upgrading, ts, st) == JsonContent.RunTransforms(svc, upgrading, Transformers(ts), st)
  {
    if ts != [] {
      var front := ts[..|ts| - 1];
      assert forall t :: t in front ==> t in ts;
      RunTransformsAgree(svc, upgrading, front, st);
      assert Transformers(ts)[..|ts| - 1] == Transformers(front);
      assert ts[|ts| - 1] in ts;
    }
  }

  /** When every extractor yields its values, the legacy `Map` is the current one. */
  lemma MapAgrees(svc: Services, upgrading: bool, ts: seq<JsonPropertyTransform>, from: Value)
    requires Extracts(ts)
    ensures MapSpec(svc, upgrading, ts, from) == JsonContent.MapSpec(svc, upgrading, Transformers(ts), from)
  {
    var val := ValueText(from);
    if !IsNullOrWhiteSpace(val) && svc.parseJson(val.value).Ok? {
      RunTransformsAgree(svc, upgrading, ts, (svc.parseJson(val.value).value.GetOr(JNull), false));
    }
  }

  /** A first transform whose extractor yields null on the parsed tree makes `Map` throw. */
  lemma MapThrowsWithoutValues(svc: Services, upgrading: bool, ts: seq<JsonPropertyTransform>, from: Value)
    requires !IsNullOrWhiteSpace(ValueText(from)) && svc.parseJson(ValueText(from).value).Ok?
    requires ts != [] && ts[0].valuesAndSetters(svc.parseJson(ValueText(from).value).value.GetOr(JNull)) == Ok(None)
    ensures MapSpec(svc, upgrading, ts, from) == Err(NullReference)
  {
    var st := (svc.parseJson(ValueText(from).value).value.GetOr(JNull), false);
    assert ts[..1][..0] == [];
    RunTransformsErrSticky(svc, upgrading, ts, st, 1);
  }

  lemma {:induction false} RunTransformsErrSticky(svc: Services, upgrading: bool, ts: seq<JsonPropertyTransform>, st: Run, i: int)
    requires 0 <= i <= |ts| && RunTransforms(svc, upgrading, ts[..i], st).Err?
    ensures RunTransforms(svc, upgrading, ts, st) == RunTransforms(svc, upgrading, ts[..i], st)
    decreases |ts| - i
  {
    if i < |ts| {
      var front := ts[..|ts| - 1];
      assert front[..i] == ts[..i];
      RunTransformsErrSticky(svc, upgrading, front, st, i);
    } else {
      assert ts[..i] == ts;
    }
  }

  /** `JsonTransform.Map(ctx, from)`: the `ForEach` over the transforms. */
  method Map(upgrading: bool, ts: seq<JsonPropertyTransform>, svc: Services, from: Value) returns (r: Result<Value>)
    ensures r == MapSpec(svc, upgrading, ts, from)
  {
    var val := ValueText(from);
    if IsNullOrWhiteSpace(val) {
      return Ok(from);
    }
    var parsed := svc.parseJson(val.value);
    if parsed.Err? {
      return Err(parsed.error);
    }
    var token0 := parsed.value.GetOr(JNull);
    var token := token0;
    var changed := false;
    var i := 0;
    while i < |ts|
      invariant 0 <= i <= |ts|
      invariant RunTransforms(svc, upgrading, ts[..i], (token0, false)) == Ok((token, changed))
    {
      assert ts[..i + 1][..i] == ts[..i];
      var found := SitesOf(ts[i], token);
      if found.Err? {
        RunTransformsErrSticky(svc, upgrading, ts, (token0, false), i + 1);
        return Err(found.error);
      }
      var res := JsonContent.ApplySites(svc, upgrading, found.value, token, changed);
      if res.Err? {
        RunTransformsErrSticky(svc, upgrading, ts, (token0, false), i + 1);
        return Err(res.error);
      }
      token := res.value.0;
      changed := res.value.1;
      i := i + 1;
    }
    assert ts[..i] == ts;
    r := Ok(if changed then VStr(Serialize(token)) else from);
  }

  /** `new JsonMigration(transforms)` of the legacy migrator. */
  function JsonMigration(ts: seq<JsonPropertyTransform>): (m: PropertyMigration)
    ensures m.upgrader.Present? && m.downgrader.Present?
    ensures forall svc, v :: m.upgrader.transform.mapper(svc, v) == MapSpec(svc, true, ts, v)
    ensures forall svc, v :: m.downgrader.transform.mapper(svc, v) == MapSpec(svc, false, ts, v)
  {
    PropertyMigration(
      Present(PropertyTransform(TextGet, (svc: Services, v: Value) => MapSpec(svc, true, ts, v))),
      Present(PropertyTransform(TextGet, (svc: Services, v: Value) => MapSpec(svc, false, ts, v))))
  }

  /** A legacy JSON content migrator: what its `GetJsonPropertyTransforms` returns (`None` for null). */
  datatype JsonContentMigrator = JsonContentMigrator(
    transformsOf: (DataTypeMigration.DataTypeDefinition, DataTypeMigration.PreValues) -> Option<seq<JsonPropertyTransform>>)

  /**
   * The migrator as the data type migration sees it: a migration is
   * needed exactly when transforms are found; the database type, the
   * pre-values and the editor alias are kept.
   */
  function AsMigrator(jm: JsonContentMigrator): (m: DataTypeMigration.Migrator)
    ensures forall d, p, retain :: m.needsMigration(d, p) <==> m.propertyMigration(d, p, retain).Ok? && m.propertyMigration(d, p, retain).value.Some?
    ensures forall d, p :: m.newDatabaseType(d, p) == Ok(d.databaseType) && m.newEditorAlias(d, p) == Ok(d.editorAlias) && m.newPreValues(d, p) == Ok(Some(p))
  {
    DataTypeMigration.Migrator(
      (d, p) => jm.transformsOf(d, p).Some? && jm.transformsOf(d, p).value != [],
      (d, p, retain: bool) =>
        var ts := jm.transformsOf(d, p);
        Ok(if ts.Some? && ts.value != [] then Some(JsonMigration(ts.value)) else None),
      (d: DataTypeMigration.DataTypeDefinition, p) => Ok(d.databaseType),
      (d: DataTypeMigration.DataTypeDefinition, p) => Ok(d.editorAlias),
      (d, p) => Ok(Some(p)))
  }
}
