/**
 * The maps migrator (`MapsMigrator`): a value "lat,lng,zoom" becomes the
 * JSON document of the Google Maps editor "Our.Umbraco.GMaps", with the
 * coordinates both as the address and as the centre of the map, the
 * "roadmap" map type and zoom level 17. Anything else is left as it is.
 */
module Maps {
  import opened Wrappers
  import opened Text
  import opened Json
  import opened Platform
  import opened Transforms
  import DataTypeMigration

  /** `GetNewPropertyEditorAlias`. */
  const EditorAlias: string := "Our.Umbraco.GMaps"
  const MapType: string := "roadmap"
  const Zoom: int := 17

  /** `Coordinates`: "lat" then "lng", in declaration order. */
  function Coordinates(lat: string, lng: string): Json
  {
    JObj([("lat", JStr(lat)), ("lng", JStr(lng))])
  }

  /** The `MapsDto` `Map` serialises. */
  function Dto(lat: string, lng: string): Json
  {
    JObj([
      ("address", JObj([("coordinates", Coordinates(lat, lng))])),
      ("mapconfig", JObj([("zoom", JNum(Zoom)), ("maptype", JStr(MapType)), ("centerCoordinates", Coordinates(lat, lng))]))])
  }

  /** `MapsTransform.Map(ctx, from)`: `from.ToString()` throws on null. */
  function MapSpec(from: Value): Result<Value>
  {
    if from.VNull? then Err(NullReference)
    else
      var text := ValueText(from).value;
      if IsBlank(text) then Ok(from)
      else
        var coordinates := SplitNonEmpty(text, ',');
        if |coordinates| == 3 then Ok(VStr(Serialize(Dto(coordinates[0], coordinates[1])))) else Ok(from)
  }

  /** The address and the centre of the map hold the same coordinates; the map type and zoom are fixed. */
  lemma DtoFacts(lat: string, lng: string)
    ensures var d := Dto(lat, lng);
      Navigate(d, [Prop("address"), Prop("coordinates"), Prop("lat")]) == Ok(Some(JStr(lat)))
      && Navigate(d, [Prop("address"), Prop("coordinates"), Prop("lng")]) == Ok(Some(JStr(lng)))
      && Navigate(d, [Prop("mapconfig"), Prop("centerCoordinates")]) == Navigate(d, [Prop("address"), Prop("coordinates")])
      && Navigate(d, [Prop("mapconfig"), Prop("maptype")]) == Ok(Some(JStr("roadmap")))
      && Navigate(d, [Prop("mapconfig"), Prop("zoom")]) == Ok(Some(JNum(17)))
  {
    DtoAddress(lat, lng);
    DtoMapConfig(lat, lng);
  }

  lemma DtoAddress(lat: string, lng: string)
    ensures var d := Dto(lat, lng);
      Navigate(d, [Prop("address"), Prop("coordinates")]) == Ok(Some(Coordinates(lat, lng)))
      && Navigate(d, [Prop("address"), Prop("coordinates"), Prop("lat")]) == Ok(Some(JStr(lat)))
      && Navigate(d, [Prop("address"), Prop("coordinates"), Prop("lng")]) == Ok(Some(JStr(lng)))
  {
    var d := Dto(lat, lng);
    var c := Coordinates(lat, lng);
    var a := JObj([("coordinates", c)]);
    assert Lookup(d.props, "address") == Some(a);
    assert Lookup(a.props, "coordinates") == Some(c);
    assert c.props[1..] == [("lng", JStr(lng))];
    assert Lookup(c.props, "lng") == Some(JStr(lng));
    NavigateTwo(d, "address", "coordinates", a, c);
    NavigateThree(d, "address", "coordinates", "lat", a, c, JStr(lat));
    NavigateThree(d, "address", "coordinates", "lng", a, c, JStr(lng));
  }

  lemma DtoMapConfig(lat: string, lng: string)
    ensures var d := Dto(lat, lng);
      Navigate(d, [Prop("mapconfig"), Prop("centerCoordinates")]) == Ok(Some(Coordinates(lat, lng)))
      && Navigate(d, [Prop("mapconfig"), Prop("maptype")]) == Ok(Some(JStr("roadmap")))
      && Navigate(d, [Prop("mapconfig"), Prop("zoom")]) == Ok(Some(JNum(17)))
  {
    var d := Dto(lat, lng);
    var c := Coordinates(lat, lng);
    var mc := JObj([("zoom", JNum(Zoom)), ("maptype", JStr(MapType)), ("centerCoordinates", c)]);
    assert Lookup(d.props, "mapconfig") == Some(mc);
    assert mc.props[1..] == [("maptype", JStr(MapType)), ("centerCoordinates", c)];
    assert mc.props[1..][1..] == [("centerCoordinates", c)];
    assert Lookup(mc.props[1..][1..], "centerCoordinates") == Some(c);
    assert Lookup(mc.props[1..], "centerCoordinates") == Some(c);
    assert Lookup(mc.props, "centerCoordinates") == Some(c);
    assert Lookup(mc.props, "maptype") == Some(JStr("roadmap"));
    assert Lookup(mc.props, "zoom") == Some(JNum(17));
    NavigateTwo(d, "mapconfig", "centerCoordinates", mc, c);
    NavigateTwo(d, "mapconfig", "maptype", mc, JStr("roadmap"));
    NavigateTwo(d, "mapconfig", "zoom", mc, JNum(17));
  }

  lemma NavigateTwo(d: Json, k1: string, k2: string, a: Json, b: Json)
    requires d.JObj? && Lookup(d.props, k1) == Some(a) && a.JObj? && Lookup(a.props, k2) == Some(b)
    ensures Navigate(d, [Prop(k1), Prop(k2)]) == Ok(Some(b))
  {
    assert Index(d, Prop(k1)) == Ok(Some(a)) && Index(a, Prop(k2)) == Ok(Some(b));
    assert [Prop(k1), Prop(k2)][1..] == [Prop(k2)];
    assert [Prop(k2)][1..] == [];
    assert Navigate(b, []) == Ok(Some(b));
  }

  lemma NavigateThree(d: Json, k1: string, k2: string, k3: string, a: Json, b: Json, c: Json)
    requires d.JObj? && Lookup(d.props, k1) == Some(a) && a.JObj? && Lookup(a.props, k2) == Some(b)
    requires b.JObj? && Lookup(b.props, k3) == Some(c)
    ensures Navigate(d, [Prop(k1), Prop(k2), Prop(k3)]) == Ok(Some(c))
  {
    assert [Prop(k1), Prop(k2), Prop(k3)][1..] == [Prop(k2), Prop(k3)];
    NavigateTwo(a, k2, k3, b, c);
  }

  /**
   * Three comma-separated parts: the first is the latitude, the second the
   * longitude, and the third is dropped.
   */
  lemma {:induction false} ThreeParts(lat: string, lng: string, third: string)
    requires IsTokenList([lat, lng, third], ',')
    ensures MapSpec(VStr(Join([lat, lng, third], ','))) == Ok(VStr(Serialize(Dto(lat, lng))))
  {
    var text := Join([lat, lng, third], ',');
    SplitNonEmptyJoin([lat, lng, third], ',');
    assert [lat, lng, third][1..] == [lng, third] && [lng, third][1..] == [third];
    assert Join([lng, third], ',') == lng + [','] + third;
    assert text == lat + [','] + (lng + [','] + third);
    assert text[|lat|] == ',' && !IsWhiteSpace(',');
  }

  /** Any other number of parts leaves the value as it is. */
  lemma OtherShapes(from: Value)
    requires !from.VNull? && |SplitNonEmpty(ValueText(from).value, ',')| != 3
    ensures MapSpec(from) == Ok(from)
  {
  }

  /** `MapsMigration`: the upgrader reads the raw value; the downgrader is null. */
  function Migration(): (m: PropertyMigration)
    ensures m.downgrader.Missing? && m.upgrader.Present? && m.upgrader.transform.get == RawGet
    ensures forall svc, v :: m.upgrader.transform.mapper(svc, v) == MapSpec(v)
  {
    PropertyMigration(Present(PropertyTransform(RawGet, (svc: Services, v: Value) => MapSpec(v))), Missing)
  }

  /** The maps migrator: every data type needs migrating, to the GMaps editor; the database type and pre-values stay. */
  function AsMigrator(): (m: DataTypeMigration.Migrator)
    ensures forall d, p :: m.needsMigration(d, p)
    ensures forall d, p, retain :: m.propertyMigration(d, p, retain) == Ok(Some(Migration()))
    ensures forall d, p :: m.newEditorAlias(d, p) == Ok(EditorAlias)
    ensures forall d: DataTypeMigration.DataTypeDefinition, p :: m.newDatabaseType(d, p) == Ok(d.databaseType) && m.newPreValues(d, p) == Ok(Some(p))
  {
    DataTypeMigration.Migrator(
      (d, p) => true,
      (d, p, retain: bool) => Ok(Some(Migration())),
      (d: DataTypeMigration.DataTypeDefinition, p) => Ok(d.databaseType),
      (d, p) => Ok(EditorAlias),
      (d, p) => Ok(Some(p)))
  }
}
