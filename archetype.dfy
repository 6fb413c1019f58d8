/**
 * The Archetype migrator (`ArchetypeMigrator`, editor "Imulus.Archetype").
 * An Archetype value is a JSON object whose "fieldsets" array holds
 * fieldsets, each with a "properties" array of objects carrying an
 * "alias", a "value" and, in the configuration, a "dataTypeGuid". The
 * configuration gives one JSON property transform per property alias whose
 * nested data type needs migrating; the extractor of that transform visits,
 * in order, every property of a value with that alias, and its setter
 * writes the new text back into `fieldsets[f].properties[p].value`.
 */
module Archetype {
  import opened Wrappers
  import opened Text
  import opened Json
  import opened Transforms
  import JsonContent

  // ---------------------------------------------------------------- the path of one property

  /** The object of `fieldsets[f].properties[p]`, when that path exists with those shapes. */
  function PropertyAt(token: Json, f: int, p: int): Option<seq<(string, Json)>>
  {
    if !token.JObj? then None
    else
      var sets := AsArray(Lookup(token.props, "fieldsets"));
      if sets.None? || !(0 <= f < |sets.value|) || !sets.value[f].JObj? then None
      else
        var props := AsArray(Lookup(sets.value[f].props, "properties"));
        if props.None? || !(0 <= p < |props.value|) || !props.value[p].JObj? then None
        else Some(props.value[p].props)
  }

  /** The tree with `str` stored as the "value" of the property at an existing path. */
  function WriteValue(token: Json, f: int, p: int, str: Option<string>): Json
    requires PropertyAt(token, f, p).Some?
  {
    var sets := AsArray(Lookup(token.props, "fieldsets")).value;
    JObj(Put(token.props, "fieldsets", JArr(sets[f := WrittenFieldSet(token, f, p, str)])))
  }

  /** Fieldset `f` with `str` stored as the "value" of its property `p`. */
  function WrittenFieldSet(token: Json, f: int, p: int, str: Option<string>): Json
    requires PropertyAt(token, f, p).Some?
  {
    var sets := AsArray(Lookup(token.props, "fieldsets")).value;
    var props := AsArray(Lookup(sets[f].props, "properties")).value;
    var property := JObj(Put(props[p].props, "value", FromText(str)));
    JObj(Put(sets[f].props, "properties", JArr(props[p := property])))
  }

  /**
   * `PropertySetter(token, f, p, value)` as it is written: the guards
   * `fieldSets.Count < fieldSetIndex` and `properties.Count < propertyIndex`
   * let an index equal to the count, or a negative one, through to the
   * list indexer, which throws.
   */
  function PropertySetterAsWritten(token: Json, f: int, p: int, str: Option<string>): Result<Json>
  {
    if !token.JObj? then Ok(token)
    else
      var sets := AsArray(Lookup(token.props, "fieldsets"));
      if sets.None? || |sets.value| < f then Ok(token)
      else if f < 0 || f == |sets.value| then Err(OutOfRange)
      else if !sets.value[f].JObj? then Ok(token)
      else
        var props := AsArray(Lookup(sets.value[f].props, "properties"));
        if props.None? || |props.value| < p then Ok(token)
        else if p < 0 || p == |props.value| then Err(OutOfRange)
        else if !props.value[p].JObj? then Ok(token)
        else Ok(WriteValue(token, f, p, str))
  }

  /**
   * `PropertySetter` as intended: a null tree, a wrong shape or an index
   * outside either list leaves the tree alone; otherwise only that
   * property's "value" is written.
   */
  function PropertySetter(token: Json, f: int, p: int, str: Option<string>): (r: Result<Json>)
    ensures r.Ok?
  {
    if PropertyAt(token, f, p).Some? then Ok(WriteValue(token, f, p, str)) else Ok(token)
  }

  /** The setter is a no-op exactly where the path does not exist. */
  lemma SetterNoPath(token: Json, f: int, p: int, str: Option<string>)
    requires PropertyAt(token, f, p).None?
    ensures PropertySetter(token, f, p, str) == Ok(token)
  {
  }

  /**
   * The setter writes the property at its path: that property's "value"
   * becomes the text, its other keys and every other property stay as they
   * were, and so do the keys of the tree other than "fieldsets".
   */
  lemma SetterWrites(token: Json, f: int, p: int, str: Option<string>, f': int, p': int)
    requires PropertyAt(token, f, p).Some?
    ensures var t := PropertySetter(token, f, p, str).value;
      t.JObj?
      && PropertyAt(t, f, p) == Some(Put(PropertyAt(token, f, p).value, "value", FromText(str)))
      && Lookup(PropertyAt(t, f, p).value, "value") == Some(FromText(str))
      && ((f', p') != (f, p) ==> PropertyAt(t, f', p') == PropertyAt(token, f', p'))
      && (forall k :: k != "fieldsets" ==> Lookup(t.props, k) == Lookup(token.props, k))
  {
    assert PropertySetter(token, f, p, str).value == WriteValue(token, f, p, str);
    WriteValueAt(token, f, p, str, f', p');
  }

  /** The tree `WriteValue` builds, read back at any path and at any other key. */
  lemma WriteValueAt(token: Json, f: int, p: int, str: Option<string>, f': int, p': int)
    requires PropertyAt(token, f, p).Some?
    ensures var t := WriteValue(token, f, p, str);
      t.JObj?
      && PropertyAt(t, f, p) == Some(Put(PropertyAt(token, f, p).value, "value", FromText(str)))
      && Lookup(PropertyAt(t, f, p).value, "value") == Some(FromText(str))
      && ((f', p') != (f, p) ==> PropertyAt(t, f', p') == PropertyAt(token, f', p'))
      && (forall k :: k != "fieldsets" ==> Lookup(t.props, k) == Lookup(token.props, k))
  {
    WriteValueShape(token, f, p, str);
    if (f', p') != (f, p) {
      WriteValueElsewhere(token, f, p, str, f', p');
    }
  }

  /** The fieldsets and the properties of the written tree. */
  lemma WriteValueShape(token: Json, f: int, p: int, str: Option<string>)
    requires PropertyAt(token, f, p).Some?
    ensures var sets := AsArray(Lookup(token.props, "fieldsets")).value;
      var props := AsArray(Lookup(sets[f].props, "properties")).value;
      var property := JObj(Put(props[p].props, "value", FromText(str)));
      var fieldSet := JObj(Put(sets[f].props, "properties", JArr(props[p := property])));
      var t := WriteValue(token, f, p, str);
      t.JObj?
      && Lookup(t.props, "fieldsets") == Some(JArr(sets[f := fieldSet]))
      && Lookup(fieldSet.props, "properties") == Some(JArr(props[p := property]))
      && PropertyAt(t, f, p) == Some(Put(PropertyAt(token, f, p).value, "value", FromText(str)))
      && Lookup(PropertyAt(t, f, p).value, "value") == Some(FromText(str))
      && (forall k :: k != "fieldsets" ==> Lookup(t.props, k) == Lookup(token.props, k))
  {
    var sets := AsArray(Lookup(token.props, "fieldsets")).value;
    var props := AsArray(Lookup(sets[f].props, "properties")).value;
    var property := JObj(Put(props[p].props, "value", FromText(str)));
    var fieldSet := JObj(Put(sets[f].props, "properties", JArr(props[p := property])));
    var sets' := sets[f := fieldSet];
    var props' := props[p := property];
    var t := WriteValue(token, f, p, str);
    assert t == JObj(Put(token.props, "fieldsets", JArr(sets')));
    assert AsArray(Lookup(t.props, "fieldsets")) == Some(sets');
    assert sets'[f] == fieldSet;
    assert AsArray(Lookup(fieldSet.props, "properties")) == Some(props');
    assert props'[p] == property;
    assert PropertyAt(t, f, p) == Some(property.props);
  }

  lemma WriteValueElsewhere(token: Json, f: int, p: int, str: Option<string>, f': int, p': int)
    requires PropertyAt(token, f, p).Some? && (f', p') != (f, p)
    ensures PropertyAt(WriteValue(token, f, p, str), f', p') == PropertyAt(token, f', p')
  {
    if f' != f {
      WriteValueOtherFieldSet(token, f, p, str, f', p');
    } else {
      WriteValueOtherProperty(token, f, p, str, p');
    }
  }

  lemma WriteValueOtherFieldSet(token: Json, f: int, p: int, str: Option<string>, f': int, p': int)
    requires PropertyAt(token, f, p).Some? && f' != f
    ensures PropertyAt(WriteValue(token, f, p, str), f', p') == PropertyAt(token, f', p')
  {
    var sets := AsArray(Lookup(token.props, "fieldsets")).value;
    var sets' := sets[f := WrittenFieldSet(token, f, p, str)];
    var t := WriteValue(token, f, p, str);
    assert t.JObj? && AsArray(Lookup(t.props, "fieldsets")) == Some(sets');
    assert |sets'| == |sets|;
    if 0 <= f' < |sets| {
      assert sets'[f'] == sets[f'];
    }
  }

  lemma WriteValueOtherProperty(token: Json, f: int, p: int, str: Option<string>, p': int)
    requires PropertyAt(token, f, p).Some? && p' != p
    ensures PropertyAt(WriteValue(token, f, p, str), f, p') == PropertyAt(token, f, p')
  {
    var sets := AsArray(Lookup(token.props, "fieldsets")).value;
    var props := AsArray(Lookup(sets[f].props, "properties")).value;
    var fieldSet := WrittenFieldSet(token, f, p, str);
    var props' := props[p := JObj(Put(props[p].props, "value", FromText(str)))];
    var t := WriteValue(token, f, p, str);
    assert t.JObj? && AsArray(Lookup(t.props, "fieldsets")) == Some(sets[f := fieldSet]);
    assert sets[f := fieldSet][f] == fieldSet;
    assert fieldSet.JObj? && AsArray(Lookup(fieldSet.props, "properties")) == Some(props');
    assert |props'| == |props|;
    if 0 <= p' < |props| {
      assert props'[p'] == props[p'];
    }
  }

  /** Reading back the "value" of the property just written gives the text written. */
  lemma SetterRoundTrip(token: Json, f: int, p: int, str: string)
    requires PropertyAt(token, f, p).Some?
    ensures var t := PropertySetter(token, f, p, Some(str)).value;
      PropertyAt(t, f, p).Some? && TextOf(Lookup(PropertyAt(t, f, p).value, "value")) == Some(str)
  {
    SetterWrites(token, f, p, Some(str), f, p);
  }

  /** Wherever the path exists, the setter as written and as intended do the same. */
  lemma AsWrittenAgrees(token: Json, f: int, p: int, str: Option<string>)
    requires PropertyAt(token, f, p).Some?
    ensures PropertySetterAsWritten(token, f, p, str) == PropertySetter(token, f, p, str)
  {
  }

  /** The setter as written either throws or does what the intended one does. */
  lemma AsWrittenThrowsOrAgrees(token: Json, f: int, p: int, str: Option<string>)
    ensures PropertySetterAsWritten(token, f, p, str).Err?
      || PropertySetterAsWritten(token, f, p, str) == PropertySetter(token, f, p, str)
  {
  }

  /** On `{"fieldsets":[]}` with indices 0 and 0 the setter as written throws; the intended one returns. */
  lemma AsWrittenThrowsAtCount()
    ensures PropertySetterAsWritten(JObj([("fieldsets", JArr([]))]), 0, 0, Some("x")) == Err(OutOfRange)
    ensures PropertySetter(JObj([("fieldsets", JArr([]))]), 0, 0, Some("x")) == Ok(JObj([("fieldsets", JArr([]))]))
  {
    assert Lookup([("fieldsets", JArr([]))], "fieldsets") == Some(JArr([]));
  }

  // ---------------------------------------------------------------- the extractor

  /** A property the extractor visits: its fieldset and property indices and its value text. */
  datatype Match = Match(f: int, p: int, value: Option<string>)

  /** The walk over one fieldset's properties, with the property index `pIdx`; `Err` when indexing throws. */
  function PropertyMatches(props: seq<Child>, f: int, alias: string): Result<seq<Match>>
  {
    if props == [] then Ok([])
    else
      match PropertyMatches(props[..|props| - 1], f, alias)
      case Err(e) => Err(e)
      case Ok(ms) =>
        var c := props[|props| - 1];
        match ChildIndex(c, "alias")
        case Err(e) => Err(e)
        case Ok(a) =>
          if TextOf(a) == Some(alias) then Ok(ms + [Match(f, |props| - 1, TextOf(Field(c, "value")))])
          else Ok(ms)
  }

  /** The walk over the fieldsets, with the fieldset index `fIdx`. */
  function FieldSetMatches(sets: seq<Child>, alias: string): Result<seq<Match>>
  {
    if sets == [] then Ok([])
    else
      match FieldSetMatches(sets[..|sets| - 1], alias)
      case Err(e) => Err(e)
      case Ok(ms) =>
        var c := sets[|sets| - 1];
        match ChildIndex(c, "properties")
        case Err(e) => Err(e)
        case Ok(None) => Ok(ms)
        case Ok(Some(props)) =>
          match PropertyMatches(Children(props), |sets| - 1, alias)
          case Err(e) => Err(e)
          case Ok(more) => Ok(ms + more)
  }

  /** The properties `GetValuesAndSetters(token, alias)` visits: none for a null tree or one without fieldsets. */
  function Matches(token: Json, alias: string): Result<seq<Match>>
  {
    match token
    case JNull => Ok([])
    case JObj(props) =>
      (match Lookup(props, "fieldsets")
       case None => Ok([])
       case Some(sets) => FieldSetMatches(Children(sets), alias))
    case _ => Err(CannotAccessChild)
  }

  /** The setter bound to one property's indices. */
  function Setter(f: int, p: int): JsonContent.Setter
  {
    (o: Json, str: Option<string>) => PropertySetter(o, f, p, str)
  }

  /** `GetValuesAndSetters(token, alias)`: the value text and the setter of every visited property. */
  function GetValuesAndSetters(token: Json, alias: string): Result<Option<seq<JsonContent.ValueAndSetter>>>
  {
    match Matches(token, alias)
    case Err(e) => Err(e)
    case Ok(ms) => Ok(Some(seq(|ms|, i requires 0 <= i < |ms| => (ms[i].value, Setter(ms[i].f, ms[i].p)))))
  }

  /** The property at `(f, p)` exists and has the alias. */
  predicate Visited(token: Json, alias: string, f: int, p: int)
  {
    PropertyAt(token, f, p).Some? && TextOf(Lookup(PropertyAt(token, f, p).value, "alias")) == Some(alias)
  }

  /** Fieldset-major, then property order. */
  predicate Before(a: Match, b: Match)
  {
    a.f < b.f || (a.f == b.f && a.p < b.p)
  }

  predicate Ordered(ms: seq<Match>)
  {
    forall i, j :: 0 <= i < j < |ms| ==> Before(ms[i], ms[j])
  }

  /** `m` is the property at index `m.p` of the children `props` of fieldset `f`, with the alias. */
  predicate InProperties(props: seq<Child>, f: int, alias: string, m: Match)
  {
    m.f == f && 0 <= m.p < |props| && props[m.p].Item? && props[m.p].item.JObj?
    && TextOf(Lookup(props[m.p].item.props, "alias")) == Some(alias)
    && m.value == TextOf(Lookup(props[m.p].item.props, "value"))
  }

  /** `m` is a property with the alias in the "properties" array of fieldset `m.f` of the children `sets`. */
  predicate InFieldSets(sets: seq<Child>, alias: string, m: Match)
  {
    0 <= m.f < |sets| && sets[m.f].Item? && sets[m.f].item.JObj?
    && AsArray(Lookup(sets[m.f].item.props, "properties")).Some?
    && InProperties(Children(JArr(AsArray(Lookup(sets[m.f].item.props, "properties")).value)), m.f, alias, m)
  }

  lemma {:induction false} PropertyMatchesFacts(props: seq<Child>, f: int, alias: string)
    requires PropertyMatches(props, f, alias).Ok?
    ensures var ms := PropertyMatches(props, f, alias).value;
      Ordered(ms) && forall m :: m in ms <==> InProperties(props, f, alias, m)
  {
    if props != [] {
      var front := props[..|props| - 1];
      var c := props[|props| - 1];
      PropertyMatchesStep(props, f, alias);
      PropertyMatchesFacts(front, f, alias);
      var ms := PropertyMatches(front, f, alias).value;
      InPropertiesFront(props, f, alias);
      InPropertiesLast(props, f, alias);
      if TextOf(ChildIndex(c, "alias").value) == Some(alias) {
        OrderedSnoc(ms, Match(f, |front|, TextOf(Field(c, "value"))));
      }
    }
  }

  /** One step of the property walk: the last property is added when its alias is the one sought. */
  lemma PropertyMatchesStep(props: seq<Child>, f: int, alias: string)
    requires props != [] && PropertyMatches(props, f, alias).Ok?
    ensures PropertyMatches(props[..|props| - 1], f, alias).Ok? && ChildIndex(props[|props| - 1], "alias").Ok?
    ensures var ms := PropertyMatches(props[..|props| - 1], f, alias).value;
      var c := props[|props| - 1];
      PropertyMatches(props, f, alias).value ==
        if TextOf(ChildIndex(c, "alias").value) == Some(alias) then ms + [Match(f, |props| - 1, TextOf(Field(c, "value")))]
        else ms
  {
  }

  lemma InPropertiesFront(props: seq<Child>, f: int, alias: string)
    requires props != []
    ensures forall m :: InProperties(props[..|props| - 1], f, alias, m) <==> InProperties(props, f, alias, m) && m.p < |props| - 1
  {
    var front := props[..|props| - 1];
    assert forall q :: 0 <= q < |front| ==> props[q] == front[q];
  }

  lemma InPropertiesLast(props: seq<Child>, f: int, alias: string)
    requires props != [] && ChildIndex(props[|props| - 1], "alias").Ok?
    ensures var c := props[|props| - 1];
      forall m: Match :: m.p == |props| - 1 ==>
        (InProperties(props, f, alias, m) <==>
         TextOf(ChildIndex(c, "alias").value) == Some(alias) && m == Match(f, |props| - 1, TextOf(Field(c, "value"))))
  {
  }

  lemma OrderedSnoc(ms: seq<Match>, x: Match)
    requires Ordered(ms) && forall m :: m in ms ==> m.f == x.f && m.p < x.p
    ensures Ordered(ms + [x])
  {
    forall i, j | 0 <= i < j < |ms + [x]|
      ensures Before((ms + [x])[i], (ms + [x])[j])
    {
      if j == |ms| {
        assert ms[i] in ms;
      }
    }
  }

  /** One step of the fieldset walk: the last fieldset adds the matches of its "properties" children. */
  lemma FieldSetMatchesStep(sets: seq<Child>, alias: string)
    requires sets != [] && FieldSetMatches(sets, alias).Ok?
    ensures FieldSetMatches(sets[..|sets| - 1], alias).Ok? && ChildIndex(sets[|sets| - 1], "properties").Ok?
    ensures var ms := FieldSetMatches(sets[..|sets| - 1], alias).value;
      var props := ChildIndex(sets[|sets| - 1], "properties").value;
      FieldSetMatches(sets, alias).value ==
        if props.None? then ms
        else ms + PropertyMatches(Children(props.value), |sets| - 1, alias).value
    ensures var props := ChildIndex(sets[|sets| - 1], "properties").value;
      props.Some? ==> PropertyMatches(Children(props.value), |sets| - 1, alias).Ok?
  {
  }

  lemma {:induction false} FieldSetMatchesFacts(sets: seq<Child>, alias: string)
    requires FieldSetMatches(sets, alias).Ok?
    ensures var ms := FieldSetMatches(sets, alias).value;
      Ordered(ms) && forall m :: m in ms <==> InFieldSets(sets, alias, m)
  {
    if sets != [] {
      var front := sets[..|sets| - 1];
      var last := |sets| - 1;
      FieldSetMatchesStep(sets, alias);
      FieldSetMatchesFacts(front, alias);
      FrontFieldSets(sets, alias);
      var ms := FieldSetMatches(front, alias).value;
      var props := ChildIndex(sets[last], "properties").value;
      if props.Some? {
        var more := PropertyMatches(Children(props.value), last, alias).value;
        PropertyMatchesFacts(Children(props.value), last, alias);
        LastFieldSet(sets, alias, props.value);
        OrderedConcat(ms, more, last);
      } else {
        NoPropertiesLast(sets, alias);
      }
    }
  }

  /** A match in the fieldsets before the last is one in all of them, and conversely. */
  lemma FrontFieldSets(sets: seq<Child>, alias: string)
    requires sets != []
    ensures forall m :: InFieldSets(sets[..|sets| - 1], alias, m) <==> InFieldSets(sets, alias, m) && m.f < |sets| - 1
  {
    assert forall q :: 0 <= q < |sets| - 1 ==> sets[q] == sets[..|sets| - 1][q];
  }

  /** A last fieldset without "properties" holds no match. */
  lemma NoPropertiesLast(sets: seq<Child>, alias: string)
    requires sets != [] && ChildIndex(sets[|sets| - 1], "properties") == Ok(None)
    ensures forall m: Match :: m.f == |sets| - 1 ==> !InFieldSets(sets, alias, m)
  {
  }

  lemma OrderedConcat(ms: seq<Match>, more: seq<Match>, f: int)
    requires Ordered(ms) && Ordered(more)
    requires forall m :: m in ms ==> m.f < f
    requires forall m :: m in more ==> m.f == f
    ensures Ordered(ms + more)
  {
    forall i, j | 0 <= i < j < |ms + more|
      ensures Before((ms + more)[i], (ms + more)[j])
    {
      if j >= |ms| && i < |ms| {
        assert ms[i] in ms;
        assert more[j - |ms|] in more;
      }
    }
  }

  /** The matches of the last fieldset are the matches of its "properties" children. */
  lemma LastFieldSet(sets: seq<Child>, alias: string, props: Json)
    requires sets != [] && ChildIndex(sets[|sets| - 1], "properties") == Ok(Some(props))
    ensures forall m: Match :: m.f == |sets| - 1 ==> (InFieldSets(sets, alias, m) <==> InProperties(Children(props), |sets| - 1, alias, m))
  {
  }

  /**
   * The extractor visits, fieldset by fieldset and in order, exactly the
   * properties whose alias is the one asked for (compared with case), and
   * reads each one's "value".
   */
  lemma MatchesVisits(token: Json, alias: string)
    requires Matches(token, alias).Ok?
    ensures var ms := Matches(token, alias).value;
      Ordered(ms)
      && (forall m :: m in ms ==> Visited(token, alias, m.f, m.p) && m.value == TextOf(Lookup(PropertyAt(token, m.f, m.p).value, "value")))
      && (forall f, p :: Visited(token, alias, f, p) ==> exists m :: m in ms && m.f == f && m.p == p)
  {
    if token.JObj? && Lookup(token.props, "fieldsets").Some? {
      var sets := Lookup(token.props, "fieldsets").value;
      FieldSetMatchesFacts(Children(sets), alias);
      var ms := Matches(token, alias).value;
      forall m | m in ms
        ensures Visited(token, alias, m.f, m.p) && m.value == TextOf(Lookup(PropertyAt(token, m.f, m.p).value, "value"))
      {
        InFieldSetsVisited(token, sets, alias, m);
      }
      forall f, p | Visited(token, alias, f, p)
        ensures exists m :: m in ms && m.f == f && m.p == p
      {
        var m := VisitedInFieldSets(token, sets, alias, f, p);
        assert m in ms;
      }
    }
  }

  lemma InFieldSetsVisited(token: Json, sets: Json, alias: string, m: Match)
    requires token.JObj? && Lookup(token.props, "fieldsets") == Some(sets) && InFieldSets(Children(sets), alias, m)
    ensures Visited(token, alias, m.f, m.p) && m.value == TextOf(Lookup(PropertyAt(token, m.f, m.p).value, "value"))
  {
    var ps := AsArray(Lookup(sets.items[m.f].props, "properties")).value;
    assert Children(JArr(ps))[m.p] == Item(ps[m.p]);
  }

  lemma VisitedInFieldSets(token: Json, sets: Json, alias: string, f: int, p: int) returns (m: Match)
    requires token.JObj? && Lookup(token.props, "fieldsets") == Some(sets) && Visited(token, alias, f, p)
    ensures m.f == f && m.p == p && InFieldSets(Children(sets), alias, m)
  {
    var ps := AsArray(Lookup(sets.items[f].props, "properties")).value;
    m := Match(f, p, TextOf(Lookup(ps[p].props, "value")));
    assert Children(JArr(ps))[p] == Item(ps[p]);
  }

  /** The setter of every visited property targets an existing path, so the as-written guard never throws there. */
  lemma VisitedSettersInRange(token: Json, alias: string, m: Match, str: Option<string>)
    requires Matches(token, alias).Ok? && m in Matches(token, alias).value
    ensures PropertyAt(token, m.f, m.p).Some?
    ensures PropertySetterAsWritten(token, m.f, m.p, str) == PropertySetter(token, m.f, m.p, str)
  {
    MatchesVisits(token, alias);
  }

  // ---------------------------------------------------------------- the transforms of a configuration

  /** The transform for one property alias and the migration of its data type. */
  function Transformer(alias: string, m: PropertyMigration): JsonContent.JsonTransformer
  {
    JsonContent.AsTransformer(JsonContent.JsonPropertyTransform((o: Json) => GetValuesAndSetters(o, alias), m))
  }

  type Memo = map<string, Option<PropertyMigration>>

  /** The transforms found so far, or the exception, and the memo afterwards. */
  type Found = (Result<seq<JsonContent.JsonTransformer>>, Memo)

  /** The walk over one fieldset's properties of the configuration. */
  function PropertyTransforms(known: Memo, env: JsonContent.Environment, props: seq<Child>, retain: bool): Found
  {
    if props == [] then (Ok([]), known)
    else
      var front := PropertyTransforms(known, env, props[..|props| - 1], retain);
      if front.0.Err? then front
      else
        var c := props[|props| - 1];
        match ChildIndex(c, "alias")
        case Err(e) => (Err(e), front.1)
        case Ok(a) =>
          var alias := TextOf(a);
          if IsNullOrWhiteSpace(alias) then front
          else
            var v := JsonContent.ValidSpec(front.1, env, TextOf(Field(c, "dataTypeGuid")), retain);
            (Ok(front.0.value + if v.0.Some? then [Transformer(alias.value, v.0.value)] else []), v.1)
  }

  /** The walk over the fieldsets of the configuration. */
  function FieldSetTransforms(known: Memo, env: JsonContent.Environment, sets: seq<Child>, retain: bool): Found
  {
    if sets == [] then (Ok([]), known)
    else
      var front := FieldSetTransforms(known, env, sets[..|sets| - 1], retain);
      if front.0.Err? then front
      else
        match ChildIndex(sets[|sets| - 1], "properties")
        case Err(e) => (Err(e), front.1)
        case Ok(None) => front
        case Ok(Some(props)) =>
          var more := PropertyTransforms(front.1, env, Children(props), retain);
          if more.0.Err? then more else (Ok(front.0.value + more.0.value), more.1)
  }

  /** `GetJsonPropertyTransforms(dataType, oldConfig, retain)`: nothing unless the configuration is an object with fieldsets. */
  function TransformsSpec(known: Memo, env: JsonContent.Environment, config: Json, retain: bool): Found
  {
    if !config.JObj? then (Ok([]), known)
    else
      match Lookup(config.props, "fieldsets")
      case None => (Ok([]), known)
      case Some(sets) => FieldSetTransforms(known, env, Children(sets), retain)
  }

  /** `b` remembers everything `a` does, with the same answers. */
  ghost predicate Extends(a: Memo, b: Memo)
  {
    forall k :: k in a ==> k in b && b[k] == a[k]
  }

  /** Every transform is that of a property with a non-blank alias. */
  ghost predicate ForAliases(ts: seq<JsonContent.JsonTransformer>)
  {
    forall t :: t in ts ==> exists a: string, m :: !IsBlank(a) && t == Transformer(a, m)
  }

  lemma ForAliasesAppend(ts: seq<JsonContent.JsonTransformer>, more: seq<JsonContent.JsonTransformer>)
    requires ForAliases(ts) && ForAliases(more)
    ensures ForAliases(ts + more)
  {
    forall t | t in ts + more
      ensures exists a: string, m :: !IsBlank(a) && t == Transformer(a, m)
    {
      if t in ts {
      } else {
        assert t in more;
      }
    }
  }

  /** One step of the walk leaves the memo alone or asks it about the property's data type. */
  lemma PropertyTransformsStep(known: Memo, env: JsonContent.Environment, props: seq<Child>, retain: bool)
    requires props != []
    ensures var front := PropertyTransforms(known, env, props[..|props| - 1], retain).1;
      var r := PropertyTransforms(known, env, props, retain).1;
      r == front || r == JsonContent.ValidSpec(front, env, TextOf(Field(props[|props| - 1], "dataTypeGuid")), retain).1
  {
  }

  /** Asking the memo keeps it sound. */
  lemma ValidSound(known: Memo, env: JsonContent.Environment, guid: Option<string>, retain: bool)
    requires JsonContent.Sound(known, env)
    ensures JsonContent.Sound(JsonContent.ValidSpec(known, env, guid, retain).1, env)
  {
    if guid.Some? {
      JsonContent.ValidMemoised(known, env, guid.value, guid.value, retain, retain);
    }
  }

  /** The memo stays sound. */
  lemma {:induction false} PropertyTransformsMemo(known: Memo, env: JsonContent.Environment, props: seq<Child>, retain: bool)
    requires JsonContent.Sound(known, env)
    ensures JsonContent.Sound(PropertyTransforms(known, env, props, retain).1, env)
  {
    if props != [] {
      var front := PropertyTransforms(known, env, props[..|props| - 1], retain);
      PropertyTransformsMemo(known, env, props[..|props| - 1], retain);
      PropertyTransformsStep(known, env, props, retain);
      ValidSound(front.1, env, TextOf(Field(props[|props| - 1], "dataTypeGuid")), retain);
    }
  }

  /** Every transform found is for a non-blank alias. */
  lemma {:induction false} PropertyTransformsAliases(known: Memo, env: JsonContent.Environment, props: seq<Child>, retain: bool)
    requires PropertyTransforms(known, env, props, retain).0.Ok?
    ensures ForAliases(PropertyTransforms(known, env, props, retain).0.value)
  {
    if props != [] {
      var front := PropertyTransforms(known, env, props[..|props| - 1], retain);
      PropertyTransformsAliases(known, env, props[..|props| - 1], retain);
      var c := props[|props| - 1];
      var alias := TextOf(ChildIndex(c, "alias").value);
      if !IsNullOrWhiteSpace(alias) {
        var v := JsonContent.ValidSpec(front.1, env, TextOf(Field(c, "dataTypeGuid")), retain);
        if v.0.Some? {
          var t := Transformer(alias.value, v.0.value);
          assert !IsBlank(alias.value) && t == Transformer(alias.value, v.0.value);
          assert ForAliases([t]);
          ForAliasesAppend(front.0.value, [t]);
        } else {
          assert front.0.value + [] == front.0.value;
        }
      }
    }
  }

  /** One property's turn of the inner loop, after the transforms `found` so far. */
  function PropertyStep(known: Memo, env: JsonContent.Environment, c: Child, retain: bool, found: seq<JsonContent.JsonTransformer>): Found
  {
    match ChildIndex(c, "alias")
    case Err(e) => (Err(e), known)
    case Ok(a) =>
      var alias := TextOf(a);
      if IsNullOrWhiteSpace(alias) then (Ok(found), known)
      else
        var v := JsonContent.ValidSpec(known, env, TextOf(Field(c, "dataTypeGuid")), retain);
        (Ok(found + if v.0.Some? then [Transformer(alias.value, v.0.value)] else []), v.1)
  }

  lemma PropertyTransformsSnoc(known: Memo, env: JsonContent.Environment, props: seq<Child>, retain: bool, i: int)
    requires 0 <= i < |props|
    ensures var front := PropertyTransforms(known, env, props[..i], retain);
      PropertyTransforms(known, env, props[..i + 1], retain)
        == if front.0.Err? then front else PropertyStep(front.1, env, props[i], retain, front.0.value)
  {
    assert props[..i + 1][..i] == props[..i];
  }

  /** One fieldset's turn of the outer loop, after the transforms `found` so far. */
  function FieldSetStep(known: Memo, env: JsonContent.Environment, c: Child, retain: bool, found: seq<JsonContent.JsonTransformer>): Found
  {
    match ChildIndex(c, "properties")
    case Err(e) => (Err(e), known)
    case Ok(None) => (Ok(found), known)
    case Ok(Some(props)) =>
      var more := PropertyTransforms(known, env, Children(props), retain);
      if more.0.Err? then more else (Ok(found + more.0.value), more.1)
  }

  lemma FieldSetTransformsSnoc(known: Memo, env: JsonContent.Environment, sets: seq<Child>, retain: bool, i: int)
    requires 0 <= i < |sets|
    ensures var front := FieldSetTransforms(known, env, sets[..i], retain);
      FieldSetTransforms(known, env, sets[..i + 1], retain)
        == if front.0.Err? then front else FieldSetStep(front.1, env, sets[i], retain, front.0.value)
  {
    assert sets[..i + 1][..i] == sets[..i];
  }

  lemma FieldSetTransformsStep(known: Memo, env: JsonContent.Environment, sets: seq<Child>, retain: bool)
    requires sets != []
    ensures var front := FieldSetTransforms(known, env, sets[..|sets| - 1], retain);
      var c := ChildIndex(sets[|sets| - 1], "properties");
      var r := FieldSetTransforms(known, env, sets, retain);
      if front.0.Ok? && c.Ok? && c.value.Some? then
        var more := PropertyTransforms(front.1, env, Children(c.value.value), retain);
        r.1 == more.1 && (r.0.Ok? ==> more.0.Ok? && r.0.value == front.0.value + more.0.value)
      else r.1 == front.1 && (r.0.Ok? ==> r.0 == front.0)
  {
  }

  /** The memo stays sound across the fieldsets. */
  lemma {:induction false} FieldSetTransformsMemo(known: Memo, env: JsonContent.Environment, sets: seq<Child>, retain: bool)
    requires JsonContent.Sound(known, env)
    ensures JsonContent.Sound(FieldSetTransforms(known, env, sets, retain).1, env)
  {
    if sets != [] {
      var front := FieldSetTransforms(known, env, sets[..|sets| - 1], retain);
      FieldSetTransformsMemo(known, env, sets[..|sets| - 1], retain);
      FieldSetTransformsStep(known, env, sets, retain);
      var c := ChildIndex(sets[|sets| - 1], "properties");
      if front.0.Ok? && c.Ok? && c.value.Some? {
        PropertyTransformsMemo(front.1, env, Children(c.value.value), retain);
      }
    }
  }

  /** Every transform found across the fieldsets is for a non-blank alias. */
  lemma {:induction false} FieldSetTransformsAliases(known: Memo, env: JsonContent.Environment, sets: seq<Child>, retain: bool)
    requires FieldSetTransforms(known, env, sets, retain).0.Ok?
    ensures ForAliases(FieldSetTransforms(known, env, sets, retain).0.value)
  {
    if sets != [] {
      var front := FieldSetTransforms(known, env, sets[..|sets| - 1], retain);
      FieldSetTransformsStep(known, env, sets, retain);
      FieldSetTransformsAliases(known, env, sets[..|sets| - 1], retain);
      var c := ChildIndex(sets[|sets| - 1], "properties");
      if front.0.Ok? && c.Ok? && c.value.Some? {
        var props := Children(c.value.value);
        PropertyTransformsAliases(front.1, env, props, retain);
        ForAliasesAppend(front.0.value, PropertyTransforms(front.1, env, props, retain).0.value);
      }
    }
  }

  /**
   * No transform comes from a configuration that is not an object or has
   * no fieldsets; every transform found is for a non-blank alias (which
   * property, and which migration, `TransformsList` says); the memo only
   * grows and stays sound.
   */
  lemma TransformsFacts(known: Memo, env: JsonContent.Environment, config: Json, retain: bool)
    requires JsonContent.Sound(known, env)
    ensures var r := TransformsSpec(known, env, config, retain);
      JsonContent.Sound(r.1, env) && Extends(known, r.1)
      && ((!config.JObj? || Lookup(config.props, "fieldsets").None?) ==> r == (Ok([]), known))
      && (r.0.Ok? ==> ForAliases(r.0.value))
  {
    if config.JObj? && Lookup(config.props, "fieldsets").Some? {
      var sets := Children(Lookup(config.props, "fieldsets").value);
      FieldSetTransformsMemo(known, env, sets, retain);
      if TransformsSpec(known, env, config, retain).0.Ok? {
        FieldSetTransformsAliases(known, env, sets, retain);
      }
      FieldSetTransformsGrow(known, env, sets, retain);
    }
  }

  // ---------------------------------------------------------------- the transforms, property by property

  /** The pieces `f` gives for each element, concatenated in order. */
  function FlatMap<A, B>(f: A -> seq<B>, xs: seq<A>): seq<B>
  {
    if xs == [] then [] else FlatMap(f, xs[..|xs| - 1]) + f(xs[|xs| - 1])
  }

  lemma {:induction false} FlatMapWitness<A, B>(f: A -> seq<B>, xs: seq<A>, y: B) returns (i: int)
    requires y in FlatMap(f, xs)
    ensures 0 <= i < |xs| && y in f(xs[i])
  {
    var n := |xs| - 1;
    if y in FlatMap(f, xs[..n]) {
      i := FlatMapWitness(f, xs[..n], y);
      assert xs[..n][i] == xs[i];
    } else {
      i := n;
    }
  }

  lemma {:induction false} FlatMapHas<A, B>(f: A -> seq<B>, xs: seq<A>, i: int, y: B)
    requires 0 <= i < |xs| && y in f(xs[i])
    ensures y in FlatMap(f, xs)
  {
    var n := |xs| - 1;
    if i < n {
      assert xs[..n][i] == xs[i];
      FlatMapHas(f, xs[..n], i, y);
    }
  }

  /** An element is in the concatenation exactly when some piece holds it. */
  lemma FlatMapMember<A, B>(f: A -> seq<B>, xs: seq<A>, y: B)
    ensures y in FlatMap(f, xs) <==> exists i :: 0 <= i < |xs| && y in f(xs[i])
  {
    if y in FlatMap(f, xs) {
      var i := FlatMapWitness(f, xs, y);
    }
    if exists i :: 0 <= i < |xs| && y in f(xs[i]) {
      var i :| 0 <= i < |xs| && y in f(xs[i]);
      FlatMapHas(f, xs, i, y);
    }
  }

  /**
   * `step` applied to each element in turn, each time to the state the
   * ones before it left: the pieces it gives, concatenated in order, and
   * the state at the end.
   */
  function Thread<S, A, B>(step: (S, A) -> (seq<B>, S), s: S, xs: seq<A>): (seq<B>, S)
  {
    if xs == [] then ([], s)
    else
      var front := Thread(step, s, xs[..|xs| - 1]);
      var last := step(front.1, xs[|xs| - 1]);
      (front.0 + last.0, last.1)
  }

  lemma ThreadSnoc<S, A, B>(step: (S, A) -> (seq<B>, S), s: S, xs: seq<A>, x: A)
    ensures var front := Thread(step, s, xs);
      Thread(step, s, xs + [x]).0 == front.0 + step(front.1, x).0
      && Thread(step, s, xs + [x]).1 == step(front.1, x).1
  {
    assert (xs + [x])[..|xs|] == xs;
  }

  /** Threading two lists one after the other is threading their concatenation. */
  lemma {:induction false} ThreadAppend<S, A, B>(step: (S, A) -> (seq<B>, S), s: S, xs: seq<A>, ys: seq<A>)
    ensures var mid := Thread(step, s, xs);
      var rest := Thread(step, mid.1, ys);
      Thread(step, s, xs + ys).0 == mid.0 + rest.0 && Thread(step, s, xs + ys).1 == rest.1
  {
    if ys == [] {
      assert xs + ys == xs;
    } else {
      var n := |ys| - 1;
      ThreadAppend(step, s, xs, ys[..n]);
      assert xs + ys == (xs + ys[..n]) + [ys[n]];
      ThreadSnoc(step, s, xs + ys[..n], ys[n]);
    }
  }

  lemma {:induction false} ThreadWitness<S, A, B>(step: (S, A) -> (seq<B>, S), s: S, xs: seq<A>, y: B) returns (i: int)
    requires y in Thread(step, s, xs).0
    ensures 0 <= i < |xs| && y in step(Thread(step, s, xs[..i]).1, xs[i]).0
  {
    var n := |xs| - 1;
    if y in Thread(step, s, xs[..n]).0 {
      i := ThreadWitness(step, s, xs[..n], y);
      assert xs[..n][..i] == xs[..i];
      assert xs[..n][i] == xs[i];
    } else {
      i := n;
    }
  }

  lemma {:induction false} ThreadHas<S, A, B>(step: (S, A) -> (seq<B>, S), s: S, xs: seq<A>, i: int, y: B)
    requires 0 <= i < |xs| && y in step(Thread(step, s, xs[..i]).1, xs[i]).0
    ensures y in Thread(step, s, xs).0
  {
    var n := |xs| - 1;
    if i < n {
      assert xs[..n][..i] == xs[..i];
      assert xs[..n][i] == xs[i];
      ThreadHas(step, s, xs[..n], i, y);
    }
  }

  /** A piece is produced exactly when some element, stepped from the state before it, produces it. */
  lemma ThreadMember<S, A, B>(step: (S, A) -> (seq<B>, S), s: S, xs: seq<A>, y: B)
    ensures y in Thread(step, s, xs).0 <==> exists i :: 0 <= i < |xs| && y in step(Thread(step, s, xs[..i]).1, xs[i]).0
  {
    if y in Thread(step, s, xs).0 {
      var i := ThreadWitness(step, s, xs, y);
    }
    if exists i :: 0 <= i < |xs| && y in step(Thread(step, s, xs[..i]).1, xs[i]).0 {
      var i :| 0 <= i < |xs| && y in step(Thread(step, s, xs[..i]).1, xs[i]).0;
      ThreadHas(step, s, xs, i, y);
    }
  }

  /** A property of the configuration as the walk sees it: its alias and the text of its data type guid. */
  type Listed = (string, Option<string>)

  /** A configuration child that is an object, so that indexing it does not throw. */
  predicate IsObject(c: Child)
  {
    c.Item? && c.item.JObj?
  }

  /** `c` is a property whose alias is the non-blank `x.0` and whose data type guid reads `x.1`. */
  predicate PropertyHas(c: Child, x: Listed)
  {
    TextOf(Field(c, "alias")) == Some(x.0) && !IsBlank(x.0) && TextOf(Field(c, "dataTypeGuid")) == x.1
  }

  /** The property `c`, if its alias is not blank. */
  function ListedOf(c: Child): seq<Listed>
  {
    var alias := TextOf(Field(c, "alias"));
    if IsNullOrWhiteSpace(alias) then [] else [(alias.value, TextOf(Field(c, "dataTypeGuid")))]
  }

  /** The properties with a non-blank alias, in order. */
  function PropertyList(props: seq<Child>): seq<Listed>
  {
    FlatMap(ListedOf, props)
  }

  /** The properties with a non-blank alias of one fieldset; none if it has no "properties". */
  function FieldSetProperties(c: Child): seq<Listed>
  {
    match Field(c, "properties")
    case None => []
    case Some(props) => PropertyList(Children(props))
  }

  /** The properties with a non-blank alias, fieldset by fieldset, in order. */
  function FieldSetList(sets: seq<Child>): seq<Listed>
  {
    FlatMap(FieldSetProperties, sets)
  }

  /** The properties with a non-blank alias of a configuration; none unless it is an object with fieldsets. */
  function ConfigList(config: Json): seq<Listed>
  {
    if !config.JObj? then []
    else
      match Lookup(config.props, "fieldsets")
      case None => []
      case Some(sets) => FieldSetList(Children(sets))
  }

  predicate PropertiesReadable(props: seq<Child>)
  {
    forall i :: 0 <= i < |props| ==> IsObject(props[i])
  }

  /** A fieldset that is an object, whose properties, if any, are objects. */
  predicate FieldSetReadable(c: Child)
  {
    IsObject(c) && (Field(c, "properties").Some? ==> PropertiesReadable(Children(Field(c, "properties").value)))
  }

  predicate FieldSetsReadable(sets: seq<Child>)
  {
    forall i :: 0 <= i < |sets| ==> FieldSetReadable(sets[i])
  }

  /** A configuration whose fieldsets, if it has any, are all readable. */
  predicate ConfigReadable(config: Json)
  {
    config.JObj? && Lookup(config.props, "fieldsets").Some? ==> FieldSetsReadable(Children(Lookup(config.props, "fieldsets").value))
  }

  /** One listed property asked of the memo: its transform, if its data type has a valid migration, and the memo afterwards. */
  function Ask(known: Memo, env: JsonContent.Environment, x: Listed, retain: bool): (seq<JsonContent.JsonTransformer>, Memo)
  {
    var v := JsonContent.ValidSpec(known, env, x.1, retain);
    (if v.0.Some? then [Transformer(x.0, v.0.value)] else [], v.1)
  }

  function Asking(env: JsonContent.Environment, retain: bool): (Memo, Listed) -> (seq<JsonContent.JsonTransformer>, Memo)
  {
    (known: Memo, x: Listed) => Ask(known, env, x, retain)
  }

  /**
   * The listed properties asked one after another, each of the memo the
   * ones before it left: the transforms of those whose data type has a
   * valid migration, in order, and the memo at the end.
   */
  function Lookups(known: Memo, env: JsonContent.Environment, xs: seq<Listed>, retain: bool): (seq<JsonContent.JsonTransformer>, Memo)
  {
    Thread(Asking(env, retain), known, xs)
  }

  /** The listed property `xs[i]` yields the transform `t`: its data type, asked with the memo so far, has the migration of `t`. */
  ghost predicate Contributes(known: Memo, env: JsonContent.Environment, xs: seq<Listed>, retain: bool, i: int,
                              t: JsonContent.JsonTransformer)
    requires 0 <= i < |xs|
  {
    var v := JsonContent.ValidSpec(Lookups(known, env, xs[..i], retain).1, env, xs[i].1, retain).0;
    v.Some? && t == Transformer(xs[i].0, v.value)
  }

  /**
   * A transform is found exactly when some listed property contributes it:
   * one with a valid migration for its data type, asked with the memo so far.
   */
  lemma LookupsMember(known: Memo, env: JsonContent.Environment, xs: seq<Listed>, retain: bool, t: JsonContent.JsonTransformer)
    ensures t in Lookups(known, env, xs, retain).0 <==> exists i :: 0 <= i < |xs| && Contributes(known, env, xs, retain, i, t)
  {
    ThreadMember(Asking(env, retain), known, xs, t);
    forall i | 0 <= i < |xs|
      ensures Contributes(known, env, xs, retain, i, t)
        == (t in Asking(env, retain)(Thread(Asking(env, retain), known, xs[..i]).1, xs[i]).0)
    {
    }
  }

  /** A property is listed exactly when it has a non-blank alias. */
  lemma PropertyListMember(props: seq<Child>, x: Listed)
    ensures x in PropertyList(props) <==> exists p :: 0 <= p < |props| && PropertyHas(props[p], x)
  {
    FlatMapMember(ListedOf, props, x);
  }

  /** A property is listed for the fieldsets exactly when some fieldset lists it. */
  lemma FieldSetListMember(sets: seq<Child>, x: Listed)
    ensures x in FieldSetList(sets) <==> exists f :: 0 <= f < |sets| && x in FieldSetProperties(sets[f])
  {
    FlatMapMember(FieldSetProperties, sets, x);
  }

  lemma PropertiesReadableSnoc(props: seq<Child>)
    requires props != []
    ensures PropertiesReadable(props) <==> PropertiesReadable(props[..|props| - 1]) && IsObject(props[|props| - 1])
  {
    var ys := props[..|props| - 1];
    if PropertiesReadable(ys) && IsObject(props[|props| - 1]) {
      forall i | 0 <= i < |props|
        ensures IsObject(props[i])
      {
        if i < |ys| {
          assert props[i] == ys[i];
        }
      }
    }
  }

  lemma FieldSetsReadableSnoc(sets: seq<Child>)
    requires sets != []
    ensures FieldSetsReadable(sets) <==> FieldSetsReadable(sets[..|sets| - 1]) && FieldSetReadable(sets[|sets| - 1])
  {
    var ys := sets[..|sets| - 1];
    if FieldSetsReadable(ys) && FieldSetReadable(sets[|sets| - 1]) {
      forall i | 0 <= i < |sets|
        ensures FieldSetReadable(sets[i])
      {
        if i < |ys| {
          assert sets[i] == ys[i];
        }
      }
    }
  }

  /** One property's turn, on an object, is the lookup of what it lists. */
  lemma PropertyStepLookups(known: Memo, env: JsonContent.Environment, c: Child, retain: bool, found: seq<JsonContent.JsonTransformer>)
    requires IsObject(c)
    ensures PropertyStep(known, env, c, retain, found).0 == Ok(found + Lookups(known, env, ListedOf(c), retain).0)
    ensures PropertyStep(known, env, c, retain, found).1 == Lookups(known, env, ListedOf(c), retain).1
  {
    if ListedOf(c) == [] {
      assert found + [] == found;
    } else {
      var x := ListedOf(c)[0];
      assert ListedOf(c) == [] + [x];
      ThreadSnoc(Asking(env, retain), known, [], x);
      assert [] + Ask(known, env, x, retain).0 == Ask(known, env, x, retain).0;
    }
  }

  /**
   * The walk over one fieldset's properties throws exactly when one of them
   * is not an object; otherwise it finds what looking up its listed
   * properties finds, and leaves the same memo.
   */
  lemma {:induction false} PropertyTransformsList(known: Memo, env: JsonContent.Environment, props: seq<Child>, retain: bool)
    ensures var r := PropertyTransforms(known, env, props, retain);
      var l := Lookups(known, env, PropertyList(props), retain);
      (r.0.Ok? <==> PropertiesReadable(props)) && (r.0.Ok? ==> r.0.value == l.0 && r.1 == l.1)
  {
    if props != [] {
      var n := |props| - 1;
      var ys := props[..n];
      PropertyTransformsList(known, env, ys, retain);
      PropertiesReadableSnoc(props);
      PropertyTransformsSnoc(known, env, props, retain, n);
      assert props[..n + 1] == props;
      var front := PropertyTransforms(known, env, ys, retain);
      if front.0.Ok? && IsObject(props[n]) {
        PropertyStepLookups(front.1, env, props[n], retain, front.0.value);
        ThreadAppend(Asking(env, retain), known, PropertyList(ys), ListedOf(props[n]));
      }
    }
  }

  /** One fieldset's turn, on a readable fieldset, is the lookup of what it lists. */
  lemma FieldSetStepLookups(known: Memo, env: JsonContent.Environment, c: Child, retain: bool, found: seq<JsonContent.JsonTransformer>)
    requires IsObject(c)
    ensures var s := FieldSetStep(known, env, c, retain, found);
      var l := Lookups(known, env, FieldSetProperties(c), retain);
      (s.0.Ok? <==> FieldSetReadable(c)) && (s.0.Ok? ==> s.0.value == found + l.0 && s.1 == l.1)
  {
    if Field(c, "properties").Some? {
      PropertyTransformsList(known, env, Children(Field(c, "properties").value), retain);
    } else {
      assert found + [] == found;
    }
  }

  /**
   * The walk over the fieldsets throws exactly when one of them is not
   * readable; otherwise it finds what looking up their listed properties,
   * fieldset by fieldset, finds, and leaves the same memo.
   */
  lemma {:induction false} FieldSetTransformsList(known: Memo, env: JsonContent.Environment, sets: seq<Child>, retain: bool)
    ensures var r := FieldSetTransforms(known, env, sets, retain);
      var l := Lookups(known, env, FieldSetList(sets), retain);
      (r.0.Ok? <==> FieldSetsReadable(sets)) && (r.0.Ok? ==> r.0.value == l.0 && r.1 == l.1)
  {
    if sets != [] {
      var n := |sets| - 1;
      var ys := sets[..n];
      FieldSetTransformsList(known, env, ys, retain);
      FieldSetsReadableSnoc(sets);
      FieldSetTransformsSnoc(known, env, sets, retain, n);
      assert sets[..n + 1] == sets;
      var front := FieldSetTransforms(known, env, ys, retain);
      if front.0.Ok? && IsObject(sets[n]) {
        FieldSetStepLookups(front.1, env, sets[n], retain, front.0.value);
        ThreadAppend(Asking(env, retain), known, FieldSetList(ys), FieldSetProperties(sets[n]));
      }
    }
  }

  /**
   * `GetJsonPropertyTransforms` throws exactly when the configuration's
   * fieldsets are not readable; otherwise its transforms are, in fieldset
   * and property order, those of the properties with a non-blank alias
   * whose data type, asked with the memo so far, has a valid migration,
   * and the memo is the one those lookups leave.
   */
  lemma TransformsList(known: Memo, env: JsonContent.Environment, config: Json, retain: bool)
    ensures var r := TransformsSpec(known, env, config, retain);
      var l := Lookups(known, env, ConfigList(config), retain);
      (r.0.Ok? <==> ConfigReadable(config)) && (r.0.Ok? ==> r.0.value == l.0 && r.1 == l.1)
  {
    if config.JObj? && Lookup(config.props, "fieldsets").Some? {
      FieldSetTransformsList(known, env, Children(Lookup(config.props, "fieldsets").value), retain);
    }
  }

  /** The properties a configuration lists are exactly its fieldsets' properties with a non-blank alias. */
  lemma ConfigListMember(config: Json, x: Listed)
    ensures x in ConfigList(config) <==>
      (config.JObj? && Lookup(config.props, "fieldsets").Some?
       && exists f :: (0 <= f < |Children(Lookup(config.props, "fieldsets").value)|
                       && x in FieldSetProperties(Children(Lookup(config.props, "fieldsets").value)[f])))
  {
    if config.JObj? && Lookup(config.props, "fieldsets").Some? {
      FieldSetListMember(Children(Lookup(config.props, "fieldsets").value), x);
    }
  }

  /** A fieldset lists exactly its properties with a non-blank alias. */
  lemma FieldSetPropertiesMember(c: Child, x: Listed)
    ensures x in FieldSetProperties(c) <==>
      (Field(c, "properties").Some?
       && exists p :: (0 <= p < |Children(Field(c, "properties").value)|
                       && PropertyHas(Children(Field(c, "properties").value)[p], x)))
  {
    if Field(c, "properties").Some? {
      PropertyListMember(Children(Field(c, "properties").value), x);
    }
  }

  /**
   * The nested migrations are memoised: searching the same properties
   * again against any memo that remembers what the first search left,
   * with either retain flag, finds the same transforms and adds nothing.
   */
  lemma {:induction false} PropertyTransformsAgain(known: Memo, again: Memo, env: JsonContent.Environment, props: seq<Child>,
                                                   retain: bool, retainAgain: bool)
    requires Extends(PropertyTransforms(known, env, props, retain).1, again)
    ensures PropertyTransforms(again, env, props, retainAgain) == (PropertyTransforms(known, env, props, retain).0, again)
  {
    if props != [] {
      var n := |props| - 1;
      var front := PropertyTransforms(known, env, props[..n], retain);
      PropertyTransformsExtends(known, env, props, retain);
      ExtendsTransitive(front.1, PropertyTransforms(known, env, props, retain).1, again);
      PropertyTransformsAgain(known, again, env, props[..n], retain, retainAgain);
      var c := props[n];
      if front.0.Ok? && ChildIndex(c, "alias").Ok? && !IsNullOrWhiteSpace(TextOf(ChildIndex(c, "alias").value)) {
        ValidSpecAgain(front.1, again, env, TextOf(Field(c, "dataTypeGuid")), retain, retainAgain);
      }
    }
  }

  lemma ExtendsTransitive(a: Memo, b: Memo, c: Memo)
    requires Extends(a, b) && Extends(b, c)
    ensures Extends(a, c)
  {
  }

  /** A memo that extends what one lookup left answers that lookup alike and stays as it is. */
  lemma ValidSpecAgain(known: Memo, again: Memo, env: JsonContent.Environment, g: Option<string>, retain: bool, retainAgain: bool)
    requires Extends(JsonContent.ValidSpec(known, env, g, retain).1, again)
    ensures JsonContent.ValidSpec(again, env, g, retainAgain) == (JsonContent.ValidSpec(known, env, g, retain).0, again)
  {
    if g.Some? {
      var key := JsonContent.Key(g.value);
      assert key in JsonContent.ValidSpec(known, env, g, retain).1;
    }
  }

  /** The memo after a walk extends the memo after any shorter walk, answers included. */
  lemma {:induction false} PropertyTransformsExtends(known: Memo, env: JsonContent.Environment, props: seq<Child>, retain: bool)
    requires props != []
    ensures Extends(PropertyTransforms(known, env, props[..|props| - 1], retain).1, PropertyTransforms(known, env, props, retain).1)
  {
    var front := PropertyTransforms(known, env, props[..|props| - 1], retain).1;
    PropertyTransformsStep(known, env, props, retain);
    ValidSpecGrows(front, env, TextOf(Field(props[|props| - 1], "dataTypeGuid")), retain);
  }

  lemma ValidSpecGrows(known: Memo, env: JsonContent.Environment, g: Option<string>, retain: bool)
    ensures Extends(known, JsonContent.ValidSpec(known, env, g, retain).1)
  {
  }

  lemma {:induction false} FieldSetTransformsAgain(known: Memo, again: Memo, env: JsonContent.Environment, sets: seq<Child>,
                                                   retain: bool, retainAgain: bool)
    requires Extends(FieldSetTransforms(known, env, sets, retain).1, again)
    ensures FieldSetTransforms(again, env, sets, retainAgain) == (FieldSetTransforms(known, env, sets, retain).0, again)
  {
    if sets != [] {
      var front := FieldSetTransforms(known, env, sets[..|sets| - 1], retain);
      if front.0.Ok? && ChildIndex(sets[|sets| - 1], "properties").Ok? && ChildIndex(sets[|sets| - 1], "properties").value.Some? {
        var props := Children(ChildIndex(sets[|sets| - 1], "properties").value.value);
        PropertyTransformsGrow(front.1, env, props, retain);
        FieldSetTransformsAgain(known, again, env, sets[..|sets| - 1], retain, retainAgain);
        PropertyTransformsAgain(front.1, again, env, props, retain, retainAgain);
      } else {
        FieldSetTransformsAgain(known, again, env, sets[..|sets| - 1], retain, retainAgain);
      }
    }
  }

  /** A walk over properties only adds to the memo. */
  lemma {:induction false} PropertyTransformsGrow(known: Memo, env: JsonContent.Environment, props: seq<Child>, retain: bool)
    ensures Extends(known, PropertyTransforms(known, env, props, retain).1)
  {
    if props != [] {
      PropertyTransformsGrow(known, env, props[..|props| - 1], retain);
      PropertyTransformsExtends(known, env, props, retain);
    }
  }

  lemma {:induction false} FieldSetTransformsGrow(known: Memo, env: JsonContent.Environment, sets: seq<Child>, retain: bool)
    ensures Extends(known, FieldSetTransforms(known, env, sets, retain).1)
  {
    if sets != [] {
      var front := FieldSetTransforms(known, env, sets[..|sets| - 1], retain);
      FieldSetTransformsGrow(known, env, sets[..|sets| - 1], retain);
      if front.0.Ok? && ChildIndex(sets[|sets| - 1], "properties").Ok? && ChildIndex(sets[|sets| - 1], "properties").value.Some? {
        PropertyTransformsGrow(front.1, env, Children(ChildIndex(sets[|sets| - 1], "properties").value.value), retain);
      }
    }
  }

  /** Asking again for the same configuration's transforms finds the same ones, whatever the retain flag, and consults nothing new. */
  lemma TransformsAgain(known: Memo, env: JsonContent.Environment, config: Json, retain: bool, retainAgain: bool)
    ensures var r := TransformsSpec(known, env, config, retain);
      TransformsSpec(r.1, env, config, retainAgain) == r
  {
    if config.JObj? && Lookup(config.props, "fieldsets").Some? {
      var sets := Children(Lookup(config.props, "fieldsets").value);
      FieldSetTransformsAgain(known, FieldSetTransforms(known, env, sets, retain).1, env, sets, retain, retainAgain);
    }
  }

  // ---------------------------------------------------------------- the iterator over the configuration

  lemma {:induction false} PropertyTransformsErrSticky(known: Memo, env: JsonContent.Environment, props: seq<Child>, retain: bool, i: int)
    requires 0 <= i <= |props| && PropertyTransforms(known, env, props[..i], retain).0.Err?
    ensures PropertyTransforms(known, env, props, retain) == PropertyTransforms(known, env, props[..i], retain)
    decreases |props| - i
  {
    if i < |props| {
      var front := props[..|props| - 1];
      assert front[..i] == props[..i];
      PropertyTransformsErrSticky(known, env, front, retain, i);
    } else {
      assert props[..i] == props;
    }
  }

  lemma {:induction false} FieldSetTransformsErrSticky(known: Memo, env: JsonContent.Environment, sets: seq<Child>, retain: bool, i: int)
    requires 0 <= i <= |sets| && FieldSetTransforms(known, env, sets[..i], retain).0.Err?
    ensures FieldSetTransforms(known, env, sets, retain) == FieldSetTransforms(known, env, sets[..i], retain)
    decreases |sets| - i
  {
    if i < |sets| {
      var front := sets[..|sets| - 1];
      assert front[..i] == sets[..i];
      FieldSetTransformsErrSticky(known, env, front, retain, i);
    } else {
      assert sets[..i] == sets;
    }
  }

  /** The body of the inner loop: the transform of one property, if it has an alias and a valid migration, added to `found`. */
  method AddProperty(memo: JsonContent.KnownValidMigrators, env: JsonContent.Environment, c: Child, retain: bool,
                     found: seq<JsonContent.JsonTransformer>)
    returns (r: Result<seq<JsonContent.JsonTransformer>>)
    modifies memo
    ensures r == PropertyStep(old(memo.known), env, c, retain, found).0
    ensures memo.known == PropertyStep(old(memo.known), env, c, retain, found).1
  {
    var a := ChildIndex(c, "alias");
    if a.Err? {
      return Err(a.error);
    }
    var alias := TextOf(a.value);
    if IsNullOrWhiteSpace(alias) {
      return Ok(found);
    }
    var migration := memo.GetValidPropertyMigration(env, TextOf(Field(c, "dataTypeGuid")), retain);
    if migration.Some? {
      r := Ok(found + [Transformer(alias.value, migration.value)]);
    } else {
      assert found + [] == found;
      r := Ok(found);
    }
  }

  /** The body of the outer loop: the transforms of one fieldset's properties, added to `found`. */
  method AddFieldSet(memo: JsonContent.KnownValidMigrators, env: JsonContent.Environment, c: Child, retain: bool,
                     found: seq<JsonContent.JsonTransformer>)
    returns (r: Result<seq<JsonContent.JsonTransformer>>)
    modifies memo
    ensures r == FieldSetStep(old(memo.known), env, c, retain, found).0
    ensures memo.known == FieldSetStep(old(memo.known), env, c, retain, found).1
  {
    var props := ChildIndex(c, "properties");
    if props.Err? {
      return Err(props.error);
    }
    if props.value.None? {
      return Ok(found);
    }
    var more := PropertyTransformsOf(memo, env, Children(props.value.value), retain);
    if more.Err? {
      return more;
    }
    r := Ok(found + more.value);
  }

  /** The inner loop over one fieldset's properties. */
  method PropertyTransformsOf(memo: JsonContent.KnownValidMigrators, env: JsonContent.Environment, props: seq<Child>, retain: bool)
    returns (r: Result<seq<JsonContent.JsonTransformer>>)
    modifies memo
    ensures r == PropertyTransforms(old(memo.known), env, props, retain).0
    ensures memo.known == PropertyTransforms(old(memo.known), env, props, retain).1
  {
    ghost var known0 := memo.known;
    var found: seq<JsonContent.JsonTransformer> := [];
    var i := 0;
    while i < |props|
      invariant 0 <= i <= |props|
      invariant PropertyTransforms(known0, env, props[..i], retain).0 == Ok(found)
      invariant PropertyTransforms(known0, env, props[..i], retain).1 == memo.known
    {
      PropertyTransformsSnoc(known0, env, props, retain, i);
      var step := AddProperty(memo, env, props[i], retain, found);
      if step.Err? {
        PropertyTransformsErrSticky(known0, env, props, retain, i + 1);
        return step;
      }
      found := step.value;
      i := i + 1;
    }
    assert props[..i] == props;
    r := Ok(found);
  }

  /**
   * `GetJsonPropertyTransforms(dataType, oldConfig, retainInvalidData)`:
   * the transforms of the configuration, consulting and filling the memo.
   */
  method GetJsonPropertyTransforms(memo: JsonContent.KnownValidMigrators, env: JsonContent.Environment, config: Json, retain: bool)
    returns (r: Result<seq<JsonContent.JsonTransformer>>)
    modifies memo
    ensures r == TransformsSpec(old(memo.known), env, config, retain).0
    ensures memo.known == TransformsSpec(old(memo.known), env, config, retain).1
  {
    if !config.JObj? {
      return Ok([]);
    }
    var fieldsets := Lookup(config.props, "fieldsets");
    if fieldsets.None? {
      return Ok([]);
    }
    r := FieldSetsOf(memo, env, Children(fieldsets.value), retain);
  }

  /** The outer loop over the fieldsets. */
  method FieldSetsOf(memo: JsonContent.KnownValidMigrators, env: JsonContent.Environment, sets: seq<Child>, retain: bool)
    returns (r: Result<seq<JsonContent.JsonTransformer>>)
    modifies memo
    ensures r == FieldSetTransforms(old(memo.known), env, sets, retain).0
    ensures memo.known == FieldSetTransforms(old(memo.known), env, sets, retain).1
  {
    ghost var known0 := memo.known;
    var found: seq<JsonContent.JsonTransformer> := [];
    var i := 0;
    while i < |sets|
      invariant 0 <= i <= |sets|
      invariant FieldSetTransforms(known0, env, sets[..i], retain).0 == Ok(found)
      invariant FieldSetTransforms(known0, env, sets[..i], retain).1 == memo.known
    {
      FieldSetTransformsSnoc(known0, env, sets, retain, i);
      var step := AddFieldSet(memo, env, sets[i], retain, found);
      if step.Err? {
        FieldSetTransformsErrSticky(known0, env, sets, retain, i + 1);
        return step;
      }
      found := step.value;
      i := i + 1;
    }
    assert sets[..i] == sets;
    r := Ok(found);
  }
}
