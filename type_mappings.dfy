/**
 * The second half of the id-to-udi migration (`IdToUdiMigration.FindMappings`
 * and `AddRelatedTypes`): for every content type some node uses, the walk
 * over the composition and parent rows that collects the type and all the
 * types it inherits from, and the field mappers for the properties of those
 * types whose data type has a staged property migration. The two database
 * queries (the composition rows and the ids of the used types) are
 * parameters.
 */
module TypeMappings {
  import opened Platform
  import opened Transforms
  import opened Sets

  /** A row of the composition table, or the parent row of a type: `child` inherits from `parent`. */
  datatype Relation = Relation(child: int, parent: int)

  /** What is read of a property type: its data type and its alias. */
  datatype PropertyType = PropertyType(dataTypeId: int, alias: string)

  /** What is read of a content, media or member type. */
  datatype ContentTypeInfo = ContentTypeInfo(id: int, parentId: int, alias: string, properties: seq<PropertyType>)

  /** A field mapper: the property alias and the migration of its data type. */
  type FieldMapper = (string, PropertyMigration)

  /** A mapper over the nodes of one type, of one base type, rewriting the given fields. */
  datatype Mapper = Mapper(sourceType: BaseType, contentType: ContentTypeInfo, fields: seq<FieldMapper>)

  // ------------------------------------------------------------ the walk

  /** `relatedIds[id]`: the parents of `id`, in the order of the rows. */
  function Parents(rel: seq<Relation>, id: int): (r: seq<int>)
    ensures forall p :: p in r <==> Relation(id, p) in rel
  {
    if rel == [] then []
    else
      var front := Parents(rel[..|rel| - 1], id);
      var last := rel[|rel| - 1];
      assert forall x :: x in rel <==> x in rel[..|rel| - 1] || x == last;
      if last.child == id then front + [last.parent] else front
  }

  /** Every id a row mentions. */
  function Universe(rel: seq<Relation>): set<int>
  {
    (set r | r in rel :: r.child) + (set r | r in rel :: r.parent)
  }

  /** The ids of a list, as a set. */
  function Listed(s: seq<int>): set<int>
  {
    set x | x in s
  }

  /** `to` is reached from `from` over at most `n` rows, through positive ids only. */
  ghost predicate ReachesIn(rel: seq<Relation>, from: int, to: int, n: nat)
    decreases n
  {
    from > 0 && (from == to || (n > 0 && exists p :: p in Parents(rel, from) && ReachesIn(rel, p, to, n - 1)))
  }

  ghost predicate Reaches(rel: seq<Relation>, from: int, to: int)
  {
    exists n: nat :: ReachesIn(rel, from, to, n)
  }

  /** Every positive parent of every id of `ids` that is not in `before` is in `ids`. */
  ghost predicate ClosedBeyond(rel: seq<Relation>, ids: seq<int>, before: seq<int>)
  {
    forall x :: x in ids && x !in before ==> forall p :: p in Parents(rel, x) && p > 0 ==> p in ids
  }

  /** A list closed under positive parents holds everything reachable from its members. */
  lemma {:induction false} ClosedComplete(rel: seq<Relation>, ids: seq<int>, root: int, x: int, n: nat)
    requires root in ids && ClosedBeyond(rel, ids, []) && ReachesIn(rel, root, x, n)
    ensures x in ids
    decreases n
  {
    if root != x {
      var p :| p in Parents(rel, root) && ReachesIn(rel, p, x, n - 1);
      ClosedComplete(rel, ids, p, x, n - 1);
    }
  }

  /** What a prefix holds, its extension holds. */
  lemma PrefixMembers(a: seq<int>, b: seq<int>)
    requires a <= b
    ensures forall x :: x in a ==> x in b
  {
    assert forall i :: 0 <= i < |a| ==> a[i] == b[i];
  }

  /** Listing a new id of the rows leaves fewer of them to list, which bounds the walk. */
  lemma WalkShrinks(rel: seq<Relation>, start: seq<int>, typeId: int, parent: int, ids: seq<int>)
    requires Relation(typeId, parent) in rel && typeId !in start && start + [typeId] <= ids
    ensures |Universe(rel) - Listed(ids)| < |Universe(rel) - Listed(start)|
  {
    assert typeId in Universe(rel);
    assert (Universe(rel) - Listed(ids)) < (Universe(rel) - Listed(start)) by {
      PrefixMembers(start + [typeId], ids);
      assert forall x :: x in start ==> x in start + [typeId];
      assert typeId in Universe(rel) - Listed(start);
      assert typeId !in Universe(rel) - Listed(ids);
      assert Listed(start) <= Listed(ids);
    }
    ProperSubsetCard(Universe(rel) - Listed(ids), Universe(rel) - Listed(start));
  }

  /** What a parent reaches, the child reaches over one more row. */
  lemma ReachesThrough(rel: seq<Relation>, child: int, parent: int, x: int)
    requires child > 0 && parent in Parents(rel, child) && Reaches(rel, parent, x)
    ensures Reaches(rel, child, x)
  {
    var n: nat :| ReachesIn(rel, parent, x, n);
    assert ReachesIn(rel, child, x, n + 1);
  }

  /** The list `AddRelatedTypes` appends to. */
  class IdList {
    var ids: seq<int>

    constructor ()
      ensures ids == []
    {
      ids := [];
    }
  }

  /**
   * `AddRelatedTypes(typeId, allTypeIds, relatedIds)`: an id that is not
   * positive or is already listed adds nothing; any other is appended and
   * then each of its parents is walked in turn. The list only grows, so the
   * walk ends on cyclic rows too.
   */
  method AddRelatedTypes(typeId: int, all: IdList, rel: seq<Relation>)
    modifies all
    ensures old(all.ids) <= all.ids
    ensures typeId > 0 ==> typeId in all.ids
    ensures typeId <= 0 || typeId in old(all.ids) ==> all.ids == old(all.ids)
    ensures NoDuplicates(old(all.ids)) ==> NoDuplicates(all.ids)
    ensures ClosedBeyond(rel, all.ids, old(all.ids))
    ensures forall x :: x in all.ids && x !in old(all.ids) ==> Reaches(rel, typeId, x)
    decreases |Universe(rel) - Listed(all.ids)|
  {
    if typeId <= 0 || typeId in all.ids {
      return;
    }
    ghost var start := all.ids;
    all.ids := all.ids + [typeId];
    assert ReachesIn(rel, typeId, typeId, 0);
    var parents := Parents(rel, typeId);
    var j := 0;
    while j < |parents|
      invariant 0 <= j <= |parents|
      invariant start + [typeId] <= all.ids
      invariant NoDuplicates(start) ==> NoDuplicates(all.ids)
      invariant forall k :: 0 <= k < j && parents[k] > 0 ==> parents[k] in all.ids
      invariant forall x :: x in all.ids && x !in start && x != typeId ==>
        forall p :: p in Parents(rel, x) && p > 0 ==> p in all.ids
      invariant forall x :: x in all.ids && x !in start ==> Reaches(rel, typeId, x)
    {
      ghost var before := all.ids;
      WalkShrinks(rel, start, typeId, parents[j], all.ids);
      AddRelatedTypes(parents[j], all, rel);
      forall x | x in all.ids && x !in before
        ensures Reaches(rel, typeId, x)
      {
        ReachesThrough(rel, typeId, parents[j], x);
      }
      PrefixMembers(before, all.ids);
      j := j + 1;
    }
    PrefixMembers(start + [typeId], all.ids);
  }

  /** The walk from an empty list lists exactly the ids reachable from the root. */
  lemma RelatedTypesExact(rel: seq<Relation>, root: int, ids: seq<int>)
    requires root > 0 ==> root in ids
    requires ClosedBeyond(rel, ids, [])
    requires forall x :: x in ids ==> Reaches(rel, root, x)
    ensures forall x :: x in ids <==> Reaches(rel, root, x)
  {
    forall x | Reaches(rel, root, x)
      ensures x in ids
    {
      var n: nat :| ReachesIn(rel, root, x, n);
      ClosedComplete(rel, ids, root, x, n);
    }
  }

  // ------------------------------------------------------------ FindMappings

  /** `typeProperties` after the loop over the types (a later type with the same id wins). */
  function TypeProperties(cts: seq<ContentTypeInfo>): (r: map<int, seq<PropertyType>>)
  {
    if cts == [] then map[] else TypeProperties(cts[..|cts| - 1])[cts[|cts| - 1].id := cts[|cts| - 1].properties]
  }

  /** The parent row the loop adds for every type. */
  function ParentRows(cts: seq<ContentTypeInfo>): (r: seq<Relation>)
    ensures |r| == |cts|
    ensures forall i :: 0 <= i < |cts| ==> r[i] == Relation(cts[i].id, cts[i].parentId)
  {
    if cts == [] then [] else ParentRows(cts[..|cts| - 1]) + [Relation(cts[|cts| - 1].id, cts[|cts| - 1].parentId)]
  }

  /** `directlyUsed`: the types, in order, whose id some node uses. */
  function UsedOf(cts: seq<ContentTypeInfo>, usedTypes: seq<int>): (r: seq<ContentTypeInfo>)
    ensures forall ct :: ct in r <==> ct in cts && ct.id in usedTypes
  {
    if cts == [] then []
    else
      var last := cts[|cts| - 1];
      assert forall x :: x in cts <==> x in cts[..|cts| - 1] || x == last;
      UsedOf(cts[..|cts| - 1], usedTypes) + (if last.id in usedTypes then [last] else [])
  }

  /** The rows the walk follows: the composition table, then one parent row per type. */
  function AllRows(dbRelations: seq<Relation>, cts: seq<ContentTypeInfo>): seq<Relation>
  {
    dbRelations + ParentRows(cts)
  }

  /** `allTypeIds.SelectMany(id => typeProperties[id] or nothing)`. */
  function PropertiesOf(ids: seq<int>, props: map<int, seq<PropertyType>>): (r: seq<PropertyType>)
    ensures forall pt :: pt in r <==> exists x :: x in ids && x in props && pt in props[x]
  {
    if ids == [] then []
    else
      var last := ids[|ids| - 1];
      assert forall x :: x in ids <==> x in ids[..|ids| - 1] || x == last;
      PropertiesOf(ids[..|ids| - 1], props) + (if last in props then props[last] else [])
  }

  /** The field mappers the inner loop adds, one per property whose data type has a migration. */
  function MappingsOf(props: seq<PropertyType>, dataTypes: map<int, PropertyMigration>): (r: seq<FieldMapper>)
    ensures forall f :: f in r <==>
      exists pt :: pt in props && pt.dataTypeId in dataTypes && f == (pt.alias, dataTypes[pt.dataTypeId])
  {
    if props == [] then []
    else
      var last := props[|props| - 1];
      assert forall x :: x in props <==> x in props[..|props| - 1] || x == last;
      MappingsOf(props[..|props| - 1], dataTypes) + (if last.dataTypeId in dataTypes then [(last.alias, dataTypes[last.dataTypeId])] else [])
  }

  /** `f` is the mapper of a property of `root` or of a type it inherits from, whose data type has a migration. */
  ghost predicate Contributes(rel: seq<Relation>, props: map<int, seq<PropertyType>>, dataTypes: map<int, PropertyMigration>,
                              root: int, f: FieldMapper)
  {
    exists x, pt :: Reaches(rel, root, x) && x in props && pt in props[x] && pt.dataTypeId in dataTypes
      && f == (pt.alias, dataTypes[pt.dataTypeId])
  }

  /** Some field of the type `root` has a migration. */
  ghost predicate HasFields(rel: seq<Relation>, props: map<int, seq<PropertyType>>, dataTypes: map<int, PropertyMigration>, root: int)
  {
    exists f :: Contributes(rel, props, dataTypes, root, f)
  }

  /** Some mapper is for the type `ct`. */
  ghost predicate Covered(mappers: seq<Mapper>, ct: ContentTypeInfo)
  {
    exists m :: m in mappers && m.contentType == ct
  }

  /** The mappers built from the walk's ids are exactly the contributing ones. */
  lemma MappingsExact(rel: seq<Relation>, props: map<int, seq<PropertyType>>, dataTypes: map<int, PropertyMigration>,
                      root: int, ids: seq<int>)
    requires forall x :: x in ids <==> Reaches(rel, root, x)
    ensures forall f :: f in MappingsOf(Distinct(PropertiesOf(ids, props)), dataTypes) <==> Contributes(rel, props, dataTypes, root, f)
  {
    var all := Distinct(PropertiesOf(ids, props));
    forall f | Contributes(rel, props, dataTypes, root, f)
      ensures f in MappingsOf(all, dataTypes)
    {
      var x, pt :| Reaches(rel, root, x) && x in props && pt in props[x] && pt.dataTypeId in dataTypes
        && f == (pt.alias, dataTypes[pt.dataTypeId]);
      assert pt in all;
    }
  }

  /**
   * The body of the loop over the used types: the walk from the type, the
   * distinct properties of the types walked, and one field mapper per
   * property whose data type has a migration.
   */
  method FieldMappings(typeId: int, relations: seq<Relation>, typeProperties: map<int, seq<PropertyType>>,
                       dataTypes: map<int, PropertyMigration>)
    returns (mappings: seq<FieldMapper>)
    ensures forall f :: f in mappings <==> Contributes(relations, typeProperties, dataTypes, typeId, f)
  {
    var allTypeIds := new IdList();
    AddRelatedTypes(typeId, allTypeIds, relations);
    RelatedTypesExact(relations, typeId, allTypeIds.ids);
    var allProperties := Distinct(PropertiesOf(allTypeIds.ids, typeProperties));
    MappingsExact(relations, typeProperties, dataTypes, typeId, allTypeIds.ids);
    mappings := [];
    var k := 0;
    while k < |allProperties|
      invariant 0 <= k <= |allProperties|
      invariant mappings == MappingsOf(allProperties[..k], dataTypes)
    {
      assert allProperties[..k + 1][..k] == allProperties[..k];
      var property := allProperties[k];
      if property.dataTypeId in dataTypes {
        mappings := mappings + [(property.alias, dataTypes[property.dataTypeId])];
      }
      k := k + 1;
    }
    assert allProperties[..k] == allProperties;
  }

  /** The first loop of `FindMappings`: the properties by type, the parent rows appended, the directly used types. */
  method IndexTypes(cts: seq<ContentTypeInfo>, dbRelations: seq<Relation>, usedTypes: seq<int>)
    returns (typeProperties: map<int, seq<PropertyType>>, relations: seq<Relation>, directlyUsed: seq<ContentTypeInfo>)
    ensures typeProperties == TypeProperties(cts)
    ensures relations == AllRows(dbRelations, cts)
    ensures directlyUsed == UsedOf(cts, usedTypes)
  {
    typeProperties := map[];
    relations := dbRelations;
    directlyUsed := [];
    var i := 0;
    while i < |cts|
      invariant 0 <= i <= |cts|
      invariant typeProperties == TypeProperties(cts[..i])
      invariant relations == dbRelations + ParentRows(cts[..i])
      invariant directlyUsed == UsedOf(cts[..i], usedTypes)
    {
      assert cts[..i + 1][..i] == cts[..i];
      typeProperties := typeProperties[cts[i].id := cts[i].properties];
      relations := relations + [Relation(cts[i].id, cts[i].parentId)];
      if cts[i].id in usedTypes {
        directlyUsed := directlyUsed + [cts[i]];
      }
      i := i + 1;
    }
    assert cts[..i] == cts;
  }

  /** The second loop of `FindMappings`: one mapper per used type that has fields to rewrite. */
  method BuildMappers(directlyUsed: seq<ContentTypeInfo>, sourceType: BaseType, rel: seq<Relation>,
                      typeProperties: map<int, seq<PropertyType>>, dataTypes: map<int, PropertyMigration>)
    returns (mappers: seq<Mapper>)
    ensures forall m :: m in mappers ==> m.sourceType == sourceType && m.contentType in directlyUsed && m.fields != []
    ensures forall m :: m in mappers ==> forall f :: f in m.fields <==>
      Contributes(rel, typeProperties, dataTypes, m.contentType.id, f)
    ensures forall k :: 0 <= k < |directlyUsed| && HasFields(rel, typeProperties, dataTypes, directlyUsed[k].id) ==>
      Covered(mappers, directlyUsed[k])
  {
    mappers := [];
    var u := 0;
    while u < |directlyUsed|
      invariant 0 <= u <= |directlyUsed|
      invariant forall m :: m in mappers ==> m.sourceType == sourceType && m.contentType in directlyUsed && m.fields != []
      invariant forall m :: m in mappers ==> forall f :: f in m.fields <==>
        Contributes(rel, typeProperties, dataTypes, m.contentType.id, f)
      invariant forall k :: 0 <= k < u && HasFields(rel, typeProperties, dataTypes, directlyUsed[k].id) ==>
        Covered(mappers, directlyUsed[k])
    {
      var ct := directlyUsed[u];
      var mappings := FieldMappings(ct.id, rel, typeProperties, dataTypes);
      ghost var prev := mappers;
      if mappings != [] {
        mappers := mappers + [Mapper(sourceType, ct, mappings)];
        assert mappers[|mappers| - 1].contentType == ct;
        assert Covered(mappers, ct);
      } else {
        assert !HasFields(rel, typeProperties, dataTypes, ct.id) by {
          assert forall f :: !Contributes(rel, typeProperties, dataTypes, ct.id, f);
        }
      }
      assert forall c :: Covered(prev, c) ==> Covered(mappers, c);
      u := u + 1;
    }
  }

  /**
   * `FindMappings(cts, sourceType, dataTypes)`: the mappers of the used
   * types, in the order of `cts`. Every mapper rewrites exactly the fields
   * of its type and of the types it inherits from whose data type has a
   * migration, and a used type with no such field gets no mapper.
   */
  method FindMappings(cts: seq<ContentTypeInfo>, sourceType: BaseType, dataTypes: map<int, PropertyMigration>,
                      dbRelations: seq<Relation>, usedTypes: seq<int>)
    returns (mappers: seq<Mapper>)
    ensures forall m :: m in mappers ==>
      m.sourceType == sourceType && m.contentType in cts && m.contentType.id in usedTypes && m.fields != []
    ensures forall m :: m in mappers ==> forall f :: f in m.fields <==>
      Contributes(AllRows(dbRelations, cts), TypeProperties(cts), dataTypes, m.contentType.id, f)
    ensures forall ct :: ct in cts && ct.id in usedTypes && HasFields(AllRows(dbRelations, cts), TypeProperties(cts), dataTypes, ct.id) ==>
      Covered(mappers, ct)
  {
    var typeProperties, relations, directlyUsed := IndexTypes(cts, dbRelations, usedTypes);
    mappers := BuildMappers(directlyUsed, sourceType, relations, typeProperties, dataTypes);
    forall ct | ct in cts && ct.id in usedTypes && HasFields(relations, typeProperties, dataTypes, ct.id)
      ensures Covered(mappers, ct)
    {
      assert ct in directlyUsed;
      var k :| 0 <= k < |directlyUsed| && directlyUsed[k] == ct;
    }
  }
}
