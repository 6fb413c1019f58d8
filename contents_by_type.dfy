/**
 * The content source of one content type (`ContentsByTypeSource`): the
 * type and every type below it, over parent and composition edges, and the
 * nodes of those types, fetched page by page. The three type services, the
 * content and media services and the member service are a `Catalog` value;
 * a paged query answers with the slice of the nodes of the queried types
 * that the page covers.
 */
module ContentsByType {
  import opened Wrappers
  import opened Platform
  import opened ContentMapper
  import opened Sets

  /** What the relation walk reads of an `IContentTypeComposition`. */
  datatype ContentTypeDef = ContentTypeDef(id: int, parentId: int, compositionIds: Option<seq<int>>)

  /**
   * The relation table: for each type id the ids of the types directly
   * below it, without repetition, in the order they were added (a
   * `HashSet<int>` enumerated in insertion order).
   */
  type Relations = map<int, seq<int>>

  function Kids(rel: Relations, p: int): seq<int>
  {
    if p in rel then rel[p] else []
  }

  /** Every set of the table is non-empty and holds no id twice. */
  predicate WellFormed(rel: Relations)
  {
    forall p :: p in rel ==> rel[p] != [] && NoDuplicates(rel[p])
  }

  // ---------------------------------------------------------------- AddRelation and GetRelationships

  /** `AddRelation(relations, parentId, childId)` on the table's value. */
  function AddEdge(rel: Relations, p: int, c: int): (r: Relations)
    ensures r.Keys == rel.Keys + {p}
    ensures forall q :: q != p && q in rel ==> r[q] == rel[q]
  {
    rel[p := if c in Kids(rel, p) then Kids(rel, p) else Kids(rel, p) + [c]]
  }

  /** A new edge creates the set when it is absent and adds the child once; an edge already there changes nothing. */
  lemma AddEdgeMembers(rel: Relations, p: int, c: int)
    requires WellFormed(rel)
    ensures WellFormed(AddEdge(rel, p, c))
    ensures forall q, x :: x in Kids(AddEdge(rel, p, c), q) <==> x in Kids(rel, q) || (q == p && x == c)
    ensures c in Kids(rel, p) ==> AddEdge(rel, p, c) == rel
  {
    var k := Kids(rel, p);
    if c !in k {
      var s := k + [c];
      forall i, j | 0 <= i < j < |s|
        ensures s[i] != s[j]
      {
        if j == |k| {
          assert s[i] == k[i];
        }
      }
    }
  }

  /** The edges of the composition ids `comps`, each to `child`, added in order. */
  function AddAll(rel: Relations, comps: seq<int>, child: int): Relations
  {
    if comps == [] then rel else AddEdge(AddAll(rel, comps[..|comps| - 1], child), comps[|comps| - 1], child)
  }

  /** The edges one type definition contributes: its parent's when `parentId > 0`, then one per composition id. */
  function DefEdges(rel: Relations, d: ContentTypeDef): Relations
  {
    var withParent := if d.parentId > 0 then AddEdge(rel, d.parentId, d.id) else rel;
    if d.compositionIds.Some? then AddAll(withParent, d.compositionIds.value, d.id) else withParent
  }

  /** `GetRelationships(allCompositions)` as a value. */
  function RelationsOf(defs: seq<ContentTypeDef>): Relations
  {
    if defs == [] then map[] else DefEdges(RelationsOf(defs[..|defs| - 1]), defs[|defs| - 1])
  }

  /** Whether `p` is a parent (a positive one) or a composition of `d`. */
  predicate Above(d: ContentTypeDef, p: int)
  {
    (d.parentId > 0 && d.parentId == p) || (d.compositionIds.Some? && p in d.compositionIds.value)
  }

  lemma {:induction false} AddAllMembers(rel: Relations, comps: seq<int>, child: int)
    requires WellFormed(rel)
    ensures WellFormed(AddAll(rel, comps, child))
    ensures forall q, x :: x in Kids(AddAll(rel, comps, child), q) <==> x in Kids(rel, q) || (q in comps && x == child)
  {
    if comps != [] {
      var front := comps[..|comps| - 1];
      AddAllMembers(rel, front, child);
      AddEdgeMembers(AddAll(rel, front, child), comps[|comps| - 1], child);
      assert forall q :: q in comps <==> q in front || q == comps[|comps| - 1];
    }
  }

  lemma DefEdgesMembers(rel: Relations, d: ContentTypeDef)
    requires WellFormed(rel)
    ensures WellFormed(DefEdges(rel, d))
    ensures forall q, x :: x in Kids(DefEdges(rel, d), q) <==> x in Kids(rel, q) || (Above(d, q) && x == d.id)
  {
    var withParent := if d.parentId > 0 then AddEdge(rel, d.parentId, d.id) else rel;
    if d.parentId > 0 {
      AddEdgeMembers(rel, d.parentId, d.id);
    }
    if d.compositionIds.Some? {
      AddAllMembers(withParent, d.compositionIds.value, d.id);
    }
  }

  /**
   * The table holds exactly the edges the definitions declare: `x` is
   * directly below `p` iff some definition with id `x` has `p` as its
   * positive parent id or among its composition ids; no set repeats an id.
   */
  lemma {:induction false} RelationsOfMembers(defs: seq<ContentTypeDef>)
    ensures WellFormed(RelationsOf(defs))
    ensures forall p, x :: x in Kids(RelationsOf(defs), p) <==> exists i :: 0 <= i < |defs| && defs[i].id == x && Above(defs[i], p)
  {
    if defs != [] {
      var front := defs[..|defs| - 1];
      var d := defs[|defs| - 1];
      RelationsOfMembers(front);
      DefEdgesMembers(RelationsOf(front), d);
      forall p, x
        ensures x in Kids(RelationsOf(defs), p) <==> exists i :: 0 <= i < |defs| && defs[i].id == x && Above(defs[i], p)
      {
        if exists i :: 0 <= i < |defs| && defs[i].id == x && Above(defs[i], p) {
          var i :| 0 <= i < |defs| && defs[i].id == x && Above(defs[i], p);
          if i < |front| {
            assert front[i] == defs[i];
          }
        }
        if exists i :: 0 <= i < |front| && front[i].id == x && Above(front[i], p) {
          var i :| 0 <= i < |front| && front[i].id == x && Above(front[i], p);
          assert defs[i] == front[i];
        }
      }
    }
  }

  /** The `Dictionary<int, HashSet<int>>` that `GetRelationships` fills. */
  class RelationTable {
    var children: Relations

    constructor ()
      ensures children == map[]
    {
      children := map[];
    }

    method AddRelation(parentId: int, childId: int)
      modifies this
      ensures children == AddEdge(old(children), parentId, childId)
    {
      var list: seq<int>;
      if parentId !in children {
        list := [];
        children := children[parentId := list];
      } else {
        list := children[parentId];
      }
      if childId !in list {
        list := list + [childId];
      }
      children := children[parentId := list];
    }

    /** The inner loop of `GetRelationships`: one edge from each composition id down to `childId`. */
    method AddCompositions(compIds: seq<int>, childId: int)
      modifies this
      ensures children == AddAll(old(children), compIds, childId)
    {
      ghost var base := children;
      var j := 0;
      while j < |compIds|
        invariant 0 <= j <= |compIds|
        invariant children == AddAll(base, compIds[..j], childId)
      {
        assert compIds[..j + 1][..j] == compIds[..j];
        AddRelation(compIds[j], childId);
        j := j + 1;
      }
      assert compIds[..j] == compIds;
    }
  }

  lemma RelationsOfSnoc(defs: seq<ContentTypeDef>, i: int)
    requires 0 <= i < |defs|
    ensures RelationsOf(defs[..i + 1]) == DefEdges(RelationsOf(defs[..i]), defs[i])
  {
    assert defs[..i + 1][..i] == defs[..i];
  }

  method GetRelationships(allCompositions: seq<ContentTypeDef>) returns (relations: RelationTable)
    ensures fresh(relations)
    ensures relations.children == RelationsOf(allCompositions)
  {
    relations := new RelationTable();
    var i := 0;
    while i < |allCompositions|
      invariant 0 <= i <= |allCompositions|
      invariant relations.children == RelationsOf(allCompositions[..i])
    {
      var composition := allCompositions[i];
      if composition.parentId > 0 {
        relations.AddRelation(composition.parentId, composition.id);
      }
      if composition.compositionIds.Some? {
        relations.AddCompositions(composition.compositionIds.value, composition.id);
      }
      RelationsOfSnoc(allCompositions, i);
      i := i + 1;
    }
    assert allCompositions[..i] == allCompositions;
  }

  // ---------------------------------------------------------------- GetIdAndDescendentIds

  /**
   * The walk terminates only on an acyclic table; `rank` witnesses that:
   * every edge leads to a strictly smaller rank.
   */
  predicate Ranked(rel: Relations, rank: int -> nat)
  {
    forall p :: p in rel ==> forall c :: c in rel[p] ==> rank(c) < rank(p)
  }

  /** `GetIdAndDescendentIds(parentId, relations)`: the id, then the walk below each child in order. */
  function Closure(rel: Relations, rank: int -> nat, id: int): (r: seq<int>)
    requires Ranked(rel, rank)
    ensures |r| >= 1 && r[0] == id
    decreases rank(id), 1
  {
    [id] + (if id in rel then Below(rel, rank, id, rel[id]) else [])
  }

  function Below(rel: Relations, rank: int -> nat, id: int, kids: seq<int>): seq<int>
    requires Ranked(rel, rank)
    requires forall c :: c in kids ==> rank(c) < rank(id)
    decreases rank(id), 0, |kids|
  {
    if kids == [] then [] else Closure(rel, rank, kids[0]) + Below(rel, rank, id, kids[1..])
  }

  /** A walk along edges of the table, from its first id to its last. */
  predicate IsPath(rel: Relations, path: seq<int>)
  {
    |path| >= 1 && forall i :: 0 <= i < |path| - 1 ==> path[i + 1] in Kids(rel, path[i])
  }

  lemma {:induction false} BelowHas(rel: Relations, rank: int -> nat, id: int, kids: seq<int>, k: int, x: int)
    requires Ranked(rel, rank)
    requires forall c :: c in kids ==> rank(c) < rank(id)
    requires k in kids && x in Closure(rel, rank, k)
    ensures x in Below(rel, rank, id, kids)
  {
    if kids[0] != k {
      BelowHas(rel, rank, id, kids[1..], k, x);
    }
  }

  lemma {:induction false} BelowFrom(rel: Relations, rank: int -> nat, id: int, kids: seq<int>, x: int) returns (k: int)
    requires Ranked(rel, rank)
    requires forall c :: c in kids ==> rank(c) < rank(id)
    requires x in Below(rel, rank, id, kids)
    ensures k in kids && x in Closure(rel, rank, k)
  {
    if x in Closure(rel, rank, kids[0]) {
      k := kids[0];
    } else {
      k := BelowFrom(rel, rank, id, kids[1..], x);
    }
  }

  /** The walk yields every id reachable from the root along the table's edges. */
  lemma {:induction false} ClosureComplete(rel: Relations, rank: int -> nat, path: seq<int>)
    requires Ranked(rel, rank)
    requires IsPath(rel, path)
    ensures path[|path| - 1] in Closure(rel, rank, path[0])
    decreases |path|
  {
    if |path| > 1 {
      var rest := path[1..];
      assert IsPath(rel, rest) by {
        forall i | 0 <= i < |rest| - 1
          ensures rest[i + 1] in Kids(rel, rest[i])
        {
          assert rest[i] == path[i + 1] && rest[i + 1] == path[i + 2];
        }
      }
      ClosureComplete(rel, rank, rest);
      assert path[1] in Kids(rel, path[0]);
      BelowHas(rel, rank, path[0], rel[path[0]], path[1], path[|path| - 1]);
    }
  }

  /** The walk yields nothing else: each id it yields ends a path from the root. */
  lemma {:induction false} ClosureSound(rel: Relations, rank: int -> nat, id: int, x: int) returns (path: seq<int>)
    requires Ranked(rel, rank)
    requires x in Closure(rel, rank, id)
    ensures IsPath(rel, path) && path[0] == id && path[|path| - 1] == x
    decreases rank(id)
  {
    if x == id {
      path := [id];
    } else {
      var k := BelowFrom(rel, rank, id, rel[id], x);
      var tail := ClosureSound(rel, rank, k, x);
      path := [id] + tail;
      forall i | 0 <= i < |path| - 1
        ensures path[i + 1] in Kids(rel, path[i])
      {
        if i > 0 {
          assert path[i] == tail[i - 1] && path[i + 1] == tail[i];
        }
      }
    }
  }

  /**
   * There is no visited set: a type reached along two routes (a diamond) is
   * yielded once per route.
   */
  lemma DiamondRepeats()
    ensures Ranked(DiamondTable(), DiamondRank)
    ensures Closure(DiamondTable(), DiamondRank, 1) == [1, 2, 4, 3, 4]
  {
    var rel := DiamondTable();
    DiamondRanked();
    DiamondSide(2);
    DiamondSide(3);
    assert [3][1..] == [] && Below(rel, DiamondRank, 1, [3]) == [3, 4];
    assert [2, 3][1..] == [3] && Below(rel, DiamondRank, 1, [2, 3]) == [2, 4, 3, 4];
  }

  /** 1 above 2 and 3, both above 4. */
  function DiamondTable(): Relations
  {
    map[1 := [2, 3], 2 := [4], 3 := [4]]
  }

  function DiamondRank(x: int): nat
  {
    if 1 <= x <= 4 then 4 - x else 0
  }

  lemma DiamondRanked()
    ensures Ranked(DiamondTable(), DiamondRank)
  {
  }

  lemma DiamondSide(k: int)
    requires k == 2 || k == 3
    ensures Ranked(DiamondTable(), DiamondRank) && Closure(DiamondTable(), DiamondRank, k) == [k, 4]
  {
    var rel := DiamondTable();
    DiamondRanked();
    assert 4 !in rel && Closure(rel, DiamondRank, 4) == [4];
    assert [4][1..] == [] && Below(rel, DiamondRank, k, [4]) == [4];
  }

  /** `GetIdAndDescendentIds(parent, allCompositions)`. */
  function TypeIds(defs: seq<ContentTypeDef>, rank: int -> nat, root: int): (r: seq<int>)
    requires Ranked(RelationsOf(defs), rank)
    ensures |r| >= 1 && r[0] == root
  {
    Closure(RelationsOf(defs), rank, root)
  }

  // ---------------------------------------------------------------- GetContentOfType

  /** A stored node and the id of its type. */
  datatype Item = Item(id: int, typeId: int)

  /** The nodes of the given types, in the order the store keeps them. */
  function OfTypes(stored: seq<Item>, ids: seq<int>): (r: seq<Item>)
    ensures forall x :: x in r <==> x in stored && x.typeId in ids
    ensures |r| <= |stored|
  {
    if stored == [] then []
    else OfTypes(stored[..|stored| - 1], ids) + (if stored[|stored| - 1].typeId in ids then [stored[|stored| - 1]] else [])
  }

  function Min(a: int, b: int): int { if a < b then a else b }

  /** `GetPagedOfTypes(ids, page, size, out total)`: the total, and the slice the page covers. */
  function PagedOfTypes(stored: seq<Item>, ids: seq<int>, page: int, size: int): (r: (int, seq<Item>))
    requires page >= 0 && size > 0
    ensures r.0 == |OfTypes(stored, ids)|
    ensures r.1 == OfTypes(stored, ids)[Min(page * size, r.0)..Min(page * size + size, r.0)]
  {
    var all := OfTypes(stored, ids);
    (|all|, all[Min(page * size, |all|)..Min(page * size + size, |all|)])
  }

  /**
   * `GetContentOfType(ids, getPagedOfTypes)`: pages of 100 at index
   * `idx / 100` until `idx` reaches the total. It yields exactly the nodes
   * of the given types in store order, fetching pages 0, 1, ... and one
   * page even when there is nothing to fetch.
   */
  method GetContentOfType(ids: seq<int>, stored: seq<Item>) returns (contents: seq<Item>, pages: seq<int>)
    ensures contents == OfTypes(stored, ids)
    ensures |pages| == if contents == [] then 1 else (|contents| + 99) / 100
    ensures forall i :: 0 <= i < |pages| ==> pages[i] == i
  {
    ghost var all := OfTypes(stored, ids);
    var idx := 0;
    var results := PagedOfTypes(stored, ids, idx / 100, 100);
    var total := results.0;
    contents := results.1;
    idx := idx + |results.1|;
    pages := [0];
    while idx < total
      invariant total == |all|
      invariant 0 <= idx <= total
      invariant contents == all[..idx]
      invariant idx < total ==> idx % 100 == 0 && idx > 0
      invariant idx < total ==> |pages| == idx / 100
      invariant idx == total ==> |pages| == if total == 0 then 1 else (total + 99) / 100
      invariant forall i :: 0 <= i < |pages| ==> pages[i] == i
      decreases total - idx
    {
      pages := pages + [idx / 100];
      results := PagedOfTypes(stored, ids, idx / 100, 100);
      total := results.0;
      contents := contents + results.1;
      idx := idx + |results.1|;
    }
    assert contents == all;
  }

  // ---------------------------------------------------------------- GetContents

  /** The type services and content services `GetContents` reads. */
  datatype Catalog = Catalog(
    contentTypes: map<string, int>,  // ContentTypeService.Get(alias)
    mediaTypes: map<string, int>,    // MediaTypeService: the media types by alias
    memberTypes: map<string, int>,   // MemberTypeService.Get(alias)
    contentTypeDefs: seq<ContentTypeDef>,
    mediaTypeDefs: seq<ContentTypeDef>,
    documents: seq<Item>,
    media: seq<Item>,
    members: seq<Item>)

  /** The type hierarchies of the catalog are acyclic, as `rank` witnesses. */
  predicate Acyclic(cat: Catalog, rank: int -> nat)
  {
    Ranked(RelationsOf(cat.contentTypeDefs), rank) && Ranked(RelationsOf(cat.mediaTypeDefs), rank)
  }

  /**
   * `GetContents(logger, ctx)` as written: the media branch looks the alias
   * up among the document types (`ContentTypeService.Get`), then walks the
   * media type hierarchy from the id it found.
   */
  function GetContentsAsWritten(name: Option<string>, source: SourceType, cat: Catalog, rank: int -> nat): (r: Result<seq<Item>>)
    requires Acyclic(cat, rank)
    ensures source != Kind(Media) ==> r == GetContentsSpec(name, source, cat, rank)
    ensures source == Kind(Media) && name.Some? && name.value !in cat.contentTypes ==> r == Ok([])
    ensures source == Kind(Media) && name.Some? && name.value in cat.contentTypes ==>
      r.Ok? && forall x :: x in r.value <==> (x in cat.media
        && exists path :: IsPath(RelationsOf(cat.mediaTypeDefs), path)
                          && path[0] == cat.contentTypes[name.value] && path[|path| - 1] == x.typeId)
  {
    if name.None? then Ok([])
    else
      match source
      case Kind(Document) =>
        if name.value in cat.contentTypes
        then Ok(OfTypes(cat.documents, TypeIds(cat.contentTypeDefs, rank, cat.contentTypes[name.value])))
        else Ok([])
      case Kind(Media) =>
        if name.value in cat.contentTypes then
          var r := OfTypes(cat.media, TypeIds(cat.mediaTypeDefs, rank, cat.contentTypes[name.value]));
          TypeIdsReach(cat.mediaTypeDefs, rank, cat.contentTypes[name.value]);
          Ok(r)
        else Ok([])
      case Kind(Member) =>
        if name.value in cat.memberTypes then Ok(OfTypes(cat.members, [cat.memberTypes[name.value]])) else Ok([])
      case OutOfRange => Err("Specified argument was out of the range of valid values.")
  }

  /**
   * `GetContents` with the media type looked up among the media types: the
   * nodes of the named type and of every type below it; nothing when the
   * alias is missing or absent; an out-of-range source type throws.
   */
  function GetContentsSpec(name: Option<string>, source: SourceType, cat: Catalog, rank: int -> nat): (r: Result<seq<Item>>)
    requires Acyclic(cat, rank)
    ensures r.Err? <==> name.Some? && source.OutOfRange?
    ensures name.None? ==> r == Ok([])
    ensures r.Ok? && source == Kind(Document) && name.Some? && name.value in cat.contentTypes ==>
      forall x :: x in r.value <==> (x in cat.documents
        && exists path :: IsPath(RelationsOf(cat.contentTypeDefs), path)
                          && path[0] == cat.contentTypes[name.value] && path[|path| - 1] == x.typeId)
    ensures r.Ok? && source == Kind(Media) && name.Some? && name.value in cat.mediaTypes ==>
      forall x :: x in r.value <==> (x in cat.media
        && exists path :: IsPath(RelationsOf(cat.mediaTypeDefs), path)
                          && path[0] == cat.mediaTypes[name.value] && path[|path| - 1] == x.typeId)
    ensures r.Ok? && name.Some? && source.Kind?
            && name.value !in (match source.t case Document => cat.contentTypes case Media => cat.mediaTypes case Member => cat.memberTypes)
            ==> r.value == []
  {
    if name.None? then Ok([])
    else
      match source
      case Kind(Document) =>
        if name.value in cat.contentTypes then
          var r := OfTypes(cat.documents, TypeIds(cat.contentTypeDefs, rank, cat.contentTypes[name.value]));
          TypeIdsReach(cat.contentTypeDefs, rank, cat.contentTypes[name.value]);
          Ok(r)
        else Ok([])
      case Kind(Media) =>
        if name.value in cat.mediaTypes then
          var r := OfTypes(cat.media, TypeIds(cat.mediaTypeDefs, rank, cat.mediaTypes[name.value]));
          TypeIdsReach(cat.mediaTypeDefs, rank, cat.mediaTypes[name.value]);
          Ok(r)
        else Ok([])
      case Kind(Member) =>
        if name.value in cat.memberTypes then Ok(OfTypes(cat.members, [cat.memberTypes[name.value]])) else Ok([])
      case OutOfRange => Err("Specified argument was out of the range of valid values.")
  }

  /** The ids `TypeIds` yields are exactly the ones reachable from the root. */
  lemma TypeIdsReach(defs: seq<ContentTypeDef>, rank: int -> nat, root: int)
    requires Ranked(RelationsOf(defs), rank)
    ensures forall t :: t in TypeIds(defs, rank, root) <==>
      exists path :: IsPath(RelationsOf(defs), path) && path[0] == root && path[|path| - 1] == t
  {
    var rel := RelationsOf(defs);
    forall t
      ensures t in TypeIds(defs, rank, root) <==> exists path :: IsPath(rel, path) && path[0] == root && path[|path| - 1] == t
    {
      if t in TypeIds(defs, rank, root) {
        var path := ClosureSound(rel, rank, root, t);
      }
      if exists path :: IsPath(rel, path) && path[0] == root && path[|path| - 1] == t {
        var path :| IsPath(rel, path) && path[0] == root && path[|path| - 1] == t;
        ClosureComplete(rel, rank, path);
      }
    }
  }

  /** A catalog with one media type, "Image" (id 1032), and one image, and no document types. */
  function ImageCatalog(): Catalog
  {
    Catalog(map[], map["Image" := 1032], map[], [], [ContentTypeDef(1032, -1, None)], [], [Item(1100, 1032)], [])
  }

  function FlatRank(x: int): nat { 0 }

  /** As written, the media type "Image" is not found, so none of its media are yielded. */
  lemma MediaLookupAsWritten()
    ensures Acyclic(ImageCatalog(), FlatRank)
    ensures GetContentsAsWritten(Some("Image"), Kind(Media), ImageCatalog(), FlatRank) == Ok([])
  {
    assert RelationsOf(ImageCatalog().mediaTypeDefs) == map[];
  }

  /** The image type has no subtypes in the image catalog. */
  lemma ImageTypeIds()
    ensures Ranked(RelationsOf(ImageCatalog().mediaTypeDefs), FlatRank)
    ensures TypeIds(ImageCatalog().mediaTypeDefs, FlatRank, 1032) == [1032]
  {
    assert RelationsOf(ImageCatalog().mediaTypeDefs) == map[];
  }

  /** The one image of the image catalog is of the image type. */
  lemma ImageMedia()
    ensures OfTypes(ImageCatalog().media, [1032]) == [Item(1100, 1032)]
  {
    assert ImageCatalog().media[..0] == [];
  }

  /** Looked up among the media types, "Image" yields its one image. */
  lemma MediaLookupCorrected()
    ensures Acyclic(ImageCatalog(), FlatRank)
    ensures GetContentsSpec(Some("Image"), Kind(Media), ImageCatalog(), FlatRank) == Ok([Item(1100, 1032)])
  {
    ImageTypeIds();
    ImageMedia();
  }

  /** `GetContents`, which fetches documents and media through the paging loop. */
  method GetContents(name: Option<string>, source: SourceType, cat: Catalog, rank: int -> nat) returns (r: Result<seq<Item>>)
    requires Acyclic(cat, rank)
    ensures r == GetContentsSpec(name, source, cat, rank)
  {
    if name.None? {
      return Ok([]);
    }
    match source {
      case Kind(Document) =>
        if name.value in cat.contentTypes {
          var allTypeIds := TypeIds(cat.contentTypeDefs, rank, cat.contentTypes[name.value]);
          var contents, _ := GetContentOfType(allTypeIds, cat.documents);
          return Ok(contents);
        }
        return Ok([]);
      case Kind(Media) =>
        if name.value in cat.mediaTypes {
          var allTypeIds := TypeIds(cat.mediaTypeDefs, rank, cat.mediaTypes[name.value]);
          var contents, _ := GetContentOfType(allTypeIds, cat.media);
          return Ok(contents);
        }
        return Ok([]);
      case Kind(Member) =>
        if name.value in cat.memberTypes {
          return Ok(OfTypes(cat.members, [cat.memberTypes[name.value]]));
        }
        return Ok([]);
      case OutOfRange =>
        return Err("Specified argument was out of the range of valid values.");
    }
  }
}
