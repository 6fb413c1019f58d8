/**
 * The legacy content source of one content type: the same relation table
 * and walk as `ContentsByType`, but the nodes are fetched type by type, in
 * the order of the walk (`SelectMany`), with no paging.
 */
module LegacyContentsByType {
  import opened Wrappers
  import opened Platform
  import opened ContentMapper
  import opened ContentsByType

  /** `ids.SelectMany(id => GetContentOfContentType(id))`. */
  function PerType(stored: seq<Item>, ids: seq<int>): seq<Item>
  {
    if ids == [] then [] else PerType(stored, ids[..|ids| - 1]) + OfTypes(stored, [ids[|ids| - 1]])
  }

  /** Fetching type by type finds the same nodes as one query over all the types. */
  lemma {:induction false} PerTypeMembers(stored: seq<Item>, ids: seq<int>)
    ensures forall x :: x in PerType(stored, ids) <==> x in OfTypes(stored, ids)
  {
    if ids != [] {
      var front := ids[..|ids| - 1];
      PerTypeMembers(stored, front);
      assert forall t :: t in ids <==> t in front || t == ids[|ids| - 1];
    }
  }

  /** An id that occurs twice in the walk has its nodes fetched twice. */
  lemma {:induction false} PerTypeRepeats(stored: seq<Item>, ids: seq<int>, x: Item)
    requires x in stored
    ensures multiset(PerType(stored, ids))[x] >= multiset(ids)[x.typeId]
  {
    if ids != [] {
      var front := ids[..|ids| - 1];
      var last := ids[|ids| - 1];
      PerTypeRepeats(stored, front, x);
      assert ids == front + [last];
      if last == x.typeId {
        assert x in OfTypes(stored, [last]);
      }
    }
  }

  /**
   * `GetContents(logger, ctx)`: the nodes of each type of the walk, in walk
   * order; nothing when the alias is missing or unknown; an out-of-range
   * source type throws.
   */
  function GetContents(name: Option<string>, source: SourceType, cat: Catalog, rank: int -> nat): (r: Result<seq<Item>>)
    requires Acyclic(cat, rank)
    ensures r.Err? <==> name.Some? && source.OutOfRange?
    ensures name.None? ==> r == Ok([])
  {
    if name.None? then Ok([])
    else
      match source
      case Kind(Document) =>
        if name.value in cat.contentTypes
        then Ok(PerType(cat.documents, TypeIds(cat.contentTypeDefs, rank, cat.contentTypes[name.value])))
        else Ok([])
      case Kind(Media) =>
        if name.value in cat.mediaTypes
        then Ok(PerType(cat.media, TypeIds(cat.mediaTypeDefs, rank, cat.mediaTypes[name.value])))
        else Ok([])
      case Kind(Member) =>
        if name.value in cat.memberTypes then Ok(OfTypes(cat.members, [cat.memberTypes[name.value]])) else Ok([])
      case OutOfRange => Err("Specified argument was out of the range of valid values.")
  }

  /**
   * The legacy source yields the same nodes as the paged one (with the
   * media lookup corrected), though possibly in another order and with
   * repetitions.
   */
  lemma SameNodes(name: Option<string>, source: SourceType, cat: Catalog, rank: int -> nat)
    requires Acyclic(cat, rank)
    ensures GetContents(name, source, cat, rank).Ok? <==> GetContentsSpec(name, source, cat, rank).Ok?
    ensures GetContents(name, source, cat, rank).Ok? ==>
      forall x :: x in GetContents(name, source, cat, rank).value <==> x in GetContentsSpec(name, source, cat, rank).value
  {
    if name.Some? && source.Kind? {
      match source.t {
        case Document =>
          if name.value in cat.contentTypes {
            PerTypeMembers(cat.documents, TypeIds(cat.contentTypeDefs, rank, cat.contentTypes[name.value]));
          }
        case Media =>
          if name.value in cat.mediaTypes {
            PerTypeMembers(cat.media, TypeIds(cat.mediaTypeDefs, rank, cat.mediaTypes[name.value]));
          }
        case Member =>
      }
    }
  }
}
