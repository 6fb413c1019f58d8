/**
 * The older id-to-reference transform (`IdToUdiTransform` of the legacy
 * tree): like the newer one, but every token survives — a token that is not
 * an integer, or an id with no node, is written back as it was. The cache
 * is shared per kind across instances and remembers misses.
 */
module LegacyIdToUdi {
  import opened Wrappers
  import Text
  import opened Guids
  import opened Platform
  import opened Udis
  import opened Transforms
  import IdToUdi
  import Sets

  /** The reference of node `id` of kind `t`, written with the kind name `name`. */
  function ResolveNamed(repo: Repository, t: BaseType, name: string, id: int): Option<string>
  {
    var st := StoreOf(repo, t);
    if id in st.keyOf then Some(UdiFor(name, st.keyOf[id])) else None
  }

  /** `(int.TryParse(id, out var i) ? MapToUdi(ctx, i) : null) ?? id`, independent of any cache. */
  function TokenUdi(repo: Repository, t: BaseType, name: string, tok: string): string
  {
    match Text.ParseInt32(tok)
    case None => tok
    case Some(id) => ResolveNamed(repo, t, name, id).GetOr(tok)
  }

  function MapTokens(repo: Repository, t: BaseType, name: string, toks: seq<string>): (r: seq<string>)
    ensures |r| == |toks| && forall i :: 0 <= i < |toks| ==> r[i] == TokenUdi(repo, t, name, toks[i])
  {
    seq(|toks|, i requires 0 <= i < |toks| => TokenUdi(repo, t, name, toks[i]))
  }

  /** `Map(ctx, from)`: non-strings are returned as they are. */
  function MapValue(repo: Repository, t: BaseType, name: string, from: Value): Value
  {
    match from
    case VStr(ids) => VStr(Text.Join(MapTokens(repo, t, name, Text.SplitNonEmpty(ids, ',')), ','))
    case _ => from
  }

  function Transform(t: BaseType): PropertyTransform
  {
    PropertyTransform(TextGet, (svc: Services, v) => Ok(MapValue(svc.repo, t, TypeName(t), v)))
  }

  // ---------------------------------------------------------------- the cache

  /** One token through `MapToUdi` and the cache: the written text, the new entries, the ids looked up. */
  function Step(repo: Repository, t: BaseType, name: string, known: IdToUdi.Entries, tok: string)
    : (string, IdToUdi.Entries, seq<int>)
  {
    match Text.ParseInt32(tok)
    case None => (tok, known, [])
    case Some(id) =>
      if id in known then (known[id].GetOr(tok), known, [])
      else var u := ResolveNamed(repo, t, name, id); (u.GetOr(tok), known[id := u], [id])
  }

  function Run(repo: Repository, t: BaseType, name: string, known: IdToUdi.Entries, toks: seq<string>)
    : (seq<string>, IdToUdi.Entries, seq<int>)
  {
    if toks == [] then ([], known, [])
    else
      var (out, k, looked) := Run(repo, t, name, known, toks[..|toks| - 1]);
      var (u, k2, more) := Step(repo, t, name, k, toks[|toks| - 1]);
      (out + [u], k2, looked + more)
  }

  lemma RunPrefix(repo: Repository, t: BaseType, name: string, known: IdToUdi.Entries, toks: seq<string>, i: int)
    requires 0 <= i < |toks|
    ensures var r := Run(repo, t, name, known, toks[..i]);
      var st := Step(repo, t, name, r.1, toks[i]);
      Run(repo, t, name, known, toks[..i + 1]).0 == r.0 + [st.0]
      && Run(repo, t, name, known, toks[..i + 1]).1 == st.1
      && Run(repo, t, name, known, toks[..i + 1]).2 == r.2 + st.2
  {
    assert toks[..i + 1][..i] == toks[..i];
  }

  predicate Sound(repo: Repository, t: BaseType, name: string, known: IdToUdi.Entries)
  {
    forall id :: id in known ==> known[id] == ResolveNamed(repo, t, name, id)
  }

  /**
   * With a sound cache the memoised run equals the cache-free map; misses
   * are cached and never looked up again.
   */
  lemma {:induction false} RunTransparent(repo: Repository, t: BaseType, name: string, known: IdToUdi.Entries, toks: seq<string>)
    requires Sound(repo, t, name, known)
    ensures var (out, k, looked) := Run(repo, t, name, known, toks);
      out == MapTokens(repo, t, name, toks)
      && Sound(repo, t, name, k)
      && known.Keys <= k.Keys
      && (forall i :: 0 <= i < |looked| ==> looked[i] !in known && looked[i] in k)
      && (forall i, j :: 0 <= i < j < |looked| ==> looked[i] != looked[j])
  {
    if toks != [] {
      var front := toks[..|toks| - 1];
      RunTransparent(repo, t, name, known, front);
      var (out, k, looked) := Run(repo, t, name, known, front);
      var (u, k2, more) := Step(repo, t, name, k, toks[|toks| - 1]);
      StepSound(repo, t, name, k, toks[|toks| - 1]);
      Sets.LookedAppend(known, k, k2, looked, more);
      MapTokensSnoc(repo, t, name, toks);
      assert Run(repo, t, name, known, toks) == (out + [u], k2, looked + more);
    }
  }

  /** One step against a sound cache answers as the cache-free map and keeps the cache sound. */
  lemma StepSound(repo: Repository, t: BaseType, name: string, known: IdToUdi.Entries, tok: string)
    requires Sound(repo, t, name, known)
    ensures var (u, k, more) := Step(repo, t, name, known, tok);
      u == TokenUdi(repo, t, name, tok) && Sound(repo, t, name, k) && known.Keys <= k.Keys
      && |more| <= 1 && (forall i :: 0 <= i < |more| ==> more[i] !in known && more[i] in k)
  {
  }

  lemma MapTokensSnoc(repo: Repository, t: BaseType, name: string, toks: seq<string>)
    requires toks != []
    ensures MapTokens(repo, t, name, toks) == MapTokens(repo, t, name, toks[..|toks| - 1]) + [TokenUdi(repo, t, name, toks[|toks| - 1])]
  {
  }

  /** The private `MapToUdi(ctx, id)` composed with `?? id`, over one kind's cache. */
  method MapToken(svc: Services, tok: string, t: BaseType, name: string, known: IdToUdi.KnownIds)
    returns (udi: string)
    modifies known
    ensures udi == Step(svc.repo, t, name, old(known.entries), tok).0
    ensures known.entries == Step(svc.repo, t, name, old(known.entries), tok).1
    ensures known.lookups == old(known.lookups) + Step(svc.repo, t, name, old(known.entries), tok).2
  {
    var parsed := Text.ParseInt32(tok);
    if parsed.None? {
      return tok;
    }
    var id := parsed.value;
    if id in known.entries {
      return known.entries[id].GetOr(tok);
    }
    var st := StoreOf(svc.repo, t);
    var found: Option<string> := None;
    if id in st.keyOf {
      found := Some(UdiFor(name, st.keyOf[id]));
    }
    known.entries := known.entries[id := found];
    known.lookups := known.lookups + [id];
    udi := found.GetOr(tok);
  }

  /** The `Select(...)` loop of `Map` over the tokens, shared by both legacy id-to-reference classes. */
  method MapAll(svc: Services, toks: seq<string>, t: BaseType, name: string, known: IdToUdi.KnownIds)
    returns (out: seq<string>)
    modifies known
    ensures out == Run(svc.repo, t, name, old(known.entries), toks).0
    ensures known.entries == Run(svc.repo, t, name, old(known.entries), toks).1
    ensures known.lookups == old(known.lookups) + Run(svc.repo, t, name, old(known.entries), toks).2
  {
    ghost var known0 := known.entries;
    ghost var log0 := known.lookups;
    out := [];
    var i := 0;
    while i < |toks|
      invariant 0 <= i <= |toks|
      invariant out == Run(svc.repo, t, name, known0, toks[..i]).0
      invariant known.entries == Run(svc.repo, t, name, known0, toks[..i]).1
      invariant known.lookups == log0 + Run(svc.repo, t, name, known0, toks[..i]).2
    {
      RunPrefix(svc.repo, t, name, known0, toks, i);
      var u := MapToken(svc, toks[i], t, name, known);
      out := out + [u];
      i := i + 1;
    }
    assert toks[..i] == toks;
  }

  class IdToUdiTransform {
    const typ: BaseType
    const typeName: string
    const known: IdToUdi.KnownIds

    /** Lower-cases the kind name and takes (creating when absent) the kind's shared cache. */
    constructor (t: BaseType, shared: IdToUdi.UdiCache)
      modifies shared
      ensures typ == t && typeName == TypeName(t)
      ensures t in shared.kinds && known == shared.kinds[t]
      ensures t in old(shared.kinds) ==> shared.kinds == old(shared.kinds)
      ensures t !in old(shared.kinds) ==> known.entries == map[] && shared.kinds == old(shared.kinds)[t := known]
    {
      typ := t;
      typeName := TypeName(t);
      var k := shared.For(t);
      known := k;
    }

    method Map(svc: Services, from: Value) returns (r: Value)
      modifies known
      ensures !from.VStr? ==> r == from && known.entries == old(known.entries)
      ensures from.VStr? ==>
        r == VStr(Text.Join(Run(svc.repo, typ, typeName, old(known.entries), Text.SplitNonEmpty(from.s, ',')).0, ','))
        && known.entries == Run(svc.repo, typ, typeName, old(known.entries), Text.SplitNonEmpty(from.s, ',')).1
      ensures Sound(svc.repo, typ, typeName, old(known.entries)) ==>
        r == MapValue(svc.repo, typ, typeName, from) && Sound(svc.repo, typ, typeName, known.entries)
    {
      if !from.VStr? {
        return from;
      }
      var toks := Text.SplitNonEmpty(from.s, ',');
      ghost var known0 := known.entries;
      var out := MapAll(svc, toks, typ, typeName, known);
      r := VStr(Text.Join(out, ','));
      if Sound(svc.repo, typ, typeName, known0) {
        RunTransparent(svc.repo, typ, typeName, known0, toks);
      }
    }
  }

  // ---------------------------------------------------------------- what a map yields

  /**
   * Every token survives, in order: a non-integer or an id with no node is
   * written back as it was, an existing node's id becomes its reference.
   */
  lemma TokenRules(repo: Repository, t: BaseType, name: string, tok: string)
    ensures Text.ParseInt32(tok).None? ==> TokenUdi(repo, t, name, tok) == tok
    ensures Text.ParseInt32(tok).Some? && Text.ParseInt32(tok).value !in StoreOf(repo, t).keyOf ==>
      TokenUdi(repo, t, name, tok) == tok
    ensures Text.ParseInt32(tok).Some? && Text.ParseInt32(tok).value in StoreOf(repo, t).keyOf ==>
      TokenUdi(repo, t, name, tok) == UdiFor(name, StoreOf(repo, t).keyOf[Text.ParseInt32(tok).value])
  {
  }

  /** The written text of a token is again a token. */
  lemma TokenUdiIsToken(repo: Repository, t: BaseType, name: string, tok: string)
    requires IsKindName(name)
    requires tok != "" && ',' !in tok
    ensures TokenUdi(repo, t, name, tok) != "" && ',' !in TokenUdi(repo, t, name, tok)
    ensures TokenUdi(repo, t, name, tok) != tok ==> Text.ParseInt32(TokenUdi(repo, t, name, tok)).None?
  {
    var p := Text.ParseInt32(tok);
    if p.Some? && p.value in StoreOf(repo, t).keyOf {
      UdiForIsToken(name, StoreOf(repo, t).keyOf[p.value]);
    }
  }

  /** Mapping twice changes nothing more: a written reference is not an integer, and kept tokens map to themselves. */
  lemma MapValueIdempotent(repo: Repository, t: BaseType, name: string, from: Value)
    requires IsKindName(name)
    ensures MapValue(repo, t, name, MapValue(repo, t, name, from)) == MapValue(repo, t, name, from)
  {
    if from.VStr? {
      var toks := Text.SplitNonEmpty(from.s, ',');
      var out := MapTokens(repo, t, name, toks);
      forall i | 0 <= i < |toks|
        ensures out[i] != "" && ',' !in out[i]
        ensures TokenUdi(repo, t, name, out[i]) == out[i]
      {
        TokenUdiIsToken(repo, t, name, toks[i]);
      }
      Text.SplitNonEmptyJoin(out, ',');
      assert MapTokens(repo, t, name, out) == out;
    }
  }

  /**
   * When every integer token names an existing node, this transform and the
   * newer one run with `retainInvalidData` agree: they differ only on ids
   * with no node, which the newer one drops.
   */
  lemma {:induction false} AgreesWithRetaining(svc: Services, t: BaseType, toks: seq<string>)
    requires forall i :: 0 <= i < |toks| && Text.ParseInt32(toks[i]).Some? ==>
      Text.ParseInt32(toks[i]).value in StoreOf(svc.repo, t).keyOf
    ensures IdToUdi.MapTokens(svc, t, true, toks) == MapTokens(svc.repo, t, TypeName(t), toks)
  {
    forall i | 0 <= i < |toks|
      ensures IdToUdi.TokenUdi(svc, t, true, toks[i]) == Some(TokenUdi(svc.repo, t, TypeName(t), toks[i]))
    {
    }
    IdToUdi.MapTokensAllKept(svc, t, true, toks);
  }
}

/**
 * `IdToUdiMapper`: the same rule as the legacy transform, with an
 * instance-owned cache that callers may replace, and a `Type` property whose
 * setter also sets the kind name written into references.
 */
module LegacyIdToUdiMapper {
  import opened Wrappers
  import Text
  import opened Platform
  import opened Transforms
  import IdToUdi
  import LegacyIdToUdi

  class IdToUdiMapper {
    var typ: BaseType
    /** `_typeName`: empty (a null string interpolates as nothing) until `Type` is set. */
    var typeName: string
    var knownIds: IdToUdi.KnownIds

    /** `typ` is the enum's default value, which is not part of this model. */
    constructor (defaultType: BaseType)
      ensures typ == defaultType && typeName == ""
      ensures fresh(knownIds) && knownIds.entries == map[] && knownIds.lookups == []
    {
      typ := defaultType;
      typeName := "";
      knownIds := new IdToUdi.KnownIds();
    }

    /** The `Type` setter. */
    method SetType(t: BaseType)
      modifies this
      ensures typ == t && typeName == TypeName(t) && knownIds == old(knownIds)
    {
      typ := t;
      typeName := TypeName(t);
    }

    /** The `KnownIds` setter. */
    method SetKnownIds(k: IdToUdi.KnownIds)
      modifies this
      ensures knownIds == k && typ == old(typ) && typeName == old(typeName)
    {
      knownIds := k;
    }

    method Map(svc: Services, from: Value) returns (r: Value)
      modifies knownIds
      ensures !from.VStr? ==> r == from && knownIds.entries == old(knownIds.entries)
      ensures from.VStr? ==>
        r == VStr(Text.Join(LegacyIdToUdi.Run(svc.repo, typ, typeName, old(knownIds.entries), Text.SplitNonEmpty(from.s, ',')).0, ','))
        && knownIds.entries == LegacyIdToUdi.Run(svc.repo, typ, typeName, old(knownIds.entries), Text.SplitNonEmpty(from.s, ',')).1
      ensures LegacyIdToUdi.Sound(svc.repo, typ, typeName, old(knownIds.entries)) ==>
        r == LegacyIdToUdi.MapValue(svc.repo, typ, typeName, from)
        && LegacyIdToUdi.Sound(svc.repo, typ, typeName, knownIds.entries)
    {
      if !from.VStr? {
        return from;
      }
      var toks := Text.SplitNonEmpty(from.s, ',');
      ghost var known0 := knownIds.entries;
      var out := LegacyIdToUdi.MapAll(svc, toks, typ, typeName, knownIds);
      r := VStr(Text.Join(out, ','));
      if LegacyIdToUdi.Sound(svc.repo, typ, typeName, known0) {
        LegacyIdToUdi.RunTransparent(svc.repo, typ, typeName, known0, toks);
      }
    }
  }

  /**
   * Set up the way the field mapper does (`Type`, then a cache shared by
   * the mappers of the same kind), the mapper writes the same text as the
   * legacy transform of that kind.
   */
  method ConfiguredMap(svc: Services, t: BaseType, defaultType: BaseType, k: IdToUdi.KnownIds, from: Value)
    returns (r: Value)
    modifies k
    requires LegacyIdToUdi.Sound(svc.repo, t, TypeName(t), k.entries)
    ensures r == LegacyIdToUdi.MapValue(svc.repo, t, TypeName(t), from)
    ensures LegacyIdToUdi.Sound(svc.repo, t, TypeName(t), k.entries)
  {
    var m := new IdToUdiMapper(defaultType);
    m.SetType(t);
    m.SetKnownIds(k);
    r := m.Map(svc, from);
  }
}
