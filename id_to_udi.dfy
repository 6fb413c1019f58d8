/**
 * The id-to-reference transform (`IdToUdiTransform`): a comma-separated list
 * of integer node ids becomes a list of `umb://<kind>/<guid>` references.
 * Tokens that already are references pass through, other non-integer tokens
 * are kept or dropped by the `retainInvalidData` flag, and ids with no node
 * are dropped. Answers are memoised per kind in a process-wide cache that
 * also remembers misses.
 */
module IdToUdi {
  import opened Wrappers
  import Text
  import opened Guids
  import opened Platform
  import opened Udis
  import opened Transforms
  import Sets

  /** The reference of node `id` of kind `t`, when the service has that node. */
  function Resolve(repo: Repository, t: BaseType, id: int): Option<string>
  {
    var st := StoreOf(repo, t);
    if id in st.keyOf then Some(UdiFor(TypeName(t), st.keyOf[id])) else None
  }

  /** What `MapToUdi` answers for one token, independent of any cache. */
  function TokenUdi(svc: Services, t: BaseType, retain: bool, tok: string): Option<string>
  {
    match Text.ParseInt32(tok)
    case None => if svc.udiParses(tok) || retain then Some(tok) else None
    case Some(id) => Resolve(svc.repo, t, id)
  }

  /** The `Select(MapToUdi).Where(i => i != null)` of the tokens. */
  function MapTokens(svc: Services, t: BaseType, retain: bool, toks: seq<string>): seq<string>
  {
    if toks == [] then []
    else
      var front := MapTokens(svc, t, retain, toks[..|toks| - 1]);
      match TokenUdi(svc, t, retain, toks[|toks| - 1])
      case None => front
      case Some(u) => front + [u]
  }

  /** `Map(ctx, from)`: non-strings are returned as they are. */
  function MapValue(svc: Services, t: BaseType, retain: bool, from: Value): Value
  {
    match from
    case VStr(ids) => VStr(Text.Join(MapTokens(svc, t, retain, Text.SplitNonEmpty(ids, ',')), ','))
    case _ => from
  }

  /** The transform as the migration runner sees it. */
  function Transform(t: BaseType, retain: bool): PropertyTransform
  {
    PropertyTransform(TextGet, (svc, v) => Ok(MapValue(svc, t, retain, v)))
  }

  // ---------------------------------------------------------------- the cache

  type Entries = map<int, Option<string>>

  /** One `MapToUdi` call against the entries of kind `t`: the answer, the new entries, the ids looked up. */
  function Step(svc: Services, t: BaseType, retain: bool, known: Entries, tok: string)
    : (Option<string>, Entries, seq<int>)
  {
    match Text.ParseInt32(tok)
    case None => (if svc.udiParses(tok) || retain then Some(tok) else None, known, [])
    case Some(id) =>
      if id in known then (known[id], known, [])
      else var u := Resolve(svc.repo, t, id); (u, known[id := u], [id])
  }

  /** `MapToUdi` over the tokens in order: the kept answers, the final entries, the ids looked up. */
  function Run(svc: Services, t: BaseType, retain: bool, known: Entries, toks: seq<string>)
    : (seq<string>, Entries, seq<int>)
  {
    if toks == [] then ([], known, [])
    else
      var (out, k, looked) := Run(svc, t, retain, known, toks[..|toks| - 1]);
      var (u, k2, more) := Step(svc, t, retain, k, toks[|toks| - 1]);
      (if u.Some? then out + [u.value] else out, k2, looked + more)
  }

  /** One more token extends a run by one step. */
  lemma RunPrefix(svc: Services, t: BaseType, retain: bool, known: Entries, toks: seq<string>, i: int)
    requires 0 <= i < |toks|
    ensures var r := Run(svc, t, retain, known, toks[..i]);
      var st := Step(svc, t, retain, r.1, toks[i]);
      Run(svc, t, retain, known, toks[..i + 1]).0 == (if st.0.Some? then r.0 + [st.0.value] else r.0)
      && Run(svc, t, retain, known, toks[..i + 1]).1 == st.1
      && Run(svc, t, retain, known, toks[..i + 1]).2 == r.2 + st.2
  {
    assert toks[..i + 1][..i] == toks[..i];
  }

  /** Every cached entry of kind `t` is what the repository answers now. */
  predicate Sound(repo: Repository, t: BaseType, known: Entries)
  {
    forall id :: id in known ==> known[id] == Resolve(repo, t, id)
  }

  /**
   * With a sound cache, memoising changes no answer: the cached run equals
   * the cache-free map, the cache stays sound, ids are looked up at most
   * once, only when not cached before, and every looked-up id (hit or miss)
   * ends up cached.
   */
  lemma {:induction false} RunTransparent(svc: Services, t: BaseType, retain: bool, known: Entries, toks: seq<string>)
    requires Sound(svc.repo, t, known)
    ensures var (out, k, looked) := Run(svc, t, retain, known, toks);
      out == MapTokens(svc, t, retain, toks)
      && Sound(svc.repo, t, k)
      && known.Keys <= k.Keys
      && (forall i :: 0 <= i < |looked| ==> looked[i] !in known && looked[i] in k)
      && (forall i, j :: 0 <= i < j < |looked| ==> looked[i] != looked[j])
  {
    if toks != [] {
      var front := toks[..|toks| - 1];
      RunTransparent(svc, t, retain, known, front);
      var (out, k, looked) := Run(svc, t, retain, known, front);
      var (u, k2, more) := Step(svc, t, retain, k, toks[|toks| - 1]);
      StepSound(svc, t, retain, k, toks[|toks| - 1]);
      Sets.LookedAppend(known, k, k2, looked, more);
      assert Run(svc, t, retain, known, toks) == (if u.Some? then out + [u.value] else out, k2, looked + more);
    }
  }

  /** One step against a sound cache answers as the cache-free map and keeps the cache sound. */
  lemma StepSound(svc: Services, t: BaseType, retain: bool, known: Entries, tok: string)
    requires Sound(svc.repo, t, known)
    ensures var (u, k, more) := Step(svc, t, retain, known, tok);
      u == TokenUdi(svc, t, retain, tok) && Sound(svc.repo, t, k) && known.Keys <= k.Keys
      && |more| <= 1 && (forall i :: 0 <= i < |more| ==> more[i] !in known && more[i] in k)
  {
  }


  /** The cache of one kind: the answer remembered for each id (misses included), and the ids looked up so far. */
  class KnownIds {
    var entries: Entries
    var lookups: seq<int>

    constructor ()
      ensures entries == map[] && lookups == []
    {
      entries := map[];
      lookups := [];
    }
  }

  /** The process-wide `KnownIds` dictionary: one cache per kind, created on first use. */
  class UdiCache {
    var kinds: map<BaseType, KnownIds>

    constructor ()
      ensures kinds == map[]
    {
      kinds := map[];
    }

    /** `KnownIds[type]`, adding a fresh empty cache when the kind has none yet. */
    method For(t: BaseType) returns (k: KnownIds)
      modifies this
      ensures t in kinds && k == kinds[t]
      ensures t in old(kinds) ==> kinds == old(kinds)
      ensures t !in old(kinds) ==> fresh(k) && k.entries == map[] && k.lookups == [] && kinds == old(kinds)[t := k]
    {
      if t in kinds {
        k := kinds[t];
      } else {
        k := new KnownIds();
        kinds := kinds[t := k];
      }
    }
  }

  /** The body of `MapToUdi` once the cache of kind `t` is at hand. */
  method MapToUdiWith(svc: Services, idOrUdi: string, t: BaseType, retain: bool, known: KnownIds)
    returns (udi: Option<string>)
    modifies known
    ensures udi == Step(svc, t, retain, old(known.entries), idOrUdi).0
    ensures known.entries == Step(svc, t, retain, old(known.entries), idOrUdi).1
    ensures known.lookups == old(known.lookups) + Step(svc, t, retain, old(known.entries), idOrUdi).2
  {
    var parsed := Text.ParseInt32(idOrUdi);
    if parsed.None? {
      if svc.udiParses(idOrUdi) { return Some(idOrUdi); }
      return if retain then Some(idOrUdi) else None;
    }
    var id := parsed.value;
    if id in known.entries {
      return known.entries[id];
    }
    var st := StoreOf(svc.repo, t);
    udi := None;
    if id in st.keyOf {
      udi := Some(UdiFor(TypeName(t), st.keyOf[id]));
    }
    known.entries := known.entries[id := udi];
    known.lookups := known.lookups + [id];
  }

  /** Every kind's cache holds the repository's answers for that kind, and no two kinds share a cache. */
  ghost predicate CacheSound(repo: Repository, kinds: map<BaseType, KnownIds>)
    reads kinds.Values
  {
    (forall t :: t in kinds ==> Sound(repo, t, kinds[t].entries))
    && (forall t, u :: t in kinds && u in kinds && t != u ==> kinds[t] != kinds[u])
  }

  /**
   * The static `MapToUdi(ctx, idOrUdi, type, retainInvalidData, out node)`:
   * only the kind's own cache changes, by one cache step, and a sound
   * shared cache stays sound.
   */
  method MapToUdi(svc: Services, idOrUdi: string, t: BaseType, retain: bool, cache: UdiCache)
    returns (udi: Option<string>)
    modifies cache, cache.kinds.Values
    ensures t in cache.kinds && (t in old(cache.kinds) ==> cache.kinds == old(cache.kinds))
    ensures t !in old(cache.kinds) ==> cache.kinds == old(cache.kinds)[t := cache.kinds[t]] && fresh(cache.kinds[t])
    ensures var k := cache.kinds[t];
      var before := if t in old(cache.kinds) then old(k.entries) else map[];
      udi == Step(svc, t, retain, before, idOrUdi).0 && k.entries == Step(svc, t, retain, before, idOrUdi).1
    ensures forall u :: u in old(cache.kinds) && old(cache.kinds[u]) != cache.kinds[t] ==>
      cache.kinds[u].entries == old(cache.kinds[u].entries)
    ensures old(CacheSound(svc.repo, cache.kinds)) ==> CacheSound(svc.repo, cache.kinds)
  {
    ghost var sound := CacheSound(svc.repo, cache.kinds);
    ghost var before := if t in cache.kinds then cache.kinds[t].entries else map[];
    var k := cache.For(t);
    udi := MapToUdiWith(svc, idOrUdi, t, retain, k);
    if sound {
      StepSound(svc, t, retain, before, idOrUdi);
    }
  }

  class IdToUdiTransform {
    const typ: BaseType
    const retainInvalidData: bool
    const typeName: string
    const known: KnownIds

    /** The constructor lower-cases the kind name and makes sure the kind has a cache. */
    constructor (t: BaseType, retain: bool, shared: UdiCache)
      modifies shared
      ensures typ == t && retainInvalidData == retain && typeName == TypeName(t)
      ensures t in shared.kinds && known == shared.kinds[t]
      ensures t in old(shared.kinds) ==> shared.kinds == old(shared.kinds)
      ensures t !in old(shared.kinds) ==> known.entries == map[] && shared.kinds == old(shared.kinds)[t := known]
    {
      typ := t;
      retainInvalidData := retain;
      typeName := TypeName(t);
      var k := shared.For(t);
      known := k;
    }

    /** The `Select(MapToUdi).Where(i => i != null)` loop over the tokens. */
    method MapAll(svc: Services, toks: seq<string>) returns (out: seq<string>)
      modifies known
      ensures out == Run(svc, typ, retainInvalidData, old(known.entries), toks).0
      ensures known.entries == Run(svc, typ, retainInvalidData, old(known.entries), toks).1
      ensures known.lookups == old(known.lookups) + Run(svc, typ, retainInvalidData, old(known.entries), toks).2
    {
      ghost var known0 := known.entries;
      ghost var log0 := known.lookups;
      out := [];
      var i := 0;
      while i < |toks|
        invariant 0 <= i <= |toks|
        invariant out == Run(svc, typ, retainInvalidData, known0, toks[..i]).0
        invariant known.entries == Run(svc, typ, retainInvalidData, known0, toks[..i]).1
        invariant known.lookups == log0 + Run(svc, typ, retainInvalidData, known0, toks[..i]).2
      {
        RunPrefix(svc, typ, retainInvalidData, known0, toks, i);
        var u := MapToUdiWith(svc, toks[i], typ, retainInvalidData, known);
        if u.Some? {
          out := out + [u.value];
        }
        i := i + 1;
      }
      assert toks[..i] == toks;
    }

    /** `Map(ctx, from)`: split, map each token through the cache, drop nulls, join. */
    method Map(svc: Services, from: Value) returns (r: Value)
      modifies known
      ensures !from.VStr? ==> r == from && known.entries == old(known.entries)
      ensures from.VStr? ==>
        r == VStr(Text.Join(Run(svc, typ, retainInvalidData, old(known.entries), Text.SplitNonEmpty(from.s, ',')).0, ','))
        && known.entries == Run(svc, typ, retainInvalidData, old(known.entries), Text.SplitNonEmpty(from.s, ',')).1
      ensures Sound(svc.repo, typ, old(known.entries)) ==>
        r == MapValue(svc, typ, retainInvalidData, from) && Sound(svc.repo, typ, known.entries)
    {
      if !from.VStr? {
        return from;
      }
      var toks := Text.SplitNonEmpty(from.s, ',');
      ghost var known0 := known.entries;
      var out := MapAll(svc, toks);
      r := VStr(Text.Join(out, ','));
      if Sound(svc.repo, typ, known0) {
        RunTransparent(svc, typ, retainInvalidData, known0, toks);
      }
    }
  }

  // ---------------------------------------------------------------- what a map yields

  /** The token rules: references pass, other text is kept only when retaining, unknown ids are dropped. */
  lemma TokenRules(svc: Services, t: BaseType, retain: bool, tok: string)
    ensures Text.ParseInt32(tok).None? && svc.udiParses(tok) ==> TokenUdi(svc, t, retain, tok) == Some(tok)
    ensures Text.ParseInt32(tok).None? && !svc.udiParses(tok) ==>
      (TokenUdi(svc, t, retain, tok) == Some(tok) <==> retain)
      && (TokenUdi(svc, t, retain, tok).None? <==> !retain)
    ensures Text.ParseInt32(tok).Some? ==>
      (TokenUdi(svc, t, retain, tok).None? <==> Text.ParseInt32(tok).value !in StoreOf(svc.repo, t).keyOf)
  {
  }

  /** A resolved reference is `umb://` + the lower-case kind + `/` + the 32-digit key, and reads back as that kind and key. */
  lemma ResolvedShape(repo: Repository, t: BaseType, id: int)
    requires Resolve(repo, t, id).Some?
    ensures var u := Resolve(repo, t, id).value; var g := StoreOf(repo, t).keyOf[id];
      u == "umb://" + TypeName(t) + "/" + FormatN(g)
      && |u| == 6 + |TypeName(t)| + 1 + 32
      && ParseUdi(u) == Some((TypeName(t), g))
  {
    ParseUdiFor(TypeName(t), StoreOf(repo, t).keyOf[id]);
  }

  /** Each kept text comes from one token: the token itself (not an id), or the reference of a node that exists. */
  lemma {:induction false} MapTokensOrigin(svc: Services, t: BaseType, retain: bool, toks: seq<string>)
    ensures forall x :: x in MapTokens(svc, t, retain, toks) ==>
      exists i :: 0 <= i < |toks| && TokenUdi(svc, t, retain, toks[i]) == Some(x)
    ensures forall i :: 0 <= i < |toks| && TokenUdi(svc, t, retain, toks[i]).Some? ==>
      TokenUdi(svc, t, retain, toks[i]).value in MapTokens(svc, t, retain, toks)
  {
    if toks != [] {
      var front := toks[..|toks| - 1];
      MapTokensOrigin(svc, t, retain, front);
      forall x | x in MapTokens(svc, t, retain, toks)
        ensures exists i :: 0 <= i < |toks| && TokenUdi(svc, t, retain, toks[i]) == Some(x)
      {
        if x in MapTokens(svc, t, retain, front) {
          var i :| 0 <= i < |front| && TokenUdi(svc, t, retain, front[i]) == Some(x);
          assert toks[i] == front[i];
        }
      }
      forall i | 0 <= i < |toks| && TokenUdi(svc, t, retain, toks[i]).Some?
        ensures TokenUdi(svc, t, retain, toks[i]).value in MapTokens(svc, t, retain, toks)
      {
        if i < |toks| - 1 { assert toks[i] == front[i]; }
      }
    }
  }

  /** When no token is dropped, the map is pointwise. */
  lemma {:induction false} MapTokensAllKept(svc: Services, t: BaseType, retain: bool, toks: seq<string>)
    requires forall i :: 0 <= i < |toks| ==> TokenUdi(svc, t, retain, toks[i]).Some?
    ensures |MapTokens(svc, t, retain, toks)| == |toks|
    ensures forall i :: 0 <= i < |toks| ==> MapTokens(svc, t, retain, toks)[i] == TokenUdi(svc, t, retain, toks[i]).value
  {
    if toks != [] {
      var n := |toks| - 1;
      var front := toks[..n];
      assert forall i :: 0 <= i < |front| ==> front[i] == toks[i];
      MapTokensAllKept(svc, t, retain, front);
      var r := MapTokens(svc, t, retain, front);
      var u := TokenUdi(svc, t, retain, toks[n]).value;
      assert MapTokens(svc, t, retain, toks) == r + [u];
      forall i | 0 <= i < |toks|
        ensures MapTokens(svc, t, retain, toks)[i] == TokenUdi(svc, t, retain, toks[i]).value
      {
        if i < n {
          assert (r + [u])[i] == r[i];
        }
      }
    }
  }

  /** The answer for a token is a token again: non-empty and free of commas. */
  lemma TokenUdiIsToken(svc: Services, t: BaseType, retain: bool, tok: string)
    requires tok != "" && ',' !in tok
    ensures TokenUdi(svc, t, retain, tok).Some? ==>
      TokenUdi(svc, t, retain, tok).value != "" && ',' !in TokenUdi(svc, t, retain, tok).value
  {
    var p := Text.ParseInt32(tok);
    if p.Some? && Resolve(svc.repo, t, p.value).Some? {
      UdiForIsToken(TypeName(t), StoreOf(svc.repo, t).keyOf[p.value]);
    }
  }

  lemma {:induction false} MapTokensAreTokens(svc: Services, t: BaseType, retain: bool, toks: seq<string>)
    requires Text.IsTokenList(toks, ',')
    ensures Text.IsTokenList(MapTokens(svc, t, retain, toks), ',')
  {
    if toks != [] {
      MapTokensAreTokens(svc, t, retain, toks[..|toks| - 1]);
      TokenUdiIsToken(svc, t, retain, toks[|toks| - 1]);
    }
  }

  /** When `Udi.TryParse` accepts every reference this transform writes, answering a token twice changes nothing. */
  lemma TokenUdiIdempotent(svc: Services, t: BaseType, retain: bool, tok: string)
    requires forall g: Guid :: svc.udiParses(UdiFor(TypeName(t), g))
    requires TokenUdi(svc, t, retain, tok).Some?
    ensures TokenUdi(svc, t, retain, TokenUdi(svc, t, retain, tok).value) == TokenUdi(svc, t, retain, tok)
  {
    var p := Text.ParseInt32(tok);
    if p.Some? {
      var g := StoreOf(svc.repo, t).keyOf[p.value];
      UdiForIsToken(TypeName(t), g);
      assert svc.udiParses(UdiFor(TypeName(t), g));
    }
  }

  lemma {:induction false} MapTokensIdempotent(svc: Services, t: BaseType, retain: bool, toks: seq<string>)
    requires forall g: Guid :: svc.udiParses(UdiFor(TypeName(t), g))
    ensures MapTokens(svc, t, retain, MapTokens(svc, t, retain, toks)) == MapTokens(svc, t, retain, toks)
  {
    if toks != [] {
      var front := toks[..|toks| - 1];
      var mf := MapTokens(svc, t, retain, front);
      MapTokensIdempotent(svc, t, retain, front);
      match TokenUdi(svc, t, retain, toks[|toks| - 1]) {
        case None =>
        case Some(u) =>
          TokenUdiIdempotent(svc, t, retain, toks[|toks| - 1]);
          assert (mf + [u])[..|mf + [u]| - 1] == mf;
      }
    }
  }

  /** Mapping an already mapped value again changes nothing: a second migration run finds nothing to do. */
  lemma MapValueIdempotent(svc: Services, t: BaseType, retain: bool, from: Value)
    requires forall g: Guid :: svc.udiParses(UdiFor(TypeName(t), g))
    ensures MapValue(svc, t, retain, MapValue(svc, t, retain, from)) == MapValue(svc, t, retain, from)
  {
    if from.VStr? {
      var toks := Text.SplitNonEmpty(from.s, ',');
      var out := MapTokens(svc, t, retain, toks);
      MapTokensAreTokens(svc, t, retain, toks);
      Text.SplitNonEmptyJoin(out, ',');
      MapTokensIdempotent(svc, t, retain, toks);
    }
  }
}
