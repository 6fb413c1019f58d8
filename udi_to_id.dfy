/**
 * The reference-to-id transform (`UdiToIdTransform`): a comma-separated list
 * of `umb://<kind>/<guid>` references becomes a list of integer node ids.
 * A token that is not a reference, or whose node does not exist, is kept as
 * it is. Answers for well-formed references are memoised in a process-wide
 * cache, misses included; malformed tokens are never cached.
 */
module UdiToId {
  import opened Wrappers
  import Text
  import opened Guids
  import opened Platform
  import opened Udis
  import opened Transforms
  import IdToUdi
  import Sets

  /** The `switch (u.Host)`: only the three kinds are looked up, by exact name. */
  function KindOfHost(host: string): (r: Option<BaseType>)
    ensures r.Some? ==> TypeName(r.value) == host
  {
    if host == "document" then Some(Document)
    else if host == "media" then Some(Media)
    else if host == "member" then Some(Member)
    else None
  }

  lemma KindOfTypeName(t: BaseType)
    ensures KindOfHost(TypeName(t)) == Some(t)
  {
  }

  /**
   * What the repository says about a token: None when it is not a reference
   * (nothing is cached), Some(None) when it is one but no node has that key,
   * Some(Some(id)) with the node's id in decimal.
   */
  function ResolveId(repo: Repository, udi: string): Option<Option<string>>
  {
    match ParseUdi(udi)
    case None => None
    case Some((host, g)) =>
      match KindOfHost(host)
      case None => Some(None)
      case Some(t) =>
        var st := StoreOf(repo, t);
        Some(if g in st.idOf then Some(Text.IntToString(st.idOf[g])) else None)
  }

  /** What the repository says about a well-formed reference with that host and key. */
  lemma ResolveIdParsed(repo: Repository, udi: string, host: string, g: Guid)
    requires ParseUdi(udi) == Some((host, g))
    ensures ResolveId(repo, udi) == Some(
      if KindOfHost(host).Some? && g in StoreOf(repo, KindOfHost(host).value).idOf
      then Some(Text.IntToString(StoreOf(repo, KindOfHost(host).value).idOf[g])) else None)
  {
  }

  /** A token that is not a reference says nothing, so nothing is cached for it. */
  lemma ResolveIdMalformed(repo: Repository, udi: string)
    requires ParseUdi(udi).None?
    ensures ResolveId(repo, udi).None?
  {
  }

  /** `ResolveId` as a function value: the cache reasoning below needs nothing else of it. */
  function Resolver(repo: Repository): string -> Option<Option<string>>
  {
    u => ResolveId(repo, u)
  }

  /** `MapToId(ctx, udi) ?? udi`, independent of any cache. */
  function TokenId(resolve: string -> Option<Option<string>>, tok: string): string
  {
    match resolve(tok)
    case Some(Some(id)) => id
    case _ => tok
  }

  function MapTokens(resolve: string -> Option<Option<string>>, toks: seq<string>): (r: seq<string>)
    ensures |r| == |toks| && forall i :: 0 <= i < |toks| ==> r[i] == TokenId(resolve, toks[i])
  {
    seq(|toks|, i requires 0 <= i < |toks| => TokenId(resolve, toks[i]))
  }

  /** `Map(ctx, from)`: non-strings are returned as they are. */
  function MapValue(repo: Repository, from: Value): Value
  {
    match from
    case VStr(udis) => VStr(Text.Join(MapTokens(Resolver(repo), Text.SplitNonEmpty(udis, ',')), ','))
    case _ => from
  }

  /** The transform as the migration runner sees it. */
  function Transform(): PropertyTransform
  {
    PropertyTransform(TextGet, (svc: Services, v) => Ok(MapValue(svc.repo, v)))
  }

  // ---------------------------------------------------------------- the cache

  type Entries = map<string, Option<string>>

  /** One `MapToId` call: the answer (`?? udi` applied), the new entries, the references looked up. */
  function Step(resolve: string -> Option<Option<string>>, known: Entries, tok: string): (string, Entries, seq<string>)
  {
    if tok in known then (known[tok].GetOr(tok), known, [])
    else
      match resolve(tok)
      case None => (tok, known, [])
      case Some(a) => (a.GetOr(tok), known[tok := a], [tok])
  }

  function Run(resolve: string -> Option<Option<string>>, known: Entries, toks: seq<string>): (seq<string>, Entries, seq<string>)
  {
    if toks == [] then ([], known, [])
    else
      var (out, k, looked) := Run(resolve, known, toks[..|toks| - 1]);
      var (u, k2, more) := Step(resolve, k, toks[|toks| - 1]);
      (out + [u], k2, looked + more)
  }

  lemma RunPrefix(resolve: string -> Option<Option<string>>, known: Entries, toks: seq<string>, i: int)
    requires 0 <= i < |toks|
    ensures var r := Run(resolve, known, toks[..i]);
      var st := Step(resolve, r.1, toks[i]);
      Run(resolve, known, toks[..i + 1]).0 == r.0 + [st.0]
      && Run(resolve, known, toks[..i + 1]).1 == st.1
      && Run(resolve, known, toks[..i + 1]).2 == r.2 + st.2
  {
    assert toks[..i + 1][..i] == toks[..i];
  }

  /** Every cached reference maps to what the repository answers now. */
  predicate Sound(resolve: string -> Option<Option<string>>, known: Entries)
  {
    forall u :: u in known ==> resolve(u) == Some(known[u])
  }

  /**
   * With a sound cache the memoised run equals the cache-free map, the cache
   * stays sound, and only well-formed references that were not cached are
   * looked up, each once.
   */
  lemma {:induction false} RunTransparent(resolve: string -> Option<Option<string>>, known: Entries, toks: seq<string>)
    requires Sound(resolve, known)
    ensures var (out, k, looked) := Run(resolve, known, toks);
      out == MapTokens(resolve, toks)
      && Sound(resolve, k)
      && known.Keys <= k.Keys
      && (forall i :: 0 <= i < |looked| ==> looked[i] !in known && looked[i] in k && resolve(looked[i]).Some?)
      && (forall i, j :: 0 <= i < j < |looked| ==> looked[i] != looked[j])
  {
    if toks != [] {
      var front := toks[..|toks| - 1];
      RunTransparent(resolve, known, front);
      var (out, k, looked) := Run(resolve, known, front);
      var (u, k2, more) := Step(resolve, k, toks[|toks| - 1]);
      StepSound(resolve, k, toks[|toks| - 1]);
      Sets.LookedAppend(known, k, k2, looked, more);
      MapTokensSnoc(resolve, toks);
      assert Run(resolve, known, toks) == (out + [u], k2, looked + more);
      forall i | 0 <= i < |looked + more|
        ensures resolve((looked + more)[i]).Some?
      {
        assert (looked + more)[i] in k2;
      }
    }
  }

  /** One step against a sound cache answers as the cache-free map and keeps the cache sound. */
  lemma StepSound(resolve: string -> Option<Option<string>>, known: Entries, tok: string)
    requires Sound(resolve, known)
    ensures var (u, k, more) := Step(resolve, known, tok);
      u == TokenId(resolve, tok) && Sound(resolve, k) && known.Keys <= k.Keys
      && |more| <= 1 && (forall i :: 0 <= i < |more| ==> more[i] !in known && more[i] in k)
  {
  }

  lemma MapTokensSnoc(resolve: string -> Option<Option<string>>, toks: seq<string>)
    requires toks != []
    ensures MapTokens(resolve, toks) == MapTokens(resolve, toks[..|toks| - 1]) + [TokenId(resolve, toks[|toks| - 1])]
  {
  }

  /** The process-wide `KnownUdis` dictionary and the log of references looked up. */
  class KnownUdis {
    var entries: Entries
    var lookups: seq<string>

    constructor ()
      ensures entries == map[] && lookups == []
    {
      entries := map[];
      lookups := [];
    }
  }

  lemma StepCached(repo: Repository, known: Entries, udi: string)
    requires udi in known
    ensures Step(Resolver(repo), known, udi) == (known[udi].GetOr(udi), known, [])
  {
  }

  lemma StepMalformed(repo: Repository, known: Entries, udi: string)
    requires udi !in known && ParseUdi(udi).None?
    ensures Step(Resolver(repo), known, udi) == (udi, known, [])
  {
    ResolveIdMalformed(repo, udi);
    assert Resolver(repo)(udi) == ResolveId(repo, udi);
  }

  lemma StepParsed(repo: Repository, known: Entries, udi: string, host: string, g: Guid, found: Option<string>)
    requires udi !in known && ParseUdi(udi) == Some((host, g))
    requires found == if KindOfHost(host).Some? && g in StoreOf(repo, KindOfHost(host).value).idOf
      then Some(Text.IntToString(StoreOf(repo, KindOfHost(host).value).idOf[g])) else None
    ensures Step(Resolver(repo), known, udi) == (found.GetOr(udi), known[udi := found], [udi])
  {
    ResolveIdParsed(repo, udi, host, g);
    assert Resolver(repo)(udi) == ResolveId(repo, udi);
  }

  /** The id the repository holds for the kind named by `host` and the key `g`, if any. */
  method LookupId(repo: Repository, host: string, g: Guid) returns (found: Option<string>)
    ensures found == if KindOfHost(host).Some? && g in StoreOf(repo, KindOfHost(host).value).idOf
      then Some(Text.IntToString(StoreOf(repo, KindOfHost(host).value).idOf[g])) else None
  {
    var kind := KindOfHost(host);
    found := None;
    if kind.Some? {
      var st := StoreOf(repo, kind.value);
      if g in st.idOf {
        found := Some(Text.IntToString(st.idOf[g]));
      }
    }
  }

  /** `MapToId(ctx, udi) ?? udi`. */
  method MapToId(svc: Services, udi: string, known: KnownUdis) returns (id: string)
    modifies known
    ensures id == Step(Resolver(svc.repo), old(known.entries), udi).0
    ensures known.entries == Step(Resolver(svc.repo), old(known.entries), udi).1
    ensures known.lookups == old(known.lookups) + Step(Resolver(svc.repo), old(known.entries), udi).2
  {
    if udi in known.entries {
      StepCached(svc.repo, known.entries, udi);
      return known.entries[udi].GetOr(udi);
    }
    var parsed := ParseUdi(udi);
    if parsed.None? {
      StepMalformed(svc.repo, known.entries, udi);
      return udi;
    }
    var host := parsed.value.0;
    var g := parsed.value.1;
    var found := LookupId(svc.repo, host, g);
    StepParsed(svc.repo, known.entries, udi, host, g, found);
    known.entries := known.entries[udi := found];
    known.lookups := known.lookups + [udi];
    id := found.GetOr(udi);
  }

  class UdiToIdTransform {
    const known: KnownUdis

    constructor (shared: KnownUdis)
      ensures known == shared
    {
      known := shared;
    }

    method MapAll(svc: Services, toks: seq<string>) returns (out: seq<string>)
      modifies known
      ensures out == Run(Resolver(svc.repo), old(known.entries), toks).0
      ensures known.entries == Run(Resolver(svc.repo), old(known.entries), toks).1
      ensures known.lookups == old(known.lookups) + Run(Resolver(svc.repo), old(known.entries), toks).2
    {
      ghost var known0 := known.entries;
      ghost var log0 := known.lookups;
      out := [];
      var i := 0;
      while i < |toks|
        invariant 0 <= i <= |toks|
        invariant out == Run(Resolver(svc.repo), known0, toks[..i]).0
        invariant known.entries == Run(Resolver(svc.repo), known0, toks[..i]).1
        invariant known.lookups == log0 + Run(Resolver(svc.repo), known0, toks[..i]).2
      {
        RunPrefix(Resolver(svc.repo), known0, toks, i);
        var id := MapToId(svc, toks[i], known);
        out := out + [id];
        i := i + 1;
      }
      assert toks[..i] == toks;
    }

    /** `Map(ctx, from)`: split, map each reference through the cache, keep the rest, join. */
    method Map(svc: Services, from: Value) returns (r: Value)
      modifies known
      ensures !from.VStr? ==> r == from && known.entries == old(known.entries)
      ensures from.VStr? ==>
        r == VStr(Text.Join(Run(Resolver(svc.repo), old(known.entries), Text.SplitNonEmpty(from.s, ',')).0, ','))
        && known.entries == Run(Resolver(svc.repo), old(known.entries), Text.SplitNonEmpty(from.s, ',')).1
      ensures Sound(Resolver(svc.repo), old(known.entries)) ==>
        r == MapValue(svc.repo, from) && Sound(Resolver(svc.repo), known.entries)
    {
      if !from.VStr? {
        return from;
      }
      var toks := Text.SplitNonEmpty(from.s, ',');
      ghost var known0 := known.entries;
      var out := MapAll(svc, toks);
      r := VStr(Text.Join(out, ','));
      if Sound(Resolver(svc.repo), known0) {
        RunTransparent(Resolver(svc.repo), known0, toks);
      }
    }
  }

  // ---------------------------------------------------------------- the two transforms are inverses

  /** No token is dropped: one output per non-empty input token, and a token that is no reference stays as it is. */
  lemma MapValueKeepsTokens(repo: Repository, s: string)
    ensures var toks := Text.SplitNonEmpty(s, ','); var out := MapTokens(Resolver(repo), toks);
      MapValue(repo, VStr(s)) == VStr(Text.Join(out, ','))
      && |out| == |toks|
      && forall i :: 0 <= i < |out| && ResolveId(repo, toks[i]).None? ==> out[i] == toks[i]
  {
  }

  /** The reference written for an existing node reads back as that node's id. */
  lemma TokenRoundTrip(svc: Services, t: BaseType, retain: bool, id: int)
    requires Consistent(StoreOf(svc.repo, t))
    requires Text.IsInt32(id) && id in StoreOf(svc.repo, t).keyOf
    ensures IdToUdi.TokenUdi(svc, t, retain, Text.IntToString(id)).Some?
    ensures TokenId(Resolver(svc.repo), IdToUdi.TokenUdi(svc, t, retain, Text.IntToString(id)).value) == Text.IntToString(id)
  {
    var tok := Text.IntToString(id);
    Text.ParseIntToString(id);
    var g := StoreOf(svc.repo, t).keyOf[id];
    var u := UdiFor(TypeName(t), g);
    assert IdToUdi.TokenUdi(svc, t, retain, tok) == Some(u);
    ParseUdiFor(TypeName(t), g);
    ResolveIdParsed(svc.repo, u, TypeName(t), g);
    KindOfTypeName(t);
    assert Resolver(svc.repo)(u) == ResolveId(svc.repo, u) == Some(Some(tok));
  }

  /** The token is the decimal form of an existing Int32 node id of kind `t`. */
  predicate IsCanonicalId(repo: Repository, t: BaseType, tok: string)
  {
    exists id :: Text.IsInt32(id) && id in StoreOf(repo, t).keyOf && tok == Text.IntToString(id)
  }

  predicate CanonicalIds(repo: Repository, t: BaseType, toks: seq<string>)
  {
    forall i :: 0 <= i < |toks| ==> IsCanonicalId(repo, t, toks[i])
  }

  lemma TokensRoundTrip(svc: Services, t: BaseType, retain: bool, toks: seq<string>)
    requires Consistent(StoreOf(svc.repo, t))
    requires CanonicalIds(svc.repo, t, toks)
    ensures forall i :: 0 <= i < |toks| ==> IdToUdi.TokenUdi(svc, t, retain, toks[i]).Some?
    ensures forall i :: 0 <= i < |toks| ==>
      TokenId(Resolver(svc.repo), IdToUdi.TokenUdi(svc, t, retain, toks[i]).value) == toks[i]
  {
    forall i | 0 <= i < |toks|
      ensures IdToUdi.TokenUdi(svc, t, retain, toks[i]).Some?
      ensures TokenId(Resolver(svc.repo), IdToUdi.TokenUdi(svc, t, retain, toks[i]).value) == toks[i]
    {
      assert IsCanonicalId(svc.repo, t, toks[i]);
      var id :| Text.IsInt32(id) && id in StoreOf(svc.repo, t).keyOf && toks[i] == Text.IntToString(id);
      TokenRoundTrip(svc, t, retain, id);
    }
  }

  lemma MapTokensRoundTrip(svc: Services, t: BaseType, retain: bool, toks: seq<string>)
    requires Consistent(StoreOf(svc.repo, t))
    requires CanonicalIds(svc.repo, t, toks)
    ensures MapTokens(Resolver(svc.repo), IdToUdi.MapTokens(svc, t, retain, toks)) == toks
  {
    TokensRoundTrip(svc, t, retain, toks);
    IdToUdi.MapTokensAllKept(svc, t, retain, toks);
  }

  /**
   * Converting ids to references and back gives the original list (with
   * empty entries removed), when every id names an existing node of the
   * transform's kind.
   */
  lemma IdsRoundTrip(svc: Services, t: BaseType, retain: bool, s: string)
    requires Consistent(StoreOf(svc.repo, t))
    requires CanonicalIds(svc.repo, t, Text.SplitNonEmpty(s, ','))
    ensures MapValue(svc.repo, IdToUdi.MapValue(svc, t, retain, VStr(s)))
      == VStr(Text.Join(Text.SplitNonEmpty(s, ','), ','))
  {
    var toks := Text.SplitNonEmpty(s, ',');
    var udis := IdToUdi.MapTokens(svc, t, retain, toks);
    assert IdToUdi.MapValue(svc, t, retain, VStr(s)) == VStr(Text.Join(udis, ','));
    IdToUdi.MapTokensAreTokens(svc, t, retain, toks);
    Text.SplitNonEmptyJoin(udis, ',');
    assert Text.SplitNonEmpty(Text.Join(udis, ','), ',') == udis;
    MapTokensRoundTrip(svc, t, retain, toks);
    assert MapValue(svc.repo, VStr(Text.Join(udis, ','))) == VStr(Text.Join(MapTokens(Resolver(svc.repo), udis), ','));
  }

  /** The id read from an existing node's reference maps back to that reference. */
  lemma TokenReverseRoundTrip(svc: Services, t: BaseType, retain: bool, g: Guid)
    requires Consistent(StoreOf(svc.repo, t))
    requires g in StoreOf(svc.repo, t).idOf && Text.IsInt32(StoreOf(svc.repo, t).idOf[g])
    ensures IdToUdi.TokenUdi(svc, t, retain, TokenId(Resolver(svc.repo), UdiFor(TypeName(t), g))) == Some(UdiFor(TypeName(t), g))
  {
    ParseUdiFor(TypeName(t), g);
    Text.ParseIntToString(StoreOf(svc.repo, t).idOf[g]);
  }
}
