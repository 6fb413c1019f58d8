/**
 * The text form of a node reference, `umb://<kind>/<guid>`, and the part of
 * `System.Uri` that reads it back (scheme, host, path).
 */
module Udis {
  import opened Wrappers
  import Text
  import opened Guids
  import opened Platform

  /** `$"umb://{typeName}/{guid:N}"`. */
  function UdiFor(typeName: string, g: Guid): string
  {
    "umb://" + typeName + "/" + FormatN(g)
  }

  /** The text before and after the first `c`, when there is one. */
  function SplitAtFirst(s: string, c: char): (r: Option<(string, string)>)
    ensures r.Some? ==> c !in r.value.0 && s == r.value.0 + [c] + r.value.1
    ensures r.None? <==> c !in s
  {
    if s == [] then None
    else if s[0] == c then Some(([], s[1..]))
    else match SplitAtFirst(s[1..], c)
      case None => None
      case Some((a, b)) => Some(([s[0]] + a, b))
  }

  lemma {:induction false} SplitAtFirstOf(a: string, c: char, b: string)
    requires c !in a
    ensures SplitAtFirst(a + [c] + b, c) == Some((a, b))
  {
    if a != [] {
      assert (a + [c] + b)[1..] == a[1..] + [c] + b;
      SplitAtFirstOf(a[1..], c, b);
      assert [a[0]] + a[1..] == a;
    }
  }

  /** An RFC 3986 scheme: a letter, then letters, digits, '+', '-' or '.'. */
  predicate IsScheme(s: string)
  {
    |s| > 0 && ('a' <= s[0] <= 'z' || 'A' <= s[0] <= 'Z')
    && forall i :: 0 <= i < |s| ==>
         'a' <= s[i] <= 'z' || 'A' <= s[i] <= 'Z' || '0' <= s[i] <= '9' || s[i] in "+-."
  }

  /** The host (lower-cased) and absolute path of an absolute URI. */
  datatype Uri = Uri(host: string, path: string)

  /**
   * `Uri.TryCreate(s, UriKind.Absolute, out u)`: `scheme:` followed either
   * by `//authority/path` or by a path with an empty host.
   */
  function ParseAbsoluteUri(s: string): Option<Uri>
  {
    match SplitAtFirst(s, ':')
    case None => None
    case Some((scheme, rest)) =>
      if !IsScheme(scheme) then None
      else if |rest| >= 2 && rest[..2] == "//" then
        match SplitAtFirst(rest[2..], '/')
        case None => Some(Uri(Text.Lower(rest[2..]), "/"))
        case Some((authority, path)) => Some(Uri(Text.Lower(authority), "/" + path))
      else Some(Uri("", rest))
  }

  /** `s.TrimStart('/')`. */
  function TrimSlashes(s: string): string
  {
    if s != [] && s[0] == '/' then TrimSlashes(s[1..]) else s
  }

  /**
   * The host and guid of a reference: `None` unless the text is an absolute
   * URI with a non-blank host whose path, without leading slashes, is a guid.
   */
  function ParseUdi(s: string): (r: Option<(string, Guid)>)
  {
    match ParseAbsoluteUri(s)
    case None => None
    case Some(u) =>
      if Text.IsBlank(u.host) then None
      else match ParseGuid(TrimSlashes(u.path))
        case None => None
        case Some(g) => Some((u.host, g))
  }

  lemma UriOfUdi(name: string, g: Guid)
    requires IsKindName(name)
    ensures ParseAbsoluteUri(UdiFor(name, g)) == Some(Uri(name, "/" + FormatN(g)))
  {
    var hex := FormatN(g);
    assert UdiFor(name, g) == "umb" + [':'] + ("//" + (name + ['/'] + hex));
    assert '/' !in name by {
      forall i | 0 <= i < |name| ensures name[i] != '/' { }
    }
    UmbIsScheme();
    ParseHierarchical("umb", name, hex);
    Text.LowerOfLower(name);
  }

  /** `scheme://host/path` reads back as the lower-cased host and the path. */
  lemma ParseHierarchical(scheme: string, host: string, path: string)
    requires IsScheme(scheme) && ':' !in scheme && '/' !in host
    ensures ParseAbsoluteUri(scheme + [':'] + ("//" + (host + ['/'] + path))) == Some(Uri(Text.Lower(host), "/" + path))
  {
    var rest := "//" + (host + ['/'] + path);
    SplitAtFirstOf(scheme, ':', rest);
    AfterSlashes(host + ['/'] + path);
    SplitAtFirstOf(host, '/', path);
  }

  lemma AfterSlashes(s: string)
    ensures ("//" + s)[..2] == "//" && ("//" + s)[2..] == s
  {
  }

  lemma TrimOneSlash(s: string)
    requires s != [] && s[0] != '/'
    ensures TrimSlashes("/" + s) == s
  {
    assert ("/" + s)[1..] == s;
  }

  lemma UmbIsScheme()
    ensures IsScheme("umb") && ':' !in "umb"
  {
    var u := "umb";
    assert u[0] == 'u' && u[1] == 'm' && u[2] == 'b';
    forall i | 0 <= i < |u|
      ensures 'a' <= u[i] <= 'z'
    {
      if i == 0 {
      } else if i == 1 {
      } else {
      }
    }
  }

  /** A reference written for a kind reads back as that kind and guid. */
  lemma ParseUdiFor(name: string, g: Guid)
    requires IsKindName(name)
    ensures ParseUdi(UdiFor(name, g)) == Some((name, g))
  {
    var hex := FormatN(g);
    UriOfUdi(name, g);
    FormatNHasNoSeparator(g);
    assert |hex| == 32 && hex[0] != '/';
    TrimOneSlash(hex);
    ParseFormatN(g);
    KindNotBlank(name);
    ParseUdiOf(UdiFor(name, g), Uri(name, "/" + hex), g);
  }

  /** The reference of an absolute URI with a non-blank host and a guid path. */
  lemma ParseUdiOf(s: string, u: Uri, g: Guid)
    requires ParseAbsoluteUri(s) == Some(u) && !Text.IsBlank(u.host) && ParseGuid(TrimSlashes(u.path)) == Some(g)
    ensures ParseUdi(s) == Some((u.host, g))
  {
  }

  lemma KindNotBlank(name: string)
    requires IsKindName(name)
    ensures !Text.IsBlank(name)
  {
    assert !Text.IsWhiteSpace(name[0]);
  }

  /** A reference is a non-empty token: no comma, never an integer. */
  lemma UdiForIsToken(name: string, g: Guid)
    requires IsKindName(name)
    ensures UdiFor(name, g) != "" && ',' !in UdiFor(name, g)
    ensures Text.ParseInt32(UdiFor(name, g)).None?
  {
    FormatNHasNoSeparator(g);
    var s := UdiFor(name, g);
    assert ',' !in name by {
      forall i | 0 <= i < |name| ensures name[i] != ',' { }
    }
    assert s == "umb://" + name + "/" + FormatN(g);
    Text.ParseIntRejectsLetter(s, 0);
  }
}
