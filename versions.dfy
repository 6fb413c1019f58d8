/**
 * Semantic versions as ordered triples. Parsing is not part of this model:
 * where the code calls `SemVersion.TryParse` it is a function parameter.
 */
module Versions {
  import opened Text

  datatype Version = Version(major: nat, minor: nat, patch: nat)

  /** `new SemVersion(0)`. */
  const Zero := Version(0, 0, 0)

  /** The ordering of `SemVersion`'s `<` on triples: major, then minor, then patch. */
  predicate Less(a: Version, b: Version)
  {
    a.major < b.major
    || (a.major == b.major && a.minor < b.minor)
    || (a.major == b.major && a.minor == b.minor && a.patch < b.patch)
  }

  predicate LessEq(a: Version, b: Version)
  {
    a == b || Less(a, b)
  }

  /** The ordering is strict and total. */
  lemma LessTotal(a: Version, b: Version)
    ensures !Less(a, a)
    ensures a == b || Less(a, b) || Less(b, a)
    ensures !(Less(a, b) && Less(b, a))
  {
  }

  lemma LessTransitive(a: Version, b: Version, c: Version)
    requires LessEq(a, b) && LessEq(b, c)
    ensures LessEq(a, c)
    ensures Less(a, b) || Less(b, c) ==> Less(a, c)
  {
  }

  /** `Max()` of a non-empty sequence of versions. */
  function Max(vs: seq<Version>): (m: Version)
    requires vs != []
    ensures m in vs
    ensures forall v :: v in vs ==> LessEq(v, m)
  {
    if |vs| == 1 then vs[0]
    else
      var front := Max(vs[..|vs| - 1]);
      var last := vs[|vs| - 1];
      assert forall v :: v in vs ==> v in vs[..|vs| - 1] || v == last;
      if Less(front, last) then last else front
  }

  /** `SemVersion.ToString()`: "major.minor.patch". */
  function VersionString(v: Version): string
  {
    NatToString(v.major) + "." + NatToString(v.minor) + "." + NatToString(v.patch)
  }
}
