/**
 * The alias a composition document type is created under, from its name
 * (`Composition.CompositionAlias`), in the current rule and in the legacy
 * one. `char.ToLowerInvariant` is modelled on the ASCII letters.
 */
module Composition {
  import opened Wrappers
  import opened Text

  /** What indexing the first character of an empty string throws. */
  const IndexOutOfRange: string := "Index was outside the bounds of the array."

  /** The characters the pattern `[^a-zA-Z0-9]` does not match. */
  predicate IsAlphaNumeric(c: char)
  {
    'a' <= c <= 'z' || 'A' <= c <= 'Z' || '0' <= c <= '9'
  }

  /** `s` with every character of `c` removed: `Replace(c, "")` of one character, or the regex replace. */
  function Without(s: string, keep: char -> bool): (r: string)
    ensures |r| <= |s|
    ensures forall i :: 0 <= i < |r| ==> keep(r[i])
  {
    if s == [] then []
    else (if keep(s[0]) then [s[0]] else []) + Without(s[1..], keep)
  }

  lemma {:induction false} WithoutKept(s: string, keep: char -> bool)
    requires forall i :: 0 <= i < |s| ==> keep(s[i])
    ensures Without(s, keep) == s
  {
    if s != [] {
      WithoutKept(s[1..], keep);
    }
  }

  /**
   * The characters `keep` accepts survive with their multiplicity; every
   * other one is gone.
   */
  lemma {:induction false} WithoutCounts(s: string, keep: char -> bool, c: char)
    ensures multiset(Without(s, keep))[c] == if keep(c) then multiset(s)[c] else 0
  {
    if s != [] {
      WithoutCounts(s[1..], keep, c);
      assert s == [s[0]] + s[1..];
    }
  }

  function AlphaNumeric(s: string): string
  {
    Without(s, IsAlphaNumeric)
  }

  function NoSpaces(s: string): string
  {
    Without(s, (c: char) => c != ' ')
  }

  /** The first character lower-cased, the rest kept. */
  function LowerFirst(s: string): (r: string)
    requires s != []
    ensures |r| == |s| && r[0] == LowerChar(s[0]) && r[1..] == s[1..]
  {
    [LowerChar(s[0])] + s[1..]
  }

  /** The current rule: drop all but ASCII letters and digits, lower-case the first, drop spaces. */
  function CompositionAlias(name: string): (r: Result<string>)
    ensures r.Err? <==> forall i :: 0 <= i < |name| ==> !IsAlphaNumeric(name[i])
    ensures r.Err? ==> r.error == IndexOutOfRange
  {
    var a := AlphaNumeric(name);
    if a == [] then
      assert forall i :: 0 <= i < |name| ==> !IsAlphaNumeric(name[i]) by {
        forall i | 0 <= i < |name| ensures !IsAlphaNumeric(name[i]) {
          WithoutCounts(name, IsAlphaNumeric, name[i]);
          assert name[i] in multiset(name);
        }
      }
      Err(IndexOutOfRange)
    else
      assert exists i :: 0 <= i < |name| && IsAlphaNumeric(name[i]) by {
        WithoutCounts(name, IsAlphaNumeric, a[0]);
        assert a[0] in multiset(a);
        assert a[0] in name;
      }
      Ok(NoSpaces(LowerFirst(a)))
  }

  /** Lower-casing keeps a character alphanumeric. */
  lemma LowerCharKeeps(c: char)
    requires IsAlphaNumeric(c)
    ensures IsAlphaNumeric(LowerChar(c)) && LowerChar(LowerChar(c)) == LowerChar(c)
  {
  }

  /**
   * An alias is the name's letters and digits in order, the first one
   * lower-cased: nothing else is added, removed or changed.
   */
  lemma AliasShape(name: string)
    requires CompositionAlias(name).Ok?
    ensures var a := AlphaNumeric(name); var r := CompositionAlias(name).value;
      a != [] && r == LowerFirst(a) && |r| == |a| && forall i :: 0 <= i < |r| ==> IsAlphaNumeric(r[i])
  {
    var a := AlphaNumeric(name);
    LowerCharKeeps(a[0]);
    WithoutKept(LowerFirst(a), (c: char) => c != ' ');
  }

  /** An alias is its own alias. */
  lemma AliasIdempotent(name: string)
    requires CompositionAlias(name).Ok?
    ensures CompositionAlias(CompositionAlias(name).value) == CompositionAlias(name)
  {
    var r := CompositionAlias(name).value;
    AliasShape(name);
    WithoutKept(r, IsAlphaNumeric);
    LowerCharKeeps(AlphaNumeric(name)[0]);
    assert LowerFirst(r) == r;
    WithoutKept(r, (c: char) => c != ' ');
  }

  /** Punctuation and spaces in a name make no difference to its alias. */
  lemma AliasIgnoresPunctuation(name: string)
    ensures CompositionAlias(AlphaNumeric(name)) == CompositionAlias(name)
  {
    WithoutKept(AlphaNumeric(name), IsAlphaNumeric);
  }

  // ------------------------------------------------------------ the legacy rule

  /** The legacy rule: lower-case the first character, then drop the spaces. */
  function LegacyCompositionAlias(name: string): (r: Result<string>)
    ensures r.Err? <==> name == []
    ensures r.Err? ==> r.error == IndexOutOfRange
    ensures r.Ok? ==> forall i :: 0 <= i < |r.value| ==> r.value[i] != ' '
  {
    if name == [] then Err(IndexOutOfRange) else Ok(NoSpaces(LowerFirst(name)))
  }

  /**
   * The legacy alias is shorter than the name by its number of spaces, and
   * every character other than a space or a letter is kept as often as
   * the name has it.
   */
  lemma LegacyAliasCounts(name: string, c: char)
    requires name != []
    ensures var r := LegacyCompositionAlias(name).value;
      |r| == |name| - multiset(name)[' ']
      && (c != ' ' && !('A' <= c <= 'Z') && !('a' <= c <= 'z') ==> multiset(r)[c] == multiset(name)[c])
  {
    var l := LowerFirst(name);
    assert name == [name[0]] + name[1..] && l == [l[0]] + l[1..];
    assert multiset(l)[' '] == multiset(name)[' '];
    assert c != ' ' && !('A' <= c <= 'Z') && !('a' <= c <= 'z') ==> multiset(l)[c] == multiset(name)[c];
    WithoutCounts(l, (ch: char) => ch != ' ', c);
    NoSpacesLength(l);
  }

  lemma {:induction false} NoSpacesLength(s: string)
    ensures |NoSpaces(s)| == |s| - multiset(s)[' ']
  {
    if s != [] {
      NoSpacesLength(s[1..]);
      assert s == [s[0]] + s[1..];
    }
  }

  /** A name without spaces keeps its length and everything after the first character. */
  lemma LegacyWithoutSpaces(name: string)
    requires name != [] && forall i :: 0 <= i < |name| ==> name[i] != ' '
    ensures var r := LegacyCompositionAlias(name).value; |r| == |name| && r[1..] == name[1..]
  {
    WithoutKept(LowerFirst(name), (c: char) => c != ' ');
  }

  /** For a name of letters and digits only, the two rules agree. */
  lemma RulesAgree(name: string)
    requires name != [] && forall i :: 0 <= i < |name| ==> IsAlphaNumeric(name[i])
    ensures CompositionAlias(name) == LegacyCompositionAlias(name)
  {
    WithoutKept(name, IsAlphaNumeric);
  }
}
