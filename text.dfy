/**
 * The .NET string operations the migration code relies on: splitting and
 * joining on a separator, trimming, invariant lower-casing of ASCII letters,
 * Int32 parsing and formatting.
 */
module Text {
  import opened Wrappers

  // ---------------------------------------------------------------- Split / Join

  /** `s.Split(sep)`: every piece, empty ones included; never an empty list. */
  function Split(s: string, sep: char): (parts: seq<string>)
    ensures |parts| >= 1
    ensures forall p :: p in parts ==> sep !in p
  {
    if s == [] then [""]
    else
      var rest := Split(s[1..], sep);
      if s[0] == sep then [""] + rest
      else [[s[0]] + rest[0]] + rest[1..]
  }

  /** `string.Join(sep, parts)`. */
  function Join(parts: seq<string>, sep: char): string
  {
    if |parts| == 0 then ""
    else if |parts| == 1 then parts[0]
    else parts[0] + [sep] + Join(parts[1..], sep)
  }

  /** The pieces that `StringSplitOptions.RemoveEmptyEntries` keeps. */
  function NonEmpty(parts: seq<string>): (r: seq<string>)
    ensures forall i :: 0 <= i < |r| ==> r[i] != ""
    ensures forall x :: x in r <==> x in parts && x != ""
    ensures |r| <= |parts|
  {
    if parts == [] then []
    else if parts[0] == "" then NonEmpty(parts[1..])
    else [parts[0]] + NonEmpty(parts[1..])
  }

  /** `s.Split(new[] { sep }, StringSplitOptions.RemoveEmptyEntries)`. */
  function SplitNonEmpty(s: string, sep: char): (parts: seq<string>)
    ensures forall i :: 0 <= i < |parts| ==> parts[i] != "" && sep !in parts[i]
  {
    NonEmpty(Split(s, sep))
  }

  /** A list of tokens that `SplitNonEmpty` can give back unchanged. */
  predicate IsTokenList(toks: seq<string>, sep: char)
  {
    forall i :: 0 <= i < |toks| ==> toks[i] != "" && sep !in toks[i]
  }

  lemma {:induction false} JoinSplit(s: string, sep: char)
    ensures Join(Split(s, sep), sep) == s
  {
    if s != [] {
      var rest := Split(s[1..], sep);
      JoinSplit(s[1..], sep);
      if s[0] == sep {
        assert Join([""] + rest, sep) == "" + [sep] + Join(rest, sep);
      } else if |rest| == 1 {
        assert Split(s, sep) == [[s[0]] + rest[0]];
      } else {
        assert Split(s, sep)[1..] == rest[1..];
        assert Join(rest, sep) == rest[0] + [sep] + Join(rest[1..], sep);
      }
    }
  }

  lemma {:induction false} SplitWithoutSeparator(s: string, sep: char)
    requires sep !in s
    ensures Split(s, sep) == [s]
  {
    if s != [] {
      SplitWithoutSeparator(s[1..], sep);
      assert [s[0]] + s[1..] == s;
    }
  }

  lemma {:induction false} SplitAppend(t: string, u: string, sep: char)
    requires sep !in t
    ensures Split(t + [sep] + u, sep) == [t] + Split(u, sep)
  {
    if t == [] {
      assert t + [sep] + u == [sep] + u;
      assert ([sep] + u)[1..] == u;
    } else {
      assert (t + [sep] + u)[1..] == t[1..] + [sep] + u;
      SplitAppend(t[1..], u, sep);
      assert [t[0]] + t[1..] == t;
    }
  }

  lemma {:induction false} SplitJoin(toks: seq<string>, sep: char)
    requires forall i :: 0 <= i < |toks| ==> sep !in toks[i]
    requires |toks| >= 1
    ensures Split(Join(toks, sep), sep) == toks
  {
    if |toks| == 1 {
      SplitWithoutSeparator(toks[0], sep);
    } else {
      SplitJoin(toks[1..], sep);
      SplitAppend(toks[0], Join(toks[1..], sep), sep);
      assert [toks[0]] + toks[1..] == toks;
    }
  }

  lemma {:induction false} NonEmptyOfTokens(toks: seq<string>)
    requires forall i :: 0 <= i < |toks| ==> toks[i] != ""
    ensures NonEmpty(toks) == toks
  {
    if toks != [] { NonEmptyOfTokens(toks[1..]); }
  }

  /** Joining a token list and splitting it again gives the tokens back. */
  lemma SplitNonEmptyJoin(toks: seq<string>, sep: char)
    requires IsTokenList(toks, sep)
    ensures SplitNonEmpty(Join(toks, sep), sep) == toks
  {
    if toks == [] {
      assert Split("", sep) == [""];
      assert [""][1..] == [];
    } else {
      SplitJoin(toks, sep);
      NonEmptyOfTokens(toks);
    }
  }

  // ---------------------------------------------------------------- characters

  /** `char.IsWhiteSpace`: the Unicode separators and the control characters 9-13, 0x85. */
  predicate IsWhiteSpace(c: char)
  {
    var n := c as int;
    (9 <= n <= 13) || n == 0x20 || n == 0x85 || n == 0xA0 || n == 0x1680
    || (0x2000 <= n <= 0x200A) || n == 0x2028 || n == 0x2029 || n == 0x202F
    || n == 0x205F || n == 0x3000
  }

  /** `string.IsNullOrWhiteSpace` for a non-null string. */
  predicate IsBlank(s: string)
  {
    forall i :: 0 <= i < |s| ==> IsWhiteSpace(s[i])
  }

  /** `string.IsNullOrWhiteSpace`. */
  predicate IsNullOrWhiteSpace(s: Option<string>)
  {
    s.None? || IsBlank(s.value)
  }

  function TrimStart(s: string): (r: string)
    ensures |r| <= |s| && r == s[|s| - |r|..]
    ensures r == [] || !IsWhiteSpace(r[0])
  {
    if s != [] && IsWhiteSpace(s[0]) then TrimStart(s[1..]) else s
  }

  function TrimEnd(s: string): (r: string)
    ensures |r| <= |s| && r == s[..|r|]
    ensures r == [] || !IsWhiteSpace(r[|r| - 1])
  {
    if s != [] && IsWhiteSpace(s[|s| - 1]) then TrimEnd(s[..|s| - 1]) else s
  }

  /** `s.Trim()`. */
  function Trim(s: string): string
  {
    TrimEnd(TrimStart(s))
  }

  lemma TrimOfTrimmed(s: string)
    requires s == [] || (!IsWhiteSpace(s[0]) && !IsWhiteSpace(s[|s| - 1]))
    ensures Trim(s) == s
  {
  }

  /** A trimmed string is empty exactly when the input was blank. */
  lemma {:induction false} TrimEmptyIffBlank(s: string)
    ensures Trim(s) == "" <==> IsBlank(s)
  {
    if s != [] && IsWhiteSpace(s[0]) {
      TrimEmptyIffBlank(s[1..]);
      assert IsBlank(s) <==> IsBlank(s[1..]) by {
        if IsBlank(s[1..]) {
          forall i | 0 <= i < |s| ensures IsWhiteSpace(s[i]) {
            if i > 0 { assert s[i] == s[1..][i - 1]; }
          }
        }
      }
    } else if s != [] {
      assert !IsBlank(s);
      var t := TrimStart(s);
      assert t == s;
      assert TrimEnd(t) != [] by {
        if TrimEnd(t) == [] {
          TrimEndEmpty(t);
        }
      }
    }
  }

  lemma {:induction false} TrimEndEmpty(s: string)
    requires TrimEnd(s) == []
    ensures IsBlank(s)
  {
    if s != [] {
      TrimEndEmpty(s[..|s| - 1]);
      forall i | 0 <= i < |s| ensures IsWhiteSpace(s[i]) {
        if i < |s| - 1 { assert s[i] == s[..|s| - 1][i]; }
      }
    }
  }

  /** `char.ToLowerInvariant` restricted to ASCII letters. */
  function LowerChar(c: char): (r: char)
    ensures 'A' <= c <= 'Z' ==> r as int == c as int + 32
    ensures !('A' <= c <= 'Z') ==> r == c
  {
    if 'A' <= c <= 'Z' then (c as int + 32) as char else c
  }

  /** `s.ToLowerInvariant()` on the ASCII letters. */
  function Lower(s: string): (r: string)
    ensures |r| == |s|
    ensures forall i :: 0 <= i < |s| ==> r[i] == LowerChar(s[i])
  {
    if s == [] then [] else [LowerChar(s[0])] + Lower(s[1..])
  }

  predicate IsLower(s: string)
  {
    forall i :: 0 <= i < |s| ==> !('A' <= s[i] <= 'Z')
  }

  lemma LowerIsLower(s: string)
    ensures IsLower(Lower(s))
    ensures Lower(Lower(s)) == Lower(s)
  {
  }

  lemma LowerOfLower(s: string)
    requires IsLower(s)
    ensures Lower(s) == s
  {
  }

  /** `StringComparer.InvariantCultureIgnoreCase` equality on ASCII text. */
  predicate EqualsIgnoreCase(a: string, b: string)
  {
    Lower(a) == Lower(b)
  }

  /** Membership in a list that compares case-insensitively. */
  predicate ContainsIgnoreCase(xs: seq<string>, x: string)
  {
    exists i :: 0 <= i < |xs| && EqualsIgnoreCase(xs[i], x)
  }

  predicate EndsWith(s: string, suffix: string)
  {
    |suffix| <= |s| && s[|s| - |suffix|..] == suffix
  }

  // ---------------------------------------------------------------- numbers

  predicate IsDigit(c: char) { '0' <= c <= '9' }

  predicate AllDigits(s: string) { forall i :: 0 <= i < |s| ==> IsDigit(s[i]) }

  function DigitValue(c: char): nat requires IsDigit(c) { c as int - '0' as int }

  function DigitChar(d: nat): (c: char)
    requires d < 10
    ensures IsDigit(c) && DigitValue(c) == d
  {
    ('0' as int + d) as char
  }

  /** The value of a non-empty run of decimal digits, most significant first. */
  function DigitsValue(s: string): nat
    requires AllDigits(s)
  {
    if s == [] then 0 else DigitsValue(s[..|s| - 1]) * 10 + DigitValue(s[|s| - 1])
  }

  /** `n.ToString()` for a non-negative number. */
  function NatToString(n: nat): (s: string)
    ensures |s| >= 1 && AllDigits(s)
    decreases n
  {
    if n < 10 then [DigitChar(n)] else NatToString(n / 10) + [DigitChar(n % 10)]
  }

  /** `n.ToString()` with the invariant culture. */
  function IntToString(n: int): (s: string)
    ensures |s| >= 1 && (IsDigit(s[0]) || s[0] == '-') && IsDigit(s[|s| - 1])
    ensures ',' !in s
  {
    if n < 0 then "-" + NatToString(-n) else NatToString(n)
  }

  lemma {:induction false} NatToStringValue(n: nat)
    ensures DigitsValue(NatToString(n)) == n
    decreases n
  {
    if n >= 10 {
      var s := NatToString(n);
      NatToStringValue(n / 10);
      assert s[..|s| - 1] == NatToString(n / 10);
    }
  }

  const Int32Min: int := -0x8000_0000
  const Int32Max: int := 0x7FFF_FFFF

  predicate IsInt32(n: int) { Int32Min <= n <= Int32Max }

  /** The white space `NumberStyles.Integer` allows around a number. */
  predicate IsNumberWhite(c: char) { c == ' ' || (9 <= c as int <= 13) }

  function TrimNumberWhite(s: string): (r: string)
    ensures |r| <= |s|
  {
    if s != [] && IsNumberWhite(s[0]) then TrimNumberWhite(s[1..])
    else if s != [] && IsNumberWhite(s[|s| - 1]) then TrimNumberWhite(s[..|s| - 1])
    else s
  }

  /**
   * `int.TryParse(s, out n)`: optional surrounding white space, an optional
   * sign and at least one ASCII digit, in the Int32 range.
   */
  function ParseInt32(s: string): (r: Option<int>)
    ensures r.Some? ==> IsInt32(r.value)
  {
    var t := TrimNumberWhite(s);
    if t == [] then None
    else
      var negative := t[0] == '-';
      var digits := if t[0] == '-' || t[0] == '+' then t[1..] else t;
      if digits == [] || !AllDigits(digits) then None
      else
        var v: int := if negative then 0 - DigitsValue(digits) else DigitsValue(digits);
        if IsInt32(v) then Some(v) else None
  }

  /** Text that neither starts nor ends with white space is left alone by the trim. */
  lemma TrimNumberWhiteIdle(s: string)
    requires s != [] && !IsNumberWhite(s[0]) && !IsNumberWhite(s[|s| - 1])
    ensures TrimNumberWhite(s) == s
  {
  }

  lemma ParseNatToString(n: nat)
    requires n <= Int32Max
    ensures ParseInt32(NatToString(n)) == Some(n)
  {
    var s := NatToString(n);
    TrimNumberWhiteIdle(s);
    NatToStringValue(n);
  }

  lemma ParseNegToString(n: nat)
    requires 0 < n <= -Int32Min
    ensures ParseInt32("-" + NatToString(n)) == Some(-(n as int))
  {
    var s := "-" + NatToString(n);
    TrimNumberWhiteIdle(s);
    NatToStringValue(n);
    assert s[1..] == NatToString(n);
  }

  /** Formatting an Int32 and parsing it back gives the same number. */
  lemma ParseIntToString(n: int)
    requires IsInt32(n)
    ensures ParseInt32(IntToString(n)) == Some(n)
  {
    if n < 0 {
      ParseNegToString(-n);
    } else {
      ParseNatToString(n);
    }
  }

  /** A string with a letter in it is not a number. */
  lemma ParseIntRejectsLetter(s: string, i: nat)
    requires i < |s| && 'a' <= s[i] <= 'z'
    ensures ParseInt32(s).None?
  {
    var t := TrimNumberWhite(s);
    TrimNumberWhiteKeeps(s, i);
    if t != [] {
      var digits := if t[0] == '-' || t[0] == '+' then t[1..] else t;
      var j :| 0 <= j < |t| && 'a' <= t[j] <= 'z';
      if t[0] == '-' || t[0] == '+' {
        assert digits[j - 1] == t[j];
      } else {
        assert digits[j] == t[j];
      }
    }
  }

  lemma {:induction false} TrimNumberWhiteKeeps(s: string, i: nat)
    requires i < |s| && 'a' <= s[i] <= 'z'
    ensures exists j :: 0 <= j < |TrimNumberWhite(s)| && 'a' <= TrimNumberWhite(s)[j] <= 'z'
    decreases |s|
  {
    if s != [] && IsNumberWhite(s[0]) {
      assert i > 0 && s[1..][i - 1] == s[i];
      TrimNumberWhiteKeeps(s[1..], i - 1);
      assert TrimNumberWhite(s) == TrimNumberWhite(s[1..]);
    } else if s != [] && IsNumberWhite(s[|s| - 1]) {
      assert i < |s| - 1 && s[..|s| - 1][i] == s[i];
      TrimNumberWhiteKeeps(s[..|s| - 1], i);
      assert TrimNumberWhite(s) == TrimNumberWhite(s[..|s| - 1]);
    } else {
      assert TrimNumberWhite(s)[i] == s[i];
    }
  }
}
