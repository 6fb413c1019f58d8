/**
 * Guids as 32 hexadecimal digits (the digit order of the "N" format), the
 * "N" formatting used inside UDIs and `Guid.TryParse` for the "N" and "D"
 * layouts.
 */
module Guids {
  import opened Wrappers
  import Text

  type Nibble = x: int | 0 <= x < 16

  type Guid = s: seq<Nibble> | |s| == 32 witness seq(32, i => 0)

  function HexChar(d: Nibble): (c: char)
    ensures IsLowerHex(c)
  {
    if d < 10 then ('0' as int + d) as char else ('a' as int + d - 10) as char
  }

  predicate IsLowerHex(c: char) { '0' <= c <= '9' || 'a' <= c <= 'f' }

  /** A hexadecimal digit of either case. */
  function HexValue(c: char): (r: Option<Nibble>)
    ensures IsLowerHex(c) ==> r.Some?
  {
    if '0' <= c <= '9' then Some(c as int - '0' as int)
    else if 'a' <= c <= 'f' then Some(c as int - 'a' as int + 10)
    else if 'A' <= c <= 'F' then Some(c as int - 'A' as int + 10)
    else None
  }

  lemma HexValueOfHexChar(d: Nibble)
    ensures HexValue(HexChar(d)) == Some(d)
  {
  }

  /** `guid.ToString("N")`: 32 lower-case hexadecimal digits, no dashes. */
  function FormatN(g: Guid): (s: string)
    ensures |s| == 32
    ensures forall i :: 0 <= i < 32 ==> s[i] == HexChar(g[i])
  {
    seq(32, i requires 0 <= i < 32 => HexChar(g[i]))
  }

  /** The digits of a run of hexadecimal characters. */
  function ParseHex(s: string): (r: Option<seq<Nibble>>)
    ensures r.Some? ==> |r.value| == |s|
    ensures r.Some? ==> forall i :: 0 <= i < |s| ==> HexValue(s[i]) == Some(r.value[i])
  {
    if s == [] then Some([])
    else match (HexValue(s[0]), ParseHex(s[1..]))
      case (Some(d), Some(rest)) => Some([d] + rest)
      case _ => None
  }

  lemma {:induction false} ParseHexOfDigits(s: string, ds: seq<Nibble>)
    requires |s| == |ds|
    requires forall i :: 0 <= i < |s| ==> HexValue(s[i]) == Some(ds[i])
    ensures ParseHex(s) == Some(ds)
  {
    if s != [] {
      ParseHexOfDigits(s[1..], ds[1..]);
      assert [ds[0]] + ds[1..] == ds;
    }
  }

  /** Whether `s` is the 8-4-4-4-12 layout: dashes at positions 8, 13, 18 and 23. */
  predicate IsDashed(s: string)
  {
    |s| == 36 && s[8] == '-' && s[13] == '-' && s[18] == '-' && s[23] == '-'
  }

  function Undash(s: string): (r: string)
    requires IsDashed(s)
    ensures |r| == 32
  {
    s[..8] + s[9..13] + s[14..18] + s[19..23] + s[24..]
  }

  /**
   * `Guid.TryParse(s, out g)` for the "N" layout (32 digits) and the "D"
   * layout (8-4-4-4-12 with dashes), after trimming white space.
   */
  function ParseGuid(s: string): (r: Option<Guid>)
  {
    var t := Text.Trim(s);
    var digits := if IsDashed(t) then Undash(t) else t;
    var parsed := ParseHex(digits);
    if |digits| != 32 || parsed.None? then None
    else var ds: Guid := parsed.value; Some(ds)
  }

  /** The "N" text of a guid parses back to that guid. */
  lemma ParseFormatN(g: Guid)
    ensures ParseGuid(FormatN(g)) == Some(g)
  {
    var s := FormatN(g);
    assert !Text.IsWhiteSpace(s[0]) && !Text.IsWhiteSpace(s[31]);
    Text.TrimOfTrimmed(s);
    assert !IsDashed(s);
    forall i | 0 <= i < 32 ensures HexValue(s[i]) == Some(g[i]) {
      HexValueOfHexChar(g[i]);
    }
    ParseHexOfDigits(s, g);
  }

  /** The "N" text never contains the separators used around it in a UDI. */
  lemma FormatNHasNoSeparator(g: Guid)
    ensures ',' !in FormatN(g) && '/' !in FormatN(g) && ':' !in FormatN(g)
  {
    var s := FormatN(g);
    forall i | 0 <= i < 32 ensures s[i] != ',' && s[i] != '/' && s[i] != ':' {
      assert IsLowerHex(s[i]);
    }
  }
}
