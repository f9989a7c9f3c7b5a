// Guid values and their text form. Guid.ToString() writes the "D" format,
// 8-4-4-4-12 lower-case hexadecimal digits; Guid.Parse reads it back, in
// either letter case.
module Guids {
  import opened Wrappers
  import opened Text

  type Nibble = n: int | 0 <= n < 16

  /** A Guid is its 32 hexadecimal digits, most significant first. */
  type Guid = s: seq<Nibble> | |s| == 32 witness seq(32, _ => 0)

  function HexChar(n: Nibble): (c: char)
    ensures '0' <= c <= '9' || 'a' <= c <= 'f'
  {
    if n < 10 then ('0' as int + n) as char else ('a' as int + n - 10) as char
  }

  function HexValue(c: char): (r: Option<Nibble>)
    ensures r.Some? <==> ('0' <= c <= '9' || 'a' <= c <= 'f' || 'A' <= c <= 'F')
    ensures r.Some? ==> HexChar(r.value) == LowerChar(c)
  {
    if '0' <= c <= '9' then Some(c as int - '0' as int)
    else if 'a' <= c <= 'f' then Some(c as int - 'a' as int + 10)
    else if 'A' <= c <= 'F' then Some(c as int - 'A' as int + 10)
    else None
  }

  lemma HexValueOfHexChar(n: Nibble)
    ensures HexValue(HexChar(n)) == Some(n)
  {
  }

  function HexText(ns: seq<Nibble>): (r: string)
    ensures |r| == |ns|
    ensures forall i :: 0 <= i < |ns| ==> r[i] == HexChar(ns[i])
  {
    if ns == [] then "" else [HexChar(ns[0])] + HexText(ns[1..])
  }

  function ParseHex(s: string): (r: Option<seq<Nibble>>)
    ensures r.Some? ==> |r.value| == |s|
    ensures r.Some? ==> forall i :: 0 <= i < |s| ==> HexValue(s[i]) == Some(r.value[i])
    ensures r.None? ==> exists i :: 0 <= i < |s| && HexValue(s[i]).None?
  {
    if s == [] then Some([])
    else match HexValue(s[0])
      case None => None
      case Some(n) =>
        match ParseHex(s[1..])
        case None => (assert forall i :: 0 <= i < |s| - 1 ==> s[1..][i] == s[i + 1]; None)
        case Some(rest) => Some([n] + rest)
  }

  lemma {:induction false} ParseHexText(ns: seq<Nibble>)
    ensures ParseHex(HexText(ns)) == Some(ns)
  {
    if ns != [] {
      HexValueOfHexChar(ns[0]);
      ParseHexText(ns[1..]);
      var t := HexText(ns);
      assert t[0] == HexChar(ns[0]);
      assert t[1..] == HexText(ns[1..]);
      assert ParseHex(t) == Some([ns[0]] + ns[1..]);
      assert [ns[0]] + ns[1..] == ns;
    }
  }

  /** Guid.ToString(): the 36-character "D" format. */
  function GuidText(g: Guid): (r: string)
    ensures |r| == 36
  {
    HexText(g[..8]) + "-" + HexText(g[8..12]) + "-" + HexText(g[12..16]) + "-"
      + HexText(g[16..20]) + "-" + HexText(g[20..])
  }

  predicate Dashed(s: string)
  {
    |s| == 36 && s[8] == '-' && s[13] == '-' && s[18] == '-' && s[23] == '-'
  }

  /** The 32 digit characters of a dashed Guid text. */
  function Digits(s: string): (r: string)
    requires |s| == 36
    ensures |r| == 32
  {
    s[..8] + s[9..13] + s[14..18] + s[19..23] + s[24..]
  }

  /** Position in the text of the k-th digit. */
  function DigitPos(k: nat): (p: nat)
    requires k < 32
    ensures p < 36
  {
    if k < 8 then k else if k < 12 then k + 1 else if k < 16 then k + 2 else if k < 20 then k + 3 else k + 4
  }

  lemma DigitsAt(s: string, k: nat)
    requires |s| == 36 && k < 32
    ensures Digits(s)[k] == s[DigitPos(k)]
  {
  }

  /** Guid.Parse for the "D" format; anything else fails with a FormatException. */
  function ParseGuid(s: string): (r: Option<Guid>)
    ensures r.Some? ==> Dashed(s)
  {
    if Dashed(s) then
      match ParseHex(Digits(s))
      case Some(ns) => var g: Guid := ns; Some(g)
      case None => None
    else None
  }

  lemma GuidTextAt(g: Guid, k: nat)
    requires k < 32
    ensures GuidText(g)[DigitPos(k)] == HexChar(g[k])
  {
  }

  lemma GuidTextDigits(g: Guid)
    ensures Dashed(GuidText(g))
    ensures Digits(GuidText(g)) == HexText(g)
  {
    var t := GuidText(g);
    forall k | 0 <= k < 32 ensures Digits(t)[k] == HexText(g)[k] {
      DigitsAt(t, k);
      GuidTextAt(g, k);
    }
  }

  /** Parsing the text a Guid prints gives that Guid back. */
  lemma ParseGuidText(g: Guid)
    ensures ParseGuid(GuidText(g)) == Some(g)
  {
    GuidTextDigits(g);
    ParseHexText(g);
  }

  /** Whatever text parses to g is GuidText(g) up to letter case. */
  lemma ParsedTextIsGuidText(s: string, g: Guid)
    requires ParseGuid(s) == Some(g)
    ensures GuidText(g) == Lower(s)
  {
    var t := GuidText(g);
    GuidTextDigits(g);
    forall p | 0 <= p < 36 ensures t[p] == Lower(s)[p] {
      if p == 8 || p == 13 || p == 18 || p == 23 {
      } else {
        var k := if p < 8 then p else if p < 13 then p - 1 else if p < 18 then p - 2 else if p < 23 then p - 3 else p - 4;
        assert DigitPos(k) == p;
        DigitsAt(s, k);
        GuidTextAt(g, k);
      }
    }
  }

  /** Two Guids print the same text only if they are equal. */
  lemma GuidTextInjective(g: Guid, h: Guid)
    requires GuidText(g) == GuidText(h)
    ensures g == h
  {
    ParseGuidText(g);
    ParseGuidText(h);
  }
}
