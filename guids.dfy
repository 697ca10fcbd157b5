/** Session ids: 128-bit values, the empty id, and the standard text form a
    session cookie carries (32 lower-case hexadecimal digits grouped 8-4-4-4-12
    by hyphens). The value of an id is the number its 32 digits spell. */
module Guids {
  import opened RpcTypes

  function Pow16(k: nat): (r: nat)
    ensures r > 0
  {
    if k == 0 then 1 else 16 * Pow16(k - 1)
  }

  type Guid = n: nat | n < Pow16(32)

  /** `Guid.Empty`, the id that means "no session". */
  const EmptyGuid: Guid := 0

  function HexDigit(d: nat): char
    requires d < 16
  {
    if d < 10 then ('0' as int + d) as char else ('a' as int + d - 10) as char
  }

  /** The value of one hexadecimal digit, in either case. */
  function DigitValue(c: char): Option<nat> {
    if '0' <= c <= '9' then Some(c as int - '0' as int)
    else if 'a' <= c <= 'f' then Some(c as int - 'a' as int + 10)
    else if 'A' <= c <= 'F' then Some(c as int - 'A' as int + 10)
    else None
  }

  /** The low `width` hexadecimal digits of `n`, most significant first. */
  function HexDigits(n: nat, width: nat): (s: string)
    ensures |s| == width
  {
    if width == 0 then [] else HexDigits(n / 16, width - 1) + [HexDigit(n % 16)]
  }

  /** The number a string of hexadecimal digits spells. */
  function HexValue(s: string): Option<nat> {
    if |s| == 0 then Some(0)
    else
      match (HexValue(s[..|s| - 1]), DigitValue(s[|s| - 1]))
      case (Some(high), Some(low)) => Some(16 * high + low)
      case _ => None
  }

  /** `Guid.ToString()`. */
  function GuidText(g: Guid): (s: string)
    ensures |s| == 36
    ensures s[8] == '-' && s[13] == '-' && s[18] == '-' && s[23] == '-'
  {
    Grouped(HexDigits(g, 32))
  }

  /** Reading the text form back: the inverse of `GuidText`. */
  function ParseGuid(s: string): Option<Guid> {
    if |s| != 36 || s[8] != '-' || s[13] != '-' || s[18] != '-' || s[23] != '-' then None
    else
      match HexValue(Ungrouped(s))
      case Some(v) => if v < Pow16(32) then Some(v) else None
      case None => None
  }

  /** Reading the digits of `n` back gives `n` when `width` digits hold it. */
  lemma {:induction false} HexRoundTrip(n: nat, width: nat)
    requires n < Pow16(width)
    ensures HexValue(HexDigits(n, width)) == Some(n)
  {
    if width > 0 {
      var s := HexDigits(n, width);
      assert s[..|s| - 1] == HexDigits(n / 16, width - 1);
      HexRoundTrip(n / 16, width - 1);
      assert DigitValue(s[|s| - 1]) == Some(n % 16);
    }
  }

  /** The hyphenated layout of 32 digits, and the digits read back from it. */
  function Grouped(h: string): string
    requires |h| == 32
  {
    h[..8] + "-" + h[8..12] + "-" + h[12..16] + "-" + h[16..20] + "-" + h[20..]
  }

  function Ungrouped(s: string): string
    requires |s| == 36
  {
    s[..8] + s[9..13] + s[14..18] + s[19..23] + s[24..]
  }

  lemma UngroupGrouped(h: string)
    requires |h| == 32
    ensures |Grouped(h)| == 36 && Ungrouped(Grouped(h)) == h
  {
    var s := Grouped(h);
    assert |s| == 36;
    assert s[..8] == h[..8];
    assert s[9..13] == h[8..12];
    assert s[14..18] == h[12..16];
    assert s[19..23] == h[16..20];
    assert s[24..] == h[20..];
    assert h == h[..8] + h[8..12] + h[12..16] + h[16..20] + h[20..];
  }

  /** Every id survives its text form unchanged. */
  lemma GuidTextRoundTrip(g: Guid)
    ensures ParseGuid(GuidText(g)) == Some(g)
  {
    UngroupGrouped(HexDigits(g, 32));
    HexRoundTrip(g, 32);
  }

  /** Different ids have different text forms. */
  lemma GuidTextInjective(a: Guid, b: Guid)
    requires GuidText(a) == GuidText(b)
    ensures a == b
  {
    GuidTextRoundTrip(a);
    GuidTextRoundTrip(b);
  }
}
