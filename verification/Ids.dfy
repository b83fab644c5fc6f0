/** UUIDs and their canonical text form: 32 lower-case hexadecimal digits in five groups. */
module Ids {
  const TWO_TO_128 := 0x1_0000_0000_0000_0000_0000_0000_0000_0000

  type Uuid = n: nat | n < TWO_TO_128

  /** `uuid.Nil`. */
  const NIL: Uuid := 0

  const HEX_DIGITS := "0123456789abcdef"

  function Pow16(k: nat): (p: nat)
    ensures p > 0
  {
    if k == 0 then 1 else 16 * Pow16(k - 1)
  }

  /** The k low-order hexadecimal digits of n, most significant first. */
  function Hex(n: nat, k: nat): (s: string)
    ensures |s| == k
    ensures forall c :: c in s ==> c in HEX_DIGITS
  {
    if k == 0 then "" else Hex(n / 16, k - 1) + [HEX_DIGITS[n % 16]]
  }

  /** `uuid.UUID.String`. */
  function Text(u: Uuid): (s: string)
    ensures |s| == 36
  {
    Grouped(Hex(u, 32))
  }

  function Grouped(h: string): (s: string)
    requires |h| == 32
    ensures |s| == 36
    ensures forall c :: c in s ==> c in h || c == '-'
  {
    h[..8] + "-" + h[8..12] + "-" + h[12..16] + "-" + h[16..20] + "-" + h[20..]
  }

  // ----- Reading the text back -----

  function HexDigitValue(c: char): int {
    if '0' <= c <= '9' then c as int - '0' as int else if 'a' <= c <= 'f' then c as int - 'a' as int + 10 else 0
  }

  function HexValue(s: string): int {
    if s == "" then 0 else 16 * HexValue(s[..|s| - 1]) + HexDigitValue(s[|s| - 1])
  }

  /** The number that the digits between the dashes write. */
  function Parse(s: string): int
    requires |s| == 36
  {
    HexValue(s[..8] + s[9..13] + s[14..18] + s[19..23] + s[24..])
  }

  lemma {:induction false} HexReadsBack(n: nat, k: nat)
    requires n < Pow16(k)
    ensures HexValue(Hex(n, k)) == n
  {
    if k > 0 {
      HexReadsBack(n / 16, k - 1);
      assert Hex(n, k)[..k - 1] == Hex(n / 16, k - 1);
      assert HexDigitValue(HEX_DIGITS[n % 16]) == n % 16;
    }
  }

  lemma Pow16At32()
    ensures Pow16(32) == TWO_TO_128
  {
    assert Pow16(8) == 0x1_0000_0000;
    assert Pow16(16) == 0x1_0000_0000_0000_0000;
    assert Pow16(24) == 0x1_0000_0000_0000_0000_0000_0000;
  }

  lemma GroupsRejoin(h: string)
    requires |h| == 32
    ensures var s := Grouped(h);
            && s[..8] == h[..8] && s[9..13] == h[8..12] && s[14..18] == h[12..16]
            && s[19..23] == h[16..20] && s[24..] == h[20..]
  {
  }

  lemma SlicesRejoin(h: string)
    requires |h| == 32
    ensures h[..8] + h[8..12] + h[12..16] + h[16..20] + h[20..] == h
  {
    assert h[..8] + h[8..12] == h[..12];
    assert h[..12] + h[12..16] == h[..16];
    assert h[..16] + h[16..20] == h[..20];
  }

  lemma GroupedShape(h: string, i: nat)
    requires |h| == 32 && i < 36
    ensures if i == 8 || i == 13 || i == 18 || i == 23 then Grouped(h)[i] == '-' else Grouped(h)[i] in h
  {
  }

  lemma HexDigitsAre(c: char)
    requires c in HEX_DIGITS
    ensures '0' <= c <= '9' || 'a' <= c <= 'f'
  {
  }

  /** The text has its four dashes, lower-case hexadecimal digits elsewhere, and reads back as the id. */
  lemma TextReadsBack(u: Uuid)
    ensures var s := Text(u);
            && (forall i :: 0 <= i < |s| ==>
                  if i == 8 || i == 13 || i == 18 || i == 23 then s[i] == '-'
                  else '0' <= s[i] <= '9' || 'a' <= s[i] <= 'f')
            && Parse(s) == u
  {
    var h, s := Hex(u, 32), Text(u);
    GroupsRejoin(h);
    SlicesRejoin(h);
    Pow16At32();
    HexReadsBack(u, 32);
    forall i | 0 <= i < |s|
      ensures if i == 8 || i == 13 || i == 18 || i == 23 then s[i] == '-'
              else '0' <= s[i] <= '9' || 'a' <= s[i] <= 'f'
    {
      GroupedShape(h, i);
      if s[i] != '-' {
        HexDigitsAre(s[i]);
      }
    }
  }

  /** Different ids never share a text form, so records keyed by text identify the id. */
  lemma TextInjective(u: Uuid, v: Uuid)
    requires Text(u) == Text(v)
    ensures u == v
  {
    TextReadsBack(u);
    TextReadsBack(v);
  }

  /** The text of an id never holds a path separator. */
  lemma TextHasNoSlash(u: Uuid)
    ensures '/' !in Text(u)
  {
    assert forall c :: c in Text(u) ==> c in HEX_DIGITS || c == '-';
  }
}
