/**
  The document identifier `_id`. A MongoDB ObjectId is twelve bytes; its
  `toString()` is those bytes as 24 lower-case hexadecimal digits. How an
  ObjectId is generated (timestamp, random part, counter) is not modelled:
  an identifier is an abstract number below 2^96.
*/
module ObjectIds {
  import opened Wrappers

  const HexWidth: nat := 24

  function Pow16(n: nat): (r: nat)
    ensures r >= 1
  {
    if n == 0 then 1 else 16 * Pow16(n - 1)
  }

  lemma {:induction false} Pow16Add(a: nat, b: nat)
    ensures Pow16(a + b) == Pow16(a) * Pow16(b)
  {
    if a > 0 {
      Pow16Add(a - 1, b);
      assert Pow16(a + b) == 16 * Pow16(a - 1 + b);
    }
  }

  lemma Pow16Width()
    ensures Pow16(HexWidth) == IdSpace
  {
    assert Pow16(3) == 0x1000;
    Pow16Add(3, 3);
    Pow16Add(6, 6);
    Pow16Add(12, 12);
  }

  /** 2^96: the number of distinct twelve-byte identifiers. */
  const IdSpace: nat := 0x1_0000_0000_0000_0000_0000_0000

  type ObjectId = x: nat | x < IdSpace

  const HexDigits: string := "0123456789abcdef"

  function HexChar(d: nat): char
    requires d < 16
  {
    HexDigits[d]
  }

  function HexValue(c: char): Option<nat> {
    if '0' <= c <= '9' then Some(c as nat - '0' as nat)
    else if 'a' <= c <= 'f' then Some(c as nat - 'a' as nat + 10)
    else None
  }

  /** n written with exactly `width` hexadecimal digits, most significant first. */
  function ToHex(n: nat, width: nat): (s: string)
    ensures |s| == width
  {
    if width == 0 then "" else ToHex(n / 16, width - 1) + [HexChar(n % 16)]
  }

  /** Reads a string of hexadecimal digits back into a number. */
  function ParseHex(s: string): Option<nat> {
    if s == [] then Some(0)
    else
      match (ParseHex(s[..|s| - 1]), HexValue(s[|s| - 1]))
      case (Some(high), Some(low)) => Some(16 * high + low)
      case _ => None
  }

  /** `_id.toString()` */
  function IdString(id: ObjectId): string {
    ToHex(id, HexWidth)
  }

  lemma HexValueOfChar(d: nat)
    requires d < 16
    ensures HexValue(HexChar(d)) == Some(d)
  {
  }

  lemma {:induction false} ParseToHex(n: nat, width: nat)
    requires n < Pow16(width)
    ensures ParseHex(ToHex(n, width)) == Some(n)
  {
    if width > 0 {
      var s := ToHex(n, width);
      assert s[..|s| - 1] == ToHex(n / 16, width - 1);
      assert s[|s| - 1] == HexChar(n % 16);
      ParseToHex(n / 16, width - 1);
      HexValueOfChar(n % 16);
    }
  }

  /** The string form is 24 characters and reads back to the same identifier. */
  lemma IdStringRoundTrip(id: ObjectId)
    ensures |IdString(id)| == 24
    ensures ParseHex(IdString(id)) == Some(id as nat)
  {
    Pow16Width();
    ParseToHex(id, HexWidth);
  }

  /** Distinct identifiers have distinct string forms. */
  lemma IdStringInjective(a: ObjectId, b: ObjectId)
    requires IdString(a) == IdString(b)
    ensures a == b
  {
    IdStringRoundTrip(a);
    IdStringRoundTrip(b);
  }
}
