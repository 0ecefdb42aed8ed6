/**
 The canonical archive header of a release artifact: the "ustar Interchange Format"
 of the pax utility in IEEE Std 1003.1, restricted to one owner-readable regular
 file with fixed metadata.
 */
module Ustar {

  type byte = x: int | 0 <= x < 256
  type bytes = seq<byte>

  const BLOCK: nat := 512
  const FILE_LIMIT: nat := 8 * 1024 * 1024 * 1024 - 1
  const SPACE: byte := 32
  const ZERO_DIGIT: byte := 48
  const MODE: nat := 420  // 0o644

  function Zeros(n: nat): (r: bytes)
    ensures |r| == n && forall i :: 0 <= i < n ==> r[i] == 0
  {
    seq(n, _ => 0)
  }

  // --------------------------------------------------------- octal numbers

  function Pow8(w: nat): (r: nat)
    ensures r >= 1
  {
    if w == 0 then 1 else 8 * Pow8(w - 1)
  }

  function Digit(n: nat): byte
    requires n < 8
  {
    ZERO_DIGIT + n
  }

  /** The shortest octal numeral of `n`. */
  function PrintOctal(n: nat): (r: bytes)
    ensures r != []
    ensures forall i :: 0 <= i < |r| ==> ZERO_DIGIT <= r[i] < ZERO_DIGIT + 8
  {
    if n < 8 then [Digit(n)] else PrintOctal(n / 8) + [Digit(n % 8)]
  }

  /** `n` in octal, padded with zero digits to at least `width` characters. */
  function OctalText(n: nat, width: nat): (r: bytes)
    ensures |r| >= width
    ensures forall i :: 0 <= i < |r| ==> ZERO_DIGIT <= r[i] < ZERO_DIGIT + 8
  {
    var digits := PrintOctal(n);
    if |digits| >= width then digits else seq(width - |digits|, _ => ZERO_DIGIT) + digits
  }

  function ParseOctal(s: bytes): nat
    requires forall i :: 0 <= i < |s| ==> ZERO_DIGIT <= s[i] < ZERO_DIGIT + 8
  {
    if s == [] then 0 else 8 * ParseOctal(s[..|s| - 1]) + (s[|s| - 1] - ZERO_DIGIT)
  }

  lemma {:induction false} PrintLength(n: nat, w: nat)
    requires w >= 1
    ensures |PrintOctal(n)| <= w <==> n < Pow8(w)
  {
    assert Pow8(1) == 8 * Pow8(0) == 8;
    if n >= 8 {
      if w == 1 {
        assert |PrintOctal(n)| > 1;
      } else {
        PrintLength(n / 8, w - 1);
        assert n < 8 * Pow8(w - 1) <==> n / 8 < Pow8(w - 1);
      }
    } else if w > 1 {
      PrintLength(n, w - 1);
    }
  }

  /** A field of `width` digits holds exactly the numbers below 8^width. */
  lemma FieldFits(n: nat, width: nat)
    requires width >= 1
    ensures |OctalText(n, width)| == width <==> n < Pow8(width)
  {
    PrintLength(n, width);
  }

  lemma {:induction false} ParsePrinted(n: nat)
    ensures ParseOctal(PrintOctal(n)) == n
  {
    if n < 8 {
      assert PrintOctal(n)[..0] == [];
    } else {
      ParsePrinted(n / 8);
      var s := PrintOctal(n);
      assert s[..|s| - 1] == PrintOctal(n / 8);
    }
  }

  lemma {:induction false} ParsePadded(k: nat, s: bytes)
    requires forall i :: 0 <= i < |s| ==> ZERO_DIGIT <= s[i] < ZERO_DIGIT + 8
    ensures var t := seq(k, _ => ZERO_DIGIT) + s; ParseOctal(t) == ParseOctal(s)
    decreases |s| + k
  {
    var pad: bytes := seq(k, _ => ZERO_DIGIT);
    var t := pad + s;
    if s == [] {
      if k > 0 {
        ParsePadded(k - 1, []);
        var shorter: bytes := seq(k - 1, _ => ZERO_DIGIT);
        assert t[..k - 1] == shorter + [] == shorter;
      }
    } else {
      ParsePadded(k, s[..|s| - 1]);
      assert t[..|t| - 1] == pad + s[..|s| - 1];
    }
  }

  /** The field text reads back as the number it was printed from. */
  lemma OctalRoundTrip(n: nat, width: nat)
    ensures ParseOctal(OctalText(n, width)) == n
  {
    var digits := PrintOctal(n);
    ParsePrinted(n);
    if |digits| < width {
      ParsePadded(width - |digits|, digits);
    }
  }

  // ---------------------------------------------------------------- header

  function Sum(s: bytes): nat {
    if s == [] then 0 else Sum(s[..|s| - 1]) + s[|s| - 1]
  }

  lemma {:induction false} SumBound(s: bytes)
    ensures Sum(s) <= 255 * |s|
  {
    if s != [] {
      SumBound(s[..|s| - 1]);
    }
  }

  const USTAR_MAGIC: bytes := [117, 115, 116, 97, 114, 0]
  const USTAR_VERSION: bytes := [48, 48]

  /** The fields in their interchange order, with a given checksum field. */
  function Layout(name: bytes, size: nat, checksum: bytes): bytes
    requires |name| <= 100
  {
    name + Zeros(100 - |name|)
    + (OctalText(MODE, 7) + [0])
    + (OctalText(0, 7) + [0])
    + (OctalText(0, 7) + [0])
    + (OctalText(size, 11) + [0])
    + (OctalText(0, 11) + [0])
    + checksum
    + [ZERO_DIGIT]
    + Zeros(100)
    + USTAR_MAGIC + USTAR_VERSION
    + Zeros(247)
  }

  const BLANK: bytes := [SPACE, SPACE, SPACE, SPACE, SPACE, SPACE, SPACE, SPACE]

  function Checksum(name: bytes, size: nat): nat
    requires |name| <= 100
  {
    Sum(Layout(name, size, BLANK))
  }

  function ChecksumField(name: bytes, size: nat): bytes
    requires |name| <= 100
  {
    OctalText(Checksum(name, size), 6) + [0, SPACE]
  }

  function Header(name: bytes, size: nat): bytes
    requires |name| <= 100
  {
    Layout(name, size, ChecksumField(name, size))
  }

  lemma ConstantFields()
    ensures |OctalText(MODE, 7)| == 7 && |OctalText(0, 7)| == 7 && |OctalText(0, 11)| == 11
  {
    FieldFits(MODE, 7);
    FieldFits(0, 7);
    FieldFits(0, 11);
    Powers();
  }

  /** The size limit 8 GiB - 1 is the largest number of eleven octal digits. */
  lemma Powers()
    ensures Pow8(6) == 262144 && Pow8(7) == 2097152 && Pow8(11) == FILE_LIMIT + 1
  {
    assert Pow8(3) == 512;
    assert Pow8(6) == 512 * Pow8(3);
    assert Pow8(9) == 512 * Pow8(6);
    assert Pow8(11) == 64 * Pow8(9);
  }

  lemma LayoutLength(name: bytes, size: nat, checksum: bytes)
    requires |name| <= 100 && size <= FILE_LIMIT && |checksum| == 8
    ensures |Layout(name, size, checksum)| == BLOCK
  {
    ConstantFields();
    Powers();
    FieldFits(size, 11);
  }

  /** Every field fits its width, so a header is exactly one block. */
  lemma HeaderIsOneBlock(name: bytes, size: nat)
    requires |name| <= 100 && size <= FILE_LIMIT
    ensures |OctalText(size, 11)| == 11
    ensures Checksum(name, size) < Pow8(6) && |ChecksumField(name, size)| == 8
    ensures |Header(name, size)| == BLOCK
  {
    Powers();
    FieldFits(size, 11);
    LayoutLength(name, size, BLANK);
    SumBound(Layout(name, size, BLANK));
    FieldFits(Checksum(name, size), 6);
    LayoutLength(name, size, ChecksumField(name, size));
  }
}
