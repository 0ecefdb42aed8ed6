/**
 Reading a canonical header back, and the in-place printer that writes one.
 */
module UstarHeader {
  import opened Ustar

  /** Where the fields of a header lie. */
  lemma LayoutFields(name: bytes, size: nat, checksum: bytes)
    requires |name| <= 100 && size <= FILE_LIMIT && |checksum| == 8
    ensures |Layout(name, size, checksum)| == BLOCK
    ensures var h := Layout(name, size, checksum);
      && h[..100] == name + Zeros(100 - |name|)
      && h[100..148] == (OctalText(MODE, 7) + [0]) + (OctalText(0, 7) + [0]) + (OctalText(0, 7) + [0])
                        + (OctalText(size, 11) + [0]) + (OctalText(0, 11) + [0])
      && h[124..135] == OctalText(size, 11)
      && h[148..156] == checksum
      && h[156..] == [ZERO_DIGIT] + Zeros(100) + USTAR_MAGIC + USTAR_VERSION + Zeros(247)
  {
    ConstantFields();
    Powers();
    FieldFits(size, 11);
    LayoutLength(name, size, checksum);
    var h := Layout(name, size, checksum);
    var head := name + Zeros(100 - |name|);
    var meta := (OctalText(MODE, 7) + [0]) + (OctalText(0, 7) + [0]) + (OctalText(0, 7) + [0])
                + (OctalText(size, 11) + [0]) + (OctalText(0, 11) + [0]);
    var rest := [ZERO_DIGIT] + Zeros(100) + USTAR_MAGIC + USTAR_VERSION + Zeros(247);
    assert h == head + meta + checksum + rest;
    assert meta[24..35] == OctalText(size, 11);
    assert h[124..135] == meta[24..35];
  }

  /** The block as a checker sees it, with the checksum field blanked. */
  function Blanked(h: bytes): bytes
    requires |h| == BLOCK
  {
    h[..148] + BLANK + h[156..]
  }

  /** An independent reader recovers the size, and the stored checksum is the sum of the blanked block. */
  lemma HeaderReadsBack(name: bytes, size: nat)
    requires |name| <= 100 && size <= FILE_LIMIT
    ensures |Header(name, size)| == BLOCK
    ensures var h := Header(name, size);
      && (forall i :: 124 <= i < 135 ==> ZERO_DIGIT <= h[i] < ZERO_DIGIT + 8)
      && (forall i :: 148 <= i < 154 ==> ZERO_DIGIT <= h[i] < ZERO_DIGIT + 8)
      && ParseOctal(h[124..135]) == size
      && ParseOctal(h[148..154]) == Sum(Blanked(h))
  {
    HeaderIsOneBlock(name, size);
    var field := ChecksumField(name, size);
    var h := Header(name, size);
    LayoutFields(name, size, field);
    LayoutFields(name, size, BLANK);
    OctalRoundTrip(size, 11);
    OctalRoundTrip(Checksum(name, size), 6);
    assert h[148..154] == field[..6] == OctalText(Checksum(name, size), 6);
    BlankedLayout(name, size, field);
    forall i | 124 <= i < 135 ensures ZERO_DIGIT <= h[i] < ZERO_DIGIT + 8 {
      assert h[i] == h[124..135][i - 124];
    }
    forall i | 148 <= i < 154 ensures ZERO_DIGIT <= h[i] < ZERO_DIGIT + 8 {
      assert h[i] == h[148..154][i - 148];
    }
  }

  lemma BlankedLayout(name: bytes, size: nat, checksum: bytes)
    requires |name| <= 100 && size <= FILE_LIMIT && |checksum| == 8
    ensures |Layout(name, size, checksum)| == BLOCK
    ensures Blanked(Layout(name, size, checksum)) == Layout(name, size, BLANK)
  {
    LayoutFields(name, size, checksum);
    LayoutFields(name, size, BLANK);
    var h, b := Layout(name, size, checksum), Layout(name, size, BLANK);
    assert h[..148] == h[..100] + h[100..148];
    assert b == b[..100] + b[100..148] + b[148..156] + b[156..];
  }

  ghost predicate Plain(name: bytes) {
    |name| <= 100 && forall i :: 0 <= i < |name| ==> name[i] != 0
  }

  lemma NameEnds(a: bytes, b: bytes)
    requires Plain(a) && Plain(b) && a + Zeros(100 - |a|) == b + Zeros(100 - |b|)
    ensures |b| <= |a|
  {
    var k := |a|;
    if k < 100 {
      assert (a + Zeros(100 - |a|))[k] == 0;
      assert (b + Zeros(100 - |b|))[k] == 0;
    }
  }

  lemma PaddedNameInjective(a: bytes, b: bytes)
    requires Plain(a) && Plain(b)
    requires a + Zeros(100 - |a|) == b + Zeros(100 - |b|)
    ensures a == b
  {
    var p, q := a + Zeros(100 - |a|), b + Zeros(100 - |b|);
    NameEnds(a, b);
    NameEnds(b, a);
    assert forall i :: 0 <= i < |a| ==> p[i] == a[i];
    assert forall i :: 0 <= i < |b| ==> q[i] == b[i];
  }

  /** Equal headers belong to equal file names and sizes. */
  lemma HeaderInjective(a: bytes, m: nat, b: bytes, n: nat)
    requires Plain(a) && Plain(b) && m <= FILE_LIMIT && n <= FILE_LIMIT
    requires Header(a, m) == Header(b, n)
    ensures a == b && m == n
  {
    HeaderReadsBack(a, m);
    HeaderReadsBack(b, n);
    LayoutFieldsOfHeader(a, m);
    LayoutFieldsOfHeader(b, n);
    PaddedNameInjective(a, b);
  }

  lemma LayoutFieldsOfHeader(name: bytes, size: nat)
    requires |name| <= 100 && size <= FILE_LIMIT
    ensures |Header(name, size)| == BLOCK && Header(name, size)[..100] == name + Zeros(100 - |name|)
  {
    HeaderIsOneBlock(name, size);
    LayoutFields(name, size, ChecksumField(name, size));
  }

  // ------------------------------------------------------ in-place printer

  function Spliced(s: bytes, start: nat, part: bytes): bytes
    requires start + |part| <= |s|
  {
    s[..start] + part + s[start + |part|..]
  }

  method CopyFromSlice(block: array<byte>, start: nat, part: bytes)
    requires start + |part| <= block.Length
    modifies block
    ensures block[..] == Spliced(old(block[..]), start, part)
  {
    for i := 0 to |part|
      invariant forall j :: 0 <= j < i ==> block[start + j] == part[j]
      invariant forall j :: 0 <= j < block.Length && !(start <= j < start + i) ==> block[j] == old(block[j])
    {
      block[start + i] := part[i];
    }
    assert forall j :: 0 <= j < block.Length ==> block[..][j] == Spliced(old(block[..]), start, part)[j];
  }

  method ByteSum(block: array<byte>) returns (sum: nat)
    ensures sum == Sum(block[..])
  {
    sum := 0;
    for i := 0 to block.Length
      invariant sum == Sum(block[..i])
    {
      sum := sum + block[i];
      assert block[..i + 1][..i] == block[..i];
    }
    assert block[..block.Length] == block[..];
  }

  ghost function DrawnNumbers(name: bytes, mode: bytes, id: bytes, size: bytes, time: bytes): bytes
    requires |name| <= 100 && |mode| == |id| == 8 && |size| == |time| == 12
  {
    var b0 := Spliced(Zeros(BLOCK), 0, name);
    var b1 := Spliced(b0, 100, mode);
    var b2 := Spliced(b1, 108, id);
    var b3 := Spliced(b2, 116, id);
    var b4 := Spliced(b3, 124, size);
    Spliced(b4, 136, time)
  }

  ghost function DrawnMarks(b: bytes): bytes
    requires |b| == BLOCK
  {
    Spliced(Spliced(Spliced(Spliced(b, 148, BLANK), 156, [ZERO_DIGIT]), 257, USTAR_MAGIC), 263, USTAR_VERSION)
  }

  /** The printer of the release tool: fields written over a zero block, the checksum last. */
  method WriteHeader(name: bytes, size: nat) returns (block: array<byte>)
    requires |name| <= 100 && size <= FILE_LIMIT
    ensures fresh(block) && block[..] == Header(name, size)
  {
    HeaderIsOneBlock(name, size);
    ConstantFields();
    block := new byte[BLOCK](_ => 0);
    assert block[..] == Zeros(BLOCK);
    CopyFromSlice(block, 0, name);
    CopyFromSlice(block, 100, OctalText(MODE, 7) + [0]);
    CopyFromSlice(block, 108, OctalText(0, 7) + [0]);
    CopyFromSlice(block, 116, OctalText(0, 7) + [0]);
    CopyFromSlice(block, 124, OctalText(size, 11) + [0]);
    CopyFromSlice(block, 136, OctalText(0, 11) + [0]);
    CopyFromSlice(block, 148, BLANK);
    CopyFromSlice(block, 156, [ZERO_DIGIT]);
    CopyFromSlice(block, 257, USTAR_MAGIC);
    CopyFromSlice(block, 263, USTAR_VERSION);
    DrawnIsLayout(name, size, block[..]);
    var checksum := ByteSum(block);
    CopyFromSlice(block, 148, OctalText(checksum, 6) + [0, SPACE]);
    ChecksumLast(name, size);
  }

  /** Writing beyond what is written so far leaves a gap of zeros. */
  lemma SpliceNext(s: bytes, done: bytes, gap: nat, part: bytes, next: bytes)
    requires |done| + gap + |part| <= BLOCK && next == done + Zeros(gap) + part
    requires s == done + Zeros(BLOCK - |done|)
    ensures Spliced(s, |done| + gap, part) == next + Zeros(BLOCK - |next|)
  {
    assert s[..|done| + gap] == done + Zeros(gap);
    assert s[|done| + gap + |part|..] == Zeros(BLOCK - |next|);
  }

  lemma DrawnNumbersLayout(name: bytes, mode: bytes, id: bytes, size: bytes, time: bytes, all: bytes)
    requires |name| <= 100 && |mode| == |id| == 8 && |size| == |time| == 12
    requires all == name + Zeros(100 - |name|) + mode + id + id + size + time
    ensures DrawnNumbers(name, mode, id, size, time) == all + Zeros(BLOCK - |all|)
  {
    var b0 := Spliced(Zeros(BLOCK), 0, name);
    var b1 := Spliced(b0, 100, mode);
    var b2 := Spliced(b1, 108, id);
    var b3 := Spliced(b2, 116, id);
    var b4 := Spliced(b3, 124, size);
    var p1 := name + Zeros(100 - |name|) + mode;
    var p2 := p1 + id;
    var p3 := p2 + id;
    var p4 := p3 + size;
    SpliceNext(Zeros(BLOCK), [], 0, name, name);
    SpliceNext(b0, name, 100 - |name|, mode, p1);
    SpliceNext(b1, p1, 0, id, p2);
    SpliceNext(b2, p2, 0, id, p3);
    SpliceNext(b3, p3, 0, size, p4);
    SpliceNext(b4, p4, 0, time, all);
  }

  lemma DrawnMarksLayout(done: bytes, all: bytes)
    requires |done| == 148
    requires all == done + BLANK + [ZERO_DIGIT] + Zeros(100) + USTAR_MAGIC + USTAR_VERSION + Zeros(247)
    ensures DrawnMarks(done + Zeros(BLOCK - 148)) == all
  {
    var b := done + Zeros(BLOCK - 148);
    var b1 := Spliced(b, 148, BLANK);
    var b2 := Spliced(b1, 156, [ZERO_DIGIT]);
    var b3 := Spliced(b2, 257, USTAR_MAGIC);
    var p1 := done + BLANK;
    var p2 := p1 + [ZERO_DIGIT];
    var p3 := p2 + Zeros(100) + USTAR_MAGIC;
    SpliceNext(b, done, 0, BLANK, p1);
    SpliceNext(b1, p1, 0, [ZERO_DIGIT], p2);
    SpliceNext(b2, p2, 100, USTAR_MAGIC, p3);
    SpliceNext(b3, p3, 0, USTAR_VERSION, p3 + USTAR_VERSION);
  }

  lemma DrawnIsLayout(name: bytes, size: nat, b: bytes)
    requires |name| <= 100 && size <= FILE_LIMIT
    requires |OctalText(MODE, 7)| == |OctalText(0, 7)| == 7 && |OctalText(size, 11)| == |OctalText(0, 11)| == 11
    requires b == DrawnMarks(DrawnNumbers(name, OctalText(MODE, 7) + [0], OctalText(0, 7) + [0],
                                          OctalText(size, 11) + [0], OctalText(0, 11) + [0]))
    ensures b == Layout(name, size, BLANK)
  {
    var mode, id := OctalText(MODE, 7) + [0], OctalText(0, 7) + [0];
    var sized, time := OctalText(size, 11) + [0], OctalText(0, 11) + [0];
    var numbers := name + Zeros(100 - |name|) + mode + id + id + sized + time;
    DrawnNumbersLayout(name, mode, id, sized, time, numbers);
    DrawnMarksLayout(numbers, Layout(name, size, BLANK));
  }

  lemma ChecksumLast(name: bytes, size: nat)
    requires |name| <= 100 && size <= FILE_LIMIT
    requires |Layout(name, size, BLANK)| == BLOCK && |ChecksumField(name, size)| == 8
    ensures Spliced(Layout(name, size, BLANK), 148, ChecksumField(name, size)) == Header(name, size)
  {
    HeaderIsOneBlock(name, size);
    LayoutFields(name, size, BLANK);
    LayoutFields(name, size, ChecksumField(name, size));
    SpliceChecksum(Layout(name, size, BLANK), Header(name, size));
  }

  /** Blocks that differ only in the checksum field. */
  lemma SpliceChecksum(b: bytes, h: bytes)
    requires |b| == |h| == BLOCK && b[..100] == h[..100] && b[100..148] == h[100..148] && b[156..] == h[156..]
    ensures Spliced(b, 148, h[148..156]) == h
  {
    assert b[..148] == b[..100] + b[100..148];
    assert h[..148] == h[..100] + h[100..148];
    assert h == h[..148] + h[148..156] + h[156..];
  }
}
