/** gateway/src/domain/probe.ts: image dimensions from the first bytes of a JPEG, PNG or WebP file. */
module Probe {
  import opened Types

  type Octet = x: int | 0 <= x < 256

  datatype Dimensions = Dimensions(width: nat, height: nat)

  function U16BE(b: seq<Octet>, i: nat): (v: nat)
    requires i + 2 <= |b|
    ensures v < 0x1_0000
  {
    (b[i] as int) * 256 + b[i + 1] as int
  }

  function U32BE(b: seq<Octet>, i: nat): (v: nat)
    requires i + 4 <= |b|
    ensures v < 0x1_0000_0000
  {
    U16BE(b, i) * 0x1_0000 + U16BE(b, i + 2)
  }

  function U16LE(b: seq<Octet>, i: nat): (v: nat)
    requires i + 2 <= |b|
    ensures v < 0x1_0000
  {
    b[i] as int + (b[i + 1] as int) * 256
  }

  function U24LE(b: seq<Octet>, i: nat): (v: nat)
    requires i + 3 <= |b|
    ensures v < 0x100_0000
  {
    // The source joins the bytes with `|` after shifting: they share no bits, so this is their sum.
    b[i] as int + (b[i + 1] as int) * 256 + (b[i + 2] as int) * 0x1_0000
  }

  function U32LE(b: seq<Octet>, i: nat): (v: nat)
    requires i + 4 <= |b|
    ensures v < 0x1_0000_0000
  {
    U16LE(b, i) + U16LE(b, i + 2) * 0x1_0000
  }

  function Nonzero(width: nat, height: nat): Option<Dimensions> {
    if width != 0 && height != 0 then Some(Dimensions(width, height)) else None
  }

  // ------------------------------------------------------------ JPEG

  /** Markers the walk steps over without a length. */
  predicate Standalone(m: Octet) {
    m == 0xD8 || m == 0x01 || 0xD0 <= m <= 0xD7
  }

  /** SOF0 to SOF15 without DHT, JPG and DAC. */
  predicate IsSof(m: Octet) {
    0xC0 <= m <= 0xCF && m != 0xC4 && m != 0xC8 && m != 0xCC
  }

  /** What the walk finds from `offset` on. */
  function Walk(b: seq<Octet>, offset: nat): Option<Dimensions>
    decreases |b| - offset
  {
    if offset + 3 >= |b| then None
    else if b[offset] != 0xFF then Walk(b, offset + 1)
    else
      var m, at := b[offset + 1], offset + 2;
      if Standalone(m) then Walk(b, at)
      else if m == 0xDA || U16BE(b, at) < 2 then None
      else if IsSof(m) then
        if at + 7 >= |b| then None else Nonzero(U16BE(b, at + 5), U16BE(b, at + 3))
      else Walk(b, at + U16BE(b, at))
  }

  predicate StartsJpeg(b: seq<Octet>) {
    |b| >= 4 && b[0] == 0xFF && b[1] == 0xD8
  }

  function JpegDims(b: seq<Octet>): Option<Dimensions> {
    if StartsJpeg(b) then Walk(b, 2) else None
  }

  method ProbeJpeg(b: seq<Octet>) returns (d: Option<Dimensions>)
    ensures d == JpegDims(b)
  {
    if |b| < 4 || b[0] != 0xFF || b[1] != 0xD8 { return None; }
    var offset := 2;
    while offset + 3 < |b|
      invariant 2 <= offset && JpegDims(b) == Walk(b, offset)
      decreases |b| - offset
    {
      if b[offset] != 0xFF {
        offset := offset + 1;
        continue;
      }
      var marker := b[offset + 1];
      offset := offset + 2;
      if marker == 0xD8 || marker == 0x01 || (marker >= 0xD0 && marker <= 0xD7) { continue; }
      if marker == 0xDA { return None; }
      if offset + 1 >= |b| { return None; }
      var length := U16BE(b, offset);
      if length < 2 { return None; }
      var isSof := marker >= 0xC0 && marker <= 0xCF && marker != 0xC4 && marker != 0xC8 && marker != 0xCC;
      if isSof {
        if offset + 7 >= |b| { return None; }
        var height := U16BE(b, offset + 3);
        var width := U16BE(b, offset + 5);
        return if width != 0 && height != 0 then Some(Dimensions(width, height)) else None;
      }
      offset := offset + length;
    }
    d := None;
  }

  /** The start-of-frame markers (table B.1 of ITU-T T.81): baseline, extended, progressive and lossless,
      sequential and differential, Huffman and arithmetic coding. */
  const FRAME_MARKERS: set<int> := {0xC0, 0xC1, 0xC2, 0xC3, 0xC5, 0xC6, 0xC7, 0xC9, 0xCA, 0xCB, 0xCD, 0xCE, 0xCF}

  lemma {:induction false} FrameMarkers(m: Octet)
    ensures IsSof(m) <==> m in FRAME_MARKERS
  {
  }

  /** Position `i` holds a start-of-frame marker whose size field reads `d`. */
  predicate FrameAt(b: seq<Octet>, i: int, d: Dimensions) {
    && 0 <= i && i + 9 < |b| && b[i] == 0xFF && b[i + 1] in FRAME_MARKERS
    && U16BE(b, i + 5) == d.height && U16BE(b, i + 7) == d.width && d.width != 0 && d.height != 0
  }

  /** On arbitrary bytes, any answer is the size field of some start-of-frame marker in the input. */
  lemma {:induction false} AnswerIsAFrame(b: seq<Octet>, offset: nat)
    requires Walk(b, offset).Some?
    ensures exists i :: offset <= i && FrameAt(b, i, Walk(b, offset).value)
    decreases |b| - offset
  {
    if b[offset] != 0xFF {
      AnswerIsAFrame(b, offset + 1);
    } else {
      var m, at := b[offset + 1], offset + 2;
      if Standalone(m) {
        AnswerIsAFrame(b, at);
      } else if IsSof(m) {
        assert FrameAt(b, offset, Walk(b, offset).value);
      } else {
        AnswerIsAFrame(b, at + U16BE(b, at));
      }
    }
  }

  /** What may stand in front of the frame header: markers without and with a length (section B.1.1 of
      ITU-T T.81), and stray bytes, which the walk steps over. */
  datatype Segment = Bare(marker: Octet) | Filled(marker: Octet, body: seq<Octet>) | Stray(byte: Octet)

  predicate SegmentOk(s: Segment) {
    match s
    case Bare(m) => m == 0x01 || 0xD0 <= m <= 0xD8
    case Stray(x) => x != 0xFF
    case Filled(m, body) =>
      0x02 <= m <= 0xFE && !(0xD0 <= m <= 0xDA) && m !in FRAME_MARKERS && |body| + 2 < 0x1_0000
  }

  function Word(n: nat): (w: seq<Octet>)
    requires n < 0x1_0000
    ensures |w| == 2 && U16BE(w, 0) == n
  {
    [n / 256, n % 256]
  }

  function SegmentBytes(s: Segment): seq<Octet>
    requires SegmentOk(s)
  {
    match s
    case Bare(m) => [0xFF, m]
    case Stray(x) => [x]
    case Filled(m, body) => [0xFF, m] + Word(|body| + 2) + body
  }

  predicate SegmentsOk(s: seq<Segment>) {
    s == [] || (SegmentOk(s[0]) && SegmentsOk(s[1..]))
  }

  function AllSegments(s: seq<Segment>): seq<Octet>
    requires SegmentsOk(s)
  {
    if s == [] then [] else SegmentBytes(s[0]) + AllSegments(s[1..])
  }

  /** A frame header (section B.2.2 of ITU-T T.81): `components` are its 3 bytes per component. */
  datatype Frame = Frame(marker: Octet, precision: Octet, lines: nat, samples: nat, count: Octet, components: seq<Octet>)

  predicate FrameOk(f: Frame) {
    f.marker in FRAME_MARKERS && 0 < f.lines < 0x1_0000 && 0 < f.samples < 0x1_0000 && |f.components| == 3 * f.count
  }

  function FrameBytes(f: Frame): seq<Octet>
    requires FrameOk(f)
  {
    [0xFF, f.marker] + Word(8 + 3 * f.count) + [f.precision] + Word(f.lines) + Word(f.samples) + [f.count] + f.components
  }

  lemma {:induction false} WalkFrame(b: seq<Octet>, o: nat, f: Frame, rest: seq<Octet>)
    requires FrameOk(f) && o <= |b| && b[o..] == FrameBytes(f) + rest
    ensures Walk(b, o) == Some(Dimensions(f.samples, f.lines))
  {
    var t := FrameBytes(f) + rest;
    assert |t| >= 10;
    assert forall k :: 0 <= k < 10 ==> b[o + k] == b[o..][k];
    assert t[0] == 0xFF && t[1] == f.marker && t[2..4] == Word(8 + 3 * f.count) && t[5..7] == Word(f.lines) && t[7..9] == Word(f.samples);
    assert forall k :: 2 <= k < 4 ==> t[k] == t[2..4][k - 2];
    assert forall k :: 5 <= k < 7 ==> t[k] == t[5..7][k - 5];
    assert forall k :: 7 <= k < 9 ==> t[k] == t[7..9][k - 7];
  }

  /** The walk steps over one segment to the next. */
  lemma {:induction false} WalkSegment(b: seq<Octet>, o: nat, s: Segment, rest: seq<Octet>)
    requires SegmentOk(s) && o <= |b| && b[o..] == SegmentBytes(s) + rest && |rest| >= 4
    ensures Walk(b, o) == Walk(b, o + |SegmentBytes(s)|)
  {
    var t := SegmentBytes(s) + rest;
    assert forall k :: 0 <= k < 4 ==> b[o + k] == b[o..][k];
    match s {
      case Stray(x) => assert t[0] == x;
      case Bare(m) => assert t[0] == 0xFF && t[1] == m;
      case Filled(m, body) =>
        assert t[0] == 0xFF && t[1] == m && t[2..4] == Word(|body| + 2);
        assert t[2] == t[2..4][0] && t[3] == t[2..4][1];
    }
  }

  lemma {:induction false} FirstSegment(s: seq<Segment>, tail: seq<Octet>)
    requires s != [] && SegmentsOk(s)
    ensures SegmentOk(s[0]) && SegmentsOk(s[1..])
    ensures AllSegments(s) + tail == SegmentBytes(s[0]) + (AllSegments(s[1..]) + tail)
    ensures |AllSegments(s)| == |SegmentBytes(s[0])| + |AllSegments(s[1..])|
  {
  }

  lemma {:induction false} Suffix(b: seq<Octet>, o: nat, first: seq<Octet>, tail: seq<Octet>)
    requires o <= |b| && b[o..] == first + tail
    ensures o + |first| <= |b| && b[o + |first|..] == tail
  {
    assert b[o + |first|..] == b[o..][|first|..];
  }

  /** The walk steps over any list of segments. */
  lemma {:induction false} WalkSegments(b: seq<Octet>, o: nat, s: seq<Segment>, tail: seq<Octet>)
    requires SegmentsOk(s) && o <= |b| && b[o..] == AllSegments(s) + tail && |tail| >= 4
    ensures o + |AllSegments(s)| <= |b| && b[o + |AllSegments(s)|..] == tail
    ensures Walk(b, o) == Walk(b, o + |AllSegments(s)|)
    decreases |s|
  {
    hide Walk, SegmentBytes, SegmentOk;
    Suffix(b, o, AllSegments(s), tail);
    if s != [] {
      hide AllSegments, SegmentsOk;
      FirstSegment(s, tail);
      var first, more := SegmentBytes(s[0]), AllSegments(s[1..]) + tail;
      WalkSegment(b, o, s[0], more);
      Suffix(b, o, first, more);
      WalkSegments(b, o + |first|, s[1..], tail);
    }
  }

  /** A file of segments and whatever follows. */
  function Jpeg(segments: seq<Segment>, tail: seq<Octet>): seq<Octet>
    requires SegmentsOk(segments)
  {
    [0xFF, 0xD8] + (AllSegments(segments) + tail)
  }

  function WriteJpeg(segments: seq<Segment>, f: Frame, rest: seq<Octet>): seq<Octet>
    requires SegmentsOk(segments) && FrameOk(f)
  {
    Jpeg(segments, FrameBytes(f) + rest)
  }

  lemma {:induction false} JpegWalk(segments: seq<Segment>, tail: seq<Octet>) returns (o: nat)
    requires SegmentsOk(segments) && |tail| >= 4
    ensures var b := Jpeg(segments, tail); o <= |b| && b[o..] == tail && JpegDims(b) == Walk(b, o)
  {
    hide Walk, AllSegments, SegmentsOk;
    var b := Jpeg(segments, tail);
    assert b[2..] == AllSegments(segments) + tail;
    WalkSegments(b, 2, segments, tail);
    o := 2 + |AllSegments(segments)|;
  }

  lemma {:induction false} CutFrame(segments: seq<Segment>, f: Frame, n: nat)
    requires SegmentsOk(segments) && FrameOk(f) && 4 <= n < 10
    ensures n <= |FrameBytes(f)| && JpegDims(Jpeg(segments, FrameBytes(f)[..n])) == None
  {
    hide SegmentsOk, AllSegments, JpegDims, Jpeg;
    var head := FrameBytes(f)[..n];
    var o := JpegWalk(segments, head);
    var b := Jpeg(segments, head);
    assert forall k :: 0 <= k < 4 ==> b[o + k] == b[o..][k];
    assert head[0] == 0xFF && head[1] == f.marker && |b| == o + n;
    assert FrameBytes(f)[2..4] == Word(8 + 3 * f.count);
    assert head[2] == FrameBytes(f)[2..4][0] && head[3] == FrameBytes(f)[2..4][1];
  }

  /** Where the walk gives up: at the start of a scan, at a length below two, and where the file ends before
      the frame header's size field. */
  lemma {:induction false} WalkGivesUp(segments: seq<Segment>, tail: seq<Octet>, f: Frame, n: nat)
    requires SegmentsOk(segments) && |tail| >= 4 && FrameOk(f) && 4 <= n < 10
    ensures tail[0] == 0xFF && tail[1] == 0xDA ==> JpegDims(Jpeg(segments, tail)) == None
    ensures tail[0] == 0xFF && tail[1] != 0x01 && !(0xD0 <= tail[1] <= 0xD8) && tail[2] == 0 && tail[3] < 2 ==>
      JpegDims(Jpeg(segments, tail)) == None
    ensures n <= |FrameBytes(f)| && JpegDims(Jpeg(segments, FrameBytes(f)[..n])) == None
  {
    hide FrameOk, SegmentsOk, AllSegments, JpegDims, Jpeg;
    var o := JpegWalk(segments, tail);
    var b := Jpeg(segments, tail);
    assert forall k :: 0 <= k < 4 ==> b[o + k] == b[o..][k];
    CutFrame(segments, f, n);
  }

  /** Every JPEG written with any list of segments before its frame header is probed as exactly the
      frame's size. */
  lemma {:induction false} WrittenJpeg(segments: seq<Segment>, f: Frame, rest: seq<Octet>)
    requires SegmentsOk(segments) && FrameOk(f)
    ensures JpegDims(WriteJpeg(segments, f, rest)) == Some(Dimensions(f.samples, f.lines))
  {
    hide Walk, AllSegments, SegmentsOk, JpegDims;
    var o := JpegWalk(segments, FrameBytes(f) + rest);
    WalkFrame(WriteJpeg(segments, f, rest), o, f, rest);
  }

  // ------------------------------------------------------------ PNG

  /** `toString('ascii')` drops the top bit of every byte. */
  predicate TextAt(b: seq<Octet>, i: nat, text: string)
    requires i + |text| <= |b|
  {
    forall k :: 0 <= k < |text| ==> b[i + k] % 128 == text[k] as int
  }

  predicate StartsPng(b: seq<Octet>) {
    |b| >= 24 && U32BE(b, 0) == 0x89504e47 && U32BE(b, 4) == 0x0d0a1a0a
  }

  function PngDims(b: seq<Octet>): Option<Dimensions> {
    if !StartsPng(b) || !TextAt(b, 12, "IHDR") then None else Nonzero(U32BE(b, 16), U32BE(b, 20))
  }

  function Long(n: nat): (w: seq<Octet>)
    requires n < 0x1_0000_0000
    ensures |w| == 4 && U32BE(w, 0) == n
  {
    Word(n / 0x1_0000) + Word(n % 0x1_0000)
  }

  const PNG_HEAD: seq<Octet> := [0x89, 0x50, 0x4E, 0x47, 0x0D, 0x0A, 0x1A, 0x0A, 0, 0, 0, 13, 0x49, 0x48, 0x44, 0x52]

  /** Signature and IHDR (sections 3.1 and 4.1.1 of RFC 2083). */
  function WritePng(width: nat, height: nat, rest: seq<Octet>): seq<Octet>
    requires width < 0x1_0000_0000 && height < 0x1_0000_0000
  {
    PNG_HEAD + Long(width) + Long(height) + rest
  }

  lemma {:induction false} SameLong(b: seq<Octet>, i: nat, w: seq<Octet>)
    requires i + 4 <= |b| && |w| == 4 && b[i..i + 4] == w
    ensures U32BE(b, i) == U32BE(w, 0)
  {
    assert b[i..i + 4][0] == b[i] && b[i..i + 4][1] == b[i + 1] && b[i..i + 4][2] == b[i + 2] && b[i..i + 4][3] == b[i + 3];
  }

  lemma {:induction false} WrittenPng(width: nat, height: nat, rest: seq<Octet>)
    requires width < 0x1_0000_0000 && height < 0x1_0000_0000
    ensures PngDims(WritePng(width, height, rest)) ==
      if width > 0 && height > 0 then Some(Dimensions(width, height)) else None
  {
    var b := WritePng(width, height, rest);
    assert b[16..20] == Long(width) && b[20..24] == Long(height);
    SameLong(b, 16, Long(width));
    SameLong(b, 20, Long(height));
    assert b[0] == 0x89 && b[1] == 0x50 && b[2] == 0x4E && b[3] == 0x47;
    assert b[4] == 0x0D && b[5] == 0x0A && b[6] == 0x1A && b[7] == 0x0A;
    assert b[12] == 0x49 && b[13] == 0x48 && b[14] == 0x44 && b[15] == 0x52;
  }

  // ------------------------------------------------------------ WebP

  predicate StartsWebp(b: seq<Octet>) {
    |b| >= 30 && TextAt(b, 0, "RIFF") && TextAt(b, 8, "WEBP")
  }

  /** A 32-bit unsigned number as the signed operand of a bitwise operator. */
  function ToInt32(n: nat): int
    requires n < 0x1_0000_0000
  {
    if n < 0x8000_0000 then n else n - 0x1_0000_0000
  }

  /** `(bits >> 14) & 0x3fff`: an arithmetic shift, then the low 14 bits. */
  function Bits14To27(n: nat): nat
    requires n < 0x1_0000_0000
  {
    ToInt32(n) / 16384 % 16384
  }

  /** The sign the shift drags in is masked away again. */
  lemma {:induction false} SignIsMasked(n: nat)
    requires n < 0x1_0000_0000
    ensures Bits14To27(n) == n / 16384 % 16384
  {
    if n >= 0x8000_0000 {
      assert ToInt32(n) == n - 16384 * 262144;
      assert ToInt32(n) / 16384 == n / 16384 - 262144;
      assert 262144 == 16 * 16384;
    }
  }

  function WebpDims(b: seq<Octet>): Option<Dimensions> {
    if !StartsWebp(b) then None
    else if TextAt(b, 12, "VP8 ") then
      if b[23] != 0x9D || b[24] != 0x01 || b[25] != 0x2A then None
      else Some(Dimensions(U16LE(b, 26) % 16384, U16LE(b, 28) % 16384))
    else if TextAt(b, 12, "VP8L") then
      if b[20] != 0x2F then None
      else Some(Dimensions(U32LE(b, 21) % 16384 + 1, Bits14To27(U32LE(b, 21)) + 1))
    else if TextAt(b, 12, "VP8X") then Some(Dimensions(1 + U24LE(b, 24), 1 + U24LE(b, 27)))
    else None
  }

  function LittleWord(n: nat): (w: seq<Octet>)
    requires n < 0x1_0000
    ensures |w| == 2 && U16LE(w, 0) == n
  {
    [n % 256, n / 256]
  }

  function LittleLong(n: nat): (w: seq<Octet>)
    requires n < 0x1_0000_0000
    ensures |w| == 4 && U32LE(w, 0) == n
  {
    LittleWord(n % 0x1_0000) + LittleWord(n / 0x1_0000)
  }

  function LittleTriple(n: nat): (w: seq<Octet>)
    requires n < 0x100_0000
    ensures |w| == 3 && U24LE(w, 0) == n
  {
    [n % 256, n / 256 % 256, n / 0x1_0000]
  }

  const RIFF: seq<Octet> := [0x52, 0x49, 0x46, 0x46]
  const WEBP: seq<Octet> := [0x57, 0x45, 0x42, 0x50]

  /** The RIFF header and the first chunk's tag and size (sections 2.3 and 2.4 of RFC 9649). */
  function WebpHead(size: nat, kind: seq<Octet>, chunkSize: nat): (h: seq<Octet>)
    requires size < 0x1_0000_0000 && chunkSize < 0x1_0000_0000 && |kind| == 4
    ensures |h| == 20 && h[12..16] == kind
    ensures TextAt(h, 0, "RIFF") && TextAt(h, 8, "WEBP")
  {
    RIFF + LittleLong(size) + WEBP + kind + LittleLong(chunkSize)
  }

  lemma {:induction false} HeadOf(b: seq<Octet>, head: seq<Octet>, kind: seq<Octet>, text: string)
    requires |head| == 20 && |b| >= 30 && b[..20] == head && |kind| == 4 && head[12..16] == kind && |text| == 4
    requires TextAt(head, 0, "RIFF") && TextAt(head, 8, "WEBP")
    ensures StartsWebp(b)
    ensures TextAt(b, 12, text) <==> TextAt(kind, 0, text)
  {
    assert forall k :: 0 <= k < 20 ==> b[k] == b[..20][k];
    assert forall k :: 0 <= k < 4 ==> head[12 + k] == head[12..16][k];
  }

  /** Lossless: 14 bits of width - 1, 14 of height - 1, the alpha hint and three version bits
      (section 2.6 of RFC 9649). */
  function LosslessBits(width: nat, height: nat, top: nat): (n: nat)
    requires 1 <= width <= 16384 && 1 <= height <= 16384 && top < 16
    ensures n < 0x1_0000_0000
  {
    (width - 1) + (height - 1) * 16384 + top * 0x1000_0000
  }

  const VP8L: seq<Octet> := [0x56, 0x50, 0x38, 0x4C]

  function WriteLossless(size: nat, chunkSize: nat, width: nat, height: nat, top: nat, rest: seq<Octet>): seq<Octet>
    requires size < 0x1_0000_0000 && chunkSize < 0x1_0000_0000
    requires 1 <= width <= 16384 && 1 <= height <= 16384 && top < 16
  {
    WebpHead(size, VP8L, chunkSize) + [0x2F] + LittleLong(LosslessBits(width, height, top)) + rest
  }

  lemma {:induction false} SameLittleLong(b: seq<Octet>, i: nat, w: seq<Octet>)
    requires i + 4 <= |b| && |w| == 4 && b[i..i + 4] == w
    ensures U32LE(b, i) == U32LE(w, 0)
  {
    assert b[i..i + 4][0] == b[i] && b[i..i + 4][1] == b[i + 1] && b[i..i + 4][2] == b[i + 2] && b[i..i + 4][3] == b[i + 3];
  }

  lemma {:induction false} LosslessFields(width: nat, height: nat, top: nat)
    requires 1 <= width <= 16384 && 1 <= height <= 16384 && top < 16
    ensures LosslessBits(width, height, top) % 16384 + 1 == width
    ensures Bits14To27(LosslessBits(width, height, top)) + 1 == height
  {
    var n := LosslessBits(width, height, top);
    SignIsMasked(n);
    assert n == (width - 1) + 16384 * ((height - 1) + 16384 * top);
    assert n / 16384 == (height - 1) + 16384 * top;
  }

  lemma {:induction false} LosslessKind()
    ensures TextAt(VP8L, 0, "VP8L") && !TextAt(VP8L, 0, "VP8 ")
  {
    assert VP8L[3] % 128 != "VP8 "[3] as int;
  }

  /** Lossless dimensions are recovered, whatever the alpha and version bits, once 30 bytes are there. */
  lemma {:induction false} WrittenLossless(size: nat, chunkSize: nat, width: nat, height: nat, top: nat, rest: seq<Octet>)
    requires size < 0x1_0000_0000 && chunkSize < 0x1_0000_0000
    requires 1 <= width <= 16384 && 1 <= height <= 16384 && top < 16
    ensures WebpDims(WriteLossless(size, chunkSize, width, height, top, rest)) ==
      if |rest| >= 5 then Some(Dimensions(width, height)) else None
  {
    hide LosslessBits, Bits14To27, LittleLong, U32LE, WebpHead, TextAt;
    LosslessKind();
    var b, head := WriteLossless(size, chunkSize, width, height, top, rest), WebpHead(size, VP8L, chunkSize);
    if |rest| >= 5 {
      assert b[..20] == head && b[20] == 0x2F;
      assert b[21..25] == LittleLong(LosslessBits(width, height, top));
      HeadOf(b, head, VP8L, "VP8 ");
      HeadOf(b, head, VP8L, "VP8L");
      SameLittleLong(b, 21, LittleLong(LosslessBits(width, height, top)));
      LosslessFields(width, height, top);
    }
  }

  const VP8X: seq<Octet> := [0x56, 0x50, 0x38, 0x58]

  /** Extended: flags, three reserved bytes, then both sides minus one in 24 bits (section 2.7 of RFC 9649). */
  function WriteExtended(size: nat, chunkSize: nat, flags: seq<Octet>, width: nat, height: nat, rest: seq<Octet>): seq<Octet>
    requires size < 0x1_0000_0000 && chunkSize < 0x1_0000_0000 && |flags| == 4
    requires 1 <= width <= 0x100_0000 && 1 <= height <= 0x100_0000
  {
    WebpHead(size, VP8X, chunkSize) + flags + LittleTriple(width - 1) + LittleTriple(height - 1) + rest
  }

  lemma {:induction false} SameTriple(b: seq<Octet>, i: nat, w: seq<Octet>)
    requires i + 3 <= |b| && |w| == 3 && b[i..i + 3] == w
    ensures U24LE(b, i) == U24LE(w, 0)
  {
    assert b[i..i + 3][0] == b[i] && b[i..i + 3][1] == b[i + 1] && b[i..i + 3][2] == b[i + 2];
  }

  lemma {:induction false} Kinds()
    ensures TextAt(VP8X, 0, "VP8X") && !TextAt(VP8X, 0, "VP8 ") && !TextAt(VP8X, 0, "VP8L")
  {
    assert VP8X[3] % 128 != "VP8 "[3] as int && VP8X[3] % 128 != "VP8L"[3] as int;
  }

  lemma {:induction false} WrittenExtended(size: nat, chunkSize: nat, flags: seq<Octet>, width: nat, height: nat, rest: seq<Octet>)
    requires size < 0x1_0000_0000 && chunkSize < 0x1_0000_0000 && |flags| == 4
    requires 1 <= width <= 0x100_0000 && 1 <= height <= 0x100_0000
    ensures WebpDims(WriteExtended(size, chunkSize, flags, width, height, rest)) == Some(Dimensions(width, height))
  {
    hide LittleTriple, U24LE, WebpHead, TextAt;
    Kinds();
    var b, head := WriteExtended(size, chunkSize, flags, width, height, rest), WebpHead(size, VP8X, chunkSize);
    assert b[..20] == head;
    assert b[24..27] == LittleTriple(width - 1) && b[27..30] == LittleTriple(height - 1);
    HeadOf(b, head, VP8X, "VP8 ");
    HeadOf(b, head, VP8X, "VP8L");
    HeadOf(b, head, VP8X, "VP8X");
    SameTriple(b, 24, LittleTriple(width - 1));
    SameTriple(b, 27, LittleTriple(height - 1));
  }

  const VP8: seq<Octet> := [0x56, 0x50, 0x38, 0x20]

  /** Lossy: a 3-byte frame tag, the start code, then both sides in 14 bits under a 2-bit scale. */
  function WriteLossy(size: nat, chunkSize: nat, tag: seq<Octet>, width: nat, height: nat, sx: nat, sy: nat, rest: seq<Octet>): seq<Octet>
    requires size < 0x1_0000_0000 && chunkSize < 0x1_0000_0000 && |tag| == 3
    requires width < 16384 && height < 16384 && sx < 4 && sy < 4
  {
    WebpHead(size, VP8, chunkSize) + tag + [0x9D, 0x01, 0x2A]
    + LittleWord(width + sx * 16384) + LittleWord(height + sy * 16384) + rest
  }

  lemma {:induction false} SameWord(b: seq<Octet>, i: nat, w: seq<Octet>)
    requires i + 2 <= |b| && |w| == 2 && b[i..i + 2] == w
    ensures U16LE(b, i) == U16LE(w, 0)
  {
    assert b[i..i + 2][0] == b[i] && b[i..i + 2][1] == b[i + 1];
  }

  /** Lossy dimensions are recovered under any scale. Unlike the other formats, a zero side is not
      refused: it comes back as zero. */
  lemma {:induction false} WrittenLossy(size: nat, chunkSize: nat, tag: seq<Octet>, width: nat, height: nat, sx: nat, sy: nat, rest: seq<Octet>)
    requires size < 0x1_0000_0000 && chunkSize < 0x1_0000_0000 && |tag| == 3
    requires width < 16384 && height < 16384 && sx < 4 && sy < 4
    ensures WebpDims(WriteLossy(size, chunkSize, tag, width, height, sx, sy, rest)) == Some(Dimensions(width, height))
  {
    hide LittleWord, U16LE, WebpHead;
    var b, head := WriteLossy(size, chunkSize, tag, width, height, sx, sy, rest), WebpHead(size, VP8, chunkSize);
    assert b[..20] == head;
    assert b[23] == 0x9D && b[24] == 0x01 && b[25] == 0x2A;
    assert b[26..28] == LittleWord(width + sx * 16384) && b[28..30] == LittleWord(height + sy * 16384);
    HeadOf(b, head, VP8, "VP8 ");
    assert TextAt(VP8, 0, "VP8 ");
    SameWord(b, 26, LittleWord(width + sx * 16384));
    SameWord(b, 28, LittleWord(height + sy * 16384));
  }

  // ------------------------------------------------------------ tags

  /** Only the low seven bits of a tag's bytes are looked at, and all of them are. */
  predicate SameTag(b: seq<Octet>, b': seq<Octet>, i: nat) {
    i + 4 <= |b| && i + 4 <= |b'| && forall k :: i <= k < i + 4 ==> b[k] % 128 == b'[k] % 128
  }

  lemma {:induction false} TagText(b: seq<Octet>, b': seq<Octet>, i: nat, text: string)
    requires SameTag(b, b', i) && |text| == 4
    ensures TextAt(b, i, text) <==> TextAt(b', i, text)
  {
    assert b[i] % 128 == b'[i] % 128 && b[i + 1] % 128 == b'[i + 1] % 128;
    assert b[i + 2] % 128 == b'[i + 2] % 128 && b[i + 3] % 128 == b'[i + 3] % 128;
  }

  lemma {:induction false} SameNumbers(b: seq<Octet>, b': seq<Octet>)
    requires |b| == |b'| && |b| >= 30 && forall k :: 16 <= k < 30 ==> b'[k] == b[k]
    ensures U16LE(b', 26) == U16LE(b, 26) && U16LE(b', 28) == U16LE(b, 28) && U32LE(b', 21) == U32LE(b, 21)
    ensures U24LE(b', 24) == U24LE(b, 24) && U24LE(b', 27) == U24LE(b, 27)
    ensures b'[20] == b[20] && b'[23] == b[23] && b'[24] == b[24] && b'[25] == b[25]
  {
  }

  /** So setting the top bit of any byte of a tag changes no answer. */
  lemma {:induction false} TopBitsAreDropped(b: seq<Octet>, b': seq<Octet>)
    requires |b| == |b'| && |b| >= 30 && SameTag(b, b', 0) && SameTag(b, b', 8) && SameTag(b, b', 12)
    requires forall k :: 0 <= k < |b| && !(0 <= k < 4) && !(8 <= k < 16) ==> b'[k] == b[k]
    ensures WebpDims(b') == WebpDims(b)
  {
    hide TextAt, U16LE, U24LE, Bits14To27, SameTag, U32LE;
    TagText(b, b', 0, "RIFF");
    TagText(b, b', 8, "WEBP");
    TagText(b, b', 12, "VP8 ");
    TagText(b, b', 12, "VP8L");
    TagText(b, b', 12, "VP8X");
    if |b| >= 30 { SameNumbers(b, b'); }
  }

  lemma {:induction false} HeadBytes(p: Octet, q: Octet, r: Octet, s: Octet)
    ensures var n := (p * 256 + q) * 0x1_0000 + (r * 256 + s);
      && (n == 0x89504e47 <==> p == 0x89 && q == 0x50 && r == 0x4E && s == 0x47)
      && (n == 0x0d0a1a0a <==> p == 0x0D && q == 0x0A && r == 0x1A && s == 0x0A)
      && (n == 0 <==> p == 0 && q == 0 && r == 0 && s == 0)
  {
  }

  lemma {:induction false} TagBytes(b: seq<Octet>, i: nat, text: string)
    requires i + 4 <= |b| && |text| == 4
    ensures TextAt(b, i, text) <==>
      b[i] % 128 == text[0] as int && b[i + 1] % 128 == text[1] as int && b[i + 2] % 128 == text[2] as int && b[i + 3] % 128 == text[3] as int
  {
  }

  /** Byte by byte, which PNG and WebP headers are answered. */
  lemma {:induction false} PngExactly(b: seq<Octet>)
    ensures PngDims(b).Some? <==>
      (|b| >= 24 && b[0] == 0x89 && b[1] == 0x50 && b[2] == 0x4E && b[3] == 0x47 && b[4] == 0x0D && b[5] == 0x0A && b[6] == 0x1A && b[7] == 0x0A
       && b[12] % 128 == 0x49 && b[13] % 128 == 0x48 && b[14] % 128 == 0x44 && b[15] % 128 == 0x52
       && !(b[16] == 0 && b[17] == 0 && b[18] == 0 && b[19] == 0) && !(b[20] == 0 && b[21] == 0 && b[22] == 0 && b[23] == 0))
  {
    if |b| >= 24 {
      HeadBytes(b[0], b[1], b[2], b[3]);
      HeadBytes(b[4], b[5], b[6], b[7]);
      HeadBytes(b[16], b[17], b[18], b[19]);
      HeadBytes(b[20], b[21], b[22], b[23]);
      TagBytes(b, 12, "IHDR");
    }
  }

  predicate Tagged(b: seq<Octet>, i: nat, p: int, q: int, r: int, s: int)
    requires i + 4 <= |b|
  {
    b[i] % 128 == p && b[i + 1] % 128 == q && b[i + 2] % 128 == r && b[i + 3] % 128 == s
  }

  lemma {:induction false} WebpExactly(b: seq<Octet>)
    ensures WebpDims(b).Some? <==>
      (|b| >= 30 && Tagged(b, 0, 0x52, 0x49, 0x46, 0x46) && Tagged(b, 8, 0x57, 0x45, 0x42, 0x50)
       && ((Tagged(b, 12, 0x56, 0x50, 0x38, 0x20) && b[23] == 0x9D && b[24] == 0x01 && b[25] == 0x2A)
           || (Tagged(b, 12, 0x56, 0x50, 0x38, 0x4C) && b[20] == 0x2F)
           || Tagged(b, 12, 0x56, 0x50, 0x38, 0x58)))
  {
    hide U16LE, U24LE, U32LE, Bits14To27, TextAt;
    if |b| >= 30 {
      TagBytes(b, 0, "RIFF");
      TagBytes(b, 8, "WEBP");
      TagBytes(b, 12, "VP8 ");
      TagBytes(b, 12, "VP8L");
      TagBytes(b, 12, "VP8X");
    }
  }

  // ------------------------------------------------------------ the fallback chain

  /** What the formats say between them; at most one of them answers. */
  function Probed(b: seq<Octet>): Option<Dimensions> {
    if JpegDims(b).Some? then JpegDims(b) else if PngDims(b).Some? then PngDims(b) else WebpDims(b)
  }

  method ProbeDimensions(b: seq<Octet>) returns (d: Option<Dimensions>)
    ensures d == Probed(b)
    ensures d.Some? <==> JpegDims(b).Some? || PngDims(b).Some? || WebpDims(b).Some?
    ensures d.Some? ==> d in {JpegDims(b), PngDims(b), WebpDims(b)}
  {
    d := ProbeJpeg(b);
    if d.None? { d := PngDims(b); }
    if d.None? { d := WebpDims(b); }
  }

  lemma {:induction false} FirstByte(p: Octet, q: Octet, r: Octet, s: Octet)
    requires (p * 256 + q) * 0x1_0000 + (r * 256 + s) == 0x89504e47
    ensures p == 0x89
  {
  }

  /** The signatures exclude one another, so trying the formats in another order cannot change the answer. */
  lemma {:induction false} OneFormatOnly(b: seq<Octet>)
    ensures JpegDims(b).Some? ==> PngDims(b).None? && WebpDims(b).None?
    ensures PngDims(b).Some? ==> JpegDims(b).None? && WebpDims(b).None?
    ensures WebpDims(b).Some? ==> JpegDims(b).None? && PngDims(b).None?
  {
    if StartsPng(b) {
      assert b[0] == 0x89 by { FirstByte(b[0], b[1], b[2], b[3]); }
    }
    if StartsWebp(b) { assert b[0] % 128 == "RIFF"[0] as int == 0x52; }
  }

  /** A lossy WebP file whose start code is in place and whose width or height field is zero. */
  predicate LossyZero(b: seq<Octet>) {
    && StartsWebp(b) && TextAt(b, 12, "VP8 ") && b[23] == 0x9D && b[24] == 0x01 && b[25] == 0x2A
    && (U16LE(b, 26) % 16384 == 0 || U16LE(b, 28) % 16384 == 0)
  }

  /** Whatever the bytes, an answer has two positive sides unless it comes from such a file. */
  lemma {:induction false} UsableUnlessLossyZero(b: seq<Octet>)
    requires Probed(b).Some?
    ensures Probed(b).value.width > 0 && Probed(b).value.height > 0 <==> !LossyZero(b)
  {
    hide U16LE, U24LE, U32LE, U32BE, Bits14To27, Walk;
    OneFormatOnly(b);
    if JpegDims(b).Some? { AnswerIsAFrame(b, 2); }
  }

  /** Such a file, at width zero: it is answered, by the one format that does not refuse a zero side. */
  lemma {:induction false} ZeroWidth(size: nat, chunkSize: nat, tag: seq<Octet>, height: nat, sx: nat, sy: nat, rest: seq<Octet>)
    requires size < 0x1_0000_0000 && chunkSize < 0x1_0000_0000 && |tag| == 3 && height < 16384 && sx < 4 && sy < 4
    ensures var b := WriteLossy(size, chunkSize, tag, 0, height, sx, sy, rest);
      Probed(b) == Some(Dimensions(0, height)) && LossyZero(b)
  {
    hide WriteLossy, WebpDims, JpegDims, PngDims, LossyZero;
    var b := WriteLossy(size, chunkSize, tag, 0, height, sx, sy, rest);
    WrittenLossy(size, chunkSize, tag, 0, height, sx, sy, rest);
    OneFormatOnly(b);
    UsableUnlessLossyZero(b);
  }
}
