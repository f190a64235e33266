/** Where Zstandard frames begin and end: the walkers that go by headers alone,
    and the layout of section 3.1 of RFC 8878 they are read against. */
module ZstdFrames {

  type Byte = n: nat | n < 256

  type Bytes = seq<Byte>

  /** A little-endian number. */
  function Number(b: Bytes): (n: nat) {
    if b == [] then 0 else b[0] + 256 * Number(b[1..])
  }

  // The layout.

  const FRAME_MAGIC := 0xfd2fb528
  const SKIPPABLE := 0x184d2a5

  datatype BlockKind = Raw | RunLength | Compressed | Reserved

  function KindOf(header: nat): BlockKind {
    match header / 2 % 4
    case 0 => Raw
    case 1 => RunLength
    case 2 => Compressed
    case _ => Reserved
  }

  /** What a block header says follows it. */
  function ContentSize(header: nat): nat { if KindOf(header).RunLength? then 1 else header / 8 }

  predicate IsLast(header: nat) { header % 2 == 1 }

  datatype Block = Block(header: Bytes, content: Bytes) {
    predicate Valid() {
      |header| == 3 && !KindOf(Number(header)).Reserved? && |content| == ContentSize(Number(header))
    }
    predicate Last() { IsLast(Number(header)) }
    function Encode(): Bytes { header + content }
  }

  function SingleSegment(descriptor: Byte): bool { descriptor / 32 % 2 == 1 }

  function HasChecksum(descriptor: Byte): bool { descriptor / 4 % 2 == 1 }

  function DictionarySize(descriptor: Byte): nat { [0, 1, 2, 4][descriptor % 4] }

  /** The content size field: a single segment always has one. */
  function SizeSize(descriptor: Byte): nat {
    if descriptor / 64 == 0 then if SingleSegment(descriptor) then 1 else 0 else [0, 2, 4, 8][descriptor / 64]
  }

  function WindowSize(descriptor: Byte): nat { if SingleSegment(descriptor) then 0 else 1 }

  datatype Frame =
    | Skippable(magic: Bytes, size: Bytes, data: Bytes)
    | Zstandard(magic: Bytes, descriptor: Byte, window: Bytes, dictionary: Bytes, content: Bytes, blocks: seq<Block>,
                checksum: Bytes)
  {
    predicate Valid() {
      match this
      case Skippable(magic, size, data) =>
        |magic| == 4 && Number(magic) / 16 == SKIPPABLE && |size| == 4 && |data| == Number(size)
      case Zstandard(magic, descriptor, window, dictionary, content, blocks, checksum) =>
        && |magic| == 4 && Number(magic) == FRAME_MAGIC
        && |window| == WindowSize(descriptor) && |dictionary| == DictionarySize(descriptor)
        && |content| == SizeSize(descriptor) && |checksum| == (if HasChecksum(descriptor) then 4 else 0)
        && BlocksValid(blocks)
    }

    function Header(): Bytes
      requires Zstandard?
    {
      magic + [descriptor] + window + dictionary + content
    }

    function Encode(): Bytes {
      if Skippable? then magic + size + data else Header() + EncodeBlocks(blocks) + checksum
    }

    /** The window a frame declares, a single segment's being what its content needs. */
    function Window(): nat
      requires Valid() && Zstandard?
    {
      if SingleSegment(descriptor) then SegmentWindow(content) else DescribedWindow(window[0])
    }
  }

  const SMALLEST_WINDOW := 1024

  function Power(n: nat): nat { if n == 0 then 1 else 2 * Power(n - 1) }

  function DescribedWindow(d: Byte): nat {
    var base := Power(10 + d / 8);
    base + base / 8 * (d % 8)
  }

  function SegmentWindow(content: Bytes): nat {
    var size := Number(content) + if |content| == 2 then 256 else 0;
    if size > SMALLEST_WINDOW then size else SMALLEST_WINDOW
  }

  /** One last block, at the end. */
  predicate BlocksValid(blocks: seq<Block>) {
    && blocks != [] && blocks[0].Valid()
    && (if blocks[0].Last() then |blocks| == 1 else BlocksValid(blocks[1..]))
  }

  function EncodeBlocks(blocks: seq<Block>): Bytes {
    if blocks == [] then [] else blocks[0].Encode() + EncodeBlocks(blocks[1..])
  }

  function EncodeFrames(frames: seq<Frame>): Bytes {
    if frames == [] then [] else frames[0].Encode() + EncodeFrames(frames[1..])
  }

  predicate FramesValid(frames: seq<Frame>) { forall i :: 0 <= i < |frames| ==> frames[i].Valid() }

  // The walkers, as functions of the bytes.

  /** Where a frame's blocks end, from a position, or zero. */
  function BlocksEnd(b: Bytes, pos: nat): (end: nat)
    ensures end == 0 || pos < end <= |b|
    decreases |b| - pos
  {
    if |b| < pos + 3 then 0
    else
      var header := Number(b[pos..pos + 3]);
      var next := pos + 3 + ContentSize(header);
      if KindOf(header).Reserved? || |b| < next then 0
      else if IsLast(header) then next
      else BlocksEnd(b, next)
  }

  function FrameEnd(b: Bytes, pos: nat, checksum: bool): (end: nat)
    ensures end == 0 || pos < end <= |b|
  {
    var end := BlocksEnd(b, pos);
    if end == 0 then 0 else if checksum then if end + 4 <= |b| then end + 4 else 0 else end
  }

  function HeaderSize(descriptor: Byte): nat {
    5 + WindowSize(descriptor) + DictionarySize(descriptor) + SizeSize(descriptor)
  }

  /** The length of the frame the bytes start with, or zero. */
  function FrameLength(b: Bytes): (n: nat)
    ensures n <= |b|
  {
    if |b| < 4 then 0
    else
      var magic := Number(b[..4]);
      if magic / 16 == SKIPPABLE then
        if |b| < 8 || Number(b[4..8]) > |b| - 8 then 0 else 8 + Number(b[4..8])
      else if magic != FRAME_MAGIC || |b| < 5 || |b| < HeaderSize(b[4]) then 0
      else FrameEnd(b, HeaderSize(b[4]), HasChecksum(b[4]))
  }

  /** Where the last of the complete frames the bytes start with ends. */
  function FramesEnd(b: Bytes): (end: nat)
    ensures end <= |b|
    decreases |b|
  {
    var n := FrameLength(b);
    if n == 0 then 0 else n + FramesEnd(b[n..])
  }

  // The walkers, as they run.

  method WalkBlocks(b: Bytes, start: nat, checksum: bool) returns (end: nat, read: nat)
    requires start <= |b|
    ensures end == FrameEnd(b, start, checksum)
  {
    var pos := start;
    read := 0;
    while true
      invariant start <= pos <= |b| && BlocksEnd(b, start) == BlocksEnd(b, pos)
      decreases |b| - pos
    {
      if |b| - pos < 3 {
        return 0, read + |b| - pos;
      }
      var header := b[pos] as int + 256 * (b[pos + 1] as int) + 65536 * (b[pos + 2] as int);
      assert header == Number(b[pos..pos + 3]) by { Three(b[pos..pos + 3]); }
      read := read + 3;
      var size := header / 8;
      match KindOf(header) {
        case Reserved => return 0, read;
        case RunLength => size := 1;
        case _ =>
      }
      if |b| - pos - 3 < size {
        return 0, read;
      }
      pos := pos + 3 + size;
      if IsLast(header) {
        break;
      }
    }
    if checksum {
      pos := pos + 4;
    }
    if pos > |b| {
      return 0, read;
    }
    return pos, read;
  }

  lemma Three(b: Bytes)
    requires |b| == 3
    ensures Number(b) == b[0] as int + 256 * (b[1] as int) + 65536 * (b[2] as int)
  {
    assert b[1..][1..] == [b[2]] && b[1..][0] == b[1];
    assert Number([b[2]]) == b[2];
  }

  method WalkFrame(b: Bytes) returns (n: nat)
    ensures n == FrameLength(b)
  {
    if |b| < 4 {
      return 0;
    }
    var magic := Number(b[..4]);
    if magic / 16 == SKIPPABLE {
      if |b| < 8 {
        return 0;
      }
      var size := Number(b[4..8]);
      if size > |b| - 8 {
        return 0;
      }
      return 8 + size;
    }
    if magic != FRAME_MAGIC || |b| < 5 {
      return 0;
    }
    var descriptor := b[4];
    var header := 5 + [0, 1, 2, 4][descriptor % 4] + [0, 2, 4, 8][descriptor / 64];
    if descriptor / 32 % 2 == 0 || descriptor / 64 == 0 {
      header := header + 1;
    }
    if |b| < header {
      return 0;
    }
    var read;
    n, read := WalkBlocks(b, header, descriptor / 4 % 2 == 1);
  }

  method WalkFrames(b: Bytes) returns (end: nat)
    ensures end == FramesEnd(b)
  {
    end := 0;
    while true
      invariant end <= |b| && FramesEnd(b) == end + FramesEnd(b[end..])
      decreases |b| - end
    {
      var n := WalkFrame(b[end..]);
      if n == 0 {
        return;
      }
      assert b[end..][n..] == b[end + n..];
      end := end + n;
    }
  }

  /** The window a header declares, or nothing where the bytes do not hold it. */
  function DeclaredWindow(b: Bytes): (w: (nat, bool)) {
    if |b| < 5 || Number(b[..4]) != FRAME_MAGIC then (0, false)
    else if !SingleSegment(b[4]) then
      if |b| < 6 then (0, false) else (DescribedWindow(b[5]), true)
    else
      var pos := 5 + DictionarySize(b[4]);
      if |b| - pos < SizeSize(b[4]) then (0, false) else (SegmentWindow(b[pos..pos + SizeSize(b[4])]), true)
  }

  method ReadWindow(b: Bytes) returns (window: nat, ok: bool)
    ensures (window, ok) == DeclaredWindow(b)
  {
    if |b| < 5 || Number(b[..4]) != FRAME_MAGIC {
      return 0, false;
    }
    var descriptor := b[4];
    if descriptor / 32 % 2 == 0 {
      if |b| < 6 {
        return 0, false;
      }
      var base := Power(10 + b[5] / 8);
      return base + base / 8 * (b[5] % 8), true;
    }
    var pos := 5 + [0, 1, 2, 4][descriptor % 4];
    var size := [1, 2, 4, 8][descriptor / 64];
    if |b| - pos < size {
      return 0, false;
    }
    var field := b[pos..pos + size];
    var content, i := 0, size;
    while i > 0
      invariant 0 <= i <= size && content == Number(field[i..])
    {
      i := i - 1;
      assert field[i..][1..] == field[i + 1..] && field[i] == b[pos + i];
      content := content * 256 + b[pos + i] as int;
    }
    assert field[0..] == field;
    if size == 2 {
      content := content + 256;
    }
    window := if content > SMALLEST_WINDOW then content else SMALLEST_WINDOW;
    ok := true;
  }

  // The walkers find exactly the frames the layout describes.

  /** Blocks laid out at a position are found, and end where they end. */
  lemma {:induction false} BlocksFound(b: Bytes, pos: nat, blocks: seq<Block>)
    requires BlocksValid(blocks) && pos <= |b| && EncodeBlocks(blocks) <= b[pos..]
    ensures BlocksEnd(b, pos) == pos + |EncodeBlocks(blocks)|
    decreases |blocks|
  {
    hide Number, KindOf;
    var one, code := blocks[0], EncodeBlocks(blocks);
    var next := pos + |one.Encode()|;
    assert code == one.header + one.content + EncodeBlocks(blocks[1..]);
    assert b[pos..pos + 3] == one.header by {
      assert b[pos..][..3] == code[..3] == one.header;
    }
    if one.Last() {
      assert blocks[1..] == [];
    } else {
      assert EncodeBlocks(blocks[1..]) <= b[next..] by {
        assert b[pos..][..|code|] == code;
        assert b[next..][..|code| - |one.Encode()|] == code[|one.Encode()|..];
      }
      BlocksFound(b, next, blocks[1..]);
    }
  }

  /** And blocks that are found are laid out so. */
  lemma {:induction false} BlocksLaidOut(b: Bytes, pos: nat) returns (blocks: seq<Block>)
    requires BlocksEnd(b, pos) != 0 && pos <= |b|
    ensures BlocksValid(blocks) && EncodeBlocks(blocks) == b[pos..BlocksEnd(b, pos)]
    decreases |b| - pos
  {
    var header := Number(b[pos..pos + 3]);
    var next := pos + 3 + ContentSize(header);
    var one := Block(b[pos..pos + 3], b[pos + 3..next]);
    if IsLast(header) {
      blocks := [one];
      assert EncodeBlocks([]) == [];
    } else {
      var rest := BlocksLaidOut(b, next);
      blocks := [one] + rest;
      assert blocks[1..] == rest;
    }
  }

  /** Where a frame's header puts its fields. */
  lemma HeaderFields(f: Frame, rest: Bytes)
    requires f.Valid() && f.Zstandard?
    ensures var b := f.Header() + rest;
            && |f.Header()| == HeaderSize(f.descriptor) && b[..4] == f.magic && b[4] == f.descriptor
            && b[5..5 + |f.window|] == f.window
            && b[5 + |f.window| + |f.dictionary|..HeaderSize(f.descriptor)] == f.content
  {
  }

  /** Every frame of the layout is found where it lies, whatever follows it. */
  lemma FrameFound(f: Frame, rest: Bytes)
    requires f.Valid()
    ensures FrameLength(f.Encode() + rest) == |f.Encode()| > 0
  {
    hide Number, BlocksEnd, EncodeBlocks, BlocksValid;
    var b := f.Encode() + rest;
    if f.Skippable? {
      assert b[..4] == f.magic && b[4..8] == f.size;
    } else {
      var tail := EncodeBlocks(f.blocks) + f.checksum + rest;
      assert b == f.Header() + tail;
      HeaderFields(f, tail);
      var start := HeaderSize(f.descriptor);
      assert b[start..] == tail;
      assert EncodeBlocks(f.blocks) <= tail;
      BlocksFound(b, start, f.blocks);
      assert FRAME_MAGIC / 16 != SKIPPABLE;
    }
  }

  /** And its declared window is the one its header states. */
  lemma WindowFound(f: Frame, rest: Bytes)
    requires f.Valid() && f.Zstandard?
    ensures DeclaredWindow(f.Encode() + rest) == (f.Window(), true)
  {
    hide Number, EncodeBlocks, BlocksValid, DescribedWindow, SegmentWindow;
    var tail := EncodeBlocks(f.blocks) + f.checksum + rest;
    assert f.Encode() + rest == f.Header() + tail;
    HeaderFields(f, tail);
  }

  /** What is found is a frame of the layout. */
  lemma FrameLaidOut(b: Bytes) returns (f: Frame)
    requires FrameLength(b) != 0
    ensures f.Valid() && f.Encode() == b[..FrameLength(b)]
  {
    var n := FrameLength(b);
    if Number(b[..4]) / 16 == SKIPPABLE {
      f := Skippable(b[..4], b[4..8], b[8..n]);
      assert f.Encode() == b[..n];
    } else {
      f := HeaderLaidOut(b);
    }
  }

  lemma HeaderLaidOut(b: Bytes) returns (f: Frame)
    requires FrameLength(b) != 0 && Number(b[..4]) / 16 != SKIPPABLE
    ensures f.Valid() && f.Zstandard? && f.Encode() == b[..FrameLength(b)]
  {
    hide Number, EncodeBlocks, BlocksEnd, BlocksValid;
    var n, d := FrameLength(b), b[4];
    var w := 5 + WindowSize(d);
    var c := w + DictionarySize(d);
    var start := HeaderSize(d);
    var blocks := BlocksLaidOut(b, start);
    var end := BlocksEnd(b, start);
    f := Zstandard(b[..4], d, b[5..w], b[w..c], b[c..start], blocks, b[end..n]);
    assert f.Header() == b[..start] by {
      assert b[..4] + [d] == b[..5];
      assert b[..5] + b[5..w] == b[..w] && b[..w] + b[w..c] == b[..c] && b[..c] + b[c..start] == b[..start];
    }
    assert b[..start] + b[start..end] == b[..end] && b[..end] + b[end..n] == b[..n];
  }

  /** A frame is found by the bytes it takes and no others. */
  lemma FrameAlone(b: Bytes, m: nat)
    requires FrameLength(b) != 0 && FrameLength(b) <= m <= |b|
    ensures FrameLength(b[..m]) == FrameLength(b)
  {
    var n := FrameLength(b);
    var f := FrameLaidOut(b);
    assert b[..m] == f.Encode() + b[n..m];
    FrameFound(f, b[n..m]);
  }

  /** The frames of a list are found one after another: the walk ends where they
      do, and further only by frames that follow. */
  lemma {:induction false} FramesFound(frames: seq<Frame>, rest: Bytes)
    requires FramesValid(frames)
    ensures FramesEnd(EncodeFrames(frames) + rest) == |EncodeFrames(frames)| + FramesEnd(rest)
  {
    hide FrameLength, Frame.Encode, Frame.Valid;
    if frames == [] {
      assert EncodeFrames(frames) + rest == rest;
    } else {
      var one, others := frames[0], frames[1..];
      var b := EncodeFrames(frames) + rest;
      assert b == one.Encode() + (EncodeFrames(others) + rest);
      FrameFound(one, EncodeFrames(others) + rest);
      assert b[|one.Encode()|..] == EncodeFrames(others) + rest;
      FramesFound(others, rest);
    }
  }

  /** Every byte string is the frames found in it, and then nothing that starts with
      a frame. */
  lemma {:induction false} FramesLaidOut(b: Bytes) returns (frames: seq<Frame>)
    ensures FramesValid(frames) && EncodeFrames(frames) == b[..FramesEnd(b)] && FrameLength(b[FramesEnd(b)..]) == 0
    decreases |b|
  {
    hide FrameLength, Frame.Encode, Frame.Valid;
    var n := FrameLength(b);
    if n == 0 {
      frames := [];
      assert b[0..] == b;
    } else {
      var one := FrameLaidOut(b);
      var others := FramesLaidOut(b[n..]);
      frames := [one] + others;
      var end := FramesEnd(b);
      assert frames[1..] == others && b[..n] + b[n..][..end - n] == b[..end] && b[n..][end - n..] == b[end..];
    }
  }
}