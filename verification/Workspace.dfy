/** What a stage reserves before its decoder exists, and the ceiling it is said to
    stay under. */
module Workspace {
  import opened ZstdFrames
  import opened ZstdPlan

  const MAX_BOUND := 0x100_0000_0000

  /** A bound as Decode reads it. */
  function Clamp(bound: int): nat { if bound < 0 then 0 else if bound > MAX_BOUND then MAX_BOUND else bound }

  /** The largest window a Zstandard stage admits. */
  function ZstdWindow(bound: int): nat { Max(Clamp(bound), SMALLEST_WINDOW) }

  datatype Coding = Gzip | Deflate | Brotli | Zstd

  const STAGE_OVERHEAD := 1024
  const ZSTD_FIXED := 32768

  function ZstdBlockBuffers(): nat { 3 * Allocated(131072 + 17) + Allocated((0x7f00 + 0xffff) * 24) }

  // Brotli.

  const BROTLI_SMALLEST_WINDOW := 1008
  const RING_SLACK := 42

  /** WBITS, section 9.1 of RFC 7932, and whether the byte carries the large-window
      marker that document does not define. */
  function WindowBits(first: Byte): (nat, bool) {
    if first % 2 == 0 then (16, false)
    else if first / 2 % 8 != 0 then (17 + first / 2 % 8, false)
    else if first / 16 % 8 == 0 then (17, false)
    else if first / 16 % 8 == 1 then (0, true)
    else (8 + first / 16 % 8, false)
  }

  predicate Admits(bits: nat, bound: int) { Power(bits) - 16 <= Max(Clamp(bound), BROTLI_SMALLEST_WINDOW) }

  /** What the ring buffer holds while it doubles: the old and the new. */
  function RingHeld(ring: nat): nat { Allocated(ring + RING_SLACK) + Allocated(ring / 2 + RING_SLACK) }

  /** The most bits, from ten, whose window a bound admits. */
  function LargestBits(bound: int, bits: nat): (most: nat)
    requires 10 <= bits <= 24
    ensures bits <= most <= 24
    decreases 24 - bits
  {
    if bits < 24 && Admits(bits + 1, bound) then LargestBits(bound, bits + 1) else bits
  }

  /** The largest ring a stage admits under a bound. */
  method LargestRing(bound: int) returns (ring: nat)
    ensures ring == Power(LargestBits(bound, 10))
  {
    ring := Power(10);
    for next := 11 to 25
      invariant ring == Power(next - 1) && LargestBits(bound, 10) == LargestBits(bound, next - 1)
    {
      if 2 * ring - 16 > Max(Clamp(bound), BROTLI_SMALLEST_WINDOW) {
        return;
      }
      ring := 2 * ring;
    }
  }

  lemma {:induction false} LargestAdmits(bound: int, from: nat, bits: nat)
    requires 10 <= from <= bits <= 24 && Admits(bits, bound)
    ensures bits <= LargestBits(bound, from)
    decreases bits - from
  {
    if from < bits {
      PowerGrows(from + 1, bits);
      LargestAdmits(bound, from + 1, bits);
    }
  }

  lemma {:induction false} PowerGrows(n: nat, m: nat)
    requires n <= m
    ensures 1 <= Power(n) <= Power(m)
    decreases m - n
  {
    if n < m {
      PowerGrows(n, m - 1);
    } else {
      PowerPositive(n);
    }
  }

  lemma {:induction false} PowerPositive(n: nat)
    ensures Power(n) >= 1
  {
    if n > 0 { PowerPositive(n - 1); }
  }

  // The plan and its ceiling.

  function FlateWorkspace(): nat {
    Allocated(416) + Allocated(316 * 8) + Allocated(19 * 8) + Allocated(32768) + 2 * Allocated(1024)
    + 2 * (Allocated(143 * 24) + 143 * Allocated(128)) + 2 * (Allocated(15 * 24) + 15 * Allocated(128)) + STAGE_OVERHEAD
  }

  function TreeGroup(codes: nat): nat { Allocated(256 * codes * 4) + Allocated(256 * 24) }

  function BrotliBase(): nat {
    Allocated(5608) + Allocated(32768) + Allocated(3 * (632 + 396) * 4)
    + 2 * (TreeGroup(630) + TreeGroup(1080) + TreeGroup(920)) + Allocated(256 * 64) + Allocated(256 * 4)
      + Allocated(256)
    + STAGE_OVERHEAD
  }

  function ZstdBase(): nat { ZSTD_FIXED + 2 * ZstdBlockBuffers() + STAGE_OVERHEAD }

  /** What Decode reserves for one stage over an input. */
  function Planned(c: Coding, input: Bytes, bound: int): nat {
    match c
    case Gzip => FlateWorkspace()
    case Deflate => FlateWorkspace()
    case Brotli =>
      if input == [] || WindowBits(input[0]).1 || !Admits(WindowBits(input[0]).0, bound) then 0
      else BrotliBase() + RingHeld(Power(WindowBits(input[0]).0))
    case Zstd => ZstdBase() + PlanOf(input, ZstdWindow(bound)).held
  }

  /** The most it is said to reserve, whatever the input. */
  function Ceiling(c: Coding, bound: int): nat {
    match c
    case Gzip => FlateWorkspace()
    case Deflate => FlateWorkspace()
    case Brotli => BrotliBase() + RingHeld(Power(LargestBits(bound, 10)))
    case Zstd => ZstdBase() + 2 * Allocated(Envelope(ZstdWindow(bound)))
  }

  /** The bounds at which the largest history is just past a small object's limit. */
  predicate StepsDown(bound: int) { 16385 <= bound <= 20480 }

  /** allocated is monotone but for one step: from the largest small object to the
      first page-rounded one. */
  lemma AllocatedMonotone(x: nat, y: nat)
    requires x <= y && !(x <= SIZE_CLASS_LIMIT < y <= 40960)
    ensures Allocated(x) <= Allocated(y)
  {
    if x > SIZE_CLASS_LIMIT {
      assert (x + PAGE - 1) / PAGE <= (y + PAGE - 1) / PAGE;
    } else if y > SIZE_CLASS_LIMIT {
      assert (y + PAGE - 1) / PAGE >= 6;
    }
  }

  /** An old history and the larger one replacing it, against twice the largest. */
  lemma PairWithin(held: nat, need: nat, most: nat)
    requires held < need <= most
    ensures !(SIZE_CLASS_LIMIT < most <= 40960) ==> Allocated(held) + Allocated(need) <= 2 * Allocated(most)
    ensures Allocated(held) + Allocated(need) < 2 * Allocated(most) + 32
  {
    if SIZE_CLASS_LIMIT < most <= 40960 {
      assert Allocated(most) == 40960;
      SmallWithin(held);
      SmallWithin(need);
    } else {
      AllocatedWithin(held, most);
      AllocatedWithin(need, most);
    }
  }

  lemma SmallWithin(n: nat)
    requires n <= 40960
    ensures Allocated(n) <= 40976 && (n < SIZE_CLASS_LIMIT ==> Allocated(n) <= 40974)
  {
  }

  lemma AllocatedWithin(n: nat, most: nat)
    requires n <= most && !(SIZE_CLASS_LIMIT < most <= 40960)
    ensures Allocated(n) <= Allocated(most)
  {
    AllocatedMonotone(n, most);
  }

  lemma {:induction false} HeldWithin(b: Bytes, pos: nat, limit: nat, retained: nat, made: nat, held: nat, slack: nat)
    requires pos <= |b| && retained <= Envelope(limit) && held <= 2 * Allocated(Envelope(limit)) + slack
    requires slack >= 31 || (slack == 0 && !(SIZE_CLASS_LIMIT < Envelope(limit) <= 40960))
    ensures PlanFrom(b, pos, limit, retained, made, held).held <= 2 * Allocated(Envelope(limit)) + slack
    decreases |b| - pos
  {
    hide LookAt, Allocated, History, Envelope;
    var l := LookAt(b[pos..]);
    if l.Skips? {
      HeldWithin(b, pos + l.length, limit, retained, made, held, slack);
    } else if l.Header? && l.window <= limit {
      EnvelopeHolds(l.window, limit);
      var need := History(l.window);
      if need > retained {
        PairWithin(retained, need, Envelope(limit));
        if made != MOST_HISTORIES && l.length != 0 {
          HeldWithin(b, pos + l.length, limit, need, made + 1, Max(held, Allocated(retained) + Allocated(need)), slack);
        }
      } else if l.length != 0 {
        HeldWithin(b, pos + l.length, limit, retained, made, held, slack);
      }
    }
  }

  lemma SteppedEnvelope(bound: int)
    ensures SIZE_CLASS_LIMIT < Envelope(ZstdWindow(bound)) <= 40960 <==> StepsDown(bound)
  {
  }

  lemma ZstdWithin(input: Bytes, bound: int)
    ensures Planned(Zstd, input, bound) < Ceiling(Zstd, bound) + 32
    ensures !StepsDown(bound) ==> Planned(Zstd, input, bound) <= Ceiling(Zstd, bound)
  {
    hide Allocated, Envelope;
    var limit := ZstdWindow(bound);
    SteppedEnvelope(bound);
    HeldWithin(input, 0, limit, 0, 0, 0, 31);
    if !StepsDown(bound) {
      HeldWithin(input, 0, limit, 0, 0, 0, 0);
    }
  }

  /** A larger ring is held in no less, the one step of allocated lying between. */
  lemma RingGrows(n: nat, m: nat)
    requires 10 <= n <= m
    ensures RingHeld(Power(n)) <= RingHeld(Power(m))
  {
    PowerGrows(n, m);
    if n < m {
      PowerGrows(n + 1, m);
      RingPart(Power(n), Power(m));
      RingPart(Power(n) / 2, Power(m) / 2);
    }
  }

  lemma RingPart(x: nat, y: nat)
    requires 2 * x <= y
    ensures Allocated(x + RING_SLACK) <= Allocated(y + RING_SLACK)
  {
    if x + RING_SLACK <= SIZE_CLASS_LIMIT < y + RING_SLACK <= 40960 {
      assert x + RING_SLACK <= 20501;
    } else {
      AllocatedMonotone(x + RING_SLACK, y + RING_SLACK);
    }
  }

  lemma BrotliWithin(input: Bytes, bound: int)
    ensures Planned(Brotli, input, bound) <= Ceiling(Brotli, bound)
  {
    hide Allocated;
    if input != [] && !WindowBits(input[0]).1 && Admits(WindowBits(input[0]).0, bound) {
      var bits := WindowBits(input[0]).0;
      LargestAdmits(bound, 10, bits);
      RingGrows(bits, LargestBits(bound, 10));
    }
  }

  /** Two single segments whose contents are 16380 and 16384 bytes. */
  function Segment(content: Bytes): Frame {
    Zstandard([0x28, 0xb5, 0x2f, 0xfd], 96, [], [], content, [Block([1, 0, 0], [])], [])
  }

  const Pair := [Segment([252, 62]), Segment([0, 63])]

  lemma PairReached()
    ensures FramesValid(Pair) && Windows(Pair) == [16380, 16384] && Reached(EncodeFrames(Pair)) == [16380, 16384]
  {
    hide Frame.Encode, Frame.Valid, Frame.Window, EncodeFrames, Segment, LookAt;
    SegmentValid([252, 62], 16124);
    SegmentValid([0, 63], 16128);
    assert Pair[1..] == [Segment([0, 63])] && Pair[1..][1..] == [];
    assert Windows(Pair[1..]) == [16384] + Windows([]);
    FramesReached(Pair, []);
    assert EncodeFrames(Pair) + [] == EncodeFrames(Pair);
    LookNothing([]);
  }

  lemma SegmentValid(content: Bytes, n: nat)
    requires |content| == 2 && content[0] as int + 256 * (content[1] as int) == n && n + 256 > SMALLEST_WINDOW
    ensures Segment(content).Zstandard? && Segment(content).Valid() && Segment(content).Window() == n + 256
  {
    var magic: Bytes := [0x28, 0xb5, 0x2f, 0xfd];
    assert magic[1..] == [0xb5, 0x2f, 0xfd] && Number(magic) == 0x28 + 256 * Number(magic[1..]);
    Three(magic[1..]);
    Three([1, 0, 0]);
    assert content[1..] == [content[1]] && Number(content[1..]) == content[1] as int + 256 * Number([]);
    assert Number(content) == n;
  }

  /** In that range the pair of frames takes more than the ceiling. */
  lemma CeilingExceeded(bound: int)
    requires StepsDown(bound)
    ensures Planned(Zstd, EncodeFrames(Pair), bound) > Ceiling(Zstd, bound)
  {
    hide EncodeFrames, Reached, PlanFrom, Decode, Pair;
    var b, limit := EncodeFrames(Pair), ZstdWindow(bound);
    PairReached();
    PlanMatches(b, 0, limit, 0, 0, 0);
    assert b[0..] == b;
    PairDecoded(limit);
    PairUncut(b, limit);
    SteppedEnvelope(bound);
    assert Allocated(Envelope(limit)) == 40960;
  }

  lemma PairDecoded(limit: nat)
    requires 16384 <= limit
    ensures Decode([16380, 16384], limit, Fresh).peak == 81942
  {
    assert [16380, 16384][1..] == [16384];
    assert Decode([16384], limit, Decoder(32760, 1, Max(0, Allocated(32760)))).peak == Max(40966, 40966 + 40976);
  }

  /** Two histories are within what a stage lets its decoder make. */
  lemma PairUncut(b: Bytes, limit: nat)
    requires |Reached(b)| <= 3
    ensures PlanOf(b, limit).cut == -1
  {
    FewUncut(b, 0, limit, 0, 0, 0);
    assert b[0..] == b;
  }

  lemma {:induction false} FewUncut(b: Bytes, pos: nat, limit: nat, retained: nat, made: nat, held: nat)
    requires pos <= |b| && made + |Reached(b[pos..])| <= 3
    ensures PlanFrom(b, pos, limit, retained, made, held).cut == -1
    decreases |b| - pos
  {
    hide LookAt, Allocated, History;
    var l := LookAt(b[pos..]);
    if !l.Nothing? && l.length > 0 {
      assert b[pos..][l.length..] == b[pos + l.length..];
      if l.Skips? {
        FewUncut(b, pos + l.length, limit, retained, made, held);
      } else {
        var need := History(l.window);
        FewUncut(b, pos + l.length, limit, retained, made, held);
        FewUncut(b, pos + l.length, limit, need, made + 1, Max(held, Allocated(retained) + Allocated(need)));
      }
    }
  }

  /** The ceiling holds for every input exactly at the bounds where allocated does
      not step down past 32 KiB, and elsewhere within 32 bytes. */
  lemma CeilingExactly(bound: int)
    ensures (forall input :: Planned(Zstd, input, bound) <= Ceiling(Zstd, bound)) <==> !StepsDown(bound)
    ensures forall input :: Planned(Zstd, input, bound) < Ceiling(Zstd, bound) + 32
  {
    forall input
      ensures Planned(Zstd, input, bound) < Ceiling(Zstd, bound) + 32
      ensures !StepsDown(bound) ==> Planned(Zstd, input, bound) <= Ceiling(Zstd, bound)
    {
      ZstdWithin(input, bound);
    }
    if StepsDown(bound) {
      CeilingExceeded(bound);
    }
  }
}