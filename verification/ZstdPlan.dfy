/** How much history a Zstandard stage plans for, against a decoder that keeps the
    largest history it has made. */
module ZstdPlan {
  import opened ZstdFrames

  const SIZE_CLASS_LIMIT := 32768
  const PAGE := 8192

  /** At least what the runtime counts for one allocation. */
  function Allocated(n: nat): (a: nat) {
    if n == 0 then 0
    else if n <= SIZE_CLASS_LIMIT then n + n / 4 + 16
    else (n + PAGE - 1) / PAGE * PAGE
  }

  const LARGE_WINDOW := 2097151

  /** The history buffer a frame of a window takes; it drops at the threshold. */
  function History(window: nat): nat { if window < LARGE_WINDOW then 2 * window else window + LARGE_WINDOW / 2 }

  function Max(x: nat, y: nat): nat { if x > y then x else y }

  function Min(x: nat, y: nat): nat { if x < y then x else y }

  /** The largest history any window up to a limit takes. */
  function Envelope(limit: nat): nat { Max(History(limit), History(Min(limit, LARGE_WINDOW - 1))) }

  lemma EnvelopeHolds(window: nat, limit: nat)
    requires window <= limit
    ensures History(window) <= Envelope(limit)
  {
  }

  const MOST_HISTORIES := 3

  // The walk.

  /** What the bytes start with: nothing readable, a frame that makes no history, or
      a header, with the length of its frame, zero where that is not all there. */
  datatype Look = Nothing | Skips(length: nat) | Header(window: nat, length: nat)

  function LookAt(b: Bytes): (l: Look)
    ensures l.Skips? ==> 0 < l.length <= |b|
    ensures l.Header? ==> l.length <= |b| && |b| >= 5
  {
    if |b| < 4 then Nothing
    else if Number(b[..4]) / 16 == SKIPPABLE then
      if FrameLength(b) == 0 then Nothing else Skips(FrameLength(b))
    else if Number(b[..4]) != FRAME_MAGIC || |b| < 5 || |b| < HeaderSize(b[4]) then Nothing
    else Header(DeclaredWindow(b).0, FrameLength(b))
  }

  /** The most history held, and where the input is cut, or -1. */
  datatype Plan = Plan(held: nat, cut: int)

  function PlanFrom(b: Bytes, pos: nat, limit: nat, retained: nat, made: nat, held: nat): Plan
    requires pos <= |b|
    decreases |b| - pos
  {
    match LookAt(b[pos..])
    case Nothing => Plan(held, -1)
    case Skips(n) => PlanFrom(b, pos + n, limit, retained, made, held)
    case Header(window, n) =>
      if window > limit then Plan(held, -1)
      else if History(window) > retained && made == MOST_HISTORIES then Plan(held, pos)
      else
        var grows := History(window) > retained;
        var held1 := if grows then Max(held, Allocated(retained) + Allocated(History(window))) else held;
        if n == 0 then Plan(held1, -1)
        else PlanFrom(b, pos + n, limit, if grows then History(window) else retained,
                      if grows then made + 1 else made, held1)
  }

  function PlanOf(b: Bytes, limit: nat): Plan { PlanFrom(b, 0, limit, 0, 0, 0) }

  /** What a stage lets its decoder read. */
  function CutInput(b: Bytes, p: Plan): Bytes { if 0 <= p.cut <= |b| then b[..p.cut] else b }

  /** Reads what the bytes start with, without allocating. */
  method Inspect(b: Bytes) returns (l: Look)
    ensures l == LookAt(b)
  {
    if |b| < 4 {
      return Nothing;
    }
    var magic := Number(b[..4]);
    if magic / 16 == SKIPPABLE {
      if |b| < 8 {
        return Nothing;
      }
      var size := Number(b[4..8]);
      if size > |b| - 8 {
        return Nothing;
      }
      return Skips(8 + size);
    }
    if magic != FRAME_MAGIC || |b| < 5 {
      return Nothing;
    }
    var descriptor := b[4];
    if |b| < HeaderSize(descriptor) {
      return Nothing;
    }
    var window, _ := ReadWindow(b);
    var end, _ := WalkBlocks(b, HeaderSize(descriptor), HasChecksum(descriptor));
    l := Header(window, end);
  }

  /** Plans a stage from its frames' headers, one after another. */
  method Walk(b: Bytes, limit: nat) returns (held: nat, cut: int)
    ensures Plan(held, cut) == PlanOf(b, limit)
  {
    hide LookAt, Allocated, History;
    var retained, made, pos := 0, 0, 0;
    held := 0;
    while true
      invariant pos <= |b| && PlanOf(b, limit) == PlanFrom(b, pos, limit, retained, made, held)
      decreases |b| - pos
    {
      var l := Inspect(b[pos..]);
      if l.Nothing? {
        return held, -1;
      }
      if l.Header? {
        if l.window > limit {
          return held, -1;
        }
        var need := History(l.window);
        if need > retained {
          if made == MOST_HISTORIES {
            return held, pos;
          }
          made := made + 1;
          held := Max(held, Allocated(retained) + Allocated(need));
          retained := need;
        }
        if l.length == 0 {
          return held, -1;
        }
      }
      pos := pos + l.length;
    }
  }

  // The reference decoder.

  /** The windows of the headers a decoder can reach, in order: of every complete
      frame, and of one more whose header alone is there. */
  function Reached(b: Bytes): seq<nat>
    decreases |b|
  {
    match LookAt(b)
    case Nothing => []
    case Skips(n) => Reached(b[n..])
    case Header(window, n) => [window] + if n == 0 then [] else Reached(b[n..])
  }

  /** What a decoder keeps, how often it has made it, and the most it held at once. */
  datatype Decoder = Decoder(history: nat, made: nat, peak: nat)

  const Fresh := Decoder(0, 0, 0)

  /** Keeps the largest history; makes a new one, beside the old, only for an
      admitted frame that needs more; stops at one it does not admit. */
  function Decode(windows: seq<nat>, limit: nat, d: Decoder): Decoder {
    if windows == [] || windows[0] > limit then d
    else
      var need := History(windows[0]);
      Decode(windows[1..], limit,
             if need > d.history then Decoder(need, d.made + 1, Max(d.peak, Allocated(d.history) + Allocated(need)))
             else d)
  }

  /** Stopping sooner holds no more. */
  lemma {:induction false} DecodeLess(windows: seq<nat>, k: nat, limit: nat, d: Decoder)
    requires k <= |windows|
    ensures var part, whole := Decode(windows[..k], limit, d), Decode(windows, limit, d);
            part.made <= whole.made && part.peak <= whole.peak && d.made <= whole.made && d.peak <= whole.peak
  {
    hide Allocated, History;
    if windows != [] && windows[0] <= limit {
      var need := History(windows[0]);
      var next :=
        if need > d.history then Decoder(need, d.made + 1, Max(d.peak, Allocated(d.history) + Allocated(need))) else d;
      if k == 0 {
        DecodeLess(windows[1..], 0, limit, next);
      } else {
        assert windows[..k][1..] == windows[1..][..k - 1];
        DecodeLess(windows[1..], k - 1, limit, next);
      }
    }
  }

  /** What a frame starts with depends on its own bytes alone. */
  lemma LookAlone(b: Bytes, m: nat)
    requires !LookAt(b).Nothing? && 0 < LookAt(b).length <= m <= |b|
    ensures LookAt(b[..m]) == LookAt(b)
  {
    var n := FrameLength(b);
    assert n == LookAt(b).length;
    hide LookAt, FrameLength, Frame.Encode, Frame.Valid, Frame.Window;
    var f := FrameLaidOut(b);
    var frame := f.Encode();
    assert |frame| == n && b[..n] == frame;
    assert b == frame + b[n..];
    assert b[..m] == frame + b[n..m];
    LookFound(f, b[n..]);
    LookFound(f, b[n..m]);
  }

  lemma {:induction false} PlanMatches(b: Bytes, pos: nat, limit: nat, retained: nat, made: nat, held: nat)
    requires pos <= |b| && made <= MOST_HISTORIES
    ensures var p, d := PlanFrom(b, pos, limit, retained, made, held), Decoder(retained, made, held);
            && (p.cut == -1 || pos <= p.cut <= |b|)
            && (p.cut == -1 ==>
                  var r := Decode(Reached(b[pos..]), limit, d); r.made <= MOST_HISTORIES && r.peak == p.held)
            && (p.cut != -1 ==>
                  var r := Decode(Reached(b[pos..p.cut]), limit, d);
                  r.made <= MOST_HISTORIES && r.peak == p.held && FramesEnd(b[pos..p.cut]) == p.cut - pos)
    decreases |b| - pos
  {
    hide LookAt, Allocated, History, FrameLength;
    var l := LookAt(b[pos..]);
    var p := PlanFrom(b, pos, limit, retained, made, held);
    if p.cut == pos && l.Header? {
      assert b[pos..pos] == [];
      LookNothing([]);
    }
    if (l.Skips? || l.Header?) && l.length > 0 {
      var n := l.length;
      var grows := l.Header? && History(l.window) > retained;
      if l.Skips? || (l.window <= limit && !(grows && made == MOST_HISTORIES)) {
        var held1 := if grows then Max(held, Allocated(retained) + Allocated(History(l.window))) else held;
        PlanMatches(b, pos + n, limit, if grows then History(l.window) else retained,
                    if grows then made + 1 else made, held1);
        assert b[pos..][n..] == b[pos + n..];
        if p.cut != -1 {
          CutAlone(b, pos, n, p.cut);
        }
      }
    }
  }

  lemma LookNothing(b: Bytes)
    requires |b| < 4
    ensures LookAt(b).Nothing? && FrameLength(b) == 0
  {
  }

  /** A frame at the start of a cut input is read as it was in the whole. */
  lemma CutAlone(b: Bytes, pos: nat, n: nat, cut: nat)
    requires pos <= pos + n <= cut <= |b| && !LookAt(b[pos..]).Nothing? && LookAt(b[pos..]).length == n > 0
    ensures LookAt(b[pos..cut]) == LookAt(b[pos..]) && FrameLength(b[pos..cut]) == n
    ensures b[pos..cut][n..] == b[pos + n..cut]
  {
    LookAlone(b[pos..], cut - pos);
    FrameAlone(b[pos..], cut - pos);
    assert b[pos..][..cut - pos] == b[pos..cut];
  }

  /** Where a stage cuts its input the complete frames end exactly there. */
  lemma CutAtFrameEnd(b: Bytes, limit: nat)
    requires PlanOf(b, limit).cut != -1
    ensures 0 <= PlanOf(b, limit).cut <= |b| && FramesEnd(b[..PlanOf(b, limit).cut]) == PlanOf(b, limit).cut
  {
    PlanMatches(b, 0, limit, 0, 0, 0);
    assert b[0..PlanOf(b, limit).cut] == b[..PlanOf(b, limit).cut];
  }

  /** However far into the cut input a decoder gets, it makes its history at most
      three times and never holds more than was planned; going all the way it
      holds exactly that. */
  lemma PlanDominates(b: Bytes, limit: nat, k: nat)
    requires k <= |Reached(CutInput(b, PlanOf(b, limit)))|
    ensures var windows := Reached(CutInput(b, PlanOf(b, limit)));
            var d := Decode(windows[..k], limit, Fresh);
            && d.made <= MOST_HISTORIES && d.peak <= PlanOf(b, limit).held
            && Decode(windows, limit, Fresh).peak == PlanOf(b, limit).held
  {
    var p := PlanOf(b, limit);
    PlanMatches(b, 0, limit, 0, 0, 0);
    assert b[0..] == b;
    if p.cut != -1 { assert b[0..p.cut] == b[..p.cut]; }
    DecodeLess(Reached(CutInput(b, p)), k, limit, Fresh);
  }

  // Against the layout.

  /** The windows a list of frames declares, its skippable ones aside. */
  function Windows(frames: seq<Frame>): seq<nat>
    requires FramesValid(frames)
  {
    if frames == [] then []
    else (if frames[0].Zstandard? then [frames[0].Window()] else []) + Windows(frames[1..])
  }

  lemma BeginsAs(f: Frame, rest: Bytes)
    requires f.Valid() && f.Zstandard?
    ensures var b := f.Encode() + rest;
            |b| >= HeaderSize(f.descriptor) && |b| >= 5 && b[..4] == f.magic && b[4] == f.descriptor
  {
    hide Number, EncodeBlocks, BlocksValid;
    var tail := EncodeBlocks(f.blocks) + f.checksum + rest;
    assert f.Encode() + rest == f.Header() + tail;
    HeaderFields(f, tail);
  }

  lemma LookFound(f: Frame, rest: Bytes)
    requires f.Valid()
    ensures var l := LookAt(f.Encode() + rest);
            l == if f.Skippable? then Skips(|f.Encode()|) else Header(f.Window(), |f.Encode()|)
  {
    hide Number, EncodeBlocks, BlocksValid, BlocksEnd, FrameLength, DeclaredWindow, HeaderSize;
    var b := f.Encode() + rest;
    FrameFound(f, rest);
    if f.Skippable? {
      assert b[..4] == f.magic;
    } else {
      WindowFound(f, rest);
      BeginsAs(f, rest);
      hide Frame.Encode;
    }
  }

  /** A decoder reaches the frames of a list exactly. */
  lemma {:induction false} FramesReached(frames: seq<Frame>, rest: Bytes)
    requires FramesValid(frames)
    ensures Reached(EncodeFrames(frames) + rest) == Windows(frames) + Reached(rest)
  {
    hide LookAt, Frame.Encode, Frame.Valid, Frame.Window, FrameLength;
    if frames == [] {
      assert EncodeFrames(frames) + rest == rest;
    } else {
      var one, tail := frames[0], EncodeFrames(frames[1..]) + rest;
      assert EncodeFrames(frames) + rest == one.Encode() + tail;
      FramesReached(frames[1..], rest);
      OneReached(one, tail);
      var first := if one.Zstandard? then [one.Window()] else [];
      assert Windows(frames) + Reached(rest) == first + (Windows(frames[1..]) + Reached(rest));
    }
  }

  lemma OneReached(f: Frame, tail: Bytes)
    requires f.Valid()
    ensures Reached(f.Encode() + tail) == (if f.Zstandard? then [f.Window()] else []) + Reached(tail)
  {
    hide LookAt, Frame.Encode, Frame.Valid, Frame.Window, FrameLength;
    LookFound(f, tail);
    FrameFound(f, tail);
    assert (f.Encode() + tail)[|f.Encode()|..] == tail;
  }
}
