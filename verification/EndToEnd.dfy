/** The producer, a ring that loses, repeats and reorders, and capture with any
    number of deliverers: what a placement calls placeable is where the process
    put it. */
module EndToEnd {
  import opened Values
  import opened Connection
  import opened Evidence
  import opened Probe
  import opened Capture
  import opened CaptureEffects
  import opened LaterWord
  import P = Producer
  import opened Numbering

  // The true stream of one direction of one occupancy.

  /** The bytes moved by its calls up to a number. */
  function Bytes(l: P.Line, n: nat): (b: nat) {
    if n == 0 then 0 else Bytes(l, n - 1) + if n in l.moved then l.moved[n] else 0
  }

  /** That every call up to a number has returned, so what it moved is known. */
  ghost predicate Known(l: P.Line, n: nat) { forall i :: 1 <= i <= n ==> i in l.moved }

  lemma {:induction false} BytesKept(l: P.Line, m: P.Line, n: nat)
    requires LineGrows(l, m) && Known(l, n)
    ensures Known(m, n) && Bytes(m, n) == Bytes(l, n)
  {
    if n > 0 { BytesKept(l, m, n - 1); }
  }

  // The system.

  /** pending holds the fragments whose sink has not answered. */
  datatype System = System(world: P.World, capture: State, pending: seq<Write>)

  datatype Event =
    | Produce(step: P.Step)
    | Deliver(index: nat, taking: Taking)
    | Answered(which: nat, answer: Answer)
    | Gate(index: nat)
    | Ended(closing: Closing, taking: Taking)
    | Finish(key: StreamKey, asked: seq<Settling>, at: Time, taking: Taking)

  /** Every fragment offered is of a stream capture began. */
  ghost predicate Sane(y: System) {
    WellFormed(y.capture) && forall w :: w in y.pending ==> w.fragment.connection in y.capture.streams
  }

  /** Any event of the ring may be delivered at any time, any number of times or
      never; a sink answers in any order; an ending may claim anything. */
  function Happen(y: System, e: Event): (r: System)
    requires Sane(y)
    ensures Sane(r)
  {
    match e
    case Produce(step) => y.(world := P.Make(y.world, step))
    case Deliver(i, taking) =>
      if i >= |y.world.submitted| then y
      else
        var (c, w) := Place(y.capture, y.world.submitted[i].transfer, taking);
        y.(capture := c, pending := y.pending + if w.Some? then [w.value] else [])
    case Answered(k, answer) =>
      if k >= |y.pending| then y
      else y.(capture := Settle(y.capture, y.pending[k], answer), pending := y.pending[..k] + y.pending[k + 1..])
    case Gate(i) =>
      if i >= |y.world.submitted| then y
      else y.(capture := RefuseStep(y.capture, y.world.submitted[i].transfer))
    case Ended(closing, taking) => y.(capture := CloseStep(y.capture, closing, taking))
    case Finish(key, asked, at, taking) => y.(capture := FinishStep(y.capture, key, asked, at, taking))
  }

  // What a lane knows about the true stream.

  ghost predicate TrueLane(l: Lane, line: P.Line) {
    l.cut.None? ==> Known(line, l.numbered) && l.offset == Bytes(line, l.numbered)
  }

  predicate CutWithin(l: Lane) { l.cut.Some? ==> l.cut.value.from <= l.offset }

  ghost predicate TrueStream(world: P.World, s: Stream) {
    && CutWithin(s.lanes.sent) && CutWithin(s.lanes.received)
    && (s.occupancy == 0 ==> CutAtZero(s.lanes.sent) && CutAtZero(s.lanes.received))
    && (s.occupancy != 0 && s.loss == NotStopped ==>
          && TrueLane(s.lanes.sent, P.LineOf(world, P.At(s.occupancy, Sent)))
          && TrueLane(s.lanes.received, P.LineOf(world, P.At(s.occupancy, Received))))
  }

  /** A fragment begins at the sum of what every lower-numbered call of its own
      occupancy and direction moved, each of them known, and is its call's own. */
  ghost predicate Exact(world: P.World, w: Write) {
    var t := w.transfer;
    var line := P.LineOf(world, EventPlace(t));
    var n := t.sequence.number;
    && t.sequence.occupancy != 0 && n >= 1 && w.fragment.direction == t.direction && w.fragment.produced == n
    && Known(line, n)
    && w.fragment.offset == Bytes(line, n - 1) && w.fragment.length == line.moved[n]
  }

  /** A fragment its stream's cut already lies at or below. */
  predicate CutBelow(s: Stream, w: Write) {
    var l := s.lanes.Of(w.fragment.direction);
    l.cut.Some? && l.cut.value.from <= w.fragment.offset
  }

  ghost predicate TrueWrite(world: P.World, s: Stream, w: Write) { Exact(world, w) || CutBelow(s, w) }

  /** No cut moves or is taken back, and no offset shrinks. */
  predicate CutsStand(s: Stream, r: Stream) {
    CutStands(s.lanes.sent, r.lanes.sent) && CutStands(s.lanes.received, r.lanes.received)
  }

  predicate CutStands(l: Lane, m: Lane) {
    l.offset <= m.offset && (l.cut.Some? ==> m.cut.Some? && m.cut.value.from == l.cut.value.from)
  }

  lemma NumberedNext(l: Lane, line: P.Line, q: Sequence)
    requires TrueLane(l, line) && CutWithin(l)
    ensures var m := NumberLane(l, q);
            && m.offset == l.offset && CutWithin(m) && CutStands(l, m)
            && (m.cut.None? ==>
                  m.numbered == q.number >= 1 && Known(line, q.number - 1) && m.offset == Bytes(line, q.number - 1))
  {
  }

  lemma OneMore(line: P.Line, n: nat)
    requires n >= 1 && Known(line, n - 1) && n in line.moved
    ensures Known(line, n) && Bytes(line, n) == Bytes(line, n - 1) + line.moved[n]
  {
  }

  // What each operation does to a true stream.

  lemma CutBothStands(s: Stream, because: Reason, why: Why)
    requires CutWithin(s.lanes.sent) && CutWithin(s.lanes.received)
    ensures var r := CutBoth(s, because, why);
            && r.lanes.sent.cut.Some? && r.lanes.received.cut.Some? && CutsStand(s, r)
            && CutWithin(r.lanes.sent) && CutWithin(r.lanes.received)
            && r.lanes.sent.offset == s.lanes.sent.offset && r.lanes.received.offset == s.lanes.received.offset
            && r.occupancy == s.occupancy && r.loss == s.loss
            && (s.lanes.sent.offset == 0 ==> CutAtZero(r.lanes.sent))
            && (s.lanes.received.offset == 0 ==> CutAtZero(r.lanes.received))
  {
  }

  /** A stream a transfer may be placed in: a true one, or one it begins. */
  ghost predicate Ready(world: P.World, s: Stream, t: Transfer) {
    && CutWithin(s.lanes.sent) && CutWithin(s.lanes.received)
    && (TrueStream(world, s) || (t.sequence.occupancy == 0 && s.lanes.sent.offset == 0 && s.lanes.received.offset == 0))
  }

  /** The lanes once a number has been read: what is still not cut is at the place
      that number names. */
  ghost predicate ReadTruly(world: P.World, s: Stream, n: Stream, t: Transfer) {
    var l, m := s.lanes.Of(t.direction), n.lanes.Of(t.direction);
    var line := P.LineOf(world, EventPlace(t));
    && n.occupancy == s.occupancy && n.loss == s.loss && CutsStand(s, n)
    && CutWithin(n.lanes.sent) && CutWithin(n.lanes.received)
    && (s.occupancy == 0 ==> CutAtZero(n.lanes.sent) && CutAtZero(n.lanes.received))
    && (t.sequence.occupancy == 0 ==> n.lanes.sent.cut.Some? && n.lanes.received.cut.Some?)
    && (t.sequence.occupancy != 0 ==> n.lanes.Of(Other(t.direction)) == s.lanes.Of(Other(t.direction)))
    && (m.cut.None? && s.loss == NotStopped ==>
          && t.sequence.occupancy == s.occupancy != 0
          && m.numbered == t.sequence.number >= 1 && Known(line, m.numbered - 1)
          && m.offset == Bytes(line, m.numbered - 1))
  }

  lemma NumberReads(world: P.World, s: Stream, t: Transfer)
    requires Ready(world, s, t) && Continues(s, t)
    ensures ReadTruly(world, s, Number(s, t), t)
  {
    hide NumberLane, CutBoth, Known, Bytes;
    var s1 := NoteUnlocated(s, t.sequence.unlocated);
    if t.sequence.occupancy == 0 {
      CutBothStands(s1, SequenceUnavailable, NoSequenceKept);
    } else {
      var l := s.lanes.Of(t.direction);
      NumberStands(l, t.sequence);
      if s.loss == NotStopped && s.occupancy != 0 {
        NumberedNext(l, P.LineOf(world, EventPlace(t)), t.sequence);
      }
    }
  }

  lemma NumberStands(l: Lane, q: Sequence)
    requires CutWithin(l)
    ensures CutStands(l, NumberLane(l, q)) && CutWithin(NumberLane(l, q))
    ensures CutAtZero(l) ==> CutAtZero(NumberLane(l, q))
  {
  }

  lemma AdvanceShape(l: Lane, t: Transfer, next: bool)
    ensures var m := Advance(l, t, next); m.cut == l.cut && m.numbered == l.numbered && m.offset == l.offset + t.length
  {
    hide Bind;
  }

  /** A stream whose one read lane was replaced by one true at the number read. */
  lemma LaneTrue(world: P.World, s: Stream, n: Stream, t: Transfer, m: Lane)
    requires Ready(world, s, t) && Continues(s, t) && ReadTruly(world, s, n, t)
    requires CutStands(n.lanes.Of(t.direction), m) && CutWithin(m)
    requires n.loss == NotStopped && m.cut.None? ==> TrueLane(m, P.LineOf(world, EventPlace(t)))
    ensures TrueStream(world, WithLane(n, t.direction, m)) && CutsStand(s, WithLane(n, t.direction, m))
  {
    hide Known, Bytes;
  }

  lemma PlacedLaneTrue(world: P.World, s: Stream, n: Stream, t: Transfer)
    requires Ready(world, s, t) && ReadTruly(world, s, n, t) && EventOk(P.LineOf(world, EventPlace(t)), t)
    ensures var l := n.lanes.Of(t.direction);
            var m := PlacedLane(l, s, t);
            && CutStands(l, m) && CutWithin(m) && (m.cut.None? ==> m.cut == l.cut)
            && (n.loss == NotStopped && m.cut.None? ==> TrueLane(m, P.LineOf(world, EventPlace(t))))
  {
    hide Known, Bytes, Bind;
    var line := P.LineOf(world, EventPlace(t));
    if n.lanes.Of(t.direction).cut.None? && s.loss == NotStopped {
      OneMore(line, t.sequence.number);
    }
  }

  /** A placed transfer leaves a true stream true, and its fragment is exact or
      already below a cut. */
  lemma PlaceTrue(world: P.World, s: Stream, t: Transfer)
    requires Ready(world, s, t) && Continues(s, t) && !Placeless(t)
    requires EventOk(P.LineOf(world, EventPlace(t)), t)
    ensures TrueStream(world, PlaceIn(s, t)) && CutsStand(s, PlaceIn(s, t))
  {
    hide Number, PlaceIn, PlacedLane, Ready, ReadTruly, TrueLane, CutWithin, CutStands;
    if t.measured || Moved(t) {
      var n := Number(s, t);
      NumberReads(world, s, t);
      PlacedShape(s, t);
      PlacedLaneTrue(world, s, n, t);
      LaneTrue(world, s, n, t, PlacedLane(n.lanes.Of(t.direction), s, t));
    } else {
      EarlyTrue(world, s, t);
    }
  }

  lemma EarlyTrue(world: P.World, s: Stream, t: Transfer)
    requires Ready(world, s, t) && !t.measured && !Moved(t)
    ensures TrueStream(world, PlaceIn(s, t)) && CutsStand(s, PlaceIn(s, t))
  {
    hide Number, Known, Bytes;
  }

  lemma FragmentTrue(world: P.World, s: Stream, t: Transfer)
    requires Ready(world, s, t) && Continues(s, t) && Offers(s, t)
    requires EventOk(P.LineOf(world, EventPlace(t)), t)
    ensures TrueWrite(world, PlaceIn(s, t), WriteOf(s, t))
  {
    hide Number, Known, Bytes, EvidenceOf, Advance;
    var n := Number(s, t);
    NumberReads(world, s, t);
    var m := n.lanes.Of(t.direction);
    AdvanceShape(m, t, IsNext(s, t));
    if m.cut.None? {
      OneMore(P.LineOf(world, EventPlace(t)), t.sequence.number);
    }
  }

  lemma FreshReady(world: P.World, observing: Observing, id: nat, t: Transfer)
    ensures Ready(world, FreshStream(observing, id, t), t)
  {
    assert Known(P.LineOf(world, P.At(t.sequence.occupancy, Sent)), 0);
    assert Known(P.LineOf(world, P.At(t.sequence.occupancy, Received)), 0);
  }

  lemma SettleTrue(world: P.World, s: Stream, final: Final, ending: bool)
    requires TrueStream(world, s)
    ensures TrueStream(world, SettleTail(s, final, ending)) && CutsStand(s, SettleTail(s, final, ending))
  {
    hide SettleLane, CutBoth, Known, Bytes;
    CutBothStands(s, TerminalUnsettled, NoOccupancyAtEnd);
    SettleLaneStands(s.lanes.sent, final.terminals.sent, ending);
    SettleLaneStands(s.lanes.received, final.terminals.received, ending);
  }

  lemma SettleLaneStands(l: Lane, t: Terminal, ending: bool)
    requires CutWithin(l)
    ensures var m := SettleLane(l, t, ending);
            CutStands(l, m) && CutWithin(m) && m.numbered == l.numbered && m.offset == l.offset
  {
    hide Located;
  }

  lemma EndingsTrue(world: P.World, s: Stream, e: Closing, asked: seq<Settling>)
    requires TrueStream(world, s)
    ensures TrueStream(world, RetireIn(s)) && CutsStand(s, RetireIn(s))
    ensures TrueStream(world, CloseIn(s, e)) && CutsStand(s, CloseIn(s, e))
    ensures TrueStream(world, FinishIn(s, asked)) && CutsStand(s, FinishIn(s, asked))
  {
    hide SettleTail, VerdictOf, Known, Bytes;
    SettleTrue(world, NoteUnlocated(s, e.unlocated), e.final, true);
    var v := VerdictOf(asked, s.occupancy);
    if v.Settled? {
      SettleTrue(world, NoteUnlocated(s, v.unlocated), v.final, false);
    }
  }

  lemma RefusalTrue(world: P.World, s: Stream, t: Transfer)
    requires TrueStream(world, s)
    ensures TrueStream(world, RefuseIn(s, t)) && CutsStand(s, RefuseIn(s, t))
  {
    hide Known, Bytes;
  }

  lemma RefuseWriteTrue(world: P.World, s: Stream, f: Fragment, limit: bool)
    requires TrueStream(world, s) && f.offset <= s.lanes.Of(f.direction).offset
    ensures TrueStream(world, RefuseWrite(s, f, limit)) && CutsStand(s, RefuseWrite(s, f, limit))
  {
    hide Known, Bytes;
  }

  // Whole runs.

  /** A fragment offered, against its stream as it stands. */
  ghost predicate Backed(world: P.World, s: Stream, w: Write) {
    TrueWrite(world, s, w) && w.fragment.offset <= s.lanes.Of(w.fragment.direction).offset
  }

  ghost predicate Offered(y: System, w: Write) { w in y.pending || w in y.capture.delivered }

  ghost predicate True(y: System) {
    && Sane(y) && Numbers(y.world)
    && (forall id :: id in y.capture.streams ==> TrueStream(y.world, y.capture.streams[id]))
    && (forall w :: Offered(y, w) ==>
          w.fragment.connection in y.capture.streams && Backed(y.world, y.capture.streams[w.fragment.connection], w))
    && (forall e :: e in y.capture.ended ==> Finished(y, e))
  }

  /** A stream as its record found it: no handle names it, so nothing more is
      offered of it, and what was offered is backed by it. */
  ghost predicate Finished(y: System, e: Capture.Ended) {
    && e.stream.id in y.capture.streams && e.stream.id !in y.capture.open.Values
    && (forall w :: Offered(y, w) && w.fragment.connection == e.stream.id ==> TrueWrite(y.world, e.stream, w))
  }

  lemma BackedOnward(world: P.World, s: Stream, r: Stream, w: Write)
    requires Backed(world, s, w) && CutsStand(s, r)
    ensures Backed(world, r, w)
  {
    hide Exact;
  }

  /** A capture step that moved streams only onward, over the same production. */
  lemma OnwardTrue(y: System, r: System)
    requires True(y) && Sane(r) && r.world == y.world
    requires forall id :: id in r.capture.streams ==> TrueStream(r.world, r.capture.streams[id])
    requires forall id :: id in y.capture.streams ==>
               id in r.capture.streams && CutsStand(y.capture.streams[id], r.capture.streams[id])
    requires forall w :: Offered(r, w) && !Offered(y, w) ==>
               (&& w.fragment.connection in r.capture.streams
                && Backed(r.world, r.capture.streams[w.fragment.connection], w)
                && w.fragment.connection in r.capture.open.Values)
    requires forall id :: id in y.capture.streams && id !in y.capture.open.Values ==> id !in r.capture.open.Values
    requires forall e :: e in r.capture.ended && e !in y.capture.ended ==> Finished(r, e)
    ensures True(r)
  {
    hide TrueStream, Backed, TrueWrite, CutsStand;
    forall w | Offered(r, w)
      ensures w.fragment.connection in r.capture.streams && Backed(r.world, r.capture.streams[w.fragment.connection], w)
    {
      if Offered(y, w) {
        BackedOnward(y.world, y.capture.streams[w.fragment.connection], r.capture.streams[w.fragment.connection], w);
      }
    }
    forall e | e in r.capture.ended ensures Finished(r, e) {
      if e in y.capture.ended { assert Finished(y, e); }
    }
  }

  lemma GrownTrue(y: System, world: P.World)
    requires True(y) && Numbers(world)
    requires forall at :: LineGrows(P.LineOf(y.world, at), P.LineOf(world, at))
    ensures True(y.(world := world))
  {
    hide Known, Bytes, P.LineOf;
    var r := y.(world := world);
    forall id | id in y.capture.streams ensures TrueStream(world, y.capture.streams[id]) {
      StreamGrown(y.world, world, y.capture.streams[id]);
    }
    forall w | Offered(r, w) ensures Offered(y, w) && (Exact(y.world, w) ==> Exact(world, w)) {
      assert Offered(y, w);
      WriteGrown(y.world, world, w);
    }
    hide Exact, TrueStream;
    forall e | e in r.capture.ended ensures Finished(r, e) {
      assert Finished(y, e);
    }
  }

  lemma StreamGrown(was: P.World, world: P.World, s: Stream)
    requires TrueStream(was, s)
    requires forall at :: LineGrows(P.LineOf(was, at), P.LineOf(world, at))
    ensures TrueStream(world, s)
  {
    hide Known, Bytes, P.LineOf;
    LaneGrown(P.LineOf(was, P.At(s.occupancy, Sent)), P.LineOf(world, P.At(s.occupancy, Sent)), s.lanes.sent);
    LaneGrown(P.LineOf(was, P.At(s.occupancy, Received)), P.LineOf(world, P.At(s.occupancy, Received)),
              s.lanes.received);
  }

  lemma LaneGrown(was: P.Line, line: P.Line, l: Lane)
    requires LineGrows(was, line)
    ensures TrueLane(l, was) ==> TrueLane(l, line)
  {
    if TrueLane(l, was) && l.cut.None? { BytesKept(was, line, l.numbered); }
  }

  lemma WriteGrown(was: P.World, world: P.World, w: Write)
    requires forall at :: LineGrows(P.LineOf(was, at), P.LineOf(world, at))
    ensures Exact(was, w) ==> Exact(world, w)
  {
    hide P.LineOf;
    if Exact(was, w) {
      var n := w.transfer.sequence.number;
      var l, m := P.LineOf(was, EventPlace(w.transfer)), P.LineOf(world, EventPlace(w.transfer));
      BytesKept(l, m, n);
      BytesKept(l, m, n - 1);
    }
  }

  lemma TargetReady(y: System, t: Transfer)
    requires True(y)
    ensures var s := Target(y.capture, t); Ready(y.world, s, t) && Continues(s, t)
  {
    hide FreshStream, Known, Bytes;
    FreshReady(y.world, y.capture.observing, y.capture.next + 1, t);
    FreshNamed(y.capture.observing, y.capture.next + 1, t);
    assert t.Key() in y.capture.open ==> TrueStream(y.world, y.capture.streams[y.capture.open[t.Key()]]);
  }

  /** The streams a placed transfer leaves. */
  lemma PlacedStreams(y: System, t: Transfer, r: State)
    requires True(y) && !Idle(y.capture, t) && EventOk(P.LineOf(y.world, EventPlace(t)), t)
    requires r.streams == Others(y.capture, t)[Target(y.capture, t).id := PlaceIn(Target(y.capture, t), t)]
    ensures forall id :: id in r.streams ==> TrueStream(y.world, r.streams[id])
    ensures forall id :: id in y.capture.streams ==>
              id in r.streams && CutsStand(y.capture.streams[id], r.streams[id])
  {
    hide TrueStream, PlaceIn, RetireIn, Target, FreshStream, Continues, CutsStand, Ready, EventOk, Numbers, Placeless,
      Obsolete;
    var c := y.capture;
    TargetReady(y, t);
    PlaceTrue(y.world, Target(c, t), t);
    TargetNamed(c, t);
    CutsReflexive(c);
    if t.Key() in c.open {
      EndingsTrue(y.world, c.streams[c.open[t.Key()]], NoClosing, []);
    }
  }

  lemma CutsReflexive(c: State)
    ensures forall id :: id in c.streams ==> CutsStand(c.streams[id], c.streams[id])
  {
  }

  lemma TargetNamed(c: State, t: Transfer)
    requires WellFormed(c)
    ensures t.Key() in c.open && !Retires(c, t) ==> Target(c, t) == c.streams[c.open[t.Key()]]
    ensures t.Key() !in c.open || Retires(c, t) ==> Target(c, t).id == c.next + 1
    ensures SameConnection(Target(c, t), PlaceIn(Target(c, t), t))
  {
    hide PlaceIn;
  }

  lemma OpenAfter(c: State, t: Transfer, r: State)
    requires WellFormed(c) && r.open == c.open[t.Key() := Target(c, t).id]
    ensures Target(c, t).id in r.open.Values
    ensures forall id :: id in c.streams && id !in c.open.Values ==> id !in r.open.Values
    ensures Retires(c, t) ==> c.open[t.Key()] !in r.open.Values
  {
    TargetNamed(c, t);
    hide Target, Continues;
    assert r.open[t.Key()] == Target(c, t).id;
    if t.Key() in c.open {
      Unshared(c, t.Key());
      assert c.open[t.Key()] in c.open.Values;
    }
  }

  lemma OfferedBacked(y: System, t: Transfer)
    requires True(y) && EventOk(P.LineOf(y.world, EventPlace(t)), t) && !Idle(y.capture, t)
    ensures var s := Target(y.capture, t); Offers(s, t) ==> Backed(y.world, PlaceIn(s, t), WriteOf(s, t))
  {
    var s := Target(y.capture, t);
    TargetReady(y, t);
    if Offers(s, t) {
      FragmentTrue(y.world, s, t);
      OffsetWithin(y.world, s, t);
    }
  }

  lemma OffsetWithin(world: P.World, s: Stream, t: Transfer)
    requires Offers(s, t)
    ensures WriteOf(s, t).fragment.offset <= PlaceIn(s, t).lanes.Of(t.direction).offset
  {
    hide Number, Bind, EvidenceOf;
  }

  lemma RetiredFinished(y: System, t: Transfer, r: System)
    requires True(y) && WellFormed(r.capture) && r.world == y.world && Retires(y.capture, t)
    requires y.capture.next <= r.capture.next && y.capture.open[t.Key()] !in r.capture.open.Values
    requires forall w :: Offered(r, w) && !Offered(y, w) ==> w.fragment.connection == y.capture.next + 1
    ensures Finished(r, Capture.Ended(RetireIn(y.capture.streams[y.capture.open[t.Key()]]), EndingUnobserved, t.at))
  {
    var s := y.capture.streams[y.capture.open[t.Key()]];
    assert TrueStream(y.world, s);
    EndingsTrue(y.world, s, NoClosing, []);
    hide TrueStream, RetireIn, Exact;
    assert RetireIn(s).id == s.id;
    forall w | Offered(r, w) && w.fragment.connection == s.id ensures TrueWrite(r.world, RetireIn(s), w) {
      BackedOnward(y.world, s, RetireIn(s), w);
    }
  }

  lemma DeliverTrue(y: System, i: nat, taking: Taking)
    requires True(y) && i < |y.world.submitted|
    ensures True(Happen(y, Deliver(i, taking)))
  {
    hide TrueStream, Backed, TrueWrite, Place, PlaceIn, Target, RetireIn, WriteOf, CutsStand, Others, Idle, Offers,
      EventOk, Continues, Finished, Retires;
    var t, c := y.world.submitted[i].transfer, y.capture;
    var r := Happen(y, Deliver(i, taking));
    SubmittedOk(y.world, i);
    if Idle(c, t) {
      IdleEffect(c, t, Accepted, taking);
      IdleTrue(y, r);
    } else {
      PlaceEffect(c, t, taking);
      OpenAfter(c, t, r.capture);
      PlacedStreams(y, t, r.capture);
      OfferedBacked(y, t);
      TargetNamed(c, t);
      if Retires(c, t) { RetiredFinished(y, t, r); }
      OnwardTrue(y, r);
    }
  }

  lemma SubmittedOk(world: P.World, i: nat)
    requires Numbers(world) && i < |world.submitted|
    ensures var t := world.submitted[i].transfer; EventOk(P.LineOf(world, EventPlace(t)), t)
  {
    assert world.submitted[i] in world.submitted;
  }

  /** The counters play no part. */
  lemma IdleTrue(y: System, r: System)
    requires True(y) && r.world == y.world && r.pending == y.pending
    requires r.capture == y.capture.(stats := r.capture.stats)
    ensures True(r)
  {
    hide TrueStream, Backed, TrueWrite, Numbers;
    assert forall w :: Offered(r, w) <==> Offered(y, w);
    assert forall e :: Finished(y, e) ==> Finished(r, e);
  }

  lemma AnswerTrue(y: System, k: nat, answer: Answer)
    requires True(y) && k < |y.pending|
    ensures True(Happen(y, Answered(k, answer)))
  {
    hide TrueStream, Backed, TrueWrite, CutsStand, RefuseWrite, Finished, Numbers;
    var w := y.pending[k];
    var r := Happen(y, Answered(k, answer));
    assert Offered(y, w);
    PendingLess(y.pending, k);
    CutsReflexive(y.capture);
    if !answer.Accepted? {
      WithinStream(y.world, y.capture.streams[w.fragment.connection], w);
      RefuseWriteTrue(y.world, y.capture.streams[w.fragment.connection], w.fragment, answer.RefusedAtLimit?);
    }
    OnwardTrue(y, r);
  }

  lemma WithinStream(world: P.World, s: Stream, w: Write)
    requires Backed(world, s, w)
    ensures w.fragment.offset <= s.lanes.Of(w.fragment.direction).offset
  {
  }

  lemma PendingLess(pending: seq<Write>, k: nat)
    requires k < |pending|
    ensures forall w :: w in pending[..k] + pending[k + 1..] ==> w in pending
  {
  }

  lemma GateTrue(y: System, i: nat)
    requires True(y) && i < |y.world.submitted|
    ensures True(Happen(y, Gate(i)))
  {
    hide TrueStream, Backed, TrueWrite, CutsStand, RefuseStep, RefuseIn, Finished, Numbers;
    var t, c := y.world.submitted[i].transfer, y.capture;
    RefuseEffect(c, t);
    CutsReflexive(c);
    if Refusable(c, t) {
      RefusalTrue(y.world, c.streams[c.open[t.Key()]], t);
    }
    OnwardTrue(y, Happen(y, Gate(i)));
  }

  lemma EndTrue(y: System, input: Input, c: State)
    requires True(y) && (input.Closed? || input.Finished?) && WellFormed(c) && EndsAs(y.capture, input, c)
    ensures True(y.(capture := c))
  {
    hide TrueStream, Backed, TrueWrite, CutsStand, RetireIn, CloseIn, FinishIn, Numbers, Finished;
    var r := y.(capture := c);
    CutsReflexive(y.capture);
    assert forall w :: Offered(r, w) <==> Offered(y, w);
    if EndedBy(y.capture, input).Some? {
      var key := EndingKey(input);
      var s := y.capture.streams[y.capture.open[key]];
      EndingsTrue(y.world, s, if input.Closed? then input.closing else NoClosing,
                  if input.Finished? then input.asked else []);
      Unshared(y.capture, key);
      EndedFinished(y, r, s, EndedBy(y.capture, input).value);
    }
    OnwardTrue(y, r);
  }

  lemma EndedFinished(y: System, r: System, s: Stream, e: Capture.Ended)
    requires True(y) && r.world == y.world && s.id in y.capture.streams && s == y.capture.streams[s.id]
    requires e.stream.id == s.id && CutsStand(s, e.stream)
    requires s.id in r.capture.streams && s.id !in r.capture.open.Values
    requires forall w :: Offered(r, w) ==> Offered(y, w)
    ensures Finished(r, e)
  {
    hide TrueStream, Exact, CutsStand, Numbers, Backed;
    forall w | Offered(r, w) && w.fragment.connection == s.id ensures TrueWrite(r.world, e.stream, w) {
      BackedOnward(y.world, s, e.stream, w);
      BackedTrue(y.world, e.stream, w);
    }
  }

  lemma BackedTrue(world: P.World, s: Stream, w: Write)
    requires Backed(world, s, w)
    ensures TrueWrite(world, s, w)
  {
  }

  lemma HappenTrue(y: System, e: Event)
    requires Sane(y) && True(y)
    ensures True(Happen(y, e))
  {
    hide True, P.Make, Place, Settle, RefuseStep, CloseStep, FinishStep, EndsAs;
    match e
    case Produce(step) => MakeTrue(y, step);
    case Deliver(i, taking) => if i < |y.world.submitted| { DeliverTrue(y, i, taking); }
    case Answered(k, answer) => if k < |y.pending| { AnswerTrue(y, k, answer); }
    case Gate(i) => if i < |y.world.submitted| { GateTrue(y, i); }
    case Ended(closing, taking) =>
      CloseEffect(y.capture, closing, taking);
      EndTrue(y, Closed(closing), CloseStep(y.capture, closing, taking));
    case Finish(key, asked, at, taking) =>
      FinishEffect(y.capture, key, asked, at, taking);
      EndTrue(y, Input.Finished(key, asked, at), FinishStep(y.capture, key, asked, at, taking));
  }

  lemma MakeTrue(y: System, step: P.Step)
    requires True(y)
    ensures True(y.(world := P.Make(y.world, step)))
  {
    hide P.Make, TrueStream, Backed, Finished;
    MakeKeeps(y.world, step);
    GrownTrue(y, P.Make(y.world, step));
  }

  function Start(observing: Observing): (y: System)
    ensures Sane(y)
  {
    System(P.Quiet, Opening(observing), [])
  }

  function History(observing: Observing, events: seq<Event>): (y: System)
    ensures Sane(y)
  {
    if events == [] then Start(observing)
    else Happen(History(observing, events[..|events| - 1]), events[|events| - 1])
  }

  lemma {:induction false} HistoryTrue(observing: Observing, events: seq<Event>)
    ensures True(History(observing, events))
  {
    if events != [] {
      HistoryTrue(observing, events[..|events| - 1]);
      HappenTrue(History(observing, events[..|events| - 1]), events[|events| - 1]);
    }
  }

  /** What a connection record of this stream says of a fragment's offset. */
  predicate CalledPlaceable(s: Stream, w: Write) { Placed(s, w.fragment.direction).Placeable(w.fragment.offset) }

  /** End to end. Whatever the threads did, whatever the ring lost, repeated or
      reordered, whatever the sinks refused and however many deliverers there
      were: a fragment offered, whose offset its connection's placement calls
      placeable, now or in any record made of the connection, begins exactly where
      the bytes of every lower-numbered call of its occupancy and direction end. */
  lemma PlaceableIsPlaced(observing: Observing, events: seq<Event>, w: Write)
    requires Offered(History(observing, events), w)
    ensures var y := History(observing, events);
            && w.fragment.connection in y.capture.streams
            && (CalledPlaceable(y.capture.streams[w.fragment.connection], w) ==> Exact(y.world, w))
            && (forall e :: e in y.capture.ended && e.stream.id == w.fragment.connection ==>
                  (CalledPlaceable(e.stream, w) ==> Exact(y.world, w)))
  {
    hide Exact, Numbers, TrueStream;
    HistoryTrue(observing, events);
    var y := History(observing, events);
    forall e | e in y.capture.ended && e.stream.id == w.fragment.connection
      ensures CalledPlaceable(e.stream, w) ==> Exact(y.world, w)
    {
      assert Finished(y, e);
    }
  }
}
