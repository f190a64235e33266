/** A later record never contradicts what an earlier fragment said: a cut stays
    where it is, a count of losses only grows, and a direction that was not cut
    is never cut below what an accepted fragment's evidence established. */
module LaterWord {
  import opened Values
  import opened Connection
  import opened Evidence
  import opened Probe
  import opened Capture
  import opened CaptureEffects

  // How a direction may move.

  predicate CutKept(was: Cut, now: Cut) {
    && now.from == was.from && now.because == was.because && was.lost <= now.lost
    && (was.uncounted != Whole ==> now.uncounted == was.uncounted)
  }

  predicate LaneExtends(l: Lane, m: Lane) {
    && (l.carried ==> m.carried)
    && (l.cut.Some? ==> m.cut.Some? && CutKept(l.cut.value, m.cut.value))
    && (l.cut.None? ==> l.offset <= (if m.cut.Some? then m.cut.value.from else m.offset))
  }

  predicate StreamExtends(s: Stream, r: Stream) {
    && SameConnection(s, r) && s.sequence <= r.sequence
    && LaneExtends(s.lanes.sent, r.lanes.sent) && LaneExtends(s.lanes.received, r.lanes.received)
  }

  /** A direction with bytes or a cut is carried, and a cut lies within it. */
  predicate LaneSound(l: Lane) {
    && (l.offset > 0 || l.cut.Some? ==> l.carried)
    && (l.cut.Some? ==> l.cut.value.from <= l.offset)
  }

  predicate CutAtZero(l: Lane) { l.cut.Some? && l.cut.value.from == 0 }

  predicate StreamSound(s: Stream) { LaneSound(s.lanes.sent) && LaneSound(s.lanes.received) }

  lemma CutHereExtends(s: Stream, d: Direction, because: Reason, why: Why)
    requires StreamSound(s)
    ensures var r := CutHere(s, d, because, why);
            StreamExtends(s, r) && StreamSound(r) && SameOffsets(s, r) && r.loss == s.loss && r.sequence == s.sequence
  {
  }

  lemma CutBothExtends(s: Stream, because: Reason, why: Why)
    requires StreamSound(s)
    ensures var r := CutBoth(s, because, why);
            StreamExtends(s, r) && StreamSound(r) && SameOffsets(s, r) && r.loss == s.loss && r.sequence == s.sequence
  {
    hide CutHere;
    CutHereExtends(s, Sent, because, why);
    CutHereExtends(CutHere(s, Sent, because, why), Received, because, why);
  }

  predicate SameOffsets(s: Stream, r: Stream) {
    r.lanes.sent.offset == s.lanes.sent.offset && r.lanes.received.offset == s.lanes.received.offset
  }

  lemma NumberLaneExtends(l: Lane, q: Sequence)
    requires LaneSound(l)
    ensures var m := NumberLane(l, q); LaneExtends(l, m) && LaneSound(m) && m.offset == l.offset
  {
  }

  lemma NumberExtends(s: Stream, t: Transfer)
    requires StreamSound(s)
    ensures var r := Number(s, t);
            StreamExtends(s, r) && StreamSound(r) && SameOffsets(s, r) && r.loss == s.loss && r.sequence == s.sequence
  {
    hide CutBoth, NumberLane;
    CutBothExtends(NoteUnlocated(s, t.sequence.unlocated), SequenceUnavailable, NoSequenceKept);
    NumberLaneExtends(s.lanes.Of(t.direction), t.sequence);
  }

  lemma AdvanceExtends(l: Lane, t: Transfer, next: bool)
    requires LaneSound(l)
    ensures var m := Advance(l, t, next);
            LaneExtends(l, m) && LaneSound(m) && m.offset == l.offset + t.length && m.cut == l.cut
  {
    hide Bind;
  }

  lemma PlaceExtends(s: Stream, t: Transfer)
    requires StreamSound(s)
    ensures StreamExtends(s, PlaceIn(s, t)) && StreamSound(PlaceIn(s, t))
  {
    hide Number, PlaceIn, PlacedLane, LaneExtends, LaneSound;
    SequenceGrows(s, t);
    if t.measured || Moved(t) {
      var n := Number(s, t);
      NumberExtends(s, t);
      PlacedShape(s, t);
      var l, m := s.lanes.Of(t.direction), n.lanes.Of(t.direction);
      PlacedExtends(m, s, t);
      LaneOnward(l, m, PlacedLane(m, s, t));
    } else {
      EarlyExtends(s, t);
    }
  }

  lemma PlacedExtends(l: Lane, s: Stream, t: Transfer)
    requires LaneSound(l)
    ensures LaneExtends(l, PlacedLane(l, s, t)) && LaneSound(PlacedLane(l, s, t))
  {
    hide Bind;
  }

  lemma LaneOnward(l: Lane, m: Lane, k: Lane)
    requires LaneExtends(l, m) && LaneExtends(m, k)
    ensures LaneExtends(l, k)
  {
  }

  lemma SequenceGrows(s: Stream, t: Transfer)
    ensures s.sequence <= PlaceIn(s, t).sequence
  {
    hide Advance, EvidenceOf;
    NumberKeepsSequence(s, t);
    NumberKeepsSequence(s.(earlySeen := s.earlySeen + 1), t);
    hide Number;
  }

  lemma NumberKeepsSequence(s: Stream, t: Transfer)
    ensures Number(s, t).sequence == s.sequence
  {
  }

  lemma EarlyExtends(s: Stream, t: Transfer)
    requires StreamSound(s) && !t.measured && !Moved(t)
    ensures StreamExtends(s, PlaceIn(s, t)) && StreamSound(PlaceIn(s, t))
  {
  }

  lemma AfterExtends(s: Stream, t: Transfer, answer: Answer)
    requires StreamSound(s)
    ensures StreamExtends(s, After(s, t, answer)) && StreamSound(After(s, t, answer))
  {
    hide Number, Advance, EvidenceOf;
    NumberExtends(s, t);
    PlaceExtends(s, t);
    AdvanceExtends(Number(s, t).lanes.Of(t.direction), t, IsNext(s, t));
  }

  lemma SettleExtends(s: Stream, final: Final, ending: bool)
    requires StreamSound(s)
    ensures StreamExtends(s, SettleTail(s, final, ending)) && StreamSound(SettleTail(s, final, ending))
  {
    hide SettleLane, CutBoth, LaneExtends, LaneSound;
    CutBothExtends(s, TerminalUnsettled, NoOccupancyAtEnd);
    SettleLaneExtends(s.lanes.sent, final.terminals.sent, ending);
    SettleLaneExtends(s.lanes.received, final.terminals.received, ending);
  }

  lemma SettleLaneExtends(l: Lane, t: Terminal, ending: bool)
    requires LaneSound(l)
    ensures LaneExtends(l, SettleLane(l, t, ending)) && LaneSound(SettleLane(l, t, ending))
  {
    hide Located;
  }

  lemma EndingsExtend(s: Stream, e: Closing, asked: seq<Settling>)
    requires StreamSound(s)
    ensures StreamExtends(s, RetireIn(s)) && StreamSound(RetireIn(s))
    ensures StreamExtends(s, CloseIn(s, e)) && StreamSound(CloseIn(s, e))
    ensures StreamExtends(s, FinishIn(s, asked)) && StreamSound(FinishIn(s, asked))
  {
    hide SettleTail, VerdictOf, CutBoth, LaneExtends, LaneSound;
    CutBothExtends(s, TerminalUnsettled, EndingUndelivered);
    StreamReflexive(s);
    SettleExtends(NoteUnlocated(s, e.unlocated), e.final, true);
    var v := VerdictOf(asked, s.occupancy);
    if v.Settled? {
      SettleExtends(NoteUnlocated(s, v.unlocated), v.final, false);
    } else {
      CutBothExtends(s, TerminalUnsettled, v.why);
    }
  }

  lemma StreamReflexive(s: Stream)
    ensures StreamExtends(s, s)
  {
  }

  lemma RefusedLaneExtends(l: Lane, q: Sequence)
    requires LaneSound(l)
    ensures LaneExtends(l, RefuseLane(l, q)) && LaneSound(RefuseLane(l, q))
  {
  }

  lemma RefusalExtends(s: Stream, t: Transfer)
    requires StreamSound(s)
    ensures StreamExtends(s, RefuseIn(s, t)) && StreamSound(RefuseIn(s, t))
  {
    hide RefuseLane;
    RefusedLaneExtends(s.lanes.Of(t.direction), t.sequence);
  }

  // What an evidence leaves room for.

  predicate LaneBacks(l: Lane, e: DirectionEvidence) {
    && (e.cut ==>
          && l.cut.Some? && l.cut.value.from == e.from && e.lost <= l.cut.value.lost
          && (e.lostUncounted ==> l.cut.value.uncounted != Whole))
    && (!e.cut ==> e.limit <= (if l.cut.Some? then l.cut.value.from else l.offset))
    && (e.cut || e.limit > 0 ==> l.carried)
  }

  predicate Backs(s: Stream, e: Evidence) {
    && e.identity == IdentityOf(s) && 1 <= e.through <= s.sequence
    && LaneBacks(s.lanes.sent, e.directions.sent) && LaneBacks(s.lanes.received, e.directions.received)
  }

  lemma BacksOnward(s: Stream, r: Stream, e: Evidence)
    requires Backs(s, e) && StreamExtends(s, r)
    ensures Backs(r, e)
  {
  }

  /** A fragment's own evidence is backed by the stream it was placed in. */
  lemma BacksItself(s: Stream, t: Transfer)
    requires StreamSound(s) && Offers(s, t)
    ensures Backs(PlaceIn(s, t), WriteOf(s, t).fragment.evidence)
  {
    hide Number, Advance;
    NumberExtends(s, t);
    PlaceExtends(s, t);
  }

  lemma PlacementOf(s: Stream, how: Ending, at: Time, d: Direction)
    ensures PlacementIn(RecordOf(s, how, at).placements, d) ==
            if s.lanes.Of(d).carried then Some(Placed(s, d)) else None
  {
    var placements := RecordOf(s, how, at).placements;
    if s.lanes.sent.carried && s.lanes.received.carried {
      assert placements == [Placed(s, Sent), Placed(s, Received)];
    } else if s.lanes.sent.carried {
      assert placements == [Placed(s, Sent)];
    } else if s.lanes.received.carried {
      assert placements == [Placed(s, Received)];
    } else {
      assert placements == [];
    }
  }

  /** Against a record of a stream that backs it, the only thing an evidence can
      fail on is its own validity. */
  lemma BackedAgrees(s: Stream, e: Evidence, how: Ending, at: Time)
    requires Backs(s, e)
    ensures Agrees(RecordOf(s, how, at), e) <==> e.Valid()
  {
    hide Associated;
    PlacementOf(s, how, at, Sent);
    PlacementOf(s, how, at, Received);
  }

  // Whole runs.

  ghost predicate Sound(c: State) {
    && WellFormed(c)
    && (forall id :: id in c.streams ==> StreamSound(c.streams[id]))
    && (forall w :: w in c.delivered ==>
          && w.fragment.connection in c.streams
          && Backs(c.streams[w.fragment.connection], w.fragment.evidence))
    && (forall e :: e in c.ended ==> Over(c, e))
  }

  /** An ended stream stands as it ended, and no handle names it. */
  ghost predicate Over(c: State, e: Ended) {
    && e.stream.id in c.streams && c.streams[e.stream.id] == e.stream
    && e.stream.id !in c.open.Values
  }

  /** That a step moved streams only forward, and ended ones not at all. */
  ghost predicate Onward(c: State, r: State) {
    && (forall id :: id in c.streams ==> id in r.streams && StreamExtends(c.streams[id], r.streams[id]))
    && (forall id :: id in c.streams && id !in c.open.Values ==>
          r.streams[id] == c.streams[id] && id !in r.open.Values)
  }

  lemma OnwardSound(c: State, r: State)
    requires Sound(c) && WellFormed(r) && Onward(c, r)
    requires forall id :: id in r.streams ==> StreamSound(r.streams[id])
    requires forall w :: w in r.delivered && w !in c.delivered ==>
               (w.fragment.connection in r.streams && Backs(r.streams[w.fragment.connection], w.fragment.evidence))
    requires forall e :: e in r.ended && e !in c.ended ==> Over(r, e)
    ensures Sound(r)
  {
    forall w | w in r.delivered && w in c.delivered
      ensures w.fragment.connection in r.streams && Backs(r.streams[w.fragment.connection], w.fragment.evidence)
    {
      BacksOnward(c.streams[w.fragment.connection], r.streams[w.fragment.connection], w.fragment.evidence);
    }
  }

  lemma Unshared(c: State, key: StreamKey)
    requires WellFormed(c) && key in c.open
    ensures forall k :: k in c.open && c.open[k] == c.open[key] ==> k == key
  {
  }

  lemma TransferSound(c: State, t: Transfer, answer: Answer, taking: Taking)
    requires Sound(c)
    ensures Sound(TransferStep(c, t, answer, taking))
  {
    hide TransferStep, After, FreshStream, RetireIn, WriteOf, StreamExtends, Backs, StreamSound, PlaceIn, Target, Idle,
      Offers, Continues;
    var r := TransferStep(c, t, answer, taking);
    if Idle(c, t) {
      IdleEffect(c, t, answer, taking);
    } else {
      TransferEffect(c, t, answer, taking);
      TransferOnward(c, t, answer, r);
      var s := Target(c, t);
      if Offers(s, t) && answer.Accepted? {
        TargetSound(c, t);
        BacksItself(s, t);
        AcceptedIsPlaced(s, t, answer);
      }
      OnwardSound(c, r);
    }
  }

  lemma TransferOnward(c: State, t: Transfer, answer: Answer, r: State)
    requires Sound(c)
    requires r.streams == Others(c, t)[Target(c, t).id := After(Target(c, t), t, answer)]
    requires r.open == c.open[t.Key() := Target(c, t).id]
    ensures Onward(c, r)
    ensures forall id :: id in r.streams ==> StreamSound(r.streams[id])
    ensures Retires(c, t) ==> Over(r, Ended(RetireIn(c.streams[c.open[t.Key()]]), EndingUnobserved, t.at))
  {
    hide After, FreshStream, RetireIn, StreamExtends, StreamSound, Target, Continues, Backs;
    TargetSound(c, t);
    AfterExtends(Target(c, t), t, answer);
    StreamsReflexive(c);
    if t.Key() in c.open {
      RetiringExtends(c.streams[c.open[t.Key()]]);
      Unshared(c, t.Key());
      assert c.open[t.Key()] in c.open.Values;
    }
    SoundTarget(c, t, answer);
  }

  lemma RetiringExtends(s: Stream)
    requires StreamSound(s)
    ensures StreamExtends(s, RetireIn(s)) && StreamSound(RetireIn(s)) && RetireIn(s).id == s.id
  {
    hide RetireIn, CloseIn, FinishIn;
    EndingsExtend(s, NoClosing, []);
  }

  lemma SoundTarget(c: State, t: Transfer, answer: Answer)
    requires WellFormed(c)
    ensures After(Target(c, t), t, answer).id == Target(c, t).id
  {
    hide FreshStream;
  }

  lemma AcceptedIsPlaced(s: Stream, t: Transfer, answer: Answer)
    requires answer.Accepted?
    ensures After(s, t, answer) == PlaceIn(s, t)
  {
  }

  lemma TargetSound(c: State, t: Transfer)
    requires Sound(c)
    ensures StreamSound(Target(c, t))
    ensures t.Key() in c.open && !Retires(c, t) ==> Target(c, t) == c.streams[c.open[t.Key()]]
    ensures t.Key() !in c.open || Retires(c, t) ==> Target(c, t).id == c.next + 1
  {
  }

  lemma StreamsReflexive(c: State)
    ensures forall id :: id in c.streams ==> StreamExtends(c.streams[id], c.streams[id])
  {
  }

  lemma RefuseSound(c: State, t: Transfer)
    requires Sound(c)
    ensures Sound(RefuseStep(c, t))
  {
    hide RefuseStep, RefuseIn, StreamExtends, StreamSound, Backs;
    RefuseEffect(c, t);
    StreamsReflexive(c);
    if Refusable(c, t) {
      RefusalExtends(c.streams[c.open[t.Key()]], t);
      assert c.open[t.Key()] in c.open.Values;
    }
    OnwardSound(c, RefuseStep(c, t));
  }

  lemma EndSound(c: State, input: Input, r: State)
    requires Sound(c) && WellFormed(r) && (input.Closed? || input.Finished?) && EndsAs(c, input, r)
    ensures Sound(r)
  {
    hide RetireIn, CloseIn, FinishIn, StreamExtends, StreamSound, Backs;
    StreamsReflexive(c);
    if EndedBy(c, input).Some? {
      var s := c.streams[c.open[EndingKey(input)]];
      EndingsExtend(s, if input.Closed? then input.closing else NoClosing, if input.Finished? then input.asked else []);
      Unshared(c, EndingKey(input));
      assert c.open[EndingKey(input)] in c.open.Values;
    }
    OnwardSound(c, r);
  }

  const NoClosing := Closing(Instance(InstanceKey(Namespace(0, 0), 0, 0), Start(false, 0)), 0, 0, 0,
                             Final(false, Both(Terminal(0, 0, false), Terminal(0, 0, false)), false), 0)

  lemma StepSound(c: State, input: Input, taking: Taking)
    requires Sound(c)
    ensures Sound(Step(c, input, taking))
  {
    match input
    case Transferred(t, answer) => TransferSound(c, t, answer, taking);
    case Refused(t) => RefuseSound(c, t);
    case Closed(e) =>
      CloseEffect(c, e, taking);
      EndSound(c, input, CloseStep(c, e, taking));
    case Finished(key, asked, at) =>
      FinishEffect(c, key, asked, at, taking);
      EndSound(c, input, FinishStep(c, key, asked, at, taking));
  }

  lemma {:induction false} RunSound(c: State, inputs: seq<(Input, Taking)>)
    requires Sound(c)
    ensures Sound(Run(c, inputs))
  {
    if inputs != [] {
      var before := inputs[..|inputs| - 1];
      RunSound(c, before);
      StepSound(Run(c, before), inputs[|inputs| - 1].0, inputs[|inputs| - 1].1);
    }
  }

  /** Whatever happens, with one deliverer: a record of a stream, when it ended or
      of one still followed, agrees with the evidence of every fragment the sink
      accepted of it, exactly when that evidence was valid in itself. */
  lemma RecordsAgree(observing: Observing, inputs: seq<(Input, Taking)>, w: Write, how: Ending, at: Time)
    requires w in Run(Opening(observing), inputs).delivered
    ensures var c := Run(Opening(observing), inputs);
            && w.fragment.connection in c.streams
            && (Agrees(RecordOf(c.streams[w.fragment.connection], how, at), w.fragment.evidence)
                <==> w.fragment.evidence.Valid())
            && (forall e :: e in c.ended && e.stream.id == w.fragment.connection ==>
                  (Agrees(RecordOf(e.stream, e.how, e.at), w.fragment.evidence) <==> w.fragment.evidence.Valid()))
  {
    hide RecordOf, Agrees, Backs, Run;
    RunSound(Opening(observing), inputs);
    var c := Run(Opening(observing), inputs);
    BackedAgrees(c.streams[w.fragment.connection], w.fragment.evidence, how, at);
    forall e | e in c.ended && e.stream.id == w.fragment.connection
      ensures Agrees(RecordOf(e.stream, e.how, e.at), w.fragment.evidence) <==> w.fragment.evidence.Valid()
    {
      BackedAgrees(e.stream, w.fragment.evidence, e.how, e.at);
    }
  }
}
