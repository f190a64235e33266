/** Every rule an evidence is checked by holds of what capture takes, with one
    exception: a stream told of more empty transfers than numbers. */
module EvidenceLaws {
  import opened Values
  import opened Connection
  import opened Evidence
  import opened Probe
  import opened Capture
  import opened CaptureEffects
  import opened LaterWord

  /** A direction's numbers: the first seen, the highest, and the run from one. */
  predicate LaneNumbered(l: Lane) {
    && l.first <= l.numbered
    && (l.numbered != 0 ==> l.first != 0)
    && l.resolved <= l.numbered
    && (l.resolved != 0 ==> l.first == 1)
  }

  /** Where nothing is cut, every number seen is accounted for. */
  predicate LaneResolved(l: Lane) { l.cut.None? ==> l.resolved == l.numbered }

  predicate OriginKept(s: Stream) {
    && (s.occupancy == 0 ==> s.origin == OriginUnestablished)
    && (s.origin == OriginUnestablished ==> CutAtZero(s.lanes.sent) && CutAtZero(s.lanes.received))
  }

  predicate Numbered(s: Stream) { LaneNumbered(s.lanes.sent) && LaneNumbered(s.lanes.received) }

  predicate Evident(s: Stream) {
    && StreamSound(s) && Numbered(s) && OriginKept(s)
    && (s.loss == NotStopped ==> LaneResolved(s.lanes.sent) && LaneResolved(s.lanes.received))
  }

  /** What a stream just begun satisfies: its origin is kept once it is numbered. */
  predicate Begun(s: Stream, t: Transfer) {
    && StreamSound(s) && Numbered(s) && LaneResolved(s.lanes.sent) && LaneResolved(s.lanes.received)
    && (s.occupancy == 0 ==> s.origin == OriginUnestablished)
    && (s.origin == OriginUnestablished ==>
          (CutAtZero(s.lanes.sent) && CutAtZero(s.lanes.received)) ||
          (t.sequence.occupancy == 0 && s.lanes == Both(FreshLane, FreshLane)))
  }

  lemma NumberLaneKeeps(l: Lane, q: Sequence)
    requires LaneNumbered(l) && LaneSound(l)
    ensures var m := NumberLane(l, q);
            && LaneNumbered(m)
            && (CutAtZero(l) ==> CutAtZero(m))
            && m.resolved == l.resolved
            && (m.cut.None? ==> l.cut.None? && q.number == l.numbered + 1 && m.numbered == q.number)
            && (q.number == l.numbered + 1 ==> m.numbered == q.number && (l.numbered == 0 ==> m.first == 1))
  {
  }

  lemma ResolveKeeps(l: Lane, m: Lane, q: Sequence)
    requires LaneNumbered(l) && LaneSound(l) && LaneResolved(l) && LaneNumbered(m)
    requires m.cut == NumberLane(l, q).cut && m.numbered == NumberLane(l, q).numbered
    requires m.first == NumberLane(l, q).first && m.resolved == l.resolved
    ensures var r := Resolve(m, q.number, q.number == l.numbered + 1); LaneNumbered(r) && LaneResolved(r)
  {
    hide NumberLane;
    NumberLaneKeeps(l, q);
  }

  lemma ResolveNumbered(l: Lane, m: Lane, q: Sequence)
    requires LaneNumbered(l) && LaneSound(l) && LaneNumbered(m)
    requires m.numbered == NumberLane(l, q).numbered
    requires m.first == NumberLane(l, q).first && m.resolved == l.resolved
    ensures LaneNumbered(Resolve(m, q.number, q.number == l.numbered + 1))
  {
    hide NumberLane;
    NumberLaneKeeps(l, q);
  }

  /** Numbering establishes a begun stream's origin and keeps every stream's. */
  lemma NumberKeeps(s: Stream, t: Transfer)
    requires Begun(s, t) || Evident(s)
    ensures Numbered(Number(s, t)) && OriginKept(Number(s, t))
    ensures s.loss == NotStopped ==> LaneResolved(Number(s, t).lanes.Of(Other(t.direction)))
  {
    hide NumberLane;
    if t.sequence.occupancy != 0 {
      NumberLaneKeeps(s.lanes.Of(t.direction), t.sequence);
    }
  }

  lemma EmptyKeeps(s: Stream, t: Transfer)
    requires Begun(s, t) || Evident(s)
    requires t.measured && t.length == 0
    ensures Evident(PlaceEmpty(s, t))
  {
    hide NumberLane, Number, LaneSound, LaneExtends;
    PlaceExtends(s, t);
    NumberExtends(s, t);
    NumberKeeps(s, t);
    NumberShape(s, t);
    var l := s.lanes.Of(t.direction);
    var m := Number(s, t).lanes.Of(t.direction);
    if t.sequence.occupancy != 0 {
      NumberLaneKeeps(l, t.sequence);
      ResolveNumbered(l, m.(empties := m.empties + 1), t.sequence);
      if s.loss == NotStopped {
        ResolveKeeps(l, m.(empties := m.empties + 1), t.sequence);
      }
    }
  }

  /** What numbering leaves in the lane it is about, and the other. */
  lemma NumberShape(s: Stream, t: Transfer)
    ensures t.sequence.occupancy != 0 ==>
              Number(s, t).lanes.Of(t.direction) == NumberLane(s.lanes.Of(t.direction), t.sequence)
    ensures t.sequence.occupancy == 0 ==>
              Number(s, t).lanes.sent.cut.Some? && Number(s, t).lanes.received.cut.Some?
    ensures SameConnection(s, Number(s, t)) && Number(s, t).loss == s.loss
  {
    hide NumberLane;
  }

  lemma FragmentKeeps(s: Stream, t: Transfer)
    requires Begun(s, t) || Evident(s)
    requires Offers(s, t)
    ensures Evident(PlaceFragment(s, t))
  {
    hide NumberLane, Number, Bind;
    PlaceExtends(s, t);
    NumberExtends(s, t);
    NumberKeeps(s, t);
    NumberShape(s, t);
    var l := s.lanes.Of(t.direction);
    var m := Number(s, t).lanes.Of(t.direction);
    AdvanceExtends(m, t, IsNext(s, t));
    if t.sequence.occupancy != 0 {
      NumberLaneKeeps(l, t.sequence);
      ResolveKeeps(l, m.(carried := true, offset := m.offset + t.length, empties := 0,
                         binding := Some(Bind(m.binding, t))), t.sequence);
    }
  }

  lemma UnmeasuredKeeps(s: Stream, t: Transfer)
    requires Begun(s, t) || Evident(s)
    requires !t.measured && (Moved(t) || t.early)
    ensures Begun(s, t) && !Moved(t) ==> OriginKept(s)
    ensures Evident(PlaceUnmeasured(s, t))
  {
    hide NumberLane, Number, LaneNumbered, LaneSound;
    if Moved(t) {
      CutUnmeasured(if t.early then s.(earlySeen := s.earlySeen + 1) else s, t);
    }
  }

  lemma CutUnmeasured(s: Stream, t: Transfer)
    requires Begun(s, t) || Evident(s)
    ensures Evident(CutHere(Number(s, t), t.direction, LengthUnmeasured, Whole))
  {
    hide NumberLane, Number, CutHere, LaneNumbered, LaneSound, LaneExtends;
    var n := Number(s, t);
    NumberExtends(s, t);
    NumberKeeps(s, t);
    NumberShape(s, t);
    CutHereExtends(n, t.direction, LengthUnmeasured, Whole);
    CutHereKeeps(n, t.direction, LengthUnmeasured, Whole);
  }

  lemma CutHereKeeps(s: Stream, d: Direction, because: Reason, why: Why)
    requires Numbered(s) && OriginKept(s)
    requires s.loss == NotStopped ==> LaneResolved(s.lanes.Of(Other(d)))
    ensures var r := CutHere(s, d, because, why);
            && Numbered(r) && OriginKept(r)
            && (s.loss == NotStopped ==> LaneResolved(r.lanes.sent) && LaneResolved(r.lanes.received))
  {
  }

  lemma PlaceKeeps(s: Stream, t: Transfer)
    requires Begun(s, t) || Evident(s)
    requires !Placeless(t)
    requires Begun(s, t) ==> s.loss == NotStopped || Evident(s)
    ensures Evident(PlaceIn(s, t))
  {
    hide PlaceUnmeasured, PlaceEmpty, PlaceFragment, Number;
    if !t.measured {
      UnmeasuredKeeps(s, t);
    } else if t.length == 0 {
      EmptyKeeps(s, t);
    } else if s.loss == NotStopped {
      FragmentKeeps(s, t);
    } else {
      NumberKeeps(s, t);
      NumberExtends(s, t);
    }
  }

  lemma AfterKeeps(s: Stream, t: Transfer, answer: Answer)
    requires Begun(s, t) || Evident(s)
    requires !Placeless(t)
    requires Begun(s, t) ==> s.loss == NotStopped || Evident(s)
    ensures Evident(After(s, t, answer))
  {
    hide PlaceIn, WriteOf;
    PlaceKeeps(s, t);
    AfterExtends(s, t, answer);
  }

  lemma FreshBegun(observing: Observing, id: nat, t: Transfer)
    ensures Begun(FreshStream(observing, id, t), t) && FreshStream(observing, id, t).loss == NotStopped
  {
  }

  lemma RefusalKeeps(s: Stream, t: Transfer)
    requires Evident(s) && t.sequence.number != 0
    ensures Evident(RefuseIn(s, t))
  {
    RefusalExtends(s, t);
  }

  /** A settled tail moves no number, and never un-cuts. */
  lemma SettleKeeps(s: Stream, final: Final, ending: bool)
    requires Evident(s)
    ensures Evident(SettleTail(s, final, ending))
  {
    hide Located;
    SettleExtends(s, final, ending);
  }

  lemma EndingsKeep(s: Stream, e: Closing, asked: seq<Settling>)
    requires Evident(s)
    ensures Evident(RetireIn(s)) && Evident(CloseIn(s, e)) && Evident(FinishIn(s, asked))
  {
    hide SettleTail, VerdictOf;
    EndingsExtend(s, e, asked);
    SettleKeeps(NoteUnlocated(s, e.unlocated), e.final, true);
    var v := VerdictOf(asked, s.occupancy);
    if v.Settled? {
      SettleKeeps(NoteUnlocated(s, v.unlocated), v.final, false);
    }
  }

  // Whole runs.

  ghost predicate AllEvident(c: State) {
    && WellFormed(c)
    && (forall id :: id in c.streams ==> Evident(c.streams[id]))
    && (forall w :: w in c.delivered ==> Exact(w.fragment.evidence))
  }

  /** The one rule an evidence can break, besides a pid that names no process. */
  predicate Exact(e: Evidence) {
    e.Valid() <==>
    e.identity.process.pid > 0 && e.directions.sent.empties <= e.directions.sent.numbered &&
    e.directions.received.empties <= e.directions.received.numbered
  }

  lemma FragmentExact(s: Stream, t: Transfer)
    requires Evident(PlaceFragment(s, t)) && s.id != 0 && s.loss == NotStopped
    ensures Exact(WriteOf(s, t).fragment.evidence)
  {
    hide PlaceFragment, Number;
    PlacedSequence(s, t);
  }

  lemma PlacedSequence(s: Stream, t: Transfer)
    ensures var r := PlaceFragment(s, t); r.sequence == s.sequence + 1 && r.id == s.id && r.loss == s.loss
  {
  }

  lemma TransferEvident(c: State, t: Transfer, answer: Answer, taking: Taking)
    requires AllEvident(c)
    ensures AllEvident(TransferStep(c, t, answer, taking))
  {
    hide TransferStep, After, FreshStream, RetireIn, WriteOf, Evident, PlaceIn, Idle, Continues, Exact, PlaceFragment;
    if Idle(c, t) {
      IdleEffect(c, t, answer, taking);
    } else {
      TransferEffect(c, t, answer, taking);
      var s := Target(c, t);
      NotPlaceless(c, t);
      if !(t.Key() in c.open && !Retires(c, t)) {
        FreshBegun(c.observing, c.next + 1, t);
        FreshNamed(c.observing, c.next + 1, t);
      }
      AfterKeeps(s, t, answer);
      PlaceKeeps(s, t);
      if Retires(c, t) {
        EndingsKeep(c.streams[c.open[t.Key()]], NoClosing, []);
      }
      if Offers(s, t) {
        OffersPlaced(s, t);
        FragmentExact(s, t);
      }
    }
  }

  lemma OffersPlaced(s: Stream, t: Transfer)
    requires Offers(s, t)
    ensures PlaceIn(s, t) == PlaceFragment(s, t)
  {
  }

  lemma NotPlaceless(c: State, t: Transfer)
    requires WellFormed(c) && !Idle(c, t)
    ensures !Placeless(t)
  {
  }

  lemma StepEvident(c: State, input: Input, taking: Taking)
    requires AllEvident(c)
    ensures AllEvident(Step(c, input, taking))
  {
    hide TransferStep, RefuseStep, CloseStep, FinishStep, RefuseIn, RetireIn, CloseIn, FinishIn, Evident, Exact;
    match input
    case Transferred(t, answer) => TransferEvident(c, t, answer, taking);
    case Refused(t) =>
      RefuseEffect(c, t);
      if Refusable(c, t) {
        RefusalKeeps(c.streams[c.open[t.Key()]], t);
      }
    case Closed(e) =>
      CloseEffect(c, e, taking);
      if EndedBy(c, input).Some? {
        EndingsKeep(c.streams[c.open[e.Key()]], e, []);
      }
    case Finished(key, asked, at) =>
      FinishEffect(c, key, asked, at, taking);
      if EndedBy(c, input).Some? {
        EndingsKeep(c.streams[c.open[key]], NoClosing, asked);
      }
  }

  lemma {:induction false} RunEvident(c: State, inputs: seq<(Input, Taking)>)
    requires AllEvident(c)
    ensures AllEvident(Run(c, inputs))
  {
    hide Evident, Exact;
    if inputs != [] {
      var before := inputs[..|inputs| - 1];
      RunEvident(c, before);
      StepEvident(Run(c, before), inputs[|inputs| - 1].0, inputs[|inputs| - 1].1);
    }
  }

  /** Of any run, the evidence on a delivered fragment is valid exactly when its
      process is named and no direction counts more empties than numbers. */
  lemma EvidenceExactlyValid(observing: Observing, inputs: seq<(Input, Taking)>, w: Write)
    requires w in Run(Opening(observing), inputs).delivered
    ensures var e := w.fragment.evidence;
            e.Valid() <==>
            e.identity.process.pid > 0 && e.directions.sent.empties <= e.directions.sent.numbered &&
            e.directions.received.empties <= e.directions.received.numbered
  {
    hide Evident, Run;
    RunEvident(Opening(observing), inputs);
  }
}
