/** Every record capture makes passes the consumer's check, exactly when what it
    was given names a process, a time and, where bound, a binding generation. */
module RecordLaws {
  import opened Values
  import opened Connection
  import opened Evidence
  import opened Probe
  import opened Capture
  import opened CaptureEffects
  import opened LaterWord

  /** A cut says why; an established binding is still open and names its descriptor. */
  predicate LaneKept(l: Lane) {
    && (l.cut.Some? ==> l.cut.value.because != ReasonUnset)
    && (l.binding.Some? && l.binding.value.state == BoundTo ==>
          l.binding.value.open && l.binding.value.observed && l.binding.value.descriptor.Held?)
  }

  predicate StreamKept(s: Stream) {
    && LaneKept(s.lanes.sent) && LaneKept(s.lanes.received)
    && s.begun.Holds(Unknown)
  }

  /** What a direction's binding must say for its record to stand. */
  predicate LaneDated(l: Lane) {
    l.binding.Some? && l.binding.value.state == BoundTo ==> l.binding.value.generation != 0 && l.binding.value.from != 0
  }

  lemma AssociationExactlyValid(s: Stream, d: Direction)
    requires StreamKept(s)
    ensures Associated(s, d).Valid() <==> (s.lifetime ==> LaneDated(s.lanes.Of(d)))
  {
  }

  lemma PlacementAlwaysValid(s: Stream, d: Direction)
    requires StreamKept(s)
    ensures Placed(s, d).Valid() && Placed(s, d).connection == s.id && Placed(s, d).direction == d
  {
  }

  /** A record of any stream is valid exactly when its identity and times are
      named and its followed bindings are. */
  lemma RecordExactlyValid(s: Stream, how: Ending, at: Time)
    requires StreamKept(s)
    ensures RecordValid(RecordOf(s, how, at)) <==>
            && s.id != 0 && s.instance.key.Valid() && s.firstSeen != 0
            && (how == HandleReleasedEnding || how == SocketClosed ==> at != 0)
            && (s.lifetime && s.lanes.sent.carried ==> LaneDated(s.lanes.sent))
            && (s.lifetime && s.lanes.received.carried ==> LaneDated(s.lanes.received))
  {
    hide Associated, Placed, LaneDated, LaneKept, RecordOf;
    var r := RecordOf(s, how, at);
    AssociationExactlyValid(s, Sent);
    AssociationExactlyValid(s, Received);
    PlacementAlwaysValid(s, Sent);
    PlacementAlwaysValid(s, Received);
    AssociationNames(s, Sent);
    AssociationNames(s, Received);
    RecordCarries(s, how, at);
    RecordHeader(s, how, at);
    if RecordValid(r) {
      assert forall i :: 0 <= i < |r.associations| ==> r.associations[i].Valid();
      if s.lanes.sent.carried { assert r.associations[0] == Associated(s, Sent); }
      if s.lanes.received.carried { assert r.associations[|r.associations| - 1] == Associated(s, Received); }
    }
  }

  lemma RecordHeader(s: Stream, how: Ending, at: Time)
    ensures var r := RecordOf(s, how, at);
            && r.id == s.id && r.handle == Handle(s.instance.key, s.key.endpoint, s.id) && r.firstSeen == s.firstSeen
            && (r.openedKnown ==> r.openedAt != 0)
            && ((r.how == HandleReleasedEnding || r.how == SocketClosed ==> r.ended != 0) <==>
                (how == HandleReleasedEnding || how == SocketClosed ==> at != 0))
  {
    hide Associated, Placed;
  }

  /** The directions a record speaks for are exactly those carried. */
  lemma RecordCarries(s: Stream, how: Ending, at: Time)
    ensures var r := RecordOf(s, how, at);
            && |r.associations| == |r.placements|
            && (s.lanes.sent.carried && s.lanes.received.carried ==>
                  r.associations == [Associated(s, Sent), Associated(s, Received)] &&
                  r.placements == [Placed(s, Sent), Placed(s, Received)])
            && (s.lanes.sent.carried && !s.lanes.received.carried ==>
                  r.associations == [Associated(s, Sent)] && r.placements == [Placed(s, Sent)])
            && (!s.lanes.sent.carried && s.lanes.received.carried ==>
                  r.associations == [Associated(s, Received)] && r.placements == [Placed(s, Received)])
            && (!s.lanes.sent.carried && !s.lanes.received.carried ==> r.associations == [] && r.placements == [])
  {
    hide Associated, Placed;
  }

  lemma AssociationNames(s: Stream, d: Direction)
    ensures Associated(s, d).connection == s.id && Associated(s, d).direction == d
  {
  }

  // What every operation keeps.

  lemma CutHereKept(s: Stream, d: Direction, because: Reason, why: Why)
    requires because != ReasonUnset && StreamKept(s)
    ensures var r := CutHere(s, d, because, why);
            StreamKept(r) && SameBindings(s, r) && SameConnection(s, r)
  {
  }

  lemma CutBothKept(s: Stream, because: Reason, why: Why)
    requires because != ReasonUnset && StreamKept(s)
    ensures var r := CutBoth(s, because, why);
            StreamKept(r) && SameBindings(s, r) && SameConnection(s, r)
  {
    hide CutHere;
    CutHereKept(s, Sent, because, why);
    CutHereKept(CutHere(s, Sent, because, why), Received, because, why);
  }

  predicate SameBindings(s: Stream, r: Stream) {
    r.lanes.sent.binding == s.lanes.sent.binding && r.lanes.received.binding == s.lanes.received.binding
  }

  lemma NumberLaneKept(l: Lane, q: Sequence)
    requires LaneKept(l)
    ensures LaneKept(NumberLane(l, q)) && NumberLane(l, q).binding == l.binding
  {
  }

  lemma NumberKept(s: Stream, t: Transfer)
    requires StreamKept(s)
    ensures var r := Number(s, t); StreamKept(r) && SameBindings(s, r) && SameConnection(s, r)
  {
    hide CutBoth, NumberLane;
    NumberLaneKept(s.lanes.Of(t.direction), t.sequence);
    CutBothKept(NoteUnlocated(s, t.sequence.unlocated), SequenceUnavailable, NoSequenceKept);
  }

  lemma BindKept(was: Option<Binding>, t: Transfer)
    requires was.Some? && was.value.state == BoundTo ==>
               was.value.open && was.value.observed && was.value.descriptor.Held?
    ensures var b := Bind(was, t);
            && (b.state == BoundTo ==> b.open && b.observed && b.descriptor.Held?)
            && (t.at != 0 && (t.bound == BoundTo ==> t.binding != 0) &&
                (was.Some? && was.value.state == BoundTo ==> was.value.generation != 0 && was.value.from != 0) ==>
                  (b.state == BoundTo ==> b.generation != 0 && b.from != 0))
  {
  }

  predicate Dated(s: Stream) { LaneDated(s.lanes.sent) && LaneDated(s.lanes.received) }

  /** A transfer that names a time and, where bound, a binding generation. */
  predicate Informs(t: Transfer) { t.at != 0 && (t.bound == BoundTo ==> t.binding != 0) }

  lemma AdvanceKept(l: Lane, t: Transfer, next: bool)
    requires LaneKept(l)
    ensures LaneKept(Advance(l, t, next))
    ensures LaneDated(l) && Informs(t) ==> LaneDated(Advance(l, t, next))
  {
    hide Bind;
    BindKept(l.binding, t);
  }

  lemma SameDated(s: Stream, r: Stream)
    requires SameBindings(s, r)
    ensures Dated(s) ==> Dated(r)
  {
  }

  lemma EmptyKept(s: Stream, t: Transfer)
    requires StreamKept(s)
    ensures StreamKept(PlaceEmpty(s, t)) && SameBindings(s, PlaceEmpty(s, t)) && (Dated(s) ==> Dated(PlaceEmpty(s, t)))
  {
    hide Number;
    NumberKept(s, t);
  }

  lemma PlaceKept(s: Stream, t: Transfer)
    requires StreamKept(s)
    ensures StreamKept(PlaceIn(s, t))
    ensures Dated(s) && Informs(t) ==> Dated(PlaceIn(s, t))
  {
    hide Number, CutHere, Advance, LaneKept, LaneDated, Informs;
    if !t.measured {
      var s1 := if t.early then s.(earlySeen := s.earlySeen + 1) else s;
      NumberKept(s1, t);
      CutHereKept(Number(s1, t), t.direction, LengthUnmeasured, Whole);
      SameDated(s, PlaceIn(s, t));
    } else if t.length == 0 {
      EmptyKept(s, t);
    } else {
      NumberKept(s, t);
      AdvanceKept(Number(s, t).lanes.Of(t.direction), t, IsNext(s, t));
      SameDated(s, Number(s, t));
    }
  }

  lemma AfterKept(s: Stream, t: Transfer, answer: Answer)
    requires StreamKept(s)
    ensures StreamKept(After(s, t, answer))
    ensures Dated(s) && Informs(t) ==> Dated(After(s, t, answer))
  {
    hide PlaceIn, WriteOf;
    PlaceKept(s, t);
  }

  lemma SettleKept(s: Stream, final: Final, ending: bool)
    requires StreamKept(s)
    ensures StreamKept(SettleTail(s, final, ending)) && SameBindings(s, SettleTail(s, final, ending))
  {
    hide SettleLane, CutBoth;
    CutBothKept(s, TerminalUnsettled, NoOccupancyAtEnd);
    SettleLaneKept(s.lanes.sent, final.terminals.sent, ending);
    SettleLaneKept(s.lanes.received, final.terminals.received, ending);
  }

  lemma SettleLaneKept(l: Lane, t: Terminal, ending: bool)
    requires LaneKept(l)
    ensures LaneKept(SettleLane(l, t, ending)) && SettleLane(l, t, ending).binding == l.binding
  {
    hide Located;
  }

  lemma EndingsKept(s: Stream, e: Closing, asked: seq<Settling>)
    requires StreamKept(s)
    ensures StreamKept(RetireIn(s)) && StreamKept(CloseIn(s, e)) && StreamKept(FinishIn(s, asked))
    ensures SameBindings(s, RetireIn(s)) && SameBindings(s, CloseIn(s, e)) && SameBindings(s, FinishIn(s, asked))
  {
    hide SettleTail, VerdictOf, CutBoth;
    CutBothKept(s, TerminalUnsettled, EndingUndelivered);
    SettleKept(NoteUnlocated(s, e.unlocated), e.final, true);
    var v := VerdictOf(asked, s.occupancy);
    if v.Settled? {
      SettleKept(NoteUnlocated(s, v.unlocated), v.final, false);
    } else {
      CutBothKept(s, TerminalUnsettled, v.why);
    }
  }

  lemma RefusalKept(s: Stream, t: Transfer)
    requires StreamKept(s)
    ensures StreamKept(RefuseIn(s, t)) && SameBindings(s, RefuseIn(s, t))
  {
  }

  lemma FreshKept(observing: Observing, id: nat, t: Transfer)
    ensures var s := FreshStream(observing, id, t);
            && StreamKept(s) && Dated(s) && s.instance == t.instance && s.firstSeen == t.at
  {
  }

  // Whole runs.

  /** What a run is given to publish with. */
  predicate Given(input: Input) {
    match input
    case Transferred(t, _) => t.instance.key.Valid() && Informs(t)
    case Closed(e) => e.at != 0
    case _ => true
  }

  predicate Publishable(s: Stream) {
    StreamKept(s) && Dated(s) && s.instance.key.Valid() && s.firstSeen != 0
  }

  ghost predicate AllKept(c: State) {
    && WellFormed(c)
    && (forall id :: id in c.streams ==> StreamKept(c.streams[id]))
    && (forall e :: e in c.ended ==> StreamKept(e.stream) && e.stream.id != 0)
  }

  ghost predicate AllPublishable(c: State) {
    && AllKept(c)
    && (forall id :: id in c.streams ==> Publishable(c.streams[id]))
    && (forall e :: e in c.ended ==>
          Publishable(e.stream) && (e.how == HandleReleasedEnding ==> e.at != 0) && e.how != SocketClosed)
  }

  lemma MovedKept(c: State, input: Input, taking: Taking, id: nat)
    requires AllKept(c) && id in Step(c, input, taking).streams
    ensures StreamKept(Step(c, input, taking).streams[id])
    ensures AllPublishable(c) && Given(input) ==> Publishable(Step(c, input, taking).streams[id])
  {
    hide Step, After, RetireIn, CloseIn, FinishIn, RefuseIn, FreshStream, StreamKept, Idle;
    StepStreams(c, input, taking, id);
    var r := Step(c, input, taking);
    if id in c.streams {
      EndingsKept(c.streams[id], if input.Closed? then input.closing else NoClosing,
                  if input.Finished? then input.asked else []);
      if input.Refused? {
        RefusalKept(c.streams[id], input.transfer);
      }
      if input.Transferred? {
        AfterKept(c.streams[id], input.transfer, input.answer);
      }
    } else {
      var t := input.transfer;
      FreshKept(c.observing, c.next + 1, t);
      AfterKept(Target(c, t), t, input.answer);
    }
  }

  /** The records a step makes are of streams it leaves. */
  lemma EndedLeft(c: State, input: Input, taking: Taking, e: Ended)
    requires WellFormed(c) && e in Step(c, input, taking).ended && e !in c.ended
    ensures var r := Step(c, input, taking);
            && e.stream.id in r.streams && r.streams[e.stream.id] == e.stream && e.how != SocketClosed
            && (e.how == HandleReleasedEnding && Given(input) ==> e.at != 0)
  {
    hide TransferStep, RefuseStep, CloseStep, FinishStep, After, FreshStream, RetireIn, CloseIn, FinishIn;
    match input
    case Transferred(t, answer) =>
      if Idle(c, t) {
        IdleEffect(c, t, answer, taking);
      } else {
        TransferEffect(c, t, answer, taking);
        FreshNamed(c.observing, c.next + 1, t);
      }
    case Refused(t) => RefuseEffect(c, t);
    case Closed(_) => CloseEffect(c, input.closing, taking);
    case Finished(key, asked, at) => FinishEffect(c, key, asked, at, taking);
  }

  lemma StepKept(c: State, input: Input, taking: Taking)
    requires AllKept(c)
    ensures AllKept(Step(c, input, taking))
    ensures AllPublishable(c) && Given(input) ==> AllPublishable(Step(c, input, taking))
  {
    hide Step, StreamKept, Publishable;
    var r := Step(c, input, taking);
    forall id | id in r.streams
      ensures StreamKept(r.streams[id]) && (AllPublishable(c) && Given(input) ==> Publishable(r.streams[id]))
    {
      MovedKept(c, input, taking, id);
    }
    forall e | e in r.ended && e !in c.ended
      ensures e.stream.id in r.streams && r.streams[e.stream.id] == e.stream && e.how != SocketClosed
      ensures e.how == HandleReleasedEnding && Given(input) ==> e.at != 0
    {
      EndedLeft(c, input, taking, e);
    }
  }

  lemma {:induction false} RunKept(c: State, inputs: seq<(Input, Taking)>)
    requires AllKept(c)
    ensures AllKept(Run(c, inputs))
    ensures AllPublishable(c) && (forall i :: 0 <= i < |inputs| ==> Given(inputs[i].0)) ==>
              AllPublishable(Run(c, inputs))
  {
    hide Step, AllPublishable, Given, StreamKept;
    if inputs != [] {
      var before := inputs[..|inputs| - 1];
      RunKept(c, before);
      StepKept(Run(c, before), inputs[|inputs| - 1].0, inputs[|inputs| - 1].1);
    }
  }

  /** Whatever a run met, its records are valid wherever its inputs were: every
      one of a run given valid instances, times and binding generations. */
  lemma {:induction false} RecordsValid(observing: Observing, inputs: seq<(Input, Taking)>, e: Ended)
    requires forall i :: 0 <= i < |inputs| ==> Given(inputs[i].0)
    requires e in Run(Opening(observing), inputs).ended
    ensures RecordValid(RecordOf(e.stream, e.how, e.at))
  {
    hide Run, RecordOf, RecordValid;
    RunKept(Opening(observing), inputs);
    RecordExactlyValid(e.stream, e.how, e.at);
  }
}
