/** Where a direction arrives in order and nothing is refused at the gate, what it
    counts lost is exactly what the producer numbered and did not deliver. */
module LossLaws {
  import opened Values
  import opened Connection
  import opened Evidence
  import opened Probe
  import opened Capture
  import opened CaptureEffects
  import opened LaterWord
  import opened DeliveredOnce

  /** Each transfer of the direction is numbered past the last one, and none of
      the stream's is refused at the gate. */
  ghost predicate InOrder(c: State, inputs: seq<(Input, Taking)>, id: nat, d: Direction)
    requires WellFormed(c)
  {
    inputs != [] ==>
      var before := inputs[..|inputs| - 1];
      var last := inputs[|inputs| - 1].0;
      var now := Run(c, before);
      && InOrder(c, before, id, d)
      && (Numbers(now, last, id, d) ==> last.transfer.sequence.number > Target(now, last.transfer).lanes.Of(d).numbered)
      && !(last.Refused? && Refusable(now, last.transfer) && now.open[last.transfer.Key()] == id)
  }

  predicate LaneConserves(l: Lane, seen: set<nat>) {
    l.Lost() + |seen| == l.numbered && forall n :: n in seen ==> 1 <= n <= l.numbered
  }

  // What placing a transfer loses.

  predicate SameLoss(l: Lane, m: Lane) { m.Lost() == l.Lost() && m.numbered == l.numbered }

  lemma CutHereLoses(s: Stream, d: Direction, because: Reason, why: Why)
    ensures var r := CutHere(s, d, because, why);
            SameLoss(s.lanes.sent, r.lanes.sent) && SameLoss(s.lanes.received, r.lanes.received)
  {
  }

  lemma CutBothLoses(s: Stream, because: Reason, why: Why)
    ensures var r := CutBoth(s, because, why);
            SameLoss(s.lanes.sent, r.lanes.sent) && SameLoss(s.lanes.received, r.lanes.received)
  {
    hide CutHere;
    CutHereLoses(s, Sent, because, why);
    CutHereLoses(CutHere(s, Sent, because, why), Received, because, why);
  }

  lemma NumberLaneLoses(l: Lane, q: Sequence)
    ensures NumberLane(l, q).Lost() == l.Lost() + Missing(l, q.number)
    ensures NumberLane(l, q).numbered == if q.number > l.numbered then q.number else l.numbered
  {
  }

  lemma NumberLoses(s: Stream, t: Transfer)
    ensures var l := s.lanes.Of(t.direction); var m := Number(s, t).lanes.Of(t.direction);
            if t.sequence.occupancy == 0 then SameLoss(l, m)
            else m.Lost() == l.Lost() + Missing(l, t.sequence.number) &&
                 m.numbered == if t.sequence.number > l.numbered then t.sequence.number else l.numbered
    ensures SameLoss(s.lanes.Of(Other(t.direction)), Number(s, t).lanes.Of(Other(t.direction)))
  {
    hide CutBoth, NumberLane;
    NumberLaneLoses(s.lanes.Of(t.direction), t.sequence);
    CutBothLoses(NoteUnlocated(s, t.sequence.unlocated), SequenceUnavailable, NoSequenceKept);
  }

  /** Placing a transfer loses what lies between its number and the last, and a
      refusal by its sink nothing more. */
  lemma AfterLoses(s: Stream, t: Transfer, answer: Answer)
    ensures var l := s.lanes.Of(t.direction); var m := After(s, t, answer).lanes.Of(t.direction);
            if t.sequence.occupancy == 0 || !(t.measured || Moved(t)) then SameLoss(l, m)
            else m.Lost() == l.Lost() + Missing(l, t.sequence.number) &&
                 m.numbered == if t.sequence.number > l.numbered then t.sequence.number else l.numbered
    ensures SameLoss(s.lanes.Of(Other(t.direction)), After(s, t, answer).lanes.Of(Other(t.direction)))
  {
    hide Number, PlaceIn, PlacedLane, WriteOf, Missing, CutLane;
    var r := PlaceIn(s, t);
    if t.measured || Moved(t) {
      NumberLoses(s, t);
      PlacedShape(s, t);
      PlacedLoses(Number(s, t).lanes.Of(t.direction), s, t);
    } else {
      EarlyLoses(s, t);
    }
    if Offers(s, t) && !answer.Accepted? {
      RefusedLoses(r, WriteOf(s, t).fragment, answer.RefusedAtLimit?);
    }
  }

  lemma PlacedLoses(l: Lane, s: Stream, t: Transfer)
    ensures SameLoss(l, PlacedLane(l, s, t))
  {
    hide Bind;
  }

  lemma EarlyLoses(s: Stream, t: Transfer)
    requires !t.measured && !Moved(t)
    ensures PlaceIn(s, t).lanes == s.lanes
  {
  }

  lemma RefusedLoses(s: Stream, f: Fragment, limit: bool)
    ensures var r := RefuseWrite(s, f, limit);
            SameLoss(s.lanes.sent, r.lanes.sent) && SameLoss(s.lanes.received, r.lanes.received)
  {
  }

  lemma AfterConserves(s: Stream, t: Transfer, answer: Answer, seen: set<nat>, d: Direction)
    requires LaneConserves(s.lanes.Of(d), seen)
    requires Adds(t, d) != {} ==> t.sequence.number > s.lanes.Of(d).numbered
    ensures LaneConserves(After(s, t, answer).lanes.Of(d), seen + Adds(t, d))
  {
    hide After;
    AfterLoses(s, t, answer);
  }

  // Whole runs.

  /** What a run conserves in one direction of one stream. */
  ghost predicate ConservedIn(c: State, seen: set<nat>, id: nat, d: Direction) {
    && (id !in c.streams ==> seen == {})
    && (id in c.open.Values && id in c.streams && c.streams[id].occupancy != 0 ==>
          LaneConserves(c.streams[id].lanes.Of(d), seen))
  }

  lemma FreshConserves(observing: Observing, id: nat, t: Transfer, d: Direction)
    ensures LaneConserves(FreshStream(observing, id, t).lanes.Of(d), {})
  {
  }

  /** A stream still followed was followed before, or has just begun. */
  ghost predicate OpenBefore(c: State, r: State, id: nat) {
    id in r.streams && (id in c.streams ==> id in c.open.Values)
  }

  /** And was not the stream a step was about. */
  ghost predicate LeftAlone(c: State, r: State, id: nat) {
    id in r.streams && id in c.streams && r.streams[id] == c.streams[id]
  }

  lemma PlacedOpen(c: State, t: Transfer, answer: Answer, taking: Taking, id: nat)
    requires WellFormed(c) && !Idle(c, t) && id in TransferStep(c, t, answer, taking).open.Values
    ensures var r := TransferStep(c, t, answer, taking);
            OpenBefore(c, r, id) && (Target(c, t).id != id ==> LeftAlone(c, r, id))
  {
    hide TransferStep, After, FreshStream, RetireIn, Continues;
    TransferEffect(c, t, answer, taking);
    FreshNamed(c.observing, c.next + 1, t);
    if t.Key() in c.open {
      Unshared(c, t.Key());
    }
    hide Idle;
  }

  lemma EndedOpen(c: State, input: Input, r: State, id: nat)
    requires WellFormed(c) && (input.Closed? || input.Finished?) && EndsAs(c, input, r) && id in r.open.Values
    ensures OpenBefore(c, r, id) && LeftAlone(c, r, id)
  {
    hide EndedBy;
    if EndingKey(input) in c.open {
      Unshared(c, EndingKey(input));
    }
  }

  lemma StillOpenBefore(c: State, input: Input, taking: Taking, id: nat)
    requires WellFormed(c) && id in Step(c, input, taking).open.Values
    ensures var r := Step(c, input, taking);
            && OpenBefore(c, r, id)
            && (input.Closed? || input.Finished? ==> LeftAlone(c, r, id))
            && (input.Refused? && !(Refusable(c, input.transfer) && c.open[input.transfer.Key()] == id) ==>
                  LeftAlone(c, r, id))
            && (input.Transferred? && !(!Idle(c, input.transfer) && Target(c, input.transfer).id == id) ==>
                  LeftAlone(c, r, id))
  {
    hide TransferStep, RefuseStep, CloseStep, FinishStep, Target, RefuseIn, Idle, EndsAs;
    match input
    case Transferred(t, answer) =>
      if Idle(c, t) {
        IdleEffect(c, t, answer, taking);
      } else {
        PlacedOpen(c, t, answer, taking, id);
      }
    case Refused(t) => RefuseEffect(c, t);
    case Closed(e) =>
      CloseEffect(c, e, taking);
      EndedOpen(c, input, CloseStep(c, e, taking), id);
    case Finished(key, asked, at) =>
      FinishEffect(c, key, asked, at, taking);
      EndedOpen(c, input, FinishStep(c, key, asked, at, taking), id);
  }

  lemma StepConserves(c: State, input: Input, taking: Taking, seen: set<nat>, id: nat, d: Direction)
    requires WellFormed(c) && ConservedIn(c, seen, id, d)
    requires Numbers(c, input, id, d) ==>
               input.transfer.sequence.number > Target(c, input.transfer).lanes.Of(d).numbered
    requires !(input.Refused? && Refusable(c, input.transfer) && c.open[input.transfer.Key()] == id)
    ensures ConservedIn(Step(c, input, taking),
                        seen + (if Numbers(c, input, id, d) then {input.transfer.sequence.number} else {}), id, d)
  {
    hide Step, After, FreshStream, LaneConserves, Idle, Refusable;
    var r := Step(c, input, taking);
    StepStreams(c, input, taking, id);
    var targeted := input.Transferred? && !Idle(c, input.transfer) && Target(c, input.transfer).id == id;
    if targeted {
      TargetMoved(c, input, taking, id);
      var t := input.transfer;
      if id in r.open.Values && r.streams[id].occupancy != 0 {
        StillOpenBefore(c, input, taking, id);
        FreshConserves(c.observing, c.next + 1, t, d);
        AfterConserves(Target(c, t), t, input.answer, seen, d);
      }
    } else {
      assert seen + {} == seen;
      if id in r.open.Values {
        StillOpenBefore(c, input, taking, id);
      }
    }
  }

  lemma {:induction false} RunConserves(c0: State, inputs: seq<(Input, Taking)>, id: nat, d: Direction)
    requires WellFormed(c0) && c0.streams == map[] && InOrder(c0, inputs, id, d)
    ensures ConservedIn(Run(c0, inputs), SeenIn(c0, inputs, id, d), id, d)
  {
    hide Step, ConservedIn, Numbers, Refusable;
    if inputs == [] {
      NothingConserved(c0, id, d);
    } else {
      var before, last := inputs[..|inputs| - 1], inputs[|inputs| - 1];
      RunConserves(c0, before, id, d);
      StepConserves(Run(c0, before), last.0, last.1, SeenIn(c0, before, id, d), id, d);
    }
  }

  lemma NothingConserved(c: State, id: nat, d: Direction)
    requires c.streams == map[]
    ensures ConservedIn(c, {}, id, d)
  {
  }

  lemma ClosingLoses(l: Lane, t: Terminal)
    requires !t.inFlight
    ensures SettleLane(l, t, true).Lost() == l.Lost() + if l.numbered <= t.last then t.last - l.numbered else 0
  {
  }

  /** At an ending with no call in flight, a direction that arrived in order counts lost
      exactly the numbers taken that were not delivered, if and only if the ending's
      last number is not behind one delivered. */
  lemma LossConserved(observing: Observing, inputs: seq<(Input, Taking)>, e: Closing, d: Direction)
    requires var c := Run(Opening(observing), inputs);
             && e.Key() in c.open && c.streams[c.open[e.Key()]].occupancy == e.occupancy != 0
             && InOrder(Opening(observing), inputs, c.open[e.Key()], d)
    requires e.final.known && !e.final.terminals.Of(d).inFlight
    ensures var c := Run(Opening(observing), inputs);
            var id, last := c.open[e.Key()], e.final.terminals.Of(d).last;
            CloseIn(c.streams[id], e).lanes.Of(d).Lost() == last - |SeenIn(Opening(observing), inputs, id, d)|
            <==> c.streams[id].lanes.Of(d).numbered <= last
  {
    hide Run, InOrder, SeenIn, SettleLane;
    var c := Run(Opening(observing), inputs);
    var id := c.open[e.Key()];
    assert id in c.open.Values;
    RunConserves(Opening(observing), inputs, id, d);
    ClosingLoses(c.streams[id].lanes.Of(d), e.final.terminals.Of(d));
  }
}
