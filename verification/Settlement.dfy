/** The producer's last word on an open connection, taken against everything
    that was delivered of it. */
module Settlement {
  import opened Values
  import opened Connection
  import opened Probe
  import opened Capture
  import opened CaptureEffects
  import P = Producer
  import opened Numbering
  import opened EndToEnd
  import TailLoss
  import LaterWord

  // What a lane remembers of its line: the last event whose number it took.

  predicate SameNumber(l: Lane, m: Lane) { m.numbered == l.numbered && m.droppedBelow == l.droppedBelow }

  predicate TookNumber(m: Lane, q: Sequence) { m.numbered == q.number && m.droppedBelow == q.dropped }

  /** Lanes moved at most by one transfer's own number, in its own direction. */
  predicate Renumbered(s: Stream, r: Stream, t: Transfer) {
    && r.occupancy == s.occupancy
    && SameNumber(s.lanes.Of(Other(t.direction)), r.lanes.Of(Other(t.direction)))
    && (|| SameNumber(s.lanes.Of(t.direction), r.lanes.Of(t.direction))
        || (t.sequence.occupancy != 0 && TookNumber(r.lanes.Of(t.direction), t.sequence)))
  }

  predicate Unnumbered(s: Stream, r: Stream) {
    && r.occupancy == s.occupancy && SameNumber(s.lanes.sent, r.lanes.sent)
    && SameNumber(s.lanes.received, r.lanes.received)
  }

  lemma NumberRenumbers(s: Stream, t: Transfer)
    ensures Renumbered(s, Number(s, t), t)
  {
  }

  lemma PlaceRenumbers(s: Stream, t: Transfer)
    ensures Renumbered(s, PlaceIn(s, t), t)
  {
    hide Number, Bind;
    NumberRenumbers(s, t);
    NumberRenumbers(s.(earlySeen := s.earlySeen + 1), t);
  }

  lemma RefuseRenumbers(s: Stream, t: Transfer)
    requires t.sequence.occupancy != 0
    ensures Renumbered(s, RefuseIn(s, t), t)
  {
  }

  lemma EndingsUnnumbered(s: Stream, e: Closing, asked: seq<Settling>)
    ensures Unnumbered(s, RetireIn(s)) && Unnumbered(s, CloseIn(s, e)) && Unnumbered(s, FinishIn(s, asked))
  {
    hide SettleTail, VerdictOf;
    SettleUnnumbered(NoteUnlocated(s, e.unlocated), e.final, true);
    var v := VerdictOf(asked, s.occupancy);
    if v.Settled? {
      SettleUnnumbered(NoteUnlocated(s, v.unlocated), v.final, false);
    }
  }

  lemma SettleUnnumbered(s: Stream, final: Final, ending: bool)
    ensures Unnumbered(s, SettleTail(s, final, ending))
  {
    hide Located;
  }

  lemma RefuseWriteUnnumbered(s: Stream, f: Fragment, limit: bool)
    ensures Unnumbered(s, RefuseWrite(s, f, limit))
  {
  }

  // Whole runs.

  ghost predicate Remembers(world: P.World, s: Stream, d: Direction) {
    var l := s.lanes.Of(d);
    s.occupancy != 0 ==> TailLoss.LastSaw(world, P.At(s.occupancy, d), l.numbered, l.droppedBelow)
  }

  ghost predicate RemembersBoth(world: P.World, s: Stream) {
    Remembers(world, s, Sent) && Remembers(world, s, Received)
  }

  ghost predicate Remembering(y: System) {
    && TailLoss.Tallies(y.world)
    && (forall id :: id in y.capture.streams ==> RemembersBoth(y.world, y.capture.streams[id]))
  }

  lemma RenumberedRemembers(world: P.World, s: Stream, r: Stream, i: nat)
    requires i < |world.submitted| && RemembersBoth(world, s)
    requires var t := world.submitted[i].transfer;
             && Renumbered(s, r, t)
             && (s.occupancy == 0 || t.sequence.occupancy == 0 || t.sequence.occupancy == s.occupancy)
    ensures RemembersBoth(world, r)
  {
    var t := world.submitted[i].transfer;
    hide TailLoss.LastSaw;
    if s.occupancy != 0 && t.sequence.occupancy != 0 {
      SawIt(world, i);
    }
  }

  lemma SawIt(world: P.World, i: nat)
    requires i < |world.submitted|
    ensures var t := world.submitted[i].transfer;
            TailLoss.LastSaw(world, EventPlace(t), t.sequence.number, t.sequence.dropped)
  {
    assert world.submitted[i] in world.submitted;
  }

  lemma UnnumberedRemembers(world: P.World, s: Stream, r: Stream)
    requires RemembersBoth(world, s) && Unnumbered(s, r)
    ensures RemembersBoth(world, r)
  {
    hide TailLoss.LastSaw;
  }

  lemma FreshRemembers(world: P.World, observing: Observing, id: nat, t: Transfer)
    ensures RemembersBoth(world, FreshStream(observing, id, t))
  {
  }

  lemma DeliverRemembers(y: System, i: nat, taking: Taking)
    requires Sane(y) && Remembering(y) && i < |y.world.submitted|
    ensures Remembering(Happen(y, Deliver(i, taking)))
  {
    hide TailLoss.Tallies, RemembersBoth, Place, PlaceIn, FreshStream, RetireIn, CloseIn, FinishIn, Continues,
      Renumbered, Unnumbered;
    var t, c := y.world.submitted[i].transfer, y.capture;
    if Idle(c, t) {
      IdleEffect(c, t, Accepted, taking);
    } else {
      PlaceEffect(c, t, taking);
      TargetContinues(c, t);
      FreshRemembers(y.world, c.observing, c.next + 1, t);
      PlaceRenumbers(Target(c, t), t);
      RenumberedRemembers(y.world, Target(c, t), PlaceIn(Target(c, t), t), i);
      if t.Key() in c.open {
        var s := c.streams[c.open[t.Key()]];
        EndingsUnnumbered(s, LaterWord.NoClosing, []);
        UnnumberedRemembers(y.world, s, RetireIn(s));
      }
    }
  }

  lemma TargetContinues(c: State, t: Transfer)
    requires WellFormed(c)
    ensures Continues(Target(c, t), t)
    ensures var s := Target(c, t); s.occupancy == 0 || t.sequence.occupancy == 0 || t.sequence.occupancy == s.occupancy
  {
    FreshNamed(c.observing, c.next + 1, t);
    hide FreshStream;
  }

  lemma HappenRemembers(y: System, e: Event)
    requires Sane(y) && Remembering(y)
    ensures Remembering(Happen(y, e))
  {
    hide TailLoss.Tallies, RemembersBoth, Place, RetireIn, CloseIn, FinishIn, Unnumbered, Renumbered, RefuseIn,
      RefuseWrite, P.Make, RefuseStep, CloseStep, FinishStep;
    match e
    case Produce(step) => MakeRemembers(y, step);
    case Deliver(i, taking) => if i < |y.world.submitted| { DeliverRemembers(y, i, taking); }
    case Answered(k, answer) =>
      if k < |y.pending| && !answer.Accepted? {
        var f := y.pending[k].fragment;
        var s := y.capture.streams[f.connection];
        RefuseWriteUnnumbered(s, f, answer.RefusedAtLimit?);
        UnnumberedRemembers(y.world, s, RefuseWrite(s, f, answer.RefusedAtLimit?));
      }
    case Gate(i) => if i < |y.world.submitted| { GateRemembers(y, i); }
    case Ended(closing, taking) =>
      CloseEffect(y.capture, closing, taking);
      EndRemembers(y, Closed(closing), CloseStep(y.capture, closing, taking));
    case Finish(key, asked, at, taking) =>
      FinishEffect(y.capture, key, asked, at, taking);
      EndRemembers(y, Input.Finished(key, asked, at), FinishStep(y.capture, key, asked, at, taking));
  }

  lemma MakeRemembers(y: System, step: P.Step)
    requires Remembering(y)
    ensures Remembering(y.(world := P.Make(y.world, step)))
  {
    hide P.Make;
    TailLoss.MakeTallies(y.world, step);
    MakeKeeps(y.world, step);
  }

  lemma GateRemembers(y: System, i: nat)
    requires Sane(y) && Remembering(y) && i < |y.world.submitted|
    ensures Remembering(Happen(y, Gate(i)))
  {
    hide TailLoss.Tallies, RemembersBoth, RefuseIn, Renumbered, RefuseStep;
    var t, c := y.world.submitted[i].transfer, y.capture;
    RefuseEffect(c, t);
    if Refusable(c, t) {
      var s := c.streams[c.open[t.Key()]];
      if s.occupancy != 0 {
        RefuseRenumbers(s, t);
        RenumberedRemembers(y.world, s, RefuseIn(s, t), i);
      } else {
        NoneRemembers(y.world, RefuseIn(s, t));
      }
    }
  }

  lemma NoneRemembers(world: P.World, s: Stream)
    requires s.occupancy == 0
    ensures RemembersBoth(world, s)
  {
  }

  lemma EndRemembers(y: System, input: Input, c: State)
    requires Sane(y) && Remembering(y) && (input.Closed? || input.Finished?) && EndsAs(y.capture, input, c)
    ensures Remembering(y.(capture := c))
  {
    hide TailLoss.Tallies, RemembersBoth, RetireIn, CloseIn, FinishIn, Unnumbered;
    if EndedBy(y.capture, input).Some? {
      var s := y.capture.streams[y.capture.open[EndingKey(input)]];
      EndingsUnnumbered(s, if input.Closed? then input.closing else LaterWord.NoClosing,
                        if input.Finished? then input.asked else []);
      UnnumberedRemembers(y.world, s, EndedBy(y.capture, input).value.stream);
    }
  }

  lemma {:induction false} HistoryRemembers(observing: Observing, events: seq<Event>)
    ensures Remembering(History(observing, events))
  {
    if events != [] {
      hide Remembering, Happen;
      HistoryRemembers(observing, events[..|events| - 1]);
      HappenRemembers(History(observing, events[..|events| - 1]), events[|events| - 1]);
    }
  }

  // The session's end.

  /** The one producer's answer about the occupancy of an open connection. */
  function AnswerOf(world: P.World, occupancy: nat): Settling {
    Settling.Holding(occupancy, P.FinalOf(world, occupancy), Some(world.unlocated))
  }

  lemma SettledBy(world: P.World, s: Stream)
    requires s.occupancy != 0
    ensures FinishIn(s, [AnswerOf(world, s.occupancy)])
            == SettleTail(NoteUnlocated(s, world.unlocated), P.FinalOf(world, s.occupancy), false)
  {
    var asked := [AnswerOf(world, s.occupancy)];
    hide SettleTail;
    assert FirstTrouble(asked, 1, Some(asked[0]), s.occupancy) == OfHolder(asked[0], s.occupancy);
  }

  /** What a settlement adds to a lane's count is what it located. */
  lemma SettledLost(l: Lane, t: Terminal)
    ensures SettleLane(l, t, false).Lost() == l.Lost() + Located(l, t, false)
  {
  }

  /** The stream a key names, and the line it follows in one direction. */
  function Followed(y: System, key: StreamKey): Stream
    requires Sane(y) && key in y.capture.open
  {
    y.capture.streams[y.capture.open[key]]
  }

  function Line(y: System, key: StreamKey, d: Direction): P.Line
    requires Sane(y) && key in y.capture.open
  {
    P.LineOf(y.world, P.At(Followed(y, key).occupancy, d))
  }

  lemma OpenTailLocated(y: System, key: StreamKey, d: Direction)
    requires Sane(y) && Remembering(y) && TailLoss.Stopped(y.world) && key in y.capture.open
    requires Followed(y, key).occupancy != 0 && TailLoss.Orderly(Line(y, key, d))
    ensures var s := Followed(y, key);
            FinishIn(s, [AnswerOf(y.world, s.occupancy)]).lanes.Of(d).Lost()
            == s.lanes.Of(d).Lost() + |TailLoss.RefusedAbove(Line(y, key, d), s.lanes.Of(d).numbered)|
  {
    hide TailLoss.Tallies, TailLoss.Stopped, TailLoss.LastSaw, FinishIn, Located, SettleLane;
    var s := Followed(y, key);
    assert RemembersBoth(y.world, s);
    assert Remembers(y.world, s, d);
    TailLoss.TailExact(y.world, P.At(s.occupancy, d), s.lanes.Of(d));
    SettledBy(y.world, s);
    SettledLost(s.lanes.Of(d), P.TerminalOf(Line(y, key, d)));
  }

  /** At the session's end, production stopped and its one producer answering: in a
      direction where no two calls ever met, the loss an open connection is
      credited with grows by exactly the reservations refused above the last
      number capture saw. */
  lemma OpenTailExact(observing: Observing, events: seq<Event>, key: StreamKey, d: Direction, at: Time, taking: Taking)
    requires var y := History(observing, events);
             && TailLoss.Stopped(y.world) && key in y.capture.open
             && Followed(y, key).occupancy != 0 && TailLoss.Orderly(Line(y, key, d))
    ensures var y := History(observing, events);
            var s := Followed(y, key);
            var r := Happen(y, Finish(key, [AnswerOf(y.world, s.occupancy)], at, taking));
            && key !in r.capture.open && s.id in r.capture.streams
            && r.capture.streams[s.id].lanes.Of(d).Lost()
               == s.lanes.Of(d).Lost() + |TailLoss.RefusedAbove(Line(y, key, d), s.lanes.Of(d).numbered)|
  {
    hide FinishIn, FinishStep, History, TailLoss.Tallies, TailLoss.Stopped, TailLoss.Orderly, Line, AnswerOf;
    var y := History(observing, events);
    HistoryRemembers(observing, events);
    OpenTailLocated(y, key, d);
    FinishEffect(y.capture, key, [AnswerOf(y.world, Followed(y, key).occupancy)], at, taking);
  }
}
