/** Losses at a release, end to end: what the ending a producer sent says was taken,
    less what capture was delivered, is what the connection counts lost, unless it was
    delivered a number taken after the release had read the direction. */
module Conservation {
  import opened Values
  import opened Connection
  import opened Probe
  import opened Capture
  import opened CaptureEffects
  import P = Producer
  import opened Numbering
  import opened EndToEnd
  import TailLoss
  import Settlement
  import Releases
  import DeliveredOnce
  import LossLaws

  // Whole histories.

  /** The numbers delivered of one direction of a stream. */
  ghost function SeenOf(observing: Observing, events: seq<Event>, id: nat, d: Direction): set<nat> {
    if events == [] then {}
    else
      var before, e := events[..|events| - 1], events[|events| - 1];
      SeenOf(observing, before, id, d) + Adds(History(observing, before), e, id, d)
  }

  /** The number one event delivers there. */
  ghost function Adds(y: System, e: Event, id: nat, d: Direction): set<nat>
    requires Sane(y)
  {
    if e.Deliver? && e.index < |y.world.submitted| && DeliveredOnce.Numbers(y.capture, InputOf(y, e.index), id, d)
    then {y.world.submitted[e.index].transfer.sequence.number} else {}
  }

  function InputOf(y: System, i: nat): Input
    requires i < |y.world.submitted|
  {
    Transferred(y.world.submitted[i].transfer, Accepted)
  }

  /** Each transfer of the direction delivered is numbered past the last one, and none
      of the stream's is refused at the gate. */
  ghost predicate InOrderOf(observing: Observing, events: seq<Event>, id: nat, d: Direction) {
    events != [] ==>
      InOrderOf(observing, events[..|events| - 1], id, d)
      && Ordered(History(observing, events[..|events| - 1]), events[|events| - 1], id, d)
  }

  ghost predicate Ordered(y: System, e: Event, id: nat, d: Direction)
    requires Sane(y)
  {
    && (forall n :: n in Adds(y, e, id, d) ==>
          n > Target(y.capture, y.world.submitted[e.index].transfer).lanes.Of(d).numbered)
    && (e.Gate? && e.index < |y.world.submitted| ==>
          var t := y.world.submitted[e.index].transfer; !(Refusable(y.capture, t) && y.capture.open[t.Key()] == id))
  }

  lemma PlacesAlike(c: State, t: Transfer, taking: Taking)
    requires WellFormed(c)
    ensures var p, r := Place(c, t, taking).0, TransferStep(c, t, Accepted, taking);
            p.streams == r.streams && p.open == r.open
  {
    hide Place;
  }

  lemma ConservedAlike(c: State, r: State, seen: set<nat>, id: nat, d: Direction)
    requires LossLaws.ConservedIn(c, seen, id, d) && r.streams == c.streams && r.open == c.open
    ensures LossLaws.ConservedIn(r, seen, id, d)
  {
  }

  lemma AnswerConserves(c: State, w: Write, answer: Answer, seen: set<nat>, id: nat, d: Direction)
    requires WellFormed(c) && w.fragment.connection in c.streams && LossLaws.ConservedIn(c, seen, id, d)
    ensures LossLaws.ConservedIn(Settle(c, w, answer), seen, id, d)
  {
    hide RefuseWrite, Recount;
    if !answer.Accepted? {
      LossLaws.RefusedLoses(c.streams[w.fragment.connection], w.fragment, answer.RefusedAtLimit?);
    }
  }

  lemma HappenConserves(y: System, e: Event, seen: set<nat>, id: nat, d: Direction)
    requires Sane(y) && LossLaws.ConservedIn(y.capture, seen, id, d) && Ordered(y, e, id, d)
    ensures LossLaws.ConservedIn(Happen(y, e).capture, seen + Adds(y, e, id, d), id, d)
  {
    hide LossLaws.ConservedIn, DeliveredOnce.Numbers, Refusable, Target, TransferStep, Place, Settle, RefuseStep,
      CloseStep, FinishStep, P.Make;
    assert !e.Deliver? ==> seen + Adds(y, e, id, d) == seen;
    match e
    case Produce(_) =>
    case Deliver(i, taking) =>
      if i < |y.world.submitted| {
        var t := y.world.submitted[i].transfer;
        OrderedIs(y, e, id, d);
        LossLaws.StepConserves(y.capture, InputOf(y, i), taking, seen, id, d);
        PlacesAlike(y.capture, t, taking);
        ConservedAlike(TransferStep(y.capture, t, Accepted, taking), Place(y.capture, t, taking).0,
                       seen + Adds(y, e, id, d), id, d);
      } else {
        assert seen + {} == seen;
      }
    case Answered(k, answer) =>
      if k < |y.pending| {
        assert y.pending[k] in y.pending;
        AnswerConserves(y.capture, y.pending[k], answer, seen, id, d);
      }
    case Gate(i) =>
      if i < |y.world.submitted| {
        NotNumbered(y.capture, Refused(y.world.submitted[i].transfer), id, d);
        LossLaws.StepConserves(y.capture, Refused(y.world.submitted[i].transfer), Nobody, seen, id, d);
        assert seen + {} == seen;
      }
    case Ended(closing, taking) =>
      NotNumbered(y.capture, Closed(closing), id, d);
      LossLaws.StepConserves(y.capture, Closed(closing), taking, seen, id, d);
      assert seen + {} == seen;
    case Finish(key, asked, at, taking) =>
      NotNumbered(y.capture, Input.Finished(key, asked, at), id, d);
      LossLaws.StepConserves(y.capture, Input.Finished(key, asked, at), taking, seen, id, d);
      assert seen + {} == seen;
  }

  lemma NotNumbered(c: State, input: Input, id: nat, d: Direction)
    requires WellFormed(c) && !input.Transferred?
    ensures !DeliveredOnce.Numbers(c, input, id, d)
  {
  }

  lemma OrderedIs(y: System, e: Event, id: nat, d: Direction)
    requires Sane(y) && Ordered(y, e, id, d) && e.Deliver? && e.index < |y.world.submitted|
    ensures var input := InputOf(y, e.index);
            && (DeliveredOnce.Numbers(y.capture, input, id, d) ==>
                  input.transfer.sequence.number > Target(y.capture, input.transfer).lanes.Of(d).numbered)
            && Adds(y, e, id, d) ==
               (if DeliveredOnce.Numbers(y.capture, input, id, d) then {input.transfer.sequence.number} else {})
  {
    hide DeliveredOnce.Numbers, Target;
    var input := InputOf(y, e.index);
    assert DeliveredOnce.Numbers(y.capture, input, id, d) ==> input.transfer.sequence.number in Adds(y, e, id, d);
  }

  lemma {:induction false} HistoryConserves(observing: Observing, events: seq<Event>, id: nat, d: Direction)
    requires InOrderOf(observing, events, id, d)
    ensures LossLaws.ConservedIn(History(observing, events).capture, SeenOf(observing, events, id, d), id, d)
  {
    hide Happen, Ordered, Adds;
    if events == [] {
      LossLaws.NothingConserved(Opening(observing), id, d);
    } else {
      var before, e := events[..|events| - 1], events[|events| - 1];
      hide LossLaws.ConservedIn;
      HistoryConserves(observing, before, id, d);
      HappenConserves(History(observing, before), e, SeenOf(observing, before, id, d), id, d);
    }
  }

  // The producer's part of a history.

  /** The steps the producer made in it. */
  function StepsOf(events: seq<Event>): seq<P.Step> {
    if events == [] then []
    else
      var e := events[|events| - 1];
      StepsOf(events[..|events| - 1]) + if e.Produce? then [e.step] else []
  }

  lemma {:induction false} WorldOf(observing: Observing, events: seq<Event>)
    ensures History(observing, events).world == P.Produced(StepsOf(events))
  {
    hide P.Make, Place, Settle, RefuseStep, CloseStep, FinishStep;
    if events != [] {
      var before, e := events[..|events| - 1], events[|events| - 1];
      WorldOf(observing, before);
      if e.Produce? {
        assert (StepsOf(before) + [e.step])[..|StepsOf(before)|] == StepsOf(before);
      } else {
        assert StepsOf(before) + [] == StepsOf(before);
      }
    }
  }

  /** A number capture saw of an occupancy is past what a release of it read exactly
      where it was taken after. */
  lemma SeenPast(observing: Observing, events: seq<Event>, t: P.Thread, i: nat, k: nat, d: Direction, id: nat)
    requires Releases.Releases(StepsOf(events), t, i, k, d)
    requires var c, e := History(observing, events).capture, Releases.EndingAt(StepsOf(events), k);
             id in c.streams && c.streams[id].occupancy == e.occupancy
    ensures var e := Releases.EndingAt(StepsOf(events), k);
            var n := History(observing, events).capture.streams[id].lanes.Of(d).numbered;
            && e.occupancy != 0 && e.final.known
            && (n > e.final.terminals.Of(d).last <==> Releases.TakenSince(StepsOf(events), P.At(e.occupancy, d), n, i))
  {
    hide History, P.Produced, TailLoss.Tallies, Releases.Releases, Releases.TakenSince, Releases.EndingAt;
    var steps, y := StepsOf(events), History(observing, events);
    Releases.ReadThen(steps, t, i, k, d);
    WorldOf(observing, events);
    Settlement.HistoryRemembers(observing, events);
    assert Settlement.RemembersBoth(y.world, y.capture.streams[id]);
    assert Settlement.Remembers(y.world, y.capture.streams[id], d);
    assert steps[..|steps|] == steps;
    Releases.ProducedKeeps(steps);
    var at, l := P.At(y.capture.streams[id].occupancy, d), y.capture.streams[id].lanes.Of(d);
    SawTaken(y.world, at, l);
    Indices(steps, t, i, k, d);
    Releases.PastIsSince(steps, at, l.numbered, i);
  }

  lemma Indices(steps: seq<P.Step>, t: P.Thread, i: nat, k: nat, d: Direction)
    requires Releases.Releases(steps, t, i, k, d)
    ensures i < k < |steps|
  {
  }

  lemma SawTaken(w: P.World, at: P.At, l: Lane)
    requires Numbers(w) && at.occupancy != 0 && TailLoss.LastSaw(w, at, l.numbered, l.droppedBelow)
    ensures l.numbered <= P.LineOf(w, at).taken
  {
    assert LineOk(P.LineOf(w, at));
  }

  /** At a release: over any history of threads, ring, sinks and other endings, each
      direction delivered in order with no call read in flight counts lost exactly the
      numbers the ending says were taken less the numbers delivered, if and only if
      the last one delivered was not taken after the release had read the direction. */
  lemma ReleaseConserves(observing: Observing, events: seq<Event>, t: P.Thread, i: nat, k: nat, d: Direction,
                         taking: Taking)
    requires Releases.Releases(StepsOf(events), t, i, k, d)
    requires var c, e := History(observing, events).capture, Releases.EndingAt(StepsOf(events), k);
             && e.Key() in c.open && c.streams[c.open[e.Key()]].occupancy == e.occupancy
             && InOrderOf(observing, events, c.open[e.Key()], d) && !e.final.terminals.Of(d).inFlight
    ensures var y, e := History(observing, events), Releases.EndingAt(StepsOf(events), k);
            var id, r := y.capture.open[e.Key()], Happen(y, Event.Ended(e, taking));
            var n, at := y.capture.streams[id].lanes.Of(d).numbered, P.At(e.occupancy, d);
            && e.Key() !in r.capture.open && id in r.capture.streams
            && (r.capture.streams[id].lanes.Of(d).Lost() ==
                  e.final.terminals.Of(d).last - |SeenOf(observing, events, id, d)|
                <==> !Releases.TakenSince(StepsOf(events), at, n, i))
  {
    var y, e := History(observing, events), Releases.EndingAt(StepsOf(events), k);
    var id := y.capture.open[e.Key()];
    hide History, SeenOf, InOrderOf, Happen, LossLaws.ConservedIn, Releases.Releases, Releases.TakenSince,
      Releases.EndingAt;
    SeenPast(observing, events, t, i, k, d, id);
    HistoryConserves(observing, events, id, d);
    ReleasedLoses(y, e, d, SeenOf(observing, events, id, d), taking);
  }

  lemma ReleasedLoses(y: System, e: Closing, d: Direction, seen: set<nat>, taking: Taking)
    requires Sane(y) && e.Key() in y.capture.open
    requires y.capture.streams[y.capture.open[e.Key()]].occupancy == e.occupancy != 0
    requires LossLaws.ConservedIn(y.capture, seen, y.capture.open[e.Key()], d)
    requires e.final.known && !e.final.terminals.Of(d).inFlight
    ensures var id, r := y.capture.open[e.Key()], Happen(y, Event.Ended(e, taking));
            && e.Key() !in r.capture.open && id in r.capture.streams
            && (r.capture.streams[id].lanes.Of(d).Lost() == e.final.terminals.Of(d).last - |seen|
                <==> y.capture.streams[id].lanes.Of(d).numbered <= e.final.terminals.Of(d).last)
  {
    hide CloseIn, CloseStep;
    var id := y.capture.open[e.Key()];
    assert id in y.capture.open.Values;
    CloseEffect(y.capture, e, taking);
    ClosedLoses(y.capture.streams[id], e, d);
  }

  lemma ClosedLoses(s: Stream, e: Closing, d: Direction)
    requires e.final.known && !e.final.terminals.Of(d).inFlight
    ensures var l, last := s.lanes.Of(d), e.final.terminals.Of(d).last;
            CloseIn(s, e).lanes.Of(d).Lost() == l.Lost() + if l.numbered <= last then last - l.numbered else 0
  {
    hide SettleLane;
    LossLaws.ClosingLoses(s.lanes.Of(d), e.final.terminals.Of(d));
  }
}
