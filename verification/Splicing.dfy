/** No two occupancies of a handle are spliced: one whose fragments share a
    connection id with another's has no placeable offset, and what belongs to an
    older occupancy changes nothing of a newer one. */
module Splicing {
  import opened Values
  import opened Connection
  import opened Evidence
  import opened Probe
  import opened Capture
  import opened CaptureEffects
  import opened EvidenceLaws
  import opened LaterWord
  import opened EndToEnd

  /** A delivered fragment is of the occupancy its stream follows, if both are kept. */
  ghost predicate OwnOccupancy(c: State, w: Write) {
    && w.fragment.connection in c.streams
    && (c.streams[w.fragment.connection].occupancy == 0 || w.transfer.sequence.occupancy == 0 ||
        c.streams[w.fragment.connection].occupancy == w.transfer.sequence.occupancy)
  }

  ghost predicate AllOwn(c: State) { forall w :: w in c.delivered ==> OwnOccupancy(c, w) }

  lemma StepKeepsOccupancies(c: State, input: Input, taking: Taking)
    requires WellFormed(c) && AllOwn(c)
    ensures AllOwn(Step(c, input, taking))
  {
    hide Step, After, RetireIn, CloseIn, FinishIn, RefuseIn, Refusable;
    var r := Step(c, input, taking);
    forall w | w in r.delivered
      ensures OwnOccupancy(r, w)
    {
      StepStreams(c, input, taking, w.fragment.connection);
      if w !in c.delivered {
        NewlyDelivered(c, input, taking, w);
      }
    }
  }

  lemma NewlyDelivered(c: State, input: Input, taking: Taking, w: Write)
    requires WellFormed(c) && w in Step(c, input, taking).delivered && w !in c.delivered
    ensures OwnOccupancy(Step(c, input, taking), w)
  {
    hide TransferStep, RefuseStep, CloseStep, FinishStep, After;
    match input
    case Transferred(t, answer) =>
      if Idle(c, t) {
        IdleEffect(c, t, answer, taking);
      } else {
        TransferEffect(c, t, answer, taking);
      }
    case Refused(t) => RefuseEffect(c, t);
    case Closed(e) => CloseEffect(c, e, taking);
    case Finished(key, asked, at) => FinishEffect(c, key, asked, at, taking);
  }

  lemma {:induction false} RunKeepsOccupancies(observing: Observing, inputs: seq<(Input, Taking)>)
    ensures AllOwn(Run(Opening(observing), inputs))
  {
    hide Step;
    if inputs != [] {
      var before := inputs[..|inputs| - 1];
      RunKeepsOccupancies(observing, before);
      StepKeepsOccupancies(Run(Opening(observing), before), inputs[|inputs| - 1].0, inputs[|inputs| - 1].1);
    }
  }

  /** Fragments of two different occupancies never share a connection in which any
      offset of either direction is placeable, now or in a record already made. */
  lemma NeverSpliced(observing: Observing, inputs: seq<(Input, Taking)>, a: Write, b: Write, d: Direction, offset: nat)
    requires a in Run(Opening(observing), inputs).delivered && b in Run(Opening(observing), inputs).delivered
    requires a.fragment.connection == b.fragment.connection
    requires a.transfer.sequence.occupancy != b.transfer.sequence.occupancy
    requires a.transfer.sequence.occupancy != 0 && b.transfer.sequence.occupancy != 0
    ensures var c := Run(Opening(observing), inputs);
            && a.fragment.connection in c.streams
            && !Placed(c.streams[a.fragment.connection], d).Placeable(offset)
            && (forall e :: e in c.ended && e.stream.id == a.fragment.connection ==>
                  !Placed(e.stream, d).Placeable(offset))
  {
    hide Run;
    RunKeepsOccupancies(observing, inputs);
    RunEvident(Opening(observing), inputs);
    RunSound(Opening(observing), inputs);
  }

  // Any number of deliverers, each sink answering when it will.

  /** Whether a fragment is of the occupancy a stream follows, if both are kept. */
  predicate Follows(s: Stream, w: Write) {
    s.occupancy == 0 || w.transfer.sequence.occupancy == 0 || s.occupancy == w.transfer.sequence.occupancy
  }

  predicate Unplaced(s: Stream) { s.occupancy == 0 ==> CutAtZero(s.lanes.sent) && CutAtZero(s.lanes.received) }

  /** A record follows the occupancy its connection does. */
  ghost predicate RecordOwn(c: State, e: Capture.Ended) {
    e.stream.id in c.streams && e.stream.occupancy == c.streams[e.stream.id].occupancy && Unplaced(e.stream)
  }

  ghost predicate EveryOwn(y: System) {
    && (forall w :: Offered(y, w) ==>
          w.fragment.connection in y.capture.streams && Follows(y.capture.streams[w.fragment.connection], w))
    && (forall e :: e in y.capture.ended ==> RecordOwn(y.capture, e))
  }

  /** Streams keep the occupancy they began with. */
  ghost predicate Lasting(c: State, r: State) {
    forall id :: id in c.streams ==> id in r.streams && r.streams[id].occupancy == c.streams[id].occupancy
  }

  lemma LastingOwn(y: System, r: System)
    requires EveryOwn(y) && Lasting(y.capture, r.capture)
    requires forall w :: Offered(r, w) && !Offered(y, w) ==>
               w.fragment.connection in r.capture.streams && Follows(r.capture.streams[w.fragment.connection], w)
    requires forall e :: e in r.capture.ended && e !in y.capture.ended ==> RecordOwn(r.capture, e)
    ensures EveryOwn(r)
  {
    hide Follows, Unplaced;
    forall w | Offered(r, w)
      ensures w.fragment.connection in r.capture.streams && Follows(r.capture.streams[w.fragment.connection], w)
    {
      if Offered(y, w) {
        SameFollows(y.capture.streams[w.fragment.connection], r.capture.streams[w.fragment.connection], w);
      }
    }
    forall e | e in r.capture.ended ensures RecordOwn(r.capture, e) {
      if e in y.capture.ended { assert RecordOwn(y.capture, e); }
    }
  }

  lemma SameFollows(s: Stream, r: Stream, w: Write)
    requires Follows(s, w) && r.occupancy == s.occupancy
    ensures Follows(r, w)
  {
  }

  lemma DeliverOwn(y: System, i: nat, taking: Taking)
    requires Sane(y) && True(y) && EveryOwn(y) && i < |y.world.submitted|
    ensures EveryOwn(Happen(y, Deliver(i, taking)))
  {
    hide True, Place, PlaceIn, RetireIn, Target, Others, Retires, EveryOwn, Idle, Follows, RecordOwn, WriteOf, Lasting;
    var t, c := y.world.submitted[i].transfer, y.capture;
    var r := Happen(y, Deliver(i, taking));
    if Idle(c, t) {
      IdleEffect(c, t, Accepted, taking);
      assert Lasting(c, r.capture) by { KeptLasting(c, r.capture); }
    } else {
      PlaceEffect(c, t, taking);
      PlacedLasting(c, t, r.capture);
      TargetFollows(c, t);
      if Retires(c, t) { RetiredOwn(y, t, r.capture); }
    }
    LastingOwn(y, r);
  }

  lemma KeptLasting(c: State, r: State)
    requires r.streams == c.streams
    ensures Lasting(c, r)
  {
  }

  lemma PlacedLasting(c: State, t: Transfer, r: State)
    requires WellFormed(c) && r.streams == Others(c, t)[Target(c, t).id := PlaceIn(Target(c, t), t)]
    ensures Lasting(c, r)
  {
    hide PlaceIn, RetireIn, FreshStream;
    TargetNamed(c, t);
  }

  lemma TargetFollows(c: State, t: Transfer)
    requires WellFormed(c)
    ensures Follows(PlaceIn(Target(c, t), t), WriteOf(Target(c, t), t))
    ensures WriteOf(Target(c, t), t).fragment.connection == Target(c, t).id
  {
    hide PlaceIn, FreshStream;
    FreshNamed(c.observing, c.next + 1, t);
  }

  lemma RetiredOwn(y: System, t: Transfer, r: State)
    requires Sane(y) && True(y) && Lasting(y.capture, r) && Retires(y.capture, t)
    ensures RecordOwn(r, Capture.Ended(RetireIn(y.capture.streams[y.capture.open[t.Key()]]), EndingUnobserved, t.at))
  {
    var s := y.capture.streams[y.capture.open[t.Key()]];
    assert TrueStream(y.world, s);
    EndingsTrue(y.world, s, NoClosing, []);
    hide RetireIn, TrueLane;
  }

  lemma EndOwn(y: System, input: Input, c: State)
    requires True(y) && EveryOwn(y) && (input.Closed? || input.Finished?) && EndsAs(y.capture, input, c)
    requires True(y.(capture := c))
    ensures EveryOwn(y.(capture := c))
  {
    hide TrueStream, EveryOwn, Follows, Unplaced, RetireIn, CloseIn, FinishIn;
    var r := y.(capture := c);
    if EndedBy(y.capture, input).Some? {
      var e := EndedBy(y.capture, input).value;
      assert c.streams[e.stream.id] == e.stream;
      TrueUnplaced(y.world, e.stream);
    }
    LastingOwn(y, r);
  }

  lemma TrueUnplaced(world: P.World, s: Stream)
    requires TrueStream(world, s)
    ensures Unplaced(s)
  {
  }

  lemma HappenOwn(y: System, e: Event)
    requires Sane(y) && True(y) && EveryOwn(y) && True(Happen(y, e))
    ensures EveryOwn(Happen(y, e))
  {
    hide True, EveryOwn, P.Make, Place, Settle, RefuseStep, CloseStep, FinishStep, EndsAs, RefuseIn, Follows,
      RefuseWrite;
    match e
    case Produce(_) => LastingOwn(y, Happen(y, e));
    case Deliver(i, taking) => if i < |y.world.submitted| { DeliverOwn(y, i, taking); }
    case Answered(k, answer) => if k < |y.pending| { AnswerOwn(y, k, answer); }
    case Gate(i) =>
      if i < |y.world.submitted| {
        RefuseEffect(y.capture, y.world.submitted[i].transfer);
        LastingOwn(y, Happen(y, e));
      }
    case Ended(closing, taking) =>
      CloseEffect(y.capture, closing, taking);
      EndOwn(y, Closed(closing), CloseStep(y.capture, closing, taking));
    case Finish(key, asked, at, taking) =>
      FinishEffect(y.capture, key, asked, at, taking);
      EndOwn(y, Input.Finished(key, asked, at), FinishStep(y.capture, key, asked, at, taking));
  }

  lemma AnswerOwn(y: System, k: nat, answer: Answer)
    requires Sane(y) && EveryOwn(y) && k < |y.pending|
    ensures EveryOwn(Happen(y, Answered(k, answer)))
  {
    hide EveryOwn, Follows, RefuseWrite, Recount;
    PendingLess(y.pending, k);
    assert y.pending[k] in y.pending;
    LastingOwn(y, Happen(y, Answered(k, answer)));
  }

  lemma {:induction false} HistoryOwn(observing: Observing, events: seq<Event>)
    ensures EveryOwn(History(observing, events))
  {
    hide Happen, True;
    if events != [] {
      hide EveryOwn;
      var before := events[..|events| - 1];
      HistoryOwn(observing, before);
      HistoryTrue(observing, before);
      HistoryTrue(observing, events);
      HappenOwn(History(observing, before), events[|events| - 1]);
    }
  }

  /** The same with any number of deliverers: of fragments offered, whether a sink
      has yet answered for them or not. */
  lemma NeverSplicedAcross(observing: Observing, events: seq<Event>, a: Write, b: Write, d: Direction, offset: nat)
    requires Offered(History(observing, events), a) && Offered(History(observing, events), b)
    requires a.fragment.connection == b.fragment.connection
    requires a.transfer.sequence.occupancy != b.transfer.sequence.occupancy
    requires a.transfer.sequence.occupancy != 0 && b.transfer.sequence.occupancy != 0
    ensures var c := History(observing, events).capture;
            && a.fragment.connection in c.streams
            && !Placed(c.streams[a.fragment.connection], d).Placeable(offset)
            && (forall e :: e in c.ended && e.stream.id == a.fragment.connection ==>
                  !Placed(e.stream, d).Placeable(offset))
  {
    hide History, TrueStream;
    HistoryOwn(observing, events);
    HistoryTrue(observing, events);
    var y := History(observing, events);
    TrueUnplaced(y.world, y.capture.streams[a.fragment.connection]);
    forall e | e in y.capture.ended && e.stream.id == a.fragment.connection
      ensures !Placed(e.stream, d).Placeable(offset)
    {
      assert RecordOwn(y.capture, e);
    }
  }

  /** A transfer, a refusal or an ending of an older occupancy of a followed handle
      moves counters and nothing else. */
  lemma OlderChangesNothing(c: State, input: Input, taking: Taking, key: StreamKey, occupancy: nat)
    requires WellFormed(c) && key in c.open
    requires 0 < occupancy < c.streams[c.open[key]].occupancy
    requires match input
             case Transferred(t, _) => t.Key() == key && t.sequence.occupancy == occupancy
             case Refused(t) => t.Key() == key && t.sequence.occupancy == occupancy
             case Closed(e) => e.Key() == key && e.occupancy == occupancy
             case Finished(_, _, _) => false
    ensures Step(c, input, taking) == c.(stats := Step(c, input, taking).stats)
  {
    hide RetireIn, CloseIn, PlaceIn, RefuseIn;
  }
}
