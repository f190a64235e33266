/** Any number of deliverers, each sink answering when it will: when a record
    contradicts the evidence of a fragment of its connection. */
module Disagreement {
  import opened Values
  import opened Connection
  import opened Evidence
  import opened Probe
  import opened Capture
  import opened CaptureEffects
  import opened LaterWord
  import P = Producer
  import opened EndToEnd
  import Deliverers

  /** Whether a fragment was ever offered to a sink. */
  ghost predicate Ever(observing: Observing, events: seq<Event>, w: Write) {
    events != [] && (Ever(observing, events[..|events| - 1], w) || Offered(History(observing, events), w))
  }

  /** Whether an event is a refusal that first cuts a direction of a fragment's stream,
      below what the fragment's evidence reached. */
  predicate Undercuts(y: System, e: Event, w: Write) {
    && e.Answered? && e.which < |y.pending| && !e.answer.Accepted?
    && (var f := y.pending[e.which].fragment;
        && f.connection == w.fragment.connection && f.connection in y.capture.streams
        && y.capture.streams[f.connection].lanes.Of(f.direction).cut.None?
        && f.offset < w.fragment.evidence.directions.Of(f.direction).limit)
  }

  /** That one such refusal came after the fragment was offered. */
  ghost predicate Undercut(observing: Observing, events: seq<Event>, w: Write) {
    events != [] &&
    (var before, e := events[..|events| - 1], events[|events| - 1];
     || Undercut(observing, before, w)
     || (Ever(observing, before, w) && Undercuts(History(observing, before), e, w)))
  }

  /** A direction cut below what an evidence said it reached uncut. */
  predicate Broken(s: Stream, e: Evidence) {
    BrokenIn(s.lanes.sent, e.directions.sent) || BrokenIn(s.lanes.received, e.directions.received)
  }

  predicate BrokenIn(l: Lane, e: DirectionEvidence) { l.cut.Some? && !e.cut && l.cut.value.from < e.limit }

  /** A broken evidence is contradicted by every record of the stream. */
  lemma BrokenDisagrees(s: Stream, e: Evidence, how: Ending, at: Time)
    requires Broken(s, e) && StreamSound(s)
    ensures !Agrees(RecordOf(s, how, at), e)
  {
    hide Associated;
    PlacementOf(s, how, at, Sent);
    PlacementOf(s, how, at, Received);
  }

  lemma BrokenOnward(s: Stream, r: Stream, e: Evidence)
    requires Broken(s, e) && StreamExtends(s, r)
    ensures Broken(r, e)
  {
  }

  lemma RefusalStands(s: Stream, f: Fragment, limit: bool, e: Evidence)
    requires StreamSound(s) && f.offset <= s.lanes.Of(f.direction).offset
    ensures StreamSound(RefuseWrite(s, f, limit))
    ensures Broken(s, e) ==> Broken(RefuseWrite(s, f, limit), e)
  {
  }

  /** The refusal that breaks it. */
  lemma RefusalBreaks(s: Stream, f: Fragment, limit: bool, e: Evidence)
    requires Backs(s, e) && s.lanes.Of(f.direction).cut.None? && f.offset < e.directions.Of(f.direction).limit
    ensures Broken(RefuseWrite(s, f, limit), e)
  {
  }

  // Each event.

  ghost predicate Sounds(y: System) { forall id :: id in y.capture.streams ==> StreamSound(y.capture.streams[id]) }

  /** Every stream only went on. */
  ghost predicate GoesOn(y: System, r: System) {
    forall id :: id in y.capture.streams ==>
      id in r.capture.streams && StreamExtends(y.capture.streams[id], r.capture.streams[id])
  }

  lemma FreshSound(observing: Observing, id: nat, t: Transfer)
    ensures StreamSound(FreshStream(observing, id, t))
  {
  }

  lemma DeliverGoesOn(y: System, i: nat, taking: Taking)
    requires Sane(y) && Sounds(y) && i < |y.world.submitted|
    ensures var r := Happen(y, Deliver(i, taking));
            && GoesOn(y, r) && Sounds(r)
            && (forall w :: Offered(r, w) && !Offered(y, w) ==>
                  && w.fragment.connection in r.capture.streams
                  && Backs(r.capture.streams[w.fragment.connection], w.fragment.evidence)
                  && w.fragment.connection in r.capture.open.Values)
  {
    hide Place, PlaceIn, FreshStream, RetireIn, StreamExtends, StreamSound, Backs, WriteOf, Offers, Idle, Continues;
    var t, c := y.world.submitted[i].transfer, y.capture;
    var r := Happen(y, Deliver(i, taking));
    StreamsReflexive(c);
    if Idle(c, t) {
      IdleEffect(c, t, Accepted, taking);
    } else {
      PlaceEffect(c, t, taking);
      PlacedGoesOn(c, t, r.capture);
      OfferedInto(c, t, r.capture);
    }
  }

  lemma PlacedGoesOn(c: State, t: Transfer, r: State)
    requires WellFormed(c) && forall id :: id in c.streams ==> StreamSound(c.streams[id])
    requires r.streams == Others(c, t)[Target(c, t).id := PlaceIn(Target(c, t), t)]
    ensures forall id :: id in c.streams ==> id in r.streams && StreamExtends(c.streams[id], r.streams[id])
    ensures forall id :: id in r.streams ==> StreamSound(r.streams[id])
  {
    hide PlaceIn, FreshStream, RetireIn, StreamExtends, StreamSound, Continues;
    StreamsReflexive(c);
    FreshSound(c.observing, c.next + 1, t);
    FreshNamed(c.observing, c.next + 1, t);
    PlaceExtends(Target(c, t), t);
    if t.Key() in c.open {
      RetiringExtends(c.streams[c.open[t.Key()]]);
    }
  }

  lemma OfferedInto(c: State, t: Transfer, r: State)
    requires WellFormed(c) && forall id :: id in c.streams ==> StreamSound(c.streams[id])
    requires r.streams == Others(c, t)[Target(c, t).id := PlaceIn(Target(c, t), t)]
    requires r.open == c.open[t.Key() := Target(c, t).id]
    ensures var w := WriteOf(Target(c, t), t);
            Offers(Target(c, t), t) ==>
              && w.fragment.connection in r.streams && w.fragment.connection in r.open.Values
              && Backs(r.streams[w.fragment.connection], w.fragment.evidence)
  {
    hide PlaceIn, FreshStream, RetireIn, StreamSound, Backs;
    FreshSound(c.observing, c.next + 1, t);
    assert r.open[t.Key()] == Target(c, t).id;
    if Offers(Target(c, t), t) {
      BacksItself(Target(c, t), t);
    }
    hide Target;
  }

  lemma OtherGoesOn(y: System, e: Event)
    requires Sane(y) && Sounds(y) && !e.Deliver? && !(e.Answered? && !e.answer.Accepted?)
    ensures var r := Happen(y, e);
            GoesOn(y, r) && Sounds(r) && forall w :: Offered(r, w) ==> Offered(y, w)
  {
    hide RefuseStep, RefuseIn, CloseStep, FinishStep, RetireIn, CloseIn, FinishIn, StreamExtends, StreamSound, P.Make;
    StreamsReflexive(y.capture);
    match e
    case Gate(i) =>
      if i < |y.world.submitted| {
        var t := y.world.submitted[i].transfer;
        RefuseEffect(y.capture, t);
        if Refusable(y.capture, t) { RefusalExtends(y.capture.streams[y.capture.open[t.Key()]], t); }
      }
    case Ended(closing, taking) =>
      CloseEffect(y.capture, closing, taking);
      EndingGoesOn(y.capture, Closed(closing), CloseStep(y.capture, closing, taking));
    case Finish(key, asked, at, taking) =>
      FinishEffect(y.capture, key, asked, at, taking);
      EndingGoesOn(y.capture, Input.Finished(key, asked, at), FinishStep(y.capture, key, asked, at, taking));
    case Answered(k, _) => if k < |y.pending| { PendingLess(y.pending, k); }
    case _ =>
  }

  lemma EndingGoesOn(c: State, input: Input, r: State)
    requires WellFormed(c) && (input.Closed? || input.Finished?) && EndsAs(c, input, r)
    requires forall id :: id in c.streams ==> StreamSound(c.streams[id])
    ensures forall id :: id in c.streams ==> id in r.streams && StreamExtends(c.streams[id], r.streams[id])
    ensures forall id :: id in r.streams ==> StreamSound(r.streams[id])
  {
    hide RetireIn, CloseIn, FinishIn, StreamExtends, StreamSound;
    StreamsReflexive(c);
    if EndedBy(c, input).Some? {
      EndingsExtend(c.streams[c.open[EndingKey(input)]], if input.Closed? then input.closing else NoClosing,
                    if input.Finished? then input.asked else []);
    }
  }

  // Whole histories.

  /** What a stream says of an evidence offered of it, as the refusals since decide. */
  ghost predicate Told(s: Stream, e: Evidence, undercut: bool) { if undercut then Broken(s, e) else Backs(s, e) }

  ghost predicate Tells(observing: Observing, events: seq<Event>) {
    var y := History(observing, events);
    && Sounds(y)
    && (forall w :: Ever(observing, events, w) ==>
          && w.fragment.connection in y.capture.streams
          && Told(y.capture.streams[w.fragment.connection], w.fragment.evidence, Undercut(observing, events, w)))
  }

  lemma ToldOnward(s: Stream, r: Stream, e: Evidence, undercut: bool)
    requires Told(s, e, undercut) && StreamExtends(s, r)
    ensures Told(r, e, undercut)
  {
    if undercut { BrokenOnward(s, r, e); } else { BacksOnward(s, r, e); }
  }

  /** A refusal, of a fragment of the same stream or of another. */
  lemma ToldRefused(y: System, e: Event, w: Write, undercut: bool)
    requires Sane(y) && Sounds(y) && True(y) && e.Answered? && !e.answer.Accepted?
    requires w.fragment.connection in y.capture.streams
    requires Told(y.capture.streams[w.fragment.connection], w.fragment.evidence, undercut)
    ensures var r := Happen(y, e);
            && w.fragment.connection in r.capture.streams
            && Told(r.capture.streams[w.fragment.connection], w.fragment.evidence, undercut || Undercuts(y, e, w))
  {
    hide True, TrueStream, RefuseWrite, Backs, Broken, StreamSound, Recount;
    if e.which < |y.pending| {
      var v, ev := y.pending[e.which], w.fragment.evidence;
      PendingWithin(y, e.which);
      if v.fragment.connection == w.fragment.connection {
        var s := y.capture.streams[v.fragment.connection];
        RefusalStands(s, v.fragment, e.answer.RefusedAtLimit?, ev);
        if !undercut {
          if Undercuts(y, e, w) {
            RefusalBreaks(s, v.fragment, e.answer.RefusedAtLimit?, ev);
          } else {
            Deliverers.StillBacks(s, v.fragment, e.answer.RefusedAtLimit?, ev);
          }
        }
      }
    }
  }

  lemma PendingWithin(y: System, k: nat)
    requires True(y) && k < |y.pending|
    ensures var f := y.pending[k].fragment;
            && f.connection in y.capture.streams
            && f.offset <= y.capture.streams[f.connection].lanes.Of(f.direction).offset
  {
    hide TrueStream, TrueWrite;
    assert Offered(y, y.pending[k]);
    WithinStream(y.world, y.capture.streams[y.pending[k].fragment.connection], y.pending[k]);
  }

  lemma RefusedSounds(y: System, e: Event)
    requires Sane(y) && Sounds(y) && True(y) && e.Answered? && !e.answer.Accepted?
    ensures Sounds(Happen(y, e)) && forall w :: Offered(Happen(y, e), w) ==> Offered(y, w)
  {
    hide True, RefuseWrite, StreamSound, Recount, Broken;
    if e.which < |y.pending| {
      var v := y.pending[e.which];
      PendingWithin(y, e.which);
      PendingLess(y.pending, e.which);
      RefusalStands(y.capture.streams[v.fragment.connection], v.fragment, e.answer.RefusedAtLimit?,
                    v.fragment.evidence);
    }
  }

  lemma {:induction false} HistoryTells(observing: Observing, events: seq<Event>)
    ensures Tells(observing, events)
  {
    if events != [] {
      HistoryTells(observing, events[..|events| - 1]);
      HappenTells(observing, events);
    }
  }

  lemma HappenTells(observing: Observing, events: seq<Event>)
    requires events != [] && Tells(observing, events[..|events| - 1])
    ensures Tells(observing, events)
  {
    var before, e := events[..|events| - 1], events[|events| - 1];
    var y, r := History(observing, before), History(observing, events);
    HistoryTrue(observing, before);
    assert r == Happen(y, e);
    hide Happen, True, Told, Sounds, History, StreamExtends;
    if e.Deliver? {
      DeliverTells(y, e);
    } else if e.Answered? && !e.answer.Accepted? {
      RefusedSounds(y, e);
    } else {
      OtherGoesOn(y, e);
    }
    forall w | Ever(observing, events, w)
      ensures w.fragment.connection in r.capture.streams
      ensures Told(r.capture.streams[w.fragment.connection], w.fragment.evidence, Undercut(observing, events, w))
    {
      if Ever(observing, before, w) {
        EverTells(observing, events, w);
      } else {
        NotUndercut(observing, before, w);
        assert Offered(r, w);
        if Offered(y, w) { NeverBefore(observing, before, w); }
      }
    }
  }

  lemma DeliverTells(y: System, e: Event)
    requires Sane(y) && Sounds(y) && e.Deliver?
    ensures var r := Happen(y, e);
            && Sounds(r)
            && (forall w :: Offered(r, w) && !Offered(y, w) ==>
                  && w.fragment.connection in r.capture.streams
                  && Told(r.capture.streams[w.fragment.connection], w.fragment.evidence, false))
  {
    hide Place, Sounds;
    if e.index < |y.world.submitted| { DeliverGoesOn(y, e.index, e.taking); }
  }

  /** Nothing is offered in a history that was not ever. */
  lemma NeverBefore(observing: Observing, events: seq<Event>, w: Write)
    requires Offered(History(observing, events), w)
    ensures Ever(observing, events, w)
  {
  }

  lemma {:induction false} NotUndercut(observing: Observing, events: seq<Event>, w: Write)
    requires !Ever(observing, events, w)
    ensures !Undercut(observing, events, w)
  {
    hide History, Undercuts;
    if events != [] { NotUndercut(observing, events[..|events| - 1], w); }
  }

  lemma EverTells(observing: Observing, events: seq<Event>, w: Write)
    requires events != [] && Tells(observing, events[..|events| - 1]) && Ever(observing, events[..|events| - 1], w)
    ensures var r := History(observing, events);
            && w.fragment.connection in r.capture.streams
            && Told(r.capture.streams[w.fragment.connection], w.fragment.evidence, Undercut(observing, events, w))
  {
    var before, e := events[..|events| - 1], events[|events| - 1];
    var y, id := History(observing, before), w.fragment.connection;
    HistoryTrue(observing, before);
    assert History(observing, events) == Happen(y, e);
    var was := Undercut(observing, before, w);
    hide True, Told, Sounds, History, StreamExtends, Undercut, Ever;
    if e.Answered? && !e.answer.Accepted? {
      ToldRefused(y, e, w, was);
    } else {
      if e.Deliver? {
        if e.index < |y.world.submitted| { DeliverGoesOn(y, e.index, e.taking); } else { Still(y); }
      } else {
        OtherGoesOn(y, e);
      }
      ToldOnward(y.capture.streams[id], Happen(y, e).capture.streams[id], w.fragment.evidence, was);
    }
    UndercutNow(observing, events, w);
  }

  lemma Still(y: System)
    ensures GoesOn(y, y)
  {
    StreamsReflexive(y.capture);
  }

  lemma UndercutNow(observing: Observing, events: seq<Event>, w: Write)
    requires events != [] && Ever(observing, events[..|events| - 1], w)
    ensures var before, e := events[..|events| - 1], events[|events| - 1];
            Undercut(observing, events, w) <==>
            Undercut(observing, before, w) || Undercuts(History(observing, before), e, w)
  {
    hide History, Undercuts;
  }

  /** As its stream stands: a record would agree with the evidence of a fragment ever
      offered exactly where the evidence is valid and no refusal undercut it since. */
  lemma StandsExactly(observing: Observing, events: seq<Event>, w: Write, how: Ending, at: Time)
    requires Ever(observing, events, w)
    ensures var c := History(observing, events).capture;
            && w.fragment.connection in c.streams
            && (Agrees(RecordOf(c.streams[w.fragment.connection], how, at), w.fragment.evidence) <==>
                  w.fragment.evidence.Valid() && !Undercut(observing, events, w))
  {
    hide History, Agrees, RecordOf, Backs, Broken, StreamSound;
    HistoryTells(observing, events);
    var s, e := History(observing, events).capture.streams[w.fragment.connection], w.fragment.evidence;
    assert StreamSound(s);
    if Undercut(observing, events, w) {
      BrokenDisagrees(s, e, how, at);
    } else {
      BackedAgrees(s, e, how, at);
    }
  }

  // Records.

  /** That an event made a record: then its stream is the one it found, ended. */
  lemma Records(y: System, e: Event, one: Capture.Ended)
    requires Sane(y) && one in Happen(y, e).capture.ended && one !in y.capture.ended
    ensures one.stream.id in Happen(y, e).capture.streams
    ensures Happen(y, e).capture.streams[one.stream.id] == one.stream
  {
    hide Place, PlaceIn, FreshStream, RetireIn, CloseStep, FinishStep, RefuseStep, CloseIn, FinishIn, RefuseWrite,
      P.Make;
    match e
    case Deliver(i, taking) =>
      if i < |y.world.submitted| {
        var t := y.world.submitted[i].transfer;
        if Idle(y.capture, t) {
          IdleEffect(y.capture, t, Accepted, taking);
        } else {
          PlaceEffect(y.capture, t, taking);
          FreshNamed(y.capture.observing, y.capture.next + 1, t);
        }
      }
    case Gate(i) => if i < |y.world.submitted| { RefuseEffect(y.capture, y.world.submitted[i].transfer); }
    case Ended(closing, taking) => CloseEffect(y.capture, closing, taking);
    case Finish(key, asked, at, taking) => FinishEffect(y.capture, key, asked, at, taking);
    case _ =>
  }

  /** A record once made stays, and nothing more is offered of its connection. */
  lemma RecordStays(y: System, e: Event, one: Capture.Ended)
    requires Sane(y) && one in y.capture.ended
    ensures one in Happen(y, e).capture.ended
  {
    hide Place, RetireIn, CloseStep, FinishStep, RefuseStep, CloseIn, FinishIn, P.Make;
    match e
    case Deliver(i, taking) =>
      if i < |y.world.submitted| {
        var t := y.world.submitted[i].transfer;
        if Idle(y.capture, t) {
          IdleEffect(y.capture, t, Accepted, taking);
        } else {
          PlaceEffect(y.capture, t, taking);
        }
      }
    case Gate(i) => if i < |y.world.submitted| { RefuseEffect(y.capture, y.world.submitted[i].transfer); }
    case Ended(closing, taking) => CloseEffect(y.capture, closing, taking);
    case Finish(key, asked, at, taking) => FinishEffect(y.capture, key, asked, at, taking);
    case _ =>
  }

  lemma NothingMore(y: System, e: Event, one: Capture.Ended, w: Write)
    requires Sane(y) && Sounds(y) && True(y) && True(Happen(y, e)) && one in y.capture.ended
    requires w.fragment.connection == one.stream.id && Offered(Happen(y, e), w)
    ensures Offered(y, w)
  {
    RecordStays(y, e, one);
    assert EndToEnd.Finished(Happen(y, e), one);
    hide True, EndToEnd.Finished, Sounds, Place, P.Make;
    if e.Deliver? {
      if e.index < |y.world.submitted| { DeliverGoesOn(y, e.index, e.taking); }
    } else if e.Answered? && !e.answer.Accepted? {
      RefusedSounds(y, e);
    } else {
      OtherGoesOn(y, e);
    }
  }

  /** So a fragment ever offered of a recorded connection was offered by then. */
  lemma {:induction false} OfferedByThen(observing: Observing, events: seq<Event>, m: nat, one: Capture.Ended, w: Write)
    requires m <= |events| && one in History(observing, events[..m]).capture.ended
    requires w.fragment.connection == one.stream.id && Ever(observing, events, w)
    ensures one in History(observing, events).capture.ended && Ever(observing, events[..m], w)
  {
    if m == |events| {
      assert events[..m] == events;
    } else {
      var before, e := events[..|events| - 1], events[|events| - 1];
      assert before[..m] == events[..m];
      var y := History(observing, before);
      RecordKept(observing, before, m, one);
      RecordStays(y, e, one);
      if !Ever(observing, before, w) {
        HistoryTrue(observing, before);
        HistoryTrue(observing, events);
        HistoryTells(observing, before);
        NothingMore(y, e, one, w);
        NeverBefore(observing, before, w);
      } else {
        OfferedByThen(observing, before, m, one, w);
      }
    }
  }

  lemma {:induction false} RecordKept(observing: Observing, events: seq<Event>, m: nat, one: Capture.Ended)
    requires m <= |events| && one in History(observing, events[..m]).capture.ended
    ensures one in History(observing, events).capture.ended
  {
    if m == |events| {
      assert events[..m] == events;
    } else {
      var before := events[..|events| - 1];
      assert before[..m] == events[..m];
      RecordKept(observing, before, m, one);
      RecordStays(History(observing, before), events[|events| - 1], one);
    }
  }

  /** Of every history, record made in it and fragment of its connection ever offered,
      accepted before the record or after: the record agrees with the fragment's
      evidence if and only if that is valid and no refusal, from the offer to the
      record, first cut a direction below what it reached. */
  lemma RecordsDisagreeExactly(observing: Observing, events: seq<Event>, m: nat, one: Capture.Ended, w: Write)
    requires m < |events| && one in History(observing, events[..m + 1]).capture.ended
    requires one !in History(observing, events[..m]).capture.ended
    requires w.fragment.connection == one.stream.id && Ever(observing, events, w)
    ensures Agrees(RecordOf(one.stream, one.how, one.at), w.fragment.evidence) <==>
              w.fragment.evidence.Valid() && !Undercut(observing, events[..m + 1], w)
  {
    OfferedByThen(observing, events, m + 1, one, w);
    assert events[..m + 1][..m] == events[..m];
    Records(History(observing, events[..m]), events[m], one);
    StandsExactly(observing, events[..m + 1], w, one.how, one.at);
    hide Agrees, RecordOf;
  }
}
