/** More than one deliverer: the sink is written outside the session's lock, so a
    fragment can be refused after a later one of its direction was accepted. */
module Deliverers {
  import opened Values
  import opened Connection
  import opened Evidence
  import opened Probe
  import opened Capture
  import opened LaterWord
  import opened CaptureEffects

  /** A refusal contradicts what an accepted fragment said exactly when it is the
      direction's first cut and falls below what that fragment reached. */
  lemma RefusalAgrees(s: Stream, f: Fragment, limit: bool, e: Evidence, how: Ending, at: Time)
    requires Backs(s, e) && e.Valid()
    ensures Agrees(RecordOf(RefuseWrite(s, f, limit), how, at), e)
            <==> s.lanes.Of(f.direction).cut.Some? || e.directions.Of(f.direction).limit <= f.offset
  {
    hide Associated, RecordOf;
    var r := RefuseWrite(s, f, limit);
    if s.lanes.Of(f.direction).cut.Some? || e.directions.Of(f.direction).limit <= f.offset {
      StillBacks(s, f, limit, e);
      BackedAgrees(r, e, how, at);
    } else {
      PlacementOf(r, how, at, f.direction);
    }
  }

  lemma StillBacks(s: Stream, f: Fragment, limit: bool, e: Evidence)
    requires Backs(s, e)
    requires s.lanes.Of(f.direction).cut.Some? || e.directions.Of(f.direction).limit <= f.offset
    ensures Backs(RefuseWrite(s, f, limit), e)
  {
  }

  // Such a refusal happens: two transfers of one direction, in number order.

  /** A measured transfer of an observed birth's occupancy that moved bytes. */
  predicate Carries(t: Transfer, number: nat) {
    && t.measured && t.length > 0 && t.sequence.occupancy != 0 && t.sequence.born && !t.sequence.overlapped
    && t.sequence.number == number
  }

  predicate Together(t: Transfer, u: Transfer) {
    t.Key() == u.Key() && t.direction == u.direction && t.sequence.occupancy == u.sequence.occupancy
  }

  /** A stream the next transfer of a direction extends without a cut. */
  predicate Extends(s: Stream, t: Transfer) {
    && s.loss == NotStopped && s.occupancy == t.sequence.occupancy && s.lanes.Of(t.direction).cut.None?
    && s.lanes.Of(t.direction).numbered + 1 == t.sequence.number
  }

  lemma NextExtends(s: Stream, t: Transfer)
    requires Extends(s, t) && Carries(t, t.sequence.number)
    ensures var l, m := s.lanes.Of(t.direction), PlaceIn(s, t).lanes.Of(t.direction);
            && Offers(s, t) && m.cut.None? && m.numbered == t.sequence.number && m.offset == l.offset + t.length
            && PlaceIn(s, t).loss == NotStopped
            && WriteOf(s, t).fragment.offset == l.offset
            && WriteOf(s, t).fragment.evidence.directions.Of(t.direction).limit == m.offset
            && !WriteOf(s, t).fragment.evidence.directions.Of(t.direction).cut
  {
    hide Bind;
  }

  /** Two deliverers from the start: the first fragment is refused once the second
      was accepted. The record agreed with the second exactly where its evidence
      was valid, and after the refusal agrees with it no more. */
  lemma RefusedAfterAccepted(observing: Observing, t: Transfer, u: Transfer, taking: Taking, limit: bool, how: Ending,
                             at: Time)
    requires Carries(t, 1) && Carries(u, 2) && Together(t, u)
    ensures var (c1, first) := Place(Opening(observing), t, taking);
            var (c2, second) := Place(c1, u, taking);
            && first.Some? && second.Some?
            && (var c := Settle(c2, second.value, Accepted);
                var r := Settle(c, first.value, if limit then RefusedAtLimit else RefusedOtherwise);
                var e := second.value.fragment.evidence;
                && 1 in c.streams && 1 in r.streams && second.value in r.delivered
                && (Agrees(RecordOf(c.streams[1], how, at), e) <==> e.Valid())
                && !Agrees(RecordOf(r.streams[1], how, at), e))
  {
    var c0 := Opening(observing);
    var s0 := FreshStream(observing, 1, t);
    FreshExtends(observing, t);
    PlaceEffect(c0, t, taking);
    NextExtends(s0, t);
    PlaceExtends(s0, t);
    hide PlaceIn, FreshStream, WriteOf, Carries, Place, Agrees, RecordOf, RefuseWrite, Backs, StreamSound;
    var c1, s1 := Place(c0, t, taking).0, PlaceIn(s0, t);
    assert c1.open == map[t.Key() := 1] && c1.streams[1] == s1;
    SecondPlaced(c1, s0, s1, t, u, taking, limit, how, at);
  }

  lemma FreshExtends(observing: Observing, t: Transfer)
    requires Carries(t, 1)
    ensures var s := FreshStream(observing, 1, t); Extends(s, t) && StreamSound(s) && s.id == 1 && s.key == t.Key()
  {
  }

  lemma SecondPlaced(c: State, s0: Stream, s: Stream, t: Transfer, u: Transfer, taking: Taking, limit: bool,
                     how: Ending, at: Time)
    requires WellFormed(c) && u.Key() in c.open && c.open[u.Key()] == 1 && c.streams[1] == s && s == PlaceIn(s0, t)
    requires StreamSound(s) && Extends(s, u) && Carries(u, 2) && u.direction == t.direction
    requires var f := WriteOf(s0, t).fragment;
             f.connection == 1 && f.direction == t.direction && f.offset <= s.lanes.Of(t.direction).offset
    ensures var (c2, second) := Place(c, u, taking);
            && second.Some?
            && (var d := Settle(c2, second.value, Accepted);
                var r := Settle(d, WriteOf(s0, t), if limit then RefusedAtLimit else RefusedOtherwise);
                var e := second.value.fragment.evidence;
                && 1 in d.streams && 1 in r.streams && second.value in r.delivered
                && (Agrees(RecordOf(d.streams[1], how, at), e) <==> e.Valid())
                && !Agrees(RecordOf(r.streams[1], how, at), e))
  {
    hide PlaceIn, FreshStream, WriteOf, Place, Agrees, RecordOf, RefuseWrite, StreamSound, Carries, Obsolete, Recount;
    StreamDisagrees(s, u, WriteOf(s0, t).fragment, limit, how, at);
    NotIdle(c, u);
    PlaceEffect(c, u, taking);
  }

  lemma NotIdle(c: State, u: Transfer)
    requires WellFormed(c) && u.Key() in c.open && Extends(c.streams[c.open[u.Key()]], u) && Carries(u, 2)
    ensures !Idle(c, u)
  {
  }

  lemma StreamDisagrees(s: Stream, u: Transfer, f: Fragment, limit: bool, how: Ending, at: Time)
    requires StreamSound(s) && Extends(s, u) && Carries(u, 2)
    requires f.direction == u.direction && f.offset <= s.lanes.Of(f.direction).offset
    ensures var e := WriteOf(s, u).fragment.evidence;
            && Offers(s, u)
            && (Agrees(RecordOf(PlaceIn(s, u), how, at), e) <==> e.Valid())
            && !Agrees(RecordOf(RefuseWrite(PlaceIn(s, u), f, limit), how, at), e)
  {
    NextExtends(s, u);
    BacksItself(s, u);
    hide PlaceIn, WriteOf, Agrees, RecordOf, RefuseWrite, Backs, StreamSound;
    var e := WriteOf(s, u).fragment.evidence;
    BackedAgrees(PlaceIn(s, u), e, how, at);
    AgreesValid(RecordOf(RefuseWrite(PlaceIn(s, u), f, limit), how, at), e);
    if e.Valid() {
      RefusalAgrees(PlaceIn(s, u), f, limit, e, how, at);
    }
  }

  lemma AgreesValid(r: Record, e: Evidence)
    ensures Agrees(r, e) ==> e.Valid()
  {
  }
}
