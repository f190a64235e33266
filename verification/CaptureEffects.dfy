/** What each of capture's steps does to its streams, its deliveries and its
    records: the one place the session's branching is taken apart. */
module CaptureEffects {
  import opened Values
  import opened Connection
  import opened Evidence
  import opened Probe
  import opened Capture

  /** The stream a transfer is placed in: the one followed, or a fresh one. */
  function Target(c: State, t: Transfer): (s: Stream)
    requires WellFormed(c)
    ensures s.key == t.Key()
  {
    if t.Key() in c.open && Continues(c.streams[c.open[t.Key()]], t) then c.streams[c.open[t.Key()]]
    else FreshStream(c.observing, c.next + 1, t)
  }

  /** Whether a transfer retires the stream its key names. */
  predicate Retires(c: State, t: Transfer)
    requires WellFormed(c)
  {
    t.Key() in c.open && !Continues(c.streams[c.open[t.Key()]], t)
  }

  /** The lane a placed transfer leaves, from the lane its number was read in. */
  function PlacedLane(l: Lane, s: Stream, t: Transfer): Lane {
    if !t.measured then CutLane(l, l.offset, LengthUnmeasured, 0, Whole)
    else if t.length == 0 then Resolve(l.(empties := l.empties + 1), t.sequence.number, IsNext(s, t))
    else if s.loss != NotStopped then l
    else Advance(l, t, IsNext(s, t))
  }

  lemma PlacedShape(s: Stream, t: Transfer)
    requires t.measured || Moved(t)
    ensures var r, n := PlaceIn(s, t), Number(s, t);
            && r.lanes == With(n.lanes, t.direction, PlacedLane(n.lanes.Of(t.direction), s, t))
            && r.loss == n.loss && r.occupancy == n.occupancy
  {
    hide NumberLane, Advance, Resolve, CutLane, CutBoth;
    CutBothApart(NoteUnlocated(s, t.sequence.unlocated));
  }

  /** The early count plays no part in a number. */
  lemma CutBothApart(s: Stream)
    ensures var s1 := s.(earlySeen := s.earlySeen + 1);
            CutBoth(s1, SequenceUnavailable, NoSequenceKept)
            == CutBoth(s, SequenceUnavailable, NoSequenceKept).(earlySeen := s.earlySeen + 1)
  {
  }

  /** A stream after a transfer placed in it, the sink having answered. */
  function After(s: Stream, t: Transfer, answer: Answer): (r: Stream)
    ensures SameConnection(s, r)
  {
    if Offers(s, t) && !answer.Accepted?
    then RefuseWrite(PlaceIn(s, t), WriteOf(s, t).fragment, answer.RefusedAtLimit?)
    else PlaceIn(s, t)
  }

  /** The streams other than the target, once a replaced one has been retired. */
  function Others(c: State, t: Transfer): map<nat, Stream>
    requires WellFormed(c)
  {
    if Retires(c, t) then c.streams[c.open[t.Key()] := RetireIn(c.streams[c.open[t.Key()]])] else c.streams
  }

  predicate Idle(c: State, t: Transfer)
    requires WellFormed(c)
  {
    Obsolete(c, t) || Placeless(t)
  }

  lemma BeginEffect(c: State, t: Transfer)
    requires WellFormed(c) && t.Key() !in c.open
    ensures var r := BeginStream(c, t);
            && r.streams == c.streams[c.next + 1 := FreshStream(c.observing, c.next + 1, t)]
            && r.open == c.open[t.Key() := c.next + 1] && r.next == c.next + 1
            && r.delivered == c.delivered && r.ended == c.ended && r.observing == c.observing
  {
    hide FreshStream, Cuts;
    FreshNamed(c.observing, c.next + 1, t);
  }

  lemma RetireEffect(c: State, key: StreamKey, at: Time, taking: Taking)
    requires WellFormed(c) && key in c.open
    ensures var r := Retire(c, key, at, taking);
            && r.streams == c.streams[c.open[key] := RetireIn(c.streams[c.open[key]])] && r.open == c.open - {key}
            && r.ended == c.ended + [Ended(RetireIn(c.streams[c.open[key]]), EndingUnobserved, at)]
            && r.next == c.next && r.delivered == c.delivered && r.observing == c.observing
  {
    hide RetireIn, Cuts, LostIn, CountUnrecorded;
  }

  lemma FollowEffect(c: State, t: Transfer, taking: Taking)
    requires WellFormed(c)
    ensures var r := Follow(c, t, taking);
            && r.streams == Others(c, t)[Target(c, t).id := Target(c, t)]
            && r.open == c.open[t.Key() := Target(c, t).id]
            && r.delivered == c.delivered
            && r.ended == c.ended + (if Retires(c, t)
                                     then [Ended(RetireIn(c.streams[c.open[t.Key()]]), EndingUnobserved, t.at)] else [])
            && r.observing == c.observing
            && r.next == (if t.Key() in c.open && !Retires(c, t) then c.next else c.next + 1)
  {
    hide FreshStream, RetireIn, BeginStream, Retire, Continues;
    FreshNamed(c.observing, c.next + 1, t);
    if Retires(c, t) {
      RetireEffect(c, t.Key(), t.at, taking);
      BeginEffect(Retire(c, t.Key(), t.at, taking), t);
    } else if t.Key() !in c.open {
      BeginEffect(c, t);
    }
  }

  lemma CountersApart(c: State, stats: Stats, t: Transfer)
    requires WellFormed(c)
    ensures var r := c.(stats := stats);
            && WellFormed(r) && Target(r, t) == Target(c, t) && Others(r, t) == Others(c, t)
            && Retires(r, t) == Retires(c, t) && Idle(r, t) == Idle(c, t)
  {
    hide FreshStream, RetireIn, Continues;
  }

  lemma PlaceEffect(c: State, t: Transfer, taking: Taking)
    requires WellFormed(c) && !Idle(c, t)
    ensures var r := Place(c, t, taking).0;
            && r.streams == Others(c, t)[Target(c, t).id := PlaceIn(Target(c, t), t)]
            && r.open == c.open[t.Key() := Target(c, t).id]
            && r.delivered == c.delivered
            && r.ended == c.ended + (if Retires(c, t)
                                     then [Ended(RetireIn(c.streams[c.open[t.Key()]]), EndingUnobserved, t.at)] else [])
            && r.observing == c.observing
            && r.next == (if t.Key() in c.open && !Retires(c, t) then c.next else c.next + 1)
    ensures Place(c, t, taking).1 ==
            if Offers(Target(c, t), t) then Some(WriteOf(Target(c, t), t)) else None
  {
    hide Follow, PlaceIn, WriteOf, FreshStream, RetireIn, CountSeen, CountFollowed, Recount, Continues, Offers;
    var c1 := c.(stats := CountSeen(c.stats, t));
    CountersApart(c, c1.stats, t);
    FollowEffect(c1, t, taking);
    hide Target, Others, Retires;
  }

  /** A transfer changes its target, and the stream it replaced, and no other. */
  lemma TransferEffect(c: State, t: Transfer, answer: Answer, taking: Taking)
    requires WellFormed(c) && !Idle(c, t)
    ensures var r := TransferStep(c, t, answer, taking);
            && r.streams == Others(c, t)[Target(c, t).id := After(Target(c, t), t, answer)]
            && r.open == c.open[t.Key() := Target(c, t).id]
            && r.delivered == c.delivered + (if Offers(Target(c, t), t) && answer.Accepted?
                                             then [WriteOf(Target(c, t), t)] else [])
            && r.ended == c.ended + (if Retires(c, t)
                                     then [Ended(RetireIn(c.streams[c.open[t.Key()]]), EndingUnobserved, t.at)] else [])
            && r.observing == c.observing
            && r.next == (if t.Key() in c.open && !Retires(c, t) then c.next else c.next + 1)
  {
    hide Place, PlaceIn, WriteOf, FreshStream, RetireIn, RefuseWrite, Recount, Target, Others, Retires, Offers;
    PlaceEffect(c, t, taking);
  }

  lemma IdleEffect(c: State, t: Transfer, answer: Answer, taking: Taking)
    requires WellFormed(c) && Idle(c, t)
    ensures var r := TransferStep(c, t, answer, taking);
            && Place(c, t, taking).1 == None
            && r == c.(stats := r.stats)
            && r.stats.cut == c.stats.cut && r.stats.lost == c.stats.lost && r.stats.connections == c.stats.connections
            && r.stats.closed == c.stats.closed && r.stats.retired == c.stats.retired
  {
  }

  /** What an ending or the session's end does to the stream a key names. */
  function EndedBy(c: State, input: Input): (r: Option<Ended>)
    requires WellFormed(c)
  {
    match input
    case Closed(e) =>
      if e.Key() !in c.open then None
      else
        var s := c.streams[c.open[e.Key()]];
        if e.occupancy != 0 && e.occupancy < s.occupancy then None
        else if e.occupancy != 0 && s.occupancy != 0 && e.occupancy != s.occupancy then
          Some(Ended(RetireIn(s), EndingUnobserved, e.at))
        else Some(Ended(CloseIn(s, e), if e.final.exited then EndingUnobserved else HandleReleasedEnding, e.at))
    case Finished(key, asked, at) =>
      if key !in c.open then None else Some(Ended(FinishIn(c.streams[c.open[key]], asked), StillOpen, at))
    case _ => None
  }

  function EndingKey(input: Input): StreamKey
    requires input.Closed? || input.Finished?
  {
    if input.Closed? then input.closing.Key() else input.key
  }

  lemma CloseEffect(c: State, e: Closing, taking: Taking)
    requires WellFormed(c)
    ensures EndsAs(c, Closed(e), CloseStep(c, e, taking))
  {
    hide RetireIn, CloseIn, CountUnlocated, CountUnrecorded;
  }

  lemma FinishEffect(c: State, key: StreamKey, asked: seq<Settling>, at: Time, taking: Taking)
    requires WellFormed(c)
    ensures EndsAs(c, Finished(key, asked, at), FinishStep(c, key, asked, at, taking))
  {
    hide FinishIn, VerdictOf, CountUnlocated, CountUnrecorded;
  }

  /** That a step ended at most the stream an ending names, as EndedBy says. */
  ghost predicate EndsAs(c: State, input: Input, r: State)
    requires WellFormed(c) && (input.Closed? || input.Finished?)
  {
    && r.delivered == c.delivered && r.observing == c.observing && r.next == c.next
    && (EndedBy(c, input).None? ==> r == c.(stats := r.stats))
    && (EndedBy(c, input).Some? ==>
          && EndingKey(input) in c.open
          && EndedBy(c, input).value.stream.id == c.open[EndingKey(input)]
          && r.streams == c.streams[c.open[EndingKey(input)] := EndedBy(c, input).value.stream]
          && r.open == c.open - {EndingKey(input)}
          && r.ended == c.ended + [EndedBy(c, input).value])
  }

  lemma RefuseEffect(c: State, t: Transfer)
    requires WellFormed(c)
    ensures var r := RefuseStep(c, t);
            && r == c.(streams := r.streams, stats := r.stats)
            && r.streams == (if Refusable(c, t)
                             then c.streams[c.open[t.Key()] := RefuseIn(c.streams[c.open[t.Key()]], t)] else c.streams)
  {
  }

  /** Every stream a step leaves is one it found, unchanged or moved by one of the
      operations below, or the fresh one a transfer began. */
  ghost predicate MovedBy(c: State, input: Input, r: State, id: nat)
    requires WellFormed(c) && id in r.streams
  {
    || (id in c.streams && r.streams[id] == c.streams[id])
    || (id in c.streams && r.streams[id] == RetireIn(c.streams[id]))
    || (&& input.Transferred? && !Idle(c, input.transfer) && Target(c, input.transfer).id == id
        && (id in c.streams ==> Target(c, input.transfer) == c.streams[id])
        && r.streams[id] == After(Target(c, input.transfer), input.transfer, input.answer))
    || (&& input.Refused? && Refusable(c, input.transfer) && id in c.streams
        && r.streams[id] == RefuseIn(c.streams[id], input.transfer))
    || (input.Closed? && id in c.streams && r.streams[id] == CloseIn(c.streams[id], input.closing))
    || (input.Finished? && id in c.streams && r.streams[id] == FinishIn(c.streams[id], input.asked))
  }

  /** A step that placed a transfer. */
  lemma PlacedMoves(c: State, t: Transfer, answer: Answer, taking: Taking, id: nat)
    requires WellFormed(c) && !Idle(c, t)
    ensures var r := TransferStep(c, t, answer, taking);
            && (id in c.streams ==> id in r.streams)
            && (id in r.streams ==> MovedBy(c, Transferred(t, answer), r, id))
            && (id in r.streams && id !in c.streams ==> Target(c, t).id == id && id == c.next + 1)
  {
    hide TransferStep, After, FreshStream, RetireIn, CloseIn, FinishIn, RefuseIn, Continues;
    TransferEffect(c, t, answer, taking);
    FreshNamed(c.observing, c.next + 1, t);
    hide Idle;
  }

  /** A step that ended a stream, or found none to end. */
  lemma EndingMoves(c: State, input: Input, r: State, id: nat)
    requires WellFormed(c) && (input.Closed? || input.Finished?) && EndsAs(c, input, r)
    ensures id in c.streams <==> id in r.streams
    ensures id in r.streams ==> MovedBy(c, input, r, id)
  {
    hide RetireIn, CloseIn, FinishIn;
  }

  lemma StepStreams(c: State, input: Input, taking: Taking, id: nat)
    requires WellFormed(c)
    ensures var r := Step(c, input, taking);
            && (id in c.streams ==> id in r.streams)
            && (id in r.streams ==> MovedBy(c, input, r, id))
            && (id in r.streams && id !in c.streams ==>
                  && input.Transferred? && !Idle(c, input.transfer) && Target(c, input.transfer).id == id
                  && id == c.next + 1)
  {
    hide TransferStep, RefuseStep, CloseStep, FinishStep, Target, Refusable, Idle, EndsAs, MovedBy;
    match input
    case Transferred(t, answer) =>
      if Idle(c, t) {
        IdleEffect(c, t, answer, taking);
        Unmoved(c, input, Step(c, input, taking), id);
      } else {
        PlacedMoves(c, t, answer, taking, id);
      }
    case Refused(t) => RefusedMoves(c, t, id);
    case Closed(e) =>
      CloseEffect(c, e, taking);
      EndingMoves(c, input, CloseStep(c, e, taking), id);
    case Finished(key, asked, at) =>
      FinishEffect(c, key, asked, at, taking);
      EndingMoves(c, input, FinishStep(c, key, asked, at, taking), id);
  }

  lemma Unmoved(c: State, input: Input, r: State, id: nat)
    requires WellFormed(c) && r.streams == c.streams
    ensures id in r.streams ==> MovedBy(c, input, r, id)
  {
  }

  lemma RefusedMoves(c: State, t: Transfer, id: nat)
    requires WellFormed(c)
    ensures var r := RefuseStep(c, t);
            (id in c.streams <==> id in r.streams) && (id in r.streams ==> MovedBy(c, Refused(t), r, id))
  {
    hide RefuseStep, RefuseIn;
    RefuseEffect(c, t);
  }

  lemma FreshNamed(observing: Observing, id: nat, t: Transfer)
    ensures var s := FreshStream(observing, id, t);
            && s.id == id && s.occupancy == t.sequence.occupancy && s.key == t.Key() && s.sequence == 0
            && s.loss == NotStopped
  {
  }
}
