/** When a fragment's evidence breaks its own rule: exactly where the empty transfers
    told of since a direction's last fragment outnumber the numbers it has seen,
    which a transport that repeats a place, or two occupancies in one stream that
    follows none, can bring about. */
module DeliveredOnce {
  import opened Values
  import opened Connection
  import opened Evidence
  import opened Probe
  import opened Capture
  import opened CaptureEffects
  import opened LaterWord
  import opened EvidenceLaws

  /** Two numbered transfers with one place in one occupancy. */
  predicate SamePlace(a: Transfer, b: Transfer) {
    && a.Key() == b.Key() && a.direction == b.direction && a.sequence.number == b.sequence.number
    && a.sequence.occupancy == b.sequence.occupancy && a.sequence.number != 0 && a.sequence.occupancy != 0
  }

  predicate OnlyOccupanciesNumber(t: Transfer) { t.sequence.occupancy == 0 ==> t.sequence.number == 0 }

  /** No place is delivered twice, and only an occupancy numbers. */
  ghost predicate OnceEach(inputs: seq<(Input, Taking)>) {
    && (forall i :: 0 <= i < |inputs| && inputs[i].0.Transferred? ==> OnlyOccupanciesNumber(inputs[i].0.transfer))
    && (forall i, j :: 0 <= i < j < |inputs| && inputs[i].0.Transferred? && inputs[j].0.Transferred? ==>
          !SamePlace(inputs[i].0.transfer, inputs[j].0.transfer))
  }

  /** Whether an input numbers a transfer in direction d of the stream id. */
  predicate Numbers(c: State, input: Input, id: nat, d: Direction)
    requires WellFormed(c)
  {
    && input.Transferred? && !Idle(c, input.transfer) && Target(c, input.transfer).id == id
    && input.transfer.direction == d && input.transfer.sequence.occupancy != 0 && input.transfer.sequence.number != 0
    && (input.transfer.measured || Moved(input.transfer))
  }

  /** The numbers a run's transfers were placed under in one direction of a stream. */
  ghost function SeenIn(c: State, inputs: seq<(Input, Taking)>, id: nat, d: Direction): (r: set<nat>)
    requires WellFormed(c)
  {
    if inputs == [] then {}
    else
      var before := inputs[..|inputs| - 1];
      var last := inputs[|inputs| - 1].0;
      SeenIn(c, before, id, d) +
      (if Numbers(Run(c, before), last, id, d) then {last.transfer.sequence.number} else {})
  }

  // What a direction has been told, read off the inputs.

  predicate IsEmpty(t: Transfer) { t.measured && t.length == 0 }

  /** Whether an input is placed in direction d of the stream id. */
  predicate Places(c: State, input: Input, id: nat, d: Direction)
    requires WellFormed(c)
  {
    && input.Transferred? && !Idle(c, input.transfer) && Target(c, input.transfer).id == id
    && input.transfer.direction == d
  }

  /** Which inputs were empty transfers placed in a direction since its last
      fragment. */
  ghost function EmptiesIn(c: State, inputs: seq<(Input, Taking)>, id: nat, d: Direction): seq<nat>
    requires WellFormed(c)
  {
    if inputs == [] then []
    else
      var before, last := inputs[..|inputs| - 1], inputs[|inputs| - 1].0;
      var told, now := EmptiesIn(c, before, id, d), Run(c, before);
      if !Places(now, last, id, d) then told
      else if IsEmpty(last.transfer) then told + [|before|]
      else if Offers(Target(now, last.transfer), last.transfer) then []
      else told
  }

  /** Whether the gate refused a transfer of direction d of the stream id. */
  predicate Refuses(c: State, input: Input, id: nat, d: Direction)
    requires WellFormed(c)
  {
    && input.Refused? && Refusable(c, input.transfer) && c.open[input.transfer.Key()] == id
    && input.transfer.direction == d
  }

  function Higher(n: nat, m: nat): nat { if m > n then m else n }

  /** The highest number a direction was told, by a transfer or a refusal. */
  ghost function HighestIn(c: State, inputs: seq<(Input, Taking)>, id: nat, d: Direction): nat
    requires WellFormed(c)
  {
    if inputs == [] then 0
    else
      var before, last := inputs[..|inputs| - 1], inputs[|inputs| - 1].0;
      var told, now := HighestIn(c, before, id, d), Run(c, before);
      if Numbers(now, last, id, d) || Refuses(now, last, id, d) then Higher(told, last.transfer.sequence.number)
      else told
  }

  /** More empties told of than numbers. */
  ghost predicate Excess(c: State, inputs: seq<(Input, Taking)>, id: nat, d: Direction)
    requires WellFormed(c)
  {
    |EmptiesIn(c, inputs, id, d)| > HighestIn(c, inputs, id, d)
  }

  // The counts a lane keeps are those.

  lemma CutHereCount(s: Stream, d: Direction, because: Reason, why: Why)
    ensures SameCounts(s, CutHere(s, d, because, why))
  {
  }

  lemma CutBothCount(s: Stream, because: Reason, why: Why)
    ensures SameCounts(s, CutBoth(s, because, why))
  {
    hide CutHere;
    CutHereCount(s, Sent, because, why);
    CutHereCount(CutHere(s, Sent, because, why), Received, because, why);
  }

  lemma NumberCount(s: Stream, t: Transfer)
    ensures var l := s.lanes.Of(t.direction); var m := Number(s, t).lanes.Of(t.direction);
            && m.empties == l.empties
            && m.numbered == (if t.sequence.occupancy != 0 && t.sequence.number > l.numbered then t.sequence.number
                              else l.numbered)
    ensures SameCount(s.lanes.Of(Other(t.direction)), Number(s, t).lanes.Of(Other(t.direction)))
  {
    hide CutBoth;
    CutBothCount(NoteUnlocated(s, t.sequence.unlocated), SequenceUnavailable, NoSequenceKept);
  }

  lemma UnmeasuredCount(s: Stream, t: Transfer)
    ensures var l := s.lanes.Of(t.direction); var m := PlaceUnmeasured(s, t).lanes.Of(t.direction);
            && m.empties == l.empties
            && m.numbered == (if Moved(t) && t.sequence.occupancy != 0 && t.sequence.number > l.numbered
                              then t.sequence.number else l.numbered)
    ensures SameCount(s.lanes.Of(Other(t.direction)), PlaceUnmeasured(s, t).lanes.Of(Other(t.direction)))
  {
    hide Number, CutHere;
    var s1 := if t.early then s.(earlySeen := s.earlySeen + 1) else s;
    NumberCount(s1, t);
    CutHereCount(Number(s1, t), t.direction, LengthUnmeasured, Whole);
  }

  /** What a placed transfer does to its direction's counts, and the other's. */
  lemma PlaceCount(s: Stream, t: Transfer)
    ensures var l := s.lanes.Of(t.direction); var m := PlaceIn(s, t).lanes.Of(t.direction);
            && m.empties == (if IsEmpty(t) then l.empties + 1 else if Offers(s, t) then 0 else l.empties)
            && m.numbered == (if (t.measured || Moved(t)) && t.sequence.occupancy != 0
                              then Higher(l.numbered, t.sequence.number) else l.numbered)
    ensures SameCount(s.lanes.Of(Other(t.direction)), PlaceIn(s, t).lanes.Of(Other(t.direction)))
  {
    hide Number, PlaceUnmeasured, Bind;
    NumberCount(s, t);
    UnmeasuredCount(s, t);
  }

  lemma AfterCount(s: Stream, t: Transfer, answer: Answer)
    ensures SameCounts(PlaceIn(s, t), After(s, t, answer))
  {
    hide PlaceIn, WriteOf;
  }

  lemma SettleCount(s: Stream, final: Final, ending: bool)
    ensures SameCounts(s, SettleTail(s, final, ending))
  {
    hide Located, CutBoth;
    CutBothCount(s, TerminalUnsettled, NoOccupancyAtEnd);
  }

  lemma EndingsKeepCount(s: Stream, e: Closing, asked: seq<Settling>)
    ensures SameCounts(s, RetireIn(s)) && SameCounts(s, CloseIn(s, e)) && SameCounts(s, FinishIn(s, asked))
  {
    hide VerdictOf, SettleTail, CutBoth;
    CutBothCount(s, TerminalUnsettled, EndingUndelivered);
    SettleCount(NoteUnlocated(s, e.unlocated), e.final, true);
    var v := VerdictOf(asked, s.occupancy);
    if v.Settled? {
      SettleCount(NoteUnlocated(s, v.unlocated), v.final, false);
    } else {
      CutBothCount(s, TerminalUnsettled, v.why);
    }
  }

  predicate SameCounts(s: Stream, r: Stream) {
    SameCount(s.lanes.sent, r.lanes.sent) && SameCount(s.lanes.received, r.lanes.received)
  }

  predicate SameCount(l: Lane, m: Lane) { m.empties == l.empties && m.numbered == l.numbered }

  lemma RefuseCount(s: Stream, t: Transfer)
    ensures var r := RefuseIn(s, t);
            && r.lanes.Of(t.direction).empties == s.lanes.Of(t.direction).empties
            && r.lanes.Of(t.direction).numbered == Higher(s.lanes.Of(t.direction).numbered, t.sequence.number)
            && SameCount(s.lanes.Of(Other(t.direction)), r.lanes.Of(Other(t.direction)))
  {
  }

  /** The number a transfer adds to a direction. */
  function Adds(t: Transfer, d: Direction): set<nat> {
    if t.direction == d && t.sequence.occupancy != 0 && t.sequence.number != 0 && (t.measured || Moved(t))
    then {t.sequence.number} else {}
  }

  lemma TargetOccupancy(c: State, t: Transfer)
    requires WellFormed(c)
    ensures Target(c, t).occupancy != 0 && t.sequence.occupancy != 0 ==> Target(c, t).occupancy == t.sequence.occupancy
    ensures Target(c, t).key == t.Key()
  {
  }

  lemma TargetMoved(c: State, input: Input, taking: Taking, id: nat)
    requires WellFormed(c) && input.Transferred? && !Idle(c, input.transfer) && Target(c, input.transfer).id == id
    ensures var r := Step(c, input, taking);
            id in r.streams && r.streams[id] == After(Target(c, input.transfer), input.transfer, input.answer)
    ensures id in c.streams ==> c.streams[id] == Target(c, input.transfer)
  {
    hide TransferStep, After, FreshStream;
    TransferEffect(c, input.transfer, input.answer, taking);
    FreshNamed(c.observing, c.next + 1, input.transfer);
  }

  predicate CountsAre(c: State, id: nat, d: Direction, empties: nat, numbered: nat) {
    if id in c.streams then
      c.streams[id].lanes.Of(d).empties == empties && c.streams[id].lanes.Of(d).numbered == numbered
    else empties == 0 && numbered == 0
  }

  lemma FreshUncounted(observing: Observing, id: nat, t: Transfer)
    ensures var s := FreshStream(observing, id, t);
            SameCount(s.lanes.sent, FreshLane) && SameCount(s.lanes.received, FreshLane)
  {
  }

  /** A stream a transfer is placed in, as the run has counted it. */
  lemma PlacedCounts(c: State, input: Input, taking: Taking, id: nat, d: Direction, empties: nat, numbered: nat)
    requires WellFormed(c) && input.Transferred? && !Idle(c, input.transfer) && Target(c, input.transfer).id == id
    requires CountsAre(c, id, d, empties, numbered)
    ensures var t, s := input.transfer, Target(c, input.transfer);
            CountsAre(Step(c, input, taking), id, d,
                      if t.direction != d then empties else if IsEmpty(t) then empties + 1
                      else if Offers(s, t) then 0 else empties,
                      if Numbers(c, input, id, d) then Higher(numbered, t.sequence.number) else numbered)
  {
    hide Step, After, FreshStream, Target, PlaceIn, Idle;
    var t, s := input.transfer, Target(c, input.transfer);
    TargetMoved(c, input, taking, id);
    AfterCount(s, t, input.answer);
    PlaceCount(s, t);
    if id !in c.streams { FreshTarget(c, t); }
  }

  lemma FreshTarget(c: State, t: Transfer)
    requires WellFormed(c) && Target(c, t).id !in c.streams
    ensures SameCount(Target(c, t).lanes.sent, FreshLane) && SameCount(Target(c, t).lanes.received, FreshLane)
  {
    FreshUncounted(c.observing, c.next + 1, t);
  }

  lemma OtherCounts(c: State, input: Input, taking: Taking, id: nat, d: Direction, empties: nat, numbered: nat)
    requires WellFormed(c) && CountsAre(c, id, d, empties, numbered)
    requires !(input.Transferred? && !Idle(c, input.transfer) && Target(c, input.transfer).id == id)
    ensures CountsAre(Step(c, input, taking), id, d, empties,
                      if Refuses(c, input, id, d) then Higher(numbered, input.transfer.sequence.number) else numbered)
  {
    hide Step, After, RetireIn, CloseIn, FinishIn, RefuseIn, Idle, Target;
    StepStreams(c, input, taking, id);
    if id in c.streams {
      EndingsKeepCount(c.streams[id], if input.Closed? then input.closing else NoClosing,
                       if input.Finished? then input.asked else []);
      if input.Refused? {
        RefuseCount(c.streams[id], input.transfer);
        RefusedOnly(c, input.transfer, taking, id);
      }
    }
  }

  lemma RefusedOnly(c: State, t: Transfer, taking: Taking, id: nat)
    requires WellFormed(c) && id in c.streams
    ensures var r := Step(c, Refused(t), taking);
            && id in r.streams
            && (if Refusable(c, t) && c.open[t.Key()] == id then r.streams[id] == RefuseIn(c.streams[id], t)
                else r.streams[id] == c.streams[id])
  {
    hide RefuseStep, RefuseIn;
    RefuseEffect(c, t);
  }

  /** In every run a lane's empties are the empty transfers placed since its last
      fragment, and its number the highest told. */
  lemma {:induction false} RunCounts(c: State, inputs: seq<(Input, Taking)>, id: nat, d: Direction)
    requires WellFormed(c) && c.streams == map[]
    ensures CountsAre(Run(c, inputs), id, d, |EmptiesIn(c, inputs, id, d)|, HighestIn(c, inputs, id, d))
  {
    hide Step, Idle, Target, Refusable;
    if inputs != [] {
      var before, last := inputs[..|inputs| - 1], inputs[|inputs| - 1];
      var now := Run(c, before);
      RunCounts(c, before, id, d);
      var empties, numbered := |EmptiesIn(c, before, id, d)|, HighestIn(c, before, id, d);
      if last.0.Transferred? && !Idle(now, last.0.transfer) && Target(now, last.0.transfer).id == id {
        PlacedCounts(now, last.0, last.1, id, d, empties, numbered);
      } else {
        OtherCounts(now, last.0, last.1, id, d, empties, numbered);
      }
    }
  }

  /** What a step adds to the deliveries is the evidence of the stream it leaves. */
  lemma NewDelivery(c: State, input: Input, taking: Taking, w: Write)
    requires WellFormed(c) && w in Step(c, input, taking).delivered && w !in c.delivered
    ensures var r := Step(c, input, taking); var id := w.fragment.connection;
            id in r.streams && w.fragment.evidence == EvidenceOf(r.streams[id])
  {
    hide TransferStep, RefuseStep, CloseStep, FinishStep, After, FreshStream, EvidenceOf;
    match input
    case Transferred(t, answer) =>
      if Idle(c, t) {
        IdleEffect(c, t, answer, taking);
      } else {
        TransferEffect(c, t, answer, taking);
        AcceptedIsPlaced(Target(c, t), t, answer);
      }
    case Refused(t) => RefuseEffect(c, t);
    case Closed(e) => CloseEffect(c, e, taking);
    case Finished(key, asked, at) => FinishEffect(c, key, asked, at, taking);
  }

  /** After how many inputs a fragment was delivered. */
  ghost function When(observing: Observing, inputs: seq<(Input, Taking)>, w: Write): (k: nat)
    ensures k <= |inputs|
  {
    if inputs == [] then 0
    else
      var before := inputs[..|inputs| - 1];
      if w in Run(Opening(observing), before).delivered then When(observing, before, w) else |inputs|
  }

  lemma {:induction false} DeliveredThen(observing: Observing, inputs: seq<(Input, Taking)>, w: Write)
    requires w in Run(Opening(observing), inputs).delivered
    ensures var k := When(observing, inputs, w);
            && 1 <= k && w in Run(Opening(observing), inputs[..k]).delivered
            && w !in Run(Opening(observing), inputs[..k - 1]).delivered
  {
    NothingDelivered(observing);
    hide Run;
    var before := inputs[..|inputs| - 1];
    if w in Run(Opening(observing), before).delivered {
      DeliveredThen(observing, before, w);
      var k := When(observing, before, w);
      assert before[..k] == inputs[..k] && before[..k - 1] == inputs[..k - 1];
    } else {
      assert inputs[..|inputs|] == inputs;
    }
  }

  lemma NothingDelivered(observing: Observing)
    ensures Run(Opening(observing), []).delivered == []
  {
  }

  /** Its evidence is what its stream then said. */
  lemma ThenSaid(observing: Observing, inputs: seq<(Input, Taking)>, w: Write)
    requires w in Run(Opening(observing), inputs).delivered
    ensures var c := Run(Opening(observing), inputs[..When(observing, inputs, w)]);
            w.fragment.connection in c.streams && w.fragment.evidence == EvidenceOf(c.streams[w.fragment.connection])
  {
    hide Step, When, EvidenceOf;
    DeliveredThen(observing, inputs, w);
    var k := When(observing, inputs, w);
    var upTo := inputs[..k];
    assert upTo[..k - 1] == inputs[..k - 1];
    NewDelivery(Run(Opening(observing), upTo[..k - 1]), upTo[k - 1].0, upTo[k - 1].1, w);
  }

  /** Whether a fragment was delivered while a direction of its stream was told of
      more empties than numbers. */
  ghost predicate Overtold(observing: Observing, inputs: seq<(Input, Taking)>, w: Write)
    requires w in Run(Opening(observing), inputs).delivered
  {
    var upTo := inputs[..When(observing, inputs, w)];
    || Excess(Opening(observing), upTo, w.fragment.connection, Sent)
    || Excess(Opening(observing), upTo, w.fragment.connection, Received)
  }

  /** Of any run, the evidence on a delivered fragment is invalid exactly when its
      process is not named, or the inputs up to it told a direction of its stream of
      more empty transfers since the last fragment than the highest number. */
  lemma EvidenceBreaksExactly(observing: Observing, inputs: seq<(Input, Taking)>, w: Write)
    requires w in Run(Opening(observing), inputs).delivered
    ensures w.fragment.evidence.Valid() <==>
              w.fragment.evidence.identity.process.pid > 0 && !Overtold(observing, inputs, w)
  {
    hide Run, EmptiesIn, HighestIn, When;
    ThenSaid(observing, inputs, w);
    var upTo, id := inputs[..When(observing, inputs, w)], w.fragment.connection;
    RunCounts(Opening(observing), upTo, id, Sent);
    RunCounts(Opening(observing), upTo, id, Received);
    EvidenceExactlyValid(observing, inputs, w);
  }

  /** So a record of its connection agrees with a fragment accepted of it, with one
      deliverer, exactly then. */
  lemma RecordsStand(observing: Observing, inputs: seq<(Input, Taking)>, w: Write, e: Ended)
    requires w in Run(Opening(observing), inputs).delivered
    requires e in Run(Opening(observing), inputs).ended && e.stream.id == w.fragment.connection
    ensures Agrees(RecordOf(e.stream, e.how, e.at), w.fragment.evidence) <==>
            w.fragment.evidence.identity.process.pid > 0 && !Overtold(observing, inputs, w)
  {
    hide Run, RecordOf, Agrees, Overtold;
    EvidenceBreaksExactly(observing, inputs, w);
    RecordsAgree(observing, inputs, w, e.how, e.at);
  }

  // Where an excess comes from.

  /** Two of these inputs are one place of one occupancy. */
  ghost predicate Repeats(inputs: seq<(Input, Taking)>, told: seq<nat>) {
    exists p, q :: 0 <= p < q < |told| && BothTransferred(inputs, told[p], told[q]) &&
                   SamePlace(inputs[told[p]].0.transfer, inputs[told[q]].0.transfer)
  }

  /** Two of them have one number in two occupancies. */
  ghost predicate Mixes(inputs: seq<(Input, Taking)>, told: seq<nat>) {
    exists p, q :: 0 <= p < q < |told| && BothTransferred(inputs, told[p], told[q]) &&
                   SameNumber(inputs[told[p]].0.transfer, inputs[told[q]].0.transfer)
  }

  predicate SameNumber(a: Transfer, b: Transfer) {
    && a.Key() == b.Key() && a.direction == b.direction && a.sequence.number == b.sequence.number
    && a.sequence.occupancy != 0 && b.sequence.occupancy != 0 && a.sequence.occupancy != b.sequence.occupancy
  }

  /** One of them was numbered by no occupancy. */
  ghost predicate Unplaced(inputs: seq<(Input, Taking)>, told: seq<nat>) {
    exists p :: 0 <= p < |told| && BothTransferred(inputs, told[p], told[p]) &&
                !OnlyOccupanciesNumber(inputs[told[p]].0.transfer)
  }

  predicate BothTransferred(inputs: seq<(Input, Taking)>, i: nat, j: nat) {
    i < |inputs| && j < |inputs| && inputs[i].0.Transferred? && inputs[j].0.Transferred?
  }

  /** What each empty told of is: a numbered transfer of the stream's handle, within
      the highest number if an occupancy numbered it. */
  ghost predicate ToldOk(c: State, inputs: seq<(Input, Taking)>, id: nat, d: Direction, n: nat, highest: nat) {
    && n < |inputs| && inputs[n].0.Transferred? && id in c.streams
    && (var t := inputs[n].0.transfer;
        && t.Key() == c.streams[id].key && t.direction == d && t.sequence.number != 0
        && (t.sequence.occupancy != 0 ==> t.sequence.number <= highest)
        && (t.sequence.occupancy != 0 && c.streams[id].occupancy != 0 ==>
              t.sequence.occupancy == c.streams[id].occupancy))
  }

  ghost predicate AllTold(c: State, inputs: seq<(Input, Taking)>, id: nat, d: Direction, told: seq<nat>, highest: nat) {
    && (forall p :: 0 <= p < |told| ==> ToldOk(c, inputs, id, d, told[p], highest))
    && (forall p, q :: 0 <= p < q < |told| ==> told[p] < told[q])
  }

  lemma ToldOnward(c: State, r: State, inputs: seq<(Input, Taking)>, more: seq<(Input, Taking)>, id: nat, d: Direction,
                   told: seq<nat>, highest: nat, higher: nat)
    requires inputs <= more && AllTold(c, inputs, id, d, told, highest) && highest <= higher
    requires id in c.streams ==> id in r.streams && SameConnection(c.streams[id], r.streams[id])
    ensures AllTold(r, more, id, d, told, higher)
  {
    forall p | 0 <= p < |told| ensures ToldOk(r, more, id, d, told[p], higher) {
      assert ToldOk(c, inputs, id, d, told[p], highest) && more[told[p]] == inputs[told[p]];
    }
  }

  lemma ConnectionKept(c: State, input: Input, taking: Taking, id: nat)
    requires WellFormed(c) && id in c.streams
    ensures id in Step(c, input, taking).streams && SameConnection(c.streams[id], Step(c, input, taking).streams[id])
  {
    hide Step, Idle, Target, Refusable;
    StepStreams(c, input, taking, id);
    ConnectionsStand(c.streams[id], if input.Closed? then input.closing else NoClosing,
                     if input.Finished? then input.asked else []);
  }

  lemma ConnectionsStand(s: Stream, e: Closing, asked: seq<Settling>)
    ensures SameConnection(s, RetireIn(s)) && SameConnection(s, CloseIn(s, e)) && SameConnection(s, FinishIn(s, asked))
  {
  }

  lemma {:induction false} RunTold(c: State, inputs: seq<(Input, Taking)>, id: nat, d: Direction)
    requires WellFormed(c) && c.streams == map[]
    ensures AllTold(Run(c, inputs), inputs, id, d, EmptiesIn(c, inputs, id, d), HighestIn(c, inputs, id, d))
  {
    hide Step, Idle, Target, Refusable, ToldOk;
    if inputs != [] {
      var before, last := inputs[..|inputs| - 1], inputs[|inputs| - 1];
      var now, r := Run(c, before), Run(c, inputs);
      RunTold(c, before, id, d);
      var told := EmptiesIn(c, before, id, d);
      if id in now.streams { ConnectionKept(now, last.0, last.1, id); }
      NotYet(c, before, id, d);
      ToldOnward(now, r, before, inputs, id, d, told, HighestIn(c, before, id, d), HighestIn(c, inputs, id, d));
      if Places(now, last.0, id, d) && IsEmpty(last.0.transfer) {
        LastTold(c, inputs, id, d);
        ToldWithin(now, before, id, d, told, HighestIn(c, before, id, d));
      }
    }
  }

  lemma ToldWithin(c: State, inputs: seq<(Input, Taking)>, id: nat, d: Direction, told: seq<nat>, highest: nat)
    requires AllTold(c, inputs, id, d, told, highest)
    ensures forall p :: 0 <= p < |told| ==> told[p] < |inputs|
  {
    assert forall p :: 0 <= p < |told| ==> ToldOk(c, inputs, id, d, told[p], highest);
  }

  /** Nothing was told of a stream not begun. */
  lemma NotYet(c: State, inputs: seq<(Input, Taking)>, id: nat, d: Direction)
    requires WellFormed(c) && c.streams == map[]
    ensures id !in Run(c, inputs).streams ==> EmptiesIn(c, inputs, id, d) == []
  {
    hide Run, EmptiesIn, HighestIn;
    RunCounts(c, inputs, id, d);
  }

  lemma LastTold(c: State, inputs: seq<(Input, Taking)>, id: nat, d: Direction)
    requires WellFormed(c) && inputs != []
    requires var last := inputs[|inputs| - 1].0;
             Places(Run(c, inputs[..|inputs| - 1]), last, id, d) && IsEmpty(last.transfer)
    ensures ToldOk(Run(c, inputs), inputs, id, d, |inputs| - 1, HighestIn(c, inputs, id, d))
  {
    hide Step, After, FreshStream;
    var now, last := Run(c, inputs[..|inputs| - 1]), inputs[|inputs| - 1];
    TargetMoved(now, last.0, last.1, id);
    TargetOccupancy(now, last.0.transfer);
  }

  lemma {:induction false} Pigeonhole(ns: seq<nat>, most: nat)
    requires (forall i :: 0 <= i < |ns| ==> 1 <= ns[i] <= most) && |ns| > most
    ensures exists p, q :: 0 <= p < q < |ns| && ns[p] == ns[q]
  {
    if forall p, q :: 0 <= p < q < |ns| ==> ns[p] != ns[q] {
      DistinctCount(ns);
      CountWithin(set i | 0 <= i < |ns| :: ns[i], most);
    }
  }

  lemma {:induction false} DistinctCount(ns: seq<nat>)
    requires forall p, q :: 0 <= p < q < |ns| ==> ns[p] != ns[q]
    ensures |set i | 0 <= i < |ns| :: ns[i]| == |ns|
  {
    if ns != [] {
      var fewer := ns[..|ns| - 1];
      DistinctCount(fewer);
      var all, some := set i | 0 <= i < |ns| :: ns[i], set i | 0 <= i < |fewer| :: fewer[i];
      assert all == some + {ns[|ns| - 1]};
    }
  }

  lemma {:induction false} CountWithin(seen: set<nat>, most: nat)
    requires forall n :: n in seen ==> 1 <= n <= most
    ensures |seen| <= most
    decreases most
  {
    if most == 0 {
      assert seen == {};
    } else {
      var rest := seen - {most};
      CountWithin(rest, most - 1);
      assert seen <= rest + {most};
      assert |rest + {most}| <= |rest| + 1;
      Within(seen, rest + {most});
    }
  }

  lemma Within(a: set<nat>, b: set<nat>)
    requires a <= b
    ensures |a| <= |b|
  {
    assert b == a + (b - a);
  }

  /** An excess always has its cause among the empties themselves: a place told twice,
      a transfer numbered by no occupancy, or, in a stream that follows none, one
      number of two occupancies. */
  lemma ExcessOnlyFrom(observing: Observing, inputs: seq<(Input, Taking)>, id: nat, d: Direction)
    requires Excess(Opening(observing), inputs, id, d)
    ensures var c, told := Run(Opening(observing), inputs), EmptiesIn(Opening(observing), inputs, id, d);
            && id in c.streams
            && (Repeats(inputs, told) || Unplaced(inputs, told) ||
                (c.streams[id].occupancy == 0 && Mixes(inputs, told)))
  {
    var c0 := Opening(observing);
    RunTold(c0, inputs, id, d);
    hide Run, EmptiesIn, HighestIn;
    var c, told, highest := Run(c0, inputs), EmptiesIn(c0, inputs, id, d), HighestIn(c0, inputs, id, d);
    assert ToldOk(c, inputs, id, d, told[0], highest);
    if !Unplaced(inputs, told) {
      var p, q := TwoShare(c, inputs, id, d, told, highest);
      assert ToldOk(c, inputs, id, d, told[p], highest) && ToldOk(c, inputs, id, d, told[q], highest);
      assert BothTransferred(inputs, told[p], told[q]);
    }
  }

  /** More empties than numbers, all of them occupancies': two share one. */
  lemma TwoShare(c: State, inputs: seq<(Input, Taking)>, id: nat, d: Direction, told: seq<nat>, highest: nat)
      returns (p: nat, q: nat)
    requires AllTold(c, inputs, id, d, told, highest) && |told| > highest && !Unplaced(inputs, told)
    ensures p < q < |told| && BothTransferred(inputs, told[p], told[q])
    ensures var a, b := inputs[told[p]].0.transfer, inputs[told[q]].0.transfer;
            a.sequence.number == b.sequence.number && a.sequence.occupancy != 0 && b.sequence.occupancy != 0
  {
    forall p | 0 <= p < |told|
      ensures BothTransferred(inputs, told[p], told[p]) && 1 <= inputs[told[p]].0.transfer.sequence.number <= highest
      ensures inputs[told[p]].0.transfer.sequence.occupancy != 0
    {
      assert ToldOk(c, inputs, id, d, told[p], highest) && BothTransferred(inputs, told[p], told[p]);
      assert OnlyOccupanciesNumber(inputs[told[p]].0.transfer);
    }
    hide AllTold, Unplaced;
    var ns := seq(|told|, p requires 0 <= p < |told| => inputs[told[p]].0.transfer.sequence.number);
    Pigeonhole(ns, highest);
    p, q :| 0 <= p < q < |ns| && ns[p] == ns[q];
    assert BothTransferred(inputs, told[p], told[p]) && BothTransferred(inputs, told[q], told[q]);
  }

  /** With each place delivered once, every fragment of a stream that follows an
      occupancy carries valid evidence, and every record of its connection agrees. */
  lemma OnceEachStands(observing: Observing, inputs: seq<(Input, Taking)>, w: Write)
    requires OnceEach(inputs) && w in Run(Opening(observing), inputs).delivered
    requires w.fragment.evidence.occupancy != 0
    ensures !Overtold(observing, inputs, w)
  {
    hide Run, EmptiesIn, Excess, When, Repeats, Unplaced, Mixes, OnceEach;
    ThenSaid(observing, inputs, w);
    var k := When(observing, inputs, w);
    var upTo, id := inputs[..k], w.fragment.connection;
    forall d: Direction ensures !Excess(Opening(observing), upTo, id, d) {
      if Excess(Opening(observing), upTo, id, d) {
        ExcessOnlyFrom(observing, upTo, id, d);
        NeverTwice(inputs, k, EmptiesIn(Opening(observing), upTo, id, d), Opening(observing), id, d);
      }
    }
  }

  lemma NeverTwice(inputs: seq<(Input, Taking)>, k: nat, told: seq<nat>, c: State, id: nat, d: Direction)
    requires OnceEach(inputs) && k <= |inputs| && WellFormed(c) && c.streams == map[]
    requires told == EmptiesIn(c, inputs[..k], id, d)
    ensures !Repeats(inputs[..k], told) && !Unplaced(inputs[..k], told)
  {
    RunTold(c, inputs[..k], id, d);
    hide Run, EmptiesIn, ToldOk;
    assert forall i :: 0 <= i < k ==> inputs[..k][i] == inputs[i];
  }

  // The two causes, as runs.

  /** A transfer of an observed birth's occupancy, or of none. */
  function Sample(occupancy: nat, d: Direction, number: nat, length: nat): Transfer {
    Transfer(Process(7, 1), Instance(InstanceKey(Namespace(1, 1), 7, 1), Start(true, 1)), Namespace(0, 0), 1, d, length,
             true, false, 1, Sequence(occupancy, number, true, false, 0, 0, 0), NotBound, 0, 0, 0,
             Ends(false, 0, 0, 0, 0, 0, 0, false), NoKernelIO)
  }

  const Anyone := Observing(false, false, false)

  function Given(t: Transfer): (Input, Taking) { (Transferred(t, Accepted), Takes) }

  /** The stream of the samples' handle, and what its sent direction was told. */
  ghost predicate Following(c: State, occupancy: nat, empties: nat, numbered: nat) {
    var key := Sample(1, Sent, 1, 0).Key();
    && WellFormed(c) && key in c.open
    && (var s := c.streams[c.open[key]];
        && s.occupancy == occupancy && s.loss == NotStopped && s.process.pid == 7
        && s.lanes.sent.empties == empties && s.lanes.sent.numbered == numbered)
  }

  lemma LossKept(s: Stream, t: Transfer)
    ensures PlaceIn(s, t).loss == s.loss
  {
    hide Bind, NumberLane;
  }

  /** One more delivery to the stream followed. */
  lemma Followed(c: State, t: Transfer, empties: nat, numbered: nat)
    requires Following(c, 0, empties, numbered) || Following(c, t.sequence.occupancy, empties, numbered)
    requires t == Sample(t.sequence.occupancy, t.direction, t.sequence.number, t.length) && !Placeless(t)
    ensures var s, r := c.streams[c.open[t.Key()]], Step(c, Given(t).0, Takes);
            var l := PlaceIn(s, t).lanes.sent;
            && Following(r, s.occupancy, l.empties, l.numbered)
            && (Offers(s, t) ==> WriteOf(s, t) in r.delivered)
  {
    hide TransferStep, PlaceIn, WriteOf;
    var s := c.streams[c.open[t.Key()]];
    TransferEffect(c, t, Accepted, Takes);
    AcceptedIsPlaced(s, t, Accepted);
    LossKept(s, t);
  }

  lemma FreshSample(t: Transfer)
    requires t == Sample(t.sequence.occupancy, t.direction, t.sequence.number, t.length)
    ensures var s := FreshStream(Anyone, 1, t);
            s.occupancy == t.sequence.occupancy && s.loss == NotStopped && s.process.pid == 7 && s.id == 1
  {
  }

  lemma NotObsolete(t: Transfer)
    requires !Placeless(t)
    ensures !Idle(Opening(Anyone), t)
  {
    hide Placeless;
  }

  lemma Begins(t: Transfer)
    requires t == Sample(t.sequence.occupancy, t.direction, t.sequence.number, t.length) && !Placeless(t)
    ensures var s, r := FreshStream(Anyone, 1, t), Step(Opening(Anyone), Given(t).0, Takes);
            var l := PlaceIn(s, t).lanes.sent;
            Following(r, t.sequence.occupancy, l.empties, l.numbered)
  {
    var s, c := FreshStream(Anyone, 1, t), Opening(Anyone);
    FreshSample(t);
    NotObsolete(t);
    assert Target(c, t) == s && Others(c, t) == map[];
    hide TransferStep, PlaceIn, After, FreshStream, Idle, Target, Others, Retires, Continues;
    TransferEffect(c, t, Accepted, Takes);
    AcceptedIsPlaced(s, t, Accepted);
    LossKept(s, t);
    hide WellFormed;
  }

  /** Told of more empties than numbers, a stream's next fragment carries evidence that
      breaks its own rule. */
  lemma FragmentAfterEmpties(c: State, t: Transfer, occupancy: nat, empties: nat, numbered: nat)
    requires Following(c, occupancy, empties, numbered) && empties > numbered && occupancy in {0, t.sequence.occupancy}
    requires t == Sample(t.sequence.occupancy, Received, t.sequence.number, 5)
    ensures exists w :: w in Step(c, Given(t).0, Takes).delivered && w.fragment.evidence.occupancy == occupancy &&
                        w.fragment.evidence.identity.process.pid > 0 && !w.fragment.evidence.Valid()
  {
    var s := c.streams[c.open[t.Key()]];
    Followed(c, t, empties, numbered);
    PlaceCount(s, t);
    hide TransferStep, PlaceIn, PlaceFragment, Following;
    OffersPlaced(s, t);
    var w := WriteOf(s, t);
    assert w in Step(c, Given(t).0, Takes).delivered;
  }

  const Repeated := [Given(Sample(1, Sent, 1, 0)), Given(Sample(1, Sent, 1, 0)), Given(Sample(1, Received, 1, 5))]

  /** One empty transfer delivered twice outruns its numbers: the next fragment's
      evidence breaks its own rule, though nothing was lost. */
  lemma RepeatedEmptyBreaksEvidence()
    ensures !OnceEach(Repeated)
    ensures exists w :: w in Run(Opening(Anyone), Repeated).delivered && w.fragment.evidence.occupancy == 1 &&
                        w.fragment.evidence.identity.process.pid > 0 && !w.fragment.evidence.Valid()
  {
    hide Step, Run, PlaceIn, Following;
    var t, c0 := Sample(1, Sent, 1, 0), Opening(Anyone);
    assert SamePlace(Repeated[0].0.transfer, Repeated[1].0.transfer);
    RunOfThree(c0, Repeated);
    Begins(t);
    PlaceCount(FreshStream(Anyone, 1, t), t);
    FreshUncounted(Anyone, 1, t);
    var c1 := Step(c0, Given(t).0, Takes);
    EmptyAgain(c1, t, 1, 1, 1);
    FragmentAfterEmpties(Step(c1, Given(t).0, Takes), Sample(1, Received, 1, 5), 1, 2, 1);
  }

  lemma EmptyAgain(c: State, t: Transfer, occupancy: nat, empties: nat, numbered: nat)
    requires Following(c, occupancy, empties, numbered) && t == Sample(t.sequence.occupancy, Sent, 1, 0)
    requires t.sequence.occupancy != 0 && (occupancy == 0 || occupancy == t.sequence.occupancy)
    ensures Following(Step(c, Given(t).0, Takes), occupancy, empties + 1, Higher(numbered, 1))
  {
    hide Step, PlaceIn;
    Followed(c, t, empties, numbered);
    PlaceCount(c.streams[c.open[t.Key()]], t);
  }

  const Mixed := [Given(Sample(0, Received, 0, 5)), Given(Sample(1, Sent, 1, 0)), Given(Sample(2, Sent, 1, 0)),
                  Given(Sample(0, Received, 0, 5))]

  /** And without any repetition: a stream that follows no occupancy takes an empty
      transfer of each of two, both numbered one. */
  lemma MixedOccupanciesBreakEvidence()
    ensures OnceEach(Mixed)
    ensures exists w :: w in Run(Opening(Anyone), Mixed).delivered && w.fragment.evidence.occupancy == 0 &&
                        w.fragment.evidence.identity.process.pid > 0 && !w.fragment.evidence.Valid()
  {
    hide Step, Run, PlaceIn, Following;
    var u, c0 := Sample(0, Received, 0, 5), Opening(Anyone);
    RunOfFour(c0, Mixed);
    Begins(u);
    PlaceCount(FreshStream(Anyone, 1, u), u);
    FreshUncounted(Anyone, 1, u);
    var c1 := Step(c0, Given(u).0, Takes);
    EmptyAgain(c1, Sample(1, Sent, 1, 0), 0, 0, 0);
    var c2 := Step(c1, Given(Sample(1, Sent, 1, 0)).0, Takes);
    EmptyAgain(c2, Sample(2, Sent, 1, 0), 0, 1, 1);
    FragmentAfterEmpties(Step(c2, Given(Sample(2, Sent, 1, 0)).0, Takes), u, 0, 2, 1);
  }

  lemma RunOfThree(c: State, inputs: seq<(Input, Taking)>)
    requires WellFormed(c) && |inputs| == 3
    ensures Run(c, inputs) ==
            Step(Step(Step(c, inputs[0].0, inputs[0].1), inputs[1].0, inputs[1].1), inputs[2].0, inputs[2].1)
  {
    hide Step;
    assert inputs[..2][..1] == inputs[..1] && inputs[..1][..0] == [];
    assert Run(c, inputs[..1]) == Step(c, inputs[0].0, inputs[0].1);
    assert Run(c, inputs[..2]) == Step(Run(c, inputs[..1]), inputs[1].0, inputs[1].1);
  }

  lemma RunOfFour(c: State, inputs: seq<(Input, Taking)>)
    requires WellFormed(c) && |inputs| == 4
    ensures Run(c, inputs) == Step(Run(c, inputs[..3]), inputs[3].0, inputs[3].1)
    ensures Run(c, inputs[..3]) ==
            Step(Step(Step(c, inputs[0].0, inputs[0].1), inputs[1].0, inputs[1].1), inputs[2].0, inputs[2].1)
  {
    hide Step;
    RunOfThree(c, inputs[..3]);
  }
}
