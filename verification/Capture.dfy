/** Capture as a state machine over values: which connection a transfer belongs
    to, where its bytes sit, and where its positions stop being established. */
module Capture {
  import opened Values
  import opened Connection
  import opened Evidence
  import opened Probe

  /** The first offset of a direction not established, and what it cost. */
  datatype Cut = Cut(from: nat, because: Reason, lost: nat, uncounted: Why)

  /** What a direction's transfers established about their socket. */
  datatype Binding = Binding(
    state: Bound,
    descriptor: Descriptor,
    generation: nat,
    socket: Socket,
    endpoints: Endpoints,
    attempted: bool,
    observed: bool,
    from: Time,
    until: Time,
    open: bool,
    basis: Basis,
    outcome: SocketOutcome)

  /** One direction of a stream. */
  datatype Lane = Lane(
    carried: bool,
    offset: nat,
    cut: Option<Cut>,
    numbered: nat,
    empties: nat,
    droppedBelow: nat,
    first: nat,
    resolved: nat,
    binding: Option<Binding>)
  {
    /** The transfers known missing from the direction. */
    function Lost(): (n: nat) { if cut.Some? then cut.value.lost else 0 }
  }

  const FreshLane := Lane(false, 0, None, 0, 0, 0, 0, 0, None)

  /** The loss token a stream shares with its fragments; the first reason stands. */
  datatype Loss = NotStopped | InputLimit | IntakeExhausted

  datatype Stream = Stream(
    id: nat,
    key: StreamKey,
    process: Process,
    instance: Instance,
    network: Namespace,
    firstSeen: Time,
    openedAt: Time,
    lifetime: bool,
    begun: Reason,
    occupancy: nat,
    origin: Origin,
    loss: Loss,
    sequence: nat,
    unlocated: nat,
    early: seq<Early>,
    earlySeen: nat,
    lanes: Both<Lane>)

  datatype Stats = Stats(
    gateRefused: int,
    intakeRefused: int,
    transfers: int,
    empty: int,
    early: int,
    unmeasured: int,
    records: int,
    connections: int,
    closed: int,
    rejected: int,
    unattributed: int,
    endingsUnmatched: int,
    lost: int,
    cut: int,
    retired: int,
    unsequenced: int,
    unlocated: int,
    connectionsUnrecorded: int)

  const NoStats := Stats(0, 0, 0, 0, 0, 0, 0, 0, 0, 0, 0, 0, 0, 0, 0, 0, 0, 0)

  datatype Fragment = Fragment(
    connection: nat,
    process: Process,
    direction: Direction,
    sequence: nat,
    offset: nat,
    length: nat,
    produced: nat,
    empties: nat,
    at: Time,
    evidence: Evidence)

  /** A fragment and the transfer it was made from. */
  datatype Write = Write(transfer: Transfer, fragment: Fragment)

  datatype Answer = Accepted | RefusedAtLimit | RefusedOtherwise

  /** How the connection-record sink takes a record. */
  datatype Taking = Nobody | Takes | Refuses

  /** A stream as it stood when its record was made. */
  datatype Ended = Ended(stream: Stream, how: Ending, at: Time)

  /** What the attachment can establish; told is false until anyone says. */
  datatype Observing = Observing(told: bool, binding: bool, lifecycle: bool)

  /** streams holds every stream ever begun, by id; open names those followed. */
  datatype State = State(
    observing: Observing,
    open: map<StreamKey, nat>,
    streams: map<nat, Stream>,
    next: nat,
    stats: Stats,
    delivered: seq<Write>,
    ended: seq<Ended>)

  /** Every key open names a stream of that key; ids are handed out in order. */
  ghost predicate WellFormed(c: State) {
    && (forall k :: k in c.open ==> c.open[k] in c.streams && c.streams[c.open[k]].key == k)
    && (forall id :: id in c.streams <==> 1 <= id <= c.next)
    && (forall id :: id in c.streams ==> c.streams[id].id == id)
  }

  function Opening(observing: Observing): (c: State)
    ensures WellFormed(c)
  {
    State(observing, map[], map[], 0, NoStats, [], [])
  }

  // Cutting a direction.

  /** A cut once more is known of it: the first stands, its losses add up, and the
      first reason the count is not the whole is kept. */
  function CutWith(was: Option<Cut>, from: nat, because: Reason, lost: nat, why: Why): Cut {
    var held := if was.Some? then was.value else Cut(from, because, 0, Whole);
    var uncounted := if why != Whole && held.uncounted == Whole then why else held.uncounted;
    held.(lost := held.lost + lost, uncounted := uncounted)
  }

  function CutLane(l: Lane, from: nat, because: Reason, lost: nat, why: Why): Lane {
    l.(carried := true, cut := Some(CutWith(l.cut, from, because, lost, why)))
  }

  /** The facts of a stream that never change. */
  predicate SameConnection(a: Stream, b: Stream) {
    && a.id == b.id && a.key == b.key && a.process == b.process && a.instance == b.instance
    && a.network == b.network && a.firstSeen == b.firstSeen && a.openedAt == b.openedAt
    && a.lifetime == b.lifetime && a.begun == b.begun && a.occupancy == b.occupancy && a.origin == b.origin
  }

  function WithLane(s: Stream, d: Direction, l: Lane): Stream { s.(lanes := With(s.lanes, d, l)) }

  function CutHere(s: Stream, d: Direction, because: Reason, why: Why): (r: Stream)
    ensures SameConnection(s, r)
  {
    var l := s.lanes.Of(d);
    WithLane(s, d, CutLane(l, l.offset, because, 0, why))
  }

  function CutBoth(s: Stream, because: Reason, why: Why): (r: Stream)
    ensures SameConnection(s, r)
  {
    CutHere(CutHere(s, Sent, because, why), Received, because, why)
  }

  function Cuts(s: Stream): (n: nat) {
    (if s.lanes.sent.cut.Some? then 1 else 0) + (if s.lanes.received.cut.Some? then 1 else 0)
  }

  function LostIn(s: Stream): (n: nat) { s.lanes.sent.Lost() + s.lanes.received.Lost() }

  // Reading a transfer's number.

  function Missing(l: Lane, number: nat): nat {
    if number > l.numbered + 1 then number - l.numbered - 1 else 0
  }

  function NumberLane(l: Lane, s: Sequence): Lane {
    var l1 := if s.overlapped then CutLane(l, l.offset, OperationsOverlapped, 0, CallsOverlapped) else l;
    var l2 := if l1.first == 0 then l1.(first := s.number) else l1;
    var l3 :=
      if s.number == l.numbered + 1 then l2
      else if s.number > l.numbered + 1 then
        CutLane(l2, l.offset, ObservationLost, Missing(l, s.number), Whole)
      else CutLane(l2, l.offset, OperationsOverlapped, 0, ArrivedBehind);
    if s.number > l.numbered then l3.(numbered := s.number, droppedBelow := s.dropped) else l3
  }

  function NoteUnlocated(s: Stream, unlocated: nat): (r: Stream)
    ensures SameConnection(s, r)
  {
    if unlocated > s.unlocated then s.(unlocated := unlocated) else s
  }

  /** A stream once a transfer's number has been read. */
  function Number(s: Stream, t: Transfer): (r: Stream)
    ensures SameConnection(s, r)
  {
    var s1 := NoteUnlocated(s, t.sequence.unlocated);
    if t.sequence.occupancy == 0 then CutBoth(s1, SequenceUnavailable, NoSequenceKept)
    else WithLane(s1, t.direction, NumberLane(s1.lanes.Of(t.direction), t.sequence))
  }

  /** Whether a transfer's number is the one after the last seen. */
  predicate IsNext(s: Stream, t: Transfer) {
    t.sequence.occupancy != 0 && t.sequence.number == s.lanes.Of(t.direction).numbered + 1
  }

  function Resolve(l: Lane, number: nat, next: bool): Lane {
    if next && number != 0 && l.resolved == number - 1 then l.(resolved := number) else l
  }

  // What a direction is bound to.

  function BasisOf(outcome: SocketOutcome): Basis {
    if outcome.NoKernelIO? then Continuity else ConfirmedInCall
  }

  function EndpointsOf(ends: Ends): Endpoints {
    if !ends.known then Endpoints(Nowhere, Nowhere, Namespace(0, ends.netns))
    else Endpoints(At(ends.local, ends.localPort), At(ends.peer, ends.peerPort), Namespace(0, ends.netns))
  }

  const NoEndpoints := Endpoints(Nowhere, Nowhere, Namespace(0, 0))

  function SocketOf(inode: nat): Socket { if inode == 0 then Unnamed else Named(inode) }

  function Bind(was: Option<Binding>, t: Transfer): Binding {
    var begun := Binding(NotBound, Unheld, 0, Unnamed, NoEndpoints, false, false, t.at, 0, true, BasisUnset,
                         NoKernelIO);
    var held := (if was.Some? then was.value else begun).(until := t.at, outcome := t.outcome);
    match t.bound
    case BoundTo =>
      if held.state == BoundTo && held.generation == t.binding && held.descriptor == Held(t.descriptor) then held
      else
        held.(state := BoundTo, descriptor := Held(t.descriptor), generation := t.binding, observed := true,
              from := t.at, open := true, basis := BasisOf(t.outcome), socket := SocketOf(t.socket),
              endpoints := EndpointsOf(t.ends), attempted := t.ends.attempted)
    case NotBound => if held.observed then held else held.(state := NotBound)
    case _ =>
      held.(state := t.bound, descriptor := Held(t.descriptor), generation := t.binding, observed := true,
            open := false)
  }

  // What a stream says about itself.

  function IdentityOf(s: Stream): Identity {
    Identity(s.id, s.process, s.instance, s.key.endpoint, s.id, s.network, s.firstSeen, s.openedAt)
  }

  function Reached(l: Lane): DirectionEvidence {
    match l.cut
    case None => DirectionEvidence(l.offset, false, 0, 0, false, l.first, l.numbered, l.resolved, l.empties)
    case Some(cut) =>
      DirectionEvidence(l.offset, true, cut.from, cut.lost, cut.uncounted != Whole,
                        l.first, l.numbered, l.resolved, l.empties)
  }

  function EvidenceOf(s: Stream): Evidence {
    Evidence(IdentityOf(s), s.occupancy, s.origin, s.sequence, Both(Reached(s.lanes.sent), Reached(s.lanes.received)))
  }

  function Placed(s: Stream, d: Direction): Placement {
    match s.lanes.Of(d).cut
    case None => Placement(s.id, d, PositionsEstablished, 0, ReasonUnset, Counted(0))
    case Some(cut) =>
      var lost := if cut.uncounted != Whole then Uncounted(cut.uncounted) else Counted(cut.lost);
      if cut.from == 0 then Placement(s.id, d, PositionsUnknownThroughout, 0, cut.because, lost)
      else Placement(s.id, d, PositionsUnknownFrom, cut.from, cut.because, lost)
  }

  /** The reason an unbound direction gives from its own I/O, if any. */
  function Unresolved(outcome: SocketOutcome): Reason {
    match outcome
    case FileIO => OperationWasNotASocket
    case UnresolvedIO => OperationUnresolved
    case UnsupportedIO => RouteUnsupported
    case UnreadableIO => EvidenceUnreadable
    case BrokenFrame => OperationFrameBroken
    case _ => ReasonUnset
  }

  function JoinReasonOf(b: Binding): JoinReason {
    if b.endpoints.Complete() then JoinReasonUnset
    else if b.endpoints.local.Nowhere? || b.endpoints.remote.Nowhere? then
      if b.attempted then EndpointUnreadable else NoEndpointProducer
    else NamespaceUnestablished
  }

  function Associated(s: Stream, d: Direction): Association {
    var one := Association(s.id, d, Unknown, s.begun, 0, SourceUnset, NoInterval, Unheld, Unnamed, NoEndpoints,
                           DoesNotJoin, NoBindingToJoin, [], BasisUnset);
    match s.lanes.Of(d).binding
    case None => one
    case Some(b) =>
      if !b.observed then
        var because := Unresolved(b.outcome);
        if because != ReasonUnset then one.(reason := because) else one
      else
        var held := one.(descriptor := b.descriptor, binding := b.generation, socket := b.socket,
                         source := InCallSyscall);
        match b.state
        case BoundTo =>
          if !s.lifetime then
            held.(state := Invalidated, reason := HandleLifetimeUnobservable,
                  valid := Interval(b.from, b.until, false))
          else
            held.(state := Established, reason := ReasonUnset, basis := b.basis,
                  valid := if b.open then Interval(b.from, 0, true) else Interval(b.from, b.until, false),
                  endpoints := b.endpoints,
                  join := if b.endpoints.Complete() then Joins else DoesNotJoin,
                  joinReason := JoinReasonOf(b))
        case BoundAmbiguously =>
          held.(state := Ambiguous, reason := SeveralDescriptors, contended := [b.descriptor, Unheld],
                descriptor := Unheld, binding := 0)
        case _ =>
          held.(state := Invalidated, reason := DescriptorReplaced, valid := Interval(b.from, b.until, false))
  }

  function RecordOf(s: Stream, how: Ending, at: Time): Record {
    var ended := if !s.lifetime && how == StillOpen then EndingUnestablished else how;
    var carried := (if s.lanes.sent.carried then [Sent] else [])
      + (if s.lanes.received.carried then [Received] else []);
    Record(s.id, Handle(s.instance.key, s.key.endpoint, s.id), s.instance, s.process, s.network, s.firstSeen,
           s.openedAt, s.openedAt != 0,
           if ended != StillOpen && ended != EndingUnestablished then at else 0, ended,
           seq(|carried|, i requires 0 <= i < |carried| => Associated(s, carried[i])),
           seq(|carried|, i requires 0 <= i < |carried| => Placed(s, carried[i])),
           Counted(s.sequence), s.early, s.earlySeen)
  }

  // What a transfer does to its stream.

  /** Whether an unmeasured transfer took a place: one with an occupancy and no
      number moved nothing. */
  predicate Moved(t: Transfer) { t.sequence.occupancy == 0 || t.sequence.number != 0 }

  /** A transfer nothing measured: numbered, and the direction cut where it stands. */
  function PlaceUnmeasured(s: Stream, t: Transfer): (r: Stream)
    ensures SameConnection(s, r)
  {
    var s1 := if t.early then s.(earlySeen := s.earlySeen + 1) else s;
    if Moved(t) then CutHere(Number(s1, t), t.direction, LengthUnmeasured, Whole) else s1
  }

  /** A numbered transfer that moved nothing. */
  function PlaceEmpty(s: Stream, t: Transfer): (r: Stream)
    ensures SameConnection(s, r)
  {
    var s1 := Number(s, t);
    var l := s1.lanes.Of(t.direction);
    WithLane(s1, t.direction, Resolve(l.(empties := l.empties + 1), t.sequence.number, IsNext(s, t)))
  }

  /** The lane after a fragment is placed at its offset. */
  function Advance(l: Lane, t: Transfer, next: bool): Lane {
    Resolve(l.(carried := true, offset := l.offset + t.length, empties := 0, binding := Some(Bind(l.binding, t))),
            t.sequence.number, next)
  }

  /** A transfer placed in its stream as a fragment. */
  function PlaceFragment(s: Stream, t: Transfer): (r: Stream)
    ensures SameConnection(s, r)
  {
    var s1 := Number(s, t);
    var l := s1.lanes.Of(t.direction);
    WithLane(s1, t.direction, Advance(l, t, IsNext(s, t)))
      .(sequence := s1.sequence + 1,
        early := if t.early then s1.early + [Early(t.direction, l.offset, t.length)] else s1.early)
  }

  /** The fragment a transfer placed in this stream offers the sink. */
  function WriteOf(s: Stream, t: Transfer): (w: Write)
    ensures w.transfer == t && w.fragment.connection == s.id && w.fragment.direction == t.direction
  {
    var l := Number(s, t).lanes.Of(t.direction);
    var after := PlaceFragment(s, t);
    Write(t, Fragment(s.id, t.process, t.direction, after.sequence, l.offset, t.length, t.sequence.number, l.empties,
                      t.at, EvidenceOf(after)))
  }

  /** Whether a transfer followed in this stream is offered to the sink. */
  predicate Offers(s: Stream, t: Transfer) { t.measured && t.length != 0 && s.loss == NotStopped }

  /** A followed transfer's stream, before any sink answers. */
  function PlaceIn(s: Stream, t: Transfer): (r: Stream)
    ensures SameConnection(s, r)
  {
    if !t.measured then PlaceUnmeasured(s, t)
    else if t.length == 0 then PlaceEmpty(s, t)
    else if s.loss != NotStopped then Number(s, t)
    else PlaceFragment(s, t)
  }

  /** A fragment its sink refused: the direction is cut where it began. */
  function RefuseWrite(s: Stream, f: Fragment, limit: bool): (r: Stream)
    ensures SameConnection(s, r)
  {
    var s1 := if limit && s.loss == NotStopped then s.(loss := IntakeExhausted) else s;
    WithLane(s1, f.direction,
             CutLane(s1.lanes.Of(f.direction), f.offset, ObservationLost, 0, IntakeRefusedFragment))
  }

  function RefuseLane(l: Lane, s: Sequence): Lane {
    var l1 := CutLane(l, l.offset, ObservationLost, 0, GateRefusedTransfer);
    var l2 := if l1.first == 0 then l1.(first := s.number) else l1;
    if s.number <= l.numbered then l2
    else
      var l3 := if s.number > l.numbered + 1 then CutLane(l2, l.offset, ObservationLost, 0, GateNumberedPast) else l2;
      l3.(numbered := s.number, droppedBelow := s.dropped)
  }

  /** A transfer the delivery gate refused: its number is seen and nothing placed. */
  function RefuseIn(s: Stream, t: Transfer): (r: Stream)
    ensures SameConnection(s, r)
  {
    var s1 := if s.loss == NotStopped then s.(loss := InputLimit) else s;
    WithLane(s1, t.direction, RefuseLane(s1.lanes.Of(t.direction), t.sequence))
  }

  // Settling a tail.

  /** A direction's last number, less one for a call still in flight. */
  function LastReturned(t: Terminal): (n: nat) {
    if t.inFlight && t.last > 0 then t.last - 1 else t.last
  }

  /** How many transfers a direction's tail counts as located losses. */
  function Located(l: Lane, t: Terminal, ending: bool): (n: nat) {
    var missing := LastReturned(t) - l.numbered;
    if missing <= 0 then 0
    else if ending then missing
    else
      var drops := t.dropped - l.droppedBelow;
      if drops < 0 then 0 else if drops > missing then missing else drops
  }

  function SettleLane(l: Lane, t: Terminal, ending: bool): Lane {
    var last := LastReturned(t);
    var l1 :=
      if last > l.numbered then
        if Located(l, t, ending) > 0 then CutLane(l, l.offset, ObservationLost, Located(l, t, ending), Whole)
        else CutLane(l, l.offset, TerminalUnsettled, 0, TailUnaccounted)
      else if last < l.numbered then CutLane(l, l.offset, TerminalUnsettled, 0, TerminalBehind)
      else l;
    if ending && t.inFlight then CutLane(l1, l.offset, TerminalUnsettled, 0, InFlightAtRelease) else l1
  }

  function SettleTail(s: Stream, final: Final, ending: bool): (r: Stream)
    ensures SameConnection(s, r)
  {
    if !final.known then CutBoth(s, TerminalUnsettled, NoOccupancyAtEnd)
    else s.(lanes := Both(SettleLane(s.lanes.sent, final.terminals.sent, ending),
                          SettleLane(s.lanes.received, final.terminals.received, ending)))
  }

  /** A stream whose occupancy the producer replaced. */
  function RetireIn(s: Stream): (r: Stream)
    ensures SameConnection(s, r)
  {
    CutBoth(s, TerminalUnsettled, EndingUndelivered)
  }

  /** A stream whose ending was delivered. */
  function CloseIn(s: Stream, e: Closing): (r: Stream)
    ensures SameConnection(s, r)
  {
    SettleTail(NoteUnlocated(s, e.unlocated), e.final, true)
  }

  /** What the producers asked at the end make of one stream's tail. */
  datatype Verdict = Unsettled(why: Why) | Settled(unlocated: nat, final: Final)

  function OfHolder(one: Settling, occupancy: nat): Verdict
    requires one.Holding?
  {
    if one.occupancy != occupancy then Unsettled(OtherOccupancy)
    else if one.unlocated.None? then Unsettled(UnlocatedUnreadable)
    else Settled(one.unlocated.value, one.final)
  }

  /** Settles a tail only on the word of the one producer holding its occupancy;
      the first answer that is an error, or a second holder, leaves it unsettled. */
  function VerdictOf(asked: seq<Settling>, occupancy: nat): Verdict {
    FirstTrouble(asked, 0, None, occupancy)
  }

  function FirstTrouble(asked: seq<Settling>, i: nat, holder: Option<Settling>, occupancy: nat): Verdict
    requires i <= |asked|
    requires holder.Some? ==> holder.value.Holding?
    decreases |asked| - i
  {
    if i == |asked| then
      if holder.None? then Unsettled(NoHolder) else OfHolder(holder.value, occupancy)
    else if asked[i].Unreadable? then Unsettled(OccupanciesUnreadable)
    else if asked[i].occupancy == 0 then FirstTrouble(asked, i + 1, holder, occupancy)
    else if holder.Some? then Unsettled(TwoHolders)
    else FirstTrouble(asked, i + 1, Some(asked[i]), occupancy)
  }

  /** A stream still open when production stopped. */
  function FinishIn(s: Stream, asked: seq<Settling>): (r: Stream)
    ensures SameConnection(s, r)
  {
    if s.occupancy == 0 then s
    else
      match VerdictOf(asked, s.occupancy)
      case Unsettled(why) => CutBoth(s, TerminalUnsettled, why)
      case Settled(unlocated, final) => SettleTail(NoteUnlocated(s, unlocated), final, false)
  }

  // Beginning a stream.

  function OriginOf(s: Sequence): Origin {
    if s.occupancy == 0 then OriginUnestablished
    else if s.born then OriginBirth
    else if s.beginUnlocated > 0 then OriginUnestablished
    else OriginFirstRecorded
  }

  function BegunOf(o: Observing, s: Sequence): Reason {
    if o.told && !o.binding then BindingUnobservable
    else if s.beginUnlocated > 0 && !s.born then ObservationLost
    else NoBindingObserved
  }

  /** The stream a transfer begins, numbered by id. One begun after a loss nothing
      located establishes no offset, unless its handle's birth was observed. */
  function FreshStream(observing: Observing, id: nat, t: Transfer): Stream {
    var s := Stream(id, t.Key(), t.process, t.instance, t.network, t.at, t.ends.openedAt,
                    !observing.told || observing.lifecycle, BegunOf(observing, t.sequence), t.sequence.occupancy,
                    OriginOf(t.sequence), NotStopped, 0, t.sequence.unlocated, [], 0, Both(FreshLane, FreshLane));
    if t.sequence.beginUnlocated > 0 && t.sequence.occupancy != 0 && !t.sequence.born
    then CutBoth(s, ObservationLost, LostBeforeItBegan) else s
  }

  // The session's state.

  /** The counters once one stream has changed: each cut, and each lost transfer,
      counted where it happened. */
  function Recount(stats: Stats, before: Stream, after: Stream): Stats {
    stats.(cut := stats.cut + Cuts(after) - Cuts(before), lost := stats.lost + LostIn(after) - LostIn(before))
  }

  /** The stream id names, changed. */
  function Put(c: State, id: nat, s: Stream): (r: State)
    requires id in c.streams
    ensures WellFormed(c) && s.id == id && s.key == c.streams[id].key ==> WellFormed(r)
    ensures r.next == c.next
  {
    c.(streams := c.streams[id := s], stats := Recount(c.stats, c.streams[id], s))
  }

  function CountUnlocated(stats: Stats, unlocated: nat): Stats {
    if unlocated > stats.unlocated then stats.(unlocated := unlocated) else stats
  }

  function CountUnrecorded(stats: Stats, taking: Taking): Stats {
    if taking.Refuses? then stats.(connectionsUnrecorded := stats.connectionsUnrecorded + 1) else stats
  }

  /** Ends the stream a key names, as it then stands, and makes its record. */
  function End(c: State, key: StreamKey, s: Stream, how: Ending, at: Time, taking: Taking): (r: State)
    requires WellFormed(c) && key in c.open && s.id == c.open[key] && s.key == key
    ensures WellFormed(r) && key !in r.open && r.next == c.next
  {
    var r := Put(c, c.open[key], s);
    r.(open := c.open - {key}, ended := c.ended + [Ended(s, how, at)], stats := CountUnrecorded(r.stats, taking))
  }

  function Retire(c: State, key: StreamKey, at: Time, taking: Taking): (r: State)
    requires WellFormed(c) && key in c.open
    ensures WellFormed(r) && key !in r.open && r.next == c.next
  {
    var r := End(c, key, RetireIn(c.streams[c.open[key]]), EndingUnobserved, at, taking);
    r.(stats := r.stats.(retired := r.stats.retired + 1))
  }

  function BeginStream(c: State, t: Transfer): (r: State)
    requires WellFormed(c) && t.Key() !in c.open
    ensures WellFormed(r) && t.Key() in r.open && r.open[t.Key()] == c.next + 1 == r.next
  {
    var s := FreshStream(c.observing, c.next + 1, t);
    c.(streams := c.streams[c.next + 1 := s], open := c.open[t.Key() := c.next + 1], next := c.next + 1,
       stats := c.stats.(
         connections := c.stats.connections + 1,
         cut := c.stats.cut + Cuts(s),
         unattributed := c.stats.unattributed + if t.instance.key.Valid() then 0 else 1))
  }

  /** Whether a transfer belongs to the stream its key names; one of another
      occupancy says the handle was released and reused. */
  predicate Continues(s: Stream, t: Transfer) {
    t.sequence.occupancy == 0 || s.occupancy == 0 || s.occupancy == t.sequence.occupancy
  }

  function Follow(c: State, t: Transfer, taking: Taking): (r: State)
    requires WellFormed(c)
    ensures WellFormed(r) && t.Key() in r.open && c.next <= r.next
  {
    if t.Key() in c.open && Continues(c.streams[c.open[t.Key()]], t) then c
    else BeginStream(if t.Key() in c.open then Retire(c, t.Key(), t.at, taking) else c, t)
  }

  // The session's entry points.

  /** A delayed transfer of an older occupancy of a followed handle. */
  predicate Obsolete(c: State, t: Transfer)
    requires WellFormed(c)
  {
    t.Key() in c.open && t.sequence.occupancy != 0 && t.sequence.occupancy < c.streams[c.open[t.Key()]].occupancy
  }

  /** A transfer with no place in any stream. */
  predicate Placeless(t: Transfer) {
    if t.measured then t.length == 0 && t.sequence.number == 0 else !Moved(t) && !t.early
  }

  /** The counters every transfer moves, whatever its stream. */
  function CountSeen(stats: Stats, t: Transfer): Stats {
    stats.(transfers := stats.transfers + 1,
           early := stats.early + if t.early then 1 else 0,
           unmeasured := stats.unmeasured + if t.measured then 0 else 1,
           empty := stats.empty + if t.measured && t.length == 0 then 1 else 0)
  }

  /** The counters a transfer followed in a stream moves besides. */
  function CountFollowed(stats: Stats, s: Stream, t: Transfer): Stats {
    var numbered := t.measured || Moved(t);
    (if numbered then CountUnlocated(stats, t.sequence.unlocated) else stats).(
      unsequenced := stats.unsequenced + if numbered && t.sequence.occupancy == 0 then 1 else 0,
      rejected := stats.rejected + if t.measured && t.length != 0 && s.loss != NotStopped then 1 else 0)
  }

  /** What a transfer does to the stream it is followed in. */
  function PlaceAt(c: State, id: nat, t: Transfer): (r: (State, Option<Write>))
    requires WellFormed(c) && id in c.streams
    ensures WellFormed(r.0) && r.0.next == c.next
    ensures r.1.Some? ==> r.1.value.fragment.connection == id && id in r.0.streams
  {
    var s := c.streams[id];
    (Put(c.(stats := CountFollowed(c.stats, s, t)), id, PlaceIn(s, t)),
     if Offers(s, t) then Some(WriteOf(s, t)) else None)
  }

  /** What one transfer does before the sink answers. */
  function Place(c: State, t: Transfer, taking: Taking): (r: (State, Option<Write>))
    requires WellFormed(c)
    ensures WellFormed(r.0) && c.next <= r.0.next
    ensures r.1.Some? ==> r.1.value.fragment.connection in r.0.streams
  {
    if Obsolete(c, t) then
      (c.(stats := c.stats.(transfers := c.stats.transfers + 1, rejected := c.stats.rejected + 1)), None)
    else
      var c1 := c.(stats := CountSeen(c.stats, t));
      if Placeless(t) then (c1, None)
      else
        var c2 := Follow(c1, t, taking);
        PlaceAt(c2, c2.open[t.Key()], t)
  }

  /** What the sink's answer to one fragment does, to a stream ended or not. */
  function Settle(c: State, w: Write, answer: Answer): (r: State)
    requires WellFormed(c) && w.fragment.connection in c.streams
    ensures WellFormed(r) && r.next == c.next
  {
    if answer.Accepted? then
      c.(stats := c.stats.(records := c.stats.records + 1), delivered := c.delivered + [w])
    else
      var id := w.fragment.connection;
      Put(c.(stats := c.stats.(
               rejected := c.stats.rejected + 1,
               intakeRefused := c.stats.intakeRefused + if answer.RefusedAtLimit? then 1 else 0)),
          id, RefuseWrite(c.streams[id], w.fragment, answer.RefusedAtLimit?))
  }

  /** One transfer, with its sink answering before anything else happens. */
  function TransferStep(c: State, t: Transfer, answer: Answer, taking: Taking): (r: State)
    requires WellFormed(c)
    ensures WellFormed(r)
  {
    var (c1, w) := Place(c, t, taking);
    if w.Some? then Settle(c1, w.value, answer) else c1
  }

  /** Whether a gate refusal reaches a stream: only of the occupancy it follows. */
  predicate Refusable(c: State, t: Transfer)
    requires WellFormed(c)
  {
    t.sequence.number != 0 && t.Key() in c.open && c.streams[c.open[t.Key()]].occupancy == t.sequence.occupancy
  }

  function RefuseStep(c: State, t: Transfer): (r: State)
    requires WellFormed(c)
    ensures WellFormed(r) && r.next == c.next
  {
    var c1 := c.(stats := c.stats.(gateRefused := c.stats.gateRefused + 1));
    if !Refusable(c, t) then c1
    else Put(c1, c.open[t.Key()], RefuseIn(c.streams[c.open[t.Key()]], t))
  }

  function CountUnmatched(c: State): State {
    c.(stats := c.stats.(endingsUnmatched := c.stats.endingsUnmatched + 1))
  }

  /** The ending of a handle's occupancy: none of a handle not followed, none of an
      older occupancy, and of a newer one only that the followed stream is over. */
  function CloseStep(c: State, e: Closing, taking: Taking): (r: State)
    requires WellFormed(c)
    ensures WellFormed(r) && r.next == c.next
  {
    if e.Key() !in c.open then CountUnmatched(c)
    else
      var s := c.streams[c.open[e.Key()]];
      if e.occupancy != 0 && e.occupancy < s.occupancy then CountUnmatched(c)
      else if e.occupancy != 0 && s.occupancy != 0 && e.occupancy != s.occupancy then
        CountUnmatched(Retire(c, e.Key(), e.at, taking))
      else
        var how := if e.final.exited then EndingUnobserved else HandleReleasedEnding;
        var r := End(c, e.Key(), CloseIn(s, e), how, e.at, taking);
        r.(stats := CountUnlocated(r.stats, e.unlocated).(closed := r.stats.closed + 1))
  }

  /** The record of one stream still open when production stopped. */
  function FinishStep(c: State, key: StreamKey, asked: seq<Settling>, at: Time, taking: Taking): (r: State)
    requires WellFormed(c)
    ensures WellFormed(r) && r.next == c.next
  {
    if key !in c.open then c
    else
      var s := c.streams[c.open[key]];
      var r := End(c, key, FinishIn(s, asked), StillOpen, at, taking);
      if s.occupancy != 0 && VerdictOf(asked, s.occupancy).Settled? then
        r.(stats := CountUnlocated(r.stats, VerdictOf(asked, s.occupancy).unlocated))
      else r
  }

  // Whole runs.

  datatype Input =
    | Transferred(transfer: Transfer, answer: Answer)
    | Refused(transfer: Transfer)
    | Closed(closing: Closing)
    | Finished(key: StreamKey, asked: seq<Settling>, at: Time)

  function Step(c: State, input: Input, taking: Taking): (r: State)
    requires WellFormed(c)
    ensures WellFormed(r)
  {
    match input
    case Transferred(t, answer) => TransferStep(c, t, answer, taking)
    case Refused(t) => RefuseStep(c, t)
    case Closed(e) => CloseStep(c, e, taking)
    case Finished(key, asked, at) => FinishStep(c, key, asked, at, taking)
  }

  function Run(c: State, inputs: seq<(Input, Taking)>): (r: State)
    requires WellFormed(c)
    ensures WellFormed(r)
  {
    if inputs == [] then c
    else
      var last := inputs[|inputs| - 1];
      Step(Run(c, inputs[..|inputs| - 1]), last.0, last.1)
  }
}
