/** What the observer publishes about a connection: its identity, what each
    direction was bound to, and how far each direction can be placed. */
module Connection {
  import opened Values

  datatype Descriptor = Unheld | Held(number: int)

  datatype Socket = Unnamed | Named(inode: nat)

  datatype Address = Nowhere | At(ip: nat, port: nat)

  datatype Endpoints = Endpoints(local: Address, remote: Address, netns: Namespace) {
    predicate Complete() { local.At? && remote.At? && netns.Known() }
  }

  datatype BindingState = Established | Unknown | Ambiguous | Invalidated

  datatype Reason =
    | ReasonUnset
    | NoBindingObserved
    | InsertionRefused
    | ObservationLost
    | TransportUnsupported
    | BindingUnobservable
    | OperationWasNotASocket
    | EvidenceUnreadable
    | OperationUnresolved
    | RouteUnsupported
    | OperationFrameBroken
    | SocketEvidenceUnavailable
    | SeveralDescriptors
    | DescriptorReplaced
    | TransportReplaced
    | LifetimeEvidenceEnded
    | HandleReleased
    | HandleLifetimeUnobservable
    | TerminalUnsettled
    | SequenceUnavailable
    | OperationsOverlapped
    | LengthUnmeasured
  {
    /** Whether this reason may accompany that state. */
    predicate Holds(state: BindingState) {
      match state
      case Established => ReasonUnset?
      case Unknown =>
        NoBindingObserved? || InsertionRefused? || ObservationLost? || TransportUnsupported? ||
        BindingUnobservable? || OperationWasNotASocket? || EvidenceUnreadable? || OperationUnresolved? ||
        RouteUnsupported? || OperationFrameBroken? || SocketEvidenceUnavailable?
      case Ambiguous => SeveralDescriptors?
      case Invalidated =>
        DescriptorReplaced? || TransportReplaced? || LifetimeEvidenceEnded? || HandleReleased? ||
        HandleLifetimeUnobservable?
    }
  }

  datatype Joinability = Joins | DoesNotJoin

  datatype JoinReason =
    | JoinReasonUnset | NoBindingToJoin | EndpointUnreadable | NoEndpointProducer | NamespaceUnestablished

  datatype Source = SourceUnset | SetterArgument | InCallSyscall | SocketLifetime

  datatype Basis = BasisUnset | ConfirmedInCall | Continuity

  datatype Interval = Interval(from: Time, until: Time, open: bool) {
    predicate Valid() { from != 0 && (!open ==> until != 0 && from <= until) }
  }

  const NoInterval := Interval(0, 0, false)

  datatype Association = Association(
    connection: nat,
    direction: Direction,
    state: BindingState,
    reason: Reason,
    binding: nat,
    source: Source,
    valid: Interval,
    descriptor: Descriptor,
    socket: Socket,
    endpoints: Endpoints,
    join: Joinability,
    joinReason: JoinReason,
    contended: seq<Descriptor>,
    basis: Basis)
  {
    predicate Valid() {
      && reason.Holds(state)
      && (state != Established ==> basis == BasisUnset)
      && (join == Joins ==>
            joinReason == JoinReasonUnset && state == Established && endpoints.Complete())
      && (join == DoesNotJoin ==>
            joinReason != JoinReasonUnset && !(joinReason == NoBindingToJoin && state == Established))
      && (state == Ambiguous ==> |contended| >= 2)
      && (state == Unknown ==> descriptor.Unheld?)
      && (state == Established ==>
            source != SourceUnset && descriptor.Held? && binding != 0 && valid.Valid())
    }
  }

  /** Why a count of lost transfers is not the whole of it. */
  datatype Why =
    | Whole
    | NoSequenceKept
    | CallsOverlapped
    | ArrivedBehind
    | IntakeRefusedFragment
    | GateRefusedTransfer
    | GateNumberedPast
    | LostBeforeItBegan
    | EndingUndelivered
    | NoOccupancyAtEnd
    | TailUnaccounted
    | TerminalBehind
    | InFlightAtRelease
    | OccupanciesUnreadable
    | TwoHolders
    | NoHolder
    | OtherOccupancy
    | UnlocatedUnreadable

  datatype Count = Counted(value: nat) | Uncounted(why: Why)

  datatype Positions = PositionsEstablished | PositionsUnknownFrom | PositionsUnknownThroughout

  datatype Placement = Placement(
    connection: nat,
    direction: Direction,
    positions: Positions,
    from: nat,
    because: Reason,
    lost: Count)
  {
    /** Whether a byte at this offset sits where the process put it. */
    predicate Placeable(offset: nat) {
      match positions
      case PositionsEstablished => true
      case PositionsUnknownFrom => offset < from
      case PositionsUnknownThroughout => false
    }

    predicate Whole() { positions == PositionsEstablished }

    predicate Valid() {
      && (positions == PositionsEstablished <==> because == ReasonUnset)
      && (positions != PositionsUnknownFrom ==> from == 0)
    }
  }

  datatype Ending = StillOpen | HandleReleasedEnding | SocketClosed | EndingUnobserved | EndingUnestablished

  datatype Handle = Handle(instance: InstanceKey, address: nat, generation: nat) {
    predicate Valid() { instance.Valid() && generation != 0 }
  }

  datatype Early = Early(direction: Direction, offset: nat, length: nat)

  datatype Record = Record(
    id: nat,
    handle: Handle,
    instance: Instance,
    process: Process,
    network: Namespace,
    firstSeen: Time,
    openedAt: Time,
    openedKnown: bool,
    ended: Time,
    how: Ending,
    associations: seq<Association>,
    placements: seq<Placement>,
    fragments: Count,
    early: seq<Early>,
    earlyUnmeasured: nat)

  /** The first placement a record carries for a direction. */
  function PlacementIn(placements: seq<Placement>, d: Direction): (r: Option<Placement>)
    ensures r.Some? ==> r.value in placements && r.value.direction == d
    ensures r.None? ==> forall p :: p in placements ==> p.direction != d
  {
    if placements == [] then None
    else if placements[0].direction == d then Some(placements[0])
    else PlacementIn(placements[1..], d)
  }

  /** What a consumer may rely on: each direction at most once, every entry of
      this connection and consistent in itself, an ending dated where it must be. */
  ghost predicate RecordValid(r: Record) {
    && r.id != 0
    && r.handle.Valid()
    && r.firstSeen != 0
    && (r.openedKnown ==> r.openedAt != 0)
    && (r.how == HandleReleasedEnding || r.how == SocketClosed ==> r.ended != 0)
    && (forall i :: 0 <= i < |r.associations| ==>
          r.associations[i].connection == r.id && r.associations[i].Valid())
    && (forall i, j :: 0 <= i < j < |r.associations| ==>
          r.associations[i].direction != r.associations[j].direction)
    && (forall i :: 0 <= i < |r.placements| ==>
          r.placements[i].connection == r.id && r.placements[i].Valid())
    && (forall i, j :: 0 <= i < j < |r.placements| ==>
          r.placements[i].direction != r.placements[j].direction)
  }

  /** The source's own check, with the directions seen kept in a local set. */
  method ValidateRecord(r: Record) returns (ok: bool)
    ensures ok <==> RecordValid(r)
  {
    if r.id == 0 || !r.handle.Valid() || r.firstSeen == 0 || (r.openedKnown && r.openedAt == 0) {
      return false;
    }
    if r.how != StillOpen && r.how != EndingUnobserved && r.how != EndingUnestablished && r.ended == 0 {
      return false;
    }
    var seen: set<Direction> := {};
    for i := 0 to |r.associations|
      invariant forall d :: d in seen <==> exists k :: 0 <= k < i && r.associations[k].direction == d
      invariant forall k :: 0 <= k < i ==> r.associations[k].connection == r.id && r.associations[k].Valid()
      invariant forall j, k :: 0 <= j < k < i ==> r.associations[j].direction != r.associations[k].direction
    {
      var one := r.associations[i];
      if one.connection != r.id || one.direction in seen {
        return false;
      }
      seen := seen + {one.direction};
      if !one.Valid() {
        return false;
      }
    }
    var placed: set<Direction> := {};
    for i := 0 to |r.placements|
      invariant forall d :: d in placed <==> exists k :: 0 <= k < i && r.placements[k].direction == d
      invariant forall k :: 0 <= k < i ==> r.placements[k].connection == r.id && r.placements[k].Valid()
      invariant forall j, k :: 0 <= j < k < i ==> r.placements[j].direction != r.placements[k].direction
    {
      var one := r.placements[i];
      if one.connection != r.id || one.direction in placed {
        return false;
      }
      placed := placed + {one.direction};
      if !one.Valid() {
        return false;
      }
    }
    return true;
  }
}

/** What capture had established about a connection when it placed a fragment,
    and the check of a later record against it. */
module Evidence {
  import opened Values
  import opened Connection

  datatype Identity = Identity(
    connection: nat,
    process: Process,
    instance: Instance,
    address: nat,
    generation: nat,
    network: Namespace,
    firstSeen: Time,
    openedAt: Time)

  datatype Origin = OriginBirth | OriginFirstRecorded | OriginUnestablished

  datatype DirectionEvidence = DirectionEvidence(
    limit: nat,
    cut: bool,
    from: nat,
    lost: nat,
    lostUncounted: bool,
    first: nat,
    numbered: nat,
    resolved: nat,
    empties: nat)
  {
    /** One direction's own consistency, empties apart. */
    predicate Consistent() {
      && (!cut ==> from == 0 && lost == 0 && !lostUncounted)
      && from <= limit
      && first <= numbered
      && (numbered != 0 ==> first != 0)
      && resolved <= numbered
      && (resolved != 0 ==> first == 1)
      && (!cut ==> resolved == numbered)
    }

    predicate Valid() { Consistent() && empties <= numbered }
  }

  datatype Evidence = Evidence(
    identity: Identity,
    occupancy: nat,
    origin: Origin,
    through: nat,
    directions: Both<DirectionEvidence>)
  {
    predicate Valid() {
      && through != 0
      && identity.connection != 0
      && identity.process.pid > 0
      && (occupancy == 0 ==> origin == OriginUnestablished)
      && ValidIn(Sent) && ValidIn(Received)
    }

    predicate ValidIn(d: Direction) {
      && directions.Of(d).Valid()
      && (origin == OriginUnestablished ==> directions.Of(d).cut && directions.Of(d).from == 0)
    }
  }

  predicate AgreesIn(r: Record, d: Direction, held: DirectionEvidence) {
    var placement := PlacementIn(r.placements, d);
    if !held.cut && held.limit == 0 then
      true
    else if placement.None? then
      false
    else if !held.cut then
      placement.value.Whole() ||
      (placement.value.positions == PositionsUnknownFrom && placement.value.from >= held.limit)
    else
      && (held.from == 0 ==> placement.value.positions == PositionsUnknownThroughout)
      && (held.from != 0 ==>
            placement.value.positions == PositionsUnknownFrom && placement.value.from == held.from)
      && (held.lostUncounted ==> placement.value.lost.Uncounted?)
      && (placement.value.lost.Counted? ==> held.lost <= placement.value.lost.value)
  }

  /** Whether a record contradicts nothing an evidence of its connection said. */
  predicate Agrees(r: Record, e: Evidence) {
    && e.Valid()
    && r.id == e.identity.connection
    && r.process == e.identity.process
    && r.instance == e.identity.instance
    && r.handle.instance == e.identity.instance.key
    && r.handle.address == e.identity.address
    && r.handle.generation == e.identity.generation
    && r.network == e.identity.network
    && r.firstSeen == e.identity.firstSeen
    && r.openedKnown == (e.identity.openedAt != 0)
    && r.openedAt == e.identity.openedAt
    && r.fragments.Counted? && e.through <= r.fragments.value
    && AgreesIn(r, Sent, e.directions.sent)
    && AgreesIn(r, Received, e.directions.received)
  }
}
