/** What the producer reports to capture: numbered transfers, endings, and what
    it still holds once production has stopped. */
module Probe {
  import opened Values

  datatype Bound = NotBound | BoundTo | BoundAmbiguously | BoundInvalidated

  /** What a call's own kernel I/O came to, worst last. */
  datatype SocketOutcome =
    | NoKernelIO | SocketIO | FileIO | UnresolvedIO | UnsupportedIO | UnreadableIO | BrokenFrame

  datatype Ends = Ends(
    known: bool,
    local: nat,
    localPort: nat,
    peer: nat,
    peerPort: nat,
    netns: nat,
    openedAt: Time,
    attempted: bool)

  /** A transfer's place in its occupancy; occupancy zero is none kept. */
  datatype Sequence = Sequence(
    occupancy: nat,
    number: nat,
    born: bool,
    overlapped: bool,
    unlocated: nat,
    beginUnlocated: nat,
    dropped: nat)

  /** A handle of one admitted execution. */
  datatype StreamKey = StreamKey(instance: InstanceKey, endpoint: nat)

  datatype Transfer = Transfer(
    process: Process,
    instance: Instance,
    network: Namespace,
    endpoint: nat,
    direction: Direction,
    length: nat,
    measured: bool,
    early: bool,
    at: Time,
    sequence: Sequence,
    bound: Bound,
    descriptor: int,
    binding: nat,
    socket: nat,
    ends: Ends,
    outcome: SocketOutcome)
  {
    function Key(): StreamKey { StreamKey(instance.key, endpoint) }
  }

  /** One direction's last number, its refused reservations, and whether a call
      had not returned. */
  datatype Terminal = Terminal(last: nat, dropped: nat, inFlight: bool)

  datatype Final = Final(known: bool, terminals: Both<Terminal>, exited: bool)

  /** The ending of a handle's occupancy. */
  datatype Closing = Closing(
    instance: Instance,
    endpoint: nat,
    occupancy: nat,
    unlocated: nat,
    final: Final,
    at: Time)
  {
    function Key(): StreamKey { StreamKey(instance.key, endpoint) }
  }

  /** What one producer answers about a handle once production has stopped. */
  datatype Settling = Unreadable | Holding(occupancy: nat, final: Final, unlocated: Option<nat>)
}
