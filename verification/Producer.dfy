/** The kernel side's numbering of a handle's calls, as the steps of any number of
    threads: each entry holds its direction and takes a number, each return reads
    its place, tries to deliver, and lets the direction go. Any step may fail. */
module Producer {
  import opened Values
  import opened Probe

  type Thread = t: nat | t > 0 witness 1

  /** One direction of one occupancy: the last number taken, the refused
      reservations counted, the thread holding it or zero, and the mark of an
      overlap. The rest is history the program does not keep: what each numbered
      call that returned had moved, the numbers whose reservation was refused, the
      threads yet to count one, the threads delivering a call numbered at its
      return, whether one of those ever met another call, and the number the
      holding call took. */
  datatype Line = Line(
    taken: nat,
    dropped: nat,
    busy: nat,
    overlapped: bool,
    moved: map<nat, nat>,
    refused: set<nat>,
    owing: set<Thread>,
    late: set<Thread>,
    crowded: bool,
    held: nat)

  const FreshLine := Line(0, 0, 0, false, map[], {}, {}, {}, false, 0)

  /** An occupancy's own facts: who holds the handle, and what was lost before it. */
  datatype Occupancy = Occupancy(key: StreamKey, born: bool, unlocated: nat)

  /** Where in an occupancy: its id, never zero, and a direction. */
  datatype At = At(occupancy: nat, direction: Direction)

  /** What a return has read of its place before it tries to deliver. */
  datatype Reading = Reading(
    key: StreamKey,
    at: At,
    number: nat,
    bytes: nat,
    measured: bool,
    overlapped: bool,
    dropped: nat,
    deferred: bool)

  datatype Phase =
    | Outside
    | Entering(key: StreamKey, at: At)
    | Contending(key: StreamKey, at: At)
    | Held(key: StreamKey, at: At)
    | Numbered(key: StreamKey, at: At, number: nat)
    | InCall(key: StreamKey, at: At, number: nat)
    | Unsequenced(key: StreamKey, direction: Direction)
    | Deferred(direction: Direction)
    | Returning(reading: Reading)
    | Dropping(at: At, number: nat, deferred: bool)
    | Counting(at: At, number: nat, read: nat, deferred: bool)
    | Releasing(at: At, deferred: bool)

  /** An event on the ring, and whether its call was numbered only at its return. */
  datatype Submission = Submission(transfer: Transfer, deferred: bool)

  /** A release under way: the entry found, or none, and what it has read of it. */
  datatype Copying = Copying(key: StreamKey, occupancy: nat, read: nat, terminals: Both<Terminal>)

  datatype World = World(
    table: map<(Namespace, int, nat), nat>,
    occupancies: map<nat, Occupancy>,
    lines: map<At, Line>,
    ids: nat,
    unlocated: nat,
    threads: map<Thread, Phase>,
    releases: map<Thread, Copying>,
    submitted: seq<Submission>,
    closings: seq<Closing>)

  const Quiet := World(map[], map[], map[], 0, 0, map[], map[], [], [])

  /** A handle as the occupancy table is keyed: without the admission generation. */
  function HandleOf(key: StreamKey): (Namespace, int, nat) {
    (key.instance.namespace, key.instance.pid, key.endpoint)
  }

  function PhaseOf(w: World, t: Thread): Phase { if t in w.threads then w.threads[t] else Outside }

  function LineOf(w: World, at: At): Line { if at in w.lines then w.lines[at] else FreshLine }

  /** The occupancy the table holds for a handle under this admission, or zero. */
  function Occupied(w: World, key: StreamKey): (id: nat) {
    var handle := HandleOf(key);
    if handle in w.table && w.table[handle] in w.occupancies && w.occupancies[w.table[handle]].key == key
    then w.table[handle] else 0
  }

  /** Whether an occupancy is still the one its handle is in. */
  predicate StillHeld(w: World, id: nat) {
    id in w.occupancies && HandleOf(w.occupancies[id].key) in w.table && w.table[HandleOf(w.occupancies[id].key)] == id
  }

  /** One step of some thread, or of the program on its behalf, with what it found. */
  datatype Step =
    | Begin(key: StreamKey, born: bool)
    | Enter(thread: Thread, key: StreamKey, direction: Direction, counted: bool)
    | Hold(thread: Thread)
    | Mark(thread: Thread)
    | Take(thread: Thread)
    | Record(thread: Thread, taken: bool)
    | Lose(thread: Thread, key: StreamKey, direction: Direction, bytes: nat)
    | Vanish(thread: Thread)
    | EnterDeferred(thread: Thread, direction: Direction)
    | ReturnDeferred(thread: Thread, key: StreamKey, bytes: nat, measured: bool)
    | ReturnUnreported(thread: Thread, bytes: nat)
    | Return(thread: Thread, bytes: nat, measured: bool)
    | Emit(thread: Thread, reserved: bool, carried: Transfer)
    | ReadDrops(thread: Thread)
    | WriteDrops(thread: Thread)
    | Unhold(thread: Thread)
    | Find(thread: Thread, key: StreamKey)
    | Copy(thread: Thread)
    | Release(thread: Thread, when: Time, instance: Instance)

  /** Whether a step may be taken: a thread's phase decides which is next, and a
      call that moved nothing is always measured. */
  predicate Enabled(w: World, s: Step) {
    match s
    case Begin(_, _) => true
    case Enter(t, _, _, _) => PhaseOf(w, t).Outside?
    case Hold(t) => PhaseOf(w, t).Entering?
    case Mark(t) => PhaseOf(w, t).Contending?
    case Take(t) => PhaseOf(w, t).Held?
    case Record(t, _) => PhaseOf(w, t).Numbered?
    case Lose(_, _, _, _) => true
    case Vanish(t) => PhaseOf(w, t).InCall? || PhaseOf(w, t).Unsequenced? || PhaseOf(w, t).Deferred?
    case EnterDeferred(t, _) => PhaseOf(w, t).Outside?
    case ReturnDeferred(t, _, bytes, measured) => PhaseOf(w, t).Deferred? && (bytes == 0 ==> measured)
    case ReturnUnreported(t, _) => PhaseOf(w, t).InCall? || PhaseOf(w, t).Unsequenced?
    case Return(t, bytes, measured) =>
      (PhaseOf(w, t).InCall? || PhaseOf(w, t).Unsequenced?) && (bytes == 0 ==> measured)
    case Emit(t, _, _) => PhaseOf(w, t).Returning?
    case ReadDrops(t) => PhaseOf(w, t).Dropping?
    case WriteDrops(t) => PhaseOf(w, t).Counting?
    case Unhold(t) => PhaseOf(w, t).Releasing?
    case Find(t, _) => t !in w.releases
    case Copy(t) => t in w.releases && w.releases[t].occupancy != 0 && w.releases[t].read < READS
    case Release(t, _, instance) =>
      && t in w.releases && (w.releases[t].occupancy == 0 || w.releases[t].read == READS)
      && instance.key == w.releases[t].key.instance
  }

  /** A step of the occupancy table alone. */
  predicate OfTable(s: Step) { s.Begin? || s.Find? || s.Copy? || s.Release? }

  /** How many words a release reads of the entry it found. */
  const READS := 4

  /** A direction whose next number is taken, and what its call moved if known. */
  function TakeIn(l: Line): Line { l.(taken := l.taken + 1) }

  /** obs_hold's compare-and-swap: the direction is taken if free. */
  function HoldIn(l: Line, t: Thread): Line {
    var l1 := if l.late != {} then l.(crowded := true) else l;
    if l.busy == 0 || l.busy == t then l1.(busy := t, held := 0) else l1
  }

  /** And its mark, written once another's hold was found: for good. */
  function MarkIn(l: Line): Line { l.(overlapped := true) }

  /** A call numbered at its return: it never holds its direction. */
  function TakeLate(l: Line, t: Thread, bytes: nat): Line {
    var l1 := TakeIn(l);
    l1.(moved := l.moved[l1.taken := bytes], late := l.late + {t}, crowded := l.crowded || l.busy != 0 || l.late != {})
  }

  /** The write half of obs_dropped's increment, which is not atomic. */
  function CountIn(l: Line, t: Thread, read: nat): Line { l.(dropped := read + 1, owing := l.owing - {t}) }

  /** obs_unhold: only the holder's own mark is cleared. */
  function UnholdIn(l: Line, t: Thread): Line {
    (if l.busy == t then l.(busy := 0, held := 0) else l).(late := l.late - {t})
  }

  /** The event a reading becomes: the producer's own fields over whatever else the
      call carried. */
  function EventOf(w: World, r: Reading, carried: Transfer): Transfer {
    var kept := r.at.occupancy in w.occupancies;
    carried.(
      instance := carried.instance.(key := r.key.instance), endpoint := r.key.endpoint,
      direction := r.at.direction,
      length := if r.measured then r.bytes else 0,
      measured := r.measured,
      sequence := Sequence(r.at.occupancy, r.number, kept && w.occupancies[r.at.occupancy].born, r.overlapped,
                           w.unlocated, if kept then w.occupancies[r.at.occupancy].unlocated else 0, r.dropped))
  }

  function TerminalOf(l: Line): Terminal { Terminal(l.taken, l.dropped, l.busy != 0) }

  /** What the producer answers about an occupancy it holds. */
  function FinalOf(w: World, id: nat): Final {
    Final(true, Both(TerminalOf(LineOf(w, At(id, Sent))), TerminalOf(LineOf(w, At(id, Received)))), false)
  }

  const NoTerminals := Both(Terminal(0, 0, false), Terminal(0, 0, false))

  const NoFinal := Final(false, NoTerminals, false)

  /** No line: occupancy zero is none. */
  const Nowhere := At(0, Sent)

  /** What a step does: where its thread goes, the one line it changes, and what
      it submits. */
  datatype Effect = Effect(phase: Phase, at: At, line: Line, submitted: seq<Submission>, unlocated: nat)

  function Going(w: World, p: Phase): Effect { Effect(p, Nowhere, LineOf(w, Nowhere), [], 0) }

  function Changing(p: Phase, at: At, l: Line): Effect { Effect(p, at, l, [], 0) }

  function EnterEffect(w: World, key: StreamKey, d: Direction, counted: bool): Effect {
    var id := Occupied(w, key);
    if id != 0 then Going(w, Entering(key, At(id, d)))
    else Going(w, Unsequenced(key, d)).(unlocated := if counted then 1 else 0)
  }

  /** A call that found its direction another's has yet to mark it. */
  function HoldEffect(w: World, t: Thread, key: StreamKey, at: At): Effect {
    var l := HoldIn(LineOf(w, at), t);
    Changing(if l.busy == t then Held(key, at) else Contending(key, at), at, l)
  }

  /** obs_take under the hold: the number the call will carry. */
  function TakeEffect(w: World, t: Thread, key: StreamKey, at: At): Effect {
    var l := TakeIn(LineOf(w, at));
    Changing(Numbered(key, at, l.taken), at, if l.busy == t then l.(held := l.taken) else l)
  }

  /** obs_lost: a number taken by a call nothing will report. */
  function LoseEffect(w: World, p: Phase, key: StreamKey, d: Direction, bytes: nat): Effect {
    var id := Occupied(w, key);
    if id == 0 then Going(w, p).(unlocated := 1)
    else
      var l := TakeIn(LineOf(w, At(id, d)));
      Changing(p, At(id, d), l.(moved := l.moved[l.taken := bytes]))
  }

  function ReturnDeferredEffect(w: World, t: Thread, d: Direction, key: StreamKey, bytes: nat, measured: bool): Effect {
    var id := Occupied(w, key);
    if id == 0 then Going(w, Returning(Reading(key, At(0, d), 0, bytes, measured, false, 0, true)))
    else
      var l := TakeLate(LineOf(w, At(id, d)), t, bytes);
      Changing(Returning(Reading(key, At(id, d), l.taken, bytes, measured, l.overlapped, l.dropped, true)), At(id, d),
               l)
  }

  /** A return that reports nothing: its grant gone, or a count no buffer holds. */
  function UnreportedEffect(w: World, p: Phase, bytes: nat): Effect
    requires p.InCall? || p.Unsequenced?
  {
    if p.Unsequenced? then Going(w, Outside)
    else
      var l := LineOf(w, p.at);
      Changing(if StillHeld(w, p.at.occupancy) then Releasing(p.at, false) else Outside, p.at,
               l.(moved := l.moved[p.number := bytes]))
  }

  /** A return reads its place; a call that outlived its occupancy has none. */
  function ReturnEffect(w: World, p: Phase, bytes: nat, measured: bool): Effect
    requires p.InCall? || p.Unsequenced?
  {
    if p.Unsequenced? then Going(w, Returning(Reading(p.key, At(0, p.direction), 0, bytes, measured, false, 0, false)))
    else
      var l := LineOf(w, p.at);
      Changing(Returning(if StillHeld(w, p.at.occupancy)
                         then Reading(p.key, p.at, p.number, bytes, measured, l.overlapped, l.dropped, false)
                         else Reading(p.key, At(0, p.at.direction), 0, bytes, measured, false, 0, false)),
               p.at, l.(moved := l.moved[p.number := bytes]))
  }

  /** The reservation: granted, the event is on the ring; refused, its number is
      a loss its line will count, or one nothing locates. */
  function EmitEffect(w: World, t: Thread, r: Reading, reserved: bool, carried: Transfer): Effect {
    var l := LineOf(w, r.at);
    var none := r.at.occupancy == 0;
    if reserved then
      Changing(if none then Outside else Releasing(r.at, r.deferred), r.at, l)
        .(submitted := [Submission(EventOf(w, r, carried), r.deferred)])
    else if none then Going(w, Outside).(unlocated := if r.bytes > 0 && r.measured then 1 else 0)
    else Changing(Dropping(r.at, r.number, r.deferred), r.at,
                  l.(refused := l.refused + {r.number}, owing := l.owing + {t}))
  }

  function Do(w: World, s: Step): Effect
    requires Enabled(w, s) && !OfTable(s)
  {
    var p := PhaseOf(w, s.thread);
    match s
    case Enter(_, key, d, counted) => EnterEffect(w, key, d, counted)
    case Hold(t) => HoldEffect(w, t, p.key, p.at)
    case Mark(_) => Changing(Held(p.key, p.at), p.at, MarkIn(LineOf(w, p.at)))
    case Take(t) => TakeEffect(w, t, p.key, p.at)
    case Record(_, taken) => Going(w, if taken then InCall(p.key, p.at, p.number) else Releasing(p.at, false))
    case Lose(_, key, d, bytes) => LoseEffect(w, p, key, d, bytes)
    case Vanish(_) => Going(w, Outside)
    case EnterDeferred(_, d) => Going(w, Deferred(d))
    case ReturnDeferred(t, key, bytes, measured) => ReturnDeferredEffect(w, t, p.direction, key, bytes, measured)
    case ReturnUnreported(_, bytes) => UnreportedEffect(w, p, bytes)
    case Return(_, bytes, measured) => ReturnEffect(w, p, bytes, measured)
    case Emit(t, reserved, carried) => EmitEffect(w, t, p.reading, reserved, carried)
    case ReadDrops(_) => Going(w, Counting(p.at, p.number, LineOf(w, p.at).dropped, p.deferred))
    case WriteDrops(t) => Changing(Releasing(p.at, p.deferred), p.at, CountIn(LineOf(w, p.at), t, p.read))
    case Unhold(t) => Changing(Outside, p.at, UnholdIn(LineOf(w, p.at), t))
  }

  function Apply(w: World, t: Thread, e: Effect): World {
    w.(threads := w.threads[t := e.phase], lines := w.lines[e.at := e.line], submitted := w.submitted + e.submitted,
       unlocated := w.unlocated + e.unlocated)
  }

  /** obs_occupy's beginning: a new name for a handle that has none, or whose
      admission or connection is over. */
  function BeginAt(w: World, key: StreamKey, born: bool): World {
    w.(ids := w.ids + 1, table := w.table[HandleOf(key) := w.ids + 1],
       occupancies := w.occupancies[w.ids + 1 := Occupancy(key, born, w.unlocated)])
  }

  /** obs_release finds the entry, whoever releases. */
  function FindAt(w: World, t: Thread, key: StreamKey): World {
    var handle := HandleOf(key);
    w.(releases := w.releases[t := Copying(key, if handle in w.table then w.table[handle] else 0, 0, NoTerminals)])
  }

  /** Reads it, a word a step: the last number sent, the last received, then whether
      each direction is held. */
  function CopyIn(w: World, c: Copying): Copying {
    var sent, received := LineOf(w, At(c.occupancy, Sent)), LineOf(w, At(c.occupancy, Received));
    var t := c.terminals;
    c.(read := c.read + 1,
       terminals := if c.read == 0 then t.(sent := t.sent.(last := sent.taken))
                    else if c.read == 1 then t.(received := t.received.(last := received.taken))
                    else if c.read == 2 then t.(sent := t.sent.(inFlight := sent.busy != 0))
                    else t.(received := t.received.(inFlight := received.busy != 0)))
  }

  /** And deletes whatever entry the handle then has. The occupancy ends here,
      delivered or not. */
  function ReleaseAt(w: World, t: Thread, when: Time, instance: Instance): World
    requires t in w.releases
  {
    var c := w.releases[t];
    w.(releases := w.releases - {t},
       table := if c.occupancy == 0 then w.table else w.table - {HandleOf(c.key)},
       closings := w.closings + [Closing(instance, c.key.endpoint, c.occupancy, w.unlocated, EndingOf(c), when)])
  }

  function EndingOf(c: Copying): Final { if c.occupancy == 0 then NoFinal else Final(true, c.terminals, false) }

  function Next(w: World, s: Step): World
    requires Enabled(w, s)
  {
    match s
    case Begin(key, born) => BeginAt(w, key, born)
    case Find(t, key) => FindAt(w, t, key)
    case Copy(t) => w.(releases := w.releases[t := CopyIn(w, w.releases[t])])
    case Release(t, when, instance) => ReleaseAt(w, t, when, instance)
    case _ => Apply(w, s.thread, Do(w, s))
  }

  /** A step that cannot be taken is not. */
  function Make(w: World, s: Step): World { if Enabled(w, s) then Next(w, s) else w }

  function Produced(steps: seq<Step>): World {
    if steps == [] then Quiet else Make(Produced(steps[..|steps| - 1]), steps[|steps| - 1])
  }
}
