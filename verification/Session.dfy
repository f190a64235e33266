/** Capture as the program runs it: a session whose streams are objects changed
    in place, each operation proved against the state machine over values. */
module Session {
  import opened Values
  import opened Connection
  import opened Evidence
  import opened Probe
  import opened Capture
  import CaptureEffects

  /** A count kept only once it is not zero. */
  function Kept(counts: map<Direction, nat>, d: Direction): nat { if d in counts then counts[d] else 0 }

  /** One connection as it is followed; a direction with an offset is carried. */
  class Follower {
    const id: nat
    const key: StreamKey
    const process: Process
    const instance: Instance
    const network: Namespace
    const firstSeen: Time
    const openedAt: Time
    const lifetime: bool
    const begun: Reason
    const occupancy: nat
    const origin: Origin

    var loss: Loss
    var sequence: nat
    var unlocated: nat
    var early: seq<Early>
    var earlySeen: nat
    var offsets: map<Direction, nat>
    var placement: map<Direction, Cut>
    var association: map<Direction, Binding>
    var numbered: map<Direction, nat>
    var empties: map<Direction, nat>
    var droppedBelow: map<Direction, nat>
    var first: map<Direction, nat>
    var resolved: map<Direction, nat>

    constructor (observing: Observing, number: nat, t: Transfer)
      ensures View() == FreshStream(observing, number, t).(lanes := Both(FreshLane, FreshLane))
      ensures id == number && key == t.Key() && occupancy == t.sequence.occupancy
    {
      var reason := NoBindingObserved;
      if t.sequence.beginUnlocated > 0 && !t.sequence.born {
        reason := ObservationLost;
      }
      if observing.told && !observing.binding {
        reason := BindingUnobservable;
      }
      var from := OriginFirstRecorded;
      if t.sequence.occupancy == 0 {
        from := OriginUnestablished;
      } else if t.sequence.born {
        from := OriginBirth;
      } else if t.sequence.beginUnlocated > 0 {
        from := OriginUnestablished;
      }
      id, key, process, instance := number, t.Key(), t.process, t.instance;
      network, firstSeen, openedAt := t.network, t.at, t.ends.openedAt;
      lifetime, begun, occupancy, origin := !observing.told || observing.lifecycle, reason, t.sequence.occupancy, from;
      loss, sequence, unlocated, early, earlySeen := NotStopped, 0, t.sequence.unlocated, [], 0;
      offsets, placement, association := map[], map[], map[];
      numbered, empties, droppedBelow, first, resolved := map[], map[], map[], map[], map[];
    }

    function LaneOf(d: Direction): Lane
      reads this`offsets, this`placement, this`numbered, this`empties, this`droppedBelow, this`first, this`resolved,
            this`association
    {
      Lane(d in offsets, Kept(offsets, d), if d in placement then Some(placement[d]) else None, Kept(numbered, d),
           Kept(empties, d), Kept(droppedBelow, d), Kept(first, d), Kept(resolved, d),
           if d in association then Some(association[d]) else None)
    }

    function View(): (s: Stream)
      reads this
      ensures s.id == id && s.key == key && s.occupancy == occupancy
    {
      Stream(id, key, process, instance, network, firstSeen, openedAt, lifetime, begun, occupancy, origin, loss,
             sequence, unlocated, early, earlySeen, Both(LaneOf(Sent), LaneOf(Received)))
    }

    /** What the counts kept of a direction come to. */
    lemma Counts(d: Direction)
      ensures LaneOf(d).offset == Kept(offsets, d) && LaneOf(d).numbered == Kept(numbered, d)
      ensures LaneOf(d).droppedBelow == Kept(droppedBelow, d)
    {
    }

    /** A direction is carried from its first cut or fragment. */
    method Carry(d: Direction)
      modifies this`offsets
      ensures LaneOf(d) == old(LaneOf(d)).(carried := true) && LaneOf(Other(d)) == old(LaneOf(Other(d)))
    {
      if d !in offsets {
        offsets := offsets[d := 0];
      }
    }

    /** Where a direction is cut, if it is not, and what the cut has cost. */
    method Stop(d: Direction, from: nat, because: Reason, lost: nat, why: Why) returns (first: bool)
      modifies this`offsets, this`placement
      ensures first == old(LaneOf(d)).cut.None?
      ensures LaneOf(d) == CutLane(old(LaneOf(d)), from, because, lost, why)
      ensures LaneOf(Other(d)) == old(LaneOf(Other(d)))
    {
      hide CutWith, LaneOf;
      var held := Held(d);
      first := held.None?;
      Carry(d);
      var cut := MoreOf(held, from, because, lost, why);
      Place(d, cut);
    }

    /** The cut a direction has, if it has one. */
    method Held(d: Direction) returns (held: Option<Cut>)
      ensures held == LaneOf(d).cut
    {
      held := if d in placement then Some(placement[d]) else None;
    }

    method Place(d: Direction, cut: Cut)
      modifies this`placement
      ensures LaneOf(d) == old(LaneOf(d)).(cut := Some(cut)) && LaneOf(Other(d)) == old(LaneOf(Other(d)))
    {
      placement := placement[d := cut];
    }

    /** The first number seen of a direction stays its first. */
    method Begin(d: Direction, number: nat)
      modifies this`first
      ensures LaneOf(d) == (if old(LaneOf(d)).first == 0 then old(LaneOf(d)).(first := number) else old(LaneOf(d)))
      ensures LaneOf(Other(d)) == old(LaneOf(Other(d)))
    {
      if Kept(first, d) == 0 {
        first := first[d := number];
      }
    }

    /** A number past the last becomes it, with the drops its event told below it. */
    method Take(d: Direction, s: Sequence)
      modifies this`numbered, this`droppedBelow
      ensures var l := old(LaneOf(d));
              LaneOf(d) == if s.number > l.numbered then l.(numbered := s.number, droppedBelow := s.dropped) else l
      ensures LaneOf(Other(d)) == old(LaneOf(Other(d)))
    {
      if s.number > Kept(numbered, d) {
        numbered := numbered[d := s.number];
        droppedBelow := droppedBelow[d := s.dropped];
      }
    }

    /** One more number of a direction that moved nothing. */
    method Empty(d: Direction, number: nat, next: bool)
      modifies this`empties, this`resolved
      ensures var l := old(LaneOf(d)); LaneOf(d) == Capture.Resolve(l.(empties := l.empties + 1), number, next)
      ensures LaneOf(Other(d)) == old(LaneOf(Other(d)))
    {
      empties := empties[d := Kept(empties, d) + 1];
      Resolve(d, number, next);
    }

    /** Places one transfer's bytes where the direction stands: folds its binding,
        and advances by what the call moved. */
    method Advance(t: Transfer, next: bool) returns (offset: nat, empty: nat)
      modifies this`sequence, this`early, this`empties, this`association, this`offsets, this`resolved
      ensures LaneOf(t.direction) == Capture.Advance(old(LaneOf(t.direction)), t, next)
      ensures LaneOf(Other(t.direction)) == old(LaneOf(Other(t.direction)))
      ensures sequence == old(sequence) + 1
      ensures early == if t.early then old(early) + [Early(t.direction, old(LaneOf(t.direction)).offset, t.length)]
              else old(early)
      ensures offset == old(LaneOf(t.direction)).offset && empty == old(LaneOf(t.direction)).empties
    {
      hide Capture.Bind, Capture.Resolve, LaneOf;
      var d := t.direction;
      sequence := sequence + 1;
      offset, empty := Filled(d);
      if t.early {
        early := early + [Early(d, offset, t.length)];
      }
      Bind(t);
      Move(d, offset + t.length);
      Resolve(d, t.sequence.number, next);
    }

    /** Where a direction stands, and how many empty transfers came since it moved:
        none once it does. */
    method Filled(d: Direction) returns (offset: nat, empty: nat)
      modifies this`empties
      ensures LaneOf(d) == old(LaneOf(d)).(empties := 0) && LaneOf(Other(d)) == old(LaneOf(Other(d)))
      ensures offset == LaneOf(d).offset && empty == old(LaneOf(d)).empties
    {
      offset, empty := Kept(offsets, d), Kept(empties, d);
      empties := empties[d := 0];
    }

    method Move(d: Direction, offset: nat)
      modifies this`offsets
      ensures LaneOf(d) == old(LaneOf(d)).(carried := true, offset := offset)
      ensures LaneOf(Other(d)) == old(LaneOf(Other(d)))
    {
      offsets := offsets[d := offset];
    }

    /** Extends a direction's run of numbers that all arrived in order. */
    method Resolve(d: Direction, number: nat, next: bool)
      modifies this`resolved
      ensures LaneOf(d) == Capture.Resolve(old(LaneOf(d)), number, next)
      ensures LaneOf(Other(d)) == old(LaneOf(Other(d)))
    {
      if next && number != 0 && Kept(resolved, d) == number - 1 {
        resolved := resolved[d := number];
      }
    }

    /** Folds what one transfer established into its direction's binding. */
    method Bind(t: Transfer)
      modifies this`association
      ensures LaneOf(t.direction) ==
                old(LaneOf(t.direction)).(binding := Some(Capture.Bind(old(LaneOf(t.direction)).binding, t)))
      ensures LaneOf(Other(t.direction)) == old(LaneOf(Other(t.direction)))
    {
      var held := Binding(NotBound, Unheld, 0, Unnamed, NoEndpoints, false, false, t.at, 0, true, BasisUnset,
                          NoKernelIO);
      if t.direction in association {
        held := association[t.direction];
      }
      held := held.(until := t.at, outcome := t.outcome);
      match t.bound {
        case BoundTo =>
          if !(held.state == BoundTo && held.generation == t.binding &&
               held.descriptor == Descriptor.Held(t.descriptor)) {
            held := held.(state := BoundTo, descriptor := Descriptor.Held(t.descriptor), generation := t.binding,
                          observed := true);
            held := held.(from := t.at, open := true, basis := BasisOf(t.outcome), socket := SocketOf(t.socket));
            held := held.(endpoints := EndpointsOf(t.ends), attempted := t.ends.attempted);
          }
        case NotBound =>
          if !held.observed {
            held := held.(state := NotBound);
          }
        case _ =>
          held := held.(state := t.bound, descriptor := Descriptor.Held(t.descriptor), generation := t.binding,
                        observed := true);
          held := held.(open := false);
      }
      association := association[t.direction := held];
    }
  }

  /** The streams open, by handle, are those the state names open. */
  ghost predicate Opens(open: map<StreamKey, Follower>, all: map<nat, Follower>, ids: map<StreamKey, nat>)
    ensures Opens(open, all, ids) ==> open.Keys == ids.Keys
  {
    && open.Keys == ids.Keys
    && (forall k :: k in open ==> open[k].id == ids[k] && open[k].id in all && all[open[k].id] == open[k])
  }

  lemma OpensOneMore(open: map<StreamKey, Follower>, all: map<nat, Follower>, ids: map<StreamKey, nat>, key: StreamKey,
                     found: Follower)
    requires Opens(open, all, ids) && key !in open && found.id !in all
    ensures Opens(open[key := found], all[found.id := found], ids[key := found.id])
  {
  }

  lemma OpensOneFewer(open: map<StreamKey, Follower>, all: map<nat, Follower>, ids: map<StreamKey, nat>, key: StreamKey)
    requires Opens(open, all, ids)
    ensures Opens(open - {key}, all, ids - {key})
  {
  }

  /** One run of capture. all keeps every stream begun, and state is the session
      as a value, with what it has handed on. */
  class Session {
    const observing: Observing
    var open: map<StreamKey, Follower>
    var next: nat
    var stats: Stats
    ghost var all: map<nat, Follower>
    ghost var state: State

    ghost predicate Valid()
      reads this, all.Values
    {
      && WellFormed(state) && observing == state.observing && next == state.next && stats == state.stats
      && Opens(open, all, state.open) && Viewed()
    }

    /** Every stream ever begun is as the state has it. */
    ghost predicate Viewed()
      reads this`all, this`state, all.Values
    {
      && all.Keys == state.streams.Keys
      && (forall id :: id in all ==> all[id].id == id && all[id].View() == state.streams[id])
    }

    constructor (what: Observing)
      ensures Valid() && state == Opening(what)
    {
      observing, open, next, stats := what, map[], 0, NoStats;
      all, state := map[], Opening(what);
    }

    /** Stops one direction's established positions; an earlier cut stands. */
    method CutLocked(found: Follower, d: Direction, from: nat, because: Reason, lost: nat, why: Why)
      modifies this`stats, found`offsets, found`placement
      ensures found.LaneOf(d) == CutLane(old(found.LaneOf(d)), from, because, lost, why)
      ensures found.LaneOf(Other(d)) == old(found.LaneOf(Other(d)))
      ensures stats == old(stats).(cut := old(stats).cut + if old(found.LaneOf(d)).cut.Some? then 0 else 1)
    {
      var first := found.Stop(d, from, because, lost, why);
      if first {
        stats := stats.(cut := stats.cut + 1);
      }
    }

    /** Cuts both directions where they stand. */
    method CutBothLocked(found: Follower, because: Reason, why: Why)
      modifies this`stats, found`offsets, found`placement
      ensures found.View() == CutBoth(old(found.View()), because, why)
      ensures stats == CutsCounted(old(stats), old(found.View()), found.View())
    {
      CutLocked(found, Sent, Kept(found.offsets, Sent), because, 0, why);
      CutLocked(found, Received, Kept(found.offsets, Received), because, 0, why);
    }

    /** Keeps the highest count of losses no occupancy could take. */
    method UnlocatedLocked(found: Follower, unlocated: nat)
      modifies this`stats, found`unlocated
      ensures found.View() == NoteUnlocated(old(found.View()), unlocated)
      ensures stats == CountUnlocated(old(stats), unlocated)
    {
      if unlocated > stats.unlocated {
        stats := stats.(unlocated := unlocated);
      }
      if unlocated > found.unlocated {
        found.unlocated := unlocated;
      }
    }

    /** Reads one transfer's place in its occupancy before its bytes are placed. */
    method Number(found: Follower, t: Transfer) returns (next: bool)
      modifies this`stats, found`offsets, found`placement, found`unlocated, found`first, found`numbered,
               found`droppedBelow
      ensures found.View() == Capture.Number(old(found.View()), t)
      ensures next == IsNext(old(found.View()), t)
      ensures stats == Recount(CountUnlocated(old(stats), t.sequence.unlocated)
                                 .(unsequenced := old(stats).unsequenced + if t.sequence.occupancy == 0 then 1 else 0),
                               old(found.View()), found.View())
    {
      hide CutBoth, NumberLane, Cuts, LostIn, LaneCounted;
      UnlocatedLocked(found, t.sequence.unlocated);
      NotedCounts(old(found.View()), t.sequence.unlocated);
      if t.sequence.occupancy == 0 {
        stats := stats.(unsequenced := stats.unsequenced + 1);
        CutBothLocked(found, SequenceUnavailable, NoSequenceKept);
        BothCounted(NoteUnlocated(old(found.View()), t.sequence.unlocated), SequenceUnavailable, NoSequenceKept);
        return false;
      }
      next := NumberLocked(found, t.direction, t.sequence);
      LaneCountedIs(CountUnlocated(old(stats), t.sequence.unlocated), old(found.View()), found.View(), t.direction);
    }

    /** A direction's number read: a gap is that many transfers lost here, and one
        behind the last seen breaks the order. */
    method NumberLocked(found: Follower, d: Direction, s: Sequence) returns (next: bool)
      modifies this`stats, found`offsets, found`placement, found`first, found`numbered, found`droppedBelow
      ensures found.LaneOf(d) == NumberLane(old(found.LaneOf(d)), s)
      ensures found.LaneOf(Other(d)) == old(found.LaneOf(Other(d)))
      ensures next == (s.number == old(found.LaneOf(d)).numbered + 1)
      ensures stats == LaneCounted(old(stats), old(found.LaneOf(d)), found.LaneOf(d))
    {
      hide CutLane, Gapped, LaneCounted, Follower.LaneOf, Kept;
      ghost var l := found.LaneOf(d);
      found.Counts(d);
      var at, last := Kept(found.offsets, d), Kept(found.numbered, d);
      OverlapLocked(found, d, at, s.overlapped, s.number);
      ghost var l2 := found.LaneOf(d);
      next := GapLocked(found, d, at, last, s.number);
      found.Take(d, s);
      NumberedLane(l, l2, s);
      CountedOnward(old(stats), l, l2, found.LaneOf(d), s);
    }

    /** Marks an overlap and the first number seen, before the number is compared. */
    method OverlapLocked(found: Follower, d: Direction, at: nat, overlapped: bool, number: nat)
      modifies this`stats, found`offsets, found`placement, found`first
      ensures found.LaneOf(d) == Overlapped(old(found.LaneOf(d)), at, overlapped, number)
      ensures found.LaneOf(Other(d)) == old(found.LaneOf(Other(d)))
      ensures stats == LaneCounted(old(stats), old(found.LaneOf(d)), found.LaneOf(d))
    {
      hide CutLane;
      ghost var l := found.LaneOf(d);
      if overlapped {
        CutLocked(found, d, at, OperationsOverlapped, 0, CallsOverlapped);
        CutCounted(l, at, OperationsOverlapped, 0, CallsOverlapped);
      }
      found.Begin(d, number);
    }

    /** What a number says of the one before it. */
    method GapLocked(found: Follower, d: Direction, at: nat, last: nat, number: nat) returns (next: bool)
      modifies this`stats, found`offsets, found`placement
      ensures found.LaneOf(d) == Gapped(old(found.LaneOf(d)), at, last, number)
      ensures found.LaneOf(Other(d)) == old(found.LaneOf(Other(d)))
      ensures next == (number == last + 1)
      ensures stats == LaneCounted(old(stats), old(found.LaneOf(d)), found.LaneOf(d))
    {
      hide CutLane;
      ghost var l := found.LaneOf(d);
      next := number == last + 1;
      if next {
      } else if number > last + 1 {
        var missing := number - last - 1;
        stats := stats.(lost := stats.lost + missing);
        CutLocked(found, d, at, ObservationLost, missing, Whole);
        CutCounted(l, at, ObservationLost, missing, Whole);
      } else {
        CutLocked(found, d, at, OperationsOverlapped, 0, ArrivedBehind);
        CutCounted(l, at, OperationsOverlapped, 0, ArrivedBehind);
      }
    }

    /** One direction's tail against its occupancy's last number. */
    method SettleLaneLocked(found: Follower, d: Direction, t: Terminal, ending: bool)
      modifies this`stats, found`offsets, found`placement
      ensures found.LaneOf(d) == SettleLane(old(found.LaneOf(d)), t, ending)
      ensures found.LaneOf(Other(d)) == old(found.LaneOf(Other(d)))
      ensures stats == LaneCounted(old(stats), old(found.LaneOf(d)), found.LaneOf(d))
    {
      hide CutLane, Follower.LaneOf, Kept;
      ghost var l := found.LaneOf(d);
      found.Counts(d);
      var at, last := Kept(found.offsets, d), Kept(found.numbered, d);
      var terminal := t.last;
      if t.inFlight && terminal > 0 {
        terminal := terminal - 1;
      }
      if terminal > last {
        var missing := terminal - last;
        var located := missing;
        if !ending {
          var drops := t.dropped - Kept(found.droppedBelow, d);
          if drops < 0 {
            drops := 0;
          }
          if drops > missing {
            drops := missing;
          }
          located := drops;
        }
        if located > 0 {
          stats := stats.(lost := stats.lost + located);
          CutLocked(found, d, at, ObservationLost, located, Whole);
          CutCounted(l, at, ObservationLost, located, Whole);
        } else {
          CutLocked(found, d, at, TerminalUnsettled, 0, TailUnaccounted);
          CutCounted(l, at, TerminalUnsettled, 0, TailUnaccounted);
        }
      } else if terminal < last {
        CutLocked(found, d, at, TerminalUnsettled, 0, TerminalBehind);
        CutCounted(l, at, TerminalUnsettled, 0, TerminalBehind);
      }
      if ending && t.inFlight {
        CutCounted(found.LaneOf(d), at, TerminalUnsettled, 0, InFlightAtRelease);
        CutLocked(found, d, at, TerminalUnsettled, 0, InFlightAtRelease);
      }
    }

    /** Reads a stream's tail against its occupancy's last numbers. */
    method SettleLocked(found: Follower, final: Final, ending: bool)
      modifies this`stats, found`offsets, found`placement
      ensures found.View() == SettleTail(old(found.View()), final, ending)
      ensures stats == Recount(old(stats), old(found.View()), found.View())
    {
      hide CutBoth, SettleLane;
      if !final.known {
        CutBothLocked(found, TerminalUnsettled, NoOccupancyAtEnd);
        BothCounted(old(found.View()), TerminalUnsettled, NoOccupancyAtEnd);
        return;
      }
      SettleLaneLocked(found, Sent, final.terminals.sent, ending);
      SettleLaneLocked(found, Received, final.terminals.received, ending);
    }

    /** A followed transfer nothing measured. */
    method PlaceUnmeasuredLocked(found: Follower, t: Transfer)
      requires !t.measured
      modifies this`stats, found
      ensures found.View() == PlaceIn(old(found.View()), t)
      ensures stats == Recount(CountFollowed(old(stats), old(found.View()), t), old(found.View()), found.View())
    {
      hide Capture.Number, CutLane, Recount, CountFollowed, CountUnlocated;
      ghost var s := found.View();
      if t.early {
        found.earlySeen := found.earlySeen + 1;
      }
      ghost var s1 := found.View();
      EarlyCounts(old(stats), s, s1, t);
      if Moved(t) {
        var _ := Number(found, t);
        ghost var n := found.View();
        CutLocked(found, t.direction, Kept(found.offsets, t.direction), LengthUnmeasured, 0, Whole);
        CutHereCounts(CountFollowed(old(stats), s, t), s1, n, t.direction, LengthUnmeasured);
      }
    }

    /** A followed transfer that was numbered and moved nothing. */
    method PlaceEmptyLocked(found: Follower, t: Transfer)
      requires t.measured && t.length == 0
      modifies this`stats, found
      ensures found.View() == PlaceIn(old(found.View()), t)
      ensures stats == Recount(CountFollowed(old(stats), old(found.View()), t), old(found.View()), found.View())
    {
      hide Capture.Number, Recount, CountFollowed, CountUnlocated, Follower.LaneOf;
      ghost var s := found.View();
      FollowedCounts(old(stats), s, t);
      var next := Number(found, t);
      ghost var n := found.View();
      found.Empty(t.direction, t.sequence.number, next);
      RecountSame(CountFollowed(old(stats), s, t), s, n, found.View());
    }

    /** A followed transfer with bytes: placed, unless its stream was stopped. */
    method PlaceFragmentLocked(found: Follower, t: Transfer) returns (w: Option<Write>)
      requires t.measured && t.length != 0
      modifies this`stats, found
      ensures found.View() == PlaceIn(old(found.View()), t)
      ensures stats == Recount(CountFollowed(old(stats), old(found.View()), t), old(found.View()), found.View())
      ensures w == if Offers(old(found.View()), t) then Some(WriteOf(old(found.View()), t)) else None
    {
      hide Capture.Number, Recount, CountFollowed, CountUnlocated, Capture.Advance, EvidenceOf, NumberLane,
        Follower.LaneOf;
      ghost var s := found.View();
      NumberKeeps(s, t);
      var next := Number(found, t);
      ghost var n := found.View();
      if found.loss != NotStopped {
        stats := stats.(rejected := stats.rejected + 1);
        StoppedCounts(old(stats), s, n, t);
        return None;
      }
      FollowedCounts(old(stats), s, t);
      var offset, empty := found.Advance(t, next);
      var one := Write(t, Fragment(found.id, t.process, t.direction, found.sequence, offset, t.length,
                                   t.sequence.number, empty, t.at, EvidenceOf(found.View())));
      AdvanceKeepsCut(n.lanes.Of(t.direction), t, next);
      RecountSame(CountFollowed(old(stats), s, t), s, n, found.View());
      w := Some(one);
    }

    /** What a transfer does to the stream it is followed in. */
    method PlaceLocked(found: Follower, t: Transfer) returns (w: Option<Write>)
      modifies this`stats, found
      ensures found.View() == PlaceIn(old(found.View()), t)
      ensures stats == Recount(CountFollowed(old(stats), old(found.View()), t), old(found.View()), found.View())
      ensures w == if Offers(old(found.View()), t) then Some(WriteOf(old(found.View()), t)) else None
    {
      hide PlaceIn, WriteOf, Recount, CountFollowed;
      if !t.measured {
        PlaceUnmeasuredLocked(found, t);
        w := None;
      } else if t.length == 0 {
        PlaceEmptyLocked(found, t);
        w := None;
      } else {
        w := PlaceFragmentLocked(found, t);
      }
    }

    /** A stream whose tail nothing settles. */
    method UnsettledLocked(found: Follower, taking: Taking)
      modifies this`stats, found
      ensures found.View() == RetireIn(old(found.View()))
      ensures var counted := Recount(old(stats), old(found.View()), found.View());
              stats == CountUnrecorded(counted.(retired := counted.retired + 1), taking)
    {
      hide CutBoth, Recount, Follower.View;
      ghost var s := found.View();
      CutBothLocked(found, TerminalUnsettled, EndingUndelivered);
      BothCounted(s, TerminalUnsettled, EndingUndelivered);
      CutsCountedIs(old(stats), s, found.View());
      stats := stats.(retired := stats.retired + 1);
      RecordLocked(taking);
    }

    /** Ends a stream whose occupancy the producer replaced. */
    method RetireLocked(key: StreamKey, at: Time, taking: Taking)
      requires Valid() && key in open
      modifies this`open, this`stats, this`state, open[key]
      ensures Valid() && state == Retire(old(state), key, at, taking)
    {
      hide Recount, Follower.View, Retire, RetireIn, WellFormed, CountUnrecorded, Opens;
      RetireShape(state, key, at, taking);
      OpenAt(key);
      UnsettledLocked(open[key], taking);
      OpensOneFewer(open, all, state.open, key);
      open, state := open - {key}, Retire(state, key, at, taking);
    }

    /** Counts a record its sink refused. */
    method RecordLocked(taking: Taking)
      modifies this`stats
      ensures stats == CountUnrecorded(old(stats), taking)
    {
      if taking.Refuses? {
        stats := stats.(connectionsUnrecorded := stats.connectionsUnrecorded + 1);
      }
    }

    /** A stream for a transfer, cut at once if a loss nothing located fell before. */
    method CreateLocked(t: Transfer) returns (found: Follower)
      modifies this`next, this`stats
      ensures fresh(found) && next == old(next) + 1 && found.id == next
      ensures found.View() == FreshStream(observing, next, t)
      ensures stats == old(stats).(
                connections := old(stats).connections + 1,
                cut := old(stats).cut + Cuts(FreshStream(observing, next, t)),
                unattributed := old(stats).unattributed + if t.instance.key.Valid() then 0 else 1)
    {
      hide CutBoth, FreshStream, Cuts, Follower.View, InstanceKey.Valid;
      if !t.instance.key.Valid() {
        stats := stats.(unattributed := stats.unattributed + 1);
      }
      next := next + 1;
      found := new Follower(observing, next, t);
      FreshCut(observing, next, t);
      if t.sequence.beginUnlocated > 0 && t.sequence.occupancy != 0 && !t.sequence.born {
        CutBothLocked(found, ObservationLost, LostBeforeItBegan);
      }
      stats := stats.(connections := stats.connections + 1);
    }

    /** Begins the stream a transfer needs. */
    method BeginLocked(t: Transfer) returns (found: Follower)
      requires Valid() && t.Key() !in open
      modifies this`open, this`next, this`stats, this`all, this`state
      ensures Valid() && state == BeginStream(old(state), t)
      ensures fresh(found) && t.Key() in open && found == open[t.Key()]
      ensures next == old(next) + 1 && all == old(all)[next := found]
    {
      hide FreshStream, Cuts, Follower.View, WellFormed, InstanceKey.Valid, BeginStream, Opens;
      BeginShape(state, t);
      found := CreateLocked(t);
      Register(found, t);
    }

    /** Lists a stream just created as open. */
    method Register(found: Follower, t: Transfer)
      requires WellFormed(state) && t.Key() !in open && Opens(open, all, state.open) && Viewed()
      requires observing == state.observing && next == state.next + 1 && stats == BeginStream(state, t).stats
      requires found.id == next && found.View() == FreshStream(observing, next, t)
      modifies this`open, this`all, this`state
      ensures Valid() && state == BeginStream(old(state), t)
      ensures t.Key() in open && found == open[t.Key()] && all == old(all)[next := found]
    {
      hide FreshStream, Cuts, Follower.View, WellFormed, InstanceKey.Valid, BeginStream, Opens;
      BeginShape(state, t);
      NextUnused(state);
      OpensOneMore(open, all, state.open, t.Key(), found);
      open, all, state := open[t.Key() := found], all[next := found], BeginStream(state, t);
    }

    /** The stream a transfer belongs to, begun if new; one of another occupancy
        says the handle was released and reused. */
    method Follow(t: Transfer, taking: Taking) returns (found: Follower)
      requires Valid()
      modifies this`open, this`next, this`stats, this`all, this`state, all.Values
      ensures Valid() && state == Capture.Follow(old(state), t, taking)
      ensures t.Key() in open && found == open[t.Key()]
      ensures forall id :: id in old(all) ==> id in all && all[id] == old(all)[id]
      ensures forall id :: id in all && id !in old(all) ==> fresh(all[id])
    {
      hide Retire, BeginStream, Valid;
      Known(t.Key());
      if t.Key() in open {
        found := open[t.Key()];
        if t.sequence.occupancy == 0 || found.occupancy == 0 || found.occupancy == t.sequence.occupancy {
          return;
        }
        RetireLocked(t.Key(), t.at, taking);
        Known(t.Key());
      }
      NextFollower();
      found := BeginLocked(t);
    }

    /** The next id names no stream yet. */
    lemma NextFollower()
      requires Valid()
      ensures next + 1 !in all
    {
    }

    /** The counters every transfer moves. */
    method SeenLocked(t: Transfer)
      modifies this`stats
      ensures stats == CountSeen(old(stats), t)
    {
      stats := stats.(transfers := stats.transfers + 1);
      if t.early {
        stats := stats.(early := stats.early + 1);
      }
      if !t.measured {
        stats := stats.(unmeasured := stats.unmeasured + 1);
      } else if t.length == 0 {
        stats := stats.(empty := stats.empty + 1);
      }
    }

    /** Places a transfer in the stream followed for it. */
    method PlaceFoundLocked(key: StreamKey, t: Transfer) returns (w: Option<Write>)
      requires Valid() && key in open
      modifies this`stats, this`state, open[key]
      ensures Valid() && (state, w) == PlaceAt(old(state), old(state).open[key], t)
    {
      hide Follower.View, PlaceIn, WriteOf, Offers, CountFollowed, Recount, WellFormed;
      var found := open[key];
      w := PlaceLocked(found, t);
      state := PlaceAt(state, state.open[key], t).0;
    }

    method FollowPlaceLocked(t: Transfer, taking: Taking) returns (found: Follower, w: Option<Write>)
      requires Valid()
      modifies this`open, this`next, this`stats, this`all, this`state, all.Values
      ensures Valid() && (state, w) == FollowPlace(old(state), t, taking)
      ensures found.id in all && all[found.id] == found && (w.Some? ==> w.value.fragment.connection == found.id)
      ensures forall id :: id in old(all) ==> id in all && all[id] == old(all)[id]
      ensures forall id :: id in all && id !in old(all) ==> fresh(all[id])
    {
      hide Follower.View, Capture.Follow, PlaceAt, WellFormed;
      found := Follow(t, taking);
      w := PlaceFoundLocked(t.Key(), t);
    }

    /** Places one transfer in its stream; what it returns is for the sink, which is
        asked with the session unlocked. */
    method Offer(t: Transfer, taking: Taking) returns (found: Follower?, w: Option<Write>)
      requires Valid()
      modifies this`open, this`next, this`stats, this`all, this`state, all.Values
      ensures Valid() && (state, w) == Place(old(state), t, taking)
      ensures w.Some? ==>
                found != null && found.id in all && all[found.id] == found && w.value.fragment.connection == found.id
      ensures forall id :: id in old(all) ==> id in all && all[id] == old(all)[id]
      ensures forall id :: id in all && id !in old(all) ==> fresh(all[id])
    {
      hide Follower.View, FollowPlace, CountSeen, WellFormed, Place, Opens;
      PlaceShape(state, t, taking);
      if t.Key() in open { OpenAt(t.Key()); }
      if t.Key() in open && t.sequence.occupancy != 0 && t.sequence.occupancy < open[t.Key()].occupancy {
        stats := stats.(transfers := stats.transfers + 1, rejected := stats.rejected + 1);
        state := state.(stats := stats);
        return null, None;
      }
      SeenLocked(t);
      state := state.(stats := stats);
      if t.measured {
        if t.length == 0 && t.sequence.number == 0 {
          return null, None;
        }
      } else if !Moved(t) && !t.early {
        return null, None;
      }
      found, w := FollowPlaceLocked(t, taking);
    }

    /** A fragment's refusal, in the stream it was offered from. */
    method RefuseWriteLocked(found: Follower, f: Fragment, limit: bool)
      modifies this`stats, found
      ensures found.View() == RefuseWrite(old(found.View()), f, limit)
      ensures stats == Recount(old(stats), old(found.View()), found.View())
    {
      hide CutLane, Recount, LaneCounted;
      if limit && found.loss == NotStopped {
        found.loss := IntakeExhausted;
      }
      ghost var l := found.LaneOf(f.direction);
      CutLocked(found, f.direction, f.offset, ObservationLost, 0, IntakeRefusedFragment);
      CutLaneCounted(old(stats), l, f.offset, ObservationLost, IntakeRefusedFragment);
      LaneCountedIs(old(stats), old(found.View()), found.View(), f.direction);
    }

    /** The sink's answer to one fragment, its stream ended meanwhile or not. */
    method Answered(found: Follower, w: Write, answer: Answer)
      requires Valid() && found.id == w.fragment.connection && found.id in all && all[found.id] == found
      modifies this`stats, this`state, found
      ensures Valid() && state == Settle(old(state), w, answer)
    {
      hide Valid, Settle;
      if answer.Accepted? {
        AcceptedLocked(w);
      } else {
        RefusedFragmentLocked(found, w, answer);
      }
    }

    method AcceptedLocked(w: Write)
      requires Valid() && w.fragment.connection in all
      modifies this`stats, this`state
      ensures Valid() && state == Settle(old(state), w, Accepted)
    {
      hide Follower.View, WellFormed;
      stats, state := stats.(records := stats.records + 1), Settle(state, w, Accepted);
    }

    method RefusedFragmentLocked(found: Follower, w: Write, answer: Answer)
      requires Valid() && found.id == w.fragment.connection && found.id in all && all[found.id] == found
      requires !answer.Accepted?
      modifies this`stats, this`state, found
      ensures Valid() && state == Settle(old(state), w, answer)
    {
      hide Follower.View, RefuseWrite, Recount, WellFormed;
      var limited := if answer.RefusedAtLimit? then 1 else 0;
      stats := stats.(rejected := stats.rejected + 1, intakeRefused := stats.intakeRefused + limited);
      RefuseWriteLocked(found, w.fragment, answer.RefusedAtLimit?);
      state := Settle(state, w, answer);
    }

    /** Places one transfer in its stream and hands the fragment on. */
    method Transfer(t: Transfer, answer: Answer, taking: Taking)
      requires Valid()
      modifies this`open, this`next, this`stats, this`all, this`state, all.Values
      ensures Valid() && state == TransferStep(old(state), t, answer, taking)
    {
      hide Follower.View, Place, Settle, WellFormed;
      var found, w := Offer(t, taking);
      if w.Some? {
        Answered(found, w.value, answer);
      }
    }

    /** The number of a transfer the delivery gate refused, taken as seen. */
    method RefuseLaneLocked(found: Follower, d: Direction, s: Sequence)
      modifies this`stats, found`offsets, found`placement, found`first, found`numbered, found`droppedBelow
      ensures found.LaneOf(d) == RefuseLane(old(found.LaneOf(d)), s)
      ensures found.LaneOf(Other(d)) == old(found.LaneOf(Other(d)))
      ensures stats == LaneCounted(old(stats), old(found.LaneOf(d)), found.LaneOf(d))
    {
      hide CutLane, LaneCounted;
      ghost var l := found.LaneOf(d);
      var at, last := Kept(found.offsets, d), Kept(found.numbered, d);
      CutLocked(found, d, at, ObservationLost, 0, GateRefusedTransfer);
      CutCounted(l, at, ObservationLost, 0, GateRefusedTransfer);
      found.Begin(d, s.number);
      ghost var l2 := found.LaneOf(d);
      CutCounted(l2, at, ObservationLost, 0, GateNumberedPast);
      if s.number > last + 1 {
        CutLocked(found, d, at, ObservationLost, 0, GateNumberedPast);
      }
      found.Take(d, s);
      FirstCutCounted(old(stats), l, found.LaneOf(d));
    }

    method RefuseLocked(found: Follower, t: Transfer)
      modifies this`stats, found
      ensures found.View() == RefuseIn(old(found.View()), t)
      ensures stats == Recount(old(stats), old(found.View()), found.View())
    {
      hide RefuseLane, Recount, LaneCounted, Follower.LaneOf;
      if found.loss == NotStopped {
        found.loss := InputLimit;
      }
      RefuseLaneLocked(found, t.direction, t.sequence);
      LaneCountedIs(old(stats), old(found.View()), found.View(), t.direction);
    }

    /** A transfer the delivery gate refused grows nothing but its stream's cut. */
    method Refused(t: Transfer)
      requires Valid()
      modifies this`stats, this`state, all.Values
      ensures Valid() && state == RefuseStep(old(state), t)
    {
      hide Follower.View, RefuseIn, RefuseStep, Recount, WellFormed, Opens;
      RefuseShape(state, t);
      stats := stats.(gateRefused := stats.gateRefused + 1);
      if t.Key() in open { OpenAt(t.Key()); }
      assert Refusable(state, t) <==>
             t.sequence.number != 0 && t.Key() in open && open[t.Key()].occupancy == t.sequence.occupancy;
      if t.sequence.number != 0 && t.Key() in open && open[t.Key()].occupancy == t.sequence.occupancy {
        RefuseLocked(open[t.Key()], t);
      }
      hide Refusable;
      state := RefuseStep(state, t);
    }

    /** A stream's tail at its observed ending. */
    method CloseLocked(found: Follower, e: Closing, taking: Taking)
      modifies this`stats, found
      ensures found.View() == CloseIn(old(found.View()), e)
      ensures var counted := Recount(CountUnlocated(old(stats), e.unlocated), old(found.View()), found.View());
              stats == CountUnrecorded(counted.(closed := counted.closed + 1), taking)
    {
      hide SettleTail, Recount, Follower.View, CountUnlocated;
      UnlocatedLocked(found, e.unlocated);
      NotedRecounts(stats, old(found.View()), found.View(), e.unlocated);
      SettleLocked(found, e.final, true);
      NotedRecounts(CountUnlocated(old(stats), e.unlocated), old(found.View()), found.View(), e.unlocated);
      stats := stats.(closed := stats.closed + 1);
      RecordLocked(taking);
    }

    /** The ending of the occupancy a stream follows. */
    method CloseFoundLocked(key: StreamKey, e: Closing, taking: Taking)
      requires Valid() && key in open && key == e.Key()
      requires e.occupancy == 0 || open[key].occupancy == 0 || e.occupancy == open[key].occupancy
      modifies this`open, this`stats, this`state, open[key]
      ensures Valid() && state == CloseStep(old(state), e, taking)
    {
      hide Follower.View, CloseIn, Recount, WellFormed, CloseStep, CountUnrecorded, CountUnlocated, Opens;
      OpenAt(key);
      CloseFoundShape(state, e, taking);
      CloseLocked(open[key], e, taking);
      OpensOneFewer(open, all, state.open, key);
      open, state := open - {key}, CloseStep(state, e, taking);
    }

    /** Ends this occupancy of a handle, so the handle can be reused without its
        stream continuing. */
    method Closed(e: Closing, taking: Taking)
      requires Valid()
      modifies this`open, this`stats, this`state, all.Values
      ensures Valid() && state == CloseStep(old(state), e, taking)
    {
      hide Valid, Retire, CloseStep, Closes;
      var key := e.Key();
      Known(key);
      CloseShape(state, e, taking);
      if key !in open || (e.occupancy != 0 && e.occupancy < open[key].occupancy) {
        UnmatchedLocked();
      } else if e.occupancy != 0 && open[key].occupancy != 0 && e.occupancy != open[key].occupancy {
        RetireLocked(key, e.at, taking);
        UnmatchedLocked();
      } else {
        CloseFoundLocked(key, e, taking);
      }
    }

    /** An ending of a handle this session followed nothing on. */
    method UnmatchedLocked()
      requires Valid()
      modifies this`stats, this`state
      ensures Valid() && state == CountUnmatched(old(state)) && open == old(open)
    {
      hide Follower.View, WellFormed;
      UnmatchedApart(state);
      stats := stats.(endingsUnmatched := stats.endingsUnmatched + 1);
      state := CountUnmatched(state);
    }

    lemma StateFormed()
      requires Valid()
      ensures WellFormed(state)
    {
    }

    /** The stream a handle opens is the one the state has under its number. */
    lemma OpenAt(key: StreamKey)
      requires Opens(open, all, state.open) && key in open
      ensures open[key].id == state.open[key] && open[key].id in all && all[open[key].id] == open[key]
    {
    }

    /** What a valid session holds of one handle. */
    lemma Known(key: StreamKey)
      requires Valid()
      ensures WellFormed(state) && (key in open <==> key in state.open)
      ensures key in open ==> open[key] in all.Values && open[key].occupancy == state.streams[state.open[key]].occupancy
    {
    }

    /** Settles a stream still open when production stopped, against the one producer
        holding its occupancy. */
    method FinalLocked(found: Follower, asked: seq<Settling>, taking: Taking)
      modifies this`stats, found
      ensures found.View() == FinishIn(old(found.View()), asked)
      ensures stats == FinishCounted(old(stats), old(found.View()), found.View(), asked, taking)
    {
      hide SettleTail, Recount, Follower.View, CountUnlocated, CutBoth, VerdictOf, CountUnrecorded;
      ghost var s := found.View();
      Unmoved(old(stats), s);
      if found.occupancy != 0 {
        var v := Judge(asked, found.occupancy);
        match v {
          case Unsettled(why) =>
            CutBothLocked(found, TerminalUnsettled, why);
            BothCounted(s, TerminalUnsettled, why);
            CutsCountedIs(old(stats), s, found.View());
          case Settled(unlocated, final) =>
            UnlocatedLocked(found, unlocated);
            SettleLocked(found, final, false);
            NotedRecounts(CountUnlocated(old(stats), unlocated), s, found.View(), unlocated);
        }
      }
      RecordLocked(taking);
    }

    method FinishFoundLocked(key: StreamKey, asked: seq<Settling>, at: Time, taking: Taking)
      requires Valid() && key in open
      modifies this`open, this`stats, this`state, open[key]
      ensures Valid() && state == FinishStep(old(state), key, asked, at, taking) && open == old(open) - {key}
    {
      hide Follower.View, FinishIn, WellFormed, FinishStep, FinishCounted, Opens;
      FinishShape(state, key, asked, at, taking);
      OpenAt(key);
      FinalLocked(open[key], asked, taking);
      OpensOneFewer(open, all, state.open, key);
      open, state := open - {key}, FinishStep(state, key, asked, at, taking);
    }

    /** Records every connection still open, in some order. */
    method Finish(asked: StreamKey -> seq<Settling>, at: Time, taking: Taking) returns (ghost order: seq<StreamKey>)
      requires Valid()
      modifies this`open, this`stats, this`state, all.Values
      ensures Valid() && open == map[] && state == FinishAll(old(state), order, asked, at, taking)
      ensures forall k :: k in order <==> k in old(open)
      ensures forall i, j :: 0 <= i < j < |order| ==> order[i] != order[j]
    {
      hide Valid, FinishAll, WellFormed, DrawnOut;
      StateFormed();
      order := [];
      NoneDrawn(state, open.Keys, asked, at, taking);
      while open != map[]
        invariant Valid() && all == old(all)
        invariant WellFormed(old(state)) && state == FinishAll(old(state), order, asked, at, taking)
        invariant DrawnOut(order, old(open).Keys, open.Keys)
        decreases |open|
      {
        var key :| key in open;
        Known(key);
        ghost var left := open.Keys;
        FinishFoundLocked(key, asked(key), at, taking);
        assert open.Keys == left - {key};
        OneMoreDrawn(old(state), order, old(open).Keys, left, key, asked, at, taking);
        order := order + [key];
      }
      AllDrawn(order, old(open).Keys);
    }
  }

  /** Asks every producer in turn: an answer that is an error, or a second holder,
      leaves the tail unsettled whatever the rest would say. */
  method Judge(asked: seq<Settling>, occupancy: nat) returns (v: Verdict)
    ensures v == VerdictOf(asked, occupancy)
  {
    var holder: Option<Settling> := None;
    for i := 0 to |asked|
      invariant holder.Some? ==> holder.value.Holding?
      invariant VerdictOf(asked, occupancy) == FirstTrouble(asked, i, holder, occupancy)
    {
      if asked[i].Unreadable? {
        return Unsettled(OccupanciesUnreadable);
      }
      if asked[i].occupancy != 0 {
        if holder.Some? {
          return Unsettled(TwoHolders);
        }
        holder := Some(asked[i]);
      }
    }
    if holder.None? {
      return Unsettled(NoHolder);
    }
    v := OfHolder(holder.value, occupancy);
  }

  /** One producer alone holds the handle, and every one could be read. */
  ghost predicate SoleHolder(asked: seq<Settling>, i: nat) {
    && i < |asked| && (forall j :: 0 <= j < |asked| ==> asked[j].Holding?)
    && asked[i].occupancy != 0 && (forall j :: 0 <= j < |asked| && j != i ==> asked[j].occupancy == 0)
  }

  /** A tail is settled exactly on the word of the one producer that holds the
      handle, in the occupancy the stream follows, its unlocated count readable. */
  lemma SettledExactly(asked: seq<Settling>, occupancy: nat)
    ensures VerdictOf(asked, occupancy).Settled? <==>
            exists i: nat :: SoleHolder(asked, i) && asked[i].occupancy == occupancy && asked[i].unlocated.Some?
    ensures forall i: nat :: SoleHolder(asked, i) && VerdictOf(asked, occupancy).Settled? ==>
              VerdictOf(asked, occupancy) == Settled(asked[i].unlocated.value, asked[i].final)
  {
    SettledFrom(asked, 0, occupancy);
  }

  lemma {:induction false} SettledFrom(asked: seq<Settling>, i: nat, occupancy: nat)
    requires i <= |asked| && forall j :: 0 <= j < i ==> asked[j].Holding? && asked[j].occupancy == 0
    ensures var v := FirstTrouble(asked, i, None, occupancy);
            && (v.Settled? <==>
                  exists k: nat :: SoleHolder(asked, k) && asked[k].occupancy == occupancy && asked[k].unlocated.Some?)
            && (forall k: nat :: SoleHolder(asked, k) && v.Settled? ==>
                  v == Settled(asked[k].unlocated.value, asked[k].final))
    decreases |asked| - i
  {
    if i < |asked| && asked[i].Holding? {
      if asked[i].occupancy == 0 {
        SettledFrom(asked, i + 1, occupancy);
      } else {
        HeldFrom(asked, i + 1, i, occupancy);
      }
    }
  }

  lemma {:induction false} HeldFrom(asked: seq<Settling>, i: nat, at: nat, occupancy: nat)
    requires at < i <= |asked| && asked[at].Holding? && asked[at].occupancy != 0
    requires forall j :: 0 <= j < i ==> asked[j].Holding? && (j != at ==> asked[j].occupancy == 0)
    ensures var v := FirstTrouble(asked, i, Some(asked[at]), occupancy);
            && (v.Settled? <==> SoleHolder(asked, at) && asked[at].occupancy == occupancy && asked[at].unlocated.Some?)
            && (v.Settled? ==> v == Settled(asked[at].unlocated.value, asked[at].final))
            && (forall k: nat :: SoleHolder(asked, k) ==> k == at)
    decreases |asked| - i
  {
    if i < |asked| && asked[i].Holding? && asked[i].occupancy == 0 {
      HeldFrom(asked, i + 1, at, occupancy);
    }
  }

  /** The records of the streams still open, made one after another. */
  function FinishAll(c: State, order: seq<StreamKey>, asked: StreamKey -> seq<Settling>, at: Time,
                     taking: Taking): (r: State)
    requires WellFormed(c)
    ensures WellFormed(r)
  {
    if order == [] then c
    else
      var key := order[|order| - 1];
      FinishStep(FinishAll(c, order[..|order| - 1], asked, at, taking), key, asked(key), at, taking)
  }

  /** That keys have been drawn from a set, each once, until some are left. */
  ghost predicate DrawnOut(order: seq<StreamKey>, from: set<StreamKey>, left: set<StreamKey>) {
    && left <= from
    && (forall k :: k in order <==> k in from && k !in left)
    && (forall i, j :: 0 <= i < j < |order| ==> order[i] != order[j])
  }

  lemma NoneDrawn(c: State, from: set<StreamKey>, asked: StreamKey -> seq<Settling>, at: Time, taking: Taking)
    requires WellFormed(c)
    ensures DrawnOut([], from, from) && FinishAll(c, [], asked, at, taking) == c
  {
  }

  lemma OneMoreDrawn(c: State, order: seq<StreamKey>, from: set<StreamKey>, left: set<StreamKey>, key: StreamKey,
                     asked: StreamKey -> seq<Settling>, at: Time, taking: Taking)
    requires WellFormed(c) && DrawnOut(order, from, left) && key in left
    ensures DrawnOut(order + [key], from, left - {key})
    ensures FinishAll(c, order + [key], asked, at, taking) ==
            FinishStep(FinishAll(c, order, asked, at, taking), key, asked(key), at, taking)
  {
    hide FinishStep, WellFormed;
    assert (order + [key])[..|order|] == order;
  }

  lemma AllDrawn(order: seq<StreamKey>, from: set<StreamKey>)
    requires DrawnOut(order, from, {})
    ensures forall k :: k in order <==> k in from
    ensures forall i, j :: 0 <= i < j < |order| ==> order[i] != order[j]
  {
  }

  /** The counters the record of an open stream moves. */
  function FinishCounted(was: Stats, s: Stream, r: Stream, asked: seq<Settling>, taking: Taking): Stats {
    var v := VerdictOf(asked, s.occupancy);
    CountUnrecorded(Recount(if s.occupancy != 0 && v.Settled? then CountUnlocated(was, v.unlocated) else was, s, r),
                    taking)
  }

  lemma Unmoved(was: Stats, s: Stream)
    ensures Recount(was, s, s) == was
  {
  }

  lemma FinishShape(c: State, key: StreamKey, asked: seq<Settling>, at: Time, taking: Taking)
    requires WellFormed(c) && key in c.open
    ensures var r, s := FinishStep(c, key, asked, at, taking), c.streams[c.open[key]];
            && r.open == c.open - {key} && r.streams == c.streams[c.open[key] := FinishIn(s, asked)]
            && r.next == c.next && r.observing == c.observing
            && r.stats == FinishCounted(c.stats, s, FinishIn(s, asked), asked, taking)
  {
    hide FinishIn, VerdictOf;
  }

  function FollowPlace(c: State, t: Transfer, taking: Taking): (State, Option<Write>)
    requires WellFormed(c)
  {
    var r := Capture.Follow(c, t, taking);
    PlaceAt(r, r.open[t.Key()], t)
  }

  lemma PlaceShape(c: State, t: Transfer, taking: Taking)
    requires WellFormed(c)
    ensures forall stats :: WellFormed(c.(stats := stats))
    ensures Place(c, t, taking) ==
            if Obsolete(c, t) then
              (c.(stats := c.stats.(transfers := c.stats.transfers + 1, rejected := c.stats.rejected + 1)), None)
            else if Placeless(t) then (c.(stats := CountSeen(c.stats, t)), None)
            else FollowPlace(c.(stats := CountSeen(c.stats, t)), t, taking)
  {
    hide Capture.Follow, PlaceAt, CountSeen;
  }

  /** A lane once an overlap and its first number have been noted. */
  function Overlapped(l: Lane, at: nat, overlapped: bool, number: nat): Lane {
    var m := if overlapped then CutLane(l, at, OperationsOverlapped, 0, CallsOverlapped) else l;
    if m.first == 0 then m.(first := number) else m
  }

  /** The parts of reading a number, put together. */
  lemma NumberedLane(l: Lane, l2: Lane, s: Sequence)
    requires l2 == Overlapped(l, l.offset, s.overlapped, s.number)
    ensures var l3 := Gapped(l2, l.offset, l.numbered, s.number);
            NumberLane(l, s) ==
              if s.number > l3.numbered then l3.(numbered := s.number, droppedBelow := s.dropped) else l3
  {
    hide CutLane;
    CutCounted(l, l.offset, OperationsOverlapped, 0, CallsOverlapped);
    CutCounted(l2, l.offset, ObservationLost, Missing(l, s.number), Whole);
    CutCounted(l2, l.offset, OperationsOverlapped, 0, ArrivedBehind);
  }

  lemma CountedOnward(was: Stats, l: Lane, l2: Lane, m: Lane, s: Sequence)
    requires m.cut == Gapped(l2, l.offset, l.numbered, s.number).cut
    ensures LaneCounted(LaneCounted(was, l, l2), l2, Gapped(l2, l.offset, l.numbered, s.number)) ==
              LaneCounted(was, l, m)
  {
    hide Gapped;
  }

  /** A lane once a number has been compared with the last seen. */
  function Gapped(l: Lane, at: nat, last: nat, number: nat): Lane {
    if number == last + 1 then l
    else if number > last + 1 then CutLane(l, at, ObservationLost, number - last - 1, Whole)
    else CutLane(l, at, OperationsOverlapped, 0, ArrivedBehind)
  }

  function CutOf(l: Lane): nat { if l.cut.Some? then 1 else 0 }

  /** The counters once one lane has changed. */
  function LaneCounted(was: Stats, l: Lane, m: Lane): Stats {
    was.(cut := was.cut + CutOf(m) - CutOf(l), lost := was.lost + m.Lost() - l.Lost())
  }

  method MoreOf(was: Option<Cut>, from: nat, because: Reason, lost: nat, why: Why) returns (held: Cut)
    ensures held == CutWith(was, from, because, lost, why)
  {
    held := Cut(from, because, 0, Whole);
    if was.Some? {
      held := was.value;
    }
    if why != Whole && held.uncounted == Whole {
      held := held.(uncounted := why);
    }
    held := held.(lost := held.lost + lost);
  }

  lemma CutCounted(l: Lane, from: nat, because: Reason, lost: nat, why: Why)
    ensures var m := CutLane(l, from, because, lost, why);
            && m.cut.Some? && m.Lost() == l.Lost() + lost
            && m.numbered == l.numbered && m.first == l.first && m.droppedBelow == l.droppedBelow
            && m.offset == l.offset
  {
  }

  /** The counters once one stream's cuts have changed, its losses apart. */
  function CutsCounted(was: Stats, before: Stream, after: Stream): Stats {
    was.(cut := was.cut + Cuts(after) - Cuts(before))
  }

  lemma CutsCountedIs(was: Stats, before: Stream, after: Stream)
    requires LostIn(after) == LostIn(before)
    ensures CutsCounted(was, before, after) == Recount(was, before, after)
  {
  }

  lemma RetireShape(c: State, key: StreamKey, at: Time, taking: Taking)
    requires WellFormed(c) && key in c.open
    ensures var s := c.streams[c.open[key]];
            var r := RetireIn(s);
            var counted := Recount(c.stats, s, r);
            && Retire(c, key, at, taking) ==
               c.(streams := c.streams[s.id := r], open := c.open - {key},
                  ended := c.ended + [Ended(r, EndingUnobserved, at)],
                  stats := CountUnrecorded(counted.(retired := counted.retired + 1), taking))
  {
    hide RetireIn;
  }

  lemma BeginShape(c: State, t: Transfer)
    requires WellFormed(c) && t.Key() !in c.open
    ensures var r, s := BeginStream(c, t), FreshStream(c.observing, c.next + 1, t);
            && s.id == c.next + 1 && r.observing == c.observing && r.next == c.next + 1
            && r.streams == c.streams[c.next + 1 := s] && r.open == c.open[t.Key() := c.next + 1]
            && r.stats == c.stats.(
                 connections := c.stats.connections + 1, cut := c.stats.cut + Cuts(s),
                 unattributed := c.stats.unattributed + if t.instance.key.Valid() then 0 else 1)
  {
    CaptureEffects.FreshNamed(c.observing, c.next + 1, t);
    hide FreshStream, Cuts;
  }

  lemma NextUnused(c: State)
    requires WellFormed(c)
    ensures c.next + 1 !in c.streams
  {
  }

  /** A fresh stream is cut where a loss nothing located fell before it. */
  lemma FreshCut(observing: Observing, id: nat, t: Transfer)
    ensures var s := FreshStream(observing, id, t);
            var bare := s.(lanes := Both(FreshLane, FreshLane));
            && Cuts(bare) == 0
            && s == if t.sequence.beginUnlocated > 0 && t.sequence.occupancy != 0 && !t.sequence.born
                    then CutBoth(bare, ObservationLost, LostBeforeItBegan) else bare
  {
  }

  lemma BothCounted(s: Stream, because: Reason, why: Why)
    ensures LostIn(CutBoth(s, because, why)) == LostIn(s)
  {
  }

  lemma NotedCounts(s: Stream, unlocated: nat)
    ensures LostIn(NoteUnlocated(s, unlocated)) == LostIn(s) && Cuts(NoteUnlocated(s, unlocated)) == Cuts(s)
  {
  }

  /** The counters a stream's change moves depend on its cuts alone. */
  lemma RecountSame(was: Stats, s: Stream, n: Stream, r: Stream)
    requires r.lanes.sent.cut == n.lanes.sent.cut && r.lanes.received.cut == n.lanes.received.cut
    ensures Recount(was, s, r) == Recount(was, s, n)
  {
  }

  lemma FollowedCounts(was: Stats, s: Stream, t: Transfer)
    requires t.measured || Moved(t)
    requires t.measured && t.length != 0 ==> s.loss == NotStopped
    ensures CountFollowed(was, s, t) ==
            CountUnlocated(was, t.sequence.unlocated).(
              unsequenced := was.unsequenced + if t.sequence.occupancy == 0 then 1 else 0)
  {
  }

  lemma EarlyCounts(was: Stats, s: Stream, s1: Stream, t: Transfer)
    requires s1 == s.(earlySeen := s1.earlySeen) && !t.measured
    ensures Moved(t) ==>
              CountFollowed(was, s, t) == CountUnlocated(was, t.sequence.unlocated).(
                unsequenced := was.unsequenced + if t.sequence.occupancy == 0 then 1 else 0)
    ensures !Moved(t) ==> CountFollowed(was, s, t) == was
    ensures forall x, r :: Recount(x, s1, r) == Recount(x, s, r)
    ensures forall x :: Recount(x, s, s1) == x
  {
  }

  lemma NumberKeeps(s: Stream, t: Transfer)
    ensures var n := Capture.Number(s, t);
            n.loss == s.loss && n.sequence == s.sequence && n.early == s.early && n.id == s.id
  {
  }

  lemma AdvanceKeepsCut(l: Lane, t: Transfer, next: bool)
    ensures Capture.Advance(l, t, next).cut == l.cut
  {
  }

  lemma StoppedCounts(was: Stats, s: Stream, n: Stream, t: Transfer)
    requires t.measured && t.length != 0 && s.loss != NotStopped
    ensures var numbered := CountUnlocated(was, t.sequence.unlocated).(
              unsequenced := was.unsequenced + if t.sequence.occupancy == 0 then 1 else 0);
            Recount(CountFollowed(was, s, t), s, n) ==
            Recount(numbered, s, n).(rejected := Recount(numbered, s, n).rejected + 1)
  {
  }

  lemma CutHereCounts(was: Stats, s: Stream, n: Stream, d: Direction, because: Reason)
    ensures var r := CutHere(n, d, because, Whole);
            var now := Recount(was, s, n);
            Recount(was, s, r) == now.(cut := now.cut + if n.lanes.Of(d).cut.Some? then 0 else 1)
  {
  }

  lemma CutLaneCounted(was: Stats, l: Lane, from: nat, because: Reason, why: Why)
    ensures LaneCounted(was, l, CutLane(l, from, because, 0, why)) ==
              was.(cut := was.cut + if l.cut.Some? then 0 else 1)
  {
  }

  lemma FirstCutCounted(was: Stats, l: Lane, m: Lane)
    requires m.cut.Some? && m.Lost() == l.Lost()
    ensures LaneCounted(was, l, m) == was.(cut := was.cut + if l.cut.Some? then 0 else 1)
  {
  }

  lemma RefuseShape(c: State, t: Transfer)
    requires WellFormed(c)
    ensures var r := RefuseStep(c, t);
            var counted := c.stats.(gateRefused := c.stats.gateRefused + 1);
            && r.open == c.open && r.next == c.next && r.observing == c.observing
            && (Refusable(c, t) ==>
                  var s := c.streams[c.open[t.Key()]];
                  r.streams == c.streams[s.id := RefuseIn(s, t)] && r.stats == Recount(counted, s, RefuseIn(s, t)))
            && (!Refusable(c, t) ==> r.streams == c.streams && r.stats == counted)
  {
    hide RefuseIn;
  }

  lemma NotedRecounts(was: Stats, s: Stream, r: Stream, unlocated: nat)
    ensures Recount(was, NoteUnlocated(s, unlocated), r) == Recount(was, s, r)
  {
  }

  lemma CloseShape(c: State, e: Closing, taking: Taking)
    requires WellFormed(c)
    ensures var r, key := CloseStep(c, e, taking), e.Key();
            && (key !in c.open || (e.occupancy != 0 && e.occupancy < c.streams[c.open[key]].occupancy) ==>
                  r == CountUnmatched(c))
            && (key in c.open ==>
                  var s := c.streams[c.open[key]];
                  && (e.occupancy != 0 && s.occupancy < e.occupancy && s.occupancy != 0 ==>
                        r == CountUnmatched(Retire(c, key, e.at, taking)))
                  && (e.occupancy == 0 || s.occupancy == 0 || e.occupancy == s.occupancy ==>
                        Closes(c, r, key, s, e, taking)))
  {
    hide CloseIn, Retire;
  }

  lemma CloseFoundShape(c: State, e: Closing, taking: Taking)
    requires WellFormed(c) && e.Key() in c.open
    requires var s := c.streams[c.open[e.Key()]]; e.occupancy == 0 || s.occupancy == 0 || e.occupancy == s.occupancy
    ensures Closes(c, CloseStep(c, e, taking), e.Key(), c.streams[c.open[e.Key()]], e, taking)
  {
    hide Closes, CloseStep, CountUnmatched, Retire;
    CloseShape(c, e, taking);
  }

  /** What an observed ending leaves. */
  ghost predicate Closes(c: State, r: State, key: StreamKey, s: Stream, e: Closing, taking: Taking)
    requires key in c.open
  {
    var counted := Recount(CountUnlocated(c.stats, e.unlocated), s, CloseIn(s, e));
    && r.open == c.open - {key} && r.streams == c.streams[c.open[key] := CloseIn(s, e)]
    && r.next == c.next && r.observing == c.observing
    && r.stats == CountUnrecorded(counted.(closed := counted.closed + 1), taking)
  }

  lemma UnmatchedApart(c: State)
    requires WellFormed(c)
    ensures WellFormed(CountUnmatched(c))
  {
  }

  lemma LaneCountedIs(was: Stats, before: Stream, after: Stream, d: Direction)
    requires after.lanes.Of(Other(d)) == before.lanes.Of(Other(d))
    ensures Recount(was, before, after) == LaneCounted(was, before.lanes.Of(d), after.lanes.Of(d))
  {
  }
}
