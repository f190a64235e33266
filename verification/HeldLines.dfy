/** The tail of a direction left held: a call that never returned keeps it, and
    the settlement's allowance for a call in flight then hides a later loss. */
module HeldLines {
  import opened Values
  import opened Probe
  import opened Producer
  import opened Numbering
  import opened TailLoss
  import Capture

  // Calls as the steps they take; a step that does not apply is not taken.

  function MakeAll(w: World, steps: seq<Step>): World {
    if steps == [] then w else Make(MakeAll(w, steps[..|steps| - 1]), steps[|steps| - 1])
  }

  lemma {:induction false} MadeOn(w: World, first: seq<Step>, more: seq<Step>)
    ensures MakeAll(w, first + more) == MakeAll(MakeAll(w, first), more)
  {
    if more == [] {
      assert first + more == first;
    } else {
      var all, fewer := first + more, more[..|more| - 1];
      assert all[..|all| - 1] == first + fewer;
      MadeOn(w, first, fewer);
    }
  }

  lemma {:induction false} ProducedIs(steps: seq<Step>)
    ensures Produced(steps) == MakeAll(Quiet, steps)
  {
    if steps != [] { ProducedIs(steps[..|steps| - 1]); }
  }

  function Entry(t: Thread, key: StreamKey, d: Direction): seq<Step> {
    [Enter(t, key, d, true), Hold(t), Mark(t), Take(t), Record(t, true)]
  }

  /** A call whose return never fires. */
  function Vanishing(t: Thread, key: StreamKey, d: Direction): seq<Step> { Entry(t, key, d) + [Vanish(t)] }

  function Delivering(t: Thread, key: StreamKey, d: Direction, bytes: nat, carried: Transfer): seq<Step> {
    Entry(t, key, d) + [Return(t, bytes, true), Emit(t, true, carried), Unhold(t)]
  }

  function Refusing(t: Thread, key: StreamKey, d: Direction, bytes: nat, carried: Transfer): seq<Step> {
    Entry(t, key, d) + [Return(t, bytes, true), Emit(t, false, carried), ReadDrops(t), WriteDrops(t), Unhold(t)]
  }

  lemma Five(w: World, s: seq<Step>)
    requires |s| == 5
    ensures MakeAll(w, s) == Make(Make(Make(Make(Make(w, s[0]), s[1]), s[2]), s[3]), s[4])
  {
    hide Make;
    Shorter(w, s, 4);
    Shorter(w, s, 3);
    Shorter(w, s, 2);
    Shorter(w, s, 1);
    Shorter(w, s, 0);
    assert s[..5] == s;
  }

  lemma Shorter(w: World, s: seq<Step>, k: nat)
    requires k < |s|
    ensures MakeAll(w, s[..k + 1]) == Make(MakeAll(w, s[..k]), s[k]) && MakeAll(w, s[..0]) == w
  {
    hide Make;
    assert s[..k + 1][..k] == s[..k];
  }

  /** What a call leaves of the world besides its line, its thread and its event. */
  ghost predicate Apart(w: World, r: World, t: Thread) {
    r.table == w.table && r.occupancies == w.occupancies && forall u :: u != t ==> PhaseOf(r, u) == PhaseOf(w, u)
  }

  /** A line held by a call, or marked by it where it was another's. */
  function HeldOrMarked(l: Line, t: Thread): Line {
    if HoldIn(l, t).busy == t then HoldIn(l, t) else MarkIn(HoldIn(l, t))
  }

  predicate HeldByAnother(l: Line, t: Thread) { l.busy != 0 && l.busy != t }

  lemma Entered(w: World, t: Thread, key: StreamKey, d: Direction)
    requires PhaseOf(w, t).Outside? && Occupied(w, key) != 0
    ensures var at := At(Occupied(w, key), d);
            var r := MakeAll(w, Entry(t, key, d));
            var l := TakeIn(HeldOrMarked(LineOf(w, at), t));
            && PhaseOf(r, t) == InCall(key, at, l.taken)
            && LineOf(r, at) == (if l.busy == t then l.(held := l.taken) else l)
            && Apart(w, r, t) && r.submitted == w.submitted
  {
    hide MakeAll, Make, HeldOrMarked, TakeIn;
    Five(w, Entry(t, key, d));
    MarkedFirst(w, t, key, d);
    TakenNext(Make(Make(Make(w, Enter(t, key, d, true)), Hold(t)), Mark(t)), t);
  }

  lemma EnteredFirst(w: World, t: Thread, key: StreamKey, d: Direction)
    requires PhaseOf(w, t).Outside? && Occupied(w, key) != 0
    ensures var at := At(Occupied(w, key), d);
            var r := Make(w, Enter(t, key, d, true));
            && PhaseOf(r, t) == Entering(key, at) && LineOf(r, at) == LineOf(w, at) && Apart(w, r, t)
            && r.submitted == w.submitted
  {
    hide Occupied;
  }

  lemma MarkedFirst(w: World, t: Thread, key: StreamKey, d: Direction)
    requires PhaseOf(w, t).Outside? && Occupied(w, key) != 0
    ensures var at := At(Occupied(w, key), d);
            var r := Make(Make(Make(w, Enter(t, key, d, true)), Hold(t)), Mark(t));
            && PhaseOf(r, t) == Held(key, at) && LineOf(r, at) == HeldOrMarked(LineOf(w, at), t)
            && Apart(w, r, t) && r.submitted == w.submitted
  {
    EnteredFirst(w, t, key, d);
    HeldThen(Make(w, Enter(t, key, d, true)), t, key, At(Occupied(w, key), d));
    hide Make, Occupied, HeldOrMarked;
  }

  lemma HeldNow(w: World, t: Thread, key: StreamKey, at: At)
    requires PhaseOf(w, t) == Entering(key, at)
    ensures var r, l := Make(w, Hold(t)), HoldIn(LineOf(w, at), t);
            && PhaseOf(r, t) == (if l.busy == t then Held(key, at) else Contending(key, at)) && LineOf(r, at) == l
            && Apart(w, r, t) && r.submitted == w.submitted
  {
    hide HoldIn;
  }

  lemma MarkedNow(w: World, t: Thread, key: StreamKey, at: At)
    requires PhaseOf(w, t) == Contending(key, at)
    ensures var r := Make(w, Mark(t));
            && PhaseOf(r, t) == Held(key, at) && LineOf(r, at) == MarkIn(LineOf(w, at))
            && Apart(w, r, t) && r.submitted == w.submitted
  {
    hide MarkIn;
  }

  lemma HeldThen(w: World, t: Thread, key: StreamKey, at: At)
    requires PhaseOf(w, t) == Entering(key, at)
    ensures var r := Make(Make(w, Hold(t)), Mark(t));
            && PhaseOf(r, t) == Held(key, at) && LineOf(r, at) == HeldOrMarked(LineOf(w, at), t)
            && Apart(w, r, t) && r.submitted == w.submitted
  {
    HeldNow(w, t, key, at);
    var r := Make(w, Hold(t));
    if PhaseOf(r, t).Contending? {
      MarkedNow(r, t, key, at);
      hide Make;
    }
    hide HoldIn, MarkIn, PhaseOf, LineOf;
  }

  lemma TakenNext(w: World, t: Thread)
    requires PhaseOf(w, t).Held?
    ensures var p := PhaseOf(w, t);
            var r := Make(Make(w, Take(t)), Record(t, true));
            var l := TakeIn(LineOf(w, p.at));
            && PhaseOf(r, t) == InCall(p.key, p.at, l.taken)
            && LineOf(r, p.at) == (if l.busy == t then l.(held := l.taken) else l)
            && Apart(w, r, t) && r.submitted == w.submitted
  {
    hide TakeIn;
  }

  lemma Returned(w: World, t: Thread, bytes: nat, reserved: bool, carried: Transfer)
    requires PhaseOf(w, t).InCall? && StillHeld(w, PhaseOf(w, t).at.occupancy) && PhaseOf(w, t).at.occupancy != 0
    ensures var p := PhaseOf(w, t);
            var r := Make(Make(w, Return(t, bytes, true)), Emit(t, reserved, carried));
            var l := LineOf(w, p.at).(moved := LineOf(w, p.at).moved[p.number := bytes]);
            && Apart(w, r, t)
            && (!reserved ==>
                  && PhaseOf(r, t) == Dropping(p.at, p.number, false) && r.submitted == w.submitted
                  && LineOf(r, p.at) == l.(refused := l.refused + {p.number}, owing := l.owing + {t}))
            && (reserved ==>
                  && PhaseOf(r, t) == Releasing(p.at, false) && LineOf(r, p.at) == l
                  && |r.submitted| == |w.submitted| + 1 && r.submitted[..|w.submitted|] == w.submitted
                  && EventPlace(r.submitted[|w.submitted|].transfer) == p.at
                  && r.submitted[|w.submitted|].transfer.sequence.number == p.number
                  && r.submitted[|w.submitted|].transfer.sequence.dropped == l.dropped)
  {
    hide StillHeld;
  }

  lemma ReadNow(w: World, t: Thread)
    requires PhaseOf(w, t).Dropping? && PhaseOf(w, t).at.occupancy != 0
    ensures var p, r := PhaseOf(w, t), Make(w, ReadDrops(t));
            && PhaseOf(r, t) == Counting(p.at, p.number, LineOf(w, p.at).dropped, p.deferred)
            && LineOf(r, p.at) == LineOf(w, p.at) && Apart(w, r, t) && r.submitted == w.submitted
  {
  }

  lemma WrittenNow(w: World, t: Thread)
    requires PhaseOf(w, t).Counting?
    ensures var p, r := PhaseOf(w, t), Make(Make(w, WriteDrops(t)), Unhold(t));
            && LineOf(r, p.at) == UnholdIn(CountIn(LineOf(w, p.at), t, p.read), t)
            && PhaseOf(r, t).Outside? && Apart(w, r, t) && r.submitted == w.submitted
  {
    hide UnholdIn, CountIn;
  }

  lemma Counted(w: World, t: Thread)
    requires PhaseOf(w, t).Dropping? && PhaseOf(w, t).at.occupancy != 0
    ensures var at := PhaseOf(w, t).at;
            var r := Make(Make(Make(w, ReadDrops(t)), WriteDrops(t)), Unhold(t));
            var l := LineOf(w, at);
            && LineOf(r, at) == UnholdIn(CountIn(l, t, l.dropped), t)
            && PhaseOf(r, t).Outside? && Apart(w, r, t) && r.submitted == w.submitted
  {
    ReadNow(w, t);
    WrittenNow(Make(w, ReadDrops(t)), t);
    hide Make, UnholdIn, CountIn, LineOf, PhaseOf;
  }

  lemma Released(w: World, t: Thread)
    requires PhaseOf(w, t).Releasing?
    ensures var at := PhaseOf(w, t).at;
            var r := Make(w, Unhold(t));
            && LineOf(r, at) == UnholdIn(LineOf(w, at), t)
            && PhaseOf(r, t).Outside? && Apart(w, r, t) && r.submitted == w.submitted
  {
  }

  lemma HandleKept(w: World, r: World, t: Thread, key: StreamKey)
    requires Apart(w, r, t) && Occupied(w, key) != 0
    ensures Occupied(r, key) == Occupied(w, key) && StillHeld(r, Occupied(w, key))
  {
  }

  /** A call delivered in a direction another holds: one more number, its event on
      the ring, and the holder's mark as it was. */
  lemma DeliveredBeside(w: World, t: Thread, key: StreamKey, d: Direction, bytes: nat, carried: Transfer)
    requires PhaseOf(w, t).Outside? && Occupied(w, key) != 0
    requires HeldByAnother(LineOf(w, At(Occupied(w, key), d)), t)
    ensures var at := At(Occupied(w, key), d);
            var r := MakeAll(w, Delivering(t, key, d, bytes, carried));
            var l, m := LineOf(w, at), LineOf(r, at);
            && PhaseOf(r, t).Outside? && Apart(w, r, t)
            && m.taken == l.taken + 1 && m.busy == l.busy && m.dropped == l.dropped && m.refused == l.refused
            && m.overlapped
            && LastSaw(r, at, m.taken, l.dropped)
  {
    hide Make, LineOf, PhaseOf, Occupied, StillHeld;
    var e := MakeAll(w, Entry(t, key, d));
    Entered(w, t, key, d);
    HandleKept(w, e, t, key);
    Returned(e, t, bytes, true, carried);
    var b := Make(Make(e, Return(t, bytes, true)), Emit(t, true, carried));
    Released(b, t);
    MadeOn(w, Entry(t, key, d), [Return(t, bytes, true), Emit(t, true, carried), Unhold(t)]);
    Three(e, [Return(t, bytes, true), Emit(t, true, carried), Unhold(t)]);
    var r := Make(b, Unhold(t));
    assert r.submitted[|w.submitted|] in r.submitted;
  }

  lemma Three(w: World, s: seq<Step>)
    requires |s| == 3
    ensures MakeAll(w, s) == Make(Make(Make(w, s[0]), s[1]), s[2])
  {
    hide Make;
    Shorter(w, s, 2);
    Shorter(w, s, 1);
    Shorter(w, s, 0);
    assert s[..3] == s;
  }

  /** A call refused there: its number is above everything seen. */
  lemma RefusedBeside(w: World, t: Thread, key: StreamKey, d: Direction, bytes: nat, carried: Transfer)
    requires PhaseOf(w, t).Outside? && Occupied(w, key) != 0
    requires HeldByAnother(LineOf(w, At(Occupied(w, key), d)), t)
    ensures var at := At(Occupied(w, key), d);
            var r := MakeAll(w, Refusing(t, key, d, bytes, carried));
            var l, m := LineOf(w, at), LineOf(r, at);
            && PhaseOf(r, t).Outside? && Apart(w, r, t) && r.submitted == w.submitted
            && m.taken == l.taken + 1 && m.busy == l.busy && m.dropped == l.dropped + 1
            && m.refused == l.refused + {l.taken + 1} && m.overlapped
  {
    hide Make, LineOf, PhaseOf, Occupied, StillHeld;
    var e := MakeAll(w, Entry(t, key, d));
    Entered(w, t, key, d);
    HandleKept(w, e, t, key);
    Returned(e, t, bytes, false, carried);
    var rest := [Return(t, bytes, true), Emit(t, false, carried), ReadDrops(t), WriteDrops(t), Unhold(t)];
    Counted(Make(Make(e, rest[0]), rest[1]), t);
    MadeOn(w, Entry(t, key, d), rest);
    Five(e, rest);
  }

  lemma VanishedHolding(w: World, t: Thread, key: StreamKey, d: Direction)
    requires PhaseOf(w, t).Outside? && Occupied(w, key) != 0 && LineOf(w, At(Occupied(w, key), d)) == FreshLine
    ensures var at := At(Occupied(w, key), d);
            var r := MakeAll(w, Vanishing(t, key, d));
            && PhaseOf(r, t).Outside? && Apart(w, r, t)
            && LineOf(r, at) == FreshLine.(taken := 1, busy := t, held := 1)
  {
    var e := MakeAll(w, Entry(t, key, d));
    Entered(w, t, key, d);
    MadeOn(w, Entry(t, key, d), [Vanish(t)]);
    hide Entry;
    Shorter(e, [Vanish(t)], 0);
    assert [Vanish(t)][..1] == [Vanish(t)];
  }

  // The run.

  function HeldRun(key: StreamKey, d: Direction, bytes: nat, more: nat, carried: Transfer): seq<Step> {
    [Begin(key, true)] + Vanishing(1, key, d) + Delivering(2, key, d, bytes, carried)
      + Refusing(2, key, d, more, carried)
  }

  /** From nothing: a call vanishes holding its direction, another thread's call is
      delivered beside it and its next refused. Production has stopped, the counts
      tally, the last event was seen, and the one refusal above it is located as
      no loss, because the clamp leaves room for a call in flight. */
  lemma HeldHidesTail(key: StreamKey, d: Direction, bytes: nat, more: nat, carried: Transfer, lane: Capture.Lane)
    requires lane.numbered == 2 && lane.droppedBelow == 0
    ensures var w := Produced(HeldRun(key, d, bytes, more, carried));
            var at := At(1, d);
            var l := LineOf(w, at);
            && Stopped(w) && LastSaw(w, at, 2, 0) && Tallied(l, lane)
            && RefusedAbove(l, 2) == {3} && Capture.Located(lane, TerminalOf(l), false) == 0
            && ClampBites(lane, TerminalOf(l))
  {
    var b := MakeAll(Quiet, [Begin(key, true)]);
    var v, e, r := Vanishing(1, key, d), Delivering(2, key, d, bytes, carried), Refusing(2, key, d, more, carried);
    ProducedIs(HeldRun(key, d, bytes, more, carried));
    MadeOn(Quiet, [Begin(key, true)] + v + e, r);
    MadeOn(Quiet, [Begin(key, true)] + v, e);
    MadeOn(Quiet, [Begin(key, true)], v);
    Begun(key);
    hide Make, MakeAll, Occupied, LineOf, PhaseOf, Vanishing, Delivering, Refusing;
    VanishedHolding(b, 1, key, d);
    HandleKept(b, MakeAll(b, v), 1, key);
    var w1 := MakeAll(b, v);
    DeliveredBeside(w1, 2, key, d, bytes, carried);
    var w2 := MakeAll(w1, e);
    HandleKept(w1, w2, 2, key);
    RefusedBeside(w2, 2, key, d, more, carried);
    OneRefused(LineOf(w2, At(1, d)), LineOf(MakeAll(w2, r), At(1, d)), lane);
    SawStill(w2, MakeAll(w2, r), At(1, d));
  }

  lemma Begun(key: StreamKey)
    ensures var b := MakeAll(Quiet, [Begin(key, true)]);
            && Occupied(b, key) == 1 && (forall at :: LineOf(b, at) == FreshLine)
            && (forall t :: PhaseOf(b, t).Outside?)
  {
    Shorter(Quiet, [Begin(key, true)], 0);
    assert [Begin(key, true)][..1] == [Begin(key, true)];
  }

  lemma SawStill(w: World, r: World, at: At)
    requires LastSaw(w, at, 2, 0) && r.submitted == w.submitted
    ensures LastSaw(r, at, 2, 0)
  {
  }

  lemma OneRefused(l: Line, m: Line, lane: Capture.Lane)
    requires l.taken == 2 && l.busy != 0 && l.refused == {} && l.dropped == 0 && lane.numbered == 2
    requires lane.droppedBelow == 0
    requires m.refused == l.refused + {3} && m.taken == 3 && m.busy == l.busy && m.dropped == 1
    ensures RefusedAbove(m, 2) == {3} && Capture.Located(lane, TerminalOf(m), false) == 0
    ensures Tallied(m, lane) && ClampBites(lane, TerminalOf(m))
  {
    assert RefusedBelow(m, 2) == {};
  }
}
