/** Overlap detection: while a direction is unmarked at most one call holds it,
    a mark is for good, and what is submitted without it is in number order. */
module Overlap {
  import opened Values
  import opened Probe
  import opened Producer
  import opened Numbering

  /** A call entered under a grant that holds a direction, from the hold to the
      release. */
  predicate Holds(p: Phase) {
    match p
    case Held(_, _) => true
    case Numbered(_, _, _) => true
    case InCall(_, _, _) => true
    case Returning(r) => r.at.occupancy != 0 && !r.deferred
    case Dropping(_, _, deferred) => !deferred
    case Counting(_, _, _, deferred) => !deferred
    case Releasing(_, deferred) => !deferred
    case _ => false
  }

  /** A return that read its place with no mark and has not yet submitted. */
  predicate Waiting(p: Phase) {
    p.Returning? && p.reading.at.occupancy != 0 && !p.reading.deferred && !p.reading.overlapped
  }

  predicate Clear(x: Submission) {
    x.transfer.sequence.occupancy != 0 && !x.transfer.sequence.overlapped && !x.deferred
  }

  function NumberOf(p: Phase): nat {
    if Owes(p) then p.number else if p.Returning? then p.reading.number else 0
  }

  /** A call that may yet be submitted without the mark. */
  predicate Ahead(p: Phase, l: Line) { (Owes(p) && !l.overlapped) || Waiting(p) }

  predicate HeldBy(l: Line, t: Thread) { l.busy == t || l.overlapped }

  predicate Below(x: Submission, p: Phase) {
    Clear(x) && EventPlace(x.transfer) == PlaceOf(p) ==> x.transfer.sequence.number < NumberOf(p)
  }

  ghost predicate InOrder(xs: seq<Submission>) {
    forall i, j :: 0 <= i < j < |xs| ==> Before(xs[i], xs[j])
  }

  predicate Before(x: Submission, y: Submission) {
    Clear(x) && Clear(y) && EventPlace(x.transfer) == EventPlace(y.transfer) ==>
      x.transfer.sequence.number < y.transfer.sequence.number
  }

  ghost predicate Detects(w: World) {
    && Numbers(w)
    && (forall t :: Holds(PhaseOf(w, t)) ==> HeldBy(LineOf(w, PlaceOf(PhaseOf(w, t))), t))
    && (forall t, u :: t != u && Waiting(PhaseOf(w, t)) && Waiting(PhaseOf(w, u)) ==>
          PlaceOf(PhaseOf(w, t)) != PlaceOf(PhaseOf(w, u)))
    && (forall t, x :: x in w.submitted && Ahead(PhaseOf(w, t), LineOf(w, PlaceOf(PhaseOf(w, t)))) ==>
          Below(x, PhaseOf(w, t)))
    && InOrder(w.submitted)
  }

  /** The line a thread is at, once an effect is applied. */
  function LineAt(w: World, e: Effect, p: Phase): Line {
    if PlaceOf(p) == e.at then e.line else LineOf(w, PlaceOf(p))
  }

  /** What one step of a thread owes. */
  ghost predicate Marks(w: World, t: Thread, p: Phase, e: Effect) {
    var l := LineOf(w, e.at);
    && (l.overlapped ==> e.line.overlapped)
    && (l.busy != 0 && l.busy != t ==> e.line.busy == l.busy)
    && (Holds(e.phase) ==> HeldBy(LineAt(w, e, e.phase), t))
    && (Waiting(e.phase) && !Waiting(p) ==>
          Holds(p) && PlaceOf(p) == PlaceOf(e.phase) && !LineOf(w, PlaceOf(p)).overlapped)
    && (Waiting(e.phase) && Waiting(p) ==> PlaceOf(p) == PlaceOf(e.phase))
    && (Ahead(e.phase, LineAt(w, e, e.phase)) ==>
          || (Ahead(p, LineOf(w, PlaceOf(p))) && PlaceOf(p) == PlaceOf(e.phase) && NumberOf(p) == NumberOf(e.phase))
          || NumberOf(e.phase) > LineOf(w, PlaceOf(e.phase)).taken)
    && |e.submitted| <= 1
    && (e.submitted != [] ==> !Ahead(e.phase, LineAt(w, e, e.phase)))
    && (e.submitted != [] && Clear(e.submitted[0]) ==>
          && Waiting(p) && EventPlace(e.submitted[0].transfer) == PlaceOf(p)
          && e.submitted[0].transfer.sequence.number == NumberOf(p))
  }

  // The consequences of one step, one conjunct at a time.

  lemma HeldKept(w: World, t: Thread, e: Effect)
    requires Detects(w) && Marks(w, t, PhaseOf(w, t), e)
    ensures var r := Apply(w, t, e);
            forall u :: Holds(PhaseOf(r, u)) ==> HeldBy(LineOf(r, PlaceOf(PhaseOf(r, u))), u)
  {
    ApplyLines(w, t, e);
    hide Numbers, Apply, Ahead, Waiting, InOrder, Below;
  }

  lemma WaitingKept(w: World, t: Thread, e: Effect)
    requires Detects(w) && Marks(w, t, PhaseOf(w, t), e)
    ensures var r := Apply(w, t, e);
            forall u, v :: u != v && Waiting(PhaseOf(r, u)) && Waiting(PhaseOf(r, v)) ==>
              PlaceOf(PhaseOf(r, u)) != PlaceOf(PhaseOf(r, v))
  {
    ApplyLines(w, t, e);
    hide Numbers, Apply, Ahead, InOrder, Below;
    var r := Apply(w, t, e);
    forall v | v != t && Waiting(PhaseOf(r, t)) && Waiting(PhaseOf(r, v))
      ensures PlaceOf(PhaseOf(r, t)) != PlaceOf(PhaseOf(r, v))
    {
      assert Holds(PhaseOf(w, v)) && HeldBy(LineOf(w, PlaceOf(PhaseOf(w, v))), v);
      assert Holds(PhaseOf(w, t)) ==> HeldBy(LineOf(w, PlaceOf(PhaseOf(w, t))), t);
    }
  }

  /** The one holder of an unmarked line is the only call that may be submitted
      without the mark. */
  lemma AheadAlone(w: World, t: Thread, u: Thread)
    requires Detects(w) && t != u && Waiting(PhaseOf(w, t)) && PlaceOf(PhaseOf(w, u)) == PlaceOf(PhaseOf(w, t))
    ensures !Ahead(PhaseOf(w, u), LineOf(w, PlaceOf(PhaseOf(w, u))))
  {
    hide Numbers, InOrder, Below;
    assert Holds(PhaseOf(w, t)) && HeldBy(LineOf(w, PlaceOf(PhaseOf(w, t))), t);
    assert Holds(PhaseOf(w, u)) ==> HeldBy(LineOf(w, PlaceOf(PhaseOf(w, u))), u);
  }

  lemma AheadKept(w: World, t: Thread, e: Effect, u: Thread, x: Submission)
    requires Detects(w) && Marks(w, t, PhaseOf(w, t), e) && Fits(w, PhaseOf(w, t), e)
    requires var r := Apply(w, t, e); x in r.submitted && Ahead(PhaseOf(r, u), LineOf(r, PlaceOf(PhaseOf(r, u))))
    ensures Below(x, PhaseOf(Apply(w, t, e), u))
  {
    var r := Apply(w, t, e);
    ApplyLines(w, t, e);
    NumbersBound(w);
    hide Numbers, InOrder, Fits, Apply, LineOf, PhaseOf;
    var p := PhaseOf(w, u);
    if u == t {
      assert e.submitted == [] && x in w.submitted;
      assert Ahead(p, LineOf(w, PlaceOf(p))) ==> Below(x, p);
    } else {
      assert Ahead(p, LineOf(w, PlaceOf(p)));
      if x in w.submitted {
        assert Below(x, p);
      } else if Clear(x) && EventPlace(x.transfer) == PlaceOf(p) {
        AheadAlone(w, t, u);
      }
    }
  }

  /** No event's number is above the last one its line took. */
  lemma NumbersBound(w: World)
    requires Numbers(w)
    ensures forall x :: x in w.submitted && x.transfer.sequence.occupancy != 0 ==>
              x.transfer.sequence.number <= LineOf(w, EventPlace(x.transfer)).taken
  {
    forall x | x in w.submitted && x.transfer.sequence.occupancy != 0
      ensures x.transfer.sequence.number <= LineOf(w, EventPlace(x.transfer)).taken
    {
      assert EventOk(LineOf(w, EventPlace(x.transfer)), x.transfer) && LineOk(LineOf(w, EventPlace(x.transfer)));
    }
  }

  lemma OrderKept(w: World, t: Thread, e: Effect)
    requires Detects(w) && Marks(w, t, PhaseOf(w, t), e)
    ensures InOrder(Apply(w, t, e).submitted)
  {
    hide Numbers;
    var p := PhaseOf(w, t);
    if e.submitted != [] {
      var x := e.submitted[0];
      assert e.submitted == [x];
      forall i | 0 <= i < |w.submitted| ensures Before(w.submitted[i], x) {
        if Clear(x) {
          assert Waiting(p) && w.submitted[i] in w.submitted;
          assert Ahead(p, LineOf(w, PlaceOf(p)));
          assert Below(w.submitted[i], p);
        }
      }
    }
  }

  // Each kind of step owes it.

  ghost predicate Own(w: World, t: Thread, p: Phase) {
    ThreadOk(w, p) && (Holds(p) ==> HeldBy(LineOf(w, PlaceOf(p)), t))
  }

  lemma OwnHeld(w: World, t: Thread)
    requires Detects(w)
    ensures Own(w, t, PhaseOf(w, t))
  {
    OwnOk(w, t);
  }

  lemma EnterMarks(w: World, t: Thread, p: Phase, key: StreamKey, d: Direction, counted: bool)
    requires Own(w, t, p)
    ensures Marks(w, t, p, EnterEffect(w, key, d, counted))
  {
    hide Occupied, LineOf;
  }

  lemma LeaveMarks(w: World, t: Thread, p: Phase, d: Direction)
    requires Own(w, t, p)
    ensures Marks(w, t, p, Going(w, Outside)) && Marks(w, t, p, Going(w, Deferred(d)))
  {
    hide LineOf;
  }

  lemma HoldMarks(w: World, t: Thread, p: Phase)
    requires Own(w, t, p) && p.Entering?
    ensures Marks(w, t, p, HoldEffect(w, t, p.key, p.at))
  {
    hide LineOf;
  }

  lemma MarkMarks(w: World, t: Thread, p: Phase)
    requires Own(w, t, p) && p.Contending?
    ensures Marks(w, t, p, Changing(Held(p.key, p.at), p.at, MarkIn(LineOf(w, p.at))))
  {
    hide LineOf;
  }

  lemma TakeMarks(w: World, t: Thread, p: Phase)
    requires Own(w, t, p) && p.Held?
    ensures Marks(w, t, p, TakeEffect(w, t, p.key, p.at))
  {
    hide LineOf;
  }

  lemma LoseMarks(w: World, t: Thread, p: Phase, key: StreamKey, d: Direction, bytes: nat)
    requires Own(w, t, p)
    ensures Marks(w, t, p, LoseEffect(w, p, key, d, bytes))
  {
    hide Occupied, LineOf;
  }

  lemma ReturnDeferredMarks(w: World, t: Thread, p: Phase, key: StreamKey, bytes: nat, measured: bool)
    requires Own(w, t, p) && p.Deferred?
    ensures Marks(w, t, p, ReturnDeferredEffect(w, t, p.direction, key, bytes, measured))
  {
    hide Occupied, LineOf;
  }

  lemma ReturnMarks(w: World, t: Thread, p: Phase, bytes: nat, measured: bool)
    requires Own(w, t, p) && (p.InCall? || p.Unsequenced?)
    ensures Marks(w, t, p, UnreportedEffect(w, p, bytes)) && Marks(w, t, p, ReturnEffect(w, p, bytes, measured))
  {
    hide StillHeld, LineOf;
  }

  lemma EmitMarks(w: World, t: Thread, p: Phase, reserved: bool, carried: Transfer)
    requires Own(w, t, p) && p.Returning?
    ensures Marks(w, t, p, EmitEffect(w, t, p.reading, reserved, carried))
  {
    hide LineOf;
  }

  lemma ReleaseMarks(w: World, t: Thread, p: Phase)
    requires Own(w, t, p)
    ensures p.Counting? ==>
              Marks(w, t, p, Changing(Releasing(p.at, p.deferred), p.at, CountIn(LineOf(w, p.at), t, p.read)))
    ensures p.Releasing? ==> Marks(w, t, p, Changing(Outside, p.at, UnholdIn(LineOf(w, p.at), t)))
    ensures p.Numbered? ==>
              && Marks(w, t, p, Going(w, InCall(p.key, p.at, p.number)))
              && Marks(w, t, p, Going(w, Releasing(p.at, false)))
    ensures p.Dropping? ==> Marks(w, t, p, Going(w, Counting(p.at, p.number, LineOf(w, p.at).dropped, p.deferred)))
  {
    hide LineOf;
  }

  lemma DoMarks(w: World, s: Step)
    requires Detects(w) && Enabled(w, s) && !OfTable(s)
    ensures Marks(w, s.thread, PhaseOf(w, s.thread), Do(w, s))
  {
    var p := PhaseOf(w, s.thread);
    OwnHeld(w, s.thread);
    hide Marks, Detects, Own, PhaseOf, LineOf, EnterEffect, HoldEffect, MarkIn, TakeEffect, LoseEffect,
      ReturnDeferredEffect, UnreportedEffect, ReturnEffect, EmitEffect, UnholdIn, CountIn, Going, Changing;
    match s
    case Enter(t, key, d, counted) => EnterMarks(w, t, p, key, d, counted);
    case Hold(t) => HoldMarks(w, t, p);
    case Mark(t) => MarkMarks(w, t, p);
    case Take(t) => TakeMarks(w, t, p);
    case Record(t, _) => ReleaseMarks(w, t, p);
    case Lose(t, key, d, bytes) => LoseMarks(w, t, p, key, d, bytes);
    case Vanish(t) => LeaveMarks(w, t, p, Sent);
    case EnterDeferred(t, d) => LeaveMarks(w, t, p, d);
    case ReturnDeferred(t, key, bytes, measured) => ReturnDeferredMarks(w, t, p, key, bytes, measured);
    case ReturnUnreported(t, bytes) => ReturnMarks(w, t, p, bytes, true);
    case Return(t, bytes, measured) => ReturnMarks(w, t, p, bytes, measured);
    case Emit(t, reserved, carried) => EmitMarks(w, t, p, reserved, carried);
    case ReadDrops(t) => ReleaseMarks(w, t, p);
    case WriteDrops(t) => ReleaseMarks(w, t, p);
    case Unhold(t) => ReleaseMarks(w, t, p);
  }

  lemma MakeDetects(w: World, s: Step)
    requires Detects(w)
    ensures Detects(Make(w, s))
    ensures forall at :: LineOf(w, at).overlapped ==> LineOf(Make(w, s), at).overlapped
  {
    MakeKeeps(w, s);
    if Enabled(w, s) && !OfTable(s) {
      DoMarks(w, s);
      DoFits(w, s);
      ApplyDetects(w, s.thread, Do(w, s));
    } else {
      TableLines(w, s);
      hide Make, LineOf, PhaseOf, Numbers, InOrder;
    }
  }

  lemma ApplyDetects(w: World, t: Thread, e: Effect)
    requires Detects(w) && Marks(w, t, PhaseOf(w, t), e) && Fits(w, PhaseOf(w, t), e)
    ensures Detects(Apply(w, t, e))
    ensures forall at :: LineOf(w, at).overlapped ==> LineOf(Apply(w, t, e), at).overlapped
  {
    var r := Apply(w, t, e);
    FitsKeeps(w, t, e);
    HeldKept(w, t, e);
    WaitingKept(w, t, e);
    OrderKept(w, t, e);
    ApplyLines(w, t, e);
    forall u, x | x in r.submitted && Ahead(PhaseOf(r, u), LineOf(r, PlaceOf(PhaseOf(r, u))))
      ensures Below(x, PhaseOf(r, u))
    {
      AheadKept(w, t, e, u, x);
    }
    hide Numbers, Apply, InOrder, Fits, LineOf, PhaseOf;
  }

  lemma {:induction false} ProducedDetects(steps: seq<Step>)
    ensures Detects(Produced(steps))
  {
    if steps != [] {
      ProducedDetects(steps[..|steps| - 1]);
      MakeDetects(Produced(steps[..|steps| - 1]), steps[|steps| - 1]);
    }
  }

  /** Two calls in one direction at once. */
  predicate BothHold(p: Phase, q: Phase) { Holds(p) && Holds(q) && PlaceOf(p) == PlaceOf(q) }

  /** In every interleaving: two calls hold one direction only once it is marked,
      and the events submitted without the mark, of calls entered under a grant,
      are in strictly increasing number order. */
  lemma OverlapDetected(steps: seq<Step>)
    ensures var w := Produced(steps);
            && (forall t, u :: t != u && BothHold(PhaseOf(w, t), PhaseOf(w, u)) ==>
                  LineOf(w, PlaceOf(PhaseOf(w, t))).overlapped)
            && InOrder(w.submitted)
  {
    ProducedDetects(steps);
    hide Numbers, InOrder, Produced;
  }

  /** A mark never clears, whatever follows. */
  lemma {:induction false} MarkNeverClears(steps: seq<Step>, more: seq<Step>, at: At)
    ensures LineOf(Produced(steps), at).overlapped ==> LineOf(Produced(steps + more), at).overlapped
  {
    if more == [] {
      assert steps + more == steps;
    } else {
      var fewer := more[..|more| - 1];
      MarkNeverClears(steps, fewer, at);
      var all := steps + more;
      assert all[..|all| - 1] == steps + fewer && all[|all| - 1] == more[|more| - 1];
      ProducedDetects(steps + fewer);
      MakeDetects(Produced(steps + fewer), more[|more| - 1]);
    }
  }
}
