/** What the producer's numbers mean, in every interleaving: a number names one
    call, and an event carries what that call moved. */
module Numbering {
  import opened Values
  import opened Probe
  import opened Producer

  predicate LineOk(l: Line) {
    (forall n :: n in l.moved ==> 1 <= n <= l.taken) && (forall n :: n in l.refused ==> 1 <= n <= l.taken)
  }

  /** A thread whose call has a number and has not returned. */
  predicate Owes(p: Phase) { p.Numbered? || p.InCall? }

  /** The line a thread is at. */
  function PlaceOf(p: Phase): At {
    match p
    case Returning(r) => r.at
    case Outside => Nowhere
    case Unsequenced(_, _) => Nowhere
    case Deferred(_) => Nowhere
    case _ => p.at
  }

  /** A thread's own number, against the line it is at. */
  predicate PhaseOk(l: Line, p: Phase) {
    match p
    case Numbered(_, at, number) => at.occupancy != 0 && 1 <= number <= l.taken && number !in l.moved
    case InCall(_, at, number) => at.occupancy != 0 && 1 <= number <= l.taken && number !in l.moved
    case Returning(r) => r.at.occupancy != 0 ==> r.number in l.moved && l.moved[r.number] == r.bytes
    case Outside => true
    case Unsequenced(_, _) => true
    case Deferred(_) => true
    case _ => p.at.occupancy != 0
  }

  function EventPlace(t: Transfer): At { At(t.sequence.occupancy, t.direction) }

  /** An event's number is a call's, and its length what that call moved. */
  predicate EventOk(l: Line, t: Transfer) {
    && (!t.measured ==> t.length == 0)
    && (t.sequence.occupancy != 0 ==>
          t.sequence.number in l.moved && (t.measured ==> t.length == l.moved[t.sequence.number]))
  }

  predicate Apart(p: Phase, q: Phase) { Owes(p) && Owes(q) && p.at == q.at ==> p.number != q.number }

  ghost predicate Numbers(w: World) {
    && (forall at :: LineOk(LineOf(w, at)))
    && (forall t :: PhaseOk(LineOf(w, PlaceOf(PhaseOf(w, t))), PhaseOf(w, t)))
    && (forall t, u :: t != u ==> Apart(PhaseOf(w, t), PhaseOf(w, u)))
    && (forall e :: e in w.submitted ==> EventOk(LineOf(w, EventPlace(e.transfer)), e.transfer))
  }

  /** What a line may do: take further numbers, and learn what a call moved. */
  predicate LineGrows(l: Line, m: Line) {
    l.taken <= m.taken && forall n :: n in l.moved ==> n in m.moved && m.moved[n] == l.moved[n]
  }

  /** What one step owes the invariant, of its own thread and line alone. */
  ghost predicate Fits(w: World, p: Phase, e: Effect) {
    var l := LineOf(w, e.at);
    && LineOk(e.line) && LineGrows(l, e.line)
    && (forall n :: n in e.line.moved && n !in l.moved ==> n > l.taken || (Owes(p) && p.at == e.at && p.number == n))
    && (Owes(e.phase) ==>
          || (Owes(p) && p.at == e.phase.at && p.number == e.phase.number)
          || (e.phase.at == e.at && e.phase.number > l.taken))
    && PhaseOk(if PlaceOf(e.phase) == e.at then e.line else LineOf(w, PlaceOf(e.phase)), e.phase)
    && (forall x :: x in e.submitted ==> EventPlace(x.transfer) == e.at && EventOk(e.line, x.transfer))
  }

  lemma ApplyLines(w: World, t: Thread, e: Effect)
    ensures forall at :: LineOf(Apply(w, t, e), at) == if at == e.at then e.line else LineOf(w, at)
    ensures forall u :: PhaseOf(Apply(w, t, e), u) == if u == t then e.phase else PhaseOf(w, u)
  {
  }

  lemma FitsKeeps(w: World, t: Thread, e: Effect)
    requires Numbers(w) && Fits(w, PhaseOf(w, t), e)
    ensures Numbers(Apply(w, t, e))
  {
    var r := Apply(w, t, e);
    ApplyLines(w, t, e);
    hide Apply;
    forall u | u != t
      ensures PhaseOk(LineOf(r, PlaceOf(PhaseOf(r, u))), PhaseOf(r, u))
      ensures Apart(PhaseOf(r, t), PhaseOf(r, u)) && Apart(PhaseOf(r, u), PhaseOf(r, t))
    {
      assert PhaseOk(LineOf(w, PlaceOf(PhaseOf(w, u))), PhaseOf(w, u)) && Apart(PhaseOf(w, t), PhaseOf(w, u));
    }
    EventsKept(w, t, e);
  }

  lemma EventsKept(w: World, t: Thread, e: Effect)
    requires Numbers(w) && Fits(w, PhaseOf(w, t), e)
    ensures var r := Apply(w, t, e);
            forall x :: x in r.submitted ==> EventOk(LineOf(r, EventPlace(x.transfer)), x.transfer)
  {
    var r := Apply(w, t, e);
    ApplyLines(w, t, e);
    forall x | x in r.submitted ensures EventOk(LineOf(r, EventPlace(x.transfer)), x.transfer) {
      if x in w.submitted { assert EventOk(LineOf(w, EventPlace(x.transfer)), x.transfer); }
    }
  }

  // One lemma for each kind of step.

  ghost predicate LinesOk(w: World) { forall at :: LineOk(LineOf(w, at)) }

  ghost predicate ThreadOk(w: World, p: Phase) { LinesOk(w) && PhaseOk(LineOf(w, PlaceOf(p)), p) }

  lemma EnterFits(w: World, p: Phase, key: StreamKey, d: Direction, counted: bool)
    requires ThreadOk(w, p)
    ensures Fits(w, p, EnterEffect(w, key, d, counted))
  {
    hide Occupied, LineOf;
  }

  lemma OwnOk(w: World, t: Thread)
    requires Numbers(w)
    ensures ThreadOk(w, PhaseOf(w, t))
  {
  }

  lemma LeaveFits(w: World, p: Phase, d: Direction)
    requires ThreadOk(w, p)
    ensures Fits(w, p, Going(w, Outside)) && Fits(w, p, Going(w, Deferred(d)))
  {
    hide LineOf;
  }

  lemma HoldFits(w: World, t: Thread, p: Phase)
    requires ThreadOk(w, p) && p.Entering?
    ensures Fits(w, p, HoldEffect(w, t, p.key, p.at))
  {
    hide LineOf;
  }

  lemma MarkFits(w: World, t: Thread, p: Phase)
    requires ThreadOk(w, p) && p.Contending?
    ensures Fits(w, p, Changing(Held(p.key, p.at), p.at, MarkIn(LineOf(w, p.at))))
  {
    hide LineOf;
  }

  lemma TakeFits(w: World, t: Thread, p: Phase)
    requires ThreadOk(w, p) && p.Held?
    ensures Fits(w, p, TakeEffect(w, t, p.key, p.at))
  {
    hide LineOf;
  }

  lemma LoseFits(w: World, p: Phase, key: StreamKey, d: Direction, bytes: nat)
    requires ThreadOk(w, p)
    ensures Fits(w, p, LoseEffect(w, p, key, d, bytes))
  {
    hide Occupied, LineOf;
  }

  lemma ReturnDeferredFits(w: World, t: Thread, p: Phase, key: StreamKey, bytes: nat, measured: bool)
    requires ThreadOk(w, p) && p.Deferred?
    ensures Fits(w, p, ReturnDeferredEffect(w, t, p.direction, key, bytes, measured))
  {
    hide Occupied, LineOf;
  }

  lemma ReturnFits(w: World, p: Phase, bytes: nat, measured: bool)
    requires ThreadOk(w, p) && (p.InCall? || p.Unsequenced?)
    ensures Fits(w, p, UnreportedEffect(w, p, bytes)) && Fits(w, p, ReturnEffect(w, p, bytes, measured))
  {
    hide StillHeld, LineOf;
  }

  lemma EmitFits(w: World, t: Thread, p: Phase, reserved: bool, carried: Transfer)
    requires ThreadOk(w, p) && p.Returning?
    ensures Fits(w, p, EmitEffect(w, t, p.reading, reserved, carried))
  {
    hide LineOf;
  }

  lemma ReleaseFits(w: World, t: Thread, p: Phase)
    requires ThreadOk(w, p)
    ensures p.Counting? ==> Fits(w, p, Changing(Releasing(p.at, p.deferred), p.at, CountIn(LineOf(w, p.at), t, p.read)))
    ensures p.Releasing? ==> Fits(w, p, Changing(Outside, p.at, UnholdIn(LineOf(w, p.at), t)))
    ensures p.Numbered? ==>
              Fits(w, p, Going(w, InCall(p.key, p.at, p.number))) && Fits(w, p, Going(w, Releasing(p.at, false)))
    ensures p.Dropping? ==> Fits(w, p, Going(w, Counting(p.at, p.number, LineOf(w, p.at).dropped, p.deferred)))
  {
    hide LineOf;
  }

  lemma DoFits(w: World, s: Step)
    requires Numbers(w) && Enabled(w, s) && !OfTable(s)
    ensures Fits(w, PhaseOf(w, s.thread), Do(w, s))
  {
    var p := PhaseOf(w, s.thread);
    OwnOk(w, s.thread);
    hide Fits, Numbers, ThreadOk, PhaseOf, LineOf, EnterEffect, HoldEffect, MarkIn, TakeEffect, LoseEffect,
      ReturnDeferredEffect, UnreportedEffect, ReturnEffect, EmitEffect, UnholdIn, CountIn, Going, Changing;
    match s
    case Enter(_, key, d, counted) => EnterFits(w, p, key, d, counted);
    case Hold(t) => HoldFits(w, t, p);
    case Mark(t) => MarkFits(w, t, p);
    case Take(t) => TakeFits(w, t, p);
    case Lose(_, key, d, bytes) => LoseFits(w, p, key, d, bytes);
    case ReturnDeferred(t, key, bytes, measured) => ReturnDeferredFits(w, t, p, key, bytes, measured);
    case ReturnUnreported(_, bytes) => ReturnFits(w, p, bytes, true);
    case Return(_, bytes, measured) => ReturnFits(w, p, bytes, measured);
    case Emit(t, reserved, carried) => EmitFits(w, t, p, reserved, carried);
    case Vanish(_) => LeaveFits(w, p, Sent);
    case EnterDeferred(_, d) => LeaveFits(w, p, d);
    case Record(t, _) => ReleaseFits(w, t, p);
    case ReadDrops(t) => ReleaseFits(w, t, p);
    case WriteDrops(t) => ReleaseFits(w, t, p);
    case Unhold(t) => ReleaseFits(w, t, p);
  }

  /** A beginning, a release and a step not taken move no thread and no line. */
  lemma TableLines(w: World, s: Step)
    requires Enabled(w, s) ==> OfTable(s)
    ensures var r := Make(w, s);
            && r.submitted == w.submitted
            && (forall at :: LineOf(r, at) == LineOf(w, at)) && (forall t :: PhaseOf(r, t) == PhaseOf(w, t))
  {
  }

  lemma FitsGrows(w: World, p: Phase, e: Effect)
    requires Fits(w, p, e)
    ensures LineGrows(LineOf(w, e.at), e.line)
  {
  }

  lemma DoKeeps(w: World, s: Step)
    requires Numbers(w) && Enabled(w, s) && !OfTable(s)
    ensures var r := Apply(w, s.thread, Do(w, s));
            Numbers(r) && w.submitted <= r.submitted && forall at :: LineGrows(LineOf(w, at), LineOf(r, at))
  {
    hide Do, Fits, Numbers, LineOf, PhaseOf, Enabled;
    DoFits(w, s);
    FitsKeeps(w, s.thread, Do(w, s));
    ApplyLines(w, s.thread, Do(w, s));
    FitsGrows(w, PhaseOf(w, s.thread), Do(w, s));
  }

  lemma MakeKeeps(w: World, s: Step)
    requires Numbers(w)
    ensures Numbers(Make(w, s))
    ensures forall at :: LineGrows(LineOf(w, at), LineOf(Make(w, s), at))
    ensures w.submitted <= Make(w, s).submitted
  {
    hide Do, LineOf, PhaseOf;
    if Enabled(w, s) && !OfTable(s) {
      DoKeeps(w, s);
    } else {
      TableLines(w, s);
      hide Make, LineOk, EventOk, PhaseOk, Apart;
    }
  }
}
