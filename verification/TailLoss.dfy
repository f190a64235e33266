/** The tail of a direction still open when production stopped: with one call at
    a time in flight, what is located is exactly the refused reservations above
    the last number seen. */
module TailLoss {
  import opened Values
  import opened Probe
  import opened Producer
  import opened Numbering
  import opened Overlap
  import Capture

  /** A direction in which no two calls ever met. */
  predicate Orderly(l: Line) { !l.overlapped && !l.crowded }

  /** A call numbered at its return, delivering. */
  predicate Late(p: Phase) {
    match p
    case Returning(r) => r.at.occupancy != 0 && r.deferred
    case Dropping(_, _, deferred) => deferred
    case Counting(_, _, _, deferred) => deferred
    case Releasing(_, deferred) => deferred
    case _ => false
  }

  predicate Active(p: Phase) { Holds(p) || Late(p) }

  /** A refusal not yet counted. */
  predicate Drops(p: Phase) { p.Dropping? || p.Counting? }

  /** A numbered call not yet delivered or refused. */
  predicate Undelivered(p: Phase) { Owes(p) || (p.Returning? && p.reading.at.occupancy != 0) }

  ghost predicate Registered(w: World, t: Thread, at: At) {
    var p, l := PhaseOf(w, t), LineOf(w, at);
    && (Late(p) && PlaceOf(p) == at ==> t in l.late)
    && (t in l.owing <==> Drops(p) && PlaceOf(p) == at)
  }

  predicate LateAlone(l: Line) { l.late != {} ==> l.busy == 0 && forall u, v :: u in l.late && v in l.late ==> u == v }

  /** The refused numbers below one. */
  function RefusedBelow(l: Line, n: nat): set<nat> { set m | m in l.refused && m < n }

  predicate TellsDrops(l: Line, q: Sequence) { q.number !in l.refused && q.dropped == |RefusedBelow(l, q.number)| }

  /** A number above every one a line's calls delivered or were refused. */
  ghost predicate Above(l: Line, xs: seq<Submission>, at: At, n: nat) {
    && (forall m :: m in l.refused ==> m < n)
    && (forall x :: x in xs && EventPlace(x.transfer) == at ==> x.transfer.sequence.number < n)
  }

  /** Past its reservation, or holding and not yet numbered. */
  predicate Brief(p: Phase) { p.Held? || p.Dropping? || p.Counting? || p.Releasing? }

  ghost predicate HolderAbove(w: World, at: At) {
    var l := LineOf(w, at);
    Orderly(l) && l.busy != 0 ==>
      || (PlaceOf(PhaseOf(w, l.busy)) == at && Brief(PhaseOf(w, l.busy)))
      || (1 <= l.held <= l.taken && Above(l, w.submitted, at, l.held))
  }

  ghost predicate CallTallies(w: World, p: Phase) {
    var l := LineOf(w, PlaceOf(p));
    Orderly(l) ==>
      && (Undelivered(p) ==> Above(l, w.submitted, PlaceOf(p), NumberOf(p)))
      && (p.Returning? && p.reading.at.occupancy != 0 ==> p.reading.dropped == |l.refused|)
      && (p.Counting? ==> p.read == l.dropped)
  }

  ghost predicate LineTallies(l: Line) { Orderly(l) ==> LateAlone(l) && l.dropped + |l.owing| == |l.refused| }

  ghost predicate Tallies(w: World) {
    && Detects(w)
    && (forall t, at: At :: at.occupancy != 0 ==> Registered(w, t, at))
    && (forall at :: LineTallies(LineOf(w, at)))
    && (forall t :: CallTallies(w, PhaseOf(w, t)))
    && (forall at: At :: at.occupancy != 0 ==> HolderAbove(w, at))
    && (forall x |
          x in w.submitted && x.transfer.sequence.occupancy != 0 && Orderly(LineOf(w, EventPlace(x.transfer))) ::
          TellsDrops(LineOf(w, EventPlace(x.transfer)), x.transfer.sequence))
  }

  /** On an orderly line one call at a time is active. */
  lemma Sole(w: World, t: Thread, u: Thread)
    requires Tallies(w) && Active(PhaseOf(w, t)) && Active(PhaseOf(w, u))
    requires PlaceOf(PhaseOf(w, t)) == PlaceOf(PhaseOf(w, u))
    requires Orderly(LineOf(w, PlaceOf(PhaseOf(w, t)))) && PlaceOf(PhaseOf(w, t)).occupancy != 0
    ensures t == u
  {
    hide InOrder, Numbers, CallTallies, HolderAbove, TellsDrops, Ahead;
    var at := PlaceOf(PhaseOf(w, t));
    assert Registered(w, t, at) && Registered(w, u, at) && LineTallies(LineOf(w, at));
  }

  // What one step of a thread owes.

  ghost predicate Registers(w: World, t: Thread, p: Phase, e: Effect) {
    var l := LineOf(w, e.at);
    && (l.crowded ==> e.line.crowded)
    && (forall u :: u != t ==> (u in e.line.late <==> u in l.late) && (u in e.line.owing <==> u in l.owing))
    && (Late(e.phase) ==>
          if PlaceOf(e.phase) == e.at then t in e.line.late else Late(p) && PlaceOf(p) == PlaceOf(e.phase))
    && (e.at.occupancy != 0 ==> (t in e.line.owing <==> Drops(e.phase) && PlaceOf(e.phase) == e.at))
    && (Drops(e.phase) && PlaceOf(e.phase) != e.at ==> Drops(p) && PlaceOf(p) == PlaceOf(e.phase))
    && (Drops(p) && PlaceOf(p) != e.at ==> Drops(e.phase) && PlaceOf(p) == PlaceOf(e.phase))
  }

  /** A step that delivers or refuses its own call, if it does either. */
  ghost predicate Delivers(w: World, p: Phase, e: Effect) {
    var l := LineOf(w, e.at);
    && (e.line.refused == l.refused
        || (&& e.line.refused == l.refused + {NumberOf(p)} && p.Returning? && PlaceOf(p) == e.at && e.at.occupancy != 0
            && Brief(e.phase) && PlaceOf(e.phase) == e.at && e.submitted == []))
    && |e.submitted| <= 1
    && (e.submitted != [] ==>
          var q := e.submitted[0].transfer;
          && p.Returning? && EventPlace(q) == PlaceOf(p) == e.at && e.line.refused == l.refused
          && (e.at.occupancy != 0 ==>
                && q.sequence.number == NumberOf(p) && q.sequence.dropped == p.reading.dropped
                && Brief(e.phase) && PlaceOf(e.phase) == e.at))
  }

  /** A step that numbers its own call, reads its place, or counts a refusal. */
  ghost predicate Reads(w: World, p: Phase, e: Effect) {
    var l := LineOf(w, e.at);
    && (Undelivered(e.phase) ==>
          && e.submitted == [] && e.line.refused == l.refused
          && ((Undelivered(p) && PlaceOf(p) == PlaceOf(e.phase) && NumberOf(p) == NumberOf(e.phase))
              || (PlaceOf(e.phase) == e.at && NumberOf(e.phase) == e.line.taken == l.taken + 1)))
    && (e.phase.Returning? && e.phase.reading.at.occupancy != 0 && e.phase != p ==>
          && PlaceOf(e.phase) == e.at && e.phase.reading.dropped == e.line.dropped == l.dropped
          && ((Active(p) && !Drops(p) && PlaceOf(p) == e.at) || (Orderly(e.line) ==> l.busy == 0 && l.late == {})))
    && (e.phase.Counting? && e.phase != p ==>
          PlaceOf(e.phase) != e.at && e.phase.read == LineOf(w, PlaceOf(e.phase)).dropped)
    && (e.line.dropped != l.dropped ==> p.Counting? && PlaceOf(p) == e.at && !e.phase.Counting?)
  }

  /** A step's line still tallies: nothing changed, a refusal began to be owed, or
      one was counted. */
  ghost predicate Counts(w: World, t: Thread, p: Phase, e: Effect) {
    var l := LineOf(w, e.at);
    && (Orderly(e.line) && LateAlone(l) ==> LateAlone(e.line))
    && (|| (e.line.dropped == l.dropped && e.line.owing == l.owing && e.line.refused == l.refused)
        || (&& p.Counting? && PlaceOf(p) == e.at
            && e.line.dropped == p.read + 1 && e.line.owing == l.owing - {t} && e.line.refused == l.refused)
        || (&& p.Returning? && PlaceOf(p) == e.at && e.at.occupancy != 0
            && e.line.dropped == l.dropped && e.line.owing == l.owing + {t}
            && e.line.refused == l.refused + {NumberOf(p)}))
  }

  ghost predicate HoldsOn(w: World, t: Thread, p: Phase, e: Effect) {
    var l := LineOf(w, e.at);
    && l.taken <= e.line.taken
    && (Brief(p) && PlaceOf(p) != e.at ==> Brief(e.phase) && PlaceOf(p) == PlaceOf(e.phase))
    && (Orderly(e.line) && e.line.busy != 0 && e.at.occupancy != 0 ==>
          || (e.line.busy == t && Brief(e.phase) && PlaceOf(e.phase) == e.at)
          || (&& e.line.busy == t && e.line.held == e.line.taken == l.taken + 1 && e.submitted == []
              && e.line.refused == l.refused)
          || (e.line.busy == l.busy && e.line.held == l.held && (l.busy == t && PlaceOf(p) == e.at ==> !Brief(p))))
  }

  lemma RegisteredKept(w: World, t: Thread, e: Effect, u: Thread, at: At)
    requires Tallies(w) && Registers(w, t, PhaseOf(w, t), e) && at.occupancy != 0
    ensures Registered(Apply(w, t, e), u, at)
  {
    ApplyLines(w, t, e);
    assert Registered(w, u, at);
    hide Apply, Tallies, PhaseOf, LineOf;
  }

  lemma CallKept(w: World, t: Thread, e: Effect, u: Thread)
    requires Tallies(w) && Registers(w, t, PhaseOf(w, t), e) && Delivers(w, PhaseOf(w, t), e) && u != t
    requires Reads(w, PhaseOf(w, t), e) && Marks(w, t, PhaseOf(w, t), e)
    ensures CallTallies(Apply(w, t, e), PhaseOf(Apply(w, t, e), u))
  {
    ApplyLines(w, t, e);
    var p, q := PhaseOf(w, u), PhaseOf(w, t);
    assert CallTallies(w, p);
    OwnOkAll(w);
    ActiveOnes(p);
    ActiveOnes(q);
    if (Undelivered(p) || Drops(p)) && Orderly(LineAt(w, e, p)) {
      if PlaceOf(p) == e.at && Active(q) && PlaceOf(q) == e.at {
        Sole(w, t, u);
      }
      hide Apply, Tallies, PhaseOf, LineOf, Above, Active, Drops, Undelivered;
      AboveSame(LineOf(w, PlaceOf(p)), LineAt(w, e, p), w.submitted, e.submitted, PlaceOf(p), NumberOf(p));
    }
  }

  lemma OwnOkAll(w: World)
    requires Tallies(w)
    ensures forall t :: ThreadOk(w, PhaseOf(w, t))
  {
    forall t ensures ThreadOk(w, PhaseOf(w, t)) { OwnOk(w, t); }
  }

  lemma ActiveOnes(p: Phase)
    ensures Undelivered(p) || Drops(p) ==> Active(p)
    ensures p.Counting? ==> Drops(p)
    ensures p.Returning? && PlaceOf(p).occupancy != 0 ==> Undelivered(p)
  {
  }

  lemma AboveSame(l: Line, m: Line, xs: seq<Submission>, more: seq<Submission>, at: At, n: nat)
    requires m.refused == l.refused && forall x :: x in more ==> EventPlace(x.transfer) != at
    ensures Above(l, xs, at, n) ==> Above(m, xs + more, at, n)
  {
  }

  ghost predicate Owed(w: World, t: Thread, e: Effect) {
    var p := PhaseOf(w, t);
    && Marks(w, t, p, e) && Fits(w, p, e) && Registers(w, t, p, e) && Delivers(w, p, e) && Reads(w, p, e)
    && HoldsOn(w, t, p, e) && Counts(w, t, p, e)
  }

  lemma LineKept(w: World, t: Thread, e: Effect)
    requires Tallies(w) && Owed(w, t, e)
    ensures LineTallies(e.line)
  {
    var p, l := PhaseOf(w, t), LineOf(w, e.at);
    assert LineTallies(l) && CallTallies(w, p) && (e.at.occupancy != 0 ==> Registered(w, t, e.at));
    OwnOkAll(w);
    hide Tallies, PhaseOf, LineOf, Fits, HoldsOn, Reads, Delivers;
    if Orderly(e.line) && p.Returning? && PlaceOf(p) == e.at && e.at.occupancy != 0 {
      assert NumberOf(p) !in l.refused;
    }
  }

  /** Nothing is owed on an orderly line by any call but the one active there. */
  lemma NoneOwing(w: World, t: Thread, at: At)
    requires Tallies(w) && at.occupancy != 0 && Orderly(LineOf(w, at))
    requires var p, l := PhaseOf(w, t), LineOf(w, at);
             (Active(p) && !Drops(p) && PlaceOf(p) == at) || (l.busy == 0 && l.late == {})
    ensures LineOf(w, at).owing == {}
  {
    forall u | u in LineOf(w, at).owing ensures false {
      assert Registered(w, u, at);
      ActiveOnes(PhaseOf(w, u));
      assert Holds(PhaseOf(w, u)) ==> HeldBy(LineOf(w, at), u);
      if Active(PhaseOf(w, t)) && PlaceOf(PhaseOf(w, t)) == at {
        Sole(w, t, u);
      }
    }
  }

  lemma OwnCallKept(w: World, t: Thread, e: Effect)
    requires Tallies(w) && Owed(w, t, e)
    ensures CallTallies(Apply(w, t, e), e.phase)
  {
    var p, l, q := PhaseOf(w, t), LineOf(w, e.at), e.phase;
    ApplyLines(w, t, e);
    assert CallTallies(w, p) && LineTallies(l) && LineOk(l);
    NumbersBound(w);
    if q.Returning? && q.reading.at.occupancy != 0 && q != p && Orderly(e.line) {
      NoneOwing(w, t, e.at);
    }
    hide Tallies, PhaseOf, LineOf, Fits, HoldsOn, Delivers, Apply;
    if Undelivered(q) && Orderly(LineAt(w, e, q)) {
      if NumberOf(q) == e.line.taken == l.taken + 1 && PlaceOf(q) == e.at {
        FreshAbove(w, e.at);
      } else {
        AboveSame(LineOf(w, PlaceOf(q)), LineAt(w, e, q), w.submitted, [], PlaceOf(q), NumberOf(q));
      }
    }
  }

  /** The next number a line takes is above every one before it. */
  lemma FreshAbove(w: World, at: At)
    requires LineOk(LineOf(w, at)) && at.occupancy != 0
    requires forall x :: x in w.submitted && x.transfer.sequence.occupancy != 0 ==>
               x.transfer.sequence.number <= LineOf(w, EventPlace(x.transfer)).taken
    ensures Above(LineOf(w, at), w.submitted, at, LineOf(w, at).taken + 1)
  {
  }

  /** On an orderly line held by another thread, a call delivers nothing. */
  lemma DeliversAlone(w: World, t: Thread, e: Effect)
    requires Tallies(w) && Owed(w, t, e) && e.at.occupancy != 0 && Orderly(e.line)
    requires LineOf(w, e.at).busy != 0 && LineOf(w, e.at).busy != t
    ensures e.submitted == [] && e.line.refused == LineOf(w, e.at).refused
  {
    var p := PhaseOf(w, t);
    assert LineTallies(LineOf(w, e.at)) && Registered(w, t, e.at);
    ActiveOnes(p);
    assert Holds(p) ==> HeldBy(LineOf(w, PlaceOf(p)), t);
    hide Tallies, PhaseOf, LineOf, Fits, HoldsOn, Reads, Counts, Marks;
  }

  lemma HolderKept(w: World, t: Thread, e: Effect, at: At)
    requires Tallies(w) && Owed(w, t, e) && at.occupancy != 0
    ensures HolderAbove(Apply(w, t, e), at)
  {
    ApplyLines(w, t, e);
    var l := LineOf(w, at);
    assert HolderAbove(w, at) && LineOk(l);
    NumbersBound(w);
    if at != e.at {
      hide Tallies, PhaseOf, LineOf, Fits, Reads, Counts, Marks, Apply, Registers;
      AboveSame(l, l, w.submitted, e.submitted, at, l.held);
    } else if Orderly(e.line) && e.line.busy != 0 {
      if l.busy != 0 && l.busy != t { DeliversAlone(w, t, e); }
      FreshAbove(w, at);
      hide Tallies, PhaseOf, LineOf, Fits, Reads, Counts, Registers, Apply, Above;
      if e.submitted == [] && e.line.refused == l.refused {
        AboveSame(l, e.line, w.submitted, [], at, e.line.held);
      }
    }
  }

  lemma BelowSame(l: Line, m: Line, n: nat, k: nat)
    requires m.refused == l.refused + {k} && n < k
    ensures RefusedBelow(m, n) == RefusedBelow(l, n)
  {
  }

  lemma BelowAll(l: Line, n: nat)
    requires forall m :: m in l.refused ==> m < n
    ensures RefusedBelow(l, n) == l.refused
  {
  }

  lemma EventKept(w: World, t: Thread, e: Effect, x: Submission)
    requires Tallies(w) && Owed(w, t, e) && x in Apply(w, t, e).submitted && x.transfer.sequence.occupancy != 0
    ensures var l := LineOf(Apply(w, t, e), EventPlace(x.transfer)); Orderly(l) ==> TellsDrops(l, x.transfer.sequence)
  {
    ApplyLines(w, t, e);
    var p, l, at, q := PhaseOf(w, t), LineOf(w, EventPlace(x.transfer)), EventPlace(x.transfer), x.transfer.sequence;
    assert CallTallies(w, p);
    assert x in w.submitted && Orderly(l) ==> TellsDrops(l, q);
    hide Tallies, PhaseOf, LineOf, Fits, Reads, Marks, HoldsOn, TellsDrops;
    if at == e.at && Orderly(e.line) {
      if x in w.submitted {
        if e.line.refused != l.refused {
          BelowSame(l, e.line, q.number, NumberOf(p));
        }
        TellsSame(l, e.line, q);
      } else {
        assert x == e.submitted[0];
        BelowAll(l, q.number);
        TellsFirst(l, e.line, q);
      }
    }
  }

  lemma TellsSame(l: Line, m: Line, q: Sequence)
    requires TellsDrops(l, q) && RefusedBelow(m, q.number) == RefusedBelow(l, q.number)
    requires q.number in m.refused ==> q.number in l.refused
    ensures TellsDrops(m, q)
  {
  }

  lemma TellsFirst(l: Line, m: Line, q: Sequence)
    requires m.refused == l.refused && q.number !in l.refused && RefusedBelow(l, q.number) == l.refused
    requires q.dropped == |l.refused|
    ensures TellsDrops(m, q)
  {
  }

  lemma ApplyTallies(w: World, t: Thread, e: Effect)
    requires Tallies(w) && Owed(w, t, e)
    ensures Tallies(Apply(w, t, e))
  {
    var r := Apply(w, t, e);
    ApplyDetects(w, t, e);
    LineKept(w, t, e);
    OwnCallKept(w, t, e);
    forall u, at: At | at.occupancy != 0 ensures Registered(r, u, at) { RegisteredKept(w, t, e, u, at); }
    forall u | u != t ensures CallTallies(r, PhaseOf(r, u)) { CallKept(w, t, e, u); }
    forall at: At | at.occupancy != 0 ensures HolderAbove(r, at) { HolderKept(w, t, e, at); }
    forall x | x in r.submitted && x.transfer.sequence.occupancy != 0 && Orderly(LineOf(r, EventPlace(x.transfer)))
      ensures TellsDrops(LineOf(r, EventPlace(x.transfer)), x.transfer.sequence)
    {
      EventKept(w, t, e, x);
    }
    ApplyLines(w, t, e);
    hide Apply, PhaseOf, LineOf, Detects, Registered, CallTallies, HolderAbove, TellsDrops, Owed;
  }

  // Each kind of step owes it.

  ghost predicate Local(w: World, t: Thread, p: Phase, e: Effect) {
    Registers(w, t, p, e) && Delivers(w, p, e) && Reads(w, p, e) && HoldsOn(w, t, p, e) && Counts(w, t, p, e)
  }

  ghost predicate Mine(w: World, t: Thread, p: Phase) {
    && Own(w, t, p)
    && (forall at: At :: at.occupancy != 0 ==> (t in LineOf(w, at).owing <==> Drops(p) && PlaceOf(p) == at))
    && (Late(p) ==> t in LineOf(w, PlaceOf(p)).late)
  }

  lemma EnterLocal(w: World, t: Thread, p: Phase, key: StreamKey, d: Direction, counted: bool)
    requires Mine(w, t, p) && p.Outside?
    ensures Local(w, t, p, EnterEffect(w, key, d, counted))
  {
    hide Occupied, LineOf;
  }

  lemma LeaveLocal(w: World, t: Thread, p: Phase, d: Direction)
    requires Mine(w, t, p) && (p.Outside? || p.InCall? || p.Unsequenced? || p.Deferred?)
    ensures Local(w, t, p, Going(w, Outside)) && Local(w, t, p, Going(w, Deferred(d)))
  {
    hide LineOf;
  }

  lemma HoldLocal(w: World, t: Thread, p: Phase)
    requires Mine(w, t, p) && p.Entering?
    ensures Local(w, t, p, HoldEffect(w, t, p.key, p.at))
  {
    hide LineOf;
  }

  lemma MarkLocal(w: World, t: Thread, p: Phase)
    requires Mine(w, t, p) && p.Contending?
    ensures Local(w, t, p, Changing(Held(p.key, p.at), p.at, MarkIn(LineOf(w, p.at))))
  {
    hide LineOf;
  }

  lemma TakeLocal(w: World, t: Thread, p: Phase)
    requires Mine(w, t, p) && p.Held?
    ensures Local(w, t, p, TakeEffect(w, t, p.key, p.at))
  {
    hide LineOf;
  }

  lemma LoseLocal(w: World, t: Thread, p: Phase, key: StreamKey, d: Direction, bytes: nat)
    requires Mine(w, t, p)
    ensures Local(w, t, p, LoseEffect(w, p, key, d, bytes))
  {
    hide Mine, Local, Occupied, LineOf;
    StayingLocal(w, t, p, LoseEffect(w, p, key, d, bytes));
  }

  /** A step that at most takes numbers for others, and moves nothing of its own. */
  lemma StayingLocal(w: World, t: Thread, p: Phase, e: Effect)
    requires Mine(w, t, p) && e.phase == p && e.submitted == [] && LineOf(w, e.at).taken <= e.line.taken
    requires e.line == LineOf(w, e.at).(taken := e.line.taken, moved := e.line.moved)
    ensures Local(w, t, p, e)
  {
    hide LineOf;
  }

  lemma ReturnDeferredLocal(w: World, t: Thread, p: Phase, key: StreamKey, bytes: nat, measured: bool)
    requires Mine(w, t, p) && p.Deferred?
    ensures Local(w, t, p, ReturnDeferredEffect(w, t, p.direction, key, bytes, measured))
  {
    hide Occupied, LineOf;
  }

  lemma ReturnLocal(w: World, t: Thread, p: Phase, bytes: nat, measured: bool)
    requires Mine(w, t, p) && (p.InCall? || p.Unsequenced?)
    ensures Local(w, t, p, UnreportedEffect(w, p, bytes)) && Local(w, t, p, ReturnEffect(w, p, bytes, measured))
  {
    hide StillHeld, LineOf;
  }

  lemma EmitLocal(w: World, t: Thread, p: Phase, reserved: bool, carried: Transfer)
    requires Mine(w, t, p) && p.Returning?
    ensures Local(w, t, p, EmitEffect(w, t, p.reading, reserved, carried))
  {
    hide LineOf;
  }

  lemma ReleaseLocal(w: World, t: Thread, p: Phase)
    requires Mine(w, t, p)
    ensures p.Counting? ==>
              Local(w, t, p, Changing(Releasing(p.at, p.deferred), p.at, CountIn(LineOf(w, p.at), t, p.read)))
    ensures p.Releasing? ==> Local(w, t, p, Changing(Outside, p.at, UnholdIn(LineOf(w, p.at), t)))
    ensures p.Numbered? ==>
              && Local(w, t, p, Going(w, InCall(p.key, p.at, p.number)))
              && Local(w, t, p, Going(w, Releasing(p.at, false)))
    ensures p.Dropping? ==> Local(w, t, p, Going(w, Counting(p.at, p.number, LineOf(w, p.at).dropped, p.deferred)))
  {
    hide LineOf;
  }

  lemma DoLocal(w: World, s: Step)
    requires Tallies(w) && Enabled(w, s) && !OfTable(s)
    ensures Local(w, s.thread, PhaseOf(w, s.thread), Do(w, s))
  {
    var p := PhaseOf(w, s.thread);
    MineOf(w, s.thread);
    hide Local, Tallies, Mine, PhaseOf, LineOf, EnterEffect, HoldEffect, MarkIn, TakeEffect, LoseEffect,
      ReturnDeferredEffect, UnreportedEffect, ReturnEffect, EmitEffect, UnholdIn, CountIn, Going, Changing;
    match s
    case Enter(t, key, d, counted) => EnterLocal(w, t, p, key, d, counted);
    case Hold(t) => HoldLocal(w, t, p);
    case Mark(t) => MarkLocal(w, t, p);
    case Take(t) => TakeLocal(w, t, p);
    case Record(t, _) => ReleaseLocal(w, t, p);
    case Lose(t, key, d, bytes) => LoseLocal(w, t, p, key, d, bytes);
    case Vanish(t) => LeaveLocal(w, t, p, Sent);
    case EnterDeferred(t, d) => LeaveLocal(w, t, p, d);
    case ReturnDeferred(t, key, bytes, measured) => ReturnDeferredLocal(w, t, p, key, bytes, measured);
    case ReturnUnreported(t, bytes) => ReturnLocal(w, t, p, bytes, true);
    case Return(t, bytes, measured) => ReturnLocal(w, t, p, bytes, measured);
    case Emit(t, reserved, carried) => EmitLocal(w, t, p, reserved, carried);
    case ReadDrops(t) => ReleaseLocal(w, t, p);
    case WriteDrops(t) => ReleaseLocal(w, t, p);
    case Unhold(t) => ReleaseLocal(w, t, p);
  }

  lemma MineOf(w: World, t: Thread)
    requires Tallies(w)
    ensures Mine(w, t, PhaseOf(w, t))
  {
    OwnHeld(w, t);
    hide Detects;
    assert forall at: At :: at.occupancy != 0 ==> Registered(w, t, at);
    LatePlace(w, PhaseOf(w, t));
  }

  lemma LatePlace(w: World, p: Phase)
    requires ThreadOk(w, p)
    ensures Late(p) ==> PlaceOf(p).occupancy != 0
  {
  }

  lemma MakeTallies(w: World, s: Step)
    requires Tallies(w)
    ensures Tallies(Make(w, s))
  {
    MakeDetects(w, s);
    if Enabled(w, s) && !OfTable(s) {
      DoMarks(w, s);
      DoFits(w, s);
      DoLocal(w, s);
      hide Tallies, Do, Marks, Fits, Registers, Delivers, Reads, HoldsOn, Counts;
      ApplyTallies(w, s.thread, Do(w, s));
    } else {
      TableLines(w, s);
      TableTallies(w, Make(w, s));
    }
  }

  lemma TableTallies(w: World, r: World)
    requires Tallies(w) && Detects(r) && r.submitted == w.submitted
    requires (forall at :: LineOf(r, at) == LineOf(w, at)) && (forall t :: PhaseOf(r, t) == PhaseOf(w, t))
    ensures Tallies(r)
  {
    hide LineOf, PhaseOf, Detects, Above, TellsDrops, LineTallies;
    forall t, at: At | at.occupancy != 0 ensures Registered(r, t, at) { assert Registered(w, t, at); }
    forall t ensures CallTallies(r, PhaseOf(r, t)) { assert CallTallies(w, PhaseOf(w, t)); }
    forall at: At | at.occupancy != 0 ensures HolderAbove(r, at) { assert HolderAbove(w, at); }
  }

  lemma {:induction false} ProducedTallies(steps: seq<Step>)
    ensures Tallies(Produced(steps))
  {
    if steps != [] {
      ProducedTallies(steps[..|steps| - 1]);
      MakeTallies(Produced(steps[..|steps| - 1]), steps[|steps| - 1]);
    }
  }

  // The tail.

  /** Production has stopped: no thread is inside a probe, though calls may be in
      flight, and ones that never return may have left the line held. */
  ghost predicate Stopped(w: World) {
    forall t :: PhaseOf(w, t).Outside? || PhaseOf(w, t).InCall? || PhaseOf(w, t).Unsequenced? || PhaseOf(w, t).Deferred?
  }

  /** A lane that has seen nothing of a line, or last saw one of its events. */
  ghost predicate LastSaw(w: World, at: At, numbered: nat, dropped: nat) {
    || (numbered == 0 && dropped == 0)
    || exists x :: x in w.submitted && EventPlace(x.transfer) == at
                   && x.transfer.sequence.number == numbered && x.transfer.sequence.dropped == dropped
  }

  /** The refused reservations numbered above the last number seen. */
  function RefusedAbove(l: Line, n: nat): set<nat> { set m | m in l.refused && m > n }

  lemma Parted(l: Line, n: nat)
    requires n !in l.refused
    ensures |l.refused| == |RefusedBelow(l, n)| + |RefusedAbove(l, n)|
  {
    assert l.refused == RefusedBelow(l, n) + RefusedAbove(l, n);
  }

  lemma {:induction false} AtMost(ns: set<nat>, from: nat, top: nat)
    requires forall n :: n in ns ==> from < n <= top
    ensures |ns| <= if top > from then top - from else 0
    decreases top
  {
    if top > from {
      var fewer := ns - {top};
      AtMost(fewer, from, top - 1);
      assert ns <= fewer + {top};
      assert |ns| <= |fewer| + 1 by {
        if top in ns { assert ns == fewer + {top}; } else { assert ns == fewer; }
      }
    } else {
      assert ns == {} by { forall n | n in ns ensures false { } }
    }
  }

  /** Every refused number is at or below the last one known returned. */
  lemma RefusedReturned(w: World, at: At)
    requires Tallies(w) && Stopped(w) && at.occupancy != 0 && Orderly(LineOf(w, at))
    ensures forall m :: m in LineOf(w, at).refused ==> 1 <= m <= Capture.LastReturned(TerminalOf(LineOf(w, at)))
  {
    var l := LineOf(w, at);
    assert LineOk(l) && HolderAbove(w, at);
    hide Tallies, LineOf;
    if l.busy != 0 {
      assert !Brief(PhaseOf(w, l.busy));
    }
  }

  /** The counts a settlement goes by are the line's own: every refusal counted,
      and the last event seen told those below it. */
  ghost predicate Tallied(l: Line, lane: Capture.Lane) {
    l.dropped == |l.refused| && lane.numbered !in l.refused && lane.droppedBelow == |RefusedBelow(l, lane.numbered)|
  }

  /** The drops not yet located outnumber the calls known returned above the last
      seen, so the upper clamp cuts them down. */
  predicate ClampBites(lane: Capture.Lane, t: Terminal) {
    t.dropped - lane.droppedBelow > Positive(Capture.LastReturned(t) - lane.numbered)
  }

  function Positive(n: int): nat { if n > 0 then n else 0 }

  /** Wherever the counts tally, the settlement locates exactly the refused above the
      last number seen if and only if its upper clamp changes nothing; and it does
      only where a call is said to be in flight and every number above the last
      seen was refused. */
  lemma LocatedExactly(l: Line, lane: Capture.Lane)
    requires LineOk(l) && Tallied(l, lane)
    ensures var t := TerminalOf(l);
            && (Capture.Located(lane, t, false) == |RefusedAbove(l, lane.numbered)| <==> !ClampBites(lane, t))
            && (ClampBites(lane, t) <==> t.inFlight && 0 < t.dropped - lane.droppedBelow == t.last - lane.numbered)
            && t.dropped - lane.droppedBelow == |RefusedAbove(l, lane.numbered)|
  {
    Parted(l, lane.numbered);
    AtMost(RefusedAbove(l, lane.numbered), lane.numbered, l.taken);
  }

  /** Where no two calls of a direction met the counts tally. */
  lemma OrderlyTallied(w: World, at: At, lane: Capture.Lane)
    requires Tallies(w) && Stopped(w) && at.occupancy != 0 && Orderly(LineOf(w, at))
    requires LastSaw(w, at, lane.numbered, lane.droppedBelow)
    ensures Tallied(LineOf(w, at), lane) && LineOk(LineOf(w, at))
  {
    var l, n := LineOf(w, at), lane.numbered;
    assert LineTallies(l) && LineOk(l);
    assert l.owing == {} by {
      forall t: Thread ensures t !in l.owing { assert Registered(w, t, at); }
    }
    if n == 0 && lane.droppedBelow == 0 {
      assert RefusedBelow(l, 0) == {};
    } else {
      var x :| x in w.submitted && EventPlace(x.transfer) == at && x.transfer.sequence.number == n
               && x.transfer.sequence.dropped == lane.droppedBelow;
      assert TellsDrops(l, x.transfer.sequence);
    }
  }

  /** Exact tail loss. In a direction where no two calls ever met, once production
      stopped: what the settlement locates is the refused reservations above the
      last number seen, whatever other gaps lie below or above; the drops less
      those already located are that number before either clamp, and where no
      number is missing there is none. */
  lemma TailExact(w: World, at: At, lane: Capture.Lane)
    requires Tallies(w) && Stopped(w) && at.occupancy != 0 && Orderly(LineOf(w, at))
    requires LastSaw(w, at, lane.numbered, lane.droppedBelow)
    ensures var l := LineOf(w, at);
            && Capture.Located(lane, TerminalOf(l), false) == |RefusedAbove(l, lane.numbered)|
            && TerminalOf(l).dropped - lane.droppedBelow == |RefusedAbove(l, lane.numbered)|
            && !ClampBites(lane, TerminalOf(l))
  {
    var l, n := LineOf(w, at), lane.numbered;
    RefusedReturned(w, at);
    OrderlyTallied(w, at, lane);
    LocatedExactly(l, lane);
    AtMost(RefusedAbove(l, n), n, Capture.LastReturned(TerminalOf(l)));
  }
}
