/** A release reads the last numbers of the entry it found and then deletes it, and
    calls of other threads go on meanwhile: when its ending is behind an event. */
module Releases {
  import opened Values
  import opened Probe
  import opened Producer
  import opened Numbering
  import TailLoss

  lemma ProducedKeeps(steps: seq<Step>)
    ensures Numbers(Produced(steps))
  {
    hide Numbers, Make;
    TailLoss.ProducedTallies(steps);
    TalliesNumbers(Produced(steps));
  }

  lemma TalliesNumbers(w: World)
    requires TailLoss.Tallies(w)
    ensures Numbers(w)
  {
  }

  // When a number was taken.

  function TakenBy(steps: seq<Step>, i: nat, at: At): nat
    requires i <= |steps|
  {
    LineOf(Produced(steps[..i]), at).taken
  }

  /** That a number of a place was taken at a step. */
  predicate TakenAt(steps: seq<Step>, at: At, n: nat, j: nat) {
    j < |steps| && TakenBy(steps, j, at) < n <= TakenBy(steps, j + 1, at)
  }

  /** That it was taken at a step or after. */
  ghost predicate TakenSince(steps: seq<Step>, at: At, n: nat, i: nat) {
    exists j: nat :: i <= j && TakenAt(steps, at, n, j)
  }

  lemma UpTo(steps: seq<Step>, i: nat)
    requires i < |steps|
    ensures Produced(steps[..i + 1]) == Make(Produced(steps[..i]), steps[i])
  {
    assert steps[..i + 1][..i] == steps[..i];
  }

  lemma {:induction false} TakenGrows(steps: seq<Step>, i: nat, j: nat, at: At)
    requires i <= j <= |steps|
    ensures TakenBy(steps, i, at) <= TakenBy(steps, j, at)
    decreases j - i
  {
    if i < j {
      TakenGrows(steps, i, j - 1, at);
      UpTo(steps, j - 1);
      ProducedKeeps(steps[..j - 1]);
      MakeKeeps(Produced(steps[..j - 1]), steps[j - 1]);
      hide Make, Produced, LineOf;
      assert LineGrows(LineOf(Produced(steps[..j - 1]), at), LineOf(Produced(steps[..j]), at));
    }
  }

  /** A number some call has was taken at one step. */
  lemma {:induction false} TakenOnce(steps: seq<Step>, i: nat, at: At, n: nat)
    requires i <= |steps| && 1 <= n <= TakenBy(steps, i, at)
    ensures exists j: nat :: j < i && TakenAt(steps, at, n, j)
  {
    assert steps[..0] == [];
    if i > 0 {
      if n <= TakenBy(steps, i - 1, at) {
        TakenOnce(steps, i - 1, at, n);
      } else {
        assert TakenAt(steps, at, n, i - 1);
      }
    }
  }

  /** So one is past what was taken by some moment exactly where it was taken after. */
  lemma PastIsSince(steps: seq<Step>, at: At, n: nat, i: nat)
    requires i <= |steps| && n <= TakenBy(steps, |steps|, at)
    ensures n > TakenBy(steps, i, at) <==> TakenSince(steps, at, n, i)
  {
    if n > TakenBy(steps, i, at) {
      TakenOnce(steps, |steps|, at, n);
      var j: nat :| j < |steps| && TakenAt(steps, at, n, j);
      if j < i {
        TakenGrows(steps, j + 1, i, at);
      }
    } else if TakenSince(steps, at, n, i) {
      var j: nat :| i <= j && TakenAt(steps, at, n, j);
      TakenGrows(steps, i, j, at);
    }
  }

  // What a release has read.

  /** Which of a release's reads is the last number of a direction. */
  function ReadOf(d: Direction): nat { if d == Sent then 0 else 1 }

  /** That a thread's release read a direction's last number at a step, and deleted
      the entry at another without having finished between. */
  ghost predicate Releases(steps: seq<Step>, t: Thread, i: nat, k: nat, d: Direction) {
    && i < k < |steps| && steps[i] == Copy(t) && steps[k].Release? && steps[k].thread == t
    && Enabled(Produced(steps[..i]), steps[i]) && Enabled(Produced(steps[..k]), steps[k])
    && Produced(steps[..i]).releases[t].read == ReadOf(d)
    && (forall j :: i < j < k ==> !(steps[j].Release? && steps[j].thread == t))
  }

  /** The ending it sends. */
  function EndingAt(steps: seq<Step>, k: nat): Closing
    requires k < |steps| && steps[k].Release? && Enabled(Produced(steps[..k]), steps[k])
  {
    var c := Produced(steps[..k]).releases[steps[k].thread];
    Closing(steps[k].instance, c.key.endpoint, c.occupancy, Produced(steps[..k]).unlocated, EndingOf(c), steps[k].when)
  }

  predicate Keeps(c: Copying, occupancy: nat, d: Direction, last: nat) {
    c.occupancy == occupancy != 0 && c.read > ReadOf(d) && c.terminals.Of(d).last == last
  }

  lemma KeptOn(w: World, s: Step, t: Thread, occupancy: nat, d: Direction, last: nat)
    requires t in w.releases && Keeps(w.releases[t], occupancy, d, last) && !(s.Release? && s.thread == t)
    ensures t in Make(w, s).releases && Keeps(Make(w, s).releases[t], occupancy, d, last)
  {
    hide Do, LineOf;
  }

  lemma Reads(w: World, t: Thread, d: Direction)
    requires Enabled(w, Copy(t)) && w.releases[t].read == ReadOf(d)
    ensures var at := At(w.releases[t].occupancy, d);
            t in Make(w, Copy(t)).releases && Keeps(Make(w, Copy(t)).releases[t], at.occupancy, d, LineOf(w, at).taken)
  {
    hide LineOf;
  }

  lemma {:induction false} StillKept(steps: seq<Step>, t: Thread, i: nat, k: nat, d: Direction, j: nat)
    requires Releases(steps, t, i, k, d) && i < j <= k
    ensures var w := Produced(steps[..i]);
            var at := At(w.releases[t].occupancy, d);
            && t in Produced(steps[..j]).releases
            && Keeps(Produced(steps[..j]).releases[t], at.occupancy, d, TakenBy(steps, i, at))
  {
    UpTo(steps, j - 1);
    hide Produced;
    if i + 1 == j {
      Reads(Produced(steps[..i]), t, d);
      hide Make, Keeps;
    } else {
      StillKept(steps, t, i, k, d, j - 1);
      hide Make, Keeps, Enabled;
      var at := At(Produced(steps[..i]).releases[t].occupancy, d);
      KeptOn(Produced(steps[..j - 1]), steps[j - 1], t, at.occupancy, d, TakenBy(steps, i, at));
    }
  }

  /** What the ending says of a direction is what was taken when it was read. */
  lemma ReadThen(steps: seq<Step>, t: Thread, i: nat, k: nat, d: Direction)
    requires Releases(steps, t, i, k, d)
    ensures var e := EndingAt(steps, k);
            && e.occupancy != 0 && e.final.known
            && e.final.terminals.Of(d).last == TakenBy(steps, i, At(e.occupancy, d))
  {
    StillKept(steps, t, i, k, d, k);
  }

  // After the delete.

  /** Handles are in occupancies of their own, found so by releases too. */
  ghost predicate Entered(w: World) {
    && (forall h :: h in w.table ==> Named(w, w.table[h], h))
    && (forall t :: t in w.releases && w.releases[t].occupancy != 0 ==>
          Named(w, w.releases[t].occupancy, HandleOf(w.releases[t].key)))
  }

  predicate Named(w: World, id: nat, handle: (Namespace, int, nat)) {
    1 <= id <= w.ids && id in w.occupancies && HandleOf(w.occupancies[id].key) == handle
  }

  lemma MakeEntered(w: World, s: Step)
    requires Entered(w)
    ensures Entered(Make(w, s)) && w.ids <= Make(w, s).ids
  {
    hide Do, CopyIn;
    if s.Copy? && Enabled(w, s) {
      CopyKeeps(w, w.releases[s.thread]);
    }
  }

  lemma CopyKeeps(w: World, c: Copying)
    ensures CopyIn(w, c).occupancy == c.occupancy && CopyIn(w, c).key == c.key
  {
  }

  lemma {:induction false} ProducedEntered(steps: seq<Step>)
    ensures Entered(Produced(steps))
  {
    hide Entered, Make;
    if steps == [] {
      NothingEntered();
    } else {
      ProducedEntered(steps[..|steps| - 1]);
      MakeEntered(Produced(steps[..|steps| - 1]), steps[|steps| - 1]);
    }
  }

  lemma NothingEntered()
    ensures Entered(Quiet)
  {
  }

  /** That a return of a number of a place had read its place, submitted or not. */
  ghost predicate HadRead(w: World, at: At, n: nat) {
    || (exists x :: x in w.submitted && EventPlace(x.transfer) == at && x.transfer.sequence.number == n)
    || (exists t :: PhaseOf(w, t).Returning? && PhaseOf(w, t).reading.at == at && PhaseOf(w, t).reading.number == n)
  }

  /** That an occupancy is over since some moment: no handle is in it, and every event
      of it, submitted or still to be, is of a return that had read its place then. */
  ghost predicate Shut(was: World, w: World, id: nat) {
    && id <= w.ids && id !in w.table.Values
    && (forall x :: x in w.submitted && EventPlace(x.transfer).occupancy == id ==>
          HadRead(was, EventPlace(x.transfer), x.transfer.sequence.number))
    && (forall t :: PhaseOf(w, t).Returning? && PhaseOf(w, t).reading.at.occupancy == id ==>
          HadRead(was, PhaseOf(w, t).reading.at, PhaseOf(w, t).reading.number))
  }

  /** A return reads the place of an occupancy its handle is still in. */
  lemma ReadsHeld(w: World, s: Step)
    requires Enabled(w, s) && !OfTable(s)
    ensures var p, q := PhaseOf(w, s.thread), Do(w, s).phase;
            q.Returning? && q.reading.at.occupancy != 0 ==> q == p || q.reading.at.occupancy in w.table.Values
  {
    hide LineOf, EnterEffect, HoldEffect, TakeEffect, EmitEffect;
    var p := PhaseOf(w, s.thread);
    match s
    case Enter(_, key, d, counted) => EntersElsewhere(w, key, d, counted);
    case Emit(t, reserved, carried) => EmitsElsewhere(w, t, p.reading, reserved, carried);
    case Hold(t) => HoldsElsewhere(w, t, p.key, p.at);
    case Take(t) => TakesElsewhere(w, t, p.key, p.at);
    case _ =>
  }

  lemma EntersElsewhere(w: World, key: StreamKey, d: Direction, counted: bool)
    ensures !EnterEffect(w, key, d, counted).phase.Returning?
  {
  }

  lemma HoldsElsewhere(w: World, t: Thread, key: StreamKey, at: At)
    ensures !HoldEffect(w, t, key, at).phase.Returning?
  {
  }

  lemma TakesElsewhere(w: World, t: Thread, key: StreamKey, at: At)
    ensures !TakeEffect(w, t, key, at).phase.Returning?
  {
  }

  lemma EmitsElsewhere(w: World, t: Thread, r: Reading, reserved: bool, carried: Transfer)
    ensures !EmitEffect(w, t, r, reserved, carried).phase.Returning?
  {
  }

  /** What an event submitted says of the call it returns from. */
  predicate OfCall(p: Phase, x: Transfer) {
    && p.Returning? && EventPlace(x) == p.reading.at
    && (p.reading.at.occupancy != 0 ==> x.sequence.number == p.reading.number)
  }

  lemma AppliedShut(was: World, w: World, t: Thread, e: Effect, id: nat)
    requires id != 0 && Shut(was, w, id)
    requires e.phase.Returning? && e.phase.reading.at.occupancy != 0 ==>
               e.phase == PhaseOf(w, t) || e.phase.reading.at.occupancy in w.table.Values
    requires forall x :: x in e.submitted ==> OfCall(PhaseOf(w, t), x.transfer)
    ensures Shut(was, Apply(w, t, e), id)
  {
    ApplyLines(w, t, e);
    hide PhaseOf, EventPlace, HadRead, LineOf;
  }

  lemma TableShut(was: World, w: World, s: Step, id: nat)
    requires id != 0 && Shut(was, w, id) && (Enabled(w, s) ==> OfTable(s))
    ensures Shut(was, Make(w, s), id)
  {
    TableLines(w, s);
    var r := Make(w, s);
    forall h | h in r.table ensures r.table[h] != id {
      if h in w.table { assert w.table[h] in w.table.Values; }
    }
    hide PhaseOf, EventPlace, HadRead, LineOf, Make, Enabled;
  }

  lemma MakeShut(was: World, w: World, s: Step, id: nat)
    requires id != 0 && Shut(was, w, id) && TailLoss.Tallies(w)
    ensures Shut(was, Make(w, s), id)
  {
    hide Shut, Do, TailLoss.Tallies, TailLoss.Registers, TailLoss.Reads, TailLoss.HoldsOn, TailLoss.Counts, LineOf;
    if Enabled(w, s) && !OfTable(s) {
      ReadsHeld(w, s);
      TailLoss.DoLocal(w, s);
      assert TailLoss.Delivers(w, PhaseOf(w, s.thread), Do(w, s));
      AppliedShut(was, w, s.thread, Do(w, s), id);
    } else {
      TableShut(was, w, s, id);
    }
  }

  /** The delete leaves no handle in the occupancy it ends. */
  lemma Deletes(w: World, s: Step)
    requires s.Release? && Enabled(w, s) && Entered(w) && w.releases[s.thread].occupancy != 0
    ensures Shut(w, Make(w, s), w.releases[s.thread].occupancy)
  {
    var r, c := Make(w, s), w.releases[s.thread];
    assert Named(w, c.occupancy, HandleOf(c.key));
    forall h | h in r.table ensures r.table[h] != c.occupancy { assert Named(w, w.table[h], h); }
    forall x | x in r.submitted ensures HadRead(w, EventPlace(x.transfer), x.transfer.sequence.number) {
      assert x in w.submitted;
    }
    forall t | PhaseOf(r, t).Returning? ensures HadRead(w, PhaseOf(r, t).reading.at, PhaseOf(r, t).reading.number) {
      assert PhaseOf(w, t) == PhaseOf(r, t);
    }
  }

  lemma {:induction false} ShutOn(steps: seq<Step>, k: nat, j: nat)
    requires k < j <= |steps| && steps[k].Release? && Enabled(Produced(steps[..k]), steps[k])
    requires Produced(steps[..k]).releases[steps[k].thread].occupancy != 0
    ensures var w := Produced(steps[..k]);
            Shut(w, Produced(steps[..j]), w.releases[steps[k].thread].occupancy)
  {
    UpTo(steps, j - 1);
    hide Shut, Make, Produced;
    if j == k + 1 {
      ProducedEntered(steps[..k]);
      Deletes(Produced(steps[..k]), steps[k]);
    } else {
      ShutOn(steps, k, j - 1);
      TailLoss.ProducedTallies(steps[..j - 1]);
      var w := Produced(steps[..k]);
      MakeShut(w, Produced(steps[..j - 1]), steps[j - 1], w.releases[steps[k].thread].occupancy);
    }
  }

  // The exact condition.

  /** An event of a direction of the ended occupancy numbered past the ending's last. */
  predicate Past(e: Closing, d: Direction, x: Transfer) {
    EventPlace(x) == At(e.occupancy, d) && x.sequence.number > e.final.terminals.Of(d).last
  }

  /** Of every run with a release in it: its ending is behind an event of a direction
      exactly where the event's number was taken after the release had read that
      direction; and then the call had read its place before the delete, so that
      nothing taken later is ever an event of the occupancy. */
  lemma BehindExactly(steps: seq<Step>, t: Thread, i: nat, k: nat, d: Direction, x: Submission)
    requires Releases(steps, t, i, k, d) && x in Produced(steps).submitted
    requires EventPlace(x.transfer) == At(EndingAt(steps, k).occupancy, d)
    ensures var e, n := EndingAt(steps, k), x.transfer.sequence.number;
            && e in Produced(steps[..k + 1]).closings
            && (Past(e, d, x.transfer) <==> TakenSince(steps, EventPlace(x.transfer), n, i))
            && HadRead(Produced(steps[..k]), EventPlace(x.transfer), n)
  {
    var at := EventPlace(x.transfer);
    ReadThen(steps, t, i, k, d);
    UpTo(steps, k);
    assert steps[..|steps|] == steps;
    ProducedKeeps(steps);
    assert EventOk(LineOf(Produced(steps), at), x.transfer) && LineOk(LineOf(Produced(steps), at));
    PastIsSince(steps, at, x.transfer.sequence.number, i);
    ShutOn(steps, k, |steps|);
    hide Produced, HadRead;
  }

  // And it happens: a call that found the entry goes on while the release reads it.

  /** One thread enters; another releases the handle, and has read the entry whole
      when the first takes its number and is delivered. */
  function Overtaking(key: StreamKey, d: Direction, bytes: nat, carried: Transfer, when: Time, instance: Instance)
    : seq<Step>
  {
    [Begin(key, true), Enter(2, key, d, true), Find(1, key), Copy(1), Copy(1), Copy(1), Copy(1),
     Hold(2), Take(2), Record(2, true), Return(2, bytes, true), Emit(2, true, carried),
     Release(1, when, instance)]
  }

  lemma Listed(key: StreamKey, d: Direction, bytes: nat, carried: Transfer, when: Time, instance: Instance)
    ensures var s := Overtaking(key, d, bytes, carried, when, instance);
            && |s| == 13 && s[0] == Begin(key, true) && s[1] == Enter(2, key, d, true) && s[2] == Find(1, key)
            && (forall i :: 3 <= i < 7 ==> s[i] == Copy(1))
            && s[7] == Hold(2) && s[8] == Take(2) && s[9] == Record(2, true) && s[10] == Return(2, bytes, true)
            && s[11] == Emit(2, true, carried) && s[12] == Release(1, when, instance)
            && (forall i :: 3 <= i < 12 ==> !s[i].Release?)
  {
  }

  /** The table with one occupancy of a handle, and one thread's place in it. */
  function Inside(key: StreamKey, p: Phase): World {
    Quiet.(ids := 1, table := map[HandleOf(key) := 1], occupancies := map[1 := Occupancy(key, true, 0)],
           threads := map[2 := p], lines := map[Nowhere := FreshLine])
  }

  function Reading(key: StreamKey, p: Phase, read: nat): World {
    Inside(key, p).(releases := map[1 := Copying(key, 1, read, NoTerminals)])
  }

  lemma Comes(key: StreamKey, d: Direction)
    ensures Make(Make(Quiet, Begin(key, true)), Enter(2, key, d, true)) == Inside(key, Entering(key, At(1, d)))
  {
  }

  lemma Finds(key: StreamKey, p: Phase)
    ensures Make(Inside(key, p), Find(1, key)) == Reading(key, p, 0)
  {
  }

  lemma CopiesNothing(key: StreamKey, p: Phase, read: nat)
    requires read < READS
    ensures Make(Reading(key, p, read), Copy(1)) == Reading(key, p, read + 1)
  {
    assert CopyIn(Reading(key, p, read), Copying(key, 1, read, NoTerminals)) == Copying(key, 1, read + 1, NoTerminals);
  }

  lemma Found(key: StreamKey, d: Direction, bytes: nat, carried: Transfer, when: Time, instance: Instance)
    ensures var s := Overtaking(key, d, bytes, carried, when, instance);
            Produced(s[..3]) == Reading(key, Entering(key, At(1, d)), 0)
  {
    var s := Overtaking(key, d, bytes, carried, when, instance);
    Listed(key, d, bytes, carried, when, instance);
    assert Produced(s[..0]) == Quiet;
    hide Produced, Make, Reading, Inside, Overtaking;
    UpTo(s, 0);
    UpTo(s, 1);
    Comes(key, d);
    UpTo(s, 2);
    Finds(key, Entering(key, At(1, d)));
  }

  lemma {:induction false} Copied(key: StreamKey, d: Direction, bytes: nat, carried: Transfer, when: Time,
                                  instance: Instance, read: nat)
    requires read <= READS
    ensures var s := Overtaking(key, d, bytes, carried, when, instance);
            Produced(s[..3 + read]) == Reading(key, Entering(key, At(1, d)), read)
  {
    var s := Overtaking(key, d, bytes, carried, when, instance);
    hide Produced, Make, Reading, Overtaking;
    if read == 0 {
      Found(key, d, bytes, carried, when, instance);
    } else {
      Copied(key, d, bytes, carried, when, instance, read - 1);
      assert |s| == 13 && s[2 + read] == Copy(1) by { Listed(key, d, bytes, carried, when, instance); }
      UpTo(s, 2 + read);
      CopiesNothing(key, Entering(key, At(1, d)), read - 1);
    }
  }

  /** A thread inside, the release waiting to delete. */
  function Waiting(key: StreamKey, p: Phase, at: At, l: Line): World {
    Inside(key, p).(lines := map[Nowhere := FreshLine, at := l], releases := map[1 := Copying(key, 1, 4, NoTerminals)])
  }

  lemma HoldsMeanwhile(key: StreamKey, at: At)
    requires at.occupancy != 0
    ensures Make(Reading(key, Entering(key, at), 4), Hold(2)) == Waiting(key, Held(key, at), at, FreshLine.(busy := 2))
  {
  }

  lemma TakesMeanwhile(key: StreamKey, at: At)
    requires at.occupancy != 0
    ensures Make(Waiting(key, Held(key, at), at, FreshLine.(busy := 2)), Take(2))
            == Waiting(key, Numbered(key, at, 1), at, FreshLine.(taken := 1, busy := 2, held := 1))
  {
  }

  lemma ReturnsMeanwhile(key: StreamKey, d: Direction, bytes: nat, carried: Transfer)
    ensures var at := At(1, d);
            var called := Waiting(key, InCall(key, at, 1), at, FreshLine.(taken := 1, busy := 2, held := 1));
            var w := Make(Make(called, Return(2, bytes, true)), Emit(2, true, carried));
            && |w.submitted| == 1 && EventPlace(w.submitted[0].transfer) == at
            && w.submitted[0].transfer.sequence.number == 1
            && w.releases == map[1 := Copying(key, 1, 4, NoTerminals)]
  {
  }

  lemma DeliveredMeanwhile(key: StreamKey, d: Direction, bytes: nat, carried: Transfer, when: Time, instance: Instance)
    ensures var s := Overtaking(key, d, bytes, carried, when, instance);
            var w, at := Produced(s[..12]), At(1, d);
            && |w.submitted| == 1 && EventPlace(w.submitted[0].transfer) == at
            && w.submitted[0].transfer.sequence.number == 1
            && w.releases == map[1 := Copying(key, 1, 4, NoTerminals)]
  {
    var s, at := Overtaking(key, d, bytes, carried, when, instance), At(1, d);
    var l := FreshLine.(taken := 1, busy := 2, held := 1);
    hide Produced, Make, Reading, Waiting, EventPlace, Overtaking;
    Listed(key, d, bytes, carried, when, instance);
    Copied(key, d, bytes, carried, when, instance, READS);
    UpTo(s, 7);
    UpTo(s, 8);
    HoldsMeanwhile(key, at);
    TakesMeanwhile(key, at);
    UpTo(s, 9);
    Recorded(key, at, l);
    UpTo(s, 10);
    UpTo(s, 11);
    ReturnsMeanwhile(key, d, bytes, carried);
  }

  lemma Recorded(key: StreamKey, at: At, l: Line)
    requires at.occupancy != 0
    ensures Make(Waiting(key, Numbered(key, at, 1), at, l), Record(2, true)) == Waiting(key, InCall(key, at, 1), at, l)
  {
  }

  lemma Sends(w: World, key: StreamKey, when: Time, instance: Instance)
    requires instance.key == key.instance && w.releases == map[1 := Copying(key, 1, 4, NoTerminals)]
    ensures var s, r := Release(1, when, instance), Make(w, Release(1, when, instance));
            && Enabled(w, s) && r.submitted == w.submitted
            && Closing(instance, key.endpoint, 1, w.unlocated, Final(true, NoTerminals, false), when) in r.closings
  {
  }

  /** For every handle, direction and length: the ending is sent with no call in
      flight and nothing taken, and the event numbered one is on the ring. */
  lemma TakenInTheGap(key: StreamKey, d: Direction, bytes: nat, carried: Transfer, when: Time, instance: Instance)
    requires instance.key == key.instance
    ensures var s := Overtaking(key, d, bytes, carried, when, instance);
            && Releases(s, 1, 3 + ReadOf(d), 12, d)
            && (var e, w := EndingAt(s, 12), Produced(s);
                && e in w.closings && e.final == Final(true, NoTerminals, false)
                && |w.submitted| == 1 && Past(e, d, w.submitted[0].transfer))
  {
    var s := Overtaking(key, d, bytes, carried, when, instance);
    hide Produced, Make, EventPlace, Overtaking;
    Listed(key, d, bytes, carried, when, instance);
    assert s[..13] == s;
    Copied(key, d, bytes, carried, when, instance, ReadOf(d));
    DeliveredMeanwhile(key, d, bytes, carried, when, instance);
    UpTo(s, 12);
    Sends(Produced(s[..12]), key, when, instance);
  }
}
