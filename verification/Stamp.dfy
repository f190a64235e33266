/** The retained admission stamp of one execution: any number of threads read it,
    check the grant and swap, while grants of this and other executions are
    installed under its number, removed, and taken and put back by userspace. */
module Stamp {
  import opened Values

  type Thread = nat
  type Generation = g: nat | g > 0 witness 1

  /** A grant is of the execution whose birth it was written for. */
  datatype Grant = Grant(generation: Generation, birth: nat)

  /** A thread stamping its event's generation: what it read, then that its grant
      still stood. */
  datatype Stamping = Idle | Read(generation: Generation, before: nat) | Checked(generation: Generation, before: nat)

  /** running is the birth of the execution the holder is kept for; stamp is zero
      until one is retained; installed is every grant installed under its number,
      in order; aside is a grant userspace took and may put back; retained is every
      stamp that was stored, in order. */
  datatype Holder = Holder(
    running: nat,
    stamp: nat,
    grant: Option<Grant>,
    installed: seq<Grant>,
    aside: Option<Grant>,
    threads: map<Thread, Stamping>,
    retained: seq<Generation>)

  function Unheld(running: nat): Holder { Holder(running, 0, None, [], None, map[], []) }

  datatype Step =
    | Install(grant: Grant)
    | Remove
    | Take
    | Restore
    | Look(thread: Thread, generation: Generation)
    | Check(thread: Thread)
    | Swap(thread: Thread)

  function At(h: Holder, t: Thread): Stamping { if t in h.threads then h.threads[t] else Idle }

  function Put(h: Holder, t: Thread, s: Stamping): Holder { h.(threads := h.threads[t := s]) }

  /** Whether a generation was installed, under whatever birth. */
  ghost predicate Known(installed: seq<Grant>, g: nat) {
    exists i :: 0 <= i < |installed| && installed[i].generation == g
  }

  /** A swap that lost may look again, as often as it likes or not at all.
      Generations are never reused, and an event's is one that was installed. */
  ghost predicate Enabled(h: Holder, s: Step) {
    match s
    case Install(g) => !Known(h.installed, g.generation)
    case Remove => true
    case Take => h.aside.None?
    case Restore => h.aside.Some?
    case Look(t, g) => At(h, t).Idle? && Known(h.installed, g)
    case Check(t) => At(h, t).Read?
    case Swap(t) => At(h, t).Checked?
  }

  /** Whether a grant is in force for the running execution: a birth of zero
      authenticates nothing. */
  predicate Authentic(h: Holder, a: Grant) { h.running != 0 && a.birth == h.running }

  /** The grant the check reads, if it stands for this execution and generation. */
  predicate Stands(h: Holder, g: Generation) {
    h.grant.Some? && Authentic(h, h.grant.value) && h.grant.value.generation == g
  }

  ghost function Next(h: Holder, s: Step): Holder
    requires Enabled(h, s)
  {
    match s
    case Install(g) => h.(grant := Some(g), installed := h.installed + [g])
    case Remove => h.(grant := None)
    case Take => h.(grant := None, aside := h.grant)
    case Restore => h.(grant := if h.grant.None? then h.aside else h.grant, aside := None)
    case Look(t, g) => if h.stamp == g then h else Put(h, t, Read(g, h.stamp))
    case Check(t) =>
      var p := At(h, t);
      Put(h, t, if Stands(h, p.generation) then Checked(p.generation, p.before) else Idle)
    case Swap(t) =>
      var p := At(h, t);
      if h.stamp == p.before then Put(h.(stamp := p.generation, retained := h.retained + [p.generation]), t, Idle)
      else Put(h, t, Idle)
  }

  ghost function Make(h: Holder, s: Step): Holder { if Enabled(h, s) then Next(h, s) else h }

  ghost function Made(h: Holder, steps: seq<Step>): Holder {
    if steps == [] then h else Make(Made(h, steps[..|steps| - 1]), steps[|steps| - 1])
  }

  /** When a generation was installed. */
  ghost predicate Before(installed: seq<Grant>, a: nat, b: nat) {
    exists i, j :: 0 <= i < j < |installed| && installed[i].generation == a && installed[j].generation == b
  }

  /** The stamps retained follow the order their grants were installed in. */
  ghost predicate InOrder(h: Holder) {
    forall i, j :: 0 <= i < j < |h.retained| ==> Before(h.installed, h.retained[i], h.retained[j])
  }

  // When a grant may be put back.

  /** A thread that has checked, and whose swap would still succeed. */
  predicate Live(h: Holder, p: Stamping) { p.Checked? && p.before == h.stamp }

  /** A grant behind the stamp, or behind one about to be stored. */
  ghost predicate Behind(h: Holder, a: Grant) {
    || Before(h.installed, a.generation, h.stamp)
    || exists t :: Live(h, At(h, t)) && Before(h.installed, a.generation, At(h, t).generation)
  }

  /** Whether a step puts back a grant of the running execution behind a newer one. */
  ghost predicate PutsBackBehind(h: Holder, s: Step) {
    s.Restore? && h.grant.None? && h.aside.Some? && Authentic(h, h.aside.value) && Behind(h, h.aside.value)
  }

  ghost predicate NoneBehind(h: Holder, steps: seq<Step>) {
    forall i :: 0 <= i < |steps| ==> !PutsBackBehind(Made(h, steps[..i]), steps[i])
  }

  // The invariant.

  ghost predicate Distinct(h: Holder) {
    forall i, j :: 0 <= i < j < |h.installed| ==> h.installed[i].generation != h.installed[j].generation
  }

  predicate Retained(h: Holder, g: nat) { g == 0 || g in h.retained }

  ghost predicate ThreadOk(h: Holder, p: Stamping) {
    match p
    case Idle => true
    case Read(g, before) => before != g && Retained(h, before)
    case Checked(g, before) =>
      Retained(h, before) && Known(h.installed, g) && (before == 0 || Before(h.installed, before, g))
  }

  ghost predicate Ordered(h: Holder) {
    && Distinct(h) && InOrder(h)
    && (forall i :: 0 <= i < |h.retained| ==> Known(h.installed, h.retained[i]))
    && h.stamp == (if h.retained == [] then 0 else h.retained[|h.retained| - 1])
    && (forall t :: ThreadOk(h, At(h, t)))
    && (h.grant.Some? ==> Known(h.installed, h.grant.value.generation))
    && (h.aside.Some? ==> Known(h.installed, h.aside.value.generation))
    && (h.grant.Some? && Authentic(h, h.grant.value) ==> !Behind(h, h.grant.value))
  }

  // The order grants were installed in.

  lemma BeforeStrict(h: Holder, a: nat, b: nat)
    requires Distinct(h) && Before(h.installed, a, b)
    ensures a != b && !Before(h.installed, b, a)
  {
  }

  lemma BeforeTransitive(h: Holder, a: nat, b: nat, c: nat)
    requires Distinct(h) && Before(h.installed, a, b) && Before(h.installed, b, c)
    ensures Before(h.installed, a, c)
  {
  }

  lemma BeforeTotal(h: Holder, a: nat, b: nat)
    requires Known(h.installed, a) && Known(h.installed, b) && a != b
    ensures Before(h.installed, a, b) || Before(h.installed, b, a)
  {
    var i :| 0 <= i < |h.installed| && h.installed[i].generation == a;
    var j :| 0 <= j < |h.installed| && h.installed[j].generation == b;
    assert h.installed[i].generation == a && h.installed[j].generation == b;
  }

  lemma BeforeGrown(installed: seq<Grant>, g: Grant, a: nat, b: nat)
    ensures Before(installed, a, b) ==> Before(installed + [g], a, b)
    ensures Known(installed, a) ==> Known(installed + [g], a)
    ensures Before(installed + [g], a, b) ==> Before(installed, a, b) || b == g.generation
  {
    var more := installed + [g];
    if Before(installed, a, b) {
      var i, j :| 0 <= i < j < |installed| && installed[i].generation == a && installed[j].generation == b;
      assert more[i] == installed[i] && more[j] == installed[j];
    }
    if Known(installed, a) {
      var i :| 0 <= i < |installed| && installed[i].generation == a;
      assert more[i] == installed[i];
    }
    if Before(more, a, b) && b != g.generation {
      var i, j :| 0 <= i < j < |more| && more[i].generation == a && more[j].generation == b;
      assert more[i] == installed[i] && more[j] == installed[j];
    }
  }

  /** Every stamp ever retained is the last, or was installed before it. */
  lemma RetainedNoLater(h: Holder, g: nat)
    requires Ordered(h) && g in h.retained
    ensures g == h.stamp || Before(h.installed, g, h.stamp)
  {
    var i :| 0 <= i < |h.retained| && h.retained[i] == g;
    if i < |h.retained| - 1 {
      assert Before(h.installed, h.retained[i], h.retained[|h.retained| - 1]);
    }
  }

  // Each step.

  lemma NewestLast(installed: seq<Grant>, g: Grant, b: nat)
    requires !Known(installed, g.generation)
    ensures !Before(installed + [g], g.generation, b) && Known(installed + [g], g.generation)
  {
    assert (installed + [g])[|installed|] == g;
  }

  lemma InstallOrdered(h: Holder, g: Grant)
    requires Ordered(h) && Enabled(h, Install(g))
    ensures Ordered(Next(h, Install(g)))
  {
    var r := Next(h, Install(g));
    InstallDistinct(h, g);
    hide Distinct;
    forall a, b ensures Before(h.installed, a, b) ==> Before(r.installed, a, b) { BeforeGrown(h.installed, g, a, b); }
    forall a ensures Known(h.installed, a) ==> Known(r.installed, a) { BeforeGrown(h.installed, g, a, a); }
    forall b ensures !Before(r.installed, g.generation, b) && Known(r.installed, g.generation) {
      NewestLast(h.installed, g, b);
    }
    hide Before, Known;
    forall t ensures ThreadOk(r, At(r, t)) { assert ThreadOk(h, At(h, t)); }
    assert InOrder(r) && !Behind(r, g);
  }

  lemma InstallDistinct(h: Holder, g: Grant)
    requires Distinct(h) && Enabled(h, Install(g))
    ensures Distinct(Next(h, Install(g)))
  {
  }

  lemma GrantsOrdered(h: Holder, s: Step)
    requires Ordered(h) && Enabled(h, s) && (s.Remove? || s.Take? || s.Restore?) && !PutsBackBehind(h, s)
    ensures Ordered(Next(h, s))
  {
    var r := Next(h, s);
    assert forall t :: At(r, t) == At(h, t);
    hide Distinct, InOrder, Before, Known;
    forall t ensures ThreadOk(r, At(r, t)) { assert ThreadOk(h, At(h, t)); }
    assert forall a :: Behind(r, a) == Behind(h, a);
  }

  lemma LookOrdered(h: Holder, t: Thread, g: Generation)
    requires Ordered(h) && Enabled(h, Look(t, g))
    ensures Ordered(Next(h, Look(t, g)))
  {
    var r := Next(h, Look(t, g));
    hide Distinct, InOrder, Before, Known;
    assert h.retained != [] ==> h.retained[|h.retained| - 1] in h.retained;
    assert forall u :: u != t ==> At(r, u) == At(h, u);
    forall u ensures ThreadOk(r, At(r, u)) { assert ThreadOk(h, At(h, u)); }
    assert forall a :: Behind(r, a) ==> Behind(h, a);
  }

  /** A check that passes: what was read before is older than the grant standing. */
  lemma CheckedLater(h: Holder, p: Stamping)
    requires Ordered(h) && p.Read? && ThreadOk(h, p) && Stands(h, p.generation) && p.before != 0
    ensures Before(h.installed, p.before, p.generation)
  {
    var a := h.grant.value;
    RetainedNoLater(h, p.before);
    var i :| 0 <= i < |h.retained| && h.retained[i] == p.before;
    assert Known(h.installed, p.before) && Known(h.installed, h.stamp);
    assert !Behind(h, a);
    hide Known, InOrder, ThreadOk;
    if h.stamp != p.generation {
      BeforeTotal(h, h.stamp, p.generation);
      if p.before != h.stamp {
        BeforeTransitive(h, p.before, h.stamp, p.generation);
      }
    }
  }

  lemma CheckOrdered(h: Holder, t: Thread)
    requires Ordered(h) && Enabled(h, Check(t))
    ensures Ordered(Next(h, Check(t)))
  {
    var r, p := Next(h, Check(t)), At(h, t);
    assert ThreadOk(h, p);
    if Stands(h, p.generation) {
      if p.before != 0 { CheckedLater(h, p); }
      if Before(h.installed, p.generation, p.generation) { BeforeStrict(h, p.generation, p.generation); }
    }
    hide Distinct, InOrder, Before, Known;
    assert forall u :: u != t ==> At(r, u) == At(h, u);
    forall u ensures ThreadOk(r, At(r, u)) { assert ThreadOk(h, At(h, u)); }
  }

  lemma SwapInOrder(h: Holder, t: Thread)
    requires Ordered(h) && Live(h, At(h, t))
    ensures InOrder(Next(h, Swap(t)))
  {
    var r, p := Next(h, Swap(t)), At(h, t);
    assert ThreadOk(h, p);
    hide ThreadOk, Known;
    forall i, j | 0 <= i < j < |r.retained| ensures Before(r.installed, r.retained[i], r.retained[j]) {
      if j == |h.retained| && i < j - 1 {
        assert Before(h.installed, h.retained[i], h.retained[j - 1]);
        BeforeTransitive(h, r.retained[i], h.stamp, p.generation);
      }
    }
  }

  /** Once a stamp is stored no other check made before it can still succeed. */
  lemma NoneLive(h: Holder, t: Thread, u: Thread)
    requires Ordered(h) && Live(h, At(h, t)) && u != t
    ensures var r := Next(h, Swap(t)); !Live(r, At(r, u))
  {
    var p, q := At(h, t), At(h, u);
    assert ThreadOk(h, p) && ThreadOk(h, q);
    if q.Checked? && q.before == p.generation {
      RetainedNoLater(h, q.before);
      BeforeStrict(h, h.stamp, p.generation);
    }
  }

  lemma SwapOrdered(h: Holder, t: Thread)
    requires Ordered(h) && Enabled(h, Swap(t))
    ensures Ordered(Next(h, Swap(t)))
  {
    var r, p := Next(h, Swap(t)), At(h, t);
    assert ThreadOk(h, p);
    assert forall u :: u != t ==> At(r, u) == At(h, u);
    forall u ensures ThreadOk(r, At(r, u)) { assert ThreadOk(h, At(h, u)); }
    if Live(h, p) {
      SwapInOrder(h, t);
      forall u ensures !Live(r, At(r, u)) { if u != t { NoneLive(h, t, u); } }
    }
    hide Distinct, InOrder, Before, Known;
    assert r.grant.Some? && Authentic(r, r.grant.value) ==> !Behind(r, r.grant.value);
  }

  lemma NextOrdered(h: Holder, s: Step)
    requires Ordered(h) && Enabled(h, s) && !PutsBackBehind(h, s)
    ensures Ordered(Next(h, s))
  {
    hide Ordered, Next, PutsBackBehind;
    match s
    case Install(g) => InstallOrdered(h, g);
    case Look(t, g) => LookOrdered(h, t, g);
    case Check(t) => CheckOrdered(h, t);
    case Swap(t) => SwapOrdered(h, t);
    case Remove => GrantsOrdered(h, s);
    case Take => GrantsOrdered(h, s);
    case Restore => GrantsOrdered(h, s);
  }

  lemma {:induction false} MadeOrdered(h: Holder, steps: seq<Step>)
    requires Ordered(h) && NoneBehind(h, steps)
    ensures Ordered(Made(h, steps))
  {
    hide Ordered, PutsBackBehind;
    if steps != [] {
      var fewer, s := steps[..|steps| - 1], steps[|steps| - 1];
      FewerBehind(h, steps);
      MadeOrdered(h, fewer);
      if Enabled(Made(h, fewer), s) { NextOrdered(Made(h, fewer), s); }
    }
  }

  lemma FewerBehind(h: Holder, steps: seq<Step>)
    requires NoneBehind(h, steps) && steps != []
    ensures NoneBehind(h, steps[..|steps| - 1]) && !PutsBackBehind(Made(h, steps[..|steps| - 1]), steps[|steps| - 1])
  {
    hide PutsBackBehind;
    var fewer := steps[..|steps| - 1];
    forall i | 0 <= i < |fewer| ensures !PutsBackBehind(Made(h, fewer[..i]), fewer[i]) {
      assert fewer[..i] == steps[..i];
    }
  }

  /** In every interleaving in which no grant of the running execution is put back
      behind the stamp or behind one about to be stored, a stamp never goes
      backwards: each retained after another was installed after it. Grants of
      other executions may be put back wherever they like. */
  lemma StampNeverBackwards(running: nat, steps: seq<Step>)
    requires NoneBehind(Unheld(running), steps)
    ensures InOrder(Made(Unheld(running), steps))
  {
    hide NoneBehind;
    assert Ordered(Unheld(running));
    MadeOrdered(Unheld(running), steps);
  }

  // The other way.

  /** Wherever a grant of the running execution stands behind the stamp, one more
      event reverses the order. */
  lemma OlderGrantReverses(h: Holder, t: Thread)
    requires Distinct(h) && At(h, t).Idle? && h.grant.Some? && Authentic(h, h.grant.value)
    requires Before(h.installed, h.grant.value.generation, h.stamp)
    requires h.retained != [] && h.retained[|h.retained| - 1] == h.stamp
    ensures var g := h.grant.value.generation;
            !InOrder(Make(Make(Make(h, Look(t, g)), Check(t)), Swap(t)))
  {
    var g := h.grant.value.generation;
    BeforeStrict(h, g, h.stamp);
    assert Known(h.installed, g);
    hide Before, Known, Distinct;
    var r := Make(Make(Make(h, Look(t, g)), Check(t)), Swap(t));
    assert r.retained == h.retained + [g] && r.installed == h.installed;
    assert r.retained[|h.retained| - 1] == h.stamp && r.retained[|h.retained|] == g;
  }

  /** Only what further events do: they look, check and swap. */
  predicate EventsOnly(steps: seq<Step>) {
    forall i :: 0 <= i < |steps| ==> steps[i].Look? || steps[i].Check? || steps[i].Swap?
  }

  lemma {:induction false} SpareThread(used: set<Thread>) returns (t: Thread)
    ensures t !in used && forall u :: u in used ==> u < t
    decreases |used|
  {
    if used == {} {
      t := 0;
    } else {
      var u :| u in used;
      var rest := SpareThread(used - {u});
      assert forall v :: v in used ==> v == u || v in used - {u};
      t := if u < rest then rest else u + 1;
    }
  }

  lemma MadeMore(h: Holder, steps: seq<Step>, s: Step)
    ensures Made(h, steps + [s]) == Make(Made(h, steps), s)
  {
    assert (steps + [s])[..|steps|] == steps;
  }

  /** Putting one back behind lets events alone reverse the order. */
  lemma StampBehind(h: Holder) returns (more: seq<Step>)
    requires Ordered(h) && PutsBackBehind(h, Restore) && Before(h.installed, h.aside.value.generation, h.stamp)
    ensures EventsOnly(more) && !InOrder(Made(Next(h, Restore), more))
  {
    var r, g := Next(h, Restore), h.aside.value.generation;
    assert forall t :: At(r, t) == At(h, t);
    var t := SpareThread(h.threads.Keys);
    more := [Look(t, g), Check(t), Swap(t)];
    NotNone(h, g);
    OlderGrantReverses(r, t);
    ThreeMade(r, more);
  }

  lemma CallBehind(h: Holder, t: Thread) returns (more: seq<Step>)
    requires Ordered(h) && PutsBackBehind(h, Restore)
    requires Live(h, At(h, t)) && Before(h.installed, h.aside.value.generation, At(h, t).generation)
    ensures EventsOnly(more) && !InOrder(Made(Next(h, Restore), more))
  {
    var r, g := Next(h, Restore), h.aside.value.generation;
    assert forall t :: At(r, t) == At(h, t);
    var n := Make(r, Swap(t));
    more := [Swap(t), Look(t, g), Check(t), Swap(t)];
    OlderGrantReverses(n, t);
    ThreeMade(n, more[1..]);
    MadeAfter(r, more);
  }

  lemma BehindReverses(h: Holder) returns (more: seq<Step>)
    requires Ordered(h) && PutsBackBehind(h, Restore)
    ensures EventsOnly(more) && !InOrder(Made(Next(h, Restore), more))
  {
    if Before(h.installed, h.aside.value.generation, h.stamp) {
      more := StampBehind(h);
    } else {
      var t :| Live(h, At(h, t)) && Before(h.installed, h.aside.value.generation, At(h, t).generation);
      more := CallBehind(h, t);
    }
  }

  lemma NotNone(h: Holder, g: nat)
    requires Ordered(h) && Before(h.installed, g, h.stamp)
    ensures h.retained != []
  {
  }

  lemma ThreeMade(h: Holder, s: seq<Step>)
    requires |s| == 3
    ensures Made(h, s) == Make(Make(Make(h, s[0]), s[1]), s[2])
  {
    hide Make;
    MadeMore(h, [], s[0]);
    MadeMore(h, [s[0]], s[1]);
    MadeMore(h, [s[0], s[1]], s[2]);
    assert [] + [s[0]] == [s[0]] && [s[0]] + [s[1]] == [s[0], s[1]] && [s[0], s[1]] + [s[2]] == s;
  }

  lemma {:induction false} MadeAfter(h: Holder, s: seq<Step>)
    requires s != []
    ensures Made(h, s) == Made(Make(h, s[0]), s[1..])
  {
    hide Make;
    if |s| == 1 {
      assert s[..0] == [] && s[1..] == [];
    } else {
      var fewer := s[..|s| - 1];
      MadeAfter(h, fewer);
      assert s[1..][..|s| - 2] == fewer[1..];
    }
  }

  lemma EventsNeverBehind(h: Holder, steps: seq<Step>)
    requires EventsOnly(steps)
    ensures NoneBehind(h, steps)
  {
    hide Behind;
  }

  ghost predicate MayReverse(h: Holder) { exists more :: EventsOnly(more) && !InOrder(Made(h, more)) }

  /** The exact condition, at the moment a grant is put back: of any run in which none
      was put back behind before, further events can reverse the order of the stamps
      if and only if this one is of the running execution and was installed before
      the stamp, or before a generation a thread has checked and can still store. */
  lemma RestoreExactly(running: nat, steps: seq<Step>)
    requires NoneBehind(Unheld(running), steps)
    requires Enabled(Made(Unheld(running), steps), Restore)
    ensures var h := Made(Unheld(running), steps);
            MayReverse(Next(h, Restore)) <==> PutsBackBehind(h, Restore)
  {
    assert Ordered(Unheld(running));
    MadeOrdered(Unheld(running), steps);
    hide NoneBehind, Ordered, InOrder, Next, PutsBackBehind;
    var h := Made(Unheld(running), steps);
    if PutsBackBehind(h, Restore) {
      var more := BehindReverses(h);
    } else {
      NextOrdered(h, Restore);
      var r := Next(h, Restore);
      forall more | EventsOnly(more) ensures InOrder(Made(r, more)) {
        EventsNeverBehind(r, more);
        MadeOrdered(r, more);
        OrderedInOrder(Made(r, more));
      }
    }
  }

  lemma OrderedInOrder(h: Holder)
    requires Ordered(h)
    ensures InOrder(h)
  {
  }

  /** Userspace takes one grant aside, a newer one of the same execution is installed,
      stamped and removed meanwhile, and the first put back: a delayed event then
      stamps over it. */
  function PutBack(born: nat): seq<Step> {
    [Install(Grant(1, born)), Take, Install(Grant(2, born)), Look(7, 2), Check(7), Swap(7), Remove, Restore,
     Look(7, 1), Check(7), Swap(7)]
  }

  lemma PutBackGoesBackwards(running: nat, born: nat)
    requires running != 0
    ensures InOrder(Made(Unheld(running), PutBack(born))) <==> born != running
  {
    var s := PutBack(born);
    var h := Replayed(running, born);
    assert s[..11] == s;
    hide Made, PutBack;
    if born == running {
      assert h.retained == [2, 1];
      assert !Before(h.installed, h.retained[0], h.retained[1]);
    } else {
      assert h.retained == [];
    }
  }

  lemma Installed(running: nat, born: nat) returns (h: Holder)
    ensures h == Made(Unheld(running), PutBack(born)[..3])
    ensures h == Unheld(running).(installed := [Grant(1, born), Grant(2, born)], aside := Some(Grant(1, born)),
                                  grant := Some(Grant(2, born)))
  {
    var s, u := PutBack(born), Unheld(running);
    h := Replay(u, s, 0, u);
    h := Replay(u, s, 1, h);
    assert h == u.(installed := [Grant(1, born)], aside := Some(Grant(1, born)));
    h := Replay(u, s, 2, h);
  }

  lemma Replayed(running: nat, born: nat) returns (h: Holder)
    requires running != 0
    ensures h == Made(Unheld(running), PutBack(born)[..11])
    ensures h.retained == (if born == running then [2, 1] else [])
    ensures h.installed == [Grant(1, born), Grant(2, born)]
  {
    hide Made;
    var s, u := PutBack(born), Unheld(running);
    h := Installed(running, born);
    assert h.installed[0].generation == 1 && h.installed[1].generation == 2;
    h := Stamped(u, s, 2, 3, h);
    h := Replay(u, s, 6, h);
    h := Replay(u, s, 7, h);
    h := Stamped(u, s, 1, 8, h);
  }

  /** One event's look, check and swap under the grant in force. */
  lemma Stamped(u: Holder, steps: seq<Step>, g: Generation, i: nat, h: Holder) returns (r: Holder)
    requires i + 2 < |steps| && h == Made(u, steps[..i]) && steps[i..i + 3] == [Look(7, g), Check(7), Swap(7)]
    requires At(h, 7).Idle? && h.grant.Some? && h.grant.value.generation == g && h.stamp != g
    requires exists j :: 0 <= j < |h.installed| && h.installed[j].generation == g
    ensures r == Made(u, steps[..i + 3]) && At(r, 7).Idle?
    ensures var stores := Authentic(h, h.grant.value);
            && r == h.(threads := r.threads, stamp := if stores then g else h.stamp,
                       retained := if stores then h.retained + [g] else h.retained)
  {
    assert Known(h.installed, g);
    hide Known, Made;
    var s := steps[i..i + 3];
    assert s[0] == steps[i] && s[1] == steps[i + 1] && s[2] == steps[i + 2];
    r := Replay(u, steps, i, h);
    r := Replay(u, steps, i + 1, r);
    r := Replay(u, steps, i + 2, r);
  }

  lemma Replay(u: Holder, steps: seq<Step>, i: nat, h: Holder) returns (r: Holder)
    requires i < |steps| && h == Made(u, steps[..i])
    ensures r == Make(h, steps[i]) && r == Made(u, steps[..i + 1])
  {
    assert steps[..i + 1][..i] == steps[..i];
    r := Make(h, steps[i]);
  }
}
