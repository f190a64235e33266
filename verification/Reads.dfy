/** The counter of user-memory reads taken under an admission, against its
    retraction: returns check the grant, file the read, and check again, while
    userspace removes the grant and then folds the counter. */
module Reads {
  type Thread = nat
  type Generation = g: nat | g > 0 witness 1

  /** Where a return stands in recording one read. */
  datatype Filing =
    | Idle
    | Granted(generation: Generation)
    | Found(generation: Generation)
    | Missing(generation: Generation)
    | Raced(generation: Generation)
    | Filed(generation: Generation)
    | Withdrawn(generation: Generation)

  /** grant is the generation the key's entry grants, or zero; aside those userspace
      took and has yet to put back; removed the ones whose grant is gone and whose
      counter is still to be folded; folded those whose counter was; lapsed those
      gone from the entry without a retraction. */
  datatype Table = Table(
    grant: nat,
    installed: set<Generation>,
    counters: map<Generation, nat>,
    aside: set<Generation>,
    removed: set<Generation>,
    folded: set<Generation>,
    lapsed: set<Generation>,
    threads: map<Thread, Filing>)

  const Empty := Table(0, {}, map[], {}, {}, {}, {}, map[])

  /** kept says whether a counter found is still the one in the table when it is
      added to; room whether the table took an insertion. */
  datatype Step =
    | Install(generation: Generation)
    | Lapse
    | Take
    | Restore(generation: Generation)
    | Remove
    | Fold(generation: Generation)
    | FirstCheck(thread: Thread, generation: Generation)
    | Lookup(thread: Thread)
    | Add(thread: Thread, kept: bool)
    | Insert(thread: Thread, room: bool)
    | LookAgain(thread: Thread)
    | SecondCheck(thread: Thread)
    | Delete(thread: Thread)

  function At(w: Table, t: Thread): Filing { if t in w.threads then w.threads[t] else Idle }

  function Put(w: Table, t: Thread, f: Filing): Table { w.(threads := w.threads[t := f]) }

  predicate Enabled(w: Table, s: Step) {
    match s
    case Install(g) => g !in w.installed
    case Lapse => w.grant != 0
    case Take => w.grant != 0
    case Restore(g) => g in w.aside
    case Remove => w.grant != 0
    case Fold(g) => g in w.removed
    case FirstCheck(t, _) => At(w, t).Idle?
    case Lookup(t) => At(w, t).Granted?
    case Add(t, _) => At(w, t).Found?
    case Insert(t, _) => At(w, t).Missing?
    case LookAgain(t) => At(w, t).Raced?
    case SecondCheck(t) => At(w, t).Filed?
    case Delete(t) => At(w, t).Withdrawn?
  }

  /** The generation the entry grants, if it grants one. */
  function Standing(w: Table): set<Generation> { if w.grant == 0 then {} else {w.grant} }

  /** The fork hook writes over whatever stands; a hook may delete the entry; what
      userspace took and was not after goes back unless another entry is there. */
  function Next(w: Table, s: Step): Table
    requires Enabled(w, s)
  {
    match s
    case Install(g) => w.(grant := g, installed := w.installed + {g}, lapsed := w.lapsed + Standing(w))
    case Lapse => w.(grant := 0, lapsed := w.lapsed + Standing(w))
    case Take => w.(grant := 0, aside := w.aside + Standing(w))
    case Restore(g) =>
      if w.grant == 0 then w.(grant := g, aside := w.aside - {g})
      else w.(aside := w.aside - {g}, lapsed := w.lapsed + {g})
    case Remove => w.(grant := 0, removed := w.removed + {w.grant})
    case Fold(g) => w.(counters := w.counters - {g}, removed := w.removed - {g}, folded := w.folded + {g})
    case FirstCheck(t, g) => if w.grant == g then Put(w, t, Granted(g)) else w
    case Lookup(t) =>
      var g := At(w, t).generation;
      Put(w, t, if g in w.counters then Found(g) else Missing(g))
    case Add(t, kept) =>
      var g := At(w, t).generation;
      Put(if kept && g in w.counters then w.(counters := w.counters[g := w.counters[g] + 1]) else w, t, Filed(g))
    case Insert(t, room) =>
      var g := At(w, t).generation;
      if g in w.counters || !room then Put(w, t, Raced(g)) else Put(w.(counters := w.counters[g := 1]), t, Filed(g))
    case LookAgain(t) =>
      var g := At(w, t).generation;
      Put(w, t, if g in w.counters then Found(g) else Filed(g))
    case SecondCheck(t) =>
      var g := At(w, t).generation;
      Put(w, t, if w.grant == g then Idle else Withdrawn(g))
    case Delete(t) => Put(w.(counters := w.counters - {At(w, t).generation}), t, Idle)
  }

  function Make(w: Table, s: Step): Table { if Enabled(w, s) then Next(w, s) else w }

  function Made(steps: seq<Step>): Table {
    if steps == [] then Empty else Make(Made(steps[..|steps| - 1]), steps[|steps| - 1])
  }

  /** A return that will yet check again, or delete. */
  predicate Answers(f: Filing, g: Generation) { (f.Filed? || f.Withdrawn?) && f.generation == g }

  ghost predicate SomeoneAnswers(w: Table, g: Generation) { exists t :: Answers(At(w, t), g) }

  /** A counter without its grant is still somebody's to take away. */
  ghost predicate Accounted(w: Table, g: Generation) {
    g in w.counters && w.grant != g ==> g in w.removed || g in w.aside || g in w.lapsed || SomeoneAnswers(w, g)
  }

  ghost predicate Safe(w: Table) {
    && (forall g: Generation :: Accounted(w, g))
    && (w.grant != 0 ==> w.grant in w.installed)
    && (forall g :: g in w.removed + w.folded + w.aside + w.lapsed ==> g in w.installed && g != w.grant)
    && w.removed !! w.folded !! w.aside !! w.lapsed
    && (forall g :: g in w.counters ==> g in w.installed)
    && (forall t :: !At(w, t).Idle? ==> At(w, t).generation in w.installed)
  }

  /** A step of no return. */
  predicate OfTheEntry(s: Step) { s.Install? || s.Lapse? || s.Take? || s.Restore? || s.Remove? || s.Fold? }

  lemma AnswersElsewhere(w: Table, r: Table, t: Thread, g: Generation)
    requires SomeoneAnswers(w, g) && !Answers(At(w, t), g) && forall u :: u != t ==> At(r, u) == At(w, u)
    ensures SomeoneAnswers(r, g)
  {
    var u :| Answers(At(w, u), g);
    assert Answers(At(r, u), g);
  }

  lemma ThreadsInstalled(w: Table, s: Step)
    requires Safe(w) && Enabled(w, s)
    ensures var r := Next(w, s); forall t :: !At(r, t).Idle? ==> At(r, t).generation in r.installed
  {
    hide Accounted;
    var r := Next(w, s);
    if OfTheEntry(s) {
      assert forall u :: At(r, u) == At(w, u);
    } else {
      assert forall u :: u != s.thread ==> At(r, u) == At(w, u);
      assert At(w, s.thread).Idle? || At(w, s.thread).generation in w.installed;
    }
  }

  lemma NextSafe(w: Table, s: Step)
    requires Safe(w) && Enabled(w, s)
    ensures Safe(Next(w, s))
  {
    var r := Next(w, s);
    ThreadsInstalled(w, s);
    forall g: Generation ensures Accounted(r, g) {
      assert Accounted(w, g);
      if g in r.counters && r.grant != g && g !in r.removed && g !in r.aside && g !in r.lapsed {
        if OfTheEntry(s) {
          assert forall u :: At(r, u) == At(w, u);
          if SomeoneAnswers(w, g) {
            var u :| Answers(At(w, u), g);
            assert Answers(At(r, u), g);
          }
        } else {
          assert forall u :: u != s.thread ==> At(r, u) == At(w, u);
          if Answers(At(r, s.thread), g) {
          } else if !Answers(At(w, s.thread), g) {
            AnswersElsewhere(w, r, s.thread, g);
          }
        }
      }
    }
  }

  lemma {:induction false} MadeSafe(steps: seq<Step>)
    ensures Safe(Made(steps))
  {
    if steps != [] {
      MadeSafe(steps[..|steps| - 1]);
      var w := Made(steps[..|steps| - 1]);
      if Enabled(w, steps[|steps| - 1]) {
        NextSafe(w, steps[|steps| - 1]);
      }
    }
  }

  /** In every interleaving, once a retraction has folded its generation's counter:
      an entry of it exists only while some return past its first check has yet to
      check again, so once none has, nothing is left behind. */
  lemma RetractionLeavesNothing(steps: seq<Step>, g: Generation)
    requires g in Made(steps).folded
    ensures g in Made(steps).counters ==> SomeoneAnswers(Made(steps), g)
    ensures (forall t :: At(Made(steps), t).Idle? || At(Made(steps), t).generation != g) ==> g !in Made(steps).counters
  {
    MadeSafe(steps);
    assert Accounted(Made(steps), g);
  }
}
