/** The allowlist under fork, exec, exit and the reuse of process numbers: who a
    lookup accepts, against what was written and what descended from it. */
module Allowlist {
  import opened Values

  /** A process number in its namespace. */
  datatype Number = Number(namespace: Namespace, pid: int)

  /** One execution: a number and its occupant's birth, a pair never reused. A
      birth of zero is one the kernel could not read. */
  datatype Execution = Execution(number: Number, birth: nat)

  datatype Mode = NoDescendants | ExistingDescendants | Follow

  datatype Kind = ByTarget | ByDescent | Denied

  datatype Entry = Entry(
    kind: Kind,
    birth: nat,
    generation: nat,
    mode: Mode,
    propagate: bool,
    threads: nat,
    leaderGone: bool,
    parent: nat)

  /** What an execution's image may be observed under. */
  datatype Authority = Nothing | Standing(mode: Mode, propagate: bool)

  /** An entry userspace took out and has yet to put back, and what has been said of
      its execution since, if anything: a history no step of the program reads. */
  datatype Taken = Taken(number: Number, entry: Entry, since: Option<Authority>) {
    function Of(): Execution { Execution(number, entry.birth) }
  }

  type Hand = nat

  /** running is the occupant of each number in use; seen every execution there
      has been; aside what each call of the delete holds; stamps the last
      generation the kernel handed out. */
  datatype World = World(
    running: map<Number, nat>,
    seen: set<Execution>,
    entries: map<Number, Entry>,
    aside: map<Hand, Taken>,
    stamps: nat)

  const Boot := World(map[], {}, map[], map[], 1)

  /** What happens on the host; fits says whether the table took an update, and
      nameable whether the fork hook could read the new task and found it in its
      creator's namespace. */
  datatype Event =
    | Spawned(child: Execution)
    | Forked(parent: Execution, child: Execution, nameable: bool, fits: bool)
    | Execed(self: Execution)
    | ThreadExited(self: Execution, leader: bool)
    | Gone(self: Execution)
    | Wrote(self: Execution, mode: Mode, propagate: bool, generation: nat, threads: nat)
    | Excluded(self: Execution, generation: nat, threads: nat)
    | Removed(number: Number)
    | Took(hand: Hand, number: Number)
    | Restored(hand: Hand)

  predicate Running(w: World, x: Execution) { x.number in w.running && w.running[x.number] == x.birth }

  /** A new execution takes a free number, and a birth its number never had. */
  predicate New(w: World, x: Execution) { x.number !in w.running && (x.birth != 0 ==> x !in w.seen) }

  /** Userspace writes an entry for an execution it once confirmed. */
  predicate Enabled(w: World, e: Event) {
    match e
    case Spawned(x) => New(w, x)
    case Forked(p, x, _, _) => Running(w, p) && New(w, x) && x.number.namespace == p.number.namespace
    case Execed(x) => Running(w, x)
    case ThreadExited(x, _) => Running(w, x)
    case Gone(x) => Running(w, x)
    case Wrote(x, _, _, _, _) => x in w.seen
    case Excluded(x, _, _) => x in w.seen
    case Removed(_) => true
    case Took(hand, n) => hand !in w.aside && n in w.entries
    case Restored(hand) => hand in w.aside
  }

  /** Whether a running group is the one an entry was written for. */
  predicate Authentic(entry: Entry, x: Execution) { x.birth != 0 && entry.birth == x.birth }

  /** The grant lookup. */
  predicate Accepts(w: World, x: Execution) {
    x.number in w.entries && Authentic(w.entries[x.number], x) && w.entries[x.number].kind != Denied
  }

  function Born(w: World, x: Execution): World {
    w.(running := w.running[x.number := x.birth], seen := w.seen + {x})
  }

  /** obs_fork, before the child runs: a denied creator's child is denied, a follow
      grant's child granted, and nothing passes from a number's earlier occupant. */
  function Inherits(w: World, p: Execution, x: Execution, nameable: bool, fits: bool): World {
    if p.number !in w.entries || !nameable || x.birth == 0 then w
    else
      var grant := w.entries[p.number];
      if !Authentic(grant, p) then w
      else if grant.kind == Denied then
        Enters(w, x, grant.(generation := w.stamps, birth := x.birth, threads := 1, leaderGone := false,
                            parent := grant.generation), fits)
      else if !grant.propagate || grant.mode != Follow then w
      else Enters(w, x, Entry(ByDescent, x.birth, w.stamps, grant.mode, grant.propagate, 1, false, grant.generation),
                  fits)
  }

  function Enters(w: World, x: Execution, entry: Entry, fits: bool): World {
    w.(entries := if fits then w.entries[x.number := entry] else w.entries, stamps := w.stamps + 1)
  }

  /** obs_exec: a grant ends at the image's, whoever holds the number; a denial
      does not. */
  function ExecHook(w: World, n: Number): World {
    if n !in w.entries || w.entries[n].kind == Denied then w else w.(entries := w.entries - {n})
  }

  /** obs_exit, once per thread: the group's entry goes with its last. */
  function ExitHook(w: World, n: Number, leader: bool): World {
    if n !in w.entries then w
    else
      var entry := w.entries[n];
      var remaining := if entry.threads > 0 then entry.threads - 1 else 0;
      var counted := entry.(threads := if entry.threads > 1 then entry.threads - 1 else entry.threads);
      if leader && remaining > 0 then w.(entries := w.entries[n := counted.(leaderGone := true)])
      else if leader || (entry.leaderGone && remaining == 0) then w.(entries := w.entries - {n})
      else w.(entries := w.entries[n := counted])
  }

  function Heard(one: Taken, x: Execution, a: Authority): Taken {
    if one.Of() == x then one.(since := Some(a)) else one
  }

  /** Every taker holding an entry of an execution hears what is said of it. */
  function Tell(w: World, x: Execution, a: Authority): World {
    w.(aside := map hand | hand in w.aside :: Heard(w.aside[hand], x, a))
  }

  /** deleteAdmission's other half: what was taken and was another's goes back,
      unless something was written there meanwhile. */
  function PutBack(w: World, hand: Hand): World
    requires hand in w.aside
  {
    var one := w.aside[hand];
    w.(aside := w.aside - {hand},
       entries := if one.number in w.entries then w.entries else w.entries[one.number := one.entry])
  }

  function Next(w: World, e: Event): World
    requires Enabled(w, e)
  {
    match e
    case Spawned(x) => Born(w, x)
    case Forked(p, x, nameable, fits) => Born(Inherits(w, p, x, nameable, fits), x)
    case Execed(x) => Tell(ExecHook(w, x.number), x, Nothing)
    case ThreadExited(x, leader) => ExitHook(w, x.number, leader)
    case Gone(x) => w.(running := w.running - {x.number})
    case Wrote(x, mode, propagate, generation, threads) =>
      var entry := Entry(ByTarget, x.birth, generation, mode, propagate, threads, false, 0);
      Tell(w.(entries := w.entries[x.number := entry]), x, Standing(mode, propagate))
    case Excluded(x, generation, threads) =>
      var entry := Entry(Denied, x.birth, generation, NoDescendants, false, threads, false, 0);
      Tell(w.(entries := w.entries[x.number := entry]), x, Nothing)
    case Removed(n) => w.(entries := w.entries - {n})
    case Took(hand, n) => w.(entries := w.entries - {n}, aside := w.aside[hand := Taken(n, w.entries[n], None)])
    case Restored(hand) => PutBack(w, hand)
  }

  function Make(w: World, e: Event): World { if Enabled(w, e) then Next(w, e) else w }

  function Lived(events: seq<Event>): World {
    if events == [] then Boot else Make(Lived(events[..|events| - 1]), events[|events| - 1])
  }

  // Authority, from what happened alone.

  /** The authority an event leaves an execution, of what it had and, at its fork,
      its creator did. */
  function Leaves(e: Event, x: Execution, had: Authority, creator: Authority): Authority {
    match e
    case Wrote(y, mode, propagate, _, _) => if y == x then Standing(mode, propagate) else had
    case Execed(y) => if y == x then Nothing else had
    case Excluded(y, _, _) => if y == x then Nothing else had
    case Forked(_, y, _, _) =>
      if y != x then had else if creator == Standing(Follow, true) then Standing(Follow, true) else Nothing
    case Spawned(y) => if y == x then Nothing else had
    case _ => had
  }

  /** The authority of an execution's image, read off the events that could happen:
      written as a target and neither execed nor excluded since, or forked by one
      that then stood under a propagating follow, and neither since. */
  function AuthorityOf(events: seq<Event>, x: Execution): Authority {
    if events == [] then Nothing
    else
      var fewer, e := events[..|events| - 1], events[|events| - 1];
      if !Enabled(Lived(fewer), e) then AuthorityOf(fewer, x)
      else Leaves(e, x, AuthorityOf(fewer, x), if e.Forked? then AuthorityOf(fewer, e.parent) else Nothing)
  }

  /** A grant in the table is for an execution seen, and for one still running it
      is the authority that execution stands under. */
  ghost predicate EntryOk(events: seq<Event>, w: World, n: Number) {
    n in w.entries ==>
      var entry := w.entries[n];
      var x := Execution(n, entry.birth);
      && (entry.birth != 0 ==> x in w.seen)
      && (entry.birth != 0 && entry.kind != Denied && Running(w, x) ==>
            AuthorityOf(events, x) == Standing(entry.mode, entry.propagate))
  }

  /** What a taken grant of an execution still running stands for: what the entry
      carries, or what was last said of its execution since. */
  function Meant(one: Taken): Authority {
    if one.since.Some? then one.since.value else Standing(one.entry.mode, one.entry.propagate)
  }

  ghost predicate TakenOk(events: seq<Event>, w: World, hand: Hand) {
    hand in w.aside ==>
      var one := w.aside[hand];
      && (one.entry.birth != 0 ==> one.Of() in w.seen)
      && (Grants(one) && Running(w, one.Of()) ==> AuthorityOf(events, one.Of()) == Meant(one))
  }

  predicate Grants(one: Taken) { one.entry.birth != 0 && one.entry.kind != Denied }

  ghost predicate Honest(events: seq<Event>) {
    (forall n :: EntryOk(events, Lived(events), n)) && forall hand :: TakenOk(events, Lived(events), hand)
  }

  /** Whether a restore puts back a grant of a running execution that means something
      else by now: it execed, was excluded, or was written under another mode since
      the take, and nothing stands in the slot. */
  predicate Spoils(w: World, e: Event) {
    && e.Restored? && e.hand in w.aside
    && (var one := w.aside[e.hand];
        && one.number !in w.entries && Grants(one) && Running(w, one.Of())
        && Meant(one) != Standing(one.entry.mode, one.entry.propagate))
  }

  predicate NoneSpoils(events: seq<Event>) {
    events != [] ==>
      NoneSpoils(events[..|events| - 1]) && !Spoils(Lived(events[..|events| - 1]), events[|events| - 1])
  }

  lemma OneMore(events: seq<Event>, e: Event)
    ensures (events + [e])[..|events + [e]| - 1] == events
    ensures Lived(events + [e]) == Make(Lived(events), e)
    ensures forall x :: AuthorityOf(events + [e], x) ==
                        if !Enabled(Lived(events), e) then AuthorityOf(events, x)
                        else Leaves(e, x, AuthorityOf(events, x),
                                    if e.Forked? then AuthorityOf(events, e.parent) else Nothing)
  {
    hide Enabled, Next, Leaves;
  }

  lemma HonestStep(events: seq<Event>, e: Event)
    requires Honest(events) && !Spoils(Lived(events), e)
    ensures Honest(events + [e])
  {
    hide Lived, AuthorityOf, EntryOk, TakenOk;
    OneMore(events, e);
    if Enabled(Lived(events), e) {
      EntriesStep(events, e);
      TakenStep(events, e);
    } else {
      Idles(events, e);
    }
  }

  lemma Idles(events: seq<Event>, e: Event)
    requires Honest(events) && !Enabled(Lived(events), e)
    ensures Honest(events + [e])
  {
    OneMore(events, e);
    hide Lived, AuthorityOf, Enabled, Next, Leaves;
    var w := Lived(events);
    assert Lived(events + [e]) == w;
    forall n ensures EntryOk(events + [e], w, n) { assert EntryOk(events, w, n); }
    forall hand ensures TakenOk(events + [e], w, hand) { assert TakenOk(events, w, hand); }
  }

  lemma EntriesStep(events: seq<Event>, e: Event)
    requires Honest(events) && Enabled(Lived(events), e) && !Spoils(Lived(events), e)
    ensures forall n :: EntryOk(events + [e], Next(Lived(events), e), n)
  {
    hide Lived, EntryOk, TakenOk, Next, Enabled, Spoils;
    forall n ensures EntryOk(events + [e], Next(Lived(events), e), n) {
      if e.Forked? {
        ForkedEntry(events, e, n);
      } else {
        EntryStep(events, e, n);
      }
    }
  }

  lemma ForkedEntry(events: seq<Event>, e: Event, n: Number)
    requires Honest(events) && e.Forked? && Enabled(Lived(events), e)
    ensures EntryOk(events + [e], Next(Lived(events), e), n)
  {
    var w := Lived(events);
    OneMore(events, e);
    hide Lived, AuthorityOf, TakenOk;
    assert EntryOk(events, w, n) && EntryOk(events, w, e.parent.number);
  }

  lemma EntryStep(events: seq<Event>, e: Event, n: Number)
    requires Honest(events) && !e.Forked? && Enabled(Lived(events), e) && !Spoils(Lived(events), e)
    ensures EntryOk(events + [e], Next(Lived(events), e), n)
  {
    var w := Lived(events);
    OneMore(events, e);
    hide Lived, AuthorityOf;
    assert EntryOk(events, w, n);
    if e.Restored? {
      assert TakenOk(events, w, e.hand);
    }
  }

  lemma TakenStep(events: seq<Event>, e: Event)
    requires Honest(events) && Enabled(Lived(events), e)
    ensures forall hand :: TakenOk(events + [e], Next(Lived(events), e), hand)
  {
    var w := Lived(events);
    OneMore(events, e);
    hide Lived, AuthorityOf;
    forall hand ensures TakenOk(events + [e], Next(w, e), hand) {
      assert TakenOk(events, w, hand);
      if e.Took? {
        assert EntryOk(events, w, e.number);
      }
    }
  }

  lemma {:induction false} LivedHonest(events: seq<Event>)
    requires NoneSpoils(events)
    ensures Honest(events)
  {
    if events != [] {
      var fewer := events[..|events| - 1];
      LivedHonest(fewer);
      hide Honest, Spoils, Lived;
      HonestStep(fewer, events[|events| - 1]);
      assert fewer + [events[|events| - 1]] == events;
    }
  }

  /** Whatever was forked, execed, exited, reused, taken out and put back, unless a
      grant was put back that no longer meant what it carries: a running execution
      the lookup accepts was written as a target and neither execed nor was
      excluded since, or descends from one by an unbroken chain of propagating
      follow grants with neither along it, under the mode the entry carries. */
  lemma AcceptedStands(events: seq<Event>, x: Execution)
    requires NoneSpoils(events) && Running(Lived(events), x) && Accepts(Lived(events), x)
    ensures var entry := Lived(events).entries[x.number];
            AuthorityOf(events, x) == Standing(entry.mode, entry.propagate)
  {
    LivedHonest(events);
    assert EntryOk(events, Lived(events), x.number);
  }

  lemma BackIn(w: World, hand: Hand)
    requires hand in w.aside
    requires var one := w.aside[hand]; one.number !in w.entries && Grants(one) && Running(w, one.Of())
    ensures var one, r := w.aside[hand], Make(w, Restored(hand));
            Running(r, one.Of()) && Accepts(r, one.Of()) && r.entries[one.number] == one.entry
  {
  }

  /** The exact condition, at the moment a grant is put back: the lookup accepts its
      execution again, under what the entry carries if and only if nothing else was
      said of that execution since the take. */
  lemma RestoreExactly(events: seq<Event>, hand: Hand)
    requires NoneSpoils(events) && hand in Lived(events).aside
    requires var w, one := Lived(events), Lived(events).aside[hand];
             one.number !in w.entries && Grants(one) && Running(w, one.Of())
    ensures var x, entry := Lived(events).aside[hand].Of(), Lived(events).aside[hand].entry;
            var after := events + [Restored(hand)];
            && Running(Lived(after), x) && Accepts(Lived(after), x) && Lived(after).entries[x.number] == entry
            && (AuthorityOf(after, x) == Standing(entry.mode, entry.propagate) <==>
                  !Spoils(Lived(events), Restored(hand)))
  {
    var w := Lived(events);
    LivedHonest(events);
    OneMore(events, Restored(hand));
    BackIn(w, hand);
    hide Lived, AuthorityOf, Make, Running, Accepts, Grants;
    assert TakenOk(events, w, hand);
  }

  /** An exec in the gap: userspace takes a grant it is not after, the execution
      changes its image meanwhile, and the grant is put back for the new one. */
  function Gap(x: Execution, mode: Mode, propagate: bool, generation: nat, threads: nat): seq<Event> {
    [Spawned(x), Wrote(x, mode, propagate, generation, threads), Took(0, x.number), Execed(x), Restored(0)]
  }

  lemma Upto(events: seq<Event>, i: nat)
    requires i < |events|
    ensures Lived(events[..i + 1]) == Make(Lived(events[..i]), events[i])
    ensures forall x :: AuthorityOf(events[..i + 1], x) ==
                        if !Enabled(Lived(events[..i]), events[i]) then AuthorityOf(events[..i], x)
                        else Leaves(events[i], x, AuthorityOf(events[..i], x),
                                    if events[i].Forked? then AuthorityOf(events[..i], events[i].parent) else Nothing)
  {
    hide Lived, AuthorityOf, Make, Enabled, Leaves;
    OneMore(events[..i], events[i]);
    assert events[..i] + [events[i]] == events[..i + 1];
  }

  lemma GapTaken(x: Execution, mode: Mode, propagate: bool, generation: nat, threads: nat)
    requires x.birth != 0
    ensures var s := Gap(x, mode, propagate, generation, threads);
            var entry := Entry(ByTarget, x.birth, generation, mode, propagate, threads, false, 0);
            var born := Boot.(running := map[x.number := x.birth], seen := {x});
            && Lived(s[..0]) == Boot && Lived(s[..1]) == born
            && Lived(s[..2]) == born.(entries := map[x.number := entry])
            && Lived(s[..3]) == born.(aside := map[0 := Taken(x.number, entry, None)])
  {
    var s := Gap(x, mode, propagate, generation, threads);
    assert Lived(s[..0]) == Boot;
    hide Lived, AuthorityOf;
    Upto(s, 0);
    Upto(s, 1);
    Upto(s, 2);
  }

  lemma GapWorlds(x: Execution, mode: Mode, propagate: bool, generation: nat, threads: nat)
    requires x.birth != 0
    ensures var s := Gap(x, mode, propagate, generation, threads);
            var entry := Entry(ByTarget, x.birth, generation, mode, propagate, threads, false, 0);
            var born := Boot.(running := map[x.number := x.birth], seen := {x});
            && Lived(s[..3]) == born.(aside := map[0 := Taken(x.number, entry, None)])
            && Lived(s[..4]) == born.(aside := map[0 := Taken(x.number, entry, Some(Nothing))])
            && Lived(s[..5]) == born.(entries := map[x.number := entry])
  {
    var s := Gap(x, mode, propagate, generation, threads);
    hide Lived, AuthorityOf;
    GapTaken(x, mode, propagate, generation, threads);
    Upto(s, 3);
    Upto(s, 4);
  }

  lemma GapAuthority(x: Execution, mode: Mode, propagate: bool, generation: nat, threads: nat)
    requires x.birth != 0
    ensures AuthorityOf(Gap(x, mode, propagate, generation, threads), x) == Nothing
  {
    var s := Gap(x, mode, propagate, generation, threads);
    assert s[..5] == s;
    GapWorlds(x, mode, propagate, generation, threads);
    hide Lived, AuthorityOf, Make;
    Upto(s, 3);
    Upto(s, 4);
  }

  lemma ExecInTheGap(x: Execution, mode: Mode, propagate: bool, generation: nat, threads: nat)
    requires x.birth != 0
    ensures var events := Gap(x, mode, propagate, generation, threads);
            && Running(Lived(events), x) && Accepts(Lived(events), x) && AuthorityOf(events, x) == Nothing
            && NoneSpoils(events[..4]) && Spoils(Lived(events[..4]), events[4])
  {
    var s := Gap(x, mode, propagate, generation, threads);
    GapTaken(x, mode, propagate, generation, threads);
    GapWorlds(x, mode, propagate, generation, threads);
    GapAuthority(x, mode, propagate, generation, threads);
    assert s[..5] == s && s[..4][..3] == s[..3] && s[..3][..2] == s[..2];
    assert s[..2][..1] == s[..1] && s[..1][..0] == s[..0];
    hide Lived, AuthorityOf;
    assert NoneSpoils(s[..1]) && NoneSpoils(s[..2]) && NoneSpoils(s[..3]);
  }

  /** The child of an execution then denied is not accepted. */
  lemma DeniedChildRefused(events: seq<Event>, p: Execution, x: Execution, nameable: bool, fits: bool)
    requires var w := Lived(events);
             && Enabled(w, Forked(p, x, nameable, fits)) && p.number in w.entries
             && Authentic(w.entries[p.number], p) && w.entries[p.number].kind == Denied
    ensures !Accepts(Lived(events + [Forked(p, x, nameable, fits)]), x)
  {
    LivedSeen(events);
    OneMore(events, Forked(p, x, nameable, fits));
  }

  /** Entries, in the table or out of it, are of executions there have been. */
  ghost predicate AllSeen(w: World) {
    && (forall n :: n in w.entries && w.entries[n].birth != 0 ==> Execution(n, w.entries[n].birth) in w.seen)
    && (forall hand :: hand in w.aside && w.aside[hand].entry.birth != 0 ==> w.aside[hand].Of() in w.seen)
  }

  lemma SeenStep(w: World, e: Event)
    requires AllSeen(w) && Enabled(w, e)
    ensures AllSeen(Next(w, e))
  {
  }

  lemma {:induction false} LivedSeen(events: seq<Event>)
    ensures AllSeen(Lived(events))
  {
    if events != [] {
      var fewer, e := events[..|events| - 1], events[|events| - 1];
      LivedSeen(fewer);
      hide AllSeen, Next;
      if Enabled(Lived(fewer), e) { SeenStep(Lived(fewer), e); }
    }
  }

  /** Whether an event gives an execution a grant: userspace writes one for it, or
      puts back one it had taken. */
  predicate Readmits(w: World, e: Event, x: Execution) {
    || (e.Wrote? && e.self == x)
    || (e.Restored? && e.hand in w.aside && w.aside[e.hand].Of() == x && Grants(w.aside[e.hand]))
  }

  predicate NoneReadmits(events: seq<Event>, more: seq<Event>, x: Execution) {
    more != [] ==>
      && NoneReadmits(events, more[..|more| - 1], x)
      && !Readmits(Lived(events + more[..|more| - 1]), more[|more| - 1], x)
  }

  lemma RefusedStep(w: World, e: Event, x: Execution)
    requires x in w.seen && !Accepts(w, x) && !Readmits(w, e, x) && Enabled(w, e)
    ensures !Accepts(Next(w, e), x) && x in Next(w, e).seen
  {
  }

  /** An execution not accepted stays so through any forks, execs, exits and reuse
      until userspace writes a grant for it or puts one back. */
  lemma {:induction false} RefusedUntilWritten(events: seq<Event>, more: seq<Event>, x: Execution)
    requires x in Lived(events).seen && !Accepts(Lived(events), x)
    requires NoneReadmits(events, more, x)
    ensures !Accepts(Lived(events + more), x) && x in Lived(events + more).seen
  {
    if more == [] {
      assert events + more == events;
    } else {
      var fewer, e := more[..|more| - 1], more[|more| - 1];
      RefusedUntilWritten(events, fewer, x);
      OneMore(events + fewer, e);
      assert events + fewer + [e] == events + more;
      hide Lived, AuthorityOf, Next, Accepts, Readmits, Enabled;
      if Enabled(Lived(events + fewer), e) { RefusedStep(Lived(events + fewer), e, x); }
    }
  }
}
