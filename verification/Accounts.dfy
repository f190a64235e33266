/** What a session counts adds up: every transfer, every stream, every cut and
    every lost transfer is counted once. */
module Accounts {
  import opened Values
  import opened Connection
  import opened Evidence
  import opened Probe
  import opened Capture
  import opened CaptureEffects

  /** A measure summed over the streams numbered 1 to n. */
  function Sum(streams: map<nat, Stream>, n: nat, f: Stream -> int): (r: int)
    requires forall i :: 1 <= i <= n ==> i in streams
  {
    if n == 0 then 0 else Sum(streams, n - 1, f) + f(streams[n])
  }

  lemma {:induction false} SumPut(streams: map<nat, Stream>, n: nat, f: Stream -> int, id: nat, s: Stream)
    requires forall i :: 1 <= i <= n ==> i in streams
    requires id in streams
    ensures Sum(streams[id := s], n, f) ==
            Sum(streams, n, f) + (if 1 <= id <= n then f(s) - f(streams[id]) else 0)
  {
    if n > 0 {
      SumPut(streams, n - 1, f, id, s);
    }
  }

  lemma {:induction false} SumNew(streams: map<nat, Stream>, n: nat, f: Stream -> int, id: nat, s: Stream)
    requires forall i :: 1 <= i <= n ==> i in streams
    requires id > n
    ensures Sum(streams[id := s], n, f) == Sum(streams, n, f)
  {
    if n > 0 {
      SumNew(streams, n - 1, f, id, s);
    }
  }

  lemma SumGrows(streams: map<nat, Stream>, n: nat, f: Stream -> int, s: Stream)
    requires forall i :: 1 <= i <= n ==> i in streams
    ensures Sum(streams[n + 1 := s], n + 1, f) == Sum(streams, n, f) + f(s)
  {
    SumNew(streams, n, f, n + 1, s);
  }

  /** How many of the ended streams were still open when the session finished. */
  function Finishes(ended: seq<Ended>): (n: nat) {
    if ended == [] then 0
    else Finishes(ended[..|ended| - 1]) + (if ended[|ended| - 1].how == StillOpen then 1 else 0)
  }

  lemma FinishesAppend(ended: seq<Ended>, e: Ended)
    ensures Finishes(ended + [e]) == Finishes(ended) + (if e.how == StillOpen then 1 else 0)
  {
    assert (ended + [e])[..|ended|] == ended;
  }

  const LostOf: Stream -> int := s => LostIn(s)
  const CutsOf: Stream -> int := s => Cuts(s)

  /** Each transfer once; each stream open or ended, one way; each cut and each
      lost transfer in the stream it belongs to. */
  ghost predicate Balanced(c: State) {
    && WellFormed(c)
    && c.stats.transfers == c.stats.records + c.stats.empty + c.stats.unmeasured + c.stats.rejected
    && StreamsBalanced(c)
  }

  ghost predicate StreamsBalanced(c: State)
    requires WellFormed(c)
  {
    && c.stats.connections == c.next == |c.open| + |c.ended|
    && |c.ended| == c.stats.closed + c.stats.retired + Finishes(c.ended)
    && c.stats.lost == Sum(c.streams, c.next, LostOf)
    && c.stats.cut == Sum(c.streams, c.next, CutsOf)
  }

  lemma PutBalanced(c: State, id: nat, s: Stream)
    requires WellFormed(c) && StreamsBalanced(c) && id in c.streams && s.id == id && s.key == c.streams[id].key
    ensures StreamsBalanced(Put(c, id, s))
    ensures Put(c, id, s).stats == c.stats.(lost := Put(c, id, s).stats.lost, cut := Put(c, id, s).stats.cut)
  {
    SumPut(c.streams, c.next, LostOf, id, s);
    SumPut(c.streams, c.next, CutsOf, id, s);
  }

  /** One stream fewer open and one more ended, however it ended. */
  lemma EndBalanced(c: State, key: StreamKey, s: Stream, how: Ending, at: Time, taking: Taking)
    requires WellFormed(c) && StreamsBalanced(c) && key in c.open && s.id == c.open[key] && s.key == key
    ensures var r := End(c, key, s, how, at, taking);
            && r.stats.connections == r.next == |r.open| + |r.ended|
            && |r.ended| == r.stats.closed + r.stats.retired + Finishes(r.ended) + (if how == StillOpen then 0 else 1)
            && r.stats.lost == Sum(r.streams, r.next, LostOf) && r.stats.cut == Sum(r.streams, r.next, CutsOf)
            && r.stats.transfers == c.stats.transfers && r.stats.records == c.stats.records
            && r.stats.empty == c.stats.empty && r.stats.unmeasured == c.stats.unmeasured
            && r.stats.rejected == c.stats.rejected
  {
    PutBalanced(c, c.open[key], s);
    FinishesAppend(c.ended, Ended(s, how, at));
    assert c.open.Keys == (c.open - {key}).Keys + {key};
    assert |c.open.Keys| == |(c.open - {key}).Keys| + 1;
  }

  lemma RetireBalanced(c: State, key: StreamKey, at: Time, taking: Taking)
    requires WellFormed(c) && StreamsBalanced(c) && key in c.open
    ensures StreamsBalanced(Retire(c, key, at, taking)) && SameTransfers(c, Retire(c, key, at, taking))
  {
    hide RetireIn, Recount, CountUnrecorded, Sum, Finishes;
    EndBalanced(c, key, RetireIn(c.streams[c.open[key]]), EndingUnobserved, at, taking);
  }

  predicate SameTransfers(c: State, r: State) {
    && r.stats.transfers == c.stats.transfers && r.stats.records == c.stats.records && r.stats.empty == c.stats.empty
    && r.stats.unmeasured == c.stats.unmeasured && r.stats.rejected == c.stats.rejected
  }

  lemma {:induction false} BeginBalanced(c: State, t: Transfer)
    requires WellFormed(c) && StreamsBalanced(c) && t.Key() !in c.open
    ensures StreamsBalanced(BeginStream(c, t)) && SameTransfers(c, BeginStream(c, t))
  {
    hide BeginStream, FreshStream, LostIn, Cuts, Sum, Finishes;
    var s := FreshStream(c.observing, c.next + 1, t);
    var r := BeginStream(c, t);
    BeginShape(c, t);
    FreshLosesNothing(c.observing, c.next + 1, t);
    SumGrows(c.streams, c.next, LostOf, s);
    SumGrows(c.streams, c.next, CutsOf, s);
    OneMore(c.open, t.Key(), c.next + 1);
  }

  lemma OneMore<K, V>(m: map<K, V>, k: K, v: V)
    requires k !in m
    ensures |m[k := v]| == |m| + 1
  {
    assert m[k := v].Keys == m.Keys + {k};
    assert |m[k := v].Keys| == |m.Keys| + 1;
  }

  lemma BeginShape(c: State, t: Transfer)
    requires WellFormed(c) && t.Key() !in c.open
    ensures var r := BeginStream(c, t); var s := FreshStream(c.observing, c.next + 1, t);
            && r.streams == c.streams[c.next + 1 := s] && r.open == c.open[t.Key() := c.next + 1]
            && r.next == c.next + 1
            && r.ended == c.ended && SameTransfers(c, r)
            && r.stats.connections == c.stats.connections + 1 && r.stats.lost == c.stats.lost
            && r.stats.cut == c.stats.cut + Cuts(s)
            && r.stats.closed == c.stats.closed && r.stats.retired == c.stats.retired
  {
    hide FreshStream, Cuts;
  }

  lemma FreshLosesNothing(observing: Observing, id: nat, t: Transfer)
    ensures LostIn(FreshStream(observing, id, t)) == 0
  {
  }

  lemma FollowBalanced(c: State, t: Transfer, taking: Taking)
    requires WellFormed(c) && StreamsBalanced(c)
    ensures StreamsBalanced(Follow(c, t, taking)) && SameTransfers(c, Follow(c, t, taking))
  {
    hide BeginStream, Retire;
    if !(t.Key() in c.open && Continues(c.streams[c.open[t.Key()]], t)) {
      if t.Key() in c.open {
        RetireBalanced(c, t.Key(), t.at, taking);
        BeginBalanced(Retire(c, t.Key(), t.at, taking), t);
      } else {
        BeginBalanced(c, t);
      }
    }
  }

  /** A transfer is one of the four before its sink answers, or offered to it. */
  lemma PlaceBalanced(c: State, t: Transfer, taking: Taking)
    requires Balanced(c)
    ensures var (r, w) := Place(c, t, taking);
            && StreamsBalanced(r)
            && r.stats.transfers == r.stats.records + r.stats.empty + r.stats.unmeasured + r.stats.rejected +
                 (if w.Some? then 1 else 0)
  {
    hide Follow, PlaceAt, StreamsBalanced;
    if Obsolete(c, t) {
      Unmoved(c, Place(c, t, taking).0);
    } else {
      var c1 := c.(stats := CountSeen(c.stats, t));
      Unmoved(c, c1);
      if !Placeless(t) {
        FollowBalanced(c1, t, taking);
        var c2 := Follow(c1, t, taking);
        PlaceAtBalanced(c2, c2.open[t.Key()], t);
      }
    }
  }

  /** Counters apart, nothing moved. */
  lemma Unmoved(c: State, r: State)
    requires WellFormed(c) && StreamsBalanced(c) && r == c.(stats := r.stats)
    requires r.stats.connections == c.stats.connections && r.stats.closed == c.stats.closed
    requires r.stats.retired == c.stats.retired && r.stats.lost == c.stats.lost && r.stats.cut == c.stats.cut
    ensures WellFormed(r) && StreamsBalanced(r)
  {
  }

  lemma PlaceAtBalanced(c: State, id: nat, t: Transfer)
    requires WellFormed(c) && StreamsBalanced(c) && id in c.streams
    ensures var (r, w) := PlaceAt(c, id, t);
            && StreamsBalanced(r)
            && r.stats.transfers == c.stats.transfers && r.stats.records == c.stats.records
            && r.stats.empty == c.stats.empty && r.stats.unmeasured == c.stats.unmeasured
            && (t.measured && t.length != 0 ==>
                  r.stats.rejected + (if w.Some? then 1 else 0) == c.stats.rejected + 1)
            && (!(t.measured && t.length != 0) ==> r.stats.rejected == c.stats.rejected && w.None?)
  {
    hide PlaceIn, WriteOf, StreamsBalanced, Cuts, LostIn;
    var s := c.streams[id];
    var c1 := c.(stats := CountFollowed(c.stats, s, t));
    Unmoved(c, c1);
    PutBalanced(c1, id, PlaceIn(s, t));
  }

  lemma SettleBalanced(c: State, w: Write, answer: Answer)
    requires WellFormed(c) && StreamsBalanced(c) && w.fragment.connection in c.streams
    requires c.stats.transfers == c.stats.records + c.stats.empty + c.stats.unmeasured + c.stats.rejected + 1
    ensures Balanced(Settle(c, w, answer))
  {
    hide RefuseWrite;
    if !answer.Accepted? {
      var id := w.fragment.connection;
      var c1 := c.(stats := c.stats.(
                     rejected := c.stats.rejected + 1,
                     intakeRefused := c.stats.intakeRefused + if answer.RefusedAtLimit? then 1 else 0));
      assert StreamsBalanced(c1);
      PutBalanced(c1, id, RefuseWrite(c.streams[id], w.fragment, answer.RefusedAtLimit?));
    }
  }

  lemma RefuseBalanced(c: State, t: Transfer)
    requires Balanced(c)
    ensures Balanced(RefuseStep(c, t))
  {
    hide RefuseIn;
    if Refusable(c, t) {
      var c1 := c.(stats := c.stats.(gateRefused := c.stats.gateRefused + 1));
      assert StreamsBalanced(c1);
      PutBalanced(c1, c.open[t.Key()], RefuseIn(c.streams[c.open[t.Key()]], t));
    }
  }

  lemma CloseBalanced(c: State, e: Closing, taking: Taking)
    requires Balanced(c)
    ensures Balanced(CloseStep(c, e, taking))
  {
    hide Retire, CloseIn, End, Recount, CountUnrecorded, Sum, Finishes;
    if e.Key() in c.open {
      var s := c.streams[c.open[e.Key()]];
      if e.occupancy != 0 && e.occupancy < s.occupancy {
      } else if e.occupancy != 0 && s.occupancy != 0 && e.occupancy != s.occupancy {
        RetireBalanced(c, e.Key(), e.at, taking);
      } else {
        ReleaseBalanced(c, e, taking);
      }
    }
  }

  lemma ReleaseBalanced(c: State, e: Closing, taking: Taking)
    requires Balanced(c) && e.Key() in c.open
    requires var s := c.streams[c.open[e.Key()]]; e.occupancy == 0 || s.occupancy == 0 || e.occupancy == s.occupancy
    ensures Balanced(CloseStep(c, e, taking))
  {
    hide CloseIn, End, Sum, Finishes;
    var how := if e.final.exited then EndingUnobserved else HandleReleasedEnding;
    EndBalanced(c, e.Key(), CloseIn(c.streams[c.open[e.Key()]], e), how, e.at, taking);
  }

  lemma FinishBalanced(c: State, key: StreamKey, asked: seq<Settling>, at: Time, taking: Taking)
    requires Balanced(c)
    ensures Balanced(FinishStep(c, key, asked, at, taking))
  {
    hide FinishIn, End, VerdictOf;
    if key in c.open {
      EndBalanced(c, key, FinishIn(c.streams[c.open[key]], asked), StillOpen, at, taking);
    }
  }

  lemma StepBalanced(c: State, input: Input, taking: Taking)
    requires Balanced(c)
    ensures Balanced(Step(c, input, taking))
  {
    hide Place, Settle, RefuseStep, CloseStep, FinishStep, StreamsBalanced;
    match input
    case Transferred(t, answer) =>
      PlaceBalanced(c, t, taking);
      var (c1, w) := Place(c, t, taking);
      if w.Some? {
        SettleBalanced(c1, w.value, answer);
      }
    case Refused(t) => RefuseBalanced(c, t);
    case Closed(e) => CloseBalanced(c, e, taking);
    case Finished(key, asked, at) => FinishBalanced(c, key, asked, at, taking);
  }

  /** In every run the session's accounts balance. */
  lemma {:induction false} AccountsBalance(observing: Observing, inputs: seq<(Input, Taking)>)
    ensures Balanced(Run(Opening(observing), inputs))
  {
    hide Step;
    if inputs != [] {
      var before := inputs[..|inputs| - 1];
      AccountsBalance(observing, before);
      StepBalanced(Run(Opening(observing), before), inputs[|inputs| - 1].0, inputs[|inputs| - 1].1);
    }
  }
}
