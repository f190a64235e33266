/** The admissions a session has on record: a list, an index into it kept through
    swap-removal, what named each, and what became of every one. */
module Inventory {
  import opened Values

  datatype Target = Target(name: string, number: int)

  datatype Selection = Selection(instance: Instance, observer: int, target: Target, alsoNamedBy: seq<Target>) {
    function Slot(): Place { Place(instance.key.namespace, instance.key.pid) }
    function Generation(): nat { instance.key.generation }
    predicate Same(other: Selection) { instance.key == other.instance.key }
    function NamedBy(): seq<Target> { [target] + alsoNamedBy }
  }

  /** A process number in its namespace, whatever generation holds it. */
  datatype Place = Place(namespace: Namespace, pid: int)

  // Totals.

  ghost function Total(counts: map<Target, nat>): nat
    decreases |counts|
  {
    if counts == map[] then 0
    else
      var t :| t in counts;
      counts[t] + Total(counts - {t})
  }

  lemma {:induction false} TotalWithout(counts: map<Target, nat>, t: Target)
    requires t in counts
    ensures Total(counts) == counts[t] + Total(counts - {t})
    decreases |counts|
  {
    var u :| u in counts && Total(counts) == counts[u] + Total(counts - {u});
    if u != t {
      TotalWithout(counts - {u}, t);
      TotalWithout(counts - {t}, u);
      assert counts - {u} - {t} == counts - {t} - {u};
    }
  }

  lemma TotalCounted(counts: map<Target, nat>, t: Target)
    ensures Total(counts[t := (if t in counts then counts[t] else 0) + 1]) == Total(counts) + 1
  {
    var more := counts[t := (if t in counts then counts[t] else 0) + 1];
    TotalWithout(more, t);
    if t in counts {
      TotalWithout(counts, t);
      assert more - {t} == counts - {t};
    } else {
      assert more - {t} == counts;
    }
  }

  /** A list without the selections of one admission. */
  function Without(list: seq<Selection>, one: Selection): seq<Selection> {
    if list == [] then []
    else
      var rest := Without(list[..|list| - 1], one);
      if list[|list| - 1].Same(one) then rest else rest + [list[|list| - 1]]
  }

  lemma {:induction false} WithoutExactly(list: seq<Selection>, one: Selection)
    ensures forall s :: s in Without(list, one) <==> s in list && !s.Same(one)
  {
    if list != [] {
      WithoutExactly(list[..|list| - 1], one);
      assert list == list[..|list| - 1] + [list[|list| - 1]];
    }
  }

  /** An index that names every place of a list, and each by the slot it holds. */
  ghost predicate Describes(index: map<Place, nat>, inventory: seq<Selection>) {
    && (forall k :: k in index ==> index[k] < |inventory| && inventory[index[k]].Slot() == k)
    && (forall i :: 0 <= i < |inventory| ==> inventory[i].Slot() in index && index[inventory[i].Slot()] == i)
  }

  /** A selection put last is described exactly when its slot held none. */
  lemma DescribesOneMore(index: map<Place, nat>, inventory: seq<Selection>, one: Selection)
    requires Describes(index, inventory)
    ensures Describes(index[one.Slot() := |inventory|], inventory + [one]) <==> one.Slot() !in index
  {
    var slot, more, all := one.Slot(), index[one.Slot() := |inventory|], inventory + [one];
    if slot in index {
      assert all[index[slot]].Slot() == slot && more[slot] != index[slot];
    }
  }

  class Inventory {
    var inventory: seq<Selection>
    var index: map<Place, nat>
    var namedBy: map<Place, seq<Target>>
    var accepted: seq<Selection>
    var endedBy: map<Target, nat>

    ghost var recordings: nat
    ghost var retracted: nat

    /** The index and the list describe each other exactly. */
    ghost predicate Described()
      reads this
    {
      Describes(index, inventory)
    }

    /** What each slot's admission is. */
    ghost function Contents(): map<Place, Selection>
      requires Described()
      reads this
    {
      map k | k in index :: inventory[index[k]]
    }

    /** Names and acceptances are of admissions on record. */
    ghost predicate Named()
      requires Described()
      reads this
    {
      && (forall k :: k in namedBy ==> k in index)
      && (forall a :: a in accepted ==> a.Slot() in index && inventory[index[a.Slot()]].Same(a))
    }

    /** Every recording is still held, ended, or was retracted. */
    ghost predicate Balanced()
      reads this
    {
      recordings == |inventory| + Total(endedBy) + retracted
    }

    ghost predicate Valid()
      reads this
    {
      Described() && Named() && Balanced()
    }

    constructor ()
      ensures Valid() && Contents() == map[] && recordings == 0
    {
      inventory, index, namedBy, accepted, endedBy := [], map[], map[], [], map[];
      recordings, retracted := 0, 0;
    }

    method Unaccept(one: Selection)
      modifies this`accepted
      ensures accepted == Without(old(accepted), one)
    {
      var kept := [];
      for i := 0 to |accepted|
        invariant accepted == old(accepted) && kept == Without(accepted[..i], one)
      {
        if !accepted[i].Same(one) {
          kept := kept + [accepted[i]];
        }
        assert accepted[..i + 1][..i] == accepted[..i];
      }
      assert accepted[..|accepted|] == accepted;
      accepted := kept;
    }

    /** Removes the entry at a place by moving the last into it. */
    method SwapOut(slot: Place)
      requires Described() && slot in index
      modifies this`inventory, this`index
      ensures Described() && Contents() == old(Contents()) - {slot} && |inventory| == old(|inventory|) - 1
    {
      var i, last := index[slot], |inventory| - 1;
      if i != last {
        var moved := inventory[last];
        inventory := inventory[i := moved];
        index := index[moved.Slot() := i];
      }
      inventory := inventory[..last];
      index := index - {slot};
    }

    /** Removes one generation without interpreting why it ended; an end of another
        removes nothing, and generation zero names none. */
    method RemoveRecorded(slot: Place, generation: nat) returns (one: Option<Selection>)
      requires Described() && Named()
      modifies this`inventory, this`index, this`namedBy, this`accepted
      ensures Described() && Named()
      ensures one.Some? <==>
                slot in old(Contents()) && generation != 0 && old(Contents())[slot].Generation() == generation
      ensures one.None? ==> unchanged(this)
      ensures one.Some? ==>
                && one.value == old(Contents())[slot] && Contents() == old(Contents()) - {slot}
                && |inventory| == old(|inventory|) - 1
                && namedBy == old(namedBy) - {slot} && accepted == Without(old(accepted), one.value)
    {
      if slot !in index || generation == 0 || inventory[index[slot]].Generation() != generation {
        return None;
      }
      var found := inventory[index[slot]];
      SwapOut(slot);
      namedBy := namedBy - {slot};
      Unaccept(found);
      WithoutExactly(old(accepted), found);
      ghost var was := old(Contents());
      forall a | a in accepted ensures a.Slot() in index && inventory[index[a.Slot()]].Same(a) {
        assert a.Slot() in was && was[a.Slot()].Same(a);
        assert a.Slot() != slot;
        assert a.Slot() in Contents() && Contents()[a.Slot()] == was[a.Slot()];
      }
      forall k | k in namedBy ensures k in index {
        assert k in Contents();
      }
      one := Some(found);
    }

    /** Retires the admission an observation names, counted under its target. A
        queued end cannot retire a successor under the same number. */
    method Retire(slot: Place, generation: nat) returns (one: Option<Selection>)
      requires Valid()
      modifies this`inventory, this`index, this`namedBy, this`accepted, this`endedBy
      ensures Valid()
      ensures one.Some? <==>
                slot in old(Contents()) && generation != 0 && old(Contents())[slot].Generation() == generation
      ensures one.None? ==> unchanged(this)
      ensures one.Some? ==>
                && one.value == old(Contents())[slot] && Contents() == old(Contents()) - {slot}
                && |inventory| == old(|inventory|) - 1 && Total(endedBy) == old(Total(endedBy)) + 1
                && one.value.target in endedBy
                && endedBy[one.value.target] ==
                     (if one.value.target in old(endedBy) then old(endedBy)[one.value.target] else 0) + 1
                && endedBy - {one.value.target} == old(endedBy) - {one.value.target}
    {
      one := RemoveRecorded(slot, generation);
      if one.Some? {
        var t := one.value.target;
        TotalCounted(endedBy, t);
        endedBy := endedBy[t := (if t in endedBy then endedBy[t] else 0) + 1];
      }
    }

    /** Whether recording a selection would leave its predecessor in the list with
        nothing naming it: one without a generation cannot be retired. */
    ghost predicate Orphans(one: Selection)
      requires Described()
      reads this
    {
      one.Slot() in Contents() && Contents()[one.Slot()].Generation() == 0 && one.Generation() != 0
    }

    /** Whether recording a selection leaves the record as it was. */
    static predicate Keeps(was: map<Place, Selection>, one: Selection, granted: bool) {
      var slot := one.Slot();
      !granted || (slot in was && (was[slot].Generation() == one.Generation() || one.Generation() == 0))
    }

    /** Whether a slot's place holds a selection. */
    predicate At(one: Selection)
      reads this
    {
      one.Slot() in index && index[one.Slot()] < |inventory| && inventory[index[one.Slot()]].Same(one)
    }

    /** Records a selection whose generation the allowlist then authenticated: the
        first record of a generation stands, and another replaces its predecessor.
        The record stays exact if and only if no predecessor lacked a generation. */
    method Recorded(one: Selection, granted: bool) returns (ended: Option<Selection>)
      requires Valid()
      modifies this
      ensures Valid() <==> !(granted && old(Orphans(one)))
      ensures (Described() ==> Valid()) && (granted && old(Orphans(one)) ==> At(one))
      ensures Valid() ==>
                var was, slot := old(Contents()), one.Slot();
                && (Keeps(was, one, granted) ==> Contents() == was && ended == None && recordings == old(recordings))
                && (!Keeps(was, one, granted) ==>
                      && Contents() == was[slot := one] && recordings == old(recordings) + 1
                      && ended == (if slot in was then Some(was[slot]) else None))
                && retracted == old(retracted)
    {
      hide Balanced, Named;
      var slot := one.Slot();
      if !granted || (slot in index &&
                      (inventory[index[slot]].Generation() == one.Generation() || one.Generation() == 0)) {
        return None;
      }
      ended := Replace(one);
    }

    /** Records a generation that is not on record, ending the one it follows. */
    method Replace(one: Selection) returns (ended: Option<Selection>)
      requires Valid()
      requires var was := Contents();
               one.Slot() in was ==> was[one.Slot()].Generation() != one.Generation() && one.Generation() != 0
      modifies this
      ensures Valid() <==> !old(Orphans(one))
      ensures At(one) && (Described() ==> Valid())
      ensures Valid() ==>
                && Contents() == old(Contents())[one.Slot() := one] && recordings == old(recordings) + 1
                && ended == (if one.Slot() in old(Contents()) then Some(old(Contents())[one.Slot()]) else None)
                && retracted == old(retracted)
    {
      hide Balanced, Named;
      ended := None;
      if one.Slot() in index {
        ended := Retire(one.Slot(), inventory[index[one.Slot()]].Generation());
      }
      assert one.Slot() in Contents() <==> old(Orphans(one));
      Append(one);
    }

    /** Puts a selection last and points its slot there. */
    method Append(one: Selection)
      requires Valid()
      modifies this`inventory, this`index, this`recordings
      ensures recordings == old(recordings) + 1 && At(one)
      ensures Described() <==> one.Slot() !in old(Contents())
      ensures Described() ==> Valid() && Contents() == old(Contents())[one.Slot() := one]
    {
      DescribesOneMore(index, inventory, one);
      ghost var was, places, slot := Contents(), index, one.Slot();
      index := index[one.Slot() := |inventory|];
      inventory, recordings := inventory + [one], recordings + 1;
      hide Total;
      if slot !in places {
        assert forall k :: k in places ==> index[k] == places[k] && inventory[index[k]] == was[k];
      }
    }

    /** Records an admission, and installs its provenance with the same generation;
        one that ended before it was recorded leaves neither behind. */
    method RecordAdmission(one: Selection, granted: bool) returns (ended: Option<Selection>)
      requires Valid()
      modifies this
      ensures Valid() <==> !(granted && old(Orphans(one)))
      ensures one in accepted <==> At(one)
      ensures one in accepted ==> one.Slot() in namedBy && namedBy[one.Slot()] == one.NamedBy()
      ensures Valid() ==>
                var was, slot := old(Contents()), one.Slot();
                && (Keeps(was, one, granted) ==> Contents() == was && ended == None)
                && (!Keeps(was, one, granted) ==>
                      && Contents() == was[slot := one]
                      && ended == (if slot in was then Some(was[slot]) else None))
    {
      hide Balanced, Keeps;
      ended := Recorded(one, granted);
      if one.Slot() in index && inventory[index[one.Slot()]].Same(one) {
        Accept(one);
      }
    }

    /** Accepts a selection its slot holds, and names what it was found by. */
    method Accept(one: Selection)
      requires At(one) && (Described() ==> Valid())
      modifies this`accepted, this`namedBy
      ensures accepted == old(accepted) + [one] && namedBy == old(namedBy)[one.Slot() := one.NamedBy()]
      ensures Valid() <==> old(Valid())
    {
      accepted := accepted + [one];
      namedBy := namedBy[one.Slot() := one.NamedBy()];
    }

    /** Takes back one grant, if it is the one on record. */
    method TakeBack(one: Selection)
      requires Valid()
      modifies this
      ensures Valid() && endedBy == old(endedBy) && recordings == old(recordings)
      ensures var was, slot := old(Contents()), one.Slot();
              var held := slot in was && one.Generation() != 0 && was[slot].Generation() == one.Generation();
              Contents() == if held then was - {slot} else was
    {
      hide Total, Without;
      var gone := RemoveRecorded(one.Slot(), one.Generation());
      if gone.Some? {
        retracted := retracted + 1;
      }
    }

    /** Takes back grants a refused reload had written: each of exactly its own
        generation, and none of them counted as ended. */
    method Retract(granted: seq<Selection>)
      requires Valid()
      modifies this
      ensures Valid() && endedBy == old(endedBy) && recordings == old(recordings)
      ensures forall k :: k in Contents() ==> k in old(Contents()) && Contents()[k] == old(Contents())[k]
      ensures forall k :: k in old(Contents()) ==>
                (k !in Contents() <==> Takes(granted, old(Contents())[k]))
    {
      hide Balanced, Named, Takes;
      ghost var was := Contents();
      TakesNone(granted);
      for n := 0 to |granted|
        invariant Valid() && endedBy == old(endedBy) && recordings == old(recordings)
        invariant forall k :: k in Contents() ==> k in was && Contents()[k] == was[k]
        invariant forall k :: k in was ==> (k !in Contents() <==> Takes(granted[..n], was[k]))
      {
        var one := granted[n];
        ghost var now := Contents();
        TakeBack(one);
        assert granted[..n + 1] == granted[..n] + [one];
        forall k | k in was ensures k !in Contents() <==> Takes(granted[..n + 1], was[k]) {
          TakesMore(granted[..n], one, was[k]);
          assert k in now ==> now[k] == was[k] && was[k].Slot() == k;
        }
      }
      assert granted[..|granted|] == granted;
    }
  }

  /** Whether a list names this very admission. */
  ghost predicate Takes(granted: seq<Selection>, held: Selection) {
    exists one :: one in granted && one.Generation() != 0 && one.Same(held)
  }

  lemma TakesNone(granted: seq<Selection>)
    ensures forall held :: !Takes(granted[..0], held)
  {
  }

  lemma TakesMore(granted: seq<Selection>, one: Selection, held: Selection)
    ensures Takes(granted + [one], held) <==> Takes(granted, held) || (one.Generation() != 0 && one.Same(held))
  {
    if Takes(granted, held) {
      var x :| x in granted && x.Generation() != 0 && x.Same(held);
      assert x in granted + [one];
    }
    if one.Generation() != 0 && one.Same(held) {
      assert one in granted + [one];
    }
  }
}