/** One decode's output: a buffer that grows under reservation while a decoder it
    knows nothing of is read into it, and what is left reserved at the end. */
module Output {
  import opened Values
  import opened ZstdFrames
  import opened ZstdPlan
  import opened Workspace
  import opened Growth

  datatype ChargeKind = WorkspaceCharge | OutputCharge

  datatype Charge = Charge(kind: ChargeKind, bytes: nat)

  /** Who grants memory. It answers as it likes; what it holds is every charge
      granted and not released, and peak the most that came to at once. */
  class Reserver {
    var answers: seq<bool>
    ghost var held: multiset<Charge>
    ghost var total: nat
    ghost var peak: nat

    constructor (willing: seq<bool>)
      ensures answers == willing && held == multiset{} && total == 0 && peak == 0
    {
      answers, held, total, peak := willing, multiset{}, 0, 0;
    }

    /** Whether every answer still to come grants. */
    ghost predicate Generous()
      reads this
    {
      forall i :: 0 <= i < |answers| ==> answers[i]
    }

    method Reserve(c: Charge) returns (ok: bool)
      modifies this
      ensures !ok ==> held == old(held) && total == old(total) && peak == old(peak) && !old(Generous())
      ensures ok ==> held == old(held) + multiset{c} && total == old(total) + c.bytes && peak == Max(old(peak), total)
      ensures old(Generous()) ==> ok && Generous()
    {
      ok := true;
      if answers != [] {
        ok := answers[0];
        assert old(Generous()) ==> ok;
        answers := answers[1..];
      }
      if ok {
        held, total := held + multiset{c}, total + c.bytes;
        peak := Max(peak, total);
      }
    }

    /** A charge is released only while it is held, so no charge is twice. */
    method Release(c: Charge)
      requires c in held && c.bytes <= total
      modifies this
      ensures held == old(held) - multiset{c} && total == old(total) - c.bytes && peak == old(peak)
      ensures answers == old(answers)
    {
      held, total := held - multiset{c}, total - c.bytes;
    }
  }

  // The decoder, as what its reads return.

  datatype Ending = Eof | Failure | Overrun

  function Concat(chunks: seq<Bytes>): Bytes { if chunks == [] then [] else chunks[0] + Concat(chunks[1..]) }

  const IDLE_LIMIT := 100

  /** Fewer than a hundred empty reads in a row, some already made. together says
      the last chunk comes with the ending. */
  predicate Quiet(chunks: seq<Bytes>, together: bool, idle: nat) {
    if chunks == [] || (|chunks| == 1 && together) then true
    else if chunks[0] == [] then idle + 1 < IDLE_LIMIT && Quiet(chunks[1..], together, idle + 1)
    else Quiet(chunks[1..], together, 0)
  }

  datatype Status = More | Ended | Failed

  class Reader {
    var chunks: seq<Bytes>
    const ending: Ending
    const together: bool

    constructor (script: seq<Bytes>, how: Ending, last: bool)
      ensures chunks == script && ending == how && together == last
    {
      chunks, ending, together := script, how, last;
    }

    /** At most what was asked for, in the reader's own pieces; overran says it
        claimed more than there was room for. */
    method Read(space: nat) returns (got: Bytes, status: Status, overran: bool)
      requires space > 0
      modifies this
      ensures |got| <= space && got + Concat(chunks) == old(Concat(chunks))
      ensures status.More? ==> !overran
      ensures overran ==> old(chunks) == [] && ending.Overrun?
      ensures !status.More? ==> chunks == [] && (ending.Eof? <==> status.Ended?)
      ensures status.More? ==>
                && old(chunks) != []
                && (|chunks| < |old(chunks)| || (|chunks| == |old(chunks)| && |Concat(chunks)| < |old(Concat(chunks))|))
                && (forall idle: nat :: old(Quiet(chunks, together, idle)) ==>
                      if got == [] then idle + 1 < IDLE_LIMIT && Quiet(chunks, together, idle + 1)
                      else Quiet(chunks, together, 0))
    {
      if chunks == [] {
        return [], if ending.Eof? then Ended else Failed, ending.Overrun?;
      }
      var head := chunks[0];
      if |head| <= space {
        got := head;
        var last := |chunks| == 1 && together;
        chunks := chunks[1..];
        status := if last then if ending.Eof? then Ended else Failed else More;
        return got, status, false;
      }
      got := head[..space];
      ghost var was := chunks;
      chunks := [head[space..]] + chunks[1..];
      assert chunks[1..] == was[1..] && head == got + head[space..];
      status, overran := More, false;
    }
  }

  lemma ConcatNone()
    ensures Concat([]) == []
  {
  }

  // The buffer.

  datatype Outcome = Decoded | DecodedTooLarge | Refused | DecodingFailed | DecodingTooCostly

  /** The next capacity, by shifts of the limit rounded up. */
  method NextCapacity(limit: nat, current: nat) returns (next: nat)
    requires 1 <= limit <= MAX_BOUND + 1 && current < limit
    ensures next == Next(limit, current)
  {
    next := limit;
    var shift := 1;
    while shift < 63
      invariant 1 <= shift <= 63 && next == Halved(limit, shift - 1)
      invariant shift > 1 ==> next >= FIRST_CAPACITY
      invariant Next(limit, current) == NextFrom(next, current)
    {
      CeilIsHalved(limit, shift);
      var smaller := CeilShift(limit, shift);
      if smaller <= current || smaller < FIRST_CAPACITY {
        return;
      }
      next := smaller;
      shift := shift + 1;
    }
    TopHalving(limit);
  }

  lemma TopHalving(limit: nat)
    requires 1 <= limit <= MAX_BOUND + 1
    ensures Halved(limit, 62) < FIRST_CAPACITY
  {
    HalvedSmall(limit, 62);
    BigPower();
    assert Power(63) == 2 * Power(62);
  }

  /** A stage's output: never longer than its limit, the bound and the one byte that
      tells an output at the bound from one over it, and every buffer reserved
      whole before it is made. */
  class Output {
    var buf: Bytes
    var capacity: nat
    const limit: nat
    const reserver: Reserver

    ghost var capacities: seq<nat>
    ghost const others: multiset<Charge>
    ghost const before: nat
    ghost const peaked: nat

    constructor (most: nat, from: Reserver)
      requires 1 <= most <= MAX_BOUND + 1
      ensures Valid() && fresh(this) && limit == most && reserver == from && buf == [] && capacity == 0
      ensures others == from.held && before == from.total && peaked == from.peak
    {
      buf, capacity, limit, reserver, capacities := [], 0, most, from, [];
      others, before, peaked := from.held, from.total, from.peak;
    }

    /** The charge the current buffer holds. */
    ghost function Mine(): multiset<Charge>
      reads this`capacity
    {
      if capacity > 0 then multiset{Charge(OutputCharge, capacity)} else multiset{}
    }

    /** The buffer is within its capacity, and the capacities so far are the first of
        those the limit gives. */
    ghost predicate Sized()
      reads this
    {
      && 1 <= limit <= MAX_BOUND + 1 && |buf| <= capacity <= limit && OnTheWay(limit, capacity)
      && PassedThrough(limit, capacities, capacity)
    }

    /** Beside what was held before, the reserver holds the buffer alone, and never
        held more than it and the one it replaced. */
    ghost predicate Reserved()
      reads this`capacity, reserver
    {
      && reserver.held == others + Mine() && reserver.total == before + capacity
      && reserver.peak <= Max(peaked, before + limit + Half(limit))
    }

    ghost predicate Valid()
      reads this, reserver
    {
      Sized() && Reserved()
    }

    /** Reserves a next capacity while the old buffer is still held, then gives the
        old one back. */
    method Replace(next: nat) returns (ok: bool)
      requires Reserved() && 0 < next && next + capacity <= limit + Half(limit)
      modifies this`capacity, reserver
      ensures Reserved() && capacity == if ok then next else old(capacity)
      ensures !ok ==> !old(reserver.Generous())
      ensures old(reserver.Generous()) ==> ok && reserver.Generous()
    {
      hide Half;
      ok := reserver.Reserve(Charge(OutputCharge, next));
      if !ok {
        return;
      }
      if capacity > 0 {
        Swapped(others, Charge(OutputCharge, capacity), Charge(OutputCharge, next));
        reserver.Release(Charge(OutputCharge, capacity));
      } else {
        assert others + multiset{} == others;
      }
      capacity := next;
    }

    /** Raises the capacity to the next. */
    method Grow() returns (ok: bool)
      requires Valid() && capacity < limit
      modifies this`capacity, this`capacities, reserver
      ensures Valid() && buf == old(buf)
      ensures ok ==> capacity == Next(limit, old(capacity)) > old(capacity)
      ensures !ok ==> capacity == old(capacity) && !old(reserver.Generous())
      ensures old(reserver.Generous()) ==> ok && reserver.Generous()
    {
      hide Reserved, Half;
      var next := NextCapacity(limit, capacity);
      NextDoubles(limit, capacity);
      HalfLimit(limit, capacity);
      ReachesNext(limit, capacities, capacity);
      hide PassedThrough, Next, OnTheWay;
      ok := Replace(next);
      if ok {
        capacities := capacities + [next];
      }
    }

    lemma Bounds()
      requires Valid()
      ensures |buf| <= capacity <= limit && 1 <= limit
    {
    }

    /** What a valid output has reserved. */
    lemma Account()
      requires Valid()
      ensures |buf| <= capacity <= limit && reserver.total == before + capacity
      ensures capacity == 0 || capacity in Chain(limit, 0)
      ensures reserver.held == others + if capacity > 0 then multiset{Charge(OutputCharge, capacity)} else multiset{}
      ensures reserver.peak <= Max(peaked, before + limit + Half(limit))
    {
      if capacity > 0 { ReachedIn(limit, capacities, capacity); }
    }

    method Take(got: Bytes)
      requires Valid() && |buf| + |got| <= capacity
      modifies this`buf
      ensures Valid() && buf == old(buf) + got && |buf| <= limit
    {
      buf := buf + got;
    }

    /** Reads a decoder into the buffer until it ends, the limit is reached, growth is
        refused, or nothing comes of it. */
    method Fill(r: Reader) returns (outcome: Outcome)
      requires Valid() && |buf| < limit
      modifies this`buf, this`capacity, this`capacities, reserver, r
      ensures Valid() && buf + Concat(r.chunks) == old(buf + Concat(r.chunks))
      ensures outcome.Decoded? ==> r.chunks == [] && r.ending.Eof? && |buf| < limit
      ensures outcome.DecodedTooLarge? ==> |buf| == limit
      ensures outcome.Refused? ==> !old(reserver.Generous())
      ensures !outcome.DecodingTooCostly? && (!outcome.DecodedTooLarge? ==> |buf| < limit)
      ensures old(reserver.Generous()) && old(Quiet(r.chunks, r.together, 0)) ==>
                var all := old(buf + Concat(r.chunks));
                && outcome == (if |all| >= limit then DecodedTooLarge else if r.ending.Eof? then Decoded
                               else DecodingFailed)
                && buf == if |all| >= limit then all[..limit] else all
    {
      ConcatNone();
      hide Valid, Quiet, Concat;
      ghost var all := buf + Concat(r.chunks);
      ghost var granted, quiet := reserver.Generous(), Quiet(r.chunks, r.together, 0);
      var idle := 0;
      while true
        invariant Valid() && |buf| < limit && buf + Concat(r.chunks) == all
        invariant granted == old(reserver.Generous()) && quiet == old(Quiet(r.chunks, r.together, 0))
        invariant granted ==> reserver.Generous()
        invariant quiet ==> Quiet(r.chunks, r.together, idle)
        invariant idle < IDLE_LIMIT
        decreases |r.chunks|, |Concat(r.chunks)|
      {
        Bounds();
        if |buf| == capacity {
          var ok := Grow();
          if !ok {
            return Refused;
          }
        }
        Bounds();
        var got, status, overran := r.Read(capacity - |buf|);
        assert buf + (got + Concat(r.chunks)) == buf + got + Concat(r.chunks);
        Take(got);
        if overran {
          return DecodingFailed;
        }
        if |buf| >= limit {
          assert all[..limit] == buf;
          return DecodedTooLarge;
        }
        match status {
          case Ended => return Decoded;
          case Failed => return DecodingFailed;
          case More =>
            if got == [] {
              idle := idle + 1;
              if idle == IDLE_LIMIT {
                return DecodingFailed;
              }
            } else {
              idle := 0;
            }
        }
      }
    }
  }

  lemma Swapped(others: multiset<Charge>, was: Charge, now: Charge)
    ensures others + multiset{was} + multiset{now} - multiset{was} == others + multiset{now}
  {
  }

  /** A buffer replaced is at most half the limit, rounded up. */
  lemma HalfLimit(limit: nat, current: nat)
    requires OnTheWay(limit, current) && current < limit
    ensures Next(limit, current) + current <= limit + Half(limit)
  {
    NextStops(limit, current);
  }
}
