/** The capacities an output buffer passes through on its way to its limit. */
module Growth {
  import opened ZstdFrames
  import opened ZstdPlan
  import opened Workspace

  const FIRST_CAPACITY := 4096

  function Half(n: nat): nat { (n + 1) / 2 }

  /** A number halved again and again, rounded up. */
  function Halved(n: nat, times: nat): (h: nat)
  {
    if times == 0 then n else Half(Halved(n, times - 1))
  }

  // The source rounds a shift up instead.

  lemma DivideUnique(n: nat, d: nat, q: nat, r: nat)
    requires d > 0 && n == q * d + r && r < d
    ensures n / d == q && n % d == r
  {
    var a, b := n / d, n % d;
    Apart(a, b, q, r, d);
  }

  lemma Apart(a: nat, b: nat, q: nat, r: nat, d: nat)
    requires a * d + b == q * d + r && b < d && r < d
    ensures a == q && b == r
  {
    if a > q {
      Scaled(q + 1, a, d);
    } else if a < q {
      Scaled(a + 1, q, d);
    }
  }

  lemma Scaled(a: nat, b: nat, p: nat)
    requires a <= b
    ensures a * p <= b * p
  {
  }

  /** ceil(n / 2^shift), as the quotient and whether anything remains. */
  function CeilShift(n: nat, shift: nat): nat
  {
    var p := Positive(shift);
    n / p + if n % p != 0 then 1 else 0
  }

  function Positive(shift: nat): (p: nat)
    ensures p == Power(shift) && p > 0
  {
    PowerPositive(shift);
    Power(shift)
  }

  lemma CeilHalves(n: nat, shift: nat)
    ensures CeilShift(n, shift + 1) == Half(CeilShift(n, shift))
  {
    var p := Positive(shift);
    assert Positive(shift + 1) == 2 * p;
    HalfDivided(n, p, n / p, n % p);
  }

  /** Dividing by twice as much, from dividing by half of it. */
  lemma HalfDivided(n: nat, p: nat, q: nat, r: nat)
    requires p > 0 && q == n / p && r == n % p
    ensures n / (2 * p) == q / 2 && (n % (2 * p) != 0 <==> q % 2 != 0 || r != 0)
  {
    var h, o := q / 2, q % 2;
    Divided(n, p);
    Distributed(h, o, p);
    Remains(o, r, p);
    DivideUnique(n, 2 * p, h, o * p + r);
  }

  lemma Divided(n: nat, p: nat)
    requires p > 0
    ensures n == n / p * p + n % p
  {
  }

  lemma Distributed(h: nat, o: nat, p: nat)
    ensures (2 * h + o) * p == h * (2 * p) + o * p
  {
  }

  lemma Remains(o: nat, r: nat, p: nat)
    requires o <= 1 && p > 0
    ensures (o * p + r != 0 <==> o != 0 || r != 0) && o * p <= p
  {
  }

  /** Rounding a shift up is halving and rounding up as often. */
  lemma {:induction false} CeilIsHalved(n: nat, shift: nat)
    ensures CeilShift(n, shift) == Halved(n, shift)
  {
    if shift == 0 {
      assert Positive(0) == 1;
    } else {
      CeilIsHalved(n, shift - 1);
      CeilHalves(n, shift - 1);
    }
  }

  lemma Doubled(a: nat, p: nat)
    ensures a * (2 * p) == (a * 2) * p
  {
  }

  lemma {:induction false} HalvedSmall(n: nat, times: nat)
    ensures Halved(n, times) * Power(times) < n + Power(times)
  {
    if times == 0 {
    } else {
      HalvedSmall(n, times - 1);
      var h, p := Halved(n, times - 1), Power(times - 1);
      Scaled(Half(h) * 2, h + 1, p);
      Doubled(Half(h), p);
    }
  }

  // The next capacity.

  /** The smallest of a capacity's halvings still above the current one, and not
      below the first. */
  function NextFrom(c: nat, current: nat): (next: nat)
    ensures next <= c && (next == c || next <= Half(c))
    ensures c > current ==> next > current
    decreases c
  {
    if Half(c) <= current || Half(c) < FIRST_CAPACITY then c else NextFrom(Half(c), current)
  }

  function Next(limit: nat, current: nat): nat { NextFrom(limit, current) }

  /** The capacities from one to a limit. */
  function Chain(limit: nat, current: nat): (chain: seq<nat>)
    ensures current >= limit ==> chain == []
    decreases limit - current
  {
    if current >= limit then [] else [Next(limit, current)] + Chain(limit, Next(limit, current))
  }

  /** A capacity a buffer may have on its way to a limit. */
  predicate OnTheWay(limit: nat, current: nat) {
    current == 0 || current == limit || FIRST_CAPACITY <= current <= Half(limit)
  }

  /** Each capacity is at most double the last, and one replaced at most half the
      limit rounded up. */
  lemma NextDoubles(limit: nat, current: nat)
    requires OnTheWay(limit, current) && current < limit
    ensures current < Next(limit, current) <= limit && OnTheWay(limit, Next(limit, current))
    ensures current > 0 ==> Next(limit, current) <= 2 * current
    ensures Next(limit, current) < limit ==> Next(limit, current) <= Half(limit)
  {
    NextStops(limit, current);
  }

  lemma {:induction false} NextStops(c: nat, current: nat)
    requires current < c
    ensures var n := NextFrom(c, current);
            && (Half(n) <= current || Half(n) < FIRST_CAPACITY) && (n == c || n >= FIRST_CAPACITY)
    decreases c
  {
    if !(Half(c) <= current || Half(c) < FIRST_CAPACITY) {
      NextStops(Half(c), current);
    }
  }

  /** That a buffer has passed through the first of a limit's capacities, to one. */
  ghost predicate PassedThrough(limit: nat, capacities: seq<nat>, capacity: nat) {
    && capacities + Chain(limit, capacity) == Chain(limit, 0)
    && (capacity == 0 ==> capacities == [])
    && (capacity > 0 ==> capacities != [] && capacities[|capacities| - 1] == capacity)
  }

  lemma ReachesNext(limit: nat, capacities: seq<nat>, capacity: nat)
    requires PassedThrough(limit, capacities, capacity) && capacity < limit && Next(limit, capacity) > 0
    ensures PassedThrough(limit, capacities + [Next(limit, capacity)], Next(limit, capacity))
  {
    hide Next;
    var next := Next(limit, capacity);
    assert Chain(limit, capacity) == [next] + Chain(limit, next);
    assert capacities + ([next] + Chain(limit, next)) == capacities + [next] + Chain(limit, next);
  }

  lemma ReachedIn(limit: nat, capacities: seq<nat>, capacity: nat)
    requires PassedThrough(limit, capacities, capacity) && capacity > 0
    ensures capacity in Chain(limit, 0)
  {
    assert (capacities + Chain(limit, capacity))[|capacities| - 1] == capacity;
  }

  /** What the runtime counts for every buffer on the way. */
  function Cost(chain: seq<nat>): nat { if chain == [] then 0 else Allocated(chain[0]) + Cost(chain[1..]) }

  /** Every buffer one stage's output allocates, summed from the shifts. */
  method OutputGrowth(bound: nat) returns (sum: nat)
    requires bound <= MAX_BOUND
    ensures sum == Cost(Chain(bound + 1, 0))
  {
    hide Halved, Allocated, CeilShift;
    var limit := bound + 1;
    sum := 0;
    var previous, shift := 0, 62;
    TopShift(limit);
    while shift >= 0
      invariant -1 <= shift <= 62
      invariant sum + Cost(Chain(limit, previous)) == Cost(Chain(limit, 0))
      invariant Passed(limit, shift, previous)
      decreases shift
    {
      CeilIsHalved(limit, shift);
      var capacity := CeilShift(limit, shift);
      PassedStep(limit, shift, previous);
      if capacity < FIRST_CAPACITY && capacity < limit {
      } else if capacity > previous {
        sum := sum + Allocated(capacity);
        previous := capacity;
      }
      shift := shift - 1;
    }
  }

  /** That a walk down the shifts has counted every capacity up to one. */
  ghost predicate Passed(limit: nat, shift: int, previous: nat)
    requires -1 <= shift
  {
    && previous <= limit && (shift == -1 ==> previous == limit)
    && (previous < limit ==> Halved(limit, shift + 1) <= previous || Halved(limit, shift + 1) < FIRST_CAPACITY)
    && (previous == limit || limit == 1 || Halved(limit, shift + 1) < limit)
  }

  lemma TopShift(limit: nat)
    requires 1 <= limit <= MAX_BOUND + 1
    ensures Passed(limit, 62, 0)
  {
    HalvedSmall(limit, 63);
    BigPower();
  }

  lemma BigPower()
    ensures Power(63) == 0x8000_0000_0000_0000
  {
    assert Power(8) == 256;
    assert Power(16) == 65536;
    assert Power(24) == 0x100_0000;
    assert Power(32) == 0x1_0000_0000;
    assert Power(40) == 0x100_0000_0000;
    assert Power(48) == 0x1_0000_0000_0000;
    assert Power(56) == 0x100_0000_0000_0000;
  }

  lemma PassedStep(limit: nat, shift: int, previous: nat)
    requires 1 <= limit && 0 <= shift && Passed(limit, shift, previous)
    ensures var capacity := Halved(limit, shift);
            && (capacity < FIRST_CAPACITY && capacity < limit ==> Passed(limit, shift - 1, previous))
            && (!(capacity < FIRST_CAPACITY && capacity < limit) && capacity > previous ==>
                  Next(limit, previous) == capacity && Passed(limit, shift - 1, capacity)
                  && Chain(limit, previous) == [capacity] + Chain(limit, capacity))
            && (!(capacity < FIRST_CAPACITY && capacity < limit) && capacity <= previous ==>
                  Passed(limit, shift - 1, previous))
  {
    var capacity := Halved(limit, shift);
    HalvedShrinks(limit, shift);
    if !(capacity < FIRST_CAPACITY && capacity < limit) && capacity > previous {
      NextIs(limit, shift, 0, previous);
    }
  }

  lemma {:induction false} HalvedShrinks(n: nat, times: nat)
    requires n >= 1
    ensures 1 <= Halved(n, times) <= n && (times > 0 && n > 1 ==> Halved(n, times) < n)
  {
    if times > 0 { HalvedShrinks(n, times - 1); }
  }

  /** Down from a limit the walk stops at the capacity a shift gives. */
  lemma {:induction false} NextIs(limit: nat, shift: nat, from: nat, previous: nat)
    requires limit >= 1 && from <= shift && Halved(limit, shift) > previous
    requires Halved(limit, shift) >= FIRST_CAPACITY || Halved(limit, shift) == limit
    requires Halved(limit, shift + 1) <= previous || Halved(limit, shift + 1) < FIRST_CAPACITY
    ensures NextFrom(Halved(limit, from), previous) == Halved(limit, shift)
    decreases shift - from
  {
    if from < shift {
      HalvedMonotone(limit, from + 1, shift);
      HalvedShrinks(limit, shift);
      if Halved(limit, shift) == limit {
        HalvedShrinks(limit, from);
        HalvedMonotone(limit, from, shift);
      } else {
        NextIs(limit, shift, from + 1, previous);
      }
    }
  }

  lemma {:induction false} HalvedMonotone(n: nat, i: nat, j: nat)
    requires i <= j
    ensures Halved(n, j) <= Halved(n, i)
    decreases j - i
  {
    if i < j { HalvedMonotone(n, i, j - 1); }
  }
}
