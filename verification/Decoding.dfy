/** One decode from its first reservation to what it leaves charged, whatever the
    decoder does and whatever is refused. */
module Decoding {
  import opened Values
  import opened ZstdFrames
  import opened ZstdPlan
  import opened Workspace
  import opened Growth
  import opened Output

  /** What a caller gets: on Decoded a body, still charged; otherwise nothing. */
  datatype Result = Result(outcome: Outcome, body: Option<Bytes>, charge: nat)

  /** What refuses a brotli stage before anything is reserved. */
  function HeaderRefuses(c: Coding, input: Bytes, bound: int): Option<Outcome> {
    if !c.Brotli? then None
    else if input == [] || WindowBits(input[0]).1 then Some(DecodingFailed)
    else if !Admits(WindowBits(input[0]).0, bound) then Some(DecodedTooLarge)
    else None
  }

  /** The ceiling on what one decode holds reserved at once. */
  function Charges(c: Coding, bound: int): nat {
    var n := Clamp(bound) + 1;
    n + Half(n) + Ceiling(c, bound)
  }

  /** How far past its ceiling a Zstandard plan can go, where allocated steps down. */
  function Slack(c: Coding, bound: int): nat { if c.Zstd? && StepsDown(bound) then 31 else 0 }

  /** What a stage's decoder comes to: each part read in turn, as gzip reads its
      members, while the last ended well; then the stage's own word on the outcome,
      which never makes a failure a success. */
  method RunStage(out: Output, parts: seq<Reader>, judge: Outcome -> Outcome) returns (outcome: Outcome)
    requires out.Valid() && out.buf == [] && out.capacity == 0 && forall o :: judge(o).Decoded? ==> o.Decoded?
    modifies out`buf, out`capacity, out`capacities, out.reserver, set r | r in parts
    ensures out.Valid() && (outcome.Decoded? ==> |out.buf| < out.limit)
  {
    outcome := Decoded;
    var i := 0;
    out.Bounds();
    while i < |parts| && outcome.Decoded?
      invariant 0 <= i <= |parts| && out.Valid() && (outcome.Decoded? ==> |out.buf| < out.limit)
    {
      outcome := out.Fill(parts[i]);
      i := i + 1;
    }
    outcome := judge(outcome);
  }

  /** One stage under a workspace already reserved, which it releases. */
  method DecodeStage(bound: int, workspace: nat, reserver: Reserver, parts: seq<Reader>, judge: Outcome -> Outcome)
      returns (result: Result)
    requires forall o :: judge(o).Decoded? ==> o.Decoded?
    requires Charge(WorkspaceCharge, workspace) in reserver.held && workspace <= reserver.total
    modifies reserver, set r | r in parts
    ensures result.outcome.Decoded? <==> result.body.Some?
    ensures result.outcome.Decoded? ==>
              |result.body.value| <= Clamp(bound) && |result.body.value| <= result.charge <= Clamp(bound) + 1
    ensures !result.outcome.Decoded? ==> result.charge == 0
    ensures result.charge == 0 || result.charge in Chain(Clamp(bound) + 1, 0)
    ensures reserver.held == old(reserver.held) - multiset{Charge(WorkspaceCharge, workspace)} + Left(result.charge)
    ensures reserver.total == old(reserver.total) - workspace + result.charge
    ensures reserver.peak <= Max(old(reserver.peak), old(reserver.total) + Clamp(bound) + 1 + Half(Clamp(bound) + 1))
  {
    hide Output.Valid, Clamp, Chain, Half, Max;
    ClampPositive(bound);
    var w := Charge(WorkspaceCharge, workspace);
    ghost var was := reserver.held;
    var out := new Output(Clamp(bound) + 1, reserver);
    var outcome := RunStage(out, parts, judge);
    out.Account();
    GivenBack(was, w, out.capacity);
    reserver.Release(w);
    if outcome.Decoded? {
      return Result(Decoded, Some(out.buf), out.capacity);
    }
    if out.capacity > 0 {
      reserver.Release(Charge(OutputCharge, out.capacity));
    }
    return Result(outcome, None, 0);
  }

  lemma GivenBack(held: multiset<Charge>, w: Charge, capacity: nat)
    requires w in held
    ensures held + Left(capacity) - multiset{w} == held - multiset{w} + Left(capacity)
    ensures capacity > 0 ==>
              held - multiset{w} + Left(capacity) - multiset{Charge(OutputCharge, capacity)} ==
                held - multiset{w} + Left(0)
  {
  }

  lemma ClampPositive(bound: int)
    ensures 0 <= Clamp(bound) <= MAX_BOUND
  {
  }

  /** The charge a decode leaves to its caller. */
  function Left(charge: nat): multiset<Charge> {
    if charge > 0 then multiset{Charge(OutputCharge, charge)} else multiset{}
  }

  /** Whatever the reserver refuses and wherever the decoder stops: every charge made
      is released, once, but on Decoded the output's, which is its capacity; and
      the total held never passes what Charges allows. */
  method Decode(c: Coding, input: Bytes, bound: int, reserver: Reserver, parts: seq<Reader>, judge: Outcome -> Outcome)
      returns (result: Result)
    requires forall o :: judge(o).Decoded? ==> o.Decoded?
    modifies reserver, set r | r in parts
    ensures result.outcome.Decoded? <==> result.body.Some?
    ensures result.outcome.Decoded? ==>
              |result.body.value| <= Clamp(bound) && |result.body.value| <= result.charge <= Clamp(bound) + 1
    ensures !result.outcome.Decoded? ==> result.charge == 0
    ensures result.charge == 0 || result.charge in Chain(Clamp(bound) + 1, 0)
    ensures reserver.held == old(reserver.held) + Left(result.charge)
    ensures reserver.total == old(reserver.total) + result.charge
    ensures reserver.peak <= Max(old(reserver.peak), old(reserver.total) + Charges(c, bound) + Slack(c, bound))
  {
    hide Ceiling, Planned, HeaderRefuses, Left, Chain;
    var refused := HeaderRefuses(c, input, bound);
    if refused.Some? {
      HeaderNeverDecodes(c, input, bound);
      return Result(refused.value, None, 0);
    }
    var workspace := Planned(c, input, bound);
    PlannedWithin(c, input, bound);
    var ok := reserver.Reserve(Charge(WorkspaceCharge, workspace));
    if !ok {
      LeftNothing();
      return Result(Refused, None, 0);
    }
    result := DecodeStage(bound, workspace, reserver, parts, judge);
  }

  lemma HeaderNeverDecodes(c: Coding, input: Bytes, bound: int)
    requires HeaderRefuses(c, input, bound).Some?
    ensures !HeaderRefuses(c, input, bound).value.Decoded? && Left(0) == multiset{}
  {
  }

  lemma LeftNothing()
    ensures Left(0) == multiset{}
  {
  }

  lemma PlannedWithin(c: Coding, input: Bytes, bound: int)
    ensures Planned(c, input, bound) <= Ceiling(c, bound) + Slack(c, bound)
  {
    hide Allocated, PlanOf, Envelope;
    match c
    case Zstd => ZstdWithin(input, bound);
    case Brotli => BrotliWithin(input, bound);
    case _ =>
  }
}
