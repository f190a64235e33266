/** Admissions across several owners, against the ends those owners report: calls
    ask owner after owner, ends arrive at any moment, and the routes are what is
    left. */
module Group {
  import opened Values

  type Owner = nat
  type Scope = nat
  type CallId = c: nat | c > 0 witness 1

  /** A process as its owner granted it. */
  datatype Grant = Grant(pid: int, instance: Instance, scope: Scope)

  /** Which owner an observed process goes to; call is the one that installed it,
      or zero for one attached at the start. */
  datatype Route = Route(instance: Instance, owner: Owner, confirmed: bool, scope: Scope, call: nat)

  /** One owner's part of a call: whom it was asked for, what it granted, and the
      ends it has reported since the call began. */
  datatype Batch = Batch(owner: Owner, pids: set<int>, granted: seq<Grant>, ended: set<(Scope, InstanceKey)>)

  datatype Outcome = Asking | Refused | Installed

  /** What a caller names of a selection it was given. */
  type Identity = (int, Instance)

  function IdOf(x: Grant): Identity { (x.pid, x.instance) }

  /** asked counts the owners that answered; of a refused call the first due batches
      are handed back, and back of them have been; spent is what the receipt of an
      installed one has been asked to take back. */
  datatype Call = Call(batches: seq<Batch>, asked: nat, outcome: Outcome, due: nat, back: nat, spent: set<Identity>)

  /** A receipt being acted on: what it takes of its call, the batch it is at, and
      whether that batch's routes are gone already. */
  datatype Redemption = Redemption(call: CallId, take: set<Identity>, at: nat, cleared: bool)

  type Redeemer = nat

  /** The scope of an owner that gives none. */
  const NO_SCOPE: Scope := 0

  /** sole says there is one owner; pending names the calls whose ends are still noted;
      redeeming the receipts acted on. granted, reported, handed and dropped are what
      happened: every grant an owner wrote, every end it reported, every grant a
      refusal or a receipt handed back, by call and owner, and every route that was
      taken back; withdrawn is every confirmed one Group.Retract handed back. */
  datatype State = State(
    sole: bool,
    routes: map<int, Route>,
    calls: map<CallId, Call>,
    pending: set<CallId>,
    redeeming: map<Redeemer, Redemption>,
    granted: set<(Owner, Grant)>,
    reported: set<(Owner, Grant)>,
    handed: multiset<(CallId, Owner, Grant)>,
    dropped: multiset<(int, Route)>,
    withdrawn: multiset<(Owner, Grant)>)

  /** Attached: each route of the start, confirmed or not, stands for no admission
      whose end was already reported, and a confirmed one is of a grant. */
  ghost predicate Initial(g: State) {
    && g.calls == map[] && g.pending == {} && g.redeeming == map[] && g.reported <= g.granted
    && g.handed == multiset{} && g.dropped == multiset{} && g.withdrawn == multiset{}
    && (forall pid :: pid in g.routes ==>
          && g.routes[pid].call == 0
          && (g.routes[pid].confirmed ==> (g.routes[pid].owner, GrantOf(pid, g.routes[pid])) in g.granted)
          && Unended(g, pid, g.routes[pid]))
  }

  function GrantOf(pid: int, r: Route): Grant { Grant(pid, r.instance, r.scope) }

  datatype Step =
    | Begin(call: CallId, plan: seq<(Owner, set<int>)>)
    | Write(call: CallId, grant: Grant)
    | Answer(call: CallId, ok: bool)
    | Reject(call: CallId)
    | HandBack(call: CallId)
    | Install(call: CallId)
    | Leave(call: CallId)
    | End(owner: Owner, grant: Grant)
    | Redeem(redeemer: Redeemer, call: CallId, named: set<Identity>)
    | Clear(redeemer: Redeemer)
    | Restore(redeemer: Redeemer)
    | Withdraw(one: Identity)

  /** The owner being asked. */
  function Now(c: Call): Batch
    requires c.asked < |c.batches|
  {
    c.batches[c.asked]
  }

  predicate Open(g: State, call: CallId) { call in g.calls && call in g.pending && g.calls[call].outcome == Asking }

  /** A refused call with a batch still to hand back. */
  predicate HandsBack(g: State, call: CallId) {
    && call in g.calls && g.calls[call].outcome == Refused
    && g.calls[call].back < g.calls[call].due <= |g.calls[call].batches|
  }

  /** A receipt with a batch left, its routes gone or not. */
  predicate AtBatch(g: State, r: Redeemer, cleared: bool) {
    && r in g.redeeming && g.redeeming[r].cleared == cleared && g.redeeming[r].call in g.calls
    && g.redeeming[r].at < |g.calls[g.redeeming[r].call].batches|
  }

  /** The batch a receipt is at. */
  function BatchAt(g: State, r: Redeemer): Batch
    requires r in g.redeeming && g.redeeming[r].call in g.calls
    requires g.redeeming[r].at < |g.calls[g.redeeming[r].call].batches|
  {
    g.calls[g.redeeming[r].call].batches[g.redeeming[r].at]
  }

  /** An owner grants only what it was asked for, never the same admission twice,
      and reports the end only of what it granted. A call leaves once it is over, and
      its receipt is then the caller's. Group.Retract works with one owner. */
  predicate Enabled(g: State, s: Step) {
    match s
    case Begin(call, _) => call !in g.calls
    case Write(call, grant) =>
      && Open(g, call) && g.calls[call].asked < |g.calls[call].batches|
      && grant.pid in Now(g.calls[call]).pids && (Now(g.calls[call]).owner, grant) !in g.granted
    case Answer(call, _) => Open(g, call) && g.calls[call].asked < |g.calls[call].batches|
    case Reject(call) => Open(g, call) && g.calls[call].asked == |g.calls[call].batches|
    case HandBack(call) => HandsBack(g, call)
    case Install(call) => Open(g, call) && g.calls[call].asked == |g.calls[call].batches|
    case Leave(call) =>
      call in g.pending && call in g.calls && g.calls[call].outcome != Asking && !HandsBack(g, call)
    case End(owner, grant) => (owner, grant) in g.granted
    case Redeem(r, call, _) =>
      r !in g.redeeming && call in g.calls && call !in g.pending && g.calls[call].outcome == Installed
    case Clear(r) => AtBatch(g, r, false)
    case Restore(r) => AtBatch(g, r, true)
    case Withdraw(_) => g.sole
  }

  // What a call was granted, and what of it was handed back.

  /** How often a list holds a grant. */
  function Count(granted: seq<Grant>, x: Grant): nat {
    if granted == [] then 0
    else Count(granted[..|granted| - 1], x) + if granted[|granted| - 1] == x then 1 else 0
  }

  /** How often the first batches of a call hold a grant of an owner. */
  function Held(batches: seq<Batch>, n: nat, owner: Owner, x: Grant): nat
    requires n <= |batches|
  {
    if n == 0 then 0
    else
      Held(batches, n - 1, owner, x) +
      if batches[n - 1].owner == owner then Count(batches[n - 1].granted, x) else 0
  }

  /** Whether an owner granted this to a call. */
  ghost predicate Holds(c: Call, owner: Owner, x: Grant) {
    exists i :: 0 <= i < |c.batches| && c.batches[i].owner == owner && x in c.batches[i].granted
  }

  /** One batch given back to its owner, selection by selection. */
  function GiveBack(call: CallId, owner: Owner, granted: seq<Grant>): multiset<(CallId, Owner, Grant)> {
    if granted == [] then multiset{}
    else GiveBack(call, owner, granted[..|granted| - 1]) + multiset{(call, owner, granted[|granted| - 1])}
  }

  /** The grants of a list a receipt was asked for. */
  function Chosen(granted: seq<Grant>, take: set<Identity>): seq<Grant> {
    if granted == [] then []
    else
      var x := granted[|granted| - 1];
      Chosen(granted[..|granted| - 1], take) + if IdOf(x) in take then [x] else []
  }

  /** Whether a route is the one an owner's grant was given. */
  predicate Carries(pid: int, r: Route, owner: Owner, x: Grant) {
    x.pid == pid && r.owner == owner && r.scope == x.scope && r.instance == x.instance
  }

  /** The processes whose route is of one of these grants. */
  function Cleared(routes: map<int, Route>, owner: Owner, taken: seq<Grant>): set<int> {
    set pid | pid in routes && exists x | x in taken :: Carries(pid, routes[pid], owner, x)
  }

  /** Those whose route Group.Retract takes back for a selection. */
  function Unscoped(routes: map<int, Route>, named: Identity): set<int> {
    set pid | pid in routes && pid == named.0 && routes[pid].scope == NO_SCOPE && routes[pid].instance == named.1
  }

  /** What Group.Retract hands back of it. */
  function Sent(routes: map<int, Route>, named: Identity): multiset<(Owner, Grant)> {
    if named.0 in Unscoped(routes, named) && routes[named.0].confirmed
    then multiset{(routes[named.0].owner, GrantOf(named.0, routes[named.0]))} else multiset{}
  }

  function Drop(g: State, pids: set<int>): State
    requires pids <= g.routes.Keys
  {
    g.(routes := g.routes - pids, dropped := g.dropped + multiset(set pid | pid in pids :: (pid, g.routes[pid])))
  }

  /** Whether a grant may be routed: its end was not reported meanwhile. */
  predicate Lives(b: Batch, x: Grant) { x in b.granted && (x.scope, x.instance.key) !in b.ended }

  function RouteOf(call: CallId, b: Batch, x: Grant): Route { Route(x.instance, b.owner, true, x.scope, call) }

  /** What an end does to a batch: noted if it could be one of its own. */
  function Note(b: Batch, owner: Owner, x: Grant): Batch {
    if b.owner == owner && x.pid in b.pids then b.(ended := b.ended + {(x.scope, x.instance.key)}) else b
  }

  function NoteAll(c: Call, owner: Owner, x: Grant): Call {
    c.(batches := seq(|c.batches|, i requires 0 <= i < |c.batches| => Note(c.batches[i], owner, x)))
  }

  /** A call once an end was reported: noted only while the call is pending. */
  function Noting(g: State, call: CallId, owner: Owner, x: Grant): Call
    requires call in g.calls
  {
    if call in g.pending then NoteAll(g.calls[call], owner, x) else g.calls[call]
  }

  /** Whether an end is of the admission a route is for. */
  predicate Ends(r: Route, owner: Owner, x: Grant) {
    && r.owner == owner
    && (|| (r.scope == x.scope && r.instance.key == x.instance.key && r.instance.start == x.instance.start)
        || (!r.confirmed && r.instance.start.determined && r.instance.start == x.instance.start))
  }

  /** No end reported of a process is of the admission its route is for. */
  ghost predicate Unended(g: State, pid: int, r: Route) {
    forall o: Owner, x: Grant :: (o, x) in g.reported && x.pid == pid ==> !Ends(r, o, x)
  }

  function EndRoutes(routes: map<int, Route>, owner: Owner, x: Grant): map<int, Route> {
    if x.pid in routes && Ends(routes[x.pid], owner, x) then routes - {x.pid} else routes
  }

  /** The routes a call's grants leave, laid batch after batch and in each grant
      after grant. */
  function Lay(routes: map<int, Route>, call: CallId, batches: seq<Batch>): map<int, Route> {
    if batches == [] then routes
    else
      var b := batches[|batches| - 1];
      LayBatch(Lay(routes, call, batches[..|batches| - 1]), call, b, b.granted)
  }

  function LayBatch(routes: map<int, Route>, call: CallId, b: Batch, granted: seq<Grant>): map<int, Route> {
    if granted == [] then routes
    else
      var x := granted[|granted| - 1];
      var laid := LayBatch(routes, call, b, granted[..|granted| - 1]);
      if (x.scope, x.instance.key) in b.ended then laid else laid[x.pid := RouteOf(call, b, x)]
  }

  function Next(g: State, s: Step): State
    requires Enabled(g, s)
  {
    match s
    case Begin(call, plan) =>
      var batches := seq(|plan|, i requires 0 <= i < |plan| => Batch(plan[i].0, plan[i].1, [], {}));
      g.(calls := g.calls[call := Call(batches, 0, Asking, 0, 0, {})], pending := g.pending + {call})
    case Write(call, x) =>
      var c := g.calls[call];
      g.(calls := g.calls[call := c.(batches := c.batches[c.asked := Now(c).(granted := Now(c).granted + [x])])],
         granted := g.granted + {(Now(c).owner, x)})
    case Answer(call, ok) =>
      var c := g.calls[call];
      g.(calls := g.calls[call := if ok then c.(asked := c.asked + 1) else c.(outcome := Refused, due := c.asked + 1)])
    case Reject(call) =>
      var c := g.calls[call];
      g.(calls := g.calls[call := c.(outcome := Refused, due := |c.batches|)])
    case HandBack(call) =>
      var c := g.calls[call];
      g.(calls := g.calls[call := c.(back := c.back + 1)],
         handed := g.handed + GiveBack(call, c.batches[c.back].owner, c.batches[c.back].granted))
    case Install(call) =>
      var c := g.calls[call];
      g.(routes := Lay(g.routes, call, c.batches), calls := g.calls[call := c.(outcome := Installed)])
    case Leave(call) => g.(pending := g.pending - {call})
    case End(owner, x) =>
      g.(calls := map call | call in g.calls :: Noting(g, call, owner, x),
         routes := EndRoutes(g.routes, owner, x), reported := g.reported + {(owner, x)})
    case Redeem(r, call, named) =>
      var c := g.calls[call];
      g.(calls := g.calls[call := c.(spent := c.spent + named)],
         redeeming := g.redeeming[r := Redemption(call, named - c.spent, 0, false)])
    case Clear(r) =>
      var d, b := g.redeeming[r], BatchAt(g, r);
      var gone := Cleared(g.routes, b.owner, Chosen(b.granted, d.take));
      Drop(g, gone).(redeeming := g.redeeming[r := d.(cleared := true)])
    case Restore(r) =>
      var d, b := g.redeeming[r], BatchAt(g, r);
      g.(handed := g.handed + GiveBack(d.call, b.owner, Chosen(b.granted, d.take)),
         redeeming := g.redeeming[r := d.(at := d.at + 1, cleared := false)])
    case Withdraw(named) => Drop(g, Unscoped(g.routes, named)).(withdrawn := g.withdrawn + Sent(g.routes, named))
  }

  function Make(g: State, s: Step): State { if Enabled(g, s) then Next(g, s) else g }

  function Made(g: State, steps: seq<Step>): State {
    if steps == [] then g else Make(Made(g, steps[..|steps| - 1]), steps[|steps| - 1])
  }

  // The invariant.

  /** A grant of a call was written and asked for. Of a pending one its reported end
      is noted, and every end noted was reported of a process asked for. */
  ghost predicate BatchOk(g: State, b: Batch) {
    forall x :: x in b.granted ==> x.pid in b.pids && (b.owner, x) in g.granted
  }

  ghost predicate NotedOk(g: State, b: Batch) {
    && (forall x :: x in b.granted && (b.owner, x) in g.reported ==> (x.scope, x.instance.key) in b.ended)
    && (forall k :: k in b.ended ==> Reported(g, b, k))
  }

  /** That an end so named was reported by a batch's owner, of a process it was asked
      for. */
  ghost predicate Reported(g: State, b: Batch, k: (Scope, InstanceKey)) {
    exists x :: (b.owner, x) in g.reported && x.pid in b.pids && (x.scope, x.instance.key) == k
  }

  ghost predicate CallOk(g: State, call: CallId)
    requires call in g.calls
  {
    var c := g.calls[call];
    && c.asked <= |c.batches| && c.back <= c.due <= |c.batches| && (c.outcome != Refused ==> c.due == 0)
    && (c.outcome == Asking ==> call in g.pending) && (c.outcome != Refused ==> c.back == 0)
    && (call !in g.pending ==> c.back == c.due)
    && (c.outcome == Refused ==> forall i :: c.due <= i < |c.batches| ==> c.batches[i].granted == [])
    && (forall i :: c.asked < i < |c.batches| ==> c.batches[i].granted == [])
    && (forall i :: 0 <= i < |c.batches| ==> BatchOk(g, c.batches[i]))
    && (call in g.pending ==> forall i :: 0 <= i < |c.batches| ==> NotedOk(g, c.batches[i]))
  }

  /** No grant is in a call twice, and what was handed back is what the batches done
      with hold; of an installed call, only what its receipt was asked for. */
  ghost predicate OnceOk(g: State, call: CallId)
    requires call in g.calls && g.calls[call].back <= |g.calls[call].batches|
  {
    var c := g.calls[call];
    forall o: Owner, x: Grant ::
      && Held(c.batches, |c.batches|, o, x) <= 1
      && (c.outcome != Installed ==> g.handed[(call, o, x)] == Held(c.batches, c.back, o, x))
      && (c.outcome == Installed && IdOf(x) !in c.spent ==> g.handed[(call, o, x)] == 0)
  }

  /** A receipt has handed back what the batches it is done with hold of its take. */
  ghost predicate ReceiptOk(g: State, r: Redeemer)
    requires r in g.redeeming
  {
    var d := g.redeeming[r];
    && d.call in g.calls && d.call !in g.pending && g.calls[d.call].outcome == Installed
    && d.take <= g.calls[d.call].spent && d.at <= |g.calls[d.call].batches|
    && (forall o: Owner, x: Grant :: IdOf(x) in d.take ==>
          g.handed[(d.call, o, x)] == Held(g.calls[d.call].batches, d.at, o, x))
  }

  /** Two receipts of one call take nothing in common, and whatever was asked is one's. */
  ghost predicate ReceiptsOk(g: State) {
    && (forall r :: r in g.redeeming ==> ReceiptOk(g, r))
    && (forall r, q :: r in g.redeeming && q in g.redeeming && r != q && g.redeeming[r].call == g.redeeming[q].call ==>
          g.redeeming[r].take !! g.redeeming[q].take)
    && (forall call, id :: call in g.calls && id in g.calls[call].spent ==> Asked(g, call, id))
  }

  ghost predicate Asked(g: State, call: CallId, id: Identity) {
    exists r :: r in g.redeeming && g.redeeming[r].call == call && id in g.redeeming[r].take
  }

  ghost predicate RouteOk(g: State, pid: int)
    requires pid in g.routes
  {
    var r := g.routes[pid];
    && Unended(g, pid, r)
    && (r.confirmed ==> (r.owner, GrantOf(pid, r)) in g.granted)
    && (r.call > 0 ==> r.confirmed && r.call in g.calls && g.calls[r.call].outcome == Installed)
  }

  ghost predicate Sound(g: State) { Steady(g) && ReceiptsOk(g) }

  ghost predicate Steady(g: State) {
    && (forall call :: call in g.calls ==> CallOk(g, call) && OnceOk(g, call))
    && (forall pid :: pid in g.routes ==> RouteOk(g, pid))
    && (forall call: CallId, o: Owner, x: Grant :: call !in g.calls ==> g.handed[(call, o, x)] == 0)
    && g.reported <= g.granted
  }

  // Counting.

  lemma {:induction false} CountIn(granted: seq<Grant>, x: Grant)
    ensures Count(granted, x) > 0 <==> x in granted
  {
    if granted != [] {
      CountIn(granted[..|granted| - 1], x);
      assert granted == granted[..|granted| - 1] + [granted[|granted| - 1]];
    }
  }

  lemma {:induction false} GivenBack(call: CallId, owner: Owner, granted: seq<Grant>, other: CallId, o: Owner, x: Grant)
    ensures GiveBack(call, owner, granted)[(other, o, x)] ==
            if other == call && o == owner then Count(granted, x) else 0
  {
    if granted != [] {
      GivenBack(call, owner, granted[..|granted| - 1], other, o, x);
    }
  }

  lemma {:induction false} HeldIn(batches: seq<Batch>, n: nat, o: Owner, x: Grant)
    requires n <= |batches|
    ensures Held(batches, n, o, x) > 0 <==> exists i :: 0 <= i < n && batches[i].owner == o && x in batches[i].granted
  {
    if n > 0 {
      HeldIn(batches, n - 1, o, x);
      CountIn(batches[n - 1].granted, x);
    }
  }

  /** Batches with the same grants hold them as often. */
  lemma {:induction false} HeldSame(a: seq<Batch>, b: seq<Batch>, n: nat, o: Owner, x: Grant)
    requires n <= |a| == |b| && forall i :: 0 <= i < n ==> a[i].owner == b[i].owner && a[i].granted == b[i].granted
    ensures Held(a, n, o, x) == Held(b, n, o, x)
  {
    if n > 0 { HeldSame(a, b, n - 1, o, x); }
  }

  lemma {:induction false} HeldMore(batches: seq<Batch>, n: nat, m: nat, o: Owner, x: Grant)
    requires n <= m <= |batches|
    ensures Held(batches, n, o, x) <= Held(batches, m, o, x)
    ensures (forall i :: n <= i < m ==> batches[i].granted == []) ==> Held(batches, n, o, x) == Held(batches, m, o, x)
    decreases m
  {
    if n < m { HeldMore(batches, n, m - 1, o, x); }
  }

  /** One grant more in one batch. */
  lemma {:induction false} HeldWrite(batches: seq<Batch>, k: nat, y: Grant, n: nat, o: Owner, x: Grant)
    requires k < |batches| && n <= |batches|
    ensures var more := batches[k := batches[k].(granted := batches[k].granted + [y])];
            Held(more, n, o, x) == Held(batches, n, o, x) + if k < n && batches[k].owner == o && x == y then 1 else 0
  {
    if n > 0 {
      HeldWrite(batches, k, y, n - 1, o, x);
      if k == n - 1 {
        assert (batches[k].granted + [y])[..|batches[k].granted|] == batches[k].granted;
      }
    }
  }

  /** Nothing an owner never granted is in a call. */
  lemma HeldNever(g: State, call: CallId, o: Owner, x: Grant)
    requires call in g.calls && CallOk(g, call) && (o, x) !in g.granted
    ensures Held(g.calls[call].batches, |g.calls[call].batches|, o, x) == 0
  {
    var batches := g.calls[call].batches;
    HeldIn(batches, |batches|, o, x);
    assert forall i :: 0 <= i < |batches| ==> BatchOk(g, batches[i]);
  }

  // Laying routes.

  predicate LaidIn(call: CallId, b: Batch, x: Grant, pid: int, r: Route) {
    Lives(b, x) && x.pid == pid && r == RouteOf(call, b, x)
  }

  /** That a call's batches route a process so: by a grant whose end was not noted. */
  ghost predicate LaidBy(call: CallId, batches: seq<Batch>, pid: int, r: Route) {
    exists i, x :: 0 <= i < |batches| && LaidIn(call, batches[i], x, pid, r)
  }

  /** Whether some grant of a process was not noted ended. */
  ghost predicate SomeLives(batches: seq<Batch>, pid: int) {
    exists i, x :: 0 <= i < |batches| && Lives(batches[i], x) && x.pid == pid
  }

  lemma {:induction false} BatchLaid(routes: map<int, Route>, call: CallId, b: Batch, granted: seq<Grant>, pid: int)
    requires forall x :: x in granted ==> x in b.granted
    ensures var laid := LayBatch(routes, call, b, granted);
            var routed := exists x :: x in granted && Lives(b, x) && x.pid == pid;
            && (routed ==> pid in laid && exists x :: LaidIn(call, b, x, pid, laid[pid]))
            && (!routed ==> (pid in laid <==> pid in routes) && (pid in laid ==> laid[pid] == routes[pid]))
  {
    if granted != [] {
      var x, fewer := granted[|granted| - 1], granted[..|granted| - 1];
      BatchLaid(routes, call, b, fewer, pid);
      assert granted == fewer + [x];
      if x.pid == pid && (x.scope, x.instance.key) !in b.ended {
        assert LaidIn(call, b, x, pid, RouteOf(call, b, x));
      }
    }
  }

  /** The routes a call leaves, exactly: a process with a grant whose end was not
      noted is routed by the call, to such a grant, and every other as it was. */
  lemma {:induction false} Laid(routes: map<int, Route>, call: CallId, batches: seq<Batch>, pid: int)
    ensures var laid := Lay(routes, call, batches);
            && (SomeLives(batches, pid) ==> pid in laid && LaidBy(call, batches, pid, laid[pid]))
            && (!SomeLives(batches, pid) ==>
                  (pid in laid <==> pid in routes) && (pid in laid ==> laid[pid] == routes[pid]))
  {
    if batches != [] {
      var fewer, b := batches[..|batches| - 1], batches[|batches| - 1];
      Laid(routes, call, fewer, pid);
      BatchLaid(Lay(routes, call, fewer), call, b, b.granted, pid);
      LaidMore(call, batches, pid);
      var laid := Lay(routes, call, batches);
      if exists x :: x in b.granted && Lives(b, x) && x.pid == pid {
        var x :| LaidIn(call, b, x, pid, laid[pid]);
        assert LaidIn(call, batches[|batches| - 1], x, pid, laid[pid]);
      }
    }
  }

  lemma LaidMore(call: CallId, batches: seq<Batch>, pid: int)
    requires batches != []
    ensures forall r :: LaidBy(call, batches[..|batches| - 1], pid, r) ==> LaidBy(call, batches, pid, r)
    ensures var b := batches[|batches| - 1];
            SomeLives(batches, pid) <==>
            SomeLives(batches[..|batches| - 1], pid) || exists x :: x in b.granted && Lives(b, x) && x.pid == pid
  {
    var fewer, b := batches[..|batches| - 1], batches[|batches| - 1];
    forall r | LaidBy(call, fewer, pid, r) ensures LaidBy(call, batches, pid, r) {
      var i, x :| 0 <= i < |fewer| && LaidIn(call, fewer[i], x, pid, r);
      assert LaidIn(call, batches[i], x, pid, r);
    }
    if SomeLives(fewer, pid) {
      var i, x :| 0 <= i < |fewer| && Lives(fewer[i], x) && x.pid == pid;
      assert Lives(batches[i], x);
    }
    if SomeLives(batches, pid) {
      var i, x :| 0 <= i < |batches| && Lives(batches[i], x) && x.pid == pid;
      assert i < |fewer| ==> Lives(fewer[i], x);
    }
  }

  // Each step.

  /** A call a step left alone. */
  lemma CallKept(g: State, r: State, call: CallId)
    requires call in g.calls && call in r.calls && r.calls[call] == g.calls[call] && CallOk(g, call)
    requires g.granted <= r.granted && r.reported == g.reported && (call in r.pending <==> call in g.pending)
    ensures CallOk(r, call)
  {
    forall i | 0 <= i < |r.calls[call].batches| ensures BatchOk(r, r.calls[call].batches[i]) {
      assert BatchOk(g, g.calls[call].batches[i]);
    }
    forall i | 0 <= i < |r.calls[call].batches| && call in r.pending ensures NotedOk(r, r.calls[call].batches[i]) {
      NotedKept(g, r, g.calls[call].batches[i]);
    }
  }

  lemma NotedKept(g: State, r: State, b: Batch)
    requires NotedOk(g, b) && r.reported == g.reported
    ensures NotedOk(r, b)
  {
    forall k | k in b.ended ensures Reported(r, b, k) { assert Reported(g, b, k); }
  }

  /** The routes of a step that lays none. */
  lemma RoutesKept(g: State, r: State)
    requires Sound(g) && r.routes == g.routes && r.reported == g.reported && g.granted <= r.granted
    requires forall call :: call in g.calls ==>
               call in r.calls && (g.calls[call].outcome == Installed ==> r.calls[call].outcome == Installed)
    ensures forall pid :: pid in r.routes ==> RouteOk(r, pid)
  {
    forall pid | pid in r.routes ensures RouteOk(r, pid) { assert RouteOk(g, pid); }
  }

  lemma BeginSound(g: State, call: CallId, plan: seq<(Owner, set<int>)>)
    requires Sound(g) && Enabled(g, Begin(call, plan))
    ensures Steady(Next(g, Begin(call, plan)))
  {
    var r := Next(g, Begin(call, plan));
    RoutesKept(g, r);
    var batches := r.calls[call].batches;
    forall o: Owner, x: Grant ensures Held(batches, |batches|, o, x) == 0 { HeldMore(batches, 0, |batches|, o, x); }
    forall other | other in g.calls ensures CallOk(r, other) && OnceOk(r, other) { CallKept(g, r, other); }
  }

  lemma WriteSound(g: State, call: CallId, x: Grant)
    requires Sound(g) && Enabled(g, Write(call, x))
    ensures Steady(Next(g, Write(call, x)))
  {
    var r, c := Next(g, Write(call, x)), g.calls[call];
    RoutesKept(g, r);
    forall other | other in g.calls && other != call ensures CallOk(r, other) && OnceOk(r, other) {
      CallKept(g, r, other);
    }
    WriteOk(g, call, x);
    forall o: Owner, y: Grant
      ensures Held(r.calls[call].batches, |c.batches|, o, y) <= 1
      ensures r.handed[(call, o, y)] == Held(r.calls[call].batches, c.back, o, y)
    {
      HeldWrite(c.batches, c.asked, x, |c.batches|, o, y);
      HeldWrite(c.batches, c.asked, x, c.back, o, y);
      if (o, y) !in g.granted { HeldNever(g, call, o, y); }
    }
  }

  lemma WriteOk(g: State, call: CallId, x: Grant)
    requires Sound(g) && Enabled(g, Write(call, x))
    ensures CallOk(Next(g, Write(call, x)), call)
  {
    var r := Next(g, Write(call, x));
    var was, now := g.calls[call].batches, r.calls[call].batches;
    forall i | 0 <= i < |now| ensures BatchOk(r, now[i]) { assert BatchOk(g, was[i]); }
    forall i | 0 <= i < |now| ensures NotedOk(r, now[i]) {
      NotedKept(g, r, was[i]);
      forall k | k in now[i].ended ensures Reported(r, now[i], k) { assert Reported(r, was[i], k); }
    }
  }

  /** A call moved on, its batches as they were. */
  lemma MovedSound(g: State, s: Step)
    requires Sound(g) && Enabled(g, s) && (s.Answer? || s.Reject? || s.Leave?)
    ensures Steady(Next(g, s))
  {
    var r := Next(g, s);
    RoutesKept(g, r);
    forall other | other in g.calls ensures CallOk(r, other) && OnceOk(r, other) {
      if other != s.call {
        CallKept(g, r, other);
      } else {
        MovedOk(g, s);
      }
    }
  }

  lemma MovedOk(g: State, s: Step)
    requires Sound(g) && Enabled(g, s) && (s.Answer? || s.Reject? || s.Leave?)
    ensures CallOk(Next(g, s), s.call)
  {
    var r := Next(g, s);
    var batches := g.calls[s.call].batches;
    assert CallOk(g, s.call);
    forall i | 0 <= i < |batches| ensures BatchOk(r, batches[i]) { assert BatchOk(g, batches[i]); }
    forall i | 0 <= i < |batches| && s.call in r.pending ensures NotedOk(r, batches[i]) { NotedKept(g, r, batches[i]); }
  }

  lemma HandBackSound(g: State, call: CallId)
    requires Sound(g) && Enabled(g, HandBack(call))
    ensures Steady(Next(g, HandBack(call)))
  {
    var r, c := Next(g, HandBack(call)), g.calls[call];
    var b := c.batches[c.back];
    RoutesKept(g, r);
    HandBackOk(g, call);
    forall other: CallId, o: Owner, x: Grant
      ensures r.handed[(other, o, x)] ==
              g.handed[(other, o, x)] + if other == call && o == b.owner then Count(b.granted, x) else 0
    {
      GivenBack(call, b.owner, b.granted, other, o, x);
    }
    hide GiveBack, Count, BatchOk, NotedOk, RouteOk, Held, ReceiptsOk;
    forall other | other in g.calls ensures CallOk(r, other) && OnceOk(r, other) {
      OnceBack(g, r, call, other);
      if other != call { CallKept(g, r, other); }
    }
  }

  lemma OnceBack(g: State, r: State, call: CallId, other: CallId)
    requires Enabled(g, HandBack(call)) && other in g.calls && CallOk(g, other) && OnceOk(g, other)
    requires r.calls == g.calls[call := g.calls[call].(back := g.calls[call].back + 1)]
    requires var b := g.calls[call].batches[g.calls[call].back];
             forall o: Owner, x: Grant ::
               r.handed[(other, o, x)] ==
               g.handed[(other, o, x)] + if other == call && o == b.owner then Count(b.granted, x) else 0
    ensures OnceOk(r, other)
  {
    hide Count, BatchOk, NotedOk;
  }

  lemma HandBackOk(g: State, call: CallId)
    requires Sound(g) && Enabled(g, HandBack(call))
    ensures CallOk(Next(g, HandBack(call)), call)
  {
    var r := Next(g, HandBack(call));
    var batches := g.calls[call].batches;
    forall i | 0 <= i < |batches| ensures BatchOk(r, batches[i]) { assert BatchOk(g, batches[i]); }
    forall i | 0 <= i < |batches| && call in r.pending ensures NotedOk(r, batches[i]) { NotedKept(g, r, batches[i]); }
  }

  lemma InstallSound(g: State, call: CallId)
    requires Sound(g) && Enabled(g, Install(call))
    ensures Steady(Next(g, Install(call)))
  {
    var r, c := Next(g, Install(call)), g.calls[call];
    InstallOk(g, call);
    forall other | other in g.calls ensures CallOk(r, other) && OnceOk(r, other) {
      if other != call { CallKept(g, r, other); }
      assert OnceOk(g, other);
    }
    forall pid | pid in r.routes ensures RouteOk(r, pid) {
      Laid(g.routes, call, c.batches, pid);
      if SomeLives(c.batches, pid) {
        LaidUnended(g, call, pid, r.routes[pid]);
      } else {
        assert RouteOk(g, pid);
      }
    }
  }

  lemma InstallOk(g: State, call: CallId)
    requires Sound(g) && Enabled(g, Install(call))
    ensures CallOk(Next(g, Install(call)), call)
  {
    var r := Next(g, Install(call));
    var batches := g.calls[call].batches;
    forall i | 0 <= i < |batches| ensures BatchOk(r, batches[i]) && NotedOk(r, batches[i]) {
      assert BatchOk(g, batches[i]);
      NotedKept(g, r, batches[i]);
    }
  }

  /** What a pending call routes is of a grant whose end was not reported. */
  lemma LaidUnended(g: State, call: CallId, pid: int, r: Route)
    requires Sound(g) && call in g.calls && call in g.pending && LaidBy(call, g.calls[call].batches, pid, r)
    ensures Unended(g, pid, r) && r.confirmed && (r.owner, GrantOf(pid, r)) in g.granted && r.call == call
  {
    var batches := g.calls[call].batches;
    var i, x :| 0 <= i < |batches| && LaidIn(call, batches[i], x, pid, r);
    assert CallOk(g, call) && BatchOk(g, batches[i]) && NotedOk(g, batches[i]);
    assert x == GrantOf(pid, r);
    forall o: Owner, y: Grant | (o, y) in g.reported && y.pid == pid ensures !Ends(r, o, y) {
      assert Ends(r, o, y) ==> y == x;
    }
  }

  lemma EndSound(g: State, owner: Owner, x: Grant)
    requires Sound(g) && Enabled(g, End(owner, x))
    ensures Steady(Next(g, End(owner, x)))
  {
    var r := Next(g, End(owner, x));
    forall pid | pid in r.routes ensures RouteOk(r, pid) { assert RouteOk(g, pid); }
    hide RouteOk, ReceiptsOk, BatchOk, NotedOk, OnceOk;
    forall call | call in r.calls ensures CallOk(r, call) && OnceOk(r, call) {
      EndOk(g, owner, x, call);
      EndOnce(g, owner, x, call);
    }
  }

  lemma EndOnce(g: State, owner: Owner, x: Grant, call: CallId)
    requires Enabled(g, End(owner, x)) && call in g.calls && CallOk(g, call) && OnceOk(g, call)
    ensures OnceOk(Next(g, End(owner, x)), call)
  {
    var r := Next(g, End(owner, x));
    var was, now := g.calls[call], r.calls[call];
    forall o: Owner, y: Grant
      ensures Held(now.batches, |now.batches|, o, y) <= 1
      ensures now.outcome != Installed ==> r.handed[(call, o, y)] == Held(now.batches, now.back, o, y)
    {
      HeldSame(was.batches, now.batches, |was.batches|, o, y);
      HeldSame(was.batches, now.batches, was.back, o, y);
    }
  }

  lemma EndOk(g: State, owner: Owner, x: Grant, call: CallId)
    requires Sound(g) && Enabled(g, End(owner, x)) && call in g.calls
    ensures CallOk(Next(g, End(owner, x)), call)
  {
    var r := Next(g, End(owner, x));
    var was, now := g.calls[call].batches, r.calls[call].batches;
    assert CallOk(g, call);
    hide Sound, EndRoutes, NotedOk;
    forall i | 0 <= i < |now| ensures BatchOk(r, now[i]) && (call in r.pending ==> NotedOk(r, now[i])) {
      assert BatchOk(g, was[i]);
      if call in g.pending { EndNoted(g, owner, x, was[i]); }
    }
  }

  lemma EndNoted(g: State, owner: Owner, x: Grant, b: Batch)
    requires Enabled(g, End(owner, x)) && NotedOk(g, b) && BatchOk(g, b)
    ensures NotedOk(Next(g, End(owner, x)), Note(b, owner, x))
  {
    var r, n := Next(g, End(owner, x)), Note(b, owner, x);
    forall k | k in n.ended ensures Reported(r, n, k) {
      if k in b.ended {
        var y :| (b.owner, y) in g.reported && y.pid in b.pids && (y.scope, y.instance.key) == k;
        assert (n.owner, y) in r.reported;
      } else {
        assert (n.owner, x) in r.reported;
      }
    }
  }

  /** A step of anything but a receipt. */
  predicate OfCalls(s: Step) { !s.Redeem? && !s.Clear? && !s.Restore? && !s.Withdraw? }

  /** Receipts, where a step left the calls they are of alone. */
  lemma ReceiptsKept(g: State, r: State)
    requires Sound(g) && r.redeeming == g.redeeming
    requires forall call :: call in r.calls ==>
               r.calls[call].spent == if call in g.calls then g.calls[call].spent else {}
    requires forall call :: call in g.calls && call !in g.pending && g.calls[call].outcome == Installed ==>
               call in r.calls && call !in r.pending && r.calls[call] == g.calls[call]
    requires forall call, o: Owner, x: Grant :: call in g.calls && g.calls[call].outcome == Installed ==>
               r.handed[(call, o, x)] == g.handed[(call, o, x)]
    ensures ReceiptsOk(r)
  {
    forall q | q in r.redeeming ensures ReceiptOk(r, q) { assert ReceiptOk(g, q); }
    forall call, id | call in r.calls && id in r.calls[call].spent ensures Asked(r, call, id) {
      assert Asked(g, call, id);
    }
  }

  lemma CallsKeepReceipts(g: State, s: Step)
    requires Sound(g) && Enabled(g, s) && OfCalls(s)
    ensures ReceiptsOk(Next(g, s))
  {
    hide GiveBack, Lay, EndRoutes, Sound, ReceiptsOk;
    if s.HandBack? {
      RefusalLeavesReceipts(g, s.call);
    } else {
      ReceiptsKept(g, Next(g, s));
    }
  }

  lemma RefusalLeavesReceipts(g: State, call: CallId)
    requires Sound(g) && Enabled(g, HandBack(call))
    ensures ReceiptsOk(Next(g, HandBack(call)))
  {
    var r, c := Next(g, HandBack(call)), g.calls[call];
    forall other: CallId, o: Owner, x: Grant | other != call
      ensures r.handed[(other, o, x)] == g.handed[(other, o, x)]
    {
      GivenBack(call, c.batches[c.back].owner, c.batches[c.back].granted, other, o, x);
    }
    hide GiveBack, Sound, ReceiptsOk;
    ReceiptsKept(g, r);
  }

  lemma CountMore(granted: seq<Grant>, y: Grant, x: Grant)
    ensures Count(granted + [y], x) == Count(granted, x) + if y == x then 1 else 0
  {
    assert (granted + [y])[..|granted|] == granted;
  }

  lemma {:induction false} ChosenCount(granted: seq<Grant>, take: set<Identity>, x: Grant)
    ensures Count(Chosen(granted, take), x) == if IdOf(x) in take then Count(granted, x) else 0
  {
    if granted != [] {
      var fewer, y := granted[..|granted| - 1], granted[|granted| - 1];
      ChosenCount(fewer, take, x);
      var some := Chosen(fewer, take);
      if IdOf(y) in take {
        assert Chosen(granted, take) == some + [y];
        CountMore(some, y, x);
      } else {
        assert Chosen(granted, take) == some;
      }
    }
  }

  lemma ChosenIn(granted: seq<Grant>, take: set<Identity>, x: Grant)
    ensures x in Chosen(granted, take) <==> x in granted && IdOf(x) in take
  {
    hide Chosen, Count;
    ChosenCount(granted, take, x);
    CountIn(granted, x);
    CountIn(Chosen(granted, take), x);
  }

  lemma RedeemSound(g: State, r: Redeemer, call: CallId, named: set<Identity>)
    requires Sound(g) && Enabled(g, Redeem(r, call, named))
    ensures Sound(Next(g, Redeem(r, call, named)))
  {
    hide OnceOk, ReceiptsOk, Held, BatchOk, NotedOk;
    var now := Next(g, Redeem(r, call, named));
    RoutesKept(g, now);
    forall other | other in g.calls ensures CallOk(now, other) && OnceOk(now, other) {
      if other == call { SpentOk(g, now, call); } else { CallKept(g, now, other); }
      SpentOnce(g, now, other);
    }
    RedeemReceipts(g, r, call, named);
  }

  lemma SpentOnce(g: State, r: State, call: CallId)
    requires call in g.calls && CallOk(g, call) && OnceOk(g, call) && call in r.calls && r.handed == g.handed
    requires r.calls[call] == g.calls[call].(spent := r.calls[call].spent) && g.calls[call].spent <= r.calls[call].spent
    ensures OnceOk(r, call)
  {
    hide Held;
  }

  lemma RedeemReceipts(g: State, r: Redeemer, call: CallId, named: set<Identity>)
    requires Sound(g) && Enabled(g, Redeem(r, call, named))
    ensures ReceiptsOk(Next(g, Redeem(r, call, named)))
  {
    var now := Next(g, Redeem(r, call, named));
    assert OnceOk(g, call);
    forall q | q in now.redeeming ensures ReceiptOk(now, q) {
      if q != r { assert ReceiptOk(g, q); }
    }
    hide ReceiptOk, OnceOk, CallOk, RouteOk, Steady;
    forall other, id | other in now.calls && id in now.calls[other].spent ensures Asked(now, other, id) {
      RedeemAsks(g, r, call, named, other, id);
    }
    forall q | q in g.redeeming && g.redeeming[q].call == call
      ensures g.redeeming[q].take !! named - g.calls[call].spent
    {
      TakesSpent(g, q);
    }
  }

  lemma RedeemAsks(g: State, r: Redeemer, call: CallId, named: set<Identity>, other: CallId, id: Identity)
    requires ReceiptsOk(g) && Enabled(g, Redeem(r, call, named)) && other in g.calls
    requires id in Next(g, Redeem(r, call, named)).calls[other].spent
    ensures Asked(Next(g, Redeem(r, call, named)), other, id)
  {
    hide ReceiptOk;
    var now := Next(g, Redeem(r, call, named));
    if id in g.calls[other].spent {
      assert Asked(g, other, id);
      var q :| q in g.redeeming && g.redeeming[q].call == other && id in g.redeeming[q].take;
      assert q in now.redeeming;
    } else {
      assert r in now.redeeming;
    }
  }

  lemma TakesSpent(g: State, q: Redeemer)
    requires Sound(g) && q in g.redeeming
    ensures g.redeeming[q].call in g.calls && g.redeeming[q].take <= g.calls[g.redeeming[q].call].spent
  {
    assert ReceiptOk(g, q);
  }

  lemma SpentOk(g: State, r: State, call: CallId)
    requires call in g.calls && CallOk(g, call) && call in r.calls
    requires r.calls[call] == g.calls[call].(spent := r.calls[call].spent)
    requires g.granted == r.granted && r.reported == g.reported && r.pending == g.pending
    ensures CallOk(r, call)
  {
    forall i | 0 <= i < |r.calls[call].batches| ensures BatchOk(r, r.calls[call].batches[i]) {
      assert BatchOk(g, g.calls[call].batches[i]);
    }
    forall i | 0 <= i < |r.calls[call].batches| && call in r.pending ensures NotedOk(r, r.calls[call].batches[i]) {
      NotedKept(g, r, g.calls[call].batches[i]);
    }
  }

  /** A step that only let routes go. */
  lemma DropSound(g: State, r: State)
    requires Sound(g) && r.routes.Keys <= g.routes.Keys
    requires forall pid :: pid in r.routes ==> r.routes[pid] == g.routes[pid]
    requires r == g.(routes := r.routes, dropped := r.dropped, withdrawn := r.withdrawn, redeeming := r.redeeming)
    ensures Steady(r)
  {
    forall call | call in g.calls ensures CallOk(r, call) && OnceOk(r, call) {
      CallKept(g, r, call);
      assert OnceOk(g, call);
    }
    forall pid | pid in r.routes ensures RouteOk(r, pid) { assert RouteOk(g, pid); }
  }

  lemma ClearSound(g: State, r: Redeemer)
    requires Sound(g) && Enabled(g, Clear(r))
    ensures Sound(Next(g, Clear(r)))
  {
    var now := Next(g, Clear(r));
    DropSound(g, now);
    hide Cleared, Steady, Drop;
    forall q | q in now.redeeming ensures ReceiptOk(now, q) { assert ReceiptOk(g, q); }
    SameReceipts(g, now);
  }

  /** The same receipts, further on or not. */
  lemma SameReceipts(g: State, r: State)
    requires ReceiptsOk(g) && r.redeeming.Keys == g.redeeming.Keys && r.calls == g.calls
    requires forall q :: q in r.redeeming ==>
               && r.redeeming[q].call == g.redeeming[q].call && r.redeeming[q].take == g.redeeming[q].take
               && ReceiptOk(r, q)
    ensures ReceiptsOk(r)
  {
    hide ReceiptOk;
    forall call, id | call in r.calls && id in r.calls[call].spent ensures Asked(r, call, id) {
      assert Asked(g, call, id);
      var q :| q in g.redeeming && g.redeeming[q].call == call && id in g.redeeming[q].take;
      assert q in r.redeeming;
    }
  }

  lemma WithdrawSound(g: State, named: Identity)
    requires Sound(g) && Enabled(g, Withdraw(named))
    ensures Sound(Next(g, Withdraw(named)))
  {
    var now := Next(g, Withdraw(named));
    DropSound(g, now);
    hide Unscoped, Steady, Drop, Sent;
    forall q | q in now.redeeming ensures ReceiptOk(now, q) { assert ReceiptOk(g, q); }
    SameReceipts(g, now);
  }

  /** What a receipt hands back of one batch. */
  lemma Restores(g: State, r: Redeemer, call: CallId, o: Owner, x: Grant)
    requires Enabled(g, Restore(r))
    ensures var d, b := g.redeeming[r], BatchAt(g, r);
            Next(g, Restore(r)).handed[(call, o, x)] == g.handed[(call, o, x)] +
            if call == d.call && o == b.owner && IdOf(x) in d.take then Count(b.granted, x) else 0
  {
    var d, b := g.redeeming[r], BatchAt(g, r);
    GivenBack(d.call, b.owner, Chosen(b.granted, d.take), call, o, x);
    ChosenCount(b.granted, d.take, x);
  }

  lemma RestoreSound(g: State, r: Redeemer)
    requires Sound(g) && Enabled(g, Restore(r))
    ensures Sound(Next(g, Restore(r)))
  {
    var now, d := Next(g, Restore(r)), g.redeeming[r];
    RoutesKept(g, now);
    assert ReceiptOk(g, r);
    forall call | call in g.calls ensures CallOk(now, call) && OnceOk(now, call) {
      CallKept(g, now, call);
      assert OnceOk(g, call);
      forall o: Owner, x: Grant
        ensures now.handed[(call, o, x)] == g.handed[(call, o, x)] || (call == d.call && IdOf(x) in d.take)
      {
        Restores(g, r, call, o, x);
      }
    }
    forall call: CallId, o: Owner, x: Grant | call !in g.calls ensures now.handed[(call, o, x)] == 0 {
      Restores(g, r, call, o, x);
    }
    forall q | q in now.redeeming ensures ReceiptOk(now, q) { RestoreOne(g, r, q); }
    SameReceipts(g, now);
  }

  lemma RestoreOne(g: State, r: Redeemer, q: Redeemer)
    requires ReceiptsOk(g) && Enabled(g, Restore(r)) && q in g.redeeming
    ensures ReceiptOk(Next(g, Restore(r)), q)
  {
    assert ReceiptOk(g, q);
    var now, d := Next(g, Restore(r)), g.redeeming[q];
    forall o: Owner, x: Grant | IdOf(x) in d.take
      ensures now.handed[(d.call, o, x)] == Held(g.calls[d.call].batches, now.redeeming[q].at, o, x)
    {
      RestoreCounts(g, r, q, o, x);
    }
    hide GiveBack, Chosen, Held, ReceiptsOk;
  }

  lemma RestoreCounts(g: State, r: Redeemer, q: Redeemer, o: Owner, x: Grant)
    requires ReceiptsOk(g) && Enabled(g, Restore(r)) && q in g.redeeming && IdOf(x) in g.redeeming[q].take
    ensures var now, d := Next(g, Restore(r)), g.redeeming[q];
            && d.call in g.calls && now.redeeming[q].at <= |g.calls[d.call].batches|
            && now.handed[(d.call, o, x)] == Held(g.calls[d.call].batches, now.redeeming[q].at, o, x)
  {
    var d := g.redeeming[q];
    assert ReceiptOk(g, q) && ReceiptOk(g, r);
    assert q != r && g.redeeming[r].call == d.call ==> g.redeeming[r].take !! d.take;
    Restores(g, r, d.call, o, x);
    hide GiveBack, Chosen, Count, ReceiptsOk, ReceiptOk;
  }

  lemma NextSound(g: State, s: Step)
    requires Sound(g) && Enabled(g, s)
    ensures Sound(Next(g, s))
  {
    if OfCalls(s) {
      NextSteady(g, s);
      CallsKeepReceipts(g, s);
    }
    hide Sound, Next;
    match s
    case Redeem(r, call, named) => RedeemSound(g, r, call, named);
    case Clear(r) => ClearSound(g, r);
    case Restore(r) => RestoreSound(g, r);
    case Withdraw(named) => WithdrawSound(g, named);
    case _ =>
  }

  lemma NextSteady(g: State, s: Step)
    requires Sound(g) && Enabled(g, s) && OfCalls(s)
    ensures Steady(Next(g, s))
  {
    hide Sound, Next, Steady;
    match s
    case Begin(call, plan) => BeginSound(g, call, plan);
    case Write(call, x) => WriteSound(g, call, x);
    case Answer(_, _) => MovedSound(g, s);
    case Reject(_) => MovedSound(g, s);
    case HandBack(call) => HandBackSound(g, call);
    case Install(call) => InstallSound(g, call);
    case Leave(_) => MovedSound(g, s);
    case End(owner, x) => EndSound(g, owner, x);
    case _ =>
  }

  lemma {:induction false} MadeSound(g: State, steps: seq<Step>)
    requires Initial(g)
    ensures Sound(Made(g, steps))
  {
    if steps != [] {
      MadeSound(g, steps[..|steps| - 1]);
      hide Sound, Next;
      var now := Made(g, steps[..|steps| - 1]);
      if Enabled(now, steps[|steps| - 1]) {
        NextSound(now, steps[|steps| - 1]);
      }
    }
  }

  // What holds of every interleaving.

  /** No route, confirmed or not, installed by a call or there at the start, stands for
      an admission its owner has reported ended, whether that came while the granting
      call was still asking, between its answers and its routes, or after. */
  lemma NoRouteOutlivesItsEnd(g: State, steps: seq<Step>, pid: int, owner: Owner, x: Grant)
    requires Initial(g) && pid in Made(g, steps).routes && (owner, x) in Made(g, steps).reported && x.pid == pid
    ensures !Ends(Made(g, steps).routes[pid], owner, x)
  {
    MadeSound(g, steps);
    assert RouteOk(Made(g, steps), pid);
  }

  /** That a redemption took a selection of a call. */
  predicate Took(g: State, r: Redeemer, call: CallId, x: Grant) {
    r in g.redeeming && g.redeeming[r].call == call && IdOf(x) in g.redeeming[r].take
  }

  /** Over refusals and receipts together, handed back batch by batch while ends are
      still reported. At every moment nothing has been handed back twice, or to an
      owner that did not grant it, and only of a refused call, or of an installed one
      what its receipt was asked for. Once a refusal is done every selection granted to
      the call has been handed back to its own owner exactly once, and once a receipt
      is, every one it took. Unless the call installed, no route is its own. */
  lemma HandsBackOnce(g: State, steps: seq<Step>, call: CallId, owner: Owner, x: Grant)
    requires Initial(g) && call in Made(g, steps).calls
    ensures var now := Made(g, steps);
            var c, n := now.calls[call], now.handed[(call, owner, x)];
            && n <= 1
            && (n == 1 ==> Holds(c, owner, x))
            && (n == 1 ==> c.outcome == Refused || (c.outcome == Installed && IdOf(x) in c.spent))
            && (c.outcome == Refused && c.back == c.due ==> (n == 1 <==> Holds(c, owner, x)))
            && (forall r :: Took(now, r, call, x) && now.redeeming[r].at == |c.batches| ==>
                  (n == 1 <==> Holds(c, owner, x)))
            && (call !in now.pending ==> c.back == c.due)
            && (c.outcome != Installed ==> forall pid :: pid in now.routes ==> now.routes[pid].call != call)
  {
    MadeSound(g, steps);
    hide Made;
    var now := Made(g, steps);
    var c := now.calls[call];
    assert CallOk(now, call) && OnceOk(now, call);
    HeldMore(c.batches, c.back, |c.batches|, owner, x);
    HeldMore(c.batches, c.due, |c.batches|, owner, x);
    HeldIn(c.batches, |c.batches|, owner, x);
    HeldIn(c.batches, c.back, owner, x);
    if c.outcome == Installed && IdOf(x) in c.spent {
      RedeemedOnce(now, call, owner, x);
    }
    forall pid | pid in now.routes && c.outcome != Installed ensures now.routes[pid].call != call {
      assert RouteOk(now, pid);
    }
  }

  /** What was handed back of a grant the receipt was asked for is what the batches
      one redemption is done with hold. */
  lemma RedeemedOnce(g: State, call: CallId, owner: Owner, x: Grant)
    requires Sound(g) && call in g.calls && g.calls[call].outcome == Installed && IdOf(x) in g.calls[call].spent
    ensures var c, n := g.calls[call], g.handed[(call, owner, x)];
            && n <= 1 && (n == 1 ==> Holds(c, owner, x))
            && (forall r :: Took(g, r, call, x) && g.redeeming[r].at == |c.batches| ==>
                  (n == 1 <==> Holds(c, owner, x)))
  {
    var c := g.calls[call];
    assert Asked(g, call, IdOf(x)) && OnceOk(g, call);
    var r :| r in g.redeeming && g.redeeming[r].call == call && IdOf(x) in g.redeeming[r].take;
    assert ReceiptOk(g, r);
    var at := g.redeeming[r].at;
    HeldMore(c.batches, at, |c.batches|, owner, x);
    HeldIn(c.batches, at, owner, x);
    HeldIn(c.batches, |c.batches|, owner, x);
    assert forall q :: Took(g, q, call, x) && q != r ==> !(g.redeeming[q].take !! g.redeeming[r].take);
  }

  // Both ways of taking a selection back.

  /** Whether a route is a confirmed one of an owner's grant. */
  predicate Routed(g: State, pid: int, owner: Owner, x: Grant) {
    pid in g.routes && g.routes[pid].confirmed && g.routes[pid].owner == owner && GrantOf(pid, g.routes[pid]) == x
  }

  /** A grant is one call's, of a call that installed if it is routed; and what
      Group.Retract handed back was so once, and is not routed again. */
  ghost predicate Single(g: State, owner: Owner, x: Grant) {
    && (forall call, other :: Has(g, call, owner, x) && Has(g, other, owner, x) ==> call == other)
    && (forall pid, call :: Routed(g, pid, owner, x) && Has(g, call, owner, x) ==> g.calls[call].outcome == Installed)
    && (g.withdrawn[(owner, x)] > 0 ==>
          && g.withdrawn[(owner, x)] == 1 && (owner, x) in g.granted && x.scope == NO_SCOPE && g.sole
          && (forall pid :: !Routed(g, pid, owner, x))
          && (forall call :: Has(g, call, owner, x) ==> g.calls[call].outcome == Installed))
  }

  ghost predicate Has(g: State, call: CallId, owner: Owner, x: Grant) {
    call in g.calls && Holds(g.calls[call], owner, x)
  }

  lemma HasGranted(g: State, call: CallId, owner: Owner, x: Grant)
    requires Sound(g) && Has(g, call, owner, x)
    ensures (owner, x) in g.granted
  {
    var c := g.calls[call];
    var i :| 0 <= i < |c.batches| && c.batches[i].owner == owner && x in c.batches[i].granted;
    assert CallOk(g, call) && BatchOk(g, c.batches[i]);
  }

  lemma RoutedGranted(g: State, pid: int, owner: Owner, x: Grant)
    requires Sound(g) && Routed(g, pid, owner, x)
    ensures (owner, x) in g.granted
  {
    assert RouteOk(g, pid);
  }

  /** A step that wrote and laid nothing of a grant. */
  lemma SingleKept(g: State, r: State, owner: Owner, x: Grant)
    requires Single(g, owner, x) && r.sole == g.sole && g.granted <= r.granted
    requires forall call :: Has(r, call, owner, x) ==>
               && Has(g, call, owner, x)
               && (g.calls[call].outcome == Installed ==> r.calls[call].outcome == Installed)
    requires forall pid :: Routed(r, pid, owner, x) ==> Routed(g, pid, owner, x)
    requires r.withdrawn[(owner, x)] == g.withdrawn[(owner, x)]
    ensures Single(r, owner, x)
  {
  }

  /** What a call holds after a step. */
  lemma HasBefore(g: State, s: Step, call: CallId, owner: Owner, x: Grant)
    requires Enabled(g, s) && Has(Next(g, s), call, owner, x)
    requires s.Write? && s.call == call ==> !(Now(g.calls[call]).owner == owner && s.grant == x)
    ensures Has(g, call, owner, x)
    ensures g.calls[call].outcome == Installed ==> Next(g, s).calls[call].outcome == Installed
  {
    var c := Next(g, s).calls[call];
    var i :| 0 <= i < |c.batches| && c.batches[i].owner == owner && x in c.batches[i].granted;
    assert call in g.calls && i < |g.calls[call].batches|;
    assert g.calls[call].batches[i].owner == owner && x in g.calls[call].batches[i].granted;
  }

  lemma NextSingle(g: State, s: Step, owner: Owner, x: Grant)
    requires Sound(g) && Enabled(g, s) && Single(g, owner, x)
    ensures Single(Next(g, s), owner, x)
  {
    var r := Next(g, s);
    if s.Write? && Now(g.calls[s.call]).owner == owner && s.grant == x {
      WriteSingle(g, s.call, owner, x);
    } else {
      forall call | Has(r, call, owner, x)
        ensures Has(g, call, owner, x) && (g.calls[call].outcome == Installed ==> r.calls[call].outcome == Installed)
      {
        HasBefore(g, s, call, owner, x);
      }
      if s.Install? {
        InstallSingle(g, s.call, owner, x);
      } else if s.Withdraw? {
        WithdrawSingle(g, s.one, owner, x);
      } else {
        hide Single, Has, Sound;
        OthersRoute(g, s, owner, x);
        hide Next;
        SingleKept(g, r, owner, x);
      }
    }
  }

  lemma OthersRoute(g: State, s: Step, owner: Owner, x: Grant)
    requires Enabled(g, s) && !s.Install? && !s.Withdraw?
    ensures var r := Next(g, s);
            && r.sole == g.sole && g.granted <= r.granted && r.withdrawn == g.withdrawn
            && (forall pid :: Routed(r, pid, owner, x) ==> Routed(g, pid, owner, x))
  {
    hide Chosen, GiveBack, Cleared;
  }

  lemma WriteSingle(g: State, call: CallId, owner: Owner, x: Grant)
    requires Sound(g) && Enabled(g, Write(call, x)) && Now(g.calls[call]).owner == owner && Single(g, owner, x)
    ensures Single(Next(g, Write(call, x)), owner, x)
  {
    var r := Next(g, Write(call, x));
    forall other | other != call ensures !Has(r, other, owner, x) {
      if Has(r, other, owner, x) {
        HasBefore(g, Write(call, x), other, owner, x);
        HasGranted(g, other, owner, x);
      }
    }
    forall pid ensures !Routed(r, pid, owner, x) {
      if Routed(g, pid, owner, x) { RoutedGranted(g, pid, owner, x); }
    }
  }

  lemma InstallSingle(g: State, call: CallId, owner: Owner, x: Grant)
    requires Sound(g) && Enabled(g, Install(call)) && Single(g, owner, x)
    requires forall other :: Has(Next(g, Install(call)), other, owner, x) ==> Has(g, other, owner, x)
    ensures Single(Next(g, Install(call)), owner, x)
  {
    var r := Next(g, Install(call));
    forall pid | Routed(r, pid, owner, x) && !Routed(g, pid, owner, x) ensures Has(g, call, owner, x) {
      Laid(g.routes, call, g.calls[call].batches, pid);
      var i, y :| 0 <= i < |g.calls[call].batches| && LaidIn(call, g.calls[call].batches[i], y, pid, r.routes[pid]);
      assert y == x;
    }
  }

  lemma WithdrawSingle(g: State, named: Identity, owner: Owner, x: Grant)
    requires Sound(g) && Enabled(g, Withdraw(named)) && Single(g, owner, x)
    ensures Single(Next(g, Withdraw(named)), owner, x)
  {
    var r, pid := Next(g, Withdraw(named)), named.0;
    assert forall call :: Has(r, call, owner, x) <==> Has(g, call, owner, x);
    assert forall p :: Routed(r, p, owner, x) ==> Routed(g, p, owner, x);
    if pid in Unscoped(g.routes, named) && Routed(g, pid, owner, x) {
      RoutedGranted(g, pid, owner, x);
      assert forall p :: Routed(g, p, owner, x) ==> p == pid;
    }
  }

  lemma {:induction false} MadeSingle(g: State, steps: seq<Step>, owner: Owner, x: Grant)
    requires Initial(g)
    ensures Single(Made(g, steps), owner, x)
  {
    if steps != [] {
      var fewer := steps[..|steps| - 1];
      MadeSingle(g, fewer, owner, x);
      MadeSound(g, fewer);
      hide Sound, Single, Next;
      if Enabled(Made(g, fewer), steps[|steps| - 1]) {
        NextSingle(Made(g, fewer), steps[|steps| - 1], owner, x);
      }
    }
  }

  /** A selection is handed back in one call at most, and by Group.Retract at most once;
      by both only where the one owner gave it no scope and the receipt of its call,
      installed, was asked for it as well. */
  lemma HandedTwiceOnly(g: State, steps: seq<Step>, call: CallId, other: CallId, owner: Owner, x: Grant)
    requires Initial(g) && call in Made(g, steps).calls && other in Made(g, steps).calls
    ensures var now := Made(g, steps);
            var n, w := now.handed[(call, owner, x)], now.withdrawn[(owner, x)];
            && (n > 0 && now.handed[(other, owner, x)] > 0 ==> call == other)
            && n <= 1 && w <= 1
            && (n > 0 && w > 0 ==>
                  && g.sole && x.scope == NO_SCOPE
                  && now.calls[call].outcome == Installed && IdOf(x) in now.calls[call].spent)
  {
    MadeSingle(g, steps, owner, x);
    HandsBackOnce(g, steps, call, owner, x);
    HandsBackOnce(g, steps, other, owner, x);
    SoleKept(g, steps);
    hide Made;
    var now := Made(g, steps);
    assert now.handed[(call, owner, x)] > 0 ==> Has(now, call, owner, x);
    assert now.handed[(other, owner, x)] > 0 ==> Has(now, other, owner, x);
  }

  /** And then it is: one owner grants a selection without a scope, and the caller both
      withdraws it and redeems the receipt for it. */
  function Both(x: Grant): seq<Step> {
    [Begin(1, [(0, {x.pid})]), Write(1, x), Answer(1, true), Install(1), Leave(1),
     Withdraw(IdOf(x)), Redeem(0, 1, {IdOf(x)}), Clear(0), Restore(0)]
  }

  lemma BothListed(x: Grant)
    ensures var s := Both(x);
            && |s| == 9 && s[0] == Begin(1, [(0, {x.pid})]) && s[1] == Write(1, x) && s[2] == Answer(1, true)
            && s[3] == Install(1) && s[4] == Leave(1) && s[5] == Withdraw(IdOf(x))
            && s[6] == Redeem(0, 1, {IdOf(x)}) && s[7] == Clear(0) && s[8] == Restore(0)
  {
  }

  const Alone := State(true, map[], map[], {}, map[], {}, {}, multiset{}, multiset{}, multiset{})

  lemma UpTo(g: State, steps: seq<Step>, i: nat)
    requires i < |steps|
    ensures Made(g, steps[..i + 1]) == Make(Made(g, steps[..i]), steps[i])
  {
    assert steps[..i + 1][..i] == steps[..i];
  }

  /** The one call of that run, and the state after it installed. */
  function Only(x: Grant, asked: nat, outcome: Outcome, spent: set<Identity>): Call {
    Call([Batch(0, {x.pid}, [x], {})], asked, outcome, 0, 0, spent)
  }

  function AskedAlone(x: Grant, granted: seq<Grant>, asked: nat): State {
    Alone.(calls := map[1 := Call([Batch(0, {x.pid}, granted, {})], asked, Asking, 0, 0, {})], pending := {1},
           granted := set y | y in granted :: (0, y))
  }

  lemma Begun(x: Grant)
    ensures Make(Alone, Begin(1, [(0, {x.pid})])) == AskedAlone(x, [], 0)
  {
    var r := Make(Alone, Begin(1, [(0, {x.pid})]));
    assert r.calls[1].batches == [Batch(0, {x.pid}, [], {})];
    assert r.granted == AskedAlone(x, [], 0).granted;
  }

  lemma Written(x: Grant)
    ensures Make(AskedAlone(x, [], 0), Write(1, x)) == AskedAlone(x, [x], 0)
  {
    var g, r := AskedAlone(x, [], 0), Make(AskedAlone(x, [], 0), Write(1, x));
    assert g.granted == {} && Enabled(g, Write(1, x)) && [] + [x] == [x];
    assert r.calls[1].batches == [Batch(0, {x.pid}, [x], {})];
    assert r.granted == {(0, x)} == AskedAlone(x, [x], 0).granted;
  }

  lemma Answered(x: Grant)
    ensures Make(AskedAlone(x, [x], 0), Answer(1, true)) == AskedAlone(x, [x], 1)
  {
  }

  /** The call installed, its route there or not, its receipt asked or not. */
  function LaidAlone(x: Grant, pending: set<CallId>, routes: map<int, Route>, spent: set<Identity>): State {
    Alone.(calls := map[1 := Only(x, 1, Installed, spent)], pending := pending, routes := routes, granted := {(0, x)})
  }

  function RouteOne(x: Grant): map<int, Route> { map[x.pid := Route(x.instance, 0, true, x.scope, 1)] }

  lemma LaysOne(x: Grant)
    ensures Lay(map[], 1, [Batch(0, {x.pid}, [x], {})]) == RouteOne(x)
  {
    var b := Batch(0, {x.pid}, [x], {});
    assert [b][..0] == [] && [x][..0] == [];
    assert LayBatch(map[], 1, b, []) == map[];
  }

  lemma InstalledNow(x: Grant)
    ensures Make(AskedAlone(x, [x], 1), Install(1)) == LaidAlone(x, {1}, RouteOne(x), {})
    ensures Make(LaidAlone(x, {1}, RouteOne(x), {}), Leave(1)) == LaidAlone(x, {}, RouteOne(x), {})
  {
    LaysOne(x);
    hide Lay;
  }

  function Gone(x: Grant): State {
    LaidAlone(x, {}, map[], {})
      .(dropped := multiset{(x.pid, Route(x.instance, 0, true, x.scope, 1))}, withdrawn := multiset{(0, x)})
  }

  lemma WithdrawnNow(x: Grant)
    requires x.scope == NO_SCOPE
    ensures Make(LaidAlone(x, {}, RouteOne(x), {}), Withdraw(IdOf(x))) == Gone(x)
  {
    assert Unscoped(RouteOne(x), IdOf(x)) == {x.pid};
    var g := LaidAlone(x, {}, RouteOne(x), {});
    assert (set pid | pid in {x.pid} :: (pid, g.routes[pid])) == {(x.pid, Route(x.instance, 0, true, x.scope, 1))};
  }

  function Redeemed(x: Grant, at: nat, cleared: bool): State {
    Gone(x).(calls := map[1 := Only(x, 1, Installed, {IdOf(x)})],
             redeeming := map[0 := Redemption(1, {IdOf(x)}, at, cleared)])
  }

  lemma RedeemedNow(x: Grant)
    ensures Make(Gone(x), Redeem(0, 1, {IdOf(x)})) == Redeemed(x, 0, false)
    ensures Make(Redeemed(x, 0, false), Clear(0)) == Redeemed(x, 0, true)
  {
    hide Chosen;
    assert {IdOf(x)} - {} == {IdOf(x)} && {} + {IdOf(x)} == {IdOf(x)};
    assert Cleared(map[], 0, Chosen([x], {IdOf(x)})) == {};
  }

  lemma RestoredNow(x: Grant)
    ensures var now := Make(Redeemed(x, 0, true), Restore(0));
            now.handed[(1, 0, x)] == 1 && now.withdrawn == multiset{(0, x)}
  {
    assert [x][..0] == [];
    assert Chosen([x], {IdOf(x)}) == [x];
    assert GiveBack(1, 0, [x]) == multiset{(1, 0, x)};
  }

  /** The state after so many steps of that run, but the last. */
  function Expected(x: Grant, i: nat): State
    requires i <= 8
  {
    if i == 0 then Alone
    else if i == 1 then AskedAlone(x, [], 0)
    else if i == 2 then AskedAlone(x, [x], 0)
    else if i == 3 then AskedAlone(x, [x], 1)
    else if i == 4 then LaidAlone(x, {1}, RouteOne(x), {})
    else if i == 5 then LaidAlone(x, {}, RouteOne(x), {})
    else if i == 6 then Gone(x)
    else Redeemed(x, 0, i == 8)
  }

  lemma ExpectedNext(x: Grant, i: nat)
    requires x.scope == NO_SCOPE && i < 8
    ensures Make(Expected(x, i), Both(x)[i]) == Expected(x, i + 1)
  {
    BothListed(x);
    hide Make, AskedAlone, LaidAlone, RouteOne, Gone, Redeemed, Both;
    if i == 0 { Begun(x); }
    else if i == 1 { Written(x); }
    else if i == 2 { Answered(x); }
    else if i <= 4 { InstalledNow(x); }
    else if i == 5 { WithdrawnNow(x); }
    else { RedeemedNow(x); }
  }

  lemma {:induction false} Follows(x: Grant, i: nat)
    requires x.scope == NO_SCOPE && i <= 8
    ensures Made(Alone, Both(x)[..i]) == Expected(x, i)
  {
    if i > 0 {
      hide Make, Both, Expected, Made;
      BothListed(x);
      Follows(x, i - 1);
      UpTo(Alone, Both(x), i - 1);
      ExpectedNext(x, i - 1);
    }
  }

  lemma HandedTwice(x: Grant)
    requires x.scope == NO_SCOPE
    ensures Initial(Alone)
    ensures var now := Made(Alone, Both(x)); now.handed[(1, 0, x)] == 1 && now.withdrawn[(0, x)] == 1
  {
    var s := Both(x);
    BothListed(x);
    hide Made, Make, Redeemed, Both;
    assert s[..9] == s;
    Follows(x, 8);
    UpTo(Alone, s, 8);
    RestoredNow(x);
  }

  // What an end leaves alone.

  /** Whether a call was granted a process. */
  predicate Grants(c: Call, pid: int) {
    exists i | 0 <= i < |c.batches| :: exists x | x in c.batches[i].granted :: x.pid == pid
  }

  /** A call that installed since, with a grant of this process. */
  ghost predicate Overtaken(g: State, now: State, pid: int) {
    exists call :: InstalledSince(g, now, call) && Grants(now.calls[call], pid)
  }

  predicate InstalledSince(g: State, now: State, call: CallId) {
    && call in now.calls && now.calls[call].outcome == Installed
    && !(call in g.calls && g.calls[call].outcome == Installed)
  }

  lemma InstalledStays(g: State, s: Step, call: CallId, pid: int)
    requires Enabled(g, s) && call in g.calls && g.calls[call].outcome == Installed
    ensures var r := Next(g, s);
            && call in r.calls && r.calls[call].outcome == Installed
            && (Grants(g.calls[call], pid) ==> Grants(r.calls[call], pid))
  {
    var r := Next(g, s);
    if s.End? && Grants(g.calls[call], pid) {
      var i :| 0 <= i < |g.calls[call].batches| && exists x | x in g.calls[call].batches[i].granted :: x.pid == pid;
      assert r.calls[call].batches[i].granted == g.calls[call].batches[i].granted;
    }
  }

  /** The outcome of a call is never taken back. */
  lemma {:induction false} InstalledBefore(g: State, steps: seq<Step>, call: CallId)
    requires call in g.calls && g.calls[call].outcome == Installed
    ensures call in Made(g, steps).calls && Made(g, steps).calls[call].outcome == Installed
  {
    if steps != [] {
      var fewer := steps[..|steps| - 1];
      InstalledBefore(g, fewer, call);
      if Enabled(Made(g, fewer), steps[|steps| - 1]) { InstalledStays(Made(g, fewer), steps[|steps| - 1], call, 0); }
    }
  }

  /** A confirmed route goes only by its own end, by being taken back, or where a later
      call with a grant of its process installed. */
  lemma {:induction false} RouteLeavesOnly(g: State, steps: seq<Step>, pid: int)
    requires pid in g.routes && g.routes[pid].confirmed
    ensures var now, r := Made(g, steps), g.routes[pid];
            || (pid in now.routes && now.routes[pid] == r)
            || (r.owner, GrantOf(pid, r)) in now.reported
            || now.dropped[(pid, r)] > g.dropped[(pid, r)]
            || Overtaken(g, now, pid)
    ensures forall x :: Made(g, steps).dropped[x] >= g.dropped[x]
  {
    if steps != [] {
      var fewer, s := steps[..|steps| - 1], steps[|steps| - 1];
      var was := Made(g, fewer);
      RouteLeavesOnly(g, fewer, pid);
      if Enabled(was, s) {
        var now, r := Next(was, s), g.routes[pid];
        if Overtaken(g, was, pid) {
          var call :| InstalledSince(g, was, call) && Grants(was.calls[call], pid);
          InstalledStays(was, s, call, pid);
          assert InstalledSince(g, now, call);
        } else if s.Install? {
          InstallOvertakes(g, fewer, s.call, pid);
        } else {
          LeavesBy(was, s, pid);
        }
        DropsLogged(was, s);
      }
    }
  }

  /** What one step other than an install may do to a confirmed route. */
  lemma LeavesBy(g: State, s: Step, pid: int)
    requires Enabled(g, s) && !s.Install?
    ensures var now := Next(g, s);
            pid in g.routes && g.routes[pid].confirmed ==>
              || (pid in now.routes && now.routes[pid] == g.routes[pid])
              || (g.routes[pid].owner, GrantOf(pid, g.routes[pid])) in now.reported
              || now.dropped[(pid, g.routes[pid])] > g.dropped[(pid, g.routes[pid])]
  {
    if pid in g.routes && pid !in Next(g, s).routes && (s.Clear? || s.Withdraw?) {
      DropLogs(g, s, pid);
    }
  }

  lemma DropsLogged(g: State, s: Step)
    requires Enabled(g, s)
    ensures forall x :: Next(g, s).dropped[x] >= g.dropped[x]
    ensures g.reported <= Next(g, s).reported
  {
    hide Lay, Cleared, Unscoped, Chosen, GiveBack;
  }

  lemma DropLogs(g: State, s: Step, pid: int)
    requires Enabled(g, s) && (s.Clear? || s.Withdraw?) && pid in g.routes && pid !in Next(g, s).routes
    ensures Next(g, s).dropped[(pid, g.routes[pid])] > g.dropped[(pid, g.routes[pid])]
  {
    hide Chosen;
    var gone := if s.Clear? then Cleared(g.routes, BatchAt(g, s.redeemer).owner,
                                         Chosen(BatchAt(g, s.redeemer).granted, g.redeeming[s.redeemer].take))
                else Unscoped(g.routes, s.one);
    assert (pid, g.routes[pid]) in set p | p in gone :: (p, g.routes[p]);
  }

  /** And is taken back only as asked: by Group.Retract, of an unscoped selection of the
      only owner, or by a receipt, for a selection its call was granted by the route's
      own owner. */
  lemma {:induction false} TakenBackAsAsked(g: State, steps: seq<Step>, pid: int, r: Route)
    requires Initial(g) && Made(g, steps).dropped[(pid, r)] > 0
    ensures || (g.sole && r.scope == NO_SCOPE)
            || exists call :: AskedOf(Made(g, steps), call, r.owner, GrantOf(pid, r))
  {
    if steps != [] {
      var fewer, s := steps[..|steps| - 1], steps[|steps| - 1];
      var was := Made(g, fewer);
      MadeSound(g, fewer);
      SoleKept(g, fewer);
      if Enabled(was, s) {
        if was.dropped[(pid, r)] > 0 {
          TakenBackAsAsked(g, fewer, pid, r);
          if call :| AskedOf(was, call, r.owner, GrantOf(pid, r)) {
            AskedStays(was, s, call, r.owner, GrantOf(pid, r));
          }
        } else {
          DroppedNow(was, s, pid, r);
        }
      } else {
        TakenBackAsAsked(g, fewer, pid, r);
      }
    }
  }

  /** That a call was granted a selection by an owner, and its receipt asked for it. */
  ghost predicate AskedOf(g: State, call: CallId, owner: Owner, x: Grant) {
    call in g.calls && Holds(g.calls[call], owner, x) && IdOf(x) in g.calls[call].spent
  }

  lemma {:induction false} SoleKept(g: State, steps: seq<Step>)
    ensures Made(g, steps).sole == g.sole
  {
    if steps != [] { SoleKept(g, steps[..|steps| - 1]); }
  }

  lemma AskedStays(g: State, s: Step, call: CallId, owner: Owner, x: Grant)
    requires Enabled(g, s) && AskedOf(g, call, owner, x)
    ensures AskedOf(Next(g, s), call, owner, x)
  {
    var r, c := Next(g, s), g.calls[call];
    var i :| 0 <= i < |c.batches| && c.batches[i].owner == owner && x in c.batches[i].granted;
    assert r.calls[call].batches[i].owner == owner && x in r.calls[call].batches[i].granted;
  }

  lemma DroppedNow(g: State, s: Step, pid: int, r: Route)
    requires Sound(g) && Enabled(g, s) && Next(g, s).dropped[(pid, r)] > 0 && g.dropped[(pid, r)] == 0
    ensures (g.sole && r.scope == NO_SCOPE) || exists call :: AskedOf(Next(g, s), call, r.owner, GrantOf(pid, r))
  {
    if s.Clear? {
      var d, b := g.redeeming[s.redeemer], BatchAt(g, s.redeemer);
      var taken := Chosen(b.granted, d.take);
      var gone := Cleared(g.routes, b.owner, taken);
      assert (pid, r) in set p | p in gone :: (p, g.routes[p]);
      var x :| x in taken && Carries(pid, r, b.owner, x);
      ChosenIn(b.granted, d.take, x);
      assert ReceiptOk(g, s.redeemer);
      assert AskedOf(Next(g, s), d.call, r.owner, GrantOf(pid, r));
    } else {
      assert s.Withdraw?;
      assert (pid, r) in set p | p in Unscoped(g.routes, s.one) :: (p, g.routes[p]);
    }
  }

  lemma InstallOvertakes(g: State, steps: seq<Step>, call: CallId, pid: int)
    requires Enabled(Made(g, steps), Install(call))
    ensures var was := Made(g, steps);
            var now := Next(was, Install(call));
            || Overtaken(g, now, pid)
            || ((pid in now.routes <==> pid in was.routes) &&
                (pid in now.routes ==> now.routes[pid] == was.routes[pid]))
  {
    var was := Made(g, steps);
    var now, c := Next(was, Install(call)), was.calls[call];
    Laid(was.routes, call, c.batches, pid);
    if SomeLives(c.batches, pid) {
      var i, x :| 0 <= i < |c.batches| && Lives(c.batches[i], x) && x.pid == pid;
      assert x in c.batches[i].granted;
      if call in g.calls && g.calls[call].outcome == Installed { InstalledBefore(g, steps, call); }
      assert InstalledSince(g, now, call);
    }
  }

  lemma {:induction false} MadeOn(g: State, first: seq<Step>, more: seq<Step>)
    ensures Made(g, first + more) == Made(Made(g, first), more)
  {
    hide Make;
    if more == [] {
      assert first + more == first;
    } else {
      var all, fewer := first + more, more[..|more| - 1];
      assert all[..|all| - 1] == first + fewer;
      MadeOn(g, first, fewer);
    }
  }

  /** An admission of another generation ending, during a call or after, neither
      suppresses nor removes a successor's route: of any run in which a call installs,
      a grant of it is routed by the call unless its own end was reported before, and
      stays so unless its own end is reported after, it is itself taken back, or a
      later call with a grant of that process installs. */
  lemma EndSparesSuccessor(g: State, steps: seq<Step>, call: CallId, i: nat, x: Grant, more: seq<Step>)
    requires Initial(g) && Enabled(Made(g, steps), Install(call))
    requires var c := Made(g, steps).calls[call]; i < |c.batches| && x in c.batches[i].granted
    requires var was := Made(g, steps);
             var b := was.calls[call].batches[i];
             !Reported(was, b, (x.scope, x.instance.key))
    ensures var was := Made(g, steps);
            var laid := Next(was, Install(call));
            var now := Made(g, steps + [Install(call)] + more);
            && x.pid in laid.routes && LaidBy(call, was.calls[call].batches, x.pid, laid.routes[x.pid])
            && (var r := laid.routes[x.pid];
                || (x.pid in now.routes && now.routes[x.pid] == r)
                || (r.owner, GrantOf(x.pid, r)) in now.reported
                || now.dropped[(x.pid, r)] > laid.dropped[(x.pid, r)]
                || Overtaken(laid, now, x.pid))
  {
    MadeSound(g, steps);
    var was := Made(g, steps);
    var laid, c := Next(was, Install(call)), was.calls[call];
    assert CallOk(was, call) && NotedOk(was, c.batches[i]);
    assert Lives(c.batches[i], x);
    Laid(was.routes, call, c.batches, x.pid);
    var r := laid.routes[x.pid];
    assert r.confirmed;
    MadeOn(g, steps + [Install(call)], more);
    MadeOn(g, steps, [Install(call)]);
    assert [Install(call)][..0] == [];
    RouteLeavesOnly(laid, more, x.pid);
  }

  // The locked sections, as they run.

  class Group {
    var routes: map<int, Route>
    var pending: map<CallId, Call>
    ghost var handed: multiset<(CallId, Owner, Grant)>

    constructor (attached: map<int, Route>)
      ensures routes == attached && pending == map[] && handed == multiset{}
    {
      routes, pending, handed := attached, map[], multiset{};
    }

    /** An owner's word that an admission ended: noted by every pending call it could
        belong to, and the route it names, if that is still the one, let go. */
    method Ended(owner: Owner, x: Grant)
      modifies this
      ensures routes == EndRoutes(old(routes), owner, x)
      ensures pending.Keys == old(pending).Keys && handed == old(handed)
      ensures forall call :: call in pending ==> pending[call] == NoteAll(old(pending)[call], owner, x)
    {
      var left := pending.Keys;
      while left != {}
        invariant left <= pending.Keys == old(pending).Keys && routes == old(routes) && handed == old(handed)
        invariant forall call :: call in pending ==>
                    pending[call] == if call in left then old(pending)[call] else NoteAll(old(pending)[call], owner, x)
        decreases |left|
      {
        var call :| call in left;
        var noted := NoteEach(pending[call].batches, owner, x);
        pending := pending[call := pending[call].(batches := noted)];
        left := left - {call};
      }
      if x.pid in routes && Ends(routes[x.pid], owner, x) {
        routes := routes - {x.pid};
      }
    }

    /** Hands back the first batches of a refused call, each to its own owner, with
        nothing asked of an owner that granted nothing. */
    method HandBack(call: CallId, batches: seq<Batch>, due: nat)
      requires due <= |batches|
      modifies this`handed
      ensures handed == old(handed) + AllBack(call, batches, due)
    {
      for i := 0 to due
        invariant handed == old(handed) + AllBack(call, batches, i)
      {
        if |batches[i].granted| > 0 {
          Retract(call, batches[i].owner, batches[i].granted);
        }
      }
    }

    /** The owner takes its selections back. */
    method Retract(call: CallId, owner: Owner, granted: seq<Grant>)
      modifies this`handed
      ensures handed == old(handed) + GiveBack(call, owner, granted)
    {
      for j := 0 to |granted|
        invariant handed == old(handed) + GiveBack(call, owner, granted[..j])
      {
        handed := handed + multiset{(call, owner, granted[j])};
        assert granted[..j + 1][..j] == granted[..j];
      }
      assert granted[..|granted|] == granted;
    }

    /** What a receipt does for the selections it took: batch after batch, their routes
        are let go and they are handed back to the owner that granted them. */
    method Redeem(call: CallId, batches: seq<Batch>, take: set<Identity>)
      modifies this`routes, this`handed
      ensures routes == ClearedBy(old(routes), batches, |batches|, take)
      ensures handed == old(handed) + RestoredBy(call, batches, |batches|, take)
    {
      for i := 0 to |batches|
        invariant routes == ClearedBy(old(routes), batches, i, take)
        invariant handed == old(handed) + RestoredBy(call, batches, i, take)
      {
        var taken := Choose(batches[i].granted, take);
        Clear(batches[i].owner, taken);
        if |taken| > 0 {
          Retract(call, batches[i].owner, taken);
        }
      }
    }

    /** Lets go the routes of an owner's grants. */
    method Clear(owner: Owner, taken: seq<Grant>)
      modifies this`routes
      ensures routes == old(routes) - Cleared(old(routes), owner, taken)
    {
      for j := 0 to |taken|
        invariant routes == old(routes) - Cleared(old(routes), owner, taken[..j])
      {
        var x := taken[j];
        ghost var was := routes;
        if x.pid in routes && Carries(x.pid, routes[x.pid], owner, x) {
          routes := routes - {x.pid};
        }
        assert taken[..j + 1] == taken[..j] + [x];
        ClearedMore(old(routes), owner, taken[..j], x);
      }
      assert taken[..|taken|] == taken;
    }

    /** Group.Retract under the lock: each selection's route, if it has one without a
        scope. */
    method Withdraw(named: seq<Identity>)
      modifies this`routes
      ensures routes == Withdrawn(old(routes), named)
    {
      for j := 0 to |named|
        invariant routes == Withdrawn(old(routes), named[..j])
      {
        var one := named[j];
        assert named[..j + 1][..j] == named[..j];
        ghost var was := routes;
        if one.0 in routes && routes[one.0].scope == NO_SCOPE && routes[one.0].instance == one.1 {
          routes := routes - {one.0};
        }
        assert routes == was - Unscoped(was, one);
      }
      assert named[..|named|] == named;
    }

    /** Routes every grant of a call whose end was not noted. */
    method Install(call: CallId, batches: seq<Batch>)
      modifies this`routes
      ensures routes == Lay(old(routes), call, batches)
    {
      for i := 0 to |batches|
        invariant routes == Lay(old(routes), call, batches[..i])
      {
        var b := batches[i];
        ghost var was := routes;
        for j := 0 to |b.granted|
          invariant routes == LayBatch(was, call, b, b.granted[..j])
        {
          var x := b.granted[j];
          if (x.scope, x.instance.key) !in b.ended {
            routes := routes[x.pid := RouteOf(call, b, x)];
          }
          assert b.granted[..j + 1][..j] == b.granted[..j];
        }
        assert b.granted[..|b.granted|] == b.granted && batches[..i + 1][..i] == batches[..i];
      }
      assert batches[..|batches|] == batches;
    }
  }

  /** Every batch given back, as the steps of the call do one by one. */
  function AllBack(call: CallId, batches: seq<Batch>, n: nat): multiset<(CallId, Owner, Grant)>
    requires n <= |batches|
  {
    if n == 0 then multiset{}
    else AllBack(call, batches, n - 1) + GiveBack(call, batches[n - 1].owner, batches[n - 1].granted)
  }

  /** What the loop hands back is what the batches hold, as often. */
  lemma {:induction false} AllBackHeld(call: CallId, batches: seq<Batch>, n: nat, o: Owner, x: Grant)
    requires n <= |batches|
    ensures AllBack(call, batches, n)[(call, o, x)] == Held(batches, n, o, x)
  {
    if n > 0 {
      AllBackHeld(call, batches, n - 1, o, x);
      GivenBack(call, batches[n - 1].owner, batches[n - 1].granted, call, o, x);
    }
  }

  method NoteEach(batches: seq<Batch>, owner: Owner, x: Grant) returns (noted: seq<Batch>)
    ensures |noted| == |batches| && forall i :: 0 <= i < |batches| ==> noted[i] == Note(batches[i], owner, x)
  {
    noted := [];
    for i := 0 to |batches|
      invariant |noted| == i && forall j :: 0 <= j < i ==> noted[j] == Note(batches[j], owner, x)
    {
      var b := batches[i];
      if b.owner == owner && x.pid in b.pids {
        b := b.(ended := b.ended + {(x.scope, x.instance.key)});
      }
      noted := noted + [b];
    }
  }

  // The receipt.

  /** The grants of a list a receipt was not asked for. */
  function Kept(granted: seq<Grant>, take: set<Identity>): seq<Grant> {
    if granted == [] then []
    else
      var x := granted[|granted| - 1];
      Kept(granted[..|granted| - 1], take) + if IdOf(x) in take then [] else [x]
  }

  /** Asked again, a receipt takes what it would have of the first list and had not
      taken yet. */
  lemma {:induction false} TakenOnce(granted: seq<Grant>, first: set<Identity>, again: set<Identity>)
    ensures Chosen(Kept(granted, first), again) == Chosen(granted, again - first)
  {
    if granted != [] {
      var fewer, y := granted[..|granted| - 1], granted[|granted| - 1];
      TakenOnce(fewer, first, again);
      var kept := Kept(fewer, first);
      if IdOf(y) in first {
        assert Kept(granted, first) == kept;
        assert Chosen(granted, again - first) == Chosen(fewer, again - first) + [];
      } else {
        assert Kept(granted, first) == kept + [y] && (kept + [y])[..|kept|] == kept;
      }
    }
  }

  class Receipt {
    var pending: seq<Grant>

    constructor (original: seq<Grant>)
      ensures pending == original
    {
      pending := original;
    }

    /** Takes of what is pending what is named, and keeps the rest. */
    method Take(named: set<Identity>) returns (take: seq<Grant>)
      modifies this
      ensures take == Chosen(old(pending), named) && pending == Kept(old(pending), named)
    {
      var all, keep := pending, [];
      take := [];
      for i := 0 to |all|
        invariant take == Chosen(all[..i], named) && keep == Kept(all[..i], named)
      {
        if IdOf(all[i]) in named {
          take := take + [all[i]];
        } else {
          keep := keep + [all[i]];
        }
        assert all[..i + 1][..i] == all[..i];
      }
      assert all[..|all|] == all;
      pending := keep;
    }
  }

  method Choose(granted: seq<Grant>, take: set<Identity>) returns (chosen: seq<Grant>)
    ensures chosen == Chosen(granted, take)
  {
    chosen := [];
    for i := 0 to |granted|
      invariant chosen == Chosen(granted[..i], take)
    {
      if IdOf(granted[i]) in take {
        chosen := chosen + [granted[i]];
      }
      assert granted[..i + 1][..i] == granted[..i];
    }
    assert granted[..|granted|] == granted;
  }

  lemma ClearedMore(routes: map<int, Route>, owner: Owner, taken: seq<Grant>, x: Grant)
    ensures var was := routes - Cleared(routes, owner, taken);
            routes - Cleared(routes, owner, taken + [x]) ==
            if x.pid in was && Carries(x.pid, was[x.pid], owner, x) then was - {x.pid} else was
  {
  }

  /** The routes left once a receipt is done with the first batches. */
  function ClearedBy(routes: map<int, Route>, batches: seq<Batch>, n: nat, take: set<Identity>): map<int, Route>
    requires n <= |batches|
  {
    if n == 0 then routes
    else
      var left, b := ClearedBy(routes, batches, n - 1, take), batches[n - 1];
      left - Cleared(left, b.owner, Chosen(b.granted, take))
  }

  /** And what it has handed back. */
  function RestoredBy(call: CallId, batches: seq<Batch>, n: nat, take: set<Identity>): multiset<(CallId, Owner, Grant)>
    requires n <= |batches|
  {
    if n == 0 then multiset{}
    else
      var b := batches[n - 1];
      RestoredBy(call, batches, n - 1, take) + GiveBack(call, b.owner, Chosen(b.granted, take))
  }

  /** What a receipt's loop hands back is what the batches hold of its take. */
  lemma {:induction false} RestoredHeld(call: CallId, batches: seq<Batch>, n: nat, take: set<Identity>, o: Owner,
                                        x: Grant)
    requires n <= |batches|
    ensures RestoredBy(call, batches, n, take)[(call, o, x)] == if IdOf(x) in take then Held(batches, n, o, x) else 0
  {
    if n > 0 {
      var b := batches[n - 1];
      RestoredHeld(call, batches, n - 1, take, o, x);
      GivenBack(call, b.owner, Chosen(b.granted, take), call, o, x);
      ChosenCount(b.granted, take, x);
    }
  }

  function Withdrawn(routes: map<int, Route>, named: seq<Identity>): map<int, Route> {
    if named == [] then routes
    else
      var left := Withdrawn(routes, named[..|named| - 1]);
      left - Unscoped(left, named[|named| - 1])
  }
}
