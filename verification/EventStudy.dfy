/**
 The discrete-event experiment (benchmarks/python/network_ai_bench/economy.py).

 `World` is a snapshot of the Experiment object, one function per event handler. Every assertion
 of the handlers, and every operation of theirs that can raise, is an explicit `Fault`.
 */
module EventStudy {
  import opened StudyLedger
  import opened MapSums
  import opened Selection

  const DAY := 86400
  const RETRY := 300
  const HOUR := 3600

  datatype Model = Compact | LargeModel | Unqualified
  datatype Stage = Queued | Running | PendingReview | QueueExpired | CancelledRun | FailedRun | RefundedEarly | Finalized
  datatype Request = Request(
    owner: Account, model: Model, created: nat, deadline: nat, price: int, stage: Stage, route: seq<nat>)

  datatype Source = Issuance | FromWorking | FromReserve {
    function Account(): Account { if this == FromReserve then Reserve else Working }
  }

  datatype Kind =
    | Day
    | Lease
    | Arrival(id: nat)
    | ReadyReceipt(at: nat, node: nat, source: Source)
    | ReadySettle(at: nat, node: nat, source: Source)
    | QueueDeadline(id: nat)
    | RequestDone(id: nat, cancelled: bool)
    | UsageSettle(id: nat)
    | RefundApprove(id: nat)
    | RefundPost(id: nat)

  datatype Event = Event(when: nat, kind: Kind)

  /** The study's parameters; `commercial`, `split`, `demandDriven` and `priority` come from scenario and variant. */
  datatype Params = Params(
    days: nat, matureDays: nat, lease: nat, review: nat, queueSeconds: nat, requestsPerDay: nat,
    smallNodes: nat, largeNodes: nat, accounts: nat,
    smallReward: nat, largeReward: nat, compactPrice: nat, largePrice: nat,
    compactSeconds: nat, largeSeconds: nat, bootstrapDays: nat,
    cashInitialDays: nat, cashRegular: nat, cashCost: nat, cashShutdownDays: nat,
    split: bool, demandDriven: bool, priority: Priority, commercial: bool)
  {
    function End(): int { days * DAY }
    function MatureAt(): int { (days - matureDays) * DAY }
    predicate IsLarge(n: nat) { smallNodes <= n < smallNodes + largeNodes }
    function Rate(n: nat): nat { if IsLarge(n) then largeReward else smallReward }
    function LargeIds(): seq<nat> { seq(largeNodes, i requires 0 <= i => smallNodes + i) }
    function Shutdown(): int { cashShutdownDays * cashCost }
  }

  /** Everything the scenario and the seeded draws decide. */
  datatype Env = Env(
    quorum: nat -> bool, online: nat -> seq<nat>, funding: nat -> bool,
    arrives: nat -> bool, arrival: nat -> nat, owner: nat -> Account, model: nat -> Model, retained: nat -> bool,
    cancels: nat -> bool, fails: nat -> bool, detected: nat -> bool, late: nat -> bool)

  /** Contracted nodes until when, reserved nodes until when, and how often each was selected. */
  datatype Fleet = Fleet(ready: map<nat, nat>, busy: map<nat, nat>, selected: map<nat, nat>) {
    function BusyUntil(n: nat): nat { if n in busy then busy[n] else 0 }
    function Selections(n: nat): nat { if n in selected then selected[n] else 0 }
  }
  datatype Jobs = Jobs(requests: map<nat, Request>, waiting: set<nat>)
  datatype Cash = Cash(balance: int, initial: int, paidIn: int, paidOut: int, paidUntil: int)
  datatype Plan = Plan(floor: int, working: int, protected: int, stableSince: int, history: seq<int>)
  datatype Market = Market(buyer: int, earned: int)

  datatype World = World(
    now: nat, serial: nat, events: map<nat, Event>, ledger: State,
    fleet: Fleet, jobs: Jobs, cash: Cash, plan: Plan, market: Market)

  datatype Outcome = Fault(what: string) | Next(w: World) {
    predicate IsFailure() { Fault? }
    function PropagateFailure(): Outcome requires Fault? { this }
    function Extract(): World requires Next? { w }
  }

  /** Pushing on the heap; equal times are ordered by the serial number. */
  function Push(w: World, when: nat, kind: Kind): World
  {
    w.(serial := w.serial + 1, events := Put(w.events, w.serial + 1, Event(when, kind)))
  }

  function WithStage(w: World, id: nat, stage: Stage): World
    requires id in w.jobs.requests
  {
    w.(jobs := w.jobs.(requests := Put(w.jobs.requests, id, w.jobs.requests[id].(stage := stage))))
  }

  // ---------------------------------------------------------------------------------------------
  // Sorting and selection

  /** Insertion by (times selected, identifier). */
  function Insert(f: Fleet, n: nat, s: seq<nat>): (r: seq<nat>)
    ensures multiset(r) == multiset{n} + multiset(s) && |r| == |s| + 1
  {
    if s == [] then [n]
    else if f.Selections(n) < f.Selections(s[0]) || (f.Selections(n) == f.Selections(s[0]) && n <= s[0]) then [n] + s
    else
      assert s == [s[0]] + s[1..];
      [s[0]] + Insert(f, n, s[1..])
  }

  function SortByUse(f: Fleet, s: seq<nat>): (r: seq<nat>)
    ensures multiset(r) == multiset(s) && |r| == |s|
  {
    if s == [] then []
    else
      assert s == [s[0]] + s[1..];
      Insert(f, s[0], SortByUse(f, s[1..]))
  }

  // ---------------------------------------------------------------------------------------------
  // Economic quantities

  function Rates(P: Params, nodes: seq<nat>): nat
  {
    if nodes == [] then 0 else P.Rate(nodes[0]) + Rates(P, nodes[1..])
  }

  function Count(P: Params, nodes: seq<nat>, large: bool): nat
  {
    if nodes == [] then 0 else (if P.IsLarge(nodes[0]) == large then 1 else 0) + Count(P, nodes[1..], large)
  }

  function Capacity(P: Params, nodes: seq<nat>): int
    requires 0 < P.compactSeconds && 0 < P.largeSeconds
  {
    Count(P, nodes, false) * (HOUR / P.compactSeconds) * P.compactPrice
    + (Count(P, nodes, true) / 3) * (HOUR / P.largeSeconds) * P.largePrice
  }

  function Lowest(a: int, s: seq<int>): (m: int)
    ensures m <= a
    ensures 0 <= a && (forall x :: x in s ==> 0 <= x) ==> 0 <= m
    decreases |s|
  {
    if s == [] then a
    else
      assert s[0] in s && forall x :: x in s[1..] ==> x in s;
      Lowest(Min(a, s[0]), s[1..])
  }

  /** The lower envelope of known capacity over a week, at 35 per cent. */
  function Ceiling(P: Params, E: Env, w: World): int
    requires 0 < P.compactSeconds && 0 < P.largeSeconds
  {
    Lowest(Capacity(P, E.online(w.now)), w.plan.history) * 24 * 7 * 35 / 100
  }

  function CeilDiv(a: int, b: int): int
    requires 0 < b
  {
    (a + b - 1) / b
  }

  function Max(a: int, b: int): int { if a <= b then b else a }

  /** Floor, working target and protected reserve target. */
  function Targets(P: Params, essentials: seq<nat>, contracted: seq<nat>): (int, int, int)
    requires 0 < P.lease
  {
    var core := Rates(P, essentials);
    var floor := core * CeilDiv(Max(6 * HOUR, P.review + P.lease), P.lease);
    (floor, Max(floor, Rates(P, contracted) * (DAY / P.lease)), if P.split then core * (3 * DAY / P.lease) else 0)
  }

  predicate CanIssue(P: Params, w: World)
  {
    w.now + P.lease + P.review < P.MatureAt() && w.now < P.bootstrapDays * DAY
  }

  // ---------------------------------------------------------------------------------------------
  // Starting requests

  /** Nodes whose contract covers the whole duration and that are not reserved now. */
  function FreeFor(w: World, duration: nat): set<nat>
  {
    set n | n in w.fleet.ready && w.fleet.ready[n] >= w.now + duration && w.fleet.BusyUntil(n) <= w.now
  }

  ghost function RouteFor(P: Params, w: World, model: Model, duration: nat): seq<nat>
  {
    var free := FreeFor(w, duration);
    if model == LargeModel then
      var route := Filter(P.LargeIds(), (n: nat) => n in free);
      if |route| != 3 then [] else route
    else
      var candidates := set n | n in free && !P.IsLarge(n);
      if candidates == {} then [] else [Least(candidates)]
  }

  function Book(w: World, route: seq<nat>, until: nat): Outcome
    decreases |route|
  {
    if route == [] then Next(w)
    else if w.fleet.BusyUntil(route[0]) > w.now then Fault("node already reserved")
    else Book(w.(fleet := w.fleet.(busy := Put(w.fleet.busy, route[0], until))), route[1..], until)
  }

  function Duration(P: Params, model: Model): nat { if model == LargeModel then P.largeSeconds else P.compactSeconds }

  /** A cancelled run still occupies its nodes for half the service time, and for one second at least. */
  function Occupied(P: Params, E: Env, id: nat, model: Model): nat
  {
    if E.cancels(id) then (if Duration(P, model) / 2 < 1 then 1 else Duration(P, model) / 2) else Duration(P, model)
  }

  ghost function TryStart(P: Params, E: Env, w: World, id: nat): Outcome
  {
    if id !in w.jobs.requests then Fault("unknown request")
    else
      var q := w.jobs.requests[id];
      if q.stage != Queued || w.now > q.deadline then Next(w)
      else
        var route := RouteFor(P, w, q.model, Duration(P, q.model));
        if route == [] then Next(w)
        else if id !in w.jobs.waiting then Fault("request not waiting")
        else
          var until := w.now + Occupied(P, E, id, q.model);
          var started := w.(jobs := Jobs(Put(w.jobs.requests, id, q.(route := route, stage := Running)),
                                         w.jobs.waiting - {id}));
          var booked :- Book(started, route, until);
          Next(Push(booked, until, RequestDone(id, E.cancels(id))))
  }

  ghost function StartAll(P: Params, E: Env, w: World, ids: seq<nat>): Outcome
    decreases |ids|
  {
    if ids == [] then Next(w)
    else
      var started :- TryStart(P, E, w, ids[0]);
      StartAll(P, E, started, ids[1..])
  }

  // ---------------------------------------------------------------------------------------------
  // Contracting a lease

  function Extend(P: Params, w: World, wanted: seq<nat>, more: seq<nat>, floor: int): seq<nat>
    decreases |more|
  {
    if more == [] then wanted
    else if w.ledger.Balance(Working) - Rates(P, wanted) - P.Rate(more[0]) >= floor then
      Extend(P, w, wanted + [more[0]], more[1..], floor)
    else
      Extend(P, w, wanted, more[1..], floor)
  }

  /** One group a small node, and the three large nodes together, second in line. */
  function Singles(nodes: seq<nat>): seq<seq<nat>>
  {
    if nodes == [] then [] else [[nodes[0]]] + Singles(nodes[1..])
  }

  function Groups(P: Params, wanted: seq<nat>): seq<seq<nat>>
  {
    var singles := Singles(Filter(wanted, (n: nat) => !P.IsLarge(n)));
    var large := Filter(wanted, (n: nat) => P.IsLarge(n));
    if |large| != 3 then singles
    else if singles == [] then [large]
    else [singles[0]] + [large] + singles[1..]
  }

  datatype Funding = Unfunded | Funded(source: Source)

  function ChooseSource(P: Params, E: Env, w: World, group: seq<nat>, essentials: seq<nat>, floor: int): Funding
    requires 0 < P.compactSeconds && 0 < P.largeSeconds
  {
    var value := Rates(P, group);
    var essential := forall n :: n in group ==> n in essentials;
    if w.ledger.Balance(Working) >= value && (essential || w.ledger.Balance(Working) - value >= floor) then
      Funded(FromWorking)
    else if CanIssue(P, w) && w.ledger.Exposure() + value <= Ceiling(P, E, w) then
      Funded(Issuance)
    else if P.split && essential && w.ledger.Balance(Reserve) >= value then
      Funded(FromReserve)
    else
      Unfunded
  }

  ghost function FundNode(P: Params, E: Env, w: World, n: nat, source: Source): Outcome
    requires 0 < P.compactSeconds && 0 < P.largeSeconds
  {
    var key := ReadyKey(w.now, n);
    var (ledger, reply) :=
      if source == Issuance then
        AfterPromise(w.ledger, key, Node(n), P.Rate(n), Ceiling(P, E, w), Contributor)
      else
        AfterHold(w.ledger, key, source.Account(), P.Rate(n), ForReady);
    if n in w.fleet.ready || n in w.fleet.busy then Fault("resource double reservation")
    else if reply != Bool(true) then Fault("contract not funded")
    else
      Next(Push(w.(ledger := ledger,
                   fleet := Fleet(Put(w.fleet.ready, n, w.now + P.lease), w.fleet.busy,
                                  Put(w.fleet.selected, n, w.fleet.Selections(n) + 1))),
                w.now + P.lease, ReadyReceipt(w.now, n, source)))
  }

  ghost function FundNodes(P: Params, E: Env, w: World, nodes: seq<nat>, source: Source): Outcome
    requires 0 < P.compactSeconds && 0 < P.largeSeconds
    decreases |nodes|
  {
    if nodes == [] then Next(w)
    else
      var funded :- FundNode(P, E, w, nodes[0], source);
      FundNodes(P, E, funded, nodes[1..], source)
  }

  ghost function FundGroups(P: Params, E: Env, w: World, groups: seq<seq<nat>>, essentials: seq<nat>, floor: int): Outcome
    requires 0 < P.compactSeconds && 0 < P.largeSeconds
    decreases |groups|
  {
    if groups == [] then Next(w)
    else
      match ChooseSource(P, E, w, groups[0], essentials, floor)
      case Unfunded => FundGroups(P, E, w, groups[1..], essentials, floor)
      case Funded(source) =>
        var funded :- FundNodes(P, E, w, groups[0], source);
        FundGroups(P, E, funded, groups[1..], essentials, floor)
  }

  function Prefix(s: seq<nat>, n: nat): seq<nat> { if |s| <= n then s else s[..n] }

  function Slice(s: seq<nat>): seq<nat> { if |s| <= 1 then [] else Prefix(s[1..], 2) }

  /** The small nodes by use, the large nodes present, the essential ones and the ones to contract. */
  function Small(P: Params, E: Env, w: World): seq<nat>
  {
    SortByUse(w.fleet, Filter(E.online(w.now), (n: nat) => !P.IsLarge(n)))
  }

  function LargeTeam(P: Params, E: Env, w: World): seq<nat>
  {
    var online := E.online(w.now);
    var large := Filter(P.LargeIds(), (n: nat) => n in online);
    if |large| >= 3 then large[..3] else []
  }

  function Essentials(P: Params, E: Env, w: World): seq<nat>
  {
    Prefix(Small(P, E, w), 1) + LargeTeam(P, E, w)
  }

  function Wanted(P: Params, E: Env, w: World): seq<nat>
    requires 0 < P.lease
  {
    var small := Small(P, E, w);
    var essentials := Essentials(P, E, w);
    var wanted := if P.demandDriven then essentials else small + LargeTeam(P, E, w);
    var (floor, _, protected) := Targets(P, essentials, wanted);
    if P.demandDriven && |w.jobs.waiting| > 1 && w.ledger.Balance(Reserve) >= protected
       && w.now - w.plan.stableSince >= DAY
    then Extend(P, w, wanted, Slice(small), floor)
    else wanted
  }

  function Vacate(P: Params, w: World): World
  {
    w.(fleet := w.fleet.(ready := map[],
                         busy := map n | n in w.fleet.busy && w.fleet.busy[n] > w.now :: w.fleet.busy[n]))
  }

  /** Some essential node has no contract. */
  predicate Uncovered(essentials: seq<nat>, f: Fleet) { exists n :: n in essentials && n !in f.ready }

  ghost function Contract(P: Params, E: Env, w: World): Outcome
    requires 0 < P.compactSeconds && 0 < P.largeSeconds && 0 < P.lease
  {
    var essentials := Essentials(P, E, w);
    var wanted := Wanted(P, E, w);
    var (floor, working, protected) := Targets(P, essentials, wanted);
    var planned := w.(plan := w.plan.(floor := floor, working := working, protected := protected));
    if !E.quorum(w.now) || w.now >= w.cash.paidUntil || essentials == [] then
      Next(planned.(plan := planned.plan.(stableSince := w.now)))
    else
      var funded :- FundGroups(P, E, planned, Groups(P, wanted), essentials, floor);
      Next(if Uncovered(essentials, funded.fleet)
           then funded.(plan := funded.plan.(stableSince := funded.now)) else funded)
  }

  ghost function LeaseStart(P: Params, E: Env, w: World): Outcome
    requires 0 < P.compactSeconds && 0 < P.largeSeconds && 0 < P.lease
  {
    if w.now >= P.End() then Next(w)
    else
      var contracted :- Contract(P, E, Vacate(P, w));
      var started :- StartAll(P, E, contracted, Ascending(contracted.jobs.waiting));
      Next(Push(started, started.now + P.lease, Lease))
  }

  ghost function ReadySettled(P: Params, E: Env, w: World, at: nat, node: nat, source: Source): Outcome
  {
    if !E.quorum(w.now) then Next(Push(w, w.now + RETRY, ReadySettle(at, node, source)))
    else
      var (ledger, reply) :=
        if source == Issuance then AfterIssue(w.ledger, ReadyKey(at, node))
        else AfterPayReady(w.ledger, ReadyKey(at, node), Node(node));
      if reply.Raised? then Fault("readiness not payable") else Next(w.(ledger := ledger))
  }

  // ---------------------------------------------------------------------------------------------
  // Day boundary

  /** Promise and, when promised, issue at once. */
  ghost function Grant(w: World, key: Key, recipient: Account, value: int, ceiling: int, kind: StudyLedger.Kind): Outcome
  {
    if value == 0 then Next(w)
    else
      var (promised, reply) := AfterPromise(w.ledger, key, recipient, value, ceiling, kind);
      if reply.Raised? then Fault("grant not promisable")
      else if reply == Bool(false) then Next(w)
      else
        var (issued, issue) := AfterIssue(promised, key);
        if issue.Raised? then Fault("grant not issuable") else Next(w.(ledger := issued))
  }

  ghost function GrantUsers(P: Params, E: Env, w: World, grant: int, index: nat): Outcome
    requires 0 < P.compactSeconds && 0 < P.largeSeconds && index <= P.accounts
    decreases P.accounts - index
  {
    if index == P.accounts then Next(w)
    else
      var value := grant / P.accounts + if index < grant % P.accounts then 1 else 0;
      var granted :- Grant(w, GrantKey(w.now, index), User(index), value, Ceiling(P, E, w), GrantKind);
      GrantUsers(P, E, granted, grant, index + 1)
  }

  ghost function Bootstrap(P: Params, E: Env, w: World): Outcome
    requires 0 < P.compactSeconds && 0 < P.largeSeconds
  {
    if !CanIssue(P, w) || !E.quorum(w.now) then Next(w)
    else
      var ceiling := Ceiling(P, E, w);
      var room := Max(0, ceiling - w.ledger.Exposure());
      var treasury := Min(room, w.ledger.c.contributorIssued / TREASURY_DIVISOR - w.ledger.c.treasuryIssued);
      var funded :- Grant(w, TreasuryKey(w.now), Working, treasury, ceiling, TreasuryKind);
      var grant := Min(Max(0, ceiling - funded.ledger.Exposure()),
                       funded.ledger.c.contributorIssued / GRANT_DIVISOR - funded.ledger.c.grantsIssued);
      GrantUsers(P, E, funded, grant, 0)
  }

  /** Member funding in, one day's cost out when that leaves the shutdown reserve. */
  function PayOperations(P: Params, E: Env, now: nat, c: Cash): Cash
  {
    var paid := if E.funding(now) then c.(balance := c.balance + P.cashRegular, paidIn := c.paidIn + P.cashRegular) else c;
    if paid.balance - P.cashCost >= P.Shutdown() then
      paid.(balance := paid.balance - P.cashCost, paidOut := paid.paidOut + P.cashCost, paidUntil := now + DAY)
    else
      paid
  }

  function Trade(P: Params, m: Market): Market
  {
    if P.commercial && m.buyer >= 60 then Market(m.buyer - 60, m.earned + 60) else m
  }

  function Remember(history: seq<int>, capacity: int): seq<int>
  {
    if |history| < 7 then history + [capacity] else history[|history| - 6..] + [capacity]
  }

  ghost function DayBoundary(P: Params, E: Env, w: World): Outcome
    requires 0 < P.compactSeconds && 0 < P.largeSeconds
  {
    if !Audit(w.ledger) then Fault("audit")
    else if w.now >= P.End() then Next(w)
    else
      var cash := PayOperations(P, E, w.now, w.cash);
      var market := Trade(P, w.market);
      if !(cash.balance == cash.initial + cash.paidIn - cash.paidOut >= P.Shutdown()) then Fault("cash")
      else if market.buyer + market.earned != 100000 then Fault("commercial cash")
      else
        var history := Remember(w.plan.history, Capacity(P, E.online(w.now)));
        var booted :- Bootstrap(P, E, w.(cash := cash, market := market, plan := w.plan.(history := history)));
        Next(Push(booted, w.now + DAY, Day))
  }

  // ---------------------------------------------------------------------------------------------
  // The life of a request

  ghost function Arrive(P: Params, E: Env, w: World, id: nat): Outcome
  {
    var model := E.model(id);
    var price := if model == LargeModel then P.largePrice else P.compactPrice;
    if w.now >= P.End() || E.retained(id) then Next(w)
    else if w.ledger.Balance(E.owner(id)) < price then Next(w)
    else if model == Unqualified then Next(w)
    else if !E.quorum(w.now) || w.now >= w.cash.paidUntil then Next(w)
    else
      var (ledger, reply) := AfterHold(w.ledger, UsageKey(id), E.owner(id), price, ForUsage);
      if reply != Bool(true) then Fault("usage not held")
      else
        var q := Request(E.owner(id), model, w.now, w.now + P.queueSeconds, price, Queued, []);
        var queued := w.(ledger := ledger, jobs := Jobs(Put(w.jobs.requests, id, q), w.jobs.waiting + {id}));
        TryStart(P, E, Push(queued, q.deadline, QueueDeadline(id)), id)
  }

  function Expire(w: World, id: nat): Outcome
  {
    if id !in w.jobs.requests then Fault("unknown request")
    else if w.jobs.requests[id].stage != Queued then Next(w)
    else if id !in w.jobs.waiting then Fault("request not waiting")
    else
      var (ledger, reply) := AfterRelease(w.ledger, UsageKey(id));
      if reply.Raised? then Fault("no usage hold")
      else
        Next(WithStage(w.(ledger := ledger, jobs := w.jobs.(waiting := w.jobs.waiting - {id})), id, QueueExpired))
  }

  /** A completion frees exactly the reservations of its route that end now. */
  function Unbook(w: World, route: seq<nat>): World
  {
    w.(fleet := w.fleet.(busy := map n | n in w.fleet.busy && !(n in route && w.fleet.busy[n] == w.now) :: w.fleet.busy[n]))
  }

  function Complete(P: Params, E: Env, w: World, id: nat, cancelled: bool): Outcome
    requires id in w.jobs.requests
  {
    if cancelled || E.fails(id) then
      var (ledger, reply) := AfterRelease(w.ledger, UsageKey(id));
      if reply.Raised? then Fault("no usage hold")
      else Next(WithStage(w.(ledger := ledger), id, if cancelled then CancelledRun else FailedRun))
    else
      Next(Push(WithStage(w, id, PendingReview), w.now + P.review, UsageSettle(id)))
  }

  ghost function Finish(P: Params, E: Env, w: World, id: nat, cancelled: bool): Outcome
  {
    if id !in w.jobs.requests then Fault("unknown request")
    else
      var completed :- Complete(P, E, Unbook(w, w.jobs.requests[id].route), id, cancelled);
      StartAll(P, E, completed, Ascending(completed.jobs.waiting))
  }

  function SettleUsage(P: Params, E: Env, w: World, id: nat): Outcome
  {
    if id !in w.jobs.requests then Fault("unknown request")
    else if !E.quorum(w.now) then Next(Push(w, w.now + RETRY, UsageSettle(id)))
    else if E.detected(id) then
      var (ledger, reply) := AfterRelease(w.ledger, UsageKey(id));
      if reply.Raised? then Fault("no usage hold") else Next(WithStage(w.(ledger := ledger), id, RefundedEarly))
    else
      var (ledger, reply) :=
        AfterFinalize(w.ledger, UsageKey(id), w.plan.floor, w.plan.working, w.plan.protected, P.priority);
      if reply.Raised? then Fault("usage not settled")
      else
        var settled := WithStage(w.(ledger := ledger), id, Finalized);
        Next(if E.late(id) then Push(settled, w.now + HOUR, RefundApprove(id)) else settled)
  }

  function ApproveRefund(E: Env, w: World, id: nat): Outcome
  {
    if !E.quorum(w.now) then Next(Push(w, w.now + RETRY, RefundApprove(id)))
    else
      var (ledger, reply) := AfterApprove(w.ledger, ReversalKey(id), UsageKey(id));
      if reply.Raised? then Fault("refund not approvable")
      else if reply == Bool(true) then Next(Push(w.(ledger := ledger), w.now + RETRY, RefundPost(id)))
      else Next(Push(w.(ledger := ledger), w.now + HOUR, RefundApprove(id)))
  }

  function PostRefund(E: Env, w: World, id: nat): Outcome
  {
    if !E.quorum(w.now) then Next(Push(w, w.now + RETRY, RefundPost(id)))
    else
      var (ledger, reply) := AfterPost(w.ledger, ReversalKey(id));
      if reply.Raised? then Fault("refund not posted")
      else if id !in w.jobs.requests then Fault("unknown request")
      else Next(w.(ledger := ledger))
  }

  // ---------------------------------------------------------------------------------------------
  // The event loop

  ghost function Handle(P: Params, E: Env, w: World, kind: Kind): Outcome
    requires 0 < P.compactSeconds && 0 < P.largeSeconds && 0 < P.lease
  {
    match kind
    case Day => DayBoundary(P, E, w)
    case Lease => LeaseStart(P, E, w)
    case Arrival(id) => Arrive(P, E, w, id)
    case ReadyReceipt(at, node, source) => Next(Push(w, w.now + P.review, ReadySettle(at, node, source)))
    case ReadySettle(at, node, source) => ReadySettled(P, E, w, at, node, source)
    case QueueDeadline(id) => Expire(w, id)
    case RequestDone(id, cancelled) => Finish(P, E, w, id, cancelled)
    case UsageSettle(id) => SettleUsage(P, E, w, id)
    case RefundApprove(id) => ApproveRefund(E, w, id)
    case RefundPost(id) => PostRefund(E, w, id)
  }

  ghost function Times(events: map<nat, Event>): set<nat> { set s | s in events :: events[s].when }

  /** The heap's minimum: earliest time, then lowest serial number. */
  ghost function Earliest(events: map<nat, Event>): (s: nat)
    requires events != map[]
    ensures s in events
    ensures forall x :: x in events ==>
              events[s].when < events[x].when || (events[s].when == events[x].when && s <= x)
  {
    var some :| some in events;
    assert events[some].when in Times(events);
    var first := Least(Times(events));
    var s0 :| s0 in events && events[s0].when == first;
    var serials := set s | s in events && events[s].when == first;
    assert s0 in serials;
    var s := Least(serials);
    assert forall x :: x in events ==> events[x].when in Times(events);
    assert forall x :: x in events && events[x].when == first ==> x in serials;
    s
  }

  /** Whether the loop stops: nothing is pending, or nothing before the end. */
  ghost predicate Over(P: Params, w: World)
  {
    w.events == map[] || w.events[Earliest(w.events)].when > P.End()
  }

  ghost function Pop(w: World): World
    requires w.events != map[]
  {
    var s := Earliest(w.events);
    w.(now := w.events[s].when, events := Drop(w.events, s))
  }

  ghost function Step(P: Params, E: Env, w: World): Outcome
    requires 0 < P.compactSeconds && 0 < P.largeSeconds && 0 < P.lease
    requires !Over(P, w)
  {
    Handle(P, E, Pop(w), w.events[Earliest(w.events)].kind)
  }

  function Arrivals(P: Params, E: Env, w: World, id: nat): World
    requires id <= P.days * P.requestsPerDay
    decreases P.days * P.requestsPerDay - id
  {
    if id == P.days * P.requestsPerDay then w
    else Arrivals(P, E, if E.arrives(id) then Push(w, E.arrival(id), Arrival(id)) else w, id + 1)
  }

  function Blank(P: Params): World
  {
    var cash := P.cashInitialDays * P.cashCost;
    World(0, 0, map[], Empty, Fleet(map[], map[], map[]), Jobs(map[], {}),
          Cash(cash, cash, 0, 0, 0), Plan(0, 0, 0, 0, []), Market(100000, 0))
  }

  function Initial(P: Params, E: Env): World
  {
    Arrivals(P, E, Push(Push(Blank(P), 0, Day), 0, Lease), 0)
  }

  /** The world after at most n events, or the fault that stopped it. */
  ghost function After(P: Params, E: Env, n: nat): Outcome
    requires 0 < P.compactSeconds && 0 < P.largeSeconds && 0 < P.lease
  {
    if n == 0 then Next(Initial(P, E))
    else
      var w :- After(P, E, n - 1);
      if Over(P, w) then Next(w) else Step(P, E, w)
  }
}
