/** Why no assertion of the experiment can fire: what every event handler keeps. */
module StudySafety {
  import opened StudyLedger
  import opened StudyRoles
  import opened MapSums
  import opened Quotients
  import opened Selection
  import opened EventStudy

  // ---------------------------------------------------------------------------------------------
  // What is assumed of parameters and scenario

  function Crew(P: Params): nat { P.smallNodes + P.largeNodes + 7 }

  function Horizon(P: Params): nat
    requires 0 < P.lease
  {
    var h := Max(Max(CeilDiv(Max(6 * HOUR, P.review + P.lease), P.lease), DAY / P.lease), 3 * DAY / P.lease);
    if h < 0 then 0 else h
  }

  predicate Usable(P: Params)
  {
    && 0 < P.lease && 0 < P.review && 0 < P.queueSeconds && 0 < P.compactSeconds && 0 < P.largeSeconds
    && P.priority != OtherPriority
    && P.Shutdown() <= P.cashInitialDays * P.cashCost
    && Crew(P) * Max(P.smallReward, P.largeReward) * Horizon(P) <= MAX_INTEGER
  }

  ghost predicate NoRepeats(s: seq<nat>) { forall i, j :: 0 <= i < j < |s| ==> s[i] != s[j] }

  ghost predicate MomentOk(P: Params, E: Env, t: nat)
    requires Usable(P)
  {
    && NoRepeats(E.online(t)) && |E.online(t)| <= P.smallNodes + P.largeNodes + 1
    && Capacity(P, E.online(t)) * 24 * 7 * 35 / 100 <= MAX_INTEGER
  }

  /** Positive durations, an affordable shutdown reserve, ceilings and targets that fit, a duplicate-free fleet. */
  ghost predicate Sound(P: Params, E: Env)
  {
    && Usable(P)
    && (forall t :: MomentOk(P, E, t))
    && (forall id :: E.owner(id).Node? || E.owner(id).User?)
  }

  // ---------------------------------------------------------------------------------------------
  // The invariant

  /** Two pending events never have the same token. */
  datatype Token = DayToken | LeaseToken | ReadyToken(at: nat, node: nat) | DeadlineToken(id: nat) | JobToken(id: nat)

  function TokenOf(kind: EventStudy.Kind): Token
  {
    match kind
    case Day => DayToken
    case Lease => LeaseToken
    case ReadyReceipt(at, node, _) => ReadyToken(at, node)
    case ReadySettle(at, node, _) => ReadyToken(at, node)
    case QueueDeadline(id) => DeadlineToken(id)
    case Arrival(id) => JobToken(id)
    case RequestDone(id, _) => JobToken(id)
    case UsageSettle(id) => JobToken(id)
    case RefundApprove(id) => JobToken(id)
    case RefundPost(id) => JobToken(id)
  }

  ghost predicate TokenFree(w: World, token: Token)
  {
    forall s :: s in w.events ==> TokenOf(w.events[s].kind) != token
  }

  ghost predicate TokensDistinct(w: World)
  {
    forall s, x :: s in w.events && x in w.events && TokenOf(w.events[s].kind) == TokenOf(w.events[x].kind) ==> s == x
  }

  predicate Live(stage: Stage) { stage == Queued || stage == Running || stage == PendingReview }

  /** No reversal was ever opened for this request. */
  predicate Unreversed(s: State, id: nat)
  {
    && RoleOf(s, ReversalKey(id)) == Fresh
    && RoleOf(s, Leg(ReversalKey(id), false)) == Fresh
    && RoleOf(s, Leg(ReversalKey(id), true)) == Fresh
  }

  /** The usage hold of a request exists exactly while the request is queued, running or under review. */
  ghost predicate RequestOk(w: World, id: nat)
  {
    if id in w.jobs.requests then
      var q := w.jobs.requests[id];
      var role := RoleOf(w.ledger, UsageKey(id));
      && (Live(q.stage) ==> role == Holds(Held(q.owner, q.price, ForUsage)))
      && (!Live(q.stage) ==> !role.Holds?)
      && (id in w.jobs.waiting <==> q.stage == Queued)
      && (q.stage == Running ==> q.route != [])
      && (q.stage != Finalized ==> Unreversed(w.ledger, id))
    else
      && id !in w.jobs.waiting
      && RoleOf(w.ledger, UsageKey(id)) == Fresh
      && Unreversed(w.ledger, id)
  }

  predicate InStage(w: World, id: nat, stage: Stage) { id in w.jobs.requests && w.jobs.requests[id].stage == stage }

  /** A contract until when the next lease starts, and identifiers of earlier leases only. */
  ghost predicate LeaseOk(w: World, when: nat)
  {
    && (forall n :: n in w.fleet.ready ==> w.fleet.ready[n] <= when)
    && (forall n :: n in w.fleet.busy ==> w.fleet.busy[n] <= when)
    && (forall at: nat, n: nat :: RoleOf(w.ledger, ReadyKey(at, n)) != Fresh ==> at < when)
  }

  ghost predicate DayOk(w: World, when: nat)
  {
    && (forall at: nat :: RoleOf(w.ledger, TreasuryKey(at)) != Fresh ==> at < when)
    && (forall at: nat, i: nat :: RoleOf(w.ledger, GrantKey(at, i)) != Fresh ==> at < when)
  }

  /** A pending readiness payment finds its promise or its hold. */
  predicate Payable(s: State, at: nat, node: nat, source: Source)
  {
    var role := RoleOf(s, ReadyKey(at, node));
    if source == Issuance then role.Promises? && role.p.recipient == Node(node)
    else role.Holds? && role.h.purpose == ForReady && role.h.owner == source.Account()
  }

  /** What a pending event relies on. */
  ghost predicate KindOk(w: World, when: nat, kind: EventStudy.Kind)
  {
    match kind
    case Day => DayOk(w, when)
    case Lease => LeaseOk(w, when)
    case ReadyReceipt(at, node, source) => Payable(w.ledger, at, node, source)
    case ReadySettle(at, node, source) => Payable(w.ledger, at, node, source)
    case QueueDeadline(id) => id in w.jobs.requests
    case Arrival(id) => id !in w.jobs.requests
    case RequestDone(id, _) => InStage(w, id, Running)
    case UsageSettle(id) => InStage(w, id, PendingReview)
    case RefundApprove(id) =>
      InStage(w, id, Finalized) && RoleOf(w.ledger, UsageKey(id)).Reversible? && Unreversed(w.ledger, id)
    case RefundPost(id) =>
      InStage(w, id, Finalized) && RoleOf(w.ledger, ReversalKey(id)).Reverses?
  }

  ghost predicate EventOk(w: World, s: nat)
  {
    s in w.events ==> s <= w.serial && w.now <= w.events[s].when && KindOk(w, w.events[s].when, w.events[s].kind)
  }

  /** A reserved node is under contract for the whole reservation. */
  predicate NodeOk(w: World, n: nat)
  {
    n in w.fleet.busy ==> n in w.fleet.ready && w.fleet.busy[n] <= w.fleet.ready[n]
  }

  predicate RunsAfterNow(w: World, s: nat)
  {
    s in w.events && w.events[s].kind.RequestDone? && w.events[s].when > w.now
  }

  function RouteOf(w: World, s: nat): seq<nat>
    requires s in w.events && w.events[s].kind.RequestDone?
  {
    var id := w.events[s].kind.id;
    if id in w.jobs.requests then w.jobs.requests[id].route else []
  }

  /** Until its completion, a running request keeps every node of its route reserved up to that instant. */
  ghost predicate BookedOk(w: World, s: nat)
  {
    RunsAfterNow(w, s) ==>
      forall n :: n in RouteOf(w, s) ==> n in w.fleet.busy && w.fleet.busy[n] == w.events[s].when
  }

  predicate Apart(a: seq<nat>, b: seq<nat>) { forall n :: n in a ==> n !in b }

  /** No node serves two requests at once. */
  predicate Separate(w: World, s: nat, x: nat)
  {
    RunsAfterNow(w, s) && RunsAfterNow(w, x) && s != x ==> Apart(RouteOf(w, s), RouteOf(w, x))
  }

  ghost predicate Exclusive(w: World) { forall s, x :: Separate(w, s, x) }

  ghost predicate KeysPast(w: World)
  {
    && (forall at: nat, n: nat :: RoleOf(w.ledger, ReadyKey(at, n)) != Fresh ==> at <= w.now)
    && (forall at: nat :: RoleOf(w.ledger, TreasuryKey(at)) != Fresh ==> at <= w.now)
    && (forall at: nat, i: nat :: RoleOf(w.ledger, GrantKey(at, i)) != Fresh ==> at <= w.now)
  }

  predicate CashOk(P: Params, c: Cash)
  {
    c.balance == c.initial + c.paidIn - c.paidOut >= P.Shutdown()
  }

  predicate PlanOk(p: Plan)
  {
    && Representable(p.floor) && Representable(p.working) && Representable(p.protected)
    && (forall x :: x in p.history ==> 0 <= x)
  }

  ghost predicate FleetOk(w: World)
  {
    && (forall n :: NodeOk(w, n))
    && (forall s :: BookedOk(w, s))
    && Exclusive(w)
  }

  ghost predicate Schedule(w: World)
  {
    && (forall s :: EventOk(w, s))
    && TokensDistinct(w)
  }

  ghost predicate Requests(w: World) { forall id :: RequestOk(w, id) }

  ghost predicate Treasury(P: Params, w: World)
  {
    CashOk(P, w.cash) && PlanOk(w.plan) && w.market.buyer + w.market.earned == 100000
  }

  ghost predicate Valid(P: Params, w: World)
  {
    Inv(w.ledger) && Schedule(w) && Requests(w) && FleetOk(w) && KeysPast(w) && Treasury(P, w)
  }

  // ---------------------------------------------------------------------------------------------
  // Primitive changes

  /** Events are looked up by their serial number, so a new one never replaces an old one. */
  lemma SerialIsNew(w: World)
    requires Schedule(w)
    ensures w.serial + 1 !in w.events
  {
    hide KindOk;
    assert EventOk(w, w.serial + 1);
  }

  /** A pending event of the given kind would have its reliance satisfied. */
  lemma KindOfEvent(w: World, s: nat)
    requires Schedule(w) && s in w.events
    ensures KindOk(w, w.events[s].when, w.events[s].kind) && w.now <= w.events[s].when && s <= w.serial
  {
    hide KindOk;
    assert EventOk(w, s);
  }

  lemma KindSame(w: World, v: World, when: nat, kind: EventStudy.Kind)
    requires v.ledger == w.ledger && v.fleet == w.fleet && v.jobs == w.jobs
    ensures KindOk(w, when, kind) <==> KindOk(v, when, kind)
  {
    hide RoleOf;
  }

  lemma RequestSame(w: World, v: World, id: nat)
    requires v.ledger == w.ledger && v.jobs == w.jobs
    ensures RequestOk(w, id) <==> RequestOk(v, id)
  {
    hide RoleOf;
  }

  /** Pushing an event whose reliance holds and whose token is free. */
  lemma PushSchedule(w: World, when: nat, kind: EventStudy.Kind)
    requires Schedule(w) && w.now <= when && KindOk(w, when, kind) && TokenFree(w, TokenOf(kind))
    ensures Schedule(Push(w, when, kind))
  {
    hide KindOk, TokenOf;
    var v := Push(w, when, kind);
    forall s ensures EventOk(v, s) {
      assert EventOk(w, s);
      if s in w.events { KindSame(w, v, w.events[s].when, w.events[s].kind); }
      KindSame(w, v, when, kind);
    }
    SerialIsNew(w);
  }

  lemma PushKeeps(P: Params, w: World, when: nat, kind: EventStudy.Kind)
    requires Valid(P, w) && w.now <= when && KindOk(w, when, kind) && TokenFree(w, TokenOf(kind))
    requires !kind.RequestDone?
    ensures Valid(P, Push(w, when, kind))
  {
    hide Inv, CashOk, PlanOk, KindOk, RequestOk, RoleOf, Schedule, TokenOf;
    var v := Push(w, when, kind);
    PushSchedule(w, when, kind);
    SerialIsNew(w);
    forall id ensures RequestOk(v, id) { assert RequestOk(w, id); RequestSame(w, v, id); }
    forall n ensures NodeOk(v, n) { assert NodeOk(w, n); }
    forall s ensures BookedOk(v, s) { assert BookedOk(w, s); }
    forall s, x ensures Separate(v, s, x) { assert Separate(w, s, x); }
  }
}
