/** What single moments of the experiment do, in its own numbers: endings of a request, payments, a lease's plan, a day's cash. */
module StudyMoments {
  import opened StudyLedger
  import opened StudyRoles
  import opened MapSums
  import opened Quotients
  import opened Selection
  import opened EventStudy
  import opened StudySafety
  import opened StudySteps
  import opened StudyStart
  import StudyCalls
  import StudyLease
  import opened StudyJobs
  import opened StudyLives
  import Dispensing = Refill

  /** v has exactly one event more than w. */
  ghost predicate Announced(w: World, v: World, when: int, kind: EventStudy.Kind)
  {
    && (exists s :: s in v.events && s !in w.events && v.events[s].when == when && v.events[s].kind == kind
                    && v.events.Keys == w.events.Keys + {s})
    && forall s :: s in w.events ==> s in v.events && v.events[s] == w.events[s]
  }

  lemma PushAnnounces(P: Params, w: World, v: World, when: nat, kind: EventStudy.Kind)
    requires Valid(P, w) && v.events == w.events && v.serial == w.serial
    ensures Announced(w, Push(v, when, kind), when, kind)
  {
    hide Valid;
    NewSerial(P, w);
    assert Push(v, when, kind).events[w.serial + 1] == Event(when, kind);
  }

  lemma ReleasePays(s: State, key: Key)
    requires RoleOf(s, key).Holds?
    ensures var h := RoleOf(s, key).h; var t := AfterRelease(s, key).0;
            && t.Balance(h.owner) == s.Balance(h.owner) + h.value
            && (forall a :: a != h.owner ==> t.Balance(a) == s.Balance(a)) && t.c == s.c
  {
  }

  /** Only this account's balance changed, by this much, and no counter did. */
  ghost predicate Repaid(s: State, t: State, owner: Account, value: int)
  {
    && t.Balance(owner) == s.Balance(owner) + value && t.c == s.c
    && forall a :: a != owner ==> t.Balance(a) == s.Balance(a)
  }

  /** At its deadline a request that still waits gets its price back and leaves; any other is left alone. */
  lemma DeadlineGivesBack(P: Params, w: World, id: nat)
    requires Valid(P, w) && id in w.jobs.requests
    ensures var r := Expire(w, id); var q := w.jobs.requests[id];
            && r.Next?
            && (if q.stage == Queued then
                  && Repaid(w.ledger, r.w.ledger, q.owner, q.price) && id !in r.w.jobs.waiting
                  && r.w.jobs.requests == w.jobs.requests[id := q.(stage := QueueExpired)] && r.w.events == w.events
                else r.w == w)
  {
    hide Valid, AfterRelease, RoleOf;
    ExpireKeeps(P, w, id);
    if InStage(w, id, Queued) {
      HoldOf(P, w, id);
      ReleasePays(w.ledger, UsageKey(id));
    }
  }

  /** A run that was cancelled or failed gives the price back; any other is reviewed, and settled after the review. */
  lemma CompletionDecides(P: Params, E: Env, w: World, id: nat, cancelled: bool)
    requires Valid(P, w) && InStage(w, id, Running) && TokenFree(w, JobToken(id))
    ensures var r := Complete(P, E, w, id, cancelled); var q := w.jobs.requests[id];
            && r.Next?
            && (if cancelled || E.fails(id) then
                  && Repaid(w.ledger, r.w.ledger, q.owner, q.price) && r.w.events == w.events
                  && r.w.jobs.requests == w.jobs.requests[id := q.(stage := if cancelled then CancelledRun else FailedRun)]
                else
                  && r.w.ledger == w.ledger && Announced(w, r.w, w.now + P.review, UsageSettle(id))
                  && r.w.jobs.requests == w.jobs.requests[id := q.(stage := PendingReview)])
  {
    hide Valid, AfterRelease, TokenFree, RoleOf, Announced;
    CompleteKeeps(P, E, w, id, cancelled);
    HoldOf(P, w, id);
    ReleasePays(w.ledger, UsageKey(id));
    PushAnnounces(P, w, EventStudy.WithStage(w, id, PendingReview), w.now + P.review, UsageSettle(id));
  }

  /** Nodes of the route whose reservation ends now become free; every other reservation stays. */
  lemma CompletionFrees(w: World, route: seq<nat>, n: nat)
    ensures var v := Unbook(w, route);
            && (n in v.fleet.busy <==> n in w.fleet.busy && (n !in route || w.fleet.busy[n] != w.now))
            && (n in v.fleet.busy ==> v.fleet.busy[n] == w.fleet.busy[n])
  {
  }

  /** A settled charge goes, unit by unit, to the first of floor, reserve and working target that is not met, else it is burned. */
  lemma SettlementDispenses(s: State, key: Key, floor: int, wt: int, rt: int, priority: Priority)
    requires RoleOf(s, key).Holds? && 0 <= RoleOf(s, key).h.value && !AfterFinalize(s, key, floor, wt, rt, priority).1.Raised?
    ensures var t := AfterFinalize(s, key, floor, wt, rt, priority).0;
            && Dispensing.Fund(t.Balance(Working), t.Balance(Reserve), t.c.burned)
               == StudyCalls.Dispensed(s, RoleOf(s, key).h.value, floor, wt, rt, priority)
            && (forall a :: a != Working && a != Reserve ==> t.Balance(a) == s.Balance(a))
  {
    hide Refill, Dispensing.Recycle, Dispensing.DispenseAll;
    var q := RoleOf(s, key).h.value;
    RefillIsRecycle(q, s.Balance(Working), s.Balance(Reserve), floor, wt, rt, priority);
    Dispensing.RecycleIsDispensing(
      Dispensing.Fund(s.Balance(Working), s.Balance(Reserve), s.c.burned), q,
      if priority == V6 then floor else s.Balance(Working), wt, if priority == Single then s.Balance(Reserve) else rt);
  }

  /** A review waits for a quorum; a detected fault gives the price back, anything else is charged. */
  lemma ReviewSettles(P: Params, E: Env, w: World, id: nat)
    requires Usable(P) && Valid(P, w) && InStage(w, id, PendingReview) && TokenFree(w, JobToken(id))
    ensures var r := SettleUsage(P, E, w, id); var q := w.jobs.requests[id];
            && r.Next?
            && (!E.quorum(w.now) ==>
                  r.w.ledger == w.ledger && r.w.jobs == w.jobs && Announced(w, r.w, w.now + 300, UsageSettle(id)))
            && (E.quorum(w.now) && E.detected(id) ==>
                  && Repaid(w.ledger, r.w.ledger, q.owner, q.price) && r.w.events == w.events
                  && r.w.jobs.requests == w.jobs.requests[id := q.(stage := RefundedEarly)])
            && (E.quorum(w.now) && !E.detected(id) ==>
                  && 0 <= q.price
                  && Dispensing.Fund(r.w.ledger.Balance(Working), r.w.ledger.Balance(Reserve), r.w.ledger.c.burned)
                     == StudyCalls.Dispensed(w.ledger, q.price, w.plan.floor, w.plan.working, w.plan.protected, P.priority)
                  && r.w.jobs.requests == w.jobs.requests[id := q.(stage := Finalized)]
                  && if E.late(id) then Announced(w, r.w, w.now + 3600, RefundApprove(id)) else r.w.events == w.events)
  {
    hide Valid, AfterRelease, AfterFinalize, TokenFree, RoleOf, Announced, Usable, StudyCalls.Dispensed, Repaid;
    SettleUsageKeeps(P, E, w, id);
    HoldOf(P, w, id);
    HoldIsNatural(P, w, UsageKey(id));
    if !E.quorum(w.now) {
      PushAnnounces(P, w, w, w.now + RETRY, UsageSettle(id));
    } else if E.detected(id) {
      ReleasePays(w.ledger, UsageKey(id));
      RepaidBy(w.ledger, UsageKey(id));
    } else {
      ChargeKeeps(P, w, id);
      SettlementDispenses(w.ledger, UsageKey(id), w.plan.floor, w.plan.working, w.plan.protected, P.priority);
      var t := AfterFinalize(w.ledger, UsageKey(id), w.plan.floor, w.plan.working, w.plan.protected, P.priority).0;
      PushAnnounces(P, w, EventStudy.WithStage(w.(ledger := t), id, Finalized), w.now + HOUR, RefundApprove(id));
    }
  }

  lemma RepaidBy(s: State, key: Key)
    requires RoleOf(s, key).Holds?
    ensures Repaid(s, AfterRelease(s, key).0, RoleOf(s, key).h.owner, RoleOf(s, key).h.value)
  {
    hide AfterRelease, RoleOf;
    ReleasePays(s, key);
  }

  lemma HoldIsNatural(P: Params, w: World, key: Key)
    requires Valid(P, w) && RoleOf(w.ledger, key).Holds?
    ensures 0 <= RoleOf(w.ledger, key).h.value
  {
    hide Schedule, Requests, FleetOk, KeysPast, Treasury, Balances, Totals, Caps;
    assert Entry(w.ledger, key);
  }

  /** An approved refund is posted after five minutes; one that the fund cannot cover, or without a quorum, is tried again. */
  lemma RefundIsApproved(P: Params, E: Env, w: World, id: nat)
    requires Valid(P, w) && KindOk(w, w.now, RefundApprove(id)) && TokenFree(w, JobToken(id))
    ensures var r := ApproveRefund(E, w, id); var c := RoleOf(w.ledger, UsageKey(id)).charge;
            var covered := c.working <= w.ledger.Balance(Working) && c.reserve <= w.ledger.Balance(Reserve)
                           && w.ledger.Exposure() + c.burn <= 9223372036854775807;
            && r.Next? && r.w.jobs == w.jobs
            && (!E.quorum(w.now) ==> r.w.ledger == w.ledger && Announced(w, r.w, w.now + 300, RefundApprove(id)))
            && (E.quorum(w.now) && !covered ==> r.w.ledger == w.ledger && Announced(w, r.w, w.now + 3600, RefundApprove(id)))
            && (E.quorum(w.now) && covered ==>
                  && Announced(w, r.w, w.now + 300, RefundPost(id))
                  && r.w.ledger.Balance(Working) == w.ledger.Balance(Working) - c.working
                  && r.w.ledger.Balance(Reserve) == w.ledger.Balance(Reserve) - c.reserve
                  && r.w.ledger.Exposure() == w.ledger.Exposure() + c.burn)
  {
    hide Valid, AfterApprove, TokenFree, RoleOf, Announced;
    ApproveRefundKeeps(P, E, w, id);
    if !E.quorum(w.now) {
      PushAnnounces(P, w, w, w.now + RETRY, RefundApprove(id));
    } else {
      AsksFor(P, w);
      ApproveRole(w.ledger, ReversalKey(id), UsageKey(id));
      ApproveExactly(w.ledger, ReversalKey(id), UsageKey(id));
      var (t, reply) := AfterApprove(w.ledger, ReversalKey(id), UsageKey(id));
      PushAnnounces(P, w, w.(ledger := t), w.now + RETRY, RefundPost(id));
      PushAnnounces(P, w, w.(ledger := t), w.now + HOUR, RefundApprove(id));
    }
  }

  lemma ApproveExactly(s: State, key: Key, original: Key)
    requires RoleOf(s, original).Reversible? && AfterApprove(s, key, original).1.Bool?
    ensures var (t, reply) := AfterApprove(s, key, original); var c := RoleOf(s, original).charge;
            && (reply.ok <==> c.working <= s.Balance(Working) && c.reserve <= s.Balance(Reserve)
                              && s.Exposure() + c.burn <= 9223372036854775807)
            && (reply.ok ==> t.Balance(Working) == s.Balance(Working) - c.working
                             && t.Balance(Reserve) == s.Balance(Reserve) - c.reserve && t.Exposure() == s.Exposure() + c.burn)
            && (!reply.ok ==> t == s)
  {
  }

  /** A posted refund gives the payer back the whole charge; without a quorum it is tried again after five minutes. */
  lemma RefundIsPosted(P: Params, E: Env, w: World, id: nat)
    requires Valid(P, w) && KindOk(w, w.now, RefundPost(id)) && TokenFree(w, JobToken(id))
    ensures var r := PostRefund(E, w, id); var c := RoleOf(w.ledger, ReversalKey(id)).c;
            && r.Next? && r.w.jobs == w.jobs
            && (if !E.quorum(w.now) then r.w.ledger == w.ledger && Announced(w, r.w, w.now + 300, RefundPost(id))
                else
                  && r.w.events == w.events
                  && r.w.ledger.Balance(c.owner) == w.ledger.Balance(c.owner) + c.working + c.reserve + c.burn
                  && forall a :: a != c.owner ==> r.w.ledger.Balance(a) == w.ledger.Balance(a))
  {
    hide Valid, AfterPost, TokenFree, RoleOf, Announced;
    PostRefundKeeps(P, E, w, id);
    if !E.quorum(w.now) {
      PushAnnounces(P, w, w, w.now + RETRY, RefundPost(id));
    } else {
      AsksFor(P, w);
      PostRole(w.ledger, ReversalKey(id));
      PostExactly(w.ledger, ReversalKey(id));
    }
  }

  lemma PostExactly(s: State, key: Key)
    requires RoleOf(s, key).Reverses? && AfterPost(s, key).1 == Unit
    ensures var t := AfterPost(s, key).0; var c := RoleOf(s, key).c;
            t.Balance(c.owner) == s.Balance(c.owner) + c.working + c.reserve + c.burn
            && forall a :: a != c.owner ==> t.Balance(a) == s.Balance(a)
  {
  }

  /** A settled readiness payment gives the node its reward for the lease; without a quorum it is tried again after five minutes. */
  lemma ReadinessIsPaid(P: Params, E: Env, w: World, at: nat, node: nat, source: Source)
    requires Valid(P, w) && Lives(P, E, w) && Payable(w.ledger, at, node, source) && TokenFree(w, ReadyToken(at, node))
    ensures var r := ReadySettled(P, E, w, at, node, source);
            && r.Next? && r.w.jobs == w.jobs
            && (if !E.quorum(w.now) then
                  r.w.ledger == w.ledger && Announced(w, r.w, w.now + 300, ReadySettle(at, node, source))
                else
                  && r.w.events == w.events
                  && r.w.ledger.Balance(Node(node))
                     == w.ledger.Balance(Node(node)) + (if InTeam(P, node) then P.largeReward else P.smallReward)
                  && forall a :: a != Node(node) ==> r.w.ledger.Balance(a) == w.ledger.Balance(a))
  {
    hide Valid, AfterIssue, AfterPayReady, TokenFree, RoleOf, Announced, LifeOk, Drawn, PayOk;
    ReadySettledKeeps(P, E, w, at, node, source);
    assert PayOk(P, w.ledger, at, node);
    if !E.quorum(w.now) {
      PushAnnounces(P, w, w, w.now + RETRY, ReadySettle(at, node, source));
    } else {
      PaymentIsReward(P, w.ledger, at, node, source);
    }
  }

  lemma PaymentIsReward(P: Params, s: State, at: nat, node: nat, source: Source)
    requires Payable(s, at, node, source) && PayOk(P, s, at, node)
    ensures var (t, reply) := if source == Issuance then AfterIssue(s, ReadyKey(at, node)) else AfterPayReady(s, ReadyKey(at, node), Node(node));
            && (!reply.Raised? ==> t.Balance(Node(node)) == s.Balance(Node(node)) + if InTeam(P, node) then P.largeReward else P.smallReward)
            && forall a :: a != Node(node) ==> t.Balance(a) == s.Balance(a)
  {
  }

  // ---------------------------------------------------------------------------------------------
  // A lease

  /** What these nodes earn together for one lease. */
  function Rewards(P: Params, nodes: seq<nat>): nat
  {
    if nodes == [] then 0 else Rewards(P, nodes[1..]) + if InTeam(P, nodes[0]) then P.largeReward else P.smallReward
  }

  lemma {:induction false} RatesAre(P: Params, nodes: seq<nat>)
    ensures Rates(P, nodes) == Rewards(P, nodes)
  {
    if nodes != [] { RatesAre(P, nodes[1..]); }
  }

  /** k leases, and no fewer, last at least this long. */
  predicate LeastCover(lease: nat, seconds: nat, k: int) { 0 <= k && seconds <= k * lease && (k - 1) * lease < seconds }

  lemma CeilIsLeast(seconds: nat, lease: nat)
    requires 0 < lease
    ensures LeastCover(lease, seconds, CeilDiv(seconds, lease))
  {
    Bounds(seconds + lease - 1, lease);
    QuotientGrows(0, seconds + lease - 1, lease);
    Unique(0, lease, 0);
    var k := CeilDiv(seconds, lease);
    assert k * lease == lease * k && (k - 1) * lease == lease * k - lease;
  }

  /**
   The targets of a lease: the core's cost over six hours, or over a lease and its review when that is longer, in whole
   leases; a day of everything contracted; three days of the core in reserve.
   */
  lemma TargetsAre(P: Params, essentials: seq<nat>, contracted: seq<nat>) returns (k: int)
    requires 0 < P.lease
    ensures LeastCover(P.lease, if P.review + P.lease < 21600 then 21600 else P.review + P.lease, k)
    ensures var (floor, working, protected) := Targets(P, essentials, contracted);
            && floor == Rewards(P, essentials) * k
            && working == Max(floor, Rewards(P, contracted) * (86400 / P.lease))
            && protected == if P.split then Rewards(P, essentials) * (259200 / P.lease) else 0
  {
    RatesAre(P, essentials);
    RatesAre(P, contracted);
    k := CeilDiv(Max(6 * HOUR, P.review + P.lease), P.lease);
    CeilIsLeast(Max(6 * HOUR, P.review + P.lease), P.lease);
  }

  function OfKind(P: Params, nodes: seq<nat>, large: bool): nat
  {
    if nodes == [] then 0 else OfKind(P, nodes[1..], large) + if InTeam(P, nodes[0]) == large then 1 else 0
  }

  lemma {:induction false} CountIs(P: Params, nodes: seq<nat>, large: bool)
    ensures Count(P, nodes, large) == OfKind(P, nodes, large)
  {
    if nodes != [] { CountIs(P, nodes[1..], large); }
  }

  /** What the nodes can serve in an hour, in credit: single nodes serve compact requests, three large ones together a large one. */
  function Hourly(P: Params, nodes: seq<nat>): int
    requires 0 < P.compactSeconds && 0 < P.largeSeconds
  {
    OfKind(P, nodes, false) * (3600 / P.compactSeconds) * P.compactPrice
    + OfKind(P, nodes, true) / 3 * (3600 / P.largeSeconds) * P.largePrice
  }

  lemma {:induction false} LowestIsLeast(a: int, s: seq<int>)
    ensures var m := Lowest(a, s); m <= a && (forall x :: x in s ==> m <= x) && (m == a || m in s)
    decreases |s|
  {
    if s != [] {
      LowestIsLeast(Min(a, s[0]), s[1..]);
      assert s == [s[0]] + s[1..];
    }
  }

  /** The ceiling: 35 per cent of a week of the least hourly capacity among now and the days remembered. */
  lemma CeilingIs(P: Params, E: Env, w: World) returns (low: int)
    requires 0 < P.compactSeconds && 0 < P.largeSeconds
    ensures Ceiling(P, E, w) == low * 168 * 35 / 100
    ensures low <= Hourly(P, E.online(w.now)) && forall x :: x in w.plan.history ==> low <= x
    ensures low == Hourly(P, E.online(w.now)) || low in w.plan.history
  {
    var nodes := E.online(w.now);
    CountIs(P, nodes, false);
    CountIs(P, nodes, true);
    low := Lowest(Capacity(P, nodes), w.plan.history);
    LowestIsLeast(Capacity(P, nodes), w.plan.history);
    assert low * 24 * 7 == low * 168;
  }

  /** Whether new credit may be issued for a lease that starts now. */
  predicate MayIssue(P: Params, w: World)
  {
    w.now + P.lease + P.review < (P.days - P.matureDays) * 86400 && w.now < P.bootstrapDays * 86400
  }

  /**
   Who pays a group: working capital when it can, and keeps the floor unless the group is essential; else new credit while
   it may be issued under the ceiling; else the reserve for an essential group of a split fund; else nobody.
   */
  lemma SourceIs(P: Params, E: Env, w: World, group: seq<nat>, essentials: seq<nat>, floor: int)
    requires 0 < P.compactSeconds && 0 < P.largeSeconds
    ensures var funding := ChooseSource(P, E, w, group, essentials, floor);
            var value := Rewards(P, group); var essential := forall n :: n in group ==> n in essentials;
            var working := value <= w.ledger.Balance(Working) && (essential || floor <= w.ledger.Balance(Working) - value);
            var issuance := MayIssue(P, w) && w.ledger.Exposure() + value <= Ceiling(P, E, w);
            var reserve := P.split && essential && value <= w.ledger.Balance(Reserve);
            && (funding == Funded(FromWorking) <==> working)
            && (funding == Funded(Issuance) <==> !working && issuance)
            && (funding == Funded(FromReserve) <==> !working && !issuance && reserve)
            && (funding == Unfunded <==> !working && !issuance && !reserve)
  {
    hide Ceiling;
    RatesAre(P, group);
  }

  /** Before b among the nodes: selected less often, or as often and with a smaller number. */
  predicate UsedLess(f: Fleet, a: nat, b: nat)
  {
    var (x, y) := (if a in f.selected then f.selected[a] else 0, if b in f.selected then f.selected[b] else 0);
    x < y || (x == y && a <= b)
  }

  ghost predicate ByUse(f: Fleet, s: seq<nat>) { forall i, j :: 0 <= i < j < |s| ==> UsedLess(f, s[i], s[j]) }

  lemma {:induction false} InsertByUse(f: Fleet, n: nat, s: seq<nat>)
    requires ByUse(f, s)
    ensures ByUse(f, Insert(f, n, s))
  {
    if s != [] && !(f.Selections(n) < f.Selections(s[0]) || (f.Selections(n) == f.Selections(s[0]) && n <= s[0])) {
      assert forall i, j :: 0 <= i < j < |s[1..]| ==> s[1..][i] == s[i + 1] && s[1..][j] == s[j + 1];
      InsertByUse(f, n, s[1..]);
      var rest := Insert(f, n, s[1..]);
      forall j | 0 <= j < |rest| ensures UsedLess(f, s[0], rest[j]) {
        assert rest[j] in multiset(rest);
        if rest[j] != n { assert rest[j] in s[1..]; }
      }
    }
  }

  lemma {:induction false} SortedByUse(f: Fleet, s: seq<nat>)
    ensures ByUse(f, SortByUse(f, s)) && multiset(SortByUse(f, s)) == multiset(s)
  {
    if s != [] {
      SortedByUse(f, s[1..]);
      InsertByUse(f, s[0], SortByUse(f, s[1..]));
    }
  }

  /** The small nodes stand in the order of their use, and are exactly those online that are not large. */
  lemma SmallIsByUse(P: Params, E: Env, w: World)
    ensures ByUse(w.fleet, Small(P, E, w))
    ensures forall n :: n in Small(P, E, w) <==> n in E.online(w.now) && !InTeam(P, n)
  {
    var kept := Filter(E.online(w.now), (n: nat) => !P.IsLarge(n));
    SortedByUse(w.fleet, kept);
    forall n ensures n in Small(P, E, w) <==> n in kept {
      assert n in Small(P, E, w) <==> n in multiset(Small(P, E, w));
    }
  }

  /** All of these nodes have a contract, or none has. */
  predicate AllOrNone(w: World, group: seq<nat>)
  {
    (forall n :: n in group ==> n in w.fleet.ready) || forall n :: n in group ==> n !in w.fleet.ready
  }

  /** Each group is contracted as a whole or not at all, and nobody else is. */
  lemma {:induction false} GroupsAreWhole(
    P: Params, E: Env, w: World, groups: seq<seq<nat>>, essentials: seq<nat>, floor: int)
    requires Sound(P, E) && Valid(P, w) && StudyLease.Leasing(P, w)
    requires NoRepeats(StudyLease.Flatten(groups)) && forall n :: n in StudyLease.Flatten(groups) ==> n !in w.fleet.ready.Keys
    ensures var r := FundGroups(P, E, w, groups, essentials, floor);
            && r.Next? && (forall i :: 0 <= i < |groups| ==> AllOrNone(r.w, groups[i]))
            && (forall n :: n in r.w.fleet.ready.Keys ==> n in w.fleet.ready.Keys || n in StudyLease.Flatten(groups))
            && (forall n :: n in w.fleet.ready.Keys ==> n in r.w.fleet.ready.Keys)
            && (forall n :: n in r.w.fleet.ready ==> r.w.fleet.ready[n] == w.now + P.lease)
    decreases |groups|
  {
    hide Valid, MomentOk, StudyLease.Leasing, FundNodes, StudyLease.Room, ChooseSource;
    if groups == [] {
      ReadyUntil(P, w);
    } else {
      var group, rest := groups[0], StudyLease.Flatten(groups[1..]);
      StudyLease.FirstOfJoin(group, rest);
      StudyLease.SourceSuffices(P, E, w, group, essentials, floor);
      var r := FundGroups(P, E, w, groups, essentials, floor);
      match ChooseSource(P, E, w, group, essentials, floor) {
        case Unfunded =>
          GroupsAreWhole(P, E, w, groups[1..], essentials, floor);
          forall n | n in group ensures n !in r.w.fleet.ready.Keys { }
        case Funded(source) =>
          StudyLease.FundNodesKeeps(P, E, w, group, source);
          GroupsAreWhole(P, E, FundNodes(P, E, w, group, source).w, groups[1..], essentials, floor);
          forall n | n in group ensures n in r.w.fleet.ready.Keys { }
      }
      forall i | 1 <= i < |groups| ensures AllOrNone(r.w, groups[i]) { assert groups[i] == groups[1..][i - 1]; }
    }
  }

  lemma ReadyUntil(P: Params, w: World)
    requires StudyLease.Leasing(P, w)
    ensures forall n :: n in w.fleet.ready ==> w.fleet.ready[n] == w.now + P.lease
  {
    hide TokenFree, RoleOf;
  }

  /** The large nodes that are there. */
  function TeamOnline(P: Params, E: Env, w: World): set<nat> { set n | n in E.online(w.now) && InTeam(P, n) }

  predicate InOrder(s: seq<nat>) { forall i, j :: 0 <= i < j < |s| ==> s[i] < s[j] }

  lemma {:induction false} FilterInOrder(s: seq<nat>, keep: nat -> bool)
    requires InOrder(s)
    ensures InOrder(Filter(s, keep))
    decreases |s|
  {
    if s != [] {
      var rest := Filter(s[1..], keep);
      FilterInOrder(s[1..], keep);
      forall n | n in rest ensures s[0] < n {
        var i :| 0 <= i < |s[1..]| && s[1..][i] == n;
        assert n == s[i + 1];
      }
      assert forall i :: 0 <= i < |rest| ==> rest[i] in rest;
    }
  }

  lemma TeamInOrder(P: Params)
    ensures InOrder(P.LargeIds())
  {
  }

  lemma FirstThree(s: seq<nat>)
    requires InOrder(s) && 3 <= |s|
    ensures InOrder(s[..3]) && (forall n :: n in s[..3] ==> n in s) && forall n :: n in s && n !in s[..3] ==> s[2] < n
  {
    assert s[0] in s[..3] && s[1] in s[..3] && s[2] in s[..3];
    forall n | n in s && n !in s[..3] ensures s[2] < n {
      var i :| 0 <= i < |s| && s[i] == n;
    }
  }

  /** The team: none, or the first three large nodes that are there. */
  lemma TeamIsOnline(P: Params, E: Env, w: World)
    ensures var team := LargeTeam(P, E, w);
            if |TeamOnline(P, E, w)| < 3 then team == []
            else
              && |team| == 3 && InOrder(team) && (forall n :: n in team ==> n in TeamOnline(P, E, w))
              && forall n :: n in TeamOnline(P, E, w) && n !in team ==> team[2] < n
  {
    hide InOrder;
    FilterInOrder(P.LargeIds(), (n: nat) => n in E.online(w.now)) by { TeamInOrder(P); }
    var online := E.online(w.now);
    var large := Filter(P.LargeIds(), (n: nat) => n in online);
    TeamIsRange(P);
    FilterKeepsDistinct(P.LargeIds(), (n: nat) => n in online);
    DistinctSize(large);
    assert Members(large) == TeamOnline(P, E, w);
    if |large| >= 3 { FirstThree(large); }
  }

  /** The essential nodes: the small one used least, and the first three large ones when as many are there. */
  lemma EssentialsAre(P: Params, E: Env, w: World)
    ensures Essentials(P, E, w) == (if Small(P, E, w) == [] then [] else [Small(P, E, w)[0]]) + LargeTeam(P, E, w)
    ensures var small, all := Small(P, E, w), Essentials(P, E, w);
            && (small == [] ==> |TeamOnline(P, E, w)| < 3 ==> all == [])
            && (small != [] ==> all != [] && all[0] == small[0])
            && |all| == (if small == [] then 0 else 1) + (if |TeamOnline(P, E, w)| < 3 then 0 else 3)
            && forall n :: n in all ==> (small != [] && n == small[0]) || n in TeamOnline(P, E, w)
  {
    hide SortByUse, LargeTeam, TeamOnline;
    TeamIsOnline(P, E, w);
  }

  // ---------------------------------------------------------------------------------------------
  // A day

  /** Funding comes in when it is given; a day's cost is paid exactly when what remains covers the shutdown reserve. */
  lemma DayIsPaid(P: Params, E: Env, now: nat, c: Cash)
    ensures var d := PayOperations(P, E, now, c); var funded := c.balance + if E.funding(now) then P.cashRegular else 0;
            if P.cashShutdownDays * P.cashCost <= funded - P.cashCost then
              d.balance == funded - P.cashCost && d.paidUntil == now + 86400
            else d.balance == funded && d.paidUntil == c.paidUntil
  {
  }

  /** The capacity of the last seven days is remembered. */
  lemma SevenDaysRemembered(history: seq<int>, capacity: int)
    requires |history| <= 7
    ensures Remember(history, capacity) == (if |history| == 7 then history[1..] else history) + [capacity]
  {
    if |history| == 7 { assert history[|history| - 6..] == history[1..]; }
  }
}
