/** The Experiment object itself: its handlers change the fields step by step, its assertions are Dafny assertions. */
module StudyExperiment {
  import opened StudyLedger
  import opened MapSums
  import opened Selection
  import opened EventStudy
  import opened StudySafety
  import opened StudyRuns
  import opened StudyEnds

  /** The root of the heap. */
  method First(events: map<nat, Event>) returns (s: nat)
    requires events != map[]
    ensures s == Earliest(events)
  {
    s :| s in events;
    var left := events.Keys - {s};
    while left != {}
      invariant s in events && left <= events.Keys
      invariant forall x :: x in events && x !in left ==>
                  events[s].when < events[x].when || (events[s].when == events[x].when && s <= x)
      decreases |left|
    {
      var x :| x in left;
      if events[x].when < events[s].when || (events[x].when == events[s].when && x < s) {
        s := x;
      }
      left := left - {x};
    }
  }

  class Experiment {
    const P: Params
    const E: Env
    const ledger: Ledger
    var now: nat
    var serial: nat
    var events: map<nat, Event>
    var fleet: Fleet
    var jobs: Jobs
    var cash: Cash
    var plan: Plan
    var market: Market

    function View(): World
      reads this, ledger
    {
      World(now, serial, events, ledger.View(), fleet, jobs, cash, plan, market)
    }

    constructor (P: Params, E: Env)
      ensures this.P == P && this.E == E && fresh(ledger) && View() == Blank(P)
    {
      this.P, this.E := P, E;
      ledger := new Ledger();
      now, serial, events := 0, 0, map[];
      fleet, jobs := Fleet(map[], map[], map[]), Jobs(map[], {});
      var initial := P.cashInitialDays * P.cashCost;
      cash := Cash(initial, initial, 0, 0, 0);
      plan, market := Plan(0, 0, 0, 0, []), Market(100000, 0);
    }

    method Event(when: nat, kind: EventStudy.Kind)
      modifies this
      ensures View() == Push(old(View()), when, kind)
    {
      serial := serial + 1;
      events := Put(events, serial, EventStudy.Event(when, kind));
    }

    method Choose(model: Model, duration: nat) returns (route: seq<nat>)
      ensures route == RouteFor(P, View(), model, duration)
    {
      var free := FreeFor(View(), duration);
      if model == LargeModel {
        route := Filter(P.LargeIds(), (n: nat) => n in free);
        if |route| != 3 {
          return [];
        }
      } else {
        var candidates := set n | n in free && !P.IsLarge(n);
        if candidates == {} {
          return [];
        }
        var n := Smallest(candidates);
        route := [n];
      }
    }

    method TryStart(id: nat)
      requires EventStudy.TryStart(P, E, View(), id).Next?
      modifies this
      ensures EventStudy.TryStart(P, E, old(View()), id) == Next(View())
    {
      hide Put;
      var q := jobs.requests[id];
      if q.stage != Queued || now > q.deadline {
        return;
      }
      var duration := Duration(P, q.model);
      var route := Choose(q.model, duration);
      if route == [] {
        return;
      }
      assert id in jobs.waiting;
      jobs := Jobs(Put(jobs.requests, id, q.(route := route, stage := Running)), jobs.waiting - {id});
      var until := now + Occupied(P, E, id, q.model);
      Reserve(route, until);
      Event(until, EventStudy.RequestDone(id, E.cancels(id)));
    }

    method Reserve(route: seq<nat>, until: nat)
      requires Book(View(), route, until).Next?
      modifies this`fleet
      ensures Book(old(View()), route, until) == Next(View())
    {
      var i := 0;
      while i < |route|
        invariant 0 <= i <= |route|
        invariant Book(old(View()), route, until) == Book(View(), route[i..], until)
      {
        assert fleet.BusyUntil(route[i]) <= now;
        fleet := fleet.(busy := Put(fleet.busy, route[i], until));
        assert route[i..][1..] == route[i + 1..];
        i := i + 1;
      }
    }

    method StartWaiting()
      requires StartAll(P, E, View(), Ascending(jobs.waiting)).Next?
      modifies this
      ensures StartAll(P, E, old(View()), Ascending(old(jobs.waiting))) == Next(View())
    {
      hide EventStudy.TryStart;
      var ids := Sorted(jobs.waiting);
      var i := 0;
      while i < |ids|
        invariant 0 <= i <= |ids|
        invariant StartAll(P, E, old(View()), ids) == StartAll(P, E, View(), ids[i..])
      {
        assert ids[i..][1..] == ids[i + 1..];
        TryStart(ids[i]);
        i := i + 1;
      }
    }

    // -------------------------------------------------------------------------------------------
    // Leases

    method FundNode(n: nat, source: Source)
      requires 0 < P.compactSeconds && 0 < P.largeSeconds
      requires EventStudy.FundNode(P, E, View(), n, source).Next?
      modifies this, ledger
      ensures EventStudy.FundNode(P, E, old(View()), n, source) == Next(View())
    {
      hide AfterPromise, AfterHold, Ceiling, Put;
      assert n !in fleet.ready && n !in fleet.busy;
      var key := ReadyKey(now, n);
      var reply;
      if source == Issuance {
        reply := ledger.Promise(key, Node(n), P.Rate(n), Ceiling(P, E, View()), Contributor);
      } else {
        reply := ledger.Hold(key, source.Account(), P.Rate(n), ForReady);
      }
      assert reply == Bool(true);
      fleet := Fleet(Put(fleet.ready, n, now + P.lease), fleet.busy, Put(fleet.selected, n, fleet.Selections(n) + 1));
      Event(now + P.lease, ReadyReceipt(now, n, source));
    }

    method FundNodes(group: seq<nat>, source: Source)
      requires 0 < P.compactSeconds && 0 < P.largeSeconds
      requires EventStudy.FundNodes(P, E, View(), group, source).Next?
      modifies this, ledger
      ensures EventStudy.FundNodes(P, E, old(View()), group, source) == Next(View())
    {
      hide EventStudy.FundNode;
      var i := 0;
      while i < |group|
        invariant 0 <= i <= |group|
        invariant EventStudy.FundNodes(P, E, old(View()), group, source)
               == EventStudy.FundNodes(P, E, View(), group[i..], source)
      {
        assert group[i..][1..] == group[i + 1..];
        FundNode(group[i], source);
        i := i + 1;
      }
    }

    method FundGroups(groups: seq<seq<nat>>, essentials: seq<nat>, floor: int)
      requires 0 < P.compactSeconds && 0 < P.largeSeconds
      requires EventStudy.FundGroups(P, E, View(), groups, essentials, floor).Next?
      modifies this, ledger
      ensures EventStudy.FundGroups(P, E, old(View()), groups, essentials, floor) == Next(View())
    {
      hide EventStudy.FundNodes, ChooseSource;
      var i := 0;
      while i < |groups|
        invariant 0 <= i <= |groups|
        invariant EventStudy.FundGroups(P, E, old(View()), groups, essentials, floor)
               == EventStudy.FundGroups(P, E, View(), groups[i..], essentials, floor)
      {
        assert groups[i..][1..] == groups[i + 1..];
        var funding := ChooseSource(P, E, View(), groups[i], essentials, floor);
        if funding.Funded? {
          FundNodes(groups[i], funding.source);
        }
        i := i + 1;
      }
    }

    method Contract()
      requires 0 < P.compactSeconds && 0 < P.largeSeconds && 0 < P.lease
      requires EventStudy.Contract(P, E, View()).Next?
      modifies this, ledger
      ensures EventStudy.Contract(P, E, old(View())) == Next(View())
    {
      hide Essentials, Wanted, Targets, Groups, EventStudy.FundGroups, Uncovered;
      var essentials, wanted := Essentials(P, E, View()), Wanted(P, E, View());
      var (floor, working, protected) := Targets(P, essentials, wanted);
      plan := plan.(floor := floor, working := working, protected := protected);
      if !E.quorum(now) || now >= cash.paidUntil || essentials == [] {
        plan := plan.(stableSince := now);
        return;
      }
      FundGroups(Groups(P, wanted), essentials, floor);
      if Uncovered(essentials, fleet) {
        plan := plan.(stableSince := now);
      }
    }

    method LeaseStart()
      requires 0 < P.compactSeconds && 0 < P.largeSeconds && 0 < P.lease
      requires EventStudy.LeaseStart(P, E, View()).Next?
      modifies this, ledger
      ensures EventStudy.LeaseStart(P, E, old(View())) == Next(View())
    {
      hide EventStudy.Contract, StartAll, Push;
      if now >= P.End() {
        return;
      }
      fleet := fleet.(ready := map[], busy := map n | n in fleet.busy && fleet.busy[n] > now :: fleet.busy[n]);
      assert View() == Vacate(P, old(View()));
      Contract();
      StartWaiting();
      Event(now + P.lease, Lease);
    }

    method ReadySettle(at: nat, node: nat, source: Source)
      requires ReadySettled(P, E, View(), at, node, source).Next?
      modifies this, ledger
      ensures ReadySettled(P, E, old(View()), at, node, source) == Next(View())
    {
      hide AfterIssue, AfterPayReady;
      if !E.quorum(now) {
        Event(now + RETRY, EventStudy.ReadySettle(at, node, source));
        return;
      }
      if source == Issuance {
        var value := ledger.Issue(ReadyKey(at, node));
        assert !value.Raised?;
      } else {
        var value := ledger.PayReady(ReadyKey(at, node), Node(node));
        assert !value.Raised?;
      }
    }

    // -------------------------------------------------------------------------------------------
    // The day boundary

    method Grant(key: Key, recipient: Account, value: int, kind: StudyLedger.Kind)
      requires 0 < P.compactSeconds && 0 < P.largeSeconds
      requires EventStudy.Grant(View(), key, recipient, value, Ceiling(P, E, View()), kind).Next?
      modifies ledger
      ensures EventStudy.Grant(old(View()), key, recipient, value, Ceiling(P, E, old(View())), kind) == Next(View())
    {
      hide AfterIssue, Ceiling;
      if value == 0 {
        return;
      }
      var reply := ledger.Promise(key, recipient, value, Ceiling(P, E, View()), kind);
      if reply == Bool(true) {
        reply := ledger.Issue(key);
      }
      assert !reply.Raised?;
    }

    method GrantUsers(grant: int)
      requires 0 < P.compactSeconds && 0 < P.largeSeconds
      requires EventStudy.GrantUsers(P, E, View(), grant, 0).Next?
      modifies ledger
      ensures EventStudy.GrantUsers(P, E, old(View()), grant, 0) == Next(View())
    {
      hide EventStudy.Grant, Ceiling;
      var i := 0;
      while i < P.accounts
        invariant 0 <= i <= P.accounts
        invariant EventStudy.GrantUsers(P, E, old(View()), grant, 0) == EventStudy.GrantUsers(P, E, View(), grant, i)
      {
        var value := grant / P.accounts + if i < grant % P.accounts then 1 else 0;
        Grant(GrantKey(now, i), User(i), value, GrantKind);
        i := i + 1;
      }
    }

    method Bootstrap()
      requires 0 < P.compactSeconds && 0 < P.largeSeconds
      requires EventStudy.Bootstrap(P, E, View()).Next?
      modifies ledger
      ensures EventStudy.Bootstrap(P, E, old(View())) == Next(View())
    {
      hide EventStudy.Grant, EventStudy.GrantUsers, Ceiling;
      if !CanIssue(P, View()) || !E.quorum(now) {
        return;
      }
      var room := Max(0, Ceiling(P, E, View()) - ledger.c.Exposure());
      var treasury := Min(room, ledger.c.contributorIssued / TREASURY_DIVISOR - ledger.c.treasuryIssued);
      Grant(TreasuryKey(now), Working, treasury, TreasuryKind);
      CeilingStays(old(View()), View());
      var grant := Min(Max(0, Ceiling(P, E, View()) - ledger.c.Exposure()),
                       ledger.c.contributorIssued / GRANT_DIVISOR - ledger.c.grantsIssued);
      GrantUsers(grant);
    }

    lemma CeilingStays(w: World, v: World)
      requires 0 < P.compactSeconds && 0 < P.largeSeconds && v.now == w.now && v.plan == w.plan
      ensures Ceiling(P, E, v) == Ceiling(P, E, w)
    {
    }

    method DayBoundary()
      requires 0 < P.compactSeconds && 0 < P.largeSeconds
      requires EventStudy.DayBoundary(P, E, View()).Next?
      modifies this, ledger
      ensures EventStudy.DayBoundary(P, E, old(View())) == Next(View())
    {
      hide EventStudy.Bootstrap, Audit, Capacity, Remember, Push;
      assert Audit(ledger.View());
      if now >= P.End() {
        return;
      }
      if E.funding(now) {
        cash := cash.(balance := cash.balance + P.cashRegular, paidIn := cash.paidIn + P.cashRegular);
      }
      if cash.balance - P.cashCost >= P.Shutdown() {
        cash := cash.(balance := cash.balance - P.cashCost, paidOut := cash.paidOut + P.cashCost, paidUntil := now + DAY);
      }
      assert cash.balance == cash.initial + cash.paidIn - cash.paidOut >= P.Shutdown();
      if P.commercial && market.buyer >= 60 {
        market := Market(market.buyer - 60, market.earned + 60);
      }
      assert market.buyer + market.earned == 100000;
      plan := plan.(history := Remember(plan.history, Capacity(P, E.online(now))));
      Bootstrap();
      Event(now + DAY, Day);
    }

    // -------------------------------------------------------------------------------------------
    // Requests

    method RequestArrival(id: nat)
      requires Arrive(P, E, View(), id).Next?
      modifies this, ledger
      ensures Arrive(P, E, old(View()), id) == Next(View())
    {
      hide AfterHold, EventStudy.TryStart, Put;
      var model, owner := E.model(id), E.owner(id);
      var price := if model == LargeModel then P.largePrice else P.compactPrice;
      if now >= P.End() || E.retained(id) {
        return;
      }
      if BalanceIn(ledger.free, owner) < price || model == Unqualified {
        return;
      }
      if !E.quorum(now) || now >= cash.paidUntil {
        return;
      }
      var reply := ledger.Hold(UsageKey(id), owner, price, ForUsage);
      assert reply == Bool(true);
      var q := Request(owner, model, now, now + P.queueSeconds, price, Queued, []);
      jobs := Jobs(Put(jobs.requests, id, q), jobs.waiting + {id});
      Event(q.deadline, EventStudy.QueueDeadline(id));
      TryStart(id);
    }

    method Stage(id: nat, stage: EventStudy.Stage)
      requires id in jobs.requests
      modifies this`jobs
      ensures View() == WithStage(old(View()), id, stage)
    {
      jobs := jobs.(requests := Put(jobs.requests, id, jobs.requests[id].(stage := stage)));
    }

    method QueueDeadline(id: nat)
      requires Expire(View(), id).Next?
      modifies this, ledger
      ensures Expire(old(View()), id) == Next(View())
    {
      hide AfterRelease, Put;
      if jobs.requests[id].stage == Queued {
        assert id in jobs.waiting;
        jobs := jobs.(waiting := jobs.waiting - {id});
        var reply := ledger.Release(UsageKey(id));
        assert !reply.Raised?;
        Stage(id, QueueExpired);
      }
    }

    method RequestDone(id: nat, cancelled: bool)
      requires Finish(P, E, View(), id, cancelled).Next?
      modifies this, ledger
      ensures Finish(P, E, old(View()), id, cancelled) == Next(View())
    {
      hide AfterRelease, StartAll, Push, Put;
      Free(jobs.requests[id].route);
      if cancelled || E.fails(id) {
        var reply := ledger.Release(UsageKey(id));
        assert !reply.Raised?;
        Stage(id, if cancelled then CancelledRun else FailedRun);
      } else {
        Stage(id, PendingReview);
        Event(now + P.review, EventStudy.UsageSettle(id));
      }
      StartWaiting();
    }

    method Free(route: seq<nat>)
      modifies this`fleet
      ensures View() == Unbook(old(View()), route)
    {
      var i := 0;
      while i < |route|
        invariant 0 <= i <= |route|
        invariant fleet == old(fleet).(busy := fleet.busy)
        invariant fleet.busy == map n | n in old(fleet.busy) && !(n in route[..i] && old(fleet.busy)[n] == now) :: old(fleet.busy)[n]
      {
        assert route[..i + 1] == route[..i] + [route[i]];
        if route[i] in fleet.busy && fleet.busy[route[i]] == now {
          fleet := fleet.(busy := Drop(fleet.busy, route[i]));
        }
        i := i + 1;
      }
      assert route[..i] == route;
    }

    method UsageSettle(id: nat)
      requires SettleUsage(P, E, View(), id).Next?
      modifies this, ledger
      ensures SettleUsage(P, E, old(View()), id) == Next(View())
    {
      hide AfterRelease, AfterFinalize, Push, Put;
      if !E.quorum(now) {
        Event(now + RETRY, EventStudy.UsageSettle(id));
        return;
      }
      var reply;
      if E.detected(id) {
        reply := ledger.Release(UsageKey(id));
        assert !reply.Raised?;
        Stage(id, RefundedEarly);
        return;
      }
      reply := ledger.FinalizeUsage(UsageKey(id), plan.floor, plan.working, plan.protected, P.priority);
      assert !reply.Raised?;
      Stage(id, Finalized);
      if E.late(id) {
        Event(now + HOUR, EventStudy.RefundApprove(id));
      }
    }

    method RefundApprove(id: nat)
      requires ApproveRefund(E, View(), id).Next?
      modifies this, ledger
      ensures ApproveRefund(E, old(View()), id) == Next(View())
    {
      hide AfterApprove, Push;
      if !E.quorum(now) {
        Event(now + RETRY, EventStudy.RefundApprove(id));
        return;
      }
      var reply := ledger.ApproveReversal(ReversalKey(id), UsageKey(id));
      assert !reply.Raised?;
      if reply == Bool(true) {
        Event(now + RETRY, EventStudy.RefundPost(id));
      } else {
        Event(now + HOUR, EventStudy.RefundApprove(id));
      }
    }

    method RefundPost(id: nat)
      requires PostRefund(E, View(), id).Next?
      modifies this, ledger
      ensures PostRefund(E, old(View()), id) == Next(View())
    {
      hide AfterPost, Push;
      if !E.quorum(now) {
        Event(now + RETRY, EventStudy.RefundPost(id));
        return;
      }
      var reply := ledger.PostReversal(ReversalKey(id));
      assert !reply.Raised?;
      assert id in jobs.requests;
    }

    // -------------------------------------------------------------------------------------------
    // The event loop

    method Dispatch(kind: EventStudy.Kind)
      requires 0 < P.compactSeconds && 0 < P.largeSeconds && 0 < P.lease
      requires Handle(P, E, View(), kind).Next?
      modifies this, ledger
      ensures Handle(P, E, old(View()), kind) == Next(View())
    {
      hide EventStudy.DayBoundary, EventStudy.LeaseStart, Arrive, ReadySettled, Expire, Finish, SettleUsage,
           ApproveRefund, PostRefund, Push;
      match kind
      case Day => DayBoundary();
      case Lease => LeaseStart();
      case Arrival(id) => RequestArrival(id);
      case ReadyReceipt(at, node, source) => Event(now + P.review, EventStudy.ReadySettle(at, node, source));
      case ReadySettle(at, node, source) => ReadySettle(at, node, source);
      case QueueDeadline(id) => QueueDeadline(id);
      case RequestDone(id, cancelled) => RequestDone(id, cancelled);
      case UsageSettle(id) => UsageSettle(id);
      case RefundApprove(id) => RefundApprove(id);
      case RefundPost(id) => RefundPost(id);
    }

    method Announce()
      modifies this
      ensures View() == Arrivals(P, E, Push(Push(old(View()), 0, Day), 0, Lease), 0)
    {
      hide Push;
      Event(0, Day);
      Event(0, Lease);
      var id := 0;
      while id < P.days * P.requestsPerDay
        invariant 0 <= id <= P.days * P.requestsPerDay
        invariant Arrivals(P, E, View(), id) == Arrivals(P, E, Push(Push(old(View()), 0, Day), 0, Lease), 0)
      {
        if E.arrives(id) {
          Event(E.arrival(id), Arrival(id));
        }
        id := id + 1;
      }
    }

    /** The whole experiment: it stops, and it has handled its events without any failed assertion. */
    method Run()
      requires Sound(P, E) && View() == Blank(P)
      modifies this, ledger
      ensures Over(P, View()) && exists n :: After(P, E, n) == Next(View())
      ensures Audit(ledger.View())
    {
      hide Valid, MomentOk, Arrivals, Push, Due, Handle, Blank, Audit;
      Announce();
      ghost var n := 0;
      assert After(P, E, n) == Next(View());
      NeverFaults(P, E, n);
      while events != map[]
        invariant After(P, E, n) == Next(View()) && Valid(P, View())
        decreases P.End() - now, |Due(View())|
      {
        var s := First(events);
        var e := events[s];
        // The heap drops the event it stops at; nothing reads the heap afterwards.
        if e.when > P.End() {
          break;
        }
        StepProgresses(P, E, View());
        StepKeeps(P, E, View());
        assert Step(P, E, View()) == After(P, E, n + 1);
        now := e.when;
        events := Drop(events, s);
        Dispatch(e.kind);
        n := n + 1;
      }
      EveryWorldAudits(P, E, n, View());
    }
  }
}
