/** What a request is in every reachable world: its terms, its stage and its charge are those that the scenario drew. */
module StudyLives {
  import opened StudyLedger
  import opened StudyRoles
  import opened MapSums
  import opened Selection
  import opened EventStudy
  import opened StudySafety
  import opened StudySteps
  import opened StudyStart
  import opened StudyJobs
  import opened StudyRuns
  import StudyDuties

  // ---------------------------------------------------------------------------------------------
  // The facts

  /** Owner, model, price and deadline. */
  predicate TermsOk(P: Params, E: Env, id: nat, q: Request)
  {
    && q.owner == E.owner(id) && q.model == E.model(id) && !E.retained(id)
    && q.model != Unqualified
    && (q.model == LargeModel ==> q.price == P.largePrice)
    && (q.model == Compact ==> q.price == P.compactPrice)
    && q.created < P.days * 86400 && q.deadline == q.created + P.queueSeconds
  }

  /** Three distinct large nodes, or one that is not large. */
  ghost predicate RouteOk(P: Params, q: Request)
  {
    if q.model == LargeModel then
      |q.route| == 3 && NoRepeats(q.route) && forall n :: n in q.route ==> P.smallNodes <= n < P.smallNodes + P.largeNodes
    else
      |q.route| == 1 && !(P.smallNodes <= q.route[0] < P.smallNodes + P.largeNodes)
  }

  /** The stage is the one that the draws lead to. */
  ghost predicate StageOk(P: Params, E: Env, id: nat, q: Request, now: nat)
  {
    match q.stage
    case Queued => q.route == []
    case QueueExpired => q.route == [] && q.deadline <= now
    case Running => RouteOk(P, q)
    case CancelledRun => RouteOk(P, q) && E.cancels(id)
    case FailedRun => RouteOk(P, q) && !E.cancels(id) && E.fails(id)
    case PendingReview => RouteOk(P, q) && !E.cancels(id) && !E.fails(id)
    case RefundedEarly => RouteOk(P, q) && !E.cancels(id) && !E.fails(id) && E.detected(id)
    case Finalized => RouteOk(P, q) && !E.cancels(id) && !E.fails(id) && !E.detected(id)
  }

  predicate TakenFrom(c: Charge, q: Request) { c.owner == q.owner && c.working + c.reserve + c.burn == q.price }

  /** Only a finalized request was charged, its own price; only a late one is ever given back. */
  predicate ChargedOk(E: Env, s: State, id: nat, q: Request)
  {
    && (RoleOf(s, UsageKey(id)).Reversible? ==> q.stage == Finalized && TakenFrom(RoleOf(s, UsageKey(id)).charge, q))
    && (RoleOf(s, ReversalKey(id)).Reverses? ==>
          q.stage == Finalized && E.late(id) && TakenFrom(RoleOf(s, ReversalKey(id)).c, q))
    && (q.stage == Finalized && !E.late(id) ==> RoleOf(s, UsageKey(id)).Reversible?)
  }

  ghost predicate LifeOk(P: Params, E: Env, w: World, id: nat)
  {
    id in w.jobs.requests ==>
      var q := w.jobs.requests[id];
      TermsOk(P, E, id, q) && q.created <= w.now && StageOk(P, E, id, q, w.now) && ChargedOk(E, w.ledger, id, q)
  }

  /** What a pending event says about its request was drawn. */
  predicate Drawn(E: Env, e: Event)
  {
    match e.kind
    case Arrival(id) => E.arrives(id) && e.when == E.arrival(id)
    case RequestDone(id, cancelled) => cancelled == E.cancels(id)
    case RefundApprove(id) => E.late(id)
    case RefundPost(id) => E.late(id)
    case _ => true
  }

  predicate InTeam(P: Params, n: nat) { P.smallNodes <= n < P.smallNodes + P.largeNodes }

  /** What is promised or held for a node's readiness is its reward for one lease, earned by a contributor or paid by the fund. */
  predicate PayOk(P: Params, s: State, at: nat, n: nat)
  {
    match RoleOf(s, ReadyKey(at, n))
    case Promises(p) => p == Promised(Node(n), if InTeam(P, n) then P.largeReward else P.smallReward, Contributor)
    case Holds(h) =>
      h.value == (if InTeam(P, n) then P.largeReward else P.smallReward) && h.purpose == ForReady
      && (h.owner == Working || h.owner == Reserve)
    case _ => true
  }

  ghost predicate Lives(P: Params, E: Env, w: World)
  {
    && (forall s :: s in w.events ==> Drawn(E, w.events[s]))
    && (forall id :: LifeOk(P, E, w, id))
    && (forall at, n :: PayOk(P, w.ledger, at, n))
  }

  // ---------------------------------------------------------------------------------------------
  // Changes that concern no request

  predicate SameRoles(s: State, t: State, id: nat)
  {
    RoleOf(t, UsageKey(id)) == RoleOf(s, UsageKey(id)) && RoleOf(t, ReversalKey(id)) == RoleOf(s, ReversalKey(id))
  }

  ghost predicate Beside(P: Params, E: Env, w: World, v: World)
  {
    && v.now == w.now && v.jobs == w.jobs
    && (forall id :: SameRoles(w.ledger, v.ledger, id))
    && (forall at, n :: PayOk(P, w.ledger, at, n) ==> PayOk(P, v.ledger, at, n))
    && (forall s :: s in v.events ==> (s in w.events && v.events[s] == w.events[s]) || Drawn(E, v.events[s]))
  }

  lemma BesideLives(P: Params, E: Env, w: World, v: World)
    requires Lives(P, E, w) && Beside(P, E, w, v)
    ensures Lives(P, E, v)
  {
    hide RoleOf, StageOk, TermsOk, TakenFrom, Drawn, PayOk;
    forall id ensures LifeOk(P, E, v, id) { assert LifeOk(P, E, w, id) && SameRoles(w.ledger, v.ledger, id); }
  }

  lemma BesideTwice(P: Params, E: Env, u: World, v: World, w: World)
    requires Beside(P, E, u, v) && Beside(P, E, v, w)
    ensures Beside(P, E, u, w)
  {
    hide RoleOf, Drawn, PayOk;
    forall id ensures SameRoles(u.ledger, w.ledger, id) { assert SameRoles(u.ledger, v.ledger, id) && SameRoles(v.ledger, w.ledger, id); }
  }

  /** One ledger entry that belongs to no request, and events that say nothing about one. */
  lemma EntryBeside(P: Params, E: Env, w: World, v: World, key: Key)
    requires v.now == w.now && v.jobs == w.jobs && SameElsewhere(w.ledger, v.ledger, {key})
    requires key.TreasuryKey? || key.GrantKey? || (key.ReadyKey? && PayOk(P, v.ledger, key.at, key.node))
    requires forall s :: s in v.events ==> (s in w.events && v.events[s] == w.events[s]) || Drawn(E, v.events[s])
    ensures Beside(P, E, w, v)
  {
    hide RoleOf, Drawn;
    forall id ensures SameRoles(w.ledger, v.ledger, id) { }
    forall at, n | PayOk(P, w.ledger, at, n) ensures PayOk(P, v.ledger, at, n) { if ReadyKey(at, n) == key { } }
  }

  lemma QuietBeside(P: Params, E: Env, w: World, v: World)
    requires v.now == w.now && v.jobs == w.jobs && v.ledger == w.ledger
    requires forall s :: s in v.events ==> (s in w.events && v.events[s] == w.events[s]) || Drawn(E, v.events[s])
    ensures Beside(P, E, w, v)
  {
    hide RoleOf, Drawn;
  }

  lemma FundedPay(P: Params, s: State, at: nat, n: nat, source: Source, ceiling: int)
    requires P.Rate(n) == if InTeam(P, n) then P.largeReward else P.smallReward
    ensures var (t, reply) := AfterPromise(s, ReadyKey(at, n), Node(n), P.Rate(n), ceiling, Contributor);
            reply == Bool(true) ==> PayOk(P, t, at, n)
    ensures var (t, reply) := AfterHold(s, ReadyKey(at, n), source.Account(), P.Rate(n), ForReady);
            reply == Bool(true) ==> PayOk(P, t, at, n)
  {
    hide Promisable;
  }

  lemma FundNodeBeside(P: Params, E: Env, w: World, n: nat, source: Source)
    requires Usable(P) && FundNode(P, E, w, n, source).Next?
    ensures Beside(P, E, w, FundNode(P, E, w, n, source).w)
  {
    hide AfterPromise, AfterHold, Ceiling, SameElsewhere, Beside;
    var key := ReadyKey(w.now, n);
    StudyDuties.PromiseTouches(w.ledger, key, Node(n), P.Rate(n), Ceiling(P, E, w), Contributor);
    StudyDuties.HoldTouches(w.ledger, key, source.Account(), P.Rate(n), ForReady);
    FundedPay(P, w.ledger, w.now, n, source, Ceiling(P, E, w));
    EntryBeside(P, E, w, FundNode(P, E, w, n, source).w, key);
  }

  lemma {:induction false} FundNodesBeside(P: Params, E: Env, w: World, nodes: seq<nat>, source: Source)
    requires Usable(P) && FundNodes(P, E, w, nodes, source).Next?
    ensures Beside(P, E, w, FundNodes(P, E, w, nodes, source).w)
    decreases |nodes|
  {
    hide FundNode, Beside;
    if nodes == [] {
      QuietBeside(P, E, w, w);
    } else {
      FundNodeBeside(P, E, w, nodes[0], source);
      var v := FundNode(P, E, w, nodes[0], source).w;
      FundNodesBeside(P, E, v, nodes[1..], source);
      BesideTwice(P, E, w, v, FundNodes(P, E, v, nodes[1..], source).w);
    }
  }

  lemma {:induction false} FundGroupsBeside(
    P: Params, E: Env, w: World, groups: seq<seq<nat>>, essentials: seq<nat>, floor: int)
    requires Usable(P) && FundGroups(P, E, w, groups, essentials, floor).Next?
    ensures Beside(P, E, w, FundGroups(P, E, w, groups, essentials, floor).w)
    decreases |groups|
  {
    hide ChooseSource, FundNodes, Beside;
    if groups == [] {
      QuietBeside(P, E, w, w);
    } else {
      match ChooseSource(P, E, w, groups[0], essentials, floor)
      case Unfunded => FundGroupsBeside(P, E, w, groups[1..], essentials, floor);
      case Funded(source) =>
        FundNodesBeside(P, E, w, groups[0], source);
        var v := FundNodes(P, E, w, groups[0], source).w;
        FundGroupsBeside(P, E, v, groups[1..], essentials, floor);
        BesideTwice(P, E, w, v, FundGroups(P, E, v, groups[1..], essentials, floor).w);
    }
  }

  lemma ContractBeside(P: Params, E: Env, w: World)
    requires Usable(P) && Contract(P, E, w).Next?
    ensures Beside(P, E, w, Contract(P, E, w).w)
  {
    hide Essentials, Wanted, Targets, Groups, FundGroups, Uncovered, Beside;
    var essentials, wanted := Essentials(P, E, w), Wanted(P, E, w);
    var (floor, working, protected) := Targets(P, essentials, wanted);
    var planned := w.(plan := w.plan.(floor := floor, working := working, protected := protected));
    var v := Contract(P, E, w).w;
    if E.quorum(w.now) && w.now < w.cash.paidUntil && essentials != [] {
      FundGroupsBeside(P, E, planned, Groups(P, wanted), essentials, floor);
      var funded := FundGroups(P, E, planned, Groups(P, wanted), essentials, floor).w;
      QuietBeside(P, E, w, planned);
      QuietBeside(P, E, funded, v);
      BesideTwice(P, E, w, planned, funded);
      BesideTwice(P, E, w, funded, v);
    } else {
      QuietBeside(P, E, w, v);
    }
  }

  lemma GrantBeside(P: Params, E: Env, w: World, key: Key, recipient: Account, value: int, ceiling: int, kind: StudyLedger.Kind)
    requires (key.TreasuryKey? || key.GrantKey?) && Grant(w, key, recipient, value, ceiling, kind).Next?
    ensures Beside(P, E, w, Grant(w, key, recipient, value, ceiling, kind).w)
  {
    hide AfterPromise, AfterIssue, Beside, RoleOf;
    var promised := AfterPromise(w.ledger, key, recipient, value, ceiling, kind).0;
    StudyDuties.PromiseTouches(w.ledger, key, recipient, value, ceiling, kind);
    StudyDuties.IssueTouches(promised, key);
    EntryBeside(P, E, w, Grant(w, key, recipient, value, ceiling, kind).w, key);
  }

  lemma {:induction false} GrantUsersBeside(P: Params, E: Env, w: World, grant: int, index: nat)
    requires Usable(P) && index <= P.accounts && GrantUsers(P, E, w, grant, index).Next?
    ensures Beside(P, E, w, GrantUsers(P, E, w, grant, index).w)
    decreases P.accounts - index
  {
    hide Grant, Ceiling, Beside;
    if index == P.accounts {
      QuietBeside(P, E, w, w);
    } else {
      var value := grant / P.accounts + if index < grant % P.accounts then 1 else 0;
      GrantBeside(P, E, w, GrantKey(w.now, index), User(index), value, Ceiling(P, E, w), GrantKind);
      var v := Grant(w, GrantKey(w.now, index), User(index), value, Ceiling(P, E, w), GrantKind).w;
      GrantUsersBeside(P, E, v, grant, index + 1);
      BesideTwice(P, E, w, v, GrantUsers(P, E, v, grant, index + 1).w);
    }
  }

  lemma BootstrapBeside(P: Params, E: Env, w: World)
    requires Usable(P) && Bootstrap(P, E, w).Next?
    ensures Beside(P, E, w, Bootstrap(P, E, w).w)
  {
    hide Grant, GrantUsers, Ceiling, Beside, Max, Min;
    QuietBeside(P, E, w, w);
    if CanIssue(P, w) && E.quorum(w.now) {
      var ceiling := Ceiling(P, E, w);
      var room := Max(0, ceiling - w.ledger.Exposure());
      var treasury := Min(room, w.ledger.c.contributorIssued / TREASURY_DIVISOR - w.ledger.c.treasuryIssued);
      GrantBeside(P, E, w, TreasuryKey(w.now), Working, treasury, ceiling, TreasuryKind);
      var funded := Grant(w, TreasuryKey(w.now), Working, treasury, ceiling, TreasuryKind).w;
      var grant := Min(Max(0, ceiling - funded.ledger.Exposure()),
                       funded.ledger.c.contributorIssued / GRANT_DIVISOR - funded.ledger.c.grantsIssued);
      GrantUsersBeside(P, E, funded, grant, 0);
      BesideTwice(P, E, w, funded, GrantUsers(P, E, funded, grant, 0).w);
    }
  }

  lemma DayBoundaryBeside(P: Params, E: Env, w: World)
    requires Usable(P) && DayBoundary(P, E, w).Next?
    ensures Beside(P, E, w, DayBoundary(P, E, w).w)
  {
    hide Bootstrap, Beside, Audit, PayOperations, Trade, Remember, Capacity;
    if w.now >= P.End() {
      QuietBeside(P, E, w, w);
    } else {
      var v := w.(cash := PayOperations(P, E, w.now, w.cash), market := Trade(P, w.market),
                  plan := w.plan.(history := Remember(w.plan.history, Capacity(P, E.online(w.now)))));
      QuietBeside(P, E, w, v);
      BootstrapBeside(P, E, v);
      var booted := Bootstrap(P, E, v).w;
      QuietBeside(P, E, booted, Push(booted, w.now + DAY, Day));
      BesideTwice(P, E, w, v, booted);
      BesideTwice(P, E, w, booted, Push(booted, w.now + DAY, Day));
    }
  }

  lemma DonePay(P: Params, s: State, at: nat, n: nat)
    requires RoleOf(s, ReadyKey(at, n)) == Done
    ensures PayOk(P, s, at, n)
  {
    hide RoleOf;
  }

  lemma ReadySettledBeside(P: Params, E: Env, w: World, at: nat, node: nat, source: Source)
    requires Valid(P, w) && Payable(w.ledger, at, node, source) && ReadySettled(P, E, w, at, node, source).Next?
    ensures Beside(P, E, w, ReadySettled(P, E, w, at, node, source).w)
  {
    hide Inv, RoleOf, Schedule, Requests, FleetOk, KeysPast, Treasury, AfterIssue, AfterPayReady, SameElsewhere, Beside;
    var key := ReadyKey(at, node);
    if !E.quorum(w.now) {
      QuietBeside(P, E, w, Push(w, w.now + RETRY, ReadySettle(at, node, source)));
    } else {
      if source == Issuance { IssueRole(w.ledger, key); } else { PayReadyRole(w.ledger, key, Node(node)); }
      DonePay(P, ReadySettled(P, E, w, at, node, source).w.ledger, at, node);
      EntryBeside(P, E, w, ReadySettled(P, E, w, at, node, source).w, key);
    }
  }

  // ---------------------------------------------------------------------------------------------
  // One request

  /** v differs from w in one request, and in the ledger entries of that request. */
  lemma OneLives(P: Params, E: Env, w: World, v: World, id: nat)
    requires Lives(P, E, w) && v.now == w.now && LifeOk(P, E, v, id)
    requires SameOtherRequests(w, v, id) && SameElsewhere(w.ledger, v.ledger, KeysOf(id))
    requires forall s :: s in v.events ==> (s in w.events && v.events[s] == w.events[s]) || Drawn(E, v.events[s])
    ensures Lives(P, E, v)
  {
    hide RoleOf, StageOk, TermsOk, TakenFrom, Drawn;
    forall j ensures LifeOk(P, E, v, j) {
      if j != id {
        assert LifeOk(P, E, w, j) && SameRequest(w, v, j);
        assert UsageKey(j) !in KeysOf(id) && ReversalKey(j) !in KeysOf(id);
      }
    }
    forall at, n ensures PayOk(P, v.ledger, at, n) { assert PayOk(P, w.ledger, at, n) && ReadyKey(at, n) !in KeysOf(id); }
  }

  lemma {:induction false} BookFrame(w: World, route: seq<nat>, until: nat)
    ensures var r := Book(w, route, until); r.Next? ==> r.w == w.(fleet := w.fleet.(busy := r.w.fleet.busy))
    decreases |route|
  {
    if route != [] && w.fleet.BusyUntil(route[0]) <= w.now {
      BookFrame(w.(fleet := w.fleet.(busy := Put(w.fleet.busy, route[0], until))), route[1..], until);
    }
  }

  lemma {:induction false} FilterKeeps(s: seq<nat>, keep: nat -> bool)
    ensures forall n :: n in Filter(s, keep) ==> n in s && keep(n)
  {
    if s != [] { FilterKeeps(s[1..], keep); }
  }

  lemma RouteIsRight(P: Params, w: World, q: Request, duration: nat)
    requires RouteFor(P, w, q.model, duration) != []
    ensures RouteOk(P, q.(route := RouteFor(P, w, q.model, duration)))
  {
    hide FreeFor;
    var route := RouteFor(P, w, q.model, duration);
    RouteIsFree(P, w, q.model, duration);
    var free := FreeFor(w, duration);
    FilterKeeps(P.LargeIds(), (n: nat) => n in free);
    if q.model == LargeModel {
      forall n | n in route ensures P.smallNodes <= n < P.smallNodes + P.largeNodes { assert n in P.LargeIds(); }
    }
  }

  lemma TryStartLives(P: Params, E: Env, w: World, id: nat)
    requires Lives(P, E, w) && TryStart(P, E, w, id).Next?
    ensures Lives(P, E, TryStart(P, E, w, id).w)
  {
    hide Lives, RouteFor, Book, Occupied, SameElsewhere, LifeOk;
    var v := TryStart(P, E, w, id).w;
    if v != w {
      var q := w.jobs.requests[id];
      var route := RouteFor(P, w, q.model, Duration(P, q.model));
      var until := w.now + Occupied(P, E, id, q.model);
      var started := w.(jobs := Jobs(Put(w.jobs.requests, id, q.(route := route, stage := Running)), w.jobs.waiting - {id}));
      BookFrame(started, route, until);
      RouteIsRight(P, w, q, Duration(P, q.model));
      LifeOf(P, E, w, id);
      StartedLife(P, E, w, v, id, route);
      SameElsewhereItself(w.ledger, id);
      OneLives(P, E, w, v, id) by { AlreadyDrawn(P, E, w); }
    }
  }

  lemma AlreadyDrawn(P: Params, E: Env, w: World)
    requires Lives(P, E, w)
    ensures forall s :: s in w.events ==> Drawn(E, w.events[s])
  {
    hide LifeOk, Drawn, PayOk;
  }

  lemma LifeOf(P: Params, E: Env, w: World, id: nat)
    requires Lives(P, E, w)
    ensures LifeOk(P, E, w, id)
  {
    hide LifeOk, Drawn, PayOk;
  }

  lemma StartedLife(P: Params, E: Env, w: World, v: World, id: nat, route: seq<nat>)
    requires LifeOk(P, E, w, id) && InStage(w, id, Queued) && v.now == w.now && v.ledger == w.ledger
    requires var q := w.jobs.requests[id].(route := route, stage := Running);
             RouteOk(P, q) && id in v.jobs.requests && v.jobs.requests[id] == q
    ensures LifeOk(P, E, v, id)
  {
    hide RoleOf, RouteOk, TakenFrom;
  }

  lemma SameElsewhereItself(s: State, id: nat)
    ensures SameElsewhere(s, s, KeysOf(id))
  {
  }

  lemma {:induction false} StartAllLives(P: Params, E: Env, w: World, ids: seq<nat>)
    requires Lives(P, E, w) && StartAll(P, E, w, ids).Next?
    ensures Lives(P, E, StartAll(P, E, w, ids).w)
    decreases |ids|
  {
    hide TryStart, Lives;
    if ids != [] {
      TryStartLives(P, E, w, ids[0]);
      StartAllLives(P, E, TryStart(P, E, w, ids[0]).w, ids[1..]);
    }
  }

  lemma LeaseStartLives(P: Params, E: Env, w: World)
    requires Usable(P) && Lives(P, E, w) && LeaseStart(P, E, w).Next?
    ensures Lives(P, E, LeaseStart(P, E, w).w)
  {
    hide Contract, StartAll, Lives, Beside;
    if w.now < P.End() {
      var empty := Vacate(P, w);
      var contracted := Contract(P, E, empty).w;
      QuietBeside(P, E, w, empty);
      BesideLives(P, E, w, empty);
      ContractBeside(P, E, empty);
      BesideLives(P, E, empty, contracted);
      StartAllLives(P, E, contracted, Ascending(contracted.jobs.waiting));
      var started := StartAll(P, E, contracted, Ascending(contracted.jobs.waiting)).w;
      QuietBeside(P, E, started, Push(started, started.now + P.lease, Lease));
      BesideLives(P, E, started, Push(started, started.now + P.lease, Lease));
    }
  }

  lemma ArriveLives(P: Params, E: Env, w: World, id: nat)
    requires Sound(P, E) && Valid(P, w) && Lives(P, E, w) && id !in w.jobs.requests && Arrive(P, E, w, id).Next?
    ensures Lives(P, E, Arrive(P, E, w, id).w)
  {
    hide Lives, Valid, TryStart, AfterHold, SameElsewhere, LifeOk, RoleOf, MomentOk, Usable;
    var v := Arrive(P, E, w, id).w;
    if v != w {
      var price := if E.model(id) == LargeModel then P.largePrice else P.compactPrice;
      var q := Request(E.owner(id), E.model(id), w.now, w.now + P.queueSeconds, price, Queued, []);
      var t := AfterHold(w.ledger, UsageKey(id), E.owner(id), price, ForUsage).0;
      var queued := w.(ledger := t, jobs := Jobs(Put(w.jobs.requests, id, q), w.jobs.waiting + {id}));
      var pushed := Push(queued, q.deadline, QueueDeadline(id));
      UnknownIsFresh(P, w, id);
      AsksFor(P, w);
      HoldRole(w.ledger, UsageKey(id), E.owner(id), price, ForUsage);
      StudyDuties.UsageOnly(w.ledger, t, id);
      OnlyUsage(w.ledger, t, id);
      NewLife(P, E, pushed, id);
      OneLives(P, E, w, pushed, id) by { AlreadyDrawn(P, E, w); }
      TryStartLives(P, E, pushed, id);
    }
  }

  lemma AsksFor(P: Params, w: World)
    requires Valid(P, w)
    ensures Inv(w.ledger)
  {
    hide Inv, Schedule, Requests, FleetOk, KeysPast, Treasury;
  }

  lemma NewLife(P: Params, E: Env, v: World, id: nat)
    requires id in v.jobs.requests && RoleOf(v.ledger, UsageKey(id)).Holds? && RoleOf(v.ledger, ReversalKey(id)) == Fresh
    requires TermsOk(P, E, id, v.jobs.requests[id]) && v.jobs.requests[id].created <= v.now
    requires v.jobs.requests[id].stage == Queued && v.jobs.requests[id].route == []
    ensures LifeOk(P, E, v, id)
  {
    hide RoleOf, TermsOk;
  }

  /** A live request ends without a charge. */
  lemma EndedLife(P: Params, E: Env, w: World, v: World, id: nat, stage: Stage)
    requires LifeOk(P, E, w, id) && id in w.jobs.requests && stage != Finalized && v.now == w.now
    requires id in v.jobs.requests && v.jobs.requests[id] == w.jobs.requests[id].(stage := stage)
    requires StageOk(P, E, id, v.jobs.requests[id], w.now)
    requires !RoleOf(v.ledger, UsageKey(id)).Reversible? && !RoleOf(v.ledger, ReversalKey(id)).Reverses?
    ensures LifeOk(P, E, v, id)
  {
    hide RoleOf, RouteOk, TakenFrom;
  }

  lemma ExpireLives(P: Params, E: Env, w: World, id: nat)
    requires Valid(P, w) && Lives(P, E, w) && Expire(w, id).Next?
    requires InStage(w, id, Queued) ==> w.jobs.requests[id].deadline <= w.now
    ensures Lives(P, E, Expire(w, id).w)
  {
    hide Lives, Valid, AfterRelease, SameElsewhere, LifeOk, RoleOf;
    if InStage(w, id, Queued) {
      var v := Expire(w, id).w;
      AsksFor(P, w);
      HoldOf(P, w, id);
      ReleaseRole(w.ledger, UsageKey(id));
      StudyDuties.UsageOnly(w.ledger, v.ledger, id);
      OnlyUsage(w.ledger, v.ledger, id);
      LifeOf(P, E, w, id);
      WaitedInVain(P, E, w, id);
      EndedLife(P, E, w, v, id, QueueExpired);
      OneLives(P, E, w, v, id) by { AlreadyDrawn(P, E, w); }
    }
  }

  lemma WaitedInVain(P: Params, E: Env, w: World, id: nat)
    requires LifeOk(P, E, w, id) && InStage(w, id, Queued) && w.jobs.requests[id].deadline <= w.now
    ensures StageOk(P, E, id, w.jobs.requests[id].(stage := QueueExpired), w.now)
  {
    hide RoleOf, TermsOk, TakenFrom;
  }

  lemma OnlyUsage(s: State, t: State, id: nat)
    requires SameElsewhere(s, t, {UsageKey(id)})
    ensures RoleOf(t, ReversalKey(id)) == RoleOf(s, ReversalKey(id))
  {
    hide RoleOf;
  }

  lemma CompleteLives(P: Params, E: Env, w: World, id: nat)
    requires Valid(P, w) && Lives(P, E, w) && InStage(w, id, Running) && Complete(P, E, w, id, E.cancels(id)).Next?
    ensures Lives(P, E, Complete(P, E, w, id, E.cancels(id)).w)
  {
    hide Lives, Valid, AfterRelease, SameElsewhere, LifeOk, RoleOf;
    var v := Complete(P, E, w, id, E.cancels(id)).w;
    AsksFor(P, w);
    HoldOf(P, w, id);
    LifeOf(P, E, w, id);
    RanAsDrawn(P, E, w, id);
    if E.cancels(id) || E.fails(id) {
      ReleaseRole(w.ledger, UsageKey(id));
      StudyDuties.UsageOnly(w.ledger, v.ledger, id);
      OnlyUsage(w.ledger, v.ledger, id);
    } else {
      SameElsewhereItself(w.ledger, id);
    }
    EndedLife(P, E, w, v, id, v.jobs.requests[id].stage);
    OneLives(P, E, w, v, id) by { AlreadyDrawn(P, E, w); }
  }

  lemma RanAsDrawn(P: Params, E: Env, w: World, id: nat)
    requires LifeOk(P, E, w, id) && InStage(w, id, Running)
    ensures var stage := if E.cancels(id) then CancelledRun else if E.fails(id) then FailedRun else PendingReview;
            StageOk(P, E, id, w.jobs.requests[id].(stage := stage), w.now)
  {
    hide RoleOf, TermsOk, TakenFrom;
  }

  lemma FinishLives(P: Params, E: Env, w: World, id: nat)
    requires Valid(P, w) && Lives(P, E, w) && InStage(w, id, Running) && Finish(P, E, w, id, E.cancels(id)).Next?
    ensures Lives(P, E, Finish(P, E, w, id, E.cancels(id)).w)
  {
    hide Lives, Valid, Complete, StartAll, Beside;
    var unbooked := Unbook(w, w.jobs.requests[id].route);
    UnbookKeeps(P, w, w.jobs.requests[id].route);
    QuietBeside(P, E, w, unbooked);
    BesideLives(P, E, w, unbooked);
    CompleteLives(P, E, unbooked, id);
    var completed := Complete(P, E, unbooked, id, E.cancels(id)).w;
    StartAllLives(P, E, completed, Ascending(completed.jobs.waiting));
  }

  lemma PartsAreWhole(s: State, key: Key, floor: int, wt: int, rt: int, priority: Priority)
    requires RoleOf(s, key).Holds? && AfterFinalize(s, key, floor, wt, rt, priority).1.Parts?
    ensures var reply := AfterFinalize(s, key, floor, wt, rt, priority).1; reply.w + reply.r + reply.burn == RoleOf(s, key).h.value
  {
  }

  lemma SettleLives(P: Params, E: Env, w: World, id: nat)
    requires Usable(P) && Valid(P, w) && Lives(P, E, w) && InStage(w, id, PendingReview) && SettleUsage(P, E, w, id).Next?
    ensures Lives(P, E, SettleUsage(P, E, w, id).w)
  {
    hide Lives, Valid, AfterRelease, AfterFinalize, SameElsewhere, LifeOk, RoleOf, Beside, Usable;
    var v := SettleUsage(P, E, w, id).w;
    if !E.quorum(w.now) {
      QuietBeside(P, E, w, v);
      BesideLives(P, E, w, v);
    } else {
      AsksFor(P, w);
      HoldOf(P, w, id);
      LifeOf(P, E, w, id);
      if E.detected(id) {
        ReleaseRole(w.ledger, UsageKey(id));
        ReviewedAsDrawn(P, E, w, id);
        StudyDuties.UsageOnly(w.ledger, v.ledger, id);
        OnlyUsage(w.ledger, v.ledger, id);
        EndedLife(P, E, w, v, id, RefundedEarly);
      } else {
        PlanFits(P, w);
        FinalizeRole(w.ledger, UsageKey(id), w.plan.floor, w.plan.working, w.plan.protected, P.priority);
        PartsAreWhole(w.ledger, UsageKey(id), w.plan.floor, w.plan.working, w.plan.protected, P.priority);
        StudyDuties.UsageOnly(w.ledger, v.ledger, id);
        OnlyUsage(w.ledger, v.ledger, id);
        ChargedLife(P, E, w, v, id);
      }
      OneLives(P, E, w, v, id) by { AlreadyDrawn(P, E, w); }
    }
  }

  lemma PlanFits(P: Params, w: World)
    requires Usable(P) && Valid(P, w)
    ensures Representable(w.plan.floor) && Representable(w.plan.working) && Representable(w.plan.protected)
    ensures P.priority != OtherPriority
  {
    hide Inv, Schedule, Requests, FleetOk, KeysPast;
  }

  lemma ReviewedAsDrawn(P: Params, E: Env, w: World, id: nat)
    requires LifeOk(P, E, w, id) && InStage(w, id, PendingReview) && E.detected(id)
    ensures StageOk(P, E, id, w.jobs.requests[id].(stage := RefundedEarly), w.now)
  {
    hide RoleOf, TermsOk, TakenFrom;
  }

  lemma ChargedLife(P: Params, E: Env, w: World, v: World, id: nat)
    requires LifeOk(P, E, w, id) && InStage(w, id, PendingReview) && !E.detected(id) && v.now == w.now
    requires id in v.jobs.requests && v.jobs.requests[id] == w.jobs.requests[id].(stage := Finalized)
    requires RoleOf(v.ledger, UsageKey(id)).Reversible? && TakenFrom(RoleOf(v.ledger, UsageKey(id)).charge, w.jobs.requests[id])
    requires !RoleOf(v.ledger, ReversalKey(id)).Reverses?
    ensures LifeOk(P, E, v, id)
  {
    hide RoleOf;
  }

  lemma ApproveMovesCharge(s: State, key: Key, original: Key)
    requires RoleOf(s, original).Reversible? && AfterApprove(s, key, original).1 == Bool(true)
    requires RoleOf(AfterApprove(s, key, original).0, key).Reverses?
    ensures RoleOf(AfterApprove(s, key, original).0, key).c == RoleOf(s, original).charge
  {
  }

  lemma ApproveLives(P: Params, E: Env, w: World, id: nat)
    requires Valid(P, w) && Lives(P, E, w) && KindOk(w, w.now, RefundApprove(id)) && E.late(id) && ApproveRefund(E, w, id).Next?
    ensures Lives(P, E, ApproveRefund(E, w, id).w)
  {
    hide Lives, Valid, AfterApprove, SameElsewhere, LifeOk, RoleOf, Beside;
    var v := ApproveRefund(E, w, id).w;
    if !E.quorum(w.now) {
      QuietBeside(P, E, w, v);
      BesideLives(P, E, w, v);
    } else {
      AsksFor(P, w);
      ApproveRole(w.ledger, ReversalKey(id), UsageKey(id));
      var reply := AfterApprove(w.ledger, ReversalKey(id), UsageKey(id)).1;
      if !reply.ok {
        QuietBeside(P, E, w, v);
        BesideLives(P, E, w, v);
      } else {
        ApproveMovesCharge(w.ledger, ReversalKey(id), UsageKey(id));
        LifeOf(P, E, w, id);
        OwnKeys(w.ledger, v.ledger, id);
        GivenBack(P, E, w, v, id);
        OneLives(P, E, w, v, id) by { AlreadyDrawn(P, E, w); }
      }
    }
  }

  lemma OwnKeys(s: State, t: State, id: nat)
    requires SameElsewhere(s, t, {ReversalKey(id), UsageKey(id), Leg(ReversalKey(id), false), Leg(ReversalKey(id), true)})
    ensures SameElsewhere(s, t, KeysOf(id))
  {
    hide RoleOf;
  }

  lemma GivenBack(P: Params, E: Env, w: World, v: World, id: nat)
    requires LifeOk(P, E, w, id) && InStage(w, id, Finalized) && E.late(id) && v.now == w.now && v.jobs == w.jobs
    requires RoleOf(w.ledger, UsageKey(id)).Reversible? && RoleOf(v.ledger, UsageKey(id)) == Done
    requires RoleOf(v.ledger, ReversalKey(id)).Reverses?
    requires RoleOf(v.ledger, ReversalKey(id)).c == RoleOf(w.ledger, UsageKey(id)).charge
    ensures LifeOk(P, E, v, id)
  {
    hide RoleOf, RouteOk, TakenFrom;
  }

  lemma PostLives(P: Params, E: Env, w: World, id: nat)
    requires Valid(P, w) && Lives(P, E, w) && KindOk(w, w.now, RefundPost(id)) && E.late(id) && PostRefund(E, w, id).Next?
    ensures Lives(P, E, PostRefund(E, w, id).w)
  {
    hide Lives, Valid, AfterPost, SameElsewhere, LifeOk, RoleOf, Beside;
    var v := PostRefund(E, w, id).w;
    if !E.quorum(w.now) {
      QuietBeside(P, E, w, v);
      BesideLives(P, E, w, v);
    } else {
      AsksFor(P, w);
      PostRole(w.ledger, ReversalKey(id));
      LifeOf(P, E, w, id);
      PostedKeys(w.ledger, v.ledger, id);
      Returned(P, E, w, v, id);
      OneLives(P, E, w, v, id) by { AlreadyDrawn(P, E, w); }
    }
  }

  lemma PostedKeys(s: State, t: State, id: nat)
    requires SameElsewhere(s, t, {ReversalKey(id), Leg(ReversalKey(id), false), Leg(ReversalKey(id), true)})
    ensures SameElsewhere(s, t, KeysOf(id)) && RoleOf(t, UsageKey(id)) == RoleOf(s, UsageKey(id))
  {
    hide RoleOf;
  }

  lemma Returned(P: Params, E: Env, w: World, v: World, id: nat)
    requires LifeOk(P, E, w, id) && InStage(w, id, Finalized) && E.late(id) && v.now == w.now && v.jobs == w.jobs
    requires RoleOf(v.ledger, UsageKey(id)) == RoleOf(w.ledger, UsageKey(id)) && RoleOf(v.ledger, ReversalKey(id)) == Done
    ensures LifeOk(P, E, v, id)
  {
    hide RoleOf, RouteOk, TakenFrom;
  }

  // ---------------------------------------------------------------------------------------------
  // Runs

  lemma HandleLives(P: Params, E: Env, w: World, e: Event)
    requires Sound(P, E) && Valid(P, w) && Lives(P, E, w) && KindOk(w, w.now, e.kind) && TokenFree(w, TokenOf(e.kind)) && Drawn(E, e)
    requires e.kind.QueueDeadline? && InStage(w, e.kind.id, Queued) ==> w.jobs.requests[e.kind.id].deadline <= w.now
    ensures Handle(P, E, w, e.kind).Next? && Lives(P, E, Handle(P, E, w, e.kind).w)
  {
    hide Lives, Valid, TokenFree, MomentOk, DayBoundary, LeaseStart, Arrive, ReadySettled, Expire, Finish, SettleUsage,
         ApproveRefund, PostRefund, Payable, LeaseOk, DayOk, Beside;
    HandleKeeps(P, E, w, e.kind);
    match e.kind
    case Day => DayBoundaryBeside(P, E, w); BesideLives(P, E, w, DayBoundary(P, E, w).w);
    case Lease => LeaseStartLives(P, E, w);
    case Arrival(id) => ArriveLives(P, E, w, id);
    case ReadyReceipt(at, node, source) =>
      QuietBeside(P, E, w, Push(w, w.now + P.review, ReadySettle(at, node, source)));
      BesideLives(P, E, w, Push(w, w.now + P.review, ReadySettle(at, node, source)));
    case ReadySettle(at, node, source) =>
      ReadySettledBeside(P, E, w, at, node, source);
      BesideLives(P, E, w, ReadySettled(P, E, w, at, node, source).w);
    case QueueDeadline(id) => ExpireLives(P, E, w, id);
    case RequestDone(id, cancelled) => FinishLives(P, E, w, id);
    case UsageSettle(id) => SettleLives(P, E, w, id);
    case RefundApprove(id) => ApproveLives(P, E, w, id);
    case RefundPost(id) => PostLives(P, E, w, id);
  }

  lemma PopLives(P: Params, E: Env, w: World)
    requires Valid(P, w) && Lives(P, E, w) && w.events != map[]
    ensures Lives(P, E, Pop(w)) && Drawn(E, w.events[Earliest(w.events)])
  {
    hide Inv, Requests, FleetOk, KeysPast, Treasury, KindOk, RoleOf, TermsOk, TakenFrom, Drawn, RouteOk, PayOk;
    var first := Earliest(w.events);
    KindOfEvent(w, first);
    forall id ensures LifeOk(P, E, Pop(w), id) { assert LifeOk(P, E, w, id); }
  }

  /** A queued request's deadline event stands at its deadline. */
  lemma DeadlineIsNow(P: Params, E: Env, n: nat, w: World)
    requires Sound(P, E) && After(P, E, n) == Next(w) && w.events != map[]
    ensures var e := w.events[Earliest(w.events)];
            e.kind.QueueDeadline? && InStage(w, e.kind.id, Queued) ==> w.jobs.requests[e.kind.id].deadline <= e.when
  {
    hide MomentOk, After;
    var first := Earliest(w.events);
    var e := w.events[first];
    if e.kind.QueueDeadline? && InStage(w, e.kind.id, Queued) {
      NeverFaults(P, E, n);
      var token := DeadlineToken(e.kind.id);
      StudyDuties.NothingIsForgotten(P, E, n);
      assert StudyDuties.Owes(P, E, w, token);
      var s :| StudyDuties.Does(w, s, token);
      assert s == first by { TokenIsUnique(P, w, s, first); }
    }
  }

  lemma TokenIsUnique(P: Params, w: World, s: nat, x: nat)
    requires Valid(P, w) && s in w.events && x in w.events && TokenOf(w.events[s].kind) == TokenOf(w.events[x].kind)
    ensures s == x
  {
    hide Inv, Requests, FleetOk, KeysPast, Treasury, EventOk;
  }

  lemma {:induction false} ArrivalsLive(P: Params, E: Env, w: World, id: nat)
    requires id <= P.days * P.requestsPerDay && Lives(P, E, w)
    ensures Lives(P, E, Arrivals(P, E, w, id))
    decreases P.days * P.requestsPerDay - id
  {
    hide Lives, Beside;
    if id < P.days * P.requestsPerDay {
      var v := if E.arrives(id) then Push(w, E.arrival(id), Arrival(id)) else w;
      QuietBeside(P, E, w, v);
      BesideLives(P, E, w, v);
      ArrivalsLive(P, E, v, id + 1);
    }
  }

  lemma InitialLives(P: Params, E: Env)
    ensures Lives(P, E, Initial(P, E))
  {
    hide Arrivals;
    ArrivalsLive(P, E, Push(Push(Blank(P), 0, Day), 0, Lease), 0);
  }

  lemma {:induction false} LivesAlways(P: Params, E: Env, n: nat)
    requires Sound(P, E)
    ensures After(P, E, n).Next? && Lives(P, E, After(P, E, n).w)
  {
    hide Valid, Lives, MomentOk, Handle, Initial, Over, KindOk, TokenOf, Drawn;
    NeverFaults(P, E, n);
    if n == 0 {
      InitialLives(P, E);
    } else {
      LivesAlways(P, E, n - 1);
      NeverFaults(P, E, n - 1);
      var w := After(P, E, n - 1).w;
      if !Over(P, w) {
        NotOver(P, w);
        PopLives(P, E, w);
        PopKeeps(P, w);
        DeadlineIsNow(P, E, n - 1, w);
        HandleLives(P, E, Pop(w), w.events[Earliest(w.events)]);
      }
    }
  }

  lemma NotOver(P: Params, w: World)
    requires !Over(P, w)
    ensures w.events != map[]
  {
  }

  /**
   Main result: in every reachable world every request has the owner, the model and that model's price that were drawn
   for it, is in the stage its draws lead to, and was charged its price exactly if it was finalized.
   */
  lemma {:induction false} RequestsLiveAsDrawn(P: Params, E: Env, n: nat, w: World, id: nat)
    requires Sound(P, E) && After(P, E, n) == Next(w) && id in w.jobs.requests
    ensures var q := w.jobs.requests[id];
            && TermsOk(P, E, id, q) && StageOk(P, E, id, q, w.now)
            && (UsageKey(id) in w.ledger.refills ==> q.stage == Finalized && TakenFrom(w.ledger.refills[UsageKey(id)], q))
            && (ReversalKey(id) in w.ledger.reversals ==>
                  q.stage == Finalized && E.late(id) && TakenFrom(w.ledger.reversals[ReversalKey(id)], q))
            && (q.stage == Finalized && !E.late(id) ==> UsageKey(id) in w.ledger.refills)
  {
    hide After, MomentOk, Inv, Schedule, Requests, FleetOk, KeysPast, Treasury, TermsOk, StageOk, TakenFrom, Lives;
    LivesAlways(P, E, n);
    NeverFaults(P, E, n);
    LifeOf(P, E, w, id);
    OneRole(w.ledger, UsageKey(id));
    OneRole(w.ledger, ReversalKey(id));
  }

  /** An identifier has one role, so its entry in any table is that role. */
  lemma OneRole(s: State, k: Key)
    requires Inv(s)
    ensures k in s.refills ==> RoleOf(s, k) == Reversible(s.refills[k])
    ensures k in s.reversals ==> RoleOf(s, k) == Reverses(s.reversals[k])
    ensures RoleOf(s, k).Reversible? ==> k in s.refills
  {
    hide Balances, Totals, Caps;
    assert Entry(s, k);
  }

  // ---------------------------------------------------------------------------------------------
  // Exactly when an arrival is queued, and a queued request starts

  /** What an arriving request must meet. */
  predicate Asked(P: Params, E: Env, w: World, id: nat)
  {
    && w.now < P.days * 86400 && !E.retained(id) && E.quorum(w.now) && w.now < w.cash.paidUntil
    && match E.model(id)
       case LargeModel => P.largePrice <= w.ledger.Balance(E.owner(id))
       case Compact => P.compactPrice <= w.ledger.Balance(E.owner(id))
       case Unqualified => false
  }

  function PriceOf(P: Params, model: Model): nat { match model case LargeModel => P.largePrice case _ => P.compactPrice }

  /** The world in which the request waits, before it is tried at once. */
  ghost function Waiting(P: Params, E: Env, w: World, id: nat): World
  {
    var price := PriceOf(P, E.model(id));
    var q := Request(E.owner(id), E.model(id), w.now, w.now + P.queueSeconds, price, Queued, []);
    var t := AfterHold(w.ledger, UsageKey(id), E.owner(id), price, ForUsage).0;
    Push(w.(ledger := t, jobs := Jobs(Put(w.jobs.requests, id, q), w.jobs.waiting + {id})), q.deadline, QueueDeadline(id))
  }

  lemma ArriveIs(P: Params, E: Env, w: World, id: nat)
    requires Sound(P, E) && Valid(P, w) && id !in w.jobs.requests
    ensures Arrive(P, E, w, id) == if Asked(P, E, w, id) then TryStart(P, E, Waiting(P, E, w, id), id) else Next(w)
    ensures Asked(P, E, w, id) ==> Waiting(P, E, w, id).ledger.Balance(E.owner(id))
                                    == w.ledger.Balance(E.owner(id)) - PriceOf(P, E.model(id))
  {
    hide Valid, MomentOk, AfterHold, TryStart, Usable, RoleOf, SameElsewhere;
    if Asked(P, E, w, id) {
      UnknownIsFresh(P, w, id);
      AsksFor(P, w);
      HoldRole(w.ledger, UsageKey(id), E.owner(id), PriceOf(P, E.model(id)), ForUsage);
    }
  }

  /**
   An arriving request is queued if and only if the study still runs, its owner asks for a qualified model and can pay
   that model's price, and service is on. Its price is then held and its deadline pending; otherwise nothing changes.
   */
  lemma ArrivalIsQueuedExactlyWhen(P: Params, E: Env, w: World, id: nat)
    requires Sound(P, E) && Valid(P, w) && id !in w.jobs.requests && TokenFree(w, JobToken(id))
    ensures var r := Arrive(P, E, w, id);
            && r.Next? && (id in r.w.jobs.requests <==> Asked(P, E, w, id))
            && (if id in r.w.jobs.requests then
                  && r.w.ledger.Balance(E.owner(id)) == w.ledger.Balance(E.owner(id)) - PriceOf(P, E.model(id))
                  && r.w.jobs.requests[id].created == w.now && r.w.jobs.requests[id].price == PriceOf(P, E.model(id))
                  && exists s :: s in r.w.events && r.w.events[s] == Event(w.now + P.queueSeconds, QueueDeadline(id))
                else r.w == w)
  {
    hide Valid, MomentOk, TokenFree, AfterHold, TryStart, Usable, RoleOf;
    ArriveKeeps(P, E, w, id);
    ArriveIs(P, E, w, id);
    if Asked(P, E, w, id) {
      AcceptKeeps(P, E, w, id, PriceOf(P, E.model(id)));
      var pushed := Waiting(P, E, w, id);
      TryStartKeepsLedger(P, E, pushed, id);
      assert pushed.events[w.serial + 1] == Event(w.now + P.queueSeconds, QueueDeadline(id));
    }
  }

  lemma TryStartKeepsLedger(P: Params, E: Env, w: World, id: nat)
    requires Valid(P, w) && TryStart(P, E, w, id).Next?
    ensures var v := TryStart(P, E, w, id).w;
            && v.ledger == w.ledger && v.jobs.requests.Keys == w.jobs.requests.Keys
            && (forall s :: s in w.events ==> s in v.events && v.events[s] == w.events[s])
            && (forall j :: j in w.jobs.requests ==>
                  v.jobs.requests[j].created == w.jobs.requests[j].created && v.jobs.requests[j].price == w.jobs.requests[j].price)
  {
    hide Valid, RouteFor, Book, Occupied;
    var v := TryStart(P, E, w, id).w;
    if v != w {
      var q := w.jobs.requests[id];
      var route := RouteFor(P, w, q.model, Duration(P, q.model));
      var until := w.now + Occupied(P, E, id, q.model);
      BookFrame(w.(jobs := Jobs(Put(w.jobs.requests, id, q.(route := route, stage := Running)), w.jobs.waiting - {id})), route, until);
      NewSerial(P, w);
    }
  }

  lemma NewSerial(P: Params, w: World)
    requires Valid(P, w)
    ensures w.serial + 1 !in w.events
  {
    hide Schedule;
    SerialIsNew(w);
  }

  /** A contracted node that can serve for d seconds from now. */
  predicate Ready(w: World, n: nat, d: nat)
  {
    n in w.fleet.ready && w.now + d <= w.fleet.ready[n] && (n in w.fleet.busy ==> w.fleet.busy[n] <= w.now)
  }

  /** One node that is not large, the least that is ready; or the three large ones when exactly three are ready. */
  ghost predicate Serves(P: Params, w: World, model: Model, route: seq<nat>)
  {
    if model == LargeModel then
      |route| == 3 && NoRepeats(route) && forall n :: n in route <==> InTeam(P, n) && Ready(w, n, P.largeSeconds)
    else
      |route| == 1 && !InTeam(P, route[0]) && Ready(w, route[0], P.compactSeconds)
      && forall n :: !InTeam(P, n) && Ready(w, n, P.compactSeconds) ==> route[0] <= n
  }

  /** For how long the nodes are taken: the whole service, or half of it and one second at least when it is cancelled. */
  function TimeFor(P: Params, E: Env, id: nat, model: Model): int
  {
    var d := match model case LargeModel => P.largeSeconds case _ => P.compactSeconds;
    if !E.cancels(id) then d else if d < 2 then 1 else d / 2
  }

  lemma TeamIsRange(P: Params)
    ensures forall n :: n in P.LargeIds() <==> InTeam(P, n)
    ensures NoRepeats(P.LargeIds())
  {
    forall n: nat | InTeam(P, n) ensures n in P.LargeIds() { assert P.LargeIds()[n - P.smallNodes] == n; }
  }

  function Members(a: seq<nat>): set<nat> { set n | n in a }

  lemma {:induction false} DistinctSize(a: seq<nat>)
    requires NoRepeats(a)
    ensures |Members(a)| == |a|
  {
    if a == [] {
      assert Members(a) == {};
    } else {
      assert forall i, k :: 0 <= i < k < |a[1..]| ==> a[1..][i] == a[i + 1] && a[1..][k] == a[k + 1];
      DistinctSize(a[1..]);
      assert a == [a[0]] + a[1..];
      assert a[0] !in a[1..];
      assert Members(a) == Members(a[1..]) + {a[0]};
    }
  }

  lemma SameMembers(a: seq<nat>, b: seq<nat>)
    requires NoRepeats(a) && NoRepeats(b) && forall n :: n in a <==> n in b
    ensures |a| == |b|
  {
    DistinctSize(a);
    DistinctSize(b);
    assert Members(a) == Members(b);
  }

  lemma RouteServes(P: Params, w: World, model: Model, route: seq<nat>)
    ensures var d := match model case LargeModel => P.largeSeconds case _ => P.compactSeconds;
            var chosen := RouteFor(P, w, model, d);
            && (chosen != [] ==> Serves(P, w, model, chosen))
            && (chosen == [] ==> !Serves(P, w, model, route))
  {
    var d := match model case LargeModel => P.largeSeconds case _ => P.compactSeconds;
    var free := FreeFor(w, d);
    assert forall n :: n in free <==> Ready(w, n, d);
    TeamIsRange(P);
    if model == LargeModel {
      var found := Filter(P.LargeIds(), (n: nat) => n in free);
      FilterKeepsDistinct(P.LargeIds(), (n: nat) => n in free);
      if Serves(P, w, model, route) { SameMembers(found, route); }
    } else {
      var candidates := set n | n in free && !P.IsLarge(n);
      assert forall n: nat :: n in candidates <==> !InTeam(P, n) && Ready(w, n, P.compactSeconds);
      if Serves(P, w, model, route) { assert route[0] in candidates; }
    }
  }

  /**
   A queued request starts if and only if it is not overdue and enough nodes are ready for its whole service. The nodes
   are then taken until its completion, which is announced for that instant with its outcome; otherwise nothing changes.
   */
  lemma RequestStartsExactlyWhen(P: Params, E: Env, w: World, id: nat)
    requires Usable(P) && Valid(P, w) && InStage(w, id, Queued)
    ensures var r := TryStart(P, E, w, id); var q := w.jobs.requests[id]; var until := w.now + TimeFor(P, E, id, q.model);
            && r.Next? && id in r.w.jobs.requests
            && (r.w.jobs.requests[id].stage == Running <==> w.now <= q.deadline && exists route :: Serves(P, w, q.model, route))
            && (if r.w.jobs.requests[id].stage == Running then
                  && Serves(P, w, q.model, r.w.jobs.requests[id].route)
                  && (forall n :: n in r.w.jobs.requests[id].route ==> n in r.w.fleet.busy && r.w.fleet.busy[n] == until)
                  && exists s :: s in r.w.events && r.w.events[s].when == until
                                 && r.w.events[s].kind == RequestDone(id, E.cancels(id))
                else r.w == w)
  {
    hide Valid, RouteFor, TryStart, Serves, Usable, Started;
    var q := w.jobs.requests[id];
    var d := match q.model case LargeModel => P.largeSeconds case _ => P.compactSeconds;
    var route := RouteFor(P, w, q.model, d);
    TryStartKeeps(P, E, w, id);
    IsWaiting(P, w, id);
    RouteServes(P, w, q.model, route);
    if w.now <= q.deadline && route != [] {
      assert Serves(P, w, q.model, route);
      OccupiedIs(P, E, id, q.model);
      StartedIs(P, E, w, id);
    } else {
      StaysQueued(P, E, w, id);
      if w.now <= q.deadline {
        forall other ensures !Serves(P, w, q.model, other) { RouteServes(P, w, q.model, other); }
      }
    }
  }

  lemma StartedIs(P: Params, E: Env, w: World, id: nat)
    requires InStage(w, id, Queued) && w.now <= w.jobs.requests[id].deadline && TryStart(P, E, w, id).Next?
    requires RouteFor(P, w, w.jobs.requests[id].model, Duration(P, w.jobs.requests[id].model)) != []
    ensures var v := TryStart(P, E, w, id).w; var q := w.jobs.requests[id];
            var route := RouteFor(P, w, q.model, Duration(P, q.model)); var until := w.now + Occupied(P, E, id, q.model);
            && id in v.jobs.requests && v.jobs.requests[id] == q.(route := route, stage := Running)
            && (forall n :: n in route ==> n in v.fleet.busy && v.fleet.busy[n] == until)
            && w.serial + 1 in v.events && v.events[w.serial + 1] == Event(until, RequestDone(id, E.cancels(id)))
  {
    hide RouteFor, Book, Occupied;
    var q := w.jobs.requests[id];
    var route := RouteFor(P, w, q.model, Duration(P, q.model));
    RouteIsFree(P, w, q.model, Duration(P, q.model));
    var started := w.(jobs := Jobs(Put(w.jobs.requests, id, q.(route := route, stage := Running)), w.jobs.waiting - {id}));
    BookWorks(started, route, w.now + Occupied(P, E, id, q.model));
  }

  lemma StaysQueued(P: Params, E: Env, w: World, id: nat)
    requires InStage(w, id, Queued)
    requires w.now > w.jobs.requests[id].deadline
             || RouteFor(P, w, w.jobs.requests[id].model, Duration(P, w.jobs.requests[id].model)) == []
    ensures TryStart(P, E, w, id) == Next(w)
  {
    hide RouteFor;
  }

  lemma OccupiedIs(P: Params, E: Env, id: nat, model: Model)
    requires Usable(P)
    ensures Occupied(P, E, id, model) == TimeFor(P, E, id, model)
  {
  }
}
