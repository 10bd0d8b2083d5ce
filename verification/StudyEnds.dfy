/** Every run of the experiment ends: a handler only schedules events strictly later than now. */
module StudyEnds {
  import opened StudyLedger
  import opened MapSums
  import opened Selection
  import opened EventStudy
  import opened StudySafety
  import opened StudySteps
  import opened StudyStart
  import opened StudyRuns

  ghost predicate OnlyLater(w: World, v: World)
  {
    && v.now == w.now
    && forall s :: s in v.events ==> (s in w.events && v.events[s] == w.events[s]) || v.events[s].when > w.now
  }

  ghost predicate Calm(w: World, r: Outcome) { r.Next? ==> OnlyLater(w, r.w) }

  lemma {:induction false} BookLater(w: World, route: seq<nat>, until: nat)
    ensures Calm(w, Book(w, route, until))
    decreases |route|
  {
    if route != [] && w.fleet.BusyUntil(route[0]) <= w.now {
      BookLater(w.(fleet := w.fleet.(busy := Put(w.fleet.busy, route[0], until))), route[1..], until);
    }
  }

  lemma TryStartLater(P: Params, E: Env, w: World, id: nat)
    requires Usable(P)
    ensures Calm(w, TryStart(P, E, w, id))
  {
    hide RouteFor, Book, Usable;
    if id in w.jobs.requests {
      var q := w.jobs.requests[id];
      var route := RouteFor(P, w, q.model, Duration(P, q.model));
      OccupiedFits(P, E, id, q.model);
      var started := w.(jobs := Jobs(Put(w.jobs.requests, id, q.(route := route, stage := Running)), w.jobs.waiting - {id}));
      BookLater(started, route, w.now + Occupied(P, E, id, q.model));
    }
  }

  lemma {:induction false} StartAllLater(P: Params, E: Env, w: World, ids: seq<nat>)
    requires Usable(P)
    ensures Calm(w, StartAll(P, E, w, ids))
    decreases |ids|
  {
    hide TryStart, Usable;
    if ids != [] {
      TryStartLater(P, E, w, ids[0]);
      var r := TryStart(P, E, w, ids[0]);
      if r.Next? { StartAllLater(P, E, r.w, ids[1..]); }
    }
  }

  lemma {:induction false} FundNodesLater(P: Params, E: Env, w: World, nodes: seq<nat>, source: Source)
    requires Usable(P)
    ensures Calm(w, FundNodes(P, E, w, nodes, source))
    decreases |nodes|
  {
    hide AfterPromise, AfterHold, Ceiling;
    if nodes != [] {
      var r := FundNode(P, E, w, nodes[0], source);
      assert Calm(w, r);
      if r.Next? { FundNodesLater(P, E, r.w, nodes[1..], source); }
    }
  }

  lemma {:induction false} FundGroupsLater(P: Params, E: Env, w: World, groups: seq<seq<nat>>, essentials: seq<nat>, floor: int)
    requires Usable(P)
    ensures Calm(w, FundGroups(P, E, w, groups, essentials, floor))
    decreases |groups|
  {
    hide ChooseSource, FundNodes;
    if groups != [] {
      match ChooseSource(P, E, w, groups[0], essentials, floor)
      case Unfunded =>
        FundGroupsLater(P, E, w, groups[1..], essentials, floor);
      case Funded(source) =>
        FundNodesLater(P, E, w, groups[0], source);
        var r := FundNodes(P, E, w, groups[0], source);
        if r.Next? { FundGroupsLater(P, E, r.w, groups[1..], essentials, floor); }
    }
  }

  lemma LeaseStartLater(P: Params, E: Env, w: World)
    requires Usable(P)
    ensures Calm(w, LeaseStart(P, E, w))
  {
    hide Essentials, Wanted, Targets, Groups, FundGroups, StartAll;
    if w.now < P.End() {
      var empty := Vacate(P, w);
      var essentials, wanted := Essentials(P, E, empty), Wanted(P, E, empty);
      var (floor, working, protected) := Targets(P, essentials, wanted);
      var planned := empty.(plan := empty.plan.(floor := floor, working := working, protected := protected));
      FundGroupsLater(P, E, planned, Groups(P, wanted), essentials, floor);
      var r := Contract(P, E, empty);
      if r.Next? { StartAllLater(P, E, r.w, Ascending(r.w.jobs.waiting)); }
    }
  }

  lemma {:induction false} GrantUsersLater(P: Params, E: Env, w: World, grant: int, index: nat)
    requires Usable(P) && index <= P.accounts
    ensures Calm(w, GrantUsers(P, E, w, grant, index))
    decreases P.accounts - index
  {
    hide AfterPromise, AfterIssue, Ceiling;
    if index < P.accounts {
      var value := grant / P.accounts + if index < grant % P.accounts then 1 else 0;
      var r := Grant(w, GrantKey(w.now, index), User(index), value, Ceiling(P, E, w), GrantKind);
      if r.Next? { GrantUsersLater(P, E, r.w, grant, index + 1); }
    }
  }

  lemma DayBoundaryLater(P: Params, E: Env, w: World)
    requires Usable(P)
    ensures Calm(w, DayBoundary(P, E, w))
  {
    hide AfterPromise, AfterIssue, Ceiling, GrantUsers, Audit, PayOperations, Trade, Remember, Capacity;
    var v := w.(cash := PayOperations(P, E, w.now, w.cash), market := Trade(P, w.market),
                plan := w.plan.(history := Remember(w.plan.history, Capacity(P, E.online(w.now)))));
    var ceiling := Ceiling(P, E, v);
    var room := Max(0, ceiling - v.ledger.Exposure());
    var treasury := Min(room, v.ledger.c.contributorIssued / TREASURY_DIVISOR - v.ledger.c.treasuryIssued);
    var r := Grant(v, TreasuryKey(v.now), Working, treasury, ceiling, TreasuryKind);
    if r.Next? {
      var grant := Min(Max(0, ceiling - r.w.ledger.Exposure()),
                       r.w.ledger.c.contributorIssued / GRANT_DIVISOR - r.w.ledger.c.grantsIssued);
      GrantUsersLater(P, E, r.w, grant, 0);
    }
  }

  lemma ArriveLater(P: Params, E: Env, w: World, id: nat)
    requires Usable(P)
    ensures Calm(w, Arrive(P, E, w, id))
  {
    hide AfterHold, TryStart;
    var price := if E.model(id) == LargeModel then P.largePrice else P.compactPrice;
    var t := AfterHold(w.ledger, UsageKey(id), E.owner(id), price, ForUsage).0;
    var q := Request(E.owner(id), E.model(id), w.now, w.now + P.queueSeconds, price, Queued, []);
    var queued := w.(ledger := t, jobs := Jobs(Put(w.jobs.requests, id, q), w.jobs.waiting + {id}));
    TryStartLater(P, E, Push(queued, q.deadline, QueueDeadline(id)), id);
  }

  lemma FinishLater(P: Params, E: Env, w: World, id: nat, cancelled: bool)
    requires Usable(P)
    ensures Calm(w, Finish(P, E, w, id, cancelled))
  {
    hide AfterRelease, StartAll;
    if id in w.jobs.requests {
      var r := Complete(P, E, Unbook(w, w.jobs.requests[id].route), id, cancelled);
      if r.Next? { StartAllLater(P, E, r.w, Ascending(r.w.jobs.waiting)); }
    }
  }

  lemma HandleLater(P: Params, E: Env, w: World, kind: EventStudy.Kind)
    requires Usable(P)
    ensures Calm(w, Handle(P, E, w, kind))
  {
    hide AfterRelease, AfterFinalize, AfterApprove, AfterPost, AfterIssue, AfterPayReady,
         DayBoundary, LeaseStart, Arrive, Finish;
    match kind
    case Day => DayBoundaryLater(P, E, w);
    case Lease => LeaseStartLater(P, E, w);
    case Arrival(id) => ArriveLater(P, E, w, id);
    case RequestDone(id, cancelled) => FinishLater(P, E, w, id, cancelled);
    case _ =>
  }

  /** The events still due at this instant. */
  ghost function Due(w: World): set<nat> { set s | s in w.events && w.events[s].when == w.now }

  lemma Fewer(a: set<nat>, b: set<nat>, x: nat)
    requires a <= b && x in b && x !in a
    ensures |a| < |b|
  {
    assert a <= b - {x};
    SubsetSize(a, b - {x});
  }

  /** Each event moves the clock on, or leaves fewer events due at the same instant. */
  lemma StepProgresses(P: Params, E: Env, w: World)
    requires Sound(P, E) && Valid(P, w) && !Over(P, w)
    ensures var r := Step(P, E, w);
            r.Next? && (w.now < r.w.now <= P.End() || (r.w.now == w.now && |Due(r.w)| < |Due(w)|))
  {
    hide Inv, Requests, FleetOk, Treasury, KeysPast, KindOk, Handle, MomentOk;
    StepKeeps(P, E, w);
    var first := Earliest(w.events);
    var v := Step(P, E, w).w;
    HandleLater(P, E, Pop(w), w.events[first].kind);
    KindOfEvent(w, first);
    if v.now == w.now {
      assert first !in Pop(w).events;
      forall s | s in Due(v) ensures s in Due(w) && s != first { }
      Fewer(Due(v), Due(w), first);
    }
  }

  lemma {:induction false} EndsAfter(P: Params, E: Env, n: nat, w: World) returns (m: nat)
    requires Sound(P, E) && After(P, E, n) == Next(w)
    ensures n <= m && After(P, E, m).Next? && Over(P, After(P, E, m).w)
    decreases P.End() - w.now, |Due(w)|
  {
    hide Valid, MomentOk, Step, Due, Over, Initial;
    NeverFaults(P, E, n);
    m := n;
    if !Over(P, w) {
      StepProgresses(P, E, w);
      var next := Step(P, E, w);
      assert After(P, E, n + 1) == next;
      m := EndsAfter(P, E, n + 1, next.w);
    }
  }

  /** Whatever the draws, the event loop stops after finitely many events. */
  lemma {:induction false} EveryRunEnds(P: Params, E: Env)
    requires Sound(P, E)
    ensures exists n :: After(P, E, n).Next? && Over(P, After(P, E, n).w)
  {
    NeverFaults(P, E, 0);
    var n := EndsAfter(P, E, 0, After(P, E, 0).w);
  }
}
