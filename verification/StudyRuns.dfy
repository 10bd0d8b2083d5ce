/** Main results about the experiment: no handler ever faults, and every run ends. */
module StudyRuns {
  import opened StudyLedger
  import opened StudyRoles
  import opened MapSums
  import opened EventStudy
  import opened StudySafety
  import opened StudySteps
  import opened StudyStart
  import opened StudyLease
  import opened StudyDay
  import opened StudyJobs

  /** One event, whatever it is: no assertion fires, no ledger call raises, and the invariant is kept. */
  lemma HandleKeeps(P: Params, E: Env, w: World, kind: EventStudy.Kind)
    requires Sound(P, E) && Valid(P, w) && KindOk(w, w.now, kind) && TokenFree(w, TokenOf(kind))
    ensures Handle(P, E, w, kind).Next? && Valid(P, Handle(P, E, w, kind).w)
  {
    hide Valid, TokenFree, MomentOk, DayBoundary, LeaseStart, Arrive, ReadySettled, Expire, Finish, SettleUsage,
         ApproveRefund, PostRefund, Push, Payable, LeaseOk, DayOk;
    match kind
    case Day => DayBoundaryKeeps(P, E, w);
    case Lease => LeaseStartKeeps(P, E, w);
    case Arrival(id) => ArriveKeeps(P, E, w, id);
    case ReadyReceipt(at, node, source) => PushKeeps(P, w, w.now + P.review, ReadySettle(at, node, source));
    case ReadySettle(at, node, source) => ReadySettledKeeps(P, E, w, at, node, source);
    case QueueDeadline(id) => ExpireKeeps(P, w, id);
    case RequestDone(id, cancelled) => FinishKeeps(P, E, w, id, cancelled);
    case UsageSettle(id) => SettleUsageKeeps(P, E, w, id);
    case RefundApprove(id) => ApproveRefundKeeps(P, E, w, id);
    case RefundPost(id) => PostRefundKeeps(P, E, w, id);
  }

  lemma StepKeeps(P: Params, E: Env, w: World)
    requires Sound(P, E) && Valid(P, w) && !Over(P, w)
    ensures Step(P, E, w).Next? && Valid(P, Step(P, E, w).w)
  {
    hide Valid, TokenFree, MomentOk, Handle, KindOk, Pop, TokenOf;
    PopKeeps(P, w);
    HandleKeeps(P, E, Pop(w), w.events[Earliest(w.events)].kind);
  }

  lemma {:induction false} ArrivalsKeep(P: Params, E: Env, w: World, id: nat)
    requires Usable(P) && id <= P.days * P.requestsPerDay
    requires Valid(P, w) && w.now == 0 && w.jobs.requests == map[]
    requires forall j: nat :: id <= j ==> TokenFree(w, JobToken(j))
    ensures Valid(P, Arrivals(P, E, w, id)) && Arrivals(P, E, w, id).now == 0
    decreases P.days * P.requestsPerDay - id
  {
    hide Valid, TokenFree;
    if id < P.days * P.requestsPerDay {
      var v := if E.arrives(id) then Push(w, E.arrival(id), Arrival(id)) else w;
      if E.arrives(id) {
        PushKeeps(P, w, E.arrival(id), Arrival(id));
        forall j: nat | id + 1 <= j ensures TokenFree(v, JobToken(j)) {
          PushToken(w, E.arrival(id), Arrival(id), JobToken(j));
        }
      }
      ArrivalsKeep(P, E, v, id + 1);
    }
  }

  lemma InitialValid(P: Params, E: Env)
    requires Usable(P)
    ensures Valid(P, Initial(P, E))
  {
    hide Inv, Arrivals;
    var w := Blank(P);
    EmptyKeeps();
    assert Valid(P, w);
    PushKeeps(P, w, 0, Day);
    PushKeeps(P, Push(w, 0, Day), 0, Lease);
    ArrivalsKeep(P, E, Push(Push(w, 0, Day), 0, Lease), 0);
  }

  /**
   Main result: for all sound parameters, every scenario and all draws, no assertion of the event loop
   fires and no ledger call raises, after any number of events.
   */
  lemma {:induction false} NeverFaults(P: Params, E: Env, n: nat)
    requires Sound(P, E)
    ensures After(P, E, n).Next? && Valid(P, After(P, E, n).w)
  {
    hide Valid, MomentOk, Step, Initial, Over;
    if n == 0 {
      InitialValid(P, E);
    } else {
      NeverFaults(P, E, n - 1);
      var w := After(P, E, n - 1).w;
      if !Over(P, w) { StepKeeps(P, E, w); }
    }
  }

  // ---------------------------------------------------------------------------------------------
  // What this means for one world of a run

  /** The final audit of every run passes, and cash never falls below the shutdown reserve. */
  lemma {:induction false} EveryWorldAudits(P: Params, E: Env, n: nat, w: World)
    requires Sound(P, E) && After(P, E, n) == Next(w)
    ensures Audit(w.ledger) && P.Shutdown() <= w.cash.balance
  {
    hide MomentOk, After;
    NeverFaults(P, E, n);
    InvImpliesAudit(w.ledger);
  }

  /** A usage hold exists exactly for the queued, running and reviewed requests, of the request's owner and price. */
  lemma {:induction false} HoldsAreLiveRequests(P: Params, E: Env, n: nat, w: World, id: nat)
    requires Sound(P, E) && After(P, E, n) == Next(w)
    ensures UsageKey(id) in w.ledger.holds <==> id in w.jobs.requests && Live(w.jobs.requests[id].stage)
    ensures UsageKey(id) in w.ledger.holds ==>
              w.ledger.holds[UsageKey(id)] == Held(w.jobs.requests[id].owner, w.jobs.requests[id].price, ForUsage)
  {
    hide Inv, Schedule, FleetOk, Treasury, KeysPast, MomentOk, After;
    NeverFaults(P, E, n);
    assert RequestOk(w, id);
  }

  /** A run that has not ended has every node of its route reserved until exactly its end, within the node's contract. */
  lemma {:induction false} RunIsBooked(P: Params, E: Env, n: nat, w: World, s: nat)
    requires Sound(P, E) && After(P, E, n) == Next(w) && RunsAfterNow(w, s)
    ensures forall m :: m in RouteOf(w, s) ==>
              && m in w.fleet.busy && w.fleet.busy[m] == w.events[s].when
              && m in w.fleet.ready && w.events[s].when <= w.fleet.ready[m]
  {
    hide Inv, Schedule, Requests, Treasury, KeysPast, MomentOk, After;
    NeverFaults(P, E, n);
    assert BookedOk(w, s);
    forall m | m in RouteOf(w, s) ensures m in w.fleet.ready && w.events[s].when <= w.fleet.ready[m] { assert NodeOk(w, m); }
  }

  /**
   Runs that have not ended use different nodes, each reserved until exactly the run's end, and no
   reservation outlasts the contract of its node.
   */
  lemma {:induction false} NodesServeOneRun(P: Params, E: Env, n: nat, w: World, s: nat, x: nat)
    requires Sound(P, E) && After(P, E, n) == Next(w)
    requires RunsAfterNow(w, s) && RunsAfterNow(w, x) && s != x
    ensures forall m :: m in RouteOf(w, s) ==> m !in RouteOf(w, x)
    ensures forall m :: m in RouteOf(w, s) ==> m in w.fleet.busy && w.fleet.busy[m] == w.events[s].when
    ensures forall m :: m in w.fleet.busy ==> m in w.fleet.ready && w.fleet.busy[m] <= w.fleet.ready[m]
  {
    hide Inv, Schedule, Requests, Treasury, KeysPast, MomentOk, After;
    NeverFaults(P, E, n);
    assert Separate(w, s, x) && BookedOk(w, s);
    forall m | m in w.fleet.busy ensures m in w.fleet.ready && w.fleet.busy[m] <= w.fleet.ready[m] { assert NodeOk(w, m); }
  }
}
