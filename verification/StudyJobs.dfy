/** The life of a request: every hold, release, settlement and reversal the handlers count on succeeds. */
module StudyJobs {
  import opened StudyLedger
  import opened StudyRoles
  import opened MapSums
  import opened Selection
  import opened EventStudy
  import opened StudySafety
  import opened StudySteps
  import opened StudyStart
  import opened StudyLease

  lemma ReadySettledKeeps(P: Params, E: Env, w: World, at: nat, node: nat, source: Source)
    requires Valid(P, w) && Payable(w.ledger, at, node, source) && TokenFree(w, ReadyToken(at, node))
    ensures ReadySettled(P, E, w, at, node, source).Next? && Valid(P, ReadySettled(P, E, w, at, node, source).w)
  {
    hide Inv, RoleOf, Schedule, Requests, FleetOk, Treasury, TokenFree, AfterIssue, AfterPayReady;
    var key := ReadyKey(at, node);
    PushKeeps(P, w, w.now + RETRY, ReadySettle(at, node, source));
    if source == Issuance {
      IssueRole(w.ledger, key);
      LedgerKeeps(P, w, AfterIssue(w.ledger, key).0, key);
    } else {
      PayReadyRole(w.ledger, key, Node(node));
      LedgerKeeps(P, w, AfterPayReady(w.ledger, key, Node(node)).0, key);
    }
  }

  /** A request that was never accepted has neither a deadline nor a ledger entry. */
  lemma UnknownIsFresh(P: Params, w: World, id: nat)
    requires Valid(P, w) && id !in w.jobs.requests
    ensures TokenFree(w, DeadlineToken(id))
    ensures id !in w.jobs.waiting && RoleOf(w.ledger, UsageKey(id)) == Fresh && Unreversed(w.ledger, id)
  {
    hide Inv, FleetOk, KeysPast, Treasury, RoleOf;
    assert RequestOk(w, id);
    forall s | s in w.events ensures TokenOf(w.events[s].kind) != DeadlineToken(id) { KindOfEvent(w, s); }
  }

  lemma AcceptKeeps(P: Params, E: Env, w: World, id: nat, price: nat)
    requires Valid(P, w) && id !in w.jobs.requests && TokenFree(w, JobToken(id))
    requires (E.owner(id).Node? || E.owner(id).User?) && price <= w.ledger.Balance(E.owner(id))
    ensures var (t, reply) := AfterHold(w.ledger, UsageKey(id), E.owner(id), price, ForUsage);
            var q := Request(E.owner(id), E.model(id), w.now, w.now + P.queueSeconds, price, Queued, []);
            var queued := w.(ledger := t, jobs := Jobs(Put(w.jobs.requests, id, q), w.jobs.waiting + {id}));
            reply == Bool(true) && Valid(P, Push(queued, q.deadline, QueueDeadline(id)))
  {
    hide Inv, RoleOf, Schedule, Requests, FleetOk, KeysPast, Treasury, TokenFree, AfterHold, Push;
    UnknownIsFresh(P, w, id);
    HoldRole(w.ledger, UsageKey(id), E.owner(id), price, ForUsage);
    var t := AfterHold(w.ledger, UsageKey(id), E.owner(id), price, ForUsage).0;
    var q := Request(E.owner(id), E.model(id), w.now, w.now + P.queueSeconds, price, Queued, []);
    var queued := w.(ledger := t, jobs := Jobs(Put(w.jobs.requests, id, q), w.jobs.waiting + {id}));
    JobKeeps(P, w, queued, id);
    SameEvents(w, queued);
    PushKeeps(P, queued, q.deadline, QueueDeadline(id));
  }

  lemma ArriveKeeps(P: Params, E: Env, w: World, id: nat)
    requires Sound(P, E) && Valid(P, w) && id !in w.jobs.requests && TokenFree(w, JobToken(id))
    ensures Arrive(P, E, w, id).Next? && Valid(P, Arrive(P, E, w, id).w)
  {
    hide Valid, MomentOk, TokenFree, AfterHold, TryStart;
    var price := if E.model(id) == LargeModel then P.largePrice else P.compactPrice;
    if price <= w.ledger.Balance(E.owner(id)) {
      AcceptKeeps(P, E, w, id, price);
      var q := Request(E.owner(id), E.model(id), w.now, w.now + P.queueSeconds, price, Queued, []);
      var t := AfterHold(w.ledger, UsageKey(id), E.owner(id), price, ForUsage).0;
      var queued := w.(ledger := t, jobs := Jobs(Put(w.jobs.requests, id, q), w.jobs.waiting + {id}));
      TryStartKeeps(P, E, Push(queued, q.deadline, QueueDeadline(id)), id);
    }
  }

  lemma HoldOf(P: Params, w: World, id: nat)
    requires Valid(P, w) && id in w.jobs.requests && Live(w.jobs.requests[id].stage)
    ensures var q := w.jobs.requests[id];
            RoleOf(w.ledger, UsageKey(id)) == Holds(Held(q.owner, q.price, ForUsage)) && Unreversed(w.ledger, id)
            && (id in w.jobs.waiting <==> q.stage == Queued)
  {
    hide Inv, Schedule, FleetOk, KeysPast, Treasury, RoleOf;
    assert RequestOk(w, id);
  }

  /** Releasing the hold of a live request ends it. */
  lemma ReleaseKeeps(P: Params, w: World, id: nat, stage: Stage)
    requires Valid(P, w) && id in w.jobs.requests && Live(w.jobs.requests[id].stage) && TokenFree(w, JobToken(id))
    requires !Live(stage) && stage != Finalized
    ensures var (t, reply) := AfterRelease(w.ledger, UsageKey(id));
            var left := w.(ledger := t, jobs := w.jobs.(waiting := w.jobs.waiting - {id}));
            !reply.Raised? && Valid(P, WithStage(left, id, stage))
  {
    hide Inv, RoleOf, Schedule, Requests, FleetOk, KeysPast, Treasury, TokenFree, AfterRelease;
    HoldOf(P, w, id);
    ReleaseRole(w.ledger, UsageKey(id));
    var left := w.(ledger := AfterRelease(w.ledger, UsageKey(id)).0, jobs := w.jobs.(waiting := w.jobs.waiting - {id}));
    JobKeeps(P, w, WithStage(left, id, stage), id);
  }

  lemma NotWaiting(w: World, id: nat)
    requires id !in w.jobs.waiting
    ensures w.jobs.(waiting := w.jobs.waiting - {id}) == w.jobs
  {
  }

  lemma ExpireKeeps(P: Params, w: World, id: nat)
    requires Valid(P, w) && id in w.jobs.requests
    ensures Expire(w, id).Next? && Valid(P, Expire(w, id).w)
  {
    hide Valid, TokenFree, AfterRelease;
    if w.jobs.requests[id].stage == Queued {
      QueuedIdle(P, w, id);
      HoldOf(P, w, id);
      ReleaseKeeps(P, w, id, QueueExpired);
    }
  }

  lemma QueuedIdle(P: Params, w: World, id: nat)
    requires Valid(P, w) && InStage(w, id, Queued)
    ensures TokenFree(w, JobToken(id))
  {
    hide Schedule;
    QueuedIsIdle(w, id);
  }

  /** A completion never frees a reservation that lasts longer. */
  lemma UnbookKeeps(P: Params, w: World, route: seq<nat>)
    requires Valid(P, w)
    ensures Valid(P, Unbook(w, route))
    ensures forall n :: n in w.fleet.busy && w.fleet.busy[n] != w.now ==> n in Unbook(w, route).fleet.busy
  {
    hide Inv, CashOk, PlanOk, RequestOk, RoleOf, Payable, InStage, Unreversed, TokenOf, DayOk;
    var v := Unbook(w, route);
    forall s ensures EventOk(v, s) {
      assert EventOk(w, s);
      if s in w.events { BookedKind(w, v, w.events[s].when, w.events[s].kind); }
    }
    forall j ensures RequestOk(v, j) { assert RequestOk(w, j); RequestSame(w, v, j); }
    forall n ensures NodeOk(v, n) { assert NodeOk(w, n); }
    forall s ensures BookedOk(v, s) { assert BookedOk(w, s); }
    forall s, x ensures Separate(v, s, x) { assert Separate(w, s, x); }
  }

  lemma CompleteKeeps(P: Params, E: Env, w: World, id: nat, cancelled: bool)
    requires Valid(P, w) && InStage(w, id, Running) && TokenFree(w, JobToken(id))
    ensures Complete(P, E, w, id, cancelled).Next? && Valid(P, Complete(P, E, w, id, cancelled).w)
  {
    hide Inv, RoleOf, Schedule, Requests, FleetOk, KeysPast, Treasury, TokenFree, AfterRelease, Push;
    HoldOf(P, w, id);
    if cancelled || E.fails(id) {
      NotWaiting(w, id);
      ReleaseKeeps(P, w, id, if cancelled then CancelledRun else FailedRun);
    } else {
      var v := WithStage(w, id, PendingReview);
      JobKeeps(P, w, v, id);
      SameEvents(w, v);
      PushKeeps(P, v, w.now + P.review, UsageSettle(id));
    }
  }

  lemma FinishKeeps(P: Params, E: Env, w: World, id: nat, cancelled: bool)
    requires Usable(P) && Valid(P, w) && InStage(w, id, Running) && TokenFree(w, JobToken(id))
    ensures Finish(P, E, w, id, cancelled).Next? && Valid(P, Finish(P, E, w, id, cancelled).w)
  {
    hide Valid, TokenFree, Complete, StartAll, Usable;
    var unbooked := Unbook(w, w.jobs.requests[id].route);
    UnbookKeeps(P, w, w.jobs.requests[id].route);
    SameEvents(w, unbooked);
    CompleteKeeps(P, E, unbooked, id, cancelled);
    StartWaitingKeeps(P, E, Complete(P, E, unbooked, id, cancelled).w);
  }

  /** The charge is taken exactly from the hold, whatever targets the last lease computed. */
  lemma ChargeKeeps(P: Params, w: World, id: nat)
    requires Usable(P) && Valid(P, w) && InStage(w, id, PendingReview) && TokenFree(w, JobToken(id))
    ensures var (t, reply) :=
              AfterFinalize(w.ledger, UsageKey(id), w.plan.floor, w.plan.working, w.plan.protected, P.priority);
            var v := WithStage(w.(ledger := t), id, Finalized);
            !reply.Raised? && Valid(P, v) && KindOk(v, v.now + HOUR, RefundApprove(id)) && TokenFree(v, JobToken(id))
  {
    hide Inv, RoleOf, Schedule, Requests, FleetOk, KeysPast, TokenFree, AfterFinalize;
    HoldOf(P, w, id);
    FinalizeRole(w.ledger, UsageKey(id), w.plan.floor, w.plan.working, w.plan.protected, P.priority);
    var t := AfterFinalize(w.ledger, UsageKey(id), w.plan.floor, w.plan.working, w.plan.protected, P.priority).0;
    var v := WithStage(w.(ledger := t), id, Finalized);
    JobKeeps(P, w, v, id);
    SameEvents(w, v);
  }

  lemma SettleUsageKeeps(P: Params, E: Env, w: World, id: nat)
    requires Usable(P) && Valid(P, w) && InStage(w, id, PendingReview) && TokenFree(w, JobToken(id))
    ensures SettleUsage(P, E, w, id).Next? && Valid(P, SettleUsage(P, E, w, id).w)
  {
    hide Valid, TokenFree, AfterRelease, AfterFinalize, Push, Usable, RoleOf, Unreversed;
    if !E.quorum(w.now) {
      PushKeeps(P, w, w.now + RETRY, UsageSettle(id));
    } else if E.detected(id) {
      HoldOf(P, w, id);
      NotWaiting(w, id);
      ReleaseKeeps(P, w, id, RefundedEarly);
    } else {
      ChargeKeeps(P, w, id);
      var t := AfterFinalize(w.ledger, UsageKey(id), w.plan.floor, w.plan.working, w.plan.protected, P.priority).0;
      PushKeeps(P, WithStage(w.(ledger := t), id, Finalized), w.now + HOUR, RefundApprove(id));
    }
  }

  lemma ApproveRefundKeeps(P: Params, E: Env, w: World, id: nat)
    requires Valid(P, w) && KindOk(w, w.now, RefundApprove(id)) && TokenFree(w, JobToken(id))
    ensures ApproveRefund(E, w, id).Next? && Valid(P, ApproveRefund(E, w, id).w)
  {
    hide Inv, RoleOf, Schedule, Requests, FleetOk, KeysPast, Treasury, TokenFree, AfterApprove, Push;
    PushKeeps(P, w, w.now + RETRY, RefundApprove(id));
    PushKeeps(P, w, w.now + HOUR, RefundApprove(id));
    ApproveRole(w.ledger, ReversalKey(id), UsageKey(id));
    var (t, reply) := AfterApprove(w.ledger, ReversalKey(id), UsageKey(id));
    var v := w.(ledger := t);
    SameEvents(w, v);
    if reply == Bool(true) {
      FinalizedOk(w, v, id);
      JobKeeps(P, w, v, id);
      PushKeeps(P, v, w.now + RETRY, RefundPost(id));
    }
  }

  lemma FinalizedOk(w: World, v: World, id: nat)
    requires Requests(w) && InStage(w, id, Finalized) && v.jobs == w.jobs && !RoleOf(v.ledger, UsageKey(id)).Holds?
    ensures RequestOk(v, id)
  {
    hide RoleOf;
    assert RequestOk(w, id);
  }

  lemma PostRefundKeeps(P: Params, E: Env, w: World, id: nat)
    requires Valid(P, w) && KindOk(w, w.now, RefundPost(id)) && TokenFree(w, JobToken(id))
    ensures PostRefund(E, w, id).Next? && Valid(P, PostRefund(E, w, id).w)
  {
    hide Inv, RoleOf, Schedule, FleetOk, KeysPast, Treasury, TokenFree, AfterPost, Push;
    PushKeeps(P, w, w.now + RETRY, RefundPost(id));
    PostRole(w.ledger, ReversalKey(id));
    var v := w.(ledger := AfterPost(w.ledger, ReversalKey(id)).0);
    assert RequestOk(w, id);
    FinalizedOk(w, v, id);
    JobKeeps(P, w, v, id);
  }
}
