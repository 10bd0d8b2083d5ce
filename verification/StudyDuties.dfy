/** Nothing the experiment owes is ever forgotten: whatever is unfinished has its event pending. */
module StudyDuties {
  import opened StudyLedger
  import opened StudyRoles
  import opened MapSums
  import opened Selection
  import opened EventStudy
  import opened StudySafety
  import opened StudySteps
  import opened StudyStart
  import opened StudyJobs
  import opened StudyRuns

  // ---------------------------------------------------------------------------------------------
  // What is owed and what keeps it from being forgotten

  /** The charge of a request that will turn out faulty has not been returned yet. */
  predicate RefundOpen(s: State, id: nat)
  {
    RoleOf(s, ReversalKey(id)) == Fresh || RoleOf(s, ReversalKey(id)).Reverses?
  }

  /** What has to happen some time: the next day and lease, open readiness payments, deadlines, runs, reviews, refunds. */
  predicate Owes(P: Params, E: Env, w: World, token: Token)
  {
    match token
    case DayToken => w.now < P.End()
    case LeaseToken => w.now < P.End()
    case ReadyToken(at, n) => RoleOf(w.ledger, ReadyKey(at, n)).Promises? || RoleOf(w.ledger, ReadyKey(at, n)).Holds?
    case DeadlineToken(id) => InStage(w, id, Queued)
    case JobToken(id) =>
      InStage(w, id, Running) || InStage(w, id, PendingReview)
      || (InStage(w, id, Finalized) && E.late(id) && RefundOpen(w.ledger, id))
  }

  /** The pending event s will do it; a deadline event stands at the request's deadline. */
  predicate Does(w: World, s: nat, token: Token)
  {
    && s in w.events && TokenOf(w.events[s].kind) == token
    && (token.DeadlineToken? ==> token.id in w.jobs.requests && w.events[s].when == w.jobs.requests[token.id].deadline)
  }

  ghost predicate Backed(w: World, token: Token) { exists s :: Does(w, s, token) }

  ghost predicate Driven(P: Params, E: Env, w: World)
  {
    forall token :: Owes(P, E, w, token) ==> Backed(w, token)
  }

  // ---------------------------------------------------------------------------------------------
  // Changes that forget nothing

  ghost predicate Numbered(w: World) { forall s :: s in w.events ==> s <= w.serial }

  predicate SameDeadline(w: World, v: World, id: nat)
  {
    id in w.jobs.requests ==> id in v.jobs.requests && v.jobs.requests[id].deadline == w.jobs.requests[id].deadline
  }

  /** No pending event was dropped or moved, and deadlines stayed. */
  ghost predicate Grows(w: World, v: World)
  {
    && v.now == w.now && Numbered(v)
    && (forall s :: s in w.events ==> s in v.events && v.events[s] == w.events[s])
    && (forall id :: SameDeadline(w, v, id))
  }

  /** All that is owed afterwards was owed before, or has its event; what was owed for `done` no longer counts. */
  ghost predicate Moves(P: Params, E: Env, w: World, v: World, done: set<Token>)
  {
    && Grows(w, v)
    && forall token :: Owes(P, E, v, token) ==> (Owes(P, E, w, token) && token !in done) || Backed(v, token)
  }

  lemma BackedGrows(w: World, v: World, token: Token)
    requires Grows(w, v) && Backed(w, token)
    ensures Backed(v, token)
  {
    hide Numbered;
    var s :| Does(w, s, token);
    if token.DeadlineToken? { assert SameDeadline(w, v, token.id); }
    assert Does(v, s, token);
  }

  lemma GrowsOn(u: World, v: World, w: World)
    requires Grows(u, v) && Grows(v, w)
    ensures Grows(u, w)
  {
    hide Numbered, TokenOf;
    forall id ensures SameDeadline(u, w, id) { assert SameDeadline(u, v, id) && SameDeadline(v, w, id); }
  }

  lemma MovesOn(P: Params, E: Env, u: World, v: World, w: World, done: set<Token>)
    requires Moves(P, E, u, v, {}) && Moves(P, E, v, w, done)
    ensures Moves(P, E, u, w, done) && Numbered(w)
  {
    hide Owes, Backed, Numbered;
    GrowsOn(u, v, w);
    forall token | Owes(P, E, w, token) && !Backed(w, token) ensures Owes(P, E, u, token) && token !in done {
      if Backed(v, token) { BackedGrows(v, w, token); }
    }
  }

  lemma ThenMoves(P: Params, E: Env, u: World, v: World, w: World, done: set<Token>)
    requires Moves(P, E, u, v, done) && Moves(P, E, v, w, {})
    ensures Moves(P, E, u, w, done)
  {
    hide Owes, Backed, Numbered;
    GrowsOn(u, v, w);
    forall token | Owes(P, E, w, token) && !Backed(w, token) ensures Owes(P, E, u, token) && token !in done {
      if Backed(v, token) { BackedGrows(v, w, token); }
    }
  }

  /** Only the duties listed may be new. */
  ghost predicate Besides(P: Params, E: Env, w: World, v: World, open: set<Token>)
  {
    && Grows(w, v)
    && forall token :: token !in open && Owes(P, E, v, token) ==> Owes(P, E, w, token)
  }

  /** New duties are no loss when their events are pending in the end. */
  lemma MovesBy(P: Params, E: Env, u: World, v: World, w: World, open: set<Token>)
    requires Besides(P, E, u, v, open) && Besides(P, E, v, w, {})
    requires forall token :: token in open && Owes(P, E, v, token) ==> Backed(w, token)
    ensures Moves(P, E, u, w, open)
  {
    hide Owes, Backed, Grows;
    GrowsOn(u, v, w);
  }

  lemma SameBesides(P: Params, E: Env, w: World, v: World)
    requires Numbered(w) && v.now == w.now && v.events == w.events && v.serial == w.serial && v.jobs == w.jobs
    requires v.ledger == w.ledger
    ensures Besides(P, E, w, v, {})
  {
    hide RoleOf;
    forall id ensures SameDeadline(w, v, id) { }
    forall token ensures Owes(P, E, v, token) ==> Owes(P, E, w, token) { }
  }

  lemma PushBacks(P: Params, E: Env, w: World, when: nat, kind: EventStudy.Kind)
    requires Numbered(w)
    requires kind.QueueDeadline? ==> kind.id in w.jobs.requests && when == w.jobs.requests[kind.id].deadline
    ensures Besides(P, E, w, Push(w, when, kind), {}) && Backed(Push(w, when, kind), TokenOf(kind))
  {
    hide RoleOf;
    var v := Push(w, when, kind);
    assert w.serial + 1 !in w.events;
    assert Does(v, w.serial + 1, TokenOf(kind));
    forall id ensures SameDeadline(w, v, id) { }
    forall token ensures Owes(P, E, v, token) ==> Owes(P, E, w, token) { }
  }

  /** A change to one request, and to ledger entries of its own. */
  lemma JobBesides(P: Params, E: Env, w: World, v: World, id: nat)
    requires Numbered(w) && v == w.(ledger := v.ledger, jobs := v.jobs)
    requires SameElsewhere(w.ledger, v.ledger, KeysOf(id)) && SameOtherRequests(w, v, id) && SameDeadline(w, v, id)
    ensures Besides(P, E, w, v, {JobToken(id), DeadlineToken(id)})
  {
    hide RoleOf;
    forall j ensures SameDeadline(w, v, j) { assert j != id ==> SameRequest(w, v, j); }
    forall token | token !in {JobToken(id), DeadlineToken(id)} && Owes(P, E, v, token) ensures Owes(P, E, w, token) {
      if token.JobToken? || token.DeadlineToken? { assert SameRequest(w, v, token.id); }
    }
  }

  /** A change to one ledger entry that belongs to no request. */
  lemma EntryBesides(P: Params, E: Env, w: World, t: State, key: Key)
    requires Numbered(w) && SameElsewhere(w.ledger, t, {key}) && (key.ReadyKey? || key.TreasuryKey? || key.GrantKey?)
    ensures Besides(P, E, w, w.(ledger := t), if key.ReadyKey? then {ReadyToken(key.at, key.node)} else {})
  {
    hide RoleOf;
    var v := w.(ledger := t);
    forall j ensures SameDeadline(w, v, j) { }
    forall token | token !in (if key.ReadyKey? then {ReadyToken(key.at, key.node)} else {}) && Owes(P, E, v, token)
      ensures Owes(P, E, w, token) { }
  }

  // ---------------------------------------------------------------------------------------------
  // Starting requests

  lemma {:induction false} BookBesides(P: Params, E: Env, w: World, route: seq<nat>, until: nat)
    ensures var r := Book(w, route, until); r.Next? ==> r.w == w.(fleet := r.w.fleet)
    decreases |route|
  {
    if route != [] && w.fleet.BusyUntil(route[0]) <= w.now {
      BookBesides(P, E, w.(fleet := w.fleet.(busy := Put(w.fleet.busy, route[0], until))), route[1..], until);
    }
  }

  lemma StartedBesides(P: Params, E: Env, w: World, id: nat, route: seq<nat>)
    requires Numbered(w) && InStage(w, id, Queued)
    ensures var q := w.jobs.requests[id].(route := route, stage := Running);
            Besides(P, E, w, w.(jobs := Jobs(Put(w.jobs.requests, id, q), w.jobs.waiting - {id})), {JobToken(id)})
  {
    hide RoleOf, Grows;
    var q := w.jobs.requests[id].(route := route, stage := Running);
    var v := w.(jobs := Jobs(Put(w.jobs.requests, id, q), w.jobs.waiting - {id}));
    JobBesides(P, E, w, v, id);
  }

  lemma TryStartMoves(P: Params, E: Env, w: World, id: nat)
    requires Numbered(w) && TryStart(P, E, w, id).Next?
    ensures Moves(P, E, w, TryStart(P, E, w, id).w, {})
  {
    hide RouteFor, Book, Owes, Backed, Grows, Push, Numbered, Occupied, Besides;
    SameBesides(P, E, w, w);
    MovesBy(P, E, w, w, w, {});
    var v := TryStart(P, E, w, id).w;
    if v != w {
      var q := w.jobs.requests[id];
      var route := RouteFor(P, w, q.model, Duration(P, q.model));
      var until := w.now + Occupied(P, E, id, q.model);
      var started := w.(jobs := Jobs(Put(w.jobs.requests, id, q.(route := route, stage := Running)), w.jobs.waiting - {id}));
      StartedBesides(P, E, w, id, route);
      BookBesides(P, E, started, route, until);
      var booked := Book(started, route, until).w;
      NumberedSame(started, booked);
      NumberedSame(w, started);
      SameBesides(P, E, started, booked);
      PushBacks(P, E, booked, until, RequestDone(id, E.cancels(id)));
      BesidesOn(P, E, started, booked, v);
      MovesBy(P, E, w, started, v, {JobToken(id)});
    }
  }

  lemma NumberedSame(w: World, v: World)
    requires v.events == w.events && v.serial == w.serial
    ensures Numbered(v) <==> Numbered(w)
  {
  }

  lemma BesidesOn(P: Params, E: Env, u: World, v: World, w: World)
    requires Besides(P, E, u, v, {}) && Besides(P, E, v, w, {})
    ensures Besides(P, E, u, w, {})
  {
    hide Grows, Owes;
    GrowsOn(u, v, w);
  }

  lemma {:induction false} StartAllMoves(P: Params, E: Env, w: World, ids: seq<nat>)
    requires Numbered(w) && StartAll(P, E, w, ids).Next?
    ensures Moves(P, E, w, StartAll(P, E, w, ids).w, {})
    decreases |ids|
  {
    hide TryStart, Owes, Backed, Numbered;
    if ids == [] {
      SameBesides(P, E, w, w);
    } else {
      TryStartMoves(P, E, w, ids[0]);
      var v := TryStart(P, E, w, ids[0]).w;
      StartAllMoves(P, E, v, ids[1..]);
      MovesOn(P, E, w, v, StartAll(P, E, v, ids[1..]).w, {});
    }
  }

  // ---------------------------------------------------------------------------------------------
  // Contracting and paying readiness

  lemma FundNodeMoves(P: Params, E: Env, w: World, n: nat, source: Source)
    requires Usable(P) && Numbered(w) && FundNode(P, E, w, n, source).Next?
    ensures Moves(P, E, w, FundNode(P, E, w, n, source).w, {})
  {
    hide Owes, Backed, Grows, Push, Numbered, Besides, AfterPromise, AfterHold, Ceiling, SameElsewhere;
    var key := ReadyKey(w.now, n);
    var t := if source == Issuance then AfterPromise(w.ledger, key, Node(n), P.Rate(n), Ceiling(P, E, w), Contributor).0
             else AfterHold(w.ledger, key, source.Account(), P.Rate(n), ForReady).0;
    PromiseTouches(w.ledger, key, Node(n), P.Rate(n), Ceiling(P, E, w), Contributor);
    HoldTouches(w.ledger, key, source.Account(), P.Rate(n), ForReady);
    EntryBesides(P, E, w, t, key);
    var paid := w.(ledger := t);
    var contracted := paid.(fleet := Fleet(Put(w.fleet.ready, n, w.now + P.lease), w.fleet.busy,
                                           Put(w.fleet.selected, n, w.fleet.Selections(n) + 1)));
    NumberedSame(w, paid);
    NumberedSame(w, contracted);
    SameBesides(P, E, paid, contracted);
    PushBacks(P, E, contracted, w.now + P.lease, ReadyReceipt(w.now, n, source));
    BesidesOn(P, E, paid, contracted, Push(contracted, w.now + P.lease, ReadyReceipt(w.now, n, source)));
    MovesBy(P, E, w, paid, Push(contracted, w.now + P.lease, ReadyReceipt(w.now, n, source)), {ReadyToken(w.now, n)});
  }

  lemma PromiseTouches(s: State, key: Key, recipient: Account, value: int, ceiling: int, kind: StudyLedger.Kind)
    ensures SameElsewhere(s, AfterPromise(s, key, recipient, value, ceiling, kind).0, {key})
  {
    hide Promisable;
  }

  lemma HoldTouches(s: State, key: Key, owner: Account, value: int, purpose: Purpose)
    ensures SameElsewhere(s, AfterHold(s, key, owner, value, purpose).0, {key})
  {
  }

  lemma IssueTouches(s: State, key: Key)
    ensures SameElsewhere(s, AfterIssue(s, key).0, {key})
  {
  }

  lemma {:induction false} FundNodesMoves(P: Params, E: Env, w: World, nodes: seq<nat>, source: Source)
    requires Usable(P) && Numbered(w) && FundNodes(P, E, w, nodes, source).Next?
    ensures Moves(P, E, w, FundNodes(P, E, w, nodes, source).w, {})
    decreases |nodes|
  {
    hide FundNode, Owes, Backed, Numbered;
    if nodes == [] {
      SameBesides(P, E, w, w);
    } else {
      FundNodeMoves(P, E, w, nodes[0], source);
      var v := FundNode(P, E, w, nodes[0], source).w;
      FundNodesMoves(P, E, v, nodes[1..], source);
      MovesOn(P, E, w, v, FundNodes(P, E, v, nodes[1..], source).w, {});
    }
  }

  lemma {:induction false} FundGroupsMoves(
    P: Params, E: Env, w: World, groups: seq<seq<nat>>, essentials: seq<nat>, floor: int)
    requires Usable(P) && Numbered(w) && FundGroups(P, E, w, groups, essentials, floor).Next?
    ensures Moves(P, E, w, FundGroups(P, E, w, groups, essentials, floor).w, {})
    decreases |groups|
  {
    hide ChooseSource, FundNodes, Owes, Backed, Numbered;
    if groups == [] {
      SameBesides(P, E, w, w);
    } else {
      match ChooseSource(P, E, w, groups[0], essentials, floor)
      case Unfunded => FundGroupsMoves(P, E, w, groups[1..], essentials, floor);
      case Funded(source) =>
        FundNodesMoves(P, E, w, groups[0], source);
        var v := FundNodes(P, E, w, groups[0], source).w;
        FundGroupsMoves(P, E, v, groups[1..], essentials, floor);
        MovesOn(P, E, w, v, FundGroups(P, E, v, groups[1..], essentials, floor).w, {});
    }
  }

  /** Only the fleet, the plan, the cash and the market differ. */
  lemma AsideMoves(P: Params, E: Env, w: World, v: World)
    requires Numbered(w) && v == w.(fleet := v.fleet, plan := v.plan, cash := v.cash, market := v.market)
    ensures Moves(P, E, w, v, {}) && Numbered(v)
  {
    hide Owes, Backed;
    SameBesides(P, E, w, v);
  }

  lemma ContractMoves(P: Params, E: Env, w: World)
    requires Usable(P) && Numbered(w) && Contract(P, E, w).Next?
    ensures Moves(P, E, w, Contract(P, E, w).w, {})
  {
    hide Essentials, Wanted, Targets, Groups, FundGroups, Moves, Numbered, Uncovered;
    var essentials, wanted := Essentials(P, E, w), Wanted(P, E, w);
    var (floor, working, protected) := Targets(P, essentials, wanted);
    var planned := w.(plan := w.plan.(floor := floor, working := working, protected := protected));
    AsideMoves(P, E, w, planned);
    AsideMoves(P, E, w, planned.(plan := planned.plan.(stableSince := w.now)));
    if E.quorum(w.now) && w.now < w.cash.paidUntil && essentials != [] {
      FundGroupsMoves(P, E, planned, Groups(P, wanted), essentials, floor);
      var funded := FundGroups(P, E, planned, Groups(P, wanted), essentials, floor).w;
      MovesOn(P, E, w, planned, funded, {});
      MovedIsNumbered(P, E, planned, funded, {});
      AsideMoves(P, E, funded, funded.(plan := funded.plan.(stableSince := funded.now)));
      MovesOn(P, E, w, funded, funded.(plan := funded.plan.(stableSince := funded.now)), {});
    }
  }

  lemma MovedIsNumbered(P: Params, E: Env, w: World, v: World, done: set<Token>)
    requires Moves(P, E, w, v, done)
    ensures Numbered(v) && v.now == w.now
  {
    hide Numbered, Owes, Backed;
  }

  lemma LeaseStartMoves(P: Params, E: Env, w: World)
    requires Usable(P) && Numbered(w) && LeaseStart(P, E, w).Next?
    ensures Moves(P, E, w, LeaseStart(P, E, w).w, {LeaseToken})
  {
    hide Contract, StartAll, Moves, Numbered, Push, Besides, Backed;
    if w.now >= P.End() {
      IdleMoves(P, E, w, LeaseToken);
    } else {
      var empty := Vacate(P, w);
      AsideMoves(P, E, w, empty);
      ContractMoves(P, E, empty);
      var contracted := Contract(P, E, empty).w;
      MovesOn(P, E, w, empty, contracted, {});
      MovedIsNumbered(P, E, w, contracted, {});
      StartAllMoves(P, E, contracted, Ascending(contracted.jobs.waiting));
      var started := StartAll(P, E, contracted, Ascending(contracted.jobs.waiting)).w;
      MovesOn(P, E, w, contracted, started, {});
      MovedIsNumbered(P, E, w, started, {});
      PushMoves(P, E, started, started.now + P.lease, Lease);
      MovesOn(P, E, w, started, Push(started, started.now + P.lease, Lease), {LeaseToken});
    }
  }

  lemma PushMoves(P: Params, E: Env, w: World, when: nat, kind: EventStudy.Kind)
    requires Numbered(w)
    requires kind.QueueDeadline? ==> kind.id in w.jobs.requests && when == w.jobs.requests[kind.id].deadline
    ensures Moves(P, E, w, Push(w, when, kind), {TokenOf(kind)})
  {
    hide Owes, Grows, Backed;
    PushBacks(P, E, w, when, kind);
  }

  /** Nothing is done, and nothing was owed for the event's token. */
  lemma IdleMoves(P: Params, E: Env, w: World, token: Token)
    requires Numbered(w) && !Owes(P, E, w, token)
    ensures Moves(P, E, w, w, {token})
  {
    hide Owes, Backed;
    SameBesides(P, E, w, w);
  }

  lemma ReadySettledMoves(P: Params, E: Env, w: World, at: nat, node: nat, source: Source)
    requires Valid(P, w) && Payable(w.ledger, at, node, source) && Numbered(w)
    ensures ReadySettled(P, E, w, at, node, source).Next?
            ==> Moves(P, E, w, ReadySettled(P, E, w, at, node, source).w, {ReadyToken(at, node)})
  {
    hide Inv, RoleOf, Schedule, Requests, FleetOk, KeysPast, Treasury, AfterIssue, AfterPayReady, Push, Numbered, SameElsewhere, Moves;
    PushMoves(P, E, w, w.now + RETRY, ReadySettle(at, node, source));
    var key := ReadyKey(at, node);
    var t := if source == Issuance then AfterIssue(w.ledger, key).0 else AfterPayReady(w.ledger, key, Node(node)).0;
    if source == Issuance { IssueRole(w.ledger, key); } else { PayReadyRole(w.ledger, key, Node(node)); }
    EntryDone(P, E, w, t, key);
  }

  lemma EntryDone(P: Params, E: Env, w: World, t: State, key: Key)
    requires Numbered(w) && SameElsewhere(w.ledger, t, {key}) && key.ReadyKey? && RoleOf(t, key) == Done
    ensures Moves(P, E, w, w.(ledger := t), {ReadyToken(key.at, key.node)})
  {
    hide RoleOf, Grows, Backed;
    EntryBesides(P, E, w, t, key);
  }

  // ---------------------------------------------------------------------------------------------
  // Days

  lemma GrantMoves(P: Params, E: Env, w: World, key: Key, recipient: Account, value: int, ceiling: int, kind: StudyLedger.Kind)
    requires Numbered(w) && (key.TreasuryKey? || key.GrantKey?) && Grant(w, key, recipient, value, ceiling, kind).Next?
    ensures Moves(P, E, w, Grant(w, key, recipient, value, ceiling, kind).w, {})
  {
    hide AfterPromise, AfterIssue, Owes, Grows, Backed, Numbered, RoleOf;
    var v := Grant(w, key, recipient, value, ceiling, kind).w;
    var promised := AfterPromise(w.ledger, key, recipient, value, ceiling, kind).0;
    PromiseTouches(w.ledger, key, recipient, value, ceiling, kind);
    IssueTouches(promised, key);
    assert SameElsewhere(w.ledger, v.ledger, {key});
    EntryBesides(P, E, w, v.ledger, key);
  }

  lemma {:induction false} GrantUsersMoves(P: Params, E: Env, w: World, grant: int, index: nat)
    requires Usable(P) && index <= P.accounts && Numbered(w) && GrantUsers(P, E, w, grant, index).Next?
    ensures Moves(P, E, w, GrantUsers(P, E, w, grant, index).w, {})
    decreases P.accounts - index
  {
    hide Grant, Ceiling, Moves, Numbered;
    AsideMoves(P, E, w, w);
    if index < P.accounts {
      var value := grant / P.accounts + if index < grant % P.accounts then 1 else 0;
      GrantMoves(P, E, w, GrantKey(w.now, index), User(index), value, Ceiling(P, E, w), GrantKind);
      var v := Grant(w, GrantKey(w.now, index), User(index), value, Ceiling(P, E, w), GrantKind).w;
      MovedIsNumbered(P, E, w, v, {});
      GrantUsersMoves(P, E, v, grant, index + 1);
      MovesOn(P, E, w, v, GrantUsers(P, E, v, grant, index + 1).w, {});
    }
  }

  lemma BootstrapMoves(P: Params, E: Env, w: World)
    requires Usable(P) && Numbered(w) && Bootstrap(P, E, w).Next?
    ensures Moves(P, E, w, Bootstrap(P, E, w).w, {})
  {
    hide Grant, GrantUsers, Ceiling, Moves, Numbered, Max, Min;
    AsideMoves(P, E, w, w);
    if CanIssue(P, w) && E.quorum(w.now) {
      var ceiling := Ceiling(P, E, w);
      var room := Max(0, ceiling - w.ledger.Exposure());
      var treasury := Min(room, w.ledger.c.contributorIssued / TREASURY_DIVISOR - w.ledger.c.treasuryIssued);
      GrantMoves(P, E, w, TreasuryKey(w.now), Working, treasury, ceiling, TreasuryKind);
      var funded := Grant(w, TreasuryKey(w.now), Working, treasury, ceiling, TreasuryKind).w;
      var grant := Min(Max(0, ceiling - funded.ledger.Exposure()),
                       funded.ledger.c.contributorIssued / GRANT_DIVISOR - funded.ledger.c.grantsIssued);
      MovedIsNumbered(P, E, w, funded, {});
      GrantUsersMoves(P, E, funded, grant, 0);
      MovesOn(P, E, w, funded, GrantUsers(P, E, funded, grant, 0).w, {});
    }
  }

  lemma DayBoundaryMoves(P: Params, E: Env, w: World)
    requires Usable(P) && Numbered(w) && DayBoundary(P, E, w).Next?
    ensures Moves(P, E, w, DayBoundary(P, E, w).w, {DayToken})
  {
    hide Bootstrap, Moves, Numbered, Push, Audit, PayOperations, Trade, Remember, Capacity;
    if w.now >= P.End() {
      IdleMoves(P, E, w, DayToken);
    } else {
      var v := w.(cash := PayOperations(P, E, w.now, w.cash), market := Trade(P, w.market),
                  plan := w.plan.(history := Remember(w.plan.history, Capacity(P, E.online(w.now)))));
      AsideMoves(P, E, w, v);
      BootstrapMoves(P, E, v);
      var booted := Bootstrap(P, E, v).w;
      MovesOn(P, E, w, v, booted, {});
      MovedIsNumbered(P, E, w, booted, {});
      PushMoves(P, E, booted, w.now + DAY, Day);
      MovesOn(P, E, w, booted, Push(booted, w.now + DAY, Day), {DayToken});
    }
  }

  // ---------------------------------------------------------------------------------------------
  // The life of a request

  /** One request changes to v, and x adds the events for what it still owes. */
  lemma JobMoves(P: Params, E: Env, w: World, v: World, x: World, id: nat)
    requires Numbered(w) && v == w.(ledger := v.ledger, jobs := v.jobs)
    requires SameElsewhere(w.ledger, v.ledger, KeysOf(id)) && SameOtherRequests(w, v, id) && SameDeadline(w, v, id)
    requires Besides(P, E, v, x, {})
    requires Owes(P, E, v, JobToken(id)) ==> Backed(x, JobToken(id))
    requires Owes(P, E, v, DeadlineToken(id)) ==> Backed(x, DeadlineToken(id))
    ensures Moves(P, E, w, x, {JobToken(id), DeadlineToken(id)})
  {
    hide Owes, Backed, Grows, Numbered, Besides, SameElsewhere, SameOtherRequests;
    JobBesides(P, E, w, v, id);
    MovesBy(P, E, w, v, x, {JobToken(id), DeadlineToken(id)});
  }

  /** A request whose events all come later, or that has none left. */
  lemma JobEnds(P: Params, E: Env, w: World, v: World, id: nat)
    requires Numbered(w) && v == w.(ledger := v.ledger, jobs := v.jobs)
    requires SameElsewhere(w.ledger, v.ledger, KeysOf(id)) && SameOtherRequests(w, v, id) && SameDeadline(w, v, id)
    requires !Owes(P, E, v, JobToken(id)) && !Owes(P, E, v, DeadlineToken(id))
    ensures Moves(P, E, w, v, {JobToken(id), DeadlineToken(id)})
  {
    hide Owes, Backed, Grows, SameElsewhere, SameOtherRequests;
    SameBesides(P, E, v, v);
    JobMoves(P, E, w, v, v, id);
  }

  lemma Fewer(P: Params, E: Env, w: World, v: World, a: set<Token>, b: set<Token>)
    requires Moves(P, E, w, v, a) && forall token :: token in b ==> token in a || !Owes(P, E, w, token)
    ensures Moves(P, E, w, v, b)
  {
    hide Owes, Backed, Grows;
  }

  lemma ReleaseTouches(s: State, key: Key)
    ensures SameElsewhere(s, AfterRelease(s, key).0, {key})
  {
  }

  lemma FinalizeTouches(s: State, key: Key, floor: int, wt: int, rt: int, priority: Priority)
    ensures SameElsewhere(s, AfterFinalize(s, key, floor, wt, rt, priority).0, {key})
  {
    hide Refill;
  }

  lemma ArriveMoves(P: Params, E: Env, w: World, id: nat)
    requires id !in w.jobs.requests && Numbered(w) && Arrive(P, E, w, id).Next?
    ensures Moves(P, E, w, Arrive(P, E, w, id).w, {JobToken(id)})
  {
    hide Moves, Numbered, Push, TryStart, AfterHold, SameElsewhere, Backed, Grows, Besides;
    AsideMoves(P, E, w, w);
    Fewer(P, E, w, w, {}, {JobToken(id)});
    var v := Arrive(P, E, w, id).w;
    if v != w {
      var price := if E.model(id) == LargeModel then P.largePrice else P.compactPrice;
      var q := Request(E.owner(id), E.model(id), w.now, w.now + P.queueSeconds, price, Queued, []);
      var t := AfterHold(w.ledger, UsageKey(id), E.owner(id), price, ForUsage).0;
      var queued := w.(ledger := t, jobs := Jobs(Put(w.jobs.requests, id, q), w.jobs.waiting + {id}));
      var pushed := Push(queued, q.deadline, QueueDeadline(id));
      HoldTouches(w.ledger, UsageKey(id), E.owner(id), price, ForUsage);
      UsageOnly(w.ledger, t, id);
      NumberedSame(w, queued);
      PushBacks(P, E, queued, q.deadline, QueueDeadline(id));
      JobMoves(P, E, w, queued, pushed, id);
      Fewer(P, E, w, pushed, {JobToken(id), DeadlineToken(id)}, {JobToken(id)});
      MovedIsNumbered(P, E, w, pushed, {JobToken(id)});
      TryStartMoves(P, E, pushed, id);
      ThenMoves(P, E, w, pushed, v, {JobToken(id)});
    }
  }

  lemma UsageOnly(s: State, t: State, id: nat)
    requires SameElsewhere(s, t, {UsageKey(id)})
    ensures SameElsewhere(s, t, KeysOf(id))
  {
    hide RoleOf;
  }

  lemma ExpireMoves(P: Params, E: Env, w: World, id: nat)
    requires Numbered(w) && Expire(w, id).Next?
    ensures Moves(P, E, w, Expire(w, id).w, {DeadlineToken(id)})
  {
    hide Moves, Numbered, AfterRelease, SameElsewhere;
    AsideMoves(P, E, w, w);
    Fewer(P, E, w, w, {}, if InStage(w, id, Queued) then {} else {DeadlineToken(id)});
    if InStage(w, id, Queued) {
      var left := w.(ledger := AfterRelease(w.ledger, UsageKey(id)).0,
                     jobs := w.jobs.(waiting := w.jobs.waiting - {id}));
      var v := WithStage(left, id, QueueExpired);
      ReleaseTouches(w.ledger, UsageKey(id));
      UsageOnly(w.ledger, left.ledger, id);
      JobEnds(P, E, w, v, id);
      Fewer(P, E, w, v, {JobToken(id), DeadlineToken(id)}, {DeadlineToken(id)});
    }
  }

  lemma CompleteMoves(P: Params, E: Env, w: World, id: nat, cancelled: bool)
    requires Numbered(w) && id in w.jobs.requests && Complete(P, E, w, id, cancelled).Next?
    ensures Moves(P, E, w, Complete(P, E, w, id, cancelled).w, {JobToken(id)})
  {
    hide Moves, Numbered, AfterRelease, SameElsewhere, Push, Besides, Backed;
    var x := Complete(P, E, w, id, cancelled).w;
    if cancelled || E.fails(id) {
      ReleaseTouches(w.ledger, UsageKey(id));
      UsageOnly(w.ledger, x.ledger, id);
      JobEnds(P, E, w, x, id);
    } else {
      var v := WithStage(w, id, PendingReview);
      SameUsage(w.ledger, id);
      NumberedSame(w, v);
      PushBacks(P, E, v, w.now + P.review, UsageSettle(id));
      JobMoves(P, E, w, v, x, id);
    }
    Fewer(P, E, w, x, {JobToken(id), DeadlineToken(id)}, {JobToken(id)});
  }

  lemma SameUsage(s: State, id: nat)
    ensures SameElsewhere(s, s, KeysOf(id))
  {
  }

  lemma FinishMoves(P: Params, E: Env, w: World, id: nat, cancelled: bool)
    requires Numbered(w) && Finish(P, E, w, id, cancelled).Next?
    ensures Moves(P, E, w, Finish(P, E, w, id, cancelled).w, {JobToken(id)})
  {
    hide Moves, Numbered, Complete, StartAll;
    var unbooked := Unbook(w, w.jobs.requests[id].route);
    AsideMoves(P, E, w, unbooked);
    CompleteMoves(P, E, unbooked, id, cancelled);
    var completed := Complete(P, E, unbooked, id, cancelled).w;
    MovesOn(P, E, w, unbooked, completed, {JobToken(id)});
    StartAllMoves(P, E, completed, Ascending(completed.jobs.waiting));
    ThenMoves(P, E, w, completed, StartAll(P, E, completed, Ascending(completed.jobs.waiting)).w, {JobToken(id)});
  }

  lemma SettleUsageMoves(P: Params, E: Env, w: World, id: nat)
    requires Numbered(w) && SettleUsage(P, E, w, id).Next?
    ensures Moves(P, E, w, SettleUsage(P, E, w, id).w, {JobToken(id)})
  {
    hide Moves, Numbered, AfterRelease, AfterFinalize, SameElsewhere, Push, Besides, Backed, RefundOpen;
    var x := SettleUsage(P, E, w, id).w;
    PushMoves(P, E, w, w.now + RETRY, UsageSettle(id));
    if E.quorum(w.now) {
      if E.detected(id) {
        ReleaseTouches(w.ledger, UsageKey(id));
        UsageOnly(w.ledger, x.ledger, id);
        JobEnds(P, E, w, x, id);
      } else {
        FinalizeTouches(w.ledger, UsageKey(id), w.plan.floor, w.plan.working, w.plan.protected, P.priority);
        var t := AfterFinalize(w.ledger, UsageKey(id), w.plan.floor, w.plan.working, w.plan.protected, P.priority).0;
        UsageOnly(w.ledger, t, id);
        var v := WithStage(w.(ledger := t), id, Finalized);
        NumberedSame(w, v);
        PushBacks(P, E, v, w.now + HOUR, RefundApprove(id));
        SameBesides(P, E, v, v);
        JobMoves(P, E, w, v, x, id);
      }
      Fewer(P, E, w, x, {JobToken(id), DeadlineToken(id)}, {JobToken(id)});
    }
  }

  lemma ApproveRefundMoves(P: Params, E: Env, w: World, id: nat)
    requires Inv(w.ledger) && KindOk(w, w.now, RefundApprove(id)) && Numbered(w)
    ensures ApproveRefund(E, w, id).Next? ==> Moves(P, E, w, ApproveRefund(E, w, id).w, {JobToken(id)})
  {
    hide Inv, RoleOf, Moves, Numbered, AfterApprove, SameElsewhere, Push, Besides, Backed, RefundOpen;
    PushMoves(P, E, w, w.now + RETRY, RefundApprove(id));
    if E.quorum(w.now) && ApproveRefund(E, w, id).Next? {
      ApproveRole(w.ledger, ReversalKey(id), UsageKey(id));
      var (t, reply) := AfterApprove(w.ledger, ReversalKey(id), UsageKey(id));
      var v := w.(ledger := t);
      assert SameElsewhere(w.ledger, t, KeysOf(id)) by {
        SameUsage(w.ledger, id);
        assert KeysOf(id) == {ReversalKey(id), UsageKey(id), Leg(ReversalKey(id), false), Leg(ReversalKey(id), true)};
      }
      NumberedSame(w, v);
      PushBacks(P, E, v, w.now + RETRY, RefundPost(id));
      PushBacks(P, E, v, w.now + HOUR, RefundApprove(id));
      var x := ApproveRefund(E, w, id).w;
      JobMoves(P, E, w, v, x, id);
      Fewer(P, E, w, x, {JobToken(id), DeadlineToken(id)}, {JobToken(id)});
    }
  }

  lemma PostRefundMoves(P: Params, E: Env, w: World, id: nat)
    requires Inv(w.ledger) && KindOk(w, w.now, RefundPost(id)) && Numbered(w)
    ensures PostRefund(E, w, id).Next? ==> Moves(P, E, w, PostRefund(E, w, id).w, {JobToken(id)})
  {
    hide Inv, RoleOf, Moves, Numbered, AfterPost, Push;
    PushMoves(P, E, w, w.now + RETRY, RefundPost(id));
    PostRole(w.ledger, ReversalKey(id));
    var v := w.(ledger := AfterPost(w.ledger, ReversalKey(id)).0);
    JobEnds(P, E, w, v, id);
    Fewer(P, E, w, v, {JobToken(id), DeadlineToken(id)}, {JobToken(id)});
  }

  // ---------------------------------------------------------------------------------------------
  // Main results

  /** One event: everything owed afterwards was owed before or has its event, and the handled duty itself is settled. */
  lemma HandleMoves(P: Params, E: Env, w: World, kind: EventStudy.Kind)
    requires Sound(P, E) && Valid(P, w) && Numbered(w) && KindOk(w, w.now, kind) && TokenFree(w, TokenOf(kind))
    ensures Handle(P, E, w, kind).Next? && Moves(P, E, w, Handle(P, E, w, kind).w, {TokenOf(kind)})
  {
    hide Inv, Schedule, Requests, FleetOk, KeysPast, Treasury, TokenFree, MomentOk, Numbered, Moves, DayBoundary, LeaseStart,
         Arrive, ReadySettled, Expire, Finish, SettleUsage, ApproveRefund, PostRefund, Push, Payable, LeaseOk, DayOk, Unreversed;
    HandleKeeps(P, E, w, kind);
    match kind
    case Day => DayBoundaryMoves(P, E, w);
    case Lease => LeaseStartMoves(P, E, w);
    case Arrival(id) => ArriveMoves(P, E, w, id);
    case ReadyReceipt(at, node, source) => PushMoves(P, E, w, w.now + P.review, ReadySettle(at, node, source));
    case ReadySettle(at, node, source) => ReadySettledMoves(P, E, w, at, node, source);
    case QueueDeadline(id) => ExpireMoves(P, E, w, id);
    case RequestDone(id, cancelled) => FinishMoves(P, E, w, id, cancelled);
    case UsageSettle(id) => SettleUsageMoves(P, E, w, id);
    case RefundApprove(id) => ApproveRefundMoves(P, E, w, id);
    case RefundPost(id) => PostRefundMoves(P, E, w, id);
  }

  lemma ScheduleNumbers(P: Params, w: World)
    requires Valid(P, w)
    ensures Numbered(w)
  {
    hide Inv, Requests, FleetOk, KeysPast, Treasury;
    forall s | s in w.events ensures s <= w.serial { KindOfEvent(w, s); }
  }

  /** Taking an event drops no other duty's event, and time passing creates no duty. */
  lemma PopLeaves(P: Params, E: Env, w: World, token: Token)
    requires Driven(P, E, w) && w.events != map[] && w.now <= Pop(w).now && Owes(P, E, Pop(w), token)
    requires token != TokenOf(w.events[Earliest(w.events)].kind)
    ensures Backed(Pop(w), token)
  {
    hide TokenOf, RoleOf;
    assert Owes(P, E, w, token);
    var s :| Does(w, s, token);
    assert Does(Pop(w), s, token);
  }

  lemma StepDriven(P: Params, E: Env, w: World)
    requires Sound(P, E) && Valid(P, w) && Driven(P, E, w) && !Over(P, w)
    ensures Step(P, E, w).Next? && Driven(P, E, Step(P, E, w).w)
  {
    hide Valid, TokenFree, MomentOk, Handle, KindOk, TokenOf, Owes, Backed, Grows;
    var first := Earliest(w.events);
    var kind := w.events[first].kind;
    PopKeeps(P, w);
    ScheduleNumbers(P, Pop(w));
    HandleMoves(P, E, Pop(w), kind);
    var v := Step(P, E, w).w;
    assert w.now <= Pop(w).now by { NextIsLater(P, w); }
    forall token | Owes(P, E, v, token) ensures Backed(v, token) {
      if !Backed(v, token) {
        PopLeaves(P, E, w, token);
        BackedGrows(Pop(w), v, token);
      }
    }
  }

  lemma NextIsLater(P: Params, w: World)
    requires Valid(P, w) && w.events != map[]
    ensures w.now <= Pop(w).now
  {
    hide Inv, Requests, FleetOk, KeysPast, Treasury, KindOk;
    KindOfEvent(w, Earliest(w.events));
  }

  lemma {:induction false} ArrivalsDriven(P: Params, E: Env, w: World, id: nat)
    requires id <= P.days * P.requestsPerDay && Numbered(w) && Driven(P, E, w)
    ensures Driven(P, E, Arrivals(P, E, w, id))
    decreases P.days * P.requestsPerDay - id
  {
    hide Numbered, Driven;
    if id < P.days * P.requestsPerDay {
      if E.arrives(id) {
        PushDriven(P, E, w, E.arrival(id), Arrival(id));
        ArrivalsDriven(P, E, Push(w, E.arrival(id), Arrival(id)), id + 1);
      } else {
        ArrivalsDriven(P, E, w, id + 1);
      }
    }
  }

  lemma PushDriven(P: Params, E: Env, w: World, when: nat, kind: EventStudy.Kind)
    requires Numbered(w) && Driven(P, E, w) && !kind.QueueDeadline?
    ensures Numbered(Push(w, when, kind)) && Driven(P, E, Push(w, when, kind))
  {
    hide Owes, Backed;
    PushMoves(P, E, w, when, kind);
    forall token | Owes(P, E, Push(w, when, kind), token) ensures Backed(Push(w, when, kind), token) {
      if !Backed(Push(w, when, kind), token) { BackedGrows(w, Push(w, when, kind), token); }
    }
  }

  lemma InitialDriven(P: Params, E: Env)
    ensures Driven(P, E, Initial(P, E))
  {
    var w := Push(Push(Blank(P), 0, Day), 0, Lease);
    assert Does(w, 1, DayToken) && Does(w, 2, LeaseToken);
    ArrivalsDriven(P, E, w, 0);
  }

  /**
   Main result: in every state of every run, each unfinished duty (the next day and lease, every open readiness payment,
   queued, running and reviewed request, and every refund still due) has its event pending.
   */
  lemma {:induction false} NothingIsForgotten(P: Params, E: Env, n: nat)
    requires Sound(P, E)
    ensures After(P, E, n).Next? && Driven(P, E, After(P, E, n).w)
  {
    hide Valid, Driven, MomentOk, Step, Initial, Over;
    if n == 0 {
      InitialDriven(P, E);
    } else {
      NothingIsForgotten(P, E, n - 1);
      NeverFaults(P, E, n - 1);
      var w := After(P, E, n - 1).w;
      if !Over(P, w) { StepDriven(P, E, w); }
    }
  }

  /** No request stays queued beyond its deadline. */
  lemma {:induction false} NobodyWaitsBeyondTheDeadline(P: Params, E: Env, n: nat, w: World, id: nat)
    requires Sound(P, E) && After(P, E, n) == Next(w) && InStage(w, id, Queued)
    ensures w.now <= w.jobs.requests[id].deadline
  {
    hide Inv, Requests, FleetOk, KeysPast, Treasury, MomentOk, After, KindOk;
    NothingIsForgotten(P, E, n);
    NeverFaults(P, E, n);
    assert Owes(P, E, w, DeadlineToken(id));
    var s :| Does(w, s, DeadlineToken(id));
    KindOfEvent(w, s);
  }

  /**
   When the loop stops, whatever is unfinished was due after the end: no day or lease was skipped, and no readiness
   payment, run, review or refund that was due by then is left.
   */
  lemma {:induction false} OnlyLaterDutiesRemain(P: Params, E: Env, n: nat, w: World, token: Token)
    requires Sound(P, E) && After(P, E, n) == Next(w) && Over(P, w) && Owes(P, E, w, token)
    ensures exists s :: Does(w, s, token) && w.events[s].when > P.End()
    ensures token.DeadlineToken? ==> InStage(w, token.id, Queued) && w.jobs.requests[token.id].deadline > P.End()
  {
    hide MomentOk, After, RoleOf, TokenOf;
    NothingIsForgotten(P, E, n);
    var s :| Does(w, s, token);
  }
}
