/** Starting queued requests: the chosen route is free, booking it never faults, and no node serves two requests. */
module StudyStart {
  import opened StudyLedger
  import opened StudyRoles
  import opened MapSums
  import opened Selection
  import opened EventStudy
  import opened StudySafety
  import opened StudySteps

  lemma {:induction false} FilterKeepsDistinct(s: seq<nat>, keep: nat -> bool)
    requires NoRepeats(s)
    ensures NoRepeats(Filter(s, keep))
  {
    if s == [] {
    } else {
      FilterKeepsDistinct(s[1..], keep);
      var rest := Filter(s[1..], keep);
      assert Filter(s, keep) == (if keep(s[0]) then [s[0]] else []) + rest;
      forall x | x in rest ensures x != s[0] { assert x in s[1..]; }
    }
  }

  /** The route of a request: distinct nodes, all free, all under contract for the whole service time. */
  lemma RouteIsFree(P: Params, w: World, model: Model, duration: nat)
    ensures var route := RouteFor(P, w, model, duration);
            NoRepeats(route) && forall n :: n in route ==> n in FreeFor(w, duration)
  {
    var free := FreeFor(w, duration);
    FilterKeepsDistinct(P.LargeIds(), (n: nat) => n in free);
  }

  /** After booking, exactly the route's reservations changed. */
  ghost predicate IsBooked(w: World, v: World, route: seq<nat>, until: nat)
  {
    && v == w.(fleet := w.fleet.(busy := v.fleet.busy))
    && (forall n :: n in route ==> n in v.fleet.busy && v.fleet.busy[n] == until)
    && (forall n :: n !in route ==> (n in v.fleet.busy <==> n in w.fleet.busy)
                                    && (n in w.fleet.busy ==> v.fleet.busy[n] == w.fleet.busy[n]))
  }

  lemma {:induction false} BookWorks(w: World, route: seq<nat>, until: nat)
    requires NoRepeats(route) && forall n :: n in route ==> w.fleet.BusyUntil(n) <= w.now
    ensures Book(w, route, until).Next? && IsBooked(w, Book(w, route, until).w, route, until)
    decreases |route|
  {
    if route == [] {
    } else {
      var v := w.(fleet := w.fleet.(busy := Put(w.fleet.busy, route[0], until)));
      assert route == [route[0]] + route[1..];
      assert forall n :: n in route[1..] ==> n != route[0];
      BookWorks(v, route[1..], until);
    }
  }

  /** Reserving free nodes within their contracts. */
  lemma BookKeeps(P: Params, w: World, v: World, route: seq<nat>, until: nat)
    requires Valid(P, w) && IsBooked(w, v, route, until)
    requires forall n :: n in route ==>
               w.fleet.BusyUntil(n) <= w.now && n in w.fleet.ready && until <= w.fleet.ready[n]
    ensures Valid(P, v)
  {
    hide Inv, CashOk, PlanOk, RequestOk, RoleOf, Payable, InStage, Unreversed, TokenOf, DayOk;
    forall s ensures EventOk(v, s) {
      assert EventOk(w, s);
      if s in w.events {
        var e := w.events[s];
        if e.kind.Lease? { assert LeaseOk(v, e.when); }
        BookedKind(w, v, e.when, e.kind);
      }
    }
    forall j ensures RequestOk(v, j) { assert RequestOk(w, j); RequestSame(w, v, j); }
    forall n ensures NodeOk(v, n) { assert NodeOk(w, n); }
    forall s ensures BookedOk(v, s) { assert BookedOk(w, s); }
    forall s, x ensures Separate(v, s, x) { assert Separate(w, s, x); }
  }

  lemma BookedKind(w: World, v: World, when: nat, kind: EventStudy.Kind)
    requires KindOk(w, when, kind) && v.ledger == w.ledger && v.jobs == w.jobs && (kind.Lease? ==> LeaseOk(v, when))
    ensures KindOk(v, when, kind)
  {
    hide RoleOf;
  }

  /** Announcing the completion of a run whose nodes are reserved until then. */
  lemma PushRunKeeps(P: Params, w: World, until: nat, id: nat, cancelled: bool)
    requires Valid(P, w) && w.now < until && InStage(w, id, Running) && TokenFree(w, JobToken(id))
    requires forall n :: n in w.jobs.requests[id].route ==> n in w.fleet.busy && w.fleet.busy[n] == until
    requires forall s :: RunsAfterNow(w, s) ==> Apart(RouteOf(w, s), w.jobs.requests[id].route)
    ensures Valid(P, Push(w, until, RequestDone(id, cancelled)))
  {
    hide Inv, CashOk, PlanOk, RequestOk, RoleOf, Schedule, NodeOk;
    var v := Push(w, until, RequestDone(id, cancelled));
    PushSchedule(w, until, RequestDone(id, cancelled));
    SerialIsNew(w);
    forall j ensures RequestOk(v, j) { assert RequestOk(w, j); RequestSame(w, v, j); }
    forall n ensures NodeOk(v, n) { assert NodeOk(w, n); NodeSame(w, v, n); }
    forall s ensures BookedOk(v, s) { assert BookedOk(w, s); }
    forall s, x ensures Separate(v, s, x) {
      assert Separate(w, s, x);
      assert x != w.serial + 1 && RunsAfterNow(v, x) ==> RunsAfterNow(w, x);
      assert s != w.serial + 1 && RunsAfterNow(v, s) ==> RunsAfterNow(w, s);
    }
  }

  lemma NodeSame(w: World, v: World, n: nat)
    requires v.fleet == w.fleet
    ensures NodeOk(v, n) <==> NodeOk(w, n)
  {
  }

  /** A queued request has no completion, settlement or refund pending. */
  lemma QueuedIsIdle(w: World, id: nat)
    requires Schedule(w) && InStage(w, id, Queued)
    ensures TokenFree(w, JobToken(id))
  {
    forall s | s in w.events ensures TokenOf(w.events[s].kind) != JobToken(id) {
      KindOfEvent(w, s);
    }
  }

  /** v is w after some queued requests were started. */
  ghost predicate Started(w: World, v: World)
  {
    && v == w.(serial := v.serial, events := v.events, jobs := v.jobs, fleet := w.fleet.(busy := v.fleet.busy))
    && v.jobs.requests.Keys == w.jobs.requests.Keys
    && (forall token: Token :: !token.JobToken? && TokenFree(w, token) ==> TokenFree(v, token))
  }

  lemma StartedTwice(u: World, v: World, w: World)
    requires Started(u, v) && Started(v, w)
    ensures Started(u, w)
  {
    hide TokenFree;
  }

  lemma {:induction false} StartKeeps(P: Params, w: World, id: nat, route: seq<nat>, until: nat, cancelled: bool)
    requires Valid(P, w) && InStage(w, id, Queued) && route != [] && NoRepeats(route) && w.now < until
    requires forall n :: n in route ==>
               w.fleet.BusyUntil(n) <= w.now && n in w.fleet.ready && until <= w.fleet.ready[n]
    ensures var q := w.jobs.requests[id].(route := route, stage := Running);
            var started := w.(jobs := Jobs(Put(w.jobs.requests, id, q), w.jobs.waiting - {id}));
            var booked := Book(started, route, until);
            booked.Next? && Valid(P, Push(booked.w, until, RequestDone(id, cancelled)))
            && Started(w, Push(booked.w, until, RequestDone(id, cancelled)))
  {
    hide Inv, CashOk, PlanOk, KindOk, RoleOf, FleetOk, Schedule, KeysPast, Treasury, Book;
    var q := w.jobs.requests[id].(route := route, stage := Running);
    var started := w.(jobs := Jobs(Put(w.jobs.requests, id, q), w.jobs.waiting - {id}));
    QueuedIsIdle(w, id);
    assert RequestOk(w, id);
    forall j | j != id ensures SameRequest(w, started, j) { }
    JobKeeps(P, w, started, id);
    BookWorks(started, route, until);
    var booked := Book(started, route, until).w;
    BookKeeps(P, started, booked, route, until);
    forall s | RunsAfterNow(booked, s) ensures Apart(RouteOf(booked, s), route) {
      RunningElsewhere(w, s, route, until);
      assert booked.events[s].kind.id != id by { assert TokenOf(w.events[s].kind) != JobToken(id); }
    }
    PushRunKeeps(P, booked, until, id, cancelled);
    StartedOne(w, Push(booked, until, RequestDone(id, cancelled)), until, id, cancelled);
  }

  lemma StartedOne(w: World, v: World, until: nat, id: nat, cancelled: bool)
    requires Schedule(w)
    requires v == w.(serial := w.serial + 1, events := Put(w.events, w.serial + 1, Event(until, RequestDone(id, cancelled))),
                     jobs := v.jobs, fleet := w.fleet.(busy := v.fleet.busy))
    requires v.jobs.requests.Keys == w.jobs.requests.Keys
    ensures Started(w, v)
  {
    hide KindOk;
    SerialIsNew(w);
  }

  lemma RunningElsewhere(w: World, s: nat, route: seq<nat>, until: nat)
    requires FleetOk(w) && RunsAfterNow(w, s)
    requires forall n :: n in route ==> w.fleet.BusyUntil(n) <= w.now
    ensures Apart(RouteOf(w, s), route)
  {
    assert BookedOk(w, s);
  }

  lemma TryStartKeeps(P: Params, E: Env, w: World, id: nat)
    requires Usable(P) && Valid(P, w) && id in w.jobs.requests
    ensures TryStart(P, E, w, id).Next? && Valid(P, TryStart(P, E, w, id).w) && Started(w, TryStart(P, E, w, id).w)
  {
    hide Inv, FleetOk, Schedule, KeysPast, Treasury, RoleOf, RouteFor, Book, Push, NoRepeats, Valid, Usable, TokenFree;
    var q := w.jobs.requests[id];
    if q.stage == Queued && w.now <= q.deadline {
      var d := Duration(P, q.model);
      var route := RouteFor(P, w, q.model, d);
      RouteIsFree(P, w, q.model, d);
      if route != [] {
        IsWaiting(P, w, id);
        OccupiedFits(P, E, id, q.model);
        StartKeeps(P, w, id, route, w.now + Occupied(P, E, id, q.model), E.cancels(id));
      }
    }
  }

  lemma IsWaiting(P: Params, w: World, id: nat)
    requires Valid(P, w) && InStage(w, id, Queued)
    ensures id in w.jobs.waiting
  {
    assert RequestOk(w, id);
  }

  lemma OccupiedFits(P: Params, E: Env, id: nat, model: Model)
    requires Usable(P)
    ensures 0 < Occupied(P, E, id, model) <= Duration(P, model)
  {
  }

  lemma {:induction false} StartAllKeeps(P: Params, E: Env, w: World, ids: seq<nat>)
    requires Usable(P) && Valid(P, w) && forall id :: id in ids ==> id in w.jobs.requests
    ensures StartAll(P, E, w, ids).Next? && Valid(P, StartAll(P, E, w, ids).w) && Started(w, StartAll(P, E, w, ids).w)
    decreases |ids|
  {
    hide Valid, Usable, TryStart, TokenFree;
    if ids == [] {
    } else {
      TryStartKeeps(P, E, w, ids[0]);
      var v := TryStart(P, E, w, ids[0]).w;
      assert forall id :: id in v.jobs.requests <==> id in v.jobs.requests.Keys;
      assert forall id :: id in ids[1..] ==> id in w.jobs.requests.Keys;
      StartAllKeeps(P, E, v, ids[1..]);
      StartedTwice(w, v, StartAll(P, E, v, ids[1..]).w);
    }
  }

  /** Both call sites start every waiting request, in the order of their numbers. */
  lemma {:induction false} StartWaitingKeeps(P: Params, E: Env, w: World)
    requires Usable(P) && Valid(P, w)
    ensures var r := StartAll(P, E, w, Ascending(w.jobs.waiting)); r.Next? && Valid(P, r.w) && Started(w, r.w)
  {
    hide Usable, StartAll, Inv, FleetOk, Schedule, KeysPast, Treasury;
    forall id | id in Ascending(w.jobs.waiting) ensures id in w.jobs.requests { assert RequestOk(w, id); }
    StartAllKeeps(P, E, w, Ascending(w.jobs.waiting));
  }
}
