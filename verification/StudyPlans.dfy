/** How the experiment plans: whom a lease wants, what a day allocates, what each boundary schedules, and how it starts. */
module StudyPlans {
  import opened StudyLedger
  import opened StudyRoles
  import opened MapSums
  import opened Quotients
  import opened Selection
  import opened EventStudy
  import opened StudySafety
  import opened StudySteps
  import opened StudyDay
  import opened StudyMoments
  import StudyCalls
  import StudyLease
  import StudyLives

  // ---------------------------------------------------------------------------------------------
  // Whom a lease wants

  /** Working capital still covers the floor after everybody wanted so far and this node were paid. */
  predicate CanAdd(P: Params, w: World, wanted: seq<nat>, n: nat, floor: int)
  {
    floor <= w.ledger.Balance(Working) - Rewards(P, wanted) - (if StudyLives.InTeam(P, n) then P.largeReward else P.smallReward)
  }

  /** The wanted nodes with the next one, when it can be added. */
  function Added(P: Params, w: World, wanted: seq<nat>, next: seq<nat>, floor: int): seq<nat>
  {
    if next != [] && CanAdd(P, w, wanted, next[0], floor) then wanted + [next[0]] else wanted
  }

  /** Demand calls for more: at least two requests wait, the reserve is full, and the last day was stable. */
  predicate Calls(w: World, protected: int)
  {
    2 <= |w.jobs.waiting| && protected <= w.ledger.Balance(Reserve) && 86400 <= w.now - w.plan.stableSince
  }

  /**
   Without demand steering every small node and a complete team of large ones are wanted; with it the essential ones, and
   when demand calls for more the second and third small node in order of use, each when working capital allows.
   */
  lemma WantedIs(P: Params, E: Env, w: World)
    requires 0 < P.lease
    ensures var small, essentials := Small(P, E, w), Essentials(P, E, w);
            var floor, protected := Targets(P, essentials, essentials).0, Targets(P, essentials, essentials).2;
            var second, third := (if |small| < 2 then [] else [small[1]]), (if |small| < 3 then [] else [small[2]]);
            Wanted(P, E, w)
            == if !P.demandDriven then small + LargeTeam(P, E, w)
               else if !Calls(w, protected) then essentials
               else Added(P, w, Added(P, w, essentials, second, floor), third, floor)
  {
    hide Small, LargeTeam, Targets, Essentials, Rates, Rewards;
    var small, essentials := Small(P, E, w), Essentials(P, E, w);
    var floor := Targets(P, essentials, essentials).0;
    RatesAre(P, essentials);
    if 2 <= |small| {
      RatesAre(P, Added(P, w, essentials, [small[1]], floor));
      if |small| == 2 { assert small[1..] == [small[1]]; } else { assert small[1..][..2] == [small[1], small[2]]; }
      ExtendTwice(P, w, essentials, Slice(small), floor);
    } else {
      assert Slice(small) == [];
    }
  }

  lemma {:induction false} ExtendOnce(P: Params, w: World, wanted: seq<nat>, more: seq<nat>, floor: int)
    requires more != []
    ensures Extend(P, w, wanted, more, floor) == Extend(P, w, Added(P, w, wanted, [more[0]], floor), more[1..], floor)
    ensures Extend(P, w, wanted, [], floor) == wanted
  {
    hide Rates, Rewards;
    RatesAre(P, wanted);
  }

  lemma ExtendTwice(P: Params, w: World, wanted: seq<nat>, more: seq<nat>, floor: int)
    requires 1 <= |more| <= 2
    ensures Extend(P, w, wanted, more, floor)
         == Added(P, w, Added(P, w, wanted, [more[0]], floor), if |more| == 2 then [more[1]] else [], floor)
  {
    hide Extend, CanAdd;
    var next := Added(P, w, wanted, [more[0]], floor);
    ExtendOnce(P, w, wanted, more, floor);
    ExtendOnce(P, w, next, [more[0]], floor);
    if |more| == 2 {
      assert more[1..] == [more[1]] && more[1..][1..] == [];
      ExtendOnce(P, w, next, more[1..], floor);
      ExtendOnce(P, w, Added(P, w, next, [more[1]], floor), [more[0]], floor);
    } else {
      assert more[1..] == [];
    }
  }

  // ---------------------------------------------------------------------------------------------
  // What a day allocates

  /** A grant of nothing is no call at all; another is issued at once when the promise is accepted, and dropped when it is declined. */
  lemma GrantIs(w: World, key: Key, recipient: Account, value: int, ceiling: int, kind: StudyLedger.Kind)
    requires !StudyCalls.Seen(w.ledger, key) && StudyCalls.Amounts(value) && StudyCalls.Amounts(ceiling)
    requires kind == TreasuryKind || kind == GrantKind
    ensures var s := w.ledger; var r := Grant(w, key, recipient, value, ceiling, kind);
            r.Next? &&
            if value == 0 || s.c.S + s.c.L + s.c.J + value > ceiling || !StudyCalls.WithinCaps(s, value, kind) then r.w == w
            else
              var t := r.w.ledger;
              && r.w == w.(ledger := t) && StudyCalls.Moves(s, t, recipient, value)
              && t.holds == s.holds && t.promises == s.promises && t.reversals == s.reversals && t.refills == s.refills
              && t.c == s.c.(S := s.c.S + value, issued := s.c.issued + value, treasuryIssued := t.c.treasuryIssued,
                             grantsIssued := t.c.grantsIssued)
              && t.c.treasuryIssued == s.c.treasuryIssued + (if kind == TreasuryKind then value else 0)
              && t.c.grantsIssued == s.c.grantsIssued + (if kind == GrantKind then value else 0)
  {
    hide AfterPromise, AfterIssue, StudyCalls.WithinCaps;
    StudyCalls.PromiseIs(w.ledger, key, recipient, value, ceiling, kind);
    var promised := AfterPromise(w.ledger, key, recipient, value, ceiling, kind).0;
    StudyCalls.IssueIs(promised, key);
    if key in promised.promises { assert promised.promises - {key} == w.ledger.promises; }
  }

  /** n is the most whole units of which d times as many, with what is already issued, stay within the base. */
  predicate MostWithin(d: int, issued: int, base: int, n: int)
  {
    d * (issued + n) <= base < d * (issued + n + 1)
  }

  /**
   The daily allocation: to the treasury as much as a nineteenth of all contributor issuance and the ceiling leave, then to
   the users, evenly, as much as a forty-ninth of it and the ceiling leave; nothing outside the bootstrap period or without a quorum.
   */
  lemma BootstrapIs(P: Params, E: Env, w: World) returns (treasuryRoom: int, grantRoom: int)
    requires 0 < P.compactSeconds && 0 < P.largeSeconds
    ensures if !MayIssue(P, w) || !E.quorum(w.now) then Bootstrap(P, E, w) == Next(w)
            else
              var ceiling := Ceiling(P, E, w); var s := w.ledger;
              var room := if ceiling > s.c.S + s.c.L + s.c.J then ceiling - (s.c.S + s.c.L + s.c.J) else 0;
              var treasury := if treasuryRoom < room then treasuryRoom else room;
              var funded := Grant(w, TreasuryKey(w.now), Working, treasury, ceiling, TreasuryKind);
              && MostWithin(19, s.c.treasuryIssued, s.c.contributorIssued, treasuryRoom)
              && if funded.Fault? then Bootstrap(P, E, w) == funded
                 else
                   var t := funded.w.ledger;
                   var left := if ceiling > t.c.S + t.c.L + t.c.J then ceiling - (t.c.S + t.c.L + t.c.J) else 0;
                   && MostWithin(49, t.c.grantsIssued, t.c.contributorIssued, grantRoom)
                   && Bootstrap(P, E, w) == GrantUsers(P, E, funded.w, if grantRoom < left then grantRoom else left, 0)
  {
    hide Grant, GrantUsers, Ceiling;
    treasuryRoom := w.ledger.c.contributorIssued / 19 - w.ledger.c.treasuryIssued;
    grantRoom := 0;
    Bounds(w.ledger.c.contributorIssued, 19);
    if MayIssue(P, w) && E.quorum(w.now) {
      var ceiling := Ceiling(P, E, w);
      var room := if ceiling > w.ledger.Exposure() then ceiling - w.ledger.Exposure() else 0;
      var funded := Grant(w, TreasuryKey(w.now), Working, if treasuryRoom < room then treasuryRoom else room, ceiling, TreasuryKind);
      if funded.Next? {
        grantRoom := funded.w.ledger.c.contributorIssued / 49 - funded.w.ledger.c.grantsIssued;
        Bounds(funded.w.ledger.c.contributorIssued, 49);
      }
    }
  }

  /** User i is granted the i-th of the even shares, one user after the other, under the same ceiling. */
  lemma GrantUsersIs(P: Params, E: Env, w: World, grant: int, index: nat)
    requires 0 < P.compactSeconds && 0 < P.largeSeconds && index < P.accounts
    ensures var share := if index < grant % P.accounts then grant / P.accounts + 1 else grant / P.accounts;
            var granted := Grant(w, GrantKey(w.now, index), User(index), share, Ceiling(P, E, w), GrantKind);
            GrantUsers(P, E, w, grant, index) == if granted.Fault? then granted else GrantUsers(P, E, granted.w, grant, index + 1)
    ensures GrantUsers(P, E, w, grant, P.accounts) == Next(w)
  {
    hide Grant, Ceiling;
  }

  // ---------------------------------------------------------------------------------------------
  // Boundaries

  /** The commercial buyer spends sixty units a day while it has them. */
  lemma TradeIs(P: Params, m: Market)
    ensures Trade(P, m) == if P.commercial && 60 <= m.buyer then Market(m.buyer - 60, m.earned + 60) else m
  {
  }

  /**
   A day boundary before the end pays the day, trades, remembers the capacity, allocates, and announces the next one a day
   later; at the end it does nothing.
   */
  lemma DayBoundaryIs(P: Params, E: Env, w: World)
    requires Sound(P, E) && Valid(P, w) && DayOk(w, w.now) && TokenFree(w, DayToken)
    ensures var r := DayBoundary(P, E, w);
            r.Next? &&
            if P.days * 86400 <= w.now then r.w == w
            else
              var v := w.(cash := PayOperations(P, E, w.now, w.cash), market := Trade(P, w.market),
                          plan := w.plan.(history := Remember(w.plan.history, Capacity(P, E.online(w.now)))));
              && Bootstrap(P, E, v).Next? && Announced(w, r.w, w.now + 86400, Day)
              && r.w.(events := w.events, serial := w.serial) == Bootstrap(P, E, v).w
  {
    hide Valid, Bootstrap, PayOperations, Remember, Capacity, Trade, Audit, Announced, TokenFree, DayOk, Ceiling, OnlyLedger, MomentOk;
    DayBoundaryKeeps(P, E, w);
    if w.now < P.End() {
      BookKeepingKeeps(P, E, w);
      var v := w.(cash := PayOperations(P, E, w.now, w.cash), market := Trade(P, w.market),
                  plan := w.plan.(history := Remember(w.plan.history, Capacity(P, E.online(w.now)))));
      StudyLease.SameEvents(w, v);
      DaySame(w, v, w.now);
      BootstrapKeeps(P, E, v);
      OnlyLedgerMoved(v, Bootstrap(P, E, v).w);
      PushAnnounces(P, w, Bootstrap(P, E, v).w, w.now + DAY, Day);
    }
  }

  lemma OnlyLedgerMoved(w: World, v: World)
    requires OnlyLedger(w, v)
    ensures v == w.(ledger := v.ledger)
  {
  }

  /** A readiness receipt is settled once its review is over. */
  lemma ReceiptIsReviewed(P: Params, E: Env, w: World, at: nat, node: nat, source: Source)
    requires Valid(P, w) && 0 < P.compactSeconds && 0 < P.largeSeconds && 0 < P.lease
    ensures var r := Handle(P, E, w, ReadyReceipt(at, node, source));
            r.Next? && Announced(w, r.w, w.now + P.review, ReadySettle(at, node, source))
            && r.w.(events := w.events, serial := w.serial) == w
  {
    hide Valid, Announced;
    PushAnnounces(P, w, w, w.now + P.review, ReadySettle(at, node, source));
  }

  /** A lease starts with no contract, forgets the reservations that have ended, and announces the next one a lease later. */
  lemma LeaseStartIs(P: Params, E: Env, w: World)
    requires 0 < P.compactSeconds && 0 < P.largeSeconds && 0 < P.lease
    ensures var r := LeaseStart(P, E, w);
            if P.days * 86400 <= w.now then r == Next(w)
            else
              var vacated := Vacate(P, w);
              && vacated.(fleet := w.fleet) == w && vacated.fleet.ready == map[] && vacated.fleet.selected == w.fleet.selected
              && (forall n :: n in vacated.fleet.busy <==> n in w.fleet.busy && w.now < w.fleet.busy[n])
              && (forall n :: n in vacated.fleet.busy ==> vacated.fleet.busy[n] == w.fleet.busy[n])
              && var contracted := Contract(P, E, vacated);
                 if contracted.Fault? then r == contracted
                 else
                   var started := StartAll(P, E, contracted.w, Ascending(contracted.w.jobs.waiting));
                   r == if started.Fault? then started else Next(Push(started.w, started.w.now + P.lease, Lease))
  {
    hide Contract, StartAll;
  }

  // ---------------------------------------------------------------------------------------------
  // The beginning and the end

  ghost predicate Expected(E: Env, e: Event, n: nat)
  {
    e == Event(0, Day) || e == Event(0, Lease) || exists id: nat :: id < n && E.arrives(id) && e == Event(E.arrival(id), Arrival(id))
  }

  /** Every event of the beginning: a day, a lease, and one arrival for each drawn request up to this number. */
  ghost predicate Beginning(E: Env, w: World, n: nat)
  {
    && (forall s :: s in w.events ==> s <= w.serial)
    && (exists s, t :: s in w.events && t in w.events && w.events[s] == Event(0, Day) && w.events[t] == Event(0, Lease))
    && (forall id: nat :: id < n && E.arrives(id) ==> exists s :: s in w.events && w.events[s] == Event(E.arrival(id), Arrival(id)))
    && (forall s :: s in w.events ==> Expected(E, w.events[s], n))
  }

  lemma {:induction false} ArrivalsBegin(P: Params, E: Env, w: World, id: nat)
    requires id <= P.days * P.requestsPerDay && Beginning(E, w, id)
    ensures var v := Arrivals(P, E, w, id);
            Beginning(E, v, P.days * P.requestsPerDay) && v.(events := w.events, serial := w.serial) == w
    decreases P.days * P.requestsPerDay - id
  {
    hide Beginning;
    if id < P.days * P.requestsPerDay {
      ArrivalBegins(E, w, id);
      ArrivalsBegin(P, E, if E.arrives(id) then Push(w, E.arrival(id), Arrival(id)) else w, id + 1);
    }
  }

  lemma ArrivalBegins(E: Env, w: World, id: nat)
    requires Beginning(E, w, id)
    ensures Beginning(E, if E.arrives(id) then Push(w, E.arrival(id), Arrival(id)) else w, id + 1)
  {
    if E.arrives(id) {
      var v := Push(w, E.arrival(id), Arrival(id));
      assert forall s :: s in w.events ==> s in v.events && v.events[s] == w.events[s];
      assert w.serial + 1 in v.events && v.events[w.serial + 1] == Event(E.arrival(id), Arrival(id));
      EveryArrival(E, w, v, id);
      var s, t :| s in w.events && t in w.events && w.events[s] == Event(0, Day) && w.events[t] == Event(0, Lease);
      assert s in v.events && t in v.events && v.events[s] == Event(0, Day) && v.events[t] == Event(0, Lease);
      forall x | x in v.events ensures Expected(E, v.events[x], id + 1) {
        if x in w.events && x != w.serial + 1 { LaterExpected(E, w.events[x], id); }
      }
    } else {
      forall x | x in w.events ensures Expected(E, w.events[x], id + 1) { LaterExpected(E, w.events[x], id); }
    }
  }

  lemma LaterExpected(E: Env, e: Event, n: nat)
    requires Expected(E, e, n)
    ensures Expected(E, e, n + 1)
  {
  }

  lemma EveryArrival(E: Env, w: World, v: World, id: nat)
    requires Beginning(E, w, id) && w.serial + 1 in v.events && v.events[w.serial + 1] == Event(E.arrival(id), Arrival(id))
    requires forall s :: s in w.events ==> s in v.events && v.events[s] == w.events[s]
    ensures forall i: nat :: i < id + 1 && E.arrives(i) ==> exists s :: s in v.events && v.events[s] == Event(E.arrival(i), Arrival(i))
  {
    hide Expected;
    forall i: nat | i < id + 1 && E.arrives(i) ensures exists s :: s in v.events && v.events[s] == Event(E.arrival(i), Arrival(i)) {
      if i < id {
        var s :| s in w.events && w.events[s] == Event(E.arrival(i), Arrival(i));
        assert s in v.events && v.events[s] == Event(E.arrival(i), Arrival(i));
      }
    }
  }

  /** The experiment starts with nothing issued, some days of operating cash, a hundred thousand units to trade, and exactly its drawn arrivals. */
  lemma InitialIs(P: Params, E: Env)
    ensures var w := Initial(P, E); var cash := P.cashInitialDays * P.cashCost;
            && Beginning(E, w, P.days * P.requestsPerDay) && w.now == 0
            && (forall a :: w.ledger.Balance(a) == 0) && w.ledger.c == Counters(0, 0, 0, 0, 0, 0, 0, 0, 0)
            && w.ledger.holds == map[] && w.ledger.promises == map[] && w.ledger.reversals == map[] && w.ledger.closed == {}
            && w.fleet == Fleet(map[], map[], map[]) && w.jobs == Jobs(map[], {})
            && w.cash == Cash(cash, cash, 0, 0, 0) && w.plan == Plan(0, 0, 0, 0, []) && w.market == Market(100000, 0)
  {
    hide Arrivals;
    var w := Push(Push(Blank(P), 0, Day), 0, Lease);
    assert w.events[1] == Event(0, Day) && w.events[2] == Event(0, Lease);
    ArrivalsBegin(P, E, w, 0);
  }

  /** The run is over exactly when every pending event lies after the last day. */
  lemma OverIs(P: Params, w: World)
    ensures Over(P, w) <==> forall s :: s in w.events ==> P.days * 86400 < w.events[s].when
  {
    hide Earliest;
    if w.events != map[] {
      var first := Earliest(w.events);
      assert first in w.events && forall x :: x in w.events ==> w.events[first].when <= w.events[x].when;
    }
  }
}
