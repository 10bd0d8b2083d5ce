/** Contracting nodes for a lease: no node is contracted twice and every chosen source pays for its whole group. */
module StudyLease {
  import opened StudyLedger
  import opened StudyRoles
  import opened MapSums
  import opened Selection
  import opened EventStudy
  import opened StudySafety
  import opened StudySteps
  import opened StudyStart

  // ---------------------------------------------------------------------------------------------
  // Bounds on rates, ceilings and targets

  function Dearest(P: Params): nat { Max(P.smallReward, P.largeReward) }

  lemma {:induction false} RatesFit(P: Params, s: seq<nat>)
    ensures Rates(P, s) <= |s| * Dearest(P)
  {
    if s == [] {
    } else {
      RatesFit(P, s[1..]);
      calc {
        Rates(P, s);
      <=
        Dearest(P) + |s[1..]| * Dearest(P);
      ==
        (1 + |s[1..]|) * Dearest(P);
      ==
        |s| * Dearest(P);
      }
    }
  }

  lemma Scale(a: int, b: int, c: int, d: int)
    requires 0 <= a <= b && 0 <= c <= d
    ensures 0 <= a * c <= b * d
  {
    assert a * c <= b * c;
    assert b * c <= b * d;
  }

  lemma RateFits(P: Params, n: nat)
    requires Usable(P)
    ensures Representable(P.Rate(n))
  {
    var h := Horizon(P);
    assert 1 <= h by {
      Quotients.Bounds(Max(6 * HOUR, P.review + P.lease) + P.lease - 1, P.lease);
    }
    Scale(1, Crew(P), Dearest(P), Dearest(P));
    Scale(Dearest(P), Crew(P) * Dearest(P), 1, h);
  }

  lemma CeilingFits(P: Params, E: Env, w: World)
    requires Sound(P, E) && PlanOk(w.plan)
    ensures Representable(Ceiling(P, E, w))
  {
    hide PlanOk;
    var now := w.now;
    assert MomentOk(P, E, now);
    var capacity := Capacity(P, E.online(now));
    CapacityNat(P, E.online(now));
    var low := Lowest(capacity, w.plan.history);
    assert 0 <= low <= capacity by { Remembered(w.plan); }
    assert low * 24 * 7 * 35 <= capacity * 24 * 7 * 35;
    Quotients.QuotientGrows(low * 24 * 7 * 35, capacity * 24 * 7 * 35, 100);
  }

  lemma Remembered(p: Plan)
    requires PlanOk(p)
    ensures forall x :: x in p.history ==> 0 <= x
  {
  }

  lemma CapacityNat(P: Params, nodes: seq<nat>)
    requires 0 < P.compactSeconds && 0 < P.largeSeconds
    ensures 0 <= Capacity(P, nodes)
  {
    Scale(0, Count(P, nodes, false), 0, HOUR / P.compactSeconds);
    Scale(0, Count(P, nodes, false) * (HOUR / P.compactSeconds), 0, P.compactPrice);
    Scale(0, Count(P, nodes, true) / 3, 0, HOUR / P.largeSeconds);
    Scale(0, (Count(P, nodes, true) / 3) * (HOUR / P.largeSeconds), 0, P.largePrice);
  }

  /** All three targets fit in a 64-bit amount. */
  lemma TargetsFit(P: Params, essentials: seq<nat>, contracted: seq<nat>)
    requires Usable(P) && |essentials| <= Crew(P) && |contracted| <= Crew(P)
    ensures var (floor, working, protected) := Targets(P, essentials, contracted);
            Representable(floor) && Representable(working) && Representable(protected)
  {
    hide Rates, Crew, Dearest, CeilDiv, Horizon;
    var ceil := CeilDiv(Max(6 * HOUR, P.review + P.lease), P.lease);
    PeriodsFit(P);
    ProductFits(P, essentials, ceil);
    ProductFits(P, contracted, DAY / P.lease);
    ProductFits(P, essentials, 3 * DAY / P.lease);
  }

  lemma PeriodsFit(P: Params)
    requires Usable(P)
    ensures 0 <= CeilDiv(Max(6 * HOUR, P.review + P.lease), P.lease) <= Horizon(P)
    ensures 0 <= DAY / P.lease <= Horizon(P) && 0 <= 3 * DAY / P.lease <= Horizon(P)
  {
    Quotients.Bounds(Max(6 * HOUR, P.review + P.lease) + P.lease - 1, P.lease);
  }

  lemma {:induction false} ProductFits(P: Params, s: seq<nat>, periods: int)
    requires Usable(P) && |s| <= Crew(P) && 0 <= periods <= Horizon(P)
    ensures Representable(Rates(P, s) * periods)
  {
    hide Rates, Horizon;
    RatesFit(P, s);
    Scale(|s|, Crew(P), Dearest(P), Dearest(P));
    Scale(Rates(P, s), Crew(P) * Dearest(P), periods, Horizon(P));
  }

  // ---------------------------------------------------------------------------------------------
  // The groups to fund never share a node

  lemma {:induction false} InsertDistinct(f: Fleet, n: nat, s: seq<nat>)
    requires NoRepeats(s) && n !in s
    ensures NoRepeats(Insert(f, n, s)) && forall x :: x in Insert(f, n, s) <==> x == n || x in s
  {
    var r := Insert(f, n, s);
    if s != [] && !(f.Selections(n) < f.Selections(s[0]) || (f.Selections(n) == f.Selections(s[0]) && n <= s[0])) {
      assert s == [s[0]] + s[1..];
      InsertDistinct(f, n, s[1..]);
      assert r == [s[0]] + Insert(f, n, s[1..]);
      assert s[0] !in s[1..];
    }
  }

  lemma {:induction false} SortDistinct(f: Fleet, s: seq<nat>)
    requires NoRepeats(s)
    ensures NoRepeats(SortByUse(f, s)) && forall x :: x in SortByUse(f, s) <==> x in s
  {
    if s == [] {
    } else {
      assert s == [s[0]] + s[1..];
      SortDistinct(f, s[1..]);
      assert s[0] !in s[1..];
      InsertDistinct(f, s[0], SortByUse(f, s[1..]));
    }
  }

  lemma JoinDistinct(a: seq<nat>, b: seq<nat>)
    requires NoRepeats(a) && NoRepeats(b) && Apart(a, b)
    ensures NoRepeats(a + b)
  {
    var c := a + b;
    forall i, j | 0 <= i < j < |c| ensures c[i] != c[j] {
      if i < |a| <= j { assert c[i] in a && c[j] in b; }
    }
  }

  lemma TeamDistinct(P: Params, E: Env, w: World)
    ensures NoRepeats(LargeTeam(P, E, w)) && forall n :: n in LargeTeam(P, E, w) ==> P.IsLarge(n)
    ensures |LargeTeam(P, E, w)| <= 3
  {
    var online := E.online(w.now);
    FilterKeepsDistinct(P.LargeIds(), (n: nat) => n in online);
    var large := Filter(P.LargeIds(), (n: nat) => n in online);
    forall n | n in large ensures P.IsLarge(n) { assert n in P.LargeIds(); }
    assert |large| >= 3 ==> forall n :: n in large[..3] ==> n in large;
  }

  lemma SmallDistinct(P: Params, E: Env, w: World)
    requires NoRepeats(E.online(w.now))
    ensures NoRepeats(Small(P, E, w)) && forall n :: n in Small(P, E, w) ==> !P.IsLarge(n)
    ensures |Small(P, E, w)| <= |E.online(w.now)|
  {
    FilterKeepsDistinct(E.online(w.now), (n: nat) => !P.IsLarge(n));
    SortDistinct(w.fleet, Filter(E.online(w.now), (n: nat) => !P.IsLarge(n)));
  }

  lemma {:induction false} ExtendDistinct(P: Params, w: World, wanted: seq<nat>, more: seq<nat>, floor: int)
    requires NoRepeats(wanted + more)
    ensures NoRepeats(Extend(P, w, wanted, more, floor)) && |Extend(P, w, wanted, more, floor)| <= |wanted| + |more|
    decreases |more|
  {
    if more == [] {
      assert wanted + more == wanted;
    } else {
      assert wanted + [more[0]] + more[1..] == wanted + more;
      ExtendDistinct(P, w, wanted + [more[0]], more[1..], floor);
      var u, v := wanted + more[1..], wanted + more;
      assert forall i :: 0 <= i < |u| ==> u[i] == v[if i < |wanted| then i else i + 1];
      ExtendDistinct(P, w, wanted, more[1..], floor);
    }
  }

  lemma EssentialsDistinct(P: Params, E: Env, w: World)
    requires NoRepeats(E.online(w.now))
    ensures NoRepeats(Essentials(P, E, w) + Slice(Small(P, E, w))) && |Essentials(P, E, w)| <= 4
    ensures NoRepeats(Small(P, E, w) + LargeTeam(P, E, w))
  {
    hide Small, LargeTeam;
    TeamDistinct(P, E, w);
    SmallDistinct(P, E, w);
    var small, team := Small(P, E, w), LargeTeam(P, E, w);
    assert Apart(small, team);
    JoinDistinct(small, team);
    var head, rest := Prefix(small, 1), Slice(small);
    if |small| > 0 { assert small == head + small[1..]; }
    assert NoRepeats(head) && NoRepeats(rest) && Apart(head, rest);
    assert Apart(head, team) && Apart(team, rest);
    JoinDistinct(team, rest);
    JoinDistinct(head, team + rest);
    assert head + (team + rest) == Essentials(P, E, w) + rest;
  }

  lemma WantedDistinct(P: Params, E: Env, w: World)
    requires Usable(P) && MomentOk(P, E, w.now)
    ensures NoRepeats(Wanted(P, E, w)) && |Wanted(P, E, w)| <= Crew(P)
    ensures |Essentials(P, E, w)| <= Crew(P)
  {
    hide Small, LargeTeam, Essentials, Extend, Targets;
    EssentialsDistinct(P, E, w);
    TeamDistinct(P, E, w);
    SmallDistinct(P, E, w);
    var essentials, more := Essentials(P, E, w), Slice(Small(P, E, w));
    var (floor, _, _) := Targets(P, essentials, if P.demandDriven then essentials else Small(P, E, w) + LargeTeam(P, E, w));
    ExtendDistinct(P, w, essentials, more, floor);
    assert essentials == (essentials + more)[..|essentials|];
  }

  function Flatten(groups: seq<seq<nat>>): seq<nat>
  {
    if groups == [] then [] else groups[0] + Flatten(groups[1..])
  }

  lemma {:induction false} SinglesFlatten(s: seq<nat>)
    ensures Flatten(Singles(s)) == s && |Singles(s)| == |s|
    ensures s != [] ==> Singles(s)[0] == [s[0]] && Singles(s)[1..] == Singles(s[1..])
  {
    if s == [] {
    } else {
      SinglesFlatten(s[1..]);
    }
  }

  lemma GroupsDistinct(P: Params, wanted: seq<nat>)
    requires NoRepeats(wanted)
    ensures NoRepeats(Flatten(Groups(P, wanted)))
  {
    hide Filter;
    FilterKeepsDistinct(wanted, (n: nat) => !P.IsLarge(n));
    FilterKeepsDistinct(wanted, (n: nat) => P.IsLarge(n));
    var small, large := Filter(wanted, (n: nat) => !P.IsLarge(n)), Filter(wanted, (n: nat) => P.IsLarge(n));
    SinglesFlatten(small);
    var singles := Singles(small);
    if |large| == 3 && singles != [] {
      var head, rest := [small[0]], small[1..];
      SinglesFlatten(rest);
      JoinDistinct(large, rest);
      JoinDistinct(head, large + rest);
      FlattenStarts(head, large, Singles(rest));
    } else if |large| == 3 {
      assert [large][1..] == Singles([]) && large + Flatten([large][1..]) == large;
    }
  }

  lemma {:induction false} FlattenStarts(a: seq<nat>, b: seq<nat>, rest: seq<seq<nat>>)
    ensures Flatten([a] + [b] + rest) == a + (b + Flatten(rest))
  {
    var groups := [a] + [b] + rest;
    assert groups[1..] == [b] + rest;
    assert groups[1..][1..] == rest;
  }

  // ---------------------------------------------------------------------------------------------
  // Funding

  /** While a lease is being contracted: nothing is reserved, and every contract made is one of this lease. */
  ghost predicate Leasing(P: Params, w: World)
  {
    && TokenFree(w, LeaseToken) && w.fleet.busy == map[]
    && (forall n :: n in w.fleet.ready ==> w.fleet.ready[n] == w.now + P.lease)
    && (forall at: nat, n: nat :: RoleOf(w.ledger, ReadyKey(at, n)) != Fresh ==>
                                    at < w.now || (at == w.now && n in w.fleet.ready))
  }

  /** v is w after some nodes were funded. */
  predicate OnlyFunded(w: World, v: World)
  {
    v == w.(ledger := v.ledger, fleet := v.fleet, serial := v.serial, events := v.events)
  }

  /** The money still available to a source: what its account holds, or the room under the ceiling. */
  function Room(P: Params, E: Env, w: World, source: Source): int
    requires 0 < P.compactSeconds && 0 < P.largeSeconds
  {
    if source == Issuance then Ceiling(P, E, w) - w.ledger.Exposure() else w.ledger.Balance(source.Account())
  }

  /** The contract itself, once its money is promised or held. */
  lemma ReadyKeeps(P: Params, w: World, v: World, n: nat)
    requires Valid(P, w) && TokenFree(w, LeaseToken) && n !in w.fleet.busy
    requires v == w.(fleet := Fleet(Put(w.fleet.ready, n, w.now + P.lease), w.fleet.busy, v.fleet.selected))
    ensures Valid(P, v)
  {
    hide Inv, CashOk, PlanOk, RequestOk, RoleOf, Payable, InStage, Unreversed, DayOk;
    forall s ensures EventOk(v, s) {
      assert EventOk(w, s);
      if s in w.events { BookedKind(w, v, w.events[s].when, w.events[s].kind); }
    }
    forall j ensures RequestOk(v, j) { assert RequestOk(w, j); RequestSame(w, v, j); }
    forall m ensures NodeOk(v, m) { assert NodeOk(w, m); }
    forall s ensures BookedOk(v, s) { assert BookedOk(w, s); }
    forall s, x ensures Separate(v, s, x) { assert Separate(w, s, x); }
  }

  /** An identifier nothing was recorded under has no pending readiness event. */
  lemma FreshIsLoose(w: World, at: nat, n: nat)
    requires Schedule(w) && RoleOf(w.ledger, ReadyKey(at, n)) == Fresh
    ensures TokenFree(w, ReadyToken(at, n))
  {
    forall s | s in w.events ensures TokenOf(w.events[s].kind) != ReadyToken(at, n) {
      KindOfEvent(w, s);
    }
  }

  lemma MoneyMoves(P: Params, E: Env, w: World, n: nat, source: Source)
    requires Sound(P, E) && Valid(P, w) && RoleOf(w.ledger, ReadyKey(w.now, n)) == Fresh
    requires P.Rate(n) <= Room(P, E, w, source)
    ensures var key := ReadyKey(w.now, n);
            var (t, reply) :=
              if source == Issuance then AfterPromise(w.ledger, key, Node(n), P.Rate(n), Ceiling(P, E, w), Contributor)
              else AfterHold(w.ledger, key, source.Account(), P.Rate(n), ForReady);
            && reply == Bool(true) && Inv(t) && SameElsewhere(w.ledger, t, {key}) && Payable(t, w.now, n, source)
            && Room(P, E, w.(ledger := t), source) == Room(P, E, w, source) - P.Rate(n)
  {
    hide Inv, RoleOf, Schedule, Requests, FleetOk, KeysPast, Ceiling, PlanOk;
    RateFits(P, n);
    CeilingFits(P, E, w);
    if source == Issuance {
      PromiseRole(w.ledger, ReadyKey(w.now, n), Node(n), P.Rate(n), Ceiling(P, E, w), Contributor);
      CeilingSame(P, E, w, w.(ledger := AfterPromise(w.ledger, ReadyKey(w.now, n), Node(n), P.Rate(n), Ceiling(P, E, w), Contributor).0));
    } else {
      HoldRole(w.ledger, ReadyKey(w.now, n), source.Account(), P.Rate(n), ForReady);
    }
  }

  lemma CeilingSame(P: Params, E: Env, w: World, v: World)
    requires 0 < P.compactSeconds && 0 < P.largeSeconds
    requires v.now == w.now && v.plan.history == w.plan.history
    ensures Ceiling(P, E, v) == Ceiling(P, E, w)
  {
  }

  lemma PushToken(w: World, when: nat, kind: EventStudy.Kind, token: Token)
    requires TokenFree(w, token) && TokenOf(kind) != token
    ensures TokenFree(Push(w, when, kind), token)
  {
    hide TokenOf;
  }

  /** The world once node n is contracted with the money recorded in t. */
  function Contracted(P: Params, w: World, t: State, n: nat): World
  {
    w.(ledger := t,
       fleet := Fleet(Put(w.fleet.ready, n, w.now + P.lease), w.fleet.busy,
                      Put(w.fleet.selected, n, w.fleet.Selections(n) + 1)))
  }

  lemma ContractedKeeps(P: Params, w: World, t: State, n: nat)
    requires Valid(P, w) && Leasing(P, w) && n !in w.fleet.ready && Inv(t)
    requires SameElsewhere(w.ledger, t, {ReadyKey(w.now, n)})
    ensures Valid(P, Contracted(P, w, t, n)) && TokenFree(Contracted(P, w, t, n), ReadyToken(w.now, n))
  {
    hide Inv, RoleOf, Schedule, Requests, FleetOk, KeysPast, Treasury, TokenFree;
    var key, paid := ReadyKey(w.now, n), w.(ledger := t);
    assert RoleOf(w.ledger, key) == Fresh;
    FreshIsLoose(w, w.now, n);
    LedgerKeeps(P, w, t, key);
    SameEvents(w, paid);
    ReadyKeeps(P, paid, Contracted(P, w, t, n), n);
    SameEvents(w, Contracted(P, w, t, n));
  }

  lemma ContractedLeasing(P: Params, w: World, t: State, n: nat)
    requires Leasing(P, w) && SameElsewhere(w.ledger, t, {ReadyKey(w.now, n)})
    ensures Leasing(P, Contracted(P, w, t, n))
  {
    hide RoleOf, TokenFree;
    SameEvents(w, Contracted(P, w, t, n));
  }

  lemma PushLeasing(P: Params, w: World, when: nat, kind: EventStudy.Kind)
    requires Leasing(P, w) && !kind.Lease?
    ensures Leasing(P, Push(w, when, kind))
  {
    hide RoleOf, TokenFree;
    PushToken(w, when, kind, LeaseToken);
  }

  lemma FundNodeKeeps(P: Params, E: Env, w: World, n: nat, source: Source)
    requires Sound(P, E) && Valid(P, w) && Leasing(P, w) && n !in w.fleet.ready
    requires P.Rate(n) <= Room(P, E, w, source)
    ensures var r := FundNode(P, E, w, n, source);
            && r.Next? && Valid(P, r.w) && Leasing(P, r.w) && OnlyFunded(w, r.w)
            && r.w.fleet.ready.Keys == w.fleet.ready.Keys + {n}
            && Room(P, E, r.w, source) == Room(P, E, w, source) - P.Rate(n)
  {
    hide Inv, RoleOf, Valid, MomentOk, Ceiling, Payable, AfterPromise, AfterHold, TokenFree, Leasing, SameElsewhere, Push;
    var key := ReadyKey(w.now, n);
    LeasingIsFresh(P, w, n);
    MoneyMoves(P, E, w, n, source);
    var t := if source == Issuance then AfterPromise(w.ledger, key, Node(n), P.Rate(n), Ceiling(P, E, w), Contributor).0
             else AfterHold(w.ledger, key, source.Account(), P.Rate(n), ForReady).0;
    var contracted := Contracted(P, w, t, n);
    ContractedKeeps(P, w, t, n);
    ContractedLeasing(P, w, t, n);
    PushKeeps(P, contracted, w.now + P.lease, ReadyReceipt(w.now, n, source));
    PushLeasing(P, contracted, w.now + P.lease, ReadyReceipt(w.now, n, source));
    var v := Push(contracted, w.now + P.lease, ReadyReceipt(w.now, n, source));
    PushOnlyEvents(contracted, w.now + P.lease, ReadyReceipt(w.now, n, source));
    if source == Issuance { CeilingSame(P, E, w.(ledger := t), v); }
  }

  lemma PushOnlyEvents(w: World, when: nat, kind: EventStudy.Kind)
    ensures var v := Push(w, when, kind); v == w.(serial := v.serial, events := v.events)
  {
  }

  lemma LeasingIsFresh(P: Params, w: World, n: nat)
    requires Leasing(P, w) && n !in w.fleet.ready
    ensures RoleOf(w.ledger, ReadyKey(w.now, n)) == Fresh && n !in w.fleet.busy
  {
    hide RoleOf;
  }

  lemma SameEvents(w: World, v: World)
    requires v.events == w.events
    ensures forall token :: TokenFree(v, token) <==> TokenFree(w, token)
  {
  }

  lemma {:induction false} FundNodesKeeps(P: Params, E: Env, w: World, nodes: seq<nat>, source: Source)
    requires Sound(P, E) && Valid(P, w) && Leasing(P, w)
    requires NoRepeats(nodes) && (forall n :: n in nodes ==> n !in w.fleet.ready.Keys)
    requires Rates(P, nodes) <= Room(P, E, w, source)
    ensures var r := FundNodes(P, E, w, nodes, source);
            && r.Next? && Valid(P, r.w) && Leasing(P, r.w) && OnlyFunded(w, r.w)
            && (forall n :: n in r.w.fleet.ready.Keys <==> n in nodes || n in w.fleet.ready.Keys)
    decreases |nodes|
  {
    hide Valid, MomentOk, Leasing, FundNode, Room;
    if nodes == [] {
    } else {
      assert nodes == [nodes[0]] + nodes[1..];
      FundNodeKeeps(P, E, w, nodes[0], source);
      var v := FundNode(P, E, w, nodes[0], source).w;
      FundNodesKeeps(P, E, v, nodes[1..], source);
    }
  }

  /** The chosen source can always pay for the whole group. */
  lemma {:induction false} SourceSuffices(P: Params, E: Env, w: World, group: seq<nat>, essentials: seq<nat>, floor: int)
    requires Usable(P)
    ensures var funding := ChooseSource(P, E, w, group, essentials, floor);
            funding.Funded? ==> Rates(P, group) <= Room(P, E, w, funding.source)
  {
  }

  lemma {:induction false} FundGroupsKeeps(
    P: Params, E: Env, w: World, groups: seq<seq<nat>>, essentials: seq<nat>, floor: int)
    requires Sound(P, E) && Valid(P, w) && Leasing(P, w)
    requires NoRepeats(Flatten(groups)) && forall n :: n in Flatten(groups) ==> n !in w.fleet.ready.Keys
    ensures var r := FundGroups(P, E, w, groups, essentials, floor);
            r.Next? && Valid(P, r.w) && Leasing(P, r.w) && OnlyFunded(w, r.w)
    decreases |groups|
  {
    hide Valid, MomentOk, Leasing, FundNodes, Room, ChooseSource;
    if groups == [] {
    } else {
      var group, rest := groups[0], Flatten(groups[1..]);
      FirstOfJoin(group, rest);
      SourceSuffices(P, E, w, group, essentials, floor);
      match ChooseSource(P, E, w, group, essentials, floor)
      case Unfunded =>
        FundGroupsKeeps(P, E, w, groups[1..], essentials, floor);
      case Funded(source) =>
        FundNodesKeeps(P, E, w, group, source);
        FundGroupsKeeps(P, E, FundNodes(P, E, w, group, source).w, groups[1..], essentials, floor);
    }
  }

  lemma FirstOfJoin(a: seq<nat>, b: seq<nat>)
    requires NoRepeats(a + b)
    ensures NoRepeats(a) && NoRepeats(b) && Apart(a, b) && Apart(b, a)
    ensures forall n :: n in a || n in b ==> n in a + b
  {
    var c := a + b;
    assert forall i :: 0 <= i < |a| ==> a[i] == c[i];
    assert forall i :: 0 <= i < |b| ==> b[i] == c[|a| + i];
  }

  // ---------------------------------------------------------------------------------------------
  // A whole lease

  /** A run that has not ended holds a reservation that has not ended. */
  lemma RunReserves(P: Params, w: World, s: nat)
    requires Valid(P, w) && RunsAfterNow(w, s)
    ensures exists n :: n in w.fleet.busy && w.fleet.busy[n] > w.now
  {
    hide Inv, RoleOf;
    KindOfEvent(w, s);
    var id := w.events[s].kind.id;
    assert RequestOk(w, id);
    var n := w.jobs.requests[id].route[0];
    assert n in RouteOf(w, s);
    assert BookedOk(w, s);
    assert n in w.fleet.busy;
  }

  /** When a lease ends, every run it hosted has ended. */
  lemma NothingRuns(P: Params, w: World)
    requires Valid(P, w) && LeaseOk(w, w.now)
    ensures forall s :: !RunsAfterNow(w, s)
  {
    hide Valid, RoleOf;
    forall s ensures !RunsAfterNow(w, s) {
      if RunsAfterNow(w, s) { RunReserves(P, w, s); }
    }
  }

  lemma VacateKeeps(P: Params, w: World)
    requires Valid(P, w) && LeaseOk(w, w.now) && TokenFree(w, LeaseToken)
    ensures var v := Vacate(P, w);
            Valid(P, v) && Leasing(P, v) && v.fleet.ready == map[] && v == w.(fleet := v.fleet)
  {
    hide Inv, CashOk, PlanOk, RequestOk, RoleOf, Payable, InStage, Unreversed, DayOk, TokenOf;
    var v := Vacate(P, w);
    assert v.fleet.busy == map[];
    NothingRuns(P, w);
    forall s ensures EventOk(v, s) {
      assert EventOk(w, s);
      if s in w.events { BookedKind(w, v, w.events[s].when, w.events[s].kind); }
    }
    forall j ensures RequestOk(v, j) { assert RequestOk(w, j); RequestSame(w, v, j); }
    forall s ensures !RunsAfterNow(v, s) { assert !RunsAfterNow(w, s); }
  }

  /** What contracting leaves alone. */
  predicate OnlyContracted(w: World, v: World)
  {
    v == w.(ledger := v.ledger, fleet := v.fleet, serial := v.serial, events := v.events, plan := v.plan)
  }

  lemma ContractKeeps(P: Params, E: Env, w: World)
    requires Sound(P, E) && Valid(P, w) && Leasing(P, w) && w.fleet.ready == map[]
    ensures var r := Contract(P, E, w); r.Next? && Valid(P, r.w) && Leasing(P, r.w) && OnlyContracted(w, r.w)
  {
    hide Inv, RoleOf, Schedule, Requests, FleetOk, KeysPast, Essentials, Wanted, Targets, Groups, FundGroups, TokenFree, CashOk;
    assert MomentOk(P, E, w.now);
    var essentials, wanted := Essentials(P, E, w), Wanted(P, E, w);
    WantedDistinct(P, E, w);
    TargetsFit(P, essentials, wanted);
    var (floor, working, protected) := Targets(P, essentials, wanted);
    var planned := w.(plan := w.plan.(floor := floor, working := working, protected := protected));
    PlanKeeps(P, w, planned);
    SameEvents(w, planned);
    GroupsDistinct(P, wanted);
    var resting := planned.(plan := planned.plan.(stableSince := w.now));
    PlanKeeps(P, planned, resting);
    SameEvents(w, resting);
    FundGroupsKeeps(P, E, planned, Groups(P, wanted), essentials, floor);
    var funded := FundGroups(P, E, planned, Groups(P, wanted), essentials, floor).w;
    var unstable := funded.(plan := funded.plan.(stableSince := w.now));
    PlanKeeps(P, funded, unstable);
    SameEvents(funded, unstable);
  }

  lemma NextLeaseOk(P: Params, w: World, v: World)
    requires Usable(P) && Leasing(P, w) && Valid(P, v) && Started(w, v)
    ensures LeaseOk(v, v.now + P.lease)
  {
    hide Inv, RoleOf, Schedule, Requests;
    forall n | n in v.fleet.busy ensures v.fleet.busy[n] <= v.now + P.lease { assert NodeOk(v, n); }
  }

  /** lease_start: both reservation assertions hold, and so does everything later events rely on. */
  lemma LeaseStartKeeps(P: Params, E: Env, w: World)
    requires Sound(P, E) && Valid(P, w) && LeaseOk(w, w.now) && TokenFree(w, LeaseToken)
    ensures LeaseStart(P, E, w).Next? && Valid(P, LeaseStart(P, E, w).w)
  {
    hide Valid, MomentOk, Leasing, LeaseOk, Contract, Vacate, StartAll, Push, TokenFree;
    if w.now < P.End() {
      VacateKeeps(P, w);
      var empty := Vacate(P, w);
      ContractKeeps(P, E, empty);
      var contracted := Contract(P, E, empty).w;
      StartWaitingKeeps(P, E, contracted);
      var started := StartAll(P, E, contracted, Ascending(contracted.jobs.waiting)).w;
      NextLeaseOk(P, contracted, started);
      LeaseTokenFree(P, contracted);
      PushKeeps(P, started, w.now + P.lease, Lease);
    }
  }

  lemma LeaseTokenFree(P: Params, w: World)
    requires Leasing(P, w)
    ensures TokenFree(w, LeaseToken)
  {
  }
}
