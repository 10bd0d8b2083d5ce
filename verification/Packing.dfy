/** How many complete routes fit the physical domains at once (apps/control-api/src/capacity.ts). */
module Packing {
  import opened Selection
  import Desk
  import Quotients

  /** The physical domains a complete route occupies, one slot in each. */
  type Route = set<nat>
  type Slots = map<nat, int>

  function Left(remaining: Slots, d: nat): int { if d in remaining then remaining[d] else 0 }

  /** `Math.min(...route.domains.map(id => remaining.get(id) ?? 0))`. */
  ghost predicate IsFit(remaining: Slots, route: Route, fit: int)
  {
    (forall d :: d in route ==> fit <= Left(remaining, d)) && exists d :: d in route && fit == Left(remaining, d)
  }

  lemma {:induction false} FitExists(remaining: Slots, route: Route)
    requires route != {}
    ensures exists fit :: IsFit(remaining, route, fit)
    decreases |route|
  {
    var d :| d in route;
    var rest := route - {d};
    if rest == {} {
      assert route == {d};
      assert IsFit(remaining, route, Left(remaining, d));
    } else {
      FitExists(remaining, rest);
      var fit :| IsFit(remaining, rest, fit);
      var least := if fit <= Left(remaining, d) then fit else Left(remaining, d);
      forall x | x in route ensures least <= Left(remaining, x) { assert x == d || x in rest; }
      assert IsFit(remaining, route, least);
    }
  }

  ghost function Fit(remaining: Slots, route: Route): (fit: int)
    requires route != {}
    ensures IsFit(remaining, route, fit)
  {
    FitExists(remaining, route);
    var fit :| IsFit(remaining, route, fit);
    fit
  }

  /** Taking n sessions of a route. */
  function Take(remaining: Slots, route: Route, n: int): Slots
  {
    map d | d in remaining :: remaining[d] - if d in route then n else 0
  }

  predicate Routes(routes: seq<Route>) { forall i :: 0 <= i < |routes| ==> routes[i] != {} }

  /** How many sessions of each route the greedy packing takes, in order. */
  ghost function Greedy(remaining: Slots, routes: seq<Route>): (taken: seq<nat>)
    requires Routes(routes)
    ensures |taken| == |routes|
    decreases |routes|
  {
    if routes == [] then []
    else
      var fit := Fit(remaining, routes[0]);
      assert Routes(routes[1..]);
      if fit > 0 then [fit] + Greedy(Take(remaining, routes[0], fit), routes[1..])
      else [0] + Greedy(remaining, routes[1..])
  }

  function Total(x: seq<nat>): nat { if x == [] then 0 else x[0] + Total(x[1..]) }

  // ---------------------------------------------------------------------------------------------
  // The loop

  method LeastLeft(remaining: Slots, route: Route) returns (fit: int)
    requires route != {}
    ensures IsFit(remaining, route, fit)
  {
    var d :| d in route;
    fit := Left(remaining, d);
    var left := route - {d};
    while left != {}
      invariant left <= route && forall x :: x in route && x !in left ==> fit <= Left(remaining, x)
      invariant exists x :: x in route && fit == Left(remaining, x)
      decreases |left|
    {
      var x :| x in left;
      if Left(remaining, x) < fit {
        fit := Left(remaining, x);
      }
      left := left - {x};
    }
  }

  /** `pack`: one pass over the routes with a mutable map of remaining slots. */
  method Pack(slots: Slots, occupied: map<nat, int>, busy: bool, routes: seq<Route>) returns (count: nat)
    requires Routes(routes)
    ensures count == Total(Greedy(Remaining(slots, occupied, busy), routes))
  {
    hide Fit, IsFit, Take;
    var remaining := Remaining(slots, occupied, busy);
    count := 0;
    var i := 0;
    assert routes[0..] == routes;
    while i < |routes|
      invariant 0 <= i <= |routes| && Routes(routes[i..])
      invariant count + Total(Greedy(remaining, routes[i..])) == Total(Greedy(Remaining(slots, occupied, busy), routes))
    {
      var fit := LeastLeft(remaining, routes[i]);
      FitIsUnique(remaining, routes[i], fit, Fit(remaining, routes[i]));
      assert routes[i..][0] == routes[i] && routes[i..][1..] == routes[i + 1..];
      GreedyStep(remaining, routes[i..]);
      if fit > 0 {
        count := count + fit;
        remaining := Take(remaining, routes[i], fit);
      }
      i := i + 1;
    }
  }

  lemma FitIsUnique(remaining: Slots, route: Route, a: int, b: int)
    requires IsFit(remaining, route, a) && IsFit(remaining, route, b)
    ensures a == b
  {
  }

  lemma GreedyStep(remaining: Slots, routes: seq<Route>)
    requires Routes(routes) && routes != []
    ensures Routes(routes[1..])
    ensures var fit := Fit(remaining, routes[0]);
            var rest := Greedy(if fit > 0 then Take(remaining, routes[0], fit) else remaining, routes[1..]);
            Total(Greedy(remaining, routes)) == (if fit > 0 then fit else 0) + Total(rest)
  {
    hide Fit, Take;
    var fit := Fit(remaining, routes[0]);
    assert Routes(routes[1..]);
    var rest := Greedy(if fit > 0 then Take(remaining, routes[0], fit) else remaining, routes[1..]);
    assert Greedy(remaining, routes)[1..] == rest;
  }

  function Remaining(slots: Slots, occupied: map<nat, int>, busy: bool): Slots
  {
    map d | d in slots :: var free := slots[d] - if busy && d in occupied then occupied[d] else 0;
                          if free > 0 then free else 0
  }

  predicate NonNegative(remaining: Slots) { forall d :: d in remaining ==> 0 <= remaining[d] }

  // ---------------------------------------------------------------------------------------------
  // Simultaneous admissions

  /** How many sessions use domain d when x[i] sessions take route i. */
  function Load(routes: seq<Route>, x: seq<nat>, d: nat): nat
    requires |x| == |routes|
  {
    if routes == [] then 0 else (if d in routes[0] then x[0] else 0) + Load(routes[1..], x[1..], d)
  }

  /** All these sessions can run at once. */
  ghost predicate Feasible(remaining: Slots, routes: seq<Route>, x: seq<nat>)
  {
    |x| == |routes| && forall d :: (exists i :: 0 <= i < |routes| && d in routes[i]) ==> Load(routes, x, d) <= Left(remaining, d)
  }

  lemma {:induction false} NoLoad(routes: seq<Route>, x: seq<nat>, d: nat)
    requires |x| == |routes| && forall i :: 0 <= i < |routes| ==> d !in routes[i]
    ensures Load(routes, x, d) == 0
  {
    if routes != [] {
      NoLoad(routes[1..], x[1..], d);
    }
  }

  /** The greedy packing never takes more than is left in any domain, and keeps its books exactly. */
  lemma {:induction false} GreedyFits(remaining: Slots, routes: seq<Route>, d: nat)
    requires Routes(routes) && NonNegative(remaining)
    ensures Load(routes, Greedy(remaining, routes), d) <= Left(remaining, d)
    decreases |routes|
  {
    hide Fit;
    if routes != [] {
      var fit := Fit(remaining, routes[0]);
      assert Routes(routes[1..]);
      if fit > 0 {
        TakeKeeps(remaining, routes[0], fit);
        GreedyFits(Take(remaining, routes[0], fit), routes[1..], d);
        assert Greedy(remaining, routes)[1..] == Greedy(Take(remaining, routes[0], fit), routes[1..]);
        TakeLeaves(remaining, routes[0], fit, d);
      } else {
        GreedyFits(remaining, routes[1..], d);
        assert Greedy(remaining, routes)[1..] == Greedy(remaining, routes[1..]);
      }
    }
  }

  lemma TakeKeeps(remaining: Slots, route: Route, fit: int)
    requires NonNegative(remaining) && IsFit(remaining, route, fit) && fit > 0
    ensures NonNegative(Take(remaining, route, fit))
  {
    forall d | d in remaining && d in route ensures 0 <= remaining[d] - fit { assert fit <= Left(remaining, d); }
  }

  lemma TakeLeaves(remaining: Slots, route: Route, fit: int, d: nat)
    requires IsFit(remaining, route, fit) && fit > 0
    ensures Left(Take(remaining, route, fit), d) == Left(remaining, d) - if d in route then fit else 0
  {
    if d in route { assert fit <= Left(remaining, d); }
  }

  /** Afterwards no offered route still fits: each has a domain with nothing left. */
  lemma {:induction false} GreedyIsMaximal(remaining: Slots, routes: seq<Route>, i: nat) returns (d: nat)
    requires Routes(routes) && NonNegative(remaining) && i < |routes|
    ensures d in routes[i] && Load(routes, Greedy(remaining, routes), d) == Left(remaining, d)
    decreases |routes|
  {
    hide Fit;
    var fit := Fit(remaining, routes[0]);
    var after := if fit > 0 then Take(remaining, routes[0], fit) else remaining;
    if fit > 0 { TakeKeeps(remaining, routes[0], fit); }
    assert Routes(routes[1..]);
    if i == 0 {
      d :| d in routes[0] && fit == Left(remaining, d);
    } else {
      d := GreedyIsMaximal(after, routes[1..], i - 1);
    }
    if fit > 0 { TakeLeaves(remaining, routes[0], fit, d); }
    GreedyFits(after, routes[1..], d);
    assert Greedy(remaining, routes)[1..] == Greedy(after, routes[1..]);
    if i == 0 && fit <= 0 { assert 0 <= Left(remaining, d); }
  }

  /** What the routes before this one leave of a domain. */
  function LeftBy(remaining: Slots, routes: seq<Route>, x: seq<nat>, d: nat): int
    requires |x| == |routes|
  {
    (if d in remaining then remaining[d] else 0) - Load(routes, x, d)
  }

  /** The routes are taken in the order offered, each as often as the routes before it leave room in its fullest domain. */
  lemma {:induction false} GreedyInOrder(remaining: Slots, routes: seq<Route>, i: nat)
    requires Routes(routes) && NonNegative(remaining) && i < |routes|
    ensures var x := Greedy(remaining, routes);
            && (forall d :: d in routes[i] ==> x[i] <= LeftBy(remaining, routes[..i], x[..i], d))
            && exists d :: d in routes[i] && x[i] == LeftBy(remaining, routes[..i], x[..i], d)
    decreases |routes|
  {
    hide Fit;
    var x, fit := Greedy(remaining, routes), Fit(remaining, routes[0]);
    var after := if fit > 0 then Take(remaining, routes[0], fit) else remaining;
    if fit > 0 { TakeKeeps(remaining, routes[0], fit); }
    assert Routes(routes[1..]);
    var rest := Greedy(after, routes[1..]);
    assert x[1..] == rest;
    if i == 0 {
      assert routes[..0] == [] && x[..0] == [];
      var d :| d in routes[0] && fit == Left(remaining, d);
      assert x[0] == LeftBy(remaining, routes[..0], x[..0], d);
    } else {
      GreedyInOrder(after, routes[1..], i - 1);
      forall d ensures LeftBy(remaining, routes[..i], x[..i], d) == LeftBy(after, routes[1..][..i - 1], rest[..i - 1], d) {
        assert routes[..i][1..] == routes[1..][..i - 1] && x[..i][1..] == rest[..i - 1];
        if fit > 0 { TakeLeaves(remaining, routes[0], fit, d); }
      }
      var d :| d in routes[1..][i - 1] && rest[i - 1] == LeftBy(after, routes[1..][..i - 1], rest[..i - 1], d);
      assert d in routes[i] && x[i] == LeftBy(remaining, routes[..i], x[..i], d);
    }
  }

  /** What a domain has to give: its slots, less the occupied ones when they count, and never less than none. */
  lemma RemainingIs(slots: Slots, occupied: map<nat, int>, busy: bool, d: nat)
    ensures d in Remaining(slots, occupied, busy) <==> d in slots
    ensures d in slots ==>
              var free := Remaining(slots, occupied, busy)[d]; var used := if d in occupied then occupied[d] else 0;
              && (!busy ==> free == if slots[d] < 0 then 0 else slots[d])
              && (busy ==> free == if slots[d] < used then 0 else slots[d] - used)
  {
  }

  /** Route i has a domain that x fills. */
  ghost predicate Blocked(remaining: Slots, routes: seq<Route>, x: seq<nat>, i: nat)
    requires |x| == |routes| && i < |routes|
  {
    exists d :: d in routes[i] && Load(routes, x, d) == Left(remaining, d)
  }

  /** Main result, first half: the count is realised by a simultaneous admission after which no offered route fits. */
  lemma {:induction false} GreedyIsRealised(remaining: Slots, routes: seq<Route>)
    requires Routes(routes) && NonNegative(remaining)
    ensures var x := Greedy(remaining, routes);
            && Feasible(remaining, routes, x)
            && forall i :: 0 <= i < |routes| ==> Blocked(remaining, routes, x, i)
  {
    hide Greedy, Load;
    forall d ensures Load(routes, Greedy(remaining, routes), d) <= Left(remaining, d) { GreedyFits(remaining, routes, d); }
    forall i | 0 <= i < |routes|
      ensures Blocked(remaining, routes, Greedy(remaining, routes), i)
    {
      var d := GreedyIsMaximal(remaining, routes, i);
    }
  }

  // ---------------------------------------------------------------------------------------------
  // Near-optimality, by counting the used slots of the full domains twice

  /** Slots of the domains in s that x uses. */
  function Used(routes: seq<Route>, x: seq<nat>, s: set<nat>): nat
    requires |x| == |routes|
  {
    if routes == [] then 0 else x[0] * |routes[0] * s| + Used(routes[1..], x[1..], s)
  }

  lemma {:induction false} UsedSplits(routes: seq<Route>, x: seq<nat>, s: set<nat>, d: nat)
    requires |x| == |routes| && d in s
    ensures Used(routes, x, s) == Load(routes, x, d) + Used(routes, x, s - {d})
  {
    if routes != [] {
      UsedSplits(routes[1..], x[1..], s, d);
      var o := routes[0];
      if d in o {
        assert o * s == o * (s - {d}) + {d};
        assert x[0] * |o * s| == x[0] * |o * (s - {d})| + x[0];
      } else {
        assert o * s == o * (s - {d});
      }
    }
  }

  lemma {:induction false} UsedNothing(routes: seq<Route>, x: seq<nat>)
    requires |x| == |routes|
    ensures Used(routes, x, {}) == 0
  {
    if routes != [] {
      UsedNothing(routes[1..], x[1..]);
      assert routes[0] * {} == {};
    }
  }

  /** In full domains nobody can use more than the greedy packing does. */
  lemma {:induction false} FullDomainsBound(routes: seq<Route>, x: seq<nat>, y: seq<nat>, s: set<nat>)
    requires |x| == |routes| == |y| && forall d :: d in s ==> Load(routes, y, d) <= Load(routes, x, d)
    ensures Used(routes, y, s) <= Used(routes, x, s)
    decreases |s|
  {
    if s == {} {
      UsedNothing(routes, x);
      UsedNothing(routes, y);
    } else {
      var d :| d in s;
      UsedSplits(routes, x, s, d);
      UsedSplits(routes, y, s, d);
      FullDomainsBound(routes, x, y, s - {d});
    }
  }

  lemma {:induction false} EachUsesOne(routes: seq<Route>, y: seq<nat>, s: set<nat>)
    requires |y| == |routes| && forall i :: 0 <= i < |routes| ==> routes[i] * s != {}
    ensures Total(y) <= Used(routes, y, s)
  {
    if routes != [] {
      EachUsesOne(routes[1..], y[1..], s);
      assert |routes[0] * s| >= 1;
      assert y[0] <= y[0] * |routes[0] * s|;
    }
  }

  lemma Shared(n: nat, part: nat, k: nat, rest: nat)
    requires part <= k
    ensures n * part + k * rest <= k * (n + rest)
  {
    Quotients.Product(n, part, k);
  }

  lemma {:induction false} EachUsesAtMost(routes: seq<Route>, x: seq<nat>, s: set<nat>, k: nat)
    requires |x| == |routes| && forall i :: 0 <= i < |routes| ==> |routes[i]| <= k
    ensures Used(routes, x, s) <= k * Total(x)
  {
    if routes != [] {
      EachUsesAtMost(routes[1..], x[1..], s, k);
      SubsetSize(routes[0] * s, routes[0]);
      assert |routes[0]| <= k;
      Shared(x[0], |routes[0] * s|, k, Total(x[1..]));
    }
  }

  /** The domains the greedy packing fills. */
  ghost function Full(remaining: Slots, routes: seq<Route>, x: seq<nat>, n: nat): (s: set<nat>)
    requires |x| == |routes| && n <= |routes|
    ensures forall d :: d in s <==> exists i :: 0 <= i < n && d in routes[i] && Load(routes, x, d) == Left(remaining, d)
  {
    if n == 0 then {}
    else Full(remaining, routes, x, n - 1) + set d | d in routes[n - 1] && Load(routes, x, d) == Left(remaining, d)
  }

  /** Main result, second half: no simultaneous admission is more than k times larger, k being the most domains of one route. */
  lemma {:induction false} GreedyIsNearOptimal(remaining: Slots, routes: seq<Route>, y: seq<nat>, k: nat)
    requires Routes(routes) && NonNegative(remaining) && Feasible(remaining, routes, y)
    requires forall i :: 0 <= i < |routes| ==> |routes[i]| <= k
    ensures Total(y) <= k * Total(Greedy(remaining, routes))
  {
    hide Greedy, Load, Used, Total;
    var x := Greedy(remaining, routes);
    GreedyIsRealised(remaining, routes);
    var s := Full(remaining, routes, x, |routes|);
    forall i | 0 <= i < |routes| ensures routes[i] * s != {} {
      assert Blocked(remaining, routes, x, i);
      var d :| d in routes[i] && Load(routes, x, d) == Left(remaining, d);
      assert d in s && d in routes[i] * s;
    }
    EachUsesOne(routes, y, s);
    FullDomainsBound(routes, x, y, s);
    EachUsesAtMost(routes, x, s, k);
  }

  // ---------------------------------------------------------------------------------------------
  // The elastic limit

  function ElasticLimit(waitingOthers: nat, slots: nat, spare: nat): nat
  {
    if waitingOthers > 0 || slots == 0 then 1 else if spare == 0 then 2 else 4
  }

  /** One while somebody else waits or no route could ever serve, two while none is free, and four otherwise. */
  lemma LimitIs(waitingOthers: nat, slots: nat, spare: nat)
    ensures var limit := ElasticLimit(waitingOthers, slots, spare);
            && (limit == 1 <==> waitingOthers != 0 || slots == 0)
            && (limit == 2 <==> waitingOthers == 0 && slots != 0 && spare == 0)
            && (limit == 4 <==> waitingOthers == 0 && slots != 0 && spare != 0)
  {
  }

  lemma {:induction false} CountIsZero(remaining: Slots, routes: seq<Route>)
    requires Routes(routes) && NonNegative(remaining)
    ensures Total(Greedy(remaining, routes)) == 0 <==>
              forall i :: 0 <= i < |routes| ==> exists d :: d in routes[i] && Left(remaining, d) == 0
    decreases |routes|
  {
    hide Fit;
    if routes != [] {
      assert Routes(routes[1..]);
      GreedyStep(remaining, routes);
      var fit := Fit(remaining, routes[0]);
      if fit <= 0 {
        CountIsZero(remaining, routes[1..]);
        var d :| d in routes[0] && fit == Left(remaining, d);
        assert Left(remaining, d) == 0;
        forall i | 1 <= i < |routes| ensures routes[i] == routes[1..][i - 1] { }
        assert forall i :: 0 <= i < |routes[1..]| ==> routes[1..][i] == routes[i + 1];
      } else {
        assert forall d :: d in routes[0] ==> 0 < fit <= Left(remaining, d);
      }
    }
  }

  /** The largest limit is granted only when nobody waits and some complete route could start right now. */
  lemma {:induction false} LimitFourMeansRoom(desk: Desk.Desk, slots: Slots, occupied: map<nat, int>, routes: seq<Route>, waitingOthers: nat)
    requires Routes(routes) && slots.Keys == desk.slots.Keys && occupied.Keys == slots.Keys
    requires forall d :: d in slots ==> slots[d] == desk.slots[d] && occupied[d] == |Desk.Occupants(desk, d)|
    requires forall i, d :: 0 <= i < |routes| && d in routes[i] ==> d in slots
    requires var all := Remaining(slots, occupied, false); var spare := Remaining(slots, occupied, true);
             ElasticLimit(waitingOthers, Total(Greedy(all, routes)), Total(Greedy(spare, routes))) == 4
    ensures waitingOthers == 0 && exists i :: 0 <= i < |routes| && Desk.Room(desk, routes[i])
  {
    hide Greedy, Total, Desk.Occupants;
    var spare := Remaining(slots, occupied, true);
    CountIsZero(spare, routes);
    var i :| 0 <= i < |routes| && forall d :: d in routes[i] ==> Left(spare, d) != 0;
    forall d | d in routes[i] && d in desk.slots ensures |Desk.Occupants(desk, d)| < desk.slots[d] {
      assert Left(spare, d) != 0;
    }
    assert Desk.Room(desk, routes[i]);
  }

  const LONG: seq<Route> := [{1, 2, 3}, {1}, {2}]

  lemma LongRouteFirst()
    ensures Routes(LONG) && Total(Greedy(map[1 := 1, 2 := 1, 3 := 1], LONG)) == 1
  {
    hide Fit, Greedy, Total;
    var free, none := map[1 := 1, 2 := 1, 3 := 1], map[1 := 0, 2 := 0, 3 := 0];
    assert LONG[1..] == [{1}, {2}] && [{1}, {2}][1..] == [{2}] && [{2}][1..] == [];
    assert Take(free, {1, 2, 3}, 1) == none;
    FitIs(free, {1, 2, 3}, 1, 1);
    GreedyStep(free, LONG);
    FitIs(none, {1}, 0, 1);
    GreedyStep(none, [{1}, {2}]);
    FitIs(none, {2}, 0, 2);
    GreedyStep(none, [{2}]);
    NothingToPack(none);
  }

  lemma LongRouteBlocked()
    ensures Routes(LONG) && Total(Greedy(map[1 := 1, 2 := 1, 3 := 0], LONG)) == 2
  {
    hide Fit, Greedy, Total;
    var busy, one := map[1 := 1, 2 := 1, 3 := 0], map[1 := 0, 2 := 1, 3 := 0];
    assert LONG[1..] == [{1}, {2}] && [{1}, {2}][1..] == [{2}] && [{2}][1..] == [];
    FitIs(busy, {1, 2, 3}, 0, 3);
    GreedyStep(busy, LONG);
    FitIs(busy, {1}, 1, 1);
    GreedyStep(busy, [{1}, {2}]);
    assert Take(busy, {1}, 1) == one;
    FitIs(one, {2}, 1, 2);
    GreedyStep(one, [{2}]);
    NothingToPack(Take(one, {2}, 1));
  }

  /**
   Packing is not monotone: occupying a domain can raise the count, because a long route at the front no longer
   shuts out two short ones. So the spare count may exceed the declared one.
   */
  lemma OccupancyCanRaiseTheCount()
    ensures var slots: Slots := map[1 := 1, 2 := 1, 3 := 1];
            && Routes(LONG)
            && Total(Greedy(Remaining(slots, map[3 := 1], false), LONG)) == 1
            && Total(Greedy(Remaining(slots, map[3 := 1], true), LONG)) == 2
  {
    hide Greedy, Total;
    LongRouteFirst();
    LongRouteBlocked();
    var slots: Slots := map[1 := 1, 2 := 1, 3 := 1];
    assert Remaining(slots, map[3 := 1], false) == slots;
    assert Remaining(slots, map[3 := 1], true) == map[1 := 1, 2 := 1, 3 := 0];
  }

  lemma FitIs(remaining: Slots, route: Route, fit: int, d: nat)
    requires d in route && fit == Left(remaining, d) && forall x :: x in route ==> fit <= Left(remaining, x)
    ensures Fit(remaining, route) == fit
  {
    assert IsFit(remaining, route, fit);
    FitIsUnique(remaining, route, fit, Fit(remaining, route));
  }

  lemma {:induction false} NothingToPack(remaining: Slots)
    ensures Total(Greedy(remaining, [])) == 0
  {
  }

  /** Still, the spare count is at most k times the declared one, hence never more when every route uses one domain. */
  lemma {:induction false} SpareIsBounded(slots: Slots, occupied: map<nat, int>, routes: seq<Route>, k: nat)
    requires Routes(routes) && forall i :: 0 <= i < |routes| ==> |routes[i]| <= k
    requires forall d :: d in occupied ==> 0 <= occupied[d]
    ensures Total(Greedy(Remaining(slots, occupied, true), routes)) <= k * Total(Greedy(Remaining(slots, occupied, false), routes))
  {
    hide Greedy, Load, Total;
    var spare := Remaining(slots, occupied, true);
    GreedyIsRealised(spare, routes);
    forall d ensures Left(spare, d) <= Left(Remaining(slots, occupied, false), d) { }
    GreedyIsNearOptimal(Remaining(slots, occupied, false), routes, Greedy(spare, routes), k);
  }
}
