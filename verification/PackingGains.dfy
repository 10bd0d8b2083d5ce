/** When occupying domains can raise the number of routes that greedy packing counts, and when it cannot. */
module PackingGains {
  import opened Packing
  import MapSums

  /** Whatever the slots and the occupancy, the spare count is at most the declared one. */
  ghost predicate Monotone(routes: seq<Route>)
    requires Routes(routes)
  {
    forall slots: Slots, occupied: map<nat, int> :: (forall d :: d in occupied ==> 0 <= occupied[d]) ==>
      Total(Greedy(Remaining(slots, occupied, true), routes)) <= Total(Greedy(Remaining(slots, occupied, false), routes))
  }

  /** Fewer slots in every domain. */
  ghost predicate Below(r: Slots, s: Slots) { forall d :: Left(r, d) <= Left(s, d) }

  lemma RemainingBelow(slots: Slots, occupied: map<nat, int>)
    requires forall d :: d in occupied ==> 0 <= occupied[d]
    ensures var r, s := Remaining(slots, occupied, true), Remaining(slots, occupied, false);
            Below(r, s) && NonNegative(r) && NonNegative(s) && r.Keys == s.Keys
  {
  }

  // ---------------------------------------------------------------------------------------------
  // Routes that share all their domains or none

  predicate Separate(routes: seq<Route>)
  {
    forall i, j :: 0 <= i < j < |routes| ==> routes[i] == routes[j] || routes[i] !! routes[j]
  }

  /** A route that r cannot pack more of than s: it is used up in r, or has fewer slots there. */
  ghost predicate Worse(r: Slots, s: Slots, route: Route)
  {
    (exists d :: d in route && Left(r, d) == 0) || forall d :: d in route ==> Left(r, d) <= Left(s, d)
  }

  function Taken(remaining: Slots, route: Route, fit: int): Slots
  {
    if fit > 0 then Take(remaining, route, fit) else remaining
  }

  lemma {:induction false} WorsePacksLess(r: Slots, s: Slots, routes: seq<Route>)
    requires Routes(routes) && Separate(routes) && NonNegative(r) && NonNegative(s)
    requires forall i :: 0 <= i < |routes| ==> Worse(r, s, routes[i])
    ensures Total(Greedy(r, routes)) <= Total(Greedy(s, routes))
    decreases |routes|
  {
    hide Fit, Greedy, Total, Take, Worse;
    if routes == [] {
      NothingToPack(r);
    } else {
      var route := routes[0];
      var fewer, more := Fit(r, route), Fit(s, route);
      WorseFits(r, s, route, fewer, more);
      GreedyStep(r, routes);
      GreedyStep(s, routes);
      forall i | 0 <= i < |routes[1..]| ensures Worse(Taken(r, route, fewer), Taken(s, route, more), routes[1..][i]) {
        assert routes[1..][i] == routes[i + 1];
        StaysWorse(r, s, route, fewer, more, routes[i + 1]);
      }
      TakenKeeps(r, route, fewer);
      TakenKeeps(s, route, more);
      assert forall i, j :: 0 <= i < j < |routes[1..]| ==> routes[1..][i] == routes[i + 1] && routes[1..][j] == routes[j + 1];
      WorsePacksLess(Taken(r, route, fewer), Taken(s, route, more), routes[1..]);
    }
  }

  lemma TakenKeeps(remaining: Slots, route: Route, fit: int)
    requires NonNegative(remaining) && IsFit(remaining, route, fit)
    ensures NonNegative(Taken(remaining, route, fit))
    ensures forall d :: Left(Taken(remaining, route, fit), d) == Left(remaining, d) - if d in route then fit else 0
  {
    var d :| d in route && fit == Left(remaining, d);
    assert 0 <= fit;
    if fit > 0 {
      TakeKeeps(remaining, route, fit);
      forall x ensures Left(Take(remaining, route, fit), x) == Left(remaining, x) - if x in route then fit else 0 {
        TakeLeaves(remaining, route, fit, x);
      }
    }
  }

  lemma WorseFits(r: Slots, s: Slots, route: Route, fewer: int, more: int)
    requires NonNegative(r) && NonNegative(s) && Worse(r, s, route) && IsFit(r, route, fewer) && IsFit(s, route, more)
    ensures 0 <= fewer <= more
  {
  }

  lemma StaysWorse(r: Slots, s: Slots, route: Route, fewer: int, more: int, next: Route)
    requires NonNegative(r) && NonNegative(s) && Worse(r, s, next) && IsFit(r, route, fewer) && IsFit(s, route, more)
    requires route == next || route !! next
    ensures Worse(Taken(r, route, fewer), Taken(s, route, more), next)
  {
    hide Take;
    TakenKeeps(r, route, fewer);
    TakenKeeps(s, route, more);
    if route == next {
      var d :| d in route && fewer == Left(r, d);
      assert Left(Taken(r, route, fewer), d) == 0;
    } else if exists d :: d in next && Left(r, d) == 0 {
      var d :| d in next && Left(r, d) == 0;
      assert Left(Taken(r, route, fewer), d) == 0;
    }
  }

  /** With offers of which any two share all their domains or none, occupancy never raises the count. */
  lemma {:induction false} SeparateIsMonotone(routes: seq<Route>)
    requires Routes(routes) && Separate(routes)
    ensures Monotone(routes)
  {
    hide Greedy, Total, Remaining;
    forall slots: Slots, occupied: map<nat, int> | forall d :: d in occupied ==> 0 <= occupied[d]
      ensures Total(Greedy(Remaining(slots, occupied, true), routes)) <= Total(Greedy(Remaining(slots, occupied, false), routes))
    {
      RemainingBelow(slots, occupied);
      WorsePacksLess(Remaining(slots, occupied, true), Remaining(slots, occupied, false), routes);
    }
  }

  // ---------------------------------------------------------------------------------------------
  // A route that shuts out two later ones

  /** a meets b and c in different domains, and has a further domain that neither uses. */
  ghost predicate Clash(a: Route, b: Route, c: Route)
  {
    && (exists d :: d in a && d in b && d !in c)
    && (exists d :: d in a && d in c && d !in b)
    && exists d :: d in a && d !in b && d !in c
  }

  /** One slot everywhere, two where the later routes overlap. */
  function Tight(a: Route, b: Route, c: Route): Slots { map d | d in a + b + c :: if d in b && d in c then 2 else 1 }

  ghost predicate Exhausted(remaining: Slots, route: Route) { exists d :: d in route && Left(remaining, d) == 0 }

  /** Routes with a domain that is used up are passed over. */
  lemma {:induction false} SkipExhausted(remaining: Slots, routes: seq<Route>, n: nat)
    requires Routes(routes) && NonNegative(remaining) && n <= |routes|
    requires forall i :: 0 <= i < n ==> Exhausted(remaining, routes[i])
    ensures Routes(routes[n..]) && Total(Greedy(remaining, routes)) == Total(Greedy(remaining, routes[n..]))
    decreases n
  {
    hide Fit, Greedy, Total, Exhausted;
    if n == 0 {
      assert routes[0..] == routes;
    } else {
      GreedyStep(remaining, routes);
      ExhaustedFit(remaining, routes[0], Fit(remaining, routes[0]));
      forall i | 0 <= i < n - 1 ensures Exhausted(remaining, routes[1..][i]) { assert routes[1..][i] == routes[i + 1]; }
      SkipExhausted(remaining, routes[1..], n - 1);
      assert routes[1..][n - 1..] == routes[n..];
    }
  }

  lemma ExhaustedFit(remaining: Slots, route: Route, fit: int)
    requires NonNegative(remaining) && Exhausted(remaining, route) && IsFit(remaining, route, fit)
    ensures fit == 0
  {
  }

  /** Packing goes on at the first route that is not passed over, and takes one of it. */
  lemma {:induction false} TakesOneAt(remaining: Slots, routes: seq<Route>, n: nat)
    requires Routes(routes) && NonNegative(remaining) && n < |routes| && IsFit(remaining, routes[n], 1)
    requires forall i :: 0 <= i < n ==> Exhausted(remaining, routes[i])
    ensures Routes(routes[n + 1..]) && NonNegative(Take(remaining, routes[n], 1))
    ensures forall d :: Left(Take(remaining, routes[n], 1), d) == Left(remaining, d) - if d in routes[n] then 1 else 0
    ensures Total(Greedy(remaining, routes)) == 1 + Total(Greedy(Take(remaining, routes[n], 1), routes[n + 1..]))
  {
    hide Fit, Greedy, Total, Exhausted, Take;
    SkipExhausted(remaining, routes, n);
    FitIsUnique(remaining, routes[n], 1, Fit(remaining, routes[n]));
    GreedyStep(remaining, routes[n..]);
    assert routes[n..][1..] == routes[n + 1..];
    TakenKeeps(remaining, routes[n], 1);
  }

  lemma {:induction false} AllExhausted(remaining: Slots, routes: seq<Route>)
    requires Routes(routes) && NonNegative(remaining) && forall i :: 0 <= i < |routes| ==> Exhausted(remaining, routes[i])
    ensures Total(Greedy(remaining, routes)) == 0
  {
    hide Greedy, Total, Exhausted;
    SkipExhausted(remaining, routes, |routes|);
    NothingToPack(remaining);
  }

  /** Routes i, j and k clash, and every other route also needs a domain that these three do not use. */
  ghost predicate ClashesAt(routes: seq<Route>, i: nat, j: nat, k: nat)
  {
    && i < j < k < |routes| && Clash(routes[i], routes[j], routes[k])
    && forall m :: 0 <= m < |routes| && m != i && m != j && m != k ==> !(routes[m] <= routes[i] + routes[j] + routes[k])
  }

  lemma ElsewhereIsExhausted(a: Route, b: Route, c: Route, remaining: Slots, route: Route)
    requires !(route <= a + b + c) && forall d :: d !in a + b + c ==> Left(remaining, d) == 0
    ensures Exhausted(remaining, route)
  {
    var d :| d in route && d !in a + b + c;
    assert Left(remaining, d) == 0;
  }

  /** With the first route running, neither later one fits. */
  lemma {:induction false} FirstShutsOut(routes: seq<Route>, i: nat, j: nat, k: nat)
    requires Routes(routes) && ClashesAt(routes, i, j, k)
    ensures Total(Greedy(Tight(routes[i], routes[j], routes[k]), routes)) == 1
  {
    hide Greedy, Total, Take;
    var a, b, c := routes[i], routes[j], routes[k];
    var tight := Tight(a, b, c);
    var own :| own in a && own !in b && own !in c;
    assert Left(tight, own) == 1;
    assert IsFit(tight, a, 1);
    forall m | 0 <= m < i ensures Exhausted(tight, routes[m]) { ElsewhereIsExhausted(a, b, c, tight, routes[m]); }
    TakesOneAt(tight, routes, i);
    var after := Take(tight, a, 1);
    var later := routes[i + 1..];
    forall m | 0 <= m < |later| ensures Exhausted(after, later[m]) {
      var route := later[m];
      assert route == routes[m + i + 1];
      if m + i + 1 == j {
        var d :| d in a && d in b && d !in c;
        assert Left(after, d) == 0;
      } else if m + i + 1 == k {
        var d :| d in a && d in c && d !in b;
        assert Left(after, d) == 0;
      } else {
        ElsewhereIsExhausted(a, b, c, after, route);
      }
    }
    AllExhausted(after, later);
  }

  /** Without it both fit. */
  lemma {:induction false} BothLaterFit(routes: seq<Route>, i: nat, j: nat, k: nat, own: nat)
    requires Routes(routes) && ClashesAt(routes, i, j, k)
    requires own in routes[i] && own !in routes[j] && own !in routes[k]
    ensures Total(Greedy(Tight(routes[i], routes[j], routes[k])[own := 0], routes)) >= 2
  {
    hide Greedy, Total, Take;
    var a, b, c := routes[i], routes[j], routes[k];
    var busy := Tight(a, b, c)[own := 0];
    var onlyB :| onlyB in a && onlyB in b && onlyB !in c;
    var onlyC :| onlyC in a && onlyC in c && onlyC !in b;
    assert Left(busy, own) == 0 && Left(busy, onlyB) == 1;
    assert IsFit(busy, b, 1);
    forall m | 0 <= m < j ensures Exhausted(busy, routes[m]) {
      if m != i { ElsewhereIsExhausted(a, b, c, busy, routes[m]); }
    }
    TakesOneAt(busy, routes, j);
    var after := Take(busy, b, 1);
    var later := routes[j + 1..];
    assert later[k - j - 1] == c && Left(after, onlyC) == 1;
    assert IsFit(after, c, 1);
    forall m | 0 <= m < k - j - 1 ensures Exhausted(after, later[m]) {
      assert later[m] == routes[m + j + 1];
      ElsewhereIsExhausted(a, b, c, after, later[m]);
    }
    TakesOneAt(after, later, k - j - 1);
  }

  /** Such routes always allow a gain: one slot each, and the first route's own domain occupied. */
  lemma {:induction false} ClashCanGain(routes: seq<Route>, i: nat, j: nat, k: nat) returns (slots: Slots, occupied: map<nat, int>)
    requires Routes(routes) && ClashesAt(routes, i, j, k)
    ensures forall d :: d in occupied ==> 0 <= occupied[d]
    ensures Total(Greedy(Remaining(slots, occupied, false), routes)) == 1
    ensures Total(Greedy(Remaining(slots, occupied, true), routes)) >= 2
    ensures !Monotone(routes)
  {
    hide Greedy, Total;
    var a, b, c := routes[i], routes[j], routes[k];
    var own :| own in a && own !in b && own !in c;
    slots := Tight(a, b, c);
    occupied := map[own := 1];
    FirstShutsOut(routes, i, j, k);
    BothLaterFit(routes, i, j, k, own);
    assert Remaining(slots, occupied, false) == slots;
    assert Remaining(slots, occupied, true) == slots[own := 0];
  }

  // ---------------------------------------------------------------------------------------------
  // Three routes: exactly when

  lemma {:induction false} ThreeSteps(s: Slots, a: Route, b: Route, c: Route) returns (x: int, y: int, z: int, s1: Slots, s2: Slots)
    requires NonNegative(s) && a != {} && b != {} && c != {}
    ensures IsFit(s, a, x) && IsFit(s1, b, y) && IsFit(s2, c, z) && 0 <= x && 0 <= y && 0 <= z
    ensures forall d :: Left(s1, d) == Left(s, d) - if d in a then x else 0
    ensures forall d :: Left(s2, d) == Left(s1, d) - if d in b then y else 0
    ensures NonNegative(s1) && NonNegative(s2)
    ensures Routes([a, b, c]) && Total(Greedy(s, [a, b, c])) == x + y + z
  {
    hide Fit, Greedy, Total, Take;
    x := Fit(s, a);
    s1 := Taken(s, a, x);
    TakenKeeps(s, a, x);
    y := Fit(s1, b);
    s2 := Taken(s1, b, y);
    TakenKeeps(s1, b, y);
    z := Fit(s2, c);
    TakenKeeps(s2, c, z);
    assert [a, b, c][1..] == [b, c] && [b, c][1..] == [c] && [c][1..] == [];
    GreedyStep(s, [a, b, c]);
    GreedyStep(s1, [b, c]);
    GreedyStep(s2, [c]);
    NothingToPack(Taken(s2, c, z));
  }

  /** Giving up one slot never gains, unless the routes clash. */
  lemma {:induction false} OneSlotLess(s: Slots, d: nat, a: Route, b: Route, c: Route)
    requires NonNegative(s) && a != {} && b != {} && c != {} && d in s && 0 < s[d] && !Clash(a, b, c)
    ensures Routes([a, b, c]) && Total(Greedy(s[d := s[d] - 1], [a, b, c])) <= Total(Greedy(s, [a, b, c]))
  {
    hide Greedy, Total, Routes, Clash, IsFit;
    var r := s[d := s[d] - 1];
    var x, y, z, s1, s2 := ThreeSteps(s, a, b, c);
    var u, v, w, r1, r2 := ThreeSteps(r, a, b, c);
    FitMoves(s, r, a, x, u);
    if u != x { FirstLosesAtD(s, d, a, x, u); }
    if u == x {
      SameFirst(s1, r1, s2, r2, b, c, y, z, v, w);
    } else {
      OneFreed(d, a, b, c, s1, r1, s2, r2, y, z, v, w);
    }
  }

  lemma FirstLosesAtD(s: Slots, d: nat, a: Route, x: int, u: int)
    requires d in s && IsFit(s, a, x) && IsFit(s[d := s[d] - 1], a, u) && u < x
    ensures d in a && u == x - 1 && s[d] == x
  {
  }

  /** When the first route keeps its count, one slot less is passed on. */
  lemma SameFirst(
    s1: Slots, r1: Slots, s2: Slots, r2: Slots, b: Route, c: Route, y: int, z: int, v: int, w: int)
    requires IsFit(s1, b, y) && IsFit(r1, b, v) && IsFit(s2, c, z) && IsFit(r2, c, w)
    requires forall q :: Left(s1, q) - 1 <= Left(r1, q) <= Left(s1, q)
    requires forall q :: Left(s2, q) == Left(s1, q) - if q in b then y else 0
    requires forall q :: Left(r2, q) == Left(r1, q) - if q in b then v else 0
    ensures v + w <= y + z
  {
    hide IsFit;
    FitMoves(s1, r1, b, y, v);
    if v == y { FitFalls(s2, r2, c, z, w); } else { FitRises(s2, r2, c, z, w); }
  }

  /** When the first route loses one, the slot it lacks is used up, and both later routes gain only if they clash. */
  lemma OneFreed(
    d: nat, a: Route, b: Route, c: Route, s1: Slots, r1: Slots, s2: Slots, r2: Slots, y: int, z: int, v: int, w: int)
    requires d in a && Left(s1, d) == Left(r1, d) == 0
    requires IsFit(s1, b, y) && IsFit(r1, b, v) && IsFit(s2, c, z) && IsFit(r2, c, w) && 0 <= y && 0 <= z
    requires forall q :: q != d ==> Left(r1, q) == Left(s1, q) + if q in a then 1 else 0
    requires forall q :: Left(s2, q) == Left(s1, q) - if q in b then y else 0
    requires forall q :: Left(r2, q) == Left(r1, q) - if q in b then v else 0
    ensures v + w <= y + z + 1 || Clash(a, b, c)
  {
    FitRises(s1, r1, b, y, v);
    FitGrows(s1, r1, b, y, v);
    FitRises(s2, r2, c, z, w);
    if v == y + 1 && w == z + 1 {
      var least :| least in b && y == Left(s1, least);
      var last :| last in c && z == Left(s2, last);
      assert d !in b && least in a && Left(r2, least) == 0;
      assert least !in c && d !in c && last in a && last !in b;
    }
  }

  lemma FitFalls(s: Slots, r: Slots, route: Route, x: int, u: int)
    requires IsFit(s, route, x) && IsFit(r, route, u) && forall d :: d in route ==> Left(r, d) <= Left(s, d)
    ensures u <= x
  {
  }

  lemma FitRises(s: Slots, r: Slots, route: Route, x: int, u: int)
    requires IsFit(s, route, x) && IsFit(r, route, u) && forall d :: d in route ==> Left(r, d) <= Left(s, d) + 1
    ensures u <= x + 1
  {
  }

  lemma FitGrows(s: Slots, r: Slots, route: Route, x: int, u: int)
    requires IsFit(s, route, x) && IsFit(r, route, u) && forall d :: d in route ==> Left(s, d) <= Left(r, d)
    ensures x <= u
  {
  }

  lemma FitMoves(s: Slots, r: Slots, route: Route, x: int, u: int)
    requires IsFit(s, route, x) && IsFit(r, route, u)
    requires forall d :: d in route ==> Left(s, d) - 1 <= Left(r, d) <= Left(s, d)
    ensures x - 1 <= u <= x
  {
  }

  lemma {:induction false} FewerSlotsPackLess(r: Slots, s: Slots, a: Route, b: Route, c: Route)
    requires NonNegative(r) && NonNegative(s) && r.Keys == s.Keys && Below(r, s)
    requires a != {} && b != {} && c != {} && !Clash(a, b, c)
    ensures Routes([a, b, c]) && Total(Greedy(r, [a, b, c])) <= Total(Greedy(s, [a, b, c]))
    decreases MapSums.Sum(s, MapSums.Itself)
  {
    hide Greedy, Total, MapSums.Sum;
    if r != s {
      var d :| d in s && r[d] != s[d];
      assert Left(r, d) <= Left(s, d);
      var next := s[d := s[d] - 1];
      OneSlotLess(s, d, a, b, c);
      MapSums.With(s, MapSums.Itself, d, s[d] - 1);
      MapSums.NonNegative(next, MapSums.Itself);
      forall q ensures Left(r, q) <= Left(next, q) { assert Left(r, q) <= Left(s, q); }
      FewerSlotsPackLess(r, next, a, b, c);
    }
  }

  /** Main result: with three routes, occupancy can raise the count exactly when the first clashes with the others. */
  lemma {:induction false} ThreeRoutesExactly(a: Route, b: Route, c: Route)
    requires a != {} && b != {} && c != {}
    ensures Routes([a, b, c]) && (Monotone([a, b, c]) <==> !Clash(a, b, c))
  {
    hide Greedy, Total, Remaining, Clash;
    if Clash(a, b, c) {
      var slots, occupied := ClashCanGain([a, b, c], 0, 1, 2);
    } else {
      forall slots: Slots, occupied: map<nat, int> | forall d :: d in occupied ==> 0 <= occupied[d]
        ensures Total(Greedy(Remaining(slots, occupied, true), [a, b, c]))
                <= Total(Greedy(Remaining(slots, occupied, false), [a, b, c]))
      {
        RemainingBelow(slots, occupied);
        FewerSlotsPackLess(Remaining(slots, occupied, true), Remaining(slots, occupied, false), a, b, c);
      }
    }
  }
}
