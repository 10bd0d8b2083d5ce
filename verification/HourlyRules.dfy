/** The rules of one hour of the integrated economy study, each stated on its own: whom it selects, what it serves, which state it is in. */
module HourlyRules {
  import opened HourlyPlan
  import opened HourlyRuns
  import opened MapSums
  import HourlyState
  import HourlyStudy

  // ---------------------------------------------------------------------------------------------
  // The greedy selection

  /** What all the chosen providers cost together. */
  function CostOf(pay: nat -> nat, chosen: seq<nat>): nat
  {
    if chosen == [] then 0 else CostOf(pay, chosen[..|chosen| - 1]) + pay(chosen[|chosen| - 1])
  }

  lemma {:induction false} CostIsRewards(pay: nat -> nat, chosen: seq<nat>)
    ensures CostOf(pay, chosen) == Rewards(pay, chosen)
  {
    if chosen != [] {
      var n := |chosen| - 1;
      CostIsRewards(pay, chosen[..n]);
      Hour.RewardsAppend(pay, chosen[..n], chosen[n]);
      assert chosen == chosen[..n] + [chosen[n]];
    }
  }

  /**
   A reward fits when what must be newly issued for it, beyond the liquid reserve, and the topup it allows fit the room:
   the topup refills the reserve to its target after paying, but takes no more than the divisor's part of the issuance.
   */
  predicate RewardFits(room: int, liquid: int, continuity: int, target: int, divisor: int, reward: int)
    requires 0 < divisor
  {
    var minted := if reward > liquid then reward - liquid else 0;
    var circulated := if reward < liquid then reward else liquid;
    var missing := if target - continuity + circulated > 0 then target - continuity + circulated else 0;
    minted + (if missing < minted / divisor then missing else minted / divisor) <= room
  }

  lemma {:induction false} SelectGrows(b: Budget, pay: nat -> nat, providers: seq<nat>, p: nat, reward: int)
    requires 0 < b.divisor
    ensures var chosen := Select(b, pay, providers, reward);
            Select(b, pay, providers + [p], reward)
            == chosen + if Affordable(b, reward + Rewards(pay, chosen) + pay(p)) then [p] else []
    decreases |providers|
  {
    hide Affordable;
    if providers == [] {
      assert providers + [p] == [p] && [p][1..] == [];
    } else {
      var first := providers[0];
      assert (providers + [p])[1..] == providers[1..] + [p];
      var next := if Affordable(b, reward + pay(first)) then reward + pay(first) else reward;
      SelectGrows(b, pay, providers[1..], p, next);
      var rest := Select(b, pay, providers[1..], next);
      assert ([first] + rest)[1..] == rest;
    }
  }

  /** Main result: the providers are taken in order, each exactly when it still fits together with those taken before it. */
  lemma SelectionIsGreedy(b: Budget, pay: nat -> nat, providers: seq<nat>, k: nat)
    requires 0 < b.divisor && k < |providers|
    ensures Select(b, pay, [], 0) == []
    ensures var chosen := Select(b, pay, providers[..k], 0);
            Select(b, pay, providers[..k + 1], 0)
            == chosen + if RewardFits(b.room, b.liquid, b.continuity, b.target, b.divisor, CostOf(pay, chosen) + pay(providers[k]))
                        then [providers[k]] else []
  {
    var chosen := Select(b, pay, providers[..k], 0);
    assert providers[..k + 1] == providers[..k] + [providers[k]];
    SelectGrows(b, pay, providers[..k], providers[k], 0);
    CostIsRewards(pay, chosen);
  }

  /** The room of an hour is what the ceiling leaves above all credit and all promises; the reserve is liquid when it is enabled. */
  lemma BudgetIs(s: State, ceiling: int, target: int, reserveEnabled: bool, divisor: int)
    requires Continuity in s.balances
    ensures var b := BudgetOf(s, ceiling, target, reserveEnabled, divisor); var free := ceiling - Sum(s.balances, Itself) - s.committed;
            && b.room == (if free > 0 then free else 0) && b.liquid == (if reserveEnabled then s.balances[Continuity] else 0)
            && b.continuity == s.balances[Continuity] && b.target == target && b.divisor == divisor
  {
  }

  // ---------------------------------------------------------------------------------------------
  // Kinds of providers

  /** The providers of one kind, in their order. */
  function Of(ids: seq<nat>, large: nat -> bool, kind: bool): seq<nat>
  {
    if ids == [] then []
    else
      var n := |ids| - 1;
      if large(ids[n]) == kind then Of(ids[..n], large, kind) + [ids[n]] else Of(ids[..n], large, kind)
  }

  lemma {:induction false} KeepGrows(ids: seq<nat>, p: nat, large: nat -> bool, kind: bool)
    ensures Keep(ids + [p], large, kind) == Keep(ids, large, kind) + if large(p) == kind then [p] else []
  {
    if ids == [] {
      assert ids + [p] == [p] && [p][1..] == [];
    } else {
      assert (ids + [p])[1..] == ids[1..] + [p];
      KeepGrows(ids[1..], p, large, kind);
    }
  }

  lemma {:induction false} KeepIs(ids: seq<nat>, large: nat -> bool, kind: bool)
    ensures Keep(ids, large, kind) == Of(ids, large, kind)
  {
    if ids != [] {
      var n := |ids| - 1;
      KeepIs(ids[..n], large, kind);
      KeepGrows(ids[..n], ids[n], large, kind);
      assert ids == ids[..n] + [ids[n]];
    }
  }

  /** The minimum core: the first small provider, and as many large ones as a route needs; a large one alone if there is nothing else. */
  lemma MinimumCoreIs(online: seq<nat>, large: nat -> bool, roles: nat)
    ensures var smalls, larges := Of(online, large, false), Of(online, large, true);
            MinimumCore(online, large, roles)
            == (if smalls == [] then [] else [smalls[0]])
               + (if roles <= |larges| then larges[..roles] else if smalls == [] && larges != [] then [larges[0]] else [])
  {
    KeepIs(online, large, false);
    KeepIs(online, large, true);
  }

  /** Small providers and the large ones left over from complete routes serve compact work, complete routes large work. */
  lemma CapacityIs(policy: Policy, active: seq<nat>)
    requires 0 < policy.roles
    ensures var smalls, larges := |Of(active, policy.large, false)|, |Of(active, policy.large, true)|;
            var routes := larges / policy.roles;
            && Capacity(policy, active, Large) == routes * policy.routeWork
            && Capacity(policy, active, Compact) == smalls * policy.smallWork + (larges - routes * policy.roles) * policy.compactWork
  {
    hide Of, Keep;
    KeepIs(active, policy.large, false);
    KeepIs(active, policy.large, true);
    LeftOver(|Of(active, policy.large, true)|, policy.roles);
  }

  lemma LeftOver(a: nat, d: nat)
    requires 0 < d
    ensures a % d == a - a / d * d
  {
  }

  /** The i-th provider is the cheapest, and the first of those that are equally cheap. */
  predicate FirstCheapest(online: seq<nat>, base: nat -> nat, i: nat)
  {
    && i < |online| && (forall j :: 0 <= j < i ==> base(online[i]) < base(online[j]))
    && forall j :: i <= j < |online| ==> base(online[i]) <= base(online[j])
  }

  lemma {:induction false} CheapestIs(online: seq<nat>, base: nat -> nat) returns (i: nat)
    requires online != []
    ensures FirstCheapest(online, base, i) && Cheapest(online, base) == [online[i]]
  {
    if |online| == 1 {
      i := 0;
    } else {
      var rest := online[1..];
      var k := CheapestIs(rest, base);
      i := if base(online[0]) <= base(rest[k]) then 0 else k + 1;
      FirstMoves(online, base, k);
    }
  }

  lemma FirstMoves(online: seq<nat>, base: nat -> nat, k: nat)
    requires online != [] && FirstCheapest(online[1..], base, k)
    ensures FirstCheapest(online, base, if base(online[0]) <= base(online[k + 1]) then 0 else k + 1)
  {
    var rest := online[1..];
    forall j | 1 <= j < |online| ensures online[j] == rest[j - 1] { }
    assert online[k + 1] == rest[k];
    forall j | 1 <= j < k + 1 ensures base(rest[k]) < base(online[j]) { assert online[j] == rest[j - 1]; }
    forall j | k + 1 <= j < |online| ensures base(rest[k]) <= base(online[j]) { assert online[j] == rest[j - 1]; }
  }

  // ---------------------------------------------------------------------------------------------
  // The state of an hour, and what it pays

  /** The first obstacle decides; in defence the reserve must cover the core, and a started recovery is told apart. */
  lemma StateIs(quorum: bool, cash: bool, core: seq<nat>, w: HourlyState.Watch, reserveSuffices: bool)
    ensures var state := HourlyState.StateOf(quorum, cash, core, w, reserveSuffices);
            && (state == HourlyState.QuorumBlocked <==> !quorum)
            && (state == HourlyState.HibernatingCash <==> quorum && !cash)
            && (state == HourlyState.HibernatingCapacity <==> quorum && cash && core == [])
            && (state == HourlyState.Normal <==> quorum && cash && core != [] && !w.inDefense)
            && (state == HourlyState.Defense <==> quorum && cash && core != [] && w.inDefense && reserveSuffices && w.stable == 0)
            && (state == HourlyState.Recovery <==> quorum && cash && core != [] && w.inDefense && reserveSuffices && w.stable != 0)
            && (state == HourlyState.HibernatingCredits <==> quorum && cash && core != [] && w.inDefense && !reserveSuffices)
  {
  }

  /** A contracted hour pays each selected provider the cooperative part of its base rate, a defended one the core its full rate. */
  lemma PayIs(policy: Policy, e: Events, r: HourlyStudy.Report, p: nat)
    ensures HourlyStudy.PaidTo(policy, e, r, p)
         == if r.state == HourlyState.Normal then (if p in r.active then policy.base(p) * e.coop / 10000 else 0)
            else if r.state == HourlyState.Defense || r.state == HourlyState.Recovery then (if p in r.core then policy.base(p) else 0)
            else 0
  {
  }

  /** A route fits when what must be newly issued for it, and the divisor's part of that again, fit the room. */
  lemma FitsIs(b: Budget, base: nat -> nat, route: seq<nat>)
    requires 0 < b.divisor
    ensures HourlyState.Fits(b, base, route) <==>
            var minted := if CostOf(base, route) > b.liquid then CostOf(base, route) - b.liquid else 0;
            minted + minted / b.divisor <= b.room
  {
    CostIsRewards(base, route);
  }
}
