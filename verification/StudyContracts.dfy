/** Whom a lease contracts, in which order, with whose money, and what each contract is: every lease, in its own numbers. */
module StudyContracts {
  import opened StudyLedger
  import opened StudyRoles
  import opened MapSums
  import opened Selection
  import opened EventStudy
  import opened StudySafety
  import opened StudySteps
  import opened StudyStart
  import opened StudyLease
  import opened StudyMoments
  import StudyCalls
  import StudyLives

  // ---------------------------------------------------------------------------------------------
  // The groups

  /** The nodes of one kind, in the order given. */
  function Kept(P: Params, nodes: seq<nat>, large: bool): seq<nat>
    decreases |nodes|
  {
    if nodes == [] then []
    else
      var last := nodes[|nodes| - 1];
      Kept(P, nodes[..|nodes| - 1], large) + if StudyLives.InTeam(P, last) == large then [last] else []
  }

  lemma {:induction false} KeptAfter(P: Params, n: nat, nodes: seq<nat>, large: bool)
    ensures Kept(P, [n] + nodes, large) == (if StudyLives.InTeam(P, n) == large then [n] else []) + Kept(P, nodes, large)
    decreases |nodes|
  {
    var all := [n] + nodes;
    if nodes == [] {
      assert all == [n] && all[..0] == [];
    } else {
      assert all[..|all| - 1] == [n] + nodes[..|nodes| - 1];
      KeptAfter(P, n, nodes[..|nodes| - 1], large);
    }
  }

  lemma {:induction false} KeptIs(P: Params, nodes: seq<nat>, keep: nat -> bool, large: bool)
    requires forall n: nat :: keep(n) <==> StudyLives.InTeam(P, n) == large
    ensures Filter(nodes, keep) == Kept(P, nodes, large)
    decreases |nodes|
  {
    if nodes != [] {
      KeptAfter(P, nodes[0], nodes[1..], large);
      assert nodes == [nodes[0]] + nodes[1..];
      KeptIs(P, nodes[1..], keep, large);
    }
  }

  lemma {:induction false} SinglesAreOnes(s: seq<nat>)
    ensures |Singles(s)| == |s| && forall i :: 0 <= i < |s| ==> Singles(s)[i] == [s[i]]
    decreases |s|
  {
    if s != [] { SinglesAreOnes(s[1..]); }
  }

  /** The wanted small nodes one by one, in their order, and the whole team of three second in line. */
  lemma GroupsInOrder(P: Params, wanted: seq<nat>)
    ensures var small, team := Kept(P, wanted, false), Kept(P, wanted, true); var groups := Groups(P, wanted);
            var at := if small == [] then 0 else 1;
            if |team| != 3 then |groups| == |small| && forall i :: 0 <= i < |groups| ==> groups[i] == [small[i]]
            else
              && |groups| == |small| + 1 && groups[at] == team
              && forall i :: 0 <= i < |small| ==> groups[if i < at then i else i + 1] == [small[i]]
  {
    hide Filter, Kept, Singles;
    KeptIs(P, wanted, (n: nat) => !P.IsLarge(n), false);
    KeptIs(P, wanted, (n: nat) => P.IsLarge(n), true);
    SinglesAreOnes(Kept(P, wanted, false));
  }

  // ---------------------------------------------------------------------------------------------
  // One contract

  /** What a source pays with. */
  function Purse(source: Source): Account { if source == FromReserve then Reserve else Working }

  /** The reward of a node: promised as contributor issuance, or held of the fund. */
  ghost predicate Rewarded(P: Params, s: State, t: State, now: nat, n: nat, source: Source)
  {
    var key := ReadyKey(now, n); var reward := if StudyLives.InTeam(P, n) then P.largeReward else P.smallReward;
    if source == Issuance then
      t == s.(promises := s.promises[key := Promised(Node(n), reward, Contributor)], c := s.c.(L := s.c.L + reward))
    else
      && StudyCalls.Moves(s, t, Purse(source), -reward)
      && t == s.(free := t.free, holds := s.holds[key := Held(Purse(source), reward, ForReady)])
  }

  /** v is w with one node more under contract: for one lease, rewarded, used once more, its receipt due when the lease ends. */
  ghost predicate ContractedFor(P: Params, w: World, v: World, n: nat, source: Source)
  {
    && OnlyFunded(w, v) && Rewarded(P, w.ledger, v.ledger, w.now, n, source)
    && v.fleet.ready == w.fleet.ready[n := w.now + P.lease] && v.fleet.busy == w.fleet.busy
    && v.fleet.selected == w.fleet.selected[n := (if n in w.fleet.selected then w.fleet.selected[n] else 0) + 1]
    && Announced(w, v, w.now + P.lease, ReadyReceipt(w.now, n, source))
  }

  lemma RewardIs(P: Params, E: Env, w: World, n: nat, source: Source)
    requires Sound(P, E) && Valid(P, w) && Leasing(P, w) && n !in w.fleet.ready && P.Rate(n) <= Room(P, E, w, source)
    ensures var key := ReadyKey(w.now, n);
            var (t, reply) :=
              if source == Issuance then AfterPromise(w.ledger, key, Node(n), P.Rate(n), Ceiling(P, E, w), StudyLedger.Contributor)
              else AfterHold(w.ledger, key, source.Account(), P.Rate(n), ForReady);
            reply == Bool(true) && Rewarded(P, w.ledger, t, w.now, n, source)
  {
    hide Inv, Valid, Leasing, Ceiling, AfterPromise, AfterHold, StudyCalls.WithinCaps, StudyCalls.Moves, SameElsewhere, MomentOk, Payable, RoleOf;
    LeasingIsFresh(P, w, n);
    MoneyMoves(P, E, w, n, source);
    StudyCalls.PromiseIs(w.ledger, ReadyKey(w.now, n), Node(n), P.Rate(n), Ceiling(P, E, w), Contributor);
    StudyCalls.HoldIs(w.ledger, ReadyKey(w.now, n), Purse(source), P.Rate(n), ForReady);
  }

  lemma FundNodeIs(P: Params, E: Env, w: World, n: nat, source: Source)
    requires Sound(P, E) && Valid(P, w) && Leasing(P, w) && n !in w.fleet.ready && P.Rate(n) <= Room(P, E, w, source)
    ensures FundNode(P, E, w, n, source).Next? && ContractedFor(P, w, FundNode(P, E, w, n, source).w, n, source)
  {
    hide Inv, Valid, Leasing, Ceiling, AfterPromise, AfterHold, Rewarded, MomentOk, Announced, Room;
    FundNodeKeeps(P, E, w, n, source);
    RewardIs(P, E, w, n, source);
    var key := ReadyKey(w.now, n);
    var t := if source == Issuance then AfterPromise(w.ledger, key, Node(n), P.Rate(n), Ceiling(P, E, w), Contributor).0
             else AfterHold(w.ledger, key, source.Account(), P.Rate(n), ForReady).0;
    PushAnnounces(P, w, Contracted(P, w, t, n), w.now + P.lease, ReadyReceipt(w.now, n, source));
  }

  /** The nodes of a group contracted one after the other. */
  ghost predicate GroupContracted(P: Params, w: World, v: World, nodes: seq<nat>, source: Source)
    decreases |nodes|
  {
    if nodes == [] then v == w
    else exists u :: ContractedFor(P, w, u, nodes[0], source) && GroupContracted(P, u, v, nodes[1..], source)
  }

  lemma {:induction false} FundNodesIs(P: Params, E: Env, w: World, nodes: seq<nat>, source: Source)
    requires Sound(P, E) && Valid(P, w) && Leasing(P, w)
    requires NoRepeats(nodes) && (forall n :: n in nodes ==> n !in w.fleet.ready.Keys)
    requires Rates(P, nodes) <= Room(P, E, w, source)
    ensures FundNodes(P, E, w, nodes, source).Next? && GroupContracted(P, w, FundNodes(P, E, w, nodes, source).w, nodes, source)
    decreases |nodes|
  {
    hide Valid, MomentOk, Leasing, FundNode, Room, ContractedFor;
    if nodes != [] {
      assert nodes == [nodes[0]] + nodes[1..];
      FundNodeKeeps(P, E, w, nodes[0], source);
      FundNodeIs(P, E, w, nodes[0], source);
      FundNodesIs(P, E, FundNode(P, E, w, nodes[0], source).w, nodes[1..], source);
    }
  }

  // ---------------------------------------------------------------------------------------------
  // All groups

  /** Who pays a group, decided by what is there when its turn comes. */
  ghost predicate PaidBy(P: Params, E: Env, w: World, group: seq<nat>, essentials: seq<nat>, floor: int, funding: Funding)
    requires 0 < P.compactSeconds && 0 < P.largeSeconds
  {
    var value := Rewards(P, group); var essential := forall n :: n in group ==> n in essentials;
    var working := value <= w.ledger.Balance(Working) && (essential || floor <= w.ledger.Balance(Working) - value);
    var issuance := MayIssue(P, w) && w.ledger.Exposure() + value <= Ceiling(P, E, w);
    var reserve := P.split && essential && value <= w.ledger.Balance(Reserve);
    funding == if working then Funded(FromWorking) else if issuance then Funded(Issuance)
               else if reserve then Funded(FromReserve) else Unfunded
  }

  /** One group's turn: contracted whole by whoever pays it, or passed over. */
  ghost predicate Turn(P: Params, E: Env, w: World, v: World, group: seq<nat>, essentials: seq<nat>, floor: int)
    requires 0 < P.compactSeconds && 0 < P.largeSeconds
  {
    exists funding :: PaidBy(P, E, w, group, essentials, floor, funding)
                      && if funding.Unfunded? then v == w else GroupContracted(P, w, v, group, funding.source)
  }

  ghost predicate InTurn(P: Params, E: Env, ws: seq<World>, groups: seq<seq<nat>>, essentials: seq<nat>, floor: int)
    requires 0 < P.compactSeconds && 0 < P.largeSeconds
  {
    && |ws| == |groups| + 1
    && forall i :: 0 <= i < |groups| ==> Turn(P, E, ws[i], ws[i + 1], groups[i], essentials, floor)
  }

  lemma TurnIs(P: Params, E: Env, w: World, group: seq<nat>, essentials: seq<nat>, floor: int) returns (v: World)
    requires Sound(P, E) && Valid(P, w) && Leasing(P, w)
    requires NoRepeats(group) && forall n :: n in group ==> n !in w.fleet.ready.Keys
    ensures Turn(P, E, w, v, group, essentials, floor) && Valid(P, v) && Leasing(P, v)
    ensures forall n :: n in v.fleet.ready.Keys ==> n in group || n in w.fleet.ready.Keys
    ensures forall rest :: FundGroups(P, E, w, [group] + rest, essentials, floor) == FundGroups(P, E, v, rest, essentials, floor)
  {
    hide Valid, MomentOk, Leasing, FundNodes, Room, ChooseSource, GroupContracted, Rewards, Ceiling, MayIssue;
    var funding := ChooseSource(P, E, w, group, essentials, floor);
    v := w;
    SourceIs(P, E, w, group, essentials, floor);
    assert PaidBy(P, E, w, group, essentials, floor, funding);
    if funding.Funded? {
      SourceSuffices(P, E, w, group, essentials, floor);
      FundNodesKeeps(P, E, w, group, funding.source);
      FundNodesIs(P, E, w, group, funding.source);
      v := FundNodes(P, E, w, group, funding.source).w;
    }
    forall rest ensures FundGroups(P, E, w, [group] + rest, essentials, floor) == FundGroups(P, E, v, rest, essentials, floor) {
      assert ([group] + rest)[1..] == rest;
    }
  }

  /** The groups take their turns in order. */
  lemma {:induction false} FundGroupsIs(
    P: Params, E: Env, w: World, groups: seq<seq<nat>>, essentials: seq<nat>, floor: int) returns (ws: seq<World>)
    requires Sound(P, E) && Valid(P, w) && Leasing(P, w)
    requires NoRepeats(Flatten(groups)) && forall n :: n in Flatten(groups) ==> n !in w.fleet.ready.Keys
    ensures InTurn(P, E, ws, groups, essentials, floor) && ws[0] == w
    ensures FundGroups(P, E, w, groups, essentials, floor) == Next(ws[|groups|])
    decreases |groups|
  {
    hide Valid, MomentOk, Leasing, Turn, FundGroups;
    if groups == [] {
      ws := [w];
      assert FundGroups(P, E, w, groups, essentials, floor) == Next(w) by { NoGroups(P, E, w, essentials, floor); }
    } else {
      FirstOfJoin(groups[0], Flatten(groups[1..]));
      var v := TurnIs(P, E, w, groups[0], essentials, floor);
      var later := FundGroupsIs(P, E, v, groups[1..], essentials, floor);
      ws := [w] + later;
      assert groups == [groups[0]] + groups[1..];
      forall i | 0 <= i < |groups| ensures Turn(P, E, ws[i], ws[i + 1], groups[i], essentials, floor) {
        if 0 < i { assert Turn(P, E, later[i - 1], later[i], groups[1..][i - 1], essentials, floor); }
      }
    }
  }

  lemma NoGroups(P: Params, E: Env, w: World, essentials: seq<nat>, floor: int)
    requires 0 < P.compactSeconds && 0 < P.largeSeconds
    ensures FundGroups(P, E, w, [], essentials, floor) == Next(w)
  {
  }

  // ---------------------------------------------------------------------------------------------
  // The lease

  /** The targets of this lease are remembered for the settlements that follow it. */
  function Planned(P: Params, E: Env, w: World): World
    requires 0 < P.lease
  {
    var (floor, working, protected) := Targets(P, Essentials(P, E, w), Wanted(P, E, w));
    w.(plan := Plan(floor, working, protected, w.plan.stableSince, w.plan.history))
  }

  /**
   Main result: a lease with a quorum, paid operations and an essential node lets the groups of the nodes it wants take
   their turns, and stability starts anew exactly when an essential node was left out; without one of the three it
   contracts nobody. Its targets hold either way.
   */
  lemma ContractIs(P: Params, E: Env, w: World) returns (ws: seq<World>)
    requires Sound(P, E) && Valid(P, w) && Leasing(P, w) && w.fleet.ready == map[]
    ensures var planned, essentials := Planned(P, E, w), Essentials(P, E, w);
            if !E.quorum(w.now) || w.cash.paidUntil <= w.now || essentials == [] then
              Contract(P, E, w) == Next(planned.(plan := planned.plan.(stableSince := w.now)))
            else
              && InTurn(P, E, ws, Groups(P, Wanted(P, E, w)), essentials, planned.plan.floor) && ws[0] == planned
              && var last := ws[|ws| - 1];
                 Contract(P, E, w)
                 == Next(if exists n :: n in essentials && n !in last.fleet.ready
                         then last.(plan := last.plan.(stableSince := last.now)) else last)
  {
    hide Valid, MomentOk, Essentials, Wanted, Targets, Groups, FundGroups, InTurn, TokenFree, CashOk, PlanOk, Flatten;
    assert MomentOk(P, E, w.now) by { SoundNow(P, E, w.now); }
    var essentials, wanted := Essentials(P, E, w), Wanted(P, E, w);
    WantedDistinct(P, E, w);
    TargetsFit(P, essentials, wanted);
    PlannedKeeps(P, E, w);
    GroupsDistinct(P, wanted);
    ws := FundGroupsIs(P, E, Planned(P, E, w), Groups(P, wanted), essentials, Planned(P, E, w).plan.floor);
    assert |ws| == |Groups(P, wanted)| + 1 by { TurnsLength(P, E, ws, Groups(P, wanted), essentials, Planned(P, E, w).plan.floor); }
  }

  lemma TurnsLength(P: Params, E: Env, ws: seq<World>, groups: seq<seq<nat>>, essentials: seq<nat>, floor: int)
    requires 0 < P.compactSeconds && 0 < P.largeSeconds && InTurn(P, E, ws, groups, essentials, floor)
    ensures |ws| == |groups| + 1
  {
  }

  lemma SoundNow(P: Params, E: Env, now: nat)
    requires Sound(P, E)
    ensures MomentOk(P, E, now)
  {
  }

  lemma PlannedKeeps(P: Params, E: Env, w: World)
    requires Sound(P, E) && Valid(P, w) && Leasing(P, w)
    requires |Essentials(P, E, w)| <= Crew(P) && |Wanted(P, E, w)| <= Crew(P)
    ensures Valid(P, Planned(P, E, w)) && Leasing(P, Planned(P, E, w))
  {
    hide Inv, RoleOf, Schedule, Requests, FleetOk, KeysPast, Essentials, Wanted, Targets, TokenFree, CashOk, MomentOk;
    TargetsFit(P, Essentials(P, E, w), Wanted(P, E, w));
    PlanKeeps(P, w, Planned(P, E, w));
    SameEvents(w, Planned(P, E, w));
  }
}
