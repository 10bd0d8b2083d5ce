/**
 The fund's rules in plain numbers: six hours of floor, one day of working target, three days of reserve, and what each
 of them decides about offers, settlements and the fund's state.
 */
module FundTargets {
  import opened MapSums
  import opened Cooperative
  import Refill
  import FundRuns

  // ---------------------------------------------------------------------------------------------
  // The targets

  /** What all groups earn in a second. */
  ghost function PerSecond(p: Pool): int { Sum(p.groups, (g: Group) => g.rate) }

  /** What open, current essential windows may still pay. */
  ghost function Committed(p: Pool): int
  {
    Sum(p.windows, (w: Window) => if w.open && w.current && w.kind == Essential then w.budget - w.paid else 0)
  }

  /** Six hours and one day of every group's rate, less the commitments, and three days of it; nothing is ever clamped. */
  lemma TargetsAre(p: Pool)
    requires PoolOk(p)
    ensures Rate(p) == PerSecond(p) && Held(p) == Committed(p)
    ensures Floor(p) == 21600 * PerSecond(p) - Committed(p) >= 0
    ensures WorkingTarget(p) == 86400 * PerSecond(p) - Committed(p) >= 0
    ensures ReserveTarget(p) == 259200 * PerSecond(p) >= 0
    ensures 0 <= Committed(p) <= 3600 * PerSecond(p)
  {
    hide Sum, PoolOk;
    SameSum(p.groups, RateIn, (g: Group) => g.rate);
    SameSum(p.windows, HeldIn, (w: Window) => if w.open && w.current && w.kind == Essential then w.budget - w.paid else 0);
    FloorNeverClamps(p);
  }

  // ---------------------------------------------------------------------------------------------
  // Offers

  /** A group already has an open window of this kind. */
  predicate Served(p: Pool, group: string, kind: Coverage)
  {
    exists w :: w in p.windows && p.windows[w].open && p.windows[w].group == group && p.windows[w].kind == kind
  }

  /** The liquidity of an expansion: its cost above six hours of floor, three full days of reserve, and a NORMAL fund. */
  ghost predicate Liquid(p: Pool, cost: int, source: Source, normal: bool)
  {
    && source == FromWorking && normal
    && p.working >= 21600 * PerSecond(p) - Committed(p) + cost && p.reserve >= 259200 * PerSecond(p)
  }

  /** The answer to an offer, check by check. */
  ghost function Answer(
    p: Pool, group: string, source: Source, kind: Coverage, supported: bool, routeReady: bool, normal: bool, leasable: bool): Reply
  {
    if group !in p.groups then GroupMissing
    else
      var cost := p.groups[group].rate * p.groups[group].duration;
      if !supported then SupportWindow
      else if Served(p, group, kind) then GroupCommitted
      else if !routeReady then RouteNotReady
      else if kind == Expansion && !Liquid(p, cost, source, normal) then ExpansionLiquidity
      else if source == FromReserve && cost <= p.working then ReserveProtected
      else if source == FromReserve && p.reserve < cost then InsufficientCredits
      else if !leasable then LeaseRefused
      else if source == FromWorking && p.working < cost then InsufficientCredits
      else Reply.Done
  }

  /** The pool after a window was opened: its cost left one account, and the window is new. */
  predicate OpenedFrom(p: Pool, q: Pool, id: nat, group: string, source: Source, kind: Coverage)
    requires group in p.groups
  {
    var cost := p.groups[group].rate * p.groups[group].duration;
    && q.windows == p.windows[id := Window(group, kind, source, cost, 0, true, true)]
    && q.working == (if source == FromWorking then p.working - cost else p.working)
    && q.reserve == (if source == FromReserve then p.reserve - cost else p.reserve)
    && q.burned == p.burned && q.groups == p.groups && q.settlements == p.settlements
  }

  /** Main result: every offer is answered as stated, and only one that is answered Done changes the pool. */
  lemma OfferIs(
    p: Pool, id: nat, group: string, source: Source, kind: Coverage,
    supported: bool, routeReady: bool, normal: bool, leasable: bool)
    requires PoolOk(p) && id !in p.windows
    ensures var (q, reply) := Offering(p, id, group, source, kind, supported, routeReady, normal, leasable);
            && reply == Answer(p, group, source, kind, supported, routeReady, normal, leasable)
            && if reply == Reply.Done then group in p.groups && OpenedFrom(p, q, id, group, source, kind) else q == p
  {
    hide Sum, PoolOk, Floor, ReserveTarget, PerSecond, Committed;
    TargetsAre(p);
  }

  /**
   An expansion opens exactly when the fund is NORMAL and supported, the route is ready and not yet served, the lease can be
   made, the reserve covers three days of every group's rate and working capital keeps six hours of it after paying.
   */
  lemma ExpansionOpensExactlyWhen(
    p: Pool, id: nat, group: string, source: Source, supported: bool, routeReady: bool, normal: bool, leasable: bool)
    requires PoolOk(p) && id !in p.windows
    ensures Offering(p, id, group, source, Expansion, supported, routeReady, normal, leasable).1 == Reply.Done <==>
            && group in p.groups && supported && routeReady && normal && leasable && source == FromWorking
            && !Served(p, group, Expansion) && p.reserve >= 3 * 86400 * PerSecond(p)
            && p.working - p.groups[group].rate * p.groups[group].duration >= 6 * 3600 * PerSecond(p) - Committed(p)
  {
    hide Sum, PoolOk, PerSecond, Committed, Offering;
    OfferIs(p, id, group, source, Expansion, supported, routeReady, normal, leasable);
    TargetsAre(p);
  }

  /** An essential window opens from working capital when that can pay, and from the reserve only when it cannot. */
  lemma EssentialOpensExactlyWhen(
    p: Pool, id: nat, group: string, source: Source, supported: bool, routeReady: bool, normal: bool, leasable: bool)
    requires PoolOk(p) && id !in p.windows
    ensures Offering(p, id, group, source, Essential, supported, routeReady, normal, leasable).1 == Reply.Done <==>
            && group in p.groups && supported && routeReady && leasable && !Served(p, group, Essential)
            && var cost := p.groups[group].rate * p.groups[group].duration;
               if source == FromWorking then cost <= p.working else p.working < cost <= p.reserve
  {
    hide Sum, PoolOk, PerSecond, Committed, Offering;
    OfferIs(p, id, group, source, Essential, supported, routeReady, normal, leasable);
  }

  // ---------------------------------------------------------------------------------------------
  // Settlements

  /**
   A division of a charge that follows the priorities: six hours of working capital first, then three days of reserve,
   then one day of working capital, and only then the burn.
   */
  ghost predicate Prioritised(p: Pool, charge: int, working: int, reserve: int, burned: int)
  {
    var rate, held := PerSecond(p), Committed(p);
    && 0 <= working && 0 <= reserve && 0 <= burned && working + reserve + burned == charge
    && (reserve > 0 ==> p.working + working >= 21600 * rate - held && p.reserve + reserve <= 259200 * rate)
    && (working > 0 ==> p.working + working <= 21600 * rate - held
                        || (p.reserve + reserve >= 259200 * rate && p.working + working <= 86400 * rate - held))
    && (burned > 0 ==> p.working + working >= 86400 * rate - held && p.reserve + reserve >= 259200 * rate)
  }

  /** The priorities leave no choice. */
  lemma OnlyOneDivision(p: Pool, charge: int, a: int, b: int, c: int, x: int, y: int, z: int)
    requires PoolOk(p) && Prioritised(p, charge, a, b, c) && Prioritised(p, charge, x, y, z)
    ensures a == x && b == y && c == z
  {
    hide Sum, PoolOk, PerSecond, Committed;
    TargetsAre(p);
  }

  /** Main result: a settlement divides its charge by the priorities, records exactly that, and changes nothing else. */
  lemma SettlementIs(p: Pool, session: nat, charge: nat)
    requires PoolOk(p) && session !in p.settlements
    ensures var q := Settle(p, session, charge);
            var working, reserve, burned := q.working - p.working, q.reserve - p.reserve, q.burned - p.burned;
            && Prioritised(p, charge, working, reserve, burned)
            && q.settlements == p.settlements[session := Settlement(charge, working, reserve, burned, false)]
            && q.groups == p.groups && q.windows == p.windows
  {
    hide Sum, PoolOk, PerSecond, Committed, Floor, WorkingTarget, ReserveTarget;
    TargetsAre(p);
  }

  /** A refund takes back from each account what its settlement put there, when all three have it, and only once. */
  lemma RefundIs(p: Pool, session: nat)
    ensures var (q, reply) := Refund(p, session);
            if session !in p.settlements then q == p && reply == SettlementMissing
            else
              var s := p.settlements[session];
              if s.refunded then q == p && reply == AlreadyRefunded
              else if s.working <= p.working && s.reserve <= p.reserve && s.burned <= p.burned then
                && reply == Reply.Done && q.working == p.working - s.working && q.reserve == p.reserve - s.reserve
                && q.burned == p.burned - s.burned && q.groups == p.groups && q.windows == p.windows
                && q.settlements == p.settlements[session := Settlement(s.charge, s.working, s.reserve, s.burned, true)]
              else q == p && reply == InsufficientCredits
  {
  }

  /** Closing a window returns what it did not pay to the account it was funded from; a contribution goes where it is meant. */
  lemma ReturnsAre(p: Pool, id: nat, to: Source, amount: nat)
    requires id in p.windows && p.windows[id].open
    ensures var w := p.windows[id]; var q := CloseWindow(p, id);
            && q.working == p.working + (if w.source == FromWorking then w.budget - w.paid else 0)
            && q.reserve == p.reserve + (if w.source == FromReserve then w.budget - w.paid else 0)
            && q == p.(working := q.working, reserve := q.reserve, windows := p.windows[id := w.(open := false)])
    ensures var q := Contribute(p, to, amount);
            q == p.(working := p.working + (if to == FromWorking then amount else 0),
                    reserve := p.reserve + if to == FromReserve then amount else 0)
  {
  }

  /** Time and payments change only their own window: it stops being current, or it has paid more. */
  lemma WindowsMove(p: Pool, id: nat, amount: nat)
    requires id in p.windows && p.windows[id].open && amount <= p.windows[id].budget - p.windows[id].paid
    ensures var w := p.windows[id];
            && Lapse(p, id) == p.(windows := p.windows[id := Window(w.group, w.kind, w.source, w.budget, w.paid, w.open, false)])
            && PayOut(p, id, amount)
               == p.(windows := p.windows[id := Window(w.group, w.kind, w.source, w.budget, w.paid + amount, w.open, w.current)])
  {
  }

  // ---------------------------------------------------------------------------------------------
  // Every run

  /** In every run of a fund the three priorities and the conditions of an expansion hold of whatever comes next. */
  lemma {:induction false} EveryRunFollowsTheTargets(
    p: Pool, actions: seq<FundRuns.Action>, q: Pool, action: FundRuns.Action)
    requires PoolOk(p) && FundRuns.Leads(p, actions, q) && FundRuns.Possible(q, action)
    ensures var after := FundRuns.Next(q, action);
            && (action.DoSettle? ==>
                  Prioritised(q, action.charge, after.working - q.working, after.reserve - q.reserve, after.burned - q.burned))
            && (action.DoOffer? && after != q ==>
                  && action.group in q.groups && OpenedFrom(q, after, action.id, action.group, action.source, action.kind)
                  && (action.kind == Expansion ==>
                        && q.reserve == after.reserve >= 259200 * PerSecond(q)
                        && after.working >= 21600 * PerSecond(q) - Committed(q)))
    decreases |actions|
  {
    hide PoolOk, FundRuns.Leads, Offering, Settle, PerSecond, Committed, Sum, Prioritised, Served;
    FundRuns.RunAccounts(p, actions, q);
    match action
    case DoSettle(session, charge) => SettlementIs(q, session, charge);
    case DoOffer(id, group, source, kind, supported, routeReady, normal, leasable) =>
      OfferIs(q, id, group, source, kind, supported, routeReady, normal, leasable);
    case _ =>
  }

  // ---------------------------------------------------------------------------------------------
  // The fund's state

  /** Every look from the j-th on found the fund healthy, and none came more than six seconds after the one before. */
  predicate HealthySince(looks: seq<Look>, j: int)
  {
    && 0 <= j < |looks|
    && forall k :: j <= k < |looks| ==> looks[k].continuous && (k == j || looks[k].now - looks[k - 1].now <= 6000)
  }

  /** The j-th is the earliest such look. */
  predicate Began(looks: seq<Look>, j: int) { HealthySince(looks, j) && !HealthySince(looks, j - 1) }

  lemma OneMoreLook(looks: seq<Look>, j: int)
    requires looks != [] && 0 <= j < |looks| - 1
    ensures HealthySince(looks, j) <==>
            && HealthySince(looks[..|looks| - 1], j) && looks[|looks| - 1].continuous
            && looks[|looks| - 1].now - looks[|looks| - 2].now <= 6000
  {
    var n := |looks| - 1;
    var before := looks[..n];
    assert forall k :: 0 <= k < n ==> before[k] == looks[k];
    if HealthySince(before, j) && looks[n].continuous && looks[n].now - looks[n - 1].now <= 6000 {
      forall k | j <= k < |looks| ensures looks[k].continuous && (k == j || looks[k].now - looks[k - 1].now <= 6000) {
        if k < n { assert looks[k] == before[k] && (k > j ==> looks[k - 1] == before[k - 1]); }
      }
    }
  }

  /** Health recorded after some looks began with the earliest look since which it was never interrupted. */
  lemma {:induction false} HealthBegan(looks: seq<Look>) returns (j: nat)
    requires looks != [] && looks[|looks| - 1].continuous
    ensures j < |looks| && Began(looks, j)
    ensures After(looks) == Health(At(looks[j].now), At(looks[|looks| - 1].now))
  {
    var n := |looks| - 1;
    var before, last := looks[..n], looks[n];
    assert After(looks) == Reconcile(After(before), last);
    if n > 0 { SinceBreaks(before); OneMoreLook(looks, n - 1); }
    if n > 0 && before[n - 1].continuous && last.now - before[n - 1].now <= 6000 {
      j := HealthBegan(before);
      OneMoreLook(looks, j);
      if j > 0 { OneMoreLook(looks, j - 1); }
    } else {
      j := n;
    }
  }

  /** The last look is always recorded, and an unhealthy one leaves no start. */
  lemma SinceBreaks(looks: seq<Look>)
    requires looks != []
    ensures After(looks).sampled == At(looks[|looks| - 1].now)
    ensures !looks[|looks| - 1].continuous ==> After(looks).since == Never
  {
  }

  /**
   Main result: the fund is HIBERNATING without support or without an affordable group, in DEFENSE while a group is not
   ready or working capital is below the minimum, NORMAL exactly when in addition it has been healthy for a day without a
   break of more than six seconds, and in RECOVERY otherwise.
   */
  lemma StateIs(looks: seq<Look>, supported: bool, affordable: bool, allReady: bool, minimumMet: bool)
    requires looks != []
    ensures var last := |looks| - 1; var state := StateAt(After(looks), looks[last].now, supported, affordable, allReady, minimumMet);
            && (state == Hibernating <==> !supported || !affordable)
            && (state == Defense <==> supported && affordable && !(allReady && minimumMet))
            && (state == Normal <==>
                  && supported && affordable && allReady && minimumMet
                  && exists j :: Began(looks, j) && looks[last].now - looks[j].now >= 86400000)
  {
    hide After, HealthySince;
    var last := |looks| - 1;
    if looks[last].continuous {
      var j := HealthBegan(looks);
      forall i | Began(looks, i) ensures i == j { OneBeginning(looks, i, j); }
    } else {
      SinceBreaks(looks);
      forall i ensures !HealthySince(looks, i) { NotHealthy(looks, i); }
    }
  }

  lemma NotHealthy(looks: seq<Look>, j: int)
    requires looks != [] && !looks[|looks| - 1].continuous
    ensures !HealthySince(looks, j)
  {
  }

  /** Health that lasts from one look lasts from every later one. */
  lemma StillHealthy(looks: seq<Look>, i: int, j: int)
    requires HealthySince(looks, i) && i <= j < |looks|
    ensures HealthySince(looks, j)
  {
  }

  lemma OneBeginning(looks: seq<Look>, i: int, j: int)
    requires Began(looks, i) && Began(looks, j)
    ensures i == j
  {
    hide HealthySince;
    if i < j {
      InRange(looks, j);
      StillHealthy(looks, i, j - 1);
    } else if j < i {
      InRange(looks, i);
      StillHealthy(looks, j, i - 1);
    }
  }

  lemma InRange(looks: seq<Look>, j: int)
    requires HealthySince(looks, j)
    ensures 0 <= j < |looks|
  {
  }
}
