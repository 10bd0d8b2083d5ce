/**
 The cooperative fund (apps/control-api/src/cooperative.ts): a floor that depends on open commitments, funded
 windows, settlements that recycle, and refunds to the exact original destinations.
 */
module Cooperative {
  import opened MapSums
  import opened Refill

  const FLOOR_SECONDS := 21600
  const WORKING_SECONDS := 86400
  const RESERVE_SECONDS := 259200

  datatype Source = FromWorking | FromReserve
  datatype Coverage = Essential | Expansion

  datatype Group = Group(rate: int, duration: int) {
    function Cost(): int { rate * duration }
  }

  /** `current` is whether the window's end (or its offer's expiry) still lies ahead. */
  datatype Window = Window(group: string, kind: Coverage, source: Source, budget: int, paid: int, open: bool, current: bool)

  datatype Settlement = Settlement(charge: int, working: int, reserve: int, burned: int, refunded: bool)

  datatype Pool = Pool(
    groups: map<string, Group>, working: int, reserve: int, burned: int,
    windows: map<nat, Window>, settlements: map<nat, Settlement>)
  {
    function Balance(s: Source): int { if s == FromWorking then working else reserve }
    function Move(s: Source, value: int): Pool {
      if s == FromWorking then this.(working := working + value) else this.(reserve := reserve + value)
    }
  }

  function RateIn(g: Group): int { g.rate }
  function CostIn(g: Group): int { g.Cost() }
  function HeldIn(w: Window): int { if w.open && w.current && w.kind == Essential then w.budget - w.paid else 0 }
  function BurnedIn(s: Settlement): int { if s.refunded then 0 else s.burned }

  ghost function Rate(p: Pool): int { Sum(p.groups, RateIn) }
  ghost function Held(p: Pool): int { Sum(p.windows, HeldIn) }

  // ---------------------------------------------------------------------------------------------
  // cooperativeSnapshot

  ghost function Floor(p: Pool): int { Gap(Rate(p) * FLOOR_SECONDS, Held(p)) }
  ghost function WorkingTarget(p: Pool): int { Gap(Rate(p) * WORKING_SECONDS, Held(p)) }
  ghost function ReserveTarget(p: Pool): int { Rate(p) * RESERVE_SECONDS }

  // ---------------------------------------------------------------------------------------------
  // Operations

  datatype Reply = Done | GroupMissing | SupportWindow | GroupCommitted | RouteNotReady | ExpansionLiquidity
                 | ReserveProtected | InsufficientCredits | LeaseRefused | SettlementMissing | AlreadyRefunded

  predicate Occupied(p: Pool, group: string, kind: Coverage)
  {
    exists id :: id in p.windows && p.windows[id].open && p.windows[id].group == group && p.windows[id].kind == kind
  }

  /** `normal` is the fund's state, `leasable` whatever else the lease offer checks. */
  ghost function Offering(
    p: Pool, id: nat, group: string, source: Source, kind: Coverage,
    supported: bool, routeReady: bool, normal: bool, leasable: bool): (Pool, Reply)
    requires id !in p.windows
  {
    if group !in p.groups then (p, GroupMissing)
    else if !supported then (p, SupportWindow)
    else if Occupied(p, group, kind) then (p, GroupCommitted)
    else if !routeReady then (p, RouteNotReady)
    else
      var budget := p.groups[group].Cost();
      if kind == Expansion && !(source == FromWorking && p.working >= Floor(p) + budget
                                && p.reserve >= ReserveTarget(p) && normal) then (p, ExpansionLiquidity)
      else if source == FromReserve && p.working >= budget then (p, ReserveProtected)
      else if source == FromReserve && p.reserve < budget then (p, InsufficientCredits)
      else if !leasable then (p, LeaseRefused)
      else if p.Balance(source) < budget then (p, InsufficientCredits)
      else (p.Move(source, -budget).(windows := p.windows[id := Window(group, kind, source, budget, 0, true, true)]), Done)
  }

  /** The window's lease pays its members, runs past its time, or closes and returns the rest to its source. */
  function PayOut(p: Pool, id: nat, amount: nat): Pool
    requires id in p.windows && p.windows[id].open && amount <= p.windows[id].budget - p.windows[id].paid
  {
    p.(windows := p.windows[id := p.windows[id].(paid := p.windows[id].paid + amount)])
  }

  function Lapse(p: Pool, id: nat): Pool
    requires id in p.windows
  {
    p.(windows := p.windows[id := p.windows[id].(current := false)])
  }

  function CloseWindow(p: Pool, id: nat): Pool
    requires id in p.windows && p.windows[id].open
  {
    var w := p.windows[id];
    p.Move(w.source, w.budget - w.paid).(windows := p.windows[id := w.(open := false)])
  }

  function Contribute(p: Pool, to: Source, amount: nat): Pool { p.Move(to, amount) }

  ghost function Allocate(p: Pool, charge: int): Allocation
  {
    Recycle(charge, p.working, p.reserve, Floor(p), WorkingTarget(p), ReserveTarget(p))
  }

  /** recycleSettlement: a session settles at most once. */
  ghost function Settle(p: Pool, session: nat, charge: nat): Pool
    requires session !in p.settlements
  {
    var a := Allocate(p, charge);
    p.(working := p.working + a.floor + a.working, reserve := p.reserve + a.reserve, burned := p.burned + a.burned,
       settlements := p.settlements[session := Settlement(charge, a.floor + a.working, a.reserve, a.burned, false)])
  }

  /** The posting needs both balances: a consumption refund can be refused, never partly paid. */
  function Refund(p: Pool, session: nat): (Pool, Reply)
  {
    if session !in p.settlements then (p, SettlementMissing)
    else
      var s := p.settlements[session];
      if s.refunded then (p, AlreadyRefunded)
      else if p.working < s.working || p.reserve < s.reserve || p.burned < s.burned then (p, InsufficientCredits)
      else (p.(working := p.working - s.working, reserve := p.reserve - s.reserve, burned := p.burned - s.burned,
               settlements := p.settlements[session := s.(refunded := true)]), Done)
  }

  // ---------------------------------------------------------------------------------------------
  // The invariant

  predicate GroupOk(g: Group) { 0 < g.rate && 30 <= g.duration <= 3600 }

  predicate WindowOk(p: Pool, w: Window)
  {
    w.group in p.groups && w.budget == p.groups[w.group].Cost() && 0 <= w.paid <= w.budget
  }

  /** Never two open windows of one kind in one group. */
  predicate Alone(windows: map<nat, Window>, i: nat, j: nat)
  {
    (&& i in windows && j in windows && windows[i].open && windows[j].open
     && windows[i].group == windows[j].group && windows[i].kind == windows[j].kind) ==> i == j
  }

  predicate SettlementOk(s: Settlement)
  {
    0 <= s.working && 0 <= s.reserve && 0 <= s.burned && s.working + s.reserve + s.burned == s.charge
  }

  ghost predicate PoolOk(p: Pool)
  {
    && (forall k :: k in p.groups ==> GroupOk(p.groups[k]))
    && (forall i :: i in p.windows ==> WindowOk(p, p.windows[i]))
    && (forall i, j :: Alone(p.windows, i, j))
    && (forall s :: s in p.settlements ==> SettlementOk(p.settlements[s]))
    && 0 <= p.working && 0 <= p.reserve
    && p.burned == Sum(p.settlements, BurnedIn)
  }

  lemma CostPositive(g: Group)
    requires GroupOk(g)
    ensures 0 < g.Cost() <= 3600 * g.rate
  {
  }

  lemma OfferKeeps(
    p: Pool, id: nat, group: string, source: Source, kind: Coverage,
    supported: bool, routeReady: bool, normal: bool, leasable: bool)
    requires PoolOk(p) && id !in p.windows
    ensures PoolOk(Offering(p, id, group, source, kind, supported, routeReady, normal, leasable).0)
  {
    hide Sum, Floor, ReserveTarget, GroupOk, SettlementOk;
    var (after, reply) := Offering(p, id, group, source, kind, supported, routeReady, normal, leasable);
    if reply == Done {
      assert 0 <= p.groups[group].Cost() by { assert GroupOk(p.groups[group]); CostPositive(p.groups[group]); }
      forall i | i in after.windows ensures WindowOk(after, after.windows[i]) {
        if i != id { assert WindowOk(p, p.windows[i]); }
      }
      forall i, j ensures Alone(after.windows, i, j) { assert Alone(p.windows, i, j); }
    }
  }

  lemma PayOutKeeps(p: Pool, id: nat, amount: nat)
    requires PoolOk(p) && id in p.windows && p.windows[id].open && amount <= p.windows[id].budget - p.windows[id].paid
    ensures PoolOk(PayOut(p, id, amount))
  {
    hide Sum, GroupOk, SettlementOk;
    var after := PayOut(p, id, amount);
    assert WindowOk(p, p.windows[id]);
    forall i | i in after.windows ensures WindowOk(after, after.windows[i]) { assert WindowOk(p, p.windows[i]); }
    forall i, j ensures Alone(after.windows, i, j) { assert Alone(p.windows, i, j); }
  }

  lemma LapseKeeps(p: Pool, id: nat)
    requires PoolOk(p) && id in p.windows
    ensures PoolOk(Lapse(p, id))
  {
    hide Sum, GroupOk, SettlementOk;
    var after := Lapse(p, id);
    forall i | i in after.windows ensures WindowOk(after, after.windows[i]) { assert WindowOk(p, p.windows[i]); }
    forall i, j ensures Alone(after.windows, i, j) { assert Alone(p.windows, i, j); }
  }

  lemma CloseWindowKeeps(p: Pool, id: nat)
    requires PoolOk(p) && id in p.windows && p.windows[id].open
    ensures PoolOk(CloseWindow(p, id))
  {
    hide Sum, GroupOk, SettlementOk;
    var after := CloseWindow(p, id);
    assert WindowOk(p, p.windows[id]);
    forall i | i in after.windows ensures WindowOk(after, after.windows[i]) { assert WindowOk(p, p.windows[i]); }
    forall i, j ensures Alone(after.windows, i, j) { assert Alone(p.windows, i, j); }
  }

  lemma SettleKeeps(p: Pool, session: nat, charge: nat)
    requires PoolOk(p) && session !in p.settlements
    ensures PoolOk(Settle(p, session, charge))
  {
    hide Sum, GroupOk, Alone, Recycle, Floor, WorkingTarget, ReserveTarget;
    var a := Allocate(p, charge);
    var after := Settle(p, session, charge);
    RecycleExact(charge, p.working, p.reserve, Floor(p), WorkingTarget(p), ReserveTarget(p));
    With(p.settlements, BurnedIn, session, after.settlements[session]);
    forall i | i in after.windows ensures WindowOk(after, after.windows[i]) { assert WindowOk(p, p.windows[i]); }
  }

  lemma RefundKeeps(p: Pool, session: nat)
    requires PoolOk(p)
    ensures PoolOk(Refund(p, session).0)
  {
    hide Sum, GroupOk, Alone;
    var (after, reply) := Refund(p, session);
    if reply == Done {
      With(p.settlements, BurnedIn, session, after.settlements[session]);
      forall i | i in after.windows ensures WindowOk(after, after.windows[i]) { assert WindowOk(p, p.windows[i]); }
    }
  }

  /** A settled charge that was not refunded is always still covered by the burn account. */
  lemma BurnCoversRefund(p: Pool, session: nat)
    requires PoolOk(p) && session in p.settlements && !p.settlements[session].refunded
    ensures p.settlements[session].burned <= p.burned
  {
    hide Sum;
    assert forall s :: s in p.settlements ==> SettlementOk(p.settlements[s]);
    Part(p.settlements, BurnedIn, session);
  }

  // ---------------------------------------------------------------------------------------------
  // The floor

  predicate Holding(w: Window) { w.open && w.current && w.kind == Essential }

  lemma {:induction false} HeldWithinCosts(groups: map<string, Group>, windows: map<nat, Window>)
    requires forall k :: k in groups ==> GroupOk(groups[k])
    requires forall i :: i in windows && Holding(windows[i]) ==>
               windows[i].group in groups && 0 <= windows[i].budget - windows[i].paid <= groups[windows[i].group].Cost()
    requires forall i, j :: Alone(windows, i, j)
    ensures 0 <= Sum(windows, HeldIn) <= Sum(groups, CostIn)
    decreases |windows|
  {
    hide Sum;
    if windows == map[] {
      Nothing<nat, Window>(HeldIn);
      forall k | k in groups ensures 0 <= CostIn(groups[k]) { CostPositive(groups[k]); }
      NonNegative(groups, CostIn);
    } else {
      var i :| i in windows;
      var rest := windows - {i};
      Split(windows, HeldIn, i);
      forall j, k ensures Alone(rest, j, k) { assert Alone(windows, j, k); }
      if Holding(windows[i]) {
        var g := windows[i].group;
        Split(groups, CostIn, g);
        forall j | j in rest && Holding(rest[j]) ensures rest[j].group in groups - {g} {
          assert Alone(windows, i, j);
        }
        HeldWithinCosts(groups - {g}, rest);
      } else {
        HeldWithinCosts(groups, rest);
      }
    }
  }

  lemma {:induction false} CostsWithinAnHour(groups: map<string, Group>)
    requires forall k :: k in groups ==> GroupOk(groups[k])
    ensures 0 <= Sum(groups, CostIn) <= 3600 * Sum(groups, RateIn)
    decreases |groups|
  {
    hide Sum;
    if groups == map[] {
      Nothing<string, Group>(CostIn);
      Nothing<string, Group>(RateIn);
    } else {
      var k :| k in groups;
      Split(groups, CostIn, k);
      Split(groups, RateIn, k);
      CostPositive(groups[k]);
      CostsWithinAnHour(groups - {k});
    }
  }

  /**
   Open commitments never reach the six-hour horizon: neither target is ever clamped at zero, and the floor keeps
   at least five hours of every group's rate.
   */
  lemma FloorNeverClamps(p: Pool)
    requires PoolOk(p)
    ensures 0 <= Held(p) <= 3600 * Rate(p)
    ensures Floor(p) == Rate(p) * FLOOR_SECONDS - Held(p) >= 5 * 3600 * Rate(p)
    ensures WorkingTarget(p) == Rate(p) * WORKING_SECONDS - Held(p) >= Floor(p)
  {
    hide Sum;
    forall i | i in p.windows && Holding(p.windows[i])
      ensures p.windows[i].group in p.groups
              && 0 <= p.windows[i].budget - p.windows[i].paid <= p.groups[p.windows[i].group].Cost()
    {
      assert WindowOk(p, p.windows[i]);
    }
    HeldWithinCosts(p.groups, p.windows);
    CostsWithinAnHour(p.groups);
  }

  // ---------------------------------------------------------------------------------------------
  // What funding does to liquidity

  /** What the fund has above its floor. */
  ghost function Margin(p: Pool): int { p.working - Floor(p) }

  lemma HeldAfter(p: Pool, id: nat, w: Window)
    ensures Held(p.(windows := p.windows[id := w]))
         == Held(p) - (if id in p.windows then HeldIn(p.windows[id]) else 0) + HeldIn(w)
  {
    hide Sum;
    With(p.windows, HeldIn, id, w);
  }

  /** An essential window funded from working capital leaves the margin exactly as it was. */
  lemma EssentialKeepsMargin(p: Pool, id: nat, group: string, supported: bool, routeReady: bool, normal: bool, leasable: bool)
    requires PoolOk(p) && id !in p.windows
    ensures var (after, reply) := Offering(p, id, group, FromWorking, Essential, supported, routeReady, normal, leasable);
            Margin(after) == Margin(p) && after.reserve == p.reserve
  {
    hide Sum, Occupied;
    var (after, reply) := Offering(p, id, group, FromWorking, Essential, supported, routeReady, normal, leasable);
    OfferKeeps(p, id, group, FromWorking, Essential, supported, routeReady, normal, leasable);
    FloorNeverClamps(p);
    FloorNeverClamps(after);
    if reply == Done { HeldAfter(p, id, after.windows[id]); }
  }

  /** An essential window funded from the reserve raises the margin by its budget, and only when working capital could not pay. */
  lemma ReserveKeepsWorking(p: Pool, id: nat, group: string, supported: bool, routeReady: bool, normal: bool, leasable: bool)
    requires PoolOk(p) && id !in p.windows
    ensures var (after, reply) := Offering(p, id, group, FromReserve, Essential, supported, routeReady, normal, leasable);
            reply == Done ==>
              && group in p.groups && p.working < p.groups[group].Cost() <= p.reserve
              && after.working == p.working && after.reserve == p.reserve - p.groups[group].Cost()
              && Margin(after) == Margin(p) + p.groups[group].Cost()
  {
    hide Sum, Occupied;
    var (after, reply) := Offering(p, id, group, FromReserve, Essential, supported, routeReady, normal, leasable);
    OfferKeeps(p, id, group, FromReserve, Essential, supported, routeReady, normal, leasable);
    FloorNeverClamps(p);
    FloorNeverClamps(after);
    if reply == Done { HeldAfter(p, id, after.windows[id]); }
  }

  /** An expansion window leaves working capital at or above the floor, and the reserve untouched and full. */
  lemma ExpansionKeepsFloor(p: Pool, id: nat, group: string, source: Source, supported: bool, routeReady: bool, normal: bool, leasable: bool)
    requires PoolOk(p) && id !in p.windows
    ensures var (after, reply) := Offering(p, id, group, source, Expansion, supported, routeReady, normal, leasable);
            reply == Done ==>
              && source == FromWorking && Floor(after) == Floor(p) && after.working >= Floor(after)
              && after.reserve == p.reserve >= ReserveTarget(p)
  {
    hide Sum, Occupied;
    var (after, reply) := Offering(p, id, group, source, Expansion, supported, routeReady, normal, leasable);
    if reply == Done { HeldAfter(p, id, after.windows[id]); }
  }

  /** Closing a still current essential window funded from working capital keeps the margin: what returns was committed. */
  lemma ClosingKeepsMargin(p: Pool, id: nat)
    requires PoolOk(p) && id in p.windows && p.windows[id].open && p.windows[id].current
    requires p.windows[id].kind == Essential && p.windows[id].source == FromWorking
    ensures Margin(CloseWindow(p, id)) == Margin(p)
  {
    hide Sum;
    CloseWindowKeeps(p, id);
    FloorNeverClamps(p);
    FloorNeverClamps(CloseWindow(p, id));
    HeldAfter(p, id, p.windows[id].(open := false));
  }

  // ---------------------------------------------------------------------------------------------
  // Settlement and refund

  /**
   A refund undoes its settlement exactly, whatever happened in between: it takes from each account what that
   settlement put there, it adds up to the charge, and it happens at most once.
   */
  lemma RefundIsExact(p: Pool, session: nat, charge: nat, later: Pool)
    requires PoolOk(p) && session !in p.settlements
    requires PoolOk(later) && session in later.settlements
    requires later.settlements[session] == Settle(p, session, charge).settlements[session]
    ensures var before := Settle(p, session, charge); var (after, reply) := Refund(later, session);
            && (reply == Done <==> later.working >= before.working - p.working && later.reserve >= before.reserve - p.reserve)
            && (reply == Done ==>
                  && after.working == later.working - (before.working - p.working)
                  && after.reserve == later.reserve - (before.reserve - p.reserve)
                  && after.burned == later.burned - (before.burned - p.burned)
                  && (later.working - after.working) + (later.reserve - after.reserve) + (later.burned - after.burned) == charge
                  && Refund(after, session).1 == AlreadyRefunded)
  {
    hide Sum, Recycle, Floor, WorkingTarget, ReserveTarget;
    RecycleExact(charge, p.working, p.reserve, Floor(p), WorkingTarget(p), ReserveTarget(p));
    BurnCoversRefund(later, session);
  }

  // ---------------------------------------------------------------------------------------------
  // Recovery: what NORMAL means

  const HEALTH_GAP := 6000
  const DAY_MS := 86400000

  datatype Instant = Never | At(ms: int)
  datatype Health = Health(since: Instant, sampled: Instant)
  datatype State = Hibernating | Defense | Recovery | Normal

  /** One look: its time, and whether the fund is supported, ready, above its floor and fully reserved. */
  datatype Look = Look(now: int, continuous: bool)

  function SinceAfter(h: Health, look: Look): Instant
  {
    if !look.continuous then Never
    else if h.since.At? && look.now - (if h.sampled.At? then h.sampled.ms else 0) <= HEALTH_GAP then h.since
    else At(look.now)
  }

  /** reconcile stores what the snapshot computed. */
  function Reconcile(h: Health, look: Look): Health { Health(SinceAfter(h, look), At(look.now)) }

  function After(looks: seq<Look>): Health
  {
    if looks == [] then Health(Never, Never) else Reconcile(After(looks[..|looks| - 1]), looks[|looks| - 1])
  }

  function StateAt(h: Health, now: int, supported: bool, affordable: bool, allReady: bool, minimumMet: bool): State
  {
    if !(supported && affordable) then Hibernating
    else if !allReady || !minimumMet then Defense
    else if h.since.At? && now - h.since.ms >= DAY_MS then Normal
    else Recovery
  }

  /** From look j on, every look was continuous and none came more than six seconds after the one before. */
  predicate Steady(looks: seq<Look>, j: nat)
  {
    forall k :: j <= k < |looks| ==> looks[k].continuous && (k > j ==> looks[k].now - looks[k - 1].now <= HEALTH_GAP)
  }

  /** The recorded start of health is the time of a look since which health was never interrupted. */
  lemma {:induction false} HealthIsUninterrupted(looks: seq<Look>) returns (j: nat)
    requires After(looks).since.At?
    ensures j < |looks| && looks[j].now == After(looks).since.ms && Steady(looks, j)
  {
    var before, last := looks[..|looks| - 1], looks[|looks| - 1];
    var h := After(before);
    if h.since.At? && SinceAfter(h, last) == h.since && last.now - (if h.sampled.At? then h.sampled.ms else 0) <= HEALTH_GAP {
      j := HealthIsUninterrupted(before);
      forall k | j <= k < |looks| ensures looks[k].continuous && (k > j ==> looks[k].now - looks[k - 1].now <= HEALTH_GAP) {
        if k < |before| { assert looks[k] == before[k] && (k > j ==> looks[k - 1] == before[k - 1]); }
      }
    } else {
      j := |looks| - 1;
    }
  }

  lemma {:induction false} SteadySpan(looks: seq<Look>, j: nat)
    requires j < |looks| && Steady(looks, j)
    ensures looks[|looks| - 1].now - looks[j].now <= HEALTH_GAP * (|looks| - 1 - j)
    decreases |looks|
  {
    if j < |looks| - 1 {
      var before := looks[..|looks| - 1];
      assert forall k :: 0 <= k < |before| ==> before[k] == looks[k];
      SteadySpan(before, j);
    }
  }

  /** The fund is NORMAL only after at least 14400 consecutive intervals of uninterrupted health, a whole day of them. */
  lemma NormalTakesADay(looks: seq<Look>, supported: bool, affordable: bool, allReady: bool, minimumMet: bool) returns (j: nat)
    requires looks != []
    requires StateAt(After(looks), looks[|looks| - 1].now, supported, affordable, allReady, minimumMet) == Normal
    ensures supported && affordable && allReady && minimumMet
    ensures j + 14400 < |looks| && Steady(looks, j) && looks[|looks| - 1].now - looks[j].now >= DAY_MS
  {
    j := HealthIsUninterrupted(looks);
    SteadySpan(looks, j);
  }

  // ---------------------------------------------------------------------------------------------
  // The fund itself

  class CooperativeFund {
    var groups: map<string, Group>
    var working: int
    var reserve: int
    var burned: int
    var windows: map<nat, Window>
    var settlements: map<nat, Settlement>

    function View(): Pool
      reads this
    {
      Pool(groups, working, reserve, burned, windows, settlements)
    }

    /** The three targets, from two reductions over rows. */
    method Targets() returns (floor: int, workingTarget: int, reserveTarget: int)
      ensures floor == Floor(View()) && workingTarget == WorkingTarget(View()) && reserveTarget == ReserveTarget(View())
      ensures var rate, held := Sum(groups, RateIn), Sum(windows, HeldIn);
              && floor == (if held < 21600 * rate then 21600 * rate - held else 0)
              && workingTarget == (if held < 86400 * rate then 86400 * rate - held else 0) && reserveTarget == 259200 * rate
    {
      hide Sum;
      var rate := AddUp(groups, RateIn);
      var held := AddUp(windows, HeldIn);
      floor := Gap(rate * FLOOR_SECONDS, held);
      workingTarget := Gap(rate * WORKING_SECONDS, held);
      reserveTarget := rate * RESERVE_SECONDS;
    }

    method Offer(
      id: nat, group: string, source: Source, kind: Coverage, supported: bool, routeReady: bool, normal: bool, leasable: bool)
      returns (reply: Reply)
      requires id !in windows
      modifies this
      ensures View() == Offering(old(View()), id, group, source, kind, supported, routeReady, normal, leasable).0
           && reply == Offering(old(View()), id, group, source, kind, supported, routeReady, normal, leasable).1
    {
      hide Floor, WorkingTarget, ReserveTarget, Occupied;
      if group !in groups {
        return GroupMissing;
      }
      if !supported {
        return SupportWindow;
      }
      if Occupied(View(), group, kind) {
        return GroupCommitted;
      }
      if !routeReady {
        return RouteNotReady;
      }
      var floor, workingTarget, reserveTarget := Targets();
      var budget := groups[group].Cost();
      if kind == Expansion && !(source == FromWorking && working >= floor + budget && reserve >= reserveTarget && normal) {
        return ExpansionLiquidity;
      }
      if source == FromReserve {
        if working >= budget {
          return ReserveProtected;
        }
        if reserve < budget {
          return InsufficientCredits;
        }
      }
      if !leasable {
        return LeaseRefused;
      }
      if source == FromWorking && working < budget {
        return InsufficientCredits;
      }
      if source == FromWorking {
        working := working - budget;
      } else {
        reserve := reserve - budget;
      }
      windows := windows[id := Window(group, kind, source, budget, 0, true, true)];
      reply := Done;
    }

    method RecycleSettlement(session: nat, charge: nat) returns (a: Allocation)
      requires session !in settlements
      modifies this
      ensures View() == Settle(old(View()), session, charge) && a == Allocate(old(View()), charge)
    {
      hide Floor, WorkingTarget, ReserveTarget, Recycle;
      var floor, workingTarget, reserveTarget := Targets();
      a := Recycle(charge, working, reserve, floor, workingTarget, reserveTarget);
      working := working + a.floor + a.working;
      reserve := reserve + a.reserve;
      burned := burned + a.burned;
      settlements := settlements[session := Settlement(charge, a.floor + a.working, a.reserve, a.burned, false)];
    }

    method RefundConsumption(session: nat) returns (reply: Reply)
      modifies this
      ensures View() == Refund(old(View()), session).0 && reply == Refund(old(View()), session).1
    {
      if session !in settlements {
        return SettlementMissing;
      }
      var s := settlements[session];
      if s.refunded {
        return AlreadyRefunded;
      }
      if working < s.working || reserve < s.reserve || burned < s.burned {
        return InsufficientCredits;
      }
      working, reserve, burned := working - s.working, reserve - s.reserve, burned - s.burned;
      settlements := settlements[session := s.(refunded := true)];
      reply := Done;
    }
  }

}
