/** Main results about the cooperative fund, over every run of contributions, windows, settlements and refunds. */
module FundRuns {
  import opened MapSums
  import opened Refill
  import opened Cooperative

  datatype Action =
    | DoFund(to: Source, amount: nat)
    | DoOffer(id: nat, group: string, source: Source, kind: Coverage, supported: bool, routeReady: bool, normal: bool, leasable: bool)
    | DoPayOut(id: nat, amount: nat)
    | DoLapse(id: nat)
    | DoClose(id: nat)
    | DoSettle(session: nat, charge: nat)
    | DoRefund(session: nat)

  predicate Possible(p: Pool, action: Action)
  {
    match action
    case DoFund(_, _) => true
    case DoOffer(id, _, _, _, _, _, _, _) => id !in p.windows
    case DoPayOut(id, amount) => id in p.windows && p.windows[id].open && amount <= p.windows[id].budget - p.windows[id].paid
    case DoLapse(id) => id in p.windows
    case DoClose(id) => id in p.windows && p.windows[id].open
    case DoSettle(session, _) => session !in p.settlements
    case DoRefund(_) => true
  }

  ghost function Next(p: Pool, action: Action): Pool
    requires Possible(p, action)
  {
    match action
    case DoFund(to, amount) => Contribute(p, to, amount)
    case DoOffer(id, group, source, kind, supported, routeReady, normal, leasable) =>
      Offering(p, id, group, source, kind, supported, routeReady, normal, leasable).0
    case DoPayOut(id, amount) => PayOut(p, id, amount)
    case DoLapse(id) => Lapse(p, id)
    case DoClose(id) => CloseWindow(p, id)
    case DoSettle(session, charge) => Settle(p, session, charge)
    case DoRefund(session) => Refund(p, session).0
  }

  ghost predicate Leads(p: Pool, actions: seq<Action>, q: Pool)
    decreases |actions|
  {
    if actions == [] then q == p
    else Possible(p, actions[0]) && Leads(Next(p, actions[0]), actions[1..], q)
  }

  /** Everything members put in during a run. */
  function Contributed(actions: seq<Action>): nat
  {
    if actions == [] then 0
    else (if actions[0].DoFund? then actions[0].amount else 0) + Contributed(actions[1..])
  }

  /** What a window has cost the fund so far: its whole budget while open, what it paid once closed. */
  function SpentIn(w: Window): int { if w.open then w.budget else w.paid }
  function ChargeIn(s: Settlement): int { if s.refunded then 0 else s.charge }

  /** All the fund can account for, less all it took in as charges. */
  ghost function Account(p: Pool): int
  {
    p.working + p.reserve + p.burned + Sum(p.windows, SpentIn) - Sum(p.settlements, ChargeIn)
  }

  lemma NextKeeps(p: Pool, action: Action)
    requires PoolOk(p) && Possible(p, action)
    ensures PoolOk(Next(p, action))
  {
    hide PoolOk, Offering, PayOut, Lapse, CloseWindow, Settle, Refund;
    match action
    case DoFund(to, amount) => FundKeeps(p, to, amount);
    case DoOffer(id, group, source, kind, supported, routeReady, normal, leasable) =>
      OfferKeeps(p, id, group, source, kind, supported, routeReady, normal, leasable);
    case DoPayOut(id, amount) => PayOutKeeps(p, id, amount);
    case DoLapse(id) => LapseKeeps(p, id);
    case DoClose(id) => CloseWindowKeeps(p, id);
    case DoSettle(session, charge) => SettleKeeps(p, session, charge);
    case DoRefund(session) => RefundKeeps(p, session);
  }

  lemma FundKeeps(p: Pool, to: Source, amount: nat)
    requires PoolOk(p)
    ensures PoolOk(Contribute(p, to, amount))
  {
    hide Sum, GroupOk, SettlementOk, Alone;
    var after := Contribute(p, to, amount);
    forall i | i in after.windows ensures WindowOk(after, after.windows[i]) { assert WindowOk(p, p.windows[i]); }
  }

  /** Each operation accounts for every unit it moves. */
  lemma NextAccounts(p: Pool, action: Action)
    requires PoolOk(p) && Possible(p, action)
    ensures Account(Next(p, action)) == Account(p) + if action.DoFund? then action.amount else 0
  {
    hide Sum, GroupOk, Alone, Recycle, Floor, WorkingTarget, ReserveTarget, Occupied;
    var q := Next(p, action);
    match action
    case DoOffer(id, _, _, _, _, _, _, _) => if id in q.windows { With(p.windows, SpentIn, id, q.windows[id]); }
    case DoPayOut(id, _) => With(p.windows, SpentIn, id, q.windows[id]);
    case DoLapse(id) => With(p.windows, SpentIn, id, q.windows[id]);
    case DoClose(id) => With(p.windows, SpentIn, id, q.windows[id]);
    case DoSettle(session, charge) =>
      RecycleExact(charge, p.working, p.reserve, Floor(p), WorkingTarget(p), ReserveTarget(p));
      With(p.settlements, ChargeIn, session, q.settlements[session]);
    case DoRefund(session) =>
      if session in p.settlements {
        assert SettlementOk(p.settlements[session]);
        With(p.settlements, ChargeIn, session, q.settlements[session]);
      }
    case _ =>
  }

  lemma {:induction false} RunAccounts(p: Pool, actions: seq<Action>, q: Pool)
    requires PoolOk(p) && Leads(p, actions, q)
    ensures PoolOk(q) && Account(q) == Account(p) + Contributed(actions)
    decreases |actions|
  {
    hide PoolOk, Account, Possible, Next;
    if actions != [] {
      NextKeeps(p, actions[0]);
      NextAccounts(p, actions[0]);
      RunAccounts(Next(p, actions[0]), actions[1..], q);
    }
  }

  /**
   Main result: in every run of a new fund, working capital, reserve, burn and all that windows cost are together
   exactly what members contributed and what unrefunded sessions paid; and no target is ever clamped at zero.
   */
  lemma EveryUnitIsAccountedFor(groups: map<string, Group>, actions: seq<Action>, q: Pool)
    requires forall k :: k in groups ==> GroupOk(groups[k])
    requires Leads(Pool(groups, 0, 0, 0, map[], map[]), actions, q)
    ensures q.working + q.reserve + q.burned + Sum(q.windows, SpentIn) == Contributed(actions) + Sum(q.settlements, ChargeIn)
    ensures Floor(q) == Rate(q) * FLOOR_SECONDS - Held(q) >= 5 * 3600 * Rate(q)
    ensures 0 <= q.working && 0 <= q.reserve && 0 <= q.burned
  {
    hide Leads, GroupOk, Sum, Floor, Held, Rate;
    var p := Pool(groups, 0, 0, 0, map[], map[]);
    MapSums.Nothing<nat, Window>(SpentIn);
    MapSums.Nothing<nat, Settlement>(ChargeIn);
    MapSums.Nothing<nat, Settlement>(BurnedIn);
    RunAccounts(p, actions, q);
    FloorNeverClamps(q);
    forall s | s in q.settlements ensures 0 <= BurnedIn(q.settlements[s]) { assert SettlementOk(q.settlements[s]); }
    NonNegative(q.settlements, BurnedIn);
  }
}
