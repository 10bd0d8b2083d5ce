/** How a consumed charge refills the cooperative fund (apps/control-api/src/cooperative.ts). */
module Refill {

  function Min(a: int, b: int): int { if a < b then a else b }
  function Gap(target: int, balance: int): int { if target > balance then target - balance else 0 }

  datatype Allocation = Allocation(floor: int, reserve: int, working: int, burned: int)

  /** Floor first, then the reserve, then the rest of the working target, else burn. */
  function Recycle(q: int, w: int, r: int, f: int, wt: int, rt: int): Allocation
  {
    var floor := Min(q, Gap(f, w));
    var reserve := Min(q - floor, Gap(rt, r));
    var working := Min(q - floor - reserve, Gap(wt, w + floor));
    Allocation(floor, reserve, working, q - floor - reserve - working)
  }

  // ---------------------------------------------------------------------------------------------
  // The reference: one microcredit at a time

  datatype Fund = Fund(working: int, reserve: int, burned: int)

  /** The first unfilled of floor, reserve and working target takes the microcredit; else it is burned. */
  function Dispense(s: Fund, f: int, wt: int, rt: int): Fund
  {
    if s.working < f then s.(working := s.working + 1)
    else if s.reserve < rt then s.(reserve := s.reserve + 1)
    else if s.working < wt then s.(working := s.working + 1)
    else s.(burned := s.burned + 1)
  }

  function DispenseAll(s: Fund, q: nat, f: int, wt: int, rt: int): Fund
  {
    if q == 0 then s else Dispense(DispenseAll(s, q - 1, f, wt, rt), f, wt, rt)
  }

  function Refilled(s: Fund, a: Allocation): Fund
  {
    Fund(s.working + a.floor + a.working, s.reserve + a.reserve, s.burned + a.burned)
  }

  /** The closed form is exactly q single dispensations, from any balances and for any targets. */
  lemma {:induction false} RecycleIsDispensing(s: Fund, q: nat, f: int, wt: int, rt: int)
    ensures Refilled(s, Recycle(q, s.working, s.reserve, f, wt, rt)) == DispenseAll(s, q, f, wt, rt)
  {
    if q > 0 {
      RecycleIsDispensing(s, q - 1, f, wt, rt);
    }
  }

  lemma {:induction false} DispensingAdds(s: Fund, p: nat, q: nat, f: int, wt: int, rt: int)
    ensures DispenseAll(s, p + q, f, wt, rt) == DispenseAll(DispenseAll(s, p, f, wt, rt), q, f, wt, rt)
  {
    if q > 0 {
      DispensingAdds(s, p, q - 1, f, wt, rt);
    }
  }

  /** Splitting a charge in two changes nothing, as long as the targets stay. */
  lemma RecycleAdds(s: Fund, p: nat, q: nat, f: int, wt: int, rt: int)
    ensures var once := Refilled(s, Recycle(p, s.working, s.reserve, f, wt, rt));
            && Refilled(once, Recycle(q, once.working, once.reserve, f, wt, rt))
               == Refilled(s, Recycle(p + q, s.working, s.reserve, f, wt, rt))
  {
    hide Recycle, Refilled, DispenseAll;
    RecycleIsDispensing(s, p, f, wt, rt);
    RecycleIsDispensing(DispenseAll(s, p, f, wt, rt), q, f, wt, rt);
    RecycleIsDispensing(s, p + q, f, wt, rt);
    DispensingAdds(s, p, q, f, wt, rt);
  }

  /** The charge is allocated exactly, and anything is burned only when floor, reserve and working targets are all met. */
  lemma RecycleExact(q: nat, w: int, r: int, f: int, wt: int, rt: int)
    ensures var a := Recycle(q, w, r, f, wt, rt);
            && 0 <= a.floor && 0 <= a.reserve && 0 <= a.working && 0 <= a.burned
            && a.floor + a.reserve + a.working + a.burned == q
            && (a.burned > 0 ==> w + a.floor + a.working >= f && w + a.floor + a.working >= wt && r + a.reserve >= rt)
            && (a.reserve > 0 ==> w + a.floor >= f && r + a.reserve <= rt)
            && (a.working > 0 ==> r + a.reserve >= rt && w + a.floor + a.working <= wt)
  {
  }
}
