/** The hourly contracting plan of the integrated economy study (docs/planning/evidence/simulate_integrated_economy.py). */
module HourlyPlan {
  import opened MapSums
  import opened Quotients

  function Max(a: int, b: int): int { if a <= b then b else a }
  function Min(a: int, b: int): int { if a <= b then a else b }

  // ---------------------------------------------------------------------------------------------
  // The study's ledger

  datatype Account = Provider(id: nat) | Continuity | UsageHold | ReserveHold | Attacker | Other(name: string)

  datatype Model = Compact | Large

  /** A part of one request's work, named as the source names it: by the request, its model and the work left before. */
  datatype Batch = Batch(created: nat, owner: nat, model: Model, work: nat)

  datatype Key =
    | CirculationPay(hour: nat, provider: nat)
    | Ordinary(hour: nat, provider: nat)
    | ReserveTopup(hour: nat)
    | ReserveHeld(hour: nat)
    | ContinuityPay(hour: nat, provider: nat)
    | Fraud(hour: nat)
    | Service(batch: Batch, phase: string)

  datatype State = State(
    balances: map<Account, int>, initial: int, issued: int, burned: int, refunded: int, committed: int, seen: set<Key>)
  {
    function Balance(a: Account): int { if a in balances then balances[a] else 0 }
  }

  ghost function Stock(s: State): int { Sum(s.balances, Itself) }

  /** The assertions of `audit`. */
  ghost predicate Audit(s: State)
  {
    && (forall a :: a in s.balances ==> 0 <= s.balances[a])
    && 0 <= s.committed
    && Stock(s) == s.initial + s.issued + s.refunded - s.burned
  }

  /** The key of a payment of one hour. */
  predicate PaymentKey(key: Key, hour: nat)
  {
    && (key.CirculationPay? || key.Ordinary? || key.ReserveTopup? || key.ReserveHeld? || key.ContinuityPay?)
    && key.hour == hour
  }

  /** What paying an hour's providers leaves alone: accounts and keys stay, new keys are the hour's, others keep their money. */
  ghost predicate PaysOnly(s: State, t: State, hour: nat)
  {
    && s.balances.Keys <= t.balances.Keys && s.seen <= t.seen
    && (forall key :: key in t.seen && key !in s.seen ==> PaymentKey(key, hour))
    && (forall a: Account :: !a.Provider? && a != Continuity ==> t.Balance(a) == s.Balance(a))
    && t.initial == s.initial && t.refunded == s.refunded && t.burned == s.burned
  }

  /** What serving one batch leaves alone. */
  ghost predicate ServesOnly(s: State, t: State, batch: Batch)
  {
    && s.balances.Keys <= t.balances.Keys && s.seen <= t.seen
    && (forall key :: key in t.seen && key !in s.seen ==> key.Service? && key.batch == batch)
    && (forall a :: a != Provider(batch.owner) && a != Continuity ==> t.Balance(a) == s.Balance(a))
    && t.initial == s.initial && t.refunded == s.refunded && t.issued == s.issued && s.burned <= t.burned
  }

  function Plus(balances: map<Account, int>, a: Account, amount: int): map<Account, int>
  {
    balances[a := (if a in balances then balances[a] else 0) + amount]
  }

  function Transferred(s: State, key: Key, source: Account, target: Account, amount: int): State
  {
    if key in s.seen then s
    else s.(seen := s.seen + {key}, balances := Plus(Plus(s.balances, source, -amount), target, amount))
  }

  function Issued(s: State, key: Key, recipient: Account, amount: int): State
  {
    if key in s.seen then s
    else s.(seen := s.seen + {key}, committed := s.committed - amount, issued := s.issued + amount,
            balances := Plus(s.balances, recipient, amount))
  }

  function Consumed(s: State, key: Key, account: Account, amount: int): State
  {
    if key in s.seen then s
    else s.(seen := s.seen + {key}, burned := s.burned + amount, balances := Plus(s.balances, account, -amount))
  }

  lemma {:induction false} PlusSums(balances: map<Account, int>, a: Account, amount: int)
    ensures Sum(Plus(balances, a, amount), Itself) == Sum(balances, Itself) + amount
  {
    hide Sum;
    With(balances, Itself, a, (if a in balances then balances[a] else 0) + amount);
  }

  lemma TransferKeepsAudit(s: State, key: Key, source: Account, target: Account, amount: int)
    requires Audit(s) && (key !in s.seen ==> 0 <= amount <= s.Balance(source) && source in s.balances)
    ensures Audit(Transferred(s, key, source, target, amount))
    ensures Stock(Transferred(s, key, source, target, amount)) == Stock(s)
  {
    hide Sum;
    PlusSums(s.balances, source, -amount);
    PlusSums(Plus(s.balances, source, -amount), target, amount);
  }

  lemma IssueKeepsAudit(s: State, key: Key, recipient: Account, amount: int)
    requires Audit(s) && (key !in s.seen ==> 0 <= amount <= s.committed)
    ensures Audit(Issued(s, key, recipient, amount))
    ensures var t := Issued(s, key, recipient, amount); Stock(t) + t.committed == Stock(s) + s.committed
  {
    hide Sum;
    PlusSums(s.balances, recipient, amount);
  }

  lemma ConsumeKeepsAudit(s: State, key: Key, account: Account, amount: int)
    requires Audit(s) && (key !in s.seen ==> 0 <= amount <= s.Balance(account) && account in s.balances)
    ensures Audit(Consumed(s, key, account, amount))
  {
    hide Sum;
    PlusSums(s.balances, account, -amount);
  }

  /** The ledger object: each method's precondition is the source's assertion, and the audit holds after every call. */
  class Ledger {
    var s: State

    constructor (balances: map<Account, int>)
      ensures s == State(balances, Sum(balances, Itself), 0, 0, 0, 0, {})
    {
      var initial := AddUp(balances, Itself);
      s := State(balances, initial, 0, 0, 0, 0, {});
    }

    method Transfer(key: Key, source: Account, target: Account, amount: int) returns (moved: bool)
      requires Audit(s) && 0 <= amount && (key !in s.seen ==> amount <= s.Balance(source) && source in s.balances)
      modifies this
      ensures s == Transferred(old(s), key, source, target, amount) && moved == (key !in old(s).seen) && Audit(s)
    {
      hide Audit;
      TransferKeepsAudit(s, key, source, target, amount);
      if key in s.seen {
        return false;
      }
      s := s.(seen := s.seen + {key});
      s := s.(balances := Plus(s.balances, source, -amount));
      s := s.(balances := Plus(s.balances, target, amount));
      moved := true;
    }

    method Promise(amount: int, ceiling: int)
      requires Audit(s) && 0 <= amount && Stock(s) + s.committed + amount <= ceiling
      modifies this
      ensures s == old(s).(committed := old(s).committed + amount) && Audit(s)
    {
      hide Sum;
      s := s.(committed := s.committed + amount);
    }

    method Issue(key: Key, recipient: Account, amount: int) returns (done: bool)
      requires Audit(s) && (key !in s.seen ==> 0 <= amount <= s.committed)
      modifies this
      ensures s == Issued(old(s), key, recipient, amount) && done == (key !in old(s).seen) && Audit(s)
    {
      hide Audit;
      IssueKeepsAudit(s, key, recipient, amount);
      if key in s.seen {
        return false;
      }
      s := s.(seen := s.seen + {key}, committed := s.committed - amount, issued := s.issued + amount,
              balances := Plus(s.balances, recipient, amount));
      done := true;
    }

    method Consume(key: Key, account: Account, amount: int) returns (done: bool)
      requires Audit(s) && (key !in s.seen ==> 0 <= amount <= s.Balance(account) && account in s.balances)
      modifies this
      ensures s == Consumed(old(s), key, account, amount) && done == (key !in old(s).seen) && Audit(s)
    {
      hide Audit;
      ConsumeKeepsAudit(s, key, account, amount);
      if key in s.seen {
        return false;
      }
      s := s.(seen := s.seen + {key}, burned := s.burned + amount, balances := Plus(s.balances, account, -amount));
      done := true;
    }
  }

  // ---------------------------------------------------------------------------------------------
  // Choosing whom to contract

  /** What one hour allows: room under the ceiling, liquid continuity credit, its balance and target, and the issuance divisor. */
  datatype Budget = Budget(room: int, liquid: int, continuity: int, target: int, divisor: int)

  function NewFor(b: Budget, reward: int): int { Max(0, reward - b.liquid) }

  function TopupFor(b: Budget, reward: int): int
    requires 0 < b.divisor
  {
    Min(Max(0, b.target - b.continuity + Min(reward, b.liquid)), NewFor(b, reward) / b.divisor)
  }

  predicate Affordable(b: Budget, reward: int)
    requires 0 < b.divisor
  {
    NewFor(b, reward) + TopupFor(b, reward) <= b.room
  }

  /** Providers in order, each kept when the whole selection still fits. */
  function Select(b: Budget, pay: nat -> nat, providers: seq<nat>, reward: int): seq<nat>
    requires 0 < b.divisor
  {
    if providers == [] then []
    else if Affordable(b, reward + pay(providers[0])) then
      [providers[0]] + Select(b, pay, providers[1..], reward + pay(providers[0]))
    else Select(b, pay, providers[1..], reward)
  }

  function Rewards(pay: nat -> nat, providers: seq<nat>): nat
  {
    if providers == [] then 0 else pay(providers[0]) + Rewards(pay, providers[1..])
  }

  /** `minimum_new + minimum_new // divisor` for the core's full rate. */
  function MinimumPromise(b: Budget, coreRate: int): int
    requires 0 < b.divisor
  {
    var needed := Max(0, coreRate - b.liquid);
    needed + needed / b.divisor
  }

  lemma CheaperIsAffordable(b: Budget, reward: int, coreRate: int)
    requires 0 < b.divisor && reward <= coreRate && MinimumPromise(b, coreRate) <= b.room
    ensures Affordable(b, reward)
  {
    QuotientGrows(NewFor(b, reward), Max(0, coreRate - b.liquid), b.divisor);
  }

  lemma {:induction false} CoreComesFirst(b: Budget, pay: nat -> nat, core: seq<nat>, rest: seq<nat>, reward: int, coreRate: int)
    requires 0 < b.divisor && MinimumPromise(b, coreRate) <= b.room && reward + Rewards(pay, core) <= coreRate
    ensures core <= Select(b, pay, core + rest, reward)
    decreases |core|
  {
    if core != [] {
      CheaperIsAffordable(b, reward + pay(core[0]), coreRate);
      assert (core + rest)[1..] == core[1..] + rest;
      CoreComesFirst(b, pay, core[1..], rest, reward + pay(core[0]), coreRate);
      assert core == [core[0]] + core[1..];
    }
  }

  lemma {:induction false} ReducedRewards(pay: nat -> nat, base: nat -> nat, providers: seq<nat>)
    requires forall p :: pay(p) <= base(p)
    ensures Rewards(pay, providers) <= Rewards(base, providers)
  {
    if providers != [] {
      ReducedRewards(pay, base, providers[1..]);
    }
  }

  /** The whole core is contracted whenever the room covers its minimum promise, at full or reduced rates. */
  lemma {:induction false} CoreIsContracted(b: Budget, pay: nat -> nat, base: nat -> nat, core: seq<nat>, rest: seq<nat>)
    requires 0 < b.divisor && (forall p :: pay(p) <= base(p)) && MinimumPromise(b, Rewards(base, core)) <= b.room
    ensures core <= Select(b, pay, core + rest, 0)
    ensures forall p :: p in core ==> p in Select(b, pay, core + rest, 0)
  {
    ReducedRewards(pay, base, core);
    CoreComesFirst(b, pay, core, rest, 0, Rewards(base, core));
  }

  /** Whatever is selected is affordable as a whole. */
  lemma {:induction false} SelectionIsAffordable(b: Budget, pay: nat -> nat, providers: seq<nat>, reward: int)
    requires 0 < b.divisor && Affordable(b, reward)
    ensures Affordable(b, reward + Rewards(pay, Select(b, pay, providers, reward)))
  {
    if providers != [] {
      if Affordable(b, reward + pay(providers[0])) {
        var rest := Select(b, pay, providers[1..], reward + pay(providers[0]));
        SelectionIsAffordable(b, pay, providers[1..], reward + pay(providers[0]));
        assert ([providers[0]] + rest)[1..] == rest;
      } else {
        SelectionIsAffordable(b, pay, providers[1..], reward);
      }
    }
  }

  lemma {:induction false} SelectionIsOrdered(b: Budget, pay: nat -> nat, providers: seq<nat>, reward: int)
    requires 0 < b.divisor && forall i, j :: 0 <= i < j < |providers| ==> providers[i] != providers[j]
    ensures var r := Select(b, pay, providers, reward);
            && (forall p :: p in r ==> p in providers)
            && forall i, j :: 0 <= i < j < |r| ==> r[i] != r[j]
  {
    if providers != [] {
      var next := if Affordable(b, reward + pay(providers[0])) then reward + pay(providers[0]) else reward;
      assert forall i, j :: 0 <= i < j < |providers[1..]| ==> providers[1..][i] != providers[1..][j];
      SelectionIsOrdered(b, pay, providers[1..], next);
      assert providers[0] !in providers[1..];
      assert providers == [providers[0]] + providers[1..];
    }
  }

  // ---------------------------------------------------------------------------------------------
  // One NORMAL hour

  predicate FreshHour(seen: set<Key>, hour: nat)
  {
    && ReserveTopup(hour) !in seen && ReserveHeld(hour) !in seen
    && forall key :: key in seen && (key.CirculationPay? || key.Ordinary? || key.ContinuityPay?) ==> key.hour != hour
  }

  /** Paying one provider: from circulation first, the rest newly issued. */
  function Paid(s: State, hour: nat, p: nat, amount: nat, recycled: nat): State
  {
    var fromReserve := Min(amount, recycled);
    var circulated := if fromReserve > 0 then Transferred(s, CirculationPay(hour, p), Continuity, Provider(p), fromReserve) else s;
    if amount > fromReserve then Issued(circulated, Ordinary(hour, p), Provider(p), amount - fromReserve) else circulated
  }

  function PaidAll(s: State, hour: nat, pay: nat -> nat, active: seq<nat>, recycled: nat): State
    decreases |active|
  {
    if active == [] then s
    else
      var used := Min(pay(active[0]), recycled);
      PaidAll(Paid(s, hour, active[0], pay(active[0]), recycled), hour, pay, active[1..], recycled - used)
  }

  /** What the next payments can count on. */
  ghost predicate CanPay(s: State, hour: nat, pay: nat -> nat, active: seq<nat>, recycled: nat)
  {
    && Audit(s) && Continuity in s.balances
    && recycled <= s.balances[Continuity] && recycled <= Rewards(pay, active)
    && Rewards(pay, active) - recycled <= s.committed
    && forall p :: p in active ==> CirculationPay(hour, p) !in s.seen && Ordinary(hour, p) !in s.seen
  }

  lemma PaidKeeps(s: State, hour: nat, p: nat, amount: nat, recycled: nat)
    requires Audit(s) && Continuity in s.balances && recycled <= s.balances[Continuity]
    requires CirculationPay(hour, p) !in s.seen && Ordinary(hour, p) !in s.seen
    requires amount - Min(amount, recycled) <= s.committed
    ensures var t := Paid(s, hour, p, amount, recycled); var used := Min(amount, recycled);
            && Audit(t) && Continuity in t.balances && t.balances[Continuity] == s.balances[Continuity] - used
            && t.committed == s.committed - (amount - used) && Stock(t) + t.committed == Stock(s) + s.committed
            && t.Balance(Provider(p)) == s.Balance(Provider(p)) + amount
            && (forall q :: q != p ==> t.Balance(Provider(q)) == s.Balance(Provider(q)))
            && t.seen <= s.seen + {CirculationPay(hour, p), Ordinary(hour, p)}
            && PaysOnly(s, t, hour)
  {
    hide Audit, Stock;
    var used := Min(amount, recycled);
    assert Audit(s) ==> 0 <= s.balances[Continuity] by { AuditedBalance(s, Continuity); }
    TransferKeepsAudit(s, CirculationPay(hour, p), Continuity, Provider(p), used);
    var circulated := if used > 0 then Transferred(s, CirculationPay(hour, p), Continuity, Provider(p), used) else s;
    IssueKeepsAudit(circulated, Ordinary(hour, p), Provider(p), amount - used);
  }

  lemma AuditedBalance(s: State, a: Account)
    requires Audit(s)
    ensures a in s.balances ==> 0 <= s.balances[a]
  {
  }

  lemma {:induction false} PaidAllKeeps(s: State, hour: nat, pay: nat -> nat, active: seq<nat>, recycled: nat)
    requires CanPay(s, hour, pay, active, recycled)
    requires forall i, j :: 0 <= i < j < |active| ==> active[i] != active[j]
    ensures var t := PaidAll(s, hour, pay, active, recycled);
            && Audit(t) && Continuity in t.balances && t.balances[Continuity] == s.balances[Continuity] - recycled
            && t.committed == s.committed - (Rewards(pay, active) - recycled)
            && Stock(t) + t.committed == Stock(s) + s.committed
            && (forall p :: t.Balance(Provider(p)) == s.Balance(Provider(p)) + if p in active then pay(p) else 0)
            && (forall key :: key in t.seen && key !in s.seen ==> key.CirculationPay? || key.Ordinary?)
            && PaysOnly(s, t, hour)
    decreases |active|
  {
    hide Audit, Stock, Paid;
    if active != [] {
      var p := active[0];
      PaidKeeps(s, hour, p, pay(p), recycled);
      var next := Paid(s, hour, p, pay(p), recycled);
      var used := Min(pay(p), recycled);
      assert forall q :: q in active[1..] ==> q in active && q != p;
      PaidAllKeeps(next, hour, pay, active[1..], recycled - used);
      assert active == [p] + active[1..];
    }
  }

  /** The amounts of a NORMAL hour. */
  datatype Plan = Plan(active: seq<nat>, reward: nat, recycled: nat, minted: nat, topup: nat)

  ghost predicate IsPlan(b: Budget, pay: nat -> nat, providers: seq<nat>, plan: Plan)
    requires 0 < b.divisor
  {
    && plan.active == Select(b, pay, providers, 0) && plan.reward == Rewards(pay, plan.active)
    && plan.recycled == Min(plan.reward, b.liquid) && plan.minted == plan.reward - plan.recycled
    && plan.topup == Min(Max(0, b.target - b.continuity + plan.recycled), plan.minted / b.divisor)
  }

  /** The promise of a plan never exceeds the room the hour started with. */
  lemma PlanFits(b: Budget, pay: nat -> nat, providers: seq<nat>, plan: Plan)
    requires 0 < b.divisor && 0 <= b.room && 0 <= b.liquid && IsPlan(b, pay, providers, plan)
    ensures plan.minted + plan.topup <= b.room
  {
    Unique(0, b.divisor, 0);
    SelectionIsAffordable(b, pay, providers, 0);
  }

  lemma RewardsAreOrdered(pay: nat -> nat, a: seq<nat>, i: nat)
    requires i < |a|
    ensures Rewards(pay, a[i..]) == pay(a[i]) + Rewards(pay, a[i + 1..])
  {
    assert a[i..][1..] == a[i + 1..];
  }

  lemma {:induction false} NoRewards(pay: nat -> nat)
    ensures Rewards(pay, []) == 0
  {
  }

  /** What the hour starts with. */
  ghost function BudgetOf(s: State, ceiling: int, target: int, reserveEnabled: bool, divisor: int): Budget
    requires Continuity in s.balances
  {
    Budget(Max(0, ceiling - Stock(s) - s.committed), if reserveEnabled then s.balances[Continuity] else 0,
           s.balances[Continuity], target, divisor)
  }

  class Hour {
    const tu: Ledger

    constructor (tu: Ledger)
      ensures this.tu == tu
    {
      this.tu := tu;
    }

    /** One turn of the selection loop, with what was chosen before it kept in front. */
    static lemma SelectStep(b: Budget, pay: nat -> nat, active: seq<nat>, left: seq<nat>, selected: int)
      requires 0 < b.divisor && left != []
      ensures Affordable(b, selected + pay(left[0])) ==>
                active + Select(b, pay, left, selected)
                == active + [left[0]] + Select(b, pay, left[1..], selected + pay(left[0]))
      ensures !Affordable(b, selected + pay(left[0])) ==>
                Select(b, pay, left, selected) == Select(b, pay, left[1..], selected)
    {
      hide Affordable;
    }

    static lemma {:induction false} SelectNothing(b: Budget, pay: nat -> nat, selected: int)
      requires 0 < b.divisor
      ensures Select(b, pay, [], selected) == []
    {
    }

    /** The selection loop. */
    static method Choose(b: Budget, pay: nat -> nat, providers: seq<nat>) returns (active: seq<nat>, selected: nat)
      requires 0 < b.divisor
      ensures active == Select(b, pay, providers, 0) && selected == Rewards(pay, active)
    {
      hide Select;
      active, selected := [], 0;
      assert active + Select(b, pay, providers[0..], 0) == Select(b, pay, providers, 0) by { assert providers[0..] == providers; }
      var i := 0;
      while i < |providers|
        invariant 0 <= i <= |providers| && selected == Rewards(pay, active)
        invariant active + Select(b, pay, providers[i..], selected) == Select(b, pay, providers, 0)
      {
        SelectStep(b, pay, active, providers[i..], selected);
        assert providers[i..][1..] == providers[i + 1..];
        var candidate := selected + pay(providers[i]);
        var minted := Max(0, candidate - b.liquid);
        var topup := Min(Max(0, b.target - b.continuity + Min(candidate, b.liquid)), minted / b.divisor);
        if minted + topup <= b.room {
          RewardsAppend(pay, active, providers[i]);
          active := active + [providers[i]];
          selected := candidate;
        }
        i := i + 1;
      }
      assert providers[i..] == [];
      SelectNothing(b, pay, selected);
    }

    static lemma {:induction false} RewardsAppend(pay: nat -> nat, a: seq<nat>, p: nat)
      ensures Rewards(pay, a + [p]) == Rewards(pay, a) + pay(p)
    {
      if a == [] {
        assert [p][1..] == [];
      } else {
        RewardsAppend(pay, a[1..], p);
        assert (a + [p])[1..] == a[1..] + [p];
      }
    }

    /**
     A NORMAL hour: the whole core is active, the promise fits under the ceiling, every active provider gets exactly
     its reward, and issuance and circulation together leave nothing committed.
     */
    method Contract(
      hour: nat, pay: nat -> nat, base: nat -> nat, core: seq<nat>, others: seq<nat>, ceiling: int, target: int,
      reserveEnabled: bool, divisor: int) returns (plan: Plan)
      requires 0 < divisor && Audit(tu.s) && tu.s.committed == 0 && Continuity in tu.s.balances
      requires FreshHour(tu.s.seen, hour) && forall p :: pay(p) <= base(p)
      requires forall i, j :: 0 <= i < j < |core + others| ==> (core + others)[i] != (core + others)[j]
      requires var b := BudgetOf(tu.s, ceiling, target, reserveEnabled, divisor); MinimumPromise(b, Rewards(base, core)) <= b.room
      modifies tu
      ensures Audit(tu.s) && tu.s.committed == 0
      ensures forall p :: p in core ==> p in plan.active
      ensures forall p :: tu.s.Balance(Provider(p)) == old(tu.s).Balance(Provider(p)) + if p in plan.active then pay(p) else 0
      ensures tu.s.Balance(Continuity) == old(tu.s).Balance(Continuity) - plan.recycled + plan.topup
      ensures Stock(tu.s) == Stock(old(tu.s)) + plan.minted + plan.topup
      ensures Stock(tu.s) <= Max(ceiling, Stock(old(tu.s)))
      ensures PaysOnly(old(tu.s), tu.s, hour)
      ensures tu.s.issued == old(tu.s).issued + plan.minted + plan.topup && plan.topup <= plan.minted / divisor
      ensures plan.active == Select(BudgetOf(old(tu.s), ceiling, target, reserveEnabled, divisor), pay, core + others, 0)
      ensures plan.reward == Rewards(pay, plan.active) && plan.minted == plan.reward - plan.recycled
      ensures plan.recycled == if reserveEnabled then Min(plan.reward, old(tu.s).Balance(Continuity)) else 0
      ensures plan.topup == Min(Max(0, target - old(tu.s).Balance(Continuity) + plan.recycled), plan.minted / divisor)
    {
      hide Audit, Stock, Select, MinimumPromise, TopupFor, NewFor, Paid, Rewards, PaidAll;
      ghost var start := tu.s;
      var stock := AddUp(tu.s.balances, Itself);
      StockIs(tu.s, stock);
      var continuity := tu.s.balances[Continuity];
      var b := Budget(Max(0, ceiling - stock - tu.s.committed), if reserveEnabled then continuity else 0, continuity, target, divisor);
      AuditedBalance(tu.s, Continuity);
      var active, reward := Choose(b, pay, core + others);
      CoreIsContracted(b, pay, base, core, others);
      assert forall p :: p in core ==> p in active;
      var recycled: nat := if reserveEnabled then Min(reward, tu.s.balances[Continuity]) else 0;
      var minted: nat := reward - recycled;
      TopupIsNatural(b, recycled, minted);
      var topup: nat := Min(Max(0, target - tu.s.balances[Continuity] + recycled), minted / divisor);
      plan := Plan(active, reward, recycled, minted, topup);
      PlanFits(b, pay, core + others, plan);
      SelectionIsOrdered(b, pay, core + others, 0);
      Execute(hour, pay, plan, ceiling);
      IssuedIsMinted(start, tu.s);
    }

    /** The promise of a plan, its payments and its topup. */
    method Execute(hour: nat, pay: nat -> nat, plan: Plan, ceiling: int)
      requires Audit(tu.s) && tu.s.committed == 0 && Continuity in tu.s.balances && FreshHour(tu.s.seen, hour)
      requires plan.reward == Rewards(pay, plan.active) == plan.recycled + plan.minted && plan.recycled <= tu.s.balances[Continuity]
      requires forall i, j :: 0 <= i < j < |plan.active| ==> plan.active[i] != plan.active[j]
      requires plan.minted + plan.topup <= Max(0, ceiling - Stock(tu.s))
      modifies tu
      ensures Audit(tu.s) && tu.s.committed == 0
      ensures forall p :: tu.s.Balance(Provider(p)) == old(tu.s).Balance(Provider(p)) + if p in plan.active then pay(p) else 0
      ensures tu.s.Balance(Continuity) == old(tu.s).Balance(Continuity) - plan.recycled + plan.topup
      ensures Stock(tu.s) == Stock(old(tu.s)) + plan.minted + plan.topup
      ensures PaysOnly(old(tu.s), tu.s, hour)
    {
      hide Audit, Stock, Paid, Rewards, PaidAll;
      ghost var start := tu.s;
      if plan.minted + plan.topup > 0 {
        tu.Promise(plan.minted + plan.topup, ceiling);
      }
      PromisedKeeps(start, tu.s);
      PayActive(hour, pay, plan.active, plan.recycled);
      IssueKeepsAudit(tu.s, ReserveTopup(hour), Continuity, plan.topup);
      var done := tu.Issue(ReserveTopup(hour), Continuity, plan.topup);
    }

    static lemma IssuedIsMinted(s: State, t: State)
      requires Audit(s) && Audit(t) && t.initial == s.initial && t.refunded == s.refunded && t.burned == s.burned
      ensures t.issued - s.issued == Stock(t) - Stock(s)
    {
    }

    method PayActive(hour: nat, pay: nat -> nat, active: seq<nat>, recycled: nat)
      requires CanPay(tu.s, hour, pay, active, recycled)
      requires forall i, j :: 0 <= i < j < |active| ==> active[i] != active[j]
      modifies tu
      ensures var s := old(tu.s); var t := tu.s;
              && t == PaidAll(s, hour, pay, active, recycled)
              && Audit(t) && Continuity in t.balances && t.balances[Continuity] == s.balances[Continuity] - recycled
              && t.committed == s.committed - (Rewards(pay, active) - recycled)
              && Stock(t) + t.committed == Stock(s) + s.committed
              && (forall p :: t.Balance(Provider(p)) == s.Balance(Provider(p)) + if p in active then pay(p) else 0)
              && (forall key :: key in t.seen && key !in s.seen ==> key.CirculationPay? || key.Ordinary?)
              && PaysOnly(s, t, hour)
    {
      hide Audit, Stock, Paid, CanPay, PaidAll;
      PaidAllKeeps(tu.s, hour, pay, active, recycled);
      var left: nat := recycled;
      var i := 0;
      assert active[0..] == active;
      while i < |active|
        invariant 0 <= i <= |active| && CanPay(tu.s, hour, pay, active[i..], left)
        invariant PaidAll(tu.s, hour, pay, active[i..], left) == PaidAll(old(tu.s), hour, pay, active, recycled)
      {
        assert active[i..][1..] == active[i + 1..] && active[i..][0] == active[i];
        Step(tu.s, hour, pay, active[i..], left);
        left := PayOne(hour, pay, active[i..], left);
        i := i + 1;
      }
      assert active[i..] == [];
      NobodyLeft(tu.s, hour, pay, left);
    }

    static lemma {:induction false} NobodyLeft(s: State, hour: nat, pay: nat -> nat, left: nat)
      ensures PaidAll(s, hour, pay, [], left) == s
    {
    }

    method PayOne(hour: nat, pay: nat -> nat, active: seq<nat>, recycled: nat) returns (left: nat)
      requires active != [] && CanPay(tu.s, hour, pay, active, recycled)
      modifies tu
      ensures tu.s == Paid(old(tu.s), hour, active[0], pay(active[0]), recycled)
      ensures left == recycled - Min(pay(active[0]), recycled)
    {
      hide Audit, Stock;
      var p, amount := active[0], pay(active[0]);
      var fromReserve := Min(amount, recycled);
      AuditedBalance(tu.s, Continuity);
      PaidKeeps(tu.s, hour, p, amount, recycled);
      if fromReserve > 0 {
        var moved := tu.Transfer(CirculationPay(hour, p), Continuity, Provider(p), fromReserve);
      }
      if amount > fromReserve {
        var issued := tu.Issue(Ordinary(hour, p), Provider(p), amount - fromReserve);
      }
      left := recycled - fromReserve;
    }

    static lemma Step(s: State, hour: nat, pay: nat -> nat, active: seq<nat>, recycled: nat)
      requires active != [] && CanPay(s, hour, pay, active, recycled)
      requires forall i, j :: 0 <= i < j < |active| ==> active[i] != active[j]
      ensures var used := Min(pay(active[0]), recycled); var t := Paid(s, hour, active[0], pay(active[0]), recycled);
              && CanPay(t, hour, pay, active[1..], recycled - used)
              && PaidAll(t, hour, pay, active[1..], recycled - used) == PaidAll(s, hour, pay, active, recycled)
    {
      hide Audit, Stock, Paid;
      PaidKeeps(s, hour, active[0], pay(active[0]), recycled);
      assert forall q :: q in active[1..] ==> q in active && q != active[0];
    }

    // -----------------------------------------------------------------------------------------
    // The other movements of an hour

    /** A defended hour: the reserve pays exactly the core, through a hold that is empty again at the end. */
    method Defend(hour: nat, base: nat -> nat, core: seq<nat>)
      requires Audit(tu.s) && Continuity in tu.s.balances && ReserveHold in tu.s.balances && FreshHour(tu.s.seen, hour)
      requires Rewards(base, core) <= tu.s.balances[Continuity]
      requires forall i, j :: 0 <= i < j < |core| ==> core[i] != core[j]
      modifies tu
      ensures Audit(tu.s) && Stock(tu.s) == Stock(old(tu.s)) && tu.s.committed == old(tu.s).committed
      ensures tu.s.Balance(ReserveHold) == old(tu.s).Balance(ReserveHold)
      ensures tu.s.Balance(Continuity) == old(tu.s).Balance(Continuity) - Rewards(base, core)
      ensures forall p :: tu.s.Balance(Provider(p)) == old(tu.s).Balance(Provider(p)) + if p in core then base(p) else 0
      ensures PaysOnly(old(tu.s), tu.s, hour) && tu.s.issued == old(tu.s).issued
    {
      hide Audit, Stock, Rewards;
      NoRewards(base);
      AuditedBalance(tu.s, ReserveHold);
      TransferKeepsAudit(tu.s, ReserveHeld(hour), Continuity, ReserveHold, Rewards(base, core));
      var held := tu.Transfer(ReserveHeld(hour), Continuity, ReserveHold, Rewards(base, core));
      assert core[0..] == core;
      var i := 0;
      while i < |core|
        invariant 0 <= i <= |core| && Audit(tu.s) && Stock(tu.s) == Stock(old(tu.s)) && tu.s.committed == old(tu.s).committed
        invariant ReserveHold in tu.s.balances
        invariant tu.s.balances[ReserveHold] == old(tu.s).balances[ReserveHold] + Rewards(base, core[i..])
        invariant tu.s.Balance(Continuity) == old(tu.s).Balance(Continuity) - Rewards(base, core)
        invariant forall p :: tu.s.Balance(Provider(p)) == old(tu.s).Balance(Provider(p)) + if p in core[..i] then base(p) else 0
        invariant forall a: Account :: !a.Provider? && a != Continuity && a != ReserveHold ==> tu.s.Balance(a) == old(tu.s).Balance(a)
        invariant old(tu.s).balances.Keys <= tu.s.balances.Keys && old(tu.s).seen <= tu.s.seen
        invariant forall key :: key in tu.s.seen && key !in old(tu.s).seen ==> PaymentKey(key, hour)
        invariant tu.s == old(tu.s).(seen := tu.s.seen, balances := tu.s.balances)
        invariant forall k :: i <= k < |core| ==> ContinuityPay(hour, core[k]) !in tu.s.seen
      {
        assert core[..i + 1] == core[..i] + [core[i]] && core[i] !in core[..i];
        RewardsAreOrdered(base, core, i);
        TransferKeepsAudit(tu.s, ContinuityPay(hour, core[i]), ReserveHold, Provider(core[i]), base(core[i]));
        var moved := tu.Transfer(ContinuityPay(hour, core[i]), ReserveHold, Provider(core[i]), base(core[i]));
        i := i + 1;
      }
      assert core[i..] == [] && core[..i] == core;
    }

    /** One served batch: held, then released, or recycled up to the reserve's target and the rest burned. Nothing stays held. */
    method ServeBatch(batch: Batch, cost: nat, fails: bool, recycles: bool, target: int)
      requires Audit(tu.s) && Continuity in tu.s.balances && UsageHold in tu.s.balances
      requires Provider(batch.owner) in tu.s.balances && cost <= tu.s.balances[Provider(batch.owner)]
      requires forall phase :: Service(batch, phase) !in tu.s.seen
      modifies tu
      ensures Audit(tu.s) && tu.s.committed == old(tu.s).committed && ServesOnly(old(tu.s), tu.s, batch)
      ensures var owner := Provider(batch.owner); tu.s.Balance(owner) == old(tu.s).Balance(owner) - if fails then 0 else cost
      ensures var recycled := if fails || !recycles then 0 else Min(cost, Max(0, target - old(tu.s).Balance(Continuity)));
              tu.s.Balance(Continuity) == old(tu.s).Balance(Continuity) + recycled
              && tu.s.burned == old(tu.s).burned + if fails then 0 else cost - recycled
    {
      hide Audit, Stock;
      var owner := Provider(batch.owner);
      AuditedBalance(tu.s, UsageHold);
      TransferKeepsAudit(tu.s, Service(batch, "hold"), owner, UsageHold, cost);
      var held := tu.Transfer(Service(batch, "hold"), owner, UsageHold, cost);
      assert held;
      if fails {
        var released := tu.Transfer(Service(batch, "release"), UsageHold, owner, cost);
      } else {
        var recycled := if recycles then Min(cost, Max(0, target - tu.s.balances[Continuity])) else 0;
        if recycled > 0 {
          TransferKeepsAudit(tu.s, Service(batch, "recycle"), UsageHold, Continuity, recycled);
          var moved := tu.Transfer(Service(batch, "recycle"), UsageHold, Continuity, recycled);
        }
        var burned := tu.Consume(Service(batch, "burn"), UsageHold, cost - recycled);
      }
    }

    static lemma TopupIsNatural(b: Budget, recycled: nat, minted: nat)
      requires 0 < b.divisor
      ensures 0 <= Min(Max(0, b.target - b.continuity + recycled), minted / b.divisor)
    {
    }

    static lemma StockIs(s: State, stock: int)
      requires stock == Sum(s.balances, Itself)
      ensures Stock(s) == stock
    {
    }

    static lemma PromisedKeeps(s: State, t: State)
      requires t == s.(committed := t.committed)
      ensures Stock(t) == Stock(s)
    {
    }
  }
}
