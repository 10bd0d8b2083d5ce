/** The day boundary: the audit and both cash assertions hold, and every bootstrap allocation succeeds or is declined. */
module StudyDay {
  import opened StudyLedger
  import opened StudyRoles
  import opened MapSums
  import opened EventStudy
  import opened StudySafety
  import opened StudySteps
  import opened StudyLease

  predicate OnlyLedger(w: World, v: World) { v == w.(ledger := v.ledger) }

  lemma GrantKeeps(P: Params, w: World, key: Key, recipient: Account, value: int, ceiling: int, kind: StudyLedger.Kind)
    requires Valid(P, w) && TokenFree(w, DayToken)
    requires key == TreasuryKey(w.now) || (key.GrantKey? && key.at == w.now)
    requires RoleOf(w.ledger, key) == Fresh && recipient != Continuity && kind != OtherKind
    requires Representable(value) && Representable(ceiling)
    ensures var r := Grant(w, key, recipient, value, ceiling, kind);
            && r.Next? && Valid(P, r.w) && TokenFree(r.w, DayToken) && OnlyLedger(w, r.w)
            && SameElsewhere(w.ledger, r.w.ledger, {key})
            && (forall a :: a != recipient ==> r.w.ledger.Balance(a) == w.ledger.Balance(a))
            && r.w.ledger.Balance(recipient) in {w.ledger.Balance(recipient), w.ledger.Balance(recipient) + value}
  {
    hide Inv, RoleOf, Schedule, Requests, FleetOk, KeysPast, Treasury, AfterPromise, AfterIssue, TokenFree;
    if value != 0 {
      PromiseRole(w.ledger, key, recipient, value, ceiling, kind);
      var (promised, reply) := AfterPromise(w.ledger, key, recipient, value, ceiling, kind);
      if reply == Bool(true) {
        IssueRole(promised, key);
        GrantCredits(w.ledger, key, recipient, value, ceiling, kind);
        LedgerKeeps(P, w, AfterIssue(promised, key).0, key);
        SameEvents(w, w.(ledger := AfterIssue(promised, key).0));
      }
    }
  }

  lemma GrantCredits(s: State, key: Key, recipient: Account, value: int, ceiling: int, kind: StudyLedger.Kind)
    requires RoleOf(s, key) == Fresh
    ensures var (promised, reply) := AfterPromise(s, key, recipient, value, ceiling, kind);
            reply == Bool(true) ==>
              var issued := AfterIssue(promised, key).0;
              issued.Balance(recipient) == s.Balance(recipient) + value && forall a :: a != recipient ==> issued.Balance(a) == s.Balance(a)
  {
    hide Promisable;
  }

  /** grant // recipients, and one more for the first grant % recipients of them. */
  function Share(total: int, parts: nat, index: nat): int
    requires 0 < parts
  {
    total / parts + if index < total % parts then 1 else 0
  }

  lemma ShareFits(total: int, parts: nat, index: nat)
    requires 0 <= total && index < parts
    ensures 0 <= Share(total, parts, index) <= total
  {
    Quotients.Bounds(total, parts);
    Quotients.Product(total / parts, 1, parts);
  }

  function FirstShares(total: int, parts: nat, n: nat): int
    requires 0 < parts
  {
    if n == 0 then 0 else FirstShares(total, parts, n - 1) + Share(total, parts, n - 1)
  }

  lemma {:induction false} FirstSharesAre(total: int, parts: nat, n: nat)
    requires 0 < parts
    ensures FirstShares(total, parts, n) == n * (total / parts) + if n <= total % parts then n else total % parts
  {
    if n > 0 {
      FirstSharesAre(total, parts, n - 1);
      assert n * (total / parts) == (n - 1) * (total / parts) + total / parts;
    }
  }

  /** The shares add up to the grant, and no two differ by more than one unit. */
  lemma SharesAreEven(total: int, parts: nat)
    requires 0 < parts
    ensures FirstShares(total, parts, parts) == total
    ensures forall i: nat, j: nat :: i < parts && j < parts ==> Share(total, parts, i) <= Share(total, parts, j) + 1
  {
    FirstSharesAre(total, parts, parts);
  }

  /** From the given index on, every user got its whole share or nothing; nobody else's balance changed. */
  predicate Granted(s: State, t: State, a: Account, grant: int, accounts: nat, index: nat)
    requires index <= accounts
  {
    if a.User? && index <= a.user < accounts then
      t.Balance(a) == s.Balance(a) || t.Balance(a) == s.Balance(a) + Share(grant, accounts, a.user)
    else t.Balance(a) == s.Balance(a)
  }

  /** The even distribution among the users. */
  lemma {:induction false} GrantUsersKeeps(P: Params, E: Env, w: World, grant: int, index: nat)
    requires Sound(P, E) && Valid(P, w) && TokenFree(w, DayToken) && Representable(grant) && index <= P.accounts
    requires forall i: nat :: index <= i ==> RoleOf(w.ledger, GrantKey(w.now, i)) == Fresh
    ensures var r := GrantUsers(P, E, w, grant, index);
            && r.Next? && Valid(P, r.w) && TokenFree(r.w, DayToken) && OnlyLedger(w, r.w)
            && forall a :: Granted(w.ledger, r.w.ledger, a, grant, P.accounts, index)
    decreases P.accounts - index
  {
    hide Inv, RoleOf, Schedule, Requests, FleetOk, KeysPast, MomentOk, Ceiling, Grant, TokenFree, PlanOk, CashOk;
    if index < P.accounts {
      var value := Share(grant, P.accounts, index);
      ShareFits(grant, P.accounts, index);
      CeilingFits(P, E, w);
      GrantKeeps(P, w, GrantKey(w.now, index), User(index), value, Ceiling(P, E, w), GrantKind);
      var v := Grant(w, GrantKey(w.now, index), User(index), value, Ceiling(P, E, w), GrantKind).w;
      GrantUsersKeeps(P, E, v, grant, index + 1);
      var done := GrantUsers(P, E, w, grant, index).w;
      forall a ensures Granted(w.ledger, done.ledger, a, grant, P.accounts, index) {
        assert Granted(v.ledger, done.ledger, a, grant, P.accounts, index + 1);
      }
    }
  }

  /** Neither allocation is ever negative: what is issued and promised stays within both caps. */
  lemma RoomForGrants(s: State)
    requires Inv(s)
    ensures s.c.treasuryIssued <= s.c.contributorIssued / TREASURY_DIVISOR
    ensures s.c.grantsIssued <= s.c.contributorIssued / GRANT_DIVISOR
    ensures 0 <= s.Exposure()
  {
    InvImpliesAudit(s);
  }

  lemma BootstrapKeeps(P: Params, E: Env, w: World)
    requires Sound(P, E) && Valid(P, w) && TokenFree(w, DayToken) && DayOk(w, w.now)
    ensures var r := Bootstrap(P, E, w); r.Next? && Valid(P, r.w) && TokenFree(r.w, DayToken) && OnlyLedger(w, r.w)
  {
    hide Inv, RoleOf, Schedule, Requests, FleetOk, KeysPast, MomentOk, Ceiling, Grant, TokenFree, PlanOk, CashOk, GrantUsers;
    CeilingFits(P, E, w);
    RoomForGrants(w.ledger);
    var ceiling := Ceiling(P, E, w);
    var room := Max(0, ceiling - w.ledger.Exposure());
    var treasury := Min(room, w.ledger.c.contributorIssued / TREASURY_DIVISOR - w.ledger.c.treasuryIssued);
    GrantKeeps(P, w, TreasuryKey(w.now), Working, treasury, ceiling, TreasuryKind);
    var funded := Grant(w, TreasuryKey(w.now), Working, treasury, ceiling, TreasuryKind).w;
    RoomForGrants(funded.ledger);
    var grant := Min(Max(0, ceiling - funded.ledger.Exposure()),
                     funded.ledger.c.contributorIssued / GRANT_DIVISOR - funded.ledger.c.grantsIssued);
    GrantUsersKeeps(P, E, funded, grant, 0);
  }

  lemma RememberKeeps(history: seq<int>, capacity: int)
    requires 0 <= capacity && forall x :: x in history ==> 0 <= x
    ensures forall x :: x in Remember(history, capacity) ==> 0 <= x
    ensures |history| <= 7 ==> |Remember(history, capacity)| <= 7
  {
    var kept := if |history| < 7 then history else history[|history| - 6..];
    assert forall x :: x in kept ==> x in history;
    assert Remember(history, capacity) == kept + [capacity];
  }

  /** Paying a day of operations never spends the shutdown reserve, and the cash account balances. */
  lemma OperationsKeepCash(P: Params, E: Env, now: nat, c: Cash)
    requires CashOk(P, c)
    ensures CashOk(P, PayOperations(P, E, now, c))
  {
  }

  lemma NextDayOk(w: World, when: nat)
    requires KeysPast(w) && w.now < when
    ensures DayOk(w, when)
  {
    hide RoleOf;
  }

  lemma BookKeepingKeeps(P: Params, E: Env, w: World)
    requires Usable(P) && Valid(P, w)
    ensures var cash := PayOperations(P, E, w.now, w.cash);
            var market := Trade(P, w.market);
            var v := w.(cash := cash, market := market,
                        plan := w.plan.(history := Remember(w.plan.history, Capacity(P, E.online(w.now)))));
            CashOk(P, cash) && market.buyer + market.earned == 100000 && Valid(P, v)
  {
    hide Inv, RoleOf, Schedule, Requests, FleetOk, KeysPast, CashOk, PayOperations, Remember, Capacity;
    OperationsKeepCash(P, E, w.now, w.cash);
    CapacityNat(P, E.online(w.now));
    RememberKeeps(w.plan.history, Capacity(P, E.online(w.now)));
    var v := w.(cash := PayOperations(P, E, w.now, w.cash), market := Trade(P, w.market),
                plan := w.plan.(history := Remember(w.plan.history, Capacity(P, E.online(w.now)))));
    PlanKeeps(P, w, v);
  }

  lemma DayBoundaryKeeps(P: Params, E: Env, w: World)
    requires Sound(P, E) && Valid(P, w) && DayOk(w, w.now) && TokenFree(w, DayToken)
    ensures DayBoundary(P, E, w).Next? && Valid(P, DayBoundary(P, E, w).w)
  {
    hide Inv, RoleOf, Schedule, Requests, FleetOk, KeysPast, PayOperations, Remember, Capacity, Trade,
         MomentOk, TokenFree, Bootstrap, Audit, DayOk, Push;
    InvImpliesAudit(w.ledger);
    if w.now < P.End() {
      BookKeepingKeeps(P, E, w);
      var v := w.(cash := PayOperations(P, E, w.now, w.cash), market := Trade(P, w.market),
                  plan := w.plan.(history := Remember(w.plan.history, Capacity(P, E.online(w.now)))));
      SameEvents(w, v);
      DaySame(w, v, w.now);
      BootstrapKeeps(P, E, v);
      var booted := Bootstrap(P, E, v).w;
      NextDayOk(booted, w.now + DAY);
      PushKeeps(P, booted, w.now + DAY, Day);
    }
  }

  lemma DaySame(w: World, v: World, when: nat)
    requires v.ledger == w.ledger && DayOk(w, when)
    ensures DayOk(v, when)
  {
    hide RoleOf;
  }
}
