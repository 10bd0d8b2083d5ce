/** The integrated economy study, hour by hour, with what is true at the end of every hour. */
module HourlyStudy {
  import opened HourlyPlan
  import opened HourlyRuns
  import opened MapSums
  import opened Quotients
  import HourlyState

  /** What one hour did. */
  datatype Report = Report(
    state: HourlyState.State, fits: bool, core: seq<nat>, active: seq<nat>, minted: nat, topup: nat, forged: nat)

  predicate Supported(state: HourlyState.State) { state.Defense? || state.Recovery? }

  /** What an hour pays one provider. */
  function PaidTo(policy: Policy, e: Events, r: Report, p: nat): nat
  {
    if r.state.Normal? && p in r.active then Scaled(policy.base(p), e.coop)
    else if Supported(r.state) && p in r.core then policy.base(p)
    else 0
  }

  /** From the end of one hour to the end of the next. */
  ghost predicate HourMoves(policy: Policy, s: State, t: State, e: Events, r: Report)
  {
    && (r.state.Normal? ==> forall p :: p in r.core ==> p in r.active)
    && (Supported(r.state) ==> r.active == r.core)
    && (!r.state.Normal? && !Supported(r.state) ==> r.active == [])
    && t.issued == s.issued + r.minted + r.topup + r.forged
    && (!r.state.Normal? ==> r.minted == r.topup == r.forged == 0)
    && Stock(t) <= Max(e.ceiling, Stock(s)) && s.burned <= t.burned
    && forall p :: t.Balance(Provider(p)) <= s.Balance(Provider(p)) + PaidTo(policy, e, r, p)
  }

  /** How the credit issued so far divides, and what bounds its parts. */
  ghost predicate Counted(policy: Policy, issued: int, m: Metrics)
  {
    && issued == m.ordinary + m.topups + m.forged
    && m.topups * policy.divisor <= m.ordinary
    && m.forged <= m.admitted && m.admitted * WHOLE <= m.ordinary * policy.capBps
  }

  datatype Metrics = Metrics(ordinary: nat, topups: nat, admitted: nat, forged: nat)

  lemma RewardsCounted(policy: Policy, issued: int, m: Metrics, minted: nat, topup: nat)
    requires PolicyOk(policy) && Counted(policy, issued, m) && topup <= minted / policy.divisor
    ensures Counted(policy, issued + minted + topup, m.(ordinary := m.ordinary + minted, topups := m.topups + topup))
  {
    Bounds(minted, policy.divisor);
    Product(policy.divisor, topup, minted / policy.divisor);
    assert (m.topups + topup) * policy.divisor == m.topups * policy.divisor + policy.divisor * topup;
    Product(policy.capBps, m.ordinary, m.ordinary + minted);
  }

  /** The new allowance is what the rewards so far allow beyond what was admitted before. */
  lemma AllowanceIsNatural(policy: Policy, issued: int, m: Metrics)
    requires Counted(policy, issued, m)
    ensures 0 <= m.admitted <= m.ordinary * policy.capBps / WHOLE
    ensures m.ordinary * policy.capBps / WHOLE * WHOLE <= m.ordinary * policy.capBps
  {
    Bounds(m.ordinary * policy.capBps, WHOLE);
    QuotientGrows(m.admitted * WHOLE, m.ordinary * policy.capBps, WHOLE);
    Unique(m.admitted * WHOLE, WHOLE, m.admitted);
  }

  /** What a contracted hour pays each provider. */
  function PayOf(policy: Policy, coop: nat): nat -> nat { (p: nat) => Scaled(policy.base(p), coop) }

  /**
   What an hour pays: a contracted one the greedy selection under its budget, from the reserve first and the rest newly
   issued, with its topup; a defended one the base rates of the core, all from the reserve; any other nothing.
   */
  ghost predicate PaysExactly(policy: Policy, s: State, t: State, e: Events, target: int, r: Report)
    requires PolicyOk(policy) && Continuity in s.balances
  {
    && (forall p :: t.Balance(Provider(p)) == s.Balance(Provider(p)) + PaidTo(policy, e, r, p))
    && (r.state.Normal? ==> ContractsExactly(policy, s, t, e, target, r))
    && (Supported(r.state) ==> t.Balance(Continuity) == s.Balance(Continuity) - Rewards(policy.base, r.core))
    && (!r.state.Normal? && !Supported(r.state) ==> t == s)
  }

  ghost predicate ContractsExactly(policy: Policy, s: State, t: State, e: Events, target: int, r: Report)
    requires PolicyOk(policy) && Continuity in s.balances
  {
    var pay := PayOf(policy, e.coop);
    var continuity, reward := s.Balance(Continuity), Rewards(pay, r.active);
    var recycled := if policy.reserveEnabled then Min(reward, continuity) else 0;
    && r.active == Select(BudgetOf(s, e.ceiling, target, policy.reserveEnabled, policy.divisor), pay, r.core + Others(e.online, r.core), 0)
    && r.minted == reward - recycled && r.topup == Min(Max(0, target - continuity + recycled), r.minted / policy.divisor)
    && t.Balance(Continuity) == continuity - recycled + r.topup
  }

  /** A new day's donation and its cost, which is paid only from what is beyond the shutdown reserve. */
  predicate DayPays(policy: Policy, newDay: bool, donates: bool, cash: int, donated: int, spent: int)
  {
    && donated == (if newDay && donates then policy.donation else 0)
    && spent == if newDay && policy.reserveDays * policy.dailyCost < cash + donated then policy.dailyCost else 0
  }

  /** An undetected forgery takes all of the allowance that fits under the ceiling; a detected one uses up the allowance only. */
  ghost predicate ForgesExactly(policy: Policy, s: State, t: State, e: Events, normal: bool, m: Metrics, n: Metrics, forged: nat)
  {
    var tries := e.fraud && e.quorum && normal;
    var admitted := m.ordinary * policy.capBps / 10000;
    && n.admitted == (if tries then admitted else m.admitted)
    && forged == (if tries && !e.detected then Min(admitted - m.admitted, Max(0, e.ceiling - Stock(s))) else 0)
    && t.Balance(Attacker) == s.Balance(Attacker) + forged
  }

  class Study {
    const policy: Policy
    const opening: int
    const tu: Ledger
    const plan: Hour
    const watch: HourlyState.Watchman
    const waiting: Waiting
    var cash: int
    var donated: int
    var spent: int
    var metrics: Metrics

    /** The study starts with the owners' credit, a reserve, and nothing held, promised or waiting. */
    constructor (policy: Policy, parts: nat -> nat, continuity: nat, opening: nat)
      requires PolicyOk(policy) && 0 < policy.reserveDays
      ensures Steady(0) && fresh(tu) && fresh(watch) && fresh(waiting)
      ensures this.policy == policy && watch.View() == HourlyState.Watch(false, 0)
    {
      this.policy := policy;
      this.opening := opening;
      cash, donated, spent := opening, 0, 0;
      metrics := Metrics(0, 0, 0, 0);
      var ledger := new Ledger(OpeningBalances(policy.accounts, parts, continuity));
      tu := ledger;
      plan := new Hour(ledger);
      watch := new HourlyState.Watchman();
      waiting := new Waiting(policy, ledger);
      new;
      OpeningSettles(policy.accounts, parts, continuity);
    }

    static function OpeningBalances(accounts: nat, parts: nat -> nat, continuity: nat): map<Account, int>
    {
      var owners := set i: nat | 0 <= i < accounts :: Provider(i);
      map a: Account | a in owners + {Continuity, UsageHold, ReserveHold, Attacker} ::
        if a.Provider? then parts(a.id) else if a == Continuity then continuity else 0
    }

    static lemma OpeningSettles(accounts: nat, parts: nat -> nat, continuity: nat)
      ensures var balances := OpeningBalances(accounts, parts, continuity);
              Settled(State(balances, Sum(balances, Itself), 0, 0, 0, 0, {}), accounts)
    {
      hide Sum;
      var balances := OpeningBalances(accounts, parts, continuity);
      forall i: nat | i < accounts ensures Provider(i) in balances {
        var owners := set i: nat | 0 <= i < accounts :: Provider(i);
        assert Provider(i) in owners;
      }
    }

    ghost predicate Wired()
      reads this
    {
      waiting.policy == policy && waiting.tu == tu && waiting.plan.tu == tu && plan.tu == tu && PolicyOk(policy) && 0 < policy.reserveDays
    }

    /** The assertions at the end of the hour before `hour`, with what the next hour builds on. */
    ghost predicate Steady(hour: nat)
      reads this, tu, waiting
    {
      && Wired() && waiting.Ok(hour)
      && cash == opening + donated - spent && 0 <= cash
      && Counted(policy, tu.s.issued, metrics)
    }

    /** Donations and costs of a new day; what must remain for an orderly shutdown is never spent. */
    method NewDay(hour: nat, donates: bool)
      requires 0 <= cash == opening + donated - spent && 0 < policy.reserveDays
      modifies this`cash, this`donated, this`spent
      ensures 0 <= cash == opening + donated - spent
      ensures DayPays(policy, hour % 24 == 0, donates, old(cash), donated - old(donated), spent - old(spent))
    {
      if hour % 24 == 0 {
        if donates {
          cash, donated := cash + policy.donation, donated + policy.donation;
        }
        if cash > policy.reserveDays * policy.dailyCost {
          Product(policy.dailyCost, 1, policy.reserveDays);
          cash, spent := cash - policy.dailyCost, spent + policy.dailyCost;
        }
      }
    }

    ghost function HourBudget(e: Events, target: int): Budget
      requires PolicyOk(policy) && Continuity in tu.s.balances
      reads this, tu
    {
      BudgetOf(tu.s, e.ceiling, target, policy.reserveEnabled, policy.divisor)
    }

    /** Which route the hour pays first, the reserve's target, and what that says about defence. */
    method Decide(e: Events) returns (core: seq<nat>, target: nat, fits: bool)
      requires Wired() && EventsOk(e) && Settled(tu.s, policy.accounts)
      modifies watch
      ensures Distinct(core) && (forall p :: p in core ==> p in e.online)
      ensures target == Rewards(policy.base, MinimumCore(e.online, policy.large, policy.roles)) * policy.reserveHours
      ensures fits <==> core != [] && HourlyState.Fits(HourBudget(e, target), policy.base, core)
      ensures watch.View() == HourlyState.Watched(old(watch.View()), fits, policy.recoveryHours)
    {
      hide Audit, Stock, Rewards, MinimumCore;
      var first := MinimumCore(e.online, policy.large, policy.roles);
      CoreIsOnline(e.online, policy.large, policy.roles);
      target := Rewards(policy.base, first) * policy.reserveHours;
      var stock := AddUp(tu.s.balances, Itself);
      Hour.StockIs(tu.s, stock);
      var continuity := tu.s.balances[Continuity];
      var b := Budget(Max(0, e.ceiling - stock - tu.s.committed), if policy.reserveEnabled then continuity else 0, continuity,
                      target, policy.divisor);
      core := HourlyState.AffordableCore(b, policy.base, first, Cheapest(e.online, policy.base));
      watch.Observe(core, b.room, MinimumPromise(b, Rewards(policy.base, core)), policy.recoveryHours);
      fits := core != [] && MinimumPromise(b, Rewards(policy.base, core)) <= b.room;
    }

    /** The hour's payments: a contracted hour, a defended one, or none. */
    method Pay(hour: nat, e: Events, core: seq<nat>, target: nat, fits: bool) returns (r: Report)
      requires Wired() && EventsOk(e) && Settled(tu.s, policy.accounts) && KeysBefore(tu.s.seen, hour)
      requires Distinct(core) && (!fits ==> watch.inDefense)
      requires fits <==> core != [] && HourlyState.Fits(HourBudget(e, target), policy.base, core)
      modifies tu
      ensures Settled(tu.s, policy.accounts) && PaysOnly(old(tu.s), tu.s, hour)
      ensures r.core == core && r.fits == fits && r.forged == 0 && r.topup <= r.minted / policy.divisor
      ensures HourMoves(policy, old(tu.s), tu.s, e, r)
      ensures PaysExactly(policy, old(tu.s), tu.s, e, target, r)
      ensures r.state.Normal? ==> fits
      ensures r.state == HourlyState.StateOf(e.quorum, cash > policy.reserveDays * policy.dailyCost, core, watch.View(),
                policy.reserveEnabled && old(tu.s).Balance(Continuity) >= Rewards(policy.base, core))
    {
      hide Audit, Stock, Rewards, MinimumPromise, Select;
      var rate := Rewards(policy.base, core);
      var suffices := policy.reserveEnabled && tu.s.balances[Continuity] >= rate;
      var state := HourlyState.StateOf(e.quorum, cash > policy.reserveDays * policy.dailyCost, core, watch.View(), suffices);
      FreshHours(tu.s.seen, hour);
      ghost var start := tu.s;
      SettledAudit(start, policy.accounts);
      if state.Normal? {
        r := PayNormal(hour, e, core, target);
      } else if Supported(state) {
        plan.Defend(hour, policy.base, core);
        Hour.IssuedIsMinted(start, tu.s);
        r := Report(state, fits, core, core, 0, 0, 0);
      } else {
        r := Report(state, fits, core, [], 0, 0, 0);
        NothingPaid(start, hour);
      }
      PaidStaysSettled(start, tu.s, hour, policy.accounts);
    }

    /** A contracted hour: the greedy selection that starts with the core. */
    method PayNormal(hour: nat, e: Events, core: seq<nat>, target: nat) returns (r: Report)
      requires Wired() && EventsOk(e) && Audit(tu.s) && tu.s.committed == 0 && Continuity in tu.s.balances && FreshHour(tu.s.seen, hour)
      requires Distinct(core) && HourlyState.Fits(HourBudget(e, target), policy.base, core)
      modifies tu
      ensures Audit(tu.s) && tu.s.committed == 0 && PaysOnly(old(tu.s), tu.s, hour)
      ensures r == Report(HourlyState.Normal, true, core, r.active, r.minted, r.topup, 0) && r.topup <= r.minted / policy.divisor
      ensures HourMoves(policy, old(tu.s), tu.s, e, r) && PaysExactly(policy, old(tu.s), tu.s, e, target, r)
    {
      hide Audit, Stock, Rewards, MinimumPromise, Select, HourMoves, PaysExactly, PayOf;
      ghost var s := tu.s;
      var base := policy.base;
      var pay := PayOf(policy, e.coop);
      PayIsLess(policy, e.coop);
      OnlineDistinct(e);
      CoreAndOthers(e.online, core);
      var others := Others(e.online, core);
      var made := plan.Contract(hour, pay, base, core, others, e.ceiling, target, policy.reserveEnabled, policy.divisor);
      r := Report(HourlyState.Normal, true, core, made.active, made.minted, made.topup, 0);
      ContractPays(policy, s, tu.s, e, target, r, made);
    }

    static lemma PayIsLess(policy: Policy, coop: nat)
      requires coop <= WHOLE
      ensures forall p :: PayOf(policy, coop)(p) <= policy.base(p)
    {
      forall p ensures PayOf(policy, coop)(p) <= policy.base(p) { ScaledIsLess(policy.base(p), coop); }
    }

    static lemma ContractPays(policy: Policy, s: State, t: State, e: Events, target: int, r: Report, made: Plan)
      requires PolicyOk(policy) && Continuity in s.balances && e.coop <= WHOLE
      requires r == Report(HourlyState.Normal, true, r.core, made.active, made.minted, made.topup, 0)
      requires forall p :: p in r.core ==> p in made.active
      requires forall p :: t.Balance(Provider(p))
                           == s.Balance(Provider(p)) + if p in made.active then PayOf(policy, e.coop)(p) else 0
      requires t.Balance(Continuity) == s.Balance(Continuity) - made.recycled + made.topup
      requires Stock(t) <= Max(e.ceiling, Stock(s)) && s.burned == t.burned
      requires t.issued == s.issued + made.minted + made.topup
      requires made.active == Select(BudgetOf(s, e.ceiling, target, policy.reserveEnabled, policy.divisor), PayOf(policy, e.coop),
                                     r.core + Others(e.online, r.core), 0)
      requires made.reward == Rewards(PayOf(policy, e.coop), made.active) && made.minted == made.reward - made.recycled
      requires made.recycled == if policy.reserveEnabled then Min(made.reward, s.Balance(Continuity)) else 0
      requires made.topup == Min(Max(0, target - s.Balance(Continuity) + made.recycled), made.minted / policy.divisor)
      ensures HourMoves(policy, s, t, e, r) && PaysExactly(policy, s, t, e, target, r)
    {
      hide Audit, Stock, Rewards, Select, BudgetOf;
    }

    static lemma NothingPaid(s: State, hour: nat)
      ensures PaysOnly(s, s, hour)
    {
    }

    static lemma OnlineDistinct(e: Events)
      requires EventsOk(e)
      ensures Distinct(e.online)
    {
    }

    static lemma FreshHours(seen: set<Key>, hour: nat)
      requires KeysBefore(seen, hour)
      ensures FreshHour(seen, hour) && Fraud(hour) !in seen
    {
      assert KeyHour(ReserveTopup(hour)) == KeyHour(ReserveHeld(hour)) == KeyHour(Fraud(hour)) == hour;
      forall key | key in seen && (key.CirculationPay? || key.Ordinary? || key.ContinuityPay?) ensures key.hour != hour {
        assert KeyHour(key) == key.hour;
      }
    }

    static lemma SettledAudit(s: State, accounts: nat)
      requires Settled(s, accounts)
      ensures Audit(s)
    {
      hide Audit;
    }

    static lemma PaidStaysSettled(s: State, t: State, hour: nat, accounts: nat)
      requires Settled(s, accounts) && PaysOnly(s, t, hour) && Audit(t) && t.committed == 0
      ensures Settled(t, accounts)
    {
      hide Audit;
      assert t.Balance(UsageHold) == s.Balance(UsageHold) && t.Balance(ReserveHold) == s.Balance(ReserveHold);
      forall i: nat | i < accounts ensures Provider(i) in t.balances { assert Provider(i) in s.balances; }
    }

    static lemma PaidKeepsQueues(queues: map<Line, seq<Desire>>, s: State, t: State, hour: nat)
      requires QueuesOk(queues, s.seen, hour) && KeysBefore(s.seen, hour) && PaysOnly(s, t, hour)
      ensures QueuesOk(queues, t.seen, hour) && KeysBefore(t.seen, hour + 1) && Fraud(hour) !in t.seen
      ensures forall key :: key in t.seen && key.Service? ==> key.batch.created < hour
    {
      hide Audit;
      FreshHours(s.seen, hour);
      forall key | key in t.seen ensures KeyHour(key) < hour + 1 && (key.Service? ==> key in s.seen) {
        if key in s.seen { assert KeyHour(key) < hour; } else { assert PaymentKey(key, hour); }
      }
      forall q | q in queues ensures QueueOk(queues[q], q.model, q.owner, t.seen, hour) {
        assert QueueOk(queues[q], q.model, q.owner, s.seen, hour);
      }
      forall key | key in t.seen && key.Service? ensures key.batch.created < hour { assert KeyHour(key) < hour; }
    }

    static lemma ServedStock(s: State, t: State, target: int, hour: nat)
      requires Audit(s) && Audit(t) && Serves(s, t, target, hour)
      ensures Stock(t) <= Stock(s)
    {
    }

    /** Credit forged by an undetected attacker, within what the rewards so far allow and under the ceiling. */
    method Forge(hour: nat, e: Events, normal: bool) returns (forged: nat)
      requires Settled(tu.s, policy.accounts) && Fraud(hour) !in tu.s.seen && Counted(policy, tu.s.issued, metrics)
      modifies this`metrics, tu
      ensures Settled(tu.s, policy.accounts) && Counted(policy, tu.s.issued, metrics)
      ensures tu.s.seen <= old(tu.s).seen + {Fraud(hour)} && tu.s.issued == old(tu.s).issued + forged
      ensures tu.s.burned == old(tu.s).burned && forall p :: tu.s.Balance(Provider(p)) == old(tu.s).Balance(Provider(p))
      ensures (!normal ==> forged == 0) && Stock(tu.s) <= Max(e.ceiling, Stock(old(tu.s)))
      ensures metrics.ordinary == old(metrics).ordinary && metrics.topups == old(metrics).topups
      ensures ForgesExactly(policy, old(tu.s), tu.s, e, normal, old(metrics), metrics, forged)
    {
      hide Audit, Stock, Sum;
      forged := 0;
      ghost var start := tu.s;
      SettledAudit(start, policy.accounts);
      if e.fraud && e.quorum && normal {
        AllowanceIsNatural(policy, tu.s.issued, metrics);
        var allowance := metrics.ordinary * policy.capBps / WHOLE - metrics.admitted;
        metrics := metrics.(admitted := metrics.admitted + allowance);
        if !e.detected {
          var stock := AddUp(tu.s.balances, Itself);
          Hour.StockIs(tu.s, stock);
          forged := Min(allowance, Max(0, e.ceiling - stock - tu.s.committed));
          if forged > 0 {
            tu.Promise(forged, e.ceiling);
            Hour.PromisedKeeps(start, tu.s);
            IssueKeepsAudit(tu.s, Fraud(hour), Attacker, forged);
            var done := tu.Issue(Fraud(hour), Attacker, forged);
          }
          metrics := metrics.(forged := metrics.forged + forged);
        }
      }
      ForgedStaysSettled(start, tu.s, policy.accounts);
    }

    static lemma ForgedStaysSettled(s: State, t: State, accounts: nat)
      requires Settled(s, accounts) && Audit(t) && t.committed == 0 && s.balances.Keys <= t.balances.Keys
      requires forall a: Account :: a != Attacker ==> t.Balance(a) == s.Balance(a)
      ensures Settled(t, accounts)
    {
      hide Audit;
      assert t.Balance(UsageHold) == s.Balance(UsageHold) && t.Balance(ReserveHold) == s.Balance(ReserveHold);
      forall i: nat | i < accounts ensures Provider(i) in t.balances { assert Provider(i) in s.balances; }
    }

    static lemma ForgedKeepsQueues(queues: map<Line, seq<Desire>>, seen: set<Key>, later: set<Key>, hour: nat)
      requires QueuesOk(queues, seen, hour + 1) && KeysBefore(seen, hour + 1) && later <= seen + {Fraud(hour)}
      ensures QueuesOk(queues, later, hour + 1) && KeysBefore(later, hour + 1)
    {
      forall key | key in later ensures KeyHour(key) < hour + 1 { assert key in seen || key == Fraud(hour); }
      forall q | q in queues ensures QueueOk(queues[q], q.model, q.owner, later, hour + 1) {
        assert QueueOk(queues[q], q.model, q.owner, seen, hour + 1);
      }
    }

    /** The requests of an hour: arrivals, then for each model the overdue given up and the rounds. */
    method Requests(hour: nat, e: Events, r: Report, target: nat)
      requires Wired() && Settled(tu.s, policy.accounts) && KeysBefore(tu.s.seen, hour + 1)
      requires QueuesOk(waiting.queues, tu.s.seen, hour) && Compact in waiting.cursors && Large in waiting.cursors
      requires forall key :: key in tu.s.seen && key.Service? ==> key.batch.created < hour
      requires EventsOk(e)
      modifies waiting, tu
      ensures waiting.Ok(hour + 1) && Serves(old(tu.s), tu.s, target, hour + 1)
    {
      hide Settled, QueuesOk, Serves, KeysBefore, Capacity;
      waiting.Arrive(e.arrivals, hour);
      Waiting.SameServes(tu.s, target, hour + 1);
      var models := [Compact, Large];
      var i := 0;
      while i < |models|
        invariant 0 <= i <= |models| && waiting.Ok(hour + 1) && Serves(old(tu.s), tu.s, target, hour + 1)
      {
        var model := models[i];
        waiting.Abandon(model, hour);
        var full := Capacity(policy, r.active, model);
        var coop := if Supported(r.state) then WHOLE else e.coop;
        ScaledIsLess(full, WHOLE - coop);
        ghost var before := tu.s;
        var executed := waiting.Serve(model, full - Scaled(full, WHOLE - coop), target, e.fails, hour + 1);
        ServesTwice(old(tu.s), before, tu.s, target, hour + 1);
        i := i + 1;
      }
    }

    /** One hour, from a steady study to a steady study. */
    method RunHour(hour: nat, e: Events) returns (r: Report)
      requires Steady(hour) && EventsOk(e)
      modifies this`cash, this`donated, this`spent, this`metrics, tu, watch, waiting
      ensures Steady(hour + 1) && HourMoves(policy, old(tu.s), tu.s, e, r)
      ensures watch.View() == HourlyState.Watched(old(watch.View()), r.fits, policy.recoveryHours)
      ensures r.state.Normal? ==> r.fits && !watch.inDefense
      ensures metrics.ordinary == old(metrics).ordinary + r.minted && metrics.topups == old(metrics).topups + r.topup
    {
      hide Audit, Stock, Settled, QueuesOk, KeysBefore, Serves, PaysOnly, Counted, HourMoves, PaysExactly, DayPays, ForgesExactly, PaidTo, LineOf, EventsOk;
      NewDay(hour, e.donates);
      var core, target, fits := Decide(e);
      ghost var s := tu.s;
      r := Pay(hour, e, core, target, fits);
      ghost var paid := tu.s;
      PaidIssued(policy, s, paid, e, r);
      RewardsCounted(policy, s.issued, metrics, r.minted, r.topup);
      metrics := metrics.(ordinary := metrics.ordinary + r.minted, topups := metrics.topups + r.topup);
      PaidKeepsQueues(waiting.queues, s, paid, hour);
      Requests(hour, e, r, target);
      ghost var served := tu.s;
      ServedKeeps(paid, served, target, hour);
      var forged := Forge(hour, e, r.state.Normal?);
      ForgedKeepsQueues(waiting.queues, served.seen, tu.s.seen, hour);
      HourComposes(policy, s, paid, served, tu.s, e, r, forged, target, hour);
      r := r.(forged := forged);
    }

    static lemma PaidIssued(policy: Policy, s: State, t: State, e: Events, r: Report)
      requires HourMoves(policy, s, t, e, r) && r.forged == 0
      ensures t.issued == s.issued + r.minted + r.topup
    {
    }

    static lemma ServedKeeps(s: State, t: State, target: int, hour: nat)
      requires Serves(s, t, target, hour + 1) && Fraud(hour) !in s.seen
      ensures t.issued == s.issued && Fraud(hour) !in t.seen
    {
    }

    static lemma HourComposes(
      policy: Policy, s: State, paid: State, served: State, t: State, e: Events, r: Report, forged: nat, target: int, hour: nat)
      requires Settled(paid, policy.accounts) && Settled(served, policy.accounts)
      requires HourMoves(policy, s, paid, e, r) && r.forged == 0 && Serves(paid, served, target, hour + 1)
      requires t.issued == served.issued + forged && t.burned == served.burned && (!r.state.Normal? ==> forged == 0)
      requires Stock(t) <= Max(e.ceiling, Stock(served)) && forall p :: t.Balance(Provider(p)) == served.Balance(Provider(p))
      ensures HourMoves(policy, s, t, e, r.(forged := forged))
    {
      hide Audit, Stock, Scaled;
      SettledAudit(paid, policy.accounts);
      SettledAudit(served, policy.accounts);
      ServedStock(paid, served, target, hour + 1);
      forall p ensures t.Balance(Provider(p)) <= s.Balance(Provider(p)) + PaidTo(policy, e, r.(forged := forged), p) {
        assert PaidTo(policy, e, r.(forged := forged), p) == PaidTo(policy, e, r, p);
        assert served.Balance(Provider(p)) <= paid.Balance(Provider(p));
      }
    }

    /**
     Main result: at the end of every hour of every study nothing is promised or held, the audit holds, and the hour
     moved credit only as its state allows; an hour is NORMAL only after every required hour could afford a route.
     */
    method Run(events: seq<Events>) returns (reports: seq<Report>, ghost trace: seq<State>)
      requires Steady(0) && watch.View() == HourlyState.Watch(false, 0)
      requires forall i :: 0 <= i < |events| ==> EventsOk(events[i])
      modifies this`cash, this`donated, this`spent, this`metrics, tu, watch, waiting
      ensures Steady(|events|) && Traced(policy, events, reports, trace)
      ensures trace[0] == old(tu.s) && trace[|events|] == tu.s
    {
      hide Settled, HourMoves, EventsOk, Traced;
      reports, trace := [], [tu.s];
      TraceStarts(policy, tu.s);
      assert events[..0] == [];
      var hour := 0;
      while hour < |events|
        invariant 0 <= hour <= |events| && Steady(hour)
        invariant Traced(policy, events[..hour], reports, trace) && |reports| == hour && |trace| == hour + 1
        invariant trace[0] == old(tu.s) && trace[hour] == tu.s
        invariant watch.View() == HourlyState.After(Fits(reports), policy.recoveryHours)
      {
        var r := RunHour(hour, events[hour]);
        FitsGrow(reports, r, policy.recoveryHours);
        TraceGrows(policy, events[..hour], reports, trace, tu.s, events[hour], r);
        assert events[..hour + 1] == events[..hour] + [events[hour]];
        reports, trace := reports + [r], trace + [tu.s];
        hour := hour + 1;
      }
      assert events[..hour] == events;
    }

    static lemma TraceStarts(policy: Policy, s: State)
      requires Settled(s, policy.accounts)
      ensures Traced(policy, [], [], [s])
    {
      hide Settled;
    }

    static lemma TraceGrows(
      policy: Policy, events: seq<Events>, reports: seq<Report>, trace: seq<State>, t: State, e: Events, r: Report)
      requires Traced(policy, events, reports, trace) && Settled(t, policy.accounts)
      requires HourMoves(policy, trace[|events|], t, e, r)
      requires r.state.Normal? ==> !HourlyState.After(Fits(reports + [r]), policy.recoveryHours).inDefense
      ensures Traced(policy, events + [e], reports + [r], trace + [t])
    {
      hide Settled, HourMoves;
      forall i | 0 <= i < |events + [e]| ensures NormalAt(reports + [r], i, policy.recoveryHours) {
        if i < |events| {
          assert NormalAt(reports, i, policy.recoveryHours) && (reports + [r])[..i + 1] == reports[..i + 1];
        } else {
          assert (reports + [r])[..i + 1] == reports + [r];
        }
      }
    }

    static lemma FitsGrow(reports: seq<Report>, r: Report, needed: nat)
      ensures HourlyState.After(Fits(reports + [r]), needed) == HourlyState.Watched(HourlyState.After(Fits(reports), needed), r.fits, needed)
    {
      assert Fits(reports + [r]) == Fits(reports) + [r.fits];
    }
  }

  // ---------------------------------------------------------------------------------------------
  // What follows for whole studies

  function Fits(reports: seq<Report>): seq<bool> { seq(|reports|, i requires 0 <= i < |reports| => reports[i].fits) }

  /** The ledger at the end of every hour, with what each hour did. */
  ghost predicate Traced(policy: Policy, events: seq<Events>, reports: seq<Report>, trace: seq<State>)
  {
    && |reports| == |events| && |trace| == |events| + 1
    && (forall i :: 0 <= i < |trace| ==> Settled(trace[i], policy.accounts))
    && (forall i :: 0 <= i < |events| ==> HourMoves(policy, trace[i], trace[i + 1], events[i], reports[i]))
    && forall i :: 0 <= i < |events| ==> NormalAt(reports, i, policy.recoveryHours)
  }

  ghost predicate NormalAt(reports: seq<Report>, i: nat, needed: nat)
    requires i < |reports|
  {
    reports[i].state.Normal? ==> !HourlyState.After(Fits(reports[..i + 1]), needed).inDefense
  }

  /** An hour is NORMAL only when it and every required hour before it could afford a route. */
  lemma NormalAfterStableHours(policy: Policy, events: seq<Events>, reports: seq<Report>, trace: seq<State>, i: nat)
    requires Traced(policy, events, reports, trace) && i < |events| && reports[i].state.Normal?
    ensures forall j :: Max(0, i + 1 - Max(1, policy.recoveryHours)) <= j <= i ==> reports[j].fits
  {
    hide Settled, HourMoves;
    assert NormalAt(reports, i, policy.recoveryHours);
    var fits := Fits(reports[..i + 1]);
    HourlyState.DefenceIsExact(fits, policy.recoveryHours);
    forall j | Max(0, i + 1 - Max(1, policy.recoveryHours)) <= j <= i ensures reports[j].fits {
      assert fits[j];
    }
  }

  /** However hours follow one another, credit never exceeds the opening stock and every ceiling met. */
  lemma {:induction false} StockStaysBelow(
    policy: Policy, events: seq<Events>, reports: seq<Report>, trace: seq<State>, bound: int, i: nat)
    requires Traced(policy, events, reports, trace) && i <= |events|
    requires Stock(trace[0]) <= bound && forall k :: 0 <= k < |events| ==> events[k].ceiling <= bound
    ensures Stock(trace[i]) <= bound
    decreases i
  {
    hide Stock, Settled;
    if i > 0 {
      StockStaysBelow(policy, events, reports, trace, bound, i - 1);
      assert HourMoves(policy, trace[i - 1], trace[i], events[i - 1], reports[i - 1]);
    }
  }

  /** What the hours up to `i` paid a provider. */
  function PaidSoFar(policy: Policy, events: seq<Events>, reports: seq<Report>, p: nat, i: nat): nat
    requires i <= |events| == |reports|
  {
    if i == 0 then 0 else PaidSoFar(policy, events, reports, p, i - 1) + PaidTo(policy, events[i - 1], reports[i - 1], p)
  }

  /** Nobody ever has more than it started with and was paid. */
  lemma {:induction false} EarnedIsPaid(
    policy: Policy, events: seq<Events>, reports: seq<Report>, trace: seq<State>, p: nat, i: nat)
    requires Traced(policy, events, reports, trace) && i <= |events|
    ensures trace[i].Balance(Provider(p)) <= trace[0].Balance(Provider(p)) + PaidSoFar(policy, events, reports, p, i)
    decreases i
  {
    hide Stock, Settled, PaidTo;
    if i > 0 {
      EarnedIsPaid(policy, events, reports, trace, p, i - 1);
      assert HourMoves(policy, trace[i - 1], trace[i], events[i - 1], reports[i - 1]);
    }
  }
}
