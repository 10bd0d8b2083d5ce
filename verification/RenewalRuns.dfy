/** Main results about renewals over every run: the limits always hold and every renewed window was opened by all its providers. */
module RenewalRuns {
  import opened MapSums
  import opened Selection
  import opened Cooperative
  import opened Renewals
  import opened RenewalSafety
  import Acceptances
  import Journal
  import LeaseRuns
  import LeaseSafety
  import Postings
  import RouteLease

  // ---------------------------------------------------------------------------------------------
  // New authority, new mandates, revocation, and everything the pool does by itself

  /** authorize: a limit of the authority must pay at least one whole window. */
  function Authorize(
    o: Office, id: nat, group: string, kind: Coverage, maxWindows: nat, maxWorking: nat, maxReserve: nat, expires: int): Office
    requires id !in o.authorities && group in o.pool.groups
  {
    var cost := o.pool.groups[group].Cost();
    if (maxWorking < cost && maxReserve < cost) || (kind == Expansion && maxReserve != 0)
       || exists x :: x in o.authorities && o.authorities[x].standing == Active && o.authorities[x].group == group
                      && o.authorities[x].kind == kind then o
    else o.(authorities := o.authorities[id := Authority(group, kind, maxWindows, maxWorking, maxReserve, 0, 0, 0, expires, Active)])
  }

  /** mandate: a provider of the route, with no other active mandate for it. */
  function Consent(o: Office, id: nat, provider: nat, route: nat, kind: Coverage, maxWindows: nat, expires: int): Office
    requires id !in o.mandates
  {
    if provider !in Providers(o, route)
       || exists x :: x in o.mandates && o.mandates[x].standing == Active && o.mandates[x].provider == provider
                      && o.mandates[x].route == route && o.mandates[x].kind == kind then o
    else o.(mandates := o.mandates[id := Mandate(provider, route, kind, maxWindows, 0, expires, Active)])
  }

  /** Revoking or expiring a mandate; accepted windows keep it. */
  function EndMandate(o: Office, id: nat, standing: Standing): Office
    requires id in o.mandates && standing != Active
  {
    o.(mandates := o.mandates[id := o.mandates[id].(standing := standing)])
  }

  /** A lease row moves on by itself: once opened it is never merely offered again, and its acceptances and providers stay. */
  predicate LeaseMoves(a: RouteLease.Lease, b: RouteLease.Lease)
  {
    a.phase != RouteLease.Offered ==>
      && b.phase != RouteLease.Offered && b.id == a.id && b.accepted == a.accepted
      && Acceptances.ProviderSet(b.members) == Acceptances.ProviderSet(a.members)
  }

  /** Everything else moves on its own: payments, refunds, settlements, other windows. Recorded windows stay what they are. */
  ghost predicate OthersMove(o: Office, pool: Pool, books: Journal.Books, leases: map<nat, RouteLease.Lease>)
  {
    && PoolOk(pool) && pool.groups == o.pool.groups
    && (forall w :: w in o.pool.windows ==> w in pool.windows && pool.windows[w].budget == o.pool.windows[w].budget
                                            && pool.windows[w].source == o.pool.windows[w].source)
    && FundsOk(o.(pool := pool, books := books))
    && (forall l :: l in o.leases ==> l in leases && LeaseMoves(o.leases[l], leases[l]))
  }

  datatype Action =
    | DoAttempt(id: nat, lease: nat, env: Env)
    | DoAuthorize(id: nat, group: string, kind: Coverage, maxWindows: nat, maxWorking: nat, maxReserve: nat, expires: int)
    | DoConsent(id: nat, provider: nat, route: nat, kind: Coverage, maxWindows: nat, expires: int)
    | DoRevoke(id: nat)
    | DoEndMandate(id: nat, standing: Standing)
    | Elsewhere(pool: Pool, books: Journal.Books, leases: map<nat, RouteLease.Lease>)

  ghost predicate Possible(o: Office, action: Action)
  {
    match action
    case DoAttempt(_, lease, _) => NewLease(o, lease)
    case DoAuthorize(id, group, _, _, _, _, _) => id !in o.authorities && group in o.pool.groups
    case DoConsent(id, _, _, _, _, _) => id !in o.mandates
    case DoRevoke(id) => id in o.authorities && o.authorities[id].standing == Active
    case DoEndMandate(id, standing) => id in o.mandates && standing != Active
    case Elsewhere(pool, books, leases) => OthersMove(o, pool, books, leases)
  }

  ghost function Next(o: Office, action: Action): Office
    requires Possible(o, action)
  {
    match action
    case DoAttempt(id, lease, env) => Attempting(o, id, lease, env).0
    case DoAuthorize(id, group, kind, maxWindows, maxWorking, maxReserve, expires) =>
      Authorize(o, id, group, kind, maxWindows, maxWorking, maxReserve, expires)
    case DoConsent(id, provider, route, kind, maxWindows, expires) => Consent(o, id, provider, route, kind, maxWindows, expires)
    case DoRevoke(id) => WithStanding(o, id, Revoked)
    case DoEndMandate(id, standing) => EndMandate(o, id, standing)
    case Elsewhere(pool, books, leases) => o.(pool := pool, books := books, leases := leases)
  }

  /**
   An authority is recorded exactly when one of its limits pays a whole window, an expansion uses no reserve, and the group
   has no active authority of that kind; a mandate exactly when its provider is on the route and has no active one for it.
   */
  lemma RecordedExactlyWhen(
    o: Office, id: nat, group: string, kind: Coverage, maxWindows: nat, maxWorking: nat, maxReserve: nat, expires: int,
    m: nat, provider: nat, route: nat)
    requires id !in o.authorities && group in o.pool.groups && m !in o.mandates
    ensures var after := Authorize(o, id, group, kind, maxWindows, maxWorking, maxReserve, expires);
            var cost := o.pool.groups[group].rate * o.pool.groups[group].duration;
            if (cost <= maxWorking || cost <= maxReserve) && (kind == Expansion ==> maxReserve == 0)
               && forall x :: x in o.authorities ==>
                    o.authorities[x].standing != Active || o.authorities[x].group != group || o.authorities[x].kind != kind
            then after == o.(authorities := o.authorities[id := Authority(group, kind, maxWindows, maxWorking, maxReserve, 0, 0, 0, expires, Active)])
            else after == o
    ensures var after := Consent(o, m, provider, route, kind, maxWindows, expires);
            if route in o.routes && (exists i :: 0 <= i < |o.routes[route].hops| && o.routes[route].hops[i].provider == provider)
               && forall x :: x in o.mandates ==>
                    o.mandates[x].standing != Active || o.mandates[x].provider != provider || o.mandates[x].route != route
                    || o.mandates[x].kind != kind
            then after == o.(mandates := o.mandates[m := Mandate(provider, route, kind, maxWindows, 0, expires, Active)])
            else after == o
  {
    if provider in Providers(o, route) {
      var h :| h in PathOf(o, route).hops && h.provider == provider;
      var i :| 0 <= i < |PathOf(o, route).hops| && PathOf(o, route).hops[i] == h;
    }
    if route in o.routes {
      forall i | 0 <= i < |o.routes[route].hops| ensures o.routes[route].hops[i].provider in Providers(o, route) {
        assert o.routes[route].hops[i] in PathOf(o, route).hops;
      }
    }
  }

  lemma {:induction false} NoRuns(runs: map<nat, Renewed>, f: Renewed -> int)
    requires forall l :: l in runs ==> f(runs[l]) == 0
    ensures Sum(runs, f) == 0
    decreases |runs|
  {
    hide Sum;
    if runs == map[] {
      Nothing<nat, Renewed>(f);
    } else {
      var l :| l in runs;
      Split(runs, f, l);
      NoRuns(runs - {l}, f);
    }
  }

  lemma {:induction false} NoUses(usages: map<(nat, nat), nat>, f: nat -> int)
    requires forall k :: k in usages ==> f(usages[k]) == 0
    ensures Sum(usages, f) == 0
    decreases |usages|
  {
    hide Sum;
    if usages == map[] {
      Nothing<(nat, nat), nat>(f);
    } else {
      var k :| k in usages;
      Split(usages, f, k);
      NoUses(usages - {k}, f);
    }
  }

  lemma AuthorizeKeeps(
    o: Office, id: nat, group: string, kind: Coverage, maxWindows: nat, maxWorking: nat, maxReserve: nat, expires: int)
    requires OfficeOk(o) && id !in o.authorities && group in o.pool.groups
    ensures OfficeOk(Authorize(o, id, group, kind, maxWindows, maxWorking, maxReserve, expires))
  {
    hide Sum, PoolOk, FundsOk, OneActive, Numbered;
    var after := Authorize(o, id, group, kind, maxWindows, maxWorking, maxReserve, expires);
    if after != o {
      SameFunds(o, after);
      forall l ensures RunOk(after, l) { assert RunOk(o, l); }
      forall l | l in o.runs ensures o.runs[l].authority != id { assert RunOk(o, l); }
      NoRuns(o.runs, CountOf(id));
      NoRuns(o.runs, CommittedOf(id, FromWorking));
      NoRuns(o.runs, CommittedOf(id, FromReserve));
      forall x ensures AuthorityKept(after, x) { assert AuthorityKept(o, x); }
      forall x ensures MandateKept(after, x) { assert MandateKept(o, x); }
      forall i, j ensures OneActive(after, i, j) { assert OneActive(o, i, j); SameActive(o, after, i, j); }
      forall l, p ensures UsageOk(after, l, p) { assert UsageOk(o, l, p); }
      forall i, j ensures Numbered(after, i, j) { assert Numbered(o, i, j); SameNumbers(o, after, i, j); }
    }
  }

  lemma SameActive(o: Office, after: Office, i: nat, j: nat)
    requires OneActive(o, i, j) && after.mandates == o.mandates
    ensures OneActive(after, i, j)
  {
  }

  lemma ConsentKeeps(o: Office, id: nat, provider: nat, route: nat, kind: Coverage, maxWindows: nat, expires: int)
    requires OfficeOk(o) && id !in o.mandates
    ensures OfficeOk(Consent(o, id, provider, route, kind, maxWindows, expires))
  {
    hide Sum, PoolOk, FundsOk, AuthorityKept, Numbered;
    var after := Consent(o, id, provider, route, kind, maxWindows, expires);
    if after != o {
      SameFunds(o, after);
      forall k | k in o.usages ensures o.usages[k] != id { assert UsageOk(o, k.0, k.1); }
      NoUses(o.usages, UsesOf(id));
      forall x ensures AuthorityKept(after, x) { assert AuthorityKept(o, x); SameCounters(o, after, x); }
      forall x ensures MandateKept(after, x) { assert MandateKept(o, x); }
      forall i, j ensures OneActive(after, i, j) { assert OneActive(o, i, j); }
      forall l, p ensures UsageOk(after, l, p) { assert UsageOk(o, l, p); }
      forall l ensures RunOk(after, l) { assert RunOk(o, l); }
      forall i, j ensures Numbered(after, i, j) { assert Numbered(o, i, j); SameNumbers(o, after, i, j); }
    }
  }

  lemma EndMandateKeeps(o: Office, id: nat, standing: Standing)
    requires OfficeOk(o) && id in o.mandates && standing != Active
    ensures OfficeOk(EndMandate(o, id, standing))
  {
    hide Sum, PoolOk, FundsOk, AuthorityKept, Numbered;
    var after := EndMandate(o, id, standing);
    SameFunds(o, after);
    forall x ensures AuthorityKept(after, x) { assert AuthorityKept(o, x); SameCounters(o, after, x); }
    forall x ensures MandateKept(after, x) { assert MandateKept(o, x); }
    forall i, j ensures OneActive(after, i, j) { assert OneActive(o, i, j); }
    forall l, p ensures UsageOk(after, l, p) { assert UsageOk(o, l, p); }
    forall l ensures RunOk(after, l) { assert RunOk(o, l); }
    forall i, j ensures Numbered(after, i, j) { assert Numbered(o, i, j); SameNumbers(o, after, i, j); }
  }

  lemma OthersKeep(o: Office, pool: Pool, books: Journal.Books, leases: map<nat, RouteLease.Lease>)
    requires OfficeOk(o) && OthersMove(o, pool, books, leases)
    ensures OfficeOk(o.(pool := pool, books := books, leases := leases))
  {
    hide Sum, PoolOk, FundsOk, AuthorityKept, Numbered, Acceptances.ProviderSet;
    var after := o.(pool := pool, books := books, leases := leases);
    SameFunds(o.(pool := pool, books := books), after);
    forall x ensures AuthorityKept(after, x) { assert AuthorityKept(o, x); SameCounters(o, after, x); }
    forall x ensures MandateKept(after, x) { assert MandateKept(o, x); }
    forall i, j ensures OneActive(after, i, j) { assert OneActive(o, i, j); }
    forall l, p ensures UsageOk(after, l, p) { assert UsageOk(o, l, p); }
    forall l ensures RunOk(after, l) { assert RunOk(o, l); if l in o.runs { assert TakenUp(o, l, o.runs[l].route); } }
    forall i, j ensures Numbered(after, i, j) { assert Numbered(o, i, j); SameNumbers(o, after, i, j); }
  }

  /** Whatever happens to an opened lease is such a move: sampling, payment, exits, and its end. */
  lemma EveryLeaseStepMoves(d: RouteLease.Deal, action: RouteLease.Action)
    requires LeaseSafety.DealOk(d) && RouteLease.Possible(d, action)
    ensures LeaseMoves(d.lease, RouteLease.Step(d, action).0.lease)
  {
    hide LeaseSafety.LeaseOk, LeaseSafety.MoneyOk, RouteLease.Foreign, RouteLease.Joint, RouteLease.AllValid, RouteLease.Earned,
         RouteLease.PaidBy, RouteLease.Valid, RouteLease.PayLines, Journal.Posting, Acceptances.ProviderSet;
    LeaseSafety.LeaseFacts(d.lease);
    LeaseSafety.StepKeeps(d, action);
    var l, r := d.lease, RouteLease.Step(d, action).0.lease;
    assert |r.members| == |l.members|;
    Acceptances.SameProviders(l.members, r.members);
  }

  /** Closing a lease returns exactly what it did not pay, to the account that funded it and to no other. */
  lemma CloseMoves(d: RouteLease.Deal, phase: RouteLease.Phase, a: Journal.Account)
    requires LeaseSafety.DealOk(d) && RouteLease.Funded(d.lease.phase) && a != Journal.Escrow(d.lease.id)
    ensures var l := d.lease; var (closed, reply) := RouteLease.Close(d, phase, l.paid);
            reply == RouteLease.Done ==>
              && closed.books.Balance(a) == d.books.Balance(a) + (if a == l.refundTo then l.budget - l.paid else 0)
              && closed.books.accounts.Keys == d.books.accounts.Keys
  {
    hide LeaseSafety.LeaseOk, Journal.BooksOk, Journal.Posting, Journal.Value;
    var l := d.lease;
    LeaseSafety.PaidInBudget(l);
    var out, back := (Journal.Escrow(l.id), -(l.budget - l.paid)), (l.refundTo, l.budget - l.paid);
    assert [out] + [back] == [out, back];
    Postings.OneLine(out.0, out.1, a);
    Postings.OneLine(back.0, back.1, a);
    Postings.ValueJoin([out], [back], a);
    Journal.PostMovesExactly(d.books, Journal.RefundKey(l.id), [out, back], a);
    LeaseRuns.FreshIsNoReplay(d.books, Journal.RefundKey(l.id), [out, back]);
  }

  /** A window and its lease close together. */
  ghost function Closing(o: Office, lease: nat, phase: RouteLease.Phase): Action
    requires lease in o.pool.windows && o.pool.windows[lease].open && lease in o.leases
  {
    var l := o.leases[lease];
    var closed := RouteLease.Close(RouteLease.Deal(l, o.books), phase, l.paid).0;
    Elsewhere(CloseWindow(o.pool, lease), closed.books, o.leases[lease := closed.lease])
  }

  /** The lease row and the window row agree on what is still to pay and on where it came from. */
  ghost predicate Closable(o: Office, lease: nat, phase: RouteLease.Phase)
  {
    && lease in o.pool.windows && o.pool.windows[lease].open && lease in o.leases
    && var w := o.pool.windows[lease]; var l := o.leases[lease];
       && LeaseSafety.DealOk(RouteLease.Deal(l, o.books)) && RouteLease.Funded(l.phase) && !RouteLease.Funded(phase)
       && l.refundTo == AccountOf(o, w.source) && l.budget - l.paid == w.budget - w.paid
  }

  lemma ClosingMoves(o: Office, lease: nat, phase: RouteLease.Phase)
    requires PoolOk(o.pool) && FundsOk(o) && Closable(o, lease, phase)
    ensures var w := o.pool.windows[lease]; var action := Closing(o, lease, phase);
            var leases := action.leases;
            && FundsOk(o.(pool := action.pool, books := action.books))
            && (forall l :: l in o.leases ==> l in leases && LeaseMoves(o.leases[l], leases[l]))
            && forall s :: action.books.Balance(AccountOf(o, s)) ==
                           o.books.Balance(AccountOf(o, s)) + (if s == w.source then w.budget - w.paid else 0)
  {
    hide PoolOk, Journal.BooksOk, RouteLease.Close, LeaseSafety.DealOk, Acceptances.ProviderSet, FundsOk, CloseWindow;
    var d := RouteLease.Deal(o.leases[lease], o.books);
    LeaseSafety.CloseKeeps(d, phase);
    var closed := RouteLease.Close(d, phase, d.lease.paid).0;
    DealBooks(closed);
    CloseMoves(d, phase, Journal.PoolWorking(o.fund));
    CloseMoves(d, phase, Journal.PoolReserve(o.fund));
    ClosedFunds(o, lease, closed.books);
  }

  /**
   Closing a funded window is such a move: the account it was funded from gets back exactly the unpaid budget, the
   other account nothing, and no authority or mandate gets anything back.
   */
  lemma RefundIsElsewhere(o: Office, lease: nat, phase: RouteLease.Phase)
    requires OfficeOk(o) && Closable(o, lease, phase)
    ensures Possible(o, Closing(o, lease, phase))
    ensures var w := o.pool.windows[lease]; var after := Next(o, Closing(o, lease, phase));
            var other := if w.source == FromWorking then FromReserve else FromWorking;
            && after.books.Balance(AccountOf(o, w.source)) == o.books.Balance(AccountOf(o, w.source)) + (w.budget - w.paid)
            && after.books.Balance(AccountOf(o, other)) == o.books.Balance(AccountOf(o, other))
            && after.pool == CloseWindow(o.pool, lease)
            && after.authorities == o.authorities && after.mandates == o.mandates
  {
    hide OfficeOk, PoolOk, RouteLease.Close, LeaseSafety.DealOk, FundsOk, LeaseMoves;
    OfficePool(o);
    CloseWindowKeeps(o.pool, lease);
    ClosingMoves(o, lease, phase);
  }

  lemma ClosedFunds(o: Office, lease: nat, books: Journal.Books)
    requires FundsOk(o) && lease in o.pool.windows && o.pool.windows[lease].open && Journal.BooksOk(books)
    requires books.accounts.Keys == o.books.accounts.Keys
    requires var w := o.pool.windows[lease];
             forall s :: books.Balance(AccountOf(o, s)) == o.books.Balance(AccountOf(o, s)) + (if s == w.source then w.budget - w.paid else 0)
    ensures FundsOk(o.(pool := CloseWindow(o.pool, lease), books := books))
  {
    hide Journal.BooksOk;
    assert AccountOf(o, FromWorking) == Journal.PoolWorking(o.fund) && AccountOf(o, FromReserve) == Journal.PoolReserve(o.fund);
  }

  lemma NextKeeps(o: Office, action: Action)
    requires OfficeOk(o) && Possible(o, action)
    ensures OfficeOk(Next(o, action))
  {
    hide OfficeOk, Attempting, Authorize, Consent, EndMandate, WithStanding, OthersMove, Complete, OpenedNow, NewLease;
    match action
    case DoAttempt(id, lease, env) => AttemptIsAllOrNothing(o, id, lease, env);
    case DoAuthorize(id, group, kind, maxWindows, maxWorking, maxReserve, expires) =>
      AuthorizeKeeps(o, id, group, kind, maxWindows, maxWorking, maxReserve, expires);
    case DoConsent(id, provider, route, kind, maxWindows, expires) => ConsentKeeps(o, id, provider, route, kind, maxWindows, expires);
    case DoRevoke(id) => StandingKeeps(o, id, Revoked);
    case DoEndMandate(id, standing) => EndMandateKeeps(o, id, standing);
    case Elsewhere(pool, books, leases) => OthersKeep(o, pool, books, leases);
  }

  ghost predicate Leads(o: Office, actions: seq<Action>, e: Office)
    decreases |actions|
  {
    if actions == [] then e == o else Possible(o, actions[0]) && Leads(Next(o, actions[0]), actions[1..], e)
  }

  lemma {:induction false} LeadsKeeps(o: Office, actions: seq<Action>, e: Office)
    requires OfficeOk(o) && Leads(o, actions, e)
    ensures OfficeOk(e)
    decreases |actions|
  {
    hide OfficeOk, Possible, Next;
    if actions != [] {
      NextKeeps(o, actions[0]);
      LeadsKeeps(Next(o, actions[0]), actions[1..], e);
    }
  }

  /** A new office: an empty fund with its routes, whose providers have accounts, and nothing authorized yet. */
  lemma OfficeStarts(
    fund: nat, creator: nat, groups: map<string, Group>, routes: map<nat, Path>, accounts: map<Journal.Account, Journal.Row>)
    requires forall k :: k in groups ==> GroupOk(groups[k])
    requires forall a :: a in accounts ==> accounts[a].balance == 0
    requires Journal.PoolWorking(fund) in accounts && Journal.PoolReserve(fund) in accounts
    requires forall r, h :: r in routes && h in routes[r].hops ==> Journal.Available(h.provider) in accounts
    ensures OfficeOk(Office(fund, creator, Pool(groups, 0, 0, 0, map[], map[]), Journal.Books(accounts, map[]), map[], routes,
                            map[], map[], map[], map[]))
  {
    hide Sum, Journal.BooksOk;
    Journal.EmptyBooks(accounts);
    MapSums.Nothing<nat, Settlement>(BurnedIn);
  }

  /**
   Main result: over every run, an authority's gross commitments per source and its number of windows are exactly what
   its recorded windows add up to, and never exceed its limits, whatever was refunded, revoked or granted in between.
   */
  lemma {:induction false} LimitsAlwaysHold(o: Office, actions: seq<Action>, e: Office, id: nat)
    requires OfficeOk(o) && Leads(o, actions, e) && id in e.authorities
    ensures var a := e.authorities[id];
            && 0 <= a.used == Sum(e.runs, CountOf(id)) <= a.maxWindows
            && 0 <= a.working == Sum(e.runs, CommittedOf(id, FromWorking)) <= a.maxWorking
            && 0 <= a.reserve == Sum(e.runs, CommittedOf(id, FromReserve)) <= a.maxReserve
  {
    hide PoolOk, MandateKept, OneActive, UsageOk, RunOk, Numbered, Sum, Leads;
    LeadsKeeps(o, actions, e);
    assert AuthorityKept(e, id);
  }

  /** Every window renewed in any run was opened, accepted by exactly the providers of its route, and stays covered by one mandate of each. */
  lemma {:induction false} RenewedWindowsAreCovered(o: Office, actions: seq<Action>, e: Office, lease: nat)
    requires OfficeOk(o) && Leads(o, actions, e) && lease in e.runs
    ensures Providers(e, e.runs[lease].route) != {} && Complete(e, lease, e.runs[lease].route)
    ensures TakenUp(e, lease, e.runs[lease].route)
    ensures forall p: nat :: (lease, p) in e.usages ==> p in Providers(e, e.runs[lease].route)
  {
    hide PoolOk, AuthorityKept, MandateKept, OneActive, Numbered, Sum, Leads;
    LeadsKeeps(o, actions, e);
    assert RunOk(e, lease);
    OfficeMandated(e);
    CompleteNow(e, lease, e.runs[lease].route);
    forall p: nat | (lease, p) in e.usages ensures p in Providers(e, e.runs[lease].route) { assert UsageOk(e, lease, p); }
  }

  lemma OfficeMandated(o: Office)
    requires OfficeOk(o)
    ensures Mandated(o)
  {
    hide PoolOk, AuthorityKept, MandateKept, OneActive, UsageOk, RunOk, Numbered;
  }
}
