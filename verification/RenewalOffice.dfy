/** The renewal attempt itself: one transaction that searches, funds, records and consumes, or gives up. */
module RenewalOffice {
  import opened MapSums
  import opened Selection
  import opened Cooperative
  import opened Renewals
  import Acceptances
  import Journal
  import LeaseRow
  import RouteLease

  class RenewalOffice {
    var o: Office

    constructor (o: Office)
      ensures this.o == o
    {
      this.o := o;
    }

    /** The search over candidate routes, with the mandates that cover the chosen one. */
    static method FindRoute(o: Office, candidates: seq<nat>, kind: Coverage, until: int) returns (pick: Pick, mandates: set<nat>)
      ensures pick == Choosing(o, candidates, kind, until)
      ensures pick.Picked? ==> mandates == Covering(o, pick.route, kind, until)
    {
      hide Covering, Providers;
      pick, mandates := Nobody, {};
      var i := 0;
      assert candidates[0..] == candidates;
      while i < |candidates|
        invariant 0 <= i <= |candidates| && Choosing(o, candidates, kind, until) == Choosing(o, candidates[i..], kind, until)
      {
        assert candidates[i..][1..] == candidates[i + 1..] && candidates[i..][0] == candidates[i];
        var providers := Providers(o, candidates[i]);
        var ms := Covering(o, candidates[i], kind, until);
        if |ms| == |providers| {
          return Picked(candidates[i]), ms;
        }
        i := i + 1;
      }
      assert candidates[i..] == [];
    }

    /** One usage row for every mandate, in the order of their identifiers. */
    static method UseMandates(o: Office, lease: nat, mandates: set<nat>) returns (after: Office)
      requires forall m :: m in mandates ==> m in o.mandates
      ensures (forall m :: m in Ascending(mandates) ==> m in o.mandates) && after == UseAll(o, lease, Ascending(mandates))
    {
      hide UseOne;
      after := o;
      var left := mandates;
      while left != {}
        invariant left <= mandates && (forall m :: m in left ==> m in after.mandates)
        invariant forall m :: m in Ascending(left) ==> m in after.mandates
        invariant forall m :: m in Ascending(mandates) ==> m in o.mandates
        invariant UseAll(after, lease, Ascending(left)) == UseAll(o, lease, Ascending(mandates))
        decreases |left|
      {
        var m := Smallest(left);
        assert Ascending(left) == [m] + Ascending(left - {m});
        assert Ascending(left)[1..] == Ascending(left - {m});
        SameKeys(after, lease, m);
        after := UseOne(after, lease, m);
        left := left - {m};
      }
    }

    static lemma SameKeys(o: Office, lease: nat, m: nat)
      requires m in o.mandates
      ensures UseOne(o, lease, m).mandates.Keys == o.mandates.Keys
    {
    }

    /** Each mandate's provider accepts in turn; the first refusal ends the loop. */
    static method AcceptForAll(row: LeaseRow.Row, users: seq<nat>, looks: nat -> Acceptances.Look, supportUntil: int)
      returns (reply: RouteLease.Reply)
      modifies row
      ensures reply == Acceptances.AcceptAll(old(row.View()), users, looks, 0, supportUntil).1
      ensures reply == RouteLease.Done ==> row.View() == Acceptances.AcceptAll(old(row.View()), users, looks, 0, supportUntil).0
    {
      hide RouteLease.Accept, Acceptances.SightOf;
      var i := 0;
      assert users[0..] == users;
      while i < |users|
        invariant 0 <= i <= |users|
        invariant Acceptances.AcceptAll(row.View(), users[i..], looks, i, supportUntil)
               == Acceptances.AcceptAll(old(row.View()), users, looks, 0, supportUntil)
      {
        assert users[i..][0] == users[i] && users[i..][1..] == users[i + 1..];
        ghost var before := row.View();
        var look := looks(i);
        reply := row.Accept(users[i], true, look.checked, look.free, look.now, look.now + row.lease.Span() <= supportUntil,
                            Acceptances.SightOf(look, |row.lease.members|));
        assert (row.View(), reply) == Acceptances.AcceptOne(before, users[i], look, supportUntil);
        if RouteLease.Refusal(reply) {
          return;
        }
        i := i + 1;
      }
      assert users[i..] == [];
      reply := RouteLease.Done;
    }

    static lemma NobodyToAsk(o: Office)
      ensures UsersOf(o, Ascending({})) == []
    {
    }

    static lemma UsersStep(o: Office, left: set<nat>, m: nat)
      requires (forall x :: x in left ==> x in o.mandates) && left != {} && m == Least(left)
      ensures UsersOf(o, Ascending(left)) == [o.mandates[m].provider] + UsersOf(o, Ascending(left - {m}))
    {
      assert Ascending(left) == [m] + Ascending(left - {m});
    }

    /** The providers of the mandates, in the order of the mandates' identifiers. */
    static method Users(o: Office, mandates: set<nat>) returns (users: seq<nat>)
      requires forall m :: m in mandates ==> m in o.mandates
      ensures users == UsersOf(o, Ascending(mandates))
    {
      hide UsersOf, Ascending;
      users := [];
      NobodyToAsk(o);
      var left := mandates;
      while left != {}
        invariant left <= mandates && users + UsersOf(o, Ascending(left)) == UsersOf(o, Ascending(mandates))
        decreases |left|
      {
        var m := Smallest(left);
        UsersStep(o, left, m);
        users := users + [o.mandates[m].provider];
        left := left - {m};
      }
    }

    /** Every check before anything is written, with the mandates of the route found. */
    static method CheckAll(o: Office, a: Authority, env: Env) returns (check: Check, mandates: set<nat>)
      ensures check == Checked(o, a, env)
      ensures check.Pass? ==> a.group in o.pool.groups && mandates == Covering(o, check.route, a.kind, Until(o, a, env))
    {
      hide Covering, Choosing, Occupied;
      mandates := {};
      if a.standing != Active {
        return Stop(Status.Standing(a.standing)), {};
      }
      if a.expires <= env.now {
        return Lapse(Expired), {};
      }
      if env.paused {
        return Stop(Paused), {};
      }
      if env.disabled {
        return Stop(AuthorizerDisabled), {};
      }
      if !env.policyMatches || a.group !in o.pool.groups {
        return Stop(Aborted("pool_terms")), {};
      }
      var until := Until(o, a, env);
      var cost := o.pool.groups[a.group].Cost();
      if until >= a.expires || until >= env.supportUntil {
        return Stop(WaitingForSupport), {};
      }
      if Occupied(o.pool, a.group, a.kind) {
        return Stop(WaitingForWindow), {};
      }
      if a.used >= a.maxWindows || (a.Limit(FromWorking) < cost && a.Limit(FromReserve) < cost) {
        return Lapse(Exhausted), {};
      }
      if a.kind == Expansion && !env.demandBacked {
        return Stop(WaitingForDemand), {};
      }
      var choice := ChooseSource(o.pool, a, cost);
      if choice.NoSource? {
        return Stop(if o.pool.working >= cost || o.pool.reserve >= cost then WaitingForAuthorizedSource else WaitingForFunds), {};
      }
      if env.candidates == [] {
        return Stop(WaitingForCapacity), {};
      }
      var pick;
      pick, mandates := FindRoute(o, env.candidates, a.kind, until);
      check := if pick.Nobody? then Stop(WaitingForOperators) else Pass(choice.source, pick.route);
    }

    /** `fund` and `ledger` are the fund and the journal the office belongs to; an error leaves all as they were. */
    method Attempt(id: nat, lease: nat, env: Env, fund: CooperativeFund, ledger: Journal.Ledger) returns (status: Status)
      requires fund.View() == o.pool && ledger.View() == o.books && lease !in o.pool.windows
      modifies this, fund, ledger
      ensures o == Renewals.Attempting(old(o), id, lease, env).0 && status == Renewals.Attempting(old(o), id, lease, env).1
      ensures ledger.View() == o.books && fund.View() == if status.Done? then o.pool else old(fund.View())
    {
      hide Checked, Renew, Covering, Until;
      if id !in o.authorities {
        return Missing;
      }
      var a := o.authorities[id];
      var check, mandates := CheckAll(o, a, env);
      match check
      case Stop(why) =>
        NeverDone(o, a, env);
        status := why;
      case Lapse(standing) =>
        o := WithStanding(o, id, standing);
        status := Status.Standing(standing);
      case Pass(source, route) =>
        status := Open(id, lease, source, route, Until(o, a, env), mandates, env, fund, ledger);
    }

    static lemma NeverDone(o: Office, a: Authority, env: Env)
      ensures Checked(o, a, env).Stop? ==> !Checked(o, a, env).status.Done?
    {
      hide Choosing, Occupied;
    }

    /** An aborted transaction leaves the fund's rows and the books as they were. */
    static method Rollback(fund: CooperativeFund, ledger: Journal.Ledger, saved: Pool, books: Journal.Books)
      modifies fund, ledger
      ensures fund.View() == saved && ledger.View() == books
    {
      fund.groups, fund.working, fund.reserve, fund.burned := saved.groups, saved.working, saved.reserve, saved.burned;
      fund.windows, fund.settlements := saved.windows, saved.settlements;
      ledger.accounts, ledger.journal := books.accounts, books.journal;
    }

    /** The window's row in the fund and its lease offer, or nothing. */
    static method OfferWindow(
      o: Office, a: Authority, lease: nat, source: Source, route: nat, env: Env, fund: CooperativeFund, ledger: Journal.Ledger)
      returns (ok: bool, row: RouteLease.Lease)
      requires fund.View() == o.pool && ledger.View() == o.books && lease !in o.pool.windows && a.group in o.pool.groups
      modifies fund, ledger
      ensures var offer := OfferOf(o, lease, o.pool.groups[a.group], source, route, env);
              var (pool, reply) := Offering(o.pool, lease, a.group, source, a.kind, env.supported, env.routeReady, env.normal, offer.Made?);
              && (ok <==> reply == Reply.Done && offer.Made?)
              && (ok ==> fund.View() == pool && offer == RouteLease.Made(RouteLease.Deal(row, ledger.View())))
    {
      hide Offering, RouteLease.MakeOffer, PathOf, AccountOf;
      var g := o.pool.groups[a.group];
      var path := PathOf(o, route);
      var made;
      made, row := LeaseRow.Offer(ledger, lease, o.creator, AccountOf(o, source), g.duration, g.rate, env.offerExpires,
                                  env.openContracts, env.routeReady, path.Providers(), path.Domains(), path.Shares());
      var reply := fund.Offer(lease, a.group, source, a.kind, env.supported, env.routeReady, env.normal, made);
      ok := reply == Reply.Done && made;
    }

    /** The acceptances of everyone mandated, on the lease's own row. */
    static method TakeUp(o: Office, row: RouteLease.Lease, mandates: set<nat>, env: Env, ledger: Journal.Ledger)
      returns (deal: RouteLease.Deal, accepted: RouteLease.Reply)
      requires forall m :: m in mandates ==> m in o.mandates
      ensures var (d, reply) := Acceptances.AcceptAll(RouteLease.Deal(row, ledger.View()), UsersOf(o, Ascending(mandates)),
                                                      env.looks, 0, env.supportUntil);
              accepted == reply && (reply == RouteLease.Done ==> deal == d) && deal.books == ledger.View()
    {
      hide Acceptances.AcceptAll, UsersOf;
      var contract := new LeaseRow.Row(row, ledger);
      var users := Users(o, mandates);
      accepted := AcceptForAll(contract, users, env.looks, env.supportUntil);
      deal := contract.View();
    }

    method Open(
      id: nat, lease: nat, source: Source, route: nat, until: int, mandates: set<nat>, env: Env, fund: CooperativeFund,
      ledger: Journal.Ledger) returns (status: Status)
      requires fund.View() == o.pool && ledger.View() == o.books && lease !in o.pool.windows
      requires id in o.authorities && o.authorities[id].group in o.pool.groups
      requires mandates == Covering(o, route, o.authorities[id].kind, until)
      modifies this, fund, ledger
      ensures o == Renew(old(o), id, lease, source, route, until, env).0 && status == Renew(old(o), id, lease, source, route, until, env).1
      ensures ledger.View() == o.books && fund.View() == if status.Done? then o.pool else old(fund.View())
    {
      hide Offering, UseAll, Consume, OfferOf, Taking, Verdict, Covering, Recorded, Ascending;
      var saved, books := fund.View(), ledger.View();
      var a := o.authorities[id];
      assert forall m :: m in mandates ==> m in o.mandates by { CoveringAreMandates(o, route, a.kind, until); }
      var ok, row := OfferWindow(o, a, lease, source, route, env, fund, ledger);
      status := Aborted("offer");
      if ok {
        var deal, accepted := TakeUp(o, row, mandates, env, ledger);
        TakenAs(o, a, lease, source, route, mandates, env, row, ledger.View());
        status := Verdict(o, a, mandates, deal, accepted, env.recorded, source, route);
        VerdictOnDone(o, a, mandates, deal, Taking(o, lease, o.pool.groups[a.group], source, route, mandates, env).0, accepted,
                      env.recorded, source, route);
        if status.Done? {
          var recorded := Recorded(o, id, lease, source, route, fund.View(), deal);
          RecordedIs(o, id, lease, source, route, fund.View(), deal);
          o := UseMandates(recorded, lease, mandates);
          PoolStays(recorded, lease, Ascending(mandates));
          return;
        }
      }
      Rollback(fund, ledger, saved, books);
    }

    static lemma RecordedIs(o: Office, id: nat, lease: nat, source: Source, route: nat, pool: Pool, deal: RouteLease.Deal)
      requires id in o.authorities && o.authorities[id].group in o.pool.groups
      ensures var r := Recorded(o, id, lease, source, route, pool, deal);
              r.mandates == o.mandates && r.pool == pool && r.books == deal.books
    {
      hide Consume;
    }

    static lemma CoveringAreMandates(o: Office, route: nat, kind: Coverage, until: int)
      ensures forall m :: m in Covering(o, route, kind, until) ==> m in o.mandates
    {
    }

    static lemma TakenAs(
      o: Office, a: Authority, lease: nat, source: Source, route: nat, mandates: set<nat>, env: Env, row: RouteLease.Lease,
      books: Journal.Books)
      requires a.group in o.pool.groups && forall m :: m in mandates ==> m in o.mandates
      requires OfferOf(o, lease, o.pool.groups[a.group], source, route, env) == RouteLease.Made(RouteLease.Deal(row, books))
      ensures Taking(o, lease, o.pool.groups[a.group], source, route, mandates, env)
           == Acceptances.AcceptAll(RouteLease.Deal(row, books), UsersOf(o, Ascending(mandates)), env.looks, 0, env.supportUntil)
    {
      hide OfferOf, Acceptances.AcceptAll, UsersOf;
    }

    /** After a refusal the lease no longer matters. */
    static lemma VerdictOnDone(
      o: Office, a: Authority, mandates: set<nat>, d: RouteLease.Deal, e: RouteLease.Deal, accepted: RouteLease.Reply,
      recorded: int, source: Source, route: nat)
      requires (forall m :: m in mandates ==> m in o.mandates) && (accepted == RouteLease.Done ==> d == e)
      ensures Verdict(o, a, mandates, d, accepted, recorded, source, route) == Verdict(o, a, mandates, e, accepted, recorded, source, route)
      ensures Verdict(o, a, mandates, d, accepted, recorded, source, route).Done? ==> accepted == RouteLease.Done
    {
    }

    static lemma {:induction false} PoolStays(o: Office, lease: nat, ids: seq<nat>)
      requires forall m :: m in ids ==> m in o.mandates
      ensures UseAll(o, lease, ids).pool == o.pool && UseAll(o, lease, ids).books == o.books
      decreases |ids|
    {
      if ids != [] {
        PoolStays(UseOne(o, lease, ids[0]), lease, ids[1..]);
      }
    }
  }
}
