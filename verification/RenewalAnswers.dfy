/** What every renewal attempt answers, and exactly when it opens a window: from which source, on which route. */
module RenewalAnswers {
  import opened MapSums
  import opened Selection
  import opened Cooperative
  import opened Renewals
  import opened RenewalSafety
  import FundTargets
  import LeaseCredits
  import Acceptances
  import Contracts
  import Journal
  import LeaseRuns
  import LeaseSafety
  import RouteLease

  // ---------------------------------------------------------------------------------------------
  // The checks, one by one

  /** The authority can act at all. */
  predicate Authorised(o: Office, a: Authority, env: Env)
  {
    a.standing == Active && env.now < a.expires && !env.paused && !env.disabled && env.policyMatches && a.group in o.pool.groups
  }

  function CostOf(o: Office, a: Authority): int
    requires a.group in o.pool.groups
  {
    o.pool.groups[a.group].rate * o.pool.groups[a.group].duration
  }

  /** The window's own length and ten seconds more. */
  function Horizon(o: Office, a: Authority, env: Env): int
    requires a.group in o.pool.groups
  {
    env.now + 1000 * o.pool.groups[a.group].duration + 10000
  }

  predicate Timely(o: Office, a: Authority, env: Env)
    requires a.group in o.pool.groups
  {
    Horizon(o, a, env) < a.expires && Horizon(o, a, env) < env.supportUntil
  }

  predicate AlreadyOpen(o: Office, a: Authority)
  {
    exists w :: w in o.pool.windows && o.pool.windows[w].open && o.pool.windows[w].group == a.group && o.pool.windows[w].kind == a.kind
  }

  predicate CanPayAgain(o: Office, a: Authority)
    requires a.group in o.pool.groups
  {
    a.used < a.maxWindows && (CostOf(o, a) <= a.maxWorking - a.working || CostOf(o, a) <= a.maxReserve - a.reserve)
  }

  predicate Demanded(a: Authority, env: Env) { a.kind == Expansion ==> env.demandBacked }

  /** Every check before the money has passed. */
  predicate Reached(o: Office, a: Authority, env: Env)
  {
    Authorised(o, a, env) && Timely(o, a, env) && !AlreadyOpen(o, a) && CanPayAgain(o, a) && Demanded(a, env)
  }

  predicate ByWorking(o: Office, a: Authority)
    requires a.group in o.pool.groups
  {
    CostOf(o, a) <= o.pool.working && CostOf(o, a) <= a.maxWorking - a.working
  }

  predicate ByReserve(o: Office, a: Authority)
    requires a.group in o.pool.groups
  {
    o.pool.working < CostOf(o, a) <= o.pool.reserve && CostOf(o, a) <= a.maxReserve - a.reserve
  }

  /** A mandate that lets its provider's part of this route be taken up, beyond the horizon. */
  predicate Lets(m: Mandate, route: nat, kind: Coverage, provider: nat, horizon: int)
  {
    && m.provider == provider && m.route == route && m.kind == kind && m.standing == Active
    && m.used < m.maxWindows && horizon < m.expires
  }

  function HopsOf(o: Office, route: nat): seq<Hop> { if route in o.routes then o.routes[route].hops else [] }

  predicate LetBy(o: Office, route: nat, kind: Coverage, provider: nat, horizon: int)
  {
    exists m :: m in o.mandates && Lets(o.mandates[m], route, kind, provider, horizon)
  }

  /** Every node of the route has a provider who let it. */
  predicate AllLet(o: Office, route: nat, kind: Coverage, horizon: int)
  {
    forall i :: 0 <= i < |HopsOf(o, route)| ==> LetBy(o, route, kind, HopsOf(o, route)[i].provider, horizon)
  }

  // ---------------------------------------------------------------------------------------------
  // Counting mandates is finding one for each provider

  lemma InCovering(o: Office, route: nat, kind: Coverage, until: int, m: nat)
    ensures m in Covering(o, route, kind, until) <==>
            && m in o.mandates && o.mandates[m].provider in Providers(o, route)
            && Lets(o.mandates[m], route, kind, o.mandates[m].provider, until)
  {
    hide Providers;
  }

  lemma InProviders(o: Office, route: nat, p: nat)
    ensures p in Providers(o, route) <==> exists i :: 0 <= i < |HopsOf(o, route)| && HopsOf(o, route)[i].provider == p
  {
    var hops := HopsOf(o, route);
    assert hops == PathOf(o, route).hops;
    if p in Providers(o, route) {
      var h :| h in hops && h.provider == p;
      var i :| 0 <= i < |hops| && hops[i] == h;
      assert hops[i].provider == p;
    }
    forall i | 0 <= i < |hops| && hops[i].provider == p ensures p in Providers(o, route) { assert hops[i] in hops; }
  }

  lemma CountedIsLet(o: Office, route: nat, kind: Coverage, until: int)
    requires OfficeOk(o) && |Covering(o, route, kind, until)| == |Providers(o, route)|
    ensures AllLet(o, route, kind, until)
  {
    hide OfficeOk, Covering, Providers, Lets;
    OneForEach(o, route, kind, until);
    var hops := HopsOf(o, route);
    forall i | 0 <= i < |hops| ensures LetBy(o, route, kind, HopsOf(o, route)[i].provider, until) {
      InProviders(o, route, hops[i].provider);
      var m :| m in Covering(o, route, kind, until) && m in o.mandates && o.mandates[m].provider == hops[i].provider;
      InCovering(o, route, kind, until, m);
      assert Lets(o.mandates[m], route, kind, hops[i].provider, until);
    }
  }

  lemma LetIsCounted(o: Office, route: nat, kind: Coverage, until: int)
    requires OfficeOk(o) && AllLet(o, route, kind, until)
    ensures |Covering(o, route, kind, until)| == |Providers(o, route)|
  {
    hide OfficeOk, Covering, Providers, Lets;
    var ms, hops := Covering(o, route, kind, until), HopsOf(o, route);
    forall m | m in ms ensures m in o.mandates { InCovering(o, route, kind, until, m); }
    forall i, j | i in ms && j in ms && ProviderOf(o, i) == ProviderOf(o, j) ensures i == j {
      InCovering(o, route, kind, until, i);
      InCovering(o, route, kind, until, j);
      LetsIs(o.mandates[i], route, kind, o.mandates[i].provider, until);
      LetsIs(o.mandates[j], route, kind, o.mandates[j].provider, until);
      NoTwo(o, i, j);
    }
    var image := ImageSize(o, ms);
    forall p ensures p in image <==> p in Providers(o, route) {
      if p in image {
        var m :| m in ms && o.mandates[m].provider == p;
        InCovering(o, route, kind, until, m);
      }
      if p in Providers(o, route) {
        InProviders(o, route, p);
        var i :| 0 <= i < |hops| && hops[i].provider == p;
        assert LetBy(o, route, kind, HopsOf(o, route)[i].provider, until);
        var m :| m in o.mandates && Lets(o.mandates[m], route, kind, hops[i].provider, until);
        LetsIs(o.mandates[m], route, kind, p, until);
        InCovering(o, route, kind, until, m);
      }
    }
    assert image == Providers(o, route);
  }

  /** As many mandates as distinct providers is the same as one for every node of the route. */
  lemma CountingIsFinding(o: Office, route: nat, kind: Coverage, until: int)
    requires OfficeOk(o)
    ensures |Covering(o, route, kind, until)| == |Providers(o, route)| <==> AllLet(o, route, kind, until)
  {
    hide OfficeOk, Covering, Providers, AllLet;
    if |Covering(o, route, kind, until)| == |Providers(o, route)| { CountedIsLet(o, route, kind, until); }
    if AllLet(o, route, kind, until) { LetIsCounted(o, route, kind, until); }
  }

  lemma LetsIs(m: Mandate, route: nat, kind: Coverage, provider: nat, until: int)
    requires Lets(m, route, kind, provider, until)
    ensures m.provider == provider && m.route == route && m.kind == kind && m.standing == Active
  {
  }

  lemma NoTwo(o: Office, i: nat, j: nat)
    requires OfficeOk(o) && i in o.mandates && j in o.mandates && o.mandates[i].provider == o.mandates[j].provider
    requires o.mandates[i].standing == Active && o.mandates[j].standing == Active
    requires o.mandates[i].route == o.mandates[j].route && o.mandates[i].kind == o.mandates[j].kind
    ensures i == j
  {
    hide PoolOk, FundsOk, AuthorityKept, MandateKept, UsageOk, RunOk, Numbered;
    assert OneActive(o, i, j);
  }

  /** The first candidate all of whose providers let it. */
  predicate FirstLet(o: Office, candidates: seq<nat>, kind: Coverage, horizon: int, k: nat)
  {
    && k < |candidates| && AllLet(o, candidates[k], kind, horizon)
    && forall i :: 0 <= i < k ==> !AllLet(o, candidates[i], kind, horizon)
  }

  lemma {:induction false} ChoosingIsFirst(o: Office, candidates: seq<nat>, kind: Coverage, until: int)
    requires OfficeOk(o)
    ensures match Choosing(o, candidates, kind, until)
            case Nobody => forall i :: 0 <= i < |candidates| ==> !AllLet(o, candidates[i], kind, until)
            case Picked(route) => exists k: nat :: FirstLet(o, candidates, kind, until, k) && candidates[k] == route
  {
    hide OfficeOk, AllLet, Covering, Providers;
    if candidates != [] {
      CountingIsFinding(o, candidates[0], kind, until);
      var rest := candidates[1..];
      if AllLet(o, candidates[0], kind, until) {
        assert FirstLet(o, candidates, kind, until, 0);
      } else {
        ChoosingIsFirst(o, rest, kind, until);
        if Choosing(o, rest, kind, until).Picked? {
          var k: nat :| FirstLet(o, rest, kind, until, k) && rest[k] == Choosing(o, rest, kind, until).route;
          forall i | 0 <= i < k + 1 ensures !AllLet(o, candidates[i], kind, until) {
            if i > 0 { assert candidates[i] == rest[i - 1]; }
          }
          assert FirstLet(o, candidates, kind, until, k + 1);
        } else {
          forall i | 0 <= i < |candidates| ensures !AllLet(o, candidates[i], kind, until) {
            if i > 0 { assert candidates[i] == rest[i - 1]; }
          }
        }
      }
    }
  }

  // ---------------------------------------------------------------------------------------------
  // What the checks answer

  /** Where the checks stop, if they do. */
  ghost predicate StopsAs(o: Office, a: Authority, env: Env, check: Check)
  {
    if a.standing != Active then check == Stop(Standing(a.standing))
    else if a.expires <= env.now then check == Lapse(Expired)
    else if env.paused then check == Stop(Paused)
    else if env.disabled then check == Stop(AuthorizerDisabled)
    else if !Authorised(o, a, env) then check == Stop(Aborted("pool_terms"))
    else if !Timely(o, a, env) then check == Stop(WaitingForSupport)
    else if AlreadyOpen(o, a) then check == Stop(WaitingForWindow)
    else if !CanPayAgain(o, a) then check == Lapse(Exhausted)
    else if !Demanded(a, env) then check == Stop(WaitingForDemand)
    else if o.pool.working < CostOf(o, a) && o.pool.reserve < CostOf(o, a) then check == Stop(WaitingForFunds)
    else if !ByWorking(o, a) && !ByReserve(o, a) then check == Stop(WaitingForAuthorizedSource)
    else if env.candidates == [] then check == Stop(WaitingForCapacity)
    else if forall i :: 0 <= i < |env.candidates| ==> !AllLet(o, env.candidates[i], a.kind, Horizon(o, a, env))
      then check == Stop(WaitingForOperators)
    else
      && check.Pass? && (check.source == FromWorking <==> ByWorking(o, a)) && (check.source == FromReserve <==> ByReserve(o, a))
      && exists k: nat :: FirstLet(o, env.candidates, a.kind, Horizon(o, a, env), k) && env.candidates[k] == check.route
  }

  lemma CheckedIs(o: Office, a: Authority, env: Env)
    requires OfficeOk(o)
    ensures StopsAs(o, a, env, Checked(o, a, env))
  {
    hide OfficeOk, AllLet, Covering, Choosing, FirstLet;
    if a.group in o.pool.groups {
      ChoosingIsFirst(o, env.candidates, a.kind, Horizon(o, a, env));
      assert Until(o, a, env) == Horizon(o, a, env);
      if exists j: nat :: FirstLet(o, env.candidates, a.kind, Horizon(o, a, env), j) {
        var k: nat :| FirstLet(o, env.candidates, a.kind, Horizon(o, a, env), k);
        FirstIsLet(o, env.candidates, a.kind, Horizon(o, a, env), k);
      }
    }
  }

  lemma FirstIsLet(o: Office, candidates: seq<nat>, kind: Coverage, horizon: int, k: nat)
    requires FirstLet(o, candidates, kind, horizon, k)
    ensures k < |candidates| && AllLet(o, candidates[k], kind, horizon)
  {
  }

  // ---------------------------------------------------------------------------------------------
  // When the window opens

  function SharesOf(o: Office, route: nat): (r: seq<int>)
    ensures |r| == |HopsOf(o, route)|
  {
    seq(|HopsOf(o, route)|, i requires 0 <= i < |HopsOf(o, route)| => HopsOf(o, route)[i].share)
  }

  /** The route's shares divide the cost into positive amounts. */
  predicate Divisible(cost: int, shares: seq<int>)
  {
    && 1 <= |shares| <= 16 && (forall i :: 0 <= i < |shares| ==> 1 <= shares[i] <= 10000)
    && LeaseCredits.Prefix(shares, |shares|) == 10000 && forall i :: 0 <= i < |shares| ==> 0 < LeaseCredits.Most(cost, shares, i)
  }

  /** The fund and the route let the window be offered. */
  ghost predicate Offered(o: Office, a: Authority, source: Source, route: nat, env: Env)
    requires a.group in o.pool.groups
  {
    && env.supported && env.routeReady && env.openContracts < 4 && CostOf(o, a) <= 9223372036854775807
    && Divisible(CostOf(o, a), SharesOf(o, route))
    && (a.kind == Expansion ==> FundTargets.Liquid(o.pool, CostOf(o, a), source, env.normal))
  }

  /** How many providers have to accept. */
  function Parties(o: Office, route: nat): nat { |set i | 0 <= i < |HopsOf(o, route)| :: HopsOf(o, route)[i].provider| }

  /** None of them finds the offer expired, and the last finds all free, ready and supported to the window's end. */
  predicate Accepted(o: Office, a: Authority, route: nat, env: Env)
    requires a.group in o.pool.groups && 1 <= Parties(o, route)
  {
    var last := env.looks(Parties(o, route) - 1);
    && (forall j: nat :: j < Parties(o, route) ==> env.looks(j).checked < env.offerExpires)
    && last.free && last.intact && 2 <= |HopsOf(o, route)| && (forall i: nat :: i < |HopsOf(o, route)| ==> last.up(i))
    && last.now + 1000 * o.pool.groups[a.group].duration <= env.supportUntil
  }

  /** The authority and every mandate it uses are still in force, and last until the window's end. */
  predicate Outlasted(o: Office, a: Authority, route: nat, env: Env)
    requires a.group in o.pool.groups && 1 <= Parties(o, route)
  {
    var ends := env.looks(Parties(o, route) - 1).now + 1000 * o.pool.groups[a.group].duration;
    && env.recorded < a.expires && ends <= a.expires
    && forall m, i :: m in o.mandates && 0 <= i < |HopsOf(o, route)|
                      && Lets(o.mandates[m], route, a.kind, HopsOf(o, route)[i].provider, Horizon(o, a, env)) ==>
                        env.recorded < o.mandates[m].expires && ends <= o.mandates[m].expires
  }

  lemma PartiesAre(o: Office, route: nat)
    ensures Parties(o, route) == |Providers(o, route)|
    ensures HopsOf(o, route) != [] <==> 1 <= Parties(o, route)
  {
    hide Providers;
    var hops := HopsOf(o, route);
    var ps := set i | 0 <= i < |hops| :: hops[i].provider;
    forall p ensures p in ps <==> p in Providers(o, route) { InProviders(o, route, p); }
    assert ps == Providers(o, route);
    if hops != [] {
      assert hops[0].provider in ps;
    } else {
      assert ps == {};
    }
  }

  lemma OfferMade(o: Office, lease: nat, g: Group, source: Source, route: nat, env: Env)
    requires FundsOk(o) && NewLease(o, lease) && GroupOk(g)
    requires g.Cost() <= if source == FromWorking then o.pool.working else o.pool.reserve
    ensures OfferOf(o, lease, g, source, route, env).Made? <==>
            g.Cost() <= 9223372036854775807 && env.openContracts < 4 && env.routeReady && Divisible(g.Cost(), SharesOf(o, route))
    ensures OfferOf(o, lease, g, source, route, env).Made? ==>
            var l := OfferOf(o, lease, g, source, route, env).deal.lease;
            && l.offerExpires == env.offerExpires && l.duration == g.duration && |l.members| == |HopsOf(o, route)|
            && forall i :: 0 <= i < |l.members| ==> !l.members[i].withdrawn
  {
    hide Journal.BooksOk, NewLease, RouteLease.MakeOffer, LeaseRuns.Unused, LeaseCredits.Most, LeaseCredits.Prefix;
    var path := PathOf(o, route);
    assert path.Shares() == SharesOf(o, route);
    OfferIsUnused(o, lease, source, route);
    LeaseCredits.OfferIsMadeExactlyWhen(o.books, lease, o.creator, AccountOf(o, source), g.duration, g.rate, env.offerExpires,
                                        env.openContracts, env.routeReady, path.Providers(), path.Domains(), path.Shares());
  }

  lemma GrantedIs(l: RouteLease.Lease, n: nat, looks: nat -> Acceptances.Look, supportUntil: int)
    requires 0 < n && forall i :: 0 <= i < |l.members| ==> !l.members[i].withdrawn
    ensures Acceptances.Granted(l, n, looks, 0, supportUntil) <==>
            && (forall j: nat :: j < n ==> looks(j).checked < l.offerExpires)
            && var last := looks(n - 1);
               && last.free && last.intact && 2 <= |l.members| && (forall i: nat :: i < |l.members| ==> last.up(i))
               && last.now + 1000 * l.duration <= supportUntil
  {
    var last := looks(n - 1);
    var sight := Acceptances.SightOf(last, |l.members|);
    assert forall i :: 0 <= i < |l.members| ==> sight.up[i] == last.up(i);
    assert RouteLease.Joint(l.members, sight) <==>
           last.intact && 2 <= |l.members| && forall i: nat :: i < |l.members| ==> last.up(i);
  }

  lemma CoveringExists(o: Office, route: nat, kind: Coverage, until: int)
    ensures forall m :: m in Covering(o, route, kind, until) ==> m in o.mandates
  {
    hide Covers, Providers;
  }

  /** The granted window, seen from the office. */
  lemma GrantedExactlyWhen(o: Office, a: Authority, l: RouteLease.Lease, route: nat, env: Env)
    requires a.group in o.pool.groups && 1 <= Parties(o, route)
    requires l.offerExpires == env.offerExpires && l.duration == o.pool.groups[a.group].duration
    requires |l.members| == |HopsOf(o, route)| && forall i :: 0 <= i < |l.members| ==> !l.members[i].withdrawn
    ensures Acceptances.Granted(l, Parties(o, route), env.looks, 0, env.supportUntil) <==> Accepted(o, a, route, env)
  {
    hide Acceptances.Granted, Parties, HopsOf;
    GrantedIs(l, Parties(o, route), env.looks, env.supportUntil);
  }

  ghost predicate TakenWhen(o: Office, a: Authority, route: nat, env: Env, deal: RouteLease.Deal, reply: RouteLease.Reply)
    requires a.group in o.pool.groups
  {
    && 1 <= Parties(o, route)
    && (reply == RouteLease.Done <==> Accepted(o, a, route, env))
    && (reply == RouteLease.Done ==>
          && deal.lease.phase == RouteLease.Active
          && deal.lease.ends == env.looks(Parties(o, route) - 1).now + 1000 * o.pool.groups[a.group].duration)
  }

  lemma TakenExactlyWhen(o: Office, a: Authority, lease: nat, source: Source, route: nat, env: Env, until: int)
    requires OfficeOk(o) && NewLease(o, lease) && a.group in o.pool.groups && AllLet(o, route, a.kind, until)
    requires o.pool.groups[a.group].Cost() <= if source == FromWorking then o.pool.working else o.pool.reserve
    requires OfferOf(o, lease, o.pool.groups[a.group], source, route, env).Made?
    ensures forall m :: m in Covering(o, route, a.kind, until) ==> m in o.mandates
    ensures var (deal, reply) := Taking(o, lease, o.pool.groups[a.group], source, route, Covering(o, route, a.kind, until), env);
            TakenWhen(o, a, route, env, deal, reply)
  {
    hide OfficeOk, FundsOk, Covering, Providers, OfferOf, Taking, AllLet, Acceptances.Granted, NewLease, LeaseSafety.DealOk, Accepted,
         Parties, HopsOf, Divisible, SharesOf, Acceptances.ProviderSet;
    var g := o.pool.groups[a.group];
    CoveringExists(o, route, a.kind, until);
    CountingIsFinding(o, route, a.kind, until);
    assert GroupOk(g) by { GroupIsOk(o, a.group); }
    assert FundsOk(o) by { OfficePool(o); }
    PartiesAre(o, route);
    TakeUp(o, lease, g, source, route, a.kind, until, env);
    OfferMade(o, lease, g, source, route, env);
    GrantedExactlyWhen(o, a, OfferOf(o, lease, g, source, route, env).deal.lease, route, env);
  }

  lemma OutlastedIs(o: Office, a: Authority, route: nat, env: Env, ends: int)
    requires a.group in o.pool.groups && 1 <= Parties(o, route)
    requires ends == env.looks(Parties(o, route) - 1).now + 1000 * o.pool.groups[a.group].duration
    ensures var covering := Covering(o, route, a.kind, Horizon(o, a, env));
            && (forall m :: m in covering ==> m in o.mandates)
            && (Outlasted(o, a, route, env) <==>
                  && env.recorded < a.expires && ends <= a.expires
                  && forall m :: m in covering ==> !Outlived(o.mandates[m], ends, env.recorded))
  {
    hide Covering, Providers, Lets, Horizon;
    var horizon := Horizon(o, a, env);
    var covering := Covering(o, route, a.kind, horizon);
    var hops := HopsOf(o, route);
    forall m | m in covering
      ensures m in o.mandates
      ensures exists i :: 0 <= i < |hops| && Lets(o.mandates[m], route, a.kind, hops[i].provider, horizon)
    {
      InCovering(o, route, a.kind, horizon, m);
      InProviders(o, route, o.mandates[m].provider);
    }
    forall m, i | m in o.mandates && 0 <= i < |hops| && Lets(o.mandates[m], route, a.kind, hops[i].provider, horizon)
      ensures m in covering
    {
      LetsIs(o.mandates[m], route, a.kind, hops[i].provider, horizon);
      InProviders(o, route, o.mandates[m].provider);
      InCovering(o, route, a.kind, horizon, m);
    }
  }

  /** Opening a window, taken apart: it is done exactly when each of its parts is. */
  lemma RenewParts(o: Office, id: nat, lease: nat, source: Source, route: nat, until: int, env: Env)
    requires id in o.authorities && o.authorities[id].group in o.pool.groups && lease !in o.pool.windows
    ensures var a := o.authorities[id]; var g := o.pool.groups[a.group]; var covering := Covering(o, route, a.kind, until);
            var offer := OfferOf(o, lease, g, source, route, env);
            && (forall m :: m in covering ==> m in o.mandates)
            && (Renew(o, id, lease, source, route, until, env).1.Done? <==>
                  && offer.Made?
                  && Offering(o.pool, lease, a.group, source, a.kind, env.supported, env.routeReady, env.normal, true).1 == Reply.Done
                  && var (deal, accepted) := Taking(o, lease, g, source, route, covering, env);
                     && accepted == RouteLease.Done && deal.lease.phase == RouteLease.Active
                     && env.recorded < a.expires && deal.lease.ends <= a.expires
                     && forall m :: m in covering ==> !Outlived(o.mandates[m], deal.lease.ends, env.recorded))
  {
    hide Offering, UseAll, OfferOf, Taking, Consume, Covering, Outlived, Recorded, Ascending;
    CoveringExists(o, route, o.authorities[id].kind, until);
  }

  /** A window that was chosen opens exactly when it can be offered, everybody accepts, and every authority outlasts it. */
  lemma RenewIsDoneExactlyWhen(o: Office, id: nat, lease: nat, source: Source, route: nat, env: Env)
    requires OfficeOk(o) && NewLease(o, lease) && lease !in o.pool.windows && id in o.authorities
    requires var a := o.authorities[id];
             && a.group in o.pool.groups && !AlreadyOpen(o, a) && AllLet(o, route, a.kind, Horizon(o, a, env))
             && if source == FromWorking then ByWorking(o, a) else ByReserve(o, a)
    ensures var a := o.authorities[id];
            Renew(o, id, lease, source, route, Horizon(o, a, env), env).1.Done? <==>
              && Offered(o, a, source, route, env) && 1 <= Parties(o, route) && Accepted(o, a, route, env) && Outlasted(o, a, route, env)
  {
    hide OfficeOk, FundsOk, PoolOk, Covering, Providers, OfferOf, Taking, AllLet, NewLease, Offering, Renew, FundTargets.Liquid,
         Accepted, Outlasted, Horizon, Parties, Divisible, Outlived, SharesOf;
    var a := o.authorities[id];
    var g := o.pool.groups[a.group];
    var until := Horizon(o, a, env);
    assert PoolOk(o.pool) && FundsOk(o) by { OfficePool(o); }
    assert GroupOk(g) by { GroupIsOk(o, a.group); }
    OfferMade(o, lease, g, source, route, env);
    RenewParts(o, id, lease, source, route, until, env);
    FundTargets.OfferIs(o.pool, lease, a.group, source, a.kind, env.supported, env.routeReady, env.normal, true);
    if OfferOf(o, lease, g, source, route, env).Made? {
      TakenExactlyWhen(o, a, lease, source, route, env, until);
      var deal := Taking(o, lease, g, source, route, Covering(o, route, a.kind, until), env).0;
      if Accepted(o, a, route, env) { OutlastedIs(o, a, route, env, deal.lease.ends); }
    }
  }

  // ---------------------------------------------------------------------------------------------
  // The attempt

  /** The window's records, in the fields of the office. */
  predicate RecordedAs(o: Office, after: Office, id: nat, lease: nat, source: Source, route: nat, env: Env)
    requires id in o.authorities && o.authorities[id].group in o.pool.groups
  {
    var a := o.authorities[id]; var cost := CostOf(o, a);
    var working := a.working + if source == FromWorking then cost else 0;
    var reserve := a.reserve + if source == FromReserve then cost else 0;
    var exhausted := a.used + 1 >= a.maxWindows || (a.maxWorking - working < cost && a.maxReserve - reserve < cost);
    && FundTargets.OpenedFrom(o.pool, after.pool, lease, a.group, source, a.kind)
    && after.runs == o.runs[lease := Renewed(id, a.used + 1, source, cost, route)]
    && after.authorities == o.authorities[id := a.(used := a.used + 1, working := working, reserve := reserve,
                                                  standing := if exhausted then Exhausted else Active)]
  }

  /** Each provider of the route used one of its mandates, once. */
  predicate UsedBy(o: Office, after: Office, lease: nat, route: nat, kind: Coverage, provider: nat, horizon: int)
  {
    && (lease, provider) in after.usages
    && var m := after.usages[(lease, provider)];
       && m in o.mandates && m in after.mandates && Lets(o.mandates[m], route, kind, provider, horizon)
       && after.mandates[m] == o.mandates[m].(used := o.mandates[m].used + 1,
                                              standing := if o.mandates[m].used + 1 == o.mandates[m].maxWindows then Exhausted else Active)
  }

  lemma {:induction false} UsingKeepsRest(o: Office, lease: nat, ids: seq<nat>)
    requires forall m :: m in ids ==> m in o.mandates
    ensures var after := UseAll(o, lease, ids); after == o.(mandates := after.mandates, usages := after.usages)
    decreases |ids|
  {
    hide Use;
    if ids != [] {
      UsingKeepsRest(UseOne(o, lease, ids[0]), lease, ids[1..]);
    }
  }

  lemma DoneIsRecorded(o: Office, id: nat, lease: nat, source: Source, route: nat, env: Env)
    requires OfficeOk(o) && lease !in o.pool.windows && id in o.authorities && o.authorities[id].group in o.pool.groups
    requires Renew(o, id, lease, source, route, Horizon(o, o.authorities[id], env), env).1.Done?
    ensures RecordedAs(o, Renew(o, id, lease, source, route, Horizon(o, o.authorities[id], env), env).0, id, lease, source, route, env)
  {
    hide OfficeOk, PoolOk, FundsOk, Offering, UseAll, OfferOf, Taking, Covering, Outlived, Renew, Ascending, FundTargets.Served, FundTargets.Answer;
    var a := o.authorities[id];
    var until := Horizon(o, a, env);
    RenewIs(o, id, lease, source, route, until, env);
    assert PoolOk(o.pool) by { OfficePool(o); }
    FundTargets.OfferIs(o.pool, lease, a.group, source, a.kind, env.supported, env.routeReady, env.normal, true);
    var covering := Covering(o, route, a.kind, until);
    var pool := Offering(o.pool, lease, a.group, source, a.kind, env.supported, env.routeReady, env.normal, true).0;
    var deal := Taking(o, lease, o.pool.groups[a.group], source, route, covering, env).0;
    CoveringExists(o, route, a.kind, until);
    UsingKeepsRest(Recorded(o, id, lease, source, route, pool, deal), lease, Ascending(covering));
  }

  /** Why an attempt opens no window, answer by answer; only a lapsed authority is then changed. */
  ghost predicate AnsweredAs(o: Office, id: nat, env: Env, after: Office, status: Status)
    requires id in o.authorities && (o.authorities[id].group in o.pool.groups || !Authorised(o, o.authorities[id], env))
  {
    var a := o.authorities[id];
    var lapsed := (standing: Standing) =>
      status == Standing(standing) && after == o.(authorities := o.authorities[id := a.(standing := standing)]);
    if a.standing != Active then status == Standing(a.standing) && after == o
    else if a.expires <= env.now then lapsed(Expired)
    else if env.paused then status == Paused && after == o
    else if env.disabled then status == AuthorizerDisabled && after == o
    else if !Authorised(o, a, env) then status == Aborted("pool_terms") && after == o
    else if !Timely(o, a, env) then status == WaitingForSupport && after == o
    else if AlreadyOpen(o, a) then status == WaitingForWindow && after == o
    else if !CanPayAgain(o, a) then lapsed(Exhausted)
    else if !Demanded(a, env) then status == WaitingForDemand && after == o
    else if o.pool.working < CostOf(o, a) && o.pool.reserve < CostOf(o, a) then status == WaitingForFunds && after == o
    else if !ByWorking(o, a) && !ByReserve(o, a) then status == WaitingForAuthorizedSource && after == o
    else if env.candidates == [] then status == WaitingForCapacity && after == o
    else status == WaitingForOperators && after == o
  }

  /** A candidate route all of whose providers let it can be paid for. */
  ghost predicate Ready(o: Office, a: Authority, env: Env, k: nat)
  {
    && Reached(o, a, env) && (ByWorking(o, a) || ByReserve(o, a)) && FirstLet(o, env.candidates, a.kind, Horizon(o, a, env), k)
  }

  lemma PassesExactlyWhen(o: Office, a: Authority, env: Env)
    requires OfficeOk(o)
    ensures Checked(o, a, env).Pass? <==> exists k: nat :: Ready(o, a, env, k)
    ensures forall k: nat :: Ready(o, a, env, k) ==>
              && Checked(o, a, env) == Pass(if ByWorking(o, a) then FromWorking else FromReserve, env.candidates[k])
              && AllLet(o, env.candidates[k], a.kind, Horizon(o, a, env))
  {
    hide OfficeOk, Checked, AllLet;
    CheckedIs(o, a, env);
    forall k: nat | Ready(o, a, env, k)
      ensures Checked(o, a, env) == Pass(if ByWorking(o, a) then FromWorking else FromReserve, env.candidates[k])
      ensures AllLet(o, env.candidates[k], a.kind, Horizon(o, a, env))
    {
      OnlyOneFirst(o, env.candidates, a.kind, Horizon(o, a, env), k);
    }
    if Checked(o, a, env).Pass? {
      var k: nat :| FirstLet(o, env.candidates, a.kind, Horizon(o, a, env), k) && env.candidates[k] == Checked(o, a, env).route;
      assert Ready(o, a, env, k);
    }
  }

  lemma OnlyOneFirst(o: Office, candidates: seq<nat>, kind: Coverage, horizon: int, k: nat)
    requires FirstLet(o, candidates, kind, horizon, k)
    ensures AllLet(o, candidates[k], kind, horizon)
    ensures forall j: nat :: FirstLet(o, candidates, kind, horizon, j) ==> j == k
  {
    hide AllLet;
  }

  /** What becomes of an attempt whose first fully covered candidate is the k-th. */
  ghost predicate AttemptedAs(o: Office, id: nat, lease: nat, env: Env, after: Office, status: Status, k: nat)
    requires id in o.authorities && Ready(o, o.authorities[id], env, k)
  {
    var a := o.authorities[id];
    var source := if ByWorking(o, a) then FromWorking else FromReserve;
    var route := env.candidates[k];
    if Offered(o, a, source, route, env) && 1 <= Parties(o, route) && Accepted(o, a, route, env) && Outlasted(o, a, route, env)
    then
      && status == Status.Done(source, route) && RecordedAs(o, after, id, lease, source, route, env)
      && forall i :: 0 <= i < |HopsOf(o, route)| ==>
           UsedBy(o, after, lease, route, a.kind, HopsOf(o, route)[i].provider, Horizon(o, a, env))
    else after == o && (status.Aborted? || status.Refused?)
  }

  lemma NotDoneIsNothing(o: Office, id: nat, lease: nat, source: Source, route: nat, until: int, env: Env)
    requires id in o.authorities && o.authorities[id].group in o.pool.groups && lease !in o.pool.windows
    ensures var (after, status) := Renew(o, id, lease, source, route, until, env);
            if status.Done? then status == Status.Done(source, route) else after == o && (status.Aborted? || status.Refused?)
  {
    hide Offering, UseAll, OfferOf, Taking, Consume, Covering, Outlived, Recorded, Ascending;
    CoveringExists(o, route, o.authorities[id].kind, until);
  }

  lemma FreshIsUsed(o: Office, after: Office, lease: nat, route: nat, kind: Coverage, p: nat, until: int)
    requires OfficeOk(o) && Fresh(o, after, lease, p, route, kind, until)
    ensures UsedBy(o, after, lease, route, kind, p, until)
  {
    hide PoolOk, FundsOk, AuthorityKept, OneActive, UsageOk, RunOk, Numbered, Covering, Sum;
    var m := after.usages[(lease, p)];
    InCovering(o, route, kind, until, m);
    assert MandateKept(o, m);
  }

  lemma DoneIsUsed(o: Office, id: nat, lease: nat, source: Source, route: nat, env: Env)
    requires OfficeOk(o) && NewLease(o, lease) && lease !in o.pool.windows && id in o.authorities
    requires var a := o.authorities[id];
             && a.group in o.pool.groups && a.used < a.maxWindows && CostOf(o, a) <= a.Limit(source)
             && AllLet(o, route, a.kind, Horizon(o, a, env))
    requires Renew(o, id, lease, source, route, Horizon(o, o.authorities[id], env), env).1.Done?
    ensures var a := o.authorities[id];
            forall i :: 0 <= i < |HopsOf(o, route)| ==>
              UsedBy(o, Renew(o, id, lease, source, route, Horizon(o, a, env), env).0, lease, route, a.kind,
                     HopsOf(o, route)[i].provider, Horizon(o, a, env))
  {
    hide OfficeOk, NewLease, AllLet, Renew, Horizon, Fresh, UsedBy, Covering, Providers, Complete, TakenUp, LeaseSafety.DealOk, Consume;
    var a := o.authorities[id];
    var until := Horizon(o, a, env);
    CountingIsFinding(o, route, a.kind, until);
    RenewKeeps(o, id, lease, source, route, until, env);
    var after := Renew(o, id, lease, source, route, until, env).0;
    forall i | 0 <= i < |HopsOf(o, route)| ensures UsedBy(o, after, lease, route, a.kind, HopsOf(o, route)[i].provider, until) {
      var p := HopsOf(o, route)[i].provider;
      InProviders(o, route, p);
      FreshIsUsed(o, after, lease, route, a.kind, p, until);
    }
  }

  lemma AttemptAt(o: Office, id: nat, lease: nat, env: Env, k: nat)
    requires OfficeOk(o) && NewLease(o, lease) && lease !in o.pool.windows && id in o.authorities
    requires Ready(o, o.authorities[id], env, k)
    ensures var (after, status) := Attempting(o, id, lease, env); AttemptedAs(o, id, lease, env, after, status, k)
  {
    hide OfficeOk, NewLease, Checked, Renew, AllLet, Offered, Accepted, Outlasted, Parties, FirstLet, RecordedAs, Timely, AlreadyOpen, UsedBy;
    var a := o.authorities[id];
    PassesExactlyWhen(o, a, env);
    FirstIsLet(o, env.candidates, a.kind, Horizon(o, a, env), k);
    var source := if ByWorking(o, a) then FromWorking else FromReserve;
    var route := env.candidates[k];
    var until := Until(o, a, env);
    assert until == Horizon(o, a, env);
    NotDoneIsNothing(o, id, lease, source, route, until, env);
    RenewIsDoneExactlyWhen(o, id, lease, source, route, env);
    if Renew(o, id, lease, source, route, until, env).1.Done? {
      DoneIsRecorded(o, id, lease, source, route, env);
      DoneIsUsed(o, id, lease, source, route, env);
    }
  }

  /**
   Main result: when the checks find no route, the attempt answers why not, in the order of the checks; when the k-th
   candidate is the first that can be covered, it opens a window there exactly when that can be offered, accepted and
   outlasted, from working capital exactly when that and its limit cover the cost and from the reserve otherwise.
   */
  lemma AttemptIs(o: Office, id: nat, lease: nat, env: Env)
    requires OfficeOk(o) && NewLease(o, lease) && lease !in o.pool.windows
    ensures var (after, status) := Attempting(o, id, lease, env);
            if id !in o.authorities then after == o && status == Missing
            else
              && ((forall k: nat :: !Ready(o, o.authorities[id], env, k)) ==> !status.Done? && AnsweredAs(o, id, env, after, status))
              && (forall k: nat :: Ready(o, o.authorities[id], env, k) ==> AttemptedAs(o, id, lease, env, after, status, k))
  {
    hide OfficeOk, NewLease, Checked, Renew, AllLet, Offered, Accepted, Outlasted, Parties, RecordedAs, Horizon, UsedBy;
    if id in o.authorities {
      var a := o.authorities[id];
      CheckedIs(o, a, env);
      PassesExactlyWhen(o, a, env);
      forall k: nat | Ready(o, a, env, k)
        ensures var (after, status) := Attempting(o, id, lease, env); AttemptedAs(o, id, lease, env, after, status, k)
      {
        AttemptAt(o, id, lease, env, k);
      }
    }
  }

  /**
   A window is opened from working capital exactly when that and what is left of its limit cover the cost, and from the
   reserve exactly when working capital does not and the reserve and its limit do.
   */
  lemma SourceIsDecided(o: Office, id: nat, lease: nat, env: Env)
    requires OfficeOk(o) && NewLease(o, lease) && lease !in o.pool.windows && id in o.authorities
    requires Attempting(o, id, lease, env).1.Done?
    ensures var a := o.authorities[id]; var source := Attempting(o, id, lease, env).1.source;
            && a.group in o.pool.groups
            && var cost := o.pool.groups[a.group].rate * o.pool.groups[a.group].duration;
               && (source == FromWorking <==> cost <= o.pool.working && cost <= a.maxWorking - a.working)
               && (source == FromReserve <==> o.pool.working < cost <= o.pool.reserve && cost <= a.maxReserve - a.reserve)
  {
    hide OfficeOk, NewLease, Checked, Renew, AllLet, Offered, Accepted, Outlasted, Parties, RecordedAs, Horizon, Attempting, FirstLet, UsedBy;
    AttemptIs(o, id, lease, env);
    var k: nat :| Ready(o, o.authorities[id], env, k);
  }
}
