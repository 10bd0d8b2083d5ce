/** One renewal attempt: a fully mandated window opened by all of its providers, or nothing at all. */
module RenewalSafety {
  import opened MapSums
  import opened Selection
  import opened Cooperative
  import opened Renewals
  import Acceptances
  import Contracts
  import Journal
  import Postings
  import LeaseRuns
  import LeaseSafety
  import RouteLease

  // ---------------------------------------------------------------------------------------------
  // One mandate per provider

  function ProviderOf(o: Office, m: nat): nat { if m in o.mandates then o.mandates[m].provider else 0 }

  predicate OnePerProvider(o: Office, ms: set<nat>)
  {
    forall i, j :: i in ms && j in ms && ProviderOf(o, i) == ProviderOf(o, j) ==> i == j
  }

  lemma {:induction false} ImageSize(o: Office, ms: set<nat>) returns (image: set<nat>)
    requires forall m :: m in ms ==> m in o.mandates
    requires OnePerProvider(o, ms)
    ensures forall p :: p in image <==> exists m :: m in ms && o.mandates[m].provider == p
    ensures |image| == |ms|
    decreases |ms|
  {
    if ms == {} {
      image := {};
    } else {
      var m :| m in ms;
      var rest := ImageSize(o, ms - {m});
      var p := o.mandates[m].provider;
      assert p !in rest;
      image := rest + {p};
      forall q ensures q in image <==> exists k :: k in ms && o.mandates[k].provider == q {
        if q == p { assert m in ms && o.mandates[m].provider == p; }
        if q in rest {
          var k :| k in ms - {m} && o.mandates[k].provider == q;
          assert k in ms;
        }
      }
    }
  }

  lemma {:induction false} SameSize(a: set<nat>, b: set<nat>)
    requires a <= b && |a| == |b|
    ensures a == b
    decreases |a|
  {
    if a == {} {
    } else {
      var x :| x in a;
      SameSize(a - {x}, b - {x});
      assert a == (a - {x}) + {x} && b == (b - {x}) + {x};
    }
  }

  /** As many covering mandates as distinct providers means exactly one for each provider. */
  lemma OneForEach(o: Office, route: nat, kind: Coverage, until: int)
    requires OfficeOk(o) && |Covering(o, route, kind, until)| == |Providers(o, route)|
    ensures OnePerProvider(o, Covering(o, route, kind, until))
    ensures forall p :: p in Providers(o, route) ==>
              exists m :: m in Covering(o, route, kind, until) && m in o.mandates && o.mandates[m].provider == p
  {
    hide PoolOk, AuthorityKept, MandateKept, UsageOk, RunOk, Numbered;
    var ms := Covering(o, route, kind, until);
    forall i, j | i in ms && j in ms && ProviderOf(o, i) == ProviderOf(o, j) ensures i == j {
      assert OneActive(o, i, j);
    }
    var image := ImageSize(o, ms);
    assert image <= Providers(o, route);
    SameSize(image, Providers(o, route));
  }

  lemma {:induction false} ChosenIsCovered(o: Office, candidates: seq<nat>, kind: Coverage, until: int)
    requires Choosing(o, candidates, kind, until).Picked?
    ensures var route := Choosing(o, candidates, kind, until).route;
            route in candidates && |Covering(o, route, kind, until)| == |Providers(o, route)|
  {
    hide Covering, Providers;
    if |Covering(o, candidates[0], kind, until)| != |Providers(o, candidates[0])| {
      ChosenIsCovered(o, candidates[1..], kind, until);
    }
  }

  // ---------------------------------------------------------------------------------------------
  // Consuming

  lemma ConsumeKeepsCounters(o: Office, id: nat, lease: nat, source: Source, cost: int, route: nat, other: nat)
    requires id in o.authorities && lease !in o.runs && 0 <= cost && AuthorityKept(o, other) && AuthorityKept(o, id)
    requires o.authorities[id].used < o.authorities[id].maxWindows && cost <= o.authorities[id].Limit(source)
    ensures var a := o.authorities[id];
            AuthorityKept(o.(authorities := o.authorities[id := Consume(a, cost, source)],
                             runs := o.runs[lease := Renewed(id, a.used + 1, source, cost, route)]), other)
  {
    hide Sum;
    var r := Renewed(id, o.authorities[id].used + 1, source, cost, route);
    With(o.runs, CountOf(other), lease, r);
    With(o.runs, CommittedOf(other, FromWorking), lease, r);
    With(o.runs, CommittedOf(other, FromReserve), lease, r);
  }

  /** A mandate that may be used for this window. */
  predicate Usable(o: Office, lease: nat, route: nat, m: nat)
  {
    && m in o.mandates && o.mandates[m].standing == Active && o.mandates[m].used < o.mandates[m].maxWindows
    && o.mandates[m].route == route && o.mandates[m].provider in Providers(o, route)
    && (lease, o.mandates[m].provider) !in o.usages
  }

  ghost predicate Mandated(o: Office)
  {
    && (forall id :: MandateKept(o, id)) && (forall i, j :: OneActive(o, i, j)) && (forall l, p :: UsageOk(o, l, p))
  }

  lemma UseOneKeeps(o: Office, lease: nat, m: nat, route: nat)
    requires Mandated(o) && Usable(o, lease, route, m) && lease in o.runs && o.runs[lease].route == route
    ensures Mandated(UseOne(o, lease, m))
  {
    hide Sum, Use;
    var after := UseOne(o, lease, m);
    var key := (lease, o.mandates[m].provider);
    UseIs(o.mandates[m]);
    forall id ensures MandateKept(after, id) {
      assert MandateKept(o, id) && MandateKept(o, m);
      With(o.usages, UsesOf(id), key, m);
    }
    forall i, j ensures OneActive(after, i, j) { assert OneActive(o, i, j); }
    forall l, p ensures UsageOk(after, l, p) { assert UsageOk(o, l, p); }
  }

  lemma UseIs(m: Mandate)
    ensures var u := Use(m); u == m.(used := m.used + 1, standing := u.standing) && (u.standing == Active || u.standing == Exhausted)
  {
  }

  lemma {:induction false} UseAllKeeps(o: Office, lease: nat, ids: seq<nat>, route: nat)
    requires Mandated(o) && lease in o.runs && o.runs[lease].route == route
    requires forall m :: m in ids ==> Usable(o, lease, route, m)
    requires forall i, j :: 0 <= i < j < |ids| ==> ProviderOf(o, ids[i]) != ProviderOf(o, ids[j])
    ensures forall m :: m in ids ==> m in o.mandates
    ensures var after := UseAll(o, lease, ids);
            && Mandated(after)
            && after == o.(mandates := after.mandates, usages := after.usages)
            && (forall key :: key in o.usages ==> key in after.usages)
            && (forall m :: m in ids ==> m in o.mandates && (lease, o.mandates[m].provider) in after.usages)
            && (forall m :: m in o.mandates && m !in ids ==> m in after.mandates && after.mandates[m] == o.mandates[m])
            && (forall m :: m in ids ==> m in after.mandates && after.mandates[m] == Use(o.mandates[m]))
    decreases |ids|
  {
    hide Mandated, Use;
    if ids != [] {
      var m := ids[0];
      assert m in ids && Usable(o, lease, route, m);
      UseOneKeeps(o, lease, m, route);
      var next := UseOne(o, lease, m);
      UseIs(o.mandates[m]);
      forall k | k in ids[1..] ensures Usable(next, lease, route, k) && k != m && k in o.mandates && next.mandates[k] == o.mandates[k] {
        assert Usable(o, lease, route, k);
        var i :| 0 <= i < |ids[1..]| && ids[1..][i] == k;
        assert ids[i + 1] == k;
      }
      forall i, j | 0 <= i < j < |ids[1..]| ensures ProviderOf(next, ids[1..][i]) != ProviderOf(next, ids[1..][j]) {
        assert ids[1..][i] in ids[1..] && ids[1..][j] in ids[1..];
        assert ids[1..][i] == ids[i + 1] && ids[1..][j] == ids[j + 1];
      }
      UseAllKeeps(next, lease, ids[1..], route);
      assert ids == [m] + ids[1..];
    }
  }

  /** Every usage of the new window names one of the mandates used. */
  lemma {:induction false} UsagesName(o: Office, lease: nat, ids: seq<nat>)
    requires forall m :: m in ids ==> m in o.mandates
    ensures forall p :: (lease, p) in UseAll(o, lease, ids).usages ==>
              UseAll(o, lease, ids).usages[(lease, p)] in ids
              || ((lease, p) in o.usages && UseAll(o, lease, ids).usages[(lease, p)] == o.usages[(lease, p)])
    decreases |ids|
  {
    hide Use;
    if ids != [] {
      UsagesName(UseOne(o, lease, ids[0]), lease, ids[1..]);
    }
  }

  lemma {:induction false} AscendingIsDistinct(s: set<nat>)
    ensures forall i, j :: 0 <= i < j < |Ascending(s)| ==> Ascending(s)[i] != Ascending(s)[j]
    decreases |s|
  {
    if s != {} {
      AscendingIsDistinct(s - {Least(s)});
    }
  }

  // ---------------------------------------------------------------------------------------------
  // One attempt

  lemma OfferedWindow(
    p: Pool, lease: nat, group: string, source: Source, kind: Coverage, supported: bool, routeReady: bool, normal: bool,
    leasable: bool)
    requires PoolOk(p) && lease !in p.windows && group in p.groups
    requires Offering(p, lease, group, source, kind, supported, routeReady, normal, leasable).1 == Reply.Done
    ensures var q := Offering(p, lease, group, source, kind, supported, routeReady, normal, leasable).0;
            var cost := p.groups[group].Cost();
            && leasable && PoolOk(q) && lease in q.windows && q.windows[lease].budget == cost
            && q.windows[lease].source == source && q.windows[lease].open
            && (forall w :: w in p.windows ==> w in q.windows && q.windows[w] == p.windows[w])
            && q.working == p.working - (if source == FromWorking then cost else 0)
            && q.reserve == p.reserve - (if source == FromReserve then cost else 0)
  {
    hide Floor, ReserveTarget, Occupied, PoolOk;
    OfferKeeps(p, lease, group, source, kind, supported, routeReady, normal, leasable);
  }

  lemma CostIsPositive(p: Pool, group: string)
    requires PoolOk(p) && group in p.groups
    ensures 0 < p.groups[group].Cost()
  {
    assert GroupOk(p.groups[group]);
    CostPositive(p.groups[group]);
  }

  lemma NoUsageYet(o: Office, lease: nat)
    requires OfficeOk(o) && lease !in o.pool.windows
    ensures lease !in o.runs && forall p: nat :: (lease, p) !in o.usages
  {
    hide PoolOk, AuthorityKept, MandateKept, OneActive, Numbered;
    assert RunOk(o, lease);
    forall p: nat ensures (lease, p) !in o.usages { assert UsageOk(o, lease, p); }
  }

  /** After the records, the window is covered: by the used mandate of each of its providers. */
  ghost predicate Complete(o: Office, lease: nat, route: nat)
  {
    forall p :: p in Providers(o, route) ==> (lease, p) in o.usages && o.usages[(lease, p)] in o.mandates
                                             && o.mandates[o.usages[(lease, p)]].provider == p
  }

  lemma NumberedStays(o: Office, after: Office, id: nat, lease: nat, source: Source, cost: int, route: nat, i: nat, j: nat)
    requires OfficeOk(o) && id in o.authorities && lease !in o.runs
    requires after.runs == o.runs[lease := Renewed(id, o.authorities[id].used + 1, source, cost, route)]
    ensures Numbered(after, i, j)
  {
    hide PoolOk, AuthorityKept, MandateKept, OneActive, UsageOk;
    assert Numbered(o, i, j);
    assert RunOk(o, i) && RunOk(o, j);
  }

  /** The new pool holds the window, and all the old ones. */
  predicate Opened(o: Office, pool: Pool, lease: nat, source: Source, cost: int)
  {
    && lease in pool.windows && pool.windows[lease].budget == cost && pool.windows[lease].source == source
    && forall w :: w in o.pool.windows ==> w in pool.windows && pool.windows[w] == o.pool.windows[w]
  }

  /** The record of a new window, before the mandates are used, keeps everything but the coverage of that window. */
  lemma RecordedKeeps(o: Office, id: nat, lease: nat, source: Source, route: nat, pool: Pool, deal: RouteLease.Deal)
    requires OfficeOk(o) && id in o.authorities && o.authorities[id].group in o.pool.groups && lease !in o.pool.windows
    requires Opened(o, pool, lease, source, o.pool.groups[o.authorities[id].group].Cost())
    requires o.authorities[id].used < o.authorities[id].maxWindows
             && o.pool.groups[o.authorities[id].group].Cost() <= o.authorities[id].Limit(source)
    ensures var r := Recorded(o, id, lease, source, route, pool, deal);
            && (forall x :: AuthorityKept(r, x)) && Mandated(r) && (forall i, j :: Numbered(r, i, j))
            && (forall k :: k != lease ==> RunOk(r, k)) && lease !in o.runs && forall p: nat :: (lease, p) !in o.usages
  {
    hide PoolOk, AuthorityKept, MandateKept, OneActive, UsageOk, Sum, Numbered, RunOk, Consume, Mandated;
    var a := o.authorities[id];
    var cost := o.pool.groups[a.group].Cost();
    var r := Recorded(o, id, lease, source, route, pool, deal);
    CostIsPositive(o.pool, a.group);
    NoUsageYet(o, lease);
    forall x ensures AuthorityKept(r, x) {
      assert AuthorityKept(o, x) && AuthorityKept(o, id);
      ConsumeKeepsCounters(o, id, lease, source, cost, route, x);
      SameCounters(o.(authorities := r.authorities, runs := r.runs), r, x);
    }
    RecordedMandated(o, r, lease);
    forall i, j ensures Numbered(r, i, j) { NumberedStays(o, r, id, lease, source, cost, route, i, j); }
    forall k | k != lease ensures RunOk(r, k) { RecordedRun(o, id, lease, source, route, pool, deal, k); }
  }

  lemma RecordedRun(o: Office, id: nat, lease: nat, source: Source, route: nat, pool: Pool, deal: RouteLease.Deal, k: nat)
    requires OfficeOk(o) && id in o.authorities && o.authorities[id].group in o.pool.groups && k != lease
    requires Opened(o, pool, lease, source, o.pool.groups[o.authorities[id].group].Cost())
    ensures RunOk(Recorded(o, id, lease, source, route, pool, deal), k)
  {
    hide PoolOk, AuthorityKept, MandateKept, OneActive, UsageOk, Numbered;
    assert RunOk(o, k);
    ConsumeIs(o.authorities[id], o.pool.groups[o.authorities[id].group].Cost(), source);
  }

  /** Mandates of one window that may all be used. */
  predicate AllUsable(o: Office, lease: nat, route: nat, ms: set<nat>)
  {
    OnePerProvider(o, ms) && forall m :: m in ms ==> Usable(o, lease, route, m)
  }

  /** Using them all covers every one of their providers, and touches nothing but mandates and usages. */
  lemma {:induction false} UsedCovers(r: Office, lease: nat, route: nat, covering: set<nat>)
    requires Mandated(r) && lease in r.runs && r.runs[lease].route == route && AllUsable(r, lease, route, covering)
    requires forall p :: p in Providers(r, route) ==> exists m :: m in covering && ProviderOf(r, m) == p
    requires forall p: nat :: (lease, p) !in r.usages
    ensures forall m :: m in Ascending(covering) ==> m in r.mandates
    ensures var after := UseAll(r, lease, Ascending(covering));
            && Mandated(after) && after == r.(mandates := after.mandates, usages := after.usages)
            && (forall key :: key in r.usages ==> key in after.usages)
            && (forall p :: p in Providers(r, route) ==> (lease, p) in after.usages && after.usages[(lease, p)] in covering)
            && (forall m :: m in covering ==> m in after.mandates && m in r.mandates && after.mandates[m] == Use(r.mandates[m]))
  {
    hide Mandated, Use, Providers, Usable;
    AscendingIsDistinct(covering);
    var ids := Ascending(covering);
    forall i, j | 0 <= i < j < |ids| ensures ProviderOf(r, ids[i]) != ProviderOf(r, ids[j]) {
      assert ids[i] in ids && ids[j] in ids;
    }
    UseAllKeeps(r, lease, ids, route);
    UsagesName(r, lease, ids);
  }

  lemma StillUsable(o: Office, r: Office, lease: nat, route: nat, kind: Coverage, until: int)
    requires r.mandates == o.mandates && r.usages == o.usages && r.routes == o.routes
    requires OnePerProvider(o, Covering(o, route, kind, until)) && forall p: nat :: (lease, p) !in o.usages
    ensures AllUsable(r, lease, route, Covering(o, route, kind, until))
  {
    var ms := Covering(o, route, kind, until);
    assert forall m :: ProviderOf(r, m) == ProviderOf(o, m);
  }

  lemma OfficeAfter(o: Office, r: Office, after: Office, lease: nat, route: nat)
    requires PoolOk(r.pool) && FundsOk(r) && (forall x :: AuthorityKept(r, x)) && (forall i, j :: Numbered(r, i, j))
    requires forall k :: k != lease ==> RunOk(r, k)
    requires Mandated(after) && after == r.(mandates := after.mandates, usages := after.usages)
    requires forall key :: key in r.usages ==> key in after.usages
    requires RunOk(after, lease)
    ensures OfficeOk(after)
  {
    hide PoolOk, FundsOk, AuthorityKept, MandateKept, OneActive, UsageOk, Numbered;
    SameFunds(r, after);
    forall x ensures AuthorityKept(after, x) { assert AuthorityKept(r, x); SameCounters(r, after, x); }
    forall k ensures RunOk(after, k) { if k != lease { assert RunOk(r, k); } }
    forall i, j ensures Numbered(after, i, j) { assert Numbered(r, i, j); SameNumbers(r, after, i, j); }
  }

  lemma SameFunds(o: Office, after: Office)
    requires FundsOk(o) && after.fund == o.fund && after.routes == o.routes && after.books == o.books && after.pool == o.pool
    ensures FundsOk(after)
  {
    hide Journal.BooksOk;
  }

  lemma CompleteNow(after: Office, lease: nat, route: nat)
    requires Mandated(after) && forall p :: p in Providers(after, route) ==> (lease, p) in after.usages
    ensures Complete(after, lease, route)
  {
    hide Mandated, Providers;
    forall p | p in Providers(after, route)
      ensures (lease, p) in after.usages && after.usages[(lease, p)] in after.mandates
              && after.mandates[after.usages[(lease, p)]].provider == p
    {
      UsageFacts(after, lease, p);
    }
  }

  lemma SameNumbers(r: Office, after: Office, i: nat, j: nat)
    requires Numbered(r, i, j) && after.runs == r.runs
    ensures Numbered(after, i, j)
  {
  }

  lemma NewRun(o: Office, after: Office, id: nat, lease: nat, source: Source, route: nat, pool: Pool, deal: RouteLease.Deal)
    requires OfficeOk(o) && id in o.authorities && o.authorities[id].group in o.pool.groups
    requires Opened(o, pool, lease, source, o.pool.groups[o.authorities[id].group].Cost())
    requires after == Recorded(o, id, lease, source, route, pool, deal).(mandates := after.mandates, usages := after.usages)
    requires TakenUp(after, lease, route)
    requires Providers(after, route) != {} && forall p :: p in Providers(after, route) ==> (lease, p) in after.usages
    ensures RunOk(after, lease)
  {
    hide PoolOk, Sum, MandateKept, OneActive, UsageOk, Numbered, Providers;
    assert AuthorityKept(o, id);
  }

  lemma {:induction false} UsedKeeps(o: Office, id: nat, lease: nat, source: Source, route: nat, pool: Pool, deal: RouteLease.Deal,
    kind: Coverage, until: int)
    requires OfficeOk(o) && id in o.authorities && o.authorities[id].group in o.pool.groups && lease !in o.pool.windows
    requires PoolOk(pool) && Opened(o, pool, lease, source, o.pool.groups[o.authorities[id].group].Cost())
    requires o.authorities[id].used < o.authorities[id].maxWindows
             && o.pool.groups[o.authorities[id].group].Cost() <= o.authorities[id].Limit(source)
    requires |Covering(o, route, kind, until)| == |Providers(o, route)| && Providers(o, route) != {}
    requires var r := Recorded(o, id, lease, source, route, pool, deal); FundsOk(r) && TakenUp(r, lease, route)
    ensures var r := Recorded(o, id, lease, source, route, pool, deal);
            && (forall m :: m in Ascending(Covering(o, route, kind, until)) ==> m in r.mandates)
            && var after := UseAll(r, lease, Ascending(Covering(o, route, kind, until)));
               && OfficeOk(after) && Complete(after, lease, route)
               && after == r.(mandates := after.mandates, usages := after.usages)
               && forall p :: p in Providers(o, route) ==> Fresh(o, after, lease, p, route, kind, until)
  {
    hide PoolOk, AuthorityKept, Sum, Numbered, Consume, Mandated, RunOk, Opened, OnePerProvider, AllUsable, OfficeOk, Covering,
         Complete, FundsOk, TakenUp, Fresh, Providers;
    assert Providers(Recorded(o, id, lease, source, route, pool, deal), route) == Providers(o, route) by {
      SameRoutes(o, Recorded(o, id, lease, source, route, pool, deal), route);
    }
    var r := Recorded(o, id, lease, source, route, pool, deal);
    RecordedKeeps(o, id, lease, source, route, pool, deal);
    OneForEach(o, route, kind, until);
    StillUsable(o, r, lease, route, kind, until);
    var covering := Covering(o, route, kind, until);
    forall p | p in Providers(r, route) ensures exists m :: m in covering && ProviderOf(r, m) == p {
      var m :| m in covering && m in o.mandates && o.mandates[m].provider == p;
      assert m in covering && ProviderOf(r, m) == p;
    }
    UsedCovers(r, lease, route, covering);
    var after := UseAll(r, lease, Ascending(covering));
    SameRoutes(r, after, route);
    assert TakenUp(after, lease, route) by { SameTaking(r, after, lease, route); }
    NewRun(o, after, id, lease, source, route, pool, deal);
    OfficeAfter(o, r, after, lease, route);
    CompleteNow(after, lease, route);
    forall p | p in Providers(o, route) ensures Fresh(o, after, lease, p, route, kind, until) {
      assert (lease, p) in after.usages && after.usages[(lease, p)] in covering;
      CompleteAt(after, lease, route, p);
      FreshNow(o, after, lease, p, route, kind, until);
    }
  }

  /** The mandate recorded for this provider was in force, in its limit and for this route and kind before it was used. */
  predicate Fresh(o: Office, after: Office, lease: nat, p: nat, route: nat, kind: Coverage, until: int)
  {
    && (lease, p) in after.usages
    && var m := after.usages[(lease, p)];
       m in Covering(o, route, kind, until) && m in o.mandates && o.mandates[m].provider == p
       && m in after.mandates && after.mandates[m] == Use(o.mandates[m])
  }

  lemma CompleteAt(o: Office, lease: nat, route: nat, p: nat)
    requires Complete(o, lease, route) && p in Providers(o, route)
    ensures (lease, p) in o.usages && o.usages[(lease, p)] in o.mandates && o.mandates[o.usages[(lease, p)]].provider == p
  {
    hide Providers;
  }

  lemma FreshNow(o: Office, after: Office, lease: nat, p: nat, route: nat, kind: Coverage, until: int)
    requires (lease, p) in after.usages && after.usages[(lease, p)] in Covering(o, route, kind, until)
    requires var m := after.usages[(lease, p)];
             m in o.mandates && m in after.mandates && after.mandates[m].provider == p && after.mandates[m] == Use(o.mandates[m])
    ensures Fresh(o, after, lease, p, route, kind, until)
  {
    hide Covering;
    UseIs(o.mandates[after.usages[(lease, p)]]);
  }

  lemma SameRoutes(o: Office, after: Office, route: nat)
    requires after.routes == o.routes
    ensures Providers(after, route) == Providers(o, route)
  {
  }

  lemma SameTaking(o: Office, after: Office, lease: nat, route: nat)
    requires after.routes == o.routes && after.leases == o.leases && TakenUp(o, lease, route)
    ensures TakenUp(after, lease, route)
  {
    hide Providers, Acceptances.ProviderSet;
    SameRoutes(o, after, route);
  }

  /** Nothing was ever recorded under this identifier. */
  ghost predicate NewLease(o: Office, lease: nat)
  {
    && lease !in o.pool.windows && Journal.Escrow(lease) !in o.books.accounts
    && Journal.FundKey(lease) !in o.books.journal && Journal.RefundKey(lease) !in o.books.journal
    && forall p :: Journal.PayKey(lease, p) !in o.books.journal
  }

  /** Everyone the offer concerns has an account, and its identifier is new. */
  lemma OfferIsUnused(o: Office, lease: nat, source: Source, route: nat)
    requires FundsOk(o) && NewLease(o, lease)
    ensures LeaseRuns.Unused(o.books, lease, AccountOf(o, source), PathOf(o, route).Providers())
  {
    hide Journal.BooksOk;
    var path := PathOf(o, route);
    forall i | 0 <= i < |path.hops| ensures Journal.Available(path.Providers()[i]) in o.books.accounts {
      assert path.hops[i] in o.routes[route].hops;
    }
  }

  /** The offer escrows the window's cost from the source's account, and touches no other account. */
  lemma OfferIsFunded(o: Office, lease: nat, g: Group, source: Source, route: nat, env: Env)
    requires FundsOk(o) && NewLease(o, lease) && GroupOk(g)
    ensures var offer := OfferOf(o, lease, g, source, route, env);
            offer.Made? ==>
              && LeaseSafety.DealOk(offer.deal)
              && offer.deal.books.accounts.Keys == o.books.accounts.Keys + {Journal.Escrow(lease)}
              && offer.deal.books.Balance(AccountOf(o, source)) == o.books.Balance(AccountOf(o, source)) - g.Cost()
              && forall a :: a != AccountOf(o, source) && a != Journal.Escrow(lease) ==>
                   offer.deal.books.Balance(a) == o.books.Balance(a)
  {
    hide FundsOk, NewLease, LeaseRuns.Unused, LeaseSafety.DealOk, RouteLease.MakeOffer, PathOf;
    var path := PathOf(o, route);
    OfferIsUnused(o, lease, source, route);
    LeaseRuns.OfferKeeps(o.books, lease, o.creator, AccountOf(o, source), g.duration, g.rate, env.offerExpires,
                         env.openContracts, env.routeReady, path.Providers(), path.Domains(), path.Shares());
  }

  /** The lease offer starts funded, and awaits exactly the providers of its route. */
  lemma OfferStarts(o: Office, lease: nat, g: Group, source: Source, route: nat, env: Env, users: seq<nat>)
    requires FundsOk(o) && NewLease(o, lease) && GroupOk(g)
    requires Acceptances.Distinct(users) && forall u :: u in users <==> u in Providers(o, route)
    ensures var offer := OfferOf(o, lease, g, source, route, env);
            offer.Made? ==>
              && Acceptances.Awaits(offer.deal.lease, users) && users != []
              && offer.deal.lease.id == lease && offer.deal.lease.duration == g.duration
              && Acceptances.ProviderSet(offer.deal.lease.members) == Providers(o, route) && Providers(o, route) != {}
  {
    hide FundsOk, NewLease, OfferOf, Acceptances.ProviderSet, Acceptances.Distinct, PathOf;
    var path := PathOf(o, route);
    var offer := OfferOf(o, lease, g, source, route, env);
    if offer.Made? {
      OfferedMembers(o, lease, g, source, route, env);
      MembersAreHops(offer.deal.lease.members, path);
      assert path.hops[0] in path.hops && path.hops[0].provider in Providers(o, route);
    }
  }

  lemma OfferedMembers(o: Office, lease: nat, g: Group, source: Source, route: nat, env: Env)
    requires OfferOf(o, lease, g, source, route, env).Made?
    ensures var l := OfferOf(o, lease, g, source, route, env).deal.lease; var path := PathOf(o, route);
            && l.phase == RouteLease.Offered && l.accepted == {} && l.id == lease && l.duration == g.duration
            && |l.members| == |path.hops| >= 1 && forall i :: 0 <= i < |path.hops| ==> l.members[i].provider == path.hops[i].provider
  {
    hide Journal.Posting, Contracts.Parts, Contracts.Total;
  }

  lemma MembersAreHops(members: seq<RouteLease.Member>, path: Path)
    requires |members| == |path.hops| && forall i :: 0 <= i < |members| ==> members[i].provider == path.hops[i].provider
    ensures Acceptances.ProviderSet(members) == set h | h in path.hops :: h.provider
  {
    var hops := set h | h in path.hops :: h.provider;
    forall p ensures p in Acceptances.ProviderSet(members) <==> p in hops {
      if p in Acceptances.ProviderSet(members) {
        var m :| m in members && m.provider == p;
        var i :| 0 <= i < |members| && members[i] == m;
        assert path.hops[i] in path.hops;
      }
      if p in hops {
        var h :| h in path.hops && h.provider == p;
        var i :| 0 <= i < |path.hops| && path.hops[i] == h;
        assert members[i] in members;
      }
    }
  }

  /** The mandates' providers, in order, are each provider of the route once. */
  lemma UsersAreProviders(o: Office, route: nat, kind: Coverage, until: int)
    requires OfficeOk(o) && |Covering(o, route, kind, until)| == |Providers(o, route)|
    ensures forall m :: m in Ascending(Covering(o, route, kind, until)) ==> m in o.mandates
    ensures var users := UsersOf(o, Ascending(Covering(o, route, kind, until)));
            Acceptances.Distinct(users) && forall u :: u in users <==> u in Providers(o, route)
  {
    hide OfficeOk, Providers;
    var covering := Covering(o, route, kind, until);
    var ids := Ascending(covering);
    OneForEach(o, route, kind, until);
    AscendingIsDistinct(covering);
    var users := UsersOf(o, ids);
    forall i, j | 0 <= i < j < |users| ensures users[i] != users[j] {
      assert ids[i] in covering && ids[j] in covering;
      assert ProviderOf(o, ids[i]) == users[i] && ProviderOf(o, ids[j]) == users[j];
    }
    forall u ensures u in users <==> u in Providers(o, route) {
      if u in users {
        var i :| 0 <= i < |users| && users[i] == u;
        assert ids[i] in covering;
      }
      if u in Providers(o, route) {
        var m :| m in covering && m in o.mandates && o.mandates[m].provider == u;
        assert m in ids;
        var i :| 0 <= i < |ids| && ids[i] == m;
        assert users[i] == u;
      }
    }
  }

  /** The pool's rows and its accounts move together. */
  lemma FundedTogether(o: Office, r: Office, lease: nat, source: Source, cost: int)
    requires FundsOk(o) && Journal.BooksOk(r.books) && r.fund == o.fund && r.routes == o.routes
    requires r.pool.working == o.pool.working - (if source == FromWorking then cost else 0)
    requires r.pool.reserve == o.pool.reserve - (if source == FromReserve then cost else 0)
    requires forall a :: a in o.books.accounts ==> a in r.books.accounts
    requires r.books.Balance(AccountOf(o, source)) == o.books.Balance(AccountOf(o, source)) - cost
    requires forall a :: a != AccountOf(o, source) && a != Journal.Escrow(lease) ==> r.books.Balance(a) == o.books.Balance(a)
    ensures FundsOk(r)
  {
    hide Journal.BooksOk;
  }

  /** The window as it stands right after the attempt: open, accepted by all, on its own account, mandated beyond its end. */
  ghost predicate OpenedNow(o: Office, after: Office, lease: nat, route: nat, kind: Coverage, until: int)
  {
    && lease in after.leases && TakenUp(after, lease, route)
    && var l := after.leases[lease];
       && LeaseSafety.DealOk(RouteLease.Deal(l, after.books)) && l.phase == RouteLease.Active
       && forall p :: p in Providers(o, route) ==>
            && Fresh(o, after, lease, p, route, kind, until)
            && l.ends <= o.mandates[after.usages[(lease, p)]].expires
  }

  /** What the acceptances leave, before the records; they succeed exactly when each of them is granted. */
  lemma TakeUp(o: Office, lease: nat, g: Group, source: Source, route: nat, kind: Coverage, until: int, env: Env)
    requires OfficeOk(o) && NewLease(o, lease) && GroupOk(g)
    requires |Covering(o, route, kind, until)| == |Providers(o, route)| && OfferOf(o, lease, g, source, route, env).Made?
    ensures var start := OfferOf(o, lease, g, source, route, env).deal;
            var (deal, reply) := Taking(o, lease, g, source, route, Covering(o, route, kind, until), env);
            && Providers(o, route) != {}
            && (reply == RouteLease.Done <==>
                  Acceptances.Granted(start.lease, |Providers(o, route)|, env.looks, 0, env.supportUntil))
            && (reply == RouteLease.Done ==>
                  && Taken(o, deal, lease, source, route, g.Cost())
                  && deal.lease.ends == env.looks(|Providers(o, route)| - 1).now + g.duration * 1000)
  {
    hide OfficeOk, FundsOk, Covering, Providers, OfferOf, NewLease, Acceptances.ProviderSet, Acceptances.Awaits, LeaseSafety.DealOk,
         Acceptances.AcceptAll, Acceptances.Granted;
    UsersAreProviders(o, route, kind, until);
    var users := UsersOf(o, Ascending(Covering(o, route, kind, until)));
    assert FundsOk(o) by { OfficePool(o); }
    OfferIsFunded(o, lease, g, source, route, env);
    OfferStarts(o, lease, g, source, route, env, users);
    var start := OfferOf(o, lease, g, source, route, env).deal;
    Acceptances.EveryAcceptanceCounts(start, users, env.looks, 0, env.supportUntil);
    AscendingSize(Covering(o, route, kind, until));
    var (deal, reply) := Acceptances.AcceptAll(start, users, env.looks, 0, env.supportUntil);
    if reply == RouteLease.Done { Acceptances.SameProviders(start.lease.members, deal.lease.members); }
  }

  lemma {:induction false} AscendingSize(s: set<nat>)
    ensures |Ascending(s)| == |s|
    decreases |s|
  {
    if s != {} {
      AscendingSize(s - {Least(s)});
    }
  }

  /** An opened lease, accepted by exactly its route's providers, with its cost taken from the source's account. */
  ghost predicate Taken(o: Office, deal: RouteLease.Deal, lease: nat, source: Source, route: nat, cost: int)
  {
    && LeaseSafety.DealOk(deal) && deal.lease.phase == RouteLease.Active && deal.lease.id == lease
    && deal.lease.accepted == Providers(o, route) == Acceptances.ProviderSet(deal.lease.members)
    && deal.books.accounts.Keys == o.books.accounts.Keys + {Journal.Escrow(lease)}
    && deal.books.Balance(AccountOf(o, source)) == o.books.Balance(AccountOf(o, source)) - cost
    && forall a :: a != AccountOf(o, source) && a != Journal.Escrow(lease) ==> deal.books.Balance(a) == o.books.Balance(a)
  }

  lemma GroupIsOk(o: Office, group: string)
    requires OfficeOk(o) && group in o.pool.groups
    ensures GroupOk(o.pool.groups[group])
  {
    hide FundsOk, AuthorityKept, MandateKept, OneActive, UsageOk, RunOk, Numbered, GroupOk;
  }

  /** The window's own state after its records: everything kept, and the window open. */
  lemma OpenedKeeps(
    o: Office, id: nat, lease: nat, source: Source, route: nat, pool: Pool, deal: RouteLease.Deal, kind: Coverage, until: int)
    requires OfficeOk(o) && id in o.authorities && o.authorities[id].group in o.pool.groups && lease !in o.pool.windows
    requires var cost := o.pool.groups[o.authorities[id].group].Cost();
             && PoolOk(pool) && Opened(o, pool, lease, source, cost)
             && pool.working == o.pool.working - (if source == FromWorking then cost else 0)
             && pool.reserve == o.pool.reserve - (if source == FromReserve then cost else 0)
             && Taken(o, deal, lease, source, route, cost)
             && o.authorities[id].used < o.authorities[id].maxWindows && cost <= o.authorities[id].Limit(source)
    requires |Covering(o, route, kind, until)| == |Providers(o, route)| && Providers(o, route) != {}
    requires forall m :: m in Covering(o, route, kind, until) ==> m in o.mandates && deal.lease.ends <= o.mandates[m].expires
    ensures var r := Recorded(o, id, lease, source, route, pool, deal);
            var after := UseAll(r, lease, Ascending(Covering(o, route, kind, until)));
            && OfficeOk(after) && after == r.(mandates := after.mandates, usages := after.usages)
            && Complete(after, lease, route) && OpenedNow(o, after, lease, route, kind, until)
  {
    hide OfficeOk, Consume, Complete, UseAll, Opened, OnePerProvider, PoolOk, FundsOk, Fresh, TakenUp, Covering, Providers,
         LeaseSafety.DealOk, Acceptances.ProviderSet;
    var cost := o.pool.groups[o.authorities[id].group].Cost();
    var r := Recorded(o, id, lease, source, route, pool, deal);
    assert FundsOk(o) by { OfficePool(o); }
    DealBooks(deal);
    FundedTogether(o, r, lease, source, cost);
    SameRoutes(o, r, route);
    IsTakenUp(r, lease, route);
    UsedKeeps(o, id, lease, source, route, pool, deal, kind, until);
    var after := UseAll(r, lease, Ascending(Covering(o, route, kind, until)));
    SameTaking(r, after, lease, route);
    forall p | p in Providers(o, route)
      ensures Fresh(o, after, lease, p, route, kind, until) && (lease, p) in after.usages && after.usages[(lease, p)] in o.mandates
      ensures deal.lease.ends <= o.mandates[after.usages[(lease, p)]].expires
    {
      FreshIsCovering(o, after, lease, p, route, kind, until);
    }
  }

  /** A successful renewal, taken apart. */
  lemma RenewIs(o: Office, id: nat, lease: nat, source: Source, route: nat, until: int, env: Env)
    requires id in o.authorities && o.authorities[id].group in o.pool.groups && lease !in o.pool.windows
    ensures var (after, status) := Renew(o, id, lease, source, route, until, env);
            var a := o.authorities[id]; var g := o.pool.groups[a.group]; var covering := Covering(o, route, a.kind, until);
            var offer := OfferOf(o, lease, g, source, route, env);
            if !status.Done? then after == o
            else
              && offer.Made?
              && var (pool, reply) := Offering(o.pool, lease, a.group, source, a.kind, env.supported, env.routeReady, env.normal, true);
                 var (deal, accepted) := Taking(o, lease, g, source, route, covering, env);
                 && reply == Reply.Done && accepted == RouteLease.Done && deal.lease.ends <= a.expires
                 && (forall m :: m in covering ==> m in o.mandates && deal.lease.ends <= o.mandates[m].expires)
                 && after == UseAll(Recorded(o, id, lease, source, route, pool, deal), lease, Ascending(covering))
  {
    hide Offering, UseAll, OfferOf, Taking, Consume;
    var covering := Covering(o, route, o.authorities[id].kind, until);
    var g := o.pool.groups[o.authorities[id].group];
    if Renew(o, id, lease, source, route, until, env).1.Done? {
      var deal := Taking(o, lease, g, source, route, covering, env).0;
      assert forall m :: m in covering ==> !Outlived(o.mandates[m], deal.lease.ends, env.recorded);
    }
  }

  lemma RenewKeeps(o: Office, id: nat, lease: nat, source: Source, route: nat, until: int, env: Env)
    requires OfficeOk(o) && NewLease(o, lease) && lease !in o.pool.windows
    requires id in o.authorities && o.authorities[id].group in o.pool.groups
    requires var a := o.authorities[id]; var cost := o.pool.groups[a.group].Cost();
             && a.used < a.maxWindows && cost <= a.Limit(source)
             && |Covering(o, route, a.kind, until)| == |Providers(o, route)|
    ensures var (after, status) := Renew(o, id, lease, source, route, until, env);
            var cost := o.pool.groups[o.authorities[id].group].Cost();
            && OfficeOk(after)
            && (!status.Done? ==> after == o)
            && (status.Done? ==>
                  && after.runs == o.runs[lease := Renewed(id, o.authorities[id].used + 1, source, cost, route)]
                  && after.authorities == o.authorities[id := Consume(o.authorities[id], cost, source)]
                  && after.pool.Balance(source) == o.pool.Balance(source) - cost
                  && Providers(o, route) != {} && Complete(after, lease, route)
                  && OpenedNow(o, after, lease, route, o.authorities[id].kind, until)
                  && after.leases[lease].ends <= o.authorities[id].expires)
  {
    hide OfficeOk, Offering, Consume, Complete, UseAll, Opened, PoolOk, FundsOk, TakenUp, Covering, Providers, OfferOf, NewLease, Taking,
         Taken, Renew, Acceptances.Granted, LeaseSafety.DealOk;
    var a := o.authorities[id];
    var g := o.pool.groups[a.group];
    RenewIs(o, id, lease, source, route, until, env);
    if Renew(o, id, lease, source, route, until, env).1.Done? {
      var pool := Offering(o.pool, lease, a.group, source, a.kind, env.supported, env.routeReady, env.normal, true).0;
      assert GroupOk(g) by { GroupIsOk(o, a.group); }
      TakeUp(o, lease, g, source, route, a.kind, until, env);
      var deal := Taking(o, lease, g, source, route, Covering(o, route, a.kind, until), env).0;
      assert PoolOk(o.pool) by { OfficePool(o); }
      OfferedWindow(o.pool, lease, a.group, source, a.kind, env.supported, env.routeReady, env.normal, true);
      IsOpened(o, pool, lease, source, g.Cost());
      OpenedKeeps(o, id, lease, source, route, pool, deal, a.kind, until);
    }
  }

  lemma NotYet(o: Office, lease: nat)
    requires NewLease(o, lease)
    ensures lease !in o.pool.windows
  {
  }

  lemma DealBooks(d: RouteLease.Deal)
    requires LeaseSafety.DealOk(d)
    ensures Journal.BooksOk(d.books)
  {
    hide LeaseSafety.LeaseOk, Journal.BooksOk;
  }

  lemma IsTakenUp(o: Office, lease: nat, route: nat)
    requires lease in o.leases && o.leases[lease].id == lease && o.leases[lease].phase == RouteLease.Active
    requires o.leases[lease].accepted == Providers(o, route) == Acceptances.ProviderSet(o.leases[lease].members)
    ensures TakenUp(o, lease, route)
  {
  }

  lemma FreshIsCovering(o: Office, after: Office, lease: nat, p: nat, route: nat, kind: Coverage, until: int)
    requires Fresh(o, after, lease, p, route, kind, until)
    ensures (lease, p) in after.usages && after.usages[(lease, p)] in Covering(o, route, kind, until)
    ensures after.usages[(lease, p)] in o.mandates
  {
    hide Covering;
  }

  lemma OfficePool(o: Office)
    requires OfficeOk(o)
    ensures PoolOk(o.pool) && FundsOk(o)
  {
    hide PoolOk, FundsOk, AuthorityKept, MandateKept, OneActive, UsageOk, RunOk, Numbered;
  }

  lemma IsOpened(o: Office, pool: Pool, lease: nat, source: Source, cost: int)
    requires lease in pool.windows && pool.windows[lease].budget == cost && pool.windows[lease].source == source
    requires forall w :: w in o.pool.windows ==> w in pool.windows && pool.windows[w] == o.pool.windows[w]
    ensures Opened(o, pool, lease, source, cost)
  {
  }

  lemma UsageFacts(o: Office, lease: nat, p: nat)
    requires Mandated(o) && (lease, p) in o.usages
    ensures o.usages[(lease, p)] in o.mandates && o.mandates[o.usages[(lease, p)]].provider == p
  {
    hide MandateKept, OneActive;
    assert UsageOk(o, lease, p);
  }

  lemma ConsumeIs(a: Authority, cost: int, source: Source)
    ensures var b := Consume(a, cost, source);
            && b == a.(used := a.used + 1, working := b.working, reserve := b.reserve, standing := b.standing)
  {
  }

  lemma SameCounters(o: Office, after: Office, id: nat)
    requires AuthorityKept(o, id) && after.authorities == o.authorities && after.runs == o.runs
    ensures AuthorityKept(after, id)
  {
    hide Sum;
  }

  lemma RecordedMandated(o: Office, recorded: Office, lease: nat)
    requires OfficeOk(o) && lease !in o.runs && recorded.mandates == o.mandates && recorded.usages == o.usages && recorded.routes == o.routes
    requires forall k :: k in o.runs ==> k in recorded.runs && recorded.runs[k] == o.runs[k]
    ensures Mandated(recorded)
  {
    hide Sum, PoolOk, AuthorityKept, RunOk, Numbered;
    forall id ensures MandateKept(recorded, id) { assert MandateKept(o, id); }
    forall i, j ensures OneActive(recorded, i, j) { assert OneActive(o, i, j); }
    forall l, p ensures UsageOk(recorded, l, p) { assert UsageOk(o, l, p); }
  }

  lemma StandingKeeps(o: Office, id: nat, standing: Standing)
    requires OfficeOk(o) && id in o.authorities
    ensures OfficeOk(WithStanding(o, id, standing))
  {
    hide Sum, PoolOk, FundsOk;
    var after := WithStanding(o, id, standing);
    SameFunds(o, after);
    forall x ensures AuthorityKept(after, x) { assert AuthorityKept(o, x); }
    forall x ensures MandateKept(after, x) { assert MandateKept(o, x); }
    forall i, j ensures OneActive(after, i, j) { assert OneActive(o, i, j); }
    forall l, p ensures UsageOk(after, l, p) { assert UsageOk(o, l, p); }
    forall l ensures RunOk(after, l) { assert RunOk(o, l); }
    forall i, j ensures Numbered(after, i, j) { assert Numbered(o, i, j); }
  }

  /**
   Main result: an attempt either opens one complete window, or it changes no money, no counter, no mandate and no record.
   The window is funded from one source within its limit and numbered next; its lease is ACTIVE, accepted by exactly the
   providers of its route and fully escrowed; and each of them has one mandate that was in force, within its limit, and
   lasts until the window's end at least, as the authority itself does.
   */
  lemma AttemptIsAllOrNothing(o: Office, id: nat, lease: nat, env: Env)
    requires OfficeOk(o) && NewLease(o, lease)
    ensures var (after, status) := Attempting(o, id, lease, env);
            && OfficeOk(after)
            && (!status.Done? ==>
                  after == o || (id in o.authorities && exists standing :: after == WithStanding(o, id, standing)))
            && (status.Done? ==>
                  && id in o.authorities && o.authorities[id].group in o.pool.groups
                  && o.authorities[id].standing == Active && status.route in env.candidates
                  && var cost := o.pool.groups[o.authorities[id].group].Cost();
                     && cost <= o.authorities[id].Limit(status.source)
                     && after.runs == o.runs[lease := Renewed(id, o.authorities[id].used + 1, status.source, cost, status.route)]
                     && after.authorities == o.authorities[id := Consume(o.authorities[id], cost, status.source)]
                     && after.pool.Balance(status.source) == o.pool.Balance(status.source) - cost
                     && Providers(o, status.route) != {} && Complete(after, lease, status.route)
                     && OpenedNow(o, after, lease, status.route, o.authorities[id].kind, Until(o, o.authorities[id], env))
                     && after.leases[lease].ends <= o.authorities[id].expires)
  {
    hide OfficeOk, Renew, Checked, Complete, Consume, OpenedNow, NewLease, Covering;
    NotYet(o, lease);
    if id in o.authorities {
      var a := o.authorities[id];
      StandingKeeps(o, id, Expired);
      StandingKeeps(o, id, Exhausted);
      CheckedFacts(o, a, env);
      var check := Checked(o, a, env);
      if check.Pass? {
        RenewKeeps(o, id, lease, check.source, check.route, Until(o, a, env), env);
        RenewStatus(o, id, lease, check.source, check.route, Until(o, a, env), env);
      }
    }
  }

  /** What the checks establish. */
  lemma CheckedFacts(o: Office, a: Authority, env: Env)
    ensures match Checked(o, a, env)
            case Stop(status) => !status.Done?
            case Lapse(standing) => standing == Expired || standing == Exhausted
            case Pass(source, route) =>
              && a.standing == Active && a.group in o.pool.groups && a.used < a.maxWindows && route in env.candidates
              && o.pool.groups[a.group].Cost() <= a.Limit(source)
              && |Covering(o, route, a.kind, Until(o, a, env))| == |Providers(o, route)|
  {
    hide Choosing, Covering, Occupied, Providers;
    if a.group in o.pool.groups && Choosing(o, env.candidates, a.kind, Until(o, a, env)).Picked? {
      ChosenIsCovered(o, env.candidates, a.kind, Until(o, a, env));
    }
  }

  lemma RenewStatus(o: Office, id: nat, lease: nat, source: Source, route: nat, until: int, env: Env)
    requires id in o.authorities && o.authorities[id].group in o.pool.groups && lease !in o.pool.windows
    ensures var status := Renew(o, id, lease, source, route, until, env).1;
            status.Done? ==> status.source == source && status.route == route
  {
    hide Offering, UseAll, Covering, OfferOf, Taking;
  }
}
