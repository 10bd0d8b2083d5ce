/**
 Bounded renewal of funded windows (apps/control-api/src/renewals.ts, with the consumption triggers of
 infra/migrations/008_bounded_renewals.sql): a manager's authority, the providers' mandates, and whole windows
 that consume both or change nothing.
 */
module Renewals {
  import opened MapSums
  import opened Selection
  import opened Cooperative
  import Acceptances
  import Journal
  import RouteLease

  datatype Standing = Active | Revoked | Expired | Exhausted

  /** The manager's authority; `working` and `reserve` are gross commitments and only ever grow. */
  datatype Authority = Authority(
    group: string, kind: Coverage, maxWindows: int, maxWorking: int, maxReserve: int,
    used: int, working: int, reserve: int, expires: int, standing: Standing)
  {
    function Limit(s: Source): int { if s == FromWorking then maxWorking - working else maxReserve - reserve }
  }

  datatype Mandate = Mandate(
    provider: nat, route: nat, kind: Coverage, maxWindows: int, used: int, expires: int, standing: Standing)

  datatype Renewed = Renewed(authority: nat, sequence: int, source: Source, committed: int, route: nat)

  /** One node of a complete route. */
  datatype Hop = Hop(provider: nat, domain: nat, share: int)

  datatype Path = Path(hops: seq<Hop>) {
    function Providers(): (r: seq<nat>) ensures |r| == |hops| { seq(|hops|, i requires 0 <= i < |hops| => hops[i].provider) }
    function Domains(): (r: seq<nat>) ensures |r| == |hops| { seq(|hops|, i requires 0 <= i < |hops| => hops[i].domain) }
    function Shares(): (r: seq<int>) ensures |r| == |hops| { seq(|hops|, i requires 0 <= i < |hops| => hops[i].share) }
  }

  /**
   `fund` names the pool's accounts in the books and `creator` sponsors its windows; `leases` are the windows' lease
   rows, and `usages` records which mandate covered which provider of which renewed window.
   */
  datatype Office = Office(
    fund: nat, creator: nat, pool: Pool, books: Journal.Books, leases: map<nat, RouteLease.Lease>, routes: map<nat, Path>,
    authorities: map<nat, Authority>, mandates: map<nat, Mandate>, runs: map<nat, Renewed>, usages: map<(nat, nat), nat>)

  // ---------------------------------------------------------------------------------------------
  // attempt

  /**
   Everything an attempt observes besides the office: `looks` is what each acceptance in turn sees, and `recorded` the
   clock when the new window's records are checked.
   */
  datatype Env = Env(
    now: int, paused: bool, disabled: bool, policyMatches: bool, supportUntil: int, demandBacked: bool, candidates: seq<nat>,
    supported: bool, normal: bool, routeReady: bool, openContracts: nat, offerExpires: int,
    looks: nat -> Acceptances.Look, recorded: int)

  datatype Status =
    | Missing | Standing(standing: Standing) | Paused | AuthorizerDisabled | WaitingForSupport | WaitingForWindow
    | WaitingForDemand | WaitingForAuthorizedSource | WaitingForFunds | WaitingForCapacity | WaitingForOperators
    | Aborted(why: string) | Refused(reply: RouteLease.Reply) | Done(source: Source, route: nat)

  datatype Choice = NoSource | Choose(source: Source)

  function ChooseSource(p: Pool, a: Authority, cost: int): Choice
  {
    if p.working >= cost && a.Limit(FromWorking) >= cost then Choose(FromWorking)
    else if p.working < cost && p.reserve >= cost && a.Limit(FromReserve) >= cost then Choose(FromReserve)
    else NoSource
  }

  predicate Covers(m: Mandate, route: nat, kind: Coverage, providers: set<nat>, until: int)
  {
    m.route == route && m.kind == kind && m.provider in providers && m.standing == Active
    && m.used < m.maxWindows && m.expires > until
  }

  function PathOf(o: Office, route: nat): Path { if route in o.routes then o.routes[route] else Path([]) }
  function Providers(o: Office, route: nat): set<nat> { set h | h in PathOf(o, route).hops :: h.provider }
  function AccountOf(o: Office, s: Source): Journal.Account
  {
    if s == FromWorking then Journal.PoolWorking(o.fund) else Journal.PoolReserve(o.fund)
  }

  function Covering(o: Office, route: nat, kind: Coverage, until: int): set<nat>
  {
    set m | m in o.mandates && Covers(o.mandates[m], route, kind, Providers(o, route), until)
  }

  datatype Pick = Nobody | Picked(route: nat)

  /** The first candidate whose distinct providers are all covered. */
  function Choosing(o: Office, candidates: seq<nat>, kind: Coverage, until: int): Pick
  {
    if candidates == [] then Nobody
    else if |Covering(o, candidates[0], kind, until)| == |Providers(o, candidates[0])| then Picked(candidates[0])
    else Choosing(o, candidates[1..], kind, until)
  }

  function StandingAfter(a: Authority, cost: int, source: Source): Standing
  {
    var working := a.working + if source == FromWorking then cost else 0;
    var reserve := a.reserve + if source == FromReserve then cost else 0;
    if a.used + 1 >= a.maxWindows || (a.maxWorking - working < cost && a.maxReserve - reserve < cost) then Exhausted else Active
  }

  /** The trigger on a new run: the counters grow, and an authority that cannot pay another window is exhausted. */
  function Consume(a: Authority, cost: int, source: Source): Authority
  {
    a.(used := a.used + 1, working := a.working + if source == FromWorking then cost else 0,
       reserve := a.reserve + if source == FromReserve then cost else 0, standing := StandingAfter(a, cost, source))
  }

  /** The trigger on a new usage. */
  function Use(m: Mandate): Mandate
  {
    m.(used := m.used + 1, standing := if m.used + 1 >= m.maxWindows then Exhausted else Active)
  }

  /** Recording one mandate's usage for a window. */
  function UseOne(o: Office, lease: nat, id: nat): Office
    requires id in o.mandates
  {
    o.(mandates := o.mandates[id := Use(o.mandates[id])], usages := o.usages[(lease, o.mandates[id].provider) := id])
  }

  function UseAll(o: Office, lease: nat, ids: seq<nat>): Office
    requires forall m :: m in ids ==> m in o.mandates
    decreases |ids|
  {
    if ids == [] then o else UseAll(UseOne(o, lease, ids[0]), lease, ids[1..])
  }

  function WithStanding(o: Office, id: nat, standing: Standing): Office
    requires id in o.authorities
  {
    o.(authorities := o.authorities[id := o.authorities[id].(standing := standing)])
  }

  /** The funded and accepted window and its run, before the mandates are used. */
  function Recorded(o: Office, id: nat, lease: nat, source: Source, route: nat, pool: Pool, deal: RouteLease.Deal): Office
    requires id in o.authorities && o.authorities[id].group in o.pool.groups
  {
    var a := o.authorities[id];
    var cost := o.pool.groups[a.group].Cost();
    o.(pool := pool, books := deal.books, leases := o.leases[lease := deal.lease],
       authorities := o.authorities[id := Consume(a, cost, source)],
       runs := o.runs[lease := Renewed(id, a.used + 1, source, cost, route)])
  }

  /** The providers of some mandates, in order. */
  function UsersOf(o: Office, ids: seq<nat>): (users: seq<nat>)
    requires forall m :: m in ids ==> m in o.mandates
    ensures |users| == |ids|
  {
    seq(|ids|, i requires 0 <= i < |ids| => o.mandates[ids[i]].provider)
  }

  /** The lease offer of a group's window on a route, funded from one of the pool's accounts. */
  ghost function OfferOf(o: Office, lease: nat, g: Group, source: Source, route: nat, env: Env): RouteLease.Offer
  {
    var path := PathOf(o, route);
    RouteLease.MakeOffer(o.books, lease, o.creator, AccountOf(o, source), g.duration, g.rate, env.offerExpires,
                         env.openContracts, env.routeReady, path.Providers(), path.Domains(), path.Shares())
  }

  /** Every provider whose mandate covers the window accepts its offer, in the order of the mandates. */
  ghost function Taking(o: Office, lease: nat, g: Group, source: Source, route: nat, covering: set<nat>, env: Env)
    : (RouteLease.Deal, RouteLease.Reply)
    requires OfferOf(o, lease, g, source, route, env).Made? && forall m :: m in covering ==> m in o.mandates
  {
    Acceptances.AcceptAll(OfferOf(o, lease, g, source, route, env).deal, UsersOf(o, Ascending(covering)), env.looks, 0, env.supportUntil)
  }

  /** What the triggers refuse about a mandate of a window that ends then. */
  predicate Outlived(m: Mandate, ends: int, recorded: int) { m.expires <= recorded || ends > m.expires }

  /** What becomes of an accepted window: the triggers check its lease, the authority and every mandate. */
  function Verdict(
    o: Office, a: Authority, covering: set<nat>, deal: RouteLease.Deal, accepted: RouteLease.Reply, recorded: int,
    source: Source, route: nat): Status
    requires forall m :: m in covering ==> m in o.mandates
  {
    if RouteLease.Refusal(accepted) then Refused(accepted)
    else if deal.lease.phase != RouteLease.Active || a.expires <= recorded || deal.lease.ends > a.expires then Aborted("authority")
    else if exists m :: m in covering && Outlived(o.mandates[m], deal.lease.ends, recorded) then Aborted("mandate")
    else Status.Done(source, route)
  }

  /** Opening the window: its funded offer, every mandated provider's acceptance, then the records that consume authority and mandates. */
  ghost function Renew(o: Office, id: nat, lease: nat, source: Source, route: nat, until: int, env: Env): (Office, Status)
    requires id in o.authorities && o.authorities[id].group in o.pool.groups && lease !in o.pool.windows
  {
    var a := o.authorities[id];
    var g := o.pool.groups[a.group];
    var offer := OfferOf(o, lease, g, source, route, env);
    var (pool, reply) := Offering(o.pool, lease, a.group, source, a.kind, env.supported, env.routeReady, env.normal, offer.Made?);
    var covering := Covering(o, route, a.kind, until);
    if reply != Reply.Done || offer.NoOffer? then (o, Aborted("offer"))
    else
      var (deal, accepted) := Taking(o, lease, g, source, route, covering, env);
      var status := Verdict(o, a, covering, deal, accepted, env.recorded, source, route);
      if !status.Done? then (o, status)
      else (UseAll(Recorded(o, id, lease, source, route, pool, deal), lease, Ascending(covering)), status)
  }

  /** Where the checks of an attempt lead: to an answer, to the end of the authority, or to a window on a route. */
  datatype Check = Stop(status: Status) | Lapse(standing: Standing) | Pass(source: Source, route: nat)

  /** The mandates and the authority must outlast this instant. */
  function Until(o: Office, a: Authority, env: Env): int
    requires a.group in o.pool.groups
  {
    env.now + (o.pool.groups[a.group].duration + 10) * 1000
  }

  function Checked(o: Office, a: Authority, env: Env): Check
  {
    if a.standing != Active then Stop(Standing(a.standing))
    else if a.expires <= env.now then Lapse(Expired)
    else if env.paused then Stop(Paused)
    else if env.disabled then Stop(AuthorizerDisabled)
    else if !env.policyMatches || a.group !in o.pool.groups then Stop(Aborted("pool_terms"))
    else
      var cost := o.pool.groups[a.group].Cost();
      var until := Until(o, a, env);
      if until >= a.expires || until >= env.supportUntil then Stop(WaitingForSupport)
      else if Occupied(o.pool, a.group, a.kind) then Stop(WaitingForWindow)
      else if a.used >= a.maxWindows || (a.Limit(FromWorking) < cost && a.Limit(FromReserve) < cost) then Lapse(Exhausted)
      else if a.kind == Expansion && !env.demandBacked then Stop(WaitingForDemand)
      else
        match ChooseSource(o.pool, a, cost)
        case NoSource => Stop(if o.pool.working >= cost || o.pool.reserve >= cost then WaitingForAuthorizedSource else WaitingForFunds)
        case Choose(source) =>
          if env.candidates == [] then Stop(WaitingForCapacity)
          else
            match Choosing(o, env.candidates, a.kind, until)
            case Nobody => Stop(WaitingForOperators)
            case Picked(route) => Pass(source, route)
  }

  ghost function Attempting(o: Office, id: nat, lease: nat, env: Env): (Office, Status)
    requires lease !in o.pool.windows
  {
    if id !in o.authorities then (o, Missing)
    else
      var a := o.authorities[id];
      match Checked(o, a, env)
      case Stop(status) => (o, status)
      case Lapse(standing) => (WithStanding(o, id, standing), Standing(standing))
      case Pass(source, route) => Renew(o, id, lease, source, route, Until(o, a, env), env)
  }

  // ---------------------------------------------------------------------------------------------
  // The invariant

  predicate AuthorityOk(a: Authority)
  {
    0 <= a.used <= a.maxWindows && 0 <= a.working <= a.maxWorking && 0 <= a.reserve <= a.maxReserve
  }

  function CountOf(id: nat): Renewed -> int { (r: Renewed) => if r.authority == id then 1 else 0 }

  function CommittedOf(id: nat, source: Source): Renewed -> int
  {
    (r: Renewed) => if r.authority == id && r.source == source then r.committed else 0
  }

  function UsesOf(id: nat): nat -> int { (m: nat) => if m == id then 1 else 0 }

  /** The counters are exactly what the recorded windows add up to, and within the limits. */
  ghost predicate AuthorityKept(o: Office, id: nat)
  {
    id in o.authorities ==>
      var a := o.authorities[id];
      && AuthorityOk(a) && a.used == Sum(o.runs, CountOf(id))
      && a.working == Sum(o.runs, CommittedOf(id, FromWorking)) && a.reserve == Sum(o.runs, CommittedOf(id, FromReserve))
  }

  ghost predicate MandateKept(o: Office, id: nat)
  {
    id in o.mandates ==> 0 <= o.mandates[id].used <= o.mandates[id].maxWindows && o.mandates[id].used == Sum(o.usages, UsesOf(id))
  }

  /** At most one active mandate of a provider for a route and kind. */
  predicate OneActive(o: Office, i: nat, j: nat)
  {
    (&& i in o.mandates && j in o.mandates && o.mandates[i].standing == Active && o.mandates[j].standing == Active
     && o.mandates[i].provider == o.mandates[j].provider && o.mandates[i].route == o.mandates[j].route
     && o.mandates[i].kind == o.mandates[j].kind) ==> i == j
  }

  /** The usage of a window by a provider names that provider's mandate for that route. */
  predicate UsageOk(o: Office, lease: nat, provider: nat)
  {
    (lease, provider) in o.usages ==>
      var m := o.usages[(lease, provider)];
      && lease in o.runs && m in o.mandates && o.mandates[m].provider == provider && o.mandates[m].route == o.runs[lease].route
      && provider in Providers(o, o.runs[lease].route)
  }

  /** The window's lease has been opened, accepted by exactly the providers of its route. */
  predicate TakenUp(o: Office, lease: nat, route: nat)
  {
    && lease in o.leases && o.leases[lease].id == lease && o.leases[lease].phase != RouteLease.Offered
    && o.leases[lease].accepted == Providers(o, route) == Acceptances.ProviderSet(o.leases[lease].members)
  }

  /** Every renewed window was funded from the source it names, opened, and covered by every distinct provider of its route. */
  predicate RunOk(o: Office, lease: nat)
  {
    lease in o.runs ==>
      var r := o.runs[lease];
      && lease in o.pool.windows && o.pool.windows[lease].budget == r.committed && o.pool.windows[lease].source == r.source
      && r.authority in o.authorities && 1 <= r.sequence <= o.authorities[r.authority].used
      && Providers(o, r.route) != {} && TakenUp(o, lease, r.route)
      && forall p :: p in Providers(o, r.route) ==> (lease, p) in o.usages
  }

  /** No authority numbers two windows alike. */
  predicate Numbered(o: Office, i: nat, j: nat)
  {
    (i in o.runs && j in o.runs && o.runs[i].authority == o.runs[j].authority && o.runs[i].sequence == o.runs[j].sequence) ==> i == j
  }

  /** The pool's rows say what its accounts hold, and every provider of a route has an account. */
  ghost predicate FundsOk(o: Office)
  {
    && Journal.BooksOk(o.books)
    && Journal.PoolWorking(o.fund) in o.books.accounts && Journal.PoolReserve(o.fund) in o.books.accounts
    && o.pool.working == o.books.Balance(Journal.PoolWorking(o.fund))
    && o.pool.reserve == o.books.Balance(Journal.PoolReserve(o.fund))
    && forall r, h :: r in o.routes && h in o.routes[r].hops ==> Journal.Available(h.provider) in o.books.accounts
  }

  ghost predicate OfficeOk(o: Office)
  {
    && PoolOk(o.pool) && FundsOk(o)
    && (forall id :: AuthorityKept(o, id))
    && (forall id :: MandateKept(o, id))
    && (forall i, j :: OneActive(o, i, j))
    && (forall lease, p :: UsageOk(o, lease, p))
    && (forall lease :: RunOk(o, lease))
    && (forall i, j :: Numbered(o, i, j))
  }
}
