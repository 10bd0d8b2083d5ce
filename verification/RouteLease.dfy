/**
 Funded windows of complete routes (apps/control-api/src/route-availability.ts).

 A `Deal` is one lease row with its member rows and the books its money moves in. Every transaction is one
 step; a refused transaction changes nothing.
 */
module RouteLease {
  import opened MapSums
  import opened Journal
  import Contracts

  const GAP := 6000

  datatype Phase = Offered | Active | Draining | Completed | Cancelled | Expired

  predicate Running(p: Phase) { p == Active || p == Draining }
  predicate Funded(p: Phase) { p == Offered || p == Active || p == Draining }

  datatype Member = Member(
    provider: nat, domain: nat, maximum: int, credited: int, paid: int, sampleReady: bool, epoch: int, withdrawn: bool)

  datatype Lease = Lease(
    id: nat, sponsor: nat, refundTo: Account, duration: int, budget: int, offerExpires: int,
    phase: Phase, members: seq<Member>, accepted: set<nat>,
    started: int, ends: int, sample: int, sampleReady: bool, paid: int, joint: int)
  {
    function Span(): int { duration * 1000 }
    predicate Provider(user: nat) { exists i :: 0 <= i < |members| && members[i].provider == user }
    predicate AllAccepted() { forall i :: 0 <= i < |members| ==> members[i].provider in accepted }
  }

  datatype Deal = Deal(lease: Lease, books: Books)

  /** What one look at the nodes shows: which are up (withdrawal aside), their boot epochs, and whether the route is intact. */
  datatype Sight = Sight(up: seq<bool>, epochs: seq<int>, intact: bool)

  predicate Covers(sight: Sight, members: seq<Member>) { |sight.up| == |members| == |sight.epochs| }

  predicate Ready(m: Member, up: bool) { up && !m.withdrawn }

  predicate Joint(members: seq<Member>, sight: Sight)
    requires Covers(sight, members)
  {
    sight.intact && |members| >= 2 && forall i :: 0 <= i < |members| ==> Ready(members[i], sight.up[i])
  }

  datatype Reply = Done | Missing | Terms | OfferExpired | DomainLeased | SupportWindow | RouteNotReady
                 | LeaseProjection | LedgerRefused(verdict: Verdict)

  predicate Refusal(r: Reply) { r != Done }

  function Max(a: int, b: int): int { if a <= b then b else a }
  function Min(a: int, b: int): int { if a <= b then a else b }

  // ---------------------------------------------------------------------------------------------
  // offerTransaction

  function NewMember(provider: nat, domain: nat, maximum: int): Member
  {
    Member(provider, domain, maximum, 0, 0, false, 0, false)
  }

  datatype Offer = NoOffer(why: string) | Made(deal: Deal)

  /** `providers`, `domains` and `shares` are the route's members in ordinal order. */
  ghost function MakeOffer(
    books: Books, id: nat, sponsor: nat, fundedBy: Account, duration: int, rate: int, expires: int,
    openContracts: nat, routeReady: bool, providers: seq<nat>, domains: seq<nat>, shares: seq<int>): Offer
    requires |providers| == |domains| == |shares|
  {
    var budget := rate * duration;
    if budget > Contracts.MAX_AMOUNT then NoOffer("amount_overflow")
    else if openContracts >= 4 then NoOffer("lease_limit")
    else if !routeReady then NoOffer("route_not_ready")
    else if !Contracts.Splittable(budget, shares) then NoOffer("invalid payout shares")
    else
      var maxima := Contracts.Parts(budget, shares);
      if exists i :: 0 <= i < |maxima| && maxima[i] <= 0 then NoOffer("lease_allocation")
      else
        var (after, verdict) := Posting(Open(books, Escrow(id)), FundKey(id), [(fundedBy, -budget), (Escrow(id), budget)]);
        if verdict != Posted && verdict != Replayed then NoOffer("ledger")
        else
          var members := seq(|shares|, i requires 0 <= i < |shares| => NewMember(providers[i], domains[i], maxima[i]));
          Made(Deal(Lease(id, sponsor, fundedBy, duration, budget, expires, Offered, members, {}, 0, 0, 0, false, 0, 0), after))
  }

  // ---------------------------------------------------------------------------------------------
  // acceptTransaction

  function Seen(m: Member, epoch: int): Member { m.(sampleReady := true, epoch := epoch) }

  function Activated(l: Lease, now: int, sight: Sight): Lease
    requires Covers(sight, l.members)
  {
    l.(phase := Active, started := now, ends := now + l.Span(), sample := now, sampleReady := true,
       members := seq(|l.members|, i requires 0 <= i < |l.members| => Seen(l.members[i], sight.epochs[i])))
  }

  /** Two clock readings: one against the offer's expiry, one for the start. */
  function Accept(
    d: Deal, user: nat, termsMatch: bool, checked: int, free: bool, now: int, supported: bool, sight: Sight): (Deal, Reply)
    requires Covers(sight, d.lease.members)
  {
    var l := d.lease;
    var prior := user in l.accepted;
    if !l.Provider(user) then (d, Missing)
    else if !termsMatch then (d, Terms)
    else if prior && l.phase != Offered then (d, Done)
    else if l.phase != Offered || l.offerExpires <= checked then (d, OfferExpired)
    else
      var agreed := l.(accepted := l.accepted + {user});
      if !agreed.AllAccepted() then (d.(lease := agreed), Done)
      else if !free then (d, DomainLeased)
      else if !supported then (d, SupportWindow)
      else if !Joint(l.members, sight) then (d, RouteNotReady)
      else (d.(lease := Activated(agreed, now, sight)), Done)
  }

  // ---------------------------------------------------------------------------------------------
  // advance and close

  predicate Valid(l: Lease, m: Member, now: int, up: bool, epoch: int)
  {
    now - l.sample <= GAP && m.sampleReady && Ready(m, up) && m.epoch == epoch
  }

  function Until(l: Lease, now: int): int { Max(l.sample, Min(now, l.ends)) }

  function Earned(l: Lease, credited: int, maximum: int): int
    requires 0 < l.duration
  {
    credited * maximum / l.Span()
  }

  function Sampled(l: Lease, m: Member, now: int, up: bool, epoch: int): Member
    requires 0 < l.duration
  {
    var credited := m.credited + if Valid(l, m, now, up, epoch) then Until(l, now) - l.sample else 0;
    m.(credited := credited, paid := Earned(l, credited, m.maximum), sampleReady := Ready(m, up), epoch := epoch)
  }

  function SampledAll(l: Lease, now: int, sight: Sight): seq<Member>
    requires 0 < l.duration && Covers(sight, l.members)
  {
    seq(|l.members|, i requires 0 <= i < |l.members| => Sampled(l, l.members[i], now, sight.up[i], sight.epochs[i]))
  }

  predicate AllValid(l: Lease, now: int, sight: Sight)
    requires Covers(sight, l.members)
  {
    && l.sampleReady && Joint(l.members, sight) && now - l.sample <= GAP
    && forall i :: 0 <= i < |l.members| ==> Valid(l, l.members[i], now, sight.up[i], sight.epochs[i])
  }

  function PaidBy(members: seq<Member>): int
  {
    if members == [] then 0 else PaidBy(members[..|members| - 1]) + members[|members| - 1].paid
  }

  /** One line for every member that earned something. */
  function PayLines(before: seq<Member>, after: seq<Member>): Entries
    requires |before| == |after|
  {
    if before == [] then []
    else
      var n := |before| - 1;
      PayLines(before[..n], after[..n])
      + if after[n].paid > before[n].paid then [(Available(after[n].provider), after[n].paid - before[n].paid)] else []
  }

  predicate Consistent(before: Member, after: Member) { before.paid <= after.paid <= after.maximum }

  function Observed(l: Lease, now: int, sight: Sight): Lease
    requires 0 < l.duration && Covers(sight, l.members)
  {
    var members := SampledAll(l, now, sight);
    l.(members := members,
       phase := if Joint(l.members, sight) then l.phase else Draining,
       paid := PaidBy(members),
       joint := l.joint + if AllValid(l, now, sight) then Until(l, now) - l.sample else 0,
       sample := Until(l, now),
       sampleReady := Joint(l.members, sight))
  }

  ghost function Close(d: Deal, phase: Phase, paid: int): (Deal, Reply)
  {
    var l := d.lease;
    var closed := l.(phase := phase, sampleReady := false);
    var remaining := l.budget - paid;
    if remaining <= 0 then (d.(lease := closed), Done)
    else
      var (books, verdict) := Posting(d.books, RefundKey(l.id), [(Escrow(l.id), -remaining), (l.refundTo, remaining)]);
      if verdict == Posted || verdict == Replayed then (Deal(closed, books), Done) else (d, LedgerRefused(verdict))
  }

  ghost function Pay(d: Deal, after: Lease): (Deal, Reply)
    requires |after.members| == |d.lease.members|
  {
    var delta := after.paid - d.lease.paid;
    if delta <= 0 then (Deal(after, d.books), Done)
    else
      var lines := PayLines(d.lease.members, after.members) + [(Escrow(d.lease.id), -delta)];
      var (books, verdict) := Posting(d.books, PayKey(d.lease.id, after.paid), lines);
      if verdict == Posted || verdict == Replayed then (Deal(after, books), Done) else (d, LedgerRefused(verdict))
  }

  ghost function Advance(d: Deal, now: int, sight: Sight): (Deal, Reply)
    requires 0 < d.lease.duration && Covers(sight, d.lease.members)
  {
    var l := d.lease;
    if l.phase == Offered then
      if now >= l.offerExpires then Close(d, Expired, 0) else (d, Done)
    else if now < l.sample then (d, Done)
    else
      var after := Observed(l, now, sight);
      if exists i :: 0 <= i < |l.members| && !Consistent(l.members[i], after.members[i]) then (d, LeaseProjection)
      else
        var (paid, reply) := Pay(d, after);
        if Refusal(reply) then (d, reply)
        else if now >= l.ends then
          var (closed, end) := Close(paid, Completed, after.paid);
          if Refusal(end) then (d, end) else (closed, Done)
        else (paid, Done)
  }

  // ---------------------------------------------------------------------------------------------
  // cancel

  function Withdraw(m: Member, user: nat): Member
  {
    if m.provider == user && !m.withdrawn then m.(withdrawn := true, sampleReady := false) else m
  }

  /** An exiting provider gives up only its own future earnings; anyone else only stops the renewal. */
  function Drained(l: Lease, user: nat): Lease
  {
    l.(phase := Draining, sampleReady := false,
       members := seq(|l.members|, i requires 0 <= i < |l.members| => Withdraw(l.members[i], user)))
  }

  ghost function Cancel(d: Deal, user: nat, admin: bool, now: int, sight: Sight): (Deal, Reply)
    requires 0 < d.lease.duration && Covers(sight, d.lease.members)
  {
    var l := d.lease;
    if !(l.sponsor == user || admin || l.Provider(user)) then (d, Missing)
    else if l.phase == Offered then Close(d, Cancelled, l.paid)
    else if !Running(l.phase) then (d, Done)
    else
      var (advanced, reply) := Advance(d, now, sight);
      if Refusal(reply) then (d, reply)
      else if !Running(advanced.lease.phase) then (advanced, Done)
      else (advanced.(lease := Drained(advanced.lease, user)), Done)
  }

  /** Reconciling skips closed leases. */
  ghost function Reconcile(d: Deal, now: int, sight: Sight): (Deal, Reply)
    requires 0 < d.lease.duration && Covers(sight, d.lease.members)
  {
    if Funded(d.lease.phase) then Advance(d, now, sight) else (d, Done)
  }

  // ---------------------------------------------------------------------------------------------
  // Runs

  datatype Action =
    | DoAccept(user: nat, termsMatch: bool, checked: int, free: bool, now: int, supported: bool, sight: Sight)
    | DoReconcile(now: int, sight: Sight)
    | DoCancel(user: nat, admin: bool, now: int, sight: Sight)
    | Elsewhere(books: Books)

  /** Postings of everyone else: they use neither this escrow nor the keys of this lease, and the journal only grows. */
  ghost predicate Foreign(id: nat, before: Books, after: Books)
  {
    && BooksOk(after)
    && (forall a :: a in before.accounts ==> a in after.accounts)
    && after.Balance(Escrow(id)) == before.Balance(Escrow(id))
    && (forall p :: PayKey(id, p) in after.journal <==> PayKey(id, p) in before.journal)
    && (RefundKey(id) in after.journal <==> RefundKey(id) in before.journal)
    && (forall k :: k in before.journal ==> k in after.journal && after.journal[k] == before.journal[k])
  }

  ghost predicate Possible(d: Deal, action: Action)
  {
    match action
    case DoAccept(_, _, _, _, _, _, sight) => Covers(sight, d.lease.members)
    case DoReconcile(_, sight) => Covers(sight, d.lease.members)
    case DoCancel(_, _, _, sight) => Covers(sight, d.lease.members)
    case Elsewhere(books) => Foreign(d.lease.id, d.books, books)
  }

  ghost function Step(d: Deal, action: Action): (Deal, Reply)
    requires 0 < d.lease.duration && Possible(d, action)
  {
    match action
    case DoAccept(user, termsMatch, checked, free, now, supported, sight) =>
      Accept(d, user, termsMatch, checked, free, now, supported, sight)
    case DoReconcile(now, sight) => Reconcile(d, now, sight)
    case DoCancel(user, admin, now, sight) => Cancel(d, user, admin, now, sight)
    case Elsewhere(books) => (d.(books := books), Done)
  }
}
