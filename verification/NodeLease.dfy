/** Funded windows of single nodes (apps/control-api/src/availability.ts). */
module NodeLease {
  import opened Quotients
  import opened MapSums
  import opened Journal
  import opened Postings
  import Contracts
  import RouteLease

  const GAP := 6000

  datatype Phase = Offered | Active | Completed | Cancelled | Expired

  datatype Lease = Lease(
    id: nat, sponsor: nat, provider: nat, duration: int, rate: int, offerExpires: int, phase: Phase,
    started: int, ends: int, sample: int, sampleReady: bool, epoch: int, credited: int, paid: int)
  {
    function Budget(): int { rate * duration }
    predicate Open() { phase == Offered || phase == Active }
  }

  datatype Deal = Deal(lease: Lease, books: Books)

  /** The node as seen now, if it still exists. */
  datatype Sight = Gone | Seen(ready: bool, epoch: int)

  datatype Reply = Done | LedgerRefused(verdict: Verdict)

  predicate Valid(l: Lease, now: int, sight: Sight)
  {
    l.sampleReady && sight.Seen? && sight.ready && l.epoch == sight.epoch && now - l.sample <= GAP
  }

  function Until(l: Lease, now: int): int { RouteLease.Max(l.sample, RouteLease.Min(now, l.ends)) }

  function Earned(l: Lease, credited: int): int { credited * l.rate / 1000 }

  /** Unlike a complete route's, a backwards clock is not skipped here: it credits an empty interval. */
  function Observed(l: Lease, now: int, sight: Sight): Lease
  {
    var credited := l.credited + if Valid(l, now, sight) then Until(l, now) - l.sample else 0;
    l.(sample := Until(l, now), sampleReady := sight.Seen? && sight.ready,
       epoch := if sight.Seen? then sight.epoch else l.epoch, credited := credited,
       paid := RouteLease.Max(l.paid, Earned(l, credited)))
  }

  ghost function Pay(d: Deal, after: Lease): (Deal, Reply)
  {
    var l := d.lease;
    if after.paid <= l.paid then (Deal(after, d.books), Done)
    else
      var lines := [(Escrow(l.id), l.paid - after.paid), (Available(l.provider), after.paid - l.paid)];
      var (books, verdict) := Posting(d.books, PayKey(l.id, after.credited), lines);
      if verdict == Posted || verdict == Replayed then (Deal(after, books), Done) else (d, LedgerRefused(verdict))
  }

  ghost function Close(d: Deal, phase: Phase): (Deal, Reply)
  {
    var l := d.lease;
    var closed := l.(phase := phase, sampleReady := false);
    var remaining := l.Budget() - l.paid;
    if remaining <= 0 then (d.(lease := closed), Done)
    else
      var (books, verdict) := Posting(d.books, RefundKey(l.id), [(Escrow(l.id), -remaining), (Available(l.sponsor), remaining)]);
      if verdict == Posted || verdict == Replayed then (Deal(closed, books), Done) else (d, LedgerRefused(verdict))
  }

  ghost function Advancing(d: Deal, now: int, sight: Sight, cancel: bool): (Deal, Reply)
  {
    var l := d.lease;
    var (paid, reply) := if l.phase == Active then Pay(d, Observed(l, now, sight)) else (d, Done);
    var ended := l.phase == Active && now >= l.ends;
    var expired := l.phase == Offered && now >= l.offerExpires;
    if reply != Done then (d, reply)
    else if !(cancel || ended || expired) then (paid, Done)
    else
      var (closed, end) := Close(paid, if cancel then Cancelled else if ended then Completed else Expired);
      if end != Done then (d, end) else (closed, Done)
  }

  function Accepted(l: Lease, now: int, epoch: int): Lease
  {
    l.(phase := Active, started := now, ends := now + l.duration * 1000, sample := now, sampleReady := true, epoch := epoch)
  }

  datatype Offer = NoOffer(why: string) | Made(deal: Deal)

  /** `offer`: the whole budget goes into an escrow of its own. */
  ghost function MakeOffer(
    books: Books, id: nat, sponsor: nat, provider: nat, duration: int, rate: int, expires: int,
    openContracts: nat, available: bool): Offer
  {
    var budget := rate * duration;
    if budget > Contracts.MAX_AMOUNT then NoOffer("amount_overflow")
    else if openContracts >= 4 then NoOffer("lease_limit")
    else if !available then NoOffer("node_unavailable")
    else
      var (after, verdict) := Posting(Open(books, Escrow(id)), FundKey(id), [(Available(sponsor), -budget), (Escrow(id), budget)]);
      if verdict != Posted && verdict != Replayed then NoOffer("ledger")
      else Made(Deal(Lease(id, sponsor, provider, duration, rate, expires, Offered, 0, 0, 0, false, 0, 0, 0), after))
  }

  datatype Outcome = Fine | Missing | OfferExpired | DomainLeased | NodeNotReady | Failed(reply: Reply)

  /** `accept`: one clock reading against the offer's expiry, one for the start. */
  function Accepting(d: Deal, user: nat, checked: int, free: bool, now: int, sight: Sight): (Deal, Outcome)
  {
    var l := d.lease;
    if l.provider != user then (d, Missing)
    else if l.phase == Active then (d, Fine)
    else if l.phase != Offered || l.offerExpires <= checked then (d, OfferExpired)
    else if !free then (d, DomainLeased)
    else if !sight.Seen? || !sight.ready then (d, NodeNotReady)
    else (d.(lease := Accepted(l, now, sight.epoch)), Fine)
  }

  ghost function Advanced(d: Deal, now: int, sight: Sight, cancel: bool): (Deal, Outcome)
  {
    if !d.lease.Open() then (d, Fine)
    else
      var (after, reply) := Advancing(d, now, sight, cancel);
      if reply == Done then (after, Fine) else (d, Failed(reply))
  }

  /** `cancel`: by the sponsor, the provider or an administrator. */
  ghost function Cancelling(d: Deal, user: nat, admin: bool, now: int, sight: Sight): (Deal, Outcome)
  {
    if !(d.lease.sponsor == user || d.lease.provider == user || admin) then (d, Missing) else Advanced(d, now, sight, true)
  }

  // ---------------------------------------------------------------------------------------------
  // The invariant

  predicate LeaseOk(l: Lease)
  {
    && 0 < l.duration && 0 < l.rate && l.Budget() <= Contracts.MAX_AMOUNT
    && 0 <= l.credited <= l.sample - l.started <= l.duration * 1000
    && l.paid == Earned(l, l.credited)
    && (l.phase == Active ==> l.ends == l.started + l.duration * 1000)
    && (l.phase == Offered ==> l.sample == l.started)
  }

  ghost predicate DealOk(d: Deal)
  {
    var l := d.lease;
    && LeaseOk(l) && BooksOk(d.books)
    && d.books.Balance(Escrow(l.id)) == (if l.Open() then l.Budget() - l.paid else 0)
    && (forall c :: PayKey(l.id, c) in d.books.journal ==> c <= l.credited)
    && (RefundKey(l.id) in d.books.journal ==> !l.Open())
    && Escrow(l.id) in d.books.accounts
    && Available(l.provider) in d.books.accounts && Available(l.sponsor) in d.books.accounts
  }

  lemma EarnedWithinBudget(l: Lease, credited: int, more: int)
    requires 0 < l.duration && 0 < l.rate && 0 <= credited <= more <= l.duration * 1000
    ensures 0 <= Earned(l, credited) <= Earned(l, more) <= l.Budget()
  {
    Product(l.rate, 0, credited);
    Product(l.rate, credited, more);
    Product(l.rate, more, l.duration * 1000);
    QuotientGrows(0, credited * l.rate, 1000);
    QuotientGrows(credited * l.rate, more * l.rate, 1000);
    QuotientGrows(more * l.rate, l.duration * 1000 * l.rate, 1000);
    assert l.duration * 1000 * l.rate == 1000 * l.Budget();
    Unique(1000 * l.Budget(), 1000, l.Budget());
  }

  lemma ObservedOk(l: Lease, now: int, sight: Sight)
    requires LeaseOk(l) && l.phase == Active
    ensures var after := Observed(l, now, sight);
            LeaseOk(after) && l.paid <= after.paid <= l.Budget() && (l.paid < after.paid ==> l.credited < after.credited)
  {
    EarnedWithinBudget(l, l.credited, Observed(l, now, sight).credited);
  }

  /** A transfer of the escrow to one account. */
  lemma Transfer(books: Books, key: Key, id: nat, amount: int, payee: Account)
    requires BooksOk(books) && key !in books.journal && payee in books.accounts && payee != Escrow(id)
    requires 0 < amount <= Contracts.MAX_AMOUNT && amount <= books.Balance(Escrow(id)) && Escrow(id) in books.accounts
    ensures var (after, verdict) := Posting(books, key, [(Escrow(id), -amount), (payee, amount)]);
            && verdict == Posted && BooksOk(after)
            && after.Balance(Escrow(id)) == books.Balance(Escrow(id)) - amount
            && (forall a :: a != Escrow(id) ==> after.Balance(a) == books.Balance(a) + if a == payee then amount else 0)
            && after.journal.Keys == books.journal.Keys + {key} && after.accounts.Keys == books.accounts.Keys
  {
    hide BooksOk, Posting, Value, Total;
    var out, back := (Escrow(id), -amount), (payee, amount);
    forall a
      ensures Value([out, back], a) == (if a == Escrow(id) then -amount else if a == payee then amount else 0)
    {
      OneLine(out.0, out.1, a);
      OneLine(back.0, back.1, a);
      ValueJoin([out], [back], a);
      assert [out] + [back] == [out, back];
    }
    OneLine(out.0, out.1, payee);
    OneLine(back.0, back.1, payee);
    ValueJoin([out], [back], payee);
    assert [out] + [back] == [out, back];
    AccountPays(books, key, [out, back], Escrow(id), amount, payee);
    forall a | a != Escrow(id)
      ensures Posting(books, key, [out, back]).0.Balance(a) == books.Balance(a) + if a == payee then amount else 0
    {
      PostMovesExactly(books, key, [out, back], a);
    }
  }

  /** What a step pays an account: the provider's gain, and on closing what was not paid to the sponsor. */
  function Paid(before: Lease, after: Lease, a: Account): int
  {
    (if a == Available(before.provider) then after.paid - before.paid else 0)
    + (if a == Available(before.sponsor) && before.Open() && !after.Open() then before.Budget() - after.paid else 0)
  }

  lemma PayKeeps(d: Deal, now: int, sight: Sight)
    requires DealOk(d) && d.lease.phase == Active
    ensures var (paid, reply) := Pay(d, Observed(d.lease, now, sight));
            && reply == Done && DealOk(paid) && paid.lease == Observed(d.lease, now, sight)
            && forall a :: a != Escrow(d.lease.id) ==>
                 paid.books.Balance(a) == d.books.Balance(a) + Paid(d.lease, paid.lease, a)
  {
    hide BooksOk, Posting, LeaseOk, Earned;
    var l := d.lease;
    var after := Observed(l, now, sight);
    ObservedOk(l, now, sight);
    Facts(l);
    if after.paid > l.paid { Transfer(d.books, PayKey(l.id, after.credited), l.id, after.paid - l.paid, Available(l.provider)); }
  }

  lemma Facts(l: Lease)
    requires LeaseOk(l)
    ensures 0 <= l.paid <= l.Budget() <= Contracts.MAX_AMOUNT
  {
    EarnedWithinBudget(l, l.credited, l.credited);
  }

  lemma CloseKeeps(d: Deal, phase: Phase)
    requires DealOk(d) && d.lease.Open() && phase != Offered && phase != Active
    ensures var (closed, reply) := Close(d, phase);
            && reply == Done && DealOk(closed) && closed.lease == d.lease.(phase := phase, sampleReady := false)
            && forall a :: a != Escrow(d.lease.id) ==>
                 closed.books.Balance(a) == d.books.Balance(a) + Paid(d.lease, closed.lease, a)
  {
    hide BooksOk, Posting;
    var l := d.lease;
    Facts(l);
    if l.paid < l.Budget() { Transfer(d.books, RefundKey(l.id), l.id, l.Budget() - l.paid, Available(l.sponsor)); }
  }

  /** How far into the lease a look now goes. */
  function LookedUntil(l: Lease, now: int): int
  {
    if now <= l.sample then l.sample else if now <= l.ends then now else l.ends
  }

  /** The time a look earns: all of it since the last one, when both were ready, in one boot and within six seconds. */
  function Credit(l: Lease, now: int, sight: Sight): int
  {
    if l.phase == Active && l.sampleReady && sight == Seen(true, l.epoch) && now - l.sample <= 6000
    then LookedUntil(l, now) - l.sample else 0
  }

  lemma ObservedIs(l: Lease, now: int, sight: Sight)
    requires LeaseOk(l) && l.phase == Active
    ensures var r := Observed(l, now, sight);
            && r.credited == l.credited + Credit(l, now, sight) && r.sample == LookedUntil(l, now)
            && r.sampleReady == (sight.Seen? && sight.ready) && (sight.Seen? ==> r.epoch == sight.epoch) && r.phase == l.phase
            && r.started == l.started && r.provider == l.provider && r.sponsor == l.sponsor && r.id == l.id
            && r.Budget() == l.Budget()
  {
    hide Earned;
  }

  /**
   Every sample and every cancellation of an open lease succeeds and keeps: the escrow is the unpaid budget while the
   lease is open and nothing afterwards, the pay is the exact rate of the credited time, and each payment has a new key.
   Time is credited exactly between two ready looks of one boot at most six seconds apart, the provider's account gains
   exactly what the pay grew, the sponsor's exactly what closing returns, and no other account changes.
   */
  lemma AdvanceKeeps(d: Deal, now: int, sight: Sight, cancel: bool)
    requires DealOk(d) && d.lease.Open()
    ensures var (after, reply) := Advancing(d, now, sight, cancel);
            && reply == Done && DealOk(after)
            && d.lease.sample <= after.lease.sample && after.lease.started == d.lease.started
            && (after.lease.credited == d.lease.credited
                || after.lease.credited == d.lease.credited + (after.lease.sample - d.lease.sample))
            && (now < d.lease.sample ==> after.lease.credited == d.lease.credited)
            && after.lease.credited == d.lease.credited + Credit(d.lease, now, sight)
            && (d.lease.phase == Active ==> after.lease.sample == LookedUntil(d.lease, now))
            && after.lease.phase == (if cancel then Cancelled
                                     else if d.lease.phase == Active && d.lease.ends <= now then Completed
                                     else if d.lease.phase == Offered && d.lease.offerExpires <= now then Expired
                                     else d.lease.phase)
            && (d.lease.phase == Active ==>
                  after.lease.sampleReady == (after.lease.phase == Active && sight.Seen? && sight.ready))
            && (d.lease.phase == Active && sight.Seen? ==> after.lease.epoch == sight.epoch)
            && forall a :: a != Escrow(d.lease.id) ==>
                 after.books.Balance(a) == d.books.Balance(a) + Paid(d.lease, after.lease, a)
  {
    hide BooksOk, Posting, LeaseOk, Earned, Pay, Close, Observed, Credit, LookedUntil;
    if d.lease.phase == Active { PayKeeps(d, now, sight); ObservedOk(d.lease, now, sight); ObservedIs(d.lease, now, sight); }
    CreditBounds(d.lease, now, sight);
    var paid := if d.lease.phase == Active then Pay(d, Observed(d.lease, now, sight)).0 else d;
    CloseKeeps(paid, if cancel then Cancelled else if d.lease.phase == Active && now >= d.lease.ends then Completed else Expired);
  }

  lemma CreditBounds(l: Lease, now: int, sight: Sight)
    requires LeaseOk(l)
    ensures 0 <= Credit(l, now, sight) && (Credit(l, now, sight) > 0 ==> l.sample < now)
    ensures Credit(l, now, sight) > 0 ==>
              && l.phase == Active && l.sampleReady && now - l.sample <= 6000 && sight == Seen(true, l.epoch)
              && Credit(l, now, sight) == LookedUntil(l, now) - l.sample
    ensures l.phase == Active ==> l.sample <= LookedUntil(l, now)
  {
  }

  lemma AcceptKeeps(d: Deal, now: int, epoch: int)
    requires DealOk(d) && d.lease.phase == Offered
    ensures DealOk(d.(lease := Accepted(d.lease, now, epoch)))
  {
    hide BooksOk;
    EarnedWithinBudget(d.lease, 0, 0);
  }

  // ---------------------------------------------------------------------------------------------
  // The row itself

  class Row {
    var lease: Lease
    const ledger: Ledger

    function View(): Deal
      reads this, ledger
    {
      Deal(lease, ledger.View())
    }

    constructor (lease: Lease, ledger: Ledger)
      ensures this.lease == lease && this.ledger == ledger
    {
      this.lease, this.ledger := lease, ledger;
    }

    /** The provider takes the offer. */
    method Accept(user: nat, checked: int, free: bool, now: int, sight: Sight) returns (outcome: Outcome)
      modifies this
      ensures (View(), outcome) == Accepting(old(View()), user, checked, free, now, sight)
    {
      if lease.provider != user {
        return Missing;
      }
      if lease.phase == Active {
        return Fine;
      }
      if lease.phase != Offered || lease.offerExpires <= checked {
        return OfferExpired;
      }
      if !free {
        return DomainLeased;
      }
      if !sight.Seen? || !sight.ready {
        return NodeNotReady;
      }
      lease := lease.(phase := Active, started := now, ends := now + lease.duration * 1000, sample := now, sampleReady := true,
                      epoch := sight.epoch);
      outcome := Fine;
    }

    /** The sponsor, the provider or an administrator ends an open lease. */
    method Cancel(user: nat, admin: bool, now: int, sight: Sight) returns (outcome: Outcome)
      requires DealOk(View())
      modifies this, ledger
      ensures (View(), outcome) == Cancelling(old(View()), user, admin, now, sight) && DealOk(View())
    {
      hide DealOk, Advancing;
      if !(lease.sponsor == user || lease.provider == user || admin) {
        return Missing;
      }
      if lease.Open() {
        AdvanceKeeps(View(), now, sight, true);
        var reply := Advance(now, sight, true);
      }
      outcome := Fine;
    }

    /** One observation, and the end of the lease when it is cancelled, over or expired. */
    method Advance(now: int, sight: Sight, cancel: bool) returns (reply: Reply)
      requires DealOk(View()) && lease.Open()
      modifies this, ledger
      ensures reply == Done && View() == Advancing(old(View()), now, sight, cancel).0 && DealOk(View())
    {
      hide BooksOk, Posting, LeaseOk, Earned, DealOk;
      AdvanceKeeps(View(), now, sight, cancel);
      var was := lease;
      var paid, credited := lease.paid, lease.credited;
      if was.phase == Active {
        PayKeeps(View(), now, sight);
        var until := Until(lease, now);
        if Valid(lease, now, sight) {
          credited := credited + (until - lease.sample);
        }
        var total := Earned(lease, credited);
        if total > paid {
          var verdict := ledger.Post(PayKey(lease.id, credited), [(Escrow(lease.id), paid - total), (Available(lease.provider), total - paid)]);
          assert verdict == Posted || verdict == Replayed;
          paid := total;
        }
        lease := lease.(sample := until, sampleReady := sight.Seen? && sight.ready,
                        epoch := if sight.Seen? then sight.epoch else lease.epoch, credited := credited, paid := paid);
      }
      var ended := was.phase == Active && now >= was.ends;
      var expired := was.phase == Offered && now >= was.offerExpires;
      if cancel || ended || expired {
        var phase := if cancel then Cancelled else if ended then Completed else Expired;
        CloseKeeps(View(), phase);
        var remaining := lease.Budget() - paid;
        if remaining > 0 {
          var verdict := ledger.Post(RefundKey(lease.id), [(Escrow(lease.id), -remaining), (Available(lease.sponsor), remaining)]);
          assert verdict == Posted || verdict == Replayed;
        }
        lease := lease.(phase := phase, sampleReady := false);
      }
      reply := Done;
    }
  }
}
