/** Main results about funded windows of single nodes, over every run of acceptances, samples, cancellations and outside postings. */
module NodeLeaseRuns {
  import opened MapSums
  import opened Quotients
  import opened Journal
  import opened Postings
  import opened NodeLease
  import Contracts
  import LeaseCredits
  import LeaseRuns
  import RouteLease

  // ---------------------------------------------------------------------------------------------
  // The offer

  /** Nothing was ever recorded under this lease's identifier, and both parties have an account. */
  ghost predicate Unused(books: Books, id: nat, sponsor: nat, provider: nat)
  {
    && BooksOk(books) && Escrow(id) !in books.accounts
    && Available(sponsor) in books.accounts && Available(provider) in books.accounts
    && FundKey(id) !in books.journal && RefundKey(id) !in books.journal && forall c :: PayKey(id, c) !in books.journal
  }

  /** Every offer that is made escrows its whole budget, from the sponsor alone. */
  lemma OfferKeeps(
    books: Books, id: nat, sponsor: nat, provider: nat, duration: int, rate: int, expires: int,
    openContracts: nat, available: bool)
    requires 0 < duration && 0 < rate && Unused(books, id, sponsor, provider)
    ensures var offer := MakeOffer(books, id, sponsor, provider, duration, rate, expires, openContracts, available);
            offer.Made? ==>
              && DealOk(offer.deal) && offer.deal.lease.phase == Offered && offer.deal.lease.Budget() == rate * duration
              && offer.deal.books.Balance(Available(sponsor)) == books.Balance(Available(sponsor)) - rate * duration
              && forall a :: a != Available(sponsor) && a != Escrow(id) ==> offer.deal.books.Balance(a) == books.Balance(a)
  {
    hide Posting, BooksOk;
    OpenKeeps(books, Escrow(id));
    LeaseRuns.FundingMoves(Open(books, Escrow(id)), id, Available(sponsor), rate * duration);
  }

  // ---------------------------------------------------------------------------------------------
  // Runs

  datatype Action =
    | DoAccept(user: nat, checked: int, free: bool, now: int, sight: Sight)
    | DoReconcile(now: int, sight: Sight)
    | DoCancel(user: nat, admin: bool, now: int, sight: Sight)
    | Elsewhere(books: Books)

  ghost predicate Possible(d: Deal, action: Action)
  {
    action.Elsewhere? ==> RouteLease.Foreign(d.lease.id, d.books, action.books)
  }

  ghost function Step(d: Deal, action: Action): (Deal, Outcome)
  {
    match action
    case DoAccept(user, checked, free, now, sight) => Accepting(d, user, checked, free, now, sight)
    case DoReconcile(now, sight) => Advanced(d, now, sight, false)
    case DoCancel(user, admin, now, sight) => Cancelling(d, user, admin, now, sight)
    case Elsewhere(books) => (d.(books := books), Fine)
  }

  /** d leads to e by the given steps, each of which was possible when it was taken. */
  ghost predicate Leads(d: Deal, actions: seq<Action>, e: Deal)
    decreases |actions|
  {
    if actions == [] then e == d else Possible(d, actions[0]) && Leads(Step(d, actions[0]).0, actions[1..], e)
  }

  /** The same lease, later. */
  predicate Later(l: Lease, m: Lease)
  {
    && m.id == l.id && m.sponsor == l.sponsor && m.provider == l.provider && m.duration == l.duration && m.rate == l.rate
    && l.credited <= m.credited && l.paid <= m.paid && (!l.Open() ==> m == l)
    && (l.phase == Active ==> m.phase != Offered && m.started == l.started && l.sample <= m.sample)
  }

  /** What of an account this step changed itself. */
  ghost function Gained(d: Deal, action: Action, a: Account): int
  {
    if action.Elsewhere? then 0 else Step(d, action).0.books.Balance(a) - d.books.Balance(a)
  }

  /** Every step keeps the invariant and none fails inside; it pays the provider what the pay grew and the sponsor what closing returns. */
  lemma StepKeeps(d: Deal, action: Action)
    requires DealOk(d) && Possible(d, action)
    ensures var (e, outcome) := Step(d, action);
            && DealOk(e) && !outcome.Failed? && Later(d.lease, e.lease)
            && forall a :: a != Escrow(d.lease.id) ==> Gained(d, action, a) == Paid(d.lease, e.lease, a)
  {
    hide BooksOk, LeaseOk, Advancing, Accepted;
    match action
    case DoAccept(user, checked, free, now, sight) =>
      if d.lease.phase == Offered && sight.Seen? { AcceptKeeps(d, now, sight.epoch); AcceptedLater(d.lease, now, sight.epoch); }
    case DoReconcile(now, sight) => if d.lease.Open() { AdvanceKeeps(d, now, sight, false); AdvanceLater(d, now, sight, false); }
    case DoCancel(user, admin, now, sight) => if d.lease.Open() { AdvanceKeeps(d, now, sight, true); AdvanceLater(d, now, sight, true); }
    case Elsewhere(books) =>
  }

  lemma AcceptedLater(l: Lease, now: int, epoch: int)
    requires l.phase == Offered
    ensures Later(l, Accepted(l, now, epoch)) && Accepted(l, now, epoch).Open()
    ensures Accepted(l, now, epoch).paid == l.paid
  {
  }

  lemma AdvanceLater(d: Deal, now: int, sight: Sight, cancel: bool)
    requires DealOk(d) && d.lease.Open()
    ensures Later(d.lease, Advancing(d, now, sight, cancel).0.lease)
  {
    hide BooksOk, Posting, LeaseOk, Earned, Pay, Close;
    AdvanceKeeps(d, now, sight, cancel);
    if d.lease.phase == Active { PayKeeps(d, now, sight); ObservedOk(d.lease, now, sight); }
    var paid := if d.lease.phase == Active then Pay(d, Observed(d.lease, now, sight)).0 else d;
    CloseKeeps(paid, if cancel then Cancelled else if d.lease.phase == Active && now >= d.lease.ends then Completed else Expired);
  }

  /** What this lease's own steps changed of an account along a run. */
  ghost function GainedBy(d: Deal, actions: seq<Action>, a: Account): int
    decreases |actions|
  {
    if actions == [] then 0 else Gained(d, actions[0], a) + GainedBy(Step(d, actions[0]).0, actions[1..], a)
  }

  lemma PaidTwice(l: Lease, m: Lease, n: Lease, a: Account)
    requires Later(l, m) && Later(m, n)
    ensures Later(l, n) && Paid(l, m, a) + Paid(m, n, a) == Paid(l, n, a)
  {
    assert n.Budget() == m.Budget() == l.Budget();
  }

  /**
   Main result: in every run the escrow holds the unpaid budget while the lease is open and nothing afterwards, the pay
   is the exact rate of the credited time, a closed lease never changes, and along the whole run the lease's own
   postings gave the provider exactly what its pay grew, the sponsor exactly what closing returned, and no one else anything.
   */
  lemma {:induction false} EveryRunKeeps(d: Deal, actions: seq<Action>, e: Deal)
    requires DealOk(d) && Leads(d, actions, e)
    ensures DealOk(e) && Later(d.lease, e.lease)
    ensures forall a :: a != Escrow(d.lease.id) ==> GainedBy(d, actions, a) == Paid(d.lease, e.lease, a)
    decreases |actions|
  {
    hide DealOk, Possible, Step, Gained, Paid;
    if actions == [] {
      forall a ensures Paid(d.lease, d.lease, a) == 0 { NothingPaid(d.lease, a); }
    } else {
      StepKeeps(d, actions[0]);
      var next := Step(d, actions[0]).0;
      EveryRunKeeps(next, actions[1..], e);
      forall a | a != Escrow(d.lease.id) ensures GainedBy(d, actions, a) == Paid(d.lease, e.lease, a) {
        PaidTwice(d.lease, next.lease, e.lease, a);
      }
    }
  }

  lemma NothingPaid(l: Lease, a: Account)
    ensures Paid(l, l, a) == 0
  {
  }

  /** From the offer to the end: the provider got its credited time at the offered rate, the sponsor everything else back. */
  lemma {:induction false} WholeLease(
    books: Books, id: nat, sponsor: nat, provider: nat, duration: int, rate: int, expires: int,
    openContracts: nat, available: bool, actions: seq<Action>, e: Deal)
    requires 0 < duration && 0 < rate && Unused(books, id, sponsor, provider)
    requires var offer := MakeOffer(books, id, sponsor, provider, duration, rate, expires, openContracts, available);
             offer.Made? && Leads(offer.deal, actions, e)
    ensures var d := MakeOffer(books, id, sponsor, provider, duration, rate, expires, openContracts, available).deal;
            var l := e.lease; var pay := l.credited * rate / 1000;
            && 0 <= l.credited <= l.sample - l.started <= duration * 1000 && 0 <= pay <= rate * duration
            && (sponsor != provider ==>
                  && GainedBy(d, actions, Available(provider)) == pay
                  && GainedBy(d, actions, Available(sponsor)) == if l.Open() then 0 else rate * duration - pay)
            && (forall a :: a != Available(sponsor) && a != Available(provider) && a != Escrow(id) ==> GainedBy(d, actions, a) == 0)
            && e.books.Balance(Escrow(id)) == if l.Open() then rate * duration - pay else 0
  {
    hide BooksOk, Posting, GainedBy;
    OfferKeeps(books, id, sponsor, provider, duration, rate, expires, openContracts, available);
    var d := MakeOffer(books, id, sponsor, provider, duration, rate, expires, openContracts, available).deal;
    EveryRunKeeps(d, actions, e);
    Facts(e.lease);
  }

  /** The schedule looks at a lease, and so does a cancellation by the sponsor, the provider or an administrator. */
  predicate Looks(l: Lease, action: Action)
  {
    action.DoReconcile? || (action.DoCancel? && (action.user == l.sponsor || action.user == l.provider || action.admin))
  }

  /** What a look leaves of an open lease. */
  predicate Looked(l: Lease, m: Lease, now: int, sight: Sight, cancel: bool)
  {
    && m.phase == (if cancel then Cancelled
                   else if l.phase == Active && l.ends <= now then Completed
                   else if l.phase == Offered && l.offerExpires <= now then Expired else l.phase)
    && (l.phase == Active ==> m.sampleReady == (m.phase == Active && sight.Seen? && sight.ready))
    && (l.phase == Active && sight.Seen? ==> m.epoch == sight.epoch)
  }

  lemma InWindow(l: Lease)
    requires LeaseOk(l) && l.phase == Active
    ensures l.sample <= l.ends == l.started + 1000 * l.duration
  {
  }

  /**
   Each step of a lease: who may take it, what is answered, and the phase it leaves. An offer begins for its whole
   duration when its provider takes it in time with the domain free and the node ready; a lease is cancelled by either
   party or an administrator, completes at its end and expires untaken; a closed lease never changes.
   */
  lemma StepIs(d: Deal, action: Action)
    requires DealOk(d) && Possible(d, action)
    ensures var l := d.lease; var (e, outcome) := Step(d, action); var m := e.lease;
            match action
            case DoAccept(user, checked, free, now, sight) =>
              if user != l.provider then e == d && outcome == Missing
              else if l.phase == Active then e == d && outcome == Fine
              else if l.phase != Offered || l.offerExpires <= checked then e == d && outcome == OfferExpired
              else if !free then e == d && outcome == DomainLeased
              else if sight.Gone? || !sight.ready then e == d && outcome == NodeNotReady
              else
                && outcome == Fine && e.books == d.books
                && m == l.(phase := Active, started := now, ends := now + 1000 * l.duration, sample := now, sampleReady := true,
                           epoch := sight.epoch)
            case Elsewhere(books) => m == l && e.books == books
            case DoReconcile(now, sight) =>
              outcome == Fine && if l.phase != Offered && l.phase != Active then e == d else Looked(l, m, now, sight, false)
            case DoCancel(_, _, now, sight) =>
              if !Looks(l, action) then e == d && outcome == Missing
              else outcome == Fine && if l.phase != Offered && l.phase != Active then e == d else Looked(l, m, now, sight, true)
  {
    hide BooksOk, LeaseOk, Advancing;
    match action
    case DoReconcile(now, sight) => if d.lease.Open() { AdvanceKeeps(d, now, sight, false); }
    case DoCancel(user, admin, now, sight) => if d.lease.Open() { AdvanceKeeps(d, now, sight, true); }
    case _ =>
  }

  /**
   An offer is made exactly when its budget fits, fewer than four contracts are open, the node is available and the
   sponsor has the budget.
   */
  lemma OfferIsMadeExactlyWhen(
    books: Books, id: nat, sponsor: nat, provider: nat, duration: int, rate: int, expires: int,
    openContracts: nat, available: bool)
    requires 0 < duration && 0 < rate && Unused(books, id, sponsor, provider)
    ensures var offer := MakeOffer(books, id, sponsor, provider, duration, rate, expires, openContracts, available);
            var purse := books.accounts[Available(sponsor)];
            && (offer.Made? <==>
                  && rate * duration <= 9223372036854775807 && openContracts < 4 && available
                  && (purse.issuer || rate * duration <= purse.balance))
            && (offer.Made? ==>
                  && offer.deal.lease == Lease(id, sponsor, provider, duration, rate, expires, Offered, 0, 0, 0, false, 0, 0, 0)
                  && offer.deal.books.Balance(Escrow(id)) == rate * duration)
  {
    hide Posting, BooksOk;
    Product(duration, 1, rate);
    var start := Open(books, Escrow(id));
    LeaseCredits.TransferExactlyWhen(start, FundKey(id), Available(sponsor), Escrow(id), rate * duration);
    LeaseRuns.FreshIsNoReplay(start, FundKey(id), [(Available(sponsor), -(rate * duration)), (Escrow(id), rate * duration)]);
    OfferKeeps(books, id, sponsor, provider, duration, rate, expires, openContracts, available);
  }

  /**
   No instant is paid twice and none without two looks: along a run, time is credited only by samples of an active lease,
   each crediting exactly the time since the sample before it when both looks were ready, in one boot and at most six
   seconds apart, and nothing otherwise.
   */
  lemma EachInstantOnce(d: Deal, action: Action)
    requires DealOk(d) && Possible(d, action) && d.lease.phase == Active
    ensures var l := d.lease; var m := Step(d, action).0.lease;
            && (m.credited == l.credited || m.credited == l.credited + (m.sample - l.sample))
            && (m.credited > l.credited ==>
                  && (action.DoReconcile? || action.DoCancel?) && l.sampleReady
                  && action.now - l.sample <= 6000 && action.sight == Seen(true, l.epoch))
            && (Looks(l, action) && l.sampleReady && l.sample <= action.now <= l.sample + 6000
                && action.sight == Seen(true, l.epoch) ==>
                  m.credited == l.credited + ((if action.now <= l.ends then action.now else l.ends) - l.sample))
  {
    hide BooksOk, LeaseOk, Advancing, Accepted;
    InWindow(d.lease);
    match action
    case DoReconcile(now, sight) => AdvanceKeeps(d, now, sight, false);
    case DoCancel(user, admin, now, sight) => AdvanceKeeps(d, now, sight, true);
    case _ =>
  }
}
