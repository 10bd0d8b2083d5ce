/** What the journal says each provider of a funded window was paid, against what its members earned. */
module LeaseStatement {
  import opened Journal
  import opened Postings
  import opened MapSums
  import opened RouteLease
  import opened LeaseSafety
  import opened LeaseRuns
  import Contracts

  // ---------------------------------------------------------------------------------------------
  // The two sides

  /** The payments of a lease, read back from the journal. */
  function Payments(b: Books, id: nat): map<Key, Lines>
  {
    map k | k in b.journal && k.PayKey? && k.lease == id :: b.journal[k]
  }

  ghost function Received(b: Books, id: nat, user: nat): int { Sum(Payments(b, id), LineOf(Available(user))) }

  /** What the members of one provider have earned together. */
  function EarnedBy(members: seq<Member>, user: nat): int
  {
    if members == [] then 0
    else
      var m := members[|members| - 1];
      EarnedBy(members[..|members| - 1], user) + if m.provider == user then m.paid else 0
  }

  ghost predicate PaymentsOk(d: Deal)
  {
    forall user: nat :: Received(d.books, d.lease.id, user) == EarnedBy(d.lease.members, user)
  }

  /** A closed lease has given back exactly what it did not pay, to the account that funded it. */
  predicate RefundOk(d: Deal)
  {
    var l := d.lease;
    !Funded(l.phase) && l.paid < l.budget ==>
      RefundKey(l.id) in d.books.journal && At(d.books.journal[RefundKey(l.id)], l.refundTo) == l.budget - l.paid
  }

  ghost predicate StatementOk(d: Deal) { PaymentsOk(d) && RefundOk(d) }

  // ---------------------------------------------------------------------------------------------
  // One posting

  lemma {:induction false} LinesAreGains(before: seq<Member>, after: seq<Member>, user: nat)
    requires |before| == |after|
    requires forall i :: 0 <= i < |before| ==> Consistent(before[i], after[i]) && before[i].provider == after[i].provider
    ensures Value(PayLines(before, after), Available(user)) == EarnedBy(after, user) - EarnedBy(before, user)
  {
    if before != [] {
      var n := |before| - 1;
      LinesAreGains(before[..n], after[..n], user);
      LastLineValue(before, after, Available(user));
      ValueJoin(PayLines(before[..n], after[..n]), LastLine(before, after), Available(user));
    }
  }

  lemma {:induction false} EarnedSame(a: seq<Member>, b: seq<Member>, user: nat)
    requires |a| == |b| && forall i :: 0 <= i < |a| ==> a[i].provider == b[i].provider && a[i].paid == b[i].paid
    ensures EarnedBy(a, user) == EarnedBy(b, user)
  {
    if a != [] {
      EarnedSame(a[..|a| - 1], b[..|b| - 1], user);
    }
  }

  lemma PaymentAdds(b: Books, after: Books, key: Key, user: nat)
    requires key.PayKey? && key !in b.journal && key in after.journal && after.journal == b.journal[key := after.journal[key]]
    ensures Received(after, key.lease, user) == Received(b, key.lease, user) + At(after.journal[key], Available(user))
  {
    hide Sum;
    assert Payments(after, key.lease) == Payments(b, key.lease)[key := after.journal[key]];
    With(Payments(b, key.lease), LineOf(Available(user)), key, after.journal[key]);
  }

  lemma PayStatement(d: Deal, after: Lease)
    requires DealOk(d) && PaymentsOk(d) && Funded(d.lease.phase) && LeaseOk(after) && Funded(after.phase)
    requires after.id == d.lease.id && after.refundTo == d.lease.refundTo && |after.members| == |d.lease.members|
    requires forall i :: 0 <= i < |after.members| ==>
               after.members[i].provider == d.lease.members[i].provider && Consistent(d.lease.members[i], after.members[i])
    requires after.budget == d.lease.budget && after.paid <= after.budget
    ensures PaymentsOk(Pay(d, after).0)
  {
    hide LeaseOk, MoneyOk, Posting, Value, Total, PayLines, PaidBy, Received, Consistent;
    var before, now := d.lease.members, after.members;
    var delta := after.paid - d.lease.paid;
    PayKeeps(d, after);
    PaidAre(d.lease, after);
    var key, lines := PayKey(after.id, after.paid), PayLines(before, now) + [(Escrow(after.id), -delta)];
    var books := Pay(d, after).0.books;
    forall user: nat ensures Received(books, after.id, user) == EarnedBy(now, user) {
      LinesAreGains(before, now, user);
      PayLinesValue(before, now, Available(user));
      if delta > 0 {
        FreshPayment(d, after);
        Written(d.books, key, lines, Available(user));
        OneLine(Escrow(after.id), -delta, Available(user));
        ValueJoin(PayLines(before, now), [(Escrow(after.id), -delta)], Available(user));
        PaymentAdds(d.books, books, key, user);
      }
    }
  }

  lemma PaidAre(a: Lease, b: Lease)
    requires LeaseOk(a) && LeaseOk(b)
    ensures a.paid == PaidBy(a.members) && b.paid == PaidBy(b.members)
  {
    hide MemberOk, PaidBy, MaximumOf;
  }

  /** The key of a payment is new, because the total grew. */
  lemma FreshPayment(d: Deal, after: Lease)
    requires DealOk(d) && d.lease.paid < after.paid && after.id == d.lease.id && |after.members| == |d.lease.members|
    requires Pay(d, after).1 == Done
    ensures var lines := PayLines(d.lease.members, after.members) + [(Escrow(after.id), -(after.paid - d.lease.paid))];
            Posting(d.books, PayKey(after.id, after.paid), lines).1 == Posted
            && Pay(d, after).0.books == Posting(d.books, PayKey(after.id, after.paid), lines).0
  {
    hide LeaseOk, BooksOk, PayLines, Combine, Sum, Fits, Payable;
  }

  lemma CloseStatement(d: Deal, phase: Phase)
    requires DealOk(d) && PaymentsOk(d) && Funded(d.lease.phase) && !Funded(phase)
    ensures StatementOk(Close(d, phase, d.lease.paid).0)
  {
    hide LeaseOk, BooksOk, Posting, Value, Sum;
    var l := d.lease;
    CloseKeeps(d, phase);
    var remaining := l.budget - l.paid;
    var closed := Close(d, phase, l.paid).0;
    if remaining > 0 {
      var entries := [(Escrow(l.id), -remaining), (l.refundTo, remaining)];
      assert Posting(d.books, RefundKey(l.id), entries).1 == Posted by { FreshIsNoReplay(d.books, RefundKey(l.id), entries); }
      Written(d.books, RefundKey(l.id), entries, l.refundTo);
      assert [(Escrow(l.id), -remaining)] + [(l.refundTo, remaining)] == entries;
      OneLine(Escrow(l.id), -remaining, l.refundTo);
      OneLine(l.refundTo, remaining, l.refundTo);
      ValueJoin([(Escrow(l.id), -remaining)], [(l.refundTo, remaining)], l.refundTo);
      assert Payments(closed.books, l.id) == Payments(d.books, l.id);
    }
  }

  // ---------------------------------------------------------------------------------------------
  // Every step, every run

  lemma SameStatement(d: Deal, e: Deal)
    requires StatementOk(d) && e.books == d.books && e.lease.id == d.lease.id && |e.lease.members| == |d.lease.members|
    requires forall i :: 0 <= i < |d.lease.members| ==>
               d.lease.members[i].provider == e.lease.members[i].provider && d.lease.members[i].paid == e.lease.members[i].paid
    requires Funded(e.lease.phase) || e == d
    ensures StatementOk(e)
  {
    hide Received;
    forall user: nat ensures Received(e.books, e.lease.id, user) == EarnedBy(e.lease.members, user) {
      EarnedSame(d.lease.members, e.lease.members, user);
    }
  }

  lemma AdvanceStatement(d: Deal, now: int, sight: Sight)
    requires DealOk(d) && StatementOk(d) && Funded(d.lease.phase) && Covers(sight, d.lease.members)
    ensures StatementOk(Advance(d, now, sight).0)
  {
    hide LeaseOk, MoneyOk, Pay, Close, Posting, Consistent, Joint, AllValid, PaymentsOk, PaidBy;
    var l := d.lease;
    LeaseFacts(l);
    AdvanceKeeps(d, now, sight);
    if l.phase == Offered {
      UnstartedPaidNothing(l);
      CloseStatement(d, Expired);
    } else if l.sample <= now {
      ObservedOk(l, now, sight);
      var after := Observed(l, now, sight);
      PayKeeps(d, after);
      PayStatement(d, after);
      CloseStatement(Pay(d, after).0, Completed);
    }
  }

  lemma CancelStatement(d: Deal, user: nat, admin: bool, now: int, sight: Sight)
    requires DealOk(d) && StatementOk(d) && Covers(sight, d.lease.members)
    ensures StatementOk(Cancel(d, user, admin, now, sight).0)
  {
    hide LeaseOk, MoneyOk, Advance, Close, StatementOk;
    var l := d.lease;
    LeaseFacts(l);
    if l.phase == Offered {
      assert PaymentsOk(d) by { Parts(d); }
      CloseStatement(d, Cancelled);
    } else if Running(l.phase) {
      AdvanceStatement(d, now, sight);
      var advanced := Advance(d, now, sight).0;
      if Running(advanced.lease.phase) { SameStatement(advanced, advanced.(lease := Drained(advanced.lease, user))); }
    }
  }

  lemma Parts(d: Deal)
    requires StatementOk(d)
    ensures PaymentsOk(d) && RefundOk(d)
  {
    hide PaymentsOk, RefundOk;
  }

  lemma ForeignStatement(d: Deal, books: Books)
    requires StatementOk(d) && Foreign(d.lease.id, d.books, books)
    ensures StatementOk(d.(books := books))
  {
    hide BooksOk, Sum, EarnedBy;
    assert Payments(books, d.lease.id) == Payments(d.books, d.lease.id);
  }

  lemma StepStatement(d: Deal, action: Action)
    requires DealOk(d) && StatementOk(d) && 0 < d.lease.duration && Possible(d, action)
    ensures StatementOk(Step(d, action).0)
  {
    hide DealOk, StatementOk, Advance, Cancel, Foreign, Joint;
    match action
    case DoAccept(user, termsMatch, checked, free, now, supported, sight) =>
      SameStatement(d, Step(d, action).0);
    case DoReconcile(now, sight) => if Funded(d.lease.phase) { AdvanceStatement(d, now, sight); }
    case DoCancel(user, admin, now, sight) => CancelStatement(d, user, admin, now, sight);
    case Elsewhere(books) => ForeignStatement(d, books);
  }

  lemma {:induction false} StatementStays(d: Deal, actions: seq<Action>, e: Deal)
    requires DealOk(d) && StatementOk(d) && Leads(d, actions, e)
    ensures DealOk(e) && StatementOk(e)
    decreases |actions|
  {
    hide DealOk, StatementOk, Possible, Step;
    if actions != [] {
      StepKeeps(d, actions[0]);
      StepStatement(d, actions[0]);
      StatementStays(Step(d, actions[0]).0, actions[1..], e);
    }
  }

  /**
   Main result: from the offer on, whatever happens, the payments the journal records for a lease give each provider
   exactly what its members have earned, and the refund of a closed lease gives the rest back to whoever funded it.
   */
  lemma JournalPaysWhatWasEarned(
    books: Books, id: nat, sponsor: nat, fundedBy: Account, duration: int, rate: int, expires: int,
    openContracts: nat, routeReady: bool, providers: seq<nat>, domains: seq<nat>, shares: seq<int>,
    actions: seq<Action>, e: Deal, user: nat)
    requires |providers| == |domains| == |shares| && 0 < duration && 0 < rate && Unused(books, id, fundedBy, providers)
    requires var offer := MakeOffer(books, id, sponsor, fundedBy, duration, rate, expires, openContracts, routeReady,
                                    providers, domains, shares);
             offer.Made? && offer.deal.lease.duration == duration && Leads(offer.deal, actions, e)
    ensures Received(e.books, e.lease.id, user) == EarnedBy(e.lease.members, user)
    ensures !Funded(e.lease.phase) && e.lease.paid < e.lease.budget ==>
              && RefundKey(e.lease.id) in e.books.journal
              && At(e.books.journal[RefundKey(e.lease.id)], e.lease.refundTo) == e.lease.budget - e.lease.paid
  {
    hide DealOk, Leads, MakeOffer, Received;
    var offer := MakeOffer(books, id, sponsor, fundedBy, duration, rate, expires, openContracts, routeReady,
                           providers, domains, shares);
    OfferKeeps(books, id, sponsor, fundedBy, duration, rate, expires, openContracts, routeReady, providers, domains, shares);
    OfferStatement(books, id, sponsor, fundedBy, duration, rate, expires, openContracts, routeReady, providers, domains, shares);
    StatementStays(offer.deal, actions, e);
  }

  /** An offer starts with an empty statement, and gives member i the maximum of share i. */
  lemma OfferStatement(
    books: Books, id: nat, sponsor: nat, fundedBy: Account, duration: int, rate: int, expires: int,
    openContracts: nat, routeReady: bool, providers: seq<nat>, domains: seq<nat>, shares: seq<int>)
    requires |providers| == |domains| == |shares| && 0 < duration && 0 < rate && Unused(books, id, fundedBy, providers)
    ensures var offer := MakeOffer(books, id, sponsor, fundedBy, duration, rate, expires, openContracts, routeReady,
                                   providers, domains, shares);
            offer.Made? ==>
              && StatementOk(offer.deal) && |offer.deal.lease.members| == |shares|
              && forall i :: 0 <= i < |shares| ==>
                   var m := offer.deal.lease.members[i]; var exact := rate * duration * shares[i];
                   && m.provider == providers[i] && m.domain == domains[i] && m.paid == m.credited == 0
                   && exact - 10000 < 10000 * m.maximum < exact + 10000
  {
    hide BooksOk, Contracts.Parts, Contracts.Total, Value, Sum, Combine, Fits, Payable;
    var offer := MakeOffer(books, id, sponsor, fundedBy, duration, rate, expires, openContracts, routeReady,
                           providers, domains, shares);
    if offer.Made? {
      var l := offer.deal.lease;
      assert Payments(offer.deal.books, id) == map[];
      forall user: nat ensures Received(offer.deal.books, id, user) == EarnedBy(l.members, user) {
        MapSums.Nothing<Key, Lines>(LineOf(Available(user)));
        NothingEarned(l.members, user);
      }
      forall i | 0 <= i < |shares| ensures
          var exact := rate * duration * shares[i]; exact - 10000 < 10000 * l.members[i].maximum < exact + 10000 {
        Contracts.PartsFair(rate * duration, shares, i);
      }
    }
  }

  lemma {:induction false} NothingEarned(members: seq<Member>, user: nat)
    requires forall i :: 0 <= i < |members| ==> members[i].paid == 0
    ensures EarnedBy(members, user) == 0
  {
    if members != [] {
      NothingEarned(members[..|members| - 1], user);
    }
  }
}
