/**
 What every step of a funded window of a complete route does, stated in the fields of its row and in plain numbers:
 when a member's time is credited and how much of it, when the window drains, ends, starts and is offered.
 */
module LeaseCredits {
  import opened Journal
  import opened Postings
  import opened RouteLease
  import opened LeaseSafety
  import opened LeaseRuns
  import Contracts
  import Quotients

  // ---------------------------------------------------------------------------------------------
  // One sample

  /** The time from the last sample to this one that lies inside the window. */
  function Elapsed(l: Lease, now: int): int { (if now <= l.ends then now else l.ends) - l.sample }

  /** Two ready looks of one boot, at most six seconds apart, by a member that has not left. */
  predicate Earns(l: Lease, i: nat, now: int, sight: Sight)
    requires i < |l.members| && Covers(sight, l.members)
  {
    var m := l.members[i];
    m.sampleReady && !m.withdrawn && sight.up[i] && m.epoch == sight.epochs[i] && now - l.sample <= 6000
  }

  /** The route itself stands and all of its two or more members can serve. */
  predicate Stands(l: Lease, sight: Sight)
    requires Covers(sight, l.members)
  {
    sight.intact && 2 <= |l.members| && forall i :: 0 <= i < |l.members| ==> sight.up[i] && !l.members[i].withdrawn
  }

  predicate EveryoneEarns(l: Lease, now: int, sight: Sight)
    requires Covers(sight, l.members)
  {
    forall i :: 0 <= i < |l.members| ==> Earns(l, i, now, sight)
  }

  /** Member i after a sample. */
  predicate SampledAs(l: Lease, r: Lease, i: nat, now: int, sight: Sight)
    requires i < |l.members| == |r.members| && Covers(sight, l.members) && 0 < l.duration
  {
    var m, n := l.members[i], r.members[i];
    && n.credited == m.credited + (if Earns(l, i, now, sight) then Elapsed(l, now) else 0)
    && n.paid == n.credited * m.maximum / (l.duration * 1000)
    && n.sampleReady == (sight.up[i] && !m.withdrawn) && n.epoch == sight.epochs[i]
    && n.provider == m.provider && n.domain == m.domain && n.maximum == m.maximum && n.withdrawn == m.withdrawn
  }

  /** What a look at a running window makes of it; a clock that went back makes nothing. */
  ghost predicate Looked(l: Lease, r: Lease, now: int, sight: Sight)
    requires Covers(sight, l.members) && 0 < l.duration
  {
    if now < l.sample then r == l
    else
      && |r.members| == |l.members| && (forall i :: 0 <= i < |l.members| ==> SampledAs(l, r, i, now, sight))
      && r.joint == l.joint + (if l.sampleReady && Stands(l, sight) && EveryoneEarns(l, now, sight) then Elapsed(l, now) else 0)
      && r.sample == l.sample + Elapsed(l, now) && r.started == l.started && r.ends == l.ends
      && r.phase == (if l.ends <= now then Completed else if Stands(l, sight) then l.phase else Draining)
      && r.sampleReady == (now < l.ends && Stands(l, sight))
      && r.budget == l.budget && r.refundTo == l.refundTo && r.accepted == l.accepted
  }

  lemma SampleMeets(l: Lease, now: int, sight: Sight, i: nat)
    requires 0 < l.duration && l.sample <= now && l.sample <= l.ends && Covers(sight, l.members) && i < |l.members|
    ensures |SampledAll(l, now, sight)| == |l.members|
    ensures SampledAs(l, l.(members := SampledAll(l, now, sight)), i, now, sight)
  {
  }

  lemma JointMeets(l: Lease, now: int, sight: Sight)
    requires Covers(sight, l.members)
    ensures Joint(l.members, sight) <==> Stands(l, sight)
    ensures AllValid(l, now, sight) <==> l.sampleReady && Stands(l, sight) && EveryoneEarns(l, now, sight)
  {
    assert Joint(l.members, sight) <==> Stands(l, sight);
    if Stands(l, sight) {
      forall i | 0 <= i < |l.members|
        ensures Valid(l, l.members[i], now, sight.up[i], sight.epochs[i]) <==> Earns(l, i, now, sight)
      {
      }
      if AllValid(l, now, sight) { assert EveryoneEarns(l, now, sight); }
      if l.sampleReady && EveryoneEarns(l, now, sight) {
        assert Earns(l, 0, now, sight);
        assert AllValid(l, now, sight);
      }
    }
  }

  /**
   Main result: a look at a running window credits member i with exactly the time since the last sample, cut at the end
   of the window, when the member was ready then, is up now in the same boot, has not left and at most six seconds have
   passed, and with nothing otherwise; its pay is its share of its credited time.
   */
  lemma SampleIs(d: Deal, now: int, sight: Sight)
    requires DealOk(d) && (d.lease.phase == Active || d.lease.phase == Draining) && Covers(sight, d.lease.members)
    ensures 0 < d.lease.duration && Looked(d.lease, Advance(d, now, sight).0.lease, now, sight)
    ensures Advance(d, now, sight).1 == Done && (now < d.lease.sample ==> Advance(d, now, sight).0 == d)
  {
    hide LeaseOk, MoneyOk, Joint, AllValid, SampledAs, PaidBy, Pay, Close, SampledAll, Stands, EveryoneEarns, Consistent;
    var l := d.lease;
    InWindow(l);
    AdvanceIs(d, now, sight);
    AdvanceKeeps(d, now, sight);
    JointMeets(l, now, sight);
    if l.sample <= now {
      var all := SampledAll(l, now, sight);
      forall i | 0 <= i < |l.members| ensures |all| == |l.members| && SampledAs(l, Advance(d, now, sight).0.lease, i, now, sight) {
        SampleMeets(l, now, sight, i);
        MembersOnly(l, l.(members := all), Advance(d, now, sight).0.lease, i, now, sight);
      }
      assert |all| == |l.members| by { if l.members != [] { SampleMeets(l, now, sight, 0); } }
    }
  }

  lemma MembersOnly(l: Lease, a: Lease, b: Lease, i: nat, now: int, sight: Sight)
    requires i < |l.members| == |a.members| && a.members == b.members && Covers(sight, l.members) && 0 < l.duration
    ensures SampledAs(l, a, i, now, sight) <==> SampledAs(l, b, i, now, sight)
  {
  }

  lemma InWindow(l: Lease)
    requires LeaseOk(l) && (l.phase == Active || l.phase == Draining)
    ensures 0 < l.duration && l.sample <= l.ends == l.started + l.duration * 1000 && 1 <= |l.members|
  {
  }

  // ---------------------------------------------------------------------------------------------
  // Every step

  predicate Takes(l: Lease, user: nat) { exists i :: 0 <= i < |l.members| && l.members[i].provider == user }

  /** Somebody other than this user still has to accept. */
  predicate Awaits(l: Lease, user: nat)
  {
    exists i :: 0 <= i < |l.members| && l.members[i].provider != user && l.members[i].provider !in l.accepted
  }

  /** A drained window of which this user's members have left. */
  predicate Left(l: Lease, r: Lease, user: nat)
  {
    && r == l.(phase := Draining, sampleReady := false, members := r.members) && |r.members| == |l.members|
    && forall i :: 0 <= i < |l.members| ==>
         r.members[i] == if l.members[i].provider == user && !l.members[i].withdrawn
                         then l.members[i].(withdrawn := true, sampleReady := false) else l.members[i]
  }

  /** The window begins now, for its whole duration, with everybody seen ready. */
  predicate Begun(l: Lease, r: Lease, user: nat, now: int, sight: Sight)
    requires Covers(sight, l.members)
  {
    && r == l.(phase := Active, started := now, ends := now + 1000 * l.duration, sample := now, sampleReady := true,
               accepted := l.accepted + {user}, members := r.members)
    && |r.members| == |l.members|
    && forall i :: 0 <= i < |l.members| ==> r.members[i] == l.members[i].(sampleReady := true, epoch := sight.epochs[i])
  }

  /** The answer to an acceptance, check by check. */
  function Answer(
    l: Lease, user: nat, termsMatch: bool, checked: int, free: bool, supported: bool, sight: Sight): Reply
    requires Covers(sight, l.members)
  {
    if !Takes(l, user) then Missing
    else if !termsMatch then Terms
    else if l.phase != Offered then (if user in l.accepted then Done else OfferExpired)
    else if l.offerExpires <= checked then OfferExpired
    else if Awaits(l, user) then Done
    else if !free then DomainLeased
    else if !supported then SupportWindow
    else if !Stands(l, sight) then RouteNotReady
    else Done
  }

  /** An acceptance is answered as stated, and only the last one that is missing begins the window. */
  lemma AcceptanceIs(
    d: Deal, user: nat, termsMatch: bool, checked: int, free: bool, now: int, supported: bool, sight: Sight)
    requires Covers(sight, d.lease.members)
    ensures var (e, reply) := Accept(d, user, termsMatch, checked, free, now, supported, sight);
            && reply == Answer(d.lease, user, termsMatch, checked, free, supported, sight) && e.books == d.books
            && (if reply != Done || d.lease.phase != Offered then e.lease == d.lease
                else if Awaits(d.lease, user) then e.lease == d.lease.(accepted := d.lease.accepted + {user})
                else Begun(d.lease, e.lease, user, now, sight))
  {
    hide Joint;
    var l := d.lease;
    JointMeets(l, now, sight);
    var agreed := l.(accepted := l.accepted + {user});
    assert Awaits(l, user) <==> !agreed.AllAccepted() by {
      if !agreed.AllAccepted() {
        var i :| 0 <= i < |l.members| && l.members[i].provider !in agreed.accepted;
        assert l.members[i].provider != user && l.members[i].provider !in l.accepted;
      }
      if Awaits(l, user) {
        var i :| 0 <= i < |l.members| && l.members[i].provider != user && l.members[i].provider !in l.accepted;
        assert l.members[i].provider !in agreed.accepted;
      }
    }
  }

  /** An offer that nobody took ends, and only then, when it has expired or one of the parties cancels it. */
  lemma OfferEnds(d: Deal, action: Action)
    requires DealOk(d) && d.lease.phase == Offered && 0 < d.lease.duration && Possible(d, action)
    requires action.DoReconcile? || action.DoCancel?
    ensures var (e, reply) := Step(d, action); var l := d.lease;
            match action
            case DoReconcile(now, _) =>
              && reply == Done
              && e.lease == (if l.offerExpires <= now then l.(phase := Expired, sampleReady := false) else l)
            case DoCancel(user, admin, _, _) =>
              var party := l.sponsor == user || admin || Takes(l, user);
              && reply == (if party then Done else Missing)
              && e.lease == if party then l.(phase := Cancelled, sampleReady := false) else l
    ensures var (e, _) := Step(d, action); var l := d.lease;
            e.books.Balance(l.refundTo) == d.books.Balance(l.refundTo) + if e.lease.phase == Offered then 0 else l.budget
  {
    hide LeaseOk, BooksOk, Close, Posting, Joint, AllValid;
    UnstartedPaidNothing(d.lease);
    CloseKeeps(d, Expired);
    CloseKeeps(d, Cancelled);
    WholeBudget(d, Expired);
    WholeBudget(d, Cancelled);
  }

  /** Closing an offer returns its whole budget to the account that funded it. */
  lemma WholeBudget(d: Deal, phase: Phase)
    requires DealOk(d) && d.lease.phase == Offered && !Funded(phase) && d.lease.paid == 0
    ensures Close(d, phase, 0).0.books.Balance(d.lease.refundTo) == d.books.Balance(d.lease.refundTo) + d.lease.budget
  {
    hide BooksOk, Posting, Value, PaidBy, MaximumOf, MemberOk;
    var l := d.lease;
    CloseKeeps(d, phase);
    var out, back := (Escrow(l.id), -l.budget), (l.refundTo, l.budget);
    assert [out] + [back] == [out, back];
    OneLine(out.0, out.1, l.refundTo);
    OneLine(back.0, back.1, l.refundTo);
    ValueJoin([out], [back], l.refundTo);
    PostMovesExactly(d.books, RefundKey(l.id), [out, back], l.refundTo);
    FreshIsNoReplay(d.books, RefundKey(l.id), [out, back]);
  }

  /** A running window is only looked at, by the schedule or by whoever may cancel it; a party that cancels makes it drain and leaves. */
  lemma RunningStep(d: Deal, action: Action)
    requires DealOk(d) && (d.lease.phase == Active || d.lease.phase == Draining) && 0 < d.lease.duration && Possible(d, action)
    ensures var (e, reply) := Step(d, action); var l := d.lease;
            match action
            case DoReconcile(now, sight) => reply == Done && Looked(l, e.lease, now, sight)
            case DoCancel(user, admin, now, sight) =>
              if !(l.sponsor == user || admin || Takes(l, user)) then reply == Missing && e == d
              else
                var seen := Advance(d, now, sight).0.lease;
                && reply == Done && Looked(l, seen, now, sight)
                && (if seen.phase == Completed then e.lease == seen else Left(seen, e.lease, user))
            case _ => e.lease == l
  {
    hide DealOk, Advance, Joint, Looked, Foreign;
    var l := d.lease;
    match action
    case DoReconcile(now, sight) => SampleIs(d, now, sight);
    case DoCancel(user, admin, now, sight) => SampleIs(d, now, sight); PhaseSeen(d, now, sight);
    case _ =>
  }

  lemma PhaseSeen(d: Deal, now: int, sight: Sight)
    requires DealOk(d) && (d.lease.phase == Active || d.lease.phase == Draining) && Covers(sight, d.lease.members)
    ensures 0 < d.lease.duration && Advance(d, now, sight).0.lease.phase in {Active, Draining, Completed}
  {
    hide LeaseOk, MoneyOk, Advance, SampledAs, Stands, EveryoneEarns;
    SampleIs(d, now, sight);
  }

  // ---------------------------------------------------------------------------------------------
  // Whole runs

  /** The look an action takes at a running window, if any. */
  predicate Looks(l: Lease, action: Action)
  {
    && (l.phase == Active || l.phase == Draining)
    && (action.DoReconcile? || (action.DoCancel? && (l.sponsor == action.user || action.admin || Takes(l, action.user))))
    && l.sample <= action.now
  }

  /** The intervals of a run that count for member i. */
  ghost function Intervals(d: Deal, actions: seq<Action>, i: nat): int
    requires 0 < d.lease.duration
    decreases |actions|
  {
    if actions == [] || !Possible(d, actions[0]) || i >= |d.lease.members| || Step(d, actions[0]).0.lease.duration <= 0 then 0
    else
      (if Looks(d.lease, actions[0]) && Earns(d.lease, i, actions[0].now, actions[0].sight)
       then Elapsed(d.lease, actions[0].now) else 0)
      + Intervals(Step(d, actions[0]).0, actions[1..], i)
  }

  lemma OneInterval(d: Deal, action: Action, i: nat)
    requires DealOk(d) && Possible(d, action) && 0 < d.lease.duration && i < |d.lease.members|
    ensures var r := Step(d, action).0.lease;
            && |r.members| == |d.lease.members| && r.members[i].maximum == d.lease.members[i].maximum
            && r.members[i].credited == d.lease.members[i].credited
               + if Looks(d.lease, action) && Earns(d.lease, i, action.now, action.sight) then Elapsed(d.lease, action.now) else 0
  {
    hide LeaseOk, MoneyOk, Advance, Joint, Foreign, Stands, EveryoneEarns, Earns;
    var l := d.lease;
    StepKeeps(d, action);
    if l.phase == Active || l.phase == Draining {
      RunningStep(d, action);
      if Looks(l, action) {
        var seen := Advance(d, action.now, action.sight).0.lease;
        assert Looked(l, seen, action.now, action.sight);
        assert SampledAs(l, seen, i, action.now, action.sight);
      }
    } else if l.phase != Offered {
      ClosedIsFinal(d, action);
    } else if action.DoReconcile? || action.DoCancel? {
      OfferEnds(d, action);
    }
  }

  /** Main result: in every run the time credited to a member is the sum of its intervals, and its pay is its share of that. */
  lemma {:induction false} CreditIsItsIntervals(d: Deal, actions: seq<Action>, e: Deal, i: nat)
    requires DealOk(d) && Leads(d, actions, e) && i < |d.lease.members|
    ensures i < |e.lease.members| && 0 < e.lease.duration
    ensures var m, n := d.lease.members[i], e.lease.members[i];
            && n.credited == m.credited + Intervals(d, actions, i)
            && n.paid == (m.credited + Intervals(d, actions, i)) * m.maximum / (e.lease.duration * 1000)
    decreases |actions|
  {
    hide MoneyOk, Possible, Step, Looks, Earns, Elapsed, PaidBy, MaximumOf;
    EveryRunKeeps(d, actions, e);
    if actions != [] {
      StepKeeps(d, actions[0]);
      OneInterval(d, actions[0], i);
      CreditIsItsIntervals(Step(d, actions[0]).0, actions[1..], e, i);
    } else {
      assert MemberOk(e.lease, e.lease.members[i]);
    }
  }

  // ---------------------------------------------------------------------------------------------
  // The offer

  function Prefix(shares: seq<int>, n: nat): int
    requires n <= |shares|
  {
    if n == 0 then 0 else Prefix(shares, n - 1) + shares[n - 1]
  }

  lemma {:induction false} PrefixIsTotal(shares: seq<int>, n: nat)
    requires n <= |shares|
    ensures Prefix(shares, n) == Contracts.Total(shares[..n])
  {
    if n > 0 {
      PrefixIsTotal(shares, n - 1);
      assert shares[..n][..n - 1] == shares[..n - 1];
    }
  }

  /** What member i may earn at most: its share of the budget, cumulatively rounded down. */
  function Most(budget: int, shares: seq<int>, i: nat): int
    requires i < |shares|
  {
    budget * Prefix(shares, i + 1) / 10000 - budget * Prefix(shares, i) / 10000
  }

  /** What an offer has to meet. */
  predicate Offerable(
    books: Books, fundedBy: Account, budget: int, openContracts: nat, routeReady: bool, shares: seq<int>)
  {
    && budget <= 9223372036854775807 && openContracts < 4 && routeReady
    && 1 <= |shares| <= 16 && (forall i :: 0 <= i < |shares| ==> 1 <= shares[i] <= 10000) && Prefix(shares, |shares|) == 10000
    && (forall i :: 0 <= i < |shares| ==> 0 < Most(budget, shares, i))
    && fundedBy in books.accounts && (books.accounts[fundedBy].issuer || budget <= books.accounts[fundedBy].balance)
  }

  lemma MaximaAre(budget: int, shares: seq<int>, i: nat)
    requires i < |shares|
    ensures Contracts.Parts(budget, shares)[i] == Most(budget, shares, i)
  {
    PrefixIsTotal(shares, i);
    PrefixIsTotal(shares, i + 1);
    Contracts.PartAt(budget, shares, i);
  }

  /** A transfer under a new key between two accounts is recorded exactly when the payer can afford it. */
  lemma TransferExactlyWhen(books: Books, key: Key, from: Account, payee: Account, amount: int)
    requires key !in books.journal && from != payee && 0 < amount
    requires payee in books.accounts && 0 <= books.accounts[payee].balance
    ensures Posting(books, key, [(from, -amount), (payee, amount)]).1 == Posted <==>
            && amount <= 9223372036854775807 && from in books.accounts
            && (books.accounts[from].issuer || amount <= books.accounts[from].balance)
  {
    hide Posting, Value, Total, Moved;
    var out, back := (from, -amount), (payee, amount);
    var lines := [out, back];
    assert [out] + [back] == lines;
    forall a
      ensures Value(lines, a) == (if a == from then -amount else if a == payee then amount else 0)
      ensures Total(lines) == 0 && (a in Moved(lines) <==> Value(lines, a) != 0)
    {
      OneLine(out.0, out.1, a);
      OneLine(back.0, back.1, a);
      ValueJoin([out], [back], a);
      MovedIsValue(lines, a);
    }
    assert Value(lines, from) == -amount && Value(lines, payee) == amount && Total(lines) == 0;
    TwoMoved(lines, from, payee);
    PostedExactlyWhen(books, key, lines);
    assert from in Moved(lines) && payee in Moved(lines);
  }

  /** The row of a new offer. */
  predicate OfferedAs(
    l: Lease, id: nat, sponsor: nat, fundedBy: Account, duration: int, rate: int, expires: int,
    providers: seq<nat>, domains: seq<nat>, shares: seq<int>)
    requires |providers| == |domains| == |shares|
  {
    && l.id == id && l.sponsor == sponsor && l.refundTo == fundedBy && l.duration == duration && l.budget == rate * duration
    && l.offerExpires == expires && l.phase == Offered && l.accepted == {} && l.paid == 0 && l.joint == 0
    && |l.members| == |shares|
    && forall i :: 0 <= i < |shares| ==>
         l.members[i] == Member(providers[i], domains[i], Most(rate * duration, shares, i), 0, 0, false, 0, false)
  }

  /**
   An offer is made exactly when the budget fits, fewer than four contracts are open, the route is ready, the shares are
   a division into positive amounts and the funding account has the budget; the whole budget goes into escrow.
   */
  lemma OfferIsMadeExactlyWhen(
    books: Books, id: nat, sponsor: nat, fundedBy: Account, duration: int, rate: int, expires: int,
    openContracts: nat, routeReady: bool, providers: seq<nat>, domains: seq<nat>, shares: seq<int>)
    requires |providers| == |domains| == |shares| && 0 < duration && 0 < rate && Unused(books, id, fundedBy, providers)
    ensures var offer := MakeOffer(books, id, sponsor, fundedBy, duration, rate, expires, openContracts, routeReady,
                                   providers, domains, shares);
            && (offer.Made? <==> Offerable(books, fundedBy, rate * duration, openContracts, routeReady, shares))
            && (offer.Made? ==>
                  && OfferedAs(offer.deal.lease, id, sponsor, fundedBy, duration, rate, expires, providers, domains, shares)
                  && offer.deal.books.Balance(Escrow(id)) == rate * duration
                  && offer.deal.books.Balance(fundedBy) == books.Balance(fundedBy) - rate * duration)
  {
    hide Posting, BooksOk, Contracts.Parts, Contracts.Total, Value, Journal.Total;
    var budget := rate * duration;
    Quotients.Product(duration, 1, rate);
    var offer := MakeOffer(books, id, sponsor, fundedBy, duration, rate, expires, openContracts, routeReady,
                           providers, domains, shares);
    var maxima := Contracts.Parts(budget, shares);
    forall i | 0 <= i < |shares| ensures maxima[i] == Most(budget, shares, i) { MaximaAre(budget, shares, i); }
    PrefixIsTotal(shares, |shares|);
    assert shares[..|shares|] == shares;
    assert Contracts.Splittable(budget, shares) <==>
           && budget <= 9223372036854775807 && 1 <= |shares| <= 16
           && (forall i :: 0 <= i < |shares| ==> 1 <= shares[i] <= 10000) && Prefix(shares, |shares|) == 10000;
    var start := Open(books, Escrow(id));
    TransferExactlyWhen(start, FundKey(id), fundedBy, Escrow(id), budget);
    FreshIsNoReplay(start, FundKey(id), [(fundedBy, -budget), (Escrow(id), budget)]);
    OpenKeeps(books, Escrow(id));
    FundingMoves(start, id, fundedBy, budget);
    if offer.Made? {
      assert OfferedAs(offer.deal.lease, id, sponsor, fundedBy, duration, rate, expires, providers, domains, shares);
    }
  }
}
