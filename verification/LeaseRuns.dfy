/** Main results about funded windows, over every run of offers, acceptances, samples, cancellations and outside postings. */
module LeaseRuns {
  import opened Quotients
  import opened Journal
  import opened Postings
  import opened MapSums
  import opened RouteLease
  import opened LeaseSafety
  import Contracts

  // ---------------------------------------------------------------------------------------------
  // The offer

  /** Nothing was ever recorded under this lease's identifier, and everyone involved has an account. */
  ghost predicate Unused(books: Books, id: nat, fundedBy: Account, providers: seq<nat>)
  {
    && BooksOk(books) && Escrow(id) !in books.accounts && fundedBy in books.accounts
    && FundKey(id) !in books.journal && RefundKey(id) !in books.journal
    && (forall p :: PayKey(id, p) !in books.journal)
    && forall i :: 0 <= i < |providers| ==> Available(providers[i]) in books.accounts
  }

  lemma {:induction false} MaximumIsTotal(members: seq<Member>, maxima: seq<int>)
    requires |members| == |maxima| && forall i :: 0 <= i < |maxima| ==> members[i].maximum == maxima[i]
    ensures MaximumOf(members) == Contracts.Total(maxima)
  {
    if members != [] {
      MaximumIsTotal(members[..|members| - 1], maxima[..|maxima| - 1]);
    }
  }

  /** Every offer that is made escrows its whole budget, split into positive maxima that add up to it. */
  lemma OfferKeeps(
    books: Books, id: nat, sponsor: nat, fundedBy: Account, duration: int, rate: int, expires: int,
    openContracts: nat, routeReady: bool, providers: seq<nat>, domains: seq<nat>, shares: seq<int>)
    requires |providers| == |domains| == |shares| && 0 < duration && 0 < rate && Unused(books, id, fundedBy, providers)
    ensures var offer := MakeOffer(books, id, sponsor, fundedBy, duration, rate, expires, openContracts, routeReady,
                                   providers, domains, shares);
            offer.Made? ==>
              && DealOk(offer.deal) && offer.deal.lease.phase == Offered
              && offer.deal.books.Balance(fundedBy) == books.Balance(fundedBy) - offer.deal.lease.budget
              && offer.deal.lease.budget == rate * duration
              && offer.deal.books.accounts.Keys == books.accounts.Keys + {Escrow(id)}
              && forall a :: a != fundedBy && a != Escrow(id) ==> offer.deal.books.Balance(a) == books.Balance(a)
  {
    hide Posting, BooksOk, MaximumOf, PaidBy, Contracts.Parts, Contracts.Total, Value, Total;
    var offer := MakeOffer(books, id, sponsor, fundedBy, duration, rate, expires, openContracts, routeReady,
                           providers, domains, shares);
    if offer.Made? {
      var budget := rate * duration;
      var maxima := Contracts.Parts(budget, shares);
      var l := offer.deal.lease;
      Contracts.PartsExact(budget, shares);
      MaximumIsTotal(l.members, maxima);
      NothingPaid(l.members);
      forall i | 0 <= i < |l.members| ensures MemberOk(l, l.members[i]) { Unique(0, l.Span(), 0); }
      assert 0 < budget;
      assert LeaseOk(l);
      OpenKeeps(books, Escrow(id));
      FundingMoves(Open(books, Escrow(id)), id, fundedBy, budget);
    }
  }

  lemma FundingMoves(books: Books, id: nat, fundedBy: Account, budget: int)
    requires BooksOk(books) && FundKey(id) !in books.journal && fundedBy != Escrow(id)
    ensures var (after, verdict) := Posting(books, FundKey(id), [(fundedBy, -budget), (Escrow(id), budget)]);
            && BooksOk(after) && verdict != Replayed
            && (verdict == Posted ==>
                  && after.Balance(Escrow(id)) == books.Balance(Escrow(id)) + budget
                  && after.Balance(fundedBy) == books.Balance(fundedBy) - budget
                  && after.journal.Keys == books.journal.Keys + {FundKey(id)}
                  && after.accounts.Keys == books.accounts.Keys
                  && forall a :: a != fundedBy && a != Escrow(id) ==> after.Balance(a) == books.Balance(a))
  {
    hide BooksOk, Posting, Value;
    var out, back := (fundedBy, -budget), (Escrow(id), budget);
    assert [out] + [back] == [out, back];
    OneLine(out.0, out.1, Escrow(id));
    OneLine(back.0, back.1, Escrow(id));
    ValueJoin([out], [back], Escrow(id));
    OneLine(out.0, out.1, fundedBy);
    OneLine(back.0, back.1, fundedBy);
    ValueJoin([out], [back], fundedBy);
    PostKeeps(books, FundKey(id), [out, back]);
    PostMovesExactly(books, FundKey(id), [out, back], Escrow(id));
    PostMovesExactly(books, FundKey(id), [out, back], fundedBy);
    forall a | a != fundedBy && a != Escrow(id)
      ensures Posting(books, FundKey(id), [out, back]).1 == Posted ==>
                Posting(books, FundKey(id), [out, back]).0.Balance(a) == books.Balance(a)
    {
      OneLine(out.0, out.1, a);
      OneLine(back.0, back.1, a);
      ValueJoin([out], [back], a);
      PostMovesExactly(books, FundKey(id), [out, back], a);
    }
    FreshIsNoReplay(books, FundKey(id), [out, back]);
  }

  lemma FreshIsNoReplay(books: Books, key: Key, entries: Entries)
    requires key !in books.journal
    ensures Posting(books, key, entries).1 != Replayed
  {
  }

  // ---------------------------------------------------------------------------------------------
  // Runs

  /** d leads to e by the given steps, each of which was possible when it was taken. */
  ghost predicate Leads(d: Deal, actions: seq<Action>, e: Deal)
    requires 0 < d.lease.duration
    decreases |actions|
  {
    if actions == [] then e == d
    else
      && Possible(d, actions[0]) && 0 < Step(d, actions[0]).0.lease.duration
      && Leads(Step(d, actions[0]).0, actions[1..], e)
  }

  /**
   Main result: in every run the escrow equals the budget minus the members' payments while the window is open and
   nothing once it is closed, every member's pay is its exact share of the time credited to it, the jointly ready
   time never exceeds any member's, and no step fails inside.
   */
  lemma {:induction false} EveryRunKeeps(d: Deal, actions: seq<Action>, e: Deal)
    requires DealOk(d) && Leads(d, actions, e)
    ensures DealOk(e)
    decreases |actions|
  {
    hide DealOk, Possible, Step;
    if actions != [] {
      StepKeeps(d, actions[0]);
      EveryRunKeeps(Step(d, actions[0]).0, actions[1..], e);
    }
  }

  /** The same, spelled out for one member. */
  lemma {:induction false} WhatAMemberHas(d: Deal, actions: seq<Action>, e: Deal, i: nat)
    requires DealOk(d) && Leads(d, actions, e) && i < |e.lease.members|
    ensures var l := e.lease; var m := l.members[i];
            && 0 < l.duration && m.paid == m.credited * m.maximum / (l.duration * 1000)
            && 0 <= l.joint <= m.credited <= l.sample - l.started <= l.duration * 1000
            && 0 <= m.paid <= m.maximum
            && (m.paid == m.maximum <==> m.credited == l.duration * 1000)
            && e.books.Balance(Escrow(l.id)) == (if Funded(l.phase) then l.budget - PaidBy(l.members) else 0)
  {
    hide MoneyOk, Leads, PaidBy, MaximumOf;
    EveryRunKeeps(d, actions, e);
    MemberBounds(e.lease, e.lease.members[i]);
    FullPay(e.lease, e.lease.members[i]);
    EscrowOf(e);
  }

  lemma EscrowOf(e: Deal)
    requires DealOk(e)
    ensures e.books.Balance(Escrow(e.lease.id)) == (if Funded(e.lease.phase) then e.lease.budget - PaidBy(e.lease.members) else 0)
  {
  }

  /** The checks inside the projection and both postings cannot fail, whatever the clock and the nodes do. */
  lemma {:induction false} NoStepFailsInside(d: Deal, actions: seq<Action>, e: Deal, action: Action)
    requires DealOk(d) && Leads(d, actions, e) && 0 < e.lease.duration && Possible(e, action)
    ensures var reply := Step(e, action).1; !reply.LeaseProjection? && !reply.LedgerRefused?
  {
    hide LeaseOk, MoneyOk, Possible, Step, Leads;
    EveryRunKeeps(d, actions, e);
    StepKeeps(e, action);
  }

  // ---------------------------------------------------------------------------------------------
  // What a sample does

  /** Advancing a running lease, without the bookkeeping that provably succeeds. */
  lemma AdvanceIs(d: Deal, now: int, sight: Sight)
    requires DealOk(d) && Running(d.lease.phase) && Covers(sight, d.lease.members)
    ensures var l := d.lease; var r := Advance(d, now, sight).0.lease; var seen := Observed(l, now, sight);
            r == if now < l.sample then l else if now >= l.ends then seen.(phase := Completed, sampleReady := false) else seen
  {
    hide LeaseOk, MoneyOk, Pay, Close, Consistent, Joint, AllValid;
    var l := d.lease;
    LeaseFacts(l);
    if l.sample <= now {
      ObservedOk(l, now, sight);
      PayKeeps(d, Observed(l, now, sight));
      CloseKeeps(Pay(d, Observed(l, now, sight)).0, Completed);
    }
  }

  /** What an action means for member i: a sample with its own observation, and whether it leaves; or nothing. */
  datatype Instant = Nothing | Sample(now: int, up: bool, epoch: int, leaves: bool)

  function InstantOf(l: Lease, action: Action, i: nat): Instant
    requires i < |l.members|
  {
    match action
    case DoReconcile(now, sight) =>
      if Covers(sight, l.members) then Sample(now, sight.up[i], sight.epochs[i], false) else Nothing
    case DoCancel(user, admin, now, sight) =>
      if Covers(sight, l.members) && (l.sponsor == user || admin || l.Provider(user)) then
        Sample(now, sight.up[i], sight.epochs[i], l.members[i].provider == user)
      else Nothing
    case _ => Nothing
  }

  /**
   No instant is paid twice: a step credits a member either nothing or exactly the time since the previous sample,
   the latter exactly between two ready observations of one boot at most six seconds apart, and samples never go back.
   */
  lemma EachInstantOnce(d: Deal, action: Action, i: nat)
    requires DealOk(d) && Running(d.lease.phase) && Possible(d, action) && i < |d.lease.members|
    ensures var l := d.lease; var r := Step(d, action).0.lease;
            && |r.members| == |l.members| && r.started == l.started && l.sample <= r.sample
            && (|| r.members[i].credited == l.members[i].credited
                || (&& r.members[i].credited == l.members[i].credited + (r.sample - l.sample)
                    && l.members[i].sampleReady && !l.members[i].withdrawn && r.sample - l.sample <= GAP
                    && InstantOf(l, action, i).Sample? && InstantOf(l, action, i).up
                    && InstantOf(l, action, i).epoch == l.members[i].epoch))
            && r.sample == (if InstantOf(l, action, i).Sample? && l.sample <= action.now
                            then (if action.now <= l.ends then action.now else l.ends) else l.sample)
            && (InstantOf(l, action, i).Sample? && l.sample <= action.now <= l.sample + 6000
                && l.members[i].sampleReady && !l.members[i].withdrawn
                && InstantOf(l, action, i).up && InstantOf(l, action, i).epoch == l.members[i].epoch ==>
                  r.members[i].credited == l.members[i].credited + (r.sample - l.sample))
  {
    hide LeaseOk, MoneyOk, Advance, Step, Foreign, Possible;
    StepIs(d, i, action);
    if InstantOf(d.lease, action, i).Sample? { LookOnce(d, action.now, action.sight, i); }
  }

  /** The same of one look. */
  lemma LookOnce(d: Deal, now: int, sight: Sight, i: nat)
    requires DealOk(d) && Running(d.lease.phase) && Covers(sight, d.lease.members) && i < |d.lease.members|
    ensures var l := d.lease; var m := l.members[i]; var r := Advance(d, now, sight).0.lease;
            && |r.members| == |l.members| && r.started == l.started
            && r.sample == (if now < l.sample then l.sample else if now <= l.ends then now else l.ends) && l.sample <= l.ends
            && r.members[i].credited == m.credited
               + if m.sampleReady && !m.withdrawn && sight.up[i] && m.epoch == sight.epochs[i] && l.sample <= now <= l.sample + 6000
                 then r.sample - l.sample else 0
  {
    hide LeaseOk, MoneyOk, Advance, Joint, AllValid, Earned, PaidBy;
    SampledInWindow(d.lease);
    AdvanceIs(d, now, sight);
  }

  lemma SampledInWindow(l: Lease)
    requires LeaseOk(l) && Running(l.phase)
    ensures l.sample <= l.ends
  {
  }

  /** A closed lease is final: nothing about its money, its members or its times ever changes again. */
  lemma ClosedIsFinal(d: Deal, action: Action)
    requires DealOk(d) && !Funded(d.lease.phase) && Possible(d, action)
    ensures Step(d, action).0.lease == d.lease
    ensures !action.Elsewhere? ==> Step(d, action).0.books == d.books
  {
    hide LeaseOk, MoneyOk, Advance, Joint, Foreign;
  }

  // ---------------------------------------------------------------------------------------------
  // A member's pay depends on nobody else

  /** Two leases that agree on the window and on one member each, whoever the others are. */
  predicate Alike(k: Lease, i: nat, l: Lease, j: nat)
  {
    && i < |k.members| && j < |l.members|
    && k.duration == l.duration && k.started == l.started && k.ends == l.ends && k.sample == l.sample
    && !k.phase.Offered? && !l.phase.Offered? && (Running(k.phase) <==> Running(l.phase))
    && SameMember(k.members[i], l.members[j])
  }

  predicate SameMember(a: Member, b: Member)
  {
    && a.maximum == b.maximum && a.credited == b.credited && a.paid == b.paid
    && a.sampleReady == b.sampleReady && a.epoch == b.epoch && a.withdrawn == b.withdrawn
  }

  lemma AdvanceAlike(c: Deal, i: nat, d: Deal, j: nat, now: int, s: Sight, t: Sight)
    requires DealOk(c) && DealOk(d) && Alike(c.lease, i, d.lease, j) && Running(c.lease.phase)
    requires Covers(s, c.lease.members) && Covers(t, d.lease.members)
    requires s.up[i] == t.up[j] && s.epochs[i] == t.epochs[j]
    ensures Alike(Advance(c, now, s).0.lease, i, Advance(d, now, t).0.lease, j)
  {
    hide LeaseOk, MoneyOk, Advance, Joint, AllValid, PaidBy;
    AdvanceIs(c, now, s);
    AdvanceIs(d, now, t);
  }

  lemma StepAlike(c: Deal, i: nat, d: Deal, j: nat, a: Action, b: Action)
    requires DealOk(c) && DealOk(d) && Alike(c.lease, i, d.lease, j) && Possible(c, a) && Possible(d, b)
    requires InstantOf(c.lease, a, i) == InstantOf(d.lease, b, j)
    ensures Alike(Step(c, a).0.lease, i, Step(d, b).0.lease, j)
  {
    hide LeaseOk, MoneyOk, Advance, Foreign, SameMember;
    if !Running(c.lease.phase) {
      ClosedIsFinal(c, a);
      ClosedIsFinal(d, b);
    } else {
      StepIs(c, i, a);
      StepIs(d, j, b);
      if InstantOf(c.lease, a, i).Sample? {
        LeaseFacts(c.lease);
        LeaseFacts(d.lease);
        ProviderStays(c, a.now, a.sight, i);
        ProviderStays(d, b.now, b.sight, j);
        AdvanceAlike(c, i, d, j, a.now, a.sight, b.sight);
        ExitAlike(Advance(c, a.now, a.sight).0.lease, i, Advance(d, b.now, b.sight).0.lease, j,
                  c.lease.members[i].provider, d.lease.members[j].provider, a, b);
      }
    }
  }

  /** A step on a running lease, as a sample and possibly an exit. */
  lemma StepIs(d: Deal, i: nat, action: Action)
    requires DealOk(d) && Running(d.lease.phase) && Possible(d, action) && i < |d.lease.members|
    ensures var r := Step(d, action).0.lease;
            match InstantOf(d.lease, action, i)
            case Nothing => r == d.lease
            case Sample(now, _, _, _) =>
              var seen := Advance(d, now, action.sight).0.lease;
              r == if action.DoCancel? && Running(seen.phase) then Drained(seen, action.user) else seen
  {
    hide LeaseOk, MoneyOk, Advance, Foreign;
    match action
    case DoReconcile(now, sight) => AdvanceKeeps(d, now, sight);
    case DoCancel(user, admin, now, sight) => AdvanceKeeps(d, now, sight);
    case _ =>
  }

  /** Leaving or not leaving gives the same member again, whoever else leaves. */
  lemma ExitAlike(k: Lease, i: nat, l: Lease, j: nat, p: nat, q: nat, a: Action, b: Action)
    requires Alike(k, i, l, j) && k.members[i].provider == p && l.members[j].provider == q
    requires a.DoReconcile? || a.DoCancel?
    requires b.DoReconcile? || b.DoCancel?
    requires (a.DoCancel? && a.user == p) <==> (b.DoCancel? && b.user == q)
    ensures Alike(if a.DoCancel? && Running(k.phase) then Drained(k, a.user) else k, i,
                  if b.DoCancel? && Running(l.phase) then Drained(l, b.user) else l, j)
  {
  }

  lemma ProviderStays(d: Deal, now: int, sight: Sight, i: nat)
    requires DealOk(d) && Running(d.lease.phase) && Covers(sight, d.lease.members) && i < |d.lease.members|
    ensures var r := Advance(d, now, sight).0.lease; |r.members| == |d.lease.members| && r.members[i].provider == d.lease.members[i].provider
  {
    hide LeaseOk, MoneyOk, Advance, Joint, AllValid, PaidBy;
    LeaseFacts(d.lease);
    AdvanceIs(d, now, sight);
  }

  /** Two runs that sample at the same instants and see the same of one member each. */
  ghost predicate SeeTheSame(c: Deal, i: nat, d: Deal, j: nat, a: seq<Action>, b: seq<Action>)
    requires 0 < c.lease.duration && 0 < d.lease.duration && |a| == |b|
    decreases |a|
  {
    a == [] ||
    (&& i < |c.lease.members| && j < |d.lease.members|
     && Possible(c, a[0]) && Possible(d, b[0]) && InstantOf(c.lease, a[0], i) == InstantOf(d.lease, b[0], j)
     && 0 < Step(c, a[0]).0.lease.duration && 0 < Step(d, b[0]).0.lease.duration
     && SeeTheSame(Step(c, a[0]).0, i, Step(d, b[0]).0, j, a[1..], b[1..]))
  }

  /**
   Main result: a member's total pay is the same in any two runs with the same sampling instants and the same
   observations of that member, whatever the other members' readiness, exits and restarts, and whether or not
   the window drains.
   */
  lemma {:induction false} PayIsIndependent(
    c: Deal, i: nat, d: Deal, j: nat, a: seq<Action>, b: seq<Action>, e: Deal, f: Deal)
    requires DealOk(c) && DealOk(d) && Alike(c.lease, i, d.lease, j) && |a| == |b|
    requires Leads(c, a, e) && Leads(d, b, f) && SeeTheSame(c, i, d, j, a, b)
    ensures Alike(e.lease, i, f.lease, j) && e.lease.members[i].paid == f.lease.members[j].paid
    decreases |a|
  {
    hide DealOk, Possible, Step, InstantOf;
    if a != [] {
      StepKeeps(c, a[0]);
      StepKeeps(d, b[0]);
      StepAlike(c, i, d, j, a[0], b[0]);
      PayIsIndependent(Step(c, a[0]).0, i, Step(d, b[0]).0, j, a[1..], b[1..], e, f);
    }
  }

  // ---------------------------------------------------------------------------------------------
  // Degradation drains

  /** Once degraded or cancelled, a window never becomes active again, and a member that left stays out. */
  lemma DrainingIsOneWay(d: Deal, action: Action)
    requires DealOk(d) && d.lease.phase == Draining && Possible(d, action)
    ensures Step(d, action).0.lease.phase in {Draining, Completed}
    ensures var t := Step(d, action).0.lease;
            && |t.members| == |d.lease.members|
            && forall i :: 0 <= i < |t.members| && d.lease.members[i].withdrawn ==> StaysOut(d.lease.members[i], t.members[i])
  {
    hide LeaseOk, MoneyOk, Advance, Joint, AllValid, PaidBy, Foreign, SampledAll, StaysOut;
    WhoLeftStaysOut(d, action);
    match action
    case DoReconcile(now, sight) => AdvanceIs(d, now, sight);
    case DoCancel(user, admin, now, sight) => AdvanceIs(d, now, sight); AdvanceKeeps(d, now, sight);
    case _ =>
  }

  predicate StaysOut(before: Member, after: Member)
  {
    after.withdrawn && after.credited == before.credited && after.paid == before.paid
  }

  /** In every phase, a member that left stays out and earns nothing more. */
  lemma WhoLeftStaysOut(d: Deal, action: Action)
    requires DealOk(d) && Possible(d, action)
    ensures var t := Step(d, action).0.lease;
            && |t.members| == |d.lease.members|
            && forall i :: 0 <= i < |t.members| && d.lease.members[i].withdrawn ==> StaysOut(d.lease.members[i], t.members[i])
  {
    hide MoneyOk, LeaseOk, Advance, Joint, AllValid, PaidBy, Foreign;
    match action
    case DoReconcile(now, sight) => if Funded(d.lease.phase) { AdvanceKeepsOut(d, now, sight); }
    case DoCancel(user, admin, now, sight) => if Running(d.lease.phase) { AdvanceKeepsOut(d, now, sight); AdvanceKeeps(d, now, sight); }
    case _ =>
  }

  lemma AdvanceKeepsOut(d: Deal, now: int, sight: Sight)
    requires DealOk(d) && Funded(d.lease.phase) && Covers(sight, d.lease.members)
    ensures 0 < d.lease.duration
    ensures var t := Advance(d, now, sight).0.lease;
            && |t.members| == |d.lease.members|
            && forall i :: 0 <= i < |t.members| && d.lease.members[i].withdrawn ==> StaysOut(d.lease.members[i], t.members[i])
  {
    hide MoneyOk, Joint, AllValid, PaidBy, Pay, Posting;
    LeaseFacts(d.lease);
    if Running(d.lease.phase) {
      AdvanceIs(d, now, sight);
      forall i | 0 <= i < |d.lease.members| && d.lease.members[i].withdrawn
        ensures StaysOut(d.lease.members[i], Sampled(d.lease, d.lease.members[i], now, sight.up[i], sight.epochs[i]))
      {
        assert MemberOk(d.lease, d.lease.members[i]);
      }
    }
  }

  /** So it is in every run. */
  lemma {:induction false} LeavingIsFinal(d: Deal, actions: seq<Action>, e: Deal, i: nat)
    requires DealOk(d) && Leads(d, actions, e) && i < |d.lease.members| && d.lease.members[i].withdrawn
    ensures i < |e.lease.members| && StaysOut(d.lease.members[i], e.lease.members[i])
    decreases |actions|
  {
    hide DealOk, Possible, Step;
    if actions != [] {
      StepKeeps(d, actions[0]);
      WhoLeftStaysOut(d, actions[0]);
      LeavingIsFinal(Step(d, actions[0]).0, actions[1..], e, i);
    }
  }
}
