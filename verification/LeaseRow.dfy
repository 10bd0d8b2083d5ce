/** The lease and member rows as they are updated, one transaction per method. */
module LeaseRow {
  import opened Journal
  import opened RouteLease
  import opened LeaseCredits
  import opened LeaseSafety

  /** The line of one member, when it earned something. */
  function LineFor(before: Member, after: Member): Entries
  {
    if after.paid > before.paid then [(Available(after.provider), after.paid - before.paid)] else []
  }

  lemma OneMore(before: seq<Member>, after: seq<Member>, i: nat)
    requires |before| == |after| && i < |after|
    ensures PaidBy(after[..i + 1]) == PaidBy(after[..i]) + after[i].paid
    ensures PayLines(before[..i + 1], after[..i + 1]) == PayLines(before[..i], after[..i]) + LineFor(before[i], after[i])
    ensures after[..i + 1] == after[..i] + [after[i]]
  {
    assert after[..i + 1][..i] == after[..i] && before[..i + 1][..i] == before[..i];
  }

  lemma AtSample(l: Lease, now: int, sight: Sight, i: nat)
    requires 0 < l.duration && Covers(sight, l.members) && i < |l.members|
    ensures |SampledAll(l, now, sight)| == |l.members|
    ensures SampledAll(l, now, sight)[i] == Sampled(l, l.members[i], now, sight.up[i], sight.epochs[i])
  {
  }

  /** The first n projections are consistent, and which of them were credited. */
  predicate ConsistentUpTo(before: seq<Member>, after: seq<Member>, n: nat)
    requires n <= |before| && n <= |after|
  {
    forall k :: 0 <= k < n ==> Consistent(before[k], after[k])
  }

  predicate ValidUpTo(l: Lease, now: int, sight: Sight, n: nat)
    requires Covers(sight, l.members) && n <= |l.members|
  {
    forall k :: 0 <= k < n ==> Valid(l, l.members[k], now, sight.up[k], sight.epochs[k])
  }

  method SampleMember(l: Lease, now: int, elapsed: int, p: Member, up: bool, epoch: int) returns (valid: bool, row: Member)
    requires 0 < l.duration && elapsed == Until(l, now) - l.sample
    ensures valid == Valid(l, p, now, up, epoch) && row == Sampled(l, p, now, up, epoch)
    ensures valid <==> p.sampleReady && !p.withdrawn && up && p.epoch == epoch && now - l.sample <= 6000
    ensures row.credited == p.credited + if valid then elapsed else 0
  {
    var ready := Ready(p, up);
    valid := now - l.sample <= GAP && p.sampleReady && ready && p.epoch == epoch;
    var credited := p.credited + if valid then elapsed else 0;
    var total := credited * p.maximum / (l.duration * 1000);
    row := p.(credited := credited, paid := total, sampleReady := ready, epoch := epoch);
  }

  /** The loop over the members: each one's new row, the lines to post, their total, and whether all were valid. */
  method SampleMembers(l: Lease, now: int, sight: Sight) returns (ok: bool, rows: seq<Member>, lines: Entries, paid: int, allValid: bool)
    requires 0 < l.duration && Covers(sight, l.members)
    ensures |SampledAll(l, now, sight)| == |l.members|
    ensures ok <==> ConsistentUpTo(l.members, SampledAll(l, now, sight), |l.members|)
    ensures ok ==> rows == SampledAll(l, now, sight) && paid == PaidBy(rows)
                   && lines == PayLines(l.members, rows) && allValid == AllValid(l, now, sight)
    ensures ok && l.sample <= now && l.sample <= l.ends ==>
              |rows| == |l.members| && forall i :: 0 <= i < |rows| ==> SampledAs(l, l.(members := rows), i, now, sight)
  {
    hide Joint, Valid, Sampled, PayLines, PaidBy, SampledAll, Until, SampledAs;
    var elapsed := Until(l, now) - l.sample;
    rows, lines, paid := [], [], 0;
    var usable := l.sampleReady && Joint(l.members, sight) && now - l.sample <= GAP;
    allValid := usable;
    ghost var all := SampledAll(l, now, sight);
    assert |all| == |l.members| by { if l.members != [] { AtSample(l, now, sight, 0); } else { NoMembers(l, now, sight); } }
    Start(l.members, all);
    var i := 0;
    while i < |l.members|
      invariant 0 <= i <= |l.members| && rows == all[..i]
      invariant ConsistentUpTo(l.members, all, i)
      invariant paid == PaidBy(all[..i]) && lines == PayLines(l.members[..i], all[..i])
      invariant allValid <==> usable && ValidUpTo(l, now, sight, i)
    {
      var p := l.members[i];
      AtSample(l, now, sight, i);
      var valid, row := SampleMember(l, now, elapsed, p, sight.up[i], sight.epochs[i]);
      allValid := allValid && valid;
      var delta := row.paid - p.paid;
      if !(delta >= 0 && row.paid <= p.maximum) {
        SampledMaximumStays(l, p, now, sight.up[i], sight.epochs[i]);
        assert !Consistent(l.members[i], all[i]);
        return false, [], [], 0, false;
      }
      SampledMaximumStays(l, p, now, sight.up[i], sight.epochs[i]);
      OneMore(l.members, all, i);
      if delta > 0 {
        lines := lines + [(Available(p.provider), delta)];
      }
      rows := rows + [row];
      paid := paid + row.paid;
      i := i + 1;
    }
    assert l.members[..|l.members|] == l.members && all[..|l.members|] == all;
    ok := true;
    if l.sample <= now && l.sample <= l.ends {
      forall i | 0 <= i < |rows| ensures SampledAs(l, l.(members := rows), i, now, sight) { SampleMeets(l, now, sight, i); }
    }
  }

  lemma Start(before: seq<Member>, after: seq<Member>)
    requires |before| == |after|
    ensures PaidBy(after[..0]) == 0 && PayLines(before[..0], after[..0]) == []
  {
  }

  lemma NoMembers(l: Lease, now: int, sight: Sight)
    requires 0 < l.duration && Covers(sight, l.members) && l.members == []
    ensures SampledAll(l, now, sight) == []
  {
  }

  lemma SampledMaximumStays(l: Lease, p: Member, now: int, up: bool, epoch: int)
    requires 0 < l.duration
    ensures Sampled(l, p, now, up, epoch).maximum == p.maximum && Sampled(l, p, now, up, epoch).provider == p.provider
  {
  }

  /** offerTransaction: the lease row of a funded offer, with its members; an error leaves the books as they were. */
  method Offer(
    ledger: Ledger, id: nat, sponsor: nat, fundedBy: Account, duration: int, rate: int, expires: int, openContracts: nat,
    routeReady: bool, providers: seq<nat>, domains: seq<nat>, shares: seq<int>) returns (made: bool, lease: Lease)
    requires |providers| == |domains| == |shares|
    modifies ledger
    ensures var offer := MakeOffer(old(ledger.View()), id, sponsor, fundedBy, duration, rate, expires, openContracts, routeReady,
                                   providers, domains, shares);
            if made then offer == Made(Deal(lease, ledger.View())) else offer.NoOffer? && ledger.View() == old(ledger.View())
  {
    hide Posting, Contracts.Parts, Contracts.Splittable;
    made, lease := false, Lease(id, sponsor, fundedBy, duration, rate * duration, expires, Offered, [], {}, 0, 0, 0, false, 0, 0);
    var budget := rate * duration;
    if budget > Contracts.MAX_AMOUNT || openContracts >= 4 || !routeReady {
      return;
    }
    var maxima := Contracts.SplitByBps(budget, shares);
    if maxima.None? || exists i :: 0 <= i < |maxima.value| && maxima.value[i] <= 0 {
      return;
    }
    var accounts, journal := ledger.accounts, ledger.journal;
    ledger.accounts := Journal.Open(ledger.View(), Escrow(id)).accounts;
    assert ledger.View() == Journal.Open(old(ledger.View()), Escrow(id));
    var verdict := ledger.Post(FundKey(id), [(fundedBy, -budget), (Escrow(id), budget)]);
    if verdict != Posted && verdict != Replayed {
      ledger.accounts, ledger.journal := accounts, journal;
      return;
    }
    made := true;
    lease := lease.(members := seq(|shares|, i requires 0 <= i < |shares| => NewMember(providers[i], domains[i], maxima.value[i])));
  }

  class Row {
    var lease: Lease
    const ledger: Ledger

    ghost predicate Sane()
      reads this
    {
      0 < lease.duration
    }

    function View(): Deal
      reads this, ledger
    {
      Deal(lease, ledger.View())
    }

    constructor (lease: Lease, ledger: Ledger)
      ensures this.lease == lease && this.ledger == ledger
    {
      this.lease, this.ledger := lease, ledger;
    }

    /** An aborted transaction leaves both rows and books as they were. */
    method Rollback(saved: Deal)
      modifies this, ledger
      ensures View() == saved
    {
      lease := saved.lease;
      ledger.accounts, ledger.journal := saved.books.accounts, saved.books.journal;
    }

    method Close(phase: Phase, paid: int) returns (reply: Reply)
      modifies this, ledger
      ensures View() == RouteLease.Close(old(View()), phase, paid).0 && reply == RouteLease.Close(old(View()), phase, paid).1
    {
      hide Posting;
      var remaining := lease.budget - paid;
      if remaining > 0 {
        var verdict := ledger.Post(RefundKey(lease.id), [(Escrow(lease.id), -remaining), (lease.refundTo, remaining)]);
        if verdict != Posted && verdict != Replayed {
          RefusedIsUnchanged(old(ledger.View()), RefundKey(lease.id), [(Escrow(lease.id), -remaining), (lease.refundTo, remaining)]);
          return LedgerRefused(verdict);
        }
      }
      lease := lease.(phase := phase, sampleReady := false);
      reply := Done;
    }

    method Advance(now: int, sight: Sight) returns (reply: Reply)
      requires Sane() && Covers(sight, lease.members)
      modifies this, ledger
      ensures View() == RouteLease.Advance(old(View()), now, sight).0 && reply == RouteLease.Advance(old(View()), now, sight).1
      ensures DealOk(old(View())) && old(lease.phase) in {Active, Draining} ==> reply == Done && Looked(old(lease), lease, now, sight)
    {
      hide Looked, DealOk, Posting, Joint, AllValid, Consistent, PaidBy, PayLines, RouteLease.Close, SampledAll;
      if DealOk(View()) && lease.phase in {Active, Draining} { SampleIs(View(), now, sight); }
      if lease.phase == Offered {
        if now >= lease.offerExpires {
          reply := Close(Expired, 0);
          return;
        }
        return Done;
      }
      if now < lease.sample {
        return Done;
      }
      var saved := View();
      var ok, rows, lines, paid, allValid := SampleMembers(lease, now, sight);
      if !ok {
        return LeaseProjection;
      }
      var delta := paid - lease.paid;
      if delta > 0 {
        lines := lines + [(Escrow(lease.id), -delta)];
        var verdict := ledger.Post(PayKey(lease.id, paid), lines);
        if verdict != Posted && verdict != Replayed {
          RefusedIsUnchanged(old(ledger.View()), PayKey(lease.id, paid), lines);
          return LedgerRefused(verdict);
        }
      }
      var until := Max(lease.sample, Min(now, lease.ends));
      var joint := lease.joint + if allValid then until - lease.sample else 0;
      var intact := Joint(lease.members, sight);
      var ends := lease.ends;
      lease := lease.(members := rows, phase := if !intact then Draining else lease.phase, paid := paid,
                      joint := joint, sample := until, sampleReady := intact);
      assert View() == Pay(saved, Observed(saved.lease, now, sight)).0;
      reply := Done;
      if now >= ends {
        reply := Close(Completed, paid);
        if reply != Done {
          Rollback(saved);
        }
      }
    }

    method Cancel(user: nat, admin: bool, now: int, sight: Sight) returns (reply: Reply)
      requires Sane() && Covers(sight, lease.members)
      modifies this, ledger
      ensures View() == RouteLease.Cancel(old(View()), user, admin, now, sight).0
           && reply == RouteLease.Cancel(old(View()), user, admin, now, sight).1
    {
      hide RouteLease.Advance, RouteLease.Close;
      if !(lease.sponsor == user || admin || lease.Provider(user)) {
        return Missing;
      }
      if lease.phase == Offered {
        reply := Close(Cancelled, lease.paid);
        return;
      }
      if !Running(lease.phase) {
        return Done;
      }
      var saved := View();
      reply := Advance(now, sight);
      if reply != Done {
        Rollback(saved);
        return;
      }
      if Running(lease.phase) {
        lease := Drained(lease, user);
      }
    }

    method Accept(
      user: nat, termsMatch: bool, checked: int, free: bool, now: int, supported: bool, sight: Sight) returns (reply: Reply)
      requires Covers(sight, lease.members)
      modifies this
      ensures View() == RouteLease.Accept(old(View()), user, termsMatch, checked, free, now, supported, sight).0
           && reply == RouteLease.Accept(old(View()), user, termsMatch, checked, free, now, supported, sight).1
    {
      hide Joint;
      if !lease.Provider(user) {
        return Missing;
      }
      if !termsMatch {
        return Terms;
      }
      var prior := user in lease.accepted;
      if prior && lease.phase != Offered {
        return Done;
      }
      if !(lease.phase == Offered && lease.offerExpires > checked) {
        return OfferExpired;
      }
      var agreed := lease.(accepted := lease.accepted + {user});
      if !agreed.AllAccepted() {
        lease := agreed;
        return Done;
      }
      if !free {
        return DomainLeased;
      }
      if !supported {
        return SupportWindow;
      }
      if !Joint(lease.members, sight) {
        return RouteNotReady;
      }
      lease := Activated(agreed, now, sight);
      reply := Done;
    }
  }
}
