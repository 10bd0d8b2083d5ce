/** Every reachable lease: what is escrowed, what is earned, and why no step of it can fail inside. */
module LeaseSafety {
  import opened Quotients
  import opened Journal
  import opened Postings
  import opened MapSums
  import opened RouteLease
  import Contracts

  // ---------------------------------------------------------------------------------------------
  // The invariant

  /** A member earned exactly its share of the time it was credited, and was credited no more time than passed. */
  predicate MemberOk(l: Lease, m: Member)
    requires 0 < l.duration
  {
    && 0 < m.maximum
    && 0 <= l.joint <= m.credited <= l.sample - l.started
    && m.paid == m.credited * m.maximum / l.Span()
  }

  function MaximumOf(members: seq<Member>): int
  {
    if members == [] then 0 else MaximumOf(members[..|members| - 1]) + members[|members| - 1].maximum
  }

  predicate LeaseOk(l: Lease)
  {
    && 0 < l.duration && 0 < l.budget <= Contracts.MAX_AMOUNT && |l.members| >= 1
    && l.sample - l.started <= l.Span()
    && (Running(l.phase) ==> l.ends == l.started + l.Span())
    && (forall i :: 0 <= i < |l.members| ==> MemberOk(l, l.members[i]))
    && l.paid == PaidBy(l.members) && l.budget == MaximumOf(l.members)
    && (l.phase == Offered ==> l.sample == l.started)
  }

  /** The escrow holds what is not yet paid while the lease is open, and nothing afterwards. */
  ghost predicate MoneyOk(d: Deal)
  {
    var l := d.lease;
    && BooksOk(d.books)
    && d.books.Balance(Escrow(l.id)) == (if Funded(l.phase) then l.budget - l.paid else 0)
    && (forall p :: PayKey(l.id, p) in d.books.journal ==> p <= l.paid)
    && (RefundKey(l.id) in d.books.journal ==> !Funded(l.phase))
    && AccountsExist(l, d.books)
  }

  predicate AccountsExist(l: Lease, books: Books)
  {
    && Escrow(l.id) in books.accounts && l.refundTo in books.accounts && l.refundTo != Escrow(l.id)
    && forall i :: 0 <= i < |l.members| ==> Available(l.members[i].provider) in books.accounts
  }

  ghost predicate DealOk(d: Deal) { LeaseOk(d.lease) && MoneyOk(d) }

  // ---------------------------------------------------------------------------------------------
  // Earnings

  lemma EarnedBounds(credited: int, more: int, maximum: int, span: int)
    requires 0 <= credited <= more <= span && 0 < span && 0 <= maximum
    ensures 0 <= credited * maximum / span <= more * maximum / span <= maximum
  {
    Product(maximum, 0, credited);
    Product(maximum, credited, more);
    Product(maximum, more, span);
    QuotientGrows(0, credited * maximum, span);
    QuotientGrows(credited * maximum, more * maximum, span);
    QuotientGrows(more * maximum, span * maximum, span);
    Unique(span * maximum, span, maximum);
  }

  lemma MemberBounds(l: Lease, m: Member)
    requires 0 < l.duration && MemberOk(l, m) && l.sample - l.started <= l.Span()
    ensures 0 <= m.paid <= m.maximum
  {
    EarnedBounds(m.credited, m.credited, m.maximum, l.Span());
  }

  /** Paid in full exactly when the whole window was credited (rounding never completes a payment early). */
  lemma FullPay(l: Lease, m: Member)
    requires 0 < l.duration && MemberOk(l, m) && l.sample - l.started <= l.Span()
    ensures m.paid == m.maximum <==> m.credited == l.Span()
  {
    EarnedBounds(m.credited, m.credited, m.maximum, l.Span());
    Bounds(m.credited * m.maximum, l.Span());
    if m.credited == l.Span() {
      Unique(l.Span() * m.maximum, l.Span(), m.maximum);
    } else {
      assert m.credited * m.maximum == l.Span() * m.maximum - (l.Span() - m.credited) * m.maximum;
      Product(m.maximum, 1, l.Span() - m.credited);
    }
  }

  lemma {:induction false} PaidWithinMaximum(members: seq<Member>)
    requires forall i :: 0 <= i < |members| ==> 0 <= members[i].paid <= members[i].maximum
    ensures 0 <= PaidBy(members) <= MaximumOf(members)
  {
    if members != [] {
      PaidWithinMaximum(members[..|members| - 1]);
    }
  }

  lemma {:induction false} SameMaximum(a: seq<Member>, b: seq<Member>)
    requires |a| == |b| && forall i :: 0 <= i < |a| ==> a[i].maximum == b[i].maximum
    ensures MaximumOf(a) == MaximumOf(b)
  {
    if a != [] {
      SameMaximum(a[..|a| - 1], b[..|b| - 1]);
    }
  }

  lemma {:induction false} SamePaid(a: seq<Member>, b: seq<Member>)
    requires |a| == |b| && forall i :: 0 <= i < |a| ==> a[i].paid == b[i].paid
    ensures PaidBy(a) == PaidBy(b)
  {
    if a != [] {
      SamePaid(a[..|a| - 1], b[..|b| - 1]);
    }
  }

  /** One sample of one member: its projection is consistent and its invariant is kept. */
  lemma SampledOk(l: Lease, now: int, sight: Sight, i: nat)
    requires LeaseOk(l) && Running(l.phase) && l.sample <= now && Covers(sight, l.members) && i < |l.members|
    ensures var after := Observed(l, now, sight);
            && MemberOk(after, after.members[i]) && Consistent(l.members[i], after.members[i])
            && 0 <= after.sample - l.sample && after.sample - l.started <= l.Span()
  {
    hide PaidBy, MaximumOf;
    var m := l.members[i];
    var after := Observed(l, now, sight);
    assert MemberOk(l, m);
    EarnedBounds(m.credited, after.members[i].credited, m.maximum, l.Span());
  }

  lemma ObservedOk(l: Lease, now: int, sight: Sight)
    requires LeaseOk(l) && Running(l.phase) && l.sample <= now && Covers(sight, l.members)
    ensures var after := Observed(l, now, sight);
            && LeaseOk(after)
            && (forall i :: 0 <= i < |l.members| ==> Consistent(l.members[i], after.members[i]))
            && l.paid <= after.paid <= l.budget
  {
    hide MemberOk, Consistent, PaidBy, MaximumOf, Joint, AllValid, Sampled, Until;
    var after := Observed(l, now, sight);
    forall i | 0 <= i < |l.members| ensures MemberOk(after, after.members[i]) && Consistent(l.members[i], after.members[i]) {
      SampledOk(l, now, sight, i);
    }
    SampledOk(l, now, sight, 0);
    SampledMaximum(l, now, sight);
    PaidGrows(l.members, after.members);
    forall i | 0 <= i < |l.members| ensures 0 <= after.members[i].paid <= after.members[i].maximum {
      MemberBounds(after, after.members[i]);
    }
    PaidWithinMaximum(after.members);
  }

  lemma SampledMaximum(l: Lease, now: int, sight: Sight)
    requires 0 < l.duration && Covers(sight, l.members)
    ensures MaximumOf(SampledAll(l, now, sight)) == MaximumOf(l.members)
  {
    hide Valid, Until;
    SameMaximum(SampledAll(l, now, sight), l.members);
  }

  lemma {:induction false} PaidGrows(a: seq<Member>, b: seq<Member>)
    requires |a| == |b| && forall i :: 0 <= i < |a| ==> Consistent(a[i], b[i])
    ensures PaidBy(a) <= PaidBy(b)
  {
    if a != [] {
      PaidGrows(a[..|a| - 1], b[..|b| - 1]);
    }
  }

  // ---------------------------------------------------------------------------------------------
  // Postings

  /** The last member's line. */
  function LastLine(before: seq<Member>, after: seq<Member>): Entries
    requires |before| == |after| > 0
  {
    var n := |before| - 1;
    if after[n].paid > before[n].paid then [(Available(after[n].provider), after[n].paid - before[n].paid)] else []
  }

  lemma {:induction false} LastLineValue(before: seq<Member>, after: seq<Member>, account: Account)
    requires |before| == |after| > 0 && Consistent(before[|before| - 1], after[|after| - 1])
    ensures var n := |before| - 1; var last := LastLine(before, after);
            && Total(last) == after[n].paid - before[n].paid
            && Value(last, account) == (if account == Available(after[n].provider) then after[n].paid - before[n].paid else 0)
  {
    var last := LastLine(before, after);
    assert last != [] ==> last[..0] == [];
  }

  /** The payment lines add up to what the members gained. */
  lemma {:induction false} PayLinesValue(before: seq<Member>, after: seq<Member>, account: Account)
    requires |before| == |after| && forall i :: 0 <= i < |before| ==> Consistent(before[i], after[i])
    ensures Total(PayLines(before, after)) == PaidBy(after) - PaidBy(before)
    ensures 0 <= Value(PayLines(before, after), account) <= PaidBy(after) - PaidBy(before)
  {
    if before != [] {
      var n := |before| - 1;
      var b, a := before[..n], after[..n];
      PayLinesValue(b, a, account);
      LastLineValue(before, after, account);
      ValueJoin(PayLines(b, a), LastLine(before, after), account);
    }
  }

  /** They go to members only. */
  lemma {:induction false} PayLinesPayee(before: seq<Member>, after: seq<Member>, account: Account)
    requires |before| == |after| && forall i :: 0 <= i < |before| ==> Consistent(before[i], after[i])
    requires forall i :: 0 <= i < |after| ==> account != Available(after[i].provider)
    ensures Value(PayLines(before, after), account) == 0
  {
    if before != [] {
      var n := |before| - 1;
      PayLinesPayee(before[..n], after[..n], account);
      LastLineValue(before, after, account);
      ValueJoin(PayLines(before[..n], after[..n]), LastLine(before, after), account);
    }
  }

  /** Somebody is paid whenever the total grows. */
  lemma {:induction false} SomebodyIsPaid(before: seq<Member>, after: seq<Member>) returns (account: Account)
    requires |before| == |after| && forall i :: 0 <= i < |before| ==> Consistent(before[i], after[i])
    requires PaidBy(before) < PaidBy(after)
    ensures account.Available? && 0 < Value(PayLines(before, after), account)
  {
    var n := |before| - 1;
    var b, a := before[..n], after[..n];
    if after[n].paid > before[n].paid {
      account := Available(after[n].provider);
    } else {
      account := SomebodyIsPaid(b, a);
    }
    LastLineValue(before, after, account);
    ValueJoin(PayLines(b, a), LastLine(before, after), account);
    PayLinesValue(b, a, account);
  }

  // ---------------------------------------------------------------------------------------------
  // Every step keeps the invariant

  /** Paying the members what they earned always succeeds, under a key that was never used. */
  lemma PayKeeps(d: Deal, after: Lease)
    requires DealOk(d) && Funded(d.lease.phase) && LeaseOk(after) && Funded(after.phase)
    requires after.id == d.lease.id && after.refundTo == d.lease.refundTo && |after.members| == |d.lease.members|
    requires forall i :: 0 <= i < |after.members| ==>
               after.members[i].provider == d.lease.members[i].provider && Consistent(d.lease.members[i], after.members[i])
    requires after.budget == d.lease.budget && after.paid <= after.budget
    ensures var (paid, reply) := Pay(d, after); reply == Done && paid.lease == after && DealOk(paid)
  {
    hide MemberOk, MaximumOf, PaidBy, Posting, Value, Total, PayLines, BooksOk;
    var before, now := d.lease.members, after.members;
    var delta := after.paid - d.lease.paid;
    PaidGrows(before, now);
    PaidInBudget(d.lease);
    if delta > 0 {
      var id := d.lease.id;
      var escrow, key, pay := Escrow(id), PayKey(id, after.paid), PayLines(before, now);
      var lines := pay + [(escrow, -delta)];
      var payee := SomebodyIsPaid(before, now);
      PayLinesPayee(before, now, escrow);
      OneLine(escrow, -delta, escrow);
      ValueJoin(pay, [(escrow, -delta)], escrow);
      forall a | a != escrow ensures 0 <= Value(lines, a) <= delta && Value(lines, a) == Value(pay, a) {
        PayLinesValue(before, now, a);
        OneLine(escrow, -delta, a);
        ValueJoin(pay, [(escrow, -delta)], a);
      }
      forall a | a != escrow && Value(lines, a) != 0 ensures a in d.books.accounts {
        if forall i :: 0 <= i < |now| ==> a != Available(now[i].provider) { PayLinesPayee(before, now, a); }
      }
      PayLinesValue(before, now, payee);
      AccountPays(d.books, key, lines, escrow, delta, payee);
    }
  }

  lemma ClosedOk(l: Lease, phase: Phase)
    requires LeaseOk(l) && !Funded(phase)
    ensures LeaseOk(l.(phase := phase, sampleReady := false))
  {
    hide MaximumOf, PaidBy;
    var after := l.(phase := phase, sampleReady := false);
    forall i | 0 <= i < |after.members| ensures MemberOk(after, after.members[i]) { assert MemberOk(l, l.members[i]); }
  }

  lemma CloseKeeps(d: Deal, phase: Phase)
    requires DealOk(d) && Funded(d.lease.phase) && !Funded(phase)
    ensures var (closed, reply) := Close(d, phase, d.lease.paid);
            && reply == Done && DealOk(closed) && closed.lease == d.lease.(phase := phase, sampleReady := false)
  {
    hide MemberOk, MaximumOf, PaidBy, Posting, Value, Total, BooksOk;
    var l := d.lease;
    PaidInBudget(l);
    ClosedOk(l, phase);
    var remaining := l.budget - l.paid;
    if remaining > 0 {
      var out, back := (Escrow(l.id), -remaining), (l.refundTo, remaining);
      forall a
        ensures Value([out, back], a) == (if a == Escrow(l.id) then -remaining else if a == l.refundTo then remaining else 0)
        ensures Total([out, back]) == 0
      {
        OneLine(out.0, out.1, a);
        OneLine(back.0, back.1, a);
        ValueJoin([out], [back], a);
        assert [out] + [back] == [out, back];
      }
      assert Total([out, back]) == 0 && Value([out, back], Escrow(l.id)) == -remaining;
      AccountPays(d.books, RefundKey(l.id), [out, back], Escrow(l.id), remaining, l.refundTo);
    }
  }

  lemma PaidInBudget(l: Lease)
    requires LeaseOk(l)
    ensures 0 <= l.paid <= l.budget
  {
    hide MemberOk, PaidBy, MaximumOf;
    forall i | 0 <= i < |l.members| ensures 0 <= l.members[i].paid <= l.members[i].maximum {
      MemberBounds(l, l.members[i]);
    }
    PaidWithinMaximum(l.members);
  }

  lemma UnstartedPaidNothing(l: Lease)
    requires LeaseOk(l) && l.phase == Offered
    ensures l.paid == 0
  {
    forall i | 0 <= i < |l.members| ensures l.members[i].paid == 0 {
      assert MemberOk(l, l.members[i]);
      Unique(0, l.Span(), 0);
    }
    NothingPaid(l.members);
  }

  lemma {:induction false} NothingPaid(members: seq<Member>)
    requires forall i :: 0 <= i < |members| ==> members[i].paid == 0
    ensures PaidBy(members) == 0
  {
    if members != [] {
      NothingPaid(members[..|members| - 1]);
    }
  }

  /** A step's outcome for the invariant: nothing inside it failed, and it holds again. */
  ghost predicate Fine(d: Deal, r: (Deal, Reply))
  {
    DealOk(r.0) && r.0.lease.id == d.lease.id && |r.0.lease.members| == |d.lease.members|
    && r.0.lease.duration == d.lease.duration
    && !r.1.LeaseProjection? && !r.1.LedgerRefused?
  }

  lemma AdvanceKeeps(d: Deal, now: int, sight: Sight)
    requires DealOk(d) && Funded(d.lease.phase) && Covers(sight, d.lease.members)
    ensures Fine(d, Advance(d, now, sight)) && Advance(d, now, sight).1 == Done
  {
    hide LeaseOk, MoneyOk, Pay, Close, Posting, Consistent, Joint, AllValid;
    var l := d.lease;
    assert 0 < l.duration by { LeaseFacts(l); }
    if l.phase == Offered {
      UnstartedPaidNothing(l);
      CloseKeeps(d, Expired);
    } else if l.sample <= now {
      ObservedOk(l, now, sight);
      var after := Observed(l, now, sight);
      PayKeeps(d, after);
      var paid := Pay(d, after).0;
      CloseKeeps(paid, Completed);
    }
  }

  lemma LeaseFacts(l: Lease)
    requires LeaseOk(l)
    ensures 0 < l.duration
  {
  }

  lemma WithdrawnOk(l: Lease, user: nat)
    requires LeaseOk(l) && Running(l.phase)
    ensures LeaseOk(Drained(l, user)) && Drained(l, user).paid == l.paid
  {
    hide MaximumOf, PaidBy;
    var after := Drained(l, user);
    SameMaximum(l.members, after.members);
    SamePaid(l.members, after.members);
    forall i | 0 <= i < |after.members| ensures MemberOk(after, after.members[i]) { assert MemberOk(l, l.members[i]); }
  }

  lemma CancelKeeps(d: Deal, user: nat, admin: bool, now: int, sight: Sight)
    requires DealOk(d) && Covers(sight, d.lease.members)
    ensures Fine(d, Cancel(d, user, admin, now, sight))
  {
    hide LeaseOk, BooksOk, Advance, Close, Posting;
    var l := d.lease;
    LeaseFacts(l);
    if l.phase == Offered {
      CloseKeeps(d, Cancelled);
    } else if Running(l.phase) {
      AdvanceKeeps(d, now, sight);
      var advanced := Advance(d, now, sight).0;
      if Running(advanced.lease.phase) { WithdrawnOk(advanced.lease, user); }
    }
  }

  lemma ActivatedOk(l: Lease, now: int, sight: Sight)
    requires LeaseOk(l) && l.phase == Offered && Covers(sight, l.members)
    ensures LeaseOk(Activated(l, now, sight)) && Activated(l, now, sight).paid == l.paid
  {
    hide MaximumOf, PaidBy;
    var after := Activated(l, now, sight);
    SameMaximum(l.members, after.members);
    SamePaid(l.members, after.members);
    forall i | 0 <= i < |after.members| ensures MemberOk(after, after.members[i]) { assert MemberOk(l, l.members[i]); }
  }

  lemma AgreedOk(l: Lease, user: nat)
    requires LeaseOk(l)
    ensures LeaseOk(l.(accepted := l.accepted + {user}))
  {
    hide MaximumOf, PaidBy;
    var after := l.(accepted := l.accepted + {user});
    forall i | 0 <= i < |after.members| ensures MemberOk(after, after.members[i]) { assert MemberOk(l, l.members[i]); }
  }

  lemma AcceptKeeps(
    d: Deal, user: nat, termsMatch: bool, checked: int, free: bool, now: int, supported: bool, sight: Sight)
    requires DealOk(d) && Covers(sight, d.lease.members)
    ensures Fine(d, Accept(d, user, termsMatch, checked, free, now, supported, sight))
  {
    hide LeaseOk, BooksOk, Joint;
    AgreedOk(d.lease, user);
    if d.lease.phase == Offered { ActivatedOk(d.lease.(accepted := d.lease.accepted + {user}), now, sight); }
  }

  lemma StepKeeps(d: Deal, action: Action)
    requires DealOk(d) && Possible(d, action)
    ensures Fine(d, Step(d, action))
  {
    hide LeaseOk, MoneyOk, Advance, Cancel, Accept, Foreign;
    LeaseFacts(d.lease);
    match action
    case DoAccept(user, termsMatch, checked, free, now, supported, sight) =>
      AcceptKeeps(d, user, termsMatch, checked, free, now, supported, sight);
    case DoReconcile(now, sight) => if Funded(d.lease.phase) { AdvanceKeeps(d, now, sight); }
    case DoCancel(user, admin, now, sight) => CancelKeeps(d, user, admin, now, sight);
    case Elsewhere(books) => ElsewhereKeeps(d, books);
  }

  lemma ElsewhereKeeps(d: Deal, books: Books)
    requires DealOk(d) && Foreign(d.lease.id, d.books, books)
    ensures DealOk(d.(books := books))
  {
    hide LeaseOk, BooksOk;
  }
}
