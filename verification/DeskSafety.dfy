/** What every step of the coordinator keeps: the books, every user's held balance, the slots and the session limit. */
module DeskSafety {
  import opened MapSums
  import opened Contracts
  import opened Journal
  import opened Postings
  import opened Selection
  import opened Sessions
  import opened Refill
  import opened Desk

  // ---------------------------------------------------------------------------------------------
  // The invariant

  function HoldOf(s: Session): int { if Terminal(s.phase) then 0 else s.hold }
  function HoldFor(user: nat): Session -> int { (s: Session) => if s.user == user then HoldOf(s) else 0 }

  predicate PartiesExist(b: Books, s: Session)
  {
    && Available(s.user) in b.accounts && HeldBy(s.user) in b.accounts && LabWorking in b.accounts
    && (s.pool.Some? ==> PoolWorking(s.pool.value) in b.accounts && PoolReserve(s.pool.value) in b.accounts
                         && PoolBurn(s.pool.value) in b.accounts)
    && (s.admitted ==> Available(s.owner) in b.accounts)
    && forall i :: 0 <= i < |s.members| ==> Available(s.members[i].provider) in b.accounts
  }

  ghost predicate RowOk(d: Desk, id: nat)
  {
    && (id in d.sessions ==> SessionOk(d.sessions[id]) && PartiesExist(d.books, d.sessions[id]))
    && (HoldKey(id) in d.books.journal ==> id in d.sessions)
    && (SettleKey(id) in d.books.journal <==>
          id in d.sessions && Terminal(d.sessions[id].phase) && d.sessions[id].hold > 0)
  }

  /** A user's held balance is exactly the sum of the holds of that user's open sessions. */
  ghost predicate HeldOk(d: Desk, user: nat)
  {
    d.books.Balance(HeldBy(user)) == Sum(d.sessions, HoldFor(user))
  }

  predicate SlotsOk(d: Desk, domain: nat) { domain in d.slots ==> |Occupants(d, domain)| <= d.slots[domain] }

  ghost predicate DeskOk(d: Desk)
  {
    && BooksOk(d.books)
    && (forall id :: RowOk(d, id))
    && (forall user :: HeldOk(d, user))
    && (forall domain :: SlotsOk(d, domain))
    && (forall user :: |OpenSessions(d, user)| <= 4)
  }

  // ---------------------------------------------------------------------------------------------
  // Settlement entries

  lemma {:induction false} MembersCredited(members: seq<Member>, parts: seq<int>)
    requires |members| == |parts| && forall i :: 0 <= i < |parts| ==> 0 <= parts[i]
    ensures var e := PayMembers(members, parts);
            && |e| == |members| && Journal.Total(e) == Contracts.Total(parts)
            && forall i :: 0 <= i < |e| ==> e[i] == (Available(members[i].provider), parts[i])
  {
    if members != [] {
      var n := |members| - 1;
      MembersCredited(members[..n], parts[..n]);
      var rest, last := PayMembers(members[..n], parts[..n]), [(Available(members[n].provider), parts[n])];
      assert (rest + last)[..n] == rest;
    }
  }

  lemma FeeIsPart(charge: int)
    requires 0 <= charge
    ensures 0 <= charge * FEE_BPS / WHOLE <= charge
  {
  }

  lemma PairTotal(x: (Account, int), y: (Account, int))
    ensures Journal.Total([x, y]) == x.1 + y.1
  {
    OneLine(x.0, x.1, LabWorking);
    OneLine(y.0, y.1, LabWorking);
    ValueJoin([x], [y], LabWorking);
    assert [x] + [y] == [x, y];
  }

  lemma TripleTotal(x: (Account, int), y: (Account, int), z: (Account, int))
    ensures Journal.Total([x, y, z]) == x.1 + y.1 + z.1
  {
    PairTotal(x, y);
    OneLine(z.0, z.1, LabWorking);
    ValueJoin([x, y], [z], LabWorking);
    assert [x, y] + [z] == [x, y, z];
  }

  lemma {:induction false} RoutePayoutExact(members: seq<Member>, total: int, fee: int)
    requires Splittable(WHOLE, Shares(members)) && 0 <= total <= Contracts.MAX_AMOUNT && 0 <= fee
    ensures var e := PayMembers(members, Parts(total, Shares(members))) + [(LabWorking, fee)];
            && Journal.Total(e) == total + fee
            && forall i :: 0 <= i < |e| ==>
                 0 <= e[i].1 && e[i].0 == if i < |members| then Available(members[i].provider) else LabWorking
  {
    hide Splittable, Shares, Parts;
    var shares := Shares(members);
    SplittableForAny(total, shares);
    PartsExact(total, shares);
    var parts := Parts(total, shares);
    forall i | 0 <= i < |parts| ensures 0 <= parts[i] { PartsFair(total, shares, i); }
    SharesLength(members);
    MembersCredited(members, parts);
    OneLine(LabWorking, fee, LabWorking);
    ValueJoin(PayMembers(members, parts), [(LabWorking, fee)], LabWorking);
  }

  /** The payout distributes the charge exactly. */
  lemma PayoutExact(b: Books, s: Session, charge: int, a: Allocation)
    requires 0 <= charge <= Contracts.MAX_AMOUNT && PartiesExist(b, s) && s.admitted
    requires s.routed ==> Splittable(WHOLE, Shares(s.members))
    requires s.pool.Some? ==> 0 <= a.floor && 0 <= a.working && 0 <= a.reserve && 0 <= a.burned
                              && a.floor + a.working + a.reserve + a.burned == charge
    ensures var e := Payout(s, charge, a);
            && Journal.Total(e) == charge
            && forall i :: 0 <= i < |e| ==> 0 <= e[i].1 && !e[i].0.HeldBy? && e[i].0 in b.accounts
  {
    hide Splittable, Shares, Parts, Journal.Total, PayMembers;
    if charge > 0 {
      var fee := charge * FEE_BPS / WHOLE;
      FeeIsPart(charge);
      if s.pool.Some? {
        var p := s.pool.value;
        TripleTotal((PoolWorking(p), a.floor + a.working), (PoolReserve(p), a.reserve), (PoolBurn(p), a.burned));
      } else if s.routed {
        RoutePayoutExact(s.members, charge - fee, fee);
        SharesLength(s.members);
      } else {
        PairTotal((Available(s.owner), charge - fee), (LabWorking, fee));
      }
    } else {
      NoPayout(s, a);
    }
  }

  lemma SharesLength(members: seq<Member>)
    ensures |Shares(members)| == |members|
  {
  }

  lemma SplittableForAny(total: int, shares: seq<int>)
    requires Splittable(WHOLE, shares) && 0 <= total <= MAX_AMOUNT
    ensures Splittable(total, shares)
  {
  }

  lemma AllocationExact(b: Books, s: Session, charge: nat, targets: Targets)
    ensures var a := Allocated(b, s, charge, targets);
            s.pool.Some? ==> 0 <= a.floor && 0 <= a.working && 0 <= a.reserve && 0 <= a.burned
                             && a.floor + a.working + a.reserve + a.burned == charge
  {
    hide Recycle;
    if s.pool.Some? {
      RecycleExact(charge, b.Balance(PoolWorking(s.pool.value)), b.Balance(PoolReserve(s.pool.value)),
                   targets.floor, targets.working, targets.reserve);
    }
  }

  lemma CreditsExact(b: Books, s: Session, charge: int, a: Allocation)
    requires 0 <= charge <= s.hold <= MAX_AMOUNT && PartiesExist(b, s) && (s.admitted || charge == 0)
    requires s.routed ==> Splittable(WHOLE, Shares(s.members))
    requires s.pool.Some? ==> 0 <= a.floor && 0 <= a.working && 0 <= a.reserve && 0 <= a.burned
                              && a.floor + a.working + a.reserve + a.burned == charge
    ensures var credits := [(Available(s.user), s.hold - charge)] + Payout(s, charge, a);
            && Journal.Total(credits) == s.hold
            && forall i :: 0 <= i < |credits| ==> 0 <= credits[i].1 && !credits[i].0.HeldBy? && credits[i].0 in b.accounts
  {
    hide Splittable, Shares, Payout;
    if charge == 0 { NoPayout(s, a); } else { PayoutExact(b, s, charge, a); }
    OneLine(Available(s.user), s.hold - charge, LabWorking);
    ValueJoin([(Available(s.user), s.hold - charge)], Payout(s, charge, a), LabWorking);
  }

  lemma NoPayout(s: Session, a: Allocation)
    ensures Payout(s, 0, a) == [] && Journal.Total([]) == 0
  {
  }

  /** The settlement of a session with a positive hold is always recorded, and empties exactly its hold. */
  lemma SettlementPosts(d: Desk, id: nat, t: Session, targets: Targets)
    requires DeskOk(d) && id in d.sessions && !Terminal(d.sessions[id].phase)
    requires SessionOk(t) && Terminal(t.phase) && t.user == d.sessions[id].user && t.hold == d.sessions[id].hold > 0
    requires PartiesExist(d.books, t) && (t.admitted || t.charged == 0)
    ensures var entries := SettleEntries(t, t.charged, Allocated(d.books, t, t.charged, targets));
            var (books, verdict) := Posting(d.books, SettleKey(id), entries);
            && verdict == Posted && BooksOk(books)
            && books.journal.Keys == d.books.journal.Keys + {SettleKey(id)}
            && books.accounts.Keys == d.books.accounts.Keys
            && books.Balance(HeldBy(t.user)) == d.books.Balance(HeldBy(t.user)) - t.hold
            && (forall u: nat :: u != t.user ==> books.Balance(HeldBy(u)) == d.books.Balance(HeldBy(u)))
  {
    hide BooksOk, Posting, SessionOk, Sum, Payout, Allocated, Value, Journal.Total;
    assert RowOk(d, id) && HeldOk(d, t.user);
    HoldsAreFunded(d, id);
    SessionFacts(t);
    var a := Allocated(d.books, t, t.charged, targets);
    AllocationExact(d.books, t, t.charged, targets);
    CreditsExact(d.books, t, t.charged, a);
    var credits := [(Available(t.user), t.hold - t.charged)] + Payout(t, t.charged, a);
    DistributionPosts(d.books, SettleKey(id), HeldBy(t.user), t.hold, credits);
    forall u: nat | u != t.user
      ensures Posting(d.books, SettleKey(id), [(HeldBy(t.user), -t.hold)] + credits).0.Balance(HeldBy(u)) == d.books.Balance(HeldBy(u))
    {
      OtherHeld(d.books, SettleKey(id), t.user, t.hold, credits, u);
    }
  }

  lemma OtherHeld(b: Books, key: Key, user: nat, hold: int, credits: Entries, u: nat)
    requires u != user && forall i :: 0 <= i < |credits| ==> !credits[i].0.HeldBy?
    ensures Posting(b, key, [(HeldBy(user), -hold)] + credits).0.Balance(HeldBy(u)) == b.Balance(HeldBy(u))
  {
    hide Posting, Value;
    OneLine(HeldBy(user), -hold, HeldBy(u));
    ValueJoin([(HeldBy(user), -hold)], credits, HeldBy(u));
    if Value(credits, HeldBy(u)) != 0 { GainersAppear(credits, HeldBy(u)); }
    PostMovesExactly(b, key, [(HeldBy(user), -hold)] + credits, HeldBy(u));
  }

  lemma SessionFacts(s: Session)
    requires SessionOk(s)
    ensures 0 <= s.hold <= MAX_AMOUNT && 0 <= s.charged <= s.hold && (s.routed ==> Splittable(WHOLE, Shares(s.members)))
  {
  }

  lemma HoldsAreFunded(d: Desk, id: nat)
    requires DeskOk(d) && id in d.sessions && !Terminal(d.sessions[id].phase)
    ensures d.sessions[id].hold <= d.books.Balance(HeldBy(d.sessions[id].user))
  {
    hide BooksOk, Sum;
    var user := d.sessions[id].user;
    assert HeldOk(d, user);
    forall k | k in d.sessions ensures 0 <= HoldFor(user)(d.sessions[k]) { assert RowOk(d, k); SessionFacts(d.sessions[k]); }
    Part(d.sessions, HoldFor(user), id);
  }

  // ---------------------------------------------------------------------------------------------
  // Storing a row

  /** t may replace s: same user, hold and place, and it does not come back from a terminal state. */
  predicate Continues(s: Session, t: Session)
  {
    && t.user == s.user && t.hold == s.hold && t.domains == s.domains && t.admitted == s.admitted && t.pool == s.pool
    && (Terminal(s.phase) ==> t == s)
    && (Active(t.phase) ==> Active(s.phase))
    && (Terminal(t.phase) && !s.admitted ==> t.charged == s.charged)
  }

  lemma SlotsKept(d: Desk, e: Desk, domain: nat)
    requires SlotsOk(d, domain) && e.slots == d.slots && Occupants(e, domain) <= Occupants(d, domain)
    ensures SlotsOk(e, domain)
  {
    SubsetSize(Occupants(e, domain), Occupants(d, domain));
  }

  lemma LimitKept(d: Desk, e: Desk, user: nat)
    requires |OpenSessions(d, user)| <= 4 && OpenSessions(e, user) <= OpenSessions(d, user)
    ensures |OpenSessions(e, user)| <= 4
  {
    SubsetSize(OpenSessions(e, user), OpenSessions(d, user));
  }

  lemma HeldAfter(d: Desk, id: nat, t: Session, books: Books, user: nat)
    requires HeldOk(d, user) && id in d.sessions && t.user == d.sessions[id].user
    requires books.Balance(HeldBy(user))
          == d.books.Balance(HeldBy(user)) + if t.user == user then HoldOf(t) - HoldOf(d.sessions[id]) else 0
    ensures HeldOk(d.(sessions := d.sessions[id := t], books := books), user)
  {
    hide Sum;
    With(d.sessions, HoldFor(user), id, t);
  }

  lemma RowKept(d: Desk, id: nat, t: Session, e: Desk, k: nat)
    requires RowOk(d, k) && id in d.sessions && Continues(d.sessions[id], t) && SessionOk(t) && PartiesExist(d.books, t)
    requires e.sessions == d.sessions[id := t] && e.books.accounts.Keys == d.books.accounts.Keys
    requires var settles := !Terminal(d.sessions[id].phase) && Terminal(t.phase) && t.hold > 0;
             e.books.journal.Keys == if settles then d.books.journal.Keys + {SettleKey(id)} else d.books.journal.Keys
    ensures RowOk(e, k)
  {
    hide SessionOk;
    assert HoldKey(k) in e.books.journal <==> HoldKey(k) in e.books.journal.Keys;
    assert SettleKey(k) in e.books.journal <==> SettleKey(k) in e.books.journal.Keys;
  }

  lemma StoreKeeps(d: Desk, id: nat, t: Session, targets: Targets)
    requires DeskOk(d) && id in d.sessions && Continues(d.sessions[id], t) && SessionOk(t) && PartiesExist(d.books, t)
    ensures var (e, outcome) := Store(d, id, t, targets);
            outcome == Fine && DeskOk(e) && e.sessions == d.sessions[id := t] && e.lastAdmitted == d.lastAdmitted
  {
    hide BooksOk, Posting, SessionOk, Sum, SettleEntries, Allocated, Splittable, Shares, HeldOk;
    var s := d.sessions[id];
    var e := Store(d, id, t, targets).0;
    assert RowOk(d, id);
    SessionFacts(s);
    SessionFacts(t);
    if !Terminal(s.phase) && Terminal(t.phase) && t.hold > 0 {
      UnadmittedFree(s, t);
      if t.routed {
        FeeIsPart(t.charged);
        SplittableForAny(t.charged - t.charged * FEE_BPS / WHOLE, Shares(t.members));
      }
      SettlementPosts(d, id, t, targets);
    }
    forall k ensures RowOk(e, k) { RowKept(d, id, t, e, k); }
    forall user ensures HeldOk(e, user) {
      assert HeldOk(d, user);
      HeldAfter(d, id, t, e.books, user);
    }
    forall domain ensures SlotsOk(e, domain) { assert SlotsOk(d, domain); SlotsKept(d, e, domain); }
    forall user ensures |OpenSessions(e, user)| <= 4 { LimitKept(d, e, user); }
  }

  lemma UnadmittedFree(s: Session, t: Session)
    requires SessionOk(s) && Continues(s, t) && !Terminal(s.phase) && Terminal(t.phase)
    ensures t.admitted || t.charged == 0
  {
  }

  // ---------------------------------------------------------------------------------------------
  // The steps

  lemma MembersStay(s: Session, op: Op, env: Env, b: Books)
    requires PartiesExist(b, s)
    ensures PartiesExist(b, Apply(s, op, env).0)
  {
    hide ChargeFor, RootValid, StageValid, SomeStageFailed, AllStagesReported, StagesClaimed;
  }

  lemma ApplyContinues(s: Session, op: Op, env: Env)
    requires SessionOk(s)
    ensures Continues(s, Apply(s, op, env).0)
  {
    hide ChargeFor, RootValid, StageValid, SomeStageFailed, AllStagesReported, StagesClaimed, QuoteMaximum, Splittable, Shares, WellPriced;
  }

  lemma StepKeeps(d: Desk, id: nat, op: Op, env: Env, targets: Targets)
    requires DeskOk(d)
    ensures var (e, outcome) := Step(d, id, op, env, targets); DeskOk(e) && !outcome.LedgerRefused?
  {
    hide DeskOk, SessionOk, PartiesExist, Continues, Store, Apply;
    if id in d.sessions {
      RowFacts(d, id);
      var s := d.sessions[id];
      ApplyKeeps(s, op, env);
      MembersStay(s, op, env, d.books);
      ApplyContinues(s, op, env);
      StoreKeeps(d, id, Apply(s, op, env).0, targets);
    }
  }

  lemma RowFacts(d: Desk, id: nat)
    requires DeskOk(d) && id in d.sessions
    ensures SessionOk(d.sessions[id]) && PartiesExist(d.books, d.sessions[id])
  {
    hide BooksOk;
    assert RowOk(d, id);
  }

  /** What an offer must satisfy: a route's shares add up, and its providers have accounts. */
  ghost predicate OfferOk(b: Books, o: Offer)
  {
    && (o.routed ==> Splittable(WHOLE, Shares(o.members)))
    && Available(o.owner) in b.accounts
    && forall i :: 0 <= i < |o.members| ==> Available(o.members[i].provider) in b.accounts
  }

  lemma PlacedRow(b: Books, s: Session, offer: Offer, deadline: int)
    requires SessionOk(s) && PartiesExist(b, s) && s.phase == Queued && OfferOk(b, offer)
    ensures SessionOk(Placed(s, offer, deadline)) && PartiesExist(b, Placed(s, offer, deadline))
  {
    hide Splittable, Shares, QuoteMaximum, WellPriced;
  }

  lemma PlacedKeeps(d: Desk, id: nat, offer: Offer, deadline: int, turns: map<nat, int>)
    requires DeskOk(d) && id in d.sessions && d.sessions[id].phase == Queued && OfferOk(d.books, offer)
    requires Room(d, offer.domains)
    ensures DeskOk(d.(sessions := d.sessions[id := Placed(d.sessions[id], offer, deadline)], lastAdmitted := turns))
  {
    hide BooksOk, Sum, SessionOk, PartiesExist, OfferOk, HeldOk;
    var s := d.sessions[id];
    var t := Placed(s, offer, deadline);
    var e := d.(sessions := d.sessions[id := t], lastAdmitted := turns);
    RowFacts(d, id);
    PlacedRow(d.books, s, offer, deadline);
    forall k ensures RowOk(e, k) { assert RowOk(d, k); }
    forall user ensures HeldOk(e, user) {
      assert HeldOk(d, user);
      HeldAfter(d, id, t, d.books, user);
      SameHeld(e, d.(sessions := d.sessions[id := t], books := d.books), user);
    }
    forall domain ensures SlotsOk(e, domain) {
      assert SlotsOk(d, domain);
      if domain in offer.domains && domain in d.slots {
        assert Occupants(e, domain) <= Occupants(d, domain) + {id};
        SubsetSize(Occupants(e, domain), Occupants(d, domain) + {id});
      } else if domain in d.slots {
        SlotsKept(d, e, domain);
      }
    }
    forall user ensures |OpenSessions(e, user)| <= 4 { LimitKept(d, e, user); }
  }

  lemma SameHeld(e: Desk, f: Desk, user: nat)
    requires e.sessions == f.sessions && e.books == f.books && HeldOk(f, user)
    ensures HeldOk(e, user)
  {
  }

  lemma ExpiredContinues(s: Session)
    requires SessionOk(s) && s.phase == Queued
    ensures var t := Finalize(s, Interrupted, 0).0; SessionOk(t) && Continues(s, t)
  {
  }

  /** Admission respects every domain's slots, because it counts the occupants of each domain of the whole route. */
  lemma AdmitKeeps(
    d: Desk, id: nat, offers: seq<Offer>, eligible: (nat, nat) -> bool, now: int, covered: bool, deadline: int, targets: Targets)
    requires DeskOk(d) && forall k :: 0 <= k < |offers| ==> OfferOk(d.books, offers[k])
    ensures var (e, outcome) := Admit(d, id, offers, eligible, now, covered, deadline, targets);
            DeskOk(e) && !outcome.LedgerRefused?
  {
    hide DeskOk, SessionOk, Continues, Store, OfferOk, Placed, Room, Before;
    if id in d.sessions {
      RowFacts(d, id);
      var s := d.sessions[id];
      if s.phase == Queued {
        if s.queueDeadline < now {
          ExpiredContinues(s);
          StoreKeeps(d, id, Finalize(s, Interrupted, 0).0, targets);
        } else if First(d, offers, eligible, now, id) {
          var k := Choice(d, offers, eligible, id, 0);
          PlacedKeeps(d, id, offers[k], deadline, d.lastAdmitted[s.user := now]);
        }
      }
    }
  }

  lemma FreshRow(b: Books, user: nat, manifest: Manifest, maxOutput: int, pool: Option<nat>, now: int)
    requires WellPriced(manifest) && 0 <= maxOutput <= manifest.maxContextTokens && QuoteMaximum(manifest, maxOutput).Some?
    requires PartiesExist(b, Fresh(user, 0, manifest, maxOutput, pool, now))
    ensures var s := Fresh(user, QuoteMaximum(manifest, maxOutput).value, manifest, maxOutput, pool, now);
            SessionOk(s) && PartiesExist(b, s) && 0 <= s.hold
  {
    QuoteIsAmount(manifest, maxOutput);
  }

  lemma RowAdded(d: Desk, id: nat, s: Session, e: Desk, k: nat)
    requires RowOk(d, k) && id !in d.sessions && SessionOk(s) && PartiesExist(d.books, s) && s.phase == Queued
    requires e.sessions == d.sessions[id := s] && e.books.accounts.Keys == d.books.accounts.Keys
    requires e.books.journal.Keys == d.books.journal.Keys || e.books.journal.Keys == d.books.journal.Keys + {HoldKey(id)}
    ensures RowOk(e, k)
  {
    hide SessionOk;
    assert HoldKey(k) in e.books.journal <==> HoldKey(k) in e.books.journal.Keys;
    assert SettleKey(k) in e.books.journal <==> SettleKey(k) in e.books.journal.Keys;
  }

  lemma CreateKeeps(
    d: Desk, id: nat, user: nat, manifest: Manifest, maxOutput: int, pool: Option<nat>, now: int,
    quoted: bool, fits: bool, quota: bool)
    requires DeskOk(d) && id !in d.sessions && WellPriced(manifest) && 0 <= maxOutput <= manifest.maxContextTokens
    requires PartiesExist(d.books, Fresh(user, 0, manifest, maxOutput, pool, now))
    ensures DeskOk(Create(d, id, user, manifest, maxOutput, pool, now, quoted, fits, quota).0)
  {
    hide BooksOk, Sum, Posting, SessionOk, PartiesExist, HeldOk, Value, QuoteMaximum;
    var (e, outcome) := Create(d, id, user, manifest, maxOutput, pool, now, quoted, fits, quota);
    if outcome == Fine {
      var hold := QuoteMaximum(manifest, maxOutput).value;
      var s := Fresh(user, hold, manifest, maxOutput, pool, now);
      assert RowOk(d, id);
      FreshRow(d.books, user, manifest, maxOutput, pool, now);
      HoldMoves(d.books, id, user, hold);
      forall k ensures RowOk(e, k) { RowAdded(d, id, s, e, k); }
      forall u: nat ensures HeldOk(e, u) {
        assert HeldOk(d, u);
        HoldMovesHeld(d.books, id, user, hold, u);
        HeldMore(d, id, s, e.books, u);
        SameHeld(e, d.(sessions := d.sessions[id := s], books := e.books), u);
      }
      forall domain ensures SlotsOk(e, domain) { assert SlotsOk(d, domain); SlotsKept(d, e, domain); }
      forall u ensures |OpenSessions(e, u)| <= 4 { LimitAdded(d, id, s, e, u); }
    }
  }

  lemma LimitAdded(d: Desk, id: nat, s: Session, e: Desk, user: nat)
    requires e.sessions == d.sessions[id := s] && id !in d.sessions
    requires |OpenSessions(d, user)| <= (if user == s.user then 3 else 4)
    ensures |OpenSessions(e, user)| <= 4
  {
    if user == s.user {
      assert OpenSessions(e, user) <= OpenSessions(d, user) + {id};
      SubsetSize(OpenSessions(e, user), OpenSessions(d, user) + {id});
    } else {
      LimitKept(d, e, user);
    }
  }

  lemma QuoteIsAmount(m: Manifest, output: int)
    requires WellPriced(m) && 0 <= output <= m.maxContextTokens && QuoteMaximum(m, output).Some?
    ensures 0 <= QuoteMaximum(m, output).value <= Contracts.MAX_AMOUNT
  {
    QuoteCovers(m, output, 0, 0);
  }

  lemma HeldMore(d: Desk, id: nat, s: Session, books: Books, user: nat)
    requires HeldOk(d, user) && id !in d.sessions
    requires books.Balance(HeldBy(user)) == d.books.Balance(HeldBy(user)) + if s.user == user then HoldOf(s) else 0
    ensures HeldOk(d.(sessions := d.sessions[id := s], books := books), user)
  {
    hide Sum;
    With(d.sessions, HoldFor(user), id, s);
  }

  lemma HoldMoves(b: Books, id: nat, user: nat, hold: int)
    requires BooksOk(b) && HoldKey(id) !in b.journal
    ensures var (after, verdict) := Posting(b, HoldKey(id), [(Available(user), -hold), (HeldBy(user), hold)]);
            && BooksOk(after) && verdict != Replayed && after.accounts.Keys == b.accounts.Keys
            && (verdict == Posted ==> after.journal.Keys == b.journal.Keys + {HoldKey(id)})
            && (verdict != Posted ==> after == b)
  {
    hide BooksOk, Value;
    PostKeeps(b, HoldKey(id), [(Available(user), -hold), (HeldBy(user), hold)]);
    PostMovesExactly(b, HoldKey(id), [(Available(user), -hold), (HeldBy(user), hold)], HeldBy(user));
  }

  lemma HoldMovesHeld(b: Books, id: nat, user: nat, hold: int, u: nat)
    ensures var (after, verdict) := Posting(b, HoldKey(id), [(Available(user), -hold), (HeldBy(user), hold)]);
            verdict == Posted ==> after.Balance(HeldBy(u)) == b.Balance(HeldBy(u)) + if u == user then hold else 0
  {
    hide Posting, Value;
    var out, back := (Available(user), -hold), (HeldBy(user), hold);
    assert [out] + [back] == [out, back];
    OneLine(out.0, out.1, HeldBy(u));
    OneLine(back.0, back.1, HeldBy(u));
    ValueJoin([out], [back], HeldBy(u));
    PostMovesExactly(b, HoldKey(id), [out, back], HeldBy(u));
  }

  // ---------------------------------------------------------------------------------------------
  // Who is paid what

  /** The parts of the members that one provider runs. */
  function PartsOf(members: seq<Member>, parts: seq<int>, user: nat): int
    requires |members| == |parts|
  {
    if members == [] then 0
    else
      var n := |members| - 1;
      PartsOf(members[..n], parts[..n], user) + if members[n].provider == user then parts[n] else 0
  }

  /** What a provider earns from a charge: nothing from a pool's, and four fifths of any other. */
  function Wage(s: Session, charge: int, user: nat): int
  {
    if charge <= 0 || s.pool.Some? then 0
    else if s.routed then PartsOf(s.members, Parts(charge - charge / 5, Shares(s.members)), user)
    else if s.owner == user then charge - charge / 5
    else 0
  }

  /** What one account gains from a settlement. */
  function Gain(s: Session, charge: int, a: Allocation, account: Account): int
  {
    var ordinary, pooled := charge > 0 && s.pool.None?, charge > 0 && s.pool.Some?;
    match account
    case HeldBy(user) => if user == s.user then -s.hold else 0
    case Available(user) => (if user == s.user then s.hold - charge else 0) + Wage(s, charge, user)
    case LabWorking => if ordinary then charge / 5 else 0
    case PoolWorking(p) => if pooled && s.pool.value == p then a.floor + a.working else 0
    case PoolReserve(p) => if pooled && s.pool.value == p then a.reserve else 0
    case PoolBurn(p) => if pooled && s.pool.value == p then a.burned else 0
    case _ => 0
  }

  lemma {:induction false} MembersGain(members: seq<Member>, parts: seq<int>, account: Account)
    requires |members| == |parts|
    ensures Value(PayMembers(members, parts), account)
         == if account.Available? then PartsOf(members, parts, account.user) else 0
  {
    if members != [] {
      var n := |members| - 1;
      MembersGain(members[..n], parts[..n], account);
      OneLine(Available(members[n].provider), parts[n], account);
      ValueJoin(PayMembers(members[..n], parts[..n]), [(Available(members[n].provider), parts[n])], account);
    }
  }

  lemma PayoutPays(s: Session, charge: int, a: Allocation, account: Account)
    requires 0 <= charge
    ensures Value(Payout(s, charge, a), account)
         == Gain(s, charge, a, account) - (if account == HeldBy(s.user) then -s.hold else 0)
            - (if account == Available(s.user) then s.hold - charge else 0)
  {
    hide Shares, Parts, PayMembers, Value, PartsOf;
    var fee := charge * FEE_BPS / WHOLE;
    assert fee == charge / 5;
    if charge == 0 {
      NoValue(account);
    } else if s.pool.Some? {
      var p := s.pool.value;
      var x, y, z := (PoolWorking(p), a.floor + a.working), (PoolReserve(p), a.reserve), (PoolBurn(p), a.burned);
      OneLine(x.0, x.1, account);
      OneLine(y.0, y.1, account);
      OneLine(z.0, z.1, account);
      ValueJoin([x], [y], account);
      ValueJoin([x] + [y], [z], account);
      assert [x] + [y] + [z] == [x, y, z];
    } else {
      OneLine(LabWorking, fee, account);
      if s.routed {
        SharesLength(s.members);
        MembersGain(s.members, Parts(charge - fee, Shares(s.members)), account);
        ValueJoin(PayMembers(s.members, Parts(charge - fee, Shares(s.members))), [(LabWorking, fee)], account);
      } else {
        OneLine(Available(s.owner), charge - fee, account);
        ValueJoin([(Available(s.owner), charge - fee)], [(LabWorking, fee)], account);
        assert [(Available(s.owner), charge - fee)] + [(LabWorking, fee)] == [(Available(s.owner), charge - fee), (LabWorking, fee)];
      }
    }
  }

  lemma NoValue(account: Account)
    ensures Value([], account) == 0
  {
  }

  /**
   Account by account: the hold is emptied, the unused part goes back to the user, a fifth of an ordinary charge goes to
   the laboratory and each provider gets its part of the rest, and a pool's charge goes to the pool's three accounts.
   */
  lemma SettlementPays(s: Session, charge: int, a: Allocation, account: Account)
    requires 0 <= charge
    ensures Value(SettleEntries(s, charge, a), account) == Gain(s, charge, a, account)
  {
    hide Payout, Value, Gain;
    var out, back := (HeldBy(s.user), -s.hold), (Available(s.user), s.hold - charge);
    PayoutPays(s, charge, a, account);
    OneLine(out.0, out.1, account);
    OneLine(back.0, back.1, account);
    ValueJoin([back], Payout(s, charge, a), account);
    ValueJoin([out], [back] + Payout(s, charge, a), account);
  }
}
