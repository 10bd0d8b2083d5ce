/**
 What the coordinator decides, in the fields of its rows and over whole runs: who is created and admitted, on which
 offer, what is charged, and whom each settlement pays.
 */
module DeskOutcomes {
  import opened MapSums
  import opened Contracts
  import opened Journal
  import opened Postings
  import opened Sessions
  import opened SessionOutcomes
  import opened Desk
  import opened DeskSafety
  import opened DeskRuns
  import opened DeskStatement
  import LeaseCredits
  import Refill

  // ---------------------------------------------------------------------------------------------
  // Only deliveries are charged

  ghost predicate AllDelivered(d: Desk)
  {
    forall id :: id in d.sessions ==> ChargedForDelivery(d.sessions[id])
  }

  /** A stored row is the session's next state, and no other row changes. */
  lemma StepStores(d: Desk, id: nat, op: Op, env: Env, targets: Targets)
    requires DeskOk(d) && id in d.sessions
    ensures var (e, outcome) := Step(d, id, op, env, targets); var (t, reply) := Apply(d.sessions[id], op, env);
            if Error(reply) then e == d && outcome.Refused?
            else outcome == Fine && e.sessions == d.sessions[id := t] && e.lastAdmitted == d.lastAdmitted && e.slots == d.slots
  {
    hide DeskOk, Store, Apply, SessionOk, Continues;
    StepKeeps(d, id, op, env, targets);
    RowFacts(d, id);
    ApplyContinues(d.sessions[id], op, env);
    ApplyKeeps(d.sessions[id], op, env);
    MembersStay(d.sessions[id], op, env, d.books);
    StoreKeeps(d, id, Apply(d.sessions[id], op, env).0, targets);
    StoreKeepsRest(d, id, Apply(d.sessions[id], op, env).0, targets);
  }

  lemma StoreKeepsRest(d: Desk, id: nat, t: Session, targets: Targets)
    requires id in d.sessions
    ensures Store(d, id, t, targets).0.slots == d.slots
  {
    hide Posting, SettleEntries, Allocated, Splittable, Shares;
  }

  /** A queued session whose deadline has passed ends interrupted and free. */
  lemma ExpiredStores(d: Desk, id: nat, targets: Targets)
    requires DeskOk(d) && id in d.sessions && d.sessions[id].phase == Queued
    ensures var s := d.sessions[id]; var t := Finalize(s, Interrupted, 0).0; var (e, outcome) := Store(d, id, t, targets);
            && t == s.(phase := Interrupted, charged := 0) && outcome == Fine
            && e.sessions == d.sessions[id := t] && e.lastAdmitted == d.lastAdmitted && e.slots == d.slots
  {
    hide DeskOk, Store, Continues;
    RowFacts(d, id);
    ExpiredContinues(d.sessions[id]);
    StoreKeeps(d, id, Finalize(d.sessions[id], Interrupted, 0).0, targets);
    StoreKeepsRest(d, id, Finalize(d.sessions[id], Interrupted, 0).0, targets);
  }

  // ---------------------------------------------------------------------------------------------
  // Admission

  /** The open sessions on a domain now. */
  function ServedNow(d: Desk, domain: nat): set<nat>
  {
    set j | j in d.sessions && d.sessions[j].phase in {Preparing, Authorized, Running, Cancelling} && domain in d.sessions[j].domains
  }

  /** Every domain of the offer has a free slot, and the session may be served by it. */
  predicate CanServe(d: Desk, offers: seq<Offer>, eligible: (nat, nat) -> bool, id: nat, k: nat)
  {
    && k < |offers| && eligible(id, k)
    && forall x :: x in offers[k].domains && x in d.slots ==> |ServedNow(d, x)| < d.slots[x]
  }

  ghost predicate Waits(d: Desk, offers: seq<Offer>, eligible: (nat, nat) -> bool, now: int, id: nat)
  {
    && id in d.sessions && d.sessions[id].phase == Queued && now < d.sessions[id].queueDeadline
    && exists k: nat :: CanServe(d, offers, eligible, id, k)
  }

  function LastTurn(d: Desk, user: nat): int { if user in d.lastAdmitted then d.lastAdmitted[user] else 0 }

  /** i's turn does not come after j's: least recently admitted user, then oldest session, then smallest identifier. */
  predicate NotAfter(d: Desk, i: nat, j: nat)
    requires i in d.sessions && j in d.sessions
  {
    var a, b := d.sessions[i], d.sessions[j];
    var x, y := LastTurn(d, a.user), LastTurn(d, b.user);
    x < y || (x == y && a.created < b.created) || (x == y && a.created == b.created && i <= j)
  }

  ghost predicate InTurn(d: Desk, offers: seq<Offer>, eligible: (nat, nat) -> bool, now: int, id: nat)
  {
    && Waits(d, offers, eligible, now, id)
    && forall j: nat :: Waits(d, offers, eligible, now, j) ==> j in d.sessions && NotAfter(d, id, j)
  }

  /** The first offer, in the order of preference, that can serve the session. */
  predicate BestOffer(d: Desk, offers: seq<Offer>, eligible: (nat, nat) -> bool, id: nat, k: nat)
  {
    CanServe(d, offers, eligible, id, k) && forall i: nat :: i < k ==> !CanServe(d, offers, eligible, id, i)
  }

  lemma CanServeIs(d: Desk, offers: seq<Offer>, eligible: (nat, nat) -> bool, id: nat, k: nat)
    ensures CanServe(d, offers, eligible, id, k) <==> Usable(d, offers, eligible, id, k)
  {
    forall x ensures ServedNow(d, x) == Occupants(d, x) { }
  }

  lemma WaitsIs(d: Desk, offers: seq<Offer>, eligible: (nat, nat) -> bool, now: int, id: nat)
    ensures Waits(d, offers, eligible, now, id) <==> Servable(d, offers, eligible, now, id)
  {
    hide CanServe, Usable;
    forall k: nat ensures CanServe(d, offers, eligible, id, k) <==> Usable(d, offers, eligible, id, k) {
      CanServeIs(d, offers, eligible, id, k);
    }
    if Waits(d, offers, eligible, now, id) {
      var k: nat :| CanServe(d, offers, eligible, id, k);
      InOffers(d, offers, eligible, id, k);
      assert 0 <= k < |offers| && Usable(d, offers, eligible, id, k);
    }
    if Servable(d, offers, eligible, now, id) {
      var k :| 0 <= k < |offers| && Usable(d, offers, eligible, id, k);
      assert CanServe(d, offers, eligible, id, k);
    }
  }

  lemma InOffers(d: Desk, offers: seq<Offer>, eligible: (nat, nat) -> bool, id: nat, k: nat)
    requires CanServe(d, offers, eligible, id, k)
    ensures k < |offers|
  {
  }

  lemma InTurnIs(d: Desk, offers: seq<Offer>, eligible: (nat, nat) -> bool, now: int, id: nat)
    ensures InTurn(d, offers, eligible, now, id) <==> First(d, offers, eligible, now, id)
  {
    hide CanServe, Usable, Waits, Servable;
    forall j: nat
      ensures Waits(d, offers, eligible, now, j) <==> Servable(d, offers, eligible, now, j)
      ensures Waits(d, offers, eligible, now, j) ==> j in d.sessions
    {
      WaitsIs(d, offers, eligible, now, j);
      if Waits(d, offers, eligible, now, j) { WaiterExists(d, offers, eligible, now, j); }
    }
  }

  lemma WaiterExists(d: Desk, offers: seq<Offer>, eligible: (nat, nat) -> bool, now: int, j: nat)
    requires Waits(d, offers, eligible, now, j)
    ensures j in d.sessions
  {
  }

  lemma {:induction false} ChoiceIsBest(d: Desk, offers: seq<Offer>, eligible: (nat, nat) -> bool, id: nat, k: nat)
    requires exists i :: k <= i < |offers| && Usable(d, offers, eligible, id, i)
    ensures forall i :: k <= i < Choice(d, offers, eligible, id, k) ==> !Usable(d, offers, eligible, id, i)
    decreases |offers| - k
  {
    hide Usable;
    if !Usable(d, offers, eligible, id, k) {
      ChoiceIsBest(d, offers, eligible, id, k + 1);
    }
  }

  /** The chosen offer is the first one that can serve. */
  lemma ChosenIsBest(d: Desk, offers: seq<Offer>, eligible: (nat, nat) -> bool, now: int, id: nat)
    requires First(d, offers, eligible, now, id)
    ensures BestOffer(d, offers, eligible, id, Choice(d, offers, eligible, id, 0))
  {
    hide CanServe, Usable, Before;
    ChoiceIsBest(d, offers, eligible, id, 0);
    var c := Choice(d, offers, eligible, id, 0);
    forall k: nat ensures CanServe(d, offers, eligible, id, k) <==> Usable(d, offers, eligible, id, k) {
      CanServeIs(d, offers, eligible, id, k);
    }
  }

  /** The session as it is placed on an offer. */
  function PlacedOn(s: Session, offer: Offer, deadline: int): Session
  {
    Session(s.user, s.hold, s.manifest, s.maxOutput, s.pool, Preparing, s.created, s.queueDeadline, true, deadline, s.started,
            offer.routed, offer.owner, offer.members, offer.domains, s.root, s.charged)
  }

  /**
   Main result: a queued session that asks in time is admitted exactly when it is its turn and its pool, if any, covers it.
   It goes to the first offer that can serve it, and its row then names that offer's owner, members and domains and is
   otherwise what it was; a session that asks after its deadline ends interrupted, uncharged.
   */
  lemma AdmitIs(
    d: Desk, id: nat, offers: seq<Offer>, eligible: (nat, nat) -> bool, now: int, covered: bool, deadline: int, targets: Targets)
    requires DeskOk(d) && id in d.sessions
    ensures var (e, outcome) := Admit(d, id, offers, eligible, now, covered, deadline, targets); var s := d.sessions[id];
            if Ended(s) then e == d && outcome == Fine
            else if s.phase != Queued then e == d && outcome == Refused("admission_state")
            else if s.queueDeadline < now then
              outcome == Fine && e.sessions == d.sessions[id := s.(phase := Interrupted, charged := 0)] && e.lastAdmitted == d.lastAdmitted
            else if !InTurn(d, offers, eligible, now, id) then e == d && outcome == Waiting
            else if s.pool.Some? && !covered then e == d && outcome == Refused("coverage_ended")
            else
              && outcome == Fine
              && exists k: nat :: k < |offers| && BestOffer(d, offers, eligible, id, k)
                   && e == d.(sessions := d.sessions[id := PlacedOn(s, offers[k], deadline)], lastAdmitted := d.lastAdmitted[s.user := now])
  {
    hide DeskOk, Store, First, CanServe, Usable, InTurn, BestOffer;
    var s := d.sessions[id];
    InTurnIs(d, offers, eligible, now, id);
    if s.phase == Queued {
      ExpiredStores(d, id, targets);
      if First(d, offers, eligible, now, id) {
        ChosenIsBest(d, offers, eligible, now, id);
        FirstChooses(d, offers, eligible, now, id);
        var k := Choice(d, offers, eligible, id, 0);
        assert Placed(s, offers[k], deadline) == PlacedOn(s, offers[k], deadline);
      }
    }
  }

  lemma FirstChooses(d: Desk, offers: seq<Offer>, eligible: (nat, nat) -> bool, now: int, id: nat)
    requires First(d, offers, eligible, now, id)
    ensures exists i :: 0 <= i < |offers| && Usable(d, offers, eligible, id, i)
    ensures Choice(d, offers, eligible, id, 0) < |offers|
  {
    hide Usable, Before;
  }

  // ---------------------------------------------------------------------------------------------
  // Creation

  function OpenOf(d: Desk, user: nat): set<nat>
  {
    set j | j in d.sessions && d.sessions[j].user == user && !Ended(d.sessions[j])
  }

  /** The price of the longest answer with all the rest of the context as its input. */
  predicate QuotedAt(m: Manifest, maxOutput: int, hold: int)
  {
    var d := m.rateDenominator;
    && hold <= 9223372036854775807
    && (hold - 1) * d < (m.maxContextTokens - maxOutput) * m.inputRate + maxOutput * m.outputRate <= hold * d
  }

  predicate CanHold(d: Desk, user: nat, hold: int)
  {
    hold <= 0 || (Available(user) in d.books.accounts
                  && (d.books.accounts[Available(user)].issuer || hold <= d.books.accounts[Available(user)].balance))
  }

  /**
   A session is created exactly when its quote is current, its conversation fits, its user has fewer than four open ones
   and within the elastic limit, and can pay the hold: the quoted price, moved in full. It then waits for two minutes.
   */
  lemma CreateIs(
    d: Desk, id: nat, user: nat, manifest: Manifest, maxOutput: int, pool: Option<nat>, now: int,
    quoted: bool, fits: bool, quota: bool, hold: int)
    requires DeskOk(d) && id !in d.sessions && WellPriced(manifest) && 0 <= maxOutput <= manifest.maxContextTokens
    requires PartiesExist(d.books, Fresh(user, 0, manifest, maxOutput, pool, now)) && QuotedAt(manifest, maxOutput, hold)
    ensures var (e, outcome) := Create(d, id, user, manifest, maxOutput, pool, now, quoted, fits, quota);
            && (outcome == Fine <==> quoted && fits && |OpenOf(d, user)| < 4 && quota && CanHold(d, user, hold))
            && (outcome != Fine ==> e == d)
            && (outcome == Fine ==>
                  && e.sessions == d.sessions[id := Session(user, hold, manifest, maxOutput, pool, Queued, now, now + 120000, false, 0,
                                                            false, false, 0, [], {}, None, 0)]
                  && e.lastAdmitted == d.lastAdmitted && e.slots == d.slots
                  && e.books.Balance(Available(user)) == d.books.Balance(Available(user)) - hold
                  && e.books.Balance(HeldBy(user)) == d.books.Balance(HeldBy(user)) + hold)
  {
    hide DeskOk, Posting, QuoteMaximum, OpenSessions, OpenOf, CanHold;
    QuoteIs(manifest, maxOutput, hold);
    OpenIs(d, user);
    HoldIsAmount(d, manifest, maxOutput, hold);
    if hold > 0 { HoldPosts(d, id, user, hold); } else { NothingToHold(d, user, hold); }
  }

  /** Nothing is created without a price that fits 64 bits. */
  lemma CreateNeedsAQuote(
    d: Desk, id: nat, user: nat, manifest: Manifest, maxOutput: int, pool: Option<nat>, now: int,
    quoted: bool, fits: bool, quota: bool)
    requires WellPriced(manifest) && 0 <= maxOutput <= manifest.maxContextTokens
    ensures Create(d, id, user, manifest, maxOutput, pool, now, quoted, fits, quota).1 == Fine ==>
              exists hold :: QuotedAt(manifest, maxOutput, hold)
  {
    hide QuoteMaximum, Create, QuotedAt;
    FineIsQuoted(d, id, user, manifest, maxOutput, pool, now, quoted, fits, quota);
    if QuoteMaximum(manifest, maxOutput).Some? { QuoteIsPrice(manifest, maxOutput, QuoteMaximum(manifest, maxOutput).value); }
  }

  lemma FineIsQuoted(
    d: Desk, id: nat, user: nat, manifest: Manifest, maxOutput: int, pool: Option<nat>, now: int,
    quoted: bool, fits: bool, quota: bool)
    requires WellPriced(manifest) && 0 <= maxOutput <= manifest.maxContextTokens
    ensures Create(d, id, user, manifest, maxOutput, pool, now, quoted, fits, quota).1 == Fine ==> QuoteMaximum(manifest, maxOutput).Some?
  {
    hide QuoteMaximum, Posting, OpenSessions;
  }

  lemma QuoteIsPrice(m: Manifest, maxOutput: int, hold: int)
    requires WellPriced(m) && 0 <= maxOutput <= m.maxContextTokens && QuoteMaximum(m, maxOutput) == Some(hold)
    ensures QuotedAt(m, maxOutput, hold)
  {
    hide QuoteMaximum;
    QuoteIs(m, maxOutput, hold);
  }

  lemma OpenIs(d: Desk, user: nat)
    ensures OpenOf(d, user) == OpenSessions(d, user)
  {
  }

  lemma NothingToHold(d: Desk, user: nat, hold: int)
    requires hold <= 0
    ensures CanHold(d, user, hold)
  {
  }

  lemma HoldIsAmount(d: Desk, manifest: Manifest, maxOutput: int, hold: int)
    requires WellPriced(manifest) && 0 <= maxOutput <= manifest.maxContextTokens && QuotedAt(manifest, maxOutput, hold)
    ensures 0 <= hold <= 9223372036854775807
  {
    hide QuoteMaximum;
    QuoteIs(manifest, maxOutput, hold);
    QuoteIsAmount(manifest, maxOutput);
  }

  /** A positive hold is moved in full exactly when the user can pay it. */
  lemma HoldPosts(d: Desk, id: nat, user: nat, hold: int)
    requires DeskOk(d) && id !in d.sessions && 0 < hold <= 9223372036854775807 && HeldBy(user) in d.books.accounts
    ensures var (books, verdict) := Posting(d.books, HoldKey(id), [(Available(user), -hold), (HeldBy(user), hold)]);
            && (verdict == Posted || verdict == Replayed <==> CanHold(d, user, hold))
            && (verdict == Posted || verdict == Replayed ==>
                  && books.Balance(Available(user)) == d.books.Balance(Available(user)) - hold
                  && books.Balance(HeldBy(user)) == d.books.Balance(HeldBy(user)) + hold)
  {
    hide DeskOk, Posting, BooksOk, Value;
    NewKeys(d, id, user);
    LeaseCredits.TransferExactlyWhen(d.books, HoldKey(id), Available(user), HeldBy(user), hold);
    HoldMoves(d.books, id, user, hold);
    HoldMovesHeld(d.books, id, user, hold, user);
    HoldMovesAvailable(d.books, id, user, hold);
  }

  lemma NewKeys(d: Desk, id: nat, user: nat)
    requires DeskOk(d) && id !in d.sessions
    ensures BooksOk(d.books) && HoldKey(id) !in d.books.journal && 0 <= d.books.Balance(HeldBy(user))
  {
    hide BooksOk, SessionOk, PartiesExist, Sum, SlotsOk;
    assert RowOk(d, id) && HeldOk(d, user);
    forall j | j in d.sessions ensures 0 <= HoldFor(user)(d.sessions[j]) { RowFacts(d, j); SessionFacts(d.sessions[j]); }
    NonNegative(d.sessions, HoldFor(user));
  }

  lemma HoldMovesAvailable(b: Books, id: nat, user: nat, hold: int)
    ensures var (after, verdict) := Posting(b, HoldKey(id), [(Available(user), -hold), (HeldBy(user), hold)]);
            verdict == Posted ==> after.Balance(Available(user)) == b.Balance(Available(user)) - hold
  {
    hide Posting, Value;
    var out, back := (Available(user), -hold), (HeldBy(user), hold);
    assert [out] + [back] == [out, back];
    OneLine(out.0, out.1, Available(user));
    OneLine(back.0, back.1, Available(user));
    ValueJoin([out], [back], Available(user));
    PostMovesExactly(b, HoldKey(id), [out, back], Available(user));
  }

  // ---------------------------------------------------------------------------------------------
  // What a step may change of a session

  /** Where the session runs and who runs it. */
  predicate SamePlace(s: Session, t: Session)
  {
    && t.user == s.user && t.hold == s.hold && t.pool == s.pool && t.manifest == s.manifest && t.maxOutput == s.maxOutput
    && t.routed == s.routed && t.owner == s.owner && t.domains == s.domains && t.admitted == s.admitted && t.deadline == s.deadline
    && |t.members| == |s.members|
    && forall i :: 0 <= i < |s.members| ==>
         t.members[i].provider == s.members[i].provider && t.members[i].share == s.members[i].share && t.members[i].root == s.members[i].root
  }

  lemma ApplyStays(s: Session, op: Op, env: Env)
    ensures SamePlace(s, Apply(s, op, env).0)
  {
    hide ChargeFor, RootValid, StageValid, StagesClaimed, TakeStage, TakeRoot, SettleRoute;
    match op
    case DoStage(i, mine, r) => StageStays(s, i, mine, r, env);
    case DoRoot(mine, r) => RootStays(s, mine, r, env);
    case _ =>
  }

  lemma SettleStays(s: Session, env: Env)
    ensures SamePlace(s, SettleRoute(s, env).0)
  {
    hide ChargeFor, StageValid, SomeStageFailed, AllStagesReported;
  }

  lemma StageStays(s: Session, i: nat, mine: bool, r: StageReceipt, env: Env)
    ensures SamePlace(s, TakeStage(s, i, mine, r, env).0)
  {
    hide SettleRoute;
    if i < |s.members| { SettleStays(WithStage(s, i, r), env); }
  }

  lemma RootStays(s: Session, mine: bool, r: RootReceipt, env: Env)
    ensures SamePlace(s, TakeRoot(s, mine, r, env).0)
  {
    hide SettleRoute, ChargeFor, RootValid;
    SettleStays(s.(root := Some(r)), env);
  }

  /** What any action leaves of any session. */
  lemma NextIs(d: Desk, action: Action, id: nat)
    requires DeskOk(d) && Possible(d, action) && id in d.sessions
    ensures var e := Next(d, action).0; var s := d.sessions[id];
            && id in e.sessions
            && (e.sessions[id] == s
                || (action.DoStep? && action.id == id && e.sessions[id] == Apply(s, action.op, action.env).0)
                || (action.DoAdmit? && action.id == id && s.phase == Queued
                    && (e.sessions[id] == s.(phase := Interrupted, charged := 0)
                        || exists k: nat :: k < |action.offers| && BestOffer(d, action.offers, action.eligible, id, k)
                                            && e.sessions[id] == PlacedOn(s, action.offers[k], action.deadline))))
  {
    hide DeskOk, Create, Admit, Step, Apply, BestOffer, InTurn, PartiesExist, Foreign, OfferOk;
    match action
    case DoCreate(i, user, manifest, maxOutput, pool, now, quoted, fits, quota) =>
      CreateAdds(d, i, user, manifest, maxOutput, pool, now, quoted, fits, quota);
    case DoAdmit(i, offers, eligible, now, covered, deadline, targets) =>
      if i in d.sessions { AdmitIs(d, i, offers, eligible, now, covered, deadline, targets); } else { AdmitMissing(d, action); }
    case DoStep(i, op, env, targets) =>
      if i in d.sessions { StepStores(d, i, op, env, targets); } else { StepMissing(d, action); }
    case Elsewhere(books) =>
  }

  lemma CreateAdds(
    d: Desk, i: nat, user: nat, manifest: Manifest, maxOutput: int, pool: Option<nat>, now: int, quoted: bool, fits: bool, quota: bool)
    requires i !in d.sessions
    ensures var e := Create(d, i, user, manifest, maxOutput, pool, now, quoted, fits, quota).0;
            e.sessions == d.sessions || (e.sessions.Keys == d.sessions.Keys + {i} && !e.sessions[i].admitted && e.sessions[i].charged == 0
                                         && e.sessions[i].phase == Queued && e.sessions == d.sessions[i := e.sessions[i]])
  {
    hide Posting, QuoteMaximum;
  }

  lemma AdmitMissing(d: Desk, action: Action)
    requires action.DoAdmit? && action.id !in d.sessions
    ensures Next(d, action).0 == d
  {
    hide Store, First, Choice;
  }

  lemma StepMissing(d: Desk, action: Action)
    requires action.DoStep? && action.id !in d.sessions
    ensures Next(d, action).0 == d
  {
    hide Store, Apply;
  }

  /** A session that was not there before is new: queued, on no node, uncharged. */
  lemma NextAdds(d: Desk, action: Action, id: nat)
    requires DeskOk(d) && Possible(d, action) && id !in d.sessions && id in Next(d, action).0.sessions
    ensures var s := Next(d, action).0.sessions[id]; s.phase == Queued && !s.admitted && s.charged == 0
  {
    hide DeskOk, Create, Admit, Step, Apply, BestOffer, InTurn, PartiesExist, Foreign, OfferOk;
    match action
    case DoCreate(i, user, manifest, maxOutput, pool, now, quoted, fits, quota) =>
      CreateAdds(d, i, user, manifest, maxOutput, pool, now, quoted, fits, quota);
    case DoAdmit(i, offers, eligible, now, covered, deadline, targets) =>
      if i in d.sessions { AdmitIs(d, i, offers, eligible, now, covered, deadline, targets); } else { AdmitMissing(d, action); }
    case DoStep(i, op, env, targets) =>
      if i in d.sessions { StepStores(d, i, op, env, targets); } else { StepMissing(d, action); }
    case Elsewhere(books) =>
  }

  // ---------------------------------------------------------------------------------------------
  // Every run

  lemma NextDelivers(d: Desk, action: Action, id: nat)
    requires DeskOk(d) && Possible(d, action) && AllDelivered(d) && id in Next(d, action).0.sessions
    ensures ChargedForDelivery(Next(d, action).0.sessions[id])
  {
    hide DeskOk, Possible, Next, Apply, SessionOk, Delivered, BestOffer;
    if id in d.sessions {
      NextIs(d, action, id);
      RowIsOk(d, id);
      if action.DoStep? { ApplyDelivers(d.sessions[id], action.op, action.env); }
    } else {
      NextAdds(d, action, id);
    }
  }

  /**
   Main result: in every run a session is charged only when it is COMPLETED, with a good root receipt and good receipts of
   every stage of its route, and then exactly that receipt's price.
   */
  lemma {:induction false} OnlyDeliveriesAreCharged(states: seq<Desk>, actions: seq<Action>, n: nat)
    requires Run(states, actions) && DeskOk(states[0]) && AllDelivered(states[0]) && n < |states|
    ensures AllDelivered(states[n])
  {
    hide DeskOk, Possible, Next, ChargedForDelivery;
    if n > 0 {
      OnlyDeliveriesAreCharged(states, actions, n - 1);
      RunKeeps(states, actions, n - 1);
      forall id | id in states[n].sessions ensures ChargedForDelivery(states[n].sessions[id]) {
        NextDelivers(states[n - 1], actions[n - 1], id);
      }
    }
  }

  /** Nothing but a receipt ever charges a session. */
  lemma OnlyReceiptsCharge(d: Desk, action: Action, id: nat)
    requires DeskOk(d) && Possible(d, action) && AllDelivered(d) && id in Next(d, action).0.sessions
    requires 0 < Next(d, action).0.sessions[id].charged
    ensures id in d.sessions
    ensures d.sessions[id] == Next(d, action).0.sessions[id]
            || (action.DoStep? && action.id == id && (action.op.DoStage? || action.op.DoRoot?) && Next(d, action).0.sessions[id].phase == Completed)
  {
    hide DeskOk, Possible, Next, Apply, SessionOk, Delivered, BestOffer, Ended;
    if id in d.sessions {
      NextIs(d, action, id);
      NextDelivers(d, action, id);
      RowIsOk(d, id);
      if action.DoStep? && !action.op.DoStage? && !action.op.DoRoot? { OtherStepsAreFree(d.sessions[id], action.op, action.env); }
      if action.DoAdmit? && d.sessions[id].phase == Queued { QueuedIsFree(d.sessions[id]); }
    } else {
      NextAdds(d, action, id);
    }
  }

  lemma QueuedIsFree(s: Session)
    requires SessionOk(s) && s.phase == Queued
    ensures s.charged == 0
  {
    hide Splittable, Shares, QuoteMaximum;
  }

  lemma OtherStepsAreFree(s: Session, op: Op, env: Env)
    requires SessionOk(s) && !op.DoStage? && !op.DoRoot?
    ensures Apply(s, op, env).0 == s || Apply(s, op, env).0.charged == 0
  {
    hide SessionOk, Apply;
    StepIs(s, op, env);
  }

  /** Action m admitted this session, to its k-th offer, the first that could serve it. */
  ghost predicate AdmittedOn(states: seq<Desk>, actions: seq<Action>, m: nat, k: nat, id: nat)
    requires |states| == |actions| + 1
  {
    && m < |actions| && actions[m].DoAdmit? && actions[m].id == id && k < |actions[m].offers|
    && id in states[m].sessions && states[m].sessions[id].phase == Queued
    && BestOffer(states[m], actions[m].offers, actions[m].eligible, id, k)
    && id in states[m + 1].sessions && states[m + 1].sessions[id] == PlacedOn(states[m].sessions[id], actions[m].offers[k], actions[m].deadline)
  }

  /** The session runs where this offer says. */
  predicate RunsOn(s: Session, o: Offer)
  {
    && s.admitted && s.routed == o.routed && s.owner == o.owner && s.domains == o.domains && |s.members| == |o.members|
    && forall i :: 0 <= i < |o.members| ==>
         s.members[i].provider == o.members[i].provider && s.members[i].share == o.members[i].share && s.members[i].root == o.members[i].root
  }

  lemma StaysOn(s: Session, t: Session, o: Offer)
    requires RunsOn(s, o) && SamePlace(s, t)
    ensures RunsOn(t, o)
  {
  }

  /** A placed session is not queued. */
  lemma AdmittedIsNotQueued(d: Desk, id: nat)
    requires DeskOk(d) && id in d.sessions && d.sessions[id].admitted
    ensures d.sessions[id].phase != Queued
  {
    hide DeskOk, Splittable, Shares, QuoteMaximum, WellPriced;
    RowIsOk(d, id);
  }

  /** In every run a session that was admitted runs on the offer it was admitted on. */
  lemma {:induction false} AdmittedRunsOnItsOffer(states: seq<Desk>, actions: seq<Action>, n: nat, id: nat) returns (m: nat, k: nat)
    requires Run(states, actions) && DeskOk(states[0]) && id !in states[0].sessions && n < |states|
    requires id in states[n].sessions && states[n].sessions[id].admitted
    ensures m < n && AdmittedOn(states, actions, m, k, id) && RunsOn(states[n].sessions[id], actions[m].offers[k])
  {
    hide DeskOk, Possible, Next, Apply, BestOffer, SamePlace;
    m, k := 0, 0;
    var d, action := states[n - 1], actions[n - 1];
    RunKeeps(states, actions, n - 1);
    assert states[n] == Next(d, action).0 && Possible(d, action);
    if id !in d.sessions {
      NextAdds(d, action, id);
    } else {
      NextIs(d, action, id);
      var s, t := d.sessions[id], states[n].sessions[id];
      if s.admitted {
        AdmittedIsNotQueued(d, id);
        m, k := AdmittedRunsOnItsOffer(states, actions, n - 1, id);
        if action.DoStep? { ApplyStays(s, action.op, action.env); }
        if t != s { StaysOn(s, t, actions[m].offers[k]); }
      } else {
        if action.DoStep? { StaysOut(s, action.op, action.env); }
        assert action.DoAdmit? && action.id == id && s.phase == Queued;
        m := n - 1;
        k :| k < |action.offers| && BestOffer(d, action.offers, action.eligible, id, k) && t == PlacedOn(s, action.offers[k], action.deadline);
      }
    }
  }

  lemma StaysOut(s: Session, op: Op, env: Env)
    ensures Apply(s, op, env).0.admitted == s.admitted
  {
    ApplyStays(s, op, env);
  }

  // ---------------------------------------------------------------------------------------------
  // Whom a settlement pays

  function OfferShares(o: Offer): (r: seq<int>)
    ensures |r| == |o.members|
  {
    seq(|o.members|, i requires 0 <= i < |o.members| => o.members[i].share)
  }

  /** What the first n members of an offer bring this provider of an amount: each one's share, cumulatively rounded down. */
  function BringsIn(o: Offer, amount: int, user: nat, n: nat): int
    requires n <= |o.members|
  {
    if n == 0 then 0
    else BringsIn(o, amount, user, n - 1)
         + if o.members[n - 1].provider == user then LeaseCredits.Most(amount, OfferShares(o), n - 1) else 0
  }

  lemma {:induction false} PartsBringIn(members: seq<Member>, parts: seq<int>, o: Offer, amount: int, user: nat, n: nat)
    requires |members| == |parts| == |o.members| && n <= |members|
    requires forall i :: 0 <= i < |members| ==>
               members[i].provider == o.members[i].provider && parts[i] == LeaseCredits.Most(amount, OfferShares(o), i)
    ensures PartsOf(members[..n], parts[..n], user) == BringsIn(o, amount, user, n)
  {
    hide LeaseCredits.Most;
    if n > 0 {
      PartsBringIn(members, parts, o, amount, user, n - 1);
      assert members[..n][..n - 1] == members[..n - 1] && parts[..n][..n - 1] == parts[..n - 1];
    }
  }

  lemma WageIs(s: Session, o: Offer, user: nat)
    requires RunsOn(s, o) && s.pool.None? && 0 < s.charged
    ensures Wage(s, s.charged, user)
         == if o.routed then BringsIn(o, s.charged - s.charged / 5, user, |o.members|)
            else if user == o.owner then s.charged - s.charged / 5 else 0
  {
    hide LeaseCredits.Most, Parts;
    if o.routed {
      var amount := s.charged - s.charged / 5;
      SharesLength(s.members);
      var parts := Parts(amount, Shares(s.members));
      assert Shares(s.members) == OfferShares(o);
      forall i | 0 <= i < |s.members| ensures parts[i] == LeaseCredits.Most(amount, OfferShares(o), i) {
        LeaseCredits.MaximaAre(amount, OfferShares(o), i);
      }
      PartsBringIn(s.members, parts, o, amount, user, |s.members|);
      assert s.members[..|s.members|] == s.members && parts[..|s.members|] == parts;
    }
  }

  /** The lines of a settlement on this offer: the rest to the user, a fifth to the laboratory, the remainder to the offer's providers. */
  ghost predicate PaysOffer(lines: Lines, s: Session, o: Offer)
  {
    var fee := s.charged / 5;
    && At(lines, HeldBy(s.user)) == -s.hold && At(lines, LabWorking) == fee
    && forall u: nat ::
         At(lines, Available(u)) == (if u == s.user then s.hold - s.charged else 0)
                                    + (if o.routed then BringsIn(o, s.charged - fee, u, |o.members|)
                                       else if u == o.owner then s.charged - fee else 0)
  }

  /**
   Main result: in every run, a charge that no pool paid for was distributed to the providers of the very offer the
   session was admitted on, the first that could serve it then: four fifths to them, by their shares, and one to the
   laboratory, with the rest of the hold returned to the user.
   */
  lemma SettlementsPayTheAdmittedOffer(states: seq<Desk>, actions: seq<Action>, n: nat, id: nat) returns (m: nat, k: nat)
    requires Run(states, actions) && DeskOk(states[0]) && AllDelivered(states[0]) && id !in states[0].sessions && n < |states|
    requires SettleKey(id) !in states[0].books.journal && SettleKey(id) in states[n].books.journal
    requires id in states[n].sessions && states[n].sessions[id].pool.None? && 0 < states[n].sessions[id].charged
    ensures m < n && AdmittedOn(states, actions, m, k, id)
    ensures PaysOffer(states[n].books.journal[SettleKey(id)], states[n].sessions[id], actions[m].offers[k])
  {
    hide DeskOk, Possible, Next, BestOffer, RunsOn, Allocated, Run, GoodRoot, GoodStage, PriceOf;
    OnlyDeliveriesAreCharged(states, actions, n);
    var s := states[n].sessions[id];
    assert ChargedForDelivery(s);
    m, k := AdmittedRunsOnItsOffer(states, actions, n, id);
    EverySettlementPaysRight(states, actions, n, id);
    OneMoreState(states, actions);
    var lines := states[n].books.journal[SettleKey(id)];
    var j: nat :| j < n && SettledBy(states, actions, j, id, lines, s);
    PaysAsExplained(lines, s, Allocated(states[j].books, s, s.charged, actions[j].targets), actions[m].offers[k]);
  }

  lemma OneMoreState(states: seq<Desk>, actions: seq<Action>)
    requires Run(states, actions)
    ensures |states| == |actions| + 1
  {
    hide Possible, Next;
  }

  lemma PaysAsExplained(lines: Lines, s: Session, a: Refill.Allocation, o: Offer)
    requires Explains(lines, s, a) && RunsOn(s, o) && s.pool.None? && 0 < s.charged
    ensures PaysOffer(lines, s, o)
  {
    hide RunsOn, Wage, BringsIn;
    forall u: nat
      ensures At(lines, Available(u)) == (if u == s.user then s.hold - s.charged else 0) + Wage(s, s.charged, u)
      ensures Wage(s, s.charged, u) == if o.routed then BringsIn(o, s.charged - s.charged / 5, u, |o.members|)
                                       else if u == o.owner then s.charged - s.charged / 5 else 0
    {
      WageIs(s, o, u);
      assert At(lines, Available(u)) == Gain(s, s.charged, a, Available(u));
    }
    assert At(lines, HeldBy(s.user)) == Gain(s, s.charged, a, HeldBy(s.user));
    assert At(lines, LabWorking) == Gain(s, s.charged, a, LabWorking);
  }
}
