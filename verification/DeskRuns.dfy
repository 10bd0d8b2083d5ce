/** Main results about the coordinator, over every run of creations, admissions, session steps and outside postings. */
module DeskRuns {
  import opened MapSums
  import opened Contracts
  import opened Journal
  import opened Sessions
  import opened Desk
  import opened DeskSafety

  datatype Action =
    | DoCreate(id: nat, user: nat, manifest: Manifest, maxOutput: int, pool: Option<nat>, now: int, quoted: bool, fits: bool, quota: bool)
    | DoAdmit(id: nat, offers: seq<Offer>, eligible: (nat, nat) -> bool, now: int, covered: bool, deadline: int, targets: Targets)
    | DoStep(id: nat, op: Op, env: Env, targets: Targets)
    | Elsewhere(books: Books)

  /** Postings of everyone else (grants, leases, pools): they use no held account and no session's key, and the journal only grows. */
  ghost predicate Foreign(before: Books, after: Books)
  {
    && BooksOk(after)
    && (forall a :: a in before.accounts ==> a in after.accounts)
    && (forall u: nat :: after.Balance(HeldBy(u)) == before.Balance(HeldBy(u)))
    && (forall id: nat :: HoldKey(id) in after.journal <==> HoldKey(id) in before.journal)
    && (forall id: nat :: SettleKey(id) in after.journal <==> SettleKey(id) in before.journal)
    && (forall k :: k in before.journal ==> k in after.journal && after.journal[k] == before.journal[k])
  }

  ghost predicate Possible(d: Desk, action: Action)
  {
    match action
    case DoCreate(id, user, manifest, maxOutput, pool, now, _, _, _) =>
      && id !in d.sessions && WellPriced(manifest) && 0 <= maxOutput <= manifest.maxContextTokens
      && PartiesExist(d.books, Fresh(user, 0, manifest, maxOutput, pool, now))
    case DoAdmit(_, offers, _, _, _, _, _) => forall k :: 0 <= k < |offers| ==> OfferOk(d.books, offers[k])
    case DoStep(_, _, _, _) => true
    case Elsewhere(books) => Foreign(d.books, books)
  }

  ghost function Next(d: Desk, action: Action): (Desk, Outcome)
  {
    match action
    case DoCreate(id, user, manifest, maxOutput, pool, now, quoted, fits, quota) =>
      Create(d, id, user, manifest, maxOutput, pool, now, quoted, fits, quota)
    case DoAdmit(id, offers, eligible, now, covered, deadline, targets) =>
      Admit(d, id, offers, eligible, now, covered, deadline, targets)
    case DoStep(id, op, env, targets) => Step(d, id, op, env, targets)
    case Elsewhere(books) => (d.(books := books), Fine)
  }

  lemma NextKeeps(d: Desk, action: Action)
    requires DeskOk(d) && Possible(d, action)
    ensures DeskOk(Next(d, action).0) && (!action.DoCreate? ==> !Next(d, action).1.LedgerRefused?)
  {
    hide DeskOk, OfferOk, Create, Admit, Step, PartiesExist, Foreign;
    match action
    case DoCreate(id, user, manifest, maxOutput, pool, now, quoted, fits, quota) =>
      CreateKeeps(d, id, user, manifest, maxOutput, pool, now, quoted, fits, quota);
    case DoAdmit(id, offers, eligible, now, covered, deadline, targets) =>
      AdmitKeeps(d, id, offers, eligible, now, covered, deadline, targets);
    case DoStep(id, op, env, targets) => StepKeeps(d, id, op, env, targets);
    case Elsewhere(books) => ForeignKeeps(d, books);
  }

  lemma ForeignKeeps(d: Desk, books: Books)
    requires DeskOk(d) && Foreign(d.books, books)
    ensures DeskOk(d.(books := books))
  {
    hide BooksOk, Sum, SessionOk;
    var e := d.(books := books);
    forall id ensures RowOk(e, id) { assert RowOk(d, id); }
    forall user ensures HeldOk(e, user) { assert HeldOk(d, user); }
    forall domain ensures SlotsOk(e, domain) { assert SlotsOk(d, domain); }
    forall user ensures |OpenSessions(e, user)| <= 4 { assert OpenSessions(e, user) == OpenSessions(d, user); }
  }

  /** A run: each state follows from the one before by a possible action. */
  ghost predicate Run(states: seq<Desk>, actions: seq<Action>)
  {
    && |states| == |actions| + 1
    && forall n :: 0 <= n < |actions| ==> Possible(states[n], actions[n]) && states[n + 1] == Next(states[n], actions[n]).0
  }

  lemma {:induction false} RunKeeps(states: seq<Desk>, actions: seq<Action>, n: nat)
    requires Run(states, actions) && DeskOk(states[0]) && n < |states|
    ensures DeskOk(states[n])
  {
    hide DeskOk, Possible, Next;
    if n > 0 {
      RunKeeps(states, actions, n - 1);
      NextKeeps(states[n - 1], actions[n - 1]);
    }
  }

  /** A new coordinator: no sessions, and any accounts, all empty. */
  lemma DeskStarts(accounts: map<Account, Row>, slots: map<nat, nat>)
    requires forall a :: a in accounts ==> accounts[a].balance == 0
    ensures DeskOk(Desk(map[], Books(accounts, map[]), slots, map[]))
  {
    hide BooksOk, Sum;
    var d := Desk(map[], Books(accounts, map[]), slots, map[]);
    EmptyBooks(accounts);
    forall user ensures HeldOk(d, user) { MapSums.Nothing<nat, Session>(HoldFor(user)); }
    forall domain ensures SlotsOk(d, domain) { assert Occupants(d, domain) == {}; }
    forall user ensures |OpenSessions(d, user)| <= 4 { assert OpenSessions(d, user) == {}; }
  }

  /**
   Main result: in every reachable state the journal balances, no account but the issuer's is overdrawn, every user's
   held balance is the sum of the holds of that user's open sessions, and no domain serves more sessions than its slots.
   */
  lemma EveryStateBalances(states: seq<Desk>, actions: seq<Action>, n: nat, user: nat, domain: nat, a: Account)
    requires Run(states, actions) && DeskOk(states[0]) && n < |states|
    ensures var d := states[n];
            && d.books.Balance(HeldBy(user)) == Sum(d.sessions, HoldFor(user))
            && Sum(d.books.accounts, RowBalance) == 0
            && (a in d.books.accounts && !d.books.accounts[a].issuer ==> 0 <= d.books.Balance(a) == Sum(d.books.journal, LineOf(a)))
            && (domain in d.slots ==> |Occupants(d, domain)| <= d.slots[domain])
            && |OpenSessions(d, user)| <= 4
  {
    hide Sum, Run, SessionOk, PartiesExist, LinesOk;
    RunKeeps(states, actions, n);
    assert HeldOk(states[n], user) && SlotsOk(states[n], domain);
  }

  /** e still has this settlement and this session, unchanged. */
  predicate Kept(d: Desk, e: Desk, id: nat)
    requires id in d.sessions && SettleKey(id) in d.books.journal
  {
    && id in e.sessions && e.sessions[id] == d.sessions[id]
    && SettleKey(id) in e.books.journal && e.books.journal[SettleKey(id)] == d.books.journal[SettleKey(id)]
  }

  lemma CreateKept(
    d: Desk, i: nat, user: nat, manifest: Manifest, maxOutput: int, pool: Option<nat>, now: int,
    quoted: bool, fits: bool, quota: bool, id: nat)
    requires id in d.sessions && SettleKey(id) in d.books.journal && i !in d.sessions
    ensures Kept(d, Create(d, i, user, manifest, maxOutput, pool, now, quoted, fits, quota).0, id)
  {
    hide Posting, QuoteMaximum;
    if QuoteMaximum(manifest, maxOutput).Some? {
      var hold := QuoteMaximum(manifest, maxOutput).value;
      EntriesStay(d.books, HoldKey(i), [(Available(user), -hold), (HeldBy(user), hold)], SettleKey(id));
    }
  }

  lemma StepKept(d: Desk, i: nat, op: Op, env: Env, targets: Targets, id: nat)
    requires id in d.sessions && SettleKey(id) in d.books.journal && Terminal(d.sessions[id].phase)
    ensures Kept(d, Step(d, i, op, env, targets).0, id)
  {
    hide Store, Apply;
    if i == id { TerminalAbsorbs(d.sessions[id], op, env); }
    if i in d.sessions { StoreKeepsEntries(d, i, Apply(d.sessions[i], op, env).0, targets, SettleKey(id)); }
  }

  lemma AdmitKept(
    d: Desk, i: nat, offers: seq<Offer>, eligible: (nat, nat) -> bool, now: int, covered: bool, deadline: int,
    targets: Targets, id: nat)
    requires id in d.sessions && SettleKey(id) in d.books.journal && Terminal(d.sessions[id].phase)
    ensures Kept(d, Admit(d, i, offers, eligible, now, covered, deadline, targets).0, id)
  {
    hide Store, First, Choice, Placed;
    if i in d.sessions { StoreKeepsEntries(d, i, Finalize(d.sessions[i], Interrupted, 0).0, targets, SettleKey(id)); }
  }

  lemma NextKeepsSettled(d: Desk, action: Action, id: nat)
    requires DeskOk(d) && Possible(d, action) && SettleKey(id) in d.books.journal
    ensures id in d.sessions && Terminal(d.sessions[id].phase) && Kept(d, Next(d, action).0, id)
  {
    hide SessionOk, PartiesExist, BooksOk, OfferOk, HeldOk, Create, Admit, Step;
    assert RowOk(d, id);
    match action
    case DoStep(i, op, env, targets) => StepKept(d, i, op, env, targets, id);
    case DoCreate(i, user, manifest, maxOutput, pool, now, quoted, fits, quota) =>
      CreateKept(d, i, user, manifest, maxOutput, pool, now, quoted, fits, quota, id);
    case DoAdmit(i, offers, eligible, now, covered, deadline, targets) =>
      AdmitKept(d, i, offers, eligible, now, covered, deadline, targets, id);
    case Elsewhere(books) =>
  }

  /** A settlement belongs to a terminal session, is never posted again, and nothing it says ever changes. */
  lemma {:induction false} SettledOnce(states: seq<Desk>, actions: seq<Action>, n: nat, m: nat, id: nat)
    requires Run(states, actions) && DeskOk(states[0]) && n <= m < |states| && SettleKey(id) in states[n].books.journal
    ensures id in states[n].sessions && Terminal(states[n].sessions[id].phase) && Kept(states[n], states[m], id)
    decreases m - n
  {
    hide DeskOk, Possible, Next;
    RunKeeps(states, actions, n);
    if n < m {
      NextKeepsSettled(states[n], actions[n], id);
      SettledOnce(states, actions, n + 1, m, id);
    } else {
      SettledIsTerminal(states[n], id);
    }
  }

  lemma SettledIsTerminal(d: Desk, id: nat)
    requires DeskOk(d) && SettleKey(id) in d.books.journal
    ensures id in d.sessions && Terminal(d.sessions[id].phase)
  {
    hide BooksOk, SessionOk, PartiesExist, HeldOk, SlotsOk;
    assert RowOk(d, id);
  }

  /** The journal only grows. */
  lemma EntriesStay(b: Books, key: Key, entries: Entries, earlier: Key)
    requires earlier in b.journal
    ensures var after := Posting(b, key, entries).0; earlier in after.journal && after.journal[earlier] == b.journal[earlier]
  {
  }

  lemma StoreKeepsEntries(d: Desk, id: nat, t: Session, targets: Targets, key: Key)
    requires id in d.sessions && key in d.books.journal
    ensures var e := Store(d, id, t, targets).0; key in e.books.journal && e.books.journal[key] == d.books.journal[key]
    ensures Store(d, id, t, targets).0.sessions == d.sessions || Store(d, id, t, targets).0.sessions == d.sessions[id := t]
  {
    hide Posting, SettleEntries, Allocated, Splittable, Shares;
    EntriesStay(d.books, SettleKey(id), SettleEntries(t, t.charged, Allocated(d.books, t, t.charged, targets)), key);
  }

  // ---------------------------------------------------------------------------------------------
  // Bounded bypass

  /** Step n admits a session of this user. */
  ghost predicate Admits(states: seq<Desk>, actions: seq<Action>, n: nat, user: nat)
  {
    && n < |actions| && n + 1 < |states| && actions[n].DoAdmit? && actions[n].id in states[n].sessions
    && states[n].sessions[actions[n].id].user == user
    && states[n].sessions[actions[n].id].phase == Queued
    && actions[n].id in states[n + 1].sessions && states[n + 1].sessions[actions[n].id].phase == Preparing
  }

  /** The admission clock only moves forward, and starts after every recorded admission. */
  ghost predicate Increasing(states: seq<Desk>, actions: seq<Action>)
    requires |states| == |actions| + 1
  {
    && (forall n: nat, u: nat :: Admits(states, actions, n, u) ==> forall x: nat :: states[0].Turn(x) < actions[n].now)
    && (forall m: nat, n: nat, u: nat, v: nat ::
          m < n && Admits(states, actions, m, u) && Admits(states, actions, n, v) ==> actions[m].now < actions[n].now)
  }

  lemma TurnAfter(states: seq<Desk>, actions: seq<Action>, n: nat, x: nat)
    requires Run(states, actions) && n < |actions|
    ensures states[n + 1].Turn(x) == if Admits(states, actions, n, x) then actions[n].now else states[n].Turn(x)
  {
    hide First, Posting, SettleEntries, Allocated, Apply, Splittable, Shares, Choice, OfferOk, Foreign, QuoteMaximum, PartiesExist, WellPriced;
    assert states[n + 1] == Next(states[n], actions[n]).0;
  }

  /** A user's recorded turn is that of its last admission. */
  lemma {:induction false} TurnSince(states: seq<Desk>, actions: seq<Action>, i: nat, n: nat, x: nat)
    requires Run(states, actions) && i <= n <= |actions|
    requires forall k: nat :: i <= k < n ==> !Admits(states, actions, k, x)
    ensures states[n].Turn(x) == states[i].Turn(x)
  {
    hide Run, Admits;
    if i < n {
      TurnSince(states, actions, i, n - 1, x);
      TurnAfter(states, actions, n - 1, x);
    }
  }

  lemma {:induction false} TurnIsPast(states: seq<Desk>, actions: seq<Action>, n: nat, m: nat, u: nat, x: nat)
    requires Run(states, actions) && Increasing(states, actions) && Admits(states, actions, m, u) && n <= m
    ensures states[n].Turn(x) < actions[m].now
  {
    hide Run, Admits;
    if n > 0 {
      TurnIsPast(states, actions, n - 1, m, u, x);
      AdmitsIsEarly(states, actions, m, u);
      TurnAfter(states, actions, n - 1, x);
    }
  }

  lemma AdmitsIsEarly(states: seq<Desk>, actions: seq<Action>, m: nat, u: nat)
    requires Admits(states, actions, m, u)
    ensures m < |actions|
  {
  }

  lemma {:induction false} TurnAtLeast(states: seq<Desk>, actions: seq<Action>, i: nat, n: nat, x: nat)
    requires Run(states, actions) && Increasing(states, actions) && Admits(states, actions, i, x) && i < n <= |actions|
    ensures actions[i].now <= states[n].Turn(x)
  {
    hide Run, Admits;
    TurnAfter(states, actions, n - 1, x);
    if i < n - 1 {
      TurnAtLeast(states, actions, i, n - 1, x);
    }
  }

  /** The session admitted was first among all that could be served. */
  lemma AdmittedIsFirst(states: seq<Desk>, actions: seq<Action>, n: nat, u: nat, other: nat)
    requires Run(states, actions) && Admits(states, actions, n, u)
    requires Servable(states[n], actions[n].offers, actions[n].eligible, actions[n].now, other)
    ensures states[n].Turn(u) <= states[n].Turn(states[n].sessions[other].user)
  {
    hide Posting, SettleEntries, Allocated, Splittable, Shares, Choice, OfferOk, Servable;
    var d, a := states[n], actions[n];
    assert states[n + 1] == Next(d, a).0;
    StoreIsTerminal(d, a.id, a.targets);
    assert First(d, a.offers, a.eligible, a.now, a.id);
    assert Before(d, a.id, other) by { OthersExist(d, a.offers, a.eligible, a.now, other); }
  }

  lemma OthersExist(d: Desk, offers: seq<Offer>, eligible: (nat, nat) -> bool, now: int, id: nat)
    requires Servable(d, offers, eligible, now, id)
    ensures id in d.sessions
  {
  }

  lemma StoreIsTerminal(d: Desk, id: nat, targets: Targets)
    requires id in d.sessions && d.sessions[id].phase == Queued
    ensures var e := Store(d, id, Finalize(d.sessions[id], Interrupted, 0).0, targets).0;
            id in e.sessions && e.sessions[id].phase != Preparing
  {
    hide Posting, SettleEntries, Allocated, Splittable, Shares;
  }

  /**
   Bounded bypass: when a user is admitted again, every other user with a session that could be served right then was
   admitted in between. A user that stays eligible is therefore overtaken at most once by each other user.
   */
  lemma NobodyIsOvertakenTwice(states: seq<Desk>, actions: seq<Action>, i: nat, j: nat, u: nat, v: nat, waiting: nat)
    requires Run(states, actions) && Increasing(states, actions) && u != v && i < j
    requires Admits(states, actions, i, u) && Admits(states, actions, j, u)
    requires Servable(states[j], actions[j].offers, actions[j].eligible, actions[j].now, waiting)
    requires waiting in states[j].sessions && states[j].sessions[waiting].user == v
    ensures exists k: nat :: i < k < j && Admits(states, actions, k, v)
  {
    hide Run, Servable;
    AdmittedIsFirst(states, actions, j, u, waiting);
    TurnAtLeast(states, actions, i, j, u);
    if forall k: nat :: i < k < j ==> !Admits(states, actions, k, v) {
      TurnSince(states, actions, i, j, v);
      TurnIsPast(states, actions, i, i, u, v);
      assert false;
    }
  }
}
