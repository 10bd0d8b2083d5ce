/** What the journal says every settlement moved, against the session it settled. */
module DeskStatement {
  import opened Contracts
  import opened Journal
  import opened Sessions
  import opened Desk
  import opened DeskSafety
  import opened DeskRuns
  import opened Refill

  /** The lines say exactly what settling this session is supposed to move, for an allocation that adds up to the charge. */
  ghost predicate Explains(lines: Lines, s: Session, a: Allocation)
  {
    && (s.pool.Some? ==> 0 <= a.floor && 0 <= a.working && 0 <= a.reserve && 0 <= a.burned
                         && a.floor + a.working + a.reserve + a.burned == s.charged)
    && forall account :: At(lines, account) == Gain(s, s.charged, a, account)
  }

  /** If this action posted the session's settlement, it is what the pool's rule says for the balances and targets of that moment. */
  ghost predicate PaidNow(d: Desk, action: Action, e: Desk, id: nat)
  {
    SettleKey(id) in e.books.journal && SettleKey(id) !in d.books.journal ==>
      && (action.DoStep? || action.DoAdmit?) && action.id == id && id in e.sessions
      && Explains(e.books.journal[SettleKey(id)], e.sessions[id],
                  Allocated(d.books, e.sessions[id], e.sessions[id].charged, action.targets))
  }

  /** The session was settled by action k, whose state of the books decided the pool's allocation. */
  ghost predicate SettledBy(states: seq<Desk>, actions: seq<Action>, k: nat, id: nat, lines: Lines, s: Session)
    requires |states| == |actions| + 1
  {
    && k < |actions| && (actions[k].DoStep? || actions[k].DoAdmit?) && actions[k].id == id
    && SettleKey(id) !in states[k].books.journal && SettleKey(id) in states[k + 1].books.journal
    && Explains(lines, s, Allocated(states[k].books, s, s.charged, actions[k].targets))
  }

  /** Storing a row posts at most this session's settlement, and posts it right. */
  lemma StorePays(d: Desk, id: nat, t: Session, targets: Targets)
    requires id in d.sessions && 0 <= t.charged
    ensures var e := Store(d, id, t, targets).0;
            && (SettleKey(id) in e.books.journal && SettleKey(id) !in d.books.journal ==>
                  id in e.sessions && e.sessions[id] == t
                  && Explains(e.books.journal[SettleKey(id)], t, Allocated(d.books, t, t.charged, targets)))
            && forall j: nat :: j != id && SettleKey(j) in e.books.journal ==> SettleKey(j) in d.books.journal
  {
    hide Posting, SettleEntries, Allocated, Splittable, Shares, Gain, Value;
    var a := Allocated(d.books, t, t.charged, targets);
    var entries := SettleEntries(t, t.charged, a);
    AllocationExact(d.books, t, t.charged, targets);
    var (books, verdict) := Posting(d.books, SettleKey(id), entries);
    if verdict == Posted {
      Written(d.books, SettleKey(id), entries, LabWorking);
      forall account ensures At(books.journal[SettleKey(id)], account) == Gain(t, t.charged, a, account) {
        Written(d.books, SettleKey(id), entries, account);
        SettlementPays(t, t.charged, a, account);
      }
    } else {
      PostMovesExactly(d.books, SettleKey(id), entries, LabWorking);
    }
  }

  /** Opening a session posts no settlement. */
  lemma CreatePays(
    d: Desk, i: nat, user: nat, manifest: Manifest, maxOutput: int, pool: Option<nat>, now: int,
    quoted: bool, fits: bool, quota: bool, id: nat)
    requires SettleKey(id) !in d.books.journal
    ensures SettleKey(id) !in Create(d, i, user, manifest, maxOutput, pool, now, quoted, fits, quota).0.books.journal
  {
    hide Posting, QuoteMaximum;
    if QuoteMaximum(manifest, maxOutput).Some? {
      var hold := QuoteMaximum(manifest, maxOutput).value;
      PostMovesExactly(d.books, HoldKey(i), [(Available(user), -hold), (HeldBy(user), hold)], LabWorking);
    }
  }

  lemma StepPays(d: Desk, i: nat, op: Op, env: Env, targets: Targets, id: nat)
    requires DeskOk(d)
    ensures PaidNow(d, DoStep(i, op, env, targets), Step(d, i, op, env, targets).0, id)
  {
    hide DeskOk, Store, Apply, Explains, Allocated;
    if i in d.sessions {
      RowIsOk(d, i);
      ApplyKeeps(d.sessions[i], op, env);
      var t := Apply(d.sessions[i], op, env).0;
      ChargedIsNatural(t);
      StorePays(d, i, t, targets);
    }
  }

  lemma AdmitPays(
    d: Desk, i: nat, offers: seq<Offer>, eligible: (nat, nat) -> bool, now: int, covered: bool, deadline: int,
    targets: Targets, id: nat)
    requires DeskOk(d)
    ensures PaidNow(d, DoAdmit(i, offers, eligible, now, covered, deadline, targets),
                    Admit(d, i, offers, eligible, now, covered, deadline, targets).0, id)
  {
    hide DeskOk, Store, First, Choice, Placed, Explains, Allocated;
    if i in d.sessions && d.sessions[i].phase == Queued {
      RowIsOk(d, i);
      ChargedIsNatural(d.sessions[i]);
      StorePays(d, i, Finalize(d.sessions[i], Interrupted, 0).0, targets);
    }
  }

  lemma RowIsOk(d: Desk, id: nat)
    requires DeskOk(d) && id in d.sessions
    ensures SessionOk(d.sessions[id])
  {
    hide BooksOk, SessionOk, PartiesExist, HeldOk, SlotsOk;
    assert RowOk(d, id);
  }

  lemma ChargedIsNatural(s: Session)
    requires SessionOk(s)
    ensures 0 <= s.charged && 0 <= s.hold
  {
    hide Splittable, Shares;
  }

  lemma NextPays(d: Desk, action: Action, id: nat)
    requires DeskOk(d) && Possible(d, action)
    ensures PaidNow(d, action, Next(d, action).0, id)
  {
    hide DeskOk, OfferOk, PartiesExist, Create, Admit, Step, Explains, BooksOk, Allocated;
    if SettleKey(id) !in d.books.journal {
      match action
      case DoStep(i, op, env, targets) => StepPays(d, i, op, env, targets, id);
      case DoCreate(i, user, manifest, maxOutput, pool, now, quoted, fits, quota) =>
        CreatePays(d, i, user, manifest, maxOutput, pool, now, quoted, fits, quota, id);
      case DoAdmit(i, offers, eligible, now, covered, deadline, targets) =>
        AdmitPays(d, i, offers, eligible, now, covered, deadline, targets, id);
      case Elsewhere(books) =>
    }
  }

  /**
   Main result: in every reachable state, what the journal records for a settled session is, account by account, exactly
   what that session's final charge calls for: the hold emptied, the rest returned, and every provider, the laboratory
   or the pool paid its part. A pool's part is the refill rule's allocation of the charge for the pool's balances just
   before the action that settled it.
   */
  lemma {:induction false} EverySettlementPaysRight(states: seq<Desk>, actions: seq<Action>, n: nat, id: nat)
    requires Run(states, actions) && DeskOk(states[0]) && n < |states|
    requires SettleKey(id) !in states[0].books.journal && SettleKey(id) in states[n].books.journal
    ensures id in states[n].sessions
    ensures exists k: nat ::
              k < n && SettledBy(states, actions, k, id, states[n].books.journal[SettleKey(id)], states[n].sessions[id])
  {
    hide DeskOk, Possible, Next, Explains, Allocated;
    RunKeeps(states, actions, n);
    RunKeeps(states, actions, n - 1);
    SettledIsTerminal(states[n], id);
    if SettleKey(id) in states[n - 1].books.journal {
      EverySettlementPaysRight(states, actions, n - 1, id);
      NextKeepsSettled(states[n - 1], actions[n - 1], id);
      var k: nat :| k < n - 1 && SettledBy(states, actions, k, id, states[n - 1].books.journal[SettleKey(id)], states[n - 1].sessions[id]);
      assert SettledBy(states, actions, k, id, states[n].books.journal[SettleKey(id)], states[n].sessions[id]);
    } else {
      NextPays(states[n - 1], actions[n - 1], id);
      assert SettledBy(states, actions, n - 1, id, states[n].books.journal[SettleKey(id)], states[n].sessions[id]);
    }
  }

  /** What the rule gives a pool: the whole charge, dispensed as `Refill.Recycle` does for these balances and targets. */
  lemma PoolIsRefilled(states: seq<Desk>, actions: seq<Action>, k: nat, id: nat, lines: Lines, s: Session)
    requires |states| == |actions| + 1 && SettledBy(states, actions, k, id, lines, s) && s.pool.Some? && 0 < s.charged
    ensures var p := s.pool.value; var b := states[k].books; var g := actions[k].targets;
            var a := Recycle(s.charged, b.Balance(PoolWorking(p)), b.Balance(PoolReserve(p)), g.floor, g.working, g.reserve);
            && At(lines, PoolWorking(p)) == a.floor + a.working && At(lines, PoolReserve(p)) == a.reserve
            && At(lines, PoolBurn(p)) == a.burned
  {
    hide Recycle;
  }
}
