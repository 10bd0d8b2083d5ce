/** The small changes every handler is made of, and that each keeps the experiment's invariant. */
module StudySteps {
  import opened StudyLedger
  import opened StudyRoles
  import opened MapSums
  import opened EventStudy
  import opened StudySafety

  // ---------------------------------------------------------------------------------------------
  // One request

  function KeysOf(id: nat): set<Key>
  {
    {UsageKey(id), ReversalKey(id), Leg(ReversalKey(id), false), Leg(ReversalKey(id), true)}
  }

  /** v differs from w only in the request id and in its ledger entries. */
  ghost predicate SameRequest(w: World, v: World, j: nat)
  {
    && (j in v.jobs.requests <==> j in w.jobs.requests)
    && (j in w.jobs.requests ==> v.jobs.requests[j] == w.jobs.requests[j])
    && (j in v.jobs.waiting <==> j in w.jobs.waiting)
  }

  ghost predicate SameOtherRequests(w: World, v: World, id: nat)
  {
    forall j :: j != id ==> SameRequest(w, v, j)
  }

  lemma KindOfOther(w: World, v: World, id: nat, when: nat, kind: EventStudy.Kind)
    requires KindOk(w, when, kind) && TokenOf(kind) != JobToken(id)
    requires v.fleet == w.fleet
    requires SameElsewhere(w.ledger, v.ledger, KeysOf(id)) && SameOtherRequests(w, v, id)
    requires id in w.jobs.requests ==> id in v.jobs.requests
    ensures KindOk(v, when, kind)
  {
    hide RoleOf;
    match kind
    case QueueDeadline(j) => assert j != id ==> SameRequest(w, v, j);
    case Arrival(j) => assert SameRequest(w, v, j);
    case RequestDone(j, _) => assert SameRequest(w, v, j);
    case UsageSettle(j) => assert SameRequest(w, v, j);
    case RefundApprove(j) => assert SameRequest(w, v, j);
    case RefundPost(j) => assert SameRequest(w, v, j);
    case _ =>
  }

  lemma RequestOfOther(w: World, v: World, id: nat, j: nat)
    requires RequestOk(w, j) && j != id
    requires SameElsewhere(w.ledger, v.ledger, KeysOf(id)) && SameOtherRequests(w, v, id)
    ensures RequestOk(v, j)
  {
    hide RoleOf;
    assert SameRequest(w, v, j);
  }

  /** A change to one request none of whose events is pending, that leaves it well formed. */
  lemma JobKeeps(P: Params, w: World, v: World, id: nat)
    requires Valid(P, w) && TokenFree(w, JobToken(id))
    requires v == w.(ledger := v.ledger, jobs := v.jobs)
    requires Inv(v.ledger) && SameElsewhere(w.ledger, v.ledger, KeysOf(id)) && SameOtherRequests(w, v, id)
    requires id in w.jobs.requests ==> id in v.jobs.requests
    requires RequestOk(v, id)
    ensures Valid(P, v)
  {
    hide Inv, CashOk, PlanOk, KindOk, RequestOk, RoleOf, SameRequest;
    forall s ensures EventOk(v, s) {
      assert EventOk(w, s);
      if s in w.events { KindOfOther(w, v, id, w.events[s].when, w.events[s].kind); }
    }
    forall j ensures RequestOk(v, j) {
      assert RequestOk(w, j);
      if j != id { RequestOfOther(w, v, id, j); }
    }
    forall n ensures NodeOk(v, n) { assert NodeOk(w, n); }
    forall s ensures RunsAfterNow(w, s) ==> RunsAfterNow(v, s) && RouteOf(v, s) == RouteOf(w, s) {
      if RunsAfterNow(w, s) {
        var j := w.events[s].kind.id;
        assert TokenOf(w.events[s].kind) == JobToken(j);
        SameRoute(w, v, j);
      }
    }
    forall s ensures BookedOk(v, s) { assert BookedOk(w, s); }
    forall s, x ensures Separate(v, s, x) { assert Separate(w, s, x); }
  }

  lemma SameRoute(w: World, v: World, j: nat)
    requires SameRequest(w, v, j)
    ensures (j in v.jobs.requests <==> j in w.jobs.requests)
    ensures j in w.jobs.requests ==> v.jobs.requests[j] == w.jobs.requests[j]
  {
  }

  // ---------------------------------------------------------------------------------------------
  // One ledger entry that belongs to no request

  ghost predicate Loose(w: World, key: Key)
  {
    match key
    case ReadyKey(at, n) =>
      TokenFree(w, ReadyToken(at, n)) && at <= w.now && (RoleOf(w.ledger, key) == Fresh ==> TokenFree(w, LeaseToken))
    case TreasuryKey(at) => at <= w.now && TokenFree(w, DayToken)
    case GrantKey(at, i) => at <= w.now && TokenFree(w, DayToken)
    case _ => false
  }

  lemma KindBesides(w: World, t: State, key: Key, s: nat)
    requires s in w.events && KindOk(w, w.events[s].when, w.events[s].kind)
    requires Loose(w, key) && SameElsewhere(w.ledger, t, {key})
    ensures KindOk(w.(ledger := t), w.events[s].when, w.events[s].kind)
  {
    hide RoleOf;
    var kind := w.events[s].kind;
    assert key.ReadyKey? && RoleOf(w.ledger, key) == Fresh ==> TokenOf(kind) != LeaseToken;
    assert !key.ReadyKey? ==> TokenOf(kind) != DayToken;
    assert key.ReadyKey? ==> TokenOf(kind) != ReadyToken(key.at, key.node);
  }

  lemma LedgerKeeps(P: Params, w: World, t: State, key: Key)
    requires Valid(P, w) && Inv(t) && Loose(w, key) && SameElsewhere(w.ledger, t, {key})
    ensures Valid(P, w.(ledger := t))
  {
    hide Inv, CashOk, PlanOk, KindOk, RequestOk, RoleOf, TokenFree;
    var v := w.(ledger := t);
    forall s ensures EventOk(v, s) {
      assert EventOk(w, s);
      if s in w.events { KindBesides(w, t, key, s); }
    }
    forall j ensures RequestOk(v, j) { assert RequestOk(w, j); RequestBesides(w, t, key, j); }
    forall n ensures NodeOk(v, n) { assert NodeOk(w, n); }
    forall s ensures BookedOk(v, s) { assert BookedOk(w, s); }
    forall s, x ensures Separate(v, s, x) { assert Separate(w, s, x); }
  }

  lemma RequestBesides(w: World, t: State, key: Key, j: nat)
    requires RequestOk(w, j) && SameElsewhere(w.ledger, t, {key})
    requires key.ReadyKey? || key.TreasuryKey? || key.GrantKey?
    ensures RequestOk(w.(ledger := t), j)
  {
    hide RoleOf;
  }

  // ---------------------------------------------------------------------------------------------
  // Plan, cash and the clock

  lemma PlanKeeps(P: Params, w: World, v: World)
    requires Valid(P, w) && v == w.(plan := v.plan, cash := v.cash, market := v.market) && Treasury(P, v)
    ensures Valid(P, v)
  {
    hide Inv, CashOk, PlanOk, KindOk, RequestOk, RoleOf;
    forall s ensures EventOk(v, s) {
      assert EventOk(w, s);
      if s in w.events { KindSame(w, v, w.events[s].when, w.events[s].kind); }
    }
    forall j ensures RequestOk(v, j) { assert RequestOk(w, j); RequestSame(w, v, j); }
    forall n ensures NodeOk(v, n) { assert NodeOk(w, n); }
    forall s ensures BookedOk(v, s) { assert BookedOk(w, s); }
    forall s, x ensures Separate(v, s, x) { assert Separate(w, s, x); }
  }

  /** Taking the next event: what it relies on holds now, and no other pending event shares its token. */
  lemma PopKeeps(P: Params, w: World)
    requires Valid(P, w) && w.events != map[]
    ensures var e := w.events[Earliest(w.events)];
            && Valid(P, Pop(w)) && Pop(w).now == e.when
            && KindOk(Pop(w), e.when, e.kind) && TokenFree(Pop(w), TokenOf(e.kind))
  {
    hide Inv, CashOk, PlanOk, KindOk, RequestOk, RoleOf, TokenOf;
    var first := Earliest(w.events);
    var e := w.events[first];
    var v := Pop(w);
    KindOfEvent(w, first);
    KindSame(w, v, e.when, e.kind);
    forall s ensures EventOk(v, s) {
      assert EventOk(w, s);
      if s in w.events { KindSame(w, v, w.events[s].when, w.events[s].kind); }
    }
    forall j ensures RequestOk(v, j) { assert RequestOk(w, j); RequestSame(w, v, j); }
    forall n ensures NodeOk(v, n) { assert NodeOk(w, n); }
    forall s ensures BookedOk(v, s) { assert BookedOk(w, s); }
    forall s, x ensures Separate(v, s, x) { assert Separate(w, s, x); }
  }
}
