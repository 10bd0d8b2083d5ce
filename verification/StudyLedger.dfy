/**
 The integer ledger of the economy study (benchmarks/python/network_ai_bench/ledger.py).

 `State` is a snapshot of the Python object, `Apply` is the effect of one method call on it
 (including the calls that raise), and class `Ledger` is the object itself.
 */
module StudyLedger {
  import opened MapSums
  import opened Quotients
  import Refilling = Refill

  const MAX_INTEGER := 0x7FFF_FFFF_FFFF_FFFF
  const TREASURY_DIVISOR := 19
  const GRANT_DIVISOR := 49

  /** Account names. `Continuity` is COOP_CONTINUITY, which must never hold a balance. */
  datatype Account = Working | Reserve | Continuity | Node(node: nat) | User(user: nat) | Named(name: string)

  /** Operation identifiers. `Leg` is an identifier extended with ":w" (or ":r" when `reserve`). */
  datatype Key =
    | ReadyKey(at: nat, node: nat)
    | TreasuryKey(at: nat)
    | GrantKey(at: nat, index: nat)
    | UsageKey(request: nat)
    | ReversalKey(request: nat)
    | OtherKey(name: string)
    | Leg(of: Key, reserve: bool)

  datatype Purpose = ForReady | ForUsage | ForReversal | OtherPurpose
  datatype Kind = Contributor | TreasuryKind | GrantKind | OtherKind
  datatype Priority = V6 | ReserveFirst | Single | OtherPriority

  datatype Held = Held(owner: Account, value: int, purpose: Purpose)
  datatype Promised = Promised(recipient: Account, value: int, kind: Kind)
  /** How a finalized charge was split; its three parts add up to the charge. */
  datatype Charge = Charge(owner: Account, working: int, reserve: int, burn: int) {
    function Total(): int { working + reserve + burn }
  }

  /** The running totals the ledger keeps next to its tables. */
  datatype Counters = Counters(
    S: int, L: int, J: int,
    issued: int, burned: int, reinstated: int,
    contributorIssued: int, treasuryIssued: int, grantsIssued: int)
  {
    function Exposure(): int { S + L + J }
  }

  datatype State = State(
    free: map<Account, int>,
    holds: map<Key, Held>,
    promises: map<Key, Promised>,
    reversals: map<Key, Charge>,
    closed: set<Key>,
    refills: map<Key, Charge>,
    c: Counters)
  {
    function Exposure(): int { c.Exposure() }

    function Balance(a: Account): int { BalanceIn(free, a) }

    predicate Used(k: Key) { k in closed || k in holds || k in promises || k in reversals }
  }

  function BalanceIn(free: map<Account, int>, a: Account): int { if a in free then free[a] else 0 }

  /** Every movement on an account creates its entry when it had none. */
  function Credit(free: map<Account, int>, a: Account, value: int): map<Account, int>
  {
    free[a := BalanceIn(free, a) + value]
  }

  const Empty := State(map[Working := 0, Reserve := 0], map[], map[], map[], {}, map[], Counters(0, 0, 0, 0, 0, 0, 0, 0, 0))

  // ---------------------------------------------------------------------------------------------
  // One method call

  datatype Op =
    | DoPromise(key: Key, recipient: Account, value: int, ceiling: int, kind: Kind)
    | DoReleasePromise(key: Key)
    | DoIssue(key: Key)
    | DoHold(key: Key, owner: Account, value: int, purpose: Purpose)
    | DoRelease(key: Key)
    | DoPayReady(key: Key, recipient: Account)
    | DoFinalize(key: Key, floor: int, workingTarget: int, reserveTarget: int, priority: Priority)
    | DoApprove(key: Key, original: Key)
    | DoPost(key: Key)

  /** What a call returns: a boolean, an amount, the three parts of a charge, nothing, or an exception. */
  datatype Reply = Bool(ok: bool) | Amount(value: int) | Parts(w: int, r: int, burn: int) | Unit | Raised

  predicate Representable(value: int) { 0 <= value <= MAX_INTEGER }

  function Min(a: int, b: int): int { if a <= b then a else b }
  function Gap(target: int, balance: int): int { if target > balance then target - balance else 0 }

  function PromiseValue(p: Promised): int { p.value }
  function HoldValue(h: Held): int { h.value }
  function ChargeBurn(c: Charge): int { c.burn }
  function TreasuryValue(p: Promised): int { if p.kind == TreasuryKind then p.value else 0 }
  function GrantValue(p: Promised): int { if p.kind == GrantKind then p.value else 0 }

  /** Value promised but not yet issued in one issuance class. */
  ghost function Pending(s: State, kind: Kind): int
  {
    if kind == TreasuryKind then Sum(s.promises, TreasuryValue)
    else if kind == GrantKind then Sum(s.promises, GrantValue)
    else 0
  }

  /** Whether `promise` records a promise (rather than returning False or raising). */
  ghost predicate Promisable(s: State, value: int, ceiling: int, kind: Kind)
  {
    && s.Exposure() + value <= Min(ceiling, MAX_INTEGER)
    && (kind == TreasuryKind ==>
          s.c.treasuryIssued + Pending(s, kind) + value <= s.c.contributorIssued / TREASURY_DIVISOR)
    && (kind == GrantKind ==>
          s.c.grantsIssued + Pending(s, kind) + value <= s.c.contributorIssued / GRANT_DIVISOR)
  }

  ghost function AfterPromise(s: State, key: Key, recipient: Account, value: int, ceiling: int, kind: Kind): (State, Reply)
  {
    if s.Used(key) || !Representable(value) || !Representable(ceiling) || kind == OtherKind then (s, Raised)
    else if !Promisable(s, value, ceiling, kind) then (s, Bool(false))
    else (s.(promises := Put(s.promises, key, Promised(recipient, value, kind)), c := s.c.(L := s.c.L + value)), Bool(true))
  }

  function AfterReleasePromise(s: State, key: Key): (State, Reply)
  {
    if key !in s.promises then (s, Raised)
    else
      (s.(promises := Drop(s.promises, key),
          c := s.c.(L := s.c.L - s.promises[key].value),
          closed := Add(s.closed, key)),
       Unit)
  }

  function AfterIssue(s: State, key: Key): (State, Reply)
  {
    if key !in s.promises then (s, Raised)
    else
      var p := s.promises[key];
      (s.(promises := Drop(s.promises, key),
          free := Credit(s.free, p.recipient, p.value),
          closed := Add(s.closed, key),
          c := s.c.(L := s.c.L - p.value,
                    S := s.c.S + p.value,
                    issued := s.c.issued + p.value,
                    contributorIssued := s.c.contributorIssued + if p.kind == Contributor then p.value else 0,
                    treasuryIssued := s.c.treasuryIssued + if p.kind == TreasuryKind then p.value else 0,
                    grantsIssued := s.c.grantsIssued
                                    + if p.kind != Contributor && p.kind != TreasuryKind then p.value else 0)),
       Amount(p.value))
  }

  function AfterHold(s: State, key: Key, owner: Account, value: int, purpose: Purpose): (State, Reply)
  {
    if s.Used(key) || !Representable(value) || owner == Continuity || purpose == OtherPurpose then (s, Raised)
    else if value > s.Balance(owner) then (s, Bool(false))
    else
      (s.(free := Credit(s.free, owner, -value), holds := Put(s.holds, key, Held(owner, value, purpose))), Bool(true))
  }

  function AfterRelease(s: State, key: Key): (State, Reply)
  {
    if key !in s.holds then (s, Raised)
    else
      (s.(holds := Drop(s.holds, key),
          free := Credit(s.free, s.holds[key].owner, s.holds[key].value),
          closed := Add(s.closed, key)),
       Unit)
  }

  function AfterPayReady(s: State, key: Key, recipient: Account): (State, Reply)
  {
    if key !in s.holds || s.holds[key].purpose != ForReady
       || (s.holds[key].owner != Working && s.holds[key].owner != Reserve) then (s, Raised)
    else
      (s.(holds := Drop(s.holds, key), free := Credit(s.free, recipient, s.holds[key].value), closed := Add(s.closed, key)),
       Amount(s.holds[key].value))
  }

  /** The refill rule: what of a charge q goes to working capital, to the reserve and to burning. */
  function Refill(q: int, w0: int, r0: int, floor: int, workingTarget: int, reserveTarget: int, priority: Priority)
    : (c: (int, int, int))
    ensures c.0 + c.1 + c.2 == q
    ensures 0 <= q ==> 0 <= c.0 && 0 <= c.1 && 0 <= c.2
  {
    var a := if priority == V6 then Min(q, Gap(floor, w0)) else 0;
    var p := if priority == V6 || priority == ReserveFirst then Min(q - a, Gap(reserveTarget, r0)) else 0;
    var w := Min(q - a - p, Gap(workingTarget, w0 + a));
    (a + w, p, q - a - p - w)
  }

  /** Every priority of the study is the cooperative fund's rule, with a floor or a reserve target already met. */
  lemma RefillIsRecycle(q: int, w0: int, r0: int, floor: int, workingTarget: int, reserveTarget: int, priority: Priority)
    requires 0 <= q && priority != OtherPriority
    ensures var a := Refilling.Recycle(q, w0, r0, if priority == V6 then floor else w0, workingTarget,
                                       if priority == Single then r0 else reserveTarget);
            Refill(q, w0, r0, floor, workingTarget, reserveTarget, priority) == (a.floor + a.working, a.reserve, a.burned)
  {
  }

  function AfterFinalize(s: State, key: Key, floor: int, workingTarget: int, reserveTarget: int, priority: Priority)
    : (State, Reply)
  {
    if key !in s.holds || s.holds[key].purpose != ForUsage
       || !Representable(floor) || !Representable(workingTarget) || !Representable(reserveTarget)
       || priority == OtherPriority then (s, Raised)
    else
      var h := s.holds[key];
      var (w, r, burn) := Refill(h.value, s.Balance(Working), s.Balance(Reserve),
                                 floor, workingTarget, reserveTarget, priority);
      (s.(holds := Drop(s.holds, key),
          free := Put(Put(s.free, Working, s.Balance(Working) + w), Reserve, s.Balance(Reserve) + r),
          c := s.c.(S := s.c.S - burn, burned := s.c.burned + burn),
          closed := Add(s.closed, key),
          refills := Put(s.refills, key, Charge(h.owner, w, r, burn))),
       Parts(w, r, burn))
  }

  /** Both holds are made with `hold`, whose own checks repeat the ones made here. */
  function AfterApprove(s: State, key: Key, original: Key): (State, Reply)
  {
    if s.Used(key) || original !in s.refills then (s, Raised)
    else
      var c := s.refills[original];
      if s.Balance(Working) < c.working || s.Balance(Reserve) < c.reserve then (s, Bool(false))
      else if s.Exposure() + c.burn > MAX_INTEGER then (s, Bool(false))
      else if s.Used(Leg(key, false)) || s.Used(Leg(key, true)) || !Representable(c.working) then (s, Raised)
      else if !Representable(c.reserve) then
        (AfterHold(s, Leg(key, false), Working, c.working, ForReversal).0, Raised)
      else
        (s.(free := Credit(Credit(s.free, Working, -c.working), Reserve, -c.reserve),
            holds := Put(Put(s.holds, Leg(key, false), Held(Working, c.working, ForReversal)),
                         Leg(key, true), Held(Reserve, c.reserve, ForReversal)),
            refills := Drop(s.refills, original),
            reversals := Put(s.reversals, key, c),
            c := s.c.(J := s.c.J + c.burn)),
         Bool(true))
  }

  /** A missing leg raises after the reversal (and possibly the first leg) was already removed. */
  function AfterPost(s: State, key: Key): (State, Reply)
  {
    if key !in s.reversals then (s, Raised)
    else
      var c := s.reversals[key];
      var (w, r) := (Leg(key, false), Leg(key, true));
      if w !in s.holds then (s.(reversals := Drop(s.reversals, key)), Raised)
      else if r !in s.holds then
        (s.(reversals := Drop(s.reversals, key), holds := Drop(s.holds, w), closed := Add(s.closed, w)), Raised)
      else
        (s.(reversals := Drop(s.reversals, key),
            holds := Drop(Drop(s.holds, w), r),
            closed := Add(Add(Add(s.closed, w), r), key),
            free := Credit(s.free, c.owner, c.Total()),
            c := s.c.(J := s.c.J - c.burn, S := s.c.S + c.burn, reinstated := s.c.reinstated + c.burn)),
         Unit)
  }

  ghost function Apply(s: State, op: Op): (State, Reply)
  {
    match op
    case DoPromise(key, recipient, value, ceiling, kind) => AfterPromise(s, key, recipient, value, ceiling, kind)
    case DoReleasePromise(key) => AfterReleasePromise(s, key)
    case DoIssue(key) => AfterIssue(s, key)
    case DoHold(key, owner, value, purpose) => AfterHold(s, key, owner, value, purpose)
    case DoRelease(key) => AfterRelease(s, key)
    case DoPayReady(key, recipient) => AfterPayReady(s, key, recipient)
    case DoFinalize(key, floor, wt, rt, priority) => AfterFinalize(s, key, floor, wt, rt, priority)
    case DoApprove(key, original) => AfterApprove(s, key, original)
    case DoPost(key) => AfterPost(s, key)
  }

  // ---------------------------------------------------------------------------------------------
  // The audit and the stronger invariant that keeps it

  /** The assertions of `Ledger.audit`, one conjunct each (types aside). */
  ghost predicate Audit(s: State)
  {
    && (forall a :: a in s.free ==> Representable(s.free[a]))
    && (forall k :: k in s.holds ==> 0 <= s.holds[k].value)
    && s.c.S == Sum(s.free, Itself) + Sum(s.holds, HoldValue)
    && s.c.L == Sum(s.promises, PromiseValue)
    && s.c.J == Sum(s.reversals, ChargeBurn)
    && s.c.S == s.c.issued - s.c.burned + s.c.reinstated
    && 0 <= s.Exposure() <= MAX_INTEGER
    && s.c.treasuryIssued <= s.c.contributorIssued / TREASURY_DIVISOR
    && s.c.grantsIssued <= s.c.contributorIssued / GRANT_DIVISOR
    && Continuity !in s.free
  }

  predicate NonNegativeParts(c: Charge) { 0 <= c.working && 0 <= c.reserve && 0 <= c.burn }

  /** What holds of one identifier: it has at most one live role, and its entry is well formed. */
  ghost predicate Entry(s: State, k: Key)
  {
    && (k in s.holds ==>
          && k !in s.promises && k !in s.reversals && k !in s.closed
          && 0 <= s.holds[k].value && s.holds[k].owner != Continuity)
    && (k in s.promises ==>
          && k !in s.reversals && k !in s.closed
          && 0 <= s.promises[k].value && s.promises[k].kind != OtherKind
          && s.promises[k].recipient != Continuity)
    && (k in s.reversals ==>
          && k !in s.closed
          && NonNegativeParts(s.reversals[k]) && s.reversals[k].owner != Continuity
          // Every approved reversal still owns its two reserved legs.
          && Leg(k, false) in s.holds
          && s.holds[Leg(k, false)] == Held(Working, s.reversals[k].working, ForReversal)
          && Leg(k, true) in s.holds
          && s.holds[Leg(k, true)] == Held(Reserve, s.reversals[k].reserve, ForReversal))
    && (k in s.refills ==>
          && k in s.closed
          && NonNegativeParts(s.refills[k]) && s.refills[k].owner != Continuity)
  }

  ghost predicate Entries(s: State) { forall k :: Entry(s, k) }

  /** Balances are nonnegative and none belongs to COOP_CONTINUITY. */
  ghost predicate Balances(s: State)
  {
    && Continuity !in s.free
    && (forall a :: a in s.free ==> 0 <= s.free[a])
  }

  ghost predicate Totals(s: State)
  {
    && s.c.S == Sum(s.free, Itself) + Sum(s.holds, HoldValue)
    && s.c.L == Sum(s.promises, PromiseValue)
    && s.c.J == Sum(s.reversals, ChargeBurn)
    && s.c.S == s.c.issued - s.c.burned + s.c.reinstated
    && s.Exposure() <= MAX_INTEGER
    // Every burned unit is reinstated, about to be, or still reversible.
    && s.c.burned == s.c.reinstated + s.c.J + Sum(s.refills, ChargeBurn)
  }

  /** Promises count against the issuance caps before they are issued. */
  ghost predicate Caps(s: State)
  {
    && s.c.issued == s.c.contributorIssued + s.c.treasuryIssued + s.c.grantsIssued
    && 0 <= s.c.treasuryIssued && 0 <= s.c.grantsIssued && 0 <= s.c.contributorIssued
    && s.c.treasuryIssued + Pending(s, TreasuryKind) <= s.c.contributorIssued / TREASURY_DIVISOR
    && s.c.grantsIssued + Pending(s, GrantKind) <= s.c.contributorIssued / GRANT_DIVISOR
  }

  ghost predicate Inv(s: State) { Entries(s) && Balances(s) && Totals(s) && Caps(s) }

  /** The legs of the reversals that are approved but not yet posted. */
  ghost predicate LiveLeg(s: State, key: Key) { key.Leg? && key.of in s.reversals }

  /**
   What the callers must respect: `release` never frees a leg of a pending reversal, and nothing is
   promised or paid to COOP_CONTINUITY.
   */
  ghost predicate Lawful(s: State, op: Op)
  {
    match op
    case DoRelease(key) => !LiveLeg(s, key)
    case DoPromise(_, recipient, _, _, _) => recipient != Continuity
    case DoPayReady(_, recipient) => recipient != Continuity
    case _ => true
  }

  lemma InvImpliesAudit(s: State)
    requires Inv(s)
    ensures Audit(s)
  {
    hide Sum;
    forall k
      ensures k in s.holds ==> 0 <= s.holds[k].value
      ensures k in s.promises ==> 0 <= s.promises[k].value
      ensures k in s.reversals ==> 0 <= s.reversals[k].burn
    {
      assert Entry(s, k);
    }
    NonNegative(s.free, Itself);
    NonNegative(s.holds, HoldValue);
    NonNegative(s.promises, PromiseValue);
    NonNegative(s.promises, TreasuryValue);
    NonNegative(s.promises, GrantValue);
    NonNegative(s.reversals, ChargeBurn);
    forall a | a in s.free ensures s.free[a] <= MAX_INTEGER {
      Part(s.free, Itself, a);
    }
  }

  // ---------------------------------------------------------------------------------------------
  // Every lawful call keeps the invariant

  lemma PromiseKeepsEntries(s: State, key: Key, recipient: Account, value: int, ceiling: int, kind: Kind)
    requires Inv(s)
    requires recipient != Continuity
    ensures Entries(AfterPromise(s, key, recipient, value, ceiling, kind).0)
  {
    hide Totals, Caps, Balances, Sum, Credit, Refill;
    forall k ensures Entry(AfterPromise(s, key, recipient, value, ceiling, kind).0, k) {
      assert Entry(s, k) && Entry(s, key);
    }
  }

  lemma PromiseKeepsTotals(s: State, key: Key, recipient: Account, value: int, ceiling: int, kind: Kind)
    requires Inv(s)
    requires recipient != Continuity
    ensures Balances(AfterPromise(s, key, recipient, value, ceiling, kind).0) && Totals(AfterPromise(s, key, recipient, value, ceiling, kind).0)
  {
    hide Sum, Caps;
    var p := Promised(recipient, value, kind);
    With(s.promises, PromiseValue, key, p);
  }

  lemma ReleasePromiseKeepsEntries(s: State, key: Key)
    requires Inv(s)
    ensures Entries(AfterReleasePromise(s, key).0)
  {
    hide Totals, Caps, Balances, Sum, Credit, Refill;
    forall k ensures Entry(AfterReleasePromise(s, key).0, k) {
      assert Entry(s, k) && Entry(s, key);
    }
  }

  lemma ReleasePromiseKeepsTotals(s: State, key: Key)
    requires Inv(s)
    ensures Balances(AfterReleasePromise(s, key).0) && Totals(AfterReleasePromise(s, key).0)
  {
    hide Sum, Caps;
    assert Entry(s, key);
    Without(s.promises, PromiseValue, key);
  }

  lemma IssueKeepsEntries(s: State, key: Key)
    requires Inv(s)
    ensures Entries(AfterIssue(s, key).0)
  {
    hide Totals, Caps, Balances, Sum, Credit, Refill;
    forall k ensures Entry(AfterIssue(s, key).0, k) {
      assert Entry(s, k) && Entry(s, key);
    }
  }

  lemma IssueKeepsTotals(s: State, key: Key)
    requires Inv(s)
    ensures Balances(AfterIssue(s, key).0) && Totals(AfterIssue(s, key).0)
  {
    hide Sum, Caps;
    assert Entry(s, key);
    Without(s.promises, PromiseValue, key);
    if key in s.promises {
      var p := s.promises[key];
      With(s.free, Itself, p.recipient, s.Balance(p.recipient) + p.value);
    }
  }

  lemma HoldKeepsEntries(s: State, key: Key, owner: Account, value: int, purpose: Purpose)
    requires Inv(s)
    ensures Entries(AfterHold(s, key, owner, value, purpose).0)
  {
    hide Totals, Caps, Balances, Sum, Credit, Refill;
    forall k ensures Entry(AfterHold(s, key, owner, value, purpose).0, k) {
      assert Entry(s, k) && Entry(s, key);
    }
  }

  lemma HoldKeepsTotals(s: State, key: Key, owner: Account, value: int, purpose: Purpose)
    requires Inv(s)
    ensures Balances(AfterHold(s, key, owner, value, purpose).0) && Totals(AfterHold(s, key, owner, value, purpose).0)
  {
    hide Sum, Caps;
    With(s.free, Itself, owner, s.Balance(owner) - value);
    With(s.holds, HoldValue, key, Held(owner, value, purpose));
  }

  lemma ReleaseKeepsEntries(s: State, key: Key)
    requires Inv(s)
    requires !LiveLeg(s, key)
    ensures Entries(AfterRelease(s, key).0)
  {
    hide Totals, Caps, Balances, Sum, Credit, Refill;
    forall k ensures Entry(AfterRelease(s, key).0, k) {
      assert Entry(s, k) && Entry(s, key);
    }
  }

  lemma ReleaseKeepsTotals(s: State, key: Key)
    requires Inv(s)
    requires !LiveLeg(s, key)
    ensures Balances(AfterRelease(s, key).0) && Totals(AfterRelease(s, key).0)
  {
    hide Sum, Caps;
    assert Entry(s, key);
    Without(s.holds, HoldValue, key);
    if key in s.holds {
      var h := s.holds[key];
      With(s.free, Itself, h.owner, s.Balance(h.owner) + h.value);
    }
  }

  lemma PayReadyKeepsEntries(s: State, key: Key, recipient: Account)
    requires Inv(s)
    requires recipient != Continuity
    ensures Entries(AfterPayReady(s, key, recipient).0)
  {
    hide Totals, Caps, Balances, Sum, Credit, Refill;
    forall k ensures Entry(AfterPayReady(s, key, recipient).0, k) {
      assert Entry(s, k) && Entry(s, key);
    }
  }

  lemma PayReadyKeepsTotals(s: State, key: Key, recipient: Account)
    requires Inv(s)
    requires recipient != Continuity
    ensures Balances(AfterPayReady(s, key, recipient).0) && Totals(AfterPayReady(s, key, recipient).0)
  {
    hide Sum, Caps;
    assert Entry(s, key);
    Without(s.holds, HoldValue, key);
    if key in s.holds {
      With(s.free, Itself, recipient, s.Balance(recipient) + s.holds[key].value);
    }
  }

  lemma FinalizeKeepsEntries(s: State, key: Key, floor: int, wt: int, rt: int, priority: Priority)
    requires Inv(s)
    ensures Entries(AfterFinalize(s, key, floor, wt, rt, priority).0)
  {
    hide Totals, Caps, Balances, Entry, AfterFinalize;
    forall k ensures Entry(AfterFinalize(s, key, floor, wt, rt, priority).0, k) {
      FinalizeKeepsEntry(s, key, floor, wt, rt, priority, k);
    }
  }

  lemma FinalizeKeepsEntry(s: State, key: Key, floor: int, wt: int, rt: int, priority: Priority, k: Key)
    requires Entry(s, k) && Entry(s, key)
    ensures Entry(AfterFinalize(s, key, floor, wt, rt, priority).0, k)
  {
    hide Credit;
  }

  lemma FinalizeKeepsTotals(s: State, key: Key, floor: int, wt: int, rt: int, priority: Priority)
    requires Inv(s)
    ensures Balances(AfterFinalize(s, key, floor, wt, rt, priority).0) && Totals(AfterFinalize(s, key, floor, wt, rt, priority).0)
  {
    hide Sum, Caps;
    assert Entry(s, key);
    var (t, reply) := AfterFinalize(s, key, floor, wt, rt, priority);
    if reply.Parts? {
      Without(s.holds, HoldValue, key);
      var paid := s.free[Working := s.Balance(Working) + reply.w];
      With(s.free, Itself, Working, paid[Working]);
      With(paid, Itself, Reserve, t.free[Reserve]);
      With(s.refills, ChargeBurn, key, t.refills[key]);
    }
  }

  lemma ReversibleIsRepresentable(s: State, original: Key)
    requires Inv(s) && original in s.refills
    requires s.refills[original].working <= s.Balance(Working) && s.refills[original].reserve <= s.Balance(Reserve)
    ensures Representable(s.refills[original].working) && Representable(s.refills[original].reserve)
  {
    assert Entry(s, original);
    InvImpliesAudit(s);
  }

  lemma ApproveNeverRaisesLate(s: State, key: Key, original: Key)
    requires Inv(s)
    ensures AfterApprove(s, key, original).1.Raised? ==> AfterApprove(s, key, original).0 == s
  {
    hide Sum, Totals, Caps;
    if original in s.refills && s.refills[original].working <= s.Balance(Working)
       && s.refills[original].reserve <= s.Balance(Reserve) {
      ReversibleIsRepresentable(s, original);
    }
  }

  lemma ApproveKeepsEntries(s: State, key: Key, original: Key)
    requires Inv(s)
    ensures Entries(AfterApprove(s, key, original).0)
  {
    hide Totals, Caps, Balances;
    ApproveNeverRaisesLate(s, key, original);
    var (t, reply) := AfterApprove(s, key, original);
    if reply == Bool(true) {
      forall k ensures Entry(t, k) {
        assert Entry(s, k) && Entry(s, original);
        }
    }
  }

  lemma ApproveKeepsTotals(s: State, key: Key, original: Key)
    requires Inv(s)
    ensures Balances(AfterApprove(s, key, original).0)
    ensures Totals(AfterApprove(s, key, original).0)
  {
    hide Sum, Caps;
    ApproveNeverRaisesLate(s, key, original);
    if AfterApprove(s, key, original).1 == Bool(true) {
      var c := s.refills[original];
      var (w, r) := (Held(Working, c.working, ForReversal), Held(Reserve, c.reserve, ForReversal));
      var paid := s.free[Working := s.Balance(Working) - c.working];
      With(s.free, Itself, Working, paid[Working]);
      With(paid, Itself, Reserve, s.Balance(Reserve) - c.reserve);
      With(s.holds, HoldValue, Leg(key, false), w);
      With(s.holds[Leg(key, false) := w], HoldValue, Leg(key, true), r);
      Without(s.refills, ChargeBurn, original);
      With(s.reversals, ChargeBurn, key, c);
    }
  }

  lemma PostKeepsEntries(s: State, key: Key)
    requires Inv(s)
    ensures Entries(AfterPost(s, key).0)
  {
    hide Totals, Caps, Balances, Entry, AfterPost;
    forall k ensures Entry(AfterPost(s, key).0, k) {
      PostKeepsEntry(s, key, k);
    }
  }

  lemma PostKeepsEntry(s: State, key: Key, k: Key)
    requires Entry(s, k) && Entry(s, key)
    ensures Entry(AfterPost(s, key).0, k)
  {
    hide Credit;
  }

  lemma PostKeepsTotals(s: State, key: Key)
    requires Inv(s)
    ensures Balances(AfterPost(s, key).0) && Totals(AfterPost(s, key).0)
  {
    hide Sum, Caps;
    if key in s.reversals {
      var c := s.reversals[key];
      var (w, r) := (Leg(key, false), Leg(key, true));
      assert Entry(s, key);
      Without(s.reversals, ChargeBurn, key);
      Without(s.holds, HoldValue, w);
      Without(s.holds - {w}, HoldValue, r);
      assert s.holds - {w} - {r} == s.holds - {w, r};
      With(s.free, Itself, c.owner, s.Balance(c.owner) + c.Total());
    }
  }

  lemma PromiseKeepsCaps(s: State, key: Key, recipient: Account, value: int, ceiling: int, kind: Kind)
    requires Caps(s) && Entries(s)
    ensures Caps(AfterPromise(s, key, recipient, value, ceiling, kind).0)
  {
    hide Sum;
    assert Entry(s, key);
    var p := Promised(recipient, value, kind);
    With(s.promises, TreasuryValue, key, p);
    With(s.promises, GrantValue, key, p);
  }

  lemma ReleasePromiseKeepsCaps(s: State, key: Key)
    requires Caps(s) && Entries(s)
    ensures Caps(AfterReleasePromise(s, key).0)
  {
    hide Sum;
    assert Entry(s, key);
    Without(s.promises, TreasuryValue, key);
    Without(s.promises, GrantValue, key);
  }

  lemma IssueKeepsCaps(s: State, key: Key)
    requires Caps(s) && Entries(s)
    ensures Caps(AfterIssue(s, key).0)
  {
    hide Sum;
    assert Entry(s, key);
    var t := AfterIssue(s, key).0;
    Without(s.promises, TreasuryValue, key);
    Without(s.promises, GrantValue, key);
    QuotientGrows(s.c.contributorIssued, t.c.contributorIssued, TREASURY_DIVISOR);
    QuotientGrows(s.c.contributorIssued, t.c.contributorIssued, GRANT_DIVISOR);
  }

  lemma ApplyKeepsCaps(s: State, op: Op)
    requires Inv(s)
    ensures Caps(Apply(s, op).0)
  {
    hide Entries, Totals, Balances, Sum;
    if op.DoPromise? {
      PromiseKeepsCaps(s, op.key, op.recipient, op.value, op.ceiling, op.kind);
    } else if op.DoReleasePromise? {
      ReleasePromiseKeepsCaps(s, op.key);
    } else if op.DoIssue? {
      IssueKeepsCaps(s, op.key);
    }
  }

  lemma ApplyKeeps(s: State, op: Op)
    requires Inv(s) && Lawful(s, op)
    ensures Inv(Apply(s, op).0)
  {
    hide Entries, Totals, Balances, Caps, Sum;
    ApplyKeepsCaps(s, op);
    match op
    case DoPromise(key, recipient, value, ceiling, kind) =>
      PromiseKeepsEntries(s, key, recipient, value, ceiling, kind);
      PromiseKeepsTotals(s, key, recipient, value, ceiling, kind);
    case DoReleasePromise(key) =>
      ReleasePromiseKeepsEntries(s, key);
      ReleasePromiseKeepsTotals(s, key);
    case DoIssue(key) =>
      IssueKeepsEntries(s, key);
      IssueKeepsTotals(s, key);
    case DoHold(key, owner, value, purpose) =>
      HoldKeepsEntries(s, key, owner, value, purpose);
      HoldKeepsTotals(s, key, owner, value, purpose);
    case DoRelease(key) =>
      ReleaseKeepsEntries(s, key);
      ReleaseKeepsTotals(s, key);
    case DoPayReady(key, recipient) =>
      PayReadyKeepsEntries(s, key, recipient);
      PayReadyKeepsTotals(s, key, recipient);
    case DoFinalize(key, floor, wt, rt, priority) =>
      FinalizeKeepsEntries(s, key, floor, wt, rt, priority);
      FinalizeKeepsTotals(s, key, floor, wt, rt, priority);
    case DoApprove(key, original) =>
      ApproveKeepsEntries(s, key, original);
      ApproveKeepsTotals(s, key, original);
    case DoPost(key) =>
      PostKeepsEntries(s, key);
      PostKeepsTotals(s, key);
  }

  lemma EmptyTotals()
    ensures Totals(Empty)
  {
    hide Sum;
    var none: map<Account, int> := map[];
    Nothing<Account, int>(Itself);
    Nothing<Key, Held>(HoldValue);
    Nothing<Key, Promised>(PromiseValue);
    Nothing<Key, Charge>(ChargeBurn);
    With(none, Itself, Working, 0);
    With(none[Working := 0], Itself, Reserve, 0);
    assert Empty.free == none[Working := 0][Reserve := 0];
  }

  lemma EmptyCaps()
    ensures Caps(Empty)
  {
    Nothing<Key, Promised>(TreasuryValue);
    Nothing<Key, Promised>(GrantValue);
  }

  lemma EmptyKeeps()
    ensures Inv(Empty)
  {
    hide Totals, Caps;
    EmptyTotals();
    EmptyCaps();
  }

  /** The rule on callers is exact: a call keeps the invariant if and only if it is lawful or changes nothing. */
  lemma LawIsExact(s: State, op: Op)
    requires Inv(s)
    ensures Inv(Apply(s, op).0) <==> Lawful(s, op) || Apply(s, op).0 == s
  {
    hide Totals, Caps, Sum;
    var t := Apply(s, op).0;
    if Lawful(s, op) {
      ApplyKeeps(s, op);
    } else if t != s {
      match op
      case DoRelease(key) => assert !Entry(t, key.of);
      case DoPromise(key, _, _, _, _) => assert !Entry(t, key);
      case DoPayReady(_, _) => assert Continuity in t.free;
    }
  }

  /** Releasing any hold leaves balances that the audit accepts. */
  lemma ReleasedBalances(s: State, key: Key)
    requires Inv(s) && key in s.holds
    ensures var t := AfterRelease(s, key).0;
            && (forall a :: a in t.free ==> Representable(t.free[a])) && Continuity !in t.free
            && Sum(t.free, Itself) == Sum(s.free, Itself) + s.holds[key].value
            && Sum(t.holds, HoldValue) == Sum(s.holds, HoldValue) - s.holds[key].value
  {
    hide Sum, Caps;
    var t, h := AfterRelease(s, key).0, s.holds[key];
    assert Entry(s, key);
    forall k ensures k in s.holds ==> 0 <= s.holds[k].value { assert Entry(s, k); }
    forall k ensures k in s.promises ==> 0 <= s.promises[k].value { assert Entry(s, k); }
    forall k ensures k in s.reversals ==> 0 <= s.reversals[k].burn { assert Entry(s, k); }
    With(s.free, Itself, h.owner, s.Balance(h.owner) + h.value);
    Without(s.holds, HoldValue, key);
    Part(s.holds, HoldValue, key);
    NonNegative(s.promises, PromiseValue);
    NonNegative(s.reversals, ChargeBurn);
    forall a | a in t.free ensures Representable(t.free[a]) { Part(t.free, Itself, a); }
  }

  /**
   After a pending reversal lost a leg, posting it raises half way, and the audit fails from then on exactly when
   the charge had a burned part, or when the second leg is the missing one and the first was not empty.
   */
  lemma ReleasedLegFailsAudit(s: State, key: Key, reserve: bool)
    requires Inv(s) && key in s.reversals
    ensures Leg(key, reserve) in s.holds
    ensures var t := AfterRelease(s, Leg(key, reserve)).0; var c := s.reversals[key];
            && AfterPost(t, key).1 == Raised
            && (Audit(AfterPost(t, key).0) <==> c.burn == 0 && (reserve ==> c.working == 0))
  {
    hide Caps, Sum, Credit;
    assert Entry(s, key);
    InvImpliesAudit(s);
    ReleasedBalances(s, Leg(key, reserve));
    var t := AfterRelease(s, Leg(key, reserve)).0;
    Without(s.reversals, ChargeBurn, key);
    Without(t.holds, HoldValue, Leg(key, false));
  }

  const Alice := Named("alice")

  /** Alice earned ten, spent it in a charge that was burned whole, and the charge is approved for reversal. */
  const PendingUndo := State(
    map[Working := 0, Reserve := 0, Alice := 0],
    map[Leg(OtherKey("undo"), false) := Held(Working, 0, ForReversal),
        Leg(OtherKey("undo"), true) := Held(Reserve, 0, ForReversal)],
    map[], map[OtherKey("undo") := Charge(Alice, 0, 0, 10)], {OtherKey("earned"), OtherKey("charge")},
    map[], Counters(0, 0, 10, 10, 10, 0, 10, 0, 0))

  lemma PendingUndoTotals()
    ensures Totals(PendingUndo)
  {
    hide Sum;
    var accounts: map<Account, int>, holds: map<Key, Held>, reversals: map<Key, Charge> := map[], map[], map[];
    var (w, r) := (Leg(OtherKey("undo"), false), Leg(OtherKey("undo"), true));
    Nothing<Account, int>(Itself);
    Nothing<Key, Held>(HoldValue);
    Nothing<Key, Promised>(PromiseValue);
    Nothing<Key, Charge>(ChargeBurn);
    With(accounts, Itself, Working, 0);
    With(accounts[Working := 0], Itself, Reserve, 0);
    With(accounts[Working := 0][Reserve := 0], Itself, Alice, 0);
    With(holds, HoldValue, w, Held(Working, 0, ForReversal));
    With(holds[w := Held(Working, 0, ForReversal)], HoldValue, r, Held(Reserve, 0, ForReversal));
    With(reversals, ChargeBurn, OtherKey("undo"), Charge(Alice, 0, 0, 10));
    assert PendingUndo.free == accounts[Working := 0][Reserve := 0][Alice := 0];
    assert PendingUndo.holds == holds[w := Held(Working, 0, ForReversal)][r := Held(Reserve, 0, ForReversal)];
    assert PendingUndo.reversals == reversals[OtherKey("undo") := Charge(Alice, 0, 0, 10)];
  }

  lemma PendingUndoCaps()
    ensures Caps(PendingUndo)
  {
    Nothing<Key, Promised>(TreasuryValue);
    Nothing<Key, Promised>(GrantValue);
  }

  lemma PendingUndoEntries()
    ensures Entries(PendingUndo)
  {
  }

  /** A concrete state with the full invariant from which an unlawful release leads to a failed audit. */
  lemma ReleasedLegExample()
    ensures Inv(PendingUndo)
    ensures var released := AfterRelease(PendingUndo, Leg(OtherKey("undo"), false)).0;
            !Audit(AfterPost(released, OtherKey("undo")).0)
  {
    hide Sum, Totals, Caps, Entries, Audit;
    PendingUndoTotals();
    PendingUndoCaps();
    PendingUndoEntries();
    ReleasedLegFailsAudit(PendingUndo, OtherKey("undo"), false);
  }

  // ---------------------------------------------------------------------------------------------
  // Whole runs: the audit never fails, and each charge is reversed at most once, in full

  /** A finalized charge as its payer saw it. */
  datatype Paid = Paid(owner: Account, amount: int)

  /**
   The ledger together with what happened so far: which charge each pending reversal is for, what
   every finalized charge took from whom, and every credit a posted reversal made for it.
   */
  datatype History = History(
    now: State,
    origin: map<Key, Key>,
    paid: map<Key, Paid>,
    returned: map<Key, seq<Paid>>)

  const Start := History(Empty, map[], map[], map[])

  ghost function Observe(h: History, op: Op): History
  {
    var (t, reply) := Apply(h.now, op);
    if op.DoFinalize? && reply.Parts? then
      var hold := h.now.holds[op.key];
      History(t, h.origin, h.paid[op.key := Paid(hold.owner, hold.value)], h.returned[op.key := []])
    else if op.DoApprove? && reply == Bool(true) then
      h.(now := t, origin := h.origin[op.key := op.original])
    else if op.DoPost? && reply == Unit && op.key in h.origin && h.origin[op.key] in h.returned then
      var owner := h.now.reversals[op.key].owner;
      var credit := Paid(owner, t.Balance(owner) - h.now.Balance(owner));
      h.(now := t,
         origin := h.origin - {op.key},
         returned := h.returned[h.origin[op.key] := h.returned[h.origin[op.key]] + [credit]])
    else
      h.(now := t)
  }

  ghost function Run(h: History, ops: seq<Op>): History
    decreases |ops|
  {
    if ops == [] then h else Run(Observe(h, ops[0]), ops[1..])
  }

  /** Every call of the run is lawful at the moment it is made. */
  ghost predicate LawfulRun(h: History, ops: seq<Op>)
    decreases |ops|
  {
    ops == [] || (Lawful(h.now, ops[0]) && LawfulRun(Observe(h, ops[0]), ops[1..]))
  }

  /** A charge is reversible, or being reversed by exactly one pending reversal, or fully returned. */
  ghost predicate Tracked(h: History, u: Key)
  {
    && (u in h.now.refills ==> u in h.paid && u in h.returned && h.returned[u] == [] && Covers(h.now.refills[u], h.paid[u]))
    && (u in h.paid ==> u in h.returned && u in h.now.closed && (h.returned[u] == [] || h.returned[u] == [h.paid[u]]))
  }

  ghost predicate Backed(h: History, k: Key)
  {
    k in h.now.reversals ==>
      && k in h.origin
      && h.origin[k] in h.paid
      && h.origin[k] !in h.now.refills
      && h.origin[k] in h.returned
      && h.returned[h.origin[k]] == []
      && Covers(h.now.reversals[k], h.paid[h.origin[k]])
  }

  /** A charge was credited back not at all, or once, to its payer, for exactly what it took. */
  predicate Settled(h: History, u: Key)
  {
    u in h.paid ==> u in h.returned && (h.returned[u] == [] || h.returned[u] == [h.paid[u]])
  }

  predicate Covers(c: Charge, p: Paid) { p == Paid(c.owner, c.Total()) }

  ghost predicate Consistent(h: History)
  {
    && Inv(h.now)
    && (forall u :: Tracked(h, u))
    && (forall k :: Backed(h, k))
    && h.origin.Keys == h.now.reversals.Keys
    && (forall j, k :: j in h.origin && k in h.origin && h.origin[j] == h.origin[k] ==> j == k)
  }

  /** Calls other than a settled charge, an approval or a posting leave charges and reversals alone. */
  lemma QuietCall(s: State, op: Op)
    requires Inv(s)
    requires !op.DoFinalize? && !op.DoApprove? && !op.DoPost?
    ensures var t := Apply(s, op).0; t.refills == s.refills && t.reversals == s.reversals && s.closed <= t.closed
  {
    hide Inv, Sum;
  }

  lemma FinalizeEffect(s: State, op: Op)
    requires Inv(s) && op.DoFinalize?
    ensures var (t, reply) := Apply(s, op);
            if reply.Parts? then
              && op.key in s.holds && op.key !in s.closed
              && t.refills == s.refills[op.key := Charge(s.holds[op.key].owner, reply.w, reply.r, reply.burn)]
              && t.refills[op.key].Total() == s.holds[op.key].value
              && t.reversals == s.reversals && t.closed == s.closed + {op.key}
            else t == s
  {
    hide Balances, Totals, Caps, Sum;
    assert Entry(s, op.key);
  }

  lemma FinalizeObserved(h: History, op: Op)
    requires Consistent(h) && op.DoFinalize?
    ensures Consistent(Observe(h, op))
  {
    hide Inv, Apply;
    ApplyKeeps(h.now, op);
    FinalizeEffect(h.now, op);
    var h' := Observe(h, op);
    if Apply(h.now, op).1.Parts? {
      assert Tracked(h, op.key);
      forall u ensures Tracked(h', u) { assert Tracked(h, u); }
      forall k ensures Backed(h', k) { assert Backed(h, k); }
    } else {
      assert h' == h;
    }
  }

  lemma ApproveEffect(s: State, op: Op)
    requires Inv(s) && op.DoApprove?
    ensures var (t, reply) := Apply(s, op);
            if reply == Bool(true) then
              && op.original in s.refills && op.key !in s.reversals
              && t.refills == s.refills - {op.original}
              && t.reversals == s.reversals[op.key := s.refills[op.original]]
              && t.closed == s.closed
            else t == s
  {
    hide Inv, Sum;
    ApproveNeverRaisesLate(s, op.key, op.original);
  }

  lemma ApproveObserved(h: History, op: Op)
    requires Consistent(h) && op.DoApprove?
    ensures Consistent(Observe(h, op))
  {
    hide Inv, Apply;
    ApplyKeeps(h.now, op);
    ApproveEffect(h.now, op);
    assert Tracked(h, op.original);
    var h' := Observe(h, op);
    forall u ensures Tracked(h', u) { assert Tracked(h, u); }
    forall k ensures Backed(h', k) { assert Backed(h, k); }
    forall k | k in h.origin && op.original in h.now.refills ensures h.origin[k] != op.original { assert Backed(h, k); }
  }

  lemma PostEffect(s: State, op: Op)
    requires Inv(s) && op.DoPost?
    ensures var (t, reply) := Apply(s, op);
            if op.key in s.reversals then
              var c := s.reversals[op.key];
              && reply == Unit
              && t.refills == s.refills && t.reversals == s.reversals - {op.key} && s.closed <= t.closed
              && t.Balance(c.owner) == s.Balance(c.owner) + c.Total()
            else t == s && reply == Raised
  {
    hide Balances, Totals, Caps, Sum;
    assert Entry(s, op.key);
  }

  lemma PostObserved(h: History, op: Op)
    requires Consistent(h) && op.DoPost?
    ensures Consistent(Observe(h, op))
  {
    hide Inv, Apply;
    ApplyKeeps(h.now, op);
    PostEffect(h.now, op);
    assert Backed(h, op.key);
    var h' := Observe(h, op);
    forall u ensures Tracked(h', u) { assert Tracked(h, u); }
    forall k ensures Backed(h', k) { assert Backed(h, k); }
  }

  lemma ObserveKeeps(h: History, op: Op)
    requires Consistent(h) && Lawful(h.now, op)
    ensures Consistent(Observe(h, op))
  {
    hide Inv, Apply;
    if op.DoFinalize? {
      FinalizeObserved(h, op);
    } else if op.DoApprove? {
      ApproveObserved(h, op);
    } else if op.DoPost? {
      PostObserved(h, op);
    } else {
      ApplyKeeps(h.now, op);
      QuietCall(h.now, op);
      var h' := Observe(h, op);
      forall u ensures Tracked(h', u) { assert Tracked(h, u); }
      forall k ensures Backed(h', k) { assert Backed(h, k); }
    }
  }

  lemma {:induction false} RunKeeps(h: History, ops: seq<Op>)
    requires Consistent(h) && LawfulRun(h, ops)
    ensures Consistent(Run(h, ops))
    decreases |ops|
  {
    if ops != [] {
      ObserveKeeps(h, ops[0]);
      RunKeeps(Observe(h, ops[0]), ops[1..]);
    }
  }

  /**
   In every state reachable by lawful calls the audit passes, and every finalized charge has been
   credited back either not at all or once, to its payer, for exactly what it took.
   */
  lemma {:induction false} EveryRunAudits(ops: seq<Op>)
    requires LawfulRun(Start, ops)
    ensures Audit(Run(Start, ops).now)
    ensures forall u :: Settled(Run(Start, ops), u)
  {
    hide Inv, Run, LawfulRun;
    EmptyKeeps();
    RunKeeps(Start, ops);
    var h := Run(Start, ops);
    InvImpliesAudit(h.now);
    forall u ensures Settled(h, u) {
      assert Tracked(h, u);
    }
  }

  // ---------------------------------------------------------------------------------------------
  // The object itself

  class Ledger {
    var free: map<Account, int>
    var holds: map<Key, Held>
    var promises: map<Key, Promised>
    var reversals: map<Key, Charge>
    var closed: set<Key>
    var refills: map<Key, Charge>
    var c: Counters

    function View(): State
      reads this
    {
      State(free, holds, promises, reversals, closed, refills, c)
    }

    constructor ()
      ensures View() == Empty
    {
      free, holds, promises, reversals := map[Working := 0, Reserve := 0], map[], map[], map[];
      closed, refills := {}, map[];
      c := Counters(0, 0, 0, 0, 0, 0, 0, 0, 0);
    }

    method PendingOf(kind: Kind) returns (pending: int)
      ensures pending == Pending(View(), kind)
    {
      pending := 0;
      if kind == Contributor || kind == OtherKind {
        return;
      }
      ghost var weight := if kind == TreasuryKind then TreasuryValue else GrantValue;
      var left := promises;
      while left != map[]
        invariant pending + Sum(left, weight) == Sum(promises, weight)
        decreases |left|
      {
        var k :| k in left;
        Split(left, weight, k);
        if left[k].kind == kind {
          pending := pending + left[k].value;
        }
        left := left - {k};
      }
    }

    method Promise(key: Key, recipient: Account, value: int, ceiling: int, kind: Kind) returns (reply: Reply)
      modifies this
      ensures View() == AfterPromise(old(View()), key, recipient, value, ceiling, kind).0
      ensures reply == AfterPromise(old(View()), key, recipient, value, ceiling, kind).1
    {
      hide Drop, Put, Add, Credit;
      if View().Used(key) || !Representable(value) || !Representable(ceiling) || kind == OtherKind {
        return Raised;
      }
      if c.Exposure() + value > Min(ceiling, MAX_INTEGER) {
        return Bool(false);
      }
      var pending := PendingOf(kind);
      if kind == TreasuryKind && c.treasuryIssued + pending + value > c.contributorIssued / TREASURY_DIVISOR {
        return Bool(false);
      }
      if kind == GrantKind && c.grantsIssued + pending + value > c.contributorIssued / GRANT_DIVISOR {
        return Bool(false);
      }
      promises := Put(promises, key, Promised(recipient, value, kind));
      c := c.(L := c.L + value);
      reply := Bool(true);
    }

    method ReleasePromise(key: Key) returns (reply: Reply)
      modifies this
      ensures View() == AfterReleasePromise(old(View()), key).0 && reply == AfterReleasePromise(old(View()), key).1
    {
      hide Drop, Put, Add, Credit;
      if key !in promises {
        return Raised;
      }
      c := c.(L := c.L - promises[key].value);
      promises := Drop(promises, key);
      closed := Add(closed, key);
      reply := Unit;
    }

    method Issue(key: Key) returns (reply: Reply)
      modifies this
      ensures View() == AfterIssue(old(View()), key).0 && reply == AfterIssue(old(View()), key).1
    {
      hide Drop, Put, Add, Credit;
      if key !in promises {
        return Raised;
      }
      var p := promises[key];
      promises := Drop(promises, key);
      c := c.(L := c.L - p.value, S := c.S + p.value, issued := c.issued + p.value);
      free := Credit(free, p.recipient, p.value);
      if p.kind == Contributor {
        c := c.(contributorIssued := c.contributorIssued + p.value);
      } else if p.kind == TreasuryKind {
        c := c.(treasuryIssued := c.treasuryIssued + p.value);
      } else {
        c := c.(grantsIssued := c.grantsIssued + p.value);
      }
      closed := Add(closed, key);
      reply := Amount(p.value);
    }

    method Hold(key: Key, owner: Account, value: int, purpose: Purpose) returns (reply: Reply)
      modifies this
      ensures View() == AfterHold(old(View()), key, owner, value, purpose).0 && reply == AfterHold(old(View()), key, owner, value, purpose).1
    {
      hide Drop, Put, Add, Credit;
      if View().Used(key) || !Representable(value) || owner == Continuity || purpose == OtherPurpose {
        return Raised;
      }
      if value > BalanceIn(free, owner) {
        return Bool(false);
      }
      free := Credit(free, owner, -value);
      holds := Put(holds, key, Held(owner, value, purpose));
      reply := Bool(true);
    }

    method Release(key: Key) returns (reply: Reply)
      modifies this
      ensures View() == AfterRelease(old(View()), key).0 && reply == AfterRelease(old(View()), key).1
    {
      hide Drop, Put, Add, Credit;
      if key !in holds {
        return Raised;
      }
      var hold := holds[key];
      holds := Drop(holds, key);
      free := Credit(free, hold.owner, hold.value);
      closed := Add(closed, key);
      reply := Unit;
    }

    method PayReady(key: Key, recipient: Account) returns (reply: Reply)
      modifies this
      ensures View() == AfterPayReady(old(View()), key, recipient).0 && reply == AfterPayReady(old(View()), key, recipient).1
    {
      hide Drop, Put, Add, Credit;
      if key !in holds {
        return Raised;
      }
      var hold := holds[key];
      if hold.purpose != ForReady || (hold.owner != Working && hold.owner != Reserve) {
        return Raised;
      }
      holds := Drop(holds, key);
      free := Credit(free, recipient, hold.value);
      closed := Add(closed, key);
      reply := Amount(hold.value);
    }

    /** The three-way refill computation of `finalize_usage`. */
    method SplitCharge(q: int, w0: int, r0: int, floor: int, workingTarget: int, reserveTarget: int, priority: Priority)
      returns (toWorking: int, toReserve: int, burn: int)
      ensures (toWorking, toReserve, burn) == Refill(q, w0, r0, floor, workingTarget, reserveTarget, priority)
    {
      var a, p, w := 0, 0, 0;
      if priority == V6 {
        a := Min(q, Gap(floor, w0));
        p := Min(q - a, Gap(reserveTarget, r0));
        w := Min(q - a - p, Gap(workingTarget, w0 + a));
      } else if priority == ReserveFirst {
        p := Min(q, Gap(reserveTarget, r0));
        w := Min(q - p, Gap(workingTarget, w0));
      } else {
        w := Min(q, Gap(workingTarget, w0));
      }
      toWorking, toReserve, burn := a + w, p, q - a - p - w;
    }

    method FinalizeUsage(key: Key, floor: int, workingTarget: int, reserveTarget: int, priority: Priority)
      returns (reply: Reply)
      modifies this
      ensures View() == AfterFinalize(old(View()), key, floor, workingTarget, reserveTarget, priority).0
      ensures reply == AfterFinalize(old(View()), key, floor, workingTarget, reserveTarget, priority).1
    {
      hide Drop, Put, Add, Credit, Refill;
      if key !in holds || holds[key].purpose != ForUsage {
        return Raised;
      }
      if !Representable(floor) || !Representable(workingTarget) || !Representable(reserveTarget) {
        return Raised;
      }
      if priority == OtherPriority {
        return Raised;
      }
      var hold := holds[key];
      var w0, r0 := BalanceIn(free, Working), BalanceIn(free, Reserve);
      var w, r, burn := SplitCharge(hold.value, w0, r0, floor, workingTarget, reserveTarget, priority);
      holds := Drop(holds, key);
      free := Put(free, Working, w0 + w);
      free := Put(free, Reserve, r0 + r);
      c := c.(S := c.S - burn, burned := c.burned + burn);
      closed := Add(closed, key);
      refills := Put(refills, key, Charge(hold.owner, w, r, burn));
      reply := Parts(w, r, burn);
    }

    method ApproveReversal(key: Key, original: Key) returns (reply: Reply)
      modifies this
      ensures View() == AfterApprove(old(View()), key, original).0 && reply == AfterApprove(old(View()), key, original).1
    {
      hide Drop, Add;
      if View().Used(key) || original !in refills {
        return Raised;
      }
      var charge := refills[original];
      if BalanceIn(free, Working) < charge.working || BalanceIn(free, Reserve) < charge.reserve {
        return Bool(false);
      }
      if c.Exposure() + charge.burn > MAX_INTEGER {
        return Bool(false);
      }
      if View().Used(Leg(key, false)) || View().Used(Leg(key, true)) {
        return Raised;
      }
      reply := Hold(Leg(key, false), Working, charge.working, ForReversal);
      if reply.Raised? {
        return;
      }
      reply := Hold(Leg(key, true), Reserve, charge.reserve, ForReversal);
      if reply.Raised? {
        return;
      }
      refills := Drop(refills, original);
      reversals := Put(reversals, key, charge);
      c := c.(J := c.J + charge.burn);
      reply := Bool(true);
    }

    method PostReversal(key: Key) returns (reply: Reply)
      modifies this
      ensures View() == AfterPost(old(View()), key).0 && reply == AfterPost(old(View()), key).1
    {
      hide Add, Credit;
      if key !in reversals {
        return Raised;
      }
      var charge := reversals[key];
      reversals := Drop(reversals, key);
      var w, r := Leg(key, false), Leg(key, true);
      if w !in holds {
        return Raised;
      }
      holds := Drop(holds, w);
      closed := Add(closed, w);
      if r !in holds {
        return Raised;
      }
      holds := Drop(holds, r);
      closed := Add(closed, r);
      free := Credit(free, charge.owner, charge.Total());
      c := c.(J := c.J - charge.burn, S := c.S + charge.burn, reinstated := c.reinstated + charge.burn);
      closed := Add(closed, key);
      reply := Unit;
    }
  }
}
