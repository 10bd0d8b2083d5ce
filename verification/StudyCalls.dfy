/** What every call of the study's ledger answers and moves, in plain numbers, from any state. */
module StudyCalls {
  import opened MapSums
  import opened StudyLedger
  import Quotients
  import Refilling = Refill

  /** The identifier was used before: it is closed, or a hold, a promise or a reversal has it. */
  predicate Seen(s: State, k: Key) { k in s.closed || k in s.holds || k in s.promises || k in s.reversals }

  /** A nonnegative signed 64-bit amount. */
  predicate Amounts(value: int) { 0 <= value <= 9223372036854775807 }

  /** Only this account's free balance changed, by this much. */
  ghost predicate Moves(s: State, t: State, a: Account, value: int)
  {
    && t.free.Keys == s.free.Keys + {a}
    && forall x :: t.Balance(x) == s.Balance(x) + if x == a then value else 0
  }

  // ---------------------------------------------------------------------------------------------
  // Promises and issuance

  /** What is promised in one issuance class and not yet issued. */
  ghost function PromisedIn(s: State, kind: Kind): int
  {
    Sum(s.promises, (p: Promised) => if p.kind == kind then p.value else 0)
  }

  lemma PendingIs(s: State)
    ensures Pending(s, TreasuryKind) == PromisedIn(s, TreasuryKind) && Pending(s, GrantKind) == PromisedIn(s, GrantKind)
  {
    hide Sum;
    SameSum(s.promises, TreasuryValue, (p: Promised) => if p.kind == TreasuryKind then p.value else 0);
    SameSum(s.promises, GrantValue, (p: Promised) => if p.kind == GrantKind then p.value else 0);
  }

  /** A twentieth of all issuance to the treasury and a fiftieth to grants: a nineteenth and a forty-ninth of the contributors'. */
  ghost predicate WithinCaps(s: State, value: int, kind: Kind)
  {
    && (kind == TreasuryKind ==> 19 * (s.c.treasuryIssued + PromisedIn(s, kind) + value) <= s.c.contributorIssued)
    && (kind == GrantKind ==> 49 * (s.c.grantsIssued + PromisedIn(s, kind) + value) <= s.c.contributorIssued)
  }

  lemma Divides(a: int, d: int, x: int)
    requires 0 < d
    ensures x <= a / d <==> d * x <= a
  {
    Quotients.Bounds(a, d);
    if x <= a / d { Quotients.Product(d, x, a / d); }
    if d * x <= a && a / d < x { Quotients.Product(d, a / d + 1, x); }
  }

  /**
   A promise raises for a used identifier, an amount or ceiling outside 64 bits, or an unknown class; it is declined when
   it would exceed the ceiling or a cap; and otherwise it is recorded and counted.
   */
  lemma PromiseIs(s: State, key: Key, recipient: Account, value: int, ceiling: int, kind: Kind)
    ensures var (t, reply) := Apply(s, DoPromise(key, recipient, value, ceiling, kind));
            if Seen(s, key) || !Amounts(value) || !Amounts(ceiling) || kind == OtherKind then t == s && reply == Raised
            else if s.c.S + s.c.L + s.c.J + value > ceiling || !WithinCaps(s, value, kind) then t == s && reply == Bool(false)
            else
              && reply == Bool(true)
              && t == s.(promises := s.promises[key := Promised(recipient, value, kind)], c := s.c.(L := s.c.L + value))
  {
    hide Sum;
    PendingIs(s);
    Divides(s.c.contributorIssued, 19, s.c.treasuryIssued + PromisedIn(s, TreasuryKind) + value);
    Divides(s.c.contributorIssued, 49, s.c.grantsIssued + PromisedIn(s, GrantKind) + value);
  }

  /** Releasing a promise forgets it, and issuing it pays its recipient and counts its class; both close its identifier. */
  lemma IssueIs(s: State, key: Key)
    ensures key !in s.promises ==> Apply(s, DoIssue(key)) == (s, Raised) && Apply(s, DoReleasePromise(key)) == (s, Raised)
    ensures key in s.promises ==>
              var p := s.promises[key];
              && (var (t, reply) := Apply(s, DoReleasePromise(key));
                  && reply == Unit
                  && t == s.(promises := s.promises - {key}, closed := s.closed + {key}, c := s.c.(L := s.c.L - p.value)))
              && (var (t, reply) := Apply(s, DoIssue(key));
                  && reply == Amount(p.value) && Moves(s, t, p.recipient, p.value)
                  && t == s.(free := t.free, promises := s.promises - {key}, closed := s.closed + {key}, c := t.c)
                  && t.c == s.c.(L := s.c.L - p.value, S := s.c.S + p.value, issued := s.c.issued + p.value,
                                 contributorIssued := t.c.contributorIssued, treasuryIssued := t.c.treasuryIssued,
                                 grantsIssued := t.c.grantsIssued)
                  && t.c.contributorIssued == s.c.contributorIssued + (if p.kind == Contributor then p.value else 0)
                  && t.c.treasuryIssued == s.c.treasuryIssued + (if p.kind == TreasuryKind then p.value else 0)
                  && t.c.grantsIssued == s.c.grantsIssued + (if p.kind == GrantKind || p.kind == OtherKind then p.value else 0))
  {
  }

  // ---------------------------------------------------------------------------------------------
  // Holds

  /** A hold takes its amount from a balance that has it; the continuity fund never holds anything. */
  lemma HoldIs(s: State, key: Key, owner: Account, value: int, purpose: Purpose)
    ensures var (t, reply) := Apply(s, DoHold(key, owner, value, purpose));
            if Seen(s, key) || !Amounts(value) || owner == Continuity || purpose == OtherPurpose then t == s && reply == Raised
            else if s.Balance(owner) < value then t == s && reply == Bool(false)
            else
              && reply == Bool(true) && Moves(s, t, owner, -value)
              && t == s.(free := t.free, holds := s.holds[key := Held(owner, value, purpose)])
  {
  }

  /** Releasing a hold gives it back to its owner; a readiness hold of the fund can be paid to anybody instead. */
  lemma ReleaseIs(s: State, key: Key, recipient: Account)
    ensures key !in s.holds ==> Apply(s, DoRelease(key)) == (s, Raised) && Apply(s, DoPayReady(key, recipient)) == (s, Raised)
    ensures key in s.holds ==>
              var h := s.holds[key];
              && (var (t, reply) := Apply(s, DoRelease(key));
                  && reply == Unit && Moves(s, t, h.owner, h.value)
                  && t == s.(free := t.free, holds := s.holds - {key}, closed := s.closed + {key}))
              && (var (t, reply) := Apply(s, DoPayReady(key, recipient));
                  if h.purpose == ForReady && (h.owner == Working || h.owner == Reserve) then
                    && reply == Amount(h.value) && Moves(s, t, recipient, h.value)
                    && t == s.(free := t.free, holds := s.holds - {key}, closed := s.closed + {key})
                  else t == s && reply == Raised)
  {
  }

  // ---------------------------------------------------------------------------------------------
  // Charges

  /** The fund after a charge was dispensed unit by unit: to the floor, the reserve and the working target in turn, else burned. */
  function Dispensed(s: State, q: nat, floor: int, workingTarget: int, reserveTarget: int, priority: Priority): Refilling.Fund
  {
    Refilling.DispenseAll(Refilling.Fund(s.Balance(Working), s.Balance(Reserve), s.c.burned), q,
                          if priority == V6 then floor else s.Balance(Working), workingTarget,
                          if priority == Single then s.Balance(Reserve) else reserveTarget)
  }

  /** Settling a usage hold dispenses it unit by unit, burns the rest, and records what went where. */
  lemma FinalizeIs(s: State, key: Key, floor: int, workingTarget: int, reserveTarget: int, priority: Priority)
    requires key in s.holds ==> 0 <= s.holds[key].value
    ensures var (t, reply) := Apply(s, DoFinalize(key, floor, workingTarget, reserveTarget, priority));
            if key !in s.holds || s.holds[key].purpose != ForUsage || !Amounts(floor) || !Amounts(workingTarget) || !Amounts(reserveTarget)
               || priority == OtherPriority
            then t == s && reply == Raised
            else
              var h := s.holds[key]; var fund := Dispensed(s, h.value, floor, workingTarget, reserveTarget, priority);
              var w, r, burn := fund.working - s.Balance(Working), fund.reserve - s.Balance(Reserve), fund.burned - s.c.burned;
              && reply == Parts(w, r, burn)
              && t.free == s.free[Working := fund.working][Reserve := fund.reserve]
              && t == s.(free := t.free, holds := s.holds - {key}, closed := s.closed + {key},
                         refills := s.refills[key := Charge(h.owner, w, r, burn)],
                         c := s.c.(S := s.c.S - burn, burned := s.c.burned + burn))
  {
    hide Refill, Refilling.Recycle, Refilling.DispenseAll;
    if key in s.holds && priority != OtherPriority {
      var q := s.holds[key].value;
      var w, r := s.Balance(Working), s.Balance(Reserve);
      RefillIsRecycle(q, w, r, floor, workingTarget, reserveTarget, priority);
      Refilling.RecycleIsDispensing(Refilling.Fund(w, r, s.c.burned), q, if priority == V6 then floor else w, workingTarget,
                                    if priority == Single then r else reserveTarget);
    }
  }

  /** A reversal is approved when both parts can be held again and the burned one can be reissued; it is declined when they cannot. */
  lemma ApproveIs(s: State, key: Key, original: Key)
    requires original in s.refills ==> Amounts(s.refills[original].working) && Amounts(s.refills[original].reserve)
    ensures var (t, reply) := Apply(s, DoApprove(key, original));
            if Seen(s, key) || original !in s.refills then t == s && reply == Raised
            else
              var c := s.refills[original]; var w, r := Leg(key, false), Leg(key, true);
              if s.Balance(Working) < c.working || s.Balance(Reserve) < c.reserve
                 || s.c.S + s.c.L + s.c.J + c.burn > 9223372036854775807 then t == s && reply == Bool(false)
              else if Seen(s, w) || Seen(s, r) then t == s && reply == Raised
              else
                && reply == Bool(true)
                && t.free.Keys == s.free.Keys + {Working, Reserve}
                && (forall x :: t.Balance(x)
                      == s.Balance(x) - (if x == Working then c.working else 0) - (if x == Reserve then c.reserve else 0))
                && t == s.(free := t.free, refills := s.refills - {original}, reversals := s.reversals[key := c],
                           holds := s.holds[w := Held(Working, c.working, ForReversal)][r := Held(Reserve, c.reserve, ForReversal)],
                           c := s.c.(J := s.c.J + c.burn))
  {
  }

  /** Posting an approved reversal gives the whole charge back to its payer, and reissues what was burned of it. */
  lemma PostIs(s: State, key: Key)
    ensures key !in s.reversals ==> Apply(s, DoPost(key)) == (s, Raised)
    ensures key in s.reversals && Leg(key, false) in s.holds && Leg(key, true) in s.holds ==>
              var (t, reply) := Apply(s, DoPost(key)); var c := s.reversals[key]; var w, r := Leg(key, false), Leg(key, true);
              && reply == Unit && Moves(s, t, c.owner, c.working + c.reserve + c.burn)
              && t == s.(free := t.free, reversals := s.reversals - {key}, holds := s.holds - {w, r},
                         closed := s.closed + {w, r, key},
                         c := s.c.(J := s.c.J - c.burn, S := s.c.S + c.burn, reinstated := s.c.reinstated + c.burn))
    ensures key in s.reversals && !(Leg(key, false) in s.holds && Leg(key, true) in s.holds) ==>
              Apply(s, DoPost(key)).1 == Raised
  {
    if key in s.reversals {
      var w, r := Leg(key, false), Leg(key, true);
      assert s.holds - {w} - {r} == s.holds - {w, r};
      assert s.closed + {w} + {r} + {key} == s.closed + {w, r, key};
    }
  }
}
