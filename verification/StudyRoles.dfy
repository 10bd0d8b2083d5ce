/** What one identifier stands for in the study ledger, and how each call changes that. */
module StudyRoles {
  import opened StudyLedger
  import opened MapSums

  datatype Role =
    | Fresh
    | Holds(h: Held)
    | Promises(p: Promised)
    | Reverses(c: Charge)
    | Reversible(charge: Charge)
    | Done

  function RoleOf(s: State, k: Key): Role
  {
    if k in s.holds then Holds(s.holds[k])
    else if k in s.promises then Promises(s.promises[k])
    else if k in s.reversals then Reverses(s.reversals[k])
    else if k in s.refills then Reversible(s.refills[k])
    else if k in s.closed then Done
    else Fresh
  }

  /** t differs from s in the roles of the given identifiers only. */
  ghost predicate SameElsewhere(s: State, t: State, keys: set<Key>)
  {
    forall k :: k !in keys ==> RoleOf(t, k) == RoleOf(s, k)
  }

  lemma FreshIsUnused(s: State, k: Key)
    requires Inv(s)
    ensures RoleOf(s, k) == Fresh <==> !s.Used(k)
  {
    hide Balances, Totals, Caps;
    assert Entry(s, k);
  }

  lemma PromiseRole(s: State, key: Key, recipient: Account, value: int, ceiling: int, kind: Kind)
    requires Inv(s) && RoleOf(s, key) == Fresh && recipient != Continuity
    requires Representable(value) && Representable(ceiling) && kind != OtherKind
    ensures var (t, reply) := AfterPromise(s, key, recipient, value, ceiling, kind);
            && Inv(t) && reply == Bool(Promisable(s, value, ceiling, kind))
            && t.free == s.free && SameElsewhere(s, t, {key})
            && (reply == Bool(false) ==> t == s)
            && (reply == Bool(true) ==>
                  RoleOf(t, key) == Promises(Promised(recipient, value, kind))
                  && t.c.Exposure() == s.c.Exposure() + value
                  && t.c == s.c.(L := s.c.L + value))
  {
    hide Promisable, Entries, Balances, Totals, Caps;
    FreshIsUnused(s, key);
    ApplyKeeps(s, DoPromise(key, recipient, value, ceiling, kind));
  }

  lemma IssueRole(s: State, key: Key)
    requires Inv(s) && RoleOf(s, key).Promises?
    ensures var (t, reply) := AfterIssue(s, key);
            var p := RoleOf(s, key).p;
            && Inv(t) && reply == Amount(p.value)
            && SameElsewhere(s, t, {key}) && RoleOf(t, key) == Done
            && t.c.Exposure() == s.c.Exposure()
  {
    hide Balances, Totals, Caps;
    ApplyKeeps(s, DoIssue(key));
    assert Entry(s, key);
  }

  lemma HoldRole(s: State, key: Key, owner: Account, value: int, purpose: Purpose)
    requires Inv(s) && RoleOf(s, key) == Fresh && owner != Continuity && purpose != OtherPurpose
    requires 0 <= value <= s.Balance(owner)
    ensures var (t, reply) := AfterHold(s, key, owner, value, purpose);
            && Inv(t) && reply == Bool(true)
            && SameElsewhere(s, t, {key}) && RoleOf(t, key) == Holds(Held(owner, value, purpose))
            && t.Balance(owner) == s.Balance(owner) - value
            && t.c == s.c
  {
    hide Entries, Totals, Caps;
    FreshIsUnused(s, key);
    InvImpliesAudit(s);
    ApplyKeeps(s, DoHold(key, owner, value, purpose));
  }

  lemma ReleaseRole(s: State, key: Key)
    requires Inv(s) && RoleOf(s, key).Holds? && !key.Leg?
    ensures var (t, reply) := AfterRelease(s, key);
            && Inv(t) && reply == Unit
            && SameElsewhere(s, t, {key}) && RoleOf(t, key) == Done
  {
    hide Balances, Totals, Caps;
    ApplyKeeps(s, DoRelease(key));
    assert Entry(s, key);
  }

  lemma PayReadyRole(s: State, key: Key, recipient: Account)
    requires Inv(s) && RoleOf(s, key).Holds? && recipient != Continuity
    requires RoleOf(s, key).h.purpose == ForReady && RoleOf(s, key).h.owner in {Working, Reserve}
    ensures var (t, reply) := AfterPayReady(s, key, recipient);
            && Inv(t) && reply == Amount(RoleOf(s, key).h.value)
            && SameElsewhere(s, t, {key}) && RoleOf(t, key) == Done
  {
    hide Balances, Totals, Caps;
    ApplyKeeps(s, DoPayReady(key, recipient));
    assert Entry(s, key);
  }

  lemma FinalizeRole(s: State, key: Key, floor: int, wt: int, rt: int, priority: Priority)
    requires Inv(s) && RoleOf(s, key).Holds? && RoleOf(s, key).h.purpose == ForUsage && priority != OtherPriority
    requires Representable(floor) && Representable(wt) && Representable(rt)
    ensures var (t, reply) := AfterFinalize(s, key, floor, wt, rt, priority);
            && Inv(t) && reply.Parts?
            && SameElsewhere(s, t, {key})
            && RoleOf(t, key) == Reversible(Charge(RoleOf(s, key).h.owner, reply.w, reply.r, reply.burn))
  {
    hide Balances, Totals, Caps, Refill;
    ApplyKeeps(s, DoFinalize(key, floor, wt, rt, priority));
    assert Entry(s, key);
  }

  lemma ApproveRole(s: State, key: Key, original: Key)
    requires Inv(s) && RoleOf(s, original).Reversible? && key != original
    requires RoleOf(s, key) == Fresh && RoleOf(s, Leg(key, false)) == Fresh && RoleOf(s, Leg(key, true)) == Fresh
    ensures var (t, reply) := AfterApprove(s, key, original);
            && Inv(t) && reply.Bool?
            && (!reply.ok ==> t == s)
            && (reply.ok ==>
                  SameElsewhere(s, t, {key, original, Leg(key, false), Leg(key, true)})
                  && RoleOf(t, key).Reverses? && RoleOf(t, original) == Done)
  {
    hide Balances, Totals, Caps;
    ApplyKeeps(s, DoApprove(key, original));
    ApproveNeverRaisesLate(s, key, original);
    FreshIsUnused(s, key);
    FreshIsUnused(s, Leg(key, false));
    FreshIsUnused(s, Leg(key, true));
    assert Entry(s, original);
    if s.refills[original].working <= s.Balance(Working) && s.refills[original].reserve <= s.Balance(Reserve) {
      ReversibleIsRepresentable(s, original);
    }
  }

  lemma PostRole(s: State, key: Key)
    requires Inv(s) && RoleOf(s, key).Reverses?
    ensures var (t, reply) := AfterPost(s, key);
            && Inv(t) && reply == Unit
            && SameElsewhere(s, t, {key, Leg(key, false), Leg(key, true)}) && RoleOf(t, key) == Done
  {
    hide Balances, Totals, Caps;
    ApplyKeeps(s, DoPost(key));
    assert Entry(s, key);
  }
}
