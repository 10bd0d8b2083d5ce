/** What each account of the study ledger owns, free or held, and which calls move that. */
module StudyOwnership {
  import opened MapSums
  import opened StudyLedger

  function OwnedBy(a: Account): Held -> int { (h: Held) => if h.owner == a then h.value else 0 }

  /** The free balance of an account and everything held from it. */
  ghost function Wealth(s: State, a: Account): int { s.Balance(a) + Sum(s.holds, OwnedBy(a)) }

  function If(c: bool, value: int): int { if c then value else 0 }

  /** What a call is supposed to move: nothing but issuance, readiness pay, settled charges and posted refunds move anything. */
  function Moved(s: State, op: Op, reply: Reply, a: Account): int
  {
    match op
    case DoIssue(key) =>
      if key in s.promises then If(a == s.promises[key].recipient, s.promises[key].value) else 0
    case DoPayReady(key, recipient) =>
      if key in s.holds && reply.Amount? then
        If(a == recipient, s.holds[key].value) - If(a == s.holds[key].owner, s.holds[key].value)
      else 0
    case DoFinalize(key, _, _, _, _) =>
      if key in s.holds && reply.Parts? then
        If(a == Working, reply.w) + If(a == Reserve, reply.r) - If(a == s.holds[key].owner, s.holds[key].value)
      else 0
    case DoPost(key) =>
      if key in s.reversals then
        var c := s.reversals[key];
        If(a == c.owner, c.Total()) - If(a == Working, c.working) - If(a == Reserve, c.reserve)
      else 0
    case _ => 0
  }

  lemma HoldMoves(s: State, key: Key, owner: Account, value: int, purpose: Purpose, a: Account)
    ensures Wealth(AfterHold(s, key, owner, value, purpose).0, a) == Wealth(s, a)
  {
    hide Sum;
    With(s.holds, OwnedBy(a), key, Held(owner, value, purpose));
  }

  lemma ReleaseMoves(s: State, key: Key, a: Account)
    ensures Wealth(AfterRelease(s, key).0, a) == Wealth(s, a)
  {
    hide Sum;
    Without(s.holds, OwnedBy(a), key);
  }

  lemma PayReadyMoves(s: State, key: Key, recipient: Account, a: Account)
    ensures var (t, reply) := AfterPayReady(s, key, recipient);
            Wealth(t, a) == Wealth(s, a) + Moved(s, DoPayReady(key, recipient), reply, a)
  {
    hide Sum;
    Without(s.holds, OwnedBy(a), key);
  }

  lemma FinalizeMoves(s: State, key: Key, floor: int, wt: int, rt: int, priority: Priority, a: Account)
    ensures var (t, reply) := AfterFinalize(s, key, floor, wt, rt, priority);
            Wealth(t, a) == Wealth(s, a) + Moved(s, DoFinalize(key, floor, wt, rt, priority), reply, a)
  {
    hide Sum, Refill;
    Without(s.holds, OwnedBy(a), key);
  }

  lemma ApproveMoves(s: State, key: Key, original: Key, a: Account)
    requires Inv(s)
    ensures Wealth(AfterApprove(s, key, original).0, a) == Wealth(s, a)
  {
    hide Sum, Inv;
    ApproveNeverRaisesLate(s, key, original);
    if original in s.refills {
      var c := s.refills[original];
      var w, r := Held(Working, c.working, ForReversal), Held(Reserve, c.reserve, ForReversal);
      With(s.holds, OwnedBy(a), Leg(key, false), w);
      With(Put(s.holds, Leg(key, false), w), OwnedBy(a), Leg(key, true), r);
    }
  }

  lemma PostMoves(s: State, key: Key, a: Account)
    requires Inv(s)
    ensures Wealth(AfterPost(s, key).0, a) == Wealth(s, a) + Moved(s, DoPost(key), AfterPost(s, key).1, a)
  {
    hide Sum, Balances, Totals, Caps;
    assert Entry(s, key);
    Without(s.holds, OwnedBy(a), Leg(key, false));
    Without(Drop(s.holds, Leg(key, false)), OwnedBy(a), Leg(key, true));
  }

  /**
   Main result: promising, holding, releasing and approving a refund change nobody's wealth; issuance enriches exactly
   the recipient promised, readiness pay moves exactly the held amount, a charge takes its whole hold from its payer and
   gives the two funds their parts, and a posted refund takes those parts back and gives the payer the whole charge.
   */
  lemma WealthMoves(s: State, op: Op, a: Account)
    requires Inv(s)
    ensures var (t, reply) := Apply(s, op); Wealth(t, a) == Wealth(s, a) + Moved(s, op, reply, a)
  {
    hide Sum, Inv, Refill, Promisable, AfterApprove, AfterPost, AfterFinalize;
    match op
    case DoHold(key, owner, value, purpose) => HoldMoves(s, key, owner, value, purpose, a);
    case DoRelease(key) => ReleaseMoves(s, key, a);
    case DoPayReady(key, recipient) => PayReadyMoves(s, key, recipient, a);
    case DoFinalize(key, floor, wt, rt, priority) => FinalizeMoves(s, key, floor, wt, rt, priority, a);
    case DoApprove(key, original) => ApproveMoves(s, key, original, a);
    case DoPost(key) => PostMoves(s, key, a);
    case _ =>
  }

  ghost function AllMoved(s: State, ops: seq<Op>, a: Account): int
    decreases |ops|
  {
    if ops == [] then 0
    else var (t, reply) := Apply(s, ops[0]); Moved(s, ops[0], reply, a) + AllMoved(t, ops[1..], a)
  }

  ghost function AfterAll(s: State, ops: seq<Op>): State
    decreases |ops|
  {
    if ops == [] then s else AfterAll(Apply(s, ops[0]).0, ops[1..])
  }

  ghost predicate AllLawful(s: State, ops: seq<Op>)
    decreases |ops|
  {
    ops == [] || (Lawful(s, ops[0]) && AllLawful(Apply(s, ops[0]).0, ops[1..]))
  }

  /** Over any lawful run, an account's wealth is what was moved to it less what was moved from it. */
  lemma {:induction false} WealthIsItsHistory(s: State, ops: seq<Op>, a: Account)
    requires Inv(s) && AllLawful(s, ops)
    ensures Wealth(AfterAll(s, ops), a) == Wealth(s, a) + AllMoved(s, ops, a)
    decreases |ops|
  {
    hide Inv, Apply, Moved, Wealth;
    if ops != [] {
      ApplyKeeps(s, ops[0]);
      WealthMoves(s, ops[0], a);
      WealthIsItsHistory(Apply(s, ops[0]).0, ops[1..], a);
    }
  }
}
