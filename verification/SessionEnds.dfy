/** When the end of a routed session depends on the order of its receipts, and when it does not. */
module SessionEnds {
  import opened Contracts
  import opened Sessions
  import opened SessionReceipts

  ghost predicate StagesValid(s: Session, r: Receipts)
    requires |r.stages| == |s.members|
  {
    forall i: nat :: IsStage(s, i) ==> StageValid(r.stages[i])
  }

  /** What the root's receipt ends the session with when it is not valid. */
  function RootEnd(r: RootReceipt): Phase { if r.reported == ReportedCompleted then Failed else r.reported.Phase() }

  /** A failing stage ends the session as Failed; the root ends it differently only when it reports one of these. */
  predicate EndsOtherwise(r: RootReceipt) { r.reported == ReportedCancelled || r.reported == ReportedInterrupted }

  ghost predicate Independent(s: Session, r: Receipts)
    requires |r.stages| == |s.members|
  {
    StagesValid(s, r) || !EndsOtherwise(r.root)
  }

  /** The end the receipts call for, when they agree on one. */
  ghost function EndOf(s: Session, r: Receipts): Phase
    requires |r.stages| == |s.members|
  {
    if !StagesValid(s, r) then Failed else if RootValid(s, r.root) then Completed else RootEnd(r.root)
  }

  lemma SameEndOf(s: Session, v: Session, r: Receipts)
    requires |r.stages| == |s.members| && SameTerms(s, v)
    ensures EndOf(v, r) == EndOf(s, r) && (Independent(v, r) <==> Independent(s, r))
  {
    assert forall i: nat :: IsStage(v, i) <==> IsStage(s, i);
    assert StagesValid(v, r) <==> StagesValid(s, r);
  }

  lemma StageEnds(s: Session, r: Receipts, i: nat, env: Env)
    requires Follows(s, r) && !Terminal(s.phase) && env.now < s.deadline && IsStage(s, i)
    ensures var t := TakeStage(s, i, true, r.stages[i], env).0; Terminal(t.phase) ==> t.phase == EndOf(s, r)
  {
    hide SessionOk, ChargeFor, StageValid, RootValid, Verdict;
    var t := TakeStage(s, i, true, r.stages[i], env).0;
    var taken := WithStage(s, i, r.stages[i]);
    if Terminal(t.phase) {
      assert t.phase == SettleRoute(taken, env).0.phase;
      if SomeStageFailed(taken) {
        var j :| 0 <= j < |taken.members| && !taken.members[j].root && taken.members[j].receipt.Some?
                 && !StageValid(taken.members[j].receipt.value);
        assert IsStage(s, j) && taken.members[j].receipt.value == r.stages[j];
      } else {
        AllReportedValid(s, taken, r);
      }
    }
  }

  /** When everything is reported and nothing failed, every stage was valid. */
  lemma AllReportedValid(s: Session, taken: Session, r: Receipts)
    requires |r.stages| == |s.members| == |taken.members| && !SomeStageFailed(taken) && AllStagesReported(taken)
    requires forall i :: 0 <= i < |s.members| ==> taken.members[i].root == s.members[i].root
    requires forall i: nat :: IsStage(s, i) && taken.members[i].receipt.Some? ==> taken.members[i].receipt.value == r.stages[i]
    ensures StagesValid(s, r)
  {
    forall i: nat | IsStage(s, i) ensures StageValid(r.stages[i]) { assert taken.members[i].receipt.Some?; }
  }

  lemma RootEnds(s: Session, r: Receipts, env: Env)
    requires Follows(s, r) && !Terminal(s.phase) && env.now < s.deadline && Independent(s, r)
    ensures var t := TakeRoot(s, true, r.root, env).0; Terminal(t.phase) ==> t.phase == EndOf(s, r)
  {
    hide SessionOk, ChargeFor, StageValid, Verdict, RootValid;
    var t := TakeRoot(s, true, r.root, env).0;
    var taken := s.(root := Some(r.root));
    if Terminal(t.phase) && RootValid(s, r.root) {
      assert t.phase == SettleRoute(taken, env).0.phase;
      NoneFailedYet(s, r);
      if !SomeStageFailed(taken) { AllReportedValid(s, taken, r); }
    }
  }

  lemma NoneFailedYet(s: Session, r: Receipts)
    requires Follows(s, r) && !Terminal(s.phase)
    ensures !SomeStageFailed(s.(root := Some(r.root)))
  {
    hide SessionOk, StageValid, RootValid, Verdict;
    forall j | 0 <= j < |s.members| && !s.members[j].root && s.members[j].receipt.Some?
      ensures StageValid(s.members[j].receipt.value) { assert IsStage(s, j); }
  }

  lemma DeliverEnds(s: Session, r: Receipts, m: Message, env: Env)
    requires Follows(s, r) && Independent(s, r) && env.now < s.deadline && (Terminal(s.phase) ==> s.phase == EndOf(s, r))
    ensures var t := Deliver(s, r, m, env).0; Terminal(t.phase) ==> t.phase == EndOf(s, r)
  {
    hide SessionOk, TakeRoot, TakeStage, Claim, Independent, EndOf, Follows;
    FollowsLength(s, r);
    if Terminal(s.phase) {
      TerminalDelivers(s, r, m, env);
    } else {
      match m
      case FromRoot => RootEnds(s, r, env);
      case FromStage(i) =>
        if i < |r.stages| {
          if IsStage(s, i) { StageEnds(s, r, i, env); } else { NoStageNoChange(s, r, i, env); }
        }
      case RootClaims => ClaimEndsNothing(s, env);
    }
  }

  lemma ClaimEndsNothing(s: Session, env: Env)
    requires !Terminal(s.phase)
    ensures !Terminal(Claim(s, true, env).0.phase)
  {
  }

  lemma NoStageNoChange(s: Session, r: Receipts, i: nat, env: Env)
    requires !IsStage(s, i) && i < |r.stages|
    ensures TakeStage(s, i, true, r.stages[i], env).0 == s
  {
  }

  lemma TerminalDelivers(s: Session, r: Receipts, m: Message, env: Env)
    requires |r.stages| == |s.members| && Terminal(s.phase)
    ensures Deliver(s, r, m, env).0 == s
  {
    match m
    case FromRoot => TerminalAbsorbs(s, DoRoot(true, r.root), env);
    case FromStage(i) => if i < |r.stages| { TerminalAbsorbs(s, DoStage(i, true, r.stages[i]), env); }
    case RootClaims => TerminalAbsorbs(s, DoClaim(true), env);
  }

  lemma {:induction false} DeliverAllEnds(s: Session, r: Receipts, deliveries: seq<Delivery>)
    requires Follows(s, r) && Independent(s, r) && OnTime(s, deliveries) && (Terminal(s.phase) ==> s.phase == EndOf(s, r))
    ensures var t := DeliverAll(s, r, deliveries); Terminal(t.phase) ==> t.phase == EndOf(s, r)
    decreases |deliveries|
  {
    hide SessionOk, Deliver, Independent, EndOf, Follows;
    FollowsLength(s, r);
    if deliveries != [] {
      var d := deliveries[0];
      DeliverFollows(s, r, d.message, d.env);
      DeliverEnds(s, r, d.message, d.env);
      var t := Deliver(s, r, d.message, d.env).0;
      SameEndOf(s, t, r);
      FollowsLength(t, r);
      DeliverAllEnds(t, r, deliveries[1..]);
    }
  }

  lemma FollowsLength(s: Session, r: Receipts)
    requires Follows(s, r)
    ensures |r.stages| == |s.members|
  {
    hide SessionOk, Verdict;
  }

  // ---------------------------------------------------------------------------------------------
  // Exactly when

  /** Every receipt is delivered at least once, in time and to unchanged nodes, and nothing else is. */
  ghost predicate Everything(s: Session, deliveries: seq<Delivery>)
  {
    && OnTime(s, deliveries)
    && (forall k :: 0 <= k < |deliveries| ==> Meant(s, deliveries[k].message))
    && forall m :: Awaited(s, m) ==> Delivered(s, deliveries, m)
  }

  /** Receipts that agree on an end lead to it in every order. */
  lemma EndIgnoresOrder(s: Session, r: Receipts, deliveries: seq<Delivery>)
    requires Launched(s) && |r.stages| == |s.members| && Independent(s, r) && Everything(s, deliveries)
    ensures DeliverAll(s, r, deliveries).phase == EndOf(s, r)
  {
    hide SessionOk, DeliverAll, Independent, EndOf;
    LaunchedFollows(s, r);
    EveryOrderSettles(s, r, deliveries);
    DeliverAllEnds(s, r, deliveries);
  }

  /** So it is when some of them arrive before the root's claim. */
  lemma {:induction false} EndIgnoresOrderOnceClaimed(s: Session, r: Receipts, early: seq<Delivery>, env: Env, late: seq<Delivery>)
    requires Prepared(s) && |r.stages| == |s.members| && Independent(s, r)
    requires OnTime(s, early) && env.now < s.deadline && Undisturbed(env) && Everything(s, late)
    ensures DeliverAll(s, r, early + ([Delivery(RootClaims, env)] + late)).phase == EndOf(s, r)
  {
    hide SessionOk, DeliverAll, Independent, EndOf;
    PreparedFollows(s, r);
    EveryOrderSettlesOnceClaimed(s, r, early, env, late);
    DeliverAllEnds(s, r, early + ([Delivery(RootClaims, env)] + late));
  }

  /** All messages of a route, the given one first. */
  function Messages(s: Session, first: Message, n: nat): (ms: seq<Delivery>)
    ensures forall k :: 0 <= k < |ms| ==> ms[k].env == Calm(s)
    ensures |ms| >= 2 && ms[0].message == first && ms[1].message == FromRoot
    ensures forall i :: 0 <= i < n && IsStage(s, i) ==> exists k :: 0 <= k < |ms| && ms[k].message == FromStage(i)
    ensures Awaited(s, first) && n <= |s.members| ==> forall k :: 0 <= k < |ms| ==> Awaited(s, ms[k].message)
  {
    if n == 0 then [Delivery(first, Calm(s)), Delivery(FromRoot, Calm(s))]
    else if IsStage(s, n - 1) then
      var ms := Messages(s, first, n - 1);
      var all := ms + [Delivery(FromStage(n - 1), Calm(s))];
      assert all[|ms|].message == FromStage(n - 1);
      assert forall k :: 0 <= k < |ms| ==> all[k] == ms[k];
      all
    else Messages(s, first, n - 1)
  }

  function Calm(s: Session): Env { Env(s.deadline - 1, true, true) }

  lemma MessagesAreEverything(s: Session, first: Message)
    requires Awaited(s, first)
    ensures Everything(s, Messages(s, first, |s.members|))
  {
    var ms := Messages(s, first, |s.members|);
    forall m | Awaited(s, m) ensures Delivered(s, ms, m) {
      if m.FromRoot? {
        assert ms[1].message == m && Undisturbed(ms[1].env);
      } else {
        var k :| 0 <= k < |ms| && ms[k].message == FromStage(m.i);
        assert ms[k].message == m && Undisturbed(ms[k].env);
      }
    }
  }

  /** The first receipt of a failing kind decides the end. */
  lemma FirstDecides(s: Session, r: Receipts, deliveries: seq<Delivery>)
    requires Launched(s) && |r.stages| == |s.members| && deliveries != [] && deliveries[0].env == Calm(s)
    requires match deliveries[0].message
             case FromRoot => EndsOtherwise(r.root)
             case FromStage(i) => IsStage(s, i) && !StageValid(r.stages[i])
             case RootClaims => false
    ensures DeliverAll(s, r, deliveries).phase == if deliveries[0].message.FromRoot? then RootEnd(r.root) else Failed
  {
    hide SessionOk, ChargeFor, StageValid;
    var d := deliveries[0];
    var t := Deliver(s, r, d.message, d.env).0;
    HoldIsNatural(s);
    if d.message.FromStage? {
      var taken := WithStage(s, d.message.i, r.stages[d.message.i]);
      assert taken.members[d.message.i].receipt == Some(r.stages[d.message.i]);
      assert SomeStageFailed(taken);
    }
    assert Terminal(t.phase);
    AllLater(t, r, deliveries[1..]);
  }

  lemma HoldIsNatural(s: Session)
    requires SessionOk(s)
    ensures 0 <= s.hold
  {
    hide Splittable, Shares;
  }

  lemma {:induction false} AllLater(s: Session, r: Receipts, deliveries: seq<Delivery>)
    requires |r.stages| == |s.members| && Terminal(s.phase)
    ensures DeliverAll(s, r, deliveries) == s
    decreases |deliveries|
  {
    if deliveries != [] {
      TerminalDelivers(s, r, deliveries[0].message, deliveries[0].env);
      AllLater(s, r, deliveries[1..]);
    }
  }

  /** The session ends the same way whatever the order. */
  ghost predicate OneEnd(s: Session, r: Receipts)
    requires |r.stages| == |s.members|
  {
    forall a, b :: Everything(s, a) && Everything(s, b) ==> DeliverAll(s, r, a).phase == DeliverAll(s, r, b).phase
  }

  /**
   Main result: the end of a launched session whose receipts are all delivered is the same in every order if and only
   if every stage receipt is valid or the root reports neither Cancelled nor Interrupted.
   */
  lemma EndIsIndependentExactlyWhen(s: Session, r: Receipts)
    requires Launched(s) && |r.stages| == |s.members|
    ensures OneEnd(s, r) <==> StagesValid(s, r) || !EndsOtherwise(r.root)
  {
    hide SessionOk, DeliverAll, StageValid, Everything, Launched;
    if Independent(s, r) {
      forall a, b | Everything(s, a) && Everything(s, b) ensures DeliverAll(s, r, a).phase == DeliverAll(s, r, b).phase {
        EndIgnoresOrder(s, r, a);
        EndIgnoresOrder(s, r, b);
      }
    } else {
      var i: nat :| IsStage(s, i) && !StageValid(r.stages[i]);
      var rootFirst, stageFirst := Messages(s, FromRoot, |s.members|), Messages(s, FromStage(i), |s.members|);
      MessagesAreEverything(s, FromRoot);
      MessagesAreEverything(s, FromStage(i));
      FirstDecides(s, r, rootFirst);
      FirstDecides(s, r, stageFirst);
    }
  }
}
