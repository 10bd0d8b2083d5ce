/** The charge of a routed session does not depend on the order or the repetition of its receipts. */
module SessionReceipts {
  import opened Contracts
  import opened Sessions

  /** The receipts the nodes of one route send: the root's, and one for every stage. */
  datatype Receipts = Receipts(root: RootReceipt, stages: seq<StageReceipt>)

  /** A receipt of the root or of one stage, or the root's claim that starts the execution. */
  datatype Message = FromRoot | FromStage(i: nat) | RootClaims

  /** One delivery, before the deadline and with no cancellation: the same node always sends the same receipt. */
  function Deliver(s: Session, r: Receipts, m: Message, env: Env): (Session, Reply)
    requires |r.stages| == |s.members|
  {
    match m
    case FromRoot => TakeRoot(s, true, r.root, env)
    case FromStage(i) => if i < |r.stages| then TakeStage(s, i, true, r.stages[i], env) else (s, ReceiptIdentity)
    case RootClaims => Claim(s, true, env)
  }

  predicate IsStage(s: Session, i: nat) { i < |s.members| && !s.members[i].root }

  ghost predicate AllValid(s: Session, r: Receipts)
    requires |r.stages| == |s.members|
  {
    RootValid(s, r.root) && forall i: nat :: IsStage(s, i) ==> StageValid(r.stages[i])
  }

  /** What the receipts alone say the session costs. */
  ghost function Verdict(s: Session, r: Receipts): int
    requires |r.stages| == |s.members|
  {
    if AllValid(s, r) then
      match ChargeFor(s.manifest, r.root.prompt, r.root.completion)
      case None => 0
      case Some(charge) => charge
    else 0
  }

  /** Nothing has been reported yet, and every stage has claimed its part. */
  ghost predicate Unreported(s: Session)
  {
    && s.root.None? && StagesClaimed(s) && forall i :: 0 <= i < |s.members| && !s.members[i].root ==> s.members[i].receipt.None?
  }

  /** A routed session whose stages and root are running and nothing has been reported yet. */
  ghost predicate Launched(s: Session)
  {
    SessionOk(s) && s.routed && s.admitted && s.phase == Running && s.started && Unreported(s)
  }

  /** The same before the root's claim. */
  ghost predicate Prepared(s: Session)
  {
    SessionOk(s) && s.routed && s.admitted && s.phase == Authorized && !s.started && Unreported(s)
  }

  /** Everything recorded came from r and was valid, and not everything is recorded; or the session was settled by r's verdict. */
  ghost predicate Follows(s: Session, r: Receipts)
  {
    && |r.stages| == |s.members| && SessionOk(s) && s.routed && s.admitted
    && (if Terminal(s.phase) then s.charged == Verdict(s, r)
        else
          && ((s.phase == Running && s.started) || Prepared(s))
          && (s.root.Some? ==> s.root.value == r.root && RootValid(s, r.root))
          && StagesClaimed(s)
          && (forall i: nat :: IsStage(s, i) && s.members[i].receipt.Some? ==>
                s.members[i].receipt.value == r.stages[i] && StageValid(r.stages[i]))
          && (s.root.None? || !AllStagesReported(s)))
  }

  /** v has the same terms and roles as s. */
  predicate SameTerms(s: Session, v: Session)
  {
    && v.manifest == s.manifest && v.maxOutput == s.maxOutput && |v.members| == |s.members|
    && forall i :: 0 <= i < |s.members| ==> v.members[i].root == s.members[i].root
  }

  predicate Undisturbed(env: Env) { env.current && env.rootOk }

  /** Every message that a started session waits for. */
  predicate Awaited(s: Session, m: Message) { m.FromRoot? || (m.FromStage? && IsStage(s, m.i)) }

  /** Every message that concerns the session at all. */
  predicate Meant(s: Session, m: Message) { Awaited(s, m) || m.RootClaims? }

  lemma SameVerdict(s: Session, v: Session, r: Receipts)
    requires SameTerms(s, v) && |r.stages| == |s.members|
    ensures Verdict(v, r) == Verdict(s, r) && (AllValid(v, r) <==> AllValid(s, r))
  {
    hide ChargeFor, StageValid;
    forall i: nat ensures IsStage(s, i) <==> IsStage(v, i) { }
  }

  lemma InvalidCostsNothing(s: Session, r: Receipts, i: nat)
    requires |r.stages| == |s.members| && IsStage(s, i) && !StageValid(r.stages[i])
    ensures Verdict(s, r) == 0
  {
    hide ChargeFor, StageValid, RootValid;
  }

  lemma StageFollows(s: Session, r: Receipts, i: nat, env: Env)
    requires Follows(s, r) && i < |r.stages| && env.now < s.deadline
    ensures var t := TakeStage(s, i, true, r.stages[i], env).0; Follows(t, r) && SameTerms(s, t)
  {
    hide ChargeFor, StageValid, SessionOk, Verdict;
    StageKeeps(s, i, true, r.stages[i], env);
    var (t, reply) := TakeStage(s, i, true, r.stages[i], env);
    if !Terminal(s.phase) && t != s {
      var taken := WithStage(s, i, r.stages[i]);
      SameVerdict(s, t, r);
      ValidIsCompleted(r.stages[i]);
      if !StageValid(r.stages[i]) {
        assert IsStage(s, i);
        InvalidCostsNothing(s, r, i);
        assert SomeStageFailed(taken) by { assert taken.members[i].receipt.value == r.stages[i]; }
      } else {
        assert !SomeStageFailed(taken) by {
          forall k | 0 <= k < |taken.members| && !taken.members[k].root && taken.members[k].receipt.Some?
            ensures StageValid(taken.members[k].receipt.value) { assert IsStage(s, k); }
        }
        if Terminal(t.phase) { CompleteFollows(taken, r, env); SameVerdict(s, taken, r); }
      }
    }
  }

  lemma ValidIsCompleted(r: StageReceipt)
    ensures StageValid(r) ==> r.reported == ReportedCompleted
  {
  }

  /** When the last receipt arrives, all were valid and the full price is charged. */
  lemma CompleteFollows(taken: Session, r: Receipts, env: Env)
    requires |r.stages| == |taken.members| && taken.phase == Running && !SomeStageFailed(taken)
    requires taken.root.Some? ==> taken.root.value == r.root && RootValid(taken, r.root)
    requires forall i: nat :: IsStage(taken, i) && taken.members[i].receipt.Some? ==>
               taken.members[i].receipt.value == r.stages[i] && StageValid(r.stages[i])
    requires SettleRoute(taken, env).1.Settled?
    ensures SettleRoute(taken, env).0.charged == Verdict(taken, r) && AllValid(taken, r)
  {
    hide ChargeFor, StageValid;
    forall i: nat | IsStage(taken, i) ensures StageValid(r.stages[i]) { }
  }

  lemma RootFollows(s: Session, r: Receipts, env: Env)
    requires Follows(s, r) && env.now < s.deadline
    ensures var t := TakeRoot(s, true, r.root, env).0; Follows(t, r) && SameTerms(s, t)
  {
    hide ChargeFor, StageValid, SessionOk, Verdict;
    RootKeeps(s, true, r.root, env);
    var (t, reply) := TakeRoot(s, true, r.root, env);
    if !Terminal(s.phase) && t != s {
      var taken := s.(root := Some(r.root));
      SameVerdict(s, t, r);
      SameVerdict(s, taken, r);
      if RootValid(s, r.root) {
        assert !SomeStageFailed(taken) by {
          forall k | 0 <= k < |taken.members| && !taken.members[k].root && taken.members[k].receipt.Some?
            ensures StageValid(taken.members[k].receipt.value) { assert IsStage(s, k); }
        }
        if Terminal(t.phase) { CompleteFollows(taken, r, env); }
      } else {
        InvalidRootCostsNothing(s, r);
      }
    }
  }

  lemma InvalidRootCostsNothing(s: Session, r: Receipts)
    requires |r.stages| == |s.members| && !RootValid(s, r.root)
    ensures Verdict(s, r) == 0
  {
  }

  // ---------------------------------------------------------------------------------------------
  // Any order, any repetition

  datatype Delivery = Delivery(message: Message, env: Env)

  ghost predicate OnTime(s: Session, deliveries: seq<Delivery>)
  {
    forall k :: 0 <= k < |deliveries| ==> deliveries[k].env.now < s.deadline
  }

  function DeliverAll(s: Session, r: Receipts, deliveries: seq<Delivery>): Session
    requires |r.stages| == |s.members|
    decreases |deliveries|
  {
    if deliveries == [] then s
    else
      var t := Deliver(s, r, deliveries[0].message, deliveries[0].env).0;
      if |r.stages| != |t.members| then t else DeliverAll(t, r, deliveries[1..])
  }

  lemma DeliverFollows(s: Session, r: Receipts, m: Message, env: Env)
    requires Follows(s, r) && env.now < s.deadline
    ensures var t := Deliver(s, r, m, env).0; Follows(t, r) && SameTerms(s, t) && t.deadline == s.deadline
  {
    hide SessionOk, TakeRoot, TakeStage, Verdict;
    match m
    case FromRoot => RootFollows(s, r, env); RootKeeps(s, true, r.root, env);
    case FromStage(i) => if i < |r.stages| { StageFollows(s, r, i, env); StageKeeps(s, i, true, r.stages[i], env); }
    case RootClaims => ClaimFollows(s, r, env);
  }

  /** The root's claim starts a prepared session, and changes nothing afterwards. */
  lemma ClaimFollows(s: Session, r: Receipts, env: Env)
    requires Follows(s, r)
    ensures var t := Claim(s, true, env).0;
            && Follows(t, r) && SameTerms(s, t) && t.deadline == s.deadline
            && (Prepared(s) && env.now < s.deadline && Undisturbed(env) ==> Launched(t))
            && (!Prepared(s) ==> t == s)
  {
    hide ChargeFor, StageValid, RootValid, Verdict, Splittable, Shares, QuoteMaximum, WellPriced;
    SameVerdict(s, Claim(s, true, env).0, r);
  }

  lemma {:induction false} DeliverAllFollows(s: Session, r: Receipts, deliveries: seq<Delivery>)
    requires Follows(s, r) && OnTime(s, deliveries)
    ensures var t := DeliverAll(s, r, deliveries); Follows(t, r) && SameTerms(s, t)
    decreases |deliveries|
  {
    hide SessionOk, Deliver, Verdict;
    if deliveries != [] {
      DeliverFollows(s, r, deliveries[0].message, deliveries[0].env);
      DeliverAllFollows(Deliver(s, r, deliveries[0].message, deliveries[0].env).0, r, deliveries[1..]);
    }
  }

  lemma LaunchedFollows(s: Session, r: Receipts)
    requires Launched(s) && |r.stages| == |s.members|
    ensures Follows(s, r)
  {
    hide Splittable, ChargeFor, QuoteMaximum, WellPriced, Shares;
  }

  /**
   Main result: after any deliveries, in any order and with any repetitions, before the root's claim or after it, a
   settled session costs exactly what the receipts say: the full price when all are valid, nothing otherwise.
   */
  lemma {:induction false} ChargeIgnoresOrder(s: Session, r: Receipts, deliveries: seq<Delivery>)
    requires (Launched(s) || Prepared(s)) && |r.stages| == |s.members| && OnTime(s, deliveries)
    ensures var t := DeliverAll(s, r, deliveries); Terminal(t.phase) ==> t.charged == Verdict(s, r)
  {
    hide SessionOk, Verdict, DeliverAll, Unreported;
    if Launched(s) { LaunchedFollows(s, r); } else { PreparedFollows(s, r); }
    DeliverAllFollows(s, r, deliveries);
    SameVerdict(s, DeliverAll(s, r, deliveries), r);
  }

  // ---------------------------------------------------------------------------------------------
  // And it does settle

  predicate Recorded(s: Session, m: Message)
  {
    match m
    case FromRoot => s.root.Some?
    case FromStage(i) => i < |s.members| && s.members[i].receipt.Some?
    case RootClaims => s.started
  }

  /** A delivery that finds its nodes unchanged is recorded, unless the session is settled; records are never lost. */
  lemma DeliveryIsRecorded(s: Session, r: Receipts, m: Message, env: Env)
    requires Follows(s, r) && (s.started || Terminal(s.phase)) && env.now < s.deadline && Meant(s, m)
    ensures var t := Deliver(s, r, m, env).0;
            && (Undisturbed(env) ==> Terminal(t.phase) || Recorded(t, m))
            && (forall o :: Recorded(s, o) ==> Recorded(t, o))
            && (Terminal(s.phase) ==> Terminal(t.phase)) && (t.started || Terminal(t.phase))
  {
    hide SessionOk, Verdict, ChargeFor, StageValid, RootValid;
    match m
    case FromRoot => RootKeeps(s, true, r.root, env);
    case FromStage(i) => StageKeeps(s, i, true, r.stages[i], env);
    case RootClaims => ClaimFollows(s, r, env);
  }

  ghost predicate Delivered(s: Session, deliveries: seq<Delivery>, m: Message)
  {
    exists k :: 0 <= k < |deliveries| && deliveries[k].message == m && Undisturbed(deliveries[k].env)
  }

  lemma {:induction false} DeliveredIsRecorded(s: Session, r: Receipts, deliveries: seq<Delivery>, m: Message)
    requires Follows(s, r) && (s.started || Terminal(s.phase)) && OnTime(s, deliveries) && Awaited(s, m)
    requires forall k :: 0 <= k < |deliveries| ==> Meant(s, deliveries[k].message)
    requires Recorded(s, m) || Terminal(s.phase) || Delivered(s, deliveries, m)
    ensures var t := DeliverAll(s, r, deliveries); Terminal(t.phase) || Recorded(t, m)
    decreases |deliveries|
  {
    hide SessionOk, Deliver, Verdict, Undisturbed, Recorded;
    if deliveries != [] {
      var d := deliveries[0];
      DeliveryIsRecorded(s, r, d.message, d.env);
      DeliverFollows(s, r, d.message, d.env);
      var t := Deliver(s, r, d.message, d.env).0;
      if Delivered(s, deliveries, m) {
        var k :| 0 <= k < |deliveries| && deliveries[k].message == m && Undisturbed(deliveries[k].env);
        if k > 0 { assert deliveries[1..][k - 1] == deliveries[k]; }
      }
      DeliveredIsRecorded(t, r, deliveries[1..], m);
    }
  }

  /** Once every receipt was delivered at least once to unchanged nodes, a started session is settled at the receipts' price. */
  lemma {:induction false} StartedSettles(s: Session, r: Receipts, deliveries: seq<Delivery>)
    requires Follows(s, r) && (s.started || Terminal(s.phase)) && OnTime(s, deliveries)
    requires forall k :: 0 <= k < |deliveries| ==> Meant(s, deliveries[k].message)
    requires forall m :: Awaited(s, m) ==> Delivered(s, deliveries, m)
    ensures |r.stages| == |s.members|
    ensures var t := DeliverAll(s, r, deliveries); Terminal(t.phase) && t.charged == Verdict(s, r)
  {
    hide SessionOk, Verdict, DeliverAll, Delivered;
    DeliverAllFollows(s, r, deliveries);
    var t := DeliverAll(s, r, deliveries);
    forall m | Awaited(s, m) ensures Terminal(t.phase) || Recorded(t, m) {
      DeliveredIsRecorded(s, r, deliveries, m);
    }
    if !Terminal(t.phase) {
      assert Awaited(s, FromRoot) && Recorded(t, FromRoot);
      forall i | 0 <= i < |t.members| && !t.members[i].root ensures t.members[i].receipt.Some? {
        assert Awaited(s, FromStage(i)) && Recorded(t, FromStage(i));
      }
      assert false;
    }
    SameVerdict(s, t, r);
  }

  /** A running session is settled by its receipts at the same price in every order. */
  lemma {:induction false} EveryOrderSettles(s: Session, r: Receipts, deliveries: seq<Delivery>)
    requires Launched(s) && |r.stages| == |s.members| && OnTime(s, deliveries)
    requires forall k :: 0 <= k < |deliveries| ==> Meant(s, deliveries[k].message)
    requires forall m :: Awaited(s, m) ==> Delivered(s, deliveries, m)
    ensures var t := DeliverAll(s, r, deliveries); Terminal(t.phase) && t.charged == Verdict(s, r)
  {
    hide SessionOk, Verdict, DeliverAll, Delivered, Unreported;
    LaunchedFollows(s, r);
    StartedSettles(s, r, deliveries);
  }

  lemma {:induction false} DeliverJoins(s: Session, r: Receipts, a: seq<Delivery>, b: seq<Delivery>)
    requires Follows(s, r) && OnTime(s, a)
    ensures |r.stages| == |s.members| == |DeliverAll(s, r, a).members|
    ensures DeliverAll(s, r, a + b) == DeliverAll(DeliverAll(s, r, a), r, b)
    decreases |a|
  {
    hide SessionOk, Deliver, Verdict;
    if a == [] {
      assert a + b == b;
    } else {
      DeliverFollows(s, r, a[0].message, a[0].env);
      DeliverJoins(Deliver(s, r, a[0].message, a[0].env).0, r, a[1..], b);
      assert (a + b)[0] == a[0] && (a + b)[1..] == a[1..] + b;
    }
  }

  /** Receipts that arrive before the root's claim change nothing of this: what counts is delivered after it. */
  lemma {:induction false} EveryOrderSettlesOnceClaimed(s: Session, r: Receipts, early: seq<Delivery>, env: Env, late: seq<Delivery>)
    requires Prepared(s) && |r.stages| == |s.members| && OnTime(s, early) && env.now < s.deadline && Undisturbed(env)
    requires OnTime(s, late) && forall k :: 0 <= k < |late| ==> Meant(s, late[k].message)
    requires forall m :: Awaited(s, m) ==> Delivered(s, late, m)
    ensures var t := DeliverAll(s, r, early + ([Delivery(RootClaims, env)] + late));
            Terminal(t.phase) && t.charged == Verdict(s, r)
  {
    hide SessionOk, Verdict, DeliverAll, Delivered, Unreported, Deliver;
    PreparedFollows(s, r);
    DeliverAllFollows(s, r, early);
    DeliverJoins(s, r, early, [Delivery(RootClaims, env)] + late);
    var u := DeliverAll(s, r, early);
    DeliverAllKeepsDeadline(s, r, early);
    ClaimStarts(u, r, env);
    var v := Deliver(u, r, RootClaims, env).0;
    ClaimFirst(u, r, env, late);
    SameDelivered(s, v, late);
    StartedSettles(v, r, late);
    SameVerdict(s, v, r);
  }

  lemma SameDelivered(s: Session, v: Session, deliveries: seq<Delivery>)
    requires SameTerms(s, v)
    requires forall k :: 0 <= k < |deliveries| ==> Meant(s, deliveries[k].message)
    requires forall m :: Awaited(s, m) ==> Delivered(s, deliveries, m)
    ensures forall k :: 0 <= k < |deliveries| ==> Meant(v, deliveries[k].message)
    ensures forall m :: Awaited(v, m) ==> Delivered(v, deliveries, m)
  {
    forall m ensures Awaited(s, m) <==> Awaited(v, m) { }
    forall m | Awaited(v, m) ensures Delivered(v, deliveries, m) { assert Awaited(s, m) && Delivered(s, deliveries, m); }
  }

  lemma PreparedFollows(s: Session, r: Receipts)
    requires Prepared(s) && |r.stages| == |s.members|
    ensures Follows(s, r)
  {
    hide Splittable, ChargeFor, QuoteMaximum, WellPriced, Shares;
  }

  lemma {:induction false} DeliverAllKeepsDeadline(s: Session, r: Receipts, deliveries: seq<Delivery>)
    requires Follows(s, r) && OnTime(s, deliveries)
    ensures |r.stages| == |s.members| && DeliverAll(s, r, deliveries).deadline == s.deadline
    decreases |deliveries|
  {
    hide SessionOk, Deliver, Verdict;
    if deliveries != [] {
      DeliverFollows(s, r, deliveries[0].message, deliveries[0].env);
      DeliverAllKeepsDeadline(Deliver(s, r, deliveries[0].message, deliveries[0].env).0, r, deliveries[1..]);
    }
  }

  lemma ClaimStarts(s: Session, r: Receipts, env: Env)
    requires Follows(s, r) && env.now < s.deadline && Undisturbed(env)
    ensures |r.stages| == |s.members|
    ensures var t := Deliver(s, r, RootClaims, env).0;
            Follows(t, r) && SameTerms(s, t) && t.deadline == s.deadline && (t.started || Terminal(t.phase))
  {
    hide SessionOk, Verdict;
    ClaimFollows(s, r, env);
  }

  lemma {:induction false} ClaimFirst(s: Session, r: Receipts, env: Env, late: seq<Delivery>)
    requires |r.stages| == |s.members| == |Deliver(s, r, RootClaims, env).0.members|
    ensures DeliverAll(s, r, [Delivery(RootClaims, env)] + late) == DeliverAll(Deliver(s, r, RootClaims, env).0, r, late)
  {
    hide Deliver;
    var all := [Delivery(RootClaims, env)] + late;
    assert all[1..] == late;
  }

  /** Only the charge is independent: which failure is reported depends on which failing receipt comes first. */
  lemma {:induction false} StateDependsOnOrder(s: Session, r: Receipts, i: nat, env: Env)
    requires Launched(s) && |r.stages| == |s.members| && env.now < s.deadline && Undisturbed(env)
    requires IsStage(s, i) && !StageValid(r.stages[i]) && r.root.reported == ReportedInterrupted
    ensures var rootFirst := DeliverAll(s, r, [Delivery(FromRoot, env), Delivery(FromStage(i), env)]);
            var stageFirst := DeliverAll(s, r, [Delivery(FromStage(i), env), Delivery(FromRoot, env)]);
            && rootFirst.phase == Interrupted && stageFirst.phase == Failed
            && rootFirst.charged == stageFirst.charged == 0
  {
    hide ChargeFor, StageValid, Splittable, Shares, QuoteMaximum, WellPriced;
    var a, b := Delivery(FromRoot, env), Delivery(FromStage(i), env);
    var s1, s2 := Deliver(s, r, FromRoot, env).0, Deliver(s, r, FromStage(i), env).0;
    assert s1.phase == Interrupted && s1.charged == 0;
    assert SomeStageFailed(WithStage(s, i, r.stages[i])) by { assert WithStage(s, i, r.stages[i]).members[i].receipt == Some(r.stages[i]); }
    assert s2.phase == Failed && s2.charged == 0;
    TerminalAbsorbs(s1, DoStage(i, true, r.stages[i]), env);
    TerminalAbsorbs(s2, DoRoot(true, r.root), env);
    TwoDeliveries(s, r, a, b);
    TwoDeliveries(s, r, b, a);
  }

  lemma {:induction false} TwoDeliveries(s: Session, r: Receipts, a: Delivery, b: Delivery)
    requires |r.stages| == |s.members| && |Deliver(s, r, a.message, a.env).0.members| == |s.members|
    requires var t := Deliver(s, r, a.message, a.env).0; |Deliver(t, r, b.message, b.env).0.members| == |s.members|
    ensures DeliverAll(s, r, [a, b]) == Deliver(Deliver(s, r, a.message, a.env).0, r, b.message, b.env).0
  {
    hide Deliver;
    var t := Deliver(s, r, a.message, a.env).0;
    assert [a, b][1..] == [b] && [b][1..] == [];
    assert DeliverAll(t, r, [b]) == DeliverAll(Deliver(t, r, b.message, b.env).0, r, []);
  }
}
