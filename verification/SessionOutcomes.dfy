/**
 What each transaction does to a session, in the fields of its row: which phase it leaves, which answers it gives, and
 that only a receipt ever charges anything.
 */
module SessionOutcomes {
  import opened Contracts
  import opened Sessions

  // ---------------------------------------------------------------------------------------------
  // Good receipts and their price

  predicate GoodRoot(s: Session, r: RootReceipt)
  {
    && r.reported == ReportedCompleted && r.streamDone && r.finished
    && 1 <= r.prompt <= s.manifest.maxContextTokens - s.maxOutput && 1 <= r.completion <= s.maxOutput
  }

  predicate GoodStage(r: StageReceipt)
  {
    r.reported == ReportedCompleted && 1 <= r.commands && r.requestBytes != 0 && r.responseBytes != 0
  }

  /** The least whole amount that covers the reported tokens at the manifest's rates. */
  predicate PriceOf(s: Session, r: RootReceipt, charge: int)
  {
    var d := s.manifest.rateDenominator;
    (charge - 1) * d < r.prompt * s.manifest.inputRate + r.completion * s.manifest.outputRate <= charge * d
  }

  lemma GoodRootIsValid(s: Session, r: RootReceipt)
    ensures GoodRoot(s, r) <==> RootValid(s, r)
  {
  }

  lemma GoodStageIsValid(r: StageReceipt)
    ensures GoodStage(r) <==> StageValid(r)
  {
  }

  /** A good receipt has exactly one price, and the hold covers it. */
  lemma PriceIsCharged(s: Session, r: RootReceipt)
    requires SessionOk(s) && GoodRoot(s, r)
    ensures ChargeFor(s.manifest, r.prompt, r.completion).Some?
    ensures var charge := ChargeFor(s.manifest, r.prompt, r.completion).value; PriceOf(s, r, charge) && 0 <= charge <= s.hold
  {
    hide ChargeFor, Splittable, Shares, QuoteMaximum;
    ValidReceiptFitsHold(s, r);
    PriceIs(s.manifest, r.prompt, r.completion, ChargeFor(s.manifest, r.prompt, r.completion).value);
  }

  // ---------------------------------------------------------------------------------------------
  // What a session has to show for its charge

  /** Completed by a good root receipt and, on a route, good receipts of every stage, at exactly that receipt's price. */
  predicate Delivered(s: Session)
  {
    && s.phase == Completed && s.admitted && s.root.Some? && GoodRoot(s, s.root.value) && PriceOf(s, s.root.value, s.charged)
    && (s.routed ==> forall i :: 0 <= i < |s.members| && !s.members[i].root ==>
                       s.members[i].receipt.Some? && GoodStage(s.members[i].receipt.value))
  }

  /** A session is charged only for what was delivered, and every completed one was. */
  predicate ChargedForDelivery(s: Session)
  {
    if s.phase == Completed then Delivered(s) else s.charged == 0
  }

  /** Some stage reported something that is not good. */
  predicate StageFailed(s: Session)
  {
    exists i :: 0 <= i < |s.members| && !s.members[i].root && s.members[i].receipt.Some? && !GoodStage(s.members[i].receipt.value)
  }

  predicate EveryStageIn(s: Session)
  {
    forall i :: 0 <= i < |s.members| && !s.members[i].root ==> s.members[i].receipt.Some?
  }

  /** What a routed session with these receipts comes to: an end, or more waiting. */
  predicate RouteEnds(s: Session, t: Session)
  {
    if s.phase == Cancelling then t == s.(phase := Cancelled, charged := 0)
    else if StageFailed(s) then t == s.(phase := Failed, charged := 0)
    else if s.root.None? || !EveryStageIn(s) then t == s
    else t == s.(phase := Completed, charged := t.charged) && PriceOf(s, s.root.value, t.charged)
  }

  lemma StageFailedIs(s: Session)
    ensures StageFailed(s) <==> SomeStageFailed(s)
    ensures EveryStageIn(s) <==> AllStagesReported(s)
  {
  }

  /** Settling a route ends it by its receipts, unless all are in and a node has changed. */
  lemma SettleRouteIs(s: Session, env: Env)
    requires SessionOk(s) && (s.phase == Authorized || s.phase == Running || s.phase == Cancelling)
    ensures var (t, reply) := SettleRoute(s, env);
            if s.phase != Cancelling && !StageFailed(s) && s.root.Some? && EveryStageIn(s) && !env.current
            then t == s && reply == RouteChanged
            else !Error(reply) && RouteEnds(s, t)
    ensures !SettleRoute(s, env).1.Duplicate? && !SettleRoute(s, env).1.Late?
  {
    hide ChargeFor, Splittable, Shares, QuoteMaximum, SomeStageFailed, AllStagesReported, StageFailed, EveryStageIn, PriceOf, RootValid, GoodRoot;
    StageFailedIs(s);
    if s.root.Some? {
      GoodRootIsValid(s, s.root.value);
      PriceIsCharged(s, s.root.value);
    }
  }

  // ---------------------------------------------------------------------------------------------
  // Steps that are not receipts

  /** The preparation is confirmed in time, on unchanged nodes, by every part. */
  predicate MayAuthorize(s: Session, complete: bool, env: Env)
  {
    s.phase == Preparing && env.now < s.deadline && env.rootOk && (s.routed ==> env.current) && complete
  }

  /** A stage of an authorized route takes its part once, in time. */
  predicate MayClaimStage(s: Session, i: nat, mine: bool, env: Env)
  {
    && s.routed && s.phase == Authorized && mine && env.now < s.deadline && env.current
    && i < |s.members| && !s.members[i].root && !s.members[i].claimed
  }

  /** The root starts, in time, after every stage has claimed its part. */
  predicate MayClaim(s: Session, mine: bool, env: Env)
  {
    && s.phase == Authorized && mine && env.now < s.deadline && env.rootOk
    && (s.routed ==> env.current && forall i :: 0 <= i < |s.members| && !s.members[i].root ==> s.members[i].claimed)
  }

  /** The coordinator gives a session up: its queue or execution deadline has passed, or one of its nodes is gone. */
  predicate Overdue(s: Session, changed: bool, env: Env)
  {
    (s.phase == Queued && s.queueDeadline < env.now) || (s.admitted && (s.deadline < env.now || changed))
  }

  /**
   Main result: of an open session, every step that is not a receipt does exactly this, and charges nothing: cancelling
   before the start ends it as CANCELLED and afterwards only asks for it, failing ends it as FAILED before the start and
   does nothing afterwards, and giving it up ends it as CANCELLED when that was asked for and as INTERRUPTED otherwise.
   */
  lemma StepIs(s: Session, op: Op, env: Env)
    requires SessionOk(s) && !op.DoStage? && !op.DoRoot?
    ensures var (t, reply) := Apply(s, op, env);
            var started := s.phase == Running || s.phase == Cancelling;
            if s.phase == Completed || s.phase == Failed || s.phase == Cancelled || s.phase == Interrupted then t == s
            else
              && t.charged == 0
              && match op
                 case DoCancel => t == s.(phase := if started then Cancelling else Cancelled) && !Error(reply)
                 case DoFail => t == s.(phase := if started then s.phase else Failed) && !Error(reply)
                 case DoReap(changed) =>
                   && !Error(reply)
                   && t == if Overdue(s, changed, env) then s.(phase := if s.phase == Cancelling then Cancelled else Interrupted) else s
                 case DoAuthorize(complete) =>
                   (!Error(reply) <==> MayAuthorize(s, complete, env)) && t == if Error(reply) then s else s.(phase := Authorized)
                 case DoStageClaim(i, mine) =>
                   && (!Error(reply) <==> MayClaimStage(s, i, mine, env))
                   && (Error(reply) ==> t == s)
                   && (!Error(reply) ==> t == s.(members := s.members[i := s.members[i].(claimed := true)]))
                 case DoClaim(mine) =>
                   (!Error(reply) <==> MayClaim(s, mine, env)) && t == if Error(reply) then s else s.(phase := Running, started := true)
                 case DoStage(_, _, _) => true
                 case DoRoot(_, _) => true
  {
    hide Splittable, Shares, QuoteMaximum, WellPriced, RootValid;
  }

  // ---------------------------------------------------------------------------------------------
  // Receipts

  predicate Ended(s: Session) { s.phase == Completed || s.phase == Failed || s.phase == Cancelled || s.phase == Interrupted }

  /** A stage's first receipt that may be recorded now. */
  predicate StageInTime(s: Session, i: nat, r: StageReceipt, env: Env)
    requires i < |s.members|
  {
    && env.now < s.deadline && s.members[i].claimed && (s.phase == Authorized || s.phase == Running || s.phase == Cancelling)
    && (r.reported == ReportedCompleted ==> s.started) && env.current
  }

  /** A stage's receipt: who may send it, when it is too late, and what it makes of the session. */
  lemma StageReceiptIs(s: Session, i: nat, mine: bool, r: StageReceipt, env: Env)
    requires SessionOk(s)
    ensures var (t, reply) := TakeStage(s, i, mine, r, env);
            if !(s.routed && i < |s.members| && !s.members[i].root && mine && s.admitted) then t == s && reply == ReceiptIdentity
            else if s.members[i].receipt.Some? then
              t == s && reply == if s.members[i].receipt.value == r then Duplicate else ReceiptConflict
            else if Ended(s) then t == s && reply == Late(s.phase)
            else if s.deadline <= env.now then t == s.(phase := Interrupted, charged := 0) && reply == Late(Interrupted)
            else if !StageInTime(s, i, r, env) then t == s && Error(reply)
            else
              var taken := s.(members := s.members[i := s.members[i].(receipt := Some(r))]);
              !Error(reply) && RouteEnds(taken, t)
  {
    hide ChargeFor, Splittable, Shares, QuoteMaximum, SettleRoute, RouteEnds, RootValid, SomeStageFailed, StageFailed, EveryStageIn;
    if i < |s.members| && s.members[i].receipt.None? && !Ended(s) && s.admitted && StageInTime(s, i, r, env) {
      var taken := WithStage(s, i, r);
      StageOnly(s, i, r);
      SettleRouteIs(taken, env);
    }
  }

  lemma StageOnly(s: Session, i: nat, r: StageReceipt)
    requires SessionOk(s) && i < |s.members|
    ensures SessionOk(WithStage(s, i, r))
  {
    hide Splittable, Shares, QuoteMaximum, WellPriced;
    SameShares(s.members, i, s.members[i].(receipt := Some(r)));
  }

  /** What a root's receipt makes of a running session. */
  predicate RootEnds(s: Session, r: RootReceipt, t: Session)
  {
    var taken := s.(root := Some(r));
    if s.phase == Cancelling then t == taken.(phase := Cancelled, charged := 0)
    else if !GoodRoot(s, r) then
      var end := if r.reported == ReportedCancelled then Cancelled else if r.reported == ReportedInterrupted then Interrupted else Failed;
      t == taken.(phase := end, charged := 0)
    else if s.routed then RouteEnds(taken, t)
    else t == taken.(phase := Completed, charged := t.charged) && PriceOf(s, r, t.charged)
  }

  /** A root's first receipt, in time, from the node that runs the session. */
  predicate RootInTime(s: Session, env: Env)
  {
    s.admitted && s.root.None? && env.now < s.deadline && (s.phase == Running || s.phase == Cancelling) && env.rootOk
  }

  /** All receipts of a route are in, but one of its nodes has changed. */
  predicate Stuck(s: Session, r: RootReceipt, env: Env)
  {
    s.routed && s.phase == Running && GoodRoot(s, r) && !StageFailed(s) && EveryStageIn(s) && !env.current
  }

  /** A running session whose root reports anything else than a good end, or one that is being cancelled. */
  lemma RefusedRoot(s: Session, r: RootReceipt, env: Env)
    requires SessionOk(s) && RootInTime(s, env) && (!GoodRoot(s, r) || s.phase == Cancelling)
    ensures !Error(TakeRoot(s, true, r, env).1) && RootEnds(s, r, TakeRoot(s, true, r, env).0)
  {
    hide ChargeFor, Splittable, Shares, QuoteMaximum, SettleRoute, RouteEnds, RootValid, GoodRoot;
    GoodRootIsValid(s, r);
    HoldIsNatural(s);
  }

  lemma GoodRootOfNode(s: Session, r: RootReceipt, env: Env)
    requires SessionOk(s) && RootInTime(s, env) && GoodRoot(s, r) && s.phase == Running && !s.routed
    ensures !Error(TakeRoot(s, true, r, env).1) && RootEnds(s, r, TakeRoot(s, true, r, env).0)
  {
    hide ChargeFor, Splittable, Shares, QuoteMaximum, SettleRoute, RouteEnds, RootValid, PriceOf;
    GoodRootIsValid(s, r);
    PriceIsCharged(s, r);
  }

  lemma GoodRootOfRoute(s: Session, r: RootReceipt, env: Env)
    requires SessionOk(s) && RootInTime(s, env) && GoodRoot(s, r) && s.phase == Running && s.routed
    ensures var (t, reply) := TakeRoot(s, true, r, env);
            if Stuck(s, r, env) then t == s && reply == RouteChanged else !Error(reply) && RootEnds(s, r, t)
  {
    hide ChargeFor, Splittable, Shares, QuoteMaximum, SettleRoute, RouteEnds, RootValid, GoodRoot, PriceOf, StageFailed, EveryStageIn;
    GoodRootIsValid(s, r);
    PriceIsCharged(s, r);
    RootOnly(s, r);
    SettleRouteIs(s.(root := Some(r)), env);
  }

  /** The root's receipt: who may send it, when it is too late, and what it makes of the session. */
  lemma RootReceiptIs(s: Session, mine: bool, r: RootReceipt, env: Env)
    requires SessionOk(s)
    ensures var (t, reply) := TakeRoot(s, mine, r, env);
            if !mine || !s.admitted then t == s && reply == ReceiptIdentity
            else if s.root.Some? then t == s && reply == if s.root.value == r then Duplicate else ReceiptConflict
            else if Ended(s) then t == s && reply == Late(s.phase)
            else if s.deadline <= env.now then t == s.(phase := Interrupted, charged := 0) && reply == Late(Interrupted)
            else if s.phase != Running && s.phase != Cancelling then t == s && reply == ReceiptState
            else if !env.rootOk then t == s && reply == EpochFenced
            else if Stuck(s, r, env) then t == s && reply == RouteChanged
            else !Error(reply) && RootEnds(s, r, t)
  {
    hide ChargeFor, Splittable, Shares, QuoteMaximum, SettleRoute, RootEnds, RootValid, GoodRoot, StageFailed, EveryStageIn;
    HoldIsNatural(s);
    if mine && RootInTime(s, env) {
      if !GoodRoot(s, r) || s.phase == Cancelling {
        RefusedRoot(s, r, env);
      } else if s.routed {
        GoodRootOfRoute(s, r, env);
      } else {
        GoodRootOfNode(s, r, env);
      }
    }
  }

  lemma HoldIsNatural(s: Session)
    requires SessionOk(s)
    ensures 0 <= s.hold
  {
    hide Splittable, Shares, QuoteMaximum, WellPriced;
  }

  lemma RootOnly(s: Session, r: RootReceipt)
    requires SessionOk(s) && GoodRoot(s, r)
    ensures SessionOk(s.(root := Some(r))) && (StageFailed(s.(root := Some(r))) <==> StageFailed(s))
    ensures EveryStageIn(s.(root := Some(r))) <==> EveryStageIn(s)
  {
    hide Splittable, Shares, QuoteMaximum, WellPriced;
  }

  // ---------------------------------------------------------------------------------------------
  // Only deliveries are charged

  lemma RouteDelivers(s: Session, t: Session)
    requires RouteEnds(s, t) && s.charged == 0 && s.phase != Completed && s.admitted && (s.root.Some? ==> GoodRoot(s, s.root.value))
    ensures ChargedForDelivery(t)
  {
    hide GoodRoot, GoodStage, PriceOf;
    if t.phase == Completed && s.phase != Completed {
      forall i | 0 <= i < |t.members| && !t.members[i].root
        ensures t.members[i].receipt.Some? && GoodStage(t.members[i].receipt.value)
      {
        assert !StageFailed(s) && EveryStageIn(s);
      }
      SameGood(s, t);
    }
  }

  lemma SameGood(s: Session, t: Session)
    requires t == s.(phase := t.phase, charged := t.charged) && s.root.Some?
    ensures GoodRoot(t, s.root.value) <==> GoodRoot(s, s.root.value)
    ensures forall c :: PriceOf(t, s.root.value, c) <==> PriceOf(s, s.root.value, c)
  {
  }

  lemma GoodRecorded(s: Session)
    requires SessionOk(s) && !Ended(s)
    ensures s.charged == 0 && (s.root.Some? ==> GoodRoot(s, s.root.value))
  {
    hide Splittable, Shares, QuoteMaximum, WellPriced;
  }

  lemma SameRoot(s: Session, t: Session, r: RootReceipt)
    requires t.manifest == s.manifest && t.maxOutput == s.maxOutput
    ensures GoodRoot(t, r) <==> GoodRoot(s, r)
    ensures forall c :: PriceOf(t, r, c) <==> PriceOf(s, r, c)
  {
  }

  /** No step ever charges a session for anything but a delivery. */
  lemma ApplyDelivers(s: Session, op: Op, env: Env)
    requires SessionOk(s) && ChargedForDelivery(s)
    ensures ChargedForDelivery(Apply(s, op, env).0)
  {
    hide SessionOk, GoodRoot, GoodStage, PriceOf, TakeStage, TakeRoot, StageFailed, EveryStageIn, RouteEnds, Delivered;
    match op
    case DoStage(i, mine, r) =>
      StageReceiptIs(s, i, mine, r, env);
      if !Ended(s) {
        GoodRecorded(s);
        if i < |s.members| {
          var taken := s.(members := s.members[i := s.members[i].(receipt := Some(r))]);
          if s.root.Some? { SameRoot(s, taken, s.root.value); }
          if s.admitted && RouteEnds(taken, TakeStage(s, i, mine, r, env).0) { RouteDelivers(taken, TakeStage(s, i, mine, r, env).0); }
        }
      }
    case DoRoot(mine, r) =>
      RootReceiptIs(s, mine, r, env);
      if !Ended(s) {
        GoodRecorded(s);
        if s.admitted { RootDelivers(s, r, TakeRoot(s, mine, r, env).0); }
      }
    case _ => StepIs(s, op, env);
  }

  lemma RootDelivers(s: Session, r: RootReceipt, t: Session)
    requires s.charged == 0 && !Ended(s) && s.admitted
    ensures RootEnds(s, r, t) ==> ChargedForDelivery(t)
  {
    hide GoodRoot, GoodStage, PriceOf, RouteEnds;
    var taken := s.(root := Some(r));
    SameRoot(s, taken, r);
    if RootEnds(s, r, t) {
      if GoodRoot(s, r) && s.routed && s.phase != Cancelling {
        RouteDelivers(taken, t);
      } else {
        SameRoot(s, t, r);
      }
    }
  }
}
