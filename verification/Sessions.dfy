/**
 One inference session (apps/control-api/src/sessions.ts): its states, the receipts of its root and stages in
 any order, and its settlement. Every transaction is one step; a refused one changes nothing.
 */
module Sessions {
  import opened Contracts

  datatype Phase = Queued | Preparing | Authorized | Running | Cancelling | Completed | Failed | Cancelled | Interrupted

  predicate Terminal(p: Phase) { p == Completed || p == Failed || p == Cancelled || p == Interrupted }

  /** What a node reports about its own part. */
  datatype Reported = ReportedCompleted | ReportedFailed | ReportedCancelled | ReportedInterrupted {
    function Phase(): Phase {
      match this
      case ReportedCompleted => Completed
      case ReportedFailed => Failed
      case ReportedCancelled => Cancelled
      case ReportedInterrupted => Interrupted
    }
  }

  datatype RootReceipt = RootReceipt(reported: Reported, streamDone: bool, prompt: int, completion: int, finished: bool)
  datatype StageReceipt = StageReceipt(reported: Reported, commands: int, requestBytes: int, responseBytes: int)

  datatype Member = Member(provider: nat, share: int, root: bool, claimed: bool, receipt: Option<StageReceipt>)

  datatype Session = Session(
    user: nat, hold: int, manifest: Manifest, maxOutput: int, pool: Option<nat>,
    phase: Phase, created: int, queueDeadline: int, admitted: bool, deadline: int, started: bool,
    routed: bool, owner: nat, members: seq<Member>, domains: set<nat>,
    root: Option<RootReceipt>, charged: int)

  /** What the database shows besides the session: the clock, whether the participants and the root node are unchanged. */
  datatype Env = Env(now: int, current: bool, rootOk: bool)

  datatype Reply =
    | Accepted | Duplicate | Pending | Late(phase: Phase) | Settled(charge: int)
    | PrepareExpired | NodeChanged | PrepareIncomplete | ClaimRejected | RouteUnclaimed | RouteChanged
    | ReceiptIdentity | ReceiptConflict | ReceiptState | EpochFenced | ChargeLimit | Overflow

  /** Thrown errors abort the transaction. */
  predicate Error(r: Reply)
  {
    r in {PrepareExpired, NodeChanged, PrepareIncomplete, ClaimRejected, RouteUnclaimed, RouteChanged,
          ReceiptIdentity, ReceiptConflict, ReceiptState, EpochFenced, ChargeLimit, Overflow}
  }

  // ---------------------------------------------------------------------------------------------
  // finalize

  function Finalize(s: Session, phase: Phase, charge: int): (Session, Reply)
  {
    if Terminal(s.phase) then (s, Accepted)
    else if !(0 <= charge <= s.hold) then (s, ChargeLimit)
    else (s.(phase := phase, charged := charge), Settled(charge))
  }

  // ---------------------------------------------------------------------------------------------
  // Preparation and claims

  function Authorize(s: Session, complete: bool, env: Env): (Session, Reply)
  {
    if s.phase != Preparing || s.deadline <= env.now then (s, PrepareExpired)
    else if !env.rootOk then (s, NodeChanged)
    else if s.routed && !env.current then (s, RouteChanged)
    else if !complete then (s, PrepareIncomplete)
    else (s.(phase := Authorized), Accepted)
  }

  function StageClaim(s: Session, i: nat, mine: bool, env: Env): (Session, Reply)
  {
    if !s.routed || s.phase != Authorized || !mine || s.deadline <= env.now then (s, ClaimRejected)
    else if !env.current then (s, RouteChanged)
    else if i >= |s.members| || s.members[i].root || s.members[i].claimed then (s, ClaimRejected)
    else (s.(members := s.members[i := s.members[i].(claimed := true)]), Accepted)
  }

  predicate StagesClaimed(s: Session) { forall i :: 0 <= i < |s.members| && !s.members[i].root ==> s.members[i].claimed }

  function Claim(s: Session, mine: bool, env: Env): (Session, Reply)
  {
    if s.routed && !env.current then (s, RouteChanged)
    else if s.routed && !StagesClaimed(s) then (s, RouteUnclaimed)
    else if !mine || s.phase != Authorized || s.deadline <= env.now || !env.rootOk then (s, ClaimRejected)
    else (s.(phase := Running, started := true), Accepted)
  }

  // ---------------------------------------------------------------------------------------------
  // Receipts

  predicate RootValid(s: Session, r: RootReceipt)
  {
    && r.reported == ReportedCompleted && r.streamDone && 0 < r.prompt && 0 < r.completion && r.finished
    && r.prompt <= s.manifest.maxContextTokens - s.maxOutput && r.completion <= s.maxOutput
  }

  predicate StageValid(r: StageReceipt)
  {
    r.reported == ReportedCompleted && r.commands >= 1 && r.requestBytes != 0 && r.responseBytes != 0
  }

  predicate SomeStageFailed(s: Session)
  {
    exists i :: 0 <= i < |s.members| && !s.members[i].root && s.members[i].receipt.Some? && !StageValid(s.members[i].receipt.value)
  }

  predicate AllStagesReported(s: Session)
  {
    forall i :: 0 <= i < |s.members| && !s.members[i].root ==> s.members[i].receipt.Some?
  }

  /** The whole route settles once: at its first failure, or when the last receipt arrives. */
  function SettleRoute(s: Session, env: Env): (Session, Reply)
  {
    if s.phase == Cancelling || SomeStageFailed(s) then
      Finalize(s, if s.phase == Cancelling then Cancelled else Failed, 0)
    else if s.root.None? || !AllStagesReported(s) then (s, Pending)
    else if !env.current then (s, RouteChanged)
    else
      match ChargeFor(s.manifest, s.root.value.prompt, s.root.value.completion)
      case None => (s, Overflow)
      case Some(charge) => Finalize(s, Completed, charge)
  }

  function WithStage(s: Session, i: nat, r: StageReceipt): Session
    requires i < |s.members|
  {
    s.(members := s.members[i := s.members[i].(receipt := Some(r))])
  }

  /** An error undoes the insertion of the receipt as well. */
  function Undo(s: Session, r: (Session, Reply)): (Session, Reply) { if Error(r.1) then (s, r.1) else r }

  function TakeStage(s: Session, i: nat, mine: bool, r: StageReceipt, env: Env): (Session, Reply)
  {
    if !s.routed || i >= |s.members| || s.members[i].root || !mine || !s.admitted then (s, ReceiptIdentity)
    else if s.members[i].receipt.Some? then (s, if s.members[i].receipt.value == r then Duplicate else ReceiptConflict)
    else if Terminal(s.phase) then (s, Late(s.phase))
    else if s.deadline <= env.now then (Finalize(s, Interrupted, 0).0, Late(Interrupted))
    else if !s.members[i].claimed || s.phase !in {Authorized, Running, Cancelling}
            || (r.reported == ReportedCompleted && !s.started) then (s, ReceiptState)
    else if !env.current then (s, RouteChanged)
    else Undo(s, SettleRoute(WithStage(s, i, r), env))
  }

  function TakeRoot(s: Session, mine: bool, r: RootReceipt, env: Env): (Session, Reply)
  {
    if !mine || !s.admitted then (s, ReceiptIdentity)
    else if s.root.Some? then (s, if s.root.value == r then Duplicate else ReceiptConflict)
    else if Terminal(s.phase) then (s, Late(s.phase))
    else if s.deadline <= env.now then (Finalize(s, Interrupted, 0).0, Late(Interrupted))
    else if s.phase !in {Running, Cancelling} then (s, ReceiptState)
    else if !env.rootOk then (s, EpochFenced)
    else
      var valid := RootValid(s, r);
      var cancelled := s.phase == Cancelling;
      var charge := if valid && !cancelled then ChargeFor(s.manifest, r.prompt, r.completion) else Some(0);
      if charge.None? then (s, Overflow)
      else
        var taken := s.(root := Some(r));
        if s.routed && valid && !cancelled then Undo(s, SettleRoute(taken, env))
        else
          var phase := if cancelled then Cancelled
                       else if r.reported == ReportedCompleted && !valid then Failed
                       else r.reported.Phase();
          Undo(s, Finalize(taken, phase, charge.value))
  }

  // ---------------------------------------------------------------------------------------------
  // Ending early

  function Cancel(s: Session): (Session, Reply)
  {
    if Terminal(s.phase) then (s, Accepted)
    else if s.phase == Running || s.phase == Cancelling then (s.(phase := Cancelling), Accepted)
    else Finalize(s, Cancelled, 0)
  }

  function Fail(s: Session): (Session, Reply)
  {
    if Terminal(s.phase) || s.phase == Running || s.phase == Cancelling then (s, Accepted) else Finalize(s, Failed, 0)
  }

  /** `changed`: a node or provider of the session was replaced, revoked or disabled. */
  function Reap(s: Session, changed: bool, env: Env): (Session, Reply)
  {
    if !Terminal(s.phase)
       && ((s.phase == Queued && s.queueDeadline < env.now) || (s.admitted && (s.deadline < env.now || changed))) then
      Finalize(s, if s.phase == Cancelling then Cancelled else Interrupted, 0)
    else (s, Accepted)
  }

  datatype Op =
    | DoAuthorize(complete: bool)
    | DoStageClaim(i: nat, mine: bool)
    | DoClaim(mine: bool)
    | DoStage(i: nat, mine: bool, stage: StageReceipt)
    | DoRoot(mine: bool, receipt: RootReceipt)
    | DoCancel
    | DoFail
    | DoReap(changed: bool)

  function Apply(s: Session, op: Op, env: Env): (Session, Reply)
  {
    match op
    case DoAuthorize(complete) => Authorize(s, complete, env)
    case DoStageClaim(i, mine) => StageClaim(s, i, mine, env)
    case DoClaim(mine) => Claim(s, mine, env)
    case DoStage(i, mine, r) => TakeStage(s, i, mine, r, env)
    case DoRoot(mine, r) => TakeRoot(s, mine, r, env)
    case DoCancel => Cancel(s)
    case DoFail => Fail(s)
    case DoReap(changed) => Reap(s, changed, env)
  }

  // ---------------------------------------------------------------------------------------------
  // The invariant of one session

  function Shares(members: seq<Member>): seq<int> { seq(|members|, i requires 0 <= i < |members| => members[i].share) }

  ghost predicate SessionOk(s: Session)
  {
    && WellPriced(s.manifest) && 0 <= s.maxOutput
    && QuoteMaximum(s.manifest, s.maxOutput) == Some(s.hold) && 0 <= s.hold <= MAX_AMOUNT
    && (!Terminal(s.phase) ==> s.charged == 0 && (s.root.Some? ==> RootValid(s, s.root.value)))
    && (Terminal(s.phase) ==> 0 <= s.charged <= s.hold)
    && (s.routed ==> Splittable(WHOLE, Shares(s.members)))
    && (s.phase == Queued <==> !s.admitted && !Terminal(s.phase))
  }

  /** The charge of a valid receipt always exists and never exceeds the hold. */
  lemma ValidReceiptFitsHold(s: Session, r: RootReceipt)
    requires SessionOk(s) && RootValid(s, r)
    ensures var charge := ChargeFor(s.manifest, r.prompt, r.completion); charge.Some? && 0 <= charge.value <= s.hold
  {
    hide Splittable, ChargeFor, Shares;
    QuoteCovers(s.manifest, s.maxOutput, r.prompt, r.completion);
  }

  lemma SameShares(a: seq<Member>, i: nat, m: Member)
    requires i < |a| && m.share == a[i].share
    ensures Shares(a[i := m]) == Shares(a)
  {
  }

  /** Every step keeps the invariant, and no valid receipt is ever refused for its charge. */
  lemma ApplyKeeps(s: Session, op: Op, env: Env)
    requires SessionOk(s)
    ensures var (t, reply) := Apply(s, op, env);
            && SessionOk(t) && reply != ChargeLimit && reply != Overflow
            && t.user == s.user && t.hold == s.hold && t.domains == s.domains && t.admitted == s.admitted
            && t.pool == s.pool && t.routed == s.routed && t.owner == s.owner && |t.members| == |s.members|
            && t.created == s.created && t.queueDeadline == s.queueDeadline
            && (reply.Settled? <==> !Terminal(s.phase) && Terminal(t.phase) && !reply.Late?)
            && (reply.Settled? ==> t.charged == reply.charge)
  {
    hide Splittable, ChargeFor, QuoteMaximum, WellPriced, Shares, TakeStage, TakeRoot, StageValid;
    match op
    case DoStageClaim(i, _) => if i < |s.members| { SameShares(s.members, i, s.members[i].(claimed := true)); }
    case DoStage(i, _, r) => StageKeeps(s, i, op.mine, r, env);
    case DoRoot(_, r) => RootKeeps(s, op.mine, r, env);
    case _ =>
  }

  lemma SettleRouteKeeps(s: Session, env: Env)
    requires SessionOk(s) && !Terminal(s.phase)
    ensures var (t, reply) := SettleRoute(s, env);
            && SessionOk(t) && reply != ChargeLimit && reply != Overflow && !reply.Late?
            && t == s.(phase := t.phase, charged := t.charged)
            && (reply.Settled? <==> Terminal(t.phase)) && (reply.Settled? ==> t.charged == reply.charge)
            && (!reply.Settled? ==> t == s)
  {
    hide Splittable, ChargeFor, QuoteMaximum, WellPriced, Shares, RootValid, StageValid;
    if s.root.Some? { ValidReceiptFitsHold(s, s.root.value); }
  }

  lemma StageKeeps(s: Session, i: nat, mine: bool, r: StageReceipt, env: Env)
    requires SessionOk(s)
    ensures var (t, reply) := TakeStage(s, i, mine, r, env);
            && SessionOk(t) && reply != ChargeLimit && reply != Overflow
            && t == s.(phase := t.phase, charged := t.charged, members := t.members) && |t.members| == |s.members|
            && (reply.Settled? <==> !Terminal(s.phase) && Terminal(t.phase) && !reply.Late?)
            && (reply.Settled? ==> t.charged == reply.charge)
  {
    hide Splittable, ChargeFor, QuoteMaximum, WellPriced, Shares, StageValid, SettleRoute;
    if i < |s.members| && !Terminal(s.phase) {
      SameShares(s.members, i, s.members[i].(receipt := Some(r)));
      SettleRouteKeeps(WithStage(s, i, r), env);
    }
  }

  lemma RootKeeps(s: Session, mine: bool, r: RootReceipt, env: Env)
    requires SessionOk(s)
    ensures var (t, reply) := TakeRoot(s, mine, r, env);
            && SessionOk(t) && reply != ChargeLimit && reply != Overflow
            && t == s.(phase := t.phase, charged := t.charged, root := t.root)
            && (reply.Settled? <==> !Terminal(s.phase) && Terminal(t.phase) && !reply.Late?)
            && (reply.Settled? ==> t.charged == reply.charge)
  {
    hide Splittable, ChargeFor, QuoteMaximum, WellPriced, Shares, SettleRoute;
    if RootValid(s, r) { ValidReceiptFitsHold(s, r); }
    if !Terminal(s.phase) && RootValid(s, r) { SettleRouteKeeps(s.(root := Some(r)), env); }
  }

  /** Terminal states are absorbing: no later step changes the state, the charge or any receipt, or settles again. */
  lemma TerminalAbsorbs(s: Session, op: Op, env: Env)
    requires Terminal(s.phase)
    ensures Apply(s, op, env).0 == s && !Apply(s, op, env).1.Settled?
  {
  }
}
