/** The coordinator itself: sessions, turns and books updated step by step, one transaction per method. */
module Coordinator {
  import opened Contracts
  import opened Journal
  import opened Sessions
  import opened Refill
  import opened Desk

  // ---------------------------------------------------------------------------------------------
  // Receipts

  /** The loop of `stages.some` over the reported stages. */
  method AnyStageFailed(s: Session) returns (failed: bool)
    ensures failed == SomeStageFailed(s)
  {
    hide StageValid;
    failed := false;
    for i := 0 to |s.members|
      invariant failed <==> exists k :: 0 <= k < i && !s.members[k].root && s.members[k].receipt.Some?
                                        && !StageValid(s.members[k].receipt.value)
    {
      var p := s.members[i];
      if !p.root && p.receipt.Some? && !StageValid(p.receipt.value) {
        failed := true;
      }
    }
  }

  method AnyStagePending(s: Session) returns (pending: bool)
    ensures pending == !AllStagesReported(s)
  {
    pending := false;
    for i := 0 to |s.members|
      invariant pending <==> exists k :: 0 <= k < i && !s.members[k].root && s.members[k].receipt.None?
    {
      if !s.members[i].root && s.members[i].receipt.None? {
        pending := true;
      }
    }
  }

  method SettleRoute(s: Session, env: Env) returns (t: Session, reply: Reply)
    ensures (t, reply) == Sessions.SettleRoute(s, env)
  {
    hide SomeStageFailed, AllStagesReported, ChargeFor;
    var failed := AnyStageFailed(s);
    if s.phase == Cancelling || failed {
      var r := Finalize(s, if s.phase == Cancelling then Cancelled else Failed, 0);
      return r.0, r.1;
    }
    var pending := AnyStagePending(s);
    if s.root.None? || pending {
      return s, Pending;
    }
    if !env.current {
      return s, RouteChanged;
    }
    var charge := ChargeFor(s.manifest, s.root.value.prompt, s.root.value.completion);
    if charge.None? {
      return s, Reply.Overflow;
    }
    var r := Finalize(s, Completed, charge.value);
    return r.0, r.1;
  }

  method AcceptStage(s: Session, i: nat, mine: bool, r: StageReceipt, env: Env) returns (t: Session, reply: Reply)
    ensures (t, reply) == TakeStage(s, i, mine, r, env)
  {
    hide Sessions.SettleRoute;
    if !s.routed || i >= |s.members| || s.members[i].root || !mine || !s.admitted {
      return s, ReceiptIdentity;
    }
    var stored := s.members[i].receipt;
    if stored.Some? {
      return s, if stored.value == r then Duplicate else ReceiptConflict;
    }
    if Terminal(s.phase) {
      return s, Late(s.phase);
    }
    if s.deadline <= env.now {
      return Finalize(s, Interrupted, 0).0, Late(Interrupted);
    }
    if !(s.members[i].claimed && s.phase in {Authorized, Running, Cancelling} && (r.reported != ReportedCompleted || s.started)) {
      return s, ReceiptState;
    }
    if !env.current {
      return s, RouteChanged;
    }
    t := WithStage(s, i, r);
    t, reply := SettleRoute(t, env);
    if Error(reply) {
      t := s;
    }
  }

  method AcceptRoot(s: Session, mine: bool, r: RootReceipt, env: Env) returns (t: Session, reply: Reply)
    ensures (t, reply) == TakeRoot(s, mine, r, env)
  {
    hide Sessions.SettleRoute, ChargeFor, RootValid;
    if !mine || !s.admitted {
      return s, ReceiptIdentity;
    }
    if s.root.Some? {
      return s, if s.root.value == r then Duplicate else ReceiptConflict;
    }
    if Terminal(s.phase) {
      return s, Late(s.phase);
    }
    if s.deadline <= env.now {
      return Finalize(s, Interrupted, 0).0, Late(Interrupted);
    }
    if s.phase !in {Running, Cancelling} {
      return s, ReceiptState;
    }
    if !env.rootOk {
      return s, EpochFenced;
    }
    var valid, cancelled := RootValid(s, r), s.phase == Cancelling;
    var charge := Some(0);
    if valid && !cancelled {
      charge := ChargeFor(s.manifest, r.prompt, r.completion);
    }
    if charge.None? {
      return s, Reply.Overflow;
    }
    t := s.(root := Some(r));
    if s.routed && valid && !cancelled {
      t, reply := SettleRoute(t, env);
    } else {
      var phase := if cancelled then Cancelled
                   else if r.reported == ReportedCompleted && !valid then Failed
                   else r.reported.Phase();
      var f := Finalize(t, phase, charge.value);
      t, reply := f.0, f.1;
    }
    if Error(reply) {
      t := s;
    }
  }

  // ---------------------------------------------------------------------------------------------
  // Settlement

  /** finalize builds its lines one member at a time; None where splitByBps throws. */
  method SettleLines(s: Session, charge: int, a: Allocation) returns (lines: Option<Entries>)
    ensures charge > 0 && s.pool.None? && s.routed && !Splittable(charge - charge * FEE_BPS / WHOLE, Shares(s.members)) ==> lines == None
    ensures !(charge > 0 && s.pool.None? && s.routed && !Splittable(charge - charge * FEE_BPS / WHOLE, Shares(s.members))) ==>
              lines == Some(SettleEntries(s, charge, a))
  {
    hide Splittable, Parts;
    var entries: Entries := [(HeldBy(s.user), -s.hold), (Available(s.user), s.hold - charge)];
    var head, back := (HeldBy(s.user), -s.hold), (Available(s.user), s.hold - charge);
    assert entries == [head] + ([back] + []);
    if charge <= 0 {
      return Some(entries);
    }
    if s.pool.Some? {
      var p := s.pool.value;
      entries := entries + [(PoolWorking(p), a.floor + a.working), (PoolReserve(p), a.reserve), (PoolBurn(p), a.burned)];
      assert entries == [head] + ([back] + Payout(s, charge, a));
      return Some(entries);
    }
    var fee := charge * FEE_BPS / WHOLE;
    if s.routed {
      var payments := SplitByBps(charge - fee, Shares(s.members));
      if payments.None? {
        return None;
      }
      var lines := PaymentLines(s.members, payments.value);
      entries := entries + lines;
    } else {
      entries := entries + [(Available(s.owner), charge - fee)];
    }
    entries := entries + [(LabWorking, fee)];
    assert entries == [head] + ([back] + Payout(s, charge, a));
    return Some(entries);
  }

  method PaymentLines(members: seq<Member>, payments: seq<int>) returns (lines: Entries)
    requires |members| == |payments|
    ensures lines == PayMembers(members, payments)
  {
    lines := [];
    for i := 0 to |members|
      invariant lines == PayMembers(members[..i], payments[..i])
    {
      assert members[..i + 1][..i] == members[..i] && payments[..i + 1][..i] == payments[..i];
      lines := lines + [(Available(members[i].provider), payments[i])];
    }
    assert members[..|members|] == members && payments[..|payments|] == payments;
  }

  class Coordinator {
    var sessions: map<nat, Session>
    var slots: map<nat, nat>
    var lastAdmitted: map<nat, int>
    const ledger: Ledger

    function View(): Desk
      reads this, ledger
    {
      Desk(sessions, ledger.View(), slots, lastAdmitted)
    }

    constructor (ledger: Ledger, slots: map<nat, nat>)
      ensures View() == Desk(map[], ledger.View(), slots, map[]) && this.ledger == ledger
    {
      this.ledger := ledger;
      this.slots := slots;
      sessions, lastAdmitted := map[], map[];
    }

    /** The end of a transaction: the row is written, and settled when it has just become terminal. */
    method Write(id: nat, t: Session, targets: Targets) returns (outcome: Outcome)
      requires id in sessions
      modifies this, ledger
      ensures View() == Store(old(View()), id, t, targets).0 && outcome == Store(old(View()), id, t, targets).1
    {
      hide Posting, SettleEntries, Allocated, Splittable, Shares;
      var s := sessions[id];
      if !Terminal(s.phase) && Terminal(t.phase) && t.hold > 0 {
        var a := Allocated(ledger.View(), t, t.charged, targets);
        var lines := SettleLines(t, t.charged, a);
        if lines.None? {
          return Refused("payout shares");
        }
        var verdict := ledger.Post(SettleKey(id), lines.value);
        if verdict != Posted && verdict != Replayed {
          RefusedIsUnchanged(old(ledger.View()), SettleKey(id), lines.value);
          return LedgerRefused(verdict);
        }
      }
      sessions := sessions[id := t];
      outcome := Fine;
    }

    method Act(id: nat, op: Op, env: Env, targets: Targets) returns (outcome: Outcome)
      modifies this, ledger
      ensures View() == Step(old(View()), id, op, env, targets).0 && outcome == Step(old(View()), id, op, env, targets).1
    {
      hide Store, TakeStage, TakeRoot;
      if id !in sessions {
        return Refused("session_missing");
      }
      var s := sessions[id];
      var t, reply := s, Accepted;
      match op {
        case DoStage(i, mine, r) => t, reply := AcceptStage(s, i, mine, r, env);
        case DoRoot(mine, r) => t, reply := AcceptRoot(s, mine, r, env);
        case _ =>
          var r := Apply(s, op, env);
          t, reply := r.0, r.1;
      }
      if Error(reply) {
        return Refused("step");
      }
      outcome := Write(id, t, targets);
    }

    method Open(
      id: nat, user: nat, manifest: Manifest, maxOutput: int, pool: Option<nat>, now: int, quoted: bool, fits: bool, quota: bool)
      returns (outcome: Outcome)
      modifies this, ledger
      ensures View() == Create(old(View()), id, user, manifest, maxOutput, pool, now, quoted, fits, quota).0
           && outcome == Create(old(View()), id, user, manifest, maxOutput, pool, now, quoted, fits, quota).1
    {
      hide Posting, QuoteMaximum;
      if !quoted {
        return Refused("quote");
      }
      if !fits {
        return Refused("limits");
      }
      if |OpenSessions(View(), user)| >= 4 {
        return Refused("session_limit");
      }
      if !quota {
        return Refused("elastic_session_limit");
      }
      var maximum := QuoteMaximum(manifest, maxOutput);
      if maximum.None? {
        return Refused("quote");
      }
      var hold := maximum.value;
      if hold > 0 {
        var verdict := ledger.Post(HoldKey(id), [(Available(user), -hold), (HeldBy(user), hold)]);
        if verdict != Posted && verdict != Replayed {
          RefusedIsUnchanged(old(ledger.View()), HoldKey(id), [(Available(user), -hold), (HeldBy(user), hold)]);
          return LedgerRefused(verdict);
        }
      }
      sessions := sessions[id := Fresh(user, hold, manifest, maxOutput, pool, now)];
      outcome := Fine;
    }

    /** The first session in turn that could be served now, found by looking at every session once. */
    method NextInTurn(offers: seq<Offer>, eligible: (nat, nat) -> bool, now: int) returns (next: Option<nat>)
      ensures next.Some? ==> First(View(), offers, eligible, now, next.value)
      ensures next.None? ==> forall j :: !Servable(View(), offers, eligible, now, j)
    {
      var d := View();
      next := FirstOf(d, offers, eligible, now);
    }

    static method FirstOf(d: Desk, offers: seq<Offer>, eligible: (nat, nat) -> bool, now: int) returns (next: Option<nat>)
      ensures next.Some? ==> First(d, offers, eligible, now, next.value)
      ensures next.None? ==> forall j :: !Servable(d, offers, eligible, now, j)
    {
      hide Usable;
      next := None;
      var left := d.sessions.Keys;
      while left != {}
        invariant left <= d.sessions.Keys
        invariant next.Some? ==> Servable(d, offers, eligible, now, next.value)
        invariant forall j :: Servable(d, offers, eligible, now, j) && j !in left ==> next.Some? && Before(d, next.value, j)
        decreases |left|
      {
        var id :| id in left;
        if Servable(d, offers, eligible, now, id) && (next.None? || Before(d, id, next.value)) {
          next := Some(id);
        }
        left := left - {id};
      }
    }

    method AdmitNext(
      id: nat, offers: seq<Offer>, eligible: (nat, nat) -> bool, now: int, covered: bool, deadline: int, targets: Targets)
      returns (outcome: Outcome)
      modifies this, ledger
      ensures View() == Admit(old(View()), id, offers, eligible, now, covered, deadline, targets).0
           && outcome == Admit(old(View()), id, offers, eligible, now, covered, deadline, targets).1
    {
      hide Store, Servable, Before, Placed;
      if id !in sessions {
        return Refused("session_missing");
      }
      var s := sessions[id];
      if Terminal(s.phase) {
        return Fine;
      }
      if s.phase == Queued && s.queueDeadline < now {
        outcome := Write(id, Finalize(s, Interrupted, 0).0, targets);
        return;
      }
      if s.phase != Queued {
        return Refused("admission_state");
      }
      var next := NextInTurn(offers, eligible, now);
      OnlyOneIsFirst(View(), offers, eligible, now, id);
      if next != Some(id) {
        return Waiting;
      }
      if s.pool.Some? && !covered {
        return Refused("coverage_ended");
      }
      IsUsable(View(), offers, eligible, now, id);
      var k := Choose(View(), offers, eligible, id);
      sessions := sessions[id := Placed(s, offers[k], deadline)];
      lastAdmitted := lastAdmitted[s.user := now];
      outcome := Fine;
    }

    static lemma OnlyOneIsFirst(d: Desk, offers: seq<Offer>, eligible: (nat, nat) -> bool, now: int, id: nat)
      ensures forall j :: First(d, offers, eligible, now, j) && First(d, offers, eligible, now, id) ==> j == id
    {
      hide Usable;
    }

    static lemma IsUsable(d: Desk, offers: seq<Offer>, eligible: (nat, nat) -> bool, now: int, id: nat)
      requires Servable(d, offers, eligible, now, id)
      ensures exists i :: 0 <= i < |offers| && Usable(d, offers, eligible, id, i)
    {
    }

    static method Choose(d: Desk, offers: seq<Offer>, eligible: (nat, nat) -> bool, id: nat) returns (k: nat)
      requires exists i :: 0 <= i < |offers| && Usable(d, offers, eligible, id, i)
      ensures k == Choice(d, offers, eligible, id, 0) && k < |offers|
    {
      hide Usable;
      k := 0;
      while !Usable(d, offers, eligible, id, k)
        invariant exists i :: k <= i < |offers| && Usable(d, offers, eligible, id, i)
        invariant Choice(d, offers, eligible, id, k) == Choice(d, offers, eligible, id, 0)
        decreases |offers| - k
      {
        k := k + 1;
      }
    }
  }
}
