/**
 All sessions of the coordinator (apps/control-api/src/sessions.ts): creation with a hold, admission to physical
 slots in turn, and settlement in the books.
 */
module Desk {
  import opened Contracts
  import opened Journal
  import opened Sessions
  import opened Refill

  const FEE_BPS := 2000

  /** A complete route (or a single node) ready to serve, in the order in which the coordinator prefers them. */
  datatype Offer = Offer(domains: set<nat>, routed: bool, owner: nat, members: seq<Member>)

  datatype Desk = Desk(
    sessions: map<nat, Session>, books: Books, slots: map<nat, nat>, lastAdmitted: map<nat, int>)
  {
    function Turn(user: nat): int { if user in lastAdmitted then lastAdmitted[user] else 0 }
  }

  datatype Outcome = Fine | Waiting | Refused(why: string) | LedgerRefused(verdict: Verdict)

  predicate Active(p: Phase) { p == Preparing || p == Authorized || p == Running || p == Cancelling }

  // ---------------------------------------------------------------------------------------------
  // create

  function OpenSessions(d: Desk, user: nat): set<nat>
  {
    set id | id in d.sessions && d.sessions[id].user == user && !Terminal(d.sessions[id].phase)
  }

  function Fresh(user: nat, hold: int, manifest: Manifest, maxOutput: int, pool: Option<nat>, now: int): Session
  {
    Session(user, hold, manifest, maxOutput, pool, Queued, now, now + 120000, false, 0, false, false, 0, [], {}, None, 0)
  }

  /** `quoted`: the quote is current and matches; `fits`: the conversation fits its limits; `quota`: the elastic limit allows it. */
  ghost function Create(
    d: Desk, id: nat, user: nat, manifest: Manifest, maxOutput: int, pool: Option<nat>, now: int,
    quoted: bool, fits: bool, quota: bool): (Desk, Outcome)
  {
    if !quoted then (d, Refused("quote"))
    else if !fits then (d, Refused("limits"))
    else if |OpenSessions(d, user)| >= 4 then (d, Refused("session_limit"))
    else if !quota then (d, Refused("elastic_session_limit"))
    else
      match QuoteMaximum(manifest, maxOutput)
      case None => (d, Refused("quote"))
      case Some(hold) =>
        var sessions := d.sessions[id := Fresh(user, hold, manifest, maxOutput, pool, now)];
        if hold <= 0 then (d.(sessions := sessions), Fine)
        else
          var (books, verdict) := Posting(d.books, HoldKey(id), [(Available(user), -hold), (HeldBy(user), hold)]);
          if verdict == Posted || verdict == Replayed then (d.(sessions := sessions, books := books), Fine)
          else (d, LedgerRefused(verdict))
  }

  // ---------------------------------------------------------------------------------------------
  // Settlement

  function PayMembers(members: seq<Member>, parts: seq<int>): Entries
    requires |members| == |parts|
  {
    if members == [] then []
    else
      var n := |members| - 1;
      PayMembers(members[..n], parts[..n]) + [(Available(members[n].provider), parts[n])]
  }

  /** Where a charge goes: to the cooperative pool, or 20 per cent to the laboratory and the rest to the providers. */
  function Payout(s: Session, charge: int, a: Allocation): Entries
  {
    if charge <= 0 then []
    else if s.pool.Some? then
      var p := s.pool.value;
      [(PoolWorking(p), a.floor + a.working), (PoolReserve(p), a.reserve), (PoolBurn(p), a.burned)]
    else
      var fee := charge * FEE_BPS / WHOLE;
      if s.routed then PayMembers(s.members, Parts(charge - fee, Shares(s.members))) + [(LabWorking, fee)]
      else [(Available(s.owner), charge - fee), (LabWorking, fee)]
  }

  function SettleEntries(s: Session, charge: int, a: Allocation): Entries
  {
    [(HeldBy(s.user), -s.hold)] + ([(Available(s.user), s.hold - charge)] + Payout(s, charge, a))
  }

  /** The pool's targets at the time of the settlement. */
  datatype Targets = Targets(floor: int, working: int, reserve: int)

  function Allocated(b: Books, s: Session, charge: int, targets: Targets): Allocation
  {
    if s.pool.None? then Allocation(0, 0, 0, 0)
    else
      Recycle(charge, b.Balance(PoolWorking(s.pool.value)), b.Balance(PoolReserve(s.pool.value)),
              targets.floor, targets.working, targets.reserve)
  }

  /** Storing a session's new row, and settling it when it has just become terminal. */
  ghost function Store(d: Desk, id: nat, t: Session, targets: Targets): (Desk, Outcome)
    requires id in d.sessions
  {
    var s := d.sessions[id];
    var stored := d.(sessions := d.sessions[id := t]);
    if Terminal(s.phase) || !Terminal(t.phase) || t.hold <= 0 then (stored, Fine)
    else if t.routed && t.pool.None? && t.charged > 0
            && !Splittable(t.charged - t.charged * FEE_BPS / WHOLE, Shares(t.members)) then (d, Refused("payout shares"))
    else
      var entries := SettleEntries(t, t.charged, Allocated(d.books, t, t.charged, targets));
      var (books, verdict) := Posting(d.books, SettleKey(id), entries);
      if verdict == Posted || verdict == Replayed then (stored.(books := books), Fine) else (d, LedgerRefused(verdict))
  }

  ghost function Step(d: Desk, id: nat, op: Op, env: Env, targets: Targets): (Desk, Outcome)
  {
    if id !in d.sessions then (d, Refused("session_missing"))
    else
      var (t, reply) := Apply(d.sessions[id], op, env);
      if Error(reply) then (d, Refused("step")) else Store(d, id, t, targets)
  }

  // ---------------------------------------------------------------------------------------------
  // admit

  /** The sessions that occupy a domain now: a whole route uses one slot of each domain it touches. */
  function Occupants(d: Desk, domain: nat): set<nat>
  {
    set id | id in d.sessions && Active(d.sessions[id].phase) && domain in d.sessions[id].domains
  }

  predicate Room(d: Desk, domains: set<nat>)
  {
    forall x :: x in domains && x in d.slots ==> |Occupants(d, x)| < d.slots[x]
  }

  predicate Usable(d: Desk, offers: seq<Offer>, eligible: (nat, nat) -> bool, id: nat, k: nat)
  {
    k < |offers| && eligible(id, k) && Room(d, offers[k].domains)
  }

  /** A queued session in time that some offer could serve right now. */
  predicate Servable(d: Desk, offers: seq<Offer>, eligible: (nat, nat) -> bool, now: int, id: nat)
  {
    && id in d.sessions && d.sessions[id].phase == Queued && d.sessions[id].queueDeadline > now
    && exists k :: 0 <= k < |offers| && Usable(d, offers, eligible, id, k)
  }

  /** Whose turn: the user admitted longest ago, then the oldest session, then the identifier. */
  predicate Before(d: Desk, i: nat, j: nat)
    requires i in d.sessions && j in d.sessions
  {
    var (a, b) := (d.sessions[i], d.sessions[j]);
    var (x, y) := (d.Turn(a.user), d.Turn(b.user));
    x < y || (x == y && (a.created < b.created || (a.created == b.created && i <= j)))
  }

  ghost predicate First(d: Desk, offers: seq<Offer>, eligible: (nat, nat) -> bool, now: int, id: nat)
  {
    && Servable(d, offers, eligible, now, id)
    && forall j :: Servable(d, offers, eligible, now, j) ==> Before(d, id, j)
  }

  ghost function Choice(d: Desk, offers: seq<Offer>, eligible: (nat, nat) -> bool, id: nat, k: nat): (r: nat)
    requires exists i :: k <= i < |offers| && Usable(d, offers, eligible, id, i)
    ensures k <= r < |offers| && Usable(d, offers, eligible, id, r)
    decreases |offers| - k
  {
    if Usable(d, offers, eligible, id, k) then k else Choice(d, offers, eligible, id, k + 1)
  }

  function Placed(s: Session, offer: Offer, deadline: int): Session
  {
    s.(phase := Preparing, admitted := true, deadline := deadline, routed := offer.routed, owner := offer.owner,
       members := offer.members, domains := offer.domains)
  }

  ghost function Admit(
    d: Desk, id: nat, offers: seq<Offer>, eligible: (nat, nat) -> bool, now: int, covered: bool, deadline: int,
    targets: Targets): (Desk, Outcome)
  {
    if id !in d.sessions then (d, Refused("session_missing"))
    else
      var s := d.sessions[id];
      if Terminal(s.phase) then (d, Fine)
      else if s.phase == Queued && s.queueDeadline < now then Store(d, id, Finalize(s, Interrupted, 0).0, targets)
      else if s.phase != Queued then (d, Refused("admission_state"))
      else if !First(d, offers, eligible, now, id) then (d, Waiting)
      else if s.pool.Some? && !covered then (d, Refused("coverage_ended"))
      else
        var offer := offers[Choice(d, offers, eligible, id, 0)];
        (d.(sessions := d.sessions[id := Placed(s, offer, deadline)], lastAdmitted := d.lastAdmitted[s.user := now]), Fine)
  }
}
