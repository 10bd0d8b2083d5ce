/**
 The hours of the integrated economy study one after another (docs/planning/evidence/simulate_integrated_economy.py):
 contracting or defending, arrivals, the service rounds, the forged credit, and what holds at the end of every hour.
 */
module HourlyRuns {
  import opened HourlyPlan
  import opened MapSums
  import opened Quotients
  import HourlyState

  const WHOLE := 10000

  // ---------------------------------------------------------------------------------------------
  // What the study is given

  datatype Policy = Policy(
    accounts: nat, base: nat -> nat, large: nat -> bool, roles: nat, smallWork: nat, compactWork: nat, routeWork: nat,
    price: Model -> nat, longest: nat, patience: nat, divisor: nat, reserveHours: nat, recoveryHours: nat,
    reserveEnabled: bool, recyclingEnabled: bool, capBps: nat, donation: nat, dailyCost: nat, reserveDays: nat)

  predicate PolicyOk(p: Policy) { 0 < p.accounts && 0 < p.roles && 0 < p.divisor }

  datatype Desire = Desire(created: nat, owner: nat, work: nat)

  datatype Arrival = Quiet | Arrives(model: Model, work: nat)

  /** What an hour meets: who is online, in order of id, the ceiling of its capacity, and the outcome of every draw. */
  datatype Events = Events(
    online: seq<nat>, quorum: bool, donates: bool, coop: nat, ceiling: int, arrivals: nat -> Arrival,
    fails: (Desire, Model) -> bool, fraud: bool, detected: bool)

  ghost predicate EventsOk(e: Events)
  {
    e.coop <= WHOLE && forall i, j :: 0 <= i < j < |e.online| ==> e.online[i] < e.online[j]
  }

  // ---------------------------------------------------------------------------------------------
  // The minimum core

  /** The ids of the given kind, as `[p for p in providers if p.kind == …]`. */
  function Keep(ids: seq<nat>, large: nat -> bool, kind: bool): (kept: seq<nat>)
    ensures forall p :: p in kept <==> p in ids && large(p) == kind
  {
    if ids == [] then [] else (if large(ids[0]) == kind then [ids[0]] else []) + Keep(ids[1..], large, kind)
  }

  /** `[p for p in online if p not in core]` */
  function Others(online: seq<nat>, core: seq<nat>): (others: seq<nat>)
    ensures forall p :: p in others <==> p in online && p !in core
  {
    if online == [] then [] else (if online[0] in core then [] else [online[0]]) + Others(online[1..], core)
  }

  ghost predicate Distinct(ids: seq<nat>) { forall i, j :: 0 <= i < j < |ids| ==> ids[i] != ids[j] }

  lemma {:induction false} KeepDistinct(ids: seq<nat>, large: nat -> bool, kind: bool)
    requires Distinct(ids)
    ensures Distinct(Keep(ids, large, kind))
  {
    if ids != [] {
      assert forall i, j :: 0 <= i < j < |ids[1..]| ==> ids[1..][i] != ids[1..][j];
      KeepDistinct(ids[1..], large, kind);
      assert ids[0] !in ids[1..];
    }
  }

  lemma JoinDistinct(a: seq<nat>, b: seq<nat>)
    requires Distinct(a) && Distinct(b) && forall p :: p in a ==> p !in b
    ensures Distinct(a + b)
  {
    forall i, j | 0 <= i < j < |a + b| ensures (a + b)[i] != (a + b)[j] {
      if i < |a| <= j { assert b[j - |a|] in b && a[i] in a; }
    }
  }

  function Upto(ids: seq<nat>, n: nat): seq<nat> { if n <= |ids| then ids[..n] else ids }

  /** A small node and one complete large route when there are such; otherwise a large node alone. */
  function MinimumCore(online: seq<nat>, large: nat -> bool, roles: nat): seq<nat>
  {
    var smalls, larges := Keep(online, large, false), Keep(online, large, true);
    if |larges| >= roles then Upto(smalls, 1) + larges[..roles]
    else if smalls == [] then Upto(larges, 1)
    else Upto(smalls, 1)
  }

  lemma CoreIsOnline(online: seq<nat>, large: nat -> bool, roles: nat)
    requires Distinct(online) && 0 < roles
    ensures var core := MinimumCore(online, large, roles);
            Distinct(core) && (forall p :: p in core ==> p in online) && (core == [] <==> online == [])
  {
    var smalls, larges := Keep(online, large, false), Keep(online, large, true);
    KeepDistinct(online, large, false);
    KeepDistinct(online, large, true);
    assert forall i :: 0 <= i < |larges| ==> larges[i] in larges;
    assert forall i :: 0 <= i < |smalls| ==> smalls[i] in smalls;
    if |larges| >= roles { JoinDistinct(Upto(smalls, 1), larges[..roles]); }
    if online != [] { assert online[0] in smalls || online[0] in larges; }
  }

  /** The cheapest provider online, the first by id among equals. */
  function Cheapest(online: seq<nat>, base: nat -> nat): (r: seq<nat>)
    ensures |r| <= 1 && (r == [] <==> online == [])
    ensures r != [] ==> r[0] in online && forall p :: p in online ==> base(r[0]) <= base(p)
  {
    if online == [] then []
    else
      var rest := Cheapest(online[1..], base);
      if rest == [] || base(online[0]) <= base(rest[0]) then [online[0]] else rest
  }

  lemma {:induction false} OthersDistinct(online: seq<nat>, core: seq<nat>)
    requires Distinct(online)
    ensures Distinct(Others(online, core))
  {
    if online != [] {
      assert forall i, j :: 0 <= i < j < |online[1..]| ==> online[1..][i] != online[1..][j];
      OthersDistinct(online[1..], core);
      assert online[0] !in online[1..];
    }
  }

  lemma CoreAndOthers(online: seq<nat>, core: seq<nat>)
    requires Distinct(online) && Distinct(core)
    ensures Distinct(core + Others(online, core))
  {
    OthersDistinct(online, core);
    JoinDistinct(core, Others(online, core));
  }

  function Scaled(amount: nat, bps: nat): nat { amount * bps / WHOLE }

  lemma ScaledIsLess(amount: nat, bps: nat)
    requires bps <= WHOLE
    ensures Scaled(amount, bps) <= amount
  {
    Product(amount, bps, WHOLE);
    QuotientGrows(amount * bps, amount * WHOLE, WHOLE);
    Unique(amount * WHOLE, WHOLE, amount);
  }

  function Capacity(policy: Policy, active: seq<nat>, model: Model): nat
    requires 0 < policy.roles
  {
    var smalls, larges := |Keep(active, policy.large, false)|, |Keep(active, policy.large, true)|;
    match model
    case Compact => smalls * policy.smallWork + larges % policy.roles * policy.compactWork
    case Large => larges / policy.roles * policy.routeWork
  }

  // ---------------------------------------------------------------------------------------------
  // What holds between hours

  /** The assertions at the end of an hour. */
  ghost predicate Settled(s: State, accounts: nat)
  {
    && Audit(s) && s.committed == 0 && Continuity in s.balances && UsageHold in s.balances && ReserveHold in s.balances
    && s.balances[UsageHold] == 0 && s.balances[ReserveHold] == 0
    && forall i: nat :: i < accounts ==> Provider(i) in s.balances
  }

  function KeyHour(key: Key): nat { if key.Service? then key.batch.created else key.hour }

  ghost predicate KeysBefore(seen: set<Key>, hour: nat) { forall key :: key in seen ==> KeyHour(key) < hour }

  /** One owner's waiting requests for one model: in order of creation, and no batch of what is left of any was served before. */
  ghost predicate QueueOk(line: seq<Desire>, model: Model, owner: nat, seen: set<Key>, hour: nat)
  {
    && (forall i :: 0 <= i < |line| ==> line[i].created < hour)
    && (forall i, j :: 0 <= i < j < |line| ==> line[i].created < line[j].created)
    && forall key, i :: 0 <= i < |line| && key in seen && key.Service?
                        && key.batch.model == model && key.batch.owner == owner && key.batch.created == line[i].created ==>
                          line[i].work < key.batch.work
  }

  datatype Line = Line(model: Model, owner: nat)

  ghost predicate QueuesOk(queues: map<Line, seq<Desire>>, seen: set<Key>, hour: nat)
  {
    forall q :: q in queues ==> QueueOk(queues[q], q.model, q.owner, seen, hour)
  }

  /** What serving the requests of one hour may change. */
  ghost predicate Serves(s: State, t: State, target: int, hour: nat)
  {
    && s.seen <= t.seen && (forall key :: key in t.seen && key !in s.seen ==> key.Service? && key.batch.created < hour)
    && t.issued == s.issued && t.initial == s.initial && t.refunded == s.refunded && s.burned <= t.burned
    && (forall i :: t.Balance(Provider(i)) <= s.Balance(Provider(i)))
    && s.Balance(Continuity) <= t.Balance(Continuity) <= Max(target, s.Balance(Continuity))
  }

  lemma {:induction false} ServesTwice(s: State, t: State, u: State, target: int, hour: nat)
    requires Serves(s, t, target, hour) && Serves(t, u, target, hour)
    ensures Serves(s, u, target, hour)
  {
    forall i ensures u.Balance(Provider(i)) <= s.Balance(Provider(i)) {
      assert t.Balance(Provider(i)) <= s.Balance(Provider(i));
    }
  }

  /** After a batch of the first request in a line, every line is as fresh as before. */
  lemma {:induction false} BatchKeepsQueues(
    queues: map<Line, seq<Desire>>, q: Line, s: State, t: State, batch: Batch, rest: seq<Desire>, hour: nat)
    requires QueuesOk(queues, s.seen, hour) && q in queues && queues[q] != [] && ServesOnly(s, t, batch)
    requires batch == Batch(queues[q][0].created, q.owner, q.model, queues[q][0].work)
    requires rest == queues[q][1..] || (rest != [] && rest[1..] == queues[q][1..] && rest[0].created == queues[q][0].created
                                        && rest[0].work < queues[q][0].work)
    ensures QueuesOk(queues[q := rest], t.seen, hour)
  {
    hide Audit;
    var line := queues[q];
    assert QueueOk(line, q.model, q.owner, s.seen, hour);
    forall p | p in queues[q := rest] ensures QueueOk(queues[q := rest][p], p.model, p.owner, t.seen, hour) {
      if p == q {
        FreshRest(line, rest, q, s, t, batch, hour);
      } else {
        assert QueueOk(queues[p], p.model, p.owner, s.seen, hour);
      }
    }
  }

  lemma FreshRest(line: seq<Desire>, rest: seq<Desire>, q: Line, s: State, t: State, batch: Batch, hour: nat)
    requires QueueOk(line, q.model, q.owner, s.seen, hour) && line != [] && ServesOnly(s, t, batch)
    requires batch == Batch(line[0].created, q.owner, q.model, line[0].work)
    requires rest == line[1..] || (rest != [] && rest[1..] == line[1..] && rest[0].created == line[0].created && rest[0].work < line[0].work)
    ensures QueueOk(rest, q.model, q.owner, t.seen, hour)
  {
    hide Audit;
    var d := if rest == line[1..] then 1 else 0;
    assert forall i :: 0 <= i < |rest| ==> rest[i].created == line[i + d].created && (0 < i + d ==> rest[i] == line[i + d]) by {
      forall i | 0 <= i < |rest| ensures rest[i].created == line[i + d].created && (0 < i + d ==> rest[i] == line[i + d]) {
        if d == 0 && 0 < i { assert rest[i] == rest[1..][i - 1] == line[1..][i - 1]; }
      }
    }
    forall key, i | 0 <= i < |rest| && key in t.seen && key.Service?
                    && key.batch.model == q.model && key.batch.owner == q.owner && key.batch.created == rest[i].created
      ensures rest[i].work < key.batch.work
    {
      if key in s.seen { assert line[i + d].work < key.batch.work; }
    }
  }

  lemma FreshBatch(line: seq<Desire>, q: Line, seen: set<Key>, hour: nat)
    requires QueueOk(line, q.model, q.owner, seen, hour) && line != []
    ensures forall phase :: Service(Batch(line[0].created, q.owner, q.model, line[0].work), phase) !in seen
  {
  }

  lemma ServesOne(s: State, t: State, batch: Batch, target: int, hour: nat)
    requires ServesOnly(s, t, batch) && batch.created < hour
    requires t.Balance(Provider(batch.owner)) <= s.Balance(Provider(batch.owner))
    requires s.Balance(Continuity) <= t.Balance(Continuity) <= Max(target, s.Balance(Continuity))
    ensures Serves(s, t, target, hour)
  {
  }

  lemma ServedStaysSettled(s: State, t: State, batch: Batch, accounts: nat)
    requires Settled(s, accounts) && ServesOnly(s, t, batch) && Audit(t) && t.committed == s.committed
    ensures Settled(t, accounts)
  {
    hide Audit;
    assert t.Balance(UsageHold) == s.Balance(UsageHold) && t.Balance(ReserveHold) == s.Balance(ReserveHold);
    forall i: nat | i < accounts ensures Provider(i) in t.balances { assert Provider(i) in s.balances; }
  }

  /** The line once `chunk` of its first request was taken. */
  function After(line: seq<Desire>, chunk: nat): seq<Desire>
    requires line != [] && chunk <= line[0].work
  {
    if line[0].work == chunk then line[1..] else [line[0].(work := line[0].work - chunk)] + line[1..]
  }

  function LineOf(queues: map<Line, seq<Desire>>, q: Line): seq<Desire> { if q in queues then queues[q] else [] }
  function CreditOf(deficits: map<Line, nat>, q: Line): nat { if q in deficits then deficits[q] else 0 }

  /** What an arrival adds to a line. */
  function Newcomer(arrival: Arrival, q: Line, hour: nat): seq<Desire>
  {
    if arrival.Arrives? && arrival.model == q.model then [Desire(hour, q.owner, arrival.work)] else []
  }

  /** The work a line still asks for. */
  function Asked(line: seq<Desire>): nat { if line == [] then 0 else line[0].work + Asked(line[1..]) }

  /** What is left of a line when its overdue requests are given up. */
  predicate Patient(line: seq<Desire>, rest: seq<Desire>, hour: nat, patience: nat)
  {
    && |rest| <= |line| && rest == line[|line| - |rest|..]
    && (forall i :: 0 <= i < |line| - |rest| ==> line[i].created + patience <= hour)
    && (rest != [] ==> hour < rest[0].created + patience)
  }

  lemma AskedAfter(line: seq<Desire>, chunk: nat)
    requires line != [] && chunk <= line[0].work
    ensures Asked(After(line, chunk)) == Asked(line) - chunk
  {
    var rest := After(line, chunk);
    if line[0].work != chunk { assert rest[1..] == line[1..]; }
  }

  /** Everybody's requests are for some work. */
  predicate Earnest(line: seq<Desire>) { forall i :: 0 <= i < |line| ==> 0 < line[i].work }

  lemma EarnestAfter(line: seq<Desire>, chunk: nat)
    requires line != [] && chunk <= line[0].work && Earnest(line)
    ensures Earnest(After(line, chunk))
  {
  }

  /** What the lines of the first n owners ask for together. */
  function Total(queues: map<Line, seq<Desire>>, model: Model, n: nat): nat
  {
    if n == 0 then 0 else Total(queues, model, n - 1) + Asked(LineOf(queues, Line(model, n - 1)))
  }

  /** A line of real work that its owner can pay for entirely. */
  predicate Solvent(line: seq<Desire>, balance: int, price: nat) { Earnest(line) && Asked(line) * price <= balance }

  /**
   An owner's line, credit and balance after so many turns: it got at most one unit a turn beyond the credit it came with,
   and, while there is capacity left, at least one unit a turn or all it asked, when it can pay for all of it.
   */
  predicate Share(before: seq<Desire>, after: seq<Desire>, credit: nat, left: nat, balance: int, rest: int, price: nat, turns: nat, spare: bool)
  {
    && Asked(after) <= Asked(before) && Asked(before) - Asked(after) + left <= credit + turns
    && (Solvent(before, balance, price) ==>
          Solvent(after, rest, price) && (spare ==> Min(Asked(before), turns) <= Asked(before) - Asked(after)))
  }

  lemma ShareStarts(line: seq<Desire>, credit: nat, balance: int, price: nat)
    ensures Share(line, line, credit, credit, balance, balance, price, 0, true)
  {
  }

  /** Whose turn: how many owners come before this one, from the cursor on. */
  function TurnOf(owner: nat, cursor: nat, accounts: nat): int
    requires 0 < accounts
  {
    if owner >= cursor % accounts then owner - cursor % accounts else owner + accounts - cursor % accounts
  }

  lemma InTurn(cursor: nat, offset: nat, accounts: nat)
    requires offset < accounts
    ensures var c := cursor % accounts; (cursor + offset) % accounts == if c + offset < accounts then c + offset else c + offset - accounts
  {
    var c, q := cursor % accounts, cursor / accounts;
    Bounds(cursor, accounts);
    assert cursor == accounts * q + c;
    if c + offset < accounts {
      Unique(cursor + offset, accounts, q);
    } else {
      assert accounts * (q + 1) == accounts * q + accounts;
      Unique(cursor + offset, accounts, q + 1);
    }
  }

  lemma TurnComes(cursor: nat, offset: nat, accounts: nat)
    requires offset < accounts
    ensures forall o: nat :: o < accounts ==> (TurnOf(o, cursor, accounts) == offset <==> o == (cursor + offset) % accounts)
    ensures forall o: nat :: o < accounts ==> TurnOf(o, cursor, accounts) < accounts
  {
    InTurn(cursor, offset, accounts);
  }

  /** The lines, the credits and the ledger. */
  datatype Scene = Scene(queues: map<Line, seq<Desire>>, deficits: map<Line, nat>, s: State)

  predicate ShareOf(policy: Policy, model: Model, a: Scene, b: Scene, o: nat, turns: nat, spare: bool)
  {
    var q := Line(model, o);
    Share(LineOf(a.queues, q), LineOf(b.queues, q), CreditOf(a.deficits, q), CreditOf(b.deficits, q),
          a.s.Balance(Provider(o)), b.s.Balance(Provider(o)), policy.price(model), turns, spare)
  }

  /** Every owner has had its share of so many turns. */
  ghost predicate Fair(policy: Policy, model: Model, a: Scene, b: Scene, turns: nat, spare: bool)
  {
    forall o: nat :: o < policy.accounts ==> ShareOf(policy, model, a, b, o, turns, spare)
  }

  /** In the middle of a round: one turn more for those who already had theirs. */
  ghost predicate FairTurns(policy: Policy, model: Model, a: Scene, b: Scene, round: nat, cursor: nat, offset: nat, spare: bool)
    requires 0 < policy.accounts
  {
    forall o: nat :: o < policy.accounts ==>
      ShareOf(policy, model, a, b, o, if TurnOf(o, cursor, policy.accounts) < offset then round + 1 else round, spare)
  }

  lemma FairStarts(policy: Policy, model: Model, a: Scene)
    ensures Fair(policy, model, a, a, 0, true) && Fair(policy, model, a, a, 0, false)
  {
    forall o: nat | o < policy.accounts ensures ShareOf(policy, model, a, a, o, 0, true) && ShareOf(policy, model, a, a, o, 0, false) {
      var q := Line(model, o);
      ShareStarts(LineOf(a.queues, q), CreditOf(a.deficits, q), a.s.Balance(Provider(o)), policy.price(model));
    }
  }

  lemma RoundStarts(policy: Policy, model: Model, a: Scene, b: Scene, round: nat, cursor: nat, spare: bool)
    requires 0 < policy.accounts && Fair(policy, model, a, b, round, spare)
    ensures FairTurns(policy, model, a, b, round, cursor, 0, spare)
  {
    hide ShareOf;
    forall o: nat | o < policy.accounts ensures TurnOf(o, cursor, policy.accounts) >= 0 { }
  }

  lemma RoundEnds(policy: Policy, model: Model, a: Scene, b: Scene, round: nat, cursor: nat, spare: bool)
    requires 0 < policy.accounts && FairTurns(policy, model, a, b, round, cursor, policy.accounts, spare)
    ensures Fair(policy, model, a, b, round + 1, spare)
  {
    hide ShareOf, TurnOf;
    TurnComes(cursor, 0, policy.accounts);
    var next: nat := round + 1;
    forall o: nat | o < policy.accounts ensures ShareOf(policy, model, a, b, o, next, spare) {
      assert TurnOf(o, cursor, policy.accounts) < policy.accounts;
    }
  }

  /** When the capacity is used up early, the turns that were not taken would have given nothing. */
  lemma FairAtLast(policy: Policy, model: Model, a: Scene, b: Scene, round: nat, spare: bool)
    requires Fair(policy, model, a, b, round, spare) && round <= policy.longest + 1
    requires round < policy.longest + 1 ==> !spare
    ensures Fair(policy, model, a, b, policy.longest + 1, spare)
  {
    hide Solvent, Asked;
    var last: nat := policy.longest + 1;
    forall o: nat | o < policy.accounts ensures ShareOf(policy, model, a, b, o, last, spare) {
      assert ShareOf(policy, model, a, b, o, round, spare);
    }
  }

  /** What one turn does, as `ServeNext` says. */
  ghost predicate TurnTaken(policy: Policy, q: Line, b: Scene, c: Scene, remaining: nat, left: nat)
  {
    var line, credit := LineOf(b.queues, q), Min(policy.longest + 1, CreditOf(b.deficits, q) + 1);
    var chunk := if line == [] then 0 else Min(line[0].work, Min(remaining, credit));
    var pays := line != [] && 0 < chunk && chunk * policy.price(q.model) <= b.s.Balance(Provider(q.owner));
    && left == remaining - (if pays then chunk else 0)
    && CreditOf(c.deficits, q) == (if line == [] then 0 else if pays then credit - chunk else credit)
    && LineOf(c.queues, q) == (if pays then After(line, chunk) else line)
    && c.s.Balance(Provider(q.owner)) >= b.s.Balance(Provider(q.owner)) - (if pays then chunk * policy.price(q.model) else 0)
    && (forall p: Line :: p != q ==> LineOf(c.queues, p) == LineOf(b.queues, p) && CreditOf(c.deficits, p) == CreditOf(b.deficits, p))
    && (forall i :: i != q.owner ==> c.s.Balance(Provider(i)) == b.s.Balance(Provider(i)))
  }

  lemma TurnShares(policy: Policy, q: Line, a: Scene, b: Scene, c: Scene, turns: nat, remaining: nat, left: nat)
    requires ShareOf(policy, q.model, a, b, q.owner, turns, remaining > 0) && TurnTaken(policy, q, b, c, remaining, left)
    ensures ShareOf(policy, q.model, a, c, q.owner, turns + 1, left > 0)
  {
    hide After, Earnest, Share, Solvent;
    var line, credit := LineOf(b.queues, q), Min(policy.longest + 1, CreditOf(b.deficits, q) + 1);
    var price, first, before := policy.price(q.model), LineOf(a.queues, q), CreditOf(a.deficits, q);
    var owned, has, keeps := a.s.Balance(Provider(q.owner)), b.s.Balance(Provider(q.owner)), c.s.Balance(Provider(q.owner));
    var chunk := if line == [] then 0 else Min(line[0].work, Min(remaining, credit));
    if line != [] && 0 < chunk && chunk * price <= has {
      PaidShare(first, line, before, CreditOf(b.deficits, q), credit, chunk, owned, has, keeps, price, turns, remaining, left);
    } else {
      UnpaidShare(first, line, before, CreditOf(b.deficits, q), credit, CreditOf(c.deficits, q), owned, has, keeps, price, turns,
                  remaining, chunk);
    }
  }

  /** A turn that served the front of the line. */
  lemma PaidShare(
    first: seq<Desire>, line: seq<Desire>, before: nat, carried: nat, credit: nat, chunk: nat, owned: int, has: int, keeps: int,
    price: nat, turns: nat, remaining: nat, left: nat)
    requires Share(first, line, before, carried, owned, has, price, turns, remaining > 0) && credit <= carried + 1
    requires line != [] && 0 < chunk <= credit && chunk <= line[0].work && chunk * price <= has
    requires left == remaining - chunk && keeps >= has - chunk * price
    ensures Share(first, After(line, chunk), before, credit - chunk, owned, keeps, price, turns + 1, left > 0)
  {
    hide After, Earnest;
    AskedFirst(line);
    AskedAfter(line, chunk);
    if Earnest(line) { EarnestAfter(line, chunk); }
    assert (Asked(line) - chunk) * price == Asked(line) * price - chunk * price;
  }

  /** A turn that served nothing. */
  lemma UnpaidShare(
    first: seq<Desire>, line: seq<Desire>, before: nat, carried: nat, credit: nat, rest: nat, owned: int, has: int, keeps: int,
    price: nat, turns: nat, remaining: nat, chunk: nat)
    requires Share(first, line, before, carried, owned, has, price, turns, remaining > 0) && rest <= credit <= carried + 1 && 0 < credit
    requires keeps >= has && chunk == (if line == [] then 0 else Min(line[0].work, Min(remaining, credit)))
    requires line == [] || chunk == 0 || has < chunk * price
    ensures Share(first, line, before, rest, owned, keeps, price, turns + 1, remaining > 0)
  {
    hide Earnest;
    if line != [] && remaining > 0 && Solvent(first, owned, price) {
      AskedFirst(line);
      WorkIsPositive(line);
      Product(price, chunk, Asked(line));
    }
  }

  lemma AskedFirst(line: seq<Desire>)
    requires line != []
    ensures line[0].work <= Asked(line)
  {
  }

  lemma WorkIsPositive(line: seq<Desire>)
    requires line != [] && Earnest(line)
    ensures 0 < line[0].work
  {
  }

  lemma OneTurn(
    policy: Policy, model: Model, a: Scene, b: Scene, c: Scene, round: nat, cursor: nat, offset: nat, remaining: nat, left: nat)
    requires PolicyOk(policy) && offset < policy.accounts
    requires FairTurns(policy, model, a, b, round, cursor, offset, remaining > 0)
    requires TurnTaken(policy, Line(model, (cursor + offset) % policy.accounts), b, c, remaining, left)
    ensures FairTurns(policy, model, a, c, round, cursor, offset + 1, left > 0)
    ensures Total(b.queues, model, policy.accounts) - Total(c.queues, model, policy.accounts) == remaining - left
  {
    hide ShareOf, TurnOf, Total, TurnTaken;
    var owner := (cursor + offset) % policy.accounts;
    var q := Line(model, owner);
    TurnComes(cursor, offset, policy.accounts);
    InTurn(cursor, offset, policy.accounts);
    assert owner < policy.accounts && TurnOf(owner, cursor, policy.accounts) == offset;
    forall o: nat | o < policy.accounts
      ensures ShareOf(policy, model, a, c, o, if TurnOf(o, cursor, policy.accounts) < offset + 1 then round + 1 else round, left > 0)
    {
      if o == owner {
        TurnShares(policy, q, a, b, c, round, remaining, left);
      } else {
        OthersShare(policy, q, a, b, c, o, if TurnOf(o, cursor, policy.accounts) < offset then round + 1 else round, remaining, left);
      }
    }
    TotalAfter(policy, q, b, c, remaining, left, policy.accounts);
  }

  lemma OthersShare(policy: Policy, q: Line, a: Scene, b: Scene, c: Scene, o: nat, turns: nat, remaining: nat, left: nat)
    requires ShareOf(policy, q.model, a, b, o, turns, remaining > 0) && TurnTaken(policy, q, b, c, remaining, left) && o != q.owner
    ensures ShareOf(policy, q.model, a, c, o, turns, left > 0)
  {
    hide Solvent, Asked, After, LineOf, CreditOf;
  }

  lemma {:induction false} TotalAfter(policy: Policy, q: Line, b: Scene, c: Scene, remaining: nat, left: nat, n: nat)
    requires TurnTaken(policy, q, b, c, remaining, left)
    ensures Total(b.queues, q.model, n) - Total(c.queues, q.model, n) == if q.owner < n then remaining - left else 0
    decreases n
  {
    hide After, LineOf, CreditOf;
    if n > 0 {
      TotalAfter(policy, q, b, c, remaining, left, n - 1);
      if q.owner == n - 1 {
        var line, credit := LineOf(b.queues, q), Min(policy.longest + 1, CreditOf(b.deficits, q) + 1);
        if line != [] { AskedAfter(line, Min(line[0].work, Min(remaining, credit))); }
      }
    }
  }

  // ---------------------------------------------------------------------------------------------
  // Waiting requests and the service rounds

  class Waiting {
    const policy: Policy
    const tu: Ledger
    const plan: Hour
    var queues: map<Line, seq<Desire>>
    var deficits: map<Line, nat>
    var cursors: map<Model, nat>

    constructor (policy: Policy, tu: Ledger)
      ensures this.policy == policy && this.tu == tu && fresh(plan) && plan.tu == tu
      ensures queues == map[] && deficits == map[] && cursors == map[Compact := 0, Large := 0]
    {
      this.policy := policy;
      this.tu := tu;
      plan := new Hour(tu);
      queues, deficits, cursors := map[], map[], map[Compact := 0, Large := 0];
    }

    ghost predicate Ok(hour: nat)
      reads this, tu
    {
      && plan.tu == tu && PolicyOk(policy) && Compact in cursors && Large in cursors
      && Settled(tu.s, policy.accounts) && KeysBefore(tu.s.seen, hour) && QueuesOk(queues, tu.s.seen, hour)
    }

    /** One request of one line: as much of it as capacity and deficit allow, when its owner can pay. */
    method ServeNext(q: Line, remaining: nat, target: int, fails: (Desire, Model) -> bool, hour: nat) returns (left: nat)
      requires Ok(hour) && q.owner < policy.accounts
      modifies this`queues, this`deficits, tu
      ensures Ok(hour) && Serves(old(tu.s), tu.s, target, hour) && left <= remaining
      ensures left == remaining ==> tu.s == old(tu.s) && queues == old(queues)
      ensures TurnTaken(policy, q, old(View()), View(), remaining, left)
      ensures left < remaining ==>
                && q in old(queues) && old(queues)[q] != []
                && (var request := old(queues)[q][0]; var chunk := remaining - left;
                    && chunk <= request.work
                    && queues == old(queues)[q := After(old(queues)[q], chunk)]
                    && tu.s.Balance(Provider(q.owner))
                       == old(tu.s).Balance(Provider(q.owner)) - if fails(request, q.model) then 0 else chunk * policy.price(q.model))
    {
      hide Settled, QueuesOk, Serves, After, TurnTaken, KeysBefore, PolicyOk, Earnest;
      ghost var scene := View();
      left := remaining;
      SameServes(tu.s, target, hour);
      if q !in queues || queues[q] == [] {
        deficits := deficits[q := 0];
        NobodyTakes(policy, q, scene, View(), remaining);
        return;
      }
      var credit: nat := Min(policy.longest + 1, CreditOf(deficits, q) + 1);
      var chunk := ServeFirst(q, remaining, credit, target, fails, hour);
      deficits := deficits[q := credit - chunk];
      left := remaining - chunk;
      TurnIs(policy, q, scene, View(), remaining, chunk);
    }

    /** As much of the first request of a line as capacity and credit allow, when its owner can pay for that. */
    method ServeFirst(q: Line, remaining: nat, credit: nat, target: int, fails: (Desire, Model) -> bool, hour: nat) returns (chunk: nat)
      requires Ok(hour) && q.owner < policy.accounts && q in queues && queues[q] != []
      modifies this`queues, tu
      ensures Ok(hour) && Serves(old(tu.s), tu.s, target, hour)
      ensures var most := Min(old(queues)[q][0].work, Min(remaining, credit));
              chunk == if 0 < most && most * policy.price(q.model) <= old(tu.s).Balance(Provider(q.owner)) then most else 0
      ensures if chunk == 0 then tu.s == old(tu.s) && queues == old(queues)
              else
                && chunk <= old(queues)[q][0].work && queues == old(queues)[q := After(old(queues)[q], chunk)]
                && tu.s.Balance(Provider(q.owner))
                   == old(tu.s).Balance(Provider(q.owner)) - if fails(old(queues)[q][0], q.model) then 0 else chunk * policy.price(q.model)
      ensures forall i :: i != q.owner ==> tu.s.Balance(Provider(i)) == old(tu.s).Balance(Provider(i))
    {
      hide Settled, QueuesOk, Serves, After, KeysBefore;
      SameServes(tu.s, target, hour);
      var request := queues[q][0];
      chunk := Min(request.work, Min(remaining, credit));
      SettledAccounts(tu.s, policy.accounts, q.owner);
      if chunk == 0 || tu.s.balances[Provider(q.owner)] < chunk * policy.price(q.model) {
        return 0;
      }
      ServeChunk(q, chunk, target, fails(request, q.model), hour);
    }

    static lemma NobodyTakes(policy: Policy, q: Line, b: Scene, c: Scene, remaining: nat)
      requires LineOf(b.queues, q) == [] && c == b.(deficits := b.deficits[q := 0])
      ensures TurnTaken(policy, q, b, c, remaining, remaining)
    {
    }

    static lemma TurnIs(policy: Policy, q: Line, b: Scene, c: Scene, remaining: nat, chunk: nat)
      requires LineOf(b.queues, q) != []
      requires var line, credit := LineOf(b.queues, q), Min(policy.longest + 1, CreditOf(b.deficits, q) + 1);
               var most := Min(line[0].work, Min(remaining, credit));
               && chunk == (if 0 < most && most * policy.price(q.model) <= b.s.Balance(Provider(q.owner)) then most else 0)
               && c.deficits == b.deficits[q := credit - chunk]
               && c.queues == (if chunk == 0 then b.queues else b.queues[q := After(line, chunk)])
      requires c.s.Balance(Provider(q.owner)) >= b.s.Balance(Provider(q.owner)) - chunk * policy.price(q.model)
      requires forall i :: i != q.owner ==> c.s.Balance(Provider(i)) == b.s.Balance(Provider(i))
      ensures TurnTaken(policy, q, b, c, remaining, remaining - chunk)
    {
      hide After;
    }

    /** The batch taken from the first request of a line. */
    method ServeChunk(q: Line, chunk: nat, target: int, failed: bool, hour: nat)
      requires Ok(hour) && q.owner < policy.accounts && q in queues && queues[q] != [] && 0 < chunk <= queues[q][0].work
      requires Provider(q.owner) in tu.s.balances && chunk * policy.price(q.model) <= tu.s.balances[Provider(q.owner)]
      modifies this`queues, tu
      ensures Ok(hour) && Serves(old(tu.s), tu.s, target, hour)
      ensures queues == old(queues)[q := After(old(queues)[q], chunk)]
      ensures tu.s.Balance(Provider(q.owner))
              == old(tu.s).Balance(Provider(q.owner)) - if failed then 0 else chunk * policy.price(q.model)
      ensures forall i :: i != q.owner ==> tu.s.Balance(Provider(i)) == old(tu.s).Balance(Provider(i))
    {
      hide Settled, QueuesOk, Serves, Audit;
      var request := queues[q][0];
      var batch := Batch(request.created, q.owner, q.model, request.work);
      var rest := After(queues[q], chunk);
      SettledAccounts(tu.s, policy.accounts, q.owner);
      LineOk(queues, q, tu.s.seen, hour);
      FreshBatch(queues[q], q, tu.s.seen, hour);
      CostIsNatural(chunk, policy.price(q.model));
      ghost var s := tu.s;
      plan.ServeBatch(batch, chunk * policy.price(q.model), failed, policy.recyclingEnabled && policy.reserveEnabled, target);
      ServesOne(s, tu.s, batch, target, hour);
      ServedStaysSettled(s, tu.s, batch, policy.accounts);
      BatchKeepsQueues(queues, q, s, tu.s, batch, rest, hour);
      KeysStay(s, tu.s, batch, hour);
      queues := queues[q := rest];
    }

    static lemma CostIsNatural(chunk: nat, price: nat)
      ensures 0 <= chunk * price
    {
    }

    static lemma SameServes(s: State, target: int, hour: nat)
      ensures Serves(s, s, target, hour)
    {
    }

    static lemma LineOk(queues: map<Line, seq<Desire>>, q: Line, seen: set<Key>, hour: nat)
      requires QueuesOk(queues, seen, hour) && q in queues
      ensures QueueOk(queues[q], q.model, q.owner, seen, hour)
    {
    }

    static lemma SettledAccounts(s: State, accounts: nat, i: nat)
      requires Settled(s, accounts) && i < accounts
      ensures Audit(s) && Provider(i) in s.balances && Continuity in s.balances && UsageHold in s.balances
    {
      hide Audit;
    }

    static lemma KeysStay(s: State, t: State, batch: Batch, hour: nat)
      requires KeysBefore(s.seen, hour) && ServesOnly(s, t, batch) && batch.created < hour
      ensures KeysBefore(t.seen, hour)
    {
      forall key | key in t.seen ensures KeyHour(key) < hour { assert key in s.seen || key.batch == batch; }
    }

    ghost function View(): Scene
      reads this, tu
    {
      Scene(queues, deficits, tu.s)
    }

    /**
     The rounds of one model: every owner's line in turn, from the cursor on, until the capacity is used up. Nobody gets
     more than one unit a round beyond the credit it came with; and capacity is left over only after everybody who can
     pay for all it asks got a unit in each of the rounds, or all it asked.
     */
    method Serve(model: Model, capacity: nat, target: int, fails: (Desire, Model) -> bool, hour: nat) returns (executed: nat)
      requires Ok(hour)
      modifies this`queues, this`deficits, this`cursors, tu
      ensures Ok(hour) && Serves(old(tu.s), tu.s, target, hour) && executed <= capacity
      ensures Fair(policy, model, old(View()), View(), policy.longest + 1, executed < capacity)
      ensures executed == Total(old(queues), model, policy.accounts) - Total(queues, model, policy.accounts)
      ensures forall q: Line :: q.model != model ==> LineOf(queues, q) == LineOf(old(queues), q)
    {
      hide Settled, QueuesOk, Serves, KeysBefore, FairTurns, Fair, Total, LineOf;
      var remaining: nat := capacity;
      SameServes(tu.s, target, hour);
      FairStarts(policy, model, View());
      var round: nat := 0;
      while round < policy.longest + 1 && remaining != 0
        invariant round <= policy.longest + 1 && remaining <= capacity
        invariant Ok(hour) && Serves(old(tu.s), tu.s, target, hour)
        invariant Fair(policy, model, old(View()), View(), round, remaining > 0)
        invariant capacity - remaining == Total(old(queues), model, policy.accounts) - Total(queues, model, policy.accounts)
        invariant forall q: Line :: q.model != model ==> LineOf(queues, q) == LineOf(old(queues), q)
        decreases policy.longest + 1 - round
      {
        var cursor := cursors[model];
        var offset: nat := 0;
        RoundStarts(policy, model, old(View()), View(), round, cursor, remaining > 0);
        while offset < policy.accounts
          invariant offset <= policy.accounts && remaining <= capacity && model in cursors && cursors[model] == cursor
          invariant Ok(hour) && Serves(old(tu.s), tu.s, target, hour)
          invariant FairTurns(policy, model, old(View()), View(), round, cursor, offset, remaining > 0)
          invariant capacity - remaining == Total(old(queues), model, policy.accounts) - Total(queues, model, policy.accounts)
          invariant forall q: Line :: q.model != model ==> LineOf(queues, q) == LineOf(old(queues), q)
        {
          ghost var scene, before := View(), remaining;
          var owner := (cursor + offset) % policy.accounts;
          remaining := ServeNext(Line(model, owner), remaining, target, fails, hour);
          ServesTwice(old(tu.s), scene.s, tu.s, target, hour);
          OneTurn(policy, model, old(View()), scene, View(), round, cursor, offset, before, remaining);
          offset := offset + 1;
        }
        RoundEnds(policy, model, old(View()), View(), round, cursor, remaining > 0);
        cursors := cursors[model := (cursors[model] + 1) % policy.accounts];
        round := round + 1;
      }
      executed := capacity - remaining;
      FairAtLast(policy, model, old(View()), View(), round, remaining > 0);
    }

    /** Requests that waited too long are given up. */
    method Abandon(model: Model, hour: nat)
      requires Ok(hour + 1)
      modifies this`queues
      ensures Ok(hour + 1)
      ensures forall o: nat :: o < policy.accounts ==>
                Patient(LineOf(old(queues), Line(model, o)), LineOf(queues, Line(model, o)), hour, policy.patience)
      ensures forall q: Line :: q.model != model || q.owner >= policy.accounts ==> LineOf(queues, q) == LineOf(old(queues), q)
    {
      hide Settled, QueuesOk, Patient;
      var owner := 0;
      while owner < policy.accounts
        invariant 0 <= owner <= policy.accounts && Ok(hour + 1)
        invariant forall o: nat :: o < owner ==>
                    Patient(LineOf(old(queues), Line(model, o)), LineOf(queues, Line(model, o)), hour, policy.patience)
        invariant forall q: Line :: q.model != model || q.owner >= owner ==> LineOf(queues, q) == LineOf(old(queues), q)
      {
        AbandonLine(Line(model, owner), hour);
        owner := owner + 1;
      }
    }

    /** One owner gives up the requests at the front of its line that waited too long. */
    method AbandonLine(q: Line, hour: nat)
      requires Ok(hour + 1)
      modifies this`queues
      ensures Ok(hour + 1) && Patient(LineOf(old(queues), q), LineOf(queues, q), hour, policy.patience)
      ensures forall p: Line :: p != q ==> LineOf(queues, p) == LineOf(old(queues), p)
    {
      hide Settled, QueuesOk;
      ghost var line := LineOf(queues, q);
      while q in queues && queues[q] != [] && hour - queues[q][0].created >= policy.patience
        invariant Ok(hour + 1) && forall p: Line :: p != q ==> LineOf(queues, p) == LineOf(old(queues), p)
        invariant var rest := LineOf(queues, q);
                  && |rest| <= |line| && rest == line[|line| - |rest|..]
                  && forall i :: 0 <= i < |line| - |rest| ==> line[i].created + policy.patience <= hour
        decreases if q in queues then |queues[q]| else 0
      {
        ShorterQueue(queues, q, tu.s.seen, hour + 1);
        queues := queues[q := queues[q][1..]];
      }
    }

    static lemma ShorterQueue(queues: map<Line, seq<Desire>>, q: Line, seen: set<Key>, hour: nat)
      requires QueuesOk(queues, seen, hour) && q in queues && queues[q] != []
      ensures QueuesOk(queues[q := queues[q][1..]], seen, hour)
    {
      hide QueueOk;
      ShorterLine(queues[q], q, seen, hour);
    }

    static lemma ShorterLine(line: seq<Desire>, q: Line, seen: set<Key>, hour: nat)
      requires QueueOk(line, q.model, q.owner, seen, hour) && line != []
      ensures QueueOk(line[1..], q.model, q.owner, seen, hour)
    {
      forall i | 0 <= i < |line[1..]| ensures line[1..][i] == line[i + 1] { }
      forall key, i | 0 <= i < |line[1..]| && key in seen && key.Service?
                      && key.batch.model == q.model && key.batch.owner == q.owner && key.batch.created == line[1..][i].created
        ensures line[1..][i].work < key.batch.work
      {
        assert line[1..][i] == line[i + 1];
      }
    }

    /** Every owner may ask for one piece of work an hour. */
    method Arrive(arrivals: nat -> Arrival, hour: nat)
      requires plan.tu == tu && PolicyOk(policy) && Compact in cursors && Large in cursors
      requires Settled(tu.s, policy.accounts) && KeysBefore(tu.s.seen, hour + 1) && QueuesOk(queues, tu.s.seen, hour)
      requires forall key :: key in tu.s.seen && key.Service? ==> key.batch.created < hour
      modifies this`queues
      ensures Ok(hour + 1)
      ensures forall q: Line :: q.owner < policy.accounts ==>
                LineOf(queues, q) == LineOf(old(queues), q) + Newcomer(arrivals(q.owner), q, hour)
      ensures forall q: Line :: q.owner >= policy.accounts ==> LineOf(queues, q) == LineOf(old(queues), q)
    {
      hide Settled, KeysBefore, QueueOk;
      ghost var before := queues;
      EmptyLines(tu.s.seen, hour);
      LaterQueues(queues, tu.s.seen, hour);
      var owner := 0;
      while owner < policy.accounts
        invariant 0 <= owner <= policy.accounts
        invariant forall q :: q in queues && owner <= q.owner ==> QueueOk(queues[q], q.model, q.owner, tu.s.seen, hour)
        invariant QueuesOk(queues, tu.s.seen, hour + 1)
        invariant forall q: Line :: q.owner < owner ==> LineOf(queues, q) == LineOf(before, q) + Newcomer(arrivals(q.owner), q, hour)
        invariant forall q: Line :: q.owner >= owner ==> LineOf(queues, q) == LineOf(before, q)
      {
        var arrival := arrivals(owner);
        if arrival.Arrives? {
          var q := Line(arrival.model, owner);
          var line := LineOf(queues, q);
          LongerLine(line, q, tu.s.seen, hour, arrival.work);
          queues := queues[q := line + [Desire(hour, owner, arrival.work)]];
        }
        owner := owner + 1;
      }
    }

    static lemma LaterQueues(queues: map<Line, seq<Desire>>, seen: set<Key>, hour: nat)
      requires QueuesOk(queues, seen, hour)
      ensures QueuesOk(queues, seen, hour + 1)
    {
      forall q | q in queues ensures QueueOk(queues[q], q.model, q.owner, seen, hour + 1) {
        assert QueueOk(queues[q], q.model, q.owner, seen, hour);
      }
    }

    static lemma EmptyLines(seen: set<Key>, hour: nat)
      ensures forall q: Line :: QueueOk([], q.model, q.owner, seen, hour)
    {
    }

    static lemma LongerLine(line: seq<Desire>, q: Line, seen: set<Key>, hour: nat, work: nat)
      requires QueueOk(line, q.model, q.owner, seen, hour)
      requires forall key :: key in seen && key.Service? ==> key.batch.created < hour
      ensures QueueOk(line + [Desire(hour, q.owner, work)], q.model, q.owner, seen, hour + 1)
    {
    }
  }
}
