/** Taking up a route's window with all of its providers in one transaction (renewals.ts over acceptTransaction). */
module Acceptances {
  import opened Journal
  import opened RouteLease
  import opened LeaseSafety
  import Contracts

  /** What one acceptance sees: two clock readings, whether the capacities are free, and the nodes. */
  datatype Look = Look(checked: int, now: int, free: bool, up: nat -> bool, epoch: nat -> int, intact: bool)

  function SightOf(look: Look, n: nat): (s: Sight)
    ensures |s.up| == n == |s.epochs|
  {
    Sight(seq(n, i requires 0 <= i => look.up(i)), seq(n, i requires 0 <= i => look.epoch(i)), look.intact)
  }

  /** One provider after another accepts; the first refusal aborts the whole transaction. */
  function AcceptAll(d: Deal, users: seq<nat>, looks: nat -> Look, k: nat, supportUntil: int): (Deal, Reply)
    decreases |users|
  {
    if users == [] then (d, Done)
    else
      var (next, reply) := AcceptOne(d, users[0], looks(k), supportUntil);
      if Refusal(reply) then (d, reply) else AcceptAll(next, users[1..], looks, k + 1, supportUntil)
  }

  function AcceptOne(d: Deal, user: nat, look: Look, supportUntil: int): (Deal, Reply)
  {
    Accept(d, user, true, look.checked, look.free, look.now, look.now + d.lease.Span() <= supportUntil,
           SightOf(look, |d.lease.members|))
  }

  function ProviderSet(members: seq<Member>): set<nat> { set m | m in members :: m.provider }

  ghost predicate Distinct(users: seq<nat>) { forall i, j :: 0 <= i < j < |users| ==> users[i] != users[j] }

  /** Exactly these providers are still to accept, each once. */
  ghost predicate Awaits(l: Lease, users: seq<nat>)
  {
    && l.phase == Offered && Distinct(users)
    && (forall u :: u in users ==> u !in l.accepted)
    && (forall u :: u in ProviderSet(l.members) <==> u in users || u in l.accepted)
  }

  /** Everything about a lease but its acceptances, its phase, its times and its nodes' presence. */
  predicate SameTerms(a: Lease, b: Lease)
  {
    && b.id == a.id && b.budget == a.budget && b.duration == a.duration && b.refundTo == a.refundTo && b.sponsor == a.sponsor
    && |b.members| == |a.members|
    && forall i :: 0 <= i < |a.members| ==>
         b.members[i].provider == a.members[i].provider && b.members[i].domain == a.members[i].domain
         && b.members[i].maximum == a.members[i].maximum
  }

  lemma AllIsNobodyLeft(l: Lease)
    ensures l.AllAccepted() <==> forall u :: u in ProviderSet(l.members) ==> u in l.accepted
    ensures forall u: nat :: l.Provider(u) <==> u in ProviderSet(l.members)
  {
    if l.AllAccepted() {
      forall u | u in ProviderSet(l.members) ensures u in l.accepted {
        var m :| m in l.members && m.provider == u;
        var i :| 0 <= i < |l.members| && l.members[i] == m;
      }
    }
    forall i | 0 <= i < |l.members| ensures l.members[i].provider in ProviderSet(l.members) { assert l.members[i] in l.members; }
    forall u: nat ensures l.Provider(u) <==> u in ProviderSet(l.members) {
      if u in ProviderSet(l.members) {
        var m :| m in l.members && m.provider == u;
        var i :| 0 <= i < |l.members| && l.members[i] == m;
      }
    }
  }

  lemma SameProviders(a: seq<Member>, b: seq<Member>)
    requires |a| == |b| && forall i :: 0 <= i < |a| ==> a[i].provider == b[i].provider
    ensures ProviderSet(a) == ProviderSet(b)
  {
    forall p ensures p in ProviderSet(a) <==> p in ProviderSet(b) {
      if p in ProviderSet(a) {
        var m :| m in a && m.provider == p;
        var i :| 0 <= i < |a| && a[i] == m;
        assert b[i] in b;
      }
      if p in ProviderSet(b) {
        var m :| m in b && m.provider == p;
        var i :| 0 <= i < |b| && b[i] == m;
        assert a[i] in a;
      }
    }
  }

  /** What the last acceptance asks for: free capacities, support for the whole window, and the complete route ready. */
  predicate Opens(l: Lease, look: Look, supportUntil: int)
  {
    look.free && look.now + l.Span() <= supportUntil && Joint(l.members, SightOf(look, |l.members|))
  }

  /** What n acceptances in a row ask for. */
  predicate Granted(l: Lease, n: nat, looks: nat -> Look, k: nat, supportUntil: int)
  {
    && (forall j: nat :: k <= j < k + n ==> looks(j).checked < l.offerExpires)
    && (0 < n ==> Opens(l, looks(k + n - 1), supportUntil))
  }

  /** One acceptance: the last one opens the window, and every earlier one leaves it offered. */
  lemma OneAccepts(d: Deal, users: seq<nat>, look: Look, supportUntil: int)
    requires DealOk(d) && users != [] && Awaits(d.lease, users)
    ensures var (next, reply) := AcceptOne(d, users[0], look, supportUntil);
            && (reply == Done <==> look.checked < d.lease.offerExpires && (|users| == 1 ==> Opens(d.lease, look, supportUntil)))
            && (reply == Done ==>
              && DealOk(next) && next.books == d.books && SameTerms(d.lease, next.lease)
              && next.lease.accepted == d.lease.accepted + {users[0]}
              && (|users| > 1 ==> next.lease == d.lease.(accepted := next.lease.accepted) && Awaits(next.lease, users[1..]))
              && (|users| == 1 ==>
                    && next.lease.phase == Active && next.lease.accepted == ProviderSet(next.lease.members)
                    && next.lease.started == look.now && next.lease.ends == look.now + d.lease.Span()))
  {
    hide LeaseOk, MoneyOk, Joint, SightOf, ProviderSet;
    var l := d.lease;
    var (next, reply) := AcceptOne(d, users[0], look, supportUntil);
    var sight := SightOf(look, |l.members|);
    LastCompletes(l, users);
    AcceptKeeps(d, users[0], true, look.checked, look.free, look.now, look.now + l.Span() <= supportUntil, sight);
    var agreed := l.(accepted := l.accepted + {users[0]});
    if |users| > 1 {
      assert reply == Done ==> next.lease == agreed;
    } else {
      assert reply == Done ==> next.lease == Activated(agreed, look.now, sight);
      SameProviders(l.members, Activated(agreed, look.now, sight).members);
    }
  }

  /** Only the last of the awaited providers completes the acceptances. */
  lemma LastCompletes(l: Lease, users: seq<nat>)
    requires users != [] && Awaits(l, users)
    ensures l.Provider(users[0]) && users[0] !in l.accepted
    ensures var agreed := l.(accepted := l.accepted + {users[0]});
            && (agreed.AllAccepted() <==> |users| == 1)
            && (|users| > 1 ==> Awaits(agreed, users[1..]))
            && (|users| == 1 ==> agreed.accepted >= ProviderSet(l.members))
  {
    hide ProviderSet;
    var agreed := l.(accepted := l.accepted + {users[0]});
    AllIsNobodyLeft(l);
    AllIsNobodyLeft(agreed);
    assert users == [users[0]] + users[1..];
    if |users| > 1 { assert users[1] in users && users[1] !in agreed.accepted; }
  }

  /** Before the last acceptance the window is only offered. */
  lemma {:induction false} StillOffered(d: Deal, users: seq<nat>, looks: nat -> Look, k: nat, supportUntil: int, i: nat)
    requires DealOk(d) && Awaits(d.lease, users) && i < |users|
    ensures var (part, reply) := AcceptAll(d, users[..i], looks, k, supportUntil);
            reply == Done ==> Awaits(part.lease, users[i..]) && DealOk(part)
    decreases i
  {
    hide DealOk, Awaits, AcceptOne;
    if i == 0 {
      assert users[..0] == [] && users[0..] == users;
    } else {
      var (next, reply) := AcceptOne(d, users[0], looks(k), supportUntil);
      assert users[..i][0] == users[0] && users[..i][1..] == users[1..][..i - 1] && users[1..][i - 1..] == users[i..];
      if reply == Done {
        OneAccepts(d, users, looks(k), supportUntil);
        StillOffered(next, users[1..], looks, k + 1, supportUntil, i - 1);
      }
    }
  }

  /**
   Main result: all of a window's providers accept exactly when no reading shows the offer expired and the last one finds
   the capacities free, the window supported and the route ready. The window is then ACTIVE, accepted by exactly its
   providers on unchanged terms, for its full span within the fund's support.
   */
  lemma {:induction false} EveryAcceptanceCounts(d: Deal, users: seq<nat>, looks: nat -> Look, k: nat, supportUntil: int)
    requires DealOk(d) && users != [] && Awaits(d.lease, users)
    ensures var (done, reply) := AcceptAll(d, users, looks, k, supportUntil);
            && (reply == Done <==> Granted(d.lease, |users|, looks, k, supportUntil))
            && (reply == Done ==>
              && DealOk(done) && done.books == d.books && SameTerms(d.lease, done.lease)
              && done.lease.phase == Active && done.lease.accepted == ProviderSet(done.lease.members)
              && done.lease.started == looks(k + |users| - 1).now
              && done.lease.ends == done.lease.started + d.lease.Span() <= supportUntil)
    decreases |users|
  {
    hide DealOk, Awaits, AcceptOne, ProviderSet, Joint, SightOf;
    var (next, reply) := AcceptOne(d, users[0], looks(k), supportUntil);
    OneAccepts(d, users, looks(k), supportUntil);
    if reply == Done {
      if |users| == 1 {
        assert users[1..] == [];
        assert AcceptAll(next, users[1..], looks, k + 1, supportUntil) == (next, Done);
      } else {
        EveryAcceptanceCounts(next, users[1..], looks, k + 1, supportUntil);
        assert Opens(next.lease, looks(k + |users| - 1), supportUntil) <==> Opens(d.lease, looks(k + |users| - 1), supportUntil);
      }
    }
  }
}
