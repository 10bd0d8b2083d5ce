/** Largest-remainder allocation (docs/planning/evidence/simulate_integrated_economy.py, `largest_remainder`). */
module LargestRemainder {
  import opened Quotients
  import Selection

  function Total(s: seq<nat>): nat { if s == [] then 0 else s[0] + Total(s[1..]) }

  function Quota(amount: nat, weights: seq<nat>, i: nat): nat
    requires i < |weights| && 0 < Total(weights)
  {
    amount * weights[i] / Total(weights)
  }

  function Leftover(amount: nat, weights: seq<nat>, i: nat): nat
    requires i < |weights| && 0 < Total(weights)
  {
    amount * weights[i] % Total(weights)
  }

  /** The order of `rank`: larger leftovers first, then smaller keys. */
  predicate Beats(amount: nat, weights: seq<nat>, i: nat, j: nat)
    requires i < |weights| && j < |weights| && 0 < Total(weights)
  {
    var (a, b) := (Leftover(amount, weights, i), Leftover(amount, weights, j));
    a > b || (a == b && i < j)
  }

  // ---------------------------------------------------------------------------------------------
  // Sums

  lemma {:induction false} TotalAt(s: seq<nat>, i: nat, v: nat)
    requires i < |s|
    ensures Total(s[i := v]) == Total(s) - s[i] + v
  {
    if i > 0 {
      TotalAt(s[1..], i - 1, v);
      assert s[i := v][1..] == s[1..][i - 1 := v];
    } else {
      assert s[i := v][1..] == s[1..];
    }
  }

  predicate Balanced(a: nat, b: nat, c: nat, k: nat, m: nat) { k * a + b == m * c }

  lemma BalancedAdds(a: nat, b: nat, c: nat, x: nat, y: nat, z: nat, k: nat, m: nat)
    requires Balanced(a, b, c, k, m) && Balanced(x, y, z, k, m)
    ensures Balanced(a + x, b + y, c + z, k, m)
  {
  }

  lemma {:induction false} TotalScales(a: seq<nat>, b: seq<nat>, c: seq<nat>, k: nat, m: nat)
    requires |a| == |b| == |c| && forall i :: 0 <= i < |a| ==> Balanced(a[i], b[i], c[i], k, m)
    ensures Balanced(Total(a), Total(b), Total(c), k, m)
  {
    hide Balanced;
    if a == [] {
      assert Balanced(0, 0, 0, k, m) by { NothingBalances(k, m); }
    } else {
      TotalScales(a[1..], b[1..], c[1..], k, m);
      BalancedAdds(a[0], b[0], c[0], Total(a[1..]), Total(b[1..]), Total(c[1..]), k, m);
    }
  }

  lemma NothingBalances(k: nat, m: nat)
    ensures Balanced(0, 0, 0, k, m)
  {
  }

  lemma {:induction false} TotalBounded(a: seq<nat>, b: seq<nat>, k: nat)
    requires |a| == |b| && forall i :: 0 <= i < |a| ==> a[i] <= k * b[i]
    ensures Total(a) <= k * Total(b)
  {
    if a != [] {
      TotalBounded(a[1..], b[1..], k);
      assert k * Total(b) == k * b[0] + k * Total(b[1..]);
    }
  }

  lemma {:induction false} TotalOnes(n: nat)
    ensures Total(seq(n, _ => 1)) == n
  {
    if n > 0 {
      assert seq(n, _ => 1)[1..] == seq(n - 1, _ => 1);
      TotalOnes(n - 1);
    }
  }

  function Quotas(amount: nat, weights: seq<nat>): seq<nat>
    requires 0 < Total(weights)
  {
    seq(|weights|, i requires 0 <= i < |weights| => Quota(amount, weights, i))
  }

  function Leftovers(amount: nat, weights: seq<nat>): seq<nat>
    requires 0 < Total(weights)
  {
    seq(|weights|, i requires 0 <= i < |weights| => Leftover(amount, weights, i))
  }

  /** What the quotas leave over is a whole number of totals. */
  lemma {:induction false} LeftoversAddUp(amount: nat, weights: seq<nat>)
    requires 0 < Total(weights)
    ensures Total(weights) * Total(Quotas(amount, weights)) + Total(Leftovers(amount, weights)) == amount * Total(weights)
  {
    hide Total;
    var t := Total(weights);
    forall i | 0 <= i < |weights|
      ensures Balanced(Quotas(amount, weights)[i], Leftovers(amount, weights)[i], weights[i], t, amount)
    {
      Bounds(amount * weights[i], t);
    }
    TotalScales(Quotas(amount, weights), Leftovers(amount, weights), weights, t, amount);
  }

  /** There are never more units left over than members, so each gets at most one. */
  lemma {:induction false} RemainderFits(amount: nat, weights: seq<nat>)
    requires 0 < Total(weights)
    ensures 0 <= amount - Total(Quotas(amount, weights)) <= |weights|
  {
    hide Total;
    var t, n := Total(weights), |weights|;
    var q := Total(Quotas(amount, weights));
    LeftoversAddUp(amount, weights);
    TotalBounded(Leftovers(amount, weights), seq(n, _ => 1), t);
    TotalOnes(n);
    assert t * (amount - q) == Total(Leftovers(amount, weights)) <= t * n;
    if amount < q { Product(t, amount - q, -1); }
    if amount - q > n { Product(t, n + 1, amount - q); }
  }

  // ---------------------------------------------------------------------------------------------
  // The algorithm

  /** All numbers below n, each once. */
  predicate Permutation(rank: seq<nat>, n: nat)
  {
    |rank| == n && (forall i :: 0 <= i < n ==> rank[i] < n) && forall i, j :: 0 <= i < j < n ==> rank[i] != rank[j]
  }

  predicate Ranked(amount: nat, weights: seq<nat>, rank: seq<nat>)
    requires 0 < Total(weights) && forall i :: 0 <= i < |rank| ==> rank[i] < |weights|
  {
    forall i, j :: 0 <= i < j < |rank| ==> Beats(amount, weights, rank[i], rank[j])
  }

  /** `sorted(weights, key=…)`, by insertion. */
  method Rank(amount: nat, weights: seq<nat>) returns (rank: seq<nat>)
    requires 0 < Total(weights)
    ensures Permutation(rank, |weights|) && Ranked(amount, weights, rank)
  {
    hide Total, Leftover;
    rank := [];
    var k := 0;
    while k < |weights|
      invariant 0 <= k <= |weights| && Permutation(rank, k) && Ranked(amount, weights, rank)
    {
      rank := Place(amount, weights, rank, k);
      k := k + 1;
    }
  }

  method Place(amount: nat, weights: seq<nat>, rank: seq<nat>, k: nat) returns (r: seq<nat>)
    requires 0 < Total(weights) && k < |weights| && Permutation(rank, k) && Ranked(amount, weights, rank)
    ensures Permutation(r, k + 1) && Ranked(amount, weights, r)
  {
    hide Total, Leftover;
    var at := 0;
    while at < |rank| && Beats(amount, weights, rank[at], k)
      invariant 0 <= at <= |rank| && forall i :: 0 <= i < at ==> Beats(amount, weights, rank[i], k)
    {
      at := at + 1;
    }
    r := rank[..at] + [k] + rank[at..];
    forall i, j | 0 <= i < j < |r| ensures r[i] != r[j] && Beats(amount, weights, r[i], r[j]) {
      if j < at {
      } else if i == at {
        assert r[j] == rank[j - 1] && at < |rank|;
        LosesToo(amount, weights, k, rank[at], rank[j - 1]);
      } else if j > at && i > at {
        assert r[i] == rank[i - 1] && r[j] == rank[j - 1];
      } else if j > at {
        assert r[i] == rank[i] && r[j] == rank[j - 1];
      }
    }
  }

  lemma {:induction false} LosesToo(amount: nat, weights: seq<nat>, k: nat, i: nat, j: nat)
    requires 0 < Total(weights) && k < |weights| && i < |weights| && j < |weights| && i != k
    requires !Beats(amount, weights, i, k) && (i == j || Beats(amount, weights, i, j))
    ensures Beats(amount, weights, k, j)
  {
  }

  predicate Extra(amount: nat, weights: seq<nat>, pieces: seq<nat>, i: nat)
    requires 0 < Total(weights) && |pieces| == |weights| && i < |weights|
  {
    pieces[i] == Quota(amount, weights, i) + 1
  }

  /** Whoever got an extra unit beats whoever did not. */
  predicate ExtrasFirst(amount: nat, weights: seq<nat>, pieces: seq<nat>)
    requires 0 < Total(weights) && |pieces| == |weights|
  {
    forall i, j :: 0 <= i < |weights| && 0 <= j < |weights| && Wins(amount, weights, pieces, i, j) ==> Beats(amount, weights, i, j)
  }

  predicate Wins(amount: nat, weights: seq<nat>, pieces: seq<nat>, i: nat, j: nat)
    requires 0 < Total(weights) && |pieces| == |weights| && i < |weights| && j < |weights|
  {
    Extra(amount, weights, pieces, i) && !Extra(amount, weights, pieces, j)
  }

  /** The parts add up to the amount, each is its quota or one more, and the extra units go to the largest leftovers. */
  method Allocate(amount: nat, weights: seq<nat>) returns (pieces: seq<nat>)
    requires 0 < Total(weights)
    ensures |pieces| == |weights| && Total(pieces) == amount
    ensures forall i :: 0 <= i < |weights| ==> pieces[i] == Quota(amount, weights, i) || Extra(amount, weights, pieces, i)
    ensures ExtrasFirst(amount, weights, pieces)
  {
    hide Total, Quota, Leftover;
    pieces := Quotas(amount, weights);
    RemainderFits(amount, weights);
    var remainder := amount - SumOf(pieces);
    var rank := Rank(amount, weights);
    var t := 0;
    while t < remainder
      invariant 0 <= t <= remainder && |pieces| == |weights| && Total(pieces) == amount - remainder + t
      invariant forall i :: 0 <= i < |weights| ==> pieces[i] == Quota(amount, weights, i) + if i in rank[..t] then 1 else 0
    {
      TotalAt(pieces, rank[t], pieces[rank[t]] + 1);
      assert rank[..t + 1] == rank[..t] + [rank[t]];
      pieces := pieces[rank[t] := pieces[rank[t]] + 1];
      t := t + 1;
    }
    forall i, j | 0 <= i < |weights| && 0 <= j < |weights| && Wins(amount, weights, pieces, i, j)
      ensures Beats(amount, weights, i, j)
    {
      Everyone(rank, |weights|, j);
      var a :| 0 <= a < t && rank[a] == i;
      var b :| 0 <= b < |rank| && rank[b] == j;
      forall k | 0 <= k < t ensures rank[k] in rank[..t] { assert rank[..t][k] == rank[k]; }
    }
  }

  function SumOf(s: seq<nat>): (r: nat)
    ensures r == Total(s)
  {
    Total(s)
  }

  function Below(n: nat): (s: set<nat>)
    ensures |s| == n && forall i: nat :: i in s <==> i < n
  {
    if n == 0 then {} else Below(n - 1) + {n - 1}
  }

  /** A permutation leaves nobody out. */
  lemma Everyone(rank: seq<nat>, n: nat, j: nat)
    requires Permutation(rank, n) && j < n
    ensures j in rank
  {
    var got := set i | 0 <= i < |rank| :: rank[i];
    Distinct(rank, n);
    if j !in rank {
      assert got <= Below(n) - {j};
      Selection.SubsetSize(got, Below(n) - {j});
    }
  }

  lemma {:induction false} Distinct(rank: seq<nat>, n: nat)
    requires |rank| == n && forall i, j :: 0 <= i < j < n ==> rank[i] != rank[j]
    ensures |set i | 0 <= i < |rank| :: rank[i]| == n
  {
    if n > 0 {
      var before := rank[..n - 1];
      Distinct(before, n - 1);
      var got := set i | 0 <= i < |before| :: before[i];
      assert (set i | 0 <= i < |rank| :: rank[i]) == got + {rank[n - 1]};
      assert rank[n - 1] !in got;
    }
  }

  // ---------------------------------------------------------------------------------------------
  // Each part is strictly within one unit of its exact share

  function Extras(amount: nat, weights: seq<nat>, pieces: seq<nat>): seq<nat>
    requires 0 < Total(weights) && |pieces| == |weights|
  {
    seq(|weights|, i requires 0 <= i < |weights| => if Extra(amount, weights, pieces, i) then 1 else 0)
  }

  /** The leftovers are exactly as many totals as there are extra units. */
  lemma {:induction false} LeftoversAreExtras(amount: nat, weights: seq<nat>, pieces: seq<nat>)
    requires 0 < Total(weights) && |pieces| == |weights| && Total(pieces) == amount
    requires forall k :: 0 <= k < |weights| ==> pieces[k] == Quota(amount, weights, k) || Extra(amount, weights, pieces, k)
    ensures Total(Leftovers(amount, weights)) == Total(weights) * Total(Extras(amount, weights, pieces))
  {
    hide Total, Quota, Leftover;
    var q, x := Quotas(amount, weights), Extras(amount, weights, pieces);
    LeftoversAddUp(amount, weights);
    forall k | 0 <= k < |weights| ensures Balanced(q[k], x[k], pieces[k], 1, 1) { }
    TotalScales(q, x, pieces, 1, 1);
    Distribute(Total(weights), Total(q), Total(x));
  }

  lemma Distribute(t: int, a: int, b: int)
    ensures (a + b) * t == t * a + t * b
  {
  }

  lemma {:induction false} QuotaBounds(amount: nat, weights: seq<nat>, i: nat)
    requires i < |weights| && 0 < Total(weights)
    ensures amount * weights[i] == Total(weights) * Quota(amount, weights, i) + Leftover(amount, weights, i)
    ensures 0 <= Leftover(amount, weights, i) < Total(weights)
  {
    hide Total;
    Bounds(amount * weights[i], Total(weights));
  }

  /** Were a member with an exact share given a unit, nobody without one would have anything left over. */
  lemma {:induction false} LeftoverOf(amount: nat, weights: seq<nat>, pieces: seq<nat>, i: nat, k: nat)
    requires 0 < Total(weights) && |pieces| == |weights| && i < |weights| && k < |weights|
    requires ExtrasFirst(amount, weights, pieces) && Extra(amount, weights, pieces, i) && Leftover(amount, weights, i) == 0
    ensures Leftovers(amount, weights)[k] <= (Total(weights) - 1) * Extras(amount, weights, pieces)[k]
  {
    hide Total, Extra, Leftover, Quota;
    QuotaBounds(amount, weights, k);
    if !Extra(amount, weights, pieces, k) {
      assert Wins(amount, weights, pieces, i, k);
      assert Beats(amount, weights, i, k);
    }
  }

  /** A member whose share is exact never gets an extra unit. */
  lemma {:induction false} ExactNeedsNoExtra(amount: nat, weights: seq<nat>, pieces: seq<nat>, i: nat)
    requires 0 < Total(weights) && |pieces| == |weights| && Total(pieces) == amount && i < |weights|
    requires forall k :: 0 <= k < |weights| ==> pieces[k] == Quota(amount, weights, k) || Extra(amount, weights, pieces, k)
    requires ExtrasFirst(amount, weights, pieces) && Extra(amount, weights, pieces, i)
    ensures Leftover(amount, weights, i) > 0
  {
    hide Total, Quota, Leftover, ExtrasFirst;
    var t, x, rest := Total(weights), Extras(amount, weights, pieces), Leftovers(amount, weights);
    LeftoversAreExtras(amount, weights, pieces);
    OneAtLeast(x, i);
    Distribute(Total(x), t - 1, 1);
    if Leftover(amount, weights, i) == 0 {
      forall k | 0 <= k < |weights| ensures rest[k] <= (t - 1) * x[k] { LeftoverOf(amount, weights, pieces, i, k); }
      TotalBounded(rest, x, t - 1);
    }
  }

  /** Each part is strictly within one unit of its exact share. */
  lemma {:induction false} WithinOneUnit(amount: nat, weights: seq<nat>, pieces: seq<nat>, i: nat)
    requires 0 < Total(weights) && |pieces| == |weights| && Total(pieces) == amount && i < |weights|
    requires forall k :: 0 <= k < |weights| ==> pieces[k] == Quota(amount, weights, k) || Extra(amount, weights, pieces, k)
    requires ExtrasFirst(amount, weights, pieces)
    ensures var t := Total(weights); amount * weights[i] - t < t * pieces[i] < amount * weights[i] + t
  {
    hide Total, Quota, Leftover, ExtrasFirst;
    QuotaBounds(amount, weights, i);
    if Extra(amount, weights, pieces, i) {
      ExactNeedsNoExtra(amount, weights, pieces, i);
      Distribute(Total(weights), Quota(amount, weights, i), 1);
    }
  }

  lemma {:induction false} OneAtLeast(s: seq<nat>, i: nat)
    requires i < |s|
    ensures s[i] <= Total(s)
  {
    if i > 0 {
      OneAtLeast(s[1..], i - 1);
    }
  }
}
