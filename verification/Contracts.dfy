/** Payout shares and prices (packages/contracts/src/index.ts). */
module Contracts {
  import opened Quotients

  const MAX_AMOUNT := 9_223_372_036_854_775_807
  const WHOLE := 10000

  datatype Option<T> = None | Some(value: T)

  // ---------------------------------------------------------------------------------------------
  // splitByBps

  function Total(shares: seq<int>): int
  {
    if shares == [] then 0 else Total(shares[..|shares| - 1]) + shares[|shares| - 1]
  }

  predicate Splittable(total: int, shares: seq<int>)
  {
    && 0 <= total <= MAX_AMOUNT && 1 <= |shares| <= 16
    && (forall i :: 0 <= i < |shares| ==> 1 <= shares[i] <= WHOLE)
    && Total(shares) == WHOLE
  }

  /** The exact share of the first n members, rounded down. */
  function Boundary(total: int, shares: seq<int>, n: nat): int
    requires n <= |shares|
  {
    total * Total(shares[..n]) / WHOLE
  }

  /** What each member receives. */
  function Parts(total: int, shares: seq<int>): (r: seq<int>)
    ensures |r| == |shares|
  {
    seq(|shares|, i requires 0 <= i < |shares| => Boundary(total, shares, i + 1) - Boundary(total, shares, i))
  }

  /** The source's loop: one running boundary, and the difference to the previous one. */
  method SplitByBps(total: int, shares: seq<int>) returns (r: Option<seq<int>>)
    ensures r.Some? <==> Splittable(total, shares)
    ensures r.Some? ==> r.value == Parts(total, shares)
  {
    if !Splittable(total, shares) {
      return None;
    }
    var cumulative, previous := 0, 0;
    var parts := [];
    var i := 0;
    while i < |shares|
      invariant 0 <= i <= |shares| && |parts| == i
      invariant cumulative == Total(shares[..i]) && previous == Boundary(total, shares, i)
      invariant parts == Parts(total, shares)[..i]
    {
      assert shares[..i + 1][..i] == shares[..i];
      cumulative := cumulative + shares[i];
      var boundary := total * cumulative / WHOLE;
      parts := parts + [boundary - previous];
      previous := boundary;
      i := i + 1;
    }
    r := Some(parts);
  }

  lemma PartAt(total: int, shares: seq<int>, i: nat)
    requires i < |shares|
    ensures Parts(total, shares)[i] == Boundary(total, shares, i + 1) - Boundary(total, shares, i)
  {
    hide Boundary;
  }

  /** Every prefix of the payouts is the rounded-down share of that prefix. */
  lemma {:induction false} PrefixesAreFloors(total: int, shares: seq<int>, n: nat)
    requires n <= |shares|
    ensures Total(Parts(total, shares)[..n]) == total * Total(shares[..n]) / WHOLE
  {
    hide Parts;
    if n == 0 {
    } else {
      var parts := Parts(total, shares);
      PrefixesAreFloors(total, shares, n - 1);
      assert parts[..n][..n - 1] == parts[..n - 1];
      PartAt(total, shares, n - 1);
    }
  }

  /** Nothing is lost or created. */
  lemma PartsExact(total: int, shares: seq<int>)
    requires Splittable(total, shares)
    ensures Total(Parts(total, shares)) == total
  {
    PrefixesAreFloors(total, shares, |shares|);
    assert shares[..|shares|] == shares && Parts(total, shares)[..|shares|] == Parts(total, shares);
  }

  /** Each payout is within one unit of the member's exact share. */
  lemma PartsFair(total: int, shares: seq<int>, i: nat)
    requires Splittable(total, shares) && i < |shares|
    ensures 0 <= Parts(total, shares)[i]
    ensures total * shares[i] - WHOLE < WHOLE * Parts(total, shares)[i] < total * shares[i] + WHOLE
  {
    assert shares[..i + 1][..i] == shares[..i];
    var a, b := total * Total(shares[..i]), total * Total(shares[..i + 1]);
    assert b == a + total * shares[i];
    Bounds(a, WHOLE);
    Bounds(b, WHOLE);
    Product(total, 0, shares[i]);
    QuotientGrows(a, b, WHOLE);
  }

  lemma {:induction false} TotalJoin(a: seq<int>, b: seq<int>)
    ensures Total(a + b) == Total(a) + Total(b)
    decreases |b|
  {
    if b == [] {
      assert a + b == a;
    } else {
      TotalJoin(a, b[..|b| - 1]);
      assert (a + b)[..|a + b| - 1] == a + b[..|b| - 1];
    }
  }

  /** Two neighbours replaced by one member with both shares. */
  function Merged(shares: seq<int>, i: nat): seq<int>
    requires i + 1 < |shares|
  {
    shares[..i] + [shares[i] + shares[i + 1]] + shares[i + 2..]
  }

  lemma MergedPrefix(shares: seq<int>, i: nat, n: nat)
    requires i + 1 < |shares| && n < |shares|
    ensures Total(Merged(shares, i)[..n]) == Total(shares[..if n <= i then n else n + 1])
  {
    var m := Merged(shares, i);
    if n <= i {
      assert m[..n] == shares[..n];
    } else {
      var pair := [shares[i], shares[i + 1]];
      var rest := shares[i + 2..n + 1];
      assert m[..n] == shares[..i] + [shares[i] + shares[i + 1]] + rest;
      assert shares[..n + 1] == shares[..i] + pair + rest;
      TotalJoin(shares[..i] + [shares[i] + shares[i + 1]], rest);
      TotalJoin(shares[..i], [shares[i] + shares[i + 1]]);
      TotalJoin(shares[..i] + pair, rest);
      TotalJoin(shares[..i], pair);
      assert pair[..1] == [shares[i]];
    }
  }

  lemma BoundaryMoves(total: int, shares: seq<int>, i: nat, n: nat)
    requires i + 1 < |shares| && n + 1 < |shares|
    ensures Boundary(total, Merged(shares, i), n) == Boundary(total, shares, if n <= i then n else n + 1)
    ensures Boundary(total, Merged(shares, i), n + 1) == Boundary(total, shares, if n + 1 <= i then n + 1 else n + 2)
  {
    MergedPrefix(shares, i, n);
    MergedPrefixNext(shares, i, n);
  }

  lemma MergedPrefixNext(shares: seq<int>, i: nat, n: nat)
    requires i + 1 < |shares| && n + 1 < |shares|
    ensures Total(Merged(shares, i)[..n + 1]) == Total(shares[..if n + 1 <= i then n + 1 else n + 2])
  {
    hide Total, Merged;
    MergedPrefix(shares, i, n + 1);
  }

  /** Merging two neighbours (or, read backwards, splitting one) changes nobody else's payout and keeps their sum. */
  lemma MergeKeepsPayouts(total: int, shares: seq<int>, i: nat)
    requires i + 1 < |shares|
    ensures Parts(total, Merged(shares, i)) == Merged(Parts(total, shares), i)
  {
    hide Parts, Boundary;
    var m := Merged(shares, i);
    forall k | 0 <= k < |m| ensures Parts(total, m)[k] == Merged(Parts(total, shares), i)[k] {
      PartAt(total, m, k);
      BoundaryMoves(total, shares, i, k);
      PartAt(total, shares, if k <= i then k else k + 1);
      if k == i { PartAt(total, shares, i + 1); }
    }
  }

  // ---------------------------------------------------------------------------------------------
  // Prices

  datatype Manifest = Manifest(maxContextTokens: int, inputRate: int, outputRate: int, rateDenominator: int)

  predicate WellPriced(m: Manifest) { 0 <= m.inputRate && 0 <= m.outputRate && 0 < m.rateDenominator }

  /** None where the source throws. */
  function CeilDiv(numerator: int, denominator: int): Option<int>
  {
    if numerator < 0 || denominator <= 0 then None else Some((numerator + denominator - 1) / denominator)
  }

  function ChargeFor(m: Manifest, input: int, output: int): Option<int>
  {
    match CeilDiv(input * m.inputRate + output * m.outputRate, m.rateDenominator)
    case None => None
    case Some(value) => if value > MAX_AMOUNT then None else Some(value)
  }

  function QuoteMaximum(m: Manifest, output: int): Option<int> { ChargeFor(m, m.maxContextTokens - output, output) }

  /** The quotient rounded up: the least number whose multiple covers the numerator. */
  lemma CeilDivIsLeast(a: int, d: int, n: int)
    requires 0 <= a && 0 < d
    ensures CeilDiv(a, d).Some? && (CeilDiv(a, d).value <= n <==> a <= n * d)
  {
    var q := (a + d - 1) / d;
    Bounds(a + d - 1, d);
    if q <= n {
      Product(d, q, n);
    } else {
      Product(d, n, q - 1);
    }
  }

  /** What a usage costs: the least whole amount that covers both rates, if it fits 64 bits. */
  lemma PriceIs(m: Manifest, input: int, output: int, c: int)
    requires WellPriced(m) && 0 <= input && 0 <= output
    ensures ChargeFor(m, input, output) == Some(c) <==>
            && c <= 9223372036854775807
            && (c - 1) * m.rateDenominator < input * m.inputRate + output * m.outputRate <= c * m.rateDenominator
  {
    Product(m.inputRate, 0, input);
    Product(m.outputRate, 0, output);
    var a := input * m.inputRate + output * m.outputRate;
    CeilDivIsLeast(a, m.rateDenominator, c);
    CeilDivIsLeast(a, m.rateDenominator, c - 1);
  }

  /** A quote is the price of the longest answer with all the rest of the context as its input. */
  lemma QuoteIs(m: Manifest, output: int, c: int)
    requires WellPriced(m) && 0 <= output <= m.maxContextTokens
    ensures QuoteMaximum(m, output) == Some(c) <==>
            && c <= 9223372036854775807
            && (c - 1) * m.rateDenominator < (m.maxContextTokens - output) * m.inputRate + output * m.outputRate
                                          <= c * m.rateDenominator
  {
    hide ChargeFor;
    PriceIs(m, m.maxContextTokens - output, output, c);
  }

  lemma CeilDivGrows(a: int, b: int, d: int)
    requires 0 <= a <= b && 0 < d
    ensures CeilDiv(a, d).value <= CeilDiv(b, d).value
  {
    QuotientGrows(a + d - 1, b + d - 1, d);
  }

  /** A quote covers every usage within its limits: the charge never overflows and never exceeds the quoted maximum. */
  lemma QuoteCovers(m: Manifest, limit: int, input: int, output: int)
    requires WellPriced(m) && QuoteMaximum(m, limit).Some?
    requires 0 <= input <= m.maxContextTokens - limit && 0 <= output <= limit
    ensures ChargeFor(m, input, output).Some?
    ensures 0 <= ChargeFor(m, input, output).value <= QuoteMaximum(m, limit).value
  {
    Product(m.inputRate, 0, input);
    Product(m.outputRate, 0, output);
    Product(m.inputRate, input, m.maxContextTokens - limit);
    Product(m.outputRate, output, limit);
    var a := input * m.inputRate + output * m.outputRate;
    var b := (m.maxContextTokens - limit) * m.inputRate + limit * m.outputRate;
    CeilDivGrows(a, b, m.rateDenominator);
    CeilDivGrows(0, a, m.rateDenominator);
  }

  /** A positive price is never rounded to nothing. */
  lemma ChargeIsFree(m: Manifest, input: int, output: int)
    requires WellPriced(m) && 0 <= input && 0 <= output && ChargeFor(m, input, output).Some?
    ensures ChargeFor(m, input, output).value == 0
            <==> (input == 0 || m.inputRate == 0) && (output == 0 || m.outputRate == 0)
  {
    var a, b := input * m.inputRate, output * m.outputRate;
    assert a == 0 <==> input == 0 || m.inputRate == 0;
    assert b == 0 <==> output == 0 || m.outputRate == 0;
    Product(m.inputRate, 0, input);
    Product(m.outputRate, 0, output);
    CeilDivIsLeast(a + b, m.rateDenominator, 0);
    CeilDivGrows(0, a + b, m.rateDenominator);
  }
}
