/** Least elements, sorted sets and filtered sequences of natural numbers. */
module Selection {

  ghost predicate IsLeast(s: set<nat>, m: nat) { m in s && forall x :: x in s ==> m <= x }

  lemma {:induction false} LeastExists(s: set<nat>)
    requires s != {}
    ensures exists m :: IsLeast(s, m)
    decreases |s|
  {
    var a :| a in s;
    if s - {a} == {} {
      assert s == {a};
      assert IsLeast(s, a);
    } else {
      LeastExists(s - {a});
      var m :| IsLeast(s - {a}, m);
      var l := if a < m then a else m;
      forall x | x in s ensures l <= x { assert x == a || x in s - {a}; }
      assert IsLeast(s, l);
    }
  }

  ghost function Least(s: set<nat>): (m: nat)
    requires s != {}
    ensures IsLeast(s, m)
  {
    LeastExists(s);
    var m :| IsLeast(s, m);
    m
  }

  /** `sorted(ids)` of a set of numbers. */
  ghost function Ascending(s: set<nat>): (r: seq<nat>)
    ensures forall x :: x in r <==> x in s
    decreases |s|
  {
    if s == {} then [] else [Least(s)] + Ascending(s - {Least(s)})
  }

  /** In increasing order, each number once. */
  lemma {:induction false} AscendingIncreases(s: set<nat>)
    ensures |Ascending(s)| == |s| && forall i, j :: 0 <= i < j < |Ascending(s)| ==> Ascending(s)[i] < Ascending(s)[j]
    decreases |s|
  {
    if s != {} {
      AscendingIncreases(s - {Least(s)});
    }
  }

  function Filter(s: seq<nat>, keep: nat -> bool): (r: seq<nat>)
    ensures |r| <= |s|
    ensures forall x :: x in r <==> x in s && keep(x)
  {
    if s == [] then [] else (if keep(s[0]) then [s[0]] else []) + Filter(s[1..], keep)
  }

  lemma {:induction false} SubsetSize<T>(a: set<T>, b: set<T>)
    requires a <= b
    ensures |a| <= |b|
    decreases |a|
  {
    if a != {} {
      var x :| x in a;
      SubsetSize(a - {x}, b - {x});
    }
  }

  /** `min(s)`. */
  method Smallest(s: set<nat>) returns (m: nat)
    requires s != {}
    ensures m == Least(s)
  {
    m :| m in s;
    var left := s - {m};
    while left != {}
      invariant m in s && left <= s && forall x :: x in s && x !in left ==> m <= x
      decreases |left|
    {
      var x :| x in left;
      if x < m {
        m := x;
      }
      left := left - {x};
    }
  }

  /** `sorted(s)`. */
  method Sorted(s: set<nat>) returns (r: seq<nat>)
    ensures r == Ascending(s)
  {
    r := [];
    var left := s;
    while left != {}
      invariant r + Ascending(left) == Ascending(s)
      decreases |left|
    {
      var m := Smallest(left);
      assert Ascending(left) == [m] + Ascending(left - {m});
      assert r + ([m] + Ascending(left - {m})) == (r + [m]) + Ascending(left - {m});
      r := r + [m];
      left := left - {m};
    }
  }
}
