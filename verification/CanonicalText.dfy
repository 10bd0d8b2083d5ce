/** Canonical text spelled out: its words and punctuation, how strings are escaped, and the order of keys. */
module CanonicalText {
  import opened CanonicalJson
  import CanonicalParser

  /** Plain text as code units. */
  function Units(s: string): (t: Text)
    requires forall i :: 0 <= i < |s| ==> s[i] as int < 128
    ensures |t| == |s| && forall i :: 0 <= i < |s| ==> t[i] == s[i] as int
  {
    seq(|s|, i requires 0 <= i < |s| && s[i] as int < 128 => s[i] as int)
  }

  // ---------------------------------------------------------------------------------------------
  // Values

  /** The parts with a separator between any two. */
  function Joined(parts: seq<Text>, separator: Text): Text
  {
    if parts == [] then []
    else
      var n := |parts| - 1;
      if n == 0 then parts[0] else Joined(parts[..n], separator) + separator + parts[n]
  }

  lemma {:induction false} JoinedFirst(parts: seq<Text>, separator: Text)
    requires 2 <= |parts|
    ensures Joined(parts, separator) == parts[0] + separator + Joined(parts[1..], separator)
  {
    var n := |parts| - 1;
    if n == 1 {
      assert parts[..1] == [parts[0]] && parts[1..] == [parts[1]];
    } else {
      JoinedFirst(parts[..n], separator);
      assert parts[..n][1..] == parts[1..][..n - 1];
      assert parts[1..][n - 1] == parts[n];
      Associate(parts[0] + separator, Joined(parts[1..][..n - 1], separator), separator + parts[n]);
      Associate(Joined(parts[1..][..n - 1], separator), separator, parts[n]);
      Associate(parts[0] + separator + Joined(parts[1..][..n - 1], separator), separator, parts[n]);
    }
  }

  lemma Associate(a: Text, b: Text, c: Text)
    ensures a + b + c == a + (b + c)
  {
  }

  /** One field: its key as a string, a colon, and its value. */
  function FieldText(f: Field): Text { Quoted(f.key) + Units(":") + Canonical(f.value) }

  lemma {:induction false} ItemsAre(items: seq<Json>)
    ensures CanonicalItems(items) == Joined(seq(|items|, i requires 0 <= i < |items| => Canonical(items[i])), Units(","))
  {
    hide Canonical;
    var parts := seq(|items|, i requires 0 <= i < |items| => Canonical(items[i]));
    if |items| >= 2 {
      var rest := seq(|items[1..]|, i requires 0 <= i < |items[1..]| => Canonical(items[1..][i]));
      ItemsAre(items[1..]);
      assert parts[1..] == rest;
      JoinedFirst(parts, Units(","));
    }
  }

  lemma {:induction false} FieldsAre(fields: seq<Field>)
    ensures CanonicalFields(fields) == Joined(seq(|fields|, i requires 0 <= i < |fields| => FieldText(fields[i])), Units(","))
  {
    hide Canonical, Quoted;
    var parts := seq(|fields|, i requires 0 <= i < |fields| => FieldText(fields[i]));
    assert Units(":") == [COLON] && Units(",") == [COMMA];
    if |fields| >= 2 {
      var rest := seq(|fields[1..]|, i requires 0 <= i < |fields[1..]| => FieldText(fields[1..][i]));
      FieldsAre(fields[1..]);
      assert parts[1..] == rest;
      JoinedFirst(parts, Units(","));
    }
  }

  /** Main result: the canonical text of every kind of value, character by character. */
  lemma CanonicalIs(v: Json)
    ensures match v
            case Null => Canonical(v) == Units("null")
            case Bool(b) => Canonical(v) == if b then Units("true") else Units("false")
            case Num(text) => Canonical(v) == text
            case Str(s) => Canonical(v) == Quoted(s)
            case Arr(items) =>
              Canonical(v) == Units("[") + Joined(seq(|items|, i requires 0 <= i < |items| => Canonical(items[i])), Units(",")) + Units("]")
            case Obj(fields) =>
              var sorted := Sort(fields);
              Canonical(v) == Units("{") + Joined(seq(|sorted|, i requires 0 <= i < |sorted| => FieldText(sorted[i])), Units(",")) + Units("}")
  {
    CanonicalEquations(v);
    assert Units("[") == [OPEN] && Units("]") == [CLOSE] && Units("{") == [BEGIN] && Units("}") == [END];
    match v
    case Null => assert NULL == Units("null");
    case Bool(b) => assert TRUE == Units("true") && FALSE == Units("false");
    case Num(text) =>
    case Str(s) =>
    case Arr(items) => ItemsAre(items);
    case Obj(fields) => FieldsAre(Sort(fields));
  }

  // ---------------------------------------------------------------------------------------------
  // Strings

  /** A lower-case hexadecimal digit of this value. */
  predicate HexOf(u: Unit, n: int)
  {
    (0 <= n < 10 && u == '0' as int + n) || (10 <= n < 16 && u == 'a' as int + n - 10)
  }

  predicate Surrogate(u: Unit) { 0xD800 <= u <= 0xDFFF }

  /** What stands for one unit of a string. */
  ghost predicate Escaped(u: Unit, t: Text)
  {
    if u == '"' as int then t == Units("\\\"")
    else if u == '\\' as int then t == Units("\\\\")
    else if u == 8 then t == Units("\\b")
    else if u == 9 then t == Units("\\t")
    else if u == 10 then t == Units("\\n")
    else if u == 12 then t == Units("\\f")
    else if u == 13 then t == Units("\\r")
    else if u < 32 || Surrogate(u) then
      && |t| == 6 && t[..2] == Units("\\u")
      && exists a, b, c, d :: HexOf(t[2], a) && HexOf(t[3], b) && HexOf(t[4], c) && HexOf(t[5], d)
                              && u == 4096 * a + 256 * b + 16 * c + d
    else t == [u]
  }

  lemma EscapeIs(u: Unit)
    ensures Escaped(u, EscapeUnit(u))
  {
    var t := EscapeUnit(u);
    assert Units("\\\"") == [92, 34] && Units("\\\\") == [92, 92] && Units("\\u") == [92, 117];
    assert Units("\\b") == [92, 98] && Units("\\t") == [92, 116] && Units("\\n") == [92, 110];
    assert Units("\\f") == [92, 102] && Units("\\r") == [92, 114];
    if |t| == 6 {
      var a, b, c, d := u / 4096, u / 256 % 16, u / 16 % 16, u % 16;
      Digits(u);
      assert HexOf(t[2], a) && HexOf(t[3], b) && HexOf(t[4], c) && HexOf(t[5], d);
    }
  }

  lemma Digits(u: Unit)
    ensures u == 4096 * (u / 4096) + 256 * (u / 256 % 16) + 16 * (u / 16 % 16) + u % 16
  {
    var a := u / 16;
    var b := a / 16;
    assert u / 256 == b && u / 4096 == b / 16;
    assert b == 16 * (b / 16) + b % 16;
  }

  /** A string is its units between quotes, a surrogate pair as it is and every other unit as what stands for it. */
  lemma PairIs(h: Unit, l: Unit, s: Text)
    requires 0xD800 <= h < 0xDC00 <= l < 0xE000
    ensures Quoted([h, l] + s) == Units("\"") + [h, l] + Quoted(s)[1..]
  {
    assert Units("\"") == [QUOTE];
    assert ([h, l] + s)[2..] == s;
    assert Quoted(s)[1..] == Escape(s) + [QUOTE];
  }

  lemma UnitIs(u: Unit, s: Text)
    requires !(0xD800 <= u < 0xDC00) || s == [] || !(0xDC00 <= s[0] < 0xE000)
    ensures Quoted([u] + s) == Units("\"") + EscapeUnit(u) + Quoted(s)[1..] && Quoted([]) == Units("\"\"")
  {
    hide EscapeUnit;
    assert Units("\"") == [QUOTE] && Units("\"\"") == [QUOTE, QUOTE];
    assert ([u] + s)[1..] == s;
    assert Quoted(s)[1..] == Escape(s) + [QUOTE];
  }

  /** No control unit is ever printed. */
  lemma {:induction false} NoControls(s: Text)
    ensures forall i :: 0 <= i < |Quoted(s)| ==> Quoted(s)[i] >= 32
  {
    EscapeHasNoControls(s);
  }

  lemma {:induction false} EscapeHasNoControls(s: Text)
    ensures forall i :: 0 <= i < |Escape(s)| ==> Escape(s)[i] >= 32
    decreases |s|
  {
    if |s| >= 2 && High(s[0]) && Low(s[1]) {
      EscapeHasNoControls(s[2..]);
    } else if s != [] {
      EscapeHasNoControls(s[1..]);
    }
  }

  // ---------------------------------------------------------------------------------------------
  // Keys

  /** At the first place where they differ a has the smaller unit, or it ends there. */
  predicate Precedes(a: Text, b: Text, k: nat)
  {
    k <= |a| && k <= |b| && a[..k] == b[..k] && (k == |a| || (k < |b| && a[k] < b[k]))
  }

  lemma {:induction false} BeforeIs(a: Text, b: Text)
    ensures Before(a, b) <==> exists k: nat :: Precedes(a, b, k)
    decreases |a|
  {
    if a == [] {
      assert Precedes(a, b, 0);
    } else if b == [] || a[0] > b[0] {
      forall k: nat ensures !Precedes(a, b, k) { if 0 < k <= |a| && k <= |b| { assert a[..k][0] == a[0] && b[..k][0] == b[0]; } }
    } else if a[0] < b[0] {
      assert Precedes(a, b, 0);
    } else {
      BeforeIs(a[1..], b[1..]);
      if Before(a, b) {
        var k: nat :| Precedes(a[1..], b[1..], k);
        assert a[..k + 1] == [a[0]] + a[1..][..k] && b[..k + 1] == [b[0]] + b[1..][..k];
        assert Precedes(a, b, k + 1);
      }
      forall k: nat | Precedes(a, b, k) ensures exists j: nat :: Precedes(a[1..], b[1..], j) {
        assert k > 0;
        assert a[1..][..k - 1] == a[..k][1..] && b[1..][..k - 1] == b[..k][1..];
        assert Precedes(a[1..], b[1..], k - 1);
      }
    }
  }

  ghost predicate Ascends(a: Text, b: Text) { exists k: nat :: Precedes(a, b, k) }

  /** The keys of an object are printed in the order of their code units, each field once. */
  lemma KeysAscend(fields: seq<Field>)
    ensures var sorted := Sort(fields);
            && multiset(sorted) == multiset(fields)
            && forall i, j :: 0 <= i < j < |sorted| ==> Ascends(sorted[i].key, sorted[j].key)
  {
    hide Precedes, Before;
    CanonicalParser.SortOrders(fields);
    var sorted := Sort(fields);
    forall i, j | 0 <= i < j < |sorted| ensures Ascends(sorted[i].key, sorted[j].key) {
      BeforeIs(sorted[i].key, sorted[j].key);
    }
  }
}
