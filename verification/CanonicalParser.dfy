/** Reading canonical text back: equal texts mean equal values up to the order of object keys. */
module CanonicalParser {
  import opened Contracts
  import opened CanonicalJson

  // ---------------------------------------------------------------------------------------------
  // A parser

  function HexValue(u: Unit): (r: Option<int>)
    ensures r.Some? ==> 0 <= r.value < 16
  {
    if 48 <= u <= 57 then Some(u - 48) else if 97 <= u <= 102 then Some(u - 87) else None
  }

  function UnHex(t: Text): Option<Unit>
    requires |t| == 4
  {
    match (HexValue(t[0]), HexValue(t[1]), HexValue(t[2]), HexValue(t[3]))
    case (Some(a), Some(b), Some(c), Some(d)) => Some(a * 4096 + b * 256 + c * 16 + d)
    case _ => None
  }

  /** One unit of a string literal and how many units of text it takes. */
  function ParseUnit(t: Text): (r: Option<(Unit, nat)>)
    ensures r.Some? ==> 1 <= r.value.1 <= |t|
  {
    if t == [] || t[0] == QUOTE then None
    else if t[0] != SLASH then Some((t[0], 1))
    else if |t| < 2 then None
    else if t[1] == QUOTE || t[1] == SLASH then Some((t[1], 2))
    else if t[1] == 98 then Some((8, 2))
    else if t[1] == 116 then Some((9, 2))
    else if t[1] == 110 then Some((10, 2))
    else if t[1] == 102 then Some((12, 2))
    else if t[1] == 114 then Some((13, 2))
    else if t[1] == LETTER_U && |t| >= 6 then
      match UnHex(t[2..6])
      case None => None
      case Some(u) => Some((u, 6))
    else None
  }

  /** The rest of a string literal, after its opening quote. */
  function ParseText(t: Text): (r: Option<(Text, Text)>)
    ensures r.Some? ==> |r.value.1| < |t|
    decreases |t|
  {
    if t != [] && t[0] == QUOTE then Some(([], t[1..]))
    else
      match ParseUnit(t)
      case None => None
      case Some((u, n)) =>
        match ParseText(t[n..])
        case None => None
        case Some((s, rest)) => Some(([u] + s, rest))
  }

  function NumEnd(t: Text): (n: nat)
    ensures n <= |t|
  {
    if t != [] && NumUnit(t[0]) then 1 + NumEnd(t[1..]) else 0
  }

  function Parse(t: Text): (r: Option<(Json, Text)>)
    ensures r.Some? ==> |r.value.1| < |t|
    decreases |t|, 0
  {
    if t == [] then None
    else if t[0] == QUOTE then
      match ParseText(t[1..])
      case None => None
      case Some((s, rest)) => Some((Str(s), rest))
    else if t[0] == OPEN then
      if |t| > 1 && t[1] == CLOSE then Some((Arr([]), t[2..]))
      else
        match ParseItems(t[1..])
        case None => None
        case Some((items, rest)) => Some((Arr(items), rest))
    else if t[0] == BEGIN then
      if |t| > 1 && t[1] == END then Some((Obj([]), t[2..]))
      else
        match ParseFields(t[1..])
        case None => None
        case Some((fields, rest)) => Some((Obj(fields), rest))
    else if NULL <= t then Some((Null, t[4..]))
    else if TRUE <= t then Some((Bool(true), t[4..]))
    else if FALSE <= t then Some((Bool(false), t[5..]))
    else if NumEnd(t) > 0 then Some((Num(t[..NumEnd(t)]), t[NumEnd(t)..]))
    else None
  }

  function ParseItems(t: Text): (r: Option<(seq<Json>, Text)>)
    ensures r.Some? ==> |r.value.1| < |t|
    decreases |t|, 1
  {
    match Parse(t)
    case None => None
    case Some((v, rest)) =>
      if rest != [] && rest[0] == CLOSE then Some(([v], rest[1..]))
      else if rest != [] && rest[0] == COMMA then
        match ParseItems(rest[1..])
        case None => None
        case Some((items, end)) => Some(([v] + items, end))
      else None
  }

  function ParseFields(t: Text): (r: Option<(seq<Field>, Text)>)
    ensures r.Some? ==> |r.value.1| < |t|
    decreases |t|, 1
  {
    if t == [] || t[0] != QUOTE then None
    else
      match ParseText(t[1..])
      case None => None
      case Some((key, after)) =>
        if after == [] || after[0] != COLON then None
        else
          match Parse(after[1..])
          case None => None
          case Some((v, rest)) =>
            if rest != [] && rest[0] == END then Some(([Field(key, v)], rest[1..]))
            else if rest != [] && rest[0] == COMMA then
              match ParseFields(rest[1..])
              case None => None
              case Some((fields, end)) => Some(([Field(key, v)] + fields, end))
            else None
  }

  // ---------------------------------------------------------------------------------------------
  // Strings come back

  lemma DigitReads(n: int)
    requires 0 <= n < 16
    ensures HexValue(HexDigit(n)) == Some(n)
  {
  }

  lemma Digits(u: int)
    requires 0 <= u < 0x1_0000
    ensures u / 4096 * 4096 + u / 256 % 16 * 256 + u / 16 % 16 * 16 + u % 16 == u
  {
    var a := u / 16;
    var b := a / 16;
    assert b == u / 256 && b / 16 == u / 4096;
  }

  lemma HexReads(u: Unit)
    ensures UnHex(Hex(u)) == Some(u)
  {
    hide HexDigit, HexValue;
    DigitReads(u / 4096);
    DigitReads(u / 256 % 16);
    DigitReads(u / 16 % 16);
    DigitReads(u % 16);
    Digits(u);
  }

  lemma HexLength(u: Unit)
    ensures |Hex(u)| == 4
  {
  }

  lemma UnitReads(u: Unit, rest: Text)
    ensures ParseUnit(EscapeUnit(u) + rest) == Some((u, |EscapeUnit(u)|))
  {
    hide Hex, UnHex;
    var t := EscapeUnit(u) + rest;
    HexReads(u);
    HexLength(u);
    if u >= 32 && !High(u) && !Low(u) {
    } else if u == 8 || u == 9 || u == 10 || u == 12 || u == 13 {
    } else {
      assert t == [SLASH, LETTER_U] + Hex(u) + rest;
      assert t[2..6] == Hex(u);
    }
  }

  lemma EscapeUnitStart(u: Unit)
    ensures EscapeUnit(u) != [] && EscapeUnit(u)[0] != QUOTE
  {
    hide Hex;
  }

  /** One more unit at the front of a literal. */
  lemma {:induction false} UnitThenText(u: Unit, head: Text, tail: Text, s: Text, rest: Text)
    requires head != [] && head[0] != QUOTE && ParseUnit(head + tail) == Some((u, |head|)) && ParseText(tail) == Some((s, rest))
    ensures ParseText(head + tail) == Some(([u] + s, rest))
  {
    hide ParseUnit;
    assert (head + tail)[|head|..] == tail;
  }

  lemma {:induction false} TextReads(s: Text, rest: Text)
    ensures ParseText(Escape(s) + [QUOTE] + rest) == Some((s, rest))
    decreases |s|
  {
    hide EscapeUnit, ParseUnit, ParseText, High, Low;
    var t := Escape(s) + [QUOTE] + rest;
    if s == [] {
      assert t == [QUOTE] + rest;
      EmptyText(rest);
    } else if |s| >= 2 && High(s[0]) && Low(s[1]) {
      var tail := Escape(s[2..]) + [QUOTE] + rest;
      TextReads(s[2..], rest);
      assert t == [s[0]] + ([s[1]] + tail);
      Surrogates(s[0], s[1]);
      RawUnit(s[1], tail);
      UnitThenText(s[1], [s[1]], tail, s[2..], rest);
      RawUnit(s[0], [s[1]] + tail);
      UnitThenText(s[0], [s[0]], [s[1]] + tail, [s[1]] + s[2..], rest);
      assert [s[0]] + ([s[1]] + s[2..]) == s;
    } else {
      var head, tail := EscapeUnit(s[0]), Escape(s[1..]) + [QUOTE] + rest;
      TextReads(s[1..], rest);
      assert t == head + tail;
      UnitReads(s[0], tail);
      EscapeUnitStart(s[0]);
      UnitThenText(s[0], head, tail, s[1..], rest);
      assert [s[0]] + s[1..] == s;
    }
  }

  lemma {:induction false} EmptyText(rest: Text)
    ensures ParseText([QUOTE] + rest) == Some(([], rest))
  {
    assert ([QUOTE] + rest)[1..] == rest;
  }

  lemma Surrogates(a: Unit, b: Unit)
    requires High(a) && Low(b)
    ensures a != QUOTE && a != SLASH && b != QUOTE && b != SLASH
  {
  }

  lemma RawUnit(u: Unit, rest: Text)
    requires u != QUOTE && u != SLASH
    ensures ParseUnit([u] + rest) == Some((u, 1))
  {
  }

  // ---------------------------------------------------------------------------------------------
  // Values come back

  /** Every number in v has a number's text. */
  predicate Plain(v: Json)
  {
    match v
    case Num(text) => NumText(text)
    case Arr(items) => PlainItems(items)
    case Obj(fields) => PlainFields(fields)
    case _ => true
  }

  predicate PlainItems(items: seq<Json>) { items == [] || (Plain(items[0]) && PlainItems(items[1..])) }
  predicate PlainFields(fields: seq<Field>) { fields == [] || (Plain(fields[0].value) && PlainFields(fields[1..])) }

  /** What may follow a value: anything that cannot continue a number. */
  predicate Delimited(rest: Text) { rest == [] || !NumUnit(rest[0]) }

  lemma {:induction false} NumReads(text: Text, rest: Text)
    requires forall i :: 0 <= i < |text| ==> NumUnit(text[i])
    requires Delimited(rest)
    ensures NumEnd(text + rest) == |text|
  {
    if text == [] {
      assert text + rest == rest;
    } else {
      assert (text + rest)[1..] == text[1..] + rest;
      NumReads(text[1..], rest);
    }
  }

  lemma {:induction false} FlatStart(v: Json)
    requires Plain(v)
    ensures Flat(v) != [] && Flat(v)[0] != CLOSE && Flat(v)[0] != END
  {
    hide FlatItems, FlatFields, Escape, PlainItems, PlainFields;
  }

  lemma {:induction false} FlatReads(v: Json, rest: Text)
    requires Plain(v) && Delimited(rest)
    ensures Parse(Flat(v) + rest) == Some((v, rest))
    decreases v, 0
  {
    hide FlatItems, FlatFields, Escape, ParseItems, ParseFields, ParseText;
    var t := Flat(v) + rest;
    match v
    case Null => assert t[4..] == rest;
    case Bool(b) => assert b ==> t[4..] == rest; assert !b ==> t[5..] == rest;
    case Num(text) => NumReads(text, rest); NumFirst(text, rest);
    case Str(s) =>
      assert t[1..] == Escape(s) + [QUOTE] + rest;
      TextReads(s, rest);
    case Arr(items) =>
      if items == [] {
        assert FlatItems(items) == [] by { NoItems(); }
        assert t == [OPEN, CLOSE] + rest;
      } else {
        assert t[1..] == FlatItems(items) + [CLOSE] + rest;
        ItemsStart(items);
        ItemsRead(items, rest);
      }
    case Obj(fields) =>
      if fields == [] {
        assert FlatFields(fields) == [] by { NoFields(); }
        assert t == [BEGIN, END] + rest;
      } else {
        assert t[1..] == FlatFields(fields) + [END] + rest;
        FieldsStart(fields);
        FieldsRead(fields, rest);
      }
  }

  lemma {:induction false} NumFirst(text: Text, rest: Text)
    requires NumText(text) && NumEnd(text + rest) == |text|
    ensures Parse(text + rest) == Some((Num(text), rest))
  {
    var t := text + rest;
    assert t[0] == text[0];
    assert t[..|text|] == text && t[|text|..] == rest;
  }

  lemma NoItems()
    ensures FlatItems([]) == []
  {
  }

  lemma NoFields()
    ensures FlatFields([]) == []
  {
  }

  lemma {:induction false} ItemsStart(items: seq<Json>)
    requires items != [] && PlainItems(items)
    ensures FlatItems(items) != [] && FlatItems(items)[0] != CLOSE
  {
    FlatStart(items[0]);
  }

  lemma {:induction false} FieldsStart(fields: seq<Field>)
    requires fields != []
    ensures FlatFields(fields) != [] && FlatFields(fields)[0] == QUOTE
  {
  }

  lemma {:induction false} ItemsRead(items: seq<Json>, rest: Text)
    requires items != [] && PlainItems(items)
    ensures ParseItems(FlatItems(items) + [CLOSE] + rest) == Some((items, rest))
    decreases items, 1
  {
    hide Parse, Flat;
    var t := FlatItems(items) + [CLOSE] + rest;
    if |items| == 1 {
      assert t == Flat(items[0]) + ([CLOSE] + rest);
      FlatReads(items[0], [CLOSE] + rest);
      assert items == [items[0]];
      assert ([CLOSE] + rest)[1..] == rest;
    } else {
      var more := FlatItems(items[1..]) + [CLOSE] + rest;
      assert t == Flat(items[0]) + ([COMMA] + more);
      FlatReads(items[0], [COMMA] + more);
      ItemsRead(items[1..], rest);
      assert ([COMMA] + more)[1..] == more;
      assert [items[0]] + items[1..] == items;
    }
  }

  /** The text of one field, then whatever the parser makes of what follows. */
  lemma {:induction false} FieldHead(key: Text, flat: Text, v: Json, after: Text)
    requires Parse(flat + after) == Some((v, after))
    ensures var t := Quoted(key) + [COLON] + flat + after;
            && t != [] && t[0] == QUOTE && ParseText(t[1..]) == Some((key, [COLON] + (flat + after)))
            && ([COLON] + (flat + after))[1..] == flat + after
  {
    hide Parse, ParseText, Escape;
    var t := Quoted(key) + [COLON] + flat + after;
    var value := [COLON] + (flat + after);
    assert t[1..] == Escape(key) + [QUOTE] + value;
    TextReads(key, value);
  }

  lemma {:induction false} LastField(key: Text, flat: Text, v: Json, rest: Text)
    requires Parse(flat + ([END] + rest)) == Some((v, [END] + rest))
    ensures ParseFields(Quoted(key) + [COLON] + flat + ([END] + rest)) == Some(([Field(key, v)], rest))
  {
    hide Parse, ParseText, Quoted;
    FieldHead(key, flat, v, [END] + rest);
    assert ([END] + rest)[1..] == rest;
  }

  lemma {:induction false} AnotherField(key: Text, flat: Text, v: Json, more: Text, fields: seq<Field>, rest: Text)
    requires Parse(flat + ([COMMA] + more)) == Some((v, [COMMA] + more)) && ParseFields(more) == Some((fields, rest))
    ensures ParseFields(Quoted(key) + [COLON] + flat + ([COMMA] + more)) == Some(([Field(key, v)] + fields, rest))
  {
    hide Parse, ParseText, Quoted;
    FieldHead(key, flat, v, [COMMA] + more);
    assert ([COMMA] + more)[1..] == more;
  }

  lemma {:induction false} FieldsRead(fields: seq<Field>, rest: Text)
    requires fields != [] && PlainFields(fields)
    ensures ParseFields(FlatFields(fields) + [END] + rest) == Some((fields, rest))
    decreases fields, 1
  {
    hide Parse, Flat, ParseText, ParseFields, Quoted;
    var f := fields[0];
    var first := Quoted(f.key) + [COLON] + Flat(f.value);
    if |fields| == 1 {
      FlatReads(f.value, [END] + rest);
      LastField(f.key, Flat(f.value), f.value, rest);
      assert fields == [f];
      assert first + [END] + rest == first + ([END] + rest);
    } else {
      var more := FlatFields(fields[1..]) + [END] + rest;
      FlatReads(f.value, [COMMA] + more);
      FieldsRead(fields[1..], rest);
      AnotherField(f.key, Flat(f.value), f.value, more, fields[1..], rest);
      assert first + [COMMA] + FlatFields(fields[1..]) + [END] + rest == first + ([COMMA] + more);
      assert [f] + fields[1..] == fields;
    }
  }

  // ---------------------------------------------------------------------------------------------
  // Sorting keeps the fields and forgets only their order

  lemma {:induction false} InsertPlain(f: Field, fields: seq<Field>)
    requires Plain(f.value) && PlainFields(fields)
    ensures PlainFields(Insert(f, fields))
  {
    if fields != [] && !Before(f.key, fields[0].key) {
      InsertPlain(f, fields[1..]);
      assert ([fields[0]] + Insert(f, fields[1..]))[1..] == Insert(f, fields[1..]);
    } else {
      assert ([f] + fields)[1..] == fields;
    }
  }

  lemma {:induction false} SortPlain(fields: seq<Field>)
    requires PlainFields(fields)
    ensures PlainFields(Sort(fields))
  {
    if fields != [] {
      SortPlain(fields[1..]);
      InsertPlain(fields[0], Sort(fields[1..]));
    }
  }

  lemma {:induction false} NormalPlain(v: Json)
    requires Plain(v)
    ensures Plain(Normal(v))
    decreases v, 0
  {
    hide Sort;
    match v
    case Arr(items) => NormalItemsPlain(items);
    case Obj(fields) => NormalFieldsPlain(fields); SortPlain(NormalFields(fields));
    case _ =>
  }

  lemma {:induction false} NormalItemsPlain(items: seq<Json>)
    requires PlainItems(items)
    ensures PlainItems(NormalItems(items))
    decreases items, 1
  {
    if items != [] {
      NormalPlain(items[0]);
      NormalItemsPlain(items[1..]);
      assert NormalItems(items)[1..] == NormalItems(items[1..]);
    }
  }

  lemma {:induction false} NormalFieldsPlain(fields: seq<Field>)
    requires PlainFields(fields)
    ensures PlainFields(NormalFields(fields))
    decreases fields, 1
  {
    if fields != [] {
      NormalPlain(fields[0].value);
      NormalFieldsPlain(fields[1..]);
      assert NormalFields(fields)[1..] == NormalFields(fields[1..]);
    }
  }

  /** The text followed by any delimiter gives back exactly the key-sorted value. */
  lemma {:induction false} CanonicalReads(v: Json, rest: Text)
    requires Plain(v) && Delimited(rest)
    ensures Parse(Canonical(v) + rest) == Some((Normal(v), rest))
  {
    hide Parse, Flat;
    NormalPlain(v);
    FlatReads(Normal(v), rest);
  }

  /** Main result: two plain values have the same canonical text exactly when they are equal up to key order. */
  lemma {:induction false} CanonicalIsInjective(v: Json, w: Json)
    requires Plain(v) && Plain(w)
    ensures Canonical(v) == Canonical(w) <==> Normal(v) == Normal(w)
  {
    hide Parse, Flat, Normal;
    CanonicalReads(v, []);
    CanonicalReads(w, []);
    assert Canonical(v) + [] == Canonical(v) && Canonical(w) + [] == Canonical(w);
  }

  // ---------------------------------------------------------------------------------------------
  // Key order, precisely

  lemma {:induction false} BeforeIsTotal(a: Text, b: Text)
    ensures Before(a, b) || Before(b, a)
    ensures Before(a, b) && Before(b, a) ==> a == b
    decreases |a|
  {
    if a != [] && b != [] {
      BeforeIsTotal(a[1..], b[1..]);
      assert a == [a[0]] + a[1..] && b == [b[0]] + b[1..];
    }
  }

  lemma {:induction false} BeforeIsTransitive(a: Text, b: Text, c: Text)
    requires Before(a, b) && Before(b, c)
    ensures Before(a, c)
    decreases |a|
  {
    if a != [] && a[0] == b[0] == c[0] {
      BeforeIsTransitive(a[1..], b[1..], c[1..]);
    }
  }

  predicate Ordered(fields: seq<Field>) { forall i, j :: 0 <= i < j < |fields| ==> Before(fields[i].key, fields[j].key) }

  predicate Distinct(fields: seq<Field>) { forall i, j :: 0 <= i < j < |fields| ==> fields[i].key != fields[j].key }

  lemma {:induction false} InsertOrdered(f: Field, fields: seq<Field>)
    requires Ordered(fields)
    ensures Ordered(Insert(f, fields)) && multiset(Insert(f, fields)) == multiset{f} + multiset(fields)
  {
    hide Before;
    var r := Insert(f, fields);
    if fields != [] {
      assert fields == [fields[0]] + fields[1..];
      BeforeIsTotal(f.key, fields[0].key);
      if Before(f.key, fields[0].key) {
        forall j | 0 < j < |r| ensures Before(f.key, r[j].key) {
          if j > 1 { BeforeIsTransitive(f.key, fields[0].key, fields[j - 1].key); }
        }
      } else {
        InsertOrdered(f, fields[1..]);
        var rest := Insert(f, fields[1..]);
        forall j | 0 <= j < |rest| ensures Before(fields[0].key, rest[j].key) {
          assert rest[j] in multiset(rest);
          if rest[j] != f { assert rest[j] in fields[1..]; }
        }
      }
    }
  }

  lemma {:induction false} SortOrders(fields: seq<Field>)
    ensures Ordered(Sort(fields)) && multiset(Sort(fields)) == multiset(fields)
  {
    if fields != [] {
      SortOrders(fields[1..]);
      InsertOrdered(fields[0], Sort(fields[1..]));
      assert fields == [fields[0]] + fields[1..];
    }
  }

  lemma DistinctStays(a: seq<Field>, b: seq<Field>)
    requires multiset(a) == multiset(b) && Distinct(a)
    ensures forall x, y :: x in b && y in b && x.key == y.key ==> x == y
  {
    forall x, y | x in b && y in b && x.key == y.key ensures x == y {
      assert x in multiset(a) && y in multiset(a);
    }
  }

  /** The first key of an ordered list is before every key in it. */
  lemma FirstIsLeast(a: seq<Field>, f: Field)
    requires Ordered(a) && f in multiset(a)
    ensures a != [] && Before(a[0].key, f.key)
  {
    hide Before;
    var i :| 0 <= i < |a| && a[i] == f;
    BeforeIsTotal(f.key, f.key);
  }

  lemma TailsMatch(a: seq<Field>, b: seq<Field>)
    requires a != [] && b != [] && a[0] == b[0] && multiset(a) == multiset(b)
    ensures multiset(a[1..]) == multiset(b[1..])
  {
    assert a == [a[0]] + a[1..] && b == [b[0]] + b[1..];
    assert multiset(a) == multiset{a[0]} + multiset(a[1..]);
    assert multiset(b) == multiset{a[0]} + multiset(b[1..]);
    forall x ensures multiset(a[1..])[x] == multiset(b[1..])[x] {
      assert multiset(a)[x] == multiset{a[0]}[x] + multiset(a[1..])[x];
      assert multiset(b)[x] == multiset{a[0]}[x] + multiset(b[1..])[x];
    }
  }

  /** Two ordered lists of the same fields with distinct keys are equal. */
  lemma {:induction false} OrderedIsUnique(a: seq<Field>, b: seq<Field>)
    requires Ordered(a) && Ordered(b) && multiset(a) == multiset(b)
    requires forall x, y :: x in b && y in b && x.key == y.key ==> x == y
    ensures a == b
    decreases |a|
  {
    hide Before;
    if a == [] {
      assert |multiset(b)| == 0;
    } else {
      assert a[0] in multiset(b);
      FirstIsLeast(b, a[0]);
      assert b[0] in multiset(a);
      FirstIsLeast(a, b[0]);
      BeforeIsTotal(a[0].key, b[0].key);
      assert a[0] in b && b[0] in b;
      TailsMatch(a, b);
      assert forall x :: x in b[1..] ==> x in b;
      OrderedIsUnique(a[1..], b[1..]);
      assert a == [a[0]] + a[1..] && b == [b[0]] + b[1..];
    }
  }

  /** Two objects with the same fields, in whatever order they were inserted, have the same canonical text. */
  lemma InsertionOrderIsIrrelevant(a: seq<Field>, b: seq<Field>)
    requires Distinct(a) && multiset(a) == multiset(b)
    ensures Canonical(Obj(a)) == Canonical(Obj(b))
  {
    hide Sort;
    SortOrders(a);
    SortOrders(b);
    DistinctStays(a, Sort(b));
    OrderedIsUnique(Sort(a), Sort(b));
    CanonicalEquations(Obj(a));
    CanonicalEquations(Obj(b));
  }
}
