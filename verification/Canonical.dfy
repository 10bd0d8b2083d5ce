/**
 Canonical JSON text (apps/control-api/src/security.ts, `canonical`), for plain JSON values: null, booleans, finite
 numbers, strings, arrays and objects with their keys in insertion order.
 */
module CanonicalJson {
  import opened Contracts

  /** A string of the language: a sequence of UTF-16 code units. */
  type Unit = u: int | 0 <= u < 0x1_0000
  type Text = seq<Unit>

  /** A number is known by the text that `JSON.stringify` gives it. */
  datatype Json = Null | Bool(b: bool) | Num(text: Text) | Str(s: Text) | Arr(items: seq<Json>) | Obj(fields: seq<Field>)
  datatype Field = Field(key: Text, value: Json)

  const QUOTE: Unit := 34
  const SLASH: Unit := 92
  const COMMA: Unit := 44
  const COLON: Unit := 58
  const OPEN: Unit := 91
  const CLOSE: Unit := 93
  const BEGIN: Unit := 123
  const END: Unit := 125
  const LETTER_U: Unit := 117
  const NULL: Text := [110, 117, 108, 108]
  const TRUE: Text := [116, 114, 117, 101]
  const FALSE: Text := [102, 97, 108, 115, 101]

  predicate NumUnit(u: Unit) { 48 <= u <= 57 || u == 43 || u == 45 || u == 46 || u == 69 || u == 101 }
  predicate NumText(t: Text) { t != [] && forall i :: 0 <= i < |t| ==> NumUnit(t[i]) }

  // ---------------------------------------------------------------------------------------------
  // Strings

  function HexDigit(n: int): Unit
    requires 0 <= n < 16
  {
    if n < 10 then 48 + n else 87 + n
  }

  function Hex(u: Unit): Text { [HexDigit(u / 4096), HexDigit(u / 256 % 16), HexDigit(u / 16 % 16), HexDigit(u % 16)] }

  predicate High(u: Unit) { 0xD800 <= u < 0xDC00 }
  predicate Low(u: Unit) { 0xDC00 <= u < 0xE000 }

  /** One unit inside a string literal. */
  function EscapeUnit(u: Unit): Text
  {
    if u == QUOTE || u == SLASH then [SLASH, u]
    else if u == 8 then [SLASH, 98]
    else if u == 9 then [SLASH, 116]
    else if u == 10 then [SLASH, 110]
    else if u == 12 then [SLASH, 102]
    else if u == 13 then [SLASH, 114]
    else if u < 32 || High(u) || Low(u) then [SLASH, LETTER_U] + Hex(u)
    else [u]
  }

  /** Surrogate pairs stay as they are, lone surrogates are escaped. */
  function Escape(s: Text): Text
    decreases |s|
  {
    if s == [] then []
    else if |s| >= 2 && High(s[0]) && Low(s[1]) then [s[0], s[1]] + Escape(s[2..])
    else EscapeUnit(s[0]) + Escape(s[1..])
  }

  function Quoted(s: Text): Text { [QUOTE] + Escape(s) + [QUOTE] }

  // ---------------------------------------------------------------------------------------------
  // Sorting keys

  /** The default order of `sort()`: by code units. */
  predicate Before(a: Text, b: Text)
    decreases |a|
  {
    a == [] || (b != [] && (a[0] < b[0] || (a[0] == b[0] && Before(a[1..], b[1..]))))
  }

  function Insert(f: Field, fields: seq<Field>): seq<Field>
  {
    if fields == [] then [f]
    else if Before(f.key, fields[0].key) then [f] + fields
    else [fields[0]] + Insert(f, fields[1..])
  }

  function Sort(fields: seq<Field>): seq<Field>
  {
    if fields == [] then [] else Insert(fields[0], Sort(fields[1..]))
  }

  /** The same value with the keys of every object sorted. */
  function Normal(v: Json): Json
  {
    match v
    case Arr(items) => Arr(NormalItems(items))
    case Obj(fields) => Obj(Sort(NormalFields(fields)))
    case _ => v
  }

  function NormalItems(items: seq<Json>): seq<Json>
  {
    if items == [] then [] else [Normal(items[0])] + NormalItems(items[1..])
  }

  function NormalFields(fields: seq<Field>): seq<Field>
  {
    if fields == [] then [] else [Field(fields[0].key, Normal(fields[0].value))] + NormalFields(fields[1..])
  }

  // ---------------------------------------------------------------------------------------------
  // Printing

  /** The text of a value whose keys are printed in the order given. */
  function Flat(v: Json): Text
  {
    match v
    case Null => NULL
    case Bool(b) => if b then TRUE else FALSE
    case Num(text) => text
    case Str(s) => Quoted(s)
    case Arr(items) => [OPEN] + FlatItems(items) + [CLOSE]
    case Obj(fields) => [BEGIN] + FlatFields(fields) + [END]
  }

  function FlatItems(items: seq<Json>): Text
  {
    if items == [] then [] else if |items| == 1 then Flat(items[0]) else Flat(items[0]) + [COMMA] + FlatItems(items[1..])
  }

  function FlatFields(fields: seq<Field>): Text
  {
    if fields == [] then []
    else
      var first := Quoted(fields[0].key) + [COLON] + Flat(fields[0].value);
      if |fields| == 1 then first else first + [COMMA] + FlatFields(fields[1..])
  }

  function Canonical(v: Json): Text { Flat(Normal(v)) }

  /** `Object.keys(value).sort().map(key => …canonical(value[key])).join(",")`. */
  function CanonicalFields(sorted: seq<Field>): Text
  {
    if sorted == [] then []
    else
      var first := Quoted(sorted[0].key) + [COLON] + Canonical(sorted[0].value);
      if |sorted| == 1 then first else first + [COMMA] + CanonicalFields(sorted[1..])
  }

  function CanonicalItems(items: seq<Json>): Text
  {
    if items == [] then []
    else if |items| == 1 then Canonical(items[0])
    else Canonical(items[0]) + [COMMA] + CanonicalItems(items[1..])
  }

  lemma {:induction false} InsertNormal(f: Field, fields: seq<Field>)
    ensures NormalFields(Insert(f, fields)) == Insert(Field(f.key, Normal(f.value)), NormalFields(fields))
  {
    if fields == [] {
      assert NormalFields([f]) == [Field(f.key, Normal(f.value))] + NormalFields([]);
    } else {
      assert fields == [fields[0]] + fields[1..];
      if Before(f.key, fields[0].key) {
        assert ([f] + fields)[1..] == fields;
      } else {
        InsertNormal(f, fields[1..]);
        assert ([fields[0]] + Insert(f, fields[1..]))[1..] == Insert(f, fields[1..]);
        assert NormalFields(fields)[1..] == NormalFields(fields[1..]);
      }
    }
  }

  lemma {:induction false} SortNormal(fields: seq<Field>)
    ensures Sort(NormalFields(fields)) == NormalFields(Sort(fields))
  {
    if fields != [] {
      SortNormal(fields[1..]);
      InsertNormal(fields[0], Sort(fields[1..]));
      assert NormalFields(fields)[1..] == NormalFields(fields[1..]);
    }
  }

  lemma {:induction false} FieldsPrint(sorted: seq<Field>)
    ensures FlatFields(NormalFields(sorted)) == CanonicalFields(sorted)
  {
    if sorted != [] {
      FieldsPrint(sorted[1..]);
      assert NormalFields(sorted)[1..] == NormalFields(sorted[1..]);
      assert |sorted| == 1 ==> sorted[1..] == [];
      assert |sorted| > 1 ==> |NormalFields(sorted[1..])| > 0;
    }
  }

  lemma {:induction false} ItemsPrint(items: seq<Json>)
    ensures FlatItems(NormalItems(items)) == CanonicalItems(items)
  {
    if items != [] {
      ItemsPrint(items[1..]);
      assert NormalItems(items)[1..] == NormalItems(items[1..]);
      assert |items| == 1 ==> items[1..] == [];
      assert |items| > 1 ==> |NormalItems(items[1..])| > 0;
    }
  }

  /** The recursion equations of the source: sort the keys, print each value canonically, join with commas. */
  lemma CanonicalEquations(v: Json)
    ensures v.Arr? ==> Canonical(v) == [OPEN] + CanonicalItems(v.items) + [CLOSE]
    ensures v.Obj? ==> Canonical(v) == [BEGIN] + CanonicalFields(Sort(v.fields)) + [END]
    ensures v.Str? ==> Canonical(v) == Quoted(v.s)
    ensures v.Num? ==> Canonical(v) == v.text
  {
    match v
    case Arr(items) => ItemsPrint(items);
    case Obj(fields) => SortNormal(fields); FieldsPrint(Sort(fields));
    case _ =>
  }
}
