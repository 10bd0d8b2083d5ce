/** What canonical text forgets: the order of keys, in every object at every depth, and nothing else. */
module CanonicalOrder {
  import opened CanonicalJson
  import opened CanonicalParser

  /** No object, at any depth, has a key twice: true of every value of the language. */
  predicate Proper(v: Json)
  {
    match v
    case Arr(items) => forall i :: 0 <= i < |items| ==> Proper(items[i])
    case Obj(fields) => Distinct(fields) && forall i :: 0 <= i < |fields| ==> Proper(fields[i].value)
    case _ => true
  }

  /** Equal up to key order at every depth: arrays item by item, objects key by key. */
  predicate Alike(v: Json, w: Json)
    decreases v
  {
    match (v, w)
    case (Arr(a), Arr(b)) => |a| == |b| && forall i :: 0 <= i < |a| ==> Alike(a[i], b[i])
    case (Obj(a), Obj(b)) =>
      |a| == |b| && forall i :: 0 <= i < |a| ==> Found(a[i], b)
    case _ => v == w
  }

  /** The object with these fields has f's key, with a value alike. */
  predicate Found(f: Field, fields: seq<Field>)
    decreases f
  {
    exists j :: 0 <= j < |fields| && fields[j].key == f.key && Alike(f.value, fields[j].value)
  }

  lemma {:induction false} NormalItemAt(items: seq<Json>, i: nat)
    requires i < |items|
    ensures |NormalItems(items)| == |items| && NormalItems(items)[i] == Normal(items[i])
  {
    if |items| > 1 { NormalItemAt(items[1..], if i == 0 then 0 else i - 1); }
  }

  lemma {:induction false} NormalFieldAt(fields: seq<Field>, i: nat)
    requires i < |fields|
    ensures |NormalFields(fields)| == |fields| && NormalFields(fields)[i] == Field(fields[i].key, Normal(fields[i].value))
  {
    if |fields| > 1 { NormalFieldAt(fields[1..], if i == 0 then 0 else i - 1); }
  }

  lemma NormalIsDistinct(fields: seq<Field>)
    requires Distinct(fields)
    ensures |NormalFields(fields)| == |fields| && Distinct(NormalFields(fields))
  {
    hide NormalFields;
    NormalLength(fields);
    forall i, j | 0 <= i < j < |fields| ensures NormalFields(fields)[i].key != NormalFields(fields)[j].key {
      NormalFieldAt(fields, i);
      NormalFieldAt(fields, j);
    }
  }

  lemma {:induction false} NormalLength(fields: seq<Field>)
    ensures |NormalFields(fields)| == |fields|
  {
    if fields != [] { NormalLength(fields[1..]); }
  }

  /** Two lists of one length, without repeated keys, one inside the other, hold the same fields. */
  lemma {:induction false} InsideIsSame(a: seq<Field>, b: seq<Field>)
    requires Distinct(a) && Distinct(b) && |a| == |b| && forall i :: 0 <= i < |a| ==> a[i] in b
    ensures multiset(a) == multiset(b)
  {
    if a == [] {
      assert b == [];
    } else {
      assert a[0] in b;
      var j :| 0 <= j < |b| && b[j] == a[0];
      var rest := b[..j] + b[j + 1..];
      WithoutOne(b, j);
      assert forall i, k :: 0 <= i < k < |a[1..]| ==> a[1..][i] == a[i + 1] && a[1..][k] == a[k + 1];
      forall i | 0 <= i < |a[1..]| ensures a[1..][i] in rest {
        assert a[1..][i] == a[i + 1] && a[i + 1] in b && a[i + 1].key != b[j].key;
      }
      InsideIsSame(a[1..], rest);
      assert a == [a[0]] + a[1..];
    }
  }

  lemma WithoutOne(b: seq<Field>, j: nat)
    requires Distinct(b) && j < |b|
    ensures var rest := b[..j] + b[j + 1..];
            && Distinct(rest) && multiset(b) == multiset{b[j]} + multiset(rest)
            && forall x :: x in b && x != b[j] ==> x in rest
  {
    var rest := b[..j] + b[j + 1..];
    assert b == b[..j] + [b[j]] + b[j + 1..];
    forall i, k | 0 <= i < k < |rest| ensures rest[i].key != rest[k].key {
      assert rest[i] == b[if i < j then i else i + 1] && rest[k] == b[if k < j then k else k + 1];
    }
  }

  /** Objects with the same sorted form have the same fields up to the order, and conversely. */
  lemma {:induction false} SortedSame(a: seq<Field>, b: seq<Field>)
    requires Distinct(a)
    ensures Sort(a) == Sort(b) <==> multiset(a) == multiset(b)
  {
    hide Sort;
    SortOrders(a);
    SortOrders(b);
    if multiset(a) == multiset(b) {
      DistinctStays(a, Sort(b));
      OrderedIsUnique(Sort(a), Sort(b));
    }
  }

  lemma {:induction false} AlikeIsNormal(v: Json, w: Json)
    requires Proper(v) && Proper(w) && Alike(v, w)
    ensures Normal(v) == Normal(w)
    decreases v
  {
    hide Sort, NormalItems, NormalFields, Distinct;
    match (v, w)
    case (Arr(a), Arr(b)) =>
      ItemsLength(a);
      ItemsLength(b);
      forall i | 0 <= i < |a| ensures NormalItems(a)[i] == NormalItems(b)[i] {
        AlikeIsNormal(a[i], b[i]);
        NormalItemAt(a, i);
        NormalItemAt(b, i);
      }
    case (Obj(a), Obj(b)) =>
      NormalIsDistinct(a);
      NormalIsDistinct(b);
      forall i | 0 <= i < |a| ensures NormalFields(a)[i] in NormalFields(b) {
        assert Found(a[i], b);
        var j :| 0 <= j < |b| && b[j].key == a[i].key && Alike(a[i].value, b[j].value);
        AlikeIsNormal(a[i].value, b[j].value);
        NormalFieldAt(a, i);
        NormalFieldAt(b, j);
        assert NormalFields(b)[j] in NormalFields(b);
      }
      InsideIsSame(NormalFields(a), NormalFields(b));
      SortedSame(NormalFields(a), NormalFields(b));
    case _ =>
  }

  lemma {:induction false} ItemsLength(items: seq<Json>)
    ensures |NormalItems(items)| == |items|
  {
    if items != [] { ItemsLength(items[1..]); }
  }

  lemma {:induction false} NormalIsAlike(v: Json, w: Json)
    requires Proper(v) && Normal(v) == Normal(w)
    ensures Alike(v, w)
    decreases v
  {
    hide Sort, NormalItems, NormalFields, Distinct;
    match (v, w)
    case (Arr(a), Arr(b)) =>
      ItemsLength(a);
      ItemsLength(b);
      forall i | 0 <= i < |a| ensures Alike(a[i], b[i]) {
        NormalItemAt(a, i);
        NormalItemAt(b, i);
        NormalIsAlike(a[i], b[i]);
      }
    case (Obj(a), Obj(b)) =>
      NormalIsDistinct(a);
      NormalLength(b);
      SortedSame(NormalFields(a), NormalFields(b));
      SameLength(NormalFields(a), NormalFields(b));
      assert |a| == |b|;
      forall i | 0 <= i < |a| ensures Found(a[i], b) {
        NormalFieldAt(a, i);
        assert NormalFields(a)[i] in multiset(NormalFields(b));
        var j :| 0 <= j < |b| && NormalFields(b)[j] == NormalFields(a)[i];
        NormalFieldAt(b, j);
        NormalIsAlike(a[i].value, b[j].value);
      }
    case _ =>
  }

  lemma SameLength(a: seq<Field>, b: seq<Field>)
    requires multiset(a) == multiset(b)
    ensures |a| == |b|
  {
    assert |multiset(a)| == |a| && |multiset(b)| == |b|;
  }

  /**
   Main result: two values have the same canonical text if and only if they are equal up to the order of keys, in
   objects at every depth.
   */
  lemma {:induction false} TextForgetsOnlyKeyOrder(v: Json, w: Json)
    requires Plain(v) && Plain(w) && Proper(v) && Proper(w)
    ensures Canonical(v) == Canonical(w) <==> Alike(v, w)
  {
    hide Canonical, Normal, Plain, Proper, Alike;
    CanonicalIsInjective(v, w);
    if Normal(v) == Normal(w) { NormalIsAlike(v, w); }
    if Alike(v, w) { AlikeIsNormal(v, w); }
  }
}
