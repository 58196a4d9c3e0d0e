/** Final-result payloads as JSON trees and their canonical form (src/results/final-result.js).
    An object is the list of its fields in property order, so two trees that differ only in the
    order of keys are different values here. */
module CanonicalJson {

  datatype Json =
    | Null
    | Boolean(flag: bool)
    | Number(number: real)
    | Text(text: string)
    | Array(items: seq<Json>)
    | Object(fields: seq<Field>)

  datatype Field = Field(key: string, value: Json)

  // -------------------------------------------------------------------------------------------
  // Key order
  // -------------------------------------------------------------------------------------------

  /** Strict lexicographic order on keys, as JavaScript compares strings. */
  predicate KeyLess(a: string, b: string)
    decreases |a|
  {
    |b| > 0 && (|a| == 0 || a[0] < b[0] || (a[0] == b[0] && KeyLess(a[1..], b[1..])))
  }

  lemma {:induction false} KeyLessIsTotal(a: string, b: string)
    ensures a == b ==> !KeyLess(a, b)
    ensures a != b ==> KeyLess(a, b) || KeyLess(b, a)
    decreases |a|
  {
    if |a| > 0 && |b| > 0 {
      KeyLessIsTotal(a[1..], b[1..]);
      assert a == [a[0]] + a[1..] && b == [b[0]] + b[1..];
    }
  }

  lemma {:induction false} KeyLessIsTransitive(a: string, b: string, c: string)
    requires KeyLess(a, b) && KeyLess(b, c)
    ensures KeyLess(a, c)
    decreases |a|
  {
    if |a| > 0 && a[0] == b[0] == c[0] {
      KeyLessIsTransitive(a[1..], b[1..], c[1..]);
    }
  }

  predicate DistinctKeys(fields: seq<Field>) {
    forall i, j :: 0 <= i < j < |fields| ==> fields[i].key != fields[j].key
  }

  predicate StrictlySorted(fields: seq<Field>) {
    forall i, j :: 0 <= i < j < |fields| ==> KeyLess(fields[i].key, fields[j].key)
  }

  function Insert(field: Field, sorted: seq<Field>): (r: seq<Field>)
    ensures multiset(r) == multiset(sorted) + multiset{field}
    ensures |r| == |sorted| + 1
  {
    if sorted == [] || KeyLess(field.key, sorted[0].key) then
      [field] + sorted
    else
      assert sorted == [sorted[0]] + sorted[1..];
      [sorted[0]] + Insert(field, sorted[1..])
  }

  /** The fields of an object ordered by key. */
  function SortByKey(fields: seq<Field>): (r: seq<Field>)
    ensures multiset(r) == multiset(fields)
    ensures |r| == |fields|
  {
    if fields == [] then [] else
      assert fields == [fields[0]] + fields[1..];
      Insert(fields[0], SortByKey(fields[1..]))
  }

  lemma SameMembers(a: seq<Field>, b: seq<Field>)
    requires multiset(a) == multiset(b)
    ensures forall f :: f in a <==> f in b
  {
    forall f ensures f in a <==> f in b {
      assert f in a <==> f in multiset(a);
      assert f in b <==> f in multiset(b);
    }
  }

  lemma {:induction false} InsertKeepsSorted(field: Field, sorted: seq<Field>)
    requires StrictlySorted(sorted)
    requires forall f :: f in sorted ==> f.key != field.key
    ensures StrictlySorted(Insert(field, sorted))
  {
    if sorted == [] {
    } else if KeyLess(field.key, sorted[0].key) {
      forall i | 0 <= i < |sorted| ensures KeyLess(field.key, sorted[i].key) {
        if i > 0 { KeyLessIsTransitive(field.key, sorted[0].key, sorted[i].key); }
      }
    } else {
      var rest := Insert(field, sorted[1..]);
      InsertKeepsSorted(field, sorted[1..]);
      assert sorted[0] in sorted;
      KeyLessIsTotal(sorted[0].key, field.key);
      SameMembers(rest, sorted[1..] + [field]);
      forall i | 0 <= i < |rest| ensures KeyLess(sorted[0].key, rest[i].key) {
        assert rest[i] in sorted[1..] + [field];
      }
    }
  }

  lemma {:induction false} SortByKeySorts(fields: seq<Field>)
    requires DistinctKeys(fields)
    ensures StrictlySorted(SortByKey(fields))
  {
    if fields != [] {
      SortByKeySorts(fields[1..]);
      SameMembers(SortByKey(fields[1..]), fields[1..]);
      InsertKeepsSorted(fields[0], SortByKey(fields[1..]));
    }
  }

  /** A strictly sorted list is determined by its members. */
  lemma {:induction false} SortedListIsUnique(a: seq<Field>, b: seq<Field>)
    requires StrictlySorted(a) && StrictlySorted(b)
    requires forall f :: f in a <==> f in b
    ensures a == b
  {
    if a != [] {
      assert a[0] in b;
    }
    if b != [] {
      assert b[0] in a;
    }
    if a != [] && b != [] {
      if a[0] != b[0] {
        var i :| 0 < i < |b| && b[i] == a[0] by { assert a[0] in b; }
        var j :| 0 < j < |a| && a[j] == b[0] by { assert b[0] in a; }
        KeyLessIsTransitive(b[0].key, a[0].key, b[0].key);
        KeyLessIsTotal(b[0].key, b[0].key);
      }
      forall f ensures f in a[1..] <==> f in b[1..] {
        TailMembers(a, f);
        TailMembers(b, f);
      }
      SortedListIsUnique(a[1..], b[1..]);
      assert a == [a[0]] + a[1..] && b == [b[0]] + b[1..];
    }
  }

  lemma TailMembers(a: seq<Field>, f: Field)
    requires StrictlySorted(a) && a != []
    ensures f in a[1..] <==> f in a && f != a[0]
  {
    if f == a[0] && f in a[1..] {
      var i :| 0 < i < |a| && a[i] == f;
      KeyLessIsTotal(f.key, f.key);
    }
    if f in a && f != a[0] {
      var i :| 0 <= i < |a| && a[i] == f;
      assert a[1..][i - 1] == f;
    }
  }

  // -------------------------------------------------------------------------------------------
  // Canonical form
  // -------------------------------------------------------------------------------------------

  /** The tree with the keys of every object sorted, at every depth. */
  function Canonicalize(value: Json): Json {
    match value
    case Array(items) =>
      Array(seq(|items|, i requires 0 <= i < |items| => Canonicalize(items[i])))
    case Object(fields) => Object(SortByKey(CanonicalFields(value)))
    case _ => value
  }

  function CanonicalFields(value: Json): (r: seq<Field>)
    requires value.Object?
    ensures |r| == |value.fields|
    ensures forall i :: 0 <= i < |r| ==> r[i] == Field(value.fields[i].key, Canonicalize(value.fields[i].value))
    decreases value, 0
  {
    seq(|value.fields|, i requires 0 <= i < |value.fields| =>
      Field(value.fields[i].key, Canonicalize(value.fields[i].value)))
  }

  /** No object repeats a key: every JavaScript object meets this. */
  predicate WellFormed(value: Json) {
    match value
    case Array(items) => forall i :: 0 <= i < |items| ==> WellFormed(items[i])
    case Object(fields) =>
      && DistinctKeys(fields)
      && forall i :: 0 <= i < |fields| ==> WellFormed(fields[i].value)
    case _ => true
  }

  predicate HasKey(fields: seq<Field>, key: string) {
    exists i :: 0 <= i < |fields| && fields[i].key == key
  }

  ghost predicate SameKeys(a: seq<Field>, b: seq<Field>) {
    forall key :: HasKey(a, key) <==> HasKey(b, key)
  }

  /** Equality up to the order of object keys, at every depth. */
  ghost predicate Same(a: Json, b: Json) {
    match a
    case Array(items) =>
      b.Array? && |items| == |b.items| && forall i :: 0 <= i < |items| ==> Same(items[i], b.items[i])
    case Object(fields) =>
      && b.Object?
      && SameKeys(fields, b.fields)
      && forall i, j :: 0 <= i < |fields| && 0 <= j < |b.fields| && fields[i].key == b.fields[j].key ==>
           Same(fields[i].value, b.fields[j].value)
    case _ => a == b
  }

  lemma {:induction false} SameObjectsShareCanonicalFields(a: Json, b: Json)
    requires a.Object? && b.Object?
    requires SameKeys(a.fields, b.fields)
    requires forall i, j :: 0 <= i < |a.fields| && 0 <= j < |b.fields| && a.fields[i].key == b.fields[j].key ==>
               Canonicalize(a.fields[i].value) == Canonicalize(b.fields[j].value)
    ensures forall f :: f in CanonicalFields(a) <==> f in CanonicalFields(b)
  {
    var x, y := CanonicalFields(a), CanonicalFields(b);
    forall f | f in x ensures f in y {
      var i :| 0 <= i < |x| && x[i] == f;
      assert HasKey(a.fields, f.key);
      var j :| 0 <= j < |b.fields| && b.fields[j].key == f.key by { assert HasKey(b.fields, f.key); }
      assert y[j] == f;
    }
    forall f | f in y ensures f in x {
      var j :| 0 <= j < |y| && y[j] == f;
      assert HasKey(b.fields, f.key);
      var i :| 0 <= i < |a.fields| && a.fields[i].key == f.key by { assert HasKey(a.fields, f.key); }
      assert x[i] == f;
    }
  }

  /** Objects with equal canonical forms have the same keys, and equal canonical children. */
  lemma EqualCanonicalObjects(a: Json, b: Json)
    requires a.Object? && b.Object? && DistinctKeys(a.fields) && DistinctKeys(b.fields)
    requires Canonicalize(a) == Canonicalize(b)
    ensures SameKeys(a.fields, b.fields)
    ensures forall i, j :: 0 <= i < |a.fields| && 0 <= j < |b.fields| && a.fields[i].key == b.fields[j].key ==>
              Canonicalize(a.fields[i].value) == Canonicalize(b.fields[j].value)
  {
    var x, y := CanonicalFields(a), CanonicalFields(b);
    SameMembers(SortByKey(x), x);
    SameMembers(SortByKey(y), y);
    assert Canonicalize(a).fields == SortByKey(x) && Canonicalize(b).fields == SortByKey(y);
    forall key ensures HasKey(a.fields, key) <==> HasKey(b.fields, key) {
      KeyIsShared(a.fields, b.fields, x, y, key);
      KeyIsShared(b.fields, a.fields, y, x, key);
    }
    forall i, j | 0 <= i < |a.fields| && 0 <= j < |b.fields| && a.fields[i].key == b.fields[j].key
      ensures x[i].value == y[j].value
    {
      assert x[i] in y;
    }
  }

  lemma KeyIsShared(from: seq<Field>, to: seq<Field>, x: seq<Field>, y: seq<Field>, key: string)
    requires |x| == |from| && |y| == |to|
    requires forall i :: 0 <= i < |x| ==> x[i].key == from[i].key
    requires forall i :: 0 <= i < |y| ==> y[i].key == to[i].key
    requires forall f :: f in x ==> f in y
    ensures HasKey(from, key) ==> HasKey(to, key)
  {
    if HasKey(from, key) {
      var i :| 0 <= i < |from| && from[i].key == key;
      assert x[i] in y;
      var j :| 0 <= j < |y| && y[j] == x[i];
      assert to[j].key == key;
    }
  }

  /** Two accepted trees have the same canonical form exactly when they are equal up to the order
      of object keys, at every depth. */
  lemma {:induction false} CanonicalFormDecidesEquality(a: Json, b: Json)
    requires WellFormed(a) && WellFormed(b)
    ensures Canonicalize(a) == Canonicalize(b) <==> Same(a, b)
    decreases a
  {
    if a.Array? && b.Array? && |a.items| == |b.items| {
      forall i | 0 <= i < |a.items|
        ensures Canonicalize(a.items[i]) == Canonicalize(b.items[i]) <==> Same(a.items[i], b.items[i])
      {
        CanonicalFormDecidesEquality(a.items[i], b.items[i]);
      }
      var x, y := Canonicalize(a).items, Canonicalize(b).items;
      assert forall i :: 0 <= i < |x| ==> x[i] == Canonicalize(a.items[i]) && y[i] == Canonicalize(b.items[i]);
      if Same(a, b) {
        assert x == y;
      }
      if x == y {
        forall i | 0 <= i < |x| ensures Same(a.items[i], b.items[i]) {
          assert x[i] == y[i];
        }
      }
    } else if a.Object? && b.Object? {
      forall i, j | 0 <= i < |a.fields| && 0 <= j < |b.fields|
        ensures Canonicalize(a.fields[i].value) == Canonicalize(b.fields[j].value)
           <==> Same(a.fields[i].value, b.fields[j].value)
      {
        CanonicalFormDecidesEquality(a.fields[i].value, b.fields[j].value);
      }
      if Same(a, b) {
        SameObjectsShareCanonicalFields(a, b);
        SortByKeySorts(CanonicalFields(a));
        SortByKeySorts(CanonicalFields(b));
        SameMembers(SortByKey(CanonicalFields(a)), CanonicalFields(a));
        SameMembers(SortByKey(CanonicalFields(b)), CanonicalFields(b));
        SortedListIsUnique(SortByKey(CanonicalFields(a)), SortByKey(CanonicalFields(b)));
      }
      if Canonicalize(a) == Canonicalize(b) {
        EqualCanonicalObjects(a, b);
      }
    } else if a.Array? && b.Array? {
      assert |Canonicalize(a).items| == |a.items| && |Canonicalize(b).items| == |b.items|;
    }
  }

  /** Canonicalizing only reorders keys, and it keeps objects free of repeated keys. */
  lemma {:induction false} CanonicalizeOnlyReorders(a: Json)
    requires WellFormed(a)
    ensures WellFormed(Canonicalize(a)) && Same(a, Canonicalize(a))
    decreases a
  {
    match a
    case Array(items) =>
      forall i | 0 <= i < |items|
        ensures WellFormed(Canonicalize(items[i])) && Same(items[i], Canonicalize(items[i]))
      {
        CanonicalizeOnlyReorders(items[i]);
      }
    case Object(fields) =>
      var x := CanonicalFields(a);
      var sorted := SortByKey(x);
      forall i | 0 <= i < |fields| ensures WellFormed(x[i].value) && Same(fields[i].value, x[i].value) {
        CanonicalizeOnlyReorders(fields[i].value);
      }
      SortByKeySorts(x);
      SameMembers(sorted, x);
      forall i, j | 0 <= i < j < |sorted| ensures sorted[i].key != sorted[j].key {
        KeyLessIsTotal(sorted[i].key, sorted[j].key);
      }
      forall j | 0 <= j < |sorted| ensures exists i :: 0 <= i < |x| && x[i] == sorted[j] {
        assert sorted[j] in x;
      }
      forall i | 0 <= i < |x| ensures exists j :: 0 <= j < |sorted| && x[i] == sorted[j] {
        assert x[i] in sorted;
      }
    case _ =>
  }

  /** Canonicalizing twice changes nothing more. */
  lemma CanonicalizeIsIdempotent(a: Json)
    requires WellFormed(a)
    ensures Canonicalize(Canonicalize(a)) == Canonicalize(a)
  {
    CanonicalizeOnlyReorders(a);
    CanonicalFormDecidesEquality(a, Canonicalize(a));
  }

  // -------------------------------------------------------------------------------------------
  // The recursive procedure of the source
  // -------------------------------------------------------------------------------------------

  function MapFields(fields: seq<Field>): (r: seq<Field>)
    ensures |r| == |fields|
    ensures forall i :: 0 <= i < |r| ==> r[i] == Field(fields[i].key, Canonicalize(fields[i].value))
  {
    seq(|fields|, i requires 0 <= i < |fields| => Field(fields[i].key, Canonicalize(fields[i].value)))
  }

  lemma {:induction false} InsertCommutesWithMap(field: Field, sorted: seq<Field>)
    ensures MapFields(Insert(field, sorted))
         == Insert(Field(field.key, Canonicalize(field.value)), MapFields(sorted))
  {
    var image := Field(field.key, Canonicalize(field.value));
    if sorted == [] || KeyLess(field.key, sorted[0].key) {
      assert MapFields([field] + sorted) == [image] + MapFields(sorted);
    } else {
      InsertCommutesWithMap(field, sorted[1..]);
      assert MapFields(sorted)[1..] == MapFields(sorted[1..]);
      assert MapFields([sorted[0]] + Insert(field, sorted[1..]))
          == [MapFields(sorted)[0]] + MapFields(Insert(field, sorted[1..]));
    }
  }

  /** Sorting the keys first and canonicalizing the children afterwards is the same thing. */
  lemma {:induction false} SortCommutesWithMap(fields: seq<Field>)
    ensures MapFields(SortByKey(fields)) == SortByKey(MapFields(fields))
  {
    if fields != [] {
      SortCommutesWithMap(fields[1..]);
      InsertCommutesWithMap(fields[0], SortByKey(fields[1..]));
      assert MapFields(fields)[1..] == MapFields(fields[1..]);
    }
  }

  /** The procedure: arrays item by item, objects by filling an output in sorted key order. */
  method CanonicalizeTree(value: Json) returns (r: Json)
    ensures r == Canonicalize(value)
    decreases value, 1
  {
    match value
    case Array(items) => r := CanonicalizeItems(value);
    case Object(fields) => r := CanonicalizeFields(value);
    case _ => r := value;
  }

  method CanonicalizeItems(value: Json) returns (r: Json)
    requires value.Array?
    ensures r == Canonicalize(value)
    decreases value, 0
  {
    var items: seq<Json> := [];
    for i := 0 to |value.items|
      invariant |items| == i
      invariant forall k :: 0 <= k < i ==> items[k] == Canonicalize(value.items[k])
    {
      var item := CanonicalizeTree(value.items[i]);
      items := items + [item];
    }
    assert items == Canonicalize(value).items;
    r := Array(items);
  }

  method CanonicalizeFields(value: Json) returns (r: Json)
    requires value.Object?
    ensures r == Canonicalize(value)
    decreases value, 0
  {
    var sorted := SortByKey(value.fields);
    SameMembers(sorted, value.fields);
    var output: seq<Field> := [];
    for i := 0 to |sorted|
      invariant |output| == i
      invariant output == MapFields(sorted[..i])
    {
      assert sorted[i] in value.fields;
      var child := CanonicalizeTree(sorted[i].value);
      output := output + [Field(sorted[i].key, child)];
      assert sorted[..i + 1] == sorted[..i] + [sorted[i]];
    }
    assert sorted[..|sorted|] == sorted;
    SortCommutesWithMap(value.fields);
    assert MapFields(value.fields) == CanonicalFields(value);
    r := Object(output);
  }
}
