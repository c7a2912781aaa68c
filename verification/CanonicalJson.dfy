/** Canonical argument documents (crates/epoch-effects): objects with their keys in order, at every depth. */
module CanonicalJson {
  import opened Ordering

  /** A document whose objects remember the order of their entries. */
  datatype Json = Scalar(text: string) | Array(items: seq<Json>) | Object(fields: seq<Field>)
  datatype Field = Field(key: string, value: Json)

  /** Objects are maps: no key occurs twice. */
  predicate DistinctKeys(fields: seq<Field>) {
    forall i, j :: 0 <= i < j < |fields| ==> fields[i].key != fields[j].key
  }

  predicate IsDocument(v: Json) {
    match v
    case Scalar(_) => true
    case Array(items) => forall i :: 0 <= i < |items| ==> IsDocument(items[i])
    case Object(fields) => DistinctKeys(fields) && forall i :: 0 <= i < |fields| ==> IsDocument(fields[i].value)
  }

  // ---------------------------------------------------------------- sorting entries by key

  predicate KeyAtMost(x: Field, y: Field) {
    x.key == y.key || Before(x.key, y.key)
  }

  predicate KeyBefore(x: Field, y: Field) {
    Before(x.key, y.key)
  }

  /** `entries.sort_by` on the keys */
  function SortByKey(s: seq<Field>): (r: seq<Field>)
    ensures |r| == |s|
    ensures forall f :: f in r <==> f in s
  {
    SortPermutes(s, KeyAtMost);
    Sort(s, KeyAtMost)
  }

  lemma KeysAreOrdered()
    ensures Transitive(KeyBefore) && Asymmetric(KeyBefore)
  {
    forall x, y, z | KeyBefore(x, y) && KeyBefore(y, z) ensures KeyBefore(x, z) {
      BeforeIsTransitive(x.key, y.key, z.key);
    }
    forall x, y | KeyBefore(x, y) ensures !KeyBefore(y, x) {
      BeforeIsAsymmetric(x.key, y.key);
    }
  }

  lemma SortByKeyIncreases(s: seq<Field>)
    requires DistinctKeys(s)
    ensures Increasing(SortByKey(s), KeyBefore)
  {
    KeysAreOrdered();
    forall i | 0 <= i < |s| ensures Decides(s[..i], s[i], KeyAtMost, KeyBefore) {
      forall y | y in s[..i] ensures if KeyAtMost(y, s[i]) then KeyBefore(y, s[i]) else KeyBefore(s[i], y) {
        BeforeIsTotal(y.key, s[i].key);
      }
    }
    SortIncreases(s, KeyAtMost, KeyBefore);
  }

  // ---------------------------------------------------------------- canonicalize_value

  /** `canonicalize_value` */
  function Canonical(v: Json): Json
    decreases v
  {
    match v
    case Scalar(_) => v
    case Array(items) => Array(seq(|items|, i requires 0 <= i < |items| => Canonical(items[i])))
    case Object(fields) =>
      var sorted := SortByKey(fields);
      Object(seq(|sorted|, i requires 0 <= i < |sorted| =>
        (assert sorted[i] in fields; Field(sorted[i].key, Canonical(sorted[i].value)))))
  }

  function CanonicalFields(fields: seq<Field>): seq<Field> {
    Canonical(Object(fields)).fields
  }

  function CanonicalField(f: Field): Field {
    Field(f.key, Canonical(f.value))
  }

  lemma CanonicalAt(fields: seq<Field>, i: nat)
    requires i < |fields|
    ensures |CanonicalFields(fields)| == |fields|
    ensures CanonicalFields(fields)[i] == CanonicalField(SortByKey(fields)[i])
  {
  }

  /** The entries of a canonical object are the canonical entries of the object. */
  lemma CanonicalEntries(fields: seq<Field>, f: Field)
    ensures |CanonicalFields(fields)| == |fields|
    ensures f in CanonicalFields(fields) <==> exists g :: g in fields && f == CanonicalField(g)
  {
    var sorted, c := SortByKey(fields), CanonicalFields(fields);
    forall i | 0 <= i < |fields| ensures c[i] == CanonicalField(sorted[i]) {
      CanonicalAt(fields, i);
    }
    hide Canonical, CanonicalFields, CanonicalField, SortByKey;
    if f in c {
      var i :| 0 <= i < |c| && c[i] == f;
      assert sorted[i] in fields;
    }
    if g :| g in fields && f == CanonicalField(g) {
      assert g in sorted;
      var i :| 0 <= i < |sorted| && sorted[i] == g;
      assert c[i] == f;
    }
  }

  lemma CanonicalIncreases(fields: seq<Field>)
    requires DistinctKeys(fields)
    ensures Increasing(CanonicalFields(fields), KeyBefore)
  {
    SortByKeyIncreases(fields);
    var sorted, c := SortByKey(fields), CanonicalFields(fields);
    forall i | 0 <= i < |fields| ensures c[i].key == sorted[i].key {
      CanonicalAt(fields, i);
    }
    hide Canonical, CanonicalFields, SortByKey;
  }

  // ---------------------------------------------------------------- equality up to key order

  /** Entry `f` of one object has a counterpart in another. */
  predicate Matched(f: Field, fields: seq<Field>)
    decreases f.value, 1
  {
    exists j :: 0 <= j < |fields| && fields[j].key == f.key && Same(f.value, fields[j].value)
  }

  /** Two documents that differ at most in the order of object keys, at any depth. */
  predicate Same(x: Json, y: Json)
    decreases x, 0
  {
    match x
    case Scalar(_) => x == y
    case Array(items) => y.Array? && |items| == |y.items| && forall i :: 0 <= i < |items| ==> Same(items[i], y.items[i])
    case Object(fields) => y.Object? && |fields| == |y.fields| && forall i :: 0 <= i < |fields| ==>
        Matched(fields[i], y.fields)
  }

  // ---------------------------------------------------------------- the theorems

  lemma {:induction false} SameArrays(x: seq<Json>, y: seq<Json>)
    requires |x| == |y| && forall i :: 0 <= i < |x| ==> Canonical(x[i]) == Canonical(y[i])
    ensures Canonical(Array(x)) == Canonical(Array(y))
  {
  }

  lemma SameObjects(x: seq<Field>, y: seq<Field>)
    requires DistinctKeys(x) && DistinctKeys(y) && |x| == |y|
    requires forall f :: f in x ==> exists g :: g in y && CanonicalField(f) == CanonicalField(g)
    ensures Canonical(Object(x)) == Canonical(Object(y))
  {
    var c, d := CanonicalFields(x), CanonicalFields(y);
    CanonicalIncreases(x);
    CanonicalIncreases(y);
    forall f | f in c ensures f in d {
      CanonicalEntries(x, f);
      CanonicalEntries(y, f);
    }
    CanonicalEntries(x, Field("", Scalar("")));
    CanonicalEntries(y, Field("", Scalar("")));
    hide CanonicalField;
    KeysAreOrdered();
    IncreasingCovers(c, d, KeyBefore);
    IncreasingIsUnique(c, d, KeyBefore);
  }

  lemma {:induction false} SameIsCanonical(x: Json, y: Json)
    requires IsDocument(x) && IsDocument(y) && Same(x, y)
    ensures Canonical(x) == Canonical(y)
    decreases x
  {
    match x
    case Scalar(_) =>
    case Array(items) =>
      forall i | 0 <= i < |items| ensures Canonical(items[i]) == Canonical(y.items[i]) {
        SameIsCanonical(items[i], y.items[i]);
      }
      SameArrays(items, y.items);
    case Object(fields) =>
      forall f | f in fields ensures exists g :: g in y.fields && CanonicalField(f) == CanonicalField(g) {
        var i :| 0 <= i < |fields| && fields[i] == f;
        assert Matched(fields[i], y.fields);
        var j :| 0 <= j < |y.fields| && y.fields[j].key == f.key && Same(f.value, y.fields[j].value);
        SameIsCanonical(fields[i].value, y.fields[j].value);
        assert y.fields[j] in y.fields;
      }
      SameObjects(fields, y.fields);
  }

  lemma {:induction false} CanonicalIsSame(x: Json, y: Json)
    requires Canonical(x) == Canonical(y)
    ensures Same(x, y)
    decreases x
  {
    match x
    case Scalar(_) =>
    case Array(items) =>
      var c := Canonical(x).items;
      assert |items| == |c| == |y.items|;
      forall i | 0 <= i < |items| ensures Same(items[i], y.items[i]) {
        assert c[i] == Canonical(items[i]) && c[i] == Canonical(y.items[i]);
        CanonicalIsSame(items[i], y.items[i]);
      }
    case Object(fields) =>
      assert CanonicalFields(fields) == CanonicalFields(y.fields);
      CanonicalEntries(fields, Field("", Scalar("")));
      CanonicalEntries(y.fields, Field("", Scalar("")));
      forall i | 0 <= i < |fields| ensures Matched(fields[i], y.fields) {
        var f := CanonicalField(fields[i]);
        assert fields[i] in fields;
        CanonicalEntries(fields, f);
        CanonicalEntries(y.fields, f);
        var g :| g in y.fields && f == CanonicalField(g);
        var j :| 0 <= j < |y.fields| && y.fields[j] == g;
        CanonicalIsSame(fields[i].value, y.fields[j].value);
      }
  }

  /** Two documents have one canonical form exactly when they differ only by object-key order, at any depth. */
  lemma CanonicalExactlyWhenSame(x: Json, y: Json)
    requires IsDocument(x) && IsDocument(y)
    ensures Canonical(x) == Canonical(y) <==> Same(x, y)
  {
    if Same(x, y) { SameIsCanonical(x, y); }
    if Canonical(x) == Canonical(y) { CanonicalIsSame(x, y); }
  }

  lemma {:induction false} CanonicalIsDocument(x: Json)
    requires IsDocument(x)
    ensures IsDocument(Canonical(x)) && Same(x, Canonical(x))
    decreases x
  {
    match x
    case Scalar(_) =>
    case Array(items) =>
      forall i | 0 <= i < |items| ensures IsDocument(Canonical(items[i])) && Same(items[i], Canonical(items[i])) {
        CanonicalIsDocument(items[i]);
      }
    case Object(fields) =>
      forall f | f in fields ensures IsDocument(Canonical(f.value)) && Same(f.value, Canonical(f.value)) {
        var i :| 0 <= i < |fields| && fields[i] == f;
        CanonicalIsDocument(fields[i].value);
      }
      CanonicalObjectIsDocument(fields);
  }

  lemma CanonicalObjectIsDocument(fields: seq<Field>)
    requires DistinctKeys(fields)
    requires forall f :: f in fields ==> IsDocument(Canonical(f.value)) && Same(f.value, Canonical(f.value))
    ensures IsDocument(Canonical(Object(fields))) && Same(Object(fields), Canonical(Object(fields)))
  {
    var c := CanonicalFields(fields);
    assert Canonical(Object(fields)) == Object(c);
    CanonicalIncreases(fields);
    CanonicalEntries(fields, Field("", Scalar("")));
    hide Canonical, CanonicalFields;
    forall i, j | 0 <= i < j < |c| ensures c[i].key != c[j].key {
      BeforeIsAsymmetric(c[i].key, c[j].key);
    }
    forall i | 0 <= i < |c| ensures IsDocument(c[i].value) {
      CanonicalEntries(fields, c[i]);
    }
    forall i | 0 <= i < |fields| ensures Matched(fields[i], c) {
      assert fields[i] in fields;
      CanonicalEntries(fields, CanonicalField(fields[i]));
    }
  }

  /** Canonicalizing twice changes nothing. */
  lemma CanonicalIsIdempotent(x: Json)
    requires IsDocument(x)
    ensures Canonical(Canonical(x)) == Canonical(x)
  {
    CanonicalIsDocument(x);
    SameIsCanonical(x, Canonical(x));
  }

  /** Every object, at any depth, has its keys in strictly increasing order. */
  predicate KeysInOrder(v: Json) {
    match v
    case Scalar(_) => true
    case Array(items) => forall i :: 0 <= i < |items| ==> KeysInOrder(items[i])
    case Object(fields) =>
      && (forall i, j :: 0 <= i < j < |fields| ==> Before(fields[i].key, fields[j].key))
      && (forall i :: 0 <= i < |fields| ==> KeysInOrder(fields[i].value))
  }

  lemma {:induction false} CanonicalIsInOrder(x: Json)
    requires IsDocument(x)
    ensures KeysInOrder(Canonical(x))
    decreases x
  {
    match x
    case Scalar(_) =>
    case Array(items) =>
      forall i | 0 <= i < |items| ensures KeysInOrder(Canonical(items[i])) { CanonicalIsInOrder(items[i]); }
    case Object(fields) =>
      forall f | f in fields ensures KeysInOrder(Canonical(f.value)) {
        var i :| 0 <= i < |fields| && fields[i] == f;
        CanonicalIsInOrder(fields[i].value);
      }
      var c := CanonicalFields(fields);
      assert Canonical(x) == Object(c);
      CanonicalIncreases(fields);
      forall i, j | 0 <= i < j < |c| ensures Before(c[i].key, c[j].key) { assert KeyBefore(c[i], c[j]); }
      forall i | 0 <= i < |c| ensures KeysInOrder(c[i].value) { CanonicalEntries(fields, c[i]); }
  }
}
