/**
 What a repository trust decision covers (`apps/daemon/src/repository-trust-service.ts`): the canonical
 text determines the value up to the order of object keys, and the digest determines the launch manifest.
 */
module RepositoryTrust {
  import opened Wrappers
  import opened Canonical

  // ---------------------------------------------------------------- sorting by key

  lemma {:induction false} InsertMember(sorted: seq<Field<Json>>, f: Field<Json>, order: Order)
    ensures forall x :: x in Insert(sorted, f, order) <==> x == f || x in sorted
    decreases |sorted|
  {
    if sorted != [] && !order(sorted[|sorted| - 1].key, f.key) {
      InsertMember(sorted[..|sorted| - 1], f, order);
      assert sorted == sorted[..|sorted| - 1] + [sorted[|sorted| - 1]];
    }
  }

  lemma {:induction false} Inserted(sorted: seq<Field<Json>>, f: Field<Json>, order: Order, i: nat)
    requires i < |Insert(sorted, f, order)|
    ensures Insert(sorted, f, order)[i] == f || Insert(sorted, f, order)[i] in sorted
  {
    InsertMember(sorted, f, order);
    var x := Insert(sorted, f, order)[i];
    assert x in Insert(sorted, f, order);
  }

  lemma {:induction false} SortMember(fields: seq<Field<Json>>, order: Order)
    ensures forall x :: x in Sort(fields, order) <==> x in fields
    decreases |fields|
  {
    if fields != [] {
      SortMember(fields[..|fields| - 1], order);
      InsertMember(Sort(fields[..|fields| - 1], order), fields[|fields| - 1], order);
      assert fields == fields[..|fields| - 1] + [fields[|fields| - 1]];
    }
  }

  predicate InOrder(fields: seq<Field<Json>>, order: Order) {
    forall i, j :: 0 <= i < j < |fields| ==> order(fields[i].key, fields[j].key)
  }

  lemma {:induction false} InsertInOrder(sorted: seq<Field<Json>>, f: Field<Json>, order: Order)
    requires Total(order) && InOrder(sorted, order)
    ensures InOrder(Insert(sorted, f, order), order)
    decreases |sorted|
  {
    if sorted == [] {
    } else if order(sorted[|sorted| - 1].key, f.key) {
      var last := sorted[|sorted| - 1];
      forall i | 0 <= i < |sorted| ensures order(sorted[i].key, f.key) {
        assert order(sorted[i].key, last.key);
      }
    } else {
      var init, last := sorted[..|sorted| - 1], sorted[|sorted| - 1];
      InsertInOrder(init, f, order);
      var r := Insert(init, f, order);
      forall i | 0 <= i < |r| ensures order(r[i].key, last.key) {
        Inserted(init, f, order, i);
        if r[i] != f {
          var k :| 0 <= k < |init| && init[k] == r[i];
          assert order(sorted[k].key, last.key);
        }
      }
    }
  }

  lemma {:induction false} SortInOrder(fields: seq<Field<Json>>, order: Order)
    requires Total(order)
    ensures InOrder(Sort(fields, order), order)
    decreases |fields|
  {
    if fields != [] {
      SortInOrder(fields[..|fields| - 1], order);
      InsertInOrder(Sort(fields[..|fields| - 1], order), fields[|fields| - 1], order);
    }
  }

  ghost predicate DistinctKeys(fields: seq<Field<Json>>) {
    forall i, j :: 0 <= i < j < |fields| ==> fields[i].key != fields[j].key
  }

  lemma {:induction false} InsertDistinct(sorted: seq<Field<Json>>, f: Field<Json>, order: Order)
    requires DistinctKeys(sorted) && forall x :: x in sorted ==> x.key != f.key
    ensures DistinctKeys(Insert(sorted, f, order))
    decreases |sorted|
  {
    if sorted != [] && !order(sorted[|sorted| - 1].key, f.key) {
      var init, last := sorted[..|sorted| - 1], sorted[|sorted| - 1];
      InsertDistinct(init, f, order);
      var r := Insert(init, f, order);
      assert last in sorted;
      forall i | 0 <= i < |r| ensures r[i].key != last.key {
        Inserted(init, f, order, i);
        if r[i] != f {
          var k :| 0 <= k < |init| && init[k] == r[i];
          assert sorted[k].key != last.key;
        }
      }
    }
  }

  lemma {:induction false} SortDistinct(fields: seq<Field<Json>>, order: Order)
    requires DistinctKeys(fields)
    ensures DistinctKeys(Sort(fields, order))
    decreases |fields|
  {
    if fields != [] {
      var init, last := fields[..|fields| - 1], fields[|fields| - 1];
      SortDistinct(init, order);
      SortMember(init, order);
      forall x | x in Sort(init, order) ensures x.key != last.key {
        assert x in init;
        var k :| 0 <= k < |init| && init[k] == x;
        assert fields[k].key != fields[|fields| - 1].key;
      }
      InsertDistinct(Sort(init, order), last, order);
    }
  }

  /** No two different keys compare as equal. */
  ghost predicate NoTies(order: Order) {
    forall a, b :: order(a, b) && order(b, a) ==> a == b
  }

  ghost predicate WithinAt(a: seq<Field<Json>>, b: seq<Field<Json>>, x: Field<Json>) {
    x in a ==> x in b
  }

  ghost predicate Within(a: seq<Field<Json>>, b: seq<Field<Json>>) {
    forall x :: WithinAt(a, b, x)
  }

  lemma {:induction false} BeforeLast(a: seq<Field<Json>>, i: nat, order: Order)
    requires InOrder(a, order) && i < |a|
    ensures i == |a| - 1 || order(a[i].key, a[|a| - 1].key)
  {
  }

  lemma {:induction false} LastSame(a: seq<Field<Json>>, b: seq<Field<Json>>, order: Order)
    requires NoTies(order) && InOrder(a, order) && InOrder(b, order) && DistinctKeys(a) && DistinctKeys(b)
    requires a != [] && b != [] && a[|a| - 1] in b && b[|b| - 1] in a
    ensures a[|a| - 1] == b[|b| - 1]
  {
    var i :| 0 <= i < |a| && a[i] == b[|b| - 1];
    var j :| 0 <= j < |b| && b[j] == a[|a| - 1];
    BeforeLast(a, i, order);
    BeforeLast(b, j, order);
  }

  /** Two sorted lists of the same fields are the same list when no keys tie. */
  lemma {:induction false} SortedUnique(a: seq<Field<Json>>, b: seq<Field<Json>>, order: Order)
    requires NoTies(order) && InOrder(a, order) && InOrder(b, order) && DistinctKeys(a) && DistinctKeys(b)
    requires Within(a, b) && Within(b, a)
    ensures a == b
    decreases |a|
  {
    if a == [] {
      assert b == [] || (b[0] in b && WithinAt(b, a, b[0]));
    } else {
      assert WithinAt(a, b, a[|a| - 1]);
      assert b != [];
      assert WithinAt(b, a, b[|b| - 1]);
      LastSame(a, b, order);
      Shorter(a, b);
      Shorter(b, a);
      Front(a, order);
      Front(b, order);
      SortedUnique(a[..|a| - 1], b[..|b| - 1], order);
      Rejoined(a);
      Rejoined(b);
    }
  }

  lemma {:induction false} Rejoined(a: seq<Field<Json>>)
    requires a != []
    ensures a == a[..|a| - 1] + [a[|a| - 1]]
  {
  }

  lemma {:induction false} Front(a: seq<Field<Json>>, order: Order)
    requires a != [] && InOrder(a, order) && DistinctKeys(a)
    ensures InOrder(a[..|a| - 1], order) && DistinctKeys(a[..|a| - 1])
  {
    var s := a[..|a| - 1];
    forall i, j | 0 <= i < j < |s| ensures order(s[i].key, s[j].key) && s[i].key != s[j].key {
      assert order(a[i].key, a[j].key) && a[i].key != a[j].key;
    }
  }

  lemma {:induction false} Shorter(a: seq<Field<Json>>, b: seq<Field<Json>>)
    requires a != [] && b != [] && a[|a| - 1] == b[|b| - 1] && DistinctKeys(a) && Within(a, b)
    ensures Within(a[..|a| - 1], b[..|b| - 1])
  {
    var s, t := a[..|a| - 1], b[..|b| - 1];
    Absent(a, |a| - 1, a[|a| - 1]);
    Rejoined(b);
    forall x ensures WithinAt(s, t, x) { assert WithinAt(a, b, x); }
  }

  lemma {:induction false} Absent(fields: seq<Field<Json>>, n: nat, x: Field<Json>)
    requires DistinctKeys(fields) && n < |fields| && fields[n] == x
    ensures x !in fields[..n]
  {
    forall i | 0 <= i < n ensures fields[..n][i] != x { assert fields[i].key != fields[n].key; }
  }

  // ---------------------------------------------------------------- equal up to key order

  /** Field names are distinct in every object, as they are in the program's language, and number texts are number texts. */
  ghost predicate Valid(v: Json)
    decreases v
  {
    match v
    case Number(text) => WellFormed(v)
    case Arr(items) => forall i :: 0 <= i < |items| ==> Valid(items[i])
    case Obj(fields) => DistinctKeys(fields) && forall i :: 0 <= i < |fields| ==> Valid(fields[i].value)
    case _ => true
  }

  /** Equal but for the order of object keys, with every array read as it prints. */
  ghost predicate Same(v: Json, w: Json)
    decreases v
  {
    if v.Arr? && w.Arr? then
      if v.items == [Undefined] || w.items == [Undefined] then Read(v.items) == Read(w.items) else SameItems(v.items, w.items)
    else if v.Obj? && w.Obj? then Covered(v.fields, w.fields) && KeysIn(w.fields, v.fields)
    else v == w
  }

  ghost predicate SameItems(a: seq<Json>, b: seq<Json>)
    decreases a
  {
    |a| == |b| && (a == [] || (Same(a[0], b[0]) && SameItems(a[1..], b[1..])))
  }

  /** Every field has one with the same key and the same value among the others. */
  ghost predicate Covered(fields: seq<Field<Json>>, others: seq<Field<Json>>)
    decreases fields
  {
    fields == [] || (Covered(fields[1..], others) && exists j :: 0 <= j < |others| && others[j].key == fields[0].key && Same(fields[0].value, others[j].value))
  }

  ghost predicate KeysIn(fields: seq<Field<Json>>, others: seq<Field<Json>>) {
    forall i :: 0 <= i < |fields| ==> exists j :: 0 <= j < |others| && others[j].key == fields[i].key
  }

  lemma {:induction false} CanonItemsAt(items: seq<Json>, order: Order, i: nat)
    requires i < |items|
    ensures CanonItems(items, order)[i] == Canon(items[i], order)
  {
    if i > 0 { CanonItemsAt(items[1..], order, i - 1); }
  }

  lemma {:induction false} CanonFieldsAt(fields: seq<Field<Json>>, order: Order, i: nat)
    requires i < |fields|
    ensures CanonFields(fields, order)[i] == Field(fields[i].key, Canon(fields[i].value, order))
  {
    if i > 0 { CanonFieldsAt(fields[1..], order, i - 1); }
  }

  /** Only an array of one undefined element reads as something else. */
  lemma {:induction false} CanonLone(items: seq<Json>, order: Order)
    ensures CanonItems(items, order) == [Undefined] <==> items == [Undefined]
  {
    if |items| == 1 {
      CanonItemsAt(items, order, 0);
      assert items == [items[0]] && CanonItems(items, order) == [Canon(items[0], order)];
    }
  }

  lemma {:induction false} CanonReadable(v: Json, order: Order)
    requires Valid(v)
    ensures WellFormed(Canon(v, order)) && NoLoneUndefined(Canon(v, order))
    decreases v
  {
    match v {
      case Arr(items) =>
        var canon := CanonItems(items, order);
        forall i | 0 <= i < |canon| ensures WellFormed(canon[i]) && NoLoneUndefined(canon[i]) {
          CanonItemsAt(items, order, i);
          CanonReadable(items[i], order);
        }
      case Obj(fields) =>
        var canon := CanonFields(fields, order);
        forall x | x in canon ensures WellFormed(x.value) && NoLoneUndefined(x.value) {
          var i :| 0 <= i < |canon| && canon[i] == x;
          CanonFieldsAt(fields, order, i);
          CanonReadable(fields[i].value, order);
        }
        SortMember(canon, order);
        var sorted := Sort(canon, order);
        forall i | 0 <= i < |sorted| ensures WellFormed(sorted[i].value) && NoLoneUndefined(sorted[i].value) { assert sorted[i] in sorted; }
      case _ =>
    }
  }

  /** The parser undoes the printer: it gives back the value, with keys in printing order. */
  lemma {:induction false} ParseUndoesCanonical(v: Json, order: Order)
    requires Valid(v)
    ensures Parse(Canonical.Canonical(v, order)) == Some((Canon(v, order), []))
  {
    CanonicalRenders(v, order);
    CanonReadable(v, order);
    ParseUndoesRender(Canon(v, order), []);
    assert Render(Canon(v, order)) + [] == Render(Canon(v, order));
  }

  lemma {:induction false} TextsDetermineCanon(v: Json, w: Json, order: Order)
    requires Valid(v) && Valid(w)
    ensures Canonical.Canonical(v, order) == Canonical.Canonical(w, order) <==> Canon(v, order) == Canon(w, order)
  {
    ParseUndoesCanonical(v, order);
    ParseUndoesCanonical(w, order);
    CanonicalRenders(v, order);
    CanonicalRenders(w, order);
  }

  lemma {:induction false} CanonKind(v: Json, order: Order)
    ensures (Canon(v, order).Arr? <==> v.Arr?) && (Canon(v, order).Obj? <==> v.Obj?)
    ensures !v.Arr? && !v.Obj? ==> Canon(v, order) == v
  {
  }

  lemma {:induction false} CanonSame(v: Json, w: Json, order: Order)
    requires Canon(v, order) == Canon(w, order)
    ensures Same(v, w)
    decreases v
  {
    CanonKind(v, order);
    CanonKind(w, order);
    if v.Arr? {
      CanonLone(v.items, order);
      CanonLone(w.items, order);
      if v.items != [Undefined] && w.items != [Undefined] { CanonSameItems(v.items, w.items, order); }
    } else if v.Obj? {
      var a, b := CanonFields(v.fields, order), CanonFields(w.fields, order);
      SortMember(a, order);
      SortMember(b, order);
      CanonCovered(v.fields, w.fields, order);
      CanonKeysIn(w.fields, v.fields, order);
    }
  }

  lemma {:induction false} CanonSameItems(a: seq<Json>, b: seq<Json>, order: Order)
    requires CanonItems(a, order) == CanonItems(b, order)
    ensures SameItems(a, b)
    decreases a
  {
    if a != [] {
      CanonItemsAt(a, order, 0);
      CanonItemsAt(b, order, 0);
      CanonSame(a[0], b[0], order);
      assert CanonItems(a, order)[1..] == CanonItems(a[1..], order) && CanonItems(b, order)[1..] == CanonItems(b[1..], order);
      CanonSameItems(a[1..], b[1..], order);
    }
  }

  lemma {:induction false} CanonCovered(fields: seq<Field<Json>>, others: seq<Field<Json>>, order: Order)
    requires forall x :: x in CanonFields(fields, order) ==> x in CanonFields(others, order)
    ensures Covered(fields, others)
    decreases fields
  {
    if fields != [] {
      var b := CanonFields(others, order);
      assert CanonFields(fields, order) == [Field(fields[0].key, Canon(fields[0].value, order))] + CanonFields(fields[1..], order);
      CanonCovered(fields[1..], others, order);
      assert CanonFields(fields, order)[0] in b;
      var j :| 0 <= j < |b| && b[j] == CanonFields(fields, order)[0];
      CanonFieldsAt(others, order, j);
      CanonSame(fields[0].value, others[j].value, order);
    }
  }

  lemma {:induction false} CanonKeysIn(fields: seq<Field<Json>>, others: seq<Field<Json>>, order: Order)
    requires forall x :: x in CanonFields(fields, order) ==> x in CanonFields(others, order)
    ensures KeysIn(fields, others)
  {
    var a, b := CanonFields(fields, order), CanonFields(others, order);
    forall i | 0 <= i < |fields| ensures exists j :: 0 <= j < |others| && others[j].key == fields[i].key {
      CanonFieldsAt(fields, order, i);
      assert a[i] in b;
      var j :| 0 <= j < |b| && b[j] == a[i];
      CanonFieldsAt(others, order, j);
    }
  }

  lemma {:induction false} CanonDistinct(fields: seq<Field<Json>>, order: Order)
    requires DistinctKeys(fields)
    ensures DistinctKeys(CanonFields(fields, order))
  {
    var canon := CanonFields(fields, order);
    forall i, j | 0 <= i < j < |canon| ensures canon[i].key != canon[j].key {
      CanonFieldsAt(fields, order, i);
      CanonFieldsAt(fields, order, j);
    }
  }

  lemma {:induction false} SameCanon(v: Json, w: Json, order: Order)
    requires Same(v, w) && Valid(v) && Valid(w) && Total(order) && NoTies(order)
    ensures Canon(v, order) == Canon(w, order)
    decreases v
  {
    if v.Arr? && w.Arr? {
      CanonLone(v.items, order);
      CanonLone(w.items, order);
      if v.items != [Undefined] && w.items != [Undefined] {
        SameCanonItems(v.items, w.items, order);
      } else {
        assert Read(CanonItems(v.items, order)) == [] == Read(CanonItems(w.items, order));
      }
    } else if v.Obj? && w.Obj? {
      var a, b := CanonFields(v.fields, order), CanonFields(w.fields, order);
      CoveredCanon(v.fields, w.fields, order);
      CanonDistinct(v.fields, order);
      CanonDistinct(w.fields, order);
      CoveredBack(v.fields, w.fields, order);
      SortedSame(a, b, order);
    }
  }

  lemma {:induction false} SortedSame(a: seq<Field<Json>>, b: seq<Field<Json>>, order: Order)
    requires Total(order) && NoTies(order) && DistinctKeys(a) && DistinctKeys(b)
    requires (forall x :: x in a ==> x in b) && (forall x :: x in b ==> x in a)
    ensures Sort(a, order) == Sort(b, order)
  {
    SortMember(a, order);
    SortMember(b, order);
    SortInOrder(a, order);
    SortInOrder(b, order);
    SortDistinct(a, order);
    SortDistinct(b, order);
    var s, t := Sort(a, order), Sort(b, order);
    forall x ensures WithinAt(s, t, x) && WithinAt(t, s, x) {}
    SortedUnique(s, t, order);
  }

  lemma {:induction false} SameCanonItems(a: seq<Json>, b: seq<Json>, order: Order)
    requires SameItems(a, b) && Total(order) && NoTies(order)
    requires (forall i :: 0 <= i < |a| ==> Valid(a[i])) && (forall i :: 0 <= i < |b| ==> Valid(b[i]))
    ensures CanonItems(a, order) == CanonItems(b, order)
    decreases a
  {
    if a != [] {
      SameCanon(a[0], b[0], order);
      SameCanonItems(a[1..], b[1..], order);
    }
  }

  lemma {:induction false} CoveredCanon(fields: seq<Field<Json>>, others: seq<Field<Json>>, order: Order)
    requires Covered(fields, others) && Total(order) && NoTies(order)
    requires (forall i :: 0 <= i < |fields| ==> Valid(fields[i].value)) && (forall i :: 0 <= i < |others| ==> Valid(others[i].value))
    ensures forall x :: x in CanonFields(fields, order) ==> x in CanonFields(others, order)
    decreases fields
  {
    if fields != [] {
      CoveredCanon(fields[1..], others, order);
      var j :| 0 <= j < |others| && others[j].key == fields[0].key && Same(fields[0].value, others[j].value);
      SameCanon(fields[0].value, others[j].value, order);
      CanonFieldsAt(others, order, j);
      var head := Field(fields[0].key, Canon(fields[0].value, order));
      assert head in CanonFields(others, order) by { assert CanonFields(others, order)[j] == head; }
    }
  }

  /** With distinct keys on both sides, covering one way covers the other. */
  lemma {:induction false} CoveredBack(fields: seq<Field<Json>>, others: seq<Field<Json>>, order: Order)
    requires KeysIn(others, fields) && DistinctKeys(CanonFields(others, order))
    requires forall x :: x in CanonFields(fields, order) ==> x in CanonFields(others, order)
    ensures forall x :: x in CanonFields(others, order) ==> x in CanonFields(fields, order)
  {
    var a, b := CanonFields(fields, order), CanonFields(others, order);
    forall x | x in b ensures x in a {
      var j :| 0 <= j < |b| && b[j] == x;
      CanonFieldsAt(others, order, j);
      var i :| 0 <= i < |fields| && fields[i].key == others[j].key;
      CanonFieldsAt(fields, order, i);
      assert a[i] in b;
      var k :| 0 <= k < |b| && b[k] == a[i];
      assert b[k].key == b[j].key;
      assert k == j;
    }
  }

  /** Equal canonical texts mean equal values up to key order; and the other way round when no two keys tie. */
  lemma {:induction false} CanonicalIsUnambiguous(v: Json, w: Json, order: Order)
    requires Valid(v) && Valid(w)
    ensures Canonical.Canonical(v, order) == Canonical.Canonical(w, order) ==> Same(v, w)
    ensures Total(order) && NoTies(order) ==> (Canonical.Canonical(v, order) == Canonical.Canonical(w, order) <==> Same(v, w))
  {
    TextsDetermineCanon(v, w, order);
    if Canon(v, order) == Canon(w, order) { CanonSame(v, w, order); }
    if Total(order) && NoTies(order) && Same(v, w) { SameCanon(v, w, order); }
  }

  /** The one collision: an array of exactly one undefined element prints as the empty array. */
  lemma {:induction false} LoneUndefinedCollides(order: Order)
    ensures Canonical.Canonical(Arr([Undefined]), order) == Canonical.Canonical(Arr([]), order)
  {
    CanonicalRenders(Arr([Undefined]), order);
    CanonicalRenders(Arr([]), order);
    CanonLone([Undefined], order);
  }

  /** Where two keys tie, the text depends on the order in which an object was built. */
  lemma {:induction false} TiesShow(a: Text, b: Text, order: Order)
    requires a != b && order(a, b) && order(b, a)
    ensures var v, w := Obj([Field(a, Null), Field(b, Null)]), Obj([Field(b, Null), Field(a, Null)]);
            Same(v, w) && Canonical.Canonical(v, order) != Canonical.Canonical(w, order)
  {
    var v, w := Obj([Field(a, Null), Field(b, Null)]), Obj([Field(b, Null), Field(a, Null)]);
    assert w.fields[0] == Field(b, Null) && w.fields[1] == Field(a, Null);
    assert Same(Null, Null);
    assert v.fields[1..] == [Field(b, Null)] && v.fields[1..][1..] == [];
    assert Covered([Field(b, Null)], w.fields);
    assert Covered(v.fields, w.fields);
    assert KeysIn(w.fields, v.fields) by { assert v.fields[0].key == a && v.fields[1].key == b; }
    TiedCanon(a, b, order);
    TiedCanon(b, a, order);
    assert Canon(v, order) != Canon(w, order) by {
      assert v.fields[0] != w.fields[0];
    }
    TextsDetermineCanon(v, w, order);
  }

  lemma {:induction false} TiedCanon(a: Text, b: Text, order: Order)
    requires order(a, b)
    ensures Canon(Obj([Field(a, Null), Field(b, Null)]), order) == Obj([Field(a, Null), Field(b, Null)])
  {
    var f, g := Field(a, Null), Field(b, Null);
    assert [f, g][1..] == [g] && [g][1..] == [];
    assert CanonFields([f, g], order) == [f, g];
    assert [f, g][..1] == [f] && [f][..0] == [];
    assert Sort([f], order) == [f];
    assert Sort([f, g], order) == Insert([f], g, order) == [f, g];
  }

  // ---------------------------------------------------------------- the launch manifest

  datatype Manifest = Manifest(
    repositoryIdentity: Text, adapterId: Text, adapterVersion: Text, command: seq<Text>, workingDirectory: Option<Text>,
    environmentNames: seq<Text>, credentialReference: Json, generatedIdentities: seq<Text>, permissionFloor: Text,
    desiredModel: Option<Text>, modelResumePolicy: Json)

  /** Comparison by code units, as the default sort does. */
  predicate Precedes(a: Text, b: Text) {
    a == [] || (b != [] && (a[0] < b[0] || (a[0] == b[0] && Precedes(a[1..], b[1..]))))
  }

  function InsertText(sorted: seq<Text>, t: Text): seq<Text>
    decreases |sorted|
  {
    if sorted == [] || Precedes(sorted[|sorted| - 1], t) then sorted + [t]
    else InsertText(sorted[..|sorted| - 1], t) + [sorted[|sorted| - 1]]
  }

  function SortTexts(texts: seq<Text>): seq<Text>
    decreases |texts|
  {
    if texts == [] then [] else InsertText(SortTexts(texts[..|texts| - 1]), texts[|texts| - 1])
  }

  function Ascii(s: string): (t: Text)
    ensures |t| == |s|
  {
    seq(|s|, i requires 0 <= i < |s| => if s[i] as int < 65536 then s[i] as int else 0)
  }

  function Texts(texts: seq<Text>): (items: seq<Json>)
    ensures |items| == |texts| && forall i :: 0 <= i < |texts| ==> items[i] == Str(texts[i])
  {
    seq(|texts|, i requires 0 <= i < |texts| => Str(texts[i]))
  }

  function Optional(t: Option<Text>): Json {
    if t.Some? then Str(t.value) else Undefined
  }

  const KEYS := [
    "repositoryIdentity", "adapterId", "adapterVersion", "command", "workingDirectory", "environmentNames",
    "credentialReference", "generatedIdentities", "permissionFloor", "desiredModel", "modelResumePolicy"]

  function Values(m: Manifest): (v: seq<Json>)
    ensures |v| == |KEYS|
  {
    [Str(m.repositoryIdentity), Str(m.adapterId), Str(m.adapterVersion), Arr(Texts(m.command)), Optional(m.workingDirectory),
     Arr(Texts(SortTexts(m.environmentNames))), m.credentialReference, Arr(Texts(SortTexts(m.generatedIdentities))),
     Str(m.permissionFloor), Optional(m.desiredModel), m.modelResumePolicy]
  }

  /** The object a digest is taken of. */
  function SafeManifest(m: Manifest): Json {
    Obj(seq(|KEYS|, i requires 0 <= i < |KEYS| => Field(Ascii(KEYS[i]), Values(m)[i])))
  }

  /** The hash is injective, so a digest stands for the text it was taken of. */
  datatype Digest = Digest(preImage: Text)

  function DigestOf(m: Manifest, order: Order): Digest {
    Digest(Canonical.Canonical(SafeManifest(m), order))
  }

  /** Everything but the two structured values: command order counts, the order of environment names and generated identities does not. */
  ghost predicate SameTerms(m: Manifest, n: Manifest) {
    && m.repositoryIdentity == n.repositoryIdentity && m.adapterId == n.adapterId && m.adapterVersion == n.adapterVersion
    && m.command == n.command && m.workingDirectory == n.workingDirectory
    && multiset(m.environmentNames) == multiset(n.environmentNames)
    && multiset(m.generatedIdentities) == multiset(n.generatedIdentities)
    && m.permissionFloor == n.permissionFloor && m.desiredModel == n.desiredModel
  }

  /** The same launch, with the structured values equal up to key order. */
  ghost predicate SameLaunch(m: Manifest, n: Manifest) {
    SameTerms(m, n) && Same(m.credentialReference, n.credentialReference) && Same(m.modelResumePolicy, n.modelResumePolicy)
  }

  ghost predicate PrintsAlike(m: Manifest, n: Manifest, order: Order) {
    && SameTerms(m, n)
    && Canon(m.credentialReference, order) == Canon(n.credentialReference, order)
    && Canon(m.modelResumePolicy, order) == Canon(n.modelResumePolicy, order)
  }

  // ---------------------------------------------------------------- sorted lists of texts

  lemma {:induction false} PrecedesTotal(a: Text, b: Text)
    ensures Precedes(a, b) || Precedes(b, a)
    ensures Precedes(a, b) && Precedes(b, a) ==> a == b
  {
    if a != [] && b != [] {
      PrecedesTotal(a[1..], b[1..]);
      assert a == [a[0]] + a[1..] && b == [b[0]] + b[1..];
    }
  }

  lemma {:induction false} PrecedesOn(a: Text, b: Text, c: Text)
    requires Precedes(a, b) && Precedes(b, c)
    ensures Precedes(a, c)
  {
    if a != [] && a[0] == b[0] == c[0] { PrecedesOn(a[1..], b[1..], c[1..]); }
  }

  ghost predicate TextsInOrder(s: seq<Text>) {
    forall i, j :: 0 <= i < j < |s| ==> Precedes(s[i], s[j])
  }

  lemma {:induction false} InsertTextKeeps(sorted: seq<Text>, t: Text)
    requires TextsInOrder(sorted)
    ensures TextsInOrder(InsertText(sorted, t)) && multiset(InsertText(sorted, t)) == multiset(sorted) + multiset{t}
    decreases |sorted|
  {
    if sorted == [] {
    } else if Precedes(sorted[|sorted| - 1], t) {
      forall i | 0 <= i < |sorted| ensures Precedes(sorted[i], t) {
        if i < |sorted| - 1 { PrecedesOn(sorted[i], sorted[|sorted| - 1], t); }
      }
    } else {
      var init, last := sorted[..|sorted| - 1], sorted[|sorted| - 1];
      assert sorted == init + [last];
      InsertTextKeeps(init, t);
      PrecedesTotal(last, t);
      var r := InsertText(init, t);
      forall i | 0 <= i < |r| ensures Precedes(r[i], last) {
        assert r[i] in multiset(r);
        if r[i] != t {
          assert r[i] in multiset(init);
          var k :| 0 <= k < |init| && init[k] == r[i];
          assert Precedes(sorted[k], sorted[|sorted| - 1]);
        }
      }
    }
  }

  lemma {:induction false} SortTextsKeeps(texts: seq<Text>)
    ensures TextsInOrder(SortTexts(texts)) && multiset(SortTexts(texts)) == multiset(texts)
    decreases |texts|
  {
    if texts != [] {
      SortTextsKeeps(texts[..|texts| - 1]);
      InsertTextKeeps(SortTexts(texts[..|texts| - 1]), texts[|texts| - 1]);
      assert texts == texts[..|texts| - 1] + [texts[|texts| - 1]];
    }
  }

  lemma {:induction false} LastTextsSame(a: seq<Text>, b: seq<Text>)
    requires TextsInOrder(a) && TextsInOrder(b) && multiset(a) == multiset(b) && a != [] && b != []
    ensures a[|a| - 1] == b[|b| - 1]
  {
    var x, y := a[|a| - 1], b[|b| - 1];
    assert x in multiset(b) && y in multiset(a);
    var i :| 0 <= i < |a| && a[i] == y;
    var j :| 0 <= j < |b| && b[j] == x;
    PrecedesTotal(x, y);
  }

  lemma {:induction false} SameLength(a: seq<Text>, b: seq<Text>)
    requires multiset(a) == multiset(b)
    ensures |a| == |b|
  {
    assert |multiset(a)| == |a| && |multiset(b)| == |b|;
  }

  lemma {:induction false} RejoinedTexts(a: seq<Text>)
    requires a != []
    ensures a == a[..|a| - 1] + [a[|a| - 1]]
  {
  }

  lemma {:induction false} WithoutLast(a: seq<Text>)
    requires a != [] && TextsInOrder(a)
    ensures TextsInOrder(a[..|a| - 1])
    ensures multiset(a[..|a| - 1]) == multiset(a) - multiset{a[|a| - 1]}
  {
    assert a == a[..|a| - 1] + [a[|a| - 1]];
  }

  lemma {:induction false} SortedTextsUnique(a: seq<Text>, b: seq<Text>)
    requires TextsInOrder(a) && TextsInOrder(b) && multiset(a) == multiset(b)
    ensures a == b
    decreases |a|
  {
    SameLength(a, b);
    if a != [] {
      LastTextsSame(a, b);
      WithoutLast(a);
      WithoutLast(b);
      SortedTextsUnique(a[..|a| - 1], b[..|b| - 1]);
      RejoinedTexts(a);
      RejoinedTexts(b);
    }
  }

  /** Sorted lists are equal exactly when the lists hold the same texts equally often. */
  lemma {:induction false} SortForgetsOrder(a: seq<Text>, b: seq<Text>)
    ensures SortTexts(a) == SortTexts(b) <==> multiset(a) == multiset(b)
  {
    SortTextsKeeps(a);
    SortTextsKeeps(b);
    if multiset(a) == multiset(b) { SortedTextsUnique(SortTexts(a), SortTexts(b)); }
  }

  // ---------------------------------------------------------------- what a digest determines

  lemma {:induction false} KeysDistinct(i: nat, j: nat)
    requires i < j < |KEYS|
    ensures Ascii(KEYS[i]) != Ascii(KEYS[j])
  {
    if |KEYS[i]| == |KEYS[j]| {
      assert (i == 4 && j == 5) || (i == 6 && j == 7);
      assert Ascii(KEYS[i])[0] != Ascii(KEYS[j])[0];
    }
  }

  lemma {:induction false} SafeManifestDistinct(m: Manifest)
    ensures DistinctKeys(SafeManifest(m).fields)
  {
    var f := SafeManifest(m).fields;
    forall i, j | 0 <= i < j < |f| ensures f[i].key != f[j].key { KeysDistinct(i, j); }
  }

  lemma {:induction false} TextsCanon(texts: seq<Text>, order: Order)
    ensures Canon(Arr(Texts(texts)), order) == Arr(Texts(texts))
  {
    var items := Texts(texts);
    forall i | 0 <= i < |items| ensures CanonItems(items, order)[i] == items[i] { CanonItemsAt(items, order, i); }
    assert CanonItems(items, order) == items;
    if |items| == 1 { assert items[0] != Undefined; }
  }

  lemma {:induction false} TextsSame(a: seq<Text>, b: seq<Text>)
    requires Texts(a) == Texts(b)
    ensures a == b
  {
    assert |Texts(a)| == |a| && |Texts(b)| == |b|;
    forall i | 0 <= i < |a| ensures a[i] == b[i] { assert Texts(a)[i] == Texts(b)[i]; }
  }

  lemma {:induction false} OptionalSame(a: Option<Text>, b: Option<Text>, order: Order)
    ensures Canon(Optional(a), order) == Canon(Optional(b), order) <==> a == b
  {
  }

  lemma {:induction false} ListsSame(a: seq<Text>, b: seq<Text>, order: Order)
    ensures Canon(Arr(Texts(a)), order) == Canon(Arr(Texts(b)), order) <==> a == b
  {
    TextsCanon(a, order);
    TextsCanon(b, order);
    if Texts(a) == Texts(b) { TextsSame(a, b); }
  }

  /** The canonical values of two manifests agree field by field. */
  ghost predicate ValuesAgree(m: Manifest, n: Manifest, order: Order) {
    forall i :: 0 <= i < |KEYS| ==> Canon(Values(m)[i], order) == Canon(Values(n)[i], order)
  }

  lemma {:induction false} ValuesDetermineLaunch(m: Manifest, n: Manifest, order: Order)
    ensures ValuesAgree(m, n, order) ==> PrintsAlike(m, n, order)
  {
    ListsSame(m.command, n.command, order);
    ListsSame(SortTexts(m.environmentNames), SortTexts(n.environmentNames), order);
    ListsSame(SortTexts(m.generatedIdentities), SortTexts(n.generatedIdentities), order);
    SortForgetsOrder(m.environmentNames, n.environmentNames);
    SortForgetsOrder(m.generatedIdentities, n.generatedIdentities);
    OptionalSame(m.workingDirectory, n.workingDirectory, order);
    OptionalSame(m.desiredModel, n.desiredModel, order);
    if ValuesAgree(m, n, order) {
      var a, b := Values(m), Values(n);
      assert Canon(a[0], order) == Canon(b[0], order) && Canon(a[1], order) == Canon(b[1], order) && Canon(a[2], order) == Canon(b[2], order);
      assert Canon(a[3], order) == Canon(b[3], order) && Canon(a[4], order) == Canon(b[4], order) && Canon(a[5], order) == Canon(b[5], order);
      assert Canon(a[6], order) == Canon(b[6], order) && Canon(a[7], order) == Canon(b[7], order) && Canon(a[8], order) == Canon(b[8], order);
      assert Canon(a[9], order) == Canon(b[9], order) && Canon(a[10], order) == Canon(b[10], order);
    }
  }

  lemma {:induction false} LaunchDeterminesValues(m: Manifest, n: Manifest, order: Order)
    requires PrintsAlike(m, n, order)
    ensures ValuesAgree(m, n, order)
  {
    SortForgetsOrder(m.environmentNames, n.environmentNames);
    SortForgetsOrder(m.generatedIdentities, n.generatedIdentities);
  }

  lemma {:induction false} CanonFieldsSame(m: Manifest, n: Manifest, order: Order)
    ensures Canon(SafeManifest(m), order) == Canon(SafeManifest(n), order) <==> ValuesAgree(m, n, order)
  {
    var f, g := SafeManifest(m).fields, SafeManifest(n).fields;
    var a, b := CanonFields(f, order), CanonFields(g, order);
    if Sort(a, order) == Sort(b, order) {
      SortMember(a, order);
      SortMember(b, order);
      forall i | 0 <= i < |KEYS| ensures Canon(Values(m)[i], order) == Canon(Values(n)[i], order) {
        CanonFieldsAt(f, order, i);
        assert a[i] in b;
        var j :| 0 <= j < |b| && b[j] == a[i];
        CanonFieldsAt(g, order, j);
        assert f[i].key == g[j].key;
        if i < j { KeysDistinct(i, j); }
        if j < i { KeysDistinct(j, i); }
      }
    }
    if ValuesAgree(m, n, order) {
      forall i | 0 <= i < |KEYS| ensures a[i] == b[i] {
        CanonFieldsAt(f, order, i);
        CanonFieldsAt(g, order, i);
      }
      assert a == b;
    }
  }

  lemma {:induction false} SafeManifestValid(m: Manifest)
    requires Valid(m.credentialReference) && Valid(m.modelResumePolicy)
    ensures Valid(SafeManifest(m))
  {
    SafeManifestDistinct(m);
    var f := SafeManifest(m).fields;
    forall i | 0 <= i < |f| ensures Valid(f[i].value) {
      assert f[i].value == Values(m)[i];
      if f[i].value.Arr? {
        forall k | 0 <= k < |f[i].value.items| ensures Valid(f[i].value.items[k]) {}
      }
    }
  }

  lemma {:induction false} DigestDeterminesText(m: Manifest, n: Manifest, order: Order)
    requires Valid(m.credentialReference) && Valid(m.modelResumePolicy) && Valid(n.credentialReference) && Valid(n.modelResumePolicy)
    ensures DigestOf(m, order) == DigestOf(n, order) <==> PrintsAlike(m, n, order)
  {
    SafeManifestValid(m);
    SafeManifestValid(n);
    TextsDetermineCanon(SafeManifest(m), SafeManifest(n), order);
    CanonFieldsSame(m, n, order);
    ValuesDetermineLaunch(m, n, order);
    if PrintsAlike(m, n, order) { LaunchDeterminesValues(m, n, order); }
  }

  /** Manifests with the same digest are the same launch; and the other way round when no two keys tie in the comparison. */
  lemma {:induction false} DigestDeterminesLaunch(m: Manifest, n: Manifest, order: Order)
    requires Valid(m.credentialReference) && Valid(m.modelResumePolicy) && Valid(n.credentialReference) && Valid(n.modelResumePolicy)
    ensures DigestOf(m, order) == DigestOf(n, order) ==> SameLaunch(m, n)
    ensures Total(order) && NoTies(order) ==> (DigestOf(m, order) == DigestOf(n, order) <==> SameLaunch(m, n))
  {
    DigestDeterminesText(m, n, order);
    TextsDetermineCanon(m.credentialReference, n.credentialReference, order);
    TextsDetermineCanon(m.modelResumePolicy, n.modelResumePolicy, order);
    CanonicalIsUnambiguous(m.credentialReference, n.credentialReference, order);
    CanonicalIsUnambiguous(m.modelResumePolicy, n.modelResumePolicy, order);
  }
}
