/** What each keyword of a schema accepts on its own, and when two values are equal
    (nanobot/agent/tools/base.py, with Python's own equality). */
module ParameterRules {
  import opened Prelude
  import opened ToolParameters

  /* ---------- keyword by keyword ---------- */

  /** A union accepts what its first non-null name accepts, and null when it names null. */
  lemma {:induction false} UnionAccepts(v: Json, names: seq<TypeName>, i: nat)
    requires i < |names| && names[i] != NullType && forall j :: 0 <= j < i ==> names[j] == NullType
    ensures Conforms(v, EMPTY_SCHEMA.(spec := Union(names))) <==>
      (v == JNull && exists j :: 0 <= j < |names| && names[j] == NullType)
      || Conforms(v, EMPTY_SCHEMA.(spec := Named(names[i])))
  {
    hide FirstNonNull, InEnumeration, HasKey, AsNumber, Less, PyEqual;
    FirstNonNullIs(names, i);
  }

  /** A union of nothing but null accepts everything. */
  lemma {:induction false} NullUnionAccepts(v: Json, names: seq<TypeName>)
    requires forall j :: 0 <= j < |names| ==> names[j] == NullType
    ensures Conforms(v, EMPTY_SCHEMA.(spec := Union(names)))
  {
    FirstNonNullIs(names, 0);
    hide FirstNonNull;
  }

  predicate Present(fields: seq<(string, Json)>, key: string) {
    exists i :: 0 <= i < |fields| && fields[i].0 == key
  }

  /** Required keys have to be there. */
  lemma {:induction false} RequiredAccepts(fields: seq<(string, Json)>, required: seq<string>)
    ensures Conforms(JObj(fields), EMPTY_SCHEMA.(spec := Named(ObjectType), required := required)) <==>
      forall key :: key in required ==> Present(fields, key)
  {
    NoProperty(fields);
    assert forall key :: HasKey(fields, key) <==> Present(fields, key);
    hide HasKey, Present, Find;
  }

  lemma {:induction false} NoProperty(fields: seq<(string, Json)>)
    ensures forall i :: 0 <= i < |fields| ==> Find(EMPTY_SCHEMA.properties, fields[i].0) == None
  {
  }

  /** A listed value has to equal one of the list. */
  lemma {:induction false} EnumerationAccepts(v: Json, values: seq<Json>)
    ensures Conforms(v, EMPTY_SCHEMA.(enumeration := Some(values))) <==>
      exists i :: 0 <= i < |values| && PyEqual(v, values[i])
  {
    hide PyEqual;
  }

  /** The value of a property has to conform to the property's schema; other values may be anything. */
  lemma {:induction false} PropertyAccepts(fields: seq<(string, Json)>, key: string, property: Schema)
    ensures Conforms(JObj(fields), EMPTY_SCHEMA.(spec := Named(ObjectType), properties := [(key, property)])) <==>
      forall i :: 0 <= i < |fields| && fields[i].0 == key ==> Conforms(fields[i].1, property)
  {
    var properties := [(key, property)];
    assert forall k :: Find(properties, k) == if k == key then Some(property) else Find(properties[1..], k);
    assert properties[1..] == [];
    assert forall i :: 0 <= i < |fields| ==>
      Find(properties, fields[i].0) == if fields[i].0 == key then Some(property) else None;
    hide Find;
  }

  /** Parameters that are no object are refused, a schema that is not one of objects raises, and otherwise the
      parameters are accepted exactly when they conform. */
  lemma {:induction false} ParamsAcceptedIff(params: Json, s: Schema)
    ensures ValidateParams(params, s) == NotADictionary <==> !params.JObj?
    ensures ValidateParams(params, s) == SchemaError <==> params.JObj? && s.spec != NoType && s.spec != Named(ObjectType)
    ensures ValidateParams(params, s) == Faults([]) <==>
      && params.JObj? && (s.spec == NoType || s.spec == Named(ObjectType))
      && Conforms(params, s.(spec := Named(ObjectType)))
  {
    ValidatorIsExact(params, s.(spec := Named(ObjectType)), []);
    hide Conforms, Validate;
  }

  /** Every item has to conform to the schema of the items. */
  lemma {:induction false} ItemsAccept(items: seq<Json>, item: Schema)
    ensures Conforms(JArr(items), EMPTY_SCHEMA.(spec := Named(ArrayType), items := Some(item))) <==>
      forall i :: 0 <= i < |items| ==> Conforms(items[i], item)
  {
  }

  /* ---------- equality ---------- */

  /** The number a value stands for, if it is one: True is one and False is zero. */
  function NumberOf(v: Json): seq<Float> {
    match v
    case JBool(true) => [Finite(1.0)]
    case JBool(false) => [Finite(0.0)]
    case JInt(i) => [Finite(i as real)]
    case JFloat(f) => [f]
    case _ => []
  }

  /** Two numbers are equal when they have the same value; NaN equals nothing, itself included. */
  lemma {:induction false} NumbersEqualIff(a: Json, b: Json)
    requires NumberOf(a) != [] || NumberOf(b) != []
    ensures PyEqual(a, b) <==> NumberOf(a) == NumberOf(b) && NumberOf(a) != [NaN]
  {
  }

  /** Nulls are equal, and texts letter by letter, and nothing else of these kinds. */
  lemma {:induction false} PlainEqualIff(a: Json, b: Json)
    requires a.JNull? || a.JStr? || b.JNull? || b.JStr?
    ensures PyEqual(a, b) <==> a == b
  {
  }

  lemma {:induction false} ArraysEqualIff(a: seq<Json>, b: seq<Json>)
    ensures PyEqual(JArr(a), JArr(b)) <==> |a| == |b| && forall i :: 0 <= i < |a| ==> PyEqual(a[i], b[i])
  {
  }

  /** The i-th entry is the first with the key, and has an equal value. */
  predicate EqualAt(v: Json, fields: seq<(string, Json)>, key: string, i: nat) {
    && i < |fields| && fields[i].0 == key && PyEqual(v, fields[i].1)
    && forall j :: 0 <= j < i ==> fields[j].0 != key
  }

  predicate EntryEquals(v: Json, fields: seq<(string, Json)>, key: string) {
    exists i :: 0 <= i < |fields| && EqualAt(v, fields, key, i)
  }

  lemma {:induction false} EntryFound(v: Json, fields: seq<(string, Json)>, key: string)
    ensures EntryEquals(v, fields, key) <==> Find(fields, key).Some? && PyEqual(v, Find(fields, key).value)
  {
    hide PyEqual, EqualAt;
    if fields != [] {
      EntryFound(v, fields[1..], key);
      EqualFirst(v, fields, key);
      if fields[0].0 != key {
        EntryBehind(v, fields, key);
      }
    }
  }

  lemma {:induction false} EqualFirst(v: Json, fields: seq<(string, Json)>, key: string)
    requires fields != []
    ensures EqualAt(v, fields, key, 0) <==> fields[0].0 == key && PyEqual(v, fields[0].1)
    ensures fields[0].0 == key ==> forall i: nat :: EqualAt(v, fields, key, i) ==> i == 0
    ensures fields[0].0 != key ==> !EqualAt(v, fields, key, 0)
  {
    hide PyEqual;
  }

  lemma {:induction false} EntryBehind(v: Json, fields: seq<(string, Json)>, key: string)
    requires fields != [] && fields[0].0 != key
    ensures EntryEquals(v, fields, key) <==> EntryEquals(v, fields[1..], key)
  {
    hide EqualAt;
    var rest := fields[1..];
    if i :| 0 <= i < |rest| && EqualAt(v, rest, key, i) {
      EqualBehind(v, fields, key, i);
      assert EqualAt(v, fields, key, i + 1);
    }
    if i :| 0 <= i < |fields| && EqualAt(v, fields, key, i) {
      EqualFirst(v, fields, key);
      EqualBehind(v, fields, key, i - 1);
    }
  }

  lemma {:induction false} EqualBehind(v: Json, fields: seq<(string, Json)>, key: string, i: nat)
    requires fields != [] && fields[0].0 != key
    ensures EqualAt(v, fields, key, i + 1) <==> EqualAt(v, fields[1..], key, i)
  {
    hide PyEqual;
    assert forall j :: 0 <= j < |fields| - 1 ==> fields[1..][j] == fields[j + 1];
    if EqualAt(v, fields[1..], key, i) {
      assert forall j :: 1 <= j < i + 1 ==> fields[j] == fields[1..][j - 1];
    }
  }

  /** Objects are equal when they have as many entries and each of the one is among those of the other. */
  lemma {:induction false} ObjectsEqualIff(a: seq<(string, Json)>, b: seq<(string, Json)>)
    ensures PyEqual(JObj(a), JObj(b)) <==>
      |a| == |b| && forall i :: 0 <= i < |a| ==> EntryEquals(a[i].1, b, a[i].0)
  {
    forall i | 0 <= i < |a|
      ensures EntryEquals(a[i].1, b, a[i].0) <==> Find(b, a[i].0).Some? && PyEqual(a[i].1, Find(b, a[i].0).value)
    {
      EntryFound(a[i].1, b, a[i].0);
    }
    hide EntryEquals, Find;
  }

  /** An array, an object and a plain value are never equal to one of another kind. */
  lemma {:induction false} KindsDiffer(a: Json, b: Json)
    requires a.JArr? != b.JArr? || a.JObj? != b.JObj?
    ensures !PyEqual(a, b)
  {
  }

  /** No NaN anywhere in the value, and no key twice in any object. */
  predicate Ordinary(v: Json)
    decreases v
  {
    match v
    case JFloat(f) => f != NaN
    case JArr(items) => forall i :: 0 <= i < |items| ==> Ordinary(items[i])
    case JObj(fields) =>
      && (forall i :: 0 <= i < |fields| ==> Ordinary(fields[i].1))
      && forall i, j :: 0 <= i < j < |fields| ==> fields[i].0 != fields[j].0
    case _ => true
  }

  /** Such a value equals itself, so a schema that lists it accepts it. */
  lemma {:induction false} EqualsItself(v: Json)
    requires Ordinary(v)
    ensures PyEqual(v, v)
    decreases v
  {
    match v {
      case JArr(items) =>
        ArraysEqualIff(items, items);
        forall i | 0 <= i < |items|
          ensures PyEqual(items[i], items[i])
        {
          EqualsItself(items[i]);
        }
      case JObj(fields) =>
        ObjectsEqualIff(fields, fields);
        forall i | 0 <= i < |fields|
          ensures EntryEquals(fields[i].1, fields, fields[i].0)
        {
          EqualsItself(fields[i].1);
          assert EqualAt(fields[i].1, fields, fields[i].0, i);
        }
      case _ =>
    }
  }
}
