/** Casting and validating tool parameters against a JSON schema (nanobot/agent/tools/base.py).
    The schema subset is that of JSON Schema Validation (draft 2020-12), sections 6.1.1, 6.1.2, 6.2.2, 6.2.4,
    6.3.1, 6.3.2 and 6.5.3, read with Python's values: only the first non-null type of a union counts. */
module ToolParameters {
  import opened Prelude

  /* ---------- values ---------- */

  datatype Float = Finite(value: real) | PositiveInfinity | NegativeInfinity | NaN

  datatype Json =
    | JNull
    | JBool(b: bool)
    | JInt(i: int)
    | JFloat(f: Float)
    | JStr(s: string)
    | JArr(items: seq<Json>)
    | JObj(fields: seq<(string, Json)>)

  /** Python's numeric reading of a value: True is 1 and False is 0. */
  function AsNumber(v: Json): Option<Float> {
    match v
    case JBool(b) => Some(Finite(if b then 1.0 else 0.0))
    case JInt(i) => Some(Finite(i as real))
    case JFloat(f) => Some(f)
    case _ => None
  }

  function Less(x: Float, y: Float): bool {
    match (x, y)
    case (Finite(a), Finite(b)) => a < b
    case (NaN, _) => false
    case (_, NaN) => false
    case (NegativeInfinity, _) => y != NegativeInfinity
    case (_, PositiveInfinity) => x != PositiveInfinity
    case _ => false
  }

  function Find<T>(pairs: seq<(string, T)>, key: string): Option<T> {
    if pairs == [] then None
    else if pairs[0].0 == key then Some(pairs[0].1)
    else Find(pairs[1..], key)
  }

  predicate HasKey<T>(pairs: seq<(string, T)>, key: string) {
    exists i :: 0 <= i < |pairs| && pairs[i].0 == key
  }

  /** Python's == between values: numbers compare by value across bool, int and float, NaN equals nothing,
      dictionaries compare without order. */
  predicate PyEqual(a: Json, b: Json)
    decreases a
  {
    if AsNumber(a).Some? && AsNumber(b).Some? then
      AsNumber(a) == AsNumber(b) && AsNumber(a).value != NaN
    else
      match (a, b)
      case (JNull, JNull) => true
      case (JStr(s), JStr(t)) => s == t
      case (JArr(xs), JArr(ys)) => |xs| == |ys| && forall i :: 0 <= i < |xs| ==> PyEqual(xs[i], ys[i])
      case (JObj(xs), JObj(ys)) =>
        |xs| == |ys| && forall i :: 0 <= i < |xs| ==>
          var y := Find(ys, xs[i].0); y.Some? && PyEqual(xs[i].1, y.value)
      case _ => false
  }

  /* ---------- schemas ---------- */

  datatype TypeName = StringType | IntegerType | NumberType | BooleanType | ArrayType | ObjectType | NullType | OtherType(name: string)

  datatype TypeSpec = NoType | Named(name: TypeName) | Union(names: seq<TypeName>)

  datatype Schema = Schema(
    spec: TypeSpec,
    enumeration: Option<seq<Json>>,
    minimum: Option<Float>, maximum: Option<Float>,
    minLength: Option<int>, maxLength: Option<int>,
    properties: seq<(string, Schema)>, required: seq<string>,
    items: Option<Schema>)

  const EMPTY_SCHEMA := Schema(NoType, None, None, None, None, None, [], [], None)

  /** The first name of a union that is not null. */
  function FirstNonNull(names: seq<TypeName>): (t: Option<TypeName>)
    ensures t == None ==> forall i :: 0 <= i < |names| ==> names[i] == NullType
  {
    if names == [] then None else if names[0] != NullType then Some(names[0]) else FirstNonNull(names[1..])
  }

  /** The i-th name is the first that is not null. */
  predicate IsFirstNonNull(names: seq<TypeName>, i: nat) {
    i < |names| && names[i] != NullType && forall j :: 0 <= j < i ==> names[j] == NullType
  }

  lemma {:induction false} FirstNonNullIs(names: seq<TypeName>, i: nat)
    ensures IsFirstNonNull(names, i) ==> FirstNonNull(names) == Some(names[i])
    ensures FirstNonNull(names) == None <==> forall j :: 0 <= j < |names| ==> names[j] == NullType
  {
    if names == [] {
    } else {
      assert forall j :: 1 <= j < |names| ==> names[j] == names[1..][j - 1];
      FirstNonNullIs(names[1..], if i == 0 then 0 else i - 1);
    }
  }

  function Resolve(spec: TypeSpec): Option<TypeName> {
    match spec
    case NoType => None
    case Named(t) => Some(t)
    case Union(names) => FirstNonNull(names)
  }

  predicate Nullable(spec: TypeSpec) {
    spec.Union? && NullType in spec.names
  }

  /** The Python types behind a type name; a bool is also an int. Names without an entry admit everything. */
  predicate IsInstance(v: Json, t: TypeName) {
    match t
    case StringType => v.JStr?
    case IntegerType => v.JInt? || v.JBool?
    case NumberType => v.JInt? || v.JFloat? || v.JBool?
    case BooleanType => v.JBool?
    case ArrayType => v.JArr?
    case ObjectType => v.JObj?
    case _ => true
  }

  /* ---------- conformance, declaratively ---------- */

  /** A boolean is not a number here, although Python says otherwise. */
  predicate HasType(v: Json, t: Option<TypeName>) {
    t.Some? ==> IsInstance(v, t.value) && !(v.JBool? && t.value in {IntegerType, NumberType})
  }

  predicate InEnumeration(v: Json, values: seq<Json>) {
    exists i :: 0 <= i < |values| && PyEqual(v, values[i])
  }

  predicate WithinBounds(v: Json, s: Schema) {
    var n := AsNumber(v);
    n.Some? ==>
      && (s.minimum.Some? ==> !Less(n.value, s.minimum.value))
      && (s.maximum.Some? ==> !Less(s.maximum.value, n.value))
  }

  predicate WithinLengths(v: Json, s: Schema) {
    v.JStr? ==>
      && (s.minLength.Some? ==> |v.s| >= s.minLength.value)
      && (s.maxLength.Some? ==> |v.s| <= s.maxLength.value)
  }

  /** The value satisfies the schema. */
  predicate Conforms(v: Json, s: Schema)
    decreases v
  {
    var t := Resolve(s.spec);
    (Nullable(s.spec) && v.JNull?) ||
    (&& HasType(v, t)
     && (s.enumeration.Some? ==> InEnumeration(v, s.enumeration.value))
     && (t == Some(IntegerType) || t == Some(NumberType) ==> WithinBounds(v, s))
     && (t == Some(StringType) ==> WithinLengths(v, s))
     && (t == Some(ObjectType) && v.JObj? ==>
           && (forall k :: k in s.required ==> HasKey(v.fields, k))
           && (forall i :: 0 <= i < |v.fields| ==>
                 var p := Find(s.properties, v.fields[i].0); p.Some? ==> Conforms(v.fields[i].1, p.value)))
     && (t == Some(ArrayType) && s.items.Some? && v.JArr? ==>
           forall i :: 0 <= i < |v.items| ==> Conforms(v.items[i], s.items.value)))
  }

  /* ---------- the validator ---------- */

  datatype Place = Key(key: string) | Index(index: nat)

  datatype Fault =
    | WrongType(path: seq<Place>, expected: TypeName)
    | NotInEnumeration(path: seq<Place>)
    | BelowMinimum(path: seq<Place>)
    | AboveMaximum(path: seq<Place>)
    | TooShort(path: seq<Place>)
    | TooLong(path: seq<Place>)
    | MissingRequired(path: seq<Place>)

  function When(condition: bool, e: Fault): seq<Fault> {
    if condition then [e] else []
  }

  /** The faults of the value itself, given that its type is right. */
  function ScalarFaults(v: Json, s: Schema, path: seq<Place>): seq<Fault> {
    var t := Resolve(s.spec);
    When(s.enumeration.Some? && !InEnumeration(v, s.enumeration.value), NotInEnumeration(path)) +
    (if t == Some(IntegerType) || t == Some(NumberType) then BoundFaults(AsNumber(v), s, path) else []) +
    (if t == Some(StringType) && v.JStr? then LengthFaults(|v.s|, s, path) else [])
  }

  function BoundFaults(n: Option<Float>, s: Schema, path: seq<Place>): seq<Fault> {
    When(n.Some? && s.minimum.Some? && Less(n.value, s.minimum.value), BelowMinimum(path)) +
    When(n.Some? && s.maximum.Some? && Less(s.maximum.value, n.value), AboveMaximum(path))
  }

  function LengthFaults(length: nat, s: Schema, path: seq<Place>): seq<Fault> {
    When(s.minLength.Some? && length < s.minLength.value, TooShort(path)) +
    When(s.maxLength.Some? && length > s.maxLength.value, TooLong(path))
  }

  function MissingFaults(fields: seq<(string, Json)>, required: seq<string>, path: seq<Place>): seq<Fault> {
    if required == [] then []
    else
      MissingFaults(fields, required[..|required| - 1], path) +
      When(!HasKey(fields, required[|required| - 1]), MissingRequired(path + [Key(required[|required| - 1])]))
  }

  function FieldFaults(v: Json, s: Schema, path: seq<Place>, n: nat): seq<Fault>
    requires v.JObj? && n <= |v.fields|
    decreases v, n
  {
    if n == 0 then []
    else
      var (k, x) := v.fields[n - 1];
      var p := Find(s.properties, k);
      FieldFaults(v, s, path, n - 1) + if p.Some? then Validate(x, p.value, path + [Key(k)]) else []
  }

  function ItemFaults(v: Json, item: Schema, path: seq<Place>, n: nat): seq<Fault>
    requires v.JArr? && n <= |v.items|
    decreases v, n
  {
    if n == 0 then []
    else ItemFaults(v, item, path, n - 1) + Validate(v.items[n - 1], item, path + [Index(n - 1)])
  }

  function NestedFaults(v: Json, s: Schema, path: seq<Place>): seq<Fault>
    decreases v, if v.JObj? then |v.fields| + 1 else if v.JArr? then |v.items| + 1 else 0
  {
    var t := Resolve(s.spec);
    if t == Some(ObjectType) && v.JObj? then
      MissingFaults(v.fields, s.required, path) + FieldFaults(v, s, path, |v.fields|)
    else if t == Some(ArrayType) && s.items.Some? && v.JArr? then ItemFaults(v, s.items.value, path, |v.items|)
    else []
  }

  /** Every fault of the value, in the order in which the source reports them. */
  function Validate(v: Json, s: Schema, path: seq<Place>): seq<Fault>
    decreases v, if v.JObj? then |v.fields| + 2 else if v.JArr? then |v.items| + 2 else 1
  {
    var t := Resolve(s.spec);
    if Nullable(s.spec) && v.JNull? then []
    else if !HasType(v, t) then [WrongType(path, t.value)]
    else ScalarFaults(v, s, path) + NestedFaults(v, s, path)
  }

  /** One recursive pass that collects the faults in loops. */
  method ValidateValue(v: Json, s: Schema, path: seq<Place>) returns (faults: seq<Fault>)
    ensures faults == Validate(v, s, path)
    decreases v, 1
  {
    var t := Resolve(s.spec);
    if Nullable(s.spec) && v.JNull? {
      return [];
    }
    if t == Some(IntegerType) && (!IsInstance(v, IntegerType) || v.JBool?) {
      return [WrongType(path, IntegerType)];
    }
    if t == Some(NumberType) && (!IsInstance(v, NumberType) || v.JBool?) {
      return [WrongType(path, NumberType)];
    }
    if t.Some? && t.value !in {IntegerType, NumberType} && !IsInstance(v, t.value) {
      return [WrongType(path, t.value)];
    }
    assert HasType(v, t);
    faults := ScalarFaults(v, s, path);
    if t == Some(ObjectType) {
      var nested := ValidateObject(v, s, path);
      faults := faults + nested;
    }
    if t == Some(ArrayType) && s.items.Some? {
      var nested := ValidateItems(v, s.items.value, path);
      faults := faults + nested;
    }
  }

  lemma {:induction false} MissingFaultsSnoc(
    fields: seq<(string, Json)>, required: seq<string>, path: seq<Place>, i: nat)
    requires i <= |required|
    ensures MissingFaults(fields, [], path) == []
    ensures i < |required| ==>
      var last := if HasKey(fields, required[i]) then [] else [MissingRequired(path + [Key(required[i])])];
      MissingFaults(fields, required[..i + 1], path) == MissingFaults(fields, required[..i], path) + last
  {
    if i < |required| {
      assert required[..i + 1][..i] == required[..i];
    }
  }

  lemma {:induction false} FieldFaultsSnoc(v: Json, s: Schema, path: seq<Place>, i: nat)
    requires v.JObj? && i <= |v.fields|
    ensures FieldFaults(v, s, path, 0) == []
    ensures i < |v.fields| ==>
      var (k, x) := v.fields[i];
      var p := Find(s.properties, k);
      var last := if p.Some? then Validate(x, p.value, path + [Key(k)]) else [];
      FieldFaults(v, s, path, i + 1) == FieldFaults(v, s, path, i) + last
  {
    hide Validate;
  }

  method ValidateObject(v: Json, s: Schema, path: seq<Place>) returns (faults: seq<Fault>)
    requires v.JObj?
    ensures faults == MissingFaults(v.fields, s.required, path) + FieldFaults(v, s, path, |v.fields|)
    decreases v, 0
  {
    hide Validate, HasKey, MissingFaults, Find, FieldFaults;
    faults := [];
    MissingFaultsSnoc(v.fields, s.required, path, 0);
    FieldFaultsSnoc(v, s, path, 0);
    for i := 0 to |s.required|
      invariant faults == MissingFaults(v.fields, s.required[..i], path)
    {
      MissingFaultsSnoc(v.fields, s.required, path, i);
      if !HasKey(v.fields, s.required[i]) {
        faults := faults + [MissingRequired(path + [Key(s.required[i])])];
      }
    }
    assert s.required[..|s.required|] == s.required;
    ghost var shallow := faults;
    for i := 0 to |v.fields|
      invariant faults == shallow + FieldFaults(v, s, path, i)
    {
      FieldFaultsSnoc(v, s, path, i);
      var (k, x) := v.fields[i];
      var p := Find(s.properties, k);
      if p.Some? {
        var nested := ValidateValue(x, p.value, path + [Key(k)]);
        faults := faults + nested;
      }
    }
  }

  method ValidateItems(v: Json, item: Schema, path: seq<Place>) returns (faults: seq<Fault>)
    requires v.JArr?
    ensures faults == ItemFaults(v, item, path, |v.items|)
    decreases v, 0
  {
    hide Validate;
    faults := [];
    for i := 0 to |v.items|
      invariant faults == ItemFaults(v, item, path, i)
    {
      var nested := ValidateValue(v.items[i], item, path + [Index(i)]);
      faults := faults + nested;
    }
  }

  /* ---------- the validator is exact ---------- */

  lemma {:induction false} ScalarFaultsExact(v: Json, s: Schema, path: seq<Place>)
    requires HasType(v, Resolve(s.spec))
    ensures ScalarFaults(v, s, path) == [] <==>
      && (s.enumeration.Some? ==> InEnumeration(v, s.enumeration.value))
      && (Resolve(s.spec) == Some(IntegerType) || Resolve(s.spec) == Some(NumberType) ==> WithinBounds(v, s))
      && (Resolve(s.spec) == Some(StringType) ==> WithinLengths(v, s))
  {
  }

  lemma {:induction false} MissingFaultsExact(fields: seq<(string, Json)>, required: seq<string>, path: seq<Place>)
    ensures MissingFaults(fields, required, path) == [] <==> forall k :: k in required ==> HasKey(fields, k)
    decreases |required|
  {
    if required == [] {
    } else {
      var last := |required| - 1;
      MissingFaultsExact(fields, required[..last], path);
      assert required == required[..last] + [required[last]];
    }
  }

  lemma {:induction false} FieldFaultsExact(v: Json, s: Schema, path: seq<Place>, n: nat)
    requires v.JObj? && n <= |v.fields|
    ensures FieldFaults(v, s, path, n) == [] <==>
      forall i :: 0 <= i < n ==> var p := Find(s.properties, v.fields[i].0); p.Some? ==> Conforms(v.fields[i].1, p.value)
    decreases v, n
  {
    hide Conforms, Validate;
    if n == 0 {
    } else {
      FieldFaultsExact(v, s, path, n - 1);
      var p := Find(s.properties, v.fields[n - 1].0);
      if p.Some? {
        ValidatorIsExact(v.fields[n - 1].1, p.value, path + [Key(v.fields[n - 1].0)]);
      }
    }
  }

  lemma {:induction false} ItemFaultsExact(v: Json, item: Schema, path: seq<Place>, n: nat)
    requires v.JArr? && n <= |v.items|
    ensures ItemFaults(v, item, path, n) == [] <==> forall i :: 0 <= i < n ==> Conforms(v.items[i], item)
    decreases v, n
  {
    hide Conforms, Validate;
    if n == 0 {
    } else {
      ItemFaultsExact(v, item, path, n - 1);
      ValidatorIsExact(v.items[n - 1], item, path + [Index(n - 1)]);
    }
  }

  /** No faults are reported exactly when the value conforms, at every depth of objects and arrays. */
  lemma {:induction false} ValidatorIsExact(v: Json, s: Schema, path: seq<Place>)
    ensures Validate(v, s, path) == [] <==> Conforms(v, s)
    decreases v, if v.JObj? then |v.fields| + 2 else if v.JArr? then |v.items| + 2 else 1
  {
    hide ScalarFaults, InEnumeration, WithinBounds, WithinLengths;
    var t := Resolve(s.spec);
    if HasType(v, t) {
      ScalarFaultsExact(v, s, path);
      if t == Some(ObjectType) && v.JObj? {
        MissingFaultsExact(v.fields, s.required, path);
        FieldFaultsExact(v, s, path, |v.fields|);
      } else if t == Some(ArrayType) && s.items.Some? && v.JArr? {
        ItemFaultsExact(v, s.items.value, path, |v.items|);
      }
    }
  }

  /* ---------- every fault is real, located, and reported ---------- */

  /** What each kind of fault means for the value at its own place. */
  predicate IsScalarFault(v: Json, s: Schema, path: seq<Place>, e: Fault) {
    var t, n := Resolve(s.spec), AsNumber(v);
    var numeric := (t == Some(IntegerType) || t == Some(NumberType)) && n.Some?;
    e.path == path &&
    match e
    case NotInEnumeration(_) => s.enumeration.Some? && !InEnumeration(v, s.enumeration.value)
    case BelowMinimum(_) => numeric && s.minimum.Some? && Less(n.value, s.minimum.value)
    case AboveMaximum(_) => numeric && s.maximum.Some? && Less(s.maximum.value, n.value)
    case TooShort(_) => t == Some(StringType) && v.JStr? && s.minLength.Some? && |v.s| < s.minLength.value
    case TooLong(_) => t == Some(StringType) && v.JStr? && s.maxLength.Some? && |v.s| > s.maxLength.value
    case _ => false
  }

  /** The fault e is present in the value that stands at `path`, or below it. */
  predicate Violates(v: Json, s: Schema, path: seq<Place>, e: Fault)
    decreases v
  {
    var t := Resolve(s.spec);
    !(Nullable(s.spec) && v.JNull?) &&
    if !HasType(v, t) then e == WrongType(path, t.value)
    else
      || IsScalarFault(v, s, path, e)
      || (t == Some(ObjectType) && v.JObj? &&
            (|| (exists k :: k in s.required && !HasKey(v.fields, k) && e == MissingRequired(path + [Key(k)]))
             || exists i :: 0 <= i < |v.fields| && Find(s.properties, v.fields[i].0).Some? &&
                  Violates(v.fields[i].1, Find(s.properties, v.fields[i].0).value, path + [Key(v.fields[i].0)], e)))
      || (t == Some(ArrayType) && s.items.Some? && v.JArr? &&
            exists i :: 0 <= i < |v.items| && Violates(v.items[i], s.items.value, path + [Index(i)], e))
  }

  lemma {:induction false} WhenReported(condition: bool, f: Fault, e: Fault)
    ensures e in When(condition, f) <==> condition && e == f
  {
  }

  lemma {:induction false} BoundsReported(n: Option<Float>, s: Schema, path: seq<Place>, e: Fault)
    ensures e in BoundFaults(n, s, path) <==>
      || (e == BelowMinimum(path) && n.Some? && s.minimum.Some? && Less(n.value, s.minimum.value))
      || (e == AboveMaximum(path) && n.Some? && s.maximum.Some? && Less(s.maximum.value, n.value))
  {
    hide Less, When;
    WhenReported(n.Some? && s.minimum.Some? && Less(n.value, s.minimum.value), BelowMinimum(path), e);
    WhenReported(n.Some? && s.maximum.Some? && Less(s.maximum.value, n.value), AboveMaximum(path), e);
  }

  lemma {:induction false} LengthsReported(length: nat, s: Schema, path: seq<Place>, e: Fault)
    ensures e in LengthFaults(length, s, path) <==>
      || (e == TooShort(path) && s.minLength.Some? && length < s.minLength.value)
      || (e == TooLong(path) && s.maxLength.Some? && length > s.maxLength.value)
  {
    hide When;
    WhenReported(s.minLength.Some? && length < s.minLength.value, TooShort(path), e);
    WhenReported(s.maxLength.Some? && length > s.maxLength.value, TooLong(path), e);
  }

  lemma {:induction false} ScalarFaultsReported(v: Json, s: Schema, path: seq<Place>, e: Fault)
    ensures e in ScalarFaults(v, s, path) <==> IsScalarFault(v, s, path, e)
  {
    hide InEnumeration, Less, When, BoundFaults, LengthFaults, AsNumber;
    WhenReported(s.enumeration.Some? && !InEnumeration(v, s.enumeration.value), NotInEnumeration(path), e);
    BoundsReported(AsNumber(v), s, path, e);
    if v.JStr? {
      LengthsReported(|v.s|, s, path, e);
    }
  }

  lemma {:induction false} MissingReported(
    fields: seq<(string, Json)>, required: seq<string>, path: seq<Place>, e: Fault)
    ensures e in MissingFaults(fields, required, path) <==>
      exists k :: k in required && !HasKey(fields, k) && e == MissingRequired(path + [Key(k)])
    decreases |required|
  {
    if required == [] {
    } else {
      var last := |required| - 1;
      MissingReported(fields, required[..last], path, e);
      assert required == required[..last] + [required[last]];
    }
  }

  lemma {:induction false} FieldsReported(v: Json, s: Schema, path: seq<Place>, n: nat, e: Fault)
    requires v.JObj? && n <= |v.fields|
    ensures e in FieldFaults(v, s, path, n) <==>
      exists i :: 0 <= i < n && Find(s.properties, v.fields[i].0).Some? &&
        Violates(v.fields[i].1, Find(s.properties, v.fields[i].0).value, path + [Key(v.fields[i].0)], e)
    decreases v, n
  {
    hide Violates, Validate;
    if n == 0 {
    } else {
      FieldsReported(v, s, path, n - 1, e);
      var p := Find(s.properties, v.fields[n - 1].0);
      if p.Some? {
        FaultsAreExactlyViolations(v.fields[n - 1].1, p.value, path + [Key(v.fields[n - 1].0)], e);
      }
    }
  }

  lemma {:induction false} ItemsReported(v: Json, item: Schema, path: seq<Place>, n: nat, e: Fault)
    requires v.JArr? && n <= |v.items|
    ensures e in ItemFaults(v, item, path, n) <==>
      exists i :: 0 <= i < n && Violates(v.items[i], item, path + [Index(i)], e)
    decreases v, n
  {
    hide Violates, Validate;
    if n == 0 {
    } else {
      ItemsReported(v, item, path, n - 1, e);
      FaultsAreExactlyViolations(v.items[n - 1], item, path + [Index(n - 1)], e);
    }
  }

  /** The reported faults are exactly the violations, each at the place where it occurs. */
  lemma {:induction false} FaultsAreExactlyViolations(v: Json, s: Schema, path: seq<Place>, e: Fault)
    ensures e in Validate(v, s, path) <==> Violates(v, s, path, e)
    decreases v, if v.JObj? then |v.fields| + 2 else if v.JArr? then |v.items| + 2 else 1
  {
    hide ScalarFaults, IsScalarFault;
    var t := Resolve(s.spec);
    if HasType(v, t) {
      ScalarFaultsReported(v, s, path, e);
      if t == Some(ObjectType) && v.JObj? {
        MissingReported(v.fields, s.required, path, e);
        FieldsReported(v, s, path, |v.fields|, e);
      } else if t == Some(ArrayType) && s.items.Some? && v.JArr? {
        ItemsReported(v, s.items.value, path, |v.items|, e);
      }
    }
  }

  /* ---------- casting ---------- */

  /** Python's own conversions between text and values. */
  datatype Python = Python(
    parseInt: string -> Option<int>,
    parseFloat: string -> Option<Float>,
    text: Json -> string,
    lower: string -> string)

  function CastBoolean(py: Python, s: string): Json {
    var l := py.lower(s);
    if l in {"true", "1", "yes"} then JBool(true)
    else if l in {"false", "0", "no"} then JBool(false)
    else JStr(s)
  }

  function CastFields(py: Python, v: Json, s: Schema, n: nat): (fields: seq<(string, Json)>)
    requires v.JObj? && n <= |v.fields|
    ensures |fields| == n
    decreases v, n
  {
    if n == 0 then []
    else
      var (k, x) := v.fields[n - 1];
      var p := Find(s.properties, k);
      CastFields(py, v, s, n - 1) + [(k, if p.Some? then Cast(py, x, p.value) else x)]
  }

  function CastItems(py: Python, v: Json, item: Schema, n: nat): (items: seq<Json>)
    requires v.JArr? && n <= |v.items|
    ensures |items| == n
    decreases v, n
  {
    if n == 0 then [] else CastItems(py, v, item, n - 1) + [Cast(py, v.items[n - 1], item)]
  }

  function Cast(py: Python, v: Json, s: Schema): Json
    decreases v, if v.JObj? then |v.fields| + 1 else if v.JArr? then |v.items| + 1 else 0
  {
    var t := Resolve(s.spec);
    if t == Some(BooleanType) && v.JBool? then v
    else if t == Some(IntegerType) && v.JInt? then v
    else if (t == Some(StringType) || t == Some(NumberType)) && IsInstance(v, t.value) then v
    else if t == Some(IntegerType) && v.JStr? then
      var n := py.parseInt(v.s); if n.Some? then JInt(n.value) else v
    else if t == Some(NumberType) && v.JStr? then
      var f := py.parseFloat(v.s); if f.Some? then JFloat(f.value) else v
    else if t == Some(StringType) then if v.JNull? then v else JStr(py.text(v))
    else if t == Some(BooleanType) && v.JStr? then CastBoolean(py, v.s)
    else if t == Some(ArrayType) && v.JArr? then
      if s.items.Some? && s.items.value != EMPTY_SCHEMA then JArr(CastItems(py, v, s.items.value, |v.items|)) else v
    else if t == Some(ObjectType) && v.JObj? then JObj(CastFields(py, v, s, |v.fields|))
    else v
  }

  /** The loop of _cast_object: rebuild the dictionary entry by entry. */
  method CastObject(py: Python, v: Json, s: Schema) returns (result: Json)
    ensures result == if v.JObj? then JObj(CastFields(py, v, s, |v.fields|)) else v
  {
    if !v.JObj? {
      return v;
    }
    var fields := [];
    for i := 0 to |v.fields|
      invariant fields == CastFields(py, v, s, i)
    {
      var (k, x) := v.fields[i];
      var p := Find(s.properties, k);
      fields := fields + [(k, if p.Some? then Cast(py, x, p.value) else x)];
    }
    return JObj(fields);
  }

  /** Casting keeps the keys, in order, and the lengths. */
  lemma {:induction false} CastFieldsKeys(py: Python, v: Json, s: Schema, n: nat)
    requires v.JObj? && n <= |v.fields|
    ensures forall i :: 0 <= i < n ==> var p := Find(s.properties, v.fields[i].0);
      CastFields(py, v, s, n)[i] == (v.fields[i].0, if p.Some? then Cast(py, v.fields[i].1, p.value) else v.fields[i].1)
    decreases n
  {
    hide Cast;
    if n == 0 {
    } else {
      CastFieldsKeys(py, v, s, n - 1);
    }
  }

  lemma {:induction false} CastItemsAt(py: Python, v: Json, item: Schema, n: nat)
    requires v.JArr? && n <= |v.items|
    ensures forall i :: 0 <= i < n ==> CastItems(py, v, item, n)[i] == Cast(py, v.items[i], item)
    decreases n
  {
    hide Cast;
    if n == 0 {
    } else {
      CastItemsAt(py, v, item, n - 1);
    }
  }

  predicate Structured(v: Json) {
    v.JObj? || v.JArr?
  }

  /** The same keys in the same order and the same array lengths, at every depth. */
  predicate SameShape(a: Json, b: Json)
    decreases a
  {
    if a.JObj? then
      && b.JObj? && |a.fields| == |b.fields|
      && forall i :: 0 <= i < |a.fields| ==> a.fields[i].0 == b.fields[i].0 && SameShape(a.fields[i].1, b.fields[i].1)
    else if a.JArr? then
      b.JArr? && |a.items| == |b.items| && forall i :: 0 <= i < |a.items| ==> SameShape(a.items[i], b.items[i])
    else !Structured(b)
  }

  lemma {:induction false} SameShapeAsItself(v: Json)
    ensures SameShape(v, v)
    decreases v
  {
    if v.JObj? {
      forall i | 0 <= i < |v.fields|
        ensures SameShape(v.fields[i].1, v.fields[i].1)
      {
        SameShapeAsItself(v.fields[i].1);
      }
    } else if v.JArr? {
      forall i | 0 <= i < |v.items|
        ensures SameShape(v.items[i], v.items[i])
      {
        SameShapeAsItself(v.items[i]);
      }
    }
  }

  /** Somewhere in the value an object or an array stands where the schema says string. */
  predicate MeetsText(v: Json, s: Schema)
    decreases v, 0
  {
    match Resolve(s.spec)
    case Some(StringType) => Structured(v)
    case Some(ArrayType) =>
      v.JArr? && s.items.Some? && s.items.value != EMPTY_SCHEMA
      && exists i :: 0 <= i < |v.items| && MeetsText(v.items[i], s.items.value)
    case Some(ObjectType) =>
      v.JObj? && exists i :: 0 <= i < |v.fields| && FieldMeetsText(v.fields[i].1, Find(s.properties, v.fields[i].0))
    case _ => false
  }

  predicate FieldMeetsText(v: Json, s: Option<Schema>)
    decreases v, 1
  {
    s.Some? && MeetsText(v, s.value)
  }

  /** Casting keeps the keys, their order and the array lengths at every depth exactly when no object or array
      stands where the schema says string: such a one becomes its text. */
  lemma {:induction false} CastKeepsShapeIff(py: Python, v: Json, s: Schema)
    ensures SameShape(v, Cast(py, v, s)) <==> !MeetsText(v, s)
    decreases v
  {
    var t := Resolve(s.spec);
    if t == Some(ObjectType) && v.JObj? {
      CastFieldsKeys(py, v, s, |v.fields|);
      forall i | 0 <= i < |v.fields|
        ensures SameShape(v.fields[i].1, CastFields(py, v, s, |v.fields|)[i].1)
          <==> !FieldMeetsText(v.fields[i].1, Find(s.properties, v.fields[i].0))
      {
        var p := Find(s.properties, v.fields[i].0);
        if p.Some? {
          CastKeepsShapeIff(py, v.fields[i].1, p.value);
        } else {
          SameShapeAsItself(v.fields[i].1);
        }
      }
    } else if t == Some(ArrayType) && v.JArr? && s.items.Some? && s.items.value != EMPTY_SCHEMA {
      CastItemsAt(py, v, s.items.value, |v.items|);
      forall i | 0 <= i < |v.items|
        ensures SameShape(v.items[i], CastItems(py, v, s.items.value, |v.items|)[i])
          <==> !MeetsText(v.items[i], s.items.value)
      {
        CastKeepsShapeIff(py, v.items[i], s.items.value);
      }
    } else if t != Some(StringType) {
      CastOfOthers(py, v, s);
    }
  }

  lemma {:induction false} CastOfOthers(py: Python, v: Json, s: Schema)
    requires Resolve(s.spec) != Some(StringType) && (Resolve(s.spec) == Some(ObjectType) ==> !v.JObj?)
    requires Resolve(s.spec) == Some(ArrayType) && v.JArr? ==> s.items.None? || s.items.value == EMPTY_SCHEMA
    ensures SameShape(v, Cast(py, v, s))
  {
    SameShapeAsItself(v);
    hide Find, CastFields, CastItems;
  }

  /** A value the schema accepts is left as it is. */
  lemma {:induction false} CastFixesConforming(py: Python, v: Json, s: Schema)
    requires Conforms(v, s)
    ensures Cast(py, v, s) == v
    decreases v
  {
    hide InEnumeration, WithinBounds, WithinLengths, HasKey;
    var t := Resolve(s.spec);
    if t == Some(ObjectType) && v.JObj? {
      CastFieldsKeys(py, v, s, |v.fields|);
      forall i | 0 <= i < |v.fields|
        ensures CastFields(py, v, s, |v.fields|)[i] == v.fields[i]
      {
        var p := Find(s.properties, v.fields[i].0);
        if p.Some? {
          CastFixesConforming(py, v.fields[i].1, p.value);
        }
      }
      assert CastFields(py, v, s, |v.fields|) == v.fields;
    } else if t == Some(ArrayType) && s.items.Some? && v.JArr? {
      CastItemsAt(py, v, s.items.value, |v.items|);
      forall i | 0 <= i < |v.items|
        ensures CastItems(py, v, s.items.value, |v.items|)[i] == v.items[i]
      {
        CastFixesConforming(py, v.items[i], s.items.value);
      }
      assert CastItems(py, v, s.items.value, |v.items|) == v.items;
    }
  }

  /** Casting a second time changes nothing. */
  lemma {:induction false} CastIsIdempotent(py: Python, v: Json, s: Schema)
    ensures Cast(py, Cast(py, v, s), s) == Cast(py, v, s)
    decreases v
  {
    var t := Resolve(s.spec);
    var c := Cast(py, v, s);
    if t == Some(ObjectType) && v.JObj? {
      CastFieldsKeys(py, v, s, |v.fields|);
      CastFieldsKeys(py, c, s, |c.fields|);
      forall i | 0 <= i < |v.fields|
        ensures CastFields(py, c, s, |c.fields|)[i] == c.fields[i]
      {
        var p := Find(s.properties, v.fields[i].0);
        if p.Some? {
          CastIsIdempotent(py, v.fields[i].1, p.value);
        }
      }
      assert CastFields(py, c, s, |c.fields|) == c.fields;
    } else if t == Some(ArrayType) && s.items.Some? && s.items.value != EMPTY_SCHEMA && v.JArr? {
      CastItemsAt(py, v, s.items.value, |v.items|);
      CastItemsAt(py, c, s.items.value, |c.items|);
      forall i | 0 <= i < |v.items|
        ensures CastItems(py, c, s.items.value, |c.items|)[i] == c.items[i]
      {
        CastIsIdempotent(py, v.items[i], s.items.value);
      }
      assert CastItems(py, c, s.items.value, |c.items|) == c.items;
    }
  }

  /* ---------- the two entry points ---------- */

  predicate IsObjectSchema(s: Schema) {
    s.spec == NoType || s.spec == Named(ObjectType)
  }

  function CastParams(py: Python, params: Json, s: Schema): Json {
    if IsObjectSchema(s) && params.JObj? then JObj(CastFields(py, params, s, |params.fields|)) else params
  }

  /** validate_params: not an object is reported, a schema that is not an object type raises. */
  datatype Verdict = NotADictionary | SchemaError | Faults(faults: seq<Fault>)

  function ValidateParams(params: Json, s: Schema): Verdict {
    if !params.JObj? then NotADictionary
    else if !IsObjectSchema(s) then SchemaError
    else Faults(Validate(params, s.(spec := Named(ObjectType)), []))
  }

  /** Parameters that validate on their own are accepted unchanged after casting. */
  lemma {:induction false} CastThenValidate(py: Python, params: Json, s: Schema)
    requires ValidateParams(params, s) == Faults([])
    ensures CastParams(py, params, s) == params
    ensures ValidateParams(CastParams(py, params, s), s) == Faults([])
  {
    var o := s.(spec := Named(ObjectType));
    ValidatorIsExact(params, o, []);
    CastFixesConforming(py, params, o);
    CastFieldsIgnoreSpec(py, params, s, |params.fields|);
  }

  lemma {:induction false} CastFieldsIgnoreSpec(py: Python, v: Json, s: Schema, n: nat)
    requires v.JObj? && n <= |v.fields|
    ensures CastFields(py, v, s.(spec := Named(ObjectType)), n) == CastFields(py, v, s, n)
  {
    hide Cast;
    if n == 0 {
    } else {
      CastFieldsIgnoreSpec(py, v, s, n - 1);
    }
  }
}
