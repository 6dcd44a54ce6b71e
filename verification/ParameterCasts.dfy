/** What casting makes of a value, told by the schema alone (nanobot/agent/tools/base.py). */
module ParameterCasts {
  import opened Prelude
  import opened ToolParameters

  /** The value `out` is what the schema makes of v: text becomes the number it spells or the truth value it
      names, anything becomes text where text is asked for, objects and arrays are cast inside, and everything
      else stays. */
  predicate CastsTo(py: Python, v: Json, s: Schema, out: Json)
    decreases v
  {
    match Resolve(s.spec)
    case Some(IntegerType) => if v.JStr? then IntegerText(py, v.s, out) else out == v
    case Some(NumberType) => if v.JStr? then NumberText(py, v.s, out) else out == v
    case Some(BooleanType) => if v.JStr? then BooleanText(py, v.s, out) else out == v
    case Some(StringType) => if v.JStr? || v.JNull? then out == v else out == JStr(py.text(v))
    case Some(ArrayType) =>
      if v.JArr? && s.items.Some? && s.items.value != EMPTY_SCHEMA then
        out.JArr? && |out.items| == |v.items|
        && forall i :: 0 <= i < |v.items| ==> CastsTo(py, v.items[i], s.items.value, out.items[i])
      else out == v
    case Some(ObjectType) =>
      if v.JObj? then
        out.JObj? && |out.fields| == |v.fields|
        && forall i :: 0 <= i < |v.fields| ==>
             out.fields[i].0 == v.fields[i].0 &&
             match Find(s.properties, v.fields[i].0)
             case Some(p) => CastsTo(py, v.fields[i].1, p, out.fields[i].1)
             case None => out.fields[i].1 == v.fields[i].1
      else out == v
    case _ => out == v
  }

  predicate IntegerText(py: Python, text: string, out: Json) {
    match py.parseInt(text)
    case Some(n) => out == JInt(n)
    case None => out == JStr(text)
  }

  predicate NumberText(py: Python, text: string, out: Json) {
    match py.parseFloat(text)
    case Some(f) => out == JFloat(f)
    case None => out == JStr(text)
  }

  predicate BooleanText(py: Python, text: string, out: Json) {
    var word := py.lower(text);
    out == if word == "true" || word == "yes" || word == "1" then JBool(true)
           else if word == "false" || word == "no" || word == "0" then JBool(false)
           else JStr(text)
  }

  lemma {:induction false} FindIsFirst(pairs: seq<(string, Schema)>, key: string, i: nat)
    requires i < |pairs| && pairs[i].0 == key && forall j :: 0 <= j < i ==> pairs[j].0 != key
    ensures Find(pairs, key) == Some(pairs[i].1)
    decreases i
  {
    if i > 0 {
      assert forall j :: 0 <= j < |pairs| - 1 ==> pairs[1..][j] == pairs[j + 1];
      FindIsFirst(pairs[1..], key, i - 1);
    }
  }

  lemma {:induction false} UnknownIsNotFound(pairs: seq<(string, Schema)>, key: string)
    requires forall j :: 0 <= j < |pairs| ==> pairs[j].0 != key
    ensures Find(pairs, key) == None
  {
    if pairs != [] {
      UnknownIsNotFound(pairs[1..], key);
    }
  }

  /** Casting gives exactly the value the schema asks for, at every depth of objects and arrays. */
  lemma {:induction false} CastIsExact(py: Python, v: Json, s: Schema, out: Json)
    ensures out == Cast(py, v, s) <==> CastsTo(py, v, s, out)
    decreases v, 1
  {
    hide Cast, CastsTo;
    var t := Resolve(s.spec);
    if t == Some(ObjectType) && v.JObj? {
      ObjectIsExact(py, v, s, out);
    } else if t == Some(ArrayType) && v.JArr? && s.items.Some? && s.items.value != EMPTY_SCHEMA {
      ArrayIsExact(py, v, s, out);
    } else {
      LeafIsExact(py, v, s, out);
    }
  }

  lemma {:induction false} LeafIsExact(py: Python, v: Json, s: Schema, out: Json)
    requires Resolve(s.spec) == Some(ObjectType) ==> !v.JObj?
    requires Resolve(s.spec) == Some(ArrayType) && v.JArr? ==> s.items.None? || s.items.value == EMPTY_SCHEMA
    ensures out == Cast(py, v, s) <==> CastsTo(py, v, s, out)
  {
    hide Find, CastFields, CastItems;
  }

  /** What becomes of one entry of an object. */
  predicate EntryCastsTo(py: Python, entry: (string, Json), s: Schema, out: (string, Json)) {
    out.0 == entry.0 &&
    match Find(s.properties, entry.0)
    case Some(p) => CastsTo(py, entry.1, p, out.1)
    case None => out.1 == entry.1
  }

  lemma {:induction false} ObjectUnfolds(py: Python, v: Json, s: Schema, out: Json)
    requires Resolve(s.spec) == Some(ObjectType) && v.JObj?
    ensures Cast(py, v, s) == JObj(CastFields(py, v, s, |v.fields|))
    ensures CastsTo(py, v, s, out) <==>
      && out.JObj? && |out.fields| == |v.fields|
      && forall i :: 0 <= i < |v.fields| ==> EntryCastsTo(py, v.fields[i], s, out.fields[i])
  {
    hide Find, CastFields;
  }

  lemma {:induction false} ObjectIsExact(py: Python, v: Json, s: Schema, out: Json)
    requires Resolve(s.spec) == Some(ObjectType) && v.JObj?
    ensures out == Cast(py, v, s) <==> CastsTo(py, v, s, out)
    decreases v, 0
  {
    hide Cast, CastsTo, CastFields, Find;
    ObjectUnfolds(py, v, s, out);
    CastFieldsKeys(py, v, s, |v.fields|);
    var fields := CastFields(py, v, s, |v.fields|);
    if out.JObj? && |out.fields| == |v.fields| {
      forall i | 0 <= i < |v.fields|
        ensures out.fields[i] == fields[i] <==> EntryCastsTo(py, v.fields[i], s, out.fields[i])
      {
        var p := Find(s.properties, v.fields[i].0);
        if p.Some? {
          CastIsExact(py, v.fields[i].1, p.value, out.fields[i].1);
        }
      }
      assert out.fields == fields <==> forall i :: 0 <= i < |fields| ==> out.fields[i] == fields[i];
    }
  }

  lemma {:induction false} ArrayUnfolds(py: Python, v: Json, s: Schema, out: Json)
    requires Resolve(s.spec) == Some(ArrayType) && v.JArr? && s.items.Some? && s.items.value != EMPTY_SCHEMA
    ensures Cast(py, v, s) == JArr(CastItems(py, v, s.items.value, |v.items|))
    ensures CastsTo(py, v, s, out) <==>
      && out.JArr? && |out.items| == |v.items|
      && forall i :: 0 <= i < |v.items| ==> CastsTo(py, v.items[i], s.items.value, out.items[i])
  {
    hide CastItems;
  }

  lemma {:induction false} ArrayIsExact(py: Python, v: Json, s: Schema, out: Json)
    requires Resolve(s.spec) == Some(ArrayType) && v.JArr? && s.items.Some? && s.items.value != EMPTY_SCHEMA
    ensures out == Cast(py, v, s) <==> CastsTo(py, v, s, out)
    decreases v, 0
  {
    hide Cast, CastsTo, CastItems;
    ArrayUnfolds(py, v, s, out);
    CastItemsAt(py, v, s.items.value, |v.items|);
    var items := CastItems(py, v, s.items.value, |v.items|);
    if out.JArr? && |out.items| == |v.items| {
      forall i | 0 <= i < |v.items|
        ensures out.items[i] == items[i] <==> CastsTo(py, v.items[i], s.items.value, out.items[i])
      {
        CastIsExact(py, v.items[i], s.items.value, out.items[i]);
      }
      assert out.items == items <==> forall i :: 0 <= i < |items| ==> out.items[i] == items[i];
    }
  }

  /** The parameters of a call are cast entry by entry when the schema is one of objects, and left alone
      otherwise. */
  lemma {:induction false} ParamsCastTo(py: Python, params: Json, s: Schema, out: Json)
    ensures out == CastParams(py, params, s) <==>
      if s.spec == NoType || s.spec == Named(ObjectType) then CastsTo(py, params, s.(spec := Named(ObjectType)), out)
      else out == params
  {
    hide CastsTo;
    var o := s.(spec := Named(ObjectType));
    CastIsExact(py, params, o, out);
    if params.JObj? {
      CastFieldsIgnoreSpec(py, params, s, |params.fields|);
    }
    hide CastFields;
  }

  /* ---------- which casts are accepted ---------- */

  /** The number is at least the bound; NaN passes every bound, and every number passes NaN. */
  predicate NotBelow(x: Float, bound: Float) {
    match bound
    case Finite(b) => (x.Finite? && x.value >= b) || x == PositiveInfinity || x == NaN
    case PositiveInfinity => x == PositiveInfinity || x == NaN
    case NegativeInfinity => true
    case NaN => true
  }

  predicate NotAbove(x: Float, bound: Float) {
    match bound
    case Finite(b) => (x.Finite? && x.value <= b) || x == NegativeInfinity || x == NaN
    case NegativeInfinity => x == NegativeInfinity || x == NaN
    case PositiveInfinity => true
    case NaN => true
  }

  predicate MeetsBounds(x: Float, s: Schema) {
    (s.minimum.Some? ==> NotBelow(x, s.minimum.value)) && (s.maximum.Some? ==> NotAbove(x, s.maximum.value))
  }

  predicate Listed(v: Json, s: Schema) {
    s.enumeration.Some? ==> exists i :: 0 <= i < |s.enumeration.value| && PyEqual(v, s.enumeration.value[i])
  }

  lemma {:induction false} BoundsAreMet(v: Json, s: Schema, x: Float)
    requires AsNumber(v) == Some(x)
    ensures WithinBounds(v, s) <==> MeetsBounds(x, s)
  {
  }

  /** Text for an integer is accepted after casting exactly when it spells an integer that is listed and within
      the bounds. */
  lemma {:induction false} IntegerTextAcceptedIff(py: Python, text: string, s: Schema)
    requires Resolve(s.spec) == Some(IntegerType)
    ensures Conforms(Cast(py, JStr(text), s), s) <==>
      match py.parseInt(text)
      case None => false
      case Some(n) => Listed(JInt(n), s) && MeetsBounds(Finite(n as real), s)
  {
    hide WithinBounds, MeetsBounds, InEnumeration, PyEqual;
    var n := py.parseInt(text);
    if n.Some? {
      BoundsAreMet(JInt(n.value), s, Finite(n.value as real));
      ListedIsEnumerated(JInt(n.value), s);
    }
  }

  /** Text for a number likewise, where text may also spell an infinity or NaN. */
  lemma {:induction false} NumberTextAcceptedIff(py: Python, text: string, s: Schema)
    requires Resolve(s.spec) == Some(NumberType)
    ensures Conforms(Cast(py, JStr(text), s), s) <==>
      match py.parseFloat(text)
      case None => false
      case Some(f) => Listed(JFloat(f), s) && MeetsBounds(f, s)
  {
    hide WithinBounds, MeetsBounds, InEnumeration, PyEqual;
    var f := py.parseFloat(text);
    if f.Some? {
      BoundsAreMet(JFloat(f.value), s, f.value);
      ListedIsEnumerated(JFloat(f.value), s);
    }
  }

  /** Text for a truth value exactly when it is one of the six words and its value is listed. */
  lemma {:induction false} BooleanTextAcceptedIff(py: Python, text: string, s: Schema)
    requires Resolve(s.spec) == Some(BooleanType)
    ensures Conforms(Cast(py, JStr(text), s), s) <==>
      || (py.lower(text) in ["true", "1", "yes"] && Listed(JBool(true), s))
      || (py.lower(text) in ["false", "0", "no"] && Listed(JBool(false), s))
  {
    hide InEnumeration, PyEqual;
    ListedIsEnumerated(JBool(true), s);
    ListedIsEnumerated(JBool(false), s);
  }

  /** Anything but null for a text exactly when its text is listed and within the lengths. */
  lemma {:induction false} AnyTextAcceptedIff(py: Python, v: Json, s: Schema)
    requires Resolve(s.spec) == Some(StringType) && !v.JNull?
    ensures var text := if v.JStr? then v.s else py.text(v);
      Conforms(Cast(py, v, s), s) <==>
        && Listed(JStr(text), s)
        && (s.minLength.Some? ==> s.minLength.value <= |text|) && (s.maxLength.Some? ==> |text| <= s.maxLength.value)
  {
    hide InEnumeration, PyEqual;
    ListedIsEnumerated(JStr(if v.JStr? then v.s else py.text(v)), s);
  }

  lemma {:induction false} ListedIsEnumerated(v: Json, s: Schema)
    ensures Listed(v, s) <==> (s.enumeration.Some? ==> InEnumeration(v, s.enumeration.value))
  {
    hide PyEqual;
  }

  /** A schema that says nothing but a type accepts exactly the values of that type; a boolean is no number. */
  lemma {:induction false} BareTypeAccepts(v: Json, t: TypeName)
    ensures Conforms(v, EMPTY_SCHEMA.(spec := Named(t))) <==>
      match t
      case StringType => v.JStr?
      case IntegerType => v.JInt?
      case NumberType => v.JInt? || v.JFloat?
      case BooleanType => v.JBool?
      case ArrayType => v.JArr?
      case ObjectType => v.JObj?
      case NullType => true
      case OtherType(_) => true
  {
  }
}
