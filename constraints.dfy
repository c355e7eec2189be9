/** The part of go-playground/validator v10 that the tool parameter schemas
    use: struct tags as data, and validate.Struct as an interpreter that
    walks the fields in declaration order (tools/validation.go:8, 13).

    Per field the tags run left to right and the first failing tag is the
    field's one error; `omitempty` stops the walk when the field has no
    value. A nil pointer field is skipped when its first tag is
    `omitempty`, runs its tags when the first tag belongs to the required
    family, and otherwise fails on its first tag. A non-nil pointer to a
    struct, or a struct, is not checked against its own tags; its fields
    are validated in turn. */
module Constraints {
  import opened Wrappers
  import opened Text

  /** The tags the schemas use. Min, Max, Len and Eq keep the tag's text
      (for messages) and its numeric reading (for comparisons; Eq on a
      string compares the text and ignores the number). */
  datatype Tag =
    | Required
    | OmitEmpty
    | Min(param: string, bound: real)
    | Max(param: string, bound: real)
    | Len(param: string, bound: real)
    | Eq(param: string, bound: real)
    | OneOf(options: seq<string>)
    | RequiredWithout(other: string)
    | RequiredWithoutAll(others: seq<string>)

  /** A field value after JSON decoding: a nil slice is List(None), a nil
      pointer Ptr(None). Floats are read as reals. */
  datatype Value =
    | Str(s: string)
    | Int(i: int)
    | Float(r: real)
    | Bool(b: bool)
    | List(items: Option<seq<string>>)
    | Ptr(target: Option<Value>)
    | Struct(fields: seq<Value>)

  /** One struct field: its Go name, its tags, and the fields of the struct
      it holds, if any. */
  datatype FieldSpec = FieldSpec(name: string, tags: seq<Tag>, nested: seq<FieldSpec>)

  /** A field with its tags and no nested struct. */
  function Plain(name: string, tags: seq<Tag>): FieldSpec
  {
    FieldSpec(name, tags, [])
  }

  /** A *int64 or *int field. */
  function IntPtr(x: Option<int>): Value
  {
    if x.Some? then Ptr(Some(Int(x.value))) else Ptr(None)
  }

  /** A *float64 field. */
  function FloatPtr(x: Option<real>): Value
  {
    if x.Some? then Ptr(Some(Float(x.value))) else Ptr(None)
  }

  /** A *bool field. */
  function BoolPtr(x: Option<bool>): Value
  {
    if x.Some? then Ptr(Some(Bool(x.value))) else Ptr(None)
  }

  /** A pointer-to-struct field, given the struct's field values. */
  function StructPtr(x: Option<seq<Value>>): Value
  {
    if x.Some? then Ptr(Some(Struct(x.value))) else Ptr(None)
  }

  /** reflect.Kind of the failing value, as far as the error adapter asks. */
  datatype Kind = KindString | KindInt | KindFloat | KindBool | KindSlice | KindPtr | KindStruct

  /** validator.FieldError: namespace, field name, tag and parameter. */
  datatype FieldError = FieldError(namespace: string, field: string, tag: string, param: string, kind: Kind)

  function TagName(t: Tag): string
  {
    match t
    case Required => "required"
    case OmitEmpty => "omitempty"
    case Min(_, _) => "min"
    case Max(_, _) => "max"
    case Len(_, _) => "len"
    case Eq(_, _) => "eq"
    case OneOf(_) => "oneof"
    case RequiredWithout(_) => "required_without"
    case RequiredWithoutAll(_) => "required_without_all"
  }

  function TagParam(t: Tag): string
  {
    match t
    case Min(p, _) => p
    case Max(p, _) => p
    case Len(p, _) => p
    case Eq(p, _) => p
    case OneOf(options) => Join(options, " ")
    case RequiredWithout(o) => o
    case RequiredWithoutAll(os) => Join(os, " ")
    case _ => ""
  }

  function KindOf(v: Value): Kind
  {
    match v
    case Str(_) => KindString
    case Int(_) => KindInt
    case Float(_) => KindFloat
    case Bool(_) => KindBool
    case List(_) => KindSlice
    case Ptr(_) => KindPtr
    case Struct(_) => KindStruct
  }

  /** The Go zero value of the field's type. */
  predicate IsZero(v: Value)
  {
    match v
    case Str(s) => s == ""
    case Int(i) => i == 0
    case Float(r) => r == 0.0
    case Bool(b) => !b
    case List(items) => items.None?
    case Ptr(target) => target.None?
    case Struct(fields) => forall i | 0 <= i < |fields| :: IsZero(fields[i])
  }

  /** The validator's hasValue: nil-able kinds need a non-nil value, a
      value reached through a pointer always has one, anything else must
      differ from its zero value. */
  predicate HasValue(v: Value, viaPointer: bool)
  {
    match v
    case List(items) => items.Some?
    case Ptr(target) => target.Some?
    case _ => viaPointer || !IsZero(v)
  }

  /** How required_without and required_without_all see another field: a
      nil pointer or slice is absent, a non-nil pointer is present whatever
      it points to, and any other value is absent when it is zero. */
  predicate Absent(v: Value)
  {
    match v
    case Ptr(target) => target.None?
    case List(items) => items.None?
    case _ => IsZero(v)
  }

  /** The number min, max, len and eq compare: a string's character count,
      a slice's length, a number's value. */
  function Measure(v: Value): real
  {
    match v
    case Str(s) => |s| as real
    case Int(i) => i as real
    case Float(r) => r
    case List(items) => if items.Some? then |items.value| as real else 0.0
    case _ => 0.0
  }

  /** Whether the sibling named `name` is absent; a name that is not a field
      counts as absent. */
  predicate SiblingAbsent(name: string, specs: seq<FieldSpec>, values: seq<Value>)
  {
    if |specs| == 0 || |values| == 0 then true
    else if specs[0].name == name then Absent(values[0])
    else SiblingAbsent(name, specs[1..], values[1..])
  }

  predicate AllSiblingsAbsent(names: seq<string>, specs: seq<FieldSpec>, values: seq<Value>)
  {
    forall k | 0 <= k < |names| :: SiblingAbsent(names[k], specs, values)
  }

  /** Whether one tag accepts the value. */
  predicate TagHolds(t: Tag, v: Value, viaPointer: bool, specs: seq<FieldSpec>, values: seq<Value>)
  {
    match t
    case Required => HasValue(v, viaPointer)
    case OmitEmpty => true
    case Min(_, b) => Measure(v) >= b
    case Max(_, b) => Measure(v) <= b
    case Len(_, b) => Measure(v) == b
    case Eq(p, b) => if v.Str? then v.s == p else Measure(v) == b
    case OneOf(options) =>
      (v.Str? && v.s in options) || (v.Int? && IntToString(v.i) in options)
    case RequiredWithout(o) => !SiblingAbsent(o, specs, values) || HasValue(v, viaPointer)
    case RequiredWithoutAll(os) => !AllSiblingsAbsent(os, specs, values) || HasValue(v, viaPointer)
  }

  /** Runs the tags left to right and returns the first that fails;
      omitempty ends the walk when the value is empty. */
  function RunTags(tags: seq<Tag>, v: Value, viaPointer: bool, specs: seq<FieldSpec>, values: seq<Value>): Option<Tag>
  {
    if |tags| == 0 then None
    else if tags[0] == OmitEmpty then
      (if HasValue(v, viaPointer) then RunTags(tags[1..], v, viaPointer, specs, values) else None)
    else if TagHolds(tags[0], v, viaPointer, specs, values) then RunTags(tags[1..], v, viaPointer, specs, values)
    else Some(tags[0])
  }

  predicate RequiredFamily(t: Tag)
  {
    t == Required || t.RequiredWithout? || t.RequiredWithoutAll?
  }

  /** The tags of a nil pointer field. */
  function NilTags(tags: seq<Tag>, specs: seq<FieldSpec>, values: seq<Value>): Option<Tag>
  {
    if |tags| == 0 || tags[0] == OmitEmpty then None
    else if RequiredFamily(tags[0]) then RunTags(tags, Ptr(None), false, specs, values)
    else Some(tags[0])
  }

  function Failure(ns: string, spec: FieldSpec, t: Option<Tag>, kind: Kind): seq<FieldError>
  {
    if t.Some? then [FieldError(ns + "." + spec.name, spec.name, TagName(t.value), TagParam(t.value), kind)] else []
  }

  /** The errors of one field of the struct (specs, values) at namespace ns. */
  function CheckField(spec: FieldSpec, v: Value, ns: string, specs: seq<FieldSpec>, values: seq<Value>): seq<FieldError>
    decreases v, |spec.nested| + 1
  {
    match v
    case Ptr(None) => Failure(ns, spec, NilTags(spec.tags, specs, values), KindPtr)
    case Ptr(Some(Struct(fields))) => ValidateFrom(spec.nested, fields, ns + "." + spec.name, 0)
    case Ptr(Some(x)) => Failure(ns, spec, RunTags(spec.tags, x, true, specs, values), KindOf(x))
    case Struct(fields) => ValidateFrom(spec.nested, fields, ns + "." + spec.name, 0)
    case _ => Failure(ns, spec, RunTags(spec.tags, v, false, specs, values), KindOf(v))
  }

  /** The errors of fields i.. of a struct, in declaration order. */
  function ValidateFrom(specs: seq<FieldSpec>, values: seq<Value>, ns: string, i: nat): seq<FieldError>
    decreases Struct(values), |specs| - i
  {
    if i >= |specs| || i >= |values| then []
    else CheckField(specs[i], values[i], ns, specs, values) + ValidateFrom(specs, values, ns, i + 1)
  }

  /** validate.Struct: every field error of the struct, in order. */
  function ValidateStruct(structName: string, specs: seq<FieldSpec>, values: seq<Value>): seq<FieldError>
  {
    ValidateFrom(specs, values, structName, 0)
  }

  /** A struct validates exactly when each of its fields does. */
  lemma {:induction false} ValidateFromEmpty(specs: seq<FieldSpec>, values: seq<Value>, ns: string, i: nat)
    ensures ValidateFrom(specs, values, ns, i) == [] <==>
      forall j | i <= j < |specs| && j < |values| :: CheckField(specs[j], values[j], ns, specs, values) == []
    decreases |specs| - i
  {
    if i < |specs| && i < |values| {
      ValidateFromEmpty(specs, values, ns, i + 1);
    }
  }

  /** The first error of a failing struct is the first failing field's. */
  lemma {:induction false} ValidateFromFirst(specs: seq<FieldSpec>, values: seq<Value>, ns: string, i: nat, j: nat)
    requires i <= j < |specs| && j < |values|
    requires forall k | i <= k < j :: CheckField(specs[k], values[k], ns, specs, values) == []
    requires CheckField(specs[j], values[j], ns, specs, values) != []
    ensures ValidateFrom(specs, values, ns, i) != []
    ensures ValidateFrom(specs, values, ns, i)[0] == CheckField(specs[j], values[j], ns, specs, values)[0]
    decreases j - i
  {
    if i < j {
      ValidateFromFirst(specs, values, ns, i + 1, j);
    }
  }

  /** One step of the walk over a struct's fields. */
  lemma ValidateFromStep(specs: seq<FieldSpec>, values: seq<Value>, ns: string, i: nat)
    requires i < |specs| && i < |values|
    ensures ValidateFrom(specs, values, ns, i) == [] <==>
      CheckField(specs[i], values[i], ns, specs, values) == [] && ValidateFrom(specs, values, ns, i + 1) == []
  {
  }

  /** The walk ends after the last field. */
  lemma ValidateFromEnd(specs: seq<FieldSpec>, values: seq<Value>, ns: string, i: nat)
    requires i >= |specs|
    ensures ValidateFrom(specs, values, ns, i) == []
  {
  }

  /** The sibling lookup finds the first field with the name. */
  lemma {:induction false} SiblingAt(name: string, specs: seq<FieldSpec>, values: seq<Value>, k: nat)
    requires k < |specs| && k < |values| && specs[k].name == name
    requires forall j | 0 <= j < k :: specs[j].name != name
    ensures SiblingAbsent(name, specs, values) == Absent(values[k])
  {
    if k > 0 {
      SiblingAt(name, specs[1..], values[1..], k - 1);
    }
  }

  /** required_without_all with two names asks whether both are absent. */
  lemma AllSiblingsAbsentPair(a: string, b: string, specs: seq<FieldSpec>, values: seq<Value>)
    ensures AllSiblingsAbsent([a, b], specs, values) <==> SiblingAbsent(a, specs, values) && SiblingAbsent(b, specs, values)
  {
    assert [a, b][0] == a && [a, b][1] == b;
  }

  /** A field with no tags and no nested struct never fails. */
  lemma UntaggedNeverFails(spec: FieldSpec, v: Value, ns: string, specs: seq<FieldSpec>, values: seq<Value>)
    requires spec.tags == [] && spec.nested == []
    ensures CheckField(spec, v, ns, specs, values) == []
  {
  }

  /** A scalar field fails exactly when one of its tags does. */
  lemma CheckScalar(spec: FieldSpec, v: Value, ns: string, specs: seq<FieldSpec>, values: seq<Value>)
    requires !v.Ptr? && !v.Struct?
    ensures (CheckField(spec, v, ns, specs, values) == []) == RunTags(spec.tags, v, false, specs, values).None?
  {
  }

  /** A non-nil pointer to a scalar is checked on the value it points to. */
  lemma CheckPointee(spec: FieldSpec, x: Value, ns: string, specs: seq<FieldSpec>, values: seq<Value>)
    requires !x.Struct?
    ensures (CheckField(spec, Ptr(Some(x)), ns, specs, values) == []) == RunTags(spec.tags, x, true, specs, values).None?
  {
  }

  /** A nil pointer is checked by the nil-pointer rule. */
  lemma CheckNil(spec: FieldSpec, ns: string, specs: seq<FieldSpec>, values: seq<Value>)
    ensures (CheckField(spec, Ptr(None), ns, specs, values) == []) == NilTags(spec.tags, specs, values).None?
  {
  }

  // What each tag combination used by the schemas accepts.

  /** `required`: a non-empty string. */
  lemma RequiredString(spec: FieldSpec, s: string, ns: string, specs: seq<FieldSpec>, values: seq<Value>)
    requires spec.tags == [Required]
    ensures CheckField(spec, Str(s), ns, specs, values) == [] <==> s != ""
  {
    CheckScalar(spec, Str(s), ns, specs, values);
  }

  /** `required,min=lo,max=hi` on a string: non-empty, and lo..hi characters. */
  lemma RequiredStringBetween(spec: FieldSpec, s: string, lo: string, l: real, hi: string, h: real,
                              ns: string, specs: seq<FieldSpec>, values: seq<Value>)
    requires spec.tags == [Required, Min(lo, l), Max(hi, h)]
    ensures CheckField(spec, Str(s), ns, specs, values) == [] <==> s != "" && l <= |s| as real <= h
  {
    CheckScalar(spec, Str(s), ns, specs, values);
    assert RunTags([Max(hi, h)], Str(s), false, specs, values).None? <==> |s| as real <= h;
    assert RunTags([Min(lo, l), Max(hi, h)], Str(s), false, specs, values).None? <==> l <= |s| as real <= h;
    assert spec.tags[1..] == [Min(lo, l), Max(hi, h)];
  }

  /** `omitempty` alone accepts everything. */
  lemma OptionalString(spec: FieldSpec, s: string, ns: string, specs: seq<FieldSpec>, values: seq<Value>)
    requires spec.tags == [OmitEmpty]
    ensures CheckField(spec, Str(s), ns, specs, values) == []
  {
    CheckScalar(spec, Str(s), ns, specs, values);
  }

  /** `omitempty,oneof=...` on a string: empty, or one of the options. */
  lemma OptionalStringOneOf(spec: FieldSpec, s: string, options: seq<string>,
                            ns: string, specs: seq<FieldSpec>, values: seq<Value>)
    requires spec.tags == [OmitEmpty, OneOf(options)]
    ensures CheckField(spec, Str(s), ns, specs, values) == [] <==> (s != "" ==> s in options)
  {
    CheckScalar(spec, Str(s), ns, specs, values);
    assert RunTags([OneOf(options)], Str(s), false, specs, values).None? <==> s in options;
    assert spec.tags[1..] == [OneOf(options)];
  }

  /** `omitempty,eq=p` on a string: empty, or exactly p. */
  lemma OptionalStringEq(spec: FieldSpec, s: string, p: string, b: real,
                         ns: string, specs: seq<FieldSpec>, values: seq<Value>)
    requires spec.tags == [OmitEmpty, Eq(p, b)]
    ensures CheckField(spec, Str(s), ns, specs, values) == [] <==> (s != "" ==> s == p)
  {
    CheckScalar(spec, Str(s), ns, specs, values);
    assert RunTags([Eq(p, b)], Str(s), false, specs, values).None? <==> s == p;
    assert spec.tags[1..] == [Eq(p, b)];
  }

  /** `omitempty,len=n` on a string: empty, or n characters. */
  lemma OptionalStringLen(spec: FieldSpec, s: string, p: string, n: real,
                          ns: string, specs: seq<FieldSpec>, values: seq<Value>)
    requires spec.tags == [OmitEmpty, Len(p, n)]
    ensures CheckField(spec, Str(s), ns, specs, values) == [] <==> (s != "" ==> |s| as real == n)
  {
    CheckScalar(spec, Str(s), ns, specs, values);
    assert RunTags([Len(p, n)], Str(s), false, specs, values).None? <==> |s| as real == n;
    assert spec.tags[1..] == [Len(p, n)];
  }

  /** `omitempty,max=n` on a string: at most n characters (the empty string
      included). */
  lemma OptionalStringMax(spec: FieldSpec, s: string, p: string, n: real,
                          ns: string, specs: seq<FieldSpec>, values: seq<Value>)
    requires spec.tags == [OmitEmpty, Max(p, n)] && n >= 0.0
    ensures CheckField(spec, Str(s), ns, specs, values) == [] <==> |s| as real <= n
  {
    CheckScalar(spec, Str(s), ns, specs, values);
    assert RunTags([Max(p, n)], Str(s), false, specs, values).None? <==> |s| as real <= n;
    assert spec.tags[1..] == [Max(p, n)];
  }

  /** `omitempty,min=lo,max=hi` on an int: zero, or within lo..hi. */
  lemma OptionalIntBetween(spec: FieldSpec, i: int, lo: string, l: real, hi: string, h: real,
                           ns: string, specs: seq<FieldSpec>, values: seq<Value>)
    requires spec.tags == [OmitEmpty, Min(lo, l), Max(hi, h)]
    ensures CheckField(spec, Int(i), ns, specs, values) == [] <==> (i != 0 ==> l <= i as real <= h)
  {
    CheckScalar(spec, Int(i), ns, specs, values);
    assert RunTags([Max(hi, h)], Int(i), false, specs, values).None? <==> i as real <= h;
    assert RunTags([Min(lo, l), Max(hi, h)], Int(i), false, specs, values).None? <==> l <= i as real <= h;
    assert spec.tags[1..] == [Min(lo, l), Max(hi, h)];
  }

  /** `omitempty,min=lo` on an int: zero, or at least lo. */
  lemma OptionalIntMin(spec: FieldSpec, i: int, lo: string, l: real,
                       ns: string, specs: seq<FieldSpec>, values: seq<Value>)
    requires spec.tags == [OmitEmpty, Min(lo, l)]
    ensures CheckField(spec, Int(i), ns, specs, values) == [] <==> (i != 0 ==> l <= i as real)
  {
    CheckScalar(spec, Int(i), ns, specs, values);
    assert RunTags([Min(lo, l)], Int(i), false, specs, values).None? <==> l <= i as real;
    assert spec.tags[1..] == [Min(lo, l)];
  }

  /** `omitempty,eq=n` on an int: zero, or exactly n. */
  lemma OptionalIntEq(spec: FieldSpec, i: int, p: string, n: real,
                      ns: string, specs: seq<FieldSpec>, values: seq<Value>)
    requires spec.tags == [OmitEmpty, Eq(p, n)]
    ensures CheckField(spec, Int(i), ns, specs, values) == [] <==> (i != 0 ==> i as real == n)
  {
    CheckScalar(spec, Int(i), ns, specs, values);
    assert RunTags([Eq(p, n)], Int(i), false, specs, values).None? <==> i as real == n;
    assert spec.tags[1..] == [Eq(p, n)];
  }

  /** `omitempty,oneof=...` on an int: zero, or its decimal form is an
      option. */
  lemma OptionalIntOneOf(spec: FieldSpec, i: int, options: seq<string>,
                         ns: string, specs: seq<FieldSpec>, values: seq<Value>)
    requires spec.tags == [OmitEmpty, OneOf(options)]
    ensures CheckField(spec, Int(i), ns, specs, values) == [] <==> (i != 0 ==> IntToString(i) in options)
  {
    CheckScalar(spec, Int(i), ns, specs, values);
    assert RunTags([OneOf(options)], Int(i), false, specs, values).None? <==> IntToString(i) in options;
    assert spec.tags[1..] == [OneOf(options)];
  }

  /** `omitempty,min=lo,max=hi` on a float: zero, or within lo..hi. */
  lemma OptionalFloatBetween(spec: FieldSpec, r: real, lo: string, l: real, hi: string, h: real,
                             ns: string, specs: seq<FieldSpec>, values: seq<Value>)
    requires spec.tags == [OmitEmpty, Min(lo, l), Max(hi, h)]
    ensures CheckField(spec, Float(r), ns, specs, values) == [] <==> (r != 0.0 ==> l <= r <= h)
  {
    CheckScalar(spec, Float(r), ns, specs, values);
    assert RunTags([Max(hi, h)], Float(r), false, specs, values).None? <==> r <= h;
    assert RunTags([Min(lo, l), Max(hi, h)], Float(r), false, specs, values).None? <==> l <= r <= h;
    assert spec.tags[1..] == [Min(lo, l), Max(hi, h)];
  }

  /** `omitempty,min=lo,max=hi` on a pointer to an int: nil, or the value
      (zero included) within lo..hi. */
  lemma OptionalIntPtrBetween(spec: FieldSpec, x: Option<int>, lo: string, l: real, hi: string, h: real,
                              ns: string, specs: seq<FieldSpec>, values: seq<Value>)
    requires spec.tags == [OmitEmpty, Min(lo, l), Max(hi, h)]
    ensures CheckField(spec, IntPtr(x), ns, specs, values) == [] <==>
      (x.Some? ==> l <= x.value as real <= h)
  {
    if x.Some? {
      var v := Int(x.value);
      CheckPointee(spec, v, ns, specs, values);
      assert RunTags([Max(hi, h)], v, true, specs, values).None? <==> x.value as real <= h;
      assert RunTags([Min(lo, l), Max(hi, h)], v, true, specs, values).None? <==> l <= x.value as real <= h;
      assert spec.tags[1..] == [Min(lo, l), Max(hi, h)];
    } else {
      CheckNil(spec, ns, specs, values);
    }
  }

  /** `required,min=lo,max=hi` on a slice: non-nil, with lo..hi items. */
  lemma RequiredListBetween(spec: FieldSpec, items: Option<seq<string>>, lo: string, l: real, hi: string, h: real,
                            ns: string, specs: seq<FieldSpec>, values: seq<Value>)
    requires spec.tags == [Required, Min(lo, l), Max(hi, h)]
    ensures CheckField(spec, List(items), ns, specs, values) == [] <==>
      items.Some? && l <= |items.value| as real <= h
  {
    var v := List(items);
    CheckScalar(spec, v, ns, specs, values);
    assert RunTags([Max(hi, h)], v, false, specs, values).None? <==> Measure(v) <= h;
    assert RunTags([Min(lo, l), Max(hi, h)], v, false, specs, values).None? <==> l <= Measure(v) <= h;
    assert spec.tags[1..] == [Min(lo, l), Max(hi, h)];
  }

  /** `required,min=lo` on a slice: non-nil, with at least lo items. */
  lemma RequiredListMin(spec: FieldSpec, items: Option<seq<string>>, lo: string, l: real,
                        ns: string, specs: seq<FieldSpec>, values: seq<Value>)
    requires spec.tags == [Required, Min(lo, l)]
    ensures CheckField(spec, List(items), ns, specs, values) == [] <==> items.Some? && l <= |items.value| as real
  {
    CheckScalar(spec, List(items), ns, specs, values);
    assert RunTags([Min(lo, l)], List(items), false, specs, values).None? <==> l <= Measure(List(items));
    assert spec.tags[1..] == [Min(lo, l)];
  }

  /** `required_without=o` on a string: needed only when o is absent. */
  lemma StringRequiredWithout(spec: FieldSpec, s: string, o: string,
                              ns: string, specs: seq<FieldSpec>, values: seq<Value>)
    requires spec.tags == [RequiredWithout(o)]
    ensures CheckField(spec, Str(s), ns, specs, values) == [] <==> (SiblingAbsent(o, specs, values) ==> s != "")
  {
    CheckScalar(spec, Str(s), ns, specs, values);
  }

  /** `required_without=o,omitempty,min=lo,max=hi` on a string: needed when
      o is absent, and lo..hi characters when given. */
  lemma StringRequiredWithoutBetween(spec: FieldSpec, s: string, o: string, lo: string, l: real, hi: string, h: real,
                                     ns: string, specs: seq<FieldSpec>, values: seq<Value>)
    requires spec.tags == [RequiredWithout(o), OmitEmpty, Min(lo, l), Max(hi, h)]
    ensures CheckField(spec, Str(s), ns, specs, values) == [] <==>
      (SiblingAbsent(o, specs, values) ==> s != "") && (s != "" ==> l <= |s| as real <= h)
  {
    var v := Str(s);
    CheckScalar(spec, v, ns, specs, values);
    assert RunTags([Max(hi, h)], v, false, specs, values).None? <==> |s| as real <= h;
    assert RunTags([Min(lo, l), Max(hi, h)], v, false, specs, values).None? <==> l <= |s| as real <= h;
    assert RunTags([OmitEmpty, Min(lo, l), Max(hi, h)], v, false, specs, values).None? <==>
      (s != "" ==> l <= |s| as real <= h);
    assert spec.tags[1..] == [OmitEmpty, Min(lo, l), Max(hi, h)];
  }

  /** `required_without=o,omitempty,min=lo,max=hi` on a pointer to a float:
      nil only when o is present, and the value within lo..hi when given. */
  lemma FloatPtrRequiredWithoutBetween(spec: FieldSpec, x: Option<real>, o: string, lo: string, l: real, hi: string, h: real,
                                       ns: string, specs: seq<FieldSpec>, values: seq<Value>)
    requires spec.tags == [RequiredWithout(o), OmitEmpty, Min(lo, l), Max(hi, h)]
    ensures CheckField(spec, FloatPtr(x), ns, specs, values) == [] <==>
      (x.None? ==> !SiblingAbsent(o, specs, values)) && (x.Some? ==> l <= x.value <= h)
  {
    assert spec.tags[1..] == [OmitEmpty, Min(lo, l), Max(hi, h)];
    if x.Some? {
      var v := Float(x.value);
      CheckPointee(spec, v, ns, specs, values);
      assert RunTags([Max(hi, h)], v, true, specs, values).None? <==> x.value <= h;
      assert RunTags([Min(lo, l), Max(hi, h)], v, true, specs, values).None? <==> l <= x.value <= h;
      assert RunTags([OmitEmpty, Min(lo, l), Max(hi, h)], v, true, specs, values).None? <==> l <= x.value <= h;
    } else {
      CheckNil(spec, ns, specs, values);
      assert RunTags([OmitEmpty, Min(lo, l), Max(hi, h)], Ptr(None), false, specs, values).None?;
    }
  }

  /** `required_without_all=...` on a string: needed only when every named
      field is absent. */
  lemma StringRequiredWithoutAll(spec: FieldSpec, s: string, os: seq<string>,
                                 ns: string, specs: seq<FieldSpec>, values: seq<Value>)
    requires spec.tags == [RequiredWithoutAll(os)]
    ensures CheckField(spec, Str(s), ns, specs, values) == [] <==> (AllSiblingsAbsent(os, specs, values) ==> s != "")
  {
    CheckScalar(spec, Str(s), ns, specs, values);
  }

  /** `required_without_all=...` on a slice: non-nil when every named field
      is absent. */
  lemma ListRequiredWithoutAll(spec: FieldSpec, items: Option<seq<string>>, os: seq<string>,
                               ns: string, specs: seq<FieldSpec>, values: seq<Value>)
    requires spec.tags == [RequiredWithoutAll(os)]
    ensures CheckField(spec, List(items), ns, specs, values) == [] <==>
      (AllSiblingsAbsent(os, specs, values) ==> items.Some?)
  {
    CheckScalar(spec, List(items), ns, specs, values);
  }

  /** `omitempty,oneof=...,required_without_all=...` on a string: the
      leading omitempty makes the last tag unreachable, so the field is
      empty or one of the options. */
  lemma OptionalStringOneOfRequiredWithoutAll(spec: FieldSpec, s: string, options: seq<string>, os: seq<string>,
                                              ns: string, specs: seq<FieldSpec>, values: seq<Value>)
    requires spec.tags == [OmitEmpty, OneOf(options), RequiredWithoutAll(os)]
    ensures CheckField(spec, Str(s), ns, specs, values) == [] <==> (s != "" ==> s in options)
  {
    var v := Str(s);
    CheckScalar(spec, v, ns, specs, values);
    assert s != "" ==> RunTags([RequiredWithoutAll(os)], v, false, specs, values).None?;
    assert spec.tags[1..] == [OneOf(options), RequiredWithoutAll(os)];
  }

  /** `required_without=o` on a pointer to a struct: nil only when o is
      present; a non-nil target is validated field by field under the
      field's namespace. */
  lemma StructPtrRequiredWithout(spec: FieldSpec, x: Option<seq<Value>>, o: string,
                                 ns: string, specs: seq<FieldSpec>, values: seq<Value>)
    requires spec.tags == [RequiredWithout(o)]
    ensures CheckField(spec, StructPtr(x), ns, specs, values) == [] <==>
      if x.Some? then ValidateFrom(spec.nested, x.value, ns + "." + spec.name, 0) == []
      else !SiblingAbsent(o, specs, values)
  {
    if x.None? {
      CheckNil(spec, ns, specs, values);
      assert RunTags(spec.tags, Ptr(None), false, specs, values).None? <==> !SiblingAbsent(o, specs, values);
    }
  }

  /** An untagged pointer to a struct: nil passes; a non-nil target is
      validated field by field. */
  lemma OptionalStructPtr(spec: FieldSpec, x: Option<seq<Value>>,
                          ns: string, specs: seq<FieldSpec>, values: seq<Value>)
    requires spec.tags == []
    ensures CheckField(spec, StructPtr(x), ns, specs, values) == [] <==>
      (x.Some? ==> ValidateFrom(spec.nested, x.value, ns + "." + spec.name, 0) == [])
  {
  }
}
