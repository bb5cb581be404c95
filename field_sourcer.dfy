/**
 * `Source` and `toSpecificArray` of pkg/inspect/parse.go: overwrite the
 * json-tagged fields of a struct, in place, from a settings object.
 *
 * `FieldStep` says what happens to one field; `SourceFrom` runs the steps in
 * declaration order and stops at the first failure. `Record` is the struct the
 * caller's pointer designates, and `Source` the Go loop that writes it.
 */
module FieldSourcer {
  import opened Wrappers
  import opened Values

  /** The settings key of a json tag: its text before the first comma, all of it when it has none. */
  function TagKey(tag: string): (key: string)
    ensures key <= tag
    ensures ',' !in key
    ensures |key| < |tag| ==> tag[|key|] == ','
  {
    if |tag| == 0 || tag[0] == ',' then "" else [tag[0]] + TagKey(tag[1..])
  }

  /** A tag without options is its own key. */
  lemma TagKeyWithoutComma(tag: string)
    requires ',' !in tag
    ensures TagKey(tag) == tag
  {
    var key := TagKey(tag);
    assert |key| == |tag|;
  }

  /**
   * Element `item` of a slice of element type `se`, as toSpecificArray reads
   * it: its static type and its value after one unwrap of an interface or a
   * pointer (parse.go:125-129).
   */
  function Unwrapped(se: Type, item: Value): (Type, Value)
    requires se == TAny ==> !item.Nil?
  {
    if se == TAny then (TypeOf(item), item)
    else if item.Ptr? then (item.elem, item.target)
    else (se, item)
  }

  /** The elements of a slice setting can be converted without a reflect panic (no nil interface). */
  predicate ElementsUnwrap(se: Type, items: seq<Value>)
  {
    se == TAny ==> forall i :: 0 <= i < |items| ==> !items[i].Nil?
  }

  /**
   * The elements of a slice of element type `se` converted to element type
   * `e`: each unwrapped element, in order, when every one is assignable to
   * `e`; otherwise the error for the first one that is not.
   */
  function SpecificArray(se: Type, items: seq<Value>, e: Type): (r: Result<seq<Value>, Error>)
    requires ElementsUnwrap(se, items)
    ensures r.Ok? <==> forall i :: 0 <= i < |items| ==> AssignableTo(Unwrapped(se, items[i]).0, e)
    ensures r.Ok? ==> |r.value| == |items|
                      && forall i :: 0 <= i < |items| ==> r.value[i] == Unwrapped(se, items[i]).1
    ensures r.Err? ==>
      exists i :: 0 <= i < |items|
        && (forall j :: 0 <= j < i ==> AssignableTo(Unwrapped(se, items[j]).0, e))
        && !AssignableTo(Unwrapped(se, items[i]).0, e)
        && r.error == UnassignableElem(e, Unwrapped(se, items[i]).0)
  {
    if |items| == 0 then Ok([])
    else
      var (t, x) := Unwrapped(se, items[0]);
      if !AssignableTo(t, e) then Err(UnassignableElem(e, t))
      else
        var rest := SpecificArray(se, items[1..], e);
        assert forall i :: 1 <= i < |items| ==> items[i] == items[1..][i - 1];
        if rest.Ok? then Ok([x] + rest.value) else rest
  }

  /**
   * toSpecificArray: a fresh slice of the field's element type holding the
   * converted elements of the slice setting, or the error for the first
   * element that cannot be stored in it.
   */
  method ToSpecificArray(se: Type, items: seq<Value>, target: Type) returns (r: Result<Value, Error>)
    requires HasElem(target) && ElementsUnwrap(se, items)
    ensures r.Ok? <==> SpecificArray(se, items, Elem(target)).Ok?
    ensures r.Ok? ==> r.value == Slice(Elem(target), SpecificArray(se, items, Elem(target)).value)
    ensures r.Err? ==> r.error == SpecificArray(se, items, Elem(target)).error
  {
    var result: seq<Value> := [];
    for i := 0 to |items|
      invariant |result| == i
      invariant forall j :: 0 <= j < i ==> AssignableTo(Unwrapped(se, items[j]).0, Elem(target))
      invariant forall j :: 0 <= j < i ==> result[j] == Unwrapped(se, items[j]).1
    {
      var v := items[i];
      var t := se;
      if se == TAny {
        t := TypeOf(v);
      } else if v.Ptr? {
        t, v := v.elem, v.target;
      }
      if !AssignableTo(t, Elem(target)) {
        return Err(UnassignableElem(Elem(target), t));
      }
      result := result + [v];
    }
    assert result == SpecificArray(se, items, Elem(target)).value;
    return Ok(Slice(Elem(target), result));
  }

  /** What sourcing does to one field. */
  datatype Step = Skip | Assign(value: Value) | Fail(error: Error)

  /**
   * The field can be sourced without a reflect panic: its setting, if it has
   * one, is not nil (`sv.Type()` panics on the zero Value, parse.go:65); a
   * slice setting holds no nil interface and goes to a field whose type has an
   * element type (`Type.Elem` panics otherwise, parse.go:123); and a slice
   * setting for a map or pointer field fails its conversion, since a converted
   * slice cannot be `Set` into such a field (parse.go:63).
   */
  predicate Sourceable(f: FieldDecl, settings: map<string, Value>)
  {
    f.jsonTag.Some? && TagKey(f.jsonTag.value) in settings ==>
      var sv := settings[TagKey(f.jsonTag.value)];
      !sv.Nil?
      && (sv.Slice? ==>
            HasElem(f.typ) && ElementsUnwrap(sv.elem, sv.items)
            && (f.typ.TSlice? || SpecificArray(sv.elem, sv.items, Elem(f.typ)).Err?))
  }

  /** One iteration of the loop of Source (parse.go:43-69). */
  function FieldStep(f: FieldDecl, settings: map<string, Value>): Step
    requires Sourceable(f, settings)
  {
    if f.jsonTag.None? then Skip
    else
      var key := TagKey(f.jsonTag.value);
      if key !in settings then Skip
      else
        var sv := settings[key];
        if sv.Slice? then
          match SpecificArray(sv.elem, sv.items, Elem(f.typ))
          case Ok(items) => Assign(Slice(Elem(f.typ), items))
          case Err(e) => Fail(e)
        else if AssignableTo(TypeOf(sv), f.typ) then Assign(sv)
        else Fail(Unassignable(f.name, f.typ, TypeOf(sv)))
  }

  /** Every field of `st` can be sourced from `settings`. */
  predicate AllSourceable(st: StructType, settings: map<string, Value>)
  {
    forall j :: 0 <= j < |st.fields| ==> Sourceable(st.fields[j], settings)
  }

  /**
   * The fields after the steps from field `j` on, with the error that stopped
   * them, if any.
   */
  function SourceFrom(st: StructType, fs: seq<Value>, settings: map<string, Value>, j: nat): (seq<Value>, Option<Error>)
    requires |fs| == |st.fields| && j <= |fs| && AllSourceable(st, settings)
    decreases |fs| - j
  {
    if j == |fs| then (fs, None)
    else match FieldStep(st.fields[j], settings)
      case Skip => SourceFrom(st, fs, settings, j + 1)
      case Assign(x) => SourceFrom(st, fs[j := x], settings, j + 1)
      case Fail(e) => (fs, Some(e))
  }

  /** The struct a caller's pointer designates: its type and the current values of its fields. */
  class Record {
    const st: StructType
    var fields: seq<Value>

    ghost predicate Valid()
      reads this
    {
      |fields| == |st.fields|
    }

    constructor (st: StructType, fields: seq<Value>)
      requires |fields| == |st.fields|
      ensures Valid() && this.st == st && this.fields == fields
    {
      this.st := st;
      this.fields := fields;
    }
  }

  /**
   * The interface{} handed to Source: a pointer to a struct, a nil pointer, a
   * struct passed by value, or any other value.
   */
  datatype Target =
    | StructPtr(rec: Record)
    | NilPtr(elem: Type)
    | StructVal(st: StructType, fields: seq<Value>)
    | Other(v: Value)

  /**
   * A struct passed by value is not addressable, so the `Set` of parse.go:63
   * and parse.go:68 panics on it. Sourcing it from field `j` on avoids that
   * panic when every step up to the first failure, or to the end, is a skip.
   */
  predicate NoSetBeforeFailure(st: StructType, settings: map<string, Value>, j: nat)
    requires j <= |st.fields| && AllSourceable(st, settings)
    decreases |st.fields| - j
  {
    if j == |st.fields| then true
    else match FieldStep(st.fields[j], settings)
      case Skip => NoSetBeforeFailure(st, settings, j + 1)
      case Assign(_) => false
      case Fail(_) => true
  }

  /** The body of the loop of Source for one field (parse.go:43-69), up to the `Set`. */
  method SourceStep(f: FieldDecl, settings: map<string, Value>) returns (step: Step)
    requires Sourceable(f, settings)
    ensures step == FieldStep(f, settings)
  {
    if f.jsonTag.None? {
      return Skip;
    }
    var s := TagKey(f.jsonTag.value);
    if s !in settings {
      return Skip;
    }
    var sv := settings[s];
    if sv.Slice? {
      var av := ToSpecificArray(sv.elem, sv.items, f.typ);
      if av.Err? {
        return Fail(av.error);
      }
      return Assign(av.value);
    }
    if !AssignableTo(TypeOf(sv), f.typ) {
      return Fail(Unassignable(f.name, f.typ, TypeOf(sv)));
    }
    return Assign(sv);
  }

  /** The loop of Source on the struct a pointer designates (parse.go:41-71), updating it in place. */
  method SourceRecord(rec: Record, settings: map<string, Value>) returns (err: Option<Error>)
    requires rec.Valid() && AllSourceable(rec.st, settings)
    modifies rec
    ensures rec.Valid() && (rec.fields, err) == SourceFrom(rec.st, old(rec.fields), settings, 0)
  {
    var t := rec.st;
    for j := 0 to |t.fields|
      invariant rec.Valid()
      invariant SourceFrom(t, rec.fields, settings, j) == SourceFrom(t, old(rec.fields), settings, 0)
    {
      var step := SourceStep(t.fields[j], settings);
      match step
      case Skip =>
      case Assign(x) => rec.fields := rec.fields[j := x];
      case Fail(e) => return Some(e);
    }
    return None;
  }

  /**
   * Source: fields in declaration order; an untagged field or one whose key
   * is absent is skipped, a slice setting is converted element-wise, another
   * setting is stored when its type is assignable to the field's. The first
   * error returns at once, leaving the fields before it overwritten.
   * A target that is not a struct after at most one dereference of a pointer
   * is refused; a struct passed by value runs the same loop, which can then
   * only skip fields or fail.
   */
  method Source(target: Target, settings: map<string, Value>) returns (err: Option<Error>)
    requires target.Other? ==> !target.v.Struct? && !(target.v.Ptr? && target.v.elem.TStruct?)
    requires target.StructPtr? ==> target.rec.Valid() && AllSourceable(target.rec.st, settings)
    requires target.StructVal? ==>
      |target.fields| == |target.st.fields| && AllSourceable(target.st, settings)
      && NoSetBeforeFailure(target.st, settings, 0)
    modifies if target.StructPtr? then {target.rec} else {}
    ensures target.NilPtr? || target.Other? ==> err == Some(NotAStruct)
    ensures target.StructPtr? ==>
      target.rec.Valid() && (target.rec.fields, err) == SourceFrom(target.rec.st, old(target.rec.fields), settings, 0)
    ensures target.StructVal? ==> err == SourceFrom(target.st, target.fields, settings, 0).1
  {
    if target.NilPtr? || target.Other? {
      return Some(NotAStruct);
    }
    if target.StructVal? {
      var t := target.st;
      for j := 0 to |t.fields|
        invariant NoSetBeforeFailure(t, settings, j)
        invariant SourceFrom(t, target.fields, settings, j) == SourceFrom(t, target.fields, settings, 0)
      {
        var step := SourceStep(t.fields[j], settings);
        match step
        case Skip =>
        case Assign(_) => assert false;
        case Fail(e) => return Some(e);
      }
      return None;
    }
    err := SourceRecord(target.rec, settings);
  }

  /**
   * A struct passed by value leaves `Source` with its fields as they were:
   * where it does not panic, the steps it runs change nothing.
   */
  lemma {:induction false} ValueSourcingChangesNothing(st: StructType, fs: seq<Value>, settings: map<string, Value>, j: nat)
    requires |fs| == |st.fields| && j <= |fs| && AllSourceable(st, settings)
    requires NoSetBeforeFailure(st, settings, j)
    ensures SourceFrom(st, fs, settings, j).0 == fs
    decreases |fs| - j
  {
    if j < |fs| && FieldStep(st.fields[j], settings).Skip? {
      ValueSourcingChangesNothing(st, fs, settings, j + 1);
    }
  }

  /**
   * The struct guard of parse.go:37 lets a struct passed by value through; a
   * bool field tagged "enabled" and the settings {"enabled": true} then reach
   * the `Set` of parse.go:68 on an unaddressable value, which panics.
   */
  lemma StructValueReachesSet()
    ensures var st := StructType("Config", [FieldDecl("Enabled", Some("enabled"), TBool)]);
      AllSourceable(st, map["enabled" := Bool(true)])
      && FieldStep(st.fields[0], map["enabled" := Bool(true)]) == Assign(Bool(true))
      && !NoSetBeforeFailure(st, map["enabled" := Bool(true)], 0)
  {
    TagKeyWithoutComma("enabled");
  }

  /**
   * The guard the `Set` calls need: only a non-nil pointer to a struct is
   * sourced; everything else, a struct passed by value included, is refused
   * before any field is read.
   */
  function IntendedGuard(target: Target): Option<Error>
  {
    match target
    case StructPtr(_) => None
    case _ => Some(NotAStruct)
  }

  /**
   * Source with the corrected guard: only a pointer to a struct is sourced,
   * so no input reaches `Set` on an unaddressable value and no struct passed
   * by value has to be excluded. Every other target, a struct by value
   * included, is refused before any field is read; a struct pointer is
   * sourced exactly as `Source` does.
   */
  method IntendedSource(target: Target, settings: map<string, Value>) returns (err: Option<Error>)
    requires target.StructPtr? ==> target.rec.Valid() && AllSourceable(target.rec.st, settings)
    modifies if target.StructPtr? then {target.rec} else {}
    ensures !target.StructPtr? ==> err == Some(NotAStruct)
    ensures target.StructPtr? ==>
      target.rec.Valid() && (target.rec.fields, err) == SourceFrom(target.rec.st, old(target.rec.fields), settings, 0)
  {
    err := IntendedGuard(target);
    if err.Some? {
      return;
    }
    err := SourceRecord(target.rec, settings);
  }

  /**
   * What the correction changes: a struct passed by value whose fields are
   * all skipped is sourced without error as written, and refused by the
   * corrected guard.
   */
  lemma SkippedValueNowRefused()
    ensures var st := StructType("Config", [FieldDecl("Enabled", None, TBool)]);
      var target := StructVal(st, [Bool(false)]);
      AllSourceable(st, map[]) && NoSetBeforeFailure(st, map[], 0)
      && SourceFrom(st, [Bool(false)], map[], 0).1 == None
      && IntendedGuard(target) == Some(NotAStruct)
  {
    var st := StructType("Config", [FieldDecl("Enabled", None, TBool)]);
    assert FieldStep(st.fields[0], map[]) == Skip;
    assert NoSetBeforeFailure(st, map[], 1);
    assert SourceFrom(st, [Bool(false)], map[], 1) == ([Bool(false)], None);
  }

  /**
   * The rules for one field: untagged or absent fields are skipped; a slice
   * setting becomes a slice of the field's element type holding the unwrapped
   * elements, unless one is not assignable; any other setting is stored when
   * its type is assignable to the field's and refused otherwise, the error
   * naming the field, the expected type and the found type.
   */
  lemma FieldStepRules(f: FieldDecl, settings: map<string, Value>)
    requires Sourceable(f, settings)
    ensures f.jsonTag.None? || TagKey(f.jsonTag.value) !in settings ==> FieldStep(f, settings) == Skip
    ensures f.jsonTag.Some? && TagKey(f.jsonTag.value) in settings ==>
      var sv := settings[TagKey(f.jsonTag.value)];
      (!sv.Slice? && AssignableTo(TypeOf(sv), f.typ) ==> FieldStep(f, settings) == Assign(sv))
      && (!sv.Slice? && !AssignableTo(TypeOf(sv), f.typ)
          ==> FieldStep(f, settings) == Fail(Unassignable(f.name, f.typ, TypeOf(sv))))
      && (sv.Slice? && SpecificArray(sv.elem, sv.items, Elem(f.typ)).Ok?
          ==> FieldStep(f, settings) == Assign(Slice(Elem(f.typ), SpecificArray(sv.elem, sv.items, Elem(f.typ)).value)))
      && (sv.Slice? && SpecificArray(sv.elem, sv.items, Elem(f.typ)).Err?
          ==> FieldStep(f, settings) == Fail(SpecificArray(sv.elem, sv.items, Elem(f.typ)).error))
  {
  }

  /**
   * The outcome of the steps from field `j` on: with `i` the first field at or
   * after `j` whose step fails (or the number of fields), the fields in
   * `[j, i)` that have a setting hold it, every other field keeps its value,
   * and the error is that of field `i`.
   */
  lemma {:induction false} SourceFromOutcome(st: StructType, fs: seq<Value>, settings: map<string, Value>, j: nat)
      returns (i: nat)
    requires |fs| == |st.fields| && j <= |fs| && AllSourceable(st, settings)
    ensures j <= i <= |fs|
    ensures forall n :: j <= n < i ==> !FieldStep(st.fields[n], settings).Fail?
    ensures i < |fs| ==> FieldStep(st.fields[i], settings).Fail?
    ensures SourceFrom(st, fs, settings, j).1
         == if i < |fs| then Some(FieldStep(st.fields[i], settings).error) else None
    ensures |SourceFrom(st, fs, settings, j).0| == |fs|
    ensures forall n :: 0 <= n < |fs| ==>
      SourceFrom(st, fs, settings, j).0[n]
        == if j <= n < i && FieldStep(st.fields[n], settings).Assign?
           then FieldStep(st.fields[n], settings).value else fs[n]
    decreases |fs| - j
  {
    if j == |fs| {
      i := j;
    } else {
      match FieldStep(st.fields[j], settings)
      case Skip =>
        i := SourceFromOutcome(st, fs, settings, j + 1);
      case Assign(x) =>
        i := SourceFromOutcome(st, fs[j := x], settings, j + 1);
      case Fail(_) =>
        i := j;
    }
  }

  /**
   * What Source does to a struct: fields are handled in declaration order and
   * the first error returns at once. With `i` the failing field (or the number
   * of fields when none fails), the fields before `i` that have a setting are
   * overwritten with it and all other fields keep their prior values.
   */
  lemma SourceOutcome(st: StructType, fs: seq<Value>, settings: map<string, Value>) returns (i: nat)
    requires |fs| == |st.fields| && AllSourceable(st, settings)
    ensures i <= |fs|
    ensures forall n :: 0 <= n < i ==> !FieldStep(st.fields[n], settings).Fail?
    ensures i < |fs| ==> FieldStep(st.fields[i], settings).Fail?
    ensures SourceFrom(st, fs, settings, 0).1
         == if i < |fs| then Some(FieldStep(st.fields[i], settings).error) else None
    ensures |SourceFrom(st, fs, settings, 0).0| == |fs|
    ensures forall n :: 0 <= n < |fs| ==>
      SourceFrom(st, fs, settings, 0).0[n]
        == if n < i && FieldStep(st.fields[n], settings).Assign?
           then FieldStep(st.fields[n], settings).value else fs[n]
  {
    i := SourceFromOutcome(st, fs, settings, 0);
  }

  /** A field without a json tag, or whose key the settings lack, keeps its prior value. */
  lemma SkippedFieldKept(st: StructType, fs: seq<Value>, settings: map<string, Value>, n: nat)
    requires |fs| == |st.fields| && AllSourceable(st, settings) && n < |fs|
    requires st.fields[n].jsonTag.None? || TagKey(st.fields[n].jsonTag.value) !in settings
    ensures |SourceFrom(st, fs, settings, 0).0| == |fs| && SourceFrom(st, fs, settings, 0).0[n] == fs[n]
  {
    var i := SourceOutcome(st, fs, settings);
  }

  /** Sourcing succeeds exactly when no field's step fails. */
  lemma SourceSucceedsIff(st: StructType, fs: seq<Value>, settings: map<string, Value>)
    requires |fs| == |st.fields| && AllSourceable(st, settings)
    ensures SourceFrom(st, fs, settings, 0).1.None?
        <==> forall n :: 0 <= n < |fs| ==> !FieldStep(st.fields[n], settings).Fail?
  {
    var i := SourceOutcome(st, fs, settings);
  }

  /** An unwrapped element fits its own static type. */
  lemma UnwrappedFits(se: Type, item: Value)
    requires Fits(item, se) && (se == TAny ==> !item.Nil?)
    ensures Fits(Unwrapped(se, item).1, Unwrapped(se, item).0)
  {
  }

  /** A value a step stores fits the field's type, when the settings are well typed. */
  lemma StepKeepsType(f: FieldDecl, settings: map<string, Value>)
    requires Sourceable(f, settings) && WellTyped(Map(TAny, settings))
    ensures FieldStep(f, settings).Assign? ==> Fits(FieldStep(f, settings).value, f.typ)
  {
    if f.jsonTag.Some? && TagKey(f.jsonTag.value) in settings {
      var sv := settings[TagKey(f.jsonTag.value)];
      assert Fits(sv, TAny) && WellTyped(sv);
      if sv.Slice? && FieldStep(f, settings).Assign? {
        var items := SpecificArray(sv.elem, sv.items, Elem(f.typ)).value;
        forall i | 0 <= i < |items|
          ensures Fits(items[i], Elem(f.typ))
        {
          assert Fits(sv.items[i], sv.elem);
          UnwrappedFits(sv.elem, sv.items[i]);
          FitsAssignable(items[i], Unwrapped(sv.elem, sv.items[i]).0, Elem(f.typ));
        }
      }
    }
  }

  /** Sourcing a well-typed struct from a well-typed settings object leaves it well typed. */
  lemma SourceKeepsTypes(st: StructType, fs: seq<Value>, settings: map<string, Value>)
    requires |fs| == |st.fields| && AllSourceable(st, settings)
    requires WellTyped(Struct(st, fs)) && WellTyped(Map(TAny, settings))
    ensures WellTyped(Struct(st, SourceFrom(st, fs, settings, 0).0))
  {
    var i := SourceOutcome(st, fs, settings);
    var out := SourceFrom(st, fs, settings, 0).0;
    forall n | 0 <= n < |fs|
      ensures Fits(out[n], st.fields[n].typ)
    {
      StepKeepsType(st.fields[n], settings);
    }
  }

  /** A bool field tagged "enabled" is set from {"enabled": true}. */
  lemma EnabledFromSettings()
    ensures var st := StructType("Config", [FieldDecl("Enabled", Some("enabled"), TBool)]);
      SourceFrom(st, [Bool(false)], map["enabled" := Bool(true)], 0) == ([Bool(true)], None)
  {
    var st := StructType("Config", [FieldDecl("Enabled", Some("enabled"), TBool)]);
    TagKeyWithoutComma("enabled");
    assert FieldStep(st.fields[0], map["enabled" := Bool(true)]) == Assign(Bool(true));
    assert [Bool(false)][0 := Bool(true)] == [Bool(true)];
    assert SourceFrom(st, [Bool(true)], map["enabled" := Bool(true)], 1) == ([Bool(true)], None);
    assert SourceFrom(st, [Bool(false)], map["enabled" := Bool(true)], 0)
        == SourceFrom(st, [Bool(true)], map["enabled" := Bool(true)], 1);
  }

  /** Only the tag text before the comma is the key: a field tagged "port,omitempty" reads "port". */
  lemma TagOptionsIgnored()
    ensures TagKey("port,omitempty") == "port"
  {
    assert "port,omitempty"[4] == ',';
  }

  /** A slice-of-int field sourced from a string is refused with the field, the expected and the found type. */
  lemma StringIntoIntSliceRefused()
    ensures var f := FieldDecl("Ports", Some("ports"), TSlice(TInt));
      FieldStep(f, map["ports" := Str("not a list")]) == Fail(Unassignable("Ports", TSlice(TInt), TString))
  {
    TagKeyWithoutComma("ports");
  }

  /** JSON numbers are float64: a JSON list of numbers cannot be sourced into a slice-of-int field. */
  lemma JsonNumbersIntoIntSliceRefused()
    ensures var f := FieldDecl("Ports", Some("ports"), TSlice(TInt));
      FieldStep(f, map["ports" := Slice(TAny, [Float(1)])]) == Fail(UnassignableElem(TInt, TFloat64))
  {
    TagKeyWithoutComma("ports");
  }

  /**
   * A slice setting for a map field is converted against the map's value
   * type: a JSON list of numbers for a `map[string]string` field is refused
   * with the first element's type, without a panic.
   */
  lemma SliceIntoMapFieldRefused()
    ensures var f := FieldDecl("M", Some("m"), TMap(TString));
      var settings := map["m" := Slice(TAny, [Float(1)])];
      Sourceable(f, settings) && FieldStep(f, settings) == Fail(UnassignableElem(TString, TFloat64))
  {
    TagKeyWithoutComma("m");
  }

  /**
   * Pointer elements are dereferenced once, so a slice of pointers cannot be
   * sourced into a field of that same slice type.
   */
  lemma PointerElementsDereferenced()
    ensures var f := FieldDecl("Names", Some("names"), TSlice(TPtr(TString)));
      FieldStep(f, map["names" := Slice(TPtr(TString), [Ptr(TString, Str("a"))])])
        == Fail(UnassignableElem(TPtr(TString), TString))
  {
    TagKeyWithoutComma("names");
  }
}
