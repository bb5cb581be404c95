/**
 * Go values as the `inspect` package sees them through reflection.
 *
 * A `Type` is the static type of a slot (a struct field, a slice element,
 * a map value, a pointee). A `Value` is the dynamic content of a slot.
 * A slot of static type `TAny` (Go's `interface{}`) holds its dynamic value
 * directly, or `Nil` when the interface is nil; reading such a slot and
 * unwrapping it once (reflect's `Elem`) yields exactly that stored value, and
 * storing a value into such a slot re-boxes it implicitly.
 */
module Values {
  import opened Wrappers

  datatype Type =
    | TString
    | TBool
    | TFloat64
    | TInt
    | TAny                    // interface{}
    | TSlice(elem: Type)      // []elem
    | TMap(val: Type)         // map[string]val
    | TStruct(st: StructType) // a named struct type
    | TPtr(elem: Type)        // *elem

  /** A struct type: its name and its fields in declaration order. */
  datatype StructType = StructType(name: string, fields: seq<FieldDecl>)

  /** A struct field: its Go name, the value of its `json` tag if it has one, and its type. */
  datatype FieldDecl = FieldDecl(name: string, jsonTag: Option<string>, typ: Type)

  datatype Value =
    | Nil                                       // nil interface{}, the zero reflect.Value
    | Str(s: string)
    | Bool(b: bool)
    | Float(bits: int)                          // a float64, opaque: only compared
    | Int(i: int)
    | Slice(elem: Type, items: seq<Value>)
    | Map(val: Type, entries: map<string, Value>)
    | Struct(st: StructType, fields: seq<Value>)
    | Ptr(elem: Type, target: Value)            // a non-nil pointer to a slot of type elem

  /** The errors of the engine and of its callers in the defaults transformer. */
  datatype Error =
    | NotAStruct                                          // "can only source structs"
    | Unassignable(field: string, expected: Type, found: Type)
    | UnassignableElem(expected: Type, found: Type)
    | HandlerError(message: string)                       // raised by a caller's string handler
    | ParseError(message: string)
    | ArchaiusNotObject                                   // a profile's "archaius" entry is not an object
    | ProfileFailed(profile: string, cause: Error)
    | ArchaiusFailed(cause: Error)

  /** The dynamic type of a non-nil value (reflect's `Type()`). */
  function TypeOf(v: Value): Type
    requires !v.Nil?
  {
    match v
    case Str(_) => TString
    case Bool(_) => TBool
    case Float(_) => TFloat64
    case Int(_) => TInt
    case Slice(e, _) => TSlice(e)
    case Map(t, _) => TMap(t)
    case Struct(st, _) => TStruct(st)
    case Ptr(e, _) => TPtr(e)
  }

  /**
   * Go's assignability for the types modelled here: identical types, or any
   * type into the empty interface.
   */
  predicate AssignableTo(from: Type, to: Type)
  {
    from == to || to == TAny
  }

  /** The value may be stored in a slot of static type `t`. */
  ghost predicate Fits(v: Value, t: Type)
    decreases v, 1
  {
    if t == TAny then v.Nil? || WellTyped(v)
    else !v.Nil? && TypeOf(v) == t && WellTyped(v)
  }

  /** Every slot inside `v` holds a value of its static type. */
  ghost predicate WellTyped(v: Value)
    decreases v, 0
  {
    match v
    case Nil => false
    case Slice(e, items) => forall i :: 0 <= i < |items| ==> Fits(items[i], e)
    case Map(t, m) => forall k :: k in m ==> Fits(m[k], t)
    case Struct(st, fs) =>
      |fs| == |st.fields| && forall i :: 0 <= i < |fs| ==> Fits(fs[i], st.fields[i].typ)
    case Ptr(e, x) => Fits(x, e)
    case _ => true
  }

  /** reflect's `Type.Elem` is defined (it panics on every other kind the model has). */
  predicate HasElem(t: Type)
  {
    t.TSlice? || t.TMap? || t.TPtr?
  }

  /** reflect's `Type.Elem`: the element type of a slice or a pointer, the value type of a map. */
  function Elem(t: Type): Type
    requires HasElem(t)
  {
    match t
    case TSlice(e) => e
    case TMap(v) => v
    case TPtr(e) => e
  }

  /** The Go type assertion `v.(map[string]interface{})`: a JSON object. */
  predicate IsObject(v: Value)
  {
    v.Map? && v.val == TAny
  }

  /** A value that fits a slot of type `from` also fits a slot of any type `from` is assignable to. */
  lemma FitsAssignable(v: Value, from: Type, to: Type)
    requires Fits(v, from) && AssignableTo(from, to)
    ensures Fits(v, to)
  {
  }
}
