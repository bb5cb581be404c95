# Reflection helpers and the Archaius defaults of the Spinnaker operator

This project is a Dafny model of two parts of the Spinnaker operator.

- **The reflection helpers of `pkg/inspect/parse.go`**, which work on the operator's free-form configuration (JSON objects decoded into `map[string]interface{}`):
  - `Merge` deep-merges two objects.
  - `Source` overwrites the json-tagged fields of a struct from a settings object, converting slice settings with `toSpecificArray`.
  - `InspectStrings` rebuilds a value with every string passed through a handler. The operator uses it to resolve secret references.
  - `ConvertJSON` decodes a byte buffer into an object.
- **The defaults transformer of `pkg/deploy/spindeploy/transformer/defaults.go`.** For every Java service it makes sure the service has a profile, and that the profile's `archaius` object carries `enabled`, set to `false` unless the user gave a value.

## How Go's values are modelled

Go's dynamic values are the datatype `Values.Value`. Its cases are nil, string, bool, float64, int, slice, `map[string]T`, struct and non-nil pointer. Each composite case records its static element or field types (`Values.Type`), so reflect's type checks can be stated:

- `AssignableTo`: a type is assignable to itself and to `interface{}`.
- `TypeOf`: the concrete type of a stored value.
- `Fits` and `WellTyped`: a value is consistent with a type.

An `interface{}` slot stores the concrete value, or `Nil` for a nil interface, so Go's implicit boxing needs no constructor. `Float` keeps a float64 as an opaque bit pattern. Nothing is computed on floats.

## How each part is modelled

**Looping code is modelled imperatively.** Each Go loop is a Dafny method with loop invariants, proved equal to a specification function:

| method | specification function |
|---|---|
| `Merge`, `MergeKey`, `Combine` | `Merged`, `MergedAt` |
| `ToSpecificArray` | `SpecificArray` |
| `Source` | `SourceFrom` |
| `InspectStrings` and its per-kind methods | `Transform` |
| `SetArchaiusDefaults` | `DefaultAll` |

Go's random map iteration order is modelled by picking any remaining key. The proofs therefore hold for every order.

**The struct that `Source` writes is a class.** `FieldSourcer.Record` is the struct behind the caller's pointer, and `Source` updates its `fields` in place.

**The operator's configuration is a class.** `ArchaiusDefaults.SpinnakerConfig` holds the profiles table, and `None` stands for a nil table. The Go code changes a profile through the alias that `assertProfile` returns. The model writes the updated profile back into the table, which has the same effect.

**Reflect panics become preconditions.** A panic is a call outside the code's domain, so each method requires inputs for which reflect does not panic:

| precondition | excludes |
|---|---|
| `Traversable` | a nil interface inside a pointer, struct or slice reached by `inspectStringReflect` |
| `Sourceable` | a nil setting (`sv.Type()` panics, parse.go:65); a slice setting for a field whose type has no element type (`Type.Elem` panics, parse.go:123); a slice setting for a map or pointer field whose conversion succeeds (the `Set` at parse.go:63 panics). When such a conversion fails, the error is returned and is modelled |
| `ElementsUnwrap` | a nil interface element in a slice setting |
| `Mergeable` | two slices under one key where b's element type is not assignable to a's (`reflect.Append`, parse.go:98) |
| `NoSetBeforeFailure` | a struct passed by value to `Source` whose first field with a setting would be set, not refused |

## Model

| member | source | states |
|---|---|---|
| Values.TypeOf | pkg/inspect/parse.go:65-66 | reflect's `Type` of a non-nil value: its concrete type, carrying the element or field types it records (also used at parse.go:130-131) |
| Values.HasElem | pkg/inspect/parse.go:123 | the kinds on which reflect's `Type.Elem` is defined: slice, map and pointer |
| Values.Elem | pkg/inspect/parse.go:123 | reflect's `Type.Elem`: the element type of a slice or pointer, the value type of a map |
| Values.AssignableTo | pkg/inspect/parse.go:65 | reflect's `AssignableTo`, restricted to the types of the model: a type is assignable to itself and to `interface{}` (also used at parse.go:130) |
| Values.IsObject | pkg/inspect/parse.go:79-81 | the type assertion `v.(map[string]interface{})`, which holds only for a map whose values are `interface{}` (also used at defaults.go:64-65) |
| Values.FitsAssignable | pkg/inspect/parse.go:65-68 | a value that fits a type assignable to a field's type also fits the field's type, so the assignment `Source` makes keeps the field well typed |
| TreeMerger.Combine | pkg/inspect/parse.go:93-100 | the combined slice has a's slice type and holds a's elements followed by b's, in order |
| TreeMerger.MergedAt | pkg/inspect/parse.go:77-117 | specification of what the result holds under one key, following the Go branches in order; its rules are stated by `MergedEntries` |
| TreeMerger.Merged | pkg/inspect/parse.go:75-119 | specification of the merged object: every key of a or b for which `MergedAt` gives an entry; its key set is stated by `MergedKeys` |
| TreeMerger.MergeKey | pkg/inspect/parse.go:77-111 | the entry that one key of a contributes to the result is the one the per-key rules (`MergedAt`) prescribe, or none |
| TreeMerger.Merge | pkg/inspect/parse.go:75-119 | the result is exactly `Merged(a, b)`, for every iteration order of both maps |
| TreeMerger.MergedKeys | pkg/inspect/parse.go:77-117 | the merged keys are b's keys plus those keys of a whose value is not a slice |
| TreeMerger.MergedEntries | pkg/inspect/parse.go:79-116 | two objects merge recursively; two slices concatenate, a's elements first; otherwise b's value wins; a key only in a keeps a's value unless that value is a slice, in which case the key is dropped |
| TreeMerger.KeepsEveryKeyIff | pkg/inspect/parse.go:74-117 | the merged key set is the union of both key sets if and only if every slice-valued key of a is also a key of b |
| TreeMerger.MergeKeepsTypes | pkg/inspect/parse.go:75-119 | merging two well-typed objects gives a well-typed object |
| TreeMerger.ConcatenationFits | pkg/inspect/parse.go:93-100 | appending the elements of a slice whose element type is assignable to a's element type keeps a's slice well typed |
| TreeMerger.NestedObjectsMerge | pkg/inspect/parse.go:79-82 | `{"a":{"x":1}}` merged with `{"a":{"y":2}}` is `{"a":{"x":1,"y":2}}` |
| TreeMerger.SlicesConcatenate | pkg/inspect/parse.go:89-100 | `{"x":[1,2]}` merged with `{"x":[3]}` is `{"x":[1,2,3]}` |
| TreeMerger.OrphanSliceDropped | pkg/inspect/parse.go:89-104 | `{"x":[1]}` merged with `{}` is `{}`: a slice that b does not mention is lost |
| TreeMerger.IntendedKeepsEveryKey | pkg/inspect/parse.go:74 | the corrected merge keeps every key of either map |
| TreeMerger.AgreesWithoutOrphanSlices | pkg/inspect/parse.go:77-117 | when every slice-valued key of a is also a key of b, the merge as written and the corrected merge give the same object |
| FieldSourcer.TagKey | pkg/inspect/parse.go:48-51 | the settings key is a prefix of the json tag with no comma, ending at the tag's first comma or at its end |
| FieldSourcer.TagKeyWithoutComma | pkg/inspect/parse.go:48-51 | a json tag without options is its own settings key |
| FieldSourcer.SpecificArray | pkg/inspect/parse.go:121-136 | conversion succeeds if and only if every element, unwrapped from its interface or pointer, has a type assignable to the target element type; the result holds the unwrapped elements in order; otherwise the error names the target element type and the type of the first element that is not assignable |
| FieldSourcer.ToSpecificArray | pkg/inspect/parse.go:122-136 | for a target type of a slice, map or pointer (its `Elem`), the method succeeds exactly when `SpecificArray` does; it returns a slice of the target element type holding those elements, or the same error |
| FieldSourcer.SourceRecord | pkg/inspect/parse.go:41-71 | the loop over the fields of the struct behind a pointer: the new fields and the error are those of `SourceFrom` on the old fields |
| FieldSourcer.Source | pkg/inspect/parse.go:32-72 | a nil pointer, a pointer to anything but a struct (a pointer to an `interface{}` holding a struct included) and any other non-struct value are refused with "can only source structs"; for a struct pointer, the new fields and the error are those of `SourceFrom` on the struct's old fields; for a struct passed by value that reaches no `Set`, the error is that of `SourceFrom` |
| FieldSourcer.SourceStep | pkg/inspect/parse.go:43-69 | one iteration of the loop decides exactly the step `FieldStep` gives for the field |
| FieldSourcer.FieldStep | pkg/inspect/parse.go:43-69 | specification of one iteration: skip, store a value, or fail with an error; its rules are stated by `FieldStepRules` |
| FieldSourcer.SourceFrom | pkg/inspect/parse.go:42-71 | specification of the loop from field `j` on: the fields after the steps and the error that stopped them; its outcome is stated by `SourceFromOutcome` |
| FieldSourcer.Unwrapped | pkg/inspect/parse.go:125-129 | an element of an `interface{}` slice is checked at its concrete type; a pointer element of a typed slice is dereferenced once; any other element is checked at the slice's element type |
| FieldSourcer.NoSetBeforeFailure | pkg/inspect/parse.go:37-69 | sourcing a struct passed by value does not reach `Set`: up to the first failing field, every field is skipped |
| FieldSourcer.ValueSourcingChangesNothing | pkg/inspect/parse.go:42-71 | where a struct passed by value does not panic, the steps run on it leave every field as it was |
| FieldSourcer.StructValueReachesSet | pkg/inspect/parse.go:31-68 | a struct passed by value with a bool field tagged `enabled`, and the settings `{"enabled": true}`, pass the struct guard and reach `Set`, which panics |
| FieldSourcer.IntendedSource | pkg/inspect/parse.go:32-72 | `Source` with the corrected guard, for every input and with no `NoSetBeforeFailure` requirement: every target but a struct pointer (a struct passed by value included) is refused with "can only source structs"; a struct pointer is sourced exactly as `Source` does |
| FieldSourcer.SkippedValueNowRefused | pkg/inspect/parse.go:34-46 | what the correction changes: a struct passed by value whose only field is untagged is sourced without error as written, and the corrected guard refuses it |
| FieldSourcer.FieldStepRules | pkg/inspect/parse.go:44-69 | a field without a json tag, or whose key is missing from the settings, is skipped; a non-slice setting is stored if its type is assignable to the field's type and is otherwise refused with the field name, the field type and the setting's type; a slice setting is stored as its converted slice, or refused with the conversion's error |
| FieldSourcer.SourceFromOutcome | pkg/inspect/parse.go:42-70 | from any field on: the run stops at the first field whose step fails; the fields before it that have a setting hold the stored value; every other field keeps its value; the error is that of the failing field, or none |
| FieldSourcer.SourceOutcome | pkg/inspect/parse.go:42-71 | fields are handled in declaration order and the first error returns at once; the fields already overwritten stay overwritten, and the rest keep their prior values |
| FieldSourcer.SkippedFieldKept | pkg/inspect/parse.go:44-55 | a field without a json tag, or whose key is missing from the settings, keeps its prior value |
| FieldSourcer.SourceSucceedsIff | pkg/inspect/parse.go:42-71 | `Source` reports no error if and only if no field's step fails |
| FieldSourcer.UnwrappedFits | pkg/inspect/parse.go:125-129 | an element unwrapped from its interface or pointer fits the type it is checked against |
| FieldSourcer.StepKeepsType | pkg/inspect/parse.go:56-69 | when the settings are well typed, every value a step stores fits the field's type |
| FieldSourcer.SourceKeepsTypes | pkg/inspect/parse.go:42-71 | sourcing a well-typed struct from well-typed settings leaves the struct well typed |
| FieldSourcer.EnabledFromSettings | pkg/inspect/parse.go:52-68 | a bool field tagged `enabled` is set to true from `{"enabled": true}` |
| FieldSourcer.TagOptionsIgnored | pkg/inspect/parse.go:48-51 | the tag `port,omitempty` reads the key `port` |
| FieldSourcer.StringIntoIntSliceRefused | pkg/inspect/parse.go:64-67 | a string setting for a `[]int` field is refused with the field name, `[]int` and `string` |
| FieldSourcer.JsonNumbersIntoIntSliceRefused | pkg/inspect/parse.go:127-131 | a decoded JSON list of numbers cannot be sourced into a `[]int` field, because its elements are float64 |
| FieldSourcer.SliceIntoMapFieldRefused | pkg/inspect/parse.go:59-131 | a JSON list of numbers for a `map[string]string` field is converted against the map's value type and refused with `string` and `float64`, without a panic |
| FieldSourcer.PointerElementsDereferenced | pkg/inspect/parse.go:127-131 | pointer elements are dereferenced before the type check, so a `[]*string` setting cannot be stored in a `[]*string` field |
| StringTransformer.Transform | pkg/inspect/parse.go:145-206 | a successful rewrite gives nil exactly for nil, and otherwise a value of the same dynamic type |
| StringTransformer.Errors | pkg/inspect/parse.go:149-198 | the errors a traversal may return, for every map order: for a struct or slice, the errors of its first failing element; for a map, the errors of any of its entries; for a string, the handler's error |
| StringTransformer.InspectReflect | pkg/inspect/parse.go:145-206 | the traversal succeeds exactly when `Transform` does and then returns its value; on failure it returns its input unchanged with an error raised by the handler on one of the input's strings |
| StringTransformer.InspectStruct | pkg/inspect/parse.go:155-171 | the struct case: a struct of the same type whose fields in declaration order are the rewritten fields, or the input and the first field's error |
| StringTransformer.InspectSlice | pkg/inspect/parse.go:178-190 | the non-empty slice case: a slice of the same type whose elements in order are the rewritten elements, or the input and the first element's error |
| StringTransformer.InspectMap | pkg/inspect/parse.go:191-201 | the map case: a map of the same type holding the rewritten entries, where an entry whose rewrite is nil is deleted; or the input and an error raised by one entry |
| StringTransformer.InspectStrings | pkg/inspect/parse.go:140-143 | the entry point: the same outcome as the traversal, for any non-nil input |
| StringTransformer.FirstFailure | pkg/inspect/parse.go:157-162 | when some element fails to rewrite there is a first one, with every element before it rewritten |
| StringTransformer.TransformIsRewrite | pkg/inspect/parse.go:145-206 | `Transform(v)` returns `w` if and only if `w` is `v` with every string replaced by the handler's result, with the same shape and types, and with nil-valued map entries removed |
| StringTransformer.ElementsAreRewrites | pkg/inspect/parse.go:157-190 | the field or element sequence rewrites to `ws` if and only if each element rewrites to its counterpart |
| StringTransformer.EntriesAreRewrites | pkg/inspect/parse.go:191-201 | the map case of the rewrite characterisation |
| StringTransformer.TransformFailsIff | pkg/inspect/parse.go:145-206 | the rewrite fails if and only if the value contains a string on which the handler fails |
| StringTransformer.ErrorsFromLeaves | pkg/inspect/parse.go:145-206 | there is no possible error exactly when the rewrite succeeds, and every possible error is the handler's error for a string in the value |
| StringTransformer.IdentityRebuildsInput | pkg/inspect/parse.go:145-206 | with the identity handler, a value with no nil map entries is rebuilt unchanged |
| StringTransformer.NilEntryVanishes | pkg/inspect/parse.go:195-199 | even with the identity handler, `{"a": nil, "b": "x"}` becomes `{"b": "x"}` |
| StringTransformer.TransformKeepsType | pkg/inspect/parse.go:145-206 | a value that fits a type still fits it after its strings are rewritten |
| SerializationBridge.ConvertJSON | pkg/inspect/parse.go:19-27 | an empty buffer gives an empty object and no error without calling the decoder; any other buffer gives the decoder's result |
| ArchaiusDefaults.DefaultedProfile | pkg/deploy/spindeploy/transformer/defaults.go:55-78 | the profile fails exactly when `archaius` is present and not an object; on success it has an `archaius` object with `enabled`; an already settled profile is unchanged; only `archaius.enabled` is added, as false, and every other key and value is kept |
| ArchaiusDefaults.AssertedTable | pkg/deploy/spindeploy/transformer/defaults.go:84-96 | afterwards the profile exists; an existing profile, and the table, are unchanged; a missing one is added empty (to an empty table when the table was nil); other profiles are untouched |
| ArchaiusDefaults.DefaultAll | pkg/deploy/spindeploy/transformer/defaults.go:43-53 | with no services the table and the outcome are unchanged; otherwise the table is no longer nil |
| ArchaiusDefaults.SpinnakerConfig.AssertProfile | pkg/deploy/spindeploy/transformer/defaults.go:84-96 | the table becomes `AssertedTable` of the old one, and the returned profile is the stored one |
| ArchaiusDefaults.SpinnakerConfig.SetArchaiusDefaultsForProfile | pkg/deploy/spindeploy/transformer/defaults.go:55-78 | on error the table is unchanged; on success the stored profile is replaced by `DefaultedProfile` of the old one, and nothing else changes |
| ArchaiusDefaults.SpinnakerConfig.SetArchaiusDefaults | pkg/deploy/spindeploy/transformer/defaults.go:43-53 | the new table and the error are those of `DefaultAll` on the old table and the service list |
| ArchaiusDefaults.SpinnakerConfig.TransformConfig | pkg/deploy/spindeploy/transformer/defaults.go:35-41 | it leaves the table as `DefaultAll` does; any error is wrapped as an error of setting Archaius |
| ArchaiusDefaults.OtherProfilesUntouched | pkg/deploy/spindeploy/transformer/defaults.go:43-53 | the profile of a service not in the list is neither added, removed nor changed |
| ArchaiusDefaults.SettledStays | pkg/deploy/spindeploy/transformer/defaults.go:55-78 | a profile that already has `archaius.enabled` stays present and unchanged however many services are defaulted |
| ArchaiusDefaults.SuccessSettlesAll | pkg/deploy/spindeploy/transformer/defaults.go:43-78 | when no error is reported, every listed service has a profile with an `archaius` object holding `enabled` |
| ArchaiusDefaults.FirstErrorStops | pkg/deploy/spindeploy/transformer/defaults.go:45-50 | the first failing service stops the run; the table is what the services before it made of it; that service's own profile and the later ones are unchanged; the error names the failing service |
| ArchaiusDefaults.DefaultAllIdempotent | pkg/deploy/spindeploy/transformer/defaults.go:35-78 | running the transformer on its own output gives the same table and the same error |
| ArchaiusDefaults.MissingProfileCreated | pkg/deploy/spindeploy/transformer/defaults.go:57-63 | a nil table and the service `clouddriver` give `{"clouddriver": {"archaius": {"enabled": false}}}` |
| ArchaiusDefaults.UserValueKept | pkg/deploy/spindeploy/transformer/defaults.go:70-74 | a user's `archaius.enabled: true` is kept |
| ArchaiusDefaults.NonObjectArchaiusFails | pkg/deploy/spindeploy/transformer/defaults.go:64-68 | a string `archaius` fails that profile, leaves the table unchanged, and stops before the next service |

## Where the model follows the code rather than the documented intent

- **`Merge` drops unmatched slices.** The doc comment on `Merge` (parse.go:74) promises that b's keys override a's and that arrays are merged. The code drops every slice-valued key of a that b lacks (parse.go:89-104). The model follows the code; see Findings.
- **`Source` cannot take every struct passed by value.** The doc comment (parse.go:31) allows "a struct or a pointer to a struct". A struct passed by value passes the guard at parse.go:37, but the first field that would be set makes `Set` panic (parse.go:63, 68), because the value is not addressable. `Source` accepts a struct by value exactly when no field is set before the first failing one (`NoSetBeforeFailure`). `IntendedSource` is the corrected operation, which refuses every struct by value; see Findings.
- **`InspectStrings` deletes nil-valued map entries.** An entry whose rewrite is nil is deleted, because `SetMapIndex` with a zero `reflect.Value` deletes the key (parse.go:195-199). So even the identity handler does not return every object unchanged (`NilEntryVanishes`). The model follows the code.
- **`inspectStringReflect` cannot take a nil pointer.** It panics at `reflect.New(v.Elem().Type())` (parse.go:148-152), because the element of a nil pointer is the zero `reflect.Value`. `Value` has no nil pointer, and `Traversable` excludes a nil interface below a pointer, struct or slice.

## Left out

- `Convert` (parse.go:11-17) is left out. It is a JSON round trip through encoding/json, and its meaning is that of the Go decoder and encoder, which are not part of this model.
- `SerializationBridge.ConvertJSON`: the decoder is a parameter. What json.Unmarshal accepts, and what it does to the pre-made map, is not modelled.
- Go arrays (the `reflect.Array` kind) and channels, funcs and other kinds are left out, because decoded configuration never holds them. `inspectStringReflect` returns other kinds unchanged, and `Transform` does the same for bool, float64 and int.
- Nil pointers, nil maps and nil slices are not values of the model.
  - `Source` only reads `settings` (parse.go:52), and a nil map setting would be stored by `Set` like any other value (parse.go:65-68).
  - In the defaults transformer, a nil profile (defaults.go:61) or a nil `archaius` map (defaults.go:75) would panic on assignment; the model's profiles and objects are never nil.
  - `InspectStrings` turns a nil map into an empty, non-nil one (`reflect.MakeMap`, parse.go:192). The model cannot show this, because it has no nil map.
  - A nil slice behaves like an empty one wherever it is read here.
- A reflect panic is a precondition (`Traversable`, `Sourceable`, `ElementsUnwrap`, `Mergeable`, `NoSetBeforeFailure`), not a modelled outcome. For a struct passed by value, `Source` panics only when a step reaches `Set` (parse.go:63, 68); skipping fields and failing do not panic, and the model covers both. A slice setting for a map or pointer field panics only when its conversion succeeds; a failed conversion returns its error (parse.go:59-61), which the model covers.
- StringTransformer.InspectStruct and FieldSourcer.Source: unexported struct fields, on which `reflect.Value.Set` panics (parse.go:63, 68 and the copy in `inspectStringReflect`), are not modelled; every field of `StructType` is settable. Nor is the unaddressable-field error (parse.go:165-168), which cannot be reached, because the fields of a struct built by `reflect.New` are always addressable.
- The zero struct or slice that reflect allocates before filling it is modelled by building the result element by element. On error the input is returned, so the partly filled copy is never observable.
- FieldSourcer.Source: `FieldByName(f.Name)` is modelled as the field's own position. This is exact: the loop enumerates only the struct's own fields (parse.go:42-43), and `FieldByName` finds a field declared at that depth before any promoted field of the same name. An embedded struct is an ordinary field of the model, sourced as a whole at its own position.
- `AssignableTo` covers identical types and `interface{}` only. Named types and non-empty interfaces are not modelled.
- Error texts are not modelled. Errors are the constructors of `Values.Error`.
  - The `fmt.Errorf` wrappers use the `%e` verb, which renders its operand with a formatting error rather than wrapping it. The model's `ProfileFailed` and `ArchaiusFailed` keep the cause regardless.
  - The non-object message of setArchaiusDefaultsForProfile (defaults.go:68) prints the zero map from the failed type assertion instead of the offending value. `ArchaiusNotObject` carries no payload.
- Logging (`a.log.Info`), the Kubernetes client, the context argument, `TransformManifests` (a no-op) and the transformer generator are left out.
- `bom.JavaServices()` is the `services` parameter of `SetArchaiusDefaults` and `TransformConfig`.
- TreeMerger.Merge and FieldSourcer.Source: Go's results share nested maps and slices with their inputs, and the model does not capture this sharing. `Merge` stores a's own value when b lacks the key (parse.go:87, 109) and b's own value otherwise (parse.go:84, 102, 107, 115), so a later write into a nested map of the result also changes `a` or `b`. `Source` is a shallow copy: `Set` stores the setting's own map or slice in the field (parse.go:63, 68), so the struct and `settings` share it. Model values are immutable, so only the contents are stated.
- Aliasing between profiles is not modelled. If two table entries shared one Go map, an update through one name would show under the other; in the model, values are independent.
- Floats are opaque bit patterns. No arithmetic or comparison on them is modelled.

## Findings

| source | as written | input that shows it | evidently intended | confidence | as-written member | corrected member |
|---|---|---|---|---|---|---|
| pkg/inspect/parse.go:89-104 | when a's value for a key is a slice and b does not have the key, nothing is stored, so the key disappears from the result | `Merge({"x": [1]}, {})` returns `{}` | a's slice is kept, as for every other kind of value, so that the result holds the keys of both maps (the doc comment at parse.go:74 says arrays are merged, not dropped) | not executed | TreeMerger.OrphanSliceDropped | TreeMerger.IntendedKeepsEveryKey |
| pkg/inspect/parse.go:31-68 | the guard at parse.go:37 accepts a struct passed by value, as the doc comment at parse.go:31 allows, but `Set` on a field of that unaddressable value panics | `Source(Config{}, {"enabled": true})`, for a struct `Config` with a bool field tagged `enabled`, panics at parse.go:68 | only a pointer to a struct is accepted, and a struct passed by value is refused with an error before any field is read. This goes beyond the doc comment's wording, which allows a struct by value, but such a struct can never be written. It also changes one outcome that does not panic today: a struct by value whose fields are all skipped returns nil as written and "can only source structs" once corrected (`SkippedValueNowRefused`) | not executed | FieldSourcer.StructValueReachesSet | FieldSourcer.IntendedSource |
