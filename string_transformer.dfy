/**
 * `InspectStrings` / `inspectStringReflect` of pkg/inspect/parse.go: rebuild a
 * value with every string leaf passed through a caller's handler.
 *
 * `Transform` is the specification: `Some` of the rebuilt value when no
 * handler call fails, `None` otherwise. `Errors` is the set of errors the
 * traversal may report: for a struct or a slice, those of the first failing
 * element in order; for a map, those of any failing entry, since Go visits
 * map keys in an unspecified order. `InspectReflect` is the traversal itself,
 * with its loops, proved against both.
 */
module StringTransformer {
  import opened Wrappers
  import opened Values

  /** The caller's `stringHandler`. */
  type Handler = string -> Result<string, Error>

  /** The handler that changes nothing. */
  function Identity(s: string): Result<string, Error>
  {
    Ok(s)
  }

  /**
   * The inputs the traversal handles without a reflect panic: no nil value in a
   * pointee, a struct field or a slice element (setting the zero reflect.Value
   * there panics). A nil value in a map entry is allowed: it is deleted.
   */
  ghost predicate Traversable(v: Value)
    decreases v
  {
    match v
    case Ptr(_, x) => !x.Nil? && Traversable(x)
    case Struct(_, fs) => forall i :: 0 <= i < |fs| ==> !fs[i].Nil? && Traversable(fs[i])
    case Slice(_, items) => forall i :: 0 <= i < |items| ==> !items[i].Nil? && Traversable(items[i])
    case Map(_, m) => forall k :: k in m ==> Traversable(m[k])
    case _ => true
  }

  /**
   * The value rebuilt by a successful traversal, or `None` when some handler
   * call fails. A successful result has the dynamic type of the input (the
   * concrete type, never an interface), and only `Nil` rebuilds to `Nil`.
   */
  function Transform(v: Value, h: Handler): (r: Option<Value>)
    ensures r.Some? ==> (r.value.Nil? <==> v.Nil?)
    ensures r.Some? && !v.Nil? ==> TypeOf(r.value) == TypeOf(v)
    decreases v
  {
    match v
    case Str(s) => if h(s).Ok? then Some(Str(h(s).value)) else None
    case Ptr(e, x) =>
      var rx := Transform(x, h);
      if rx.Some? then Some(Ptr(e, rx.value)) else None
    case Struct(st, fs) =>
      if forall i :: 0 <= i < |fs| ==> Transform(fs[i], h).Some?
      then Some(Struct(st, seq(|fs|, i requires 0 <= i < |fs| => Transform(fs[i], h).value)))
      else None
    case Slice(e, items) =>
      if |items| == 0 then Some(v)
      else if forall i :: 0 <= i < |items| ==> Transform(items[i], h).Some?
      then Some(Slice(e, seq(|items|, i requires 0 <= i < |items| => Transform(items[i], h).value)))
      else None
    case Map(t, m) =>
      if forall k :: k in m ==> Transform(m[k], h).Some?
      then Some(Map(t, map k | k in m && Transform(m[k], h).value != Nil :: Transform(m[k], h).value))
      else None
    case _ => Some(v)
  }

  /** The errors a traversal of `v` may return. */
  ghost function Errors(v: Value, h: Handler): set<Error>
    decreases v
  {
    match v
    case Str(s) => if h(s).Err? then {h(s).error} else {}
    case Ptr(_, x) => Errors(x, h)
    case Struct(_, fs) =>
      set i, e | 0 <= i < |fs| && (forall j :: 0 <= j < i ==> Transform(fs[j], h).Some?)
                 && e in Errors(fs[i], h) :: e
    case Slice(_, items) =>
      set i, e | 0 <= i < |items| && (forall j :: 0 <= j < i ==> Transform(items[j], h).Some?)
                 && e in Errors(items[i], h) :: e
    case Map(_, m) => set k, e | k in m && e in Errors(m[k], h) :: e
    case _ => {}
  }

  /** `s` is a string leaf somewhere inside `v`. */
  ghost predicate HasLeaf(v: Value, s: string)
    decreases v
  {
    match v
    case Str(t) => t == s
    case Ptr(_, x) => HasLeaf(x, s)
    case Struct(_, fs) => exists i :: 0 <= i < |fs| && HasLeaf(fs[i], s)
    case Slice(_, items) => exists i :: 0 <= i < |items| && HasLeaf(items[i], s)
    case Map(_, m) => exists k :: k in m && HasLeaf(m[k], s)
    case _ => false
  }

  /**
   * `w` is `v` with every string leaf `s` replaced by the `t` of `h(s) == Ok(t)`:
   * the same constructors, types, lengths and field layout, the same map keys
   * except those whose value is nil, and every other scalar unchanged.
   */
  ghost predicate Rewritten(v: Value, w: Value, h: Handler)
    decreases v
  {
    match v
    case Str(s) => w.Str? && h(s) == Ok(w.s)
    case Ptr(e, x) => w.Ptr? && w.elem == e && Rewritten(x, w.target, h)
    case Struct(st, fs) =>
      w.Struct? && w.st == st && |w.fields| == |fs|
      && forall i :: 0 <= i < |fs| ==> Rewritten(fs[i], w.fields[i], h)
    case Slice(e, items) =>
      w.Slice? && w.elem == e && |w.items| == |items|
      && forall i :: 0 <= i < |items| ==> Rewritten(items[i], w.items[i], h)
    case Map(t, m) =>
      w.Map? && w.val == t && w.entries.Keys == (set k | k in m && !m[k].Nil?)
      && forall k :: k in w.entries ==> Rewritten(m[k], w.entries[k], h)
    case _ => w == v
  }

  /** No map inside `v` has a nil entry. */
  ghost predicate NoNilEntries(v: Value)
    decreases v
  {
    match v
    case Ptr(_, x) => NoNilEntries(x)
    case Struct(_, fs) => forall i :: 0 <= i < |fs| ==> NoNilEntries(fs[i])
    case Slice(_, items) => forall i :: 0 <= i < |items| ==> NoNilEntries(items[i])
    case Map(_, m) => forall k :: k in m ==> !m[k].Nil? && NoNilEntries(m[k])
    case _ => true
  }

  /**
   * inspectStringReflect: a pointer is rebuilt as a fresh pointer to the
   * rebuilt pointee; a struct field by field in declaration order; an empty
   * slice is returned as it is and a non-empty one element by element in index
   * order; a map entry by entry in an arbitrary key order, keys untouched, a nil
   * entry deleted; a string through the handler; an interface slot is read as
   * its concrete value, which is what gets rebuilt. On the first handler error
   * the traversal stops and returns the value it was given beside the error.
   */
  method InspectReflect(v: Value, h: Handler) returns (r: Value, err: Option<Error>)
    requires Traversable(v)
    ensures err.None? <==> Transform(v, h).Some?
    ensures err.None? ==> r == Transform(v, h).value
    ensures err.Some? ==> r == v && err.value in Errors(v, h)
    decreases v, 1
  {
    match v {
      case Ptr(e, x) =>
        var rv, e1 := InspectReflect(x, h);
        if e1.Some? {
          return v, e1;
        }
        return Ptr(e, rv), None;
      case Struct(_, _) =>
        r, err := InspectStruct(v, h);
      case Str(s) =>
        var res := h(s);
        if res.Err? {
          return v, Some(res.error);
        }
        return Str(res.value), None;
      case Slice(_, items) =>
        if |items| == 0 {
          return v, None;
        }
        r, err := InspectSlice(v, h);
      case Map(_, _) =>
        r, err := InspectMap(v, h);
      case _ =>
        return v, None;
    }
  }

  /** The struct case: a fresh struct of the same type, filled field by field. */
  method InspectStruct(v: Value, h: Handler) returns (r: Value, err: Option<Error>)
    requires v.Struct? && Traversable(v)
    ensures err.None? <==> Transform(v, h).Some?
    ensures err.None? ==> r == Transform(v, h).value
    ensures err.Some? ==> r == v && err.value in Errors(v, h)
    decreases v, 0
  {
    var fs := v.fields;
    // The fields of the fresh struct are filled in one by one; its zero
    // fields are never observed, because a failure returns `v`.
    var nfs: seq<Value> := [];
    for j := 0 to |fs|
      invariant |nfs| == j
      invariant forall i :: 0 <= i < j ==> Transform(fs[i], h).Some? && nfs[i] == Transform(fs[i], h).value
    {
      var rv, e1 := InspectReflect(fs[j], h);
      if e1.Some? {
        return v, e1;
      }
      nfs := nfs + [rv];
    }
    return Struct(v.st, nfs), None;
  }

  /** The non-empty slice case: a fresh slice of the same type and length, filled in index order. */
  method InspectSlice(v: Value, h: Handler) returns (r: Value, err: Option<Error>)
    requires v.Slice? && |v.items| > 0 && Traversable(v)
    ensures err.None? <==> Transform(v, h).Some?
    ensures err.None? ==> r == Transform(v, h).value
    ensures err.Some? ==> r == v && err.value in Errors(v, h)
    decreases v, 0
  {
    var items := v.items;
    var nitems: seq<Value> := [];
    for j := 0 to |items|
      invariant |nitems| == j
      invariant forall i :: 0 <= i < j ==> Transform(items[i], h).Some? && nitems[i] == Transform(items[i], h).value
    {
      var rv, e1 := InspectReflect(items[j], h);
      if e1.Some? {
        return v, e1;
      }
      nitems := nitems + [rv];
    }
    return Slice(v.elem, nitems), None;
  }

  /** The map case: a fresh map of the same type, filled in an arbitrary key order. */
  method InspectMap(v: Value, h: Handler) returns (r: Value, err: Option<Error>)
    requires v.Map? && Traversable(v)
    ensures err.None? <==> Transform(v, h).Some?
    ensures err.None? ==> r == Transform(v, h).value
    ensures err.Some? ==> r == v && err.value in Errors(v, h)
    decreases v, 0
  {
    var m := v.entries;
    var nm: map<string, Value> := map[];
    var keys := m.Keys;
    while keys != {}
      invariant keys <= m.Keys
      invariant forall k :: k in m && k !in keys ==> Transform(m[k], h).Some?
      invariant forall k :: k in nm <==> k in m && k !in keys && Transform(m[k], h).value != Nil
      invariant forall k :: k in nm ==> nm[k] == Transform(m[k], h).value
      decreases keys
    {
      var k :| k in keys;
      var rv, e1 := InspectReflect(m[k], h);
      if e1.Some? {
        EntryErrorIsMapError(v, h, k, e1.value);
        return v, e1;
      }
      // SetMapIndex with the zero reflect.Value deletes the key.
      if rv == Nil {
        nm := nm - {k};
      } else {
        nm := nm[k := rv];
      }
      keys := keys - {k};
    }
    EntriesRebuilt(v, h, nm);
    return Map(v.val, nm), None;
  }

  /** A map holding the non-nil rewrites of all entries, and nothing else, is the rewritten map. */
  lemma EntriesRebuilt(v: Value, h: Handler, nm: map<string, Value>)
    requires v.Map? && forall k :: k in v.entries ==> Transform(v.entries[k], h).Some?
    requires forall k :: k in nm <==> k in v.entries && Transform(v.entries[k], h).value != Nil
    requires forall k :: k in nm ==> nm[k] == Transform(v.entries[k], h).value
    ensures Transform(v, h) == Some(Map(v.val, nm))
  {
    var m := v.entries;
    var rm := map k | k in m && Transform(m[k], h).value != Nil :: Transform(m[k], h).value;
    assert Transform(v, h) == Some(Map(v.val, rm));
    assert rm.Keys == nm.Keys;
    assert rm == nm;
  }

  /** An error of one entry that fails to rewrite is an error of the whole map, which fails too. */
  lemma EntryErrorIsMapError(v: Value, h: Handler, k: string, e: Error)
    requires v.Map? && k in v.entries && Transform(v.entries[k], h).None? && e in Errors(v.entries[k], h)
    ensures Transform(v, h).None? && e in Errors(v, h)
  {
  }

  /**
   * InspectStrings: the traversal of a non-nil value; on an error the input
   * itself comes back beside it, never a partial copy.
   */
  method InspectStrings(i: Value, h: Handler) returns (t: Value, err: Option<Error>)
    requires !i.Nil? && Traversable(i)
    ensures err.None? <==> Transform(i, h).Some?
    ensures err.None? ==> t == Transform(i, h).value
    ensures err.Some? ==> t == i && err.value in Errors(i, h)
  {
    t, err := InspectReflect(i, h);
  }

  /** The first element of `vs` whose rebuild fails, when one does. */
  lemma FirstFailure(vs: seq<Value>, h: Handler) returns (i: nat)
    requires exists j :: 0 <= j < |vs| && Transform(vs[j], h).None?
    ensures i < |vs| && Transform(vs[i], h).None?
    ensures forall j :: 0 <= j < i ==> Transform(vs[j], h).Some?
  {
    i := 0;
    while Transform(vs[i], h).Some?
      invariant i < |vs|
      invariant forall j :: 0 <= j < i ==> Transform(vs[j], h).Some?
      invariant exists j :: i <= j < |vs| && Transform(vs[j], h).None?
      decreases |vs| - i
    {
      i := i + 1;
    }
  }

  /**
   * A successful rebuild is exactly the rewrite of `v` by `h`: the traversal
   * changes string leaves only, keeps every length, key and field layout, and
   * drops exactly the nil map entries.
   */
  lemma {:induction false} TransformIsRewrite(v: Value, w: Value, h: Handler)
    ensures Transform(v, h) == Some(w) <==> Rewritten(v, w, h)
    decreases v, 1
  {
    match v
    case Ptr(e, x) =>
      if w.Ptr? {
        TransformIsRewrite(x, w.target, h);
      }
    case Struct(st, fs) =>
      if w.Struct? && |w.fields| == |fs| {
        ElementsAreRewrites(fs, w.fields, h, v);
      }
    case Slice(e, items) =>
      if w.Slice? && |w.items| == |items| {
        ElementsAreRewrites(items, w.items, h, v);
      }
    case Map(t, m) =>
      if w.Map? && w.val == t {
        EntriesAreRewrites(v, w, h);
      }
    case _ =>
  }

  /** TransformIsRewrite for the elements of a struct or a slice `parent`. */
  lemma {:induction false} ElementsAreRewrites(vs: seq<Value>, ws: seq<Value>, h: Handler, parent: Value)
    requires |vs| == |ws|
    requires (parent.Struct? && parent.fields == vs) || (parent.Slice? && parent.items == vs)
    ensures (forall i :: 0 <= i < |vs| ==> Transform(vs[i], h).Some?)
            && seq(|vs|, i requires 0 <= i < |vs| => Transform(vs[i], h).value) == ws
        <==> forall i :: 0 <= i < |vs| ==> Rewritten(vs[i], ws[i], h)
    decreases parent, 0
  {
    forall i | 0 <= i < |vs| {
      TransformIsRewrite(vs[i], ws[i], h);
    }
    if forall i :: 0 <= i < |vs| ==> Rewritten(vs[i], ws[i], h) {
      assert seq(|vs|, i requires 0 <= i < |vs| => Transform(vs[i], h).value) == ws;
    }
  }

  /** TransformIsRewrite for the entries of a map. */
  lemma {:induction false} EntriesAreRewrites(v: Value, w: Value, h: Handler)
    requires v.Map? && w.Map? && w.val == v.val
    ensures Transform(v, h) == Some(w) <==> Rewritten(v, w, h)
    decreases v, 0
  {
    var m := v.entries;
    forall k | k in m && k in w.entries {
      TransformIsRewrite(m[k], w.entries[k], h);
    }
    if Rewritten(v, w, h) {
      forall k | k in m
        ensures Transform(m[k], h).Some?
        ensures !m[k].Nil? ==> Transform(m[k], h).value == w.entries[k]
      {
        if !m[k].Nil? {
          assert k in w.entries;
        }
      }
      var r := Transform(v, h).value;
      assert r.entries.Keys == w.entries.Keys;
      assert r.entries == w.entries;
    }
  }

  /** The traversal fails exactly when the handler fails on some string leaf. */
  lemma {:induction false} TransformFailsIff(v: Value, h: Handler)
    ensures Transform(v, h).None? <==> exists s :: HasLeaf(v, s) && h(s).Err?
    decreases v
  {
    match v
    case Ptr(_, x) =>
      TransformFailsIff(x, h);
    case Struct(_, fs) =>
      forall i | 0 <= i < |fs| {
        TransformFailsIff(fs[i], h);
      }
    case Slice(_, items) =>
      forall i | 0 <= i < |items| {
        TransformFailsIff(items[i], h);
      }
    case Map(_, m) =>
      forall k | k in m {
        TransformFailsIff(m[k], h);
      }
    case _ =>
  }

  /**
   * An error is reported exactly when the rebuild fails, and every error that
   * can be reported is one the handler returned for a string leaf of `v`.
   */
  lemma {:induction false} ErrorsFromLeaves(v: Value, h: Handler)
    ensures Errors(v, h) == {} <==> Transform(v, h).Some?
    ensures forall e :: e in Errors(v, h) ==> exists s :: HasLeaf(v, s) && h(s) == Err(e)
    decreases v
  {
    match v
    case Ptr(_, x) =>
      ErrorsFromLeaves(x, h);
    case Struct(_, fs) =>
      forall i | 0 <= i < |fs| {
        ErrorsFromLeaves(fs[i], h);
      }
      if !Transform(v, h).Some? {
        var i := FirstFailure(fs, h);
        var e :| e in Errors(fs[i], h);
        assert e in Errors(v, h);
      }
    case Slice(_, items) =>
      forall i | 0 <= i < |items| {
        ErrorsFromLeaves(items[i], h);
      }
      if |items| > 0 && !Transform(v, h).Some? {
        var i := FirstFailure(items, h);
        var e :| e in Errors(items[i], h);
        assert e in Errors(v, h);
      }
    case Map(_, m) =>
      forall k | k in m {
        ErrorsFromLeaves(m[k], h);
      }
      if !Transform(v, h).Some? {
        var k :| k in m && Transform(m[k], h).None?;
        var e :| e in Errors(m[k], h);
        assert e in Errors(v, h);
      }
    case _ =>
  }

  /** With the identity handler the traversal gives back its input, unless a map holds a nil entry. */
  lemma {:induction false} IdentityRebuildsInput(v: Value)
    requires NoNilEntries(v)
    ensures Transform(v, Identity) == Some(v)
    decreases v
  {
    match v
    case Ptr(_, x) =>
      IdentityRebuildsInput(x);
    case Struct(st, fs) =>
      forall i | 0 <= i < |fs| {
        IdentityRebuildsInput(fs[i]);
      }
      assert seq(|fs|, i requires 0 <= i < |fs| => Transform(fs[i], Identity).value) == fs;
    case Slice(e, items) =>
      forall i | 0 <= i < |items| {
        IdentityRebuildsInput(items[i]);
      }
      assert seq(|items|, i requires 0 <= i < |items| => Transform(items[i], Identity).value) == items;
    case Map(t, m) =>
      forall k | k in m
        ensures Transform(m[k], Identity) == Some(m[k]) && m[k] != Nil
      {
        IdentityRebuildsInput(m[k]);
      }
      var r := Transform(v, Identity).value;
      assert r.entries.Keys == m.Keys;
      assert r.entries == m;
    case _ =>
  }

  /** A nil entry of a JSON object vanishes from the rebuilt object, even under the identity handler. */
  lemma NilEntryVanishes()
    ensures Transform(Map(TAny, map["a" := Nil, "b" := Str("x")]), Identity)
         == Some(Map(TAny, map["b" := Str("x")]))
  {
    var m := map["a" := Nil, "b" := Str("x")];
    assert Transform(m["a"], Identity) == Some(Nil);
    assert Transform(m["b"], Identity) == Some(Str("x"));
    EntriesRebuilt(Map(TAny, m), Identity, map["b" := Str("x")]);
  }

  /** A successful rebuild keeps the value in its slot: no type is corrupted or narrowed. */
  lemma {:induction false} TransformKeepsType(v: Value, t: Type, h: Handler)
    requires Fits(v, t) && Transform(v, h).Some?
    ensures Fits(Transform(v, h).value, t)
    decreases v
  {
    match v
    case Ptr(e, x) =>
      TransformKeepsType(x, e, h);
    case Struct(st, fs) =>
      forall i | 0 <= i < |fs| {
        TransformKeepsType(fs[i], st.fields[i].typ, h);
      }
    case Slice(e, items) =>
      forall i | 0 <= i < |items| {
        TransformKeepsType(items[i], e, h);
      }
    case Map(vt, m) =>
      forall k | k in m {
        TransformKeepsType(m[k], vt, h);
      }
    case _ =>
  }
}
