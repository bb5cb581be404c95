/**
 * `Merge` of pkg/inspect/parse.go: a deep merge of two JSON objects
 * (`map[string]interface{}`), the second winning on conflicts.
 *
 * `MergedAt` gives, key by key and in the order of the Go branches, what the
 * result holds; `Merged` collects it. `Merge` is the Go procedure, two loops
 * over the keys of `a` and of `b` in an arbitrary order, proved to build
 * `Merged(a, b)`. A slice-valued key of `a` that `b` lacks is dropped: the
 * slice branch has no case for it.
 */
module TreeMerger {
  import opened Wrappers
  import opened Values

  /**
   * The inputs on which `Merge` does not panic: wherever both sides hold a
   * slice, reflect.Append can store `b`'s elements (of `b`'s element type) in
   * a slice of `a`'s element type.
   */
  ghost predicate Mergeable(a: map<string, Value>, b: map<string, Value>)
    decreases Map(TAny, a)
  {
    forall k :: k in a && k in b ==>
      (IsObject(a[k]) && IsObject(b[k]) ==> Mergeable(a[k].entries, b[k].entries))
      && (a[k].Slice? && b[k].Slice? ==> AssignableTo(b[k].elem, a[k].elem))
  }

  /** What the result holds under key `k` of `a` or `b`, or `None` when it lacks `k`. */
  function MergedAt(a: map<string, Value>, b: map<string, Value>, k: string): Option<Value>
    decreases Map(TAny, a), 0
  {
    if k in a then
      var av := a[k];
      if IsObject(av) then
        if k in b then
          if IsObject(b[k]) then Some(Map(TAny, Merged(av.entries, b[k].entries)))
          else Some(b[k])
        else Some(av)
      else if av.Slice? then
        if k in b then
          if b[k].Slice? then Some(Slice(av.elem, av.items + b[k].items))
          else Some(b[k])
        else None
      else if k in b then Some(b[k])
      else Some(av)
    else if k in b then Some(b[k])
    else None
  }

  /** The merge of `a` and `b`. */
  function Merged(a: map<string, Value>, b: map<string, Value>): map<string, Value>
    decreases Map(TAny, a), 1
  {
    map k | k in a.Keys + b.Keys && MergedAt(a, b, k).Some? :: MergedAt(a, b, k).value
  }

  /** The slice of `av`'s type holding `av`'s elements followed by `bv`'s (parse.go:93-100). */
  method Combine(av: Value, bv: Value) returns (combined: Value)
    requires av.Slice? && bv.Slice? && AssignableTo(bv.elem, av.elem)
    ensures combined == Slice(av.elem, av.items + bv.items)
  {
    var items: seq<Value> := [];
    for i := 0 to |av.items|
      invariant items == av.items[..i]
    {
      items := items + [av.items[i]];
    }
    for i := 0 to |bv.items|
      invariant items == av.items + bv.items[..i]
    {
      items := items + [bv.items[i]];
    }
    combined := Slice(av.elem, items);
  }

  /** The body of the first loop of Merge for one key `k` of `a` (parse.go:78-111). */
  method MergeKey(a: map<string, Value>, b: map<string, Value>, k: string) returns (entry: Option<Value>)
    requires k in a && Mergeable(a, b)
    ensures entry == MergedAt(a, b, k)
    decreases Map(TAny, a), 0
  {
    var av := a[k];
    if IsObject(av) {
      if k in b {
        var bv := b[k];
        if IsObject(bv) {
          var sub := Merge(av.entries, bv.entries);
          entry := Some(Map(TAny, sub));
        } else {
          entry := Some(bv);
        }
      } else {
        entry := Some(av);
      }
    } else if av.Slice? {
      entry := None;
      if k in b {
        var bv := b[k];
        if bv.Slice? {
          var combined := Combine(av, bv);
          entry := Some(combined);
        } else {
          entry := Some(bv);
        }
      }
    } else if k in b {
      entry := Some(b[k]);
    } else {
      entry := Some(av);
    }
  }

  /**
   * Merge: a fresh map filled first from the keys of `a` and then from the
   * keys of `b` that `a` lacks; neither input is written.
   */
  method Merge(a: map<string, Value>, b: map<string, Value>) returns (result: map<string, Value>)
    requires Mergeable(a, b)
    ensures result == Merged(a, b)
    decreases Map(TAny, a), 1
  {
    result := map[];
    var todo := a.Keys;
    while todo != {}
      invariant todo <= a.Keys
      invariant forall k :: k in result <==> k in a && k !in todo && MergedAt(a, b, k).Some?
      invariant forall k :: k in result ==> result[k] == MergedAt(a, b, k).value
      decreases todo
    {
      var k :| k in todo;
      var entry := MergeKey(a, b, k);
      if entry.Some? {
        result := result[k := entry.value];
      }
      todo := todo - {k};
    }
    todo := b.Keys;
    while todo != {}
      invariant todo <= b.Keys
      invariant forall k :: k in result <==> k in a.Keys + (b.Keys - todo) && MergedAt(a, b, k).Some?
      invariant forall k :: k in result ==> result[k] == MergedAt(a, b, k).value
      decreases todo
    {
      var k :| k in todo;
      if k !in a {
        result := result[k := b[k]];
      }
      todo := todo - {k};
    }
    assert result.Keys == Merged(a, b).Keys;
  }

  /** The result holds every key of `b` and every key of `a` whose value is not a slice, and no other. */
  lemma MergedKeys(a: map<string, Value>, b: map<string, Value>)
    ensures Merged(a, b).Keys == b.Keys + (set k | k in a && !a[k].Slice?)
  {
  }

  /**
   * The rules key by key: two objects merge recursively, two slices
   * concatenate in order, `b` wins every other conflict, and a key of one side
   * only is copied, except a slice of `a` alone.
   */
  lemma MergedEntries(a: map<string, Value>, b: map<string, Value>, k: string)
    ensures k in a && k in b && IsObject(a[k]) && IsObject(b[k])
            ==> k in Merged(a, b) && Merged(a, b)[k] == Map(TAny, Merged(a[k].entries, b[k].entries))
    ensures k in a && k in b && a[k].Slice? && b[k].Slice?
            ==> k in Merged(a, b) && Merged(a, b)[k] == Slice(a[k].elem, a[k].items + b[k].items)
    ensures k in b && !(k in a && IsObject(a[k]) && IsObject(b[k])) && !(k in a && a[k].Slice? && b[k].Slice?)
            ==> k in Merged(a, b) && Merged(a, b)[k] == b[k]
    ensures k in a && k !in b && !a[k].Slice? ==> k in Merged(a, b) && Merged(a, b)[k] == a[k]
    ensures k in a && k !in b && a[k].Slice? ==> k !in Merged(a, b)
  {
  }

  /** The result keeps every key of both inputs exactly when each slice key of `a` is also a key of `b`. */
  lemma KeepsEveryKeyIff(a: map<string, Value>, b: map<string, Value>)
    ensures Merged(a, b).Keys == a.Keys + b.Keys <==> forall k :: k in a && a[k].Slice? ==> k in b
  {
    MergedKeys(a, b);
    if Merged(a, b).Keys == a.Keys + b.Keys {
      forall k | k in a && a[k].Slice?
        ensures k in b
      {
        assert k in Merged(a, b).Keys;
      }
    }
  }

  /** Merging well-typed objects gives a well-typed object: no slot receives a value of another type. */
  lemma {:induction false} MergeKeepsTypes(a: map<string, Value>, b: map<string, Value>)
    requires Mergeable(a, b) && WellTyped(Map(TAny, a)) && WellTyped(Map(TAny, b))
    ensures WellTyped(Map(TAny, Merged(a, b)))
    decreases Map(TAny, a), 1
  {
    var r := Merged(a, b);
    forall k | k in r
      ensures Fits(r[k], TAny)
    {
      MergedEntryFits(a, b, k);
    }
  }

  /** One entry of the merge of two well-typed objects is well typed. */
  lemma {:induction false} MergedEntryFits(a: map<string, Value>, b: map<string, Value>, k: string)
    requires Mergeable(a, b) && WellTyped(Map(TAny, a)) && WellTyped(Map(TAny, b))
    requires k in Merged(a, b)
    ensures Fits(Merged(a, b)[k], TAny)
    decreases Map(TAny, a), 0
  {
    MergedEntries(a, b, k);
    var r := Merged(a, b);
    if k in a && k in b && IsObject(a[k]) && IsObject(b[k]) {
      assert Fits(a[k], TAny) && Fits(b[k], TAny);
      MergeKeepsTypes(a[k].entries, b[k].entries);
    } else if k in a && k in b && a[k].Slice? && b[k].Slice? {
      assert Fits(a[k], TAny) && Fits(b[k], TAny);
      ConcatenationFits(a[k], b[k]);
    } else if k in b {
      assert Fits(b[k], TAny);
    } else {
      assert Fits(a[k], TAny);
    }
  }

  /** Appending the elements of a slice of an assignable element type keeps a slice well typed. */
  lemma ConcatenationFits(av: Value, bv: Value)
    requires av.Slice? && bv.Slice? && WellTyped(av) && WellTyped(bv) && AssignableTo(bv.elem, av.elem)
    ensures WellTyped(Slice(av.elem, av.items + bv.items))
  {
    var items := av.items + bv.items;
    forall i | 0 <= i < |items|
      ensures Fits(items[i], av.elem)
    {
      if i < |av.items| {
        assert items[i] == av.items[i];
      } else {
        assert items[i] == bv.items[i - |av.items|];
        FitsAssignable(bv.items[i - |av.items|], bv.elem, av.elem);
      }
    }
  }

  /** Two objects under the same key merge key-wise: {"a":{"x":1}} and {"a":{"y":2}} give {"a":{"x":1,"y":2}}. */
  lemma NestedObjectsMerge()
    ensures Merged(map["a" := Map(TAny, map["x" := Float(1)])], map["a" := Map(TAny, map["y" := Float(2)])])
         == map["a" := Map(TAny, map["x" := Float(1), "y" := Float(2)])]
  {
    var inner := Merged(map["x" := Float(1)], map["y" := Float(2)]);
    assert inner.Keys == {"x", "y"};
    assert inner == map["x" := Float(1), "y" := Float(2)];
    var outer := Merged(map["a" := Map(TAny, map["x" := Float(1)])], map["a" := Map(TAny, map["y" := Float(2)])]);
    assert outer.Keys == {"a"};
  }

  /** Two slices under the same key concatenate: [1,2] and [3] give [1,2,3]. */
  lemma SlicesConcatenate()
    ensures Merged(map["x" := Slice(TAny, [Float(1), Float(2)])], map["x" := Slice(TAny, [Float(3)])])
         == map["x" := Slice(TAny, [Float(1), Float(2), Float(3)])]
  {
    var r := Merged(map["x" := Slice(TAny, [Float(1), Float(2)])], map["x" := Slice(TAny, [Float(3)])]);
    assert r.Keys == {"x"};
    assert [Float(1), Float(2)] + [Float(3)] == [Float(1), Float(2), Float(3)];
  }

  /** As written, a slice of `a` under a key `b` lacks is lost: merging {"x":[1]} with {} gives {}. */
  lemma OrphanSliceDropped()
    ensures Merged(map["x" := Slice(TAny, [Float(1)])], map[]) == map[]
  {
    assert Merged(map["x" := Slice(TAny, [Float(1)])], map[]).Keys == {};
  }

  /** MergedAt with the missing case filled in: a slice of `a` alone is copied like any other value. */
  function IntendedMergedAt(a: map<string, Value>, b: map<string, Value>, k: string): Option<Value>
    decreases Map(TAny, a), 0
  {
    if k in a then
      var av := a[k];
      if IsObject(av) then
        if k in b then
          if IsObject(b[k]) then Some(Map(TAny, IntendedMerged(av.entries, b[k].entries)))
          else Some(b[k])
        else Some(av)
      else if av.Slice? then
        if k in b then
          if b[k].Slice? then Some(Slice(av.elem, av.items + b[k].items))
          else Some(b[k])
        else Some(av)
      else if k in b then Some(b[k])
      else Some(av)
    else if k in b then Some(b[k])
    else None
  }

  /** The merge the comment at parse.go:74 describes: keys of `b` override those of `a`, slices are merged. */
  function IntendedMerged(a: map<string, Value>, b: map<string, Value>): map<string, Value>
    decreases Map(TAny, a), 1
  {
    map k | k in a.Keys + b.Keys && IntendedMergedAt(a, b, k).Some? :: IntendedMergedAt(a, b, k).value
  }

  /** The intended merge keeps exactly the keys of both inputs. */
  lemma IntendedKeepsEveryKey(a: map<string, Value>, b: map<string, Value>)
    ensures IntendedMerged(a, b).Keys == a.Keys + b.Keys
  {
  }

  /** No slice of `a` at any depth sits under a key that the matching object of `b` lacks. */
  ghost predicate NoOrphanSlices(a: map<string, Value>, b: map<string, Value>)
    decreases Map(TAny, a)
  {
    forall k :: k in a ==>
      (a[k].Slice? ==> k in b)
      && (k in b && IsObject(a[k]) && IsObject(b[k]) ==> NoOrphanSlices(a[k].entries, b[k].entries))
  }

  /** Merge as written and the intended merge agree exactly on inputs without orphan slices. */
  lemma {:induction false} AgreesWithoutOrphanSlices(a: map<string, Value>, b: map<string, Value>)
    requires NoOrphanSlices(a, b)
    ensures Merged(a, b) == IntendedMerged(a, b)
    decreases Map(TAny, a)
  {
    forall k | k in a && k in b && IsObject(a[k]) && IsObject(b[k]) {
      AgreesWithoutOrphanSlices(a[k].entries, b[k].entries);
    }
    assert forall k :: MergedAt(a, b, k) == IntendedMergedAt(a, b, k);
  }
}
