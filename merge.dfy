/** `merge_dicts(d1, d2)` of `boardgen/utils.py`, the deep merge used for
    board inheritance. The source updates `d1` in place and returns it; the
    model returns the merged value. A `None` `d1` (also what `d1.get(key)`
    gives for a missing key) is `JNull` here. */
module Merge {
  import opened Wrappers
  import opened JsonValue

  /** `merge_dicts(d1, d2)`: a type mismatch (unless `d1` is `None`) raises
      `TypeError`; lists are concatenated with copies of `d2`'s items; dicts
      are merged key by key in `d2`'s order; any other `d2` replaces `d1`. */
  function MergeDicts(d1: Json, d2: Json): (r: Result<Json>)
    ensures d1 != JNull && TypeOf(d1) != TypeOf(d2) ==> r == Err(TypeError)
    ensures r.Ok? ==> TypeOf(r.value) == TypeOf(d2)
    ensures r.Err? ==> r.error == TypeError
    decreases d2, 2
  {
    if d1 != JNull && TypeOf(d1) != TypeOf(d2) then Err(TypeError)
    else match d2
      case JList(items) =>
        var copies :- CopyItems(items);
        Ok(JList((if d1 == JNull then [] else d1.items) + copies))
      case JObj(fields) =>
        var merged :- MergeFields(if d1 == JNull then [] else d1.fields, fields);
        Ok(JObj(merged))
      case _ => Ok(d2)
  }

  /** `merge_dicts(None, item) for item in d2` */
  function CopyItems(items: seq<Json>): (r: Result<seq<Json>>)
    ensures r.Ok? ==> |r.value| == |items|
    ensures r.Err? ==> r.error == TypeError
    decreases items, 1
  {
    if items == [] then Ok([])
    else
      var first :- MergeDicts(JNull, items[0]);
      var rest :- CopyItems(items[1..]);
      Ok([first] + rest)
  }

  /** `for key in d2: d1[key] = merge_dicts(d1.get(key, None), d2[key])` */
  function MergeFields(acc: seq<Field>, fields: seq<Field>): (r: Result<seq<Field>>)
    ensures r.Err? ==> r.error == TypeError
    decreases fields, 1
  {
    if fields == [] then Ok(acc)
    else
      var f := fields[0];
      var v :- MergeDicts(GetOrNull(acc, f.key), f.val);
      MergeFields(Assign(acc, f.key, v), fields[1..])
  }

  /** `d1.get(key, None)` */
  function GetOrNull(fs: seq<Field>, k: string): Json {
    match Lookup(fs, k)
    case Some(v) => v
    case None => JNull
  }

  /** Merging into `None` copies: the result equals the merged value. */
  lemma {:induction false} CopyIsIdentity(x: Json)
    requires WellFormed(x)
    ensures MergeDicts(JNull, x) == Ok(x)
    decreases x, 2
  {
    match x
    case JList(items) =>
      CopyItemsIsIdentity(items);
      assert [] + items == items;
    case JObj(fields) =>
      assert FieldKeys([]) == [];
      CopyFieldsIsIdentity([], fields);
      assert [] + fields == fields;
    case _ =>
  }

  lemma {:induction false} CopyItemsIsIdentity(items: seq<Json>)
    requires forall i :: 0 <= i < |items| ==> WellFormed(items[i])
    ensures CopyItems(items) == Ok(items)
    decreases items, 1
  {
    if items != [] {
      CopyIsIdentity(items[0]);
      CopyItemsIsIdentity(items[1..]);
      assert [items[0]] + items[1..] == items;
    }
  }

  /** Copying fields with new keys onto `acc` appends them unchanged. */
  lemma {:induction false} CopyFieldsIsIdentity(acc: seq<Field>, fields: seq<Field>)
    requires UniqueKeys(fields)
    requires forall i :: 0 <= i < |fields| ==> WellFormed(fields[i].val)
    requires forall i :: 0 <= i < |fields| ==> fields[i].key !in FieldKeys(acc)
    ensures MergeFields(acc, fields) == Ok(acc + fields)
    decreases fields, 1
  {
    if fields == [] {
      assert acc + fields == acc;
    } else {
      var f := fields[0];
      CopyIsIdentity(f.val);
      AppendNew(acc, f.key, f.val);
      var acc' := acc + [f];
      assert FieldKeys(acc') == FieldKeys(acc) + [f.key];
      forall i | 0 <= i < |fields[1..]|
        ensures fields[1..][i].key !in FieldKeys(acc')
      {
        assert fields[1..][i] == fields[i + 1];
      }
      CopyFieldsIsIdentity(acc', fields[1..]);
      assert acc' + fields[1..] == acc + fields;
    }
  }

  lemma {:induction false} AppendNew(acc: seq<Field>, k: string, v: Json)
    requires k !in FieldKeys(acc)
    ensures Lookup(acc, k) == None
    ensures Assign(acc, k, v) == acc + [Field(k, v)]
  {
    if acc != [] {
      var rest := acc[1..];
      assert FieldKeys(acc) == [acc[0].key] + FieldKeys(rest);
      assert acc[0].key != k && k !in FieldKeys(rest);
      AppendNew(rest, k, v);
      assert Assign(acc, k, v) == [acc[0]] + Assign(rest, k, v);
      AppendAssoc([acc[0]], rest, [Field(k, v)]);
      assert [acc[0]] + rest == acc;
    }
  }

  /** A merge of well-formed values is well formed: every dict of the
      result still has unique keys. */
  lemma {:induction false} MergeWellFormed(d1: Json, d2: Json)
    requires WellFormed(d1) && WellFormed(d2) && MergeDicts(d1, d2).Ok?
    ensures WellFormed(MergeDicts(d1, d2).value)
    decreases d2, 2
  {
    match d2
    case JList(items) =>
      CopyItemsIsIdentity(items);
      var xs := if d1 == JNull then [] else d1.items;
      assert MergeDicts(d1, d2) == Ok(JList(xs + items));
      ConcatWellFormed(xs, items);
    case JObj(fields) =>
      MergeFieldsWellFormed(if d1 == JNull then [] else d1.fields, fields);
    case _ =>
  }

  lemma ConcatWellFormed(xs: seq<Json>, ys: seq<Json>)
    requires WellFormed(JList(xs)) && WellFormed(JList(ys))
    ensures WellFormed(JList(xs + ys))
  {
    assert forall i :: 0 <= i < |xs + ys| ==> (xs + ys)[i] == if i < |xs| then xs[i] else ys[i - |xs|];
  }

  lemma {:induction false} MergeFieldsWellFormed(acc: seq<Field>, fields: seq<Field>)
    requires WellFormed(JObj(acc)) && forall i :: 0 <= i < |fields| ==> WellFormed(fields[i].val)
    requires MergeFields(acc, fields).Ok?
    ensures WellFormed(JObj(MergeFields(acc, fields).value))
    decreases fields, 1
  {
    if fields != [] {
      var f := fields[0];
      var old1 := GetOrNull(acc, f.key);
      assert WellFormed(old1) by {
        LookupIn(acc, f.key);
        if Lookup(acc, f.key).Some? {
          var i :| 0 <= i < |acc| && acc[i] == Field(f.key, Lookup(acc, f.key).value);
        }
      }
      MergeWellFormed(old1, f.val);
      var v := MergeDicts(old1, f.val).value;
      AssignWellFormed(acc, f.key, v);
      assert forall i :: 0 <= i < |fields[1..]| ==> fields[1..][i] == fields[i + 1];
      MergeFieldsWellFormed(Assign(acc, f.key, v), fields[1..]);
    }
  }

  /** Lists concatenate: a well-formed `d2` list is appended to `d1`'s
      items, so the length is the sum of the two lengths. */
  lemma ListsConcatenate(a: seq<Json>, b: seq<Json>)
    requires forall i :: 0 <= i < |b| ==> WellFormed(b[i])
    ensures MergeDicts(JList(a), JList(b)) == Ok(JList(a + b))
    ensures |a + b| == |a| + |b|
  {
    CopyItemsIsIdentity(b);
  }

  /** Merging a list with an equal copy of itself doubles it, so the merge
      is not a no-op even though every dict key meets an equal value. (The
      call `merge_dicts(x, x)` on one list object does not end in Python:
      `extend` keeps reading the list it grows.) */
  lemma SelfMergeDoublesLists(xs: seq<Json>)
    requires forall i :: 0 <= i < |xs| ==> WellFormed(xs[i])
    ensures MergeDicts(JList(xs), JList(xs)) == Ok(JList(xs + xs))
    ensures xs != [] ==> MergeDicts(JList(xs), JList(xs)) != Ok(JList(xs))
  {
    ListsConcatenate(xs, xs);
    assert |xs + xs| == 2 * |xs|;
  }

  /** Dict merge, key by key: keys only in `d1` keep their value, every key
      of `d2` is present afterwards, and a scalar of `d2` overwrites. */
  lemma {:induction false} MergeFieldsLookup(acc: seq<Field>, fields: seq<Field>, k: string)
    requires UniqueKeys(fields)
    requires MergeFields(acc, fields).Ok?
    ensures k !in FieldKeys(fields) ==> Lookup(MergeFields(acc, fields).value, k) == Lookup(acc, k)
    ensures k in FieldKeys(fields) ==> k in FieldKeys(MergeFields(acc, fields).value)
    ensures Lookup(fields, k).Some? && IsScalar(Lookup(fields, k).value) ==>
              Lookup(MergeFields(acc, fields).value, k) == Lookup(fields, k)
    decreases |fields|
  {
    if fields != [] {
      var f := fields[0];
      var v := MergeDicts(GetOrNull(acc, f.key), f.val).value;
      var acc' := Assign(acc, f.key, v);
      assert FieldKeys(fields) == [f.key] + FieldKeys(fields[1..]);
      assert UniqueKeys(fields[1..]);
      MergeFieldsLookup(acc', fields[1..], k);
      AssignLookup(acc, f.key, v, k);
      if k == f.key {
        assert k !in FieldKeys(fields[1..]);
        AssignKeys(acc, f.key, v);
        MergeFieldsLookup(acc', fields[1..], f.key);
      }
    }
  }

  predicate IsScalar(j: Json) {
    !j.JList? && !j.JObj?
  }

  /** `merge_dicts` on two dicts, as seen from one key. */
  lemma DictMerge(f1: seq<Field>, f2: seq<Field>, k: string)
    requires UniqueKeys(f2)
    requires MergeDicts(JObj(f1), JObj(f2)).Ok?
    ensures var r := MergeDicts(JObj(f1), JObj(f2)).value.fields;
            && (k !in FieldKeys(f2) ==> Lookup(r, k) == Lookup(f1, k))
            && (k in FieldKeys(f2) ==> k in FieldKeys(r))
            && (Lookup(f2, k).Some? && IsScalar(Lookup(f2, k).value) ==> Lookup(r, k) == Lookup(f2, k))
  {
    MergeFieldsLookup(f1, f2, k);
  }

  /** A value in `d1` that is not `None`, met under the same key by a
      value of another type in `d2` (an `int` by a `float`, say), makes the
      whole merge a `TypeError`. */
  lemma MismatchInsideDict(f1: seq<Field>, f2: seq<Field>, k: string)
    requires Lookup(f1, k).Some? && Lookup(f1, k).value != JNull && Lookup(f2, k).Some?
    requires TypeOf(Lookup(f1, k).value) != TypeOf(Lookup(f2, k).value)
    ensures MergeDicts(JObj(f1), JObj(f2)) == Err(TypeError)
  {
    MismatchFields(f1, f2, k);
  }

  lemma {:induction false} MismatchFields(acc: seq<Field>, fields: seq<Field>, k: string)
    requires Lookup(acc, k).Some? && Lookup(acc, k).value != JNull && Lookup(fields, k).Some?
    requires TypeOf(Lookup(acc, k).value) != TypeOf(Lookup(fields, k).value)
    ensures MergeFields(acc, fields) == Err(TypeError)
    decreases |fields|
  {
    var f := fields[0];
    if f.key != k {
      var m := MergeDicts(GetOrNull(acc, f.key), f.val);
      if m.Ok? {
        AssignLookup(acc, f.key, m.value, k);
        MismatchFields(Assign(acc, f.key, m.value), fields[1..], k);
      }
    }
  }
}
