/** Building the shape tree from JSON: `Shape.deserialize` and `remap` of
    `boardgen/shapes/base.py`, the constructors of `Rect`, `Circle`, `Text`
    and `ShapeGroup` (its repeat loop), and `Core.build_shapes`,
    `Core.build_shape` and `Core.build_presets` of `boardgen/core/core.py`.
    The source mutates a deep copy of the data; here every step returns
    the new data, so the caller's data is never changed. Nested includes
    recurse without bound in the source; `fuel` bounds the depth of groups
    here (`OutOfFuel` when exhausted). */
module Builder {
  import opened Wrappers
  import opened Text
  import opened JsonValue
  import opened Vars
  import opened Mixins
  import opened Shapes
  import Merge
  import Cache
  import Enums

  /** What `deserialize` uses of the core: the shape files and directories,
      the preset table, and `splitxy` applied to a coordinate string (it
      evaluates Python expressions, so it is a parameter). */
  datatype Env = Env(
    files: Cache.Files,
    shapeDirs: seq<string>,
    presets: seq<Field>,
    splitxy: string -> Result<V>)

  /** What `deserialize` uses of its parent (a `Pcb`, a `Template` or a
      `ShapeGroup`, all of them `HasId` and `HasVars`): its `fullid` and
      its variables. */
  datatype Parent = Parent(fullid: Result<Option<string>>, vars: seq<Field>)

  // ---------------------------------------------------------------------
  // Variable substitution over JSON data

  /** Text that `var` leaves alone: no placeholder and no conditional. */
  predicate PlainText(s: string) {
    !Contains(s, "${") && '<' !in s
  }

  /** Every key and every string of the value is plain text. */
  predicate Plain(j: Json) {
    match j
    case JStr(s) => PlainText(s)
    case JList(items) => forall i :: 0 <= i < |items| ==> Plain(items[i])
    case JObj(fields) =>
      forall i :: 0 <= i < |fields| ==> PlainText(fields[i].key) && Plain(fields[i].val)
    case _ => true
  }

  /** `json.loads(var(json.dumps(data), vars))`, applied to every string
      and key of the value; a dict whose keys collide after substitution
      keeps the first position and the last value, as `json.loads` does. */
  function VarJson(j: Json, vars: seq<Field>, fuel: nat): Result<Json>
    decreases j, 3
  {
    match j
    case JStr(s) =>
      var t :- Var(s, vars, fuel);
      Ok(JStr(t))
    case JList(items) =>
      var xs :- VarItems(items, vars, fuel);
      Ok(JList(xs))
    case JObj(fields) =>
      var fs :- VarObj(fields, vars, fuel);
      Ok(JObj(fs))
    case _ => Ok(j)
  }

  /** A dict: its keys and values substituted, then rebuilt. */
  function VarObj(fields: seq<Field>, vars: seq<Field>, fuel: nat): Result<seq<Field>>
    decreases fields, 2
  {
    var fs :- VarFields(fields, vars, fuel);
    Ok(AssignAll([], fs))
  }

  function VarItems(items: seq<Json>, vars: seq<Field>, fuel: nat): (r: Result<seq<Json>>)
    ensures r.Ok? ==> |r.value| == |items|
    decreases items, 1
  {
    if items == [] then Ok([])
    else
      var x :- VarJson(items[0], vars, fuel);
      var rest :- VarItems(items[1..], vars, fuel);
      Ok([x] + rest)
  }

  function VarFields(fields: seq<Field>, vars: seq<Field>, fuel: nat): (r: Result<seq<Field>>)
    ensures r.Ok? ==> |r.value| == |fields|
    decreases fields, 1
  {
    if fields == [] then Ok([])
    else
      var k :- Var(fields[0].key, vars, fuel);
      var v :- VarJson(fields[0].val, vars, fuel);
      var rest :- VarFields(fields[1..], vars, fuel);
      Ok([Field(k, v)] + rest)
  }

  /** Data without placeholders or conditionals comes back unchanged,
      whatever the variables. */
  lemma {:induction false} VarJsonPlain(j: Json, vars: seq<Field>, fuel: nat)
    requires WellFormed(j) && Plain(j)
    ensures VarJson(j, vars, fuel) == Ok(j)
    decreases j, 3
  {
    match j
    case JStr(s) =>
      NoTernaries(s);
      VarUnchanged(s, vars, fuel);
    case JList(items) =>
      VarItemsPlain(items, vars, fuel);
    case JObj(fields) =>
      VarObjPlain(fields, vars, fuel);
    case _ =>
  }

  lemma {:induction false} VarObjPlain(fields: seq<Field>, vars: seq<Field>, fuel: nat)
    requires UniqueKeys(fields)
    requires forall i :: 0 <= i < |fields| ==> PlainText(fields[i].key)
    requires forall i :: 0 <= i < |fields| ==> WellFormed(fields[i].val) && Plain(fields[i].val)
    ensures VarObj(fields, vars, fuel) == Ok(fields)
    decreases fields, 2
  {
    VarFieldsPlain(fields, vars, fuel);
    CopyDict(fields);
  }

  lemma {:induction false} VarItemsPlain(items: seq<Json>, vars: seq<Field>, fuel: nat)
    requires forall i :: 0 <= i < |items| ==> WellFormed(items[i]) && Plain(items[i])
    ensures VarItems(items, vars, fuel) == Ok(items)
    decreases items, 1
  {
    if items != [] {
      VarJsonPlain(items[0], vars, fuel);
      VarItemsPlain(items[1..], vars, fuel);
      assert [items[0]] + items[1..] == items;
    }
  }

  lemma {:induction false} VarFieldsPlain(fields: seq<Field>, vars: seq<Field>, fuel: nat)
    requires forall i :: 0 <= i < |fields| ==> PlainText(fields[i].key)
    requires forall i :: 0 <= i < |fields| ==> WellFormed(fields[i].val) && Plain(fields[i].val)
    ensures VarFields(fields, vars, fuel) == Ok(fields)
    decreases fields, 1
  {
    if fields != [] {
      var f := fields[0];
      NoTernaries(f.key);
      VarUnchanged(f.key, vars, fuel);
      VarJsonPlain(f.val, vars, fuel);
      VarFieldsPlain(fields[1..], vars, fuel);
      assert [Field(f.key, f.val)] + fields[1..] == fields;
    }
  }

  /** Assigning fields with new, distinct keys appends them in order. */
  lemma {:induction false} AssignAllFresh(acc: seq<Field>, es: seq<Field>)
    requires UniqueKeys(es)
    requires forall i :: 0 <= i < |es| ==> es[i].key !in FieldKeys(acc)
    ensures AssignAll(acc, es) == acc + es
    decreases |es|
  {
    if es == [] {
      assert acc + es == acc;
    } else {
      var e := es[0];
      Merge.AppendNew(acc, e.key, e.val);
      var acc' := acc + [e];
      assert FieldKeys(acc') == FieldKeys(acc) + [e.key];
      forall i | 0 <= i < |es[1..]|
        ensures es[1..][i].key !in FieldKeys(acc')
      {
        assert es[1..][i] == es[i + 1];
      }
      AssignAllFresh(acc', es[1..]);
      assert acc' + es[1..] == acc + es;
    }
  }

  /** `dict(d)` (and `{} |= d`) of a dict is the dict itself. */
  lemma CopyDict(fs: seq<Field>)
    requires UniqueKeys(fs)
    ensures AssignAll([], fs) == fs
  {
    assert FieldKeys([]) == [];
    AssignAllFresh([], fs);
    assert [] + fs == fs;
  }

  /** `Core.build_presets(vars)`: the preset table with the variables
      substituted, or the table itself when there are no variables. */
  function BuildPresets(presets: seq<Field>, vars: seq<Field>, fuel: nat): (r: Result<seq<Field>>)
    ensures vars == [] ==> r == Ok(presets)
  {
    if vars == [] then Ok(presets) else VarObj(presets, vars, fuel)
  }

  /** A preset table without placeholders or conditionals is the same
      with or without variables. */
  lemma BuildPresetsPlain(presets: seq<Field>, vars: seq<Field>, fuel: nat)
    requires WellFormed(JObj(presets)) && Plain(JObj(presets))
    ensures BuildPresets(presets, vars, fuel) == Ok(presets)
  {
    if vars != [] {
      VarObjPlain(presets, vars, fuel);
    }
  }

  // ---------------------------------------------------------------------
  // The steps of `deserialize`

  /** `if "type" not in data and "name" in data: data["type"] = "include"` */
  function DefaultType(d: seq<Field>): seq<Field> {
    if "type" !in FieldKeys(d) && "name" in FieldKeys(d) then Assign(d, "type", JStr("include"))
    else d
  }

  /** An include without a type becomes one of type `include`; nothing
      else changes. */
  lemma DefaultTypeLookup(d: seq<Field>, k: string)
    ensures Lookup(DefaultType(d), k) ==
              if k == "type" && "type" !in FieldKeys(d) && "name" in FieldKeys(d) then Some(JStr("include"))
              else Lookup(d, k)
  {
    AssignLookup(d, "type", JStr("include"), k);
  }

  /** Id namespacing: with a truthy parent id and an `id`, the id becomes
      `<parent>.<id>` and `base_id` keeps the original; concatenating a
      non-string id raises `TypeError`. */
  function Namespace(parentId: Option<string>, d: seq<Field>): (r: Result<seq<Field>>)
    ensures (parentId.None? || parentId.value == [] || "id" !in FieldKeys(d)) ==> r == Ok(d)
    ensures r.Err? ==> r.error == TypeError
  {
    if parentId.Some? && parentId.value != [] && "id" in FieldKeys(d) then
      match Lookup(d, "id").value
      case JStr(id) => Ok(Assign(Assign(d, "base_id", JStr(id)), "id", JStr(parentId.value + "." + id)))
      case _ => Err(TypeError)
    else Ok(d)
  }

  /** Under a parent with a full id, a string id is prefixed and its
      original value kept in `base_id`; the other keys are untouched. */
  lemma NamespacePrefixes(p: string, d: seq<Field>, id: string, k: string)
    requires p != [] && Lookup(d, "id") == Some(JStr(id))
    ensures Namespace(Some(p), d).Ok?
    ensures var n := Namespace(Some(p), d).value;
            && Lookup(n, "id") == Some(JStr(p + "." + id))
            && Lookup(n, "base_id") == Some(JStr(id))
            && (k != "id" && k != "base_id" ==> Lookup(n, k) == Lookup(d, k))
  {
    var b := Assign(d, "base_id", JStr(id));
    var n := Assign(b, "id", JStr(p + "." + id));
    NamespaceOf(p, d, id);
    AssignLookup(d, "base_id", JStr(id), k);
    AssignLookup(d, "base_id", JStr(id), "base_id");
    AssignLookup(b, "id", JStr(p + "." + id), k);
    AssignLookup(b, "id", JStr(p + "." + id), "id");
    AssignLookup(b, "id", JStr(p + "." + id), "base_id");
  }

  lemma NamespaceOf(p: string, d: seq<Field>, id: string)
    requires p != [] && Lookup(d, "id") == Some(JStr(id))
    ensures Namespace(Some(p), d) == Ok(Assign(Assign(d, "base_id", JStr(id)), "id", JStr(p + "." + id)))
  {
  }

  /** The variable scope: `{} |= dict(parent.vars)`, then `|= data["vars"]`
      when the data has variables (`Ior`: a dict, or pairs). */
  function ScopeVars(parentVars: seq<Field>, d: seq<Field>): (r: Result<seq<Field>>)
    ensures "vars" !in FieldKeys(d) ==> r.Ok?
    ensures r.Err? ==> r.error == TypeError || r.error == ValueError
  {
    var inherited := AssignAll([], AssignAll([], parentVars));
    if "vars" in FieldKeys(d) then Ior(inherited, Lookup(d, "vars").value)
    else Ok(inherited)
  }

  /** `"vars": []` or `"vars": ""` adds no variables: the scope is the
      parent's, as if the data had none. */
  lemma EmptyVarsInherit(parentVars: seq<Field>, d: seq<Field>)
    requires Lookup(d, "vars") == Some(JList([])) || Lookup(d, "vars") == Some(JStr([]))
    ensures ScopeVars(parentVars, d) == ScopeVars(parentVars, [])
  {
  }

  /** The shape's own variables win over the parent's. */
  lemma ScopeVarsLookup(parentVars: seq<Field>, d: seq<Field>, own: seq<Field>, k: string)
    requires UniqueKeys(parentVars) && UniqueKeys(own)
    requires Lookup(d, "vars") == Some(JObj(own))
    ensures ScopeVars(parentVars, d) ==
              Ok(AssignAll(parentVars, own))
    ensures Lookup(ScopeVars(parentVars, d).value, k) ==
              if k in FieldKeys(own) then Lookup(own, k) else Lookup(parentVars, k)
  {
    CopyDict(parentVars);
    CopyDict(parentVars);
    AssignAllLookup(parentVars, own, k);
  }

  /** `presets[name]`: a list or dict key is unhashable (`TypeError`); any
      other key that is not a preset name is a `KeyError`. */
  function PresetOf(presets: seq<Field>, key: Json): (r: Result<Json>)
    ensures r.Ok? <==> key.JStr? && key.s in FieldKeys(presets)
    ensures r.Ok? ==> Lookup(presets, key.s) == Some(r.value)
    ensures key.JStr? && key.s !in FieldKeys(presets) ==> r == Err(KeyError)
  {
    match key
    case JList(_) => Err(TypeError)
    case JObj(_) => Err(TypeError)
    case JStr(name) =>
      (match Lookup(presets, name)
       case None => Err(KeyError)
       case Some(p) => Ok(p))
    case _ => Err(KeyError)
  }

  /** `data |= presets[preset]` for each name in order. */
  function ApplyAll(d: seq<Field>, presets: seq<Field>, names: seq<Json>): Result<seq<Field>>
    decreases |names|
  {
    if names == [] then Ok(d)
    else
      var p :- PresetOf(presets, names[0]);
      var d' :- Ior(d, p);
      ApplyAll(d', presets, names[1..])
  }

  /** `preset`, then `presets` (read from the data after `preset`). */
  function ApplyPresets(d: seq<Field>, presets: seq<Field>): Result<seq<Field>> {
    var d1 :-
      if "preset" in FieldKeys(d) then
        var p :- PresetOf(presets, Lookup(d, "preset").value);
        Ior(d, p)
      else Ok(d);
    if "presets" in FieldKeys(d1) then
      var names :- Iterated(Lookup(d1, "presets").value);
      ApplyAll(d1, presets, names)
    else Ok(d1)
  }

  /** A preset overrides the shape's own keys, and the `preset` key stays
      unless the preset itself sets one. */
  lemma PresetOverrides(d: seq<Field>, presets: seq<Field>, name: string, p: seq<Field>, k: string)
    requires Lookup(d, "preset") == Some(JStr(name))
    requires Lookup(presets, name) == Some(JObj(p)) && UniqueKeys(p)
    requires "presets" !in FieldKeys(d) && "presets" !in FieldKeys(p)
    ensures ApplyPresets(d, presets).Ok?
    ensures Lookup(ApplyPresets(d, presets).value, k) ==
              if k in FieldKeys(p) then Lookup(p, k) else Lookup(d, k)
    ensures "preset" !in FieldKeys(p) ==> Lookup(ApplyPresets(d, presets).value, "preset") == Some(JStr(name))
  {
    AssignAllLookup(d, p, k);
    AssignAllLookup(d, p, "presets");
    AssignAllLookup(d, p, "preset");
  }

  /** Of the `presets` list, a later preset wins over an earlier one. */
  lemma LaterPresetWins(d: seq<Field>, presets: seq<Field>, n1: string, p1: seq<Field>, n2: string, p2: seq<Field>, k: string)
    requires Lookup(presets, n1) == Some(JObj(p1)) && UniqueKeys(p1)
    requires Lookup(presets, n2) == Some(JObj(p2)) && UniqueKeys(p2)
    ensures ApplyAll(d, presets, [JStr(n1), JStr(n2)]).Ok?
    ensures Lookup(ApplyAll(d, presets, [JStr(n1), JStr(n2)]).value, k) ==
              if k in FieldKeys(p2) then Lookup(p2, k)
              else if k in FieldKeys(p1) then Lookup(p1, k)
              else Lookup(d, k)
  {
    var names := [JStr(n1), JStr(n2)];
    assert names[1..] == [JStr(n2)];
    assert names[1..][1..] == [];
    var d1 := AssignAll(d, p1);
    var d2 := AssignAll(d1, p2);
    assert ApplyAll(d1, presets, [JStr(n2)]) == Ok(d2) by {
      assert PresetOf(presets, JStr(n2)) == Ok(JObj(p2));
      assert Ior(d1, JObj(p2)) == Ok(d2);
    }
    assert ApplyAll(d, presets, names) == ApplyAll(d1, presets, [JStr(n2)]) by {
      assert PresetOf(presets, JStr(n1)) == Ok(JObj(p1));
      assert Ior(d, JObj(p1)) == Ok(d1);
    }
    AssignAllLookup(d, p1, k);
    AssignAllLookup(AssignAll(d, p1), p2, k);
  }

  /** A preset that is an empty list changes nothing. */
  lemma EmptyPreset(d: seq<Field>, presets: seq<Field>, name: string)
    requires Lookup(d, "preset") == Some(JStr(name)) && Lookup(presets, name) == Some(JList([]))
    requires "presets" !in FieldKeys(d)
    ensures ApplyPresets(d, presets) == Ok(d)
  {
  }

  /** Naming a preset that does not exist is a `KeyError`. */
  lemma UnknownPreset(d: seq<Field>, presets: seq<Field>, name: string)
    requires Lookup(d, "preset") == Some(JStr(name)) && name !in FieldKeys(presets)
    ensures ApplyPresets(d, presets) == Err(KeyError)
  {
  }

  /** Steps 1 to 6 of `deserialize`: the default type, the id namespace,
      the variable scope, substitution (of the data and of the presets)
      when there are variables, then the presets. Data that is not a dict
      fails with `TypeError` here. */
  function PrepareOf(env: Env, parent: Parent, data: Json, fuel: nat): Result<seq<Field>> {
    if !data.JObj? then Err(TypeError)
    else
      var d0 := DefaultType(data.fields);
      var pid :- parent.fullid;
      var d1 :- Namespace(pid, d0);
      var vars :- ScopeVars(parent.vars, d1);
      var sub :- Substituted(env, d1, vars, fuel);
      ApplyPresets(sub.0, sub.1)
  }

  /** With variables, both the data and the presets are substituted. */
  function Substituted(env: Env, d: seq<Field>, vars: seq<Field>, fuel: nat): Result<(seq<Field>, seq<Field>)> {
    if vars == [] then Ok((d, env.presets))
    else
      var d' :- VarObj(d, vars, fuel);
      var presets :- BuildPresets(env.presets, vars, fuel);
      Ok((d', presets))
  }

  /** `deserialize` up to the constructor, step by step as the source
      updates `data`. */
  method Prepare(env: Env, parent: Parent, data: Json, fuel: nat) returns (r: Result<seq<Field>>)
    ensures r == PrepareOf(env, parent, data, fuel)
  {
    if !data.JObj? {
      return Err(TypeError);
    }
    var d := data.fields;
    if "type" !in FieldKeys(d) && "name" in FieldKeys(d) {
      d := Assign(d, "type", JStr("include"));
    }
    if parent.fullid.Err? {
      return Err(parent.fullid.error);
    }
    var pid := parent.fullid.value;
    if pid.Some? && pid.value != [] && "id" in FieldKeys(d) {
      var id := Lookup(d, "id").value;
      if !id.JStr? {
        return Err(TypeError);
      }
      d := Assign(d, "base_id", id);
      d := Assign(d, "id", JStr(pid.value + "." + id.s));
    }
    var scope := ScopeVars(parent.vars, d);
    if scope.Err? {
      return Err(scope.error);
    }
    var vars := scope.value;
    var presets := env.presets;
    if vars != [] {
      var j := VarObj(d, vars, fuel);
      if j.Err? {
        return Err(j.error);
      }
      d := j.value;
      var built := BuildPresets(env.presets, vars, fuel);
      if built.Err? {
        return Err(built.error);
      }
      presets := built.value;
    }
    r := PresetsStep(d, presets);
  }

  /** `data |= presets[data["preset"]]`, then the loop over
      `data["presets"]`. */
  method PresetsStep(data: seq<Field>, presets: seq<Field>) returns (r: Result<seq<Field>>)
    ensures r == ApplyPresets(data, presets)
  {
    var d := data;
    if "preset" in FieldKeys(d) {
      var p := PresetOf(presets, Lookup(d, "preset").value);
      if p.Err? {
        return Err(p.error);
      }
      var merged := Ior(d, p.value);
      if merged.Err? {
        return Err(merged.error);
      }
      d := merged.value;
    }
    if "presets" in FieldKeys(d) {
      var names := Iterated(Lookup(d, "presets").value);
      if names.Err? {
        return Err(names.error);
      }
      r := PresetLoop(d, presets, names.value);
    } else {
      r := Ok(d);
    }
  }

  /** `for preset in data["presets"]: data |= presets[preset]` */
  method PresetLoop(data: seq<Field>, presets: seq<Field>, names: seq<Json>) returns (r: Result<seq<Field>>)
    ensures r == ApplyAll(data, presets, names)
  {
    var d := data;
    var i := 0;
    while i < |names|
      invariant 0 <= i <= |names|
      invariant ApplyAll(data, presets, names) == ApplyAll(d, presets, names[i..])
    {
      assert names[i..][1..] == names[i + 1..];
      var p := PresetOf(presets, names[i]);
      if p.Err? {
        return Err(p.error);
      }
      var merged := Ior(d, p.value);
      if merged.Err? {
        return Err(merged.error);
      }
      d := merged.value;
      i := i + 1;
    }
    return Ok(d);
  }

  // ---------------------------------------------------------------------
  // Fields, as the constructors read them

  /** An optional string field: absent or `null` is `None` (here `""`). A
      value of another type fails validation (`ValueError`). */
  function OptStr(d: seq<Field>, k: string): Result<string> {
    match Lookup(d, k)
    case None => Ok([])
    case Some(JNull) => Ok([])
    case Some(JStr(s)) => Ok(s)
    case Some(_) => Err(ValueError)
  }

  function ReqStr(d: seq<Field>, k: string): Result<string> {
    match Lookup(d, k)
    case Some(JStr(s)) => Ok(s)
    case _ => Err(ValueError)
  }

  function OptNum(d: seq<Field>, k: string): Result<Option<real>> {
    match Lookup(d, k)
    case None => Ok(None)
    case Some(JNull) => Ok(None)
    case Some(JInt(i)) => Ok(Some(i as real))
    case Some(JFloat(x)) => Ok(Some(x))
    case Some(_) => Err(ValueError)
  }

  function ReqNum(d: seq<Field>, k: string): Result<real> {
    match Lookup(d, k)
    case Some(JInt(i)) => Ok(i as real)
    case Some(JFloat(x)) => Ok(x)
    case _ => Err(ValueError)
  }

  function OptInt(d: seq<Field>, k: string, default: int): Result<int> {
    match Lookup(d, k)
    case None => Ok(default)
    case Some(JInt(i)) => Ok(i)
    case Some(_) => Err(ValueError)
  }

  function OptDict(d: seq<Field>, k: string): Result<seq<Field>> {
    match Lookup(d, k)
    case None => Ok([])
    case Some(JObj(fs)) => Ok(fs)
    case Some(_) => Err(ValueError)
  }

  function OptLabelDir(d: seq<Field>): Result<Option<Enums.LabelDir>> {
    match Lookup(d, "label_dir")
    case None => Ok(None)
    case Some(JNull) => Ok(None)
    case Some(JStr(s)) =>
      (match Enums.ParseLabelDir(s)
       case Some(dir) => Ok(Some(dir))
       case None => Err(ValueError))
    case Some(_) => Err(ValueError)
  }

  /** `remap`: `pos` and `size`, when present, go through `splitxy`, which
      calls `split` and so fails with `AttributeError` on a non-string. */
  function XY(env: Env, j: Json): Result<V> {
    if j.JStr? then env.splitxy(j.s) else Err(AttributeError)
  }

  function Remap(env: Env, d: seq<Field>): Result<(Option<V>, Option<V>)> {
    var pos :- if "pos" in FieldKeys(d) then (var v :- XY(env, Lookup(d, "pos").value); Ok(Some(v))) else Ok(None);
    var size :- if "size" in FieldKeys(d) then (var v :- XY(env, Lookup(d, "size").value); Ok(Some(v))) else Ok(None);
    Ok((pos, size))
  }

  /** `ShapeType(data["type"])`: a missing type is a `KeyError`, an unknown
      one a `ValueError`. */
  function TypeField(d: seq<Field>): (r: Result<Enums.ShapeType>)
    ensures "type" !in FieldKeys(d) ==> r == Err(KeyError)
    ensures forall t :: Lookup(d, "type") == Some(JStr(Enums.ShapeTypeValue(t))) ==> r == Ok(t)
  {
    match Lookup(d, "type")
    case None => Err(KeyError)
    case Some(JStr(s)) =>
      (match Enums.ParseShapeType(s)
       case Some(t) => Ok(t)
       case None => Err(ValueError))
    case Some(_) => Err(ValueError)
  }

  /** The fields every shape has; `pos` is required. */
  function MetaOf(d: seq<Field>, pos: Option<V>): Result<Meta> {
    var id :- OptStr(d, "id");
    var name :- OptStr(d, "name");
    var suffix :- OptStr(d, "id_suffix");
    var baseId :- OptStr(d, "base_id");
    var dir :- OptLabelDir(d);
    var size :- OptNum(d, "label_size");
    if pos.None? then Err(ValueError)
    else
      Ok(Meta(id, name, suffix, if Lookup(d, "base_id").Some? && Lookup(d, "base_id").value.JStr? then Some(baseId) else None,
              pos.value, dir, size))
  }

  // ---------------------------------------------------------------------
  // Building shapes

  /** `Core.build_shapes(name, parent, pos)`: every entry of the shape file
      deserialized and moved by `pos`. A missing file (`load_shape` gives
      `None`) and a file that is not a list are `TypeError`s, except that
      an empty dict or string builds nothing. */
  function BuildShapes(env: Env, parent: Parent, name: string, pos: Option<V>, fuel: nat): Result<seq<Shape>>
    decreases fuel, 6
  {
    match Cache.Find(env.files, env.shapeDirs, name)
    case None => Err(TypeError)
    case Some(JList(items)) => BuildItems(env, parent, items, pos, fuel)
    case Some(x) => if (x.JObj? || x.JStr?) && !Truthy(x) then Ok([]) else Err(TypeError)
  }

  function BuildItems(env: Env, parent: Parent, items: seq<Json>, pos: Option<V>, fuel: nat): (r: Result<seq<Shape>>)
    ensures r.Ok? ==> |r.value| == |items|
    decreases fuel, 5, |items|
  {
    if items == [] then Ok([])
    else
      var s :- BuildShape(env, parent, items[0], pos, fuel);
      var rest :- BuildItems(env, parent, items[1..], pos, fuel);
      Ok([s] + rest)
  }

  /** `Core.build_shape(parent, data, pos)`; a `V` is always truthy. */
  function BuildShape(env: Env, parent: Parent, data: Json, pos: Option<V>, fuel: nat): Result<Shape>
    decreases fuel, 4
  {
    var s :- Deserialize(env, parent, data, fuel);
    Ok(if pos.Some? then Move(s, pos.value) else s)
  }

  /** `Shape.deserialize(core, parent, data)` */
  function Deserialize(env: Env, parent: Parent, data: Json, fuel: nat): Result<Shape>
    decreases fuel, 3
  {
    var d :- PrepareOf(env, parent, data, fuel);
    Construct(env, parent, d, fuel)
  }

  /** `remap`, `ShapeType(data["type"])` and the constructor of that type. */
  function Construct(env: Env, parent: Parent, d: seq<Field>, fuel: nat): Result<Shape>
    decreases fuel, 2
  {
    var xy :- Remap(env, d);
    var t :- TypeField(d);
    var meta :- MetaOf(d, xy.0);
    if t == Enums.Subshape then BuildGroup(env, parent.vars, d, meta, fuel)
    else Leaf(t, d, meta, xy.1)
  }

  /** The constructors of `Rect` (its `size` key is `size_v`), `Circle`
      and `Text`; a missing required field fails validation. */
  function Leaf(t: Enums.ShapeType, d: seq<Field>, meta: Meta, size: Option<V>): (r: Result<Shape>)
    requires t != Enums.Subshape
    ensures r.Ok? ==> r.value.meta == meta && !r.value.GroupShape?
  {
    match t
    case Rect => if size.None? then Err(ValueError) else Ok(RectShape(meta, size.value))
    case Circle =>
      var r :- OptNum(d, "r");
      var dm :- OptNum(d, "d");
      MakeCircle(meta, r, dm)
    case TextShape =>
      var text :- ReqStr(d, "text");
      var fontSize :- ReqNum(d, "font_size");
      Ok(TextShape(meta, text, fontSize))
  }

  /** Once the type is known and is not `include`, the shape is a leaf. */
  lemma ConstructLeaf(env: Env, parent: Parent, d: seq<Field>, fuel: nat)
    requires Remap(env, d).Ok? && TypeField(d).Ok? && TypeField(d).value != Enums.Subshape
    requires MetaOf(d, Remap(env, d).value.0).Ok?
    ensures Construct(env, parent, d, fuel) ==
              Leaf(TypeField(d).value, d, MetaOf(d, Remap(env, d).value.0).value, Remap(env, d).value.1)
  {
  }

  /** `ShapeGroup.__init__`: without a name nothing is built and the
      group's variables are its own; otherwise the variables are the
      parent's updated by its own, `J` is the repeat count, and the named
      shapes are built `repeat` times, then `I` and `J` are removed. */
  function BuildGroup(env: Env, parentVars: seq<Field>, d: seq<Field>, meta: Meta, fuel: nat): Result<Shape>
    decreases fuel, 1
  {
    var name :- ReqStr(d, "name");
    var repeat :- OptInt(d, "repeat", 1);
    var own :- OptDict(d, "vars");
    if name == [] then Ok(GroupShape(meta, repeat, own, []))
    else if fuel == 0 then Err(OutOfFuel)
    else
      var withJ := Assign(GroupScope(parentVars, own), "J", JInt(repeat));
      var shapes :- BuildCopies(env, meta, withJ, repeat, 0, fuel - 1);
      Ok(GroupShape(meta, repeat, FinalVars(withJ, repeat), shapes))
  }

  /** `self.vars = dict(parent.vars); self.vars |= vars` */
  function GroupScope(parentVars: seq<Field>, own: seq<Field>): seq<Field> {
    AssignAll(AssignAll([], parentVars), own)
  }

  /** The variables after the loop: `I` last set to `repeat - 1`, then
      `I` and `J` popped. */
  function FinalVars(withJ: seq<Field>, repeat: int): seq<Field> {
    Delete(Delete(if repeat > 0 then Assign(withJ, "I", JInt(repeat - 1)) else withJ, "I"), "J")
  }

  /** `for i in range(repeat): vars["I"] = i; shapes += build_shapes(...)`,
      from copy `i` on. The group, with its variables at that point, is
      the parent of every shape of the copy. */
  function BuildCopies(env: Env, meta: Meta, vars: seq<Field>, repeat: int, i: int, fuel: nat): Result<seq<Shape>>
    decreases fuel + 1, 0, repeat - i
  {
    if i >= repeat then Ok([])
    else
      var here :- BuildShapes(env, CopyParent(meta, vars, i), meta.name, Some(meta.pos), fuel);
      var rest :- BuildCopies(env, meta, vars, repeat, i + 1, fuel);
      Ok(here + rest)
  }

  /** The group as the parent of copy `i`. */
  function CopyParent(meta: Meta, vars: seq<Field>, i: int): Parent {
    var varsI := Assign(vars, "I", JInt(i));
    Parent(FullId(meta.id, meta.name, meta.idSuffix, Some(varsI)), varsI)
  }

  /** The group's variables: its own win over the parent's, and `I` and
      `J` are gone. */
  lemma {:induction false} GroupVars(parentVars: seq<Field>, own: seq<Field>, repeat: int, k: string)
    requires UniqueKeys(parentVars) && UniqueKeys(own)
    ensures var fv := FinalVars(Assign(GroupScope(parentVars, own), "J", JInt(repeat)), repeat);
            Lookup(fv, k) ==
              if k == "I" || k == "J" then None
              else if k in FieldKeys(own) then Lookup(own, k)
              else Lookup(parentVars, k)
  {
    CopyDict(parentVars);
    var scope := GroupScope(parentVars, own);
    AssignAllLookup(parentVars, own, k);
    AssignAllUnique(parentVars, own);
    var withJ := Assign(scope, "J", JInt(repeat));
    AssignUnique(scope, "J", JInt(repeat));
    AssignLookup(scope, "J", JInt(repeat), k);
    var last := if repeat > 0 then Assign(withJ, "I", JInt(repeat - 1)) else withJ;
    AssignUnique(withJ, "I", JInt(repeat - 1));
    AssignLookup(withJ, "I", JInt(repeat - 1), k);
    DeleteUnique(last, "I");
    DeleteLookup(last, "I", k);
    DeleteLookup(Delete(last, "I"), "J", k);
  }

  /** A group without a name builds nothing, whatever the fuel. */
  lemma UnnamedGroup(env: Env, parentVars: seq<Field>, d: seq<Field>, meta: Meta, fuel: nat)
    requires Lookup(d, "name") == Some(JStr([]))
    requires OptInt(d, "repeat", 1).Ok? && OptDict(d, "vars").Ok?
    ensures BuildGroup(env, parentVars, d, meta, fuel) ==
              Ok(GroupShape(meta, OptInt(d, "repeat", 1).value, OptDict(d, "vars").value, []))
  {
  }

  /** A repeat count of zero or less builds no children, and no file is
      needed for it. */
  lemma NoCopies(env: Env, parentVars: seq<Field>, d: seq<Field>, meta: Meta, name: string, fuel: nat)
    requires Lookup(d, "name") == Some(JStr(name)) && name != [] && fuel > 0
    requires Lookup(d, "repeat") == Some(JInt(0)) || Lookup(d, "repeat") == Some(JInt(-1))
    requires OptDict(d, "vars").Ok?
    ensures BuildGroup(env, parentVars, d, meta, fuel).Ok?
    ensures BuildGroup(env, parentVars, d, meta, fuel).value.shapes == []
  {
  }

  /** The repeat loop of `ShapeGroup.__init__` as the source runs it: the
      children of all copies, in order, and the variables afterwards. */
  method BuildRepeat(env: Env, meta: Meta, scope: seq<Field>, repeat: int, fuel: nat)
    returns (r: Result<(seq<Shape>, seq<Field>)>)
    ensures r == RepeatOf(env, meta, Assign(scope, "J", JInt(repeat)), repeat, fuel)
  {
    var withJ := Assign(scope, "J", JInt(repeat));
    var shapes, vars := CopyLoop(env, meta, withJ, repeat, fuel);
    if shapes.Err? {
      return Err(shapes.error);
    }
    assert repeat <= 0 ==> LoopVars(withJ, repeat) == withJ;
    vars := Delete(vars, "I");
    vars := Delete(vars, "J");
    return Ok((shapes.value, vars));
  }

  /** `for i in range(self.repeat)`: `I` set, then the copy built. */
  method CopyLoop(env: Env, meta: Meta, withJ: seq<Field>, repeat: int, fuel: nat)
    returns (r: Result<seq<Shape>>, vars: seq<Field>)
    ensures r == BuildCopies(env, meta, withJ, repeat, 0, fuel)
    ensures r.Ok? ==> vars == LoopVars(withJ, repeat)
  {
    vars := withJ;
    var shapes: seq<Shape> := [];
    PrefixedNil(BuildCopies(env, meta, withJ, repeat, 0, fuel));
    var n := if repeat > 0 then repeat else 0;
    for i := 0 to n
      invariant vars == LoopVars(withJ, i)
      invariant BuildCopies(env, meta, withJ, repeat, 0, fuel) == Prefixed(shapes, BuildCopies(env, meta, withJ, repeat, i, fuel))
    {
      NextVars(withJ, i);
      vars := Assign(vars, "I", JInt(i));
      var built := BuildShapes(env, Parent(FullId(meta.id, meta.name, meta.idSuffix, Some(vars)), vars), meta.name, Some(meta.pos), fuel);
      CopyNext(env, meta, withJ, repeat, i, fuel, shapes);
      if built.Err? {
        return Err(built.error), vars;
      }
      shapes := shapes + built.value;
    }
    assert shapes + [] == shapes;
    return Ok(shapes), vars;
  }

  /** The variables before copy `i`: `I` holds the previous index. */
  function LoopVars(withJ: seq<Field>, i: int): seq<Field> {
    if i > 0 then Assign(withJ, "I", JInt(i - 1)) else withJ
  }

  lemma NextVars(withJ: seq<Field>, i: int)
    requires i >= 0
    ensures Assign(LoopVars(withJ, i), "I", JInt(i)) == LoopVars(withJ, i + 1)
  {
    AssignTwice(withJ, "I", JInt(i - 1), JInt(i));
  }

  /** The children of all copies and the variables afterwards. */
  function RepeatOf(env: Env, meta: Meta, withJ: seq<Field>, repeat: int, fuel: nat): Result<(seq<Shape>, seq<Field>)> {
    var shapes :- BuildCopies(env, meta, withJ, repeat, 0, fuel);
    Ok((shapes, FinalVars(withJ, repeat)))
  }

  /** `xs` followed by the shapes of `r`, or the error of `r`. */
  function Prefixed(xs: seq<Shape>, r: Result<seq<Shape>>): Result<seq<Shape>> {
    match r
    case Ok(ys) => Ok(xs + ys)
    case Err(e) => Err(e)
  }

  lemma PrefixedNil(r: Result<seq<Shape>>)
    ensures Prefixed([], r) == r
  {
    if r.Ok? {
      assert [] + r.value == r.value;
    }
  }

  lemma PrefixedAppend(xs: seq<Shape>, ys: seq<Shape>, r: Result<seq<Shape>>)
    ensures Prefixed(xs, Prefixed(ys, r)) == Prefixed(xs + ys, r)
  {
    if r.Ok? {
      assert xs + (ys + r.value) == (xs + ys) + r.value;
    }
  }

  /** One turn of the copy loop: copy `i`'s shapes join the prefix, or
      its error is the error of all copies. */
  lemma CopyNext(env: Env, meta: Meta, withJ: seq<Field>, repeat: int, i: int, fuel: nat, shapes: seq<Shape>)
    requires 0 <= i < repeat
    requires BuildCopies(env, meta, withJ, repeat, 0, fuel) == Prefixed(shapes, BuildCopies(env, meta, withJ, repeat, i, fuel))
    ensures var here := BuildShapes(env, CopyParent(meta, withJ, i), meta.name, Some(meta.pos), fuel);
            && (here.Err? ==> BuildCopies(env, meta, withJ, repeat, 0, fuel) == Err(here.error))
            && (here.Ok? ==> BuildCopies(env, meta, withJ, repeat, 0, fuel) ==
                               Prefixed(shapes + here.value, BuildCopies(env, meta, withJ, repeat, i + 1, fuel)))
  {
    CopyStep(env, meta, withJ, repeat, i, fuel);
    var here := BuildShapes(env, CopyParent(meta, withJ, i), meta.name, Some(meta.pos), fuel);
    if here.Ok? {
      PrefixedAppend(shapes, here.value, BuildCopies(env, meta, withJ, repeat, i + 1, fuel));
    }
  }

  /** Copy `i` followed by the copies after it. */
  lemma CopyStep(env: Env, meta: Meta, vars: seq<Field>, repeat: int, i: int, fuel: nat)
    requires i < repeat
    ensures var here := BuildShapes(env, CopyParent(meta, vars, i), meta.name, Some(meta.pos), fuel);
            BuildCopies(env, meta, vars, repeat, i, fuel) ==
              if here.Err? then Err(here.error) else Prefixed(here.value, BuildCopies(env, meta, vars, repeat, i + 1, fuel))
  {
  }

  /** Setting a key twice is setting it once to the last value. */
  lemma {:induction false} AssignTwice(fs: seq<Field>, k: string, a: Json, b: Json)
    ensures Assign(Assign(fs, k, a), k, b) == Assign(fs, k, b)
  {
    if fs != [] && fs[0].key != k {
      AssignTwice(fs[1..], k, a, b);
      assert Assign(fs, k, a)[1..] == Assign(fs[1..], k, a);
    }
  }

  /** The children of a named group are the concatenated copies, so a
      copy's shapes follow those of the copy before. */
  lemma NamedGroup(env: Env, parentVars: seq<Field>, d: seq<Field>, meta: Meta, name: string, repeat: int, own: seq<Field>, fuel: nat)
    requires Lookup(d, "name") == Some(JStr(name)) && name != [] && fuel > 0
    requires OptInt(d, "repeat", 1) == Ok(repeat) && OptDict(d, "vars") == Ok(own)
    requires UniqueKeys(parentVars) && UniqueKeys(own)
    ensures var withJ := Assign(GroupScope(parentVars, own), "J", JInt(repeat));
            var g := BuildGroup(env, parentVars, d, meta, fuel);
            && (g.Ok? <==> BuildCopies(env, meta, withJ, repeat, 0, fuel - 1).Ok?)
            && (g.Ok? ==> g.value.shapes == BuildCopies(env, meta, withJ, repeat, 0, fuel - 1).value)
            && (g.Ok? ==> "I" !in FieldKeys(g.value.vars) && "J" !in FieldKeys(g.value.vars))
  {
    GroupVars(parentVars, own, repeat, "I");
    GroupVars(parentVars, own, repeat, "J");
  }

  // ---------------------------------------------------------------------
  // Properties of the whole of `deserialize`

  /** `deserialize` never sees a shape type it does not know: an unknown
      `type` string is a `ValueError`, once `pos` and `size` parse. */
  lemma UnknownType(env: Env, parent: Parent, d: seq<Field>, s: string, fuel: nat)
    requires Lookup(d, "type") == Some(JStr(s)) && Enums.ParseShapeType(s).None?
    requires Remap(env, d).Ok?
    ensures Construct(env, parent, d, fuel) == Err(ValueError)
  {
  }

  /** Without a type and a name there is nothing to build: `KeyError`. */
  lemma MissingType(env: Env, parent: Parent, d: seq<Field>, fuel: nat)
    requires "type" !in FieldKeys(d) && Remap(env, d).Ok?
    ensures Construct(env, parent, d, fuel) == Err(KeyError)
  {
  }

  /** A rectangle takes its box from its `pos` and its `size` (the alias
      of `size_v`): the width and height are the parsed size. */
  lemma RectFromData(env: Env, parent: Parent, d: seq<Field>, pos: V, size: V, meta: Meta, fuel: nat)
    requires TypeField(d) == Ok(Enums.Rect)
    requires Remap(env, d) == Ok((Some(pos), Some(size)))
    requires MetaOf(d, Some(pos)) == Ok(meta)
    ensures Construct(env, parent, d, fuel) == Ok(RectShape(meta, size))
    ensures BoxOf(RectShape(meta, size)) == Ok(Box(pos.x, pos.y, pos.x + size.x, pos.y + size.y))
  {
    ConstructLeaf(env, parent, d, fuel);
    RectBox(d, pos, size, meta);
  }

  lemma RectBox(d: seq<Field>, pos: V, size: V, meta: Meta)
    requires MetaOf(d, Some(pos)) == Ok(meta)
    ensures BoxOf(RectShape(meta, size)) == Ok(Box(pos.x, pos.y, pos.x + size.x, pos.y + size.y))
  {
    MetaPos(d, pos);
  }

  /** A shape is where its `pos` says. */
  lemma MetaPos(d: seq<Field>, pos: V)
    requires MetaOf(d, Some(pos)).Ok?
    ensures MetaOf(d, Some(pos)).value.pos == pos
  {
  }

  lemma RemapBoth(env: Env, d: seq<Field>, p: string, sz: string, pos: V, size: V)
    requires Lookup(d, "pos") == Some(JStr(p)) && env.splitxy(p) == Ok(pos)
    requires Lookup(d, "size") == Some(JStr(sz)) && env.splitxy(sz) == Ok(size)
    ensures Remap(env, d) == Ok((Some(pos), Some(size)))
  {
  }

  /** A text shape needs `text` and `font_size`. */
  lemma TextRequired(env: Env, parent: Parent, d: seq<Field>, fuel: nat)
    requires Lookup(d, "type") == Some(JStr("text"))
    requires Remap(env, d).Ok? && MetaOf(d, Remap(env, d).value.0).Ok?
    requires "text" !in FieldKeys(d) || "font_size" !in FieldKeys(d)
    ensures Construct(env, parent, d, fuel) == Err(ValueError)
  {
    assert TypeField(d) == Ok(Enums.TextShape);
    ConstructLeaf(env, parent, d, fuel);
  }
}
