/** The pinout pass of `Core.get_board` (`boardgen/core/core.py`), on the
    raw manifest before it becomes a `Board`: every pin's roles get the IC
    pin map entry of their `IC` role, then an `ARD` role is split into
    `ARD_D` and `ARD_A`. The source updates each pin's dict in place; here
    each step returns the new dict. */
module Pinout {
  import opened Wrappers
  import opened Text
  import opened JsonValue

  // ---------------------------------------------------------------------
  // The IC pin map

  /** `str(roles.get("IC", None))` */
  function IcKey(roles: seq<Field>): string {
    PyStr(match Lookup(roles, "IC") case Some(v) => v case None => JNull)
  }

  /** `if ic_pins and ic_pin in ic_pins: roles |= ic_pins[ic_pin]`. `in`
      looks at the keys of a dict, the items of a list and the substrings
      of a string; indexing a list or a string with a string and `in` on a
      number are `TypeError`s. The entry is merged by `Ior`, so a list of
      pairs merges too and `[]` changes nothing. */
  function IcMerge(roles: seq<Field>, ic: Json): (r: Result<seq<Field>>)
    ensures !Truthy(ic) ==> r == Ok(roles)
    ensures ic.JObj? && IcKey(roles) !in FieldKeys(ic.fields) ==> r == Ok(roles)
    ensures ic.JObj? && Lookup(ic.fields, IcKey(roles)) == Some(JList([])) ==> r == Ok(roles)
  {
    var key := IcKey(roles);
    if !Truthy(ic) then Ok(roles)
    else
      match ic
      case JObj(pins) =>
        (match Lookup(pins, key)
         case None => Ok(roles)
         case Some(entry) => Ior(roles, entry))
      case JList(items) => if JStr(key) in items then Err(TypeError) else Ok(roles)
      case JStr(s) => if Contains(s, key) then Err(TypeError) else Ok(roles)
      case _ => Err(TypeError)
  }

  /** The IC map's entry for the pin overrides the pin's own roles; the
      roles it does not name keep their values. */
  lemma IcEntryOverrides(roles: seq<Field>, pins: seq<Field>, entry: seq<Field>, k: string)
    requires pins != [] && Lookup(pins, IcKey(roles)) == Some(JObj(entry))
    requires UniqueKeys(entry)
    ensures IcMerge(roles, JObj(pins)).Ok?
    ensures Lookup(IcMerge(roles, JObj(pins)).value, k) ==
            if k in FieldKeys(entry) then Lookup(entry, k) else Lookup(roles, k)
  {
    var key := IcKey(roles);
    assert Truthy(JObj(pins));
    assert Lookup(pins, key) == Some(JObj(entry));
    var merged := AssignAll(roles, entry);
    assert IcMerge(roles, JObj(pins)) == Ok(merged);
    AssignAllLookup(roles, entry, k);
  }

  // ---------------------------------------------------------------------
  // Splitting ARD

  /** `function[0]`: the first character of a string, the first item of a
      list; a dict has no key `0`, and the other values cannot be
      indexed. */
  function Head(f: Json): (r: Result<Json>)
    ensures r.Ok? <==> (f.JStr? && f.s != []) || (f.JList? && f.items != [])
  {
    match f
    case JStr(s) => if s == [] then Err(IndexError) else Ok(JStr([s[0]]))
    case JList(items) => if items == [] then Err(IndexError) else Ok(items[0])
    case JObj(_) => Err(KeyError)
    case _ => Err(TypeError)
  }

  /** The `ARD` value as a list: a list is itself, anything else becomes
      the one-element list of its `str`. */
  function ArdValues(v: Json): (fs: seq<Json>)
    ensures !v.JList? ==> fs == [JStr(PyStr(v))]
  {
    if v.JList? then v.items else [JStr(PyStr(v))]
  }

  /** The `match function[0]` loop: the values whose first element is `"D"`
      and those whose first element is `"A"`, in order; the first value
      that cannot be indexed stops it. */
  function Classify(fs: seq<Json>): Result<(seq<Json>, seq<Json>)>
    decreases |fs|
  {
    if fs == [] then Ok(([], []))
    else
      var init :- Classify(fs[..|fs| - 1]);
      var h :- Head(fs[|fs| - 1]);
      var f := fs[|fs| - 1];
      Ok((if h == JStr("D") then init.0 + [f] else init.0,
          if h == JStr("A") then init.1 + [f] else init.1))
  }

  /** The classification fails exactly when some value has no first
      element, and then with the error of the first such value. */
  lemma {:induction false} ClassifyFails(fs: seq<Json>)
    ensures Classify(fs).Ok? <==> forall i :: 0 <= i < |fs| ==> Head(fs[i]).Ok?
    ensures Classify(fs).Err? ==>
              exists i :: 0 <= i < |fs| && Head(fs[i]).Err? && Classify(fs).error == Head(fs[i]).error &&
                          forall j :: 0 <= j < i ==> Head(fs[j]).Ok?
    decreases |fs|
  {
    if fs != [] {
      var init := fs[..|fs| - 1];
      ClassifyFails(init);
      assert forall i :: 0 <= i < |init| ==> init[i] == fs[i];
      if Classify(init).Err? {
        var i :| 0 <= i < |init| && Head(init[i]).Err? && Classify(init).error == Head(init[i]).error &&
                 forall j :: 0 <= j < i ==> Head(init[j]).Ok?;
        assert Head(fs[i]).Err?;
      }
    }
  }

  /** A value goes to the digital list exactly when its first element is
      `"D"`, and to the analog list exactly when it is `"A"`. */
  lemma {:induction false} ClassifyMembers(fs: seq<Json>, x: Json)
    requires Classify(fs).Ok?
    ensures x in Classify(fs).value.0 <==> x in fs && Head(x) == Ok(JStr("D"))
    ensures x in Classify(fs).value.1 <==> x in fs && Head(x) == Ok(JStr("A"))
    decreases |fs|
  {
    if fs != [] {
      var init := fs[..|fs| - 1];
      var f := fs[|fs| - 1];
      ClassifyMembers(init, x);
      var ci := Classify(init).value;
      var h := Head(f).value;
      assert Classify(fs).value == (if h == JStr("D") then ci.0 + [f] else ci.0, if h == JStr("A") then ci.1 + [f] else ci.1);
      assert fs == init + [f];
      assert x in fs <==> x in init || x == f;
    }
  }

  /** Two values whose first element is `"D"` (or two with `"A"`) give a
      list of at least two. */
  lemma {:induction false} ClassifyTwo(fs: seq<Json>, i: nat, j: nat, c: string)
    requires Classify(fs).Ok? && i < j < |fs| && (c == "D" || c == "A")
    requires Head(fs[i]) == Ok(JStr(c)) && Head(fs[j]) == Ok(JStr(c))
    ensures |if c == "D" then Classify(fs).value.0 else Classify(fs).value.1| >= 2
    decreases |fs|
  {
    var init := fs[..|fs| - 1];
    var one := if c == "D" then Classify(init).value.0 else Classify(init).value.1;
    if j < |fs| - 1 {
      assert init[i] == fs[i] && init[j] == fs[j];
      ClassifyTwo(init, i, j, c);
    } else {
      assert init[i] == fs[i];
      ClassifyMembers(init, fs[i]);
      assert one != [];
    }
  }

  /** The `ARD` branch: at most one digital and one analog value, which
      become `ARD_D` and `ARD_A`; `ARD` itself is dropped. */
  function SplitOf(roles: seq<Field>, v: Json): Result<seq<Field>> {
    var da :- Classify(ArdValues(v));
    var (digital, analog) := da;
    if |digital| > 1 || |analog| > 1 then Err(ValueError)
    else Ok(Rewrite(roles, digital, analog))
  }

  /** `roles["ARD_D"] = digital[0]` when there is a digital value, the same
      for analog, then `roles.pop("ARD", None)`. */
  function Rewrite(roles: seq<Field>, digital: seq<Json>, analog: seq<Json>): seq<Field> {
    var r1 := if digital != [] then Assign(roles, "ARD_D", digital[0]) else roles;
    var r2 := if analog != [] then Assign(r1, "ARD_A", analog[0]) else r1;
    Delete(r2, "ARD")
  }

  lemma RewriteLookup(roles: seq<Field>, digital: seq<Json>, analog: seq<Json>, k: string)
    requires UniqueKeys(roles)
    ensures Lookup(Rewrite(roles, digital, analog), k) ==
            if k == "ARD" then None
            else if k == "ARD_A" && analog != [] then Some(analog[0])
            else if k == "ARD_D" && digital != [] then Some(digital[0])
            else Lookup(roles, k)
  {
    var r1 := if digital != [] then Assign(roles, "ARD_D", digital[0]) else roles;
    var r2 := if analog != [] then Assign(r1, "ARD_A", analog[0]) else r1;
    if digital != [] {
      AssignUnique(roles, "ARD_D", digital[0]);
      AssignLookup(roles, "ARD_D", digital[0], k);
    }
    if analog != [] {
      AssignUnique(r1, "ARD_A", analog[0]);
      AssignLookup(r1, "ARD_A", analog[0], k);
    }
    DeleteLookup(r2, "ARD", k);
  }

  /** The roles after the loop over `dict(roles).items()`: only the `ARD`
      key does anything. */
  function ArdOf(roles: seq<Field>): (r: Result<seq<Field>>)
    ensures "ARD" !in FieldKeys(roles) ==> r == Ok(roles)
  {
    match Lookup(roles, "ARD")
    case None => Ok(roles)
    case Some(v) => SplitOf(roles, v)
  }

  /** After the split `ARD` is gone, `ARD_D` and `ARD_A` hold the digital
      and the analog value when there is one (and keep what they had when
      there is none), and every other role is untouched. */
  lemma ArdSplit(roles: seq<Field>, k: string)
    requires UniqueKeys(roles) && "ARD" in FieldKeys(roles) && ArdOf(roles).Ok?
    ensures var da := Classify(ArdValues(Lookup(roles, "ARD").value)).value;
            var r := ArdOf(roles).value;
            && |da.0| <= 1 && |da.1| <= 1
            && "ARD" !in FieldKeys(r)
            && Lookup(r, "ARD_D") == (if da.0 != [] then Some(da.0[0]) else Lookup(roles, "ARD_D"))
            && Lookup(r, "ARD_A") == (if da.1 != [] then Some(da.1[0]) else Lookup(roles, "ARD_A"))
            && (k != "ARD" && k != "ARD_D" && k != "ARD_A" ==> Lookup(r, k) == Lookup(roles, k))
  {
    var da := Classify(ArdValues(Lookup(roles, "ARD").value)).value;
    var r := Rewrite(roles, da.0, da.1);
    assert ArdOf(roles) == Ok(r);
    RewriteLookup(roles, da.0, da.1, "ARD");
    RewriteLookup(roles, da.0, da.1, "ARD_D");
    RewriteLookup(roles, da.0, da.1, "ARD_A");
    RewriteLookup(roles, da.0, da.1, k);
  }

  /** A single string value such as `"D5"` becomes `ARD_D` (or `ARD_A`
      for `"A1"`), in full. */
  lemma ArdString(roles: seq<Field>, s: string)
    requires UniqueKeys(roles) && Lookup(roles, "ARD") == Some(JStr(s)) && s != []
    ensures ArdOf(roles).Ok?
    ensures s[0] == 'D' ==> Lookup(ArdOf(roles).value, "ARD_D") == Some(JStr(s))
    ensures s[0] == 'A' ==> Lookup(ArdOf(roles).value, "ARD_A") == Some(JStr(s))
    ensures s[0] != 'D' && s[0] != 'A' ==> ArdOf(roles).value == Delete(roles, "ARD")
  {
    var fs := [JStr(s)];
    ClassifyOne(JStr(s));
    var da := Classify(fs).value;
    assert ArdValues(JStr(s)) == fs;
    assert |da.0| <= 1 && |da.1| <= 1;
    assert SplitOf(roles, JStr(s)) == Ok(Rewrite(roles, da.0, da.1));
    assert ArdOf(roles) == SplitOf(roles, JStr(s));
    RewriteLookup(roles, da.0, da.1, "ARD_D");
    RewriteLookup(roles, da.0, da.1, "ARD_A");
  }

  lemma ClassifyOne(x: Json)
    requires Head(x).Ok?
    ensures Classify([x]) == Ok((if Head(x).value == JStr("D") then [x] else [],
                                 if Head(x).value == JStr("A") then [x] else []))
  {
    assert [x][..0] == [];
    assert [] + [x] == [x];
  }

  /** Two digital (or two analog) values are a `ValueError`. */
  lemma TooManyArd(roles: seq<Field>, i: nat, j: nat, c: string)
    requires Lookup(roles, "ARD").Some? && Lookup(roles, "ARD").value.JList?
    requires var fs := Lookup(roles, "ARD").value.items;
             i < j < |fs| && (c == "D" || c == "A") && Head(fs[i]) == Ok(JStr(c)) && Head(fs[j]) == Ok(JStr(c))
    ensures ArdOf(roles).Err?
  {
    var fs := Lookup(roles, "ARD").value.items;
    if Classify(fs).Ok? {
      ClassifyTwo(fs, i, j, c);
    }
  }

  /** The inner loop: each value's first element decides its list. */
  method ClassifyLoop(fs: seq<Json>) returns (r: Result<(seq<Json>, seq<Json>)>)
    ensures r == Classify(fs)
  {
    var digital: seq<Json> := [];
    var analog: seq<Json> := [];
    var i := 0;
    assert fs[..0] == [];
    while i < |fs|
      invariant 0 <= i <= |fs|
      invariant Classify(fs[..i]) == Ok((digital, analog))
    {
      assert fs[..i + 1][..i] == fs[..i];
      var h := Head(fs[i]);
      if h.Err? {
        ClassifyPrefixFails(fs, i);
        return Err(h.error);
      }
      if h.value == JStr("D") {
        digital := digital + [fs[i]];
      }
      if h.value == JStr("A") {
        analog := analog + [fs[i]];
      }
      i := i + 1;
    }
    assert fs[..i] == fs;
    return Ok((digital, analog));
  }

  /** A failure at `i`, after a prefix that classifies, is the failure of
      the whole list. */
  lemma {:induction false} ClassifyPrefixFails(fs: seq<Json>, i: nat)
    requires i < |fs| && Classify(fs[..i]).Ok? && Head(fs[i]).Err?
    ensures Classify(fs) == Err(Head(fs[i]).error)
    decreases |fs|
  {
    var init := fs[..|fs| - 1];
    if i == |fs| - 1 {
      assert init == fs[..i];
    } else {
      assert init[..i] == fs[..i] && init[i] == fs[i];
      ClassifyPrefixFails(init, i);
    }
  }

  /** The loop over a snapshot of the roles: at the `ARD` key the values
      are classified and the roles rewritten. */
  method SplitArd(roles: seq<Field>) returns (r: Result<seq<Field>>)
    requires UniqueKeys(roles)
    ensures r == ArdOf(roles)
  {
    var current := roles;
    var i := 0;
    while i < |roles|
      invariant 0 <= i <= |roles|
      invariant "ARD" !in FieldKeys(roles[..i]) ==> current == roles
      invariant "ARD" in FieldKeys(roles[..i]) ==> Ok(current) == ArdOf(roles)
    {
      assert FieldKeys(roles[..i + 1]) == FieldKeys(roles[..i]) + [roles[i].key];
      if roles[i].key == "ARD" {
        LookupIn(roles, "ARD");
        assert Field("ARD", roles[i].val) in roles;
        assert "ARD" !in FieldKeys(roles[..i]);
        var values := ArdValues(roles[i].val);
        var da := ClassifyLoop(values);
        if da.Err? {
          return Err(da.error);
        }
        var digital := da.value.0;
        var analog := da.value.1;
        if digital != [] {
          if |digital| != 1 {
            return Err(ValueError);
          }
          current := Assign(current, "ARD_D", digital[0]);
        }
        if analog != [] {
          if |analog| != 1 {
            return Err(ValueError);
          }
          current := Assign(current, "ARD_A", analog[0]);
        }
        current := Delete(current, "ARD");
      }
      i := i + 1;
    }
    assert roles[..i] == roles;
    return Ok(current);
  }

  // ---------------------------------------------------------------------
  // The pinout

  /** One pin: its roles must be a dict (`roles.get`), get the IC map's
      entry, then have `ARD` split. */
  function PinRoles(roles: Json, ic: Json): (r: Result<seq<Field>>)
    ensures !roles.JObj? ==> r == Err(AttributeError)
  {
    if !roles.JObj? then Err(AttributeError)
    else
      var merged :- IcMerge(roles.fields, ic);
      ArdOf(merged)
  }

  /** Every pin of the pinout, in order, with its new roles; the first pin
      that fails stops it. */
  function PinoutOf(pinout: seq<Field>, ic: Json): (r: Result<seq<Field>>)
    decreases |pinout|
  {
    if pinout == [] then Ok([])
    else
      var init :- PinoutOf(pinout[..|pinout| - 1], ic);
      var last := pinout[|pinout| - 1];
      var roles :- PinRoles(last.val, ic);
      Ok(init + [Field(last.key, JObj(roles))])
  }

  /** Pin `i` of the result, or how many there are. */
  lemma {:induction false} PinoutPinAt(pinout: seq<Field>, ic: Json, i: nat)
    requires PinoutOf(pinout, ic).Ok?
    ensures |PinoutOf(pinout, ic).value| == |pinout|
    ensures i < |pinout| ==>
              && PinoutOf(pinout, ic).value[i].key == pinout[i].key
              && PinRoles(pinout[i].val, ic).Ok?
              && PinoutOf(pinout, ic).value[i].val == JObj(PinRoles(pinout[i].val, ic).value)
    decreases |pinout|
  {
    if pinout != [] {
      var init := pinout[..|pinout| - 1];
      PinoutPinAt(init, ic, i);
      if i < |init| {
        assert init[i] == pinout[i];
        assert PinoutOf(pinout, ic).value[i] == PinoutOf(init, ic).value[i];
      }
    }
  }

  /** The pins keep their names and their order; each one's roles are
      that pin's `PinRoles`. */
  lemma PinoutPins(pinout: seq<Field>, ic: Json)
    requires PinoutOf(pinout, ic).Ok?
    ensures var r := PinoutOf(pinout, ic).value;
            && FieldKeys(r) == FieldKeys(pinout)
            && forall i :: 0 <= i < |r| ==> PinRoles(pinout[i].val, ic).Ok? && r[i].val == JObj(PinRoles(pinout[i].val, ic).value)
  {
    PinoutPinAt(pinout, ic, 0);
    var r := PinoutOf(pinout, ic).value;
    forall i | 0 <= i < |r|
      ensures FieldKeys(r)[i] == FieldKeys(pinout)[i]
      ensures PinRoles(pinout[i].val, ic).Ok? && r[i].val == JObj(PinRoles(pinout[i].val, ic).value)
    {
      PinoutPinAt(pinout, ic, i);
    }
  }

  /** `get_board`'s pinout step: nothing happens without a truthy `pcb` or
      a truthy `pinout`; either one that is not a dict has no `get` or no
      `values`. */
  function PcbPinout(pcb: Json): (r: Result<(seq<Field>, Json)>)
    ensures r.Ok? && r.value.0 != [] ==> pcb.JObj? && Lookup(pcb.fields, "pinout") == Some(JObj(r.value.0))
  {
    if !Truthy(pcb) then Ok(([], JNull))
    else if !pcb.JObj? then Err(AttributeError)
    else
      var pinout := match Lookup(pcb.fields, "pinout") case Some(p) => p case None => JNull;
      var ic := match Lookup(pcb.fields, "ic") case Some(p) => p case None => JNull;
      if !Truthy(pinout) then Ok(([], ic))
      else if !pinout.JObj? then Err(AttributeError)
      else Ok((pinout.fields, ic))
  }

  /** The loop over `pinout.values()`. */
  method ProcessPinout(pinout: seq<Field>, ic: Json) returns (r: Result<seq<Field>>)
    requires forall i :: 0 <= i < |pinout| ==> WellFormed(pinout[i].val)
    ensures r == PinoutOf(pinout, ic)
  {
    var done: seq<Field> := [];
    assert pinout[..0] == [];
    for i := 0 to |pinout|
      invariant PinoutOf(pinout[..i], ic) == Ok(done)
    {
      var roles := pinout[i].val;
      assert WellFormed(roles);
      PinRolesOf(roles, ic);
      if !roles.JObj? {
        PinoutPrefixFails(pinout, ic, i);
        return Err(AttributeError);
      }
      var merged := IcMerge(roles.fields, ic);
      if merged.Err? {
        PinoutPrefixFails(pinout, ic, i);
        return Err(merged.error);
      }
      IcMergeUnique(roles.fields, ic);
      var split := SplitArd(merged.value);
      if split.Err? {
        PinoutPrefixFails(pinout, ic, i);
        return Err(split.error);
      }
      PinoutStep(pinout, ic, i, done);
      done := done + [Field(pinout[i].key, JObj(split.value))];
    }
    assert pinout[..|pinout|] == pinout;
    return Ok(done);
  }

  lemma PinRolesOf(roles: Json, ic: Json)
    ensures roles.JObj? ==>
              PinRoles(roles, ic) ==
              if IcMerge(roles.fields, ic).Err? then Err(IcMerge(roles.fields, ic).error)
              else ArdOf(IcMerge(roles.fields, ic).value)
  {
  }

  lemma PinoutStep(pinout: seq<Field>, ic: Json, i: nat, done: seq<Field>)
    requires i < |pinout| && PinoutOf(pinout[..i], ic) == Ok(done) && PinRoles(pinout[i].val, ic).Ok?
    ensures PinoutOf(pinout[..i + 1], ic) == Ok(done + [Field(pinout[i].key, JObj(PinRoles(pinout[i].val, ic).value))])
  {
    assert pinout[..i + 1][..i] == pinout[..i];
  }

  lemma IcMergeUnique(roles: seq<Field>, ic: Json)
    requires UniqueKeys(roles) && IcMerge(roles, ic).Ok?
    ensures UniqueKeys(IcMerge(roles, ic).value)
  {
    if Truthy(ic) && ic.JObj? {
      match Lookup(ic.fields, IcKey(roles))
      case None =>
      case Some(e) => IorUnique(roles, e);
    }
  }

  lemma {:induction false} PinoutPrefixFails(pinout: seq<Field>, ic: Json, i: nat)
    requires i < |pinout| && PinoutOf(pinout[..i], ic).Ok? && PinRoles(pinout[i].val, ic).Err?
    ensures PinoutOf(pinout, ic) == Err(PinRoles(pinout[i].val, ic).error)
    decreases |pinout|
  {
    var init := pinout[..|pinout| - 1];
    if i == |pinout| - 1 {
      assert init == pinout[..i];
    } else {
      assert init[..i] == pinout[..i] && init[i] == pinout[i];
      PinoutPrefixFails(init, ic, i);
    }
  }
}
