/** `boardgen/mixins.py`: `HasVars.var` and `HasId.fullid`. A `None` id,
    name or id suffix is the empty string here: both are falsy, and
    `fullid` only tests truthiness. */
module Mixins {
  import opened Wrappers
  import opened JsonValue

  /** `HasVars.var(name)`: the variable's value, `None` when it is not set. */
  function GetVar(vars: seq<Field>, name: string): (r: Option<Json>)
    ensures r.Some? <==> name in FieldKeys(vars)
    ensures r.Some? ==> Field(name, r.value) in vars
    ensures UniqueKeys(vars) ==> forall v :: Field(name, v) in vars ==> r == Some(v)
  {
    LookupIn(vars, name);
    Lookup(vars, name)
  }

  /** `"." + id_suffix if id_suffix else ""` */
  function Suffix(idSuffix: string): string {
    if idSuffix == [] then [] else "." + idSuffix
  }

  /** `fullid`: the id, else the name, else (for objects with variables)
      the `NAME` variable, each followed by the suffix; `None` when there
      is none of them. `vars` is `None` for objects without variables. A
      `NAME` that is not a string cannot be added to the suffix. */
  function FullId(id: string, name: string, idSuffix: string, vars: Option<seq<Field>>): (r: Result<Option<string>>)
    ensures id != [] ==> r == Ok(Some(id + Suffix(idSuffix)))
    ensures id == [] && name != [] ==> r == Ok(Some(name + Suffix(idSuffix)))
    ensures id == [] && name == [] && vars.Some? && Lookup(vars.value, "NAME").Some? ==>
              match Lookup(vars.value, "NAME")
              case Some(JStr(n)) => r == Ok(Some(n + Suffix(idSuffix)))
              case _ => r == Err(TypeError)
    ensures r == Ok(None) <==> id == [] && name == [] && (vars.None? || "NAME" !in FieldKeys(vars.value))
    ensures r.Err? ==> r.error == TypeError && id == [] && name == []
  {
    if id != [] then Ok(Some(id + Suffix(idSuffix)))
    else if name != [] then Ok(Some(name + Suffix(idSuffix)))
    else if vars.Some? && "NAME" in FieldKeys(vars.value) then
      match GetVar(vars.value, "NAME")
      case Some(JStr(n)) => Ok(Some(n + Suffix(idSuffix)))
      case _ => Err(TypeError)
    else Ok(None)
  }

  /** A full id is one of the three sources followed by `"." + id_suffix`
      when there is a suffix: the suffix is always the last component. */
  lemma FullIdEndsWithSuffix(id: string, name: string, idSuffix: string, vars: Option<seq<Field>>)
    requires idSuffix != []
    requires FullId(id, name, idSuffix, vars).Ok? && FullId(id, name, idSuffix, vars).value.Some?
    ensures var f := FullId(id, name, idSuffix, vars).value.value;
            var base := FullId(id, name, [], vars).value.value;
            f == base + "." + idSuffix
  {
  }
}
