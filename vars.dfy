/** `var(s, vars)` of `boardgen/utils.py`: repeated `${KEY}` substitution
    followed by one pass that evaluates `<A:B:T:F>` conditionals.

    The substitution loop of the source need not terminate (a variable whose
    value contains its own placeholder grows the string on every pass), so
    the model counts passes with `fuel` and reports `OutOfFuel` when it runs
    out. */
module Vars {
  import opened Wrappers
  import opened Text
  import opened JsonValue

  /** `f"${{{key}}}"` */
  function Placeholder(key: string): (p: string)
    ensures |p| >= 3 && p[0] == '$' && p[1] == '{'
  {
    "${" + key + "}"
  }

  /** One pass of the `for key, value in vars.items()` loop: every variable,
      in the dict's order, has its placeholder replaced by `str(value)`. */
  function Pass(s: string, vars: seq<Field>): string
    decreases |vars|
  {
    if vars == [] then s
    else Pass(ReplaceAll(s, Placeholder(vars[0].key), PyStr(vars[0].val)), vars[1..])
  }

  /** The `while "${" in s` loop, with at most `fuel` passes. */
  function Substitute(s: string, vars: seq<Field>, fuel: nat): (r: Result<string>)
    ensures r.Ok? ==> !Contains(r.value, "${")
    ensures r.Err? ==> r.error in {ValueError, OutOfFuel}
    decreases fuel
  {
    if !Contains(s, "${") then Ok(s)
    else if fuel == 0 then Err(OutOfFuel)
    else
      var t := Pass(s, vars);
      if t == s then Err(ValueError) else Substitute(t, vars, fuel - 1)
  }

  /** A `<A:B:T:F>` conditional: T when A and B agree after stripping. */
  datatype Ternary = Ternary(a: string, b: string, t: string, f: string) {
    function Text(): string {
      "<" + Body()
    }

    /** The text after the opening `<`. */
    function Body(): string {
      a + ":" + b + ":" + t + ":" + f + ">"
    }

    function Value(): string {
      if Strip(a) == Strip(b) then t else f
    }
  }

  /** The characters a conditional's field may hold in this model. */
  predicate FieldChar(c: char) {
    c != ':' && c != '>' && c != '\n'
  }

  predicate ValidField(s: string) {
    s != [] && forall i :: 0 <= i < |s| ==> FieldChar(s[i])
  }

  predicate ValidTernary(m: Ternary) {
    ValidField(m.a) && ValidField(m.b) && ValidField(m.t) && ValidField(m.f)
  }

  /** Length of the longest prefix of field characters. */
  function FieldLen(s: string): (n: nat)
    ensures n <= |s|
    ensures forall i :: 0 <= i < n ==> FieldChar(s[i])
    ensures n < |s| ==> !FieldChar(s[n])
  {
    if s != [] && FieldChar(s[0]) then 1 + FieldLen(s[1..]) else 0
  }

  /** A non-empty field ended by `term`: the field and what follows `term`. */
  function FieldUntil(s: string, term: char): (r: Option<(string, string)>)
    ensures r.Some? ==> ValidField(r.value.0) && |r.value.1| < |s|
  {
    var n := FieldLen(s);
    if 0 < n < |s| && s[n] == term then Some((s[..n], s[n + 1..])) else None
  }

  /** A conditional starting at the head of `s`, with what follows it. */
  function MatchAt(s: string): (r: Option<(Ternary, string)>)
    ensures r.Some? ==> ValidTernary(r.value.0) && |r.value.1| < |s|
  {
    if s == [] || s[0] != '<' then None
    else
      match FieldUntil(s[1..], ':')
      case None => None
      case Some((a, r1)) =>
        match FieldUntil(r1, ':')
        case None => None
        case Some((b, r2)) =>
          match FieldUntil(r2, ':')
          case None => None
          case Some((t, r3)) =>
            match FieldUntil(r3, '>')
            case None => None
            case Some((f, r4)) => Some((Ternary(a, b, t, f), r4))
  }

  /** `re.findall(if_re, s)`: the conditionals of `s`, non-overlapping,
      left to right. */
  function FindTernaries(s: string): seq<Ternary>
    decreases |s|
  {
    if s == [] then []
    else match MatchAt(s)
      case Some((m, rest)) => [m] + FindTernaries(rest)
      case None => FindTernaries(s[1..])
  }

  /** The `for match in re.findall(...)` loop: each found conditional's text
      is replaced, wherever it occurs in the current string, by its value. */
  function EvalTernaries(s: string, ms: seq<Ternary>): string
    decreases |ms|
  {
    if ms == [] then s else EvalTernaries(ReplaceAll(s, ms[0].Text(), ms[0].Value()), ms[1..])
  }

  /** `var(s, vars)` */
  function Var(s: string, vars: seq<Field>, fuel: nat): Result<string> {
    var t :- Substitute(s, vars, fuel);
    Ok(EvalTernaries(t, FindTernaries(t)))
  }

  /** `var` as the source runs it: a `while` loop of passes, each a `for`
      loop over the variables, then a `for` loop over the conditionals. */
  method RunVar(s0: string, vars: seq<Field>, fuel: nat) returns (r: Result<string>)
    ensures r == Var(s0, vars, fuel)
  {
    var s := s0;
    var left: nat := fuel;
    while Contains(s, "${")
      invariant left <= fuel
      invariant Substitute(s, vars, left) == Substitute(s0, vars, fuel)
      decreases left
    {
      if left == 0 {
        return Err(OutOfFuel);
      }
      var prev := s;
      for i := 0 to |vars|
        invariant Pass(s, vars[i..]) == Pass(prev, vars)
      {
        assert vars[i..][1..] == vars[i + 1..];
        s := ReplaceAll(s, Placeholder(vars[i].key), PyStr(vars[i].val));
      }
      assert vars[|vars|..] == [];
      if s == prev {
        return Err(ValueError);
      }
      left := left - 1;
    }
    var ms := FindTernaries(s);
    var t := s;
    for i := 0 to |ms|
      invariant EvalTernaries(t, ms[i..]) == EvalTernaries(s, ms)
    {
      assert ms[i..][1..] == ms[i + 1..];
      t := ReplaceAll(t, ms[i].Text(), ms[i].Value());
    }
    assert ms[|ms|..] == [];
    return Ok(t);
  }

  /** Text without placeholders and without conditionals is returned as it
      is, whatever the variables and the fuel. */
  lemma VarUnchanged(s: string, vars: seq<Field>, fuel: nat)
    requires !Contains(s, "${") && FindTernaries(s) == []
    ensures Var(s, vars, fuel) == Ok(s)
  {
  }

  /** A pass in which no variable's placeholder occurs changes nothing. */
  lemma {:induction false} PassAbsent(s: string, vars: seq<Field>)
    requires forall i :: 0 <= i < |vars| ==> !Contains(s, Placeholder(vars[i].key))
    ensures Pass(s, vars) == s
    decreases |vars|
  {
    if vars != [] {
      ReplaceAbsent(s, Placeholder(vars[0].key), PyStr(vars[0].val));
      PassAbsent(s, vars[1..]);
    }
  }

  /** When `${` is present but no variable's placeholder occurs, the pass
      makes no progress and `var` raises `ValueError` (a missing variable). */
  lemma MissingVariable(s: string, vars: seq<Field>, fuel: nat)
    requires Contains(s, "${") && fuel > 0
    requires forall i :: 0 <= i < |vars| ==> !Contains(s, Placeholder(vars[i].key))
    ensures Var(s, vars, fuel) == Err(ValueError)
  {
    PassAbsent(s, vars);
  }

  /** A variable defined as its own placeholder, `A = "${A}"`, is reported
      as missing. */
  lemma SelfReference(fuel: nat)
    requires fuel > 0
    ensures Var("${A}", [Field("A", JStr("${A}"))], fuel) == Err(ValueError)
  {
    ReplaceSelf("${A}", "${A}");
    assert Occurs("${A}", "${", 0);
    ContainsAt("${A}", "${");
  }

  function Grown(n: nat): string {
    Repeat('x', n) + "${A}"
  }

  const Growing: seq<Field> := [Field("A", JStr("x${A}"))]

  /** One pass over `Growing` adds one `x`. */
  lemma GrowingPass(n: nat)
    ensures Contains(Grown(n), "${")
    ensures Pass(Grown(n), Growing) == Grown(n + 1)
  {
    GrownContains(n);
    GrowingIsReplace(Grown(n));
    GrownReplace(n);
  }

  lemma GrownContains(n: nat)
    ensures Contains(Grown(n), "${")
  {
    var s := Grown(n);
    assert s[n..n + 2] == "${";
    assert Occurs(s, "${", n);
    ContainsAt(s, "${");
  }

  lemma GrowingIsReplace(s: string)
    ensures Pass(s, Growing) == ReplaceAll(s, "${A}", "x${A}")
  {
    assert Placeholder("A") == "${A}";
  }

  lemma GrownReplace(n: nat)
    ensures ReplaceAll(Grown(n), "${A}", "x${A}") == Grown(n + 1)
  {
    var xs := Repeat('x', n);
    ReplaceAtEnd(xs, "${A}", "x${A}");
    assert Repeat('x', n + 1) == xs + ['x'];
    assert xs + "x${A}" == xs + ['x'] + "${A}";
  }

  lemma {:induction false} GrowingSubstitute(n: nat, fuel: nat)
    ensures Substitute(Grown(n), Growing, fuel) == Err(OutOfFuel)
    decreases fuel
  {
    GrowingPass(n);
    if fuel > 0 {
      assert |Grown(n + 1)| == |Grown(n)| + 1;
      GrowingSubstitute(n + 1, fuel - 1);
    }
  }

  /** `A = "x${A}"` grows by one `x` on every pass: from `x…x${A}` no
      number of passes reaches a string without `${`, so the source loops
      forever and the model runs out of fuel for every fuel. */
  lemma GrowingVariable(n: nat, fuel: nat)
    ensures Var(Repeat('x', n) + "${A}", [Field("A", JStr("x${A}"))], fuel) == Err(OutOfFuel)
  {
    GrowingSubstitute(n, fuel);
  }

  lemma {:induction false} FieldOf(f: string, term: char, rest: string)
    requires ValidField(f) && !FieldChar(term)
    ensures FieldUntil(f + [term] + rest, term) == Some((f, rest))
  {
    FieldLenOf(f, [term] + rest);
    assert f + [term] + rest == f + ([term] + rest);
    assert (f + [term] + rest)[..|f|] == f;
    assert (f + [term] + rest)[|f| + 1..] == rest;
  }

  lemma {:induction false} FieldLenOf(f: string, rest: string)
    requires forall i :: 0 <= i < |f| ==> FieldChar(f[i])
    requires rest != [] && !FieldChar(rest[0])
    ensures FieldLen(f + rest) == |f|
  {
    if f != [] {
      FieldLenOf(f[1..], rest);
      assert (f + rest)[1..] == f[1..] + rest;
    }
  }

  /** A conditional's own text is recognised, with the text after it left. */
  lemma MatchOf(m: Ternary, rest: string)
    requires ValidTernary(m)
    ensures MatchAt(m.Text() + rest) == Some((m, rest))
  {
    var s := m.Text() + rest;
    var r3 := m.f + ">" + rest;
    var r2 := m.t + ":" + r3;
    var r1 := m.b + ":" + r2;
    assert s[1..] == m.Body() + rest;
    assert m.Body() + rest == m.a + [':'] + r1;
    FieldOf(m.a, ':', r1);
    assert r1 == m.b + [':'] + r2;
    FieldOf(m.b, ':', r2);
    assert r2 == m.t + [':'] + r3;
    FieldOf(m.t, ':', r3);
    assert r3 == m.f + ['>'] + rest;
    FieldOf(m.f, '>', rest);
  }

  /** Text without `<` holds no conditional. */
  lemma {:induction false} NoTernaries(s: string)
    requires '<' !in s
    ensures FindTernaries(s) == []
    decreases |s|
  {
    if s != [] {
      NoTernaries(s[1..]);
    }
  }

  /** Text without `<` before a conditional is skipped by the scan. */
  lemma {:induction false} TernariesAfterPrefix(pre: string, s: string)
    requires '<' !in pre
    ensures FindTernaries(pre + s) == FindTernaries(s)
    decreases |pre|
  {
    if pre != [] {
      assert (pre + s)[0] == pre[0];
      assert (pre + s)[1..] == pre[1..] + s;
      TernariesAfterPrefix(pre[1..], s);
    } else {
      assert pre + s == s;
    }
  }

  /** A conditional in text that has no other conditional and no placeholder
      is replaced by its T field when its A and B fields agree after
      stripping, and by its F field otherwise; the text around it stays. */
  lemma TernaryInText(pre: string, m: Ternary, rest: string, vars: seq<Field>, fuel: nat)
    requires ValidTernary(m)
    requires !Contains(pre + m.Text() + rest, "${")
    requires '<' !in pre
    requires '<' !in rest
    ensures Var(pre + m.Text() + rest, vars, fuel) ==
            Ok(pre + (if Strip(m.a) == Strip(m.b) then m.t else m.f) + rest)
  {
    var s := pre + m.Text() + rest;
    FindOne(pre, m, rest);
    EvalOne(pre, m, rest);
    assert Substitute(s, vars, fuel) == Ok(s);
  }

  lemma FindOne(pre: string, m: Ternary, rest: string)
    requires ValidTernary(m)
    requires '<' !in pre
    requires '<' !in rest
    ensures FindTernaries(pre + m.Text() + rest) == [m]
  {
    var t := m.Text();
    assert pre + t + rest == pre + (t + rest);
    TernariesAfterPrefix(pre, t + rest);
    MatchOf(m, rest);
    NoTernaries(rest);
    assert FindTernaries(t + rest) == [m] + FindTernaries(rest);
  }

  lemma EvalOne(pre: string, m: Ternary, rest: string)
    requires '<' !in pre && '<' !in rest
    ensures EvalTernaries(pre + m.Text() + rest, [m]) == pre + m.Value() + rest
  {
    var t := m.Text();
    assert t[0] == '<';
    ContainsFirstChar(rest, t);
    ReplaceOnce(pre, t, rest, m.Value());
  }

  lemma EmptyAppend(s: string)
    ensures [] + s == s && s + [] == s
  {
  }

  /** Conditionals are evaluated once and not rescanned: when a conditional
      yields `<` and the text after it completes a second conditional, that
      second one stays in the result unevaluated. */
  lemma NoRescan(m1: Ternary, m2: Ternary, vars: seq<Field>, fuel: nat)
    requires ValidTernary(m1) && ValidTernary(m2)
    requires m1.t == "<" && Strip(m1.a) == Strip(m1.b)
    requires '<' !in m2.Body()
    requires !Contains(m1.Text() + m2.Body(), "${")
    ensures Var(m1.Text() + m2.Body(), vars, fuel) == Ok(m2.Text())
    ensures FindTernaries(m2.Text()) == [m2]
  {
    EmptyAppend(m1.Text());
    EmptyAppend("<");
    EmptyAppend(m2.Text());
    TernaryInText([], m1, m2.Body(), vars, fuel);
    FindOne([], m2, []);
  }

  lemma DollarBrace(rest: string)
    ensures "$" + "{" + rest == "${" + rest
    ensures Contains("${" + rest, "${")
  {
    assert ("${" + rest)[..2] == "${";
  }

  /** A conditional can produce `${`: substitution happens before the
      conditionals, so the result of `var` may still hold a placeholder. */
  lemma PlaceholderFromTernary(m: Ternary, rest: string, vars: seq<Field>, fuel: nat)
    requires ValidTernary(m) && m.t == "{" && Strip(m.a) == Strip(m.b)
    requires '<' !in rest
    requires !Contains("$" + m.Text() + rest, "${")
    ensures Var("$" + m.Text() + rest, vars, fuel) == Ok("${" + rest)
    ensures Contains("${" + rest, "${")
  {
    TernaryInText("$", m, rest, vars, fuel);
    DollarBrace(rest);
  }
}
