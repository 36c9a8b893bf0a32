/** Parsed JSON values as Python holds them after `json.load`: `None`,
    `bool`, `int`, `float` (an exact `real` here), `str`, `list` and an
    insertion-ordered `dict` with string keys. */
module JsonValue {
  import opened Wrappers
  import opened Text

  datatype Json =
    | JNull
    | JBool(b: bool)
    | JInt(i: int)
    | JFloat(r: real)
    | JStr(s: string)
    | JList(items: seq<Json>)
    | JObj(fields: seq<Field>)

  datatype Field = Field(key: string, val: Json)

  function FieldKeys(fs: seq<Field>): (ks: seq<string>)
    ensures |ks| == |fs| && forall i :: 0 <= i < |fs| ==> ks[i] == fs[i].key
  {
    seq(|fs|, i requires 0 <= i < |fs| => fs[i].key)
  }

  predicate UniqueKeys(fs: seq<Field>) {
    forall i, j :: 0 <= i < j < |fs| ==> fs[i].key != fs[j].key
  }

  /** Every dict in the value has unique keys, as every Python dict does. */
  predicate WellFormed(j: Json) {
    match j
    case JList(items) => forall i :: 0 <= i < |items| ==> WellFormed(items[i])
    case JObj(fields) =>
      UniqueKeys(fields) && forall i :: 0 <= i < |fields| ==> WellFormed(fields[i].val)
    case _ => true
  }

  /** `d.get(k)` for a dict's fields. */
  function Lookup(fs: seq<Field>, k: string): (r: Option<Json>)
    ensures r.Some? <==> k in FieldKeys(fs)
  {
    if fs == [] then None
    else if fs[0].key == k then Some(fs[0].val)
    else
      assert FieldKeys(fs) == [fs[0].key] + FieldKeys(fs[1..]);
      Lookup(fs[1..], k)
  }

  /** The value found is the value of a field of `fs`; with unique keys it
      is the only one. */
  lemma {:induction false} LookupIn(fs: seq<Field>, k: string)
    ensures Lookup(fs, k).Some? ==> Field(k, Lookup(fs, k).value) in fs
    ensures UniqueKeys(fs) ==> forall v :: Field(k, v) in fs ==> Lookup(fs, k) == Some(v)
  {
    if fs != [] {
      LookupIn(fs[1..], k);
      assert forall f :: f in fs[1..] ==> f in fs;
      if UniqueKeys(fs) {
        assert UniqueKeys(fs[1..]);
        if fs[0].key == k {
          forall v | Field(k, v) in fs ensures v == fs[0].val {
            var i :| 0 <= i < |fs| && fs[i] == Field(k, v);
            assert fs[i].key == k;
            assert i == 0;
          }
        } else {
          forall v | Field(k, v) in fs ensures Field(k, v) in fs[1..] {
            var i :| 0 <= i < |fs| && fs[i] == Field(k, v);
            assert fs[1..][i - 1] == fs[i];
          }
        }
      }
    }
  }

  /** `d[k] = v`: an existing key keeps its place, a new one is appended. */
  function Assign(fs: seq<Field>, k: string, v: Json): (r: seq<Field>)
    ensures |r| == if k in FieldKeys(fs) then |fs| else |fs| + 1
  {
    if fs == [] then [Field(k, v)]
    else if fs[0].key == k then [Field(k, v)] + fs[1..]
    else
      assert FieldKeys(fs) == [fs[0].key] + FieldKeys(fs[1..]);
      [fs[0]] + Assign(fs[1..], k, v)
  }

  /** An existing key keeps its place; a new key is appended. */
  lemma {:induction false} AssignKeys(fs: seq<Field>, k: string, v: Json)
    ensures FieldKeys(Assign(fs, k, v)) == if k in FieldKeys(fs) then FieldKeys(fs) else FieldKeys(fs) + [k]
  {
    if fs == [] {
      assert FieldKeys([Field(k, v)]) == [k];
    } else if fs[0].key == k {
      AssignKeysHere(fs, k, v);
    } else {
      AssignKeys(fs[1..], k, v);
      AssignKeysLater(fs, k, v);
    }
  }

  lemma AssignKeysHere(fs: seq<Field>, k: string, v: Json)
    requires fs != [] && fs[0].key == k
    ensures k in FieldKeys(fs) && FieldKeys(Assign(fs, k, v)) == FieldKeys(fs)
  {
    assert FieldKeys(fs)[0] == k;
    var r := Assign(fs, k, v);
    assert forall i :: 0 <= i < |r| ==> r[i].key == fs[i].key;
  }

  lemma AssignKeysLater(fs: seq<Field>, k: string, v: Json)
    requires fs != [] && fs[0].key != k
    requires FieldKeys(Assign(fs[1..], k, v)) == if k in FieldKeys(fs[1..]) then FieldKeys(fs[1..]) else FieldKeys(fs[1..]) + [k]
    ensures FieldKeys(Assign(fs, k, v)) == if k in FieldKeys(fs) then FieldKeys(fs) else FieldKeys(fs) + [k]
  {
    var rest := Assign(fs[1..], k, v);
    assert Assign(fs, k, v) == [fs[0]] + rest;
    KeysCons(fs[0], fs[1..]);
    assert [fs[0]] + fs[1..] == fs;
    KeysCons(fs[0], rest);
  }

  lemma KeysCons(f: Field, fs: seq<Field>)
    ensures FieldKeys([f] + fs) == [f.key] + FieldKeys(fs)
  {
  }

  /** Unique keys depend on the keys alone. */
  lemma UniqueByKeys(fs: seq<Field>, gs: seq<Field>)
    requires UniqueKeys(fs) && FieldKeys(fs) == FieldKeys(gs)
    ensures UniqueKeys(gs)
  {
    forall i, j | 0 <= i < j < |gs| ensures gs[i].key != gs[j].key {
      assert FieldKeys(fs)[i] == FieldKeys(gs)[i] && FieldKeys(fs)[j] == FieldKeys(gs)[j];
    }
  }

  lemma UniqueCons(f: Field, fs: seq<Field>)
    requires UniqueKeys(fs) && f.key !in FieldKeys(fs)
    ensures UniqueKeys([f] + fs)
  {
    var r := [f] + fs;
    forall i, j | 0 <= i < j < |r| ensures r[i].key != r[j].key {
      if i == 0 {
        assert r[j].key == FieldKeys(fs)[j - 1];
      } else {
        assert r[i] == fs[i - 1] && r[j] == fs[j - 1];
      }
    }
  }

  lemma {:induction false} AssignLookup(fs: seq<Field>, k: string, v: Json, k': string)
    ensures Lookup(Assign(fs, k, v), k') == if k' == k then Some(v) else Lookup(fs, k')
  {
    if fs != [] && fs[0].key != k {
      AssignLookup(fs[1..], k, v, k');
    }
  }

  lemma {:induction false} AssignUnique(fs: seq<Field>, k: string, v: Json)
    requires UniqueKeys(fs)
    ensures UniqueKeys(Assign(fs, k, v))
  {
    AssignKeys(fs, k, v);
    if k in FieldKeys(fs) {
      UniqueByKeys(fs, Assign(fs, k, v));
    } else if fs == [] {
    } else {
      assert fs[0].key != k by { assert FieldKeys(fs)[0] == fs[0].key; }
      var tail := fs[1..];
      assert UniqueKeys(tail);
      AssignUnique(tail, k, v);
      AssignKeys(tail, k, v);
      KeysCons(fs[0], tail);
      assert [fs[0]] + tail == fs;
      assert fs[0].key !in FieldKeys(tail);
      UniqueCons(fs[0], Assign(tail, k, v));
    }
  }

  /** Assignment stores `v` and moves no other field. */
  lemma {:induction false} AssignFields(fs: seq<Field>, k: string, v: Json)
    ensures forall f :: f in Assign(fs, k, v) ==> f == Field(k, v) || f in fs
  {
    if fs != [] && fs[0].key != k {
      AssignFields(fs[1..], k, v);
    }
  }

  /** Assigning a well-formed value keeps a dict well formed. */
  lemma AssignWellFormed(fs: seq<Field>, k: string, v: Json)
    requires WellFormed(JObj(fs)) && WellFormed(v)
    ensures WellFormed(JObj(Assign(fs, k, v)))
  {
    AssignUnique(fs, k, v);
    AssignFields(fs, k, v);
    var r := Assign(fs, k, v);
    forall i | 0 <= i < |r| ensures WellFormed(r[i].val) {
      assert r[i] in r;
      if r[i] != Field(k, v) {
        var j :| 0 <= j < |fs| && fs[j] == r[i];
      }
    }
  }

  /** `d.pop(k, None)` */
  function Delete(fs: seq<Field>, k: string): (r: seq<Field>)
    ensures |r| <= |fs|
  {
    if fs == [] then []
    else if fs[0].key == k then fs[1..]
    else [fs[0]] + Delete(fs[1..], k)
  }

  lemma {:induction false} DeleteLookup(fs: seq<Field>, k: string, k': string)
    requires UniqueKeys(fs)
    ensures Lookup(Delete(fs, k), k') == if k' == k then None else Lookup(fs, k')
  {
    if fs != [] {
      if fs[0].key == k {
        assert FieldKeys(fs) == [fs[0].key] + FieldKeys(fs[1..]);
      } else {
        DeleteLookup(fs[1..], k, k');
      }
    }
  }

  /** `d |= e`: the fields of `e` assigned into `d` in order. */
  function AssignAll(fs: seq<Field>, es: seq<Field>): seq<Field>
    decreases |es|
  {
    if es == [] then fs else AssignAll(Assign(fs, es[0].key, es[0].val), es[1..])
  }

  /** After `d |= e` the keys of `e` carry `e`'s values (it wins), the other
      keys keep theirs. */
  lemma {:induction false} AssignAllLookup(fs: seq<Field>, es: seq<Field>, k: string)
    requires UniqueKeys(es)
    ensures Lookup(AssignAll(fs, es), k) == if k in FieldKeys(es) then Lookup(es, k) else Lookup(fs, k)
    decreases |es|
  {
    if es != [] {
      assert FieldKeys(es) == [es[0].key] + FieldKeys(es[1..]);
      AssignAllLookup(Assign(fs, es[0].key, es[0].val), es[1..], k);
      AssignLookup(fs, es[0].key, es[0].val, k);
    }
  }

  lemma {:induction false} AssignAllUnique(fs: seq<Field>, es: seq<Field>)
    requires UniqueKeys(fs)
    ensures UniqueKeys(AssignAll(fs, es))
    decreases |es|
  {
    if es != [] {
      AssignUnique(fs, es[0].key, es[0].val);
      AssignAllUnique(Assign(fs, es[0].key, es[0].val), es[1..]);
    }
  }

  /** `iter(x)`: the items of a list, the characters of a string, the
      keys of a dict; any other value is not iterable. */
  function Iterated(j: Json): (r: Result<seq<Json>>)
    ensures j.JList? ==> r == Ok(j.items)
    ensures j.JStr? ==> r.Ok? && |r.value| == |j.s| && forall i :: 0 <= i < |j.s| ==> r.value[i] == JStr([j.s[i]])
    ensures j.JObj? ==> r.Ok? && |r.value| == |j.fields| && forall i :: 0 <= i < |j.fields| ==> r.value[i] == JStr(j.fields[i].key)
    ensures !j.JList? && !j.JStr? && !j.JObj? ==> r == Err(TypeError)
  {
    match j
    case JList(items) => Ok(items)
    case JStr(s) => Ok(seq(|s|, i requires 0 <= i < |s| => JStr([s[i]])))
    case JObj(fields) => Ok(seq(|fields|, i requires 0 <= i < |fields| => JStr(fields[i].key)))
    case _ => Err(TypeError)
  }

  /** One element of the pairs `dict.update` is given: it must iterate to
      exactly two values (`ValueError` otherwise, `TypeError` when it is
      not iterable), the first of them the key. A key that is not a string
      is a `TypeError` here (see the README). */
  function PairOf(x: Json): (r: Result<Field>)
    ensures r.Ok? <==> Iterated(x).Ok? && |Iterated(x).value| == 2 && Iterated(x).value[0].JStr?
    ensures r.Ok? ==> r.value == Field(Iterated(x).value[0].s, Iterated(x).value[1])
    ensures Iterated(x).Ok? && |Iterated(x).value| != 2 ==> r == Err(ValueError)
  {
    var es :- Iterated(x);
    if |es| != 2 then Err(ValueError)
    else match es[0]
      case JStr(k) => Ok(Field(k, es[1]))
      case _ => Err(TypeError)
  }

  /** `dict.update(pairs)`: each pair assigned in order; the first element
      that is not a pair stops it with its error. */
  function UpdatePairs(fs: seq<Field>, items: seq<Json>): Result<seq<Field>>
    decreases |items|
  {
    if items == [] then Ok(fs)
    else
      var f :- PairOf(items[0]);
      UpdatePairs(Assign(fs, f.key, f.val), items[1..])
  }

  /** `d |= x`, which is `d.update(x)`: a dict's fields are assigned in
      order; any other value is iterated for key-value pairs, so `[]` and
      `""` change nothing, a non-empty string is a `ValueError`, and a
      value that is not iterable is a `TypeError`. */
  function Ior(fs: seq<Field>, x: Json): (r: Result<seq<Field>>)
    ensures x.JObj? ==> r == Ok(AssignAll(fs, x.fields))
    ensures x == JList([]) || x == JStr([]) ==> r == Ok(fs)
    ensures x.JNull? || x.JBool? || x.JInt? || x.JFloat? ==> r == Err(TypeError)
    ensures r.Err? ==> r.error == TypeError || r.error == ValueError
  {
    IorErrors(fs, x);
    if x.JObj? then Ok(AssignAll(fs, x.fields))
    else
      match Iterated(x)
      case Ok(items) => UpdatePairs(fs, items)
      case Err(e) => Err(e)
  }

  lemma {:induction false} UpdatePairsErrors(fs: seq<Field>, items: seq<Json>)
    ensures UpdatePairs(fs, items).Err? ==>
              UpdatePairs(fs, items).error == TypeError || UpdatePairs(fs, items).error == ValueError
    decreases |items|
  {
    if items != [] && PairOf(items[0]).Ok? {
      var f := PairOf(items[0]).value;
      UpdatePairsErrors(Assign(fs, f.key, f.val), items[1..]);
    }
  }

  lemma IorErrors(fs: seq<Field>, x: Json)
    ensures !x.JObj? && Iterated(x).Ok? && UpdatePairs(fs, Iterated(x).value).Err? ==>
              UpdatePairs(fs, Iterated(x).value).error == TypeError || UpdatePairs(fs, Iterated(x).value).error == ValueError
  {
    if !x.JObj? && Iterated(x).Ok? {
      UpdatePairsErrors(fs, Iterated(x).value);
    }
  }

  /** A non-empty string gives one-character strings as its elements, so
      `d |= "..."` is a `ValueError`. */
  lemma IorString(fs: seq<Field>, s: string)
    requires s != []
    ensures Ior(fs, JStr(s)) == Err(ValueError)
  {
    var items := Iterated(JStr(s)).value;
    assert items[0] == JStr([s[0]]);
    assert Iterated(items[0]).value == [JStr([s[0]])];
    assert PairOf(items[0]) == Err(ValueError);
  }

  /** A list of `[key, value]` lists updates the dict like the dict of
      those pairs would. */
  lemma {:induction false} IorPairList(fs: seq<Field>, items: seq<Json>, es: seq<Field>)
    requires |items| == |es|
    requires forall i :: 0 <= i < |items| ==> items[i] == JList([JStr(es[i].key), es[i].val])
    ensures Ior(fs, JList(items)) == Ok(AssignAll(fs, es))
  {
    UpdatePairList(fs, items, es);
  }

  lemma {:induction false} UpdatePairList(fs: seq<Field>, items: seq<Json>, es: seq<Field>)
    requires |items| == |es|
    requires forall i :: 0 <= i < |items| ==> items[i] == JList([JStr(es[i].key), es[i].val])
    ensures UpdatePairs(fs, items) == Ok(AssignAll(fs, es))
    decreases |items|
  {
    if items != [] {
      assert PairOf(items[0]) == Ok(es[0]);
      UpdatePairList(Assign(fs, es[0].key, es[0].val), items[1..], es[1..]);
    }
  }

  /** `|=` keeps a dict's keys distinct. */
  lemma IorUnique(fs: seq<Field>, x: Json)
    requires UniqueKeys(fs) && Ior(fs, x).Ok?
    ensures UniqueKeys(Ior(fs, x).value)
  {
    if x.JObj? {
      AssignAllUnique(fs, x.fields);
    } else {
      UpdatePairsUnique(fs, Iterated(x).value);
    }
  }

  lemma {:induction false} UpdatePairsUnique(fs: seq<Field>, items: seq<Json>)
    requires UniqueKeys(fs) && UpdatePairs(fs, items).Ok?
    ensures UniqueKeys(UpdatePairs(fs, items).value)
    decreases |items|
  {
    if items != [] {
      var f := PairOf(items[0]).value;
      AssignUnique(fs, f.key, f.val);
      UpdatePairsUnique(Assign(fs, f.key, f.val), items[1..]);
    }
  }

  lemma {:induction false} DeleteUnique(fs: seq<Field>, k: string)
    requires UniqueKeys(fs)
    ensures UniqueKeys(Delete(fs, k))
    ensures forall f :: f in Delete(fs, k) ==> f in fs
  {
    if fs != [] && fs[0].key != k {
      DeleteUnique(fs[1..], k);
      var r := Delete(fs[1..], k);
      forall j | 0 <= j < |r| ensures r[j].key != fs[0].key {
        assert r[j] in fs[1..];
        var m :| 0 <= m < |fs[1..]| && fs[1..][m] == r[j];
        assert fs[m + 1] == r[j];
      }
    }
  }

  /** Python's type of a value, as `type(x)` distinguishes it. */
  datatype PyType = NoneType | BoolType | IntType | FloatType | StrType | ListType | DictType

  function TypeOf(j: Json): PyType {
    match j
    case JNull => NoneType
    case JBool(_) => BoolType
    case JInt(_) => IntType
    case JFloat(_) => FloatType
    case JStr(_) => StrType
    case JList(_) => ListType
    case JObj(_) => DictType
  }

  /** `bool(x)` */
  predicate Truthy(j: Json) {
    match j
    case JNull => false
    case JBool(b) => b
    case JInt(i) => i != 0
    case JFloat(r) => r != 0.0
    case JStr(s) => s != []
    case JList(items) => items != []
    case JObj(fields) => fields != []
  }

  /** Fractional digits of `f` (in [0, 1)), at most `places` of them, without
      trailing zeros. */
  function FracDigits(f: real, places: nat): string
    requires 0.0 <= f < 1.0
    decreases places
  {
    if f == 0.0 || places == 0 then []
    else
      var t := f * 10.0;
      var d := t.Floor;
      [DigitChar(d as nat)] + FracDigits(t - d as real, places - 1)
  }

  /** `repr(x)` of a float written in plain decimal notation. */
  function FloatText(r: real): string {
    var a := if r < 0.0 then -r else r;
    var ip := a.Floor;
    var frac := FracDigits(a - ip as real, 17);
    (if r < 0.0 then "-" else "") + NatToString(ip) + "." + (if frac == [] then "0" else frac)
  }

  /** The quote `repr` puts around a string: `'`, unless the string holds
      a `'` and no `"`. */
  function QuoteOf(s: string): char {
    if HasChar(s, '\'') && !HasChar(s, '"') then '"' else '\''
  }

  /** `c in s` */
  predicate HasChar(s: string, c: char) {
    s != [] && (s[0] == c || HasChar(s[1..], c))
  }

  /** The lower-case hexadecimal digit of `d`. */
  function HexLower(d: nat): (c: char)
    requires d < 16
    ensures IsHexDigit(c) && HexDigitValue(c) == d
  {
    if d < 10 then DigitChar(d) else ('a' as int + d - 10) as char
  }

  /** One character of a string's `repr` between quotes `q`: the quote and
      the backslash get a backslash, tab, newline and carriage return their
      letter escapes, the other ASCII control characters `\xhh`. Every
      other character stands for itself (see the README). */
  function EscapeChar(c: char, q: char): string {
    if c == q || c == '\\' then ['\\', c]
    else if c == '\t' then "\\t"
    else if c == '\n' then "\\n"
    else if c == '\r' then "\\r"
    else if c < ' ' || c == '\U{7F}' then "\\x" + [HexLower(c as int / 16), HexLower(c as int % 16)]
    else [c]
  }

  function Escaped(s: string, q: char): string {
    if s == [] then [] else EscapeChar(s[0], q) + Escaped(s[1..], q)
  }

  /** `repr(s)` of a string. */
  function ReprStr(s: string): string {
    var q := QuoteOf(s);
    [q] + Escaped(s, q) + [q]
  }

  /** Reading the body of a string's `repr` back: each backslash escape
      stands for its character. */
  function Unescaped(t: string): string
    decreases |t|
  {
    if t == [] then []
    else if t[0] == '\\' && |t| >= 2 then
      if t[1] == 't' then ['\t'] + Unescaped(t[2..])
      else if t[1] == 'n' then ['\n'] + Unescaped(t[2..])
      else if t[1] == 'r' then ['\r'] + Unescaped(t[2..])
      else if t[1] == 'x' && |t| >= 4 && IsHexDigit(t[2]) && IsHexDigit(t[3]) then
        [(HexDigitValue(t[2]) * 16 + HexDigitValue(t[3])) as char] + Unescaped(t[4..])
      else [t[1]] + Unescaped(t[2..])
    else [t[0]] + Unescaped(t[1..])
  }

  /** One escaped character reads back as itself. */
  lemma UnescapeChar(c: char, q: char, rest: string)
    requires q == '\'' || q == '"'
    ensures Unescaped(EscapeChar(c, q) + rest) == [c] + Unescaped(rest)
  {
    var t := EscapeChar(c, q) + rest;
    if c == q || c == '\\' {
      assert t[2..] == rest;
    } else if c == '\t' || c == '\n' || c == '\r' {
      assert t[2..] == rest;
    } else if c < ' ' || c == '\U{7F}' {
      var hi := c as int / 16;
      var lo := c as int % 16;
      assert t[4..] == rest;
      assert t[2] == HexLower(hi) && t[3] == HexLower(lo);
      assert (hi * 16 + lo) as char == c;
    } else {
      assert t[1..] == rest;
    }
  }

  /** The body of a string's `repr` reads back as the string. */
  lemma {:induction false} EscapedRoundTrip(s: string, q: char)
    requires q == '\'' || q == '"'
    ensures Unescaped(Escaped(s, q)) == s
  {
    if s != [] {
      UnescapeChar(s[0], q, Escaped(s[1..], q));
      EscapedRoundTrip(s[1..], q);
      assert [s[0]] + s[1..] == s;
    }
  }

  /** `repr(s)` is the string between two equal quotes, and what is between
      them reads back as `s`. */
  lemma ReprStrRoundTrip(s: string)
    ensures var r := ReprStr(s);
            r[0] == r[|r| - 1] == QuoteOf(s) && Unescaped(r[1..|r| - 1]) == s
  {
    var r := ReprStr(s);
    assert |r| >= 2;
    assert r[1..|r| - 1] == Escaped(s, QuoteOf(s));
    EscapedRoundTrip(s, QuoteOf(s));
  }

  /** A string without quotes, backslashes and control characters is its
      `repr` between `'`. */
  lemma {:induction false} EscapedPlain(s: string, q: char)
    requires forall i :: 0 <= i < |s| ==> s[i] != q && s[i] != '\\' && ' ' <= s[i] && s[i] != '\U{7F}'
    ensures Escaped(s, q) == s
  {
    if s != [] {
      EscapedPlain(s[1..], q);
      assert [s[0]] + s[1..] == s;
    }
  }

  lemma ReprStrPlain(s: string)
    requires forall i :: 0 <= i < |s| ==> s[i] != '\'' && s[i] != '\\' && ' ' <= s[i] && s[i] != '\U{7F}'
    ensures ReprStr(s) == "'" + s + "'"
  {
    NoChar(s, '\'');
    EscapedPlain(s, '\'');
  }

  lemma {:induction false} NoChar(s: string, c: char)
    requires forall i :: 0 <= i < |s| ==> s[i] != c
    ensures !HasChar(s, c)
  {
    if s != [] {
      NoChar(s[1..], c);
    }
  }

  /** `repr(x)` */
  function Repr(j: Json): string
    decreases j, 1
  {
    match j
    case JNull => "None"
    case JBool(b) => if b then "True" else "False"
    case JInt(i) => IntToString(i)
    case JFloat(r) => FloatText(r)
    case JStr(s) => ReprStr(s)
    case JList(items) => "[" + ReprItems(items) + "]"
    case JObj(fields) => "{" + ReprFields(fields) + "}"
  }

  function ReprItems(items: seq<Json>): string
    decreases items, 0
  {
    if items == [] then []
    else if |items| == 1 then Repr(items[0])
    else Repr(items[0]) + ", " + ReprItems(items[1..])
  }

  function ReprFields(fields: seq<Field>): string
    decreases fields, 0
  {
    if fields == [] then []
    else
      var one := ReprStr(fields[0].key) + ": " + Repr(fields[0].val);
      if |fields| == 1 then one else one + ", " + ReprFields(fields[1..])
  }

  /** `str(x)`: a string is itself, anything else its `repr`. */
  function PyStr(j: Json): string {
    if j.JStr? then j.s else Repr(j)
  }

  /** `str(i)` of an integer reads back as `i` with `int()`. */
  lemma PyStrInt(i: int)
    ensures ParseInt(PyStr(JInt(i))) == Ok(i)
  {
    ParseIntToString(i);
  }

  /** `repr` of a float with an integral value below `1e16` in magnitude:
      the integer's digits followed by `.0`. */
  lemma FloatIntegral(n: int)
    requires -10000000000000000 < n < 10000000000000000
    ensures Repr(JFloat(n as real)) == IntToString(n) + ".0"
  {
    var r := n as real;
    var a := if r < 0.0 then -r else r;
    assert a.Floor == (if n < 0 then -n else n);
    assert a - a.Floor as real == 0.0;
  }
}
