/** The JSON path helpers of the board editor plugin
    (`ltctplugin/boardgen/utils.py`). The editor inserts a marker
    character at the cursor and parses the text again; `find_marker` then
    names the dotted path of the key or string that holds the marker, and
    `jsonwalk` follows such a path back down to the container and the key
    (or index) it ends at. */
module PluginUtils {
  import opened Wrappers
  import opened Text
  import opened JsonValue

  /** `MARKER`, U+FFFC OBJECT REPLACEMENT CHARACTER. The source's marker is
      a one-character string, so `MARKER in s` is membership of this
      character. */
  const Marker: char := '\U{FFFC}'

  /** `key.replace(MARKER, "")` */
  function Unmark(s: string): string {
    ReplaceAll(s, [Marker], [])
  }

  /** Removing the marker keeps every other character of the key and no
      marker. */
  lemma {:induction false} UnmarkChars(s: string, c: char)
    ensures c in Unmark(s) <==> c in s && c != Marker
    decreases |s|
  {
    if s != [] {
      UnmarkChars(s[1..], c);
      assert s == [s[0]] + s[1..];
      if s[0] == Marker {
        assert StartsWith(s, [Marker]);
        assert Unmark(s) == [] + Unmark(s[1..]);
      } else {
        assert !StartsWith(s, [Marker]);
        assert Unmark(s) == [s[0]] + Unmark(s[1..]);
      }
    }
  }

  // ---------------------------------------------------------------------
  // find_marker

  /** `if ret:`: a path counts only when there is one and it is not
      empty. */
  predicate Truthy(p: Option<string>) {
    p.Some? && p.value != []
  }

  /** What one value yields, named `name`: a container whose search gives a
      non-empty path yields `name.path`, a string holding the marker yields
      `name`, anything else nothing. */
  function ValueHit(name: string, v: Json): Option<string>
    decreases v, 3
  {
    var nested := if v.JObj? || v.JList? then FindMarker(v) else None;
    if Truthy(nested) then Some(name + "." + nested.value)
    else if v.JStr? && Marker in v.s then Some(name)
    else None
  }

  /** One entry of a dict: a key holding the marker is the answer (without
      the marker) before its value is looked at. */
  function FieldHit(f: Field): Option<string>
    decreases f, 0
  {
    if Marker in f.key then Some(Unmark(f.key)) else ValueHit(f.key, f.val)
  }

  /** One item of a list, named by its index. */
  function ItemHit(i: nat, v: Json): Option<string>
    decreases v, 4
  {
    ValueHit(NatToString(i), v)
  }

  /** `find_marker(obj)`: a dict or a list is searched entry by entry;
      anything else has no marker path. */
  function FindMarker(obj: Json): Option<string>
    decreases obj, 2
  {
    match obj
    case JObj(fields) => FindInFields(fields)
    case JList(items) => FindInItems(items, 0)
    case _ => None
  }

  /** `for key, value in obj.items()`: the first entry with a hit. */
  function FindInFields(fs: seq<Field>): Option<string>
    decreases fs, 1
  {
    if fs == [] then None
    else if FieldHit(fs[0]).Some? then FieldHit(fs[0])
    else FindInFields(fs[1..])
  }

  /** `for key, value in enumerate(obj)`, from index `base` on. */
  function FindInItems(items: seq<Json>, base: nat): Option<string>
    decreases items, 1
  {
    if items == [] then None
    else if ItemHit(base, items[0]).Some? then ItemHit(base, items[0])
    else FindInItems(items[1..], base + 1)
  }

  /** None of the first `n` entries has a hit. */
  predicate FieldsMiss(fs: seq<Field>, n: nat)
    requires n <= |fs|
  {
    forall i :: 0 <= i < n ==> FieldHit(fs[i]).None?
  }

  /** None of the first `n` items, named from index `base` on, has a hit. */
  predicate ItemsMiss(items: seq<Json>, base: nat, n: nat)
    requires n <= |items|
  {
    forall i :: 0 <= i < n ==> ItemHit(base + i, items[i]).None?
  }

  lemma FieldsMissShift(fs: seq<Field>, n: nat)
    requires fs != [] && n < |fs| && FieldHit(fs[0]).None? && FieldsMiss(fs[1..], n)
    ensures FieldsMiss(fs, n + 1)
  {
    forall i | 0 < i < n + 1
      ensures FieldHit(fs[i]).None?
    {
      assert fs[i] == fs[1..][i - 1];
    }
  }

  lemma ItemsMissShift(items: seq<Json>, base: nat, n: nat)
    requires items != [] && n < |items| && ItemHit(base, items[0]).None? && ItemsMiss(items[1..], base + 1, n)
    ensures ItemsMiss(items, base, n + 1)
  {
    forall i | 0 < i < n + 1
      ensures ItemHit(base + i, items[i]).None?
    {
      assert items[i] == items[1..][i - 1];
      assert base + 1 + (i - 1) == base + i;
    }
  }

  /** The entries are searched in order and the first entry with a hit
      gives the answer; there is none when no entry has a hit. */
  lemma {:induction false} FieldsFirstHit(fs: seq<Field>)
    ensures FindInFields(fs).None? <==> FieldsMiss(fs, |fs|)
    ensures FindInFields(fs).Some? ==>
              exists j :: 0 <= j < |fs| && FieldHit(fs[j]) == FindInFields(fs) && FieldsMiss(fs, j)
    decreases |fs|
  {
    if fs != [] {
      var rest := fs[1..];
      FieldsFirstHit(rest);
      if FieldHit(fs[0]).Some? {
        assert FieldsMiss(fs, 0);
        assert !FieldsMiss(fs, |fs|);
      } else if FindInFields(rest).Some? {
        var j :| 0 <= j < |rest| && FieldHit(rest[j]) == FindInFields(rest) && FieldsMiss(rest, j);
        FieldsMissShift(fs, j);
        assert fs[j + 1] == rest[j];
        assert !FieldsMiss(fs, |fs|);
      } else {
        FieldsMissShift(fs, |rest|);
      }
    }
  }

  /** The same for the items of a list, the item at position `j` being
      named by index `base + j`. */
  lemma {:induction false} ItemsFirstHit(items: seq<Json>, base: nat)
    ensures FindInItems(items, base).None? <==> ItemsMiss(items, base, |items|)
    ensures FindInItems(items, base).Some? ==>
              exists j :: 0 <= j < |items| && ItemHit(base + j, items[j]) == FindInItems(items, base) &&
                          ItemsMiss(items, base, j)
    decreases |items|
  {
    if items != [] {
      var rest := items[1..];
      ItemsFirstHit(rest, base + 1);
      if ItemHit(base, items[0]).Some? {
        assert ItemsMiss(items, base, 0);
        assert ItemHit(base + 0, items[0]).Some?;
        assert !ItemsMiss(items, base, |items|);
      } else if FindInItems(rest, base + 1).Some? {
        var j :| 0 <= j < |rest| && ItemHit(base + 1 + j, rest[j]) == FindInItems(rest, base + 1) &&
                 ItemsMiss(rest, base + 1, j);
        ItemsMissShift(items, base, j);
        assert items[j + 1] == rest[j] && base + (j + 1) == base + 1 + j;
        assert !ItemsMiss(items, base, |items|);
      } else {
        ItemsMissShift(items, base, |rest|);
      }
    }
  }

  /** Some key or some string anywhere inside the value holds the
      marker. */
  predicate Marked(j: Json)
    decreases j
  {
    match j
    case JStr(s) => Marker in s
    case JList(items) => exists i :: 0 <= i < |items| && Marked(items[i])
    case JObj(fields) => exists i :: 0 <= i < |fields| && (Marker in fields[i].key || Marked(fields[i].val))
    case _ => false
  }

  /** Without a marker anywhere in a dict or a list there is no path. */
  lemma {:induction false} UnmarkedNone(obj: Json)
    requires !Marked(obj)
    ensures FindMarker(obj) == None
    decreases obj
  {
    match obj
    case JObj(fs) =>
      forall j | 0 <= j < |fs|
        ensures FieldHit(fs[j]).None?
      {
        assert !Marked(fs[j].val);
        if fs[j].val.JObj? || fs[j].val.JList? {
          UnmarkedNone(fs[j].val);
        }
      }
      FieldsFirstHit(fs);
    case JList(items) =>
      forall j | 0 <= j < |items|
        ensures ItemHit(j, items[j]).None?
      {
        assert !Marked(items[j]);
        if items[j].JObj? || items[j].JList? {
          UnmarkedNone(items[j]);
        }
      }
      ItemsFirstHit(items, 0);
    case _ =>
  }

  /** A key that holds the marker gives that key without the marker, even
      when its value holds a marker as well. */
  lemma KeyHitFirst(key: string, v: Json)
    requires Marker in key
    ensures FieldHit(Field(key, v)) == Some(Unmark(key))
    ensures Marker !in Unmark(key)
  {
    UnmarkChars(key, Marker);
  }

  /** The converse of `UnmarkedNone` does not hold: a nested key that is
      the marker alone gives the empty path, which `if ret:` drops, so a
      marked value can have no path. */
  lemma EmptyKeyDropped()
    ensures var inner := JObj([Field([Marker], JInt(0))]);
            var obj := JObj([Field("a", inner)]);
            Marked(obj) && FindMarker(inner) == Some([]) && FindMarker(obj) == None
  {
    var inner := JObj([Field([Marker], JInt(0))]);
    var obj := JObj([Field("a", inner)]);
    assert Marker in [Marker];
    assert Unmark([Marker]) == [] by {
      assert StartsWith([Marker], [Marker]);
      assert [Marker][1..] == [];
      assert ReplaceAll([], [Marker], []) == [];
    }
    assert Marked(obj) by {
      assert obj.fields[0].key == "a" && obj.fields[0].val == inner;
      assert inner.fields[0].key == [Marker];
    }
    assert FieldHit(Field([Marker], JInt(0))) == Some([]);
    assert FindInFields([Field([Marker], JInt(0))]) == Some([]);
    assert FindMarker(inner) == Some([]);
    assert ValueHit("a", inner) == None;
    assert Marker !in "a";
    assert FieldHit(Field("a", inner)) == None;
    assert [Field("a", inner)][1..] == [];
    assert FindInFields([Field("a", inner)]) == FindInFields([]) == None;
    assert FindMarker(obj) == FindInFields([Field("a", inner)]);
  }

  // ---------------------------------------------------------------------
  // jsonwalk

  /** Where a path ends: a key of a dict, or an index of a list. */
  datatype PathKey = KeyName(name: string) | Index(index: nat)

  /** One step of the `while "." in path` loop: a numeric segment indexes
      a list (`IndexError` past its end), otherwise a dict is indexed by
      the segment (`KeyError` when missing); anything else ends the walk
      with `None`. */
  function Step(obj: Json, key: string): Result<Option<Json>> {
    if obj.JList? && IsNumeric(key) then
      var i := DecimalValue(key);
      if i < |obj.items| then Ok(Some(obj.items[i])) else Err(IndexError)
    else if obj.JObj? then
      match Lookup(obj.fields, key)
      case Some(v) => Ok(Some(v))
      case None => Err(KeyError)
    else Ok(None)
  }

  /** The last segment: an index into a list, a key of a dict, or `None`
      for anything else. */
  function Last(obj: Json, path: string): Option<(Json, PathKey)> {
    if obj.JList? && IsNumeric(path) then Some((obj, Index(DecimalValue(path))))
    else if !obj.JObj? then None
    else Some((obj, KeyName(path)))
  }

  /** `jsonwalk(obj, path)`, one `path.partition(".")` at a time. */
  function Walk(obj: Json, path: string): Result<Option<(Json, PathKey)>>
    decreases |path|
  {
    var (key, found, rest) := Partition(path, '.');
    if !found then Ok(Last(obj, path))
    else
      var next :- Step(obj, key);
      if next.None? then Ok(None) else Walk(next.value, rest)
  }

  /** The walk over a path already split into its segments: every segment
      but the last is a step down, the last one names the end. */
  function Descend(obj: Json, segs: seq<string>): Result<Option<(Json, PathKey)>>
    requires |segs| >= 1
    decreases |segs|
  {
    if |segs| == 1 then Ok(Last(obj, segs[0]))
    else
      var next :- Step(obj, segs[0]);
      if next.None? then Ok(None) else Descend(next.value, segs[1..])
  }

  /** The loop consumes exactly the `.`-separated segments of the path:
      walking a path is descending along `path.split(".")`. */
  lemma {:induction false} WalkSplit(obj: Json, path: string)
    ensures Walk(obj, path) == Descend(obj, Split(path, '.'))
    decreases |path|
  {
    var (key, found, rest) := Partition(path, '.');
    if !found {
      SplitFree(path, '.');
    } else {
      assert path == key + ['.'] + rest;
      SplitAppend(key, rest, '.');
      SplitFree(key, '.');
      var segs := Split(path, '.');
      assert segs == [key] + Split(rest, '.');
      assert segs[0] == key && segs[1..] == Split(rest, '.');
      var next := Step(obj, key);
      if next.Ok? && next.value.Some? {
        WalkSplit(next.value.value, rest);
      }
    }
  }

  /** `jsonwalk(obj, path)`: the loop rebinds `obj` and `path` until no
      `.` is left. */
  method JsonWalk(obj: Json, path: string) returns (r: Result<Option<(Json, PathKey)>>)
    ensures r == Walk(obj, path)
  {
    var o := obj;
    var p := path;
    while '.' in p
      invariant Walk(o, p) == Walk(obj, path)
      decreases |p|
    {
      var (key, _, rest) := Partition(p, '.');
      if o.JList? && IsNumeric(key) {
        var i := DecimalValue(key);
        if i >= |o.items| {
          return Err(IndexError);
        }
        o := o.items[i];
      } else if o.JObj? {
        var v := Lookup(o.fields, key);
        if v.None? {
          return Err(KeyError);
        }
        o := v.value;
      } else {
        return Ok(None);
      }
      p := rest;
    }
    if o.JList? && IsNumeric(p) {
      return Ok(Some((o, Index(DecimalValue(p)))));
    } else if !o.JObj? {
      return Ok(None);
    }
    return Ok(Some((o, KeyName(p))));
  }

  // ---------------------------------------------------------------------
  // The two together

  /** No key anywhere inside the value holds a `.`, which would split a
      path segment in two. */
  predicate DotFree(j: Json)
    decreases j
  {
    match j
    case JList(items) => forall i :: 0 <= i < |items| ==> DotFree(items[i])
    case JObj(fields) => forall i :: 0 <= i < |fields| ==> '.' !in fields[i].key && DotFree(fields[i].val)
    case _ => true
  }

  /** The end of a walk is where the marker is: a list item that is a
      string holding it, a dict key that held it, or a dict key whose
      string value holds it. */
  predicate MarkedAt(c: Json, k: PathKey) {
    match k
    case Index(i) => c.JList? && i < |c.items| && c.items[i].JStr? && Marker in c.items[i].s
    case KeyName(n) =>
      c.JObj? && exists j :: 0 <= j < |c.fields| && MarkedField(c.fields[j], n)
  }

  /** Entry `f` is where key `n` points to the marker. */
  predicate MarkedField(f: Field, n: string) {
    (Marker in f.key && Unmark(f.key) == n) || (f.key == n && f.val.JStr? && Marker in f.val.s)
  }

  lemma DigitsDotFree(n: nat)
    ensures '.' !in NatToString(n) && IsNumeric(NatToString(n)) && DecimalValue(NatToString(n)) == n
  {
    DecimalRoundTrip(n);
    var s := NatToString(n);
    assert forall i :: 0 <= i < |s| ==> s[i] != '.';
  }

  /** The path `find_marker` gives leads `jsonwalk` back to the marker,
      as long as the dicts have distinct keys and no key holds a `.`. */
  lemma {:induction false} FindThenWalk(obj: Json)
    requires WellFormed(obj) && DotFree(obj) && FindMarker(obj).Some?
    ensures Walk(obj, FindMarker(obj).value).Ok?
    ensures Walk(obj, FindMarker(obj).value).value.Some?
    ensures var e := Walk(obj, FindMarker(obj).value).value.value; MarkedAt(e.0, e.1)
    decreases obj, 1
  {
    match obj
    case JObj(fs) =>
      FieldsFirstHit(fs);
      var j :| 0 <= j < |fs| && FieldHit(fs[j]) == FindInFields(fs) && FieldsMiss(fs, j);
      FieldThenWalk(obj, j);
    case JList(items) =>
      ItemsFirstHit(items, 0);
      var j :| 0 <= j < |items| && ItemHit(0 + j, items[j]) == FindInItems(items, 0) && ItemsMiss(items, 0, j);
      ItemThenWalk(obj, j);
  }

  /** `FindThenWalk` for a hit at entry `j` of a dict. */
  lemma {:induction false} FieldThenWalk(obj: Json, j: nat)
    requires obj.JObj? && WellFormed(obj) && DotFree(obj) && j < |obj.fields| && FieldHit(obj.fields[j]).Some?
    ensures var w := Walk(obj, FieldHit(obj.fields[j]).value);
            w.Ok? && w.value.Some? && MarkedAt(w.value.value.0, w.value.value.1)
    decreases obj, 0
  {
    var f := obj.fields[j];
    var x := FieldHit(f).value;
    assert '.' !in f.key && DotFree(f.val);
    if Marker in f.key {
      UnmarkChars(f.key, '.');
      SimpleWalk(obj, x);
      assert MarkedField(f, x);
    } else {
      var v := f.val;
      var nested := if v.JObj? || v.JList? then FindMarker(v) else None;
      if Truthy(nested) {
        var p := nested.value;
        assert x == f.key + ['.'] + p;
        PartitionFirst(f.key, p, '.');
        assert Field(f.key, v) in obj.fields;
        LookupIn(obj.fields, f.key);
        assert Step(obj, f.key) == Ok(Some(v));
        assert Walk(obj, x) == Walk(v, p);
        assert WellFormed(v);
        FindThenWalk(v);
      } else {
        assert x == f.key;
        SimpleWalk(obj, x);
        assert MarkedField(f, x);
      }
    }
  }

  /** `FindThenWalk` for a hit at item `j` of a list. */
  lemma {:induction false} ItemThenWalk(obj: Json, j: nat)
    requires obj.JList? && WellFormed(obj) && DotFree(obj) && j < |obj.items| && ItemHit(j, obj.items[j]).Some?
    ensures var w := Walk(obj, ItemHit(j, obj.items[j]).value);
            w.Ok? && w.value.Some? && MarkedAt(w.value.value.0, w.value.value.1)
    decreases obj, 0
  {
    var v := obj.items[j];
    var x := ItemHit(j, v).value;
    var name := NatToString(j);
    DigitsDotFree(j);
    var nested := if v.JObj? || v.JList? then FindMarker(v) else None;
    if Truthy(nested) {
      var p := nested.value;
      assert x == name + ['.'] + p;
      PartitionFirst(name, p, '.');
      assert Step(obj, name) == Ok(Some(v));
      assert Walk(obj, x) == Walk(v, p);
      assert WellFormed(v) && DotFree(v);
      FindThenWalk(v);
    } else {
      assert x == name;
      SimpleWalk(obj, x);
    }
  }

  /** A path without a `.` ends at once. */
  lemma SimpleWalk(obj: Json, x: string)
    requires '.' !in x
    ensures Walk(obj, x) == Ok(Last(obj, x))
  {
  }
}
