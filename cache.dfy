/** `boardgen/core/cache.py`: manifests are looked up in an ordered list of
    directories per kind, memoised in `_cache`, and a board's `_base`
    manifests are merged underneath it. The file system is a map from
    `(dir, name)` to the parsed content of `<dir>/<name>.json`. */
module Cache {
  import opened Wrappers
  import opened Text
  import opened JsonValue
  import opened Merge

  /** The three kinds of `_cache` (and of `_dirs_<kind>`). */
  datatype Kind = Boards | Shapes | Templates

  type Files = map<(string, string), Json>
  type Memo = map<(Kind, string), Json>

  /** `get_dirs(kind)`: a kind without a directory list has none. */
  function DirsOf(dirs: map<Kind, seq<string>>, kind: Kind): seq<string> {
    if kind in dirs then dirs[kind] else []
  }

  /** The content of `name.json` in the first directory of `ds` having it. */
  function Find(files: Files, ds: seq<string>, name: string): (r: Option<Json>)
    ensures r.None? <==> forall i :: 0 <= i < |ds| ==> (ds[i], name) !in files
  {
    if ds == [] then None
    else if (ds[0], name) in files then Some(files[(ds[0], name)])
    else
      var r := Find(files, ds[1..], name);
      assert forall i :: 1 <= i < |ds| ==> ds[i] == ds[1..][i - 1];
      r
  }

  /** The directory at index `i` is the first to have the file, so its
      content is found and the later directories are not consulted. */
  lemma {:induction false} FindFirst(files: Files, ds: seq<string>, name: string, i: nat)
    requires i < |ds| && (ds[i], name) in files
    requires forall j :: 0 <= j < i ==> (ds[j], name) !in files
    ensures Find(files, ds, name) == Some(files[(ds[i], name)])
  {
    if i > 0 {
      FindFirst(files, ds[1..], name, i - 1);
    }
  }

  /** `load_json(kind, name)` as a function of the memo: the result and the
      memo afterwards. */
  function LoadJsonOf(files: Files, ds: seq<string>, memo: Memo, kind: Kind, name: string): (Option<Json>, Memo) {
    if (kind, name) in memo then (Some(memo[(kind, name)]), memo)
    else
      match Find(files, ds, name)
      case None => (None, memo)
      case Some(data) => (Some(data), memo[(kind, name) := data])
  }

  /** A cache hit answers without looking at any directory. */
  lemma LoadJsonHit(files: Files, files': Files, ds: seq<string>, ds': seq<string>, memo: Memo, kind: Kind, name: string)
    requires (kind, name) in memo
    ensures LoadJsonOf(files, ds, memo, kind, name) == LoadJsonOf(files', ds', memo, kind, name)
    ensures LoadJsonOf(files, ds, memo, kind, name) == (Some(memo[(kind, name)]), memo)
  {
  }

  /** On a miss, the file of the earliest directory that has it is returned
      and memoised. */
  lemma LoadJsonFirstDir(files: Files, ds: seq<string>, memo: Memo, kind: Kind, name: string, i: nat)
    requires (kind, name) !in memo
    requires i < |ds| && (ds[i], name) in files
    requires forall j :: 0 <= j < i ==> (ds[j], name) !in files
    ensures var data := files[(ds[i], name)];
            LoadJsonOf(files, ds, memo, kind, name) == (Some(data), memo[(kind, name) := data])
  {
    FindFirst(files, ds, name, i);
  }

  /** A file that no directory has gives `None` and is not memoised. */
  lemma LoadJsonMissing(files: Files, ds: seq<string>, memo: Memo, kind: Kind, name: string)
    requires (kind, name) !in memo
    requires forall d :: d in ds ==> (d, name) !in files
    ensures LoadJsonOf(files, ds, memo, kind, name) == (None, memo)
  {
  }

  /** Asking again gives the same answer and changes nothing more. */
  lemma LoadJsonRepeat(files: Files, ds: seq<string>, memo: Memo, kind: Kind, name: string)
    ensures var (r, memo') := LoadJsonOf(files, ds, memo, kind, name);
            LoadJsonOf(files, ds, memo', kind, name) == (r, memo')
  {
  }

  /** `load_json` only adds entries: whatever was memoised stays. */
  lemma LoadJsonKeeps(files: Files, ds: seq<string>, memo: Memo, kind: Kind, name: string)
    ensures var memo' := LoadJsonOf(files, ds, memo, kind, name).1;
            forall key :: key in memo ==> key in memo' && memo'[key] == memo[key]
  {
  }

  /** Every memoised entry of `kind` is what the directories hold. */
  ghost predicate Consistent(files: Files, ds: seq<string>, memo: Memo, kind: Kind) {
    forall n :: (kind, n) in memo ==> Find(files, ds, n) == Some(memo[(kind, n)])
  }

  /** While the directories do not change, a memo filled by `load_json` is
      consistent, so the answer is the directory search itself. */
  lemma LoadJsonConsistent(files: Files, ds: seq<string>, memo: Memo, kind: Kind, name: string)
    requires Consistent(files, ds, memo, kind)
    ensures LoadJsonOf(files, ds, memo, kind, name).0 == Find(files, ds, name)
    ensures Consistent(files, ds, LoadJsonOf(files, ds, memo, kind, name).1, kind)
  {
  }

  /** `join("_base", name)`: an absolute name replaces the prefix. */
  function BasePath(name: string): (p: string)
    ensures name != [] && name[0] == '/' ==> p == name
    ensures (name == [] || name[0] != '/') ==> p == "_base/" + name
  {
    if name != [] && name[0] == '/' then name else "_base/" + name
  }

  /** `"_base" in x` for whatever `x` is; `TypeError` where Python `in`
      does not apply. */
  function HasBase(x: Json): (r: Result<bool>)
    ensures x.JObj? ==> r == Ok("_base" in FieldKeys(x.fields))
    ensures r.Err? <==> !(x.JObj? || x.JList? || x.JStr?)
  {
    match x
    case JObj(fields) => Ok("_base" in FieldKeys(fields))
    case JList(items) => Ok(JStr("_base") in items)
    case JStr(s) => Ok(Contains(s, "_base"))
    case _ => Err(TypeError)
  }

  /** `bases if isinstance(bases, list) else [bases]` */
  function BaseList(bases: Json): (r: seq<Json>)
    ensures bases.JList? ==> r == bases.items
    ensures !bases.JList? ==> r == [bases]
  {
    if bases.JList? then bases.items else [bases]
  }

  /** The `for base in bases` loop of `load_board`: each base manifest is
      loaded (and memoised) and merged into `acc` in order. A name that is
      not a string fails in `join`, a missing base fails in the merge. */
  function MergeBases(files: Files, ds: seq<string>, memo: Memo, acc: Json, bases: seq<Json>): (r: (Result<Json>, Memo))
    ensures r.0.Err? ==> r.0.error == TypeError
    decreases |bases|
  {
    if bases == [] then (Ok(acc), memo)
    else if !bases[0].JStr? then (Err(TypeError), memo)
    else
      var (found, memo') := LoadJsonOf(files, ds, memo, Boards, BasePath(bases[0].s));
      var merged := MergeDicts(acc, if found.Some? then found.value else JNull);
      if merged.Err? then (Err(merged.error), memo')
      else MergeBases(files, ds, memo', merged.value, bases[1..])
  }

  /** `load_board(name)` as a function of the memo. */
  function LoadBoardOf(files: Files, ds: seq<string>, memo: Memo, name: string): (Result<Json>, Memo) {
    if (Boards, name) in memo then (Ok(memo[(Boards, name)]), memo)
    else
      var (found, memo1) := LoadJsonOf(files, ds, memo, Boards, name);
      if found.None? then (Err(TypeError), memo1)
      else
        var manifest := found.value;
        var has := HasBase(manifest);
        if has.Err? then (Err(TypeError), memo1)
        else if !has.value then (Ok(manifest), memo1[(Boards, name) := manifest])
        else if !manifest.JObj? then (Err(TypeError), memo1)
        else
          var bases := BaseList(Lookup(manifest.fields, "_base").value);
          var (merged, memo2) := MergeBases(files, ds, memo1, JObj([]), bases);
          if merged.Err? then (merged, memo2)
          else
            var board := MergeDicts(merged.value, manifest);
            if board.Err? then (board, memo2)
            else (board, memo2[(Boards, name) := board.value])
  }

  /** The base loop only adds memo entries. */
  lemma {:induction false} MergeBasesKeeps(files: Files, ds: seq<string>, memo: Memo, acc: Json, bases: seq<Json>)
    ensures var memo' := MergeBases(files, ds, memo, acc, bases).1;
            forall key :: key in memo ==> key in memo' && memo'[key] == memo[key]
    decreases |bases|
  {
    if bases != [] && bases[0].JStr? {
      var (found, memo') := LoadJsonOf(files, ds, memo, Boards, BasePath(bases[0].s));
      LoadJsonKeeps(files, ds, memo, Boards, BasePath(bases[0].s));
      var merged := MergeDicts(acc, if found.Some? then found.value else JNull);
      if merged.Ok? {
        MergeBasesKeeps(files, ds, memo', merged.value, bases[1..]);
      }
    }
  }

  /** A board that no directory has (and that is not memoised) fails with
      `TypeError` from `"_base" in None`, and nothing is memoised. */
  lemma LoadBoardMissing(files: Files, ds: seq<string>, memo: Memo, name: string)
    requires (Boards, name) !in memo
    requires forall d :: d in ds ==> (d, name) !in files
    ensures LoadBoardOf(files, ds, memo, name) == (Err(TypeError), memo)
  {
  }

  /** A loaded board is memoised, and loading it again returns it. */
  lemma LoadBoardRepeat(files: Files, ds: seq<string>, memo: Memo, name: string)
    requires LoadBoardOf(files, ds, memo, name).0.Ok?
    ensures var (r, memo') := LoadBoardOf(files, ds, memo, name);
            && (Boards, name) in memo' && memo'[(Boards, name)] == r.value
            && LoadBoardOf(files, ds, memo', name) == (r, memo')
  {
  }

  /** A board manifest without `_base` is returned as it is. */
  lemma LoadBoardNoBase(files: Files, ds: seq<string>, memo: Memo, name: string, fields: seq<Field>)
    requires (Boards, name) !in memo
    requires Find(files, ds, name) == Some(JObj(fields))
    requires "_base" !in FieldKeys(fields)
    ensures LoadBoardOf(files, ds, memo, name) == (Ok(JObj(fields)), memo[(Boards, name) := JObj(fields)])
  {
    var memo1 := memo[(Boards, name) := JObj(fields)];
    assert LoadJsonOf(files, ds, memo, Boards, name) == (Some(JObj(fields)), memo1);
    assert HasBase(JObj(fields)) == Ok(false);
    assert memo1[(Boards, name) := JObj(fields)] == memo1;
  }

  /** One string base: loaded, then merged into `acc`. */
  lemma OneBase(files: Files, ds: seq<string>, memo: Memo, acc: Json, b: string)
    ensures var (found, memo') := LoadJsonOf(files, ds, memo, Boards, BasePath(b));
            var merged := MergeDicts(acc, if found.Some? then found.value else JNull);
            MergeBases(files, ds, memo, acc, [JStr(b)]).0 == merged
  {
    assert [JStr(b)][1..] == [];
  }

  /** A single string `_base` is merged like a one-element list: the base
      first, into an empty dict, then the board over it. */
  lemma LoadBoardOneBase(files: Files, ds: seq<string>, name: string, fields: seq<Field>, b: string, base: seq<Field>)
    requires Find(files, ds, name) == Some(JObj(fields))
    requires Lookup(fields, "_base") == Some(JStr(b))
    requires BasePath(b) != name && Find(files, ds, BasePath(b)) == Some(JObj(base))
    ensures BaseList(JStr(b)) == BaseList(JList([JStr(b)]))
    ensures var inner := MergeDicts(JObj([]), JObj(base));
            LoadBoardOf(files, ds, map[], name).0 ==
              if inner.Err? then Err(TypeError) else MergeDicts(inner.value, JObj(fields))
  {
    var memo1: Memo := map[(Boards, name) := JObj(fields)];
    assert LoadJsonOf(files, ds, map[], Boards, name) == (Some(JObj(fields)), memo1);
    assert HasBase(JObj(fields)) == Ok(true);
    assert BaseList(Lookup(fields, "_base").value) == [JStr(b)];
    assert LoadJsonOf(files, ds, memo1, Boards, BasePath(b)).0 == Some(JObj(base));
    OneBase(files, ds, memo1, JObj([]), b);
  }

  /** Board scalars win over the bases, and keys only the bases have keep
      the bases' values: the board is merged last. */
  lemma BoardOverBases(files: Files, ds: seq<string>, memo: Memo, name: string, fields: seq<Field>, k: string)
    requires (Boards, name) !in memo
    requires Find(files, ds, name) == Some(JObj(fields))
    requires UniqueKeys(fields) && "_base" in FieldKeys(fields)
    requires LoadBoardOf(files, ds, memo, name).0.Ok?
    ensures var memo1 := memo[(Boards, name) := JObj(fields)];
            var bases := MergeBases(files, ds, memo1, JObj([]), BaseList(Lookup(fields, "_base").value)).0;
            var board := LoadBoardOf(files, ds, memo, name).0.value;
            && bases.Ok? && bases.value.JObj? && board.JObj?
            && (k !in FieldKeys(fields) ==> Lookup(board.fields, k) == Lookup(bases.value.fields, k))
            && (Lookup(fields, k).Some? && IsScalar(Lookup(fields, k).value) ==>
                  Lookup(board.fields, k) == Lookup(fields, k))
  {
    var memo1 := memo[(Boards, name) := JObj(fields)];
    assert LoadJsonOf(files, ds, memo, Boards, name) == (Some(JObj(fields)), memo1);
    var bases := MergeBases(files, ds, memo1, JObj([]), BaseList(Lookup(fields, "_base").value)).0;
    assert bases.Ok?;
    assert TypeOf(bases.value) == DictType by {
      MergeBasesType(files, ds, memo1, JObj([]), BaseList(Lookup(fields, "_base").value));
    }
    DictMerge(bases.value.fields, fields, k);
  }

  /** The bases always merge into a dict. */
  lemma {:induction false} MergeBasesType(files: Files, ds: seq<string>, memo: Memo, acc: Json, bases: seq<Json>)
    requires acc.JObj?
    ensures var r := MergeBases(files, ds, memo, acc, bases).0;
            r.Ok? ==> r.value.JObj?
    decreases |bases|
  {
    if bases != [] && bases[0].JStr? {
      var (found, memo') := LoadJsonOf(files, ds, memo, Boards, BasePath(bases[0].s));
      var merged := MergeDicts(acc, if found.Some? then found.value else JNull);
      if merged.Ok? {
        MergeBasesType(files, ds, memo', merged.value, bases[1..]);
      }
    }
  }

  /** A board whose loading failed after its file was read stays memoised
      as the raw, unmerged manifest: the next `load_board` returns that
      manifest without its bases. */
  lemma RetryAfterFailure(files: Files, ds: seq<string>, memo: Memo, name: string, manifest: Json)
    requires (Boards, name) !in memo
    requires Find(files, ds, name) == Some(manifest)
    requires LoadBoardOf(files, ds, memo, name).0.Err?
    ensures var memo' := LoadBoardOf(files, ds, memo, name).1;
            LoadBoardOf(files, ds, memo', name) == (Ok(manifest), memo')
  {
    var memo1 := memo[(Boards, name) := manifest];
    assert LoadJsonOf(files, ds, memo, Boards, name) == (Some(manifest), memo1);
    if HasBase(manifest).Ok? && HasBase(manifest).value && manifest.JObj? {
      MergeBasesKeeps(files, ds, memo1, JObj([]), BaseList(Lookup(manifest.fields, "_base").value));
    }
  }

  /** Every parsed file and every memoised manifest is a well-formed
      value: the dicts `json.load` builds have unique keys. */
  predicate FilesWellFormed(files: Files) {
    forall key :: key in files ==> WellFormed(files[key])
  }

  predicate MemoWellFormed(memo: Memo) {
    forall key :: key in memo ==> WellFormed(memo[key])
  }

  lemma {:induction false} FindWellFormed(files: Files, ds: seq<string>, name: string)
    requires FilesWellFormed(files)
    ensures Find(files, ds, name).Some? ==> WellFormed(Find(files, ds, name).value)
  {
    if ds != [] && (ds[0], name) !in files {
      FindWellFormed(files, ds[1..], name);
    }
  }

  lemma LoadJsonWellFormed(files: Files, ds: seq<string>, memo: Memo, kind: Kind, name: string)
    requires FilesWellFormed(files) && MemoWellFormed(memo)
    ensures var (found, memo') := LoadJsonOf(files, ds, memo, kind, name);
            && (found.Some? ==> WellFormed(found.value))
            && MemoWellFormed(memo')
  {
    FindWellFormed(files, ds, name);
  }

  lemma {:induction false} MergeBasesWellFormed(files: Files, ds: seq<string>, memo: Memo, acc: Json, bases: seq<Json>)
    requires FilesWellFormed(files) && MemoWellFormed(memo) && WellFormed(acc)
    ensures var (r, memo') := MergeBases(files, ds, memo, acc, bases);
            && (r.Ok? ==> WellFormed(r.value))
            && MemoWellFormed(memo')
    decreases |bases|
  {
    if bases != [] && bases[0].JStr? {
      var (found, memo') := LoadJsonOf(files, ds, memo, Boards, BasePath(bases[0].s));
      LoadJsonWellFormed(files, ds, memo, Boards, BasePath(bases[0].s));
      var base := if found.Some? then found.value else JNull;
      var merged := MergeDicts(acc, base);
      if merged.Ok? {
        MergeWellFormed(acc, base);
        MergeBasesWellFormed(files, ds, memo', merged.value, bases[1..]);
      }
    }
  }

  /** `load_board` keeps every dict with unique keys: the board it returns
      and everything it memoises are well formed. */
  lemma LoadBoardWellFormed(files: Files, ds: seq<string>, memo: Memo, name: string)
    requires FilesWellFormed(files) && MemoWellFormed(memo)
    ensures var (r, memo') := LoadBoardOf(files, ds, memo, name);
            && (r.Ok? ==> WellFormed(r.value))
            && MemoWellFormed(memo')
  {
    if (Boards, name) !in memo {
      var (found, memo1) := LoadJsonOf(files, ds, memo, Boards, name);
      LoadJsonWellFormed(files, ds, memo, Boards, name);
      if found.Some? {
        var manifest := found.value;
        var has := HasBase(manifest);
        if has.Ok? && has.value && manifest.JObj? {
          var bases := BaseList(Lookup(manifest.fields, "_base").value);
          var (merged, memo2) := MergeBases(files, ds, memo1, JObj([]), bases);
          MergeBasesWellFormed(files, ds, memo1, JObj([]), bases);
          if merged.Ok? && MergeDicts(merged.value, manifest).Ok? {
            MergeWellFormed(merged.value, manifest);
          }
        }
      }
    }
  }

  /** `glob(join(dir, "*.json"))` sees the files directly in `dir` whose
      name does not start with a dot. */
  predicate Globbed(name: string) {
    name != [] && name[0] != '.' && '/' !in name
  }

  /** The store of `CoreCache`: directory lists, file system and memo. */
  class CoreCache {
    const files: Files
    var dirs: map<Kind, seq<string>>
    var cache: Memo

    constructor (files: Files, dirs: map<Kind, seq<string>>)
      ensures this.files == files && this.dirs == dirs && cache == map[]
    {
      this.files := files;
      this.dirs := dirs;
      cache := map[];
    }

    function GetDirs(kind: Kind): seq<string>
      reads this
    {
      DirsOf(dirs, kind)
    }

    /** `list_json(kind)`: the file stems of every directory of the kind. */
    method ListJson(kind: Kind) returns (names: set<string>)
      ensures forall n :: n in names <==> Globbed(n) && exists d :: d in GetDirs(kind) && (d, n) in files
    {
      var ds := GetDirs(kind);
      names := {};
      var i := 0;
      while i < |ds|
        invariant 0 <= i <= |ds|
        invariant forall n :: n in names <==> Globbed(n) && exists j :: 0 <= j < i && (ds[j], n) in files
      {
        var d := ds[i];
        var here := set key | key in files && key.0 == d && Globbed(key.1) :: key.1;
        assert forall n :: n in here <==> Globbed(n) && (d, n) in files by {
          forall n ensures n in here <==> Globbed(n) && (d, n) in files {
            if Globbed(n) && (d, n) in files {
              assert (d, n) in files && (d, n).0 == d;
            }
          }
        }
        names := names + here;
        i := i + 1;
      }
      forall n ensures n in names <==> Globbed(n) && exists d :: d in ds && (d, n) in files {
        if Globbed(n) && exists d :: d in ds && (d, n) in files {
          var d :| d in ds && (d, n) in files;
          var j :| 0 <= j < |ds| && ds[j] == d;
          assert (ds[j], n) in files;
        }
      }
    }

    /** `load_json(kind, name)` */
    method LoadJson(kind: Kind, name: string) returns (r: Option<Json>)
      modifies this
      ensures dirs == old(dirs)
      ensures (r, cache) == LoadJsonOf(files, GetDirs(kind), old(cache), kind, name)
    {
      if (kind, name) in cache {
        return Some(cache[(kind, name)]);
      }
      var ds := GetDirs(kind);
      var i := 0;
      while i < |ds|
        invariant 0 <= i <= |ds|
        invariant forall j :: 0 <= j < i ==> (ds[j], name) !in files
        invariant cache == old(cache) && dirs == old(dirs)
      {
        if (ds[i], name) in files {
          var data := files[(ds[i], name)];
          FindFirst(files, ds, name, i);
          cache := cache[(kind, name) := data];
          return Some(data);
        }
        i := i + 1;
      }
      return None;
    }

    /** `load_board_base(name)` */
    method LoadBoardBase(name: string) returns (r: Option<Json>)
      modifies this
      ensures dirs == old(dirs)
      ensures (r, cache) == LoadJsonOf(files, GetDirs(Boards), old(cache), Boards, BasePath(name))
    {
      r := LoadJson(Boards, BasePath(name));
    }

    /** `load_board(name)` */
    method LoadBoard(name: string) returns (r: Result<Json>)
      modifies this
      ensures dirs == old(dirs)
      ensures (r, cache) == LoadBoardOf(files, GetDirs(Boards), old(cache), name)
    {
      if (Boards, name) in cache {
        return Ok(cache[(Boards, name)]);
      }
      var found := LoadJson(Boards, name);
      if found.None? {
        return Err(TypeError);
      }
      var manifest := found.value;
      var has := HasBase(manifest);
      if has.Err? {
        return Err(TypeError);
      }
      if has.value {
        if !manifest.JObj? {
          return Err(TypeError);
        }
        var bases := BaseList(Lookup(manifest.fields, "_base").value);
        ghost var memo1 := cache;
        var result := JObj([]);
        var i := 0;
        while i < |bases|
          invariant 0 <= i <= |bases|
          invariant dirs == old(dirs)
          invariant MergeBases(files, GetDirs(Boards), memo1, JObj([]), bases)
                    == MergeBases(files, GetDirs(Boards), cache, result, bases[i..])
        {
          var base := bases[i];
          assert bases[i..][1..] == bases[i + 1..];
          if !base.JStr? {
            return Err(TypeError);
          }
          var loaded := LoadBoardBase(base.s);
          var merged := MergeDicts(result, if loaded.Some? then loaded.value else JNull);
          if merged.Err? {
            return Err(merged.error);
          }
          result := merged.value;
          i := i + 1;
        }
        var board := MergeDicts(result, manifest);
        if board.Err? {
          return board;
        }
        manifest := board.value;
      }
      cache := cache[(Boards, name) := manifest];
      return Ok(manifest);
    }
  }
}
