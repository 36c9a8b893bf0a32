/** `Core` of `boardgen/core/core.py`: custom directories and tables are
    registered on it, and `get_board` post-processes a loaded manifest (the
    pin roles and the flash table) before it becomes a `Board`. `Core`
    inherits the manifest store of `CoreCache` in the source; here it holds
    one. The tables of `CoreGetters` (`presets`, `roles`, `flash`) are
    fields, already loaded. */
module CoreBoard {
  import opened Wrappers
  import opened JsonValue
  import opened Enums
  import opened Labels
  import Cache
  import Flash
  import Pinout

  // ---------------------------------------------------------------------
  // add_custom_dirs

  /** An argument of `add_custom_dirs`: `None`, a bare string or a list. */
  datatype DirsArg = NoDirs | OneDir(dir: string) | DirList(dirs: seq<string>)

  /** The argument after `if isinstance(x, str): x = [x]`. */
  function ArgDirs(a: DirsArg): seq<string> {
    match a
    case NoDirs => []
    case OneDir(d) => [d]
    case DirList(ds) => ds
  }

  /** `if x: self._dirs_<kind> = x + self._dirs_<kind>`: the custom
      directories, in their order, before the existing ones of that kind;
      the other kinds keep theirs. */
  function Prepended(dirs: map<Cache.Kind, seq<string>>, kind: Cache.Kind, a: DirsArg): (r: map<Cache.Kind, seq<string>>)
    ensures Cache.DirsOf(r, kind) == ArgDirs(a) + Cache.DirsOf(dirs, kind)
    ensures forall k :: k != kind ==> Cache.DirsOf(r, k) == Cache.DirsOf(dirs, k)
  {
    assert [] + Cache.DirsOf(dirs, kind) == Cache.DirsOf(dirs, kind);
    if ArgDirs(a) == [] then dirs else dirs[kind := ArgDirs(a) + Cache.DirsOf(dirs, kind)]
  }

  /** A bare string is one directory. */
  lemma BareStringIsOneDir(dirs: map<Cache.Kind, seq<string>>, kind: Cache.Kind, d: string)
    ensures Cache.DirsOf(Prepended(dirs, kind, OneDir(d)), kind) == [d] + Cache.DirsOf(dirs, kind)
    ensures Cache.DirsOf(Prepended(dirs, kind, OneDir(d)), kind)[0] == d
  {
  }

  /** After prepending, a file that some custom directory has comes from
      the first custom directory having it. */
  lemma CustomDirsFirst(files: Cache.Files, custom: seq<string>, ds: seq<string>, name: string, i: nat)
    requires i < |custom| && (custom[i], name) in files
    requires forall j :: 0 <= j < i ==> (custom[j], name) !in files
    ensures Cache.Find(files, custom + ds, name) == Some(files[(custom[i], name)])
  {
    var all := custom + ds;
    assert all[i] == custom[i];
    assert forall j :: 0 <= j < i ==> all[j] == custom[j];
    Cache.FindFirst(files, all, name, i);
  }

  /** A file that no custom directory has is found as before. */
  lemma {:induction false} CustomDirsFallBack(files: Cache.Files, custom: seq<string>, ds: seq<string>, name: string)
    requires forall j :: 0 <= j < |custom| ==> (custom[j], name) !in files
    ensures Cache.Find(files, custom + ds, name) == Cache.Find(files, ds, name)
    decreases |custom|
  {
    if custom != [] {
      var all := custom + ds;
      assert all[0] == custom[0] && (custom[0], name) !in files;
      assert all[1..] == custom[1..] + ds;
      CustomDirsFallBack(files, custom[1..], ds, name);
      assert Cache.Find(files, all, name) == Cache.Find(files, all[1..], name);
    } else {
      assert custom + ds == ds;
    }
  }

  // ---------------------------------------------------------------------
  // add_custom_json

  /** The three tables of `CoreGetters`. */
  datatype Tables = Tables(presets: seq<Field>, roles: map<RoleType, Role>, flash: seq<Field>)

  /** A truthy dict argument: not `None` and not empty. */
  predicate GivenDict(d: Option<seq<Field>>) {
    d.Some? && d.value != []
  }

  predicate GivenRoles(r: Option<map<RoleType, Role>>) {
    r.Some? && r.value != map[]
  }

  /** `add_custom_json` as written: `self.presets |= presets` merges into
      the dict the `presets` property returns, then assigns the result to
      the property, which has no setter (`boardgen/core/getters.py`), so
      `AttributeError` is raised and the later tables are never merged. */
  function AddJsonAsWritten(t: Tables, presets: Option<seq<Field>>, roles: Option<map<RoleType, Role>>,
                            flash: Option<seq<Field>>): (Tables, Option<Error>)
  {
    if GivenDict(presets) then (t.(presets := AssignAll(t.presets, presets.value)), Some(AttributeError))
    else if GivenRoles(roles) then (t.(roles := t.roles + roles.value), Some(AttributeError))
    else if GivenDict(flash) then (t.(flash := AssignAll(t.flash, flash.value)), Some(AttributeError))
    else (t, None)
  }

  /** `add_custom_json` as intended: every given table merged into the
      core's, with no error. */
  function AddJson(t: Tables, presets: Option<seq<Field>>, roles: Option<map<RoleType, Role>>,
                   flash: Option<seq<Field>>): Tables
  {
    Tables(if GivenDict(presets) then AssignAll(t.presets, presets.value) else t.presets,
           if GivenRoles(roles) then t.roles + roles.value else t.roles,
           if GivenDict(flash) then AssignAll(t.flash, flash.value) else t.flash)
  }

  /** As written, any given table raises `AttributeError`, and with a
      preset table given the roles and the flash table are left as they
      were: a role only the custom roles define is missing afterwards,
      where the intended merge has it. */
  lemma AsWrittenDropsRoles(t: Tables, presets: seq<Field>, roles: map<RoleType, Role>, flash: Option<seq<Field>>, rt: RoleType)
    requires presets != [] && rt in roles && rt !in t.roles
    ensures var (t', err) := AddJsonAsWritten(t, Some(presets), Some(roles), flash);
            && err == Some(AttributeError)
            && t'.presets == AssignAll(t.presets, presets)
            && t'.roles == t.roles && t'.flash == t.flash
            && rt !in t'.roles
            && rt in AddJson(t, Some(presets), Some(roles), flash).roles
  {
  }

  /** As written, nothing given is the only way not to fail. */
  lemma AsWrittenFails(t: Tables, presets: Option<seq<Field>>, roles: Option<map<RoleType, Role>>, flash: Option<seq<Field>>)
    ensures AddJsonAsWritten(t, presets, roles, flash).1.None? <==>
            !GivenDict(presets) && !GivenRoles(roles) && !GivenDict(flash)
    ensures AddJsonAsWritten(t, presets, roles, flash).1.Some? ==>
            AddJsonAsWritten(t, presets, roles, flash).1 == Some(AttributeError)
  {
  }

  /** The intended merge: a custom preset or flash entry overrides the
      core's and the others stay; a custom role overrides the core's. */
  lemma AddJsonLookup(t: Tables, presets: Option<seq<Field>>, roles: Option<map<RoleType, Role>>,
                      flash: Option<seq<Field>>, k: string, rt: RoleType)
    requires presets.Some? ==> UniqueKeys(presets.value)
    requires flash.Some? ==> UniqueKeys(flash.value)
    ensures var t' := AddJson(t, presets, roles, flash);
            && Lookup(t'.presets, k) == (if presets.Some? && k in FieldKeys(presets.value) then Lookup(presets.value, k) else Lookup(t.presets, k))
            && Lookup(t'.flash, k) == (if flash.Some? && k in FieldKeys(flash.value) then Lookup(flash.value, k) else Lookup(t.flash, k))
            && (roles.Some? && rt in roles.value ==> rt in t'.roles && t'.roles[rt] == roles.value[rt])
            && (rt in t.roles && (roles.None? || rt !in roles.value) ==> rt in t'.roles && t'.roles[rt] == t.roles[rt])
  {
    if GivenDict(presets) {
      AssignAllLookup(t.presets, presets.value, k);
    }
    if GivenDict(flash) {
      AssignAllLookup(t.flash, flash.value, k);
    }
  }

  // ---------------------------------------------------------------------
  // get_board: the manifest before `Board(**manifest)`

  /** What `get_board` gives `Board(**manifest)`: the manifest with the new
      pin roles, and the flash regions when the manifest's `flash` is a
      dict (they replace it). */
  datatype Prepared = Prepared(manifest: seq<Field>, flash: Option<seq<Flash.FlashRegion>>)

  /** `manifest.get(key, None)` */
  function Get(fs: seq<Field>, key: string): Json {
    match Lookup(fs, key) case Some(v) => v case None => JNull
  }

  /** The pinout written back into the manifest's `pcb`: the source
      updates each pin's dict in place, so the keys keep their order. */
  function WithPinout(m: seq<Field>, pcb: Json, pinout: seq<Field>, ic: Json): (r: Result<seq<Field>>)
    requires pinout != [] ==> pcb.JObj?
  {
    if pinout == [] then Ok(m)
    else
      var p :- Pinout.PinoutOf(pinout, ic);
      Ok(Assign(m, "pcb", JObj(Assign(pcb.fields, "pinout", JObj(p)))))
  }

  /** The flash step: a `flash` dict is parsed against the core's flash
      table; anything else stays. */
  function FlashOf(m: seq<Field>, table: seq<Field>): (r: Result<Prepared>)
    ensures r.Ok? ==> r.value.manifest == m
  {
    match Get(m, "flash")
    case JObj(f) =>
      var regions :- Flash.FlashRegions(f, table);
      Ok(Prepared(m, Some(regions)))
    case _ => Ok(Prepared(m, None))
  }

  /** `get_board` up to `Board(**manifest)`; a manifest that is not a dict
      has no `get`. */
  function PreparedOf(manifest: Json, table: seq<Field>): Result<Prepared> {
    if !manifest.JObj? then Err(AttributeError)
    else
      var m := manifest.fields;
      var pcb := Get(m, "pcb");
      var pi :- Pinout.PcbPinout(pcb);
      var m1 :- WithPinout(m, pcb, pi.0, pi.1);
      FlashOf(m1, table)
  }

  /** A manifest without a truthy `pcb` and without a `flash` dict goes
      through unchanged. */
  lemma PlainManifest(m: seq<Field>, table: seq<Field>)
    requires !Truthy(Get(m, "pcb")) && !Get(m, "flash").JObj?
    ensures PreparedOf(JObj(m), table) == Ok(Prepared(m, None))
  {
    assert Pinout.PcbPinout(Get(m, "pcb")) == Ok(([], JNull));
  }

  /** After the pinout step no pin has an `ARD` role, even one the IC map
      brought in, and the pins keep their names. */
  lemma NoArdLeft(manifest: seq<Field>, table: seq<Field>)
    requires WellFormed(JObj(manifest)) && PreparedOf(JObj(manifest), table).Ok?
    requires Pinout.PcbPinout(Get(manifest, "pcb")).Ok? && Pinout.PcbPinout(Get(manifest, "pcb")).value.0 != []
    ensures var pinout := Pinout.PcbPinout(Get(manifest, "pcb")).value.0;
            var m := PreparedOf(JObj(manifest), table).value.manifest;
            && Get(m, "pcb").JObj?
            && Get(Get(m, "pcb").fields, "pinout").JObj?
            && var p := Get(Get(m, "pcb").fields, "pinout").fields;
               && FieldKeys(p) == FieldKeys(pinout)
               && forall i :: 0 <= i < |p| ==> p[i].val.JObj? && "ARD" !in FieldKeys(p[i].val.fields)
  {
    var pcb := Get(manifest, "pcb");
    var pi := Pinout.PcbPinout(pcb).value;
    var pinout := pi.0;
    var p := Pinout.PinoutOf(pinout, pi.1).value;
    var m1 := Assign(manifest, "pcb", JObj(Assign(pcb.fields, "pinout", JObj(p))));
    assert WithPinout(manifest, pcb, pinout, pi.1) == Ok(m1);
    assert PreparedOf(JObj(manifest), table).value.manifest == m1;
    AssignLookup(manifest, "pcb", JObj(Assign(pcb.fields, "pinout", JObj(p))), "pcb");
    AssignLookup(pcb.fields, "pinout", JObj(p), "pinout");
    Pinout.PinoutPins(pinout, pi.1);
    LookupWellFormed(manifest, "pcb");
    LookupWellFormed(pcb.fields, "pinout");
    forall i | 0 <= i < |p| ensures p[i].val.JObj? && "ARD" !in FieldKeys(p[i].val.fields) {
      PinArdGone(pinout[i].val, pi.1);
    }
  }

  /** One pin's new roles hold no `ARD`. */
  lemma PinArdGone(roles: Json, ic: Json)
    requires WellFormed(roles) && Pinout.PinRoles(roles, ic).Ok?
    ensures "ARD" !in FieldKeys(Pinout.PinRoles(roles, ic).value)
  {
    var merged := Pinout.IcMerge(roles.fields, ic).value;
    Pinout.IcMergeUnique(roles.fields, ic);
    if "ARD" in FieldKeys(merged) {
      Pinout.ArdSplit(merged, "ARD");
    }
  }

  /** A value found in a well-formed dict is well formed. */
  lemma LookupWellFormed(fs: seq<Field>, k: string)
    requires forall i :: 0 <= i < |fs| ==> WellFormed(fs[i].val)
    ensures Lookup(fs, k).Some? ==> WellFormed(Lookup(fs, k).value)
  {
    LookupIn(fs, k);
    if Lookup(fs, k).Some? {
      var i :| 0 <= i < |fs| && fs[i] == Field(k, Lookup(fs, k).value);
    }
  }

  /** The flash regions replace a `flash` dict, each region titled from
      the core's flash table. */
  lemma FlashReplaced(m: seq<Field>, table: seq<Field>)
    requires Get(m, "flash").JObj? && FlashOf(m, table).Ok?
    ensures FlashOf(m, table).value.flash == Some(Flash.FlashRegions(Get(m, "flash").fields, table).value)
  {
  }

  /** The manifest steps of `get_board`, on the manifest `load_board`
      returned: the pin loop, then the flash loop. */
  method ProcessManifest(manifest: Json, table: seq<Field>) returns (r: Result<Prepared>)
    requires WellFormed(manifest)
    ensures r == PreparedOf(manifest, table)
  {
    if !manifest.JObj? {
      return Err(AttributeError);
    }
    var m := manifest.fields;
    var pcb := Get(m, "pcb");
    var pi := Pinout.PcbPinout(pcb);
    if pi.Err? {
      return Err(pi.error);
    }
    var pinout := pi.value.0;
    var ic := pi.value.1;
    if pinout != [] {
      LookupWellFormed(m, "pcb");
      LookupWellFormed(pcb.fields, "pinout");
      var p := Pinout.ProcessPinout(pinout, ic);
      if p.Err? {
        return Err(p.error);
      }
      m := Assign(m, "pcb", JObj(Assign(pcb.fields, "pinout", JObj(p.value))));
    }
    var flash := Get(m, "flash");
    if flash.JObj? {
      var regions := Flash.ParseFlash(flash.fields, table);
      if regions.Err? {
        return Err(regions.error);
      }
      return Ok(Prepared(m, Some(regions.value)));
    }
    return Ok(Prepared(m, None));
  }

  /** A loaded board, then its manifest step; a failed load fails. */
  function BoardOf(loaded: Result<Json>, table: seq<Field>): (r: Result<Prepared>)
    ensures loaded.Err? ==> r == Err(loaded.error)
    ensures loaded.Ok? ==> r == PreparedOf(loaded.value, table)
  {
    var manifest :- loaded;
    PreparedOf(manifest, table)
  }

  // ---------------------------------------------------------------------
  // The core

  class Core {
    const store: Cache.CoreCache
    var presets: seq<Field>
    var roles: map<RoleType, Role>
    var flash: seq<Field>

    constructor (store: Cache.CoreCache, presets: seq<Field>, roles: map<RoleType, Role>, flash: seq<Field>)
      ensures this.store == store && this.presets == presets && this.roles == roles && this.flash == flash
    {
      this.store := store;
      this.presets := presets;
      this.roles := roles;
      this.flash := flash;
    }

    function Current(): Tables
      reads this
    {
      Tables(presets, roles, flash)
    }

    /** `add_custom_dirs(boards, shapes, templates)` */
    method AddCustomDirs(boards: DirsArg, shapes: DirsArg, templates: DirsArg)
      modifies store
      ensures store.dirs == Prepended(Prepended(Prepended(old(store.dirs), Cache.Boards, boards), Cache.Shapes, shapes), Cache.Templates, templates)
      ensures store.cache == old(store.cache)
    {
      ghost var d0 := store.dirs;
      var b := ArgDirs(boards);
      if b != [] {
        store.dirs := store.dirs[Cache.Boards := b + store.GetDirs(Cache.Boards)];
      }
      assert store.dirs == Prepended(d0, Cache.Boards, boards);
      ghost var d1 := store.dirs;
      var s := ArgDirs(shapes);
      if s != [] {
        store.dirs := store.dirs[Cache.Shapes := s + store.GetDirs(Cache.Shapes)];
      }
      assert store.dirs == Prepended(d1, Cache.Shapes, shapes);
      ghost var d2 := store.dirs;
      var t := ArgDirs(templates);
      if t != [] {
        store.dirs := store.dirs[Cache.Templates := t + store.GetDirs(Cache.Templates)];
      }
      assert store.dirs == Prepended(d2, Cache.Templates, templates);
    }

    /** `get_board(name)` up to `Board(**manifest)`: the board is loaded
        (and memoised), then its pinout and flash table are processed. */
    method GetBoard(name: string) returns (r: Result<Prepared>)
      requires Cache.FilesWellFormed(store.files) && Cache.MemoWellFormed(store.cache)
      modifies store
      ensures store.dirs == old(store.dirs) && Cache.MemoWellFormed(store.cache)
      ensures store.cache == Cache.LoadBoardOf(store.files, store.GetDirs(Cache.Boards), old(store.cache), name).1
      ensures r == BoardOf(Cache.LoadBoardOf(store.files, store.GetDirs(Cache.Boards), old(store.cache), name).0, flash)
    {
      Cache.LoadBoardWellFormed(store.files, store.GetDirs(Cache.Boards), store.cache, name);
      var loaded := store.LoadBoard(name);
      if loaded.Err? {
        return Err(loaded.error);
      }
      r := ProcessManifest(loaded.value, flash);
    }

    /** `add_custom_json(presets, roles, flash)` as the source has it. */
    method AddCustomJsonAsWritten(presets: Option<seq<Field>>, roles: Option<map<RoleType, Role>>, flash: Option<seq<Field>>)
      returns (err: Option<Error>)
      modifies this
      ensures (Current(), err) == AddJsonAsWritten(old(Current()), presets, roles, flash)
    {
      if GivenDict(presets) {
        this.presets := AssignAll(this.presets, presets.value);
        return Some(AttributeError);
      }
      if GivenRoles(roles) {
        this.roles := this.roles + roles.value;
        return Some(AttributeError);
      }
      if GivenDict(flash) {
        this.flash := AssignAll(this.flash, flash.value);
        return Some(AttributeError);
      }
      return None;
    }

    /** `add_custom_json(presets, roles, flash)` as intended. */
    method AddCustomJson(presets: Option<seq<Field>>, roles: Option<map<RoleType, Role>>, flash: Option<seq<Field>>)
      modifies this
      ensures Current() == AddJson(old(Current()), presets, roles, flash)
    {
      if GivenDict(presets) {
        this.presets := AssignAll(this.presets, presets.value);
      }
      if GivenRoles(roles) {
        this.roles := this.roles + roles.value;
      }
      if GivenDict(flash) {
        this.flash := AssignAll(this.flash, flash.value);
      }
    }
  }
}
