/** The second half of `Core.get_board` (`boardgen/core/core.py`), which
    completes a board's `Pcb` (`boardgen/models/pcb.py`) with its
    variables, its templates' pads and the shape tree of each side, and
    `Core.build_labels`, which places one pin label per pad. The `Pcb`
    itself comes out of `Board(**manifest)`; its fields that these steps
    update are the variables of the class below. */
module PcbBuild {
  import opened Wrappers
  import opened JsonValue
  import opened Enums
  import opened Shapes
  import opened Labels
  import opened Mixins
  import Text
  import Cache
  import Builder

  /** `Template(**data)` (`boardgen/models/template.py`): the fields the
      board build reads. `front` is required; the others default to empty. */
  datatype Template = Template(id: string, name: string, vars: seq<Field>, front: seq<Json>, back: seq<Json>,
                               pads: seq<Field>, testPads: seq<Field>)

  /** A list field; `back` defaults to `{}`, which iterates as nothing. */
  function ShapeList(d: seq<Field>, k: string, required: bool): Result<seq<Json>> {
    match Lookup(d, k)
    case None => if required then Err(ValueError) else Ok([])
    case Some(JList(items)) => Ok(items)
    case Some(JObj(fs)) => if fs == [] then Ok([]) else Err(ValueError)
    case Some(_) => Err(ValueError)
  }

  /** The fields of `Template` without a default: `title` is a string,
      `width` and `height` are numbers (`front` is read by `ShapeList`). */
  predicate RequiredFields(d: seq<Field>) {
    && Lookup(d, "title").Some? && Lookup(d, "title").value.JStr?
    && Lookup(d, "width").Some? && (Lookup(d, "width").value.JInt? || Lookup(d, "width").value.JFloat?)
    && Lookup(d, "height").Some? && (Lookup(d, "height").value.JInt? || Lookup(d, "height").value.JFloat?)
  }

  /** `Template(**self.load_template(name))`: a missing file is `None`,
      and `**None` is a `TypeError`; a missing required field or a field
      of the wrong type fails validation. */
  function TemplateOf(data: Option<Json>): (r: Result<Template>)
    ensures data.None? ==> r == Err(TypeError)
    ensures data.Some? && data.value.JObj? && !RequiredFields(data.value.fields) ==> r == Err(ValueError)
    ensures r.Ok? ==> data.Some? && data.value.JObj? && RequiredFields(data.value.fields)
                      && "front" in FieldKeys(data.value.fields)
  {
    match data
    case None => Err(TypeError)
    case Some(JObj(d)) =>
      if !RequiredFields(d) then Err(ValueError)
      else
        var id :- Builder.OptStr(d, "id");
        var name :- Builder.OptStr(d, "name");
        var vars :- Builder.OptDict(d, "vars");
        var front :- ShapeList(d, "front", true);
        var back :- ShapeList(d, "back", false);
        var pads :- Builder.OptDict(d, "pads");
        var testPads :- Builder.OptDict(d, "test_pads");
        Ok(Template(id, name, vars, front, back, pads, testPads))
    case Some(_) => Err(TypeError)
  }

  // ---------------------------------------------------------------------
  // Board variables

  /** `pcb.vars["NAME"]`, `["TITLE"]` and `["SYMBOL"]`. */
  function BoardVars(vars: seq<Field>, variant: string, title: string, symbol: string): seq<Field> {
    Assign(Assign(Assign(vars, "NAME", JStr(variant)), "TITLE", JStr(title)), "SYMBOL", JStr(symbol))
  }

  /** The three board variables are set, the other variables stay, and the
      keys stay unique. */
  lemma BoardVarsLookup(vars: seq<Field>, variant: string, title: string, symbol: string, k: string)
    requires UniqueKeys(vars)
    ensures var bv := BoardVars(vars, variant, title, symbol);
            && UniqueKeys(bv)
            && Lookup(bv, "NAME") == Some(JStr(variant))
            && Lookup(bv, "TITLE") == Some(JStr(title))
            && Lookup(bv, "SYMBOL") == Some(JStr(symbol))
            && (k != "NAME" && k != "TITLE" && k != "SYMBOL" ==> Lookup(bv, k) == Lookup(vars, k))
  {
    var v1 := Assign(vars, "NAME", JStr(variant));
    var v2 := Assign(v1, "TITLE", JStr(title));
    AssignUnique(vars, "NAME", JStr(variant));
    AssignUnique(v1, "TITLE", JStr(title));
    AssignUnique(v2, "SYMBOL", JStr(symbol));
    AssignLookup(vars, "NAME", JStr(variant), k);
    AssignLookup(v1, "TITLE", JStr(title), k);
    AssignLookup(v2, "SYMBOL", JStr(symbol), k);
    AssignLookup(vars, "NAME", JStr(variant), "NAME");
    AssignLookup(v1, "TITLE", JStr(title), "TITLE");
    AssignLookup(v2, "SYMBOL", JStr(symbol), "SYMBOL");
    AssignLookup(v1, "TITLE", JStr(title), "NAME");
    AssignLookup(v2, "SYMBOL", JStr(symbol), "NAME");
    AssignLookup(v2, "SYMBOL", JStr(symbol), "TITLE");
  }

  // ---------------------------------------------------------------------
  // The template loop

  /** What the template loop leaves: the templates loaded so far (or the
      error that stopped it), the pcb's pads and test pads, and the memo. */
  datatype TemplateState = TemplateState(templates: Result<seq<Template>>, pads: seq<Field>, testPads: seq<Field>,
                                           memo: Cache.Memo)

  /** `Template(**self.load_template(name))`, with the memo. */
  function LoadTemplate(files: Cache.Files, dirs: seq<string>, memo: Cache.Memo, name: string): (Result<Template>, Cache.Memo) {
    var (data, memo') := Cache.LoadJsonOf(files, dirs, memo, Cache.Templates, name);
    (TemplateOf(data), memo')
  }

  /** One pass of the template loop: the loaded template's pads and test
      pads are merged into the pcb's. */
  function TemplateStep(prev: TemplateState, loaded: (Result<Template>, Cache.Memo)): (r: TemplateState)
    requires prev.templates.Ok?
  {
    match loaded.0
    case Err(e) => TemplateState(Err(e), prev.pads, prev.testPads, loaded.1)
    case Ok(t) => TemplateState(Ok(prev.templates.value + [t]), AssignAll(prev.pads, t.pads),
                                AssignAll(prev.testPads, t.testPads), loaded.1)
  }

  /** `for template_name in pcb.templates`: each template is loaded (and
      memoised), then merged. */
  function TemplateLoop(files: Cache.Files, dirs: seq<string>, names: seq<string>, st: TemplateState): (r: TemplateState)
    ensures r.templates.Ok? ==> st.templates.Ok? && |r.templates.value| == |st.templates.value| + |names|
    decreases |names|
  {
    if names == [] then st
    else
      var prev := TemplateLoop(files, dirs, names[..|names| - 1], st);
      if prev.templates.Err? then prev
      else TemplateStep(prev, LoadTemplate(files, dirs, prev.memo, names[|names| - 1]))
  }

  /** No template of `ts` defines pad `k`. */
  predicate PadUndefined(ts: seq<Template>, k: string) {
    forall i :: 0 <= i < |ts| ==> k !in FieldKeys(ts[i].pads)
  }

  /** No template of `ts` defines test pad `k`. */
  predicate TestPadUndefined(ts: seq<Template>, k: string) {
    forall i :: 0 <= i < |ts| ==> k !in FieldKeys(ts[i].testPads)
  }

  /** A pad that no loaded template defines keeps the pcb's value, and the
      newest template defining a pad wins: `pcb.pads |= template.pads`. */
  lemma {:induction false} TemplatePads(files: Cache.Files, dirs: seq<string>, names: seq<string>, pads: seq<Field>,
                                        testPads: seq<Field>, memo: Cache.Memo, k: string)
    requires TemplateLoop(files, dirs, names, TemplateState(Ok([]), pads, testPads, memo)).templates.Ok?
    ensures var r := TemplateLoop(files, dirs, names, TemplateState(Ok([]), pads, testPads, memo));
            var ts := r.templates.value;
            && (PadUndefined(ts, k) ==> Lookup(r.pads, k) == Lookup(pads, k))
            && (TestPadUndefined(ts, k) ==> Lookup(r.testPads, k) == Lookup(testPads, k))
            && (ts != [] && k in FieldKeys(ts[|ts| - 1].pads) && UniqueKeys(ts[|ts| - 1].pads) ==>
                  Lookup(r.pads, k) == Lookup(ts[|ts| - 1].pads, k))
    decreases |names|
  {
    var st := TemplateState(Ok([]), pads, testPads, memo);
    if names != [] {
      var prev := TemplateLoop(files, dirs, names[..|names| - 1], st);
      var loaded := LoadTemplate(files, dirs, prev.memo, names[|names| - 1]);
      var r := TemplateLoop(files, dirs, names, st);
      assert prev.templates.Ok? && r == TemplateStep(prev, loaded);
      TemplatePads(files, dirs, names[..|names| - 1], pads, testPads, memo, k);
      var t := loaded.0.value;
      var ts := r.templates.value;
      var pts := prev.templates.value;
      assert ts == pts + [t];
      assert r.pads == AssignAll(prev.pads, t.pads) && r.testPads == AssignAll(prev.testPads, t.testPads);
      AssignAllKept(prev.pads, t.pads, k);
      AssignAllKept(prev.testPads, t.testPads, k);
      assert ts[|ts| - 1] == t;
      assert forall i :: 0 <= i < |pts| ==> ts[i] == pts[i];
      assert PadUndefined(ts, k) ==> PadUndefined(pts, k) && k !in FieldKeys(t.pads);
      assert TestPadUndefined(ts, k) ==> TestPadUndefined(pts, k) && k !in FieldKeys(t.testPads);
      if k in FieldKeys(t.pads) && UniqueKeys(t.pads) {
        AssignAllLookup(prev.pads, t.pads, k);
      }
    }
  }

  /** A key that `e` lacks keeps its value through `d |= e`. */
  lemma {:induction false} AssignAllKept(fs: seq<Field>, es: seq<Field>, k: string)
    ensures k !in FieldKeys(es) ==> Lookup(AssignAll(fs, es), k) == Lookup(fs, k)
    decreases |es|
  {
    if es != [] {
      assert FieldKeys(es) == [es[0].key] + FieldKeys(es[1..]);
      AssignAllKept(Assign(fs, es[0].key, es[0].val), es[1..], k);
      AssignLookup(fs, es[0].key, es[0].val, k);
    }
  }

  // ---------------------------------------------------------------------
  // The sides

  /** What the side loop reads of a template or of the pcb. */
  datatype Source = Source(id: string, name: string, vars: seq<Field>, front: seq<Json>, back: seq<Json>) {
    function Data(side: Side): seq<Json> {
      match side case Front => front case Back => back
    }
  }

  /** A template as a source, after `template.vars |= pcb.vars`. */
  function TemplateSource(t: Template, boardVars: seq<Field>): Source {
    Source(t.id, t.name, AssignAll(t.vars, boardVars), t.front, t.back)
  }

  /** `sources`: the templates in order, then the pcb. */
  function Sources(ts: seq<Template>, boardVars: seq<Field>, pcb: Source): (r: seq<Source>)
    ensures |r| == |ts| + 1 && r[|ts|] == pcb
    ensures forall i :: 0 <= i < |ts| ==> r[i] == TemplateSource(ts[i], boardVars)
  {
    seq(|ts|, i requires 0 <= i < |ts| => TemplateSource(ts[i], boardVars)) + [pcb]
  }

  /** A source while one side is built: `parent.id_suffix = side.value`. */
  function SideParent(s: Source, side: Side): Builder.Parent {
    Builder.Parent(FullId(s.id, s.name, SideValue(side), Some(s.vars)), s.vars)
  }

  /** `shapes[side] += [build_shape(parent, data) for data in ...]` over
      every source in order. */
  function SideItems(env: Builder.Env, srcs: seq<Source>, side: Side, fuel: nat): (r: Result<seq<Shape>>)
    decreases |srcs|
  {
    if srcs == [] then Ok([])
    else
      var prev :- SideItems(env, srcs[..|srcs| - 1], side, fuel);
      var last := srcs[|srcs| - 1];
      var here :- Builder.BuildItems(env, SideParent(last, side), last.Data(side), None, fuel);
      Ok(prev + here)
  }

  /** How many entries the sources list for a side. */
  function DataCount(srcs: seq<Source>, side: Side): nat
    decreases |srcs|
  {
    if srcs == [] then 0 else DataCount(srcs[..|srcs| - 1], side) + |srcs[|srcs| - 1].Data(side)|
  }

  /** Every entry becomes exactly one shape, and the pcb's own shapes come
      after its templates'. */
  lemma {:induction false} SideItemsCount(env: Builder.Env, srcs: seq<Source>, side: Side, fuel: nat)
    requires SideItems(env, srcs, side, fuel).Ok?
    ensures |SideItems(env, srcs, side, fuel).value| == DataCount(srcs, side)
    decreases |srcs|
  {
    if srcs != [] {
      SideItemsCount(env, srcs[..|srcs| - 1], side, fuel);
    }
  }

  /** Every source builds its shapes with the side as its id suffix, and
      every template source sees the board variables over its own. */
  lemma SourceScope(ts: seq<Template>, boardVars: seq<Field>, pcb: Source, side: Side, i: nat, k: string)
    requires i < |ts| && UniqueKeys(boardVars)
    requires ts[i].id != []
    ensures SideParent(Sources(ts, boardVars, pcb)[i], side).fullid == Ok(Some(ts[i].id + "." + SideValue(side)))
    ensures Lookup(Sources(ts, boardVars, pcb)[i].vars, k) ==
              if k in FieldKeys(boardVars) then Lookup(boardVars, k) else Lookup(ts[i].vars, k)
  {
    var src := Sources(ts, boardVars, pcb)[i];
    assert src == TemplateSource(ts[i], boardVars);
    assert SideValue(side) != [] && Suffix(SideValue(side)) == "." + SideValue(side);
    assert ts[i].id + ("." + SideValue(side)) == ts[i].id + "." + SideValue(side);
    AssignAllLookup(ts[i].vars, boardVars, k);
  }

  /** The board's shapes after the side loop: front first, then back; each
      side wrapped as group `<board>.<side>`. */
  function SideShapes(env: Builder.Env, srcs: seq<Source>, boardName: string, fuel: nat): (r: Result<(Shape, Shape)>)
    ensures r.Ok? ==>
              && FullIdOf(r.value.0) == Ok(Some(boardName + ".front"))
              && FullIdOf(r.value.1) == Ok(Some(boardName + ".back"))
    ensures r.Ok? ==>
              && SideItems(env, srcs, Front, fuel).Ok? && SideItems(env, srcs, Back, fuel).Ok?
              && r.value.0.GroupShape? && r.value.0.shapes == SideItems(env, srcs, Front, fuel).value
              && r.value.1.GroupShape? && r.value.1.shapes == SideItems(env, srcs, Back, fuel).value
    ensures SideItems(env, srcs, Front, fuel).Err? ==> r == Err(SideItems(env, srcs, Front, fuel).error)
  {
    var front :- SideItems(env, srcs, Front, fuel);
    var back :- SideItems(env, srcs, Back, fuel);
    Ok((Wrap(boardName + ".front", front), Wrap(boardName + ".back", back)))
  }

  // ---------------------------------------------------------------------
  // The pcb

  class Pcb {
    const symbol: string
    const templates: seq<string>
    const id: string
    const name: string
    const front: seq<Json>
    const back: seq<Json>
    const pinout: seq<(string, map<RoleType, Json>)>
    const pinoutHidden: string
    var vars: seq<Field>
    var pads: seq<Field>
    var testPads: seq<Field>
    var shapes: map<Side, Shape>

    constructor (symbol: string, templates: seq<string>, id: string, name: string, front: seq<Json>, back: seq<Json>,
                 pinout: seq<(string, map<RoleType, Json>)>, pinoutHidden: string,
                 vars: seq<Field>, pads: seq<Field>, testPads: seq<Field>)
      ensures this.symbol == symbol && this.templates == templates && this.id == id && this.name == name
      ensures this.front == front && this.back == back && this.pinout == pinout && this.pinoutHidden == pinoutHidden
      ensures this.vars == vars && this.pads == pads && this.testPads == testPads && shapes == map[]
    {
      this.symbol := symbol;
      this.templates := templates;
      this.id := id;
      this.name := name;
      this.front := front;
      this.back := back;
      this.pinout := pinout;
      this.pinoutHidden := pinoutHidden;
      this.vars := vars;
      this.pads := pads;
      this.testPads := testPads;
      shapes := map[];
    }

    /** The pcb as the last source of the side loop. */
    function AsSource(): Source
      reads this
    {
      Source(id, name, vars, front, back)
    }
  }

  /** What `get_board` does to a board's pcb after `Board(**manifest)`:
      the board variables, the template loop and the side loop. `name` is
      the board name, `variant` and `title` are `board.build.variant` and
      `board.name`. On an error the pcb keeps what was done before it. */
  method FinishPcb(pcb: Pcb, store: Cache.CoreCache, env: Builder.Env, name: string, variant: string, title: string, fuel: nat)
    returns (err: Option<Error>)
    modifies pcb, store
    ensures store.dirs == old(store.dirs)
    ensures pcb.vars == BoardVars(old(pcb.vars), variant, title, pcb.symbol)
    ensures var st := TemplateLoop(store.files, store.GetDirs(Cache.Templates), pcb.templates,
                                   TemplateState(Ok([]), old(pcb.pads), old(pcb.testPads), old(store.cache)));
            && pcb.pads == st.pads && pcb.testPads == st.testPads && store.cache == st.memo
            && (st.templates.Err? ==> err == Some(st.templates.error) && pcb.shapes == old(pcb.shapes))
            && (st.templates.Ok? ==>
                  var built := SideShapes(env, Sources(st.templates.value, pcb.vars, pcb.AsSource()), name, fuel);
                  && (built.Err? ==> err == Some(built.error) && pcb.shapes == old(pcb.shapes))
                  && (built.Ok? ==> err.None? && pcb.shapes == old(pcb.shapes)[Front := built.value.0][Back := built.value.1]))
  {
    pcb.vars := BoardVars(pcb.vars, variant, title, pcb.symbol);
    var ts := MergeTemplates(pcb, store);
    if ts.Err? {
      return Some(ts.error);
    }
    var built := BuildSides(env, Sources(ts.value, pcb.vars, pcb.AsSource()), name, fuel);
    if built.Err? {
      return Some(built.error);
    }
    pcb.shapes := pcb.shapes[Front := built.value.0][Back := built.value.1];
    return None;
  }

  /** The template loop: `pcb.pads |= template.pads` and
      `pcb.test_pads |= template.test_pads` for each template in order. */
  method MergeTemplates(pcb: Pcb, store: Cache.CoreCache) returns (ts: Result<seq<Template>>)
    modifies pcb, store
    ensures store.dirs == old(store.dirs) && pcb.vars == old(pcb.vars) && pcb.shapes == old(pcb.shapes)
    ensures var st := TemplateLoop(store.files, store.GetDirs(Cache.Templates), pcb.templates,
                                   TemplateState(Ok([]), old(pcb.pads), old(pcb.testPads), old(store.cache)));
            ts == st.templates && pcb.pads == st.pads && pcb.testPads == st.testPads && store.cache == st.memo
  {
    ghost var st0 := TemplateState(Ok([]), pcb.pads, pcb.testPads, store.cache);
    var acc: seq<Template> := [];
    var i := 0;
    while i < |pcb.templates|
      invariant 0 <= i <= |pcb.templates|
      invariant store.dirs == old(store.dirs) && pcb.vars == old(pcb.vars) && pcb.shapes == old(pcb.shapes)
      invariant TemplateLoop(store.files, store.GetDirs(Cache.Templates), pcb.templates[..i], st0)
                == TemplateState(Ok(acc), pcb.pads, pcb.testPads, store.cache)
    {
      ghost var dirs := store.GetDirs(Cache.Templates);
      ghost var prev := TemplateState(Ok(acc), pcb.pads, pcb.testPads, store.cache);
      assert pcb.templates[..i + 1][..i] == pcb.templates[..i];
      var data := store.LoadJson(Cache.Templates, pcb.templates[i]);
      var t := TemplateOf(data);
      ghost var loaded := LoadTemplate(store.files, dirs, prev.memo, pcb.templates[i]);
      assert loaded == (t, store.cache);
      assert TemplateLoop(store.files, dirs, pcb.templates[..i + 1], st0) == TemplateStep(prev, loaded);
      if t.Err? {
        TemplateLoopFails(store.files, dirs, pcb.templates, i, st0);
        return Err(t.error);
      }
      pcb.pads := AssignAll(pcb.pads, t.value.pads);
      pcb.testPads := AssignAll(pcb.testPads, t.value.testPads);
      acc := acc + [t.value];
      i := i + 1;
    }
    assert pcb.templates[..i] == pcb.templates;
    return Ok(acc);
  }

  /** Both sides, front first. */
  method BuildSides(env: Builder.Env, srcs: seq<Source>, name: string, fuel: nat) returns (r: Result<(Shape, Shape)>)
    ensures r == SideShapes(env, srcs, name, fuel)
  {
    var front := BuildSide(env, srcs, Front, fuel);
    if front.Err? {
      return Err(front.error);
    }
    var back := BuildSide(env, srcs, Back, fuel);
    if back.Err? {
      return Err(back.error);
    }
    return Ok((Wrap(name + ".front", front.value), Wrap(name + ".back", back.value)));
  }

  /** Once the loop has failed on a prefix, the whole loop fails there. */
  lemma {:induction false} TemplateLoopFails(files: Cache.Files, dirs: seq<string>, names: seq<string>, i: nat, st: TemplateState)
    requires i < |names|
    requires TemplateLoop(files, dirs, names[..i + 1], st).templates.Err?
    ensures TemplateLoop(files, dirs, names, st) == TemplateLoop(files, dirs, names[..i + 1], st)
    decreases |names| - i
  {
    if i + 1 < |names| {
      var init := names[..|names| - 1];
      assert init[..i + 1] == names[..i + 1];
      TemplateLoopFails(files, dirs, init, i, st);
      assert TemplateLoop(files, dirs, names, st) == TemplateLoop(files, dirs, init, st);
    } else {
      assert names[..i + 1] == names;
    }
  }

  /** One side: the sources' shapes in order. */
  method BuildSide(env: Builder.Env, srcs: seq<Source>, side: Side, fuel: nat) returns (r: Result<seq<Shape>>)
    ensures r == SideItems(env, srcs, side, fuel)
  {
    var acc: seq<Shape> := [];
    var i := 0;
    assert srcs[..0] == [];
    while i < |srcs|
      invariant 0 <= i <= |srcs|
      invariant SideItems(env, srcs[..i], side, fuel) == Ok(acc)
    {
      var s := srcs[i];
      assert srcs[..i + 1][..i] == srcs[..i] && srcs[..i + 1][i] == s;
      var here := Builder.BuildItems(env, SideParent(s, side), s.Data(side), None, fuel);
      if here.Err? {
        SideItemsFails(env, srcs, side, fuel, i);
        return Err(here.error);
      }
      acc := acc + here.value;
      i := i + 1;
    }
    assert srcs[..i] == srcs;
    return Ok(acc);
  }

  lemma {:induction false} SideItemsFails(env: Builder.Env, srcs: seq<Source>, side: Side, fuel: nat, i: nat)
    requires i < |srcs|
    requires SideItems(env, srcs[..i + 1], side, fuel).Err?
    ensures SideItems(env, srcs, side, fuel) == SideItems(env, srcs[..i + 1], side, fuel)
    decreases |srcs| - i
  {
    if i + 1 < |srcs| {
      var init := srcs[..|srcs| - 1];
      assert init[..i + 1] == srcs[..i + 1];
      SideItemsFails(env, init, side, fuel, i);
      assert SideItems(env, srcs, side, fuel) == SideItems(env, init, side, fuel);
    } else {
      assert srcs[..i + 1] == srcs;
    }
  }

  // ---------------------------------------------------------------------
  // build_labels

  /** What every pin of `build_labels` reads: the merged pads, the pcb's
      shapes, the side, the core's roles and the hidden texts. */
  datatype LabelCtx = LabelCtx(pads: seq<Field>, shapes: map<Side, Shape>, side: Side,
                               coreRoles: map<RoleType, Role>, format: RoleFormat, hidden: seq<string>)

  /** A built label: the pin, the pad's position, the roles after `build`,
      its sub-labels and their box. */
  datatype Placed = Placed(pin: string, pos: V, roles: map<RoleType, Json>, subs: seq<SubLabel>, box: Box)

  /** `pcb.shapes[side].get_by_id(pads[pin])`: a side without shapes is a
      `KeyError`, and only a group has `get_by_id`. */
  function PadOf(shapes: map<Side, Shape>, side: Side, padId: string): Result<Option<Shape>> {
    if side !in shapes then Err(KeyError)
    else match shapes[side]
      case GroupShape(_, _, _, children) => GetById(children, padId)
      case _ => Err(AttributeError)
  }

  /** One pass of the pin loop: a pin without a pad entry, or whose pad is
      not found, is skipped; otherwise its label is built at the pad, and
      its box is that of its sub-labels. */
  function PinLabel(ctx: LabelCtx, pin: string, roles: map<RoleType, Json>): (r: Result<Option<Placed>>)
    ensures pin !in FieldKeys(ctx.pads) ==> r == Ok(None)
    ensures r.Ok? && r.value.Some? ==> r.value.value.pin == pin && IO in r.value.value.roles && r.value.value.subs != []
  {
    match Lookup(ctx.pads, pin)
    case None => Ok(None)
    case Some(padId) =>
      var pad :- PadOf(ctx.shapes, ctx.side, PyStr(padId));
      if pad.None? then Ok(None)
      else
        var p := pad.value;
        var rs := IoRoles(roles);
        IoInference(roles);
        var subs :- LayoutOf(rs, ctx.coreRoles, ctx.format, ctx.hidden, p.meta.pos, p.meta.labelDir, p.meta.labelSize);
        var box :- LabelBox(subs);
        Ok(Some(Placed(pin, p.meta.pos, rs, subs, box)))
  }

  /** The labels of the pins, in pinout order. */
  function PlacedAll(ctx: LabelCtx, pins: seq<(string, map<RoleType, Json>)>): (r: Result<seq<Placed>>)
    decreases |pins|
  {
    if pins == [] then Ok([])
    else
      var prev :- PlacedAll(ctx, pins[..|pins| - 1]);
      var here :- PinLabel(ctx, pins[|pins| - 1].0, pins[|pins| - 1].1);
      Ok(prev + if here.Some? then [here.value] else [])
  }

  /** Every label belongs to a pin with a pad entry, and pins are labelled
      in pinout order. */
  lemma {:induction false} PlacedPins(ctx: LabelCtx, pins: seq<(string, map<RoleType, Json>)>)
    requires PlacedAll(ctx, pins).Ok?
    ensures var ps := PlacedAll(ctx, pins).value;
            && |ps| <= |pins|
            && forall i :: 0 <= i < |ps| ==> ps[i].pin in FieldKeys(ctx.pads) && IO in ps[i].roles
    decreases |pins|
  {
    if pins != [] {
      PlacedPins(ctx, pins[..|pins| - 1]);
      var prev := PlacedAll(ctx, pins[..|pins| - 1]).value;
      var last := pins[|pins| - 1];
      var here := PinLabel(ctx, last.0, last.1).value;
      var ps := PlacedAll(ctx, pins).value;
      assert ps == prev + if here.Some? then [here.value] else [];
      if here.Some? {
        assert last.0 in FieldKeys(ctx.pads);
      }
    }
  }

  /** No pin with a pad entry, no label. */
  lemma {:induction false} NoPadsNoLabels(ctx: LabelCtx, pins: seq<(string, map<RoleType, Json>)>)
    requires forall i :: 0 <= i < |pins| ==> pins[i].0 !in FieldKeys(ctx.pads)
    ensures PlacedAll(ctx, pins) == Ok([])
    decreases |pins|
  {
    if pins != [] {
      assert forall i :: 0 <= i < |pins| - 1 ==> pins[..|pins| - 1][i] == pins[i];
      NoPadsNoLabels(ctx, pins[..|pins| - 1]);
      assert pins[|pins| - 1].0 !in FieldKeys(ctx.pads);
      assert PinLabel(ctx, pins[|pins| - 1].0, pins[|pins| - 1].1) == Ok(None);
      var none: seq<Placed> := [];
      assert none + [] == none;
    }
  }

  /** `x1, y1, x2, y2` after the loop: the first label's box, widened by
      each later one; `None` when no label was built. */
  function Hull(ps: seq<Placed>): (r: Option<Box>)
    ensures r.None? <==> ps == []
    decreases |ps|
  {
    if ps == [] then None
    else
      var h := Hull(ps[..|ps| - 1]);
      var b := ps[|ps| - 1].box;
      Some(if h.None? then b else Union(h.value, b))
  }

  /** The hull holds every label's box. */
  lemma {:induction false} HullContains(ps: seq<Placed>)
    requires ps != []
    ensures forall i :: 0 <= i < |ps| ==> Within(ps[i].box, Hull(ps).value)
    decreases |ps|
  {
    var n := |ps| - 1;
    if n > 0 {
      var init := ps[..n];
      HullContains(init);
      assert Hull(ps).value == Union(Hull(init).value, ps[n].box);
      assert forall i :: 0 <= i < n ==> init[i] == ps[i];
    }
  }

  /** Each coordinate of the hull is that of some label: the hull is the
      componentwise min and max, not merely a box around them. */
  lemma {:induction false} HullAttained(ps: seq<Placed>)
    requires ps != []
    ensures var h := Hull(ps).value;
            && (exists i :: 0 <= i < |ps| && h.x1 == ps[i].box.x1)
            && (exists i :: 0 <= i < |ps| && h.y1 == ps[i].box.y1)
            && (exists i :: 0 <= i < |ps| && h.x2 == ps[i].box.x2)
            && (exists i :: 0 <= i < |ps| && h.y2 == ps[i].box.y2)
    decreases |ps|
  {
    var n := |ps| - 1;
    if n == 0 {
      assert Hull(ps).value == ps[0].box;
    } else {
      var init := ps[..n];
      HullAttained(init);
      var h0 := Hull(init).value;
      var h := Hull(ps).value;
      assert h == Union(h0, ps[n].box);
      var i1 :| 0 <= i1 < n && h0.x1 == init[i1].box.x1;
      var i2 :| 0 <= i2 < n && h0.y1 == init[i2].box.y1;
      var i3 :| 0 <= i3 < n && h0.x2 == init[i3].box.x2;
      var i4 :| 0 <= i4 < n && h0.y2 == init[i4].box.y2;
      assert init[i1] == ps[i1] && init[i2] == ps[i2] && init[i3] == ps[i3] && init[i4] == ps[i4];
    }
  }

  /** `build_labels(pcb, side)`: the test pads are merged into the pcb's
      pads (in place), then one label per pin that has a pad; the result
      is the labels and the box around them. */
  method BuildLabels(pcb: Pcb, side: Side, coreRoles: map<RoleType, Role>, format: RoleFormat)
    returns (r: Result<(seq<Label>, Option<Box>)>)
    modifies pcb
    ensures pcb.pads == AssignAll(old(pcb.pads), pcb.testPads)
    ensures pcb.vars == old(pcb.vars) && pcb.testPads == old(pcb.testPads) && pcb.shapes == old(pcb.shapes)
    ensures var ctx := LabelCtx(pcb.pads, pcb.shapes, side, coreRoles, format, Text.Split(pcb.pinoutHidden, ','));
            Built(r, PlacedAll(ctx, pcb.pinout))
  {
    pcb.pads := AssignAll(pcb.pads, pcb.testPads);
    var ctx := LabelCtx(pcb.pads, pcb.shapes, side, coreRoles, format, Text.Split(pcb.pinoutHidden, ','));
    r := LabelLoop(ctx, pcb.pinout);
  }

  /** The labels and their box are those of the specification: one label
      object per placed pin, in order, with its position, roles and
      sub-labels. */
  ghost predicate Built(r: Result<(seq<Label>, Option<Box>)>, spec: Result<seq<Placed>>)
    reads if r.Ok? then set l | l in r.value.0 else {}
  {
    && (spec.Err? ==> r == Err(spec.error))
    && (spec.Ok? ==>
          && r.Ok? && r.value.1 == Hull(spec.value) && Matches(r.value.0, spec.value))
  }

  /** Each label object has the position, roles and sub-labels of the
      placed label at its index. */
  ghost predicate Matches(ls: seq<Label>, ps: seq<Placed>)
    reads set l | l in ls
  {
    && |ls| == |ps|
    && forall i :: 0 <= i < |ps| ==>
         && ls[i].pos == ps[i].pos
         && ls[i].roles == ps[i].roles
         && ls[i].labels == ps[i].subs
  }

  lemma MatchesSnoc(ls: seq<Label>, ps: seq<Placed>, l: Label, p: Placed)
    requires Matches(ls, ps) && l.pos == p.pos && l.roles == p.roles && l.labels == p.subs
    ensures Matches(ls + [l], ps + [p])
  {
  }

  /** `for pin, roles in pins.items()`, accumulating the labels and the
      box. */
  method LabelLoop(ctx: LabelCtx, pins: seq<(string, map<RoleType, Json>)>) returns (r: Result<(seq<Label>, Option<Box>)>)
    ensures Built(r, PlacedAll(ctx, pins))
  {
    var labels: seq<Label> := [];
    ghost var placed: seq<Placed> := [];
    var hull: Option<Box> := None;
    var i := 0;
    assert pins[..0] == [];
    while i < |pins|
      invariant 0 <= i <= |pins|
      invariant PlacedAll(ctx, pins[..i]) == Ok(placed) && hull == Hull(placed)
      invariant Matches(labels, placed)
    {
      var pin := pins[i].0;
      ghost var spec := PinLabel(ctx, pin, pins[i].1);
      var here := PlaceLabel(ctx, pin, pins[i].1);
      if here.Err? {
        PlacedStep(ctx, pins, i, placed);
        PlacedAllFails(ctx, pins, i);
        return Err(here.error);
      }
      PlacedStep(ctx, pins, i, placed);
      if here.value.Some? {
        var lbl := here.value.value;
        var box := LabelBox(lbl.labels).value;
        hull := Some(if hull.None? then box else Union(hull.value, box));
        MatchesSnoc(labels, placed, lbl, spec.value.value);
        labels := labels + [lbl];
        HullSnoc(placed, spec.value.value);
        placed := placed + [spec.value.value];
      }
      i := i + 1;
    }
    assert pins[..i] == pins;
    return Ok((labels, hull));
  }

  /** One pin: the label object, built, when the pin has a pad. */
  method PlaceLabel(ctx: LabelCtx, pin: string, roles: map<RoleType, Json>) returns (r: Result<Option<Label>>)
    ensures var spec := PinLabel(ctx, pin, roles);
            && (spec.Err? ==> r == Err(spec.error))
            && (spec.Ok? ==> r.Ok? && r.value.Some? == spec.value.Some?)
            && (spec.Ok? && spec.value.Some? ==>
                  && fresh(r.value.value)
                  && r.value.value.pos == spec.value.value.pos
                  && r.value.value.roles == spec.value.value.roles
                  && r.value.value.labels == spec.value.value.subs
                  && LabelBox(r.value.value.labels) == Ok(spec.value.value.box))
  {
    var padId := Lookup(ctx.pads, pin);
    if padId.None? {
      return Ok(None);
    }
    var pad := PadOf(ctx.shapes, ctx.side, PyStr(padId.value));
    if pad.Err? {
      return Err(pad.error);
    }
    if pad.value.None? {
      return Ok(None);
    }
    var p := pad.value.value;
    var lbl := new Label(p.meta.pos, roles);
    var err := lbl.Build(ctx.coreRoles, ctx.format, ctx.hidden, p.meta.labelDir, p.meta.labelSize);
    if err.Some? {
      return Err(err.value);
    }
    assert lbl.labels == LayoutOf(IoRoles(roles), ctx.coreRoles, ctx.format, ctx.hidden, p.meta.pos, p.meta.labelDir, p.meta.labelSize).value;
    var box := LabelBox(lbl.labels);
    if box.Err? {
      return Err(box.error);
    }
    return Ok(Some(lbl));
  }

  /** One pass of the pin loop, from the prefix before it. */
  lemma PlacedStep(ctx: LabelCtx, pins: seq<(string, map<RoleType, Json>)>, i: nat, placed: seq<Placed>)
    requires i < |pins| && PlacedAll(ctx, pins[..i]) == Ok(placed)
    ensures var here := PinLabel(ctx, pins[i].0, pins[i].1);
            PlacedAll(ctx, pins[..i + 1]) ==
              if here.Err? then Err(here.error)
              else Ok(if here.value.Some? then placed + [here.value.value] else placed)
  {
    assert pins[..i + 1][..i] == pins[..i] && pins[..i + 1][i] == pins[i];
    assert placed + [] == placed;
  }

  lemma HullSnoc(ps: seq<Placed>, p: Placed)
    ensures Hull(ps + [p]) == Some(if Hull(ps).None? then p.box else Union(Hull(ps).value, p.box))
  {
    assert (ps + [p])[..|ps|] == ps;
  }

  lemma {:induction false} PlacedAllFails(ctx: LabelCtx, pins: seq<(string, map<RoleType, Json>)>, i: nat)
    requires i < |pins|
    requires PlacedAll(ctx, pins[..i + 1]).Err?
    ensures PlacedAll(ctx, pins) == PlacedAll(ctx, pins[..i + 1])
    decreases |pins| - i
  {
    if i + 1 < |pins| {
      var init := pins[..|pins| - 1];
      assert init[..i + 1] == pins[..i + 1];
      PlacedAllFails(ctx, init, i);
      assert PlacedAll(ctx, pins) == PlacedAll(ctx, init);
    } else {
      assert pins[..i + 1] == pins;
    }
  }
}
