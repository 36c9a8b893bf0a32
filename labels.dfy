/** Pin labels of `boardgen/shapes/label`: the geometry of `LabelShape`
    (`IOLine` and `Block` sub-labels), and `Label`, which infers a pin's
    I/O role, lays out one sub-label per formatted role text side by side,
    and spans the union of their boxes. */
module Labels {
  import opened Wrappers
  import opened JsonValue
  import opened Shapes
  import opened Enums

  /** `Role` from `roles.json`; its colour only matters for drawing. */
  datatype Role = Role(title: string, ratio: real)

  /** `Role.format(functions, hidden=...)`, whose definition is not part
      of this model: the texts to show for a role's value. */
  type RoleFormat = (Role, Json, seq<string>) -> seq<string>

  /** The texts that `role.format` gives for a role's value. */
  function Texts(format: RoleFormat, role: Role, value: Json, hidden: seq<string>): seq<string> {
    format(role, value, hidden)
  }

  datatype SubKind = IOLine(io: IOType) | Block(text: string)

  /** A `LabelShape` as `Label.build` creates it: `IOLine` for the `IO`
      role, `Block` for every other role. `padding` is already scaled. */
  datatype SubLabel = SubLabel(
    kind: SubKind,
    roleType: RoleType,
    pos: V,
    dir: Option<LabelDir>,
    labelSize: real,
    ratio: real,
    padding: V)
  {
    /** `dirv`: -1 for `LEFT`, 1 otherwise (also when there is no
        direction). */
    function Dirv(): real {
      if dir == Some(Left) then -1.0 else 1.0
    }

    function Width(): real {
      labelSize * ratio - padding.x * 2.0
    }

    /** `IOLine.height` overrides `LabelShape.height`. */
    function Height(): real {
      if kind.IOLine? then 0.1 * labelSize else labelSize - padding.y * 2.0
    }

    function X1(): real {
      pos.x + (labelSize * ratio / 2.0) * (Dirv() - 1.0) + padding.x
    }

    function Y1(): real {
      pos.y - Height() / 2.0
    }

    /** `x1`, `y1`, `x2 = x1 + width`, `y2 = y1 + height` */
    function Bounds(): Box {
      Box(X1(), Y1(), X1() + Width(), Y1() + Height())
    }

    /** How far `build` moves its cursor after this sub-label. */
    function Advance(): real {
      (Width() + padding.x * 2.0) * Dirv()
    }
  }

  /** The class defaults of `padding`. */
  function DefaultPadding(kind: SubKind): V {
    if kind.IOLine? then V(0.25, 0.25) else V(0.05, 0.1)
  }

  /** `__post_init__`: `if self.label_size: self.padding *= self.label_size` */
  function ScaledPadding(p: V, labelSize: real): V {
    if labelSize != 0.0 then V(p.x * labelSize, p.y * labelSize) else p
  }

  /** A sub-label whatever its padding advances the cursor by its full
      slot, `label_size * ratio`, in its direction. */
  lemma SubAdvance(s: SubLabel)
    ensures s.Advance() == s.labelSize * s.ratio * s.Dirv()
    ensures s.Bounds().Width() == s.labelSize * s.ratio - 2.0 * s.padding.x
    ensures s.Bounds().y1 + s.Bounds().y2 == 2.0 * s.pos.y
  {
  }

  /** The slot begins at the cursor and extends in the label direction:
      rightwards from `pos.x` for `RIGHT`, leftwards for `LEFT`, each side
      inset by the padding. */
  lemma SubSlot(s: SubLabel)
    ensures s.dir != Some(Left) ==> s.Bounds().x1 == s.pos.x + s.padding.x &&
                                    s.Bounds().x2 == s.pos.x + s.labelSize * s.ratio - s.padding.x
    ensures s.dir == Some(Left) ==> s.Bounds().x1 == s.pos.x - s.labelSize * s.ratio + s.padding.x &&
                                    s.Bounds().x2 == s.pos.x - s.padding.x
  {
  }

  /** An `IOLine` is a tenth of the label size high, centred on the
      cursor, and its default padding is a quarter of the label size. */
  lemma IOLineGeometry(io: IOType, t: RoleType, pos: V, dir: Option<LabelDir>, size: real, ratio: real)
    requires size != 0.0
    ensures var s := SubLabel(IOLine(io), t, pos, dir, size, ratio, ScaledPadding(DefaultPadding(IOLine(io)), size));
            && s.padding == V(0.25 * size, 0.25 * size)
            && s.Height() == 0.1 * size
            && s.Bounds().y1 == pos.y - 0.05 * size && s.Bounds().y2 == pos.y + 0.05 * size
  {
  }

  // ---------------------------------------------------------------------
  // I/O role inference

  function StrOf(t: IOType): Json {
    JStr(IOTypeValue(t))
  }

  /** The six `if`s at the start of `Label.build`, in their order. */
  function IoRoles(roles: map<RoleType, Json>): map<RoleType, Json> {
    var r1 := if NC in roles then roles[IO := StrOf(IoNC)] else roles;
    var r2 := if PWM in r1 then r1[IO := StrOf(IoPWM)] else r1;
    var r3 := if GPIO in r2 && IO !in r2 then r2[IO := StrOf(IoIO)] else r2;
    var r4 := if PWR in r3 || GND in r3 then r3[IO := StrOf(IoPWR)] else r3;
    var r5 := if GND in r4 then r4[GND := JStr("GND")] else r4;
    if IO !in r5 then r5[IO := StrOf(IoNULL)] else r5
  }

  /** The I/O role that `build` settles on, by precedence: power or
      ground, then PWM, then not connected, then an I/O role already
      given, then GPIO, else `NULL`. */
  function IoPrecedence(roles: map<RoleType, Json>): Json {
    if PWR in roles || GND in roles then StrOf(IoPWR)
    else if PWM in roles then StrOf(IoPWM)
    else if NC in roles then StrOf(IoNC)
    else if IO in roles then roles[IO]
    else if GPIO in roles then StrOf(IoIO)
    else StrOf(IoNULL)
  }

  /** After the inference the roles always hold `IO`, set by precedence;
      a ground pin reads `GND`; nothing else changes. */
  lemma IoInference(roles: map<RoleType, Json>)
    ensures IoRoles(roles).Keys == roles.Keys + {IO}
    ensures IoRoles(roles)[IO] == IoPrecedence(roles)
    ensures GND in roles ==> IoRoles(roles)[GND] == JStr("GND")
    ensures forall t :: t in roles && t != IO && t != GND ==> IoRoles(roles)[t] == roles[t]
  {
    var r1 := if NC in roles then roles[IO := StrOf(IoNC)] else roles;
    var r2 := if PWM in r1 then r1[IO := StrOf(IoPWM)] else r1;
    var r3 := if GPIO in r2 && IO !in r2 then r2[IO := StrOf(IoIO)] else r2;
    var r4 := if PWR in r3 || GND in r3 then r3[IO := StrOf(IoPWR)] else r3;
    var r5 := if GND in r4 then r4[GND := JStr("GND")] else r4;
    assert r4.Keys - {IO} == roles.Keys - {IO};
    assert r5.Keys == r4.Keys;
    assert IO in r4 ==> r4[IO] == IoPrecedence(roles);
  }

  // ---------------------------------------------------------------------
  // Role order

  /** `sorted(roles.items(), key=role_types.index)`: the role types
      present, in declaration order. */
  function SortedRoles(roles: map<RoleType, Json>): seq<RoleType> {
    SortedFrom(roles, 0)
  }

  function SortedFrom(roles: map<RoleType, Json>, i: nat): seq<RoleType>
    requires i <= RoleCount
    decreases RoleCount - i
  {
    if i == RoleCount then []
    else (if RoleAt(i) in roles then [RoleAt(i)] else []) + SortedFrom(roles, i + 1)
  }

  /** The sorted roles are exactly the present ones, each once, in
      strictly increasing declaration index. */
  lemma SortedRolesOrder(roles: map<RoleType, Json>)
    ensures forall t :: t in SortedRoles(roles) <==> t in roles
    ensures forall a, b :: 0 <= a < b < |SortedRoles(roles)| ==>
              RoleIndex(SortedRoles(roles)[a]) < RoleIndex(SortedRoles(roles)[b])
  {
    SortedFromOrder(roles, 0);
  }

  /** Every sorted role type is one of the roles. */
  lemma SortedRolesIn(roles: map<RoleType, Json>)
    ensures forall i :: 0 <= i < |SortedRoles(roles)| ==> SortedRoles(roles)[i] in roles
  {
    SortedRolesOrder(roles);
  }

  lemma {:induction false} SortedFromOrder(roles: map<RoleType, Json>, i: nat)
    requires i <= RoleCount
    ensures forall t :: t in SortedFrom(roles, i) <==> t in roles && RoleIndex(t) >= i
    ensures forall a, b :: 0 <= a < b < |SortedFrom(roles, i)| ==>
              RoleIndex(SortedFrom(roles, i)[a]) < RoleIndex(SortedFrom(roles, i)[b])
    decreases RoleCount - i
  {
    if i < RoleCount {
      SortedFromOrder(roles, i + 1);
      var t := RoleAt(i);
      RoleAtIndex(i);
      var head := if t in roles then [t] else [];
      var rest := SortedFrom(roles, i + 1);
      assert SortedFrom(roles, i) == head + rest;
      forall u ensures u in SortedFrom(roles, i) <==> u in roles && RoleIndex(u) >= i {
        if RoleIndex(u) == i {
          RoleIndexOf(u);
          assert u == t;
        }
      }
    }
  }

  // ---------------------------------------------------------------------
  // Layout

  /** The `IOLine(...)` or `Block(...)` built for one text: an `IO` text
      must be an `IOType` value (`ValueError` otherwise), and the cursor
      cannot move past a pad without a label size (`None * ratio` is a
      `TypeError`). */
  function NewSub(t: RoleType, role: Role, text: string, pos: V, dir: Option<LabelDir>, size: Option<real>): (r: Result<SubLabel>)
    ensures r.Ok? ==> r.value.pos == pos && r.value.roleType == t && r.value.ratio == role.ratio
    ensures r.Ok? ==> (t == IO <==> r.value.kind.IOLine?)
    ensures r.Ok? ==> t != IO ==> r.value.kind == Block(text)
    ensures t == IO && ParseIOType(text).None? ==> r == Err(ValueError)
    ensures (t != IO || ParseIOType(text).Some?) && size.None? ==> r == Err(TypeError)
  {
    var kind :- if t == IO then
                  (match ParseIOType(text)
                   case Some(io) => Ok(IOLine(io))
                   case None => Err(ValueError))
                else Ok(Block(text));
    if size.None? then Err(TypeError)
    else Ok(SubLabel(kind, t, pos, dir, size.value, role.ratio, ScaledPadding(DefaultPadding(kind), size.value)))
  }

  /** The cursor after `subs`. */
  function Advanced(x: real, subs: seq<SubLabel>): real
    decreases |subs|
  {
    if subs == [] then x else Advanced(x + subs[0].Advance(), subs[1..])
  }

  /** Each sub-label starts where the one before it ended its slot, on the
      same line `y`. */
  predicate Stacked(subs: seq<SubLabel>, x: real, y: real)
    decreases |subs|
  {
    subs == [] || (subs[0].pos == V(x, y) && Stacked(subs[1..], x + subs[0].Advance(), y))
  }

  /** `for text in texts:` for one role type. */
  function TextLabels(t: RoleType, role: Role, texts: seq<string>, pos: V, dir: Option<LabelDir>, size: Option<real>): (r: Result<seq<SubLabel>>)
    ensures r.Ok? ==> |r.value| == |texts|
    decreases |texts|
  {
    if texts == [] then Ok([])
    else
      var sub :- NewSub(t, role, texts[0], pos, dir, size);
      var rest :- TextLabels(t, role, texts[1..], V(pos.x + sub.Advance(), pos.y), dir, size);
      Ok([sub] + rest)
  }

  /** The sub-labels of one role type: none when `core.roles` does not
      define it. */
  function RoleLine(t: RoleType, roles: map<RoleType, Json>, coreRoles: map<RoleType, Role>,
                    format: RoleFormat, hidden: seq<string>, pos: V, dir: Option<LabelDir>, size: Option<real>): Result<seq<SubLabel>>
    requires t in roles
  {
    if t !in coreRoles then Ok([])
    else TextLabels(t, coreRoles[t], Texts(format, coreRoles[t], roles[t], hidden), pos, dir, size)
  }

  /** `for role_type, functions in roles:`, skipping role types that
      `core.roles` does not define. */
  function RoleLabels(types: seq<RoleType>, roles: map<RoleType, Json>, coreRoles: map<RoleType, Role>,
                      format: RoleFormat, hidden: seq<string>, pos: V, dir: Option<LabelDir>, size: Option<real>): Result<seq<SubLabel>>
    requires forall i :: 0 <= i < |types| ==> types[i] in roles
    decreases |types|
  {
    if types == [] then Ok([])
    else
      var here :- RoleLine(types[0], roles, coreRoles, format, hidden, pos, dir, size);
      var rest :- RoleLabels(types[1..], roles, coreRoles, format, hidden, V(Advanced(pos.x, here), pos.y), dir, size);
      Ok(here + rest)
  }

  /** What `Label.build` appends to `labels`. */
  function LayoutOf(roles: map<RoleType, Json>, coreRoles: map<RoleType, Role>, format: RoleFormat,
                    hidden: seq<string>, pos: V, dir: Option<LabelDir>, size: Option<real>): Result<seq<SubLabel>>
  {
    SortedRolesIn(roles);
    RoleLabels(SortedRoles(roles), roles, coreRoles, format, hidden, pos, dir, size)
  }

  lemma {:induction false} StackedAppend(a: seq<SubLabel>, b: seq<SubLabel>, x: real, y: real)
    requires Stacked(a, x, y) && Stacked(b, Advanced(x, a), y)
    ensures Stacked(a + b, x, y)
    decreases |a|
  {
    if a == [] {
      assert a + b == b;
    } else {
      StackedAppend(a[1..], b, x + a[0].Advance(), y);
      assert (a + b)[1..] == a[1..] + b;
    }
  }

  lemma {:induction false} TextLabelsStacked(t: RoleType, role: Role, texts: seq<string>, pos: V, dir: Option<LabelDir>, size: Option<real>)
    requires TextLabels(t, role, texts, pos, dir, size).Ok?
    ensures var subs := TextLabels(t, role, texts, pos, dir, size).value;
            && Stacked(subs, pos.x, pos.y)
            && forall i :: 0 <= i < |subs| ==> subs[i].roleType == t && subs[i].ratio == role.ratio
    decreases |texts|
  {
    if texts != [] {
      var sub := NewSub(t, role, texts[0], pos, dir, size).value;
      TextLabelsStacked(t, role, texts[1..], V(pos.x + sub.Advance(), pos.y), dir, size);
    }
  }

  /** The sub-labels of one line: placed one after the other, each with a
      role type that the roles hold and `core.roles` defines, in the order
      of `types`, and using that role's ratio. */
  lemma {:induction false} RoleLabelsStacked(types: seq<RoleType>, roles: map<RoleType, Json>, coreRoles: map<RoleType, Role>,
                                             format: RoleFormat, hidden: seq<string>, pos: V, dir: Option<LabelDir>, size: Option<real>)
    requires forall i :: 0 <= i < |types| ==> types[i] in roles
    requires RoleLabels(types, roles, coreRoles, format, hidden, pos, dir, size).Ok?
    ensures var subs := RoleLabels(types, roles, coreRoles, format, hidden, pos, dir, size).value;
            && Stacked(subs, pos.x, pos.y)
            && (forall i :: 0 <= i < |subs| ==> subs[i].roleType in types && subs[i].roleType in coreRoles &&
                                                 subs[i].ratio == coreRoles[subs[i].roleType].ratio)
    decreases |types|
  {
    if types != [] {
      if types[0] !in coreRoles {
        RoleLabelsStacked(types[1..], roles, coreRoles, format, hidden, pos, dir, size);
        var rest := RoleLabels(types[1..], roles, coreRoles, format, hidden, pos, dir, size).value;
        assert [] + rest == rest;
      } else {
        var role := coreRoles[types[0]];
        var here := TextLabels(types[0], role, Texts(format, role, roles[types[0]], hidden), pos, dir, size).value;
        var next := V(Advanced(pos.x, here), pos.y);
        TextLabelsStacked(types[0], role, Texts(format, role, roles[types[0]], hidden), pos, dir, size);
        RoleLabelsStacked(types[1..], roles, coreRoles, format, hidden, next, dir, size);
        var rest := RoleLabels(types[1..], roles, coreRoles, format, hidden, next, dir, size).value;
        StackedAppend(here, rest, pos.x, pos.y);
      }
    }
  }

  /** Stacking, one index at a time: the first sub-label is at the
      cursor, the line never changes, and each next one starts a slot
      further. */
  lemma {:induction false} StackedAt(subs: seq<SubLabel>, x: real, y: real, i: nat)
    requires Stacked(subs, x, y) && i < |subs|
    ensures subs[i].pos.y == y
    ensures i == 0 ==> subs[i].pos.x == x
    ensures i + 1 < |subs| ==> subs[i + 1].pos.x == subs[i].pos.x + subs[i].labelSize * subs[i].ratio * subs[i].Dirv()
    decreases i
  {
    if i > 0 {
      StackedAt(subs[1..], x + subs[0].Advance(), y, i - 1);
    }
  }

  // ---------------------------------------------------------------------
  // Boxes

  /** `min(labels, key=...)`/`max(...)` over the sub-label boxes. */
  function BoundsOf(subs: seq<SubLabel>): Box
    requires subs != []
    decreases |subs|
  {
    if |subs| == 1 then subs[0].Bounds() else Union(subs[0].Bounds(), BoundsOf(subs[1..]))
  }

  /** A label's box; `min` of no sub-labels is a `ValueError`. */
  function LabelBox(subs: seq<SubLabel>): (r: Result<Box>)
    ensures r.Err? <==> subs == []
  {
    if subs == [] then Err(ValueError) else Ok(BoundsOf(subs))
  }

  predicate Within(b: Box, outer: Box) {
    outer.x1 <= b.x1 && outer.y1 <= b.y1 && b.x2 <= outer.x2 && b.y2 <= outer.y2
  }

  /** The label's box holds every sub-label's box, and each of its sides
      is a side of some sub-label. */
  lemma {:induction false} BoundsOfUnion(subs: seq<SubLabel>)
    requires subs != []
    ensures forall i :: 0 <= i < |subs| ==> Within(subs[i].Bounds(), BoundsOf(subs))
    ensures exists i :: 0 <= i < |subs| && subs[i].Bounds().x1 == BoundsOf(subs).x1
    ensures exists i :: 0 <= i < |subs| && subs[i].Bounds().y1 == BoundsOf(subs).y1
    ensures exists i :: 0 <= i < |subs| && subs[i].Bounds().x2 == BoundsOf(subs).x2
    ensures exists i :: 0 <= i < |subs| && subs[i].Bounds().y2 == BoundsOf(subs).y2
    decreases |subs|
  {
    if |subs| > 1 {
      var tail := subs[1..];
      BoundsOfUnion(tail);
      var b := BoundsOf(subs);
      var first := subs[0].Bounds();
      forall i | 0 <= i < |subs| ensures Within(subs[i].Bounds(), b) {
        if i > 0 {
          assert subs[i] == tail[i - 1];
        }
      }
      if b.x1 != first.x1 {
        var i :| 0 <= i < |tail| && tail[i].Bounds().x1 == BoundsOf(tail).x1;
        assert subs[i + 1] == tail[i];
        assert subs[i + 1].Bounds().x1 == b.x1;
      } else {
        assert subs[0].Bounds().x1 == b.x1;
      }
      if b.y1 != first.y1 {
        var i :| 0 <= i < |tail| && tail[i].Bounds().y1 == BoundsOf(tail).y1;
        assert subs[i + 1] == tail[i];
        assert subs[i + 1].Bounds().y1 == b.y1;
      } else {
        assert subs[0].Bounds().y1 == b.y1;
      }
      if b.x2 != first.x2 {
        var i :| 0 <= i < |tail| && tail[i].Bounds().x2 == BoundsOf(tail).x2;
        assert subs[i + 1] == tail[i];
        assert subs[i + 1].Bounds().x2 == b.x2;
      } else {
        assert subs[0].Bounds().x2 == b.x2;
      }
      if b.y2 != first.y2 {
        var i :| 0 <= i < |tail| && tail[i].Bounds().y2 == BoundsOf(tail).y2;
        assert subs[i + 1] == tail[i];
        assert subs[i + 1].Bounds().y2 == b.y2;
      } else {
        assert subs[0].Bounds().y2 == b.y2;
      }
    } else {
      assert BoundsOf(subs) == subs[0].Bounds();
    }
  }

  function MoveSub(s: SubLabel, v: V): SubLabel {
    s.(pos := s.pos.Plus(v))
  }

  function MoveSubs(subs: seq<SubLabel>, v: V): (r: seq<SubLabel>)
    ensures |r| == |subs|
    ensures forall i :: 0 <= i < |subs| ==> r[i] == MoveSub(subs[i], v)
  {
    seq(|subs|, i requires 0 <= i < |subs| => MoveSub(subs[i], v))
  }

  lemma UnionShift(a: Box, b: Box, v: V)
    ensures Union(a.Shift(v), b.Shift(v)) == Union(a, b).Shift(v)
  {
  }

  /** Moving the label moves its box by the same vector. */
  lemma {:induction false} MoveBounds(subs: seq<SubLabel>, v: V)
    requires subs != []
    ensures BoundsOf(MoveSubs(subs, v)) == BoundsOf(subs).Shift(v)
    decreases |subs|
  {
    var moved := MoveSubs(subs, v);
    assert moved[0].Bounds() == subs[0].Bounds().Shift(v);
    if |subs| > 1 {
      MoveBounds(subs[1..], v);
      assert moved[1..] == MoveSubs(subs[1..], v);
      UnionShift(subs[0].Bounds(), BoundsOf(subs[1..]), v);
    }
  }

  lemma MoveLabelBox(subs: seq<SubLabel>, v: V)
    ensures LabelBox(MoveSubs(subs, v)) == if subs == [] then Err(ValueError) else Ok(LabelBox(subs).value.Shift(v))
  {
    if subs != [] {
      MoveBounds(subs, v);
    }
  }

  // ---------------------------------------------------------------------
  // The label

  /** `Label`: a pin's roles and the sub-labels built for them. */
  class Label {
    var pos: V
    var roles: map<RoleType, Json>
    var labels: seq<SubLabel>

    /** `Label(pos=pad.pos, roles=roles, ...)` */
    constructor (pos: V, roles: map<RoleType, Json>)
      ensures this.pos == pos && this.roles == roles && labels == []
    {
      this.pos := pos;
      this.roles := roles;
      labels := [];
    }

    /** `build(core, pin, pad, hidden)`: the roles are completed with their
        I/O role, then one sub-label per text of every role that
        `core.roles` defines is appended, in role order, starting at the
        label's position. `dir` and `size` are the pad's `label_dir` and
        `label_size`. */
    method Build(coreRoles: map<RoleType, Role>, format: RoleFormat, hidden: seq<string>, dir: Option<LabelDir>, size: Option<real>)
      returns (err: Option<Error>)
      modifies this
      ensures roles == IoRoles(old(roles)) && pos == old(pos)
      ensures var spec := LayoutOf(roles, coreRoles, format, hidden, pos, dir, size);
              && (err.None? <==> spec.Ok?)
              && (spec.Ok? ==> labels == old(labels) + spec.value)
              && (spec.Err? ==> err == Some(spec.error) && |labels| >= |old(labels)| && labels[..|old(labels)|] == old(labels))
    {
      InferIo();
      var types := RoleOrder();
      err := LayOut(types, coreRoles, format, hidden, dir, size);
    }

    /** The `if`s before the layout loop. */
    method InferIo()
      modifies this
      ensures roles == IoRoles(old(roles)) && pos == old(pos) && labels == old(labels)
    {
      if NC in roles {
        roles := roles[IO := StrOf(IoNC)];
      }
      if PWM in roles {
        roles := roles[IO := StrOf(IoPWM)];
      }
      if GPIO in roles && IO !in roles {
        roles := roles[IO := StrOf(IoIO)];
      }
      if PWR in roles || GND in roles {
        roles := roles[IO := StrOf(IoPWR)];
      }
      if GND in roles {
        roles := roles[GND := JStr("GND")];
      }
      if IO !in roles {
        roles := roles[IO := StrOf(IoNULL)];
      }
    }

    /** The layout loop over the sorted role types: the cursor starts at a
        copy of `pos` and moves by each sub-label's slot. */
    method LayOut(types: seq<RoleType>, coreRoles: map<RoleType, Role>, format: RoleFormat, hidden: seq<string>,
                  dir: Option<LabelDir>, size: Option<real>)
      returns (err: Option<Error>)
      requires forall k :: 0 <= k < |types| ==> types[k] in roles
      modifies this
      ensures roles == old(roles) && pos == old(pos)
      ensures var spec := RoleLabels(types, roles, coreRoles, format, hidden, pos, dir, size);
              && (err.None? <==> spec.Ok?)
              && (spec.Ok? ==> labels == old(labels) + spec.value)
              && (spec.Err? ==> err == Some(spec.error) && |labels| >= |old(labels)| && labels[..|old(labels)|] == old(labels))
    {
      ghost var spec := RoleLabels(types, roles, coreRoles, format, hidden, pos, dir, size);
      var cursor := pos;
      ghost var built: seq<SubLabel> := [];
      JoinedEmpty(spec);
      assert types[0..] == types;
      var i := 0;
      while i < |types|
        invariant 0 <= i <= |types| && roles == old(roles) && pos == old(pos)
        invariant labels == old(labels) + built
        invariant cursor == V(Advanced(pos.x, built), pos.y)
        invariant spec == Joined(built, RoleLabels(types[i..], roles, coreRoles, format, hidden, cursor, dir, size))
        decreases |types| - i
      {
        var t := types[i];
        ghost var line := RoleLine(t, roles, coreRoles, format, hidden, cursor, dir, size);
        LayOutStep(types, i, roles, coreRoles, format, hidden, pos, cursor, dir, size, built, spec);
        ghost var before := labels;
        err, cursor := LayOutRole(t, coreRoles, format, hidden, cursor, dir, size);
        if err.Some? {
          PrefixTrans(old(labels), before, labels);
          return err;
        }
        ConcatAssoc(old(labels), built, line.value);
        built := built + line.value;
        i := i + 1;
      }
      assert types[i..] == [];
      JoinedNil(built);
      return None;
    }

    /** `sorted(self.roles.items(), key=...)`: the label's role types in
        declaration order. */
    method RoleOrder() returns (types: seq<RoleType>)
      ensures types == SortedRoles(roles)
      ensures forall i :: 0 <= i < |types| ==> types[i] in roles
    {
      SortedRolesIn(roles);
      types := SortedRoles(roles);
    }

    /** One role type of the layout loop: nothing for a role type that
        `core.roles` does not define, else its texts. */
    method LayOutRole(t: RoleType, coreRoles: map<RoleType, Role>, format: RoleFormat, hidden: seq<string>,
                      start: V, dir: Option<LabelDir>, size: Option<real>)
      returns (err: Option<Error>, cursor: V)
      requires t in roles
      modifies this
      ensures roles == old(roles) && pos == old(pos)
      ensures var spec := RoleLine(t, roles, coreRoles, format, hidden, start, dir, size);
              && (err.None? <==> spec.Ok?)
              && (spec.Ok? ==> labels == old(labels) + spec.value && cursor == V(Advanced(start.x, spec.value), start.y))
              && (spec.Err? ==> err == Some(spec.error) && |labels| >= |old(labels)| && labels[..|old(labels)|] == old(labels))
    {
      if t !in coreRoles {
        assert labels == labels + [];
        return None, start;
      }
      var role := coreRoles[t];
      err, cursor := LayOutLine(t, role, Texts(format, role, roles[t], hidden), start, dir, size);
    }

    /** `for text in texts:` for one role type: each sub-label appended,
        the cursor moved past it. */
    method LayOutLine(t: RoleType, role: Role, texts: seq<string>, start: V, dir: Option<LabelDir>, size: Option<real>)
      returns (err: Option<Error>, cursor: V)
      modifies this
      ensures roles == old(roles) && pos == old(pos)
      ensures var spec := TextLabels(t, role, texts, start, dir, size);
              && (err.None? <==> spec.Ok?)
              && (spec.Ok? ==> labels == old(labels) + spec.value && cursor == V(Advanced(start.x, spec.value), start.y))
              && (spec.Err? ==> err == Some(spec.error) && |labels| >= |old(labels)| && labels[..|old(labels)|] == old(labels))
    {
      ghost var spec := TextLabels(t, role, texts, start, dir, size);
      cursor := start;
      var j := 0;
      ghost var line: seq<SubLabel> := [];
      JoinedEmpty(spec);
      assert texts[0..] == texts;
      while j < |texts|
        invariant 0 <= j <= |texts| && roles == old(roles) && pos == old(pos)
        invariant labels == old(labels) + line
        invariant cursor == V(Advanced(start.x, line), start.y)
        invariant spec == Joined(line, TextLabels(t, role, texts[j..], cursor, dir, size))
        decreases |texts| - j
      {
        LayOutLineStep(t, role, texts, j, start, cursor, dir, size, line, spec);
        var sub := NewSub(t, role, texts[j], cursor, dir, size);
        if sub.Err? {
          PrefixOfAppend(old(labels), line);
          return Some(sub.error), cursor;
        }
        ConcatAssoc(old(labels), line, [sub.value]);
        cursor := V(cursor.x + sub.value.Advance(), cursor.y);
        labels := labels + [sub.value];
        line := line + [sub.value];
        j := j + 1;
      }
      assert texts[j..] == [];
      JoinedNil(line);
      return None, cursor;
    }

    /** `move(vec)`: the label and every sub-label. */
    method Move(v: V)
      modifies this
      ensures pos == old(pos).Plus(v) && roles == old(roles)
      ensures labels == MoveSubs(old(labels), v)
    {
      pos := pos.Plus(v);
      var i := 0;
      while i < |labels|
        invariant 0 <= i <= |labels| && |labels| == |old(labels)|
        invariant pos == old(pos).Plus(v) && roles == old(roles)
        invariant forall k :: 0 <= k < i ==> labels[k] == MoveSub(old(labels)[k], v)
        invariant forall k :: i <= k < |labels| ==> labels[k] == old(labels)[k]
      {
        labels := labels[i := MoveSub(labels[i], v)];
        i := i + 1;
      }
    }
  }

  // ---------------------------------------------------------------------
  // Loop bookkeeping

  /** `xs` followed by the sub-labels of `r`, or the error of `r`. */
  function Joined(xs: seq<SubLabel>, r: Result<seq<SubLabel>>): Result<seq<SubLabel>> {
    match r
    case Ok(ys) => Ok(xs + ys)
    case Err(e) => Err(e)
  }

  lemma JoinedNil(xs: seq<SubLabel>)
    ensures Joined(xs, Ok([])) == Ok(xs)
  {
    assert xs + [] == xs;
  }

  lemma JoinedEmpty(r: Result<seq<SubLabel>>)
    ensures Joined([], r) == r
  {
    if r.Ok? {
      assert [] + r.value == r.value;
    }
  }

  lemma JoinedAppend(xs: seq<SubLabel>, ys: seq<SubLabel>, r: Result<seq<SubLabel>>)
    ensures Joined(xs, Joined(ys, r)) == Joined(xs + ys, r)
  {
    if r.Ok? {
      assert xs + (ys + r.value) == (xs + ys) + r.value;
    }
  }

  lemma {:induction false} AdvancedAppend(x: real, subs: seq<SubLabel>, s: SubLabel)
    ensures Advanced(x, subs + [s]) == Advanced(x, subs) + s.Advance()
    decreases |subs|
  {
    if subs == [] {
      assert [] + [s] == [s];
    } else {
      AdvancedAppend(x + subs[0].Advance(), subs[1..], s);
      assert (subs + [s])[1..] == subs[1..] + [s];
    }
  }

  lemma {:induction false} AdvancedConcat(x: real, a: seq<SubLabel>, b: seq<SubLabel>)
    ensures Advanced(x, a + b) == Advanced(Advanced(x, a), b)
    decreases |a|
  {
    if a == [] {
      assert a + b == b;
    } else {
      AdvancedConcat(x + a[0].Advance(), a[1..], b);
      assert (a + b)[1..] == a[1..] + b;
    }
  }

  lemma ConcatAssoc(a: seq<SubLabel>, b: seq<SubLabel>, c: seq<SubLabel>)
    ensures (a + b) + c == a + (b + c)
  {
  }

  lemma PrefixOfAppend(a: seq<SubLabel>, b: seq<SubLabel>)
    ensures (a + b)[..|a|] == a
  {
  }

  /** A prefix of a prefix is a prefix. */
  lemma PrefixTrans(xs: seq<SubLabel>, ys: seq<SubLabel>, zs: seq<SubLabel>)
    requires |xs| <= |ys| <= |zs| && ys[..|xs|] == xs && zs[..|ys|] == ys
    ensures zs[..|xs|] == xs
  {
    assert zs[..|xs|] == zs[..|ys|][..|xs|];
  }


  /** One step of the loop over a role's texts: the text's sub-label
      fails the line, or is added where the cursor is and moves it. */
  lemma LayOutLineStep(t: RoleType, role: Role, texts: seq<string>, j: nat, start: V, cursor: V, dir: Option<LabelDir>, size: Option<real>,
                       line: seq<SubLabel>, spec: Result<seq<SubLabel>>)
    requires j < |texts|
    requires spec == Joined(line, TextLabels(t, role, texts[j..], cursor, dir, size))
    requires cursor == V(Advanced(start.x, line), start.y)
    ensures var sub := NewSub(t, role, texts[j], cursor, dir, size);
            && (sub.Err? ==> spec == Err(sub.error))
            && (sub.Ok? ==>
                  var next := V(cursor.x + sub.value.Advance(), cursor.y);
                  && next == V(Advanced(start.x, line + [sub.value]), start.y)
                  && spec == Joined(line + [sub.value], TextLabels(t, role, texts[j + 1..], next, dir, size)))
  {
    assert texts[j..][1..] == texts[j + 1..];
    var sub := NewSub(t, role, texts[j], cursor, dir, size);
    if sub.Ok? {
      var next := V(cursor.x + sub.value.Advance(), cursor.y);
      AdvancedAppend(start.x, line, sub.value);
      JoinedAppend(line, [sub.value], TextLabels(t, role, texts[j + 1..], next, dir, size));
    }
  }

  /** One step of the layout loop: the cursor is behind the sub-labels
      built so far, and the first role type either fails the whole
      layout or adds its line and moves the cursor past it. */
  lemma LayOutStep(types: seq<RoleType>, i: nat, roles: map<RoleType, Json>, coreRoles: map<RoleType, Role>, format: RoleFormat,
                   hidden: seq<string>, start: V, cursor: V, dir: Option<LabelDir>, size: Option<real>,
                   built: seq<SubLabel>, spec: Result<seq<SubLabel>>)
    requires i < |types| && forall k :: 0 <= k < |types| ==> types[k] in roles
    requires spec == Joined(built, RoleLabels(types[i..], roles, coreRoles, format, hidden, cursor, dir, size))
    requires cursor == V(Advanced(start.x, built), start.y)
    ensures var line := RoleLine(types[i], roles, coreRoles, format, hidden, cursor, dir, size);
            && (line.Err? ==> spec == Err(line.error))
            && (line.Ok? ==>
                  var next := V(Advanced(cursor.x, line.value), cursor.y);
                  && next == V(Advanced(start.x, built + line.value), start.y)
                  && spec == Joined(built + line.value, RoleLabels(types[i + 1..], roles, coreRoles, format, hidden, next, dir, size)))
  {
    assert types[i..][1..] == types[i + 1..];
    var line := RoleLine(types[i], roles, coreRoles, format, hidden, cursor, dir, size);
    if line.Ok? {
      var next := V(Advanced(cursor.x, line.value), cursor.y);
      AdvancedConcat(start.x, built, line.value);
      JoinedAppend(built, line.value, RoleLabels(types[i + 1..], roles, coreRoles, format, hidden, next, dir, size));
    }
  }

}
