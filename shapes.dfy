/** The shape tree of `boardgen/shapes`: rectangles, circles, texts and
    groups (`ShapeGroup`), with their bounding boxes (`x1`, `y1`, `x2`,
    `y2`), `move`, and the id searches of groups. Coordinates are exact
    reals. Shapes are values here: `move` returns the moved tree. */
module Shapes {
  import opened Wrappers
  import opened JsonValue
  import opened Mixins
  import opened Text
  import Enums

  /** `V`, with the operations the model needs. */
  datatype V = V(x: real, y: real) {
    function Plus(o: V): V {
      V(x + o.x, y + o.y)
    }

    function Neg(): V {
      V(-x, -y)
    }
  }

  /** The fields of `Shape` and `HasId`. An empty `id`, `name` or
      `idSuffix` stands for `None`; `baseId` is set only by id
      namespacing, where `None` and `""` differ. */
  datatype Meta = Meta(
    id: string,
    name: string,
    idSuffix: string,
    baseId: Option<string>,
    pos: V,
    labelDir: Option<Enums.LabelDir>,
    labelSize: Option<real>)

  datatype Shape =
    | RectShape(meta: Meta, size: V)
    | CircleShape(meta: Meta, r: real)
    | TextShape(meta: Meta, text: string, fontSize: real)
    | GroupShape(meta: Meta, repeat: int, vars: seq<Field>, shapes: seq<Shape>)

  /** `shape.fullid`: groups are the only shapes with variables. */
  function FullIdOf(s: Shape): Result<Option<string>> {
    FullId(s.meta.id, s.meta.name, s.meta.idSuffix, if s.GroupShape? then Some(s.vars) else None)
  }

  datatype Box = Box(x1: real, y1: real, x2: real, y2: real) {
    /** `width`, `height` */
    function Width(): real {
      x2 - x1
    }

    function Height(): real {
      y2 - y1
    }

    function Shift(v: V): Box {
      Box(x1 + v.x, y1 + v.y, x2 + v.x, y2 + v.y)
    }
  }

  /** The smallest box holding both. */
  function Union(a: Box, b: Box): (r: Box)
    ensures r.x1 <= a.x1 && r.x1 <= b.x1 && (r.x1 == a.x1 || r.x1 == b.x1)
    ensures r.y1 <= a.y1 && r.y1 <= b.y1 && (r.y1 == a.y1 || r.y1 == b.y1)
    ensures r.x2 >= a.x2 && r.x2 >= b.x2 && (r.x2 == a.x2 || r.x2 == b.x2)
    ensures r.y2 >= a.y2 && r.y2 >= b.y2 && (r.y2 == a.y2 || r.y2 == b.y2)
  {
    Box(if a.x1 <= b.x1 then a.x1 else b.x1,
        if a.y1 <= b.y1 then a.y1 else b.y1,
        if a.x2 >= b.x2 then a.x2 else b.x2,
        if a.y2 >= b.y2 then a.y2 else b.y2)
  }

  /** The bounding box of a shape: `Rect` spans `pos` to `pos + size`,
      `Circle` is `pos ± r`, `Text` is `pos ± 1`, and a group is the union
      of its children's boxes (`min`/`max` over them), which is a
      `ValueError` for a group without children. */
  function BoxOf(s: Shape): Result<Box>
    decreases s, 1
  {
    match s
    case RectShape(m, size) => Ok(Box(m.pos.x, m.pos.y, m.pos.x + size.x, m.pos.y + size.y))
    case CircleShape(m, r) => Ok(Box(m.pos.x - r, m.pos.y - r, m.pos.x + r, m.pos.y + r))
    case TextShape(m, _, _) => Ok(Box(m.pos.x - 1.0, m.pos.y - 1.0, m.pos.x + 1.0, m.pos.y + 1.0))
    case GroupShape(_, _, _, shapes) => if shapes == [] then Err(ValueError) else UnionOf(shapes)
  }

  function UnionOf(shapes: seq<Shape>): Result<Box>
    requires shapes != []
    decreases shapes, 0
  {
    var first :- BoxOf(shapes[0]);
    if |shapes| == 1 then Ok(first)
    else
      var rest :- UnionOf(shapes[1..]);
      Ok(Union(first, rest))
  }

  /** A rectangle's width and height are its size. */
  lemma RectSize(m: Meta, size: V)
    ensures var b := BoxOf(RectShape(m, size)).value;
            b.Width() == size.x && b.Height() == size.y
  {
  }

  /** An illustration of `RectSize`: position (1, 2) and size (3, 4) give
      the box (1, 2)-(4, 6). */
  lemma RectExample(m: Meta)
    requires m.pos == V(1.0, 2.0)
    ensures BoxOf(RectShape(m, V(3.0, 4.0))) == Ok(Box(1.0, 2.0, 4.0, 6.0))
  {
  }

  /** A circle's box is as wide and as high as its diameter. */
  lemma CircleSize(m: Meta, r: real)
    ensures var b := BoxOf(CircleShape(m, r)).value;
            b.Width() == 2.0 * r && b.Height() == 2.0 * r
  {
  }

  /** A text's box is 2 by 2 whatever its text and font size. */
  lemma TextSize(m: Meta, text: string, fontSize: real, text': string, fontSize': real)
    ensures BoxOf(TextShape(m, text, fontSize)) == BoxOf(TextShape(m, text', fontSize'))
    ensures var b := BoxOf(TextShape(m, text, fontSize)).value;
            b.Width() == 2.0 && b.Height() == 2.0
  {
  }

  /** The union of the children's boxes holds every child's box and each
      of its edges is an edge of some child: it is the componentwise
      `min`/`max`. */
  lemma {:induction false} UnionOfBounds(shapes: seq<Shape>)
    requires shapes != [] && UnionOf(shapes).Ok?
    ensures forall i :: 0 <= i < |shapes| ==> BoxOf(shapes[i]).Ok?
    ensures var u := UnionOf(shapes).value;
            forall i :: 0 <= i < |shapes| ==>
              var b := BoxOf(shapes[i]).value;
              u.x1 <= b.x1 && u.y1 <= b.y1 && u.x2 >= b.x2 && u.y2 >= b.y2
    ensures var u := UnionOf(shapes).value;
            && (exists i :: 0 <= i < |shapes| && u.x1 == BoxOf(shapes[i]).value.x1)
            && (exists i :: 0 <= i < |shapes| && u.y1 == BoxOf(shapes[i]).value.y1)
            && (exists i :: 0 <= i < |shapes| && u.x2 == BoxOf(shapes[i]).value.x2)
            && (exists i :: 0 <= i < |shapes| && u.y2 == BoxOf(shapes[i]).value.y2)
  {
    if |shapes| > 1 {
      UnionOfBounds(shapes[1..]);
      var u := UnionOf(shapes).value;
      var r := UnionOf(shapes[1..]).value;
      assert forall i :: 1 <= i < |shapes| ==> shapes[i] == shapes[1..][i - 1];
      if u.x1 != BoxOf(shapes[0]).value.x1 {
        var i :| 0 <= i < |shapes[1..]| && r.x1 == BoxOf(shapes[1..][i]).value.x1;
        assert u.x1 == BoxOf(shapes[i + 1]).value.x1;
      }
      if u.y1 != BoxOf(shapes[0]).value.y1 {
        var i :| 0 <= i < |shapes[1..]| && r.y1 == BoxOf(shapes[1..][i]).value.y1;
        assert u.y1 == BoxOf(shapes[i + 1]).value.y1;
      }
      if u.x2 != BoxOf(shapes[0]).value.x2 {
        var i :| 0 <= i < |shapes[1..]| && r.x2 == BoxOf(shapes[1..][i]).value.x2;
        assert u.x2 == BoxOf(shapes[i + 1]).value.x2;
      }
      if u.y2 != BoxOf(shapes[0]).value.y2 {
        var i :| 0 <= i < |shapes[1..]| && r.y2 == BoxOf(shapes[1..][i]).value.y2;
        assert u.y2 == BoxOf(shapes[i + 1]).value.y2;
      }
    }
  }

  /** `move(v)`: the shape and, for a group, every descendant, shifted by
      `v`. */
  function Move(s: Shape, v: V): Shape
    decreases s, 1
  {
    match s
    case RectShape(m, size) => RectShape(m.(pos := m.pos.Plus(v)), size)
    case CircleShape(m, r) => CircleShape(m.(pos := m.pos.Plus(v)), r)
    case TextShape(m, t, f) => TextShape(m.(pos := m.pos.Plus(v)), t, f)
    case GroupShape(m, n, vars, shapes) => GroupShape(m.(pos := m.pos.Plus(v)), n, vars, MoveAll(shapes, v))
  }

  function MoveAll(shapes: seq<Shape>, v: V): (r: seq<Shape>)
    ensures |r| == |shapes|
    decreases shapes, 0
  {
    if shapes == [] then [] else [Move(shapes[0], v)] + MoveAll(shapes[1..], v)
  }

  lemma {:induction false} MoveAllAt(shapes: seq<Shape>, v: V, i: nat)
    requires i < |shapes|
    ensures MoveAll(shapes, v)[i] == Move(shapes[i], v)
  {
    if i > 0 {
      MoveAllAt(shapes[1..], v, i - 1);
    }
  }

  /** Moving by `v` and then by `-v` restores every position. */
  lemma {:induction false} MoveBack(s: Shape, v: V)
    ensures Move(Move(s, v), v.Neg()) == s
    decreases s, 1
  {
    if s.GroupShape? {
      MoveAllBack(s.shapes, v);
    }
  }

  lemma {:induction false} MoveAllBack(shapes: seq<Shape>, v: V)
    ensures MoveAll(MoveAll(shapes, v), v.Neg()) == shapes
    decreases shapes, 0
  {
    if shapes != [] {
      MoveBack(shapes[0], v);
      MoveAllBack(shapes[1..], v);
      assert MoveAll(shapes, v)[1..] == MoveAll(shapes[1..], v);
      assert [shapes[0]] + shapes[1..] == shapes;
    }
  }

  /** Moving shifts the bounding box by the same vector (an empty group
      stays an error), and keeps sizes and radii. */
  lemma {:induction false} MoveBox(s: Shape, v: V)
    ensures BoxOf(Move(s, v)) == if BoxOf(s).Ok? then Ok(BoxOf(s).value.Shift(v)) else BoxOf(s)
    ensures s.RectShape? ==> Move(s, v).size == s.size
    ensures s.CircleShape? ==> Move(s, v).r == s.r
    decreases s, 1
  {
    if s.GroupShape? && s.shapes != [] {
      MoveUnion(s.shapes, v);
    }
  }

  lemma {:induction false} MoveUnion(shapes: seq<Shape>, v: V)
    requires shapes != []
    ensures UnionOf(MoveAll(shapes, v)) == if UnionOf(shapes).Ok? then Ok(UnionOf(shapes).value.Shift(v)) else UnionOf(shapes)
    decreases shapes, 0
  {
    MoveBox(shapes[0], v);
    MoveAllAt(shapes, v, 0);
    if |shapes| > 1 {
      MoveUnion(shapes[1..], v);
      assert MoveAll(shapes, v)[1..] == MoveAll(shapes[1..], v);
    }
  }

  /** `ShapeGroup.wrap(core, id, shapes)`: a group with no name, at the
      origin, holding the given shapes as they are. */
  function Wrap(id: string, shapes: seq<Shape>): (g: Shape)
    ensures g.GroupShape? && g.shapes == shapes && g.meta.pos == V(0.0, 0.0)
    ensures FullIdOf(g) == Ok(if id == [] then None else Some(id))
  {
    assert FieldKeys([]) == [];
    assert id + Suffix([]) == id;
    GroupShape(Meta(id, [], [], None, V(0.0, 0.0), None, None), 1, [], shapes)
  }

  /** All descendants in pre-order: each shape, then what it contains. */
  function Flatten(shapes: seq<Shape>): seq<Shape>
    decreases shapes
  {
    if shapes == [] then []
    else [shapes[0]] + (if shapes[0].GroupShape? then Flatten(shapes[0].shapes) else []) + Flatten(shapes[1..])
  }

  /** `get_by_id(id)` over a group's children: depth first, each child
      before its own children, the first shape whose `fullid` is `id`. */
  function GetById(shapes: seq<Shape>, id: string): Result<Option<Shape>>
    decreases shapes
  {
    if shapes == [] then Ok(None)
    else
      var s := shapes[0];
      var f :- FullIdOf(s);
      if f == Some(id) then Ok(Some(s))
      else
        var inner :- if s.GroupShape? then GetById(s.shapes, id) else Ok(None);
        if inner.Some? then Ok(inner) else GetById(shapes[1..], id)
  }

  predicate HasId(s: Shape, id: string) {
    FullIdOf(s) == Ok(Some(id))
  }

  /** The first shape of `xs` with the id. */
  function FirstWithId(xs: seq<Shape>, id: string): (r: Option<Shape>)
    ensures r.None? <==> forall i :: 0 <= i < |xs| ==> !HasId(xs[i], id)
  {
    if xs == [] then None
    else if HasId(xs[0], id) then Some(xs[0])
    else
      assert forall i :: 1 <= i < |xs| ==> xs[i] == xs[1..][i - 1];
      FirstWithId(xs[1..], id)
  }

  /** What `FirstWithId` finds has the id, and nothing before it has. */
  lemma {:induction false} FirstWithIdIndex(xs: seq<Shape>, id: string)
    requires FirstWithId(xs, id).Some?
    ensures exists i :: 0 <= i < |xs| && xs[i] == FirstWithId(xs, id).value && HasId(xs[i], id)
                        && forall j :: 0 <= j < i ==> !HasId(xs[j], id)
  {
    if !HasId(xs[0], id) {
      FirstWithIdIndex(xs[1..], id);
      var i :| 0 <= i < |xs[1..]| && xs[1..][i] == FirstWithId(xs[1..], id).value && HasId(xs[1..][i], id)
               && forall j :: 0 <= j < i ==> !HasId(xs[1..][j], id);
      assert forall j :: 1 <= j < i + 1 ==> xs[j] == xs[1..][j - 1];
      assert xs[i + 1] == FirstWithId(xs, id).value;
    }
  }

  lemma {:induction false} FirstWithIdAppend(a: seq<Shape>, b: seq<Shape>, id: string)
    ensures FirstWithId(a + b, id) == if FirstWithId(a, id).Some? then FirstWithId(a, id) else FirstWithId(b, id)
  {
    if a != [] {
      FirstWithIdAppend(a[1..], b, id);
      assert (a + b)[1..] == a[1..] + b;
    } else {
      assert a + b == b;
    }
  }

  /** Every shape in the tree has a computable `fullid`. */
  predicate IdsDefined(shapes: seq<Shape>) {
    forall i :: 0 <= i < |Flatten(shapes)| ==> FullIdOf(Flatten(shapes)[i]).Ok?
  }

  /** `get_by_id` finds the first shape with the id in pre-order, and
      `None` when there is none; the group itself is never compared. */
  lemma {:induction false} GetByIdPreOrder(shapes: seq<Shape>, id: string)
    requires IdsDefined(shapes)
    ensures GetById(shapes, id) == Ok(FirstWithId(Flatten(shapes), id))
    decreases shapes
  {
    if shapes != [] {
      var s := shapes[0];
      var kids := if s.GroupShape? then Flatten(s.shapes) else [];
      var flat := Flatten(shapes);
      assert flat == [s] + kids + Flatten(shapes[1..]);
      assert flat[0] == s;
      assert FullIdOf(s).Ok?;
      IdsDefinedParts(s, kids, Flatten(shapes[1..]));
      if s.GroupShape? {
        GetByIdPreOrder(s.shapes, id);
      }
      GetByIdPreOrder(shapes[1..], id);
      FirstWithIdAppend([s] + kids, Flatten(shapes[1..]), id);
      FirstWithIdAppend([s], kids, id);
      assert [s][1..] == [];
    }
  }

  lemma IdsDefinedParts(s: Shape, kids: seq<Shape>, rest: seq<Shape>)
    requires forall i :: 0 <= i < |[s] + kids + rest| ==> FullIdOf(([s] + kids + rest)[i]).Ok?
    ensures forall i :: 0 <= i < |kids| ==> FullIdOf(kids[i]).Ok?
    ensures forall i :: 0 <= i < |rest| ==> FullIdOf(rest[i]).Ok?
  {
    var all := [s] + kids + rest;
    forall i | 0 <= i < |kids| ensures FullIdOf(kids[i]).Ok? {
      assert kids[i] == all[i + 1];
    }
    forall i | 0 <= i < |rest| ensures FullIdOf(rest[i]).Ok? {
      assert rest[i] == all[i + 1 + |kids|];
    }
  }

  /** `get_by_id_path(path)`: the path is split at dots. */
  function GetByIdPath(shapes: seq<Shape>, path: string): Option<Shape>
    decreases shapes, 1
  {
    PathIn(shapes, Split(path, '.'))
  }

  /** The first child whose `base_id` is the first segment decides: it is
      the result when no segments remain or when it is not a group, and
      otherwise the rest of the path is looked up in it. Later siblings
      are never tried. */
  function PathIn(shapes: seq<Shape>, segs: seq<string>): Option<Shape>
    requires segs != []
    decreases shapes, 0
  {
    if shapes == [] then None
    else if shapes[0].meta.baseId != Some(segs[0]) then PathIn(shapes[1..], segs)
    else if |segs| == 1 then Some(shapes[0])
    else if shapes[0].GroupShape? then GetByIdPath(shapes[0].shapes, Join(".", segs[1..]))
    else Some(shapes[0])
  }

  /** The first child with the segment as `base_id` alone decides the
      result; with no such child the result is `None`. */
  lemma {:induction false} PathFirstMatch(shapes: seq<Shape>, segs: seq<string>, i: nat)
    requires segs != [] && i < |shapes| && shapes[i].meta.baseId == Some(segs[0])
    requires forall j :: 0 <= j < i ==> shapes[j].meta.baseId != Some(segs[0])
    ensures PathIn(shapes, segs) ==
              if |segs| > 1 && shapes[i].GroupShape? then GetByIdPath(shapes[i].shapes, Join(".", segs[1..]))
              else Some(shapes[i])
  {
    if i > 0 {
      PathFirstMatch(shapes[1..], segs, i - 1);
    }
  }

  lemma {:induction false} PathNoMatch(shapes: seq<Shape>, segs: seq<string>)
    requires segs != []
    requires forall j :: 0 <= j < |shapes| ==> shapes[j].meta.baseId != Some(segs[0])
    ensures PathIn(shapes, segs) == None
  {
    if shapes != [] {
      PathNoMatch(shapes[1..], segs);
    }
  }

  /** `Circle.__init__`: without a truthy `r` or `d` it is a `ValueError`;
      a truthy `d` sets `r` to `d / 2`, whatever `r` was. */
  function MakeCircle(m: Meta, r: Option<real>, d: Option<real>): (c: Result<Shape>)
    ensures c.Err? <==> (r.None? || r.value == 0.0) && (d.None? || d.value == 0.0)
    ensures c.Err? ==> c.error == ValueError
    ensures c.Ok? ==> c.value.CircleShape? && c.value.meta == m
    ensures c.Ok? && d.Some? && d.value != 0.0 ==> c.value.r == d.value / 2.0
    ensures c.Ok? && (d.None? || d.value == 0.0) ==> c.value.r == r.value
  {
    var rt := r.Some? && r.value != 0.0;
    var dt := d.Some? && d.value != 0.0;
    if !rt && !dt then Err(ValueError)
    else if dt then Ok(CircleShape(m, d.value / 2.0))
    else Ok(CircleShape(m, r.value))
  }

  /** A circle given by its diameter is as wide as the diameter. */
  lemma DiameterWidth(m: Meta, r: Option<real>, d: real)
    requires d != 0.0
    ensures MakeCircle(m, r, Some(d)).Ok?
    ensures BoxOf(MakeCircle(m, r, Some(d)).value).value.Width() == d
  {
  }
}
