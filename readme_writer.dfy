/** `ReadmeWriter` of `boardgen/readme/writer.py`: writes a board's
    README as `ReadmeParts` items: the board's info and specification
    table (with its I/O counts), usage snippets, the Arduino pin mapping
    (rows in numeric order) and the flash map with its reserved gaps. */
module ReadmeWriter {
  import opened Wrappers
  import opened Text
  import opened JsonValue
  import opened Enums
  import opened Labels
  import opened ReadmeParts
  import Flash
  import VariantWriter

  // ---------------------------------------------------------------------
  // The board as the writer reads it

  /** `BoardDocParams`; an empty string stands for a missing value. */
  datatype Params = Params(manufacturer: string, series: string, voltage: string, extra: seq<(string, string)>)

  /** `BoardDoc`: its parameters, links, FCC ID and extra items. */
  datatype Doc = Doc(params: Option<Params>, links: seq<(string, string)>, fccid: string, extra: seq<string>)

  /** The board fields the writer reads. `pinout` holds the pin entries
      of `board.pcb.pinout` in order (none without a PCB); `cpuFreq` is
      the board's float-formatted frequency text. */
  datatype Board = Board(
    id: string,
    name: string,
    vendor: string,
    url: string,
    mcu: string,
    doc: Option<Doc>,
    cpuFreq: string,
    flashSize: nat,
    ramSize: nat,
    pinout: seq<VariantWriter.PinDict>,
    templates: bool,
    hasArduinoCore: bool,
    flash: seq<Flash.FlashRegion>)

  /** What the writer takes from the core: `is_libretuya`, the roles and
      their long formatting, the flash region titles, and `sizeof`, the
      float formatting helper, as a function. */
  datatype Env = Env(
    isLibretuya: bool,
    roles: map<RoleType, Role>,
    format: VariantWriter.LongFormat,
    flashNames: map<string, string>,
    sizeOf: nat -> string)

  const DefaultParams := Params("", "", "", [])
  const DefaultDoc := Doc(None, [], "", [])

  /** The board after `write` fills in a missing `doc` and a missing
      `doc.params`: both are then present, a present one is kept, and
      nothing else changes. */
  function WithDefaults(board: Board): (b: Board)
    ensures b.doc.Some? && b.doc.value.params.Some?
    ensures b == board.(doc := b.doc)
    ensures board.doc.Some? ==> b.doc.value == board.doc.value.(params := b.doc.value.params)
    ensures board.doc.Some? && board.doc.value.params.Some? ==> b == board
    ensures board.doc.None? ==> b.doc == Some(DefaultDoc.(params := Some(DefaultParams)))
  {
    var d := if board.doc.None? then DefaultDoc else board.doc.value;
    var p := if d.params.None? then DefaultParams else d.params.value;
    board.(doc := Some(d.(params := Some(p))))
  }

  // ---------------------------------------------------------------------
  // I/O counts

  /** The values of every role type, per type. */
  type RolePins = map<RoleType, set<string>>

  /** A role's values: a list as it is, anything else as `[str(roles)]`. */
  function ValuesOf(v: Json): seq<Json> {
    if v.JList? then v.items else [JStr(PyStr(v))]
  }

  /** What one value counts as: an indexed value `<digit>_...` longer
      than two characters counts as its index, any other text as itself;
      an empty text has no `role[0]` and a non-text value cannot be
      indexed. */
  function RoleKey(v: Json): (r: Result<string>)
    ensures r.Ok? ==> v.JStr? && v.s != []
    ensures v.JStr? && |v.s| > 2 && IsDigit(v.s[0]) && v.s[1] == '_' ==> r == Ok([v.s[0]])
    ensures v.JStr? && v.s != [] && !(|v.s| > 2 && IsDigit(v.s[0]) && v.s[1] == '_') ==> r == Ok(v.s)
  {
    if !v.JStr? then Err(TypeError)
    else if v.s == [] then Err(IndexError)
    else if IsDigit(v.s[0]) && |v.s| > 2 && v.s[1] == '_' then Ok([v.s[0]])
    else Ok(v.s)
  }

  /** `role_pins[role_type].add(...)` for one value. */
  function KeyAdded(s: set<string>, v: Json): Result<set<string>> {
    var k :- RoleKey(v);
    Ok(s + {k})
  }

  /** One role of a pin: its set is created when missing, then every
      value is added. */
  function RoleAdded(rp: RolePins, e: (RoleType, Json)): Result<RolePins> {
    var s := if e.0 in rp then rp[e.0] else {};
    var s2 :- Fold(KeyAdded, s, ValuesOf(e.1));
    Ok(rp[e.0 := s2])
  }

  function PinAdded(rp: RolePins, pin: VariantWriter.PinDict): Result<RolePins> {
    Fold(RoleAdded, rp, pin)
  }

  /** `role_pins` after the loop over the pinout. */
  function RolePinsOf(pinout: seq<VariantWriter.PinDict>): Result<RolePins> {
    Fold(PinAdded, map[], pinout)
  }

  /** The values of a loop over `vs` are those already there and the key
      of every value. */
  lemma {:induction false} KeysAdded(s: set<string>, vs: seq<Json>)
    requires Fold(KeyAdded, s, vs).Ok?
    ensures forall k :: k in Fold(KeyAdded, s, vs).value <==> k in s || exists m :: 0 <= m < |vs| && RoleKey(vs[m]) == Ok(k)
    decreases |vs|
  {
    if vs != [] {
      var n := |vs| - 1;
      var init := vs[..n];
      KeysAdded(s, init);
      var r := Fold(KeyAdded, s, vs).value;
      var r0 := Fold(KeyAdded, s, init).value;
      assert r == r0 + {RoleKey(vs[n]).value};
      forall k
        ensures k in r <==> k in s || exists m :: 0 <= m < |vs| && RoleKey(vs[m]) == Ok(k)
      {
        if exists m :: 0 <= m < |vs| && RoleKey(vs[m]) == Ok(k) {
          var m :| 0 <= m < |vs| && RoleKey(vs[m]) == Ok(k);
          if m < n {
            assert init[m] == vs[m];
          }
        }
        if exists m :: 0 <= m < |init| && RoleKey(init[m]) == Ok(k) {
          var m :| 0 <= m < |init| && RoleKey(init[m]) == Ok(k);
          assert vs[m] == init[m];
        }
      }
    }
  }

  /** Some value of a pin's role gives key `k`. */
  predicate EntryGives(e: (RoleType, Json), k: string) {
    exists m :: 0 <= m < |ValuesOf(e.1)| && RoleKey(ValuesOf(e.1)[m]) == Ok(k)
  }

  /** Some role of type `t` of the pin gives key `k`. */
  predicate PinGives(pin: VariantWriter.PinDict, t: RoleType, k: string) {
    exists j :: 0 <= j < |pin| && pin[j].0 == t && EntryGives(pin[j], k)
  }

  predicate PinHas(pin: VariantWriter.PinDict, t: RoleType) {
    exists j :: 0 <= j < |pin| && pin[j].0 == t
  }

  lemma PinGivesSnoc(init: VariantWriter.PinDict, e: (RoleType, Json), t: RoleType, k: string)
    ensures PinGives(init + [e], t, k) <==> PinGives(init, t, k) || (e.0 == t && EntryGives(e, k))
  {
    var pin := init + [e];
    if PinGives(pin, t, k) {
      var j :| 0 <= j < |pin| && pin[j].0 == t && EntryGives(pin[j], k);
      if j < |init| {
        assert init[j] == pin[j];
      }
    }
    if PinGives(init, t, k) {
      var j :| 0 <= j < |init| && init[j].0 == t && EntryGives(init[j], k);
      assert pin[j] == init[j];
    }
    if e.0 == t && EntryGives(e, k) {
      assert pin[|init|] == e;
    }
  }

  lemma PinHasSnoc(init: VariantWriter.PinDict, e: (RoleType, Json), t: RoleType)
    ensures PinHas(init + [e], t) <==> PinHas(init, t) || e.0 == t
  {
    var pin := init + [e];
    if PinHas(pin, t) {
      var j :| 0 <= j < |pin| && pin[j].0 == t;
      if j < |init| {
        assert init[j] == pin[j];
      }
    }
    if PinHas(init, t) {
      var j :| 0 <= j < |init| && init[j].0 == t;
      assert pin[j] == init[j];
    }
    if e.0 == t {
      assert pin[|init|] == e;
    }
  }

  /** The role types of a pin loop are those already there and the pin's;
      each holds the keys already there and the keys the pin gives it. */
  lemma PinKeys(rp: RolePins, pin: VariantWriter.PinDict)
    requires PinAdded(rp, pin).Ok?
    ensures forall t :: t in PinAdded(rp, pin).value <==> t in rp || PinHas(pin, t)
    ensures forall t, k :: t in PinAdded(rp, pin).value ==>
              (k in PinAdded(rp, pin).value[t] <==> (t in rp && k in rp[t]) || PinGives(pin, t, k))
  {
    forall t
      ensures t in PinAdded(rp, pin).value <==> t in rp || PinHas(pin, t)
    {
      PinKeysAt(rp, pin, t, "");
    }
    forall t, k
      ensures t in PinAdded(rp, pin).value ==>
                (k in PinAdded(rp, pin).value[t] <==> (t in rp && k in rp[t]) || PinGives(pin, t, k))
    {
      PinKeysAt(rp, pin, t, k);
    }
  }

  /** `PinKeys` for one role type and one key. */
  lemma {:induction false} PinKeysAt(rp: RolePins, pin: VariantWriter.PinDict, t: RoleType, k: string)
    requires PinAdded(rp, pin).Ok?
    ensures t in PinAdded(rp, pin).value <==> t in rp || PinHas(pin, t)
    ensures t in PinAdded(rp, pin).value ==>
              (k in PinAdded(rp, pin).value[t] <==> (t in rp && k in rp[t]) || PinGives(pin, t, k))
    decreases |pin|
  {
    if pin != [] {
      var n := |pin| - 1;
      var init := pin[..n];
      PinKeysAt(rp, init, t, k);
      var e := pin[n];
      assert PinAdded(rp, pin) == RoleAdded(PinAdded(rp, init).value, e);
      RoleAddedKeys(PinAdded(rp, init).value, e, t, k);
      assert pin == init + [e];
      PinHasSnoc(init, e, t);
      PinGivesSnoc(init, e, t, k);
    }
  }

  /** One role of a pin adds its type, and to that type's set the keys of
      its values. */
  lemma RoleAddedKeys(rp: RolePins, e: (RoleType, Json), t: RoleType, k: string)
    requires RoleAdded(rp, e).Ok?
    ensures t in RoleAdded(rp, e).value <==> t in rp || e.0 == t
    ensures t in RoleAdded(rp, e).value ==>
              (k in RoleAdded(rp, e).value[t] <==> (t in rp && k in rp[t]) || (e.0 == t && EntryGives(e, k)))
  {
    var s := if e.0 in rp then rp[e.0] else {};
    KeysAdded(s, ValuesOf(e.1));
  }

  /** Somewhere in the pinout, role type `t` has a value whose key is
      `k`. */
  predicate PinoutGives(pinout: seq<VariantWriter.PinDict>, t: RoleType, k: string) {
    exists i :: 0 <= i < |pinout| && PinGives(pinout[i], t, k)
  }

  predicate PinoutHas(pinout: seq<VariantWriter.PinDict>, t: RoleType) {
    exists i :: 0 <= i < |pinout| && PinHas(pinout[i], t)
  }

  lemma PinoutGivesSnoc(init: seq<VariantWriter.PinDict>, pin: VariantWriter.PinDict, t: RoleType, k: string)
    ensures PinoutGives(init + [pin], t, k) <==> PinoutGives(init, t, k) || PinGives(pin, t, k)
  {
    var pinout := init + [pin];
    if PinoutGives(pinout, t, k) {
      var i :| 0 <= i < |pinout| && PinGives(pinout[i], t, k);
      if i < |init| {
        assert init[i] == pinout[i];
      }
    }
    if PinoutGives(init, t, k) {
      var i :| 0 <= i < |init| && PinGives(init[i], t, k);
      assert pinout[i] == init[i];
    }
    if PinGives(pin, t, k) {
      assert pinout[|init|] == pin;
    }
  }

  lemma PinoutHasSnoc(init: seq<VariantWriter.PinDict>, pin: VariantWriter.PinDict, t: RoleType)
    ensures PinoutHas(init + [pin], t) <==> PinoutHas(init, t) || PinHas(pin, t)
  {
    var pinout := init + [pin];
    if PinoutHas(pinout, t) {
      var i :| 0 <= i < |pinout| && PinHas(pinout[i], t);
      if i < |init| {
        assert init[i] == pinout[i];
      }
    }
    if PinoutHas(init, t) {
      var i :| 0 <= i < |init| && PinHas(init[i], t);
      assert pinout[i] == init[i];
    }
    if PinHas(pin, t) {
      assert pinout[|init|] == pin;
    }
  }

  /** `role_pins` holds a set for exactly the role types some pin has,
      and each set holds exactly the keys of that type's values over all
      pins: values of one index collapse into one count. */
  lemma {:induction false} RolePinsMembers(pinout: seq<VariantWriter.PinDict>)
    requires RolePinsOf(pinout).Ok?
    ensures forall t :: t in RolePinsOf(pinout).value <==> PinoutHas(pinout, t)
    ensures forall t, k :: t in RolePinsOf(pinout).value ==>
              (k in RolePinsOf(pinout).value[t] <==> PinoutGives(pinout, t, k))
    decreases |pinout|
  {
    if pinout != [] {
      var n := |pinout| - 1;
      var init := pinout[..n];
      RolePinsMembers(init);
      var r0 := RolePinsOf(init).value;
      PinKeys(r0, pinout[n]);
      var rp := RolePinsOf(pinout).value;
      assert rp == PinAdded(r0, pinout[n]).value;
      assert pinout == init + [pinout[n]];
      forall t
        ensures t in rp <==> PinoutHas(pinout, t)
      {
        PinoutHasSnoc(init, pinout[n], t);
      }
      forall t, k | t in rp
        ensures k in rp[t] <==> PinoutGives(pinout, t, k)
      {
        PinoutGivesSnoc(init, pinout[n], t, k);
      }
    }
  }

  /** `[RoleType.GPIO, RoleType.PWM, RoleType.UART, RoleType.ADC]` */
  const IoRoles: seq<RoleType> := [GPIO, PWM, UART, ADC]

  /** The reported role types, in the order given, that have a set with
      values. */
  function Reported(rp: RolePins, roles: seq<RoleType>): (r: seq<RoleType>)
    ensures forall t :: t in r <==> t in roles && t in rp && |rp[t]| > 0
    ensures |r| <= |roles|
  {
    if roles == [] then []
    else if roles[0] in rp && |rp[roles[0]]| > 0 then [roles[0]] + Reported(rp, roles[1..])
    else Reported(rp, roles[1..])
  }

  /** `f"{len(role_pins[r])}x {r.name}"` */
  function CountText(rp: RolePins, t: RoleType): string
    requires t in rp
  {
    NatToString(|rp[t]|) + "x " + RoleValue(t)
  }

  /** The counts, in the order of `IoRoles`. */
  function Counts(rp: RolePins): (r: seq<string>)
    ensures |r| == |Reported(rp, IoRoles)|
  {
    var ts := Reported(rp, IoRoles);
    seq(|ts|, i requires 0 <= i < |ts| => CountText(rp, ts[i]))
  }

  /** The value of the `I/O` row. */
  function IoText(rp: RolePins): string {
    Join(", ", Counts(rp))
  }

  /** The position of a reported role type in `IoRoles`. */
  function IoPos(t: RoleType): nat {
    match t
    case GPIO => 0
    case PWM => 1
    case UART => 2
    case ADC => 3
    case _ => 4
  }

  /** The reported role types keep the order of `roles`. */
  lemma {:induction false} ReportedInOrder(rp: RolePins, roles: seq<RoleType>)
    requires forall i, j :: 0 <= i < j < |roles| ==> IoPos(roles[i]) < IoPos(roles[j])
    ensures forall i, j :: 0 <= i < j < |Reported(rp, roles)| ==> IoPos(Reported(rp, roles)[i]) < IoPos(Reported(rp, roles)[j])
    decreases |roles|
  {
    if roles != [] {
      var rest := roles[1..];
      ReportedInOrder(rp, rest);
      var tail := Reported(rp, rest);
      forall k | 0 <= k < |tail|
        ensures IoPos(roles[0]) < IoPos(tail[k])
      {
        assert tail[k] in rest;
        var m :| 0 <= m < |rest| && rest[m] == tail[k];
        assert roles[m + 1] == rest[m];
      }
      if roles[0] in rp && |rp[roles[0]]| > 0 {
        var ts := Reported(rp, roles);
        assert ts == [roles[0]] + tail;
        forall i, j | 0 <= i < j < |ts|
          ensures IoPos(ts[i]) < IoPos(ts[j])
        {
          assert ts[j] == tail[j - 1];
          if i > 0 {
            assert ts[i] == tail[i - 1];
          } else {
            assert IoPos(roles[0]) < IoPos(tail[j - 1]);
          }
        }
      } else {
        assert Reported(rp, roles) == tail;
      }
    }
  }

  /** `I/O` lists, in the order GPIO, PWM, UART, ADC, every one of those
      role types that has values, each with its number of distinct keys,
      and no other. */
  lemma IoCounts(rp: RolePins)
    ensures var ts := Reported(rp, IoRoles);
            && (forall t :: t in ts <==> t in IoRoles && t in rp && |rp[t]| > 0)
            && (forall i :: 0 <= i < |ts| ==> ts[i] in rp && Counts(rp)[i] == NatToString(|rp[ts[i]]|) + "x " + RoleValue(ts[i]))
            && (forall i, j :: 0 <= i < j < |ts| ==> IoPos(ts[i]) < IoPos(ts[j]))
  {
    ReportedInOrder(rp, IoRoles);
    var ts := Reported(rp, IoRoles);
    forall i | 0 <= i < |ts|
      ensures ts[i] in rp
    {
      assert ts[i] in ts;
    }
  }

  // ---------------------------------------------------------------------
  // Sorting

  /** Keys in non-decreasing order. */
  predicate SortedBy<X>(key: X -> int, xs: seq<X>) {
    forall i, j :: 0 <= i < j < |xs| ==> key(xs[i]) <= key(xs[j])
  }

  /** `x` placed after every entry whose key is not above its own. */
  function Insert<X>(key: X -> int, x: X, xs: seq<X>): (r: seq<X>)
    ensures |r| == |xs| + 1
    decreases |xs|
  {
    if xs == [] || key(xs[|xs| - 1]) <= key(x) then xs + [x]
    else Insert(key, x, xs[..|xs| - 1]) + [xs[|xs| - 1]]
  }

  /** `sorted(..., key=...)`: an insertion sort that, like Python's,
      keeps entries with equal keys in their order. */
  function SortBy<X>(key: X -> int, xs: seq<X>): (r: seq<X>)
    ensures |r| == |xs|
    decreases |xs|
  {
    if xs == [] then [] else Insert(key, xs[|xs| - 1], SortBy(key, xs[..|xs| - 1]))
  }

  lemma InsertFacts<X>(key: X -> int, x: X, xs: seq<X>)
    requires SortedBy(key, xs)
    ensures SortedBy(key, Insert(key, x, xs))
    ensures multiset(Insert(key, x, xs)) == multiset(xs) + multiset{x}
  {
    InsertSorted(key, x, xs);
    InsertSame(key, x, xs);
  }

  /** No inserted entry is above a bound that `x` and `xs` keep to. */
  lemma {:induction false} InsertBound<X>(key: X -> int, x: X, xs: seq<X>, b: int)
    requires key(x) <= b && forall k :: 0 <= k < |xs| ==> key(xs[k]) <= b
    ensures forall k :: 0 <= k < |Insert(key, x, xs)| ==> key(Insert(key, x, xs)[k]) <= b
    decreases |xs|
  {
    if !(xs == [] || key(xs[|xs| - 1]) <= key(x)) {
      InsertBound(key, x, xs[..|xs| - 1], b);
    }
  }

  lemma {:induction false} InsertSorted<X>(key: X -> int, x: X, xs: seq<X>)
    requires SortedBy(key, xs)
    ensures SortedBy(key, Insert(key, x, xs))
    decreases |xs|
  {
    if !(xs == [] || key(xs[|xs| - 1]) <= key(x)) {
      var init := xs[..|xs| - 1];
      var last := xs[|xs| - 1];
      InsertSorted(key, x, init);
      InsertBound(key, x, init, key(last));
      var ins := Insert(key, x, init);
      var r := ins + [last];
      assert Insert(key, x, xs) == r;
      forall i, j | 0 <= i < j < |r|
        ensures key(r[i]) <= key(r[j])
      {
        assert r[i] == ins[i];
        if j < |ins| {
          assert r[j] == ins[j];
        }
      }
    } else {
      var r := xs + [x];
      forall i, j | 0 <= i < j < |r|
        ensures key(r[i]) <= key(r[j])
      {
        assert r[i] == xs[i];
        if j < |xs| {
          assert r[j] == xs[j];
        }
      }
    }
  }

  lemma {:induction false} InsertSame<X>(key: X -> int, x: X, xs: seq<X>)
    ensures multiset(Insert(key, x, xs)) == multiset(xs) + multiset{x}
    decreases |xs|
  {
    if !(xs == [] || key(xs[|xs| - 1]) <= key(x)) {
      var init := xs[..|xs| - 1];
      InsertSame(key, x, init);
      assert xs == init + [xs[|xs| - 1]];
    }
  }

  /** The sorted entries are in key order and are the same entries. */
  lemma {:induction false} SortByFacts<X>(key: X -> int, xs: seq<X>)
    ensures SortedBy(key, SortBy(key, xs))
    ensures multiset(SortBy(key, xs)) == multiset(xs)
    decreases |xs|
  {
    if xs != [] {
      var init := xs[..|xs| - 1];
      SortByFacts(key, init);
      InsertFacts(key, xs[|xs| - 1], SortBy(key, init));
      assert xs == init + [xs[|xs| - 1]];
    }
  }

  /** `int(x[1:])` of a pin name: a name that is not a string cannot be
      sliced, and the text after its first character must be a number. */
  function NumberKey(name: Json): (r: Result<int>)
    ensures r.Ok? ==> name.JStr?
    ensures !name.JStr? ==> r == Err(TypeError)
  {
    if !name.JStr? then Err(TypeError)
    else ParseInt(if name.s == [] then [] else name.s[1..])
  }

  /** The number of an entry's name; 0 stands in where there is none. */
  function NumberOf<V>(e: (Json, V)): int {
    if NumberKey(e.0).Ok? then NumberKey(e.0).value else 0
  }

  /** The error of the first name without a number, as `sorted` computes
      the keys in order. */
  function Unnumbered<V>(d: seq<(Json, V)>): (r: Option<Error>)
    ensures r.None? <==> forall i :: 0 <= i < |d| ==> NumberKey(d[i].0).Ok?
    ensures r.Some? ==> exists i :: 0 <= i < |d| && NumberKey(d[i].0) == Err(r.value)
    decreases |d|
  {
    if d == [] then None
    else if NumberKey(d[0].0).Err? then Some(NumberKey(d[0].0).error)
    else
      var r := Unnumbered(d[1..]);
      assert forall i :: 0 < i < |d| ==> d[i] == d[1..][i - 1];
      r
  }

  /** The entries of a dict of pins in the order of their numbers. */
  function ByNumber<V>(d: seq<(Json, V)>): Result<seq<(Json, V)>> {
    match Unnumbered(d)
    case Some(e) => Err(e)
    case None => Ok(SortBy(NumberOf, d))
  }

  /** Sorting by number fails exactly when some name has no number; it
      gives the same entries, each name's number not above the next's. */
  lemma ByNumberFacts<V>(d: seq<(Json, V)>)
    ensures ByNumber(d).Ok? <==> forall i :: 0 <= i < |d| ==> NumberKey(d[i].0).Ok?
    ensures ByNumber(d).Ok? ==> var s := ByNumber(d).value;
              && multiset(s) == multiset(d)
              && (forall i :: 0 <= i < |s| ==> NumberKey(s[i].0).Ok?)
              && (forall i, j :: 0 <= i < j < |s| ==> NumberKey(s[i].0).value <= NumberKey(s[j].0).value)
  {
    if ByNumber(d).Ok? {
      var s := ByNumber(d).value;
      SortByFacts(NumberOf, d);
      forall i | 0 <= i < |s|
        ensures NumberKey(s[i].0).Ok?
      {
        assert s[i] in multiset(d);
      }
    }
  }

  /** Sorting by number keeps the entries. */
  lemma ByNumberSame<V>(d: seq<(Json, V)>)
    requires ByNumber(d).Ok?
    ensures multiset(ByNumber(d).value) == multiset(d)
  {
    SortByFacts(NumberOf, d);
  }

  // ---------------------------------------------------------------------
  // The Arduino pin mapping

  /** The long texts of one pin's roles, per role type. */
  type Cells = map<RoleType, seq<string>>

  /** `d[k] = v` on an insertion-ordered dict: a key already there keeps
      its place, a new one goes last. */
  function Assigned<K(==), V>(d: seq<(K, V)>, k: K, v: V): seq<(K, V)> {
    if HasKey(d, k) then
      seq(|d|, i requires 0 <= i < |d| => if d[i].0 == k then (k, v) else d[i])
    else d + [(k, v)]
  }

  /** Keys appear once in an insertion-ordered dict. */
  predicate DistinctKeys<K(==), V>(d: seq<(K, V)>) {
    forall i, j :: 0 <= i < j < |d| ==> d[i].0 != d[j].0
  }

  /** `k in d` */
  predicate HasKey<K(==), V>(d: seq<(K, V)>, k: K) {
    exists i :: 0 <= i < |d| && d[i].0 == k
  }

  /** After `d[k] = v` the keys are the old ones and `k`, still distinct
      and in their old order; `k` holds `v` and every other key its old
      value. */
  lemma AssignedFacts<K, V>(d: seq<(K, V)>, k: K, v: V)
    requires DistinctKeys(d)
    ensures var r := Assigned(d, k, v);
            && DistinctKeys(r)
            && (forall i :: 0 <= i < |d| ==> r[i].0 == d[i].0 && r[i].1 == (if d[i].0 == k then v else d[i].1))
            && (forall i :: |d| <= i < |r| ==> r[i] == (k, v))
            && (forall x :: HasKey(r, x) <==> x == k || HasKey(d, x))
  {
    var r := Assigned(d, k, v);
    forall x
      ensures HasKey(r, x) <==> x == k || HasKey(d, x)
    {
      if HasKey(r, x) {
        var i :| 0 <= i < |r| && r[i].0 == x;
        if i < |d| && d[i].0 != k {
          assert d[i].0 == x;
        }
      }
      if HasKey(d, x) {
        var i :| 0 <= i < |d| && d[i].0 == x;
        assert r[i].0 == x;
      }
      if x == k && !HasKey(d, k) {
        assert r[|d|].0 == x;
      }
    }
    if !HasKey(d, k) {
      assert r == d + [(k, v)];
      forall i, j | 0 <= i < j < |r|
        ensures r[i].0 != r[j].0
      {
        if j == |d| {
          assert r[i] == d[i];
        }
      }
    }
  }

  /** `d[k] = v` keeps the keys distinct. */
  lemma AssignedDistinct<K, V>(d: seq<(K, V)>, k: K, v: V)
    requires DistinctKeys(d)
    ensures DistinctKeys(Assigned(d, k, v))
  {
    AssignedFacts(d, k, v);
  }

  /** `digital[ard][role_type]` for each role of the pin the core knows:
      its long texts. */
  function DigitalCells(env: Env, pin: VariantWriter.PinDict): Cells {
    if pin == [] then map[]
    else
      var (t, v) := pin[|pin| - 1];
      var c := DigitalCells(env, pin[..|pin| - 1]);
      if t in env.roles then c[t := env.format(env.roles[t], v, true, [])] else c
  }

  /** A pin's cells hold exactly the role types the pin has and the core
      knows, each with the texts of the type's last value. */
  lemma {:induction false} DigitalCellsFacts(env: Env, pin: VariantWriter.PinDict)
    ensures forall t :: t in DigitalCells(env, pin) <==> t in env.roles && PinHas(pin, t)
    ensures forall i :: 0 <= i < |pin| && pin[i].0 in env.roles && (forall j :: i < j < |pin| ==> pin[j].0 != pin[i].0) ==>
              pin[i].0 in DigitalCells(env, pin) && DigitalCells(env, pin)[pin[i].0] == env.format(env.roles[pin[i].0], pin[i].1, true, [])
    decreases |pin|
  {
    if pin != [] {
      var n := |pin| - 1;
      var init := pin[..n];
      DigitalCellsFacts(env, init);
      assert pin == init + [pin[n]];
      forall t
        ensures t in DigitalCells(env, pin) <==> t in env.roles && PinHas(pin, t)
      {
        PinHasSnoc(init, pin[n], t);
      }
      forall i | 0 <= i < n
        ensures pin[i] == init[i]
      {
      }
    }
  }

  /** The texts of an analog pin: the long GPIO texts when the pin's GPIO
      value is truthy, then the long ADC texts when its ADC value is; a
      role the core does not know is a `KeyError`. */
  function AnalogCells(env: Env, pin: VariantWriter.PinDict): (r: Result<seq<string>>)
    ensures r.Err? ==> r.error == KeyError
    ensures r.Ok? <==>
              (Truthy(VariantWriter.RoleGet(pin, GPIO, JNull)) ==> GPIO in env.roles) && (Truthy(VariantWriter.RoleGet(pin, ADC, JNull)) ==> ADC in env.roles)
  {
    var gpio := VariantWriter.RoleGet(pin, GPIO, JNull);
    var adc := VariantWriter.RoleGet(pin, ADC, JNull);
    var a :- if !Truthy(gpio) then Ok([])
             else if GPIO in env.roles then Ok(env.format(env.roles[GPIO], gpio, true, []))
             else Err(KeyError);
    var b :- if !Truthy(adc) then Ok([])
             else if ADC in env.roles then Ok(env.format(env.roles[ADC], adc, true, []))
             else Err(KeyError);
    Ok(a + b)
  }

  /** The `digital` and `analog` dicts, keyed by `ARD_D` and `ARD_A`
      values in insertion order. */
  datatype Maps = Maps(digital: seq<(Json, Cells)>, analog: seq<(Json, seq<string>)>)

  /** One pin of the mapping loop. */
  function MapsAdded(env: Env, m: Maps, pin: VariantWriter.PinDict): Result<Maps> {
    var digital := if VariantWriter.HasRole(pin, ARD_D)
                   then Assigned(m.digital, VariantWriter.RoleGet(pin, ARD_D, JNull), DigitalCells(env, pin))
                   else m.digital;
    if VariantWriter.HasRole(pin, ARD_A) then
      var cells :- AnalogCells(env, pin);
      Ok(Maps(digital, Assigned(m.analog, VariantWriter.RoleGet(pin, ARD_A, JNull), cells)))
    else Ok(Maps(digital, m.analog))
  }

  function MapsStep(env: Env): (Maps, VariantWriter.PinDict) -> Result<Maps> {
    (m, pin) => MapsAdded(env, m, pin)
  }

  /** Both dicts after the loop over the pinout. */
  function MapsOf(env: Env, pinout: seq<VariantWriter.PinDict>): Result<Maps> {
    Fold(MapsStep(env), Maps([], []), pinout)
  }

  /** Every step keeps the names of each dict distinct. */
  lemma MapsAddedDistinct(env: Env, m: Maps, pin: VariantWriter.PinDict)
    requires DistinctKeys(m.digital) && DistinctKeys(m.analog)
    ensures MapsAdded(env, m, pin).Ok? ==>
              DistinctKeys(MapsAdded(env, m, pin).value.digital) && DistinctKeys(MapsAdded(env, m, pin).value.analog)
  {
    AssignedDistinct(m.digital, VariantWriter.RoleGet(pin, ARD_D, JNull), DigitalCells(env, pin));
    var cells := AnalogCells(env, pin);
    if cells.Ok? {
      AssignedDistinct(m.analog, VariantWriter.RoleGet(pin, ARD_A, JNull), cells.value);
    }
  }

  /** Only an analog pin whose GPIO or ADC role the core does not know
      stops the loop, with a `KeyError`; the names of each dict stay
      distinct. */
  lemma {:induction false} MapsOfFacts(env: Env, pinout: seq<VariantWriter.PinDict>)
    ensures MapsOf(env, pinout).Ok? <==>
              forall i :: 0 <= i < |pinout| && VariantWriter.HasRole(pinout[i], ARD_A) ==> AnalogCells(env, pinout[i]).Ok?
    ensures MapsOf(env, pinout).Err? ==> MapsOf(env, pinout).error == KeyError
    ensures MapsOf(env, pinout).Ok? ==>
              DistinctKeys(MapsOf(env, pinout).value.digital) && DistinctKeys(MapsOf(env, pinout).value.analog)
    decreases |pinout|
  {
    if pinout != [] {
      var n := |pinout| - 1;
      var init := pinout[..n];
      MapsOfFacts(env, init);
      assert forall i :: 0 <= i < n ==> init[i] == pinout[i];
      var r0 := MapsOf(env, init);
      if r0.Ok? {
        MapsAddedDistinct(env, r0.value, pinout[n]);
      }
    }
  }

  /** The pin table's columns. */
  const PinHeader: seq<string> := ["No.", "Pin", "UART", "I²C", "SPI", "PWM", "Other"]

  /** `pin.get(t, [])` */
  function CellOf(c: Cells, t: RoleType): seq<string> {
    if t in c then c[t] else []
  }

  /** A digital pin's row: its name, then its GPIO, UART, I²C, SPI and PWM
      texts, then its SWD, JTAG and DVP texts together, each cell joined
      with `", "`. */
  function DigitalRow(e: (Json, Cells)): (r: seq<string>)
    ensures |r| == |PinHeader| && r[0] == PyStr(e.0)
  {
    var c := e.1;
    [PyStr(e.0),
     Join(", ", CellOf(c, GPIO)),
     Join(", ", CellOf(c, UART)),
     Join(", ", CellOf(c, I2C)),
     Join(", ", CellOf(c, SPI)),
     Join(", ", CellOf(c, PWM)),
     Join(", ", CellOf(c, SWD) + CellOf(c, JTAG) + CellOf(c, DVP))]
  }

  /** An analog pin's row: its name and its texts, the rest empty. */
  function AnalogRow(e: (Json, seq<string>)): (r: seq<string>)
    ensures |r| == |PinHeader| && r[0] == PyStr(e.0)
    ensures forall i :: 2 <= i < |r| ==> r[i] == ""
  {
    [PyStr(e.0), Join(", ", e.1), Join(", ", []), Join(", ", []), Join(", ", []), Join(", ", []), Join(", ", [])]
  }

  function Rows<X>(f: X -> seq<string>, xs: seq<X>): (r: seq<seq<string>>)
    ensures |r| == |xs| && forall i :: 0 <= i < |xs| ==> r[i] == f(xs[i])
  {
    seq(|xs|, i requires 0 <= i < |xs| => f(xs[i]))
  }

  /** The digital rows in the order of their numbers, then the analog
      rows in the order of theirs. */
  function PinRows(m: Maps): Result<seq<seq<string>>> {
    var d :- ByNumber(m.digital);
    var a :- ByNumber(m.analog);
    Ok(Rows(DigitalRow, d) + Rows(AnalogRow, a))
  }

  /** The number a row's name stands for. */
  function RowKey(row: seq<string>): Result<int>
    requires row != []
  {
    NumberKey(JStr(row[0]))
  }

  /** Each row is the row of some entry of `d`, and every entry's row
      is there. */
  predicate Covers<X>(rows: seq<seq<string>>, f: X -> seq<string>, d: seq<X>) {
    && (forall i :: 0 <= i < |rows| ==> exists k :: 0 <= k < |d| && rows[i] == f(d[k]))
    && (forall k :: 0 <= k < |d| ==> f(d[k]) in rows)
  }

  /** Rows over a permutation of `d` cover `d`. */
  lemma RowsMatch<X>(f: X -> seq<string>, d: seq<X>, s: seq<X>)
    requires multiset(s) == multiset(d)
    ensures Covers(Rows(f, s), f, d)
  {
    forall i | 0 <= i < |s|
      ensures exists k :: 0 <= k < |d| && Rows(f, s)[i] == f(d[k])
    {
      assert s[i] in multiset(d);
      var k :| 0 <= k < |d| && d[k] == s[i];
    }
    forall k | 0 <= k < |d|
      ensures f(d[k]) in Rows(f, s)
    {
      assert d[k] in multiset(s);
      var i :| 0 <= i < |s| && s[i] == d[k];
      assert Rows(f, s)[i] == f(d[k]);
    }
  }

  /** Rows seven cells wide whose names carry numbers. */
  predicate Keyed(rows: seq<seq<string>>) {
    forall i :: 0 <= i < |rows| ==> |rows[i]| == |PinHeader| && RowKey(rows[i]).Ok?
  }

  /** Keyed rows in the order of their names' numbers. */
  predicate InOrder(rows: seq<seq<string>>)
    requires Keyed(rows)
  {
    forall i, j :: 0 <= i < j < |rows| ==> RowKey(rows[i]).value <= RowKey(rows[j]).value
  }

  lemma KeyedAppend(a: seq<seq<string>>, b: seq<seq<string>>)
    requires Keyed(a) && Keyed(b)
    ensures Keyed(a + b)
  {
    forall i | 0 <= i < |a + b|
      ensures |(a + b)[i]| == |PinHeader| && RowKey((a + b)[i]).Ok?
    {
      if i < |a| {
        assert (a + b)[i] == a[i];
      } else {
        assert (a + b)[i] == b[i - |a|];
      }
    }
  }

  /** The digital rows, in the order of their names' numbers. */
  lemma DigitalSorted(d: seq<(Json, Cells)>)
    requires ByNumber(d).Ok?
    ensures |Rows(DigitalRow, ByNumber(d).value)| == |d|
    ensures Keyed(Rows(DigitalRow, ByNumber(d).value)) && InOrder(Rows(DigitalRow, ByNumber(d).value))
  {
    ByNumberFacts(d);
    var s := ByNumber(d).value;
    var rows := Rows(DigitalRow, s);
    assert forall i :: 0 <= i < |s| ==> RowKey(rows[i]) == NumberKey(s[i].0);
  }

  /** The analog rows, in the order of their names' numbers. */
  lemma AnalogSorted(d: seq<(Json, seq<string>)>)
    requires ByNumber(d).Ok?
    ensures |Rows(AnalogRow, ByNumber(d).value)| == |d|
    ensures Keyed(Rows(AnalogRow, ByNumber(d).value)) && InOrder(Rows(AnalogRow, ByNumber(d).value))
  {
    ByNumberFacts(d);
    var s := ByNumber(d).value;
    var rows := Rows(AnalogRow, s);
    assert forall i :: 0 <= i < |s| ==> RowKey(rows[i]) == NumberKey(s[i].0);
  }

  /** The rows are the digital pins' rows, all seven cells wide and in
      numeric order, then the analog pins' rows likewise. */
  lemma PinRowsSorted(m: Maps)
    requires PinRows(m).Ok?
    ensures |PinRows(m).value| == |m.digital| + |m.analog| && Keyed(PinRows(m).value)
    ensures Keyed(PinRows(m).value[..|m.digital|]) && InOrder(PinRows(m).value[..|m.digital|])
    ensures Keyed(PinRows(m).value[|m.digital|..]) && InOrder(PinRows(m).value[|m.digital|..])
  {
    DigitalSorted(m.digital);
    AnalogSorted(m.analog);
    PinRowsIs(m);
    KeyedAppend(Rows(DigitalRow, ByNumber(m.digital).value), Rows(AnalogRow, ByNumber(m.analog).value));
  }

  /** The rows are the digital rows followed by the analog rows. */
  lemma PinRowsIs(m: Maps)
    requires PinRows(m).Ok?
    ensures ByNumber(m.digital).Ok? && ByNumber(m.analog).Ok?
    ensures PinRows(m).value[..|m.digital|] == Rows(DigitalRow, ByNumber(m.digital).value)
    ensures PinRows(m).value[|m.digital|..] == Rows(AnalogRow, ByNumber(m.analog).value)
  {
    ByNumberFacts(m.digital);
  }

  /** One row per pin: the first rows cover the digital pins, the
      rest the analog pins. */
  lemma PinRowsCover(m: Maps)
    requires PinRows(m).Ok?
    ensures |m.digital| <= |PinRows(m).value|
    ensures Covers(PinRows(m).value[..|m.digital|], DigitalRow, m.digital)
    ensures Covers(PinRows(m).value[|m.digital|..], AnalogRow, m.analog)
  {
    PinRowsIs(m);
    ByNumberSame(m.digital);
    ByNumberSame(m.analog);
    RowsMatch(DigitalRow, m.digital, ByNumber(m.digital).value);
    RowsMatch(AnalogRow, m.analog, ByNumber(m.analog).value);
  }

  // ---------------------------------------------------------------------
  // The flash map

  /** `format(n, ",d")`: the decimal digits in groups of three, separated
      by commas. */
  function Grouped(n: nat): string
    decreases n
  {
    if n < 1000 then NatToString(n)
    else Grouped(n / 1000) + "," + ZeroPad(NatToString(n % 1000), 3)
  }

  /** Without its commas, the grouped text is the number's digits. */
  lemma {:induction false} GroupedDigits(n: nat)
    ensures DecimalValue(DigitsOf(Grouped(n))) == n
    decreases n
  {
    if n < 1000 {
      DigitsOfDigits(NatToString(n));
      DecimalRoundTrip(n);
    } else {
      var hi := DigitsOf(Grouped(n / 1000));
      var tail := ZeroPad(NatToString(n % 1000), 3);
      GroupedStep(n);
      GroupWidth(n % 1000);
      GroupedDigits(n / 1000);
      DecimalAppend(hi, tail);
      assert DecimalValue(hi + tail) == DecimalValue(hi) * 1000 + DecimalValue(tail);
    }
  }

  /** A group past the first keeps its digits. */
  lemma GroupedStep(n: nat)
    requires n >= 1000
    ensures DigitsOf(Grouped(n)) == DigitsOf(Grouped(n / 1000)) + ZeroPad(NatToString(n % 1000), 3)
  {
    var hi := Grouped(n / 1000);
    var tail := ZeroPad(NatToString(n % 1000), 3);
    GroupWidth(n % 1000);
    DigitsOfAppend(hi + ",", tail);
    DigitsOfAppend(hi, ",");
    assert DigitsOf(",") == [];
    DigitsOfDigits(tail);
  }

  /** A number below 1000 padded to three digits: three digits of its
      value. */
  lemma GroupWidth(m: nat)
    requires m < 1000
    ensures var t := ZeroPad(NatToString(m), 3);
            |t| == 3 && (forall i :: 0 <= i < |t| ==> IsDigit(t[i])) && DecimalValue(t) == m && Pow10(|t|) == 1000
  {
    var lo := NatToString(m);
    assert Pow10(3) == 1000 by {
      assert Pow10(1) == 10;
      assert Pow10(2) == 100;
    }
    NatToStringShort(m, 3);
    var z := Repeat('0', 3 - |lo|);
    assert ZeroPad(lo, 3) == z + lo;
    DecimalAppend(z, lo);
    DecimalZeros(3 - |lo|);
    DecimalRoundTrip(m);
  }

  /** A row of the flash table: a gap before a region, or a region. */
  datatype Slot = Reserved(region: Flash.FlashRegion) | Named(region: Flash.FlashRegion)

  /** A region as the loop leaves it: `hex_size_len` set to 0. */
  function Zeroed(reg: Flash.FlashRegion): Flash.FlashRegion {
    reg.(hexSizeLen := 0)
  }

  /** Every region as the flash loop leaves it. */
  function ZeroedAll(regs: seq<Flash.FlashRegion>): (r: seq<Flash.FlashRegion>)
    ensures |r| == |regs| && forall i :: 0 <= i < |regs| ==> r[i] == Zeroed(regs[i])
  {
    seq(|regs|, i requires 0 <= i < |regs| => Zeroed(regs[i]))
  }

  /** The `"res"` region from the previous end to the start of `reg`,
      with `reg`'s offset width. */
  function Gap(prev: nat, reg: Flash.FlashRegion): (g: Flash.FlashRegion)
    requires prev < reg.Start()
    ensures g.Start() == prev && g.End() == reg.Start() && g.length > 0
  {
    Flash.FlashRegion("res", prev, reg.Start() - prev, JNull, false, reg.hexOffsLen, 0)
  }

  /** The rows of the regions from `prev` on, in the order given. */
  function Layout(prev: nat, regs: seq<Flash.FlashRegion>): seq<Slot>
    decreases |regs|
  {
    if regs == [] then []
    else
      var reg := Zeroed(regs[0]);
      (if prev < reg.Start() then [Reserved(Gap(prev, reg))] else []) + [Named(reg)] + Layout(reg.End(), regs[1..])
  }

  /** The regions among the rows. */
  function NamedOf(slots: seq<Slot>): seq<Flash.FlashRegion> {
    if slots == [] then []
    else (if slots[0].Named? then [slots[0].region] else []) + NamedOf(slots[1..])
  }

  lemma {:induction false} NamedOfAppend(a: seq<Slot>, b: seq<Slot>)
    ensures NamedOf(a + b) == NamedOf(a) + NamedOf(b)
    decreases |a|
  {
    if a == [] {
      assert a + b == b;
    } else {
      assert (a + b)[1..] == a[1..] + b;
      NamedOfAppend(a[1..], b);
    }
  }

  /** Every region has its row, in order and with no padding of its size. */
  lemma {:induction false} LayoutNamed(prev: nat, regs: seq<Flash.FlashRegion>)
    ensures NamedOf(Layout(prev, regs)) == seq(|regs|, i requires 0 <= i < |regs| => Zeroed(regs[i]))
    decreases |regs|
  {
    if regs != [] {
      var reg := Zeroed(regs[0]);
      var pre: seq<Slot> := if prev < reg.Start() then [Reserved(Gap(prev, reg))] else [];
      var rest := Layout(reg.End(), regs[1..]);
      LayoutNamed(reg.End(), regs[1..]);
      NamedOfAppend(pre + [Named(reg)], rest);
      NamedOfAppend(pre, [Named(reg)]);
      assert NamedOf([Named(reg)]) == [reg];
    }
  }

  /** What a gap row at `k` is: a non-empty `"res"` region from the end
      of the row before it (or from `prev`, first), ending where the
      region of the next row starts, with that region's offset width and
      no size padding; it never follows another gap. */
  predicate GapFits(prev: nat, slots: seq<Slot>, k: nat)
    requires k < |slots|
  {
    && k + 1 < |slots| && slots[k + 1].Named?
    && slots[k].region.End() == slots[k + 1].region.Start()
    && slots[k].region.length > 0
    && slots[k].region.name == "res"
    && slots[k].region.hexOffsLen == slots[k + 1].region.hexOffsLen && slots[k].region.hexSizeLen == 0
    && slots[k].region.Start() == (if k == 0 then prev else slots[k - 1].region.End())
    && (k > 0 ==> slots[k - 1].Named?)
  }

  /** Every gap row fits between its neighbours. */
  lemma {:induction false} LayoutReserved(prev: nat, regs: seq<Flash.FlashRegion>)
    ensures forall k :: 0 <= k < |Layout(prev, regs)| && Layout(prev, regs)[k].Reserved? ==> GapFits(prev, Layout(prev, regs), k)
    decreases |regs|
  {
    if regs != [] {
      var reg := Zeroed(regs[0]);
      var pre: seq<Slot> := if prev < reg.Start() then [Reserved(Gap(prev, reg))] else [];
      var rest := Layout(reg.End(), regs[1..]);
      LayoutReserved(reg.End(), regs[1..]);
      var slots := Layout(prev, regs);
      var h := |pre| + 1;
      assert slots == pre + [Named(reg)] + rest;
      assert slots[h - 1] == Named(reg);
      forall k | 0 <= k < |slots| && slots[k].Reserved?
        ensures GapFits(prev, slots, k)
      {
        if k >= h {
          var k' := k - h;
          assert slots[k] == rest[k'];
          assert GapFits(reg.End(), rest, k');
          assert slots[k + 1] == rest[k' + 1];
          if k' > 0 {
            assert slots[k - 1] == rest[k' - 1];
          }
        }
      }
    }
  }

  /** Where a region's row follows another region's (or comes first), the
      region starts at or before the end of that one (or `prev`). */
  lemma {:induction false} LayoutAdjacent(prev: nat, regs: seq<Flash.FlashRegion>)
    ensures var slots := Layout(prev, regs);
            && (slots != [] && slots[0].Named? ==> slots[0].region.Start() <= prev)
            && forall k :: 0 < k < |slots| && slots[k].Named? && slots[k - 1].Named? ==>
                 slots[k].region.Start() <= slots[k - 1].region.End()
    decreases |regs|
  {
    if regs != [] {
      var reg := Zeroed(regs[0]);
      var pre: seq<Slot> := if prev < reg.Start() then [Reserved(Gap(prev, reg))] else [];
      var rest := Layout(reg.End(), regs[1..]);
      LayoutAdjacent(reg.End(), regs[1..]);
      var slots := Layout(prev, regs);
      var h := |pre| + 1;
      assert slots == pre + [Named(reg)] + rest;
      forall k | h <= k < |slots|
        ensures slots[k] == rest[k - h]
      {
      }
      assert slots[h - 1] == Named(reg);
    }
  }

  /** The flash table's columns. */
  const FlashHeader: seq<string> := ["Name", "Start", "Length", "End"]

  /** A region's title from the core's flash names, else its own name. */
  function RegionName(env: Env, reg: Flash.FlashRegion): string {
    if reg.name in env.flashNames then env.flashNames[reg.name] else reg.name
  }

  /** `["(reserved)"] + res.lst` for a gap, `[name] + reg.lst` for a
      region. */
  function SlotRow(env: Env, slot: Slot): (r: seq<string>)
    ensures |r| == |FlashHeader|
  {
    match slot
    case Reserved(g) => ["(reserved)"] + g.Lst(env.sizeOf(g.length))
    case Named(reg) => [RegionName(env, reg)] + reg.Lst(env.sizeOf(reg.length))
  }

  /** The rows of a sequence of slots. */
  function SlotRows(env: Env, slots: seq<Slot>): (r: seq<seq<string>>)
    ensures |r| == |slots| && forall k :: 0 <= k < |slots| ==> |r[k]| == |FlashHeader|
  {
    if slots == [] then [] else [SlotRow(env, slots[0])] + SlotRows(env, slots[1..])
  }

  lemma {:induction false} SlotRowsAppend(env: Env, a: seq<Slot>, b: seq<Slot>)
    ensures SlotRows(env, a + b) == SlotRows(env, a) + SlotRows(env, b)
    decreases |a|
  {
    if a == [] {
      assert a + b == b;
    } else {
      assert (a + b)[1..] == a[1..] + b;
      SlotRowsAppend(env, a[1..], b);
    }
  }

  /** The rows of the flash table for regions already in order. */
  function FlashRows(env: Env, regs: seq<Flash.FlashRegion>): seq<seq<string>> {
    SlotRows(env, Layout(0, regs))
  }

  /** `reg.start`, the key the regions are sorted by. */
  function StartKey(reg: Flash.FlashRegion): int {
    reg.Start()
  }

  // ---------------------------------------------------------------------
  // The README

  /** `add_table` of rows no wider than the header, which cannot fail. */
  function TableOf(header: seq<string>, rows: seq<seq<string>>): string
    requires forall k :: 0 <= k < |rows| ==> |rows[k]| <= |header|
  {
    WidthsOk(header, rows);
    Table(header, rows).value
  }

  /** The product links, one list item each. */
  function LinkItems(links: seq<(string, string)>): (r: seq<seq<string>>)
    ensures |r| == |links|
  {
    seq(|links|, i requires 0 <= i < |links| => [Link(links[i].0, links[i].1)])
  }

  /** The title, the vendor, the product page and the links. */
  function InfoItems(b: Board, d: Doc): seq<string> {
    [Heading(b.name, 1), Styled("*", ["by", b.vendor])]
      + (if b.url != [] then [Link("Product page", b.url)] else [])
      + (if d.links != [] then [List(LinkItems(d.links))] else [])
  }

  const SpecHeader: seq<string> := ["Parameter", "Value"]

  /** Rows of a parameter and its value. */
  predicate Pairs(rows: seq<seq<string>>) {
    forall k :: 0 <= k < |rows| ==> |rows[k]| == |SpecHeader|
  }

  lemma PairsAppend(a: seq<seq<string>>, b: seq<seq<string>>)
    requires Pairs(a) && Pairs(b)
    ensures Pairs(a + b)
  {
    forall k | 0 <= k < |a + b|
      ensures |(a + b)[k]| == |SpecHeader|
    {
      if k < |a| {
        assert (a + b)[k] == a[k];
      } else {
        assert (a + b)[k] == b[k - |a|];
      }
    }
  }

  /** The `I/O` row of a board with a pinout, or the error of counting. */
  function IoRows(pinout: seq<VariantWriter.PinDict>): (r: Result<seq<seq<string>>>)
    ensures r.Ok? ==> Pairs(r.value)
    ensures r.Ok? <==> pinout == [] || RolePinsOf(pinout).Ok?
  {
    if pinout == [] then Ok([])
    else
      var rp :- RolePinsOf(pinout);
      Ok([["I/O", IoText(rp)]])
  }

  /** The rows before the I/O row: the board code, the MCU, the optional
      manufacturer and series, the frequency, the sizes and the optional
      voltage. */
  function BaseRows(env: Env, b: Board, p: Params): (r: seq<seq<string>>)
    ensures Pairs(r)
  {
    [["Board code", "`" + b.id + "`"], ["MCU", Upper(b.mcu)]]
      + (if p.manufacturer != [] then [["Manufacturer", p.manufacturer]] else [])
      + (if p.series != [] then [["Series", p.series]] else [])
      + [["Frequency", b.cpuFreq], ["Flash size", env.sizeOf(b.flashSize)], ["RAM size", env.sizeOf(b.ramSize)]]
      + (if p.voltage != [] then [["Voltage", p.voltage]] else [])
  }

  /** The extra parameters, then the FCC ID as a link. */
  function DocRows(d: Doc, p: Params): (r: seq<seq<string>>)
    ensures Pairs(r)
  {
    var extra := seq(|p.extra|, i requires 0 <= i < |p.extra| => [p.extra[i].0, p.extra[i].1]);
    var fcc := if d.fccid != [] then [["FCC ID", Link(d.fccid, "https://fccid.io/" + d.fccid)]] else [];
    PairsAppend(extra, fcc);
    extra + fcc
  }

  /** The rows of the specification table. */
  function SpecRows(env: Env, b: Board, d: Doc, p: Params): (r: Result<seq<seq<string>>>)
    ensures r.Ok? ==> Pairs(r.value)
    ensures r.Ok? <==> b.pinout == [] || RolePinsOf(b.pinout).Ok?
  {
    var io :- IoRows(b.pinout);
    PairsAppend(BaseRows(env, b, p), io);
    PairsAppend(BaseRows(env, b, p) + io, DocRows(d, p));
    Ok(BaseRows(env, b, p) + io + DocRows(d, p))
  }

  /** The usage section; the PlatformIO and ESPHome snippets only for
      LibreTuya. */
  function UsageItems(env: Env, b: Board): seq<string> {
    [Heading("Usage", 2), Words(["**Board code:**", "`" + b.id + "`"])]
      + (if env.isLibretuya then
           [Words(["In `platformio.ini`:"]),
            CodeBlock(CodeLines(["[env:" + b.id + "]", "platform = libretuya", "board = " + b.id, "framework = arduino"]), Some("ini")),
            Words(["In ESPHome YAML:"]),
            CodeBlock(CodeLines(["libretuya:", "  board: " + b.id, "  framework:", "    version: dev"]), Some("yaml"))]
         else [])
  }

  /** The pinout image and the mapping heading, added before the mapping
      is computed. */
  function PinHead(b: Board): seq<string> {
    if b.pinout == [] then []
    else
      (if b.templates then [Heading("Pinout", 2), Img("Pinout", "pinout_" + b.id + ".svg")] else [])
        + (if b.hasArduinoCore then [Heading("Arduino Core pin mapping", 2)] else [])
  }

  /** The pin mapping table of a board with a pinout and an Arduino
      core. */
  function PinTable(env: Env, b: Board): Result<seq<string>> {
    if b.pinout == [] || !b.hasArduinoCore then Ok([])
    else
      var m :- MapsOf(env, b.pinout);
      var rows :- PinRows(m);
      PinRowsSorted(m);
      Ok([TableOf(PinHeader, rows)])
  }

  /** The flash section of a board with regions. */
  function FlashItems(env: Env, b: Board): seq<string> {
    if b.flash == [] then []
    else
      var rows := FlashRows(env, SortBy(StartKey, b.flash));
      [Heading("Flash memory map", 2),
       Words(["Flash size:", env.sizeOf(b.flashSize), "/", Grouped(b.flashSize) + " B", "/", Flash.HexText(b.flashSize, 0)]),
       Words(["Hex values are in bytes."]),
       TableOf(FlashHeader, rows)]
  }

  /** The flash section of a board with regions, given its rows. */
  lemma FlashItemsAre(env: Env, b: Board, rows: seq<seq<string>>)
    requires b.flash != [] && rows == FlashRows(env, SortBy(StartKey, b.flash))
    ensures forall k :: 0 <= k < |rows| ==> |rows[k]| <= |FlashHeader|
    ensures FlashItems(env, b)
         == [Heading("Flash memory map", 2),
             Words(["Flash size:", env.sizeOf(b.flashSize), "/", Grouped(b.flashSize) + " B", "/", Flash.HexText(b.flashSize, 0)]),
             Words(["Hex values are in bytes."]),
             TableOf(FlashHeader, rows)]
  {
  }

  /** The pin mapping table of a board with a pinout and an Arduino core,
      given its maps and rows. */
  lemma PinTableIs(env: Env, b: Board, m: Maps, rows: seq<seq<string>>)
    requires b.pinout != [] && b.hasArduinoCore
    requires MapsOf(env, b.pinout) == Ok(m) && PinRows(m) == Ok(rows)
    ensures forall k :: 0 <= k < |rows| ==> |rows[k]| <= |PinHeader|
    ensures PinTable(env, b) == Ok([TableOf(PinHeader, rows)])
  {
    PinRowsSorted(m);
  }

  /** The specification table, or the error of counting the I/O values. */
  function SpecTable(env: Env, b: Board, d: Doc, p: Params): Result<string> {
    var rows :- SpecRows(env, b, d, p);
    Ok(TableOf(SpecHeader, rows))
  }

  /** The items of `write` in their order, from its sections: the info
      items, the specification table, the usage and pinout items, the pin
      mapping, the flash items and the extra items; the first section
      that fails ends it with what was appended so far and its error. */
  function Assembled(info: seq<string>, spec: Result<string>, middle: seq<string>,
                     pins: Result<seq<string>>, flash: seq<string>, extra: seq<string>): (seq<string>, Option<Error>)
  {
    match spec
    case Err(e) => (info, Some(e))
    case Ok(t) =>
      match pins
      case Err(e) => (info + [t] + middle, Some(e))
      case Ok(ps) => (info + [t] + middle + ps + flash + extra, None)
  }

  /** The info items always come first; without an error the extra items
      come last, verbatim, and every section is there. */
  lemma AssembledOrder(info: seq<string>, spec: Result<string>, middle: seq<string>,
                       pins: Result<seq<string>>, flash: seq<string>, extra: seq<string>)
    ensures var (items, err) := Assembled(info, spec, middle, pins, flash, extra);
            && |info| <= |items| && items[..|info|] == info
            && (err.None? <==> spec.Ok? && pins.Ok?)
            && (spec.Err? ==> err == Some(spec.error) && items == info)
            && (spec.Ok? && pins.Err? ==> err == Some(pins.error) && items == info + [spec.value] + middle)
            && (err.None? ==> |extra| <= |items| && items[|items| - |extra|..] == extra
                              && items[..|items| - |extra|] == info + [spec.value] + middle + pins.value + flash)
  {
    var (items, err) := Assembled(info, spec, middle, pins, flash, extra);
    if spec.Ok? && pins.Ok? {
      var front := info + [spec.value] + middle + pins.value + flash;
      assert items == front + extra;
      assert items[..|info|] == front[..|info|];
    } else if spec.Ok? {
      assert items[..|info|] == info;
    }
  }

  /** What `write` leaves behind: the items it appended, the exception it
      raised, if any, and the board as it changed it. */
  datatype Outcome = Outcome(items: seq<string>, error: Option<Error>, board: Board)

  /** `write(board)`: the defaults are filled in first; an error in the
      I/O counts stops it after the info items, an error in the pin
      mapping after its heading. The regions are zeroed by the flash loop,
      which an error never reaches. */
  function Written(env: Env, board: Board): Outcome {
    var b := WithDefaults(board);
    var d := b.doc.value;
    var (items, err) := Assembled(InfoItems(b, d), SpecTable(env, b, d, d.params.value), UsageItems(env, b) + PinHead(b),
                                  PinTable(env, b), FlashItems(env, b), d.extra);
    Outcome(items, err, if err.None? then b.(flash := ZeroedAll(b.flash)) else b)
  }

  /** Without an error, the document's extra items come last, verbatim;
      either way the info items come first. */
  lemma WrittenOrder(env: Env, board: Board)
    ensures var o := Written(env, board);
            var b := WithDefaults(board);
            && |InfoItems(b, b.doc.value)| <= |o.items|
            && o.items[..|InfoItems(b, b.doc.value)|] == InfoItems(b, b.doc.value)
            && (o.error.None? ==>
                  |b.doc.value.extra| <= |o.items| && o.items[|o.items| - |b.doc.value.extra|..] == b.doc.value.extra)
  {
    var b := WithDefaults(board);
    var d := b.doc.value;
    AssembledOrder(InfoItems(b, d), SpecTable(env, b, d, d.params.value), UsageItems(env, b) + PinHead(b),
                   PinTable(env, b), FlashItems(env, b), d.extra);
  }

  /** `write` raises exactly when counting the I/O values fails, or when
      the pin mapping of a board with an Arduino core fails: a pin
      without a number in its Arduino name, or an analog role the core
      does not know. */
  lemma WrittenFails(env: Env, board: Board)
    ensures var o := Written(env, board);
            o.error.Some? <==>
              board.pinout != [] &&
              (RolePinsOf(board.pinout).Err? ||
               (board.hasArduinoCore && (MapsOf(env, board.pinout).Err? || PinRows(MapsOf(env, board.pinout).value).Err?)))
  {
    var b := WithDefaults(board);
    var d := b.doc.value;
    AssembledOrder(InfoItems(b, d), SpecTable(env, b, d, d.params.value), UsageItems(env, b) + PinHead(b),
                   PinTable(env, b), FlashItems(env, b), d.extra);
  }

  /** `Written` from the values of its sections. */
  lemma WrittenFrom(env: Env, board: Board, b: Board, spec: Result<string>, pins: Result<seq<string>>)
    requires b == WithDefaults(board)
    requires spec == SpecTable(env, b, b.doc.value, b.doc.value.params.value) && pins == PinTable(env, b)
    ensures spec.Err? ==> Written(env, board) == Outcome(InfoItems(b, b.doc.value), Some(spec.error), b)
    ensures spec.Ok? && pins.Err? ==>
              Written(env, board) == Outcome(InfoItems(b, b.doc.value) + [spec.value] + (UsageItems(env, b) + PinHead(b)),
                                             Some(pins.error), b)
    ensures spec.Ok? && pins.Ok? ==>
              Written(env, board)
              == Outcome(InfoItems(b, b.doc.value) + [spec.value] + (UsageItems(env, b) + PinHead(b))
                           + pins.value + FlashItems(env, b) + b.doc.value.extra,
                         None, b.(flash := ZeroedAll(b.flash)))
  {
  }

  /** The board after `write`: the defaults filled in, and, when no
      error stopped it before the flash map, every region with no size
      padding, so its length column is the shortest hex text. */
  lemma WrittenBoard(env: Env, board: Board)
    ensures var o := Written(env, board);
            && o.board == WithDefaults(board).(flash := o.board.flash)
            && |o.board.flash| == |board.flash|
            && (o.error.Some? ==> o.board.flash == board.flash)
            && (o.error.None? ==> forall i :: 0 <= i < |board.flash| ==>
                  o.board.flash[i] == board.flash[i].(hexSizeLen := 0)
                  && o.board.flash[i].LengthHex() == "0x" + HexUpper(board.flash[i].length))
  {
    var o := Written(env, board);
    if o.error.None? {
      forall i | 0 <= i < |board.flash|
        ensures o.board.flash[i].LengthHex() == "0x" + HexUpper(board.flash[i].length)
      {
        Flash.NoPadding(o.board.flash[i]);
      }
    }
  }

  /** The flash rows are over the regions in order of their starts. */
  lemma FlashSorted(regs: seq<Flash.FlashRegion>)
    ensures SortedBy(StartKey, SortBy(StartKey, regs))
    ensures multiset(SortBy(StartKey, regs)) == multiset(regs)
  {
    SortByFacts(StartKey, regs);
  }

  /** One more entry adds its row. */
  lemma RowsSnoc<X>(f: X -> seq<string>, xs: seq<X>, i: nat)
    requires i < |xs|
    ensures Rows(f, xs[..i + 1]) == Rows(f, xs[..i]) + [f(xs[i])]
  {
    var a := Rows(f, xs[..i + 1]);
    var b := Rows(f, xs[..i]) + [f(xs[i])];
    assert |a| == |b|;
    forall k | 0 <= k < |a|
      ensures a[k] == b[k]
    {
      assert xs[..i + 1][k] == xs[k];
      if k < i {
        assert xs[..i][k] == xs[k];
      }
    }
  }

  // ---------------------------------------------------------------------
  // The loops

  /** The `role_pins` loop. */
  method CollectRolePins(pinout: seq<VariantWriter.PinDict>) returns (r: Result<RolePins>)
    ensures r == RolePinsOf(pinout)
  {
    var rolePins: RolePins := map[];
    for i := 0 to |pinout|
      invariant Fold(PinAdded, map[], pinout[..i]) == Ok(rolePins)
    {
      var pin := pinout[i];
      ghost var start := rolePins;
      for j := 0 to |pin|
        invariant Fold(RoleAdded, start, pin[..j]) == Ok(rolePins)
      {
        var (t, v) := pin[j];
        ghost var s0 := if t in rolePins then rolePins[t] else {};
        ghost var rp0 := rolePins;
        if t !in rolePins {
          rolePins := rolePins[t := {}];
        }
        var roles := ValuesOf(v);
        for m := 0 to |roles|
          invariant t in rolePins && rolePins == rp0[t := rolePins[t]]
          invariant Fold(KeyAdded, s0, roles[..m]) == Ok(rolePins[t])
        {
          var k := RoleKey(roles[m]);
          if k.Err? {
            FoldStops(KeyAdded, s0, roles, m, rolePins[t]);
            FoldStops(RoleAdded, start, pin, j, rp0);
            FoldStops(PinAdded, map[], pinout, i, start);
            return Err(k.error);
          }
          FoldStep(KeyAdded, s0, roles, m);
          rolePins := rolePins[t := rolePins[t] + {k.value}];
        }
        FoldAll(KeyAdded, s0, roles);
        FoldStep(RoleAdded, start, pin, j);
      }
      FoldAll(RoleAdded, start, pin);
      FoldStep(PinAdded, map[], pinout, i);
    }
    FoldAll(PinAdded, map[], pinout);
    return Ok(rolePins);
  }

  /** The loop filling `digital` and `analog`. */
  method CollectMaps(env: Env, pinout: seq<VariantWriter.PinDict>) returns (r: Result<Maps>)
    ensures r == MapsOf(env, pinout)
  {
    var digital: seq<(Json, Cells)> := [];
    var analog: seq<(Json, seq<string>)> := [];
    for i := 0 to |pinout|
      invariant Fold(MapsStep(env), Maps([], []), pinout[..i]) == Ok(Maps(digital, analog))
    {
      var pin := pinout[i];
      ghost var m0 := Maps(digital, analog);
      if VariantWriter.HasRole(pin, ARD_D) {
        var cells: Cells := map[];
        for j := 0 to |pin|
          invariant cells == DigitalCells(env, pin[..j])
        {
          var (t, v) := pin[j];
          assert pin[..j + 1][..j] == pin[..j];
          if t in env.roles {
            cells := cells[t := env.format(env.roles[t], v, true, [])];
          }
        }
        assert pin[..|pin|] == pin;
        digital := Assigned(digital, VariantWriter.RoleGet(pin, ARD_D, JNull), cells);
      }
      if VariantWriter.HasRole(pin, ARD_A) {
        var cells := AnalogCells(env, pin);
        if cells.Err? {
          assert MapsStep(env)(m0, pin).Err?;
          FoldStops(MapsStep(env), Maps([], []), pinout, i, m0);
          return Err(cells.error);
        }
        analog := Assigned(analog, VariantWriter.RoleGet(pin, ARD_A, JNull), cells.value);
      }
      assert MapsStep(env)(m0, pin) == Ok(Maps(digital, analog));
      FoldStep(MapsStep(env), Maps([], []), pinout, i);
    }
    FoldAll(MapsStep(env), Maps([], []), pinout);
    return Ok(Maps(digital, analog));
  }

  /** The two row loops: the digital pins in numeric order, then the
      analog ones, each cell joined. */
  method PinRowsOf(m: Maps) returns (r: Result<seq<seq<string>>>)
    ensures r == PinRows(m)
  {
    var d := ByNumber(m.digital);
    if d.Err? {
      return Err(d.error);
    }
    var a := ByNumber(m.analog);
    if a.Err? {
      return Err(a.error);
    }
    var rows: seq<seq<string>> := [];
    for i := 0 to |d.value|
      invariant rows == Rows(DigitalRow, d.value[..i])
    {
      RowsSnoc(DigitalRow, d.value, i);
      rows := rows + [DigitalRow(d.value[i])];
    }
    assert d.value[..|d.value|] == d.value;
    ghost var nd := rows;
    for i := 0 to |a.value|
      invariant rows == nd + Rows(AnalogRow, a.value[..i])
    {
      RowsSnoc(AnalogRow, a.value, i);
      AppendAssoc(nd, Rows(AnalogRow, a.value[..i]), [AnalogRow(a.value[i])]);
      rows := rows + [AnalogRow(a.value[i])];
    }
    assert a.value[..|a.value|] == a.value;
    return Ok(rows);
  }

  /** The row of one slot, as a sequence of rows. */
  lemma SlotRowsOne(env: Env, slot: Slot)
    ensures SlotRows(env, [slot]) == [SlotRow(env, slot)]
  {
  }

  /** The slots one region adds after the previous end `prev`. */
  function StepSlots(prev: nat, reg: Flash.FlashRegion): seq<Slot> {
    (if prev < reg.Start() then [Reserved(Gap(prev, reg))] else []) + [Named(reg)]
  }

  lemma LayoutStep(prev: nat, regs: seq<Flash.FlashRegion>, i: nat)
    requires i < |regs|
    ensures Layout(prev, regs[i..]) == StepSlots(prev, Zeroed(regs[i])) + Layout(Zeroed(regs[i]).End(), regs[i + 1..])
  {
    assert regs[i..][0] == regs[i] && regs[i..][1..] == regs[i + 1..];
  }

  lemma SlotRowsStep(env: Env, done: seq<Slot>, prev: nat, reg: Flash.FlashRegion)
    ensures SlotRows(env, done + StepSlots(prev, reg))
         == SlotRows(env, done) + (if prev < reg.Start() then [SlotRow(env, Reserved(Gap(prev, reg)))] else []) + [SlotRow(env, Named(reg))]
  {
    var pre: seq<Slot> := if prev < reg.Start() then [Reserved(Gap(prev, reg))] else [];
    assert done + StepSlots(prev, reg) == (done + pre) + [Named(reg)];
    SlotRowsAppend(env, done + pre, [Named(reg)]);
    SlotRowsAppend(env, done, pre);
    SlotRowsOne(env, Named(reg));
    if pre != [] {
      SlotRowsOne(env, pre[0]);
    }
  }

  lemma ConcatAssoc(a: seq<Slot>, b: seq<Slot>, c: seq<Slot>)
    ensures (a + b) + c == a + (b + c)
  {
  }

  /** The `prev_end` loop over the regions in order: a gap row whenever
      the previous end is below the next start, then the region's row. */
  method FlashRowsOf(env: Env, regs: seq<Flash.FlashRegion>) returns (rows: seq<seq<string>>)
    ensures rows == FlashRows(env, regs)
  {
    rows := [];
    var prevEnd: nat := 0;
    ghost var done: seq<Slot> := [];
    ghost var whole := Layout(0, regs);
    for i := 0 to |regs|
      invariant rows == SlotRows(env, done)
      invariant done + Layout(prevEnd, regs[i..]) == whole
    {
      var reg := Zeroed(regs[i]);
      LayoutStep(prevEnd, regs, i);
      SlotRowsStep(env, done, prevEnd, reg);
      ConcatAssoc(done, StepSlots(prevEnd, reg), Layout(reg.End(), regs[i + 1..]));
      if prevEnd < reg.Start() {
        var res := Gap(prevEnd, reg);
        rows := rows + [SlotRow(env, Reserved(res))];
      }
      rows := rows + [SlotRow(env, Named(reg))];
      done := done + StepSlots(prevEnd, reg);
      prevEnd := reg.End();
    }
    assert regs[|regs|..] == [];
    assert done == Layout(0, regs);
  }

  // ---------------------------------------------------------------------
  // The writer

  /** `ReadmeWriter`: the core it reads and the README it appends to.
      The `ReadmeParts` base class is held as a component. */
  class Writer {
    const env: Env
    const parts: Readme

    constructor (env: Env)
      ensures this.env == env && fresh(parts) && parts.items == []
    {
      this.env := env;
      parts := new Readme();
    }

    /** `clear`: every item is dropped. */
    method Clear()
      modifies parts
      ensures parts.items == []
    {
      parts.items := [];
    }

    /** The info section. */
    method WriteInfo(b: Board, d: Doc)
      modifies parts
      ensures parts.items == old(parts.items) + InfoItems(b, d)
    {
      parts.AddHeading(b.name, 1);
      parts.AddStyled("*", ["by", b.vendor]);
      if b.url != [] {
        parts.AddLink("Product page", b.url);
      }
      if d.links != [] {
        parts.AddList(LinkItems(d.links));
      }
    }

    /** The specification table; an error in the I/O counts appends
        nothing. */
    method WriteSpecs(b: Board, d: Doc, p: Params) returns (err: Option<Error>)
      modifies parts
      ensures err.None? <==> SpecTable(env, b, d, p).Ok?
      ensures err.Some? ==> err.value == SpecTable(env, b, d, p).error && parts.items == old(parts.items)
      ensures err.None? ==> parts.items == old(parts.items) + [SpecTable(env, b, d, p).value]
    {
      var rows := BaseRows(env, b, p);
      var io: seq<seq<string>> := [];
      if b.pinout != [] {
        var rp := CollectRolePins(b.pinout);
        if rp.Err? {
          return Some(rp.error);
        }
        io := [["I/O", IoText(rp.value)]];
      }
      assert IoRows(b.pinout) == Ok(io);
      rows := rows + io + DocRows(d, p);
      assert SpecRows(env, b, d, p) == Ok(rows);
      WidthsOk(SpecHeader, rows);
      var t := parts.AddTable(SpecHeader, rows);
      return None;
    }

    /** The usage section. */
    method WriteUsage(b: Board)
      modifies parts
      ensures parts.items == old(parts.items) + UsageItems(env, b)
    {
      parts.AddHeading("Usage", 2);
      parts.AddText(["**Board code:**", "`" + b.id + "`"]);
      if env.isLibretuya {
        parts.AddText(["In `platformio.ini`:"]);
        parts.AddCode(CodeLines(["[env:" + b.id + "]", "platform = libretuya", "board = " + b.id, "framework = arduino"]), Some("ini"));
        parts.AddText(["In ESPHome YAML:"]);
        parts.AddCode(CodeLines(["libretuya:", "  board: " + b.id, "  framework:", "    version: dev"]), Some("yaml"));
      }
    }

    /** The pinout image and the mapping heading. */
    method WritePinHead(b: Board)
      modifies parts
      ensures parts.items == old(parts.items) + PinHead(b)
    {
      if b.pinout == [] {
        return;
      }
      if b.templates {
        parts.AddHeading("Pinout", 2);
        parts.AddImg("Pinout", "pinout_" + b.id + ".svg");
      }
      if b.hasArduinoCore {
        parts.AddHeading("Arduino Core pin mapping", 2);
      }
    }

    /** The pin mapping table of a board with a pinout and an Arduino
        core, or the error that stops `write` after its heading. */
    method WritePinTable(b: Board) returns (r: Result<seq<string>>)
      modifies parts
      ensures r == PinTable(env, b)
      ensures r.Ok? ==> parts.items == old(parts.items) + r.value
      ensures r.Err? ==> parts.items == old(parts.items)
    {
      if b.pinout == [] || !b.hasArduinoCore {
        return Ok([]);
      }
      var m := CollectMaps(env, b.pinout);
      if m.Err? {
        return Err(m.error);
      }
      var rows := PinRowsOf(m.value);
      if rows.Err? {
        return Err(rows.error);
      }
      PinTableIs(env, b, m.value, rows.value);
      WidthsOk(PinHeader, rows.value);
      var t := parts.AddTable(PinHeader, rows.value);
      return Ok([TableOf(PinHeader, rows.value)]);
    }

    /** The flash heading, the size and unit texts and the table. */
    method AddFlashTable(b: Board, rows: seq<seq<string>>)
      requires forall k :: 0 <= k < |rows| ==> |rows[k]| <= |FlashHeader|
      modifies parts
      ensures parts.items
           == old(parts.items)
            + [Heading("Flash memory map", 2),
               Words(["Flash size:", env.sizeOf(b.flashSize), "/", Grouped(b.flashSize) + " B", "/", Flash.HexText(b.flashSize, 0)]),
               Words(["Hex values are in bytes."]),
               TableOf(FlashHeader, rows)]
    {
      parts.AddHeading("Flash memory map", 2);
      parts.AddText(["Flash size:", env.sizeOf(b.flashSize), "/", Grouped(b.flashSize) + " B", "/", Flash.HexText(b.flashSize, 0)]);
      parts.AddText(["Hex values are in bytes."]);
      WidthsOk(FlashHeader, rows);
      var t := parts.AddTable(FlashHeader, rows);
    }

    /** The flash section of a board with regions. */
    method WriteFlash(b: Board)
      modifies parts
      ensures parts.items == old(parts.items) + FlashItems(env, b)
    {
      if b.flash == [] {
        return;
      }
      var regs := SortBy(StartKey, b.flash);
      var rows := FlashRowsOf(env, regs);
      FlashItemsAre(env, b, rows);
      AddFlashTable(b, rows);
    }

    /** `write(board)`: the items appended, the exception raised and the
        board as it is left are those of `Written`. */
    method Write(board: Board) returns (after: Board, err: Option<Error>)
      modifies parts
      ensures parts.items == old(parts.items) + Written(env, board).items
      ensures err == Written(env, board).error
      ensures after == Written(env, board).board
    {
      var b := WithDefaults(board);
      var d := b.doc.value;
      ghost var start := parts.items;
      ghost var spec := SpecTable(env, b, d, d.params.value);
      WrittenFrom(env, board, b, spec, PinTable(env, b));
      WriteInfo(b, d);
      err := WriteSpecs(b, d, d.params.value);
      if err.Some? {
        return b, err;
      }
      ghost var acc := InfoItems(b, d) + [spec.value];
      AppendAssoc(start, InfoItems(b, d), [spec.value]);
      WriteUsage(b);
      WritePinHead(b);
      AppendAssoc(start + acc, UsageItems(env, b), PinHead(b));
      AppendAssoc(start, acc, UsageItems(env, b) + PinHead(b));
      acc := acc + (UsageItems(env, b) + PinHead(b));
      var ps := WritePinTable(b);
      if ps.Err? {
        return b, Some(ps.error);
      }
      AppendAssoc(start, acc, ps.value);
      acc := acc + ps.value;
      WriteFlash(b);
      AppendAssoc(start, acc, FlashItems(env, b));
      acc := acc + FlashItems(env, b);
      parts.items := parts.items + d.extra;
      AppendAssoc(start, acc, d.extra);
      after := b.(flash := ZeroedAll(b.flash));
    }
  }
}
