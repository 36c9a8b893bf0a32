/** `boardgen/models/flash_region.py`, and the parsing of a manifest's
    `"flash"` table in `Core.get_board` (`boardgen/core/core.py`): each
    entry `"0xOFFSET+0xLENGTH"` becomes a region, and every region's hex
    columns share the widest offset and the widest length. */
module Flash {
  import opened Wrappers
  import opened Text
  import opened JsonValue

  function Max(a: int, b: int): int {
    if a >= b then a else b
  }

  /** `"0x%X" % n` when `width` is 0, else `f"0x%0{width}X" % n`. */
  function HexText(n: nat, width: nat): (r: string)
    ensures |r| == 2 + Max(width, HexWidth(n))
    ensures r[..2] == "0x" && r[|r| - HexWidth(n)..] == HexUpper(n)
  {
    HexUpperWidth(n);
    "0x" + (if width == 0 then HexUpper(n) else ZeroPad(HexUpper(n), width))
  }

  /** The digits after `0x` read back as the number: zero padding never
      changes the value. */
  lemma HexTextParses(n: nat, width: nat)
    ensures ParseHex(HexText(n, width)) == Ok(n)
  {
    var h := HexUpper(n);
    HexRoundTrip(n);
    if width == 0 {
      ParsePrefixed(h);
    } else {
      var z := Repeat('0', width - |h|);
      assert ZeroPad(h, width) == z + h;
      HexValueLeadingZeros(z, h);
      ParsePrefixed(z + h);
    }
  }

  lemma ParsePrefixed(d: string)
    requires d != [] && AllHex(d)
    ensures ParseHex("0x" + d) == Ok(HexValue(d))
  {
    assert ("0x" + d)[2..] == d;
  }

  /** A region of the flash map. `title` is whatever the flash table
      describes the region with (`None` by default). */
  datatype FlashRegion = FlashRegion(
    name: string,
    offset: nat,
    length: nat,
    title: Json,
    readOnly: bool,
    hexOffsLen: nat,
    hexSizeLen: nat)
  {
    function Start(): nat {
      offset
    }

    function End(): nat {
      offset + length
    }

    function StartHex(): string {
      HexText(Start(), hexOffsLen)
    }

    /** Padded to the offset width, like `StartHex`. */
    function EndHex(): string {
      HexText(End(), hexOffsLen)
    }

    function LengthHex(): string {
      HexText(length, hexSizeLen)
    }

    /** `lst`, with `length_str` (`sizeof(length)`, a float formatting
        helper) given. */
    function Lst(lengthStr: string): seq<string> {
      [StartHex(), lengthStr + " / " + LengthHex(), EndHex()]
    }
  }

  /** The map row of a region: the start, the size text with the length,
      and the end, each hex text readable back as its number. */
  lemma LstParts(r: FlashRegion, lengthStr: string)
    ensures var l := r.Lst(lengthStr);
            && |l| == 3
            && ParseHex(l[0]) == Ok(r.Start()) && ParseHex(l[2]) == Ok(r.End())
            && l[1][..|lengthStr|] == lengthStr && |l[1]| >= |lengthStr| + 3
            && ParseHex(l[1][|lengthStr| + 3..]) == Ok(r.length)
  {
    RegionHex(r);
    MiddleParts(lengthStr, " / ", r.LengthHex());
  }

  lemma MiddleParts(a: string, sep: string, b: string)
    ensures (a + sep + b)[..|a|] == a && (a + sep + b)[|a| + |sep|..] == b
  {
  }

  /** The three hex texts of a region: each is `0x` and at least the
      padding width of digits, ends with the exact digits of its number,
      and parses back to it. */
  lemma RegionHex(r: FlashRegion)
    ensures ParseHex(r.StartHex()) == Ok(r.Start())
    ensures ParseHex(r.EndHex()) == Ok(r.offset + r.length)
    ensures ParseHex(r.LengthHex()) == Ok(r.length)
    ensures |r.StartHex()| == 2 + Max(r.hexOffsLen, HexWidth(r.offset))
    ensures |r.EndHex()| == 2 + Max(r.hexOffsLen, HexWidth(r.offset + r.length))
    ensures |r.LengthHex()| == 2 + Max(r.hexSizeLen, HexWidth(r.length))
  {
    HexTextParses(r.Start(), r.hexOffsLen);
    HexTextParses(r.End(), r.hexOffsLen);
    HexTextParses(r.length, r.hexSizeLen);
  }

  /** The end column is padded with the offset width, so start and end
      line up whenever the end fits that width; the length column does not
      depend on it. */
  lemma EndAlignsWithStart(r: FlashRegion)
    requires HexWidth(r.offset) <= r.hexOffsLen && HexWidth(r.offset + r.length) <= r.hexOffsLen
    ensures |r.StartHex()| == |r.EndHex()| == 2 + r.hexOffsLen
  {
  }

  /** With no padding width the digits are the shortest ones. */
  lemma NoPadding(r: FlashRegion)
    requires r.hexSizeLen == 0
    ensures r.LengthHex() == "0x" + HexUpper(r.length)
  {
  }

  // ---------------------------------------------------------------------
  // Parsing the manifest's table

  /** `layout.partition("+")` and `int(..., 16)` of both halves: a value
      that is not a string has no `partition`; a missing or malformed half
      is a `ValueError`. */
  function ParseLayout(layout: Json): (r: Result<(nat, nat)>)
    ensures !layout.JStr? ==> r == Err(AttributeError)
  {
    if !layout.JStr? then Err(AttributeError)
    else
      var (a, found, b) := Partition(layout.s, '+');
      var offset :- ParseHex(a);
      var length :- ParseHex(b);
      assert layout.s == a + "+" + b;
      Ok((offset, length))
  }

  /** A parsed layout is two hex numbers on either side of a `+`. */
  lemma LayoutParts(layout: Json)
    requires ParseLayout(layout).Ok?
    ensures layout.JStr?
    ensures var (offset, length) := ParseLayout(layout).value;
            exists a, b :: layout.s == a + "+" + b && ParseHex(a) == Ok(offset) && ParseHex(b) == Ok(length)
  {
    var (a, found, b) := Partition(layout.s, '+');
    assert layout.s == a + "+" + b;
  }

  /** The keyword arguments `FlashRegion(name=..., offset=..., length=..., **desc)`
      takes from the description: a dict is spread into the fields (a key
      that is already passed is a `TypeError`), anything else is the
      title. Fields the description leaves out keep their defaults. */
  function Describe(name: string, offset: nat, length: nat, desc: Json): (r: Result<FlashRegion>)
    ensures !desc.JObj? ==> r == Ok(FlashRegion(name, offset, length, desc, false, 6, 0))
    ensures r.Ok? ==> r.value.name == name && r.value.offset == offset && r.value.length == length
  {
    if !desc.JObj? then Ok(FlashRegion(name, offset, length, desc, false, 6, 0))
    else
      var d := desc.fields;
      if "name" in FieldKeys(d) || "offset" in FieldKeys(d) || "length" in FieldKeys(d) then Err(TypeError)
      else
        var title := match Lookup(d, "title") case Some(t) => t case None => JNull;
        Ok(FlashRegion(name, offset, length, title, Lookup(d, "read_only") == Some(JBool(true)), 6, 0))
  }

  /** `self.flash.get(region, "(unknown)")` */
  function DescOf(table: seq<Field>, region: string): Json {
    match Lookup(table, region) case Some(d) => d case None => JStr("(unknown)")
  }

  /** One entry of the table: its layout parsed, then its region
      described. */
  function Entry(f: Field, table: seq<Field>): (r: Result<FlashRegion>)
    ensures r.Ok? ==> r.value.name == f.key && ParseLayout(f.val) == Ok((r.value.offset, r.value.length))
    ensures ParseLayout(f.val).Err? ==> r == Err(ParseLayout(f.val).error)
  {
    var layout :- ParseLayout(f.val);
    Describe(f.key, layout.0, layout.1, DescOf(table, f.key))
  }

  /** The regions in table order, before the widths are shared. */
  function RawRegions(flash: seq<Field>, table: seq<Field>): (r: Result<seq<FlashRegion>>)
    ensures r.Ok? ==> |r.value| == |flash|
    decreases |flash|
  {
    if flash == [] then Ok([])
    else
      var region :- Entry(flash[0], table);
      var rest :- RawRegions(flash[1..], table);
      Ok([region] + rest)
  }

  /** `max(hex_offs_len, len(hex(offset)))` over the regions, from 0. */
  function OffsWidthOf(regions: seq<FlashRegion>): nat
    decreases |regions|
  {
    if regions == [] then 0 else Max(OffsWidthOf(regions[..|regions| - 1]), 2 + HexWidth(regions[|regions| - 1].offset))
  }

  function SizeWidthOf(regions: seq<FlashRegion>): nat
    decreases |regions|
  {
    if regions == [] then 0 else Max(SizeWidthOf(regions[..|regions| - 1]), 2 + HexWidth(regions[|regions| - 1].length))
  }

  /** The shared widths, without the `0x` of `hex()`. */
  function Widened(regions: seq<FlashRegion>, offs: nat, size: nat): (r: seq<FlashRegion>)
    ensures |r| == |regions|
    ensures forall i :: 0 <= i < |r| ==> r[i] == regions[i].(hexOffsLen := offs, hexSizeLen := size)
  {
    seq(|regions|, i requires 0 <= i < |regions| => regions[i].(hexOffsLen := offs, hexSizeLen := size))
  }

  /** What `get_board` stores in `manifest["flash"]`. */
  function FlashRegions(flash: seq<Field>, table: seq<Field>): Result<seq<FlashRegion>> {
    var raw :- RawRegions(flash, table);
    if raw == [] then Ok([]) else Ok(Shared(raw))
  }

  /** Every region with the widest `hex()` of an offset and of a length,
      less the `0x`. */
  function Shared(raw: seq<FlashRegion>): seq<FlashRegion>
    requires raw != []
  {
    WidthAtLeast(raw);
    Widened(raw, OffsWidthOf(raw) - 2, SizeWidthOf(raw) - 2)
  }

  lemma {:induction false} WidthAtLeast(regions: seq<FlashRegion>)
    requires regions != []
    ensures OffsWidthOf(regions) >= 3 && SizeWidthOf(regions) >= 3
    decreases |regions|
  {
  }

  /** The accumulated width is the widest `hex()` of an offset: no offset
      is wider, and one is that wide. */
  lemma {:induction false} OffsWidthIsMax(regions: seq<FlashRegion>)
    requires regions != []
    ensures forall i :: 0 <= i < |regions| ==> 2 + HexWidth(regions[i].offset) <= OffsWidthOf(regions)
    ensures exists i :: 0 <= i < |regions| && 2 + HexWidth(regions[i].offset) == OffsWidthOf(regions)
    decreases |regions|
  {
    var init := regions[..|regions| - 1];
    var last := |regions| - 1;
    if init == [] {
      assert 2 + HexWidth(regions[last].offset) == OffsWidthOf(regions);
    } else {
      OffsWidthIsMax(init);
      forall i | 0 <= i < last ensures regions[i] == init[i] {
      }
      if OffsWidthOf(regions) != OffsWidthOf(init) {
        assert 2 + HexWidth(regions[last].offset) == OffsWidthOf(regions);
      } else {
        var i :| 0 <= i < |init| && 2 + HexWidth(init[i].offset) == OffsWidthOf(init);
        assert regions[i] == init[i];
      }
    }
  }

  lemma {:induction false} SizeWidthIsMax(regions: seq<FlashRegion>)
    requires regions != []
    ensures forall i :: 0 <= i < |regions| ==> 2 + HexWidth(regions[i].length) <= SizeWidthOf(regions)
    ensures exists i :: 0 <= i < |regions| && 2 + HexWidth(regions[i].length) == SizeWidthOf(regions)
    decreases |regions|
  {
    var init := regions[..|regions| - 1];
    var last := |regions| - 1;
    if init == [] {
      assert 2 + HexWidth(regions[last].length) == SizeWidthOf(regions);
    } else {
      SizeWidthIsMax(init);
      forall i | 0 <= i < last ensures regions[i] == init[i] {
      }
      if SizeWidthOf(regions) != SizeWidthOf(init) {
        assert 2 + HexWidth(regions[last].length) == SizeWidthOf(regions);
      } else {
        var i :| 0 <= i < |init| && 2 + HexWidth(init[i].length) == SizeWidthOf(init);
        assert regions[i] == init[i];
      }
    }
  }

  /** Every region's offset column is as wide as the widest offset and
      its length column as wide as the widest length. */
  lemma SharedAt(raw: seq<FlashRegion>, i: nat)
    requires raw != [] && i < |raw|
    ensures i < |Shared(raw)|
    ensures Shared(raw)[i].offset == raw[i].offset && Shared(raw)[i].length == raw[i].length
    ensures Shared(raw)[i].hexOffsLen == OffsWidthOf(raw) - 2 && Shared(raw)[i].hexSizeLen == SizeWidthOf(raw) - 2
  {
  }

  lemma SharedWidths(raw: seq<FlashRegion>)
    requires raw != []
    ensures var rs := Shared(raw);
            && (forall i, j :: 0 <= i < |rs| && 0 <= j < |rs| ==>
                  HexWidth(rs[j].offset) <= rs[i].hexOffsLen && HexWidth(rs[j].length) <= rs[i].hexSizeLen)
  {
    OffsWidthIsMax(raw);
    SizeWidthIsMax(raw);
    var rs := Shared(raw);
    forall i, j | 0 <= i < |rs| && 0 <= j < |rs| ensures HexWidth(rs[j].offset) <= rs[i].hexOffsLen && HexWidth(rs[j].length) <= rs[i].hexSizeLen {
      SharedAt(raw, i);
      SharedAt(raw, j);
    }
  }

  /** All regions share one pair of widths, and some offset and some
      length are exactly that wide. */
  lemma SharedWidthsAttained(raw: seq<FlashRegion>)
    requires raw != []
    ensures var rs := Shared(raw);
            && (forall i :: 0 <= i < |rs| ==> rs[i].hexOffsLen == rs[0].hexOffsLen && rs[i].hexSizeLen == rs[0].hexSizeLen)
            && (exists j :: 0 <= j < |rs| && HexWidth(rs[j].offset) == rs[0].hexOffsLen)
            && (exists j :: 0 <= j < |rs| && HexWidth(rs[j].length) == rs[0].hexSizeLen)
  {
    OffsWidthIsMax(raw);
    SizeWidthIsMax(raw);
    var rs := Shared(raw);
    forall i | 0 <= i < |rs| ensures rs[i].hexOffsLen == rs[0].hexOffsLen && rs[i].hexSizeLen == rs[0].hexSizeLen {
      SharedAt(raw, i);
      SharedAt(raw, 0);
    }
    var ko :| 0 <= ko < |raw| && 2 + HexWidth(raw[ko].offset) == OffsWidthOf(raw);
    var ks :| 0 <= ks < |raw| && 2 + HexWidth(raw[ks].length) == SizeWidthOf(raw);
    SharedAt(raw, ko);
    SharedAt(raw, ks);
    SharedAt(raw, 0);
  }

  /** So the start column of the flash map lines up: every start text
      has the same length. */
  lemma StartsAligned(raw: seq<FlashRegion>, i: nat, j: nat)
    requires raw != [] && i < |raw| && j < |raw|
    ensures var rs := Shared(raw);
            |rs[i].StartHex()| == |rs[j].StartHex()| == 2 + rs[i].hexOffsLen
  {
    SharedWidths(raw);
    SharedAt(raw, i);
    SharedAt(raw, j);
  }

  /** The table's regions are the parsed entries with the shared widths. */
  lemma FlashRegionsOf(flash: seq<Field>, table: seq<Field>)
    requires FlashRegions(flash, table).Ok? && flash != []
    ensures var raw := RawRegions(flash, table).value;
            && raw != []
            && FlashRegions(flash, table).value == Shared(raw)
  {
  }

  /** A region that the flash table does not name is titled
      `(unknown)`. */
  lemma UnknownRegion(flash: seq<Field>, table: seq<Field>, i: nat)
    requires FlashRegions(flash, table).Ok? && i < |flash|
    requires flash[i].key !in FieldKeys(table)
    ensures FlashRegions(flash, table).value[i].title == JStr("(unknown)")
    ensures FlashRegions(flash, table).value[i].name == flash[i].key
  {
    RawRegionAt(flash, table, i);
    LookupIn(table, flash[i].key);
  }

  lemma {:induction false} RawRegionAt(flash: seq<Field>, table: seq<Field>, i: nat)
    requires RawRegions(flash, table).Ok? && i < |flash|
    ensures Entry(flash[i], table) == Ok(RawRegions(flash, table).value[i])
    decreases i
  {
    if i > 0 {
      assert flash[1..][i - 1] == flash[i];
      RawRegionAt(flash[1..], table, i - 1);
    }
  }

  /** The table loop: parse every entry, keeping the running maxima of
      `len(hex(...))`, then give every region the shared widths (less the
      `0x`). */
  method ParseFlash(flash: seq<Field>, table: seq<Field>) returns (r: Result<seq<FlashRegion>>)
    ensures r == FlashRegions(flash, table)
  {
    var raw, offsLen, sizeLen := ParseEntries(flash, table);
    if raw.Err? {
      return Err(raw.error);
    }
    if raw.value == [] {
      return Ok([]);
    }
    WidthAtLeast(raw.value);
    var widened := Widen(raw.value, offsLen - 2, sizeLen - 2);
    return Ok(widened);
  }

  /** The first loop of the table: the regions in order and the widest
      `hex()` of an offset and of a length seen. */
  method ParseEntries(flash: seq<Field>, table: seq<Field>) returns (r: Result<seq<FlashRegion>>, offsLen: nat, sizeLen: nat)
    ensures r == RawRegions(flash, table)
    ensures r.Ok? ==> offsLen == OffsWidthOf(r.value) && sizeLen == SizeWidthOf(r.value)
  {
    var regions: seq<FlashRegion> := [];
    offsLen, sizeLen := 0, 0;
    var i := 0;
    assert flash[0..] == flash;
    PrependNil(RawRegions(flash, table));
    while i < |flash|
      invariant 0 <= i <= |flash|
      invariant RawRegions(flash, table) == Prepend(regions, RawRegions(flash[i..], table))
      invariant offsLen == OffsWidthOf(regions) && sizeLen == SizeWidthOf(regions)
    {
      RawStep(flash, table, i, regions);
      var region := Entry(flash[i], table);
      if region.Err? {
        return Err(region.error), offsLen, sizeLen;
      }
      offsLen := Max(offsLen, 2 + HexWidth(region.value.offset));
      sizeLen := Max(sizeLen, 2 + HexWidth(region.value.length));
      WidthsAppend(regions, region.value);
      regions := regions + [region.value];
      i := i + 1;
    }
    assert flash[i..] == [];
    assert regions + [] == regions;
    return Ok(regions), offsLen, sizeLen;
  }

  /** The second loop: every region gets the shared widths. */
  method Widen(regions: seq<FlashRegion>, offs: nat, size: nat) returns (widened: seq<FlashRegion>)
    ensures widened == Widened(regions, offs, size)
  {
    var j := 0;
    widened := regions;
    while j < |widened|
      invariant 0 <= j <= |widened| == |regions|
      invariant forall k :: 0 <= k < j ==> widened[k] == regions[k].(hexOffsLen := offs, hexSizeLen := size)
      invariant forall k :: j <= k < |widened| ==> widened[k] == regions[k]
    {
      widened := widened[j := widened[j].(hexOffsLen := offs, hexSizeLen := size)];
      j := j + 1;
    }
  }

  function Prepend(xs: seq<FlashRegion>, r: Result<seq<FlashRegion>>): Result<seq<FlashRegion>> {
    match r
    case Ok(ys) => Ok(xs + ys)
    case Err(e) => Err(e)
  }

  lemma PrependNil(r: Result<seq<FlashRegion>>)
    ensures Prepend([], r) == r
  {
    if r.Ok? {
      assert [] + r.value == r.value;
    }
  }

  /** One entry of the table loop. */
  lemma RawStep(flash: seq<Field>, table: seq<Field>, i: nat, regions: seq<FlashRegion>)
    requires i < |flash|
    ensures var region := Entry(flash[i], table);
            var whole := Prepend(regions, RawRegions(flash[i..], table));
            && (region.Err? ==> whole == Err(region.error))
            && (region.Ok? ==> whole == Prepend(regions + [region.value], RawRegions(flash[i + 1..], table)))
  {
    assert flash[i..][1..] == flash[i + 1..];
    var rest := RawRegions(flash[i + 1..], table);
    var region := Entry(flash[i], table);
    if region.Ok? && rest.Ok? {
      assert regions + ([region.value] + rest.value) == (regions + [region.value]) + rest.value;
    }
  }

  lemma WidthsAppend(regions: seq<FlashRegion>, r: FlashRegion)
    ensures OffsWidthOf(regions + [r]) == Max(OffsWidthOf(regions), 2 + HexWidth(r.offset))
    ensures SizeWidthOf(regions + [r]) == Max(SizeWidthOf(regions), 2 + HexWidth(r.length))
  {
    assert (regions + [r])[..|regions|] == regions;
  }
}
