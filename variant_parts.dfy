/** `VariantParts` of `boardgen/variant/parts.py`: the pin records and
    `#define` sections that the variant generator accumulates, and the
    two formatters that turn them into `variant.c` and `variant.h`
    text. */
module VariantParts {
  import opened Wrappers
  import opened Text

  // ---------------------------------------------------------------------
  // Pin features

  /** `PinFeatures`, an `IntFlag` whose members are the bits 0 to 11. */
  datatype PinFeature =
    | PIN_NONE | PIN_GPIO | PIN_IRQ | PIN_PWM | PIN_ADC | PIN_DAC
    | PIN_I2C | PIN_I2S | PIN_JTAG | PIN_SPI | PIN_SWD | PIN_UART

  /** A combination of features: an `IntFlag` value is the set of the
      member flags whose bits it has, so `features & f` holds exactly when
      `f` is in the set, `|` is union and `& ~f` is removal. */
  type Features = set<PinFeature>

  const FeatureCount := 12

  /** The position of a flag in the class, which is also its bit. */
  function FeatureIndex(f: PinFeature): (i: nat)
    ensures i < FeatureCount
  {
    match f
    case PIN_NONE => 0 case PIN_GPIO => 1 case PIN_IRQ => 2 case PIN_PWM => 3
    case PIN_ADC => 4 case PIN_DAC => 5 case PIN_I2C => 6 case PIN_I2S => 7
    case PIN_JTAG => 8 case PIN_SPI => 9 case PIN_SWD => 10 case PIN_UART => 11
  }

  /** `list(PinFeatures)[i]` */
  function FeatureAt(i: nat): (f: PinFeature)
    requires i < FeatureCount
    ensures FeatureIndex(f) == i
  {
    match i
    case 0 => PIN_NONE case 1 => PIN_GPIO case 2 => PIN_IRQ case 3 => PIN_PWM
    case 4 => PIN_ADC case 5 => PIN_DAC case 6 => PIN_I2C case 7 => PIN_I2S
    case 8 => PIN_JTAG case 9 => PIN_SPI case 10 => PIN_SWD case _ => PIN_UART
  }

  lemma FeatureAtIndex(f: PinFeature)
    ensures FeatureAt(FeatureIndex(f)) == f
  {
  }

  /** `feature.name` */
  function FeatureName(f: PinFeature): string {
    match f
    case PIN_NONE => "PIN_NONE" case PIN_GPIO => "PIN_GPIO" case PIN_IRQ => "PIN_IRQ"
    case PIN_PWM => "PIN_PWM" case PIN_ADC => "PIN_ADC" case PIN_DAC => "PIN_DAC"
    case PIN_I2C => "PIN_I2C" case PIN_I2S => "PIN_I2S" case PIN_JTAG => "PIN_JTAG"
    case PIN_SPI => "PIN_SPI" case PIN_SWD => "PIN_SWD" case PIN_UART => "PIN_UART"
  }

  /** `(features & ~PIN_NONE) | feature`: the new flags are set, the other
      flags stay, and `PIN_NONE` survives only if the new flags carry it. */
  function WithFeature(features: Features, feature: Features): (r: Features)
    ensures feature <= r
    ensures PIN_NONE in r <==> PIN_NONE in feature
    ensures forall f :: f in r <==> f in feature || (f in features && f != PIN_NONE)
  {
    (features - {PIN_NONE}) + feature
  }

  /** Adding a feature twice is adding it once. */
  lemma WithFeatureIdempotent(features: Features, feature: Features)
    ensures WithFeature(WithFeature(features, feature), feature) == WithFeature(features, feature)
  {
  }

  /** The flags set in `features`, in declaration order, from index `i`. */
  function FlagsFrom(features: Features, i: nat): seq<PinFeature>
    requires i <= FeatureCount
    decreases FeatureCount - i
  {
    if i == FeatureCount then []
    else (if FeatureAt(i) in features then [FeatureAt(i)] else []) + FlagsFrom(features, i + 1)
  }

  /** The members `f` of `PinFeatures` for which `features & f` holds. */
  function Flags(features: Features): seq<PinFeature> {
    FlagsFrom(features, 0)
  }

  /** The flags listed from index `i` are the set ones from there on. */
  lemma {:induction false} FlagsFromMembers(features: Features, i: nat)
    requires i <= FeatureCount
    ensures forall f :: f in FlagsFrom(features, i) <==> f in features && FeatureIndex(f) >= i
    decreases FeatureCount - i
  {
    if i < FeatureCount {
      FlagsFromMembers(features, i + 1);
      var f := FeatureAt(i);
      var head := if f in features then [f] else [];
      assert FlagsFrom(features, i) == head + FlagsFrom(features, i + 1);
      forall g ensures g in FlagsFrom(features, i) <==> g in features && FeatureIndex(g) >= i {
        if FeatureIndex(g) == i {
          FeatureAtIndex(g);
        }
      }
    }
  }

  /** Flags in strictly increasing declaration order. */
  predicate Increasing(fs: seq<PinFeature>) {
    forall a, b :: 0 <= a < b < |fs| ==> FeatureIndex(fs[a]) < FeatureIndex(fs[b])
  }

  /** The flags listed from index `i` are in strictly increasing order. */
  lemma {:induction false} FlagsFromOrder(features: Features, i: nat)
    requires i <= FeatureCount
    ensures Increasing(FlagsFrom(features, i))
    decreases FeatureCount - i
  {
    if i < FeatureCount {
      FlagsFromOrder(features, i + 1);
      FlagsFromMembers(features, i + 1);
      var f := FeatureAt(i);
      var tail := FlagsFrom(features, i + 1);
      if f in features {
        ConsIncreasing(f, tail);
        assert FlagsFrom(features, i) == [f] + tail;
      } else {
        assert FlagsFrom(features, i) == tail;
      }
    }
  }

  /** A flag below every later one keeps the order. */
  lemma ConsIncreasing(f: PinFeature, tail: seq<PinFeature>)
    requires Increasing(tail)
    requires forall g :: g in tail ==> FeatureIndex(f) < FeatureIndex(g)
    ensures Increasing([f] + tail)
  {
    var all := [f] + tail;
    forall a, b | 0 <= a < b < |all|
      ensures FeatureIndex(all[a]) < FeatureIndex(all[b])
    {
      assert all[b] == tail[b - 1] && tail[b - 1] in tail;
      if a > 0 {
        assert all[a] == tail[a - 1];
      }
    }
  }

  /** The listed flags are exactly the set ones, in strictly increasing
      declaration order. */
  lemma FlagsOrder(features: Features)
    ensures forall f :: f in Flags(features) <==> f in features
    ensures forall a, b :: 0 <= a < b < |Flags(features)| ==>
              FeatureIndex(Flags(features)[a]) < FeatureIndex(Flags(features)[b])
  {
    FlagsFromMembers(features, 0);
    FlagsFromOrder(features, 0);
  }

  /** The names of some flags, in their order. */
  function NamesOf(fs: seq<PinFeature>): (r: seq<string>)
    ensures |r| == |fs| && forall i :: 0 <= i < |fs| ==> r[i] == FeatureName(fs[i])
  {
    seq(|fs|, i requires 0 <= i < |fs| => FeatureName(fs[i]))
  }

  /** The names of the set flags. */
  function FlagNames(features: Features): seq<string> {
    NamesOf(Flags(features))
  }

  /** The inner loop of `format_pins`: the names of the flags that are
      set, in declaration order. */
  method FlagNamesOf(features: Features) returns (names: seq<string>)
    ensures names == FlagNames(features)
  {
    names := [];
    var i := FeatureCount;
    ghost var rest: seq<PinFeature> := [];
    // the flags run forwards; the list is built from its end so that each
    // step extends the specification's tail
    while i > 0
      invariant 0 <= i <= FeatureCount
      invariant rest == FlagsFrom(features, i)
      invariant names == NamesOf(rest)
      decreases i
    {
      i := i - 1;
      var f := FeatureAt(i);
      if f in features {
        assert NamesOf([f] + rest) == [FeatureName(f)] + NamesOf(rest);
        rest := [f] + rest;
        names := [FeatureName(f)] + names;
      }
      assert rest == FlagsFrom(features, i);
    }
  }

  // ---------------------------------------------------------------------
  // Sections

  /** `SectionType`. `ARDUINO` and `PORTS` are used by the generator but
      not declared in the enum's file; their titles here are their
      member names. */
  datatype SectionType = PINS | LEDS | ANALOG | SPI | WIRE | SERIAL | MACROS | ARDUINO | PORTS

  /** `section_type.value` */
  function Title(t: SectionType): string {
    match t
    case PINS => "Pins" case LEDS => "LEDs" case ANALOG => "Analog pins"
    case SPI => "SPI Interfaces" case WIRE => "Wire Interfaces" case SERIAL => "Serial ports"
    case MACROS => "Pin function macros" case ARDUINO => "ARDUINO" case PORTS => "PORTS"
  }

  /** `section_type.name` */
  function SectionName(t: SectionType): string {
    match t
    case PINS => "PINS" case LEDS => "LEDS" case ANALOG => "ANALOG" case SPI => "SPI"
    case WIRE => "WIRE" case SERIAL => "SERIAL" case MACROS => "MACROS"
    case ARDUINO => "ARDUINO" case PORTS => "PORTS"
  }

  /** A `SectionItem`: key, integer value and optional comment. */
  datatype Item = Item(key: string, value: int, comment: Option<string>)

  /** A pin record: C name, features, comment and role texts. */
  datatype PinRecord = PinRecord(gpio: string, features: Features, comment: Option<string>, roles: set<string>)

  /** `add_pin`'s effect: a name already present keeps its record. */
  function PinAdded(pins: map<string, PinRecord>, name: string, gpio: string, comment: Option<string>): map<string, PinRecord> {
    if name in pins then pins else pins[name := PinRecord(gpio, {PIN_NONE}, comment, {})]
  }

  /** The first registration of a name wins: a second one changes nothing,
      and the record holds the first call's C name and comment. */
  lemma FirstPinWins(pins: map<string, PinRecord>, name: string, g1: string, c1: Option<string>, g2: string, c2: Option<string>)
    ensures PinAdded(PinAdded(pins, name, g1, c1), name, g2, c2) == PinAdded(pins, name, g1, c1)
    ensures name !in pins ==> PinAdded(pins, name, g1, c1)[name] == PinRecord(g1, {PIN_NONE}, c1, {})
    ensures PinAdded(pins, name, g1, c1).Keys == pins.Keys + {name}
  {
  }

  /** `add_pin_feature`'s effect. */
  function FeatureAdded(pins: map<string, PinRecord>, name: string, feature: Features): map<string, PinRecord> {
    if name in pins then pins[name := pins[name].(features := WithFeature(pins[name].features, feature))] else pins
  }

  /** Adding a feature keeps the names and every other field, and is
      idempotent. */
  lemma FeatureAddedFacts(pins: map<string, PinRecord>, name: string, feature: Features)
    ensures FeatureAdded(pins, name, feature).Keys == pins.Keys
    ensures forall n :: n in pins ==>
              var p := FeatureAdded(pins, name, feature)[n];
              p.gpio == pins[n].gpio && p.comment == pins[n].comment && p.roles == pins[n].roles
              && (n == name ==> feature <= p.features)
              && (n != name ==> p == pins[n])
    ensures FeatureAdded(FeatureAdded(pins, name, feature), name, feature) == FeatureAdded(pins, name, feature)
  {
    if name in pins {
      WithFeatureIdempotent(pins[name].features, feature);
    }
  }

  /** The texts of a sequence, as a set. */
  function Elems(texts: seq<string>): set<string> {
    set t | t in texts
  }

  /** `add_pin_roles`'s effect. */
  function RolesAdded(pins: map<string, PinRecord>, name: string, texts: seq<string>): map<string, PinRecord> {
    if name in pins then pins[name := pins[name].(roles := pins[name].roles + Elems(texts))] else pins
  }

  /** Adding roles keeps the names and every other field; the pin ends up
      with exactly its old roles and the given texts, and adding the same
      texts again changes nothing. */
  lemma RolesAddedFacts(pins: map<string, PinRecord>, name: string, texts: seq<string>)
    ensures RolesAdded(pins, name, texts).Keys == pins.Keys
    ensures forall n :: n in pins ==>
              var p := RolesAdded(pins, name, texts)[n];
              p.gpio == pins[n].gpio && p.comment == pins[n].comment && p.features == pins[n].features
              && (n == name ==> forall t :: t in p.roles <==> t in pins[n].roles || t in texts)
              && (n != name ==> p == pins[n])
    ensures RolesAdded(RolesAdded(pins, name, texts), name, texts) == RolesAdded(pins, name, texts)
  {
    if name in pins {
      var p := pins[name];
      assert p.roles + Elems(texts) + Elems(texts) == p.roles + Elems(texts);
    }
  }

  /** `self.sections.get(section, [])` */
  function SectionOf(sections: map<SectionType, seq<Item>>, t: SectionType): seq<Item> {
    if t in sections then sections[t] else []
  }

  /** `add_item`'s effect. */
  function ItemAdded(sections: map<SectionType, seq<Item>>, t: SectionType, item: Item): map<SectionType, seq<Item>> {
    sections[t := SectionOf(sections, t) + [item]]
  }

  /** Exactly one item more, at the end of that section; other sections are
      as they were. */
  lemma ItemAddedFacts(sections: map<SectionType, seq<Item>>, t: SectionType, item: Item)
    ensures var r := ItemAdded(sections, t, item);
            && r.Keys == sections.Keys + {t}
            && |r[t]| == |SectionOf(sections, t)| + 1 && r[t][|r[t]| - 1] == item
            && r[t][..|r[t]| - 1] == SectionOf(sections, t)
            && forall u :: u != t ==> SectionOf(r, u) == SectionOf(sections, u)
  {
    var r := ItemAdded(sections, t, item);
    assert r[t][..|r[t]| - 1] == SectionOf(sections, t);
  }

  /** The index of the first item with that key. */
  function FirstIndex(items: seq<Item>, key: string): (r: Option<nat>)
    ensures r.Some? ==> r.value < |items| && items[r.value].key == key
    ensures r.Some? ==> forall j :: 0 <= j < r.value ==> items[j].key != key
    ensures r.None? ==> forall j :: 0 <= j < |items| ==> items[j].key != key
  {
    if items == [] then None
    else if items[0].key == key then Some(0)
    else match FirstIndex(items[1..], key)
      case None => None
      case Some(i) => Some(i + 1)
  }

  /** The value a key counts in a section: that of its first item, or 0
      without one. */
  function ValueOf(items: seq<Item>, key: string): int {
    match FirstIndex(items, key)
    case None => 0
    case Some(i) => items[i].value
  }

  /** `increment_item` on one section's items. */
  function Incremented(items: seq<Item>, key: string): seq<Item> {
    match FirstIndex(items, key)
    case Some(i) => items[i := items[i].(value := items[i].value + 1)]
    case None => items + [Item(key, 1, None)]
  }

  /** Two item lists with the same keys at the same positions find the
      same first index for every key. */
  lemma SameKeysFirstIndex(a: seq<Item>, b: seq<Item>, key: string)
    requires |a| == |b| && forall j :: 0 <= j < |a| ==> a[j].key == b[j].key
    ensures FirstIndex(a, key) == FirstIndex(b, key)
  {
    var ia, ib := FirstIndex(a, key), FirstIndex(b, key);
    if ia.Some? && ib.Some? {
      assert !(ia.value < ib.value) && !(ib.value < ia.value);
    }
  }

  /** Incrementing a key adds one to its count (an absent key counts 0)
      and leaves every other key's count alone; an existing key keeps the
      list's length and keys, a new one is appended as `(key, 1, None)`. */
  lemma IncrementedCounts(items: seq<Item>, key: string)
    ensures ValueOf(Incremented(items, key), key) == ValueOf(items, key) + 1
    ensures forall k :: k != key ==> ValueOf(Incremented(items, key), k) == ValueOf(items, k)
    ensures FirstIndex(items, key).Some? ==>
              |Incremented(items, key)| == |items|
              && forall j :: 0 <= j < |items| ==> Incremented(items, key)[j].key == items[j].key
    ensures FirstIndex(items, key).None? ==> Incremented(items, key) == items + [Item(key, 1, None)]
  {
    var r := Incremented(items, key);
    match FirstIndex(items, key)
    case Some(i) =>
      forall k ensures FirstIndex(r, k) == FirstIndex(items, k) {
        SameKeysFirstIndex(r, items, k);
      }
    case None =>
      assert r[|items|].key == key;
      assert forall j :: 0 <= j < |items| ==> r[j] == items[j];
      assert FirstIndex(r, key) == Some(|items|);
      forall k | k != key ensures FirstIndex(r, k) == FirstIndex(items, k) {
        match FirstIndex(items, k)
        case Some(i) =>
          assert r[i] == items[i];
          var ir := FirstIndex(r, k);
          assert ir.Some? && !(ir.value < i) && !(i < ir.value);
        case None =>
          assert forall j :: 0 <= j < |r| ==> r[j].key != k;
      }
  }

  // ---------------------------------------------------------------------
  // The accumulating object

  /** The pins and sections a `VariantParts` object accumulates. Pins are
      keyed by their Arduino name. */
  class Parts {
    var pins: map<string, PinRecord>
    var sections: map<SectionType, seq<Item>>

    constructor ()
      ensures pins == map[] && sections == map[]
    {
      pins := map[];
      sections := map[];
    }

    /** `add_pin`: the first registration of a name wins. */
    method AddPin(name: string, gpio: string, comment: Option<string>) returns (added: bool)
      modifies this
      ensures added == (name !in old(pins))
      ensures pins == PinAdded(old(pins), name, gpio, comment)
      ensures sections == old(sections)
    {
      if name in pins {
        return false;
      }
      pins := pins[name := PinRecord(gpio, {PIN_NONE}, comment, {})];
      return true;
    }

    /** `add_pin_feature`: a no-op for an unknown name. */
    method AddPinFeature(name: string, feature: Features)
      modifies this
      ensures pins == FeatureAdded(old(pins), name, feature)
      ensures sections == old(sections)
    {
      if name !in pins {
        return;
      }
      var p := pins[name];
      var features := p.features - {PIN_NONE};
      features := features + feature;
      pins := pins[name := p.(features := features)];
    }

    /** `add_pin_roles`: each text joins the pin's role set. */
    method AddPinRoles(name: string, texts: seq<string>)
      modifies this
      ensures pins == RolesAdded(old(pins), name, texts)
      ensures sections == old(sections)
    {
      if name !in pins {
        return;
      }
      ghost var pin := old(pins)[name];
      var i := 0;
      assert pin.(roles := pin.roles + Elems([])) == pin;
      while i < |texts|
        invariant 0 <= i <= |texts|
        invariant pins == old(pins)[name := pin.(roles := pin.roles + Elems(texts[..i]))]
        invariant sections == old(sections)
      {
        assert texts[..i + 1] == texts[..i] + [texts[i]];
        assert Elems(texts[..i + 1]) == Elems(texts[..i]) + {texts[i]};
        ghost var before := pin.(roles := pin.roles + Elems(texts[..i]));
        assert pins[name] == before;
        pins := pins[name := pins[name].(roles := pins[name].roles + {texts[i]})];
        assert pins[name] == pin.(roles := pin.roles + Elems(texts[..i + 1]));
        assert pins == old(pins)[name := pin.(roles := pin.roles + Elems(texts[..i + 1]))];
        i := i + 1;
      }
      assert texts[..i] == texts;
    }

    /** `add_item`: one item appended to the section, created if needed. */
    method AddItem(t: SectionType, key: string, value: int, comment: Option<string>)
      modifies this
      ensures sections == ItemAdded(old(sections), t, Item(key, value, comment))
      ensures pins == old(pins)
    {
      if t !in sections {
        sections := sections[t := []];
      }
      sections := sections[t := sections[t] + [Item(key, value, comment)]];
    }

    /** `increment_item`: the first item with the key counts one more, or
        `(key, 1, None)` is appended. */
    method IncrementItem(t: SectionType, key: string)
      modifies this
      ensures sections == old(sections)[t := Incremented(SectionOf(old(sections), t), key)]
      ensures pins == old(pins)
    {
      if t !in sections {
        sections := sections[t := []];
      }
      var items := sections[t];
      var i := 0;
      while i < |items|
        invariant 0 <= i <= |items|
        invariant forall j :: 0 <= j < i ==> items[j].key != key
        invariant sections == old(sections)[t := items] && items == SectionOf(old(sections), t)
        invariant pins == old(pins)
      {
        if items[i].key == key {
          assert FirstIndex(items, key) == Some(i);
          sections := sections[t := items[i := Item(key, items[i].value + 1, items[i].comment)]];
          return;
        }
        i := i + 1;
      }
      assert FirstIndex(items, key) == None;
      sections := sections[t := items + [Item(key, 1, None)]];
    }
  }

  // ---------------------------------------------------------------------
  // variant.c: the pin table

  /** One entry of `sorted_pins`: Arduino name, C name, features, comment
      and role texts. */
  datatype PinRow = PinRow(name: string, gpio: string, features: Features, comment: Option<string>, roles: set<string>)

  /** `f"{comment}"`, where `None` prints as `None`. */
  function CommentStr(c: Option<string>): string {
    match c
    case None => "None"
    case Some(s) => s
  }

  /** `" | ".join(...)` of the set flags' names. */
  function FeaturesText(features: Features): string {
    Join(" | ", FlagNames(features))
  }

  /** `max(...)` of the lengths, starting from 0: the widths the
      formatters pad to. */
  function MaxLen(ss: seq<string>): nat {
    if ss == [] then 0
    else
      var m := MaxLen(ss[..|ss| - 1]);
      var l := |ss[|ss| - 1]|;
      if l > m then l else m
  }

  /** The width is the length of the longest string (0 without any). */
  lemma {:induction false} MaxLenBounds(ss: seq<string>)
    ensures forall i :: 0 <= i < |ss| ==> |ss[i]| <= MaxLen(ss)
    ensures MaxLen(ss) == 0 || exists i :: 0 <= i < |ss| && |ss[i]| == MaxLen(ss)
    decreases |ss|
  {
    if ss != [] {
      var init := ss[..|ss| - 1];
      MaxLenBounds(init);
      assert forall i :: 0 <= i < |init| ==> init[i] == ss[i];
      if MaxLen(ss) != 0 && MaxLen(ss) != |ss[|ss| - 1]| {
        var i :| 0 <= i < |init| && |init[i]| == MaxLen(init);
        assert |ss[i]| == MaxLen(ss);
      }
    }
  }

  /** One more string raises the width to its length if that is more. */
  lemma MaxLenStep(ss: seq<string>, i: nat)
    requires i < |ss|
    ensures MaxLen(ss[..i + 1]) == if |ss[i]| > MaxLen(ss[..i]) then |ss[i]| else MaxLen(ss[..i])
  {
    assert ss[..i + 1][..i] == ss[..i];
  }

  /** The C names of the rows. */
  function Gpios(rows: seq<PinRow>): (r: seq<string>)
    ensures |r| == |rows|
  {
    seq(|rows|, i requires 0 <= i < |rows| => rows[i].gpio)
  }

  /** The features texts of the rows. */
  function FeatureTexts(rows: seq<PinRow>): (r: seq<string>)
    ensures |r| == |rows|
  {
    seq(|rows|, i requires 0 <= i < |rows| => FeaturesText(rows[i].features))
  }

  /** The `{gpio, features, PIN_NONE, 0},` entry, padded to the widths. */
  function EntryLine(gpio: string, features: string, maxGpio: int, maxFeatures: int): string {
    "\t{" + gpio + ", " + Repeat(' ', maxGpio - |gpio|) + features + ", "
      + Repeat(' ', maxFeatures - |features|) + "PIN_NONE, 0},"
  }

  /** An entry line laid out in the columns of the widths `g` and `f`:
      it opens with its C name, has its features text in column `g + 4`
      and `PIN_NONE` in column `g + f + 6`. */
  predicate Aligned(line: string, gpio: string, features: string, g: int, f: int) {
    && 0 <= 2 + |gpio| <= g + 4 && g + 4 + |features| <= g + f + 6
    && |line| == g + f + 19
    && line[..2 + |gpio|] == "\t{" + gpio
    && line[g + 4..g + 4 + |features|] == features
    && line[g + f + 6..] == "PIN_NONE, 0},"
  }

  /** Padded to the widths, every entry is aligned. */
  lemma EntryColumns(gpio: string, features: string, maxGpio: int, maxFeatures: int)
    requires |gpio| <= maxGpio && |features| <= maxFeatures
    ensures Aligned(EntryLine(gpio, features, maxGpio, maxFeatures), gpio, features, maxGpio, maxFeatures)
  {
    var a := "\t{" + gpio + ", " + Repeat(' ', maxGpio - |gpio|);
    var b := a + features + ", " + Repeat(' ', maxFeatures - |features|);
    assert |a| == maxGpio + 4;
    assert |b| == maxGpio + maxFeatures + 6;
    var line := EntryLine(gpio, features, maxGpio, maxFeatures);
    assert line == b + "PIN_NONE, 0},";
    assert line[..2 + |gpio|] == a[..2 + |gpio|];
    assert line[maxGpio + 4..maxGpio + 4 + |features|] == b[|a|..|a| + |features|];
  }

  /** The comment line of a row. */
  function RowComment(p: PinRow): string {
    "\t// " + p.name + ": " + CommentStr(p.comment)
  }

  /** The comment lines of the rows. */
  function Comments(rows: seq<PinRow>): (r: seq<string>)
    ensures |r| == |rows|
  {
    seq(|rows|, i requires 0 <= i < |rows| => RowComment(rows[i]))
  }

  /** The entry lines of the rows, with their features texts and widths. */
  function Entries(rows: seq<PinRow>, texts: seq<string>, g: int, f: int): (r: seq<string>)
    requires |texts| == |rows|
    ensures |r| == |rows|
  {
    seq(|rows|, i requires 0 <= i < |rows| => EntryLine(rows[i].gpio, texts[i], g, f))
  }

  /** `a[0], b[0], a[1], b[1], ...` */
  function Interleave(a: seq<string>, b: seq<string>): (r: seq<string>)
    requires |a| == |b|
    ensures |r| == 2 * |a|
  {
    if a == [] then [] else Interleave(a[..|a| - 1], b[..|a| - 1]) + [a[|a| - 1], b[|a| - 1]]
  }

  lemma {:induction false} InterleaveAt(a: seq<string>, b: seq<string>, i: nat)
    requires |a| == |b| && i < |a|
    ensures Interleave(a, b)[2 * i] == a[i] && Interleave(a, b)[2 * i + 1] == b[i]
    decreases |a|
  {
    var n := |a| - 1;
    if i < n {
      InterleaveAt(a[..n], b[..n], i);
      assert a[..n][i] == a[i] && b[..n][i] == b[i];
    }
  }

  /** `format_pins`'s lines: for every row its comment, then its entry. */
  function PinTableLines(rows: seq<PinRow>): seq<string> {
    var texts := FeatureTexts(rows);
    ["// clang-format off", "PinInfo pinTable[PINS_COUNT] = {"]
      + Interleave(Comments(rows), Entries(rows, texts, MaxLen(Gpios(rows)), MaxLen(texts)))
      + ["};", "// clang-format on"]
  }

  /** A line of the body keeps its place after the header. */
  lemma Framed(head: seq<string>, body: seq<string>, foot: seq<string>, k: nat)
    requires k < |body|
    ensures (head + body + foot)[|head| + k] == body[k]
  {
  }

  /** `a[i]` and `b[i]` sit at `2 * i` and `2 * i + 1` of the framed
      interleaving. */
  lemma InterleaveFramed(head: seq<string>, a: seq<string>, b: seq<string>, foot: seq<string>, i: nat)
    requires |a| == |b| && i < |a|
    ensures var lines := head + Interleave(a, b) + foot;
            && |lines| == |head| + 2 * |a| + |foot|
            && lines[|head| + 2 * i] == a[i]
            && lines[|head| + 2 * i + 1] == b[i]
  {
    InterleaveAt(a, b, i);
    Framed(head, Interleave(a, b), foot, 2 * i);
    Framed(head, Interleave(a, b), foot, 2 * i + 1);
  }

  /** A row's C name and features text fit the table's widths. */
  lemma RowFits(rows: seq<PinRow>, i: nat)
    requires i < |rows|
    ensures |rows[i].gpio| <= MaxLen(Gpios(rows))
    ensures FeatureTexts(rows)[i] == FeaturesText(rows[i].features)
    ensures |FeaturesText(rows[i].features)| <= MaxLen(FeatureTexts(rows))
  {
    assert Gpios(rows)[i] == rows[i].gpio;
    MaxLenBounds(Gpios(rows));
    MaxLenBounds(FeatureTexts(rows));
  }

  /** Entry `i` of the rows, padded to widths both its texts fit. */
  lemma EntryAt(rows: seq<PinRow>, texts: seq<string>, g: int, f: int, i: nat)
    requires |texts| == |rows| && i < |rows| && |rows[i].gpio| <= g && |texts[i]| <= f
    ensures Aligned(Entries(rows, texts, g, f)[i], rows[i].gpio, texts[i], g, f)
  {
    EntryColumns(rows[i].gpio, texts[i], g, f);
  }

  /** Every pin gets its comment line and an entry aligned to the widest
      C name and the widest features text. */
  lemma PinTableAligned(rows: seq<PinRow>, i: nat)
    requires i < |rows|
    ensures var lines := PinTableLines(rows);
            var g := MaxLen(Gpios(rows));
            var f := MaxLen(FeatureTexts(rows));
            && |lines| == 2 * |rows| + 4
            && lines[2 * i + 2] == RowComment(rows[i])
            && Aligned(lines[2 * i + 3], rows[i].gpio, FeaturesText(rows[i].features), g, f)
  {
    var texts := FeatureTexts(rows);
    var g := MaxLen(Gpios(rows));
    var f := MaxLen(texts);
    RowFits(rows, i);
    EntryAt(rows, texts, g, f, i);
    InterleaveFramed(["// clang-format off", "PinInfo pinTable[PINS_COUNT] = {"], Comments(rows),
      Entries(rows, texts, g, f), ["};", "// clang-format on"], i);
  }

  /** A prefix one longer is the prefix and the next element. */
  lemma PrefixSnoc<T>(s: seq<T>, i: nat)
    requires i < |s|
    ensures s[..i + 1] == s[..i] + [s[i]]
  {
  }

  /** The first loop of `format_pins`: the features texts and the two
      widths. */
  method PinWidths(rows: seq<PinRow>) returns (texts: seq<string>, maxGpio: nat, maxFeatures: nat)
    ensures texts == FeatureTexts(rows)
    ensures maxGpio == MaxLen(Gpios(rows)) && maxFeatures == MaxLen(FeatureTexts(rows))
  {
    ghost var gpios := Gpios(rows);
    ghost var all := FeatureTexts(rows);
    texts := [];
    maxGpio := 0;
    maxFeatures := 0;
    var i := 0;
    while i < |rows|
      invariant 0 <= i <= |rows|
      invariant texts == all[..i]
      invariant maxGpio == MaxLen(gpios[..i]) && maxFeatures == MaxLen(texts)
    {
      var names := FlagNamesOf(rows[i].features);
      var ft := Join(" | ", names);
      MaxLenStep(gpios, i);
      MaxLenStep(all, i);
      PrefixSnoc(all, i);
      texts := texts + [ft];
      maxGpio := if |rows[i].gpio| > maxGpio then |rows[i].gpio| else maxGpio;
      maxFeatures := if |ft| > maxFeatures then |ft| else maxFeatures;
      i := i + 1;
    }
    assert gpios[..i] == gpios && all[..i] == all;
  }

  /** One more row adds its comment and its entry. */
  lemma InterleaveSnoc(a: seq<string>, b: seq<string>, i: nat)
    requires |a| == |b| && i < |a|
    ensures Interleave(a[..i + 1], b[..i + 1]) == Interleave(a[..i], b[..i]) + [a[i], b[i]]
  {
    assert a[..i + 1][..i] == a[..i] && b[..i + 1][..i] == b[..i];
  }

  /** The second loop of `format_pins`: a comment and an entry per row. */
  method PinLines(rows: seq<PinRow>, texts: seq<string>, maxGpio: nat, maxFeatures: nat) returns (body: seq<string>)
    requires |texts| == |rows|
    ensures body == Interleave(Comments(rows), Entries(rows, texts, maxGpio, maxFeatures))
  {
    ghost var cs := Comments(rows);
    ghost var es := Entries(rows, texts, maxGpio, maxFeatures);
    body := [];
    var i := 0;
    while i < |rows|
      invariant 0 <= i <= |rows|
      invariant body == Interleave(cs[..i], es[..i])
    {
      var p := rows[i];
      var comment := "\t// " + p.name + ": " + CommentStr(p.comment);
      var entry := EntryLine(p.gpio, texts[i], maxGpio, maxFeatures);
      InterleaveSnoc(cs, es, i);
      body := body + [comment, entry];
      i := i + 1;
    }
    assert cs[..i] == cs && es[..i] == es;
  }

  /** `format_pins` over `sorted_pins`. */
  method FormatPins(rows: seq<PinRow>) returns (text: string)
    ensures text == Join("\n", PinTableLines(rows))
  {
    var texts, maxGpio, maxFeatures := PinWidths(rows);
    var body := PinLines(rows, texts, maxGpio, maxFeatures);
    var out := ["// clang-format off", "PinInfo pinTable[PINS_COUNT] = {"] + body + ["};", "// clang-format on"];
    text := Join("\n", out);
  }

  // ---------------------------------------------------------------------
  // variant.h: the sections

  /** The comment column: `// comment` when the comment is non-empty. */
  function CommentText(c: Option<string>): string {
    if c.Some? && c.value != [] then "// " + c.value else ""
  }

  /** The keys of the items. */
  function Keys(items: seq<Item>): (r: seq<string>)
    ensures |r| == |items|
  {
    seq(|items|, i requires 0 <= i < |items| => items[i].key)
  }

  /** `str(value)` of the items. */
  function ValueTexts(items: seq<Item>): (r: seq<string>)
    ensures |r| == |items|
  {
    seq(|items|, i requires 0 <= i < |items| => IntToString(items[i].value))
  }

  /** A `#define` line up to its value. */
  function DefineHead(key: string, value: string, maxKey: int): string {
    "#define " + key + Repeat(' ', maxKey - |key|) + " " + value
  }

  /** One `#define` line before stripping. */
  function RawDefine(key: string, value: string, comment: string, maxKey: int, maxValue: int): string {
    DefineHead(key, value, maxKey) + Repeat(' ', maxValue - |value|) + " " + comment
  }

  /** One `#define` line as it reads once stripped: without a comment it
      ends on the value, with one the value's padding stays and only the
      comment loses its trailing blanks. */
  function DefineLine(item: Item, maxKey: int, maxValue: int): string {
    var v := IntToString(item.value);
    var c := CommentText(item.comment);
    if c == [] then DefineHead(item.key, v, maxKey)
    else DefineHead(item.key, v, maxKey) + Repeat(' ', maxValue - |v|) + " " + RStrip(c)
  }

  lemma IntToStringLast(i: int)
    ensures |IntToString(i)| >= 1 && IsDigit(IntToString(i)[|IntToString(i)| - 1])
  {
    var n := NatToString(if i < 0 then -i else i);
    assert IntToString(i)[|IntToString(i)| - 1] == n[|n| - 1];
  }

  /** A line that opens on a `#` loses nothing on the left. */
  lemma LStripHash(s: string)
    requires s != [] && s[0] == '#'
    ensures LStrip(s) == s
  {
  }

  /** The head opens on `#` and ends on the value's last digit. */
  lemma HeadEnds(key: string, value: int, maxKey: int)
    ensures var h := DefineHead(key, IntToString(value), maxKey);
            h != [] && h[0] == '#' && !IsSpace(h[|h| - 1])
  {
    var v := IntToString(value);
    IntToStringLast(value);
    var h := DefineHead(key, v, maxKey);
    assert h[|h| - 1] == v[|v| - 1];
  }

  /** Stripping a head followed by blanks gives the head back. */
  lemma StripBlankTail(head: string, pad: string)
    requires head != [] && head[0] == '#' && !IsSpace(head[|head| - 1])
    requires forall i :: 0 <= i < |pad| ==> IsSpace(pad[i])
    ensures Strip(head + pad + " ") == head
  {
    RStripBlanks(head + pad, " ");
    RStripBlanks(head, pad);
    LStripHash(head);
  }

  /** Stripping a head, blanks and a comment that opens on `/` strips only
      the comment's right end. */
  lemma StripCommentTail(head: string, pad: string, c: string)
    requires head != [] && head[0] == '#' && c != [] && c[0] == '/'
    ensures Strip(head + pad + " " + c) == head + pad + " " + RStrip(c)
  {
    RStripFacts(c);
    RStripAppend(head + pad + " ", c);
    LStripHash(head + pad + " " + RStrip(c));
  }

  /** `.strip()` of the padded line is `DefineLine`. */
  lemma DefineLineStrips(item: Item, maxKey: int, maxValue: int)
    ensures Strip(RawDefine(item.key, IntToString(item.value), CommentText(item.comment), maxKey, maxValue))
            == DefineLine(item, maxKey, maxValue)
  {
    var v := IntToString(item.value);
    var c := CommentText(item.comment);
    var head := DefineHead(item.key, v, maxKey);
    var pad := Repeat(' ', maxValue - |v|);
    HeadEnds(item.key, item.value, maxKey);
    if c == [] {
      assert RawDefine(item.key, v, c, maxKey, maxValue) == head + pad + " ";
      StripBlankTail(head, pad);
    } else {
      assert c[0] == '/';
      StripCommentTail(head, pad, c);
    }
  }

  /** The head of a line has the key at the start and the value in
      column `maxKey + 9`. */
  lemma HeadColumns(key: string, value: string, maxKey: int)
    requires |key| <= maxKey
    ensures var h := DefineHead(key, value, maxKey);
            && |h| == maxKey + 9 + |value|
            && h[..8 + |key|] == "#define " + key
            && h[maxKey + 9..] == value
  {
  }

  /** A `#define` line with its key right after `#define ` and its value
      in column `maxKey + 9`. */
  predicate DefineAligned(line: string, key: string, value: string, maxKey: int) {
    && 8 + |key| <= maxKey + 9
    && |line| >= maxKey + 9 + |value|
    && line[..8 + |key|] == "#define " + key
    && line[maxKey + 9..maxKey + 9 + |value|] == value
  }

  /** Padded to the section's widths, every `#define` line names its key
      at the start and has the value in column `maxKey + 9`; stripping
      never cuts into the value. */
  lemma DefineColumns(item: Item, maxKey: int, maxValue: int)
    requires |item.key| <= maxKey
    ensures DefineAligned(DefineLine(item, maxKey, maxValue), item.key, IntToString(item.value), maxKey)
  {
    var v := IntToString(item.value);
    var h := DefineHead(item.key, v, maxKey);
    HeadColumns(item.key, v, maxKey);
    var line := DefineLine(item, maxKey, maxValue);
    assert line[..|h|] == h;
    assert line[..8 + |item.key|] == h[..8 + |item.key|];
    assert line[maxKey + 9..maxKey + 9 + |v|] == h[maxKey + 9..];
  }

  /** The lines of items, each padded to the given widths. */
  function DefineLines(items: seq<Item>, maxKey: int, maxValue: int): (r: seq<string>)
    ensures |r| == |items|
  {
    seq(|items|, i requires 0 <= i < |items| => DefineLine(items[i], maxKey, maxValue))
  }

  /** A section: `// title`, a dash line as long as the title, one line per
      item padded to the section's own widths, and an empty line. */
  function SectionLines(t: SectionType, items: seq<Item>): (r: seq<string>)
    ensures |r| == |items| + 3
  {
    ["// " + Title(t), "// " + Repeat('-', |Title(t)|)] + DefineLines(items, MaxLen(Keys(items)), MaxLen(ValueTexts(items))) + [""]
  }

  /** Line `i + 2` of a section is item `i`'s `#define`. */
  lemma SectionLineAt(t: SectionType, items: seq<Item>, i: nat)
    requires i < |items|
    ensures SectionLines(t, items)[i + 2] == DefineLine(items[i], MaxLen(Keys(items)), MaxLen(ValueTexts(items)))
  {
    var mk := MaxLen(Keys(items));
    var mv := MaxLen(ValueTexts(items));
    Framed(["// " + Title(t), "// " + Repeat('-', |Title(t)|)], DefineLines(items, mk, mv), [""], i);
  }

  /** Every key fits the section's key width. */
  lemma KeyFits(items: seq<Item>, i: nat)
    requires i < |items|
    ensures |items[i].key| <= MaxLen(Keys(items))
  {
    assert Keys(items)[i] == items[i].key;
    MaxLenBounds(Keys(items));
  }

  /** A section opens with its title and a dash line as long as the
      title and closes with an empty line. */
  lemma SectionFrame(t: SectionType, items: seq<Item>)
    ensures var r := SectionLines(t, items);
            r[0] == "// " + Title(t) && r[1] == "// " + Repeat('-', |Title(t)|) && r[|r| - 1] == ""
  {
  }

  /** In between, line `i + 2` is item `i`'s `#define`, with its key at
      the start and its value in the column after the section's longest
      key. */
  lemma SectionShape(t: SectionType, items: seq<Item>, i: nat)
    requires i < |items|
    ensures DefineAligned(SectionLines(t, items)[i + 2], items[i].key, IntToString(items[i].value), MaxLen(Keys(items)))
  {
    KeyFits(items, i);
    SectionLineAt(t, items, i);
    DefineColumns(items[i], MaxLen(Keys(items)), MaxLen(ValueTexts(items)));
  }

  /** The blocks one after the other. */
  function Concat(blocks: seq<seq<string>>): seq<string> {
    if blocks == [] then [] else Concat(blocks[..|blocks| - 1]) + blocks[|blocks| - 1]
  }

  /** Block `k` sits right after the blocks before it. */
  lemma {:induction false} ConcatAt(blocks: seq<seq<string>>, k: nat)
    requires k < |blocks|
    ensures |Concat(blocks[..k])| + |blocks[k]| <= |Concat(blocks)|
    ensures Concat(blocks)[|Concat(blocks[..k])|..|Concat(blocks[..k])| + |blocks[k]|] == blocks[k]
    decreases |blocks|
  {
    var n := |blocks| - 1;
    var init := blocks[..n];
    if k < n {
      ConcatAt(init, k);
      assert init[..k] == blocks[..k];
      assert init[k] == blocks[k];
      var c := Concat(init);
      var lo := |Concat(blocks[..k])|;
      assert (c + blocks[n])[lo..lo + |blocks[k]|] == c[lo..lo + |blocks[k]|];
    } else {
      assert init == blocks[..k];
    }
  }

  /** The sections' blocks of lines. */
  function Blocks(sections: seq<(SectionType, seq<Item>)>): (r: seq<seq<string>>)
    ensures |r| == |sections|
  {
    seq(|sections|, i requires 0 <= i < |sections| => SectionLines(sections[i].0, sections[i].1))
  }

  /** `format_sections`'s lines after the two header lines. */
  function SectionsLines(sections: seq<(SectionType, seq<Item>)>): seq<string> {
    Concat(Blocks(sections))
  }

  /** The first loop of a section: the widest key and the widest value. */
  method SectionWidths(items: seq<Item>) returns (maxKey: nat, maxValue: nat)
    ensures maxKey == MaxLen(Keys(items)) && maxValue == MaxLen(ValueTexts(items))
  {
    ghost var keys := Keys(items);
    ghost var values := ValueTexts(items);
    maxKey := 0;
    maxValue := 0;
    var i := 0;
    while i < |items|
      invariant 0 <= i <= |items|
      invariant maxKey == MaxLen(keys[..i]) && maxValue == MaxLen(values[..i])
    {
      var value := IntToString(items[i].value);
      MaxLenStep(keys, i);
      MaxLenStep(values, i);
      maxKey := if |items[i].key| > maxKey then |items[i].key| else maxKey;
      maxValue := if |value| > maxValue then |value| else maxValue;
      i := i + 1;
    }
    assert keys[..i] == keys && values[..i] == values;
  }

  /** The `#define` line the second loop of a section emits. */
  lemma DefineLineIs(item: Item, maxKey: int, maxValue: int)
    ensures var value := IntToString(item.value);
            var comment := if item.comment.Some? && item.comment.value != [] then "// " + item.comment.value else "";
            Strip("#define " + item.key + Repeat(' ', maxKey - |item.key|) + " " + value
              + Repeat(' ', maxValue - |value|) + " " + comment) == DefineLine(item, maxKey, maxValue)
  {
    DefineLineStrips(item, maxKey, maxValue);
  }

  /** One more item adds its line. */
  lemma DefineLinesSnoc(items: seq<Item>, maxKey: int, maxValue: int, i: nat)
    requires i < |items|
    ensures DefineLines(items[..i + 1], maxKey, maxValue) == DefineLines(items[..i], maxKey, maxValue) + [DefineLine(items[i], maxKey, maxValue)]
  {
    var a := DefineLines(items[..i + 1], maxKey, maxValue);
    var b := DefineLines(items[..i], maxKey, maxValue) + [DefineLine(items[i], maxKey, maxValue)];
    forall j | 0 <= j < |a|
      ensures a[j] == b[j]
    {
      assert items[..i + 1][j] == items[j];
      if j < i {
        assert items[..i][j] == items[j];
      }
    }
  }

  /** The second loop of a section: its `#define` lines. */
  method DefinesOf(items: seq<Item>, maxKey: nat, maxValue: nat) returns (lines: seq<string>)
    ensures lines == DefineLines(items, maxKey, maxValue)
  {
    lines := [];
    var i := 0;
    while i < |items|
      invariant 0 <= i <= |items|
      invariant lines == DefineLines(items[..i], maxKey, maxValue)
    {
      var item := items[i];
      var value := IntToString(item.value);
      var comment := if item.comment.Some? && item.comment.value != [] then "// " + item.comment.value else "";
      var padKey := Repeat(' ', maxKey - |item.key|);
      var padValue := Repeat(' ', maxValue - |value|);
      DefineLineIs(item, maxKey, maxValue);
      DefineLinesSnoc(items, maxKey, maxValue, i);
      lines := lines + [Strip("#define " + item.key + padKey + " " + value + padValue + " " + comment)];
      i := i + 1;
    }
    assert items[..i] == items;
  }

  /** The lines of one section, as `format_sections` builds them. */
  method FormatSection(t: SectionType, items: seq<Item>) returns (out: seq<string>)
    ensures out == SectionLines(t, items)
  {
    var title := Title(t);
    var maxKey, maxValue := SectionWidths(items);
    var lines := DefinesOf(items, maxKey, maxValue);
    out := ["// " + title, "// " + Repeat('-', |title|)] + lines + [""];
  }

  /** One more block follows the blocks before it. */
  lemma ConcatSnoc(blocks: seq<seq<string>>, i: nat)
    requires i < |blocks|
    ensures Concat(blocks[..i + 1]) == Concat(blocks[..i]) + blocks[i]
  {
    assert blocks[..i + 1][..i] == blocks[..i];
  }

  /** `format_sections` over `sorted_sections`. */
  method FormatSections(sections: seq<(SectionType, seq<Item>)>) returns (text: string)
    ensures text == Join("\n", ["// clang-format off", ""] + SectionsLines(sections))
  {
    ghost var blocks := Blocks(sections);
    var out := ["// clang-format off", ""];
    for i := 0 to |sections|
      invariant out == ["// clang-format off", ""] + Concat(blocks[..i])
    {
      var (t, items) := sections[i];
      var lines := FormatSection(t, items);
      ConcatSnoc(blocks, i);
      AppendAssoc(["// clang-format off", ""], Concat(blocks[..i]), lines);
      out := out + lines;
    }
    assert blocks[..|sections|] == blocks;
    text := Join("\n", out);
  }

  /** Each section of the output is its own block of lines (title, dash
      line, aligned items, blank line), right after the sections before
      it. */
  lemma SectionsLayout(sections: seq<(SectionType, seq<Item>)>, k: nat)
    requires k < |sections|
    ensures |SectionsLines(sections[..k])| + |sections[k].1| + 3 <= |SectionsLines(sections)|
    ensures SectionsLines(sections)[|SectionsLines(sections[..k])|..|SectionsLines(sections[..k])| + |sections[k].1| + 3]
            == SectionLines(sections[k].0, sections[k].1)
  {
    var blocks := Blocks(sections);
    ConcatAt(blocks, k);
    assert Blocks(sections[..k]) == blocks[..k];
    assert blocks[k] == SectionLines(sections[k].0, sections[k].1);
  }
}
