/** `VariantWriter` of `boardgen/variant/writer.py`: reads the board's
    pinout and fills the pin records and `#define` sections of
    `VariantParts` for the Arduino core's `variant.c` and `variant.h`. */
module VariantWriter {
  import opened Wrappers
  import opened Text
  import opened JsonValue
  import opened Enums
  import opened Labels
  import opened VariantParts

  // ---------------------------------------------------------------------
  // Pin dictionaries

  /** A pinout entry: its role types and their values, in manifest
      order. */
  type PinDict = seq<(RoleType, Json)>

  /** `pin.get(t, default)`: the first value stored under `t`. */
  function RoleGet(pin: PinDict, t: RoleType, default: Json): Json {
    if pin == [] then default
    else if pin[0].0 == t then pin[0].1
    else RoleGet(pin[1..], t, default)
  }

  /** `t in pin` */
  predicate HasRole(pin: PinDict, t: RoleType) {
    exists i :: 0 <= i < |pin| && pin[i].0 == t
  }

  /** A role type the pin does not hold reads as the default. */
  lemma {:induction false} RoleGetMissing(pin: PinDict, t: RoleType, default: Json)
    requires !HasRole(pin, t)
    ensures RoleGet(pin, t, default) == default
    decreases |pin|
  {
    if pin != [] {
      assert pin[0].0 != t;
      assert !HasRole(pin[1..], t) by {
        forall i | 0 <= i < |pin[1..]|
          ensures pin[1..][i].0 != t
        {
          assert pin[1..][i] == pin[i + 1];
        }
      }
      RoleGetMissing(pin[1..], t, default);
    }
  }

  // ---------------------------------------------------------------------
  // read_pin

  /** What `read_pin` returns for a pin with a name. */
  datatype PinRef = PinRef(name: Json, cName: Json, number: int)

  /** `int(x)` of a manifest value (a float is truncated toward zero). */
  function IntOf(j: Json): Result<int> {
    match j
    case JBool(b) => Ok(if b then 1 else 0)
    case JInt(i) => Ok(i)
    case JFloat(r) => Ok(if r >= 0.0 then r.Floor else -((-r).Floor))
    case JStr(s) => ParseInt(s)
    case _ => Err(TypeError)
  }

  /** The pin number: `int(GPIONUM)` unless that is missing or `None`,
      otherwise `int(re.sub(r"\D", "", name))`. */
  function NumberOf(name: Json, number: Json): Result<int> {
    if number != JNull then IntOf(number)
    else if name.JStr? then ParseInt(DigitsOf(name.s))
    else Err(TypeError)
  }

  /** `read_pin`: `None` for a pin without a truthy GPIO or ADC name. */
  function ReadPin(pin: PinDict): Result<Option<PinRef>> {
    var gpio := RoleGet(pin, GPIO, JNull);
    var name := if Truthy(gpio) then gpio else RoleGet(pin, ADC, JNull);
    var cName := RoleGet(pin, C_NAME, name);
    if !Truthy(name) then Ok(None)
    else
      var number :- NumberOf(name, RoleGet(pin, GPIONUM, JNull));
      Ok(Some(PinRef(name, cName, number)))
  }

  /** A pin is skipped exactly when neither its GPIO nor its ADC value is
      truthy; otherwise its name is the GPIO value if truthy, else the ADC
      value, and its C name is the `C_NAME` value if present, else the
      name. */
  lemma ReadPinNames(pin: PinDict)
    ensures var gpio := RoleGet(pin, GPIO, JNull);
            var adc := RoleGet(pin, ADC, JNull);
            && (ReadPin(pin) == Ok(None) <==> !Truthy(gpio) && !Truthy(adc))
            && (ReadPin(pin).Ok? && ReadPin(pin).value.Some? ==>
                  var p := ReadPin(pin).value.value;
                  && p.name == (if Truthy(gpio) then gpio else adc)
                  && (HasRole(pin, C_NAME) ==> p.cName == RoleGet(pin, C_NAME, JNull))
                  && (!HasRole(pin, C_NAME) ==> p.cName == p.name))
  {
    if !HasRole(pin, C_NAME) {
      var gpio := RoleGet(pin, GPIO, JNull);
      var name := if Truthy(gpio) then gpio else RoleGet(pin, ADC, JNull);
      RoleGetMissing(pin, C_NAME, name);
    } else {
      RoleGetPresent(pin, C_NAME, JNull, RoleGet(pin, GPIO, JNull));
      RoleGetPresent(pin, C_NAME, JNull, RoleGet(pin, ADC, JNull));
    }
  }

  /** The default does not matter for a role type the pin holds. */
  lemma {:induction false} RoleGetPresent(pin: PinDict, t: RoleType, d1: Json, d2: Json)
    requires HasRole(pin, t)
    ensures RoleGet(pin, t, d1) == RoleGet(pin, t, d2)
    decreases |pin|
  {
    if pin[0].0 != t {
      var i :| 0 <= i < |pin| && pin[i].0 == t;
      assert pin[1..][i - 1] == pin[i];
      RoleGetPresent(pin[1..], t, d1, d2);
    }
  }

  /** The number is `int(GPIONUM)` when that is given; otherwise the
      name's decimal digits, read in order as one number, and a name
      without digits is a `ValueError`. */
  lemma ReadPinNumber(pin: PinDict)
    requires ReadPin(pin) != Ok(None)
    ensures var gpio := RoleGet(pin, GPIO, JNull);
            var name := if Truthy(gpio) then gpio else RoleGet(pin, ADC, JNull);
            var number := RoleGet(pin, GPIONUM, JNull);
            && (number != JNull ==>
                  && ReadPin(pin).Ok? == IntOf(number).Ok?
                  && (ReadPin(pin).Ok? ==> ReadPin(pin).value.value.number == IntOf(number).value))
            && (number == JNull && name.JStr? && DigitsOf(name.s) != [] ==>
                  ReadPin(pin).Ok? && ReadPin(pin).value.value.number == DecimalValue(DigitsOf(name.s)))
            && (number == JNull && name.JStr? && DigitsOf(name.s) == [] ==> ReadPin(pin) == Err(ValueError))
            && (number == JNull && !name.JStr? ==> ReadPin(pin) == Err(TypeError))
  {
  }

  /** An illustration of `ReadPinNames` and `ReadPinNumber`: `GPIO:
      "PA_12"` without `GPIONUM` is pin 12 with C name `PA_12`. */
  lemma ReadPinByName()
    ensures ReadPin([(GPIO, JStr("PA_12"))]) == Ok(Some(PinRef(JStr("PA_12"), JStr("PA_12"), 12)))
  {
    var pin := [(GPIO, JStr("PA_12"))];
    assert RoleGet(pin, GPIO, JNull) == JStr("PA_12");
    assert RoleGet(pin, C_NAME, JStr("PA_12")) == JStr("PA_12");
    assert RoleGet(pin, GPIONUM, JNull) == JNull;
    assert DigitsOf("PA_12") == "12" by {
      assert DigitsOf("PA_12") == DigitsOf("A_12") == DigitsOf("_12") == DigitsOf("12");
      assert DigitsOf("12") == ['1'] + DigitsOf("2");
    }
    assert DecimalValue("12") == 12 by {
      assert "12"[..1] == "1";
    }
  }

  /** An illustration of `ReadPinNumber`: `ADC: "AD_3"` with
      `GPIONUM: "19"` is pin 19. */
  lemma ReadPinByNumber()
    ensures ReadPin([(ADC, JStr("AD_3")), (GPIONUM, JStr("19"))]) == Ok(Some(PinRef(JStr("AD_3"), JStr("AD_3"), 19)))
  {
    var pin := [(ADC, JStr("AD_3")), (GPIONUM, JStr("19"))];
    assert RoleGet(pin, GPIO, JNull) == JNull;
    assert RoleGet(pin, ADC, JNull) == JStr("AD_3");
    assert RoleGet(pin, C_NAME, JStr("AD_3")) == JStr("AD_3");
    assert RoleGet(pin, GPIONUM, JNull) == JStr("19");
    assert ParseInt("19") == Ok(19) by {
      assert IsNumeric("19") by {
        assert IsDigit('1') && IsDigit('9');
      }
      assert "19"[..1] == "1";
      assert DecimalValue("19") == 19;
    }
  }

  /** An illustration of `ReadPinNumber`: a GPIO name without digits and
      without `GPIONUM` is a `ValueError`. */
  lemma ReadPinNoDigits()
    ensures ReadPin([(GPIO, JStr("PA"))]) == Err(ValueError)
  {
    var pin := [(GPIO, JStr("PA"))];
    assert RoleGet(pin, GPIO, JNull) == JStr("PA");
    assert RoleGet(pin, GPIONUM, JNull) == JNull;
    assert DigitsOf("PA") == [] by {
      assert DigitsOf("PA") == DigitsOf("A") == DigitsOf("");
    }
  }

  // ---------------------------------------------------------------------
  // Indexed interfaces

  /** Signal name to the pin numbers driving it, in first-seen order. */
  type Signals = seq<(string, seq<int>)>

  /** Interface index to its signals, in first-seen order. */
  type Interfaces = seq<(nat, Signals)>

  /** The position of a key in an ordered dictionary. */
  function IndexOfKey<K(==), V>(kvs: seq<(K, V)>, k: K): (r: Option<nat>)
    ensures r.Some? ==> r.value < |kvs| && kvs[r.value].0 == k
    ensures r.Some? ==> forall j :: 0 <= j < r.value ==> kvs[j].0 != k
    ensures r.None? ==> forall j :: 0 <= j < |kvs| ==> kvs[j].0 != k
  {
    if kvs == [] then None
    else if kvs[0].0 == k then Some(0)
    else match IndexOfKey(kvs[1..], k)
      case None => None
      case Some(i) => Some(i + 1)
  }

  /** No key appears twice. */
  predicate UniqueKeys<K(==), V>(kvs: seq<(K, V)>) {
    forall i, j :: 0 <= i < j < |kvs| ==> kvs[i].0 != kvs[j].0
  }

  /** `signals.setdefault(signal, []).append(n)` */
  function WithSignal(sigs: Signals, signal: string, n: int): Signals {
    match IndexOfKey(sigs, signal)
    case None => sigs + [(signal, [n])]
    case Some(i) => sigs[i := (signal, sigs[i].1 + [n])]
  }

  /** `interfaces.setdefault(index, {}).setdefault(signal, []).append(n)` */
  function WithPort(ifs: Interfaces, index: nat, signal: string, n: int): Interfaces {
    match IndexOfKey(ifs, index)
    case None => ifs + [(index, [(signal, [n])])]
    case Some(i) => ifs[i := (index, WithSignal(ifs[i].1, signal, n))]
  }

  /** The pin list of `signal` is the old one (or none) with `n` at its
      end; every other signal keeps its pins and its place, a new signal
      comes last, and the keys stay distinct. */
  lemma WithSignalFacts(sigs: Signals, signal: string, n: int)
    requires UniqueKeys(sigs)
    ensures var r := WithSignal(sigs, signal, n);
            && UniqueKeys(r)
            && IndexOfKey(r, signal).Some?
            && r[IndexOfKey(r, signal).value].1
               == (match IndexOfKey(sigs, signal) case None => [] case Some(i) => sigs[i].1) + [n]
            && |r| == |sigs| + (if IndexOfKey(sigs, signal).None? then 1 else 0)
            && forall j :: 0 <= j < |sigs| && sigs[j].0 != signal ==> r[j] == sigs[j]
  {
    var r := WithSignal(sigs, signal, n);
    match IndexOfKey(sigs, signal)
    case None =>
      IndexOfKeyAt(r, |sigs|);
    case Some(i) =>
      IndexOfKeyAt(r, i);
  }

  /** The same for an interface index: the index is there afterwards,
      with `n` appended to its `signal`, and the other interfaces are as
      they were. */
  lemma WithPortFacts(ifs: Interfaces, index: nat, signal: string, n: int)
    requires UniqueKeys(ifs)
    ensures var r := WithPort(ifs, index, signal, n);
            && UniqueKeys(r)
            && IndexOfKey(r, index).Some?
            && r[IndexOfKey(r, index).value].1
               == WithSignal(match IndexOfKey(ifs, index) case None => [] case Some(i) => ifs[i].1, signal, n)
            && forall j :: 0 <= j < |ifs| && ifs[j].0 != index ==> r[j] == ifs[j]
  {
    var r := WithPort(ifs, index, signal, n);
    match IndexOfKey(ifs, index)
    case None =>
      assert IndexOfKey(r, index) == Some(|ifs|) by {
        IndexOfKeyAt(r, |ifs|);
      }
    case Some(i) =>
      assert IndexOfKey(r, index) == Some(i) by {
        IndexOfKeyAt(r, i);
      }
  }

  /** In an ordered dictionary with distinct keys, a key is found where it
      sits. */
  lemma IndexOfKeyAt<K, V>(kvs: seq<(K, V)>, i: nat)
    requires UniqueKeys(kvs) && i < |kvs|
    ensures IndexOfKey(kvs, kvs[i].0) == Some(i)
  {
  }

  /** `role[0].isnumeric() and role[1] == "_"`, then `role.partition("_")`:
      the interface index and the signal, `None` for a text in another
      form, and `IndexError` where `role[0]` or `role[1]` is out of
      range. */
  function PortRole(role: string): Result<Option<(nat, string)>> {
    if role == [] then Err(IndexError)
    else if !IsDigit(role[0]) then Ok(None)
    else if |role| < 2 then Err(IndexError)
    else if role[1] != '_' then Ok(None)
    else Ok(Some((DigitValue(role[0]), role[2..])))
  }

  /** A port role is recognised exactly in the form `<digit>_<signal>`:
      a digit, an underscore and the rest as the signal, which is read
      back into the same text. */
  lemma PortRoleForm(role: string)
    ensures PortRole(role).Ok? && PortRole(role).value.Some?
            <==> |role| >= 2 && IsDigit(role[0]) && role[1] == '_'
    ensures PortRole(role).Ok? && PortRole(role).value.Some? ==>
              var (index, signal) := PortRole(role).value.value;
              index < 10 && role == [DigitChar(index)] + "_" + signal
    ensures PortRole(role).Err? <==> role == [] || (|role| == 1 && IsDigit(role[0]))
  {
    if |role| >= 2 && IsDigit(role[0]) && role[1] == '_' {
      assert role == [role[0]] + "_" + role[2..];
    }
  }

  /** The port role types, in `PORT_SIGNALS` order. */
  const PortTypes: seq<RoleType> := [RoleType.SPI, RoleType.I2C, RoleType.UART]

  /** `ports`: the interfaces found so far for each port role type. */
  type Ports = map<RoleType, Interfaces>

  /** `ports[t]` for a port role type. */
  function IfacesOf(ports: Ports, t: RoleType): Interfaces {
    if t in ports then ports[t] else []
  }

  /** The role texts of a port value: a list's strings, or `[str(value)]`
      for anything else. */
  function PortTexts(value: Json): Result<seq<string>> {
    match value
    case JList(items) => ListTexts(items)
    case _ => Ok([PyStr(value)])
  }

  /** The strings of a list (an item of another type has no `role[0]`
      text and is a `TypeError`). */
  function ListTexts(items: seq<Json>): (r: Result<seq<string>>)
    ensures r.Ok? ==> |r.value| == |items|
  {
    if items == [] then Ok([])
    else
      var init :- ListTexts(items[..|items| - 1]);
      match items[|items| - 1]
      case JStr(s) => Ok(init + [s])
      case _ => Err(TypeError)
  }

  /** One role text of a port: recorded under its interface when it has
      the `<digit>_<signal>` form. */
  function TextPort(ifs: Interfaces, role: string, n: int): Result<Interfaces> {
    var p :- PortRole(role);
    match p
    case None => Ok(ifs)
    case Some((index, signal)) => Ok(WithPort(ifs, index, signal, n))
  }

  /** The role texts of one port value, in order. */
  function TextsPorts(ifs: Interfaces, roles: seq<string>, n: int): Result<Interfaces> {
    if roles == [] then Ok(ifs)
    else
      var init :- TextsPorts(ifs, roles[..|roles| - 1], n);
      TextPort(init, roles[|roles| - 1], n)
  }

  /** One role of the pin: only port role types contribute. */
  function RolePorts(ports: Ports, t: RoleType, value: Json, n: int): Result<Ports> {
    if t !in ports then Ok(ports)
    else
      var roles :- PortTexts(value);
      var ifs :- TextsPorts(ports[t], roles, n);
      Ok(ports[t := ifs])
  }

  /** The interfaces a pin belongs to, over its roles in order. */
  function PinPorts(ports: Ports, pin: PinDict, n: int): Result<Ports> {
    if pin == [] then Ok(ports)
    else
      var init :- PinPorts(ports, pin[..|pin| - 1], n);
      RolePorts(init, pin[|pin| - 1].0, pin[|pin| - 1].1, n)
  }

  // ---------------------------------------------------------------------
  // Tables

  /** `ROLES_HIDDEN` */
  const Hidden: seq<string> := ["ARD_A", "ARD_D", "IO", "C_NAME"]

  /** `role_type.name in ROLES_HIDDEN` */
  predicate IsHidden(t: RoleType) {
    RoleValue(t) in Hidden
  }

  /** Exactly the Arduino numbers, the I/O direction and the C name are
      left out of the pin comments. */
  lemma HiddenRoles(t: RoleType)
    ensures IsHidden(t) <==> t == ARD_A || t == ARD_D || t == IO || t == C_NAME
  {
    if IsHidden(t) {
      HiddenParse(RoleValue(t));
    }
  }

  /** The hidden names parse to the four hidden role types. */
  lemma HiddenParse(s: string)
    requires s in Hidden
    ensures ParseRoleType(s) == Some(ARD_A) || ParseRoleType(s) == Some(ARD_D) ||
            ParseRoleType(s) == Some(IO) || ParseRoleType(s) == Some(C_NAME)
  {
  }

  /** `MACROS_ROLES`: the port role types, then GPIO, ADC and PWM. */
  predicate IsMacroRole(t: RoleType) {
    t in [RoleType.SPI, RoleType.I2C, RoleType.UART, GPIO, ADC, PWM]
  }

  /** `FEATURE_MAP` */
  function FeatureOf(t: RoleType): Option<PinFeature> {
    match t
    case ARD_D => Some(PIN_GPIO)
    case ARD_A => Some(PIN_ADC)
    case PWM => Some(PIN_PWM)
    case I2C => Some(PIN_I2C)
    case I2S => Some(PIN_I2S)
    case IRQ => Some(PIN_IRQ)
    case JTAG => Some(PIN_JTAG)
    case SPI => Some(PIN_SPI)
    case SWD => Some(PIN_SWD)
    case UART => Some(PIN_UART)
    case _ => None
  }

  /** `SECTION_MAP`, for the port role types. */
  function SectionFor(t: RoleType): SectionType {
    match t
    case I2C => WIRE
    case UART => SERIAL
    case _ => SectionType.SPI
  }

  /** `PORT_SIGNALS`: the signals an interface needs to be complete. */
  function Required(t: RoleType): seq<string> {
    match t
    case SPI => ["SCK", "MISO", "MOSI"]
    case I2C => ["SDA", "SCL"]
    case UART => ["TX"]
    case _ => []
  }

  /** The empty `ports` table that `generate` starts from. */
  const NoPorts: Ports := map[RoleType.SPI := [], RoleType.I2C := [], RoleType.UART := []]

  // ---------------------------------------------------------------------
  // Writer state

  /** `role.format(values, long=..., hidden=...)`, a method of the role
      model that is not part of this model, as a parameter. */
  type LongFormat = (Role, Json, bool, seq<string>) -> seq<string>

  /** What the writer reads: the core's roles and their formatting. */
  datatype Env = Env(coreRoles: map<RoleType, Role>, format: LongFormat)

  /** The writer's fields: the pins and sections of `VariantParts`, the
      pin number to Arduino name map and the static pin names. */
  datatype WState = WState(
    pins: map<string, PinRecord>,
    sections: map<SectionType, seq<Item>>,
    gpioMap: map<int, string>,
    staticPins: map<string, string>)

  /** `add_item` on the writer's state. */
  function AddedItem(st: WState, t: SectionType, key: string, value: int, comment: Option<string>): WState {
    st.(sections := ItemAdded(st.sections, t, Item(key, value, comment)))
  }

  /** `increment_item` on the writer's state. */
  function IncrementedItem(st: WState, t: SectionType, key: string): WState {
    st.(sections := st.sections[t := Incremented(SectionOf(st.sections, t), key)])
  }

  /** A manifest value as an item comment: none when it is falsy. */
  function CommentOf(j: Json): Option<string> {
    if Truthy(j) then Some(PyStr(j)) else None
  }

  /** A C name as an item comment: none when it is empty. */
  function StrComment(s: string): Option<string> {
    if s == [] then None else Some(s)
  }

  /** The four counters `generate` declares before reading the pins. */
  function Headers(st: WState): WState {
    var st1 := AddedItem(st, PINS, "PINS_COUNT", 0, Some("Total GPIO count"));
    var st2 := AddedItem(st1, PINS, "NUM_DIGITAL_PINS", 0, Some("Digital inputs/outputs"));
    var st3 := AddedItem(st2, PINS, "NUM_ANALOG_INPUTS", 0, Some("ADC inputs"));
    AddedItem(st3, PINS, "NUM_ANALOG_OUTPUTS", 0, Some("PWM & DAC outputs"))
  }

  // ---------------------------------------------------------------------
  // One pin

  /** An Arduino pin name (`ARD_D` or `ARD_A`): when truthy, an `ARDUINO`
      item `PIN_<name>` with the pin's number, and a static pin entry. */
  function WithArduino(st: WState, ard: Json, number: int, comment: Option<string>): WState {
    if Truthy(ard) then
      var key := "PIN_" + PyStr(ard);
      AddedItem(st, ARDUINO, key, number, comment).(staticPins := st.staticPins[PyStr(ard) := key])
    else st
  }

  /** Whether a role's texts go into the pin comment: not hidden, and a
      role the core knows. */
  predicate Shown(env: Env, t: RoleType) {
    !IsHidden(t) && t in env.coreRoles
  }

  /** The long texts of the pin's shown roles, in the pin's order. */
  function CommentTexts(env: Env, pin: PinDict): seq<string> {
    if pin == [] then []
    else
      var (t, v) := pin[|pin| - 1];
      CommentTexts(env, pin[..|pin| - 1])
        + (if Shown(env, t) then env.format(env.coreRoles[t], v, true, Hidden) else [])
  }

  /** The short texts of the pin's shown macro roles, in the pin's order. */
  function MacroTexts(env: Env, pin: PinDict): seq<string> {
    if pin == [] then []
    else
      var (t, v) := pin[|pin| - 1];
      MacroTexts(env, pin[..|pin| - 1])
        + (if Shown(env, t) && IsMacroRole(t) then env.format(env.coreRoles[t], v, false, Hidden) else [])
  }

  /** The `MACROS` items for short role texts: `PIN_<text>` with the pin's
      number and C name. */
  function MacroItems(texts: seq<string>, number: int, comment: Option<string>): (r: seq<Item>)
    ensures |r| == |texts|
  {
    seq(|texts|, i requires 0 <= i < |texts| => Item("PIN_" + texts[i], number, comment))
  }

  /** `add_item` for each item in turn (no items, no new section). */
  function ItemsAdded(sections: map<SectionType, seq<Item>>, t: SectionType, items: seq<Item>): map<SectionType, seq<Item>> {
    if items == [] then sections else sections[t := SectionOf(sections, t) + items]
  }

  /** The `PINS` items after the counters a newly added pin increments. */
  function CountedItems(items: seq<Item>, pin: PinDict): seq<Item> {
    var i1 := IncrementedIf(items, "PINS_COUNT", true);
    var i2 := IncrementedIf(i1, "NUM_DIGITAL_PINS", HasRole(pin, ARD_D));
    var i3 := IncrementedIf(i2, "NUM_ANALOG_INPUTS", HasRole(pin, ARD_A));
    IncrementedIf(i3, "NUM_ANALOG_OUTPUTS", HasRole(pin, PWM))
  }

  /** `increment_item(t, key)` when `b` holds. */
  function Bumped(sections: map<SectionType, seq<Item>>, t: SectionType, key: string, b: bool): map<SectionType, seq<Item>> {
    if b then sections[t := Incremented(SectionOf(sections, t), key)] else sections
  }

  /** The sections after the counters a newly added pin increments. */
  function CountedSections(sections: map<SectionType, seq<Item>>, pin: PinDict): map<SectionType, seq<Item>> {
    var s1 := Bumped(sections, PINS, "PINS_COUNT", true);
    var s2 := Bumped(s1, PINS, "NUM_DIGITAL_PINS", HasRole(pin, ARD_D));
    var s3 := Bumped(s2, PINS, "NUM_ANALOG_INPUTS", HasRole(pin, ARD_A));
    Bumped(s3, PINS, "NUM_ANALOG_OUTPUTS", HasRole(pin, PWM))
  }

  /** The counters a newly added pin increments. */
  function Counted(st: WState, pin: PinDict): WState {
    st.(sections := CountedSections(st.sections, pin))
  }

  /** The counters change the `PINS` items as `CountedItems` says, and no
      other section. */
  lemma CountedSectionsIs(sections: map<SectionType, seq<Item>>, pin: PinDict)
    ensures SectionOf(CountedSections(sections, pin), PINS) == CountedItems(SectionOf(sections, PINS), pin)
    ensures forall u :: u != PINS ==> SectionOf(CountedSections(sections, pin), u) == SectionOf(sections, u)
  {
  }

  /** `add_pin_feature` for each of the pin's role types with a feature. */
  function FeaturesAdded(pins: map<string, PinRecord>, name: string, pin: PinDict): map<string, PinRecord> {
    if pin == [] then pins
    else
      var init := FeaturesAdded(pins, name, pin[..|pin| - 1]);
      match FeatureOf(pin[|pin| - 1].0)
      case None => init
      case Some(f) => FeatureAdded(init, name, {f})
  }

  /** The features of the role types among the pin's. */
  function RoleFeatures(pin: PinDict): Features {
    set i | 0 <= i < |pin| && FeatureOf(pin[i].0).Some? :: FeatureOf(pin[i].0).value
  }

  /** A pin with an Arduino name: registered under that name, with its
      macros, comment, counters and features. */
  function PinRegistered(env: Env, st: WState, pin: PinDict, p: PinRef, ard: string): WState {
    var comment := CommentOf(p.cName);
    var st1 := st.(gpioMap := st.gpioMap[p.number := ard]);
    var st2 := st1.(sections := ItemsAdded(st1.sections, MACROS, MacroItems(MacroTexts(env, pin), p.number, comment)));
    var st3 := st2.(pins := PinAdded(st2.pins, ard, PyStr(p.cName), Some(Join(", ", CommentTexts(env, pin)))));
    var st4 := if ard in st2.pins then st3 else Counted(st3, pin);
    st4.(pins := FeaturesAdded(st4.pins, ard, pin))
  }

  /** What `generate` carries from pin to pin. */
  datatype Acc = Acc(st: WState, ports: Ports, maxPin: int)

  /** One round of the pin loop of `generate`. */
  function PinStep(env: Env, acc: Acc, pin: PinDict): Result<Acc> {
    var read :- ReadPin(pin);
    match read
    case None => Ok(acc)
    case Some(p) =>
      var ardD := RoleGet(pin, ARD_D, JNull);
      var ardA := RoleGet(pin, ARD_A, JNull);
      var comment := CommentOf(p.cName);
      var st := WithArduino(WithArduino(acc.st, ardD, p.number, comment), ardA, p.number, comment);
      if !Truthy(ardD) && !Truthy(ardA) then Ok(acc.(st := st))
      else
        var ard := PyStr(if Truthy(ardD) then ardD else ardA);
        var ports :- PinPorts(acc.ports, pin, p.number);
        Ok(Acc(PinRegistered(env, st, pin, p, ard), ports,
               if p.number > acc.maxPin then p.number else acc.maxPin))
  }

  /** `PinStep` as a loop body. */
  function PinStepOf(env: Env): (Acc, PinDict) -> Result<Acc> {
    (acc, pin) => PinStep(env, acc, pin)
  }

  // ---------------------------------------------------------------------
  // Interfaces into the header

  /** All of the port type's required signals are present. */
  predicate Complete(t: RoleType, sigs: Signals) {
    forall s :: s in Required(t) ==> IndexOfKey(sigs, s).Some?
  }

  /** `self.pins[self.gpio_map[n]][0]`: the C name of the pin that the
      number was last registered under. */
  function PinCName(st: WState, n: int): Result<string> {
    if n in st.gpioMap && st.gpioMap[n] in st.pins then Ok(st.pins[st.gpioMap[n]].gpio)
    else Err(KeyError)
  }

  /** `f"{key}_{i}"` */
  function NumberedKey(key: string, i: nat): string {
    key + "_" + IntToString(i)
  }

  /** The items `<key>_<i>` for a signal on several pins, in order. */
  function NumberedItems(st: WState, section: SectionType, key: string, numbers: seq<int>): Result<WState> {
    if numbers == [] then Ok(st)
    else
      var init :- NumberedItems(st, section, key, numbers[..|numbers| - 1]);
      var n := numbers[|numbers| - 1];
      var c :- PinCName(init, n);
      Ok(AddedItem(init, section, NumberedKey(key, |numbers| - 1), n, StrComment(c)))
  }

  /** A signal's pin items: `<key>_<i>` for each of several pins, `<key>`
      alone for one pin. */
  function SignalPins(st: WState, section: SectionType, key: string, numbers: seq<int>): Result<WState> {
    if |numbers| > 1 then NumberedItems(st, section, key, numbers)
    else if numbers == [] then Err(IndexError)
    else
      var c :- PinCName(st, numbers[0]);
      Ok(AddedItem(st, section, key, numbers[0], StrComment(c)))
  }

  /** One signal of a complete interface: `HAS_<NAME><index>` in `PORTS`,
      then the signal's pin items in the port's own section. */
  function SignalEmitted(t: RoleType, index: nat, st: WState, sig: (string, seq<int>)): Result<WState> {
    var name := SectionName(SectionFor(t));
    var st1 := AddedItem(st, PORTS, "HAS_" + name + IntToString(index), 1, None);
    SignalPins(st1, SectionFor(t), "PIN_" + name + IntToString(index) + "_" + sig.0, sig.1)
  }

  function SignalStepOf(t: RoleType, index: nat): (WState, (string, seq<int>)) -> Result<WState> {
    (st, sig) => SignalEmitted(t, index, st, sig)
  }

  /** The counter key of the port type's complete interfaces. */
  function CountKey(t: RoleType): string {
    SectionName(SectionFor(t)) + "_INTERFACES_COUNT"
  }

  /** One interface: skipped when incomplete, otherwise counted and its
      signals written. */
  function InterfaceEmitted(t: RoleType, st: WState, iface: (nat, Signals)): Result<WState> {
    if !Complete(t, iface.1) then Ok(st)
    else Fold(SignalStepOf(t, iface.0), IncrementedItem(st, PORTS, CountKey(t)), iface.1)
  }

  function InterfaceStepOf(t: RoleType): (WState, (nat, Signals)) -> Result<WState> {
    (st, iface) => InterfaceEmitted(t, st, iface)
  }

  /** All interfaces of one port type. */
  function PortEmitted(ports: Ports, st: WState, t: RoleType): Result<WState> {
    Fold(InterfaceStepOf(t), st, IfacesOf(ports, t))
  }

  function PortStepOf(ports: Ports): (WState, RoleType) -> Result<WState> {
    (st, t) => PortEmitted(ports, st, t)
  }

  /** `generate` on a state: nothing without a pinout or an Arduino core;
      otherwise the counters, every pin, the complete interfaces and the
      highest pin number. */
  function GenerateOf(env: Env, st: WState, pinout: Option<seq<PinDict>>, hasArduinoCore: bool): Result<WState> {
    if pinout.None? || pinout.value == [] || !hasArduinoCore then Ok(st)
    else
      var acc :- Fold(PinStepOf(env), Acc(Headers(st), NoPorts, 0), pinout.value);
      Finished(acc)
  }

  /** After the pin loop: the interfaces, then the highest pin number. */
  function Finished(acc: Acc): Result<WState> {
    var st :- Fold(PortStepOf(acc.ports), acc.st, PortTypes);
    Ok(AddedItem(st, PINS, "PINS_GPIO_MAX", acc.maxPin, Some("Last usable GPIO number")))
  }

  // ---------------------------------------------------------------------
  // What one pin does

  /** `increment_item` when `b` holds. */
  function IncrementedIf(items: seq<Item>, key: string, b: bool): seq<Item> {
    if b then Incremented(items, key) else items
  }

  /** A conditional increment adds one to its key's count when taken and
      leaves another key's count alone. */
  lemma IncrementedIfCounts(items: seq<Item>, key: string, b: bool, k: string)
    ensures ValueOf(IncrementedIf(items, key, b), key) == ValueOf(items, key) + (if b then 1 else 0)
    ensures k != key ==> ValueOf(IncrementedIf(items, key, b), k) == ValueOf(items, k)
  {
    IncrementedCounts(items, key);
  }

  /** A chain of four increments of distinct keys, the first always taken. */
  lemma ChainCounts(items: seq<Item>, k0: string, k1: string, k2: string, k3: string, b1: bool, b2: bool, b3: bool)
    requires k0 != k1 && k0 != k2 && k0 != k3 && k1 != k2 && k1 != k3 && k2 != k3
    ensures var r := IncrementedIf(IncrementedIf(IncrementedIf(IncrementedIf(items, k0, true), k1, b1), k2, b2), k3, b3);
            && ValueOf(r, k0) == ValueOf(items, k0) + 1
            && ValueOf(r, k1) == ValueOf(items, k1) + (if b1 then 1 else 0)
            && ValueOf(r, k2) == ValueOf(items, k2) + (if b2 then 1 else 0)
            && ValueOf(r, k3) == ValueOf(items, k3) + (if b3 then 1 else 0)
  {
    var i1 := IncrementedIf(items, k0, true);
    var i2 := IncrementedIf(i1, k1, b1);
    var i3 := IncrementedIf(i2, k2, b2);
    IncrementedIfCounts(items, k0, true, k1);
    IncrementedIfCounts(items, k0, true, k2);
    IncrementedIfCounts(items, k0, true, k3);
    IncrementedIfCounts(i1, k1, b1, k0);
    IncrementedIfCounts(i1, k1, b1, k2);
    IncrementedIfCounts(i1, k1, b1, k3);
    IncrementedIfCounts(i2, k2, b2, k0);
    IncrementedIfCounts(i2, k2, b2, k1);
    IncrementedIfCounts(i2, k2, b2, k3);
    IncrementedIfCounts(i3, k3, b3, k0);
    IncrementedIfCounts(i3, k3, b3, k1);
    IncrementedIfCounts(i3, k3, b3, k2);
  }

  /** The counters a new pin increments: `PINS_COUNT` always, and
      `NUM_DIGITAL_PINS`, `NUM_ANALOG_INPUTS` and `NUM_ANALOG_OUTPUTS` by
      one each when the pin has an `ARD_D`, `ARD_A` or `PWM` role. */
  lemma CountedValues(items: seq<Item>, pin: PinDict)
    ensures var r := CountedItems(items, pin);
            && ValueOf(r, "PINS_COUNT") == ValueOf(items, "PINS_COUNT") + 1
            && ValueOf(r, "NUM_DIGITAL_PINS") == ValueOf(items, "NUM_DIGITAL_PINS") + (if HasRole(pin, ARD_D) then 1 else 0)
            && ValueOf(r, "NUM_ANALOG_INPUTS") == ValueOf(items, "NUM_ANALOG_INPUTS") + (if HasRole(pin, ARD_A) then 1 else 0)
            && ValueOf(r, "NUM_ANALOG_OUTPUTS") == ValueOf(items, "NUM_ANALOG_OUTPUTS") + (if HasRole(pin, PWM) then 1 else 0)
  {
    var k0, k1, k2, k3 := "PINS_COUNT", "NUM_DIGITAL_PINS", "NUM_ANALOG_INPUTS", "NUM_ANALOG_OUTPUTS";
    assert |k0| == 10 && |k1| == 16 && |k2| == 17 && |k3| == 18;
    ChainCounts(items, k0, k1, k2, k3, HasRole(pin, ARD_D), HasRole(pin, ARD_A), HasRole(pin, PWM));
  }

  /** Features `g` added to `f` the way `add_pin_feature` adds them. */
  function FeaturesWith(f: Features, g: Features): Features {
    if g == {} then f else WithFeature(f, g)
  }

  /** Only the named record's features change: they lose `PIN_NONE` and
      gain the features of the pin's role types, if it has any. */
  lemma {:induction false} FeaturesAddedFacts(pins: map<string, PinRecord>, name: string, pin: PinDict)
    ensures var r := FeaturesAdded(pins, name, pin);
            && r.Keys == pins.Keys
            && (forall k :: k in pins && k != name ==> r[k] == pins[k])
            && (name in pins ==> r[name] == pins[name].(features := FeaturesWith(pins[name].features, RoleFeatures(pin))))
    decreases |pin|
  {
    if pin != [] {
      var init := pin[..|pin| - 1];
      FeaturesAddedFacts(pins, name, init);
      RoleFeaturesSnoc(init, pin[|pin| - 1]);
      assert init + [pin[|pin| - 1]] == pin;
    }
  }

  /** The features of one more role type. */
  lemma RoleFeaturesSnoc(pin: PinDict, r: (RoleType, Json))
    ensures RoleFeatures(pin + [r])
         == RoleFeatures(pin) + (if FeatureOf(r.0).Some? then {FeatureOf(r.0).value} else {})
    ensures PIN_NONE !in RoleFeatures(pin)
  {
    var p := pin + [r];
    assert forall i :: 0 <= i < |pin| ==> p[i] == pin[i];
    assert p[|pin|] == r;
  }

  /** Registering a pin maps its number to the Arduino name, adds the
      record (with the C name, the joined long role texts and no roles)
      unless one is there already, and merges in its role types'
      features; every other record and the static pins stay. */
  lemma PinRegisteredPins(env: Env, st: WState, pin: PinDict, p: PinRef, ard: string)
    ensures var r := PinRegistered(env, st, pin, p, ard);
            && r.gpioMap == st.gpioMap[p.number := ard]
            && r.staticPins == st.staticPins
            && r.pins.Keys == st.pins.Keys + {ard}
            && (forall k :: k in st.pins && k != ard ==> r.pins[k] == st.pins[k])
            && (ard in st.pins ==>
                  r.pins[ard] == st.pins[ard].(features := FeaturesWith(st.pins[ard].features, RoleFeatures(pin))))
            && (ard !in st.pins ==>
                  r.pins[ard] == PinRecord(PyStr(p.cName), FeaturesWith({PIN_NONE}, RoleFeatures(pin)),
                                           Some(Join(", ", CommentTexts(env, pin))), {}))
  {
    var st1 := st.(gpioMap := st.gpioMap[p.number := ard]);
    var st2 := st1.(sections := ItemsAdded(st1.sections, MACROS, MacroItems(MacroTexts(env, pin), p.number, CommentOf(p.cName))));
    var st3 := st2.(pins := PinAdded(st2.pins, ard, PyStr(p.cName), Some(Join(", ", CommentTexts(env, pin)))));
    var st4 := if ard in st2.pins then st3 else Counted(st3, pin);
    FeaturesAddedFacts(st4.pins, ard, pin);
  }

  /** Registering a pin appends its macro items to `MACROS`; the counters
      in `PINS` move only for a name not seen before. */
  lemma PinRegisteredSections(env: Env, st: WState, pin: PinDict, p: PinRef, ard: string)
    ensures var r := PinRegistered(env, st, pin, p, ard);
            && SectionOf(r.sections, MACROS)
               == SectionOf(st.sections, MACROS) + MacroItems(MacroTexts(env, pin), p.number, CommentOf(p.cName))
            && (ard in st.pins ==> SectionOf(r.sections, PINS) == SectionOf(st.sections, PINS))
            && (ard !in st.pins ==>
                  SectionOf(r.sections, PINS) == CountedItems(SectionOf(st.sections, PINS), pin))
            && forall u :: u != MACROS && u != PINS ==> SectionOf(r.sections, u) == SectionOf(st.sections, u)
  {
    var items := MacroItems(MacroTexts(env, pin), p.number, CommentOf(p.cName));
    var m2 := ItemsAdded(st.sections, MACROS, items);
    assert SectionOf(m2, MACROS) == SectionOf(st.sections, MACROS) + items by {
      if items == [] {
        assert SectionOf(st.sections, MACROS) + items == SectionOf(st.sections, MACROS);
      }
    }
    assert forall u :: u != MACROS ==> SectionOf(m2, u) == SectionOf(st.sections, u);
    CountedSectionsIs(m2, pin);
  }

  // ---------------------------------------------------------------------
  // What the interfaces write

  /** The pin number is registered under a name that has a record. */
  predicate Resolves(st: WState, n: int) {
    n in st.gpioMap && st.gpioMap[n] in st.pins
  }

  /** The C name a number resolves to (empty when it does not). */
  function CNameOr(st: WState, n: int): string {
    match PinCName(st, n)
    case Ok(c) => c
    case Err(_) => ""
  }

  /** The items `<key>_<i>` of a signal on several pins. */
  function NumberedList(st: WState, key: string, numbers: seq<int>): (r: seq<Item>)
    ensures |r| == |numbers|
  {
    seq(|numbers|, i requires 0 <= i < |numbers| =>
      Item(NumberedKey(key, i), numbers[i], StrComment(CNameOr(st, numbers[i]))))
  }

  /** The items of a signal: numbered for several pins, the bare key for
      one. */
  function SignalList(st: WState, key: string, numbers: seq<int>): (r: seq<Item>)
    ensures |r| == |numbers|
  {
    if |numbers| == 1 then [Item(key, numbers[0], StrComment(CNameOr(st, numbers[0])))]
    else NumberedList(st, key, numbers)
  }

  /** The lookups stay the same: only the sections differ. */
  predicate Keeps(a: WState, b: WState) {
    a.pins == b.pins && a.gpioMap == b.gpioMap && a.staticPins == b.staticPins
  }

  /** For pin numbers that resolve, the numbered items are written in
      order, each with its index, its number and its pin's C name. */
  lemma {:induction false} NumberedItemsIs(st: WState, section: SectionType, key: string, numbers: seq<int>)
    requires forall k :: 0 <= k < |numbers| ==> Resolves(st, numbers[k])
    ensures NumberedItems(st, section, key, numbers)
         == Ok(st.(sections := ItemsAdded(st.sections, section, NumberedList(st, key, numbers))))
    decreases |numbers|
  {
    if numbers != [] {
      var init := numbers[..|numbers| - 1];
      NumberedItemsIs(st, section, key, init);
      var st1 := st.(sections := ItemsAdded(st.sections, section, NumberedList(st, key, init)));
      var n := numbers[|numbers| - 1];
      var item := Item(NumberedKey(key, |numbers| - 1), n, StrComment(CNameOr(st, n)));
      assert PinCName(st1, n) == Ok(CNameOr(st, n));
      NumberedListSnoc(st, key, numbers);
      ItemsAddedSnoc(st.sections, section, NumberedList(st, key, init), item);
    }
  }

  /** One more pin, one more numbered item. */
  lemma NumberedListSnoc(st: WState, key: string, numbers: seq<int>)
    requires numbers != []
    ensures var n := numbers[|numbers| - 1];
            NumberedList(st, key, numbers)
            == NumberedList(st, key, numbers[..|numbers| - 1]) + [Item(NumberedKey(key, |numbers| - 1), n, StrComment(CNameOr(st, n)))]
  {
  }

  /** Adding items and then one more is adding them all. */
  lemma ItemsAddedSnoc(sections: map<SectionType, seq<Item>>, t: SectionType, items: seq<Item>, item: Item)
    ensures ItemAdded(ItemsAdded(sections, t, items), t, item) == ItemsAdded(sections, t, items + [item])
  {
    if items == [] {
      assert items + [item] == [item];
    } else {
      AppendAssoc(SectionOf(sections, t), items, [item]);
    }
  }

  /** A signal's pins, all resolving, give exactly its `SignalList`; a
      signal without pins is an `IndexError`. */
  lemma SignalPinsIs(st: WState, section: SectionType, key: string, numbers: seq<int>)
    requires forall k :: 0 <= k < |numbers| ==> Resolves(st, numbers[k])
    ensures numbers == [] ==> SignalPins(st, section, key, numbers) == Err(IndexError)
    ensures numbers != [] ==>
              SignalPins(st, section, key, numbers)
              == Ok(st.(sections := ItemsAdded(st.sections, section, SignalList(st, key, numbers))))
  {
    if |numbers| > 1 {
      NumberedItemsIs(st, section, key, numbers);
    } else if |numbers| == 1 {
      assert Resolves(st, numbers[0]);
    }
  }

  /** Every signal has pins, and they all resolve. */
  predicate SigsResolve(st: WState, sigs: Signals) {
    forall j :: 0 <= j < |sigs| ==>
      sigs[j].1 != [] && forall k :: 0 <= k < |sigs[j].1| ==> Resolves(st, sigs[j].1[k])
  }

  predicate IfacesResolve(st: WState, ifs: Interfaces) {
    forall i :: 0 <= i < |ifs| ==> SigsResolve(st, ifs[i].1)
  }

  predicate PortsResolve(st: WState, ports: Ports) {
    forall t :: t in ports ==> IfacesResolve(st, ports[t])
  }

  /** One signal of a complete interface adds `HAS_<NAME><index>` to
      `PORTS` and then its pin items to the port's section. */
  lemma SignalEmittedIs(t: RoleType, index: nat, st: WState, sig: (string, seq<int>))
    requires sig.1 != [] && forall k :: 0 <= k < |sig.1| ==> Resolves(st, sig.1[k])
    ensures var name := SectionName(SectionFor(t));
            var st1 := AddedItem(st, PORTS, "HAS_" + name + IntToString(index), 1, None);
            SignalEmitted(t, index, st, sig)
            == Ok(st1.(sections := ItemsAdded(st1.sections, SectionFor(t),
                                            SignalList(st, "PIN_" + name + IntToString(index) + "_" + sig.0, sig.1))))
  {
    var name := SectionName(SectionFor(t));
    var st1 := AddedItem(st, PORTS, "HAS_" + name + IntToString(index), 1, None);
    var key := "PIN_" + name + IntToString(index) + "_" + sig.0;
    SignalPinsIs(st1, SectionFor(t), key, sig.1);
    assert SignalList(st1, key, sig.1) == SignalList(st, key, sig.1) by {
      assert forall n :: CNameOr(st1, n) == CNameOr(st, n);
    }
  }

  /** The signals of an interface whose pins resolve are written without
      an error, changing only the sections. */
  lemma SignalsEmittedOk(t: RoleType, index: nat, st: WState, sigs: Signals)
    requires SigsResolve(st, sigs)
    ensures Fold(SignalStepOf(t, index), st, sigs).Ok?
    ensures Keeps(st, Fold(SignalStepOf(t, index), st, sigs).value)
  {
    var inv := (b: WState) => Keeps(st, b);
    forall b, x | inv(b) && x in sigs
      ensures SignalStepOf(t, index)(b, x).Ok? && inv(SignalStepOf(t, index)(b, x).value)
    {
      var j :| 0 <= j < |sigs| && sigs[j] == x;
      assert forall k :: 0 <= k < |x.1| ==> Resolves(b, x.1[k]);
      SignalEmittedIs(t, index, b, x);
    }
    FoldPreserves(SignalStepOf(t, index), inv, st, sigs);
  }

  /** Interfaces whose pins resolve are written without an error,
      changing only the sections. */
  lemma PortEmittedOk(ports: Ports, st: WState, t: RoleType)
    requires IfacesResolve(st, IfacesOf(ports, t))
    ensures PortEmitted(ports, st, t).Ok? && Keeps(st, PortEmitted(ports, st, t).value)
  {
    var ifs := IfacesOf(ports, t);
    var inv := (b: WState) => Keeps(st, b);
    forall b, x | inv(b) && x in ifs
      ensures InterfaceStepOf(t)(b, x).Ok? && inv(InterfaceStepOf(t)(b, x).value)
    {
      var i :| 0 <= i < |ifs| && ifs[i] == x;
      if Complete(t, x.1) {
        var b1 := IncrementedItem(b, PORTS, CountKey(t));
        assert SigsResolve(b1, x.1);
        SignalsEmittedOk(t, x.0, b1, x.1);
      }
    }
    FoldPreserves(InterfaceStepOf(t), inv, st, ifs);
  }

  /** All ports whose pins resolve are written without an error, changing
      only the sections. */
  lemma EmissionOk(ports: Ports, st: WState)
    requires PortsResolve(st, ports)
    ensures Fold(PortStepOf(ports), st, PortTypes).Ok?
    ensures Keeps(st, Fold(PortStepOf(ports), st, PortTypes).value)
  {
    var inv := (b: WState) => Keeps(st, b);
    forall b, t | inv(b) && t in PortTypes
      ensures PortStepOf(ports)(b, t).Ok? && inv(PortStepOf(ports)(b, t).value)
    {
      assert IfacesResolve(b, IfacesOf(ports, t));
      PortEmittedOk(ports, b, t);
    }
    FoldPreserves(PortStepOf(ports), inv, st, PortTypes);
  }

  // ---------------------------------------------------------------------
  // What the pin loop keeps

  /** Every number that resolves in `a` resolves in `b`. */
  ghost predicate Grows(a: WState, b: WState) {
    forall n :: Resolves(a, n) ==> Resolves(b, n)
  }

  lemma PortsResolveGrow(a: WState, b: WState, ports: Ports)
    requires Grows(a, b) && PortsResolve(a, ports)
    ensures PortsResolve(b, ports)
  {
    forall t, i, j, k | t in ports && 0 <= i < |ports[t]| && 0 <= j < |ports[t][i].1| && 0 <= k < |ports[t][i].1[j].1|
      ensures Resolves(b, ports[t][i].1[j].1[k])
    {
      assert IfacesResolve(a, ports[t]);
      assert SigsResolve(a, ports[t][i].1);
    }
  }

  /** Recording a resolving pin under a signal keeps every signal's pins
      resolving. */
  lemma WithSignalResolves(st: WState, sigs: Signals, signal: string, n: int)
    requires SigsResolve(st, sigs) && Resolves(st, n)
    ensures SigsResolve(st, WithSignal(sigs, signal, n))
  {
  }

  lemma WithPortResolves(st: WState, ifs: Interfaces, index: nat, signal: string, n: int)
    requires IfacesResolve(st, ifs) && Resolves(st, n)
    ensures IfacesResolve(st, WithPort(ifs, index, signal, n))
  {
    match IndexOfKey(ifs, index)
    case None =>
    case Some(i) =>
      WithSignalResolves(st, ifs[i].1, signal, n);
  }

  lemma {:induction false} TextsPortsResolve(st: WState, ifs: Interfaces, roles: seq<string>, n: int)
    requires IfacesResolve(st, ifs) && Resolves(st, n)
    ensures TextsPorts(ifs, roles, n).Ok? ==> IfacesResolve(st, TextsPorts(ifs, roles, n).value)
    decreases |roles|
  {
    if roles != [] {
      TextsPortsResolve(st, ifs, roles[..|roles| - 1], n);
      var init := TextsPorts(ifs, roles[..|roles| - 1], n);
      if init.Ok? {
        match PortRole(roles[|roles| - 1])
        case Err(_) =>
        case Ok(None) =>
        case Ok(Some((index, signal))) =>
          WithPortResolves(st, init.value, index, signal, n);
      }
    }
  }

  /** The interfaces a resolving pin joins keep every listed pin
      resolving. */
  lemma {:induction false} PinPortsResolve(st: WState, ports: Ports, pin: PinDict, n: int)
    requires PortsResolve(st, ports) && Resolves(st, n)
    ensures PinPorts(ports, pin, n).Ok? ==> PortsResolve(st, PinPorts(ports, pin, n).value)
    decreases |pin|
  {
    if pin != [] {
      PinPortsResolve(st, ports, pin[..|pin| - 1], n);
      var init := PinPorts(ports, pin[..|pin| - 1], n);
      var (t, v) := pin[|pin| - 1];
      if init.Ok? && t in init.value {
        var roles := PortTexts(v);
        if roles.Ok? {
          TextsPortsResolve(st, init.value[t], roles.value, n);
        }
      }
    }
  }

  /** Arduino items change neither the pins nor the number map. */
  lemma WithArduinoKeeps(st: WState, ard: Json, number: int, comment: Option<string>)
    ensures WithArduino(st, ard, number, comment).pins == st.pins
    ensures WithArduino(st, ard, number, comment).gpioMap == st.gpioMap
  {
  }

  /** `max_pin_number` is 0 or a mapped number, and no number mapped
      since `base` is above it. */
  predicate MaxOk(acc: Acc, base: map<int, string>) {
    && acc.maxPin >= 0
    && (forall n :: n in acc.st.gpioMap && n !in base ==> n <= acc.maxPin)
    && (acc.maxPin == 0 || acc.maxPin in acc.st.gpioMap)
  }

  /** What the pin loop keeps: the interfaces' pins resolve, and the
      highest pin number is tracked. */
  predicate LoopOk(acc: Acc, base: map<int, string>) {
    PortsResolve(acc.st, acc.ports) && MaxOk(acc, base)
  }

  lemma PinStepKeeps(env: Env, acc: Acc, pin: PinDict, base: map<int, string>)
    requires LoopOk(acc, base)
    ensures PinStep(env, acc, pin).Ok? ==> LoopOk(PinStep(env, acc, pin).value, base)
  {
    var read := ReadPin(pin);
    if read.Ok? && read.value.Some? {
      var p := read.value.value;
      var ardD := RoleGet(pin, ARD_D, JNull);
      var ardA := RoleGet(pin, ARD_A, JNull);
      var comment := CommentOf(p.cName);
      var st0 := WithArduino(acc.st, ardD, p.number, comment);
      var st := WithArduino(st0, ardA, p.number, comment);
      WithArduinoKeeps(acc.st, ardD, p.number, comment);
      WithArduinoKeeps(st0, ardA, p.number, comment);
      if Truthy(ardD) || Truthy(ardA) {
        var ard := PyStr(if Truthy(ardD) then ardD else ardA);
        RegisteredKeeps(env, acc, st, pin, p, ard, base);
      }
    }
  }

  /** A registered pin keeps the loop's invariant. */
  lemma RegisteredKeeps(env: Env, acc: Acc, st: WState, pin: PinDict, p: PinRef, ard: string, base: map<int, string>)
    requires LoopOk(acc, base) && st.pins == acc.st.pins && st.gpioMap == acc.st.gpioMap
    ensures PinPorts(acc.ports, pin, p.number).Ok? ==>
              LoopOk(Acc(PinRegistered(env, st, pin, p, ard), PinPorts(acc.ports, pin, p.number).value,
                         if p.number > acc.maxPin then p.number else acc.maxPin), base)
  {
    var r := PinRegistered(env, st, pin, p, ard);
    PinRegisteredPins(env, st, pin, p, ard);
    assert Grows(acc.st, r);
    PortsResolveGrow(acc.st, r, acc.ports);
    assert Resolves(r, p.number);
    PinPortsResolve(r, acc.ports, pin, p.number);
  }

  /** `generate` fails exactly when reading a pin or its port roles
      fails: writing the interfaces never raises, since every listed pin
      number was registered under a name with a record. */
  lemma GenerateErrors(env: Env, st: WState, pinout: Option<seq<PinDict>>, hasArduinoCore: bool)
    ensures GenerateOf(env, st, pinout, hasArduinoCore).Err?
        <==> pinout.Some? && pinout.value != [] && hasArduinoCore
             && Fold(PinStepOf(env), Acc(Headers(st), NoPorts, 0), pinout.value).Err?
  {
    if pinout.Some? && pinout.value != [] && hasArduinoCore {
      var a0 := Acc(Headers(st), NoPorts, 0);
      assert LoopOk(a0, a0.st.gpioMap);
      LoopFinishes(env, a0, pinout.value);
    }
  }

  /** From a start whose interfaces resolve, a pin loop that succeeds is
      followed by interfaces that are written without an error. */
  lemma LoopFinishes(env: Env, a0: Acc, pins: seq<PinDict>)
    requires LoopOk(a0, a0.st.gpioMap)
    ensures Fold(PinStepOf(env), a0, pins).Ok? ==> Finished(Fold(PinStepOf(env), a0, pins).value).Ok?
  {
    LoopFold(env, a0, pins, a0.st.gpioMap);
    var acc := Fold(PinStepOf(env), a0, pins);
    if acc.Ok? {
      EmissionOk(acc.value.ports, acc.value.st);
    }
  }

  /** The pin loop keeps `LoopOk` from a start that has it. */
  lemma LoopFold(env: Env, a: Acc, pins: seq<PinDict>, base: map<int, string>)
    requires LoopOk(a, base)
    ensures Fold(PinStepOf(env), a, pins).Ok? ==> LoopOk(Fold(PinStepOf(env), a, pins).value, base)
  {
    var inv := (b: Acc) => LoopOk(b, base);
    forall b, x | inv(b) && x in pins && PinStepOf(env)(b, x).Ok?
      ensures inv(PinStepOf(env)(b, x).value)
    {
      PinStepKeeps(env, b, x, base);
    }
    FoldInvariant(PinStepOf(env), inv, a, pins);
  }

  /** Starting without mapped numbers, `PINS_GPIO_MAX` comes last in
      `PINS` and holds the highest mapped pin number, or 0 without any. */
  lemma GenerateMax(env: Env, st: WState, pinout: seq<PinDict>)
    requires st.gpioMap == map[]
    requires GenerateOf(env, st, Some(pinout), true).Ok? && pinout != []
    ensures var r := GenerateOf(env, st, Some(pinout), true).value;
            var items := SectionOf(r.sections, PINS);
            && items != [] && items[|items| - 1].key == "PINS_GPIO_MAX"
            && var m := items[|items| - 1].value;
            && m >= 0
            && (forall n :: n in r.gpioMap ==> n <= m)
            && (m == 0 || m in r.gpioMap)
  {
    var a0 := Acc(Headers(st), NoPorts, 0);
    LoopFold(env, a0, pinout, map[]);
    var acc := Fold(PinStepOf(env), a0, pinout).value;
    EmissionOk(acc.ports, acc.st);
  }

  // ---------------------------------------------------------------------
  // Loops over port roles

  /** The interfaces of one port value's role texts, as `generate`'s inner
      loop records them. */
  method InterfacesOf(ifs: Interfaces, roles: seq<string>, n: int) returns (r: Result<Interfaces>)
    ensures r == TextsPorts(ifs, roles, n)
  {
    var cur := ifs;
    for i := 0 to |roles|
      invariant TextsPorts(ifs, roles[..i], n) == Ok(cur)
    {
      assert roles[..i + 1][..i] == roles[..i];
      var role := roles[i];
      var p := PortRole(role);
      if p.Err? {
        TextsPortsFails(ifs, roles, n, i + 1);
        return Err(p.error);
      }
      if p.value.Some? {
        var (index, signal) := p.value.value;
        cur := WithPort(cur, index, signal, n);
      }
    }
    assert roles[..|roles|] == roles;
    return Ok(cur);
  }

  /** A role text that fails ends the inner loop with an error. */
  lemma {:induction false} TextsPortsFails(ifs: Interfaces, roles: seq<string>, n: int, i: nat)
    requires i <= |roles| && TextsPorts(ifs, roles[..i], n).Err?
    ensures TextsPorts(ifs, roles, n) == TextsPorts(ifs, roles[..i], n)
    decreases |roles| - i
  {
    if i < |roles| {
      assert roles[..i + 1][..i] == roles[..i];
      TextsPortsFails(ifs, roles, n, i + 1);
    } else {
      assert roles[..i] == roles;
    }
  }

  /** The interfaces a pin joins, over its roles in order. */
  method PortsOf(ports: Ports, pin: PinDict, n: int) returns (r: Result<Ports>)
    ensures r == PinPorts(ports, pin, n)
  {
    var cur := ports;
    for i := 0 to |pin|
      invariant PinPorts(ports, pin[..i], n) == Ok(cur)
    {
      assert pin[..i + 1][..i] == pin[..i];
      var (t, value) := pin[i];
      if t in cur {
        var roles := PortTexts(value);
        if roles.Err? {
          PinPortsFails(ports, pin, n, i + 1);
          return Err(roles.error);
        }
        var ifs := InterfacesOf(cur[t], roles.value, n);
        if ifs.Err? {
          PinPortsFails(ports, pin, n, i + 1);
          return Err(ifs.error);
        }
        cur := cur[t := ifs.value];
      }
    }
    assert pin[..|pin|] == pin;
    return Ok(cur);
  }

  /** A role that fails ends the pin's loop with an error. */
  lemma {:induction false} PinPortsFails(ports: Ports, pin: PinDict, n: int, i: nat)
    requires i <= |pin| && PinPorts(ports, pin[..i], n).Err?
    ensures PinPorts(ports, pin, n) == PinPorts(ports, pin[..i], n)
    decreases |pin| - i
  {
    if i < |pin| {
      assert pin[..i + 1][..i] == pin[..i];
      PinPortsFails(ports, pin, n, i + 1);
    } else {
      assert pin[..i] == pin;
    }
  }

  // ---------------------------------------------------------------------
  // The writer object

  /** `VariantWriter` over its `VariantParts` (held as `parts`), with its
      own pin number map and static pin names. */
  class Writer {
    const env: Env
    const parts: Parts
    var gpioMap: map<int, string>
    var staticPins: map<string, string>

    /** The writer's fields as one value. */
    ghost function State(): WState
      reads this, parts
    {
      WState(parts.pins, parts.sections, gpioMap, staticPins)
    }

    constructor (env: Env)
      ensures this.env == env && fresh(parts)
      ensures State() == WState(map[], map[], map[], map[])
    {
      this.env := env;
      parts := new Parts();
      gpioMap := map[];
      staticPins := map[];
    }

    /** An Arduino pin name's item and static pin entry. */
    method AddArduino(ard: Json, number: int, comment: Option<string>)
      modifies this, parts
      ensures State() == WithArduino(old(State()), ard, number, comment)
    {
      if Truthy(ard) {
        var key := "PIN_" + PyStr(ard);
        parts.AddItem(ARDUINO, key, number, comment);
        staticPins := staticPins[PyStr(ard) := key];
      }
    }

    /** `add_item(MACROS, f"PIN_{text}", ...)` for each short role text. */
    method AddMacros(texts: seq<string>, number: int, comment: Option<string>)
      modifies parts
      ensures parts.sections == ItemsAdded(old(parts.sections), MACROS, MacroItems(texts, number, comment))
      ensures parts.pins == old(parts.pins)
    {
      for i := 0 to |texts|
        invariant parts.sections == ItemsAdded(old(parts.sections), MACROS, MacroItems(texts[..i], number, comment))
        invariant parts.pins == old(parts.pins)
      {
        ghost var before := parts.sections;
        parts.AddItem(MACROS, "PIN_" + texts[i], number, comment);
        ItemsAddedSnoc(old(parts.sections), MACROS, MacroItems(texts[..i], number, comment), Item("PIN_" + texts[i], number, comment));
        assert MacroItems(texts[..i + 1], number, comment)
            == MacroItems(texts[..i], number, comment) + [Item("PIN_" + texts[i], number, comment)];
      }
      assert texts[..|texts|] == texts;
    }

    /** The pin comment's long role texts, adding the macro items on the
        way. */
    method RoleComments(pin: PinDict, number: int, comment: Option<string>) returns (texts: seq<string>)
      modifies parts
      ensures texts == CommentTexts(env, pin)
      ensures parts.sections == ItemsAdded(old(parts.sections), MACROS, MacroItems(MacroTexts(env, pin), number, comment))
      ensures parts.pins == old(parts.pins)
    {
      texts := [];
      for i := 0 to |pin|
        invariant texts == CommentTexts(env, pin[..i])
        invariant parts.sections == ItemsAdded(old(parts.sections), MACROS, MacroItems(MacroTexts(env, pin[..i]), number, comment))
        invariant parts.pins == old(parts.pins)
      {
        TextsSnoc(env, pin, i);
        var (t, values) := pin[i];
        ghost var macros := MacroTexts(env, pin[..i]);
        if Shown(env, t) {
          var role := env.coreRoles[t];
          texts := texts + env.format(role, values, true, Hidden);
          if IsMacroRole(t) {
            var short := env.format(role, values, false, Hidden);
            AddMacros(short, number, comment);
            ItemsAddedAppend(old(parts.sections), MACROS, MacroItems(macros, number, comment), MacroItems(short, number, comment));
            MacroItemsAppend(macros, short, number, comment);
            assert MacroTexts(env, pin[..i + 1]) == macros + short;
          } else {
            assert MacroTexts(env, pin[..i + 1]) == macros + [];
            assert macros + [] == macros;
          }
        } else {
          assert MacroTexts(env, pin[..i + 1]) == macros + [];
          assert macros + [] == macros;
        }
      }
      assert pin[..|pin|] == pin;
    }

    /** `add_pin_feature` for each of the pin's role types with a feature. */
    method AddFeatures(name: string, pin: PinDict)
      modifies parts
      ensures parts.pins == FeaturesAdded(old(parts.pins), name, pin)
      ensures parts.sections == old(parts.sections)
    {
      for i := 0 to |pin|
        invariant parts.pins == FeaturesAdded(old(parts.pins), name, pin[..i])
        invariant parts.sections == old(parts.sections)
      {
        assert pin[..i + 1][..i] == pin[..i];
        var f := FeatureOf(pin[i].0);
        if f.Some? {
          parts.AddPinFeature(name, {f.value});
        }
      }
      assert pin[..|pin|] == pin;
    }

    /** A pin with an Arduino name: its number, macros, record, counters
        and features. */
    method RegisterPin(pin: PinDict, p: PinRef, ard: string)
      modifies this, parts
      ensures State() == PinRegistered(env, old(State()), pin, p, ard)
    {
      ghost var st := State();
      ghost var st1 := st.(gpioMap := st.gpioMap[p.number := ard]);
      gpioMap := gpioMap[p.number := ard];
      assert State() == st1;
      var texts := RoleComments(pin, p.number, CommentOf(p.cName));
      ghost var st2 := st1.(sections := ItemsAdded(st1.sections, MACROS, MacroItems(MacroTexts(env, pin), p.number, CommentOf(p.cName))));
      assert State() == st2;
      var added := parts.AddPin(ard, PyStr(p.cName), Some(Join(", ", texts)));
      ghost var st3 := st2.(pins := PinAdded(st2.pins, ard, PyStr(p.cName), Some(Join(", ", CommentTexts(env, pin)))));
      assert State() == st3;
      if added {
        AddCounters(pin);
      }
      ghost var st4 := if ard in st2.pins then st3 else Counted(st3, pin);
      assert State() == st4;
      AddFeatures(ard, pin);
    }

    /** One pin of the pinout: read it, write its Arduino items and, for
        a pin with an Arduino name, register it and find its
        interfaces. */
    method ProcessPin(pin: PinDict, ports: Ports, maxPin: int) returns (r: Result<(Ports, int)>)
      modifies this, parts
      ensures var e := PinStep(env, Acc(old(State()), ports, maxPin), pin);
              && r.Ok? == e.Ok?
              && (r.Ok? ==> Acc(State(), r.value.0, r.value.1) == e.value)
              && (r.Err? ==> r.error == e.error)
    {
      var read := ReadPin(pin);
      if read.Err? {
        return Err(read.error);
      }
      if read.value.None? {
        return Ok((ports, maxPin));
      }
      var p := read.value.value;
      var ardD := RoleGet(pin, ARD_D, JNull);
      var ardA := RoleGet(pin, ARD_A, JNull);
      var comment := CommentOf(p.cName);
      AddArduino(ardD, p.number, comment);
      AddArduino(ardA, p.number, comment);
      if !Truthy(ardD) && !Truthy(ardA) {
        return Ok((ports, maxPin));
      }
      var ard := PyStr(if Truthy(ardD) then ardD else ardA);
      RegisterPin(pin, p, ard);
      var joined := PortsOf(ports, pin, p.number);
      if joined.Err? {
        return Err(joined.error);
      }
      return Ok((joined.value, if p.number > maxPin then p.number else maxPin));
    }

    /** The four counters `generate` starts with. */
    method AddHeaders()
      modifies parts
      ensures State() == Headers(old(State()))
    {
      parts.AddItem(PINS, "PINS_COUNT", 0, Some("Total GPIO count"));
      parts.AddItem(PINS, "NUM_DIGITAL_PINS", 0, Some("Digital inputs/outputs"));
      parts.AddItem(PINS, "NUM_ANALOG_INPUTS", 0, Some("ADC inputs"));
      parts.AddItem(PINS, "NUM_ANALOG_OUTPUTS", 0, Some("PWM & DAC outputs"));
    }

    /** `generate`: nothing without a pinout or an Arduino core; otherwise
        the counters, every pin in order, the complete interfaces and the
        highest pin number. */
    method Generate(pinout: Option<seq<PinDict>>, hasArduinoCore: bool) returns (r: Result<()>)
      modifies this, parts
      ensures var e := GenerateOf(env, old(State()), pinout, hasArduinoCore);
              && r.Ok? == e.Ok?
              && (r.Ok? ==> State() == e.value)
              && (r.Err? ==> r.error == e.error)
    {
      if pinout.None? || pinout.value == [] || !hasArduinoCore {
        return Ok(());
      }
      AddHeaders();
      var pins := pinout.value;
      var ports := NoPorts;
      var maxPin := 0;
      ghost var a0 := Acc(State(), NoPorts, 0);
      for i := 0 to |pins|
        invariant Fold(PinStepOf(env), a0, pins[..i]) == Ok(Acc(State(), ports, maxPin))
      {
        FoldStep(PinStepOf(env), a0, pins, i);
        var res := ProcessPin(pins[i], ports, maxPin);
        if res.Err? {
          FoldFails(PinStepOf(env), a0, pins, i + 1);
          return Err(res.error);
        }
        ports, maxPin := res.value.0, res.value.1;
      }
      FoldAll(PinStepOf(env), a0, pins);
      var e := EmitPorts(ports);
      if e.Err? {
        return Err(e.error);
      }
      parts.AddItem(PINS, "PINS_GPIO_MAX", maxPin, Some("Last usable GPIO number"));
      return Ok(());
    }

    /** The C name of the pin a number was last registered under. */
    method CNameOf(n: int) returns (r: Result<string>)
      ensures r == PinCName(State(), n)
    {
      if n in gpioMap && gpioMap[n] in parts.pins {
        return Ok(parts.pins[gpioMap[n]].gpio);
      }
      return Err(KeyError);
    }

    /** A signal's pin items. */
    method EmitPins(section: SectionType, key: string, numbers: seq<int>) returns (r: Result<()>)
      modifies parts
      ensures var e := SignalPins(old(State()), section, key, numbers);
              && r.Ok? == e.Ok?
              && (r.Ok? ==> State() == e.value)
              && (r.Err? ==> r.error == e.error)
    {
      if |numbers| > 1 {
        for i := 0 to |numbers|
          invariant NumberedItems(old(State()), section, key, numbers[..i]) == Ok(State())
        {
          assert numbers[..i + 1][..i] == numbers[..i];
          var c := CNameOf(numbers[i]);
          if c.Err? {
            NumberedItemsFails(old(State()), section, key, numbers, i + 1);
            return Err(c.error);
          }
          parts.AddItem(section, NumberedKey(key, i), numbers[i], StrComment(c.value));
        }
        assert numbers[..|numbers|] == numbers;
        return Ok(());
      }
      if numbers == [] {
        return Err(IndexError);
      }
      var c := CNameOf(numbers[0]);
      if c.Err? {
        return Err(c.error);
      }
      parts.AddItem(section, key, numbers[0], StrComment(c.value));
      return Ok(());
    }

    /** The signals of one complete interface. */
    method EmitSignals(t: RoleType, index: nat, sigs: Signals) returns (r: Result<()>)
      modifies parts
      ensures var e := Fold(SignalStepOf(t, index), old(State()), sigs);
              && r.Ok? == e.Ok?
              && (r.Ok? ==> State() == e.value)
              && (r.Err? ==> r.error == e.error)
    {
      var name := SectionName(SectionFor(t));
      for i := 0 to |sigs|
        invariant Fold(SignalStepOf(t, index), old(State()), sigs[..i]) == Ok(State())
      {
        FoldStep(SignalStepOf(t, index), old(State()), sigs, i);
        var (signal, numbers) := sigs[i];
        parts.AddItem(PORTS, "HAS_" + name + IntToString(index), 1, None);
        var res := EmitPins(SectionFor(t), "PIN_" + name + IntToString(index) + "_" + signal, numbers);
        if res.Err? {
          FoldFails(SignalStepOf(t, index), old(State()), sigs, i + 1);
          return Err(res.error);
        }
      }
      FoldAll(SignalStepOf(t, index), old(State()), sigs);
      return Ok(());
    }

    /** The interfaces of one port type: the complete ones counted and
        written, the others skipped. */
    method EmitInterfaces(t: RoleType, ifs: Interfaces) returns (r: Result<()>)
      modifies parts
      ensures var e := Fold(InterfaceStepOf(t), old(State()), ifs);
              && r.Ok? == e.Ok?
              && (r.Ok? ==> State() == e.value)
              && (r.Err? ==> r.error == e.error)
    {
      for i := 0 to |ifs|
        invariant Fold(InterfaceStepOf(t), old(State()), ifs[..i]) == Ok(State())
      {
        FoldStep(InterfaceStepOf(t), old(State()), ifs, i);
        var (index, sigs) := ifs[i];
        if Complete(t, sigs) {
          parts.IncrementItem(PORTS, CountKey(t));
          var res := EmitSignals(t, index, sigs);
          if res.Err? {
            FoldFails(InterfaceStepOf(t), old(State()), ifs, i + 1);
            return Err(res.error);
          }
        }
      }
      FoldAll(InterfaceStepOf(t), old(State()), ifs);
      return Ok(());
    }

    /** Every port type's interfaces, in `PORT_SIGNALS` order. */
    method EmitPorts(ports: Ports) returns (r: Result<()>)
      modifies parts
      ensures var e := Fold(PortStepOf(ports), old(State()), PortTypes);
              && r.Ok? == e.Ok?
              && (r.Ok? ==> State() == e.value)
              && (r.Err? ==> r.error == e.error)
    {
      for i := 0 to |PortTypes|
        invariant Fold(PortStepOf(ports), old(State()), PortTypes[..i]) == Ok(State())
      {
        FoldStep(PortStepOf(ports), old(State()), PortTypes, i);
        var t := PortTypes[i];
        var res := EmitInterfaces(t, IfacesOf(ports, t));
        if res.Err? {
          FoldFails(PortStepOf(ports), old(State()), PortTypes, i + 1);
          return Err(res.error);
        }
      }
      FoldAll(PortStepOf(ports), old(State()), PortTypes);
      return Ok(());
    }

    /** The counters of a newly added pin. */
    method AddCounters(pin: PinDict)
      modifies parts
      ensures parts.sections == CountedSections(old(parts.sections), pin)
      ensures parts.pins == old(parts.pins)
    {
      IncrementIf(PINS, "PINS_COUNT", true);
      IncrementIf(PINS, "NUM_DIGITAL_PINS", HasRole(pin, ARD_D));
      IncrementIf(PINS, "NUM_ANALOG_INPUTS", HasRole(pin, ARD_A));
      IncrementIf(PINS, "NUM_ANALOG_OUTPUTS", HasRole(pin, PWM));
    }

    /** `increment_item` when `b` holds. */
    method IncrementIf(t: SectionType, key: string, b: bool)
      modifies parts
      ensures parts.sections == Bumped(old(parts.sections), t, key, b)
      ensures parts.pins == old(parts.pins)
    {
      if b {
        parts.IncrementItem(t, key);
      }
    }
  }

  /** Adding two runs of items is adding them one after the other. */
  lemma ItemsAddedAppend(sections: map<SectionType, seq<Item>>, t: SectionType, a: seq<Item>, b: seq<Item>)
    ensures ItemsAdded(ItemsAdded(sections, t, a), t, b) == ItemsAdded(sections, t, a + b)
  {
    if a == [] {
      assert a + b == b;
    } else if b == [] {
      assert a + b == a;
    } else {
      AppendAssoc(SectionOf(sections, t), a, b);
    }
  }

  /** The comment and macro texts of one more role. */
  lemma TextsSnoc(env: Env, pin: PinDict, i: nat)
    requires i < |pin|
    ensures var (t, v) := pin[i];
            && CommentTexts(env, pin[..i + 1])
               == CommentTexts(env, pin[..i]) + (if Shown(env, t) then env.format(env.coreRoles[t], v, true, Hidden) else [])
            && MacroTexts(env, pin[..i + 1])
               == MacroTexts(env, pin[..i]) + (if Shown(env, t) && IsMacroRole(t) then env.format(env.coreRoles[t], v, false, Hidden) else [])
  {
    assert pin[..i + 1][..i] == pin[..i];
  }

  lemma MacroItemsAppend(a: seq<string>, b: seq<string>, number: int, comment: Option<string>)
    ensures MacroItems(a + b, number, comment) == MacroItems(a, number, comment) + MacroItems(b, number, comment)
  {
  }

  /** A pin whose C name cannot be looked up ends the numbered items with
      that error. */
  lemma {:induction false} NumberedItemsFails(st: WState, section: SectionType, key: string, numbers: seq<int>, i: nat)
    requires i <= |numbers| && NumberedItems(st, section, key, numbers[..i]).Err?
    ensures NumberedItems(st, section, key, numbers) == NumberedItems(st, section, key, numbers[..i])
    decreases |numbers| - i
  {
    if i < |numbers| {
      assert numbers[..i + 1][..i] == numbers[..i];
      NumberedItemsFails(st, section, key, numbers, i + 1);
    } else {
      assert numbers[..i] == numbers;
    }
  }

  /** Items appended after a key's first item leave its count alone. */
  lemma ValueOfExtended(items: seq<Item>, longer: seq<Item>, key: string)
    requires items <= longer && FirstIndex(items, key).Some?
    ensures ValueOf(longer, key) == ValueOf(items, key)
  {
    var i := FirstIndex(items, key).value;
    assert longer[i] == items[i];
    var j := FirstIndex(longer, key);
    assert j.Some? && !(j.value < i) && !(i < j.value);
  }

  /** An interface adds one to its port type's `<NAME>_INTERFACES_COUNT`
      exactly when it has all the required signals; an incomplete one
      writes nothing at all. */
  lemma InterfaceCounted(t: RoleType, st: WState, iface: (nat, Signals))
    requires t in PortTypes && SigsResolve(st, iface.1)
    ensures InterfaceEmitted(t, st, iface).Ok?
    ensures var r := InterfaceEmitted(t, st, iface).value;
            ValueOf(SectionOf(r.sections, PORTS), CountKey(t))
            == ValueOf(SectionOf(st.sections, PORTS), CountKey(t)) + (if Complete(t, iface.1) then 1 else 0)
    ensures !Complete(t, iface.1) ==> InterfaceEmitted(t, st, iface) == Ok(st)
  {
    if Complete(t, iface.1) {
      var st1 := IncrementedItem(st, PORTS, CountKey(t));
      var base := SectionOf(st1.sections, PORTS);
      IncrementedCounts(SectionOf(st.sections, PORTS), CountKey(t));
      assert SigsResolve(st1, iface.1);
      SignalsGrowPorts(t, iface.0, st1, iface.1);
      ValueOfExtended(base, SectionOf(InterfaceEmitted(t, st, iface).value.sections, PORTS), CountKey(t));
    }
  }

  /** The signals of an interface only append to `PORTS`. */
  lemma SignalsGrowPorts(t: RoleType, index: nat, st: WState, sigs: Signals)
    requires t in PortTypes && SigsResolve(st, sigs)
    ensures Fold(SignalStepOf(t, index), st, sigs).Ok?
    ensures SectionOf(st.sections, PORTS) <= SectionOf(Fold(SignalStepOf(t, index), st, sigs).value.sections, PORTS)
  {
    var base := SectionOf(st.sections, PORTS);
    var inv := (b: WState) => Keeps(st, b) && base <= SectionOf(b.sections, PORTS);
    forall b, x | inv(b) && x in sigs
      ensures SignalStepOf(t, index)(b, x).Ok? && inv(SignalStepOf(t, index)(b, x).value)
    {
      var j :| 0 <= j < |sigs| && sigs[j] == x;
      SignalGrowsPorts(t, index, b, x);
    }
    FoldPreserves(SignalStepOf(t, index), inv, st, sigs);
  }

  /** A signal only appends to `PORTS` and keeps the lookups. */
  lemma SignalGrowsPorts(t: RoleType, index: nat, st: WState, sig: (string, seq<int>))
    requires t in PortTypes
    requires sig.1 != [] && forall k :: 0 <= k < |sig.1| ==> Resolves(st, sig.1[k])
    ensures SignalEmitted(t, index, st, sig).Ok?
    ensures Keeps(st, SignalEmitted(t, index, st, sig).value)
    ensures SectionOf(st.sections, PORTS) <= SectionOf(SignalEmitted(t, index, st, sig).value.sections, PORTS)
  {
    SignalEmittedIs(t, index, st, sig);
    var has := Item("HAS_" + SectionName(SectionFor(t)) + IntToString(index), 1, None);
    var m1 := ItemAdded(st.sections, PORTS, has);
    assert SectionOf(m1, PORTS) == SectionOf(st.sections, PORTS) + [has];
    assert SectionFor(t) != PORTS;
  }
}
