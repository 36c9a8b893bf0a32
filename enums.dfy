/** The enumerations of `boardgen/models/enums.py`, each with its string
    value (what `Enum(value)` accepts) and, for `RoleType`, its declaration
    index, which orders a pin's labels. */
module Enums {
  import opened Wrappers

  datatype ShapeType = Rect | Circle | TextShape | Subshape

  function ShapeTypeValue(t: ShapeType): (s: string)
    ensures ParseShapeType(s) == Some(t)
  {
    match t
    case Rect => "rect"
    case Circle => "circle"
    case TextShape => "text"
    case Subshape => "include"
  }

  /** `ShapeType(s)`; `None` where Python raises `ValueError`. */
  function ParseShapeType(s: string): (r: Option<ShapeType>)
  {
    if s == "rect" then Some(Rect)
    else if s == "circle" then Some(Circle)
    else if s == "text" then Some(TextShape)
    else if s == "include" then Some(Subshape)
    else None
  }

  datatype Side = Front | Back

  function SideValue(s: Side): string {
    match s
    case Front => "front"
    case Back => "back"
  }

  /** `for side in Side` */
  const Sides: seq<Side> := [Front, Back]

  datatype LabelDir = Left | Right

  function LabelDirValue(d: LabelDir): (s: string)
    ensures ParseLabelDir(s) == Some(d)
  {
    match d
    case Left => "left"
    case Right => "right"
  }

  function ParseLabelDir(s: string): Option<LabelDir> {
    if s == "left" then Some(Left)
    else if s == "right" then Some(Right)
    else None
  }

  datatype IOType = IoNC | IoIO | IoI | IoO | IoPWM | IoPWR | IoNULL

  function IOTypeValue(t: IOType): (s: string)
    ensures ParseIOType(s) == Some(t)
  {
    match t
    case IoNC => "NC"
    case IoIO => "IO"
    case IoI => "I"
    case IoO => "O"
    case IoPWM => "PWM"
    case IoPWR => "PWR"
    case IoNULL => "NULL"
  }

  /** `IOType(s)`; `None` where Python raises `ValueError`. */
  function ParseIOType(s: string): Option<IOType> {
    if s == "NC" then Some(IoNC)
    else if s == "IO" then Some(IoIO)
    else if s == "I" then Some(IoI)
    else if s == "O" then Some(IoO)
    else if s == "PWM" then Some(IoPWM)
    else if s == "PWR" then Some(IoPWR)
    else if s == "NULL" then Some(IoNULL)
    else None
  }

  datatype RoleType =
    | NC | C_NAME | IO | IRQ | PHYSICAL | PWR | GND | CTRL | IC | GPIO | GPIONUM | ADC
    | ARD_D | ARD_A
    | UART | I2C | I2S | DVP | SPI | SD | USB | IRDA
    | PWM | TMR | WAKE | RTC
    | JTAG | SWD | FLASH

  /** The number of role types. */
  const RoleCount := 29

  /** `list(RoleType)[i]`: the role type declared at position `i`. */
  function RoleAt(i: nat): (t: RoleType)
    requires i < RoleCount
  {
    match i
    case 0 => NC
    case 1 => C_NAME
    case 2 => IO
    case 3 => IRQ
    case 4 => PHYSICAL
    case 5 => PWR
    case 6 => GND
    case 7 => CTRL
    case 8 => IC
    case 9 => GPIO
    case 10 => GPIONUM
    case 11 => ADC
    case 12 => ARD_D
    case 13 => ARD_A
    case 14 => UART
    case 15 => I2C
    case 16 => I2S
    case 17 => DVP
    case 18 => SPI
    case 19 => SD
    case 20 => USB
    case 21 => IRDA
    case 22 => PWM
    case 23 => TMR
    case 24 => WAKE
    case 25 => RTC
    case 26 => JTAG
    case 27 => SWD
    case _ => FLASH
  }

  /** `list(RoleType).index(t)` */
  function RoleIndex(t: RoleType): (i: nat)
    ensures i < RoleCount
  {
    match t
    case NC => 0 case C_NAME => 1 case IO => 2 case IRQ => 3 case PHYSICAL => 4 case PWR => 5 case GND => 6 case CTRL => 7 case IC => 8 case GPIO => 9 case GPIONUM => 10 case ADC => 11 case ARD_D => 12 case ARD_A => 13 case UART => 14 case I2C => 15 case I2S => 16 case DVP => 17 case SPI => 18 case SD => 19 case USB => 20 case IRDA => 21 case PWM => 22 case TMR => 23 case WAKE => 24 case RTC => 25 case JTAG => 26 case SWD => 27 case FLASH => 28
  }

  /** `RoleAt` and `RoleIndex` are inverse: the list holds every role
      type once. */
  lemma RoleAtIndex(i: nat)
    requires i < RoleCount
    ensures RoleIndex(RoleAt(i)) == i
  {
    if i < 10 {
      RoleAtIndexIn(i, 0, 10);
    } else if i < 20 {
      RoleAtIndexIn(i, 10, 20);
    } else {
      RoleAtIndexIn(i, 20, RoleCount);
    }
  }

  lemma RoleAtIndexIn(i: nat, lo: nat, hi: nat)
    requires lo <= i < hi <= RoleCount && hi - lo <= 10
    ensures RoleIndex(RoleAt(i)) == i
  {
  }

  /** Each role type is listed once, at its index. */
  lemma RoleIndexOf(t: RoleType)
    ensures RoleAt(RoleIndex(t)) == t
  {
  }

  /** A role type's value is its member name. */
  function RoleValue(t: RoleType): (s: string)
    ensures ParseRoleType(s) == Some(t)
  {
    match t
    case NC => "NC" case C_NAME => "C_NAME" case IO => "IO" case IRQ => "IRQ"
    case PHYSICAL => "PHYSICAL" case PWR => "PWR" case GND => "GND" case CTRL => "CTRL"
    case IC => "IC" case GPIO => "GPIO" case GPIONUM => "GPIONUM" case ADC => "ADC"
    case ARD_D => "ARD_D" case ARD_A => "ARD_A" case UART => "UART" case I2C => "I2C"
    case I2S => "I2S" case DVP => "DVP" case SPI => "SPI" case SD => "SD" case USB => "USB"
    case IRDA => "IRDA" case PWM => "PWM" case TMR => "TMR" case WAKE => "WAKE"
    case RTC => "RTC" case JTAG => "JTAG" case SWD => "SWD" case FLASH => "FLASH"
  }

  /** `RoleType(s)`; `None` where Python raises `ValueError`. */
  function ParseRoleType(s: string): Option<RoleType> {
    if s == "NC" then Some(NC) else if s == "C_NAME" then Some(C_NAME)
    else if s == "IO" then Some(IO) else if s == "IRQ" then Some(IRQ)
    else if s == "PHYSICAL" then Some(PHYSICAL) else if s == "PWR" then Some(PWR)
    else if s == "GND" then Some(GND) else if s == "CTRL" then Some(CTRL)
    else if s == "IC" then Some(IC) else if s == "GPIO" then Some(GPIO)
    else if s == "GPIONUM" then Some(GPIONUM) else if s == "ADC" then Some(ADC)
    else if s == "ARD_D" then Some(ARD_D) else if s == "ARD_A" then Some(ARD_A)
    else if s == "UART" then Some(UART) else if s == "I2C" then Some(I2C)
    else if s == "I2S" then Some(I2S) else if s == "DVP" then Some(DVP)
    else if s == "SPI" then Some(SPI) else if s == "SD" then Some(SD)
    else if s == "USB" then Some(USB) else if s == "IRDA" then Some(IRDA)
    else if s == "PWM" then Some(PWM) else if s == "TMR" then Some(TMR)
    else if s == "WAKE" then Some(WAKE) else if s == "RTC" then Some(RTC)
    else if s == "JTAG" then Some(JTAG) else if s == "SWD" then Some(SWD)
    else if s == "FLASH" then Some(FLASH)
    else None
  }
}
