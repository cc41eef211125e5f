/**
 * The device base classes every backend shares: equality on (serial, data),
 * and the capability defaults of lights and heat pumps.
 */
module BaseDevice {
  import opened Wrappers
  import opened Json

  /** The right operand of `device == other`. */
  datatype Operand =
    | DeviceOperand(serial: string, data: Record)   // any device: its system's serial and its data dict
    | OtherOperand                                   // an object of a class that is not a device

  /** AqualinkDevice.__eq__; None stands for NotImplemented. */
  function DunderEq(serial: string, data: Record, other: Operand): (r: Option<bool>)
    ensures r.None? <==> other.OtherOperand?
    ensures r == Some(true) <==> other.DeviceOperand? && other.serial == serial && other.data == data
  {
    match other
    case OtherOperand => None
    case DeviceOperand(s, d) => Some(s == serial && d == data)
  }

  /**
   * `device == other` as Python evaluates it: when __eq__ answers
   * NotImplemented and the other class has no equality of its own, Python
   * falls back to identity, which is false for two distinct objects.
   */
  function Equals(serial: string, data: Record, other: Operand): (r: bool)
    ensures other.OtherOperand? ==> !r
  {
    match DunderEq(serial, data, other)
    case None => false
    case Some(b) => b
  }

  /** Device equality is an equivalence: reflexive, symmetric and transitive on devices. */
  lemma EqualsIsEquivalence(a: Operand, b: Operand, c: Operand)
    requires a.DeviceOperand? && b.DeviceOperand? && c.DeviceOperand?
    ensures Equals(a.serial, a.data, a)
    ensures Equals(a.serial, a.data, b) ==> Equals(b.serial, b.data, a)
    ensures Equals(a.serial, a.data, b) && Equals(b.serial, b.data, c) ==> Equals(a.serial, a.data, c)
  {
  }

  /** Two devices are equal exactly when their systems' serials and their data dicts are equal. */
  lemma EqualsIffSameSerialAndData(serial: string, data: Record, other: Operand)
    ensures Equals(serial, data, other) <==> other == DeviceOperand(serial, data)
  {
  }

  /** The four accessors of a light; None is Python's None. */
  datatype LightView = LightView(
    brightness: Option<int>,
    effect: Option<Value>,
    rgbColor: Option<(int, int, int)>,
    whiteValue: Option<int>)

  /** AqualinkLight's accessors: each one returns None unless a subclass overrides it. */
  const BaseLight := LightView(None, None, None, None)

  datatype Capability = Brightness | Effect | RgbColor | WhiteValue

  /** supports_X: accessor X is not None. */
  predicate Supports(view: LightView, cap: Capability) {
    match cap
    case Brightness => view.brightness.Some?
    case Effect => view.effect.Some?
    case RgbColor => view.rgbColor.Some?
    case WhiteValue => view.whiteValue.Some?
  }

  /**
   * The exception AqualinkLight's set_X raises when a subclass does not
   * override it: NotImplementedError for a capability the light claims,
   * AqualinkOperationNotSupportedException for one it lacks.
   */
  function DefaultSetter(supported: bool): (r: Fault)
    ensures r == NotImplemented <==> supported
    ensures r == OperationNotSupported <==> !supported
  {
    if supported then NotImplemented else OperationNotSupported
  }

  /** A light that overrides no accessor supports nothing, and every default setter refuses the operation. */
  lemma BaseLightSupportsNothing(cap: Capability)
    ensures !Supports(BaseLight, cap)
    ensures DefaultSetter(Supports(BaseLight, cap)) == OperationNotSupported
  {
  }

  /** The three heat-pump accessors: mode, supports_cooling and heat_pump_type. */
  datatype HeatPumpView = HeatPumpView(mode: Option<Value>, supportsCooling: Value, heatPumpType: Option<Value>)

  /** AqualinkHeatPump's defaults: no mode, no cooling, no type. */
  const BaseHeatPump := HeatPumpView(None, Bool(false), None)
}
