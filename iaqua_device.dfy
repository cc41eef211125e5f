/**
 * The iAqua backend's devices.
 *
 * A device is a kind, fixed when the classifier first sees its record, and
 * the record itself. Every property is a function of the record and, for
 * thermostats and heat pumps, of the system's device table and temperature
 * unit. Every action is a plan: it either raises, does nothing, or names the
 * one system call to make with the parameters it builds.
 */
module IaquaDevice {
  import opened Wrappers
  import opened Text
  import opened Json
  import BaseDevice

  const CelsiusLow := 1
  const CelsiusHigh := 40
  const FahrenheitLow := 34
  const FahrenheitHigh := 104

  // ---------------------------------------------------------------------
  // State codes

  /** AqualinkState */
  datatype State = Off | On | Standby | Enabled | Absent | Present

  function Code(s: State): string {
    match s
    case Off => "0"
    case On => "1"
    case Standby => "2"
    case Enabled => "3"
    case Absent => "absent"
    case Present => "present"
  }

  /** AqualinkState(v): the member whose code v is; any other value raises ValueError. */
  function StateOf(v: Value): (r: Result<State, Fault>)
    ensures r.Ok? ==> v == Str(Code(r.value))
    ensures r.Err? ==> r.error == ValueError && forall s: State :: v != Str(Code(s))
  {
    if v == Str("0") then Ok(Off)
    else if v == Str("1") then Ok(On)
    else if v == Str("2") then Ok(Standby)
    else if v == Str("3") then Ok(Enabled)
    else if v == Str("absent") then Ok(Absent)
    else if v == Str("present") then Ok(Present)
    else Err(ValueError)
  }

  /** Every member reads back from its own code; so no two members share a code. */
  lemma StateRoundTrip(s: State)
    ensures StateOf(Str(Code(s))) == Ok(s)
  {
  }

  // ---------------------------------------------------------------------
  // Kinds and the classifier

  /** The six colour-light classes, one per effect table. */
  datatype ColorModel = JC | SL | CL | JL | IB | HU

  /** The device class from_data picks. */
  datatype Kind =
    | Sensor
    | BinarySensor
    | Switch
    | AuxSwitch
    | LightSwitch
    | DimmableLight
    | ColorLight(model: ColorModel)
    | Thermostat
    | IclLight
    | HeatPump

  datatype Device = Device(kind: Kind, data: Record)

  /** The system's device table, keyed by device name. */
  type Table = map<string, Device>

  /** The key of each colour model in light_subtype_to_class. */
  function SubtypeCode(m: ColorModel): string {
    match m
    case JC => "1"
    case SL => "2"
    case CL => "3"
    case JL => "4"
    case IB => "5"
    case HU => "6"
  }

  /** light_subtype_to_class[v]: a value that is not a key raises KeyError, a container cannot even be hashed. */
  function SubtypeModel(v: Value): (r: Result<ColorModel, Fault>)
    ensures r.Ok? ==> v == Str(SubtypeCode(r.value))
    ensures r.Err? ==> forall m: ColorModel :: v != Str(SubtypeCode(m))
    ensures r.Err? ==> r.error == if v.Object? || v.Array? then TypeError else KeyError(v)
  {
    if v == Str("1") then Ok(JC)
    else if v == Str("2") then Ok(SL)
    else if v == Str("3") then Ok(CL)
    else if v == Str("4") then Ok(JL)
    else if v == Str("5") then Ok(IB)
    else if v == Str("6") then Ok(HU)
    else if v.Object? || v.Array? then Err(TypeError)
    else Err(KeyError(v))
  }

  lemma SubtypeRoundTrip(m: ColorModel)
    ensures SubtypeModel(Str(SubtypeCode(m))) == Ok(m)
  {
  }

  /** IaquaDevice.from_data: the first rule that matches decides the kind. */
  function Classify(d: Record): (r: Result<Kind, Fault>)
    ensures r.Ok? ==> "name" in d
  {
    if "name" !in d then Err(KeyError(Str("name")))
    else
      var name := d["name"];
      if name == Str("heatpump_info") then Ok(HeatPump)
      else if name == Str("icl_light") || "zoneId" in d then Ok(IclLight)
      else if "state" !in d then Err(KeyError(Str("state")))
      else if d["state"].Object? || d["state"].Array? then Err(NotSupported)
      else if !name.Str? then Err(AttributeError("endswith"))
      else if EndsWith(name.s, "_heater") || EndsWith(name.s, "_pump") then Ok(Switch)
      else if EndsWith(name.s, "_set_point") then
        if d["state"] == Str("") then Err(NotSupported) else Ok(Thermostat)
      else if name.s == "freeze_protection" || EndsWith(name.s, "_present") then Ok(BinarySensor)
      else if StartsWith(name.s, "aux_") then AuxKind(d)
      else Ok(Sensor)
  }

  /** The rules for an `aux_` record: type, then subtype or label. */
  function AuxKind(d: Record): (r: Result<Kind, Fault>)
  {
    if "type" !in d then Err(KeyError(Str("type")))
    else if d["type"] == Str("2") then
      if "subtype" !in d then Err(KeyError(Str("subtype")))
      else
        var m :- SubtypeModel(d["subtype"]);
        Ok(ColorLight(m))
    else if d["type"] == Str("1") then Ok(DimmableLight)
    else if "label" !in d then Err(KeyError(Str("label")))
    else
      var light :- In("LIGHT", d["label"]);
      Ok(if light then LightSwitch else AuxSwitch)
  }

  /** Rule 1: the name heatpump_info makes a heat pump whatever else the record holds. */
  lemma ClassifyHeatPumpFirst(d: Record)
    ensures Classify(d) == Ok(HeatPump) <==> "name" in d && d["name"] == Str("heatpump_info")
  {
  }

  /** Rule 2: an ICL record is recognised before the state is read, so it needs no state at all. */
  lemma ClassifyIclBeforeState(d: Record)
    ensures Classify(d) == Ok(IclLight) <==>
      "name" in d && d["name"] != Str("heatpump_info") && (d["name"] == Str("icl_light") || "zoneId" in d)
  {
  }

  /**
   * Rule 3: past the two special names the state is read unconditionally. A
   * missing state raises KeyError, which the reconciler does not catch; a
   * dict or list state is the caught NotSupported, whatever the name says.
   */
  lemma ClassifyReadsState(d: Record)
    requires "name" in d && d["name"] != Str("heatpump_info") && d["name"] != Str("icl_light") && "zoneId" !in d
    ensures "state" !in d ==> Classify(d) == Err(KeyError(Str("state")))
    ensures "state" in d && (d["state"].Object? || d["state"].Array?) ==> Classify(d) == Err(NotSupported)
  {
  }

  /** Rules 4 to 8, in order, for a record with a string name and a scalar state. */
  lemma ClassifyByName(d: Record, name: string)
    requires "name" in d && d["name"] == Str(name) && name != "heatpump_info" && name != "icl_light"
    requires "zoneId" !in d && "state" in d && !d["state"].Object? && !d["state"].Array?
    ensures EndsWith(name, "_heater") || EndsWith(name, "_pump") ==> Classify(d) == Ok(Switch)
    ensures !EndsWith(name, "_heater") && !EndsWith(name, "_pump") && EndsWith(name, "_set_point") ==>
      Classify(d) == if d["state"] == Str("") then Err(NotSupported) else Ok(Thermostat)
    ensures !EndsWith(name, "_heater") && !EndsWith(name, "_pump") && !EndsWith(name, "_set_point") ==>
      (Classify(d) == Ok(BinarySensor) <==> name == "freeze_protection" || EndsWith(name, "_present"))
    ensures (!EndsWith(name, "_heater") && !EndsWith(name, "_pump") && !EndsWith(name, "_set_point")
             && name != "freeze_protection" && !EndsWith(name, "_present")) ==>
      Classify(d) == if StartsWith(name, "aux_") then AuxKind(d) else Ok(Sensor)
  {
  }

  /**
   * The aux rules: type "2" makes a colour light chosen by the subtype alone,
   * type "1" a dimmable light, any other type a light switch exactly when
   * the label contains "LIGHT", and otherwise an aux switch.
   */
  lemma AuxKindRules(d: Record)
    requires "type" in d
    ensures forall m: ColorModel :: AuxKind(d) == Ok(ColorLight(m)) <==>
      d["type"] == Str("2") && "subtype" in d && d["subtype"] == Str(SubtypeCode(m))
    ensures d["type"] == Str("2") && "subtype" in d && SubtypeModel(d["subtype"]).Err? ==>
      AuxKind(d) == Err(SubtypeModel(d["subtype"]).error)
    ensures AuxKind(d) == Ok(DimmableLight) <==> d["type"] == Str("1")
    ensures AuxKind(d) == Ok(LightSwitch) <==>
      d["type"] != Str("1") && d["type"] != Str("2") && "label" in d && In("LIGHT", d["label"]) == Ok(true)
    ensures AuxKind(d) == Ok(AuxSwitch) <==>
      d["type"] != Str("1") && d["type"] != Str("2") && "label" in d && In("LIGHT", d["label"]) == Ok(false)
  {
    forall m: ColorModel
      ensures AuxKind(d) == Ok(ColorLight(m)) <==>
        d["type"] == Str("2") && "subtype" in d && d["subtype"] == Str(SubtypeCode(m))
    {
      SubtypeRoundTrip(m);
    }
  }

  /** The fields the classifier may read: a record that has them all never makes it raise anything but NotSupported. */
  predicate Classifiable(d: Record) {
    && "name" in d && d["name"].Str? && "state" in d
    && (StartsWith(d["name"].s, "aux_") ==>
          && "type" in d && "label" in d && d["label"].Str?
          && (d["type"] == Str("2") ==> "subtype" in d && SubtypeModel(d["subtype"]).Ok?))
  }

  lemma ClassifyRaisesOnlyNotSupported(d: Record)
    requires Classifiable(d)
    ensures Classify(d).Ok? || Classify(d) == Err(NotSupported)
  {
  }

  // ---------------------------------------------------------------------
  // Common properties

  /** label: the label field's words capitalized, or else the name's underscore-separated pieces capitalized. */
  function Label(d: Record): (r: Result<string, Fault>)
    ensures "label" in d ==> (r.Ok? <==> d["label"].Str?)
    ensures "label" !in d ==> (r.Ok? <==> "name" in d && d["name"].Str?)
    ensures "label" in d && r.Ok? ==> Words(r.value) == CapitalizeAll(Words(d["label"].s))
    ensures "label" !in d && r.Ok? ==>
      var name := d["name"].s;
      && |r.value| == |name|
      && forall i :: 0 <= i < |name| ==>
           r.value[i] == if name[i] == '_' then ' ' else if PieceStart(name, i, true) then Upper(name[i]) else Lower(name[i])
    ensures "label" !in d && "name" !in d ==> r == Err(KeyError(Str("name")))
  {
    if "label" in d then
      match d["label"]
      case Str(s) => WordsOfTitle(s); Ok(Title(s))
      case _ => Err(AttributeError("split"))
    else if "name" !in d then Err(KeyError(Str("name")))
    else
      match d["name"]
      case Str(s) => TitleFromNameChars(s); Ok(TitleFromName(s))
      case _ => Err(AttributeError("split"))
  }

  /** A label read from a label field is a fixed point: storing it back as the label changes nothing. */
  lemma LabelIsFixedPoint(d: Record)
    requires "label" in d && d["label"].Str?
    ensures Label(d["label" := Str(Label(d).value)]) == Label(d)
  {
    TitleIdempotent(d["label"].s);
  }

  /** state: the heat pump reports its status; every other class reads the state field. */
  function StateValue(dev: Device): (r: Result<Value, Fault>)
    ensures !dev.kind.HeatPump? ==> r == Field(dev.data, "state")
    ensures dev.kind.HeatPump? ==> r == Ok(Get(dev.data, "heatpumpstatus", Str("off")))
  {
    if dev.kind.HeatPump? then Ok(Get(dev.data, "heatpumpstatus", Str("off")))
    else Field(dev.data, "state")
  }

  /** The Python class name of each kind. */
  function ClassName(k: Kind): string {
    "Iaqua" + BaseName(k)
  }

  function BaseName(k: Kind): string {
    match k
    case Sensor => "Sensor"
    case BinarySensor => "BinarySensor"
    case Switch => "Switch"
    case AuxSwitch => "AuxSwitch"
    case LightSwitch => "LightSwitch"
    case DimmableLight => "DimmableLight"
    case ColorLight(m) => "ColorLight" + SubtypeName(m)
    case Thermostat => "Thermostat"
    case IclLight => "ICLLight"
    case HeatPump => "HeatPump"
  }

  function SubtypeName(m: ColorModel): string {
    match m
    case JC => "JC"
    case SL => "SL"
    case CL => "CL"
    case JL => "JL"
    case IB => "IB"
    case HU => "HU"
  }

  /** manufacturer: Jandy, except the Pentair and Hayward colour-light lines. */
  function Manufacturer(k: Kind): (r: string)
    ensures !k.ColorLight? ==> r == "Jandy"
    ensures r == "Jandy" || r == "Pentair" || r == "Hayward"
  {
    match k
    case ColorLight(m) =>
      (match m
       case JC => "Jandy"
       case SL => "Pentair"
       case CL => "Pentair"
       case JL => "Jandy"
       case IB => "Pentair"
       case HU => "Hayward")
    case _ => "Jandy"
  }

  /** model: a colour light names its product line; every other class is its own class name without "Iaqua". */
  function Model(k: Kind): (r: string)
    ensures k.ColorLight? ==> |r| > 6 && r[|r| - 6..] == " Light"
  {
    match k
    case ColorLight(m) =>
      (match m
       case JC => "Colors Light"
       case SL => "SAm/SAL Light"
       case CL => "ColorLogic Light"
       case JL => "LED WaterColors Light"
       case IB => "Intellibrite Light"
       case HU => "Universal Light")
    case _ => RemoveAll(ClassName(k), "Iaqua")
  }

  /** The six colour-light product lines carry six different model names. */
  lemma ColorModelsNamedApart(m1: ColorModel, m2: ColorModel)
    requires m1 != m2
    ensures Model(ColorLight(m1)) != Model(ColorLight(m2))
  {
    var a, b := Model(ColorLight(m1)), Model(ColorLight(m2));
    assert a[0] != b[0] || a[1] != b[1] || |a| != |b|;
  }

  /** A string without the letter c cannot contain a pattern that has it. */
  lemma {:induction false} NotContainsWithout(s: string, sub: string, c: char)
    requires c in sub && c !in s
    ensures !Contains(s, sub)
  {
    if s != [] {
      assert forall x :: x in s[1..] ==> x in s;
      NotContainsWithout(s[1..], sub, c);
    }
  }

  /** The model of a non-colour kind is the class name with its "Iaqua" prefix dropped. */
  lemma ModelDropsPrefix(k: Kind)
    requires !k.ColorLight?
    ensures "Iaqua" + Model(k) == ClassName(k)
  {
    assert 'q' in "Iaqua";
    assert 'q' !in BaseName(k) by {
      match k
      case Sensor =>
      case BinarySensor =>
      case Switch =>
      case AuxSwitch =>
      case LightSwitch =>
      case DimmableLight =>
      case Thermostat =>
      case IclLight =>
      case HeatPump =>
    }
    NotContainsWithout(BaseName(k), "Iaqua", 'q');
    RemoveLeading("Iaqua", BaseName(k));
  }

  // ---------------------------------------------------------------------
  // On/off

  predicate IsCode(v: Value) {
    v.Str? && v.s in {"0", "1", "2", "3", "absent", "present"}
  }

  /** IaquaBinarySensor.is_on: ON, ENABLED or PRESENT; an empty state is off; a code outside the enum raises. */
  function BinaryOn(d: Record): (r: Result<bool, Fault>)
    ensures r == Ok(true) <==> "state" in d && d["state"] in {Str("1"), Str("3"), Str("present")}
    ensures r.Err? <==> "state" !in d || (Truthy(d["state"]) && !IsCode(d["state"]))
  {
    var state :- Field(d, "state");
    if !Truthy(state) then Ok(false)
    else
      var s :- StateOf(state);
      Ok(s in {On, Enabled, Present})
  }

  /** IaquaAuxSwitch.is_on: ON only. */
  function AuxOn(d: Record): (r: Result<bool, Fault>)
    ensures r == Ok(true) <==> "state" in d && d["state"] == Str("1")
    ensures r.Err? <==> "state" !in d || (Truthy(d["state"]) && !IsCode(d["state"]))
  {
    var state :- Field(d, "state");
    if !Truthy(state) then Ok(false)
    else
      var s :- StateOf(state);
      Ok(s == On)
  }

  /** A status field that is on unless it reads "off", missing meaning off: ICL zones and heat pumps. */
  function StatusOn(d: Record, key: string): (r: bool)
    ensures r <==> key in d && d[key] != Str("off")
  {
    Get(d, key, Str("off")) != Str("off")
  }

  /** _type: the name up to its first underscore. */
  function Prefix(d: Record): (r: Result<string, Fault>)
    ensures r.Ok? <==> "name" in d && d["name"].Str?
    ensures r.Ok? ==> StartsWith(d["name"].s, r.value) && '_' !in r.value
    ensures r.Ok? ==> r.value == d["name"].s || d["name"].s[|r.value|] == '_'
  {
    if "name" !in d then Err(KeyError(Str("name")))
    else
      match d["name"]
      case Str(s) => Ok(FirstPiece(s))
      case _ => Err(AttributeError("split"))
  }

  /** The prefix of `a_b` is a when a has no underscore: pool_set_point reads pool_heater and pool_temp. */
  lemma PrefixOfName(a: string, b: string, d: Record)
    requires '_' !in a && "name" in d && d["name"] == Str(a + "_" + b)
    ensures Prefix(d) == Ok(a)
  {
    var s := a + "_" + b;
    assert s[|a|] == '_';
    assert s[..|a|] == a;
  }

  /** A sibling read through the prefix: devices[f"{_type}{suffix}"]. */
  function Sibling(d: Record, t: Table, suffix: string): (r: Result<Device, Fault>)
    ensures r.Ok? <==> Prefix(d).Ok? && Prefix(d).value + suffix in t
    ensures r.Ok? ==> r.value == t[Prefix(d).value + suffix]
  {
    var p :- Prefix(d);
    if p + suffix in t then Ok(t[p + suffix]) else Err(KeyError(Str(p + suffix)))
  }

  /**
   * is_on, where a thermostat asks its heater sibling. Each step down a chain
   * of thermostats spends one unit of fuel; IsOn starts with one unit per
   * table entry, so a chain that runs out has visited some entry twice and
   * Python would recurse until RecursionError.
   */
  function IsOnFuel(dev: Device, t: Table, fuel: nat): (r: Result<bool, Fault>)
    decreases fuel
  {
    var d := dev.data;
    match dev.kind
    case Sensor => Err(AttributeError("is_on"))
    case BinarySensor => BinaryOn(d)
    case Switch => BinaryOn(d)
    case AuxSwitch => AuxOn(d)
    case LightSwitch => AuxOn(d)
    case DimmableLight => AuxOn(d)
    case ColorLight(_) => AuxOn(d)
    case Thermostat =>
      var heater :- Sibling(d, t, "_heater");
      if fuel == 0 then Err(RecursionError) else IsOnFuel(heater, t, fuel - 1)
    case IclLight => Ok(StatusOn(d, "zoneStatus"))
    case HeatPump => Ok(StatusOn(d, "heatpumpstatus"))
  }

  function IsOn(dev: Device, t: Table): Result<bool, Fault> {
    IsOnFuel(dev, t, |t|)
  }

  /** A thermostat is on exactly when its heater sibling is. */
  lemma ThermostatFollowsHeater(d: Record, t: Table, fuel: nat)
    requires Sibling(d, t, "_heater").Ok? && !Sibling(d, t, "_heater").value.kind.Thermostat?
    ensures IsOnFuel(Device(Thermostat, d), t, fuel + 1) == IsOnFuel(Sibling(d, t, "_heater").value, t, 0)
  {
  }

  // ---------------------------------------------------------------------
  // Light accessors

  predicate IsLight(k: Kind) {
    k.LightSwitch? || k.DimmableLight? || k.ColorLight? || k.IclLight?
  }

  /** int(v) as a result: ValueError for a malformed string, TypeError for anything else that is not a number. */
  function IntOf(v: Value): (r: Result<int, Fault>)
    ensures r.Ok? <==> ToInt(v).Some?
    ensures r.Ok? ==> r.value == ToInt(v).value
  {
    match ToInt(v)
    case Some(i) => Ok(i)
    case None => Err(ToIntFault(v))
  }

  /** brightness: a dimmer's subtype, an ICL zone's dim_level when set, None for the other lights. */
  function Brightness(dev: Device): (r: Result<Option<int>, Fault>)
    ensures r.Ok? ==> IsLight(dev.kind)
    ensures dev.kind.LightSwitch? || dev.kind.ColorLight? ==> r == Ok(BaseDevice.BaseLight.brightness)
    ensures dev.kind.DimmableLight? ==> (r.Ok? <==> "subtype" in dev.data && ToInt(dev.data["subtype"]).Some?)
    ensures dev.kind.DimmableLight? && r.Ok? ==> r.value == Some(ToInt(dev.data["subtype"]).value)
    ensures dev.kind.DimmableLight? && "subtype" !in dev.data ==> r == Err(KeyError(Str("subtype")))
    ensures dev.kind.IclLight? ==>
      var dim := Get(dev.data, "dim_level", Null);
      && (r.Ok? <==> !Truthy(dim) || ToInt(dim).Some?)
      && (r.Ok? ==> r.value == if Truthy(dim) then Some(ToInt(dim).value) else None)
  {
    var d := dev.data;
    match dev.kind
    case DimmableLight =>
      var subtype :- Field(d, "subtype");
      var level :- IntOf(subtype);
      Ok(Some(level))
    case IclLight =>
      var dim := Get(d, "dim_level", Null);
      if !Truthy(dim) then Ok(None)
      else
        var level :- IntOf(dim);
        Ok(Some(level))
    case LightSwitch => Ok(BaseDevice.BaseLight.brightness)
    case ColorLight(_) => Ok(BaseDevice.BaseLight.brightness)
    case _ => Err(AttributeError("brightness"))
  }

  function NoneIfNull(v: Value): (r: Option<Value>)
    ensures r.None? <==> v == Null
  {
    if v == Null then None else Some(v)
  }

  /** effect: a colour light's state, an ICL zone's colour ("off" when absent), None for the other lights. */
  function Effect(dev: Device): (r: Result<Option<Value>, Fault>)
    ensures r.Ok? ==> IsLight(dev.kind)
    ensures dev.kind.LightSwitch? || dev.kind.DimmableLight? ==> r == Ok(BaseDevice.BaseLight.effect)
  {
    var d := dev.data;
    match dev.kind
    case ColorLight(_) =>
      var state :- Field(d, "state");
      Ok(NoneIfNull(state))
    case IclLight => Ok(NoneIfNull(Get(d, "zoneColor", Str("off"))))
    case LightSwitch => Ok(BaseDevice.BaseLight.effect)
    case DimmableLight => Ok(BaseDevice.BaseLight.effect)
    case _ => Err(AttributeError("effect"))
  }

  /** An ICL channel: int() of the field, 0 when absent, None when int() fails. */
  function Channel(d: Record, key: string): (r: Option<int>)
    ensures key !in d ==> r == Some(0)
    ensures key in d ==> r == ToInt(d[key])
  {
    ToInt(Get(d, key, Int(0)))
  }

  /** rgb_color: an ICL zone's three channels, or None when any of them is not a number. */
  function RgbColor(dev: Device): (r: Result<Option<(int, int, int)>, Fault>)
    ensures r.Ok? <==> IsLight(dev.kind)
    ensures dev.kind.IclLight? ==>
      (r.value.Some? <==> Channel(dev.data, "red_val").Some? && Channel(dev.data, "green_val").Some? && Channel(dev.data, "blue_val").Some?)
  {
    var d := dev.data;
    match dev.kind
    case IclLight =>
      var red := Channel(d, "red_val");
      var green := Channel(d, "green_val");
      var blue := Channel(d, "blue_val");
      if red.Some? && green.Some? && blue.Some? then Ok(Some((red.value, green.value, blue.value))) else Ok(None)
    case LightSwitch => Ok(BaseDevice.BaseLight.rgbColor)
    case DimmableLight => Ok(BaseDevice.BaseLight.rgbColor)
    case ColorLight(_) => Ok(BaseDevice.BaseLight.rgbColor)
    case _ => Err(AttributeError("rgb_color"))
  }

  /** white_value: an ICL zone's white channel, None for the other lights. */
  function WhiteValue(dev: Device): (r: Result<Option<int>, Fault>)
    ensures r.Ok? <==> IsLight(dev.kind)
    ensures dev.kind.IclLight? ==> r == Ok(Channel(dev.data, "white_val"))
  {
    match dev.kind
    case IclLight => Ok(Channel(dev.data, "white_val"))
    case LightSwitch => Ok(BaseDevice.BaseLight.whiteValue)
    case DimmableLight => Ok(BaseDevice.BaseLight.whiteValue)
    case ColorLight(_) => Ok(BaseDevice.BaseLight.whiteValue)
    case _ => Err(AttributeError("white_value"))
  }

  /** supports_X: accessor X is not None. */
  function Supports(dev: Device, cap: BaseDevice.Capability): (r: Result<bool, Fault>)
  {
    match cap
    case Brightness => var b :- Brightness(dev); Ok(b.Some?)
    case Effect => var e :- Effect(dev); Ok(e.Some?)
    case RgbColor => var c :- RgbColor(dev); Ok(c.Some?)
    case WhiteValue => var w :- WhiteValue(dev); Ok(w.Some?)
  }

  /** A light switch has none of the four capabilities. */
  lemma LightSwitchSupportsNothing(d: Record, cap: BaseDevice.Capability)
    ensures Supports(Device(LightSwitch, d), cap) == Ok(false)
  {
    BaseDevice.BaseLightSupportsNothing(cap);
  }

  /** ICL zones: a brightness written as text reads back as that number. */
  lemma IclBrightnessReadsBack(d: Record, level: int)
    ensures Brightness(Device(IclLight, d["dim_level" := Decimal(level)])) == Ok(Some(level))
  {
    var e := d["dim_level" := Decimal(level)];
    ToIntOfStr(level);
    IntOfNumber(Decimal(level), level);
    DimLevelOf(e, Decimal(level), level);
  }

  /** Dimmers: a level written as text into subtype reads back as that number. */
  lemma DimmerBrightnessReadsBack(d: Record, level: int)
    ensures Brightness(Device(DimmableLight, d["subtype" := Decimal(level)])) == Ok(Some(level))
  {
    ToIntOfStr(level);
    SubtypeLevelOf(d["subtype" := Decimal(level)], Decimal(level), level);
  }

  /** A dimmer whose subtype converts to a number has that number as its brightness. */
  lemma SubtypeLevelOf(e: Record, v: Value, level: int)
    requires "subtype" in e && e["subtype"] == v && ToInt(v) == Some(level)
    ensures Brightness(Device(DimmableLight, e)) == Ok(Some(level))
  {
  }

  /** A value int() accepts converts without raising. */
  lemma IntOfNumber(v: Value, n: int)
    requires ToInt(v) == Some(n)
    ensures IntOf(v) == Ok(n)
  {
  }

  /** An ICL zone whose dim_level is a set value converting to n reports brightness n. */
  lemma DimLevelOf(e: Record, v: Value, level: int)
    requires Get(e, "dim_level", Null) == v && Truthy(v) && IntOf(v) == Ok(level)
    ensures Brightness(Device(IclLight, e)) == Ok(Some(level))
  {
  }

  /** A channel holding str(n) reads n. */
  lemma ChannelOf(d: Record, key: string, n: int)
    requires key in d && d[key] == Decimal(n)
    ensures Channel(d, key) == Some(n)
  {
    ToIntOfStr(n);
  }

  /** ICL zones: channels written as text read back as those numbers. */
  lemma IclColorReadsBack(d: Record, red: int, green: int, blue: int)
    ensures RgbColor(Device(IclLight, d["red_val" := Decimal(red)]["green_val" := Decimal(green)]["blue_val" := Decimal(blue)]))
      == Ok(Some((red, green, blue)))
  {
    var e := d["red_val" := Decimal(red)]["green_val" := Decimal(green)]["blue_val" := Decimal(blue)];
    assert e["red_val"] == Decimal(red) && e["green_val"] == Decimal(green) && e["blue_val"] == Decimal(blue);
    ChannelOf(e, "red_val", red);
    ChannelOf(e, "green_val", green);
    ChannelOf(e, "blue_val", blue);
    RgbOfChannels(e, red, green, blue);
  }

  /** An ICL zone whose three channels read as numbers has that colour. */
  lemma RgbOfChannels(e: Record, red: int, green: int, blue: int)
    requires Channel(e, "red_val") == Some(red) && Channel(e, "green_val") == Some(green) && Channel(e, "blue_val") == Some(blue)
    ensures RgbColor(Device(IclLight, e)) == Ok(Some((red, green, blue)))
  {
  }

  /** ICL zones: a white value written as text reads back as that number. */
  lemma IclWhiteReadsBack(d: Record, white: int)
    ensures WhiteValue(Device(IclLight, d["white_val" := Decimal(white)])) == Ok(Some(white))
  {
    ChannelOf(d["white_val" := Decimal(white)], "white_val", white);
  }

  /** ICL zones: missing channels read as 0, and a None channel makes the whole colour None. */
  lemma IclChannelDefaults(d: Record)
    ensures "red_val" !in d && "green_val" !in d && "blue_val" !in d ==> RgbColor(Device(IclLight, d)) == Ok(Some((0, 0, 0)))
    ensures "white_val" !in d ==> WhiteValue(Device(IclLight, d)) == Ok(Some(0))
    ensures "red_val" in d && d["red_val"] == Null ==> RgbColor(Device(IclLight, d)) == Ok(None)
    ensures "white_val" in d && d["white_val"] == Null ==> WhiteValue(Device(IclLight, d)) == Ok(None)
  {
  }

  /** str(n) as a payload value. */
  function Decimal(n: int): Value {
    Str(IntToStr(n))
  }

  /** zone_id: the record's zoneId, 1 when absent. */
  function ZoneId(d: Record): (r: Value)
    ensures "zoneId" in d ==> r == d["zoneId"]
    ensures "zoneId" !in d ==> r == Int(1)
  {
    Get(d, "zoneId", Int(1))
  }

  /** zone_name: the record's zoneName, "Pool lights" when absent. */
  function ZoneName(d: Record): (r: Value)
    ensures "zoneName" in d ==> r == d["zoneName"]
    ensures "zoneName" !in d ==> r == Str("Pool lights")
  {
    Get(d, "zoneName", Str("Pool lights"))
  }

  // ---------------------------------------------------------------------
  // Effect tables

  /** supported_effects of each colour model, in the order the class lists them. */
  function Effects(m: ColorModel): seq<(string, int)> {
    match m
    case JC => [("Off", 0), ("Alpine White", 1), ("Sky Blue", 2), ("Cobalt Blue", 3), ("Caribbean Blue", 4),
                ("Spring Green", 5), ("Emerald Green", 6), ("Emerald Rose", 7), ("Magenta", 8), ("Garnet Red", 9),
                ("Violet", 10), ("Color Splash", 11)]
    case SL => [("Off", 0), ("White", 1), ("Light Green", 2), ("Green", 3), ("Cyan", 4), ("Blue", 5),
                ("Lavender", 6), ("Magenta", 7), ("Light Magenta", 8), ("Color Splash", 9)]
    case CL => [("Off", 0), ("Voodoo Lounge", 1), ("Deep Blue Sea", 2), ("Afternoon Skies", 3), ("Emerald", 4),
                ("Sangria", 5), ("Cloud White", 6), ("Twilight", 7), ("Tranquility", 8), ("Gemstone", 9),
                ("USA!", 10), ("Mardi Gras", 11), ("Cool Cabaret", 12)]
    case JL => [("Off", 0), ("Alpine White", 1), ("Sky Blue", 2), ("Cobalt Blue", 3), ("Caribbean Blue", 4),
                ("Spring Green", 5), ("Emerald Green", 6), ("Emerald Rose", 7), ("Magenta", 8), ("Violet", 9),
                ("Slow Splash", 10), ("Fast Splash", 11), ("USA!", 12), ("Fat Tuesday", 13), ("Disco Tech", 14)]
    case IB => [("Off", 0), ("SAm", 1), ("Party", 2), ("Romance", 3), ("Caribbean", 4), ("American", 5),
                ("California Sunset", 6), ("Royal", 7), ("Blue", 8), ("Green", 9), ("Red", 10), ("White", 11),
                ("Magenta", 12)]
    case HU => [("Off", 0), ("Voodoo Lounge", 1), ("Deep Blue Sea", 2), ("Royal Blue", 3), ("Afternoon Skies", 4),
                ("Aqua Green", 5), ("Emerald", 6), ("Cloud White", 7), ("Warm Red", 8), ("Flamingo", 9),
                ("Vivid Violet", 10), ("Sangria", 11), ("Twilight", 12), ("Tranquility", 13), ("Gemstone", 14),
                ("USA!", 15), ("Mardi Gras", 16), ("Cool Cabaret", 17)]
  }

  /** id in supported_effects.values() */
  predicate HasEffectId(table: seq<(string, int)>, id: int) {
    exists i :: 0 <= i < |table| && table[i].1 == id
  }

  /** The ids of a table are its positions. */
  predicate Contiguous(table: seq<(string, int)>) {
    forall i :: 0 <= i < |table| ==> table[i].1 == i
  }

  predicate DistinctNames(table: seq<(string, int)>) {
    forall i, j :: 0 <= i < j < |table| ==> table[i].0 != table[j].0
  }

  function EffectCount(m: ColorModel): nat {
    match m
    case JC => 12
    case SL => 10
    case CL => 13
    case JL => 15
    case IB => 13
    case HU => 18
  }

  /** Every table maps "Off" to 0, lists distinct names, and numbers them 0 .. n-1 in order. */
  lemma EffectTableShape(m: ColorModel)
    ensures |Effects(m)| == EffectCount(m)
    ensures Effects(m)[0] == ("Off", 0)
    ensures Contiguous(Effects(m))
    ensures DistinctNames(Effects(m))
  {
    match m
    case JC => ShapeJC();
    case SL => ShapeSL();
    case CL => ShapeCL();
    case JL => ShapeJL();
    case IB => ShapeIB();
    case HU => ShapeHU();
  }

  lemma ShapeJC()
    ensures Contiguous(Effects(JC)) && DistinctNames(Effects(JC))
  {
  }

  lemma ShapeSL()
    ensures Contiguous(Effects(SL)) && DistinctNames(Effects(SL))
  {
  }

  lemma ShapeCL()
    ensures Contiguous(Effects(CL)) && DistinctNames(Effects(CL))
  {
  }

  lemma ShapeJL()
    ensures Contiguous(Effects(JL)) && DistinctNames(Effects(JL))
  {
  }

  lemma ShapeIB()
    ensures Contiguous(Effects(IB)) && DistinctNames(Effects(IB))
  {
  }

  lemma ShapeHU()
    ensures Contiguous(Effects(HU)) && DistinctNames(Effects(HU))
  {
  }

  /** In a contiguous table an id is valid exactly when it lies in 0 .. n-1. */
  lemma ValidIds(table: seq<(string, int)>, id: int)
    requires Contiguous(table)
    ensures HasEffectId(table, id) <==> 0 <= id < |table|
  {
    if 0 <= id < |table| {
      assert table[id].1 == id;
    }
  }

  // ---------------------------------------------------------------------
  // Temperatures

  function LowFor(unit: Value): int {
    if unit == Str("F") then FahrenheitLow else CelsiusLow
  }

  function HighFor(unit: Value): int {
    if unit == Str("F") then FahrenheitHigh else CelsiusHigh
  }

  /** temperature in range(low, high + 1): 34 to 104 for "F", 1 to 40 for any other unit. */
  predicate InRange(unit: Value, degrees: int) {
    LowFor(unit) <= degrees <= HighFor(unit)
  }

  lemma RangeByUnit(unit: Value, degrees: int)
    ensures unit == Str("F") ==> (InRange(unit, degrees) <==> 34 <= degrees <= 104)
    ensures unit != Str("F") ==> (InRange(unit, degrees) <==> 1 <= degrees <= 40)
  {
  }

  /** _temperature: a pool set point is temp2 when the system also has a spa set point, every other one temp1. */
  function TempSlot(d: Record, t: Table): (r: Result<string, Fault>)
    ensures r.Ok? <==> Prefix(d).Ok?
    ensures r.Ok? ==> (r.value == "temp2" <==> Prefix(d).value == "pool" && "spa_set_point" in t)
    ensures r.Ok? ==> r.value == "temp1" || r.value == "temp2"
  {
    var p :- Prefix(d);
    Ok(if p == "pool" && "spa_set_point" in t then "temp2" else "temp1")
  }

  /** pool_set_point takes temp2 when the system has a spa, temp1 otherwise. */
  lemma PoolSlot(pool: Record, t: Table)
    requires "name" in pool && pool["name"] == Str("pool_set_point")
    ensures TempSlot(pool, t) == Ok(if "spa_set_point" in t then "temp2" else "temp1")
  {
    assert "pool" + "_set_point" == "pool_set_point";
    NamedSlot("pool", pool, t);
  }

  /** spa_set_point always takes temp1. */
  lemma SpaSlot(spa: Record, t: Table)
    requires "name" in spa && spa["name"] == Str("spa_set_point")
    ensures TempSlot(spa, t) == Ok("temp1")
  {
    assert "spa" + "_set_point" == "spa_set_point";
    NamedSlot("spa", spa, t);
  }

  /** The slot of the set point named <a>_set_point. */
  lemma NamedSlot(a: string, d: Record, t: Table)
    requires '_' !in a && "name" in d && d["name"] == Str(a + "_set_point")
    ensures TempSlot(d, t) == Ok(if a == "pool" && "spa_set_point" in t then "temp2" else "temp1")
  {
    assert a + "_set_point" == a + "_" + "set_point";
    PrefixOfName(a, "set_point", d);
  }

  /** A thermostat named `<a>_set_point` reads the state of the `<a>_temp` sensor, or a KeyError naming that key. */
  lemma ThermostatReadsTemp(a: string, d: Record, t: Table)
    requires '_' !in a && "name" in d && d["name"] == Str(a + "_set_point")
    ensures a + "_temp" in t ==> CurrentTemperature(Device(Thermostat, d), t) == StateValue(t[a + "_temp"])
    ensures a + "_temp" !in t ==> CurrentTemperature(Device(Thermostat, d), t) == Err(KeyError(Str(a + "_temp")))
  {
    assert a + "_set_point" == a + "_" + "set_point";
    PrefixOfName(a, "set_point", d);
  }

  /** The heat pump's mode, cooling support and type over its record. */
  function HeatPumpViewOf(d: Record): BaseDevice.HeatPumpView {
    BaseDevice.HeatPumpView(
      NoneIfNull(Get(d, "heatpumpmode", Str("off"))),
      Get(d, "isChillAvailable", Bool(false)),
      NoneIfNull(Get(d, "heatpumptype", Null)))
  }

  /** A heat pump record that says nothing keeps the base defaults, except that its mode reads "off" rather than None. */
  lemma HeatPumpDefaults(d: Record)
    requires "heatpumpmode" !in d && "isChillAvailable" !in d && "heatpumptype" !in d
    ensures HeatPumpViewOf(d) == BaseDevice.BaseHeatPump.(mode := Some(Str("off")))
  {
  }

  /** is_present: the record's isheatpumpPresent, false when absent. */
  function IsPresent(d: Record): (r: Value)
    ensures "isheatpumpPresent" in d ==> r == d["isheatpumpPresent"]
    ensures "isheatpumpPresent" !in d ==> r == Bool(false)
  {
    Get(d, "isheatpumpPresent", Bool(false))
  }

  /** A sibling's state, or "" when the system has no such device. */
  function StateOrEmpty(t: Table, key: string): (r: Result<Value, Fault>)
    ensures key !in t ==> r == Ok(Str(""))
    ensures key in t ==> r == StateValue(t[key])
  {
    if key in t then StateValue(t[key]) else Ok(Str(""))
  }

  /** current_temperature: a thermostat's <prefix>_temp sibling, a heat pump's pool_temp. */
  function CurrentTemperature(dev: Device, t: Table): (r: Result<Value, Fault>)
    ensures dev.kind.Thermostat? && Sibling(dev.data, t, "_temp").Err? ==>
      r == Err(Sibling(dev.data, t, "_temp").error)
    ensures dev.kind.Thermostat? && Sibling(dev.data, t, "_temp").Ok? ==>
      r == StateValue(Sibling(dev.data, t, "_temp").value)
    ensures dev.kind.HeatPump? ==> r == StateOrEmpty(t, "pool_temp")
    ensures !dev.kind.Thermostat? && !dev.kind.HeatPump? ==> r == Err(AttributeError("current_temperature"))
  {
    match dev.kind
    case Thermostat =>
      var sensor :- Sibling(dev.data, t, "_temp");
      StateValue(sensor)
    case HeatPump => StateOrEmpty(t, "pool_temp")
    case _ => Err(AttributeError("current_temperature"))
  }

  /** target_temperature: a thermostat's own state; a heat pump's chill set point in cool mode, else the pool set point. */
  function TargetTemperature(dev: Device, t: Table): (r: Result<Value, Fault>)
    ensures dev.kind.Thermostat? ==> r == Field(dev.data, "state")
    ensures dev.kind.HeatPump? ==>
      r == StateOrEmpty(t, if HeatPumpViewOf(dev.data).mode == Some(Str("cool")) then "pool_chill_set_point" else "pool_set_point")
  {
    match dev.kind
    case Thermostat => Field(dev.data, "state")
    case HeatPump =>
      if Get(dev.data, "heatpumpmode", Str("off")) == Str("cool") then StateOrEmpty(t, "pool_chill_set_point")
      else StateOrEmpty(t, "pool_set_point")
    case _ => Err(AttributeError("target_temperature"))
  }

  // ---------------------------------------------------------------------
  // Actions

  datatype Op =
    | TurnOn
    | TurnOff
    | SetBrightness(level: int)
    | SetEffectByName(effect: string)
    | SetEffectById(id: int)
    | SetRgbColor(red: int, green: int, blue: int)
    | SetWhiteValue(white: int)
    | SetTemperature(degrees: int)
    | SetMode(mode: string)

  function OpName(op: Op): string {
    match op
    case TurnOn => "turn_on"
    case TurnOff => "turn_off"
    case SetBrightness(_) => "set_brightness"
    case SetEffectByName(_) => "set_effect_by_name"
    case SetEffectById(_) => "set_effect_by_id"
    case SetRgbColor(_, _, _) => "set_rgb_color"
    case SetWhiteValue(_) => "set_white_value"
    case SetTemperature(_) => "set_temperature"
    case SetMode(_) => "set_mode"
  }

  /** The system method an action calls, with its argument. */
  datatype Call =
    | SetSwitch(command: string)
    | SetAux(aux: Value)
    | SetLight(params: Params)
    | SetIclLight(params: Params)
    | SetTemps(temps: Params)
    | SetHeatpump(params: Params)

  /** What an action does: raise, do nothing, or make one call. */
  type Plan = Result<Option<Call>, Fault>

  /** turn_on / turn_off: act only when the device is not already in the wanted state. */
  function Turn(isOn: Result<bool, Fault>, wantOn: bool, act: Plan): (r: Plan)
    ensures isOn.Ok? && isOn.value == wantOn ==> r == Ok(None)
    ensures isOn.Ok? && isOn.value != wantOn ==> r == act
  {
    var on :- isOn;
    if on == wantOn then Ok(None) else act
  }

  /** A light setter the class inherits from AqualinkLight. */
  function DefaultSetterPlan(dev: Device, cap: BaseDevice.Capability): (r: Plan)
    ensures r.Err?
  {
    var supported :- Supports(dev, cap);
    Err(BaseDevice.DefaultSetter(supported))
  }

  function SwitchToggle(d: Record): Plan {
    var name :- Field(d, "name");
    var text :- Format(name);
    Ok(Some(SetSwitch("set_" + text)))
  }

  function AuxToggle(d: Record): Plan {
    var aux :- Field(d, "aux");
    Ok(Some(SetAux(aux)))
  }


  /** IaquaDimmableLight.set_brightness: 25% steps only. */
  function DimPlan(d: Record, level: int): (r: Plan)
    ensures r.Ok? <==> level in {0, 25, 50, 75, 100} && "aux" in d
    ensures level !in {0, 25, 50, 75, 100} ==> r == Err(InvalidParameter)
    ensures r.Ok? ==> r.value == Some(SetLight([("aux", d["aux"]), ("light", Decimal(level))]))
  {
    if level !in {0, 25, 50, 75, 100} then Err(InvalidParameter)
    else
      var aux :- Field(d, "aux");
      Ok(Some(SetLight([("aux", aux), ("light", Decimal(level))])))
  }

  /** IaquaColorLight.set_effect_by_id */
  function EffectIdPlan(d: Record, m: ColorModel, id: int): (r: Plan)
    ensures r.Ok? <==> 0 <= id < EffectCount(m) && "aux" in d && "subtype" in d
    ensures !(0 <= id < EffectCount(m)) ==> r == Err(InvalidParameter)
    ensures r.Ok? ==> r.value == Some(SetLight([("aux", d["aux"]), ("light", Decimal(id)), ("subtype", d["subtype"])]))
  {
    EffectTableShape(m);
    ValidIds(Effects(m), id);
    if !HasEffectId(Effects(m), id) then Err(InvalidParameter)
    else
      var aux :- Field(d, "aux");
      var subtype :- Field(d, "subtype");
      Ok(Some(SetLight([("aux", aux), ("light", Decimal(id)), ("subtype", subtype)])))
  }

  /** IaquaColorLight.set_effect_by_name */
  function EffectNamePlan(d: Record, m: ColorModel, name: string): (r: Plan)
    ensures Lookup(Effects(m), name).None? ==> r == Err(InvalidParameter)
    ensures forall i :: 0 <= i < |Effects(m)| && Effects(m)[i].0 == name ==> r == EffectIdPlan(d, m, i)
  {
    EffectTableShape(m);
    forall i | 0 <= i < |Effects(m)| && Effects(m)[i].0 == name
      ensures Lookup(Effects(m), name) == Some(i)
    {
      LookupAt(Effects(m), i);
    }
    match Lookup(Effects(m), name)
    case None => Err(InvalidParameter)
    case Some(id) => EffectIdPlan(d, m, id)
  }

  function IclCall(params: Params): Plan {
    Ok(Some(SetIclLight(params)))
  }

  predicate Byte(n: int) {
    0 <= n <= 255
  }

  /** IaquaICLLight.set_rgb_color: each channel 0-255; the current white value rides along when there is one. */
  function IclRgbPlan(dev: Device, red: int, green: int, blue: int): (r: Plan)
    requires dev.kind.IclLight?
    ensures !(Byte(red) && Byte(green) && Byte(blue)) ==> r == Err(InvalidParameter)
    ensures r.Ok? <==> Byte(red) && Byte(green) && Byte(blue)
    ensures r.Ok? ==> r.value.Some? && r.value.value.SetIclLight?
    ensures r.Ok? ==> var p := r.value.value.params;
      && 4 <= |p| <= 5
      && p[..4] == [("zoneId", ZoneId(dev.data)), ("red_val", Decimal(red)), ("green_val", Decimal(green)), ("blue_val", Decimal(blue))]
      && (|p| == 5 <==> Channel(dev.data, "white_val").Some?)
      && (|p| == 5 ==> p[4] == ("white_val", Decimal(Channel(dev.data, "white_val").value)))
  {
    if !(Byte(red) && Byte(green) && Byte(blue)) then Err(InvalidParameter)
    else
      var base := [("zoneId", ZoneId(dev.data)), ("red_val", Decimal(red)), ("green_val", Decimal(green)), ("blue_val", Decimal(blue))];
      match Channel(dev.data, "white_val")
      case Some(w) => IclCall(base + [("white_val", Decimal(w))])
      case None => IclCall(base)
  }

  /** IaquaHeatPump.set_mode: off and heat, and cool when the pump can chill. */
  function ModePlan(d: Record, mode: string): (r: Plan)
    ensures r.Ok? <==> mode == "off" || mode == "heat" || (mode == "cool" && Truthy(HeatPumpViewOf(d).supportsCooling))
    ensures r.Err? ==> r.error == InvalidParameter
    ensures r.Ok? ==> r.value == Some(SetHeatpump([("heatpumpmode", Str(mode))]))
  {
    var valid := ["off", "heat"] + (if Truthy(Get(d, "isChillAvailable", Bool(false))) then ["cool"] else []);
    if mode !in valid then Err(InvalidParameter)
    else Ok(Some(SetHeatpump([("heatpumpmode", Str(mode))])))
  }

  /** IaquaThermostat.set_temperature */
  function ThermostatTempPlan(d: Record, t: Table, unit: Value, degrees: int): (r: Plan)
    ensures !InRange(unit, degrees) ==> r == Err(InvalidParameter)
    ensures r.Ok? <==> InRange(unit, degrees) && Prefix(d).Ok?
    ensures r.Ok? ==> r.value == Some(SetTemps([(TempSlot(d, t).value, Decimal(degrees))]))
  {
    if !InRange(unit, degrees) then Err(InvalidParameter)
    else
      var slot :- TempSlot(d, t);
      Ok(Some(SetTemps([(slot, Decimal(degrees))])))
  }

  /** IaquaHeatPump.set_temperature: the chill set point in cool mode when the pump can chill, else the pool's temp2. */
  function HeatPumpTempPlan(d: Record, unit: Value, degrees: int): (r: Plan)
    ensures !InRange(unit, degrees) ==> r == Err(InvalidParameter)
    ensures r.Ok? <==> InRange(unit, degrees)
    ensures r.Ok? ==>
      var view := HeatPumpViewOf(d);
      r.value == Some(SetTemps([(if view.mode == Some(Str("cool")) && Truthy(view.supportsCooling) then "temp_chill" else "temp2",
                                Decimal(degrees))]))
  {
    if !InRange(unit, degrees) then Err(InvalidParameter)
    else if Get(d, "heatpumpmode", Str("off")) == Str("cool") && Truthy(Get(d, "isChillAvailable", Bool(false))) then
      Ok(Some(SetTemps([("temp_chill", Decimal(degrees))])))
    else Ok(Some(SetTemps([("temp2", Decimal(degrees))])))
  }

  /**
   * What op does on dev, given the system's table and temperature unit. A
   * thermostat delegates turn_on/turn_off to its heater sibling; fuel bounds
   * that chain as in IsOnFuel.
   */
  function PlanFuel(dev: Device, op: Op, t: Table, unit: Value, fuel: nat): (r: Plan)
    decreases fuel
  {
    var d := dev.data;
    var missing := Err(AttributeError(OpName(op)));
    match dev.kind
    case Sensor => missing
    case BinarySensor => missing
    case Switch =>
      (match op
       case TurnOn => Turn(BinaryOn(d), true, SwitchToggle(d))
       case TurnOff => Turn(BinaryOn(d), false, SwitchToggle(d))
       case _ => missing)
    case AuxSwitch =>
      (match op
       case TurnOn => Turn(AuxOn(d), true, AuxToggle(d))
       case TurnOff => Turn(AuxOn(d), false, AuxToggle(d))
       case _ => missing)
    case LightSwitch =>
      (match op
       case TurnOn => Turn(AuxOn(d), true, AuxToggle(d))
       case TurnOff => Turn(AuxOn(d), false, AuxToggle(d))
       case SetBrightness(_) => DefaultSetterPlan(dev, BaseDevice.Brightness)
       case SetEffectByName(_) => DefaultSetterPlan(dev, BaseDevice.Effect)
       case SetEffectById(_) => DefaultSetterPlan(dev, BaseDevice.Effect)
       case SetRgbColor(_, _, _) => DefaultSetterPlan(dev, BaseDevice.RgbColor)
       case SetWhiteValue(_) => DefaultSetterPlan(dev, BaseDevice.WhiteValue)
       case _ => missing)
    case DimmableLight =>
      (match op
       case TurnOn => Turn(AuxOn(d), true, DimPlan(d, 100))
       case TurnOff => Turn(AuxOn(d), false, DimPlan(d, 0))
       case SetBrightness(level) => DimPlan(d, level)
       case SetEffectByName(_) => DefaultSetterPlan(dev, BaseDevice.Effect)
       case SetEffectById(_) => DefaultSetterPlan(dev, BaseDevice.Effect)
       case SetRgbColor(_, _, _) => DefaultSetterPlan(dev, BaseDevice.RgbColor)
       case SetWhiteValue(_) => DefaultSetterPlan(dev, BaseDevice.WhiteValue)
       case _ => missing)
    case ColorLight(m) =>
      (match op
       case TurnOn => Turn(AuxOn(d), true, EffectIdPlan(d, m, 1))
       case TurnOff => Turn(AuxOn(d), false, EffectIdPlan(d, m, 0))
       case SetBrightness(_) => DefaultSetterPlan(dev, BaseDevice.Brightness)
       case SetEffectByName(name) => EffectNamePlan(d, m, name)
       case SetEffectById(id) => EffectIdPlan(d, m, id)
       case SetRgbColor(_, _, _) => DefaultSetterPlan(dev, BaseDevice.RgbColor)
       case SetWhiteValue(_) => DefaultSetterPlan(dev, BaseDevice.WhiteValue)
       case _ => missing)
    case Thermostat =>
      (match op
       case SetTemperature(degrees) => ThermostatTempPlan(d, t, unit, degrees)
       case TurnOn => HeaterPlan(d, op, t, unit, fuel)
       case TurnOff => HeaterPlan(d, op, t, unit, fuel)
       case _ => missing)
    case IclLight =>
      (match op
       case TurnOn =>
         if StatusOn(d, "zoneStatus") then Ok(None) else IclCall([("zoneId", ZoneId(d)), ("zoneStatus", Str("on"))])
       case TurnOff =>
         if StatusOn(d, "zoneStatus") then IclCall([("zoneId", ZoneId(d)), ("zoneStatus", Str("off"))]) else Ok(None)
       case SetBrightness(level) =>
         if !(0 <= level <= 100) then Err(InvalidParameter)
         else IclCall([("zoneId", ZoneId(d)), ("dim_level", Decimal(level))])
       case SetEffectByName(_) => DefaultSetterPlan(dev, BaseDevice.Effect)
       case SetEffectById(_) => DefaultSetterPlan(dev, BaseDevice.Effect)
       case SetRgbColor(red, green, blue) => IclRgbPlan(dev, red, green, blue)
       case SetWhiteValue(white) =>
         if !Byte(white) then Err(InvalidParameter)
         else IclCall([("zoneId", ZoneId(d)), ("white_val", Decimal(white))])
       case _ => missing)
    case HeatPump =>
      (match op
       case TurnOn => if StatusOn(d, "heatpumpstatus") then Ok(None) else ModePlan(d, "heat")
       case TurnOff => if StatusOn(d, "heatpumpstatus") then ModePlan(d, "off") else Ok(None)
       case SetMode(mode) => ModePlan(d, mode)
       case SetTemperature(degrees) => HeatPumpTempPlan(d, unit, degrees)
       case _ => missing)
  }

  /** A thermostat's turn_on/turn_off: when its heater is not in the wanted state, the heater's own action. */
  function HeaterPlan(d: Record, op: Op, t: Table, unit: Value, fuel: nat): Plan
    requires op.TurnOn? || op.TurnOff?
    decreases fuel, 0
  {
    var heater :- Sibling(d, t, "_heater");
    if fuel == 0 then Err(RecursionError)
    else
      var on :- IsOnFuel(heater, t, fuel - 1);
      if on == op.TurnOn? then Ok(None) else PlanFuel(heater, op, t, unit, fuel - 1)
  }

  function PlanOf(dev: Device, op: Op, t: Table, unit: Value): Plan {
    PlanFuel(dev, op, t, unit, |t|)
  }

  // ---------------------------------------------------------------------
  // What the actions promise

  /** A switch sends set_<name> to turn on only when it is off, and to turn off only when it is on. */
  lemma SwitchToggles(d: Record, t: Table, unit: Value, fuel: nat)
    requires BinaryOn(d).Ok? && "name" in d && d["name"].Str?
    ensures PlanFuel(Device(Switch, d), TurnOn, t, unit, fuel)
         == Ok(if BinaryOn(d).value then None else Some(SetSwitch("set_" + d["name"].s)))
    ensures PlanFuel(Device(Switch, d), TurnOff, t, unit, fuel)
         == Ok(if BinaryOn(d).value then Some(SetSwitch("set_" + d["name"].s)) else None)
  {
  }

  /** A dimmer's turn_on is set_brightness(100) and its turn_off set_brightness(0), each only when needed. */
  lemma DimmerTurnsAreLevels(d: Record, t: Table, unit: Value, fuel: nat)
    requires AuxOn(d).Ok?
    ensures PlanFuel(Device(DimmableLight, d), TurnOn, t, unit, fuel)
         == if AuxOn(d).value then Ok(None) else PlanFuel(Device(DimmableLight, d), SetBrightness(100), t, unit, fuel)
    ensures PlanFuel(Device(DimmableLight, d), TurnOff, t, unit, fuel)
         == if AuxOn(d).value then PlanFuel(Device(DimmableLight, d), SetBrightness(0), t, unit, fuel) else Ok(None)
  {
  }

  /** A colour light's turn_on is effect 1 and its turn_off effect 0, each only when needed. */
  lemma ColorTurnsAreEffects(d: Record, m: ColorModel, t: Table, unit: Value, fuel: nat)
    requires AuxOn(d).Ok?
    ensures PlanFuel(Device(ColorLight(m), d), TurnOn, t, unit, fuel)
         == if AuxOn(d).value then Ok(None) else PlanFuel(Device(ColorLight(m), d), SetEffectById(1), t, unit, fuel)
    ensures PlanFuel(Device(ColorLight(m), d), TurnOff, t, unit, fuel)
         == if AuxOn(d).value then PlanFuel(Device(ColorLight(m), d), SetEffectById(0), t, unit, fuel) else Ok(None)
  {
  }

  /** A heat pump's turn_on is set_mode("heat") and its turn_off set_mode("off"), each only when needed. */
  lemma HeatPumpTurnsAreModes(d: Record, t: Table, unit: Value, fuel: nat)
    ensures PlanFuel(Device(HeatPump, d), TurnOn, t, unit, fuel)
         == if StatusOn(d, "heatpumpstatus") then Ok(None) else PlanFuel(Device(HeatPump, d), SetMode("heat"), t, unit, fuel)
    ensures PlanFuel(Device(HeatPump, d), TurnOff, t, unit, fuel)
         == if StatusOn(d, "heatpumpstatus") then PlanFuel(Device(HeatPump, d), SetMode("off"), t, unit, fuel) else Ok(None)
  {
  }

  /** A thermostat's turn_on and turn_off are its heater switch's. */
  lemma ThermostatTurnsHeater(d: Record, t: Table, unit: Value, fuel: nat)
    requires Sibling(d, t, "_heater").Ok? && Sibling(d, t, "_heater").value.kind == Switch
    requires BinaryOn(Sibling(d, t, "_heater").value.data).Ok?
    ensures PlanFuel(Device(Thermostat, d), TurnOn, t, unit, fuel + 1)
         == PlanFuel(Sibling(d, t, "_heater").value, TurnOn, t, unit, fuel)
    ensures PlanFuel(Device(Thermostat, d), TurnOff, t, unit, fuel + 1)
         == PlanFuel(Sibling(d, t, "_heater").value, TurnOff, t, unit, fuel)
  {
  }

  /**
   * A thermostat's set_temperature: out of range raises InvalidParameter;
   * in range it sends its own slot, whatever the fuel.
   */
  lemma ThermostatSetsItsSlot(d: Record, t: Table, unit: Value, fuel: nat, degrees: int)
    ensures !InRange(unit, degrees) ==> PlanFuel(Device(Thermostat, d), SetTemperature(degrees), t, unit, fuel) == Err(InvalidParameter)
    ensures InRange(unit, degrees) && TempSlot(d, t).Ok? ==>
      PlanFuel(Device(Thermostat, d), SetTemperature(degrees), t, unit, fuel) == Ok(Some(SetTemps([(TempSlot(d, t).value, Decimal(degrees))])))
  {
  }

  /** ICL brightness takes 0-100 and the white channel 0-255; anything else raises before a payload is built. */
  lemma IclLimits(d: Record, t: Table, unit: Value, fuel: nat, level: int)
    ensures PlanFuel(Device(IclLight, d), SetBrightness(level), t, unit, fuel).Ok? <==> 0 <= level <= 100
    ensures PlanFuel(Device(IclLight, d), SetWhiteValue(level), t, unit, fuel).Ok? <==> Byte(level)
    ensures !(0 <= level <= 100) ==> PlanFuel(Device(IclLight, d), SetBrightness(level), t, unit, fuel) == Err(InvalidParameter)
    ensures !Byte(level) ==> PlanFuel(Device(IclLight, d), SetWhiteValue(level), t, unit, fuel) == Err(InvalidParameter)
  {
  }
}
