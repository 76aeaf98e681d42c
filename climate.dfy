/** The Home Assistant climate entity over the dashboard's electric
    climatisation instrument: its HVAC mode, target temperature, the calls
    its setters make, and the set-up filter. */
module SkodaClimate {
  import opened Python
  import opened SkodaVehicle
  import opened SkodaDashboard
  import opened SkodaPlatform

  const ClimateComponent := "climate"

  /** Home Assistant's HVAC mode names and its "unknown" state. */
  const HvacCool := "cool"
  const HvacHeat := "heat"
  const HvacOff := "off"
  const StateUnknown := "unknown"

  /** `SUPPORT_HVAC`, which `hvac_modes` returns. */
  const HvacModes: seq<string> := [HvacCool, HvacHeat, HvacOff]

  /** What a setter asks of the instrument, and through it of the vehicle:
      a new target temperature, or starting or stopping the electric
      climatisation. */
  datatype Call = SetTarget(temperature: Json) | StartElectric | StopElectric

  /** `ElectricClimatisationClimate.hvac_mode`: the vehicle's
      `electric_climatisation`; an unbound instrument reads from None. */
  function InstrumentHvacMode(i: Inst): Outcome<Json> {
    if i.vehicle.None? then Raise(AttributeError) else Decode(ElectricClimatisation, i.vehicle.value.attrs)
  }

  /** `ElectricClimatisationClimate.target_temperature`: the vehicle's
      `climatisation_target_temperature`. */
  function InstrumentTargetTemperature(i: Inst): Outcome<Json> {
    if i.vehicle.None? then Raise(AttributeError) else Decode(ClimatisationTargetTemperature, i.vehicle.value.attrs)
  }

  /** `SkodaClimate.hvac_mode`: off for a falsy instrument mode, else the
      lookup of the mode in {"HEATING": heat, "COOLING": cool} with off as
      the default; a list or dictionary cannot be a key and raises TypeError. */
  function HvacMode(mode: Outcome<Json>): (r: Outcome<string>)
    ensures mode.Ok? && !Truthy(mode.value) ==> r == Ok(HvacOff)
    ensures r == Ok(HvacHeat) <==> mode == Ok(JStr("HEATING"))
    ensures r == Ok(HvacCool) <==> mode == Ok(JStr("COOLING"))
    ensures r.Ok? ==> r.value in HvacModes
    ensures r.Raise? <==> mode.Raise? || (Truthy(mode.value) && (mode.value.JList? || mode.value.JObj?))
  {
    var x :- mode;
    if !Truthy(x) then Ok(HvacOff)
    else
      match x
      case JList(_) => Raise(TypeError)
      case JObj(_) => Raise(TypeError)
      case JStr(s) => Ok(if s == "HEATING" then HvacHeat else if s == "COOLING" then HvacCool else HvacOff)
      case _ => Ok(HvacOff)
  }

  /** `SkodaClimate.target_temperature`: `float()` of a truthy instrument
      value, else the unknown state. */
  function TargetTemperature(t: Outcome<Json>): (r: Outcome<Json>)
    ensures t.Ok? && !Truthy(t.value) ==> r == Ok(JStr(StateUnknown))
    ensures t.Ok? && t.value.JInt? && t.value.i != 0 ==> r == Ok(JReal(t.value.i as real))
    ensures r.Ok? ==> r.value.JReal? || r.value == JStr(StateUnknown)
    ensures r.Raise? ==> t.Raise? || PyFloat(t.value).Raise?
  {
    var x :- t;
    if Truthy(x) then
      var f :- PyFloat(x);
      Ok(JReal(f))
    else Ok(JStr(StateUnknown))
  }

  /** `async_set_temperature`: the `temperature` keyword, forwarded only when truthy. */
  function SetTemperature(kwargs: Kw): (r: Option<Call>)
    ensures r.Some? <==> "temperature" in kwargs && Truthy(kwargs["temperature"])
    ensures r.Some? ==> r.value == SetTarget(kwargs["temperature"])
  {
    var t := KwGet(kwargs, "temperature", JNull);
    if Truthy(t) then Some(SetTarget(t)) else None
  }

  /** `async_set_hvac_mode`, followed through the instrument's
      `set_hvac_mode`: off stops the electric climatisation, heat starts it,
      and any other mode makes no call. */
  function SetHvacMode(mode: string): (r: Option<Call>)
    ensures r == Some(StopElectric) <==> mode == HvacOff
    ensures r == Some(StartElectric) <==> mode == HvacHeat
    ensures r.None? <==> mode != HvacOff && mode != HvacHeat
  {
    if mode == HvacOff then Some(StopElectric)
    else if mode == HvacHeat then Some(StartElectric)
    else None
  }

  /** Of the modes offered, cool is the one that does nothing. */
  lemma OfferedModesThatAct()
    ensures forall m :: m in HvacModes ==> (SetHvacMode(m).None? <==> m == HvacCool)
  {
  }

  /** The electric climatisation property is a boolean, never "HEATING" or
      "COOLING": the entity reports off whatever the vehicle does, and
      choosing the reported mode again stops the climatisation. */
  lemma ElectricClimateReportsOff(v: Vehicle, config: Kw)
    ensures var i := Bound(Def(ElectricClimatisation, ClimateKind), v, config);
      InstrumentHvacMode(i).Ok? ==>
        HvacMode(InstrumentHvacMode(i)) == Ok(HvacOff) && SetHvacMode(HvacOff) == Some(StopElectric)
  {
    var i := Bound(Def(ElectricClimatisation, ClimateKind), v, config);
    assert i.vehicle == Some(v);
    assert InstrumentHvacMode(i) == ElectricClimatisationValue(v.attrs);
  }

  /** A vehicle without the `vehicleEmanager` resource has no target
      temperature: the decoder's default 0 is falsy and the entity reports unknown. */
  lemma NoEmanagerTargetUnknown(v: Vehicle, config: Kw)
    requires "vehicleEmanager" !in v.attrs
    ensures TargetTemperature(InstrumentTargetTemperature(Bound(Def(ElectricClimatisation, ClimateKind), v, config))) ==
      Ok(JStr(StateUnknown))
  {
    var i := Bound(Def(ElectricClimatisation, ClimateKind), v, config);
    assert i.vehicle == Some(v);
    assert Path(v.attrs, ["vehicleEmanager", "rpc", "settings", "targetTemperature"], EmptyObj, JInt(0)) == Ok(JInt(0));
  }

  /** The catalogue's only climate instrument is the electric climatisation. */
  lemma CatalogueHasOneClimate()
    ensures forall d :: d in Catalogue && d.kind.ClimateKind? ==> d.attr == ElectricClimatisation
  {
    DevicesHaveOneClimate();
    SensorsAreNotClimates();
    BinarySensorsAreNotClimates();
  }

  lemma DevicesHaveOneClimate()
    ensures forall d :: d in Devices && d.kind.ClimateKind? ==> d.attr == ElectricClimatisation
  {
  }

  lemma SensorsAreNotClimates()
    ensures forall d :: d in Sensors ==> !d.kind.ClimateKind?
  {
    SensorsAreNotBinarySensors();
  }

  lemma BinarySensorsAreNotClimates()
    ensures forall d :: d in BinarySensors ==> !d.kind.ClimateKind?
  {
    BinarySensorsReverseBarriers();
  }

  /** Set-up creates climate entities for exactly the climate instruments
      whose attribute is in the resources list; on a dashboard that is at
      most the electric climatisation. */
  lemma ClimateSetup(options: Kw, data: Kw, instruments: seq<Inst>)
    requires ResourcesKey in options && options[ResourcesKey].JList?
    requires forall x :: x in instruments ==> x.def in Catalogue
    ensures SetupEntities(true, options, data, instruments, ClimateComponent).Ok?
    ensures forall x :: x in SetupEntities(true, options, data, instruments, ClimateComponent).value ==>
      x.def == Def(ElectricClimatisation, ClimateKind)
  {
    SetupEntitiesFromOptions(options, data, instruments, ClimateComponent);
    var kept := SetupEntities(true, options, data, instruments, ClimateComponent).value;
    forall x | x in kept
      ensures x.def == Def(ElectricClimatisation, ClimateKind)
    {
      assert x in instruments && Component(x.def.kind) == ClimateComponent;
      ComponentIdentifiesKind(x.def.kind);
      CatalogueHasOneClimate();
    }
  }
}
