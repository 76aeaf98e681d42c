/** The instrument model of skoda/dashboardskoda.py: the fixed catalogue of
    sensors, binary sensors, switches, the climate entity, the position
    tracker and the two locks; how each instrument turns the vehicle's
    properties into its state and text; and `Dashboard`, which keeps the
    catalogue entries the vehicle supports. */
module SkodaDashboard {
  import opened Python
  import opened SkodaVehicle

  /** The instrument classes of the catalogue, with their constructor arguments. */
  datatype Kind =
    | SensorKind(unit: string)
    | BinarySensorKind(deviceClass: DeviceClass, reverse: bool)
      /** A switch; `Some(key)` when its `configurate` reads `spin` and the duration under `key`. */
    | SwitchKind(durationKey: Option<string>)
    | ClimateKind
    | PositionKind
    | DoorLockKind
    | TrunkLockKind

  /** The device classes that binary sensors name: those of the catalogue,
      and `safety`, which `BinarySensor.str_state` also knows. */
  datatype DeviceClass = Plug | Light | Power | Lock | Door | Window | Safety

  /** The Home Assistant name of a device class. */
  function ClassName(c: DeviceClass): string {
    match c
    case Plug => "plug"
    case Light => "light"
    case Power => "power"
    case Lock => "lock"
    case Door => "door"
    case Window => "window"
    case Safety => "safety"
  }

  /** One entry of `create_instruments()`: the vehicle attribute and the instrument class. */
  datatype Def = Def(attr: Attr, kind: Kind)

  /** The Home Assistant platform each instrument class belongs to. */
  function Component(k: Kind): string {
    match k
    case SensorKind(_) => "sensor"
    case BinarySensorKind(_, _) => "binary_sensor"
    case SwitchKind(_) => "switch"
    case ClimateKind => "climate"
    case PositionKind => "device_tracker"
    case DoorLockKind | TrunkLockKind => "lock"
  }

  const HeatingDurationKey := "combustionengineheatingduration"
  const ClimatisationDurationKey := "combustionengineclimatisationduration"

  /** The trackers, locks, switches and the climate entity of `create_instruments()`. */
  const Devices: seq<Def> := [
    Def(Position, PositionKind),
    Def(DoorLocked, DoorLockKind),
    Def(TrunkLocked, TrunkLockKind),
    Def(RequestInProgress, SwitchKind(None)),
    Def(ElectricClimatisation, SwitchKind(None)),
    Def(ElectricClimatisation, ClimateKind),
    Def(CombustionClimatisation, SwitchKind(Some(ClimatisationDurationKey))),
    Def(Charging, SwitchKind(None)),
    Def(WindowHeater, SwitchKind(None)),
    Def(CombustionEngineHeating, SwitchKind(Some(HeatingDurationKey)))
  ]

  /** The sensors of `create_instruments()`. */
  const Sensors: seq<Def> := [
    Def(Distance, SensorKind("km")),
    Def(BatteryLevel, SensorKind("%")),
    Def(AdblueLevel, SensorKind("km")),
    Def(FuelLevel, SensorKind("%")),
    Def(ServiceInspection, SensorKind("")),
    Def(OilInspection, SensorKind("")),
    Def(LastConnected, SensorKind("")),
    Def(ChargingTimeLeft, SensorKind("min")),
    Def(ElectricRange, SensorKind("km")),
    Def(CombustionRange, SensorKind("km")),
    Def(CombinedRange, SensorKind("km")),
    Def(ChargeMaxAmpere, SensorKind("A")),
    Def(ClimatisationTargetTemperature, SensorKind("°C")),
    Def(TripLast(AverageSpeed), SensorKind("km/h")),
    Def(TripLast(AverageElectricConsumption), SensorKind("kWh/100 km")),
    Def(TripLast(AverageFuelConsumption), SensorKind("l/100 km")),
    Def(TripLast(Duration), SensorKind("min")),
    Def(TripLast(Length), SensorKind("km")),
    Def(TripLast(Recuperation), SensorKind("kWh/100 km")),
    Def(TripLast(AverageAuxillaryConsumption), SensorKind("kWh/100 km")),
    Def(TripLast(TotalElectricConsumption), SensorKind("kWh/100 km")),
    Def(CombustionEngineHeatingventilationStatus, SensorKind(""))
  ]

  /** The binary sensors of `create_instruments()`. */
  const BinarySensors: seq<Def> := [
    Def(ExternalPower, BinarySensorKind(Plug, false)),
    Def(ParkingLight, BinarySensorKind(Light, false)),
    Def(ClimatisationWithoutExternalPower, BinarySensorKind(Power, false)),
    Def(DoorLocked, BinarySensorKind(Lock, true)),
    Def(Closed(DoorLeftFront), BinarySensorKind(Door, true)),
    Def(Closed(DoorRightFront), BinarySensorKind(Door, true)),
    Def(Closed(DoorLeftBack), BinarySensorKind(Door, true)),
    Def(Closed(DoorRightBack), BinarySensorKind(Door, true)),
    Def(TrunkLocked, BinarySensorKind(Lock, true)),
    Def(Closed(Trunk), BinarySensorKind(Door, true)),
    Def(SunroofClosed, BinarySensorKind(Window, true)),
    Def(WindowsClosed, BinarySensorKind(Window, true)),
    Def(Closed(WindowLeftFront), BinarySensorKind(Window, true)),
    Def(Closed(WindowLeftBack), BinarySensorKind(Window, true)),
    Def(Closed(WindowRightFront), BinarySensorKind(Window, true)),
    Def(Closed(WindowRightBack), BinarySensorKind(Window, true))
  ]

  /** `create_instruments()`, in order. */
  const Catalogue: seq<Def> := Devices + Sensors + BinarySensors

  /** The device classes whose binary sensors report the negated vehicle state. */
  predicate IsBarrierClass(c: DeviceClass) {
    c == Lock || c == Door || c == Window
  }

  lemma DevicesAreNotBinarySensors()
    ensures forall d :: d in Devices ==> !d.kind.BinarySensorKind?
  {
  }

  lemma SensorsAreNotBinarySensors()
    ensures forall d :: d in Sensors ==> d.kind.SensorKind?
  {
  }

  lemma BinarySensorsReverseBarriers()
    ensures forall d :: d in BinarySensors ==>
      d.kind.BinarySensorKind? && (d.kind.reverse <==> IsBarrierClass(d.kind.deviceClass))
  {
  }

  /** In the catalogue, a binary sensor is reversed exactly when its device
      class is lock, door or window. */
  lemma CatalogueReversesBarriers()
    ensures forall d :: d in Catalogue && d.kind.BinarySensorKind? ==>
      (d.kind.reverse <==> IsBarrierClass(d.kind.deviceClass))
  {
    DevicesAreNotBinarySensors();
    SensorsAreNotBinarySensors();
    BinarySensorsReverseBarriers();
  }

  // ---------------------------------------------------------------------
  // Support and configuration

  /** `Instrument.is_supported`: the vehicle's `is_<attr>_supported`, or False
      when `hasattr` finds no such predicate (it does not exist, or reading it
      raises AttributeError). Any other exception propagates. */
  function IsSupported(a: Attr, attrs: Attrs): (r: Outcome<Json>)
    ensures Support(a, attrs).None? ==> r == Ok(JBool(false))
    ensures r.Raise? ==> r.exc != AttributeError && Support(a, attrs) == Some(r)
    ensures r.Ok? && Truthy(r.value) ==> Support(a, attrs) == Some(r)
  {
    match Support(a, attrs)
    case None => Ok(JBool(false))
    case Some(o) => if o == Raise(AttributeError) then Ok(JBool(false)) else o
  }

  /** What `Instrument.setup` returns: whether the instrument is supported. */
  function SetupOutcome(a: Attr, attrs: Attrs): Outcome<bool> {
    match IsSupported(a, attrs)
    case Ok(s) => Ok(Truthy(s))
    case Raise(e) => Raise(e)
  }

  /** Setup succeeds with True exactly when the vehicle's support predicate
      exists and answers a truthy value, and raises exactly when the
      predicate raises something other than AttributeError. */
  lemma SetupTable(a: Attr, attrs: Attrs)
    ensures SetupOutcome(a, attrs) == Ok(true) <==>
      Support(a, attrs).Some? && Support(a, attrs).value.Ok? && Truthy(Support(a, attrs).value.value)
    ensures SetupOutcome(a, attrs).Raise? <==>
      Support(a, attrs).Some? && Support(a, attrs).value.Raise? && Support(a, attrs).value.exc != AttributeError
  {
  }

  /** The units a Scandinavian-mile configuration renames. */
  const MileUnits: map<string, string> := map[
    "km" := "mil", "km/h" := "mil/h", "l/100 km" := "l/100 mil", "kWh/100 km" := "kWh/100 mil"]

  /** `Sensor.configurate`: the unit after configuration. */
  function ConfiguredUnit(unit: string, config: Kw): string {
    if unit != [] && Truthy(KwGet(config, "scandinavian_miles", JBool(false))) then
      if unit == "km" then "mil"
      else if unit == "km/h" then "mil/h"
      else if unit == "l/100 km" then "l/100 mil"
      else if unit == "kWh/100 km" then "kWh/100 mil"
      else unit
    else unit
  }

  /** The renaming is exactly the mile table, applied only when
      `scandinavian_miles` is truthy. */
  lemma UnitRenameTable(unit: string, config: Kw)
    ensures ConfiguredUnit(unit, config) ==
      if Truthy(KwGet(config, "scandinavian_miles", JBool(false))) && unit in MileUnits
      then MileUnits[unit] else unit
  {
  }

  /** The imperial `miles` flag plays no part in the unit. */
  lemma MilesFlagIgnored(unit: string, config: Kw, x: Json)
    ensures ConfiguredUnit(unit, config["miles" := x]) == ConfiguredUnit(unit, config)
  {
    assert KwGet(config["miles" := x], "scandinavian_miles", JBool(false)) ==
      KwGet(config, "scandinavian_miles", JBool(false));
  }

  /** Configuring twice renames no further: no renamed unit is itself renamed. */
  lemma ConfiguredUnitIdempotent(unit: string, config: Kw)
    ensures ConfiguredUnit(ConfiguredUnit(unit, config), config) == ConfiguredUnit(unit, config)
  {
    UnitRenameTable(unit, config);
    UnitRenameTable(ConfiguredUnit(unit, config), config);
  }

  /** An instrument's mutable part, as `setup`/`configurate` leave it. */
  datatype Inst = Inst(def: Def, vehicle: Option<Vehicle>, unit: string, spin: Option<Json>, duration: Option<Json>)

  /** A freshly constructed instrument of the catalogue. */
  function Fresh(d: Def): Inst {
    Inst(d, None, if d.kind.SensorKind? then d.kind.unit else "", None, None)
  }

  /** `configurate(**config)` of each instrument class. */
  function Configure(i: Inst, config: Kw): (r: Inst)
    ensures r.def == i.def && r.vehicle == i.vehicle
    ensures !i.def.kind.SensorKind? ==> r.unit == i.unit
    ensures i.def.kind.SensorKind? ==> r.spin == i.spin && r.duration == i.duration
    ensures !(i.def.kind.DoorLockKind? || (i.def.kind.SwitchKind? && i.def.kind.durationKey.Some?)) ==> r.spin == i.spin
  {
    match i.def.kind
    case SensorKind(_) => i.(unit := ConfiguredUnit(i.unit, config))
    case DoorLockKind => i.(spin := Some(KwGet(config, "spin", JStr(""))))
    case SwitchKind(Some(k)) =>
      i.(spin := Some(KwGet(config, "spin", JStr(""))), duration := Some(KwGet(config, k, JInt(30))))
    case _ => i
  }

  /** A catalogue entry as it stands on the dashboard of `v`: bound to the
      vehicle and configured. */
  function Bound(d: Def, v: Vehicle, config: Kw): Inst {
    Configure(Fresh(d).(vehicle := Some(v)), config)
  }

  /** An instrument as a mutable object, as `Dashboard` creates and sets it up. */
  class Instrument {
    const def: Def
    var vehicle: Option<Vehicle>
    var unit: string
    var spin: Option<Json>
    var duration: Option<Json>

    function View(): Inst
      reads this
    {
      Inst(def, vehicle, unit, spin, duration)
    }

    constructor (d: Def)
      ensures View() == Fresh(d)
    {
      def := d;
      vehicle := None;
      unit := if d.kind.SensorKind? then d.kind.unit else "";
      spin := None;
      duration := None;
    }

    /** `configurate(**config)`. */
    method Configurate(config: Kw)
      modifies this
      ensures View() == Configure(old(View()), config)
    {
      match def.kind {
        case SensorKind(_) =>
          unit := ConfiguredUnit(unit, config);
        case DoorLockKind =>
          spin := Some(KwGet(config, "spin", JStr("")));
        case SwitchKind(key) =>
          if key.Some? {
            spin := Some(KwGet(config, "spin", JStr("")));
            duration := Some(KwGet(config, key.value, JInt(30)));
          }
        case _ =>
      }
    }

    /** `setup(vehicle, **config)`: binds the vehicle, and configures the
        instrument only when it is supported. */
    method Setup(v: Vehicle, config: Kw) returns (r: Outcome<bool>)
      modifies this
      ensures r == SetupOutcome(def.attr, v.attrs)
      ensures r == Ok(true) ==> View() == Configure(old(View()).(vehicle := Some(v)), config)
      ensures r != Ok(true) ==> View() == old(View()).(vehicle := Some(v))
    {
      vehicle := Some(v);
      r := SetupOutcome(def.attr, v.attrs);
      if r == Ok(true) {
        Configurate(config);
      }
    }
  }

  // ---------------------------------------------------------------------
  // The dashboard

  /** `[i for i in cat if i.setup(vehicle, **config)]`, with `setup` giving
      each attribute's setup answer: the entries answered True, configured, in
      order; the first exception raised aborts the whole list. */
  function Kept(cat: seq<Def>, setup: Attr -> Outcome<bool>, v: Vehicle, config: Kw): Outcome<seq<Inst>>
    decreases |cat|
  {
    if cat == [] then Ok([])
    else
      var keep :- setup(cat[0].attr);
      var rest :- Kept(cat[1..], setup, v, config);
      Ok(if keep then [Bound(cat[0], v, config)] + rest else rest)
  }

  /** The dashboard of vehicle `v` over a catalogue. */
  function Dashboard(cat: seq<Def>, v: Vehicle, config: Kw): Outcome<seq<Inst>> {
    Kept(cat, a => SetupOutcome(a, v.attrs), v, config)
  }

  /** Every kept instrument is an entry answered True, configured. */
  lemma {:induction false} KeptSound(cat: seq<Def>, setup: Attr -> Outcome<bool>, v: Vehicle, config: Kw)
    ensures Kept(cat, setup, v, config).Ok? ==> |Kept(cat, setup, v, config).value| <= |cat|
    ensures Kept(cat, setup, v, config).Ok? ==>
      forall x :: x in Kept(cat, setup, v, config).value ==>
        x.def in cat && x == Bound(x.def, v, config) && setup(x.def.attr) == Ok(true)
    decreases |cat|
  {
    if cat != [] {
      KeptSound(cat[1..], setup, v, config);
      assert forall d :: d in cat[1..] ==> d in cat;
    }
  }

  /** Every entry answered True is kept. */
  lemma {:induction false} KeptComplete(cat: seq<Def>, setup: Attr -> Outcome<bool>, v: Vehicle, config: Kw)
    ensures Kept(cat, setup, v, config).Ok? ==>
      forall d :: d in cat && setup(d.attr) == Ok(true) ==> Bound(d, v, config) in Kept(cat, setup, v, config).value
    decreases |cat|
  {
    if cat != [] {
      KeptComplete(cat[1..], setup, v, config);
      assert forall d :: d in cat ==> d == cat[0] || d in cat[1..];
    }
  }

  /** The list fails exactly when some entry's setup raises. */
  lemma {:induction false} KeptFailsIffSomeSetupRaises(cat: seq<Def>, setup: Attr -> Outcome<bool>, v: Vehicle, config: Kw)
    ensures Kept(cat, setup, v, config).Raise? <==> exists d :: d in cat && setup(d.attr).Raise?
    decreases |cat|
  {
    if cat != [] {
      KeptFailsIffSomeSetupRaises(cat[1..], setup, v, config);
      assert forall d :: d in cat ==> d == cat[0] || d in cat[1..];
    }
  }

  /** A dashboard holds exactly the supported catalogue entries, configured,
      and fails exactly when a support predicate raises something other than
      AttributeError. */
  lemma DashboardIsSupportedEntries(cat: seq<Def>, v: Vehicle, config: Kw)
    ensures Dashboard(cat, v, config).Ok? ==>
      forall x :: x in Dashboard(cat, v, config).value ==>
        x.def in cat && x == Bound(x.def, v, config) && SetupOutcome(x.def.attr, v.attrs) == Ok(true)
    ensures Dashboard(cat, v, config).Ok? ==>
      forall d :: d in cat && SetupOutcome(d.attr, v.attrs) == Ok(true) ==>
        Bound(d, v, config) in Dashboard(cat, v, config).value
    ensures Dashboard(cat, v, config).Raise? <==>
      exists d :: d in cat && SetupOutcome(d.attr, v.attrs).Raise?
  {
    var setup := a => SetupOutcome(a, v.attrs);
    KeptSound(cat, setup, v, config);
    KeptComplete(cat, setup, v, config);
    KeptFailsIffSomeSetupRaises(cat, setup, v, config);
  }

  /** `combustion_engine_heatingventilation_status` is in the catalogue, but
      `Vehicle` has no support predicate for it, so no dashboard shows it. */
  lemma HeatingVentilationStatusNeverShown(v: Vehicle, config: Kw)
    ensures Def(CombustionEngineHeatingventilationStatus, SensorKind("")) in Catalogue
    ensures Dashboard(Catalogue, v, config).Ok? ==>
      forall x :: x in Dashboard(Catalogue, v, config).value ==>
        x.def.attr != CombustionEngineHeatingventilationStatus
  {
    assert Sensors[21] == Def(CombustionEngineHeatingventilationStatus, SensorKind(""));
    assert SetupOutcome(CombustionEngineHeatingventilationStatus, v.attrs) == Ok(false);
    KeptSound(Catalogue, a => SetupOutcome(a, v.attrs), v, config);
  }

  /** The views of a list of instrument objects. */
  function Views(s: seq<Instrument>): seq<Inst>
    reads s
    decreases |s|
  {
    if s == [] then [] else [s[0].View()] + Views(s[1..])
  }

  lemma {:induction false} ViewsConcat(s: seq<Instrument>, t: seq<Instrument>)
    ensures Views(s + t) == Views(s) + Views(t)
    decreases |s|
  {
    if s != [] {
      assert (s + t)[1..] == s[1..] + t;
      ViewsConcat(s[1..], t);
    } else {
      assert s + t == t;
    }
  }

  lemma {:induction false} ViewsAppend(s: seq<Instrument>, i: Instrument)
    ensures Views(s + [i]) == Views(s) + [i.View()]
    decreases |s|
  {
    if s != [] {
      assert (s + [i])[1..] == s[1..] + [i];
      ViewsAppend(s[1..], i);
    }
  }

  /** After the first `i` entries of `cat`, `views` holds what the
      comprehension has kept so far: the whole list is `views` followed by
      whatever the remaining entries give. */
  predicate Progress(cat: seq<Def>, i: nat, setup: Attr -> Outcome<bool>, v: Vehicle, config: Kw, views: seq<Inst>)
    requires i <= |cat|
  {
    match Kept(cat[i..], setup, v, config)
    case Ok(rest) => Kept(cat, setup, v, config) == Ok(views + rest)
    case Raise(e) => Kept(cat, setup, v, config) == Raise(e)
  }

  lemma ProgressStart(cat: seq<Def>, setup: Attr -> Outcome<bool>, v: Vehicle, config: Kw)
    ensures Progress(cat, 0, setup, v, config, [])
  {
    assert cat[0..] == cat;
    if Kept(cat, setup, v, config).Ok? {
      assert [] + Kept(cat, setup, v, config).value == Kept(cat, setup, v, config).value;
    }
  }

  lemma ProgressStep(cat: seq<Def>, i: nat, setup: Attr -> Outcome<bool>, v: Vehicle, config: Kw, views: seq<Inst>)
    requires i < |cat| && Progress(cat, i, setup, v, config, views) && setup(cat[i].attr).Ok?
    ensures Progress(cat, i + 1, setup, v, config,
      if setup(cat[i].attr).value then views + [Bound(cat[i], v, config)] else views)
  {
    assert cat[i..][0] == cat[i] && cat[i..][1..] == cat[i + 1..];
    var rest := Kept(cat[i + 1..], setup, v, config);
    if rest.Ok? && setup(cat[i].attr).value {
      assert views + ([Bound(cat[i], v, config)] + rest.value) == (views + [Bound(cat[i], v, config)]) + rest.value;
    }
  }

  lemma ProgressRaise(cat: seq<Def>, i: nat, setup: Attr -> Outcome<bool>, v: Vehicle, config: Kw, views: seq<Inst>)
    requires i < |cat| && Progress(cat, i, setup, v, config, views) && setup(cat[i].attr).Raise?
    ensures Kept(cat, setup, v, config) == Raise(setup(cat[i].attr).exc)
  {
    assert cat[i..][0] == cat[i];
  }

  lemma ProgressEnd(cat: seq<Def>, setup: Attr -> Outcome<bool>, v: Vehicle, config: Kw, views: seq<Inst>)
    requires Progress(cat, |cat|, setup, v, config, views)
    ensures Kept(cat, setup, v, config) == Ok(views)
  {
    assert cat[|cat|..] == [];
    assert views + [] == views;
  }

  /** One step of the list comprehension: a new instrument for `d`, set up
      against the vehicle. */
  method SetUpOne(d: Def, v: Vehicle, config: Kw) returns (inst: Instrument, keep: Outcome<bool>)
    ensures fresh(inst)
    ensures keep == SetupOutcome(d.attr, v.attrs)
    ensures keep == Ok(true) ==> inst.View() == Bound(d, v, config)
  {
    inst := new Instrument(d);
    keep := inst.Setup(v, config);
  }

  /** The list comprehension of `Dashboard`: creates an instrument for each
      entry of `cat`, sets it up against the vehicle and keeps those whose
      setup returned True. */
  method SetUpAll(cat: seq<Def>, v: Vehicle, config: Kw) returns (r: Outcome<seq<Instrument>>)
    ensures r.Raise? ==> Dashboard(cat, v, config) == Raise(r.exc)
    ensures r.Ok? ==> Dashboard(cat, v, config) == Ok(Views(r.value))
  {
    ghost var setup := a => SetupOutcome(a, v.attrs);
    var acc: seq<Instrument> := [];
    ghost var views: seq<Inst> := [];
    var i := 0;
    ProgressStart(cat, setup, v, config);
    while i < |cat|
      invariant 0 <= i <= |cat|
      invariant Views(acc) == views
      invariant Progress(cat, i, setup, v, config, views)
    {
      var inst, keep := SetUpOne(cat[i], v, config);
      assert keep == setup(cat[i].attr);
      if keep.Raise? {
        ProgressRaise(cat, i, setup, v, config, views);
        return Raise(keep.exc);
      }
      ProgressStep(cat, i, setup, v, config, views);
      if keep.value {
        ViewsAppend(acc, inst);
        acc := acc + [inst];
        views := views + [inst.View()];
      }
      i := i + 1;
    }
    ProgressEnd(cat, setup, v, config, views);
    r := Ok(acc);
  }

  /** `Dashboard(vehicle, **config).instruments`. */
  method NewDashboard(v: Vehicle, config: Kw) returns (r: Outcome<seq<Instrument>>)
    ensures r.Raise? ==> Dashboard(Catalogue, v, config) == Raise(r.exc)
    ensures r.Ok? ==> Dashboard(Catalogue, v, config) == Ok(Views(r.value))
  {
    r := SetUpAll(Catalogue, v, config);
  }

  // ---------------------------------------------------------------------
  // Instrument states

  /** `Instrument.state`: the vehicle property named by the attribute, or
      `vehicle.get_attr(attr)` when `hasattr` finds no such property.
      `getAttr` stands for that path lookup into the raw dictionary. */
  function InstrumentState(a: Attr, attrs: Attrs, getAttr: (Attrs, string) -> Outcome<Json>): (r: Outcome<Json>)
    ensures Read(a, attrs).Some? && Read(a, attrs).value != Raise(AttributeError) ==> r == Decode(a, attrs)
    ensures r != getAttr(attrs, Name(a)) ==> Read(a, attrs).Some? && r == Decode(a, attrs) && r != Raise(AttributeError)
  {
    match Read(a, attrs)
    case None => getAttr(attrs, Name(a))
    case Some(o) => if o == Raise(AttributeError) then getAttr(attrs, Name(a)) else o
  }

  /** `Sensor.state`: a truthy value is divided by 10 when the unit is `mil` or `mil/h`. */
  function SensorState(unit: string, val: Outcome<Json>): (r: Outcome<Json>)
    ensures unit != "mil" && unit != "mil/h" ==> r == val
    ensures val.Ok? && !Truthy(val.value) ==> r == val
    ensures val.Raise? ==> r == val
  {
    var x :- val;
    if Truthy(x) && unit in ["mil", "mil/h"] then DivideBy10(x) else Ok(x)
  }

  /** `Sensor.str_state`: the state's text, followed by a space and the unit
      when there is one. `show` stands for Python's `str()`. */
  function SensorText(unit: string, state: Json, show: Json -> string): (r: string)
    ensures unit == [] ==> r == show(state)
    ensures unit != [] ==>
      (|r| == |show(state)| + 1 + |unit| && r[..|show(state)|] == show(state) && r[|show(state)|..] == " " + unit)
  {
    if unit != [] then show(state) + " " + unit else show(state)
  }

  /** `BinarySensor.state`: booleans and lists become their truth value
      (negated for a reversed sensor); a string is on unless it is "Normal";
      anything else passes through. */
  function BinaryState(val: Json, reverse: bool): (r: Json)
    ensures val.JBool? || val.JList? || val.JStr? ==> r.JBool?
    ensures !(val.JBool? || val.JList? || val.JStr?) ==> r == val
    ensures !reverse && (val.JBool? || val.JList?) ==> r == JBool(Truthy(val))
  {
    if val.JBool? || val.JList? then JBool(if reverse then !Truthy(val) else Truthy(val))
    else if val.JStr? then JBool(val.s != "Normal")
    else val
  }

  /** A reversed sensor negates a boolean; a plain one passes it through; the
      string "Normal" is off whatever the direction; null stays null. */
  lemma BinaryStatePolarity(b: bool, reverse: bool)
    ensures BinaryState(JBool(b), reverse) == JBool(b != reverse)
    ensures BinaryState(JStr("Normal"), reverse) == JBool(false)
    ensures BinaryState(JNull, reverse) == JNull
    ensures BinaryState(BinaryState(JBool(b), reverse), reverse) == JBool(b)
  {
  }

  /** `BinarySensor.str_state`. */
  function BinaryText(deviceClass: DeviceClass, state: Json): (r: string)
    ensures r == "?" ==> state == JNull && !IsBarrierClass(deviceClass) && deviceClass != Safety && deviceClass != Plug
    ensures (deviceClass == Light || deviceClass == Power) && state == JNull ==> r == "?"
  {
    if deviceClass == Door || deviceClass == Window then (if Truthy(state) then "Open" else "Closed")
    else if deviceClass == Lock then (if Truthy(state) then "Unlocked" else "Locked")
    else if deviceClass == Safety then (if Truthy(state) then "Warning!" else "OK")
    else if deviceClass == Plug then (if Truthy(state) then "Charging" else "Plug removed")
    else if state == JNull then "?"
    else if Truthy(state) then "On" else "Off"
  }

  /** Through a reversed door, window or lock sensor, the text shows the
      vehicle's own closed/locked boolean the right way round; these classes
      never answer "?". */
  lemma BarrierTextMatchesVehicle(deviceClass: DeviceClass, closed: bool)
    requires IsBarrierClass(deviceClass)
    ensures BinaryText(deviceClass, BinaryState(JBool(closed), true)) ==
      if deviceClass == Lock then (if closed then "Locked" else "Unlocked")
      else (if closed then "Closed" else "Open")
    ensures BinaryText(deviceClass, JNull) != "?"
  {
  }

  /** `Position.state`: latitude and longitude ("?" when absent), then
      timestamp, speed and heading (None when absent), of the position
      property or an empty dictionary when it is falsy. */
  function PositionState(val: Outcome<Json>): (r: Outcome<Json>)
    ensures val.Ok? && !Truthy(val.value) ==> r == Ok(JList([JStr("?"), JStr("?"), JNull, JNull, JNull]))
    ensures val.Ok? && val.value.JObj? ==>
      (r.Ok? && r.value.JList? && |r.value.items| == 5 &&
       ("lat" in val.value.fields ==> r.value.items[0] == val.value.fields["lat"]) &&
       ("lng" in val.value.fields ==> r.value.items[1] == val.value.fields["lng"]))
    ensures val.Ok? && Truthy(val.value) && !val.value.JObj? ==> r == Raise(AttributeError)
  {
    var x :- val;
    var s := if Truthy(x) then x else EmptyObj;
    if !s.JObj? then Raise(AttributeError)
    else
      var m := s.fields;
      Ok(JList([KwGet(m, "lat", JStr("?")), KwGet(m, "lng", JStr("?")),
                KwGet(m, "timestamp", JNull), KwGet(m, "speed", JNull), KwGet(m, "heading", JNull)]))
  }

  /** `DoorLock.str_state` and `TrunkLock.str_state`. */
  function LockText(state: Json): (r: string)
    ensures r == "Locked" <==> Truthy(state)
    ensures r == "Locked" || r == "Unlocked"
  {
    if Truthy(state) then "Locked" else "Unlocked"
  }

  /** The `state` of an instrument, by instrument class. The switches and
      locks read their vehicle property directly; the others go through
      `Instrument.state`. An instrument not yet bound to a vehicle reads from
      None and raises AttributeError. */
  function State(i: Inst, getAttr: (Attrs, string) -> Outcome<Json>): Outcome<Json> {
    if i.vehicle.None? then Raise(AttributeError)
    else
      var a := i.def.attr;
      var attrs := i.vehicle.value.attrs;
      match i.def.kind
      case SensorKind(_) => SensorState(i.unit, InstrumentState(a, attrs, getAttr))
      case BinarySensorKind(_, rev) =>
        var x :- InstrumentState(a, attrs, getAttr);
        Ok(BinaryState(x, rev))
      case SwitchKind(_) => Decode(a, attrs)
      case ClimateKind => InstrumentState(a, attrs, getAttr)
      case PositionKind => PositionState(InstrumentState(a, attrs, getAttr))
      case DoorLockKind | TrunkLockKind => Decode(a, attrs)
  }

  /** On a dashboard, a binary sensor's state is its vehicle reading passed
      through `BinarySensor.state` with the catalogue's direction. */
  lemma BoundBinarySensorState(d: Def, v: Vehicle, config: Kw, getAttr: (Attrs, string) -> Outcome<Json>)
    requires d.kind.BinarySensorKind?
    ensures InstrumentState(d.attr, v.attrs, getAttr).Raise? ==>
      State(Bound(d, v, config), getAttr) == InstrumentState(d.attr, v.attrs, getAttr)
    ensures InstrumentState(d.attr, v.attrs, getAttr).Ok? ==>
      State(Bound(d, v, config), getAttr) == Ok(BinaryState(InstrumentState(d.attr, v.attrs, getAttr).value, d.kind.reverse))
  {
    assert Bound(d, v, config) == Inst(d, Some(v), "", None, None);
  }

  /** On a dashboard, a sensor divides the vehicle's truthy reading by 10
      exactly when its catalogue unit is `km` or `km/h` and Scandinavian miles
      are on; consumption units per 100 km are renamed but never scaled. */
  lemma SensorScaling(a: Attr, u: string, v: Vehicle, config: Kw, getAttr: (Attrs, string) -> Outcome<Json>, x: Json)
    requires InstrumentState(a, v.attrs, getAttr) == Ok(x) && Truthy(x)
    requires u != "mil" && u != "mil/h"
    ensures State(Bound(Def(a, SensorKind(u)), v, config), getAttr) ==
      if (u == "km" || u == "km/h") && Truthy(KwGet(config, "scandinavian_miles", JBool(false)))
      then DivideBy10(x) else Ok(x)
  {
  }

  /** On a dashboard, a sensor with a unit reads as the state's text, a
      space and the configured unit, so the unit shown is the one the
      options chose: "mil" for a kilometre sensor under Scandinavian miles. */
  lemma SensorTextShowsConfiguredUnit(a: Attr, u: string, v: Vehicle, config: Kw, state: Json, show: Json -> string)
    requires u != []
    ensures var t := SensorText(Bound(Def(a, SensorKind(u)), v, config).unit, state, show);
      |t| > |show(state)| && t[..|show(state)|] == show(state) && t[|show(state)|] == ' ' &&
      t[|show(state)| + 1..] == ConfiguredUnit(u, config)
    ensures u == "km" && Truthy(KwGet(config, "scandinavian_miles", JBool(false))) ==>
      SensorText(Bound(Def(a, SensorKind(u)), v, config).unit, state, show)[|show(state)| + 1..] == "mil"
  {
    UnitRenameTable(u, config);
    var t := SensorText(Bound(Def(a, SensorKind(u)), v, config).unit, state, show);
    assert t[|show(state)|..][1..] == t[|show(state)| + 1..];
  }

  /** On a dashboard, the door-lock instrument reads "Locked" iff all four
      lock codes are 2. */
  lemma DoorLockTextIffAllFour(v: Vehicle, config: Kw, getAttr: (Attrs, string) -> Outcome<Json>)
    ensures (State(Bound(Def(DoorLocked, DoorLockKind), v, config), getAttr).Ok? &&
             LockText(State(Bound(Def(DoorLocked, DoorLockKind), v, config), getAttr).value) == "Locked") <==>
      forall k :: 0 <= k < 4 ==> ParsedCode(v.attrs, LockIds[k]) == Ok(2)
  {
    DoorLockedIffAllFour(v.attrs);
  }
}
