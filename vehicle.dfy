/** The `Vehicle` view of skoda/skoda.py: every decoding property and its
    `is_<attr>_supported` predicate, evaluated over the vehicle's raw
    sub-resource dictionary. Python's dynamic `getattr` dispatch is the
    explicit table `Read` (properties) and `Support` (support predicates);
    `None` in either table means the attribute does not exist on `Vehicle`. */
module SkodaVehicle {
  import opened Python

  /** The per-vehicle dictionary kept by the connection: carportData,
      findCarResponse, StoredVehicleDataResponse(Parsed), tripstatistics, heating. */
  type Attrs = map<string, Json>

  /** A vehicle: its url, which is also its vin and unique id, and its sub-resources. */
  datatype Vehicle = Vehicle(url: string, attrs: Attrs)

  const StatusKey := "StoredVehicleDataResponse"
  const ParsedKey := "StoredVehicleDataResponseParsed"

  // Field ids of the parsed status map
  const ServiceInspectionId := "0x0203010004"
  const OilInspectionId := "0x0203010002"
  const AdblueLevelId := "0x02040C0001"
  const ParkingLightId := "0x0301010001"
  const DistanceId := "0x0101010002"
  const CombustionRangeId := "0x0301030005"
  const FuelLevelId := "0x030103000A"
  const WindowLeftFrontId := "0x0301050001"
  const WindowLeftBackId := "0x0301050003"
  const WindowRightFrontId := "0x0301050005"
  const WindowRightBackId := "0x0301050007"
  const SunroofId := "0x030105000B"
  const LockLeftFrontId := "0x0301040001"
  const LockLeftBackId := "0x0301040004"
  const LockRightFrontId := "0x0301040007"
  const LockRightBackId := "0x030104000A"
  const DoorLeftFrontId := "0x0301040002"
  const DoorLeftBackId := "0x0301040005"
  const DoorRightFrontId := "0x0301040008"
  const DoorRightBackId := "0x030104000B"
  const TrunkLockId := "0x030104000D"
  const TrunkClosedId := "0x030104000E"

  /** The four door-lock codes in the order `door_locked` reads them. */
  const LockIds: seq<string> := [LockLeftFrontId, LockLeftBackId, LockRightFrontId, LockRightBackId]
  /** The four window codes in the order `windows_closed` reads them. */
  const WindowIds: seq<string> := [WindowLeftFrontId, WindowLeftBackId, WindowRightFrontId, WindowRightBackId]

  /** The doors, windows and trunk whose parsed code says whether they are closed. */
  datatype Opening =
    | DoorLeftFront | DoorRightFront | DoorLeftBack | DoorRightBack | Trunk
    | WindowLeftFront | WindowLeftBack | WindowRightFront | WindowRightBack

  /** The parsed-map id of each opening's closed state. */
  function OpeningId(p: Opening): string {
    match p
    case DoorLeftFront => DoorLeftFrontId
    case DoorRightFront => DoorRightFrontId
    case DoorLeftBack => DoorLeftBackId
    case DoorRightBack => DoorRightBackId
    case Trunk => TrunkClosedId
    case WindowLeftFront => WindowLeftFrontId
    case WindowLeftBack => WindowLeftBackId
    case WindowRightFront => WindowRightFrontId
    case WindowRightBack => WindowRightBackId
  }

  /** The statistics of the last trip. */
  datatype TripStat =
    | AverageSpeed | AverageElectricConsumption | AverageFuelConsumption | Duration
    | Length | Recuperation | AverageAuxillaryConsumption | TotalElectricConsumption

  /** The key of each statistic in the trip-statistics entry. */
  function TripKey(t: TripStat): string {
    match t
    case AverageSpeed => "averageSpeed"
    case AverageElectricConsumption => "averageElectricConsumption"
    case AverageFuelConsumption => "averageFuelConsumption"
    case Duration => "traveltime"
    case Length => "mileage"
    case Recuperation => "recuperation"
    case AverageAuxillaryConsumption => "averageAuxiliaryConsumption"
    case TotalElectricConsumption => "totalElectricConsumption"
  }

  /** The attribute names instruments refer to; the nine `*_closed` openings
      and the eight `trip_last_*` statistics form one family each. */
  datatype Attr =
    | Position | DoorLocked | TrunkLocked | RequestInProgress
    | ElectricClimatisation | CombustionClimatisation | Charging | WindowHeater
    | CombustionEngineHeating | Distance | BatteryLevel | AdblueLevel | FuelLevel
    | ServiceInspection | OilInspection | LastConnected | ChargingTimeLeft
    | ElectricRange | CombustionRange | CombinedRange | ChargeMaxAmpere
    | ClimatisationTargetTemperature | TripLast(stat: TripStat)
    | CombustionEngineHeatingventilationStatus | ExternalPower | ParkingLight
    | ClimatisationWithoutExternalPower | Closed(opening: Opening) | SunroofClosed
    | WindowsClosed | Model | ModelYear | ModelImage

  /** The Python attribute name. */
  function Name(a: Attr): string {
    match a
    case Position => "position"
    case DoorLocked => "door_locked"
    case TrunkLocked => "trunk_locked"
    case RequestInProgress => "request_in_progress"
    case ElectricClimatisation => "electric_climatisation"
    case CombustionClimatisation => "combustion_climatisation"
    case Charging => "charging"
    case WindowHeater => "window_heater"
    case CombustionEngineHeating => "combustion_engine_heating"
    case Distance => "distance"
    case BatteryLevel => "battery_level"
    case AdblueLevel => "adblue_level"
    case FuelLevel => "fuel_level"
    case ServiceInspection => "service_inspection"
    case OilInspection => "oil_inspection"
    case LastConnected => "last_connected"
    case ChargingTimeLeft => "charging_time_left"
    case ElectricRange => "electric_range"
    case CombustionRange => "combustion_range"
    case CombinedRange => "combined_range"
    case ChargeMaxAmpere => "charge_max_ampere"
    case ClimatisationTargetTemperature => "climatisation_target_temperature"
    case TripLast(t) => "trip_last_" + TripName(t)
    case CombustionEngineHeatingventilationStatus => "combustion_engine_heatingventilation_status"
    case ExternalPower => "external_power"
    case ParkingLight => "parking_light"
    case ClimatisationWithoutExternalPower => "climatisation_without_external_power"
    case Closed(p) => OpeningName(p)
    case SunroofClosed => "sunroof_closed"
    case WindowsClosed => "windows_closed"
    case Model => "model"
    case ModelYear => "model_year"
    case ModelImage => "model_image"
  }

  function TripName(t: TripStat): string {
    match t
    case AverageSpeed => "average_speed"
    case AverageElectricConsumption => "average_electric_consumption"
    case AverageFuelConsumption => "average_fuel_consumption"
    case Duration => "duration"
    case Length => "length"
    case Recuperation => "recuperation"
    case AverageAuxillaryConsumption => "average_auxillary_consumption"
    case TotalElectricConsumption => "total_electric_consumption"
  }

  function OpeningName(p: Opening): string {
    match p
    case DoorLeftFront => "door_closed_left_front"
    case DoorRightFront => "door_closed_right_front"
    case DoorLeftBack => "door_closed_left_back"
    case DoorRightBack => "door_closed_right_back"
    case Trunk => "trunk_closed"
    case WindowLeftFront => "window_closed_left_front"
    case WindowLeftBack => "window_closed_left_back"
    case WindowRightFront => "window_closed_right_front"
    case WindowRightBack => "window_closed_right_back"
  }

  // ---------------------------------------------------------------------
  // Access helpers

  /** `attrs.get(k, d)`; `attrs` itself is always a dictionary. */
  function AttrOr(attrs: Attrs, k: string, d: Json): Json {
    if k in attrs then attrs[k] else d
  }

  /** `attrs.get(k1, inner)...get(kn, last)`. */
  function Path(attrs: Attrs, path: seq<string>, inner: Json, last: Json): Outcome<Json> {
    Dig(JObj(attrs), path, inner, last)
  }

  /** `attrs.get(Parsed)[id]`. */
  function ParsedEntry(attrs: Attrs, id: string): Outcome<Json> {
    Subscript(AttrOr(attrs, ParsedKey, JNull), id)
  }

  /** `attrs.get(Parsed)[id].get('value', d)`. */
  function ParsedValue(attrs: Attrs, id: string, d: Json): Outcome<Json> {
    var e :- ParsedEntry(attrs, id);
    Get(e, "value", d)
  }

  /** `int(attrs.get(Parsed)[id].get('value', 0))`. */
  function ParsedCode(attrs: Attrs, id: string): Outcome<int> {
    var v :- ParsedValue(attrs, id, JInt(0));
    PyInt(v)
  }

  /** The support check shared by all parsed-code attributes: True/False
      by presence of the id when the parsed map is non-empty, None otherwise. */
  function ParsedSupport(attrs: Attrs, id: string): Outcome<Json> {
    var p := AttrOr(attrs, ParsedKey, EmptyObj);
    if !Truthy(p) then Ok(JNull)
    else
      var b :- In(id, p);
      Ok(JBool(b))
  }

  /** A decoder of the form `int(code) == n` (`!=` when `negate`). */
  function CodeCompare(attrs: Attrs, id: string, n: int, negate: bool): Outcome<Json> {
    var c :- ParsedCode(attrs, id);
    Ok(JBool(if negate then c != n else c == n))
  }

  /** `value = ...get('value', 0); if value: return int(value)`. */
  function ParsedIntIfTruthy(attrs: Attrs, id: string): Outcome<Json> {
    var v :- ParsedValue(attrs, id, JInt(0));
    if Truthy(v) then
      var n :- PyInt(v);
      Ok(JInt(n))
    else Ok(JNull)
  }

  /** Reads the codes of `ids` in order and stops at the first one that is not `n`. */
  function AllCodesAre(attrs: Attrs, ids: seq<string>, n: int): Outcome<bool>
    decreases |ids|
  {
    if ids == [] then Ok(true)
    else
      var c :- ParsedCode(attrs, ids[0]);
      if c != n then Ok(false) else AllCodesAre(attrs, ids[1..], n)
  }

  /** `if type(<path with {} / False defaults>) in (float, int): return True`. */
  function NumericSupport(attrs: Attrs, path: seq<string>): Outcome<Json> {
    var v :- Path(attrs, path, EmptyObj, JBool(false));
    Ok(if IsNumber(v) then JBool(true) else JNull)
  }

  /** `if <path with {} / False defaults>: return True`. */
  function TruthySupport(attrs: Attrs, path: seq<string>): Outcome<Json> {
    var v :- Path(attrs, path, EmptyObj, JBool(false));
    Ok(if Truthy(v) then JBool(true) else JNull)
  }

  /** `<path with {} defaults, last default d> == s`. */
  function PathEquals(attrs: Attrs, path: seq<string>, d: Json, s: string): Outcome<Json> {
    var v :- Path(attrs, path, EmptyObj, d);
    Ok(JBool(v == JStr(s)))
  }

  /** `x.get('vehicleData', d).get('data', d)[0].get('field', d)[0]`. */
  function FirstField(svdr: Json, d: Json): Outcome<Json> {
    var vd :- Get(svdr, "vehicleData", d);
    var data :- Get(vd, "data", d);
    var block :- IndexAt(data, 0);
    var fields :- Get(block, "field", d);
    IndexAt(fields, 0)
  }

  /** `trip_last_entry`. */
  function TripLastEntry(attrs: Attrs): Json {
    AttrOr(attrs, "tripstatistics", EmptyObj)
  }

  /** `trip_last_entry.get(k)`. */
  function TripValue(attrs: Attrs, k: string): Outcome<Json> {
    Get(TripLastEntry(attrs), k, JNull)
  }

  /** `response = trip_last_entry; if response and type(response.get(k)) in (float, int): return True`. */
  function TripSupport(attrs: Attrs, k: string): Outcome<Json> {
    var resp := TripLastEntry(attrs);
    if !Truthy(resp) then Ok(JNull)
    else
      var v :- Get(resp, k, JNull);
      Ok(if IsNumber(v) then JBool(true) else JNull)
  }

  // ---------------------------------------------------------------------
  // The properties of `Vehicle`, one function each

  function PositionValue(attrs: Attrs): Outcome<Json> {
    var pos := AttrOr(attrs, "findCarResponse", JNull);
    var latText :- Dig(pos, ["Position", "carCoordinate", "latitude"], JNull, JNull);
    var lat :- PyInt(latText);
    var lngText :- Dig(pos, ["Position", "carCoordinate", "longitude"], JNull, JNull);
    var lng :- PyInt(lngText);
    var ts :- Get(pos, "parkingTimeUTC", JNull);
    Ok(JObj(map["lat" := JReal(lat as real / 1000000.0), "lng" := JReal(lng as real / 1000000.0), "timestamp" := ts]))
  }

  function DoorLockedValue(attrs: Attrs): Outcome<Json> {
    var b :- AllCodesAre(attrs, LockIds, 2);
    Ok(JBool(b))
  }

  function RequestInProgressValue(attrs: Attrs): Outcome<Json> {
    PathEquals(attrs, ["vehicleStatus", "requestStatus"], EmptyObj, "REQUEST_IN_PROGRESS")
  }

  function ElectricClimatisationValue(attrs: Attrs): Outcome<Json> {
    var kind :- Path(attrs, ["vehicleEmanager", "rpc", "settings", "electric"], EmptyObj, JBool(false));
    var status :- Path(attrs, ["vehicleEmanager", "rpc", "status", "climatisationState"], EmptyObj, JStr(""));
    Ok(JBool((status == JStr("HEATING") || status == JStr("COOLING")) && kind == JBool(true)))
  }

  function HeatingState(attrs: Attrs): Outcome<Json> {
    Path(attrs, ["heating", "climatisationStateReport", "climatisationState"], EmptyObj, JBool(false))
  }

  function CombustionClimatisationValue(attrs: Attrs): Outcome<Json> {
    var v :- HeatingState(attrs);
    Ok(JBool(v == JStr("ventilation")))
  }

  function CombustionEngineHeatingValue(attrs: Attrs): Outcome<Json> {
    var v :- HeatingState(attrs);
    Ok(JBool(v == JStr("heating")))
  }

  function ChargingValue(attrs: Attrs): Outcome<Json> {
    PathEquals(attrs, ["vehicleEmanager", "rbc", "status", "chargingState"], EmptyObj, "CHARGING")
  }

  function WindowHeaterValue(attrs: Attrs): Outcome<Json> {
    var front :- Path(attrs, ["vehicleEmanager", "rpc", "status", "windowHeatingStateFront"], EmptyObj, JStr(""));
    var rear :- Path(attrs, ["vehicleEmanager", "rpc", "status", "windowHeatingStateRear"], EmptyObj, JStr(""));
    Ok(JBool(front == JStr("ON") || rear == JStr("ON")))
  }

  function BatteryLevelValue(attrs: Attrs): Outcome<Json> {
    Path(attrs, ["vehicleStatus", "batteryLevel"], EmptyObj, JInt(0))
  }

  function LastConnectedValue(attrs: Attrs): Outcome<Json> {
    var f0 :- FirstField(AttrOr(attrs, StatusKey, JNull), JNull);
    Get(f0, "tsCarSentUtc", JNull)
  }

  function ExternalPowerValue(attrs: Attrs): Outcome<Json> {
    PathEquals(attrs, ["vehicleEmanager", "rbc", "status", "pluginState"], EmptyObj, "CONNECTED")
  }

  function ChargingRemaining(attrs: Attrs, k: string): Outcome<Json> {
    Dig(JObj(attrs), ["vehicleEmanager", "rbc", "status", k], EmptyObj, JInt(0))
  }

  function ChargingTimeLeftValue(attrs: Attrs): Outcome<Json> {
    var ext :- ExternalPowerValue(attrs);
    if !Truthy(ext) then Ok(JInt(0))
    else
      var hours :- ChargingRemaining(attrs, "chargingRemaningHour");
      var minutes :- ChargingRemaining(attrs, "chargingRemaningMinute");
      if Truthy(hours) && Truthy(minutes) && PyInt(hours).Ok? && PyInt(minutes).Ok? then
        Ok(JInt(PyInt(hours).value * 60 + PyInt(minutes).value))
      else Ok(JInt(0))
  }

  function ElectricRangeValue(attrs: Attrs): Outcome<Json> {
    Path(attrs, ["vehicleStatus", "batteryRange"], EmptyObj, JInt(0))
  }

  function CombinedRangeValue(attrs: Attrs): Outcome<Json> {
    Path(attrs, ["vehicleStatus", "totalRange"], EmptyObj, JInt(0))
  }

  function ChargeMaxAmpereValue(attrs: Attrs): Outcome<Json> {
    Path(attrs, ["vehicleEmanager", "rbc", "settings", "chargerMaxCurrent"], JNull, JNull)
  }

  function ClimatisationTargetTemperatureValue(attrs: Attrs): Outcome<Json> {
    Path(attrs, ["vehicleEmanager", "rpc", "settings", "targetTemperature"], EmptyObj, JInt(0))
  }

  function ClimatisationWithoutExternalPowerValue(attrs: Attrs): Outcome<Json> {
    Path(attrs, ["vehicleEmanager", "rpc", "settings", "climatisationWithoutHVPower"], EmptyObj, JBool(false))
  }

  /** `trip_last_<stat>`: the raw entry, except the average fuel consumption,
      which is reported in tenths and divided by ten after an int cast. */
  function TripLastValue(attrs: Attrs, t: TripStat): Outcome<Json> {
    var v :- TripValue(attrs, TripKey(t));
    if t == AverageFuelConsumption then
      var n :- PyInt(v);
      Ok(JReal(n as real / 10.0))
    else Ok(v)
  }

  /** `<opening>_closed`: the opening's code is 3. */
  function ClosedValue(attrs: Attrs, p: Opening): Outcome<Json> {
    CodeCompare(attrs, OpeningId(p), 3, false)
  }

  function SunroofClosedValue(attrs: Attrs): Outcome<Json> {
    var v :- ParsedValue(attrs, SunroofId, JInt(0));
    Ok(JBool(EqualsInt(v, 3)))
  }

  function WindowsClosedValue(attrs: Attrs): Outcome<Json> {
    var b :- AllCodesAre(attrs, WindowIds, 3);
    Ok(JBool(b))
  }

  function CarportValue(attrs: Attrs, k: string, d: Json): Outcome<Json> {
    Get(AttrOr(attrs, "carportData", JNull), k, d)
  }

  /** The value of a property, for every name `Vehicle` defines. */
  function Decode(a: Attr, attrs: Attrs): Outcome<Json> {
    match a
    case Position => PositionValue(attrs)
    case DoorLocked => DoorLockedValue(attrs)
    case TrunkLocked => CodeCompare(attrs, TrunkLockId, 2, false)
    case RequestInProgress => RequestInProgressValue(attrs)
    case ElectricClimatisation => ElectricClimatisationValue(attrs)
    case CombustionClimatisation => CombustionClimatisationValue(attrs)
    case Charging => ChargingValue(attrs)
    case WindowHeater => WindowHeaterValue(attrs)
    case CombustionEngineHeating => CombustionEngineHeatingValue(attrs)
    case Distance => ParsedIntIfTruthy(attrs, DistanceId)
    case BatteryLevel => BatteryLevelValue(attrs)
    case AdblueLevel => ParsedValue(attrs, AdblueLevelId, JInt(0))
    case FuelLevel => ParsedIntIfTruthy(attrs, FuelLevelId)
    case ServiceInspection => ParsedValue(attrs, ServiceInspectionId, JNull)
    case OilInspection => ParsedValue(attrs, OilInspectionId, JNull)
    case LastConnected => LastConnectedValue(attrs)
    case ChargingTimeLeft => ChargingTimeLeftValue(attrs)
    case ElectricRange => ElectricRangeValue(attrs)
    case CombustionRange => ParsedIntIfTruthy(attrs, CombustionRangeId)
    case CombinedRange => CombinedRangeValue(attrs)
    case ChargeMaxAmpere => ChargeMaxAmpereValue(attrs)
    case ClimatisationTargetTemperature => ClimatisationTargetTemperatureValue(attrs)
    case TripLast(t) => TripLastValue(attrs, t)
    case CombustionEngineHeatingventilationStatus => Raise(AttributeError)
    case ExternalPower => ExternalPowerValue(attrs)
    case ParkingLight => CodeCompare(attrs, ParkingLightId, 2, true)
    case ClimatisationWithoutExternalPower => ClimatisationWithoutExternalPowerValue(attrs)
    case Closed(p) => ClosedValue(attrs, p)
    case SunroofClosed => SunroofClosedValue(attrs)
    case WindowsClosed => WindowsClosedValue(attrs)
    case Model => CarportValue(attrs, ModelNameKey, JNull)
    case ModelYear => CarportValue(attrs, ModelYearKey, JNull)
    case ModelImage => Ok(AttrOr(attrs, ImageUrlKey, JNull))
  }

  const ModelNameKey := "modelName"
  const ModelYearKey := "modelYear"
  const ImageUrlKey := "imageUrl"

  /** `getattr(vehicle, name(a))` when `hasattr` would find the property at all. */
  function Read(a: Attr, attrs: Attrs): Option<Outcome<Json>> {
    if a == CombustionEngineHeatingventilationStatus then None else Some(Decode(a, attrs))
  }

  /** `getattr(vehicle, 'is_' + name(a) + '_supported')`, or None when Vehicle has no such predicate. */
  function Support(a: Attr, attrs: Attrs): Option<Outcome<Json>> {
    if a == CombustionEngineHeatingventilationStatus then None else Some(SupportValue(a, attrs))
  }

  // ---------------------------------------------------------------------
  // The support predicates of `Vehicle`, one function each

  function PositionSupport(attrs: Attrs): Outcome<Json> {
    TruthySupport(attrs, ["findCarResponse", "Position", "carCoordinate", "latitude"])
  }

  function RequestInProgressSupport(attrs: Attrs): Outcome<Json> {
    var r :- Path(attrs, ["vehicleStatus", "requestStatus"], EmptyObj, EmptyObj);
    Ok(if Truthy(r) || r == JNull then JBool(true) else JNull)
  }

  /** `is_climatisation_supported`, shared by several other predicates. */
  function ClimatisationSupported(attrs: Attrs): Outcome<Json> {
    var r :- Path(attrs, ["vehicleEmanager", "rpc", "climaterActionState"], EmptyObj, JStr(""));
    Ok(if r == JStr("AVAILABLE") || r == JStr("NO_PLUGIN") then JBool(true) else JNull)
  }

  function HeatingSupport(attrs: Attrs): Outcome<Json> {
    TruthySupport(attrs, ["heating", "climatisationStateReport", "climatisationState"])
  }

  /** `is_charging_supported`, also the answer for the remaining charge time. */
  function ChargingSupport(attrs: Attrs): Outcome<Json> {
    NumericSupport(attrs, ["vehicleEmanager", "rbc", "status", "batteryPercentage"])
  }

  function WindowHeaterSupport(attrs: Attrs): Outcome<Json> {
    var c :- ClimatisationSupported(attrs);
    if Truthy(c) then TruthySupport(attrs, ["vehicleEmanager", "rpc", "status", "windowHeatingAvailable"])
    else Ok(JNull)
  }

  function BatteryLevelSupport(attrs: Attrs): Outcome<Json> {
    NumericSupport(attrs, ["vehicleStatus", "batteryLevel"])
  }

  function LastConnectedSupport(attrs: Attrs): Outcome<Json> {
    var f0 :- FirstField(AttrOr(attrs, StatusKey, EmptyObj), EmptyObj);
    var ts :- Get(f0, "tsCarSentUtc", JList([]));
    Ok(if Truthy(ts) then JBool(true) else JNull)
  }

  function ElectricRangeSupport(attrs: Attrs): Outcome<Json> {
    NumericSupport(attrs, ["vehicleStatus", "batteryRange"])
  }

  function CombinedRangeSupport(attrs: Attrs): Outcome<Json> {
    NumericSupport(attrs, ["vehicleStatus", "totalRange"])
  }

  function ChargeMaxAmpereSupport(attrs: Attrs): Outcome<Json> {
    NumericSupport(attrs, ["vehicleEmanager", "rbc", "settings", "chargerMaxCurrent"])
  }

  function ExternalPowerSupport(attrs: Attrs): Outcome<Json> {
    TruthySupport(attrs, ["vehicleEmanager", "rbc", "status", "pluginState"])
  }

  function SunroofSupport(attrs: Attrs): Outcome<Json> {
    var p := AttrOr(attrs, ParsedKey, EmptyObj);
    if !Truthy(p) then Ok(JNull)
    else
      var present :- In(SunroofId, p);
      if !present then Ok(JBool(false))
      else
        var c :- ParsedCode(attrs, SunroofId);
        Ok(JBool(c != 0))
  }

  function CarportSupport(attrs: Attrs, k: string): Outcome<Json> {
    var v :- CarportValue(attrs, k, JBool(false));
    Ok(if Truthy(v) then JBool(true) else JNull)
  }

  /** The support predicate's answer, for every name `Vehicle` defines one for. */
  function SupportValue(a: Attr, attrs: Attrs): Outcome<Json> {
    match a
    case Position => PositionSupport(attrs)
    case DoorLocked => ParsedSupport(attrs, LockLeftFrontId)
    case TrunkLocked => ParsedSupport(attrs, TrunkLockId)
    case RequestInProgress => RequestInProgressSupport(attrs)
    case ElectricClimatisation => ClimatisationSupported(attrs)
    case CombustionClimatisation => HeatingSupport(attrs)
    case Charging => ChargingSupport(attrs)
    case WindowHeater => WindowHeaterSupport(attrs)
    case CombustionEngineHeating => HeatingSupport(attrs)
    case Distance => ParsedSupport(attrs, DistanceId)
    case BatteryLevel => BatteryLevelSupport(attrs)
    case AdblueLevel => ParsedSupport(attrs, AdblueLevelId)
    case FuelLevel => ParsedSupport(attrs, FuelLevelId)
    case ServiceInspection => ParsedSupport(attrs, ServiceInspectionId)
    case OilInspection => ParsedSupport(attrs, OilInspectionId)
    case LastConnected => LastConnectedSupport(attrs)
    case ChargingTimeLeft => ChargingSupport(attrs)
    case ElectricRange => ElectricRangeSupport(attrs)
    case CombustionRange => ParsedSupport(attrs, CombustionRangeId)
    case CombinedRange => CombinedRangeSupport(attrs)
    case ChargeMaxAmpere => ChargeMaxAmpereSupport(attrs)
    case ClimatisationTargetTemperature => ClimatisationSupported(attrs)
    case TripLast(t) => TripSupport(attrs, TripKey(t))
    case CombustionEngineHeatingventilationStatus => Raise(AttributeError)
    case ExternalPower => ExternalPowerSupport(attrs)
    case ParkingLight => ParsedSupport(attrs, ParkingLightId)
    case ClimatisationWithoutExternalPower => ClimatisationSupported(attrs)
    case Closed(p) => ParsedSupport(attrs, OpeningId(p))
    case SunroofClosed => SunroofSupport(attrs)
    case WindowsClosed => ParsedSupport(attrs, WindowLeftFrontId)
    case Model => CarportSupport(attrs, ModelNameKey)
    case ModelYear => CarportSupport(attrs, ModelYearKey)
    case ModelImage => Ok(if Truthy(AttrOr(attrs, ImageUrlKey, JBool(false))) then JBool(true) else JNull)
  }

  // ---------------------------------------------------------------------
  // The decode table

  /** The parsed status map holds, under `id`, an entry whose "value" is the
      decimal text of `n`: the shape in which the backend reports codes. */
  predicate HasCodeText(attrs: Attrs, id: string, n: nat) {
    ParsedKey in attrs && attrs[ParsedKey].JObj? && id in attrs[ParsedKey].fields
    && attrs[ParsedKey].fields[id].JObj?
    && "value" in attrs[ParsedKey].fields[id].fields
    && attrs[ParsedKey].fields[id].fields["value"] == JStr(NatToDecimal(n))
  }

  /** The parsed-map id read by each attribute that decodes a single code. */
  function CodeId(a: Attr): Option<string> {
    match a
    case TrunkLocked => Some(TrunkLockId)
    case Distance => Some(DistanceId)
    case AdblueLevel => Some(AdblueLevelId)
    case FuelLevel => Some(FuelLevelId)
    case ServiceInspection => Some(ServiceInspectionId)
    case OilInspection => Some(OilInspectionId)
    case CombustionRange => Some(CombustionRangeId)
    case ParkingLight => Some(ParkingLightId)
    case Closed(p) => Some(OpeningId(p))
    case SunroofClosed => Some(SunroofId)
    case _ => None
  }

  /** The reference decode table: what each single-code property reports for
      a code sent as the text of `n`. Closed iff 3, locked iff 2, parking
      light on iff not 2, counters as numbers, inspections as the raw text;
      the sunroof compares the text itself with the number 3 and so never
      reports closed. */
  function ExpectedFromText(a: Attr, n: nat): Option<Json> {
    match a
    case Closed(_) => Some(JBool(n == 3))
    case TrunkLocked => Some(JBool(n == 2))
    case ParkingLight => Some(JBool(n != 2))
    case Distance => Some(JInt(n))
    case CombustionRange => Some(JInt(n))
    case FuelLevel => Some(JInt(n))
    case AdblueLevel => Some(JStr(NatToDecimal(n)))
    case ServiceInspection => Some(JStr(NatToDecimal(n)))
    case OilInspection => Some(JStr(NatToDecimal(n)))
    case SunroofClosed => Some(JBool(false))
    case _ => None
  }

  /** Every single-code property decodes a textual code as the reference table says. */
  lemma DecodeTable(a: Attr, attrs: Attrs, n: nat)
    requires CodeId(a).Some? && HasCodeText(attrs, CodeId(a).value, n)
    ensures ExpectedFromText(a, n).Some?
    ensures Read(a, attrs) == Some(Ok(ExpectedFromText(a, n).value))
  {
    IntOfDecimalString(n);
  }

  /** A door, window or trunk is reported closed iff its int-cast code is 3;
      an undecodable code is an error, never a state. */
  lemma ClosedIffCodeThree(p: Opening, attrs: Attrs)
    ensures Read(Closed(p), attrs) == Some(Ok(JBool(true))) <==> ParsedCode(attrs, OpeningId(p)) == Ok(3)
    ensures Read(Closed(p), attrs) == Some(Ok(JBool(false))) <==>
      ParsedCode(attrs, OpeningId(p)).Ok? && ParsedCode(attrs, OpeningId(p)).value != 3
    ensures Read(Closed(p), attrs).Some? && (Read(Closed(p), attrs).value.Raise? <==> ParsedCode(attrs, OpeningId(p)).Raise?)
  {
  }

  /** The trunk is reported locked iff its code is 2. */
  lemma TrunkLockedIffCodeTwo(attrs: Attrs)
    ensures Read(TrunkLocked, attrs) == Some(Ok(JBool(true))) <==> ParsedCode(attrs, TrunkLockId) == Ok(2)
    ensures Read(TrunkLocked, attrs) == Some(Ok(JBool(false))) <==>
      ParsedCode(attrs, TrunkLockId).Ok? && ParsedCode(attrs, TrunkLockId).value != 2
  {
  }

  /** The parking light is reported on iff its code is anything but 2. */
  lemma ParkingLightIffCodeNotTwo(attrs: Attrs)
    ensures Read(ParkingLight, attrs) == Some(Ok(JBool(true))) <==>
      ParsedCode(attrs, ParkingLightId).Ok? && ParsedCode(attrs, ParkingLightId).value != 2
    ensures Read(ParkingLight, attrs) == Some(Ok(JBool(false))) <==> ParsedCode(attrs, ParkingLightId) == Ok(2)
  {
  }

  /** `ids[i]` is the first id whose code decodes to something other than `n`. */
  predicate FirstMismatch(attrs: Attrs, ids: seq<string>, n: int, i: int) {
    0 <= i < |ids|
    && (forall j :: 0 <= j < i ==> ParsedCode(attrs, ids[j]) == Ok(n))
    && ParsedCode(attrs, ids[i]).Ok? && ParsedCode(attrs, ids[i]).value != n
  }

  lemma {:induction false} AllCodesAreIff(attrs: Attrs, ids: seq<string>, n: int)
    ensures AllCodesAre(attrs, ids, n) == Ok(true) <==>
      forall i :: 0 <= i < |ids| ==> ParsedCode(attrs, ids[i]) == Ok(n)
    ensures AllCodesAre(attrs, ids, n) == Ok(false) <==>
      exists i :: FirstMismatch(attrs, ids, n, i)
    decreases |ids|
  {
    if ids != [] {
      var rest := ids[1..];
      AllCodesAreIff(attrs, rest, n);
      var c := ParsedCode(attrs, ids[0]);
      if c == Ok(n) {
        assert forall i :: 0 <= i < |rest| ==> rest[i] == ids[i + 1];
        if AllCodesAre(attrs, ids, n) == Ok(false) {
          var i :| FirstMismatch(attrs, rest, n, i);
          assert FirstMismatch(attrs, ids, n, i + 1);
        }
        if exists i :: FirstMismatch(attrs, ids, n, i) {
          var i :| FirstMismatch(attrs, ids, n, i);
          assert FirstMismatch(attrs, rest, n, i - 1);
        }
      } else if c.Ok? {
        assert FirstMismatch(attrs, ids, n, 0);
      } else {
        assert !(forall i :: 0 <= i < |ids| ==> ParsedCode(attrs, ids[i]) == Ok(n)) by {
          assert ParsedCode(attrs, ids[0]) != Ok(n);
        }
      }
    }
  }

  /** The doors are reported locked iff all four lock codes are 2; otherwise
      the answer is False as soon as one code (in reading order) is not 2. */
  lemma DoorLockedIffAllFour(attrs: Attrs)
    ensures Read(DoorLocked, attrs) == Some(Ok(JBool(true))) <==>
      forall i :: 0 <= i < 4 ==> ParsedCode(attrs, LockIds[i]) == Ok(2)
    ensures Read(DoorLocked, attrs) == Some(Ok(JBool(false))) <==>
      exists i :: FirstMismatch(attrs, LockIds, 2, i)
  {
    AllCodesAreIff(attrs, LockIds, 2);
  }

  /** The four window openings, in the order `windows_closed` reads them. */
  const Windows: seq<Opening> := [WindowLeftFront, WindowLeftBack, WindowRightFront, WindowRightBack]

  /** `windows_closed` is the short-circuit conjunction of the four window
      decoders: true iff each reports closed, false as soon as the left-front
      window reports open. */
  lemma WindowsClosedIsConjunction(attrs: Attrs)
    ensures WindowsClosedValue(attrs) == Ok(JBool(true)) <==>
      forall i :: 0 <= i < 4 ==> ClosedValue(attrs, Windows[i]) == Ok(JBool(true))
    ensures ClosedValue(attrs, WindowLeftFront) == Ok(JBool(false)) ==>
      WindowsClosedValue(attrs) == Ok(JBool(false))
  {
    AllCodesAreIff(attrs, WindowIds, 3);
    assert forall i :: 0 <= i < 4 ==> OpeningId(Windows[i]) == WindowIds[i];
    if ClosedValue(attrs, WindowLeftFront) == Ok(JBool(false)) {
      assert FirstMismatch(attrs, WindowIds, 3, 0);
    }
  }

  /** The windows-closed support check looks at the left-front window only, so
      a vehicle reporting that one window is supported yet the decoder raises
      as soon as the left-back window is missing. */
  lemma WindowsClosedSupportChecksOneWindow(attrs: Attrs)
    requires HasCodeText(attrs, WindowLeftFrontId, 3)
    requires WindowLeftBackId !in attrs[ParsedKey].fields
    ensures SupportValue(WindowsClosed, attrs) == Ok(JBool(true))
    ensures WindowsClosedValue(attrs) == Raise(KeyError)
  {
    IntOfDecimalString(3);
    assert ParsedCode(attrs, WindowLeftFrontId) == Ok(3);
    assert ParsedCode(attrs, WindowLeftBackId) == Raise(KeyError);
    assert WindowIds[1..][0] == WindowLeftBackId;
    assert AllCodesAre(attrs, WindowIds[1..], 3) == Raise(KeyError);
  }

  /** Parsed-code support: with a parsed dictionary present it is True iff the
      id is present (False when the dictionary is non-empty and lacks it); it
      is None exactly when the parsed map is missing or empty. */
  lemma ParsedSupportTable(attrs: Attrs, id: string)
    ensures ParsedSupport(attrs, id) == Ok(JNull) <==> ParsedKey !in attrs || !Truthy(attrs[ParsedKey])
    ensures ParsedKey in attrs && attrs[ParsedKey].JObj? ==>
      (ParsedSupport(attrs, id) == Ok(JBool(true)) <==> id in attrs[ParsedKey].fields)
    ensures ParsedKey in attrs && attrs[ParsedKey].JObj? ==>
      (ParsedSupport(attrs, id) == Ok(JBool(false)) <==>
        attrs[ParsedKey].fields != map[] && id !in attrs[ParsedKey].fields)
  {
  }

  /** Which parsed id each parsed-code support predicate checks; `door_locked`
      and `windows_closed` check only their first id. */
  function SupportId(a: Attr): Option<string> {
    match a
    case DoorLocked => Some(LockLeftFrontId)
    case WindowsClosed => Some(WindowLeftFrontId)
    case SunroofClosed => None
    case _ => CodeId(a)
  }

  lemma SupportFollowsParsedId(a: Attr, attrs: Attrs)
    requires SupportId(a).Some?
    ensures Support(a, attrs) == Some(ParsedSupport(attrs, SupportId(a).value))
  {
  }

  /** Every support predicate answers True, False or None, or raises. */
  lemma SupportIsTriState(a: Attr, attrs: Attrs)
    ensures Support(a, attrs).Some? && Support(a, attrs).value.Ok? ==>
      Support(a, attrs).value.value in {JBool(true), JBool(false), JNull}
  {
  }

  /** A sunroof reported with the text of a non-zero code is supported, yet its
      decoder compares the uncast text with 3 and reports it open. */
  lemma SunroofTextNeverClosed(attrs: Attrs, n: nat)
    requires HasCodeText(attrs, SunroofId, n) && n != 0
    ensures Support(SunroofClosed, attrs) == Some(Ok(JBool(true)))
    ensures Read(SunroofClosed, attrs) == Some(Ok(JBool(false)))
  {
    IntOfDecimalString(n);
  }

  /** A sunroof code of 0 makes the sunroof unsupported. */
  lemma SunroofZeroUnsupported(attrs: Attrs)
    requires HasCodeText(attrs, SunroofId, 0)
    ensures Support(SunroofClosed, attrs) == Some(Ok(JBool(false)))
  {
    IntOfDecimalString(0);
  }

  /** The remaining charge time is 0 whenever external power is not connected. */
  lemma ChargingTimeLeftWithoutPower(attrs: Attrs)
    requires ExternalPowerValue(attrs) == Ok(JBool(false))
    ensures ChargingTimeLeftValue(attrs) == Ok(JInt(0))
  {
  }

  /** With external power connected and both counters truthy integers, the
      remaining charge time is hours * 60 + minutes. */
  lemma ChargingTimeLeftWithPower(attrs: Attrs, hours: int, minutes: int)
    requires ExternalPowerValue(attrs) == Ok(JBool(true))
    requires ChargingRemaining(attrs, "chargingRemaningHour") == Ok(JInt(hours))
    requires ChargingRemaining(attrs, "chargingRemaningMinute") == Ok(JInt(minutes))
    requires hours != 0 && minutes != 0
    ensures ChargingTimeLeftValue(attrs) == Ok(JInt(hours * 60 + minutes))
  {
  }

  /** A zero or uncastable counter gives 0 rather than an error. */
  lemma ChargingTimeLeftFallsBackToZero(attrs: Attrs, hours: Json)
    requires ExternalPowerValue(attrs) == Ok(JBool(true))
    requires ChargingRemaining(attrs, "chargingRemaningHour") == Ok(hours)
    requires !Truthy(hours) || PyInt(hours).Raise?
    requires ChargingRemaining(attrs, "chargingRemaningMinute").Ok?
    ensures ChargingTimeLeftValue(attrs) == Ok(JInt(0))
  {
  }
}
