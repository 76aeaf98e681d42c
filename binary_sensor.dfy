/** The Home Assistant binary-sensor entity over a dashboard binary sensor:
    its `is_on` (inverted for locks, doors and windows), its device class,
    and the set-up filter. */
module SkodaBinarySensor {
  import opened Python
  import opened SkodaVehicle
  import opened SkodaDashboard
  import opened SkodaPlatform

  const BinarySensorComponent := "binary_sensor"

  /** The device classes whose state Home Assistant reads the other way round. */
  const InvertedClasses: seq<string> := ["lock", "door", "window"]

  /** `SkodaBinarySensor.is_on`: the instrument's `is_on` (its state),
      negated when the device class is lock, door or window. */
  function IsOn(deviceClass: DeviceClass, instrumentIsOn: Outcome<Json>): (r: Outcome<Json>)
    ensures instrumentIsOn.Raise? ==> r == instrumentIsOn
    ensures instrumentIsOn.Ok? && IsBarrierClass(deviceClass) ==>
      r == Ok(JBool(!Truthy(instrumentIsOn.value)))
    ensures !IsBarrierClass(deviceClass) ==> r == instrumentIsOn
  {
    var x :- instrumentIsOn;
    if ClassName(deviceClass) in InvertedClasses then Ok(JBool(!Truthy(x))) else Ok(x)
  }

  /** `SkodaBinarySensor.device_class`: the instrument's class when Home
      Assistant knows it (`known` is its `DEVICE_CLASSES`), else None. */
  function DeviceClassOf(deviceClass: DeviceClass, known: set<string>): (r: Option<string>)
    ensures r.Some? <==> ClassName(deviceClass) in known
    ensures r.Some? ==> r.value in known
  {
    if ClassName(deviceClass) in known then Some(ClassName(deviceClass)) else None
  }

  /** End to end: for a lock, door or window of the catalogue whose vehicle
      property reads the boolean `b`, Home Assistant's `is_on` is `b` again;
      the dashboard's `reverse_state` and the entity's inversion cancel. */
  lemma BarrierIsOnIsVehicleBoolean(d: Def, v: Vehicle, config: Kw, getAttr: (Attrs, string) -> Outcome<Json>, b: bool)
    requires d in BinarySensors && IsBarrierClass(d.kind.deviceClass)
    requires InstrumentState(d.attr, v.attrs, getAttr) == Ok(JBool(b))
    ensures IsOn(d.kind.deviceClass, State(Bound(d, v, config), getAttr)) == Ok(JBool(b))
  {
    BinarySensorsReverseBarriers();
    BoundBinarySensorState(d, v, config, getAttr);
  }

  /** The device class the catalogue gives an opening's sensor. */
  function OpeningClass(p: Opening): DeviceClass {
    if p in Windows then Window else Door
  }

  /** The catalogue holds a reversed sensor for every opening. */
  lemma OpeningSensorsInCatalogue(p: Opening)
    ensures Def(Closed(p), BinarySensorKind(OpeningClass(p), true)) in BinarySensors
  {
    match p
    case DoorLeftFront => assert BinarySensors[4] == Def(Closed(p), BinarySensorKind(Door, true));
    case DoorRightFront => assert BinarySensors[5] == Def(Closed(p), BinarySensorKind(Door, true));
    case DoorLeftBack => assert BinarySensors[6] == Def(Closed(p), BinarySensorKind(Door, true));
    case DoorRightBack => assert BinarySensors[7] == Def(Closed(p), BinarySensorKind(Door, true));
    case Trunk => assert BinarySensors[9] == Def(Closed(p), BinarySensorKind(Door, true));
    case WindowLeftFront => assert BinarySensors[12] == Def(Closed(p), BinarySensorKind(Window, true));
    case WindowLeftBack => assert BinarySensors[13] == Def(Closed(p), BinarySensorKind(Window, true));
    case WindowRightFront => assert BinarySensors[14] == Def(Closed(p), BinarySensorKind(Window, true));
    case WindowRightBack => assert BinarySensors[15] == Def(Closed(p), BinarySensorKind(Window, true));
  }

  /** A door, window or trunk sensor with a decodable code is on in Home
      Assistant iff the code is 3 (closed). */
  lemma ClosedIsOnIffCodeThree(p: Opening, v: Vehicle, config: Kw, getAttr: (Attrs, string) -> Outcome<Json>)
    ensures ParsedCode(v.attrs, OpeningId(p)).Ok? ==>
      IsOn(OpeningClass(p), State(Bound(Def(Closed(p), BinarySensorKind(OpeningClass(p), true)), v, config), getAttr)) ==
        Ok(JBool(ParsedCode(v.attrs, OpeningId(p)).value == 3))
  {
    ClosedIffCodeThree(p, v.attrs);
    BoundBinarySensorState(Def(Closed(p), BinarySensorKind(OpeningClass(p), true)), v, config, getAttr);
  }

  /** The trunk-lock sensor is on in Home Assistant iff the trunk lock code is 2. */
  lemma TrunkLockIsOnIffCodeTwo(v: Vehicle, config: Kw, getAttr: (Attrs, string) -> Outcome<Json>)
    ensures Def(TrunkLocked, BinarySensorKind(Lock, true)) in BinarySensors
    ensures ParsedCode(v.attrs, TrunkLockId).Ok? ==>
      IsOn(Lock, State(Bound(Def(TrunkLocked, BinarySensorKind(Lock, true)), v, config), getAttr)) ==
        Ok(JBool(ParsedCode(v.attrs, TrunkLockId).value == 2))
  {
    assert BinarySensors[8] == Def(TrunkLocked, BinarySensorKind(Lock, true));
    if ParsedCode(v.attrs, TrunkLockId).Ok? {
      var locked := ParsedCode(v.attrs, TrunkLockId).value == 2;
      TrunkLockedIffCodeTwo(v.attrs);
      assert InstrumentState(TrunkLocked, v.attrs, getAttr) == Ok(JBool(locked));
      BarrierIsOnIsVehicleBoolean(Def(TrunkLocked, BinarySensorKind(Lock, true)), v, config, getAttr, locked);
    }
  }

  /** The door-lock sensor is on in Home Assistant when all four lock codes
      are 2, and off as soon as one code, in reading order, decodes to
      something else. */
  lemma DoorLockIsOnIffAllFour(v: Vehicle, config: Kw, getAttr: (Attrs, string) -> Outcome<Json>)
    ensures Def(DoorLocked, BinarySensorKind(Lock, true)) in BinarySensors
    ensures (forall k :: 0 <= k < 4 ==> ParsedCode(v.attrs, LockIds[k]) == Ok(2)) ==>
      IsOn(Lock, State(Bound(Def(DoorLocked, BinarySensorKind(Lock, true)), v, config), getAttr)) == Ok(JBool(true))
    ensures (exists k :: FirstMismatch(v.attrs, LockIds, 2, k)) ==>
      IsOn(Lock, State(Bound(Def(DoorLocked, BinarySensorKind(Lock, true)), v, config), getAttr)) == Ok(JBool(false))
  {
    var d := Def(DoorLocked, BinarySensorKind(Lock, true));
    assert BinarySensors[3] == d;
    DoorLockedIffAllFour(v.attrs);
    if Read(DoorLocked, v.attrs) == Some(Ok(JBool(true))) {
      assert InstrumentState(DoorLocked, v.attrs, getAttr) == Ok(JBool(true));
      BarrierIsOnIsVehicleBoolean(d, v, config, getAttr, true);
    } else if Read(DoorLocked, v.attrs) == Some(Ok(JBool(false))) {
      assert InstrumentState(DoorLocked, v.attrs, getAttr) == Ok(JBool(false));
      BarrierIsOnIsVehicleBoolean(d, v, config, getAttr, false);
    }
  }

  /** Set-up creates binary-sensor entities for exactly the binary sensors
      among the instruments whose attribute is in the resources list. */
  lemma BinarySensorSetup(options: Kw, data: Kw, instruments: seq<Inst>)
    requires ResourcesKey in options && options[ResourcesKey].JList?
    ensures SetupEntities(true, options, data, instruments, BinarySensorComponent).Ok?
    ensures forall x :: x in SetupEntities(true, options, data, instruments, BinarySensorComponent).value ==>
      x.def.kind.BinarySensorKind?
  {
    SetupEntitiesFromOptions(options, data, instruments, BinarySensorComponent);
    forall x | x in SetupEntities(true, options, data, instruments, BinarySensorComponent).value
      ensures x.def.kind.BinarySensorKind?
    {
      ComponentIdentifiesKind(x.def.kind);
    }
  }
}
