/** The integration's shared state and its coordinator: looking up an
    instrument for an entity, the names and unique ids of entities, which
    vehicles a poll refreshes, and how the polled vehicles become the list of
    instruments every entity reads from. */
module SkodaIntegration {
  import opened Python
  import opened SkodaVehicle
  import opened SkodaDashboard
  import opened SkodaConnection
  import opened SkodaPlatform

  // ---------------------------------------------------------------------
  // `SkodaData.instrument`

  /** The first instrument of `s` that passes `test`, tried in order; a test
      that raises ends the search with its exception. */
  function First(s: seq<Inst>, test: Inst -> Outcome<bool>): Outcome<Option<Inst>>
    decreases |s|
  {
    if s == [] then Ok(None)
    else
      var hit :- test(s[0]);
      if hit then Ok(Some(s[0])) else First(s[1..], test)
  }

  /** The search gives None exactly when every test answers False. */
  lemma {:induction false} FirstNoneIffNoMatch(s: seq<Inst>, test: Inst -> Outcome<bool>)
    ensures First(s, test) == Ok(None) <==> forall k :: 0 <= k < |s| ==> test(s[k]) == Ok(false)
    decreases |s|
  {
    if s != [] {
      FirstNoneIffNoMatch(s[1..], test);
      assert forall k :: 0 < k < |s| ==> s[k] == s[1..][k - 1];
    }
  }

  /** The instrument found passed its test, and every one before it failed. */
  lemma {:induction false} FirstFoundIsFirstMatch(s: seq<Inst>, test: Inst -> Outcome<bool>)
    ensures First(s, test).Ok? && First(s, test).value.Some? ==>
      exists k :: 0 <= k < |s| && s[k] == First(s, test).value.value && test(s[k]) == Ok(true) &&
        forall j :: 0 <= j < k ==> test(s[j]) == Ok(false)
    decreases |s|
  {
    if s != [] && test(s[0]) == Ok(false) && First(s, test).Ok? && First(s, test).value.Some? {
      var rest := s[1..];
      FirstFoundIsFirstMatch(rest, test);
      var k :| 0 <= k < |rest| && rest[k] == First(rest, test).value.value && test(rest[k]) == Ok(true) &&
        forall j :: 0 <= j < k ==> test(rest[j]) == Ok(false);
      assert forall j :: 0 < j < k + 1 ==> s[j] == rest[j - 1];
      assert s[k + 1] == rest[k];
    }
  }

  /** The search raises exactly when a test raises before any instrument
      has passed. */
  lemma {:induction false} FirstRaisesIffEarlyRaise(s: seq<Inst>, test: Inst -> Outcome<bool>)
    ensures First(s, test).Raise? <==>
      exists k :: 0 <= k < |s| && test(s[k]).Raise? && forall j :: 0 <= j < k ==> test(s[j]) == Ok(false)
    decreases |s|
  {
    if s != [] && test(s[0]) == Ok(false) {
      var rest := s[1..];
      FirstRaisesIffEarlyRaise(rest, test);
      assert forall j :: 0 < j < |s| ==> s[j] == rest[j - 1];
      if First(rest, test).Raise? {
        var k :| 0 <= k < |rest| && test(rest[k]).Raise? && forall j :: 0 <= j < k ==> test(rest[j]) == Ok(false);
        assert test(s[k + 1]).Raise?;
      } else {
        forall k | 0 <= k < |s| && test(s[k]).Raise?
          ensures exists j :: 0 <= j < k && test(s[j]) != Ok(false)
        {
          assert test(rest[k - 1]).Raise?;
          var j :| 0 <= j < k - 1 && test(rest[j]) != Ok(false);
          assert test(s[j + 1]) != Ok(false);
        }
      }
    }
  }

  /** `instrument.vehicle.vin == vin and instrument.component == component
      and instrument.attr == attr`; an instrument bound to no vehicle has no
      `vin` to read. */
  function Matches(i: Inst, vin: string, component: string, attr: string): Outcome<bool> {
    if i.vehicle.None? then Raise(AttributeError)
    else Ok(i.vehicle.value.url == vin && Component(i.def.kind) == component && Name(i.def.attr) == attr)
  }

  /** `SkodaData.instrument(vin, component, attr)`: the search runs over the
      coordinator's data when there is a coordinator, which is None before
      its first refresh (iterating None raises TypeError), and otherwise over
      the data's own instruments. */
  function FindInstrument(coordinator: Option<Option<seq<Inst>>>, instruments: seq<Inst>,
                          vin: string, component: string, attr: string): Outcome<Option<Inst>> {
    var candidates :- match coordinator
      case None => Ok(instruments)
      case Some(None) => Raise(TypeError)
      case Some(Some(d)) => Ok(d);
    First(candidates, i => Matches(i, vin, component, attr))
  }

  /** Over a coordinator's data, where every instrument is bound to its
      vehicle, the lookup never raises: it finds the first instrument of the
      vehicle, component and attribute, or None when there is none. */
  lemma FindInstrumentInCoordinatorData(d: seq<Inst>, instruments: seq<Inst>, vin: string, component: string, attr: string)
    requires forall x :: x in d ==> x.vehicle.Some?
    ensures FindInstrument(Some(Some(d)), instruments, vin, component, attr).Ok?
    ensures var r := FindInstrument(Some(Some(d)), instruments, vin, component, attr).value;
      (r.None? <==> forall x :: x in d ==> Matches(x, vin, component, attr) == Ok(false)) &&
      (r.Some? ==>
        (r.value in d && r.value.vehicle == Some(Vehicle(vin, r.value.vehicle.value.attrs)) &&
         Component(r.value.def.kind) == component && Name(r.value.def.attr) == attr))
  {
    var test := i => Matches(i, vin, component, attr);
    FirstNoneIffNoMatch(d, test);
    FirstFoundIsFirstMatch(d, test);
    FirstRaisesIffEarlyRaise(d, test);
    assert forall k :: 0 <= k < |d| ==> !test(d[k]).Raise? by {
      forall k | 0 <= k < |d|
        ensures !test(d[k]).Raise?
      {
        assert d[k] in d;
      }
    }
  }

  // ---------------------------------------------------------------------
  // Entity names and ids

  /** `SkodaData.vehicle_name(vehicle)`. A configured name, when it is a
      non-empty string, wins; reading it may raise, which is passed over (the
      data object defines no `name`, so it always does). Then the nickname
      when the vehicle supports one, else the vin when truthy, else None
      (the method falls off its end); an exception while reading these gives
      the empty name. */
  function VehicleName(name: Outcome<Json>, nicknameSupported: Outcome<Json>, nickname: Outcome<Json>, vin: Outcome<Json>): (r: Json)
    ensures name.Ok? && name.value.JStr? && name.value.s != [] ==> r == name.value
    ensures (name.Ok? && r == name.value) || r == JStr("") || r == JNull ||
      (nickname.Ok? && r == nickname.value) || (vin.Ok? && r == vin.value)
    ensures r == JNull && !(nickname.Ok? && nickname.value == JNull) ==>
      nicknameSupported.Ok? && !Truthy(nicknameSupported.value) && vin.Ok? && !Truthy(vin.value)
  {
    if name.Ok? && name.value.JStr? && name.value.s != [] then name.value
    else match nicknameSupported
      case Raise(_) => JStr("")
      case Ok(supported) =>
        if Truthy(supported) then (if nickname.Ok? then nickname.value else JStr(""))
        else match vin
          case Raise(_) => JStr("")
          case Ok(v) => if Truthy(v) then v else JNull
  }

  /** Without a configured name, a vehicle is named by its nickname when it
      supports one, and otherwise by its vin. */
  lemma NamedByNicknameOrVin(nicknameSupported: bool, nickname: string, vin: string)
    requires vin != []
    ensures VehicleName(Raise(AttributeError), Ok(JBool(nicknameSupported)), Ok(JStr(nickname)), Ok(JStr(vin))) ==
      JStr(if nicknameSupported then nickname else vin)
  {
  }

  /** `SkodaEntity.unique_id`: `f"{vin}-{component}-{attribute}"`. */
  function UniqueId(vin: string, component: string, attr: string): (r: string)
    ensures |r| == |vin| + |component| + |attr| + 2
  {
    vin + "-" + component + "-" + attr
  }

  /** The index of the first '-' in `s`, or `|s|` when there is none. */
  function DashIndex(s: string): (r: nat)
    ensures r <= |s|
    decreases |s|
  {
    if s == [] || s[0] == '-' then 0 else 1 + DashIndex(s[1..])
  }

  lemma {:induction false} DashIndexAfter(a: string, b: string)
    requires '-' !in a
    ensures DashIndex(a + "-" + b) == |a|
    decreases |a|
  {
    if a != [] {
      assert (a + "-" + b)[1..] == a[1..] + "-" + b;
      assert a[0] in a;
      DashIndexAfter(a[1..], b);
    }
  }

  /** A string split at a first dash gives back its two parts. */
  lemma SplitAtDash(a: string, b: string, c: string, d: string)
    requires '-' !in a && '-' !in c && a + "-" + b == c + "-" + d
    ensures a == c && b == d
  {
    var s := a + "-" + b;
    DashIndexAfter(a, b);
    DashIndexAfter(c, d);
    assert a == s[..|a|] && c == s[..|c|];
    assert b == s[|a| + 1..] && d == s[|c| + 1..];
  }

  /** No component name contains a dash. */
  lemma ComponentHasNoDash(k: Kind)
    ensures '-' !in Component(k)
  {
  }

  /** Unique ids are unique: for vins without a dash, two entities share an
      id only when they share vehicle, component and attribute. */
  lemma UniqueIdInjective(vin1: string, k1: Kind, attr1: string, vin2: string, k2: Kind, attr2: string)
    requires '-' !in vin1 && '-' !in vin2
    requires UniqueId(vin1, Component(k1), attr1) == UniqueId(vin2, Component(k2), attr2)
    ensures vin1 == vin2 && Component(k1) == Component(k2) && attr1 == attr2
  {
    ComponentHasNoDash(k1);
    ComponentHasNoDash(k2);
    var c1, c2 := Component(k1), Component(k2);
    assert vin1 + "-" + (c1 + "-" + attr1) == UniqueId(vin1, c1, attr1);
    assert vin2 + "-" + (c2 + "-" + attr2) == UniqueId(vin2, c2, attr2);
    SplitAtDash(vin1, c1 + "-" + attr1, vin2, c2 + "-" + attr2);
    SplitAtDash(c1, attr1, c2, attr2);
  }

  // ---------------------------------------------------------------------
  // `SkodaCoordinator.update`

  const DevicesKey := "devices"

  /** `entry.options.get(CONF_RESOURCES, entry.data.get(CONF_DEVICES, []))`. */
  function Monitor(options: Kw, data: Kw): Json {
    KwGet(options, ResourcesKey, KwGet(data, DevicesKey, JList([])))
  }

  /** The values `for vin in monitor` visits: the items of a list, the
      one-character strings of a string, the keys of a dictionary; anything
      else is not iterable. */
  function MonitorEntries(monitor: Json): (r: Outcome<set<Json>>)
    ensures monitor.JList? ==> r == Ok(set x | x in monitor.items)
    ensures r.Ok? <==> monitor.JList? || monitor.JStr? || monitor.JObj?
    ensures r.Ok? ==> (r.value == {} <==> !Truthy(monitor))
  {
    match monitor
    case JList(items) =>
      var xs := set x | x in items;
      assert items != [] ==> items[0] in xs;
      Ok(xs)
    case JStr(s) =>
      if s == [] then Ok({})
      else
        var chars := set c | c in s :: JStr([c]);
        assert JStr([s[0]]) in chars;
        Ok(chars)
    case JObj(m) =>
      var keys := set k | k in m :: JStr(k);
      assert m != map[] ==> exists k :: k in m && JStr(k) in keys;
      Ok(keys)
    case _ => Raise(TypeError)
  }

  /** `self.connection.vehicle(vin).vin` reads without raising: the entry is
      a string (else `lower()` is missing) naming a vehicle of the
      connection (else the lookup gives None, which has no `vin`). */
  predicate NamesVehicle(conn: Connection, e: Json)
    reads conn
    requires conn.Valid()
  {
    e.JStr? && conn.FindVehicle(e.s).Some?
  }

  /** The urls `update` queues an update for: the lower-cased monitored
      entries; None when building the queue raises, because the monitor is
      not iterable or an entry names no vehicle. */
  function QueuedUrls(conn: Connection, monitor: Json): (r: Option<set<string>>)
    reads conn
    requires conn.Valid()
    ensures r.Some? <==> MonitorEntries(monitor).Ok? && forall e :: e in MonitorEntries(monitor).value ==> NamesVehicle(conn, e)
    ensures r.Some? ==> r.value <= conn.state.Keys
    ensures r.Some? ==> (r.value == {} <==> !Truthy(monitor))
    ensures r.Some? ==> forall e :: e in MonitorEntries(monitor).value ==> e.JStr? && Lower(e.s) in r.value
    ensures r.Some? ==> forall u :: u in r.value ==> exists e :: e in MonitorEntries(monitor).value && e == JStr(e.s) && Lower(e.s) == u
  {
    match MonitorEntries(monitor)
    case Raise(_) => None
    case Ok(es) =>
      if forall e :: e in es ==> NamesVehicle(conn, e) then
        var urls := set e | e in es && e.JStr? :: Lower(e.s);
        assert es != {} ==> urls != {} by {
          if es != {} {
            var e :| e in es;
            assert Lower(e.s) in urls;
          }
        }
        Some(urls)
      else None
  }

  /** `SkodaCoordinator.update`. Building the queue looks every monitored
      entry up; an entry that names no vehicle raises before any queued
      update runs, so the poll fails and the state is untouched. With
      nothing queued, `update_all` decides and the state is left as it is.
      Otherwise the queued `update_vehicle` calls run, none of which raises:
      exactly the monitored vehicles are merged with their own responses
      and the refreshed vehicles are returned. `updateAll` is what
      `update_all()` returned or raised; `fetch` gives each vehicle's
      responses. */
  method CoordinatorUpdate(conn: Connection, options: Kw, data: Kw, updateAll: Outcome<Json>, fetch: string -> Responses)
    returns (r: Option<seq<Vehicle>>)
    requires conn.Valid()
    modifies conn
    ensures conn.Valid()
    ensures conn.order == old(conn.order) && conn.loggedIn == old(conn.loggedIn) && conn.firstUpdate == old(conn.firstUpdate)
    ensures r.Some? ==> r.value == conn.Vehicles()
    ensures old(QueuedUrls(conn, Monitor(options, data))).None? ==>
      r.None? && conn.state == old(conn.state) && conn.vin == old(conn.vin)
    ensures old(QueuedUrls(conn, Monitor(options, data))) == Some({}) ==>
      (r.Some? <==> updateAll.Ok? && Truthy(updateAll.value)) && conn.state == old(conn.state) && conn.vin == old(conn.vin)
    ensures old(QueuedUrls(conn, Monitor(options, data))).Some? && old(QueuedUrls(conn, Monitor(options, data))).value != {} ==>
      r.Some? && conn.state == PollSome(old(conn.state), old(QueuedUrls(conn, Monitor(options, data))).value, fetch)
      && conn.vin in old(QueuedUrls(conn, Monitor(options, data))).value
  {
    var monitor := Monitor(options, data);
    var entries := MonitorEntries(monitor);
    if entries.Raise? {
      return None;
    }
    var pending := entries.value;
    while pending != {}
      invariant pending <= entries.value
      invariant forall e :: e in entries.value && e !in pending ==> NamesVehicle(conn, e)
      decreases pending
    {
      var vin :| vin in pending;
      if !vin.JStr? {
        return None;
      }
      var vehicle := conn.FindVehicle(vin.s);
      if vehicle.None? {
        return None;
      }
      pending := pending - {vin};
    }
    var urls := set e | e in entries.value && e.JStr? :: Lower(e.s);
    assert QueuedUrls(conn, monitor) == Some(urls);
    if urls == {} {
      if updateAll.Ok? && Truthy(updateAll.value) {
        return Some(conn.Vehicles());
      }
      return None;
    }
    conn.UpdateSome(urls, fetch);
    r := Some(conn.Vehicles());
  }

  /** With neither `resources` in the options nor `devices` in the data,
      nothing is monitored, so nothing is queued and `update_all` decides. */
  lemma NothingMonitoredUpdatesAll(conn: Connection, options: Kw, data: Kw)
    requires conn.Valid()
    requires ResourcesKey !in options && DevicesKey !in data
    ensures QueuedUrls(conn, Monitor(options, data)) == Some({})
  {
  }

  /** A monitored entry that is not the vin of a known vehicle fails the
      whole poll, whatever the others are. */
  lemma UnknownEntryFailsPoll(conn: Connection, options: Kw, data: Kw, e: Json)
    requires conn.Valid()
    requires Monitor(options, data).JList? && e in Monitor(options, data).items && !NamesVehicle(conn, e)
    ensures QueuedUrls(conn, Monitor(options, data)).None?
  {
  }

  /** A vehicle monitored twice, or under two spellings of its vin, is
      queued twice in the source; the second update, with the same
      responses, leaves the state of the first. */
  lemma MonitoredTwiceUpdatedOnce(st: map<string, Attrs>, urls: set<string>, fetch: string -> Responses)
    ensures PollSome(PollSome(st, urls, fetch), urls, fetch) == PollSome(st, urls, fetch)
  {
    PollSomeTwice(st, urls, fetch);
  }

  // ---------------------------------------------------------------------
  // `SkodaCoordinator._async_update_data`

  /** The keyword arguments each vehicle's dashboard gets from the entry
      options: `mutable` and `spin` (None when absent), and the two unit
      flags derived from the `convert` option. */
  function DashboardConfig(options: Kw): (r: Kw)
    ensures Truthy(KwGet(r, "scandinavian_miles", JBool(false))) <==>
      KwGet(options, "convert", JStr("no_conversion")) == JStr("scandinavian_miles")
    ensures Truthy(KwGet(r, "miles", JBool(false))) <==>
      KwGet(options, "convert", JStr("no_conversion")) == JStr("imperial_units")
  {
    var convert := KwGet(options, "convert", JStr("no_conversion"));
    map["mutable" := KwGet(options, "mutable", JNull),
        "spin" := KwGet(options, "spin", JNull),
        "miles" := JBool(convert == JStr("imperial_units")),
        "scandinavian_miles" := JBool(convert == JStr("scandinavian_miles"))]
  }

  /** Units follow the `convert` option: Scandinavian miles rename the
      kilometre units; imperial units, like no conversion, keep them. */
  lemma ConvertOptionSelectsUnits(options: Kw, unit: string)
    ensures ConfiguredUnit(unit, DashboardConfig(options)) ==
      if KwGet(options, "convert", JStr("no_conversion")) == JStr("scandinavian_miles") && unit in MileUnits
      then MileUnits[unit] else unit
    ensures KwGet(options, "convert", JStr("no_conversion")) == JStr("imperial_units") ==>
      ConfiguredUnit(unit, DashboardConfig(options)) == unit
  {
    UnitRenameTable(unit, DashboardConfig(options));
  }

  /** The instruments of the dashboards of `vs`, concatenated in vehicle
      order; the first dashboard that fails fails the whole list. */
  function AllDashboards(vs: seq<Vehicle>, config: Kw): Outcome<seq<Inst>>
    decreases |vs|
  {
    if vs == [] then Ok([])
    else
      var before :- AllDashboards(vs[..|vs| - 1], config);
      var last :- Dashboard(Catalogue, vs[|vs| - 1], config);
      Ok(before + last)
  }

  /** The instruments of one vehicle's dashboard are bound to that vehicle. */
  lemma DashboardEntries(cat: seq<Def>, v: Vehicle, config: Kw)
    ensures Dashboard(cat, v, config).Ok? ==>
      forall x :: x in Dashboard(cat, v, config).value ==>
        x.def in cat && x.vehicle == Some(v) &&
        x == Bound(x.def, v, config) && SetupOutcome(x.def.attr, v.attrs) == Ok(true)
  {
    DashboardIsSupportedEntries(cat, v, config);
    if Dashboard(cat, v, config).Ok? {
      forall x | x in Dashboard(cat, v, config).value
        ensures x.vehicle == Some(v)
      {
        BoundKeepsVehicle(x.def, v, config);
      }
    }
  }

  /** Configuring an instrument leaves its vehicle alone. */
  lemma BoundKeepsVehicle(d: Def, v: Vehicle, config: Kw)
    ensures Bound(d, v, config).vehicle == Some(v)
  {
  }

  /** Every instrument of the coordinator's data is a supported catalogue
      entry, configured and bound to one of the polled vehicles. */
  lemma {:induction false} AllDashboardsEntries(vs: seq<Vehicle>, config: Kw)
    ensures AllDashboards(vs, config).Ok? ==>
      forall x :: x in AllDashboards(vs, config).value ==>
        x.def in Catalogue && x.vehicle.Some? && x.vehicle.value in vs &&
        x == Bound(x.def, x.vehicle.value, config) && SetupOutcome(x.def.attr, x.vehicle.value.attrs) == Ok(true)
    decreases |vs|
  {
    if vs != [] {
      var init := vs[..|vs| - 1];
      var v := vs[|vs| - 1];
      AllDashboardsEntries(init, config);
      DashboardEntries(Catalogue, v, config);
      assert forall w :: w in init ==> w in vs;
    }
  }

  /** The list fails exactly when some vehicle's dashboard fails. */
  lemma {:induction false} AllDashboardsFailIffOneFails(vs: seq<Vehicle>, config: Kw)
    ensures AllDashboards(vs, config).Raise? <==> exists v :: v in vs && Dashboard(Catalogue, v, config).Raise?
    decreases |vs|
  {
    if vs != [] {
      var init := vs[..|vs| - 1];
      AllDashboardsFailIffOneFails(init, config);
      assert vs == init + [vs[|vs| - 1]];
    }
  }

  /** A dashboard that fails ends the list with its failure when the
      vehicles before it gave theirs. */
  lemma AllDashboardsStop(vs: seq<Vehicle>, i: nat, config: Kw)
    requires i < |vs| && AllDashboards(vs[..i], config).Ok? && Dashboard(Catalogue, vs[i], config).Raise?
    ensures AllDashboards(vs[..i + 1], config) == Raise(Dashboard(Catalogue, vs[i], config).exc)
  {
    assert vs[..i + 1][..i] == vs[..i];
  }

  /** A failed prefix fails the whole list the same way. */
  lemma {:induction false} AllDashboardsFailurePersists(vs: seq<Vehicle>, j: nat, config: Kw)
    requires j <= |vs| && AllDashboards(vs[..j], config).Raise?
    ensures AllDashboards(vs, config) == AllDashboards(vs[..j], config)
    decreases |vs| - j
  {
    if j == |vs| {
      assert vs[..j] == vs;
    } else {
      assert vs[..j + 1][..j] == vs[..j];
      AllDashboardsFailurePersists(vs, j + 1, config);
    }
  }

  /** `_async_update_data`: a failed poll (False) raises UpdateFailed,
      modelled as `OtherError`. A successful poll hands back the `vehicles`
      generator, which is truthy even when it yields nothing, so an empty
      fleet gives no instruments; otherwise the instruments of each
      vehicle's new dashboard, concatenated. */
  method UpdateData(polled: Option<seq<Vehicle>>, options: Kw) returns (r: Outcome<seq<Instrument>>)
    ensures polled.None? ==> r == Raise(OtherError)
    ensures polled == Some([]) ==> r == Ok([])
    ensures polled.Some? && r.Ok? ==>
      AllDashboards(polled.value, DashboardConfig(options)) == Ok(Views(r.value))
    ensures polled.Some? && r.Raise? ==>
      AllDashboards(polled.value, DashboardConfig(options)) == Raise(r.exc)
  {
    if polled.None? {
      return Raise(OtherError);
    }
    var vs := polled.value;
    var config := DashboardConfig(options);
    var all: seq<Instrument> := [];
    var i := 0;
    assert vs[..0] == [];
    while i < |vs|
      invariant 0 <= i <= |vs|
      invariant AllDashboards(vs[..i], config) == Ok(Views(all))
    {
      var dashboard := NewDashboard(vs[i], config);
      if dashboard.Raise? {
        AllDashboardsStop(vs, i, config);
        AllDashboardsFailurePersists(vs, i + 1, config);
        return Raise(dashboard.exc);
      }
      assert vs[..i + 1][..i] == vs[..i];
      ViewsConcat(all, dashboard.value);
      all := all + dashboard.value;
      i := i + 1;
    }
    assert vs[..|vs|] == vs;
    r := Ok(all);
  }
}
