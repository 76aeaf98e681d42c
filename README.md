# Skoda Connect for Home Assistant, modelled in Dafny

This project models the core of the `skodaconnect` Home Assistant
integration and proves properties of that model. The integration polls the
Skoda Connect cloud service and turns each car into a set of Home Assistant
entities.

- **The connection** (`skoda/skoda.py`, `Connection`) logs in and keeps one
  dictionary of sub-resources per vehicle url. It resets the listed
  vehicles and merges five separately fetched responses into each one:
  carport data, position, stored status, trip statistics and heating. From
  the stored status it also builds a parsed map from field ids to field
  entries. It fills `$vin` into endpoint templates and builds the
  secure-PIN digest input.
- **The vehicle** (`skoda/skoda.py`, `Vehicle`) decodes that dictionary
  into properties such as `door_locked`, `windows_closed` or
  `charging_time_left`. Each property has an `is_<attr>_supported`
  predicate beside it.
- **The dashboard** (`skoda/dashboardskoda.py`) holds the catalogue of
  instruments: sensors, binary sensors, switches, locks, a tracker and a
  climate. `Dashboard` keeps the instruments a vehicle supports, each
  configured with the entry's options. The instruments' `state` and
  `str_state` turn the vehicle properties into entity states.
- **The integration** (`__init__.py`) does the following:
  - clamps the polling interval;
  - migrates old config entries;
  - checks the arguments of the `set_schedule` and `set_climater` services;
  - finds instruments and names vehicles;
  - builds unique ids;
  - runs the coordinator's poll, which merges fresh responses into the
    monitored vehicles and then rebuilds every vehicle's dashboard.
- **The binary-sensor and climate platforms** (`binary_sensor.py`,
  `climate.py`) create entities for the listed instruments. They also
  translate instrument states into Home Assistant's `is_on`,
  `device_class`, HVAC mode and target temperature.

The Python language features the code relies on are modelled explicitly in
`python.dfy`: JSON-like values, truthiness, exceptions as an `Outcome`,
`int()` and `float()` of a string (surrounding Unicode whitespace, a sign,
ASCII digits with single underscores between them, and for `float()` a
fraction and an exponent), `in`, `dict.get` and subscripting. Vehicle properties
and support predicates are looked up through explicit tables. A missing
entry in a table stands for Python's `AttributeError` from `getattr`.

Objects whose fields the source updates in place are classes:
- `Connection`, whose vehicle state, login flag and last vin are fields;
- `Instrument`, whose vehicle, unit, spin and duration are fields;
- `ConfigEntry`, whose version, data and options are fields.

The loops of the source are methods with loop invariants, each proved
against a function that specifies it:
- the reset and update loops of `Connection.update`;
- the list comprehension of `Dashboard`;
- the dictionary that `set_schedule` fills;
- the monitor loop of the coordinator and the updates it queues;
- the dashboard loop of `_async_update_data`.

`__init__.py` drives a connection object from the `skodaconnect` package
that it imports. That package is not part of this model. Its connection is
modelled by the `Connection` class of `skoda/skoda.py`, which offers the
same `vehicle(vin)` and `vehicles` operations, and whose `update_vehicle`
is what each queued `vehicle.update()` runs. `skoda/skoda.py` has no
`update_all`, which the coordinator calls when nothing is monitored: its
answer is a parameter of the coordinator's poll.

## Model

| member | source | states |
|---|---|---|
| SkodaVehicle.DecodeTable | custom_components/skodaconnect/skoda/skoda.py:578-1126 | Every property read from a single status code decodes the code's text as the reference table says: booleans for closed, locked and parking light; integers for distance and levels; text for inspections and AdBlue. |
| SkodaVehicle.ClosedIffCodeThree | custom_components/skodaconnect/skoda/skoda.py:891-957 | A door, window or trunk is closed iff its int-cast code is 3, open iff the code decodes to anything else, and the property raises exactly when the code cannot be decoded. |
| SkodaVehicle.TrunkLockedIffCodeTwo | custom_components/skodaconnect/skoda/skoda.py:1112-1126 | The trunk is locked iff its code is 2, unlocked iff the code is another integer. |
| SkodaVehicle.ParkingLightIffCodeNotTwo | custom_components/skodaconnect/skoda/skoda.py:640-656 | The parking light is on iff its code is an integer other than 2, off iff it is 2. |
| SkodaVehicle.AllCodesAreIff | custom_components/skodaconnect/skoda/skoda.py:998-1018 | The short-circuit check of several codes answers True iff every code equals the expected value, and False iff the first code that differs is an integer. |
| SkodaVehicle.DoorLockedIffAllFour | custom_components/skodaconnect/skoda/skoda.py:998-1018 | The doors are locked iff all four lock codes are 2; they are unlocked as soon as one code, in reading order, is another integer. |
| SkodaVehicle.WindowsClosedIsConjunction | custom_components/skodaconnect/skoda/skoda.py:878-889 | `windows_closed` is true iff each of the four windows reports closed, and false whenever the left-front window reports open. |
| SkodaVehicle.WindowsClosedSupportChecksOneWindow | custom_components/skodaconnect/skoda/skoda.py:878-889 | The windows-closed support check looks at one window only: it can answer True while the property itself raises KeyError for a missing window. |
| SkodaVehicle.ParsedSupportTable | custom_components/skodaconnect/skoda/skoda.py:1019-1025 | A parsed-code support predicate answers None iff the parsed map is missing or empty, True iff the id is present, and False iff the non-empty map lacks it. |
| SkodaVehicle.SupportFollowsParsedId | custom_components/skodaconnect/skoda/skoda.py:640-1126 | Each parsed-code support predicate is the presence test of its own field id; `door_locked` and `windows_closed` test only their first id. |
| SkodaVehicle.SupportIsTriState | custom_components/skodaconnect/skoda/skoda.py:538-1230 | Every support predicate answers True, False or None, or raises. |
| SkodaVehicle.SunroofTextNeverClosed | custom_components/skodaconnect/skoda/skoda.py:959-977 | A sunroof code with non-zero text is supported, yet the sunroof is reported open because the uncast text is compared with 3. |
| SkodaVehicle.SunroofZeroUnsupported | custom_components/skodaconnect/skoda/skoda.py:967-977 | A sunroof code of 0 makes the sunroof unsupported. |
| SkodaVehicle.ChargingTimeLeftWithoutPower | custom_components/skodaconnect/skoda/skoda.py:979-996 | Without external power the remaining charge time is 0. |
| SkodaVehicle.ChargingTimeLeftWithPower | custom_components/skodaconnect/skoda/skoda.py:979-996 | With external power and non-zero integer counters, the remaining charge time is hours times 60 plus minutes. |
| SkodaVehicle.ChargingTimeLeftFallsBackToZero | custom_components/skodaconnect/skoda/skoda.py:979-996 | A zero or unconvertible hour counter gives 0 rather than an error. |
| Python.IntWithUnderscore | custom_components/skodaconnect/skoda/skoda.py:661 | `int()` accepts an underscore between digits: `"1_0"` is 10. |
| Python.IntWithUnicodeSpace | custom_components/skodaconnect/skoda/skoda.py:661 | `int()` ignores Unicode whitespace around the number, such as U+001C and the no-break space U+00A0. |
| Python.MisplacedUnderscore | custom_components/skodaconnect/skoda/skoda.py:661 | `int()` rejects a leading, trailing or doubled underscore. |
| Python.FloatWithExponent | custom_components/skodaconnect/climate.py:96 | `float()` reads an exponent: `"2e3"` is 2000. |
| Python.FloatWithNegativeExponent | custom_components/skodaconnect/climate.py:96 | `float()` reads a negative exponent: `"5E-1"` is 0.5. |
| SkodaConnection.ExpandLiteral | custom_components/skodaconnect/skoda/skoda.py:276 | `re.sub` reads the vin as a replacement template; a vin without a backslash is inserted as it is. |
| SkodaConnection.ExpandExamples | custom_components/skodaconnect/skoda/skoda.py:276 | How `re.sub` reads escapes in the vin: `\n` becomes a newline, `\g<0>` is the matched `$vin`, `\.` keeps its backslash, an octal escape gives its character, and a group reference, an unknown letter escape, an octal value above 255 or a trailing backslash raise. |
| SkodaConnection.ReplaceVin | custom_components/skodaconnect/skoda/skoda.py:276 | The substitution succeeds exactly when the vin parses as a replacement template, and raises re.error otherwise, whatever the url. |
| SkodaConnection.ReplaceVinSkipsPlainText | custom_components/skodaconnect/skoda/skoda.py:275-276 | A url without a `$` comes back unchanged, or raises when the vin is not a valid template, because `re.sub` parses the template even when nothing matches. |
| SkodaConnection.ReplaceVinFillsTemplate | custom_components/skodaconnect/skoda/skoda.py:275-276 | Every `$vin` of a template is replaced by the vin's expansion and nothing else changes; a vin without a backslash is inserted literally; a vin that does not parse raises. |
| SkodaConnection.SchemeColon | custom_components/skodaconnect/skoda/skoda.py:281 | The scheme `urljoin` sees ends at a colon, starts with an ASCII letter and holds only letters, digits, `+`, `-` and `.`. |
| SkodaConnection.UrlJoin | custom_components/skodaconnect/skoda/skoda.py:281 | Raises ValueError exactly when the reference has an authority with a `[` but no `]` or the other way round, whatever its scheme. Otherwise a reference with a scheme other than `https` is returned as it is. A network-path reference with a non-empty authority takes the https scheme. One with an empty authority (`//`, `///x`) keeps the base host. Any other reference without a scheme goes on the base host, a relative path joined to it with one slash, and an empty reference gives the base. |
| SkodaConnection.UrlJoinExamples | custom_components/skodaconnect/skoda/skoda.py:281 | `//` gives the base, `///x` gives the base followed by `/x`, and `//[x` raises ValueError. |
| SkodaConnection.MakeUrl | custom_components/skodaconnect/skoda/skoda.py:275-281 | Raises exactly when the vin does not parse as a replacement template (re.error) or when the filled-in endpoint has no `://` and `urljoin` rejects its authority (ValueError). A filled-in endpoint with `://` is used as it is. One without is what `urljoin` makes of it against the base host. |
| SkodaConnection.MakeUrlIsAbsolute | custom_components/skodaconnect/skoda/skoda.py:275-281 | When `_make_url` succeeds, the url names a scheme (`://`) exactly when the filled-in endpoint already did or is resolved against the https base; an endpoint with another scheme has none. |
| SkodaConnection.MakeUrlKeepsOtherScheme | custom_components/skodaconnect/skoda/skoda.py:275-281 | A filled-in endpoint with another scheme and no `://` is returned unchanged; it cannot have an authority, so `urljoin` never raises on it. |
| SkodaConnection.MailtoKeepsItsScheme | custom_components/skodaconnect/skoda/skoda.py:275-281 | The vin `mailto:x` in the endpoint `$vin` yields `mailto:x`, which has no `://`. |
| SkodaConnection.MakeUrlOfRelativeEndpoint | custom_components/skodaconnect/skoda/skoda.py:275-281 | A relative endpoint with one `$vin` becomes the base host, a slash, then the endpoint with the vin's expansion in place of the token, whenever the filled-in reference has nothing `urljoin` strips or normalises: no control character or space, no dot, no empty segment, no fragment, no parameters and no empty query. |
| SkodaConnection.EndpointUrl | custom_components/skodaconnect/skoda/skoda.py:347-404 | An endpoint shaped like those of the update loop, filled in with a vin of letters and digits, has nothing `urljoin` strips or normalises, and is the base host, a slash and the endpoint with the vin in place of the token. |
| SkodaConnection.MakeUrlKeepsAbsolute | custom_components/skodaconnect/skoda/skoda.py:275-279 | A url that contains `://` once the vin is filled in is used as it is. |
| SkodaConnection.FieldLists | custom_components/skodaconnect/skoda/skoda.py:379 | The field lists are one per data block, each that block's `field` entry. |
| SkodaConnection.Pair | custom_components/skodaconnect/skoda/skoda.py:379 | A field entry gives a pair iff it is a dictionary with a string `id`: the id, with the entry itself when it has a `value` and "" otherwise. |
| SkodaConnection.Pairs | custom_components/skodaconnect/skoda/skoda.py:379 | The pairs of all entries exist iff every entry gives one, and they are in entry order. |
| SkodaConnection.ToDictKeys | custom_components/skodaconnect/skoda/skoda.py:379 | `dict()` of the pairs has exactly the ids of the pairs as keys. |
| SkodaConnection.ToDictLastWins | custom_components/skodaconnect/skoda/skoda.py:379 | In `dict()` of the pairs, each key holds the value of its last pair. |
| SkodaConnection.FlattenLastEntryWins | custom_components/skodaconnect/skoda/skoda.py:379 | Every field entry's id is a key of the parsed map, holding its last entry when that has a `value` and "" otherwise. |
| SkodaConnection.FlattenKeysAreIds | custom_components/skodaconnect/skoda/skoda.py:379 | Every key of the parsed map is the id of some field entry. |
| SkodaConnection.FlattenNeedsStringIds | custom_components/skodaconnect/skoda/skoda.py:379 | One entry that is not a dictionary with a string id makes the whole flattening fail. |
| SkodaConnection.Stored | custom_components/skodaconnect/skoda/skoda.py:344-412 | One fetch block stores at most its own key, only when the request succeeded and the response field is truthy, and then stores that field's value. |
| SkodaConnection.StatusStored | custom_components/skodaconnect/skoda/skoda.py:370-384 | The status block stores the raw tree from the response, and stores the parsed map only beside it, as the flattening of the same response. |
| SkodaConnection.MergedInRequestOrder | custom_components/skodaconnect/skoda/skoda.py:344-412 | The merge lays the five blocks' dictionaries over the old state in request order: carport, position, status, trip, heating. |
| SkodaConnection.MergeKeepsOtherKeys | custom_components/skodaconnect/skoda/skoda.py:344-412 | The merge drops no key, adds only the six sub-resource keys, and leaves every other key's value unchanged. |
| SkodaConnection.SubResourceIsLocal | custom_components/skodaconnect/skoda/skoda.py:344-412 | Each sub-resource after the merge depends only on its own response: a failed fetch leaves its key as it was, whatever the others did. |
| SkodaConnection.ParsedMatchesStoredStatus | custom_components/skodaconnect/skoda/skoda.py:370-384 | A changed parsed map is the flattening of the very status response whose raw tree is stored beside it. |
| SkodaConnection.UnflattenableStatusKeepsOldParsed | custom_components/skodaconnect/skoda/skoda.py:370-384 | A status response that passes the guard but cannot be flattened still replaces the raw tree, and the old parsed map stays. |
| SkodaConnection.MergedIdempotent | custom_components/skodaconnect/skoda/skoda.py:344-412 | Running `update_vehicle` again with the same responses changes nothing: each block overwrites only what it wrote the first time. |
| SkodaConnection.StringPrefix | custom_components/skodaconnect/skoda/skoda.py:317-321 | The ids the reset loop handles before failing are the leading string items of the listing, stopping at the first non-string item. |
| SkodaConnection.Reset | custom_components/skodaconnect/skoda/skoda.py:316-321 | After the reset every listed id holds an empty dictionary, every other known vehicle keeps its sub-resources, and no known vehicle is dropped. |
| SkodaConnection.PollAllByIndex | custom_components/skodaconnect/skoda/skoda.py:331-334 | A state in which every vehicle url has been merged once with its own responses is the poll of the old state. |
| SkodaConnection.PollSome | custom_components/skodaconnect/__init__.py:784-800 | The state after the queued updates has exactly the known vehicles as keys. |
| SkodaConnection.PollSomePointwise | custom_components/skodaconnect/__init__.py:784-800 | A state with the old keys whose entries are merged exactly for the queued urls is the state the queued updates give. |
| SkodaConnection.PollSomeOfAll | custom_components/skodaconnect/__init__.py:784-800 | Queuing every known vehicle gives the same state as the connection's own poll of every vehicle. |
| SkodaConnection.PollSomeTwice | custom_components/skodaconnect/__init__.py:784-800 | Running the same queued updates twice with the same responses leaves the state of the first run. |
| SkodaConnection.FirstWithUrl | custom_components/skodaconnect/skoda/skoda.py:414-422 | The generator search finds nothing iff no vehicle has the url, and otherwise finds a vehicle with that url before which no vehicle has it. |
| SkodaConnection.ListedIdsOfPrefix | custom_components/skodaconnect/skoda/skoda.py:316-321 | A list or string listing succeeds iff all its items are strings, and then the ids it resets are exactly those items. |
| SkodaConnection.Connection.constructor | custom_components/skodaconnect/skoda/skoda.py:56-77 | A new connection is not logged in, has not polled yet and holds no vehicles. |
| SkodaConnection.Connection.Login | custom_components/skodaconnect/skoda/skoda.py:227-239 | A successful login sets the flag `logged_in` reports, a failed one clears it, an aborted one keeps it, and nothing else changes. |
| SkodaConnection.Connection.VehicleAttrs | custom_components/skodaconnect/skoda/skoda.py:429-430 | `vehicle_attrs(url)` answers iff some vehicle of `vehicles` has that url, and then gives that very vehicle's sub-resources; None otherwise. |
| SkodaConnection.Connection.Vehicles | custom_components/skodaconnect/skoda/skoda.py:424-427 | `vehicles` yields one vehicle per known url, in insertion order, with that url's sub-resources; no url is yielded twice, and every key of the state is yielded. |
| SkodaConnection.Connection.UpdateVehicle | custom_components/skodaconnect/skoda/skoda.py:339-412 | `update_vehicle` records the url as the current vin, replaces that vehicle's state by the merge of its responses, and leaves an unknown url's state untouched. |
| SkodaConnection.Connection.ResetOne | custom_components/skodaconnect/skoda/skoda.py:321 | Resetting one id gives it an empty dictionary and appends it to the order when it is new. |
| SkodaConnection.Connection.ResetIds | custom_components/skodaconnect/skoda/skoda.py:316-321 | The reset loop over a sequence of ids empties each of them and appends the new ones in order. |
| SkodaConnection.Connection.ResetKeys | custom_components/skodaconnect/skoda/skoda.py:316-321 | The reset loop over a dictionary's keys empties each key and keeps every url already known. |
| SkodaConnection.Connection.ResetListed | custom_components/skodaconnect/skoda/skoda.py:314-321 | Resetting a truthy listing succeeds iff every listed item is an id, raising TypeError otherwise, and empties exactly the listed vehicles; a list item that is not a string stops the loop after the items before it. |
| SkodaConnection.Connection.UpdateNext | custom_components/skodaconnect/skoda/skoda.py:331-334 | One pass of the update loop merges vehicle `i` with its responses and keeps every earlier vehicle merged and every later vehicle as it was. |
| SkodaConnection.Connection.UpdateAll | custom_components/skodaconnect/skoda/skoda.py:331-334 | Updating every known vehicle gives the poll of the old state, and leaves the last vehicle as the current vin. |
| SkodaConnection.Connection.UpdateSome | custom_components/skodaconnect/__init__.py:784-800 | Running the queued `update_vehicle` calls merges exactly the queued vehicles with their own responses, keeps every other vehicle, and leaves one of the queued urls as the current vin. |
| SkodaConnection.Connection.UpdateOneMore | custom_components/skodaconnect/skoda/skoda.py:461-463 | One queued `vehicle.update()` adds its url to the vehicles already merged and records it as the current vin. |
| SkodaConnection.Connection.Update | custom_components/skodaconnect/skoda/skoda.py:294-337 | `update` logs in again on an expired session after the first poll. A failed listing request gives None when it is an OSError or a LookupError, and propagates otherwise. A listing of ids resets those vehicles and polls every vehicle, returning True. A listing that cannot be iterated raises TypeError. When an item of a list or string listing is not a string, the TypeError comes after the string items before it have been reset and appended to the key order. On success a list or string listing appends its new ids to the order, and the recorded vin is the last vehicle in that order. Every failure leaves the vin as it was. No known vehicle is ever dropped. |
| SkodaConnection.Connection.ResetAndPoll | custom_components/skodaconnect/skoda/skoda.py:315-334 | After the listing is read, a falsy listing polls every vehicle and keeps the key order. A truthy listing resets the vehicles it names and then polls them all, or raises TypeError once it meets an item that is not a string. On success the recorded vin is the last vehicle in the key order; on failure it is unchanged. |
| SkodaConnection.Connection.ResetIfListed | custom_components/skodaconnect/skoda/skoda.py:315-321 | Only a truthy listing resets anything. It raises exactly when that listing has an item that is not a string, and by then the string items before it have been reset and appended to the key order. |
| SkodaConnection.Connection.FindVehicle | custom_components/skodaconnect/skoda/skoda.py:414-422 | `vehicle(vin)`, searching `vehicles` in order, finds a vehicle iff the lower-cased vin is a key of the state dictionary, and then gives exactly that url's vehicle. |
| SkodaConnection.Lower | custom_components/skodaconnect/skoda/skoda.py:420 | Lower-casing keeps the length and leaves no ASCII capital letter. |
| SkodaConnection.LowerIdempotent | custom_components/skodaconnect/skoda/skoda.py:420 | Lower-casing twice is lower-casing once, and two vins that differ only in the case of their letters look up the same url. |
| SkodaConnection.FromHexToHex | custom_components/skodaconnect/skoda/skoda.py:508-512 | Decoding hex inverts the digest's lower-case hex encoding. |
| SkodaConnection.OddHexRejected | custom_components/skodaconnect/skoda/skoda.py:509-510 | An odd number of hex digits is rejected with ValueError. |
| SkodaConnection.GenerateSecurPin | custom_components/skodaconnect/skoda/skoda.py:508-512 | The secure PIN is the hex digest of the PIN bytes followed by the challenge bytes; a PIN or challenge that is not hex raises, the PIN first. |
| SkodaConnection.SecurPinInput | custom_components/skodaconnect/skoda/skoda.py:508-512 | Hex-encoded PIN and challenge bytes decode back to themselves, so the digest input is exactly PIN then challenge. |
| SkodaDashboard.CatalogueReversesBarriers | custom_components/skodaconnect/skoda/dashboardskoda.py:610-702 | In the catalogue, a binary sensor reports the reversed state exactly when its device class is lock, door or window. |
| SkodaDashboard.SetupTable | custom_components/skodaconnect/skoda/dashboardskoda.py:28-37 | Setup answers True iff the vehicle's support predicate exists and answers truthy, and raises iff it raises something other than AttributeError. |
| SkodaDashboard.IsSupported | custom_components/skodaconnect/skoda/dashboardskoda.py:64-70 | `is_supported` is False when the vehicle has no such predicate, never raises AttributeError, and raises or answers truthy only as the predicate itself does. |
| SkodaDashboard.UnitRenameTable | custom_components/skodaconnect/skoda/dashboardskoda.py:81-91 | A sensor's unit is renamed by the mile table exactly when `scandinavian_miles` is truthy and the unit is in the table. |
| SkodaDashboard.MilesFlagIgnored | custom_components/skodaconnect/skoda/dashboardskoda.py:81-91 | The imperial `miles` flag plays no part in a sensor's unit. |
| SkodaDashboard.ConfiguredUnitIdempotent | custom_components/skodaconnect/skoda/dashboardskoda.py:81-91 | Configuring a unit twice renames nothing further. |
| SkodaDashboard.Configure | custom_components/skodaconnect/skoda/dashboardskoda.py:21-23 | Configuration never changes an instrument's catalogue entry or vehicle; only sensors change their unit, and only door locks and switches with a duration option take a spin. |
| SkodaDashboard.Instrument.constructor | custom_components/skodaconnect/skoda/dashboardskoda.py:10-16 | A new instrument has its catalogue entry, no vehicle, its catalogue unit, and no spin or duration. |
| SkodaDashboard.Instrument.Configurate | custom_components/skodaconnect/skoda/dashboardskoda.py:21-23 | `configurate` applies its class's configuration to the instrument. |
| SkodaDashboard.Instrument.Setup | custom_components/skodaconnect/skoda/dashboardskoda.py:28-37 | `setup` always binds the vehicle, configures the instrument only when it is supported, and answers whether it is. |
| SkodaDashboard.KeptSound | custom_components/skodaconnect/skoda/dashboardskoda.py:711-718 | Every kept instrument is a catalogue entry whose setup answered True, bound and configured. |
| SkodaDashboard.KeptComplete | custom_components/skodaconnect/skoda/dashboardskoda.py:711-718 | Every catalogue entry whose setup answers True is kept. |
| SkodaDashboard.KeptFailsIffSomeSetupRaises | custom_components/skodaconnect/skoda/dashboardskoda.py:711-718 | Building the list fails exactly when some entry's setup raises. |
| SkodaDashboard.DashboardIsSupportedEntries | custom_components/skodaconnect/skoda/dashboardskoda.py:711-718 | A dashboard holds exactly the supported catalogue entries, configured, and fails exactly when a support predicate raises something other than AttributeError. |
| SkodaDashboard.HeatingVentilationStatusNeverShown | custom_components/skodaconnect/skoda/dashboardskoda.py:604-608 | The heating-ventilation status sensor is in the catalogue, but the vehicle has no support predicate for it, so no dashboard shows it. |
| SkodaDashboard.SetUpAll | custom_components/skodaconnect/skoda/dashboardskoda.py:713-718 | The loop that creates and sets up one instrument per catalogue entry keeps exactly the dashboard's instruments, or fails with the dashboard's exception. |
| SkodaDashboard.NewDashboard | custom_components/skodaconnect/skoda/dashboardskoda.py:711-718 | `Dashboard(vehicle, **config).instruments` over the whole catalogue gives the dashboard's instruments or its exception. |
| SkodaDashboard.InstrumentState | custom_components/skodaconnect/skoda/dashboardskoda.py:55-59 | An instrument reads its vehicle property whenever the property exists and does not raise AttributeError; any other answer, including every AttributeError, comes from `get_attr`. |
| SkodaDashboard.SensorState | custom_components/skodaconnect/skoda/dashboardskoda.py:103-110 | Only a sensor in `mil` or `mil/h` changes its reading, and never a falsy reading or an exception. |
| SkodaDashboard.SensorTextShowsConfiguredUnit | custom_components/skodaconnect/skoda/dashboardskoda.py:96-102 | On a dashboard, a sensor with a unit reads as the state's text, a space and the unit the options chose: "mil" for a kilometre sensor under Scandinavian miles. |
| SkodaDashboard.BinaryState | custom_components/skodaconnect/skoda/dashboardskoda.py:137-154 | Booleans, lists and strings become a boolean, plain sensors keeping the truth value; anything else passes through unchanged. |
| SkodaDashboard.BinaryText | custom_components/skodaconnect/skoda/dashboardskoda.py:122-136 | The text is "?" only for a missing state of a sensor class without texts of its own (light or power), and always then. |
| SkodaDashboard.LockText | custom_components/skodaconnect/skoda/dashboardskoda.py:296-302 | A lock reads "Locked" iff its state is truthy, and "Unlocked" otherwise. |
| SkodaDashboard.BinaryStatePolarity | custom_components/skodaconnect/skoda/dashboardskoda.py:137-154 | A reversed binary sensor negates a boolean and a plain one keeps it, so applying the state twice restores it; "Normal" is off and None stays None. |
| SkodaDashboard.BarrierTextMatchesVehicle | custom_components/skodaconnect/skoda/dashboardskoda.py:122-136 | Through a reversed lock, door or window sensor, the text shows the vehicle's own locked or closed boolean the right way round, and never "?". |
| SkodaDashboard.PositionState | custom_components/skodaconnect/skoda/dashboardskoda.py:261-270 | A missing position gives "?" coordinates and no timestamp, speed or heading. A position dictionary gives five values with its latitude and longitude first. Any other truthy position raises AttributeError. |
| SkodaDashboard.BoundBinarySensorState | custom_components/skodaconnect/skoda/dashboardskoda.py:137-154 | On a dashboard, a binary sensor's state is the vehicle reading passed through the catalogue's direction. |
| SkodaDashboard.SensorScaling | custom_components/skodaconnect/skoda/dashboardskoda.py:103-110 | On a dashboard, a truthy sensor reading is divided by 10 exactly when its unit is km or km/h and Scandinavian miles are on; per-100-km consumption units are renamed but not scaled. |
| SkodaDashboard.DoorLockTextIffAllFour | custom_components/skodaconnect/skoda/dashboardskoda.py:296-302 | The door-lock instrument reads "Locked" iff all four lock codes are 2. |
| SkodaPlatform.ComponentIdentifiesKind | custom_components/skodaconnect/skoda/dashboardskoda.py:10-16 | The component name tells binary sensors and climates apart from every other instrument class. |
| SkodaPlatform.Resources | custom_components/skodaconnect/binary_sensor.py:25-28 | The resources list comes from the options when they hold it, otherwise from the data; KeyError when neither does. |
| SkodaPlatform.SelectedIsListed | custom_components/skodaconnect/binary_sensor.py:30-38 | Selecting entities fails iff some instrument's test raises, and otherwise keeps exactly the instruments that pass, in order. |
| SkodaPlatform.SetupEntitiesFromOptions | custom_components/skodaconnect/binary_sensor.py:21-41 | With a resources list in the options, set-up succeeds and creates an entity for exactly the instruments of the component whose attribute is listed. |
| SkodaBinarySensor.IsOn | custom_components/skodaconnect/binary_sensor.py:47-53 | `is_on` negates the instrument's state for lock, door and window sensors, passes the others through, and propagates an exception. |
| SkodaBinarySensor.DeviceClassOf | custom_components/skodaconnect/binary_sensor.py:55-60 | The reported device class is the instrument's own class exactly when Home Assistant knows it, and None otherwise. |
| SkodaBinarySensor.BarrierIsOnIsVehicleBoolean | custom_components/skodaconnect/binary_sensor.py:47-53 | For a lock, door or window of the catalogue, `is_on` is the vehicle's own boolean: the dashboard's reversal and the entity's inversion cancel out. |
| SkodaBinarySensor.OpeningSensorsInCatalogue | custom_components/skodaconnect/skoda/dashboardskoda.py:625-702 | The catalogue holds a reversed door or window sensor for every opening. |
| SkodaBinarySensor.ClosedIsOnIffCodeThree | custom_components/skodaconnect/binary_sensor.py:47-53 | A door, window or trunk sensor with a decodable code is on iff the code is 3. |
| SkodaBinarySensor.TrunkLockIsOnIffCodeTwo | custom_components/skodaconnect/binary_sensor.py:47-53 | The trunk-lock sensor is on iff the trunk lock code is 2. |
| SkodaBinarySensor.DoorLockIsOnIffAllFour | custom_components/skodaconnect/binary_sensor.py:47-53 | The door-lock sensor is on when all four lock codes are 2, and off as soon as one code, in reading order, decodes to another integer. |
| SkodaBinarySensor.BinarySensorSetup | custom_components/skodaconnect/binary_sensor.py:21-41 | Binary-sensor set-up creates entities only for binary-sensor instruments. |
| SkodaClimate.HvacMode | custom_components/skodaconnect/climate.py:66-78 | The HVAC mode is heat iff the instrument mode is "HEATING" and cool iff it is "COOLING". It is off for a falsy mode and always one of the offered modes. A list or dictionary mode raises TypeError. |
| SkodaClimate.TargetTemperature | custom_components/skodaconnect/climate.py:92-98 | The target temperature is the float of a truthy instrument value and unknown otherwise. |
| SkodaClimate.SetTemperature | custom_components/skodaconnect/climate.py:100-104 | A temperature is forwarded iff the keyword is present and truthy, and then it is that temperature. |
| SkodaClimate.SetHvacMode | custom_components/skodaconnect/climate.py:106-111 | Off stops the electric climatisation, heat starts it, and any other mode makes no call. |
| SkodaClimate.OfferedModesThatAct | custom_components/skodaconnect/climate.py:80-111 | Of the offered modes, cool is the only one that does nothing. |
| SkodaClimate.ElectricClimateReportsOff | custom_components/skodaconnect/skoda/dashboardskoda.py:205-225 | The electric climatisation property is a boolean, so the entity always reports off, and choosing that mode again stops the climatisation. |
| SkodaClimate.NoEmanagerTargetUnknown | custom_components/skodaconnect/skoda/skoda.py:558-566 | A vehicle without the e-manager resource has an unknown target temperature. |
| SkodaClimate.CatalogueHasOneClimate | custom_components/skodaconnect/skoda/dashboardskoda.py:465-477 | The catalogue's only climate instrument is the electric climatisation. |
| SkodaClimate.ClimateSetup | custom_components/skodaconnect/climate.py:35-55 | Climate set-up succeeds with a resources list in the options, and creates entities only for the electric climatisation. |
| SkodaEntry.Seconds | custom_components/skodaconnect/__init__.py:129 | `timedelta(seconds=x)` accepts exactly ints, floats and booleans, and raises TypeError otherwise. |
| SkodaEntry.UpdateInterval | custom_components/skodaconnect/__init__.py:127-133 | The polling interval is the truthy `scan_interval` option or the default of 120 seconds, never less than 30 seconds, and fails exactly when a truthy option is not a number. |
| SkodaEntry.UpdateIntervalMonotone | custom_components/skodaconnect/__init__.py:127-133 | A longer requested interval never gives a shorter one. |
| SkodaEntry.MigratedData | custom_components/skodaconnect/__init__.py:479-482 | The migrated data holds exactly the user name and password, and migration raises KeyError when either is missing. |
| SkodaEntry.MigrationReachesCurrentVersion | custom_components/skodaconnect/__init__.py:473-519 | A migrated entry is at version 3 with exactly the credential keys and the option keys. Migration fails only for a missing credential or a version-1 interval that cannot be multiplied. |
| SkodaEntry.MigrationIdempotent | custom_components/skodaconnect/__init__.py:473-519 | Migrating a migrated entry changes nothing. |
| SkodaEntry.MinutesBecomeSeconds | custom_components/skodaconnect/__init__.py:507-511 | A version-1 interval of m minutes becomes m times 60 seconds, and 60 seconds when none was recorded. |
| SkodaEntry.OtherVersionsKeepInterval | custom_components/skodaconnect/__init__.py:483-487 | Any other old version keeps its interval in seconds, or gets the default. |
| SkodaEntry.ConfigEntry.constructor | custom_components/skodaconnect/__init__.py:473 | A config entry holds the given version, data and options. |
| SkodaEntry.ConfigEntry.Migrate | custom_components/skodaconnect/__init__.py:473-519 | `async_migrate_entry` answers True with the migrated fields, or raises and leaves every field as it was. |
| SkodaServices.ClockTextMatches | custom_components/skodaconnect/__init__.py:228-230 | Every formatted time of day passes the time-string check. |
| SkodaServices.ClockPatternExamples | custom_components/skodaconnect/__init__.py:230 | The check admits a trailing newline and out-of-range values, and refuses single-digit hours and trailing spaces. |
| SkodaServices.RequestedTime | custom_components/skodaconnect/__init__.py:227-233 | A `time` string is kept iff it passes the check; an accepted time always passes the check; a missing time is invalid. |
| SkodaServices.OffPeak | custom_components/skodaconnect/__init__.py:234-249 | A missing, falsy or time-of-day off-peak value leaves the time as it is, and any time it gives passes the check. |
| SkodaServices.ScheduleTime | custom_components/skodaconnect/__init__.py:227-249 | Whatever time `set_schedule` sends passes the time-string check. |
| SkodaServices.OffPeakEndOverridesTime | custom_components/skodaconnect/__init__.py:242-249 | A valid off-peak end given as a string wins over the requested time. |
| SkodaServices.AddFirstEntries | custom_components/skodaconnect/__init__.py:260-279 | Adding the optional entries keeps the fixed ones and adds exactly those whose service value is given, each holding that value. |
| SkodaServices.OptionalKeysAreNotFixed | custom_components/skodaconnect/__init__.py:252-279 | No optional schedule key collides with a fixed one. |
| SkodaServices.ScheduleMeetsDescription | custom_components/skodaconnect/__init__.py:252-279 | The schedule holds the six fixed entries with their defaults, plus an optional entry exactly when its service key is given, holding that value. |
| SkodaServices.BuildSchedule | custom_components/skodaconnect/__init__.py:252-279 | The dictionary filled in place is the schedule the table describes. |
| SkodaServices.ClimatisationSetsBoth | custom_components/skodaconnect/__init__.py:262-270 | The `climatisation` value sets both the night-rate flag and the climatisation operation. |
| SkodaServices.SetSchedule | custom_components/skodaconnect/__init__.py:219-292 | `set_schedule` sends the schedule for a valid time, with id defaulting to 0. It rejects an invalid time as an invalid request and propagates any other exception. |
| SkodaServices.SetClimater | custom_components/skodaconnect/__init__.py:340-362 | When enabled, the action is the auxiliary heater iff `aux_heater` is truthy and the electric climatisation otherwise, with the given options. When not enabled, the action is "off" with every option None. |
| SkodaServices.DisabledClimaterIgnoresOptions | custom_components/skodaconnect/__init__.py:345-352 | A request that does not enable climatisation ignores every option. |
| SkodaIntegration.FirstNoneIffNoMatch | custom_components/skodaconnect/__init__.py:531-546 | The instrument search gives None exactly when every candidate fails the test. |
| SkodaIntegration.FirstFoundIsFirstMatch | custom_components/skodaconnect/__init__.py:531-546 | The instrument found passed the test, and every candidate before it failed. |
| SkodaIntegration.FirstRaisesIffEarlyRaise | custom_components/skodaconnect/__init__.py:531-546 | The search raises exactly when a test raises before any candidate has passed. |
| SkodaIntegration.FindInstrumentInCoordinatorData | custom_components/skodaconnect/__init__.py:531-546 | Over the coordinator's data the lookup never raises. It gives None iff no instrument matches, and otherwise an instrument of that vin, component and attribute. |
| SkodaIntegration.VehicleName | custom_components/skodaconnect/__init__.py:548-566 | A non-empty configured name wins. Otherwise the name is the nickname, the vin, "" or None, and None only when neither a nickname nor a vin is available. |
| SkodaIntegration.NamedByNicknameOrVin | custom_components/skodaconnect/__init__.py:558-563 | Without a configured name, a vehicle is named by its nickname when it supports one, and otherwise by its vin. |
| SkodaIntegration.UniqueIdInjective | custom_components/skodaconnect/__init__.py:690-693 | Two entities share a unique id only when they share vehicle, component and attribute. |
| SkodaIntegration.MonitorEntries | custom_components/skodaconnect/__init__.py:774-784 | The monitored entries are the items of a list, the characters of a string or the keys of a dictionary. Anything else cannot be iterated. There are none exactly when the monitor is falsy. |
| SkodaIntegration.QueuedUrls | custom_components/skodaconnect/__init__.py:784-789 | Building the queue succeeds iff the monitor can be iterated and every entry names a vehicle; then every entry's lower-cased vin is queued, every queued url is a known vehicle named by an entry, and nothing is queued iff the monitor is falsy. |
| SkodaIntegration.CoordinatorUpdate | custom_components/skodaconnect/__init__.py:768-806 | A monitor that cannot be iterated, or an entry that names no vehicle, fails the poll before any queued update runs, so the state is untouched. With nothing monitored, the poll succeeds iff `update_all` answers truthy. Otherwise exactly the monitored vehicles are merged with their own responses and the refreshed vehicles are returned. |
| SkodaIntegration.NothingMonitoredUpdatesAll | custom_components/skodaconnect/__init__.py:774-797 | With neither `resources` in the options nor `devices` in the data, nothing is queued, so `update_all` decides the poll. |
| SkodaIntegration.UnknownEntryFailsPoll | custom_components/skodaconnect/__init__.py:784-789 | A monitored entry that names no known vehicle fails the whole poll. |
| SkodaIntegration.MonitoredTwiceUpdatedOnce | custom_components/skodaconnect/__init__.py:787-789 | A vehicle the source queues twice, because the duplicate check never matches, ends as if updated once when both updates get the same responses. |
| SkodaIntegration.DashboardConfig | custom_components/skodaconnect/__init__.py:720-733 | Scandinavian miles are on iff `convert` is "scandinavian_miles", and imperial miles iff it is "imperial_units". |
| SkodaIntegration.ConvertOptionSelectsUnits | custom_components/skodaconnect/__init__.py:720-733 | Scandinavian miles rename the kilometre units, while imperial units and no conversion keep them. |
| SkodaIntegration.DashboardEntries | custom_components/skodaconnect/skoda/dashboardskoda.py:711-718 | Every instrument of a vehicle's dashboard is bound to that vehicle. |
| SkodaIntegration.AllDashboardsEntries | custom_components/skodaconnect/__init__.py:727-737 | Every instrument of the coordinator's data is a supported catalogue entry, configured and bound to one of the polled vehicles. |
| SkodaIntegration.AllDashboardsFailIffOneFails | custom_components/skodaconnect/__init__.py:727-737 | Building all the dashboards fails exactly when some vehicle's dashboard fails. |
| SkodaIntegration.AllDashboardsFailurePersists | custom_components/skodaconnect/__init__.py:727-737 | Once the dashboards of the first vehicles fail, the whole list fails the same way. |
| SkodaIntegration.UpdateData | custom_components/skodaconnect/__init__.py:713-737 | `_async_update_data` fails with UpdateFailed only when the poll fails, since the `vehicles` generator it gets otherwise is always truthy; an empty fleet gives no instruments. Otherwise it gives every vehicle's dashboard instruments concatenated in vehicle order, or the first dashboard failure. |

## Left out

- Vehicle: a record of the url and the sub-resources at the time it is built. The source's `Vehicle` reads the connection's state (`vehicle_attrs`) at each access, and an instrument keeps that object. So an instrument read during a poll, after some `update_vehicle` calls have written and before the dashboards are rebuilt, may see a partly updated state. The model does not represent this. The integration rebuilds every dashboard after each poll, so the stated properties are about the rebuilt ones.
- Login, logout, token handling, cookies and every HTTP request are not modelled. The responses a poll receives, the result of a login attempt and whether a session is still valid are parameters.
- `skodaconnect` package: the connection object that `__init__.py` imports from it is modelled by the `Connection` class of `skoda/skoda.py`.
- SHA-512 is a function parameter of `GenerateSecurPin`. The security-token request around it is not modelled.
- The commands the vehicle sends are not modelled: lock, unlock, charging, climatisation, heating, window heater, timers and request updates. The entity methods that call them are modelled only as the call they choose (`SetHvacMode`, `SetTemperature`, `SetClimater`, `SetSchedule`).
- The combustion climatisation climate class and the switch, lock, sensor and device-tracker platforms are not part of this model. The config flow is not part of this model either.
- Entity names, icons, extra attributes, device info and availability are not modelled.
- The coordinator's scheduling is not modelled. The updates that `asyncio.gather` runs concurrently run one after another in the model; each touches only its own vehicle's entry, so only the last recorded vin depends on the order.
- `UpdateFailed` is modelled as a generic exception, `OtherError`.
- Home Assistant's `DEVICE_CLASSES` is a parameter of `DeviceClassOf`.
- The raw-dictionary path lookup behind `Vehicle.get_attr` is a parameter. So is Python's `str()` of a state.
- Floating-point numbers are exact reals, so rounding in `float()` and in the division by 10 of mile units is not modelled.
- ParseInt: accepts only the ASCII digits 0-9. Python's `int()` also converts other Unicode decimal digits, such as Arabic-Indic ones; the model rejects those strings.
- ParseFloat: accepts only the ASCII digits 0-9, for the same reason as ParseInt. `inf`, `infinity` and `nan` in any case have no exact real, so the model rejects them where `float()` accepts them. The model also does not produce infinity on overflow.
- `timedelta` overflow is not modelled.
- Dictionary keys that are not strings are not modelled: vehicle ids and field ids are strings, and another key raises TypeError in the model.
- Lower: lower-cases ASCII letters only, not the rest of Unicode.
- Connection.ResetKeys: states that every key is reset and that no known url leaves the order, but not the order in which a dictionary's keys are appended.
- CoordinatorUpdate: visits the monitored entries as a set and runs one update per distinct url. The source queues a repeated entry twice; MonitoredTwiceUpdatedOnce shows this changes nothing when both fetches get the same responses, but two different responses for one vehicle are not modelled. The current vin is stated only to be one of the updated urls.
- CoordinatorUpdate: `update_all` is not part of this model; its answer is a parameter, and its effect on the vehicles is not modelled, so with nothing monitored the state is left as it was.
- UrlJoin: follows `urljoin` of Python 3.11 and later for an https base without a path. It models the ValueError for an authority with unbalanced brackets. It does not check that a bracketed host is a valid IPv6 address or `v…` future address, which Python 3.12 rejects with ValueError. It does not apply the NFKC check to a non-ASCII authority. It does not model four more things. It does not strip leading control characters and spaces. It does not remove tabs, carriage returns and line feeds. It does not drop an empty query, fragment or parameter list. It does not normalise `.`, `..` and empty segments. MakeUrlOfRelativeEndpoint is stated only for references that none of these touch. Every endpoint in `skoda/skoda.py` is such a reference.
- ReplaceVin: follows the replacement-template rules of Python 3.11 and later. Every template error is modelled as re.error (OtherError). Python raises IndexError for an unknown group name in `\g<name>`. `update_vehicle` catches both as `Exception`.
- SetUpAll: does not state that the instruments it returns are freshly allocated.
- NewDashboard: does not state that the instruments it returns are freshly allocated.
- PositionState: states the latitude and longitude of a position dictionary, but not its timestamp, speed and heading.
- UniqueIdInjective: assumes vins without a dash; a vin with a dash can make two entities share an id.
- VehicleName: when the nickname itself is None, the contract does not say which branch gave None.
