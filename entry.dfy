/** The config entry of the integration: the poll interval read from its
    options when the integration is set up, and the migration of an older
    entry to version 3. */
module SkodaEntry {
  import opened Python

  const ScanIntervalKey := "scan_interval"
  const MinScanInterval := 30
  const DefaultScanInterval := 120

  // ---------------------------------------------------------------------
  // The poll interval

  /** `timedelta(seconds=x)`, in seconds: ints, floats and bools are accepted. */
  function Seconds(x: Json): (r: Outcome<real>)
    ensures r.Ok? <==> x.JInt? || x.JReal? || x.JBool?
    ensures x.JInt? ==> r == Ok(x.i as real)
    ensures r.Raise? ==> r.exc == TypeError
  {
    match x
    case JInt(i) => Ok(i as real)
    case JReal(s) => Ok(s)
    case JBool(b) => Ok(if b then 1.0 else 0.0)
    case _ => Raise(TypeError)
  }

  /** The update interval `async_setup_entry` gives the coordinator: the
      `scan_interval` option when truthy, else the default, and never less
      than the minimum. */
  function UpdateInterval(options: Kw): (r: Outcome<real>)
    ensures r.Ok? ==> r.value >= MinScanInterval as real
    ensures !Truthy(KwGet(options, ScanIntervalKey, JBool(false))) ==> r == Ok(DefaultScanInterval as real)
    ensures var x := KwGet(options, ScanIntervalKey, JBool(false));
      Truthy(x) && x.JInt? ==> r == Ok(if x.i < MinScanInterval then MinScanInterval as real else x.i as real)
    ensures var x := KwGet(options, ScanIntervalKey, JBool(false));
      r.Raise? <==> Truthy(x) && Seconds(x).Raise?
  {
    var x := KwGet(options, ScanIntervalKey, JBool(false));
    var requested :- if Truthy(x) then Seconds(x) else Ok(DefaultScanInterval as real);
    Ok(if requested < MinScanInterval as real then MinScanInterval as real else requested)
  }

  /** A longer requested interval never gives a shorter one. */
  lemma UpdateIntervalMonotone(o1: Kw, o2: Kw)
    requires UpdateInterval(o1).Ok? && UpdateInterval(o2).Ok?
    requires Truthy(KwGet(o1, ScanIntervalKey, JBool(false))) && Truthy(KwGet(o2, ScanIntervalKey, JBool(false)))
    requires Seconds(KwGet(o1, ScanIntervalKey, JBool(false))).value <= Seconds(KwGet(o2, ScanIntervalKey, JBool(false))).value
    ensures UpdateInterval(o1).value <= UpdateInterval(o2).value
  {
  }

  // ---------------------------------------------------------------------
  // Migration

  const CurrentVersion := 3

  /** The option keys a migrated entry holds. */
  const OptionKeys: set<string> := {ScanIntervalKey, "spin", "mutable", "debug", "convert"}

  /** The entry fields `async_migrate_entry` reads and writes. */
  datatype Fields = Fields(version: int, data: Kw, options: Kw)

  /** The new data: only the user name and password, each required. */
  function MigratedData(data: Kw): (r: Outcome<Kw>)
    ensures r.Ok? <==> "username" in data && "password" in data
    ensures r.Ok? ==> r.value == map["username" := data["username"], "password" := data["password"]]
    ensures r.Raise? ==> r.exc == KeyError
  {
    var username :- Subscript(JObj(data), "username");
    var password :- Subscript(JObj(data), "password");
    Ok(map["username" := username, "password" := password])
  }

  /** The new options before the version-1 interval conversion: each kept
      option or its default. */
  function DefaultedOptions(options: Kw): Kw {
    map[ScanIntervalKey := KwGet(options, ScanIntervalKey, JInt(DefaultScanInterval)),
        "spin" := KwGet(options, "spin", JStr("")),
        "mutable" := KwGet(options, "mutable", JBool(true)),
        "debug" := KwGet(options, "debug", JBool(false)),
        "convert" := KwGet(options, "convert", JStr("no_conversion"))]
  }

  /** The new options; a version-1 entry kept its interval in minutes under
      `update_interval` (default 1), which becomes seconds. */
  function MigratedOptions(version: int, options: Kw): Outcome<Kw> {
    if version == 1 then
      var seconds :- Times(KwGet(options, "update_interval", JInt(1)), 60);
      Ok(DefaultedOptions(options)[ScanIntervalKey := seconds])
    else Ok(DefaultedOptions(options))
  }

  /** `async_migrate_entry` on the entry's fields: version 3 is left alone;
      any other version gets new data and options and becomes version 3,
      unless reading them raises, which leaves the entry as it was. */
  function Migration(e: Fields): Outcome<Fields> {
    if e.version == CurrentVersion then Ok(e)
    else
      var data :- MigratedData(e.data);
      var options :- MigratedOptions(e.version, e.options);
      Ok(Fields(CurrentVersion, data, options))
  }

  /** A migrated entry is at version 3 with exactly the credential keys and
      the option keys; migration fails only for a missing credential or an
      interval in minutes that cannot be multiplied. */
  lemma MigrationReachesCurrentVersion(e: Fields)
    ensures Migration(e).Ok? ==> Migration(e).value.version == CurrentVersion
    ensures Migration(e).Ok? && e.version != CurrentVersion ==>
      Migration(e).value.data.Keys == {"username", "password"} && Migration(e).value.options.Keys == OptionKeys
    ensures Migration(e).Raise? <==>
      (e.version != CurrentVersion &&
       ("username" !in e.data || "password" !in e.data ||
        (e.version == 1 && Times(KwGet(e.options, "update_interval", JInt(1)), 60).Raise?)))
  {
  }

  /** Migrating a migrated entry changes nothing. */
  lemma MigrationIdempotent(e: Fields)
    requires Migration(e).Ok?
    ensures Migration(Migration(e).value) == Migration(e)
  {
  }

  /** A version-1 interval of `m` minutes becomes `m * 60` seconds; with no
      interval recorded it becomes 60 seconds. */
  lemma MinutesBecomeSeconds(e: Fields, m: int)
    requires e.version == 1 && "username" in e.data && "password" in e.data
    requires KwGet(e.options, "update_interval", JInt(1)) == JInt(m)
    ensures Migration(e).Ok? && Migration(e).value.options[ScanIntervalKey] == JInt(m * 60)
    ensures "update_interval" !in e.options ==> Migration(e).value.options[ScanIntervalKey] == JInt(60)
  {
  }

  /** Any other old version keeps its interval in seconds, or gets the default. */
  lemma OtherVersionsKeepInterval(e: Fields)
    requires e.version != 1 && e.version != CurrentVersion && "username" in e.data && "password" in e.data
    ensures Migration(e).Ok?
    ensures Migration(e).value.options[ScanIntervalKey] == KwGet(e.options, ScanIntervalKey, JInt(DefaultScanInterval))
  {
  }

  /** The config entry object, whose fields the migration reassigns. */
  class ConfigEntry {
    var version: int
    var data: Kw
    var options: Kw

    function State(): Fields
      reads this
    {
      Fields(version, data, options)
    }

    constructor (version: int, data: Kw, options: Kw)
      ensures State() == Fields(version, data, options)
    {
      this.version := version;
      this.data := data;
      this.options := options;
    }

    /** `async_migrate_entry`: True once the entry is at version 3; an
        exception leaves every field as it was. */
    method Migrate() returns (r: Outcome<bool>)
      modifies this
      ensures Migration(old(State())).Ok? ==> r == Ok(true) && State() == Migration(old(State())).value
      ensures Migration(old(State())).Raise? ==> r == Raise(Migration(old(State())).exc) && State() == old(State())
    {
      if version != CurrentVersion {
        var newData :- MigratedData(data);
        var newOptions := DefaultedOptions(options);
        if version == 1 {
          var seconds :- Times(KwGet(options, "update_interval", JInt(1)), 60);
          newOptions := newOptions[ScanIntervalKey := seconds];
        }
        data := newData;
        options := newOptions;
        version := CurrentVersion;
      }
      r := Ok(true);
    }
  }
}
