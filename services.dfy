/** The argument handling of two of the integration's services:
    `set_schedule`, which checks the requested times and builds the
    departure-schedule dictionary, and `set_climater`, which chooses the
    climatisation action and its options. */
module SkodaServices {
  import opened Python

  type Hour = h: nat | h < 24
  type Minute = m: nat | m < 60

  /** A value in a service call's data: a time of day (what Home Assistant's
      time selector delivers) or plain JSON. */
  datatype ServiceValue = TimeOfDay(hour: Hour, minute: Minute) | Value(j: Json)

  type ServiceData = map<string, ServiceValue>

  /** Python's None. */
  const NoValue := Value(JNull)

  /** `data.get(k, d)`. */
  function DataGet(data: ServiceData, k: string, d: ServiceValue): ServiceValue {
    if k in data then data[k] else d
  }

  /** `bool(x)`: a time of day is always true. */
  predicate IsTruthy(x: ServiceValue) {
    x.TimeOfDay? || Truthy(x.j)
  }

  /** `data.get(k, None) is not None`. */
  predicate Given(data: ServiceData, k: string) {
    k in data && data[k] != NoValue
  }

  // ---------------------------------------------------------------------
  // Times of day

  function Digit(n: nat): char
    requires n < 10
  {
    ('0' as int + n) as char
  }

  /** `t.strftime("%H:%M")`. */
  function ClockText(h: Hour, m: Minute): (r: string)
    ensures |r| == 5 && r[2] == ':'
  {
    [Digit(h / 10), Digit(h % 10), ':', Digit(m / 10), Digit(m % 10)]
  }

  /** `re.match('^[0-9]{2}:[0-9]{2}$', s)`: two digits, a colon and two
      digits; `$` also matches just before a final newline. */
  predicate ClockPattern(s: string) {
    (|s| == 5 || (|s| == 6 && s[5] == '\n')) &&
    IsDigit(s[0]) && IsDigit(s[1]) && s[2] == ':' && IsDigit(s[3]) && IsDigit(s[4])
  }

  /** Every formatted time of day passes the check. */
  lemma ClockTextMatches(h: Hour, m: Minute)
    ensures ClockPattern(ClockText(h, m))
  {
  }

  /** The check admits a trailing newline and out-of-range values, and
      refuses single-digit hours. */
  lemma ClockPatternExamples()
    ensures ClockPattern("08:00\n")
    ensures ClockPattern("99:99")
    ensures !ClockPattern("8:00")
    ensures !ClockPattern("08:00 ")
  {
  }

  /** The `time` entry: a time of day is formatted; a string is kept when it
      passes the check; None stands for the SkodaInvalidRequestException
      raised otherwise (also for a missing entry, checked as ''); `re.match`
      on anything but a string raises TypeError. */
  function RequestedTime(x: Option<ServiceValue>): (r: Outcome<Option<string>>)
    ensures r.Ok? && r.value.Some? ==> ClockPattern(r.value.value)
    ensures x.None? ==> r == Ok(None)
    ensures x.Some? && x.value.Value? && x.value.j.JStr? ==>
      r == Ok(if ClockPattern(x.value.j.s) then Some(x.value.j.s) else None)
  {
    match x
    case None => Ok(None)
    case Some(TimeOfDay(h, m)) =>
      ClockTextMatches(h, m);
      Ok(Some(ClockText(h, m)))
    case Some(Value(JStr(s))) => Ok(if ClockPattern(s) then Some(s) else None)
    case Some(Value(_)) => Raise(TypeError)
  }

  /** An `off_peak_start` or `off_peak_end` entry, read only when truthy: a
      time of day leaves `time` as it is; a string that passes the check
      replaces `time`; any other string is invalid. */
  function OffPeak(x: Option<ServiceValue>, time: string): (r: Outcome<Option<string>>)
    requires ClockPattern(time)
    ensures r.Ok? && r.value.Some? ==> ClockPattern(r.value.value)
    ensures x.None? || !IsTruthy(x.value) || x.value.TimeOfDay? ==> r == Ok(Some(time))
  {
    if x.None? || !IsTruthy(x.value) then Ok(Some(time))
    else
      match x.value
      case TimeOfDay(_, _) => Ok(Some(time))
      case Value(JStr(s)) => Ok(if ClockPattern(s) then Some(s) else None)
      case Value(_) => Raise(TypeError)
  }

  function Lookup(data: ServiceData, k: string): Option<ServiceValue> {
    if k in data then Some(data[k]) else None
  }

  /** The time `set_schedule` sends: `time`, then possibly overwritten by
      `off_peak_start` and then by `off_peak_end`; None when the request is
      invalid. Whatever it sends passes the check. */
  function ScheduleTime(data: ServiceData): (r: Outcome<Option<string>>)
    ensures r.Ok? && r.value.Some? ==> ClockPattern(r.value.value)
  {
    var t :- RequestedTime(Lookup(data, "time"));
    if t.None? then Ok(None)
    else
      var t1 :- OffPeak(Lookup(data, "off_peak_start"), t.value);
      if t1.None? then Ok(None)
      else OffPeak(Lookup(data, "off_peak_end"), t1.value)
  }

  /** A valid off-peak end given as a string wins over the requested time;
      one given as a time of day leaves it in place. */
  lemma OffPeakEndOverridesTime(data: ServiceData, s: string)
    requires ScheduleTime(data - {"off_peak_end"}).Ok? && ScheduleTime(data - {"off_peak_end"}).value.Some?
    requires "off_peak_end" in data && data["off_peak_end"] == Value(JStr(s)) && ClockPattern(s)
    ensures ScheduleTime(data) == Ok(Some(s))
  {
    var rest := data - {"off_peak_end"};
    assert Lookup(rest, "time") == Lookup(data, "time");
    assert Lookup(rest, "off_peak_start") == Lookup(data, "off_peak_start");
    assert Lookup(rest, "off_peak_end") == None;
  }

  // ---------------------------------------------------------------------
  // The schedule dictionary

  /** The optional entries of the schedule: a service key and the schedule
      key it fills when given. `climatisation` fills two. */
  const OptionalKeys: seq<(string, string)> := [
    ("climatisation", "nightRateActive"),
    ("off_peak_start", "nightRateTimeStart"),
    ("off_peak_end", "nightRateTimeEnd"),
    ("climatisation", "operationClimatisation"),
    ("charging", "operationCharging"),
    ("charge_target", "targetChargeLevel"),
    ("charge_current", "chargeMaxCurrent"),
    ("temp", "targetTemp")]

  /** The fixed entries: `id` defaulting to 1, `days` to "nnnnnnn", the
      others to None, and the checked time. */
  function FixedEntries(data: ServiceData, time: string): map<string, ServiceValue> {
    map[
      "id" := DataGet(data, "id", Value(JInt(1))),
      "enabled" := DataGet(data, "enabled", NoValue),
      "recurring" := DataGet(data, "recurring", NoValue),
      "date" := DataGet(data, "date", NoValue),
      "time" := Value(JStr(time)),
      "days" := DataGet(data, "days", Value(JStr("nnnnnnn")))]
  }

  /** One optional entry, added when its service value is given. */
  function AddOptional(schedule: map<string, ServiceValue>, data: ServiceData, p: (string, string)): map<string, ServiceValue> {
    if Given(data, p.0) then schedule[p.1 := data[p.0]] else schedule
  }

  /** The first `n` optional entries of the table, added in table order. */
  function AddFirst(schedule: map<string, ServiceValue>, data: ServiceData, n: nat): map<string, ServiceValue>
    requires n <= |OptionalKeys|
  {
    if n == 0 then schedule
    else AddOptional(AddFirst(schedule, data, n - 1), data, OptionalKeys[n - 1])
  }

  /** The schedule dictionary, by the table. */
  function Schedule(data: ServiceData, time: string): map<string, ServiceValue> {
    AddFirst(FixedEntries(data, time), data, |OptionalKeys|)
  }

  /** No two optional entries share a key. */
  lemma OptionalTargetsDistinct()
    ensures forall i, j :: 0 <= i < j < |OptionalKeys| ==> OptionalKeys[i].1 != OptionalKeys[j].1
  {
  }

  /** Adding the first `n` optional entries to a dictionary that holds none
      of their keys keeps what was there and adds exactly the given ones. */
  lemma {:induction false} AddFirstEntries(m: map<string, ServiceValue>, data: ServiceData, n: nat)
    requires n <= |OptionalKeys|
    requires forall i :: 0 <= i < |OptionalKeys| ==> OptionalKeys[i].1 !in m
    ensures forall k :: k in AddFirst(m, data, n) <==>
      (k in m || exists i :: 0 <= i < n && OptionalKeys[i].1 == k && Given(data, OptionalKeys[i].0))
    ensures forall k :: k in m ==> AddFirst(m, data, n)[k] == m[k]
    ensures forall i :: 0 <= i < n && Given(data, OptionalKeys[i].0) ==>
      AddFirst(m, data, n)[OptionalKeys[i].1] == data[OptionalKeys[i].0]
  {
    if n > 0 {
      AddFirstEntries(m, data, n - 1);
      OptionalTargetsDistinct();
    }
  }

  /** No optional entry has a fixed key. */
  lemma OptionalKeysAreNotFixed(data: ServiceData, time: string)
    ensures forall i :: 0 <= i < |OptionalKeys| ==> OptionalKeys[i].1 !in FixedEntries(data, time)
  {
  }

  /** What the schedule dictionary holds for a request and its time: the six
      fixed entries and an optional entry exactly when its service key is
      given, holding that service value. */
  ghost predicate ScheduleFor(schedule: map<string, ServiceValue>, data: ServiceData, time: string) {
    && (forall k :: k in schedule <==>
          (k in FixedEntries(data, time) ||
           exists i :: 0 <= i < |OptionalKeys| && OptionalKeys[i].1 == k && Given(data, OptionalKeys[i].0)))
    && (forall k :: k in FixedEntries(data, time) ==> schedule[k] == FixedEntries(data, time)[k])
    && (forall i :: 0 <= i < |OptionalKeys| && Given(data, OptionalKeys[i].0) ==>
          schedule[OptionalKeys[i].1] == data[OptionalKeys[i].0])
  }

  /** The table-built dictionary meets the description. */
  lemma ScheduleMeetsDescription(data: ServiceData, time: string)
    ensures ScheduleFor(Schedule(data, time), data, time)
  {
    OptionalKeysAreNotFixed(data, time);
    AddFirstEntries(FixedEntries(data, time), data, |OptionalKeys|);
  }

  /** The dictionary `set_schedule` fills in place: the fixed entries, then
      each optional entry whose service value is not None. */
  method BuildSchedule(data: ServiceData, time: string) returns (schedule: map<string, ServiceValue>)
    ensures schedule == Schedule(data, time)
    ensures ScheduleFor(schedule, data, time)
  {
    var fixed := FixedEntries(data, time);
    schedule := fixed;
    if Given(data, "climatisation") {
      schedule := schedule["nightRateActive" := data["climatisation"]];
    }
    assert schedule == AddFirst(fixed, data, 1);
    if Given(data, "off_peak_start") {
      schedule := schedule["nightRateTimeStart" := data["off_peak_start"]];
    }
    assert schedule == AddFirst(fixed, data, 2);
    if Given(data, "off_peak_end") {
      schedule := schedule["nightRateTimeEnd" := data["off_peak_end"]];
    }
    assert schedule == AddFirst(fixed, data, 3);
    if Given(data, "climatisation") {
      schedule := schedule["operationClimatisation" := data["climatisation"]];
    }
    assert schedule == AddFirst(fixed, data, 4);
    if Given(data, "charging") {
      schedule := schedule["operationCharging" := data["charging"]];
    }
    assert schedule == AddFirst(fixed, data, 5);
    if Given(data, "charge_target") {
      schedule := schedule["targetChargeLevel" := data["charge_target"]];
    }
    assert schedule == AddFirst(fixed, data, 6);
    if Given(data, "charge_current") {
      schedule := schedule["chargeMaxCurrent" := data["charge_current"]];
    }
    assert schedule == AddFirst(fixed, data, 7);
    if Given(data, "temp") {
      schedule := schedule["targetTemp" := data["temp"]];
    }
    assert schedule == AddFirst(fixed, data, 8);
    ScheduleMeetsDescription(data, time);
  }

  /** The `climatisation` value sets both the night-rate flag and the
      climatisation operation of the timer. */
  lemma ClimatisationSetsBoth(data: ServiceData, time: string)
    requires Given(data, "climatisation")
    ensures "nightRateActive" in Schedule(data, time) && "operationClimatisation" in Schedule(data, time)
    ensures Schedule(data, time)["nightRateActive"] == Schedule(data, time)["operationClimatisation"] == data["climatisation"]
  {
    ScheduleMeetsDescription(data, time);
    assert OptionalKeys[0] == ("climatisation", "nightRateActive");
    assert OptionalKeys[3] == ("climatisation", "operationClimatisation");
  }

  /** What a `set_schedule` call does: nothing but a warning for an invalid
      request, else `set_timer_schedule(id, schedule)`, where the call's
      `id` defaults to 0 while the schedule's defaults to 1. */
  datatype ScheduleRequest = InvalidRequest | ScheduleCall(id: ServiceValue, schedule: map<string, ServiceValue>)

  /** The argument handling of `set_schedule`. */
  method SetSchedule(data: ServiceData) returns (r: Outcome<ScheduleRequest>)
    ensures ScheduleTime(data).Raise? ==> r == Raise(ScheduleTime(data).exc)
    ensures ScheduleTime(data) == Ok(None) ==> r == Ok(InvalidRequest)
    ensures ScheduleTime(data).Ok? && ScheduleTime(data).value.Some? ==>
      r.Ok? && r.value.ScheduleCall? && r.value.id == DataGet(data, "id", Value(JInt(0))) &&
      ScheduleFor(r.value.schedule, data, ScheduleTime(data).value.value) &&
      ClockPattern(ScheduleTime(data).value.value)
  {
    var id := DataGet(data, "id", Value(JInt(0)));
    var time :- ScheduleTime(data);
    if time.None? {
      return Ok(InvalidRequest);
    }
    var schedule := BuildSchedule(data, time.value);
    r := Ok(ScheduleCall(id, schedule));
  }

  // ---------------------------------------------------------------------
  // set_climater

  /** The arguments of `set_climatisation(action, temp, hvpower, spin)`. */
  datatype ClimaterCall = ClimaterCall(action: string, temp: ServiceValue, hvpower: ServiceValue, spin: ServiceValue)

  /** The argument handling of `set_climater`: when enabled, the auxiliary
      heater or the electric climatisation with the given options; when not,
      "off" with every option None. */
  function SetClimater(data: ServiceData): (r: ClimaterCall)
    ensures r.action == "off" || r.action == "auxiliary" || r.action == "electric"
    ensures r.action == "off" <==> !IsTruthy(DataGet(data, "enabled", NoValue))
    ensures r.action == "auxiliary" <==>
      IsTruthy(DataGet(data, "enabled", NoValue)) && IsTruthy(DataGet(data, "aux_heater", Value(JBool(false))))
    ensures r.action == "off" ==> r.temp == NoValue && r.hvpower == NoValue && r.spin == NoValue
    ensures r.action != "off" ==>
      r.temp == DataGet(data, "temp", NoValue) && r.hvpower == DataGet(data, "battery_power", NoValue) &&
      r.spin == DataGet(data, "spin", NoValue)
  {
    if IsTruthy(DataGet(data, "enabled", NoValue)) then
      var action := if IsTruthy(DataGet(data, "aux_heater", Value(JBool(false)))) then "auxiliary" else "electric";
      ClimaterCall(action, DataGet(data, "temp", NoValue), DataGet(data, "battery_power", NoValue), DataGet(data, "spin", NoValue))
    else ClimaterCall("off", NoValue, NoValue, NoValue)
  }

  /** A request that does not enable climatisation ignores every option. */
  lemma DisabledClimaterIgnoresOptions(d1: ServiceData, d2: ServiceData)
    requires !IsTruthy(DataGet(d1, "enabled", NoValue)) && !IsTruthy(DataGet(d2, "enabled", NoValue))
    ensures SetClimater(d1) == SetClimater(d2)
  {
  }
}
