/** The entity set-up shared by the binary-sensor and climate platforms:
    the `resources` list of the config entry (its options win over its data)
    and the instruments of one component whose attribute is listed there. */
module SkodaPlatform {
  import opened Python
  import opened SkodaVehicle
  import opened SkodaDashboard

  const ResourcesKey := "resources"

  /** The component name tells the binary sensors and the climates apart
      from every other instrument class. */
  lemma ComponentIdentifiesKind(k: Kind)
    ensures Component(k) == "binary_sensor" <==> k.BinarySensorKind?
    ensures Component(k) == "climate" <==> k.ClimateKind?
  {
  }

  /** `entry.options[CONF_RESOURCES]` when the options hold that key, else
      `entry.data[CONF_RESOURCES]`. */
  function Resources(options: Kw, data: Kw): (r: Outcome<Json>)
    ensures ResourcesKey in options ==> r == Ok(options[ResourcesKey])
    ensures ResourcesKey !in options && ResourcesKey in data ==> r == Ok(data[ResourcesKey])
    ensures r.Raise? <==> ResourcesKey !in options && ResourcesKey !in data
    ensures r.Raise? ==> r.exc == KeyError
  {
    if ResourcesKey in options then Ok(options[ResourcesKey]) else Subscript(JObj(data), ResourcesKey)
  }

  /** `instrument.component == component and instrument.attr in resources`;
      the membership test runs only for instruments of that component. */
  function Listed(i: Inst, component: string, resources: Json): Outcome<bool> {
    if Component(i.def.kind) != component then Ok(false) else In(Name(i.def.attr), resources)
  }

  /** The generator handed to `async_add_devices`, consumed in order: the
      first failing test ends it. */
  function Selected(insts: seq<Inst>, test: Inst -> Outcome<bool>): Outcome<seq<Inst>>
    decreases |insts|
  {
    if insts == [] then Ok([])
    else
      var keep :- test(insts[0]);
      var rest :- Selected(insts[1..], test);
      Ok(if keep then [insts[0]] + rest else rest)
  }

  /** The selection fails iff some instrument's test fails, and otherwise
      keeps exactly the instruments that pass, in their own order. */
  lemma {:induction false} SelectedIsListed(insts: seq<Inst>, test: Inst -> Outcome<bool>)
    ensures Selected(insts, test).Raise? <==> exists k :: 0 <= k < |insts| && test(insts[k]).Raise?
    ensures Selected(insts, test).Ok? ==>
      forall x :: x in Selected(insts, test).value <==> x in insts && test(x) == Ok(true)
    decreases |insts|
  {
    if insts != [] {
      var rest := insts[1..];
      SelectedIsListed(rest, test);
      assert forall k :: 0 <= k < |rest| ==> rest[k] == insts[k + 1];
      assert insts == [insts[0]] + rest;
      if test(insts[0]).Raise? {
        assert Selected(insts, test).Raise?;
      } else if exists k :: 0 <= k < |rest| && test(rest[k]).Raise? {
        var k :| 0 <= k < |rest| && test(rest[k]).Raise?;
        assert test(insts[k + 1]).Raise?;
      } else {
        assert !exists k :: 0 <= k < |insts| && test(insts[k]).Raise? by {
          forall k | 0 <= k < |insts|
            ensures !test(insts[k]).Raise?
          {
            if k > 0 {
              assert insts[k] == rest[k - 1];
            }
          }
        }
      }
    }
  }

  /** `async_setup_entry` of a platform: nothing while the coordinator holds
      no data, else the selection of `instruments` against the resources.
      `data.instruments` is a Python set, so the order of the entities handed
      to `async_add_entities` is not significant; the sequence here fixes one
      order only so the selection can be stated. */
  function SetupEntities(hasData: bool, options: Kw, data: Kw, instruments: seq<Inst>, component: string): Outcome<seq<Inst>> {
    if !hasData then Ok([])
    else
      var resources :- Resources(options, data);
      Selected(instruments, i => Listed(i, component, resources))
  }

  /** With a resources list in the options, set-up succeeds whatever the
      entry data holds, and creates an entity for exactly the instruments
      of the component whose attribute name is in that list. */
  lemma SetupEntitiesFromOptions(options: Kw, data: Kw, instruments: seq<Inst>, component: string)
    requires ResourcesKey in options && options[ResourcesKey].JList?
    ensures SetupEntities(true, options, data, instruments, component).Ok?
    ensures forall x :: x in SetupEntities(true, options, data, instruments, component).value <==>
      x in instruments && Component(x.def.kind) == component &&
      JStr(Name(x.def.attr)) in options[ResourcesKey].items
  {
    SelectedIsListed(instruments, i => Listed(i, component, options[ResourcesKey]));
  }
}
