/** What every Pura entity derives from its device record: the model name, the
    entity's own notion of an installed fragrance, its unique id and the
    intensity data of a wall device; plus the shapes shared by the platforms,
    a vendor call and the entity list a platform builds. */
module Entity {
  import opened Text
  import opened PyJson
  import opened Helpers

  // ================================================================ model name

  /** The keys of the model map: 1 (or True), 2, "car", 3 and 4. */
  predicate KnownModel(m: Json)
  {
    Equal(m, Int(1)) || Equal(m, Int(2)) || m == Str("car") || Equal(m, Int(3)) || Equal(m, Int(4))
  }

  /** `PURA_MODEL_MAP.get(m, m)`. An unhashable dict or list raises TypeError;
      `True` hashes and compares as 1. */
  function ModelName(m: Json): (r: Py<Json>)
    ensures m.Object? || m.Array? ==> r == Raise(TypeError)
    ensures Equal(m, Int(1)) && !m.Object? && !m.Array? ==> r == Ok(Str("Wall"))
    ensures (Equal(m, Int(2)) || m == Str("car")) ==> r == Ok(Str("Car"))
    ensures Equal(m, Int(3)) ==> r == Ok(Str("Plus"))
    ensures Equal(m, Int(4)) ==> r == Ok(Str("Mini"))
    ensures !m.Object? && !m.Array? && !KnownModel(m) ==> r == Ok(m)
  {
    if m.Object? || m.Array? then Raise(TypeError)
    else if Equal(m, Int(1)) then Ok(Str("Wall"))
    else if Equal(m, Int(2)) || m == Str("car") then Ok(Str("Car"))
    else if Equal(m, Int(3)) then Ok(Str("Plus"))
    else if Equal(m, Int(4)) then Ok(Str("Mini"))
    else Ok(m)
  }

  /** The major part of a wall hardware version: the text before the first '.'. */
  function Major(hw: string): (r: string)
    ensures '.' !in r
    ensures '.' !in hw ==> r == hw
  {
    SplitOnce(hw, '.')[0]
  }

  /** `determine_pura_model(data)`: "Pura " and the mapped model; a wall is
      named after the major hardware version, where versions 1 and 2 are the
      "Pura 3" and a missing version counts as 3. */
  function DeterminePuraModel(data: Json): (r: Py<string>)
    ensures !data.Object? ==> r == Raise(AttributeError)
    ensures r.Ok? ==> |r.value| >= 5 && r.value[..5] == "Pura "
    ensures var m := ValueAt(data, "model");
      data.Object? && (Equal(m, Int(2)) || m == Str("car")) ==> r == Ok("Pura " + "Car")
    ensures data.Object? && Equal(ValueAt(data, "model"), Int(3)) ==> r == Ok("Pura " + "Plus")
    ensures data.Object? && Equal(ValueAt(data, "model"), Int(4)) ==> r == Ok("Pura " + "Mini")
    ensures var m := ValueAt(data, "model");
      data.Object? && !m.Object? && !m.Array? && !KnownModel(m) && m != Str("Wall") ==> r == Ok("Pura " + ToStr(m))
    ensures var m := ValueAt(data, "model");
      data.Object? && (Equal(m, Int(1)) || m == Str("Wall")) && !m.Object? && !m.Array? ==>
        var hw := ValueAt(data, "hwVersion");
        (!HasKey(data.fields, "hwVersion") ==> r == Ok("Pura " + "3")) &&
        (hw.Str? ==> r == Ok("Pura " + (if Major(hw.s) in {"1", "2"} then "3" else Major(hw.s)))) &&
        (HasKey(data.fields, "hwVersion") && !hw.Str? ==> r == Raise(AttributeError))
  {
    var m :- Get(data, "model", Null);
    var model :- ModelName(m);
    if model == Str("Wall") then
      // `data` is a dict here, so `data.get("hwVersion", "3")` cannot raise
      var hw := if HasKey(data.fields, "hwVersion") then ValueAt(data, "hwVersion") else Str("3");
      // `.split` exists on strings only
      if !hw.Str? then Raise(AttributeError)
      else
        var version := Major(hw.s);
        Ok("Pura " + (if version in {"1", "2"} then "3" else version))
    else
      Ok("Pura " + ToStr(model))
  }

  /** A wall "Wall" is named after the text before the first '.' of its
      hardware version. */
  lemma WallMajor(major: string, rest: string)
    requires '.' !in major
    ensures Major(major + "." + rest) == major
  {
    SplitOnceAt(major, rest, '.');
  }

  // ================================================================ fragrance, unique id

  /** `has_fragrance(data, bay)` of the entities: plain truthiness of the bay
      record, which must exist. */
  function HasFragrance(data: Json, bay: int): (r: Py<bool>)
    ensures data.Object? && HasKey(data.fields, BayKey(bay)) ==> r == Ok(Truthy(ValueAt(data, BayKey(bay))))
    ensures data.Object? && !HasKey(data.fields, BayKey(bay)) ==> r == Raise(KeyError(Str(BayKey(bay))))
    ensures !data.Object? ==> r == Raise(TypeError)
  {
    var b :- Index(data, BayKey(bay));
    Ok(Truthy(b))
  }

  /** Whatever the helpers' stricter test accepts, the entities' test accepts. */
  lemma HasFragranceWeaker(data: Json, bay: int)
    requires Helpers.HasFragrance(data, bay) == Ok(true)
    ensures HasFragrance(data, bay) == Ok(true)
  {
  }

  /** The converse fails: a bay record with an empty `code` counts here only. */
  lemma HasFragranceWithoutCode()
    ensures var data := Object([Field("bay1", Object([Field("code", Str(""))]))]);
      HasFragrance(data, 1) == Ok(true) && Helpers.HasFragrance(data, 1) == Ok(false)
  {
    var data := Object([Field("bay1", Object([Field("code", Str(""))]))]);
    assert BayKey(1) == "bay1";
    assert Lookup(data.fields, "bay1") == Some(data.fields[0].val);
  }

  /** The unique id of an entity, `f"{device_id}-{description.key}"`. */
  function UniqueId(deviceId: string, key: string): (r: string)
    ensures |r| == |deviceId| + 1 + |key|
    ensures r[..|deviceId|] == deviceId && r[|deviceId|] == '-' && r[|deviceId| + 1..] == key
  {
    deviceId + "-" + key
  }

  /** Two entities of one device with different description keys never share
      an id. */
  lemma UniqueIdPerKey(deviceId: string, k1: string, k2: string)
    requires k1 != k2
    ensures UniqueId(deviceId, k1) != UniqueId(deviceId, k2)
  {
    assert UniqueId(deviceId, k1)[|deviceId| + 1..] == k1;
  }

  /** For device ids without a '-', the id determines both the device and the
      description. */
  lemma UniqueIdInjective(d1: string, k1: string, d2: string, k2: string)
    requires '-' !in d1 && '-' !in d2
    requires UniqueId(d1, k1) == UniqueId(d2, k2)
    ensures d1 == d2 && k1 == k2
  {
    SplitOnceAt(d1, k1, '-');
    SplitOnceAt(d2, k2, '-');
  }

  // ================================================================ intensity data

  /** The schedule's `number`, as text, is the controller. */
  predicate Numbered(schedule: Json, controller: string)
  {
    schedule.Object? && HasKey(schedule.fields, "number") && ToStr(ValueAt(schedule, "number")) == controller
  }

  /** The schedule carries a `number`, and it is not the controller. */
  predicate OtherNumber(schedule: Json, controller: string)
  {
    schedule.Object? && HasKey(schedule.fields, "number") && ToStr(ValueAt(schedule, "number")) != controller
  }

  /** Every schedule from `from` on is a dict carrying a `number`. */
  predicate AllNumbered(schedules: seq<Json>, from: nat)
  {
    forall j :: from <= j < |schedules| ==> schedules[j].Object? && HasKey(schedules[j].fields, "number")
  }

  /** The search `for schedule in schedules: if str(schedule["number"]) ==
      controller: ...` from position `from`: the first match, None, or the
      exception a schedule without a number raises. */
  function ScheduleMatch(schedules: seq<Json>, controller: string, from: nat): (r: Py<Option<nat>>)
    requires from <= |schedules|
    ensures r.Ok? && r.value.Some? ==>
      from <= r.value.value < |schedules| && Numbered(schedules[r.value.value], controller) &&
      forall j :: from <= j < r.value.value ==> OtherNumber(schedules[j], controller)
    ensures r == Ok(None) ==> forall j :: from <= j < |schedules| ==> OtherNumber(schedules[j], controller)
    ensures AllNumbered(schedules, from) ==> r.Ok?
    decreases |schedules| - from
  {
    if from == |schedules| then Ok(None)
    else
      var number :- Index(schedules[from], "number");
      assert ValueAt(schedules[from], "number") == number;
      if ToStr(number) == controller then Ok(Some(from))
      else
        var rest := ScheduleMatch(schedules, controller, from + 1);
        assert OtherNumber(schedules[from], controller);
        rest
  }

  /** The schedule search as the loop it is, stopping at the first match. */
  method FindSchedule(schedules: seq<Json>, controller: string) returns (r: Py<Option<nat>>)
    ensures r == ScheduleMatch(schedules, controller, 0)
  {
    var i := 0;
    while i < |schedules|
      invariant i <= |schedules|
      invariant ScheduleMatch(schedules, controller, 0) == ScheduleMatch(schedules, controller, i)
    {
      var number :- Index(schedules[i], "number");
      if ToStr(number) == controller {
        return Ok(Some(i));
      }
      i := i + 1;
    }
    return Ok(None);
  }

  /** The schedule a numeric controller names, if any; a non-numeric
      controller names none and the schedules are not read. */
  function MatchedSchedule(device: Json, controller: string): (r: Py<Option<Json>>)
    ensures !IsNumeric(controller) ==> r == Ok(None)
    ensures r.Ok? && r.value.Some? ==>
      IsNumeric(controller) && Numbered(r.value.value, controller) && Iterate(ValueAt(device, "schedules")).Ok? &&
      exists i :: 0 <= i < |Iterate(ValueAt(device, "schedules")).value| &&
        ScheduleMatch(Iterate(ValueAt(device, "schedules")).value, controller, 0) == Ok(Some(i)) &&
        r.value.value == Iterate(ValueAt(device, "schedules")).value[i]
    ensures IsNumeric(controller) && r == Ok(None) ==>
      Iterate(ValueAt(device, "schedules")).Ok? &&
      forall d :: d in Iterate(ValueAt(device, "schedules")).value ==> OtherNumber(d, controller)
    ensures (IsNumeric(controller) && ValueAt(device, "schedules").Array? &&
             AllNumbered(ValueAt(device, "schedules").items, 0)) ==> r.Ok?
  {
    if !IsNumeric(controller) then Ok(None)
    else
      var schedules :- Index(device, "schedules");
      var items :- Iterate(schedules);
      var found :- ScheduleMatch(items, controller, 0);
      Ok(if found.Some? then Some(items[found.value]) else None)
  }

  /** The bay record is truthy and active. */
  predicate BayActive(device: Json, key: string)
  {
    Truthy(ValueAt(device, key)) && Truthy(ValueAt(ValueAt(device, key), "activeAt"))
  }

  /** The active bay of the default branch: 1 when bay1 is truthy and active,
      else 2 when bay2 is, else 0. `bay1` must exist; `bay2` may be missing. */
  function ResolvedBay(device: Json): (r: Py<int>)
    ensures r.Ok? ==> r.value in {0, 1, 2}
    ensures r.Ok? ==> (r.value == 1 <==> BayActive(device, "bay1"))
    ensures r.Ok? ==> (r.value == 2 <==> !BayActive(device, "bay1") && BayActive(device, "bay2"))
    ensures device.Object? && !HasKey(device.fields, "bay1") ==> r == Raise(KeyError(Str("bay1")))
    ensures device.Object? && ValueAt(device, "bay1").Object? && HasKey(ValueAt(device, "bay1").fields, "activeAt") &&
      (!Truthy(ValueAt(device, "bay2")) || (ValueAt(device, "bay2").Object? && HasKey(ValueAt(device, "bay2").fields, "activeAt")))
      ==> r.Ok?
  {
    var b1 :- Index(device, "bay1");
    var on1 :- if Truthy(b1) then Index(b1, "activeAt") else Ok(Null);
    if Truthy(on1) then Ok(1)
    else
      // `device` is a dict here, so `device.get("bay2")` cannot raise
      var b2 := ValueAt(device, "bay2");
      var on2 :- if Truthy(b2) then Index(b2, "activeAt") else Ok(Null);
      Ok(if Truthy(on2) then 2 else 0)
  }

  /** The intensity key of a bay in the device defaults, `f"bay{bay}Intensity"`. */
  function IntensityKey(bay: int): string
  {
    BayKey(bay) + "Intensity"
  }

  /** `device["deviceDefaults"][f"bay{bay}Intensity"]`. */
  function DefaultOf(device: Json, bay: int): (r: Py<Json>)
    ensures r.Ok? ==> r.value == ValueAt(ValueAt(device, "deviceDefaults"), IntensityKey(bay))
    ensures device.Object? && !HasKey(device.fields, "deviceDefaults") ==> r == Raise(KeyError(Str("deviceDefaults")))
    ensures var defaults := ValueAt(device, "deviceDefaults");
      r.Ok? <==> defaults.Object? && HasKey(defaults.fields, IntensityKey(bay))
  {
    var defaults :- Index(device, "deviceDefaults");
    Index(defaults, IntensityKey(bay))
  }

  /** The default branch of `_intensity_data`: the resolved bay, `str` of the
      controller, and the bay's default intensity, or None for bay 0. */
  function DefaultIntensity(device: Json, controller: Json): (r: Py<Json>)
    ensures r.Ok? ==> (ResolvedBay(device).Ok? && r.value.Object? &&
      var bay := ResolvedBay(device).value;
      Lookup(r.value.fields, "bay") == Some(Int(bay)) &&
      Lookup(r.value.fields, "controller") == Some(Str(ToStr(controller))) &&
      Lookup(r.value.fields, "intensity") ==
        Some(if bay == 0 then Null else ValueAt(ValueAt(device, "deviceDefaults"), IntensityKey(bay))))
    ensures (ResolvedBay(device).Ok? && ResolvedBay(device).value != 0 && device.Object? &&
      !HasKey(device.fields, "deviceDefaults")) ==> r == Raise(KeyError(Str("deviceDefaults")))
    ensures r.Ok? <==>
      ResolvedBay(device).Ok? && (ResolvedBay(device).value == 0 || DefaultOf(device, ResolvedBay(device).value).Ok?)
  {
    var bay :- ResolvedBay(device);
    var intensity :- if bay == 0 then Ok(Null) else DefaultOf(device, bay);
    var fs := [Field("bay", Int(bay)), Field("controller", Str(ToStr(controller))), Field("intensity", intensity)];
    assert fs[1..][1..] == [fs[2]];
    assert Lookup(fs, "intensity") == Some(intensity);
    Ok(Object(fs))
  }

  /** `PuraEntity._intensity_data` for a wall device record. */
  function IntensityData(device: Json): (r: Py<Json>)
    ensures device.Object? && !HasKey(device.fields, "controller") ==> r == Raise(KeyError(Str("controller")))
    ensures var c := ValueAt(device, "controller");
      device.Object? && c != Str("timer") && !c.Str? && HasKey(device.fields, "controller") ==> r == Raise(AttributeError)
    ensures ValueAt(device, "controller") == Str("timer") && r.Ok? ==>
      var timer := ValueAt(device, "timer");
      timer.Object? && r.value.Object? && Lookup(r.value.fields, "controller") == Some(Str("timer")) &&
      forall k :: k != "controller" ==> Lookup(r.value.fields, k) == Lookup(timer.fields, k)
    ensures ValueAt(device, "controller") == Str("timer") ==> (r.Ok? <==> ValueAt(device, "timer").Object?)
    ensures var c := ValueAt(device, "controller");
      c.Str? && c != Str("timer") && MatchedSchedule(device, c.s).Ok? && MatchedSchedule(device, c.s).value.Some? ==>
        var schedule := MatchedSchedule(device, c.s).value.value;
        r.Ok? && r.value.Object? && Lookup(r.value.fields, "controller") == Some(Str("schedule")) &&
        forall k :: k != "controller" ==> Lookup(r.value.fields, k) == Lookup(schedule.fields, k)
    ensures var c := ValueAt(device, "controller");
      c.Str? && c != Str("timer") && MatchedSchedule(device, c.s) == Ok(None) ==> r == DefaultIntensity(device, c)
    ensures var c := ValueAt(device, "controller");
      c.Str? && c != Str("timer") && MatchedSchedule(device, c.s).Raise? ==> r == Raise(MatchedSchedule(device, c.s).exc)
  {
    var controller :- Index(device, "controller");
    if controller == Str("timer") then
      var timer :- Index(device, "timer");
      With(timer, "controller", controller)
    // `.isnumeric()` exists on strings only
    else if !controller.Str? then Raise(AttributeError)
    else
      var found :- MatchedSchedule(device, controller.s);
      match found
      case Some(schedule) => With(schedule, "controller", Str("schedule"))
      case None => DefaultIntensity(device, controller)
  }

  /** A controller that neither names the timer nor is numeric always takes
      the default branch. */
  lemma IntensityNonNumeric(device: Json)
    requires device.Object? && ValueAt(device, "controller").Str?
    requires ValueAt(device, "controller") != Str("timer") && !IsNumeric(ValueAt(device, "controller").s)
    ensures IntensityData(device) == DefaultIntensity(device, ValueAt(device, "controller"))
  {
  }

  // ================================================================ vendor calls

  /** A call into the vendor client: the method, the device and the keyword
      arguments in the order they are written. */
  datatype Call = Call(name: string, deviceId: Json, args: seq<Field>)

  /** A command an entity issues: the vendor call, and whether a refresh of
      the coordinator follows, which it does exactly when the call's reply is
      truthy. */
  datatype Command = Command(call: Call, refresh: bool)

  function Issue(call: Call, reply: Json): Command
  {
    Command(call, Truthy(reply))
  }

  // ================================================================ entity lists

  /** The device categories a description group applies to. A parenthesised
      single string in the tables is a string, not a tuple, so membership in it
      is substring membership. */
  datatype Group = Names(names: seq<string>) | Text(text: string)

  predicate InGroup(category: string, g: Group)
  {
    match g
    case Names(ns) => category in ns
    case Text(t) => Contains(Str(t), category) == Ok(true)
  }

  /** One entity of a platform: its category, its device's id and its
      description's key. */
  datatype EntityRef = EntityRef(category: string, deviceId: Json, key: string)

  /** The entities of one device: one per description, in order. */
  function ForDescriptions(category: string, device: Json, keys: seq<string>): (r: Py<seq<EntityRef>>)
    ensures keys == [] ==> r == Ok([])
    ensures keys != [] ==> r.Ok? == GetDeviceId(device).Ok?
    ensures r.Ok? ==> (|r.value| == |keys| &&
      forall j :: 0 <= j < |keys| ==> r.value[j] == EntityRef(category, GetDeviceId(device).value, keys[j]))
  {
    if keys == [] then Ok([])
    else
      var id :- GetDeviceId(device);
      Ok(seq(|keys|, j requires 0 <= j < |keys| => EntityRef(category, id, keys[j])))
  }

  /** The device has an id, or no entity is asked of it. */
  predicate Identified(device: Json, keys: seq<string>)
  {
    keys == [] || GetDeviceId(device).Ok?
  }

  /** The entities of a category's devices, device by device. */
  function ForDevices(category: string, devices: seq<Json>, keys: seq<string>): (r: Py<seq<EntityRef>>)
    ensures r.Ok? <==> forall i :: 0 <= i < |devices| ==> Identified(devices[i], keys)
    ensures r.Ok? ==> |r.value| == |devices| * |keys|
    ensures r.Ok? ==> forall e :: e in r.value ==> e.category == category && e.key in keys
    ensures r.Ok? ==> forall i, j :: 0 <= i < |devices| && 0 <= j < |keys| ==>
      EntityRef(category, GetDeviceId(devices[i]).value, keys[j]) in r.value
  {
    if devices == [] then Ok([])
    else
      var first :- ForDescriptions(category, devices[0], keys);
      var rest :- ForDevices(category, devices[1..], keys);
      assert forall i :: 1 <= i < |devices| ==> devices[i] == devices[1..][i - 1];
      Ok(first + rest)
  }

  /** The entities of one description group over the table's categories, in
      the table's order; only categories in the group contribute. */
  function ForCategories(g: Group, keys: seq<string>, table: seq<Field>): (r: Py<seq<EntityRef>>)
    ensures r.Ok? ==> forall e :: e in r.value ==> InGroup(e.category, g) && e.key in keys
    ensures r.Ok? ==> forall c :: 0 <= c < |table| && InGroup(table[c].key, g) ==> Iterate(table[c].val).Ok?
    ensures r.Ok? ==> forall c, i :: (0 <= c < |table| && InGroup(table[c].key, g) && Iterate(table[c].val).Ok? &&
      0 <= i < |Iterate(table[c].val).value| && keys != []) ==> GetDeviceId(Iterate(table[c].val).value[i]).Ok?
    ensures r.Ok? ==> forall c, i, j :: (0 <= c < |table| && InGroup(table[c].key, g) && Iterate(table[c].val).Ok? &&
      0 <= i < |Iterate(table[c].val).value| && 0 <= j < |keys|) ==>
        EntityRef(table[c].key, GetDeviceId(Iterate(table[c].val).value[i]).value, keys[j]) in r.value
  {
    if table == [] then Ok([])
    else
      var first :- if InGroup(table[0].key, g) then
          var devices :- Iterate(table[0].val);
          ForDevices(table[0].key, devices, keys)
        else Ok([]);
      var rest :- ForCategories(g, keys, table[1..]);
      assert forall c :: 1 <= c < |table| ==> table[c] == table[1..][c - 1];
      Ok(first + rest)
  }

  /** The entity list of a platform: for each description group in order, for
      each category of the table in that group, one entity per device and
      description. */
  function Entities(groups: seq<(Group, seq<string>)>, table: seq<Field>): (r: Py<seq<EntityRef>>)
    ensures r.Ok? ==> forall e :: e in r.value ==>
      exists n :: 0 <= n < |groups| && InGroup(e.category, groups[n].0) && e.key in groups[n].1
    ensures r.Ok? ==> forall n, c, i :: (0 <= n < |groups| && 0 <= c < |table| && InGroup(table[c].key, groups[n].0) &&
      Iterate(table[c].val).Ok? && 0 <= i < |Iterate(table[c].val).value| && groups[n].1 != []) ==>
        GetDeviceId(Iterate(table[c].val).value[i]).Ok?
    ensures r.Ok? ==> forall n, c, i, j :: (0 <= n < |groups| && 0 <= c < |table| && InGroup(table[c].key, groups[n].0) &&
      Iterate(table[c].val).Ok? && 0 <= i < |Iterate(table[c].val).value| && 0 <= j < |groups[n].1|) ==>
        EntityRef(table[c].key, GetDeviceId(Iterate(table[c].val).value[i]).value, groups[n].1[j]) in r.value
  {
    if groups == [] then Ok([])
    else
      var first :- ForCategories(groups[0].0, groups[0].1, table);
      var rest :- Entities(groups[1..], table);
      assert forall n :: 1 <= n < |groups| ==> groups[n] == groups[1..][n - 1];
      Ok(first + rest)
  }

  /** The keys of the descriptions whose group holds the category, in order. */
  function KeysFor(category: string, groups: seq<(Group, seq<string>)>): (r: seq<string>)
    ensures forall k :: k in r <==> exists n :: 0 <= n < |groups| && InGroup(category, groups[n].0) && k in groups[n].1
  {
    if groups == [] then []
    else
      var rest := KeysFor(category, groups[1..]);
      assert forall n :: 1 <= n < |groups| ==> groups[n] == groups[1..][n - 1];
      (if InGroup(category, groups[0].0) then groups[0].1 else []) + rest
  }
}
