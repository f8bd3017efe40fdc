/** The sensors of the diffusers: what each description reports about a
    device record, when it is available, and which entities exist. */
module Sensor {
  import opened Text
  import opened PyJson
  import opened Helpers
  import opened Entity

  /** What a sensor reports: a value of the record, a percentage, or an
      instant in seconds since the epoch. */
  datatype Reading = Value(v: Json) | Percent(pct: real) | Timestamp(seconds: int)

  /** The sensors' own `fragrance_remaining(data, bay)`: always computed from
      the expected life and the runtime, without looking at a stored
      percentage. */
  function SensorFragranceRemaining(data: Json, bay: int, now: real): (r: Py<real>)
    ensures data.Object? && !HasKey(data.fields, BayKey(bay)) ==> r == Raise(KeyError(Str(BayKey(bay))))
    ensures r.Ok? ==>
      var hours := ValueAt(ValueAt(ValueAt(data, BayKey(bay)), "fragrance"), "expectedLifeHours");
      var runtime := FragranceRuntime(data, bay, now);
      runtime.Ok? && Number(hours).Some? && Number(runtime.value).Some? && Number(hours).value != 0 &&
      r.value == RemainingPercent(Number(hours).value * 3600, Number(runtime.value).value)
    ensures var b := ValueAt(data, BayKey(bay));
      var fragrance := ValueAt(b, "fragrance");
      b.Object? && fragrance.Object? && HasKey(fragrance.fields, "expectedLifeHours") ==>
      r == LifeRemaining(data, bay, now, ValueAt(fragrance, "expectedLifeHours"))
    ensures var b := ValueAt(data, BayKey(bay));
      var fragrance := ValueAt(b, "fragrance");
      !(b.Object? && HasKey(b.fields, "fragrance") && fragrance.Object? && HasKey(fragrance.fields, "expectedLifeHours")) ==>
      r.Raise?
  {
    var b :- Index(data, BayKey(bay));
    var fragrance :- Index(b, "fragrance");
    var hours :- Index(fragrance, "expectedLifeHours");
    LifeRemaining(data, bay, now, hours)
  }

  /** For a positive expected life the sensor reads at least 0%, and at most
      100% when the runtime is not negative. */
  lemma SensorRemainingBounds(data: Json, bay: int, now: real)
    requires SensorFragranceRemaining(data, bay, now).Ok?
    requires Number(ValueAt(ValueAt(ValueAt(data, BayKey(bay)), "fragrance"), "expectedLifeHours")).value > 0
    ensures 0.0 <= SensorFragranceRemaining(data, bay, now).value
    ensures Number(FragranceRuntime(data, bay, now).value).value >= 0 ==> SensorFragranceRemaining(data, bay, now).value <= 100.0
  {
  }

  /** Where the helpers find no stored percentage, they compute what the
      sensor computes. */
  lemma SensorAgreesWithHelpers(data: Json, bay: int, now: real)
    requires SensorFragranceRemaining(data, bay, now).Ok?
    requires !Truthy(ValueAt(ValueAt(data, BayKey(bay)), "remaining"))
    ensures FragranceRemaining(data, bay, now) == Ok(Computed(SensorFragranceRemaining(data, bay, now).value))
  {
    var b := ValueAt(data, BayKey(bay));
    var fragrance := ValueAt(b, "fragrance");
    assert Truthy(fragrance) by {
      assert HasKey(fragrance.fields, "expectedLifeHours");
    }
  }

  /** The bay is present and idle: falsy, or a dict with a falsy `activeAt`. */
  predicate BayIdle(data: Json, key: string)
  {
    var b := ValueAt(data, key);
    data.Object? && HasKey(data.fields, key) &&
    (!Truthy(b) || (b.Object? && HasKey(b.fields, "activeAt") && !Truthy(ValueAt(b, "activeAt"))))
  }

  /** The `active_fragrance` sensor: bay 1's fragrance name when bay 1 is
      truthy and active, else bay 2's when it is, else "none". */
  function ActiveFragrance(data: Json): (r: Py<Json>)
    ensures r.Ok? && BayActive(data, "bay1") ==> r == Index(ValueAt(ValueAt(data, "bay1"), "fragrance"), "name")
    ensures r.Ok? && !BayActive(data, "bay1") && BayActive(data, "bay2") ==>
      r == Index(ValueAt(ValueAt(data, "bay2"), "fragrance"), "name")
    ensures r.Ok? && !BayActive(data, "bay1") && !BayActive(data, "bay2") ==> r == Ok(Str("none"))
    ensures data.Object? && !HasKey(data.fields, "bay1") ==> r == Raise(KeyError(Str("bay1")))
    ensures BayActive(data, "bay1") ==> r == At2(ValueAt(data, "bay1"), "fragrance", "name")
    ensures BayIdle(data, "bay1") && BayActive(data, "bay2") ==> r == At2(ValueAt(data, "bay2"), "fragrance", "name")
    ensures BayIdle(data, "bay1") && BayIdle(data, "bay2") ==> r == Ok(Str("none"))
  {
    var b1 :- Index(data, "bay1");
    var on1 :- if Truthy(b1) then Index(b1, "activeAt") else Ok(Null);
    if Truthy(on1) then
      var f1 :- Index(b1, "fragrance");
      Index(f1, "name")
    else
      var b2 :- Index(data, "bay2");
      var on2 :- if Truthy(b2) then Index(b2, "activeAt") else Ok(Null);
      if Truthy(on2) then
        var f2 :- Index(b2, "fragrance");
        Index(f2, "name")
      else Ok(Str("none"))
  }

  /** The `controller` sensor: "schedule" for a numeric controller, the
      controller itself otherwise. */
  function ControllerState(data: Json): (r: Py<Json>)
    ensures r.Ok? <==> data.Object? && HasKey(data.fields, "controller") && ValueAt(data, "controller").Str?
    ensures r.Ok? ==>
      (r.value == Str("schedule") <==>
       (IsNumeric(ValueAt(data, "controller").s) || ValueAt(data, "controller") == Str("schedule")))
    ensures r.Ok? && !IsNumeric(ValueAt(data, "controller").s) ==> r.value == ValueAt(data, "controller")
  {
    var controller :- Index(data, "controller");
    // `.isnumeric()` exists on strings only
    if !controller.Str? then Raise(AttributeError)
    else if IsNumeric(controller.s) then Ok(Str("schedule"))
    else Ok(controller)
  }

  /** `datetime.fromtimestamp(t, UTC)` for a whole number of seconds. */
  function Instant(t: Json): (r: Py<Reading>)
    ensures Number(t).Some? ==> r == Ok(Timestamp(Number(t).value))
    ensures Number(t).None? ==> r == Raise(TypeError)
  {
    match Number(t)
    case Some(n) => Ok(Timestamp(n))
    case None => Raise(TypeError)
  }

  /** The `timer` sensor: None without a timer or without a truthy `end`,
      else the `end` instant. */
  function TimerState(data: Json): (r: Py<Reading>)
    ensures data.Object? && !Truthy(ValueAt(data, "timer")) ==> r == Ok(Value(Null))
    ensures data.Object? && ValueAt(data, "timer").Object? ==>
      var end := ValueAt(ValueAt(data, "timer"), "end");
      (!Truthy(end) ==> r == Ok(Value(Null))) && (Truthy(end) ==> r == Instant(end))
    ensures !data.Object? ==> r == Raise(AttributeError)
  {
    var timer :- Get(data, "timer", Null);
    var end :- Get(if Truthy(timer) then timer else Object([]), "end", Null);
    if !Truthy(end) then Ok(Value(Null)) else Instant(end)
  }

  /** `data[k1][k2]`: the value two keys down, KeyError naming the first
      key missing, TypeError where a level is not a dict. */
  function At2(data: Json, k1: string, k2: string): (r: Py<Json>)
    ensures r.Ok? ==> r.value == ValueAt(ValueAt(data, k1), k2)
    ensures r.Ok? <==> data.Object? && HasKey(data.fields, k1) && ValueAt(data, k1).Object? &&
                       HasKey(ValueAt(data, k1).fields, k2)
    ensures !data.Object? ==> r == Raise(TypeError)
    ensures data.Object? && !HasKey(data.fields, k1) ==> r == Raise(KeyError(Str(k1)))
    ensures data.Object? && HasKey(data.fields, k1) && !ValueAt(data, k1).Object? ==> r == Raise(TypeError)
    ensures data.Object? && ValueAt(data, k1).Object? && !HasKey(ValueAt(data, k1).fields, k2) ==>
      r == Raise(KeyError(Str(k2)))
  {
    var first :- Index(data, k1);
    Index(first, k2)
  }

  /** `data[k1][k2][k3]`: the value three keys down; the first two levels
      fail as `At2` does, and the third as one more subscript. */
  function At3(data: Json, k1: string, k2: string, k3: string): (r: Py<Json>)
    ensures r.Ok? ==> At2(data, k1, k2).Ok? && r.value == ValueAt(At2(data, k1, k2).value, k3)
    ensures var second := ValueAt(ValueAt(data, k1), k2);
      r.Ok? <==> At2(data, k1, k2).Ok? && second.Object? && HasKey(second.fields, k3)
    ensures At2(data, k1, k2).Raise? ==> r == Raise(At2(data, k1, k2).exc)
    ensures var second := ValueAt(ValueAt(data, k1), k2);
      At2(data, k1, k2).Ok? && !second.Object? ==> r == Raise(TypeError)
    ensures var second := ValueAt(ValueAt(data, k1), k2);
      At2(data, k1, k2).Ok? && second.Object? && !HasKey(second.fields, k3) ==> r == Raise(KeyError(Str(k3)))
  {
    var second :- At2(data, k1, k2);
    Index(second, k3)
  }

  /** The keys of the sensor descriptions. */
  const SensorKeys: set<string> := {
    "intensity", "last_active", "fragrance", "fragrance_remaining", "runtime", "active_fragrance",
    "bay_1", "bay_1_fragrance_remaining", "bay_1_runtime", "bay_1_installed",
    "bay_2", "bay_2_fragrance_remaining", "bay_2_runtime", "bay_2_installed", "controller", "timer"}

  /** The reading of each sensor description's `value_fn`, by key. */
  function SensorValue(key: string, data: Json, now: real): (r: Py<Reading>)
    ensures key == "active_fragrance" ==> r == (var n :- ActiveFragrance(data); Ok(Value(n)))
    ensures key == "controller" ==> r == (var c :- ControllerState(data); Ok(Value(c)))
    ensures key == "timer" ==> r == TimerState(data)
    ensures key == "runtime" ==> r == (var w :- At2(data, "bay1", "wearingTime"); Ok(Value(w)))
    ensures key in {"bay_1_runtime", "bay_2_runtime"} ==>
      r == (var t :- FragranceRuntime(data, if key == "bay_1_runtime" then 1 else 2, now); Ok(Value(t)))
    ensures key in {"fragrance_remaining", "bay_1_fragrance_remaining", "bay_2_fragrance_remaining"} ==>
      r == (var p :- SensorFragranceRemaining(data, if key == "bay_2_fragrance_remaining" then 2 else 1, now); Ok(Percent(p)))
    ensures key == "intensity" ==> r == (var i :- At2(data, "bay1", "fanIntensity"); Ok(Value(i)))
    ensures key == "last_active" ==> r == (var t :- At2(data, "bay1", "activeAt"); Instant(t))
    ensures key in {"fragrance", "bay_1"} ==> r == (var n :- At3(data, "bay1", "fragrance", "name"); Ok(Value(n)))
    ensures key == "bay_2" ==> r == (var n :- At3(data, "bay2", "fragrance", "name"); Ok(Value(n)))
    ensures key in {"bay_1_installed", "bay_2_installed"} ==>
      r == (var t :- At2(data, if key == "bay_1_installed" then "bay1" else "bay2", "id"); Instant(t))
    ensures key !in SensorKeys ==> r == Raise(KeyError(Str(key)))
  {
    match key
    case "intensity" => var i :- At2(data, "bay1", "fanIntensity"); Ok(Value(i))
    case "last_active" => var t :- At2(data, "bay1", "activeAt"); Instant(t)
    case "fragrance" => var n :- At3(data, "bay1", "fragrance", "name"); Ok(Value(n))
    case "fragrance_remaining" => var p :- SensorFragranceRemaining(data, 1, now); Ok(Percent(p))
    case "runtime" => var w :- At2(data, "bay1", "wearingTime"); Ok(Value(w))
    case "active_fragrance" => var n :- ActiveFragrance(data); Ok(Value(n))
    case "bay_1" => var n :- At3(data, "bay1", "fragrance", "name"); Ok(Value(n))
    case "bay_1_fragrance_remaining" => var p :- SensorFragranceRemaining(data, 1, now); Ok(Percent(p))
    case "bay_1_runtime" => var t :- FragranceRuntime(data, 1, now); Ok(Value(t))
    case "bay_1_installed" => var t :- At2(data, "bay1", "id"); Instant(t)
    case "bay_2" => var n :- At3(data, "bay2", "fragrance", "name"); Ok(Value(n))
    case "bay_2_fragrance_remaining" => var p :- SensorFragranceRemaining(data, 2, now); Ok(Percent(p))
    case "bay_2_runtime" => var t :- FragranceRuntime(data, 2, now); Ok(Value(t))
    case "bay_2_installed" => var t :- At2(data, "bay2", "id"); Instant(t)
    case "controller" => var c :- ControllerState(data); Ok(Value(c))
    case "timer" => TimerState(data)
    case _ => Raise(KeyError(Str(key)))
  }

  /** The `runtime` sensor of cars and minis reads the stored `wearingTime`
      alone, where the wall's bay runtime adds the unreported active time. */
  lemma CarRuntimeIsStored(data: Json, now: real)
    requires FragranceRuntime(data, 1, now).Ok? && !RunningUnreported(data, 1)
    ensures SensorValue("runtime", data, now) == (var t :- FragranceRuntime(data, 1, now); Ok(Value(t)))
    ensures SensorValue("runtime", data, now) == SensorValue("bay_1_runtime", data, now)
  {
    BayKeysDistinct();
  }

  /** The bay whose fragrance a description's `available_fn` tests, or 0 for
      the descriptions without one. */
  function AvailabilityBay(key: string): (r: int)
    ensures r in {0, 1, 2}
    ensures r == 0 <==> key in {"active_fragrance", "controller", "timer"}
  {
    if key in {"active_fragrance", "controller", "timer"} then 0
    else if key in {"bay_2", "bay_2_fragrance_remaining", "bay_2_runtime", "bay_2_installed"} then 2
    else 1
  }

  /** `available`: the description's fragrance test on the device record when
      it has one, else the coordinator's own availability `base`. */
  function Available(key: string, data: Json, base: bool): (r: Py<bool>)
    ensures AvailabilityBay(key) == 0 ==> r == Ok(base)
    ensures AvailabilityBay(key) != 0 ==> r == Entity.HasFragrance(data, AvailabilityBay(key))
    ensures (AvailabilityBay(key) != 0 && data.Object? && HasKey(data.fields, BayKey(AvailabilityBay(key)))) ==>
      r == Ok(Truthy(ValueAt(data, BayKey(AvailabilityBay(key)))))
  {
    var bay := AvailabilityBay(key);
    if bay == 0 then Ok(base) else Entity.HasFragrance(data, bay)
  }

  /** The description groups, in the order they are written. The car and
      mini groups are written `("car")` and `("mini")`: plain strings. */
  const Sensors: seq<(Group, seq<string>)> := [
    (Text("car"), ["intensity", "last_active"]),
    (Names(["car", "mini"]), ["fragrance", "fragrance_remaining", "runtime"]),
    (Names(["wall", "plus"]), ["active_fragrance", "bay_1", "bay_1_fragrance_remaining", "bay_1_runtime", "bay_1_installed",
                               "bay_2", "bay_2_fragrance_remaining", "bay_2_runtime", "bay_2_installed"]),
    (Names(["wall", "plus", "mini"]), ["controller", "timer"]),
    (Text("mini"), ["bay_1_installed"])
  ]

  /** `device_type in "car"` and `device_type in "mini"` test substrings: for
      the four device categories they agree with equality. */
  lemma TextGroupsExact(category: string)
    requires category in {"car", "wall", "plus", "mini"}
    ensures InGroup(category, Text("car")) <==> category == "car"
    ensures InGroup(category, Text("mini")) <==> category == "mini"
  {
    assert OccursAt("car", "car", 0);
    assert OccursAt("mini", "mini", 0);
    if category == "car" {
      FirstCharDiffers(category, "mini", 0);
      FirstCharDiffers(category, "mini", 1);
    } else if category != "mini" {
      FirstCharDiffers(category, "mini", 0);
    }
  }

  /** A needle does not occur where its first character is missing. */
  lemma FirstCharDiffers(needle: string, s: string, i: nat)
    requires 0 < |needle| && i < |s| && s[i] != needle[0]
    ensures !OccursAt(needle, s, i)
  {
    if i + |needle| <= |s| {
      assert s[i..i + |needle|][0] == s[i];
    }
  }

  /** A car gets its own two sensors and the three it shares with the mini. */
  lemma CarSensors()
    ensures KeysFor("car", Sensors) == ["intensity", "last_active", "fragrance", "fragrance_remaining", "runtime"]
  {
    TextGroupsExact("car");
    var g := Sensors;
    assert g[1..][1..][1..][1..][1..] == [];
  }

  /** A mini gets the car-and-mini sensors, the shared controller and timer,
      and the installed date of its only bay. */
  lemma MiniSensors()
    ensures KeysFor("mini", Sensors) == ["fragrance", "fragrance_remaining", "runtime", "controller", "timer", "bay_1_installed"]
  {
    TextGroupsExact("mini");
    var g := Sensors;
    assert g[1..][1..][1..][1..][1..] == [];
  }

  /** Walls and plus diffusers get the same eleven sensors. */
  lemma WallSensors()
    ensures |KeysFor("wall", Sensors)| == 11 && KeysFor("wall", Sensors) == KeysFor("plus", Sensors)
  {
    TextGroupsExact("wall");
    TextGroupsExact("plus");
    var g := Sensors;
    assert g[1..][1..][1..][1..][1..] == [];
  }
}
