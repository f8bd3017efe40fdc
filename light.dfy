/** The nightlight of wall and mini diffusers: which settings it shows, the
    brightness scales of the device (1..10) and of the host (0..255), and the
    `set_nightlight` calls that turning it on or off makes. */
module Light {
  import opened Text
  import opened PyJson
  import opened Helpers
  import opened Entity

  /** Nightlights exist for walls and minis. */
  const LightGroups: seq<(Group, seq<string>)> := [(Names(["wall", "mini"]), ["nightlight"])]

  /** The nightlight of the schedule a numeric controller names, or None when
      the controller is not numeric or no schedule has its number. */
  function ScheduleNightlight(device: Json, controller: string): (r: Py<Json>)
    ensures !IsNumeric(controller) ==> r == Ok(Null)
    ensures r.Ok? && r.value != Null ==> (IsNumeric(controller) && Iterate(ValueAt(device, "schedules")).Ok? &&
      var items := Iterate(ValueAt(device, "schedules")).value;
      ScheduleMatch(items, controller, 0).Ok? && ScheduleMatch(items, controller, 0).value.Some? &&
      r.value == ValueAt(items[ScheduleMatch(items, controller, 0).value.value], "nightlight"))
    ensures (r.Ok? && IsNumeric(controller) && Iterate(ValueAt(device, "schedules")).Ok? &&
             ScheduleMatch(Iterate(ValueAt(device, "schedules")).value, controller, 0) == Ok(None)) ==>
      r.value == Null
    ensures var schedules := ValueAt(device, "schedules");
      (IsNumeric(controller) && schedules.Array? && AllNumbered(schedules.items, 0)) ==>
      var found := ScheduleMatch(schedules.items, controller, 0);
      found.Ok? && (found.value.None? ==> r == Ok(Null)) &&
      (found.value.Some? ==> r == Index(schedules.items[found.value.value], "nightlight"))
  {
    if !IsNumeric(controller) then Ok(Null)
    else
      var schedules :- Index(device, "schedules");
      var items :- Iterate(schedules);
      var found :- ScheduleMatch(items, controller, 0);
      if found.Some? then Index(items[found.value], "nightlight") else Ok(Null)
  }

  /** `_nightlight_data`: the matched schedule's nightlight when it is truthy,
      else the device default, always with `controller` set to the controller
      as text. */
  function NightlightData(device: Json): (r: Py<Json>)
    ensures device.Object? && !HasKey(device.fields, "controller") ==> r == Raise(KeyError(Str("controller")))
    ensures device.Object? && HasKey(device.fields, "controller") && !ValueAt(device, "controller").Str? ==>
      r == Raise(AttributeError)
    ensures r.Ok? ==> (ValueAt(device, "controller").Str? && r.value.Object? &&
      Lookup(r.value.fields, "controller") == Some(ValueAt(device, "controller")))
    ensures r.Ok? ==> (ScheduleNightlight(device, ValueAt(device, "controller").s).Ok? &&
      var chosen := ScheduleNightlight(device, ValueAt(device, "controller").s).value;
      var source := if Truthy(chosen) then chosen else ValueAt(ValueAt(device, "deviceDefaults"), "nightlight");
      source.Object? && forall k :: k != "controller" ==> Lookup(r.value.fields, k) == Lookup(source.fields, k))
    ensures var c := ValueAt(device, "controller");
      (c.Str? && ScheduleNightlight(device, c.s).Ok?) ==>
      var chosen := ScheduleNightlight(device, c.s).value;
      var source := if Truthy(chosen) then chosen else ValueAt(ValueAt(device, "deviceDefaults"), "nightlight");
      (r.Ok? <==> source.Object?)
  {
    var controller :- Index(device, "controller");
    // `.isnumeric()` exists on strings only
    if !controller.Str? then Raise(AttributeError)
    else
      var chosen :- ScheduleNightlight(device, controller.s);
      var data :- if Truthy(chosen) then Ok(chosen) else DefaultNightlight(device);
      With(data, "controller", Str(ToStr(controller)))
  }

  /** `device["deviceDefaults"]["nightlight"]`. */
  function DefaultNightlight(device: Json): (r: Py<Json>)
    ensures r.Ok? ==> r.value == ValueAt(ValueAt(device, "deviceDefaults"), "nightlight")
    ensures device.Object? && !HasKey(device.fields, "deviceDefaults") ==> r == Raise(KeyError(Str("deviceDefaults")))
    ensures var defaults := ValueAt(device, "deviceDefaults");
      r.Ok? <==> defaults.Object? && HasKey(defaults.fields, "nightlight")
  {
    var defaults :- Index(device, "deviceDefaults");
    Index(defaults, "nightlight")
  }

  /** A controller that is not numeric always shows the default nightlight. */
  lemma NightlightNonNumeric(device: Json)
    requires NightlightData(device).Ok? && !IsNumeric(ValueAt(device, "controller").s)
    ensures var source := ValueAt(ValueAt(device, "deviceDefaults"), "nightlight");
      source.Object? &&
      forall k :: k != "controller" ==> Lookup(NightlightData(device).value.fields, k) == Lookup(source.fields, k)
  {
  }

  /** Python's `round` of the quotient `n / d`: to the nearest integer, and
      to the even one of the two at a tie. */
  function RoundHalfEven(n: int, d: nat): (r: int)
    requires d > 0
    ensures 2 * n <= 2 * r * d + d && 2 * r * d <= 2 * n + d
    ensures 2 * n == 2 * r * d + d || 2 * n + d == 2 * r * d ==> r % 2 == 0
  {
    var q := n / d;
    var twice := 2 * (n - q * d);
    assert n == q * d + n % d && 0 <= n % d < d;
    assert 2 * (q + 1) * d == 2 * q * d + 2 * d;
    assert 2 * q * d == 2 * (q * d);
    if twice < d then q
    else if twice > d then q + 1
    else if q % 2 == 0 then q else q + 1
  }

  /** `round(b / 10 * 255)`: the host brightness of device level `b`. */
  function Brightness(b: int): (r: int)
    ensures 2 * 255 * b <= 20 * r + 10 && 20 * r <= 2 * 255 * b + 10
  {
    RoundHalfEven(255 * b, 10)
  }

  /** The odd levels fall on halves, which go to the even neighbour. */
  lemma BrightnessTies()
    ensures Brightness(1) == 26 && Brightness(3) == 76 && Brightness(5) == 128
    ensures Brightness(7) == 178 && Brightness(9) == 230
  {
  }

  /** Level 0 is dark, level 10 is full brightness, and every level in between
      lies on the host scale. */
  lemma BrightnessBounds(b: int)
    requires 0 <= b <= 10
    ensures Brightness(0) == 0 && Brightness(10) == 255
    ensures 0 <= Brightness(b) <= 255
  {
  }

  /** A higher device level is never shown dimmer. */
  lemma BrightnessMonotone(a: int, b: int)
    requires a <= b
    ensures Brightness(a) <= Brightness(b)
  {
  }

  /** `max(1, round(nb / 255 * 10))`: the device level of host brightness nb. */
  function DeviceBrightness(nb: nat): (r: int)
    ensures r >= 1
    ensures nb <= 255 ==> r <= 10
  {
    Max(1, RoundHalfEven(10 * nb, 255))
  }

  /** A higher host brightness never gives a lower device level. */
  lemma DeviceBrightnessMonotone(a: nat, b: nat)
    requires a <= b
    ensures DeviceBrightness(a) <= DeviceBrightness(b)
  {
  }

  /** Showing a device level and setting the shown brightness back gives the
      same level. */
  lemma BrightnessRoundTrip(b: nat)
    requires 1 <= b <= 10
    ensures DeviceBrightness(Brightness(b)) == b
  {
  }

  /** The `brightness` property: the host brightness of the shown level. */
  function ShownBrightness(data: Json): (r: Py<int>)
    ensures r.Ok? ==>
      Number(ValueAt(data, "brightness")).Some? && r.value == Brightness(Number(ValueAt(data, "brightness")).value)
    ensures data.Object? && Number(ValueAt(data, "brightness")).Some? ==> r.Ok?
  {
    var b :- Index(data, "brightness");
    match Number(b)
    case Some(n) => Ok(Brightness(n))
    case None => Raise(TypeError)
  }

  /** `is_on`: the nightlight's `active` value. */
  function IsOn(device: Json): (r: Py<Json>)
    ensures r.Ok? ==> NightlightData(device).Ok? && r.value == ValueAt(NightlightData(device).value, "active")
    ensures r.Ok? <==> NightlightData(device).Ok? && HasKey(NightlightData(device).value.fields, "active")
  {
    var data :- NightlightData(device);
    Index(data, "active")
  }

  /** The `set_nightlight` call with the given settings: the device id, then
      the four keyword arguments, each under its own name. */
  function NightlightCall(deviceId: Json, active: bool, brightness: Json, color: Json, controller: Json): (r: Call)
    ensures r.name == "set_nightlight" && r.deviceId == deviceId
    ensures UniqueKeys(r.args) && KeysOf(r.args) == [Str("active"), Str("brightness"), Str("color"), Str("controller")]
    ensures Lookup(r.args, "active") == Some(Bool(active)) && Lookup(r.args, "brightness") == Some(brightness) &&
            Lookup(r.args, "color") == Some(color) && Lookup(r.args, "controller") == Some(controller)
  {
    NightlightArgs(Bool(active), brightness, color, controller);
    Call("set_nightlight", deviceId,
         [Field("active", Bool(active)), Field("brightness", brightness), Field("color", color), Field("controller", controller)])
  }

  lemma NightlightArgs(active: Json, brightness: Json, color: Json, controller: Json)
    ensures var args := [Field("active", active), Field("brightness", brightness), Field("color", color), Field("controller", controller)];
      UniqueKeys(args) && KeysOf(args) == [Str("active"), Str("brightness"), Str("color"), Str("controller")] &&
      Lookup(args, "active") == Some(active) && Lookup(args, "brightness") == Some(brightness) &&
      Lookup(args, "color") == Some(color) && Lookup(args, "controller") == Some(controller)
  {
    var args := [Field("active", active), Field("brightness", brightness), Field("color", color), Field("controller", controller)];
    assert "active"[0] != "brightness"[0] && "active"[0] != "color"[0] && "active"[0] != "controller"[0];
    assert "brightness"[0] != "color"[0] && "brightness"[0] != "controller"[0] && "color"[2] != "controller"[2];
    assert UniqueKeys(args);
    LookupAt(args, 0);
    LookupAt(args, 1);
    LookupAt(args, 2);
    LookupAt(args, 3);
  }

  /** `async_turn_on`: a non-zero requested brightness replaces the shown
      level by its device level, a requested colour (already in hex) replaces
      the shown colour, and the light is switched on. */
  function TurnOn(device: Json, deviceId: Json, newBrightness: Option<nat>, newColor: Option<string>, reply: Json): (r: Py<Command>)
    ensures r.Ok? ==> NightlightData(device).Ok?
    ensures (r.Ok? && NightlightData(device).Ok?) ==>
      var data := NightlightData(device).value;
      r.value.refresh == Truthy(reply) &&
      r.value.call == NightlightCall(deviceId, true,
        if newBrightness.Some? && newBrightness.value != 0 then Int(DeviceBrightness(newBrightness.value))
        else ValueAt(data, "brightness"),
        if newColor.Some? then Str(newColor.value) else ValueAt(data, "color"),
        ValueAt(data, "controller"))
    ensures r.Ok? <==>
      (NightlightData(device).Ok? &&
       HasKey(NightlightData(device).value.fields, "brightness") && HasKey(NightlightData(device).value.fields, "color"))
  {
    var data :- NightlightData(device);
    var brightness :- Index(data, "brightness");
    var level := if newBrightness.Some? && newBrightness.value != 0 then Int(DeviceBrightness(newBrightness.value))
                 else brightness;
    var color :- Index(data, "color");
    var shade := if newColor.Some? then Str(newColor.value) else color;
    // `data` always carries `controller`, so reading it cannot raise
    var controller := ValueAt(data, "controller");
    Ok(Issue(NightlightCall(deviceId, true, level, shade, controller), reply))
  }

  /** `async_turn_off`: the shown settings, switched off. */
  function TurnOff(device: Json, deviceId: Json, reply: Json): (r: Py<Command>)
    ensures r.Ok? ==> NightlightData(device).Ok?
    ensures (r.Ok? && NightlightData(device).Ok?) ==>
      var data := NightlightData(device).value;
      r.value == Issue(NightlightCall(deviceId, false, ValueAt(data, "brightness"), ValueAt(data, "color"),
                                      ValueAt(data, "controller")), reply)
    ensures r.Ok? <==>
      (NightlightData(device).Ok? &&
       HasKey(NightlightData(device).value.fields, "brightness") && HasKey(NightlightData(device).value.fields, "color"))
  {
    var data :- NightlightData(device);
    var brightness :- Index(data, "brightness");
    var color :- Index(data, "color");
    // `data` always carries `controller`, so reading it cannot raise
    var controller := ValueAt(data, "controller");
    Ok(Issue(NightlightCall(deviceId, false, brightness, color, controller), reply))
  }

  /** Turning on without a new brightness or colour and turning off send the
      same settings, the `active` flag aside. */
  lemma OnOffDifferOnlyInActive(device: Json, deviceId: Json, reply: Json)
    requires TurnOff(device, deviceId, reply).Ok?
    ensures TurnOn(device, deviceId, None, None, reply).Ok?
    ensures TurnOn(device, deviceId, None, None, reply).value.call.args[1..] == TurnOff(device, deviceId, reply).value.call.args[1..]
    ensures TurnOn(device, deviceId, None, None, reply).value.call.args[0] == Field("active", Bool(true))
    ensures TurnOff(device, deviceId, reply).value.call.args[0] == Field("active", Bool(false))
  {
    var data := NightlightData(device).value;
    var b, c, ctl := ValueAt(data, "brightness"), ValueAt(data, "color"), ValueAt(data, "controller");
    var on := TurnOn(device, deviceId, None, None, reply);
    assert on.Ok?;
    assert on.value.call == NightlightCall(deviceId, true, b, c, ctl);
    assert TurnOff(device, deviceId, reply).value.call == NightlightCall(deviceId, false, b, c, ctl);
    SameSettings(deviceId, b, c, ctl);
  }

  lemma SameSettings(deviceId: Json, b: Json, c: Json, ctl: Json)
    ensures NightlightCall(deviceId, true, b, c, ctl).args[0] == Field("active", Bool(true))
    ensures NightlightCall(deviceId, false, b, c, ctl).args[0] == Field("active", Bool(false))
    ensures NightlightCall(deviceId, true, b, c, ctl).args[1..] == NightlightCall(deviceId, false, b, c, ctl).args[1..]
  {
  }

  /** The controller sent is always the device's controller, as text. */
  lemma TurnOnKeepsController(device: Json, deviceId: Json, newBrightness: Option<nat>, newColor: Option<string>, reply: Json)
    requires TurnOn(device, deviceId, newBrightness, newColor, reply).Ok?
    ensures TurnOn(device, deviceId, newBrightness, newColor, reply).value.call.args[3] ==
      Field("controller", ValueAt(device, "controller"))
  {
  }
}
