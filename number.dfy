/** The intensity number of wall diffusers: the active bay's intensity, and
    the `set_intensity` call that setting it makes, refused in away mode and
    when no fragrance is active. */
module Intensity {
  import opened Text
  import opened PyJson
  import opened Entity

  /** Only walls get an intensity number. */
  const NumberGroups: seq<(Group, seq<string>)> := [(Names(["wall"]), ["intensity"])]

  /** The entity is made for wall devices and no others. */
  lemma NumberPerCategory()
    ensures KeysFor("wall", NumberGroups) == ["intensity"]
    ensures KeysFor("plus", NumberGroups) == []
    ensures KeysFor("mini", NumberGroups) == []
    ensures KeysFor("car", NumberGroups) == []
  {
  }

  const ErrorAwayMode: string :=
    "Away mode is currently active. Return to your space or disable away mode in order to control your diffuser."

  const ErrorNoActiveFragrance: string :=
    "No fragrance is currently active. Please select a fragrance before adjusting intensity."

  /** `_intensity_data`: the active bay, the controller as text and the
      active bay's intensity. */
  datatype ActiveIntensity = ActiveIntensity(bay: Json, controller: string, intensity: Json)

  function ActiveIntensityData(device: Json): (r: Py<ActiveIntensity>)
    ensures r.Ok? <==> (device.Object? && HasKey(device.fields, "deviceActiveState") && HasKey(device.fields, "controller") &&
      var state := ValueAt(device, "deviceActiveState");
      state.Object? && HasKey(state.fields, "activeBay") && HasKey(state.fields, "activeBayIntensity"))
    ensures r.Ok? ==> r.value == ActiveIntensity(ValueAt(ValueAt(device, "deviceActiveState"), "activeBay"),
      ToStr(ValueAt(device, "controller")), ValueAt(ValueAt(device, "deviceActiveState"), "activeBayIntensity"))
    ensures device.Object? && !HasKey(device.fields, "deviceActiveState") ==> r == Raise(KeyError(Str("deviceActiveState")))
  {
    var state :- Index(device, "deviceActiveState");
    var bay :- Index(state, "activeBay");
    var controller :- Index(device, "controller");
    var intensity :- Index(state, "activeBayIntensity");
    Ok(ActiveIntensity(bay, ToStr(controller), intensity))
  }

  /** `native_value`: the active bay's intensity. */
  function NativeValue(device: Json): (r: Py<Json>)
    ensures r.Ok? <==> ActiveIntensityData(device).Ok?
    ensures r.Ok? ==> r.value == ValueAt(ValueAt(device, "deviceActiveState"), "activeBayIntensity")
  {
    var data :- ActiveIntensityData(device);
    Ok(data.intensity)
  }

  /** `async_set_native_value`: refused in away mode, then refused when no
      bay is active; otherwise `set_intensity` with the active bay, the
      controller and the new value, and a refresh when the reply is truthy. */
  function SetNativeValue(device: Json, deviceId: Json, value: int, reply: Json): (r: Py<Command>)
    ensures r.Ok? ==> ActiveIntensityData(device).Ok?
    ensures ActiveIntensityData(device).Ok? ==>
      var data := ActiveIntensityData(device).value;
      && (data.controller == "away" ==> r == Raise(PuraApiException(ErrorAwayMode)))
      && (data.controller != "away" && !Truthy(data.bay) ==> r == Raise(PuraApiException(ErrorNoActiveFragrance)))
      && (r.Ok? <==> data.controller != "away" && Truthy(data.bay))
      && (r.Ok? ==>
            r.value.refresh == Truthy(reply) &&
            r.value.call == Call("set_intensity", deviceId,
              [Field("bay", data.bay), Field("controller", Str(data.controller)), Field("intensity", Int(value))]))
  {
    var data :- ActiveIntensityData(device);
    if data.controller == "away" then Raise(PuraApiException(ErrorAwayMode))
    else if !Truthy(data.bay) then Raise(PuraApiException(ErrorNoActiveFragrance))
    else
      Ok(Issue(Call("set_intensity", deviceId,
                    [Field("bay", data.bay), Field("controller", Str(data.controller)), Field("intensity", Int(value))]),
               reply))
  }

  /** Away mode is checked first: an away device refuses a new intensity
      whatever its active bay. */
  lemma AwayRefusesIntensity(device: Json, deviceId: Json, value: int, reply: Json)
    requires ActiveIntensityData(device).Ok? && ValueAt(device, "controller") == Str("away")
    ensures SetNativeValue(device, deviceId, value, reply) == Raise(PuraApiException(ErrorAwayMode))
  {
  }

  /** A successful set sends the active bay, never bay 0, and the value
      asked for: the number's 1..10 range is the host's to enforce. */
  lemma SetSendsActiveBay(device: Json, deviceId: Json, value: int, reply: Json)
    requires SetNativeValue(device, deviceId, value, reply).Ok?
    ensures var args := SetNativeValue(device, deviceId, value, reply).value.call.args;
      Lookup(args, "bay") == Some(ValueAt(ValueAt(device, "deviceActiveState"), "activeBay")) &&
      Truthy(args[0].val) && args[0].val != Int(0) &&
      Lookup(args, "intensity") == Some(Int(value))
  {
    var args := SetNativeValue(device, deviceId, value, reply).value.call.args;
    assert args[1..][1..] == [Field("intensity", Int(value))];
    assert Lookup(args[1..][1..], "intensity") == Some(Int(value));
    assert Lookup(args[1..], "intensity") == Some(Int(value));
  }
}
