/** The fragrance and intensity selects of a wall, plus or mini diffuser:
    what they show, which options they offer, and which vendor call, or which
    named error, choosing an option or starting a timer produces. */
module Select {
  import opened Text
  import opened PyJson
  import opened Helpers
  import opened Entity

  /** The two selects a diffuser has. */
  datatype SelectKind = FragranceSelect | IntensitySelect

  /** The description table: both selects for wall, plus and mini devices. */
  const Descriptions: seq<(Group, seq<string>)> := [(Names(["wall", "plus", "mini"]), ["fragrance", "intensity"])]

  /** `INTENSITY_MAP[option]`: subtle, medium and strong are levels 3, 6 and 10. */
  function IntensityLevel(option: string): (r: Py<int>)
    ensures option == "subtle" ==> r == Ok(3)
    ensures option == "medium" ==> r == Ok(6)
    ensures option == "strong" ==> r == Ok(10)
    ensures option !in {"subtle", "medium", "strong"} ==> r == Raise(KeyError(Str(option)))
    ensures r.Ok? ==> 1 <= r.value <= 10
  {
    if option == "subtle" then Ok(3)
    else if option == "medium" then Ok(6)
    else if option == "strong" then Ok(10)
    else Raise(KeyError(Str(option)))
  }

  /** A stronger option never maps to a lower level. */
  lemma IntensityLevelsIncrease()
    ensures IntensityLevel("subtle").value < IntensityLevel("medium").value < IntensityLevel("strong").value
  {
  }

  /** The fragrance select's `current_fn` over the intensity data: "off" for
      bay 0, else "slot_{bay}". */
  function FragranceCurrent(data: Json): (r: Py<string>)
    ensures r.Ok? <==> data.Object? && HasKey(data.fields, "bay")
    ensures r.Ok? ==> (r.value == "off" <==> Equal(ValueAt(data, "bay"), Int(0)))
    ensures r.Ok? && !Equal(ValueAt(data, "bay"), Int(0)) ==> r.value == "slot_" + ToStr(ValueAt(data, "bay"))
  {
    var bay :- Index(data, "bay");
    if Equal(bay, Int(0)) then Ok("off")
    else
      var shown := "slot_" + ToStr(bay);
      assert shown[..5] == "slot_";
      Ok(shown)
  }

  /** The fragrance select's `options_fn`: "off", then "slot_1" and "slot_2" in
      that order, each only when the entity's fragrance test accepts the bay. */
  function FragranceOptions(device: Json): (r: Py<seq<string>>)
    ensures r.Ok? <==> device.Object? && HasKey(device.fields, "bay1") && HasKey(device.fields, "bay2")
    ensures r.Ok? ==> |r.value| >= 1 && r.value[0] == "off"
    ensures r.Ok? ==> ("slot_1" in r.value <==> Truthy(ValueAt(device, "bay1")))
    ensures r.Ok? ==> ("slot_2" in r.value <==> Truthy(ValueAt(device, "bay2")))
    ensures r.Ok? ==> |r.value| == 1 + (if Truthy(ValueAt(device, "bay1")) then 1 else 0) +
                                      (if Truthy(ValueAt(device, "bay2")) then 1 else 0)
    ensures r.Ok? && |r.value| == 3 ==> r.value == ["off", "slot_1", "slot_2"]
  {
    var one :- Entity.HasFragrance(device, 1);
    var two :- Entity.HasFragrance(device, 2);
    assert BayKey(1) == "bay1" && BayKey(2) == "bay2";
    Ok(["off"] + (if one then ["slot_1"] else []) + (if two then ["slot_2"] else []))
  }

  /** The intensity select's `current_fn`: `data["intensity"] or "off"`. */
  function IntensityCurrent(data: Json): (r: Py<Json>)
    ensures r.Ok? <==> data.Object? && HasKey(data.fields, "intensity")
    ensures r.Ok? && Truthy(ValueAt(data, "intensity")) ==> r.value == ValueAt(data, "intensity")
    ensures r.Ok? && !Truthy(ValueAt(data, "intensity")) ==> r.value == Str("off")
  {
    var intensity :- Index(data, "intensity");
    Ok(if Truthy(intensity) then intensity else Str("off"))
  }

  /** `int(option.replace("slot_", ""))`: the bay an option names. */
  function SlotBay(option: string): (r: Py<int>)
    ensures r.Ok? ==> r.value >= 0
    ensures r.Raise? ==> r == Raise(ValueError)
  {
    match ParseInt(RemoveAll(option, "slot_"))
    case Some(n) => Ok(n)
    case None => Raise(ValueError)
  }

  /** Reading back a shown slot gives its bay. */
  lemma SlotBayOfShown(n: nat)
    ensures SlotBay("slot_" + NatToStr(n)) == Ok(n)
  {
    RemoveAllPrefixDigits("slot_", NatToStr(n));
    ParseIntOfNatToStr(n);
  }

  /** The options the fragrance select shows are read back as the bays they
      name: showing then choosing an option is a round trip. */
  lemma FragranceRoundTrip(data: Json, bay: nat)
    requires data.Object? && Lookup(data.fields, "bay") == Some(Int(bay)) && bay != 0
    ensures FragranceCurrent(data).Ok? && SlotBay(FragranceCurrent(data).value) == Ok(bay)
  {
    SlotBayOfShown(bay);
  }

  /** A keyword argument of a vendor call. */
  function Arg(call: Call, k: string): Json
  {
    ValueAt(Object(call.args), k)
  }

  /** The intensity select's `select_fn` over the intensity data: the level
      is set on the current bay and controller, a schedule being named by its
      number. */
  function IntensityCall(data: Json, option: string, deviceId: Json): (r: Py<Call>)
    ensures r.Ok? ==>
      var controller := ValueAt(data, "controller");
      IntensityLevel(option).Ok? && r.value.name == "set_intensity" &&
      r.value.deviceId == deviceId && Arg(r.value, "bay") == ValueAt(data, "bay") &&
      Arg(r.value, "controller") ==
        (if controller == Str("schedule") then Str(ToStr(ValueAt(data, "number"))) else controller) &&
      Arg(r.value, "intensity") == Int(IntensityLevel(option).value)
    ensures (data.Object? && HasKey(data.fields, "bay") && HasKey(data.fields, "controller") &&
             ValueAt(data, "controller") != Str("schedule")) ==>
      (r.Ok? <==> IntensityLevel(option).Ok?)
    ensures (data.Object? && HasKey(data.fields, "bay") && HasKey(data.fields, "controller") &&
             ValueAt(data, "controller") == Str("schedule")) ==>
      (r.Ok? <==> HasKey(data.fields, "number") && IntensityLevel(option).Ok?)
    ensures !(data.Object? && HasKey(data.fields, "bay") && HasKey(data.fields, "controller")) ==> r.Raise?
  {
    var bay :- Index(data, "bay");
    var controller :- Index(data, "controller");
    var named :- if controller == Str("schedule") then
        var number :- Index(data, "number");
        Ok(Str(ToStr(number)))
      else Ok(controller);
    var level :- IntensityLevel(option);
    var args := [Field("bay", bay), Field("controller", named), Field("intensity", Int(level))];
    assert args[0] == Field("bay", bay);
    assert Lookup(args, "bay") == Some(bay);
    assert args[1..][0] == Field("controller", named);
    assert Lookup(args[1..], "controller") == Some(named);
    assert Lookup(args, "controller") == Some(named);
    assert args[1..][1..] == [Field("intensity", Int(level))];
    assert Lookup(args[1..][1..], "intensity") == Some(Int(level));
    assert Lookup(args[1..], "intensity") == Some(Int(level));
    assert Lookup(args, "intensity") == Some(Int(level));
    Ok(Call("set_intensity", deviceId, args))
  }

  /** The `select_fn` of each select: the vendor call for an option. The
      fragrance select turns the named bay always on; the intensity select
      reads the intensity data first. */
  function SelectCall(kind: SelectKind, option: string, device: Json, deviceId: Json): (r: Py<Call>)
    ensures kind == FragranceSelect && r.Ok? ==>
      SlotBay(option).Ok? && r.value == Call("set_always_on", deviceId, [Field("bay", Int(SlotBay(option).value))])
    ensures kind == FragranceSelect && r.Raise? ==> r == Raise(ValueError)
    ensures kind == IntensitySelect && r.Ok? ==>
      IntensityData(device).Ok? && r == IntensityCall(IntensityData(device).value, option, deviceId)
    ensures kind == FragranceSelect ==> (r.Ok? <==> SlotBay(option).Ok?)
    ensures kind == IntensitySelect ==>
      (r.Ok? <==> IntensityData(device).Ok? && IntensityCall(IntensityData(device).value, option, deviceId).Ok?)
  {
    match kind
    case FragranceSelect =>
      var bay :- SlotBay(option);
      Ok(Call("set_always_on", deviceId, [Field("bay", Int(bay))]))
    case IntensitySelect =>
      var data :- IntensityData(device);
      IntensityCall(data, option, deviceId)
  }

  /** `async_select_option(option)`, given the device record and the vendor's
      reply: "off" stops everything, whatever the mode; any other option is
      refused in away mode and when the call names no bay. */
  function SelectOption(kind: SelectKind, option: string, device: Json, deviceId: Json, reply: Json): (r: Py<Command>)
    ensures option == "off" ==> r == Ok(Issue(Call("stop_all", deviceId, []), reply))
    ensures option != "off" && device.Object? && ValueAt(device, "controller") == Str("away") ==>
      r == Raise(ServiceValidationError("away_mode_active", Null))
    ensures option != "off" && r.Ok? ==>
      ValueAt(device, "controller") != Str("away") && SelectCall(kind, option, device, deviceId).Ok? &&
      r.value.call == SelectCall(kind, option, device, deviceId).value && Truthy(Arg(r.value.call, "bay"))
    ensures (option != "off" && SelectCall(kind, option, device, deviceId).Ok? && ValueAt(device, "controller") != Str("away") &&
             device.Object? && HasKey(device.fields, "controller") &&
             !Truthy(Arg(SelectCall(kind, option, device, deviceId).value, "bay"))) ==>
      r == Raise(ServiceValidationError("no_active_fragrance", Null))
    ensures (option != "off" && SelectCall(kind, option, device, deviceId).Ok? && ValueAt(device, "controller") != Str("away") &&
             device.Object? && HasKey(device.fields, "controller") &&
             Truthy(Arg(SelectCall(kind, option, device, deviceId).value, "bay"))) ==>
      r == Ok(Issue(SelectCall(kind, option, device, deviceId).value, reply))
    ensures option != "off" && !(device.Object? && HasKey(device.fields, "controller")) ==> r.Raise?
    ensures r.Ok? ==> r.value.refresh == Truthy(reply)
  {
    if option == "off" then Ok(Issue(Call("stop_all", deviceId, []), reply))
    else
      var controller :- Index(device, "controller");
      if controller == Str("away") then Raise(ServiceValidationError("away_mode_active", Null))
      else
        var call :- SelectCall(kind, option, device, deviceId);
        if !Truthy(Arg(call, "bay")) then Raise(ServiceValidationError("no_active_fragrance", Null))
        else Ok(Issue(call, reply))
  }

  /** Choosing "slot_0" on the fragrance select names no bay and is refused. */
  lemma NoSlotZero(device: Json, deviceId: Json, reply: Json)
    requires device.Object? && HasKey(device.fields, "controller") && ValueAt(device, "controller") != Str("away")
    ensures SelectOption(FragranceSelect, "slot_0", device, deviceId, reply) ==
      Raise(ServiceValidationError("no_active_fragrance", Null))
  {
    SlotBayOfShown(0);
    assert "slot_" + NatToStr(0) == "slot_0";
  }

  /** The bays `[i for i in (1, 2) if has_fragrance(device, i)]`. */
  function FragranceBays(device: Json): (r: Py<seq<int>>)
    ensures r.Ok? <==> device.Object? && HasKey(device.fields, "bay1") && HasKey(device.fields, "bay2")
    ensures r.Ok? ==> forall b :: b in r.value <==> b in {1, 2} && Truthy(ValueAt(device, BayKey(b)))
    ensures r.Ok? ==> |r.value| <= 2 && (|r.value| == 2 ==> r.value == [1, 2])
    ensures !device.Object? ==> r == Raise(TypeError)
    ensures device.Object? && !HasKey(device.fields, "bay1") ==> r == Raise(KeyError(Str("bay1")))
    ensures device.Object? && HasKey(device.fields, "bay1") && !HasKey(device.fields, "bay2") ==> r == Raise(KeyError(Str("bay2")))
  {
    BayKeysDistinct();
    var one :- Entity.HasFragrance(device, 1);
    var two :- Entity.HasFragrance(device, 2);
    Ok((if one then [1] else []) + (if two then [2] else []))
  }

  /** The slot `async_start_timer` runs: an explicit slot when it holds a
      fragrance, else the only fragrance bay, else the bay with the smaller or
      equal `wearingTime`, slot 1 winning ties. */
  function TimerSlot(device: Json, slot: Option<int>): (r: Py<int>)
    ensures FragranceBays(device).Raise? ==> r == Raise(FragranceBays(device).exc)
    ensures FragranceBays(device) == Ok([]) ==> r == Raise(ServiceValidationError("no_fragrances_installed", Null))
    ensures r.Ok? ==> r.value in {1, 2} && Truthy(ValueAt(device, BayKey(r.value)))
    ensures slot.Some? && slot.value != 0 && FragranceBays(device).Ok? && FragranceBays(device).value != [] ==>
      (slot.value in FragranceBays(device).value ==> r == Ok(slot.value)) &&
      (slot.value !in FragranceBays(device).value ==> r == Raise(ServiceValidationError("fragrance_slot_empty", Object([Field("slot", Int(slot.value))]))))
    ensures (slot.None? || slot.value == 0) && FragranceBays(device).Ok? && |FragranceBays(device).value| == 1 ==>
      r == Ok(FragranceBays(device).value[0])
    ensures ((slot.None? || slot.value == 0) && FragranceBays(device).Ok? && |FragranceBays(device).value| == 2 &&
             r.Ok?) ==>
      var w1 := ValueAt(ValueAt(device, "bay1"), "wearingTime");
      var w2 := ValueAt(ValueAt(device, "bay2"), "wearingTime");
      LessEq(w1, w2).Ok? && (r.value == 1 <==> LessEq(w1, w2).value)
    ensures ((slot.None? || slot.value == 0) && FragranceBays(device).Ok? && |FragranceBays(device).value| == 2) ==>
      var b1 := ValueAt(device, "bay1");
      var b2 := ValueAt(device, "bay2");
      (r.Ok? <==> b1.Object? && HasKey(b1.fields, "wearingTime") && b2.Object? && HasKey(b2.fields, "wearingTime") &&
                  LessEq(ValueAt(b1, "wearingTime"), ValueAt(b2, "wearingTime")).Ok?)
  {
    var bays :- FragranceBays(device);
    if bays == [] then Raise(ServiceValidationError("no_fragrances_installed", Null))
    else if slot.None? || slot.value == 0 then
      if |bays| == 1 then Ok(bays[0])
      else
        var w1 :- Index(ValueAt(device, "bay1"), "wearingTime");
        var w2 :- Index(ValueAt(device, "bay2"), "wearingTime");
        var first :- LessEq(w1, w2);
        Ok(if first then 1 else 2)
    else if slot.value !in bays then Raise(ServiceValidationError("fragrance_slot_empty", Object([Field("slot", Int(slot.value))])))
    else Ok(slot.value)
  }

  /** `async_start_timer(slot, intensity, duration)`: `set_timer` on the chosen
      slot with the intensity and duration as given. */
  function StartTimer(device: Json, deviceId: Json, slot: Option<int>, intensity: int, duration: Json, reply: Json): (r: Py<Command>)
    ensures r.Ok? <==> TimerSlot(device, slot).Ok?
    ensures r.Ok? ==>
      r.value.call ==
      Call("set_timer", deviceId, [Field("bay", Int(TimerSlot(device, slot).value)), Field("intensity", Int(intensity)), Field("end", duration)])
    ensures r.Ok? ==> r.value.refresh == Truthy(reply)
    ensures r.Raise? ==> r == Raise(TimerSlot(device, slot).exc)
  {
    var bay :- TimerSlot(device, slot);
    Ok(Issue(Call("set_timer", deviceId, [Field("bay", Int(bay)), Field("intensity", Int(intensity)), Field("end", duration)]), reply))
  }
}
