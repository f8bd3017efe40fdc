/** The configuration switches: ambient mode (walls only) and away mode
    (walls, pluses and minis), what they show and the vendor calls that
    toggling them makes. */
module Switch {
  import opened Text
  import opened PyJson
  import opened Entity

  datatype SwitchKind = AmbientMode | AwayMode

  /** The description key, which is also the keyword the vendor call takes. */
  function Key(kind: SwitchKind): string
  {
    match kind
    case AmbientMode => "ambient_mode"
    case AwayMode => "away_mode"
  }

  /** The device field the switch reads. */
  function LookupKey(kind: SwitchKind): string
  {
    match kind
    case AmbientMode => "ambientMode"
    case AwayMode => "awayMode"
  }

  /** The vendor client method the switch calls. */
  function Method(kind: SwitchKind): string
  {
    match kind
    case AmbientMode => "set_ambient_mode"
    case AwayMode => "set_away_mode"
  }

  /** The description table. The ambient group is written `("wall")`, which
      is the string "wall", so a category belongs to it when it is a
      substring of "wall". */
  const SwitchGroups: seq<(Group, seq<string>)> :=
    [(Text("wall"), ["ambient_mode"]), (Names(["wall", "plus", "mini"]), ["away_mode"])]

  lemma WallGroupExact(category: string)
    requires category in {"car", "wall", "plus", "mini"}
    ensures InGroup(category, Text("wall")) <==> category == "wall"
  {
    assert OccursAt("wall", "wall", 0);
    if category == "car" {
      assert forall i | 0 <= i <= 4 :: !OccursAt("car", "wall", i) by {
        assert "wall"[0..3][0] != "car"[0] && "wall"[1..4][0] != "car"[0];
      }
    }
  }

  /** A wall gets both switches, a plus or a mini only away mode, a car none. */
  lemma SwitchesPerCategory()
    ensures KeysFor("wall", SwitchGroups) == ["ambient_mode", "away_mode"]
    ensures KeysFor("plus", SwitchGroups) == ["away_mode"]
    ensures KeysFor("mini", SwitchGroups) == ["away_mode"]
    ensures KeysFor("car", SwitchGroups) == []
  {
    WallGroupExact("wall");
    WallGroupExact("plus");
    WallGroupExact("mini");
    WallGroupExact("car");
    var g := SwitchGroups;
    assert g[1..][1..] == [];
  }

  /** `_data`: the device's lookup field, None when it is missing. */
  function SwitchData(device: Json, kind: SwitchKind): (r: Py<Json>)
    ensures r.Ok? <==> device.Object?
    ensures r.Ok? ==> r.value == ValueAt(device, LookupKey(kind))
  {
    Get(device, LookupKey(kind), Null)
  }

  /** `is_on`: the `enabled` entry when the field is a dict, the field itself
      otherwise. */
  function IsOn(device: Json, kind: SwitchKind): (r: Py<Json>)
    ensures r.Ok? <==> (device.Object? &&
      (ValueAt(device, LookupKey(kind)).Object? ==> HasKey(ValueAt(device, LookupKey(kind)).fields, "enabled")))
    ensures r.Ok? && ValueAt(device, LookupKey(kind)).Object? ==>
      Lookup(ValueAt(device, LookupKey(kind)).fields, "enabled") == Some(r.value)
    ensures r.Ok? && !ValueAt(device, LookupKey(kind)).Object? ==> r.value == ValueAt(device, LookupKey(kind))
    ensures device.Object? && !HasKey(device.fields, LookupKey(kind)) ==> r == Ok(Null)
  {
    var data :- SwitchData(device, kind);
    if data.Object? then Index(data, "enabled") else Ok(data)
  }

  /** The location keys away mode passes on. */
  predicate LocationKey(k: string)
  {
    k == "radius" || k == "longitude" || k == "latitude"
  }

  /** The entries of a dict whose key is a location key, in order. */
  function LocationFields(fs: seq<Field>): (r: seq<Field>)
    ensures forall i :: 0 <= i < |r| ==> LocationKey(r[i].key)
    ensures forall f :: f in r ==> f in fs
  {
    if fs == [] then [] else (if LocationKey(fs[0].key) then [fs[0]] else []) + LocationFields(fs[1..])
  }

  /** The filter keeps each location key's value and drops every other key. */
  lemma {:induction false} LocationFieldsSpec(fs: seq<Field>)
    ensures forall k :: Lookup(LocationFields(fs), k) == if LocationKey(k) then Lookup(fs, k) else None
  {
    if fs != [] {
      var rest := LocationFields(fs[1..]);
      LocationFieldsSpec(fs[1..]);
      if LocationKey(fs[0].key) {
        var r := [fs[0]] + rest;
        assert LocationFields(fs) == r;
        assert r[1..] == rest;
      } else {
        assert LocationFields(fs) == rest;
      }
    }
  }

  /** Distinct keys stay distinct. */
  lemma {:induction false} LocationFieldsUnique(fs: seq<Field>)
    requires UniqueKeys(fs)
    ensures UniqueKeys(LocationFields(fs))
  {
    if fs != [] {
      var rest := LocationFields(fs[1..]);
      UniqueCons(fs[0], fs[1..]);
      assert [fs[0]] + fs[1..] == fs;
      LocationFieldsUnique(fs[1..]);
      if LocationKey(fs[0].key) {
        LocationFieldsSpec(fs[1..]);
        assert Lookup(rest, fs[0].key) == None;
        UniqueCons(fs[0], rest);
        assert LocationFields(fs) == [fs[0]] + rest;
      } else {
        assert LocationFields(fs) == rest;
      }
    }
  }

  /** The location comprehension over `deviceLocation.items()`. */
  function LocationFilter(location: Json): (r: Py<seq<Field>>)
    ensures r.Ok? <==> location.Object?
    ensures r.Ok? ==> r.value == LocationFields(location.fields)
  {
    if location.Object? then Ok(LocationFields(location.fields)) else Raise(AttributeError)
  }

  /** The keyword arguments of a toggle. Turning away mode on adds the
      device's location and fails when the device has none. */
  function TogglePayload(device: Json, kind: SwitchKind, value: bool): (r: Py<seq<Field>>)
    ensures kind == AmbientMode || !value ==> r == Ok([Field(Key(kind), Bool(value))])
    ensures kind == AwayMode && value ==>
      (r.Ok? <==> device.Object? && HasKey(device.fields, "deviceLocation") && ValueAt(device, "deviceLocation").Object?)
    ensures kind == AwayMode && value && device.Object? && !HasKey(device.fields, "deviceLocation") ==>
      r == Raise(KeyError(Str("deviceLocation")))
    ensures r.Ok? && kind == AwayMode && value ==>
      r.value == [Field("away_mode", Bool(true))] + LocationFields(ValueAt(device, "deviceLocation").fields)
  {
    match kind
    case AmbientMode => Ok([Field("ambient_mode", Bool(value))])
    case AwayMode =>
      if value then
        var location :- Index(device, "deviceLocation");
        var extra :- LocationFilter(location);
        // no location key is `away_mode`, so the dict union appends
        Ok([Field("away_mode", Bool(true))] + extra)
      else Ok([Field("away_mode", Bool(false))])
  }

  /** `async_toggle(**kwargs)`: the vendor call with the payload, and a
      refresh when its reply is truthy. `value` is the keyword the caller
      passes, None when it passes none; `toggle_fn` cannot be called without
      it. `async_turn_on` and `async_turn_off` pass True and False. */
  function Toggle(device: Json, deviceId: Json, kind: SwitchKind, value: Option<bool>, reply: Json): (r: Py<Command>)
    ensures value.None? ==> r == Raise(TypeError)
    ensures value.Some? ==> (r.Ok? <==> TogglePayload(device, kind, value.value).Ok?)
    ensures r.Ok? ==> value.Some? && r.value.call == Call(Method(kind), deviceId, TogglePayload(device, kind, value.value).value)
    ensures r.Ok? ==> r.value.refresh == Truthy(reply)
  {
    match value
    case None => Raise(TypeError)
    case Some(v) =>
      var payload :- TogglePayload(device, kind, v);
      Ok(Issue(Call(Method(kind), deviceId, payload), reply))
  }

  /** The toggle the host's service evidently expects, as its default
      `async_toggle` does: turn off a switch that is on and turn on one that
      is off. */
  function FlipToggle(device: Json, deviceId: Json, kind: SwitchKind, reply: Json): (r: Py<Command>)
    ensures IsOn(device, kind).Raise? ==> r == Raise(IsOn(device, kind).exc)
    ensures IsOn(device, kind).Ok? ==> r == Toggle(device, deviceId, kind, Some(!Truthy(IsOn(device, kind).value)), reply)
  {
    var on :- IsOn(device, kind);
    Toggle(device, deviceId, kind, Some(!Truthy(on)), reply)
  }

  /** The corrected toggle asks for the opposite of the current state, and
      turning a switch off always goes through. */
  lemma FlipToggleSpec(device: Json, deviceId: Json, kind: SwitchKind, reply: Json)
    requires IsOn(device, kind).Ok?
    ensures FlipToggle(device, deviceId, kind, reply).Ok? ==>
      FlipToggle(device, deviceId, kind, reply).value.call.args[0] == Field(Key(kind), Bool(!Truthy(IsOn(device, kind).value)))
    ensures Truthy(IsOn(device, kind).value) ==>
      FlipToggle(device, deviceId, kind, reply) == Ok(Issue(Call(Method(kind), deviceId, [Field(Key(kind), Bool(false))]), reply))
  {
    var v := !Truthy(IsOn(device, kind).value);
    if TogglePayload(device, kind, v).Ok? {
      assert TogglePayload(device, kind, v).value[0] == Field(Key(kind), Bool(v));
    }
  }

  /** Away mode that is on: the host's toggle, which passes no value, raises
      TypeError, where the corrected toggle turns it off. */
  lemma ToggleServiceExample(deviceId: Json, reply: Json)
    ensures var device := Object([Field("awayMode", Object([Field("enabled", Bool(true))]))]);
      && Toggle(device, deviceId, AwayMode, None, reply) == Raise(TypeError)
      && FlipToggle(device, deviceId, AwayMode, reply) == Ok(Issue(Call("set_away_mode", deviceId, [Field("away_mode", Bool(false))]), reply))
  {
    var state := Object([Field("enabled", Bool(true))]);
    var device := Object([Field("awayMode", state)]);
    LookupAt(device.fields, 0);
    LookupAt(state.fields, 0);
    assert HasKey(device.fields, "awayMode") && HasKey(state.fields, "enabled");
    assert ValueAt(device, "awayMode") == state;
    assert IsOn(device, AwayMode) == Ok(Bool(true));
  }

  /** Every toggle sends the switch's own keyword first, with the requested
      value, and turning away mode on sends only location keys besides,
      each with the device's value. */
  lemma ToggleSendsValue(device: Json, deviceId: Json, kind: SwitchKind, value: bool, reply: Json)
    requires WellFormed(device)
    requires Toggle(device, deviceId, kind, Some(value), reply).Ok?
    ensures var args := Toggle(device, deviceId, kind, Some(value), reply).value.call.args;
      |args| >= 1 && args[0] == Field(Key(kind), Bool(value)) &&
      forall i :: 1 <= i < |args| ==>
        (kind == AwayMode && value && LocationKey(args[i].key) &&
         Lookup(ValueAt(device, "deviceLocation").fields, args[i].key) == Some(args[i].val))
  {
    var args := Toggle(device, deviceId, kind, Some(value), reply).value.call.args;
    if kind == AwayMode && value {
      ValueAtWellFormed(device, "deviceLocation");
      var loc := ValueAt(device, "deviceLocation").fields;
      var extra := LocationFields(loc);
      assert args == [Field("away_mode", Bool(true))] + extra;
      forall i | 1 <= i < |args|
        ensures LocationKey(args[i].key) && Lookup(loc, args[i].key) == Some(args[i].val)
      {
        assert args[i] == extra[i - 1];
        assert args[i] in loc;
        var n :| 0 <= n < |loc| && loc[n] == args[i];
        LookupAt(loc, n);
      }
    }
  }

  /** Away mode is turned off without reading the location, so it never fails. */
  lemma AwayOffAlwaysSent(device: Json, deviceId: Json, reply: Json)
    ensures Toggle(device, deviceId, AwayMode, Some(false), reply) == Ok(Issue(Call("set_away_mode", deviceId, [Field("away_mode", Bool(false))]), reply))
  {
  }

  /** When the device's dicts have distinct keys, so do the keyword arguments. */
  lemma KeywordsDistinct(device: Json, deviceId: Json, kind: SwitchKind, value: bool, reply: Json)
    requires WellFormed(device)
    requires Toggle(device, deviceId, kind, Some(value), reply).Ok?
    ensures UniqueKeys(Toggle(device, deviceId, kind, Some(value), reply).value.call.args)
  {
    if kind == AwayMode && value {
      ValueAtWellFormed(device, "deviceLocation");
      var args := Toggle(device, deviceId, kind, Some(value), reply).value.call.args;
      var loc := ValueAt(device, "deviceLocation").fields;
      var extra := LocationFields(loc);
      assert args == [Field("away_mode", Bool(true))] + extra;
      LocationFieldsUnique(loc);
      LocationFieldsSpec(loc);
      assert !LocationKey("away_mode");
      assert Lookup(extra, "away_mode") == None;
      UniqueCons(Field("away_mode", Bool(true)), extra);
    }
  }
}
