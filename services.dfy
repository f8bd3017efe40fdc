/** The `start_timer` service: for every device the call targets, look the
    device up in its coordinator's table, choose a fragrance slot and issue a
    `set_timer` call; with no device, with a car, or with no usable slot the
    service raises a named error. */
module Services {
  import opened Text
  import opened PyJson
  import opened Helpers
  import opened Coordinator
  import opened Entity

  /** A device the service call refers to: its serial number and the
      coordinator (an index into the coordinators' tables) that owns it. */
  datatype Target = Target(serial: Json, coordinator: nat)

  /** The validated service data: an optional slot, the intensity and the
      duration, passed on to the vendor as they are. */
  datatype Request = Request(slot: Option<int>, intensity: Json, duration: Json)

  /** How the service finds a device: as the code does, with
      `get_device(None, serial)`, or across every category. */
  datatype Resolution = AsWritten | ByIdentifier

  /** What the service did: the `set_timer` calls it issued, in order, the
      coordinators it refreshed, and the error it raised, if any. */
  datatype Outcome = Outcome(calls: seq<Call>, refreshed: set<nat>, error: Option<Exc>)

  /** `d` is the first record of `records` whose id equals `serial`. */
  predicate FirstIn(records: seq<Json>, serial: Json, d: Json)
  {
    exists k :: 0 <= k < |records| && records[k] == d && Matches(d, serial) &&
      forall j :: 0 <= j < k ==> Differs(records[j], serial)
  }

  /** The category can be iterated and none of its records has the id. */
  predicate AbsentFrom(category: Json, serial: Json)
  {
    Iterate(category).Ok? && forall d :: d in Iterate(category).value ==> Differs(d, serial)
  }

  /** Every category of the table is a list of records with ids. */
  predicate AllSearchable(fs: seq<Field>)
  {
    forall i :: 0 <= i < |fs| ==> Searchable(fs[i].val)
  }

  /** Some category lists a record whose id equals `serial`. */
  predicate PresentIn(fs: seq<Field>, serial: Json)
  {
    exists i, k :: 0 <= i < |fs| && fs[i].val.Array? && 0 <= k < |fs[i].val.items| && Matches(fs[i].val.items[k], serial)
  }

  /** The first record, category by category in table order, whose id equals
      `serial`; None when no category holds it. */
  function FindIn(fs: seq<Field>, serial: Json): (r: Py<Json>)
    ensures r.Ok? && r.value != Null ==>
      Matches(r.value, serial) &&
      exists i :: 0 <= i < |fs| && Iterate(fs[i].val).Ok? && FirstIn(Iterate(fs[i].val).value, serial, r.value) &&
        forall h :: 0 <= h < i ==> AbsentFrom(fs[h].val, serial)
    ensures r == Ok(Null) ==> forall i :: 0 <= i < |fs| ==> AbsentFrom(fs[i].val, serial)
    ensures AllSearchable(fs) ==> r.Ok?
  {
    if fs == [] then Ok(Null)
    else
      var records :- Iterate(fs[0].val);
      var found :- FindFrom(records, Ok(serial), 0);
      if found.Some? then
        assert FirstIn(records, serial, records[found.value]);
        Ok(records[found.value])
      else
        assert AbsentFrom(fs[0].val, serial);
        var rest := FindIn(fs[1..], serial);
        assert forall i :: 1 <= i < |fs| ==> fs[i] == fs[1..][i - 1];
        rest
  }

  /** The lookup the service evidently means: the device with this serial in
      whichever category holds it. */
  function DeviceById(table: Json, serial: Json): (r: Py<Json>)
    ensures !table.Object? ==> r == Raise(AttributeError)
    ensures table.Object? ==> r == FindIn(table.fields, serial)
  {
    match table
    case Object(fs) => FindIn(fs, serial)
    case _ => Raise(AttributeError)
  }

  /** The device record the service works on: as written, the lookup in
      the category None, which raises KeyError(None) on any table of
      categories; corrected, the search for the serial. */
  function Resolve(how: Resolution, table: Json, serial: Json): (r: Py<Json>)
    ensures how.AsWritten? && table.Object? ==> r == Raise(KeyError(Null))
    ensures how.ByIdentifier? ==> r == DeviceById(table, serial)
  {
    match how
    case AsWritten => FindDevice(table, Null, serial)
    case ByIdentifier => DeviceById(table, serial)
  }

  /** `get_device(None, serial)` asks for the category None, which no table
      has: on a table of categories it always raises KeyError. */
  lemma AsWrittenLookupFails(table: Json, serial: Json)
    requires table.Object?
    ensures Resolve(AsWritten, table, serial) == Raise(KeyError(Null))
  {
  }

  /** A record the corrected lookup finds under some category is the device
      with that serial. */
  lemma ByIdentifierFinds(table: Json, serial: Json)
    ensures Resolve(ByIdentifier, table, serial).Ok? && Resolve(ByIdentifier, table, serial).value != Null ==>
      table.Object? && Matches(Resolve(ByIdentifier, table, serial).value, serial)
    ensures table.Object? && AllSearchable(table.fields) && PresentIn(table.fields, serial) ==>
      Resolve(ByIdentifier, table, serial).Ok? && Resolve(ByIdentifier, table, serial).value != Null
  {
    if table.Object? && AllSearchable(table.fields) && PresentIn(table.fields, serial) {
      var fs := table.fields;
      var i, k :| 0 <= i < |fs| && fs[i].val.Array? && 0 <= k < |fs[i].val.items| && Matches(fs[i].val.items[k], serial);
      assert fs[i].val.items[k] in Iterate(fs[i].val).value;
      assert !AbsentFrom(fs[i].val, serial);
    }
  }

  /** `fragrance_remaining(device, bay) or 0` as a number to compare. */
  function RemainingValue(rem: Remaining): (r: Py<real>)
    ensures rem.Computed? ==> r == Ok(rem.pct)
    ensures rem.NoEstimate? ==> r == Ok(0.0)
    ensures rem.Stored? && !Truthy(rem.percent) ==> r == Ok(0.0)
    ensures rem.Stored? && Number(rem.percent).Some? ==> r == Ok(Number(rem.percent).value as real)
  {
    match rem
    case Computed(pct) => Ok(pct)
    case NoEstimate => Ok(0.0)
    case Stored(p) =>
      if !Truthy(p) then Ok(0.0)
      else if Number(p).Some? then Ok(Number(p).value as real)
      else Raise(TypeError)
  }

  /** The slot chosen when the call names none and both bays hold a
      fragrance: the one with more fragrance left, and on a tie the one that
      has run for no longer, slot 1 winning a second tie. */
  function AutoSlot(device: Json, now: real): (r: Py<int>)
    ensures r.Ok? ==> r.value == 1 || r.value == 2
    ensures r.Ok? ==>
      FragranceRemaining(device, 1, now).Ok? && FragranceRemaining(device, 2, now).Ok? &&
      RemainingValue(FragranceRemaining(device, 1, now).value).Ok? &&
      RemainingValue(FragranceRemaining(device, 2, now).value).Ok?
    ensures (r.Ok? && FragranceRemaining(device, 1, now).Ok? && FragranceRemaining(device, 2, now).Ok? &&
             RemainingValue(FragranceRemaining(device, 1, now).value).Ok? &&
             RemainingValue(FragranceRemaining(device, 2, now).value).Ok?) ==>
      var v1 := RemainingValue(FragranceRemaining(device, 1, now).value).value;
      var v2 := RemainingValue(FragranceRemaining(device, 2, now).value).value;
      (v1 > v2 ==> r.value == 1) && (v2 > v1 ==> r.value == 2) &&
      (v1 == v2 ==>
        var t1 := FragranceRuntime(device, 1, now);
        var t2 := FragranceRuntime(device, 2, now);
        t1.Ok? && t2.Ok? && LessEq(t1.value, t2.value).Ok? &&
        (r.value == 1 <==> LessEq(t1.value, t2.value).value))
    ensures (FragranceRemaining(device, 1, now).Ok? && FragranceRemaining(device, 2, now).Ok? &&
             RemainingValue(FragranceRemaining(device, 1, now).value).Ok? &&
             RemainingValue(FragranceRemaining(device, 2, now).value).Ok?) ==>
      var v1 := RemainingValue(FragranceRemaining(device, 1, now).value).value;
      var v2 := RemainingValue(FragranceRemaining(device, 2, now).value).value;
      var t1 := FragranceRuntime(device, 1, now);
      var t2 := FragranceRuntime(device, 2, now);
      (v1 > v2 ==> r == Ok(1)) && (v2 > v1 ==> r == Ok(2)) &&
      (v1 == v2 && t1.Ok? && t2.Ok? && LessEq(t1.value, t2.value).Ok? ==>
        r == Ok(if LessEq(t1.value, t2.value).value then 1 else 2))
  {
    var rem1 :- FragranceRemaining(device, 1, now);
    var v1 :- RemainingValue(rem1);
    var rem2 :- FragranceRemaining(device, 2, now);
    var v2 :- RemainingValue(rem2);
    if v1 > v2 then Ok(1)
    else if v2 > v1 then Ok(2)
    else
      var t1 :- FragranceRuntime(device, 1, now);
      var t2 :- FragranceRuntime(device, 2, now);
      var first :- LessEq(t1, t2);
      Ok(if first then 1 else 2)
  }

  /** The bays of the helpers' fragrance test, in order. */
  function TimerBays(device: Json): (r: Py<seq<int>>)
    ensures r.Ok? ==> forall b :: b in r.value <==> (b == 1 || b == 2) && Helpers.HasFragrance(device, b) == Ok(true)
    ensures r.Ok? ==> |r.value| <= 2 && (|r.value| == 2 ==> r.value == [1, 2])
    ensures r.Raise? ==> r == Raise(AttributeError)
  {
    var one :- Helpers.HasFragrance(device, 1);
    var two :- Helpers.HasFragrance(device, 2);
    Ok((if one then [1] else []) + (if two then [2] else []))
  }

  /** The slot of the timer: the one the call names, which must hold a
      fragrance, or with none named (or 0) the only fragrance bay, or the
      automatic choice between two. */
  function ChooseSlot(device: Json, bays: seq<int>, req: Request, now: real): (r: Py<int>)
    requires bays != []
    ensures req.slot.Some? && req.slot.value != 0 ==>
      (r.Ok? <==> req.slot.value in bays) && (r.Ok? ==> r.value == req.slot.value) &&
      (r.Raise? ==> r == Raise(ServiceValidationError("fragrance_slot_empty", Object([Field("slot", Int(req.slot.value))]))))
    ensures (req.slot.None? || req.slot.value == 0) && |bays| == 1 ==> r == Ok(bays[0])
    ensures (req.slot.None? || req.slot.value == 0) && |bays| != 1 ==> r == AutoSlot(device, now)
  {
    if req.slot.None? || req.slot.value == 0 then
      if |bays| == 1 then Ok(bays[0]) else AutoSlot(device, now)
    else if req.slot.value !in bays then
      Raise(ServiceValidationError("fragrance_slot_empty", Object([Field("slot", Int(req.slot.value))])))
    else Ok(req.slot.value)
  }

  /** The body of the service's loop for one device record: the `set_timer`
      call for it, or the error raised. */
  function TimerCall(device: Json, req: Request, now: real): (r: Py<Call>)
    ensures !device.Object? ==> r == Raise(TypeError)
    ensures device.Object? && !HasKey(device.fields, "deviceType") ==> r == Raise(KeyError(Str("deviceType")))
    ensures r.Ok? ==>
      device.Object? && ValueAt(device, "deviceType") != Str("car") && r.value.name == "set_timer" &&
      |r.value.args| == 3 && r.value.args[1..] == [Field("intensity", req.intensity), Field("end", req.duration)]
  {
    var kind :- Index(device, "deviceType");
    EqualStr(kind, "car");
    if Equal(kind, Str("car")) then
      var display :- Index(device, "displayName");
      var name :- Index(display, "name");
      Raise(ServiceValidationError("invalid_device", Object([Field("name", name)])))
    else
      var bays :- TimerBays(device);
      if bays == [] then Raise(ServiceValidationError("no_fragrances_installed", Null))
      else
        var slot :- ChooseSlot(device, bays, req, now);
        var id :- GetDeviceId(device);
        Ok(Call("set_timer", id, [Field("bay", Int(slot)), Field("intensity", req.intensity), Field("end", req.duration)]))
  }

  /** What the loop body promises: a car or a device without fragrance is
      refused by name, an explicit slot must hold a fragrance, and a call sets
      a timer on the device's id, on a fragrance bay, with the intensity and
      duration as given. */
  lemma TimerCallSpec(device: Json, req: Request, now: real)
    ensures var r := TimerCall(device, req, now);
      r.Ok? ==> device.Object?
    ensures var r := TimerCall(device, req, now);
      (ValueAt(device, "deviceType") == Str("car") && device.Object? &&
       Index(ValueAt(device, "displayName"), "name").Ok?) ==>
      r == Raise(ServiceValidationError("invalid_device",
                   Object([Field("name", Index(ValueAt(device, "displayName"), "name").value)])))
    ensures var r := TimerCall(device, req, now);
      (device.Object? && HasKey(device.fields, "deviceType") && ValueAt(device, "deviceType") != Str("car") &&
       TimerBays(device) == Ok([])) ==>
      r == Raise(ServiceValidationError("no_fragrances_installed", Null))
    ensures var r := TimerCall(device, req, now);
      r.Ok? ==>
      ValueAt(device, "deviceType") != Str("car") && TimerBays(device).Ok? && GetDeviceId(device).Ok? &&
      r.value.name == "set_timer" && r.value.deviceId == GetDeviceId(device).value &&
      |r.value.args| == 3 && r.value.args[0].key == "bay" && r.value.args[0].val.Int? &&
      r.value.args[0].val.i in TimerBays(device).value &&
      r.value.args[1..] == [Field("intensity", req.intensity), Field("end", req.duration)]
    ensures var r := TimerCall(device, req, now);
      (r.Ok? && req.slot.Some? && req.slot.value != 0) ==>
      r.value.args[0] == Field("bay", Int(req.slot.value))
    ensures var r := TimerCall(device, req, now);
      (r.Ok? && (req.slot.None? || req.slot.value == 0) && |TimerBays(device).value| == 1) ==>
      r.value.args[0] == Field("bay", Int(TimerBays(device).value[0]))
    ensures var r := TimerCall(device, req, now);
      (r.Ok? && (req.slot.None? || req.slot.value == 0) && |TimerBays(device).value| == 2) ==>
      AutoSlot(device, now).Ok? && r.value.args[0] == Field("bay", Int(AutoSlot(device, now).value))
    ensures var r := TimerCall(device, req, now);
      (device.Object? && HasKey(device.fields, "deviceType") && ValueAt(device, "deviceType") != Str("car") &&
       TimerBays(device).Ok? && TimerBays(device).value != [] && req.slot.Some? &&
       req.slot.value != 0 && req.slot.value !in TimerBays(device).value) ==>
      r == Raise(ServiceValidationError("fragrance_slot_empty", Object([Field("slot", Int(req.slot.value))])))
    ensures var r := TimerCall(device, req, now);
      (device.Object? && HasKey(device.fields, "deviceType") && ValueAt(device, "deviceType") != Str("car") &&
       TimerBays(device).Ok? && TimerBays(device).value != [] &&
       ChooseSlot(device, TimerBays(device).value, req, now).Ok? && GetDeviceId(device).Ok?) ==>
      r == Ok(Call("set_timer", GetDeviceId(device).value,
                   [Field("bay", Int(ChooseSlot(device, TimerBays(device).value, req, now).value)),
                    Field("intensity", req.intensity), Field("end", req.duration)]))
  {
    if device.Object? && HasKey(device.fields, "deviceType") {
      var kind := ValueAt(device, "deviceType");
      assert Index(device, "deviceType") == Ok(kind);
      EqualStr(kind, "car");
      if kind != Str("car") && TimerBays(device).Ok? && TimerBays(device).value != [] {
        var bays := TimerBays(device).value;
        var slot := ChooseSlot(device, bays, req, now);
        assert TimerCall(device, req, now) ==
          if slot.Raise? then Raise(slot.exc)
          else if GetDeviceId(device).Raise? then Raise(GetDeviceId(device).exc)
          else Ok(Call("set_timer", GetDeviceId(device).value,
                       [Field("bay", Int(slot.value)), Field("intensity", req.intensity), Field("end", req.duration)]));
        if slot.Ok? && (req.slot.None? || req.slot.value == 0) {
          assert slot.value in bays;
        }
      }
    }
  }

  /** One pass of the loop: the device's record, then its call. As written
      it always raises KeyError(None); corrected, a call goes to the record
      with the targeted serial, under that record's id. */
  function Step(how: Resolution, table: Json, serial: Json, req: Request, now: real): (r: Py<Call>)
    ensures how.AsWritten? && table.Object? ==> r == Raise(KeyError(Null))
    ensures Resolve(how, table, serial).Raise? ==> r == Raise(Resolve(how, table, serial).exc)
    ensures how.ByIdentifier? && r.Ok? ==>
      var device := DeviceById(table, serial);
      device.Ok? && Matches(device.value, serial) && GetDeviceId(device.value).Ok? &&
      r.value.name == "set_timer" && r.value.deviceId == GetDeviceId(device.value).value
  {
    var device :- Resolve(how, table, serial);
    var call := TimerCall(device, req, now);
    if how.ByIdentifier? && call.Ok? then
      ByIdentifierFinds(table, serial);
      TimerCallSpec(device, req, now);
      call
    else call
  }

  predicate Owned(targets: seq<Target>, tables: seq<Json>)
  {
    forall i :: 0 <= i < |targets| ==> targets[i].coordinator < |tables|
  }

  /** The outcome of the loop body for each target, in order. */
  function Steps(how: Resolution, targets: seq<Target>, tables: seq<Json>, req: Request, now: real): (r: seq<Py<Call>>)
    requires Owned(targets, tables)
    ensures |r| == |targets|
    ensures forall i :: 0 <= i < |targets| ==>
      r[i] == Step(how, tables[targets[i].coordinator], targets[i].serial, req, now)
  {
    seq(|targets|, i requires 0 <= i < |targets| =>
      Step(how, tables[targets[i].coordinator], targets[i].serial, req, now))
  }

  /** The calls issued for the first `n` targets, given what the loop body
      does for each, and the error that stopped the loop, if one did. A call
      already handed to the executor is issued even when a later device
      raises. */
  function IssuedUpTo(steps: seq<Py<Call>>, n: nat): (r: (seq<Call>, Option<Exc>))
    requires n <= |steps|
    ensures |r.0| <= n
    ensures r.1.None? ==> |r.0| == n
  {
    if n == 0 then ([], None)
    else
      var prev := IssuedUpTo(steps, n - 1);
      if prev.1.Some? then prev
      else
        match steps[n - 1]
        case Raise(e) => (prev.0, Some(e))
        case Ok(call) => (prev.0 + [call], None)
  }

  /** One more target either adds its call or ends the loop with its error. */
  lemma IssuedNext(steps: seq<Py<Call>>, n: nat)
    requires n < |steps|
    requires IssuedUpTo(steps, n).1.None?
    ensures var (calls, _) := IssuedUpTo(steps, n);
      IssuedUpTo(steps, n + 1) ==
        if steps[n].Ok? then (calls + [steps[n].value], None) else (calls, Some(steps[n].exc))
  {
  }

  /** Once a device has raised, the loop is over: later targets add nothing. */
  lemma {:induction false} ErrorStops(steps: seq<Py<Call>>, n: nat, m: nat)
    requires n <= m <= |steps|
    requires IssuedUpTo(steps, n).1.Some?
    ensures IssuedUpTo(steps, m) == IssuedUpTo(steps, n)
    decreases m - n
  {
    if n < m {
      ErrorStaysOne(steps, n);
      ErrorStops(steps, n + 1, m);
    }
  }

  /** One more target after an error changes nothing. */
  lemma ErrorStaysOne(steps: seq<Py<Call>>, n: nat)
    requires n < |steps|
    requires IssuedUpTo(steps, n).1.Some?
    ensures IssuedUpTo(steps, n + 1) == IssuedUpTo(steps, n)
    ensures IssuedUpTo(steps, n + 1).1.Some?
  {
  }

  /** Without an error, the `i`-th call is the one for the `i`-th target. */
  lemma {:induction false} IssuedEach(steps: seq<Py<Call>>, n: nat, i: nat)
    requires i < n <= |steps|
    requires IssuedUpTo(steps, n).1.None?
    ensures steps[i] == Ok(IssuedUpTo(steps, n).0[i])
  {
    if i < n - 1 {
      IssuedEach(steps, n - 1, i);
    }
  }

  /** The coordinators the targets belong to. */
  function Coordinators(targets: seq<Target>): set<nat>
  {
    set t | t in targets :: t.coordinator
  }

  /** `start_timer(call)` over the devices the call refers to: every call is
      issued, then each coordinator is refreshed once; any error ends the
      service without a refresh. */
  function TimerOutcome(how: Resolution, targets: seq<Target>, tables: seq<Json>, req: Request, now: real): (o: Outcome)
    requires Owned(targets, tables)
    ensures targets == [] ==> o == Outcome([], {}, Some(ServiceValidationError("no_devices_found", Null)))
    ensures o.error.None? ==> |o.calls| == |targets| && o.refreshed == Coordinators(targets)
    ensures o.error.Some? ==> o.refreshed == {}
  {
    if targets == [] then Outcome([], {}, Some(ServiceValidationError("no_devices_found", Null)))
    else
      var (calls, error) := IssuedUpTo(Steps(how, targets, tables, req, now), |targets|);
      Outcome(calls, if error.None? then Coordinators(targets) else {}, error)
  }

  /** As written, the service fails on its first device, before any call. */
  lemma AsWrittenNeverIssues(targets: seq<Target>, tables: seq<Json>, req: Request, now: real)
    requires Owned(targets, tables) && targets != []
    requires tables[targets[0].coordinator].Object?
    ensures TimerOutcome(AsWritten, targets, tables, req, now) == Outcome([], {}, Some(KeyError(Null)))
  {
    AsWrittenLookupFails(tables[targets[0].coordinator], targets[0].serial);
    var steps := Steps(AsWritten, targets, tables, req, now);
    assert IssuedUpTo(steps, 1) == ([], Some(KeyError(Null)));
    ErrorStops(steps, 1, |targets|);
  }

  /** A wall diffuser with a fragrance in bay 1 and none in bay 2. */
  const ExampleWall: Json := Object([Field("deviceId", Str("A")), Field("deviceType", Str("wall")),
                                     Field("bay1", Object([Field("code", Str("F1"))])), Field("bay2", Null)])

  /** A timer on slot 1 at intensity 5 for an hour. */
  const ExampleRequest: Request := Request(Some(1), Int(5), Int(3600))

  lemma ExampleWallFields()
    ensures ExampleWall.Object?
    ensures Lookup(ExampleWall.fields, "deviceId") == Some(Str("A"))
    ensures Lookup(ExampleWall.fields, "deviceType") == Some(Str("wall"))
    ensures Lookup(ExampleWall.fields, "bay1") == Some(Object([Field("code", Str("F1"))]))
    ensures Lookup(ExampleWall.fields, "bay2") == Some(Null)
  {
    var fs := ExampleWall.fields;
    var bay1 := Object([Field("code", Str("F1"))]);
    var t3 := [Field("bay2", Null)];
    var t2 := [Field("bay1", bay1)] + t3;
    var t1 := [Field("deviceType", Str("wall"))] + t2;
    assert fs == [Field("deviceId", Str("A"))] + t1;
    assert fs[1..] == t1 && t1[1..] == t2 && t2[1..] == t3;
    assert Lookup(t3, "bay2") == Some(Null);
    assert Lookup(t2, "bay2") == Some(Null) && Lookup(t2, "bay1") == Some(bay1);
    assert Lookup(t1, "bay2") == Some(Null) && Lookup(t1, "bay1") == Some(bay1);
    assert Lookup(t1, "deviceType") == Some(Str("wall"));
  }

  lemma ExampleWallFound()
    ensures DeviceById(Object([Field("wall", Array([ExampleWall]))]), Str("A")) == Ok(ExampleWall)
  {
    ExampleWallMatches();
  }

  lemma ExampleWallMatches()
    ensures FindFrom([ExampleWall], Ok(Str("A")), 0) == Ok(Some(0))
  {
    ExampleWallFields();
    assert Index(ExampleWall, "deviceId") == Ok(Str("A"));
    EqualStr(Str("A"), "A");
  }

  lemma ExampleWallFragrance()
    ensures Helpers.HasFragrance(ExampleWall, 1) == Ok(true)
    ensures Helpers.HasFragrance(ExampleWall, 2) == Ok(false)
  {
    ExampleWallFields();
    BayKeysDistinct();
    var bay1 := Object([Field("code", Str("F1"))]);
    assert BayKey(1) == "bay1";
    assert Get(ExampleWall, "bay1", Null) == Ok(bay1);
    assert Get(ExampleWall, BayKey(1), Null) == Ok(bay1);
    assert Truthy(bay1);
    assert Get(bay1, "code", Null) == Ok(Str("F1"));
    assert Truthy(Str("F1"));
    assert Helpers.HasFragrance(ExampleWall, 1) == Ok(true);
    assert BayKey(2) == "bay2";
    assert Get(ExampleWall, "bay2", Null) == Ok(Null);
    assert Get(ExampleWall, BayKey(2), Null) == Ok(Null);
    assert !Truthy(Null);
  }

  lemma ExampleWallBays()
    ensures TimerBays(ExampleWall) == Ok([1])
  {
    ExampleWallFragrance();
    assert [1] + [] == [1];
  }

  lemma ExampleWallKind()
    ensures Index(ExampleWall, "deviceType") == Ok(Str("wall")) && !Equal(Str("wall"), Str("car"))
    ensures GetDeviceId(ExampleWall) == Ok(Str("A"))
  {
    ExampleWallFields();
    EqualStr(Str("wall"), "car");
  }

  lemma ExampleWallCall()
    ensures TimerCall(ExampleWall, ExampleRequest, 0.0) == Ok(ExampleCall)
  {
    ExampleWallBays();
    ExampleWallKind();
    assert ExampleRequest.slot == Some(1) && 1 in [1];
    assert ExampleRequest.intensity == Int(5) && ExampleRequest.duration == Int(3600);
  }

  /** The call the corrected service makes for the wall diffuser. */
  const ExampleCall: Call :=
    Call("set_timer", Str("A"), [Field("bay", Int(1)), Field("intensity", Int(5)), Field("end", Int(3600))])

  const ExampleTables: seq<Json> := [Object([Field("wall", Array([ExampleWall]))])]

  lemma ExampleStep()
    ensures Step(ByIdentifier, ExampleTables[0], Str("A"), ExampleRequest, 0.0) == Ok(ExampleCall)
  {
    ExampleWallFound();
    ExampleWallCall();
  }

  lemma ExampleIssued()
    ensures IssuedUpTo(Steps(ByIdentifier, [Target(Str("A"), 0)], ExampleTables, ExampleRequest, 0.0), 1) == ([ExampleCall], None)
  {
    ExampleStep();
    var steps := Steps(ByIdentifier, [Target(Str("A"), 0)], ExampleTables, ExampleRequest, 0.0);
    assert steps[0] == Ok(ExampleCall);
    assert IssuedUpTo(steps, 0) == ([], None);
    IssuedNext(steps, 0);
    assert [] + [ExampleCall] == [ExampleCall];
  }

  /** The wall diffuser above, asked for a timer on slot 1: as written the
      service raises KeyError(None); with the corrected lookup it sets the
      timer and refreshes the coordinator. */
  lemma LookupFindingExample()
    ensures TimerOutcome(AsWritten, [Target(Str("A"), 0)], ExampleTables, ExampleRequest, 0.0) ==
      Outcome([], {}, Some(KeyError(Null)))
    ensures TimerOutcome(ByIdentifier, [Target(Str("A"), 0)], ExampleTables, ExampleRequest, 0.0) ==
      Outcome([ExampleCall], {0}, None)
  {
    ExampleIssued();
    assert Coordinators([Target(Str("A"), 0)]) == {0};
    AsWrittenNeverIssues([Target(Str("A"), 0)], ExampleTables, ExampleRequest, 0.0);
  }


  /** With the corrected lookup, a successful service issues, for every
      target, a `set_timer` on a record with that serial, each on a slot that
      holds a fragrance. */
  lemma CorrectedIssuesEach(targets: seq<Target>, tables: seq<Json>, req: Request, now: real, i: nat)
    requires Owned(targets, tables) && i < |targets|
    requires TimerOutcome(ByIdentifier, targets, tables, req, now).error.None?
    ensures DeviceById(tables[targets[i].coordinator], targets[i].serial).Ok?
    ensures var call := TimerOutcome(ByIdentifier, targets, tables, req, now).calls[i];
      var device := DeviceById(tables[targets[i].coordinator], targets[i].serial).value;
      Matches(device, targets[i].serial) && call.name == "set_timer" &&
      call.deviceId == ValueAt(device, "deviceId") && |call.args| == 3 && call.args[0].val.Int? &&
      Helpers.HasFragrance(device, call.args[0].val.i) == Ok(true)
  {
    var n := |targets|;
    var steps := Steps(ByIdentifier, targets, tables, req, now);
    IssuedEach(steps, n, i);
    var t := targets[i];
    var found := DeviceById(tables[t.coordinator], t.serial);
    var call := IssuedUpTo(steps, n).0[i];
    assert found.Ok? && TimerCall(found.value, req, now) == Ok(call);
    TimerCallSpec(found.value, req, now);
    assert TimerOutcome(ByIdentifier, targets, tables, req, now).calls[i] == call;
  }

  /** `set(devices.values())`: each coordinator once, however many of its
      devices the call names. */
  method RefreshedCoordinators(targets: seq<Target>) returns (refreshed: set<nat>)
    ensures refreshed == Coordinators(targets)
  {
    refreshed := {};
    var j := 0;
    while j < |targets|
      invariant 0 <= j <= |targets|
      invariant refreshed == set k | 0 <= k < j :: targets[k].coordinator
    {
      refreshed := refreshed + {targets[j].coordinator};
      j := j + 1;
    }
    assert refreshed == Coordinators(targets) by {
      forall c | c in Coordinators(targets) ensures c in refreshed {
        var t :| t in targets && t.coordinator == c;
        var k :| 0 <= k < |targets| && targets[k] == t;
      }
    }
  }

  /** `start_timer` with the corrected lookup: a loop over the targets that
      stops at the first error, then one refresh per coordinator. */
  method StartTimer(targets: seq<Target>, tables: seq<Json>, req: Request, now: real) returns (o: Outcome)
    requires Owned(targets, tables)
    ensures o == TimerOutcome(ByIdentifier, targets, tables, req, now)
  {
    if targets == [] {
      return Outcome([], {}, Some(ServiceValidationError("no_devices_found", Null)));
    }
    ghost var steps := Steps(ByIdentifier, targets, tables, req, now);
    var calls: seq<Call> := [];
    var i := 0;
    while i < |targets|
      invariant 0 <= i <= |targets|
      invariant IssuedUpTo(steps, i) == (calls, None)
    {
      var t := targets[i];
      var call := Step(ByIdentifier, tables[t.coordinator], t.serial, req, now);
      IssuedNext(steps, i);
      if call.Raise? {
        ErrorStops(steps, i + 1, |targets|);
        return Outcome(calls, {}, Some(call.exc));
      }
      calls := calls + [call.value];
      i := i + 1;
    }
    var refreshed := RefreshedCoordinators(targets);
    return Outcome(calls, refreshed, None);
  }
}
