/** The device coordinator: the table of device records by category, the poll
    that replaces it, the pushed messages that patch one wall device in place,
    and the lookup of a device by category and id. */
module Coordinator {
  import opened Text
  import opened PyJson
  import opened Helpers

  /** Seconds between two polls of the vendor API; the interval is fixed. */
  const UpdateInterval: nat := 30

  /** The record carries a `deviceId` equal to `target`. */
  predicate Matches(d: Json, target: Json)
  {
    d.Object? && HasKey(d.fields, "deviceId") && Equal(ValueAt(d, "deviceId"), target)
  }

  /** The record carries a `deviceId`, and it differs from `target`. */
  predicate Differs(d: Json, target: Json)
  {
    d.Object? && HasKey(d.fields, "deviceId") && !Equal(ValueAt(d, "deviceId"), target)
  }

  /** Every record from `from` on is a dict carrying a `deviceId`. */
  predicate Identified(records: seq<Json>, from: nat)
  {
    forall j :: from <= j < |records| ==> records[j].Object? && HasKey(records[j].fields, "deviceId")
  }

  /** A category that can be searched without raising: a list of records
      that all carry a `deviceId`. */
  predicate Searchable(category: Json)
  {
    category.Array? && Identified(category.items, 0)
  }

  /** `next((d for d in records[from:] if d["deviceId"] == target), None)`,
      as an index: the first record whose id equals the target. The target is
      evaluated after each record's id, so with no records left it is never
      evaluated and nothing raises. */
  function FindFrom(records: seq<Json>, target: Py<Json>, from: nat): (r: Py<Option<nat>>)
    requires from <= |records|
    ensures r.Ok? && r.value.Some? ==>
      target.Ok? && from <= r.value.value < |records| && Matches(records[r.value.value], target.value) &&
      forall j :: from <= j < r.value.value ==> Differs(records[j], target.value)
    ensures r == Ok(None) ==> forall j :: from <= j < |records| ==> target.Ok? && Differs(records[j], target.value)
    ensures r.Raise? ==> from < |records|
    ensures target.Ok? && Identified(records, from) ==> r.Ok?
    decreases |records| - from
  {
    if from == |records| then Ok(None)
    else
      var id :- Index(records[from], "deviceId");
      var t :- target;
      if Equal(id, t) then Ok(Some(from)) else FindFrom(records, target, from + 1)
  }

  /** The table with the wall record at position `i` replaced by `rec`: the
      push handler's in-place update of that one record. */
  function SetRecord(devices: Json, i: nat, rec: Json): (r: Json)
    requires devices.Object? && ValueAt(devices, "wall").Array? && i < |ValueAt(devices, "wall").items|
    ensures r.Object? && Lookup(r.fields, "wall") == Some(Array(ValueAt(devices, "wall").items[i := rec]))
    ensures forall k :: k != "wall" ==> Lookup(r.fields, k) == Lookup(devices.fields, k)
  {
    Object(Put(devices.fields, "wall", Array(ValueAt(devices, "wall").items[i := rec])))
  }

  /** The message names wall device number `i`: the first record of
      `devices["wall"]` whose `deviceId` equals the message's. */
  predicate Targets(devices: Json, data: Json, i: nat)
  {
    data.Object? && devices.Object? && ValueAt(devices, "wall").Array? &&
    HasKey(devices.fields, "wall") && i < |ValueAt(devices, "wall").items| &&
    FindFrom(ValueAt(devices, "wall").items, Index(data, "deviceId"), 0) == Ok(Some(i))
  }

  /** The search of the push handler: `data.get` needs a dict, then the first
      record of `devices["wall"]` with the message's `deviceId`, if any. */
  function Locate(devices: Json, data: Json): (r: Py<Option<nat>>)
    ensures r.Ok? && r.value.Some? ==>
      Targets(devices, data, r.value.value) && ValueAt(devices, "wall").items[r.value.value].Object?
    ensures !data.Object? ==> r == Raise(AttributeError)
    ensures r == Ok(None) ==>
      data.Object? && Iterate(ValueAt(devices, "wall")).Ok? &&
      forall d :: d in Iterate(ValueAt(devices, "wall")).value ==> Differs(d, ValueAt(data, "deviceId"))
    ensures (data.Object? && HasKey(data.fields, "deviceId") && Searchable(ValueAt(devices, "wall"))) ==> r.Ok?
  {
    if !data.Object? then Raise(AttributeError)
    else
      var wall :- Index(devices, "wall");
      var records :- Iterate(wall);
      // the keys of a dict and the characters of a string have no `deviceId`,
      // so only a list of records can yield a match
      FindFrom(records, Index(data, "deviceId"), 0)
  }

  /** What a message does to the record it names: the new record when the
      message is handled, None when it is not, or the exception raised. */
  function Patched(d: Json, data: Json): (r: Py<Option<Json>>)
    requires d.Object?
  {
    var eventType := ValueAt(data, "eventType");
    var recordType := ValueAt(data, "recordType");
    if eventType == Str("MODIFY") && recordType == Str("DEVICE") then
      var patch := ValueAt(data, "deviceRecord");
      // `dict2.items()` of something other than a dict
      if !patch.Object? then Raise(AttributeError)
      else Ok(Some(Object(Merge(d.fields, patch.fields))))
    else if recordType == Str("TIMER") && eventType == Str("REMOVE") then
      Ok(Some(Object(Put(d.fields, "timer", Null))))
    else if recordType == Str("TIMER") && (eventType == Str("INSERT") || eventType == Str("MODIFY")) then
      Ok(Some(Object(Put(d.fields, "timer", ValueAt(data, "timerRecord")))))
    else Ok(None)
  }

  /** The effect of one pushed message on the table: the new table when the
      message was handled, None when it was not, or the exception raised. */
  function ApplyMessage(devices: Json, data: Json): Py<Option<Json>>
  {
    var found :- Locate(devices, data);
    match found
    case None => Ok(None)
    case Some(i) =>
      var rec :- Patched(ValueAt(devices, "wall").items[i], data);
      if rec.Some? then Ok(Some(SetRecord(devices, i, rec.value))) else Ok(None)
  }

  /** The search finds the record a message targets. */
  lemma LocateTargets(devices: Json, data: Json, i: nat)
    requires Targets(devices, data, i)
    ensures Locate(devices, data) == Ok(Some(i))
    ensures ApplyMessage(devices, data) ==
      var rec := Patched(ValueAt(devices, "wall").items[i], data);
      if rec.Raise? then Raise(rec.exc)
      else if rec.value.Some? then Ok(Some(SetRecord(devices, i, rec.value.value))) else Ok(None)
  {
    assert Index(devices, "wall") == Ok(ValueAt(devices, "wall"));
  }

  /** Only wall devices are searched: without a wall category the message
      raises KeyError, whatever it says. */
  lemma ApplyNeedsWall(devices: Json, data: Json)
    requires data.Object? && devices.Object? && !HasKey(devices.fields, "wall")
    ensures ApplyMessage(devices, data) == Raise(KeyError(Str("wall")))
  {
  }

  /** A message that matches no wall device changes nothing and is not handled. */
  lemma ApplyUnmatched(devices: Json, data: Json)
    requires data.Object? && devices.Object? && ValueAt(devices, "wall").Array? && HasKey(devices.fields, "wall")
    requires FindFrom(ValueAt(devices, "wall").items, Index(data, "deviceId"), 0) == Ok(None)
    ensures ApplyMessage(devices, data) == Ok(None)
  {
  }

  /** MODIFY of a DEVICE record merges `deviceRecord` into the matched record
      and leaves every other record and category as it was. */
  lemma ApplyModifyDevice(devices: Json, data: Json, i: nat)
    requires Targets(devices, data, i)
    requires ValueAt(data, "eventType") == Str("MODIFY") && ValueAt(data, "recordType") == Str("DEVICE")
    ensures ValueAt(data, "deviceRecord").Object? ==>
      var wall := ValueAt(devices, "wall").items;
      ApplyMessage(devices, data) ==
        Ok(Some(SetRecord(devices, i, Object(Merge(wall[i].fields, ValueAt(data, "deviceRecord").fields)))))
    ensures !ValueAt(data, "deviceRecord").Object? ==> ApplyMessage(devices, data) == Raise(AttributeError)
  {
    LocateTargets(devices, data, i);
  }

  /** REMOVE of a TIMER record sets the matched record's `timer` to None. */
  lemma ApplyTimerRemove(devices: Json, data: Json, i: nat)
    requires Targets(devices, data, i)
    requires ValueAt(data, "eventType") == Str("REMOVE") && ValueAt(data, "recordType") == Str("TIMER")
    ensures var wall := ValueAt(devices, "wall").items;
      ApplyMessage(devices, data) == Ok(Some(SetRecord(devices, i, Object(Put(wall[i].fields, "timer", Null)))))
  {
    LocateTargets(devices, data, i);
    var wall := ValueAt(devices, "wall").items;
    assert Patched(wall[i], data) == Ok(Some(Object(Put(wall[i].fields, "timer", Null))));
  }

  /** INSERT or MODIFY of a TIMER record sets the matched record's `timer` to
      the message's `timerRecord`, or None when it has none. */
  lemma ApplyTimerSet(devices: Json, data: Json, i: nat)
    requires Targets(devices, data, i)
    requires ValueAt(data, "eventType") == Str("INSERT") || ValueAt(data, "eventType") == Str("MODIFY")
    requires ValueAt(data, "recordType") == Str("TIMER")
    ensures var wall := ValueAt(devices, "wall").items;
      ApplyMessage(devices, data) ==
        Ok(Some(SetRecord(devices, i, Object(Put(wall[i].fields, "timer", ValueAt(data, "timerRecord"))))))
  {
    LocateTargets(devices, data, i);
    var wall := ValueAt(devices, "wall").items;
    assert Patched(wall[i], data) == Ok(Some(Object(Put(wall[i].fields, "timer", ValueAt(data, "timerRecord")))));
  }

  /** Any other event and record type leaves the table alone and is not handled. */
  lemma ApplyIgnored(devices: Json, data: Json, i: nat)
    requires Targets(devices, data, i)
    requires !(ValueAt(data, "eventType") == Str("MODIFY") && ValueAt(data, "recordType") == Str("DEVICE"))
    requires ValueAt(data, "recordType") != Str("TIMER") ||
             ValueAt(data, "eventType") !in {Str("REMOVE"), Str("INSERT"), Str("MODIFY")}
    ensures ApplyMessage(devices, data) == Ok(None)
  {
    LocateTargets(devices, data, i);
    assert Patched(ValueAt(devices, "wall").items[i], data) == Ok(None);
  }

  /** `get_device(category, deviceId)` over a device table: the first record of
      the category whose id equals `deviceId`, or None. A category the table
      lacks raises KeyError; a list or dict category is unhashable and raises
      TypeError. */
  function FindDevice(devices: Json, category: Json, deviceId: Json): (r: Py<Json>)
    ensures devices.Object? && category.Str? && !HasKey(devices.fields, category.s) ==>
      r == Raise(KeyError(category))
    ensures devices.Object? && (category.Null? || category.Bool? || category.Int?) ==> r == Raise(KeyError(category))
    ensures category.Array? || category.Object? ==> r == Raise(TypeError)
    ensures r.Ok? && r.value != Null ==>
      category.Str? && ValueAt(devices, category.s).Array? &&
      exists i :: 0 <= i < |ValueAt(devices, category.s).items| &&
        r.value == ValueAt(devices, category.s).items[i] && Matches(r.value, deviceId) &&
        forall j :: 0 <= j < i ==> Differs(ValueAt(devices, category.s).items[j], deviceId)
    ensures r == Ok(Null) ==>
      category.Str? && Iterate(ValueAt(devices, category.s)).Ok? &&
      forall d :: d in Iterate(ValueAt(devices, category.s)).value ==> Differs(d, deviceId)
    ensures category.Str? && Searchable(ValueAt(devices, category.s)) ==>
      r.Ok? &&
      ((exists i :: 0 <= i < |ValueAt(devices, category.s).items| && Matches(ValueAt(devices, category.s).items[i], deviceId))
       ==> r.value != Null)
  {
    var c :- Subscript(devices, category);
    var records :- Iterate(c);
    var found :- FindFrom(records, Ok(deviceId), 0);
    if found.Some? then Ok(records[found.value]) else Ok(Null)
  }

  /** A handled message changes exactly one wall record: the matched one. */
  lemma ApplyChangesOneRecord(devices: Json, data: Json)
    requires ApplyMessage(devices, data).Ok? && ApplyMessage(devices, data).value.Some?
    ensures var next := ApplyMessage(devices, data).value.value;
      devices.Object? && next.Object? && ValueAt(devices, "wall").Array? &&
      (forall k :: k != "wall" ==> Lookup(next.fields, k) == Lookup(devices.fields, k)) &&
      exists i, rec :: Targets(devices, data, i) && next == SetRecord(devices, i, rec)
  {
    var wall := ValueAt(devices, "wall");
    var records := Iterate(wall).value;
    var i := FindFrom(records, Index(data, "deviceId"), 0).value.value;
    assert Targets(devices, data, i);
  }

  /** `next((d for d in records if d["deviceId"] == target), None)`: the
      records are read in order until one carries the target id; reading a
      record without one, or a target that raises, raises. */
  method FirstMatch(records: seq<Json>, target: Py<Json>) returns (r: Py<Option<nat>>)
    ensures r == FindFrom(records, target, 0)
  {
    var i := 0;
    while i < |records|
      invariant i <= |records|
      invariant FindFrom(records, target, 0) == FindFrom(records, target, i)
      decreases |records| - i
    {
      var id :- Index(records[i], "deviceId");
      var t :- target;
      if Equal(id, t) {
        return Ok(Some(i));
      }
      i := i + 1;
    }
    return Ok(None);
  }

  /** The branches of the push handler on the matched record: a merge of
      `deviceRecord` for a DEVICE modification, the `timer` entry for a
      TIMER event, nothing for any other message. */
  method PatchRecord(device: Json, data: Json) returns (r: Py<Option<Json>>)
    requires device.Object?
    ensures r == Patched(device, data)
  {
    var eventType := ValueAt(data, "eventType");
    var recordType := ValueAt(data, "recordType");
    if eventType == Str("MODIFY") && recordType == Str("DEVICE") {
      var patch := ValueAt(data, "deviceRecord");
      if !patch.Object? {
        return Raise(AttributeError);
      }
      var merged := DeepMerge(device.fields, patch.fields);
      return Ok(Some(Object(merged)));
    } else if recordType == Str("TIMER") {
      if eventType == Str("REMOVE") {
        return Ok(Some(Object(Put(device.fields, "timer", Null))));
      } else if eventType == Str("INSERT") || eventType == Str("MODIFY") {
        return Ok(Some(Object(Put(device.fields, "timer", ValueAt(data, "timerRecord")))));
      }
    }
    return Ok(None);
  }

  class PuraCoordinator {
    /** `self.devices`: category name to the list of device records. */
    var devices: Json
    /** The tables handed to `async_set_updated_data`, oldest first. */
    var published: seq<Json>

    constructor()
      ensures devices == Object([]) && published == []
    {
      devices := Object([]);
      published := [];
    }

    /** `get_device(device_type, device_id)` on the coordinator's own table. */
    function GetDevice(category: Json, deviceId: Json): (r: Py<Json>)
      reads this
      ensures r.Ok? && r.value != Null ==> Matches(r.value, deviceId)
      ensures devices.Object? && (category.Null? || category.Bool? || category.Int?) ==> r == Raise(KeyError(category))
      ensures category.Array? || category.Object? ==> r == Raise(TypeError)
      ensures devices.Object? && category.Str? && !HasKey(devices.fields, category.s) ==> r == Raise(KeyError(category))
      ensures r.Ok? && r.value != Null ==>
        category.Str? && ValueAt(devices, category.s).Array? &&
        exists i :: 0 <= i < |ValueAt(devices, category.s).items| &&
          r.value == ValueAt(devices, category.s).items[i] &&
          forall j :: 0 <= j < i ==> Differs(ValueAt(devices, category.s).items[j], deviceId)
      ensures r == Ok(Null) ==>
        category.Str? && Iterate(ValueAt(devices, category.s)).Ok? &&
        forall d :: d in Iterate(ValueAt(devices, category.s)).value ==> Differs(d, deviceId)
      ensures category.Str? && Searchable(ValueAt(devices, category.s)) ==>
        r.Ok? &&
        ((exists i :: 0 <= i < |ValueAt(devices, category.s).items| && Matches(ValueAt(devices, category.s).items[i], deviceId))
         ==> r.value != Null)
    {
      FindDevice(devices, category, deviceId)
    }

    /** `_async_update_data` given the result of the vendor fetch: a non-empty
        result replaces the table, an empty one keeps it, and a failed fetch
        raises UpdateFailed and keeps it. */
    method UpdateData(fetch: Py<Json>) returns (r: Py<Json>)
      modifies this
      ensures fetch.Raise? ==> r == Raise(UpdateFailed) && devices == old(devices)
      ensures fetch.Ok? && Truthy(fetch.value) ==> devices == fetch.value && r == Ok(fetch.value)
      ensures fetch.Ok? && !Truthy(fetch.value) ==> devices == old(devices) && r == Ok(old(devices))
      ensures published == old(published)
    {
      match fetch
      case Raise(_) =>
        return Raise(UpdateFailed);
      case Ok(result) =>
        if Truthy(result) {
          devices := result;
        }
        return Ok(devices);
    }

    /** `_async_handle_message(data)`: the matched wall record is updated in
        place and the table is published exactly when the message was
        handled; an exception leaves the table as it was. */
    method HandleMessage(data: Json) returns (r: Py<bool>)
      modifies this
      ensures match ApplyMessage(old(devices), data)
        case Raise(e) => r == Raise(e) && devices == old(devices) && published == old(published)
        case Ok(None) => r == Ok(false) && devices == old(devices) && published == old(published)
        case Ok(Some(next)) => r == Ok(true) && devices == next && published == old(published) + [next]
    {
      if !data.Object? {
        // `data.get("eventType")` on something other than a dict
        return Raise(AttributeError);
      }
      var wall :- Index(devices, "wall");
      var records :- Iterate(wall);
      var found :- FirstMatch(records, Index(data, "deviceId"));
      assert Locate(devices, data) == Ok(found);
      if found.None? {
        return Ok(false);
      }
      var i := found.value;
      LocateTargets(devices, data, i);
      var rec :- PatchRecord(records[i], data);
      if rec.None? {
        return Ok(false);
      }
      devices := SetRecord(devices, i, rec.value);
      published := published + [devices];
      return Ok(true);
    }
  }
}
