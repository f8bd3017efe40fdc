/** The schedule calendar: one weekly event per enabled schedule of the wall,
    plus and mini diffusers, rebuilt on every coordinator update.

    Instants are whole seconds on the host's local clock, and a day is
    86400 of them. Home Assistant's `parse_time` is not part of this model:
    it is a parameter from a time text to the seconds into the day it names,
    or None. So is the `ical` library's `Recur.from_rrule`: a predicate
    saying which rule texts it accepts; it raises ValueError on the others. */
module Calendar {
  import opened Text
  import opened PyJson

  const OneDay: int := 86400

  /** The parsers the calendar can be given: whatever they accept is a time
      of day. */
  ghost predicate ClockParser(parse: string -> Option<nat>)
  {
    forall t :: parse(t).Some? ==> parse(t).value < OneDay
  }

  /** The start of the day `now` falls in. */
  function DayStart(now: int): (r: int)
    ensures r <= now < r + OneDay
    ensures r % OneDay == 0
  {
    now - now % OneDay
  }

  // ---------------------------------------------------------------- times

  /** `f"{time_str[:2]}:{time_str[2:]}"`: a colon after the first two
      characters. */
  function TimeText(s: string): (r: string)
    ensures |r| == |s| + 1
    ensures r[|Take(s, 2)|] == ':'
    ensures r[..|Take(s, 2)|] + r[|Take(s, 2)| + 1..] == s
  {
    var r := Take(s, 2) + ":" + Drop(s, 2);
    assert r[..|Take(s, 2)|] == Take(s, 2) && r[|Take(s, 2)| + 1..] == Drop(s, 2);
    r
  }

  /** An "HHMM" text without colons becomes "HH:MM", which splits back into
      the hours and the minutes. */
  lemma TimeTextParts(s: string)
    requires |s| >= 2 && ':' !in s
    ensures SplitOnce(TimeText(s), ':') == [s[..2], s[2..]]
  {
    assert Take(s, 2) == s[..2] && Drop(s, 2) == s[2..];
    assert ':' !in s[..2] by {
      assert forall i :: 0 <= i < 2 ==> s[..2][i] == s[i];
    }
    SplitOnceAt(s[..2], s[2..], ':');
  }

  /** `_parse_time`: the hours, a colon and the minutes, handed to the
      parser; a time it accepts lies within the day. */
  function ParseTime(s: string, parse: string -> Option<nat>): (r: Option<nat>)
    ensures |s| >= 2 ==> r == parse(s[..2] + ":" + s[2..])
    ensures |s| < 2 ==> r == parse(s + ":")
    ensures ClockParser(parse) && r.Some? ==> r.value < OneDay
  {
    assert |s| >= 2 ==> Take(s, 2) == s[..2] && Drop(s, 2) == s[2..];
    assert |s| < 2 ==> TimeText(s) == s + ":";
    parse(TimeText(s))
  }

  /** `_parse_datetime`: today's date at the parsed time, moved one day on
      when `disable_until` is truthy and that instant is not after it. A text
      that does not parse gives no time, and `datetime.combine` refuses it. */
  function ParseDatetime(now: int, time: Json, disableUntil: Json, parse: string -> Option<nat>): (r: Py<int>)
    ensures r.Ok? ==> time.Str? && ParseTime(time.s, parse).Some?
    ensures r.Raise? ==> r == Raise(TypeError)
    ensures time.Str? && ParseTime(time.s, parse).Some? && (!Truthy(disableUntil) || Number(disableUntil).Some?) ==> r.Ok?
    ensures r.Ok? ==>
      var date := DayStart(now) + ParseTime(time.s, parse).value;
      && (r.value == date || r.value == date + OneDay)
      && (r.value == date + OneDay <==>
            Truthy(disableUntil) && Number(disableUntil).Some? && date <= Number(disableUntil).value)
  {
    if !time.Str? then Raise(TypeError)
    else
      match ParseTime(time.s, parse)
      case None => Raise(TypeError)
      case Some(clock) =>
        var date := DayStart(now) + clock;
        if !Truthy(disableUntil) then Ok(date)
        else
          match Number(disableUntil)
          case None => Raise(TypeError)
          case Some(until) => if date <= until then Ok(date + OneDay) else Ok(date)
  }

  /** The start lies today or tomorrow. */
  lemma ParseDatetimeBounds(now: int, time: Json, disableUntil: Json, parse: string -> Option<nat>)
    requires ClockParser(parse)
    requires ParseDatetime(now, time, disableUntil, parse).Ok?
    ensures DayStart(now) <= ParseDatetime(now, time, disableUntil, parse).value < DayStart(now) + 2 * OneDay
  {
    assert parse(TimeText(time.s)).value < OneDay;
  }

  /** The shift is of one day only: the start passes `disable_until` exactly
      when that instant is less than a day after today's occurrence. */
  lemma StartAfterDisable(now: int, time: Json, until: int, parse: string -> Option<nat>)
    requires until != 0
    requires ParseDatetime(now, time, Int(until), parse).Ok?
    ensures var date := DayStart(now) + ParseTime(time.s, parse).value;
      ParseDatetime(now, time, Int(until), parse).value > until <==> until < date + OneDay
  {
  }

  // ---------------------------------------------------------------- events

  /** An event of the calendar: its summary, first start and end, its
      description, its uid and its recurrence rule. */
  datatype CalEvent = CalEvent(summary: string, start: int, end: int, description: string, uid: Json, rrule: string)

  /** The enabled days' codes, in key order: every day whose value is truthy
      contributes its code. What iterating a days dict gives is
      `DayCodesFromKeys`. */
  function EnabledCodes(fs: seq<Field>, days: Json): (r: seq<string>)
    ensures forall i :: 0 <= i < |fs| && Truthy(ValueAt(days, fs[i].key)) ==> Upper(Take(fs[i].key, 2)) in r
    ensures forall i :: 0 <= i < |r| ==> |r[i]| <= 2
    ensures |r| <= |fs|
  {
    assert forall i :: 1 <= i < |fs| ==> fs[i] == fs[1..][i - 1];
    if fs == [] then []
    else
      var rest := EnabledCodes(fs[1..], days);
      if Truthy(ValueAt(days, fs[0].key)) then [Upper(Take(fs[0].key, 2))] + rest else rest
  }

  /** The comprehension over `schedule['days']`: the upper-cased first two
      letters of each day whose value is truthy. */
  function DayCodesFrom(days: Json, items: seq<Json>): (r: Py<seq<string>>)
    ensures r.Ok? <==> forall i :: 0 <= i < |items| ==>
      Subscript(days, items[i]).Ok? && (Truthy(Subscript(days, items[i]).value) ==> items[i].Str?)
    ensures r.Ok? ==> |r.value| <= |items|
  {
    assert forall i :: 1 <= i < |items| ==> items[i] == items[1..][i - 1];
    if items == [] then Ok([])
    else
      var enabled :- Subscript(days, items[0]);
      if !Truthy(enabled) then DayCodesFrom(days, items[1..])
      else if !items[0].Str? then Raise(TypeError)
      else
        var rest :- DayCodesFrom(days, items[1..]);
        Ok([Upper(Take(items[0].s, 2))] + rest)
  }

  lemma {:induction false} DayCodesFromKeys(fs: seq<Field>, days: Json)
    requires days.Object? && forall i :: 0 <= i < |fs| ==> HasKey(days.fields, fs[i].key)
    ensures DayCodesFrom(days, KeysOf(fs)) == Ok(EnabledCodes(fs, days))
  {
    if fs != [] {
      assert KeysOf(fs)[1..] == KeysOf(fs[1..]);
      DayCodesFromKeys(fs[1..], days);
    }
  }

  function DayCodes(days: Json): (r: Py<seq<string>>)
    ensures days.Object? ==> r == Ok(EnabledCodes(days.fields, days))
  {
    var items :- Iterate(days);
    if days.Object? then
      DayCodesFromKeys(days.fields, days);
      DayCodesFrom(days, items)
    else DayCodesFrom(days, items)
  }

  /** The recurrence rule: weekly on the given days. Its three parts are
      the frequency, the days joined by commas and the interval, and the
      days can be read back from the second. */
  function Rrule(codes: seq<string>): (r: string)
    ensures (forall i :: 0 <= i < |codes| ==> ';' !in codes[i]) ==>
      Split(r, ';') == ["FREQ=WEEKLY", "BYDAY=" + Join(codes, ','), "INTERVAL=1"]
    ensures |codes| >= 1 && (forall i :: 0 <= i < |codes| ==> ',' !in codes[i]) ==>
      Split(Join(codes, ','), ',') == codes
  {
    RruleText(codes);
    "FREQ=WEEKLY" + ";" + ("BYDAY=" + Join(codes, ',')) + ";" + "INTERVAL=1"
  }

  lemma RruleText(codes: seq<string>)
    ensures (forall i :: 0 <= i < |codes| ==> ';' !in codes[i]) ==>
      Split("FREQ=WEEKLY" + ";" + ("BYDAY=" + Join(codes, ',')) + ";" + "INTERVAL=1", ';') ==
      ["FREQ=WEEKLY", "BYDAY=" + Join(codes, ','), "INTERVAL=1"]
    ensures |codes| >= 1 && (forall i :: 0 <= i < |codes| ==> ',' !in codes[i]) ==>
      Split(Join(codes, ','), ',') == codes
  {
    if forall i :: 0 <= i < |codes| ==> ';' !in codes[i] {
      JoinWithout(codes, ',', ';');
      RruleSplit(Join(codes, ','));
    }
    if |codes| >= 1 && forall i :: 0 <= i < |codes| ==> ',' !in codes[i] {
      SplitJoin(codes, ',');
    }
  }

  lemma RruleSplit(days: string)
    requires ';' !in days
    ensures Split("FREQ=WEEKLY" + ";" + ("BYDAY=" + days) + ";" + "INTERVAL=1", ';') ==
      ["FREQ=WEEKLY", "BYDAY=" + days, "INTERVAL=1"]
  {
    RruleLiterals();
    assert ';' !in "BYDAY=" + days;
    SplitThree("FREQ=WEEKLY", "BYDAY=" + days, "INTERVAL=1", ';');
  }

  lemma RruleLiterals()
    ensures ';' !in "FREQ=WEEKLY" && ';' !in "INTERVAL=1" && ';' !in "BYDAY="
  {
  }

  /** The code of a day: its first two letters, upper-cased. */
  lemma DayCode(day: string)
    requires |day| >= 2
    ensures Upper(Take(day, 2)) == [UpperChar(day[0]), UpperChar(day[1])]
  {
    var two := [day[0], day[1]];
    assert Take(day, 2) == two;
    assert two[1..] == [day[1]] && [day[1]][1..] == [];
    assert Upper([day[1]]) == [UpperChar(day[1])] + Upper([]);
    assert Upper(two) == [UpperChar(day[0])] + Upper([day[1]]);
  }

  /** Monday and Wednesday enabled, Tuesday not. */
  const ExampleDays: Json := Object([Field("monday", Bool(true)), Field("tuesday", Bool(false)), Field("wednesday", Int(1))])

  lemma ExampleDaysValues()
    ensures ExampleDays.Object? && |ExampleDays.fields| == 3
    ensures ExampleDays.fields[0].key == "monday"
    ensures ExampleDays.fields[1..][0].key == "tuesday"
    ensures ExampleDays.fields[1..][1..] == [Field("wednesday", Int(1))]
    ensures ValueAt(ExampleDays, "monday") == Bool(true)
    ensures ValueAt(ExampleDays, "tuesday") == Bool(false)
    ensures ValueAt(ExampleDays, "wednesday") == Int(1)
  {
    assert "monday" != "tuesday" && "monday" != "wednesday" && "tuesday" != "wednesday" by {
      assert |"monday"| == 6 && |"tuesday"| == 7 && |"wednesday"| == 9;
    }
    var fs := ExampleDays.fields;
    var t3 := [Field("wednesday", Int(1))];
    var t2 := [Field("tuesday", Bool(false))] + t3;
    assert fs == [Field("monday", Bool(true))] + t2;
    assert fs[1..] == t2 && t2[1..] == t3;
    assert Lookup(t2, "wednesday") == Some(Int(1));
    assert Lookup(fs, "wednesday") == Some(Int(1)) && Lookup(fs, "tuesday") == Some(Bool(false));
    assert Lookup(fs, "monday") == Some(Bool(true));
  }

  lemma ExampleDayCodes()
    ensures Upper(Take("monday", 2)) == "MO" && Upper(Take("wednesday", 2)) == "WE"
  {
    DayCode("monday");
    DayCode("wednesday");
  }

  /** Of three days, the first and last enabled: their two codes, in order. */
  lemma EnabledFirstAndLast(d1: Field, d2: Field, d3: Field, days: Json)
    requires Truthy(ValueAt(days, d1.key)) && !Truthy(ValueAt(days, d2.key)) && Truthy(ValueAt(days, d3.key))
    ensures EnabledCodes([d1, d2, d3], days) == [Upper(Take(d1.key, 2)), Upper(Take(d3.key, 2))]
  {
    var fs := [d1, d2, d3];
    assert fs[1..] == [d2, d3] && fs[1..][1..] == [d3] && [d3][1..] == [];
    assert EnabledCodes([d3], days) == [Upper(Take(d3.key, 2))];
  }

  /** Days are kept in key order and disabled days are dropped. */
  lemma DayCodesExample()
    ensures DayCodes(ExampleDays) == Ok(["MO", "WE"])
  {
    ExampleDaysValues();
    ExampleDayCodes();
    var fs := ExampleDays.fields;
    assert fs == [fs[0], fs[1], fs[2]];
    EnabledFirstAndLast(fs[0], fs[1], fs[2], ExampleDays);
  }

  /** `f"{schedule['name']} - {device['displayName']['name']}"`. */
  function Summary(device: Json, schedule: Json): (r: Py<string>)
    ensures r.Ok? ==>
      r.value == ToStr(ValueAt(schedule, "name")) + " - " + ToStr(ValueAt(ValueAt(device, "displayName"), "name"))
    ensures var display := ValueAt(device, "displayName");
      r.Ok? <==> schedule.Object? && HasKey(schedule.fields, "name") && display.Object? && HasKey(display.fields, "name")
  {
    var name :- Index(schedule, "name");
    var display :- Index(device, "displayName");
    var displayName :- Index(display, "name");
    Ok(ToStr(name) + " - " + ToStr(displayName))
  }

  /** The first start and end, both shifted by the schedule's
      `disableUntil`. */
  function Span(schedule: Json, now: int, parse: string -> Option<nat>): (r: Py<(int, int)>)
    ensures r.Ok? ==>
      var until := ValueAt(schedule, "disableUntil");
      ParseDatetime(now, ValueAt(schedule, "start"), until, parse) == Ok(r.value.0) &&
      ParseDatetime(now, ValueAt(schedule, "end"), until, parse) == Ok(r.value.1)
    ensures var until := ValueAt(schedule, "disableUntil");
      r.Ok? <==>
      (schedule.Object? && HasKey(schedule.fields, "start") && HasKey(schedule.fields, "disableUntil") &&
       HasKey(schedule.fields, "end") &&
       ParseDatetime(now, ValueAt(schedule, "start"), until, parse).Ok? &&
       ParseDatetime(now, ValueAt(schedule, "end"), until, parse).Ok?)
  {
    var start :- Index(schedule, "start");
    var until :- Index(schedule, "disableUntil");
    var startAt :- ParseDatetime(now, start, until, parse);
    var end :- Index(schedule, "end");
    var endAt :- ParseDatetime(now, end, until, parse);
    Ok((startAt, endAt))
  }

  /** The description: the schedule's bay, the name of the fragrance in that
      bay of the device, and the schedule's intensity. */
  function Description(device: Json, schedule: Json): (r: Py<string>)
    ensures r.Ok? ==>
      var bay := ValueAt(schedule, "bay");
      var fragrance := ValueAt(ValueAt(ValueAt(device, "bay" + ToStr(bay)), "fragrance"), "name");
      fragrance.Str? &&
      r.value == "Fragrance slot " + ToStr(bay) + " (" + fragrance.s + ")\nIntensity " + ToStr(ValueAt(schedule, "intensity"))
    ensures var bayRecord := ValueAt(device, "bay" + ToStr(ValueAt(schedule, "bay")));
      var fragrance := ValueAt(bayRecord, "fragrance");
      r.Ok? <==>
      (schedule.Object? && HasKey(schedule.fields, "bay") && bayRecord.Object? && fragrance.Object? &&
       HasKey(fragrance.fields, "name") && ValueAt(fragrance, "name").Str? && HasKey(schedule.fields, "intensity"))
  {
    var bay :- Index(schedule, "bay");
    var bayRecord :- Index(device, "bay" + ToStr(bay));
    var fragrance :- Index(bayRecord, "fragrance");
    var fragranceName :- Index(fragrance, "name");
    // `str + x` needs a string `x`
    if !fragranceName.Str? then Raise(TypeError)
    else
      var intensity :- Index(schedule, "intensity");
      Ok("Fragrance slot " + ToStr(bay) + " (" + fragranceName.s + ")\nIntensity " + ToStr(intensity))
  }

  /** Everything but the rule's parsing succeeds: the parts of an event,
      in the order the keyword arguments are written. */
  predicate PartsReady(device: Json, schedule: Json, now: int, parse: string -> Option<nat>)
  {
    && Summary(device, schedule).Ok? && Span(schedule, now, parse).Ok? && Description(device, schedule).Ok?
    && schedule.Object? && HasKey(schedule.fields, "id") && HasKey(schedule.fields, "days")
    && DayCodes(ValueAt(schedule, "days")).Ok?
  }

  /** The event of one schedule of a device, its parts evaluated in the
      order the keyword arguments are written. It is built exactly when every
      part is and `Recur.from_rrule` accepts the rule; a refused rule, such
      as the one with no day enabled, raises ValueError. */
  function ScheduleEvent(device: Json, schedule: Json, now: int, parse: string -> Option<nat>, recur: string -> bool): (r: Py<CalEvent>)
    ensures r.Ok? <==> PartsReady(device, schedule, now, parse) && recur(Rrule(DayCodes(ValueAt(schedule, "days")).value))
    ensures PartsReady(device, schedule, now, parse) && !recur(Rrule(DayCodes(ValueAt(schedule, "days")).value)) ==>
      r == Raise(ValueError)
  {
    var summary :- Summary(device, schedule);
    var span :- Span(schedule, now, parse);
    var description :- Description(device, schedule);
    var id :- Index(schedule, "id");
    var days :- Index(schedule, "days");
    var codes :- DayCodes(days);
    var rule := Rrule(codes);
    if !recur(rule) then Raise(ValueError)
    else Ok(CalEvent(summary, span.0, span.1, description, id, rule))
  }

  /** An event's summary names the schedule and the device, its uid is the
      schedule's id, its description names the bay, that bay's fragrance and
      the intensity, its times are the schedule's start and end, and it
      recurs weekly on the schedule's enabled days. */
  lemma ScheduleEventSpec(device: Json, schedule: Json, now: int, parse: string -> Option<nat>, recur: string -> bool)
    requires ScheduleEvent(device, schedule, now, parse, recur).Ok?
    ensures var e := ScheduleEvent(device, schedule, now, parse, recur).value;
      e.summary == ToStr(ValueAt(schedule, "name")) + " - " + ToStr(ValueAt(ValueAt(device, "displayName"), "name")) &&
      e.uid == ValueAt(schedule, "id")
    ensures var e := ScheduleEvent(device, schedule, now, parse, recur).value;
      var bay := ValueAt(schedule, "bay");
      var fragrance := ValueAt(ValueAt(ValueAt(device, "bay" + ToStr(bay)), "fragrance"), "name");
      fragrance.Str? &&
      e.description == "Fragrance slot " + ToStr(bay) + " (" + fragrance.s + ")\nIntensity " + ToStr(ValueAt(schedule, "intensity"))
    ensures var e := ScheduleEvent(device, schedule, now, parse, recur).value;
      var until := ValueAt(schedule, "disableUntil");
      ParseDatetime(now, ValueAt(schedule, "start"), until, parse) == Ok(e.start) &&
      ParseDatetime(now, ValueAt(schedule, "end"), until, parse) == Ok(e.end)
    ensures var e := ScheduleEvent(device, schedule, now, parse, recur).value;
      DayCodes(ValueAt(schedule, "days")).Ok? && e.rrule == Rrule(DayCodes(ValueAt(schedule, "days")).value) &&
      recur(e.rrule)
  {
    var r := ScheduleEvent(device, schedule, now, parse, recur);
    assert Summary(device, schedule).Ok? && Span(schedule, now, parse).Ok? && Description(device, schedule).Ok?;
    var days := ValueAt(schedule, "days");
    assert Index(schedule, "days") == Ok(days);
    assert r.value == CalEvent(Summary(device, schedule).value, Span(schedule, now, parse).value.0,
      Span(schedule, now, parse).value.1, Description(device, schedule).value, ValueAt(schedule, "id"),
      Rrule(DayCodes(days).value));
  }

  /** The events built so far, and the exception that stopped the building,
      if any. Events are appended as they are built, so those built before an
      exception stay in the calendar. */
  datatype Built = Built(events: seq<CalEvent>, error: Option<Exc>)

  /** `schedule["disableUntil"] == -1`, which marks a schedule as off. */
  predicate Off(schedule: Json)
  {
    Index(schedule, "disableUntil").Ok? && Equal(Index(schedule, "disableUntil").value, Int(-1))
  }

  /** The schedules that are not off, in order. */
  function Enabled(schedules: seq<Json>): (r: seq<Json>)
    ensures forall s :: s in r ==> s in schedules && !Off(s)
  {
    if schedules == [] then []
    else (if Off(schedules[0]) then [] else [schedules[0]]) + Enabled(schedules[1..])
  }

  /** `ys` are the results of `f` on the first `|ys|` of `xs`, one each, in
      order, none of them an exception. */
  predicate Leads<X, Y(==)>(f: X -> Py<Y>, xs: seq<X>, ys: seq<Y>)
    decreases |xs|
  {
    |ys| <= |xs| && (ys != [] ==> f(xs[0]) == Ok(ys[0]) && Leads(f, xs[1..], ys[1..]))
  }

  /** `p` holds of every element of `xs`. */
  predicate Every<X>(p: X -> bool, xs: seq<X>)
    decreases |xs|
  {
    xs != [] ==> p(xs[0]) && Every(p, xs[1..])
  }

  /** `Leads` pairs each result with its input. */
  lemma {:induction false} LeadsAt<X, Y>(f: X -> Py<Y>, xs: seq<X>, ys: seq<Y>, k: nat)
    requires Leads(f, xs, ys) && k < |ys|
    ensures f(xs[k]) == Ok(ys[k])
    decreases k
  {
    if k > 0 {
      LeadsAt(f, xs[1..], ys[1..], k - 1);
      assert xs[1..][k - 1] == xs[k] && ys[1..][k - 1] == ys[k];
    }
  }

  /** `Every` is the universal statement over the positions of `xs`. */
  lemma {:induction false} EveryAt<X>(p: X -> bool, xs: seq<X>)
    ensures Every(p, xs) <==> forall k :: 0 <= k < |xs| ==> p(xs[k])
    decreases |xs|
  {
    if xs != [] {
      EveryAt(p, xs[1..]);
      assert forall k :: 1 <= k < |xs| ==> xs[k] == xs[1..][k - 1];
    }
  }

  /** The exception `e` stops the building at schedule `s`: `s` is not off,
      and reading its `disableUntil` or building its event raises `e`. */
  predicate StopsAt(device: Json, s: Json, e: Exc, now: int, parse: string -> Option<nat>, recur: string -> bool)
  {
    !Off(s) && (Index(s, "disableUntil") == Raise(e) || ScheduleEvent(device, s, now, parse, recur) == Raise(e))
  }

  /** The events of one device's schedules, in order, up to the first
      exception: the `k`-th event is that of the `k`-th schedule that is not
      off. Without an exception there is one per such schedule; with one, the
      events built so far are kept and the exception is that of the next
      such schedule. Nothing raises exactly when every such schedule's event
      builds. */
  function ForSchedules(device: Json, schedules: seq<Json>, now: int, parse: string -> Option<nat>, recur: string -> bool): (r: Built)
    ensures Leads(s => ScheduleEvent(device, s, now, parse, recur), Enabled(schedules), r.events)
    ensures r.error.None? ==> |r.events| == |Enabled(schedules)|
    ensures r.error.Some? ==>
      |r.events| < |Enabled(schedules)| && StopsAt(device, Enabled(schedules)[|r.events|], r.error.value, now, parse, recur)
  {
    if schedules == [] then Built([], None)
    else
      var first := schedules[0];
      var enabled := Enabled(schedules[1..]);
      match Index(first, "disableUntil")
      case Raise(e) =>
        assert !Off(first) && Enabled(schedules) == [first] + enabled;
        assert StopsAt(device, first, e, now, parse, recur);
        Built([], Some(e))
      case Ok(until) =>
        if Equal(until, Int(-1)) then
          assert Off(first) && Enabled(schedules) == enabled;
          ForSchedules(device, schedules[1..], now, parse, recur)
        else
          assert !Off(first) && Enabled(schedules) == [first] + enabled;
          match ScheduleEvent(device, first, now, parse, recur)
          case Raise(e) =>
            assert StopsAt(device, first, e, now, parse, recur);
            Built([], Some(e))
          case Ok(event) =>
            var rest := ForSchedules(device, schedules[1..], now, parse, recur);
            ForSchedulesCons(device, first, enabled, event, rest, now, parse, recur);
            Built([event] + rest.events, rest.error)
  }

  /** An event built in front keeps the `ForSchedules` contract. */
  lemma ForSchedulesCons(device: Json, first: Json, enabled: seq<Json>, event: CalEvent, rest: Built, now: int, parse: string -> Option<nat>, recur: string -> bool)
    requires ScheduleEvent(device, first, now, parse, recur) == Ok(event)
    requires Leads(s => ScheduleEvent(device, s, now, parse, recur), enabled, rest.events)
    requires rest.error.None? ==> |rest.events| == |enabled|
    requires rest.error.Some? ==>
      |rest.events| < |enabled| && StopsAt(device, enabled[|rest.events|], rest.error.value, now, parse, recur)
    ensures Leads(s => ScheduleEvent(device, s, now, parse, recur), [first] + enabled, [event] + rest.events)
    ensures rest.error.None? ==> |[event] + rest.events| == |[first] + enabled|
    ensures rest.error.Some? ==>
      |[event] + rest.events| < |[first] + enabled| &&
      StopsAt(device, ([first] + enabled)[|[event] + rest.events|], rest.error.value, now, parse, recur)
  {
    var schedules := [first] + enabled;
    var events := [event] + rest.events;
    assert schedules[0] == first && schedules[1..] == enabled;
    assert events[0] == event && events[1..] == rest.events;
    assert |rest.events| < |enabled| ==> schedules[|events|] == enabled[|rest.events|];
  }

  /** A schedule whose `disableUntil` cannot be read has no event. */
  lemma NoUntilNoEvent(device: Json, schedule: Json, now: int, parse: string -> Option<nat>, recur: string -> bool)
    requires Index(schedule, "disableUntil").Raise?
    ensures !ScheduleEvent(device, schedule, now, parse, recur).Ok?
  {
    assert !Span(schedule, now, parse).Ok?;
  }

  /** Nothing raises exactly when every schedule that is not off builds its
      event: the schedule an exception stops at does not. */
  lemma ForSchedulesBuilds(device: Json, schedules: seq<Json>, now: int, parse: string -> Option<nat>, recur: string -> bool)
    ensures ForSchedules(device, schedules, now, parse, recur).error.None? <==>
      Every(s => ScheduleEvent(device, s, now, parse, recur).Ok?, Enabled(schedules))
  {
    var r := ForSchedules(device, schedules, now, parse, recur);
    var enabled := Enabled(schedules);
    EveryAt(s => ScheduleEvent(device, s, now, parse, recur).Ok?, enabled);
    if r.error.None? {
      forall k | 0 <= k < |enabled|
        ensures ScheduleEvent(device, enabled[k], now, parse, recur).Ok?
      {
        LeadsAt(s => ScheduleEvent(device, s, now, parse, recur), enabled, r.events, k);
      }
    } else {
      var stop := enabled[|r.events|];
      if Index(stop, "disableUntil").Raise? {
        NoUntilNoEvent(device, stop, now, parse, recur);
      }
    }
  }

  /** One schedule more: an off schedule adds nothing, any other adds its
      event in front. */
  lemma ForSchedulesStep(device: Json, schedules: seq<Json>, now: int, parse: string -> Option<nat>, recur: string -> bool)
    requires schedules != [] && ForSchedules(device, schedules, now, parse, recur).error.None?
    ensures var rest := ForSchedules(device, schedules[1..], now, parse, recur);
      var built := ForSchedules(device, schedules, now, parse, recur);
      && rest.error.None?
      && (Off(schedules[0]) ==> built == rest && Enabled(schedules) == Enabled(schedules[1..]))
      && (!Off(schedules[0]) ==>
            ScheduleEvent(device, schedules[0], now, parse, recur).Ok? &&
            built.events == [ScheduleEvent(device, schedules[0], now, parse, recur).value] + rest.events &&
            Enabled(schedules) == [schedules[0]] + Enabled(schedules[1..]))
  {
  }

  /** `ys` are the results of `f` on `xs`, one each, in order, none of them
      an exception. */
  predicate Pointwise(f: Json -> Py<CalEvent>, xs: seq<Json>, ys: seq<CalEvent>)
    decreases |xs|
  {
    |ys| == |xs| && (xs != [] ==> f(xs[0]) == Ok(ys[0]) && Pointwise(f, xs[1..], ys[1..]))
  }

  /** The `k`-th result is that of the `k`-th input. */
  lemma {:induction false} PointwiseIndex(f: Json -> Py<CalEvent>, xs: seq<Json>, ys: seq<CalEvent>, k: nat)
    requires Pointwise(f, xs, ys) && k < |ys|
    ensures f(xs[k]) == Ok(ys[k])
    decreases k
  {
    if k > 0 {
      PointwiseIndex(f, xs[1..], ys[1..], k - 1);
      assert xs[1..][k - 1] == xs[k] && ys[1..][k - 1] == ys[k];
    }
  }

  /** Without an exception, a device's events are exactly the events of its
      schedules that are not off, one each, in order. */
  lemma {:induction false} ForSchedulesSpec(device: Json, schedules: seq<Json>, now: int, parse: string -> Option<nat>, recur: string -> bool)
    requires ForSchedules(device, schedules, now, parse, recur).error.None?
    ensures Pointwise(s => ScheduleEvent(device, s, now, parse, recur), Enabled(schedules), ForSchedules(device, schedules, now, parse, recur).events)
  {
    if schedules != [] {
      ForSchedulesStep(device, schedules, now, parse, recur);
      ForSchedulesSpec(device, schedules[1..], now, parse, recur);
      if !Off(schedules[0]) {
        var built := ForSchedules(device, schedules, now, parse, recur).events;
        var enabled := Enabled(schedules);
        assert built[1..] == ForSchedules(device, schedules[1..], now, parse, recur).events;
        assert enabled[1..] == Enabled(schedules[1..]);
      }
    }
  }

  /** So the `k`-th event is the event of the `k`-th schedule that is not off. */
  lemma ForSchedulesEach(device: Json, schedules: seq<Json>, now: int, parse: string -> Option<nat>, recur: string -> bool, k: nat)
    requires ForSchedules(device, schedules, now, parse, recur).error.None?
    requires k < |Enabled(schedules)|
    ensures |ForSchedules(device, schedules, now, parse, recur).events| == |Enabled(schedules)|
    ensures ScheduleEvent(device, Enabled(schedules)[k], now, parse, recur) == Ok(ForSchedules(device, schedules, now, parse, recur).events[k])
  {
    ForSchedulesSpec(device, schedules, now, parse, recur);
    PointwiseIndex(s => ScheduleEvent(device, s, now, parse, recur), Enabled(schedules), ForSchedules(device, schedules, now, parse, recur).events, k);
  }

  /** The items `for x in j` visits, none for what cannot be iterated. */
  function ItemsOf(j: Json): seq<Json>
  {
    if Iterate(j).Ok? then Iterate(j).value else []
  }

  /** `device.get("schedules", [])`, iterated. */
  function SchedulesOf(device: Json): seq<Json>
  {
    if Get(device, "schedules", Array([])).Ok? then ItemsOf(Get(device, "schedules", Array([])).value) else []
  }

  /** Every device's schedule events, device after device. */
  function DevicesEvents(devices: seq<Json>, now: int, parse: string -> Option<nat>, recur: string -> bool): seq<CalEvent>
  {
    if devices == [] then []
    else ForSchedules(devices[0], SchedulesOf(devices[0]), now, parse, recur).events + DevicesEvents(devices[1..], now, parse, recur)
  }

  /** Every category's devices' events, category after category. */
  function TableEvents(table: seq<Field>, now: int, parse: string -> Option<nat>, recur: string -> bool): seq<CalEvent>
  {
    if table == [] then []
    else DevicesEvents(ItemsOf(table[0].val), now, parse, recur) + TableEvents(table[1..], now, parse, recur)
  }

  /** A device's schedules build without an exception: `device.get` and
      the iteration of its schedules succeed, and so does every event. */
  predicate DeviceBuilds(device: Json, now: int, parse: string -> Option<nat>, recur: string -> bool)
  {
    && Get(device, "schedules", Array([])).Ok?
    && Iterate(Get(device, "schedules", Array([])).value).Ok?
    && ForSchedules(device, SchedulesOf(device), now, parse, recur).error.None?
  }

  /** The events of a category's devices: a prefix of all their schedules'
      events, and all of them when nothing raises, which is exactly when
      every device's schedules build. */
  function ForDevices(devices: seq<Json>, now: int, parse: string -> Option<nat>, recur: string -> bool): (r: Built)
    ensures r.events <= DevicesEvents(devices, now, parse, recur)
    ensures r.error.None? ==> r.events == DevicesEvents(devices, now, parse, recur)
    ensures r.error.None? <==> Every(d => DeviceBuilds(d, now, parse, recur), devices)
  {
    if devices == [] then Built([], None)
    else
      match Get(devices[0], "schedules", Array([]))
      case Raise(e) =>
        assert !DeviceBuilds(devices[0], now, parse, recur);
        Built([], Some(e))
      case Ok(schedules) =>
        match Iterate(schedules)
        case Raise(e) =>
          assert !DeviceBuilds(devices[0], now, parse, recur);
          Built([], Some(e))
        case Ok(items) =>
          var first := ForSchedules(devices[0], items, now, parse, recur);
          assert SchedulesOf(devices[0]) == items;
          assert DeviceBuilds(devices[0], now, parse, recur) <==> first.error.None?;
          var all := DevicesEvents(devices[1..], now, parse, recur);
          if first.error.Some? then
            PrefixExtend(first.events, first.events, all);
            first
          else
            var rest := ForDevices(devices[1..], now, parse, recur);
            PrefixAppend(first.events, rest.events, all);
            Built(first.events + rest.events, rest.error)
  }

  /** Events kept in front of a prefix and its tail regroup. */
  lemma Regroup(whole: seq<CalEvent>, first: seq<CalEvent>, front: seq<CalEvent>, rest: seq<CalEvent>, last: seq<CalEvent>)
    requires whole == first + front && rest == front + last
    ensures first + rest == whole + last
  {
  }

  /** The events of the first `n` devices are those of the first device
      followed by those of the next `n - 1`. */
  lemma DevicesEventsPrefix(devices: seq<Json>, n: nat, now: int, parse: string -> Option<nat>, recur: string -> bool)
    requires 0 < n <= |devices|
    ensures DevicesEvents(devices[..n], now, parse, recur) ==
      ForSchedules(devices[0], SchedulesOf(devices[0]), now, parse, recur).events + DevicesEvents(devices[1..][..n - 1], now, parse, recur)
  {
    assert devices[..n][0] == devices[0] && devices[..n][1..] == devices[1..][..n - 1];
  }

  /** `p` on the first `n` elements is `p` on the first one and on the
      next `n - 1`. */
  lemma EveryPrefix<X>(p: X -> bool, xs: seq<X>, n: nat)
    requires 0 < n <= |xs| && Every(p, xs[..n])
    ensures p(xs[0]) && Every(p, xs[1..][..n - 1])
  {
    assert xs[..n][0] == xs[0] && xs[..n][1..] == xs[1..][..n - 1];
  }

  /** One device more: one whose schedules do not build ends the category
      with their events so far; any other puts its events in front. */
  lemma ForDevicesStep(devices: seq<Json>, now: int, parse: string -> Option<nat>, recur: string -> bool)
    requires devices != []
    ensures var first := ForSchedules(devices[0], SchedulesOf(devices[0]), now, parse, recur);
      var built := ForDevices(devices, now, parse, recur);
      if DeviceBuilds(devices[0], now, parse, recur) then
        var rest := ForDevices(devices[1..], now, parse, recur);
        built == Built(first.events + rest.events, rest.error)
      else built.error.Some? && built.events == first.events
  {
    var device := devices[0];
    match Get(device, "schedules", Array([]))
    case Raise(_) =>
      assert SchedulesOf(device) == [];
    case Ok(schedules) =>
      match Iterate(schedules)
      case Raise(_) =>
        assert SchedulesOf(device) == [];
      case Ok(items) =>
        assert SchedulesOf(device) == items;
  }

  /** When the `n`-th device is the first whose schedules do not build, the
      category raises, keeping the events of every device before it and
      those its schedules built before the exception. */
  lemma {:induction false} ForDevicesKeeps(devices: seq<Json>, n: nat, now: int, parse: string -> Option<nat>, recur: string -> bool)
    requires n < |devices|
    requires Every(d => DeviceBuilds(d, now, parse, recur), devices[..n]) && !DeviceBuilds(devices[n], now, parse, recur)
    ensures ForDevices(devices, now, parse, recur).error.Some?
    ensures ForDevices(devices, now, parse, recur).events ==
      DevicesEvents(devices[..n], now, parse, recur) + ForSchedules(devices[n], SchedulesOf(devices[n]), now, parse, recur).events
  {
    var built := ForDevices(devices, now, parse, recur);
    var last := ForSchedules(devices[n], SchedulesOf(devices[n]), now, parse, recur).events;
    if n == 0 {
      assert built.error.Some? && built.events == last by {
        ForDevicesStep(devices, now, parse, recur);
      }
      assert devices[..0] == [];
    } else {
      var device := devices[0];
      var first := ForSchedules(device, SchedulesOf(device), now, parse, recur).events;
      var front := devices[1..][..n - 1];
      var rest := ForDevices(devices[1..], now, parse, recur);
      EveryPrefix(d => DeviceBuilds(d, now, parse, recur), devices, n);
      assert built == Built(first + rest.events, rest.error) by {
        ForDevicesStep(devices, now, parse, recur);
      }
      assert rest.error.Some? && rest.events == DevicesEvents(front, now, parse, recur) + last by {
        assert devices[1..][n - 1] == devices[n];
        ForDevicesKeeps(devices[1..], n - 1, now, parse, recur);
      }
      DevicesEventsPrefix(devices, n, now, parse, recur);
      Regroup(DevicesEvents(devices[..n], now, parse, recur), first, DevicesEvents(front, now, parse, recur), rest.events, last);
    }
  }

  /** A category whose devices build holds only dicts: `device.get` needs
      one. */
  lemma {:induction false} BuiltDevicesAreDicts(devices: seq<Json>, now: int, parse: string -> Option<nat>, recur: string -> bool)
    requires ForDevices(devices, now, parse, recur).error.None?
    ensures forall i :: 0 <= i < |devices| ==> devices[i].Object?
  {
    EveryAt(d => DeviceBuilds(d, now, parse, recur), devices);
    forall i | 0 <= i < |devices|
      ensures devices[i].Object?
    {
      assert DeviceBuilds(devices[i], now, parse, recur);
    }
  }

  /** Only walls, pluses and minis keep schedules. */
  predicate Scheduled(category: string)
  {
    category in ["wall", "plus", "mini"]
  }

  /** A category's devices build without an exception: the category can be
      iterated and every device's schedules build. */
  predicate CategoryBuilds(category: Field, now: int, parse: string -> Option<nat>, recur: string -> bool)
  {
    Iterate(category.val).Ok? && ForDevices(Iterate(category.val).value, now, parse, recur).error.None?
  }

  /** The events of the table's wall, plus and mini categories: a prefix of
      all their devices' events, and all of them when nothing raises, which
      is exactly when every such category builds. */
  function ForTable(table: seq<Field>, now: int, parse: string -> Option<nat>, recur: string -> bool): (r: Built)
    ensures r.events <= TableEvents(ScheduledPart(table), now, parse, recur)
    ensures r.error.None? ==> r.events == TableEvents(ScheduledPart(table), now, parse, recur)
  {
    if table == [] then Built([], None)
    else if !Scheduled(table[0].key) then
      assert ScheduledPart(table) == ScheduledPart(table[1..]);
      ForTable(table[1..], now, parse, recur)
    else
      assert ScheduledPart(table) == [table[0]] + ScheduledPart(table[1..]);
      assert ([table[0]] + ScheduledPart(table[1..]))[1..] == ScheduledPart(table[1..]);
      match Iterate(table[0].val)
      case Raise(e) => Built([], Some(e))
      case Ok(devices) =>
        var first := ForDevices(devices, now, parse, recur);
        TableEventsScheduled(table, now, parse, recur);
        var mine := DevicesEvents(devices, now, parse, recur);
        var all := TableEvents(ScheduledPart(table[1..]), now, parse, recur);
        if first.error.Some? then
          PrefixExtend(first.events, mine, all);
          first
        else
          var rest := ForTable(table[1..], now, parse, recur);
          PrefixAppend(mine, rest.events, all);
          Built(first.events + rest.events, rest.error)
  }

  /** The scheduled part of a table that starts with a scheduled category
      starts with that category's devices' events. */
  lemma TableEventsScheduled(table: seq<Field>, now: int, parse: string -> Option<nat>, recur: string -> bool)
    requires table != [] && Scheduled(table[0].key)
    ensures TableEvents(ScheduledPart(table), now, parse, recur) ==
      DevicesEvents(ItemsOf(table[0].val), now, parse, recur) + TableEvents(ScheduledPart(table[1..]), now, parse, recur)
  {
    var part := ScheduledPart(table);
    assert part == [table[0]] + ScheduledPart(table[1..]);
    assert part[0] == table[0] && part[1..] == ScheduledPart(table[1..]);
  }

  /** One scheduled category more: one that does not build ends the table
      with its devices' events so far; any other puts all its devices'
      events in front. */
  lemma ForTableStep(table: seq<Field>, now: int, parse: string -> Option<nat>, recur: string -> bool)
    requires table != [] && Scheduled(table[0].key)
    ensures var built := ForTable(table, now, parse, recur);
      if CategoryBuilds(table[0], now, parse, recur) then
        var rest := ForTable(table[1..], now, parse, recur);
        built == Built(DevicesEvents(ItemsOf(table[0].val), now, parse, recur) + rest.events, rest.error)
      else built.error.Some? && built.events == ForDevices(ItemsOf(table[0].val), now, parse, recur).events
  {
    match Iterate(table[0].val)
    case Raise(_) =>
      assert ItemsOf(table[0].val) == [];
    case Ok(devices) =>
      assert ItemsOf(table[0].val) == devices;
  }

  /** The table raises nothing exactly when every wall, plus and mini
      category builds. */
  lemma {:induction false} ForTableBuilds(table: seq<Field>, now: int, parse: string -> Option<nat>, recur: string -> bool)
    ensures ForTable(table, now, parse, recur).error.None? <==> Every(f => CategoryBuilds(f, now, parse, recur), ScheduledPart(table))
    decreases |table|
  {
    if table != [] {
      ForTableBuilds(table[1..], now, parse, recur);
      if !Scheduled(table[0].key) {
        assert ScheduledPart(table) == ScheduledPart(table[1..]);
        assert ForTable(table, now, parse, recur) == ForTable(table[1..], now, parse, recur);
      } else {
        var part := ScheduledPart(table);
        assert part == [table[0]] + ScheduledPart(table[1..]);
        assert part[0] == table[0] && part[1..] == ScheduledPart(table[1..]);
        ForTableStep(table, now, parse, recur);
      }
    }
  }

  /** The events of the first `n` scheduled categories are those of the
      first category's devices followed by those of the next `n - 1`. */
  lemma TableEventsPrefix(part: seq<Field>, n: nat, now: int, parse: string -> Option<nat>, recur: string -> bool)
    requires 0 < n <= |part|
    ensures TableEvents(part[..n], now, parse, recur) ==
      DevicesEvents(ItemsOf(part[0].val), now, parse, recur) + TableEvents(part[1..][..n - 1], now, parse, recur)
  {
    assert part[..n][0] == part[0] && part[..n][1..] == part[1..][..n - 1];
  }

  /** When the `n`-th wall, plus or mini category is the first that does not
      build, the table raises, keeping the events of every such category
      before it and those its devices built before the exception. */
  lemma {:induction false} ForTableKeeps(table: seq<Field>, n: nat, now: int, parse: string -> Option<nat>, recur: string -> bool)
    requires n < |ScheduledPart(table)|
    requires Every(f => CategoryBuilds(f, now, parse, recur), ScheduledPart(table)[..n])
    requires !CategoryBuilds(ScheduledPart(table)[n], now, parse, recur)
    ensures ForTable(table, now, parse, recur).error.Some?
    ensures ForTable(table, now, parse, recur).events ==
      TableEvents(ScheduledPart(table)[..n], now, parse, recur) +
      ForDevices(ItemsOf(ScheduledPart(table)[n].val), now, parse, recur).events
    decreases |table|
  {
    var part := ScheduledPart(table);
    var built := ForTable(table, now, parse, recur);
    var last := ForDevices(ItemsOf(part[n].val), now, parse, recur).events;
    if !Scheduled(table[0].key) {
      assert part == ScheduledPart(table[1..]);
      assert built == ForTable(table[1..], now, parse, recur);
      ForTableKeeps(table[1..], n, now, parse, recur);
    } else {
      assert part == [table[0]] + ScheduledPart(table[1..]);
      assert part[0] == table[0] && part[1..] == ScheduledPart(table[1..]);
      if n == 0 {
        assert built.error.Some? && built.events == last by {
          ForTableStep(table, now, parse, recur);
        }
        assert part[..0] == [];
      } else {
        var first := DevicesEvents(ItemsOf(table[0].val), now, parse, recur);
        var front := part[1..][..n - 1];
        var rest := ForTable(table[1..], now, parse, recur);
        EveryPrefix(f => CategoryBuilds(f, now, parse, recur), part, n);
        assert built == Built(first + rest.events, rest.error) by {
          ForTableStep(table, now, parse, recur);
        }
        assert rest.error.Some? && rest.events == TableEvents(front, now, parse, recur) + last by {
          assert part[1..][n - 1] == part[n];
          ForTableKeeps(table[1..], n - 1, now, parse, recur);
        }
        TableEventsPrefix(part, n, now, parse, recur);
        Regroup(TableEvents(part[..n], now, parse, recur), first, TableEvents(front, now, parse, recur), rest.events, last);
      }
    }
  }

  lemma PrefixExtend<T>(a: seq<T>, b: seq<T>, c: seq<T>)
    requires a <= b
    ensures a <= b + c
  {
    assert (b + c)[..|a|] == b[..|a|];
  }

  lemma PrefixAppend<T>(a: seq<T>, b: seq<T>, c: seq<T>)
    requires b <= c
    ensures a + b <= a + c
  {
    assert (a + c)[..|a + b|] == a + c[..|b|];
  }

  /** The events of the coordinator's table; the table's `.items()` needs a
      dict. The calendar receives the events of the wall, plus and mini
      devices' schedules, category by category and device by device, up to
      the first exception, and all of them when there is none. */
  function CalendarEvents(devices: Json, now: int, parse: string -> Option<nat>, recur: string -> bool): (r: Built)
    ensures !devices.Object? ==> r == Built([], Some(AttributeError))
    ensures devices.Object? ==> r.events <= TableEvents(ScheduledPart(devices.fields), now, parse, recur)
    ensures r.error.None? ==> devices.Object? && r.events == TableEvents(ScheduledPart(devices.fields), now, parse, recur)
    ensures r.error.None? <==>
      devices.Object? && Every(f => CategoryBuilds(f, now, parse, recur), ScheduledPart(devices.fields))
  {
    if devices.Object? then
      ForTableBuilds(devices.fields, now, parse, recur);
      ForTable(devices.fields, now, parse, recur)
    else Built([], Some(AttributeError))
  }

  /** The categories that keep schedules, in order. */
  function ScheduledPart(table: seq<Field>): (r: seq<Field>)
    ensures forall f :: f in r <==> f in table && Scheduled(f.key)
    ensures |r| <= |table|
  {
    if table == [] then []
    else (if Scheduled(table[0].key) then [table[0]] else []) + ScheduledPart(table[1..])
  }

  /** The categories keep their order: the part of two tables one after the
      other is the part of the first, then that of the second. */
  lemma {:induction false} ScheduledPartConcat(a: seq<Field>, b: seq<Field>)
    ensures ScheduledPart(a + b) == ScheduledPart(a) + ScheduledPart(b)
  {
    if a != [] {
      assert (a + b)[0] == a[0] && (a + b)[1..] == a[1..] + b;
      ScheduledPartConcat(a[1..], b);
    } else {
      assert a + b == b;
    }
  }

  /** Other categories are never looked at: the calendar is that of the
      scheduled categories alone, and a table without them gives an empty
      calendar. */
  lemma {:induction false} OtherCategoriesIgnored(table: seq<Field>, now: int, parse: string -> Option<nat>, recur: string -> bool)
    ensures ForTable(table, now, parse, recur) == ForTable(ScheduledPart(table), now, parse, recur)
    ensures ScheduledPart(table) == [] ==> ForTable(table, now, parse, recur) == Built([], None)
  {
    if table != [] {
      OtherCategoriesIgnored(table[1..], now, parse, recur);
      var part := ScheduledPart(table);
      if Scheduled(table[0].key) {
        assert part == [table[0]] + ScheduledPart(table[1..]);
        assert part[0] == table[0] && part[1..] == ScheduledPart(table[1..]);
        assert ForTable(part[1..], now, parse, recur) == ForTable(table[1..], now, parse, recur);
        SameHead(part, table, now, parse, recur);
      } else {
        assert part == ScheduledPart(table[1..]);
        assert ForTable(table, now, parse, recur) == ForTable(table[1..], now, parse, recur);
      }
    }
  }

  /** Two tables that start with the same scheduled category and whose
      rests give the same events give the same events. */
  lemma SameHead(a: seq<Field>, b: seq<Field>, now: int, parse: string -> Option<nat>, recur: string -> bool)
    requires a != [] && b != [] && a[0] == b[0] && Scheduled(a[0].key)
    requires ForTable(a[1..], now, parse, recur) == ForTable(b[1..], now, parse, recur)
    ensures ForTable(a, now, parse, recur) == ForTable(b, now, parse, recur)
  {
  }

  class PuraCalendar {
    /** `self._calendar`: None until the first coordinator update. */
    var calendar: Option<seq<CalEvent>>
    /** `{entry_id}-schedule`. */
    const uniqueId: string

    constructor(entryId: string)
      ensures calendar == None && uniqueId == entryId + "-schedule"
    {
      calendar := None;
      uniqueId := entryId + "-schedule";
    }

    /** `_handle_coordinator_update`: a new calendar replaces the old one and
        receives the events as they are built; an exception stops the
        building and is passed on. */
    method HandleCoordinatorUpdate(devices: Json, now: int, parse: string -> Option<nat>, recur: string -> bool) returns (error: Option<Exc>)
      modifies this
      ensures calendar == Some(CalendarEvents(devices, now, parse, recur).events)
      ensures error == CalendarEvents(devices, now, parse, recur).error
    {
      var built := CalendarEvents(devices, now, parse, recur);
      calendar := Some(built.events);
      error := built.error;
    }

    /** `event`: the next event the timeline of the calendar gives, and None
        before a calendar is built. `activeAfter` is the `ical` timeline's
        `active_after(now)`, which is not part of this model. */
    function UpcomingEvent(activeAfter: seq<CalEvent> -> Option<CalEvent>): (r: Option<CalEvent>)
      reads this
      ensures calendar.None? ==> r.None?
      ensures calendar.Some? ==> r == activeAfter(calendar.value)
    {
      if calendar.None? then None else activeAfter(calendar.value)
    }

    /** `async_get_events`: the events the timeline gives for the window, and
        none before a calendar is built. */
    function GetEvents(overlapping: seq<CalEvent> -> seq<CalEvent>): (r: seq<CalEvent>)
      reads this
      ensures calendar.None? ==> r == []
      ensures calendar.Some? ==> r == overlapping(calendar.value)
    {
      if calendar.None? then [] else overlapping(calendar.value)
    }
  }
}
