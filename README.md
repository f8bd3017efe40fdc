# Pura diffuser integration, modelled in Dafny

This project models the logic of the Pura smart-fragrance integration for
Home Assistant. The integration keeps a table of device records per category
("wall", "plus", "mini", "car"). It reconciles that table with polls and
pushed messages, derives entity states from the records, and turns user
actions into vendor API calls, or into named errors when an action is refused.

What the model covers:

- **JSON records.** The records are JSON-like values (`PyJson.Json`). Dicts are ordered association lists, so key order behaves as in Python. A Python exception is a `Raise` result (`PyJson.Py`), so every projection is total and raises where the modelled Python code raises; the exceptions of outside code are those its parameter lets through (see "## Left out").
- **Vendor calls.** A call to the vendor client is a `Call`: the method name, the device id and the keyword arguments. What the host does with the call's reply is a `Command`, which records whether a refresh was requested.
- **Values from outside.** The clock, the vendor's replies, the time-of-day parser, the recurrence-rule parser and the calendar timeline all come from outside the integration. They are parameters of the model.

Files and modules:

| file | module | source |
|---|---|---|
| `text.dfy` | `Text` | string helpers (digits, split, join, case) |
| `pyjson.dfy` | `PyJson` | Python dict/list semantics: truthiness, `==`, indexing, `get`, `str` |
| `helpers.dfy` | `Helpers` | `helpers.py` |
| `coordinator.dfy` | `Coordinator` | `coordinator.py` (device table, poll, push) |
| `firmware.dfy` | `Firmware` | the firmware `key=value` parser of `coordinator.py` and `update.py` |
| `entity.dfy` | `Entity` | `entity.py` and the entity-list comprehensions of the platforms |
| `select.dfy` | `Select` | `select.py` |
| `services.dfy` | `Services` | `services.py` |
| `sensor.dfy` | `Sensor` | `sensor.py` |
| `light.dfy` | `Light` | `light.py` |
| `switch.dfy` | `Switch` | `switch.py` |
| `number.dfy` | `Intensity` | `number.py` |
| `calendar.dfy` | `Calendar` | `calendar.py` |
| `update.dfy` | `Update` | `update.py` |

The code changes state in three places, and the model follows it with classes:

- `Coordinator.PuraCoordinator` holds the device table and the tables it has published.
- `Calendar.PuraCalendar` holds the calendar built from the schedules.
- `Update.PuraUpdateEntity` holds the latest firmware version.

`deep_merge` and `first_key_value` are loops in the source and are methods
here, each proved against a specification function. The push handler's search
for the matched wall record is also a loop. So are `start_timer`'s loop over
the targeted devices and the lookup of a schedule by number.

## Model

| member | source | states |
|---|---|---|
| Helpers.Merge | custom_components/pura/helpers.py:14-26 | merging into a dict with distinct keys keeps its keys distinct |
| Helpers.Step | custom_components/pura/helpers.py:16-24 | one loop iteration keeps the keys distinct |
| Helpers.DeepMerge | custom_components/pura/helpers.py:14-26 | the in-place loop over the patch entries leaves exactly the dict `Merge` describes |
| Helpers.MergeOutside | custom_components/pura/helpers.py:16-24 | a target key the patch does not mention keeps its value (and `fragrance` does too when the patch has no `code`) |
| Helpers.MergeAt | custom_components/pura/helpers.py:16-22 | every patch key ends up with its updated value: dict into dict recursively merged, otherwise the patch value, even a falsy one |
| Helpers.MergeAtEqual | custom_components/pura/helpers.py:19-22 | a non-dict patch value (or a dict over a non-dict) sits at its key after the merge, equal to the patch value |
| Helpers.MergeFragrance | custom_components/pura/helpers.py:23-24 | `fragrance` is removed only when an existing `code` changes to a falsy value; a newly added falsy `code` removes nothing |
| Helpers.MergeContained | custom_components/pura/helpers.py:16-26 | a patch already contained in the target (equal leaves, contained sub-dicts) returns the target unchanged |
| Helpers.MergeContains | custom_components/pura/helpers.py:16-22 | after the merge the target contains the patch, when no level of the patch carries both `code` and `fragrance` |
| Helpers.MergeIdempotent | custom_components/pura/helpers.py:14-26 | under the same condition, merging the same patch twice equals merging once |
| Helpers.MergeNotIdempotent | custom_components/pura/helpers.py:23-24 | a patch with `fragrance` and then a falsy `code` is not idempotent: the second merge puts the fragrance back |
| Helpers.FirstKeyValue | custom_components/pura/helpers.py:37-44 | the value of the first listed key the dict holds, or the default when it holds none |
| Helpers.FragranceName | custom_components/pura/helpers.py:47-52 | every case: a non-dict record raises TypeError, a missing bay KeyError, a bay that is not a dict AttributeError; a truthy fragrance holding "name" gives that name (TypeError when it is not a dict); a falsy fragrance or one without "name" gives "Fragrance: " and the bay's code; a fragrance `in` cannot search raises TypeError |
| Helpers.Truncate | custom_components/pura/helpers.py:74 | `int()` of a real: truncation towards zero on both signs |
| Helpers.Elapsed | custom_components/pura/helpers.py:73-74 | `wearingTime` plus the seconds since `activeAt` truncated towards zero; TypeError unless both are numbers |
| Helpers.FragranceRuntime | custom_components/pura/helpers.py:68-75 | the stored `wearingTime`, plus the whole seconds since `activeAt` exactly when the bay is active and `lastConnectedAt` is falsy; it succeeds exactly when the bay, its `wearingTime` and `activeAt`, the record's `lastConnectedAt` for an active bay, and numeric times where they are added are all present; a missing bay raises KeyError |
| Helpers.RemainingPercent | custom_components/pura/helpers.py:61-64 | for a positive life: within [0, 100] for a non-negative runtime, 100 at runtime 0, 0 once the runtime reaches the life |
| Helpers.RemainingPercentMonotone | custom_components/pura/helpers.py:61-64 | more runtime never leaves more fragrance |
| Helpers.FragranceRemaining | custom_components/pura/helpers.py:55-65 | a missing bay raises KeyError; a `remaining` dict with `percent` always gives that stored value; with no stored percentage, no fragrance or a fragrance without `expectedLifeHours` gives no estimate, and otherwise the result is the remaining share of the expected life after the runtime, or the exception computing it raises |
| Helpers.LifeRemaining | custom_components/pura/helpers.py:60-64 | succeeds exactly when the runtime can be read, the expected life and the runtime are numbers and the life is not 0, and then gives the remaining share of `hours * 3600` after the runtime; a zero life raises ZeroDivisionError |
| Helpers.FragranceRemainingBounds | custom_components/pura/helpers.py:60-64 | a computed share for a positive expected life is at least 0, and at most 100 when the runtime is not negative |
| Helpers.GetDeviceId | custom_components/pura/helpers.py:78-80 | the record's `deviceId`; KeyError when it has none |
| Helpers.HasFragrance | custom_components/pura/helpers.py:83-85 | true exactly when the bay record exists, is truthy and has a truthy `code` |
| Helpers.ParseIntensity | custom_components/pura/helpers.py:88-101 | ints below 4 give "subtle", 4 to 7 "medium", 8 and above "strong"; another value is returned, or "off" when falsy |
| Helpers.ParseIntensityMonotone | custom_components/pura/helpers.py:95-100 | a larger int never lands in a weaker bucket |
| Helpers.ParseIntensityIdempotent | custom_components/pura/helpers.py:88-101 | parsing a parsed intensity changes nothing |
| Coordinator.FindFrom | custom_components/pura/coordinator.py:61-62 | the index of the first record whose `deviceId` equals the target, every earlier one differing; None only when every record differs; never raises when the target is given and every record is a dict with a `deviceId` |
| Coordinator.FirstMatch | custom_components/pura/coordinator.py:61-62 | the loop over the wall records stops at the first with the target id, with the same result and the same exception as the search it implements |
| Coordinator.Locate | custom_components/pura/coordinator.py:59-62 | a message that is not a dict raises AttributeError; a record found is a wall dict whose `deviceId` equals the message's, with none before it; None only when no wall record has that id; a message with an id never fails on a list of records with ids |
| Coordinator.LocateTargets | custom_components/pura/coordinator.py:61-90 | the record a message targets is found, and the message's effect is the change the handler makes to it |
| Coordinator.PatchRecord | custom_components/pura/coordinator.py:64-85 | the handler's branches on the matched record give the merged record, the new `timer` entry, nothing, or AttributeError for a non-dict `deviceRecord` |
| Coordinator.FindDevice | custom_components/pura/coordinator.py:46-55 | the first record of the category with that id, else None only when every record differs; a category the table lacks raises KeyError, and a list or dict category, being unhashable, raises TypeError; on a list of records with ids the lookup succeeds, and finds a record whenever one has the id |
| Coordinator.ApplyNeedsWall | custom_components/pura/coordinator.py:61 | a table without a wall category raises KeyError on every message |
| Coordinator.ApplyUnmatched | custom_components/pura/coordinator.py:61-90 | a message matching no wall record changes nothing and is not handled |
| Coordinator.ApplyModifyDevice | custom_components/pura/coordinator.py:65-67 | MODIFY of a DEVICE merges `deviceRecord` into the matched record only; a non-dict record raises AttributeError |
| Coordinator.ApplyTimerRemove | custom_components/pura/coordinator.py:77-81 | REMOVE of a TIMER sets the matched record's `timer` to None |
| Coordinator.ApplyTimerSet | custom_components/pura/coordinator.py:82-85 | INSERT or MODIFY of a TIMER sets `timer` to the message's `timerRecord`, or None when absent |
| Coordinator.ApplyIgnored | custom_components/pura/coordinator.py:63-90 | any other event and record type is not handled and changes nothing |
| Coordinator.ApplyChangesOneRecord | custom_components/pura/coordinator.py:57-90 | a handled message replaces only the matched wall record; every other category is unchanged |
| Coordinator.PuraCoordinator.constructor | custom_components/pura/coordinator.py:28-31 | the table starts empty and nothing is published |
| Coordinator.PuraCoordinator.GetDevice | custom_components/pura/coordinator.py:46-55 | the same lookup on the coordinator's own table: the first record with the id, None only when none has it, success on a list of records with ids and a found record whenever one has the id; a missing category, or a None, boolean or integer one, raises KeyError, and a list or dict category, being unhashable, raises TypeError |
| Coordinator.PuraCoordinator.UpdateData | custom_components/pura/coordinator.py:92-110 | a non-empty fetch replaces the table, an empty one keeps it, a failed one raises UpdateFailed and keeps it |
| Coordinator.PuraCoordinator.HandleMessage | custom_components/pura/coordinator.py:57-90 | the new table is the one `ApplyMessage` gives, and it is published exactly when the message was handled |
| Firmware.LineKeyOf | custom_components/pura/coordinator.py:134 | a line's key is the lower-cased text before its first `=` and its value everything after it, later `=` included |
| Firmware.LineKeyNoCapitals | custom_components/pura/coordinator.py:134 | a line's key has no capital letters |
| Firmware.ParseLines | custom_components/pura/coordinator.py:133-136 | succeeds exactly when every line has an `=` (IndexError otherwise); keys are distinct and lower-case, values are strings |
| Firmware.ParseKeys | custom_components/pura/coordinator.py:133-136 | a key is in the dict exactly when some line carries it |
| Firmware.LineKeys | custom_components/pura/coordinator.py:133-136 | one key per line, in the order of the lines |
| Firmware.ParseLastWins | custom_components/pura/coordinator.py:133-136 | a key holds the value of the last line carrying it; values keep any later `=` |
| Firmware.TrailingNewlineFails | custom_components/pura/coordinator.py:135 | a text ending in a newline has an empty last line and always raises |
| Firmware.ParseRender | custom_components/pura/update.py:84-87 | a dict written out as `key=value` lines parses back to the same dict |
| Firmware.LatestVersion | custom_components/pura/update.py:88-90 | "major.minor.patch" from the parsed dict, exactly when all three parts are present strings; KeyError for the first missing part in the order major, minor, patch; TypeError for a non-string part |
| Firmware.VersionParts | custom_components/pura/update.py:88-90 | parts without a dot are recovered by splitting the version at its dots |
| Firmware.CarFirmwareUpdate | custom_components/pura/coordinator.py:127-141 | the parsed details when every line has an `=`; any failure raises UpdateFailed |
| Entity.ModelName | custom_components/pura/entity.py:20-25 | the model map: 1 to Wall, 2 and "car" to Car, 3 to Plus, 4 to Mini, anything else unchanged; a dict or list raises TypeError |
| Entity.Major | custom_components/pura/entity.py:26 | the text before the first `.`, the whole text when it has none |
| Entity.DeterminePuraModel | custom_components/pura/entity.py:23-28 | "Pura " and the mapped model; a wall with hardware major "1" or "2", or with no `hwVersion`, is "Pura 3", another major is "Pura {major}" |
| Entity.WallMajor | custom_components/pura/entity.py:26-27 | a wall's major is the text before the first `.` of its hardware version |
| Entity.HasFragrance | custom_components/pura/entity.py:31-33 | plain truthiness of the bay record; a missing bay raises KeyError |
| Entity.HasFragranceWeaker | custom_components/pura/entity.py:31-33 | whatever the helpers' test accepts, the entities' test accepts |
| Entity.HasFragranceWithoutCode | custom_components/pura/entity.py:31-33 | a bay record with an empty code counts for the entities but not for the helpers |
| Entity.UniqueId | custom_components/pura/entity.py:53 | the device id, a `-`, then the description key |
| Entity.UniqueIdPerKey | custom_components/pura/entity.py:53 | two descriptions of one device never share a unique id |
| Entity.UniqueIdInjective | custom_components/pura/entity.py:53 | for device ids without `-`, the unique id determines both device and key |
| Entity.ScheduleMatch | custom_components/pura/entity.py:85-88 | the first schedule whose `str(number)` is the controller, every earlier one carrying another number; None only when every one carries another; never raises when every schedule has a `number` |
| Entity.FindSchedule | custom_components/pura/entity.py:85-88 | the schedule search loop, with early exit, gives the match `ScheduleMatch` describes |
| Entity.MatchedSchedule | custom_components/pura/entity.py:85-88 | a non-numeric controller matches no schedule; a match is the first schedule numbered by the controller; None for a numeric controller only when every schedule carries another number; succeeds on a list of numbered schedules |
| Entity.ResolvedBay | custom_components/pura/entity.py:89-93 | 1 exactly when bay1 is truthy and active, 2 exactly when bay1 is not and bay2 is, else 0 |
| Entity.DefaultOf | custom_components/pura/entity.py:94 | the device default `bay{bay}Intensity`, found exactly when the defaults are a dict holding that key; missing defaults raise KeyError |
| Entity.DefaultIntensity | custom_components/pura/entity.py:89-95 | the resolved bay, `str(controller)`, and the bay's default intensity, or None for bay 0; succeeds exactly when the bay resolves and, for a non-zero bay, the default is present |
| Entity.IntensityData | custom_components/pura/entity.py:79-95 | the timer record with controller "timer", found exactly when the timer is a dict; a matching numeric schedule with controller "schedule"; otherwise the default branch; an exception of the schedule search propagates; a missing controller raises KeyError, a non-text one AttributeError |
| Entity.IntensityNonNumeric | custom_components/pura/entity.py:85-95 | a controller that is neither "timer" nor numeric always takes the default branch |
| Entity.ForDescriptions | custom_components/pura/sensor.py:248-259 | one entity per description for a device with an id, in order; a device without an id raises |
| Entity.ForDevices | custom_components/pura/sensor.py:256-259 | one entity per device and description, device by device |
| Entity.ForCategories | custom_components/pura/sensor.py:255-259 | the entities of one description group: only categories in the group, each device with each key |
| Entity.Entities | custom_components/pura/sensor.py:248-260 | every entity's category is in its description's group, and every (group, device, key) gets its entity |
| Entity.KeysFor | custom_components/pura/sensor.py:255-259 | a key is made for a category exactly when a group holding the category lists it |
| Select.IntensityLevel | custom_components/pura/select.py:28 | subtle, medium and strong map to 3, 6 and 10; another option raises KeyError |
| Select.IntensityLevelsIncrease | custom_components/pura/select.py:28 | the levels increase from subtle to strong |
| Select.FragranceCurrent | custom_components/pura/select.py:89 | "off" exactly when the bay is 0, else "slot_" and the bay |
| Select.FragranceOptions | custom_components/pura/select.py:90-91 | "off" first, then "slot_1" and "slot_2" in order, each present exactly when its bay is truthy |
| Select.IntensityCurrent | custom_components/pura/select.py:102 | the intensity when truthy, else "off" |
| Select.SlotBay | custom_components/pura/select.py:95 | `int(option.replace("slot_", ""))`: a non-negative bay, or ValueError |
| Select.SlotBayOfShown | custom_components/pura/select.py:89-95 | reading back a shown "slot_n" gives n |
| Select.FragranceRoundTrip | custom_components/pura/select.py:89-95 | the current option of a non-zero bay reads back as that bay |
| Select.IntensityCall | custom_components/pura/select.py:104-115 | `set_intensity` on the intensity data's bay, with a schedule's number as controller, at the option's level; it succeeds exactly when the bay, the controller, the number for a schedule, and a known option are there |
| Select.SelectCall | custom_components/pura/select.py:92-115 | the fragrance select sets the option's bay always on, succeeding exactly when the option names a number; the intensity select sets the mapped intensity, succeeding exactly when the intensity data and its call do |
| Select.SelectOption | custom_components/pura/select.py:138-154 | "off" always stops all, even in away mode; another option raises `away_mode_active` in away mode, `no_active_fragrance` for a falsy bay, and otherwise issues the select's call; a refresh follows exactly a truthy reply |
| Select.NoSlotZero | custom_components/pura/select.py:147-151 | choosing "slot_0" raises `no_active_fragrance` |
| Select.FragranceBays | custom_components/pura/select.py:161 | the bays 1 and 2 whose record is truthy, in order; succeeds exactly when the device is a dict with both bay records; a non-dict raises TypeError, a missing `bay1` KeyError for it, then a missing `bay2` KeyError for that |
| Select.TimerSlot | custom_components/pura/select.py:161-177 | the exception of the bay list comprehension is passed on; no bays raises `no_fragrances_installed`; an explicit slot must be a bay; with no slot, the single bay, or the bay with the smaller-or-equal `wearingTime`, ties going to 1, succeeding with two bays exactly when both runtimes are present and comparable |
| Select.StartTimer | custom_components/pura/select.py:156-188 | `set_timer` on the chosen slot, with the intensity and duration as given, else the slot's error |
| Services.FindIn | custom_components/pura/services.py:81 | the first record with the serial, in the first category that holds it, every earlier category lacking it; None only when no category holds it; never raises when every category is a list of records with ids |
| Services.DeviceById | custom_components/pura/services.py:81 | the corrected lookup: a table that is not a dict raises AttributeError, otherwise the category-by-category search for the serial |
| Services.Resolve | custom_components/pura/services.py:81 | as written, KeyError(None) on any table of categories; corrected, the search for the serial |
| Services.AsWrittenLookupFails | custom_components/pura/services.py:81 | `get_device(None, serial)` raises KeyError(None) on any table |
| Services.ByIdentifierFinds | custom_components/pura/services.py:81 | a record the corrected lookup finds carries the serial; on a table of lists of records with ids, a serial some category holds is found |
| Services.RemainingValue | custom_components/pura/services.py:99-100 | `fragrance_remaining(...) or 0`: a computed share, a stored number, or 0 for None and falsy values |
| Services.AutoSlot | custom_components/pura/services.py:99-106 | more fragrance left wins; on a tie the smaller-or-equal runtime wins, ties going to 1; once both remaining values and, on a tie, both runtimes and their comparison succeed, the slot is chosen |
| Services.TimerBays | custom_components/pura/services.py:90 | the bays 1 and 2 that pass the helpers' fragrance test, in order |
| Services.ChooseSlot | custom_components/pura/services.py:95-112 | a named slot is taken only when it holds a fragrance, else `fragrance_slot_empty` with the slot; with none named, the only fragrance bay, or the automatic choice between two |
| Services.TimerCall | custom_components/pura/services.py:83-121 | a record that is not a dict raises TypeError, one without `deviceType` KeyError; a call is a `set_timer` for a device that is no car, with intensity and duration as given (the full contract is `TimerCallSpec`) |
| Services.TimerCallSpec | custom_components/pura/services.py:83-121 | a car raises `invalid_device` with its name, no bays raises `no_fragrances_installed`, an explicit empty slot raises `fragrance_slot_empty`; once the slot and the device id are read the call is `set_timer` on that id and slot with intensity and duration unchanged |
| Services.Step | custom_components/pura/services.py:80-121 | one pass of the loop: as written KeyError(None); a failed lookup's exception propagates; corrected, a call goes under the id of the record with the targeted serial |
| Services.Steps | custom_components/pura/services.py:80-121 | one outcome per target, in order, each that target's pass of the loop on its coordinator's table |
| Services.IssuedUpTo | custom_components/pura/services.py:80-121 | the calls issued for the first n targets, one per target unless an error stopped the loop |
| Services.IssuedNext | custom_components/pura/services.py:80-121 | one more target adds its call or ends the loop with its error |
| Services.ErrorStops | custom_components/pura/services.py:80-121 | after an error no later target adds a call |
| Services.IssuedEach | custom_components/pura/services.py:80-121 | without an error the i-th call is the i-th target's |
| Services.TimerOutcome | custom_components/pura/services.py:69-125 | no targets raises `no_devices_found`; success issues one call per target and refreshes each coordinator; an error refreshes none |
| Services.AsWrittenNeverIssues | custom_components/pura/services.py:81 | as written, the service raises KeyError(None) on its first device before any call |
| Services.LookupFindingExample | custom_components/pura/services.py:81 | a wall with a fragrance: as written KeyError(None), corrected one `set_timer` and one refresh |
| Services.CorrectedIssuesEach | custom_components/pura/services.py:80-121 | with the corrected lookup, every call targets a record with that serial and a bay holding a fragrance |
| Services.RefreshedCoordinators | custom_components/pura/services.py:124-125 | each coordinator is refreshed once, however many of its devices are targeted |
| Services.StartTimer | custom_components/pura/services.py:69-125 | the loop over the targets gives the outcome `TimerOutcome` describes |
| Sensor.SensorFragranceRemaining | custom_components/pura/sensor.py:41-45 | always computed from the expected life and the runtime, without a stored percentage; with the bay's fragrance and `expectedLifeHours` present it is the shared life computation, otherwise it raises |
| Sensor.SensorRemainingBounds | custom_components/pura/sensor.py:41-45 | at least 0 for a positive expected life, at most 100 when the runtime is not negative |
| Sensor.SensorAgreesWithHelpers | custom_components/pura/sensor.py:41-55 | without a stored percentage the helpers compute the same share |
| Sensor.ActiveFragrance | custom_components/pura/sensor.py:114-120 | bay1's `fragrance.name` when bay1 is active, else bay2's when bay1 is idle and bay2 active, else "none" when both are idle; a missing bay1 raises KeyError |
| Sensor.ControllerState | custom_components/pura/sensor.py:214-216 | "schedule" for a numeric controller, the controller otherwise |
| Sensor.Instant | custom_components/pura/sensor.py:74 | a whole number of seconds is a timestamp; another value raises TypeError |
| Sensor.TimerState | custom_components/pura/sensor.py:222-224 | None without a timer or without a truthy `end`, else the `end` instant |
| Sensor.At2 | custom_components/pura/sensor.py:66 | `data[k1][k2]`: the value two levels down exactly when both levels are dicts holding the keys; TypeError for a non-dict level, KeyError for the first missing key |
| Sensor.At3 | custom_components/pura/sensor.py:84 | `data[k1][k2][k3]`: the value three levels down exactly when the third level is a dict with the key; the first two levels' exceptions propagate, then TypeError or KeyError at the third |
| Sensor.SensorValue | custom_components/pura/sensor.py:58-239 | the reading of each of the sixteen descriptions' `value_fn`, key by key: the bay 1 fan intensity, the `activeAt` and `id` instants, the fragrance names, remaining shares, runtimes, active fragrance, controller and timer; any other key raises KeyError |
| Sensor.CarRuntimeIsStored | custom_components/pura/sensor.py:106 | the car and mini runtime is the stored `wearingTime`, which equals the computed runtime of a bay that is not running unreported |
| Sensor.AvailabilityBay | custom_components/pura/sensor.py:58-239 | the descriptions without `available_fn` are exactly active_fragrance, controller and timer |
| Sensor.Available | custom_components/pura/sensor.py:273-278 | the description's fragrance test when it has one, else the base availability |
| Sensor.TextGroupsExact | custom_components/pura/sensor.py:59 | the bare-string groups "car" and "mini" hold exactly that category among the four |
| Sensor.CarSensors | custom_components/pura/sensor.py:248-260 | a car gets intensity, last active, fragrance, fragrance remaining and runtime, in that order |
| Sensor.MiniSensors | custom_components/pura/sensor.py:248-260 | a mini gets fragrance, fragrance remaining, runtime, controller, timer and the bay 1 installed date, in that order |
| Sensor.WallSensors | custom_components/pura/sensor.py:248-260 | walls and pluses get the same eleven sensors |
| Light.ScheduleNightlight | custom_components/pura/light.py:80-84 | the nightlight of the first schedule whose number is the numeric controller, else None; on a list of numbered schedules it is that schedule's `nightlight` entry, or None without a match |
| Light.NightlightData | custom_components/pura/light.py:75-87 | the matched schedule's nightlight when truthy, else the defaults' nightlight, with `controller` set to the controller's text; it succeeds exactly when that nightlight is a dict |
| Light.DefaultNightlight | custom_components/pura/light.py:86 | the device defaults' nightlight, found exactly when the defaults are a dict with `nightlight` |
| Light.NightlightNonNumeric | custom_components/pura/light.py:80-87 | a non-numeric controller always shows the default nightlight |
| Light.RoundHalfEven | custom_components/pura/light.py:68 | Python's `round` of a quotient: the nearest integer, halves to the even one |
| Light.Brightness | custom_components/pura/light.py:68 | `round(b / 10 * 255)`, within half a step of the exact value |
| Light.BrightnessTies | custom_components/pura/light.py:68 | the odd levels fall on halves and round to the even neighbour |
| Light.BrightnessBounds | custom_components/pura/light.py:62-68 | level 0 is 0, level 10 is 255, and every level in between lies in [0, 255] |
| Light.BrightnessMonotone | custom_components/pura/light.py:62-68 | a higher level is never shown dimmer |
| Light.DeviceBrightness | custom_components/pura/light.py:96 | never below 1, and at most 10 for a host brightness up to 255 |
| Light.DeviceBrightnessMonotone | custom_components/pura/light.py:96 | a brighter request never gives a lower level |
| Light.BrightnessRoundTrip | custom_components/pura/light.py:68-96 | setting the shown brightness of a level 1..10 gives that level back |
| Light.ShownBrightness | custom_components/pura/light.py:62-68 | the shown brightness of a numeric nightlight brightness |
| Light.IsOn | custom_components/pura/light.py:57-60 | the nightlight's `active` value, read exactly when the nightlight data holds `active` |
| Light.NightlightCall | custom_components/pura/light.py:102-109 | `set_nightlight` on the device id with the keywords active, brightness, colour and controller, each once, each holding its value |
| Light.TurnOn | custom_components/pura/light.py:89-112 | `set_nightlight` active, with a non-zero requested brightness converted, else the current one, and a new colour, else the current one; it succeeds exactly when the nightlight data holds brightness and colour |
| Light.TurnOff | custom_components/pura/light.py:114-128 | `set_nightlight` inactive with brightness, colour and controller unchanged; it succeeds exactly when the nightlight data holds brightness and colour |
| Light.OnOffDifferOnlyInActive | custom_components/pura/light.py:89-128 | turning on with nothing new and turning off differ only in `active` |
| Light.TurnOnKeepsController | custom_components/pura/light.py:109 | the controller sent is the device's controller as text |
| Switch.WallGroupExact | custom_components/pura/switch.py:44 | the bare-string group "wall" holds exactly the wall category |
| Switch.SwitchesPerCategory | custom_components/pura/switch.py:79-91 | a wall gets ambient and away mode, a plus or mini away mode, a car nothing |
| Switch.SwitchData | custom_components/pura/switch.py:111-114 | the device's lookup field, None when missing |
| Switch.IsOn | custom_components/pura/switch.py:106-109 | the `enabled` entry when the field is a dict, the field itself otherwise |
| Switch.LocationFields | custom_components/pura/switch.py:60-63 | only location keys, each an entry of the location |
| Switch.LocationFieldsSpec | custom_components/pura/switch.py:60-63 | looking a key up in the filtered location gives the location's value for radius, longitude and latitude and nothing for any other key |
| Switch.LocationFieldsUnique | custom_components/pura/switch.py:60-63 | the filtered location keeps the distinct keys of a dict |
| Switch.LocationFilter | custom_components/pura/switch.py:60-63 | a non-dict location raises AttributeError |
| Switch.TogglePayload | custom_components/pura/switch.py:44-67 | ambient sends exactly its value; away on sends true plus the location keys; away off sends only false |
| Switch.Toggle | custom_components/pura/switch.py:116-131 | without a `value` keyword TypeError; with one, the kind's vendor call with the payload, a refresh exactly on a truthy reply |
| Switch.FlipToggle | custom_components/pura/switch.py:106-131 | the corrected toggle: the exception of reading the state, else the toggle with the opposite of the current state |
| Switch.FlipToggleSpec | custom_components/pura/switch.py:106-131 | the corrected toggle asks for the opposite state, and turning a switch that is on off always goes through |
| Switch.ToggleServiceExample | custom_components/pura/switch.py:124-126 | away mode that is on: the host's toggle raises TypeError, the corrected one sends away_mode false |
| Switch.ToggleSendsValue | custom_components/pura/switch.py:44-67 | the first argument is the switch's key with the value; any other is a location key with the device's value |
| Switch.AwayOffAlwaysSent | custom_components/pura/switch.py:65-66 | turning away mode off never fails |
| Switch.KeywordsDistinct | custom_components/pura/switch.py:56-64 | the keyword arguments have distinct keys |
| Intensity.NumberPerCategory | custom_components/pura/number.py:29-39 | only walls get the intensity number |
| Intensity.ActiveIntensityData | custom_components/pura/number.py:59-66 | the active bay and intensity from `deviceActiveState`, and the controller as text |
| Intensity.NativeValue | custom_components/pura/number.py:54-57 | the active bay's intensity |
| Intensity.SetNativeValue | custom_components/pura/number.py:68-88 | "away" raises the away-mode error first, then a falsy bay raises the no-fragrance error; otherwise `set_intensity` with bay, controller and the value unchanged, refreshing exactly on a truthy reply |
| Intensity.AwayRefusesIntensity | custom_components/pura/number.py:72-73 | an away device refuses any value, whatever its bay |
| Intensity.SetSendsActiveBay | custom_components/pura/number.py:79-88 | a set sends the active bay, never 0, and the value asked for |
| Calendar.DayStart | custom_components/pura/calendar.py:121 | the start of the day `now` falls in |
| Calendar.TimeText | custom_components/pura/calendar.py:129 | a colon after the first two characters, the rest unchanged |
| Calendar.TimeTextParts | custom_components/pura/calendar.py:127-129 | an "HHMM" text splits at the colon back into "HH" and "MM" |
| Calendar.ParseTime | custom_components/pura/calendar.py:127-129 | the parser receives the first two characters, a colon and the rest (the whole text and a colon when it is shorter); an accepted time lies within the day |
| Calendar.ParseDatetime | custom_components/pura/calendar.py:117-124 | today at the parsed time, plus one day exactly when `disable_until` is truthy and the time is not after it |
| Calendar.ParseDatetimeBounds | custom_components/pura/calendar.py:121-124 | the start lies today or tomorrow, never later |
| Calendar.StartAfterDisable | custom_components/pura/calendar.py:122-123 | the start passes `disable_until` exactly when it is less than a day after today's time |
| Calendar.EnabledCodes | custom_components/pura/calendar.py:99 | every day with a truthy value contributes its code, at most one code of at most two letters per day; the order and exact list are `DayCodesFromKeys` |
| Calendar.DayCodesFrom | custom_components/pura/calendar.py:99 | the comprehension succeeds exactly when every item subscripts the days and every enabled item is a string, with at most one code per item |
| Calendar.DayCodesFromKeys | custom_components/pura/calendar.py:99 | iterating a days dict gives the enabled days' codes in key order |
| Calendar.DayCodes | custom_components/pura/calendar.py:99 | the codes of a days dict |
| Calendar.Rrule | custom_components/pura/calendar.py:98-100 | the rule splits at ";" into FREQ=WEEKLY, BYDAY= with the codes joined by commas, and INTERVAL=1; the codes split back from the commas |
| Calendar.DayCodesExample | custom_components/pura/calendar.py:98-100 | Monday and Wednesday enabled, Tuesday not: "MO,WE" in order |
| Calendar.Summary | custom_components/pura/calendar.py:91 | the schedule name, " - ", then the device's display name; it succeeds exactly when both names are present |
| Calendar.Span | custom_components/pura/calendar.py:92-93 | start and end, both by `_parse_datetime` with the schedule's `disableUntil`; it succeeds exactly when the three keys are present and both times parse |
| Calendar.Description | custom_components/pura/calendar.py:94-96 | "Fragrance slot {bay} ({that bay's fragrance name})\nIntensity {intensity}"; it succeeds exactly when the bay, its fragrance name as a string and the intensity are present |
| Calendar.ScheduleEvent | custom_components/pura/calendar.py:90-101 | an event is built exactly when summary, times, description, id and day codes are and `Recur.from_rrule` accepts the rule; a refused rule raises ValueError |
| Calendar.ScheduleEventSpec | custom_components/pura/calendar.py:90-101 | an event's summary, time span, description, uid (the schedule's id) and weekly rule, which the rule parser accepted |
| Calendar.Enabled | custom_components/pura/calendar.py:106 | only schedules whose `disableUntil` is not -1, in order |
| Calendar.ForSchedules | custom_components/pura/calendar.py:105-106 | the `k`-th event is the event of the `k`-th schedule that is not off; without an exception there is one per such schedule; with one, the events built so far are kept and the exception is that of the next such schedule, from its `disableUntil` or its event |
| Calendar.ForSchedulesBuilds | custom_components/pura/calendar.py:105-106 | a device's schedules raise nothing exactly when every schedule that is not off builds its event |
| Calendar.ForSchedulesSpec | custom_components/pura/calendar.py:105-106 | without an error, a device's events are the events of its enabled schedules, one each, in order |
| Calendar.ForSchedulesEach | custom_components/pura/calendar.py:105-106 | so the `k`-th event is the event of the `k`-th schedule that is not off |
| Calendar.ForDevices | custom_components/pura/calendar.py:104-106 | the events built are a prefix of the devices' schedule events, device by device, and all of them when nothing raises; nothing raises exactly when every device's `get`, the iteration of its schedules and their events build |
| Calendar.ForDevicesKeeps | custom_components/pura/calendar.py:104-106 | when the `n`-th device is the first that does not build, the category raises and keeps the events of every device before it, followed by those its own schedules built before the exception |
| Calendar.BuiltDevicesAreDicts | custom_components/pura/calendar.py:105 | a category that builds holds only dicts, since `device.get` needs one |
| Calendar.ForTable | custom_components/pura/calendar.py:102-106 | the events built are a prefix of the events of the wall, plus and mini categories' devices, and all of them when nothing raises |
| Calendar.ForTableBuilds | custom_components/pura/calendar.py:102-106 | the table raises nothing exactly when every wall, plus and mini category iterates and all its devices build |
| Calendar.ForTableKeeps | custom_components/pura/calendar.py:102-106 | when the `n`-th wall, plus or mini category is the first that does not build, the table raises and keeps the events of every such category before it, followed by those its devices built before the exception |
| Calendar.CalendarEvents | custom_components/pura/calendar.py:89-107 | a table that is not a dict raises AttributeError with no events; otherwise the calendar holds a prefix of the concatenation, category by category of the wall, plus and mini part and device by device, of each device's `ForSchedules` events over its `schedules` (default []), and all of it when nothing raises, which is exactly when the table is a dict and every wall, plus and mini category builds |
| Calendar.ScheduledPart | custom_components/pura/calendar.py:103 | a field is kept exactly when it is a wall, plus or mini field of the table |
| Calendar.ScheduledPartConcat | custom_components/pura/calendar.py:102-103 | the order of the table is kept: the part of two tables in sequence is the first's part, then the second's |
| Calendar.OtherCategoriesIgnored | custom_components/pura/calendar.py:102-103 | categories other than wall, plus and mini add no events |
| Calendar.PuraCalendar.constructor | custom_components/pura/calendar.py:58 | no calendar yet, unique id "{entry_id}-schedule" |
| Calendar.PuraCalendar.HandleCoordinatorUpdate | custom_components/pura/calendar.py:84-109 | a new calendar replaces the old one, holding `CalendarEvents`' events, those built before any exception, and the exception is passed on |
| Calendar.PuraCalendar.UpcomingEvent | custom_components/pura/calendar.py:60-70 | None without a calendar, else the timeline's next event |
| Calendar.PuraCalendar.GetEvents | custom_components/pura/calendar.py:72-82 | [] without a calendar, else the timeline's events for the window |
| Update.UpdatePerCategory | custom_components/pura/update.py:45-55 | only cars get a firmware entity |
| Update.InstalledVersion | custom_components/pura/update.py:73-76 | the device's `fw_version`, None when absent |
| Update.VersionOf | custom_components/pura/update.py:78-90 | the parsed details' "major.minor.patch" |
| Update.VersionOfRendered | custom_components/pura/update.py:84-90 | details written out from a dict give that dict's version |
| Update.TrailingNewlineNoVersion | custom_components/pura/update.py:84-87 | details ending in a newline never give a version |
| Update.PuraUpdateEntity.constructor | custom_components/pura/update.py:63-71 | no latest version before the first update |
| Update.PuraUpdateEntity.AsyncUpdate | custom_components/pura/update.py:78-92 | a computed version replaces the latest version; any failure leaves it as it was |

## Left out

- Floating point. Percentages are exact reals and brightness uses exact rational arithmetic, so float rounding error is not modelled.
- Helpers.FragranceRemainingBounds: describes exact reals, not the float result.
- Light.Brightness: rounds the exact quotient; the product of floats that Python rounds is not modelled.
- Text is ASCII only. `lower`, `upper` and `isnumeric` act on ASCII letters and digits; Unicode is not modelled.
- `str()` of a dict or list uses a simple rendering without Python's quoting rules; it only matters in generated text.
- Entity.ModelName: hashing of floats is not modelled; floats are not part of the JSON values.
- Services.RemainingValue: a truthy stored percentage that is not a number raises TypeError. Python would compare two strings instead of raising.
- Select.SlotBay: `int()` accepts surrounding whitespace, underscores and a sign; the model accepts only the digits after "slot_".
- Concurrency is not modelled: async scheduling, `asyncio.gather`, `async_add_executor_job`, `async_request_refresh` and the websocket subscriber. Jobs already submitted when a later device fails validation are reported as issued calls.
- Vendor client calls are not executed. Each is a `Call` value, and its reply is a parameter that decides whether a refresh is requested.
- The poll and the push arrive as separate method calls; the scheduler that interleaves them is not modelled.
- The coordinator polls at a fixed 30-second interval. There is no backoff or jitter in the code, so none is modelled.
- Coordinator.PuraCoordinator.HandleMessage: the record is replaced in the table rather than mutated through a shared reference, so aliasing between the table and entities holding the same dict is not modelled.
- `DeepDiff`, `copy.deepcopy` and logging are left out; they change nothing the code reads back.
- Registries are not modelled. `async_get_devices` does entity and device registry lookups, and the targeted devices and their coordinators are parameters instead. That the lookup keys devices by the registry entry's `serial_number`, which the integration's `DeviceInfo` never sets, is therefore not modelled: an empty target list stands for it (`Services.TimerOutcome` raises no_devices_found on it).
- The `ical` timeline, `dt_util.parse_time` and the host clock are parameters. `Recur.from_rrule` is the parameter `recur`, which says which rule texts it accepts; a refused rule raises ValueError, and the parsed rule object is not modelled, the event keeps the rule text. Timezones and daylight saving time are not modelled; times are seconds in one local day.
- `datetime.fromtimestamp` overflow is not modelled.
- `color_rgb_to_hex`, `rgb_hex_to_rgb_list`, `format_mac` and `DeviceInfo` are not part of this model. A new colour is given already in hex.
- Voluptuous schema ranges are not modelled (slot 1 or 2, intensity 1 to 10, a positive duration), nor is the number entity's 1..10 range. The host enforces them, and the model accepts any value.
- The number platform is not in the integration's platform list, so it is never set up; its logic is modelled anyway.
- `helpers.py` repeats `determine_pura_model` (lines 29-34) word for word; the single modelled copy is `Entity.DeterminePuraModel`.
- The entity constructor's device-info fields (name, connections, versions) and the setup, teardown, config flow, diagnostics and binary sensor modules are not part of this model.
- Sensor.SensorValue: the model dispatches on the description's key; a key that is not one of the sixteen descriptions' keys, which the integration never creates, raises KeyError.
- Calendar.Span: a `start` or `end` that is not a string raises TypeError. Python slicing of lists is not modelled.
- Calendar.DayCodes: a days list or string is iterated with Python subscripting; other iterables are not modelled.
- PyJson.Subscript: indexing a list or a string by an integer position is not modelled and raises TypeError, so a days list whose items are used as positions raises where Python may read an element or raise IndexError.
- Entities take their device record as a parameter. A device that `get_device` no longer finds, which gives None in the code, is the caller's `Null`.
- Merging a patch twice is not the same as merging it once when one level of the patch holds `fragrance` and then a falsy `code` (`Helpers.MergeNotIdempotent`). The model keeps the code's behaviour and proves idempotence only for patches without that clash (`Helpers.MergeIdempotent`).

## Findings

| source | as written | input that shows it | evidently intended | confidence | as-written member | corrected member |
|---|---|---|---|---|---|---|
| custom_components/pura/services.py:81 | `coordinator.get_device(None, device_id)` indexes the device table with the category `None`, which no table has, so `start_timer` raises KeyError(None) on its first device and never sets a timer. Before that, `async_get_devices` (services.py:55-59) keys devices by the registry entry's `serial_number`, which the integration's device info (entity.py:57-73) does not set, so with the registry as written the target list is empty and `start_timer` raises no_devices_found | once targets reach the loop: a table `{"wall": [{"deviceId": "A", "deviceType": "wall", "bay1": {"code": "F1"}, "bay2": None, ...}]}` and a call targeting device "A" with slot 1; with the registry as written: any call, which finds no targets | look the device up by its id in whichever category holds it, then validate and call `set_timer`; the corrected lookup also needs the device id as the target's key, e.g. from the `(DOMAIN, device_id)` identifier the device info registers | not executed | Services.AsWrittenNeverIssues | Services.StartTimer |
| custom_components/pura/switch.py:124-126 | `async_toggle(**kwargs)` hands its keywords to `toggle_fn`, which needs `value`; the host's toggle service calls `async_toggle()` without it, so toggling a Pura switch raises TypeError | the toggle service on the away mode switch of a device whose away mode is on | flip the switch as the default `async_toggle` does: turn it off when on, on when off | not executed | Switch.ToggleServiceExample | Switch.FlipToggle |

`Services.LookupFindingExample` shows both halves on the table above: as written, KeyError(None); corrected, one `set_timer` on bay 1 and one refresh. `Services.CorrectedIssuesEach` proves the corrected service's guarantee: every call goes to a record with the targeted serial, on a bay that holds a fragrance.

`Switch.ToggleServiceExample` shows both halves of the second row: the host's toggle raises TypeError, and the corrected toggle sends `away_mode` false. `Switch.FlipToggleSpec` proves the corrected toggle asks for the opposite of the current state.
