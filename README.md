# homeconnect_ws entity model

A Dafny model of the entity layer of `homeconnect_ws`, the Home Assistant
integration that talks to Home Connect appliances over their local
websocket. The model covers these parts:

- **Entity descriptions.** These are the description classes and their field
  defaults, the flat description lists, and the per-appliance description
  tables: common, coffee machine, refrigeration and laundry care.
- **Filtering.** `get_available_entities` keeps the descriptions whose
  entities the appliance exposes. It groups them under twelve prepared
  type keys.
- **Helpers.** `merge_dicts` merges description dicts by extending list
  objects in place. `create_entities` instantiates one entity per
  available description.
- **Platforms.** The binary sensor, sensor (enum, event and active-program),
  switch (plain and power), select (enum, program and deferred start), fan
  and light platforms each have their on/off or value rules and the
  messages they write.
- **Diagnostics.** This is the list of redacted keys and the per-entity
  snapshot of the appliance's state.

The appliance library (`homeconnect_websocket`) is modelled as data. An
appliance is an insertion-ordered dict of entities, with a program list,
the selected and active program, the device info and a connection flag.
An entity is a uid, a name, a value and a raw value, an optional
enumeration and the attributes `access`, `available`, `min`, `max` and
`step`. Each attribute distinguishes "missing", "None" and a value.
Python's exceptions are the error cases of a `Result`. Python's dynamic
behaviour is spelled out where the code relies on it:

- truthiness;
- `in` on a string versus a set;
- `int(t / d)` truncating toward zero;
- `str(v).lower()` on ASCII.

`merge_dicts` works on list objects that callers may share. It is modelled
with a `PyList` class whose `Extend` changes the list in place. The switch
and light entities are classes whose constructors set their fields. The
other entities are functions of their description and the entity values.

## Model

| member | source | states |
|---|---|---|
| Strings.Lower | custom_components/homeconnect_ws/select.py:60 | `str.lower()` keeps the length and folds exactly the ASCII capitals, position by position |
| Strings.LowerIdempotent | custom_components/homeconnect_ws/select.py:72 | lowercasing twice is lowercasing once, so a lowercased value compares equal to a lowercased option |
| Strings.Split | custom_components/homeconnect_ws/select.py:144 | `option.split(":")` gives at least one piece and no piece holds the separator |
| Strings.SplitJoin | custom_components/homeconnect_ws/select.py:144 | joining the pieces with the separator gives back the string |
| Strings.SplitNoSep | custom_components/homeconnect_ws/select.py:144 | a string without the separator splits into itself alone |
| Strings.SplitJoined | custom_components/homeconnect_ws/select.py:144 | a separator-free head followed by the separator is split off as the first piece |
| Strings.LastSegment | custom_components/homeconnect_ws/select.py:100 | `split(".")[-1]` is a dot-free suffix of the name, and all of it when the name has no dot |
| Strings.LastSegmentFollowsDot | custom_components/homeconnect_ws/select.py:100 | when the name has a dot, the segment is preceded by a dot, so it is the whole text after the last dot |
| Strings.LastSegmentIsLastPiece | custom_components/homeconnect_ws/select.py:100 | the segment is the last piece that `split(".")` produces |
| Strings.ShortName | custom_components/homeconnect_ws/sensor.py:114 | a program's short name has no dot and is already lowercase |
| Strings.ShortNameIsLastPiece | custom_components/homeconnect_ws/sensor.py:114 | the short name is `split(".")[-1].lower()` of the program name |
| Strings.NatToString | custom_components/homeconnect_ws/select.py:132 | `str(n)` is a non-empty run of decimal digits |
| Strings.Pad2 | custom_components/homeconnect_ws/select.py:132 | `f"{n:02}"` has at least two characters, all digits |
| Strings.ParseInt | custom_components/homeconnect_ws/select.py:145 | `int(s)` fails only with ValueError and never accepts the empty string |
| Strings.ParseIntToString | custom_components/homeconnect_ws/select.py:141-145 | `int(str(i)) == i` for every integer |
| Strings.ParsePad2 | custom_components/homeconnect_ws/select.py:141-145 | `int(f"{n:02}") == n` for every non-negative n |
| Values.Str | custom_components/homeconnect_ws/select.py:75 | `str(v)` of a string value is the string itself |
| Dicts.Put | custom_components/homeconnect_ws/diagnostics.py:54 | assignment to a dict key keeps insertion order: a new key goes last, an existing key keeps its place and takes the new value |
| Dicts.Get | custom_components/homeconnect_ws/light.py:59-67 | `d[k]` gives the stored value, or KeyError exactly when the key is missing |
| Dicts.FromList | custom_components/homeconnect_ws/entity_descriptions/__init__.py:26-39 | a dict literal is well formed and holds exactly the keys written |
| Dicts.FromListOrder | custom_components/homeconnect_ws/entity_descriptions/__init__.py:26-39 | a dict literal of distinct keys has those keys in the order written |
| Dicts.FromListLastWins | custom_components/homeconnect_ws/entity_descriptions/__init__.py:26-39 | each key holds the value of its last occurrence in the literal |
| Appliance.EnumLabels | custom_components/homeconnect_ws/sensor.py:66-68 | `enum.values()` are the labels in enumeration order |
| Descriptions.Subscribed | custom_components/homeconnect_ws/entity_descriptions/__init__.py:42-46 | a non-empty `entity` comes first; a description with neither field subscribes to nothing |
| Descriptions.SubscribedEndsWithEntities | custom_components/homeconnect_ws/entity_descriptions/__init__.py:44-45 | the subscribed names end with the whole `entities` list |
| Descriptions.SubscribedMembers | custom_components/homeconnect_ws/entity_descriptions/__init__.py:42-45 | a name is subscribed iff it is the non-empty `entity` or one of the `entities` |
| Descriptions.ClassDefaults | custom_components/homeconnect_ws/entity_descriptions/descriptions_definitions.py:34-92 | read-only platforms default to READ/READ_WRITE access and writable ones to READ_WRITE/WRITE_ONLY; `value_on`, `value_off`, `value_mapping` default to None and `has_state_translation` to False |
| Descriptions.TypedDictLacksPowerSwitch | custom_components/homeconnect_ws/entity_descriptions/descriptions_definitions.py:100-115 | the eleven TypedDict keys are the twelve prepared keys less `power_switch` |
| Available.Kept | custom_components/homeconnect_ws/entity_descriptions/__init__.py:41-47 | a description that subscribes to no entity is never kept |
| Available.Filter | custom_components/homeconnect_ws/entity_descriptions/__init__.py:41-48 | the kept descriptions of one list are no more than the list and each subscribes to an entity the appliance has |
| Available.FilterSubsequence | custom_components/homeconnect_ws/entity_descriptions/__init__.py:41-48 | filtering keeps list order: the result is a subsequence of the list |
| Available.FilterMembers | custom_components/homeconnect_ws/entity_descriptions/__init__.py:41-48 | a description is kept exactly when it is listed and shares an entity with the appliance |
| Available.PreparedDict | custom_components/homeconnect_ws/entity_descriptions/__init__.py:26-39 | the result starts with the twelve prepared keys, each with an empty list |
| Available.AppendKept | custom_components/homeconnect_ws/entity_descriptions/__init__.py:41-48 | one table entry appends its kept descriptions to its type key's list; a kept description under an unprepared key raises KeyError |
| Available.AppendOne | custom_components/homeconnect_ws/entity_descriptions/__init__.py:41-48 | one description: appended to its key's list when kept, KeyError exactly when it is kept under an unprepared key |
| Available.GatherEntry | custom_components/homeconnect_ws/entity_descriptions/__init__.py:40-48 | one table entry advances every prepared key's list to what the entries so far gathered, or raises KeyError exactly when the entry clashes |
| Available.GetAvailableEntities | custom_components/homeconnect_ws/entity_descriptions/__init__.py:24-49 | the result has the twelve prepared keys, each holding the kept descriptions of that key in table order; KeyError exactly when a kept description sits under an unprepared key |
| Available.GatheredDistinct | custom_components/homeconnect_ws/entity_descriptions/__init__.py:40-48 | with distinct type keys a key's list is the kept part of that key's table list, or empty |
| Available.GatheredMembers | custom_components/homeconnect_ws/entity_descriptions/__init__.py:40-48 | a description is listed under a key exactly when a table entry for that key has it and it is kept |
| Available.PreparedTableNeverFails | custom_components/homeconnect_ws/entity_descriptions/__init__.py:26-48 | a table over prepared keys never raises, whatever the appliance has |
| Helpers.PyList.constructor | custom_components/homeconnect_ws/helpers.py:30 | a list object holds the given items |
| Helpers.PyList.Extend | custom_components/homeconnect_ws/helpers.py:38 | `list.extend` appends the other list's old items in place, even when the two lists are the same object |
| Helpers.Items | custom_components/homeconnect_ws/helpers.py:34 | `dict.items()` yields each key with its value in insertion order |
| Helpers.Merge | custom_components/homeconnect_ws/helpers.py:32-38 | the merge state keeps a well-formed output dict |
| Helpers.MergePair | custom_components/homeconnect_ws/helpers.py:35-38 | one pair either stores its list under a new key or extends the stored list, exactly as the specification step says, for every list object |
| Helpers.MergeInto | custom_components/homeconnect_ws/helpers.py:34-38 | after the inner loop over one argument dict, the output dict and every list object are the specification merge of the earlier pairs followed by that dict's pairs |
| Helpers.MergeEntry | custom_components/homeconnect_ws/helpers.py:35-38 | one iteration of the inner loop advances the merge by the dict's next pair |
| Helpers.MergeDicts | custom_components/homeconnect_ws/helpers.py:30-39 | the output dict and the contents of every list object after the call are those of the specification merge over all pairs, argument after argument, starting from the lists' old contents |
| Helpers.MergeDomain | custom_components/homeconnect_ws/helpers.py:35-38 | every stored object is one of the arguments' lists and no other object is touched |
| Helpers.MergeKeys | custom_components/homeconnect_ws/helpers.py:32-39 | the output keys are the inputs' keys, each once, in first-seen order |
| Helpers.MergeKeepsFirstObject | custom_components/homeconnect_ws/helpers.py:35-36 | each key holds the first list object given for it |
| Helpers.MergeConcatenates | custom_components/homeconnect_ws/helpers.py:33-38 | with no list passed twice, each key's list holds the concatenation of that key's lists in argument order and every list not stored keeps its contents |
| Helpers.MergeDistinctKeys | custom_components/homeconnect_ws/helpers.py:35-36 | without a repeated key no list is extended |
| Helpers.FirstSeenDistinct | custom_components/homeconnect_ws/helpers.py:32-36 | distinct keys come out as they went in |
| Helpers.FirstObjectAt | custom_components/homeconnect_ws/helpers.py:35-36 | the first occurrence of a key decides its object |
| Helpers.MergeWithEmpty | custom_components/homeconnect_ws/helpers.py:30-39 | merging a dict with an empty one, in either order, gives that dict and changes no list |
| Helpers.MergeItemsKeys | custom_components/homeconnect_ws/helpers.py:32-36 | merging one dict's pairs gives back its keys in order |
| Helpers.MergeItemsValues | custom_components/homeconnect_ws/helpers.py:35-36 | merging one dict's pairs gives back its key-to-list map |
| Helpers.MergeExample | custom_components/homeconnect_ws/helpers.py:30-39 | merging {a:[1,2], b:[3,4]} with {b:[5,6], c:[7,8]} gives keys a, b, c, with b's first list now [3,4,5,6] and the second unchanged |
| Helpers.CreateEntities | custom_components/homeconnect_ws/helpers.py:12-27 | the loop creates exactly the specification's entities, in creation order |
| Helpers.InstancesMembers | custom_components/homeconnect_ws/helpers.py:17-26 | an entity is created exactly for each description under a requested key the runtime data has, with that key's class and the runtime data's appliance and device info |
| Helpers.InstancesCount | custom_components/homeconnect_ws/helpers.py:17-26 | one entity per description under each requested key that is present |
| BinarySensor.In | custom_components/homeconnect_ws/binary_sensor.py:59-63 | `value in value_on` is membership for a set, a substring test for a string (TypeError for a non-string value) and TypeError against None |
| BinarySensor.IsOn | custom_components/homeconnect_ws/binary_sensor.py:56-64 | without `value_on` truthiness decides; with sets, on iff in `value_on`, off iff in `value_off` only, else unknown; `value_on` without `value_off` raises for any value outside `value_on` |
| BinarySensor.OverlapMeansOn | custom_components/homeconnect_ws/binary_sensor.py:59-60 | `value_on` is tested first |
| BinarySensor.DisjointSetsDecide | custom_components/homeconnect_ws/binary_sensor.py:56-64 | with disjoint sets every `value_on` value reads on and every `value_off` value off |
| BinarySensor.SeparatedTextsDecide | custom_components/homeconnect_ws/binary_sensor.py:56-64 | with string-valued `value_on`/`value_off`, where `in` tests substrings and the off text does not occur in the on text, the on text reads on and the off text off |
| BinarySensor.ConnectionUniqueId | custom_components/homeconnect_ws/binary_sensor.py:84 | the unique id is the device id, a dash and the key; KeyError exactly when the device id is missing |
| BinarySensor.UniqueIdPerKey | custom_components/homeconnect_ws/binary_sensor.py:84 | within one appliance, ids differ exactly when keys differ |
| BinarySensor.UniqueIdPerDevice | custom_components/homeconnect_ws/binary_sensor.py:84 | for one key, ids differ exactly when device ids differ |
| BinarySensor.ConnectionIsOn | custom_components/homeconnect_ws/binary_sensor.py:89-90 | the connection sensor is on exactly when the session is connected |
| BinarySensor.SetupEntities | custom_components/homeconnect_ws/binary_sensor.py:37-47 | one sensor per available description, in order, then the one connection sensor, last |
| Sensor.SensorOptions | custom_components/homeconnect_ws/sensor.py:64-68 | an enum sensor's options are its labels, lowercased when translated; a sensor without an enum has none |
| Sensor.NativeValue | custom_components/homeconnect_ws/sensor.py:70-74 | a translated enum sensor shows `str(value).lower()` (a string value lowercased, None as "none"); any other sensor its raw value |
| Sensor.NativeValueInOptions | custom_components/homeconnect_ws/sensor.py:64-74 | an enum value that is one of its labels is shown as the matching option, translated or not |
| Sensor.UntranslatedOptionsAreLabels | custom_components/homeconnect_ws/sensor.py:67-68 | untranslated options are the labels unchanged |
| Sensor.FirstPresent | custom_components/homeconnect_ws/sensor.py:92-94 | the index found is the first "Present" value, or the end when there is none |
| Sensor.EventValue | custom_components/homeconnect_ws/sensor.py:90-95 | the option paired with the first "Present" entity, pairing stopping at the shorter list, else the last option; TypeError without options, IndexError with an empty list |
| Sensor.FallbackIffNoEvent | custom_components/homeconnect_ws/sensor.py:90-95 | with one option per entity plus a distinct fallback, the value is the fallback exactly when no event is present |
| Sensor.ExtraEntitiesIgnored | custom_components/homeconnect_ws/sensor.py:92-95 | for any values and options, the value depends only on the first `len(options)` entity values |
| Sensor.ProgramOptions | custom_components/homeconnect_ws/sensor.py:114 | one option per program, its short name |
| Sensor.ActiveProgramValue | custom_components/homeconnect_ws/sensor.py:116-122 | the active program's short name, or None exactly when no program runs |
| Sensor.ActiveProgramInOptions | custom_components/homeconnect_ws/sensor.py:114-122 | an active program the appliance lists shows as one of the options |
| Sensor.SetupEntities | custom_components/homeconnect_ws/sensor.py:39-48 | sensors, then event sensors, in order, then the active-program sensor exactly when the appliance has its entity |
| Switch.PowerMapping | custom_components/homeconnect_ws/switch.py:90-100 | "On" turns on; "Standby" turns off exactly when the enumeration has key 3, else "Off" |
| Switch.Switch.constructor | custom_components/homeconnect_ws/switch.py:52-57 | the switch keeps its description's value mapping |
| Switch.Switch.NewPower | custom_components/homeconnect_ws/switch.py:90-100 | the power switch uses the power mapping; TypeError exactly when the entity has no enumeration |
| Switch.Switch.IsOn | custom_components/homeconnect_ws/switch.py:59-67 | with a mapping, on iff the value is its first string, off iff it is the second and not the first, else unknown; without, on iff truthy |
| Switch.Switch.TurnOn | custom_components/homeconnect_ws/switch.py:69-73 | writes the mapping's first string or True, a value the switch reads as on |
| Switch.Switch.TurnOff | custom_components/homeconnect_ws/switch.py:75-79 | writes the mapping's second string or False, a value the switch reads as off unless both strings coincide |
| Switch.PowerSwitchOff | custom_components/homeconnect_ws/switch.py:82-100 | "Standby" reads off exactly on appliances offering standby, "Off" otherwise |
| Switch.SetupEntities | custom_components/homeconnect_ws/switch.py:36-41 | one switch per available description, then the power switch exactly when the appliance has its entity |
| Select.SelectFields | custom_components/homeconnect_ws/select.py:54-56 | reading `options` and `has_state_translation` succeeds exactly for select and sensor descriptions, AttributeError otherwise |
| Select.LabelOptions | custom_components/homeconnect_ws/select.py:58-63 | one option per label, lowercased when translated |
| Select.RevOptionsKeys | custom_components/homeconnect_ws/select.py:65-67 | the reverse map has one key per lowercased label |
| Select.RevOptionsValues | custom_components/homeconnect_ws/select.py:65-67 | each key leads back to a label whose lowercase form it is |
| Select.RevOptionsUnique | custom_components/homeconnect_ws/select.py:65-67 | a label no other label folds onto is what its option leads back to |
| Select.SelectSetup | custom_components/homeconnect_ws/select.py:45-67 | options from the description, or built from the enum labels; the reverse map only when translating an enum entity; AttributeError for a description without the select fields |
| Select.CurrentOption | custom_components/homeconnect_ws/select.py:69-78 | the value (lowercased when translating) when it is an option, else None; AttributeError when options were never assigned |
| Select.SelectOption | custom_components/homeconnect_ws/select.py:80-83 | without a reverse map the option itself is written; with one, its label, KeyError for an unknown option |
| Select.TranslatedRoundTrip | custom_components/homeconnect_ws/select.py:58-83 | a translated enum select shows each label as an option, and selecting it writes a label of that lowercase form, the label itself when unique |
| Select.PlainRoundTrip | custom_components/homeconnect_ws/select.py:58-83 | an untranslated enum select shows each label as is and writes it back unchanged |
| Select.DescriptionOptionsExample | custom_components/homeconnect_ws/select.py:54-57 | description options are used as given and the value is matched in lowercase |
| Select.ProgramDict | custom_components/homeconnect_ws/select.py:98-100 | the program dict is well formed |
| Select.ProgramSetup | custom_components/homeconnect_ws/select.py:91-100 | the loop builds the short-name-to-program dict |
| Select.ProgramDictKeys | custom_components/homeconnect_ws/select.py:100-104 | the program options are the short names, each once |
| Select.ProgramDictValues | custom_components/homeconnect_ws/select.py:100 | each option leads back to a program of that short name |
| Select.ProgramDictUnique | custom_components/homeconnect_ws/select.py:100 | a program with a unique short name is what its option leads to |
| Select.ProgramCurrent | custom_components/homeconnect_ws/select.py:106-112 | the selected program's short name, or None exactly when none is selected |
| Select.ProgramSelect | custom_components/homeconnect_ws/select.py:114-115 | selects the program the option names; KeyError for an unknown option |
| Select.ProgramRoundTrip | custom_components/homeconnect_ws/select.py:100-115 | selecting the option shown for the selected program selects it again when its short name is unique |
| Select.ProgramShortNameCollision | custom_components/homeconnect_ws/select.py:100 | two programs with one short name collapse into one option naming the later program |
| Select.TruncDiv | custom_components/homeconnect_ws/select.py:132 | `int(t / d)` rounds toward zero |
| Select.FormatHM | custom_components/homeconnect_ws/select.py:132 | the `H:MM` text of a delay contains the colon; its full shape is stated by Select.FormatHMShape |
| Select.FormatHMShape | custom_components/homeconnect_ws/select.py:132 | for every delay the text splits at ":" into exactly two pieces: one that parses to the hours rounded toward zero, and two digits that parse to the minute of the hour |
| Select.ParseHM | custom_components/homeconnect_ws/select.py:144-146 | parsing fails only with ValueError or IndexError, IndexError when there is no colon after a valid hour |
| Select.ParseFormat | custom_components/homeconnect_ws/select.py:132-145 | a non-negative delay formatted and parsed back loses only its seconds |
| Select.WholeMinutesRoundTrip | custom_components/homeconnect_ws/select.py:132-145 | whole minutes round-trip exactly |
| Select.IntAttr | custom_components/homeconnect_ws/select.py:131 | `int(entity.min)` is the bound, AttributeError when missing, TypeError when None |
| Select.GridCount | custom_components/homeconnect_ws/select.py:131 | `range(lo, hi, 900)` yields exactly the starts below `hi` |
| Select.StartInSetup | custom_components/homeconnect_ws/select.py:123-132 | the options are the `H:MM` text of each start `min + 900k` below `max`, in order; the errors of reading `min`, then `max` |
| Select.GridLoop | custom_components/homeconnect_ws/select.py:131-132 | the loop over `range(lo, hi, 900)` yields exactly `GridCount(lo, hi)` options, the `k`-th being start `lo + 900k` formatted |
| Select.GridCountExact | custom_components/homeconnect_ws/select.py:131 | when `n` steps reach `hi` and `n - 1` do not, the range has exactly `n` starts |
| Select.StartInOptionsParse | custom_components/homeconnect_ws/select.py:131-145 | every start `lo + 900k` of a grid with `lo >= 0`, formatted, parses back to itself less `lo % 60`: exactly when the grid begins on a whole minute |
| Select.GridMinute | custom_components/homeconnect_ws/select.py:131 | every start of the grid has the seconds of the first |
| Select.StartInCurrent | custom_components/homeconnect_ws/select.py:138-141 | the current value as `H:MM`; TypeError for a non-numeric value |
| Select.StartInRoundTrip | custom_components/homeconnect_ws/select.py:138-146 | selecting the shown option writes back the delay less its seconds |
| Select.NegativeDelayFormat | custom_components/homeconnect_ws/select.py:141 | -900 s shows as "0:45" |
| Select.StartInAsWritten | custom_components/homeconnect_ws/entity_descriptions/common.py:155-159 | the table's start-in description is a number description, on which the select set-up raises AttributeError |
| Select.StartInCorrected | custom_components/homeconnect_ws/entity_description.py:375-378 | a select description with the same key, entity and access sets up without error |
| Fan.PercentOf | custom_components/homeconnect_ws/fan.py:87 | each speed in range shows as 0 to 100 %, the top speed as 100 % |
| Fan.SpeedFor | custom_components/homeconnect_ws/fan.py:90 | the least speed whose share reaches the percentage |
| Fan.SpeedRoundTrip | custom_components/homeconnect_ws/fan.py:82-96 | with at most 100 speeds, the percentage shown for speed k asks for speed k |
| Fan.SpeedRoundTripBound | custom_components/homeconnect_ws/fan.py:82-96 | with 200 speeds the lowest shows as 0 % and asks for speed 0 |
| Fan.NonZeroKeys | custom_components/homeconnect_ws/fan.py:73-75 | the numbered options exclude key 0 |
| Fan.SetupErrorMonotone | custom_components/homeconnect_ws/fan.py:66-78 | the first failing entity decides the constructor's error |
| Fan.SetupErrorNames | custom_components/homeconnect_ws/fan.py:66-72 | a constructor that succeeds found every entity, each with an enumeration |
| Fan.AddSpeeds | custom_components/homeconnect_ws/fan.py:73-78 | the inner loop numbers the entity's non-zero options as the next speeds |
| Fan.SpeedStep | custom_components/homeconnect_ws/fan.py:66-78 | one iteration stores the entity and numbers its options, or raises the first error |
| Fan.SpeedLoop | custom_components/homeconnect_ws/fan.py:66-78 | the loop numbers speeds 1..n over all non-zero options in order and stores every entity, or raises the specification's error |
| Fan.NumberedNonZero | custom_components/homeconnect_ws/fan.py:73-78 | every mapping has a non-zero value and speed i+1 at index i |
| Fan.FanSetup | custom_components/homeconnect_ws/fan.py:55-80 | the constructor's state, or TypeError without `entities`, or the first missing-entity or missing-enumeration error |
| Fan.SpeedPairsMembers | custom_components/homeconnect_ws/fan.py:66-78 | a pair is numbered exactly when it is an entity's non-zero option |
| Fan.PercentageFrom | custom_components/homeconnect_ws/fan.py:82-87 | the search gives the percentage of the first matching speed, 0 when none matches |
| Fan.Percentage | custom_components/homeconnect_ws/fan.py:82-87 | the percentage is in 0..100: the first speed whose entity holds its value, else 0 |
| Fan.LastWithSpeed | custom_components/homeconnect_ws/fan.py:93-96 | the mapping found has the speed, and none is found exactly when no mapping has it |
| Fan.SpeedMessage | custom_components/homeconnect_ws/fan.py:98-103 | one entry per speed entity: the target's value for its entity, 0 for the others |
| Fan.SetPercentage | custom_components/homeconnect_ws/fan.py:89-112 | the message is sent exactly for speed 0, or for a speed whose last mapping has a non-empty entity name; otherwise ServiceValidationError |
| Fan.LastWithSpeedNumbered | custom_components/homeconnect_ws/fan.py:73-96 | in a constructed fan, speed k belongs to mapping k-1 |
| Fan.MessageTargets | custom_components/homeconnect_ws/fan.py:98-103 | the message writes the target value to the target entity and 0 to every other |
| Fan.ZeroSpeedStops | custom_components/homeconnect_ws/fan.py:90-103 | speed 0 is always sent and writes 0 to every speed entity |
| Fan.PercentageRoundTrip | custom_components/homeconnect_ws/fan.py:82-103 | with at most 100 speeds, setting the percentage shown for speed k targets speed k's mapping |
| Light.ModeFor | custom_components/homeconnect_ws/light.py:69-79 | colour temperature needs both auxiliaries, brightness alone gives brightness, otherwise on/off |
| Light.AtLeast | custom_components/homeconnect_ws/light.py:117-121 | the brightness written is the scaled value raised to the entity's minimum |
| Light.Light.constructor | custom_components/homeconnect_ws/light.py:49-50 | the base set-up: no auxiliaries (the class defaults), on/off mode |
| Light.Light.New | custom_components/homeconnect_ws/light.py:52-79 | looks up brightness, then colour temperature, subscribing to each, KeyError when missing; mode and kelvin range follow the auxiliaries |
| Light.Light.Available | custom_components/homeconnect_ws/light.py:81-92 | available exactly when the base is and every present auxiliary is |
| Light.Light.TurnOn | custom_components/homeconnect_ws/light.py:110-137 | brightness, colour temperature and power entries in that order, power only when not already True; AttributeError or TypeError for a request the light cannot meet |
| Light.Light.TurnOff | custom_components/homeconnect_ws/light.py:139-140 | writes False |
| Light.BrightnessRaisedToMinimum | custom_components/homeconnect_ws/light.py:117-121 | a request below the minimum is raised to it |
| Diagnostics.RedactsSecrets | custom_components/homeconnect_ws/diagnostics.py:18 | the key, the IV and the device identifiers are redacted |
| Diagnostics.AddIf | custom_components/homeconnect_ws/diagnostics.py:43-52 | a conditional key is added last exactly when its condition holds |
| Diagnostics.KeysOf | custom_components/homeconnect_ws/diagnostics.py:36-52 | five base keys first, and a key is there exactly when `Shown` says: `access` and `available` when the attribute exists; `min`, `max`, `step` when present and not None |
| Diagnostics.PresentValue | custom_components/homeconnect_ws/diagnostics.py:47-52 | a bound is shown exactly when present and not None |
| Diagnostics.SnapshotOf | custom_components/homeconnect_ws/diagnostics.py:36-52 | the snapshot copies the entity's fields and its non-None bounds |
| Diagnostics.BoundsShown | custom_components/homeconnect_ws/diagnostics.py:47-52 | a bound key appears exactly when the entity has the bound and it is not None |
| Diagnostics.EntityList | custom_components/homeconnect_ws/diagnostics.py:35 | `entities.values()` in insertion order |
| Diagnostics.StateFor | custom_components/homeconnect_ws/diagnostics.py:34-55 | the state dict is well formed |
| Diagnostics.GetApplianceState | custom_components/homeconnect_ws/diagnostics.py:32-55 | the loop builds each entity's snapshot and stores it under the entity's name |
| Diagnostics.LastNamed | custom_components/homeconnect_ws/diagnostics.py:54 | the index found is the last entity of that name |
| Diagnostics.StateForEntries | custom_components/homeconnect_ws/diagnostics.py:54 | a name has an entry exactly when some entity has it, holding the last such entity's snapshot |
| Diagnostics.StateForKeys | custom_components/homeconnect_ws/diagnostics.py:34-55 | with distinct names there is one entry per entity, in entity order |
| FlatDescriptions.EntityXorEntities | custom_components/homeconnect_ws/entity_description.py:103-392 | every list and single description except the connection sensor binds exactly one of `entity` and `entities`; the connection sensor binds neither |
| FlatDescriptions.OnOffSetsDisjoint | custom_components/homeconnect_ws/entity_description.py:103-148 | no binary sensor lists a value as both on and off |
| FlatDescriptions.EventSensorFallback | custom_components/homeconnect_ws/entity_description.py:236-255 | each event sensor has one option per entity plus a fallback |
| FlatDescriptions.TableAccessDefaults | custom_components/homeconnect_ws/entity_description.py:57-100 | the flat lists keep their classes' access defaults |
| FlatDescriptions.SharedEntities | custom_components/homeconnect_ws/entity_description.py:257-262 | the active-program sensor and the start button watch the same entity |
| FlatDescriptions.DoorKeyShared | custom_components/homeconnect_ws/entity_description.py:104-124 | the door sensors share one key but watch different entities |
| FlatDescriptions.NoNumbers | custom_components/homeconnect_ws/entity_description.py:394 | there are no number descriptions |
| CommonDescriptions.CommonTypeKeys | custom_components/homeconnect_ws/entity_descriptions/common.py:25-161 | the common table has distinct, prepared type keys |
| CommonDescriptions.CommonBindsEntity | custom_components/homeconnect_ws/entity_descriptions/common.py:25-161 | every common description binds `entity` only |
| CommonDescriptions.CommonOnOffDisjoint | custom_components/homeconnect_ws/entity_descriptions/common.py:40-66 | no common binary sensor lists a value as both on and off |
| CommonDescriptions.CommonSharedEntities | custom_components/homeconnect_ws/entity_descriptions/common.py:32-158 | the active-program sensor and start button share an entity, as do the start-in sensor and select |
| CommonDescriptions.CountStartedAttributes | custom_components/homeconnect_ws/entity_descriptions/common.py:121-138 | both extra attributes of the started-programs counter read the latest run entities |
| ConsumerProducts.ConsumerProductsTypeKeys | custom_components/homeconnect_ws/entity_descriptions/consumer_products.py:25-225 | the coffee table has distinct, prepared type keys |
| ConsumerProducts.ConsumerProductsBindOne | custom_components/homeconnect_ws/entity_descriptions/consumer_products.py:25-225 | every coffee description binds exactly one of `entity`, `entities` |
| ConsumerProducts.ConsumerProductsEventFallback | custom_components/homeconnect_ws/entity_descriptions/consumer_products.py:34-53 | each coffee event sensor has one option per entity plus a fallback |
| ConsumerProducts.ConsumerProductsOnOffDisjoint | custom_components/homeconnect_ws/entity_descriptions/consumer_products.py:26-32 | no coffee binary sensor lists a value as both on and off |
| ConsumerProducts.SelectsTranslate | custom_components/homeconnect_ws/entity_descriptions/consumer_products.py:55-128 | every coffee select translates its states |
| ConsumerProducts.SensorStateClasses | custom_components/homeconnect_ws/entity_descriptions/consumer_products.py:146-211 | counters are total-increasing, countdowns measurements |
| Refrigeration.RefrigerationDoors | custom_components/homeconnect_ws/entity_descriptions/refrigeration.py:14-31 | two door sensors share a key but not an entity |
| LaundryCare.LaundryTypeKeys | custom_components/homeconnect_ws/entity_descriptions/laundry_care.py:20-46 | the laundry table has prepared keys, binds `entity` only and keeps `value_off` ("Filled") out of `value_on` ("Poor") under substring matching |
| LaundryCare.LaundryTranslated | custom_components/homeconnect_ws/entity_descriptions/laundry_care.py:22-45 | the reload sensor and the auto-power-off select translate their states |
| LaundryCare.RefresherSubstringTest | custom_components/homeconnect_ws/entity_descriptions/laundry_care.py:35-36 | the parenthesised strings make `is_on` a substring test: "Poo" reads on, "Fill" off, a non-string raises TypeError |

## Left out

- The integration's set-up and tear-down, the config, re-authentication and zeroconf flows, and the websocket session are outside this model.
- The button and number platforms are outside this model. So is the cooking table.
- `entity.py` is not part of this model. Its base availability, the `_entities` list it starts and its access check are inputs to the members that use them.
- `get_entities_available`, the filter the platforms call, is not part of this model. The platform `SetupEntities` members take its result as input.
- The merged `ENTITY_DESCRIPTIONS` table is a parameter of `Available.GetAvailableEntities`.
- Home Assistant's framework calls are outside this model: `async_add_entities`, state writes, translation lookup, and `async_redact_data` (only its key list is modelled).
- Sending a message is modelled as the data the entity writes or posts.
- Home Assistant's brightness and colour-temperature scaling helpers are function parameters of `Light.Light.TurnOn`. Its availability helper `entity_is_available` is a parameter of `Light.Light.Available`.
- Icons, names, units, entity categories and other display fields of the descriptions are not modelled. Only the fields the integration reads are kept.
- Helpers.CreateEntities: returns a sequence in creation order rather than a set. Entity objects in Python are distinct by identity, so the set has the same members.
- Helpers.CreateEntities: its runtime data carries `available_entity_descriptions`, which `create_entities` reads (helpers.py:18). The `HCData` class in __init__.py:28-33 has only `appliance` and `device_info`, so against that class the code as written raises AttributeError. The model assumes the field that `create_entities` expects.
- Helpers.CreateEntities: always returns the entities. In Python, an exception raised by an entity class's constructor ends `create_entities` and the platform set-up. Examples are `HCStartIn`'s AttributeError (Select.StartInAsWritten) and `HCFan`'s KeyError or TypeError (Fan.FanSetup). Those constructors are modelled with their errors separately, but the loop here does not propagate them.
- Strings.ParseInt: accepts only an optional sign and decimal digits. Python's `int` also accepts surrounding whitespace and underscores between digits; no option the model produces contains either.
- Strings.Lower: folds ASCII capitals only, not the full Unicode case mapping.
- Fan.SpeedRoundTrip: holds only for fans of at most 100 speeds. Fan.SpeedRoundTripBound shows the failure beyond that.
- Light.AtLeast: takes the scaled brightness as an integer already truncated by `int(...)`. Floating-point scaling is not modelled.
- Values.Value: entity values and bounds are None, bool, int or str. Floats and JSON-object values are not modelled. Outside the model are therefore `int()` of a float bound in the start-in select (select.py:131), `int(t / 3600)` and `t % 3600` on a float value (select.py:141), `str()` of a float value (select.py:72-75), and float equality in the fan (fan.py:85).
- Light.Light.Available: treats present auxiliary entities as truthy objects, as the library's entity objects are.
- Diagnostics.KeysOf: gives the key order of one snapshot but not that the keys are distinct. The snapshot itself is a record, not a JSON dict.
- The light's `brightness` and `color_temp_kelvin` read-back properties are outside this model. They only call Home Assistant's scaling helpers.
- The event sensor's `available`, the session's connected flag, is outside this model, as are its callback registrations.
- Sensor.EventValue: the event entities' values are given as a list in description order, not looked up from the appliance.

## Findings

| source | as written | input that shows it | evidently intended | confidence | as-written member | corrected member |
|---|---|---|---|---|---|---|
| custom_components/homeconnect_ws/entity_descriptions/common.py:155-159 | the `start_in` entry, built by the `HCStartIn` select, is an `HCNumberEntityDescription`, which has no `options` or `has_state_translation`, so `HCSelect.__init__` raises AttributeError (the same holds for `START_IN_DESCRIPTION` in entity_description.py:375-378) | any appliance exposing `BSH.Common.Option.StartInRelative` | an `HCSelectEntityDescription` with the same key and entity | not executed | Select.StartInAsWritten | Select.StartInCorrected |
