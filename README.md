# Hue sensors for Home Assistant — a verified model of payload parsing and change detection

This project models the Hue sensor component (`huesensor`) for Home Assistant. The component polls a Philips Hue
bridge and reduces each raw sensor record (`modelid`, `uniqueid`, `type`, `state`, `config`, ...) to one entry per
physical device. That entry is keyed by a three-character model prefix, `"_"` and a Python slice of `uniqueid`. It
then compares each poll with the records it stored before, to decide which devices are new, which are reported as
updated and which are stored silently.

The repository holds several revisions of this logic. They disagree on:
- the slice rules;
- merge versus replace;
- the "no event" sentinel;
- whether an unknown code raises.

Each revision is modelled on its own terms, one Dafny module per source file:

| module | source file | form |
|---|---|---|
| `PyBase` | the Python built-ins the parsers use: dict look-up and truthiness, clamped slicing, `str.split`, `" ".join`, `list.insert`, `str(int)`, an insertion-ordered dict | values and functions |
| `BridgeRecord` | the raw bridge record, the model prefix, the `last_updated` split and the motion-sensor name | values and functions |
| `ButtonTables` | the tap, dimmer, Friends-of-Hue and Lutron Aurora tables, and the decimal decoding of dimmer events | values and functions |
| `Aggregation` | the fold every `parse_hue_api_response` performs: skip a record, assign under its key, or merge into the entry under its key | functions and lemmas |
| `HueApiResponse` | `custom_components/huesensor/hue_api_response.py` | pure parsers, and a loop method for `parse_hue_api_response` |
| `Remote` | `custom_components/huesensor/remote.py` | parsers, loop methods, and the class `HueRemoteData` |
| `ChangedFlag` | the `changed`-flag diff shared by `sensor.py` and `binary_sensor.py`, with the class `FlaggedSensorData` | loop methods over a class |
| `Sensor` | `custom_components/huesensor/sensor.py` | parsers, loop methods, `HueSensor.state` |
| `BinarySensor` | `custom_components/huesensor/binary_sensor.py` | parsers, loop methods, `HueSensor.is_on` |
| `DataManager` | `custom_components/huesensor/data_manager.py` | the class `HueSensorData` with loop methods, proved against a fold |
| `LegacyHue` | `custom_components/sensor/hue.py` | parsers, and the classes `HueSensorData` and `HueSensor` |

Modelling choices:
- **Records.** A parsed record is a `map<Field, Value>`. `Field` has one constructor per key string the source writes. `Value` covers the JSON values the parsers store.
- **Dicts.** A Python dict that the source iterates is a `Dict`: its keys in insertion order, plus a map.
- **Raw records.** The raw bridge record is a datatype that carries every key the source reads. Fields the source tests against `None` are `Option`s.
- **Exceptions.** `KeyError` and `UnboundLocalError`, where the source can raise them, are the `Raises` case of a `Result`. A parse loop or a change-detection loop that raises part-way leaves the object's state unchanged, because the source assigns its fields only after those loops. A raise can leave partial state behind in two places, and the model keeps it there as well:
  - `_iter_data` in `data_manager.py` stores each device before it yields, so an error at a later device keeps the earlier devices' stores (`DataManager.DispatchPrefixRaises`).
  - `HueRemoteData.update_bridge` in `remote.py` raises its `KeyError` while firing events. By then it has already run `self.data.update(data)` and created the new entities (`Remote.HueRemoteData.FireEvents`).
- **Stateful objects.** Every object whose fields the source updates is a Dafny class. Its methods state their new fields as a function of the old ones. The properties are proved as lemmas about those functions.

## Model

| member | source | states |
|---|---|---|
| PyBase.Index | custom_components/huesensor/hue_api_response.py:109-157 | `d[key]` succeeds exactly when the key is present, and then yields the stored value; otherwise it raises KeyError |
| PyBase.Get | custom_components/huesensor/data_manager.py:65 | `d.get(key)`, on a record or on a dict of records, is `Some` exactly when the key is present, and then holds the stored value |
| PyBase.AssignValid | custom_components/huesensor/hue_api_response.py:286-288 | `d[k] = v` keeps every key listed exactly once, and the key set grows by exactly `k` |
| PyBase.SliceDropLast | custom_components/huesensor/hue_api_response.py:244 | `s[:-n]` drops the last n characters, or gives `""` for a string shorter than n |
| PyBase.SliceLast | custom_components/huesensor/sensor.py:62 | `s[-n:]` is the last n characters, or the whole string when it is shorter |
| PyBase.SliceTake | custom_components/huesensor/hue_api_response.py:240 | `s[0:n]` is the first n characters, or the whole string when it is shorter |
| PyBase.SliceWindow | custom_components/huesensor/hue_api_response.py:254 | `s[-a:-b]` is the window between the a-th and the b-th character from the end, clamped at the start, and empty when fewer than b characters remain |
| PyBase.Insert | custom_components/huesensor/hue_api_response.py:144 | `list.insert` adds exactly one element and keeps all the others (as a multiset) |
| PyBase.InsertBeforeLast | custom_components/huesensor/hue_api_response.py:144 | `insert(-1, x)` puts x just before the last element, or makes `[x]` from an empty list |
| PyBase.Split | custom_components/huesensor/hue_api_response.py:157 | `s.split(sep)` gives at least one part, and no part contains the separator |
| PyBase.JoinSplit | custom_components/huesensor/hue_api_response.py:157 | joining the parts of `s.split(sep)` with sep gives back s |
| PyBase.SplitJoin | custom_components/huesensor/hue_api_response.py:157 | splitting a join of separator-free parts gives back the parts |
| PyBase.Words | custom_components/huesensor/hue_api_response.py:143 | `s.split()` yields only non-empty, whitespace-free words, and the first word starts at the first character when that is not whitespace |
| PyBase.WordsOfWordThen | custom_components/huesensor/hue_api_response.py:143 | a word followed by whitespace or the end splits off as the first word |
| PyBase.WordsOfJoin | custom_components/huesensor/hue_api_response.py:143-145 | `" ".join(ws).split()` gives back ws when every element is a word |
| PyBase.Str | custom_components/huesensor/remote.py:129 | `str(n)` is never empty |
| PyBase.StrEnds | custom_components/huesensor/remote.py:129-130 | the first character of `str(n)` is `-` or the leading digit, and the last character is the last decimal digit of abs(n) |
| PyBase.DigitsFirst | custom_components/huesensor/remote.py:130 | the decimal string of a natural number starts with its leading digit |
| PyBase.FourDigitsLead | custom_components/huesensor/remote.py:130 | the leading digit of a four-digit event is the event divided by 1000 |
| BridgeRecord.ModelPrefix | custom_components/huesensor/hue_api_response.py:240 | `modelid[0:3]` is a prefix of `modelid`, three characters long or the whole `modelid` when shorter |
| BridgeRecord.UpdatedParts | custom_components/huesensor/hue_api_response.py:157 | `last_updated` is a list whose `"T"`-join is the bridge's `lastupdated` string |
| BridgeRecord.MotionNameExample | custom_components/huesensor/hue_api_response.py:142-145 | `"Living room sensor"` becomes `"Living room motion sensor"` |
| BridgeRecord.MotionNameWords | custom_components/huesensor/hue_api_response.py:142-145 | the motion-sensor name has the word `motion` before the last word of the raw name, and is `motion` alone for a blank name |
| BridgeRecord.InsertWordIsWords | custom_components/huesensor/hue_api_response.py:143-145 | inserting a word into a list of words keeps it a list of words |
| BridgeRecord.OnOff | custom_components/huesensor/hue_api_response.py:147 | state is `"on"` exactly when the flag is exactly `True` |
| BridgeRecord.NonGeofence | custom_components/huesensor/remote.py:292-296 | the records handed to the parser contain no Geofence record |
| BridgeRecord.NonGeofenceKeeps | custom_components/huesensor/remote.py:292-296 | a record reaches the parser exactly when the bridge lists it and its type is not Geofence |
| ButtonTables.GetOr | custom_components/huesensor/hue_api_response.py:164 | `table.get(code, default)` is the table's tag when the code is present, and otherwise the default (also for a missing code) |
| ButtonTables.DecodeDimmerPositive | custom_components/huesensor/remote.py:124-130 | a positive event decodes exactly when its last digit is 0-3, to its leading digit plus `_click`/`_hold`/`_click_up`/`_hold_up` |
| ButtonTables.DecodeDimmerNegative | custom_components/huesensor/remote.py:127-130 | a negative event decodes to `"-"` plus the suffix of its last digit, and raises for a last digit above 3 |
| ButtonTables.DecodeDimmerFourDigits | custom_components/huesensor/remote.py:128-130 | a four-digit event decodes to its thousands digit plus the suffix of its last digit |
| ButtonTables.DecodeDimmerExamples | custom_components/huesensor/remote.py:124-130 | 4002 ↦ `4_click_up`, 1002 ↦ `1_click_up`, 2001 ↦ `2_hold`, and 1004 raises |
| ButtonTables.DimmerButtonSpec | custom_components/huesensor/remote.py:127-130 | a missing or zero event gives the default; a positive one decodes exactly when its last digit is 0-3, to the leading digit plus the suffix |
| ButtonTables.IndexOr | custom_components/huesensor/sensor.py:70-75 | `None` gives the default; a code missing from the table raises KeyError, and only then |
| ButtonTables.FohTagsDistinct | custom_components/huesensor/hue_api_response.py:60-73 | the twelve Friends-of-Hue codes have pairwise distinct tags |
| ButtonTables.TapButtonsNumbered | custom_components/huesensor/remote.py:100 | the literal tap table maps 34, 16, 17 and 18 to `1_click` ... `4_click` and has no other key |
| ButtonTables.TapButtonsSpec | custom_components/huesensor/hue_api_response.py:92-97 | tap button n reads `n_click`, and the table has exactly the four tap codes |
| ButtonTables.TableDomain | custom_components/huesensor/hue_api_response.py:74-91 | a dict literal's keys are exactly the codes it lists |
| ButtonTables.TableLookup | custom_components/huesensor/hue_api_response.py:74-91 | in a dict literal with distinct codes, the m-th code reads the m-th tag |
| ButtonTables.RwlAsWrittenDomain | custom_components/huesensor/hue_api_response.py:74-91 | `RWL_BUTTONS` as written is defined exactly on the sixteen dimmer codes |
| ButtonTables.RwlButtonsPressHold | custom_components/huesensor/hue_api_response.py:74-83 | in the corrected table, the initial press of button n reads `n_click` and its hold reads `n_hold` |
| ButtonTables.RwlAsWrittenHoldReleases | custom_components/huesensor/hue_api_response.py:79-91 | in `RWL_BUTTONS` as written, the hold of button n reads `n_hold`, its short release `n_click_up` and its long release `n_hold_up` |
| ButtonTables.RwlInitialPressCollapses | custom_components/huesensor/hue_api_response.py:75-78 | as written, every initial-press code reads `1_click`, which differs from the intended tag for buttons 2-4 |
| ButtonTables.RwlTablesAgreeElsewhere | custom_components/huesensor/hue_api_response.py:74-91 | apart from the initial presses of buttons 2-4, the table as written and the corrected table have the same domain and the same tags |
| Aggregation.CollectValid | custom_components/huesensor/hue_api_response.py:278-290 | the dict the loop builds lists each of its keys exactly once |
| Aggregation.CollectResultsSpec | custom_components/huesensor/remote.py:62-95 | the loop succeeds exactly when every parser call succeeds; then it is the fold of the facets; otherwise it raises the first parser's error |
| Aggregation.CollectResultsAppend | custom_components/huesensor/remote.py:62-93 | one more record either raises or adds its facet to the dict built so far |
| Aggregation.CollectResultsPrefixRaises | custom_components/huesensor/remote.py:62-95 | once a prefix of the records raises, the whole loop raises the same error |
| Aggregation.CollectListed | custom_components/huesensor/hue_api_response.py:278-290 | every key the loop lists is in its dict |
| Aggregation.CollectKeys | custom_components/huesensor/hue_api_response.py:279-288 | a key is in the result exactly when some record contributes a facet under that key |
| Aggregation.CollectOrder | custom_components/huesensor/hue_api_response.py:286-288 | keys enter the result in the order their first records appear |
| Aggregation.CollectOrderLast | custom_components/huesensor/hue_api_response.py:286-288 | a key first named by the last record comes after every key named earlier |
| Aggregation.Position | custom_components/huesensor/hue_api_response.py:286-288 | the index of a key in the insertion order, or the length when it is absent |
| Aggregation.PositionPrefix | custom_components/huesensor/hue_api_response.py:286-288 | appending keys does not move an existing key |
| Aggregation.PositionAppend | custom_components/huesensor/hue_api_response.py:286-287 | a newly assigned key comes after every existing key |
| Aggregation.AddFacetKeepsOrder | custom_components/huesensor/hue_api_response.py:286-288 | an assignment or a merge keeps the relative order of existing keys |
| Aggregation.CollectMerged | custom_components/huesensor/hue_api_response.py:286-288 | with merges only, a field is in an entry exactly when some facet under that key has it, and its value is the last such facet's |
| Aggregation.LastWithIsLast | custom_components/huesensor/hue_api_response.py:286-288 | the last facet under a key that carries a field supplies that field |
| Aggregation.LastWithNone | custom_components/huesensor/hue_api_response.py:286-288 | no facet under the key carries the field, so no value is found |
| Aggregation.CollectReplaced | custom_components/huesensor/remote.py:64-75 | an assignment not followed by another record under its key leaves exactly its record in the result |
| Aggregation.CollectEntryFields | custom_components/huesensor/hue_api_response.py:286-288 | every field of an entry comes from some facet under that key |
| Aggregation.CollectCovered | custom_components/huesensor/hue_api_response.py:286-288 | a last facet whose fields include every earlier facet's fields for that key determines the whole entry |
| Aggregation.CollectSameTail | custom_components/huesensor/hue_api_response.py:279-288 | the loop depends on the records already seen only through the dict built so far |
| Aggregation.SwapDisjointMerges | custom_components/huesensor/hue_api_response.py:286-288 | two merges into one key with disjoint fields commute |
| Aggregation.SwapMerges | custom_components/huesensor/hue_api_response.py:286-288 | the one-step form of the commutation, on any dict |
| Aggregation.MergeTwiceOld | custom_components/huesensor/hue_api_response.py:288 | two merges into an existing key are right-biased unions onto the stored entry, with the key order unchanged |
| Aggregation.MergeTwiceNew | custom_components/huesensor/hue_api_response.py:286-288 | two merges into a new key append the key once and store the right-biased union |
| Aggregation.UpdateCommutes | custom_components/huesensor/hue_api_response.py:288 | `e.update(a)` then `update(b)` equals the other order when a and b share no field |
| Aggregation.DisjointUnionCommutes | custom_components/huesensor/hue_api_response.py:288 | a right-biased union of maps with disjoint keys is symmetric |
| Aggregation.CollectTwo | custom_components/huesensor/hue_api_response.py:278-288 | two more records are folded one after the other |
| HueApiResponse.IdentRawSensorSpec | custom_components/huesensor/hue_api_response.py:236-271 | a record is identified exactly when its prefix is SML, RWL, ROM, FOH, ZGP or Z3-; the key is the prefix, `_` and the family's slice of `uniqueid`; the parser is chosen by family and, for Z3-, by type |
| HueApiResponse.IdentZgpExample | custom_components/huesensor/hue_api_response.py:251-258 | `00:00:00:00:00:44:23:08-f2` (ZGP) ↦ key `ZGP_00:44:23:08` with the tap parser |
| HueApiResponse.IdentSmlSameDevice | custom_components/huesensor/hue_api_response.py:243-245 | two motion facets whose ids agree up to the last five characters get one key and one parser |
| HueApiResponse.IdentZ3SameDevice | custom_components/huesensor/hue_api_response.py:260-269 | an Aurora dial whose id is the switch's id plus five characters shares the switch's key; the switch keys on its whole id |
| HueApiResponse.ButtonParsersAgree | custom_components/huesensor/hue_api_response.py:162-233 | every button parser sets `state` and `last_button_event` to the same value: the tag its table gives (`RWL_BUTTONS` as written for the dimmer), or `"No data"` (None for the dimmer) for a missing or unknown code |
| HueApiResponse.RwlInitialPressReadsOne | custom_components/huesensor/hue_api_response.py:174-186 | a dimmer record whose event is the initial press of any button parses as `"1_click"` in both `state` and `last_button_event`; for buttons 2-4 this differs from the intended parser |
| HueApiResponse.RwlIntendedPress | custom_components/huesensor/hue_api_response.py:74-91 | the dimmer parser over the intended table reads `"n_click"` for the initial press of button n |
| HueApiResponse.RwlIntendedAgrees | custom_components/huesensor/hue_api_response.py:174-186 | the parser as written and the intended one give the same record for every event except the initial press of buttons 2-4 |
| HueApiResponse.Z3RotaryDial | custom_components/huesensor/hue_api_response.py:205-221 | the dial state is `begin` for 1, `end` for 2, and `"No data"` for anything else |
| HueApiResponse.PresenceFacet | custom_components/huesensor/hue_api_response.py:139-158 | the presence facet has exactly model, name, state, battery, on, reachable, sensitivity and last_updated; the name has `motion` inserted; state is on exactly when presence is True; last_updated joins back to `lastupdated` |
| HueApiResponse.LightLevelFacet | custom_components/huesensor/hue_api_response.py:108-132 | the light-level facet has exactly its six fields, copied from the reading, or the sentinel and five `None`s without one |
| HueApiResponse.TemperatureFacet | custom_components/huesensor/hue_api_response.py:134-137 | the temperature facet holds the reading in hundredths, or `"No temperature data"` |
| HueApiResponse.SmlKeys | custom_components/huesensor/hue_api_response.py:107-159 | the motion facet's fields are determined by the record's type alone (none for an unknown type) |
| HueApiResponse.SmlFacetsDisjoint | custom_components/huesensor/hue_api_response.py:107-159 | motion facets of different types share no field |
| HueApiResponse.SmlFieldsDisjoint | custom_components/huesensor/hue_api_response.py:107-159 | the field sets of distinct types are disjoint |
| HueApiResponse.ToFacet | custom_components/huesensor/hue_api_response.py:280-288 | an unidentified record is skipped; any other record is merged under its key with its parser's result (the dimmer parser reading `RWL_BUTTONS` as written) |
| HueApiResponse.Facets | custom_components/huesensor/hue_api_response.py:280-288 | there is one facet per record, in bridge order |
| HueApiResponse.ParseHueApiResponse | custom_components/huesensor/hue_api_response.py:274-290 | the loop's dict is the left-to-right fold of the records' facets, with the parsers as written |
| HueApiResponse.FacetsAppend | custom_components/huesensor/hue_api_response.py:280-288 | the facets of two runs of records are the facets of each, one after the other |
| HueApiResponse.ResultKeys | custom_components/huesensor/hue_api_response.py:279-288 | a key is in the result exactly when some identified record has it |
| HueApiResponse.ResultOrder | custom_components/huesensor/hue_api_response.py:286-288 | keys appear in the order of their first records |
| HueApiResponse.ResultMerged | custom_components/huesensor/hue_api_response.py:284-288 | a field takes its value from the last record under the key that parses it |
| HueApiResponse.ResultFieldAbsent | custom_components/huesensor/hue_api_response.py:284-288 | a field that no record under the key parses is absent from the entry |
| HueApiResponse.SmlFacetOrderIrrelevant | custom_components/huesensor/hue_api_response.py:284-288 | two adjacent records of one motion sensor with different types give the same result in either order, whatever records come before and after them |
| Remote.ZgpButton | custom_components/huesensor/remote.py:98-114 | the tap state is `1_click` ... `4_click` for 34, 16, 17 and 18, and `"No data"` for any other code or None; `last_button_event` equals the state |
| Remote.RwlButton | custom_components/huesensor/remote.py:117-142 | a missing or zero event gives state None; a positive event parses exactly when its last digit is 0-3, to the decoded tag; `last_button_event` equals the state |
| Remote.ToFacetSpec | custom_components/huesensor/remote.py:62-93 | only a dimmer with a bad last digit raises; prefixes other than RWL, ROM, FOH, ZGP and Z3- are dropped; keys agree with the newest revision's; only Z3- records merge |
| Remote.FacetKeyPrefix | custom_components/huesensor/remote.py:63-87 | every key starts with the record's three-character model prefix |
| Remote.Facets | custom_components/huesensor/remote.py:62-93 | one parse outcome per record, in bridge order |
| Remote.Parsed | custom_components/huesensor/remote.py:57-95 | a successful parse lists every key of its dict |
| Remote.ParseHueApiResponse | custom_components/huesensor/remote.py:57-95 | the loop returns the fold of the records' facets, or the first error |
| Remote.AddSensor | custom_components/huesensor/remote.py:62-93 | one loop iteration: the parser's error, or the facet added to the dict |
| Remote.ParsedRaises | custom_components/huesensor/remote.py:57-95 | the parse raises exactly when some RWL/ROM record has an event whose last digit is above 3 |
| Remote.ParsedKeys | custom_components/huesensor/remote.py:57-95 | a key is in the result exactly when some record contributes it |
| Remote.ParsedLastPutWins | custom_components/huesensor/remote.py:64-75 | an RWL/ROM/FOH/ZGP record that is the last under its key is the whole entry |
| Remote.ParsedZ3Merged | custom_components/huesensor/remote.py:77-93 | an Aurora field takes its value from the last record under the key that parses it |
| Remote.ReportedSpec | custom_components/huesensor/remote.py:299-308 | a key is reported exactly when it was stored, differs, and its last_updated differs (or else its state differs); the comparison raises KeyError exactly when it reads a missing field |
| Remote.ReportedKeys | custom_components/huesensor/remote.py:297-308 | every reported key is a parsed key |
| Remote.ReportedKeysSpec | custom_components/huesensor/remote.py:297-308 | the diff succeeds exactly when every comparison does, and then lists exactly the reported keys |
| Remote.ReportedKeysPrefixRaises | custom_components/huesensor/remote.py:297-308 | a comparison that raises stops the diff with that error |
| Remote.FirstWithoutState | custom_components/huesensor/remote.py:318-329 | events fire for the reported keys up to the first record without a state, where `data[entity_id]["state"]` raises |
| Remote.Events | custom_components/huesensor/remote.py:318-329 | one event per reported key |
| Remote.EventAt | custom_components/huesensor/remote.py:320-328 | the m-th event carries the m-th key and that key's stored state |
| Remote.PollConsistent | custom_components/huesensor/remote.py:286-329 | entities exist for exactly the stored keys, so `self.sensors[entity_id]` cannot fail, and a poll keeps this |
| Remote.PollStores | custom_components/huesensor/remote.py:297-317 | after a poll every parsed record is stored, unparsed stored keys are kept, and entities are created exactly for parsed keys that were not stored |
| Remote.PollFailsAtomically | custom_components/huesensor/remote.py:287-308 | an unavailable bridge, a parse error or a diff error leaves the data, entities and events unchanged; the unavailable bridge returns quietly and the errors propagate |
| Remote.PollFires | custom_components/huesensor/remote.py:318-329 | every fired event names a reported key and carries its new state |
| Remote.PollSchedules | custom_components/huesensor/remote.py:318-329 | each reported key has its refresh scheduled before its event fires, in parse order; a poll that raises while firing has scheduled one refresh more than it fired events, for the key whose stored record has no state |
| Remote.ScheduledKeys | custom_components/huesensor/remote.py:318-320 | the refreshes scheduled are the reported keys in order, up to and including the key where firing stops |
| Remote.ReportedListed | custom_components/huesensor/remote.py:297-308 | every key the diff lists is a parsed key whose comparison reported it |
| Remote.PollGrows | custom_components/huesensor/remote.py:286-329 | a poll drops no stored key or entity, takes back no scheduled refresh or fired event, and fires no more events than it schedules refreshes |
| Remote.PollOk | custom_components/huesensor/remote.py:297-329 | a successful poll stores the parse over the old data, adds the new keys' entities, schedules the reported keys' refreshes and fires their events in order |
| Remote.HueRemoteData.constructor | custom_components/huesensor/remote.py:278-284 | a new store has no data, no entities, no scheduled refreshes and no events |
| Remote.HueRemoteData.UpdateBridge | custom_components/huesensor/remote.py:286-329 | the new data, entities, scheduled refreshes and events are those of one poll of the old state |
| Remote.HueRemoteData.FireEvents | custom_components/huesensor/remote.py:318-329 | schedules each reported key's refresh and then fires its event, up to and including scheduling the first key without a state, and reports KeyError there |
| Remote.UpdatedSensors | custom_components/huesensor/remote.py:297-308 | the loop builds the list of reported keys, or stops at the first comparison that raises |
| Remote.IsReported | custom_components/huesensor/remote.py:300-307 | one comparison of a stored record with a new one |
| ChangedFlag.FlagSpec | custom_components/huesensor/sensor.py:196-206 | a parsed record is queued exactly when it was stored and differs from its flagged copy; the stored flag is True unless it was queued with equal last_updated and state; the comparison raises exactly when it reads a missing field |
| ChangedFlag.FlagClears | custom_components/huesensor/binary_sensor.py:234-244 | the stored record is the parse with a boolean `changed`, which is False exactly when the record was queued with equal last_updated and state |
| ChangedFlag.ClearedFlagRequeued | custom_components/huesensor/binary_sensor.py:235-244 | a record stored with `changed = False` and polled again unchanged is queued again, and its flag stays False |
| ChangedFlag.FlaggedUnchangedQuiet | custom_components/huesensor/binary_sensor.py:235-238 | a record stored with `changed = True` and polled again unchanged is not queued |
| ChangedFlag.FlagAllNext | custom_components/huesensor/sensor.py:196-206 | one more key extends the diff by that key's verdict: its flagged record is stored, and the key is queued when the verdict says so |
| ChangedFlag.FlagAllSpec | custom_components/huesensor/sensor.py:196-206 | the diff succeeds exactly when every comparison does; it flags every parsed key, and queues exactly the keys whose comparison queues them |
| ChangedFlag.FlagAllPrefixRaises | custom_components/huesensor/sensor.py:196-206 | a comparison that raises stops the diff with that error |
| ChangedFlag.Refreshed | custom_components/huesensor/sensor.py:194-217 | a refresh whose comparison raises changes nothing; otherwise it drops no stored key or entity and takes back no scheduled refresh |
| ChangedFlag.RefreshedConsistent | custom_components/huesensor/sensor.py:194-217 | entities exist for exactly the stored keys, and every scheduled refresh names an entity that existed before |
| ChangedFlag.RefreshedStores | custom_components/huesensor/sensor.py:194-207 | after a refresh each parsed key stores its flagged record and is scheduled exactly when it was queued; other keys are untouched |
| ChangedFlag.FlaggedSensorData.constructor | custom_components/huesensor/sensor.py:175-181 | a new store is empty |
| ChangedFlag.FlaggedSensorData.Refresh | custom_components/huesensor/sensor.py:194-217 | the new data, entities and scheduled refreshes are those of one refresh of the old state |
| ChangedFlag.FlagOne | custom_components/huesensor/sensor.py:197-206 | one iteration of the flagging loop |
| Sensor.ZgpAgrees | custom_components/huesensor/sensor.py:68-83 | the tap parser raises exactly for a code outside its table; otherwise its record is the remote revision's without `last_button_event` |
| Sensor.FohAgrees | custom_components/huesensor/sensor.py:112-139 | the Friends-of-Hue parser raises exactly for a code outside its table; otherwise its record is the newest revision's without `last_button_event` |
| Sensor.RwlAgrees | custom_components/huesensor/sensor.py:86-109 | the dimmer parser raises exactly when the remote revision's does, and otherwise gives its record without `last_button_event` |
| Sensor.ToFacetSpec | custom_components/huesensor/sensor.py:53-63 | RWL/ZGP key on `[:-5]` and FOH on `[-5:]`; all are assigned, not merged; SML and other prefixes yield nothing; a parser's error propagates |
| Sensor.Facets | custom_components/huesensor/sensor.py:53-63 | one parse outcome per record, in bridge order |
| Sensor.Parsed | custom_components/huesensor/sensor.py:47-65 | a successful parse lists each key exactly once |
| Sensor.ParseHueApiResponse | custom_components/huesensor/sensor.py:47-65 | the loop returns the fold of the facets, or the first error |
| Sensor.AddSensor | custom_components/huesensor/sensor.py:53-63 | one loop iteration |
| Sensor.ParsedRaises | custom_components/huesensor/sensor.py:47-65 | the parse raises exactly when some record's parser raises |
| Sensor.ParsedKeys | custom_components/huesensor/sensor.py:47-65 | a key is in the result exactly when some record contributes it |
| Sensor.ParsedLastWins | custom_components/huesensor/sensor.py:56-63 | the last record under a key is the whole entry |
| Sensor.Poll | custom_components/huesensor/sensor.py:183-217 | a poll that raises changes nothing; a poll drops no stored key or entity and takes back no scheduled refresh |
| Sensor.PollConsistent | custom_components/huesensor/sensor.py:183-217 | entities exist for exactly the stored keys after a poll, and every scheduled refresh names an entity that existed before |
| Sensor.PollFailsAtomically | custom_components/huesensor/sensor.py:184-192 | an unavailable bridge or a parse error changes nothing; the unavailable bridge returns quietly and the error propagates |
| Sensor.UpdateBridge | custom_components/huesensor/sensor.py:183-217 | the new data, entities and scheduled refreshes are those of one poll of the old state |
| Sensor.EntityStateSpec | custom_components/huesensor/sensor.py:260-265 | the state is None for a missing or empty record or a false `changed`, and the stored state for a true one; it raises exactly when `changed`, or `state` under a true flag, is missing |
| Sensor.PollShowsState | custom_components/huesensor/sensor.py:196-207 | after a poll an entity shows the new state, unless its flag was cleared, which happens exactly when it was queued with equal last_updated and state |
| Sensor.EntityStateFlag | custom_components/huesensor/sensor.py:262-265 | a record stored with flag b shows its state when b holds, and None otherwise |
| BinarySensor.SmlAgrees | custom_components/huesensor/binary_sensor.py:78-133 | the motion parser raises UnboundLocalError exactly for a type other than the three handled; otherwise it gives the newest revision's non-empty facet |
| BinarySensor.PhdSpec | custom_components/huesensor/binary_sensor.py:135-177 | the daylight parser raises UnboundLocalError exactly for a type other than Daylight; otherwise its record has exactly the twelve daylight fields and model PHD |
| BinarySensor.PhdState | custom_components/huesensor/binary_sensor.py:137-175 | state is on exactly when daylight is True, and is `"No Daylight data"` exactly when daylight is None, in which case every other field is None |
| BinarySensor.ToFacetSpec | custom_components/huesensor/binary_sensor.py:60-75 | SML and PHD records are merged, under `SML_` + `uniqueid[:-5]` and under `PHD_` + the bridge id; other models are dropped; a parser's error propagates |
| BinarySensor.Facets | custom_components/huesensor/binary_sensor.py:60-74 | one parse outcome per record, in bridge order |
| BinarySensor.Parsed | custom_components/huesensor/binary_sensor.py:55-75 | a successful parse lists each key exactly once |
| BinarySensor.ParseHueApiResponse | custom_components/huesensor/binary_sensor.py:55-75 | the loop returns the fold of the facets, or the first error |
| BinarySensor.AddSensor | custom_components/huesensor/binary_sensor.py:60-74 | one loop iteration |
| BinarySensor.ParsedRaises | custom_components/huesensor/binary_sensor.py:55-75 | the parse raises exactly when some record's parser raises, and then raises UnboundLocalError |
| BinarySensor.ParsedDaylightLastWins | custom_components/huesensor/binary_sensor.py:69-74 | the bridge's daylight entry is exactly the last daylight record's parse |
| BinarySensor.DaylightKeyOnlyPhd | custom_components/huesensor/binary_sensor.py:60-74 | only daylight records contribute to the bridge's daylight key |
| BinarySensor.Poll | custom_components/huesensor/binary_sensor.py:221-255 | a poll that raises changes nothing; a poll drops no stored key or entity and takes back no scheduled refresh |
| BinarySensor.PollConsistent | custom_components/huesensor/binary_sensor.py:221-255 | entities exist for exactly the stored keys after a poll, and every scheduled refresh names an entity that existed before |
| BinarySensor.PollFailsAtomically | custom_components/huesensor/binary_sensor.py:222-230 | an unavailable bridge or a parse error changes nothing; the unavailable bridge returns quietly and the error propagates |
| BinarySensor.UpdateBridge | custom_components/huesensor/binary_sensor.py:221-255 | the new data, entities and scheduled refreshes are those of one poll of the old state |
| BinarySensor.IsOnSpec | custom_components/huesensor/binary_sensor.py:301-307 | `is_on` holds exactly when a record exists, its model is SML or PHD, `changed` is truthy and its state is on; it raises exactly when a field it reads is missing |
| BinarySensor.IsOnFlag | custom_components/huesensor/binary_sensor.py:304-307 | a motion or daylight record stored with flag b is on exactly when b holds and its state is on |
| BinarySensor.PollIsOn | custom_components/huesensor/binary_sensor.py:232-245 | after a poll an entity shows whether the new state is on, unless its flag was cleared, which happens exactly when it was queued with equal last_updated and state |
| DataManager.Matching | custom_components/huesensor/data_manager.py:55-59 | only records whose model id starts with a registered model reach the parser |
| DataManager.MatchingKeeps | custom_components/huesensor/data_manager.py:55-59 | a record reaches the parser exactly when the bridge lists it and its model matches |
| DataManager.Parsed | custom_components/huesensor/data_manager.py:55-59 | the parse lists each key exactly once |
| DataManager.Classify | custom_components/huesensor/data_manager.py:60-80 | only KeyError is raised; a classified device has a model, which is reported with it, and its stored record keeps every field of the parse and of the old record; a first sighting is always reported as updated |
| DataManager.ClassifyRaises | custom_components/huesensor/data_manager.py:60-78 | classification raises KeyError exactly when the record has no model, or it differs from a stored record and the comparison reads a missing field |
| DataManager.ClassifyFirstSighting | custom_components/huesensor/data_manager.py:65-68 | a first sighting is stored as parsed (flagged for SML) and reported as updated |
| DataManager.ClassifyEqual | custom_components/huesensor/data_manager.py:69 | a record equal to the stored one is not reported, and the store is untouched |
| DataManager.ClassifyMerges | custom_components/huesensor/data_manager.py:69-78 | a differing record is merged into the stored one (old-only fields survive); it is reported exactly when last_updated or state changed; SML records carry `changed` equal to that verdict |
| DataManager.EnqueueQueued | custom_components/huesensor/data_manager.py:117-120 | after registration an entity is queued exactly when it was queued before or is the new one |
| DataManager.EnqueueInBatch | custom_components/huesensor/data_manager.py:117-120 | the new entity joins the batch of its platform's add function |
| DataManager.EnqueueLength | custom_components/huesensor/data_manager.py:118-119 | a batch is opened only for an add function that has none yet |
| DataManager.DispatchPrefixRaises | custom_components/huesensor/data_manager.py:156-177 | an error in one device stops the dispatch with that error |
| DataManager.StepOutcome | custom_components/huesensor/data_manager.py:60-120 | one device raises only KeyError, unregisters nothing, takes back no state write, and, unless it raises, leaves the device stored |
| DataManager.StepFrame | custom_components/huesensor/data_manager.py:60-80 | one device's step touches no other device's record or registration |
| DataManager.DispatchModelless | custom_components/huesensor/data_manager.py:62 | a parsed device without a model makes the dispatch fail |
| DataManager.DispatchDataFrame | custom_components/huesensor/data_manager.py:60-80 | devices not in this poll keep their stored records |
| DataManager.DispatchRegistered | custom_components/huesensor/data_manager.py:147-149 | registration only grows, and only for devices of this poll |
| DataManager.DispatchQueued | custom_components/huesensor/data_manager.py:110-120 | an entity is queued after the dispatch exactly when it was queued before or was newly registered |
| DataManager.DispatchWritten | custom_components/huesensor/data_manager.py:159-177 | writes are only appended, and only for devices of this poll that have entities, and only on a poll |
| DataManager.DispatchStores | custom_components/huesensor/data_manager.py:60-80 | each device of the poll stores its classified record, and is newly registered exactly when it was updated and not registered |
| DataManager.DispatchWrites | custom_components/huesensor/data_manager.py:159-177 | on a poll a device's state is written exactly when it was updated, was already registered, and has an entity in hass |
| DataManager.DispatchKeepsWritten | custom_components/huesensor/data_manager.py:147-149 | platform setup writes no state |
| DataManager.StartedSpec | custom_components/huesensor/data_manager.py:82-94 | starting a running scheduler does nothing; otherwise it installs the new listener and sets available; starting twice equals starting once |
| DataManager.StoppedSpec | custom_components/huesensor/data_manager.py:96-108 | stopping a stopped scheduler does nothing; otherwise it cancels and clears the listener and clears available; stopping is idempotent |
| DataManager.StartThenStop | custom_components/huesensor/data_manager.py:82-108 | starting and then stopping a stopped scheduler cancels exactly the listener it installed |
| DataManager.RemovedSpec | custom_components/huesensor/data_manager.py:197-206 | removal pops the id from both maps (KeyError when either lacks it), and stops the scheduler exactly when no entity is left |
| DataManager.HueSensorData.constructor | custom_components/huesensor/data_manager.py:35-48 | a new data manager is empty and stopped |
| DataManager.HueSensorData.StartScheduler | custom_components/huesensor/data_manager.py:82-94 | the scheduler fields move as `Started` says |
| DataManager.HueSensorData.StopScheduler | custom_components/huesensor/data_manager.py:96-108 | the scheduler fields move as `Stopped` says |
| DataManager.HueSensorData.AddedToHass | custom_components/huesensor/data_manager.py:189-195 | the entity is added to `sensors` and the scheduler is started |
| DataManager.HueSensorData.WillRemoveFromHass | custom_components/huesensor/data_manager.py:197-206 | the entity fields and scheduler move as `Removed` says |
| DataManager.HueSensorData.AddNewEntities | custom_components/huesensor/data_manager.py:122-136 | every batch is handed over in order; the one scan interval passed to the call is stored exactly when none was set before, one is given, and at least one batch is handed over; otherwise the stored interval is unchanged |
| DataManager.HueSensorData.UpdateFromBridges | custom_components/huesensor/data_manager.py:153-178 | the store, registration and writes are the dispatch of the parse of the registered models; the queued batches are handed over only when the dispatch succeeds |
| DataManager.HueSensorData.AddPlatformEntities | custom_components/huesensor/data_manager.py:138-151 | the platform is registered for its models, the matching devices are dispatched without writes, and the batches and scan interval are handed over |
| DataManager.WithPlatformSpec | custom_components/huesensor/data_manager.py:142-144 | each listed model maps to the new platform; other models keep theirs |
| DataManager.RegisterPlatform | custom_components/huesensor/data_manager.py:142-144 | the registration loop builds the platform map and the model set |
| DataManager.DispatchAll | custom_components/huesensor/data_manager.py:156-177 | the dispatch loop over the parsed devices computes the dispatch fold |
| DataManager.DispatchOne | custom_components/huesensor/data_manager.py:159-171 | one iteration of the dispatch loop |
| DataManager.ClassifyOne | custom_components/huesensor/data_manager.py:61-78 | the per-device classification of `_iter_data` |
| LegacyHue.SmlAgrees | custom_components/sensor/hue.py:50-98 | the motion parser raises UnboundLocalError exactly for an unhandled type; otherwise it gives the newest revision's facet without the thresholds and sensitivity |
| LegacyHue.RwlAgrees | custom_components/sensor/hue.py:119-142 | the dimmer parser fails exactly when the sensor revision's does, and agrees with it except that no event reads `""` |
| LegacyHue.ToFacetSpec | custom_components/sensor/hue.py:33-45 | RWL, ZGP and SML key on `[:-5]`; RWL/ZGP are assigned and SML merged; other prefixes are dropped; parser errors propagate |
| LegacyHue.FacetKeyPrefix | custom_components/sensor/hue.py:34-36 | every key starts with the record's model prefix |
| LegacyHue.Facets | custom_components/sensor/hue.py:33-45 | one parse outcome per record, in order |
| LegacyHue.Parsed | custom_components/sensor/hue.py:28-47 | a successful parse lists each key exactly once |
| LegacyHue.ParseHueApiResponse | custom_components/sensor/hue.py:28-47 | the loop returns the fold of the facets, or the first error |
| LegacyHue.AddSensor | custom_components/sensor/hue.py:33-45 | one loop iteration |
| LegacyHue.ParsedRaises | custom_components/sensor/hue.py:28-47 | the parse raises exactly when some record's parser raises |
| LegacyHue.ParsedKeys | custom_components/sensor/hue.py:28-47 | a key is in the result exactly when some record contributes it |
| LegacyHue.ParsedLastWins | custom_components/sensor/hue.py:37-40 | the last RWL/ZGP record under a key is the whole entry |
| LegacyHue.ParsedSmlMerged | custom_components/sensor/hue.py:41-45 | a motion field takes its value from the last facet under the key that has it |
| LegacyHue.UpdatedInfoSpec | custom_components/sensor/hue.py:161-185 | without bridges nothing changes; a parse error changes nothing; otherwise the data is replaced wholesale by the parse (keys it no longer sees are dropped) and exactly the keys not stored before are announced; every stored key stays announced |
| LegacyHue.AvailableAfterUpdate | custom_components/sensor/hue.py:181-216 | after an update an entity is available exactly when its key is in the parse |
| LegacyHue.HueSensorData.constructor | custom_components/sensor/hue.py:155-159 | a new store has no data and has announced nothing |
| LegacyHue.HueSensorData.UpdateInfo | custom_components/sensor/hue.py:161-185 | the data and announcements move as one update says |
| LegacyHue.PresentPrefix | custom_components/sensor/hue.py:234-256 | the attributes copied before the first missing one: all present, and the next one absent |
| LegacyHue.Copied | custom_components/sensor/hue.py:234-256 | copying attributes never removes one |
| LegacyHue.CopiedSpec | custom_components/sensor/hue.py:234-256 | the copied attributes take the record's values; the others keep their old values |
| LegacyHue.CopyAttributes | custom_components/sensor/hue.py:236-255 | the copying loop stops at the first missing attribute, as the `try` does |
| LegacyHue.Refreshed | custom_components/sensor/hue.py:228-256 | `update` raises nothing but KeyError and never removes an attribute |
| LegacyHue.RefreshedSpec | custom_components/sensor/hue.py:228-256 | no record leaves the entity unchanged; a record without a state raises and changes nothing; otherwise state is copied and the model's attributes up to the first missing one |
| LegacyHue.RwlRefreshed | custom_components/sensor/hue.py:246-251 | a parsed dimmer record sets the remote icon, the state and every dimmer attribute |
| LegacyHue.SmlStopsAtTemperature | custom_components/sensor/hue.py:243-245 | a motion record without temperature leaves `on` and `reachable` at their old values |
| LegacyHue.HueSensor.constructor | custom_components/sensor/hue.py:193-201 | an entity starts with its record's name, model and state, no icon and no attributes |
| LegacyHue.HueSensor.Update | custom_components/sensor/hue.py:228-256 | the state, icon and attributes move as `Refreshed` says |

## Left out

- Floating point is not modelled. The light-level `lx` (`round(10 ** ((lightlevel - 1) / 10000), 2)`) is an opaque value of the level. A temperature is kept as integer hundredths instead of `/ 100.0`.
- A missing key in a raw bridge record is not modelled: the raw record datatype carries every key the parsers read. KeyError and UnboundLocalError are modelled where they come from parsed data, tables, digit decoding and parser branches.
- The aiohue button constants of `hue_api_response.py` have values that are not visible here. They are a parameter whose tap codes are distinct and whose sixteen dimmer codes are distinct.
- Host glue is not modelled because it is framework code:
  - `get_bridges`, `async_get_bridges` and `update_api` become a `fetched` or `hasApis` flag and a list of raw records;
  - `async_setup_platform` and `async_track_time_interval` are not modelled; a new listener is a number passed in;
  - the polling-interval service is not modelled;
  - `hass.bus.async_fire` calls are appended to the remote platform's sequence `fired`, and `async_schedule_update_ha_state` calls to the sequence `scheduled` of the remote, sensor and binary-sensor platforms;
  - `async_write_ha_state` calls are appended to the data manager's sequence `written`, and its `async_add_entities` batches to `handedOver`;
  - the legacy platform's `async_add_entities` calls are appended to `announced`, one key set per call;
  - entity objects are represented by their ids.
- Concurrency is not modelled: locks, `asyncio.wait` across bridges, timeouts and `asyncio.sleep`. Each poll handles one bridge.
- Icons, device classes and the attribute dictionaries of the remote, sensor, binary sensor and data-manager entities are not modelled. They are constant-table reads. The attribute copying of `custom_components/sensor/hue.py` is modelled.
- The entity properties `name`, `unique_id`, `should_poll` and `force_update`, and `turn_on`/`turn_off`, are not modelled. They return stored values or nothing.
- The value of a scan interval and its logging are not modelled. Only whether one is set, and by which call, is modelled.
- Python equality is structural equality of the modelled values. Cross-type comparisons such as `1 == True` are not distinguished.
- `custom_components/huesensor/device_tracker.py`, `custom_components/device_tracker/hue.py`, `bridge/hue_bridge.py` and `custom_components/huesensor/__init__.py` are not part of this model. They are geofence scanning, file I/O and host look-ups.
- Remote.Poll, Sensor.Poll and BinarySensor.Poll record the entities handed to `async_add_entities` only as the set `sensors` of their keys. The order of that call relative to the scheduled refreshes, and the order of the entities within it, are not modelled.
- LegacyHue.HueSensor.constructor requires the record to hold `name`, `model` and `state`. The source raises KeyError when one of them is missing.
- Remote.HueRemoteData.UpdateBridge, Sensor.UpdateBridge and BinarySensor.UpdateBridge require that entities exist for exactly the stored keys. Under that invariant the source's `self.sensors[entity_id]` look-up cannot raise, so its KeyError is not modelled. `PollConsistent` proves that every poll keeps the invariant.

## Findings

| source | as written | input that shows it | evidently intended | confidence | as-written member | corrected member |
|---|---|---|---|---|---|---|
| custom_components/huesensor/hue_api_response.py:74-78 | `RWL_BUTTONS` maps the initial press of all four dimmer buttons to `"1_click"` | a dimmer event equal to `ZLL_SWITCH_BUTTON_3_INITIAL_PRESS` parses as `"1_click"` | the initial press of button n reads `"n_click"`, as the hold and release entries do for button n | not executed | HueApiResponse.RwlInitialPressReadsOne | HueApiResponse.RwlIntendedPress |

The parsers, and everything the model builds on them, use `RWL_BUTTONS` as written. `HueApiResponse.RwlIntended` is the corrected dimmer parser. It sits beside them, and `HueApiResponse.RwlIntendedAgrees` bounds how far the two differ.
