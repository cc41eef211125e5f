# iAquaLink iAqua backend: classifier, devices and device-table reconciliation

This project models the core of the Python iAquaLink client's `iaqua` backend in Dafny:

- how a raw device record is classified into a device class;
- what each device class reads from its record;
- what each device action does: it raises, does nothing, or makes exactly one system call with parameters it builds;
- how the system flattens the `home_screen` and `devices_screen` payloads into partial records and merges them into its device table;
- how the system builds the `set_temps` and ICL-light requests;
- how `update` keeps the `online` flag and the refresh time.

Modules:

- `Wrappers`: Option and Result.
- `Text`: the Python string operations the core uses. These are `split`, `capitalize`, `startswith`/`endswith`, `replace`, `str(int)` and `int(str)`.
- `Json`: decoded payload values. Objects are ordered sequences of pairs in which the last duplicate key wins. Device records are maps. The module also holds the exceptions as the `Fault` datatype and the dict operations `d[k] = v`, `update` and `get`.
- `BaseDevice`: `src/iaqualink/device.py`. Equality and the light and heat-pump capability defaults.
- `IaquaDevice`: `src/iaqualink/systems/iaqua/device.py`. A device is a `Kind`, fixed by the classifier, plus its record.
  - Every property is a function of the record and, for thermostats and heat pumps, of the device table and the temperature unit.
  - Every action is a `Plan`: an exception, nothing, or a `Call` to a system method.
- `IaquaSystem`: `src/iaqualink/systems/iaqua/system.py`.
  - The payload loops are specified by folds (`Fold`) and performed by loop methods.
  - The merge into the device table is specified by `Reconcile` and performed by `System.ApplyBatch`.
  - The class `System` holds the table, `temp_unit`, `online`, `last_refresh` and a log of the requests sent. Each request is a command and its parameters.
  - Each method of `System` states its whole new state as a `Snapshot`, in terms of the specification functions. The lemmas are proved about those functions.

A Python exception is an `Err(fault)`, or a `Some(fault)` beside the state it leaves behind. The system's device table is mutated in place before an exception escapes, so the parsers return the table as it stood when the exception was raised.

## Model

| member | source | states |
|---|---|---|
| BaseDevice.DunderEq | src/iaqualink/device.py:28-37 | answers NotImplemented exactly for a non-device operand, and True exactly when the systems' serials and the data dicts are both equal |
| BaseDevice.Equals | src/iaqualink/device.py:28-37 | `==` with a non-device is False, because NotImplemented falls back to identity |
| BaseDevice.EqualsIsEquivalence | src/iaqualink/device.py:28-37 | device equality is reflexive, symmetric and transitive |
| BaseDevice.EqualsIffSameSerialAndData | src/iaqualink/device.py:28-37 | two devices are equal if and only if serial and data are equal |
| BaseDevice.DefaultSetter | src/iaqualink/device.py:89-138 | a base setter raises NotImplementedError exactly for a supported capability, and OperationNotSupported exactly for an unsupported one |
| BaseDevice.BaseLightSupportsNothing | src/iaqualink/device.py:80-138 | the base accessors are all None, so supports_X is false for every X and every base setter raises OperationNotSupported |
| IaquaDevice.StateOf | src/iaqualink/systems/iaqua/device.py:33-40 | AqualinkState(v) succeeds exactly for the six codes and returns the member with that code; anything else is ValueError |
| IaquaDevice.StateRoundTrip | src/iaqualink/systems/iaqua/device.py:33-40 | every member reads back from its own code |
| IaquaDevice.SubtypeModel | src/iaqualink/systems/iaqua/device.py:401-408 | light_subtype_to_class maps exactly "1".."6" to the six colour models; any other subtype is a KeyError, or a TypeError for an unhashable one |
| IaquaDevice.SubtypeRoundTrip | src/iaqualink/systems/iaqua/device.py:401-408 | each colour model is selected by its own subtype code |
| IaquaDevice.ClassifyHeatPumpFirst | src/iaqualink/systems/iaqua/device.py:80-81 | the classifier answers HeatPump if and only if the name is heatpump_info |
| IaquaDevice.ClassifyIclBeforeState | src/iaqualink/systems/iaqua/device.py:82-83 | ICLLight if and only if the name is not heatpump_info and it is icl_light or a zoneId key exists; this happens before the state is read |
| IaquaDevice.ClassifyReadsState | src/iaqualink/systems/iaqua/device.py:84-87 | past the two special names, a missing state raises KeyError('state'), and a dict or list state is NotSupported |
| IaquaDevice.ClassifyByName | src/iaqualink/systems/iaqua/device.py:88-108 | rules 4-8 in order: _heater/_pump gives Switch; _set_point gives Thermostat, or NotSupported for an empty state; freeze_protection/_present gives BinarySensor; aux_ goes to the aux rules; anything else is a Sensor |
| IaquaDevice.AuxKindRules | src/iaqualink/systems/iaqua/device.py:98-106 | type "2" gives the colour light its subtype selects, and a bad subtype raises the lookup's error; type "1" gives DimmableLight; any other type gives LightSwitch or AuxSwitch according to whether the label contains "LIGHT" |
| IaquaDevice.ClassifyRaisesOnlyNotSupported | src/iaqualink/systems/iaqua/device.py:75-110 | a record holding every field the rules read never raises anything but NotSupported |
| IaquaDevice.Label | src/iaqualink/systems/iaqua/device.py:50-57 | label succeeds exactly when the field it splits (label, else name) is a string, and raises KeyError('name') when neither exists; from a label its words are the label's words capitalized; from a name it has the name's length, a space for each underscore, each piece's first character upper-cased and the rest lower-cased |
| Text.WordsOfTitle | src/iaqualink/systems/iaqua/device.py:54 | splitting a title on whitespace gives the text's words capitalized |
| Text.NameCharAt | src/iaqualink/systems/iaqua/device.py:57 | each character of a spelt-out name is a space for an underscore, upper-case at the start of a piece, lower-case elsewhere |
| Text.JoinNameChars | src/iaqualink/systems/iaqua/device.py:57 | joining the capitalized pieces of a split on underscores with spaces spells the name out character by character |
| Text.TitleFromNameChars | src/iaqualink/systems/iaqua/device.py:57 | " ".join(x.capitalize() for x in name.split("_")) keeps the name's length and maps it character by character |
| IaquaDevice.LabelIsFixedPoint | src/iaqualink/systems/iaqua/device.py:50-54 | storing a label back as the label field leaves the label unchanged |
| IaquaDevice.StateValue | src/iaqualink/systems/iaqua/device.py:59-61 | state is the state field, raising KeyError('state') when it is missing; a heat pump's state is heatpumpstatus, "off" when missing |
| IaquaDevice.ModelDropsPrefix | src/iaqualink/systems/iaqua/device.py:71-73 | the model of a non-colour class is its class name without the "Iaqua" prefix |
| IaquaDevice.Manufacturer | src/iaqualink/systems/iaqua/device.py:232-371 | the colour-light overrides of the base Jandy (lines 67-69): every class answers Jandy except the Pentair (SL, CL, IB) and Hayward (HU) colour lines; no other maker is ever named |
| IaquaDevice.Model | src/iaqualink/systems/iaqua/device.py:236-375 | a colour light's model is its product line, a name ending in " Light" |
| IaquaDevice.ColorModelsNamedApart | src/iaqualink/systems/iaqua/device.py:236-375 | the six colour-light classes report six different model names |
| IaquaDevice.BinaryOn | src/iaqualink/systems/iaqua/device.py:120-127 | is_on is True exactly for ON, ENABLED or PRESENT; it raises exactly for a missing state or a non-empty state outside the enum |
| IaquaDevice.AuxOn | src/iaqualink/systems/iaqua/device.py:144-150 | an aux switch is on exactly for state "1", and raises under the same conditions as BinaryOn |
| IaquaDevice.StatusOn | src/iaqualink/systems/iaqua/device.py:494-497 | on exactly when the status field exists and is not "off" |
| IaquaDevice.Prefix | src/iaqualink/systems/iaqua/device.py:412-414 | _type succeeds exactly for a string name; the result is the name up to its first underscore, or the whole name when it has none |
| IaquaDevice.PrefixOfName | src/iaqualink/systems/iaqua/device.py:412-414 | the prefix of `a_b` is a when a has no underscore |
| IaquaDevice.Sibling | src/iaqualink/systems/iaqua/device.py:427-429 | devices[prefix + suffix] succeeds exactly when that key exists, and returns that device |
| IaquaDevice.ThermostatFollowsHeater | src/iaqualink/systems/iaqua/device.py:468-470 | a thermostat is on exactly when its heater sibling is |
| IaquaDevice.Brightness | src/iaqualink/systems/iaqua/device.py:169-171 | brightness exists only on lights; a light switch or colour light keeps the base None; a dimmer's is int(subtype), raising KeyError without a subtype and failing exactly when int() does; an ICL zone's is int(dim_level) when dim_level is truthy and None otherwise |
| IaquaDevice.DimmerBrightnessReadsBack | src/iaqualink/systems/iaqua/device.py:169-171 | a dimmer whose subtype holds str(n) has brightness n |
| IaquaDevice.Effect | src/iaqualink/device.py:94-96 | effect exists only on lights; a light switch or dimmer keeps the base None |
| IaquaDevice.ZoneId | src/iaqualink/systems/iaqua/device.py:485-487 | an ICL zone's id is its zoneId field, 1 when the record has none |
| IaquaDevice.ZoneName | src/iaqualink/systems/iaqua/device.py:490-492 | an ICL zone's name is its zoneName field, "Pool lights" when the record has none |
| IaquaDevice.Channel | src/iaqualink/systems/iaqua/device.py:508-510 | a missing ICL channel reads 0; a present one reads int() of its value, or None when int() raises |
| IaquaDevice.RgbColor | src/iaqualink/systems/iaqua/device.py:504-513 | an ICL colour is a triple exactly when all three channels convert with int() |
| IaquaDevice.WhiteValue | src/iaqualink/systems/iaqua/device.py:515-521 | an ICL white value is the white channel converted with int() |
| IaquaDevice.LightSwitchSupportsNothing | src/iaqualink/systems/iaqua/device.py:156-157 | a light switch supports none of the four capabilities |
| IaquaDevice.IclBrightnessReadsBack | src/iaqualink/systems/iaqua/device.py:499-502 | a dim_level written as str(n) reads back as brightness n |
| IaquaDevice.DimLevelOf | src/iaqualink/systems/iaqua/device.py:499-502 | a truthy dim_level that int() converts to n gives brightness n |
| IaquaDevice.ChannelOf | src/iaqualink/systems/iaqua/device.py:508-510 | a channel holding str(n) reads n |
| IaquaDevice.IclColorReadsBack | src/iaqualink/systems/iaqua/device.py:504-513 | colour channels written as str(n) read back as those numbers |
| IaquaDevice.RgbOfChannels | src/iaqualink/systems/iaqua/device.py:504-513 | three channels that int() converts give that colour |
| IaquaDevice.IclWhiteReadsBack | src/iaqualink/systems/iaqua/device.py:515-521 | a white value written as str(n) reads back as that number |
| IaquaDevice.IclChannelDefaults | src/iaqualink/systems/iaqua/device.py:504-521 | missing channels read 0; a None channel makes the colour (or the white value) None |
| IaquaDevice.EffectTableShape | src/iaqualink/systems/iaqua/device.py:240-398 | every table maps "Off" to 0, has distinct names and ids 0..n-1 in order, with n = 12, 10, 13, 15, 13 and 18 |
| IaquaDevice.ShapeJC | src/iaqualink/systems/iaqua/device.py:240-254 | the JC table has contiguous ids and distinct names |
| IaquaDevice.ShapeSL | src/iaqualink/systems/iaqua/device.py:267-279 | the SL table has contiguous ids and distinct names |
| IaquaDevice.ShapeCL | src/iaqualink/systems/iaqua/device.py:292-307 | the CL table has contiguous ids and distinct names |
| IaquaDevice.ShapeJL | src/iaqualink/systems/iaqua/device.py:320-337 | the JL table has contiguous ids and distinct names |
| IaquaDevice.ShapeIB | src/iaqualink/systems/iaqua/device.py:350-365 | the IB table has contiguous ids and distinct names |
| IaquaDevice.ShapeHU | src/iaqualink/systems/iaqua/device.py:378-398 | the HU table has contiguous ids and distinct names |
| IaquaDevice.ValidIds | src/iaqualink/systems/iaqua/device.py:215-220 | in a contiguous table an id is among the values if and only if it lies in 0..n-1 |
| IaquaDevice.RangeByUnit | src/iaqualink/systems/iaqua/device.py:439-449 | the accepted range is 34-104 for "F" and 1-40 for any other unit |
| IaquaDevice.TempSlot | src/iaqualink/systems/iaqua/device.py:416-421 | the slot is temp2 exactly for a pool set point while spa_set_point exists, and temp1 otherwise |
| IaquaDevice.NamedSlot | src/iaqualink/systems/iaqua/device.py:412-421 | the set point named <a>_set_point takes temp2 exactly when a is pool and spa_set_point exists |
| IaquaDevice.PoolSlot | src/iaqualink/systems/iaqua/device.py:416-421 | pool_set_point uses temp2 with a spa and temp1 without one |
| IaquaDevice.SpaSlot | src/iaqualink/systems/iaqua/device.py:416-421 | spa_set_point always uses temp1 |
| IaquaDevice.IsPresent | src/iaqualink/systems/iaqua/device.py:584-586 | a heat pump is present as its isheatpumpPresent field says, and absent when the record has none |
| IaquaDevice.HeatPumpDefaults | src/iaqualink/device.py:166-184 | a heat pump record with none of the fields keeps the base defaults, except that its mode reads "off" |
| IaquaDevice.StateOrEmpty | src/iaqualink/systems/iaqua/device.py:640-649 | a missing sibling reads ""; otherwise the sibling's state |
| IaquaDevice.CurrentTemperature | src/iaqualink/systems/iaqua/device.py:427-432 | a thermostat reads the state of its `<prefix>_temp` sibling, raising that lookup's KeyError when the sibling is missing; a heat pump's current temperature (lines 638-641) is pool_temp's state, or ""; no other class has the attribute |
| IaquaDevice.ThermostatReadsTemp | src/iaqualink/systems/iaqua/device.py:427-432 | the thermostat named `<a>_set_point` reads the state of `<a>_temp`, or raises KeyError for that key when it is absent |
| IaquaDevice.TargetTemperature | src/iaqualink/systems/iaqua/device.py:643-649 | a thermostat's target is its state; a heat pump's is pool_chill_set_point in cool mode, else pool_set_point |
| IaquaDevice.Turn | src/iaqualink/systems/iaqua/device.py:134-140 | turn_on/turn_off do nothing when the device is already in the wanted state, and act otherwise |
| IaquaDevice.DefaultSetterPlan | src/iaqualink/device.py:89-92 | an inherited light setter always raises |
| IaquaDevice.DimPlan | src/iaqualink/systems/iaqua/device.py:173-181 | set_brightness accepts exactly 0/25/50/75/100 and otherwise raises InvalidParameter; it sends {aux, light=str(level)} |
| IaquaDevice.EffectIdPlan | src/iaqualink/systems/iaqua/device.py:215-227 | set_effect_by_id accepts exactly the ids 0..n-1 of the model's table; it sends {aux, light=str(id), subtype} |
| IaquaDevice.EffectNamePlan | src/iaqualink/systems/iaqua/device.py:207-213 | an unknown name raises InvalidParameter; a known name is set_effect_by_id of its id |
| IaquaDevice.IclRgbPlan | src/iaqualink/systems/iaqua/device.py:555-569 | succeeds exactly when each channel is 0-255; it sends zoneId and the three channels, plus white_val exactly when the current white value is not None |
| IaquaDevice.ModePlan | src/iaqualink/systems/iaqua/device.py:621-631 | set_mode accepts exactly off, heat, and cool when isChillAvailable is truthy; otherwise it raises InvalidParameter; it sends {heatpumpmode} |
| IaquaDevice.ThermostatTempPlan | src/iaqualink/systems/iaqua/device.py:451-462 | an out-of-range temperature raises InvalidParameter; otherwise it sends {slot: str(t)} |
| IaquaDevice.HeatPumpTempPlan | src/iaqualink/systems/iaqua/device.py:663-679 | an out-of-range temperature raises; otherwise it sends temp_chill in cool mode with cooling, else temp2 |
| IaquaDevice.SwitchToggles | src/iaqualink/systems/iaqua/device.py:130-140 | a switch sends set_<name> to turn on only when off, and to turn off only when on |
| IaquaDevice.DimmerTurnsAreLevels | src/iaqualink/systems/iaqua/device.py:160-167 | a dimmer's turn_on/turn_off are set_brightness(100)/(0), each only when needed |
| IaquaDevice.ColorTurnsAreEffects | src/iaqualink/systems/iaqua/device.py:184-191 | a colour light's turn_on/turn_off are effect 1/0, each only when needed |
| IaquaDevice.HeatPumpTurnsAreModes | src/iaqualink/systems/iaqua/device.py:613-619 | a heat pump's turn_on/turn_off are set_mode("heat")/("off"), each only when needed |
| IaquaDevice.ThermostatTurnsHeater | src/iaqualink/systems/iaqua/device.py:472-478 | a thermostat's turn_on/turn_off are its heater switch's |
| IaquaDevice.ThermostatSetsItsSlot | src/iaqualink/systems/iaqua/device.py:451-462 | set_temperature on a thermostat raises InvalidParameter out of range, and sends its own slot otherwise |
| IaquaDevice.IclLimits | src/iaqualink/systems/iaqua/device.py:547-577 | ICL brightness succeeds if and only if it is 0-100, and white if and only if it is 0-255; violations raise InvalidParameter |
| Json.Assign | src/iaqualink/systems/iaqua/system.py:292-294 | after d[k] = v, k reads v, every other key is unchanged, and a new key goes last |
| Json.Update | src/iaqualink/systems/iaqua/system.py:295 | after p.update(q), each key reads q's value when q has the key, else p's |
| IaquaSystem.Merged | src/iaqualink/systems/iaqua/system.py:212-215 | merging writes every field of the partial record, keeps every other field, and keeps the device's class |
| IaquaSystem.MergedAbsorbed | src/iaqualink/systems/iaqua/system.py:212-215 | merging fields the device already holds changes nothing |
| IaquaSystem.MergedIdempotent | src/iaqualink/systems/iaqua/system.py:212-215 | merging the same partial record twice is merging it once |
| IaquaSystem.Absorb | src/iaqualink/systems/iaqua/system.py:212-220 | an existing key is merged in place; a new key is classified and inserted, skipped when NotSupported, and any other classifier error escapes with the table unchanged; other keys are untouched |
| IaquaSystem.Put | src/iaqualink/systems/iaqua/system.py:209-210 | devices.update({name: attrs}) replaces the entry in place or appends it |
| IaquaSystem.PutFind | src/iaqualink/systems/iaqua/system.py:209-210 | after the update the name reads the new record and every other name is unchanged; distinct keys stay distinct |
| IaquaSystem.Reconcile | src/iaqualink/systems/iaqua/system.py:212-220 | the merge loop never lets NotSupported escape |
| IaquaSystem.ReconcileNext | src/iaqualink/systems/iaqua/system.py:212-220 | one more record: absorb it unless an exception has already escaped |
| IaquaSystem.ReconcileStaysFaulted | src/iaqualink/systems/iaqua/system.py:216-220 | once an exception escapes, the rest of the batch is not processed |
| IaquaSystem.ReconcileKeepsDevices | src/iaqualink/systems/iaqua/system.py:212-215 | no device is removed and no device changes class |
| IaquaSystem.ReconcileMembership | src/iaqualink/systems/iaqua/system.py:216-220 | after a completed merge, a key is present if and only if it was before or one of its records classifies |
| IaquaSystem.ReconcileCompletes | src/iaqualink/systems/iaqua/system.py:216-220 | when every new record classifies or is NotSupported, the merge runs to the end |
| IaquaSystem.ReconcileAbsorbs | src/iaqualink/systems/iaqua/system.py:212-220 | after a completed merge, every record of the batch is within its device, or was skipped as NotSupported |
| IaquaSystem.AbsorbedIsFixedPoint | src/iaqualink/systems/iaqua/system.py:212-220 | a batch already absorbed leaves the table unchanged |
| IaquaSystem.ReconcileIdempotent | src/iaqualink/systems/iaqua/system.py:212-220 | reapplying the same batch changes nothing |
| IaquaSystem.ZoneKey | src/iaqualink/systems/iaqua/system.py:187-188 | the zone name is icl_zone_1 without a zoneId, icl_zone_<id> for a string id and icl_zone_<str(id)> for an integer id; it raises only for a container id |
| IaquaSystem.ColorInfoStep | src/iaqualink/systems/iaqua/system.py:185-194 | a non-dict entry is skipped; a dict merges into its zone's record when the zone is present, else becomes the record named after the zone; other records are unchanged |
| IaquaSystem.IsZoneLast | src/iaqualink/systems/iaqua/system.py:185-194 | the zones of a list are those of its prefix plus its last entry's |
| IaquaSystem.ColorInfosZones | src/iaqualink/systems/iaqua/system.py:183-195 | after the loop, the records are exactly the earlier ones plus one per zone named, and records of unnamed zones are unchanged |
| IaquaSystem.HomeEntry | src/iaqualink/systems/iaqua/system.py:196-210 | heatpump_info is kept whole with its name; swc_info is kept only when isswcPresent is truthy; any other entry gives {name, state}; nothing else changes |
| Json.KeyOrder | src/iaqualink/systems/iaqua/system.py:267 | a dict's keys, each once, exactly the keys it holds |
| Json.Iterate | src/iaqualink/systems/iaqua/system.py:267 | iterating gives a list's items, a string's characters one by one, or a dict's keys; anything else raises TypeError |
| IaquaSystem.PairShapes | src/iaqualink/systems/iaqua/system.py:268 | an element of an iterable of pairs is read as [key, value] or as a two-character string; a wrong length raises ValueError; a number, boolean, None, or a list or dict as key raises TypeError |
| IaquaSystem.PairsReadOk | src/iaqualink/systems/iaqua/system.py:268 | reading an iterable of pairs succeeds exactly when every element is a pair |
| IaquaSystem.PairsRead | src/iaqualink/systems/iaqua/system.py:268 | a successful read yields exactly the elements' pairs, in order |
| IaquaSystem.CharsAreNoPairs | src/iaqualink/systems/iaqua/system.py:268 | the characters of a non-empty string are not pairs, so update() of such a string raises ValueError |
| IaquaSystem.WritesCases | src/iaqualink/systems/iaqua/system.py:268 | update(y) writes a dict's items; for a list, exactly the pairs its elements give, failing when one is not a pair; nothing for an empty string and ValueError for any other string; TypeError for a number, boolean or None |
| IaquaSystem.AuxUpdate | src/iaqualink/systems/iaqua/system.py:267-268 | attrs.update(y) succeeds exactly when y's writes can be read, raising their exception otherwise; each written key takes its last written value and every other field keeps its value |
| IaquaSystem.AuxUpdateOnePair | src/iaqualink/systems/iaqua/system.py:268 | update() with a list holding one pair sets exactly that pair's key |
| IaquaSystem.AuxUpdatePairShapes | src/iaqualink/systems/iaqua/system.py:268 | update([[k, v]]) sets k to v, and update(["cd"]) sets "c" to "d" |
| IaquaSystem.AuxUpdateEmpty | src/iaqualink/systems/iaqua/system.py:268 | update([]) and update("") leave the record unchanged |
| IaquaSystem.LastSetting | src/iaqualink/systems/iaqua/system.py:267-268 | finds the last element whose update writes a field, or reports that none does |
| IaquaSystem.AuxLastWins | src/iaqualink/systems/iaqua/system.py:266-268 | each field of a flattened aux record comes from the last update that writes it, else from the initial {aux, name} |
| IaquaSystem.AuxFoldOk | src/iaqualink/systems/iaqua/system.py:266-268 | flattening succeeds exactly when every element's update succeeds; otherwise it raises what the first failing update raises |
| IaquaSystem.AuxNaming | src/iaqualink/systems/iaqua/system.py:266-269 | for aux_X the record has aux = X and name = aux_X, and set_aux of either sends set_aux_X |
| IaquaSystem.AuxCommand | src/iaqualink/systems/iaqua/system.py:300-301 | set_aux sends "set_aux_" plus aux with every "aux_" removed; a non-string aux raises |
| IaquaSystem.ZoneInfo | src/iaqualink/systems/iaqua/system.py:236-255 | a non-dict is skipped; a zoneId that cannot be formatted ends the loop with its error and leaves the table as it was; a dict for an existing zone merges into it and touches nothing else; a dict for a new zone (lines 248-255) is classified and inserted under its zone key, with that key as its name |
| IaquaSystem.ZoneInfosNext | src/iaqualink/systems/iaqua/system.py:236-255 | one more icl_info_list entry is processed unless an exception has escaped |
| IaquaSystem.ZoneInfosStaysFaulted | src/iaqualink/systems/iaqua/system.py:236-255 | an exception ends the icl_info_list loop |
| IaquaSystem.HomeParse | src/iaqualink/systems/iaqua/system.py:165-220 | an Offline status raises SystemOffline with the table and unit untouched; success means temp_unit is home_screen[3]["temp_scale"] |
| IaquaSystem.DevicesParse | src/iaqualink/systems/iaqua/system.py:222-229 | an Offline status raises SystemOffline with the table untouched |
| IaquaSystem.TargetOf | src/iaqualink/systems/iaqua/system.py:292 | a missing set point raises KeyError; otherwise its target temperature |
| IaquaSystem.DefaultTemps | src/iaqualink/systems/iaqua/system.py:289-294 | with a spa, temp1 is the spa's target and temp2 the pool's; without one, temp1 is the pool's and there is no temp2 |
| IaquaSystem.TempArgs | src/iaqualink/systems/iaqua/system.py:289-295 | the defaults above, with every caller field overriding them |
| IaquaSystem.UpdateOverDefaults | src/iaqualink/systems/iaqua/system.py:294 | args.update(temps): the caller's temp1 and temp2 override the defaults, and a temp2 absent from the defaults is whatever the caller gave |
| IaquaSystem.IclCommand | src/iaqualink/systems/iaqua/system.py:81-114 | on_off_action, else color_id, else red_val chooses the command, and nothing is sent exactly when none is present; gives the exact parameter lists with the dim_level "100" and white_val "0" defaults; a red_val path without green or blue raises |
| IaquaSystem.IclPowerAndLevelSendNothing | src/iaqualink/systems/iaqua/system.py:87-114 | the payloads of ICL turn_on, turn_off, set_brightness and set_white_value match no branch, so nothing is sent; the only error these actions raise is InvalidParameter |
| IaquaSystem.IclPairSendsNothing | src/iaqualink/systems/iaqua/system.py:87-114 | a payload of zoneId and one key other than on_off_action, color_id and red_val selects no command |
| IaquaSystem.IclCustomColor | src/iaqualink/systems/iaqua/system.py:102-111 | a zoneId/red/green/blue(/white) payload becomes define_iclzone_customcolor with zone_id, the channels and white_val |
| IaquaSystem.IclRgbDispatch | src/iaqualink/systems/iaqua/system.py:102-111 | set_rgb_color with valid channels sends define_iclzone_customcolor carrying the zone, the channels, and the current white value or "0" |
| IaquaSystem.EitherParse | src/iaqualink/systems/iaqua/system.py:120-132 | an empty reply ends set_light and set_icl_light without touching anything |
| IaquaSystem.PerformedBookkeeping | src/iaqualink/systems/iaqua/system.py:281-328 | a command never changes online or last_refresh, and logs at most its own request |
| IaquaSystem.IclActionsChangeNothing | src/iaqualink/systems/iaqua/system.py:112-114 | ICL turn_on, turn_off, set_brightness and set_white_value change no state; they can only raise InvalidParameter |
| IaquaSystem.SilentIclCall | src/iaqualink/systems/iaqua/system.py:112-114 | an ICL payload the dispatch does not recognise sends no request and leaves the state as it was |
| IaquaSystem.RefreshBookkeeping | src/iaqualink/systems/iaqua/system.py:148-163 | a service error sets online to None; Offline sets it to False; any other parse error leaves it as it was; success sets it to True and sets last_refresh; a failure keeps last_refresh; get_home and get_devices are both logged |
| IaquaSystem.OfflineHomeTouchesNothing | src/iaqualink/systems/iaqua/system.py:165-172 | an Offline home screen leaves the devices and temp_unit untouched and sets online to False |
| IaquaSystem.PoolTemperatureWithSpa | src/iaqualink/systems/iaqua/device.py:451-462 | with a spa, the pool set point's set_temperature sends temp2 |
| IaquaSystem.TempsRequest | src/iaqualink/systems/iaqua/system.py:289-297 | set_temps sends its built arguments under the set_temps command |
| IaquaSystem.PoolTempsKeepSpa | src/iaqualink/systems/iaqua/system.py:289-295 | that set_temps request carries temp1 = the spa's target and temp2 = the new pool value |
| IaquaSystem.PresentChlorinatorEntry | src/iaqualink/systems/iaqua/system.py:201-206 | a present swc_info block becomes one record: its fields plus its name |
| IaquaSystem.PresentChlorinatorFault | src/iaqualink/systems/iaqua/system.py:216-220 | when a present swc_info block has no state or zoneId field, the classifier's KeyError('state') escapes the merge with the table unchanged |
| IaquaSystem.HomeParseScreen | src/iaqualink/systems/iaqua/system.py:170-220 | past an online status and a temperature scale, the home parser sets temp_unit, flattens home_screen[4:] and merges; a flattening error leaves the table untouched |
| IaquaSystem.PresentChlorinatorRaises | src/iaqualink/systems/iaqua/system.py:201-220 | a home screen carrying a present swc_info block without a state or zoneId field ends _parse_home_response with KeyError('state') |
| IaquaSystem.FlattenColorInfos | src/iaqualink/systems/iaqua/system.py:185-194 | the icl_custom_color_info loop computes the zone fold |
| IaquaSystem.FlattenHome | src/iaqualink/systems/iaqua/system.py:177-210 | the home_screen[4:] loop computes the home fold |
| IaquaSystem.FlattenAux | src/iaqualink/systems/iaqua/system.py:266-268 | the nested attrs.update loop computes the aux fold |
| IaquaSystem.FlattenDevices | src/iaqualink/systems/iaqua/system.py:258-269 | the devices_screen[3:] loop computes the devices fold |
| IaquaSystem.BuildTempArgs | src/iaqualink/systems/iaqua/system.py:289-295 | the counter-based args loop computes TempArgs |
| IaquaSystem.System.constructor | src/iaqualink/systems/iaqua/system.py:50-54 | a new system has no devices, temp_unit "", last_refresh 0 and an empty log |
| IaquaSystem.System.MergeFields | src/iaqualink/systems/iaqua/system.py:213-215 | the field loop leaves the device merged with the record, and nothing else changed |
| IaquaSystem.MergedStep | src/iaqualink/systems/iaqua/system.py:214-215 | writing one more field of the record over the fields merged so far is merging one more field |
| IaquaSystem.MergedEnds | src/iaqualink/systems/iaqua/system.py:213-215 | merging none of the fields leaves the device as it was; merging all of them is merging the record |
| IaquaSystem.System.ApplyBatch | src/iaqualink/systems/iaqua/system.py:212-220 | the merge loop leaves exactly Reconcile's table and exception, and changes nothing else |
| IaquaSystem.System.ApplyZoneInfos | src/iaqualink/systems/iaqua/system.py:231-255 | the icl_info_list loop leaves exactly ZoneInfos's table and exception |
| IaquaSystem.System.ParseHome | src/iaqualink/systems/iaqua/system.py:165-220 | the devices and temp_unit become exactly HomeParse's |
| IaquaSystem.System.ParseDevices | src/iaqualink/systems/iaqua/system.py:222-279 | the devices become exactly DevicesParse's |
| IaquaSystem.System.ParseScreens | src/iaqualink/systems/iaqua/system.py:120-132 | the reply of set_light or set_icl_light is parsed as EitherParse says |
| IaquaSystem.System.Perform | src/iaqualink/systems/iaqua/system.py:281-328 | a system command leaves exactly the state Performed describes |
| IaquaSystem.System.Operate | src/iaqualink/systems/iaqua/system.py:281-303 | a device action leaves exactly the state Operated describes |
| IaquaSystem.System.Update | src/iaqualink/systems/iaqua/system.py:140-163 | within the refresh interval nothing changes; otherwise the state is exactly Refreshed's |

## Left out

- The HTTP transport is not modelled: `_send_session_request` URL building, the `actionID`, `serial` and `sessionID` parameters it adds, `send_request`, the session and `r.json()`. Each request is a log entry holding the command and the caller's parameters. Each reply is an already-decoded `Reply`: a body, or the transport's AqualinkServiceException.
- async/await and logging are left out. Actions and commands are sequential; the log calls have no effect.
- The clock is not modelled. `update` takes `now`, the `MIN_SECS_TO_REFRESH` threshold and the time the refresh finishes as parameters.
- The exception classes live in a module outside this model. They are the constructors of `Json.Fault`.
- The initial value of `online` is set by the base system class, which is not part of this model. The constructor sets it to None.
- Devices are values in the table rather than shared objects. A caller holding a device object sees its data change after a merge; the model has no aliasing.
- A thermostat whose chain of `<prefix>_heater` siblings loops would recurse in Python until RecursionError. The model follows the chain for at most one step per table entry and then reports RecursionError. A chain that long has already revisited an entry, so no finite chain is cut short.
- Floating point is not modelled. The Home Assistant adapter, which needs it, and the two manual scripts against the live service are not part of this model.
- Python's `1 == True` is not modelled. Payload values compare by constructor, so `Int(1)` and `Bool(true)` are different values.
- Case mapping is ASCII only. `int()` accepts an optional sign, digits and surrounding ASCII whitespace; underscores and non-ASCII digits are not modelled.
- IaquaSystem.PairShapes: a pair whose key is a number, a boolean or None raises TypeError in the model. Python stores such a pair under that non-string key, which a string-keyed record cannot hold.
- `f"{zoneId}"` on a container id and slicing a dict are modelled as TypeError; no string is built for either.
- `next(iter(x))` on an empty entry raises StopIteration. The model reports it as a fault; the fact that inside a coroutine it becomes RuntimeError is not modelled.
- IaquaSystem.HomeParse: its own contract states only the offline case and the temperature unit. What it leaves in the table is stated through HomeEntry, ColorInfosZones, the Reconcile lemmas and PresentChlorinatorRaises.
- IaquaSystem.DevicesParse: its own contract states only the offline case. The aux records and the zone merges are stated through AuxLastWins, AuxNaming, ZoneInfo and the Reconcile lemmas.
- IaquaSystem.EitherParse: its own contract states only the empty-reply case. The other branches are HomeParse and DevicesParse.
- IaquaDevice.Effect: its contract states only which kinds have an effect and the base None.

## Behaviour worth knowing

- The ICL light's `turn_on`, `turn_off`, `set_brightness` and `set_white_value` build payloads with `zoneStatus`, `dim_level` or `white_val` (src/iaqualink/systems/iaqua/device.py:539, 544, 552, 576).
  - `set_icl_light` recognises none of these keys, so it sends nothing (IaquaSystem.IclPowerAndLevelSendNothing, IaquaSystem.IclActionsChangeNothing).
  - The ICL test at tests/systems/iaqua/test_device.py:613-622 expects one `set_icl_light` request after `turn_on`. The code never sends it.
  - The model follows the code.
- A `swc_info` block that reports the chlorinator present and has neither a `state` nor a `zoneId` field makes the classifier raise KeyError('state'), not the NotSupported that the merge loop catches. That exception ends `_parse_home_response`, so the devices after it are never merged (IaquaSystem.PresentChlorinatorRaises).
