# SAJ monitor telemetry rules, modelled in Dafny

This project models the decision logic of the SAJ Elekeeper Home Assistant integration. That logic turns the vendor's telemetry into the normalised values the integration publishes. It has four parts:

- **API client post-processing** (`saj_api.py`).
  - Envelope checks on each response.
  - History-point selection.
  - Extraction of the first load-monitoring module that has data.
  - The message that is signed: sorted `k=v` pairs, then `&accessToken=` and the token.
  - `get_device_data`: it checks the mandatory history sample, then derives `total_pv_power_calculated`, `grid_status_calculated`, `grid_power_abs`, `battery_status_calculated` and `battery_power_abs` in place on that sample.
- **Sensor value chains** (`custom_components/saj_monitor/sensor.py` and the top-level `sensor.py`). Each `native_value` is a prioritised lookup over the device entry's sources:
  - plant statistics, realtime data, the history sample, load monitoring and processed data;
  - each source has its own defaults and sign rules;
  - there are status and mode tables, the round-trip efficiency and the tonnes-to-kg CO₂ conversion;
  - grid power and grid status are chosen from the buy/sell pair.
- **Online / nighttime logic** (`custom_components/saj_monitor/binary_sensor.py` and the online-status sensor). This covers the nighttime heuristic, `is_on` for solar and battery devices, and the attribute dict that is built step by step.
- **The coordinator's refresh** (`custom_components/saj_monitor/__init__.py`). It fetches the devices one after another into a dict keyed by serial number. It turns every failure into one `UpdateFailed`.

## How the model is built

- **Values.** Python values are a JSON-shaped datatype, `PyValues.Value`: None is `Null`, and every number is a `real`. Python's `in`, `.get`, subscripting, `float()`, `int()`, comparison with a number, negation and multiplication are partial functions on it.
- **Exceptions.** An exception that escapes a property or a method is `Outcomes.Raised`. A `try`/`except` that swallows an exception is an `Option` or a fallback.
- **`float()` and `int()` of text** follow Python's grammar for ASCII decimal text: surrounding ASCII whitespace, an optional sign, ASCII digits, and for float an optional fraction and an optional exponent.
- **`round(x, 2)`** is round-half-even on the exact real value.
- **Module layout.**

| module | content |
|---|---|
| `Outcomes` | the `Option` and `Attempt` types |
| `NumberText` | the text grammar of `str()`, `int()` and `float()` for numbers |
| `PyValues` | the value type and Python's operations on it |
| `KeyOrder` | insertion sort of dict items by key, used for the signature message |
| `SajApi` | the API client's extractors and `get_device_data` |
| `Snapshot` | the device entry and the source accessors the sensors share; the nighttime heuristic; the status and mode tables |
| `Sensors` | the `custom_components` sensors |
| `TopLevelSensors` | the top-level `sensor.py` sensors |
| `BinarySensor` | the connectivity binary sensor |
| `Coordinator` | the refresh loop |

- **Imperative code stays imperative:**
  - the load-monitoring scan is `SajApi.ScanModules`;
  - `get_device_data` with its PV loop and in-place writes is `SajApi.DeviceData`;
  - the PV-input loop of the current-power sensor is `Sensors.CurrentPvPower`;
  - the in-place write of the grid power sensor is the `Sensors.DeviceEntry` class;
  - the binary sensor's attribute dict is `BinarySensor.Attributes`;
  - the refresh loop is `Coordinator.UpdateData`.

  Each of these is a method proved equal to a specification function, and the properties are proved about that function.

## Model

| member | source | states |
|---|---|---|
| SajApi.SignatureMessage | saj_api.py:46-53 | the message is the key-sorted `k=v` pairs joined by `&`, for any arrangement of the items that is sorted by key: that arrangement is unique. It is followed by `&accessToken=` and the token. With no parameters it is only that suffix |
| SajApi.SignatureIndependentOfOrder | saj_api.py:46-53 | two parameter dicts with the same items give the same message, whatever their insertion order, because the items are sorted by key first |
| KeyOrder.SortByKey | saj_api.py:47 | sorting by key gives a list sorted by key, with the same items (a permutation) and the same keys |
| KeyOrder.SortedUnique | saj_api.py:47 | two key-sorted lists with distinct keys and the same items are equal, so the sorted order is unique |
| KeyOrder.SortedIsSortByKey | saj_api.py:47 | any key-sorted arrangement of the items is the one the sort gives |
| KeyOrder.SortIndependentOfOrder | saj_api.py:47 | any two orderings of the same dict items sort to the same list |
| KeyOrder.Insert | saj_api.py:47 | inserting adds exactly that item and exactly its key |
| KeyOrder.InsertSorted | saj_api.py:47 | inserting an item whose key is new into a key-sorted list keeps it sorted |
| SajApi.OrNull | saj_api.py:338-344 | a value that was not fetched is None in the bundle |
| SajApi.EnvelopeData | saj_api.py:115-119 | a response yields its `data` exactly when it is a dict with `code` 200 and a `data` key |
| SajApi.DeviceDetails | saj_api.py:115-119 | device details are present exactly when a response arrived and passed the envelope check; they are its `data` |
| SajApi.PlantStatistics | saj_api.py:151-155 | plant statistics are the `data` of the response whenever it has that key; the code is not checked |
| SajApi.HistoryPoint | saj_api.py:196-220 | the history sample is element 10 of the envelope's `data` list; it is None when `data` is not a list or has at most 10 points, and for a failed request or envelope |
| SajApi.LastItem | saj_api.py:263 | `data[-1]` is the last element of a non-empty list, and raises exactly for an empty or non-sequence value |
| SajApi.ModuleVerdict | saj_api.py:259-269 | a module is taken exactly when it is a dict whose `data` is a non-empty list or string, and its entry then has `latest` = the last sample; it is skipped when the `.get("data")` test is false; anything else raises |
| SajApi.StringModuleNeverTaken | saj_api.py:259-269 | a string module is never taken: `"data" in s` only tests for a substring, and the subscript that follows raises |
| SajApi.ScanModules | saj_api.py:259-271 | the loop over `dataList` with its early return computes `FirstModule` |
| SajApi.FirstModuleFound | saj_api.py:259-271 | the first module that is taken, after modules that are all skipped, is the result |
| SajApi.FirstModuleWitness | saj_api.py:259-271 | a result always comes from some module that was taken after only skipped ones |
| SajApi.FirstModuleNone | saj_api.py:271 | when no module is taken the extractor answers None |
| SajApi.LoadMonitoringData | saj_api.py:254-271 | the load-monitoring fetcher (envelope check, then scan) computes `LoadMonitoringOf` |
| SajApi.LoadMonitoringOf | saj_api.py:254-271 | a load-monitoring result is only produced from a passing envelope whose `dataList` is a list, and it is the first module taken from it |
| SajApi.Abs | saj_api.py:323 | `abs` is non-negative and equals x or -x |
| SajApi.GridDirection | saj_api.py:321 | "exporting" iff the grid power is < 0, "importing" iff > 0, "idle" iff it is 0 |
| SajApi.BatteryDirection | saj_api.py:327-333 | "discharging" iff the battery power is > 0, "charging" iff < 0, "idle" iff it is 0 |
| SajApi.FloatOrZero | saj_api.py:312 | `float(h.get(k, 0))`: a missing key is 0, a present one goes through float() |
| SajApi.PvSumStaysFailed | saj_api.py:310-313 | once one PV input's float() has failed, the whole sum has failed |
| SajApi.PvSumNext | saj_api.py:310-313 | each turn of the PV loop adds the next input, and fails exactly when that input's float() fails |
| SajApi.SolarPvTotal | saj_api.py:309-314 | for a solar device the PV total is `pv1power + pv2power + pv3power`, a missing input counting as 0, and it exists exactly when all three convert |
| SajApi.MissingGridPowerIsIdle | saj_api.py:320-323 | a missing `totalGridPowerWatt` counts as 0: status "idle", magnitude 0 |
| SajApi.Derived | saj_api.py:308-335 | the derivations succeed exactly when every float() they make succeeds. The sample keeps every other key and gains exactly the derived keys (the battery pair for battery devices only). The grid status agrees in sign with the grid power, and `grid_power_abs` is its magnitude. The same holds for the battery pair. The PV total is the type-dependent total. |
| SajApi.DeviceDataOf | saj_api.py:283-344 | a device has no data exactly when its history sample is missing or empty. It raises exactly when the sample is truthy but not a dict, or one of the derivation's float() calls fails. Otherwise the bundle carries the device type unchanged, device info, plant stats and load monitoring as fetched, and the history sample with the derived keys |
| SajApi.SumPvInputs | saj_api.py:310-313 | the PV loop's result is the sum of `pv1power`..`pv3power`, or the failure of the first float() that raises |
| SajApi.DeriveFields | saj_api.py:308-335 | the in-place writes on the history sample produce exactly `Derived`, and fail exactly where it fails |
| SajApi.DeviceData | saj_api.py:283-344 | `get_device_data` with its PV loop and in-place writes computes `DeviceDataOf` |
| SajApi.BundleDict | saj_api.py:338-344 | the returned dict has exactly the five keys, holding the updated history sample and the device type |
| Snapshot.Section | custom_components/saj_monitor/sensor.py:237-259 | a source section is the entry's dict under that key, or `{}` when it is missing or not a dict |
| Snapshot.IsNighttime | custom_components/saj_monitor/binary_sensor.py:168-189 | nighttime holds iff load monitoring is present, there is no history sample or the PV power is below 5, and realtime does not report `isOnline` "1"; it raises only for a non-numeric PV power that is compared |
| Snapshot.NightWithoutHistory | custom_components/saj_monitor/binary_sensor.py:187-189 | with load monitoring and no history sample, nighttime is exactly "realtime does not report online" |
| Snapshot.MissingPvPowerIsLow | custom_components/saj_monitor/binary_sensor.py:181 | a missing PV power counts as 0, which is below the threshold |
| Snapshot.StatusDescription | custom_components/saj_monitor/sensor.py:503-514 | the status table is defined exactly for the codes 0 to 9 |
| Snapshot.ModeDescription | custom_components/saj_monitor/sensor.py:557-563 | the mode table is defined exactly for the codes 0 to 4 |
| Snapshot.Describe | custom_components/saj_monitor/sensor.py:528 | a code in the table gives its text; any other code n gives the prefix, str(n) and ")" |
| Snapshot.UnknownTextInjective | custom_components/saj_monitor/sensor.py:528 | different unknown codes give different fallback texts |
| Snapshot.TableTextsAreNotFallbacks | custom_components/saj_monitor/sensor.py:503-563 | no table text looks like an "Unknown status (" or "Unknown mode (" fallback |
| Snapshot.StatusTableInjective | custom_components/saj_monitor/sensor.py:503-514 | no two status codes share a text |
| Snapshot.ModeTableInjective | custom_components/saj_monitor/sensor.py:557-563 | no two mode codes share a text |
| Snapshot.StatusTextInjective | custom_components/saj_monitor/sensor.py:517-541 | the status text, table or fallback, determines the code |
| Snapshot.ModeTextInjective | custom_components/saj_monitor/sensor.py:566-590 | the mode text, table or fallback, determines the code |
| Snapshot.StatusTextWithModeFallbackInjective | sensor.py:306-317 | the top-level operating status (status table with an "Unknown mode (n)" fallback) determines the code |
| Sensors.RealtimePvTerm | custom_components/saj_monitor/sensor.py:330-337 | a missing or falsy `pv{i}power` adds nothing to the sum; a present, truthy one adds its float, or 0 when float() fails |
| Sensors.RealtimePvSumNoInputs | custom_components/saj_monitor/sensor.py:330-337 | with no PV input keys the sum is 0 |
| Sensors.RealtimePvPower | custom_components/saj_monitor/sensor.py:322-340 | realtime `totalPVPower` wins unless it is absent, "0" or not a number. Otherwise the answer is the sum of the sixteen inputs when it is positive, and nothing when the sum is ≤ 0 |
| Sensors.CurrentPvPowerOf | custom_components/saj_monitor/sensor.py:307-351 | the fallback order: first plant `powerNow` (float() of it raises when it fails); then, for an online solar device, the realtime power; then, whenever that step gives nothing, processed `total_pv_power_calculated`; then 0 for solar and None otherwise |
| Sensors.CurrentPvPower | custom_components/saj_monitor/sensor.py:307-351 | the property with its accumulating loop over `pv1power`..`pv16power` computes `CurrentPvPowerOf` |
| Sensors.LoadTotal | custom_components/saj_monitor/sensor.py:409-422 | the load-monitoring total is a number: the float of the field when it converts, else 0, and 0 without load monitoring |
| Sensors.TodayEnergy | custom_components/saj_monitor/sensor.py:379-424 | a battery device reports processed `today_pv_energy`, else history then plant `todayPvEnergy` when they convert, else None. A solar device with load monitoring reports the `pvEnergy` total. Others give None |
| Sensors.TodayGridExport | custom_components/saj_monitor/sensor.py:728-772 | a battery device reports processed `today_grid_export_energy`, else history then plant `todaySellEnergy` when they convert, else None. A solar device with load monitoring reports the `sellEnergy` total. Others give None |
| Sensors.TodayGridImport | custom_components/saj_monitor/sensor.py:1645-1670 | a battery device reports processed `today_grid_import_energy`; a solar device with load monitoring the `buyEnergy` total; others None |
| Sensors.SolarTodayValuesIgnoreOtherSources | custom_components/saj_monitor/sensor.py:409-422 | for solar devices with load monitoring the three daily values depend on the load monitoring alone and never fall back to other sources |
| Sensors.SolarTodayValuesDefaultToZero | custom_components/saj_monitor/sensor.py:758-770 | without a `total` dict the three solar daily values are 0 |
| Sensors.TotalEnergy | custom_components/saj_monitor/sensor.py:452-487 | processed `total_pv_energy` wins. Then, for solar devices, realtime `totalPvEnergy` when it converts. Then history, then plant `totalPvEnergy` when they convert. Else None |
| Sensors.OperatingStatus | custom_components/saj_monitor/sensor.py:517-541 | None exactly when neither the battery processed `operating_status` nor plant `deviceStatus` converts to int. The processed code wins for battery devices; otherwise the plant code is used. Either goes through the status table |
| Sensors.OperatingMode | custom_components/saj_monitor/sensor.py:566-590 | the processed mode wins; otherwise the history `mpvMode` is used. Either goes through the mode table. With no usable mode in either the answer is "Unknown" |
| Sensors.GridPowerOf | custom_components/saj_monitor/sensor.py:644-678 | battery devices return `grid_power_abs` unsigned; solar devices return it negated when the status is "exporting". Without processed grid data the answer is float() of history `totalGridPowerWatt` when it converts and is non-zero, else None |
| Sensors.HistoryGridDirection | custom_components/saj_monitor/sensor.py:671-673 | a non-zero history grid power is "importing" iff positive and "exporting" iff negative |
| Sensors.AfterGridPower | custom_components/saj_monitor/sensor.py:673 | the write touches only the processed data and no other source |
| Sensors.GridStatus | custom_components/saj_monitor/sensor.py:705-708 | without `grid_status_calculated` the status is None |
| Sensors.GridStatusFollowsHistoryPower | custom_components/saj_monitor/sensor.py:666-708 | after the grid power sensor has read the history power, the status sensor reports the direction that agrees with its sign |
| Sensors.DeviceEntry.constructor | custom_components/saj_monitor/sensor.py:237-243 | the entity reads the coordinator's entry for its device |
| Sensors.DeviceEntry.GridPower | custom_components/saj_monitor/sensor.py:644-678 | the property returns `GridPowerOf` of the entry as it was and leaves the entry with the in-place status write |
| Sensors.DeviceEntry.GridStatusValue | custom_components/saj_monitor/sensor.py:705-708 | the status sensor reads the current entry |
| Sensors.DeviceEntry.GridPowerThenStatus | custom_components/saj_monitor/sensor.py:666-708 | on one entry whose grid power comes from the history sample, the grid power sensor reports a non-zero power, and the status sensor read after it reports "importing" iff that power is positive and "exporting" iff it is negative |
| Sensors.BatteryPower | custom_components/saj_monitor/sensor.py:1215-1225 | None without `battery_power_abs`; otherwise +abs for "Discharging", -abs for "Charging" and 0 for any other status |
| Sensors.BatteryPowerSign | custom_components/saj_monitor/sensor.py:1219-1225 | a positive magnitude is reported positive iff discharging and negative iff charging |
| Sensors.RoundTripEfficiency | custom_components/saj_monitor/sensor.py:1389-1403 | a number exactly when both totals convert and the charge is positive. It is round(discharge/charge·100, 2), so it is within 0.005 of that ratio |
| Sensors.HomeLoad | custom_components/saj_monitor/sensor.py:1475-1503 | battery processed `home_load_power` wins; then load-monitoring `loadPower`, then history `totalLoadPowerWatt`, when they convert |
| Sensors.Co2Reduction | custom_components/saj_monitor/sensor.py:1523-1538 | plant `totalReduceCo2` × 1000 (tonnes to kg) wins; then processed `co2_reduction` × 1000; else None |
| Sensors.OnlineStatus | custom_components/saj_monitor/sensor.py:1785-1801 | online iff realtime `isOnline` is "1", offline in every other case, night or not |
| TopLevelSensors.BuySell | sensor.py:344-347 | the buy/sell pair from `latest`, each defaulting to 0 |
| TopLevelSensors.Direction | sensor.py:413-423 | "importing" iff buy > 0, "exporting" iff buy ≤ 0 and sell > 0, "idle" iff both ≤ 0 |
| TopLevelSensors.GridPower | sensor.py:337-362 | None for an empty entry; without load monitoring, the history `grid_power_abs` or None |
| TopLevelSensors.GridPowerFromLoadMonitoring | sensor.py:344-356 | with load monitoring the grid power is buy if > 0, else sell if > 0, else 0, so never negative |
| TopLevelSensors.GridAttributes | sensor.py:365-389 | an empty entry has no attributes. With load monitoring, `status` is the buy/sell direction, raising together with it. Otherwise it is the history `grid_status_calculated`, and there is no attribute without a history sample |
| TopLevelSensors.GridStatus | sensor.py:406-429 | None for an empty entry. With load monitoring it is the buy/sell direction ("importing" iff buy > 0, and so on), raising exactly when reading or comparing the pair raises. Otherwise it is the history `grid_status_calculated`, or None without a history sample |
| TopLevelSensors.StatusAttributeMatchesGridStatus | sensor.py:372-427 | the grid power sensor's `status` attribute always equals the grid status sensor's value, and both raise together |
| TopLevelSensors.GridPowerMatchesGridStatus | sensor.py:344-423 | a zero grid power comes exactly with "idle" |
| TopLevelSensors.MissingBuySellIsIdle | sensor.py:346-347 | missing `buyPower` and `sellPower`, or a missing `latest`, give power 0 and status "idle" |
| TopLevelSensors.PvAvailable | sensor.py:500-515 | input N is available iff the coordinator is, the entry and history exist, and `pvNpower` is present, not None and converts to a positive number |
| TopLevelSensors.OperatingStatus | sensor.py:306-317 | the history `mpvMode` through the status table with the "Unknown mode (n)" fallback; None when there is no mode; int() raises when it fails |
| BinarySensor.IsOn | custom_components/saj_monitor/binary_sensor.py:192-232 | on whenever realtime reports online; on for a battery with realtime data and a `battery_level`; on only in those cases; a solar device is on iff online |
| BinarySensor.NighttimeExcludesOnline | custom_components/saj_monitor/binary_sensor.py:187-229 | a solar device in nighttime is never on |
| BinarySensor.RealtimeAttributes | custom_components/saj_monitor/binary_sensor.py:248-253 | the raw status (default "unknown") and the update time appear only with realtime data |
| BinarySensor.NoteAttributes | custom_components/saj_monitor/binary_sensor.py:259-268 | `is_nighttime` only for a solar device at night, with the sleep note; an offline battery gets the disconnected note, plus `battery_data_available` iff it has realtime data |
| BinarySensor.FlagAttributes | custom_components/saj_monitor/binary_sensor.py:271-273 | the three availability flags are always present and reflect their sources' truthiness |
| BinarySensor.PvAttributes | custom_components/saj_monitor/binary_sensor.py:276-278 | `pv_power` appears iff processed data has the PV total, and equals it |
| BinarySensor.AttributesOf | custom_components/saj_monitor/binary_sensor.py:240-280 | raises only through the nighttime test of a solar device; the flags are always present; `is_nighttime` iff a solar device at night |
| BinarySensor.AddRealtimeEntries | custom_components/saj_monitor/binary_sensor.py:248-253 | the realtime block adds exactly the realtime attributes |
| BinarySensor.AddStatusNotes | custom_components/saj_monitor/binary_sensor.py:256-268 | the note block adds exactly the note attributes, raising together with them |
| BinarySensor.AddFlags | custom_components/saj_monitor/binary_sensor.py:271-273 | the flag block adds exactly the flags |
| BinarySensor.AddPvPower | custom_components/saj_monitor/binary_sensor.py:276-278 | the PV block adds exactly the PV attribute |
| BinarySensor.Attributes | custom_components/saj_monitor/binary_sensor.py:240-280 | the step-by-step construction of the dict computes `AttributesOf` |
| Coordinator.Replies | custom_components/saj_monitor/__init__.py:113-119 | one reply per configured device |
| Coordinator.ReplyAt | custom_components/saj_monitor/__init__.py:113-115 | the i-th reply is `get_device_data` of the i-th device, keyed by its serial number |
| Coordinator.Step | custom_components/saj_monitor/__init__.py:115-121 | fetched data is stored under the serial number, replacing earlier data; missing data leaves the dict as it was; an exception ends the loop |
| Coordinator.CollectStaysRaised | custom_components/saj_monitor/__init__.py:113-131 | once a device has raised the loop never resumes |
| Coordinator.CollectRaisedIff | custom_components/saj_monitor/__init__.py:113-131 | the loop raises exactly when some device raised |
| Coordinator.CollectKeys | custom_components/saj_monitor/__init__.py:115-119 | a serial number is a key exactly when some device with it was fetched, so the keys are a subset of the configured serial numbers |
| Coordinator.CollectLastWins | custom_components/saj_monitor/__init__.py:115-119 | the value under a serial number is the last fetched bundle with it |
| Coordinator.CollectValues | custom_components/saj_monitor/__init__.py:115-119 | every value is a bundle fetched for a device with that serial number |
| Coordinator.PublishedIff | custom_components/saj_monitor/__init__.py:108-131 | the cycle publishes exactly when there was no deadline, no device raised and some device gave data; it publishes the whole dict and never a partial one |
| Coordinator.NoDeviceDataIff | custom_components/saj_monitor/__init__.py:120-131 | the "no data" failure occurs exactly when every device came back without data and no deadline hit |
| Coordinator.TimeoutIff | custom_components/saj_monitor/__init__.py:108-131 | a deadline always fails the cycle, and is reported as a timeout iff no earlier device raised |
| Coordinator.Visit | custom_components/saj_monitor/__init__.py:115-121 | one loop turn computes `Step` on the device's reply |
| Coordinator.UpdateData | custom_components/saj_monitor/__init__.py:108-131 | `_async_update_data` with its loop computes the cycle outcome `CycleOf` |
| PyValues.ToFloat | saj_api.py:312 | float() of a number is that number, and of None, a list or a dict fails |
| PyValues.Truncate | sensor.py:316 | int() of a number truncates toward zero |
| PyValues.Greater | sensor.py:350 | `v > c` is defined exactly for numbers and booleans and compares their value |
| PyValues.ToFloatOfIntText | custom_components/saj_monitor/sensor.py:536 | float() of the text str() gives for an integer is that integer |
| PyValues.ToIntOfIntText | custom_components/saj_monitor/sensor.py:536 | int() of the text str() gives for an integer is that integer |
| NumberText.Round2 | custom_components/saj_monitor/sensor.py:1399 | round(x, 2) has two decimals and is within 0.005 of x, strictly unless x lies halfway between two such values. At that tie it is the even multiple of 0.01 |
| NumberText.Round2Exact | custom_components/saj_monitor/sensor.py:1399 | a value that is already a multiple of 0.01 is unchanged by rounding |
| NumberText.IntToStringInjective | custom_components/saj_monitor/sensor.py:528 | str() of an integer determines the integer |

## Left out

- HTTP transport, the token request and JSON decoding: each fetcher's response is an input, the decoded body or None for a failed request.
- The HMAC-SHA256 digest of the signed message: it is a foreign crypto call. Only the message string is modelled.
- Home Assistant plumbing: entity lists, device info, units, icons, state classes, and the `available` wrappers that only consult the coordinator. The coordinator's own availability is an input of `TopLevelSensors.PvAvailable`.
- `config_flow.py` and `const.py`. The device type tags, thresholds and the note texts are inlined.
- async scheduling and the 30-second deadline: the deadline is an input, the index of the device whose fetch it cuts off.
- Logging, and the `datetime` formatting of request windows.
- IEEE floating point: numbers are exact reals, and `round` is round-half-even on the exact value. float() does not model `inf` or `nan`.
- Digits other than ASCII, whitespace other than ASCII, and underscores between digits, all of which Python's int() and float() accept: the model rejects such text.
- The realtime and processed data inside a device entry come from code that is not part of this model. They are inputs, the `realtime_data` and `processed_data` keys of the entry.
- `STATE_ONLINE` and `STATE_OFFLINE` are imported from `const.py`, which does not define them. The online-status sensor returns an abstract two-valued state.
- The device dicts are assumed to carry `sn`, `plant_id` and `type` (the KeyError for a malformed device is not modelled).
- The sensors outside the decision logic: PV voltage and current, per-phase values, temperatures and the other plain lookups.
- Sensors.GridStatus: its contract states only the None case. What the status is after the grid power sensor has run is stated by Sensors.GridStatusFollowsHistoryPower.
- An exception in any device's `get_device_data` fails the whole cycle with `UpdateFailed`. The outer `except Exception` re-raises it, so a failing device does not just drop out. Only a device without history data is skipped. This follows the code.
- The derived battery statuses are the lower-case "discharging"/"charging". The battery power sensor compares with the capitalised "Discharging"/"Charging", so for data from `get_device_data` it reports 0 for a non-zero battery power. The model keeps both as written. The producer of `processed_data` is not part of this model, so it may well use the capitalised form, and no finding is claimed.
