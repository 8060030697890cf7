/** The value each entity of the `saj_monitor` sensor platform reports: a prioritised lookup over the
    device's sources with explicit defaults. A native value whose Python code lets an exception escape
    is `Raised`. */
module Sensors {
  import opened Outcomes
  import opened PyValues
  import NumberText
  import SajApi
  import opened Snapshot

  // ---------------------------------------------------------------- current PV power

  /** `f"pv{i}power"` read from the realtime data: counted when present, truthy and convertible. */
  function RealtimePvTerm(rt: map<string, Value>, i: nat): (x: real)
    ensures (SajApi.PvPowerKey(i) !in rt || !Truthy(rt[SajApi.PvPowerKey(i)])) ==> x == 0.0
    ensures SajApi.PvPowerKey(i) in rt && Truthy(rt[SajApi.PvPowerKey(i)]) ==>
              x == (match ToFloat(rt[SajApi.PvPowerKey(i)]) case Some(v) => v case None => 0.0)
  {
    var key := SajApi.PvPowerKey(i);
    if key in rt && Truthy(rt[key]) then
      (match ToFloat(rt[key]) case Some(v) => v case None => 0.0)
    else 0.0
  }

  /** The sum of the counted realtime PV inputs 1..n. */
  function RealtimePvSum(rt: map<string, Value>, n: nat): real {
    if n == 0 then 0.0 else RealtimePvSum(rt, n - 1) + RealtimePvTerm(rt, n)
  }

  /** Without any PV input keys in the realtime data the sum is 0. */
  lemma {:induction false} RealtimePvSumNoInputs(rt: map<string, Value>, n: nat)
    requires forall i :: 1 <= i <= n ==> SajApi.PvPowerKey(i) !in rt
    ensures RealtimePvSum(rt, n) == 0.0
  {
    if n > 0 {
      RealtimePvSumNoInputs(rt, n - 1);
    }
  }

  /** Whether the realtime `totalPVPower` is used as it is: present, not the text "0", and convertible. */
  predicate ReportedPvUsable(rt: map<string, Value>) {
    "totalPVPower" in rt && rt["totalPVPower"] != Str("0") && ToFloat(rt["totalPVPower"]).Some?
  }

  /** The realtime step for an online solar device: `totalPVPower` unless it is absent, the text "0" or
      not convertible; then the sum of the sixteen inputs when it is positive. */
  function RealtimePvPower(rt: map<string, Value>): (r: Option<real>)
    ensures r.Some? ==> ("totalPVPower" in rt && rt["totalPVPower"] != Str("0") && ToFloat(rt["totalPVPower"]) == r)
                        || r.value > 0.0
    ensures ReportedPvUsable(rt) ==> r == ToFloat(rt["totalPVPower"])
    ensures !ReportedPvUsable(rt) ==> (r.Some? <==> RealtimePvSum(rt, 16) > 0.0)
    ensures !ReportedPvUsable(rt) && r.Some? ==> r.value == RealtimePvSum(rt, 16)
  {
    if ReportedPvUsable(rt) then
      ToFloat(rt["totalPVPower"])
    else if RealtimePvSum(rt, 16) > 0.0 then Some(RealtimePvSum(rt, 16))
    else None
  }

  /** `SajCurrentPowerSensor.native_value`: plant `powerNow` (float() of it is not guarded), the realtime
      step for online solar devices, processed `total_pv_power_calculated`, then 0 for solar and None otherwise. */
  function CurrentPvPowerOf(d: DeviceData): (r: Attempt<Value>)
    ensures Get(PlantOf(d), "powerNow") != Null ==>
              r == (match ToFloat(Get(PlantOf(d), "powerNow")) case Some(x) => Ok(Num(x)) case None => Raised)
    ensures r.Raised? ==> Get(PlantOf(d), "powerNow") != Null
    ensures (Get(PlantOf(d), "powerNow") == Null && IsSolar(d) && ReportsOnline(d)
             && RealtimePvPower(RealtimeOf(d)).Some?) ==> r == Ok(Num(RealtimePvPower(RealtimeOf(d)).value))
    ensures (Get(PlantOf(d), "powerNow") == Null
             && !(IsSolar(d) && ReportsOnline(d) && RealtimePvPower(RealtimeOf(d)).Some?)
             && Get(ProcessedOf(d), "total_pv_power_calculated") != Null)
              ==> r == Ok(Get(ProcessedOf(d), "total_pv_power_calculated"))
    ensures (Get(PlantOf(d), "powerNow") == Null
             && !(IsSolar(d) && ReportsOnline(d) && RealtimePvPower(RealtimeOf(d)).Some?)
             && Get(ProcessedOf(d), "total_pv_power_calculated") == Null)
              ==> r == Ok(if IsSolar(d) then Num(0.0) else Null)
  {
    var powerNow := Get(PlantOf(d), "powerNow");
    if powerNow != Null then
      (match ToFloat(powerNow) case Some(x) => Ok(Num(x)) case None => Raised)
    else
      var live := if IsSolar(d) && ReportsOnline(d) then RealtimePvPower(RealtimeOf(d)) else None;
      if live.Some? then Ok(Num(live.value))
      else
        var calculated := Get(ProcessedOf(d), "total_pv_power_calculated");
        if calculated != Null then Ok(calculated)
        else if IsSolar(d) then Ok(Num(0.0))
        else Ok(Null)
  }

  /** The native value as the property computes it, with its summing loop over the sixteen inputs. */
  method CurrentPvPower(d: DeviceData) returns (r: Attempt<Value>)
    ensures r == CurrentPvPowerOf(d)
  {
    var plant := PlantOf(d);
    var powerNow := Get(plant, "powerNow");
    if powerNow != Null {
      var x := ToFloat(powerNow);
      if x.None? {
        return Raised;
      }
      return Ok(Num(x.value));
    }
    if IsSolar(d) {
      var rt := RealtimeOf(d);
      if rt != map[] && Get(rt, "isOnline") == Str("1") {
        if "totalPVPower" in rt && rt["totalPVPower"] != Str("0") {
          var reported := ToFloat(rt["totalPVPower"]);
          if reported.Some? {
            return Ok(Num(reported.value));
          }
        }
        var total := 0.0;
        for i := 1 to 17
          invariant total == RealtimePvSum(rt, i - 1)
        {
          var key := SajApi.PvPowerKey(i);
          if key in rt && Truthy(rt[key]) {
            var x := ToFloat(rt[key]);
            if x.Some? {
              total := total + x.value;
            }
          }
        }
        if total > 0.0 {
          return Ok(Num(total));
        }
      }
    }
    var calculated := Get(ProcessedOf(d), "total_pv_power_calculated");
    if calculated != Null {
      return Ok(calculated);
    }
    if IsSolar(d) {
      return Ok(Num(0.0));
    }
    return Ok(Null);
  }

  // ---------------------------------------------------------------- load-monitoring totals

  /** The `load_monitoring` branch of the solar energy sensors: the `field` of the load-monitoring
      totals as a float, or 0 when it is missing or does not convert. The tests before the guarded
      conversion are not protected: `"total" in lm`, `lm["total"]` and `field in total` raise for
      values that do not support them. */
  function LoadTotal(lm: Value, field: string): (r: Attempt<Value>)
    ensures r.Ok? ==> r.value.Num?
    ensures lm.Dict? && "total" in lm.fields && lm.fields["total"].Dict? ==>
              r == Ok(Num(match FloatField(lm.fields["total"].fields, field)
                          case Some(x) => x case None => 0.0))
    ensures !Truthy(lm) ==> r == Ok(Num(0.0))
  {
    if !Truthy(lm) then Ok(Num(0.0))
    else
      var hasTotal :- Contains(lm, "total");
      if !hasTotal then Ok(Num(0.0))
      else
        var total :- Subscript(lm, "total");
        var hasField :- Contains(total, field);
        if !hasField then Ok(Num(0.0))
        else match Subscript(total, field)
          case Raised => Ok(Num(0.0))
          case Ok(v) => Ok(Num(match ToFloat(v) case Some(x) => x case None => 0.0))
  }

  /** Whether the solar load-monitoring branch applies. */
  predicate SolarWithLoadMonitoring(d: DeviceData) {
    IsSolar(d) && "load_monitoring" in d
  }

  /** The shared shape of the daily generation and export sensors, over the processed key, the key of
      the history sample and plant statistics, and the field of the load-monitoring totals they read. */
  function DailyEnergy(d: DeviceData, processedKey: string, sampleKey: string, totalField: string): Attempt<Value> {
    if IsBattery(d) then
      var processed := ProcessedOf(d);
      if processedKey in processed then Ok(processed[processedKey])
      else Ok(OrElse(FloatField(HistoryOf(d), sampleKey),
                     OrElse(FloatField(PlantOf(d), sampleKey), Null)))
    else if SolarWithLoadMonitoring(d) then LoadTotal(d["load_monitoring"], totalField)
    else Ok(Null)
  }

  /** `SajTodayEnergySensor.native_value`: for battery devices processed `today_pv_energy`, then the
      history and then the plant `todayPvEnergy` when they convert, else None. */
  function TodayEnergy(d: DeviceData): (r: Attempt<Value>)
    ensures IsBattery(d) && "today_pv_energy" in ProcessedOf(d) ==> r == Ok(ProcessedOf(d)["today_pv_energy"])
    ensures IsBattery(d) && "today_pv_energy" !in ProcessedOf(d) && FloatField(HistoryOf(d), "todayPvEnergy").Some? ==>
              r == Ok(Num(FloatField(HistoryOf(d), "todayPvEnergy").value))
    ensures IsBattery(d) && "today_pv_energy" !in ProcessedOf(d) && FloatField(HistoryOf(d), "todayPvEnergy").None?
            && FloatField(PlantOf(d), "todayPvEnergy").Some? ==>
              r == Ok(Num(FloatField(PlantOf(d), "todayPvEnergy").value))
    ensures IsBattery(d) && "today_pv_energy" !in ProcessedOf(d) && FloatField(HistoryOf(d), "todayPvEnergy").None?
            && FloatField(PlantOf(d), "todayPvEnergy").None? ==>
              r == Ok(Null)
    ensures SolarWithLoadMonitoring(d) ==> r == LoadTotal(d["load_monitoring"], "pvEnergy")
    ensures !IsBattery(d) && !SolarWithLoadMonitoring(d) ==> r == Ok(Null)
  {
    DailyEnergy(d, "today_pv_energy", "todayPvEnergy", "pvEnergy")
  }

  /** `SajTodayGridExportSensor.native_value`: for battery devices processed `today_grid_export_energy`,
      then the history and then the plant `todaySellEnergy` when they convert, else None. */
  function TodayGridExport(d: DeviceData): (r: Attempt<Value>)
    ensures IsBattery(d) && "today_grid_export_energy" in ProcessedOf(d) ==>
              r == Ok(ProcessedOf(d)["today_grid_export_energy"])
    ensures IsBattery(d) && "today_grid_export_energy" !in ProcessedOf(d) && FloatField(HistoryOf(d), "todaySellEnergy").Some? ==>
              r == Ok(Num(FloatField(HistoryOf(d), "todaySellEnergy").value))
    ensures IsBattery(d) && "today_grid_export_energy" !in ProcessedOf(d) && FloatField(HistoryOf(d), "todaySellEnergy").None?
            && FloatField(PlantOf(d), "todaySellEnergy").Some? ==>
              r == Ok(Num(FloatField(PlantOf(d), "todaySellEnergy").value))
    ensures IsBattery(d) && "today_grid_export_energy" !in ProcessedOf(d) && FloatField(HistoryOf(d), "todaySellEnergy").None?
            && FloatField(PlantOf(d), "todaySellEnergy").None? ==>
              r == Ok(Null)
    ensures SolarWithLoadMonitoring(d) ==> r == LoadTotal(d["load_monitoring"], "sellEnergy")
    ensures !IsBattery(d) && !SolarWithLoadMonitoring(d) ==> r == Ok(Null)
  {
    DailyEnergy(d, "today_grid_export_energy", "todaySellEnergy", "sellEnergy")
  }

  /** `SajTodayGridImportEnergySensor.native_value`. */
  function TodayGridImport(d: DeviceData): (r: Attempt<Value>)
    ensures IsBattery(d) ==> r == Ok(Get(ProcessedOf(d), "today_grid_import_energy"))
    ensures SolarWithLoadMonitoring(d) ==> r == LoadTotal(d["load_monitoring"], "buyEnergy")
    ensures !IsBattery(d) && !SolarWithLoadMonitoring(d) ==> r == Ok(Null)
  {
    if IsBattery(d) then Ok(Get(ProcessedOf(d), "today_grid_import_energy"))
    else if SolarWithLoadMonitoring(d) then LoadTotal(d["load_monitoring"], "buyEnergy")
    else Ok(Null)
  }

  /** Two device entries that share the device type and the load-monitoring value. */
  predicate SameLoadMonitoring(d: DeviceData, e: DeviceData) {
    Get(d, "device_type") == Get(e, "device_type")
    && ("load_monitoring" in d <==> "load_monitoring" in e)
    && ("load_monitoring" in d ==> d["load_monitoring"] == e["load_monitoring"])
  }

  /** For solar devices with a load-monitoring entry, today's generation, export and import never fall
      back to other sources: they are the same whatever the history, plant and processed data hold. */
  lemma SolarTodayValuesIgnoreOtherSources(d: DeviceData, e: DeviceData)
    requires SolarWithLoadMonitoring(d) && SameLoadMonitoring(d, e)
    ensures TodayEnergy(d) == TodayEnergy(e)
    ensures TodayGridExport(d) == TodayGridExport(e)
    ensures TodayGridImport(d) == TodayGridImport(e)
  {
    assert SolarWithLoadMonitoring(e);
  }

  /** Without a usable total the solar values are 0 rather than None. */
  lemma SolarTodayValuesDefaultToZero(d: DeviceData)
    requires SolarWithLoadMonitoring(d) && d["load_monitoring"].Dict?
    requires "total" !in d["load_monitoring"].fields
    ensures TodayEnergy(d) == Ok(Num(0.0))
    ensures TodayGridExport(d) == Ok(Num(0.0))
    ensures TodayGridImport(d) == Ok(Num(0.0))
  {
  }

  // ---------------------------------------------------------------- lifetime generation

  /** `SajTotalEnergySensor.native_value`: processed `total_pv_energy`, realtime `totalPvEnergy` for
      solar devices, then history and plant `totalPvEnergy`; every conversion is guarded. */
  function TotalEnergy(d: DeviceData): (r: Value)
    ensures "total_pv_energy" in ProcessedOf(d) ==> r == ProcessedOf(d)["total_pv_energy"]
    ensures "total_pv_energy" !in ProcessedOf(d) && r != Null ==> r.Num?
    ensures "total_pv_energy" !in ProcessedOf(d) && IsSolar(d) && FloatField(RealtimeOf(d), "totalPvEnergy").Some? ==>
              r == Num(FloatField(RealtimeOf(d), "totalPvEnergy").value)
    ensures "total_pv_energy" !in ProcessedOf(d) && !(IsSolar(d) && FloatField(RealtimeOf(d), "totalPvEnergy").Some?) ==>
              r == OrElse(FloatField(HistoryOf(d), "totalPvEnergy"), OrElse(FloatField(PlantOf(d), "totalPvEnergy"), Null))
  {
    var processed := ProcessedOf(d);
    if "total_pv_energy" in processed then processed["total_pv_energy"]
    else
      var live := if IsSolar(d) && RealtimeOf(d) != map[] then FloatField(RealtimeOf(d), "totalPvEnergy") else None;
      OrElse(live, OrElse(FloatField(HistoryOf(d), "totalPvEnergy"), OrElse(FloatField(PlantOf(d), "totalPvEnergy"), Null)))
  }

  // ---------------------------------------------------------------- status and mode

  /** `SajOperatingStatusSensor.native_value`: the processed code for battery devices, then the plant
      `deviceStatus`, each through the status table. */
  function OperatingStatus(d: DeviceData): (r: Value)
    ensures r == Null <==> (!IsBattery(d) || IntField(ProcessedOf(d), "operating_status").None?)
                           && IntField(PlantOf(d), "deviceStatus").None?
    ensures IsBattery(d) && IntField(ProcessedOf(d), "operating_status").Some? ==>
              r == Str(StatusText(IntField(ProcessedOf(d), "operating_status").value))
    ensures (!IsBattery(d) || IntField(ProcessedOf(d), "operating_status").None?)
            && IntField(PlantOf(d), "deviceStatus").Some? ==>
              r == Str(StatusText(IntField(PlantOf(d), "deviceStatus").value))
  {
    var fromProcessed := if IsBattery(d) then IntField(ProcessedOf(d), "operating_status") else None;
    if fromProcessed.Some? then Str(StatusText(fromProcessed.value))
    else match IntField(PlantOf(d), "deviceStatus")
      case Some(n) => Str(StatusText(n))
      case None => Null
  }

  /** `SajOperatingModeSensor.native_value`: processed `operating_mode`, then history `mpvMode`, each
      through the mode table, and "Unknown" when neither is usable. */
  function OperatingMode(d: DeviceData): (r: string)
    ensures (IntField(ProcessedOf(d), "operating_mode").None? && IntField(HistoryOf(d), "mpvMode").None?)
              ==> r == "Unknown"
    ensures IntField(ProcessedOf(d), "operating_mode").Some? ==>
              r == ModeText(IntField(ProcessedOf(d), "operating_mode").value)
    ensures IntField(ProcessedOf(d), "operating_mode").None? && IntField(HistoryOf(d), "mpvMode").Some? ==>
              r == ModeText(IntField(HistoryOf(d), "mpvMode").value)
  {
    match IntField(ProcessedOf(d), "operating_mode")
    case Some(n) => ModeText(n)
    case None =>
      match IntField(HistoryOf(d), "mpvMode")
      case Some(n) => ModeText(n)
      case None => ModeDescription(0).value
  }

  // ---------------------------------------------------------------- grid

  /** The history fallback of the grid power sensor: a non-zero `totalGridPowerWatt`. */
  function HistoryGridPower(d: DeviceData): Option<real> {
    match FloatField(HistoryOf(d), "totalGridPowerWatt")
    case Some(p) => (if p != 0.0 then Some(p) else None)
    case None => None
  }

  predicate ProcessedGridApplies(d: DeviceData) {
    (IsBattery(d) || IsSolar(d)) && "grid_power_abs" in ProcessedOf(d)
  }

  /** `SajGridPowerSensor.native_value`: processed `grid_power_abs` as is for battery devices and signed
      by `grid_status_calculated` for solar devices, else a non-zero history `totalGridPowerWatt`. */
  function GridPowerOf(d: DeviceData): (r: Attempt<Value>)
    ensures IsBattery(d) && "grid_power_abs" in ProcessedOf(d) ==> r == Ok(ProcessedOf(d)["grid_power_abs"])
    ensures IsSolar(d) && "grid_power_abs" in ProcessedOf(d) && ProcessedOf(d)["grid_power_abs"].Num? ==>
              var x := ProcessedOf(d)["grid_power_abs"].x;
              r == Ok(Num(if Get(ProcessedOf(d), "grid_status_calculated") == Str("exporting") then -x else x))
    ensures !ProcessedGridApplies(d) ==>
              r == Ok(match FloatField(HistoryOf(d), "totalGridPowerWatt")
                      case Some(p) => (if p != 0.0 then Num(p) else Null)
                      case None => Null)
    ensures !ProcessedGridApplies(d) ==> r.Ok? && (r.value == Null <==> HistoryGridPower(d).None?)
    ensures !ProcessedGridApplies(d) && r.value != Null ==> r.value.Num? && r.value.x != 0.0
  {
    var processed := ProcessedOf(d);
    if IsBattery(d) && "grid_power_abs" in processed then Ok(processed["grid_power_abs"])
    else if IsSolar(d) && "grid_power_abs" in processed then
      if GetOr(processed, "grid_status_calculated", Str("")) == Str("exporting") then Negate(processed["grid_power_abs"])
      else Ok(processed["grid_power_abs"])
    else match HistoryGridPower(d)
      case Some(p) => Ok(Num(p))
      case None => Ok(Null)
  }

  /** The direction the grid power sensor records for a non-zero history power. */
  function HistoryGridDirection(p: real): (s: string)
    requires p != 0.0
    ensures s == "importing" <==> p > 0.0
    ensures s == "exporting" <==> p < 0.0
  {
    if p > 0.0 then "importing" else "exporting"
  }

  /** The device entry after the grid power sensor has run. It writes the direction of a history power
      into `processed_data`; that write reaches the device entry only when `processed_data` there is a
      non-empty dict; otherwise the helper handed back a fresh `{}`. */
  function AfterGridPower(d: DeviceData): (e: DeviceData)
    ensures e.Keys == d.Keys
    ensures forall k :: k in d && k != "processed_data" ==> e[k] == d[k]
  {
    if ProcessedGridApplies(d) || HistoryGridPower(d).None? then d
    else if "processed_data" in d && d["processed_data"].Dict? && d["processed_data"].fields != map[] then
      d["processed_data" := Dict(d["processed_data"].fields["grid_status_calculated"
                                   := Str(HistoryGridDirection(HistoryGridPower(d).value))])]
    else d
  }

  /** `SajGridStatusSensor.native_value`. */
  function GridStatus(d: DeviceData): (r: Value)
    ensures "grid_status_calculated" !in ProcessedOf(d) ==> r == Null
  {
    Get(ProcessedOf(d), "grid_status_calculated")
  }

  /** After the grid power sensor reported a history power on a device whose processed data persists,
      the grid status sensor agrees with that power's sign. */
  lemma GridStatusFollowsHistoryPower(d: DeviceData)
    requires !ProcessedGridApplies(d) && HistoryGridPower(d).Some?
    requires "processed_data" in d && d["processed_data"].Dict? && d["processed_data"].fields != map[]
    ensures GridPowerOf(d).Ok? && GridPowerOf(d).value.Num?
    ensures GridStatus(AfterGridPower(d)) == Str("importing") <==> GridPowerOf(d).value.x > 0.0
    ensures GridStatus(AfterGridPower(d)) == Str("exporting") <==> GridPowerOf(d).value.x < 0.0
  {
  }

  /** One device's entry in the coordinator data, which the grid power sensor changes in place. */
  class DeviceEntry {
    var data: DeviceData

    constructor (initial: DeviceData)
      ensures data == initial
    {
      data := initial;
    }

    /** The grid power sensor's native value, together with its write into `processed_data`. */
    method GridPower() returns (r: Attempt<Value>)
      modifies this
      ensures r == GridPowerOf(old(data))
      ensures data == AfterGridPower(old(data))
    {
      var processed := ProcessedOf(data);
      if IsBattery(data) && "grid_power_abs" in processed {
        return Ok(processed["grid_power_abs"]);
      }
      if IsSolar(data) && "grid_power_abs" in processed {
        if GetOr(processed, "grid_status_calculated", Str("")) == Str("exporting") {
          return Negate(processed["grid_power_abs"]);
        }
        return Ok(processed["grid_power_abs"]);
      }
      var history := HistoryOf(data);
      if "totalGridPowerWatt" in history {
        var power := ToFloat(history["totalGridPowerWatt"]);
        if power.Some? && power.value != 0.0 {
          var direction := if power.value > 0.0 then "importing" else "exporting";
          if "processed_data" in data && data["processed_data"].Dict? && data["processed_data"].fields != map[] {
            data := data["processed_data" := Dict(processed["grid_status_calculated" := Str(direction)])];
          }
          return Ok(Num(power.value));
        }
      }
      return Ok(Null);
    }

    /** The grid status sensor's native value. */
    method GridStatusValue() returns (r: Value)
      ensures r == GridStatus(data)
    {
      r := Get(ProcessedOf(data), "grid_status_calculated");
    }

    /** The grid power sensor and then the grid status sensor reading one entry whose grid power comes
        from the history sample and whose processed data persists: the status the second one reports
        agrees with the sign of the power the first one reported. */
    method GridPowerThenStatus() returns (power: Attempt<Value>, status: Value)
      requires !ProcessedGridApplies(data) && HistoryGridPower(data).Some?
      requires "processed_data" in data && data["processed_data"].Dict? && data["processed_data"].fields != map[]
      modifies this
      ensures power.Ok? && power.value.Num? && power.value.x != 0.0
      ensures status == Str("importing") <==> power.value.x > 0.0
      ensures status == Str("exporting") <==> power.value.x < 0.0
      ensures data == AfterGridPower(old(data))
    {
      GridStatusFollowsHistoryPower(data);
      power := GridPower();
      status := GridStatusValue();
    }
  }

  // ---------------------------------------------------------------- battery

  /** `SajBatteryPowerSensor.native_value`: `battery_power_abs` made positive for "Discharging", negative
      for "Charging" and 0 for any other status; None without `battery_power_abs`. */
  function BatteryPower(d: DeviceData): (r: Attempt<Value>)
    ensures "battery_power_abs" !in ProcessedOf(d) ==> r == Ok(Null)
    ensures "battery_power_abs" in ProcessedOf(d) && ProcessedOf(d)["battery_power_abs"].Num? ==>
              var p := ProcessedOf(d)["battery_power_abs"].x;
              var status := Get(ProcessedOf(d), "battery_status_calculated");
              r == Ok(Num(if status == Str("Discharging") then p else if status == Str("Charging") then -p else 0.0))
    ensures r.Raised? ==> Get(ProcessedOf(d), "battery_status_calculated") == Str("Charging")
  {
    var processed := ProcessedOf(d);
    if "battery_power_abs" in processed then
      var power := processed["battery_power_abs"];
      var status := GetOr(processed, "battery_status_calculated", Str(""));
      if status == Str("Discharging") then Ok(power)
      else if status == Str("Charging") then Negate(power)
      else Ok(Num(0.0))
    else Ok(Null)
  }

  /** For a non-negative magnitude the sign of the reported power follows the status. */
  lemma BatteryPowerSign(d: DeviceData)
    requires "battery_power_abs" in ProcessedOf(d) && ProcessedOf(d)["battery_power_abs"].Num?
    requires ProcessedOf(d)["battery_power_abs"].x > 0.0
    ensures BatteryPower(d).Ok? && BatteryPower(d).value.Num?
    ensures BatteryPower(d).value.x > 0.0 <==> Get(ProcessedOf(d), "battery_status_calculated") == Str("Discharging")
    ensures BatteryPower(d).value.x < 0.0 <==> Get(ProcessedOf(d), "battery_status_calculated") == Str("Charging")
  {
  }

  /** `SajBatteryRoundTripEfficiencySensor.native_value`: discharge over charge in percent, rounded to two
      decimals, when both totals are present and convert and the charge is positive. */
  function RoundTripEfficiency(d: DeviceData): (r: Value)
    ensures r == Null || r.Num?
    ensures r.Num? <==> FloatField(ProcessedOf(d), "total_battery_charge").Some?
                        && FloatField(ProcessedOf(d), "total_battery_discharge").Some?
                        && FloatField(ProcessedOf(d), "total_battery_charge").value > 0.0
    ensures r.Num? ==>
              var c := FloatField(ProcessedOf(d), "total_battery_charge").value;
              var e := FloatField(ProcessedOf(d), "total_battery_discharge").value;
              -1.0 / 200.0 <= r.x - e / c * 100.0 <= 1.0 / 200.0
    ensures r.Num? ==>
              r.x == NumberText.Round2(FloatField(ProcessedOf(d), "total_battery_discharge").value
                                       / FloatField(ProcessedOf(d), "total_battery_charge").value * 100.0)
  {
    var processed := ProcessedOf(d);
    var charge := FloatField(processed, "total_battery_charge");
    var discharge := FloatField(processed, "total_battery_discharge");
    if charge.Some? && discharge.Some? && charge.value > 0.0 then
      Num(NumberText.Round2(discharge.value / charge.value * 100.0))
    else Null
  }

  // ---------------------------------------------------------------- load, CO2

  /** `SajHomeLoadPowerSensor.native_value`: processed `home_load_power` for battery devices, then the
      latest load-monitoring `loadPower`, then history `totalLoadPowerWatt`. Reading `latest` and testing
      for `loadPower` are not guarded. */
  function HomeLoad(d: DeviceData): (r: Attempt<Value>)
    ensures IsBattery(d) && "home_load_power" in ProcessedOf(d) ==> r == Ok(ProcessedOf(d)["home_load_power"])
    ensures !(IsBattery(d) && "home_load_power" in ProcessedOf(d)) && !Truthy(Get(d, "load_monitoring")) ==>
              r == Ok(OrElse(FloatField(HistoryOf(d), "totalLoadPowerWatt"), Null))
    ensures (!(IsBattery(d) && "home_load_power" in ProcessedOf(d)) && Get(d, "load_monitoring").Dict?
             && Truthy(Get(d, "load_monitoring"))
             && GetOr(Get(d, "load_monitoring").fields, "latest", Dict(map[])).Dict?)
              ==> r == Ok(OrElse(FloatField(GetOr(Get(d, "load_monitoring").fields, "latest", Dict(map[])).fields, "loadPower"),
                                 OrElse(FloatField(HistoryOf(d), "totalLoadPowerWatt"), Null)))
  {
    var processed := ProcessedOf(d);
    var history := OrElse(FloatField(HistoryOf(d), "totalLoadPowerWatt"), Null);
    if IsBattery(d) && "home_load_power" in processed then Ok(processed["home_load_power"])
    else if "load_monitoring" in d && Truthy(d["load_monitoring"]) then
      var latest :- MethodGet(d["load_monitoring"], "latest", Dict(map[]));
      var hasLoad :- Contains(latest, "loadPower");
      if !hasLoad then Ok(history)
      else match Subscript(latest, "loadPower")
        case Raised => Ok(history)
        case Ok(v) => Ok(OrElse(ToFloat(v), history))
    else Ok(history)
  }

  /** `SajCO2ReductionSensor.native_value`: plant `totalReduceCo2` in tonnes times 1000, else processed
      `co2_reduction` times 1000 (unguarded: a string is repeated, None raises). */
  function Co2Reduction(d: DeviceData): (r: Attempt<Value>)
    ensures FloatField(PlantOf(d), "totalReduceCo2").Some? ==>
              r == Ok(Num(FloatField(PlantOf(d), "totalReduceCo2").value * 1000.0))
    ensures FloatField(PlantOf(d), "totalReduceCo2").None? && "co2_reduction" in ProcessedOf(d)
            && ProcessedOf(d)["co2_reduction"].Num? ==>
              r == Ok(Num(ProcessedOf(d)["co2_reduction"].x * 1000.0))
    ensures FloatField(PlantOf(d), "totalReduceCo2").None? && "co2_reduction" !in ProcessedOf(d) ==> r == Ok(Null)
  {
    match FloatField(PlantOf(d), "totalReduceCo2")
    case Some(tonnes) => Ok(Num(tonnes * 1000.0))
    case None =>
      if "co2_reduction" in ProcessedOf(d) then
        assert (1000 as real) == 1000.0;
        Times(ProcessedOf(d)["co2_reduction"], 1000)
      else Ok(Null)
  }

  // ---------------------------------------------------------------- online status

  /** The two states of the online-status sensor (STATE_ONLINE and STATE_OFFLINE). */
  datatype OnlineState = Online | Offline

  /** `SajDeviceOnlineStatusSensor.native_value`: online when the realtime data reports it, offline in
      every other case; the nighttime test it makes on the way can raise. */
  function OnlineStatus(d: DeviceData): (r: Attempt<OnlineState>)
    ensures r == Ok(Online) <==> ReportsOnline(d)
    ensures !ReportsOnline(d) && IsNighttime(d).Ok? ==> r == Ok(Offline)
    ensures r.Raised? <==> !ReportsOnline(d) && IsNighttime(d).Raised?
  {
    if ReportsOnline(d) then Ok(Online)
    else
      var night :- IsNighttime(d);
      if night then Ok(Offline) else Ok(Offline)
  }
}
