/** The connection-status binary sensor: whether a device counts as connected, and the diagnostic
    attributes it publishes beside that verdict. */
module BinarySensor {
  import opened Outcomes
  import opened PyValues
  import opened Snapshot

  /** A battery device with some realtime data and a `battery_level` in its processed data. */
  predicate BatteryLooksConnected(d: DeviceData) {
    IsBattery(d) && RealtimeOf(d) != map[] && "battery_level" in ProcessedOf(d)
  }

  /** `SajDeviceOnlineStatusBinarySensor.is_on`. For a solar device that is not reported online the
      nighttime test is made (and can raise) but the answer is false either way. */
  function IsOn(d: DeviceData): (r: Attempt<bool>)
    ensures ReportsOnline(d) ==> r == Ok(true)
    ensures BatteryLooksConnected(d) ==> r == Ok(true)
    ensures r == Ok(true) ==> ReportsOnline(d) || BatteryLooksConnected(d)
    ensures IsSolar(d) && r.Ok? ==> (r.value <==> ReportsOnline(d))
    ensures r.Raised? <==> IsSolar(d) && !ReportsOnline(d) && IsNighttime(d).Raised?
  {
    if ReportsOnline(d) then Ok(true)
    else if IsBattery(d) && RealtimeOf(d) != map[] && ProcessedOf(d) != map[] && "battery_level" in ProcessedOf(d) then
      Ok(true)
    else if IsSolar(d) then
      var night :- IsNighttime(d);
      if night then Ok(false) else Ok(false)
    else Ok(false)
  }

  /** A solar device is never both in nighttime mode and connected. */
  lemma NighttimeExcludesOnline(d: DeviceData)
    requires IsSolar(d) && IsNighttime(d) == Ok(true)
    ensures IsOn(d) == Ok(false)
  {
  }

  const SleepNote: string := "Solar inverter is in sleep mode (normal during nighttime)"
  const DisconnectedNote: string := "Battery system appears to be disconnected"
  const PartialDataNote: string := "Has some data but not showing as connected"

  /** The raw realtime entries: `raw_online_status` and `last_update_time`. */
  function RealtimeAttributes(d: DeviceData): (a: map<string, Value>)
    ensures "raw_online_status" in a <==> RealtimeOf(d) != map[]
    ensures "raw_online_status" in a ==> a["raw_online_status"] == GetOr(RealtimeOf(d), "isOnline", Str("unknown"))
    ensures "last_update_time" in a <==> RealtimeOf(d) != map[] && "recordTime" in RealtimeOf(d)
    ensures a.Keys <= {"raw_online_status", "last_update_time"}
  {
    var realtime := RealtimeOf(d);
    if realtime == map[] then map[]
    else if "recordTime" in realtime then
      map["raw_online_status" := GetOr(realtime, "isOnline", Str("unknown")), "last_update_time" := realtime["recordTime"]]
    else map["raw_online_status" := GetOr(realtime, "isOnline", Str("unknown"))]
  }

  /** The notes: sleep mode for a solar device at night, disconnection for a battery that is not on. */
  function NoteAttributes(d: DeviceData): (r: Attempt<map<string, Value>>)
    ensures r.Raised? <==> IsSolar(d) && IsNighttime(d).Raised?
    ensures r.Ok? ==> ("is_nighttime" in r.value <==> IsSolar(d) && IsNighttime(d) == Ok(true))
    ensures r.Ok? && "is_nighttime" in r.value ==>
              r.value == map["is_nighttime" := Bool(true), "status_note" := Str(SleepNote)]
    ensures r.Ok? ==> ("status_note" in r.value <==> (IsSolar(d) && IsNighttime(d) == Ok(true))
                                                     || (IsBattery(d) && IsOn(d) == Ok(false)))
    ensures IsBattery(d) && IsOn(d) == Ok(false) ==>
              r.Ok? && r.value["status_note"] == Str(DisconnectedNote)
              && ("battery_data_available" in r.value <==> RealtimeOf(d) != map[])
    ensures r.Ok? && "battery_data_available" in r.value ==> IsBattery(d) && IsOn(d) == Ok(false)
    ensures r.Ok? ==> r.value.Keys <= {"is_nighttime", "status_note", "battery_data_available"}
  {
    if IsSolar(d) then
      var night :- IsNighttime(d);
      if night then Ok(map["is_nighttime" := Bool(true), "status_note" := Str(SleepNote)]) else Ok(map[])
    else if IsBattery(d) && IsOn(d) == Ok(false) then
      if RealtimeOf(d) != map[] then
        Ok(map["status_note" := Str(DisconnectedNote), "battery_data_available" := Str(PartialDataNote)])
      else Ok(map["status_note" := Str(DisconnectedNote)])
    else Ok(map[])
  }

  /** The three data-availability flags, always present. */
  function FlagAttributes(d: DeviceData): (a: map<string, Value>)
    ensures a.Keys == {"has_realtime_data", "has_history_data", "has_load_monitoring"}
    ensures a["has_realtime_data"] == Bool(RealtimeOf(d) != map[])
    ensures a["has_history_data"] == Bool(Truthy(Get(d, "history_data")))
    ensures a["has_load_monitoring"] == Bool(Truthy(Get(d, "load_monitoring")))
  {
    map["has_realtime_data" := Bool(RealtimeOf(d) != map[]),
        "has_history_data" := Bool(Truthy(Get(d, "history_data"))),
        "has_load_monitoring" := Bool(Truthy(Get(d, "load_monitoring")))]
  }

  /** The processed PV power, when there is one. */
  function PvAttributes(d: DeviceData): (a: map<string, Value>)
    ensures "pv_power" in a <==> "total_pv_power_calculated" in ProcessedOf(d)
    ensures "pv_power" in a ==> a["pv_power"] == ProcessedOf(d)["total_pv_power_calculated"]
    ensures a.Keys <= {"pv_power"}
  {
    if "total_pv_power_calculated" in ProcessedOf(d) then map["pv_power" := ProcessedOf(d)["total_pv_power_calculated"]]
    else map[]
  }

  /** The attributes: the four groups above, whose keys do not overlap. */
  function AttributesOf(d: DeviceData): (r: Attempt<map<string, Value>>)
    ensures r.Raised? <==> IsSolar(d) && IsNighttime(d).Raised?
    ensures r.Ok? ==> "has_realtime_data" in r.value && "has_history_data" in r.value && "has_load_monitoring" in r.value
    ensures r.Ok? ==> ("is_nighttime" in r.value <==> IsSolar(d) && IsNighttime(d) == Ok(true))
  {
    var notes :- NoteAttributes(d);
    Ok(RealtimeAttributes(d) + notes + FlagAttributes(d) + PvAttributes(d))
  }

  /** The realtime block of `extra_state_attributes`. */
  method AddRealtimeEntries(d: DeviceData, attributes: map<string, Value>) returns (a: map<string, Value>)
    ensures a == attributes + RealtimeAttributes(d)
  {
    var realtime := RealtimeOf(d);
    a := attributes;
    if realtime != map[] {
      a := a["raw_online_status" := GetOr(realtime, "isOnline", Str("unknown"))];
      if "recordTime" in realtime {
        a := a["last_update_time" := realtime["recordTime"]];
      }
    }
  }

  /** The status-note block of `extra_state_attributes`. */
  method AddStatusNotes(d: DeviceData, attributes: map<string, Value>) returns (r: Attempt<map<string, Value>>)
    ensures r.Raised? <==> NoteAttributes(d).Raised?
    ensures r.Ok? ==> r.value == attributes + NoteAttributes(d).value
  {
    var realtime := RealtimeOf(d);
    var a := attributes;
    if IsSolar(d) {
      var night := IsNighttime(d);
      if night.Raised? {
        return Raised;
      }
      if night.value {
        a := a["is_nighttime" := Bool(true)];
        a := a["status_note" := Str(SleepNote)];
      }
    } else if IsBattery(d) {
      var on := IsOn(d);
      if on == Ok(false) {
        a := a["status_note" := Str(DisconnectedNote)];
        if realtime != map[] {
          a := a["battery_data_available" := Str(PartialDataNote)];
        }
      }
    }
    return Ok(a);
  }

  /** The data-availability block of `extra_state_attributes`. */
  method AddFlags(d: DeviceData, attributes: map<string, Value>) returns (a: map<string, Value>)
    ensures a == attributes + FlagAttributes(d)
  {
    a := attributes["has_realtime_data" := Bool(RealtimeOf(d) != map[])];
    a := a["has_history_data" := Bool(Truthy(Get(d, "history_data")))];
    a := a["has_load_monitoring" := Bool(Truthy(Get(d, "load_monitoring")))];
  }

  /** The PV-power block of `extra_state_attributes`. */
  method AddPvPower(d: DeviceData, attributes: map<string, Value>) returns (a: map<string, Value>)
    ensures a == attributes + PvAttributes(d)
  {
    a := attributes;
    var processed := ProcessedOf(d);
    if "total_pv_power_calculated" in processed {
      a := a["pv_power" := processed["total_pv_power_calculated"]];
    }
  }

  /** `extra_state_attributes`: the dict built block after block. */
  method Attributes(d: DeviceData) returns (r: Attempt<map<string, Value>>)
    ensures r == AttributesOf(d)
  {
    var attributes: map<string, Value> := map[];
    attributes := AddRealtimeEntries(d, attributes);
    assert attributes == RealtimeAttributes(d);
    var noted := AddStatusNotes(d, attributes);
    if noted.Raised? {
      return Raised;
    }
    attributes := AddFlags(d, noted.value);
    attributes := AddPvPower(d, attributes);
    return Ok(attributes);
  }
}
