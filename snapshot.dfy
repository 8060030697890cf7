/** The per-device data that the entities read from the coordinator (`coordinator.data.get(sn, {})`):
    how each entity reaches its sources, and the decisions several entities share. Besides the keys
    `get_device_data` writes, the entities also read `realtime_data` and `processed_data`; the code
    that writes those two is not part of this model, so they are arbitrary values here. */
module Snapshot {
  import opened Outcomes
  import opened PyValues
  import NumberText
  import SajApi

  /** One device's entry in the coordinator data. */
  type DeviceData = map<string, Value>

  predicate IsSolar(d: DeviceData) {
    Get(d, "device_type") == Str(SajApi.DeviceTypeSolar)
  }

  predicate IsBattery(d: DeviceData) {
    Get(d, "device_type") == Str(SajApi.DeviceTypeBattery)
  }

  /** `device_data.get(key) or {}` kept only when it is a dict (the `_get_history_data`,
      `_get_plant_stats`, `_get_processed_data` and `_get_realtime_data` helpers). */
  function Section(d: DeviceData, key: string): (m: map<string, Value>)
    ensures key in d && d[key].Dict? ==> m == d[key].fields
    ensures key !in d || !d[key].Dict? ==> m == map[]
  {
    AsDict(Get(d, key))
  }

  function HistoryOf(d: DeviceData): map<string, Value> { Section(d, "history_data") }
  function PlantOf(d: DeviceData): map<string, Value> { Section(d, "plant_stats") }
  function ProcessedOf(d: DeviceData): map<string, Value> { Section(d, "processed_data") }
  function RealtimeOf(d: DeviceData): map<string, Value> { Section(d, "realtime_data") }

  /** `realtime_data and realtime_data.get("isOnline") == "1"`. */
  predicate ReportsOnline(d: DeviceData) {
    RealtimeOf(d) != map[] && Get(RealtimeOf(d), "isOnline") == Str("1")
  }

  /** The power the nighttime test compares with 5: `processed.get("total_pv_power_calculated", 0)`. */
  function NightPvPower(d: DeviceData): Value {
    GetOr(ProcessedOf(d), "total_pv_power_calculated", Num(0.0))
  }

  /** `_is_nighttime`: load monitoring answers, but there is no history sample or PV power is below 5,
      and the realtime data does not report the device online. The comparison with 5 is only made when
      there is load monitoring and a history sample; for a value that is not a number it raises. */
  function IsNighttime(d: DeviceData): (r: Attempt<bool>)
    ensures r.Raised? <==> Truthy(Get(d, "load_monitoring")) && Truthy(Get(d, "history_data"))
                           && NumberOf(NightPvPower(d)).None?
    ensures r.Ok? ==> (r.value <==> Truthy(Get(d, "load_monitoring"))
                                     && (!Truthy(Get(d, "history_data")) || NumberOf(NightPvPower(d)).value < 5.0)
                                     && !ReportsOnline(d))
  {
    var hasHistory := Truthy(Get(d, "history_data"));
    var hasRealtime := RealtimeOf(d) != map[];
    var hasLoadMonitoring := Truthy(Get(d, "load_monitoring"));
    if !hasLoadMonitoring then Ok(false)
    else
      var lowPower :- if !hasHistory then Ok(true) else Less(NightPvPower(d), 5.0);
      Ok(lowPower && !(hasRealtime && Get(RealtimeOf(d), "isOnline") == Str("1")))
  }

  /** With load monitoring and no history sample, it is night exactly when the device is not reported online. */
  lemma NightWithoutHistory(d: DeviceData)
    requires Truthy(Get(d, "load_monitoring")) && !Truthy(Get(d, "history_data"))
    ensures IsNighttime(d) == Ok(!ReportsOnline(d))
  {
  }

  /** A missing PV power counts as 0, which is below the threshold. */
  lemma MissingPvPowerIsLow(d: DeviceData)
    requires "total_pv_power_calculated" !in ProcessedOf(d) && Truthy(Get(d, "load_monitoring"))
    ensures IsNighttime(d) == Ok(!ReportsOnline(d))
  {
  }

  // ---------------------------------------------------------------- code tables

  /** The operating-status table shared by the status sensors. */
  function StatusDescription(n: int): (r: Option<string>)
    ensures r.Some? <==> 0 <= n <= 9
  {
    if n == 0 then Some("Initialization")
    else if n == 1 then Some("Waiting (Standby)")
    else if n == 2 then Some("Grid connected mode (Generating)")
    else if n == 3 then Some("Off grid mode (Battery)")
    else if n == 4 then Some("Grid load mode (Storage)")
    else if n == 5 then Some("Fault")
    else if n == 6 then Some("Upgrade")
    else if n == 7 then Some("Debugging")
    else if n == 8 then Some("Self inspection")
    else if n == 9 then Some("Reset")
    else None
  }

  /** The operating-mode table. */
  function ModeDescription(n: int): (r: Option<string>)
    ensures r.Some? <==> 0 <= n <= 4
  {
    if n == 0 then Some("Unknown")
    else if n == 1 then Some("Backup Mode")
    else if n == 2 then Some("Self-Consumption Mode")
    else if n == 3 then Some("Time-of-Use Mode")
    else if n == 4 then Some("Export Limitation Mode")
    else None
  }

  /** `table.get(n, f"{prefix}{n})")`. */
  function Describe(entry: Option<string>, prefix: string, n: int): (s: string)
    ensures entry.Some? ==> s == entry.value
    ensures entry.None? ==> s == prefix + NumberText.IntToString(n) + ")"
  {
    if entry.Some? then entry.value else prefix + NumberText.IntToString(n) + ")"
  }

  const UnknownStatus: string := "Unknown status ("
  const UnknownMode: string := "Unknown mode ("

  function StatusText(n: int): string { Describe(StatusDescription(n), UnknownStatus, n) }
  function ModeText(n: int): string { Describe(ModeDescription(n), UnknownMode, n) }
  /** The status table with the 'Unknown mode (n)' fallback used by the top-level sensor module. */
  function StatusTextWithModeFallback(n: int): string { Describe(StatusDescription(n), UnknownMode, n) }

  /** The fallback text gives the code back: different codes produce different texts. */
  lemma UnknownTextInjective(prefix: string, m: int, n: int)
    requires prefix + NumberText.IntToString(m) + ")" == prefix + NumberText.IntToString(n) + ")"
    ensures m == n
  {
    var sm, sn := prefix + NumberText.IntToString(m) + ")", prefix + NumberText.IntToString(n) + ")";
    assert NumberText.IntToString(m) == sm[|prefix|..|sm| - 1];
    assert NumberText.IntToString(n) == sn[|prefix|..|sn| - 1];
    NumberText.IntToStringInjective(m, n);
  }

  /** No table entry starts like a fallback text. */
  lemma TableTextsAreNotFallbacks(k: int)
    ensures StatusDescription(k).Some? ==> !(UnknownStatus <= StatusDescription(k).value)
                                           && !(UnknownMode <= StatusDescription(k).value)
    ensures ModeDescription(k).Some? ==> !(UnknownMode <= ModeDescription(k).value)
  {
    assert UnknownStatus[..2] == "Un" && UnknownMode[..2] == "Un";
    if 0 <= k <= 9 {
      var s := StatusDescription(k).value;
      assert |s| >= 2 && s[..2] != "Un" by {
        if k == 6 { assert s[1] == 'p'; } else { assert s[0] != 'U'; }
      }
    }
    if ModeDescription(k).Some? {
      assert |ModeDescription(k).value| < |UnknownMode| || ModeDescription(k).value[0] != 'U';
    }
  }

  /** No two status codes share a table entry: the entries differ in length, except "Fault" and
      "Reset", which differ in their first letter. */
  lemma StatusTableInjective(m: int, n: int)
    requires StatusDescription(m).Some? && StatusDescription(m) == StatusDescription(n)
    ensures m == n
  {
    var s := StatusDescription(m).value;
    assert |s| == 5 ==> (s[0] == 'F' <==> m == 5);
    assert |s| == 5 ==> (s[0] == 'F' <==> n == 5);
  }

  /** No two mode codes share a table entry: the entries differ in length. */
  lemma ModeTableInjective(m: int, n: int)
    requires ModeDescription(m).Some? && ModeDescription(m) == ModeDescription(n)
    ensures m == n
  {
    assert |ModeDescription(m).value| == |ModeDescription(n).value|;
  }

  /** Different status codes are described by different texts. */
  lemma StatusTextInjective(m: int, n: int)
    requires StatusText(m) == StatusText(n)
    ensures m == n
  {
    TableTextsAreNotFallbacks(m);
    TableTextsAreNotFallbacks(n);
    if StatusDescription(m).None? && StatusDescription(n).None? {
      UnknownTextInjective(UnknownStatus, m, n);
    } else if StatusDescription(m).Some? && StatusDescription(n).Some? {
      StatusTableInjective(m, n);
    }
  }

  /** Different mode codes are described by different texts. */
  lemma ModeTextInjective(m: int, n: int)
    requires ModeText(m) == ModeText(n)
    ensures m == n
  {
    TableTextsAreNotFallbacks(m);
    TableTextsAreNotFallbacks(n);
    if ModeDescription(m).None? && ModeDescription(n).None? {
      UnknownTextInjective(UnknownMode, m, n);
    } else if ModeDescription(m).Some? && ModeDescription(n).Some? {
      ModeTableInjective(m, n);
    }
  }

  /** Different status codes are described by different texts, also with the 'Unknown mode' fallback. */
  lemma StatusTextWithModeFallbackInjective(m: int, n: int)
    requires StatusTextWithModeFallback(m) == StatusTextWithModeFallback(n)
    ensures m == n
  {
    TableTextsAreNotFallbacks(m);
    TableTextsAreNotFallbacks(n);
    if StatusDescription(m).None? && StatusDescription(n).None? {
      UnknownTextInjective(UnknownMode, m, n);
    } else if StatusDescription(m).Some? && StatusDescription(n).Some? {
      StatusTableInjective(m, n);
    }
  }
}
