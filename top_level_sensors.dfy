/** The repository's top-level sensor platform (`sensor.py`), which reads the device entry directly:
    grid power and its direction chosen from the buy/sell pair of the latest load-monitoring sample,
    PV input availability and the operating status. Every property first answers None (or {} or
    false) for an empty device entry. Its comparisons and conversions are not guarded. */
module TopLevelSensors {
  import opened Outcomes
  import opened PyValues
  import NumberText
  import SajApi
  import opened Snapshot

  predicate HasLoadMonitoring(d: DeviceData) {
    "load_monitoring" in d && Truthy(d["load_monitoring"])
  }

  /** `latest = lm.get("latest", {})` and its `buyPower` and `sellPower`, each defaulting to 0. */
  function BuySell(d: DeviceData): (r: Attempt<(Value, Value)>)
    requires HasLoadMonitoring(d)
    ensures r.Ok? <==> d["load_monitoring"].Dict? && GetOr(d["load_monitoring"].fields, "latest", Dict(map[])).Dict?
    ensures r.Ok? ==> var latest := GetOr(d["load_monitoring"].fields, "latest", Dict(map[])).fields;
                      r.value == (GetOr(latest, "buyPower", Num(0.0)), GetOr(latest, "sellPower", Num(0.0)))
  {
    var latest :- MethodGet(d["load_monitoring"], "latest", Dict(map[]));
    if !latest.Dict? then Raised
    else Ok((GetOr(latest.fields, "buyPower", Num(0.0)), GetOr(latest.fields, "sellPower", Num(0.0))))
  }

  /** The direction the buy/sell pair shows: buying wins when both are positive. The comparisons raise
      for values that are not numbers; `sell` is only compared when `buy` is not positive. */
  function Direction(buy: Value, sell: Value): (r: Attempt<string>)
    ensures r == Ok("importing") <==> NumberOf(buy).Some? && NumberOf(buy).value > 0.0
    ensures r == Ok("exporting") <==> NumberOf(buy).Some? && NumberOf(buy).value <= 0.0
                                      && NumberOf(sell).Some? && NumberOf(sell).value > 0.0
    ensures r == Ok("idle") <==> NumberOf(buy).Some? && NumberOf(buy).value <= 0.0
                                 && NumberOf(sell).Some? && NumberOf(sell).value <= 0.0
    ensures r.Ok? || r.Raised?
  {
    var buying :- Greater(buy, 0.0);
    if buying then Ok("importing")
    else
      var selling :- Greater(sell, 0.0);
      if selling then Ok("exporting") else Ok("idle")
  }

  /** `SajGridPowerSensor.native_value`. */
  function GridPower(d: DeviceData): (r: Attempt<Value>)
    ensures d == map[] ==> r == Ok(Null)
    ensures d != map[] && !HasLoadMonitoring(d) && "history_data" !in d ==> r == Ok(Null)
    ensures d != map[] && !HasLoadMonitoring(d) && "history_data" in d ==>
              r == MethodGet(d["history_data"], "grid_power_abs", Null)
  {
    if d == map[] then Ok(Null)
    else if HasLoadMonitoring(d) then
      var pair :- BuySell(d);
      var (buy, sell) := pair;
      var buying :- Greater(buy, 0.0);
      if buying then Ok(Num(NumberOf(buy).value))
      else
        var selling :- Greater(sell, 0.0);
        if selling then Ok(Num(NumberOf(sell).value)) else Ok(Num(0.0))
    else if "history_data" in d then MethodGet(d["history_data"], "grid_power_abs", Null)
    else Ok(Null)
  }

  /** With load monitoring the reported grid power is a magnitude: buy if positive, else sell if
      positive, else 0; never negative. */
  lemma GridPowerFromLoadMonitoring(d: DeviceData)
    requires d != map[] && HasLoadMonitoring(d) && GridPower(d).Ok?
    ensures BuySell(d).Ok?
    ensures GridPower(d).value.Num? && GridPower(d).value.x >= 0.0
    ensures var (buy, sell) := BuySell(d).value;
            GridPower(d).value.x == (if NumberOf(buy).value > 0.0 then NumberOf(buy).value
                                     else if NumberOf(sell).value > 0.0 then NumberOf(sell).value else 0.0)
  {
  }

  /** `SajGridPowerSensor.extra_state_attributes`. */
  function GridAttributes(d: DeviceData): (r: Attempt<map<string, Value>>)
    ensures d == map[] ==> r == Ok(map[])
    ensures d != map[] && HasLoadMonitoring(d) ==>
              (r.Raised? <==> BuySell(d).Raised? || Direction(BuySell(d).value.0, BuySell(d).value.1).Raised?)
    ensures d != map[] && HasLoadMonitoring(d) && r.Ok? ==>
              r.value == map["status" := Str(Direction(BuySell(d).value.0, BuySell(d).value.1).value)]
    ensures d != map[] && !HasLoadMonitoring(d) && "history_data" in d ==>
              (r.Ok? <==> d["history_data"].Dict?)
    ensures d != map[] && !HasLoadMonitoring(d) && "history_data" in d && r.Ok? ==>
              r.value == map["status" := Get(d["history_data"].fields, "grid_status_calculated")]
    ensures d != map[] && !HasLoadMonitoring(d) && "history_data" !in d ==> r == Ok(map[])
  {
    if d == map[] then Ok(map[])
    else if HasLoadMonitoring(d) then
      var pair :- BuySell(d);
      var status :- Direction(pair.0, pair.1);
      Ok(map["status" := Str(status)])
    else if "history_data" in d then
      var status :- MethodGet(d["history_data"], "grid_status_calculated", Null);
      Ok(map["status" := status])
    else Ok(map[])
  }

  /** `SajGridStatusSensor.native_value`. */
  function GridStatus(d: DeviceData): (r: Attempt<Value>)
    ensures d == map[] ==> r == Ok(Null)
    ensures r.Ok? && HasLoadMonitoring(d) && d != map[] ==>
              r.value in {Str("importing"), Str("exporting"), Str("idle")}
    ensures d != map[] && HasLoadMonitoring(d) ==>
              (r.Raised? <==> BuySell(d).Raised? || Direction(BuySell(d).value.0, BuySell(d).value.1).Raised?)
    ensures d != map[] && HasLoadMonitoring(d) && r.Ok? ==>
              r.value == Str(Direction(BuySell(d).value.0, BuySell(d).value.1).value)
    ensures d != map[] && !HasLoadMonitoring(d) && "history_data" in d ==>
              r == MethodGet(d["history_data"], "grid_status_calculated", Null)
    ensures d != map[] && !HasLoadMonitoring(d) && "history_data" !in d ==> r == Ok(Null)
  {
    if d == map[] then Ok(Null)
    else if HasLoadMonitoring(d) then
      var pair :- BuySell(d);
      var status :- Direction(pair.0, pair.1);
      Ok(Str(status))
    else if "history_data" in d then MethodGet(d["history_data"], "grid_status_calculated", Null)
    else Ok(Null)
  }

  /** The grid power sensor's `status` attribute always agrees with the grid status sensor: both raise
      together, and otherwise the attribute holds the status, or is absent exactly where the status is
      None because there is no source at all. */
  lemma StatusAttributeMatchesGridStatus(d: DeviceData)
    ensures GridAttributes(d).Raised? <==> GridStatus(d).Raised?
    ensures GridAttributes(d).Ok? && "status" in GridAttributes(d).value ==>
              GridAttributes(d).value == map["status" := GridStatus(d).value]
    ensures GridAttributes(d).Ok? && "status" !in GridAttributes(d).value ==> GridStatus(d) == Ok(Null)
  {
  }

  /** The grid power and the grid status agree in sign: a positive power comes with "importing" or
      "exporting", and a zero power with "idle". */
  lemma GridPowerMatchesGridStatus(d: DeviceData)
    requires d != map[] && HasLoadMonitoring(d) && GridPower(d).Ok?
    ensures GridStatus(d).Ok?
    ensures GridPower(d).value == Num(0.0) <==> GridStatus(d).value == Str("idle")
  {
  }

  /** Missing `buyPower` and `sellPower` both count as 0, as does a missing `latest`: power 0 and status idle. */
  lemma MissingBuySellIsIdle(d: DeviceData)
    requires d != map[] && HasLoadMonitoring(d) && d["load_monitoring"].Dict?
    requires GetOr(d["load_monitoring"].fields, "latest", Dict(map[])).Dict?
    requires "buyPower" !in GetOr(d["load_monitoring"].fields, "latest", Dict(map[])).fields
    requires "sellPower" !in GetOr(d["load_monitoring"].fields, "latest", Dict(map[])).fields
    ensures GridPower(d) == Ok(Num(0.0))
    ensures GridStatus(d) == Ok(Str("idle"))
  {
  }

  /** `SajPVPowerSensor.available` for input `n`, given whether the coordinator's last update succeeded
      with this device: only a present history sample with a positive `pv{n}power` makes it available.
      float() of that value is not guarded. */
  function PvAvailable(coordinatorAvailable: bool, d: DeviceData, n: nat): (r: Attempt<bool>)
    ensures r == Ok(true) <==> coordinatorAvailable && d != map[] && "history_data" in d
                               && d["history_data"].Dict? && SajApi.PvPowerKey(n) in d["history_data"].fields
                               && d["history_data"].fields[SajApi.PvPowerKey(n)] != Null
                               && ToFloat(d["history_data"].fields[SajApi.PvPowerKey(n)]).Some?
                               && ToFloat(d["history_data"].fields[SajApi.PvPowerKey(n)]).value > 0.0
    ensures !coordinatorAvailable || d == map[] || "history_data" !in d ==> r == Ok(false)
  {
    if !coordinatorAvailable then Ok(false)
    else if d == map[] || "history_data" !in d then Ok(false)
    else
      var power :- MethodGet(d["history_data"], SajApi.PvPowerKey(n), Null);
      if power == Null then Ok(false)
      else match ToFloat(power)
        case None => Raised
        case Some(x) => Ok(x > 0.0)
  }

  /** `SajOperatingStatusSensor.native_value`: history `mpvMode` through the status table, with the
      "Unknown mode (n)" fallback; None without it. int() is not guarded. */
  function OperatingStatus(d: DeviceData): (r: Attempt<Value>)
    ensures d == map[] || "history_data" !in d ==> r == Ok(Null)
    ensures d != map[] && "history_data" in d && d["history_data"].Dict? ==>
              var mode := Get(d["history_data"].fields, "mpvMode");
              r == if mode == Null then Ok(Null)
                   else if ToInt(mode).None? then Raised
                   else Ok(Str(StatusTextWithModeFallback(ToInt(mode).value)))
  {
    if d == map[] || "history_data" !in d then Ok(Null)
    else
      var mode :- MethodGet(d["history_data"], "mpvMode", Null);
      if mode == Null then Ok(Null)
      else match ToInt(mode)
        case None => Raised
        case Some(n) => Ok(Str(StatusTextWithModeFallback(n)))
  }
}
