/** The SAJ cloud API client, from the point where a response body has been decoded: the checks each
    fetcher applies to that body, the history point and load-monitoring module it picks, the text
    that is signed, and the post-processing that `get_device_data` applies to the history sample. */
module SajApi {
  import opened Outcomes
  import opened PyValues
  import NumberText
  import KeyOrder

  const DeviceTypeSolar: string := "solar"
  const DeviceTypeBattery: string := "battery"

  // ---------------------------------------------------------------- signature text

  /** `"&".join(f"{k}={v}" for k, v in items)`. */
  function JoinItems(items: seq<KeyOrder.Item>): string {
    if items == [] then []
    else if |items| == 1 then items[0].0 + "=" + items[0].1
    else items[0].0 + "=" + items[0].1 + "&" + JoinItems(items[1..])
  }

  const TokenField: string := "&accessToken="

  /** The message that `_generate_signature` signs: the parameters sorted by key as `k=v` pairs joined
      by `&`, followed by `&accessToken=` and the token. */
  function SignatureMessage(params: seq<KeyOrder.Item>, token: string): (m: string)
    requires KeyOrder.DistinctKeys(params)
    ensures |m| >= |TokenField| + |token|
    ensures m[|m| - |token| - |TokenField|..] == TokenField + token
    ensures params == [] ==> m == TokenField + token
    ensures forall s :: KeyOrder.SortedByKey(s) && multiset(s) == multiset(params) ==> m == JoinItems(s) + TokenField + token
  {
    KeyOrder.SortedIsSortByKey(params);
    var joined := JoinItems(KeyOrder.SortByKey(params));
    var tail := TokenField + token;
    assert (joined + tail)[|joined|..] == tail;
    assert params == [] ==> joined == [];
    joined + tail
  }

  /** The signed text depends only on the parameter dict, not on the order its entries were added in. */
  lemma SignatureIndependentOfOrder(p: seq<KeyOrder.Item>, q: seq<KeyOrder.Item>, token: string)
    requires KeyOrder.DistinctKeys(p) && KeyOrder.DistinctKeys(q)
    requires multiset(p) == multiset(q)
    ensures SignatureMessage(p, token) == SignatureMessage(q, token)
  {
    KeyOrder.SortIndependentOfOrder(p, q);
  }

  // ---------------------------------------------------------------- response envelopes

  /** A Python value that may be None. */
  function OrNull(o: Option<Value>): (v: Value)
    ensures o.Some? ==> v == o.value
    ensures o.None? ==> v == Null
  {
    if o.Some? then o.value else Null
  }

  /** `body.get("code") != 200 or "data" not in body` rejects the body; otherwise `body["data"]`.
      A body that is not a dict has no `.get`; the exception is caught and the fetcher returns None. */
  function EnvelopeData(body: Value): (r: Option<Value>)
    ensures r.Some? <==> body.Dict? && Get(body.fields, "code") == Num(200.0) && "data" in body.fields
    ensures r.Some? ==> r.value == body.fields["data"]
  {
    match MethodGet(body, "code", Null)
    case Raised => None
    case Ok(code) =>
      if code != Num(200.0) then None
      else match Contains(body, "data")
        case Raised => None
        case Ok(present) => if !present then None else
          match Subscript(body, "data")
          case Raised => None
          case Ok(d) => Some(d)
  }

  /** `get_device_details` given the decoded body (None: no token, transport failure or timeout). */
  function DeviceDetails(response: Option<Value>): (r: Option<Value>)
    ensures r.Some? <==> response.Some? && EnvelopeData(response.value).Some?
    ensures r.Some? ==> r == EnvelopeData(response.value)
  {
    if response.None? then None else EnvelopeData(response.value)
  }

  /** `get_plant_statistics` given the decoded body: only the presence of `data` is checked, not the code. */
  function PlantStatistics(response: Option<Value>): (r: Option<Value>)
    ensures r.Some? <==> response.Some? && response.value.Dict? && "data" in response.value.fields
    ensures r.Some? ==> r.value == response.value.fields["data"]
  {
    if response.None? then None
    else match Contains(response.value, "data")
      case Raised => None
      case Ok(present) => if !present then None else
        match Subscript(response.value, "data")
        case Raised => None
        case Ok(d) => Some(d)
  }

  /** `get_history_data` given the decoded body: the point at index 10 of the `data` list. A list of ten
      points or fewer raises IndexError, which is caught. */
  function HistoryPoint(response: Option<Value>): (r: Option<Value>)
    ensures r.Some? <==> response.Some? && EnvelopeData(response.value).Some?
                         && EnvelopeData(response.value).value.List?
                         && |EnvelopeData(response.value).value.items| > 10
    ensures r.Some? ==> r.value == EnvelopeData(response.value).value.items[10]
  {
    if response.None? then None
    else match EnvelopeData(response.value)
      case None => None
      case Some(points) =>
        if !points.List? || points.items == [] then None
        else if |points.items| <= 10 then None
        else Some(points.items[10])
  }

  // ---------------------------------------------------------------- load monitoring

  /** What the loop over `dataList` does with one module: skip it, return an entry built from it, or
      stop on an exception (caught by the fetcher, which then returns None). */
  datatype Verdict = Skip | Take(entry: Value) | Abort

  /** `v[-1]`: the last element of a non-empty list, the last character of a non-empty string. */
  function LastItem(v: Value): (r: Attempt<Value>)
    ensures v.List? && v.items != [] ==> r == Ok(v.items[|v.items| - 1])
    ensures r.Ok? <==> (v.List? || v.Str?) && Truthy(v)
  {
    match v
    case List(items) => if items == [] then Raised else Ok(items[|items| - 1])
    case Str(s) => if s == [] then Raised else Ok(Str([s[|s| - 1]]))
    case _ => Raised
  }

  /** The entry returned for a module whose `data` is non-empty. */
  function ModuleEntry(fields: map<string, Value>, latest: Value): Value {
    Dict(map["latest" := latest,
             "total" := GetOr(fields, "total", Dict(map[])),
             "module_sn" := GetOr(fields, "moduleSn", Str(""))])
  }

  /** One iteration of the `for module in dataList` loop. */
  function ModuleVerdict(m: Value): (v: Verdict)
    ensures v.Take? <==> m.Dict? && "data" in m.fields && Truthy(m.fields["data"])
                         && (m.fields["data"].List? || m.fields["data"].Str?)
    ensures v.Skip? <==> (m.Dict? && ("data" !in m.fields || !Truthy(m.fields["data"])))
                         || (m.List? && Str("data") !in m.items)
                         || (m.Str? && !IsSubstring("data", m.s))
    ensures v.Take? && m.fields["data"].List? ==>
              v.entry == ModuleEntry(m.fields, m.fields["data"].items[|m.fields["data"].items| - 1])
  {
    match Contains(m, "data")
    case Raised => Abort
    case Ok(present) =>
      if !present then Skip
      else match Subscript(m, "data")
        case Raised => Abort
        case Ok(samples) =>
          if !Truthy(samples) then Skip
          else match LastItem(samples)
            case Raised => Abort
            case Ok(latest) => Take(ModuleEntry(m.fields, latest))
  }

  /** A string element (what iterating over a dict or a string yields) is never returned from:
      it is skipped, or subscripting it raises. */
  lemma StringModuleNeverTaken(s: string)
    ensures !ModuleVerdict(Str(s)).Take?
  {
  }

  /** The outcome of the loop over the modules, as a definition by recursion. */
  function FirstModule(mods: seq<Value>): Option<Value> {
    if mods == [] then None
    else match ModuleVerdict(mods[0])
      case Take(e) => Some(e)
      case Abort => None
      case Skip => FirstModule(mods[1..])
  }

  /** The loop itself: returns on the first module with non-empty `data`; None when the loop ends or raises. */
  method ScanModules(mods: seq<Value>) returns (r: Option<Value>)
    ensures r == FirstModule(mods)
  {
    var i := 0;
    while i < |mods|
      invariant 0 <= i <= |mods|
      invariant FirstModule(mods) == FirstModule(mods[i..])
    {
      assert mods[i..][1..] == mods[i + 1..];
      var v := ModuleVerdict(mods[i]);
      match v
      case Take(e) => return Some(e);
      case Abort => return None;
      case Skip => i := i + 1;
    }
    return None;
  }

  /** The module returned is the first one not skipped, and it is one that is taken. */
  lemma {:induction false} FirstModuleFound(mods: seq<Value>, i: nat)
    requires i < |mods| && ModuleVerdict(mods[i]).Take?
    requires forall j :: 0 <= j < i ==> ModuleVerdict(mods[j]).Skip?
    ensures FirstModule(mods) == Some(ModuleVerdict(mods[i]).entry)
  {
    if i > 0 {
      FirstModuleFound(mods[1..], i - 1);
    }
  }

  /** Whatever is returned comes from a module taken after only skipped ones. */
  lemma {:induction false} FirstModuleWitness(mods: seq<Value>)
    requires FirstModule(mods).Some?
    ensures exists i :: 0 <= i < |mods| && ModuleVerdict(mods[i]) == Take(FirstModule(mods).value)
                        && forall j :: 0 <= j < i ==> ModuleVerdict(mods[j]).Skip?
  {
    if !ModuleVerdict(mods[0]).Take? {
      FirstModuleWitness(mods[1..]);
      var i :| 0 <= i < |mods[1..]| && ModuleVerdict(mods[1..][i]) == Take(FirstModule(mods[1..]).value)
               && forall j :: 0 <= j < i ==> ModuleVerdict(mods[1..][j]).Skip?;
      assert ModuleVerdict(mods[i + 1]) == Take(FirstModule(mods).value);
      forall j | 0 <= j < i + 1 ensures ModuleVerdict(mods[j]).Skip? {
        if j > 0 {
          assert mods[j] == mods[1..][j - 1];
        }
      }
    } else {
      assert ModuleVerdict(mods[0]) == Take(FirstModule(mods).value);
    }
  }

  /** With no module that has non-empty `data`, nothing is returned. */
  lemma {:induction false} FirstModuleNone(mods: seq<Value>)
    requires forall i :: 0 <= i < |mods| ==> !ModuleVerdict(mods[i]).Take?
    ensures FirstModule(mods) == None
  {
    if mods != [] && ModuleVerdict(mods[0]).Skip? {
      assert forall i :: 0 <= i < |mods[1..]| ==> mods[1..][i] == mods[i + 1];
      FirstModuleNone(mods[1..]);
    }
  }

  /** `get_load_monitoring_data` given the decoded body. Iterating a string or a dict yields strings,
      none of which is ever taken (StringModuleNeverTaken), and a number is not iterable, so only a
      list `dataList` can produce an entry. */
  method LoadMonitoringData(response: Option<Value>) returns (r: Option<Value>)
    ensures r == LoadMonitoringOf(response)
  {
    if response.None? {
      return None;
    }
    var payload := EnvelopeData(response.value);
    if payload.None? {
      return None;
    }
    var present := Contains(payload.value, "dataList");
    if present != Ok(true) {
      return None;
    }
    var modules := Subscript(payload.value, "dataList");
    if modules.Raised? || !Truthy(modules.value) || !modules.value.List? {
      return None;
    }
    r := ScanModules(modules.value.items);
  }

  /** What `get_load_monitoring_data` returns for a decoded body. */
  function LoadMonitoringOf(response: Option<Value>): (r: Option<Value>)
    ensures r.Some? ==> response.Some? && EnvelopeData(response.value).Some?
                        && EnvelopeData(response.value).value.Dict?
                        && "dataList" in EnvelopeData(response.value).value.fields
    ensures r.Some? ==> EnvelopeData(response.value).value.fields["dataList"].List?
                        && r == FirstModule(EnvelopeData(response.value).value.fields["dataList"].items)
  {
    if response.None? then None
    else match EnvelopeData(response.value)
      case None => None
      case Some(payload) =>
        if Contains(payload, "dataList") != Ok(true) then None
        else match Subscript(payload, "dataList")
          case Raised => None
          case Ok(modules) =>
            if !Truthy(modules) || !modules.List? then None
            else FirstModule(modules.items)
  }

  // ---------------------------------------------------------------- get_device_data derivations

  /** A configured device: serial number, plant and type tag. */
  datatype Device = Device(sn: string, plantId: string, deviceType: string)

  /** The decoded bodies of the four requests for one device; None where no body was obtained. */
  datatype Responses = Responses(deviceInfo: Option<Value>, plantStats: Option<Value>,
                                 history: Option<Value>, loadMonitoring: Option<Value>)

  function Abs(x: real): (r: real)
    ensures r >= 0.0 && (r == x || r == -x)
  {
    if x < 0.0 then -x else x
  }

  function GridDirection(g: real): (s: string)
    ensures s == "exporting" <==> g < 0.0
    ensures s == "importing" <==> g > 0.0
    ensures s == "idle" <==> g == 0.0
  {
    if g < 0.0 then "exporting" else if g > 0.0 then "importing" else "idle"
  }

  function BatteryDirection(b: real): (s: string)
    ensures s == "discharging" <==> b > 0.0
    ensures s == "charging" <==> b < 0.0
    ensures s == "idle" <==> b == 0.0
  {
    if b > 0.0 then "discharging" else if b < 0.0 then "charging" else "idle"
  }

  /** `f"pv{i}power"`. */
  function PvPowerKey(i: nat): string {
    "pv" + NumberText.NatToString(i) + "power"
  }

  /** `float(history.get(key, 0))`; None where float() raises. */
  function FloatOrZero(h: map<string, Value>, key: string): (r: Option<real>)
    ensures key !in h ==> r == Some(0.0)
    ensures key in h ==> r == ToFloat(h[key])
  {
    ToFloat(GetOr(h, key, Num(0.0)))
  }

  /** The sum of `float(history.get(f"pv{i}power", 0))` for i = 1..n; None once one of them raises. */
  function PvSum(h: map<string, Value>, n: nat): Option<real> {
    if n == 0 then Some(0.0)
    else match PvSum(h, n - 1)
      case None => None
      case Some(s) =>
        match FloatOrZero(h, PvPowerKey(n))
        case None => None
        case Some(x) => Some(s + x)
  }

  /** Once a term has raised, the sum raises for every longer range. */
  lemma {:induction false} PvSumStaysFailed(h: map<string, Value>, n: nat, m: nat)
    requires n <= m && PvSum(h, n).None?
    ensures PvSum(h, m).None?
  {
    if n < m {
      PvSumStaysFailed(h, n, m - 1);
    }
  }

  /** `total_pv_power_calculated` before it is stored: the first three PV inputs for solar devices,
      the reported total otherwise. */
  function PvTotal(h: map<string, Value>, deviceType: string): Option<real> {
    if deviceType == DeviceTypeSolar then PvSum(h, 3) else FloatOrZero(h, "totalPVPower")
  }

  /** The keys the solar sum reads. */
  lemma PvPowerKeys()
    ensures PvPowerKey(1) == "pv1power" && PvPowerKey(2) == "pv2power" && PvPowerKey(3) == "pv3power"
  {
    assert NumberText.NatToString(1) == "1";
    assert NumberText.NatToString(2) == "2";
    assert NumberText.NatToString(3) == "3";
  }

  /** One more term of the PV sum. */
  lemma PvSumNext(h: map<string, Value>, n: nat)
    ensures PvSum(h, n + 1).Some? <==> PvSum(h, n).Some? && FloatOrZero(h, PvPowerKey(n + 1)).Some?
    ensures PvSum(h, n + 1).Some? ==> PvSum(h, n + 1).value == PvSum(h, n).value + FloatOrZero(h, PvPowerKey(n + 1)).value
  {
  }

  /** For a solar device the total is the sum of `pv1power`, `pv2power` and `pv3power`, each missing one
      counting as 0; it raises when any of the three does not convert. */
  lemma SolarPvTotal(h: map<string, Value>)
    ensures PvTotal(h, DeviceTypeSolar).Some? <==>
              FloatOrZero(h, "pv1power").Some? && FloatOrZero(h, "pv2power").Some? && FloatOrZero(h, "pv3power").Some?
    ensures PvTotal(h, DeviceTypeSolar).Some? ==>
              PvTotal(h, DeviceTypeSolar).value
              == FloatOrZero(h, "pv1power").value + FloatOrZero(h, "pv2power").value + FloatOrZero(h, "pv3power").value
  {
    PvPowerKeys();
    assert PvSum(h, 0) == Some(0.0);
    PvSumNext(h, 0);
    PvSumNext(h, 1);
    PvSumNext(h, 2);
  }

  /** A missing `totalGridPowerWatt` counts as 0: idle, with zero magnitude. */
  lemma MissingGridPowerIsIdle(h: map<string, Value>, deviceType: string)
    requires "totalGridPowerWatt" !in h && Derived(h, deviceType).Some?
    ensures Derived(h, deviceType).value["grid_status_calculated"] == Str("idle")
    ensures Derived(h, deviceType).value["grid_power_abs"] == Num(0.0)
  {
  }

  const DerivedKeys: set<string> := {"total_pv_power_calculated", "grid_status_calculated", "grid_power_abs",
                                      "battery_status_calculated", "battery_power_abs"}

  /** The history sample after the derivations (None where a float() raised). */
  function Derived(h: map<string, Value>, deviceType: string): (r: Option<map<string, Value>>)
    ensures r.Some? <==> PvTotal(h, deviceType).Some? && FloatOrZero(h, "totalGridPowerWatt").Some?
                         && (deviceType == DeviceTypeBattery ==> FloatOrZero(h, "batPower").Some?)
    ensures r.Some? ==> r.value.Keys == h.Keys + {"total_pv_power_calculated", "grid_status_calculated", "grid_power_abs"}
                                        + (if deviceType == DeviceTypeBattery
                                           then {"battery_status_calculated", "battery_power_abs"} else {})
    ensures r.Some? ==> forall k :: k in h && k !in DerivedKeys ==> r.value[k] == h[k]
    ensures r.Some? ==> r.value["total_pv_power_calculated"] == Num(PvTotal(h, deviceType).value)
    ensures r.Some? ==> var g := FloatOrZero(h, "totalGridPowerWatt").value;
                        && (r.value["grid_status_calculated"] == Str("exporting") <==> g < 0.0)
                        && (r.value["grid_status_calculated"] == Str("importing") <==> g > 0.0)
                        && (r.value["grid_status_calculated"] == Str("idle") <==> g == 0.0)
                        && r.value["grid_power_abs"].Num?
                        && r.value["grid_power_abs"].x >= 0.0
                        && (r.value["grid_power_abs"].x == g || r.value["grid_power_abs"].x == -g)
    ensures r.Some? && deviceType == DeviceTypeBattery ==>
              var b := FloatOrZero(h, "batPower").value;
              && (r.value["battery_status_calculated"] == Str("discharging") <==> b > 0.0)
              && (r.value["battery_status_calculated"] == Str("charging") <==> b < 0.0)
              && (r.value["battery_status_calculated"] == Str("idle") <==> b == 0.0)
              && r.value["battery_power_abs"].Num?
              && r.value["battery_power_abs"].x >= 0.0
              && (r.value["battery_power_abs"].x == b || r.value["battery_power_abs"].x == -b)
  {
    var pv := PvTotal(h, deviceType);
    var grid := FloatOrZero(h, "totalGridPowerWatt");
    if pv.None? || grid.None? then None
    else
      var h1 := h["total_pv_power_calculated" := Num(pv.value)]
                 ["grid_status_calculated" := Str(GridDirection(grid.value))]
                 ["grid_power_abs" := Num(Abs(grid.value))];
      if deviceType != DeviceTypeBattery then Some(h1)
      else
        var bat := FloatOrZero(h, "batPower");
        if bat.None? then None
        else Some(h1["battery_status_calculated" := Str(BatteryDirection(bat.value))]
                    ["battery_power_abs" := Num(Abs(bat.value))])
  }

  /** The dict `get_device_data` returns, with None written as Null. */
  datatype Bundle = Bundle(deviceInfo: Value, plantStats: Value, history: map<string, Value>,
                           loadMonitoring: Value, deviceType: string)

  /** The outcome of `get_device_data`: the bundle, None (history missing or empty), or an exception
      that escapes it (a history point that is not a dict, or a float() that raises). */
  datatype DeviceFetch = Fetched(bundle: Bundle) | Missing | Throws

  /** What `get_device_data` produces for a device and the four decoded bodies. */
  function DeviceDataOf(device: Device, responses: Responses): (r: DeviceFetch)
    ensures r.Missing? <==> !Truthy(OrNull(HistoryPoint(responses.history)))
    ensures var point := OrNull(HistoryPoint(responses.history));
            r.Throws? <==> Truthy(point) && (!point.Dict? || Derived(point.fields, device.deviceType).None?)
    ensures r.Fetched? ==> (r.bundle.deviceType == device.deviceType
                            && r.bundle.deviceInfo == OrNull(DeviceDetails(responses.deviceInfo))
                            && r.bundle.plantStats == OrNull(PlantStatistics(responses.plantStats))
                            && r.bundle.loadMonitoring == OrNull(LoadMonitoringOf(responses.loadMonitoring)))
    ensures r.Fetched? ==> (HistoryPoint(responses.history).value.Dict?
                            && Derived(HistoryPoint(responses.history).value.fields, device.deviceType)
                               == Some(r.bundle.history))
  {
    var point := OrNull(HistoryPoint(responses.history));
    if !Truthy(point) then Missing
    else if !point.Dict? then Throws
    else match Derived(point.fields, device.deviceType)
      case None => Throws
      case Some(h) =>
        Fetched(Bundle(OrNull(DeviceDetails(responses.deviceInfo)),
                       OrNull(PlantStatistics(responses.plantStats)),
                       h,
                       OrNull(LoadMonitoringOf(responses.loadMonitoring)),
                       device.deviceType))
  }

  /** `get_device_data`: fetch the four sources, give up without the history sample, then derive the
      calculated fields on the sample one after another. */
  method DeviceData(device: Device, responses: Responses) returns (r: DeviceFetch)
    ensures r == DeviceDataOf(device, responses)
  {
    var deviceInfo := DeviceDetails(responses.deviceInfo);
    var plantStats := PlantStatistics(responses.plantStats);
    var point := HistoryPoint(responses.history);
    var loadMonitoring := LoadMonitoringData(responses.loadMonitoring);
    if !Truthy(OrNull(point)) {
      return Missing;
    }
    if !point.value.Dict? {
      return Throws;
    }
    var h := DeriveFields(point.value.fields, device.deviceType);
    if h.None? {
      return Throws;
    }
    r := Fetched(Bundle(OrNull(deviceInfo), OrNull(plantStats), h.value, OrNull(loadMonitoring), device.deviceType));
  }

  /** The loop of `get_device_data` that adds up the first three PV inputs of the history sample. */
  method SumPvInputs(original: map<string, Value>) returns (r: Option<real>)
    ensures r == PvSum(original, 3)
  {
    var total := 0.0;
    for i := 1 to 4
      invariant PvSum(original, i - 1) == Some(total)
    {
      var pv := FloatOrZero(original, PvPowerKey(i));
      if pv.None? {
        PvSumStaysFailed(original, i, 3);
        return None;
      }
      total := total + pv.value;
    }
    return Some(total);
  }

  /** The writes `get_device_data` makes on the history sample, in its order; None once a float() raises. */
  method DeriveFields(original: map<string, Value>, deviceType: string) returns (r: Option<map<string, Value>>)
    ensures r == Derived(original, deviceType)
  {
    var h := original;
    var pv: Option<real>;
    if deviceType == DeviceTypeSolar {
      pv := SumPvInputs(original);
    } else {
      pv := FloatOrZero(original, "totalPVPower");
    }
    if pv.None? {
      return None;
    }
    h := h["total_pv_power_calculated" := Num(pv.value)];
    var grid := FloatOrZero(original, "totalGridPowerWatt");
    if grid.None? {
      return None;
    }
    h := h["grid_status_calculated" := Str(GridDirection(grid.value))];
    h := h["grid_power_abs" := Num(Abs(grid.value))];
    if deviceType == DeviceTypeBattery {
      var bat := FloatOrZero(original, "batPower");
      if bat.None? {
        return None;
      }
      h := h["battery_status_calculated" := Str(BatteryDirection(bat.value))];
      h := h["battery_power_abs" := Num(Abs(bat.value))];
    }
    return Some(h);
  }

  /** The bundle as the dict other components look values up in. */
  function BundleDict(b: Bundle): (m: map<string, Value>)
    ensures m.Keys == {"device_info", "plant_stats", "history_data", "load_monitoring", "device_type"}
    ensures m["history_data"] == Dict(b.history) && m["device_type"] == Str(b.deviceType)
  {
    map["device_info" := b.deviceInfo, "plant_stats" := b.plantStats, "history_data" := Dict(b.history),
        "load_monitoring" := b.loadMonitoring, "device_type" := Str(b.deviceType)]
  }
}
