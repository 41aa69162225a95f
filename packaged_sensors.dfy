/** The sensors of the packaged integration (`custom_components/outback_mate3/sensor.py`):
    system totals over the devices of one MAC, and per-device readings, all
    read from the `inverters` and `charge_controllers` dicts. */
module PackagedSensors {
  import opened Values
  import opened MapSum
  import opened PackagedMate3

  /** The devices of one MAC: device id to field name to value. */
  type Devices = map<int, map<string, Value>>

  /** What `native_value` gives: a number, None, or an exception it raises
      (KeyError for an unknown MAC, TypeError for arithmetic on a str). */
  datatype Reading = Number(x: real) | NoValue | Raised

  /** `d.get(key, 0)` */
  function Get(fields: map<string, Value>, key: string): Value {
    if key in fields then fields[key] else Int(0)
  }

  /** `a + b` and `a - b` on numbers; None where either side is a str, which raises
      (two strs concatenate, but the str then meets a number and raises all the same). */
  function Plus(a: Option<real>, b: Option<real>): Option<real> {
    if a.Some? && b.Some? then Some(a.value + b.value) else None
  }

  function Minus(a: Option<real>, b: Option<real>): Option<real> {
    if a.Some? && b.Some? then Some(a.value - b.value) else None
  }

  /** What one inverter adds to `from_grid`: L1 plus L2 grid power. */
  function GridPower(inv: map<string, Value>): Option<real> {
    Plus(Numeric(Get(inv, "l1_grid_power")), Numeric(Get(inv, "l2_grid_power")))
  }

  /** What one inverter adds to `from_battery`: inverter power less charger power, both legs. */
  function BatteryPower(inv: map<string, Value>): Option<real> {
    Minus(Plus(Numeric(Get(inv, "l1_inverter_power")), Numeric(Get(inv, "l2_inverter_power"))),
          Plus(Numeric(Get(inv, "l1_charger_power")), Numeric(Get(inv, "l2_charger_power"))))
  }

  /** What one charge controller adds to `solar_production`. */
  function OutputPower(cc: map<string, Value>): Option<real> {
    Numeric(Get(cc, "output_power"))
  }

  /** What one charge controller adds to `solar_production_energy`: its
      `kwh_today` if it has one. */
  function EnergyToday(cc: map<string, Value>): Option<real> {
    if "kwh_today" in cc then Numeric(cc["kwh_today"]) else Some(0.0)
  }

  /** No device makes the term raise. */
  predicate AllNumeric(devices: Devices, term: map<string, Value> -> Option<real>) {
    forall no :: no in devices ==> term(devices[no]).Some?
  }

  function Summand(term: map<string, Value> -> Option<real>): map<string, Value> -> real {
    fields => match term(fields) case Some(x) => x case None => 0.0
  }

  /** The sum of the term over the devices, in any order. */
  ghost function Total(devices: Devices, term: map<string, Value> -> Option<real>): real {
    SumMap(devices, Summand(term))
  }

  /** `round(total)` of a loop over `dicts[mac]`; KeyError for an unknown MAC. */
  ghost function RoundedTotal(dicts: DeviceDicts, mac: string, term: map<string, Value> -> Option<real>): Reading {
    if mac !in dicts || !AllNumeric(dicts[mac], term) then Raised
    else Number(Round(Total(dicts[mac], term)) as real)
  }

  /** `total += term(device)` over the devices; None once a term raises. */
  method Accumulate(devices: Devices, term: map<string, Value> -> Option<real>) returns (total: Option<real>)
    ensures total.Some? <==> AllNumeric(devices, term)
    ensures total.Some? ==> total.value == Total(devices, term)
  {
    var sum := 0.0;
    var rest := devices;
    while |rest| > 0
      invariant forall no :: no in rest ==> no in devices && rest[no] == devices[no]
      invariant forall no :: no in devices && no !in rest ==> term(devices[no]).Some?
      invariant sum + SumMap(rest, Summand(term)) == Total(devices, term)
      decreases |rest|
    {
      ghost var some := Pick(rest);
      var no :| no in rest;
      var x := term(rest[no]);
      if x.None? {
        return None;
      }
      sum := sum + x.value;
      SumMapRemove(rest, no, Summand(term));
      RemoveOne(rest, no);
      rest := rest - {no};
    }
    return Some(sum);
  }

  /** Neither term of `to_loads` raises for this inverter. */
  predicate LoadsNumeric(inv: map<string, Value>) {
    GridPower(inv).Some? && BatteryPower(inv).Some?
  }

  /** The `to_loads` loop: grid and battery power summed side by side. */
  method AccumulateLoads(devices: Devices) returns (sums: Option<(real, real)>)
    ensures sums.Some? <==> AllNumeric(devices, GridPower) && AllNumeric(devices, BatteryPower)
    ensures sums.Some? ==> sums.value == (Total(devices, GridPower), Total(devices, BatteryPower))
  {
    var grid, battery := 0.0, 0.0;
    var rest := devices;
    while |rest| > 0
      invariant forall no :: no in rest ==> no in devices && rest[no] == devices[no]
      invariant forall no :: no in devices && no !in rest ==> LoadsNumeric(devices[no])
      invariant grid + SumMap(rest, Summand(GridPower)) == Total(devices, GridPower)
      invariant battery + SumMap(rest, Summand(BatteryPower)) == Total(devices, BatteryPower)
      decreases |rest|
    {
      ghost var some := Pick(rest);
      var no :| no in rest;
      var fields := rest[no];
      assert devices[no] == fields;
      var g := GridPower(fields);
      if g.None? {
        assert !AllNumeric(devices, GridPower);
        return None;
      }
      grid := grid + g.value;
      var b := BatteryPower(fields);
      if b.None? {
        assert !AllNumeric(devices, BatteryPower);
        return None;
      }
      battery := battery + b.value;
      assert Summand(GridPower)(fields) == g.value && Summand(BatteryPower)(fields) == b.value;
      SumMapRemove(rest, no, Summand(GridPower));
      SumMapRemove(rest, no, Summand(BatteryPower));
      RemoveOne(rest, no);
      rest := rest - {no};
    }
    assert AllNumeric(devices, GridPower) && AllNumeric(devices, BatteryPower) by {
      forall no | no in devices ensures LoadsNumeric(devices[no]) {
        assert no !in rest;
      }
    }
    return Some((grid, battery));
  }

  /** The devices that have `key`, each once: an order in which the loop may visit them. */
  ghost predicate Enumerates(order: seq<int>, devices: Devices, key: string) {
    && (forall i, j :: 0 <= i < j < |order| ==> order[i] != order[j])
    && (forall i :: 0 <= i < |order| ==> order[i] in devices && key in devices[order[i]])
    && (forall no :: no in devices && key in devices[no] ==> no in order)
  }

  /** `voltages.append(cc['battery_voltage'])` over the charge controllers that have one. */
  method CollectVoltages(devices: Devices) returns (voltages: seq<Value>, ghost order: seq<int>)
    ensures Enumerates(order, devices, "battery_voltage")
    ensures |voltages| == |order| && forall i :: 0 <= i < |order| ==> voltages[i] == devices[order[i]]["battery_voltage"]
    ensures forall x :: x in voltages <==> exists no :: no in devices && "battery_voltage" in devices[no] && devices[no]["battery_voltage"] == x
  {
    voltages, order := [], [];
    var rest := devices;
    while |rest| > 0
      invariant forall no :: no in rest ==> no in devices && rest[no] == devices[no]
      invariant EnumeratedOutside(order, devices, rest.Keys, "battery_voltage")
      invariant |voltages| == |order| && forall i :: 0 <= i < |order| ==> voltages[i] == devices[order[i]]["battery_voltage"]
      decreases |rest|
    {
      ghost var some := Pick(rest);
      var no :| no in rest;
      ghost var old_order := order;
      if "battery_voltage" in rest[no] {
        voltages := voltages + [rest[no]["battery_voltage"]];
        order := order + [no];
      }
      VisitOne(order, old_order, devices, rest.Keys, no, "battery_voltage");
      RemoveOne(rest, no);
      rest := rest - {no};
    }
    assert rest.Keys == {};
    EnumeratedValues(order, devices, "battery_voltage", voltages);
  }

  /** The values listed along an enumeration are exactly the values of `key`. */
  lemma EnumeratedValues(order: seq<int>, devices: Devices, key: string, listed: seq<Value>)
    requires Enumerates(order, devices, key)
    requires |listed| == |order| && forall i :: 0 <= i < |order| ==> listed[i] == devices[order[i]][key]
    ensures forall x :: x in listed <==> exists no :: no in devices && key in devices[no] && devices[no][key] == x
  {
    forall x | x in listed
      ensures exists no :: no in devices && key in devices[no] && devices[no][key] == x
    {
      var i :| 0 <= i < |listed| && listed[i] == x;
      assert order[i] in devices && key in devices[order[i]];
    }
    forall x | exists no :: no in devices && key in devices[no] && devices[no][key] == x
      ensures x in listed
    {
      var no :| no in devices && key in devices[no] && devices[no][key] == x;
      var i :| 0 <= i < |order| && order[i] == no;
      assert listed[i] == x;
    }
  }

  /** `order` enumerates the devices with `key` that are not in `pending`, none of
      which is pending. */
  ghost predicate EnumeratedOutside(order: seq<int>, devices: Devices, pending: set<int>, key: string) {
    && (forall i, j :: 0 <= i < j < |order| ==> order[i] != order[j])
    && (forall i :: 0 <= i < |order| ==> order[i] !in pending && order[i] in devices && key in devices[order[i]])
    && (forall no :: no in devices && no !in pending && key in devices[no] ==> no in order)
  }

  /** Visiting one pending device keeps the enumeration. */
  lemma VisitOne(order: seq<int>, before: seq<int>, devices: Devices, pending: set<int>, no: int, key: string)
    requires no in pending && no in devices
    requires EnumeratedOutside(before, devices, pending, key)
    requires order == if key in devices[no] then before + [no] else before
    ensures EnumeratedOutside(order, devices, pending - {no}, key)
  {
    if key in devices[no] {
      assert order[|before|] == no;
      forall i | 0 <= i < |before| ensures order[i] == before[i] && order[i] != no {
      }
    }
  }

  /** Python's `sum(values)`: None where a str raises TypeError. */
  function SumValues(values: seq<Value>): (r: Option<real>)
    ensures r.Some? <==> forall i :: 0 <= i < |values| ==> !values[i].Str?
    decreases |values|
  {
    if |values| == 0 then Some(0.0)
    else Plus(SumValues(values[..|values| - 1]), Numeric(values[|values| - 1]))
  }

  /** The numbers a str-free list stands for. */
  function Numbers(values: seq<Value>): (xs: seq<real>)
    requires forall i :: 0 <= i < |values| ==> !values[i].Str?
    ensures |xs| == |values| && forall i :: 0 <= i < |xs| ==> Some(xs[i]) == Numeric(values[i])
  {
    seq(|values|, i requires 0 <= i < |values| => Numeric(values[i]).value)
  }

  function Sum(xs: seq<real>): real
    decreases |xs|
  {
    if |xs| == 0 then 0.0 else Sum(xs[..|xs| - 1]) + xs[|xs| - 1]
  }

  /** `sum(values)` is the sum of the numbers the values stand for. */
  lemma {:induction false} SumValuesNumbers(values: seq<Value>)
    requires forall i :: 0 <= i < |values| ==> !values[i].Str?
    ensures SumValues(values) == Some(Sum(Numbers(values)))
    decreases |values|
  {
    if |values| > 0 {
      var init := values[..|values| - 1];
      SumValuesNumbers(init);
      assert Numbers(values)[..|values| - 1] == Numbers(init);
    }
  }

  /** The sum of numbers within [lo, hi] lies within [n * lo, n * hi]. */
  lemma {:induction false} SumBounds(xs: seq<real>, lo: real, hi: real)
    requires forall i :: 0 <= i < |xs| ==> lo <= xs[i] <= hi
    ensures |xs| as real * lo <= Sum(xs) <= |xs| as real * hi
    decreases |xs|
  {
    if |xs| > 0 {
      var n := |xs| - 1;
      SumBounds(xs[..n], lo, hi);
      assert (n + 1) as real * lo == n as real * lo + lo;
      assert (n + 1) as real * hi == n as real * hi + hi;
    }
  }

  /** The mean of numbers that all lie within [lo, hi] lies within [lo, hi]:
      the average battery voltage is between the lowest and the highest reading. */
  lemma MeanBounds(xs: seq<real>, lo: real, hi: real)
    requires |xs| > 0
    requires forall i :: 0 <= i < |xs| ==> lo <= xs[i] <= hi
    ensures lo <= Sum(xs) / |xs| as real <= hi
  {
    SumBounds(xs, lo, hi);
    DivideBounds(Sum(xs), |xs| as real, lo, hi);
  }

  /** Dividing by a positive count keeps bounds that hold per element. */
  lemma DivideBounds(s: real, n: real, lo: real, hi: real)
    requires n > 0.0 && n * lo <= s <= n * hi
    ensures lo <= s / n <= hi
  {
    var m := s / n;
    assert m * n == s;
    if m < lo {
      assert false;
    }
    if m > hi {
      assert false;
    }
  }

  /** The unrounded `to_loads` sum is the unrounded `from_grid` sum plus the
      unrounded `from_battery` sum. */
  lemma LoadsAreGridPlusBattery(devices: Devices)
    requires AllNumeric(devices, GridPower) && AllNumeric(devices, BatteryPower)
    ensures Total(devices, GridPower) + Total(devices, BatteryPower) ==
      SumMap(devices, fields => Summand(GridPower)(fields) + Summand(BatteryPower)(fields))
  {
    SumMapAdd(devices, Summand(GridPower), Summand(BatteryPower),
      fields => Summand(GridPower)(fields) + Summand(BatteryPower)(fields));
  }

  /** An enumeration is empty iff no device has `key`, and it lists a string iff
      some device holds one under `key`. */
  lemma EnumeratesNone(order: seq<int>, devices: Devices, key: string)
    requires Enumerates(order, devices, key)
    ensures |order| == 0 <==> forall no :: no in devices ==> key !in devices[no]
    ensures (exists i :: 0 <= i < |order| && devices[order[i]][key].Str?) <==>
            (exists no :: no in devices && key in devices[no] && devices[no][key].Str?)
  {
    if |order| > 0 {
      var first := order[0];
      assert first in devices && key in devices[first];
      assert !(forall no :: no in devices ==> key !in devices[no]);
    } else {
      forall no | no in devices ensures key !in devices[no] {
        if key in devices[no] {
          assert false;
        }
      }
    }
    if exists i :: 0 <= i < |order| && devices[order[i]][key].Str? {
      var i :| 0 <= i < |order| && devices[order[i]][key].Str?;
      assert order[i] in devices && key in devices[order[i]];
    }
    if exists no :: no in devices && key in devices[no] && devices[no][key].Str? {
      var no :| no in devices && key in devices[no] && devices[no][key].Str?;
      var i :| 0 <= i < |order| && order[i] == no;
      assert devices[order[i]][key].Str?;
    }
  }

  /** The battery-voltage branch once the MAC is found: the mean of the listed
      voltages, no value when none is listed, an exception when one is a string. */
  method MeanVoltage(devices: Devices) returns (r: Reading, ghost order: seq<int>)
    ensures Enumerates(order, devices, "battery_voltage")
    ensures r == NoValue <==> |order| == 0
    ensures r == Raised <==> exists i :: 0 <= i < |order| && devices[order[i]]["battery_voltage"].Str?
    ensures r.Number? ==> exists xs: seq<real> ::
      && |xs| == |order|
      && (forall i :: 0 <= i < |xs| ==> Some(xs[i]) == Numeric(devices[order[i]]["battery_voltage"]))
      && r.x == Sum(xs) / |xs| as real
    ensures r == NoValue <==> forall no :: no in devices ==> "battery_voltage" !in devices[no]
    ensures r == Raised <==> exists no :: no in devices && "battery_voltage" in devices[no] && devices[no]["battery_voltage"].Str?
  {
    var voltages;
    voltages, order := CollectVoltages(devices);
    EnumeratesNone(order, devices, "battery_voltage");
    if |voltages| == 0 {
      return NoValue, order;
    }
    var sum := SumValues(voltages);
    if sum.None? {
      return Raised, order;
    }
    SumValuesNumbers(voltages);
    r := Number(sum.value / |voltages| as real);
    assert |Numbers(voltages)| == |order|;
  }

  /** The average battery voltage lies between bounds that every charge
      controller's numeric battery voltage respects. */
  lemma MeanVoltageWithin(devices: Devices, order: seq<int>, xs: seq<real>, lo: real, hi: real)
    requires Enumerates(order, devices, "battery_voltage")
    requires |xs| == |order| > 0
    requires forall i :: 0 <= i < |xs| ==> Some(xs[i]) == Numeric(devices[order[i]]["battery_voltage"])
    requires forall no :: no in devices && "battery_voltage" in devices[no] && Numeric(devices[no]["battery_voltage"]).Some? ==>
      lo <= Numeric(devices[no]["battery_voltage"]).value <= hi
    ensures lo <= Sum(xs) / |xs| as real <= hi
  {
    forall i | 0 <= i < |xs| ensures lo <= xs[i] <= hi {
      assert order[i] in devices && "battery_voltage" in devices[order[i]];
    }
    MeanBounds(xs, lo, hi);
  }

  /** The system sensor types `native_value` knows. */
  const SystemSensorTypes: set<string> :=
    {"from_grid", "solar_production", "from_battery", "to_loads", "solar_production_energy", "battery_voltage"}

  /** `OutbackSystemSensor.native_value` for the system sensor `sensorType` of `mac`,
      over the integration's `inverters` and `charge_controllers`. */
  method SystemNativeValue(sensorType: string, mac: string, inverters: DeviceDicts, chargeControllers: DeviceDicts)
    returns (r: Reading, ghost order: seq<int>)
    ensures sensorType == "from_grid" ==> r == RoundedTotal(inverters, mac, GridPower)
    ensures sensorType == "solar_production" ==> r == RoundedTotal(chargeControllers, mac, OutputPower)
    ensures sensorType == "from_battery" ==> r == RoundedTotal(inverters, mac, BatteryPower)
    ensures sensorType == "to_loads" ==>
      r == if mac !in inverters || !AllNumeric(inverters[mac], GridPower) || !AllNumeric(inverters[mac], BatteryPower) then Raised
           else Number(Round(Total(inverters[mac], GridPower) + Total(inverters[mac], BatteryPower)) as real)
    ensures sensorType == "solar_production_energy" ==>
      r == if mac !in chargeControllers || !AllNumeric(chargeControllers[mac], EnergyToday) then Raised
           else Number(Total(chargeControllers[mac], EnergyToday))
    ensures sensorType == "battery_voltage" ==>
      if mac !in chargeControllers then r == Raised
      else
        var devices := chargeControllers[mac];
        && Enumerates(order, devices, "battery_voltage")
        && (r == NoValue <==> |order| == 0)
        && (r == Raised <==> exists i :: 0 <= i < |order| && devices[order[i]]["battery_voltage"].Str?)
        && (r.Number? ==> exists xs: seq<real> ::
              && |xs| == |order|
              && (forall i :: 0 <= i < |xs| ==> Some(xs[i]) == Numeric(devices[order[i]]["battery_voltage"]))
              && r.x == Sum(xs) / |xs| as real)
    ensures sensorType !in SystemSensorTypes ==> r == NoValue
  {
    order := [];
    if sensorType == "from_grid" || sensorType == "from_battery" {
      if mac !in inverters {
        return Raised, order;
      }
      var total := Accumulate(inverters[mac], if sensorType == "from_grid" then GridPower else BatteryPower);
      r := if total.Some? then Number(Round(total.value) as real) else Raised;
    } else if sensorType == "solar_production" {
      if mac !in chargeControllers {
        return Raised, order;
      }
      var total := Accumulate(chargeControllers[mac], OutputPower);
      r := if total.Some? then Number(Round(total.value) as real) else Raised;
    } else if sensorType == "to_loads" {
      if mac !in inverters {
        return Raised, order;
      }
      var sums := AccumulateLoads(inverters[mac]);
      r := if sums.Some? then Number(Round(sums.value.0 + sums.value.1) as real) else Raised;
    } else if sensorType == "solar_production_energy" {
      if mac !in chargeControllers {
        return Raised, order;
      }
      var total := Accumulate(chargeControllers[mac], EnergyToday);
      r := if total.Some? then Number(total.value) else Raised;
    } else if sensorType == "battery_voltage" {
      if mac !in chargeControllers {
        return Raised, order;
      }
      r, order := MeanVoltage(chargeControllers[mac]);
    } else {
      r := NoValue;
    }
  }

  /** The inverter and charge controller sensors (`OutbackInverterSensor` and
      `OutbackChargeControllerSensor`) are available iff the MAC, the device and
      the field are all present. */
  predicate DeviceAvailable(dicts: DeviceDicts, mac: string, id: int, sensorType: string) {
    mac in dicts && id in dicts[mac] && sensorType in dicts[mac][id]
  }

  /** Their `native_value`: the stored field, or None when the MAC, the device
      or the field is missing; so it is None exactly when the sensor is unavailable. */
  function DeviceNativeValue(dicts: DeviceDicts, mac: string, id: int, sensorType: string): (r: Option<Value>)
    ensures r.Some? <==> DeviceAvailable(dicts, mac, id, sensorType)
    ensures r.Some? ==> r.value == dicts[mac][id][sensorType]
  {
    if mac in dicts && id in dicts[mac] then
      if sensorType in dicts[mac][id] then Some(dicts[mac][id][sensorType]) else None
    else None
  }
}
