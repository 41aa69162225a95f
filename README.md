# Outback MATE3 telemetry decoder, modelled in Dafny

The Outback MATE3 system controller broadcasts the state of the devices it
manages (FX/Radian inverters, FlexMax charge controllers) as UDP datagrams.
This repository decodes them for Home Assistant, in two generations of code.
The project models the core of both, and proves properties of the model.

* **The root decoder** (`__init__.py`, class `OutbackMate3`) cuts a datagram
  with a regular-expression split on `]<`, `><` or `>`. It drops the header and keeps the records that
  start with `0`, then resets the per-type counters. It decodes records until
  one raises. A type-6 record writes sixteen inverter fields into the slot
  numbered by its position among the datagram's inverter records. A type-3
  record does the same with six charge controller fields. Modules
  `RootDecode` (`root_decode.dfy`) and `RootMate3` (`root_mate3.dfy`).
* **The packaged decoder** (`custom_components/outback_mate3/__init__.py`)
  reads a `[XXXXXX-XXXXXX]` MAC header followed by one comma-separated
  record. It merges that record into a fixed-width list per device, stored in
  `device_data`:
  - 15 slots for inverters (records `1`/`2`);
  - 10 slots for charge controllers (records `4`/`5`).

  The list is edited as a copy and stored only if every assignment
  succeeds. The first MAC seen replaces the discovery placeholder `"default"`
  and triggers sensor setup once. `get_aggregated_value` and
  `has_aggregated_value` scan the `inverters` and `charge_controllers` dicts.
  Module `PackagedMate3` (`packaged_mate3.dfy`).
* **The sensors** (`custom_components/outback_mate3/sensor.py`). The system
  sensor adds up grid, battery, load and solar power and daily energy over
  the devices of one MAC, and averages their battery voltages. The per-device
  sensors read one field of one device. Module `PackagedSensors`
  (`packaged_sensors.dfy`).

Shared pieces:
- `Values` (`values.dfy`): stored values, and Python's `int()` truncation,
  `round()` (ties to even) and bit tests.
- `Text` (`text.dfy`): `str.split`, `strip`, `replace` and `str(int)`.
- `MapSum` (`map_sum.dfy`): an order-free sum over a dict. It is used to model
  loops over `dict.values()`, whose order Python fixes but which does not
  matter for a sum of reals.

Python exceptions are modelled as values:
- In the root decoder, a `Writes` value records the fields written before
  the first exception, with a `complete` flag.
- In the packaged decoder, a merge that raises stores nothing (`None`).
- In the sensors, a `Reading` is a number, `None`, or `Raised`.

Both decoders are classes whose methods update their fields in place. Each
method is proved against a function of the old state (`RecordStep`, `Feed`,
`ProcessDatagram`, `Receive`, `InverterMerge`, …), and the lemmas are proved
about those functions.

Note on the packaged code as written: `handle_message` writes only
`device_data`, never `inverters` or `charge_controllers`. Yet those two dicts
are what the sensors and the aggregation read. The model keeps this:
`Receive` leaves both dicts unchanged, and the sensors and aggregation are
modelled over whatever those dicts hold.

## Model

| member | source | states |
|---|---|---|
| RootDecode.TokenizeSplits | __init__.py:104 | Splitting on the pattern's three alternatives `]<`, `><` and `>` gives pieces and cut-out delimiters. Put back in turn they rebuild the datagram. No piece hides a delimiter, and a lone `>` is cut only where `><` does not match. |
| RootDecode.SplitUnique | __init__.py:104 | Any split with those properties is the one `Tokenize` computes. The leftmost-first split is therefore fully characterised. |
| RootDecode.Records | __init__.py:105 | `filter(startswith('0'))` keeps exactly the pieces that start with `0`, and no more than there were. |
| RootDecode.RecordsAppend | __init__.py:105 | The filter commutes with concatenation, so the records keep their order. |
| RootDecode.DatagramRecords | __init__.py:104-105 | The records of a datagram are exactly the pieces after the header that start with `0`. |
| RootDecode.Put | __init__.py:139-186 | One dict write succeeds only if the value was computed and no earlier write raised. On success the dict is the old dict with `key` set to that value; otherwise the dict is unchanged. |
| RootDecode.ApplyIncomplete | __init__.py:108-111 | Once a record has raised, nothing more is written. |
| RootDecode.WrittenPrefix | __init__.py:139-186 | A run of writes that stops at the first exception leaves exactly the keys of the writes before it, each with its own value. It is complete iff no write raised. |
| RootDecode.Label | __init__.py:161-179 | `dict.get(code, 'unknown')`: the table's label for a known code, `"unknown"` otherwise. |
| RootDecode.LabelUnknown | __init__.py:160-186 | For the inverter-mode, AC-mode and charger-mode tables, the label is `"unknown"` iff the code is missing from the table (the charger table is at __init__.py:205-211). |
| RootDecode.LegOffset | __init__.py:141-155 | Every per-leg reading comes from record fields 2..15 and never from 7 or 14. |
| RootDecode.LegOffsetLayout | __init__.py:141-155 | L2 reads each quantity 7 fields after L1. `OffsetField` inverts `LegOffset` both ways, so the twelve per-leg readings map one to one onto fields 2..6, 8..13 and 15. |
| RootDecode.LegOffsetInjective | __init__.py:141-155 | No two per-leg readings share a record field. |
| RootDecode.InverterWritesInOrder | __init__.py:127-186 | The statement-by-statement writes of `_process_inverter` equal the inverter layout applied field by field in source order, stopping at the first exception. |
| RootDecode.InverterOrderDistinct | __init__.py:139-186 | `_process_inverter` writes no key twice. |
| RootDecode.InverterOrderCovers | __init__.py:139-186 | Every inverter field is written by `_process_inverter`. |
| RootDecode.InverterRecordWrites | __init__.py:127-186 | An inverter record is complete iff every field of the layout can be computed. The keys it leaves are the source-order prefix before the first exception. Each key holds the layout's value (AC voltages ×2, output power truncated from (L1+L2 inverter current)×110, mode labels). |
| RootDecode.ChargeControllerWritesInOrder | __init__.py:188-213 | The writes of `_process_charge_controller` equal the charge-controller layout applied in source order, stopping at the first exception. Both PV readings are parsed before the first write. |
| RootDecode.ChargeControllerRecordWrites | __init__.py:188-213 | A charge-controller record is complete iff every field can be computed. It leaves the source-order prefix of fields, each holding its layout value: PV power = voltage × current, output current and battery voltage read in tenths. |
| RootMate3.Upsert | __init__.py:129-132 | A missing slot is created, and then receives the written fields. Every other slot is unchanged. |
| RootMate3.RecordStep | __init__.py:113-125 | A record succeeds iff it decodes. If the type does not parse, nothing changes. Otherwise the type's counter goes up by one. Only type 6 touches the inverters and only type 3 the charge controllers. |
| RootMate3.FeedAppend | __init__.py:107-111 | Records after one that raises are skipped. Records before it stay applied. |
| RootMate3.FeedCounts | __init__.py:116-118 | In a clean run, each type's counter goes up by the number of records of that type. |
| RootMate3.InverterSlotNumbering | __init__.py:107-121 | The k-th inverter record of a datagram (counting from 1, earlier records clean) is written to slot k, whatever the registry held before. |
| RootMate3.ChargeControllerSlotNumbering | __init__.py:107-123 | The k-th charge-controller record of a datagram is written to slot k. |
| RootMate3.FeedKeepsSlots | __init__.py:129-130 | No record ever removes an inverter or charge-controller slot. |
| RootMate3.DatagramOverlay | __init__.py:100-111 | Because the counters reset, a datagram's effect on a registry is its effect on the empty registry, written over the existing slots field by field. |
| RootMate3.DatagramIdempotent | __init__.py:100-111 | Processing the same datagram twice leaves the same registry as processing it once. |
| RootMate3.OutbackMate3.ProcessData | __init__.py:100-111 | The new state is `ProcessDatagram` of the old state: split, filter, reset the counters, process records until one raises. |
| RootMate3.OutbackMate3.ProcessDevice | __init__.py:113-125 | The new state and the success flag are those of `RecordStep`. |
| RootMate3.OutbackMate3.WriteLeg | __init__.py:141-155 | The six writes of one leg extend the slot exactly as `LegWrites` says, stopping at the first exception. |
| RootMate3.OutbackMate3.WriteStatus | __init__.py:157-186 | The output-power, inverter-mode and AC-mode writes extend the slot exactly as `StatusWrites` says, stopping at the first exception. |
| RootMate3.OutbackMate3.ProcessInverter | __init__.py:127-186 | The slot becomes `Upsert` of the old slot with the fields `InverterWrites` computes. The flag says whether all were written. Counters and charge controllers are unchanged. |
| RootMate3.OutbackMate3.ProcessChargeController | __init__.py:188-213 | The same for charge controllers and `ChargeControllerWrites`. |
| PackagedMate3.MacOfAsWritten | custom_components/outback_mate3/__init__.py:139-140 | The slice `[1:15]` keeps the closing bracket. The key is the corrected MAC followed by `]`. |
| PackagedMate3.MacKeepsBracket | custom_components/outback_mate3/__init__.py:139-140 | For every valid header, the key as written has 13 characters and its last one is not a hex digit. |
| PackagedMate3.MacOf | custom_components/outback_mate3/__init__.py:139-140 | The corrected key is exactly the twelve hex digits of the header. |
| PackagedMate3.MacRoundTrip | custom_components/outback_mate3/__init__.py:133-140 | The corrected key inverts the header. The header is rebuilt from the key, and a header built from any twelve hex digits yields them back. |
| PackagedMate3.KeysInjective | custom_components/outback_mate3/__init__.py:199-231 | Two inverter numbers of one MAC never share a key, nor do two charge-controller numbers, so each device has its own `device_data` entry. |
| PackagedMate3.KeysDistinct | custom_components/outback_mate3/__init__.py:199-231 | An inverter key and a charge-controller key never coincide for MACs of one length. |
| PackagedMate3.Zeros | custom_components/outback_mate3/__init__.py:200 | `[0] * n` has length n and holds only 0. |
| PackagedMate3.RawAtSpec | custom_components/outback_mate3/__init__.py:205-207 | The raw string assignments succeed iff the list reaches the last index. Then exactly those positions hold the record's strings, and the rest is kept. |
| PackagedMate3.FloatsAtSpec | custom_components/outback_mate3/__init__.py:209-217 | The `float()` assignments succeed iff every field converts and the list is long enough. Then exactly those positions hold the floats, and the rest is kept. |
| PackagedMate3.InverterMergeIdempotent | custom_components/outback_mate3/__init__.py:194-223 | Merging the same inverter record twice gives what merging it once gives. |
| PackagedMate3.InverterStatusPowerCommute | custom_components/outback_mate3/__init__.py:203-220 | Status (`1`) and power (`2`) records touch disjoint positions. Either order stores the same list, and the power record succeeds in one order iff it does in the other. |
| PackagedMate3.ChargeControllerMergeIdempotent | custom_components/outback_mate3/__init__.py:225-249 | Merging the same charge-controller record twice gives what merging it once gives. |
| PackagedMate3.ChargeControllerStatusPowerCommute | custom_components/outback_mate3/__init__.py:234-246 | Status (`4`) and power (`5`) records commute. |
| PackagedMate3.NonNumericInverterRecordIgnored | custom_components/outback_mate3/__init__.py:209-223 | All or nothing: a power record with any field 3..10 that does not convert leaves `device_data` exactly as it was. |
| PackagedMate3.NonNumericChargeControllerRecordIgnored | custom_components/outback_mate3/__init__.py:239-249 | All or nothing for charge-controller power records (fields 3..6). |
| PackagedMate3.Dispatch | custom_components/outback_mate3/__init__.py:154-162 | A record with fewer than two fields, a device number that is not an int, or an unknown type changes nothing. Any other record changes at most the one entry keyed by MAC, kind and device number. |
| PackagedMate3.Receive | custom_components/outback_mate3/__init__.py:126-162 | A datagram without a MAC header changes nothing. No datagram changes `inverters` or `charge_controllers`. |
| PackagedMate3.DiscoveryStays | custom_components/outback_mate3/__init__.py:143-145 | Once the discovery MAC is anything but `"default"`, no datagram changes it. |
| PackagedMate3.DiscoveryTakesFirstMac | custom_components/outback_mate3/__init__.py:143-151 | The first datagram with a MAC header sets the discovery MAC to its MAC, and no later datagram changes it. |
| PackagedMate3.SetupAtMostOnce | custom_components/outback_mate3/__init__.py:143-192 | Over any sequence of datagrams, sensor setup runs at most once, never without a callback, and earlier setups are kept. |
| PackagedMate3.NoKeyNoTotal | custom_components/outback_mate3/__init__.py:251-273 | When no device has the key, the aggregate is 0.0. |
| PackagedMate3.SumDevices | custom_components/outback_mate3/__init__.py:257-262 | The inner loop sums, over the devices of one MAC, the float-convertible values of the key. |
| PackagedMate3.SumRegistry | custom_components/outback_mate3/__init__.py:256-262 | The outer loop sums those per-MAC totals over every MAC. |
| PackagedMate3.FindInDevices | custom_components/outback_mate3/__init__.py:279-281 | It returns true iff some device of the MAC has the key. |
| PackagedMate3.FindInRegistry | custom_components/outback_mate3/__init__.py:278-281 | It returns true iff some device of some MAC has the key. |
| PackagedMate3.OutbackMate3.SetAddEntitiesCallback | custom_components/outback_mate3/__init__.py:122-124 | Sets the callback and changes nothing else. |
| PackagedMate3.OutbackMate3.SetupSensors | custom_components/outback_mate3/__init__.py:170-192 | Runs only while a callback is set, records the MAC, clears the callback, and leaves the data alone. |
| PackagedMate3.OutbackMate3.HandleMessage | custom_components/outback_mate3/__init__.py:126-168 | The new state is `Receive` of the old one. |
| PackagedMate3.OutbackMate3.WriteFloat | custom_components/outback_mate3/__init__.py:210-217 | `list[i] = float(s)` succeeds iff `s` converts and `i` is in range. On success only position `i` changes; on failure nothing does. |
| PackagedMate3.OutbackMate3.WriteInverterPower | custom_components/outback_mate3/__init__.py:209-217 | The eight `float()` assignments of a power record succeed iff `FloatsAt` over positions 3..10 does. The copy then holds exactly the list `FloatsAt` gives. |
| PackagedMate3.OutbackMate3.WriteChargeControllerPower | custom_components/outback_mate3/__init__.py:239-243 | The same for the four assignments of a charge-controller power record, positions 3..6. |
| PackagedMate3.OutbackMate3.ProcessInverter | custom_components/outback_mate3/__init__.py:194-223 | `device_data` becomes `Store` of `InverterMerge` on the stored list, or on `[0]*15` if none is stored. Everything else is unchanged. |
| PackagedMate3.OutbackMate3.ProcessChargeController | custom_components/outback_mate3/__init__.py:225-249 | The same with `ChargeControllerMerge` and `[0]*10`. |
| PackagedMate3.OutbackMate3.GetAggregatedValue | custom_components/outback_mate3/__init__.py:251-273 | The total of the key's float-convertible values over every device of both kinds, or 0.0 when no device has the key. |
| PackagedMate3.OutbackMate3.HasAggregatedValue | custom_components/outback_mate3/__init__.py:275-289 | True iff some device of either kind has the key. |
| PackagedSensors.Accumulate | custom_components/outback_mate3/sensor.py:233-253 | A sum loop over one MAC's devices raises iff some device's term involves a str. Otherwise it gives the sum of the terms over all devices. |
| PackagedSensors.AccumulateLoads | custom_components/outback_mate3/sensor.py:254-265 | The `to_loads` loop raises iff some device's grid or battery term does. Otherwise it gives both totals. |
| PackagedSensors.LoadsAreGridPlusBattery | custom_components/outback_mate3/sensor.py:254-265 | The unrounded `to_loads` total is the sum over devices of grid plus battery power. That is the unrounded `from_grid` total plus the unrounded `from_battery` total. |
| PackagedSensors.CollectVoltages | custom_components/outback_mate3/sensor.py:274-278 | The list holds the battery voltage of every charge controller that has one, each exactly once. |
| PackagedSensors.MeanVoltage | custom_components/outback_mate3/sensor.py:272-281 | There is no value iff no charge controller has a battery voltage. It raises iff a listed voltage is a str. Otherwise it is the sum of the listed voltages divided by their count. |
| PackagedSensors.SumValues | custom_components/outback_mate3/sensor.py:280 | `sum(values)` raises iff some value is a str. |
| PackagedSensors.SumValuesNumbers | custom_components/outback_mate3/sensor.py:280 | Otherwise it is the sum of the numbers the values stand for. |
| PackagedSensors.SumBounds | custom_components/outback_mate3/sensor.py:279-280 | n numbers within [lo, hi] sum to within [n·lo, n·hi]. |
| PackagedSensors.MeanVoltageWithin | custom_components/outback_mate3/sensor.py:272-280 | The `battery_voltage` average lies within any bounds that every charge controller's numeric battery voltage respects. |
| PackagedSensors.MeanBounds | custom_components/outback_mate3/sensor.py:279-280 | The average battery voltage lies between the lowest and the highest reading. |
| PackagedSensors.SystemNativeValue | custom_components/outback_mate3/sensor.py:230-281 | For each system sensor type: KeyError for an unknown MAC, and TypeError when a term involves a str. Otherwise: the rounded (ties to even) sum of grid power, output power or battery power; for `to_loads`, the rounded sum of the grid and battery totals; the unrounded `kwh_today` sum; the mean of the battery voltages, or None when there are none. Any other type gives None. |
| PackagedSensors.DeviceNativeValue | custom_components/outback_mate3/sensor.py:295-311 | The inverter sensor's value is the stored field. It is None exactly when `available` is false (MAC, device or field missing). The charge-controller sensor (sensor.py:321-337) is the same function applied to `charge_controllers`. |
| Values.Round | custom_components/outback_mate3/sensor.py:238 | `round(x)` is within 0.5 of x, and a tie goes to the even integer. |
| Values.Trunc | __init__.py:158 | `int(x)` truncates toward zero. |
| Text.Split | __init__.py:115 | `str.split(',')`: pieces free of the separator that join back to the input. |
| Text.Strip | custom_components/outback_mate3/__init__.py:129 | `strip()` leaves the input's core, with only whitespace around it. |
| Text.DecimalString | custom_components/outback_mate3/__init__.py:199 | `str(n)`: at least one character, all digits; for negative n a minus sign followed by at least one digit and digits only. |
| Text.DecimalStringRoundTrip | custom_components/outback_mate3/__init__.py:199 | Reading the string back (sign, then the digits most significant first) gives n. |
| Text.DecimalStringInjective | custom_components/outback_mate3/__init__.py:199 | Distinct numbers have distinct decimal strings. |

## Findings

| source | as written | input that shows it | evidently intended | confidence | as-written member | corrected member |
|---|---|---|---|---|---|---|
| custom_components/outback_mate3/__init__.py:139-140 | `message[1:15].replace('-', '')` runs to index 14, the closing bracket, though the comment says the MAC is taken without brackets | `[0123AB-4567CD],2,1,…` gives the key `0123AB4567CD]` | `message[1:14]`, giving `0123AB4567CD` | high; not executed | PackagedMate3.MacKeepsBracket | PackagedMate3.MacOf |

The rest of the model keys devices, the discovery MAC and sensor setup by the
corrected `MacOf`. `MacOfAsWritten` is the code as written, and it differs
only by the trailing `]`.

## Left out

- I/O: the UDP socket, asyncio tasks, logging, and Home Assistant's config entries, entity registry and lifecycle are not modelled. The root `_process_data` receives the datagram as text, although the source applies `str()` to the raw bytes. The packaged `handle_message` likewise receives text, although the source decodes bytes. For a printable datagram without quotes or backslashes, `str(bytes)` is the text inside `b'` and `'`. The `b'` joins the header piece, which is dropped. The closing `'` either forms a last piece of its own, which does not start with `0` and is filtered out, or ends the last record's final field. The model does not include the repr.
- Python's `int()` and `float()` grammars are not modelled. They are parameters (`Conversions`) of every operation that parses, and None stands for ValueError.
- Floats are modelled as reals. Sums are therefore exact and independent of dict iteration order, and rounding error is not modelled.
- Dict keys of the root decoder are the datatypes `InverterField` and `ChargeControllerField`. `InverterFieldName` and `ChargeControllerFieldName` give the Python strings.
- Aliasing: the root decoder writes through a local alias `inv`/`cc` of the slot dict. The model writes the slot in the registry map directly, with the same effect.
- `setup_sensors` builds entity objects from `INVERTER_SENSORS` and `CHARGE_CONTROLLER_SENSORS`, which `const.py` does not define. The model keeps only its effect on the integration's state: it records one setup for the MAC and clears the callback.
- The 240 V check of the root decoder sets the AC factor to 2 in both branches (__init__.py:136). This is modelled as written (`InverterLayout` doubles every AC voltage). Whether 1 was meant for 120 V systems cannot be read from the code.
- The entities' `name`, `unique_id`, `device_info` and unit metadata in sensor.py carry no behaviour and are not modelled.
- PackagedMate3.Receive: keys devices, the discovery MAC and sensor setup by the corrected `MacOf`. The code as written keys by `MacOfAsWritten`, which is `MacOf` followed by `]` (see Findings). So as written, every `device_data` key, the discovery MAC and the MAC passed to `setup_sensors` carry one trailing `]`.
- PackagedMate3.OutbackMate3.HandleMessage: its new state is `Receive`, so it keys by the corrected MAC as above.
- PackagedMate3.DiscoveryTakesFirstMac: states that discovery becomes `MacOf` of the header. As written, it becomes that MAC followed by `]`.
- PackagedMate3.KeysDistinct: stated for MACs of equal length only. Every MAC the header check admits has the same length.
