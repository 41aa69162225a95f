/** The packaged decoder (`custom_components/outback_mate3/__init__.py`, class
    `OutbackMate3`): each datagram carries a `[XXXXXX-XXXXXX]` MAC header and one
    comma-separated record, which is merged into a fixed-width list per device. */
module PackagedMate3 {
  import opened Values
  import opened Text
  import opened MapSum

  /** MAC address to device id to field name to value: the shape of the
      `inverters` and `charge_controllers` dicts. */
  type DeviceDicts = map<string, map<int, map<string, Value>>>

  /** The fixed-width lists of `device_data`, keyed by device. */
  type DeviceLists = map<string, seq<Value>>

  // ---------------------------------------------------------------- header

  predicate IsHexDigit(ch: char) {
    '0' <= ch <= '9' || 'A' <= ch <= 'F'
  }

  /** `re.match(r'^\[[0-9A-F]{6}-[0-9A-F]{6}\]', message)` succeeds. */
  predicate HasMacHeader(m: string) {
    && |m| >= 15 && m[0] == '[' && m[7] == '-' && m[14] == ']'
    && (forall i :: 1 <= i < 7 ==> IsHexDigit(m[i]))
    && (forall i :: 8 <= i < 14 ==> IsHexDigit(m[i]))
  }

  /** `message[1:15].replace('-', '')` as written: the slice ends on the
      closing bracket, so the key is the twelve hex digits followed by `]`. */
  function MacOfAsWritten(m: string): (mac: string)
    requires HasMacHeader(m)
    ensures mac == MacOf(m) + "]"
  {
    assert m[1..15] == m[1..14] + "]";
    RemoveCharAppend(m[1..14], "]", '-');
    assert RemoveChar("]", '-') == "]";
    RemoveChar(m[1..15], '-')
  }

  /** The key the comment beside the slice describes, and the one `message[1:14]`
      gives: the MAC without its brackets or dash. The rest of the model uses it. */
  function MacOf(m: string): (mac: string)
    requires HasMacHeader(m)
    ensures mac == m[1..7] + m[8..14]
    ensures |mac| == 12 && forall i :: 0 <= i < 12 ==> IsHexDigit(mac[i])
  {
    MacSlice(m);
    RemoveChar(m[1..14], '-')
  }

  /** The key as written is not a MAC: its last character is the bracket. */
  lemma MacKeepsBracket(m: string)
    requires HasMacHeader(m)
    ensures |MacOfAsWritten(m)| == 13 && !IsHexDigit(MacOfAsWritten(m)[12])
  {
    assert MacOfAsWritten(m)[12] == ']';
  }

  /** The corrected key is an inverse of the header: the header is rebuilt from
      it, and a header built from twelve hex digits gives them back. */
  lemma MacRoundTrip(m: string, digits: string, rest: string)
    requires HasMacHeader(m)
    requires |digits| == 12 && forall i :: 0 <= i < 12 ==> IsHexDigit(digits[i])
    ensures m[..15] == "[" + MacOf(m)[..6] + "-" + MacOf(m)[6..] + "]"
    ensures var h := "[" + digits[..6] + "-" + digits[6..] + "]" + rest;
      HasMacHeader(h) && MacOf(h) == digits
  {
    var mac := MacOf(m);
    assert mac[..6] == m[1..7] && mac[6..] == m[8..14];
    assert m[..15] == [m[0]] + m[1..7] + [m[7]] + m[8..14] + [m[14]];
    var h := "[" + digits[..6] + "-" + digits[6..] + "]" + rest;
    assert h[1..7] == digits[..6] && h[8..14] == digits[6..];
    assert forall i :: 1 <= i < 7 ==> h[i] == digits[i - 1];
    assert forall i :: 8 <= i < 14 ==> h[i] == digits[i - 2];
  }

  lemma MacSlice(m: string)
    requires HasMacHeader(m)
    ensures RemoveChar(m[1..14], '-') == m[1..7] + m[8..14]
  {
    var a, b := m[1..7], m[8..14];
    assert m[1..14] == a + (['-'] + b);
    forall j | 0 <= j < 6
      ensures a[j] != '-' && b[j] != '-'
    {
      assert a[j] == m[1 + j] && IsHexDigit(m[1 + j]);
      assert b[j] == m[8 + j] && IsHexDigit(m[8 + j]);
    }
    DropDash(a, b);
  }

  /** Removing the one dash between two dash-free strings joins them. */
  lemma DropDash(a: string, b: string)
    requires '-' !in a && '-' !in b
    ensures RemoveChar(a + (['-'] + b), '-') == a + b
  {
    var t := ['-'] + b;
    assert t[0] == '-' && t[1..] == b;
    assert RemoveChar(t, '-') == RemoveChar(b, '-');
    RemoveCharAppend(a, t, '-');
    RemoveCharAbsent(a, '-');
    RemoveCharAbsent(b, '-');
  }

  /** `message[16:].split(',')`: the one record a datagram carries. */
  function RecordFields(m: string): (fields: seq<string>)
    ensures |fields| >= 1
  {
    Split(if |m| >= 16 then m[16..] else "", ',')
  }

  /** `f"{mac_address}_inverter_{device_no}"` */
  function InverterKey(mac: string, no: int): string {
    mac + "_inverter_" + DecimalString(no)
  }

  /** `f"{mac_address}_cc_{device_no}"` */
  function ChargeControllerKey(mac: string, no: int): string {
    mac + "_cc_" + DecimalString(no)
  }

  /** Two inverters of one MAC never share a key, nor do two charge controllers. */
  lemma KeysInjective(mac: string, no: int, no': int)
    ensures InverterKey(mac, no) == InverterKey(mac, no') ==> no == no'
    ensures ChargeControllerKey(mac, no) == ChargeControllerKey(mac, no') ==> no == no'
  {
    if InverterKey(mac, no) == InverterKey(mac, no') {
      var n := |mac + "_inverter_"|;
      assert InverterKey(mac, no)[n..] == DecimalString(no);
      assert InverterKey(mac, no')[n..] == DecimalString(no');
      DecimalStringInjective(no, no');
    }
    if ChargeControllerKey(mac, no) == ChargeControllerKey(mac, no') {
      var n := |mac + "_cc_"|;
      assert ChargeControllerKey(mac, no)[n..] == DecimalString(no);
      assert ChargeControllerKey(mac, no')[n..] == DecimalString(no');
      DecimalStringInjective(no, no');
    }
  }

  /** Inverter and charge controller lists of MACs of one length never share a key. */
  lemma KeysDistinct(mac: string, mac': string, no: int, no': int)
    requires |mac| == |mac'|
    ensures InverterKey(mac, no) != ChargeControllerKey(mac', no')
  {
    assert InverterKey(mac, no)[|mac| + 1] == 'i';
    assert ChargeControllerKey(mac', no')[|mac| + 1] == 'c';
  }

  // ---------------------------------------------------------------- lists

  /** `[0] * n` */
  function Zeros(n: nat): (r: seq<Value>)
    ensures |r| == n && forall i :: 0 <= i < n ==> r[i] == Int(0)
  {
    seq(n, _ => Int(0))
  }

  /** `list(self.device_data.get(key, [0] * width))` */
  function Stored(data: DeviceLists, key: string, width: nat): seq<Value> {
    if key in data then data[key] else Zeros(width)
  }

  /** `self.device_data[key] = list` when the merge produced one; None stores nothing. */
  function Store(data: DeviceLists, key: string, merged: Option<seq<Value>>): DeviceLists {
    match merged
    case None => data
    case Some(list) => data[key := list]
  }

  /** `list[i] = values[i]` for i from `lo` to `hi` in turn; None where an
      assignment raises IndexError. */
  function RawAt(list: seq<Value>, values: seq<string>, lo: nat, hi: nat): Option<seq<Value>>
    requires hi < |values|
    decreases hi + 1 - lo
  {
    if lo > hi then Some(list)
    else if lo >= |list| then None
    else RawAt(list[lo := Str(values[lo])], values, lo + 1, hi)
  }

  /** `list[i] = float(values[i])` for i from `lo` to `hi` in turn; None where
      the conversion raises ValueError or the assignment IndexError. */
  function FloatsAt(list: seq<Value>, values: seq<string>, lo: nat, hi: nat, c: Conversions): Option<seq<Value>>
    requires hi < |values|
    decreases hi + 1 - lo
  {
    if lo > hi then Some(list)
    else match c.parseFloat(values[lo])
      case None => None
      case Some(x) =>
        if lo >= |list| then None
        else FloatsAt(list[lo := Float(x)], values, lo + 1, hi, c)
  }

  /** The raw writes succeed iff the list reaches `hi`; then exactly positions
      `lo`..`hi` hold the record's strings and every other position is kept. */
  lemma {:induction false} RawAtSpec(list: seq<Value>, values: seq<string>, lo: nat, hi: nat)
    requires hi < |values|
    ensures RawAt(list, values, lo, hi).Some? <==> lo > hi || hi < |list|
    ensures RawAt(list, values, lo, hi).Some? ==>
      var r := RawAt(list, values, lo, hi).value;
      |r| == |list| && forall i :: 0 <= i < |r| ==> r[i] == if lo <= i <= hi then Str(values[i]) else list[i]
    decreases hi + 1 - lo
  {
    if lo <= hi && lo < |list| {
      RawAtSpec(list[lo := Str(values[lo])], values, lo + 1, hi);
    }
  }

  /** The float writes succeed iff every field `lo`..`hi` converts and the
      list reaches `hi`; then exactly those positions hold the floats and
      every other position is kept. */
  lemma {:induction false} FloatsAtSpec(list: seq<Value>, values: seq<string>, lo: nat, hi: nat, c: Conversions)
    requires hi < |values|
    ensures FloatsAt(list, values, lo, hi, c).Some? <==>
      (lo > hi || hi < |list|) && forall i :: lo <= i <= hi ==> c.parseFloat(values[i]).Some?
    ensures FloatsAt(list, values, lo, hi, c).Some? ==>
      var r := FloatsAt(list, values, lo, hi, c).value;
      |r| == |list| &&
      forall i :: 0 <= i < |r| ==> r[i] == if lo <= i <= hi then Float(c.parseFloat(values[i]).value) else list[i]
    decreases hi + 1 - lo
  {
    if lo <= hi && c.parseFloat(values[lo]).Some? && lo < |list| {
      FloatsAtSpec(list[lo := Float(c.parseFloat(values[lo]).value)], values, lo + 1, hi, c);
    }
  }

  /** `_process_inverter` on the stored list: the list it stores back, or None
      when it stores nothing. Status records ("1") set the two mode strings,
      power records ("2") the eight readings from position 3. */
  function InverterMerge(list: seq<Value>, values: seq<string>, c: Conversions): Option<seq<Value>> {
    if |values| < 15 then None
    else if values[0] == "1" then RawAt(list, values, 11, 12)
    else if values[0] == "2" then FloatsAt(list, values, 3, 10, c)
    else Some(list)
  }

  /** `_process_charge_controller` on the stored list: status records ("4")
      set the charge mode string, power records ("5") four readings from position 3. */
  function ChargeControllerMerge(list: seq<Value>, values: seq<string>, c: Conversions): Option<seq<Value>> {
    if |values| < 8 then None
    else if values[0] == "4" then RawAt(list, values, 7, 7)
    else if values[0] == "5" then FloatsAt(list, values, 3, 6, c)
    else Some(list)
  }

  /** Merging a record a second time changes nothing more. */
  lemma InverterMergeIdempotent(list: seq<Value>, values: seq<string>, c: Conversions)
    requires InverterMerge(list, values, c).Some?
    ensures InverterMerge(InverterMerge(list, values, c).value, values, c) == InverterMerge(list, values, c)
  {
    var l := InverterMerge(list, values, c).value;
    if |values| >= 15 && values[0] == "1" {
      RawAtSpec(list, values, 11, 12);
      RawAtSpec(l, values, 11, 12);
      assert RawAt(l, values, 11, 12).value == l;
    } else if |values| >= 15 && values[0] == "2" {
      FloatsAtSpec(list, values, 3, 10, c);
      FloatsAtSpec(l, values, 3, 10, c);
      assert FloatsAt(l, values, 3, 10, c).value == l;
    }
  }

  /** A status record and a power record touch disjoint positions, so they can
      arrive in either order: the power record succeeds after the status record
      iff it succeeds before it, and both orders store the same list. */
  lemma InverterStatusPowerCommute(list: seq<Value>, status: seq<string>, power: seq<string>, c: Conversions)
    requires |status| >= 15 && status[0] == "1" && |power| >= 15 && power[0] == "2"
    requires |list| > 12
    ensures InverterMerge(list, status, c).Some?
    ensures var afterStatus := InverterMerge(list, status, c).value;
      && InverterMerge(afterStatus, power, c).Some? == InverterMerge(list, power, c).Some?
      && (InverterMerge(list, power, c).Some? ==>
            InverterMerge(afterStatus, power, c) == InverterMerge(InverterMerge(list, power, c).value, status, c))
  {
    RawAtSpec(list, status, 11, 12);
    var afterStatus := RawAt(list, status, 11, 12).value;
    FloatsAtSpec(list, power, 3, 10, c);
    FloatsAtSpec(afterStatus, power, 3, 10, c);
    if FloatsAt(list, power, 3, 10, c).Some? {
      var afterPower := FloatsAt(list, power, 3, 10, c).value;
      RawAtSpec(afterPower, status, 11, 12);
      assert FloatsAt(afterStatus, power, 3, 10, c).value == RawAt(afterPower, status, 11, 12).value;
    }
  }

  /** Merging a record a second time changes nothing more. */
  lemma ChargeControllerMergeIdempotent(list: seq<Value>, values: seq<string>, c: Conversions)
    requires ChargeControllerMerge(list, values, c).Some?
    ensures ChargeControllerMerge(ChargeControllerMerge(list, values, c).value, values, c) == ChargeControllerMerge(list, values, c)
  {
    var l := ChargeControllerMerge(list, values, c).value;
    if |values| >= 8 && values[0] == "4" {
      RawAtSpec(list, values, 7, 7);
      RawAtSpec(l, values, 7, 7);
      assert RawAt(l, values, 7, 7).value == l;
    } else if |values| >= 8 && values[0] == "5" {
      FloatsAtSpec(list, values, 3, 6, c);
      FloatsAtSpec(l, values, 3, 6, c);
      assert FloatsAt(l, values, 3, 6, c).value == l;
    }
  }

  /** Status ("4") and power ("5") records of a charge controller commute. */
  lemma ChargeControllerStatusPowerCommute(list: seq<Value>, status: seq<string>, power: seq<string>, c: Conversions)
    requires |status| >= 8 && status[0] == "4" && |power| >= 8 && power[0] == "5"
    requires |list| > 7
    ensures ChargeControllerMerge(list, status, c).Some?
    ensures var afterStatus := ChargeControllerMerge(list, status, c).value;
      && ChargeControllerMerge(afterStatus, power, c).Some? == ChargeControllerMerge(list, power, c).Some?
      && (ChargeControllerMerge(list, power, c).Some? ==>
            ChargeControllerMerge(afterStatus, power, c) == ChargeControllerMerge(ChargeControllerMerge(list, power, c).value, status, c))
  {
    RawAtSpec(list, status, 7, 7);
    var afterStatus := RawAt(list, status, 7, 7).value;
    FloatsAtSpec(list, power, 3, 6, c);
    FloatsAtSpec(afterStatus, power, 3, 6, c);
    if FloatsAt(list, power, 3, 6, c).Some? {
      var afterPower := FloatsAt(list, power, 3, 6, c).value;
      RawAtSpec(afterPower, status, 7, 7);
      assert FloatsAt(afterStatus, power, 3, 6, c).value == RawAt(afterPower, status, 7, 7).value;
    }
  }

  // ---------------------------------------------------------------- messages

  /** The state `handle_message` reads and writes: `device_data`, the
      `inverters` and `charge_controllers` dicts, the discovery info's
      `mac_address` (None when no discovery info is stored), whether an
      add-entities callback is set, and the MACs `setup_sensors` ran for. */
  datatype Session = Session(
    deviceData: DeviceLists,
    inverters: DeviceDicts,
    chargeControllers: DeviceDicts,
    discovery: Option<string>,
    callback: bool,
    setups: seq<string>)

  /** While the discovery info still says "default" it takes the MAC, and
      sensor setup runs, once, if a callback is set. */
  function Announce(s: Session, mac: string): Session {
    if s.discovery == Some("default") then
      s.(discovery := Some(mac), callback := false, setups := if s.callback then s.setups + [mac] else s.setups)
    else s
  }

  /** The `device_data` key a record of MAC `mac` is merged into, if any:
      the record needs two fields, an int device number and a known type. */
  function RecordKey(mac: string, fields: seq<string>, c: Conversions): Option<string> {
    if |fields| < 2 then None
    else match c.parseInt(fields[1])
      case None => None
      case Some(no) =>
        if fields[0] == "1" || fields[0] == "2" then Some(InverterKey(mac, no))
        else if fields[0] == "4" || fields[0] == "5" then Some(ChargeControllerKey(mac, no))
        else None
  }

  /** The record part of `handle_message`: dispatch on the type field. It
      changes at most the one entry keyed by the record's MAC, device kind and
      device number, and nothing without such a key. */
  function Dispatch(data: DeviceLists, mac: string, fields: seq<string>, c: Conversions): (r: DeviceLists)
    ensures RecordKey(mac, fields, c).None? ==> r == data
    ensures forall k :: Some(k) != RecordKey(mac, fields, c) ==>
      (k in r <==> k in data) && (k in data ==> r[k] == data[k])
  {
    match RecordKey(mac, fields, c)
    case None => data
    case Some(key) =>
      if fields[0] == "1" || fields[0] == "2" then Store(data, key, InverterMerge(Stored(data, key, 15), fields, c))
      else Store(data, key, ChargeControllerMerge(Stored(data, key, 10), fields, c))
  }

  /** `handle_message` on a decoded datagram. */
  function Receive(s: Session, data: string, c: Conversions): (r: Session)
    ensures r.inverters == s.inverters && r.chargeControllers == s.chargeControllers
    ensures !HasMacHeader(Strip(data)) ==> r == s
  {
    var m := Strip(data);
    if !HasMacHeader(m) then s
    else
      var mac := MacOf(m);
      var s := Announce(s, mac);
      s.(deviceData := Dispatch(s.deviceData, mac, RecordFields(m), c))
  }

  /** A sequence of datagrams, in order. */
  function ReceiveAll(s: Session, messages: seq<string>, c: Conversions): Session
    decreases |messages|
  {
    if |messages| == 0 then s else ReceiveAll(Receive(s, messages[0], c), messages[1..], c)
  }

  /** All or nothing: an inverter power record with a field that does not
      convert to float leaves `device_data` exactly as it was. */
  lemma NonNumericInverterRecordIgnored(data: DeviceLists, mac: string, fields: seq<string>, c: Conversions, i: int)
    requires |fields| >= 15 && fields[0] == "2" && 3 <= i <= 10 && c.parseFloat(fields[i]).None?
    ensures Dispatch(data, mac, fields, c) == data
  {
    if RecordKey(mac, fields, c).Some? {
      FloatsAtSpec(Stored(data, RecordKey(mac, fields, c).value, 15), fields, 3, 10, c);
    }
  }

  /** All or nothing for charge controller power records. */
  lemma NonNumericChargeControllerRecordIgnored(data: DeviceLists, mac: string, fields: seq<string>, c: Conversions, i: int)
    requires |fields| >= 8 && fields[0] == "5" && 3 <= i <= 6 && c.parseFloat(fields[i]).None?
    ensures Dispatch(data, mac, fields, c) == data
  {
    if RecordKey(mac, fields, c).Some? {
      FloatsAtSpec(Stored(data, RecordKey(mac, fields, c).value, 10), fields, 3, 6, c);
    }
  }

  /** Once the discovery info holds anything but "default", no datagram changes it. */
  lemma {:induction false} DiscoveryStays(s: Session, messages: seq<string>, c: Conversions)
    requires s.discovery != Some("default")
    ensures ReceiveAll(s, messages, c).discovery == s.discovery
    decreases |messages|
  {
    if |messages| > 0 {
      DiscoveryStays(Receive(s, messages[0], c), messages[1..], c);
    }
  }

  /** The discovery info is overwritten at most once: the first datagram with a
      MAC header sets it to that MAC, and later datagrams keep it. */
  lemma DiscoveryTakesFirstMac(s: Session, data: string, messages: seq<string>, c: Conversions)
    requires s.discovery == Some("default") && HasMacHeader(Strip(data))
    ensures ReceiveAll(Receive(s, data, c), messages, c).discovery == Some(MacOf(Strip(data)))
  {
    assert |MacOf(Strip(data))| != |"default"|;
    DiscoveryStays(Receive(s, data, c), messages, c);
  }

  /** Sensor setup runs at most once over any sequence of datagrams, and never
      without a callback. */
  lemma {:induction false} SetupAtMostOnce(s: Session, messages: seq<string>, c: Conversions)
    ensures var r := ReceiveAll(s, messages, c);
      |s.setups| <= |r.setups| <= |s.setups| + (if s.callback then 1 else 0) && r.setups[..|s.setups|] == s.setups
    decreases |messages|
  {
    if |messages| > 0 {
      var s' := Receive(s, messages[0], c);
      assert !s.callback ==> s'.setups == s.setups && !s'.callback;
      assert s'.callback ==> s'.setups == s.setups;
      assert s'.setups[..|s.setups|] == s.setups;
      SetupAtMostOnce(s', messages[1..], c);
      var r := ReceiveAll(s', messages[1..], c);
      assert r.setups[..|s.setups|] == r.setups[..|s'.setups|][..|s.setups|];
    }
  }

  // ---------------------------------------------------------------- aggregation

  /** What one device dict adds to `get_aggregated_value(key)`: the value under
      `key` where `float()` accepts it, and nothing otherwise. */
  function Contribution(fields: map<string, Value>, key: string, c: Conversions): real {
    if key in fields then
      match AsFloat(fields[key], c)
      case None => 0.0
      case Some(x) => x
    else 0.0
  }

  function ContributionOf(key: string, c: Conversions): map<string, Value> -> real {
    fields => Contribution(fields, key, c)
  }

  ghost function MacTotalOf(key: string, c: Conversions): map<int, map<string, Value>> -> real {
    devices => SumMap(devices, ContributionOf(key, c))
  }

  /** The sum over every device of every MAC. */
  ghost function RegistryTotal(dicts: DeviceDicts, key: string, c: Conversions): real {
    SumMap(dicts, MacTotalOf(key, c))
  }

  /** Some device of some MAC has `key`. */
  predicate HasKey(dicts: DeviceDicts, key: string) {
    exists mac, no :: mac in dicts && no in dicts[mac] && key in dicts[mac][no]
  }

  /** With no device holding `key` the sum is 0.0. */
  lemma NoKeyNoTotal(dicts: DeviceDicts, key: string, c: Conversions)
    ensures !HasKey(dicts, key) ==> RegistryTotal(dicts, key, c) == 0.0
  {
    if !HasKey(dicts, key) {
      forall mac | mac in dicts
        ensures MacTotalOf(key, c)(dicts[mac]) == 0.0
      {
        forall no | no in dicts[mac]
          ensures ContributionOf(key, c)(dicts[mac][no]) == 0.0
        {
          assert key !in dicts[mac][no];
        }
        SumMapZero(dicts[mac], ContributionOf(key, c));
      }
      SumMapZero(dicts, MacTotalOf(key, c));
    }
  }

  /** The inner loop of `get_aggregated_value`, over the devices of one MAC. */
  method SumDevices(devices: map<int, map<string, Value>>, key: string, c: Conversions) returns (total: real)
    ensures total == SumMap(devices, ContributionOf(key, c))
  {
    total := 0.0;
    var rest := devices;
    while |rest| > 0
      invariant forall no :: no in rest ==> no in devices && rest[no] == devices[no]
      invariant total + SumMap(rest, ContributionOf(key, c)) == SumMap(devices, ContributionOf(key, c))
      decreases |rest|
    {
      ghost var some := Pick(rest);
      var no :| no in rest;
      var fields := rest[no];
      if key in fields {
        var x := AsFloat(fields[key], c);
        if x.Some? {
          total := total + x.value;
        }
      }
      SumMapRemove(rest, no, ContributionOf(key, c));
      RemoveOne(rest, no);
      rest := rest - {no};
    }
    assert rest == map[];
  }

  /** The outer loop of `get_aggregated_value`, over the MACs of one registry. */
  method SumRegistry(dicts: DeviceDicts, key: string, c: Conversions) returns (total: real)
    ensures total == RegistryTotal(dicts, key, c)
  {
    total := 0.0;
    var macs := dicts;
    while macs.Keys != {}
      invariant forall mac :: mac in macs ==> mac in dicts && macs[mac] == dicts[mac]
      invariant total + SumMap(macs, MacTotalOf(key, c)) == RegistryTotal(dicts, key, c)
      decreases |macs|
    {
      var mac :| mac in macs.Keys;
      var subtotal := SumDevices(macs[mac], key, c);
      total := total + subtotal;
      SumMapRemove(macs, mac, MacTotalOf(key, c));
      RemoveOne(macs, mac);
      macs := macs - {mac};
    }
    assert macs == map[];
  }

  /** The inner loop of `has_aggregated_value`, over the devices of one MAC. */
  method FindInDevices(devices: map<int, map<string, Value>>, key: string) returns (found: bool)
    ensures found <==> exists no :: no in devices && key in devices[no]
  {
    var rest := devices;
    while |rest| > 0
      invariant forall no :: no in rest ==> no in devices && rest[no] == devices[no]
      invariant forall no :: no in devices && no !in rest ==> key !in devices[no]
      decreases |rest|
    {
      ghost var some := Pick(rest);
      var no :| no in rest;
      if key in rest[no] {
        return true;
      }
      RemoveOne(rest, no);
      rest := rest - {no};
    }
    return false;
  }

  /** The outer loop of `has_aggregated_value`, over the MACs of one registry. */
  method FindInRegistry(dicts: DeviceDicts, key: string) returns (found: bool)
    ensures found <==> HasKey(dicts, key)
  {
    var macs := dicts;
    while macs.Keys != {}
      invariant forall mac :: mac in macs ==> mac in dicts && macs[mac] == dicts[mac]
      invariant forall mac, no :: mac in dicts && mac !in macs && no in dicts[mac] ==> key !in dicts[mac][no]
      decreases |macs|
    {
      var mac :| mac in macs.Keys;
      found := FindInDevices(macs[mac], key);
      if found {
        return;
      }
      RemoveOne(macs, mac);
      macs := macs - {mac};
    }
    return false;
  }

  // ---------------------------------------------------------------- the class

  class OutbackMate3 {
    /** Python's `int()` and `float()` on record fields. */
    const conv: Conversions
    var deviceData: DeviceLists
    var inverters: DeviceDicts
    var chargeControllers: DeviceDicts
    var discovery: Option<string>
    var entitiesCallback: bool
    var sensorSetups: seq<string>

    function State(): Session
      reads this
    {
      Session(deviceData, inverters, chargeControllers, discovery, entitiesCallback, sensorSetups)
    }

    /** A fresh integration, with the discovery info `async_setup_entry` stores. */
    constructor(conv: Conversions, discovery: Option<string>)
      ensures this.conv == conv
      ensures State() == Session(map[], map[], map[], discovery, false, [])
    {
      this.conv := conv;
      deviceData := map[];
      inverters := map[];
      chargeControllers := map[];
      this.discovery := discovery;
      entitiesCallback := false;
      sensorSetups := [];
    }

    /** `set_add_entities_callback` */
    method SetAddEntitiesCallback()
      modifies this
      ensures State() == old(State()).(callback := true)
    {
      entitiesCallback := true;
    }

    /** `setup_sensors`, as a one-shot call: it runs only while a callback is
        set, and clears it. */
    method SetupSensors(mac: string)
      modifies this
      ensures entitiesCallback == false
      ensures sensorSetups == if old(entitiesCallback) then old(sensorSetups) + [mac] else old(sensorSetups)
      ensures deviceData == old(deviceData) && inverters == old(inverters)
      ensures chargeControllers == old(chargeControllers) && discovery == old(discovery)
    {
      if entitiesCallback {
        sensorSetups := sensorSetups + [mac];
        entitiesCallback := false;
      }
    }

    /** `handle_message`, on the datagram already decoded to text. */
    method HandleMessage(data: string)
      modifies this
      ensures State() == Receive(old(State()), data, conv)
    {
      var message := Strip(data);
      if !HasMacHeader(message) {
        return;
      }
      var mac := MacOf(message);
      if discovery == Some("default") {
        discovery := Some(mac);
        SetupSensors(mac);
      }
      assert State() == Announce(old(State()), mac);
      var fields := RecordFields(message);
      if |fields| >= 2 {
        var no := conv.parseInt(fields[1]);
        if no.None? {
          return;
        }
        if fields[0] == "1" || fields[0] == "2" {
          ProcessInverter(no.value, fields, mac);
        } else if fields[0] == "4" || fields[0] == "5" {
          ProcessChargeController(no.value, fields, mac);
        }
      }
    }

    /** `device_data[i] = float(s)` on the copy: false where the conversion
        raises ValueError or the assignment IndexError. */
    method WriteFloat(copy: array<Value>, i: nat, s: string) returns (ok: bool)
      modifies copy
      ensures ok == (conv.parseFloat(s).Some? && i < copy.Length)
      ensures ok ==> copy[..] == old(copy[..])[i := Float(conv.parseFloat(s).value)]
      ensures !ok ==> copy[..] == old(copy[..])
    {
      var x := conv.parseFloat(s);
      if x.None? || i >= copy.Length {
        return false;
      }
      copy[i] := Float(x.value);
      ok := true;
    }

    /** The eight `float()` assignments of an inverter power record, positions 3 to 10. */
    method WriteInverterPower(copy: array<Value>, values: seq<string>) returns (ok: bool)
      requires |values| >= 15
      modifies copy
      ensures ok == FloatsAt(old(copy[..]), values, 3, 10, conv).Some?
      ensures ok ==> copy[..] == FloatsAt(old(copy[..]), values, 3, 10, conv).value
    {
      ghost var before := copy[..];
      ok := WriteFloat(copy, 3, values[3]);
      if !ok { return; }
      assert FloatsAt(before, values, 3, 10, conv) == FloatsAt(copy[..], values, 4, 10, conv);
      ok := WriteFloat(copy, 4, values[4]);
      if !ok { return; }
      assert FloatsAt(before, values, 3, 10, conv) == FloatsAt(copy[..], values, 5, 10, conv);
      ok := WriteFloat(copy, 5, values[5]);
      if !ok { return; }
      assert FloatsAt(before, values, 3, 10, conv) == FloatsAt(copy[..], values, 6, 10, conv);
      ok := WriteFloat(copy, 6, values[6]);
      if !ok { return; }
      assert FloatsAt(before, values, 3, 10, conv) == FloatsAt(copy[..], values, 7, 10, conv);
      ok := WriteFloat(copy, 7, values[7]);
      if !ok { return; }
      assert FloatsAt(before, values, 3, 10, conv) == FloatsAt(copy[..], values, 8, 10, conv);
      ok := WriteFloat(copy, 8, values[8]);
      if !ok { return; }
      assert FloatsAt(before, values, 3, 10, conv) == FloatsAt(copy[..], values, 9, 10, conv);
      ok := WriteFloat(copy, 9, values[9]);
      if !ok { return; }
      assert FloatsAt(before, values, 3, 10, conv) == FloatsAt(copy[..], values, 10, 10, conv);
      ok := WriteFloat(copy, 10, values[10]);
    }

    /** `_process_inverter`: edit a copy of the stored list, store it only if
        every assignment succeeded. */
    method ProcessInverter(no: int, values: seq<string>, mac: string)
      modifies this
      ensures var key := InverterKey(mac, no);
        deviceData == Store(old(deviceData), key, InverterMerge(Stored(old(deviceData), key, 15), values, conv))
      ensures inverters == old(inverters) && chargeControllers == old(chargeControllers)
      ensures discovery == old(discovery) && entitiesCallback == old(entitiesCallback) && sensorSetups == old(sensorSetups)
    {
      var key := InverterKey(mac, no);
      var list := Stored(deviceData, key, 15);
      var copy := new Value[|list|](i requires 0 <= i < |list| => list[i]);
      assert copy[..] == list;
      if |values| >= 15 {
        if values[0] == "1" {
          if copy.Length <= 11 {
            return;
          }
          copy[11] := Str(values[11]);
          assert RawAt(list, values, 11, 12) == RawAt(copy[..], values, 12, 12);
          if copy.Length <= 12 {
            return;
          }
          copy[12] := Str(values[12]);
          assert RawAt(list, values, 11, 12) == RawAt(copy[..], values, 13, 12);
        } else if values[0] == "2" {
          var ok := WriteInverterPower(copy, values);
          if !ok { return; }
        }
        deviceData := deviceData[key := copy[..]];
      }
    }

    /** The four `float()` assignments of a charge-controller power record, positions 3 to 6. */
    method WriteChargeControllerPower(copy: array<Value>, values: seq<string>) returns (ok: bool)
      requires |values| >= 8
      modifies copy
      ensures ok == FloatsAt(old(copy[..]), values, 3, 6, conv).Some?
      ensures ok ==> copy[..] == FloatsAt(old(copy[..]), values, 3, 6, conv).value
    {
      ghost var before := copy[..];
      ok := WriteFloat(copy, 3, values[3]);
      if !ok { return; }
      assert FloatsAt(before, values, 3, 6, conv) == FloatsAt(copy[..], values, 4, 6, conv);
      ok := WriteFloat(copy, 4, values[4]);
      if !ok { return; }
      assert FloatsAt(before, values, 3, 6, conv) == FloatsAt(copy[..], values, 5, 6, conv);
      ok := WriteFloat(copy, 5, values[5]);
      if !ok { return; }
      assert FloatsAt(before, values, 3, 6, conv) == FloatsAt(copy[..], values, 6, 6, conv);
      ok := WriteFloat(copy, 6, values[6]);
    }

    /** `_process_charge_controller`: edit a copy of the stored list, store it
        only if every assignment succeeded. */
    method ProcessChargeController(no: int, values: seq<string>, mac: string)
      modifies this
      ensures var key := ChargeControllerKey(mac, no);
        deviceData == Store(old(deviceData), key, ChargeControllerMerge(Stored(old(deviceData), key, 10), values, conv))
      ensures inverters == old(inverters) && chargeControllers == old(chargeControllers)
      ensures discovery == old(discovery) && entitiesCallback == old(entitiesCallback) && sensorSetups == old(sensorSetups)
    {
      var key := ChargeControllerKey(mac, no);
      var list := Stored(deviceData, key, 10);
      var copy := new Value[|list|](i requires 0 <= i < |list| => list[i]);
      assert copy[..] == list;
      if |values| >= 8 {
        if values[0] == "4" {
          if copy.Length <= 7 {
            return;
          }
          copy[7] := Str(values[7]);
          assert RawAt(list, values, 7, 7) == RawAt(copy[..], values, 8, 7);
        } else if values[0] == "5" {
          var ok := WriteChargeControllerPower(copy, values);
          if !ok { return; }
        }
        deviceData := deviceData[key := copy[..]];
      }
    }

    /** `get_aggregated_value`: the float-convertible values of `key` summed over
        every device of both kinds; 0.0 when none contribute. */
    method GetAggregatedValue(key: string) returns (total: real)
      ensures total == RegistryTotal(inverters, key, conv) + RegistryTotal(chargeControllers, key, conv)
      ensures !HasKey(inverters, key) && !HasKey(chargeControllers, key) ==> total == 0.0
    {
      var fromInverters := SumRegistry(inverters, key, conv);
      var fromChargeControllers := SumRegistry(chargeControllers, key, conv);
      total := fromInverters + fromChargeControllers;
      NoKeyNoTotal(inverters, key, conv);
      NoKeyNoTotal(chargeControllers, key, conv);
    }

    /** `has_aggregated_value`: some device of either kind has `key`. */
    method HasAggregatedValue(key: string) returns (found: bool)
      ensures found <==> HasKey(inverters, key) || HasKey(chargeControllers, key)
    {
      found := FindInRegistry(inverters, key);
      if found {
        return;
      }
      found := FindInRegistry(chargeControllers, key);
    }
  }
}
