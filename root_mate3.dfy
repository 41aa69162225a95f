/** The device registry of the root decoder (`__init__.py`, class `OutbackMate3`):
    per-datagram slot numbering and the slot-keyed dictionaries of decoded fields. */
module RootMate3 {
  import opened Values
  import opened Text
  import opened RootDecode

  /** Slot number to the dict of fields decoded for that device. */
  type Slots<F> = map<int, map<F, Value>>

  /** The registry state: `device_counts`, `inverters` and `charge_controllers`. */
  datatype Registry = Registry(
    counts: map<int, int>,
    inverters: Slots<InverterField>,
    chargeControllers: Slots<ChargeControllerField>)

  /** The registry after one record, and whether the record was decoded without an exception. */
  datatype Outcome = Outcome(registry: Registry, ok: bool)

  const Empty := Registry(map[], map[], map[])

  /** `d.get(k, 0)` */
  function Count(counts: map<int, int>, t: int): int {
    if t in counts then counts[t] else 0
  }

  /** The dict of a slot, or an empty one when the slot is not there yet. */
  function Slot<F>(slots: Slots<F>, no: int): map<F, Value> {
    if no in slots then slots[no] else map[]
  }

  /** The slot created if missing, then given the written fields. */
  function Upsert<F>(slots: Slots<F>, no: int, fields: map<F, Value>): (r: Slots<F>)
    ensures r.Keys == slots.Keys + {no}
    ensures r[no] == Slot(slots, no) + fields
    ensures forall n :: n in slots && n != no ==> r[n] == slots[n]
  {
    slots[no := Slot(slots, no) + fields]
  }

  /** The device type of a record, `int(values[1])`; None where that raises. */
  function RecordType(device: string, c: Conversions): Option<int> {
    var values := Split(device, ',');
    if |values| < 2 then None else c.parseInt(values[1])
  }

  /** A record is decoded without an exception: its type parses, and an
      inverter or charge controller record decodes completely. */
  predicate RecordDecodes(device: string, c: Conversions) {
    match RecordType(device, c)
    case None => false
    case Some(t) =>
      if t == 6 then InverterWrites(Split(device, ','), c).complete
      else if t == 3 then ChargeControllerWrites(Split(device, ','), c).complete
      else true
  }

  /** `_process_device` on one record. */
  function RecordStep(r: Registry, device: string, c: Conversions): (o: Outcome)
    ensures o.ok <==> RecordDecodes(device, c)
    ensures RecordType(device, c).None? ==> o.registry == r
    ensures RecordType(device, c).Some? ==>
      var t := RecordType(device, c).value;
      o.registry.counts == r.counts[t := Count(r.counts, t) + 1]
    ensures RecordType(device, c) != Some(6) ==> o.registry.inverters == r.inverters
    ensures RecordType(device, c) != Some(3) ==> o.registry.chargeControllers == r.chargeControllers
  {
    var values := Split(device, ',');
    if |values| < 2 then Outcome(r, false)
    else match c.parseInt(values[1])
      case None => Outcome(r, false)
      case Some(t) =>
        var no := Count(r.counts, t) + 1;
        var r := r.(counts := r.counts[t := no]);
        if t == 6 then
          var w := InverterWrites(values, c);
          Outcome(r.(inverters := Upsert(r.inverters, no, w.fields)), w.complete)
        else if t == 3 then
          var w := ChargeControllerWrites(values, c);
          Outcome(r.(chargeControllers := Upsert(r.chargeControllers, no, w.fields)), w.complete)
        else Outcome(r, true)
  }

  /** The records of one datagram in order; the first exception ends the datagram. */
  function Feed(r: Registry, devices: seq<string>, c: Conversions): Registry
    decreases |devices|
  {
    if |devices| == 0 then r
    else
      var o := RecordStep(r, devices[0], c);
      if o.ok then Feed(o.registry, devices[1..], c) else o.registry
  }

  /** `_process_data`: reset the counters, then feed the datagram's records. */
  function ProcessDatagram(r: Registry, metrics: string, c: Conversions): Registry {
    Feed(r.(counts := map[]), DatagramRecords(metrics), c)
  }

  /** Every record of `devices` is decoded without an exception when fed from `r`. */
  predicate FeedsCleanly(r: Registry, devices: seq<string>, c: Conversions)
    decreases |devices|
  {
    |devices| == 0 ||
    (RecordStep(r, devices[0], c).ok && FeedsCleanly(RecordStep(r, devices[0], c).registry, devices[1..], c))
  }

  /** The number of records of `devices` whose type is `t`. */
  function CountType(devices: seq<string>, t: int, c: Conversions): (n: nat)
    ensures n <= |devices|
  {
    if |devices| == 0 then 0
    else CountType(devices[..|devices| - 1], t, c) + (if RecordType(devices[|devices| - 1], c) == Some(t) then 1 else 0)
  }

  /** Feeding a concatenation: the second part runs only when the first ran cleanly,
      so the records after a failing one are skipped and the ones before it stay applied. */
  lemma {:induction false} FeedAppend(r: Registry, a: seq<string>, b: seq<string>, c: Conversions)
    ensures Feed(r, a + b, c) == if FeedsCleanly(r, a, c) then Feed(Feed(r, a, c), b, c) else Feed(r, a, c)
    decreases |a|
  {
    if |a| > 0 {
      assert (a + b)[1..] == a[1..] + b;
      var o := RecordStep(r, a[0], c);
      if o.ok {
        FeedAppend(o.registry, a[1..], b, c);
      }
    } else {
      assert a + b == b;
    }
  }

  /** Feeding a record after a clean prefix is one `RecordStep`. */
  lemma FeedSnoc(r: Registry, a: seq<string>, d: string, c: Conversions)
    requires FeedsCleanly(r, a, c)
    ensures Feed(r, a + [d], c) == RecordStep(Feed(r, a, c), d, c).registry
  {
    FeedAppend(r, a, [d], c);
  }

  /** A clean run of records advances the counter of each type by the number
      of its records. */
  lemma {:induction false} FeedCounts(r: Registry, a: seq<string>, c: Conversions, t: int)
    requires FeedsCleanly(r, a, c)
    ensures Count(Feed(r, a, c).counts, t) == Count(r.counts, t) + CountType(a, t, c)
    decreases |a|
  {
    if |a| > 0 {
      var p := a[..|a| - 1];
      var d := a[|a| - 1];
      assert a == p + [d];
      FeedAppend(r, p, [d], c);
      assert FeedsCleanly(r, p, c) by {
        CleanPrefix(r, p, [d], c);
      }
      FeedCounts(r, p, c, t);
      FeedSnoc(r, p, d, c);
    }
  }

  /** A clean run splits into clean runs of its parts. */
  lemma {:induction false} CleanPrefix(r: Registry, a: seq<string>, b: seq<string>, c: Conversions)
    requires FeedsCleanly(r, a + b, c)
    ensures FeedsCleanly(r, a, c)
    ensures FeedsCleanly(Feed(r, a, c), b, c)
    decreases |a|
  {
    if |a| > 0 {
      assert (a + b)[1..] == a[1..] + b;
      CleanPrefix(RecordStep(r, a[0], c).registry, a[1..], b, c);
    } else {
      assert a + b == b;
    }
  }

  /** Slot numbering of `_process_data` for inverters: when the records before
      the i-th of a datagram decoded cleanly and the i-th is an inverter record
      (type 6), it is written to the slot one past the number of earlier
      inverter records in the same datagram, whatever the registry held before. */
  lemma InverterSlotNumbering(r: Registry, metrics: string, i: nat, c: Conversions)
    requires i < |DatagramRecords(metrics)|
    requires FeedsCleanly(r.(counts := map[]), DatagramRecords(metrics)[..i], c)
    requires RecordType(DatagramRecords(metrics)[i], c) == Some(6)
    ensures var ds := DatagramRecords(metrics);
      Feed(r.(counts := map[]), ds[..i + 1], c).inverters ==
        Upsert(Feed(r.(counts := map[]), ds[..i], c).inverters, CountType(ds[..i], 6, c) + 1,
               InverterWrites(Split(ds[i], ','), c).fields)
  {
    var ds := DatagramRecords(metrics);
    var r0 := r.(counts := map[]);
    var q := Feed(r0, ds[..i], c);
    var next := RecordStep(q, ds[i], c).registry;
    CleanRun(r0, ds, i, c, 6);
    StepSlot(q, ds[i], c);
    assert Feed(r0, ds[..i + 1], c).inverters == next.inverters;
    assert next.inverters == Upsert(q.inverters, CountType(ds[..i], 6, c) + 1, InverterWrites(Split(ds[i], ','), c).fields);
  }

  /** Slot numbering of `_process_data` for charge controllers (type 3), as for inverters. */
  lemma ChargeControllerSlotNumbering(r: Registry, metrics: string, i: nat, c: Conversions)
    requires i < |DatagramRecords(metrics)|
    requires FeedsCleanly(r.(counts := map[]), DatagramRecords(metrics)[..i], c)
    requires RecordType(DatagramRecords(metrics)[i], c) == Some(3)
    ensures var ds := DatagramRecords(metrics);
      Feed(r.(counts := map[]), ds[..i + 1], c).chargeControllers ==
        Upsert(Feed(r.(counts := map[]), ds[..i], c).chargeControllers, CountType(ds[..i], 3, c) + 1,
               ChargeControllerWrites(Split(ds[i], ','), c).fields)
  {
    var ds := DatagramRecords(metrics);
    var r0 := r.(counts := map[]);
    var q := Feed(r0, ds[..i], c);
    var next := RecordStep(q, ds[i], c).registry;
    CleanRun(r0, ds, i, c, 3);
    StepSlot(q, ds[i], c);
    assert Feed(r0, ds[..i + 1], c).chargeControllers == next.chargeControllers;
    assert next.chargeControllers == Upsert(q.chargeControllers, CountType(ds[..i], 3, c) + 1, ChargeControllerWrites(Split(ds[i], ','), c).fields);
  }

  /** After a clean run from reset counters, the next record is one `RecordStep`
      from a registry whose counter for `t` is the number of earlier records of type `t`. */
  lemma CleanRun(r0: Registry, ds: seq<string>, i: nat, c: Conversions, t: int)
    requires r0.counts == map[] && i < |ds|
    requires FeedsCleanly(r0, ds[..i], c)
    ensures Feed(r0, ds[..i + 1], c) == RecordStep(Feed(r0, ds[..i], c), ds[i], c).registry
    ensures Count(Feed(r0, ds[..i], c).counts, t) == CountType(ds[..i], t, c)
  {
    assert ds[..i + 1] == ds[..i] + [ds[i]];
    FeedSnoc(r0, ds[..i], ds[i], c);
    FeedCounts(r0, ds[..i], c, t);
  }

  /** A record of type 6 or 3 is written to the slot one past its type's counter. */
  lemma StepSlot(q: Registry, d: string, c: Conversions)
    ensures RecordType(d, c) == Some(6) ==>
      RecordStep(q, d, c).registry.inverters == Upsert(q.inverters, Count(q.counts, 6) + 1, InverterWrites(Split(d, ','), c).fields)
    ensures RecordType(d, c) == Some(3) ==>
      RecordStep(q, d, c).registry.chargeControllers == Upsert(q.chargeControllers, Count(q.counts, 3) + 1, ChargeControllerWrites(Split(d, ','), c).fields)
  {
    var values := Split(d, ',');
    if |values| >= 2 && c.parseInt(values[1]).Some? {
      var t := c.parseInt(values[1]).value;
      var no := Count(q.counts, t) + 1;
      var r := q.(counts := q.counts[t := no]);
      if t == 6 {
        var w := InverterWrites(values, c);
        assert RecordStep(q, d, c) == Outcome(r.(inverters := Upsert(r.inverters, no, w.fields)), w.complete);
      } else if t == 3 {
        var w := ChargeControllerWrites(values, c);
        assert RecordStep(q, d, c) == Outcome(r.(chargeControllers := Upsert(r.chargeControllers, no, w.fields)), w.complete);
      }
    }
  }

  /** No record ever removes a slot. */
  lemma {:induction false} FeedKeepsSlots(r: Registry, devices: seq<string>, c: Conversions)
    ensures r.inverters.Keys <= Feed(r, devices, c).inverters.Keys
    ensures r.chargeControllers.Keys <= Feed(r, devices, c).chargeControllers.Keys
    decreases |devices|
  {
    if |devices| > 0 {
      var o := RecordStep(r, devices[0], c);
      if o.ok {
        FeedKeepsSlots(o.registry, devices[1..], c);
      }
    }
  }

  /** Slots `b` with the fields of `p` written over them, slot by slot. */
  function Merge<F>(b: Slots<F>, p: Slots<F>): (r: Slots<F>)
    ensures r.Keys == b.Keys + p.Keys
  {
    map n | n in b.Keys + p.Keys :: Slot(b, n) + Slot(p, n)
  }

  /** The registry `base` with the effect of a datagram, as fed from the empty
      registry, applied over it. */
  function Overlay(base: Registry, p: Registry): Registry {
    Registry(p.counts, Merge(base.inverters, p.inverters), Merge(base.chargeControllers, p.chargeControllers))
  }

  lemma UpsertMerge<F>(b: Slots<F>, p: Slots<F>, no: int, fields: map<F, Value>)
    ensures Upsert(Merge(b, p), no, fields) == Merge(b, Upsert(p, no, fields))
  {
    var left := Upsert(Merge(b, p), no, fields);
    var right := Merge(b, Upsert(p, no, fields));
    assert left.Keys == right.Keys;
    forall n | n in left.Keys
      ensures left[n] == right[n]
    {
      UpsertMergeAt(b, p, no, fields, n);
    }
  }

  lemma UpsertMergeAt<F>(b: Slots<F>, p: Slots<F>, no: int, fields: map<F, Value>, n: int)
    requires n in b.Keys + p.Keys + {no}
    ensures Upsert(Merge(b, p), no, fields)[n] == Merge(b, Upsert(p, no, fields))[n]
  {
    if n == no {
      assert Slot(Merge(b, p), no) == Slot(b, no) + Slot(p, no);
      assert Slot(Upsert(p, no, fields), no) == Slot(p, no) + fields;
      UnionAssociates(Slot(b, no), Slot(p, no), fields);
    } else {
      assert Slot(Upsert(p, no, fields), n) == Slot(p, n);
    }
  }

  lemma UnionAssociates<F>(x: map<F, Value>, y: map<F, Value>, z: map<F, Value>)
    ensures (x + y) + z == x + (y + z)
  {
  }

  lemma StepOverlay(base: Registry, p: Registry, d: string, c: Conversions)
    ensures RecordStep(Overlay(base, p), d, c) == Outcome(Overlay(base, RecordStep(p, d, c).registry), RecordStep(p, d, c).ok)
  {
    var values := Split(d, ',');
    if |values| >= 2 && c.parseInt(values[1]).Some? {
      StepOverlayTyped(base, p, d, c, c.parseInt(values[1]).value);
    } else {
      var o := Overlay(base, p);
      assert RecordStep(p, d, c) == Outcome(p, false);
      assert RecordStep(o, d, c) == Outcome(o, false);
    }
  }

  /** `StepOverlay` for a record whose type parses as `t`. */
  lemma StepOverlayTyped(base: Registry, p: Registry, d: string, c: Conversions, t: int)
    requires var values := Split(d, ','); |values| >= 2 && c.parseInt(values[1]) == Some(t)
    ensures RecordStep(Overlay(base, p), d, c) == Outcome(Overlay(base, RecordStep(p, d, c).registry), RecordStep(p, d, c).ok)
  {
    var values := Split(d, ',');
    var o := Overlay(base, p);
    var no := Count(p.counts, t) + 1;
    var q := p.(counts := p.counts[t := no]);
    var oq := Overlay(base, q);
    assert Count(o.counts, t) + 1 == no;
    assert o.(counts := o.counts[t := no]) == oq;
    if t == 6 {
      var w := InverterWrites(values, c);
      assert RecordStep(p, d, c) == Outcome(q.(inverters := Upsert(q.inverters, no, w.fields)), w.complete);
      assert RecordStep(o, d, c) == Outcome(oq.(inverters := Upsert(oq.inverters, no, w.fields)), w.complete);
      InverterStepOverlay(base, q, no, w);
    } else if t == 3 {
      var w := ChargeControllerWrites(values, c);
      assert RecordStep(p, d, c) == Outcome(q.(chargeControllers := Upsert(q.chargeControllers, no, w.fields)), w.complete);
      assert RecordStep(o, d, c) == Outcome(oq.(chargeControllers := Upsert(oq.chargeControllers, no, w.fields)), w.complete);
      ChargeControllerStepOverlay(base, q, no, w);
    } else {
      assert RecordStep(p, d, c) == Outcome(q, true);
      assert RecordStep(o, d, c) == Outcome(oq, true);
    }
  }

  lemma InverterStepOverlay(base: Registry, q: Registry, no: int, w: Writes<InverterField>)
    ensures var o := Overlay(base, q);
      o.(inverters := Upsert(o.inverters, no, w.fields)) == Overlay(base, q.(inverters := Upsert(q.inverters, no, w.fields)))
  {
    UpsertMerge(base.inverters, q.inverters, no, w.fields);
  }

  lemma ChargeControllerStepOverlay(base: Registry, q: Registry, no: int, w: Writes<ChargeControllerField>)
    ensures var o := Overlay(base, q);
      o.(chargeControllers := Upsert(o.chargeControllers, no, w.fields)) ==
        Overlay(base, q.(chargeControllers := Upsert(q.chargeControllers, no, w.fields)))
  {
    UpsertMerge(base.chargeControllers, q.chargeControllers, no, w.fields);
  }

  lemma {:induction false} FeedOverlay(base: Registry, p: Registry, devices: seq<string>, c: Conversions)
    ensures Feed(Overlay(base, p), devices, c) == Overlay(base, Feed(p, devices, c))
    decreases |devices|
  {
    if |devices| > 0 {
      StepOverlay(base, p, devices[0], c);
      var o := RecordStep(p, devices[0], c);
      if o.ok {
        FeedOverlay(base, o.registry, devices[1..], c);
      }
    }
  }

  /** Because the counters reset, a datagram's effect does not depend on the
      registry it meets: it is the effect on the empty registry written over
      the existing slots. */
  lemma DatagramOverlay(r: Registry, metrics: string, c: Conversions)
    ensures ProcessDatagram(r, metrics, c) == Overlay(r, ProcessDatagram(Empty, metrics, c))
  {
    MergeEmpty(r.inverters);
    MergeEmpty(r.chargeControllers);
    assert r.(counts := map[]) == Overlay(r, Empty);
    FeedOverlay(r, Empty, DatagramRecords(metrics), c);
  }

  /** Feeding the same datagram twice leaves the same registry as feeding it once. */
  lemma DatagramIdempotent(r: Registry, metrics: string, c: Conversions)
    ensures ProcessDatagram(ProcessDatagram(r, metrics, c), metrics, c) == ProcessDatagram(r, metrics, c)
  {
    var p := ProcessDatagram(Empty, metrics, c);
    DatagramOverlay(r, metrics, c);
    DatagramOverlay(ProcessDatagram(r, metrics, c), metrics, c);
    MergeIdempotent(r.inverters, p.inverters);
    MergeIdempotent(r.chargeControllers, p.chargeControllers);
  }

  lemma MergeEmpty<F>(b: Slots<F>)
    ensures Merge(b, map[]) == b
  {
    forall n | n in b
      ensures Slot(b, n) + Slot(map[], n) == b[n]
    {
      assert b[n] + map[] == b[n];
    }
  }

  lemma MergeIdempotent<F>(b: Slots<F>, p: Slots<F>)
    ensures Merge(Merge(b, p), p) == Merge(b, p)
  {
    forall n | n in b.Keys + p.Keys
      ensures Slot(Merge(b, p), n) + Slot(p, n) == Slot(b, n) + Slot(p, n)
    {
    }
  }

  class OutbackMate3 {
    /** Python's `int()` and `float()` on record fields. */
    const conv: Conversions
    var deviceCounts: map<int, int>
    var inverters: Slots<InverterField>
    var chargeControllers: Slots<ChargeControllerField>

    function State(): Registry
      reads this
    {
      Registry(deviceCounts, inverters, chargeControllers)
    }

    constructor(conv: Conversions)
      ensures this.conv == conv
      ensures State() == Empty
    {
      this.conv := conv;
      deviceCounts := map[];
      inverters := map[];
      chargeControllers := map[];
    }

    /** `_process_data`: split the datagram, keep the records starting with '0',
        reset the counters and process the records until one raises. */
    method ProcessData(metrics: string)
      modifies this
      ensures State() == ProcessDatagram(old(State()), metrics, conv)
    {
      var pieces := Tokenize(metrics).pieces;
      var devices := Records(pieces[1..]);
      deviceCounts := map[];
      var i := 0;
      while i < |devices|
        invariant 0 <= i <= |devices|
        invariant Feed(State(), devices[i..], conv) == ProcessDatagram(old(State()), metrics, conv)
      {
        assert devices[i..][1..] == devices[i + 1..];
        var ok := ProcessDevice(devices[i]);
        if !ok {
          return;
        }
        i := i + 1;
      }
    }

    /** `_process_device`: parse the type, advance its counter and dispatch. */
    method ProcessDevice(device: string) returns (ok: bool)
      modifies this
      ensures State() == RecordStep(old(State()), device, conv).registry
      ensures ok == RecordStep(old(State()), device, conv).ok
    {
      var values := Split(device, ',');
      if |values| < 2 {
        return false;
      }
      var deviceType := conv.parseInt(values[1]);
      if deviceType.None? {
        return false;
      }
      var t := deviceType.value;
      var no := Count(deviceCounts, t) + 1;
      deviceCounts := deviceCounts[t := no];
      if t == 6 {
        ok := ProcessInverter(no, values);
      } else if t == 3 {
        ok := ProcessChargeController(no, values);
      } else {
        ok := true;
      }
    }

    /** `inv[key] = x` on inverter slot `no`, where None stands for an exception
        raised while computing `x`. The ghost `w` tracks the writes made so far
        into the slot, which held `Slot(base, no)` before them. */
    method SetInverterField(no: int, key: InverterField, x: Option<Value>, ghost base: Slots<InverterField>,
                            ghost w: Writes<InverterField>)
      returns (ok: bool, ghost w': Writes<InverterField>)
      requires w.complete && inverters == Upsert(base, no, w.fields)
      modifies this
      ensures ok == x.Some?
      ensures w' == Put(w, key, x) && inverters == Upsert(base, no, w'.fields)
      ensures deviceCounts == old(deviceCounts) && chargeControllers == old(chargeControllers)
    {
      w' := Put(w, key, x);
      if x.None? {
        return false, w';
      }
      assert Slot(base, no) + w'.fields == (Slot(base, no) + w.fields)[key := x.value];
      inverters := inverters[no := inverters[no][key := x.value]];
      ok := true;
    }

    /** `cc[key] = x` on charge controller slot `no`, tracked like `SetInverterField`. */
    method SetChargeControllerField(no: int, key: ChargeControllerField, x: Option<Value>, ghost base: Slots<ChargeControllerField>,
                                    ghost w: Writes<ChargeControllerField>)
      returns (ok: bool, ghost w': Writes<ChargeControllerField>)
      requires w.complete && chargeControllers == Upsert(base, no, w.fields)
      modifies this
      ensures ok == x.Some?
      ensures w' == Put(w, key, x) && chargeControllers == Upsert(base, no, w'.fields)
      ensures deviceCounts == old(deviceCounts) && inverters == old(inverters)
    {
      w' := Put(w, key, x);
      if x.None? {
        return false, w';
      }
      assert Slot(base, no) + w'.fields == (Slot(base, no) + w.fields)[key := x.value];
      chargeControllers := chargeControllers[no := chargeControllers[no][key := x.value]];
      ok := true;
    }

    /** The six writes of one leg of `_process_inverter`: the L2 block reads
        the offsets of the L1 block plus 7. */
    method WriteLeg(no: int, values: seq<string>, leg: Leg, acFactor: real, ghost base: Slots<InverterField>,
                    ghost w: Writes<InverterField>)
      returns (ok: bool, ghost w': Writes<InverterField>)
      requires |values| > 20
      requires w.complete && inverters == Upsert(base, no, w.fields)
      modifies this
      ensures w' == LegWrites(w, values, conv, leg, acFactor) && ok == w'.complete
      ensures inverters == Upsert(base, no, w'.fields)
      ensures deviceCounts == old(deviceCounts) && chargeControllers == old(chargeControllers)
    {
      var d := if leg == L1 then 0 else 7;
      ok, w' := SetInverterField(no, LegField(leg, InverterCurrent), FloatField(values[2 + d], 1.0, conv), base, w);
      if !ok { return; }
      ok, w' := SetInverterField(no, LegField(leg, ChargerCurrent), FloatField(values[3 + d], 1.0, conv), base, w');
      if !ok { return; }
      ok, w' := SetInverterField(no, LegField(leg, BuyCurrent), FloatField(values[4 + d], 1.0, conv), base, w');
      if !ok { return; }
      ok, w' := SetInverterField(no, LegField(leg, SellCurrent), FloatField(values[5 + d], 1.0, conv), base, w');
      if !ok { return; }
      ok, w' := SetInverterField(no, LegField(leg, AcInputVoltage), FloatField(values[6 + d], acFactor, conv), base, w');
      if !ok { return; }
      ok, w' := SetInverterField(no, LegField(leg, AcOutputVoltage), FloatField(values[8 + d], acFactor, conv), base, w');
    }

    /** `_process_inverter`: create the slot if missing, then write its fields one by one. */
    method ProcessInverter(no: int, values: seq<string>) returns (ok: bool)
      modifies this
      ensures inverters == Upsert(old(inverters), no, InverterWrites(values, conv).fields)
      ensures ok == InverterWrites(values, conv).complete
      ensures deviceCounts == old(deviceCounts) && chargeControllers == old(chargeControllers)
    {
      if no !in inverters {
        inverters := inverters[no := map[]];
      }
      ghost var w: Writes<InverterField> := Writes(map[], true);
      assert Slot(old(inverters), no) + w.fields == inverters[no];
      assert inverters == Upsert(old(inverters), no, w.fields);
      if |values| <= 20 {
        return false;
      }
      var misc := conv.parseInt(values[20]);
      if misc.None? {
        return false;
      }
      var acFactor := if Bit(misc.value, 7) then 2.0 else 2.0;
      ok, w := SetInverterField(no, AcSource, Some(Str(AcSourceLabel(misc.value))), old(inverters), w);
      ok, w := WriteLeg(no, values, L1, acFactor, old(inverters), w);
      if ok {
        ok, w := WriteLeg(no, values, L2, acFactor, old(inverters), w);
      } else {
        WritesAfterException(w, values, conv, acFactor);
      }
      if ok {
        ok, w := WriteStatus(no, values, old(inverters), w);
      } else {
        WritesAfterException(w, values, conv, acFactor);
      }
      InverterWritesStaged(values, conv);
    }

    /** The writes after the legs: output power, then the two mode labels. */
    method WriteStatus(no: int, values: seq<string>, ghost base: Slots<InverterField>, ghost w: Writes<InverterField>)
      returns (ok: bool, ghost w': Writes<InverterField>)
      requires |values| > 20
      requires w.complete && inverters == Upsert(base, no, w.fields)
      modifies this
      ensures w' == StatusWrites(w, values, conv) && ok == w'.complete
      ensures inverters == Upsert(base, no, w'.fields)
      ensures deviceCounts == old(deviceCounts) && chargeControllers == old(chargeControllers)
    {
      ok, w' := SetInverterField(no, OutputPower, OutputPowerField(values, conv), base, w);
      if !ok { return; }
      ok, w' := SetInverterField(no, InverterMode, LabelField(values[16], InverterModes, conv), base, w');
      if !ok { return; }
      ok, w' := SetInverterField(no, AcMode, LabelField(values[18], AcModes, conv), base, w');
    }

    /** `_process_charge_controller`: create the slot if missing, parse both PV
        readings, then write the fields one by one. */
    method ProcessChargeController(no: int, values: seq<string>) returns (ok: bool)
      modifies this
      ensures chargeControllers == Upsert(old(chargeControllers), no, ChargeControllerWrites(values, conv).fields)
      ensures ok == ChargeControllerWrites(values, conv).complete
      ensures deviceCounts == old(deviceCounts) && inverters == old(inverters)
    {
      if no !in chargeControllers {
        chargeControllers := chargeControllers[no := map[]];
      }
      ghost var w: Writes<ChargeControllerField> := Writes(map[], true);
      assert Slot(old(chargeControllers), no) + w.fields == chargeControllers[no];
      assert chargeControllers == Upsert(old(chargeControllers), no, w.fields);
      if |values| <= 4 {
        return false;
      }
      var pvCurrent := conv.parseInt(values[4]);
      if pvCurrent.None? || |values| <= 5 {
        return false;
      }
      var pvVoltage := conv.parseInt(values[5]);
      if pvVoltage.None? {
        return false;
      }
      ok, w := SetChargeControllerField(no, PvCurrent, Some(Int(pvCurrent.value)), old(chargeControllers), w);
      ok, w := SetChargeControllerField(no, PvVoltage, Some(Int(pvVoltage.value)), old(chargeControllers), w);
      ok, w := SetChargeControllerField(no, PvPower, Some(Int(pvVoltage.value * pvCurrent.value)), old(chargeControllers), w);
      ok, w := SetChargeControllerField(no, OutputCurrent, OutputCurrentField(values, conv), old(chargeControllers), w);
      if !ok { return; }
      ok, w := SetChargeControllerField(no, ChargerMode, if |values| > 10 then LabelField(values[10], ChargerModes, conv) else None, old(chargeControllers), w);
      if !ok { return; }
      ok, w := SetChargeControllerField(no, BatteryVoltage, if |values| > 11 then TenthsField(values[11], conv) else None, old(chargeControllers), w);
    }
  }
}
