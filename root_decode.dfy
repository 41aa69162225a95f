/** The record layer of the root decoder (`__init__.py`): how a datagram is
    cut into records, which records are kept, and which fields a type-6
    (inverter) or type-3 (charge controller) record writes into its slot. */
module RootDecode {
  import opened Values
  import opened Text

  // ---------------------------------------------------------------------
  // Cutting a datagram: re.split(']<|><|>', metrics)
  // ---------------------------------------------------------------------

  /** The pieces `re.split` returns, with the delimiters it cut out between them. */
  datatype Frame = Frame(pieces: seq<string>, delimiters: seq<string>)

  /** The three alternatives of the pattern `]<|><|>`. */
  predicate IsDelimiter(d: string) {
    d == "]<" || d == "><" || d == ">"
  }

  /** No delimiter starts inside `p`: no `>` at all, and no `]` directly before a `<`. */
  predicate DelimiterFree(p: string) {
    forall i :: 0 <= i < |p| ==> p[i] != '>' && (p[i] == ']' ==> i + 1 == |p| || p[i + 1] != '<')
  }

  predicate StartsWith(s: string, ch: char) {
    |s| > 0 && s[0] == ch
  }

  /** The text the pieces and the delimiters make when put back in turn. */
  function Interleave(pieces: seq<string>, delimiters: seq<string>): string
    requires |pieces| == |delimiters| + 1
    decreases |delimiters|
  {
    if |delimiters| == 0 then pieces[0]
    else pieces[0] + delimiters[0] + Interleave(pieces[1..], delimiters[1..])
  }

  /** `f` is a split of `s` as the leftmost-first regular expression search makes it:
      the pieces and delimiters rebuild `s`, no piece hides a delimiter, and a `>`
      is cut alone only where the `><` alternative does not match. */
  ghost predicate IsSplitOf(s: string, f: Frame) {
    && |f.pieces| == |f.delimiters| + 1
    && Interleave(f.pieces, f.delimiters) == s
    && (forall i :: 0 <= i < |f.pieces| ==> DelimiterFree(f.pieces[i]))
    && (forall i :: 0 <= i < |f.delimiters| ==> IsDelimiter(f.delimiters[i]))
    && (forall i :: 0 <= i < |f.delimiters| && f.delimiters[i] == ">" ==> !StartsWith(f.pieces[i + 1], '<'))
  }

  function Cut(d: string, f: Frame): (g: Frame)
    requires |f.pieces| == |f.delimiters| + 1
    ensures |g.pieces| == |g.delimiters| + 1
  {
    Frame([""] + f.pieces, [d] + f.delimiters)
  }

  function Extend(ch: char, f: Frame): (g: Frame)
    requires |f.pieces| == |f.delimiters| + 1
    ensures |g.pieces| == |g.delimiters| + 1
  {
    Frame([[ch] + f.pieces[0]] + f.pieces[1..], f.delimiters)
  }

  /** `re.split(']<|><|>', s)`, scanning left to right and trying the
      alternatives in the order the pattern lists them. */
  function Tokenize(s: string): (f: Frame)
    ensures |f.pieces| == |f.delimiters| + 1
    decreases |s|
  {
    if |s| == 0 then Frame([""], [])
    else if |s| >= 2 && s[0] == ']' && s[1] == '<' then Cut("]<", Tokenize(s[2..]))
    else if |s| >= 2 && s[0] == '>' && s[1] == '<' then Cut("><", Tokenize(s[2..]))
    else if s[0] == '>' then Cut(">", Tokenize(s[1..]))
    else Extend(s[0], Tokenize(s[1..]))
  }

  /** What `Tokenize` computes is a split of `s` in the sense of `IsSplitOf`,
      and its first piece is a prefix of `s`. */
  lemma {:induction false} TokenizeSplits(s: string)
    ensures IsSplitOf(s, Tokenize(s))
    ensures |Tokenize(s).pieces[0]| <= |s| && Tokenize(s).pieces[0] == s[..|Tokenize(s).pieces[0]|]
    decreases |s|
  {
    if |s| == 0 {
    } else if |s| >= 2 && s[0] == ']' && s[1] == '<' {
      TokenizeSplits(s[2..]);
      CutSplit(s, 2, Tokenize(s[2..]));
    } else if |s| >= 2 && s[0] == '>' && s[1] == '<' {
      TokenizeSplits(s[2..]);
      CutSplit(s, 2, Tokenize(s[2..]));
    } else if s[0] == '>' {
      TokenizeSplits(s[1..]);
      CutSplit(s, 1, Tokenize(s[1..]));
    } else {
      TokenizeSplits(s[1..]);
      ExtendSplit(s, Tokenize(s[1..]));
    }
  }

  lemma CutSplit(s: string, n: nat, f: Frame)
    requires 1 <= n <= |s| && IsDelimiter(s[..n])
    requires n == 1 ==> |s| < 2 || s[1] != '<'
    requires IsSplitOf(s[n..], f)
    requires f.pieces[0] == s[n..][..|f.pieces[0]|]
    ensures IsSplitOf(s, Cut(s[..n], f))
  {
    var g := Cut(s[..n], f);
    assert g.pieces[1..] == f.pieces && g.delimiters[1..] == f.delimiters;
    assert s == "" + s[..n] + s[n..];
    assert forall i :: 1 <= i < |g.pieces| ==> g.pieces[i] == f.pieces[i - 1];
    assert forall i :: 1 <= i < |g.delimiters| ==> g.delimiters[i] == f.delimiters[i - 1];
  }

  lemma ExtendSplit(s: string, f: Frame)
    requires |s| >= 1 && s[0] != '>'
    requires s[0] == ']' && |s| >= 2 ==> s[1] != '<'
    requires IsSplitOf(s[1..], f)
    requires f.pieces[0] == s[1..][..|f.pieces[0]|]
    ensures IsSplitOf(s, Extend(s[0], f))
    ensures Extend(s[0], f).pieces[0] == s[..|Extend(s[0], f).pieces[0]|]
  {
    var g := Extend(s[0], f);
    InterleaveExtend(s[0], f.pieces, f.delimiters);
    assert s == [s[0]] + s[1..];
    var p := g.pieces[0];
    forall i | 0 <= i < |p|
      ensures p[i] != '>' && (p[i] == ']' ==> i + 1 == |p| || p[i + 1] != '<')
    {
      if i > 0 {
        assert p[i] == f.pieces[0][i - 1];
      }
    }
    assert forall i :: 1 <= i < |g.pieces| ==> g.pieces[i] == f.pieces[i];
  }

  lemma InterleaveExtend(ch: char, pieces: seq<string>, delimiters: seq<string>)
    requires |pieces| == |delimiters| + 1
    ensures Interleave([[ch] + pieces[0]] + pieces[1..], delimiters) == [ch] + Interleave(pieces, delimiters)
  {
    var q := [[ch] + pieces[0]] + pieces[1..];
    if |delimiters| > 0 {
      assert q[1..] == pieces[1..];
    }
  }

  /** The split is unique: every frame with the properties of a leftmost-first
      split of `s` is the one `Tokenize` computes. */
  lemma {:induction false} SplitUnique(s: string, f: Frame)
    requires IsSplitOf(s, f)
    ensures f == Tokenize(s)
    decreases |s|
  {
    if |f.pieces[0]| > 0 {
      var g := Frame([f.pieces[0][1..]] + f.pieces[1..], f.delimiters);
      DropCharSplit(s, f, g);
      SplitUnique(s[1..], g);
      DropCharStep(s, f, g);
    } else if |f.delimiters| > 0 {
      var g := Frame(f.pieces[1..], f.delimiters[1..]);
      var d := f.delimiters[0];
      DropDelimiterSplit(s, f, g);
      SplitUnique(s[|d|..], g);
      DropDelimiterStep(s, f, g);
    }
  }

  /** Taking the first character off a non-empty first piece leaves a split of the rest. */
  lemma DropCharSplit(s: string, f: Frame, g: Frame)
    requires IsSplitOf(s, f) && |f.pieces[0]| > 0
    requires g == Frame([f.pieces[0][1..]] + f.pieces[1..], f.delimiters)
    ensures |s| > 0 && s[0] == f.pieces[0][0]
    ensures IsSplitOf(s[1..], g)
  {
    var p := f.pieces[0];
    assert g.pieces[1..] == f.pieces[1..];
    assert forall i :: 1 <= i < |g.pieces| ==> g.pieces[i] == f.pieces[i];
    if |f.delimiters| > 0 {
      var rest := Interleave(f.pieces[1..], f.delimiters[1..]);
      assert s == p + f.delimiters[0] + rest;
      assert s[1..] == p[1..] + f.delimiters[0] + rest;
    }
  }

  lemma DropCharStep(s: string, f: Frame, g: Frame)
    requires IsSplitOf(s, f) && |f.pieces[0]| > 0
    requires g == Frame([f.pieces[0][1..]] + f.pieces[1..], f.delimiters)
    requires |s| > 0 && s[0] == f.pieces[0][0]
    requires g == Tokenize(s[1..])
    ensures f == Tokenize(s)
  {
    var p := f.pieces[0];
    assert [p[0]] + p[1..] == p;
    assert [p] + f.pieces[1..] == f.pieces;
    assert f == Extend(p[0], g);
    if |p| > 1 {
      assert s[1] == p[1] by {
        if |f.delimiters| > 0 {
          assert s == p + f.delimiters[0] + Interleave(f.pieces[1..], f.delimiters[1..]);
        }
      }
    } else if |f.delimiters| > 0 {
      var d := f.delimiters[0];
      assert s == p + d + Interleave(f.pieces[1..], f.delimiters[1..]);
      assert s[1] == d[0];
    }
  }

  /** Taking an empty first piece and its delimiter off leaves a split of the rest. */
  lemma DropDelimiterSplit(s: string, f: Frame, g: Frame)
    requires IsSplitOf(s, f) && |f.pieces[0]| == 0 && |f.delimiters| > 0
    requires g == Frame(f.pieces[1..], f.delimiters[1..])
    ensures |f.delimiters[0]| <= |s| && s[..|f.delimiters[0]|] == f.delimiters[0]
    ensures IsSplitOf(s[|f.delimiters[0]|..], g)
  {
    var d := f.delimiters[0];
    var rest := Interleave(f.pieces[1..], f.delimiters[1..]);
    assert s == f.pieces[0] + d + rest;
    assert s == d + rest;
    assert s[|d|..] == rest;
    assert forall i :: 0 <= i < |g.pieces| ==> g.pieces[i] == f.pieces[i + 1];
  }

  lemma DropDelimiterStep(s: string, f: Frame, g: Frame)
    requires IsSplitOf(s, f) && |f.pieces[0]| == 0 && |f.delimiters| > 0
    requires g == Frame(f.pieces[1..], f.delimiters[1..])
    requires |f.delimiters[0]| <= |s| && s[..|f.delimiters[0]|] == f.delimiters[0]
    requires g == Tokenize(s[|f.delimiters[0]|..])
    ensures f == Tokenize(s)
  {
    var d := f.delimiters[0];
    FrameCut(f);
    assert IsDelimiter(d);
    if d == ">" {
      NoLessAfterGreater(s, f);
    }
    TokenizeCut(s, d, f, g);
  }

  /** A frame whose first piece is empty is its first delimiter cut off the rest. */
  lemma FrameCut(f: Frame)
    requires |f.pieces| == |f.delimiters| + 1 && |f.pieces[0]| == 0 && |f.delimiters| > 0
    ensures f == Cut(f.delimiters[0], Frame(f.pieces[1..], f.delimiters[1..]))
  {
    assert [""] + f.pieces[1..] == f.pieces;
    assert [f.delimiters[0]] + f.delimiters[1..] == f.delimiters;
  }

  /** A `>` cut on its own is never followed by `<`. */
  lemma NoLessAfterGreater(s: string, f: Frame)
    requires IsSplitOf(s, f) && |f.pieces[0]| == 0 && |f.delimiters| > 0 && f.delimiters[0] == ">"
    ensures |s| < 2 || s[1] != '<'
  {
    var rest := Interleave(f.pieces[1..], f.delimiters[1..]);
    assert s == f.pieces[0] + ">" + rest;
    if |rest| > 0 {
      assert s[1] == rest[0];
      var g := Frame(f.pieces[1..], f.delimiters[1..]);
      assert forall i :: 0 <= i < |g.pieces| ==> g.pieces[i] == f.pieces[i + 1];
      assert IsSplitOf(rest, g);
      SplitHead(rest, g);
    }
  }

  /** Where `s` starts with a delimiter, Tokenize cuts it off. */
  lemma TokenizeCut(s: string, d: string, f: Frame, g: Frame)
    requires IsDelimiter(d) && |d| <= |s| && s[..|d|] == d
    requires d == ">" ==> |s| < 2 || s[1] != '<'
    requires g == Tokenize(s[|d|..]) && f == Cut(d, g)
    ensures f == Tokenize(s)
  {
    if d == "]<" {
      assert s[0] == s[..2][0] == ']' && s[1] == s[..2][1] == '<';
      assert Tokenize(s) == Cut("]<", Tokenize(s[2..]));
    } else if d == "><" {
      assert s[0] == s[..2][0] == '>' && s[1] == s[..2][1] == '<';
      assert Tokenize(s) == Cut("><", Tokenize(s[2..]));
    } else {
      assert d == ">";
      assert s[0] == s[..1][0] == '>';
      assert Tokenize(s) == Cut(">", Tokenize(s[1..]));
    }
  }

  /** The first character of a split text is that of its first piece, or of its
      first delimiter when the first piece is empty. */
  lemma SplitHead(t: string, g: Frame)
    requires IsSplitOf(t, g) && |t| > 0
    ensures |g.pieces[0]| > 0 ==> t[0] == g.pieces[0][0]
    ensures |g.pieces[0]| == 0 ==> |g.delimiters| > 0 && t[0] == g.delimiters[0][0]
  {
    if |g.delimiters| > 0 {
      assert t == g.pieces[0] + g.delimiters[0] + Interleave(g.pieces[1..], g.delimiters[1..]);
    }
  }

  // ---------------------------------------------------------------------
  // Keeping the records: filter(lambda x: x.startswith('0'), devices)
  // ---------------------------------------------------------------------

  /** The pieces that start with `'0'`, in their original order. */
  function Records(pieces: seq<string>): (r: seq<string>)
    ensures |r| <= |pieces|
    ensures forall x :: x in r <==> x in pieces && StartsWith(x, '0')
    decreases |pieces|
  {
    if |pieces| == 0 then []
    else (if StartsWith(pieces[0], '0') then [pieces[0]] else []) + Records(pieces[1..])
  }

  /** Filtering commutes with concatenation, so order is kept. */
  lemma {:induction false} RecordsAppend(a: seq<string>, b: seq<string>)
    ensures Records(a + b) == Records(a) + Records(b)
    decreases |a|
  {
    if |a| == 0 {
      assert a + b == b;
    } else {
      assert (a + b)[1..] == a[1..] + b;
      RecordsAppend(a[1..], b);
    }
  }

  /** The records a datagram carries: every piece after the header that starts with `'0'`. */
  function DatagramRecords(metrics: string): (r: seq<string>)
    ensures forall x :: x in r <==> x in Tokenize(metrics).pieces[1..] && StartsWith(x, '0')
  {
    Records(Tokenize(metrics).pieces[1..])
  }

  // ---------------------------------------------------------------------
  // The fields a record writes
  // ---------------------------------------------------------------------

  /** The two AC legs of an inverter. */
  datatype Leg = L1 | L2

  /** The quantities an inverter record reports per leg. */
  datatype LegQuantity = InverterCurrent | ChargerCurrent | BuyCurrent | SellCurrent | AcInputVoltage | AcOutputVoltage

  /** The keys `_process_inverter` writes into a slot's dict. */
  datatype InverterField = AcSource | LegField(leg: Leg, quantity: LegQuantity) | OutputPower | InverterMode | AcMode

  /** The keys `_process_charge_controller` writes into a slot's dict. */
  datatype ChargeControllerField = PvCurrent | PvVoltage | PvPower | OutputCurrent | ChargerMode | BatteryVoltage

  function QuantityName(q: LegQuantity): string {
    match q
    case InverterCurrent => "inverter_current"
    case ChargerCurrent => "charger_current"
    case BuyCurrent => "buy_current"
    case SellCurrent => "sell_current"
    case AcInputVoltage => "ac_input_voltage"
    case AcOutputVoltage => "ac_output_voltage"
  }

  /** The dict key the source uses for each inverter field. */
  function InverterFieldName(f: InverterField): string {
    match f
    case AcSource => "ac_source"
    case LegField(leg, q) => (if leg == L1 then "l1_" else "l2_") + QuantityName(q)
    case OutputPower => "output_power"
    case InverterMode => "inverter_mode"
    case AcMode => "ac_mode"
  }

  /** The dict key the source uses for each charge controller field. */
  function ChargeControllerFieldName(f: ChargeControllerField): string {
    match f
    case PvCurrent => "pv_current"
    case PvVoltage => "pv_voltage"
    case PvPower => "pv_power"
    case OutputCurrent => "output_current"
    case ChargerMode => "charger_mode"
    case BatteryVoltage => "battery_voltage"
  }

  /** The fields written into a slot's dict, up to the first exception;
      `complete` says no exception was raised. */
  datatype Writes<K> = Writes(fields: map<K, Value>, complete: bool)

  /** One more write `d[key] = x`, where None stands for an exception raised while computing `x`. */
  function Put<K>(w: Writes<K>, key: K, x: Option<Value>): (r: Writes<K>)
    ensures r.fields.Keys <= w.fields.Keys + {key}
    ensures r.complete <==> w.complete && x.Some?
    ensures r.complete ==> r.fields == w.fields[key := x.value]
    ensures !r.complete ==> r.fields == w.fields
  {
    if !w.complete then w
    else match x
      case None => w.(complete := false)
      case Some(value) => Writes(w.fields[key := value], true)
  }

  /** A write of the value computed for `key`, or of an exception. */
  datatype Step<K> = Step(key: K, value: Option<Value>)

  /** Performing the writes in order, stopping at the first exception. */
  function Apply<K>(w: Writes<K>, steps: seq<Step<K>>): Writes<K>
    decreases |steps|
  {
    if |steps| == 0 then w else Apply(Put(w, steps[0].key, steps[0].value), steps[1..])
  }

  /** How many steps succeed before the first exception. */
  function Succeeded<K>(steps: seq<Step<K>>): (n: nat)
    ensures n <= |steps|
    ensures forall i :: 0 <= i < n ==> steps[i].value.Some?
    ensures n < |steps| ==> steps[n].value.None?
    decreases |steps|
  {
    if |steps| == 0 || steps[0].value.None? then 0 else 1 + Succeeded(steps[1..])
  }

  /** The dict after writes that all succeed. */
  function Assign<K>(m: map<K, Value>, steps: seq<Step<K>>): map<K, Value>
    requires forall i :: 0 <= i < |steps| ==> steps[i].value.Some?
    decreases |steps|
  {
    if |steps| == 0 then m else Assign(m[steps[0].key := steps[0].value.value], steps[1..])
  }

  /** Writing in order until the first exception leaves exactly the writes before it. */
  lemma {:induction false} ApplyWrites<K>(m: map<K, Value>, steps: seq<Step<K>>)
    ensures Apply(Writes(m, true), steps) == Writes(Assign(m, steps[..Succeeded(steps)]), Succeeded(steps) == |steps|)
    decreases |steps|
  {
    if |steps| > 0 {
      var n := Succeeded(steps);
      if steps[0].value.None? {
        ApplyIncomplete(m, steps[1..]);
      } else {
        var m' := m[steps[0].key := steps[0].value.value];
        ApplyWrites(m', steps[1..]);
        assert steps[1..][..n - 1] == steps[..n][1..];
      }
    }
  }

  /** Once an exception was raised nothing more is written. */
  lemma {:induction false} ApplyIncomplete<K>(m: map<K, Value>, steps: seq<Step<K>>)
    ensures Apply(Writes(m, false), steps) == Writes(m, false)
    decreases |steps|
  {
    if |steps| > 0 {
      ApplyIncomplete(m, steps[1..]);
    }
  }

  ghost predicate DistinctKeys<K>(steps: seq<Step<K>>) {
    forall i, j :: 0 <= i < j < |steps| ==> steps[i].key != steps[j].key
  }

  /** With distinct keys, every key written holds its own step's value, and no other key changes. */
  lemma {:induction false} AssignResult<K>(m: map<K, Value>, steps: seq<Step<K>>)
    requires forall i :: 0 <= i < |steps| ==> steps[i].value.Some?
    requires DistinctKeys(steps)
    ensures Assign(m, steps).Keys == m.Keys + (set i | 0 <= i < |steps| :: steps[i].key)
    ensures forall i :: 0 <= i < |steps| ==> Assign(m, steps)[steps[i].key] == steps[i].value.value
    ensures forall k :: k in m && (forall i :: 0 <= i < |steps| ==> steps[i].key != k) ==> Assign(m, steps)[k] == m[k]
    decreases |steps|
  {
    if |steps| > 0 {
      var m' := m[steps[0].key := steps[0].value.value];
      AssignResult(m', steps[1..]);
      var rest := set i | 0 <= i < |steps[1..]| :: steps[1..][i].key;
      var all := set i | 0 <= i < |steps| :: steps[i].key;
      assert all == {steps[0].key} + rest by {
        forall k | k in all ensures k in {steps[0].key} + rest {
          var i :| 0 <= i < |steps| && steps[i].key == k;
          if i > 0 {
            assert steps[1..][i - 1].key == k;
          }
        }
      }
      forall i | 0 <= i < |steps|
        ensures Assign(m, steps)[steps[i].key] == steps[i].value.value
      {
        if i > 0 {
          assert steps[1..][i - 1] == steps[i];
        }
      }
    }
  }

  /** What a sequence of writes that stops at the first exception leaves behind:
      the keys of the steps that succeeded, each holding its own value. */
  lemma WrittenPrefix<K>(steps: seq<Step<K>>)
    requires DistinctKeys(steps)
    ensures var w := Apply(Writes(map[], true), steps);
      && (w.complete <==> forall i :: 0 <= i < |steps| ==> steps[i].value.Some?)
      && w.fields.Keys == (set i | 0 <= i < Succeeded(steps) :: steps[i].key)
      && (forall i :: 0 <= i < Succeeded(steps) ==> steps[i].value == Some(w.fields[steps[i].key]))
  {
    var n := Succeeded(steps);
    var prefix := steps[..n];
    PrefixDistinct(steps, n);
    AssignResult(map[], prefix);
    ApplyWrites(map[], steps);
    PrefixKeys(steps, n);
    forall i | 0 <= i < n
      ensures steps[i].value == Some(Assign(map[], prefix)[steps[i].key])
    {
      assert prefix[i] == steps[i];
    }
  }

  lemma PrefixDistinct<K>(steps: seq<Step<K>>, n: nat)
    requires n <= |steps| && DistinctKeys(steps)
    ensures DistinctKeys(steps[..n])
  {
    assert forall i :: 0 <= i < n ==> steps[..n][i] == steps[i];
  }

  lemma PrefixKeys<K>(steps: seq<Step<K>>, n: nat)
    requires n <= |steps|
    ensures (set i | 0 <= i < |steps[..n]| :: steps[..n][i].key) == (set i | 0 <= i < n :: steps[i].key)
  {
    var prefix := steps[..n];
    var written := set i | 0 <= i < |prefix| :: prefix[i].key;
    var claimed := set i | 0 <= i < n :: steps[i].key;
    forall k | k in written ensures k in claimed {
      var i :| 0 <= i < |prefix| && prefix[i].key == k;
      assert steps[i].key == k;
    }
    forall k | k in claimed ensures k in written {
      var i :| 0 <= i < n && steps[i].key == k;
      assert prefix[i].key == k;
    }
  }

  /** `dict.get(code, 'unknown')` on a table of labels. */
  function Label(table: map<int, string>, code: int): (s: string)
    ensures code in table ==> s == table[code]
    ensures code !in table ==> s == "unknown"
  {
    if code in table then table[code] else "unknown"
  }

  const InverterModes: map<int, string> := map[
    0 := "off", 1 := "search", 2 := "inverting", 3 := "charging", 4 := "silent",
    5 := "floating", 6 := "equalizing", 7 := "charger-off", 8 := "charger-off",
    9 := "selling", 10 := "pass-through", 11 := "slave-on", 12 := "slave-off",
    14 := "offsetting", 90 := "inverter-error", 91 := "ags-error", 92 := "comm-error"]

  const AcModes: map<int, string> := map[0 := "no-ac", 1 := "ac-drop", 2 := "ac-use"]

  const ChargerModes: map<int, string> := map[
    0 := "silent", 1 := "float", 2 := "bulk", 3 := "absorb", 4 := "equalize"]

  /** No table uses "unknown" as a label, so "unknown" means exactly "not in the table". */
  lemma LabelUnknown(code: int)
    ensures Label(InverterModes, code) == "unknown" <==> code !in InverterModes
    ensures Label(AcModes, code) == "unknown" <==> code !in AcModes
    ensures Label(ChargerModes, code) == "unknown" <==> code !in ChargerModes
  {
    if code in InverterModes {
      assert |InverterModes[code]| != 7 || InverterModes[code][0] != 'u';
    }
    if code in AcModes {
      assert AcModes[code][0] != 'u';
    }
    if code in ChargerModes {
      assert |ChargerModes[code]| != 7;
    }
  }

  /** `float(s)` stored as a float, times `factor`. */
  function FloatField(s: string, factor: real, c: Conversions): Option<Value> {
    match c.parseFloat(s)
    case None => None
    case Some(x) => Some(Float(x * factor))
  }

  /** A code parsed with `int(s)` and looked up in `table`. */
  function LabelField(s: string, table: map<int, string>, c: Conversions): Option<Value> {
    match c.parseInt(s)
    case None => None
    case Some(code) => Some(Str(Label(table, code)))
  }

  /** The order in which `_process_inverter` writes its fields. */
  const InverterOrder: seq<InverterField> := [
    AcSource,
    LegField(L1, InverterCurrent), LegField(L1, ChargerCurrent), LegField(L1, BuyCurrent),
    LegField(L1, SellCurrent), LegField(L1, AcInputVoltage), LegField(L1, AcOutputVoltage),
    LegField(L2, InverterCurrent), LegField(L2, ChargerCurrent), LegField(L2, BuyCurrent),
    LegField(L2, SellCurrent), LegField(L2, AcInputVoltage), LegField(L2, AcOutputVoltage),
    OutputPower, InverterMode, AcMode]

  /** The record offset of a quantity on leg 1. */
  function L1Offset(q: LegQuantity): nat {
    match q
    case InverterCurrent => 2
    case ChargerCurrent => 3
    case BuyCurrent => 4
    case SellCurrent => 5
    case AcInputVoltage => 6
    case AcOutputVoltage => 8
  }

  /** The record offset a per-leg quantity is read from: leg 2 sits 7 fields after leg 1. */
  function LegOffset(leg: Leg, q: LegQuantity): (offset: nat)
    ensures 2 <= offset <= 15 && offset != 7 && offset != 14
  {
    if leg == L1 then L1Offset(q) else L1Offset(q) + 7
  }

  /** The leg and quantity read from record field `k`: the inverse of `LegOffset`. */
  function OffsetField(k: int): (Leg, LegQuantity)
    requires 2 <= k <= 15 && k != 7 && k != 14
  {
    var leg := if k <= 8 then L1 else L2;
    var base := if leg == L1 then k else k - 7;
    var q := if base == 2 then InverterCurrent
      else if base == 3 then ChargerCurrent
      else if base == 4 then BuyCurrent
      else if base == 5 then SellCurrent
      else if base == 6 then AcInputVoltage
      else AcOutputVoltage;
    (leg, q)
  }

  /** Leg 2 reads each quantity 7 fields after leg 1, and `LegOffset` is a
      bijection between the twelve (leg, quantity) pairs and the fields 2..15
      other than 7 and 14: no two per-leg readings share a record field. */
  lemma LegOffsetLayout(leg: Leg, q: LegQuantity, k: int)
    ensures LegOffset(L2, q) == LegOffset(L1, q) + 7
    ensures OffsetField(LegOffset(leg, q)) == (leg, q)
    ensures 2 <= k <= 15 && k != 7 && k != 14 ==> LegOffset(OffsetField(k).0, OffsetField(k).1) == k
  {
  }

  /** Two per-leg readings come from the same field only if they are the same reading. */
  lemma LegOffsetInjective(leg: Leg, q: LegQuantity, leg': Leg, q': LegQuantity)
    requires LegOffset(leg, q) == LegOffset(leg', q')
    ensures leg == leg' && q == q'
  {
    LegOffsetLayout(leg, q, 0);
    LegOffsetLayout(leg', q', 0);
  }

  predicate IsVoltage(q: LegQuantity) {
    q == AcInputVoltage || q == AcOutputVoltage
  }

  /** `"grid"` when bit 6 of the misc byte is set, `"generator"` otherwise. */
  function AcSourceLabel(misc: int): string {
    if Bit(misc, 6) then "grid" else "generator"
  }

  /** `int((float(v[2]) + float(v[9])) * 110.0)`: truncated toward zero. */
  function OutputPowerField(v: seq<string>, c: Conversions): Option<Value>
    requires |v| > 9
  {
    match (c.parseFloat(v[2]), c.parseFloat(v[2 + 7]))
    case (Some(a), Some(b)) => Some(Int(Trunc((a + b) * 110.0)))
    case _ => None
  }

  /** The six writes of one leg, in source order; L2 reads the L1 offsets plus 7. */
  function LegWrites(w: Writes<InverterField>, v: seq<string>, c: Conversions, leg: Leg, acFactor: real): Writes<InverterField>
    requires |v| > 15
  {
    var d := if leg == L1 then 0 else 7;
    var w := Put(w, LegField(leg, InverterCurrent), FloatField(v[2 + d], 1.0, c));
    var w := Put(w, LegField(leg, ChargerCurrent), FloatField(v[3 + d], 1.0, c));
    var w := Put(w, LegField(leg, BuyCurrent), FloatField(v[4 + d], 1.0, c));
    var w := Put(w, LegField(leg, SellCurrent), FloatField(v[5 + d], 1.0, c));
    var w := Put(w, LegField(leg, AcInputVoltage), FloatField(v[6 + d], acFactor, c));
    Put(w, LegField(leg, AcOutputVoltage), FloatField(v[8 + d], acFactor, c))
  }

  /** The writes `_process_inverter` makes into the slot's dict, in the order of
      its statements; an index past the end of the record raises before any write. */
  function InverterWrites(v: seq<string>, c: Conversions): Writes<InverterField>
  {
    if |v| <= 20 then Writes(map[], false)
    else match c.parseInt(v[20])
      case None => Writes(map[], false)
      case Some(misc) =>
        var acFactor := if Bit(misc, 7) then 2.0 else 2.0;
        var w := Writes(map[AcSource := Str(AcSourceLabel(misc))], true);
        var w := LegWrites(w, v, c, L1, acFactor);
        var w := LegWrites(w, v, c, L2, acFactor);
        StatusWrites(w, v, c)
  }

  /** The three writes after the legs: output power, inverter mode, AC mode. */
  function StatusWrites(w: Writes<InverterField>, v: seq<string>, c: Conversions): Writes<InverterField>
    requires |v| > 20
  {
    var w := Put(w, OutputPower, OutputPowerField(v, c));
    var w := Put(w, InverterMode, LabelField(v[16], InverterModes, c));
    Put(w, AcMode, LabelField(v[18], AcModes, c))
  }

  /** A record whose miscellaneous byte parses is written in four stages. */
  lemma InverterWritesStaged(v: seq<string>, c: Conversions)
    requires |v| > 20 && c.parseInt(v[20]).Some?
    ensures var w := Put(Writes(map[], true), AcSource, Some(Str(AcSourceLabel(c.parseInt(v[20]).value))));
      InverterWrites(v, c) == StatusWrites(LegWrites(LegWrites(w, v, c, L1, 2.0), v, c, L2, 2.0), v, c)
  {
  }

  /** After an exception, the remaining writes of a record change nothing. */
  lemma WritesAfterException(w: Writes<InverterField>, v: seq<string>, c: Conversions, acFactor: real)
    requires !w.complete && |v| > 20
    ensures LegWrites(w, v, c, L2, acFactor) == w && StatusWrites(w, v, c) == w
  {
  }

  /** The layout of an inverter record, field by field: the value each key
      receives, or None where computing it raises. Every AC voltage is twice
      the raw reading. */
  function InverterLayout(f: InverterField, v: seq<string>, c: Conversions): Option<Value> {
    if |v| <= 20 then None
    else match f
      case AcSource =>
        (match c.parseInt(v[20]) case None => None case Some(misc) => Some(Str(AcSourceLabel(misc))))
      case LegField(leg, q) =>
        if c.parseInt(v[20]).None? then None
        else FloatField(v[LegOffset(leg, q)], if IsVoltage(q) then 2.0 else 1.0, c)
      case OutputPower => OutputPowerField(v, c)
      case InverterMode => LabelField(v[16], InverterModes, c)
      case AcMode => LabelField(v[18], AcModes, c)
  }

  function InverterSteps(v: seq<string>, c: Conversions): (steps: seq<Step<InverterField>>)
    ensures |steps| == |InverterOrder|
    ensures forall i :: 0 <= i < |steps| ==> steps[i] == Step(InverterOrder[i], InverterLayout(InverterOrder[i], v, c))
  {
    seq(|InverterOrder|, i requires 0 <= i < |InverterOrder| => Step(InverterOrder[i], InverterLayout(InverterOrder[i], v, c)))
  }

  lemma InverterOrderDistinct(v: seq<string>, c: Conversions)
    ensures DistinctKeys(InverterSteps(v, c))
  {
    var steps := InverterSteps(v, c);
    forall i, j | 0 <= i < j < |steps| ensures steps[i].key != steps[j].key {
      assert steps[i].key == InverterOrder[i] && steps[j].key == InverterOrder[j];
    }
  }

  /** `_process_inverter` writes the fields of the layout in the order listed,
      and stops at the first one whose computation raises. */
  lemma InverterWritesInOrder(v: seq<string>, c: Conversions)
    ensures InverterWrites(v, c) == Apply(Writes(map[], true), InverterSteps(v, c))
  {
    var steps := InverterSteps(v, c);
    if |v| <= 20 || c.parseInt(v[20]).None? {
      assert steps[0].value.None?;
      ApplyIncomplete(map[], steps[1..]);
    } else {
      var misc := c.parseInt(v[20]).value;
      var w := Writes(map[AcSource := Str(AcSourceLabel(misc))], true);
      InverterStepsLeg1(v, c);
      InverterStepsRest(v, c, LegWrites(w, v, c, L1, 2.0));
    }
  }

  /** The first seven steps: the AC source, then the L1 leg. */
  lemma InverterStepsLeg1(v: seq<string>, c: Conversions)
    requires |v| > 20 && c.parseInt(v[20]).Some?
    ensures var w := Writes(map[AcSource := Str(AcSourceLabel(c.parseInt(v[20]).value))], true);
      Apply(Writes(map[], true), InverterSteps(v, c)) == Apply(LegWrites(w, v, c, L1, 2.0), InverterSteps(v, c)[7..])
  {
    var steps := InverterSteps(v, c);
    InverterStepValues1(v, c);
    InverterStepValues2(v, c);
    var w := Writes(map[], true);
    ApplyStep(w, steps[0..]); w := Put(w, steps[0].key, steps[0].value);
    ApplyStep(w, steps[1..]); w := Put(w, steps[1].key, steps[1].value);
    ApplyStep(w, steps[2..]); w := Put(w, steps[2].key, steps[2].value);
    ApplyStep(w, steps[3..]); w := Put(w, steps[3].key, steps[3].value);
    ApplyStep(w, steps[4..]); w := Put(w, steps[4].key, steps[4].value);
    ApplyStep(w, steps[5..]); w := Put(w, steps[5].key, steps[5].value);
    ApplyStep(w, steps[6..]); w := Put(w, steps[6].key, steps[6].value);
  }

  /** The remaining nine steps: the L2 leg, then the status fields. */
  lemma InverterStepsRest(v: seq<string>, c: Conversions, w0: Writes<InverterField>)
    requires |v| > 20 && c.parseInt(v[20]).Some?
    ensures Apply(w0, InverterSteps(v, c)[7..]) == StatusWrites(LegWrites(w0, v, c, L2, 2.0), v, c)
  {
    var steps := InverterSteps(v, c);
    InverterStepValues2(v, c);
    InverterStepValues3(v, c);
    InverterStepValues4(v, c);
    var w := w0;
    ApplyStep(w, steps[7..]); w := Put(w, steps[7].key, steps[7].value);
    ApplyStep(w, steps[8..]); w := Put(w, steps[8].key, steps[8].value);
    ApplyStep(w, steps[9..]); w := Put(w, steps[9].key, steps[9].value);
    ApplyStep(w, steps[10..]); w := Put(w, steps[10].key, steps[10].value);
    ApplyStep(w, steps[11..]); w := Put(w, steps[11].key, steps[11].value);
    ApplyStep(w, steps[12..]); w := Put(w, steps[12].key, steps[12].value);
    ApplyStep(w, steps[13..]); w := Put(w, steps[13].key, steps[13].value);
    ApplyStep(w, steps[14..]); w := Put(w, steps[14].key, steps[14].value);
    ApplyStep(w, steps[15..]); w := Put(w, steps[15].key, steps[15].value);
    assert steps[16..] == [];
  }

  lemma InverterStepValues1(v: seq<string>, c: Conversions)
    requires |v| > 20 && c.parseInt(v[20]).Some?
    ensures InverterSteps(v, c)[0] == Step(AcSource, Some(Str(AcSourceLabel(c.parseInt(v[20]).value))))
    ensures InverterSteps(v, c)[1] == Step(LegField(L1, InverterCurrent), FloatField(v[2], 1.0, c))
    ensures InverterSteps(v, c)[2] == Step(LegField(L1, ChargerCurrent), FloatField(v[3], 1.0, c))
    ensures InverterSteps(v, c)[3] == Step(LegField(L1, BuyCurrent), FloatField(v[4], 1.0, c))
  {
    assert InverterOrder[0] == AcSource;
    assert InverterOrder[1] == LegField(L1, InverterCurrent);
    assert InverterOrder[2] == LegField(L1, ChargerCurrent);
    assert InverterOrder[3] == LegField(L1, BuyCurrent);
  }

  lemma InverterStepValues2(v: seq<string>, c: Conversions)
    requires |v| > 20 && c.parseInt(v[20]).Some?
    ensures InverterSteps(v, c)[4] == Step(LegField(L1, SellCurrent), FloatField(v[5], 1.0, c))
    ensures InverterSteps(v, c)[5] == Step(LegField(L1, AcInputVoltage), FloatField(v[6], 2.0, c))
    ensures InverterSteps(v, c)[6] == Step(LegField(L1, AcOutputVoltage), FloatField(v[8], 2.0, c))
    ensures InverterSteps(v, c)[7] == Step(LegField(L2, InverterCurrent), FloatField(v[2 + 7], 1.0, c))
  {
    assert InverterOrder[4] == LegField(L1, SellCurrent);
    assert InverterOrder[5] == LegField(L1, AcInputVoltage);
    assert InverterOrder[6] == LegField(L1, AcOutputVoltage);
    assert InverterOrder[7] == LegField(L2, InverterCurrent);
  }

  lemma InverterStepValues3(v: seq<string>, c: Conversions)
    requires |v| > 20 && c.parseInt(v[20]).Some?
    ensures InverterSteps(v, c)[8] == Step(LegField(L2, ChargerCurrent), FloatField(v[3 + 7], 1.0, c))
    ensures InverterSteps(v, c)[9] == Step(LegField(L2, BuyCurrent), FloatField(v[4 + 7], 1.0, c))
    ensures InverterSteps(v, c)[10] == Step(LegField(L2, SellCurrent), FloatField(v[5 + 7], 1.0, c))
    ensures InverterSteps(v, c)[11] == Step(LegField(L2, AcInputVoltage), FloatField(v[6 + 7], 2.0, c))
  {
    assert InverterOrder[8] == LegField(L2, ChargerCurrent);
    assert InverterOrder[9] == LegField(L2, BuyCurrent);
    assert InverterOrder[10] == LegField(L2, SellCurrent);
    assert InverterOrder[11] == LegField(L2, AcInputVoltage);
  }

  lemma InverterStepValues4(v: seq<string>, c: Conversions)
    requires |v| > 20 && c.parseInt(v[20]).Some?
    ensures InverterSteps(v, c)[12] == Step(LegField(L2, AcOutputVoltage), FloatField(v[8 + 7], 2.0, c))
    ensures InverterSteps(v, c)[13] == Step(OutputPower, OutputPowerField(v, c))
    ensures InverterSteps(v, c)[14] == Step(InverterMode, LabelField(v[16], InverterModes, c))
    ensures InverterSteps(v, c)[15] == Step(AcMode, LabelField(v[18], AcModes, c))
  {
    assert InverterOrder[12] == LegField(L2, AcOutputVoltage);
    assert InverterOrder[13] == OutputPower;
    assert InverterOrder[14] == InverterMode;
    assert InverterOrder[15] == AcMode;
  }

  lemma ApplyStep<K>(w: Writes<K>, s: seq<Step<K>>)
    requires |s| > 0
    ensures Apply(w, s) == Apply(Put(w, s[0].key, s[0].value), s[1..])
  {
  }
  /** Every inverter field is written by a record that decodes. */
  lemma InverterOrderCovers(f: InverterField)
    ensures f in InverterOrder
  {
    match f
    case LegField(leg, q) =>
      if leg == L1 {
        match q
        case InverterCurrent => assert InverterOrder[1] == f;
        case ChargerCurrent => assert InverterOrder[2] == f;
        case BuyCurrent => assert InverterOrder[3] == f;
        case SellCurrent => assert InverterOrder[4] == f;
        case AcInputVoltage => assert InverterOrder[5] == f;
        case AcOutputVoltage => assert InverterOrder[6] == f;
      } else {
        match q
        case InverterCurrent => assert InverterOrder[7] == f;
        case ChargerCurrent => assert InverterOrder[8] == f;
        case BuyCurrent => assert InverterOrder[9] == f;
        case SellCurrent => assert InverterOrder[10] == f;
        case AcInputVoltage => assert InverterOrder[11] == f;
        case AcOutputVoltage => assert InverterOrder[12] == f;
      }
    case _ => assert f in {InverterOrder[0], InverterOrder[13], InverterOrder[14], InverterOrder[15]};
  }

  /** What an inverter record leaves in its slot: the fields before the first
      exception, in the order of the source, each with the value the layout gives
      it; the record raises iff some field of the layout cannot be computed. */
  lemma InverterRecordWrites(v: seq<string>, c: Conversions)
    ensures var w := InverterWrites(v, c);
      && (w.complete <==> forall f :: InverterLayout(f, v, c).Some?)
      && w.fields.Keys == (set i | 0 <= i < Succeeded(InverterSteps(v, c)) :: InverterOrder[i])
      && (forall f :: f in w.fields ==> InverterLayout(f, v, c) == Some(w.fields[f]))
  {
    InverterWritesInOrder(v, c);
    InverterStepsWritten(v, c);
  }

  /** `InverterRecordWrites`, stated for the layout applied in order. */
  lemma InverterStepsWritten(v: seq<string>, c: Conversions)
    ensures var w := Apply(Writes(map[], true), InverterSteps(v, c));
      && (w.complete <==> forall f :: InverterLayout(f, v, c).Some?)
      && w.fields.Keys == (set i | 0 <= i < Succeeded(InverterSteps(v, c)) :: InverterOrder[i])
      && (forall f :: f in w.fields ==> InverterLayout(f, v, c) == Some(w.fields[f]))
  {
    var steps := InverterSteps(v, c);
    InverterOrderDistinct(v, c);
    WrittenPrefix(steps);
    var w := Apply(Writes(map[], true), steps);
    if w.complete {
      forall f ensures InverterLayout(f, v, c).Some? {
        InverterOrderCovers(f);
        var i :| 0 <= i < |InverterOrder| && InverterOrder[i] == f;
        assert steps[i].value.Some?;
      }
    }
    assert forall i :: 0 <= i < Succeeded(steps) ==> steps[i].key == InverterOrder[i];
  }

  // ---------------------------------------------------------------------
  // Charge controller records
  // ---------------------------------------------------------------------

  /** `float(s) / 10`. */
  function TenthsField(s: string, c: Conversions): Option<Value> {
    match c.parseFloat(s)
    case None => None
    case Some(x) => Some(Float(x / 10.0))
  }

  /** `float(v[3]) + float(v[7]) / 10`. */
  function OutputCurrentField(v: seq<string>, c: Conversions): Option<Value>
    requires |v| > 3
  {
    if |v| <= 7 then None
    else match (c.parseFloat(v[3]), c.parseFloat(v[7]))
      case (Some(a), Some(b)) => Some(Float(a + b / 10.0))
      case _ => None
  }

  /** The writes `_process_charge_controller` makes into the slot's dict, in the
      order of its statements: both PV readings are parsed before the first write. */
  function ChargeControllerWrites(v: seq<string>, c: Conversions): Writes<ChargeControllerField>
  {
    if |v| <= 4 then Writes(map[], false)
    else match c.parseInt(v[4])
      case None => Writes(map[], false)
      case Some(pvCurrent) =>
        if |v| <= 5 then Writes(map[], false)
        else match c.parseInt(v[5])
          case None => Writes(map[], false)
          case Some(pvVoltage) =>
            var w := Writes(map[PvCurrent := Int(pvCurrent)], true);
            var w := Put(w, PvVoltage, Some(Int(pvVoltage)));
            var w := Put(w, PvPower, Some(Int(pvVoltage * pvCurrent)));
            var w := Put(w, OutputCurrent, OutputCurrentField(v, c));
            var w := Put(w, ChargerMode, if |v| > 10 then LabelField(v[10], ChargerModes, c) else None);
            Put(w, BatteryVoltage, if |v| > 11 then TenthsField(v[11], c) else None)
  }

  /** The order in which `_process_charge_controller` writes its fields. */
  const ChargeControllerOrder: seq<ChargeControllerField> :=
    [PvCurrent, PvVoltage, PvPower, OutputCurrent, ChargerMode, BatteryVoltage]

  /** The PV current and voltage of a charge controller record, both parsed as integers. */
  function PvReadings(v: seq<string>, c: Conversions): Option<(int, int)> {
    if |v| <= 5 then None
    else match (c.parseInt(v[4]), c.parseInt(v[5]))
      case (Some(current), Some(voltage)) => Some((current, voltage))
      case _ => None
  }

  /** The layout of a charge controller record, field by field: the value each
      key receives, or None where computing it raises. The PV power is the product
      of the PV voltage and current; the output current and battery voltage are
      read in tenths. */
  function ChargeControllerLayout(f: ChargeControllerField, v: seq<string>, c: Conversions): Option<Value> {
    match PvReadings(v, c)
    case None => None
    case Some((current, voltage)) =>
      match f
      case PvCurrent => Some(Int(current))
      case PvVoltage => Some(Int(voltage))
      case PvPower => Some(Int(voltage * current))
      case OutputCurrent => OutputCurrentField(v, c)
      case ChargerMode => if |v| > 10 then LabelField(v[10], ChargerModes, c) else None
      case BatteryVoltage => if |v| > 11 then TenthsField(v[11], c) else None
  }

  function ChargeControllerSteps(v: seq<string>, c: Conversions): (steps: seq<Step<ChargeControllerField>>)
    ensures |steps| == |ChargeControllerOrder|
    ensures forall i :: 0 <= i < |steps| ==>
      steps[i] == Step(ChargeControllerOrder[i], ChargeControllerLayout(ChargeControllerOrder[i], v, c))
  {
    seq(|ChargeControllerOrder|, i requires 0 <= i < |ChargeControllerOrder| =>
      Step(ChargeControllerOrder[i], ChargeControllerLayout(ChargeControllerOrder[i], v, c)))
  }

  /** `_process_charge_controller` writes the fields of the layout in the order
      listed, and stops at the first one whose computation raises. */
  lemma ChargeControllerWritesInOrder(v: seq<string>, c: Conversions)
    ensures ChargeControllerWrites(v, c) == Apply(Writes(map[], true), ChargeControllerSteps(v, c))
  {
    var steps := ChargeControllerSteps(v, c);
    if PvReadings(v, c).None? {
      assert steps[0].value.None?;
      ApplyIncomplete(map[], steps[1..]);
    } else {
      ChargeControllerStepValues(v, c);
      var w := Writes(map[], true);
      ApplyStep(w, steps[0..]); w := Put(w, steps[0].key, steps[0].value);
      ApplyStep(w, steps[1..]); w := Put(w, steps[1].key, steps[1].value);
      ApplyStep(w, steps[2..]); w := Put(w, steps[2].key, steps[2].value);
      ApplyStep(w, steps[3..]); w := Put(w, steps[3].key, steps[3].value);
      ApplyStep(w, steps[4..]); w := Put(w, steps[4].key, steps[4].value);
      ApplyStep(w, steps[5..]); w := Put(w, steps[5].key, steps[5].value);
      assert steps[6..] == [];
    }
  }
  lemma ChargeControllerStepValues(v: seq<string>, c: Conversions)
    requires PvReadings(v, c).Some?
    ensures var (current, voltage) := PvReadings(v, c).value;
      var steps := ChargeControllerSteps(v, c);
      && steps[0] == Step(PvCurrent, Some(Int(current)))
      && steps[1] == Step(PvVoltage, Some(Int(voltage)))
      && steps[2] == Step(PvPower, Some(Int(voltage * current)))
      && steps[3] == Step(OutputCurrent, OutputCurrentField(v, c))
      && steps[4] == Step(ChargerMode, if |v| > 10 then LabelField(v[10], ChargerModes, c) else None)
      && steps[5] == Step(BatteryVoltage, if |v| > 11 then TenthsField(v[11], c) else None)
  {
    assert ChargeControllerOrder[0] == PvCurrent && ChargeControllerOrder[1] == PvVoltage;
    assert ChargeControllerOrder[2] == PvPower && ChargeControllerOrder[3] == OutputCurrent;
    assert ChargeControllerOrder[4] == ChargerMode && ChargeControllerOrder[5] == BatteryVoltage;
  }


  lemma ChargeControllerOrderCovers(f: ChargeControllerField)
    ensures f in ChargeControllerOrder
  {
  }

  /** What a charge controller record leaves in its slot: the fields before the
      first exception, in the order of the source, each with the value the layout
      gives it; the record raises iff some field cannot be computed. A record that
      fails at offset 7 or 11 keeps the fields written before. */
  lemma ChargeControllerRecordWrites(v: seq<string>, c: Conversions)
    ensures var w := ChargeControllerWrites(v, c);
      && (w.complete <==> forall f :: ChargeControllerLayout(f, v, c).Some?)
      && w.fields.Keys == (set i | 0 <= i < Succeeded(ChargeControllerSteps(v, c)) :: ChargeControllerOrder[i])
      && (forall f :: f in w.fields ==> ChargeControllerLayout(f, v, c) == Some(w.fields[f]))
  {
    ChargeControllerWritesInOrder(v, c);
    ChargeControllerStepsWritten(v, c);
  }

  /** `ChargeControllerRecordWrites`, stated for the layout applied in order. */
  lemma ChargeControllerStepsWritten(v: seq<string>, c: Conversions)
    ensures var w := Apply(Writes(map[], true), ChargeControllerSteps(v, c));
      && (w.complete <==> forall f :: ChargeControllerLayout(f, v, c).Some?)
      && w.fields.Keys == (set i | 0 <= i < Succeeded(ChargeControllerSteps(v, c)) :: ChargeControllerOrder[i])
      && (forall f :: f in w.fields ==> ChargeControllerLayout(f, v, c) == Some(w.fields[f]))
  {
    var steps := ChargeControllerSteps(v, c);
    assert DistinctKeys(steps) by {
      forall i, j | 0 <= i < j < |steps| ensures steps[i].key != steps[j].key {
        assert steps[i].key == ChargeControllerOrder[i] && steps[j].key == ChargeControllerOrder[j];
      }
    }
    WrittenPrefix(steps);
    var w := Apply(Writes(map[], true), steps);
    if w.complete {
      forall f ensures ChargeControllerLayout(f, v, c).Some? {
        ChargeControllerOrderCovers(f);
        var i :| 0 <= i < |ChargeControllerOrder| && ChargeControllerOrder[i] == f;
        assert steps[i].value.Some?;
      }
    }
    assert forall i :: 0 <= i < Succeeded(steps) ==> steps[i].key == ChargeControllerOrder[i];
  }
}
