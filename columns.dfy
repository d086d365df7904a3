/** The column-selection rules of test_main.py. A data frame is modelled as its
    columns in order, each a name with the column's maximum, `df.max()`. */
module Columns {
  import opened Errors
  import opened Text
  import opened Sorting

  datatype Column = Column(name: string, max: real)

  /** `df.max()`: the column maxima in column order. */
  function Maxima(cols: seq<Column>): (m: seq<real>)
    ensures |m| == |cols|
    ensures forall i :: 0 <= i < |cols| ==> m[i] == cols[i].max
  {
    if cols == [] then [] else [cols[0].max] + Maxima(cols[1..])
  }

  function Names(cols: seq<Column>): (names: seq<string>)
    ensures |names| == |cols|
    ensures forall i :: 0 <= i < |cols| ==> names[i] == cols[i].name
  {
    if cols == [] then [] else [cols[0].name] + Names(cols[1..])
  }

  /** The columns for which `keep` holds, in column order: the comprehensions
      `[idx[i] for i, v in enumerate(pass_max) if v]` and `[col for col in ... if ...]`. */
  function Select(cols: seq<Column>, keep: Column -> bool): (r: seq<Column>)
    ensures |r| <= |cols|
    ensures forall c :: c in r <==> c in cols && keep(c)
  {
    if cols == [] then []
    else (if keep(cols[0]) then [cols[0]] else []) + Select(cols[1..], keep)
  }

  /** Selecting keeps column order: selecting from two runs of columns one after
      the other is selecting from their concatenation. */
  lemma {:induction false} SelectAppend(a: seq<Column>, b: seq<Column>, keep: Column -> bool)
    ensures Select(a + b, keep) == Select(a, keep) + Select(b, keep)
    decreases |a|
  {
    if a == [] {
      assert a + b == b;
    } else {
      assert (a + b)[0] == a[0];
      assert (a + b)[1..] == a[1..] + b;
      SelectAppend(a[1..], b, keep);
    }
  }

  /** `max_values > threshold` column by column. */
  function KeepAbove(cols: seq<Column>, threshold: real): seq<Column> {
    Select(cols, (c: Column) => c.max > threshold)
  }

  /** `max_temps >= threshold` column by column. */
  function KeepAtLeast(cols: seq<Column>, threshold: real): seq<Column> {
    Select(cols, (c: Column) => c.max >= threshold)
  }

  lemma {:induction false} KeepAboveCount(cols: seq<Column>, threshold: real)
    ensures |KeepAbove(cols, threshold)| == CountAbove(Maxima(cols), threshold)
    decreases |cols|
  {
    if cols != [] {
      KeepAboveCount(cols[1..], threshold);
      assert Maxima(cols)[1..] == Maxima(cols[1..]);
    }
  }

  lemma {:induction false} KeepAtLeastCount(cols: seq<Column>, threshold: real)
    ensures |KeepAtLeast(cols, threshold)| == CountAtLeast(Maxima(cols), threshold)
    decreases |cols|
  {
    if cols != [] {
      KeepAtLeastCount(cols[1..], threshold);
      assert Maxima(cols)[1..] == Maxima(cols[1..]);
    }
  }

  // ---------------------------------------------------------------------------
  // filter

  /** `sorted(max_values)[-2]`: the second-largest maximum (equal to the largest
      when two columns tie for it). */
  function PenultimateMax(cols: seq<Column>): real
    requires |cols| >= 2
  {
    KthLargest(Maxima(cols), 2)
  }

  /** `0.6 * penultimate_max`, in exact arithmetic. */
  function Threshold(cols: seq<Column>): real
    requires |cols| >= 2
  {
    0.6 * PenultimateMax(cols)
  }

  /** `filter(df)`: at most four columns are returned as they are; otherwise the
      columns whose maximum is strictly above 0.6 times the second-largest
      maximum, in column order. A column exactly at the threshold is dropped,
      although the doc-comment of `filter` speaks of values that "reach at least"
      60%. */
  function Filter(cols: seq<Column>): (r: seq<Column>)
    ensures |cols| <= 4 ==> r == cols
    ensures |cols| > 4 ==>
      forall c :: c in r <==> c in cols && c.max > Threshold(cols)
    ensures |r| <= |cols|
  {
    if |cols| <= 4 then cols else KeepAbove(cols, Threshold(cols))
  }

  /** When the second-largest maximum is positive, every column reaching it (so in
      particular the columns with the two largest maxima) survives, and at least
      two columns remain. */
  lemma FilterKeepsLeaders(cols: seq<Column>)
    requires |cols| > 4 && PenultimateMax(cols) > 0.0
    ensures forall c :: c in cols && c.max >= PenultimateMax(cols) ==> c in Filter(cols)
    ensures |Filter(cols)| >= 2
  {
    var p := PenultimateMax(cols);
    KthLargestRank(Maxima(cols), 2);
    CountMonotone(Maxima(cols), Threshold(cols), p);
    KeepAboveCount(cols, Threshold(cols));
  }

  // ---------------------------------------------------------------------------
  // top-N temperatures

  /** `max_temps >= sorted(max_temps)[-n]` selected in column order; the
      indexing raises IndexError with fewer than n columns. */
  function TopN(cols: seq<Column>, n: nat): Result<seq<Column>>
    requires n >= 1
  {
    if |cols| < n then Err(IndexError)
    else Ok(KeepAtLeast(cols, KthLargest(Maxima(cols), n)))
  }

  /** The selection fails exactly with fewer than n columns. Otherwise it keeps a
      column exactly when fewer than n columns have a strictly larger maximum, and
      so keeps at least n columns. */
  lemma TopNSpec(cols: seq<Column>, n: nat)
    requires n >= 1
    ensures TopN(cols, n).Err? <==> |cols| < n
    ensures TopN(cols, n).Err? ==> TopN(cols, n).fault == IndexError
    ensures TopN(cols, n).Ok? ==>
      forall c :: c in TopN(cols, n).value <==> c in cols && CountAbove(Maxima(cols), c.max) < n
    ensures TopN(cols, n).Ok? ==> |TopN(cols, n).value| >= n
  {
    if |cols| >= n {
      var v := KthLargest(Maxima(cols), n);
      forall c | c in cols ensures c.max >= v <==> CountAbove(Maxima(cols), c.max) < n {
        AtLeastKthLargest(Maxima(cols), n, c.max);
      }
      KthLargestRank(Maxima(cols), n);
      KeepAtLeastCount(cols, v);
    }
  }

  /** The first temperature selection, over the Temperatures frame: every column
      reaching the fifth-largest maximum, so at least five columns. */
  function TopTemperatures(temps: seq<Column>): Result<seq<Column>> {
    TopN(temps, 5)
  }

  /** The second selection, over the temperature columns of the Sensors frame:
      every column reaching the fourth-largest maximum. */
  function TopSensorTemperatures(sensors: seq<Column>): Result<seq<Column>> {
    TopN(TempColumns(sensors), 4)
  }

  // ---------------------------------------------------------------------------
  // name classifiers

  /** `'pwr' in col.lower() or 'power' in col.lower()` (test_main.py:51-53). */
  function PowerColumns(cols: seq<Column>): seq<Column> {
    Select(cols, (c: Column) => MentionsPower(c.name))
  }

  /** `'temp' in col.lower()` (test_main.py:54). */
  function TempColumns(cols: seq<Column>): seq<Column> {
    Select(cols, (c: Column) => MentionsTemp(c.name))
  }

  predicate IsDigit(c: char) {
    '0' <= c <= '9'
  }

  /** The length of the run of digits that starts `s`. */
  function DigitRun(s: string): (n: nat)
    ensures n <= |s|
    ensures forall i :: 0 <= i < n ==> IsDigit(s[i])
    ensures n < |s| ==> !IsDigit(s[n])
  {
    if s == [] || !IsDigit(s[0]) then 0 else 1 + DigitRun(s[1..])
  }

  /** `re.match(r'CPU\d+_TEMP', name) is not None`: "CPU", one or more digits,
      "_TEMP", anchored at the start only, case-sensitive. */
  predicate IsCpuTemp(name: string) {
    StartsWith(name, "CPU")
    && var digits := DigitRun(name[3..]);
    digits >= 1 && StartsWith(name[3 + digits..], "_TEMP")
  }

  /** The regular expression matches with `k` digits. */
  ghost predicate CpuTempWith(name: string, k: nat) {
    && 1 <= k && 3 + k + 5 <= |name|
    && name[..3] == "CPU"
    && (forall i :: 3 <= i < 3 + k ==> IsDigit(name[i]))
    && name[3 + k..3 + k + 5] == "_TEMP"
  }

  /** The scan agrees with the regular expression's meaning: some number of
      digits (one or more) between "CPU" and "_TEMP" at the start of the name. */
  lemma CpuTempMeaning(name: string)
    ensures IsCpuTemp(name) <==> exists k: nat :: CpuTempWith(name, k)
  {
    if IsCpuTemp(name) {
      var k := DigitRun(name[3..]);
      assert name[3 + k..][..5] == name[3 + k..3 + k + 5];
      assert CpuTempWith(name, k);
    }
    if exists k: nat :: CpuTempWith(name, k) {
      var k: nat :| CpuTempWith(name, k);
      var rest := name[3..];
      var n := DigitRun(rest);
      assert name[3 + k] == name[3 + k..3 + k + 5][0] == '_';
      forall i | 0 <= i < k ensures IsDigit(rest[i]) {
        assert rest[i] == name[3 + i];
      }
      assert rest[k] == name[3 + k];
      assert n == k;
      assert name[3 + n..][..5] == name[3 + k..3 + k + 5];
    }
  }

  lemma CpuTempExamples()
    ensures IsCpuTemp("CPU22_TEMP")
    ensures IsCpuTemp("CPU0_TEMP_MAX")
    ensures !IsCpuTemp("CPU_TEMP")
    ensures !IsCpuTemp("cpu0_temp")
    ensures !IsCpuTemp("DIMM_CPU0_TEMP")
  {
    assert "CPU22_TEMP"[3..] == "22_TEMP";
    assert DigitRun("22_TEMP") == 2 by {
      assert "22_TEMP"[1..] == "2_TEMP";
      assert "2_TEMP"[1..] == "_TEMP";
    }
    assert "CPU22_TEMP"[5..] == "_TEMP";
    assert "CPU0_TEMP_MAX"[3..] == "0_TEMP_MAX";
    assert DigitRun("0_TEMP_MAX") == 1 by {
      assert "0_TEMP_MAX"[1..] == "_TEMP_MAX";
    }
    assert "CPU0_TEMP_MAX"[4..][..5] == "_TEMP";
    assert "CPU_TEMP"[3..] == "_TEMP";
    assert "cpu0_temp"[..3][0] == 'c';
    assert "DIMM_CPU0_TEMP"[..3][0] == 'D';
  }

  /** A CPU temperature name always mentions "temp", so the CPU columns picked
      from the temperature columns are all the CPU columns of the frame. */
  lemma CpuTempIsTemp(name: string)
    requires IsCpuTemp(name)
    ensures MentionsTemp(name)
  {
    var k := DigitRun(name[3..]);
    var i := 3 + k + 1;
    assert name[3 + k..][..5] == "_TEMP";
    forall j | 0 <= j < 4 ensures Lower(name)[i..i + 4][j] == "temp"[j] {
      assert name[i + j] == name[3 + k..][..5][j + 1];
    }
    assert OccursAt(Lower(name), "temp", i);
    ContainsAt(Lower(name), "temp");
  }

  lemma {:induction false} CpuColumnsAreTempColumns(sensors: seq<Column>)
    ensures CpuTempColumns(TempColumns(sensors)) == CpuTempColumns(sensors)
    decreases |sensors|
  {
    if sensors != [] {
      var head, rest := sensors[0], sensors[1..];
      CpuColumnsAreTempColumns(rest);
      if IsCpuTemp(head.name) {
        CpuTempIsTemp(head.name);
      }
      if MentionsTemp(head.name) {
        assert TempColumns(sensors) == [head] + TempColumns(rest);
        assert ([head] + TempColumns(rest))[1..] == TempColumns(rest);
      } else {
        assert TempColumns(sensors) == TempColumns(rest);
      }
    }
  }

  function CpuTempColumns(cols: seq<Column>): seq<Column> {
    Select(cols, (c: Column) => IsCpuTemp(c.name))
  }

  /** `sorted(top_4_temps | cpu_temp_cols)` for the Sensors frame: the names of the
      temperature columns kept by the second top selection together with the
      names of the CPU temperature columns, ascending and without repeats. */
  function PlotColumns(sensors: seq<Column>): Result<seq<string>> {
    var temps := TempColumns(sensors);
    match TopSensorTemperatures(sensors)
    case Err(f) => Err(f)
    case Ok(top) => Ok(SortedDistinct(Names(top) + Names(CpuTempColumns(temps))))
  }

  /** The plot list fails exactly when the frame has fewer than four temperature
      columns. Otherwise it is strictly ascending and holds exactly the names of
      the temperature columns that are among the top selection or are CPU
      temperatures. */
  lemma PlotColumnsSpec(sensors: seq<Column>)
    ensures PlotColumns(sensors).Err? <==> |TempColumns(sensors)| < 4
    ensures PlotColumns(sensors).Ok? ==>
      && StrictlyAscending(PlotColumns(sensors).value)
      && forall x :: x in PlotColumns(sensors).value <==>
           exists c :: c in TempColumns(sensors) && c.name == x
             && (c in TopSensorTemperatures(sensors).value || IsCpuTemp(x))
  {
    var temps := TempColumns(sensors);
    if |temps| >= 4 {
      var top := TopSensorTemperatures(sensors).value;
      var cpu := CpuTempColumns(temps);
      var r := PlotColumns(sensors).value;
      assert r == SortedDistinct(Names(top) + Names(cpu));
      forall x ensures x in r <==> exists c :: c in temps && c.name == x && (c in top || IsCpuTemp(x)) {
        NamesIn(top, x);
        NamesIn(cpu, x);
      }
    }
  }

  lemma NamesIn(cols: seq<Column>, x: string)
    ensures x in Names(cols) <==> exists c :: c in cols && c.name == x
  {
    if x in Names(cols) {
      var i :| 0 <= i < |cols| && Names(cols)[i] == x;
      assert cols[i] in cols;
    }
    if exists c :: c in cols && c.name == x {
      var c :| c in cols && c.name == x;
      var i :| 0 <= i < |cols| && cols[i] == c;
      assert Names(cols)[i] == x;
    }
  }

  /** Every CPU temperature column of the frame is plotted, whatever its maximum. */
  lemma PlotsEveryCpuTemp(sensors: seq<Column>, c: Column)
    requires PlotColumns(sensors).Ok? && c in sensors && IsCpuTemp(c.name)
    ensures c.name in PlotColumns(sensors).value
  {
    CpuTempIsTemp(c.name);
    PlotColumnsSpec(sensors);
  }
}
