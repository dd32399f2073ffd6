/** The synthetic electrostatic-chuck (ESC) telemetry generator.

    Randomness is injected: `uniform(i)(k)` is the unit sample in [0, 1) that
    numpy turns into the value of configured column `k` in row `i`, and
    `coin(i)` is the `random.random()` draw that decides row `i`'s label.
    Timestamps are whole seconds; measured values are reals. */
module DataGenerator {
  import opened Records

  /** One entry of the `value_ranges` table: a column and its [low, high]. */
  datatype Range = Range(name: string, low: real, high: real)

  const DefaultChamber: string := "Chamber_1"
  const LabelColumn: string := "Possible_ESC_Thermal_Stress"
  const DefaultRows: int := 100
  /** 2025-06-10 00:00:00 as seconds since 1970-01-01 00:00:00 (naive time). */
  const DefaultStart: int := 1749513600

  /** The configured columns, in the order of the source's dictionary. */
  const ValueRanges: seq<Range> := [
    Range("ESC_Bias_Voltage", -95.0, -85.0),
    Range("ESC_Clamp_Voltage", 3400.0, 3450.0),
    Range("ESC_Coolant_Flow_AI", 3.5, 4.0),
    Range("ESC_Current_Temp", 20.0, 21.0),
    Range("Inner_ESC_Heater_Temp", 34.0, 37.0),
    Range("Inner_ESC_Temp_Output_Value", 22.0, 24.0),
    Range("MidInner_ESC_Heater_Temp", 20.0, 24.0),
    Range("MidInner_ESC_Temp_Output_Value", 32.5, 34.0),
    Range("MidOuter_ESC_Heater_Temp", 15.0, 19.0),
    Range("MidOuter_ESC_Temp_Output_Value", 31.5, 33.0),
    Range("Outer_ESC_Heater_Temp", 13.0, 18.0),
    Range("Outer_ESC_Temp_Output_Value", 31.5, 33.0)
  ]

  /** The step labels that successive rows cycle through. */
  const Steps: seq<string> := ["SION", "SION_OE"]

  // ---------------------------------------------------------------------
  // Sampling: uniform draw, rounding to five decimals, the stress label
  // ---------------------------------------------------------------------

  /** 10^5: `np.round(x, 5)` works on `x * 10^5`. */
  const Scale: real := 100000.0

  /** `x` has at most five digits after the decimal point. */
  predicate OnGrid(x: real)
  {
    (x * Scale).Floor as real == x * Scale
  }

  /** numpy's `rint`: the nearest integer, ties going to the even one. */
  function RoundHalfEven(y: real): (n: int)
    ensures y - 0.5 <= n as real <= y + 0.5
    ensures (n as real == y + 0.5 || n as real == y - 0.5) ==> n % 2 == 0
  {
    var f := y.Floor;
    var frac := y - f as real;
    if frac < 0.5 then f
    else if frac > 0.5 then f + 1
    else if f % 2 == 0 then f
    else f + 1
  }

  /** `np.round(x, 5)`: the nearest multiple of 10^-5, ties to even. */
  function Round5(x: real): (r: real)
    ensures OnGrid(r)
    ensures x - 0.000005 <= r <= x + 0.000005
  {
    RoundHalfEven(x * Scale) as real / Scale
  }

  /** Rounding cannot leave an interval whose ends are already on the grid. */
  lemma RoundStaysInRange(x: real, low: real, high: real)
    requires OnGrid(low) && OnGrid(high)
    requires low <= x <= high
    ensures low <= Round5(x) <= high
  {
    var a, b := (low * Scale).Floor, (high * Scale).Floor;
    var n := RoundHalfEven(x * Scale);
    assert a as real <= x * Scale <= b as real;
    assert a <= n <= b;
  }

  /** `np.random.uniform(low, high)` given its unit sample `u`. */
  function Uniform(low: real, high: real, u: real): real
  {
    low + (high - low) * u
  }

  lemma UniformInRange(low: real, high: real, u: real)
    requires low <= high
    requires 0.0 <= u < 1.0
    ensures low <= Uniform(low, high, u) <= high
  {
    var width := high - low;
    assert 0.0 <= width * u by {
      assert 0.0 <= width && 0.0 <= u;
    }
    assert width * u <= width by {
      assert 0.0 <= width * (1.0 - u);
    }
  }

  /** A configured range is usable: ordered ends, both on the 10^-5 grid. */
  predicate WellFormed(r: Range)
  {
    r.low <= r.high && OnGrid(r.low) && OnGrid(r.high)
  }

  /** The value written to column `r` given the unit sample `u`. */
  function ColumnValue(r: Range, u: real): real
  {
    Round5(Uniform(r.low, r.high, u))
  }

  lemma ColumnValueInRange(r: Range, u: real)
    requires WellFormed(r)
    requires 0.0 <= u < 1.0
    ensures r.low <= ColumnValue(r, u) <= r.high
    ensures OnGrid(ColumnValue(r, u))
  {
    UniformInRange(r.low, r.high, u);
    RoundStaysInRange(Uniform(r.low, r.high, u), r.low, r.high);
  }

  /** The thermal-stress label for the draw `u` of `random.random()`. */
  function Label(u: real): (r: real)
    ensures r == 0.0 || r == 1.0
    ensures r == 1.0 <==> u < 0.01
  {
    if u < 0.01 then 1.0 else 0.0
  }

  // ---------------------------------------------------------------------
  // Row layout
  // ---------------------------------------------------------------------

  function Names(ranges: seq<Range>): seq<string>
  {
    seq(|ranges|, k requires 0 <= k < |ranges| => ranges[k].name)
  }

  /** The column order of every generated row. */
  function Columns(ranges: seq<Range>): seq<string>
  {
    ["timestamp", "chamber", "step"] + Names(ranges) + [LabelColumn]
  }

  /** The record before any measured column is assigned. */
  function Base(timestamp: int, chamber: string, step: string): Record
  {
    [Field("timestamp", Time(timestamp)), Field("chamber", Text(chamber)), Field("step", Text(step))]
  }

  /** The measured entries, one per configured column, in table order. */
  function ColumnFields(ranges: seq<Range>, draw: nat -> real): seq<Field>
  {
    seq(|ranges|, k requires 0 <= k < |ranges| => Field(ranges[k].name, Num(ColumnValue(ranges[k], draw(k)))))
  }

  /** The record the row builder returns: base fields, one entry per
      configured column, then the label. */
  function MakeRow(timestamp: int, chamber: string, step: string, ranges: seq<Range>,
                   draw: nat -> real, coin: real): (row: Record)
    ensures |row| == |ranges| + 4
  {
    Base(timestamp, chamber, step) + ColumnFields(ranges, draw) + [Field(LabelColumn, Num(Label(coin)))]
  }

  /** A row's keys are exactly the column order. */
  lemma RowKeys(timestamp: int, chamber: string, step: string, ranges: seq<Range>,
                draw: nat -> real, coin: real)
    ensures Keys(MakeRow(timestamp, chamber, step, ranges, draw, coin)) == Columns(ranges)
  {
    var row := MakeRow(timestamp, chamber, step, ranges, draw, coin);
    var cols := Columns(ranges);
    assert |Keys(row)| == |cols|;
    forall j | 0 <= j < |cols|
      ensures Keys(row)[j] == cols[j]
    {
      if 3 <= j < 3 + |ranges| {
        assert row[j] == ColumnFields(ranges, draw)[j - 3];
        assert cols[j] == Names(ranges)[j - 3];
      }
    }
  }

  /** After the column loop has assigned columns 0..k-1, the record's keys
      are the first `3 + k` names of the column order. */
  lemma PrefixKeys(timestamp: int, chamber: string, step: string, ranges: seq<Range>,
                   draw: nat -> real, k: int)
    requires 0 <= k <= |ranges|
    ensures Keys(Base(timestamp, chamber, step) + ColumnFields(ranges[..k], draw)) == Columns(ranges)[..3 + k]
  {
    var row := Base(timestamp, chamber, step) + ColumnFields(ranges[..k], draw);
    var cols := Columns(ranges);
    forall j | 0 <= j < 3 + k
      ensures Keys(row)[j] == cols[j]
    {
      if 3 <= j {
        assert row[j] == ColumnFields(ranges[..k], draw)[j - 3];
        assert cols[j] == Names(ranges)[j - 3];
      }
    }
  }

  /** A name at position `p` of a duplicate-free sequence is not among the
      names before it. */
  lemma NotBefore(s: seq<string>, p: int)
    requires Distinct(s) && 0 <= p < |s|
    ensures s[p] !in s[..p]
  {
    forall j | 0 <= j < p
      ensures s[..p][j] != s[p]
    {
    }
  }

  /** The entries of columns 0..k are those of columns 0..k-1 followed by
      the entry of column `k`. */
  lemma ColumnFieldsSnoc(ranges: seq<Range>, draw: nat -> real, k: int)
    requires 0 <= k < |ranges|
    ensures ColumnFields(ranges[..k + 1], draw)
         == ColumnFields(ranges[..k], draw) + [Field(ranges[k].name, Num(ColumnValue(ranges[k], draw(k))))]
  {
    var before, after := ColumnFields(ranges[..k], draw), ColumnFields(ranges[..k + 1], draw);
    var entry := Field(ranges[k].name, Num(ColumnValue(ranges[k], draw(k))));
    forall j | 0 <= j < k + 1
      ensures (before + [entry])[j] == after[j]
    {
      assert ranges[..k + 1][j] == ranges[j];
      if j < k {
        assert ranges[..k][j] == ranges[j];
      }
    }
  }

  /** One pass of the column loop: when the column names are distinct,
      assigning column `k` appends its entry after those of columns 0..k-1. */
  lemma ColumnStep(timestamp: int, chamber: string, step: string, ranges: seq<Range>,
                   draw: nat -> real, k: int)
    requires Distinct(Columns(ranges))
    requires 0 <= k < |ranges|
    ensures Put(Base(timestamp, chamber, step) + ColumnFields(ranges[..k], draw),
                ranges[k].name, Num(ColumnValue(ranges[k], draw(k))))
         == Base(timestamp, chamber, step) + ColumnFields(ranges[..k + 1], draw)
  {
    var row := Base(timestamp, chamber, step) + ColumnFields(ranges[..k], draw);
    var entry := Field(ranges[k].name, Num(ColumnValue(ranges[k], draw(k))));
    PrefixKeys(timestamp, chamber, step, ranges, draw, k);
    NotBefore(Columns(ranges), 3 + k);
    assert Columns(ranges)[3 + k] == ranges[k].name;
    PutFresh(row, entry.name, entry.value);
    ColumnFieldsSnoc(ranges, draw, k);
  }

  /** The final assignment of the row builder: the label column is new, so it
      is appended last. */
  lemma LabelStep(timestamp: int, chamber: string, step: string, ranges: seq<Range>,
                  draw: nat -> real, coin: real)
    requires Distinct(Columns(ranges))
    ensures Put(Base(timestamp, chamber, step) + ColumnFields(ranges, draw), LabelColumn, Num(Label(coin)))
         == MakeRow(timestamp, chamber, step, ranges, draw, coin)
  {
    var row := Base(timestamp, chamber, step) + ColumnFields(ranges, draw);
    PrefixKeys(timestamp, chamber, step, ranges, draw, |ranges|);
    assert ranges[..|ranges|] == ranges;
    NotBefore(Columns(ranges), 3 + |ranges|);
    PutFresh(row, LabelColumn, Num(Label(coin)));
  }

  // ---------------------------------------------------------------------
  // The generation loop as a recursive function
  // ---------------------------------------------------------------------

  /** The first `n` rows: row `i` is stamped `start + i` and carries step
      `steps[i % |steps|]` and the draws of row `i`. */
  function Rows(chamber: string, ranges: seq<Range>, steps: seq<string>, n: int, start: int,
                uniform: nat -> nat -> real, coin: nat -> real): (rows: seq<Record>)
    requires |steps| > 0
    ensures |rows| == if n <= 0 then 0 else n
    decreases n
  {
    if n <= 0 then []
    else
      Rows(chamber, ranges, steps, n - 1, start, uniform, coin)
        + [MakeRow(start + (n - 1), chamber, steps[(n - 1) % |steps|], ranges, uniform(n - 1), coin(n - 1))]
  }

  lemma {:induction false} RowsAt(chamber: string, ranges: seq<Range>, steps: seq<string>, n: int, start: int,
                                  uniform: nat -> nat -> real, coin: nat -> real, i: int)
    requires |steps| > 0
    requires 0 <= i < n
    ensures Rows(chamber, ranges, steps, n, start, uniform, coin)[i]
         == MakeRow(start + i, chamber, steps[i % |steps|], ranges, uniform(i), coin(i))
    decreases n
  {
    var prev := Rows(chamber, ranges, steps, n - 1, start, uniform, coin);
    var last := MakeRow(start + (n - 1), chamber, steps[(n - 1) % |steps|], ranges, uniform(n - 1), coin(n - 1));
    assert Rows(chamber, ranges, steps, n, start, uniform, coin) == prev + [last];
    if i < n - 1 {
      RowsAt(chamber, ranges, steps, n - 1, start, uniform, coin, i);
      assert (prev + [last])[i] == prev[i];
    }
  }

  /** A row's bounded fields: each measured entry is named after its range,
      lies inside it and has at most five digits after the decimal point. */
  predicate InRange(f: Field, r: Range)
  {
    f.name == r.name && f.value.Num? && r.low <= f.value.x <= r.high && OnGrid(f.value.x)
  }

  /** Whatever the configuration, a row's entry for a well-formed range whose
      unit sample lies in [0, 1) stays inside that range. */
  lemma RowWithinRange(timestamp: int, chamber: string, step: string, ranges: seq<Range>,
                       draw: nat -> real, coin: real, k: int)
    requires 0 <= k < |ranges|
    requires WellFormed(ranges[k]) && 0.0 <= draw(k) < 1.0
    ensures InRange(MakeRow(timestamp, chamber, step, ranges, draw, coin)[k + 3], ranges[k])
  {
    ColumnValueInRange(ranges[k], draw(k));
    assert MakeRow(timestamp, chamber, step, ranges, draw, coin)[k + 3] == ColumnFields(ranges, draw)[k];
  }

  /** A usable column table: the sixteen names of a row are pairwise
      distinct, so every assignment appends, and every range is well-formed. */
  predicate ConfigOk(ranges: seq<Range>)
  {
    Distinct(Columns(ranges)) && forall k :: 0 <= k < |ranges| ==> WellFormed(ranges[k])
  }

  /** All twenty-four configured bounds are multiples of 10^-5, low below high. */
  lemma DefaultRangesWellFormed()
    ensures |ValueRanges| == 12
    ensures forall k :: 0 <= k < |ValueRanges| ==> WellFormed(ValueRanges[k])
  {
  }

  /** The sixteen column names of a row are pairwise distinct. */
  lemma DefaultColumnsDistinct()
    ensures Distinct(Columns(ValueRanges))
  {
    assert Columns(ValueRanges) == [
      "timestamp", "chamber", "step",
      "ESC_Bias_Voltage", "ESC_Clamp_Voltage", "ESC_Coolant_Flow_AI", "ESC_Current_Temp",
      "Inner_ESC_Heater_Temp", "Inner_ESC_Temp_Output_Value", "MidInner_ESC_Heater_Temp",
      "MidInner_ESC_Temp_Output_Value", "MidOuter_ESC_Heater_Temp", "MidOuter_ESC_Temp_Output_Value",
      "Outer_ESC_Heater_Temp", "Outer_ESC_Temp_Output_Value", LabelColumn];
  }

  /** The configured table is usable. */
  lemma DefaultConfigOk()
    ensures |ValueRanges| == 12
    ensures ConfigOk(ValueRanges)
  {
    DefaultRangesWellFormed();
    DefaultColumnsDistinct();
  }

  /** Row `i` of a generation: stamped `start + i`, tagged with the chamber
      and with step `steps[i mod |steps|]`, holding the columns in order, every
      measured entry inside its range when its unit sample lies in [0, 1),
      and the label 1.0 exactly when the label draw is below 0.01. */
  lemma GeneratedRow(chamber: string, ranges: seq<Range>, steps: seq<string>, n: int, start: int,
                     uniform: nat -> nat -> real, coin: nat -> real, i: int)
    requires ConfigOk(ranges) && |steps| > 0
    requires 0 <= i < n
    ensures var row := Rows(chamber, ranges, steps, n, start, uniform, coin)[i];
      && row == MakeRow(start + i, chamber, steps[i % |steps|], ranges, uniform(i), coin(i))
      && Keys(row) == Columns(ranges)
      && |row| == |ranges| + 4
      && row[0] == Field("timestamp", Time(start + i))
      && row[1] == Field("chamber", Text(chamber))
      && row[2] == Field("step", Text(steps[i % |steps|]))
      && row[|ranges| + 3] == Field(LabelColumn, Num(Label(coin(i))))
      && forall k :: 0 <= k < |ranges| && 0.0 <= uniform(i)(k) < 1.0 ==> InRange(row[k + 3], ranges[k])
  {
    var step := steps[i % |steps|];
    RowsAt(chamber, ranges, steps, n, start, uniform, coin, i);
    RowKeys(start + i, chamber, step, ranges, uniform(i), coin(i));
    forall k | 0 <= k < |ranges| && 0.0 <= uniform(i)(k) < 1.0
      ensures InRange(MakeRow(start + i, chamber, step, ranges, uniform(i), coin(i))[k + 3], ranges[k])
    {
      RowWithinRange(start + i, chamber, step, ranges, uniform(i), coin(i), k);
    }
  }

  /** Every row of a generation with the configured steps. */
  lemma GeneratedRows(chamber: string, ranges: seq<Range>, steps: seq<string>, n: int, start: int,
                      uniform: nat -> nat -> real, coin: nat -> real)
    requires ConfigOk(ranges) && steps == Steps
    ensures var rows := Rows(chamber, ranges, steps, n, start, uniform, coin);
      forall i :: 0 <= i < |rows| ==>
        && Keys(rows[i]) == Columns(ranges)
        && |rows[i]| == |ranges| + 4
        && rows[i][0] == Field("timestamp", Time(start + i))
        && rows[i][1] == Field("chamber", Text(chamber))
        && rows[i][2] == Field("step", Text(if i % 2 == 0 then "SION" else "SION_OE"))
        && rows[i][|ranges| + 3] == Field(LabelColumn, Num(Label(coin(i))))
        && forall k :: 0 <= k < |ranges| && 0.0 <= uniform(i)(k) < 1.0 ==>
             InRange(rows[i][k + 3], ranges[k])
  {
    var rows: seq<Record> := Rows(chamber, ranges, steps, n, start, uniform, coin);
    forall i | 0 <= i < |rows| {
      GeneratedRow(chamber, ranges, steps, n, start, uniform, coin, i);
    }
  }

  // ---------------------------------------------------------------------
  // The generator object
  // ---------------------------------------------------------------------

  class SyntheticEscDataGenerator {
    const chamber: string
    const valueRanges: seq<Range>
    const steps: seq<string>

    /** The configuration every generator is built with. */
    ghost predicate Valid()
    {
      ConfigOk(valueRanges) && steps == Steps
    }

    constructor (chamber: string := DefaultChamber)
      ensures this.chamber == chamber && valueRanges == ValueRanges && steps == Steps
      ensures Valid()
    {
      this.chamber := chamber;
      valueRanges := ValueRanges;
      steps := Steps;
      DefaultConfigOk();
    }

    /** Builds one record: the timestamp, chamber and step entries, then one
        rounded draw per configured column, then the label. */
    method GenerateRow(timestamp: int, step: string, draw: nat -> real, coin: real) returns (row: Record)
      requires Valid()
      ensures row == MakeRow(timestamp, chamber, step, valueRanges, draw, coin)
      ensures Keys(row) == Columns(valueRanges)
    {
      var base := Base(timestamp, chamber, step);
      row := base;
      var k := 0;
      while k < |valueRanges|
        invariant 0 <= k <= |valueRanges|
        invariant row == base + ColumnFields(valueRanges[..k], draw)
      {
        var r := valueRanges[k];
        ColumnStep(timestamp, chamber, step, valueRanges, draw, k);
        row := Put(row, r.name, Num(Round5(Uniform(r.low, r.high, draw(k)))));
        k := k + 1;
      }
      assert valueRanges[..k] == valueRanges;
      LabelStep(timestamp, chamber, step, valueRanges, draw, coin);
      row := Put(row, LabelColumn, Num(Label(coin)));
      RowKeys(timestamp, chamber, step, valueRanges, draw, coin);
    }

    /** Generates `nRows` rows (none when `nRows <= 0`) starting at `start`,
        one second apart, alternating the two steps. */
    method Generate(nRows: int := DefaultRows, start: int := DefaultStart,
                    uniform: nat -> nat -> real, coin: nat -> real) returns (rows: seq<Record>)
      requires Valid()
      ensures rows == Rows(chamber, valueRanges, steps, nRows, start, uniform, coin)
      ensures |rows| == if nRows <= 0 then 0 else nRows
      ensures forall i :: 0 <= i < |rows| ==>
        && Keys(rows[i]) == Columns(valueRanges)
        && |rows[i]| == |valueRanges| + 4
        && rows[i][0] == Field("timestamp", Time(start + i))
        && rows[i][1] == Field("chamber", Text(chamber))
        && rows[i][2] == Field("step", Text(if i % 2 == 0 then "SION" else "SION_OE"))
        && rows[i][|valueRanges| + 3] == Field(LabelColumn, Num(Label(coin(i))))
        && forall k :: 0 <= k < |valueRanges| && 0.0 <= uniform(i)(k) < 1.0 ==>
             InRange(rows[i][k + 3], valueRanges[k])
    {
      rows := [];
      var timestamp := start;
      var i := 0;
      while i < nRows
        invariant 0 <= i && (nRows <= 0 ==> i == 0) && (0 < nRows ==> i <= nRows)
        invariant timestamp == start + i
        invariant rows == Rows(chamber, valueRanges, steps, i, start, uniform, coin)
      {
        var step := steps[i % |steps|];
        var row := GenerateRow(timestamp, step, uniform(i), coin(i));
        rows := rows + [row];
        timestamp := timestamp + 1;
        i := i + 1;
      }
      assert rows == Rows(chamber, valueRanges, steps, nRows, start, uniform, coin) by {
        if nRows <= 0 {
          assert i == 0;
        } else {
          assert i == nRows;
        }
      }
      GeneratedRows(chamber, valueRanges, steps, nRows, start, uniform, coin);
    }
  }

  /** The module's example use: ten rows for the default chamber starting at
      2025-07-01 08:00:00 (1751356800 seconds). */
  method Example(uniform: nat -> nat -> real, coin: nat -> real) returns (rows: seq<Record>)
    ensures |rows| == 10 && forall i :: 0 <= i < 10 ==> |rows[i]| == 16
    ensures rows[0][0] == Field("timestamp", Time(1751356800))
    ensures rows[9][0] == Field("timestamp", Time(1751356809))
    ensures forall i :: 0 <= i < 10 ==> rows[i][1] == Field("chamber", Text("Chamber_1"))
    ensures rows[0][2] == Field("step", Text("SION")) && rows[9][2] == Field("step", Text("SION_OE"))
  {
    var gen := new SyntheticEscDataGenerator();
    rows := gen.Generate(10, 1751356800, uniform, coin);
  }
}
