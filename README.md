# Synthetic ESC telemetry generator — Dafny model

The repository produces synthetic electrostatic-chuck (ESC) telemetry for
remaining-useful-life experiments. Its core is the class
`SyntheticESCDataGenerator` in `data_generator.py`:

- the constructor fixes a chamber name (default `Chamber_1`), a table of twelve
  measured columns, each with a `[low, high]` range, and the two process steps
  `SION` and `SION_OE`;
- `_generate_row` builds one row as a dictionary: timestamp, chamber, step,
  then for every configured column a uniform draw in its range rounded to five
  decimals, then the label `Possible_ESC_Thermal_Stress`, which is `1.0` when a
  `random.random()` draw falls below `0.01` and `0.0` otherwise;
- `generate` produces `n_rows` such rows, one second apart from the start time,
  alternating the steps (`SION` first).

The model has two modules:

- `Records` (`records.dfy`): a Python dictionary as an insertion-ordered
  sequence of entries. `Put` is `d[name] = v`, `Lookup` is `d[name]`.
- `DataGenerator` (`data_generator.dfy`):
  - the configuration constants;
  - sampling, where `np.random.uniform` is given its unit sample and
    `np.round(x, 5)` is round-half-to-even at 10^-5;
  - the row layout;
  - the recursive specification `Rows` of the generation loop;
  - the class `SyntheticEscDataGenerator`, whose methods `GenerateRow` and
    `Generate` are the two source loops, proved against that specification.

Randomness is a parameter. `uniform(i)(k)` is the unit sample that numpy
scales into column `k` of row `i`. `coin(i)` is the `random.random()` draw
for row `i`'s label. Timestamps are whole seconds since 1970-01-01 (naive
time), and measured values are mathematical reals.

## Model

| member | source | states |
|---|---|---|
| `Records.Put` | data_generator.py:37-41 | dictionary assignment: the key order is unchanged when the key is already present, and otherwise the new key is appended last |
| `Records.Lookup` | data_generator.py:37-41 | Python's dictionary read `d[name]`, which the source never calls; it gives the assignments on these lines their meaning: it finds a value exactly when `name` is one of the record's keys |
| `Records.PutLookup` | data_generator.py:37-41 | after `d[name] = v`, `d[name]` is `v` and every other key reads as before |
| `Records.PutFresh` | data_generator.py:37-41 | assigning a key the dictionary does not hold appends exactly that one entry at the end |
| `DataGenerator.SyntheticEscDataGenerator.constructor` | data_generator.py:7-27 | the chamber is the argument (default `Chamber_1`), the column table is the twelve configured ranges in source order, and the steps are `["SION", "SION_OE"]`; this configuration satisfies `Valid` |
| `DataGenerator.DefaultRangesWellFormed` | data_generator.py:11-24 | there are twelve configured ranges, each with low ≤ high and both ends multiples of 10^-5 |
| `DataGenerator.DefaultColumnsDistinct` | data_generator.py:11-41 | the sixteen keys a row receives (timestamp, chamber, step, the twelve columns, the label) are pairwise distinct |
| `DataGenerator.DefaultConfigOk` | data_generator.py:11-27 | the configured table is usable: twelve well-formed ranges and distinct row keys |
| `DataGenerator.RoundHalfEven` | data_generator.py:38 | the rounding numpy applies: the result is within 1/2 of the input, and an exact tie goes to the even integer |
| `DataGenerator.Round5` | data_generator.py:38 | `np.round(x, 5)` gives a multiple of 10^-5 within 5·10^-6 of `x` |
| `DataGenerator.RoundStaysInRange` | data_generator.py:38 | rounding to five decimals cannot leave a range whose ends are multiples of 10^-5 |
| `DataGenerator.UniformInRange` | data_generator.py:38 | `Uniform`, which models `np.random.uniform(low, high)` as `low + (high - low) * u`, lies in [low, high] for a unit sample `u` in [0, 1) |
| `DataGenerator.ColumnValueInRange` | data_generator.py:38 | `ColumnValue`, the whole right-hand side of the assignment (the draw rounded to five decimals), lies in its configured [low, high] and is a multiple of 10^-5 |
| `DataGenerator.Label` | data_generator.py:41 | the label is 0.0 or 1.0, and is 1.0 exactly when the draw is below 0.01 |
| `DataGenerator.MakeRow` | data_generator.py:29-43 | a row has one entry per configured column plus four (timestamp, chamber, step, label) |
| `DataGenerator.RowKeys` | data_generator.py:30-41 | starting from `Base`, the dictionary literal of lines 30-34, a row's keys are, in order, timestamp, chamber, step, the configured columns in table order, then `Possible_ESC_Thermal_Stress` |
| `DataGenerator.ColumnStep` | data_generator.py:37-38 | with distinct keys, one pass of the column loop appends that column's entry after those of the earlier columns |
| `DataGenerator.LabelStep` | data_generator.py:41 | the label assignment appends the label as the last entry, completing the row |
| `DataGenerator.RowWithinRange` | data_generator.py:37-38 | for any configuration, a row's entry for a well-formed range, given a unit sample, is named after that range, lies inside it and is a multiple of 10^-5 |
| `DataGenerator.SyntheticEscDataGenerator.GenerateRow` | data_generator.py:29-43 | the loop-built dictionary equals the row layout: base entries, one rounded draw per column in table order, the label last; its keys are the column order |
| `DataGenerator.Rows` | data_generator.py:46-53 | the generation loop as a recursive function: `max(n, 0)` rows, each extending the previous ones by one |
| `DataGenerator.RowsAt` | data_generator.py:49-53 | row `i` is the row built with timestamp `start + i`, step `steps[i mod len(steps)]` and row `i`'s draws |
| `DataGenerator.GeneratedRow` | data_generator.py:30-53 | row `i`: keys in column order, timestamp `start + i`, the generator's chamber, step `steps[i mod len(steps)]`, every column within its range and a multiple of 10^-5 given a unit sample, label 1.0 exactly when the draw is below 0.01 |
| `DataGenerator.GeneratedRows` | data_generator.py:30-53 | with the configured steps, every row `i` has step `SION` when `i` is even and `SION_OE` when odd, plus the facts of `GeneratedRow` |
| `DataGenerator.SyntheticEscDataGenerator.Generate` | data_generator.py:45-55 | the loop's result equals `Rows`, so there are `max(n_rows, 0)` rows; row `i` is stamped `start + i`, carries the constant chamber and step `SION`/`SION_OE` by parity, its keys are in column order, its values are within range and multiples of 10^-5 given unit samples, and its label is 1.0 exactly when its draw is below 0.01 |
| `DataGenerator.Example` | data_generator.py:59-61 | the module's example yields ten sixteen-entry rows for `Chamber_1`, stamped 2025-07-01 08:00:00 through 08:00:09, the first with step `SION` and the last with `SION_OE` |

The generator's `chamber`, `valueRanges` and `steps` are `const` fields set
only by the constructor, and `GenerateRow` and `Generate` have no `modifies`
clause. Generating therefore cannot change the configuration (data_generator.py:45-55).

## Left out

- Parsing of `start_time` by `pd.to_datetime` (data_generator.py:47) is not
  modelled. The start is given as an integer count of seconds, and the
  defaults `2025-06-10 00:00:00` and `2025-07-01 08:00:00` are written as
  1749513600 and 1751356800. Sub-second timestamps and time zones are not
  modelled.
- DataGenerator.SyntheticEscDataGenerator.Generate: does not model the bounds
  of `pd.Timestamp`, which counts nanoseconds in a 64-bit integer and so spans
  1677-09-21 00:12:43.145224193 to 2262-04-11 23:47:16.854775807. The increment
  at data_generator.py:53 runs after every row, the last one included. So the
  source raises `OutOfBoundsDatetime` and returns nothing once `start + n_rows`
  passes the upper bound: `generate(1, "2262-04-11 23:47:16")` is one such call.
  It also raises for a start before the lower bound. The model's timestamps are
  unbounded integers: for those inputs `Generate` returns rows instead of
  failing.
- Building the `pd.DataFrame` (data_generator.py:55) is not modelled; `Generate`
  returns the list of row dictionaries that the DataFrame is built from. When
  `n_rows <= 0` that list is empty, and `pd.DataFrame([])` has no columns.
- The entropy sources `np.random.uniform` and `random.random` are not
  modelled; their draws are parameters. The statistical claims (about 1% of
  labels set, uniform spread of values) are not modelled.
- IEEE-754 floating point is not modelled: values, the 0.01 threshold and the
  rounding are exact reals. In floating point, `np.round` scales by 10^5,
  rounds and divides. The division can change the last bit. Near a tie, the
  inexact scaling can also move the value across the halfway point, so the
  result can be the neighbouring multiple of 10^-5: the double written
  `3.500015` lies just below 3.500015, where the exact rounding gives 3.50001,
  but its scaled value is exactly 350001.5 in floating point and numpy returns
  3.50002. The facts proved here (inside the range, a multiple of 10^-5) hold
  for either neighbour.
- Unit samples are taken in [0, 1), the interval numpy documents. The range
  facts are stated only for samples in that interval; rows built from other
  samples are still described by `Rows`, but their values are not bounded.
- The `print(df)` of the module's example (data_generator.py:62) is I/O and is
  left out.
- Python's type flexibility: `n_rows` is an integer, and other argument types
  (which make `range` raise) are not modelled.
