# ozinfo2yaml in Dafny

A model of `ush/ozinfo2yaml.py`, the script that turns a GSI ozinfo table into one
YAML description per ozone sensor whose GSI diag file is present. The model covers:

- `read_ozinfo`: reading the table into three parallel lists (sensor name, level, use
  flag), then the pass that marks total-column levels with 0;
- `main`:
  - deriving the diag-file suffix from the first listed file;
  - choosing the data-type label;
  - de-duplicating and sorting the sensor names (`np.unique`);
  - locating each sensor's rows (`np.where`);
  - building the expected diag-file path and skipping a sensor whose file is not listed;
  - filtering entries by use flag and the monitor option;
  - naming the output file.

Inputs are values:

- the table is its list of lines, each without its terminator;
- the directory listing is the list `glob` returned, in its order;
- the command-line options are a `Config` record.

A run is modelled as two things:

- the (output file, document) pairs the script writes, in order;
- the exception that ended it, if one did.

Files written before an exception stay on disk, so both are kept.

Modules:

- `Base`: `Option`, `Result` and the exceptions the script can raise.
- `Text`: Python's `str.split()`, `str.split(sep)`, `int()`, `os.path.join` and
  `os.path.basename`.
- `NumPy`: `np.unique` on strings (code-point order) and `np.where`.
- `OzInfo`: `read_ozinfo`, with the first csv field of a row (`Fields`), as a fold over the lines (`ParseLines`, `OzinfoTable`) and
  as the source's two loops (`ReadRows` with `ReadRow`, `NormalizeLevels`, combined
  in `ReadOzinfo`), proved equal.
- `DiagFiles`: the suffix, the expected diag-file path and the output file name.
- `Documents`: the documents, one sensor's step, and `main`. `main` is modelled two
  ways, proved equal:
  - as a fold over the sorted sensors (`Script`);
  - as the source's loops (`Ozinfo2Yaml`, `WriteDocuments`, `SensorOzone`).

### Where the code and its description differ (the model follows the code)

- **Short rows.** A row with one or two fields is not the end of the data.
  - The `except IndexError: pass` moves on to the next row.
  - Every later row is still read (`OzInfo.ParseLinesAppend`).
  - What the short row appended before the missing field stays in the lists.
  - So the three lists have equal length exactly when no row is short
    (`OzInfo.EqualLengthsIffNoShortRow`).
  - When the lists differ in length, the fancy indexing at lines 74-75 can raise
    IndexError for a listed sensor. The model reports this as `LevelIndexError`.
- **Levels 1, 2, 3 of one sensor.** Rows with these levels are left as they are
  (`OzInfo.NormalizedIncreasing`). A position becomes 0 only when its successor is
  not strictly greater.
- **Output file name.** For a sensor name without '.', the name is the prefix, then
  `diag_<sensor>_<loop>`, then `.yaml`. The cycle is not in it
  (`DiagFiles.OutputFileOfSensor`).
- **Sensor names with a '.'.** Line 86 cuts the diag file's basename at its first '.'.
  For a sensor `a.b`, the output file is therefore the prefix, then `diag_a`, then
  `.yaml` (`DiagFiles.OutputFileOfDottedSensor`).
  - Sensors `a.b` and `a.c` write the same file.
  - The later sensor's document overwrites the earlier one's
    (`DiagFiles.OutputFileCollision`).
- **Sensor order.** Sensors are processed in sorted order, since `np.unique` sorts.
  They are not processed in first-appearance order.
- **Error on an empty listing.** An empty listing raises a bare IndexError, as
  does a first file without a '.'. These are the `NoDiagFiles` and `NoDotInName`
  errors.

## Model

| member | source | states |
|---|---|---|
| Text.Words | ush/ozinfo2yaml.py:22 | every field `split()` returns is non-empty and free of whitespace |
| Text.WordsUnwords | ush/ozinfo2yaml.py:22 | splitting on whitespace gives back any list of fields written out with single spaces |
| Text.WordsBlankFront | ush/ozinfo2yaml.py:22 | leading whitespace of any length is dropped by `split()` |
| Text.WordsWordFront | ush/ozinfo2yaml.py:22 | a word followed by a whitespace character is the first field, and splitting goes on after it |
| Text.WordsLayout | ush/ozinfo2yaml.py:22 | `split()` gives back the words of any layout: any leading and trailing whitespace, and any non-empty whitespace between words, as in column-aligned rows |
| Text.WordsCover | ush/ozinfo2yaml.py:22 | `split()` drops only whitespace: every string is its fields laid out with whitespace before, between (at least one character) and after them |
| Text.Split | ush/ozinfo2yaml.py:44 | `split('.')` gives at least one piece, exactly one when there is no '.', and no piece holds a '.' |
| Text.JoinSplit | ush/ozinfo2yaml.py:44 | joining the pieces with the separator rebuilds the string |
| Text.SplitJoin | ush/ozinfo2yaml.py:44 | splitting a join of separator-free pieces gives the pieces back |
| Text.SplitAround | ush/ozinfo2yaml.py:44 | the pieces of `a.b` are the pieces of `a` followed by those of `b` |
| Text.Before | ush/ozinfo2yaml.py:86 | `split('.')[0]` is a separator-free prefix that ends at the first separator or at the end |
| Text.BeforeIsFirstPiece | ush/ozinfo2yaml.py:86 | the text before the first separator is the first piece of the split |
| Text.ParseShowInt | ush/ozinfo2yaml.py:24-25 | `int()` reads back every integer as Python prints it |
| Text.ParseIntRejects | ush/ozinfo2yaml.py:24-25 | a field with a character other than a digit or a leading sign is refused |
| Text.BasenameOfJoin | ush/ozinfo2yaml.py:63-65 | the basename of a joined path is the name that was joined |
| NumPy.LessTotal | ush/ozinfo2yaml.py:55 | any two different names are ordered one way and not the other |
| NumPy.Unique | ush/ozinfo2yaml.py:55 | `np.unique` gives a strictly increasing list holding exactly the names of the input |
| NumPy.SortedListsWithSameElements | ush/ozinfo2yaml.py:55 | a strictly increasing list is fixed by its elements, so the unique list is the only possible one |
| NumPy.Where | ush/ozinfo2yaml.py:60 | `np.where` lists every position holding the name and no other, in increasing order |
| OzInfo.RowContribution | ush/ozinfo2yaml.py:19-27 | what one line appends, by field count: nothing for a comment or blank row, the sensor for one field, sensor and level for two, all three for three or more; a bad integer raises ValueError |
| OzInfo.ParseLinesAppend | ush/ozinfo2yaml.py:20-27 | reading a table in two parts is reading it whole: a short row does not stop the read, a ValueError does |
| OzInfo.CommentIgnored | ush/ozinfo2yaml.py:19 | a line starting with '!' contributes nothing wherever it stands |
| OzInfo.ListLengths | ush/ozinfo2yaml.py:22-25 | the sensor list exceeds the use-flag list by the number of short rows, and the level list by the number of two-field rows |
| OzInfo.EqualLengthsIffNoShortRow | ush/ozinfo2yaml.py:20-27 | the three lists have equal length exactly when no row has one or two fields |
| OzInfo.Normalized | ush/ozinfo2yaml.py:31-33 | normalisation keeps the number of levels |
| OzInfo.NormalizedKeepsOrZeroes | ush/ozinfo2yaml.py:31-33 | every level is kept or set to 0, and the last level is always kept |
| OzInfo.NormalizedIncreasing | ush/ozinfo2yaml.py:31-33 | a strictly increasing list of levels is unchanged |
| OzInfo.ParseLinesStops | ush/ozinfo2yaml.py:20-27 | once a row raises ValueError, the lines after it do not change the outcome |
| OzInfo.ReadRow | ush/ozinfo2yaml.py:21-27 | the try block appends to the lists read so far exactly what the row contributes, or raises its ValueError |
| OzInfo.ReadRows | ush/ozinfo2yaml.py:20-27 | the row loop computes the fold over the lines, stopping at the first ValueError |
| OzInfo.NormalizeLevels | ush/ozinfo2yaml.py:31-33 | the in-place zeroing loop computes `Normalized` of the levels as read, although it overwrites positions it has passed |
| OzInfo.ReadOzinfo | ush/ozinfo2yaml.py:13-34 | `read_ozinfo` returns the lists read from the lines with their levels normalised, or the ValueError that stopped the read |
| DiagFiles.DeriveSuffixFails | ush/ozinfo2yaml.py:44-45 | the suffix cannot be derived exactly when the listing is empty or the first basename has no '.' |
| DiagFiles.SuffixRoundTrip | ush/ozinfo2yaml.py:44-65 | for a first file `diag_S_L.<10-char cycle>T.E`, the derived suffix is `T.E` and the path rebuilt for S, L and the cycle is that file |
| DiagFiles.OutputFileOfSensor | ush/ozinfo2yaml.py:86-87 | for sensor and loop names without '.', the output file is the prefix, `diag_<sensor>_<loop>` and `.yaml`, whatever the cycle and suffix |
| DiagFiles.OutputFileOfDottedSensor | ush/ozinfo2yaml.py:86-87 | for a sensor `head.tail`, the output file is the prefix, `diag_<head>` and `.yaml`: the loop, cycle and the rest of the name are cut off |
| DiagFiles.OutputFileCollision | ush/ozinfo2yaml.py:86-87 | two sensors that agree up to a '.' write the same output file |
| Documents.DataTypeLabelCases | ush/ozinfo2yaml.py:48-53 | `obs` gives observation and `hofx` gives hofx whatever the loop; any other variable gives oma for loop `anl`, omf otherwise |
| Documents.AsWrittenFailsOnKeptEntries | ush/ozinfo2yaml.py:77-82 | as written, an entry raises NameError exactly when the intended code keeps it, and agrees with it otherwise |
| Documents.AsWrittenCounterexample | ush/ozinfo2yaml.py:79-82 | an assimilated level-5 entry: descriptor `[5]` intended, NameError as written |
| Documents.OzoneAsWrittenFails | ush/ozinfo2yaml.py:74-84 | as written, a sensor's list is built only when none of its entries is kept (and is then empty); otherwise NameError |
| Documents.OzoneAsWrittenCounterexample | ush/ozinfo2yaml.py:74-84 | a one-row table with use flag 1 at level 5: intended list `[{layer: [5]}]`, NameError as written |
| Documents.KeptLevelsMembers | ush/ozinfo2yaml.py:74-84 | a level is listed exactly when some row of the sensor with that level is assimilated or monitoring is on |
| Documents.KeptLevelsMonitorAll | ush/ozinfo2yaml.py:77-78 | with monitoring on, the document has one level per row of the sensor |
| Documents.Descriptors | ush/ozinfo2yaml.py:79-82 | one descriptor per level, holding that level and bias correction on |
| Documents.FitsIffIndexesFit | ush/ozinfo2yaml.py:74-75 | the indexing of lines 74-75 succeeds exactly when every row of the sensor has a level and a use flag |
| Documents.OzoneIsKeptLevels | ush/ozinfo2yaml.py:60-84 | the ozone list built from the `np.where` positions is the descriptors of the sensor's kept levels, in table order |
| Documents.SensorStepCases | ush/ozinfo2yaml.py:57-87 | one sensor is skipped exactly when its diag file is not listed; fails exactly when it is listed and a row lacks a level or use flag; otherwise yields its document |
| Documents.CollectSound | ush/ozinfo2yaml.py:57-92 | every file written comes from a sensor step that emitted it |
| Documents.CollectComplete | ush/ozinfo2yaml.py:57-92 | a run that ends without exception took no failing step and wrote every emitted document |
| Documents.CollectFailure | ush/ozinfo2yaml.py:57-92 | a run ends with an exception only when some step failed with it |
| Documents.CollectFrom | ush/ozinfo2yaml.py:57-67 | the run from a sensor on is that sensor's step followed by the rest: skip, stop, or write then continue |
| Documents.RunSound | ush/ozinfo2yaml.py:57-92 | every document written belongs to a sensor of the table whose diag file is listed |
| Documents.RunComplete | ush/ozinfo2yaml.py:57-92 | a run without exception writes the document of every sensor whose diag file is listed |
| Documents.RunFailure | ush/ozinfo2yaml.py:57-92 | a run fails only at a listed sensor with a row missing a level or use flag, so never when the lists have equal length |
| Documents.ScriptDocuments | ush/ozinfo2yaml.py:37-92 | the whole script: table or suffix errors end it before any write; otherwise sound and complete documents, and no failure when no row is short |
| Documents.WriteDocuments | ush/ozinfo2yaml.py:55-92 | the loop over the sorted distinct sensors produces the run the steps describe: skips, documents in order, and a stop at the first failing sensor |
| Documents.SensorOzone | ush/ozinfo2yaml.py:73-84 | the source's entry loop builds the intended ozone list |
| Documents.Ozinfo2Yaml | ush/ozinfo2yaml.py:37-92 | the source's loops over sensors and entries produce exactly the run `Script` describes |

## Left out

- File I/O is not modelled:
  - opening and closing the table;
  - globbing the directory;
  - `yaml.dump` and the written YAML text;
  - the `print` of each output path;
  - argument parsing.

  The table, the listing and the options are parameters. A document is the value
  that would be dumped.
- An unreadable table file and a failed write are not modelled. These are I/O errors.
- csv quoting, escaping and multi-line fields are not modelled. Only the text before a
  line's first ',' is taken as the first field.
- `int()` is modelled on a whitespace-free field, as an optional sign and ASCII digits.
  Underscores between digits and non-ASCII decimal digits are not accepted.
- numpy fixed-width integers are not modelled: levels and use flags are unbounded
  integers.
- numpy's fixed-width string arrays drop trailing NUL characters. The model compares
  names as full strings.
- The glob pattern is not modelled. The model does not check that listed files start
  with `diag_`; they are whatever the listing holds.
- The YAML representation of an `np.int64` level is not modelled. The model keeps the
  integer.

## Findings

| source | as written | input that shows it | evidently intended | confidence | as-written member | corrected member |
|---|---|---|---|---|---|---|
| ush/ozinfo2yaml.py:80 | the descriptor's layer is `int(ilayer)`, a name never bound, so the first kept entry raises NameError and no document with levels is ever written | table line `sbuv2_n19 5 1`, its diag file listed, monitor off | `int(ichan)`, the level of the entry taken from the zip at line 74 | high (not executed) | Documents.OzoneAsWrittenCounterexample | Documents.OzoneIsKeptLevels |
