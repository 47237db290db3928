/** `read_ozinfo`: the GSI ozinfo table read into three parallel lists (sensor name,
    level, use flag), followed by the pass that marks total-column levels with 0.

    A table line is given without its line terminator. Only the text before the first
    comma of a line is looked at, as the first field of the csv row. */
module OzInfo {
  import opened Base
  import opened Text

  /** The three lists `read_ozinfo` returns. They have equal length only when every
      row had at least three fields. */
  datatype Table = Table(sensor: seq<string>, layer: seq<int>, obuse: seq<int>)

  const Empty := Table([], [], [])

  function Concat(a: Table, b: Table): Table {
    Table(a.sensor + b.sensor, a.layer + b.layer, a.obuse + b.obuse)
  }

  /** A comment line: its first character is '!'. */
  predicate IsComment(line: string) {
    |line| > 0 && line[0] == '!'
  }

  /** The whitespace-separated fields of the first comma-separated field of a line. */
  function Fields(line: string): seq<string> {
    Words(Before(line, ','))
  }

  /** A row that leaves the three lists with different lengths: one or two fields. */
  predicate IsShortRow(line: string) {
    !IsComment(line) && 1 <= |Fields(line)| <= 2
  }

  /** What one table line appends to the three lists. The appends happen in the order
      of the source; a missing field raises IndexError, which is caught, and the line
      then contributes what was appended before the miss. A field that `int()` refuses
      raises ValueError, which is not caught. */
  function ParseRow(line: string): Result<Table> {
    if IsComment(line) then Ok(Empty)
    else
      var rowsplit := Fields(line);
      if |rowsplit| == 0 then Ok(Empty)
      else if |rowsplit| == 1 then Ok(Table([rowsplit[0]], [], []))
      else match ParseInt(rowsplit[1])
        case None => Err(ValueError(rowsplit[1]))
        case Some(level) =>
          if |rowsplit| == 2 then Ok(Table([rowsplit[0]], [level], []))
          else match ParseInt(rowsplit[2])
            case None => Err(ValueError(rowsplit[2]))
            case Some(use) => Ok(Table([rowsplit[0]], [level], [use]))
  }

  /** What a line contributes, by the number of fields its first comma-separated field
      has: nothing for a comment or an empty row; the sensor alone for one field; sensor
      and level for two; one entry in each list for three or more, extra fields ignored. */
  lemma RowContribution(line: string)
    ensures IsComment(line) ==> ParseRow(line) == Ok(Empty)
    ensures !IsComment(line) && |Fields(line)| == 0 ==> ParseRow(line) == Ok(Empty)
    ensures !IsComment(line) && |Fields(line)| == 1 ==>
      ParseRow(line) == Ok(Table([Fields(line)[0]], [], []))
    ensures !IsComment(line) && |Fields(line)| == 2 ==>
      var f := Fields(line);
      ParseRow(line) == (if ParseInt(f[1]).Some?
                         then Ok(Table([f[0]], [ParseInt(f[1]).value], []))
                         else Err(ValueError(f[1])))
    ensures !IsComment(line) && |Fields(line)| >= 3 ==>
      var f := Fields(line);
      ParseRow(line) == (if ParseInt(f[1]).None? then Err(ValueError(f[1]))
                         else if ParseInt(f[2]).None? then Err(ValueError(f[2]))
                         else Ok(Table([f[0]], [ParseInt(f[1]).value], [ParseInt(f[2]).value])))
  {
  }

  /** Reading `a` then `b`: an error in `a` stops the read, otherwise `b` is read on
      and its lists are appended. */
  function AndThen(ra: Result<Table>, rb: Result<Table>): Result<Table> {
    match ra
    case Err(e) => Err(e)
    case Ok(ta) =>
      match rb
      case Err(e) => Err(e)
      case Ok(tb) => Ok(Concat(ta, tb))
  }

  lemma AndThenAssoc(x: Result<Table>, y: Result<Table>, z: Result<Table>)
    ensures AndThen(AndThen(x, y), z) == AndThen(x, AndThen(y, z))
  {
    if x.Ok? && y.Ok? && z.Ok? {
      assert Concat(Concat(x.value, y.value), z.value) == Concat(x.value, Concat(y.value, z.value));
    }
  }

  lemma AndThenEmpty(x: Result<Table>)
    ensures AndThen(x, Ok(Empty)) == x
  {
    if x.Ok? {
      assert Concat(x.value, Empty) == x.value;
    }
  }

  /** The three lists after reading `lines` in order, before normalisation; the first
      ValueError ends the read. */
  function ParseLines(lines: seq<string>): Result<Table> {
    if lines == [] then Ok(Empty)
    else AndThen(ParseLines(lines[..|lines| - 1]), ParseRow(lines[|lines| - 1]))
  }

  /** Reading a table in two parts is reading it whole: every line is read the same way
      whatever came before it, so a short row does not end the read. */
  lemma {:induction false} ParseLinesAppend(a: seq<string>, b: seq<string>)
    ensures ParseLines(a + b) == AndThen(ParseLines(a), ParseLines(b))
    decreases |b|
  {
    if b == [] {
      assert a + b == a;
      AndThenEmpty(ParseLines(a));
    } else {
      var n := |b| - 1;
      assert (a + b)[..|a + b| - 1] == a + b[..n];
      assert (a + b)[|a + b| - 1] == b[n];
      ParseLinesAppend(a, b[..n]);
      AndThenAssoc(ParseLines(a), ParseLines(b[..n]), ParseRow(b[n]));
    }
  }

  /** A comment line contributes nothing, wherever it stands. */
  lemma CommentIgnored(a: seq<string>, comment: string, b: seq<string>)
    requires IsComment(comment)
    ensures ParseLines(a + [comment] + b) == ParseLines(a + b)
  {
    ParseLinesAppend(a + [comment], b);
    ParseLinesAppend(a, [comment]);
    ParseLinesAppend(a, b);
    assert [comment][..0] == [];
    AndThenEmpty(ParseLines(a));
  }

  /** The number of lines among `lines` that satisfy `p`. */
  function CountRows(lines: seq<string>, p: string -> bool): nat {
    if lines == [] then 0
    else CountRows(lines[..|lines| - 1], p) + (if p(lines[|lines| - 1]) then 1 else 0)
  }

  predicate HasTwoFields(line: string) {
    !IsComment(line) && |Fields(line)| == 2
  }

  /** How far the lists drift apart: `sensor` is longer than `obuse` by the number of
      short rows, and `layer` by the number of two-field rows. */
  lemma {:induction false} ListLengths(lines: seq<string>)
    requires ParseLines(lines).Ok?
    ensures var t := ParseLines(lines).value;
      |t.sensor| == |t.obuse| + CountRows(lines, IsShortRow)
      && |t.layer| == |t.obuse| + CountRows(lines, HasTwoFields)
  {
    if lines != [] {
      ListLengths(lines[..|lines| - 1]);
      RowContribution(lines[|lines| - 1]);
    }
  }

  lemma {:induction false} CountRowsZero(lines: seq<string>, p: string -> bool)
    ensures CountRows(lines, p) == 0 <==> forall i :: 0 <= i < |lines| ==> !p(lines[i])
  {
    if lines != [] {
      var init := lines[..|lines| - 1];
      CountRowsZero(init, p);
      assert forall i :: 0 <= i < |init| ==> init[i] == lines[i];
    }
  }

  /** The three lists have equal length exactly when no row has one or two fields. */
  lemma EqualLengthsIffNoShortRow(lines: seq<string>)
    requires ParseLines(lines).Ok?
    ensures var t := ParseLines(lines).value;
      (|t.sensor| == |t.layer| == |t.obuse|)
      <==> forall i :: 0 <= i < |lines| ==> !IsShortRow(lines[i])
  {
    ListLengths(lines);
    CountRowsZero(lines, IsShortRow);
    CountRowsZero(lines, HasTwoFields);
    assert forall line :: HasTwoFields(line) ==> IsShortRow(line);
  }

  // ---------------------------------------------------------------------------
  // Total-column levels
  // ---------------------------------------------------------------------------

  /** The levels after the normalisation pass, position by position: a level whose
      successor is not strictly greater becomes 0 (a total-column value); the last
      level has no successor and stays. */
  function Normalized(levels: seq<int>): (r: seq<int>)
    ensures |r| == |levels|
  {
    seq(|levels|, i requires 0 <= i < |levels| =>
      if i + 1 < |levels| && levels[i + 1] <= levels[i] then 0 else levels[i])
  }

  /** Every level is kept or set to 0, and the last one is always kept. */
  lemma NormalizedKeepsOrZeroes(levels: seq<int>)
    ensures forall i :: 0 <= i < |levels| ==>
      Normalized(levels)[i] == levels[i] || Normalized(levels)[i] == 0
    ensures levels != [] ==> Normalized(levels)[|levels| - 1] == levels[|levels| - 1]
  {
  }

  /** A strictly increasing list of levels is left as it is. */
  lemma NormalizedIncreasing(levels: seq<int>)
    requires forall i :: 0 <= i < |levels| - 1 ==> levels[i] < levels[i + 1]
    ensures Normalized(levels) == levels
  {
  }

  /** `read_ozinfo(infofile)` on the lines of the file: the lists of the table, with
      the levels normalised. */
  function OzinfoTable(lines: seq<string>): Result<Table> {
    match ParseLines(lines)
    case Err(e) => Err(e)
    case Ok(t) => Ok(t.(layer := Normalized(t.layer)))
  }

  lemma ParseLinesStep(lines: seq<string>, n: nat)
    requires n < |lines|
    ensures ParseLines(lines[..n + 1]) == AndThen(ParseLines(lines[..n]), ParseRow(lines[n]))
  {
    assert lines[..n + 1][..n] == lines[..n];
  }

  /** Once a ValueError is raised, the rest of the table is not read. */
  lemma ParseLinesStops(lines: seq<string>, n: nat)
    requires n < |lines| && ParseLines(lines[..n + 1]).Err?
    ensures ParseLines(lines) == ParseLines(lines[..n + 1])
  {
    ParseLinesAppend(lines[..n + 1], lines[n + 1..]);
    assert lines[..n + 1] + lines[n + 1..] == lines;
  }

  /** Lines 21-27, the try block for one row: append its fields to the lists read so
      far; a missing field ends the row, a field `int()` refuses raises ValueError. */
  method ReadRow(sensor: seq<string>, layer: seq<int>, obuse: seq<int>, row: string)
    returns (r: Result<Table>)
    ensures r == AndThen(Ok(Table(sensor, layer, obuse)), ParseRow(row))
  {
    r := Ok(Table(sensor, layer, obuse));
    if IsComment(row) {
      assert Concat(r.value, Empty) == r.value;
      return;
    }
    var rowsplit := Fields(row);
    if |rowsplit| == 0 {
      assert Concat(r.value, Empty) == r.value;
      return;
    }
    var s := sensor + [rowsplit[0]];
    if |rowsplit| == 1 {
      assert layer + [] == layer && obuse + [] == obuse;
      return Ok(Table(s, layer, obuse));
    }
    var level := ParseInt(rowsplit[1]);
    if level.None? {
      return Err(ValueError(rowsplit[1]));
    }
    var l := layer + [level.value];
    if |rowsplit| == 2 {
      assert obuse + [] == obuse;
      return Ok(Table(s, l, obuse));
    }
    var use := ParseInt(rowsplit[2]);
    if use.None? {
      return Err(ValueError(rowsplit[2]));
    }
    return Ok(Table(s, l, obuse + [use.value]));
  }

  /** Lines 20-27: read the rows in file order; the first ValueError ends the read. */
  method ReadRows(lines: seq<string>) returns (r: Result<Table>)
    ensures r == ParseLines(lines)
  {
    var sensor: seq<string>, layer: seq<int>, obuse: seq<int> := [], [], [];
    var n := 0;
    while n < |lines|
      invariant 0 <= n <= |lines|
      invariant ParseLines(lines[..n]) == Ok(Table(sensor, layer, obuse))
    {
      ParseLinesStep(lines, n);
      var next := ReadRow(sensor, layer, obuse, lines[n]);
      if next.Err? {
        ParseLinesStops(lines, n);
        return next;
      }
      sensor, layer, obuse := next.value.sensor, next.value.layer, next.value.obuse;
      n := n + 1;
    }
    assert lines[..n] == lines;
    r := Ok(Table(sensor, layer, obuse));
  }

  /** Lines 31-33: overwrite `layer[i]` with 0 where the next level does not increase.
      Each comparison reads only positions not yet overwritten, so the pass computes
      `Normalized` of the list as read. */
  method NormalizeLevels(read: seq<int>) returns (layer: seq<int>)
    ensures layer == Normalized(read)
  {
    layer := read;
    var i := 0;
    while i + 1 < |layer|
      invariant |layer| == |read|
      invariant 0 <= i && (i <= |layer| - 1 || i == 0)
      invariant forall k :: 0 <= k < i ==> layer[k] == Normalized(read)[k]
      invariant forall k :: i <= k < |layer| ==> layer[k] == read[k]
    {
      if layer[i + 1] <= layer[i] {
        layer := layer[i := 0];
      }
      i := i + 1;
    }
  }

  /** `read_ozinfo`: the rows read, then the levels normalised. */
  method ReadOzinfo(lines: seq<string>) returns (r: Result<Table>)
    ensures r == OzinfoTable(lines)
  {
    r := ReadRows(lines);
    if r.Ok? {
      var layer := NormalizeLevels(r.value.layer);
      r := Ok(r.value.(layer := layer));
    }
  }
}
