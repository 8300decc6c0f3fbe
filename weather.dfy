/**
 * The extraction and validation half of the two-city comparison: the header
 * lookup, the per-row parse into three parallel lists per file, and the
 * duplicate check that runs before plotting.
 *
 * A file arrives as its CSV rows, already split into cells; row 0 is the
 * header. `exit()` and the exceptions the script does not catch become
 * variants of `Outcome`.
 */
module WeatherCsv {
  import opened Wrappers
  import opened Parsers

  type Row = seq<string>

  const DateLabel := "DATE"
  const HighLabel := "TMAX"
  const LowLabel := "TMIN"
  const NameLabel := "NAME"

  /** Data rows are numbered from 0: data row k is `lines[k + 1]` of its file, whose `lines[0]` is the header. */
  datatype RowFault =
    | ShortRow   // IndexError: a looked-up column is past the end of the row
    | BadDate    // ValueError from strptime on the DATE cell

  /** How a run ends. `file` is 1 or 2. */
  datatype Outcome =
    | NoHeader(file: nat)                            // StopIteration from next() on an empty file
    | MissingDate                                    // the caught case: file 1 has no DATE column
    | MissingColumn(file: nat, column: string)       // uncaught ValueError from list.index
    | BadRow(file: nat, row: nat, fault: RowFault)   // uncaught error while reading a data row
    | Duplicate                                      // both files have the same high temperatures
    | ReadyToPlot                                    // validation passed; plotting follows

  // ---------------------------------------------------------------- header

  /** `heading` first occurs in `header` at position `i`. */
  predicate IsFirst(header: Row, heading: string, i: nat) {
    i < |header| && header[i] == heading && forall j :: 0 <= j < i ==> header[j] != heading
  }

  /** `header.index(heading)`; `None` is the `ValueError` it raises. */
  function IndexOf(header: Row, heading: string): (r: Option<nat>)
    ensures r.None? <==> heading !in header
    ensures r.Some? ==> IsFirst(header, heading, r.value)
  {
    if header == [] then None
    else if header[0] == heading then Some(0)
    else match IndexOf(header[1..], heading)
      case None => None
      case Some(i) => Some(i + 1)
  }

  datatype Columns = Columns(date: nat, high: nat, low: nat, name: nat)

  datatype ColumnPair = ColumnPair(first: Columns, second: Columns)

  predicate HasLabels(header: Row) {
    DateLabel in header && HighLabel in header && LowLabel in header && NameLabel in header
  }

  /** Each of the four positions is the first occurrence of its name. */
  predicate ColumnsOf(header: Row, c: Columns) {
    IsFirst(header, DateLabel, c.date) && IsFirst(header, HighLabel, c.high)
    && IsFirst(header, LowLabel, c.low) && IsFirst(header, NameLabel, c.name)
  }

  /** TMAX, TMIN and NAME of one header, looked up in that order once DATE is known. */
  function OtherColumns(header: Row, file: nat, date: nat): Result<Columns, Outcome> {
    match (IndexOf(header, HighLabel), IndexOf(header, LowLabel), IndexOf(header, NameLabel))
    case (None, _, _) => Err(MissingColumn(file, HighLabel))
    case (Some(_), None, _) => Err(MissingColumn(file, LowLabel))
    case (Some(_), Some(_), None) => Err(MissingColumn(file, NameLabel))
    case (Some(high), Some(low), Some(name)) => Ok(Columns(date, high, low, name))
  }

  /**
   * The eight lookups of `plot_data`: DATE of file 1 under its own `try`,
   * then TMAX, TMIN, NAME of file 1 and DATE, TMAX, TMIN, NAME of file 2,
   * none of them caught.
   */
  function LocateColumns(header1: Row, header2: Row): (r: Result<ColumnPair, Outcome>)
    ensures r == Err(MissingDate) <==> DateLabel !in header1
    ensures r.Ok? <==> HasLabels(header1) && HasLabels(header2)
    ensures r.Ok? ==> ColumnsOf(header1, r.value.first) && ColumnsOf(header2, r.value.second)
    ensures r.Err? && r.error != MissingDate ==>
      r.error.MissingColumn? && DateLabel in header1 &&
      (r.error.file == 1 ==> r.error.column !in header1) &&
      (r.error.file == 2 ==> HasLabels(header1) && r.error.column !in header2) &&
      (r.error.file == 1 || r.error.file == 2)
  {
    match IndexOf(header1, DateLabel)
    case None => Err(MissingDate)
    case Some(date1) =>
      match OtherColumns(header1, 1, date1)
      case Err(stop) => Err(stop)
      case Ok(first) =>
        match IndexOf(header2, DateLabel)
        case None => Err(MissingColumn(2, DateLabel))
        case Some(date2) =>
          match OtherColumns(header2, 2, date2)
          case Err(stop) => Err(stop)
          case Ok(second) => Ok(ColumnPair(first, second))
  }

  // ---------------------------------------------------------------- rows

  /** One accepted data row: its date and its high and low temperatures. */
  datatype Reading = Reading(date: Date, high: int, low: int)

  datatype RowResult =
    | Accepted(reading: Reading)   // appended to the three lists
    | Skipped                      // the caught ValueError: a warning, nothing appended
    | Fatal(fault: RowFault)       // an exception the loop does not catch

  /** The cells of `row` are read in the script's order: NAME, DATE, TMAX, TMIN. */
  predicate CellsUpTo(row: Row, c: Columns, k: nat) {
    (k >= 1 ==> c.name < |row|) && (k >= 2 ==> c.date < |row|)
    && (k >= 3 ==> c.high < |row|) && (k >= 4 ==> c.low < |row|)
  }

  /**
   * The body of one iteration of the row loop. Only `int()` sits inside the
   * `try ... except ValueError`; indexing past the end of the row and a bad
   * date escape it.
   */
  function ProcessRow(row: Row, c: Columns): RowResult
  {
    if c.name >= |row| || c.date >= |row| then Fatal(ShortRow)
    else match ParseDate(row[c.date])
      case None => Fatal(BadDate)
      case Some(date) =>
        if c.high >= |row| then Fatal(ShortRow)
        else match ParseInt(row[c.high])
          case None => Skipped
          case Some(high) =>
            if c.low >= |row| then Fatal(ShortRow)
            else match ParseInt(row[c.low])
              case None => Skipped
              case Some(low) => Accepted(Reading(date, high, low))
  }

  /**
   * A row is accepted exactly when every cell the loop reads exists and
   * parses, and then it contributes those parsed values. A row whose TMAX or
   * TMIN does not parse is skipped, even when TMAX parsed and only TMIN
   * failed; a bad date is fatal.
   */
  lemma RowCases(row: Row, c: Columns)
    ensures ProcessRow(row, c).Accepted? <==>
      CellsUpTo(row, c, 4) && ParseDate(row[c.date]).Some?
      && ParseInt(row[c.high]).Some? && ParseInt(row[c.low]).Some?
    ensures ProcessRow(row, c).Accepted? ==>
      ProcessRow(row, c).reading ==
      Reading(ParseDate(row[c.date]).value, ParseInt(row[c.high]).value, ParseInt(row[c.low]).value)
    ensures ProcessRow(row, c) == Fatal(BadDate) <==> CellsUpTo(row, c, 2) && ParseDate(row[c.date]).None?
    ensures ProcessRow(row, c) == Skipped <==>
      CellsUpTo(row, c, 3) && ParseDate(row[c.date]).Some?
      && (ParseInt(row[c.high]).None? || (c.low < |row| && ParseInt(row[c.low]).None?))
  {
  }

  /** The data row at which a file's loop was cut short, and why. */
  datatype Abort = Abort(row: nat, fault: RowFault)

  /** What one loop over a file's data rows yields: the accepted readings in order, and the abort, if any. */
  datatype Extraction = Extraction(readings: seq<Reading>, abort: Option<Abort>)

  /** Each data row's fate, in file order. */
  function Classify(rows: seq<Row>, c: Columns): seq<RowResult> {
    seq(|rows|, i requires 0 <= i < |rows| => ProcessRow(rows[i], c))
  }

  /**
   * The loop `for row in reader_n` over rows whose fates are `results`: rows
   * are taken in order until the first fatal one; accepted rows add their
   * reading at the end.
   */
  function Fold(results: seq<RowResult>): (e: Extraction)
    ensures |e.readings| <= |results|
    ensures e.abort.Some? ==> e.abort.value.row < |results|
  {
    if results == [] then Extraction([], None)
    else
      var n := |results| - 1;
      var e := Fold(results[..n]);
      if e.abort.Some? then e
      else match results[n]
        case Accepted(reading) => Extraction(e.readings + [reading], None)
        case Skipped => e
        case Fatal(fault) => Extraction(e.readings, Some(Abort(n, fault)))
  }

  /** The row loop over a file's data rows. */
  function Scan(rows: seq<Row>, c: Columns): (e: Extraction)
    ensures |e.readings| <= |rows|
    ensures e.abort.Some? ==> e.abort.value.row < |rows|
  {
    Fold(Classify(rows, c))
  }

  /** One more row at the end: the step the row loop takes. */
  lemma FoldSnoc(results: seq<RowResult>, result: RowResult)
    ensures Fold(results + [result]) ==
      if Fold(results).abort.Some? then Fold(results)
      else match result
        case Accepted(reading) => Extraction(Fold(results).readings + [reading], None)
        case Skipped => Fold(results)
        case Fatal(fault) => Extraction(Fold(results).readings, Some(Abort(|results|, fault)))
  {
    assert (results + [result])[..|results|] == results;
  }

  function ShiftAbort(abort: Option<Abort>, offset: nat): Option<Abort> {
    match abort
    case None => None
    case Some(a) => Some(Abort(a.row + offset, a.fault))
  }

  /**
   * Reading a file in two parts: the first part's readings come first, and
   * once the first part has raised, the second is never read.
   */
  lemma {:induction false} FoldAppend(results: seq<RowResult>, more: seq<RowResult>)
    ensures Fold(results + more) ==
      if Fold(results).abort.Some? then Fold(results)
      else Extraction(Fold(results).readings + Fold(more).readings, ShiftAbort(Fold(more).abort, |results|))
    decreases |more|
  {
    if more == [] {
      assert results + more == results;
      assert Fold(results).readings + [] == Fold(results).readings;
    } else {
      var n := |more| - 1;
      FoldAppend(results, more[..n]);
      assert results + more == (results + more[..n]) + [more[n]];
      assert more == more[..n] + [more[n]];
      FoldSnoc(results + more[..n], more[n]);
      FoldSnoc(more[..n], more[n]);
    }
  }

  /** What is left of a reader after its loop: nothing, or the rows after the one that raised. */
  function Unread(rows: seq<Row>, e: Extraction): seq<Row>
    requires e.abort.Some? ==> e.abort.value.row < |rows|
  {
    if e.abort.Some? then rows[e.abort.value.row + 1..] else []
  }

  // ---------------------------------------------------------------- state

  /** The dates, highs and lows of a run of readings, each in reading order. */
  function Dates(readings: seq<Reading>): seq<Date> {
    seq(|readings|, k requires 0 <= k < |readings| => readings[k].date)
  }

  function Highs(readings: seq<Reading>): seq<int> {
    seq(|readings|, k requires 0 <= k < |readings| => readings[k].high)
  }

  function Lows(readings: seq<Reading>): seq<int> {
    seq(|readings|, k requires 0 <= k < |readings| => readings[k].low)
  }

  /** A file's three parallel lists `dates_n`, `highs_n`, `lows_n`. */
  datatype Series = Series(dates: seq<Date>, highs: seq<int>, lows: seq<int>) {

    predicate Aligned() {
      |dates| == |highs| == |lows|
    }

    /** The lists after appending each reading's date, high and low, in order. */
    function Extend(readings: seq<Reading>): Series {
      Series(dates + Dates(readings), highs + Highs(readings), lows + Lows(readings))
    }
  }

  /** Extending by two runs of readings is extending by the two in turn. */
  lemma ExtendTwice(s: Series, readings: seq<Reading>, more: seq<Reading>)
    ensures s.Extend(readings + more) == s.Extend(readings).Extend(more)
  {
    assert Dates(readings + more) == Dates(readings) + Dates(more);
    assert Highs(readings + more) == Highs(readings) + Highs(more);
    assert Lows(readings + more) == Lows(readings) + Lows(more);
    assert s.dates + (Dates(readings) + Dates(more)) == s.dates + Dates(readings) + Dates(more);
    assert s.highs + (Highs(readings) + Highs(more)) == s.highs + Highs(readings) + Highs(more);
    assert s.lows + (Lows(readings) + Lows(more)) == s.lows + Lows(readings) + Lows(more);
  }

  const NoSeries := Series([], [], [])

  /** The fields of a `WeatherData` object, as a value. */
  datatype State = State(header1: Row, header2: Row, reader1: seq<Row>, reader2: seq<Row>,
                         series1: Series, series2: Series)

  /** The object right after `__init__`: headers taken off each reader, six empty lists. */
  function Opened(lines1: seq<Row>, lines2: seq<Row>): State
    requires lines1 != [] && lines2 != []
  {
    State(lines1[0], lines2[0], lines1[1..], lines2[1..], NoSeries, NoSeries)
  }

  datatype Step = Step(outcome: Outcome, after: State)

  /**
   * `plot_data` up to the call into matplotlib: how it ends and the object's
   * fields afterwards.
   */
  function PlotStep(s: State): (r: Step)
    ensures r.after.header1 == s.header1 && r.after.header2 == s.header2
    ensures s.series1.Aligned() ==> r.after.series1.Aligned()
    ensures s.series2.Aligned() ==> r.after.series2.Aligned()
    ensures r.outcome.MissingDate? || r.outcome.MissingColumn? ==> r.after == s
    ensures r.outcome == MissingDate <==> DateLabel !in s.header1
    ensures r.outcome.BadRow? ==> r.outcome.file == 1 || r.outcome.file == 2
    ensures r.outcome.BadRow? && r.outcome.file == 1 ==> r.after.series2 == s.series2 && r.after.reader2 == s.reader2
    ensures r.outcome == Duplicate <==>
      (r.outcome.Duplicate? || r.outcome.ReadyToPlot?) && r.after.series1.highs == r.after.series2.highs
    ensures r.outcome.Duplicate? || r.outcome.ReadyToPlot? ==> r.after.reader1 == [] && r.after.reader2 == []
    ensures !r.outcome.NoHeader?
    ensures var located := LocateColumns(s.header1, s.header2);
      r.outcome.Duplicate? || r.outcome.ReadyToPlot? <==>
      located.Ok? && Scan(s.reader1, located.value.first).abort.None?
      && Scan(s.reader2, located.value.second).abort.None?
    ensures var located := LocateColumns(s.header1, s.header2);
      r.outcome.BadRow? <==> located.Ok? && !(Scan(s.reader1, located.value.first).abort.None?
                                              && Scan(s.reader2, located.value.second).abort.None?)
    ensures var located := LocateColumns(s.header1, s.header2);
      located.Ok? && Scan(s.reader1, located.value.first).abort.Some? ==>
      var a := Scan(s.reader1, located.value.first).abort.value;
      r.outcome == BadRow(1, a.row, a.fault)
    ensures var located := LocateColumns(s.header1, s.header2);
      located.Ok? && Scan(s.reader1, located.value.first).abort.None?
      && Scan(s.reader2, located.value.second).abort.Some? ==>
      var a := Scan(s.reader2, located.value.second).abort.value;
      r.outcome == BadRow(2, a.row, a.fault)
  {
    match LocateColumns(s.header1, s.header2)
    case Err(stop) => Step(stop, s)
    case Ok(cols) =>
      var e1 := Scan(s.reader1, cols.first);
      var s1 := s.(reader1 := Unread(s.reader1, e1), series1 := s.series1.Extend(e1.readings));
      if e1.abort.Some? then Step(BadRow(1, e1.abort.value.row, e1.abort.value.fault), s1)
      else
        var e2 := Scan(s.reader2, cols.second);
        var s2 := s1.(reader2 := Unread(s.reader2, e2), series2 := s.series2.Extend(e2.readings));
        if e2.abort.Some? then Step(BadRow(2, e2.abort.value.row, e2.abort.value.fault), s2)
        else if s2.series1.highs == s2.series2.highs then Step(Duplicate, s2)
        else Step(ReadyToPlot, s2)
  }

  /** A whole run of the script on two files' rows, up to plotting. */
  function RunOutcome(lines1: seq<Row>, lines2: seq<Row>): Outcome {
    if lines1 == [] then NoHeader(1)
    else if lines2 == [] then NoHeader(2)
    else PlotStep(Opened(lines1, lines2)).outcome
  }

  // ---------------------------------------------------------------- objects

  /**
   * One input file's share of `WeatherData`: `header_row_n`, `reader_n`
   * (the rows `next()` has not yet returned) and the lists `dates_n`,
   * `highs_n`, `lows_n`.
   */
  class WeatherFile {
    var header: Row
    var reader: seq<Row>
    var dates: seq<Date>
    var highs: seq<int>
    var lows: seq<int>

    function Lists(): Series
      reads this
    {
      Series(dates, highs, lows)
    }

    /** Takes the header off the reader, as `next(reader_n)` does; the lists start empty. */
    constructor (lines: seq<Row>)
      requires lines != []
      ensures header == lines[0] && reader == lines[1..]
      ensures dates == [] && highs == [] && lows == []
    {
      header, reader := lines[0], lines[1..];
      dates, highs, lows := [], [], [];
    }

    /**
     * One pass of `for row in reader_n`: the next row leaves the reader and,
     * when it is accepted, its date, high and low are appended together.
     */
    method ReadRow(c: Columns) returns (result: RowResult)
      requires reader != []
      modifies this
      ensures result == ProcessRow(old(reader)[0], c)
      ensures header == old(header) && reader == old(reader)[1..]
      ensures Lists() == if result.Accepted? then old(Lists()).Extend([result.reading]) else old(Lists())
    {
      var row := reader[0];
      reader := reader[1..];
      result := ProcessRow(row, c);
      if result.Accepted? {
        dates, highs, lows := dates + [result.reading.date], highs + [result.reading.high], lows + [result.reading.low];
        assert Dates([result.reading]) == [result.reading.date];
        assert Highs([result.reading]) == [result.reading.high];
        assert Lows([result.reading]) == [result.reading.low];
      }
    }

    /** The whole loop: rows are read until the reader is empty or a row raises. */
    method ReadRows(c: Columns) returns (abort: Option<Abort>)
      modifies this
      ensures abort == Scan(old(reader), c).abort
      ensures header == old(header) && reader == Unread(old(reader), Scan(old(reader), c))
      ensures Lists() == old(Lists()).Extend(Scan(old(reader), c).readings)
    {
      ghost var rows := reader;
      ghost var results := Classify(rows, c);
      var i := 0;
      while reader != []
        invariant i <= |rows| && reader == rows[i..]
        invariant Fold(results[..i]).abort.None?
        invariant Lists() == old(Lists()).Extend(Fold(results[..i]).readings)
        invariant header == old(header)
        decreases |reader|
      {
        ghost var done := Fold(results[..i]);
        assert results[..i + 1] == results[..i] + [results[i]];
        FoldSnoc(results[..i], results[i]);
        var result := ReadRow(c);
        if result.Fatal? {
          FoldAppend(results[..i + 1], results[i + 1..]);
          assert results[..i + 1] + results[i + 1..] == results;
          return Some(Abort(i, result.fault));
        }
        if result.Accepted? {
          ExtendTwice(old(Lists()), done.readings, [result.reading]);
        }
        i := i + 1;
      }
      assert results[..i] == results;
      return None;
    }
  }

  /** The script's `WeatherData`: the two input files. */
  class WeatherData {
    const first: WeatherFile
    const second: WeatherFile

    function Snapshot(): State
      reads this, first, second
    {
      State(first.header, second.header, first.reader, second.reader, first.Lists(), second.Lists())
    }

    /** Each file's three lists have one entry per accepted row. */
    ghost predicate Valid()
      reads this, first, second
    {
      first != second && first.Lists().Aligned() && second.Lists().Aligned()
    }

    /**
     * `__init__` on the rows of two files. Reading the files is not modelled;
     * an empty file, on which `next()` raises, is handled by `Run`.
     */
    constructor (lines1: seq<Row>, lines2: seq<Row>)
      requires lines1 != [] && lines2 != []
      ensures fresh(first) && fresh(second)
      ensures first.header == lines1[0] && second.header == lines2[0]
      ensures first.reader == lines1[1..] && second.reader == lines2[1..]
      ensures first.Lists() == NoSeries && second.Lists() == NoSeries
      ensures Snapshot() == Opened(lines1, lines2) && Valid()
    {
      first := new WeatherFile(lines1);
      second := new WeatherFile(lines2);
    }

    /** `plot_data` up to plotting: look up the columns, read both files, reject duplicates. */
    method PlotData() returns (outcome: Outcome)
      requires Valid()
      modifies first, second
      ensures outcome == PlotStep(old(Snapshot())).outcome
      ensures Snapshot() == PlotStep(old(Snapshot())).after
      ensures Valid()
    {
      var located := LocateColumns(first.header, second.header);
      if located.Err? {
        return located.error;
      }
      var abort1 := first.ReadRows(located.value.first);
      if abort1.Some? {
        return BadRow(1, abort1.value.row, abort1.value.fault);
      }
      var abort2 := second.ReadRows(located.value.second);
      if abort2.Some? {
        return BadRow(2, abort2.value.row, abort2.value.fault);
      }
      if first.highs == second.highs {
        return Duplicate;
      }
      return ReadyToPlot;
    }
  }

  /**
   * The script's top level on two files' rows: construct the object (raising
   * on an empty file) and run `plot_data`.
   */
  method Run(lines1: seq<Row>, lines2: seq<Row>) returns (outcome: Outcome)
    ensures outcome == RunOutcome(lines1, lines2)
  {
    if lines1 == [] {
      return NoHeader(1);
    }
    if lines2 == [] {
      return NoHeader(2);
    }
    var data := new WeatherData(lines1, lines2);
    outcome := data.PlotData();
  }
}
