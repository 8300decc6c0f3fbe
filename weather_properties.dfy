/**
 * What the extraction half of the comparison script guarantees, stated over
 * the specification functions of `WeatherCsv` and proved from them.
 */
module WeatherProperties {
  import opened Wrappers
  import opened Parsers
  import opened WeatherCsv

  // ---------------------------------------------------------------- the row loop

  /** The loop stops at the first fatal row and at no other. */
  lemma {:induction false} FoldAbortsAtFirstFatal(results: seq<RowResult>)
    ensures Fold(results).abort.None? <==> forall i :: 0 <= i < |results| ==> !results[i].Fatal?
    ensures Fold(results).abort.Some? ==>
      results[Fold(results).abort.value.row] == Fatal(Fold(results).abort.value.fault)
      && forall i :: 0 <= i < Fold(results).abort.value.row ==> !results[i].Fatal?
    decreases |results|
  {
    if results != [] {
      var n := |results| - 1;
      var prev := results[..n];
      FoldAbortsAtFirstFatal(prev);
      assert results == prev + [results[n]];
      FoldSnoc(prev, results[n]);
      assert forall i :: 0 <= i < n ==> prev[i] == results[i];
    }
  }

  /**
   * An accepted row that the loop reaches lands at the position given by the
   * number of readings kept before it: nothing is dropped or moved.
   */
  lemma FoldKeepsAcceptedRow(results: seq<RowResult>, i: nat)
    requires i < |results| && results[i].Accepted?
    requires Fold(results[..i]).abort.None?
    ensures |Fold(results[..i]).readings| < |Fold(results).readings|
    ensures Fold(results).readings[|Fold(results[..i]).readings|] == results[i].reading
  {
    assert results[..i + 1] == results[..i] + [results[i]];
    FoldSnoc(results[..i], results[i]);
    assert results == results[..i + 1] + results[i + 1..];
    FoldAppend(results[..i + 1], results[i + 1..]);
  }

  /** Every kept reading comes from an accepted row, and the k-th reading from the k-th such row. */
  lemma {:induction false} FoldReadingOrigin(results: seq<RowResult>, k: nat)
    requires k < |Fold(results).readings|
    ensures exists i :: (0 <= i < |results| && results[i] == Accepted(Fold(results).readings[k])
                         && Fold(results[..i]).abort.None? && |Fold(results[..i]).readings| == k)
    decreases |results|
  {
    var n := |results| - 1;
    var prev := results[..n];
    assert results == prev + [results[n]];
    FoldSnoc(prev, results[n]);
    if k < |Fold(prev).readings| {
      FoldReadingOrigin(prev, k);
      var i :| 0 <= i < |prev| && prev[i] == Accepted(Fold(prev).readings[k])
        && Fold(prev[..i]).abort.None? && |Fold(prev[..i]).readings| == k;
      assert prev[..i] == results[..i];
      assert results[i] == Accepted(Fold(results).readings[k]);
    } else {
      assert results[..n] == prev;
      assert results[n] == Accepted(Fold(results).readings[k]);
    }
  }

  /** A skipped row changes neither the readings nor whether the loop raises. */
  lemma FoldIgnoresSkipped(before: seq<RowResult>, after: seq<RowResult>)
    ensures Fold(before + [Skipped] + after).readings == Fold(before + after).readings
    ensures Fold(before + [Skipped] + after).abort.None? <==> Fold(before + after).abort.None?
  {
    FoldSnoc(before, Skipped);
    FoldAppend(before + [Skipped], after);
    FoldAppend(before, after);
  }

  // ---------------------------------------------------------------- rows of a file

  lemma ClassifyAppend(rows: seq<Row>, more: seq<Row>, c: Columns)
    ensures Classify(rows + more, c) == Classify(rows, c) + Classify(more, c)
  {
  }

  lemma ClassifyPrefix(rows: seq<Row>, i: nat, c: Columns)
    requires i <= |rows|
    ensures Classify(rows[..i], c) == Classify(rows, c)[..i]
  {
  }

  /**
   * A file's loop raises exactly at its first row that raises: a short row
   * or a date `strptime` rejects, never a bad temperature.
   */
  lemma ScanAbortsAtFirstFatal(rows: seq<Row>, c: Columns)
    ensures Scan(rows, c).abort.None? <==> forall i :: 0 <= i < |rows| ==> !ProcessRow(rows[i], c).Fatal?
    ensures Scan(rows, c).abort.Some? ==>
      ProcessRow(rows[Scan(rows, c).abort.value.row], c) == Fatal(Scan(rows, c).abort.value.fault)
      && forall i :: 0 <= i < Scan(rows, c).abort.value.row ==> !ProcessRow(rows[i], c).Fatal?
  {
    FoldAbortsAtFirstFatal(Classify(rows, c));
    assert forall i :: 0 <= i < |rows| ==> Classify(rows, c)[i] == ProcessRow(rows[i], c);
  }

  /**
   * A row whose TMAX or TMIN cell does not parse adds nothing to any list and
   * does not stop the loop, also when TMAX parsed and only TMIN failed.
   */
  lemma ScanSkipsBadTemperature(before: seq<Row>, row: Row, after: seq<Row>, c: Columns)
    requires CellsUpTo(row, c, 3) && ParseDate(row[c.date]).Some?
    requires ParseInt(row[c.high]).None? || (c.low < |row| && ParseInt(row[c.low]).None?)
    ensures Scan(before + [row] + after, c).readings == Scan(before + after, c).readings
    ensures Scan(before + [row] + after, c).abort.None? <==> Scan(before + after, c).abort.None?
  {
    RowCases(row, c);
    ClassifyAppend(before + [row], after, c);
    ClassifyAppend(before, [row], c);
    ClassifyAppend(before, after, c);
    assert Classify([row], c) == [Skipped];
    FoldIgnoresSkipped(Classify(before, c), Classify(after, c));
  }

  /**
   * The k-th reading of a file is the k-th accepted row's date, TMAX and
   * TMIN, and an accepted row before any fatal one is kept.
   */
  lemma ScanKeepsRowOrder(rows: seq<Row>, c: Columns, i: nat)
    requires i < |rows| && ProcessRow(rows[i], c).Accepted?
    requires Scan(rows[..i], c).abort.None?
    ensures |Scan(rows[..i], c).readings| < |Scan(rows, c).readings|
    ensures Scan(rows, c).readings[|Scan(rows[..i], c).readings|] ==
      Reading(ParseDate(rows[i][c.date]).value, ParseInt(rows[i][c.high]).value, ParseInt(rows[i][c.low]).value)
  {
    ClassifyPrefix(rows, i, c);
    FoldKeepsAcceptedRow(Classify(rows, c), i);
    RowCases(rows[i], c);
  }

  lemma ScanReadingOrigin(rows: seq<Row>, c: Columns, k: nat)
    requires k < |Scan(rows, c).readings|
    ensures exists i :: (0 <= i < |rows| && ProcessRow(rows[i], c) == Accepted(Scan(rows, c).readings[k])
                         && Scan(rows[..i], c).abort.None? && |Scan(rows[..i], c).readings| == k)
  {
    FoldReadingOrigin(Classify(rows, c), k);
    var i :| 0 <= i < |rows| && Classify(rows, c)[i] == Accepted(Scan(rows, c).readings[k])
      && Fold(Classify(rows, c)[..i]).abort.None? && |Fold(Classify(rows, c)[..i]).readings| == k;
    ClassifyPrefix(rows, i, c);
  }

  /** A file none of whose rows is accepted yields no readings. */
  lemma ScanNothingAccepted(rows: seq<Row>, c: Columns)
    requires forall i :: 0 <= i < |rows| ==> !ProcessRow(rows[i], c).Accepted?
    ensures Scan(rows, c).readings == []
  {
    if Scan(rows, c).readings != [] {
      ScanReadingOrigin(rows, c, 0);
    }
  }

  // ---------------------------------------------------------------- whole runs

  /** The one caught header error: file 1 lacks DATE, and nothing else is read. */
  lemma RunMissingDate(lines1: seq<Row>, lines2: seq<Row>)
    ensures RunOutcome(lines1, lines2) == MissingDate <==>
      lines1 != [] && lines2 != [] && DateLabel !in lines1[0]
  {
  }

  /**
   * Every other missing label ends the run with the uncaught error instead:
   * TMAX, TMIN or NAME in file 1, or any of the four in file 2.
   */
  lemma RunMissingColumn(lines1: seq<Row>, lines2: seq<Row>)
    ensures RunOutcome(lines1, lines2).MissingColumn? <==>
      lines1 != [] && lines2 != [] && DateLabel in lines1[0] && !(HasLabels(lines1[0]) && HasLabels(lines2[0]))
  {
  }

  /**
   * A file whose data lines before line `j` all read without raising, and
   * whose line `j` is fatal, makes its loop raise at data row `j - 1`
   * (`lines[0]` is the header).
   */
  lemma ScanAbortsAtLine(lines: seq<Row>, c: Columns, j: nat)
    requires 1 <= j < |lines| && ProcessRow(lines[j], c).Fatal?
    requires forall i :: 1 <= i < j ==> !ProcessRow(lines[i], c).Fatal?
    ensures Scan(lines[1..], c).abort == Some(Abort(j - 1, ProcessRow(lines[j], c).fault))
  {
    var rows := lines[1..];
    assert forall i :: 0 <= i < |rows| ==> rows[i] == lines[i + 1];
    ScanAbortsAtFirstFatal(rows, c);
  }

  /** A run with both headers complete raises in file 1 where that file's loop raises. */
  lemma RunAbortsInFirst(lines1: seq<Row>, lines2: seq<Row>, a: Abort)
    requires lines1 != [] && lines2 != [] && LocateColumns(lines1[0], lines2[0]).Ok?
    requires Scan(lines1[1..], LocateColumns(lines1[0], lines2[0]).value.first).abort == Some(a)
    ensures RunOutcome(lines1, lines2) == BadRow(1, a.row, a.fault)
  {
    var s := Opened(lines1, lines2);
    assert s.header1 == lines1[0] && s.header2 == lines2[0];
    assert s.reader1 == lines1[1..];
  }

  /** Otherwise it raises in file 2 where that file's loop raises. */
  lemma RunAbortsInSecond(lines1: seq<Row>, lines2: seq<Row>, a: Abort)
    requires lines1 != [] && lines2 != [] && LocateColumns(lines1[0], lines2[0]).Ok?
    requires Scan(lines1[1..], LocateColumns(lines1[0], lines2[0]).value.first).abort.None?
    requires Scan(lines2[1..], LocateColumns(lines1[0], lines2[0]).value.second).abort == Some(a)
    ensures RunOutcome(lines1, lines2) == BadRow(2, a.row, a.fault)
  {
    var s := Opened(lines1, lines2);
    assert s.header1 == lines1[0] && s.header2 == lines2[0];
    assert s.reader1 == lines1[1..] && s.reader2 == lines2[1..];
  }

  /**
   * The first fatal data row of file 1 (a short row or a date `strptime`
   * rejects) ends the whole run at that row with that fault. `j` indexes the
   * file's lines, whose `lines1[0]` is the header, so the row is data row
   * `j - 1`.
   */
  lemma RunFirstFileAborts(lines1: seq<Row>, lines2: seq<Row>, j: nat)
    requires lines1 != [] && lines2 != [] && LocateColumns(lines1[0], lines2[0]).Ok?
    requires 1 <= j < |lines1|
    requires forall i :: 1 <= i < j ==> !ProcessRow(lines1[i], LocateColumns(lines1[0], lines2[0]).value.first).Fatal?
    requires ProcessRow(lines1[j], LocateColumns(lines1[0], lines2[0]).value.first).Fatal?
    ensures RunOutcome(lines1, lines2) ==
      BadRow(1, j - 1, ProcessRow(lines1[j], LocateColumns(lines1[0], lines2[0]).value.first).fault)
  {
    var c := LocateColumns(lines1[0], lines2[0]).value.first;
    ScanAbortsAtLine(lines1, c, j);
    RunAbortsInFirst(lines1, lines2, Abort(j - 1, ProcessRow(lines1[j], c).fault));
  }

  /** In particular a date `strptime` rejects in file 1 ends the run there. */
  lemma RunBadDateAborts(lines1: seq<Row>, lines2: seq<Row>, j: nat)
    requires lines1 != [] && lines2 != [] && LocateColumns(lines1[0], lines2[0]).Ok?
    requires 1 <= j < |lines1|
    requires forall i :: 1 <= i < j ==> !ProcessRow(lines1[i], LocateColumns(lines1[0], lines2[0]).value.first).Fatal?
    requires CellsUpTo(lines1[j], LocateColumns(lines1[0], lines2[0]).value.first, 2)
    requires ParseDate(lines1[j][LocateColumns(lines1[0], lines2[0]).value.first.date]).None?
    ensures RunOutcome(lines1, lines2) == BadRow(1, j - 1, BadDate)
  {
    RowCases(lines1[j], LocateColumns(lines1[0], lines2[0]).value.first);
    RunFirstFileAborts(lines1, lines2, j);
  }

  /**
   * File 2 is read only after file 1 is read to its end without raising; its
   * first fatal row then ends the run at that row with that fault. `j`
   * indexes `lines2` as above.
   */
  lemma RunSecondFileAborts(lines1: seq<Row>, lines2: seq<Row>, j: nat)
    requires lines1 != [] && lines2 != [] && LocateColumns(lines1[0], lines2[0]).Ok?
    requires Scan(lines1[1..], LocateColumns(lines1[0], lines2[0]).value.first).abort.None?
    requires 1 <= j < |lines2|
    requires forall i :: 1 <= i < j ==> !ProcessRow(lines2[i], LocateColumns(lines1[0], lines2[0]).value.second).Fatal?
    requires ProcessRow(lines2[j], LocateColumns(lines1[0], lines2[0]).value.second).Fatal?
    ensures RunOutcome(lines1, lines2) ==
      BadRow(2, j - 1, ProcessRow(lines2[j], LocateColumns(lines1[0], lines2[0]).value.second).fault)
  {
    var c := LocateColumns(lines1[0], lines2[0]).value.second;
    ScanAbortsAtLine(lines2, c, j);
    RunAbortsInSecond(lines1, lines2, Abort(j - 1, ProcessRow(lines2[j], c).fault));
  }

  /** A date `strptime` rejects in file 2, once file 1 is read without raising, ends the run there. */
  lemma RunSecondBadDateAborts(lines1: seq<Row>, lines2: seq<Row>, j: nat)
    requires lines1 != [] && lines2 != [] && LocateColumns(lines1[0], lines2[0]).Ok?
    requires Scan(lines1[1..], LocateColumns(lines1[0], lines2[0]).value.first).abort.None?
    requires 1 <= j < |lines2|
    requires forall i :: 1 <= i < j ==> !ProcessRow(lines2[i], LocateColumns(lines1[0], lines2[0]).value.second).Fatal?
    requires CellsUpTo(lines2[j], LocateColumns(lines1[0], lines2[0]).value.second, 2)
    requires ParseDate(lines2[j][LocateColumns(lines1[0], lines2[0]).value.second.date]).None?
    ensures RunOutcome(lines1, lines2) == BadRow(2, j - 1, BadDate)
  {
    RowCases(lines2[j], LocateColumns(lines1[0], lines2[0]).value.second);
    RunSecondFileAborts(lines1, lines2, j);
  }

  /**
   * The duplicate check: a run that reads both files without raising stops
   * as a duplicate exactly when the two lists of high temperatures are
   * equal, entry by entry and in length.
   */
  lemma RunDuplicateIff(lines1: seq<Row>, lines2: seq<Row>)
    ensures RunOutcome(lines1, lines2) == Duplicate <==>
      lines1 != [] && lines2 != [] && LocateColumns(lines1[0], lines2[0]).Ok?
      && Scan(lines1[1..], LocateColumns(lines1[0], lines2[0]).value.first).abort.None?
      && Scan(lines2[1..], LocateColumns(lines1[0], lines2[0]).value.second).abort.None?
      && Highs(Scan(lines1[1..], LocateColumns(lines1[0], lines2[0]).value.first).readings)
         == Highs(Scan(lines2[1..], LocateColumns(lines1[0], lines2[0]).value.second).readings)
  {
    if lines1 != [] && lines2 != [] && LocateColumns(lines1[0], lines2[0]).Ok? {
      var cols := LocateColumns(lines1[0], lines2[0]).value;
      assert [] + Highs(Scan(lines1[1..], cols.first).readings) == Highs(Scan(lines1[1..], cols.first).readings);
      assert [] + Highs(Scan(lines2[1..], cols.second).readings) == Highs(Scan(lines2[1..], cols.second).readings);
    }
  }

  /**
   * The script goes on to plot exactly when both headers are complete, both
   * files are read without raising, and the two lists of highs differ.
   */
  lemma RunReadyToPlotIff(lines1: seq<Row>, lines2: seq<Row>)
    ensures RunOutcome(lines1, lines2) == ReadyToPlot <==>
      lines1 != [] && lines2 != [] && LocateColumns(lines1[0], lines2[0]).Ok?
      && Scan(lines1[1..], LocateColumns(lines1[0], lines2[0]).value.first).abort.None?
      && Scan(lines2[1..], LocateColumns(lines1[0], lines2[0]).value.second).abort.None?
      && Highs(Scan(lines1[1..], LocateColumns(lines1[0], lines2[0]).value.first).readings)
         != Highs(Scan(lines2[1..], LocateColumns(lines1[0], lines2[0]).value.second).readings)
  {
    RunDuplicateIff(lines1, lines2);
    if lines1 != [] && lines2 != [] {
      var s := Opened(lines1, lines2);
      assert s.header1 == lines1[0] && s.header2 == lines2[0];
      assert s.reader1 == lines1[1..] && s.reader2 == lines2[1..];
    }
  }

  /**
   * Two files with all four labels but no accepted row give two empty
   * lists of highs, and the run reports them as duplicates.
   */
  lemma RunNoReadingsIsDuplicate(lines1: seq<Row>, lines2: seq<Row>)
    requires lines1 != [] && lines2 != [] && LocateColumns(lines1[0], lines2[0]).Ok?
    requires forall i :: 1 <= i < |lines1| ==> ProcessRow(lines1[i], LocateColumns(lines1[0], lines2[0]).value.first).Skipped?
    requires forall i :: 1 <= i < |lines2| ==> ProcessRow(lines2[i], LocateColumns(lines1[0], lines2[0]).value.second).Skipped?
    ensures RunOutcome(lines1, lines2) == Duplicate
  {
    var cols := LocateColumns(lines1[0], lines2[0]).value;
    forall i | 0 <= i < |lines1| - 1
      ensures ProcessRow(lines1[1..][i], cols.first).Skipped?
    {
      assert lines1[1..][i] == lines1[i + 1];
    }
    forall i | 0 <= i < |lines2| - 1
      ensures ProcessRow(lines2[1..][i], cols.second).Skipped?
    {
      assert lines2[1..][i] == lines2[i + 1];
    }
    ScanNothingAccepted(lines1[1..], cols.first);
    ScanNothingAccepted(lines2[1..], cols.second);
    ScanAbortsAtFirstFatal(lines1[1..], cols.first);
    ScanAbortsAtFirstFatal(lines2[1..], cols.second);
    RunDuplicateIff(lines1, lines2);
  }

  /** In particular two files that hold only their headers are flagged as duplicates. */
  lemma RunHeadersOnlyIsDuplicate(header1: Row, header2: Row)
    requires HasLabels(header1) && HasLabels(header2)
    ensures RunOutcome([header1], [header2]) == Duplicate
  {
    RunNoReadingsIsDuplicate([header1], [header2]);
  }

  /**
   * A run that reaches the duplicate check has filled each file's lists
   * from that file's readings, starting from the empty lists.
   */
  lemma RunListsAreReadings(lines1: seq<Row>, lines2: seq<Row>)
    requires lines1 != [] && lines2 != [] && LocateColumns(lines1[0], lines2[0]).Ok?
    requires PlotStep(Opened(lines1, lines2)).outcome in {Duplicate, ReadyToPlot}
    ensures PlotStep(Opened(lines1, lines2)).after.series1
      == NoSeries.Extend(Scan(lines1[1..], LocateColumns(lines1[0], lines2[0]).value.first).readings)
    ensures PlotStep(Opened(lines1, lines2)).after.series2
      == NoSeries.Extend(Scan(lines2[1..], LocateColumns(lines1[0], lines2[0]).value.second).readings)
  {
    var s := Opened(lines1, lines2);
    var cols := LocateColumns(lines1[0], lines2[0]).value;
    assert LocateColumns(s.header1, s.header2) == Ok(cols);
    assert Scan(s.reader1, cols.first).abort.None?;
    assert Scan(s.reader2, cols.second).abort.None?;
  }

  /**
   * After a file is read without raising, its lists hold, at the position
   * of each accepted row, that row's parsed DATE, TMAX and TMIN, and the
   * three lists have equal length.
   */
  lemma ListsFollowRows(rows: seq<Row>, c: Columns, i: nat)
    requires i < |rows| && CellsUpTo(rows[i], c, 4)
    requires ParseDate(rows[i][c.date]).Some?
    requires ParseInt(rows[i][c.high]).Some? && ParseInt(rows[i][c.low]).Some?
    requires Scan(rows, c).abort.None?
    ensures var lists := NoSeries.Extend(Scan(rows, c).readings);
      var k := |Scan(rows[..i], c).readings|;
      lists.Aligned() && k < |lists.highs|
      && lists.dates[k] == ParseDate(rows[i][c.date]).value
      && lists.highs[k] == ParseInt(rows[i][c.high]).value
      && lists.lows[k] == ParseInt(rows[i][c.low]).value
  {
    RowCases(rows[i], c);
    ScanAbortsAtFirstFatal(rows, c);
    ScanAbortsAtFirstFatal(rows[..i], c);
    assert forall n :: 0 <= n < i ==> rows[..i][n] == rows[n];
    ScanKeepsRowOrder(rows, c, i);
  }
}
