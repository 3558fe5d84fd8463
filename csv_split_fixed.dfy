/** split_csv_tests.py at the top of the repository: the same splitter
    as scripts/split_csv_tests.py, called with 5004 data lines per part. */
module CsvSplitFixed {
  import opened Outcomes
  import CsvSplit

  const RowsPerSplit: nat := 5004

  /** The fixed-size run. */
  method SplitFixed(lines: seq<string>, prefix: string) returns (r: Result<CsvSplit.Written>)
    ensures r == CsvSplit.Split(lines, prefix, RowsPerSplit)
  {
    r := CsvSplit.SplitCsvPreserveFormat(lines, prefix, RowsPerSplit);
  }

  /** With the step fixed at 5004 the only failures left are a file of
      fewer than four lines and a file with no data line. */
  lemma FixedFailsOnlyWhenShort(lines: seq<string>, prefix: string)
    ensures CsvSplit.Split(lines, prefix, RowsPerSplit).Err? <==> |lines| <= 4
    ensures |lines| < 4 ==> CsvSplit.Split(lines, prefix, RowsPerSplit) == Err(PyIndexError)
    ensures |lines| == 4 ==> CsvSplit.Split(lines, prefix, RowsPerSplit) == Err(PyUnboundLocal)
  {
    if |lines| > 4 {
      CsvSplit.SplitSucceeds(lines, prefix, RowsPerSplit);
    }
  }

  /** Up to 5004 data lines stay in one file, part 1, a copy of the
      input. */
  lemma FixedSingleFile(lines: seq<string>, prefix: string)
    requires 4 < |lines| <= 4 + RowsPerSplit
    ensures var r := CsvSplit.Split(lines, prefix, RowsPerSplit);
      r.Ok? && r.value.files == [CsvSplit.PartFile(1, lines)] && r.value.partNum == 1
  {
    var data := lines[4..];
    CsvSplit.PartsAt(lines[..4], data, RowsPerSplit, 0);
    assert CsvSplit.NextStart(data, 0, RowsPerSplit) == |data|;
    assert CsvSplit.Slice(data, 0, RowsPerSplit) == data;
    assert lines[..4] + data == lines;
  }
}
