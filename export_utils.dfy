/**
 * The text of the CSV report exportToCSV builds: a data-URI prefix, an
 * INVESTMENT SUMMARY block with a header line and eight metric rows, an empty
 * line, and a TRANSACTION HISTORY block with a header and one row per
 * transaction. Every line ends with a newline.
 */
module ExportUtils {
  import opened Text

  /** One purchase as the report lists it; the date is already formatted text. */
  datatype Transaction = Transaction(date: string, amount: real, price: real, units: real)

  /** The fields of the investment result the report reads. */
  datatype ReportInput = ReportInput(
    totalInvested: real,
    currentValue: real,
    roi: real,
    totalUnits: real,
    averagePrice: real,
    lumpSumValue: real,
    inflationAdjustedValue: real,
    transactions: seq<Transaction>)

  /** x.toFixed(digits): a number written with a fixed count of decimals. */
  type Formatter = (real, nat) -> string

  /** A field that holds neither the field separator nor the line separator. */
  predicate Clean(s: string) {
    forall i | 0 <= i < |s| :: s[i] != ',' && s[i] != '\n'
  }

  /** A formatter whose output never holds a separator, as toFixed's digits, sign and point never do. */
  ghost predicate CleanFormatter(fmt: Formatter) {
    forall x: real, digits: nat :: Clean(fmt(x, digits))
  }

  const DataUriPrefix: string := "data:text/csv;charset=utf-8,"
  const SummaryTitle: string := "INVESTMENT SUMMARY"
  const TransactionTitle: string := "TRANSACTION HISTORY"
  const SummaryHeaders: seq<string> := ["Metric", "Value"]
  const TransactionHeaders: seq<string> := ["Date", "Invested (USD)", "Asset Price", "Units Bought"]

  /** The eight metric rows, label then value, in the report's fixed order. */
  function SummaryData(r: ReportInput, asset: string, fmt: Formatter): (rows: seq<seq<string>>)
    ensures |rows| == 8
    ensures forall k | 0 <= k < 8 :: |rows[k]| == 2
  {
    [ ["Asset", asset],
      ["Total Invested (USD)", fmt(r.totalInvested, 2)],
      ["Current Value (USD)", fmt(r.currentValue, 2)],
      ["Total ROI (%)", fmt(r.roi, 2) + "%"],
      ["Total Units accumulated", fmt(r.totalUnits, 8)],
      ["Average Purchase Price", fmt(r.averagePrice, 2)],
      ["Lump Sum Value (USD)", fmt(r.lumpSumValue, 2)],
      ["Inflation Adjusted Value (USD)", fmt(r.inflationAdjustedValue, 2)] ]
  }

  /** One transaction's row: date, amount and price to 2 decimals, units to 8. */
  function TransactionRow(t: Transaction, fmt: Formatter): seq<string> {
    [t.date, fmt(t.amount, 2), fmt(t.price, 2), fmt(t.units, 8)]
  }

  /** transactions.map(TransactionRow). */
  function TransactionData(ts: seq<Transaction>, fmt: Formatter): seq<seq<string>>
  {
    seq(|ts|, i requires 0 <= i < |ts| => TransactionRow(ts[i], fmt))
  }

  /** Each row's fields joined by commas. */
  function Rows(rows: seq<seq<string>>): seq<string>
  {
    seq(|rows|, i requires 0 <= i < |rows| => Join(rows[i], ','))
  }

  /** The summary block: title, header cells each followed by a comma, the rows, an empty line. */
  function SummaryBlock(headers: seq<string>, data: seq<seq<string>>): seq<string> {
    [SummaryTitle, Suffixed(headers, ",")] + Rows(data) + [""]
  }

  /** The transaction block: title, the comma-joined header, the rows. */
  function TransactionBlock(headers: seq<string>, data: seq<seq<string>>): seq<string> {
    [TransactionTitle, Join(headers, ',')] + Rows(data)
  }

  /** The lines of the report after the prefix, without their newlines. */
  function ReportLines(r: ReportInput, asset: string, fmt: Formatter): seq<string> {
    SummaryBlock(SummaryHeaders, SummaryData(r, asset, fmt))
    + TransactionBlock(TransactionHeaders, TransactionData(r.transactions, fmt))
  }

  /** The whole csvContent string: the prefix, then every report line followed by a newline. */
  function Report(r: ReportInput, asset: string, fmt: Formatter): string {
    DataUriPrefix + Suffixed(ReportLines(r, asset, fmt), "\n")
  }

  /** The summary header line keeps a trailing comma after its last cell. */
  lemma SummaryHeaderText()
    ensures Suffixed(SummaryHeaders, ",") == "Metric,Value,"
  {
    assert SummaryHeaders[1..][1..] == [];
  }

  /** The transaction header line: the four column names separated by commas. */
  lemma TransactionHeaderText()
    ensures Join(TransactionHeaders, ',') == "Date" + "," + "Invested (USD)" + "," + "Asset Price" + "," + "Units Bought"
  {
    var t := TransactionHeaders;
    assert t[1..][1..][1..] == ["Units Bought"];
  }

  /** Which line of the report each part of the input becomes. */
  lemma ReportLinesAt(r: ReportInput, asset: string, fmt: Formatter)
    ensures |ReportLines(r, asset, fmt)| == 13 + |r.transactions|
    ensures ReportLines(r, asset, fmt)[0] == SummaryTitle
    ensures ReportLines(r, asset, fmt)[1] == Suffixed(SummaryHeaders, ",")
    ensures forall k | 0 <= k < 8 :: ReportLines(r, asset, fmt)[2 + k] == Join(SummaryData(r, asset, fmt)[k], ',')
    ensures ReportLines(r, asset, fmt)[10] == ""
    ensures ReportLines(r, asset, fmt)[11] == TransactionTitle
    ensures ReportLines(r, asset, fmt)[12] == Join(TransactionHeaders, ',')
    ensures forall i | 0 <= i < |r.transactions| ::
      ReportLines(r, asset, fmt)[13 + i] == Join(TransactionData(r.transactions, fmt)[i], ',')
  {
  }

  /**
   * The line structure of the report: the summary title, the header line
   * with its trailing comma, the eight metric rows, one empty line, the
   * history title, the transaction header and one row per transaction, in
   * input order: 13 lines plus one per transaction.
   */
  lemma ReportLayout(r: ReportInput, asset: string, fmt: Formatter)
    ensures |ReportLines(r, asset, fmt)| == 13 + |r.transactions|
    ensures ReportLines(r, asset, fmt)[0] == "INVESTMENT SUMMARY"
    ensures ReportLines(r, asset, fmt)[1] == "Metric,Value,"
    ensures forall k | 0 <= k < 8 :: ReportLines(r, asset, fmt)[2 + k] == Join(SummaryData(r, asset, fmt)[k], ',')
    ensures ReportLines(r, asset, fmt)[10] == ""
    ensures ReportLines(r, asset, fmt)[11] == "TRANSACTION HISTORY"
    ensures ReportLines(r, asset, fmt)[12] == "Date" + "," + "Invested (USD)" + "," + "Asset Price" + "," + "Units Bought"
    ensures forall i | 0 <= i < |r.transactions| ::
      ReportLines(r, asset, fmt)[13 + i] == Join(TransactionRow(r.transactions[i], fmt), ',')
  {
    ReportLinesAt(r, asset, fmt);
    SummaryHeaderText();
    TransactionHeaderText();
  }

  /**
   * The eight metric lines, in the report's fixed order: each label, a comma
   * and the formatted value; the ROI carries a percent sign and the units
   * eight decimals.
   */
  lemma SummaryLines(r: ReportInput, asset: string, fmt: Formatter)
    ensures ReportLines(r, asset, fmt)[2] == "Asset" + "," + asset
    ensures ReportLines(r, asset, fmt)[3] == "Total Invested (USD)" + "," + fmt(r.totalInvested, 2)
    ensures ReportLines(r, asset, fmt)[4] == "Current Value (USD)" + "," + fmt(r.currentValue, 2)
    ensures ReportLines(r, asset, fmt)[5] == "Total ROI (%)" + "," + (fmt(r.roi, 2) + "%")
    ensures ReportLines(r, asset, fmt)[6] == "Total Units accumulated" + "," + fmt(r.totalUnits, 8)
    ensures ReportLines(r, asset, fmt)[7] == "Average Purchase Price" + "," + fmt(r.averagePrice, 2)
    ensures ReportLines(r, asset, fmt)[8] == "Lump Sum Value (USD)" + "," + fmt(r.lumpSumValue, 2)
    ensures ReportLines(r, asset, fmt)[9] == "Inflation Adjusted Value (USD)" + "," + fmt(r.inflationAdjustedValue, 2)
  {
    ReportLinesAt(r, asset, fmt);
    var data := SummaryData(r, asset, fmt);
    forall i | 0 <= i < 8
      ensures Join(data[i], ',') == data[i][0] + "," + data[i][1]
    {
      JoinPair(data[i][0], data[i][1], ',');
      assert data[i] == [data[i][0], data[i][1]];
    }
  }

  /** The report opens with the data-URI prefix, directly followed by the summary title line. */
  lemma ReportOpening(r: ReportInput, asset: string, fmt: Formatter)
    ensures var opening := DataUriPrefix + SummaryTitle + "\n";
      |opening| <= |Report(r, asset, fmt)| && Report(r, asset, fmt)[..|opening|] == opening
  {
    var lines := ReportLines(r, asset, fmt);
    assert lines[0] == SummaryTitle;
    var rest := Suffixed(lines[1..], "\n");
    assert Suffixed(lines, "\n") == SummaryTitle + "\n" + rest;
    assert Report(r, asset, fmt) == DataUriPrefix + SummaryTitle + "\n" + rest;
  }

  /** Appending one more suffixed item to text that ends in suffixed items. */
  lemma Emit(a: string, items: seq<string>, x: string, suffix: string)
    ensures a + Suffixed(items, suffix) + (x + suffix) == a + Suffixed(items + [x], suffix)
  {
    SuffixedSnoc(items, x, suffix);
  }

  /** Appending a whole block of suffixed items to text that ends in suffixed items. */
  lemma EmitAll(a: string, items: seq<string>, more: seq<string>, suffix: string)
    ensures a + Suffixed(items, suffix) + Suffixed(more, suffix) == a + Suffixed(items + more, suffix)
  {
    SuffixedAppend(items, more, suffix);
    assert a + Suffixed(items, suffix) + Suffixed(more, suffix) == a + (Suffixed(items, suffix) + Suffixed(more, suffix));
  }

  /** rows.forEach(row => csvContent += row.join(",") + "\n"). */
  method AppendRows(csvContent: string, rows: seq<seq<string>>) returns (out: string)
    ensures out == csvContent + Suffixed(Rows(rows), "\n")
  {
    out := csvContent;
    ghost var lines := Rows(rows);
    for i := 0 to |rows|
      invariant out == csvContent + Suffixed(lines[..i], "\n")
    {
      Emit(csvContent, lines[..i], lines[i], "\n");
      assert lines[..i + 1] == lines[..i] + [lines[i]];
      out := out + (Join(rows[i], ',') + "\n");
    }
    assert lines[..|rows|] == lines;
  }

  /** The summary half of exportToCSV: title, header line, metric rows, empty line. */
  method AddSummary(csvContent: string, summaryHeaders: seq<string>, summaryData: seq<seq<string>>) returns (out: string)
    ensures out == csvContent + Suffixed(SummaryBlock(summaryHeaders, summaryData), "\n")
  {
    ghost var lines: seq<string> := [SummaryTitle];
    out := csvContent + (SummaryTitle + "\n");
    Emit(csvContent, [], SummaryTitle, "\n");

    ghost var afterTitle := out;
    for i := 0 to |summaryHeaders|
      invariant out == afterTitle + Suffixed(summaryHeaders[..i], ",")
    {
      Emit(afterTitle, summaryHeaders[..i], summaryHeaders[i], ",");
      assert summaryHeaders[..i + 1] == summaryHeaders[..i] + [summaryHeaders[i]];
      out := out + (summaryHeaders[i] + ",");
    }
    assert summaryHeaders[..|summaryHeaders|] == summaryHeaders;
    ghost var header := Suffixed(summaryHeaders, ",");
    assert afterTitle + header + "\n" == afterTitle + (header + "\n");
    Emit(csvContent, lines, header, "\n");
    out := out + "\n";
    lines := lines + [header];
    assert out == csvContent + Suffixed(lines, "\n");

    ghost var beforeRows := out;
    out := AppendRows(out, summaryData);
    EmitAll(csvContent, lines, Rows(summaryData), "\n");
    lines := lines + Rows(summaryData);
    assert out == csvContent + Suffixed(lines, "\n");

    Emit(csvContent, lines, "", "\n");
    assert "" + "\n" == "\n";
    out := out + "\n";
    lines := lines + [""];
    assert lines == SummaryBlock(summaryHeaders, summaryData);
  }

  /** The transaction half of exportToCSV: title, header line, one row per transaction. */
  method AddTransactions(csvContent: string, transactionHeaders: seq<string>, transactionData: seq<seq<string>>)
    returns (out: string)
    ensures out == csvContent + Suffixed(TransactionBlock(transactionHeaders, transactionData), "\n")
  {
    ghost var lines: seq<string> := [TransactionTitle];
    out := csvContent + (TransactionTitle + "\n");
    Emit(csvContent, [], TransactionTitle, "\n");
    Emit(csvContent, lines, Join(transactionHeaders, ','), "\n");
    out := out + (Join(transactionHeaders, ',') + "\n");
    lines := lines + [Join(transactionHeaders, ',')];

    out := AppendRows(out, transactionData);
    EmitAll(csvContent, lines, Rows(transactionData), "\n");
  }

  /**
   * The content-building part of exportToCSV: the data-URI prefix, then the
   * summary block and the transaction block.
   */
  method ExportCsv(r: ReportInput, asset: string, fmt: Formatter) returns (csvContent: string)
    ensures csvContent == Report(r, asset, fmt)
  {
    var summaryHeaders := SummaryHeaders;
    var summaryData := SummaryData(r, asset, fmt);
    var transactionHeaders := TransactionHeaders;
    var transactionData := TransactionData(r.transactions, fmt);

    csvContent := DataUriPrefix;
    csvContent := AddSummary(csvContent, summaryHeaders, summaryData);
    csvContent := AddTransactions(csvContent, transactionHeaders, transactionData);

    ghost var summary := SummaryBlock(summaryHeaders, summaryData);
    ghost var transactions := TransactionBlock(transactionHeaders, transactionData);
    EmitAll(DataUriPrefix, summary, transactions, "\n");
  }

  /** The report's text fields, as clean as the report needs them to read back. */
  ghost predicate CleanInput(r: ReportInput, asset: string, fmt: Formatter) {
    && Clean(asset)
    && CleanFormatter(fmt)
    && (forall i | 0 <= i < |r.transactions| :: Clean(r.transactions[i].date))
  }

  /** The eight metric labels hold no comma and no newline. */
  lemma LabelTexts()
    ensures Clean("Asset") && Clean("Total Invested (USD)") && Clean("Current Value (USD)") && Clean("Total ROI (%)")
    ensures Clean("Total Units accumulated") && Clean("Average Purchase Price")
    ensures Clean("Lump Sum Value (USD)") && Clean("Inflation Adjusted Value (USD)")
  {
  }

  /** No metric label holds a comma or a newline. */
  lemma LabelsClean(r: ReportInput, asset: string, fmt: Formatter)
    ensures forall k | 0 <= k < 8 :: Clean(SummaryData(r, asset, fmt)[k][0])
  {
    LabelTexts();
  }

  /** With clean inputs no cell of the report holds a comma or a newline. */
  lemma CellsClean(r: ReportInput, asset: string, fmt: Formatter)
    requires CleanInput(r, asset, fmt)
    ensures forall k | 0 <= k < 8 :: FreeOf(SummaryData(r, asset, fmt)[k], ',') && FreeOf(SummaryData(r, asset, fmt)[k], '\n')
    ensures forall i | 0 <= i < |r.transactions| ::
      FreeOf(TransactionRow(r.transactions[i], fmt), ',') && FreeOf(TransactionRow(r.transactions[i], fmt), '\n')
  {
    var d := SummaryData(r, asset, fmt);
    LabelsClean(r, asset, fmt);
    forall k | 0 <= k < 8 ensures FreeOf(d[k], ',') && FreeOf(d[k], '\n') {
      assert Clean(d[k][1]) by {
        if k == 3 {
          assert Clean(fmt(r.roi, 2));
          assert d[k][1] == fmt(r.roi, 2) + "%";
        }
      }
    }
  }

  /** The two titles and the column names hold no comma and no newline. */
  lemma FixedTexts()
    ensures Clean(SummaryTitle) && Clean(TransactionTitle)
    ensures Clean("Metric") && Clean("Value")
    ensures Clean("Date") && Clean("Invested (USD)") && Clean("Asset Price") && Clean("Units Bought")
  {
  }

  /** The fixed lines of the report hold no newline. */
  lemma FixedLinesUnbroken()
    ensures '\n' !in SummaryTitle && '\n' !in TransactionTitle
    ensures '\n' !in Suffixed(SummaryHeaders, ",")
    ensures '\n' !in Join(TransactionHeaders, ',')
  {
    FixedTexts();
    var summary := SummaryHeaders + [""];
    assert FreeOf(summary, '\n') by {
      forall k | 0 <= k < |summary| ensures '\n' !in summary[k] {
        assert Clean(summary[k]);
      }
    }
    SuffixedIsJoin(SummaryHeaders, ',');
    JoinAvoids(summary, ',', '\n');
    assert FreeOf(TransactionHeaders, '\n') by {
      forall k | 0 <= k < |TransactionHeaders| ensures '\n' !in TransactionHeaders[k] {
        assert Clean(TransactionHeaders[k]);
      }
    }
    JoinAvoids(TransactionHeaders, ',', '\n');
  }

  /** With clean inputs no line of the report holds a newline. */
  lemma LinesClean(r: ReportInput, asset: string, fmt: Formatter)
    requires CleanInput(r, asset, fmt)
    ensures FreeOf(ReportLines(r, asset, fmt), '\n')
  {
    var lines := ReportLines(r, asset, fmt);
    var d := SummaryData(r, asset, fmt);
    ReportLinesAt(r, asset, fmt);
    CellsClean(r, asset, fmt);
    FixedLinesUnbroken();
    forall j | 0 <= j < |lines| ensures '\n' !in lines[j] {
      if 2 <= j < 10 {
        JoinAvoids(d[j - 2], ',', '\n');
      } else if j >= 13 {
        JoinAvoids(TransactionRow(r.transactions[j - 13], fmt), ',', '\n');
      }
    }
  }

  /**
   * Reading the report back, line by line: it starts with the data-URI
   * prefix, and the rest splits at newlines into exactly the report's lines
   * and the empty rest after the final newline, when no cell holds a comma
   * or a newline.
   */
  lemma ReportReadsBack(r: ReportInput, asset: string, fmt: Formatter)
    requires CleanInput(r, asset, fmt)
    ensures Report(r, asset, fmt)[..|DataUriPrefix|] == DataUriPrefix
    ensures Split(Report(r, asset, fmt)[|DataUriPrefix|..], '\n') == ReportLines(r, asset, fmt) + [""]
  {
    var lines := ReportLines(r, asset, fmt);
    LinesClean(r, asset, fmt);
    SplitTerminated(lines, '\n');
    var text := Report(r, asset, fmt);
    assert text[|DataUriPrefix|..] == Suffixed(lines, "\n");
  }

  /**
   * Reading the rows back: each metric row splits at commas into its label
   * and its value, and each transaction row into its four cells, when no
   * cell holds a comma or a newline.
   */
  lemma RowsReadBack(r: ReportInput, asset: string, fmt: Formatter)
    requires CleanInput(r, asset, fmt)
    ensures forall k | 0 <= k < 8 :: Split(ReportLines(r, asset, fmt)[2 + k], ',') == SummaryData(r, asset, fmt)[k]
    ensures forall i | 0 <= i < |r.transactions| ::
      Split(ReportLines(r, asset, fmt)[13 + i], ',') == TransactionRow(r.transactions[i], fmt)
  {
    var lines := ReportLines(r, asset, fmt);
    var d := SummaryData(r, asset, fmt);
    ReportLinesAt(r, asset, fmt);
    CellsClean(r, asset, fmt);
    forall k | 0 <= k < 8 ensures Split(lines[2 + k], ',') == d[k] {
      SplitJoin(d[k], ',');
    }
    forall i | 0 <= i < |r.transactions| ensures Split(lines[13 + i], ',') == TransactionRow(r.transactions[i], fmt) {
      SplitJoin(TransactionRow(r.transactions[i], fmt), ',');
    }
  }
}
