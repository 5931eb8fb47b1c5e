/**
  The three spreadsheet-row formatters of the KYC page (formatCsvRow,
  formatAccountStatusCsvRow, formatManualFreezeCsvRow). Each column value is
  `x || ''` of a field or a literal, trimmed, and the columns are joined with
  one tab; embedded tabs are not escaped.
 */
module RowFormat {
  import opened Types
  import opened JsText

  /** `x || ''` for a nullable string. */
  function OrEmpty(o: Option<string>): string {
    match o
    case None => ""
    case Some(s) => s
  }

  /** `v ? v.toString().trim() : ''`. */
  function TrimCell(v: string): string {
    if v == "" then "" else Trim(v)
  }

  /** `values.map(v => v ? v.toString().trim() : '')`. */
  function TrimCells(vs: seq<string>): (r: seq<string>)
    ensures |r| == |vs|
    ensures forall i :: 0 <= i < |vs| ==> r[i] == Trim(vs[i])
  {
    seq(|vs|, i requires 0 <= i < |vs| => TrimCell(vs[i]))
  }

  /** Column value of a nullable field: its trimmed text, or empty when null or empty. */
  function Column(o: Option<string>): string {
    Trim(OrEmpty(o))
  }

  /** The "KYC FAILED" row (see CsvRowShape). */
  function FormatCsvRow(d: KycData): string {
    Join(TrimCells([OrEmpty(d.date), OrEmpty(d.auditor), OrEmpty(d.memberId), d.remarkNormalized, "Failed"]), '\t')
  }

  /** The "UNDERAGE/NDRP" account-status row (see AccountStatusRowShape). */
  function FormatAccountStatusCsvRow(d: KycData): string {
    Join(TrimCells([OrEmpty(d.date), OrEmpty(d.auditor), OrEmpty(d.memberId), "Normal"]), '\t')
  }

  /** The manual-freeze row (see ManualFreezeRowShape). */
  function FormatManualFreezeCsvRow(d: KycData): string {
    Join(TrimCells([OrEmpty(d.date), OrEmpty(d.auditor), OrEmpty(d.memberId), d.remarkNormalized,
                    "Normal", "All Restriction"]), '\t')
  }

  /** `Trim` leaves the three literal columns of the formatters as they are. */
  lemma LiteralColumnsTrimmed()
    ensures Trim("Failed") == "Failed" && Trim("Normal") == "Normal"
    ensures Trim("All Restriction") == "All Restriction"
  {
    FailedTrimmed();
    NormalTrimmed();
    AllRestrictionTrimmed();
  }

  lemma FailedTrimmed() ensures Trim("Failed") == "Failed" { TrimKeeps("Failed"); }
  lemma NormalTrimmed() ensures Trim("Normal") == "Normal" { TrimKeeps("Normal"); }
  lemma AllRestrictionTrimmed() ensures Trim("All Restriction") == "All Restriction" { TrimKeeps("All Restriction"); }

  /** Joining four, five or six columns puts one separator between each neighbouring pair. */
  lemma JoinFour(a: string, b: string, c: string, e: string, sep: char)
    ensures Join([a, b, c, e], sep) == a + [sep] + b + [sep] + c + [sep] + e
  {
    JoinPrepend(c, [e], sep);
    JoinPrepend(b, [c, e], sep);
    JoinPrepend(a, [b, c, e], sep);
  }

  lemma JoinFive(a: string, b: string, c: string, r: string, e: string, sep: char)
    ensures Join([a, b, c, r, e], sep) == a + [sep] + b + [sep] + c + [sep] + r + [sep] + e
  {
    JoinPrepend(r, [e], sep);
    JoinPrepend(c, [r, e], sep);
    JoinPrepend(b, [c, r, e], sep);
    JoinPrepend(a, [b, c, r, e], sep);
  }

  lemma JoinSix(a: string, b: string, c: string, r: string, e: string, f: string, sep: char)
    ensures Join([a, b, c, r, e, f], sep) == a + [sep] + b + [sep] + c + [sep] + r + [sep] + e + [sep] + f
  {
    JoinPrepend(e, [f], sep);
    JoinPrepend(r, [e, f], sep);
    JoinPrepend(c, [r, e, f], sep);
    JoinPrepend(b, [c, r, e, f], sep);
    JoinPrepend(a, [b, c, r, e, f], sep);
  }

  /** The trimmed columns of the failed-KYC row. */
  function CsvColumns(d: KycData): seq<string> {
    [Column(d.date), Column(d.auditor), Column(d.memberId), Trim(d.remarkNormalized), "Failed"]
  }

  /** The trimmed columns of the account-status row. */
  function AccountStatusColumns(d: KycData): seq<string> {
    [Column(d.date), Column(d.auditor), Column(d.memberId), "Normal"]
  }

  /** The trimmed columns of the manual-freeze row. */
  function ManualFreezeColumns(d: KycData): seq<string> {
    [Column(d.date), Column(d.auditor), Column(d.memberId), Trim(d.remarkNormalized), "Normal", "All Restriction"]
  }

  /** Each formatter trims its values (null and empty both giving the empty string) and joins them with tabs. */
  lemma RowsJoinTrimmedColumns(d: KycData)
    ensures FormatCsvRow(d) == Join(CsvColumns(d), '\t')
    ensures FormatAccountStatusCsvRow(d) == Join(AccountStatusColumns(d), '\t')
    ensures FormatManualFreezeCsvRow(d) == Join(ManualFreezeColumns(d), '\t')
  {
    LiteralColumnsTrimmed();
    assert TrimCells([OrEmpty(d.date), OrEmpty(d.auditor), OrEmpty(d.memberId), d.remarkNormalized, "Failed"])
           == CsvColumns(d);
    assert TrimCells([OrEmpty(d.date), OrEmpty(d.auditor), OrEmpty(d.memberId), "Normal"])
           == AccountStatusColumns(d);
    assert TrimCells([OrEmpty(d.date), OrEmpty(d.auditor), OrEmpty(d.memberId), d.remarkNormalized,
                      "Normal", "All Restriction"])
           == ManualFreezeColumns(d);
  }

  /**
    The failed-KYC row is its five trimmed columns separated by single tabs, with
    none before the first or after the last; the last column is the literal
    "Failed" whatever kycStatus holds.
   */
  lemma CsvRowShape(d: KycData)
    ensures FormatCsvRow(d) == Column(d.date) + "\t" + Column(d.auditor) + "\t" + Column(d.memberId) + "\t"
                              + Trim(d.remarkNormalized) + "\t" + "Failed"
  {
    RowsJoinTrimmedColumns(d);
    JoinFive(Column(d.date), Column(d.auditor), Column(d.memberId), Trim(d.remarkNormalized), "Failed", '\t');
  }

  /** The account-status row is date, auditor and member id, trimmed, then "Normal", tab-separated. */
  lemma AccountStatusRowShape(d: KycData)
    ensures FormatAccountStatusCsvRow(d) == Column(d.date) + "\t" + Column(d.auditor) + "\t"
                                           + Column(d.memberId) + "\t" + "Normal"
  {
    RowsJoinTrimmedColumns(d);
    JoinFour(Column(d.date), Column(d.auditor), Column(d.memberId), "Normal", '\t');
  }

  /** The manual-freeze row is the failed-KYC columns with "Normal" and "All Restriction" in place of "Failed". */
  lemma ManualFreezeRowShape(d: KycData)
    ensures FormatManualFreezeCsvRow(d) == Column(d.date) + "\t" + Column(d.auditor) + "\t" + Column(d.memberId)
                                          + "\t" + Trim(d.remarkNormalized) + "\t" + "Normal" + "\t" + "All Restriction"
  {
    RowsJoinTrimmedColumns(d);
    JoinSix(Column(d.date), Column(d.auditor), Column(d.memberId), Trim(d.remarkNormalized),
            "Normal", "All Restriction", '\t');
  }

  /** No column drawn from the record holds a tab once trimmed. */
  predicate TabFreeColumns(d: KycData) {
    '\t' !in Column(d.date) && '\t' !in Column(d.auditor) && '\t' !in Column(d.memberId)
    && '\t' !in Trim(d.remarkNormalized)
  }

  /** The rows read only date, auditor, member id and normalized remark; kycStatus and the rest never matter. */
  lemma RowsReadOnlySourceColumns(d: KycData, e: KycData)
    requires d.date == e.date && d.auditor == e.auditor && d.memberId == e.memberId
    requires d.remarkNormalized == e.remarkNormalized
    ensures FormatCsvRow(d) == FormatCsvRow(e)
    ensures FormatAccountStatusCsvRow(d) == FormatAccountStatusCsvRow(e)
    ensures FormatManualFreezeCsvRow(d) == FormatManualFreezeCsvRow(e)
  {
  }

  /** Whatever the fields hold, even tabs, the last column of the failed-KYC row is "Failed". */
  lemma CsvRowLastColumn(d: KycData)
    ensures var c := Split(FormatCsvRow(d), '\t'); c[|c| - 1] == "Failed"
  {
    CsvRowShape(d);
    var head := Column(d.date) + "\t" + Column(d.auditor) + "\t" + Column(d.memberId) + "\t"
                + Trim(d.remarkNormalized);
    assert FormatCsvRow(d) == head + ['\t'] + "Failed";
    SplitConcat(head, "Failed", '\t');
    SplitNoSeparator("Failed", '\t');
  }

  /** Whatever the fields hold, the last column of the account-status row is "Normal". */
  lemma AccountStatusRowLastColumn(d: KycData)
    ensures var c := Split(FormatAccountStatusCsvRow(d), '\t'); c[|c| - 1] == "Normal"
  {
    AccountStatusRowShape(d);
    var head := Column(d.date) + "\t" + Column(d.auditor) + "\t" + Column(d.memberId);
    assert FormatAccountStatusCsvRow(d) == head + ['\t'] + "Normal";
    SplitConcat(head, "Normal", '\t');
    SplitNoSeparator("Normal", '\t');
  }

  /** Whatever the fields hold, the manual-freeze row ends in the columns "Normal", "All Restriction". */
  lemma ManualFreezeRowLastColumns(d: KycData)
    ensures var c := Split(FormatManualFreezeCsvRow(d), '\t');
      |c| >= 2 && c[|c| - 2..] == ["Normal", "All Restriction"]
  {
    ManualFreezeRowShape(d);
    var head := Column(d.date) + "\t" + Column(d.auditor) + "\t" + Column(d.memberId) + "\t"
                + Trim(d.remarkNormalized);
    SplitEndsInTwo(head, "Normal", "All Restriction", '\t');
  }

  /** A string ending in two separator-free pieces after separators splits into pieces ending in those two. */
  lemma SplitEndsInTwo(head: string, x: string, y: string, sep: char)
    requires sep !in x && sep !in y
    ensures var c := Split(head + [sep] + x + [sep] + y, sep);
      |c| >= 2 && c[|c| - 2..] == [x, y]
  {
    SplitConcat(head + [sep] + x, y, sep);
    SplitConcat(head, x, sep);
    SplitNoSeparator(x, sep);
    SplitNoSeparator(y, sep);
    var p := Split(head, sep);
    var c := Split(head + [sep] + x + [sep] + y, sep);
    assert c == p + [x] + [y];
  }

  /** With tab-free columns, the failed-KYC row splits back into its five columns and holds four tabs. */
  lemma CsvRowColumns(d: KycData)
    requires TabFreeColumns(d)
    ensures Split(FormatCsvRow(d), '\t')
            == [Column(d.date), Column(d.auditor), Column(d.memberId), Trim(d.remarkNormalized), "Failed"]
    ensures Count(FormatCsvRow(d), '\t') == 4
  {
    var cols := CsvColumns(d);
    RowsJoinTrimmedColumns(d);
    SplitJoin(cols, '\t');
    JoinSeparatorCount(cols, '\t');
  }

  /** With tab-free columns, the account-status row splits back into its four columns and holds three tabs. */
  lemma AccountStatusRowColumns(d: KycData)
    requires TabFreeColumns(d)
    ensures Split(FormatAccountStatusCsvRow(d), '\t')
            == [Column(d.date), Column(d.auditor), Column(d.memberId), "Normal"]
    ensures Count(FormatAccountStatusCsvRow(d), '\t') == 3
  {
    var cols := AccountStatusColumns(d);
    RowsJoinTrimmedColumns(d);
    SplitJoin(cols, '\t');
    JoinSeparatorCount(cols, '\t');
  }

  /** With tab-free columns, the manual-freeze row splits back into its six columns and holds five tabs. */
  lemma ManualFreezeRowColumns(d: KycData)
    requires TabFreeColumns(d)
    ensures Split(FormatManualFreezeCsvRow(d), '\t')
            == [Column(d.date), Column(d.auditor), Column(d.memberId), Trim(d.remarkNormalized),
                "Normal", "All Restriction"]
    ensures Count(FormatManualFreezeCsvRow(d), '\t') == 5
  {
    var cols := ManualFreezeColumns(d);
    RowsJoinTrimmedColumns(d);
    SplitJoin(cols, '\t');
    JoinSeparatorCount(cols, '\t');
  }

  /** A null date leaves the first column empty, so every row then starts with a tab. */
  lemma NullDateLeadingTab(d: KycData)
    requires d.date == None
    ensures FormatCsvRow(d)[0] == '\t'
    ensures FormatAccountStatusCsvRow(d)[0] == '\t'
    ensures FormatManualFreezeCsvRow(d)[0] == '\t'
  {
    CsvRowShape(d);
    AccountStatusRowShape(d);
    ManualFreezeRowShape(d);
  }

  /** The worked example: a record dated "06-01-24" for RCJOSEPH with no member id. */
  lemma CsvRowExample(d: KycData)
    requires d.date == Some("06-01-24") && d.auditor == Some("RCJOSEPH") && d.memberId == None
    requires d.remarkNormalized == "EXPIRED VALID ID"
    ensures FormatCsvRow(d) == "06-01-24\tRCJOSEPH\t\tEXPIRED VALID ID\tFailed"
  {
    CsvRowShape(d);
    ExampleDateTrimmed();
    ExampleAuditorTrimmed();
    ExampleRemarkTrimmed();
    ExampleRowLiteral();
  }

  lemma ExampleRowLiteral()
    ensures "06-01-24" + "\t" + "RCJOSEPH" + "\t" + "" + "\t" + "EXPIRED VALID ID" + "\t" + "Failed"
            == "06-01-24\tRCJOSEPH\t\tEXPIRED VALID ID\tFailed"
  {
  }

  lemma ExampleDateTrimmed() ensures Trim("06-01-24") == "06-01-24" { TrimKeeps("06-01-24"); }
  lemma ExampleAuditorTrimmed() ensures Trim("RCJOSEPH") == "RCJOSEPH" { TrimKeeps("RCJOSEPH"); }
  lemma ExampleRemarkTrimmed() ensures Trim("EXPIRED VALID ID") == "EXPIRED VALID ID" { TrimKeeps("EXPIRED VALID ID"); }
}
