/**
  The KYC record layer of App.tsx: the "MM-DD-YY" date of getFormattedDate, the
  default record of getInitialKycData, the derived-row sync step, the merge of an
  extraction result over a fresh default, and single-field edits.
 */
module KycRecord {
  import opened Types
  import opened JsText
  import opened RowFormat
  import Constants

  /** getFormattedDate: two-digit month (getMonth() + 1), two-digit day and the last two characters of the year. */
  function FormattedDate(today: CalendarDay): string {
    PadStart2(DecimalString(today.month0 + 1)) + "-" + PadStart2(DecimalString(today.day)) + "-"
    + SliceLast2(DecimalString(today.year))
  }

  /** What `Date` reports for its month and day-of-month. */
  predicate ClockDay(today: CalendarDay) {
    0 <= today.month0 < 12 && 1 <= today.day <= 31
  }

  /** For a year of at least two digits the date is eight characters: "MM-DD-YY", zero-padded. */
  lemma FormattedDateDigits(today: CalendarDay)
    requires ClockDay(today) && today.year >= 10
    ensures var m := today.month0 + 1;
      FormattedDate(today)
      == [DigitChar(m / 10), DigitChar(m % 10), '-', DigitChar(today.day / 10), DigitChar(today.day % 10), '-',
          DigitChar((today.year / 10) % 10), DigitChar(today.year % 10)]
    ensures |FormattedDate(today)| == 8
  {
    var m := today.month0 + 1;
    var mm := PadStart2(DecimalString(m));
    var dd := PadStart2(DecimalString(today.day));
    var yy := SliceLast2(DecimalString(today.year));
    PadStart2TwoDigits(m);
    PadStart2TwoDigits(today.day);
    SliceLast2Digits(today.year);
    assert FormattedDate(today) == mm + "-" + dd + "-" + yy;
  }

  /** The object literal of getInitialKycData, before its three rows are filled in. */
  function DefaultKycFields(auditor: string, date: string): KycData {
    KycData(
      date := Some(date),
      auditor := Some(auditor),
      memberId := None,
      name := None,
      remarkRaw := "",
      remarkNormalized := Constants.NormalizedRemarks[0],
      kycStatus := "Failed",
      confidence := 0.0,
      fieldsConfidence := FieldsConfidence(0.0, 0.0),
      notes := "Awaiting image processing.",
      csvRow := "",
      accountStatusCsvRow := "",
      manualFreezeCsvRow := "")
  }

  /** The three cached rows are what the formatters make of the other fields. */
  predicate Synced(d: KycData) {
    && d.csvRow == FormatCsvRow(d)
    && d.accountStatusCsvRow == FormatAccountStatusCsvRow(d)
    && d.manualFreezeCsvRow == FormatManualFreezeCsvRow(d)
  }

  /** Two records that differ at most in their cached rows. */
  predicate SameSourceFields(d: KycData, e: KycData) {
    d.(csvRow := "", accountStatusCsvRow := "", manualFreezeCsvRow := "")
    == e.(csvRow := "", accountStatusCsvRow := "", manualFreezeCsvRow := "")
  }

  /** The record with its three rows re-derived from the other fields. */
  function Resynced(d: KycData): KycData {
    d.(csvRow := FormatCsvRow(d),
       accountStatusCsvRow := FormatAccountStatusCsvRow(d),
       manualFreezeCsvRow := FormatManualFreezeCsvRow(d))
  }

  /**
    Re-deriving the rows makes them consistent, touches no other field, is
    idempotent, and leaves an already consistent record as it is (and only such a
    record).
   */
  lemma ResyncedSpec(d: KycData)
    ensures Synced(Resynced(d))
    ensures SameSourceFields(Resynced(d), d)
    ensures Resynced(Resynced(d)) == Resynced(d)
    ensures Synced(d) <==> Resynced(d) == d
  {
    RowsReadOnlySourceColumns(d, Resynced(d));
  }

  /**
    getInitialKycData(auditor): the default record, then its three rows assigned
    one after another from the formatters.
   */
  method GetInitialKycData(auditor: string, today: CalendarDay) returns (d: KycData)
    ensures d == Resynced(DefaultKycFields(auditor, FormattedDate(today)))
    ensures d.date == Some(FormattedDate(today)) && d.auditor == Some(auditor)
    ensures d.memberId == None && d.name == None && d.remarkRaw == ""
    ensures d.remarkNormalized == "EXPIRED VALID ID" && d.kycStatus == "Failed"
    ensures d.confidence == 0.0 && d.fieldsConfidence == FieldsConfidence(0.0, 0.0)
    ensures d.notes == "Awaiting image processing."
    ensures Synced(d)
  {
    d := DefaultKycFields(auditor, FormattedDate(today));
    ghost var fields := d;
    d := d.(csvRow := FormatCsvRow(d));
    RowsReadOnlySourceColumns(d, fields);
    d := d.(accountStatusCsvRow := FormatAccountStatusCsvRow(d));
    RowsReadOnlySourceColumns(d, fields);
    d := d.(manualFreezeCsvRow := FormatManualFreezeCsvRow(d));
    RowsReadOnlySourceColumns(d, fields);
  }

  /**
    An extraction result as the parsed JSON holds it: each key may be missing
    (`None`); a nullable key that is present may hold `null` (`Some(None)`).
   */
  datatype PartialKycData = PartialKycData(
    date: Option<Option<string>>,
    auditor: Option<Option<string>>,
    memberId: Option<Option<string>>,
    name: Option<Option<string>>,
    remarkRaw: Option<string>,
    remarkNormalized: Option<string>,
    kycStatus: Option<string>,
    confidence: Option<real>,
    fieldsConfidence: Option<FieldsConfidence>,
    notes: Option<string>,
    csvRow: Option<string>,
    accountStatusCsvRow: Option<string>,
    manualFreezeCsvRow: Option<string>)

  /** Spread semantics for one key: a present key overrides, a missing one keeps the base value. */
  function Override<T>(o: Option<T>, base: T): T {
    match o
    case None => base
    case Some(v) => v
  }

  /** `{ ...base, ...api }`. */
  function Spread(base: KycData, api: PartialKycData): KycData {
    KycData(
      date := Override(api.date, base.date),
      auditor := Override(api.auditor, base.auditor),
      memberId := Override(api.memberId, base.memberId),
      name := Override(api.name, base.name),
      remarkRaw := Override(api.remarkRaw, base.remarkRaw),
      remarkNormalized := Override(api.remarkNormalized, base.remarkNormalized),
      kycStatus := Override(api.kycStatus, base.kycStatus),
      confidence := Override(api.confidence, base.confidence),
      fieldsConfidence := Override(api.fieldsConfidence, base.fieldsConfidence),
      notes := Override(api.notes, base.notes),
      csvRow := Override(api.csvRow, base.csvRow),
      accountStatusCsvRow := Override(api.accountStatusCsvRow, base.accountStatusCsvRow),
      manualFreezeCsvRow := Override(api.manualFreezeCsvRow, base.manualFreezeCsvRow))
  }

  /** `v || fallback` for a nullable key: missing, null and "" are all falsy. */
  function OrNullable(v: Option<Option<string>>, fallback: string): string {
    if v.Some? && v.value.Some? && v.value.value != "" then v.value.value else fallback
  }

  /** `v || fallback` for a string key: missing and "" are falsy. */
  function OrString(v: Option<string>, fallback: string): string {
    if v.Some? && v.value != "" then v.value else fallback
  }

  /**
    The record processKycImage stores on success: the API fields spread over a fresh
    default for `auditor`, then `date`, `auditor` and `kyc_status` replaced by the
    API value or, when that is falsy, today's date, `auditor` and "Failed".
   */
  function MergeExtraction(api: PartialKycData, date: string, auditor: string): KycData {
    var seed := Resynced(DefaultKycFields(auditor, date));
    Spread(seed, api).(
      date := Some(OrNullable(api.date, date)),
      auditor := Some(OrNullable(api.auditor, auditor)),
      kycStatus := OrString(api.kycStatus, "Failed"))
  }

  /**
    Field by field: every key the API returns overrides the default; the date,
    auditor and status fall back when the API value is missing, null or empty; and
    the cached rows are the API's own or the default's, not re-derived.
   */
  lemma MergeFieldwise(api: PartialKycData, date: string, auditor: string)
    ensures var r, seed := MergeExtraction(api, date, auditor), Resynced(DefaultKycFields(auditor, date));
      && r.date == Some(if api.date.Some? && api.date.value.Some? && api.date.value.value != ""
                        then api.date.value.value else date)
      && r.auditor == Some(if api.auditor.Some? && api.auditor.value.Some? && api.auditor.value.value != ""
                           then api.auditor.value.value else auditor)
      && r.kycStatus == (if api.kycStatus.Some? && api.kycStatus.value != "" then api.kycStatus.value else "Failed")
      && r.memberId == (if api.memberId.Some? then api.memberId.value else None)
      && r.name == (if api.name.Some? then api.name.value else None)
      && r.remarkRaw == (if api.remarkRaw.Some? then api.remarkRaw.value else "")
      && r.remarkNormalized == (if api.remarkNormalized.Some? then api.remarkNormalized.value
                                else Constants.NormalizedRemarks[0])
      && r.confidence == (if api.confidence.Some? then api.confidence.value else 0.0)
      && r.fieldsConfidence == (if api.fieldsConfidence.Some? then api.fieldsConfidence.value
                                else FieldsConfidence(0.0, 0.0))
      && r.notes == (if api.notes.Some? then api.notes.value else "Awaiting image processing.")
      && r.csvRow == (if api.csvRow.Some? then api.csvRow.value else seed.csvRow)
      && r.accountStatusCsvRow == (if api.accountStatusCsvRow.Some? then api.accountStatusCsvRow.value
                                   else seed.accountStatusCsvRow)
      && r.manualFreezeCsvRow == (if api.manualFreezeCsvRow.Some? then api.manualFreezeCsvRow.value
                                  else seed.manualFreezeCsvRow)
  {
  }

  /** The API's own csv_row is copied verbatim, so a merged record need not be consistent until the sync step. */
  lemma MergeMayLeaveRowsStale(date: string, auditor: string)
    ensures var api := PartialKycData(None, None, None, None, None, None, None, None, None, None, Some(""), None, None);
      !Synced(MergeExtraction(api, date, auditor))
  {
    var api := PartialKycData(None, None, None, None, None, None, None, None, None, None, Some(""), None, None);
    CsvRowShape(MergeExtraction(api, date, auditor));
  }

  /** The string-valued keys of a record that handleKycDataChange can set. */
  datatype KycField =
    | Date | Auditor | MemberId | Name | RemarkRaw | RemarkNormalized | KycStatus | Notes
    | CsvRow | AccountStatusCsvRow | ManualFreezeCsvRow

  /** The value of one string-valued key (a non-nullable one is always present). */
  function FieldValue(d: KycData, f: KycField): Option<string> {
    match f
    case Date => d.date
    case Auditor => d.auditor
    case MemberId => d.memberId
    case Name => d.name
    case RemarkRaw => Some(d.remarkRaw)
    case RemarkNormalized => Some(d.remarkNormalized)
    case KycStatus => Some(d.kycStatus)
    case Notes => Some(d.notes)
    case CsvRow => Some(d.csvRow)
    case AccountStatusCsvRow => Some(d.accountStatusCsvRow)
    case ManualFreezeCsvRow => Some(d.manualFreezeCsvRow)
  }

  /** `{ ...prev, [field]: value }`. */
  function WithField(d: KycData, f: KycField, v: string): KycData {
    match f
    case Date => d.(date := Some(v))
    case Auditor => d.(auditor := Some(v))
    case MemberId => d.(memberId := Some(v))
    case Name => d.(name := Some(v))
    case RemarkRaw => d.(remarkRaw := v)
    case RemarkNormalized => d.(remarkNormalized := v)
    case KycStatus => d.(kycStatus := v)
    case Notes => d.(notes := v)
    case CsvRow => d.(csvRow := v)
    case AccountStatusCsvRow => d.(accountStatusCsvRow := v)
    case ManualFreezeCsvRow => d.(manualFreezeCsvRow := v)
  }

  /** An edit sets exactly the named key and leaves every other key, and both confidences, as they were. */
  lemma EditChangesOnlyThatField(d: KycData, f: KycField, v: string)
    ensures forall g :: FieldValue(WithField(d, f, v), g) == if g == f then Some(v) else FieldValue(d, g)
    ensures WithField(d, f, v).confidence == d.confidence
    ensures WithField(d, f, v).fieldsConfidence == d.fieldsConfidence
  {
  }

  /**
    After an auditor edit, the next sync puts the edited auditor, trimmed, in the
    second column of all three rows.
   */
  lemma EditedAuditorReachesRows(d: KycData, v: string)
    requires TabFreeColumns(WithField(d, Auditor, v))
    ensures var r := Resynced(WithField(d, Auditor, v));
      && |Split(r.csvRow, '\t')| == 5 && Split(r.csvRow, '\t')[1] == Trim(v)
      && |Split(r.accountStatusCsvRow, '\t')| == 4 && Split(r.accountStatusCsvRow, '\t')[1] == Trim(v)
      && |Split(r.manualFreezeCsvRow, '\t')| == 6 && Split(r.manualFreezeCsvRow, '\t')[1] == Trim(v)
  {
    var e := WithField(d, Auditor, v);
    CsvRowColumns(e);
    AccountStatusRowColumns(e);
    ManualFreezeRowColumns(e);
  }
}
