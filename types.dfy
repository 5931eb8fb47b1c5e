/**
  The record shapes of the console (types.ts). A nullable `string | null` field
  is an `Option<string>`; an optional `boolean` (`isExpired?`, `isUnderage?`) is an
  `Option<bool>` whose `None` is JavaScript's `undefined`, distinct from `false`.
 */
module Types {

  datatype Option<T> = None | Some(value: T)

  /** Per-field extraction confidence: exactly the keys `member_id` and `remark_raw`. */
  datatype FieldsConfidence = FieldsConfidence(memberId: real, remarkRaw: real)

  /**
    One KYC extraction record. The last three fields are cached tab-separated rows
    derived from the others (see KycRecord.Synced).
   */
  datatype KycData = KycData(
    date: Option<string>,
    auditor: Option<string>,
    memberId: Option<string>,
    name: Option<string>,
    remarkRaw: string,
    remarkNormalized: string,
    kycStatus: string,
    confidence: real,
    fieldsConfidence: FieldsConfidence,
    notes: string,
    csvRow: string,
    accountStatusCsvRow: string,
    manualFreezeCsvRow: string)

  /** One ID-card extraction record with its two one-shot verification flags. */
  datatype IdCardData = IdCardData(
    name: Option<string>,
    dateOfBirth: Option<string>,
    idNumber: Option<string>,
    dateOfExpiry: Option<string>,
    isExpired: Option<bool>,
    isUnderage: Option<bool>)

  /**
    A calendar day as JavaScript's `Date` getters report it: `getFullYear()`,
    the zero-based `getMonth()` and `getDate()`.
   */
  datatype CalendarDay = CalendarDay(year: int, month0: int, day: int)
}
