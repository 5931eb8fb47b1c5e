# KYC QA console: record layer model

A Dafny model of the client-side record layer of the Juan365 risk-control KYC
console (`App.tsx`, `constants.ts`, `types.ts`). It covers five pieces:

- **Records.** These are the KYC extraction record and the ID-card record (module `Types`).
- **Label tables.** These are the 14 normalized remarks, the remark priority list and the 27 auditors (module `Constants`).
- **Row formatters.** Three tab-separated spreadsheet rows are built from a record, with each column trimmed the way `String.prototype.trim` trims (module `RowFormat`). They rest on the JavaScript string built-ins, written out in module `JsText`.
- **Record seeding and the KYC controller.** Module `KycRecord` covers the "MM-DD-YY" date, the default record, the merge of an extraction result over a fresh default, single-field edits and the row-sync step. Module `KycController` holds class `KycSession`, the state that `App` owns: record, remembered auditor, preview, loading flag and error.
- **Verification and ticket.** Module `IdFlags` holds the ID-card verification flags ("under 21", "expired"). They rest on ECMAScript day numbers and time values in module `Calendar`. Module `TgTicket` holds the Telegram ticket page: seeding, the text template and the user toggle.

The clock is a parameter: a `CalendarDay` (the `getFullYear`/`getMonth`/`getDate`
triple) for the KYC date, and a `Calendar.LocalTime` for the ID flags. Parsing a
date string (`new Date(s)` together with the `isNaN` test) is a function parameter
`string -> Option<LocalTime>`. The extraction service is also a parameter: its
parsed result, or the thrown error.

Three behaviours of the code are worth stating on their own:

- **On the 21st birthday the holder is no longer underage.** Born 2000-01-01, on 2021-01-01 `age` is 21 (App.tsx:543-548), so `isUnderage` is false (`IdFlags.UnderageExamples`).
- **A null date gives rows that start with a tab**, because `date || ''` leaves the first column empty (App.tsx:52-59; `RowFormat.NullDateLeadingTab`).
- **A superseded extraction is not discarded.** Its response still replaces the record (App.tsx:800). The model has one pending extraction at a time.

## Model

| member | source | states |
|---|---|---|
| Constants.NormalizedRemarksTable | constants.ts:133-148 | exactly 14 remarks, pairwise distinct, the first (the default remark) is "EXPIRED VALID ID" |
| Constants.AuditorsTable | constants.ts:150-178 | exactly 27 auditors, pairwise distinct, the first (the initial auditor) is "RCNORBERTO" |
| Constants.PriorityIsPermutation | constants.ts:86-99 | the priority list has the same 14 distinct labels as the remark table (equal multisets) in a different order, "ID ALREADY USED" first and "NDRP" last |
| JsText.TrimSpec | App.tsx:59 | `trim` keeps one contiguous part of the string that neither starts nor ends with whitespace and drops only whitespace around it |
| JsText.TrimIdempotent | App.tsx:59 | trimming a trimmed value changes nothing |
| JsText.SplitLength | App.tsx:59 | a split yields one more piece than there are separators |
| JsText.SplitJoin | App.tsx:59 | splitting a join of separator-free pieces returns the pieces |
| JsText.JoinSeparatorCount | App.tsx:59 | a join of n separator-free pieces has exactly n-1 separators |
| JsText.PadStart2TwoDigits | App.tsx:10-11 | `n.toString().padStart(2, '0')` is the tens digit then the units digit for n < 100 |
| JsText.SliceLast2Digits | App.tsx:12 | `slice(-2)` of a number of two or more digits is its tens and units digits |
| RowFormat.RowsJoinTrimmedColumns | App.tsx:50-87 | each row is its column list, every column trimmed and a null or empty field as "", joined with a single tab |
| RowFormat.CsvRowShape | App.tsx:50-60 | the failed-KYC row is date, auditor, member ID, normalized remark, "Failed", tab-separated |
| RowFormat.AccountStatusRowShape | App.tsx:62-72 | the account-status row is date, auditor, member ID, "Normal", tab-separated |
| RowFormat.ManualFreezeRowShape | App.tsx:74-87 | the manual-freeze row is date, auditor, member ID, normalized remark, "Normal", "All Restriction", tab-separated |
| RowFormat.CsvRowLastColumn | App.tsx:50-60 | the last column of the failed-KYC row is "Failed" whatever the record's status |
| RowFormat.AccountStatusRowLastColumn | App.tsx:62-72 | the last column of the account-status row is "Normal" |
| RowFormat.ManualFreezeRowLastColumns | App.tsx:74-87 | the manual-freeze row ends in the columns "Normal", "All Restriction" |
| RowFormat.RowsReadOnlySourceColumns | App.tsx:50-87 | the rows depend only on date, auditor, member ID and normalized remark |
| RowFormat.CsvRowColumns | App.tsx:50-60 | with tab-free trimmed fields the failed-KYC row splits back into its five columns and holds exactly 4 tabs |
| RowFormat.AccountStatusRowColumns | App.tsx:62-72 | with tab-free trimmed fields the account-status row splits back into its four columns and holds exactly 3 tabs |
| RowFormat.ManualFreezeRowColumns | App.tsx:74-87 | with tab-free trimmed fields the manual-freeze row splits back into its six columns and holds exactly 5 tabs |
| RowFormat.NullDateLeadingTab | App.tsx:50-87 | a null date makes every row start with a tab |
| RowFormat.CsvRowExample | App.tsx:50-60 | date "06-01-24", auditor "RCJOSEPH", no member ID, remark "EXPIRED VALID ID" give "06-01-24\tRCJOSEPH\t\tEXPIRED VALID ID\tFailed" |
| KycRecord.FormattedDateDigits | App.tsx:8-14 | the date is 8 characters: two-digit month (index + 1), "-", two-digit day, "-", last two digits of the year |
| KycRecord.ResyncedSpec | App.tsx:361-368 | re-deriving the rows makes them the formatter outputs, touches no other field, is idempotent, and leaves a record unchanged exactly when its rows were already consistent |
| KycRecord.GetInitialKycData | App.tsx:16-36 | the default record: given auditor, today's date, null member ID and name, empty raw remark, remark "EXPIRED VALID ID", status "Failed", zero confidences, notes "Awaiting image processing.", and the three rows equal to the formatter outputs |
| KycRecord.MergeFieldwise | App.tsx:792-798 | every key the API returns overrides the fresh default; date, auditor and status fall back to today, the remembered auditor and "Failed" when the API value is missing, null or empty; API rows are copied verbatim |
| KycRecord.MergeMayLeaveRowsStale | App.tsx:792-798 | an API `csv_row` of "" leaves the merged record inconsistent until the sync step |
| KycRecord.EditChangesOnlyThatField | App.tsx:826-831 | an edit sets exactly the named key and leaves every other key as it was |
| KycRecord.EditedAuditorReachesRows | App.tsx:826-831 | after an auditor edit the next sync puts the trimmed value in the second column of all three rows |
| KycController.KycSession.constructor | App.tsx:766-770 | initial state: a default record for "RCNORBERTO", who is also the remembered auditor, no preview, not loading, no error |
| KycController.KycSession.Reset | App.tsx:773-781 | a default record for the remembered auditor, preview released, loading and error cleared, the remembered auditor kept |
| KycController.KycSession.SelectImage | App.tsx:813-824 | a default record for the remembered auditor, error cleared, the new preview shown, loading started, the remembered auditor captured for the extraction |
| KycController.KycSession.CompleteExtraction | App.tsx:783-811 | success stores the merge of the API fields over a fresh default for the captured auditor; failure keeps the record and shows the error's message or "An unexpected error occurred."; loading ends either way |
| KycController.KycSession.EditField | App.tsx:826-831 | the record gets the edited key; the remembered auditor becomes the value exactly when the key is the auditor; nothing else changes |
| KycController.KycSession.SyncRows | App.tsx:361-368 | the rows become the formatter outputs, no other field changes, and an update is issued exactly when a row was stale |
| KycController.EditedAuditorSurvivesReset | App.tsx:773-781 | an auditor edit followed by a reset seeds a consistent new record with the edited auditor, error and loading cleared |
| KycController.SyncTwiceIsOnce | App.tsx:361-368 | a second sync issues no update and the record equals one sync of the original |
| Calendar.DayFromYearStep | App.tsx:558 | January 1 of consecutive years lies 365 or 366 days apart, per the Gregorian leap rule |
| Calendar.DayNumberOrder | App.tsx:558 | day numbers follow calendar order |
| Calendar.DayNumberInjective | App.tsx:558 | two valid days have the same day number exactly when they are the same day |
| Calendar.EarlierThanMidnight | App.tsx:556-558 | a moment is before today's midnight exactly when its calendar day is before today's |
| Calendar.DayNumberExamples | App.tsx:558 | 1970-01-01 is day 0, 2000-01-01 is day 10957, 2000-03-01 follows 2000-02-29 |
| IdFlags.ParsedDate | App.tsx:539-541 | a null or empty date string gives no date |
| IdFlags.AgeIsCompletedYears | App.tsx:543-547 | the age is the number of birthdays reached: the last is not after today, the next is |
| IdFlags.UnderageIffBefore21stBirthday | App.tsx:538-549 | underage exactly when today is before the 21st birthday |
| IdFlags.ExpiredIffEarlierDay | App.tsx:552-559 | expired exactly when the expiry's calendar day is before today's; the expiry day itself is not expired |
| IdFlags.MissingDatesFailOpen | App.tsx:538-560 | a missing or unparsable date raises neither flag |
| IdFlags.IdScannerPage.constructor | App.tsx:527 | the page starts with no ID-card record |
| IdFlags.IdScannerPage.EvaluateFlags | App.tsx:536-564 | when a flag is undefined both flags are set from the two dates against one clock reading; otherwise nothing changes; afterwards both flags are defined |
| IdFlags.EvaluateFlagsTwice | App.tsx:536-537 | the flags are one-shot: a later run keeps the first run's flags whatever the clock says |
| IdFlags.UnderageExamples | App.tsx:543-548 | born 2000-01-01: underage on 2020-12-31, not on 2021-01-01 or 2021-06-01 |
| IdFlags.ExpiryDayWestOfUtc | App.tsx:553-558 | an expiry string parsed to 19:00 of the previous local day, as UTC-5 parses "2021-06-01", is expired on June 1 |
| IdFlags.ExpiryExamples | App.tsx:552-559 | expiry 2020-01-01 is expired on 2021-01-01, 2099-01-01 is not, 2021-06-01 is not on that same day |
| TgTicket.TicketTextIsLines | App.tsx:422-428 | the ticket is the six header lines and, with users, a blank line and one line per user, joined by newlines |
| TgTicket.TicketSplitsIntoLines | App.tsx:422-428 | with single-line fields the ticket splits back into those lines: member ID on line 3, name on line 4, reason on line 6, users from line 8 in selection order |
| TgTicket.RemoveAllMembers | App.tsx:433 | the filter keeps exactly the other users |
| TgTicket.ToggleFlipsMembership | App.tsx:430-436 | a toggle flips the membership of that user and of no one else |
| TgTicket.ToggleKeepsNoDuplicates | App.tsx:430-436 | a duplicate-free selection stays duplicate-free |
| TgTicket.ToggleTwice | App.tsx:430-436 | toggling an absent user twice restores the selection; toggling a selected user twice moves them to the end |
| TgTicket.TgTicketPage.constructor | App.tsx:407-411 | empty member ID and name, the default remark as reason, no users, empty text |
| TgTicket.TgTicketPage.SeedFromRecord | App.tsx:414-420 | member ID and name from the record, null as ""; reason the normalized remark, or the default remark when empty, so never empty |
| TgTicket.TgTicketPage.RefreshTicketText | App.tsx:422-428 | the text becomes the ticket lines of the current fields and selection joined by newlines |
| TgTicket.TgTicketPage.ToggleUser | App.tsx:430-436 | the selection becomes the toggled list: the user's membership flips and a duplicate-free selection stays so |

## Left out

- **The extraction service** (`services/geminiService.ts`): the model client, the API key check, `JSON.parse` and error wrapping. It is not part of this model; its result is a parameter.
- **Browser plumbing.** This covers file reading into base64, object URLs and their revocation, clipboard writes and "Copied!" timers, drag, drop and paste listeners, rendering and icons. The release of the old preview in `Reset` and `SelectImage` is not modelled.
- **The confidence badge.** It is floating-point percentage formatting.
- **Date parsing and time zones.** `new Date("YYYY-MM-DD")` parses as UTC while the getters and `setHours` work in local time. The expiry rule is stated on the parsed local day; which local day a date string parses to is left to the parser parameter, and so to the time zone: at UTC-5, `new Date("2021-06-01")` is 19:00 on May 31 local time, and the ID counts as expired on its own expiry day (`IdFlags.ExpiryDayWestOfUtc`). Daylight-saving shifts are not modelled.
- **Clock reads.** `processKycImage` reads the clock twice (the seed's date and `formattedDate`), and the ID effect reads it twice. The model uses one reading for each.
- **Overlapping extractions.** The code writes every response unconditionally. `KycSession` has one pending extraction, whose captured auditor is `requestAuditor`.
- **Non-string edit values.** `handleKycDataChange` takes a string value, so edits of the numeric confidence keys are not modelled.
- KycRecord.FormattedDateDigits: states the 8-character form only for years of two or more digits; a year below 10 gives a 7-character date.
- **When the row sync runs.** It runs only while the KYC page is mounted. The model makes it an explicit method, `SyncRows`.
- **The remaining ticket-page parts.** This covers the ticket page's text-input setters, the copy button and the list of Telegram user names, which is display data only.
- **The extraction prompt text.** It is left out except for the remark priority list.
