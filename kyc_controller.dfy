/**
  The KYC state owned by the App component: the shared record, the remembered
  auditor, the image preview, the loading flag and the error message, with the
  handlers that change them (resetKycState, handleKycImageSelect, the two ways
  processKycImage ends, handleKycDataChange) and the row-sync effect of the KYC page.
 */
module KycController {
  import opened Types
  import opened RowFormat
  import opened KycRecord
  import Constants

  /** How the extraction call ended: the parsed record, or a thrown value (`Some(message)` for an `Error`). */
  datatype ExtractionResult = Succeeded(api: PartialKycData) | Failed(message: Option<string>)

  /** The message processKycImage shows for a thrown value. */
  function ErrorMessage(message: Option<string>): string {
    match message
    case Some(m) => m
    case None => "An unexpected error occurred."
  }

  class KycSession {
    /** sharedKycData */
    var record: KycData
    /** lastAuditor: the auditor a new default record is seeded with */
    var lastAuditor: string
    /** imagePreview: the object URL of the selected image */
    var imagePreview: Option<string>
    /** kycIsLoading */
    var isLoading: bool
    /** kycError */
    var error: Option<string>
    /** The lastAuditor that the processKycImage closure of the pending extraction captured. */
    var requestAuditor: string

    /** The initial state: a default record for the first auditor, who is also the remembered one. */
    constructor(today: CalendarDay)
      ensures record == Resynced(DefaultKycFields(Constants.Auditors[0], FormattedDate(today)))
      ensures lastAuditor == "RCNORBERTO" && requestAuditor == "RCNORBERTO"
      ensures imagePreview == None && !isLoading && error == None
    {
      var initial := GetInitialKycData(Constants.Auditors[0], today);
      record := initial;
      lastAuditor := Constants.Auditors[0];
      requestAuditor := Constants.Auditors[0];
      imagePreview := None;
      isLoading := false;
      error := None;
    }

    /** resetKycState: a default record for the remembered auditor; preview released; flags cleared. */
    method Reset(today: CalendarDay)
      modifies this
      ensures record == Resynced(DefaultKycFields(lastAuditor, FormattedDate(today)))
      ensures Synced(record) && record.auditor == Some(lastAuditor)
      ensures lastAuditor == old(lastAuditor) && requestAuditor == old(requestAuditor)
      ensures imagePreview == None && !isLoading && error == None
    {
      record := GetInitialKycData(lastAuditor, today);
      imagePreview := None;
      isLoading := false;
      error := None;
    }

    /**
      handleKycImageSelect followed by the synchronous start of processKycImage: a
      default record for the remembered auditor, the new preview, the error cleared
      and the extraction pending.
     */
    method SelectImage(previewUrl: string, today: CalendarDay)
      modifies this
      ensures record == Resynced(DefaultKycFields(lastAuditor, FormattedDate(today)))
      ensures Synced(record) && record.auditor == Some(lastAuditor)
      ensures lastAuditor == old(lastAuditor) && requestAuditor == old(lastAuditor)
      ensures imagePreview == Some(previewUrl) && isLoading && error == None
    {
      record := GetInitialKycData(lastAuditor, today);
      error := None;
      imagePreview := Some(previewUrl);
      requestAuditor := lastAuditor;
      isLoading := true;
    }

    /**
      The end of processKycImage: on success the record becomes the API fields
      merged over a fresh default (never over the previous record); on failure the
      record stays and the message is shown. Loading ends either way.
     */
    method CompleteExtraction(result: ExtractionResult, today: CalendarDay)
      modifies this
      ensures result.Succeeded? ==> record == MergeExtraction(result.api, FormattedDate(today), old(requestAuditor))
      ensures result.Succeeded? ==> error == old(error)
      ensures result.Failed? ==> record == old(record) && error == Some(ErrorMessage(result.message))
      ensures lastAuditor == old(lastAuditor) && requestAuditor == old(requestAuditor)
      ensures imagePreview == old(imagePreview) && !isLoading
    {
      match result {
        case Succeeded(api) =>
          var formattedDate := FormattedDate(today);
          var seed := GetInitialKycData(requestAuditor, today);
          record := Spread(seed, api).(
            date := Some(OrNullable(api.date, formattedDate)),
            auditor := Some(OrNullable(api.auditor, requestAuditor)),
            kycStatus := OrString(api.kycStatus, "Failed"));
        case Failed(message) =>
          error := Some(ErrorMessage(message));
      }
      isLoading := false;
    }

    /** handleKycDataChange: sets one key; an auditor edit is also remembered for later resets. */
    method EditField(field: KycField, value: string)
      modifies this
      ensures record == WithField(old(record), field, value)
      ensures lastAuditor == if field == Auditor then value else old(lastAuditor)
      ensures requestAuditor == old(requestAuditor) && imagePreview == old(imagePreview)
      ensures isLoading == old(isLoading) && error == old(error)
    {
      if field == Auditor {
        lastAuditor := value;
      }
      record := WithField(record, field, value);
    }

    /**
      The row-sync effect: recompute the three rows and store them only when one of
      them differs from the cache. Afterwards the rows are consistent and nothing
      else has changed.
     */
    method SyncRows() returns (updated: bool)
      modifies this
      ensures record == Resynced(old(record))
      ensures Synced(record) && SameSourceFields(record, old(record))
      ensures updated <==> !Synced(old(record))
      ensures lastAuditor == old(lastAuditor) && requestAuditor == old(requestAuditor)
      ensures imagePreview == old(imagePreview) && isLoading == old(isLoading) && error == old(error)
    {
      var newCsvRow := FormatCsvRow(record);
      var newAccountStatusCsvRow := FormatAccountStatusCsvRow(record);
      var newManualFreezeCsvRow := FormatManualFreezeCsvRow(record);
      ResyncedSpec(record);
      if record.csvRow != newCsvRow || record.accountStatusCsvRow != newAccountStatusCsvRow
         || record.manualFreezeCsvRow != newManualFreezeCsvRow {
        record := record.(csvRow := newCsvRow, accountStatusCsvRow := newAccountStatusCsvRow,
                          manualFreezeCsvRow := newManualFreezeCsvRow);
        updated := true;
      } else {
        updated := false;
      }
    }
  }

  /**
    A session-level run: an auditor edit followed by a reset seeds the new record
    with the edited auditor, with the error and loading flag cleared.
   */
  method EditedAuditorSurvivesReset(s: KycSession, v: string, today: CalendarDay)
    modifies s
    ensures s.record.auditor == Some(v) && s.lastAuditor == v
    ensures Synced(s.record) && s.error == None && !s.isLoading
  {
    s.EditField(Auditor, v);
    s.Reset(today);
  }

  /** Syncing twice does no more than syncing once: the second run issues no update. */
  method SyncTwiceIsOnce(s: KycSession) returns (second: bool)
    modifies s
    ensures !second && s.record == Resynced(old(s.record))
  {
    var first := s.SyncRows();
    second := s.SyncRows();
    ResyncedSpec(old(s.record));
  }
}
