/**
  The one-shot verification of an ID-card extraction: when either flag is still
  undefined, the page derives "under 21" from the date of birth and "expired"
  from the date of expiry, against one reading of the local clock.
 */
module IdFlags {
  import opened Types
  import opened Calendar

  /** `new Date(s)` followed by `isNaN(d.getTime())`: `None` is an invalid date. */
  type DateParser = string -> Option<LocalTime>

  /** The parsed date of a field that is set and non-empty; `None` when it is falsy or unparsable. */
  function ParsedDate(field: Option<string>, parse: DateParser): (r: Option<LocalTime>)
    ensures field == None || field == Some("") ==> r == None
  {
    match field
    case None => None
    case Some(s) => if s == "" then None else parse(s)
  }

  /** Whole years from `dob` to `today`, one fewer while this year's birthday has not come. */
  function AgeInYears(dob: CalendarDay, today: CalendarDay): int {
    var age := today.year - dob.year;
    var m := today.month0 - dob.month0;
    if m < 0 || (m == 0 && today.day < dob.day) then age - 1 else age
  }

  /** The same month and day `n` years later (need not be a valid day: February 29). */
  function YearsLater(d: CalendarDay, n: int): CalendarDay {
    d.(year := d.year + n)
  }

  /** isUnderage: under 21 by completed years; `false` without a usable date of birth. */
  function ComputeIsUnderage(dob: Option<LocalTime>, now: LocalTime): bool {
    match dob
    case None => false
    case Some(b) => AgeInYears(b.day, now.day) < 21
  }

  /** isExpired: the expiry moment lies before today's midnight; `false` without a usable expiry. */
  function ComputeIsExpired(doe: Option<LocalTime>, now: LocalTime): bool {
    match doe
    case None => false
    case Some(e) => TimeValue(e) < TimeValue(StartOfDay(now))
  }

  /** The age is the number of birthdays reached: the last one is not after today, the next one is. */
  lemma AgeIsCompletedYears(dob: CalendarDay, today: CalendarDay)
    ensures var a := AgeInYears(dob, today);
      !LexBefore(today, YearsLater(dob, a)) && LexBefore(today, YearsLater(dob, a + 1))
  {
  }

  /** Underage exactly when the 21st birthday is still ahead of today. */
  lemma UnderageIffBefore21stBirthday(dob: LocalTime, now: LocalTime)
    ensures ComputeIsUnderage(Some(dob), now) <==> LexBefore(now.day, YearsLater(dob.day, 21))
  {
    AgeIsCompletedYears(dob.day, now.day);
  }

  /** Expired exactly when the expiry's calendar day is before today's: the expiry day itself is still valid. */
  lemma ExpiredIffEarlierDay(doe: LocalTime, now: LocalTime)
    ensures ComputeIsExpired(Some(doe), now) <==> LexBefore(doe.day, now.day)
  {
    EarlierThanMidnight(doe, now);
  }

  /** An unusable date never raises a flag. */
  lemma MissingDatesFailOpen(now: LocalTime)
    ensures !ComputeIsUnderage(None, now) && !ComputeIsExpired(None, now)
  {
  }

  /** Whether the effect has work to do: a record whose flags are not both defined. */
  predicate NeedsEvaluation(data: Option<IdCardData>) {
    data.Some? && (data.value.isUnderage == None || data.value.isExpired == None)
  }

  /** The ID scanner page's current extraction. */
  class IdScannerPage {
    var idCardData: Option<IdCardData>

    constructor()
      ensures idCardData == None
    {
      idCardData := None;
    }

    /**
      The flag effect: when a flag is undefined, both flags are recomputed from the
      two dates against `now` and stored; otherwise nothing changes. Afterwards
      both flags are defined whenever there is a record.
     */
    method EvaluateFlags(now: LocalTime, parse: DateParser)
      modifies this
      ensures !NeedsEvaluation(old(idCardData)) ==> idCardData == old(idCardData)
      ensures NeedsEvaluation(old(idCardData)) ==>
        var d := old(idCardData).value;
        idCardData == Some(d.(
          isUnderage := Some(ComputeIsUnderage(ParsedDate(d.dateOfBirth, parse), now)),
          isExpired := Some(ComputeIsExpired(ParsedDate(d.dateOfExpiry, parse), now))))
      ensures idCardData.Some? <==> old(idCardData).Some?
      ensures !NeedsEvaluation(idCardData)
    {
      if NeedsEvaluation(idCardData) {
        var d := idCardData.value;
        var isUnderage := false;
        if d.dateOfBirth.Some? && d.dateOfBirth.value != "" {
          var dob := parse(d.dateOfBirth.value);
          if dob.Some? {
            var today := now.day;
            var age := today.year - dob.value.day.year;
            var m := today.month0 - dob.value.day.month0;
            if m < 0 || (m == 0 && today.day < dob.value.day.day) {
              age := age - 1;
            }
            isUnderage := age < 21;
          }
        }
        var isExpired := false;
        if d.dateOfExpiry.Some? && d.dateOfExpiry.value != "" {
          var doe := parse(d.dateOfExpiry.value);
          if doe.Some? {
            var today := StartOfDay(now);
            isExpired := TimeValue(doe.value) < TimeValue(today);
          }
        }
        idCardData := Some(d.(isUnderage := Some(isUnderage), isExpired := Some(isExpired)));
      }
    }
  }

  /**
    The flags are one-shot: a second run of the effect, whatever the clock then
    says, keeps the flags of the first run.
   */
  method EvaluateFlagsTwice(page: IdScannerPage, first: LocalTime, later: LocalTime, parse: DateParser)
    modifies page
    requires NeedsEvaluation(page.idCardData)
    ensures var d := old(page.idCardData).value;
      page.idCardData == Some(d.(
        isUnderage := Some(ComputeIsUnderage(ParsedDate(d.dateOfBirth, parse), first)),
        isExpired := Some(ComputeIsExpired(ParsedDate(d.dateOfExpiry, parse), first))))
  {
    page.EvaluateFlags(first, parse);
    page.EvaluateFlags(later, parse);
  }

  /**
    West of UTC, `new Date("2021-06-01")` is the evening of May 31 in local time
    (19:00 at UTC-5), so on June 1 that ID already counts as expired.
   */
  lemma ExpiryDayWestOfUtc(ms: int)
    requires 0 <= ms < MsPerDay
    ensures ComputeIsExpired(Some(Moment(CalendarDay(2021, 4, 31), 19 * 3600000)), Moment(CalendarDay(2021, 5, 1), ms))
  {
    ExpiredIffEarlierDay(Moment(CalendarDay(2021, 4, 31), 19 * 3600000), Moment(CalendarDay(2021, 5, 1), ms));
  }

  /**
    Born 2000-01-01: under 21 on 2020-12-31, and no longer on the 21st birthday
    2021-01-01 itself, nor on 2021-06-01.
   */
  lemma UnderageExamples()
    ensures ComputeIsUnderage(Some(Moment(CalendarDay(2000, 0, 1), 0)), Moment(CalendarDay(2020, 11, 31), 0))
    ensures !ComputeIsUnderage(Some(Moment(CalendarDay(2000, 0, 1), 0)), Moment(CalendarDay(2021, 0, 1), 0))
    ensures !ComputeIsUnderage(Some(Moment(CalendarDay(2000, 0, 1), 0)), Moment(CalendarDay(2021, 5, 1), 0))
  {
  }

  /** An expiry of 2020-01-01 is expired on 2021-01-01, one of 2099-01-01 is not, and 2021-06-01 is not on that same day. */
  lemma ExpiryExamples(ms: int)
    requires 0 <= ms < MsPerDay
    ensures ComputeIsExpired(Some(Moment(CalendarDay(2020, 0, 1), 0)), Moment(CalendarDay(2021, 0, 1), ms))
    ensures !ComputeIsExpired(Some(Moment(CalendarDay(2099, 0, 1), 0)), Moment(CalendarDay(2021, 0, 1), ms))
    ensures !ComputeIsExpired(Some(Moment(CalendarDay(2021, 5, 1), 0)), Moment(CalendarDay(2021, 5, 1), ms))
  {
    ExpiredIffEarlierDay(Moment(CalendarDay(2020, 0, 1), 0), Moment(CalendarDay(2021, 0, 1), ms));
    ExpiredIffEarlierDay(Moment(CalendarDay(2099, 0, 1), 0), Moment(CalendarDay(2021, 0, 1), ms));
    ExpiredIffEarlierDay(Moment(CalendarDay(2021, 5, 1), 0), Moment(CalendarDay(2021, 5, 1), ms));
  }
}
