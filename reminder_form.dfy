/**
 * The reminder form: its state (selected contest, lead time, channel,
 * contact, success flag, error text) and the submit handler, which checks
 * the fields in a fixed order and schedules a reminder for an upcoming
 * contest.
 */
module ReminderForm {
  import opened Wrappers
  import opened Seqs
  import opened Strings
  import opened ContestTypes
  import opened TimeUtils
  import opened ReminderService

  const FillAllFields: string := "Please fill in all fields"
  const InvalidEmail: string := "Please enter a valid email address"
  const InvalidPhone: string := "Please enter a valid phone number"
  const ContestNotFound: string := "Contest not found"

  const DefaultReminderTime: int := 60
  /** The fixed user id the form schedules reminders for. */
  const FormUserId: string := "user-id"

  /** `/^\+?\d{10,}$/`: an optional plus sign, then ten or more ASCII digits and nothing else. */
  predicate IsPhoneNumber(s: string) {
    var digits := if |s| > 0 && s[0] == '+' then s[1..] else s;
    |digits| >= 10 && AllDigits(digits)
  }

  /** The recogniser accepts exactly the language of the pattern. */
  lemma PhoneNumberIff(s: string)
    ensures IsPhoneNumber(s) <==> exists d :: (s == d || s == "+" + d) && |d| >= 10 && AllDigits(d)
  {
    if exists d :: (s == d || s == "+" + d) && |d| >= 10 && AllDigits(d) {
      var d :| (s == d || s == "+" + d) && |d| >= 10 && AllDigits(d);
      if s == d {
        assert !(s[0] == '+') by { assert IsDigit(d[0]); }
      } else {
        assert s[1..] == d;
      }
    }
    if IsPhoneNumber(s) {
      if |s| > 0 && s[0] == '+' {
        assert s == "+" + s[1..];
      }
    }
  }

  /** The contests offered in the form: those that have not started, in store order. */
  function UpcomingContests(contests: seq<Contest>, now: int): (r: seq<Contest>)
    ensures IsSubseq(r, contests)
    ensures forall c :: c in r <==> c in contests && IsUpcoming(c.startTime, now)
    ensures forall c :: multiset(r)[c] == if IsUpcoming(c.startTime, now) then multiset(contests)[c] else 0
  {
    var upcoming := (c: Contest) => IsUpcoming(c.startTime, now);
    FilterMultiplicity(contests, upcoming);
    Filter(contests, upcoming)
  }

  /**
   * The message `handleSubmit` shows, or `None` when it schedules: missing
   * fields first, then the contact for the chosen channel, then whether the
   * selected id is among the upcoming contests.
   */
  function SubmitError(contestId: string, reminderTime: int, notificationType: NotificationType,
                       contactInfo: string, upcoming: seq<Contest>): (r: Option<string>)
    ensures r == Some(FillAllFields) <==> contestId == "" || reminderTime == 0 || contactInfo == ""
    ensures r == Some(InvalidEmail) <==>
      contestId != "" && reminderTime != 0 && contactInfo != ""
      && notificationType == Email && '@' !in contactInfo
    ensures r == Some(InvalidPhone) <==>
      contestId != "" && reminderTime != 0 && contactInfo != ""
      && notificationType == Sms && !IsPhoneNumber(contactInfo)
    ensures r == None ==> FirstIndexOfId(upcoming, contestId).Some?
    ensures r.Some? ==> r.value in {FillAllFields, InvalidEmail, InvalidPhone, ContestNotFound}
  {
    if contestId == "" || reminderTime == 0 || contactInfo == "" then Some(FillAllFields)
    else if notificationType == Email && '@' !in contactInfo then Some(InvalidEmail)
    else if notificationType == Sms && !IsPhoneNumber(contactInfo) then Some(InvalidPhone)
    else if FirstIndexOfId(upcoming, contestId).None? then Some(ContestNotFound)
    else None
  }

  /**
   * "Contest not found" is shown exactly when the fields are valid and no
   * contest with the selected id has yet to start.
   */
  lemma ContestNotFoundIff(contestId: string, reminderTime: int, notificationType: NotificationType,
                           contactInfo: string, contests: seq<Contest>, now: int)
    ensures SubmitError(contestId, reminderTime, notificationType, contactInfo, UpcomingContests(contests, now)) == Some(ContestNotFound)
      <==> contestId != "" && reminderTime != 0 && contactInfo != ""
           && (notificationType == Email ==> '@' in contactInfo)
           && (notificationType == Sms ==> IsPhoneNumber(contactInfo))
           && forall c :: c in contests && c.id == contestId ==> !IsUpcoming(c.startTime, now)
  {
    var upcoming := UpcomingContests(contests, now);
    if FirstIndexOfId(upcoming, contestId).Some? {
      var c := upcoming[FirstIndexOfId(upcoming, contestId).value];
      assert c in upcoming;
    }
  }

  class ReminderFormState {
    var selectedContestId: string
    var reminderTime: int
    var notificationType: NotificationType
    var contactInfo: string
    var success: bool
    var error: string

    /** No contest selected, one hour ahead, by email, no contact, no message. */
    constructor ()
      ensures selectedContestId == "" && reminderTime == DefaultReminderTime && notificationType == Email
      ensures contactInfo == "" && !success && error == ""
    {
      selectedContestId := "";
      reminderTime := DefaultReminderTime;
      notificationType := Email;
      contactInfo := "";
      success := false;
      error := "";
    }

    /**
     * `handleSubmit`, with the contests in the store and the current time.
     * On a failed check only the error text changes and nothing is
     * scheduled; otherwise the reminder for the selected upcoming contest is
     * scheduled, the success flag is set, the error cleared and the
     * selection, lead time and contact reset (the channel is kept).
     */
    method HandleSubmit(contests: seq<Contest>, now: int) returns (scheduled: Option<ContestReminder>)
      modifies this
      ensures var upcoming := UpcomingContests(contests, now);
        var e := SubmitError(old(selectedContestId), old(reminderTime), old(notificationType), old(contactInfo), upcoming);
        && (e.Some? ==>
              scheduled.None? && error == e.value && success == old(success)
              && selectedContestId == old(selectedContestId) && reminderTime == old(reminderTime)
              && notificationType == old(notificationType) && contactInfo == old(contactInfo))
        && (e.None? ==>
              scheduled == Some(ScheduleReminder(upcoming[FirstIndexOfId(upcoming, old(selectedContestId)).value],
                                                 FormUserId, old(reminderTime), old(notificationType)))
              && success && error == "" && selectedContestId == "" && reminderTime == DefaultReminderTime
              && contactInfo == "" && notificationType == old(notificationType))
    {
      if selectedContestId == "" || reminderTime == 0 || contactInfo == "" {
        error := FillAllFields;
        return None;
      }
      if notificationType == Email && '@' !in contactInfo {
        error := InvalidEmail;
        return None;
      }
      if notificationType == Sms && !IsPhoneNumber(contactInfo) {
        error := InvalidPhone;
        return None;
      }
      var upcoming := UpcomingContests(contests, now);
      var index := FirstIndexOfId(upcoming, selectedContestId);
      if index.None? {
        error := ContestNotFound;
        return None;
      }
      var reminder := ScheduleReminder(upcoming[index.value], FormUserId, reminderTime, notificationType);
      success := true;
      error := "";
      selectedContestId := "";
      reminderTime := DefaultReminderTime;
      contactInfo := "";
      return Some(reminder);
    }
  }

  /** A scheduled reminder is enabled and belongs to a listed contest that has not started. */
  lemma ScheduledIsForUpcoming(contestId: string, reminderTime: int, notificationType: NotificationType,
                               contactInfo: string, contests: seq<Contest>, now: int)
    requires SubmitError(contestId, reminderTime, notificationType, contactInfo, UpcomingContests(contests, now)).None?
    ensures var upcoming := UpcomingContests(contests, now);
      var c := upcoming[FirstIndexOfId(upcoming, contestId).value];
      var r := ScheduleReminder(c, FormUserId, reminderTime, notificationType);
      c in contests && IsUpcoming(c.startTime, now) && r.contestId == contestId && r.isEnabled
  {
    var upcoming := UpcomingContests(contests, now);
    assert upcoming[FirstIndexOfId(upcoming, contestId).value] in upcoming;
  }
}
