/**
 * Reminders: creating one, and the pass that sends every reminder whose
 * time has come and disables it. The two delivery channels only check that
 * their API key is configured; a missing key throws, which ends the pass.
 */
module ReminderService {
  import opened ContestTypes

  /** `scheduleReminder`: a new, enabled reminder for the contest. */
  function ScheduleReminder(contest: Contest, userId: string, reminderTime: int, notificationType: NotificationType): (r: ContestReminder)
    ensures r.contestId == contest.id && r.userId == userId
    ensures r.reminderTime == reminderTime && r.notificationType == notificationType
    ensures r.isEnabled
  {
    ContestReminder(contest.id, userId, reminderTime, notificationType, true)
  }

  /** Which API keys the environment configures. */
  datatype ApiKeys = ApiKeys(emailConfigured: bool, smsConfigured: bool)

  /**
   * `sendEmailReminder` for 'email', `sendSMSReminder` otherwise: true when
   * the send goes through, false when it throws for want of its key.
   */
  function SendReminder(notificationType: NotificationType, keys: ApiKeys): (sent: bool)
    ensures notificationType == Email ==> (sent <==> keys.emailConfigured)
    ensures notificationType != Email ==> (sent <==> keys.smsConfigured)
  {
    if notificationType == Email then keys.emailConfigured else keys.smsConfigured
  }

  /** The reminder belongs to the contest and its time (start minus the lead) has come. */
  predicate IsDue(contest: Contest, r: ContestReminder, now: int) {
    r.contestId == contest.id && contest.startTime - r.reminderTime * MsPerMinute <= now
  }

  /** Some listed contest makes the reminder due. */
  ghost predicate DueForSome(contests: seq<Contest>, r: ContestReminder, now: int) {
    exists c :: c in contests && IsDue(c, r, now)
  }

  predicate SendFails(r: ContestReminder, keys: ApiKeys) {
    !SendReminder(r.notificationType, keys)
  }

  /** `after` differs from `before` at most by reminders switched from enabled to disabled. */
  ghost predicate OnlyDisables(before: seq<ContestReminder>, after: seq<ContestReminder>) {
    |after| == |before|
    && forall k :: 0 <= k < |before| ==>
         after[k].(isEnabled := before[k].isEnabled) == before[k] && (after[k].isEnabled ==> before[k].isEnabled)
  }

  /**
   * The inner loop for one contest, from reminder position `j` on: the new
   * reminder list, and false if a send failed (which stops everything).
   */
  function ProcessContest(contest: Contest, rs: seq<ContestReminder>, j: nat, now: int, keys: ApiKeys): (r: (seq<ContestReminder>, bool))
    requires j <= |rs|
    ensures |r.0| == |rs| && r.0[..j] == rs[..j]
    decreases |rs| - j
  {
    if j == |rs| then (rs, true)
    else if rs[j].isEnabled && IsDue(contest, rs[j], now) then
      if SendFails(rs[j], keys) then (rs, false)
      else ProcessContest(contest, rs[j := rs[j].(isEnabled := false)], j + 1, now, keys)
    else ProcessContest(contest, rs, j + 1, now, keys)
  }

  /** `processReminders`, contest by contest, stopping at the first failed send. */
  function ProcessAll(contests: seq<Contest>, rs: seq<ContestReminder>, now: int, keys: ApiKeys): (r: (seq<ContestReminder>, bool))
    ensures |r.0| == |rs|
  {
    if contests == [] then (rs, true)
    else
      var (rs1, ok) := ProcessContest(contests[0], rs, 0, now, keys);
      if !ok then (rs1, false) else ProcessAll(contests[1..], rs1, now, keys)
  }

  lemma OnlyDisablesTrans(a: seq<ContestReminder>, b: seq<ContestReminder>, c: seq<ContestReminder>)
    requires OnlyDisables(a, b) && OnlyDisables(b, c)
    ensures OnlyDisables(a, c)
  {
    forall k | 0 <= k < |a|
      ensures c[k].(isEnabled := a[k].isEnabled) == a[k] && (c[k].isEnabled ==> a[k].isEnabled)
    {
      assert b[k].(isEnabled := a[k].isEnabled) == a[k];
      assert c[k].(isEnabled := b[k].isEnabled) == b[k];
    }
  }

  lemma {:induction false} ProcessContestFacts(contest: Contest, rs: seq<ContestReminder>, j: nat, now: int, keys: ApiKeys)
    requires j <= |rs|
    ensures var (out, ok) := ProcessContest(contest, rs, j, now, keys);
      && OnlyDisables(rs, out)
      && (forall k :: 0 <= k < j ==> out[k] == rs[k])
      && (forall k :: j <= k < |rs| && !(rs[k].isEnabled && IsDue(contest, rs[k], now)) ==> out[k] == rs[k])
      && (ok ==> forall k :: j <= k < |rs| ==>
            (out[k].isEnabled <==> rs[k].isEnabled && !IsDue(contest, rs[k], now)))
      && (ok <==> forall k :: j <= k < |rs| ==>
            !(rs[k].isEnabled && IsDue(contest, rs[k], now) && SendFails(rs[k], keys)))
      && (!ok ==> exists k :: (j <= k < |rs| && out[k] == rs[k]
            && rs[k].isEnabled && IsDue(contest, rs[k], now) && SendFails(rs[k], keys)))
    decreases |rs| - j
  {
    if j == |rs| {
    } else if rs[j].isEnabled && IsDue(contest, rs[j], now) {
      if SendFails(rs[j], keys) {
      } else {
        var rs2 := rs[j := rs[j].(isEnabled := false)];
        ProcessContestFacts(contest, rs2, j + 1, now, keys);
        var (out, ok) := ProcessContest(contest, rs2, j + 1, now, keys);
        assert OnlyDisables(rs, rs2);
        OnlyDisablesTrans(rs, rs2, out);
        assert forall k :: j < k < |rs| ==> rs2[k] == rs[k];
        if !ok {
          var k :| j + 1 <= k < |rs| && out[k] == rs2[k]
            && rs2[k].isEnabled && IsDue(contest, rs2[k], now) && SendFails(rs2[k], keys);
          assert out[k] == rs[k];
        }
      }
    } else {
      ProcessContestFacts(contest, rs, j + 1, now, keys);
    }
  }

  lemma DueForSomeCons(contests: seq<Contest>, r: ContestReminder, now: int)
    requires contests != []
    ensures DueForSome(contests, r, now) <==> IsDue(contests[0], r, now) || DueForSome(contests[1..], r, now)
  {
    if DueForSome(contests, r, now) {
      var x :| x in contests && IsDue(x, r, now);
      assert x == contests[0] || x in contests[1..];
    }
    if DueForSome(contests[1..], r, now) {
      var x :| x in contests[1..] && IsDue(x, r, now);
      assert x in contests;
    }
  }

  /** Whether a reminder is due does not depend on its enabled flag. */
  lemma DueIgnoresEnabled(contests: seq<Contest>, a: ContestReminder, b: ContestReminder, now: int)
    requires b.(isEnabled := a.isEnabled) == a
    ensures DueForSome(contests, b, now) == DueForSome(contests, a, now)
  {
    assert forall x :: IsDue(x, b, now) == IsDue(x, a, now);
  }

  /**
   * What a whole pass does: only ever disables reminders; leaves every
   * reminder alone that is disabled or due for no listed contest; when no send
   * fails, exactly the enabled reminders due for some listed contest end up
   * disabled; and a send fails exactly when some enabled reminder that is
   * due needs a channel whose key is missing, in which case that reminder is
   * still enabled afterwards.
   */
  lemma {:induction false} ProcessAllFacts(contests: seq<Contest>, rs: seq<ContestReminder>, now: int, keys: ApiKeys)
    ensures var (out, ok) := ProcessAll(contests, rs, now, keys);
      && OnlyDisables(rs, out)
      && (forall k :: 0 <= k < |rs| && !(rs[k].isEnabled && DueForSome(contests, rs[k], now)) ==> out[k] == rs[k])
      && (ok ==> forall k :: 0 <= k < |rs| ==>
            (out[k].isEnabled <==> rs[k].isEnabled && !DueForSome(contests, rs[k], now)))
      && (ok <==> forall k :: 0 <= k < |rs| ==>
            !(rs[k].isEnabled && DueForSome(contests, rs[k], now) && SendFails(rs[k], keys)))
      && (!ok ==> exists k :: (0 <= k < |rs| && out[k].isEnabled
            && DueForSome(contests, rs[k], now) && SendFails(rs[k], keys)))
  {
    if contests == [] {
    } else {
      var c := contests[0];
      ProcessContestFacts(c, rs, 0, now, keys);
      var (rs1, ok1) := ProcessContest(c, rs, 0, now, keys);
      forall r ensures DueForSome(contests, r, now) <==> IsDue(c, r, now) || DueForSome(contests[1..], r, now) {
        DueForSomeCons(contests, r, now);
      }
      if !ok1 {
        var k :| 0 <= k < |rs| && rs1[k] == rs[k]
          && rs[k].isEnabled && IsDue(c, rs[k], now) && SendFails(rs[k], keys);
        assert DueForSome(contests, rs[k], now);
      } else {
        ProcessAllFacts(contests[1..], rs1, now, keys);
        var (out, ok) := ProcessAll(contests[1..], rs1, now, keys);
        OnlyDisablesTrans(rs, rs1, out);
        forall k | 0 <= k < |rs|
          ensures DueForSome(contests[1..], rs1[k], now) == DueForSome(contests[1..], rs[k], now)
          ensures SendFails(rs1[k], keys) == SendFails(rs[k], keys)
        {
          DueIgnoresEnabled(contests[1..], rs[k], rs1[k], now);
        }
        if !ok {
          var k :| 0 <= k < |rs1| && out[k].isEnabled
            && DueForSome(contests[1..], rs1[k], now) && SendFails(rs1[k], keys);
          assert DueForSome(contests, rs[k], now);
        }
      }
    }
  }

  /** With both keys configured the pass never stops early. */
  lemma ProcessAllWithKeysSucceeds(contests: seq<Contest>, rs: seq<ContestReminder>, now: int)
    ensures ProcessAll(contests, rs, now, ApiKeys(true, true)).1
  {
    ProcessAllFacts(contests, rs, now, ApiKeys(true, true));
  }

  /**
   * `processReminders`: the nested loops over contests and their enabled
   * reminders, disabling each due reminder in place after its send. Returns
   * false when a send throws; the reminders disabled before that stay
   * disabled.
   */
  method ProcessReminders(contests: seq<Contest>, reminders: array<ContestReminder>, now: int, keys: ApiKeys)
    returns (ok: bool)
    modifies reminders
    ensures (reminders[..], ok) == ProcessAll(contests, old(reminders[..]), now, keys)
  {
    var i := 0;
    while i < |contests|
      invariant 0 <= i <= |contests|
      invariant ProcessAll(contests[i..], reminders[..], now, keys) == ProcessAll(contests, old(reminders[..]), now, keys)
    {
      var contest := contests[i];
      ghost var atContestStart := reminders[..];
      assert contests[i..][0] == contest && contests[i..][1..] == contests[i + 1..];
      var j := 0;
      while j < reminders.Length
        invariant 0 <= j <= reminders.Length
        invariant ProcessContest(contest, reminders[..], j, now, keys) == ProcessContest(contest, atContestStart, 0, now, keys)
      {
        var reminder := reminders[j];
        if reminder.contestId == contest.id && reminder.isEnabled {
          var fireTime := contest.startTime - reminder.reminderTime * 60 * 1000;
          if fireTime <= now {
            var sent := SendReminder(reminder.notificationType, keys);
            if !sent {
              return false;
            }
            reminders[j] := reminder.(isEnabled := false);
          }
        }
        j := j + 1;
      }
      i := i + 1;
    }
    return true;
  }
}
