/**
 * The shared records of the contest tracker. Instants are integer
 * milliseconds since the Unix epoch; the ISO-8601 strings of the original
 * records are not modelled.
 */
module ContestTypes {
  import opened Wrappers

  datatype Platform = Codeforces | CodeChef | LeetCode

  /** The platform's string value as stored and searched ('codeforces', ...). */
  function PlatformName(p: Platform): (r: string)
    ensures |r| > 0 && forall i :: 0 <= i < |r| ==> 'a' <= r[i] <= 'z'
  {
    match p
    case Codeforces => "codeforces"
    case CodeChef => "codechef"
    case LeetCode => "leetcode"
  }

  /** Distinct platforms have distinct names. */
  lemma PlatformNameInjective(p: Platform, q: Platform)
    requires PlatformName(p) == PlatformName(q)
    ensures p == q
  {
  }

  /**
   * A contest. `duration` is a JavaScript number whose unit depends on the
   * producer (see the upstream normalisation), so it is kept as a real.
   */
  datatype Contest = Contest(
    id: string,
    name: string,
    platform: Platform,
    startTime: int,
    endTime: int,
    duration: real,
    url: string,
    solutionUrl: Option<string>,
    isBookmarked: Option<bool>)

  datatype NotificationType = Email | Sms

  /** A reminder `reminderTime` minutes before the contest starts. */
  datatype ContestReminder = ContestReminder(
    contestId: string,
    userId: string,
    reminderTime: int,
    notificationType: NotificationType,
    isEnabled: bool)

  datatype Theme = Light | Dark

  datatype UserPreferences = UserPreferences(
    theme: Theme,
    defaultPlatforms: seq<Platform>,
    defaultReminderTime: int,
    defaultNotificationType: NotificationType)

  const MsPerMinute: int := 60 * 1000

  /** `contests.find(c => c.id === id)`, as the position of the first contest with that id. */
  function FirstIndexOfId(cs: seq<Contest>, id: string): (r: Option<nat>)
    ensures r.Some? ==> r.value < |cs| && cs[r.value].id == id
    ensures r.Some? ==> forall k :: 0 <= k < r.value ==> cs[k].id != id
    ensures r.None? <==> forall k :: 0 <= k < |cs| ==> cs[k].id != id
  {
    if cs == [] then None
    else if cs[0].id == id then Some(0)
    else match FirstIndexOfId(cs[1..], id)
      case None => None
      case Some(k) => Some(k + 1)
  }
}
