/**
 * The browser extension's background script: normalising the three upstream
 * contest listings into one list, choosing the contests that get a
 * notification alarm, and turning a fired alarm back into a notification.
 * Upstream payloads are abstract records; `None` stands for a request,
 * JSON body or listing field that is not there, which makes the script's
 * `try` block throw.
 */
module Background {
  import opened Wrappers
  import opened Seqs
  import opened Strings
  import opened ContestTypes

  /** One entry of Codeforces' `result` list. */
  datatype CodeforcesEntry = CodeforcesEntry(
    id: int, name: string, phase: string, startTimeSeconds: int, durationSeconds: int)

  /** One entry of LeetCode's `allContests` list. */
  datatype LeetCodeEntry = LeetCodeEntry(
    title: string, titleSlug: string, startTime: int, duration: int, isVirtual: bool)

  /**
   * One entry of CodeChef's `future_contests` list; the two dates are the
   * instants their strings parse to, `None` when a string does not parse.
   */
  datatype CodeChefEntry = CodeChefEntry(
    contestCode: string, contestName: string, startDate: Option<int>, endDate: Option<int>)

  /** Largest magnitude of an ECMAScript time value; `toISOString` throws beyond it. */
  const MaxTimeValue: int := 8_640_000_000_000_000

  predicate IsValidTime(t: int) {
    -MaxTimeValue <= t <= MaxTimeValue
  }

  /** The id prefix each platform's normaliser uses. */
  function IdPrefix(p: Platform): string {
    match p
    case Codeforces => "cf-"
    case LeetCode => "lc-"
    case CodeChef => "cc-"
  }

  predicate CodeforcesKept(e: CodeforcesEntry) {
    e.phase == "BEFORE"
  }

  predicate LeetCodeKept(e: LeetCodeEntry) {
    !e.isVirtual
  }

  /** A Codeforces entry as a contest: "cf-" id, seconds scaled to milliseconds and minutes. */
  function FromCodeforces(e: CodeforcesEntry): (c: Contest)
    ensures c.platform == Codeforces && c.id == "cf-" + IntToString(e.id) && c.name == e.name
    ensures c.startTime == e.startTimeSeconds * 1000 && c.endTime - c.startTime == e.durationSeconds * 1000
    ensures c.url == "https://codeforces.com/contests/" + IntToString(e.id)
    ensures c.solutionUrl.None? && c.isBookmarked.None?
  {
    Contest(
      "cf-" + IntToString(e.id), e.name, Codeforces,
      e.startTimeSeconds * 1000,
      (e.startTimeSeconds + e.durationSeconds) * 1000,
      e.durationSeconds as real / 60.0,
      "https://codeforces.com/contests/" + IntToString(e.id),
      None, None)
  }

  /** LeetCode's `duration` (seconds) is copied into the contest unconverted. */
  function FromLeetCode(e: LeetCodeEntry): (c: Contest)
    ensures c.platform == LeetCode && c.id == "lc-" + e.titleSlug && c.name == e.title
    ensures c.startTime == e.startTime * 1000 && c.endTime - c.startTime == e.duration * 1000
    ensures c.url == "https://leetcode.com/contest/" + e.titleSlug
    ensures c.solutionUrl.None? && c.isBookmarked.None?
  {
    Contest(
      "lc-" + e.titleSlug, e.title, LeetCode,
      e.startTime * 1000,
      (e.startTime + e.duration) * 1000,
      e.duration as real,
      "https://leetcode.com/contest/" + e.titleSlug,
      None, None)
  }

  /** `Math.round(ms / 60000)`: to the nearest minute, halves rounded up. */
  function RoundToMinutes(ms: int): (m: int)
    ensures m * MsPerMinute - 30000 <= ms < m * MsPerMinute + 30000
  {
    (ms + 30000) / MsPerMinute
  }

  /** A CodeChef entry, given the instants its two dates parse to. */
  function FromCodeChef(e: CodeChefEntry, start: int, end: int): (c: Contest)
    ensures c.platform == CodeChef && c.id == "cc-" + e.contestCode && c.name == e.contestName
    ensures c.startTime == start && c.endTime == end
    ensures c.url == "https://www.codechef.com/" + e.contestCode
    ensures c.solutionUrl.None? && c.isBookmarked.None?
  {
    Contest(
      "cc-" + e.contestCode, e.contestName, CodeChef,
      start, end,
      RoundToMinutes(end - start) as real,
      "https://www.codechef.com/" + e.contestCode,
      None, None)
  }

  /** Every CodeChef entry, converted; `None` as soon as one of its dates does not parse. */
  function CodeChefContests(es: seq<CodeChefEntry>): (r: Option<seq<Contest>>)
    ensures r.None? <==> exists e :: e in es && (e.startDate.None? || e.endDate.None?)
    ensures r.Some? ==> |r.value| == |es|
    ensures r.Some? ==> forall c :: c in r.value ==> c.platform == CodeChef && IdPrefix(c.platform) <= c.id
    ensures r.Some? ==> forall i :: 0 <= i < |es| ==>
      r.value[i] == FromCodeChef(es[i], es[i].startDate.value, es[i].endDate.value)
  {
    if es == [] then Some([])
    else
      var e := es[0];
      assert forall x :: x in es <==> x == e || x in es[1..];
      if e.startDate.None? || e.endDate.None? then None
      else match CodeChefContests(es[1..])
        case None => None
        case Some(rest) => Some([FromCodeChef(e, e.startDate.value, e.endDate.value)] + rest)
  }

  predicate TimesValid(c: Contest) {
    IsValidTime(c.startTime) && IsValidTime(c.endTime)
  }

  /**
   * The Codeforces block: the entries in phase "BEFORE", converted, in
   * upstream order.
   */
  function CodeforcesBlock(cf: seq<CodeforcesEntry>): (r: seq<Contest>)
    ensures forall c :: c in r ==> c.platform == Codeforces && IdPrefix(c.platform) <= c.id
    ensures forall c :: c in r <==> exists e :: e in cf && e.phase == "BEFORE" && c == FromCodeforces(e)
    ensures var kept := Filter(cf, CodeforcesKept);
      |r| == |kept| && IsSubseq(kept, cf) && forall i :: 0 <= i < |r| ==> r[i] == FromCodeforces(kept[i])
  {
    var kept := Filter(cf, CodeforcesKept);
    var r := Map(kept, FromCodeforces);
    forall c | c in r ensures exists e :: e in cf && e.phase == "BEFORE" && c == FromCodeforces(e) {
      var i :| 0 <= i < |r| && r[i] == c;
      assert kept[i] in kept;
    }
    forall e | e in cf && e.phase == "BEFORE" ensures FromCodeforces(e) in r {
      assert e in kept;
      var i :| 0 <= i < |kept| && kept[i] == e;
      assert r[i] == FromCodeforces(e);
    }
    r
  }

  /** The LeetCode block: the entries that are not virtual, converted, in upstream order. */
  function LeetCodeBlock(lc: seq<LeetCodeEntry>): (r: seq<Contest>)
    ensures forall c :: c in r ==> c.platform == LeetCode && IdPrefix(c.platform) <= c.id
    ensures forall c :: c in r <==> exists e :: e in lc && !e.isVirtual && c == FromLeetCode(e)
    ensures var kept := Filter(lc, LeetCodeKept);
      |r| == |kept| && IsSubseq(kept, lc) && forall i :: 0 <= i < |r| ==> r[i] == FromLeetCode(kept[i])
  {
    var kept := Filter(lc, LeetCodeKept);
    var r := Map(kept, FromLeetCode);
    forall c | c in r ensures exists e :: e in lc && !e.isVirtual && c == FromLeetCode(e) {
      var i :| 0 <= i < |r| && r[i] == c;
      assert kept[i] in kept;
    }
    forall e | e in lc && !e.isVirtual ensures FromLeetCode(e) in r {
      assert e in kept;
      var i :| 0 <= i < |kept| && kept[i] == e;
      assert r[i] == FromLeetCode(e);
    }
    r
  }

  /**
   * The normalised list of `fetchAllContests`: the Codeforces block, then
   * LeetCode, then CodeChef. Any failure (a missing payload, an unparsable
   * CodeChef date, an instant `toISOString` rejects) loses everything.
   */
  function Normalize(
    cf: Option<seq<CodeforcesEntry>>, lc: Option<seq<LeetCodeEntry>>, cc: Option<seq<CodeChefEntry>>
  ): (r: Option<seq<Contest>>)
    ensures r.Some? <==> (cf.Some? && lc.Some? && cc.Some? && CodeChefContests(cc.value).Some?
      && forall c :: c in CodeforcesBlock(cf.value) + LeetCodeBlock(lc.value) + CodeChefContests(cc.value).value ==> TimesValid(c))
    ensures r.Some? ==> r.value == CodeforcesBlock(cf.value) + LeetCodeBlock(lc.value) + CodeChefContests(cc.value).value
  {
    if cf.None? || lc.None? || cc.None? then None
    else match CodeChefContests(cc.value)
      case None => None
      case Some(ccBlock) =>
        var all := CodeforcesBlock(cf.value) + LeetCodeBlock(lc.value) + ccBlock;
        if forall c :: c in all ==> TimesValid(c) then Some(all) else None
  }

  function BlockRank(p: Platform): nat {
    match p
    case Codeforces => 0
    case LeetCode => 1
    case CodeChef => 2
  }

  /** Three blocks, each of one platform, concatenated in block order are ordered by block rank. */
  lemma {:induction false} BlocksOrdered(a: seq<Contest>, b: seq<Contest>, c: seq<Contest>)
    requires forall x :: x in a ==> BlockRank(x.platform) == 0
    requires forall x :: x in b ==> BlockRank(x.platform) == 1
    requires forall x :: x in c ==> BlockRank(x.platform) == 2
    ensures var r := a + b + c;
      forall i, j :: 0 <= i < j < |r| ==> BlockRank(r[i].platform) <= BlockRank(r[j].platform)
  {
    var r := a + b + c;
    forall i | 0 <= i < |r|
      ensures BlockRank(r[i].platform) == if i < |a| then 0 else if i < |a| + |b| then 1 else 2
    {
      if i < |a| {
        assert r[i] == a[i] && a[i] in a;
      } else if i < |a| + |b| {
        assert r[i] == b[i - |a|] && b[i - |a|] in b;
      } else {
        assert r[i] == c[i - |a| - |b|] && c[i - |a| - |b|] in c;
      }
    }
  }

  /**
   * What a successful normalisation promises: the Codeforces block, then
   * LeetCode, then CodeChef, each block filtered and in upstream order;
   * every id carrying its platform's prefix and every instant a valid time
   * value.
   */
  lemma NormalizeShape(
    cf: seq<CodeforcesEntry>, lc: seq<LeetCodeEntry>, cc: seq<CodeChefEntry>)
    requires Normalize(Some(cf), Some(lc), Some(cc)).Some?
    ensures CodeChefContests(cc).Some?
    ensures Normalize(Some(cf), Some(lc), Some(cc)).value
         == CodeforcesBlock(cf) + LeetCodeBlock(lc) + CodeChefContests(cc).value
    ensures var r := Normalize(Some(cf), Some(lc), Some(cc)).value;
      && (forall i, j :: 0 <= i < j < |r| ==> BlockRank(r[i].platform) <= BlockRank(r[j].platform))
      && (forall c :: c in r ==> IdPrefix(c.platform) <= c.id && TimesValid(c))
  {
    var a, b := CodeforcesBlock(cf), LeetCodeBlock(lc);
    var c := CodeChefContests(cc).value;
    BlocksOrdered(a, b, c);
  }

  /** Contests normalised from different platforms never share an id. */
  lemma IdsDifferAcrossPlatforms(c1: Contest, c2: Contest)
    requires IdPrefix(c1.platform) <= c1.id && IdPrefix(c2.platform) <= c2.id
    requires c1.platform != c2.platform
    ensures c1.id != c2.id
  {
    assert c1.id[..3] == IdPrefix(c1.platform) && c2.id[..3] == IdPrefix(c2.platform);
  }

  /** A kept Codeforces contest: minutes = seconds / 60, and it ends `durationSeconds` after it starts. */
  lemma CodeforcesTiming(e: CodeforcesEntry)
    ensures var c := FromCodeforces(e);
      && c.endTime - c.startTime == e.durationSeconds * 1000
      && c.duration * 60.0 == e.durationSeconds as real
      && (c.endTime - c.startTime) as real == c.duration * 60000.0
  {
  }

  /**
   * A LeetCode contest ends `duration` seconds after it starts and carries
   * that number of seconds in `duration`, unlike the other two platforms,
   * whose `duration` is in minutes.
   */
  lemma LeetCodeTiming(e: LeetCodeEntry)
    ensures var c := FromLeetCode(e);
      && (c.endTime - c.startTime) as real == c.duration * 1000.0
  {
  }

  /** A CodeChef contest's minutes are its length rounded to the nearest minute. */
  lemma CodeChefTiming(e: CodeChefEntry, start: int, end: int)
    ensures var c := FromCodeChef(e, start, end);
      && c.endTime - c.startTime == end - start
      && (c.duration * 60000.0 - 30000.0) <= (end - start) as real < c.duration * 60000.0 + 30000.0
  {
    var m := RoundToMinutes(end - start);
    assert (m * MsPerMinute) as real == m as real * 60000.0;
  }

  /** A notification alarm: its name and the instant it fires. */
  datatype Alarm = Alarm(name: string, when: int)

  const AlarmPrefix: string := "contest-"
  const DayMs: int := 24 * 60 * 60 * 1000
  const AlarmLeadMs: int := 30 * 60 * 1000

  /** Starts after now and at most 24 hours from now. */
  predicate InAlarmWindow(c: Contest, now: int) {
    0 < c.startTime - now <= DayMs
  }

  function AlarmFor(c: Contest): Alarm {
    Alarm(AlarmPrefix + c.id, c.startTime - AlarmLeadMs)
  }

  /** The alarms the loop creates, in contest order. */
  function AlarmsFor(cs: seq<Contest>, now: int): (r: seq<Alarm>)
    ensures |r| <= |cs|
    ensures forall a :: a in r ==> AlarmPrefix <= a.name
  {
    Map(Filter(cs, c => InAlarmWindow(c, now)), AlarmFor)
  }

  /** An alarm is created for a contest exactly when it starts within the next 24 hours. */
  lemma AlarmsForExactly(cs: seq<Contest>, now: int, a: Alarm)
    ensures a in AlarmsFor(cs, now) <==> exists c :: c in cs && InAlarmWindow(c, now) && a == AlarmFor(c)
    ensures a in AlarmsFor(cs, now) ==> now - AlarmLeadMs < a.when <= now + DayMs - AlarmLeadMs
  {
    var kept := Filter(cs, c => InAlarmWindow(c, now));
    if a in AlarmsFor(cs, now) {
      var i :| 0 <= i < |kept| && AlarmsFor(cs, now)[i] == a;
      assert kept[i] in kept;
    }
    if exists c :: c in cs && InAlarmWindow(c, now) && a == AlarmFor(c) {
      var c :| c in cs && InAlarmWindow(c, now) && a == AlarmFor(c);
      assert c in kept;
      var i :| 0 <= i < |kept| && kept[i] == c;
      assert AlarmsFor(cs, now)[i] == a;
    }
  }

  lemma AlarmsForAppend(cs: seq<Contest>, c: Contest, now: int)
    ensures AlarmsFor(cs + [c], now)
         == AlarmsFor(cs, now) + if InAlarmWindow(c, now) then [AlarmFor(c)] else []
  {
    var keep := (x: Contest) => InAlarmWindow(x, now);
    FilterAppend(cs, [c], keep);
    MapAppend(Filter(cs, keep), Filter([c], keep), AlarmFor);
  }

  /** The `forEach` over the contests that creates the alarms. */
  method ScheduleAlarms(contests: seq<Contest>, now: int) returns (alarms: seq<Alarm>)
    ensures alarms == AlarmsFor(contests, now)
  {
    alarms := [];
    var i := 0;
    while i < |contests|
      invariant 0 <= i <= |contests|
      invariant alarms == AlarmsFor(contests[..i], now)
    {
      var contest := contests[i];
      assert contests[..i + 1] == contests[..i] + [contest];
      AlarmsForAppend(contests[..i], contest, now);
      var timeUntilStart := contest.startTime - now;
      if timeUntilStart > 0 && timeUntilStart <= DayMs {
        alarms := alarms + [AlarmFor(contest)];
      }
      i := i + 1;
    }
    assert contests[..i] == contests;
  }

  /**
   * `fetchAllContests`: the normalised list and its alarms, or nothing at all
   * when anything fails, including writing the list to storage.
   */
  method FetchAllContests(
    cf: Option<seq<CodeforcesEntry>>, lc: Option<seq<LeetCodeEntry>>, cc: Option<seq<CodeChefEntry>>,
    storageSucceeds: bool, now: int
  ) returns (contests: seq<Contest>, alarms: seq<Alarm>)
    ensures Normalize(cf, lc, cc).None? || !storageSucceeds ==> contests == [] && alarms == []
    ensures Normalize(cf, lc, cc).Some? && storageSucceeds ==>
      contests == Normalize(cf, lc, cc).value && alarms == AlarmsFor(contests, now)
  {
    var normalized := Normalize(cf, lc, cc);
    if normalized.None? || !storageSucceeds {
      return [], [];
    }
    contests := normalized.value;
    alarms := ScheduleAlarms(contests, now);
  }

  /** The contest id an alarm name carries: the name with its first "contest-" removed. */
  function AlarmContestId(name: string): (r: Option<string>)
    ensures r.Some? <==> AlarmPrefix <= name
    ensures r.Some? ==> r.value == name[|AlarmPrefix|..]
  {
    if AlarmPrefix <= name then
      ReplacePrefix(name, AlarmPrefix);
      Some(ReplaceFirst(name, AlarmPrefix, ""))
    else None
  }

  datatype Notification = Notification(id: string, title: string, message: string)

  /**
   * The `onAlarm` listener for contest alarms: a notification for the first
   * stored contest with the alarm's id, if there is one. `stored` is `None`
   * when storage holds no contest list.
   */
  function OnAlarm(name: string, stored: Option<seq<Contest>>): (r: Option<Notification>)
    ensures r.Some? <==> (AlarmPrefix <= name && stored.Some?
      && FirstIndexOfId(stored.value, name[|AlarmPrefix|..]).Some?)
    ensures r.Some? ==>
      var id := name[|AlarmPrefix|..];
      r.value == Notification(id, "Upcoming Contest!",
        stored.value[FirstIndexOfId(stored.value, id).value].name + " starts in 30 minutes!")
    ensures r.Some? ==> exists k :: (0 <= k < |stored.value|
      && stored.value[k].id == r.value.id
      && r.value.message == stored.value[k].name + " starts in 30 minutes!")
  {
    match AlarmContestId(name)
    case None => None
    case Some(id) =>
      match stored
      case None => None
      case Some(cs) =>
        match FirstIndexOfId(cs, id)
        case None => None
        case Some(k) =>
          Some(Notification(id, "Upcoming Contest!", cs[k].name + " starts in 30 minutes!"))
  }

  /** An alarm set for a stored contest raises a notification for that contest's id. */
  lemma AlarmRoundTrip(c: Contest, stored: seq<Contest>)
    requires c in stored
    ensures AlarmContestId(AlarmFor(c).name) == Some(c.id)
    ensures OnAlarm(AlarmFor(c).name, Some(stored)).Some?
    ensures OnAlarm(AlarmFor(c).name, Some(stored)).value.id == c.id
  {
    var name := AlarmFor(c).name;
    assert AlarmPrefix <= name;
    assert name[|AlarmPrefix|..] == c.id;
    var k :| 0 <= k < |stored| && stored[k] == c;
    assert FirstIndexOfId(stored, c.id).Some?;
  }

  /** No notification when no stored contest has the alarm's id. */
  lemma OnAlarmUnknownId(name: string, stored: seq<Contest>)
    requires AlarmPrefix <= name
    requires forall c :: c in stored ==> c.id != name[|AlarmPrefix|..]
    ensures OnAlarm(name, Some(stored)) == None
  {
  }
}
