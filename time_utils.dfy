/**
 * Contest status and remaining-time arithmetic. The clock is the explicit
 * parameter `now`; all instants are integer milliseconds.
 */
module TimeUtils {
  import opened Wrappers
  import opened Strings
  import opened ContestTypes

  datatype Status = Upcoming | Ongoing | Past

  /** The lower-case string `getContestStatus` returns. */
  function StatusName(s: Status): (r: string)
    ensures |r| > 0 && forall i :: 0 <= i < |r| ==> 'a' <= r[i] <= 'z'
  {
    match s
    case Upcoming => "upcoming"
    case Ongoing => "ongoing"
    case Past => "past"
  }

  /** `isUpcoming`: the start lies strictly after now. */
  predicate IsUpcoming(startTime: int, now: int) {
    startTime > now
  }

  /** `isPast`: the end lies strictly before now. */
  predicate IsPast(endTime: int, now: int) {
    endTime < now
  }

  /**
   * `getContestStatus`: `past` once the end is strictly before now, `ongoing`
   * strictly between start and end, and `upcoming` otherwise, which includes
   * the two instants now == start and now == end.
   */
  function GetContestStatus(startTime: int, endTime: int, now: int): (r: Status)
    ensures r == Past <==> IsPast(endTime, now)
    ensures r == Ongoing <==> startTime < now < endTime
    ensures r == Upcoming <==> now <= endTime && (now <= startTime || now == endTime)
  {
    if endTime < now then Past
    else if startTime < now && endTime > now then Ongoing
    else Upcoming
  }

  /** A contest that has not started yet (and is well-formed) is `upcoming`. */
  lemma UpcomingWhenNotStarted(startTime: int, endTime: int, now: int)
    requires startTime <= endTime && !(startTime < now)
    ensures GetContestStatus(startTime, endTime, now) == Upcoming
  {
  }

  /** At its exact end instant a contest reads as `upcoming`, not `ongoing` or `past`. */
  lemma StatusAtEndInstant(startTime: int, endTime: int)
    ensures GetContestStatus(startTime, endTime, endTime) == Upcoming
  {
  }

  function Rank(s: Status): nat {
    match s
    case Upcoming => 0
    case Ongoing => 1
    case Past => 2
  }

  /**
   * As the clock advances the status moves only forwards
   * (upcoming, ongoing, past), except at the end instant itself.
   */
  lemma StatusMonotone(startTime: int, endTime: int, now1: int, now2: int)
    requires now1 <= now2 && now2 != endTime
    ensures Rank(GetContestStatus(startTime, endTime, now1)) <= Rank(GetContestStatus(startTime, endTime, now2))
  {
  }

  /**
   * `differenceInMinutes(startTime, now)`: whole minutes between the two
   * instants, truncated toward zero (date-fns' default rounding).
   */
  function MinutesUntil(startTime: int, now: int): (m: int)
    ensures startTime - now >= 0 ==> 0 <= m * MsPerMinute <= startTime - now < m * MsPerMinute + MsPerMinute
    ensures startTime - now < 0 ==> m * MsPerMinute - MsPerMinute < startTime - now <= m * MsPerMinute <= 0
  {
    var d := startTime - now;
    if d >= 0 then d / MsPerMinute else -((-d) / MsPerMinute)
  }

  /** JavaScript's `m % 60`: the remainder takes the dividend's sign. */
  function JsRem60(m: int): (r: int)
    ensures m >= 0 ==> r == m % 60
    ensures m < 0 ==> -60 < r <= 0 && (m - r) % 60 == 0
  {
    if m >= 0 then m % 60 else -((-m) % 60)
  }

  /** The remaining time split into days, hours and minutes. */
  datatype Remaining = Remaining(days: nat, hours: nat, minutes: nat)

  lemma {:induction false} ModOfDayRemainder(m: nat)
    ensures (m % 1440) % 60 == m % 60
  {
    var q, r := m / 1440, m % 1440;
    assert m == q * 1440 + r;
    assert m == (q * 24 + r / 60) * 60 + r % 60;
    assert 0 <= r % 60 < 60;
  }

  function Breakdown(m: nat): (b: Remaining)
    ensures b.days * 1440 + b.hours * 60 + b.minutes == m
    ensures b.hours < 24 && b.minutes < 60
  {
    ModOfDayRemainder(m);
    Remaining(m / 1440, (m % 1440) / 60, m % 60)
  }

  /** The breakdown is the only one within the unit bounds. */
  lemma {:induction false} BreakdownUnique(m: nat, b: Remaining)
    requires b.days * 1440 + b.hours * 60 + b.minutes == m
    requires b.hours < 24 && b.minutes < 60
    ensures b == Breakdown(m)
  {
    var c := Breakdown(m);
    assert (b.days - c.days) * 1440 == (c.hours * 60 + c.minutes) - (b.hours * 60 + b.minutes);
    assert b.days == c.days;
    assert (b.hours - c.hours) * 60 == c.minutes - b.minutes;
    assert b.hours == c.hours;
  }

  /** A number followed by its unit letter, as in "5h". */
  function Token(n: nat, unit: char): (t: string)
    ensures |t| > 0 && t[|t| - 1] == unit
  {
    NatToString(n) + [unit]
  }

  /** The text shown for a breakdown: from the largest non-zero unit down to minutes. */
  function RenderRemaining(b: Remaining): (r: string)
    ensures |r| > 0 && r[|r| - 1] == 'm'
  {
    var minutesText := Token(b.minutes, 'm');
    var hoursText := Token(b.hours, 'h') + " " + minutesText;
    if b.days > 0 then Token(b.days, 'd') + " " + hoursText
    else if b.hours > 0 then hoursText
    else minutesText
  }

  const StartedText: string := "Contest has started"

  /** No rendering of a breakdown reads "Contest has started": they end in 'm', it in 'd'. */
  lemma RenderedIsNotStarted(b: Remaining)
    ensures RenderRemaining(b) != StartedText
  {
    var r := RenderRemaining(b);
    assert r[|r| - 1] == 'm';
    assert StartedText[|StartedText| - 1] == 'd';
  }

  /**
   * `formatTimeRemaining`: "Contest has started" once the truncated minute
   * difference is negative, that is once the start is a full minute or more
   * in the past; otherwise the breakdown of the remaining minutes.
   */
  function FormatTimeRemaining(startTime: int, now: int): (r: string)
    ensures r == StartedText <==> startTime - now <= -MsPerMinute
    ensures r != StartedText ==> r == RenderRemaining(Breakdown(MinutesUntil(startTime, now)))
  {
    var m := MinutesUntil(startTime, now);
    if m < 0 then StartedText
    else
      RenderedIsNotStarted(Breakdown(m));
      RenderRemaining(Breakdown(m))
  }

  predicate IsUnit(u: char) {
    u == 'd' || u == 'h' || u == 'm'
  }

  /** `n` of unit `u`, in minutes. */
  function Scaled(n: nat, u: char): nat {
    if u == 'd' then n * 1440 else if u == 'h' then n * 60 else n
  }

  /** Joins words with single spaces, as the template literal lays tokens out. */
  function Join(ws: seq<string>): string {
    if ws == [] then ""
    else if |ws| == 1 then ws[0]
    else ws[0] + " " + Join(ws[1..])
  }

  /** Splits a text at every space; a text without spaces is one word. */
  function Words(s: string): (ws: seq<string>)
    ensures |ws| >= 1
  {
    if s == [] then [""]
    else
      var rest := Words(s[1..]);
      if s[0] == ' ' then [""] + rest
      else [[s[0]] + rest[0]] + rest[1..]
  }

  predicate NoSpace(w: string) {
    forall i :: 0 <= i < |w| ==> w[i] != ' '
  }

  /** A word "<digits><unit>" read as minutes. */
  function ParseWord(w: string): Option<nat> {
    if |w| >= 2 && IsUnit(w[|w| - 1]) && AllDigits(w[..|w| - 1])
    then Some(Scaled(ParseDigits(w[..|w| - 1]), w[|w| - 1]))
    else None
  }

  /** Total minutes of a list of words, if every one of them is a token. */
  function SumWords(ws: seq<string>): Option<nat> {
    if ws == [] then Some(0)
    else
      match (ParseWord(ws[0]), SumWords(ws[1..]))
      case (Some(v), Some(t)) => Some(v + t)
      case _ => None
  }

  /**
   * Reads a remaining-time text ("Xd Yh Zm", "Yh Zm" or "Zm") back as a
   * number of minutes: space-separated number-and-unit tokens, the last one
   * in minutes.
   */
  function ParseRemaining(s: string): Option<nat> {
    var ws := Words(s);
    var last := ws[|ws| - 1];
    if last != [] && last[|last| - 1] == 'm' then SumWords(ws) else None
  }

  lemma {:induction false} WordsOfWord(a: string)
    requires NoSpace(a)
    ensures Words(a) == [a]
  {
    if a != [] {
      WordsOfWord(a[1..]);
      assert [a[0]] + a[1..] == a;
    }
  }

  lemma {:induction false} WordsOfWordThenSpace(a: string, b: string)
    requires NoSpace(a)
    ensures Words(a + " " + b) == [a] + Words(b)
  {
    var s := a + " " + b;
    if a == [] {
      assert s == " " + b;
      assert s[1..] == b;
    } else {
      assert s[1..] == a[1..] + " " + b;
      WordsOfWordThenSpace(a[1..], b);
      assert [a[0]] + a[1..] == a;
    }
  }

  /** Splitting undoes joining words that hold no space. */
  lemma {:induction false} WordsOfJoin(ws: seq<string>)
    requires |ws| >= 1
    requires forall i :: 0 <= i < |ws| ==> NoSpace(ws[i])
    ensures Words(Join(ws)) == ws
  {
    if |ws| == 1 {
      WordsOfWord(ws[0]);
    } else {
      WordsOfWordThenSpace(ws[0], Join(ws[1..]));
      WordsOfJoin(ws[1..]);
    }
  }

  /** A token reads back as its number scaled by its unit. */
  lemma ParseToken(n: nat, u: char)
    requires IsUnit(u)
    ensures ParseWord(Token(n, u)) == Some(Scaled(n, u))
  {
    var t := Token(n, u);
    assert t[..|t| - 1] == NatToString(n);
    NatToStringRoundTrip(n);
  }

  lemma TokenNoSpace(n: nat, u: char)
    requires IsUnit(u)
    ensures NoSpace(Token(n, u))
  {
  }

  /** The tokens a breakdown renders, largest unit first. */
  function TokensOf(b: Remaining): (ws: seq<string>)
    ensures |ws| >= 1 && ws[|ws| - 1] == Token(b.minutes, 'm')
  {
    if b.days > 0 then [Token(b.days, 'd'), Token(b.hours, 'h'), Token(b.minutes, 'm')]
    else if b.hours > 0 then [Token(b.hours, 'h'), Token(b.minutes, 'm')]
    else [Token(b.minutes, 'm')]
  }

  lemma JoinOfHours(h: nat, m: nat)
    ensures Join([Token(h, 'h'), Token(m, 'm')]) == Token(h, 'h') + " " + Token(m, 'm')
  {
    assert [Token(h, 'h'), Token(m, 'm')][1..] == [Token(m, 'm')];
  }

  lemma RenderIsJoin(b: Remaining)
    ensures RenderRemaining(b) == Join(TokensOf(b))
  {
    JoinOfHours(b.hours, b.minutes);
    if b.days > 0 {
      var ws := [Token(b.days, 'd'), Token(b.hours, 'h'), Token(b.minutes, 'm')];
      assert ws[1..] == [Token(b.hours, 'h'), Token(b.minutes, 'm')];
    }
  }

  /** A token in front adds its minutes to the total of the words after it. */
  lemma SumWordsCons(ws: seq<string>, v: nat, t: nat)
    requires |ws| >= 1 && ParseWord(ws[0]) == Some(v) && SumWords(ws[1..]) == Some(t)
    ensures SumWords(ws) == Some(v + t)
  {
  }

  lemma TokensNoSpace(b: Remaining)
    ensures forall i :: 0 <= i < |TokensOf(b)| ==> NoSpace(TokensOf(b)[i])
  {
    TokenNoSpace(b.days, 'd');
    TokenNoSpace(b.hours, 'h');
    TokenNoSpace(b.minutes, 'm');
  }

  lemma SumOfMinutes(m: nat)
    ensures SumWords([Token(m, 'm')]) == Some(m)
  {
    ParseToken(m, 'm');
    SumWordsCons([Token(m, 'm')], m, 0);
  }

  lemma SumOfHours(h: nat, m: nat)
    ensures SumWords([Token(h, 'h'), Token(m, 'm')]) == Some(h * 60 + m)
  {
    SumOfMinutes(m);
    ParseToken(h, 'h');
    assert [Token(h, 'h'), Token(m, 'm')][1..] == [Token(m, 'm')];
    SumWordsCons([Token(h, 'h'), Token(m, 'm')], h * 60, m);
  }

  lemma SumOfDays(d: nat, h: nat, m: nat)
    ensures SumWords([Token(d, 'd'), Token(h, 'h'), Token(m, 'm')]) == Some(d * 1440 + h * 60 + m)
  {
    SumOfHours(h, m);
    ParseToken(d, 'd');
    assert [Token(d, 'd'), Token(h, 'h'), Token(m, 'm')][1..] == [Token(h, 'h'), Token(m, 'm')];
    SumWordsCons([Token(d, 'd'), Token(h, 'h'), Token(m, 'm')], d * 1440, h * 60 + m);
  }

  lemma SumOfTokens(b: Remaining)
    ensures SumWords(TokensOf(b)) == Some(b.days * 1440 + b.hours * 60 + b.minutes)
  {
    if b.days > 0 {
      SumOfDays(b.days, b.hours, b.minutes);
    } else if b.hours > 0 {
      SumOfHours(b.hours, b.minutes);
    } else {
      SumOfMinutes(b.minutes);
    }
  }

  /** Reading the rendered breakdown gives back the number of minutes it stands for. */
  lemma RenderRemainingRoundTrip(b: Remaining)
    ensures ParseRemaining(RenderRemaining(b)) == Some(b.days * 1440 + b.hours * 60 + b.minutes)
  {
    var ws := TokensOf(b);
    RenderIsJoin(b);
    TokensNoSpace(b);
    SumOfTokens(b);
    WordsOfJoin(ws);
  }

  /**
   * The text `formatTimeRemaining` shows for a contest that has not started
   * denotes exactly the whole minutes left until its start.
   */
  lemma FormatTimeRemainingRoundTrip(startTime: int, now: int)
    requires startTime - now > -MsPerMinute
    ensures MinutesUntil(startTime, now) >= 0
    ensures ParseRemaining(FormatTimeRemaining(startTime, now)) == Some(MinutesUntil(startTime, now))
  {
    var m := MinutesUntil(startTime, now);
    var b := Breakdown(m);
    assert FormatTimeRemaining(startTime, now) == RenderRemaining(b);
    RenderRemainingRoundTrip(b);
  }

  /**
   * `formatDuration`'s two numbers: `Math.floor(m / 60)` and JavaScript's
   * `m % 60`, which takes the sign of `m`. For a negative duration that is
   * not a whole number of hours they do not add back up to `m`
   * (DurationPartsRecombine).
   */
  function DurationParts(minutes: int): (p: (int, int))
    ensures minutes >= 0 ==> p.0 * 60 + p.1 == minutes && 0 <= p.1 < 60
    ensures minutes < 0 ==> p.0 * 60 <= minutes < p.0 * 60 + 60
    ensures minutes < 0 ==> -60 < p.1 <= 0 && (minutes - p.1) % 60 == 0
  {
    (minutes / 60, JsRem60(minutes))
  }

  /** The two parts give back `m` exactly when `m` is not negative or is a whole number of hours. */
  lemma DurationPartsRecombine(minutes: int)
    ensures var p := DurationParts(minutes);
      p.0 * 60 + p.1 == minutes <==> minutes >= 0 || minutes % 60 == 0
  {
    if minutes < 0 {
      var p := DurationParts(minutes);
      assert p.0 * 60 == minutes - minutes % 60;
      if minutes % 60 == 0 {
        assert (-minutes) % 60 == 0;
      } else {
        assert (-minutes) % 60 == 60 - minutes % 60;
      }
    }
  }

  /** `formatDuration`: "H hours R minutes". */
  function FormatDuration(minutes: int): (r: string)
    ensures minutes >= 0 ==>
      r == NatToString(minutes / 60) + " hours " + NatToString(minutes % 60) + " minutes"
  {
    var (hours, rest) := DurationParts(minutes);
    IntToString(hours) + " hours " + IntToString(rest) + " minutes"
  }

  /** The tests' "2h 0m" for 120 minutes is not what the code renders. */
  lemma FormatDurationOfTwoHours()
    ensures FormatDuration(120) == "2 hours 0 minutes"
    ensures FormatDuration(120) != "2h 0m"
  {
    assert DurationParts(120) == (2, 0);
    assert IntToString(2) == "2" && IntToString(0) == "0";
  }
}
