/**
 * The contest list the `useContests` hook hands to the view: the stored
 * contests filtered by the `filters` slice, and the upcoming and past lists
 * derived from it. The fetch effect that loads the store is not modelled.
 *
 * The hook compares `getContestStatus`'s lower-case result with the
 * capitalised strings 'Upcoming' and 'Past'. `FilterContestsAsWritten` and
 * the `...AsWritten` lists model that comparison; `FilterContests`,
 * `UpcomingContests` and `PastContests` compare with the status values
 * themselves.
 */
module UseContests {
  import opened Wrappers
  import opened Seqs
  import opened Strings
  import opened ContestTypes
  import opened TimeUtils
  import opened FiltersSlice

  /** A non-empty platform list excludes the platforms it does not name. */
  predicate PlatformAllowed(platforms: seq<Platform>, c: Contest) {
    |platforms| == 0 || c.platform in platforms
  }

  /** An empty query keeps everything; otherwise a case-insensitive substring of the name or the platform. */
  predicate SearchMatches(query: string, c: Contest) {
    query == []
    || Contains(Lower(c.name), Lower(query))
    || Contains(Lower(PlatformName(c.platform)), Lower(query))
  }

  /** The time-range test as the hook writes it, against the strings 'Upcoming' and 'Past'. */
  predicate RangeAllowsAsWritten(range: TimeRange, status: Status) {
    !(range == UpcomingRange && StatusName(status) != "Upcoming")
    && !(range == PastRange && StatusName(status) != "Past")
  }

  /** The time-range test against the status values. */
  predicate RangeAllows(range: TimeRange, status: Status) {
    !(range == UpcomingRange && status != Upcoming)
    && !(range == PastRange && status != Past)
  }

  function StatusAt(c: Contest, now: int): Status {
    GetContestStatus(c.startTime, c.endTime, now)
  }

  predicate KeepAsWritten(f: FiltersState, now: int, c: Contest) {
    PlatformAllowed(f.platforms, c)
    && RangeAllowsAsWritten(f.timeRange, StatusAt(c, now))
    && SearchMatches(f.searchQuery, c)
  }

  predicate Keep(f: FiltersState, now: int, c: Contest) {
    PlatformAllowed(f.platforms, c)
    && RangeAllows(f.timeRange, StatusAt(c, now))
    && SearchMatches(f.searchQuery, c)
  }

  /** `filterContests` as written. */
  function FilterContestsAsWritten(cs: seq<Contest>, f: FiltersState, now: int): (r: seq<Contest>)
    ensures IsSubseq(r, cs)
    ensures forall c :: c in r ==> PlatformAllowed(f.platforms, c) && SearchMatches(f.searchQuery, c)
  {
    Filter(cs, c => KeepAsWritten(f, now, c))
  }

  /**
   * `filterContests` with the status comparison corrected: exactly the
   * contests passing all three tests, in input order.
   */
  function FilterContests(cs: seq<Contest>, f: FiltersState, now: int): (r: seq<Contest>)
    ensures IsSubseq(r, cs)
    ensures forall c :: c in r <==>
      c in cs
      && PlatformAllowed(f.platforms, c)
      && RangeAllows(f.timeRange, StatusAt(c, now))
      && SearchMatches(f.searchQuery, c)
    ensures forall c :: multiset(r)[c] == if Keep(f, now, c) then multiset(cs)[c] else 0
  {
    var keep := c => Keep(f, now, c);
    FilterMultiplicity(cs, keep);
    Filter(cs, keep)
  }

  /** `upcomingContests` as written, comparing with 'Upcoming'. */
  function UpcomingContestsAsWritten(filtered: seq<Contest>, now: int): (r: seq<Contest>)
    ensures IsSubseq(r, filtered)
  {
    Filter(filtered, c => StatusName(StatusAt(c, now)) == "Upcoming")
  }

  /** `pastContests` as written, comparing with 'Past'. */
  function PastContestsAsWritten(filtered: seq<Contest>, now: int): (r: seq<Contest>)
    ensures IsSubseq(r, filtered)
  {
    Filter(filtered, c => StatusName(StatusAt(c, now)) == "Past")
  }

  function UpcomingContests(filtered: seq<Contest>, now: int): (r: seq<Contest>)
    ensures IsSubseq(r, filtered)
    ensures forall c :: c in r <==> c in filtered && StatusAt(c, now) == Upcoming
    ensures forall c :: multiset(r)[c] == if StatusAt(c, now) == Upcoming then multiset(filtered)[c] else 0
  {
    var upcoming := c => StatusAt(c, now) == Upcoming;
    FilterMultiplicity(filtered, upcoming);
    Filter(filtered, upcoming)
  }

  function PastContests(filtered: seq<Contest>, now: int): (r: seq<Contest>)
    ensures IsSubseq(r, filtered)
    ensures forall c :: c in r <==> c in filtered && IsPast(c.endTime, now)
    ensures forall c :: multiset(r)[c] == if IsPast(c.endTime, now) then multiset(filtered)[c] else 0
  {
    var past := c => StatusAt(c, now) == Past;
    FilterMultiplicity(filtered, past);
    Filter(filtered, past)
  }

  /** No status name is capitalised. */
  lemma StatusNameLowerCase(s: Status)
    ensures StatusName(s) != "Upcoming" && StatusName(s) != "Past"
  {
    assert StatusName(s)[0] != 'U' && StatusName(s)[0] != 'P';
  }

  /** As written, choosing 'upcoming' or 'past' empties the list, whatever it holds. */
  lemma RangeFilterAsWrittenIsEmpty(cs: seq<Contest>, f: FiltersState, now: int)
    requires f.timeRange != AllTime
    ensures FilterContestsAsWritten(cs, f, now) == []
  {
    forall c | c in cs
      ensures !KeepAsWritten(f, now, c)
    {
      StatusNameLowerCase(StatusAt(c, now));
    }
    FilterNonePass(cs, c => KeepAsWritten(f, now, c));
  }

  /** As written, the derived upcoming and past lists are always empty. */
  lemma DerivedListsAsWrittenAreEmpty(filtered: seq<Contest>, now: int)
    ensures UpcomingContestsAsWritten(filtered, now) == []
    ensures PastContestsAsWritten(filtered, now) == []
  {
    forall c | c in filtered
      ensures StatusName(StatusAt(c, now)) != "Upcoming" && StatusName(StatusAt(c, now)) != "Past"
    {
      StatusNameLowerCase(StatusAt(c, now));
    }
    FilterNonePass(filtered, c => StatusName(StatusAt(c, now)) == "Upcoming");
    FilterNonePass(filtered, c => StatusName(StatusAt(c, now)) == "Past");
  }

  /** With 'all' the written and the corrected filters coincide. */
  lemma AsWrittenAgreesOnAllTime(cs: seq<Contest>, f: FiltersState, now: int)
    requires f.timeRange == AllTime
    ensures FilterContestsAsWritten(cs, f, now) == FilterContests(cs, f, now)
  {
    FilterExt(cs, c => KeepAsWritten(f, now, c), c => Keep(f, now, c));
  }

  /** A contest about to start, shown to the 'upcoming' filter. */
  lemma UpcomingRangeCounterexample()
    ensures var c := Contest("cf-1", "Round 1", Codeforces, 60000, 180000, 2.0, "", None, None);
            var f := FiltersState([], UpcomingRange, "");
            FilterContestsAsWritten([c], f, 0) == [] && FilterContests([c], f, 0) == [c]
  {
    var c := Contest("cf-1", "Round 1", Codeforces, 60000, 180000, 2.0, "", None, None);
    var f := FiltersState([], UpcomingRange, "");
    RangeFilterAsWrittenIsEmpty([c], f, 0);
    assert Keep(f, 0, c);
    FilterAllPass([c], c => Keep(f, 0, c));
  }

  /**
   * Filtering by the 'upcoming' range is the same as filtering with 'all'
   * and then taking the upcoming contests, and likewise for 'past'.
   */
  lemma RangeFilterIsDerivedList(cs: seq<Contest>, f: FiltersState, now: int)
    ensures FilterContests(cs, f.(timeRange := UpcomingRange), now)
         == UpcomingContests(FilterContests(cs, f.(timeRange := AllTime), now), now)
    ensures FilterContests(cs, f.(timeRange := PastRange), now)
         == PastContests(FilterContests(cs, f.(timeRange := AllTime), now), now)
  {
    var fa := f.(timeRange := AllTime);
    var fu := f.(timeRange := UpcomingRange);
    var fp := f.(timeRange := PastRange);
    FilterCompose(cs, c => Keep(fa, now, c), c => StatusAt(c, now) == Upcoming, c => Keep(fu, now, c));
    FilterCompose(cs, c => Keep(fa, now, c), c => StatusAt(c, now) == Past, c => Keep(fp, now, c));
  }

  /** For a fixed clock, filtering the filtered list again changes nothing. */
  lemma FilterContestsIdempotent(cs: seq<Contest>, f: FiltersState, now: int)
    ensures FilterContests(FilterContests(cs, f, now), f, now) == FilterContests(cs, f, now)
  {
    FilterIdempotent(cs, c => Keep(f, now, c));
  }

  /** With 'all' the result does not depend on the clock. */
  lemma AllTimeIgnoresClock(cs: seq<Contest>, f: FiltersState, now1: int, now2: int)
    requires f.timeRange == AllTime
    ensures FilterContests(cs, f, now1) == FilterContests(cs, f, now2)
  {
    FilterExt(cs, c => Keep(f, now1, c), c => Keep(f, now2, c));
  }

  /** Selecting every platform restricts no more than selecting none. */
  lemma AllPlatformsLikeNone(cs: seq<Contest>, f: FiltersState, now: int)
    requires forall p: Platform :: p in f.platforms
    ensures FilterContests(cs, f, now) == FilterContests(cs, f.(platforms := []), now)
  {
    var g := f.(platforms := []);
    FilterExt(cs, c => Keep(f, now, c), c => Keep(g, now, c));
  }

  /** The initial filters keep every contest. */
  lemma InitialFiltersKeepAll(cs: seq<Contest>, now: int)
    ensures FilterContests(cs, InitialFilters, now) == cs
  {
    forall c | c in cs
      ensures Keep(InitialFilters, now, c)
    {
      InitialPlatformsComplete(c.platform);
    }
    FilterAllPass(cs, c => Keep(InitialFilters, now, c));
  }
}
