/**
 * The `filters` slice of the store: the platform list, the time range and
 * the search text the contest list is filtered by. Reducers assign the
 * fields of the one store object in place.
 */
module FiltersSlice {
  import opened ContestTypes

  /** 'all' | 'upcoming' | 'past'. */
  datatype TimeRange = AllTime | UpcomingRange | PastRange

  /** A snapshot of the slice, as selectors read it. */
  datatype FiltersState = FiltersState(platforms: seq<Platform>, timeRange: TimeRange, searchQuery: string)

  const InitialPlatforms: seq<Platform> := [Codeforces, LeetCode, CodeChef]

  const InitialFilters: FiltersState := FiltersState(InitialPlatforms, AllTime, "")

  /** The initial platform list names every platform. */
  lemma InitialPlatformsComplete(p: Platform)
    ensures p in InitialPlatforms
  {
  }

  class FiltersStore {
    var platforms: seq<Platform>
    var timeRange: TimeRange
    var searchQuery: string

    function State(): FiltersState
      reads this
    {
      FiltersState(platforms, timeRange, searchQuery)
    }

    /** The initial state: all three platforms, 'all', and no search text. */
    constructor ()
      ensures platforms == [Codeforces, LeetCode, CodeChef]
      ensures timeRange == AllTime && searchQuery == ""
      ensures State() == InitialFilters
    {
      platforms := InitialPlatforms;
      timeRange := AllTime;
      searchQuery := "";
    }

    method SetPlatforms(ps: seq<Platform>)
      modifies this
      ensures platforms == ps
      ensures timeRange == old(timeRange) && searchQuery == old(searchQuery)
    {
      platforms := ps;
    }

    method SetTimeRange(range: TimeRange)
      modifies this
      ensures timeRange == range
      ensures platforms == old(platforms) && searchQuery == old(searchQuery)
    {
      timeRange := range;
    }

    method SetSearchQuery(query: string)
      modifies this
      ensures searchQuery == query
      ensures platforms == old(platforms) && timeRange == old(timeRange)
    {
      searchQuery := query;
    }

    /** Back to the initial state from any state, so a second reset changes nothing. */
    method ResetFilters()
      modifies this
      ensures State() == InitialFilters
    {
      platforms := InitialFilters.platforms;
      timeRange := InitialFilters.timeRange;
      searchQuery := InitialFilters.searchQuery;
    }
  }
}
