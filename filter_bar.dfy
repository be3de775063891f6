/**
 * The logic of the filter bar: each handler computes the action it
 * dispatches to the `filters` slice, if any.
 */
module FilterBar {
  import opened Wrappers
  import opened Seqs
  import opened ContestTypes
  import opened FiltersSlice

  /** The actions the filter bar dispatches. */
  datatype FilterAction =
    | SetPlatforms(platforms: seq<Platform>)
    | SetTimeRange(timeRange: TimeRange)
    | SetSearchQuery(query: string)

  /**
   * The new platform list for a checkbox click: a present platform is
   * removed everywhere it occurs, the others keeping their order; an
   * absent one is appended.
   */
  function TogglePlatform(platforms: seq<Platform>, platform: Platform): (r: seq<Platform>)
    ensures platform !in platforms ==> r == platforms + [platform]
    ensures platform in platforms ==>
      platform !in r && IsSubseq(r, platforms)
      && forall p :: p != platform ==> multiset(r)[p] == multiset(platforms)[p]
    ensures platform in r <==> platform !in platforms
    ensures forall p :: p != platform ==> (p in r <==> p in platforms)
  {
    if platform in platforms then
      var others := (p: Platform) => p != platform;
      FilterMultiplicity(platforms, others);
      Filter(platforms, others)
    else platforms + [platform]
  }

  /** Clicking an unticked platform twice restores the list. */
  lemma TogglePlatformTwice(platforms: seq<Platform>, platform: Platform)
    requires platform !in platforms
    ensures TogglePlatform(TogglePlatform(platforms, platform), platform) == platforms
  {
    var keep := (p: Platform) => p != platform;
    FilterAppend(platforms, [platform], keep);
    FilterAllPass(platforms, keep);
    assert Filter([platform], keep) == [];
  }

  /** `handlePlatformChange`: always dispatches the toggled list. */
  function HandlePlatformChange(filters: FiltersState, platform: Platform): (action: FilterAction)
    ensures action.SetPlatforms?
    ensures (platform in action.platforms) != (platform in filters.platforms)
    ensures action == SetPlatforms(TogglePlatform(filters.platforms, platform))
    ensures platform !in filters.platforms ==> action.platforms == filters.platforms + [platform]
  {
    SetPlatforms(TogglePlatform(filters.platforms, platform))
  }

  /** `handleTimeRangeChange`: a deselection (null) dispatches nothing. */
  function HandleTimeRangeChange(newTimeRange: Option<TimeRange>): (action: Option<FilterAction>)
    ensures action.None? <==> newTimeRange.None?
    ensures newTimeRange.Some? ==> action == Some(SetTimeRange(newTimeRange.value))
  {
    match newTimeRange
    case None => None
    case Some(t) => Some(SetTimeRange(t))
  }

  /** `handleSearchChange`: the raw input text, untrimmed and in its own case. */
  function HandleSearchChange(value: string): (action: FilterAction)
    ensures action.SetSearchQuery? && action.query == value
  {
    SetSearchQuery(value)
  }

  /** The store's reaction to an action the filter bar dispatches. */
  method Dispatch(store: FiltersStore, action: FilterAction)
    modifies store
    ensures action.SetPlatforms? ==> store.State() == old(store.State()).(platforms := action.platforms)
    ensures action.SetTimeRange? ==> store.State() == old(store.State()).(timeRange := action.timeRange)
    ensures action.SetSearchQuery? ==> store.State() == old(store.State()).(searchQuery := action.query)
  {
    match action
    case SetPlatforms(ps) => store.SetPlatforms(ps);
    case SetTimeRange(t) => store.SetTimeRange(t);
    case SetSearchQuery(q) => store.SetSearchQuery(q);
  }
}
