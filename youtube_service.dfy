/**
 * Attaching solution videos to contests: a contest gets the URL of the
 * first playlist video whose title contains its name, ignoring case. The
 * playlist requests themselves are not modelled; their result is a
 * parameter.
 */
module YoutubeService {
  import opened Wrappers
  import opened Seqs
  import opened Strings
  import opened ContestTypes

  datatype Video = Video(id: string, title: string, description: string, url: string)

  /** The part of a playlist item's snippet the service reads. */
  datatype PlaylistItem = PlaylistItem(videoId: string, title: string, description: string)

  const WatchUrlPrefix: string := "https://www.youtube.com/watch?v="

  function VideoUrl(videoId: string): (u: string)
    ensures WatchUrlPrefix <= u && u[|WatchUrlPrefix|..] == videoId
  {
    WatchUrlPrefix + videoId
  }

  /** Watch URLs of different videos differ. */
  lemma VideoUrlInjective(a: string, b: string)
    requires VideoUrl(a) == VideoUrl(b)
    ensures a == b
  {
    assert VideoUrl(a)[|WatchUrlPrefix|..] == VideoUrl(b)[|WatchUrlPrefix|..];
  }

  /** A playlist item as a video, with its watch URL. */
  function ToVideo(item: PlaylistItem): (v: Video)
    ensures v.id == item.videoId && v.title == item.title && v.description == item.description
    ensures v.url == VideoUrl(item.videoId)
  {
    Video(item.videoId, item.title, item.description, VideoUrl(item.videoId))
  }

  predicate TitleMatches(v: Video, contestName: string) {
    Contains(Lower(v.title), Lower(contestName))
  }

  /** Position of the first video whose title matches the name. */
  function FirstMatch(videos: seq<Video>, contestName: string): (r: Option<nat>)
    ensures r.None? <==> forall k :: 0 <= k < |videos| ==> !TitleMatches(videos[k], contestName)
    ensures r.Some? ==> r.value < |videos| && TitleMatches(videos[r.value], contestName)
    ensures r.Some? ==> forall k :: 0 <= k < r.value ==> !TitleMatches(videos[k], contestName)
  {
    if videos == [] then None
    else if TitleMatches(videos[0], contestName) then Some(0)
    else match FirstMatch(videos[1..], contestName)
      case None => None
      case Some(k) => Some(k + 1)
  }

  /** One contest: the first matching video's URL replaces `solutionUrl`; no match, no change. */
  function AttachSolution(contest: Contest, videos: seq<Video>): (r: Contest)
    ensures FirstMatch(videos, contest.name).None? ==> r == contest
    ensures FirstMatch(videos, contest.name).Some? ==>
      r.solutionUrl == Some(videos[FirstMatch(videos, contest.name).value].url)
    ensures r.(solutionUrl := contest.solutionUrl) == contest
  {
    match FirstMatch(videos, contest.name)
    case None => contest
    case Some(k) => contest.(solutionUrl := Some(videos[k].url))
  }

  /** `matchContestSolutions`: one output contest per input contest, in the same order. */
  function MatchContestSolutions(contests: seq<Contest>, videos: seq<Video>): (r: seq<Contest>)
    ensures |r| == |contests|
    ensures forall i :: 0 <= i < |r| ==> r[i].(solutionUrl := contests[i].solutionUrl) == contests[i]
    ensures forall i :: 0 <= i < |r| && FirstMatch(videos, contests[i].name).None? ==> r[i] == contests[i]
    ensures forall i :: 0 <= i < |r| && FirstMatch(videos, contests[i].name).Some? ==>
      r[i].solutionUrl == Some(videos[FirstMatch(videos, contests[i].name).value].url)
  {
    Map(contests, c => AttachSolution(c, videos))
  }

  /** With no videos every contest comes back unchanged. */
  lemma NoVideosIsIdentity(contests: seq<Contest>)
    ensures MatchContestSolutions(contests, []) == contests
  {
  }

  /** A contest with an empty name gets the first video, whatever its title. */
  lemma EmptyNameTakesFirstVideo(contest: Contest, videos: seq<Video>)
    requires contest.name == [] && |videos| > 0
    ensures AttachSolution(contest, videos).solutionUrl == Some(videos[0].url)
  {
    ContainsEmpty(Lower(videos[0].title));
  }

  /** Matching the matched list again changes nothing: names are untouched, so the same video wins. */
  lemma MatchIdempotent(contests: seq<Contest>, videos: seq<Video>)
    ensures MatchContestSolutions(MatchContestSolutions(contests, videos), videos)
         == MatchContestSolutions(contests, videos)
  {
    var once := MatchContestSolutions(contests, videos);
    var twice := MatchContestSolutions(once, videos);
    forall i | 0 <= i < |once|
      ensures twice[i] == once[i]
    {
      assert once[i].name == contests[i].name;
    }
  }

  /** The three playlists whose videos are searched, in request order. */
  const PlaylistIds: seq<string> := [
    "PLcXpkI9A-RZI6FhydNz3JBt_-p_i25Cbr",
    "PLcXpkI9A-RZLUfBSNp-YQBCOezZKbDSgB",
    "PLcXpkI9A-RZIZ6lsE0KCcLWeKNoG45fYr"
  ]

  /** The videos of one response; none for a failed request. */
  function PageVideos(response: Option<seq<PlaylistItem>>): seq<Video> {
    match response
    case None => []
    case Some(items) => Map(items, ToVideo)
  }

  /** Every response's videos, one page after the other in request order; failed requests add none. */
  function AllVideos(responses: seq<Option<seq<PlaylistItem>>>): seq<Video> {
    if responses == [] then []
    else AllVideos(responses[..|responses| - 1]) + PageVideos(responses[|responses| - 1])
  }

  /** `v` is the video of some item of a successful response. */
  predicate MadeFrom(response: Option<seq<PlaylistItem>>, v: Video) {
    response.Some? && exists item :: item in response.value && v == ToVideo(item)
  }

  /** A page holds exactly the videos of its response's items. */
  lemma PageVideosMembers(response: Option<seq<PlaylistItem>>, v: Video)
    ensures v in PageVideos(response) <==> MadeFrom(response, v)
  {
    if response.Some? {
      var page := PageVideos(response);
      if v in page {
        var k :| 0 <= k < |page| && page[k] == v;
        assert response.value[k] in response.value;
      }
      if MadeFrom(response, v) {
        var item :| item in response.value && v == ToVideo(item);
        var k :| 0 <= k < |response.value| && response.value[k] == item;
        assert page[k] == v;
      }
    }
  }

  /** A video is among all the videos exactly when some successful response holds an item it is made from. */
  lemma {:induction false} AllVideosMembers(responses: seq<Option<seq<PlaylistItem>>>, v: Video)
    ensures v in AllVideos(responses) <==> exists i :: 0 <= i < |responses| && MadeFrom(responses[i], v)
  {
    if responses != [] {
      var n := |responses| - 1;
      var front := responses[..n];
      var earlier, page := AllVideos(front), PageVideos(responses[n]);
      assert AllVideos(responses) == earlier + page;
      assert v in earlier + page <==> v in earlier || v in page;
      AllVideosMembers(front, v);
      PageVideosMembers(responses[n], v);
      if v in earlier {
        var i :| 0 <= i < |front| && MadeFrom(front[i], v);
        assert front[i] == responses[i];
      }
      if exists i :: 0 <= i < |responses| && MadeFrom(responses[i], v) {
        var i :| 0 <= i < |responses| && MadeFrom(responses[i], v);
        if i < n {
          assert front[i] == responses[i];
        }
      }
    }
  }

  /**
   * The videos of several playlist responses, concatenated in playlist
   * order, or `None` when some request failed.
   */
  function FetchedVideos(responses: seq<Option<seq<PlaylistItem>>>): (r: Option<seq<Video>>)
    ensures r.None? <==> exists i :: 0 <= i < |responses| && responses[i].None?
    ensures r.Some? ==> r.value == AllVideos(responses)
  {
    if responses == [] then Some([])
    else
      var last := responses[|responses| - 1];
      var front := FetchedVideos(responses[..|responses| - 1]);
      assert forall i :: 0 <= i < |responses| - 1 ==> responses[..|responses| - 1][i] == responses[i];
      if front.None? || last.None? then None
      else
        Some(front.value + Map(last.value, ToVideo))
  }

  /**
   * The fetched videos are exactly the items of the playlists, each with its
   * watch URL.
   */
  lemma FetchedVideosMembers(responses: seq<Option<seq<PlaylistItem>>>, v: Video)
    requires FetchedVideos(responses).Some?
    ensures v in FetchedVideos(responses).value <==> exists i :: 0 <= i < |responses| && MadeFrom(responses[i], v)
    ensures v in FetchedVideos(responses).value ==> v.url == VideoUrl(v.id)
  {
    AllVideosMembers(responses, v);
  }

  /**
   * `fetchPlaylistVideos`, given each playlist request's outcome: throws
   * (`None`) without an API key or when a request fails; otherwise the
   * videos of all playlists, appended playlist after playlist.
   */
  method FetchPlaylistVideos(apiKeyConfigured: bool, responses: seq<Option<seq<PlaylistItem>>>)
    returns (videos: Option<seq<Video>>)
    requires |responses| == |PlaylistIds|
    ensures !apiKeyConfigured ==> videos.None?
    ensures apiKeyConfigured ==> videos == FetchedVideos(responses)
  {
    if !apiKeyConfigured {
      return None;
    }
    var collected: seq<Video> := [];
    var i := 0;
    while i < |PlaylistIds|
      invariant 0 <= i <= |PlaylistIds|
      invariant FetchedVideos(responses[..i]) == Some(collected)
    {
      var response := responses[i];
      assert responses[..i + 1][..i] == responses[..i];
      if response.None? {
        return None;
      }
      collected := collected + Map(response.value, ToVideo);
      i := i + 1;
    }
    assert responses[..i] == responses;
    return Some(collected);
  }

  /**
   * `autoUpdateSolutions`: the contests matched against the fetched videos;
   * when the key is missing or a request fails, the contests unchanged.
   * Either way only `solutionUrl` fields can change.
   */
  method AutoUpdateSolutions(contests: seq<Contest>, apiKeyConfigured: bool, responses: seq<Option<seq<PlaylistItem>>>)
    returns (r: seq<Contest>)
    requires |responses| == |PlaylistIds|
    ensures |r| == |contests|
    ensures forall i :: 0 <= i < |r| ==> r[i].(solutionUrl := contests[i].solutionUrl) == contests[i]
    ensures !apiKeyConfigured || FetchedVideos(responses).None? ==> r == contests
    ensures apiKeyConfigured && FetchedVideos(responses).Some? ==>
      r == MatchContestSolutions(contests, FetchedVideos(responses).value)
  {
    var videos := FetchPlaylistVideos(apiKeyConfigured, responses);
    if videos.None? {
      return contests;
    }
    return MatchContestSolutions(contests, videos.value);
  }
}
