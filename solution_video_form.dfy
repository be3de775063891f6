/**
 * The solution-video form: its state (selected contest, video URL, success
 * flag, error text) and the submit handler, which checks the fields and
 * stores the URL on the contest through the `contests` slice.
 */
module SolutionVideoForm {
  import opened Wrappers
  import opened Seqs
  import opened Strings
  import opened ContestTypes
  import opened TimeUtils
  import opened ContestsSlice
  import YoutubeService

  const FillAllFields: string := "Please fill in all fields"
  const InvalidYoutubeUrl: string := "Please enter a valid YouTube URL"

  /** The URL mentions `youtube.com` or `youtu.be` anywhere. */
  predicate IsYoutubeUrl(url: string) {
    Contains(url, "youtube.com") || Contains(url, "youtu.be")
  }

  /** Watch URLs built for playlist videos always pass the check. */
  lemma WatchUrlsAccepted(videoId: string)
    ensures IsYoutubeUrl(YoutubeService.VideoUrl(videoId))
  {
    var u := YoutubeService.VideoUrl(videoId);
    assert OccursAt(u, "youtube.com", 12) by {
      assert u[12..23] == YoutubeService.WatchUrlPrefix[12..23];
    }
    ContainsIff(u, "youtube.com");
  }

  /** The contests offered in the form: those that have ended, in store order. */
  function PastContests(contests: seq<Contest>, now: int): (r: seq<Contest>)
    ensures IsSubseq(r, contests)
    ensures forall c :: c in r <==> c in contests && IsPast(c.endTime, now)
    ensures forall c :: multiset(r)[c] == if IsPast(c.endTime, now) then multiset(contests)[c] else 0
  {
    var past := (c: Contest) => IsPast(c.endTime, now);
    FilterMultiplicity(contests, past);
    Filter(contests, past)
  }

  /** The message `handleSubmit` shows, or `None` when it stores the URL. */
  function SubmitError(contestId: string, videoUrl: string): (r: Option<string>)
    ensures r == Some(FillAllFields) <==> contestId == "" || videoUrl == ""
    ensures r == Some(InvalidYoutubeUrl) <==> contestId != "" && videoUrl != "" && !IsYoutubeUrl(videoUrl)
    ensures r.None? <==> contestId != "" && videoUrl != "" && IsYoutubeUrl(videoUrl)
  {
    if contestId == "" || videoUrl == "" then Some(FillAllFields)
    else if !IsYoutubeUrl(videoUrl) then Some(InvalidYoutubeUrl)
    else None
  }

  /** Any non-empty watch URL for a selected contest is accepted. */
  lemma WatchUrlSubmissionAccepted(contestId: string, videoId: string)
    requires contestId != ""
    ensures SubmitError(contestId, YoutubeService.VideoUrl(videoId)).None?
  {
    WatchUrlsAccepted(videoId);
  }

  class SolutionVideoFormState {
    var selectedContestId: string
    var videoUrl: string
    var success: bool
    var error: string

    constructor ()
      ensures selectedContestId == "" && videoUrl == "" && !success && error == ""
    {
      selectedContestId := "";
      videoUrl := "";
      success := false;
      error := "";
    }

    /**
     * `handleSubmit`: on a failed check only the error text changes and the
     * store is untouched; otherwise `updateSolutionUrl` is dispatched with
     * the selected id and URL, the success flag set, the error cleared and
     * both fields reset.
     */
    method HandleSubmit(store: ContestsStore)
      modifies this, store
      ensures var e := SubmitError(old(selectedContestId), old(videoUrl));
        && (e.Some? ==>
              error == e.value && success == old(success)
              && selectedContestId == old(selectedContestId) && videoUrl == old(videoUrl)
              && store.contests == old(store.contests))
        && (e.None? ==>
              store.contests == WithSolutionUrl(old(store.contests), old(selectedContestId), old(videoUrl))
              && success && error == "" && selectedContestId == "" && videoUrl == "")
      ensures store.bookmarkedContests == old(store.bookmarkedContests)
      ensures store.loading == old(store.loading) && store.error == old(store.error)
    {
      if selectedContestId == "" || videoUrl == "" {
        error := FillAllFields;
        return;
      }
      if !Contains(videoUrl, "youtube.com") && !Contains(videoUrl, "youtu.be") {
        error := InvalidYoutubeUrl;
        return;
      }
      store.UpdateSolutionUrl(selectedContestId, videoUrl);
      success := true;
      error := "";
      selectedContestId := "";
      videoUrl := "";
    }
  }
}
