/**
 * The `contests` slice of the store: the contest list, the bookmarked
 * contest ids, a loading flag and an error message. Reducers update the
 * fields of the one store object in place.
 */
module ContestsSlice {
  import opened Wrappers
  import opened ContestTypes

  /** `Array.prototype.indexOf` on a list of ids, `None` standing for -1. */
  function IndexOf(ids: seq<string>, id: string): (r: Option<nat>)
    ensures r.Some? ==> r.value < |ids| && ids[r.value] == id && id !in ids[..r.value]
    ensures r.None? <==> id !in ids
  {
    if ids == [] then None
    else if ids[0] == id then Some(0)
    else match IndexOf(ids[1..], id)
      case None => None
      case Some(k) =>
        assert ids[..k + 1] == [ids[0]] + ids[1..][..k];
        Some(k + 1)
  }

  /**
   * The bookmark list after `toggleBookmark(id)`: an absent id is appended;
   * a present one has its first occurrence removed.
   */
  /** `ids` without its element at position `i`. */
  function RemoveAt(ids: seq<string>, i: nat): (r: seq<string>)
    requires i < |ids|
    ensures |r| == |ids| - 1
    ensures forall k :: 0 <= k < |r| ==> r[k] == if k < i then ids[k] else ids[k + 1]
  {
    ids[..i] + ids[i + 1..]
  }

  function ToggleBookmarkIn(ids: seq<string>, id: string): (r: seq<string>)
    ensures id !in ids ==> r == ids + [id]
    ensures id in ids ==> |r| == |ids| - 1 && multiset(r) == multiset(ids) - multiset{id}
    ensures id in ids ==> exists i :: (0 <= i < |ids| && ids[i] == id && id !in ids[..i]
      && r == ids[..i] + ids[i + 1..])
    ensures forall x :: x != id ==> (x in r <==> x in ids)
  {
    match IndexOf(ids, id)
    case None => ids + [id]
    case Some(i) =>
      assert ids == ids[..i] + [ids[i]] + ids[i + 1..];
      assert multiset(ids) == multiset(ids[..i]) + multiset{id} + multiset(ids[i + 1..]);
      RemoveAt(ids, i)
  }

  predicate NoDuplicates(ids: seq<string>) {
    forall i, j :: 0 <= i < j < |ids| ==> ids[i] != ids[j]
  }

  /** Toggling an id that is not bookmarked twice leaves the list as it was. */
  lemma ToggleTwiceFromAbsent(ids: seq<string>, id: string)
    requires id !in ids
    ensures ToggleBookmarkIn(ToggleBookmarkIn(ids, id), id) == ids
  {
    var once := ids + [id];
    assert IndexOf(once, id) == Some(|ids|) by {
      assert once[..|ids|] == ids;
    }
    assert once[..|ids|] == ids;
  }

  /**
   * On a list without duplicates (the only lists toggling builds from the
   * empty one), toggling flips exactly the membership of `id` and keeps the
   * list free of duplicates.
   */
  lemma {:induction false} ToggleFlipsMembership(ids: seq<string>, id: string)
    requires NoDuplicates(ids)
    ensures var r := ToggleBookmarkIn(ids, id);
      NoDuplicates(r) && (id in r <==> id !in ids)
  {
    var r := ToggleBookmarkIn(ids, id);
    if id in ids {
      var i := IndexOf(ids, id).value;
      assert r == RemoveAt(ids, i);
      forall a, b | 0 <= a < b < |r|
        ensures r[a] != r[b]
      {
        var a', b' := if a < i then a else a + 1, if b < i then b else b + 1;
        assert r[a] == ids[a'] && r[b] == ids[b'];
      }
      forall k | 0 <= k < |r|
        ensures r[k] != id
      {
        var k' := if k < i then k else k + 1;
        assert r[k] == ids[k'] && ids[i] == id;
      }
    } else {
      assert r == ids + [id];
    }
  }

  /**
   * The contest list after `updateSolutionUrl(id, url)`: the first contest
   * with that id gets the URL; a list without that id is left alone.
   */
  function WithSolutionUrl(cs: seq<Contest>, id: string, url: string): (r: seq<Contest>)
    ensures |r| == |cs|
    ensures FirstIndexOfId(cs, id).None? ==> r == cs
    ensures FirstIndexOfId(cs, id).Some? ==>
      var i := FirstIndexOfId(cs, id).value;
      r[i].solutionUrl == Some(url) && r[i].(solutionUrl := cs[i].solutionUrl) == cs[i]
      && forall k :: 0 <= k < |cs| && k != i ==> r[k] == cs[k]
  {
    match FirstIndexOfId(cs, id)
    case None => cs
    case Some(i) => cs[i := cs[i].(solutionUrl := Some(url))]
  }

  /** Updating never changes which contest `find` returns, and it then carries the URL. */
  lemma FindAfterUpdate(cs: seq<Contest>, id: string, url: string)
    requires FirstIndexOfId(cs, id).Some?
    ensures var r := WithSolutionUrl(cs, id, url);
      FirstIndexOfId(r, id) == FirstIndexOfId(cs, id)
      && r[FirstIndexOfId(r, id).value].solutionUrl == Some(url)
  {
    var r := WithSolutionUrl(cs, id, url);
    var i := FirstIndexOfId(cs, id).value;
    assert forall k :: 0 <= k < |cs| ==> r[k].id == cs[k].id;
    FirstIndexOfIdSameIds(cs, r, id);
  }

  lemma {:induction false} FirstIndexOfIdSameIds(a: seq<Contest>, b: seq<Contest>, id: string)
    requires |a| == |b| && forall k :: 0 <= k < |a| ==> a[k].id == b[k].id
    ensures FirstIndexOfId(a, id) == FirstIndexOfId(b, id)
  {
    if a != [] {
      FirstIndexOfIdSameIds(a[1..], b[1..], id);
    }
  }

  /** A later update for the same id overrides an earlier one. */
  lemma LastUpdateWins(cs: seq<Contest>, id: string, u1: string, u2: string)
    ensures WithSolutionUrl(WithSolutionUrl(cs, id, u1), id, u2) == WithSolutionUrl(cs, id, u2)
  {
    var r := WithSolutionUrl(cs, id, u1);
    assert forall k :: 0 <= k < |cs| ==> r[k].id == cs[k].id;
    FirstIndexOfIdSameIds(cs, r, id);
  }

  /** Updates for different ids can be applied in either order. */
  lemma UpdatesCommute(cs: seq<Contest>, id1: string, u1: string, id2: string, u2: string)
    requires id1 != id2
    ensures WithSolutionUrl(WithSolutionUrl(cs, id1, u1), id2, u2)
         == WithSolutionUrl(WithSolutionUrl(cs, id2, u2), id1, u1)
  {
    var r1 := WithSolutionUrl(cs, id1, u1);
    var r2 := WithSolutionUrl(cs, id2, u2);
    assert forall k :: 0 <= k < |cs| ==> r1[k].id == cs[k].id;
    assert forall k :: 0 <= k < |cs| ==> r2[k].id == cs[k].id;
    FirstIndexOfIdSameIds(cs, r1, id2);
    FirstIndexOfIdSameIds(cs, r2, id1);
  }

  class ContestsStore {
    var contests: seq<Contest>
    var bookmarkedContests: seq<string>
    var loading: bool
    var error: Option<string>

    /** The initial state: no contests, no bookmarks, not loading, no error. */
    constructor ()
      ensures contests == [] && bookmarkedContests == []
      ensures !loading && error == None
    {
      contests := [];
      bookmarkedContests := [];
      loading := false;
      error := None;
    }

    method SetContests(cs: seq<Contest>)
      modifies this
      ensures contests == cs
      ensures bookmarkedContests == old(bookmarkedContests) && loading == old(loading) && error == old(error)
    {
      contests := cs;
    }

    method AddContest(c: Contest)
      modifies this
      ensures contests == old(contests) + [c]
      ensures bookmarkedContests == old(bookmarkedContests) && loading == old(loading) && error == old(error)
    {
      contests := contests + [c];
    }

    method ToggleBookmark(contestId: string)
      modifies this
      ensures bookmarkedContests == ToggleBookmarkIn(old(bookmarkedContests), contestId)
      ensures contests == old(contests) && loading == old(loading) && error == old(error)
    {
      var index := IndexOf(bookmarkedContests, contestId);
      if index.None? {
        bookmarkedContests := bookmarkedContests + [contestId];
      } else {
        bookmarkedContests := bookmarkedContests[..index.value] + bookmarkedContests[index.value + 1..];
      }
    }

    method SetLoading(value: bool)
      modifies this
      ensures loading == value
      ensures contests == old(contests) && bookmarkedContests == old(bookmarkedContests) && error == old(error)
    {
      loading := value;
    }

    method SetError(value: Option<string>)
      modifies this
      ensures error == value
      ensures contests == old(contests) && bookmarkedContests == old(bookmarkedContests) && loading == old(loading)
    {
      error := value;
    }

    method UpdateSolutionUrl(contestId: string, solutionUrl: string)
      modifies this
      ensures contests == WithSolutionUrl(old(contests), contestId, solutionUrl)
      ensures bookmarkedContests == old(bookmarkedContests) && loading == old(loading) && error == old(error)
    {
      var index := FirstIndexOfId(contests, contestId);
      if index.Some? {
        contests := contests[index.value := contests[index.value].(solutionUrl := Some(solutionUrl))];
      }
    }
  }
}
