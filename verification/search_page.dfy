/** The search screen (app/pages/SearchPage.js): the query, the mocked result
    sets, the tab, and a most-recently-used search history of at most ten
    entries that is mirrored to local storage under `searchHistory`. */
module SearchPage {
  import opened Wrappers
  import opened Subsequences
  import JsText

  const HistoryLimit: nat := 10

  datatype Hashtag = Hashtag(name: string, usageCount: int)

  /** The users and videos of a result set are kept by id. */
  datatype SearchResults = SearchResults(userIds: seq<string>, videoIds: seq<string>, hashtags: seq<Hashtag>)

  const NoResults := SearchResults([], [], [])

  /** `history.filter(item => item !== q)`. */
  function RemoveAll(h: seq<string>, q: string): (r: seq<string>)
    ensures q !in r
    ensures multiset(r) == multiset(h)[q := 0]
    ensures IsSubsequence(r, h)
  {
    if h == [] then []
    else if h[0] == q then
      var rest := RemoveAll(h[1..], q);
      assert h == [h[0]] + h[1..];
      SubsequenceDropHead(rest, h);
      rest
    else
      var rest := RemoveAll(h[1..], q);
      assert h == [h[0]] + h[1..];
      assert ([h[0]] + rest)[1..] == rest;
      [h[0]] + rest
  }

  /** The history after searching for `q` (`addToSearchHistory`): earlier
      occurrences of `q` are dropped, `q` goes in front, and the list is cut
      to its first ten entries. */
  function AddedHistory(h: seq<string>, q: string): (r: seq<string>)
    ensures 1 <= |r| <= HistoryLimit
    ensures r[0] == q
    ensures |r| == if |RemoveAll(h, q)| + 1 < HistoryLimit then |RemoveAll(h, q)| + 1 else HistoryLimit
    // the survivors are the newest other searches, in their old order
    ensures r[1..] == RemoveAll(h, q)[..|r| - 1]
  {
    var kept := RemoveAll(h, q);
    var history := [q] + kept;
    var n := if |history| < HistoryLimit then |history| else HistoryLimit;
    assert history[..n][1..] == kept[..n - 1];
    history[..n]
  }

  /** After a search, its query occurs exactly once in the history. */
  lemma AddedHistoryOnce(h: seq<string>, q: string)
    ensures q !in AddedHistory(h, q)[1..]
    ensures multiset(AddedHistory(h, q))[q] == 1
  {
    var r := AddedHistory(h, q);
    var kept := RemoveAll(h, q);
    assert forall x :: x in r[1..] ==> x in kept;
    assert r == [q] + r[1..];
    assert multiset(r) == multiset{q} + multiset(r[1..]);
  }

  /** The entries kept behind the new one keep their relative order. */
  lemma AddedHistoryKeepsOrder(h: seq<string>, q: string)
    ensures IsSubsequence(AddedHistory(h, q)[1..], h)
  {
    var r := AddedHistory(h, q);
    var kept := RemoveAll(h, q);
    PrefixIsSubsequence(kept, |r| - 1);
    SubsequenceTransitive(r[1..], kept, h);
  }

  /** Adding a search keeps a duplicate-free history duplicate-free. */
  lemma AddedHistoryNoDuplicates(h: seq<string>, q: string)
    requires NoDuplicates(h)
    ensures NoDuplicates(AddedHistory(h, q))
  {
    var r := AddedHistory(h, q);
    AddedHistoryOnce(h, q);
    AddedHistoryKeepsOrder(h, q);
    SubsequenceNoDuplicates(r[1..], h);
    forall i, j | 0 <= i < j < |r| ensures r[i] != r[j] {
      assert r[j] == r[1..][j - 1];
      if i > 0 {
        assert r[i] == r[1..][i - 1];
      }
    }
  }

  /** Searching again for the newest entry leaves a duplicate-free history
      as it is. */
  lemma RepeatNewestSearch(h: seq<string>, q: string)
    requires NoDuplicates(h) && |h| <= HistoryLimit && h != [] && h[0] == q
    ensures AddedHistory(h, q) == h
  {
    RemoveAbsent(h[1..], q);
    assert h == [q] + h[1..];
    assert RemoveAll(h, q) == RemoveAll(h[1..], q);
  }

  lemma {:induction false} RemoveAbsent(h: seq<string>, q: string)
    requires q !in h
    ensures RemoveAll(h, q) == h
  {
    if h != [] {
      assert q !in h[1..];
      RemoveAbsent(h[1..], q);
    }
  }

  /** `s.indexOf(c)`: the first position of `c`, or -1. */
  function IndexOf(s: string, c: char): (k: int)
    ensures -1 <= k < |s|
    ensures k == -1 <==> c !in s
    ensures k >= 0 ==> s[k] == c && c !in s[..k]
  {
    if s == [] then -1
    else if s[0] == c then 0
    else
      var k := IndexOf(s[1..], c);
      assert s == [s[0]] + s[1..];
      if k == -1 then -1 else (assert s[..k + 1] == [s[0]] + s[1..][..k]; k + 1)
  }

  /** `query.replace('#', '')`: only the FIRST `#` is removed. */
  function RemoveFirstHash(s: string): (r: string)
    ensures '#' in s ==> |r| == |s| - 1
    ensures '#' !in s ==> r == s
    ensures JsText.StartsWith(s, "#") ==> r == s[1..]
    // the `#` that goes is the first one, and the text around it is kept
    ensures '#' in s ==> exists k :: 0 <= k < |s| && s[k] == '#' && '#' !in s[..k] && r == s[..k] + s[k + 1..]
  {
    var k := IndexOf(s, '#');
    if k < 0 then s
    else
      var r := s[..k] + s[k + 1..];
      assert 0 <= k < |s| && s[k] == '#' && '#' !in s[..k] && r == s[..k] + s[k + 1..];
      r
  }

  /** The canned result set for a query. */
  function MockResults(query: string): (r: SearchResults)
    ensures r.hashtags == [Hashtag(RemoveFirstHash(query), 50000)]
    ensures |r.userIds| == 2 && NoDuplicates(r.userIds)
    ensures |r.videoIds| == 3 && NoDuplicates(r.videoIds)
  {
    SearchResults(["1", "2"], ["1", "2", "3"], [Hashtag(RemoveFirstHash(query), 50000)])
  }

  /** The canned trending list. */
  function TrendingMock(): (r: seq<Hashtag>)
    ensures |r| == 8
  {
    [ Hashtag("댄스챌린지", 1200000), Hashtag("맛집", 892000), Hashtag("여행", 756000),
      Hashtag("펫", 623000), Hashtag("요리", 512000), Hashtag("OOTD", 445000),
      Hashtag("운동", 389000), Hashtag("일상", 334000) ]
  }

  class Page {
    var searchQuery: string
    var searchResults: SearchResults
    var isLoading: bool
    var activeTab: string
    var trendingHashtags: seq<Hashtag>
    var searchHistory: seq<string>
    /** The `searchHistory` entry of local storage; `None` once removed. */
    var storedHistory: Option<seq<string>>

    /** Reloading the page would show the same history. */
    ghost predicate Persisted()
      reads this
    {
      storedHistory.GetOr([]) == searchHistory
    }

    /** Starts from what local storage holds (an absent entry reads as `[]`). */
    constructor (stored: Option<seq<string>>)
      ensures Persisted()
      ensures searchQuery == "" && searchResults == NoResults && !isLoading
      ensures activeTab == "top" && trendingHashtags == []
      ensures searchHistory == stored.GetOr([]) && storedHistory == stored
    {
      searchQuery := "";
      searchResults := NoResults;
      isLoading := false;
      activeTab := "top";
      trendingHashtags := [];
      searchHistory := stored.GetOr([]);
      storedHistory := stored;
    }

    /** `loadTrendingHashtags`. */
    method LoadTrendingHashtags()
      modifies this`trendingHashtags
      ensures trendingHashtags == TrendingMock()
    {
      trendingHashtags := TrendingMock();
    }

    /** `handleSearch` up to its timer: a blank query only clears the
        query; any other query is kept as typed, raises `isLoading` and is
        recorded in the history. */
    method HandleSearch(query: string)
      requires Persisted()
      modifies this`searchQuery, this`isLoading, this`searchHistory, this`storedHistory
      ensures Persisted()
      ensures JsText.Trim(query) == [] ==>
        searchQuery == "" && isLoading == old(isLoading) && searchHistory == old(searchHistory)
        && storedHistory == old(storedHistory)
      ensures JsText.Trim(query) != [] ==>
        searchQuery == query && isLoading && searchHistory == AddedHistory(old(searchHistory), query)
    {
      if JsText.Trim(query) == [] {
        searchQuery := "";
        return;
      }
      searchQuery := query;
      isLoading := true;
      AddToSearchHistory(query);
    }

    /** The timer continuation of `handleSearch(query)`. */
    method SearchResultsArrived(query: string)
      modifies this`searchResults, this`isLoading
      ensures searchResults == MockResults(query) && !isLoading
    {
      searchResults := MockResults(query);
      isLoading := false;
    }

    /** `addToSearchHistory`. */
    method AddToSearchHistory(query: string)
      modifies this`searchHistory, this`storedHistory
      ensures searchHistory == AddedHistory(old(searchHistory), query)
      ensures Persisted()
    {
      var history := RemoveAll(searchHistory, query);
      history := [query] + history;
      searchHistory := history[..if |history| < HistoryLimit then |history| else HistoryLimit];
      storedHistory := Some(searchHistory);
    }

    /** `clearSearchHistory`: empties the list and removes the stored entry. */
    method ClearSearchHistory()
      modifies this`searchHistory, this`storedHistory
      ensures searchHistory == [] && storedHistory == None
      ensures Persisted()
    {
      searchHistory := [];
      storedHistory := None;
    }

    /** `removeFromHistory`: drops every occurrence of the entry. */
    method RemoveFromHistory(query: string)
      modifies this`searchHistory, this`storedHistory
      ensures searchHistory == RemoveAll(old(searchHistory), query)
      ensures Persisted()
    {
      searchHistory := RemoveAll(searchHistory, query);
      storedHistory := Some(searchHistory);
    }

    /** `switchTab`. */
    method SwitchTab(tab: string)
      modifies this`activeTab
      ensures activeTab == tab
    {
      activeTab := tab;
    }
  }
}
