/** The explore screen's view model (`ExploreViewModel`): search results split
    by tab, the guards in front of a search, the state a finished search
    leaves, and the one-time load of recommended posts. */
module Explore {
  import opened Text
  import Posts
  import opened Search

  datatype SearchTab = All | Users | Posts

  /** The hits whose document is (wantUsers) or is not (!wantUsers) a user
      profile, in their original order. */
  function HitsOfKind(hits: seq<SearchHit>, wantUsers: bool): seq<SearchHit> {
    if hits == [] then []
    else
      var last := hits[|hits| - 1];
      HitsOfKind(hits[..|hits| - 1], wantUsers) + (if IsUserResult(last.document) == wantUsers then [last] else [])
  }

  /** `filteredResults` */
  function Shown(hits: seq<SearchHit>, tab: SearchTab): seq<SearchHit> {
    match tab
    case All => hits
    case Users => HitsOfKind(hits, true)
    case Posts => HitsOfKind(hits, false)
  }

  /** The kind filter works piece by piece, so it keeps the hits' order. */
  lemma {:induction false} HitsOfKindAppend(xs: seq<SearchHit>, ys: seq<SearchHit>, wantUsers: bool)
    ensures HitsOfKind(xs + ys, wantUsers) == HitsOfKind(xs, wantUsers) + HitsOfKind(ys, wantUsers)
    decreases |ys|
  {
    if ys == [] {
      assert xs + ys == xs;
    } else {
      var zs := ys[..|ys| - 1];
      assert (xs + ys)[..|xs + ys| - 1] == xs + zs;
      HitsOfKindAppend(xs, zs, wantUsers);
    }
  }

  /** The Users and Posts tabs split the results between them: each hit is
      in exactly one of the two, as often as in the results, and the All tab
      shows the results unfiltered. */
  lemma {:induction false} TabsPartitionResults(hits: seq<SearchHit>)
    ensures Shown(hits, All) == hits
    ensures multiset(Shown(hits, Users)) + multiset(Shown(hits, Posts)) == multiset(hits)
    ensures forall h :: h in Shown(hits, Users) <==> h in hits && IsUserResult(h.document)
    ensures forall h :: h in Shown(hits, Posts) <==> h in hits && !IsUserResult(h.document)
  {
    if hits != [] {
      var init := hits[..|hits| - 1];
      TabsPartitionResults(init);
      assert hits == init + [hits[|hits| - 1]];
    }
  }

  class ExploreViewModel {
    const userId: string
    const userYear: int
    const userCourses: seq<string>

    var searchQuery: string
    var searchResults: seq<SearchHit>
    var isSearching: bool
    var searchError: Option<string>
    var selectedTab: SearchTab

    var recommendedPosts: seq<Posts.Post>
    var isLoadingRecommended: bool

    constructor (userId: string, year: int, courses: seq<string>)
      ensures this.userId == userId && userYear == year && userCourses == courses
      ensures searchQuery == "" && searchResults == [] && !isSearching && searchError == None
      ensures selectedTab == All && recommendedPosts == [] && !isLoadingRecommended
    {
      this.userId, userYear, userCourses := userId, year, courses;
      searchQuery, searchResults, isSearching, searchError := "", [], false, None;
      selectedTab := All;
      recommendedPosts, isLoadingRecommended := [], false;
    }

    function FilteredResults(): seq<SearchHit>
      reads this
    {
      Shown(searchResults, selectedTab)
    }

    /** `performSearch`: a blank query clears the results; a query of one
        character leaves them; any other query schedules a search (the
        debounce and cancellation are not modelled). */
    method PerformSearch() returns (scheduled: bool)
      modifies this`searchResults
      ensures IsBlank(searchQuery) ==> searchResults == [] && !scheduled
      ensures !IsBlank(searchQuery) ==> searchResults == old(searchResults)
      ensures scheduled <==> !IsBlank(searchQuery) && |searchQuery| >= 2
    {
      TrimEmptyIffBlank(searchQuery);
      if Trim(searchQuery) == [] {
        searchResults := [];
        return false;
      }
      if |searchQuery| < 2 {
        return false;
      }
      scheduled := true;
    }

    /** `executeSearch`: the response's hits on success; no hits and the error
        on failure; never left searching. */
    method ExecuteSearch(response: Result<seq<SearchHit>, string>)
      modifies this`isSearching, this`searchError, this`searchResults
      ensures !isSearching
      ensures response.Ok? ==> searchResults == response.value && searchError == None
      ensures response.Err? ==> searchResults == [] && searchError == Some(response.error)
    {
      isSearching := true;
      searchError := None;
      match response {
        case Ok(hits) =>
          searchResults := hits;
        case Err(message) =>
          searchError := Some(message);
          searchResults := [];
      }
      isSearching := false;
    }

    method ClearSearch()
      modifies this`searchQuery, this`searchResults, this`searchError
      ensures searchQuery == "" && searchResults == [] && searchError == None
    {
      searchQuery := "";
      searchResults := [];
      searchError := None;
    }

    /** `loadRecommendedContent`: nothing once recommendations exist;
        otherwise request the user's courses, or the general feed when they
        have none, and keep what comes back. Returns the courses requested. */
    method LoadRecommendedContent(fetched: Result<seq<Posts.Post>, string>) returns (requested: Option<seq<string>>)
      modifies this`recommendedPosts, this`isLoadingRecommended
      ensures old(recommendedPosts) != [] ==>
        (requested == None && recommendedPosts == old(recommendedPosts) && isLoadingRecommended == old(isLoadingRecommended))
      ensures old(recommendedPosts) == [] ==> requested.Some? && requested.value != [] && !isLoadingRecommended
      ensures old(recommendedPosts) == [] && userCourses != [] ==> requested == Some(userCourses)
      ensures old(recommendedPosts) == [] && userCourses == [] ==> requested == Some(["General"])
      ensures old(recommendedPosts) == [] && fetched.Ok? ==> recommendedPosts == fetched.value
      ensures fetched.Err? ==> recommendedPosts == old(recommendedPosts)
    {
      if recommendedPosts != [] {
        return None;
      }
      isLoadingRecommended := true;
      requested := Some(if userCourses == [] then ["General"] else userCourses);
      if fetched.Ok? {
        recommendedPosts := fetched.value;
      }
      isLoadingRecommended := false;
    }

    /** `shouldShowEmptyState` */
    predicate ShouldShowEmptyState()
      reads this
    {
      !isSearching && |searchQuery| >= 2 && searchResults == []
    }

    /** `shouldShowRecommended` */
    predicate ShouldShowRecommended()
      reads this
    {
      searchQuery == [] && !isLoadingRecommended
    }
  }

  /** The empty-state message and the recommendations are never shown
      together, and after `clearSearch` the empty state is not shown. */
  lemma ScreensExclusive(vm: ExploreViewModel)
    ensures !(vm.ShouldShowEmptyState() && vm.ShouldShowRecommended())
    ensures vm.searchQuery == "" ==> !vm.ShouldShowEmptyState()
    ensures vm.searchQuery == "" ==> (vm.ShouldShowRecommended() <==> !vm.isLoadingRecommended)
  {
  }
}
