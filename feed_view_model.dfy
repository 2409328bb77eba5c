/** `FeedViewModel`: the feed's posts, the course filter over them, the
    optimistic like toggle with its revert on failure, bookmarks, and the
    hand-off of counts to the realtime tables after a load. */
module Feed {
  import opened Text
  import opened Posts
  import Realtime

  // ---------------------------------------------------------------------------
  // Course filter

  /** `posts.filter { selectedCourses.contains($0.subject) }` */
  function FilterBySubject(ps: seq<Post>, selected: seq<string>): seq<Post> {
    if ps == [] then []
    else FilterBySubject(ps[..|ps| - 1], selected) + (if ps[|ps| - 1].subject in selected then [ps[|ps| - 1]] else [])
  }

  /** The filter works piece by piece, so it keeps the posts' order. */
  lemma {:induction false} FilterBySubjectAppend(xs: seq<Post>, ys: seq<Post>, selected: seq<string>)
    ensures FilterBySubject(xs + ys, selected) == FilterBySubject(xs, selected) + FilterBySubject(ys, selected)
    decreases |ys|
  {
    if ys == [] {
      assert xs + ys == xs;
    } else {
      var zs := ys[..|ys| - 1];
      assert (xs + ys)[..|xs + ys| - 1] == xs + zs;
      FilterBySubjectAppend(xs, zs, selected);
    }
  }

  /** The filter keeps exactly the posts of a selected course. */
  lemma {:induction false} FilterBySubjectMembership(ps: seq<Post>, selected: seq<string>, p: Post)
    ensures p in FilterBySubject(ps, selected) <==> p in ps && p.subject in selected
    ensures |FilterBySubject(ps, selected)| <= |ps|
  {
    if ps != [] {
      var init := ps[..|ps| - 1];
      FilterBySubjectMembership(init, selected, p);
      assert ps == init + [ps[|ps| - 1]];
    }
  }

  /** What `applyFilters` shows: everything when no course is selected. */
  function Visible(ps: seq<Post>, selected: seq<string>): seq<Post> {
    if selected == [] then ps else FilterBySubject(ps, selected)
  }

  /** `removeAll { $0 == x }` */
  function RemoveAll(xs: seq<string>, x: string): seq<string> {
    if xs == [] then []
    else RemoveAll(xs[..|xs| - 1], x) + (if xs[|xs| - 1] == x then [] else [xs[|xs| - 1]])
  }

  /** Removing every x keeps every other element and nothing else, and
      leaves a list without x as it was. */
  lemma {:induction false} RemoveAllMembership(xs: seq<string>, x: string, y: string)
    ensures y in RemoveAll(xs, x) <==> y in xs && y != x
    ensures x !in xs ==> RemoveAll(xs, x) == xs
    ensures x in xs ==> |RemoveAll(xs, x)| < |xs|
    ensures |RemoveAll(xs, x)| <= |xs|
  {
    if xs != [] {
      var init := xs[..|xs| - 1];
      RemoveAllMembership(init, x, y);
      assert xs == init + [xs[|xs| - 1]];
    }
  }

  /** `toggleCourseFilter`: drop a selected course everywhere it occurs, or
      append an unselected one. */
  function ToggleCourse(selected: seq<string>, code: string): seq<string> {
    if code in selected then RemoveAll(selected, code) else selected + [code]
  }

  /** A toggle flips the code's membership and no other; toggling twice gives
      back the same set of selected courses (order may change). */
  lemma ToggleCourseMembership(selected: seq<string>, code: string)
    ensures code in ToggleCourse(selected, code) <==> code !in selected
    ensures forall y :: y != code ==> (y in ToggleCourse(selected, code) <==> y in selected)
    ensures forall y :: y in ToggleCourse(ToggleCourse(selected, code), code) <==> y in selected
    ensures code !in selected ==> ToggleCourse(selected, code) == selected + [code]
  {
    forall y ensures y in RemoveAll(selected, code) <==> y in selected && y != code {
      RemoveAllMembership(selected, code, y);
    }
    var once := ToggleCourse(selected, code);
    forall y ensures y in RemoveAll(once, code) <==> y in once && y != code {
      RemoveAllMembership(once, code, y);
    }
  }

  /** `posts.removeAll { $0.id == postId }` */
  function RemovePostsWithId(ps: seq<Post>, id: string): seq<Post> {
    if ps == [] then []
    else RemovePostsWithId(ps[..|ps| - 1], id) + (if ps[|ps| - 1].id == id then [] else [ps[|ps| - 1]])
  }

  /** After deletion no post has the id, every other post is still there, and
      a list without the id is unchanged. */
  lemma {:induction false} RemovePostsWithIdResult(ps: seq<Post>, id: string, p: Post)
    ensures p in RemovePostsWithId(ps, id) <==> p in ps && p.id != id
    ensures (forall i :: 0 <= i < |ps| ==> ps[i].id != id) ==> RemovePostsWithId(ps, id) == ps
  {
    if ps != [] {
      var init := ps[..|ps| - 1];
      RemovePostsWithIdResult(init, id, p);
      assert ps == init + [ps[|ps| - 1]];
      if forall i :: 0 <= i < |ps| ==> ps[i].id != id {
        assert forall i :: 0 <= i < |init| ==> init[i] == ps[i];
      }
    }
  }

  /** Removing from the list the filter reads then filtering is filtering
      then removing: deletion and the filter commute. */
  lemma {:induction false} RemoveThenFilter(ps: seq<Post>, id: string, selected: seq<string>)
    ensures FilterBySubject(RemovePostsWithId(ps, id), selected) == RemovePostsWithId(FilterBySubject(ps, selected), id)
  {
    if ps != [] {
      var init := ps[..|ps| - 1];
      var last := ps[|ps| - 1];
      RemoveThenFilter(init, id, selected);
      var kept := if last.id == id then [] else [last];
      FilterBySubjectAppend(RemovePostsWithId(init, id), kept, selected);
      var shown := if last.subject in selected then [last] else [];
      assert RemovePostsWithId(FilterBySubject(init, selected) + shown, id)
          == RemovePostsWithId(FilterBySubject(init, selected), id) + RemovePostsWithId(shown, id) by {
        RemovePostsWithIdAppend(FilterBySubject(init, selected), shown, id);
      }
    }
  }

  lemma {:induction false} RemovePostsWithIdAppend(xs: seq<Post>, ys: seq<Post>, id: string)
    ensures RemovePostsWithId(xs + ys, id) == RemovePostsWithId(xs, id) + RemovePostsWithId(ys, id)
    decreases |ys|
  {
    if ys == [] {
      assert xs + ys == xs;
    } else {
      var zs := ys[..|ys| - 1];
      assert (xs + ys)[..|xs + ys| - 1] == xs + zs;
      RemovePostsWithIdAppend(xs, zs, id);
    }
  }

  /** Insert an absent id, remove a present one. */
  function Flip(s: set<string>, id: string): set<string> {
    if id in s then s - {id} else s + {id}
  }

  /** A flip changes the membership of its id only, and two flips cancel. */
  lemma FlipInvolution(s: set<string>, id: string)
    ensures id in Flip(s, id) <==> id !in s
    ensures forall q :: q != id ==> (q in Flip(s, id) <==> q in s)
    ensures Flip(Flip(s, id), id) == s
  {
  }

  /** The course list `loadFeed` sends: the user's courses plus the general
      feed of their campus. */
  function CoursesToFetch(userCourses: seq<string>, campus: string): seq<string> {
    userCourses + ["General - " + campus]
  }

  // ---------------------------------------------------------------------------
  // The view model

  /** The `CreatePostRequest` that `createPost` sends. */
  datatype PostRequest = PostRequest(userId: string, title: string, content: string, tags: Option<seq<string>>)

  class FeedViewModel {
    const realtime: Realtime.RealtimeManager

    var posts: seq<Post>
    var filteredPosts: seq<Post>
    var isLoading: bool
    var error: Option<string>
    var selectedCourses: seq<string>

    var currentUserId: string
    var userYear: int
    var userCourses: seq<string>
    var userCampus: string

    var likedPostIds: set<string>
    var bookmarkedPostIds: set<string>

    /** The shown posts are always the filter applied to the loaded posts:
        every method that changes either recomputes the filter. */
    ghost predicate Valid()
      reads this
    {
      filteredPosts == Visible(posts, selectedCourses)
    }

    constructor (userId: string, year: int, courses: seq<string>, campus: string, realtime: Realtime.RealtimeManager)
      ensures Valid()
      ensures this.realtime == realtime
      ensures currentUserId == userId && userYear == year && userCourses == courses && userCampus == campus
      ensures selectedCourses == courses
      ensures posts == [] && filteredPosts == [] && !isLoading && error == None
      ensures likedPostIds == {} && bookmarkedPostIds == {}
    {
      this.realtime := realtime;
      currentUserId, userYear, userCourses, userCampus := userId, year, courses, campus;
      selectedCourses := courses;
      posts, filteredPosts := [], [];
      isLoading, error := false, None;
      likedPostIds, bookmarkedPostIds := {}, {};
    }

    function IsLiked(postId: string): bool
      reads this
    {
      postId in likedPostIds
    }

    function IsBookmarked(postId: string): bool
      reads this
    {
      postId in bookmarkedPostIds
    }

    method ApplyFilters()
      modifies this`filteredPosts
      ensures Valid()
      ensures selectedCourses == [] ==> filteredPosts == posts
      ensures forall p :: p in filteredPosts <==> p in posts && (selectedCourses == [] || p.subject in selectedCourses)
    {
      if selectedCourses == [] {
        filteredPosts := posts;
      } else {
        filteredPosts := FilterBySubject(posts, selectedCourses);
        forall p ensures p in filteredPosts <==> p in posts && p.subject in selectedCourses {
          FilterBySubjectMembership(posts, selectedCourses, p);
        }
      }
    }

    method ToggleCourseFilter(courseCode: string)
      modifies this`selectedCourses, this`filteredPosts
      ensures Valid()
      ensures selectedCourses == ToggleCourse(old(selectedCourses), courseCode)
    {
      if courseCode in selectedCourses {
        selectedCourses := RemoveAll(selectedCourses, courseCode);
      } else {
        selectedCourses := selectedCourses + [courseCode];
      }
      ApplyFilters();
    }

    method ClearFilters()
      modifies this`selectedCourses, this`filteredPosts
      ensures Valid()
      ensures selectedCourses == userCourses
    {
      selectedCourses := userCourses;
      ApplyFilters();
    }

    /** `createPost`: sends the request; on success the new post goes first;
        a failed request is passed on to the caller and changes nothing. */
    method CreatePost(title: string, content: string, created: Result<Post, string>)
      returns (request: PostRequest, thrown: Option<string>)
      requires Valid()
      modifies this`posts, this`filteredPosts
      ensures Valid()
      ensures request == PostRequest(currentUserId, title, content, None)
      ensures created.Ok? ==> posts == [created.value] + old(posts) && thrown == None
      ensures created.Err? ==> posts == old(posts) && thrown == Some(created.error)
    {
      request := PostRequest(currentUserId, title, content, None);
      if created.Err? {
        return request, Some(created.error);
      }
      posts := [created.value] + posts;
      ApplyFilters();
      thrown := None;
    }

    /** `deletePost`: on success every post with the id goes, the rest keep
        their order; a failed request is passed on and changes nothing. */
    method DeletePost(postId: string, request: Outcome) returns (thrown: Option<string>)
      requires Valid()
      modifies this`posts, this`filteredPosts
      ensures Valid()
      ensures request.Success? ==> posts == RemovePostsWithId(old(posts), postId) && thrown == None
      ensures request.Failure? ==> posts == old(posts) && thrown == Some(request.message)
    {
      if request.Failure? {
        return Some(request.message);
      }
      posts := RemovePostsWithId(posts, postId);
      ApplyFilters();
      thrown := None;
    }

    /** The part of `toggleLike` before the request: flip the post's
        membership and remember which way it was. */
    method BeginToggleLike(postId: string) returns (wasLiked: bool)
      modifies this`likedPostIds
      ensures wasLiked <==> postId in old(likedPostIds)
      ensures likedPostIds == Flip(old(likedPostIds), postId)
    {
      wasLiked := postId in likedPostIds;
      if wasLiked {
        likedPostIds := likedPostIds - {postId};
      } else {
        likedPostIds := likedPostIds + {postId};
      }
    }

    /** The part of `toggleLike` after the request: on failure put the post's
        membership back the way it was before the flip. Other ids (changed by
        anything that ran while the request was in flight) are left alone. */
    method FinishToggleLike(postId: string, wasLiked: bool, request: Outcome)
      modifies this`likedPostIds
      ensures request.Success? ==> likedPostIds == old(likedPostIds)
      ensures request.Failure? ==> likedPostIds == (if wasLiked then old(likedPostIds) + {postId} else old(likedPostIds) - {postId})
      ensures request.Failure? ==> (postId in likedPostIds <==> wasLiked)
    {
      if request.Failure? {
        if wasLiked {
          likedPostIds := likedPostIds + {postId};
        } else {
          likedPostIds := likedPostIds - {postId};
        }
      }
    }

    /** `toggleLike(for:)` with nothing running while the request is in
        flight: success leaves the membership flipped, failure restores the
        set exactly. */
    method ToggleLike(post: Post, request: Outcome)
      modifies this`likedPostIds
      ensures request.Success? ==> likedPostIds == Flip(old(likedPostIds), post.id)
      ensures request.Failure? ==> likedPostIds == old(likedPostIds)
    {
      var wasLiked := BeginToggleLike(post.id);
      FinishToggleLike(post.id, wasLiked, request);
    }

    /** `loadBatchStats`: nothing for an empty feed; otherwise the batch counts
        when both requests succeed, and the counts in the posts when either
        fails. */
    method LoadBatchStats(batch: Result<(map<string, int>, map<string, int>), string>)
      modifies realtime
      ensures posts == [] ==> realtime.Snapshot() == old(realtime.Snapshot())
      ensures posts != [] && batch.Ok? ==>
        realtime.Snapshot() == Realtime.BatchSeed(old(realtime.Snapshot()), batch.value.0, batch.value.1, posts, realtime.currentUserId)
      ensures posts != [] && batch.Err? ==>
        realtime.Snapshot() == Realtime.SeedFromPosts(old(realtime.Snapshot()), posts, realtime.currentUserId)
      ensures realtime.currentUserId == old(realtime.currentUserId)
    {
      if posts == [] {
        return;
      }
      match batch {
        case Ok((likes, comments)) =>
          realtime.BatchInitializeCounts(likes, comments, posts);
        case Err(_) =>
          realtime.InitializeCounts(posts);
      }
    }

    /** `loadLikeStates`: mark the posts whose `likes` names the user; never
        unmark anything. */
    method LoadLikeStates()
      modifies this`likedPostIds
      ensures likedPostIds == old(likedPostIds) + LikedIds(posts, currentUserId)
    {
      for i := 0 to |posts|
        invariant likedPostIds == old(likedPostIds) + LikedIds(posts[..i], currentUserId)
      {
        var post := posts[i];
        if post.likes.Some? && currentUserId in post.likes.value {
          likedPostIds := likedPostIds + {post.id};
        }
        assert posts[..i + 1][..i] == posts[..i];
      }
      assert posts[..|posts|] == posts;
    }

    /** `toggleBookmark(for:)` (the persistence to UserDefaults is not
        modelled). */
    method ToggleBookmark(postId: string)
      modifies this`bookmarkedPostIds
      ensures bookmarkedPostIds == Flip(old(bookmarkedPostIds), postId)
    {
      if postId in bookmarkedPostIds {
        bookmarkedPostIds := bookmarkedPostIds - {postId};
      } else {
        bookmarkedPostIds := bookmarkedPostIds + {postId};
      }
    }

    /** `loadFeed`: request the user's courses plus the campus feed; on
        success replace the posts, refilter, seed the realtime counts and mark
        liked posts; on failure keep the posts and record the error. Returns
        the course list it requested. */
    method LoadFeed(fetched: Result<seq<Post>, string>, batch: Result<(map<string, int>, map<string, int>), string>)
      returns (requested: seq<string>)
      requires Valid()
      modifies this, realtime
      ensures Valid()
      ensures requested == CoursesToFetch(userCourses, userCampus)
      ensures !isLoading
      ensures userCourses == old(userCourses) && userCampus == old(userCampus) && currentUserId == old(currentUserId)
      ensures selectedCourses == old(selectedCourses) && bookmarkedPostIds == old(bookmarkedPostIds)
      ensures fetched.Ok? ==> posts == fetched.value && error == None
      ensures fetched.Ok? ==> likedPostIds == old(likedPostIds) + LikedIds(posts, currentUserId)
      ensures fetched.Err? ==> posts == old(posts) && error == Some(fetched.error)
      ensures fetched.Err? ==> likedPostIds == old(likedPostIds) && realtime.Snapshot() == old(realtime.Snapshot())
      ensures fetched.Ok? && fetched.value == [] ==> realtime.Snapshot() == old(realtime.Snapshot())
      ensures fetched.Ok? && fetched.value != [] && batch.Ok? ==>
        realtime.Snapshot() == Realtime.BatchSeed(old(realtime.Snapshot()), batch.value.0, batch.value.1, fetched.value, old(realtime.currentUserId))
      ensures fetched.Ok? && fetched.value != [] && batch.Err? ==>
        realtime.Snapshot() == Realtime.SeedFromPosts(old(realtime.Snapshot()), fetched.value, old(realtime.currentUserId))
      ensures realtime.currentUserId == old(realtime.currentUserId) && userYear == old(userYear)
    {
      isLoading := true;
      error := None;
      requested := userCourses + ["General - " + userCampus];
      match fetched {
        case Ok(loaded) =>
          posts := loaded;
          ApplyFilters();
          LoadBatchStats(batch);
          LoadLikeStates();
        case Err(message) =>
          error := Some(message);
      }
      isLoading := false;
    }
  }
}
