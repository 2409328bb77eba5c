/** `FeedView`: how the feed screen builds its view model from the signed-in
    user (the course list with the campus's general feed, and the defaults
    for a missing year or campus), and when the course filter bar offers
    "Clear". */
module FeedScreen {
  import opened Text
  import Users
  import Feed
  import Realtime

  const DefaultCampus: string := "Main Campus"

  /** The campus's general feed, `"General - \(campus ?? "Main Campus")"`. */
  function GeneralFeed(campus: Option<string>): string {
    "General - " + campus.GetOr(DefaultCampus)
  }

  /** The course list after the general feed is appended when absent. */
  function WithGeneralFeed(codes: seq<string>, general: string): seq<string> {
    if general in codes then codes else codes + [general]
  }

  /** The user's courses keep their order and come first, the general feed is
      in the list, and it occurs once if the user's courses did not name it. */
  lemma WithGeneralFeedRules(codes: seq<string>, general: string)
    ensures var r := WithGeneralFeed(codes, general);
      && r[..|codes|] == codes
      && general in r
      && |r| <= |codes| + 1
      && (general !in codes ==> Count(r, general) == 1)
      && (general in codes ==> r == codes)
  {
    if general !in codes {
      CountAppend(codes, [general], general);
      CountZeroIffAbsent(codes, general);
      assert [general][..0] == [];
    }
  }

  /** `loadFeed` appends the general feed to the course list again, so the
      request names it at least twice, and exactly twice when the user's own
      courses did not name it. */
  lemma {:induction false} LoadFeedNamesGeneralFeedTwice(u: Users.User)
    ensures var courses := WithGeneralFeed(Users.CourseCodes(u), GeneralFeed(u.campus));
      var requested := Feed.CoursesToFetch(courses, u.campus.GetOr(DefaultCampus));
      && Count(requested, GeneralFeed(u.campus)) >= 2
      && (GeneralFeed(u.campus) !in Users.CourseCodes(u) ==> Count(requested, GeneralFeed(u.campus)) == 2)
  {
    var g := GeneralFeed(u.campus);
    var codes := Users.CourseCodes(u);
    var courses := WithGeneralFeed(codes, g);
    WithGeneralFeedRules(codes, g);
    CountAppend(courses, [g], g);
    assert [g][..0] == [];
    CountZeroIffAbsent(courses, g);
  }

  /** `initializeViewModel(for:)` */
  method InitializeViewModel(user: Users.User, realtime: Realtime.RealtimeManager) returns (vm: Feed.FeedViewModel)
    ensures fresh(vm) && vm.Valid()
    ensures vm.realtime == realtime && vm.currentUserId == user.id
    ensures vm.userCourses == WithGeneralFeed(Users.CourseCodes(user), GeneralFeed(user.campus))
    ensures vm.selectedCourses == vm.userCourses
    ensures vm.userYear == user.year.GetOr(1) && vm.userCampus == user.campus.GetOr(DefaultCampus)
  {
    var feedCourses := Users.CourseCodes(user);
    var generalFeed := "General - " + user.campus.GetOr(DefaultCampus);
    if generalFeed !in feedCourses {
      feedCourses := feedCourses + [generalFeed];
    }
    vm := new Feed.FeedViewModel(user.id, user.year.GetOr(1), feedCourses, user.campus.GetOr(DefaultCampus), realtime);
  }

  /** The filter bar's "Clear" button: shown when the number of selected
      courses differs from the number of the user's courses. */
  predicate ClearShown(selected: seq<string>, userCourses: seq<string>) {
    |selected| != |userCourses|
  }

  /** Right after set-up or `clearFilters` there is no "Clear"; one toggle of
      any course from there brings it up. The test compares counts only, so a
      selection of other courses of the same number hides it too. */
  lemma ClearShownRules(userCourses: seq<string>, code: string, other: seq<string>)
    ensures !ClearShown(userCourses, userCourses)
    ensures ClearShown(Feed.ToggleCourse(userCourses, code), userCourses)
    ensures |other| == |userCourses| ==> !ClearShown(other, userCourses)
  {
    Feed.RemoveAllMembership(userCourses, code, code);
  }
}
