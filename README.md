# Exobook engagement bookkeeping, in Dafny

Exobook is an iOS client for a course-based student social network. Its core
is the engagement bookkeeping of `RealtimeManager`. The manager keeps:

- per-post like and comment counts, and per-reply like counts;
- the set of posts the signed-in user has liked.

It updates these from Pusher push events (POST_LIKE, POST_UNLIKE, NEW-COMMENT1,
COMMENT-DELETED, COMMENT_LIKE, COMMENT-UNLIKE, POST-DELETED) and seeds them
from post data or from the batch count endpoints. Around it sit:

- the view models that change state optimistically and revert when a request
  fails: the feed (`FeedViewModel`), the post detail screen
  (`PostDetailViewModel`) and the explore/search screen (`ExploreViewModel`);
- the request assembly and status-code rules of `NetworkService`;
- small pure helpers: avatar and image URLs, course lists, tab clamping, chat
  initials, form validation and HTML-tag stripping.

How the model is built:

- **Modules.** Each core Swift file is one module: `Realtime`, `Feed`,
  `PostDetail`, `Explore`, `Network`, `Posts`, `Users`, `Search`,
  `FeedScreen`, `Tabs`, `Chats`, `Auth` and `Composer`. Shared string and
  option helpers live in `Text`.
- **Classes for state.** Objects whose fields the app updates in place are
  classes with `modifies` clauses: `RealtimeManager`, `FeedViewModel`,
  `PostDetailViewModel`, `ExploreViewModel`, `MainTabs` and the post composer.
- **The realtime tables as a value.** They also exist as a `Store` value. Each
  handler method is proved to leave the manager's `Snapshot()` equal to the
  pure `Step` of the decoded event. The event rules are lemmas about `Step`:
  absolute replace, increment, clamped decrement, self-origin skip, deletion
  cleanup, non-negativity along any event sequence, and seeding.
- **Push payloads.** These are JSON objects (the `Json` datatype). `Decode`
  reproduces each handler's guards, including the two spellings accepted by
  POST_UNLIKE and COMMENT-UNLIKE. The guards are stated field by field:
  a payload is accepted exactly when it carries each required field with the
  right type, and the event then carries the payload's own values. `Encode`
  builds the payload the server sends for an event; decoding that payload
  gives the event back. The other direction does not hold, since a payload
  may carry extra keys or the second spellings.
- **Awaited calls.** Network calls, decoders and `URL(string:)` are not
  modelled. Their outcomes are parameters (`Result`, `Outcome`, a flag), so
  every success and failure path is covered.

Counts live in three separate places: RealtimeManager's tables,
PostDetailViewModel's `likeCount`, and a post's `likes` array. The model keeps
them separate, as the code does. There are no generation counters, pending
deltas or staleness checks.

One consequence concerns the detail screen:

- `PostDetail.PostDetailViewModel.ToggleLike` preserves `Balanced()`. Any run
  of like toggles keeps the screen's count equal to the opening count plus
  one while the post is shown as liked.
- `PostDetail.PostDetailViewModel.LoadComments` proves that a successful
  comment load clears the liked flag but leaves the count as it is. This
  breaks that balance.

## Model

| member | source | states |
|---|---|---|
| Posts.LikeCount | Exobook/Services/ExobookAPIService.swift:244 | the size of `likes`, 0 without it; see `LikedImpliesCounted` and `SeedLastPostWins` |
| Posts.CommentCount | Exobook/Services/ExobookAPIService.swift:245 | the size of `comments`, 0 without it; see `SeedLastPostWins` |
| Posts.LikedImpliesCounted | Exobook/Services/ExobookAPIService.swift:244 | a post liked by a user has a like count of at least one (`likes?.count ?? 0`), and a post with count 0 is liked by nobody |
| Posts.AvatarURL | Exobook/Services/ExobookAPIService.swift:246-256 | the avatar URL always starts with "http": absolute URLs are kept, "/" paths go to exobook.ca, anything else goes to the S3 bucket |
| Posts.AvatarURLIdempotent | Exobook/Services/ExobookAPIService.swift:246-256 | the avatar rule is idempotent. It keeps an absolute URL. It yields the site prefix followed by the picture for "/" paths, and the S3 prefix followed by the picture for keys |
| Posts.ImageURLs | Exobook/Services/ExobookAPIService.swift:257-259 | one URL per image key, in order; each URL is the S3 base followed by its key, so the key can be read back |
| Posts.LikedIdsMembership | Exobook/Services/RealtimeManager.swift:302-304 | an id is among the liked ids exactly when some post with that id has the user in its `likes` |
| Users.AvatarURL | Exobook/Models/User.swift:28-39 | no picture gives no URL; otherwise the same three-way prefix rule as a post's author picture |
| Users.DisplayName | Exobook/Models/User.swift:41-43 | the name when it is non-empty, otherwise the email |
| Users.CourseCodes | Exobook/Models/User.swift:45-47 | one code per course in course order; empty when there are no courses |
| Search.IsUserResult | Exobook/Services/SearchService.swift:86-88 | a document without title and content is a user profile; `TabsPartitionResults` shows that the tabs split the hits by it |
| Search.DocumentAvatarURL | Exobook/Services/SearchService.swift:90-95 | an "http" picture is kept; every other picture, "/" paths included, gets the S3 prefix |
| Search.DocumentAvatarVersusPostAvatar | Exobook/Services/SearchService.swift:90-95 | the search rule agrees with the post rule except on "/" paths, where the two URLs differ |
| Realtime.Decode | Exobook/Services/RealtimeManager.swift:130-267 | a decoded event always has the kind of the handler that decoded it, and a payload that is not an object decodes to nothing |
| Realtime.DecodeAcceptsExactly | Exobook/Services/RealtimeManager.swift:130-267 | a dictionary payload passes its handler's guard exactly when it has the required fields. POST_LIKE needs an integer `count` and a `like` object with string `post_id` and `user_id`. POST_UNLIKE needs each id nested or under its second spelling. NEW-COMMENT1 and COMMENT_LIKE need string `post_id` and `user_id`. COMMENT-DELETED needs `post_id`. COMMENT-UNLIKE needs `ID` or `replyId`, and `User` or `user_id`. POST-DELETED needs `id` |
| Realtime.DecodeReadsFields | Exobook/Services/RealtimeManager.swift:130-267 | an accepted payload's event holds the payload's own values: each id from its key, the first spelling winning when both are present, plus the payload's count and optional fields |
| Realtime.Encode | Exobook/Services/RealtimeManager.swift:130-267 | the payload the server sends for an event; `DecodeEncode` proves that decoding it gives the event back |
| Realtime.DecodeEncodePostLiked | Exobook/Services/RealtimeManager.swift:130-152 | a POST_LIKE payload built from an event, with or without `owner` and `username`, decodes back to that event |
| Realtime.DecodeEncodeCommentAdded | Exobook/Services/RealtimeManager.swift:180-195 | a NEW-COMMENT1 payload built from an event, with or without `owner`, `user_name` and `content`, decodes back to that event |
| Realtime.DecodeEncodeCommentLiked | Exobook/Services/RealtimeManager.swift:217-238 | a COMMENT_LIKE payload built from an event, with or without `count`, `owner` and `username`, decodes back to that event |
| Realtime.DecodeEncode | Exobook/Services/RealtimeManager.swift:130-267 | encoding any event as a payload and decoding it with its handler's rules gives the event back |
| Realtime.UnlikeFallbackSpellings | Exobook/Services/RealtimeManager.swift:160-261 | POST_UNLIKE reads `like.post_id`/`like.user_id` and falls back to `PostID`/`UserID`, the nested spelling winning when both are present; COMMENT-UNLIKE reads `ID` or else `replyId`, and `User` or else `user_id` |
| Realtime.PostLikeNeedsCount | Exobook/Services/RealtimeManager.swift:130-137 | a POST_LIKE payload without an integer `count` is rejected |
| Realtime.MalformedPayloadIgnored | Exobook/Services/RealtimeManager.swift:129-275 | a payload that is not a dictionary, or lacks any field its handler requires, leaves every table unchanged |
| Realtime.Step | Exobook/Services/RealtimeManager.swift:129-275 | how one accepted event changes the tables; its rules are the lemmas `PostLikeIsAbsolute`, `NewCommentAddsOne`, `DecrementingEvents`, `CommentLikeRules`, `LikedSetRules`, `PostDeletedCleansUp` and `StepKeepsCountsNonNegative` |
| Realtime.Receive | Exobook/Services/RealtimeManager.swift:129-275 | a handler applied to a raw payload: `Step` of the decoded event, and no change for a malformed payload (`MalformedPayloadIgnored`) |
| Realtime.DecrementedFloorsAtZero | Exobook/Services/RealtimeManager.swift:171 | the clamped decrement stores `max((m[k] ?? 1) - 1, 0)`: an unseen id ends at 0, never below; other ids are untouched |
| Realtime.PostLikeIsAbsolute | Exobook/Services/RealtimeManager.swift:142-147 | POST_LIKE stores the payload's count, so applying it twice equals applying it once, and the result does not depend on the earlier count |
| Realtime.NewCommentAddsOne | Exobook/Services/RealtimeManager.swift:189 | NEW-COMMENT1 adds exactly one to its post's comment count (from 0 when unseen) and changes nothing else |
| Realtime.DecrementingEvents | Exobook/Services/RealtimeManager.swift:160-261 | POST_UNLIKE, COMMENT-DELETED and another user's COMMENT-UNLIKE subtract one from their table with a floor of 0 |
| Realtime.CommentLikeRules | Exobook/Services/RealtimeManager.swift:216-261 | the local user's own comment like or unlike changes nothing; another user's like stores the payload count when present and adds one otherwise; only the reply-like table changes |
| Realtime.LikedSetRules | Exobook/Services/RealtimeManager.swift:129-275 | the liked set gains a post only on the local user's POST_LIKE, loses it only on their POST_UNLIKE or on POST-DELETED, and is otherwise unchanged |
| Realtime.PostDeletedCleansUp | Exobook/Services/RealtimeManager.swift:263-293 | POST-DELETED removes the post's like count, comment count and liked flag, so the getters report 0, 0 and false; no other id and no reply-like entry changes |
| Realtime.StepKeepsCountsNonNegative | Exobook/Services/RealtimeManager.swift:129-275 | when the tables hold no negative count and the event carries no negative count, none appears |
| Realtime.ApplyAllKeepsCountsNonNegative | Exobook/Services/RealtimeManager.swift:129-275 | along any sequence of events whose payload counts are non-negative, every count stays non-negative |
| Realtime.ApplyAllAppend | Exobook/Services/RealtimeManager.swift:129-275 | applying two event sequences one after the other equals applying their concatenation |
| Realtime.NotificationFor | Exobook/Services/RealtimeManager.swift:129-244 | the notification a handler raises for an event; specified by `NotificationDecision` |
| Realtime.CommentBody | Exobook/Services/RealtimeManager.swift:195-199 | the body of a comment notification; specified by `CommentBodyExcerpt` |
| Realtime.NotificationDecision | Exobook/Services/RealtimeManager.swift:129-244 | a notification is raised exactly for a post like, comment or comment like on the local user's content by someone else, when the payload names the actor. For all three kinds the title carries that name, and a comment's body is `CommentBody` of its content |
| Realtime.CommentBodyExcerpt | Exobook/Services/RealtimeManager.swift:195-199 | the comment notification is a quote, the first min(50, length) characters of the comment, then `...` and a closing quote; it is exactly 5 characters longer than that excerpt; empty content gives the fixed text |
| Realtime.SeedFromPosts | Exobook/Services/RealtimeManager.swift:296-307 | seeding from post data; specified by `SeedTouchesOnlyPostIds`, `SeedLastPostWins`, `SeedLikedSet` and `SeedKeepsCountsNonNegative` |
| Realtime.BatchSeed | Exobook/Services/RealtimeManager.swift:310-329 | seeding from the batch counts; specified by `BatchSeedResult` |
| Realtime.PostIdsMembership | Exobook/Services/RealtimeManager.swift:297-299 | an id is among the post ids exactly when some post has it |
| Realtime.SeedTouchesOnlyPostIds | Exobook/Services/RealtimeManager.swift:296-307 | seeding from post data changes the count entries of the posts' ids only, and never touches reply likes |
| Realtime.SeedLastPostWins | Exobook/Services/RealtimeManager.swift:297-299 | after seeding, a post's counts are the sizes of its `likes` and `comments` arrays (the last post with that id wins) |
| Realtime.SeedLikedSet | Exobook/Services/RealtimeManager.swift:302-304 | seeding adds to the liked set exactly the posts liked by the configured user, and adds nothing without one |
| Realtime.SeedKeepsCountsNonNegative | Exobook/Services/RealtimeManager.swift:296-307 | seeding from post data keeps every count non-negative |
| Realtime.BatchSeedResult | Exobook/Services/RealtimeManager.swift:310-326 | batch seeding overwrites exactly the ids present in each dictionary, only inserts into the liked set, and skips that step without a user |
| Realtime.RealtimeManager.constructor | Exobook/Services/RealtimeManager.swift:30-37 | a new manager has empty tables and no user |
| Realtime.RealtimeManager.Configure | Exobook/Services/RealtimeManager.swift:43-47 | configuring stores the user id and leaves the tables alone |
| Realtime.RealtimeManager.HandlePostLike | Exobook/Services/RealtimeManager.swift:129-158 | the new tables are `Receive` of the old ones for the payload; the returned notification is the one `NotificationFor` decides |
| Realtime.RealtimeManager.HandlePostUnlike | Exobook/Services/RealtimeManager.swift:160-177 | the new tables are `Receive` of the old ones for the payload |
| Realtime.RealtimeManager.HandleNewComment | Exobook/Services/RealtimeManager.swift:179-202 | the new tables are `Receive` of the old ones for the payload; the returned notification is the one `NotificationFor` decides |
| Realtime.RealtimeManager.HandleCommentDeleted | Exobook/Services/RealtimeManager.swift:204-214 | the new tables are `Receive` of the old ones for the payload |
| Realtime.RealtimeManager.HandleCommentLike | Exobook/Services/RealtimeManager.swift:216-244 | the new tables are `Receive` of the old ones for the payload; the returned notification is the one `NotificationFor` decides |
| Realtime.RealtimeManager.HandleCommentUnlike | Exobook/Services/RealtimeManager.swift:246-261 | the new tables are `Receive` of the old ones for the payload |
| Realtime.RealtimeManager.HandlePostDeleted | Exobook/Services/RealtimeManager.swift:263-275 | the new tables are `Receive` of the old ones for the payload |
| Realtime.RealtimeManager.InitializeCounts | Exobook/Services/RealtimeManager.swift:296-307 | the loop leaves the tables equal to `SeedFromPosts` of the old tables |
| Realtime.RealtimeManager.BatchInitializeCounts | Exobook/Services/RealtimeManager.swift:310-329 | the loops leave the tables equal to `BatchSeed` of the old tables |
| Text.Assign | Exobook/Services/RealtimeManager.swift:312-318 | assigning a dictionary's entries one by one gives every key of the dictionary its value and leaves every other key as it was |
| Text.TrimEmptyIffBlank | Exobook/ViewModels/ExploreViewModel.swift:70 | trimming white space and newlines leaves nothing exactly when every character is white space |
| Feed.FilterBySubject | Exobook/ViewModels/FeedViewModel.swift:84-86 | the course filter; specified by `FilterBySubjectMembership` and `FilterBySubjectAppend` |
| Feed.Visible | Exobook/ViewModels/FeedViewModel.swift:80-88 | the shown posts: all posts with no selection, else the course filter; `ApplyFilters` states both cases |
| Feed.ToggleCourse | Exobook/ViewModels/FeedViewModel.swift:90-97 | the selection after a chip tap; specified by `ToggleCourseMembership` |
| Feed.RemovePostsWithId | Exobook/ViewModels/FeedViewModel.swift:125 | deletion by id; specified by `RemovePostsWithIdResult`, `RemovePostsWithIdAppend` and `RemoveThenFilter` |
| Feed.FilterBySubjectAppend | Exobook/ViewModels/FeedViewModel.swift:84-86 | the course filter distributes over concatenation, so it keeps the posts' order |
| Feed.FilterBySubjectMembership | Exobook/ViewModels/FeedViewModel.swift:84-86 | the filter keeps exactly the posts whose subject is selected, and never adds any |
| Feed.RemoveAllMembership | Exobook/ViewModels/FeedViewModel.swift:92 | removing a course drops every occurrence of it and keeps everything else; it shortens the list exactly when the course was there |
| Feed.ToggleCourseMembership | Exobook/ViewModels/FeedViewModel.swift:90-97 | a toggle flips the course's membership only, appending it at the end when absent; toggling twice restores membership |
| Feed.RemovePostsWithIdResult | Exobook/ViewModels/FeedViewModel.swift:125 | deleting a post removes every post with its id and keeps every other post |
| Feed.RemovePostsWithIdAppend | Exobook/ViewModels/FeedViewModel.swift:125 | deletion distributes over concatenation, so the remaining posts keep their order |
| Feed.RemoveThenFilter | Exobook/ViewModels/FeedViewModel.swift:121-127 | deleting then filtering equals filtering then deleting |
| Feed.FlipInvolution | Exobook/ViewModels/FeedViewModel.swift:202-211 | a flip changes its own id's membership only, and two flips cancel |
| Feed.FeedViewModel.constructor | Exobook/ViewModels/FeedViewModel.swift:35-41 | the selected courses start as the user's courses; no posts, no likes, no bookmarks |
| Feed.FeedViewModel.ApplyFilters | Exobook/ViewModels/FeedViewModel.swift:80-88 | with no selected course the shown posts are all posts; otherwise exactly the posts of a selected course |
| Feed.FeedViewModel.ToggleCourseFilter | Exobook/ViewModels/FeedViewModel.swift:90-97 | the selection becomes `ToggleCourse` of the old one, and the shown posts are refiltered |
| Feed.FeedViewModel.ClearFilters | Exobook/ViewModels/FeedViewModel.swift:99-102 | the selection returns to the user's courses, as at the start, and the shown posts are refiltered |
| Feed.FeedViewModel.CreatePost | Exobook/ViewModels/FeedViewModel.swift:106-119 | sends the user's title and content; on success the new post goes first; a failure is rethrown and changes nothing |
| Feed.FeedViewModel.DeletePost | Exobook/ViewModels/FeedViewModel.swift:121-127 | on success every post with the id is removed, the rest in order; a failure is rethrown and changes nothing |
| Feed.FeedViewModel.BeginToggleLike | Exobook/ViewModels/FeedViewModel.swift:132-139 | records whether the post was liked and flips only its membership |
| Feed.FeedViewModel.FinishToggleLike | Exobook/ViewModels/FeedViewModel.swift:141-155 | on failure puts back the post's membership from before the flip and touches no other id |
| Feed.FeedViewModel.ToggleLike | Exobook/ViewModels/FeedViewModel.swift:131-156 | success leaves that one id flipped; failure restores the liked set exactly |
| Feed.FeedViewModel.LoadBatchStats | Exobook/ViewModels/FeedViewModel.swift:158-183 | nothing happens for an empty feed; otherwise the realtime tables are batch-seeded on success and seeded from the posts on failure |
| Feed.FeedViewModel.LoadLikeStates | Exobook/ViewModels/FeedViewModel.swift:185-194 | the loop only adds the posts whose `likes` names the user, and never removes an id |
| Feed.FeedViewModel.ToggleBookmark | Exobook/ViewModels/FeedViewModel.swift:202-211 | the bookmark set is flipped at that id only |
| Feed.FeedViewModel.LoadFeed | Exobook/ViewModels/FeedViewModel.swift:45-74 | requests the user's courses plus "General - campus". On success it replaces the posts, refilters and marks liked posts. It then seeds the realtime tables: unchanged for an empty feed, `BatchSeed` when the batch counts arrive, `SeedFromPosts` otherwise. On failure it keeps the posts, likes and tables and records the error. It always ends not loading, and the user's data is unchanged |
| PostDetail.StripHTML | Exobook/Views/PostDetailView.swift:333-335 | deletes every match of `<[^>]+>` from left to right; specified by the `StripHTML` lemmas below |
| PostDetail.StripHTMLDeletesOnly | Exobook/Views/PostDetailView.swift:333-335 | stripping only deletes characters: nothing new appears and the text never grows |
| PostDetail.StripHTMLWithoutAngle | Exobook/Views/PostDetailView.swift:333-335 | text without `<` is unchanged |
| PostDetail.StripHTMLKeepsEmptyTag | Exobook/Views/PostDetailView.swift:333-335 | `<>` is kept, because the pattern needs a character between the brackets |
| PostDetail.StripHTMLParagraph | Exobook/Views/PostDetailView.swift:333-335 | `<p>hi</p>` becomes `hi` |
| PostDetail.StripHTMLLeavesNoTag | Exobook/Views/PostDetailView.swift:333-335 | the result holds no match of `<[^>]+>` |
| PostDetail.StripHTMLKeepsTagFree | Exobook/Views/PostDetailView.swift:333-335 | text holding no match is unchanged |
| PostDetail.StripHTMLIdempotent | Exobook/Views/PostDetailView.swift:333-335 | stripping twice equals stripping once |
| PostDetail.PostDetailViewModel.constructor | Exobook/Views/PostDetailView.swift:271-276 | the counts start at the post's array sizes, not liked, no comments |
| PostDetail.PostDetailViewModel.LoadComments | Exobook/Views/PostDetailView.swift:278-290 | success replaces the comments, sets the count to their number and clears the liked flag without touching the like count, so a balanced liked state becomes unbalanced; failure changes nothing |
| PostDetail.PostDetailViewModel.PostComment | Exobook/Views/PostDetailView.swift:292-306 | success appends the reply at the end and the count follows the list; failure changes nothing |
| PostDetail.PostDetailViewModel.ToggleLike | Exobook/Views/PostDetailView.swift:308-328 | success flips the flag and moves the count by +1 or -1; failure restores both exactly; count = opening count + (liked ? 1 : 0) is preserved |
| Explore.HitsOfKind | Exobook/ViewModels/ExploreViewModel.swift:57-59 | the hits of one kind; specified by `HitsOfKindAppend` and `TabsPartitionResults` |
| Explore.Shown | Exobook/ViewModels/ExploreViewModel.swift:52-61 | the results a tab shows; specified by `TabsPartitionResults` |
| Explore.HitsOfKindAppend | Exobook/ViewModels/ExploreViewModel.swift:57-59 | the tab filter distributes over concatenation, so it keeps the order of the hits |
| Explore.TabsPartitionResults | Exobook/ViewModels/ExploreViewModel.swift:52-61 | the Users and Posts tabs split the results between them with multiplicities; All shows everything |
| Explore.ExploreViewModel.constructor | Exobook/ViewModels/ExploreViewModel.swift:39-43 | a new screen has an empty query, no results, the All tab and no recommendations |
| Explore.ExploreViewModel.PerformSearch | Exobook/ViewModels/ExploreViewModel.swift:65-88 | a blank query clears the results; a non-blank query shorter than 2 characters leaves them; a search is scheduled exactly otherwise |
| Explore.ExploreViewModel.ExecuteSearch | Exobook/ViewModels/ExploreViewModel.swift:90-103 | never left searching; success stores the hits; failure leaves no results and the error |
| Explore.ExploreViewModel.ClearSearch | Exobook/ViewModels/ExploreViewModel.swift:105-110 | the query is empty, there are no results and no error |
| Explore.ExploreViewModel.LoadRecommendedContent | Exobook/ViewModels/ExploreViewModel.swift:114-133 | no-op once recommendations exist; otherwise requests the user's courses, or `["General"]` when there are none |
| Explore.ScreensExclusive | Exobook/ViewModels/ExploreViewModel.swift:137-143 | the empty state and the recommendations are never shown together; with an empty query there is no empty state |
| Network.DefaultHeaders | Exobook/Services/NetworkService.swift:101-104 | the headers set before the caller's; specified by `HeaderRules` |
| Network.HeaderRules | Exobook/Services/NetworkService.swift:101-110 | Accept is always set; Content-Type is set exactly for methods other than GET and DELETE or when the caller sets it; a caller's header wins |
| Network.BuildRequest | Exobook/Services/NetworkService.swift:94-119 | an unparsable URL fails first. The headers are the defaults overwritten by the caller's. A body is encoded only for methods other than GET/DELETE and for a non-empty body. An encoding failure becomes `encodingError` |
| Network.Classify | Exobook/Services/NetworkService.swift:143-160 | the status-code switch; specified by `ClassifyRules` |
| Network.ClassifyRules | Exobook/Services/NetworkService.swift:143-160 | 2xx decodes, or fails with `decodingError`. 401 gives `unauthorized`, never `httpError`. Other 4xx and every code outside 200-599 give `httpError` with that code. 5xx gives `serverError` with the body text or "Server error" |
| Network.ErrorDescription | Exobook/Services/NetworkService.swift:170-191 | the message of each error; `HttpErrorDescriptionNamesCode` shows that the HTTP message names its code |
| Network.HttpErrorDescriptionNamesCode | Exobook/Services/NetworkService.swift:177-178 | the description of an HTTP error is "HTTP error: " followed by digits that read back as the status code |
| FeedScreen.WithGeneralFeed | Exobook/FeedView.swift:137-143 | the course list handed to the view model; specified by `WithGeneralFeedRules` |
| FeedScreen.WithGeneralFeedRules | Exobook/FeedView.swift:137-143 | the user's courses come first in order; the general feed is appended only when absent, and then occurs once |
| FeedScreen.LoadFeedNamesGeneralFeedTwice | Exobook/FeedView.swift:137-143 | with the course list `loadFeed` sends, the general feed is named at least twice, and exactly twice when the user's courses did not name it |
| FeedScreen.InitializeViewModel | Exobook/FeedView.swift:135-154 | the view model gets the course list with the general feed; a missing year becomes 1 and a missing campus "Main Campus" |
| FeedScreen.ClearShown | Exobook/FeedView.swift:172 | whether "Clear" is shown; specified by `ClearShownRules` |
| FeedScreen.ClearShownRules | Exobook/FeedView.swift:172 | "Clear" is hidden right after set-up or clearing, and any single toggle from there shows it; any selection of the same size hides it |
| Tabs.TabIndex | Exobook/MainTabs.swift:10-12 | each tab's index is in range and names that tab in `allCases` |
| Tabs.TabsInOrder | Exobook/MainTabs.swift:10-12 | there are five tabs, each at its own index |
| Tabs.MovedIndex | Exobook/MainTabs.swift:64 | the clamped index always lies in [0, 4] |
| Tabs.MovedIndexSteps | Exobook/MainTabs.swift:64-65 | a step past either end stays put; any other step moves exactly one place |
| Tabs.MainTabs.constructor | Exobook/MainTabs.swift:15 | the tab bar opens on the feed tab |
| Tabs.MainTabs.MoveTab | Exobook/MainTabs.swift:62-70 | the selection becomes the tab at the clamped index; reports a move exactly when the selection changed |
| Tabs.MainTabs.OnDragEnded | Exobook/MainTabs.swift:51-58 | a predicted drag below -40 moves to the next tab, above 40 to the previous one, anything else changes nothing |
| Chats.Words | Exobook/Views/ChatsListView.swift:116 | the pieces of a split on spaces are non-empty and hold no space |
| Chats.WordsKeepEveryLetter | Exobook/Views/ChatsListView.swift:116 | the pieces, joined back, are exactly the title's non-space characters in order |
| Chats.WordAlone | Exobook/Views/ChatsListView.swift:116 | a lone word with no space after it is one piece |
| Chats.TwoWords | Exobook/Views/ChatsListView.swift:116 | two words with one space between them are two pieces |
| Chats.WordsSkipLeadingSpace | Exobook/Views/ChatsListView.swift:116 | leading spaces add no word |
| Chats.WordThenSpace | Exobook/Views/ChatsListView.swift:116 | a word followed by a space splits off as the first piece |
| Chats.WordsOfSpaces | Exobook/Views/ChatsListView.swift:116 | a title of spaces only splits into no words |
| Chats.Initials | Exobook/Views/ChatsListView.swift:115-119 | at most two letters, the upper-cased first letters of the first two words in order |
| Chats.InitialsOfTwoWords | Exobook/Views/ChatsListView.swift:116-118 | only the first two words count; whatever follows them adds nothing |
| Chats.InitialsOfShortTitles | Exobook/Views/ChatsListView.swift:116-118 | a one-word title gives its upper-cased first letter; a two-word title gives both first letters in order |
| Chats.InitialsSpaces | Exobook/Views/ChatsListView.swift:116-118 | leading spaces change nothing, and an all-space title has no initials |
| Chats.Avatar | Exobook/Views/ChatsListView.swift:100-109 | initials are drawn exactly when there is no avatar URL |
| Chats.UnreadBadge | Exobook/Views/ChatsListView.swift:80-86 | the badge appears exactly when the unread count is positive |
| Chats.UnreadBadgeShowsCount | Exobook/Views/ChatsListView.swift:80-81 | the badge's digits read back as the unread count |
| Auth.IsFormValid | Exobook/Views/Auth/AuthenticationView.swift:118-123 | the form check; specified by `FormRules` |
| Auth.FormRules | Exobook/Views/Auth/AuthenticationView.swift:70-123 | an empty email, a password under 6 characters, or an empty name when signing up each make the form invalid. Sign-in ignores the name. Submit is disabled exactly when the form is invalid or loading |
| Composer.IsValid | Exobook/Views/Feed/PostComposerView.swift:19-22 | the composer's check; specified by `IsValidIffNotBlank` |
| Composer.IsValidIffNotBlank | Exobook/Views/Feed/PostComposerView.swift:19-22 | a post is valid exactly when both title and content hold a non-white-space character |
| Composer.PostComposer.constructor | Exobook/Views/Feed/PostComposerView.swift:12-15 | the composer opens with empty fields, not posting and no error |
| Composer.PostComposer.PostQuestion | Exobook/Views/Feed/PostComposerView.swift:109-133 | nothing happens when invalid. Success prepends the post and closes the sheet, still marked posting. Failure shows the error and ends posting |

## Left out

- The Pusher transport is not modelled: connecting, channel subscription, event binding, disconnecting and the delegate callbacks. These are a foreign library. The handlers take an already-received payload and the user id captured when the bindings were made.
- `showNotification` is not modelled, because it only prints. The model computes the title and body it would show.
- HTTP calls, JSON coding and `URLSession` are not modelled, because they are I/O. Their outcomes enter as parameters.
- `URL(string:)` is a library call. URLs are strings, and a URL that fails to parse is not modelled, except for the invalid-URL flag of `Network.BuildRequest`.
- Authentication, the chat services and chat transport, configuration constants, dates (`timeAgoDisplay`) and `htmlStripped` are not part of this model.
- The 300 ms search debounce and its task cancellation are not modelled, because they are timing. `Explore.ExploreViewModel.PerformSearch` reports that a search is scheduled, and `ExecuteSearch` is its completion.
- The UserDefaults persistence of bookmarks is not modelled, because it is storage I/O.
- Presentation-only views (cards, action bars, lists, profile screens) are not modelled, because they have no state rules.
- Post fields the rules never read (bio, campus, programme, year, dates) are not modelled. The same holds for search highlights and for the fields of the search response other than the hits.
- Chats.Initials: upper-cases ASCII letters only. Swift's `uppercased()` follows Unicode case mapping, which can turn one character into several.
- Chats.Words: counts Unicode scalars. A Swift `Character` is a grapheme cluster. This also affects `prefix(50)` in the comment excerpt, `count` in the search and password guards, and `first` in the initials.
- Network.BuildRequest: compares header names case-sensitively. `URLRequest.setValue` treats them case-insensitively.
- Network.BuildRequest: iterates the caller's headers in an unspecified order. This does not change the result, since the keys are distinct.
- Feed.FeedViewModel.ToggleLike: assumes nothing runs while the request is in flight. Interleavings at the await are covered by calling `BeginToggleLike` and `FinishToggleLike` separately.
- PostDetail.PostDetailViewModel.ToggleLike: assumes nothing runs while the request is in flight. The revert reassigns the saved values, so an interleaved toggle would be overwritten.
- Composer.PostComposer.PostQuestion: runs the posting task to completion in one call. The sheet's dismissal is reported as a flag.
- Tabs.MainTabs.OnDragEnded: takes the predicted translation as a real number. The floating-point edge cases of `CGFloat` are not modelled. Neither are the animation and the haptic feedback.
- `User.programme` and `SearchHit.id` (`Users.Programme`, `Search.HitId`) are plain field aliases. They are defined, but nothing is proved about them.
- Realtime.Decode: JSON numbers are integers only. Swift's `as? Int` also accepts an integral floating `NSNumber` such as 3.0, which the model's `JOther` rejects.
- `refreshFeed` only calls `loadFeed`, so it is not modelled separately.
- The live `dragOffset` gesture state is not modelled, because nothing reads it.
