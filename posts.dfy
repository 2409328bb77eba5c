/** The `Post` and `Reply` records the API returns, with the computed
    properties the feed, the detail screen and the realtime tables read:
    like and comment counts, the author's avatar URL and the image URLs. */
module Posts {
  import opened Text

  /** Where uploaded pictures and images live. */
  const S3Base: string := "https://exobook.s3.amazonaws.com/"
  /** Where static assets (paths starting with "/") live. */
  const SiteBase: string := "https://exobook.ca"

  datatype Post = Post(
    id: string,
    userId: string,
    username: string,
    userName: Option<string>,
    userPicture: string,
    title: string,
    content: string,
    subject: string,          // the course code the post belongs to
    images: seq<string>,      // S3 keys
    likes: Option<seq<string>>,     // ids of the users who liked it
    comments: Option<seq<string>>)  // ids of its comments

  datatype Reply = Reply(
    id: string,
    postId: Option<string>,
    replyId: Option<string>,
    userId: string,
    content: string)

  /** `likes?.count ?? 0` */
  function LikeCount(p: Post): nat {
    if p.likes.Some? then |p.likes.value| else 0
  }

  /** `comments?.count ?? 0` */
  function CommentCount(p: Post): nat {
    if p.comments.Some? then |p.comments.value| else 0
  }

  /** The post's `likes` array names user u. */
  predicate LikedBy(p: Post, u: string) {
    p.likes.Some? && u in p.likes.value
  }

  /** A post the user has liked has a like count of at least one, and a post
      with a like count of zero is liked by nobody. */
  lemma LikedImpliesCounted(p: Post, u: string)
    ensures LikedBy(p, u) ==> LikeCount(p) >= 1
    ensures LikeCount(p) == 0 ==> !LikedBy(p, u)
  {
  }

  /** The avatar rule shared by `Post.userAvatarURL` and `User.avatarURL`:
      absolute URLs are kept, paths starting with "/" are static assets on the
      site, and anything else is an S3 key. */
  function AvatarURL(picture: string): (r: string)
    ensures StartsWith(r, "http")
  {
    if StartsWith(picture, "http") then picture
    else if StartsWith(picture, "/") then SiteBase + picture
    else S3Base + picture
  }

  /** The avatar rule maps its own results to themselves; it keeps an
      absolute URL as it is, and otherwise keeps the picture as the tail of
      the URL, so the URL determines the picture. */
  lemma AvatarURLIdempotent(picture: string)
    ensures AvatarURL(AvatarURL(picture)) == AvatarURL(picture)
    ensures StartsWith(picture, "http") ==> AvatarURL(picture) == picture
    ensures !StartsWith(picture, "http") && StartsWith(picture, "/")
            ==> AvatarURL(picture) == SiteBase + picture
    ensures !StartsWith(picture, "http") && !StartsWith(picture, "/")
            ==> AvatarURL(picture) == S3Base + picture
  {
  }

  /** `Post.userAvatarURL` */
  function UserAvatarURL(p: Post): string {
    AvatarURL(p.userPicture)
  }

  /** `Post.imageURLs`: every image key behind the S3 prefix, in order; the key
      can be read back from the URL. */
  function ImageURLs(p: Post): (r: seq<string>)
    ensures |r| == |p.images|
    ensures forall i :: 0 <= i < |r| ==> StartsWith(r[i], S3Base) && r[i][|S3Base|..] == p.images[i]
  {
    seq(|p.images|, i requires 0 <= i < |p.images| => S3Base + p.images[i])
  }

  /** The ids of the posts in ps whose `likes` names user u. */
  function LikedIds(ps: seq<Post>, u: string): set<string> {
    if ps == [] then {}
    else LikedIds(ps[..|ps| - 1], u) + (if LikedBy(ps[|ps| - 1], u) then {ps[|ps| - 1].id} else {})
  }

  /** An id is in LikedIds exactly when some post with that id is liked by u. */
  lemma {:induction false} LikedIdsMembership(ps: seq<Post>, u: string, id: string)
    ensures id in LikedIds(ps, u) <==> exists i :: 0 <= i < |ps| && ps[i].id == id && LikedBy(ps[i], u)
  {
    if ps != [] {
      var init := ps[..|ps| - 1];
      LikedIdsMembership(init, u, id);
      if id in LikedIds(init, u) {
        var i :| 0 <= i < |init| && init[i].id == id && LikedBy(init[i], u);
        assert ps[i] == init[i];
      }
      if exists i :: 0 <= i < |ps| && ps[i].id == id && LikedBy(ps[i], u) {
        var i :| 0 <= i < |ps| && ps[i].id == id && LikedBy(ps[i], u);
        if i < |init| { assert init[i] == ps[i]; }
      }
    }
  }
}
