/** Search results as the search endpoint returns them: a hit wraps a
    document that is either a user profile or a post. */
module Search {
  import opened Text
  import Posts

  datatype SearchDocument = SearchDocument(
    id: string,
    userId: string,
    userName: string,
    userBio: Option<string>,
    userPicture: string,
    userCampus: Option<string>,
    userProgramme: Option<string>,
    title: Option<string>,
    content: Option<string>,
    subject: Option<string>)

  datatype SearchHit = SearchHit(document: SearchDocument, textMatch: Option<int>)

  /** A document with neither title nor content is a user profile. */
  predicate IsUserResult(d: SearchDocument) {
    d.title.None? && d.content.None?
  }

  /** `SearchDocument.avatarURL`: absolute URLs are kept and everything else,
      paths starting with "/" included, is taken as an S3 key. */
  function DocumentAvatarURL(d: SearchDocument): (r: string)
    ensures StartsWith(d.userPicture, "http") ==> r == d.userPicture
    ensures !StartsWith(d.userPicture, "http") ==> r == Posts.S3Base + d.userPicture
  {
    if StartsWith(d.userPicture, "http") then d.userPicture else Posts.S3Base + d.userPicture
  }

  /** The search rule agrees with the post/user rule except on "/" paths,
      which it sends to S3 instead of the site. */
  lemma DocumentAvatarVersusPostAvatar(d: SearchDocument)
    ensures !StartsWith(d.userPicture, "/") ==> DocumentAvatarURL(d) == Posts.AvatarURL(d.userPicture)
    ensures StartsWith(d.userPicture, "/") ==> DocumentAvatarURL(d) != Posts.AvatarURL(d.userPicture)
  {
    var p := d.userPicture;
    if StartsWith(p, "/") {
      assert !StartsWith(p, "http") by { assert p[0] == '/'; }
      assert DocumentAvatarURL(d)[16] == 's' && Posts.AvatarURL(p)[16] == 'c';
    }
  }

  /** `SearchHit.id` */
  function HitId(h: SearchHit): (r: string)
    ensures r == h.document.id
  {
    h.document.id
  }
}
