/** The post detail screen's view model (`PostDetailViewModel`): a local like
    flag and like count moved optimistically and put back on failure, the
    loaded comments and their count; and `stripHTML`, which removes markup
    from a post's content before it is shown. */
module PostDetail {
  import opened Text
  import opened Posts

  // ---------------------------------------------------------------------------
  // stripHTML: delete every match of the pattern `<[^>]+>`

  /** The pattern matches at the start of s: a `<`, then at least one
      character that is not `>`, up to the first `>` after it. */
  predicate StartsTag(s: string) {
    |s| >= 2 && s[0] == '<' && s[1] != '>' && '>' in s[2..]
  }

  /** `stripHTML(from:)`: a left-to-right scan that deletes each match and
      resumes after it. Where no match starts, the character is kept. */
  function StripHTML(s: string): string
    decreases |s|
  {
    if s == [] then []
    else if StartsTag(s) then StripHTML(s[IndexOf(s, '>') + 1..])
    else [s[0]] + StripHTML(s[1..])
  }

  /** No position of s starts a match of the pattern. */
  predicate NoTag(s: string) {
    forall i :: 0 <= i < |s| ==> !StartsTag(s[i..])
  }

  /** Stripping only deletes: every character of the result occurs in the
      input, and the result is never longer. */
  lemma {:induction false} StripHTMLDeletesOnly(s: string, c: char)
    ensures c in StripHTML(s) ==> c in s
    ensures |StripHTML(s)| <= |s|
    decreases |s|
  {
    if s != [] {
      if StartsTag(s) {
        var rest := s[IndexOf(s, '>') + 1..];
        StripHTMLDeletesOnly(rest, c);
        if c in rest {
          var k :| 0 <= k < |rest| && rest[k] == c;
          assert s[IndexOf(s, '>') + 1 + k] == c;
        }
      } else {
        StripHTMLDeletesOnly(s[1..], c);
        if c in s[1..] {
          var k :| 0 <= k < |s[1..]| && s[1..][k] == c;
          assert s[1 + k] == c;
        }
      }
    }
  }

  /** Text with no `<` is left as it is. */
  lemma {:induction false} StripHTMLWithoutAngle(s: string)
    requires '<' !in s
    ensures StripHTML(s) == s
    decreases |s|
  {
    if s != [] {
      assert forall k :: 0 <= k < |s[1..]| ==> s[1..][k] == s[1 + k];
      StripHTMLWithoutAngle(s[1..]);
    }
  }

  /** The pattern needs at least one character between the brackets, so an
      empty tag is kept. */
  lemma StripHTMLKeepsEmptyTag()
    ensures StripHTML("<>") == "<>"
  {
    assert !StartsTag("<>");
    assert "<>"[1..] == ">";
    assert StripHTML(">") == ">";
  }

  /** A tag pair around a word leaves the word. */
  lemma StripHTMLParagraph()
    ensures StripHTML("<p>hi</p>") == "hi"
  {
    var u := "</p>";
    assert IndexOf(u, '>') == 3;
    assert u[4..] == [];
    assert StripHTML(u) == [];
    var w := "i</p>";
    assert !StartsTag(w) && w[1..] == u;
    assert StripHTML(w) == "i";
    var v := "hi</p>";
    assert !StartsTag(v) && v[1..] == w;
    assert StripHTML(v) == "hi";
    var t := "<p>hi</p>";
    assert IndexOf(t, '>') == 2;
    assert t[3..] == v;
  }

  /** The result holds no match of the pattern. */
  lemma {:induction false} StripHTMLLeavesNoTag(s: string)
    ensures NoTag(StripHTML(s))
    decreases |s|
  {
    if s != [] {
      if StartsTag(s) {
        StripHTMLLeavesNoTag(s[IndexOf(s, '>') + 1..]);
      } else {
        var rest := StripHTML(s[1..]);
        StripHTMLLeavesNoTag(s[1..]);
        var r := [s[0]] + rest;
        assert StripHTML(s) == r;
        forall i | 0 <= i < |r| ensures !StartsTag(r[i..]) {
          if i == 0 {
            if s[0] == '<' && |s| >= 2 {
              if s[1] == '>' {
                assert !StartsTag(s[1..]);
                assert rest == [s[1]] + StripHTML(s[1..][1..]);
                assert r[1] == '>';
              } else {
                assert s[1..] == [s[1]] + s[2..];
                StripHTMLDeletesOnly(s[1..], '>');
                assert r[1..] == rest;
                assert forall k :: 0 <= k < |r[2..]| ==> r[2..][k] == rest[k + 1];
              }
            } else if s[0] == '<' {
              StripHTMLDeletesOnly(s[1..], '>');
              assert |rest| == 0;
            }
          } else {
            assert r[i..] == rest[i - 1..];
          }
        }
      }
    }
  }

  /** Text without a match is left as it is. */
  lemma {:induction false} StripHTMLKeepsTagFree(s: string)
    requires NoTag(s)
    ensures StripHTML(s) == s
    decreases |s|
  {
    if s != [] {
      assert !StartsTag(s[0..]);
      assert s[0..] == s;
      assert NoTag(s[1..]) by {
        forall i | 0 <= i < |s[1..]| ensures !StartsTag(s[1..][i..]) {
          assert s[1..][i..] == s[i + 1..];
        }
      }
      StripHTMLKeepsTagFree(s[1..]);
    }
  }

  /** Stripping twice is stripping once. */
  lemma StripHTMLIdempotent(s: string)
    ensures StripHTML(StripHTML(s)) == StripHTML(s)
  {
    StripHTMLLeavesNoTag(s);
    StripHTMLKeepsTagFree(StripHTML(s));
  }

  // ---------------------------------------------------------------------------
  // The view model

  /** The `CreateReplyRequest` that `postComment` sends. */
  datatype ReplyRequest = ReplyRequest(postId: string, userId: string, content: string)

  class PostDetailViewModel {
    const post: Post
    const currentUserId: string

    var comments: seq<Reply>
    var isLoadingComments: bool
    var isLiked: bool
    var likeCount: int
    var commentCount: int

    /** The like count the screen opened with. */
    ghost const likeBaseline: int

    /** The local count is the opening count plus one while the flag is set.
        The like toggle keeps this; a successful comment load can break it,
        because it clears the flag and leaves the count. */
    ghost predicate Balanced()
      reads this
    {
      likeCount == likeBaseline + (if isLiked then 1 else 0)
    }

    constructor (post: Post, currentUserId: string)
      ensures this.post == post && this.currentUserId == currentUserId
      ensures likeCount == LikeCount(post) && commentCount == CommentCount(post)
      ensures !isLiked && comments == [] && !isLoadingComments
      ensures likeBaseline == LikeCount(post) && Balanced()
    {
      this.post := post;
      this.currentUserId := currentUserId;
      likeCount := LikeCount(post);
      commentCount := CommentCount(post);
      likeBaseline := LikeCount(post);
      comments := [];
      isLoadingComments := false;
      isLiked := false;
    }

    /** `loadComments`: on success the comments are replaced, the count is
        their number and the like flag is cleared (the like count is not
        touched); on failure nothing but the loading flag changes. */
    method LoadComments(fetched: Result<seq<Reply>, string>)
      modifies this`comments, this`commentCount, this`isLiked, this`isLoadingComments
      ensures !isLoadingComments
      ensures fetched.Ok? ==> comments == fetched.value && commentCount == |fetched.value| && !isLiked
      ensures fetched.Err? ==> comments == old(comments) && commentCount == old(commentCount) && isLiked == old(isLiked)
      ensures likeCount == old(likeCount)
      ensures fetched.Ok? && old(isLiked) && old(Balanced()) ==> !Balanced()
    {
      isLoadingComments := true;
      if fetched.Ok? {
        comments := fetched.value;
        commentCount := |comments|;
        isLiked := false;
      }
      isLoadingComments := false;
    }

    /** `postComment`: sends the reply request; on success the new reply goes
        last and the count follows the list; a failure changes nothing. */
    method PostComment(content: string, created: Result<Reply, string>) returns (request: ReplyRequest)
      modifies this`comments, this`commentCount
      ensures request == ReplyRequest(post.id, currentUserId, content)
      ensures created.Ok? ==> comments == old(comments) + [created.value] && commentCount == |comments|
      ensures created.Err? ==> comments == old(comments) && commentCount == old(commentCount)
    {
      request := ReplyRequest(post.id, currentUserId, content);
      if created.Ok? {
        comments := comments + [created.value];
        commentCount := |comments|;
      }
    }

    /** `toggleLike`: flip the flag and move the count one step its way, send
        a like when the flag is now set and an unlike otherwise, and put both
        back exactly as they were when the request fails. */
    method ToggleLike(request: Outcome) returns (sentLike: bool)
      modifies this`isLiked, this`likeCount
      ensures sentLike == !old(isLiked)
      ensures request.Success? ==> isLiked == !old(isLiked) && likeCount == old(likeCount) + (if isLiked then 1 else -1)
      ensures request.Failure? ==> isLiked == old(isLiked) && likeCount == old(likeCount)
      ensures old(Balanced()) ==> Balanced()
    {
      var previousState := isLiked;
      var previousCount := likeCount;
      isLiked := !isLiked;
      likeCount := likeCount + (if isLiked then 1 else -1);
      sentLike := isLiked;
      if request.Failure? {
        isLiked := previousState;
        likeCount := previousCount;
      }
    }
  }
}
